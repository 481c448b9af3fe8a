/**
 * The teacher create/edit panel: a twelve-field text draft, the prefill from
 * an edited teacher or from the signed-in user, and the submit that turns
 * three fields into numbers. It has an error map but never validates.
 */
module CreateTeacher {
  import opened Wrappers
  import opened Text
  import opened Drafts
  import AuthContext

  type User = AuthContext.User

  /** The fields the edit prefill copies as text (`x || ""`). */
  const TextFields: set<string> :=
    {"name", "qualification", "mobile_no", "whatsapp_no", "address_1", "address_2", "city", "state", "email"}

  /** The fields stored as numbers and sent as numbers. */
  const NumericFields: set<string> := {"pincode", "role", "organization"}

  const EmptyDraft: map<string, string> :=
    map["name" := "", "qualification" := "", "mobile_no" := "", "whatsapp_no" := "", "address_1" := "",
        "address_2" := "", "city" := "", "state" := "", "pincode" := "", "email" := "", "role" := "",
        "organization" := ""]

  /** The draft still holds every field of the initial draft (handlers only add or overwrite). */
  predicate HasDraftFields(f: map<string, string>) {
    EmptyDraft.Keys <= f.Keys
  }

  // ---------------------------------------------------------------- prefill

  /** The edited teacher: its text properties and its three numeric ones, any of which may be missing. */
  datatype TeacherRecord = TeacherRecord(text: map<string, string>, pincode: Option<int>, role: Option<int>,
                                         organization: Option<int>)

  /** The draft the prefill installs for an edited teacher: the twelve fields and nothing else. */
  function EditDraft(t: TeacherRecord): map<string, string> {
    TextPart(t)["pincode" := NumberText(t.pincode)]["role" := NumberText(t.role)]["organization" := NumberText(t.organization)]
  }

  /** The nine text fields of an edit prefill, each "" when the record lacks it. */
  function TextPart(t: TeacherRecord): (m: map<string, string>)
    ensures m.Keys == TextFields
    ensures forall k :: k in m ==> m[k] == Field(t.text, k)
  {
    map k | k in TextFields :: Field(t.text, k)
  }

  /** The create-mode prefill: a user with an organization lends it and their role. */
  function CreateDraft(f: map<string, string>, user: Option<User>): map<string, string> {
    if user.Some? && user.value.organization != 0 then
      f["organization" := IntToString(user.value.organization)]["role" := IntToString(user.value.role)]
    else f
  }

  function PrefillDraft(f: map<string, string>, teacherData: Option<TeacherRecord>, user: Option<User>): map<string, string> {
    if teacherData.Some? then EditDraft(teacherData.value) else CreateDraft(f, user)
  }

  /** Editing: exactly the twelve fields, each missing one as "", the numbers as their decimal text. */
  lemma EditPrefill(t: TeacherRecord)
    ensures EditDraft(t).Keys == TextFields + NumericFields
    ensures forall k :: k in TextFields ==> EditDraft(t)[k] == (if k in t.text then t.text[k] else "")
    ensures EditDraft(t)["pincode"] == NumberText(t.pincode) && EditDraft(t)["role"] == NumberText(t.role)
    ensures EditDraft(t)["organization"] == NumberText(t.organization)
  {
    assert TextFields !! NumericFields;
  }

  /** Creating: only `organization` and `role` change, both taken from the user. */
  lemma CreatePrefill(f: map<string, string>, user: User)
    requires user.organization != 0
    ensures var r := CreateDraft(f, Some(user));
      && r.Keys == f.Keys + {"organization", "role"}
      && NumberOf(r["organization"]) == Int(user.organization) && NumberOf(r["role"]) == Int(user.role)
      && (forall k :: k in f && k !in {"organization", "role"} ==> r[k] == f[k])
  {
    NumberOfIntToString(user.organization);
    NumberOfIntToString(user.role);
  }

  // ---------------------------------------------------------------- submit

  /** `{...formData, role: Number(..), pincode: .. ? parseInt(..) : undefined, organization: Number(..)}` */
  datatype TeacherPayload = TeacherPayload(text: map<string, string>, role: Num, pincode: Option<Num>, organization: Num)

  /** The organization text `formData.organization || user?.organization || 0` gives to `Number`. */
  function OrganizationNumber(f: map<string, string>, user: Option<User>): Num {
    var o := Field(f, "organization");
    if o != "" then NumberOf(o)
    else if user.Some? && user.value.organization != 0 then Int(user.value.organization)
    else Int(0)
  }

  function SubmitPayload(f: map<string, string>, user: Option<User>): (p: TeacherPayload)
    ensures p.text.Keys == f.Keys - NumericFields
    ensures forall k :: k in p.text ==> p.text[k] == f[k]
  {
    var pincode := Field(f, "pincode");
    TeacherPayload(f - NumericFields, NumberOf(Field(f, "role")),
                   if pincode != "" then Some(ParseInt(pincode)) else None,
                   OrganizationNumber(f, user))
  }

  /** `pincode` is left out exactly when the field is empty; an empty organization falls back to the user's, or 0. */
  lemma PayloadRules(f: map<string, string>, user: Option<User>)
    ensures SubmitPayload(f, user).pincode.None? <==> Field(f, "pincode") == ""
    ensures Field(f, "pincode") != "" ==> SubmitPayload(f, user).pincode == Some(ParseInt(f["pincode"]))
    ensures Field(f, "organization") == "" ==>
      SubmitPayload(f, user).organization == Int(if user.Some? then user.value.organization else 0)
    ensures Field(f, "organization") != "" ==> SubmitPayload(f, user).organization == NumberOf(f["organization"])
    ensures SubmitPayload(f, user).role == NumberOf(Field(f, "role"))
  {
  }

  /**
   * Opening a stored teacher and submitting without edits sends back its
   * numbers: pincode, role and organization survive the text round trip.
   */
  lemma EditSubmitRoundTrip(t: TeacherRecord, user: Option<User>)
    ensures var p := SubmitPayload(EditDraft(t), user);
      && (t.pincode.Some? ==> p.pincode == Some(Int(t.pincode.value)))
      && (t.pincode.None? ==> p.pincode == None)
      && p.role == Int(t.role.GetOr(0))
      && (t.organization.Some? ==> p.organization == Int(t.organization.value))
      && (forall k :: k in TextFields ==> p.text[k] == Field(t.text, k))
  {
    var d := EditDraft(t);
    var p := SubmitPayload(d, user);
    EditPrefill(t);
    assert forall k :: k in TextFields ==> p.text[k] == Field(t.text, k) by {
      assert TextFields !! NumericFields;
    }
    assert t.pincode.Some? ==> p.pincode == Some(Int(t.pincode.value)) by {
      if t.pincode.Some? {
        ParseIntOfIntToString(t.pincode.value);
      }
    }
    assert p.role == Int(t.role.GetOr(0)) by {
      NumberTextRoundTrip(t.role);
    }
    assert t.organization.Some? ==> p.organization == Int(t.organization.value) by {
      NumberTextRoundTrip(t.organization);
    }
  }

  // ---------------------------------------------------------------- the panel

  class TeacherPanel {
    var formData: map<string, string>
    var errors: map<string, string>

    /** Nothing ever writes a message: the error map stays empty. */
    predicate NoErrors()
      reads this
    {
      errors == map[]
    }

    constructor ()
      ensures formData == EmptyDraft && NoErrors() && HasDraftFields(formData)
    {
      formData := EmptyDraft;
      errors := map[];
    }

    /** The prefill effect, run when `teacherData` or `user` changes. */
    method Prefill(teacherData: Option<TeacherRecord>, user: Option<User>)
      requires HasDraftFields(formData)
      modifies this
      ensures formData == PrefillDraft(old(formData), teacherData, user) && errors == old(errors)
      ensures HasDraftFields(formData)
    {
      if teacherData.Some? {
        EditPrefill(teacherData.value);
        formData := EditDraft(teacherData.value);
      } else if user.Some? && user.value.organization != 0 {
        formData := formData["organization" := IntToString(user.value.organization)];
        formData := formData["role" := IntToString(user.value.role)];
      }
    }

    /** `handleChange` for the input called `name`. */
    method HandleChange(name: string, value: string)
      requires HasDraftFields(formData)
      modifies this
      ensures formData == old(formData)[name := value]
      ensures HasDraftFields(formData)
      ensures errors == ClearShownError(old(errors), name)
      ensures old(NoErrors()) ==> NoErrors()
    {
      formData := formData[name := value];
      if name in errors && errors[name] != "" {
        errors := errors[name := ""];
      }
    }

    /** `handleSubmit`: no validation, `onSubmit` is called once with the payload. */
    method HandleSubmit(user: Option<User>) returns (payload: TeacherPayload)
      ensures payload == SubmitPayload(formData, user)
    {
      payload := SubmitPayload(formData, user);
    }
  }
}
