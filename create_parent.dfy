/**
 * The parent create/edit panel: a text draft, the validation that fills an
 * error map field by field, the prefill from an edited record or the signed-in
 * user, and the submit that builds the numeric payload and picks a mutation.
 */
module CreateParent {
  import opened Wrappers
  import opened Text
  import opened Drafts
  import AuthContext

  type User = AuthContext.User

  const Required := "This field is required"
  const InvalidEmail := "Invalid email format"
  const TenDigits := "Must be 10 digits"
  const SixDigits := "Must be 6 digits"

  /** The fields `validate` requires, in the order it visits them. */
  const RequiredFields: seq<string> :=
    ["name", "email", "relation", "address_1", "city", "state", "pincode", "mobile_no", "whatsapp_no"]

  /** The initial draft: twelve empty fields. */
  const EmptyDraft: map<string, string> :=
    map["name" := "", "email" := "", "relation" := "", "address_1" := "", "address_2" := "",
        "city" := "", "state" := "", "pincode" := "", "mobile_no" := "", "whatsapp_no" := "",
        "organization" := "", "role" := ""]

  /** The draft still holds every field of the initial draft (handlers only add or overwrite). */
  predicate HasDraftFields(f: map<string, string>) {
    EmptyDraft.Keys <= f.Keys
  }

  // ---------------------------------------------------------------- validation

  /** Field `k` is filled in but breaks its format rule: the email pattern, ten digits or six digits. */
  predicate FormatFails(f: map<string, string>, k: string) {
    var v := Field(f, k);
    && v != ""
    && if k == "email" then !MatchesEmailPattern(v)
       else if k == "mobile_no" || k == "whatsapp_no" then !ExactDigits(v, 10)
       else if k == "pincode" then !ExactDigits(v, 6)
       else false
  }

  /** The message a broken format rule reports. */
  function FormatMessage(k: string): string {
    if k == "email" then InvalidEmail else if k == "pincode" then SixDigits else TenDigits
  }

  /** The message field `k` gets on its own: a broken format rule wins over the required check. */
  function ExpectedError(f: map<string, string>, k: string): (r: Option<string>)
    ensures r.Some? ==> k in RequiredFields && r.value in {Required, InvalidEmail, TenDigits, SixDigits}
  {
    if FormatFails(f, k) then Some(FormatMessage(k))
    else if k in RequiredFields && Field(f, k) == "" then Some(Required)
    else None
  }

  /** What the required-field pass leaves after visiting `fields`: `Required` for each empty one. */
  function RequiredPass(f: map<string, string>, fields: seq<string>): map<string, string> {
    map k | k in fields && Field(f, k) == "" :: Required
  }

  /** Visiting one more field adds `Required` for it exactly when it is empty. */
  lemma RequiredPassStep(f: map<string, string>, fields: seq<string>, k: string)
    ensures RequiredPass(f, fields + [k]) ==
      if Field(f, k) == "" then RequiredPass(f, fields)[k := Required] else RequiredPass(f, fields)
  {
  }

  /** One format check: `if (bad) newErrors[k] = message`. */
  function Check(e: map<string, string>, k: string, bad: bool, message: string): map<string, string> {
    if bad then e[k := message] else e
  }

  /** The error map `validate` produces: the required pass, then the four format checks in order. */
  function ParentErrors(f: map<string, string>): map<string, string> {
    Check(Check(Check(Check(RequiredPass(f, RequiredFields),
      "email", FormatFails(f, "email"), InvalidEmail),
      "mobile_no", FormatFails(f, "mobile_no"), TenDigits),
      "whatsapp_no", FormatFails(f, "whatsapp_no"), TenDigits),
      "pincode", FormatFails(f, "pincode"), SixDigits)
  }

  /** Field by field, the error map holds exactly the message each required field earns on its own. */
  lemma ParentErrorsAt(f: map<string, string>, k: string)
    ensures k in ParentErrors(f) <==> k in RequiredFields && ExpectedError(f, k).Some?
    ensures k in ParentErrors(f) ==> ParentErrors(f)[k] == ExpectedError(f, k).value
  {
    var base := RequiredPass(f, RequiredFields);
    assert k in base <==> k in RequiredFields && Field(f, k) == "";
    if k in ["email", "mobile_no", "whatsapp_no", "pincode"] {
      assert k in RequiredFields;
    } else {
      assert !FormatFails(f, k);
    }
  }

  /** A draft that passes: every required field filled in, and each format check met. */
  predicate ParentDraftValid(f: map<string, string>) {
    && (forall k :: k in RequiredFields ==> Field(f, k) != "")
    && MatchesEmailPattern(Field(f, "email"))
    && ExactDigits(Field(f, "mobile_no"), 10)
    && ExactDigits(Field(f, "whatsapp_no"), 10)
    && ExactDigits(Field(f, "pincode"), 6)
  }

  /** The `newErrors` that `validate` builds for `formData`, step by step. */
  method CollectErrors(formData: map<string, string>) returns (newErrors: map<string, string>)
    ensures newErrors == ParentErrors(formData)
  {
    newErrors := map[];
    for i := 0 to |RequiredFields|
      invariant newErrors == RequiredPass(formData, RequiredFields[..i])
    {
      var field := RequiredFields[i];
      assert RequiredFields[..i + 1] == RequiredFields[..i] + [field];
      RequiredPassStep(formData, RequiredFields[..i], field);
      if Field(formData, field) == "" {
        newErrors := newErrors[field := Required];
      }
    }
    assert RequiredFields[..|RequiredFields|] == RequiredFields;
    if FormatFails(formData, "email") {
      newErrors := newErrors["email" := InvalidEmail];
    }
    if FormatFails(formData, "mobile_no") {
      newErrors := newErrors["mobile_no" := TenDigits];
    }
    if FormatFails(formData, "whatsapp_no") {
      newErrors := newErrors["whatsapp_no" := TenDigits];
    }
    if FormatFails(formData, "pincode") {
      newErrors := newErrors["pincode" := SixDigits];
    }
  }

  /** Errors are only ever reported for required fields, and only with one of the four messages. */
  lemma ErrorsWellFormed(f: map<string, string>)
    ensures forall k :: k in ParentErrors(f) ==> k in RequiredFields
    ensures forall k :: k in ParentErrors(f) ==>
      ParentErrors(f)[k] in {Required, InvalidEmail, TenDigits, SixDigits}
    ensures "address_2" !in ParentErrors(f) && "role" !in ParentErrors(f) && "organization" !in ParentErrors(f)
  {
    forall k | k in ParentErrors(f)
      ensures k in RequiredFields && ParentErrors(f)[k] in {Required, InvalidEmail, TenDigits, SixDigits}
    {
      ParentErrorsAt(f, k);
      assert ExpectedError(f, k).Some?;
    }
    ParentErrorsAt(f, "address_2");
    ParentErrorsAt(f, "role");
    ParentErrorsAt(f, "organization");
  }

  /** Every empty required field is reported as required. */
  lemma EmptyFieldIsRequired(f: map<string, string>, k: string)
    requires k in RequiredFields && Field(f, k) == ""
    ensures k in ParentErrors(f) && ParentErrors(f)[k] == Required
  {
    ParentErrorsAt(f, k);
  }

  /** A filled-in email is reported exactly when it does not match the pattern. */
  lemma EmailRule(f: map<string, string>)
    requires Field(f, "email") != ""
    ensures "email" in ParentErrors(f) <==> !EmailShape(Field(f, "email"))
    ensures "email" in ParentErrors(f) ==> ParentErrors(f)["email"] == InvalidEmail
  {
    ParentErrorsAt(f, "email");
    EmailPatternShape(Field(f, "email"));
  }

  /** Filled-in phone numbers need exactly ten digits and a filled-in pincode exactly six. */
  lemma DigitRules(f: map<string, string>, k: string)
    requires k in {"mobile_no", "whatsapp_no", "pincode"} && Field(f, k) != ""
    ensures var n := if k == "pincode" then 6 else 10;
      (k in ParentErrors(f) <==> !ExactDigits(Field(f, k), n)) &&
      (k in ParentErrors(f) ==> ParentErrors(f)[k] == (if k == "pincode" then SixDigits else TenDigits))
  {
    ParentErrorsAt(f, k);
  }

  /** `validate` returns true exactly for a valid draft. */
  lemma ValidIffNoErrors(f: map<string, string>)
    ensures ParentErrors(f) == map[] <==> ParentDraftValid(f)
  {
    if ParentErrors(f) == map[] {
      forall k | k in RequiredFields
        ensures Field(f, k) != ""
      {
        ParentErrorsAt(f, k);
      }
      ParentErrorsAt(f, "email");
      ParentErrorsAt(f, "mobile_no");
      ParentErrorsAt(f, "whatsapp_no");
      ParentErrorsAt(f, "pincode");
    } else {
      var k :| k in ParentErrors(f);
      ParentErrorsAt(f, k);
    }
  }

  /** "not-an-email" is refused, "12345" is not a pincode, and "9876543210" is a phone number. */
  lemma ValidationExamples(f: map<string, string>)
    requires Field(f, "email") == "not-an-email"
    requires Field(f, "pincode") == "12345"
    requires Field(f, "mobile_no") == "9876543210"
    ensures "email" in ParentErrors(f) && ParentErrors(f)["email"] == InvalidEmail
    ensures "pincode" in ParentErrors(f) && ParentErrors(f)["pincode"] == SixDigits
    ensures "mobile_no" !in ParentErrors(f)
  {
    assert "email" in ParentErrors(f) && ParentErrors(f)["email"] == InvalidEmail by {
      EmailRejectsExample();
      ParentErrorsAt(f, "email");
    }
    assert "pincode" in ParentErrors(f) && ParentErrors(f)["pincode"] == SixDigits by {
      ParentErrorsAt(f, "pincode");
    }
    assert "mobile_no" !in ParentErrors(f) by {
      AllDigitsConcat("98765", "43210");
      assert AllDigits("98765") && AllDigits("43210") && "98765" + "43210" == "9876543210";
      ParentErrorsAt(f, "mobile_no");
    }
  }

  // ---------------------------------------------------------------- the pincode as a number

  /** A six-digit pincode is a number in [0, 999999]. */
  lemma PincodeInRange(p: string)
    requires ExactDigits(p, 6)
    ensures NumberOf(p).Int? && 0 <= NumberOf(p).value <= 999999
  {
    assert p != "";
    assert Pow10(6) == 1000000;
  }

  /** `Number` then `toString` gives back a six-digit pincode exactly when it does not start with '0'. */
  lemma PincodeTextRoundTrip(p: string)
    requires ExactDigits(p, 6)
    ensures NumberOf(p).Int? && (IntToString(NumberOf(p).value) == p <==> p[0] != '0')
  {
    assert p != "";
    DigitsRoundTrip(p);
  }

  // ---------------------------------------------------------------- prefill

  /** The edited parent as the list returns it: its id, its text properties and its three numeric ones. */
  datatype ParentRecord = ParentRecord(id: int, attributes: map<string, string>,
                                       organization: Option<int>, role: Option<int>, pincode: Option<int>)

  /** The organization field of an edit prefill: the record's, else the user's, else "". */
  function PrefillOrganization(p: ParentRecord, user: Option<User>): string {
    if p.organization.Some? then IntToString(p.organization.value)
    else if user.Some? then IntToString(user.value.organization)
    else ""
  }

  /** The draft after the prefill effect. */
  function PrefillDraft(f: map<string, string>, parentData: Option<ParentRecord>, user: Option<User>): map<string, string> {
    if parentData.Some? then
      var p := parentData.value;
      (f + p.attributes)["organization" := PrefillOrganization(p, user)]
                        ["role" := NumberText(p.role)]["pincode" := NumberText(p.pincode)]
    else if user.Some? && user.value.organization != 0 then
      f["organization" := IntToString(user.value.organization)]["role" := ""]
    else f
  }

  /** Editing: the record's text wins over the draft, and its numbers become texts ("" when missing). */
  lemma EditPrefill(f: map<string, string>, p: ParentRecord, user: Option<User>)
    ensures var r := PrefillDraft(f, Some(p), user);
      && r.Keys == f.Keys + p.attributes.Keys + {"organization", "role", "pincode"}
      && (forall k :: k in p.attributes && k !in {"organization", "role", "pincode"} ==> r[k] == p.attributes[k])
      && (forall k :: k in f && k !in p.attributes && k !in {"organization", "role", "pincode"} ==> r[k] == f[k])
      && r["role"] == NumberText(p.role) && r["pincode"] == NumberText(p.pincode)
      && (r["organization"] == "" <==> p.organization.None? && user.None?)
      && (p.organization.Some? ==> NumberOf(r["organization"]) == Int(p.organization.value))
      && (p.organization.None? && user.Some? ==> NumberOf(r["organization"]) == Int(user.value.organization))
  {
    if p.organization.Some? {
      NumberOfIntToString(p.organization.value);
    }
    if user.Some? {
      NumberOfIntToString(user.value.organization);
    }
  }

  /** Creating for a user with an organization: only `organization` and `role` change. */
  lemma CreatePrefill(f: map<string, string>, user: User)
    requires user.organization != 0
    ensures var r := PrefillDraft(f, None, Some(user));
      && r.Keys == f.Keys + {"organization", "role"}
      && r["organization"] == IntToString(user.organization) && r["role"] == ""
      && (forall k :: k in f && k !in {"organization", "role"} ==> r[k] == f[k])
  {
  }

  /** With neither a record nor an organization to copy, the draft is left alone. */
  lemma NoPrefill(f: map<string, string>, user: Option<User>)
    requires user.None? || user.value.organization == 0
    ensures PrefillDraft(f, None, user) == f
  {
  }

  /** A stored pincode survives prefill and submit: its text reads back as the same number. */
  lemma PrefillPincodeRoundTrip(f: map<string, string>, p: ParentRecord, user: Option<User>)
    requires p.pincode.Some?
    ensures NumberOf(Field(PrefillDraft(f, Some(p), user), "pincode")) == Int(p.pincode.value)
  {
    NumberOfIntToString(p.pincode.value);
  }

  // ---------------------------------------------------------------- submit

  /** `{...formData, organization: Number(..), role: Number(..), pincode: Number(..)}` */
  datatype ParentPayload = ParentPayload(text: map<string, string>, organization: Num, role: Num, pincode: Num)

  const NumericFields: set<string> := {"organization", "role", "pincode"}

  function Payload(f: map<string, string>): (p: ParentPayload)
    ensures p.text.Keys == f.Keys - NumericFields
    ensures forall k :: k in p.text ==> p.text[k] == f[k]
  {
    ParentPayload(f - NumericFields, NumberOf(Field(f, "organization")), NumberOf(Field(f, "role")),
                  NumberOf(Field(f, "pincode")))
  }

  /**
   * The `parent_id` of an update: the record's id, unless the draft itself
   * holds a `parent_id` text, which the later spread puts over it.
   */
  datatype ParentId = RecordId(id: int) | DraftText(text: string)

  datatype ParentAction = NoMutation | Create(payload: ParentPayload) | Update(parentId: ParentId, payload: ParentPayload)

  /** What `handleSubmit` issues for `formData`. */
  function SubmitAction(f: map<string, string>, parentData: Option<ParentRecord>): ParentAction {
    if ParentErrors(f) != map[] then NoMutation
    else
      var payload := Payload(f);
      if parentData.None? then Create(payload)
      else if "parent_id" in payload.text then Update(DraftText(payload.text["parent_id"]), payload)
      else Update(RecordId(parentData.value.id), payload)
  }

  /** No mutation unless the draft is valid; then update when editing and create otherwise. */
  lemma SubmitRule(f: map<string, string>, parentData: Option<ParentRecord>)
    ensures SubmitAction(f, parentData) == NoMutation <==> !ParentDraftValid(f)
    ensures SubmitAction(f, parentData).Create? <==> ParentDraftValid(f) && parentData.None?
    ensures SubmitAction(f, parentData).Update? <==> ParentDraftValid(f) && parentData.Some?
    ensures SubmitAction(f, parentData).Update? && "parent_id" !in f ==>
      SubmitAction(f, parentData).parentId == RecordId(parentData.value.id)
  {
    ValidIffNoErrors(f);
  }

  /** Whatever is sent carries a pincode in [0, 999999]. */
  lemma SubmittedPincodeInRange(f: map<string, string>, parentData: Option<ParentRecord>)
    requires SubmitAction(f, parentData) != NoMutation
    ensures var p := SubmitAction(f, parentData).payload;
      p.pincode.Int? && 0 <= p.pincode.value <= 999999
  {
    ValidIffNoErrors(f);
    PincodeInRange(Field(f, "pincode"));
  }

  // ---------------------------------------------------------------- the panel

  class ParentPanel {
    var formData: map<string, string>
    var errors: map<string, string>

    constructor ()
      ensures formData == EmptyDraft && errors == map[]
    {
      formData := EmptyDraft;
      errors := map[];
    }

    /** The prefill effect, run when `parentData` or `user` changes. */
    method Prefill(parentData: Option<ParentRecord>, user: Option<User>)
      requires HasDraftFields(formData)
      modifies this
      ensures formData == PrefillDraft(old(formData), parentData, user) && errors == old(errors)
      ensures HasDraftFields(formData)
    {
      formData := PrefillDraft(formData, parentData, user);
    }

    /** `handleChange` for the input called `name`. */
    method HandleChange(name: string, value: string)
      requires HasDraftFields(formData)
      modifies this
      ensures formData == old(formData)[name := value]
      ensures errors == ClearShownError(old(errors), name)
      ensures HasDraftFields(formData)
    {
      formData := formData[name := value];
      if name in errors && errors[name] != "" {
        errors := errors[name := ""];
      }
    }

    /** `validate`: the error map is replaced wholesale, and the answer is whether it is empty. */
    method Validate() returns (ok: bool)
      modifies this
      ensures formData == old(formData)
      ensures errors == ParentErrors(formData)
      ensures ok <==> errors == map[]
      ensures ok <==> ParentDraftValid(formData)
    {
      var newErrors := CollectErrors(formData);
      errors := newErrors;
      ValidIffNoErrors(formData);
      ok := |newErrors| == 0;
    }

    /** `handleSubmit`: validates, then returns the mutation it issues. */
    method HandleSubmit(parentData: Option<ParentRecord>) returns (action: ParentAction)
      modifies this
      ensures formData == old(formData) && errors == ParentErrors(formData)
      ensures action == SubmitAction(formData, parentData)
    {
      var ok := Validate();  // an invalid draft (`!ok`) is the `NoMutation` case of `SubmitAction`
      action := SubmitAction(formData, parentData);
    }
  }
}
