/**
 * The student create/edit panel: a three-field draft (name, parent,
 * class room), the validation that writes its error map check by check, the
 * parent picker, the prefill from an edited student, and the submit that hands
 * the draft on unchanged.
 */
module CreateStudent {
  import opened Wrappers
  import opened Drafts

  /**
   * A draft value: the text of an input, the numeric id the parent picker or
   * the prefill stores, or `null`/`undefined`.
   */
  datatype Entry = Text(s: string) | Id(n: int) | Absent

  /** JavaScript truthiness of a draft value. */
  predicate Filled(e: Entry) {
    match e
    case Text(s) => s != ""
    case Id(n) => n != 0
    case Absent => false
  }

  const NameRequired := "Name is required"
  const ParentRequired := "Parent is required"
  const ClassRoomRequired := "Class Room is required"
  const NameTooLong := "Name must be less than 200 characters"

  const MaxNameLength := 200

  const StudentFields: set<string> := {"name", "parent", "class_room"}

  const EmptyDraft: map<string, Entry> := map["name" := Text(""), "parent" := Text(""), "class_room" := Text("")]

  /** `formData[k]`; a missing field is `undefined`. */
  function Value(f: map<string, Entry>, k: string): (e: Entry)
    ensures k in f ==> e == f[k]
    ensures k !in f ==> e == Absent
  {
    if k in f then f[k] else Absent
  }

  /** `formData.name && formData.name.length > 200`: only a text has a length. */
  predicate TooLong(e: Entry) {
    e.Text? && e.s != "" && |e.s| > MaxNameLength
  }

  // ---------------------------------------------------------------- validation

  /** The message each field ends up with: the length message wins over the required one for the name. */
  function ExpectedError(f: map<string, Entry>, k: string): Option<string> {
    if k == "name" then
      (if TooLong(Value(f, "name")) then Some(NameTooLong)
       else if !Filled(Value(f, "name")) then Some(NameRequired)
       else None)
    else if k == "parent" then (if Filled(Value(f, "parent")) then None else Some(ParentRequired))
    else if k == "class_room" then (if Filled(Value(f, "class_room")) then None else Some(ClassRoomRequired))
    else None
  }

  /** The error map `validate` produces. */
  function StudentErrors(f: map<string, Entry>): map<string, string> {
    map k | k in StudentFields && ExpectedError(f, k).Some? :: ExpectedError(f, k).value
  }

  /** The `newErrors` that `validate` writes, one check after another. */
  method CollectErrors(formData: map<string, Entry>) returns (newErrors: map<string, string>)
    ensures newErrors == StudentErrors(formData)
  {
    newErrors := map[];
    var name := Value(formData, "name");
    if !Filled(name) {
      newErrors := newErrors["name" := NameRequired];
    }
    if !Filled(Value(formData, "parent")) {
      newErrors := newErrors["parent" := ParentRequired];
    }
    if !Filled(Value(formData, "class_room")) {
      newErrors := newErrors["class_room" := ClassRoomRequired];
    }
    if Filled(name) && name.Text? && |name.s| > MaxNameLength {
      newErrors := newErrors["name" := NameTooLong];
    }
  }

  /** A draft that passes: all three fields filled in and the name at most 200 characters. */
  predicate StudentDraftValid(f: map<string, Entry>) {
    Filled(Value(f, "name")) && !TooLong(Value(f, "name")) && Filled(Value(f, "parent")) && Filled(Value(f, "class_room"))
  }

  /** Errors are only ever reported for the three fields. */
  lemma ErrorKeys(f: map<string, Entry>)
    ensures StudentErrors(f).Keys <= StudentFields
    ensures forall k :: k in StudentErrors(f) ==>
      StudentErrors(f)[k] in {NameRequired, ParentRequired, ClassRoomRequired, NameTooLong}
  {
  }

  /** Each empty field gets its own message; an over-long name gets the length message instead. */
  lemma FieldRules(f: map<string, Entry>)
    ensures !Filled(Value(f, "name")) ==> StudentErrors(f)["name"] == NameRequired
    ensures TooLong(Value(f, "name")) ==> StudentErrors(f)["name"] == NameTooLong
    ensures !Filled(Value(f, "parent")) ==> StudentErrors(f)["parent"] == ParentRequired
    ensures !Filled(Value(f, "class_room")) ==> StudentErrors(f)["class_room"] == ClassRoomRequired
  {
    assert "name" in StudentFields && "parent" in StudentFields && "class_room" in StudentFields;
  }

  /** A name of exactly 200 characters is accepted; one of 201 is not. */
  lemma NameLengthBoundary(f: map<string, Entry>, s: string)
    requires |s| == MaxNameLength || |s| == MaxNameLength + 1
    ensures var e := StudentErrors(f["name" := Text(s)]);
      ("name" in e <==> |s| == MaxNameLength + 1) && ("name" in e ==> e["name"] == NameTooLong)
  {
    assert "name" in StudentFields;
  }

  /** `validate` returns true exactly for a valid draft. */
  lemma ValidIffNoErrors(f: map<string, Entry>)
    ensures StudentErrors(f) == map[] <==> StudentDraftValid(f)
  {
    if StudentErrors(f) == map[] {
      assert "name" !in StudentErrors(f) && "parent" !in StudentErrors(f) && "class_room" !in StudentErrors(f);
    } else {
      var k :| k in StudentErrors(f);
    }
  }

  /** Clearing the parent picker (`null`) makes the parent check fail. */
  lemma ClearedParentFails(f: map<string, Entry>)
    ensures var e := StudentErrors(f["parent" := Absent]);
      "parent" in e && e["parent"] == ParentRequired && !StudentDraftValid(f["parent" := Absent])
  {
    assert "parent" in StudentFields;
  }

  // ---------------------------------------------------------------- prefill

  datatype ParentRef = ParentRef(parentId: Option<int>)
  datatype ClassRoomRef = ClassRoomRef(classId: Option<int>)

  /** The edited student: its name and its nested parent and class room, any of which may be missing. */
  datatype StudentRecord = StudentRecord(name: Option<string>, parent: Option<ParentRef>, classRoom: Option<ClassRoomRef>)

  /** `x?.id || ""` for a nested numeric id. */
  function IdOrBlank(id: Option<int>): (e: Entry)
    ensures Filled(e) <==> id.Some? && id.value != 0
  {
    if id.Some? && id.value != 0 then Id(id.value) else Text("")
  }

  /** The draft the prefill effect installs for an edited student: all three fields replaced. */
  function PrefillDraft(s: StudentRecord): map<string, Entry> {
    map["name" := Text(s.name.GetOr("")),
        "parent" := IdOrBlank(if s.parent.Some? then s.parent.value.parentId else None),
        "class_room" := IdOrBlank(if s.classRoom.Some? then s.classRoom.value.classId else None)]
  }

  /** Prefill keeps exactly the three fields and turns every missing value into "". */
  lemma PrefillBlanksMissing(s: StudentRecord)
    ensures PrefillDraft(s).Keys == StudentFields
    ensures s.name.None? ==> PrefillDraft(s)["name"] == Text("")
    ensures s.parent.None? || s.parent.value.parentId.None? ==> PrefillDraft(s)["parent"] == Text("")
    ensures s.classRoom.None? || s.classRoom.value.classId.None? ==> PrefillDraft(s)["class_room"] == Text("")
    ensures s.parent.Some? && s.parent.value.parentId.Some? && s.parent.value.parentId.value != 0 ==>
      PrefillDraft(s)["parent"] == Id(s.parent.value.parentId.value)
  {
  }

  /** A prefilled student without a parent cannot be submitted until one is picked. */
  lemma PrefillWithoutParentFails(s: StudentRecord)
    requires s.parent.None?
    ensures "parent" in StudentErrors(PrefillDraft(s)) && !StudentDraftValid(PrefillDraft(s))
  {
    assert "parent" in StudentFields;
  }

  // ---------------------------------------------------------------- the panel

  class StudentPanel {
    var formData: map<string, Entry>
    var errors: map<string, string>

    constructor ()
      ensures formData == EmptyDraft && errors == map[]
    {
      formData := EmptyDraft;
      errors := map[];
    }

    /** The prefill effect: an edited student replaces the draft; without one nothing changes. */
    method Prefill(studentData: Option<StudentRecord>)
      modifies this
      ensures studentData.Some? ==> formData == PrefillDraft(studentData.value)
      ensures studentData.None? ==> formData == old(formData)
      ensures errors == old(errors)
    {
      if studentData.Some? {
        formData := PrefillDraft(studentData.value);
      }
    }

    /** `handleChange` for the text input called `name`. */
    method HandleChange(name: string, value: string)
      modifies this
      ensures formData == old(formData)[name := Text(value)]
      ensures errors == ClearShownError(old(errors), name)
    {
      formData := formData[name := Text(value)];
      if name in errors && errors[name] != "" {
        errors := errors[name := ""];
      }
    }

    /** The parent picker's `onChange`: the chosen parent's id, or `null` when cleared. */
    method SelectParent(choice: Option<int>)
      modifies this
      ensures formData == old(formData)["parent" := if choice.Some? then Id(choice.value) else Absent]
      ensures errors == ClearShownError(old(errors), "parent")
    {
      formData := formData["parent" := if choice.Some? then Id(choice.value) else Absent];
      if "parent" in errors && errors["parent"] != "" {
        errors := errors["parent" := ""];
      }
    }

    /** `validate`: the error map is replaced wholesale, and the answer is whether it is empty. */
    method Validate() returns (ok: bool)
      modifies this
      ensures formData == old(formData)
      ensures errors == StudentErrors(formData)
      ensures ok <==> errors == map[]
      ensures ok <==> StudentDraftValid(formData)
    {
      var newErrors := CollectErrors(formData);
      errors := newErrors;
      ValidIffNoErrors(formData);
      ok := |newErrors| == 0;
    }

    /** `handleSubmit`: `onSubmit` receives the draft unchanged, and only when it is valid. */
    method HandleSubmit() returns (submitted: Option<map<string, Entry>>)
      modifies this
      ensures formData == old(formData) && errors == StudentErrors(formData)
      ensures submitted.Some? <==> StudentDraftValid(formData)
      ensures submitted.Some? ==> submitted.value == formData
    {
      var ok := Validate();
      if !ok {
        submitted := None;
        return;
      }
      submitted := Some(formData);
    }
  }
}
