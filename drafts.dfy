/** What the three create/edit panels share: reading a draft field and the change handler's error rule. */
module Drafts {
  import opened Wrappers
  import opened Text

  /** `formData[k]` of a text draft; a field the draft lacks reads as "" (both are falsy). */
  function Field(f: map<string, string>, k: string): (v: string)
    ensures k in f ==> v == f[k]
    ensures k !in f ==> v == ""
  {
    if k in f then f[k] else ""
  }

  /** `x?.toString() || ""` for a numeric property that may be missing. */
  function NumberText(n: Option<int>): (s: string)
    ensures n.None? <==> s == ""
  {
    if n.Some? then IntToString(n.value) else ""
  }

  /** The text prefill writes for a stored number reads back as that number, and "" reads as 0. */
  lemma NumberTextRoundTrip(n: Option<int>)
    ensures NumberOf(NumberText(n)) == Int(n.GetOr(0))
  {
    if n.Some? {
      NumberOfIntToString(n.value);
    }
  }

  /**
   * The error map after `if (errors[name]) setErrors(prev => ({...prev, [name]: ""}))`:
   * a message showing for `name` is blanked, and nothing else changes.
   */
  function ClearShownError(errors: map<string, string>, name: string): (r: map<string, string>)
    ensures r.Keys == errors.Keys
    ensures forall k :: k in errors && k != name ==> r[k] == errors[k]
    ensures name in errors ==> r[name] == ""
  {
    if name in errors && errors[name] != "" then errors[name := ""] else errors
  }

  /** Clearing never adds an entry: an empty error map stays empty, and clearing twice is clearing once. */
  lemma ClearShownErrorStable(errors: map<string, string>, name: string)
    ensures ClearShownError(map[], name) == map[]
    ensures ClearShownError(ClearShownError(errors, name), name) == ClearShownError(errors, name)
  {
  }
}
