/**
 * NullDataOptions: a string enumeration. Each member's value is its own name, and
 * with `use_enum_values` a field holding a member stores that string. No field of
 * the schema is typed with it.
 */
module Enums {
  import opened Values

  datatype NullDataOption =
    | UnspecifiedMethodOfAdministration
    | NotApplicable
    | NotMentioned

  /** The string a member stands for. */
  function ValueOf(o: NullDataOption): string {
    match o
    case UnspecifiedMethodOfAdministration => "UNSPECIFIED_METHOD_OF_ADMINISTRATION"
    case NotApplicable => "NOT_APPLICABLE"
    case NotMentioned => "NOT_MENTIONED"
  }

  /** `NullDataOptions(s)`: the member whose value is `s`, None when there is none. */
  function FromValue(s: string): (r: Option<NullDataOption>)
    ensures r.Some? ==> ValueOf(r.value) == s
    ensures r.None? ==> forall o: NullDataOption :: ValueOf(o) != s
  {
    if s == "UNSPECIFIED_METHOD_OF_ADMINISTRATION" then Some(UnspecifiedMethodOfAdministration)
    else if s == "NOT_APPLICABLE" then Some(NotApplicable)
    else if s == "NOT_MENTIONED" then Some(NotMentioned)
    else None
  }

  /** Members have distinct values, so every member is looked up from its value. */
  lemma {:induction false} FromValueOf(o: NullDataOption)
    ensures FromValue(ValueOf(o)) == Some(o)
  {
    match o
    case UnspecifiedMethodOfAdministration =>
    case NotApplicable =>
      assert ValueOf(o)[0] != "UNSPECIFIED_METHOD_OF_ADMINISTRATION"[0];
    case NotMentioned =>
      assert ValueOf(o)[0] != "UNSPECIFIED_METHOD_OF_ADMINISTRATION"[0];
      assert ValueOf(o)[4] != "NOT_APPLICABLE"[4];
  }
}
