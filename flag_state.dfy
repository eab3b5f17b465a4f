/** The three-valued feature flag of the manager package (manager/flag_state.go). */
module FlagStates {

  /** Go's `type FlagState int`: any integer is a value, three of them are named. */
  newtype FlagState = int

  const Unknown: FlagState := 0
  const Allowed: FlagState := 1
  const NotAllowed: FlagState := 2

  /** The text of a flag: the named values have distinct names, every other value "". */
  function String(s: FlagState): (r: string)
    ensures r == "unknown" <==> s == Unknown
    ensures r == "allowed" <==> s == Allowed
    ensures r == "not allowed" <==> s == NotAllowed
    ensures r == "" <==> s != Unknown && s != Allowed && s != NotAllowed
  {
    match s
    case 0 => "unknown"
    case 1 => "allowed"
    case 2 => "not allowed"
    case _ => ""
  }

  /** Two flags with the same non-empty text are the same flag. */
  lemma StringInjective(s: FlagState, t: FlagState)
    requires String(s) == String(t) != ""
    ensures s == t
  {
  }
}
