/** Maps the schema's "unknown" sentinel to the top type. */
module UnknownTypeCaster {

  function Execute(t: string): (r: string)
    ensures t == "unknown" ==> r == "any"
    ensures t != "unknown" ==> r == t
  {
    if t == "unknown" then "any" else t
  }

  /** The output is never the sentinel. */
  lemma NeverUnknown(t: string)
    ensures Execute(t) != "unknown"
  {
  }

  /** Running the caster twice changes nothing more. */
  lemma Idempotent(t: string)
    ensures Execute(Execute(t)) == Execute(t)
  {
  }

  /** The comparison is exact and case-sensitive. */
  lemma ExactMatchOnly()
    ensures Execute("Unknown") == "Unknown"
    ensures Execute("unknown|null") == "unknown|null"
    ensures Execute("unknown") == "any"
  {
  }
}
