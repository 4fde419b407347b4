/** Maps the schema's "function" placeholder to a lambda type. */
module FunctionToLambdaCaster {

  const Lambda := "() => {}"

  function Execute(t: string): (r: string)
    ensures r == t || r == Lambda
    ensures r == Lambda <==> (t == "function" || t == Lambda)
    ensures t == "function" ==> r == Lambda
  {
    if t == "function" then Lambda else t
  }

  /** Running the caster twice changes nothing more. */
  lemma Idempotent(t: string)
    ensures Execute(Execute(t)) == Execute(t)
  {
  }

  /** Only the exact word is rewritten, not a string containing it. */
  lemma ExactMatchOnly()
    ensures Execute("function") == Lambda
    ensures Execute("function|null") == "function|null"
    ensures Execute("Function") == "Function"
  {
  }
}
