/** The parts of the Fetch API the client and the proxy both rely on. */
module Http {

  /** `Response.ok`: the status is in the range 200-299. */
  predicate IsOk(status: int)
    ensures IsOk(status) <==> status / 100 == 2
  {
    200 <= status <= 299
  }

  /** The request methods the client issues. */
  datatype Method = GET | POST | PATCH | DELETE

  /** The method as it appears on the wire (`req.method` in the proxy). The
      proxy's string tests recognise exactly the matching client methods:
      `'DELETE'` only a delete, and `'POST'` or `'PATCH'` only the two
      requests that carry a body. */
  function MethodName(m: Method): (name: string)
    ensures name == "DELETE" <==> m == DELETE
    ensures name == "POST" || name == "PATCH" <==> m == POST || m == PATCH
  {
    match m
    case GET => "GET"
    case POST => "POST"
    case PATCH => "PATCH"
    case DELETE => "DELETE"
  }

  /** Distinct methods have distinct names. */
  lemma MethodNameInjective(m: Method, n: Method)
    ensures MethodName(m) == MethodName(n) ==> m == n
  {
  }
}
