/**
 The few Python runtime notions the notifier leans on: `None`, the exceptions a
 dictionary lookup or a `%` format can raise, and a result type that carries
 either a value or the exception that ended the computation.
 */
module PyCore {

  /** A value that may be Python's `None`. */
  datatype Option<+T> = None | Some(value: T)

  /** The exceptions the modelled code can raise. */
  datatype Error =
    | KeyError(key: string)       // a dictionary lookup of a missing key
    | ValueError(reason: string)  // a malformed `%` format

  /** Either a value or the exception raised while computing it. */
  datatype Result<+T> = Ok(value: T) | Err(error: Error)

  /** Prefixes `p` to a successful string result; an exception passes through. */
  function Prepend(p: string, r: Result<string>): (r': Result<string>)
    ensures r'.Ok? <==> r.Ok?
    ensures r.Ok? ==> r' == Ok(p + r.value)
    ensures r.Err? ==> r' == r
  {
    match r
    case Ok(s) => Ok(p + s)
    case Err(e) => Err(e)
  }

  lemma PrependTwice(p: string, q: string, r: Result<string>)
    ensures Prepend(p, Prepend(q, r)) == Prepend(p + q, r)
  {
    if r.Ok? {
      assert p + (q + r.value) == (p + q) + r.value;
    }
  }
}
