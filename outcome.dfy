/** Success and failure values shared by the extractor and the encoder.
    Every `panic` of the Go code becomes one `Error` variant. */
module Outcome {

  datatype Option<+T> = None | Some(value: T)

  datatype Result<+T> = Ok(value: T) | Err(error: Error)

  datatype Error =
    // --- structural errors: the harness does not have the expected shape
    | ParseError                 // the harness source did not parse
    | NoBody                     // the matching declaration has no body
    | NoFuzzArgument             // `f.Fuzz()` called without arguments
    | NotFuncLit                 // the first argument of `f.Fuzz` is not a function literal
    | NoContextParam             // the function literal has no parameter field to drop
    | ParamTypeNotIdent          // a parameter type is neither an array nor an identifier
    | ArrayEltNotIdent           // an array parameter whose element type is not an identifier
    // --- decode errors: the testcase cannot be decoded against the signature
    | ConsumerFailed             // the consumer could not read a value
    | UnsupportedType(name: string) // a type string outside the catalog
  {
    predicate IsStructural() {
      !ConsumerFailed? && !UnsupportedType?
    }
  }

  /** Runs `a` then `b`, concatenating their lists; the first failure wins. */
  function Concat<T>(a: Result<seq<T>>, b: Result<seq<T>>): (r: Result<seq<T>>)
    ensures r.Ok? <==> a.Ok? && b.Ok?
    ensures r.Ok? ==> r.value == a.value + b.value
    ensures a.Err? ==> r == a
    ensures a.Ok? && b.Err? ==> r == b
    ensures a == Ok([]) ==> r == b
    ensures b == Ok([]) ==> r == a
  {
    match a
    case Err(e) => Err(e)
    case Ok(x) => (match b case Err(e) => Err(e) case Ok(y) => assert [] + y == y && x + [] == x; Ok(x + y))
  }

  lemma ConcatAssoc<T>(a: Result<seq<T>>, b: Result<seq<T>>, c: Result<seq<T>>)
    ensures Concat(Concat(a, b), c) == Concat(a, Concat(b, c))
  {
    if a.Ok? && b.Ok? && c.Ok? {
      assert (a.value + b.value) + c.value == a.value + (b.value + c.value);
    }
  }
}
