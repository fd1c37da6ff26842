/** `assertDefined` of the ballot-marking app: the identity on every value
    that is neither `null` nor `undefined`, and an error otherwise. */
module AssertDefined {
  import opened Wrappers

  /** A TypeScript value of type `T | null | undefined`. */
  datatype Nullable<T> = Null | Undefined | Defined(value: T)

  /** The thrown error; `message` is the caller's custom message, if any.
      The text of the default message is not part of this model. */
  datatype DefinedError = DefinedError(message: Option<string>)

  function AssertDefined<T>(x: Nullable<T>, message: Option<string>): (r: Result<T, DefinedError>)
    ensures r.Ok? <==> x.Defined?
    ensures r.Ok? ==> r.value == x.value
    ensures r.Err? ==> r.error.message == message
  {
    match x
    case Defined(v) => Ok(v)
    case _ => Err(DefinedError(message))
  }

  /** The tests: a falsy 0 comes back, an object comes back as the same
      reference, null and undefined throw, a custom message is used. */
  lemma AssertDefinedTestCases(obj: object)
    ensures AssertDefined(Defined(0), None) == Ok(0)
    ensures AssertDefined(Defined(obj), None) == Ok(obj)
    ensures AssertDefined<int>(Null, None).Err?
    ensures AssertDefined<int>(Undefined, None).Err?
    ensures AssertDefined(Defined("a string"), None) == Ok("a string")
    ensures AssertDefined<int>(Undefined, Some("no undefined!")) == Err(DefinedError(Some("no undefined!")))
  {
  }
}
