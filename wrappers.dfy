/** Failure-carrying values: C#'s nullable references and thrown exceptions, made explicit. */
module Wrappers {

  /** A C# nullable (`int?`, `bool?`, `string?`, a nullable reference). */
  datatype Option<+T> = None | Some(value: T)

  /** The exceptions the pattern compiler can raise, by kind. */
  datatype Exception =
    /** `SerializationException`, raised by the quantifier compiler. */
    | SerializationException(message: string)
    /** `ArgumentException`: an invalid anchor, character class, pattern type or group-type name. */
    | ArgumentException
    /** `ArgumentNullException`: `Enum.Parse` handed a null group type. */
    | ArgumentNullException
    /** `NullReferenceException`: a member accessed through a null reference. */
    | NullReferenceException
    /** `RuntimeBinderException`: `ToString()` invoked on a null `dynamic` value. */
    | RuntimeBinderException
    /** Whatever an external JSON or YAML decoder raises. */
    | DecodeException

  /** Either the value a C# member returns or the exception it throws. */
  datatype Result<+T> = Ok(value: T) | Err(error: Exception)
}
