/** Option and Result: the value-or-failure shapes used for Go's `(T, error)` returns. */
module Wrappers {

  datatype Option<+T> = None | Some(value: T)

  /** A Go `(value, error)` pair where exactly one side is meaningful:
      `Failure` stands for a nil value with a non-nil error. */
  datatype Result<+R, +E> = Success(value: R) | Failure(error: E)
}

/** Every error value the modelled code creates, one constructor per kind of error the code creates.
    Wrapping with `fmt.Errorf("...: %w", err)` keeps the cause, so it is a field. */
module Errors {

  datatype Error =
    // vpsaobjectstorage: request construction, transport, decoding, and the ErrResponse sentinel
    | RequestError
    | TransportError
    | DecodeError
    | ResponseError(message: string)
    // commandcenter: "error getting stores: %w"
    | GettingStoresError(cause: Error)
    // commandcenter and metrics: "error getting storage policies: %w" (both sites use this text)
    | GettingPoliciesError(cause: Error)
    // metrics: "error parsing drives added: %w", for the text strconv.ParseFloat rejected
    | ParseError(text: string)
    // config: "could not unmarshal targets: %w"
    | TargetsError
}

/** A configured target, as the configuration loader yields it. */
module Config {

  datatype Target = Target(url: string, cloudName: string, name: string, token: string)
}

/** The Go numeric types the records carry. */
module Numbers {

  /** Go's int64; the records' `int` fields are 64 bits wide on the platforms the exporter targets. */
  newtype int64 = x: int | -0x8000_0000_0000_0000 <= x < 0x8000_0000_0000_0000

  /** A float64, kept as its bit pattern: the model passes floats through and never computes with them. */
  datatype Float64 = Float64(bits: bv64)
}

/** Small facts about sequences that the proofs regroup by. */
module Sequences {

  /** Sequence concatenation is associative. */
  lemma ConcatAssoc<T>(a: seq<T>, b: seq<T>, c: seq<T>)
    ensures a + b + c == a + (b + c)
  {
  }
}
