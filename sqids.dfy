/**
 * The Sqids codec the service calls (`Sqids::default()`, src/routes.rs:31-32,
 * src/routes.rs:110, src/routes.rs:140). Its algorithm is not part of this
 * model: a codec is a pair of functions, and the one property the service
 * relies on, that decoding undoes encoding on the triples it feeds in, is a
 * predicate the laws take as a hypothesis.
 */
module Sqids {
  import opened Wrappers

  /** 2^64: the codec works on `u64` numbers. */
  const U64Limit: nat := 0x1_0000_0000_0000_0000

  /**
   * `encode` stands for `sqids.encode(..)`, whose `Err` is `None`;
   * `decode` for `sqids.decode(..)`, which yields an empty list for a
   * string that is not a valid code.
   */
  datatype Codec = Codec(encode: seq<nat> -> Option<string>, decode: string -> seq<nat>)

  /** A triple of `u64` values, the only shape the encoder hands to the codec. */
  predicate IsTriple(numbers: seq<nat>)
  {
    |numbers| == 3 && numbers[0] < U64Limit && numbers[1] < U64Limit && numbers[2] < U64Limit
  }

  /** The codec's round-trip law on every triple: encoding succeeds and decoding undoes it. */
  ghost predicate RoundTrips(codec: Codec)
  {
    forall numbers :: IsTriple(numbers) ==>
      codec.encode(numbers).Some? && codec.decode(codec.encode(numbers).value) == numbers
  }
}
