/** Platform encoders the code hands off to libraries (JSON, Base64, UTF-8).
    Each is a pair of total functions; what the model assumes about a codec is
    stated once, by `RoundTrips`, and used only as a hypothesis. */
module Codecs {
  import opened Wrappers

  /** `encode` always succeeds; `decode` may reject its input. */
  datatype Codec<!A, !B> = Codec(encode: A -> B, decode: B -> Option<A>)

  /** Decoding what was encoded gives the original value back. */
  ghost predicate RoundTrips<A(!new), B>(c: Codec<A, B>) {
    forall a: A {:trigger c.encode(a)} :: c.decode(c.encode(a)) == Some(a)
  }

  lemma RoundTripAt<A(!new), B>(c: Codec<A, B>, a: A)
    requires RoundTrips(c)
    ensures c.decode(c.encode(a)) == Some(a)
  {
  }
}
