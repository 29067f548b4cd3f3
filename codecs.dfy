/**
 * Two concrete codecs, stand-ins for the compression and encryption of the
 * builder's usage example: one reverses the payload, the other appends a
 * checksum byte and checks it on the way back.
 */
module Codecs {
  import opened Wrappers
  import opened Io
  import opened Composition

  /** The sum of the payload's bytes, modulo 256. */
  function Checksum(p: Bytes): byte
  {
    (Sum(p) % 256) as byte
  }

  function Sum(p: Bytes): nat
  {
    if |p| == 0 then 0 else Sum(p[..|p| - 1]) + p[|p| - 1] as nat
  }

  /** The no-op transformation: writes and reads the payload unchanged. */
  const Identity: Codec := Codec(p => p, raw => Success(raw))

  const Reversal: Codec := Codec(p => Reversed(p), raw => Success(Reversed(raw)))

  /** Appends the checksum on write; on read, strips it and fails if it does not match. */
  const Checksummed: Codec := Codec(p => p + [Checksum(p)], raw => Unchecksum(raw))

  function Unchecksum(raw: Bytes): (r: Result<Bytes, IoError>)
    ensures r.Success? <==> |raw| > 0 && raw[|raw| - 1] == Checksum(raw[..|raw| - 1])
    ensures r.Success? ==> raw == r.value + [Checksum(r.value)]
  {
    if |raw| > 0 && raw[|raw| - 1] == Checksum(raw[..|raw| - 1]) then Success(raw[..|raw| - 1])
    else Failure(Malformed)
  }

  lemma ReversedTwice<T>(s: seq<T>)
    ensures Reversed(Reversed(s)) == s
  {
    ReversedLength(s);
    ReversedLength(Reversed(s));
    forall k | 0 <= k < |s|
      ensures Reversed(Reversed(s))[k] == s[k]
    {
      ReversedMirrors(Reversed(s), |s| - 1 - k);
      ReversedMirrors(s, k);
    }
  }

  lemma ReversalRoundTrips()
    ensures RoundTrips(Reversal)
  {
    forall p: Bytes
      ensures Reversal.decode(Reversal.encode(p)) == Success(p)
    {
      ReversedTwice(p);
    }
  }

  lemma ChecksummedRoundTrips()
    ensures RoundTrips(Checksummed)
  {
    forall p: Bytes
      ensures Checksummed.decode(Checksummed.encode(p)) == Success(p)
    {
      assert (p + [Checksum(p)])[..|p|] == p;
    }
  }

  /**
   * Order sensitivity: the same two transformations appended in opposite
   * orders write different raw bytes, while both compositions round-trip.
   */
  lemma OrderMatters()
    ensures Encode(Composed(Primitive(Reversal), Primitive(Checksummed)), [1, 2])
         != Encode(Composed(Primitive(Checksummed), Primitive(Reversal)), [1, 2])
    ensures Reversible(Composed(Primitive(Reversal), Primitive(Checksummed)))
    ensures Reversible(Composed(Primitive(Checksummed), Primitive(Reversal)))
  {
    var p: Bytes := [1, 2];
    assert Reversed(p) == [2] + Reversed([1]);
    assert Reversed([1 as byte]) == [1] + Reversed([]);
    assert Checksum(p) != 1 by {
      assert p[..1] == [1];
      assert Sum(p) == Sum([1]) + 2;
      assert [1 as byte][..0] == [];
    }
    assert Encode(Composed(Primitive(Reversal), Primitive(Checksummed)), p)[0] == 2;
    var q := p + [Checksum(p)];
    assert Reversed(q)[0] == Checksum(p);
    ReversalRoundTrips();
    ChecksummedRoundTrips();
    LawfulReversible(Composed(Primitive(Reversal), Primitive(Checksummed)));
    LawfulReversible(Composed(Primitive(Checksummed), Primitive(Reversal)));
  }
}
