/**
 * Transformations and their composition: the anonymous Transformation that
 * TransformationBuilder.then creates, closing over the previous composition
 * and the appended transformation.
 */
module Composition {
  import opened Wrappers
  import opened Io

  /**
   * A transformation: either one supplied from outside (a codec), or the
   * composition `then` builds from the previous composed transformation and
   * the appended one.
   */
  datatype Transformation =
    | Primitive(codec: Codec)
    | Composed(previous: Transformation, next: Transformation)

  /** The codecs inside a transformation, in the order they were appended. */
  function Layers(t: Transformation): seq<Codec>
  {
    match t
    case Primitive(c) => [c]
    case Composed(previous, next) => Layers(previous) + Layers(next)
  }

  /**
   * `apply`: wraps a sink. The composed one is previous.apply(next.apply(sink)),
   * so the codecs of `t` end up on top of `sink` in append order, the first
   * appended outermost.
   */
  function Apply(t: Transformation, sink: Sink): (r: Sink)
    ensures SinkLayers(r) == Layers(t) + SinkLayers(sink)
  {
    match t
    case Primitive(c) => Encoding(c, sink)
    case Composed(previous, next) => Apply(previous, Apply(next, sink))
  }

  /**
   * `unapply`: wraps a source. The composed one is
   * previous.unapply(next.unapply(source)), so the codecs of `t` end up on top
   * of `source` in the same order as `apply` stacks them on a sink.
   */
  function Unapply(t: Transformation, source: Source): (r: Source)
    ensures SourceLayers(r) == Layers(t) + SourceLayers(source)
  {
    match t
    case Primitive(c) => Decoding(c, source)
    case Composed(previous, next) => Unapply(previous, Unapply(next, source))
  }

  /**
   * The intended write semantics: what a transformation turns a payload into.
   * A composition encodes with `previous` first and with `next` after it.
   */
  function Encode(t: Transformation, payload: Bytes): Bytes
  {
    match t
    case Primitive(c) => c.encode(payload)
    case Composed(previous, next) => Encode(next, Encode(previous, payload))
  }

  /**
   * The intended read semantics: a composition undoes `next` first and
   * `previous` after it; a failure of either is passed on unchanged.
   */
  function Decode(t: Transformation, raw: Bytes): Result<Bytes, IoError>
    decreases t, 0
  {
    match t
    case Primitive(c) => c.decode(raw)
    case Composed(previous, next) => DecodeAfter(previous, Decode(next, raw))
  }

  /** Decodes the outcome of an earlier read, passing a failure on unchanged. */
  function DecodeAfter(t: Transformation, r: Result<Bytes, IoError>): Result<Bytes, IoError>
    decreases t, 1
  {
    match r
    case Failure(e) => Failure(e)
    case Success(b) => Decode(t, b)
  }

  /** The round-trip law of a single transformation, whatever its structure. */
  ghost predicate Reversible(t: Transformation) {
    forall p :: Decode(t, Encode(t, p)) == Success(p)
  }

  /** Every externally supplied codec inside `t` obeys its round-trip law. */
  ghost predicate Lawful(t: Transformation) {
    match t
    case Primitive(c) => RoundTrips(c)
    case Composed(previous, next) => Lawful(previous) && Lawful(next)
  }

  /**
   * Writing into the sink that `t` wraps around `sink` writes the encoded
   * payload into `sink`: the code of `apply` has the intended write semantics.
   */
  lemma {:induction false} ApplyWrites(t: Transformation, sink: Sink, payload: Bytes)
    ensures Written(Apply(t, sink), payload) == Written(sink, Encode(t, payload))
  {
    match t
    case Primitive(c) =>
    case Composed(previous, next) =>
      ApplyWrites(previous, Apply(next, sink), payload);
      ApplyWrites(next, sink, Encode(previous, payload));
  }

  /**
   * Reading from the source that `t` wraps around `source` decodes what
   * `source` yields: the code of `unapply` has the intended read semantics.
   */
  lemma {:induction false} UnapplyReads(t: Transformation, source: Source, raw: Bytes)
    ensures ReadBack(Unapply(t, source), raw) == DecodeAfter(t, ReadBack(source, raw))
  {
    match t
    case Primitive(c) =>
    case Composed(previous, next) =>
      UnapplyReads(previous, Unapply(next, source), raw);
      UnapplyReads(next, source, raw);
  }

  /** Composing two reversible transformations gives a reversible one. */
  lemma ComposedReversible(previous: Transformation, next: Transformation)
    requires Reversible(previous) && Reversible(next)
    ensures Reversible(Composed(previous, next))
  {
    forall p
      ensures Decode(Composed(previous, next), Encode(Composed(previous, next), p)) == Success(p)
    {
      var inner := Encode(previous, p);
      assert Decode(next, Encode(next, inner)) == Success(inner);
    }
  }

  /** A transformation built only from lawful codecs is reversible. */
  lemma {:induction false} LawfulReversible(t: Transformation)
    requires Lawful(t)
    ensures Reversible(t)
  {
    match t
    case Primitive(c) =>
    case Composed(previous, next) =>
      LawfulReversible(previous);
      LawfulReversible(next);
      ComposedReversible(previous, next);
  }

  /**
   * Reading back, through the source `t.unapply` makes of the raw store, what
   * was written through the sink `t.apply` makes of it yields the payload.
   */
  lemma BoundRoundTrip(t: Transformation, payload: Bytes)
    requires Reversible(t)
    ensures ReadBack(Unapply(t, Origin), Written(Apply(t, Endpoint), payload)) == Success(payload)
  {
    ApplyWrites(t, Endpoint, payload);
    UnapplyReads(t, Origin, Encode(t, payload));
  }

  // ---------------------------------------------------------------------
  // Chains: a seed followed by the transformations passed to `then`, in call order.
  // ---------------------------------------------------------------------

  /** The composed transformation after seeding with `seed` and calling `then` with each of `appended` in turn. */
  function Chain(seed: Transformation, appended: seq<Transformation>): Transformation
    decreases |appended|
  {
    if |appended| == 0 then seed
    else Composed(Chain(seed, appended[..|appended| - 1]), appended[|appended| - 1])
  }

  /** Encodes with each of `ts` in turn, `ts[0]` first. */
  function EncodeEach(ts: seq<Transformation>, payload: Bytes): Bytes
    decreases |ts|
  {
    if |ts| == 0 then payload else EncodeEach(ts[1..], Encode(ts[0], payload))
  }

  /** Decodes with each of `ts` in turn, `ts[0]` first, stopping at the first failure. */
  function DecodeEach(ts: seq<Transformation>, raw: Bytes): Result<Bytes, IoError>
    decreases |ts|
  {
    if |ts| == 0 then Success(raw)
    else
      match Decode(ts[0], raw)
      case Failure(e) => Failure(e)
      case Success(b) => DecodeEach(ts[1..], b)
  }

  function Reversed<T>(s: seq<T>): seq<T>
    decreases |s|
  {
    if |s| == 0 then [] else [s[|s| - 1]] + Reversed(s[..|s| - 1])
  }

  /** Reversal mirrors positions: the element at `k` moves to `|s| - 1 - k`. */
  lemma {:induction false} ReversedMirrors<T>(s: seq<T>, k: nat)
    requires k < |s|
    ensures |Reversed(s)| == |s| && Reversed(s)[|s| - 1 - k] == s[k]
    decreases |s|
  {
    ReversedLength(s);
    if k < |s| - 1 {
      ReversedMirrors(s[..|s| - 1], k);
    }
  }

  lemma {:induction false} ReversedLength<T>(s: seq<T>)
    ensures |Reversed(s)| == |s|
    decreases |s|
  {
    if |s| > 0 {
      ReversedLength(s[..|s| - 1]);
    }
  }

  lemma {:induction false} EncodeEachSnoc(ts: seq<Transformation>, last: Transformation, payload: Bytes)
    ensures EncodeEach(ts + [last], payload) == Encode(last, EncodeEach(ts, payload))
    decreases |ts|
  {
    if |ts| > 0 {
      assert (ts + [last])[1..] == ts[1..] + [last];
      EncodeEachSnoc(ts[1..], last, Encode(ts[0], payload));
    }
  }

  /**
   * Write order: data written through a chain is encoded by the seed first
   * and then by each appended transformation in the order of the `then` calls.
   */
  lemma {:induction false} WriteOrder(seed: Transformation, appended: seq<Transformation>, payload: Bytes)
    ensures Encode(Chain(seed, appended), payload) == EncodeEach([seed] + appended, payload)
    decreases |appended|
  {
    if |appended| > 0 {
      var n := |appended|;
      WriteOrder(seed, appended[..n - 1], payload);
      assert [seed] + appended == ([seed] + appended[..n - 1]) + [appended[n - 1]];
      EncodeEachSnoc([seed] + appended[..n - 1], appended[n - 1], payload);
    }
  }

  /**
   * Read order, the mirror of the write order: the transformation appended
   * last is undone first, and the seed last.
   */
  lemma {:induction false} ReadOrder(seed: Transformation, appended: seq<Transformation>, raw: Bytes)
    ensures Decode(Chain(seed, appended), raw) == DecodeEach(Reversed([seed] + appended), raw)
    decreases |appended|
  {
    var all := [seed] + appended;
    var n := |appended|;
    if n == 0 {
      assert Reversed(all) == [seed] + Reversed(all[..0]);
    } else {
      assert all[..n] == [seed] + appended[..n - 1];
      assert Reversed(all) == [appended[n - 1]] + Reversed([seed] + appended[..n - 1]);
      var rest := Reversed([seed] + appended[..n - 1]);
      assert ([appended[n - 1]] + rest)[1..] == rest;
      match Decode(appended[n - 1], raw)
      case Failure(e) =>
      case Success(b) =>
        ReadOrder(seed, appended[..n - 1], b);
    }
  }

  /**
   * The composed round-trip, by induction on the number of `then` calls: if
   * the seed and every appended transformation are reversible, so is the chain.
   */
  lemma {:induction false} ChainReversible(seed: Transformation, appended: seq<Transformation>)
    requires Reversible(seed)
    requires forall i :: 0 <= i < |appended| ==> Reversible(appended[i])
    ensures Reversible(Chain(seed, appended))
    decreases |appended|
  {
    if |appended| > 0 {
      var n := |appended|;
      ChainReversible(seed, appended[..n - 1]);
      ComposedReversible(Chain(seed, appended[..n - 1]), appended[n - 1]);
    }
  }
}
