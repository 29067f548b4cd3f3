/**
 * The I/O capabilities the builder composes: payloads, codecs, sinks,
 * sources and stores. Streams are modelled as whole payloads: a write puts
 * one complete byte sequence; a read returns one complete byte sequence.
 */
module Io {
  import opened Wrappers

  newtype byte = x: int | 0 <= x < 256

  type Bytes = seq<byte>

  /** The one kind of failure an endpoint or a codec can raise. */
  datatype IoError =
    | NotFound     // the store holds no content
    | Malformed    // a codec could not undo its own encoding

  /**
   * An externally supplied, stateless transformation such as a compression or
   * an encryption, described by what it does to a whole payload: `encode` is
   * what its wrapping sink writes on, `decode` what its wrapping source reads
   * back (and may fail).
   */
  datatype Codec = Codec(encode: Bytes -> Bytes, decode: Bytes -> Result<Bytes, IoError>)

  /** The per-transformation round-trip law the builder relies on. */
  ghost predicate RoundTrips(c: Codec) {
    forall p :: c.decode(c.encode(p)) == Success(p)
  }

  /**
   * A writable endpoint: the raw store, wrapped by zero or more encoding
   * layers, the outermost first.
   */
  datatype Sink = Endpoint | Encoding(codec: Codec, inner: Sink)

  /**
   * A readable endpoint: the raw store, wrapped by zero or more decoding
   * layers, the outermost first.
   */
  datatype Source = Origin | Decoding(codec: Codec, inner: Source)

  /** The codecs wrapped around a sink's endpoint, the outermost first. */
  function SinkLayers(sink: Sink): seq<Codec>
  {
    match sink
    case Endpoint => []
    case Encoding(c, inner) => [c] + SinkLayers(inner)
  }

  /** The codecs wrapped around a source's endpoint, the outermost first. */
  function SourceLayers(source: Source): seq<Codec>
  {
    match source
    case Origin => []
    case Decoding(c, inner) => [c] + SourceLayers(inner)
  }

  /** The bytes that reach the raw endpoint when `payload` is written into `sink`. */
  function Written(sink: Sink, payload: Bytes): Bytes
  {
    match sink
    case Endpoint => payload
    case Encoding(c, inner) => Written(inner, c.encode(payload))
  }

  /** What reading from `source` yields when the raw endpoint holds `raw`. */
  function ReadBack(source: Source, raw: Bytes): Result<Bytes, IoError>
  {
    match source
    case Origin => Success(raw)
    case Decoding(c, inner) =>
      match ReadBack(inner, raw)
      case Failure(e) => Failure(e)
      case Success(b) => c.decode(b)
  }

  /**
   * A raw store: a named resource that either holds some content or does
   * not exist. It stands in for any Store implementation; reading or
   * deleting a store without content fails with NotFound.
   */
  class Store {
    var content: Option<Bytes>

    constructor (content: Option<Bytes>)
      ensures this.content == content
    {
      this.content := content;
    }

    method Exists() returns (b: bool)
      ensures b <==> content.Some?
    {
      b := content.Some?;
    }

    method Delete() returns (r: Outcome<IoError>)
      modifies this
      ensures r == if old(content).Some? then Pass else Fail(NotFound)
      ensures content == None
    {
      if content.Some? {
        r := Pass;
      } else {
        r := Fail(NotFound);
      }
      content := None;
    }

    method Input() returns (r: Result<Bytes, IoError>)
      ensures content.Some? ==> r == Success(content.value)
      ensures content.None? ==> r == Failure(NotFound)
    {
      if content.Some? {
        r := Success(content.value);
      } else {
        r := Failure(NotFound);
      }
    }

    /** Opens the output, writes `payload` completely and closes it. */
    method Output(payload: Bytes)
      modifies this
      ensures content == Some(payload)
    {
      content := Some(payload);
    }
  }
}
