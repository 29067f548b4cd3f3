/**
 * TransformationBuilder: composes transformations one `then` call at a time
 * and binds the composition to a store.
 */
module Builder {
  import opened Wrappers
  import opened Io
  import opened Composition

  /** The invalid-argument failure of a null initial transformation. */
  datatype NullPointerException = NullPointerException

  /**
   * The store `to` returns: it captures the composed transformation once,
   * delegates `exists` and `delete` to the underlying store, and routes
   * `input` and `output` through the captured transformation.
   */
  class TransformedStore {
    const store: Store
    const transformation: Transformation

    constructor (store: Store, transformation: Transformation)
      ensures this.store == store && this.transformation == transformation
    {
      this.store := store;
      this.transformation := transformation;
    }

    /** Passes straight through: same outcome and same effect as the underlying store's. */
    method Delete() returns (r: Outcome<IoError>)
      modifies store
      ensures r == if old(store.content).Some? then Pass else Fail(NotFound)
      ensures store.content == None
    {
      r := store.Delete();
    }

    /** Passes straight through: the underlying store's existence, whatever the transformation. */
    method Exists() returns (b: bool)
      ensures b <==> store.content.Some?
    {
      b := store.Exists();
    }

    /**
     * Reads through `transformation.unapply(store)`: the captured transformation
     * decodes the raw content; a missing store fails with NotFound.
     */
    method Input() returns (r: Result<Bytes, IoError>)
      ensures store.content.None? ==> r == Failure(NotFound)
      ensures store.content.Some? ==> r == Decode(transformation, store.content.value)
    {
      var raw := store.Input();
      match raw
      case Failure(e) =>
        r := Failure(e);
      case Success(bytes) =>
        r := ReadBack(Unapply(transformation, Origin), bytes);
        UnapplyReads(transformation, Origin, bytes);
    }

    /** Writes through `transformation.apply(store)`: the store ends up holding the encoded payload. */
    method Output(payload: Bytes)
      modifies store
      ensures store.content == Some(Encode(transformation, payload))
    {
      var sink := Apply(transformation, Endpoint);
      ApplyWrites(transformation, Endpoint, payload);
      store.Output(Written(sink, payload));
    }
  }

  class TransformationBuilder {
    /** The composed transformation so far. */
    var current: Transformation

    constructor (transformation: Transformation)
      ensures current == transformation
    {
      current := transformation;
    }

    /**
     * The factory `apply`: a builder whose composed transformation is
     * `initial`; a null `initial` is rejected.
     */
    static method Start(initial: Option<Transformation>) returns (r: Result<TransformationBuilder, NullPointerException>)
      ensures initial.None? ==> r == Failure(NullPointerException)
      ensures initial.Some? ==> r.Success? && fresh(r.value) && r.value.current == initial.value
    {
      if initial.None? {
        r := Failure(NullPointerException);
      } else {
        var b := new TransformationBuilder(initial.value);
        r := Success(b);
      }
    }

    /** Returns the composed transformation; changes nothing. */
    method Build() returns (t: Transformation)
      ensures t == current
    {
      t := current;
    }

    /**
     * Replaces the composed transformation with one that applies `next`
     * after it, and returns this builder.
     */
    method Then(next: Transformation) returns (self: TransformationBuilder)
      modifies this
      ensures self == this
      ensures current == Composed(old(current), next)
    {
      var previous := Build();
      current := Composed(previous, next);
      self := this;
    }

    /** A new store that applies the composed transformation, captured now, to `store`. */
    method To(store: Store) returns (bound: TransformedStore)
      ensures fresh(bound)
      ensures bound.store == store && bound.transformation == current
    {
      var transformation := Build();
      bound := new TransformedStore(store, transformation);
    }
  }
}
