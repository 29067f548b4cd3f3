/**
 * Clients of TransformationBuilder: what callers can conclude from the
 * contracts of `apply`, `then`, `build` and `to` alone.
 */
module Usage {
  import opened Wrappers
  import opened Io
  import opened Composition
  import opened Builder
  import Codecs

  /** `build` has no side effect: two calls in a row return the same transformation. */
  method BuildTwice(builder: TransformationBuilder) returns (first: Transformation, second: Transformation)
    ensures first == second == builder.current
  {
    first := builder.Build();
    second := builder.Build();
  }

  /** Zero `then` calls compose to exactly the seed. */
  method SeedOnly(initial: Transformation) returns (built: Transformation)
    ensures built == initial
  {
    var started := TransformationBuilder.Start(Some(initial));
    built := started.value.Build();
  }

  /** Two `then` calls in a row leave the builder holding the chain of the old composition and both arguments. */
  method ThenTwice(builder: TransformationBuilder, first: Transformation, second: Transformation)
    modifies builder
    ensures builder.current == Chain(old(builder.current), [first, second])
  {
    ghost var seed := builder.current;
    var self := builder.Then(first);
    self := self.Then(second);
    assert [first, second][..1] == [first] && [first][..0] == [];
    assert Chain(seed, [first]) == Composed(seed, first);
  }

  /**
   * A builder seeded with the no-op transformation and bound to a store
   * writes and reads exactly the raw bytes of that store.
   */
  method IdentitySeed(store: Store, payload: Bytes) returns (r: Result<Bytes, IoError>)
    modifies store
    ensures store.content == Some(payload)
    ensures r == Success(payload)
  {
    var started := TransformationBuilder.Start(Some(Primitive(Codecs.Identity)));
    var bound := started.value.To(store);
    bound.Output(payload);
    r := bound.Input();
  }

  /** A store bound before a later `then` keeps the transformation captured when it was bound. */
  method BindThenAppend(builder: TransformationBuilder, store: Store, next: Transformation)
    returns (bound: TransformedStore)
    modifies builder
    ensures bound.transformation == old(builder.current) && bound.store == store
    ensures builder.current == Composed(old(builder.current), next)
  {
    bound := builder.To(store);
    var self := builder.Then(next);
  }

  /**
   * Writing a payload through a bound store and reading it back yields the
   * payload whenever the captured transformation is reversible.
   */
  method WriteThenRead(bound: TransformedStore, payload: Bytes) returns (r: Result<Bytes, IoError>)
    requires Reversible(bound.transformation)
    modifies bound.store
    ensures r == Success(payload)
    ensures bound.store.content == Some(Encode(bound.transformation, payload))
  {
    bound.Output(payload);
    r := bound.Input();
  }

  /**
   * The usage example `apply(compression).then(encryption).to(store)`, with the
   * two codecs of module Codecs: a fresh store does not exist, exists after a
   * write, reads back what was written and no longer exists once deleted.
   */
  method StoreScenario(payload: Bytes)
    returns (existedBefore: bool, existsAfterWrite: bool, readBack: Result<Bytes, IoError>, existsAfterDelete: bool)
    ensures !existedBefore && existsAfterWrite && !existsAfterDelete
    ensures readBack == Success(payload)
  {
    var store := new Store(None);
    var started := TransformationBuilder.Start(Some(Primitive(Codecs.Reversal)));
    var builder := started.value;
    builder := builder.Then(Primitive(Codecs.Checksummed));
    var bound := builder.To(store);
    Codecs.ReversalRoundTrips();
    Codecs.ChecksummedRoundTrips();
    LawfulReversible(bound.transformation);
    existedBefore := bound.Exists();
    readBack := WriteThenRead(bound, payload);
    existsAfterWrite := store.Exists();
    var deleted := bound.Delete();
    existsAfterDelete := bound.Exists();
  }
}
