# TransformationBuilder, modelled in Dafny

TrueLicense's `TransformationBuilder` chains reversible byte-stream transformations, such as a compression and an encryption, into one composed transformation. It can also bind that composition to a `Store`. Writes through the bound store pass through every transformation in the order they were appended. Reads undo them in the mirrored order: the one appended last is undone first.

The model works on whole payloads, not on streams:

- `Io.Codec` is an externally supplied transformation. It is a pair of total functions: `encode` is what its wrapping sink writes on, and `decode` is what its wrapping source reads back. Decoding may fail.
- `Composition.Transformation` is either such a codec (`Primitive`) or the anonymous transformation that `then` creates (`Composed(previous, next)`).
- `Io.Sink` and `Io.Source` are endpoints wrapped by layers. `Composition.Apply` and `Composition.Unapply` build them exactly as the source does: `previous.apply(next.apply(sink))` and `previous.unapply(next.unapply(source))`.
- `Composition.Encode` and `Composition.Decode` are the intended semantics. On write, `previous` runs first. On read, `next` is undone first, and a failure is passed on unchanged. Lemmas prove that the code-shaped `Apply`/`Unapply` have exactly these semantics.
- `Composition.Chain(seed, appended)` is the builder's composition after one `then` call for each element of `appended`. `WriteOrder` and `ReadOrder` state the mirror-order (LIFO) law over it. `ChainReversible` proves the composed round-trip by induction on the number of `then` calls.
- `Builder.TransformationBuilder` is a class with the one mutable field `current`. `Builder.TransformedStore` is the store that `to` returns. Its two fields are constants: the underlying store, and the transformation captured when `to` was called.
- `Io.Store` is an in-memory stand-in for the external store. Its content is `Option<Bytes>`. Reading or deleting a store without content fails with `NotFound`; that behaviour is an assumption of the model, because no store implementation is part of it.
- `Codecs` holds concrete codecs: the no-op one, used for the identity-seed case, and a reversing and a checksumming one. The last two stand in for the compression and encryption of the class's usage example. They are used to show that order matters and to run the store scenario.

Null arguments: only the constructor rejects one (`Objects.requireNonNull`, line 52). `then` and `to` perform no null check, so only `TransformationBuilder.Start` fails on an absent argument.

## Model

| member | source | states |
|---|---|---|
| Composition.Apply | truelicense-spi/src/main/java/org/truelicense/spi/io/TransformationBuilder.java:72-74 | the composed `apply` wraps the sink as `previous.apply(next.apply(sink))`: the resulting sink carries the codecs of the composition on top of the given sink, in append order with the first appended outermost; its write semantics is proved by `ApplyWrites` |
| Composition.Unapply | truelicense-spi/src/main/java/org/truelicense/spi/io/TransformationBuilder.java:77-79 | the composed `unapply` wraps the source as `previous.unapply(next.unapply(source))`: the resulting source carries the same codecs in the same order on top of the given source; its read semantics is proved by `UnapplyReads` |
| Composition.ApplyWrites | truelicense-spi/src/main/java/org/truelicense/spi/io/TransformationBuilder.java:72-74 | writing a payload into the sink the composition wraps around a sink writes the encoded payload into that sink, with previous encoding before next |
| Composition.UnapplyReads | truelicense-spi/src/main/java/org/truelicense/spi/io/TransformationBuilder.java:77-79 | reading from the source the composition wraps around a source decodes what that source yields, next first and previous after, passing a failure on unchanged |
| Composition.WriteOrder | truelicense-spi/src/main/java/org/truelicense/spi/io/TransformationBuilder.java:66-82 | data written through a chain is encoded by the seed first and then by each appended transformation in `then` call order |
| Composition.ReadOrder | truelicense-spi/src/main/java/org/truelicense/spi/io/TransformationBuilder.java:66-82 | reading through a chain applies the decoders in exactly the reverse of the write order: the last appended is undone first and the seed last |
| Composition.ComposedReversible | truelicense-spi/src/main/java/org/truelicense/spi/io/TransformationBuilder.java:66-80 | the transformation `then` builds from two transformations that each round-trip also round-trips |
| Composition.ChainReversible | truelicense-spi/src/main/java/org/truelicense/spi/io/TransformationBuilder.java:66-80 | if the seed and every appended transformation round-trip, reading back what was written through the chain yields the payload (induction on the number of `then` calls) |
| Composition.LawfulReversible | truelicense-spi/src/main/java/org/truelicense/spi/io/TransformationBuilder.java:66-80 | a composition whose primitive codecs all obey their round-trip law round-trips |
| Composition.BoundRoundTrip | truelicense-spi/src/main/java/org/truelicense/spi/io/TransformationBuilder.java:103-111 | reading through `unapply` of the raw store what was written through `apply` of it yields the payload, for a reversible transformation |
| Builder.TransformationBuilder.constructor | truelicense-spi/src/main/java/org/truelicense/spi/io/TransformationBuilder.java:51-53 | the composed transformation is seeded with the given one |
| Builder.TransformationBuilder.Start | truelicense-spi/src/main/java/org/truelicense/spi/io/TransformationBuilder.java:47-53 | an absent initial transformation fails with a null-pointer failure; otherwise a fresh builder whose composition is exactly the initial one |
| Builder.TransformationBuilder.Build | truelicense-spi/src/main/java/org/truelicense/spi/io/TransformationBuilder.java:57 | returns the current composition and changes nothing |
| Builder.TransformationBuilder.Then | truelicense-spi/src/main/java/org/truelicense/spi/io/TransformationBuilder.java:66-82 | returns the same builder; the only state change is that the composition becomes Composed(old composition, next) |
| Builder.TransformationBuilder.To | truelicense-spi/src/main/java/org/truelicense/spi/io/TransformationBuilder.java:88-91 | a fresh bound store over the given store that captures the current composition |
| Builder.TransformedStore.constructor | truelicense-spi/src/main/java/org/truelicense/spi/io/TransformationBuilder.java:89-91 | the bound store holds the underlying store and the captured transformation |
| Builder.TransformedStore.Delete | truelicense-spi/src/main/java/org/truelicense/spi/io/TransformationBuilder.java:94-96 | same outcome and same effect on the content as the underlying store's delete, whatever the transformation |
| Builder.TransformedStore.Exists | truelicense-spi/src/main/java/org/truelicense/spi/io/TransformationBuilder.java:99-101 | exactly the underlying store's existence, whatever the transformation |
| Builder.TransformedStore.Input | truelicense-spi/src/main/java/org/truelicense/spi/io/TransformationBuilder.java:104-106 | a missing store fails with NotFound; otherwise the raw content decoded by the captured transformation |
| Builder.TransformedStore.Output | truelicense-spi/src/main/java/org/truelicense/spi/io/TransformationBuilder.java:109-111 | the underlying store ends up holding the payload encoded by the captured transformation |
| Usage.BuildTwice | truelicense-spi/src/main/java/org/truelicense/spi/io/TransformationBuilder.java:57 | two `build` calls with nothing in between return the same transformation, the current one |
| Usage.SeedOnly | truelicense-spi/src/main/java/org/truelicense/spi/io/TransformationBuilder.java:47-57 | with zero `then` calls, `build` returns exactly the seed |
| Usage.ThenTwice | truelicense-spi/src/main/java/org/truelicense/spi/io/TransformationBuilder.java:66-82 | two `then` calls leave the builder holding `Chain(old composition, [first, second])`, the value the order and round-trip lemmas are stated over |
| Usage.IdentitySeed | truelicense-spi/src/main/java/org/truelicense/spi/io/TransformationBuilder.java:47-57 | a builder seeded with the no-op transformation and bound to a store writes exactly the payload into the raw store and reads it back unchanged |
| Usage.BindThenAppend | truelicense-spi/src/main/java/org/truelicense/spi/io/TransformationBuilder.java:88-91 | a `then` after `to` changes the builder's composition but not the transformation the bound store captured |
| Usage.WriteThenRead | truelicense-spi/src/main/java/org/truelicense/spi/io/TransformationBuilder.java:103-111 | writing through a bound store with a reversible transformation and reading back yields the payload |
| Usage.StoreScenario | truelicense-spi/src/main/java/org/truelicense/spi/io/TransformationBuilder.java:22-28 | `apply(a).then(b).to(store)` on an empty store: it does not exist, exists after a write, reads back the payload, and no longer exists after delete |
| Codecs.OrderMatters | truelicense-spi/src/main/java/org/truelicense/spi/io/TransformationBuilder.java:72-74 | the same two transformations appended in opposite orders write different raw bytes, and both compositions round-trip |

## Left out

- `ObfuscateMainClassesMojo`: it is Maven plugin configuration (an annotated directory parameter and its getter), and its behaviour lives in code that is not part of this model.
- Streams: every read and write is one whole payload. Lazy streaming, partial writes, and opening and closing streams are not modelled.
- Write-side failures: `encode` is total, and a failing raw write is not modelled. Read-side failures are modelled: a missing store and a failed decode both pass through unchanged.
- The `Source`, `Sink`, `Store`, `Transformation` and `Builder` interfaces: Dafny traits are not used. A bound store therefore wraps a raw `Io.Store` only, and binding an already bound store again is not modelled.
- A null `next` passed to `then`: the code accepts it and fails only later, when the composition is applied. The model gives `then` and `to` non-null arguments.
- Concurrency of a shared bound store, and per-call wrapper state: transformations are stateless values here.
