# Prometheus vector cache (Jaeger), modelled in Dafny

Jaeger's Prometheus metrics factory gets its counter, gauge and histogram
vectors from a small cache (`vectorCache` in
`internal/metrics/prometheus/cache.go`). The cache keeps one map per kind.
Each map goes from a cache key to a vector. The key is the metric name and
the label names joined by `"||"`. A request for an identity the cache has
seen returns the stored vector. A request for a new identity builds one
vector, registers it with the Prometheus `Registerer`, stores it and
returns it.

The project has four modules:

- `CacheKeys` (`cache_key.dfy`) models `getCacheKey` and Go's
  `strings.Join`. It proves three things about the key:
  - The key is the name followed by `"||" + label` for each label, in order.
  - When no name or label contains `'|'`, splitting the key at `"||"` gives
    back the identity, so distinct identities get distinct keys.
  - Without that restriction, moving the first label name into the metric
    name behind `"||"` gives a different identity with the same key.
- `ClientGolang` (`client_golang.dfy`) models the parts of the Prometheus
  Go client that the cache uses:
  - the option records;
  - a `Vector` class, whose objects compare by reference as Go's
    `*CounterVec` pointers do;
  - a `Registry` class that records accepted vectors and decides by an
    opaque admission rule `accepts`. Its constructor only builds this
    abstract registerer, which stands for the `Registerer` handed to
    `newVectorCache`.
- `VectorCaches` (`vector_cache.dfy`) holds the `VectorCache` class. It has
  the three map fields and the three `GetOrMake…Vec` methods. Its `Valid()`
  invariant says that every entry has its map's kind, sits under its own
  key and was registered exactly once.
- `CacheScenarios` (`cache_scenarios.dfy`) proves what call sequences on a
  newly made cache return. Every scenario except the last runs over a
  registerer that accepts every vector (`AcceptAll`). Those scenarios cover
  idempotence with a single registration, that the three kinds are
  independent, that label order matters, and the key collision. The last
  one runs over a registerer that rejects every vector (`RejectAll`) and
  shows that a failed registration stores nothing.

`MustRegister`'s panic becomes an `Err(Rejected(v))` result that carries
the rejected vector. The map write comes after the registration, as in the
source, so an error leaves the key absent and every map unchanged.

Two consequences of the code are worth stating:

- The `"||"` join is not collision-free. Once a name or a label name
  contains `'|'`, distinct identities can share a key, and, if the registerer
  accepted the first, the second one requested gets the first one's vector. `CollisionFamily`,
  `CollisionWitness` and `LabelPipeCollision` prove the collision, and
  `CollidingIdentitiesShareVector` shows the second identity receiving the
  first identity's vector.
- The key uses only `opts.Name`. Two counters with the same `Name` and the
  same label names but a different `Namespace`, `Subsystem`, `Help` or
  `ConstLabels` share one vector, built from the first caller's options.
  `SameIdentitySameVector` allows `opts1` and `opts2` to differ in every
  field except `name`.

## Model

| member | source | states |
|---|---|---|
| `CacheKeys.Join` | internal/metrics/prometheus/cache.go:74 | `strings.Join` of no elements is `""`; of one or more it is the first element followed by the separator and each further element, in order |
| `CacheKeys.CacheKey` | internal/metrics/prometheus/cache.go:73-75 | the key is the metric name followed by `"||"` and each label name, in order; it depends on the name and the label names only |
| `CacheKeys.CacheKeyStartsWithName` | internal/metrics/prometheus/cache.go:74 | the key begins with the metric name and is at least as long as the name plus two characters per label |
| `CacheKeys.CacheKeyRoundTrip` | internal/metrics/prometheus/cache.go:73-75 | if neither the name nor any label contains `'|'`, splitting the key at every `"||"` returns `[name] + labels` |
| `CacheKeys.CacheKeyInjective` | internal/metrics/prometheus/cache.go:74 | for `'|'`-free identities, two keys are equal if and only if the names and the label sequences are equal |
| `CacheKeys.LabelOrderMatters` | internal/metrics/prometheus/cache.go:74 | for `'|'`-free inputs, swapping two different label names changes the key |
| `CacheKeys.CollisionFamily` | internal/metrics/prometheus/cache.go:74 | for every name, label and label list, `(name + "||" + moved, labels)` and `(name, [moved] + labels)` are different identities with the same key |
| `CacheKeys.CollisionWitness` | internal/metrics/prometheus/cache.go:74 | `("a||b", ["c"])` and `("a", ["b","c"])` both give the key `"a||b||c"` |
| `CacheKeys.LabelPipeCollision` | internal/metrics/prometheus/cache.go:74 | a `'|'` inside a label name also collides: `("a|", ["b"])` and `("a", ["|b"])` are different identities that both give `"a|||b"` |
| `ClientGolang.Registry.constructor` | internal/metrics/prometheus/cache.go:22 | a new abstract registerer has registered nothing and keeps the admission rule it is given |
| `ClientGolang.Vector.constructor` | internal/metrics/prometheus/cache.go:38 | a new vector object holds the kind, the options and the label names it was built from |
| `ClientGolang.Registry.Register` | internal/metrics/prometheus/cache.go:39 | the registration succeeds exactly when the registerer's rule accepts the vector; on success the vector is appended to the registered list, and on failure nothing changes |
| `VectorCaches.VectorCache.constructor` | internal/metrics/prometheus/cache.go:22-29 | a new cache has empty counter, gauge and histogram maps, holds the given registerer, and satisfies the invariant |
| `VectorCaches.VectorCache.GetOrMakeCounterVec` | internal/metrics/prometheus/cache.go:31-43 | on a hit, returns the stored vector and changes neither the map nor the registry, whatever the other options are; on a miss, builds one fresh vector from these options and labels and registers it once; if registration succeeds the key now maps to it; if it fails, an error is returned and nothing is stored; old entries are kept; the gauge and histogram maps are untouched; the invariant is preserved |
| `VectorCaches.VectorCache.GetOrMakeGaugeVec` | internal/metrics/prometheus/cache.go:45-57 | the same contract on the gauge map; the counter and histogram maps are untouched |
| `VectorCaches.VectorCache.GetOrMakeHistogramVec` | internal/metrics/prometheus/cache.go:59-71 | the same contract on the histogram map; the counter and gauge maps are untouched |
| `CacheScenarios.EntriesAreDistinct` | internal/metrics/prometheus/cache.go:17-19 | in a valid cache, two entries are the same vector if and only if they have the same kind and the same key |
| `CacheScenarios.SameIdentitySameVector` | internal/metrics/prometheus/cache.go:35-42 | with a registerer that accepts every vector (`AcceptAll`), two counter requests with the same name and labels return the same vector; it is built from the first request's options, and the registerer holds only that vector |
| `CacheScenarios.KindsAreIndependent` | internal/metrics/prometheus/cache.go:31-57 | with a registerer that accepts every vector (`AcceptAll`), a counter and a gauge with the same name and labels are two distinct vectors, each registered once |
| `CacheScenarios.HistogramBesideCounter` | internal/metrics/prometheus/cache.go:59-71 | with a registerer that accepts every vector (`AcceptAll`), a histogram requested after a counter with the same identity is a new vector with the histogram's options, and both are registered |
| `CacheScenarios.LabelOrderIsIdentity` | internal/metrics/prometheus/cache.go:35-42 | with a registerer that accepts every vector (`AcceptAll`) and `'|'`-free names, labels `[l1, l2]` and `[l2, l1]` give two distinct vectors, two registrations, each vector with its own label order |
| `CacheScenarios.CollidingIdentitiesShareVector` | internal/metrics/prometheus/cache.go:35-42 | with a registerer that accepts every vector (`AcceptAll`), after a request for `(n + "||" + m, ls)`, a request for `(n, [m] + ls)` returns that same vector, whose label names are `ls` rather than the ones asked for, and nothing new is registered |
| `CacheScenarios.FailedRegistrationStoresNothing` | internal/metrics/prometheus/cache.go:37-41 | with a registerer that rejects, both requests fail, each with its own newly built vector, and the key stays absent |

## Left out

- The `sync.Mutex` and `defer`-ed unlock: each call is one sequential step. That is the guarantee the lock gives, since it serialises whole calls.
- `prometheus.NewCounterVec`, `NewGaugeVec` and `NewHistogramVec` are foreign library calls. They appear only as fresh `Vector` objects holding their arguments. Descriptor building and label validation are not modelled.
- The Prometheus registry's own admission rule (fully qualified names, descriptor IDs, label dimensions) is a foreign library's internals. It is the opaque function `accepts` chosen when the `Registry` is made.
- `MustRegister`'s panic is returned as an `Err` value instead of unwinding the caller's stack.
- Option fields other than `Name` are carried into the vector but never looked at. Histogram buckets use `real` in place of `float64`.
- The `Registerer` may also be shared with code outside the cache. The invariant assumes any such code leaves the cache's vectors registered exactly once.
- Names and label names are modelled as sequences of characters, while Go strings are byte sequences. Every result is the same for valid UTF-8, because `'|'` is ASCII and never occurs inside a multi-byte character.
- Only `internal/metrics/prometheus/cache.go` is modelled; the rest of the repository is not part of this model.
