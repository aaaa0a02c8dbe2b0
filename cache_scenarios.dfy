/**
  Behaviour of a newly made cache over a sequence of calls: idempotent
  lookups with one registration, independent kinds, label order as part of
  the identity, the collision the "||" key lets through, and a failed
  registration that leaves nothing behind.
 */
module CacheScenarios {
  import opened CacheKeys
  import opened ClientGolang
  import opened VectorCaches

  /** A registerer that takes every vector. */
  function AcceptAll(registered: seq<Vector>, v: Vector): bool
  {
    true
  }

  /** A registerer that turns every vector down. */
  function RejectAll(registered: seq<Vector>, v: Vector): bool
  {
    false
  }

  /** Every entry of a valid cache is a different vector, across keys and across kinds. */
  lemma EntriesAreDistinct(cache: VectorCache, kind1: Kind, key1: string, kind2: Kind, key2: string)
    requires cache.Valid()
    requires key1 in cache.Entries(kind1) && key2 in cache.Entries(kind2)
    ensures cache.Entries(kind1)[key1] == cache.Entries(kind2)[key2] <==> kind1 == kind2 && key1 == key2
  {
  }

  /**
    With a registerer that accepts every vector (`AcceptAll`): two requests
    for the same counter identity get the same vector, made from the first
    request's options, and the registerer sees it once.
   */
  method SameIdentitySameVector(opts1: Opts, opts2: Opts, labelNames: seq<string>)
    returns (first: Result<Vector>, second: Result<Vector>, registered: seq<Vector>)
    requires opts1.CounterOpts? && opts2.CounterOpts? && opts1.name == opts2.name
    ensures first.Ok? && second == first
    ensures first.value.opts == opts1 && first.value.labelNames == labelNames
    ensures registered == [first.value]
  {
    var registry := new Registry(AcceptAll);
    var cache := new VectorCache(registry);
    first := cache.GetOrMakeCounterVec(opts1, labelNames);
    second := cache.GetOrMakeCounterVec(opts2, labelNames);
    registered := registry.registered;
  }

  /**
    With a registerer that accepts every vector (`AcceptAll`): a counter and
    a gauge with the same name and labels are two vectors, each registered once.
   */
  method KindsAreIndependent(counterOpts: Opts, gaugeOpts: Opts, labelNames: seq<string>)
    returns (counter: Result<Vector>, gauge: Result<Vector>, registered: seq<Vector>)
    requires counterOpts.CounterOpts? && gaugeOpts.GaugeOpts? && counterOpts.name == gaugeOpts.name
    ensures counter.Ok? && gauge.Ok? && counter.value != gauge.value
    ensures counter.value.kind == Counter && gauge.value.kind == Gauge
    ensures registered == [counter.value, gauge.value]
  {
    var registry := new Registry(AcceptAll);
    var cache := new VectorCache(registry);
    counter := cache.GetOrMakeCounterVec(counterOpts, labelNames);
    gauge := cache.GetOrMakeGaugeVec(gaugeOpts, labelNames);
    registered := registry.registered;
  }

  /**
    With a registerer that accepts every vector (`AcceptAll`): histograms live
    in their own map too, so a histogram after a counter of the same identity
    is a new vector, and both are registered.
   */
  method HistogramBesideCounter(counterOpts: Opts, histogramOpts: Opts, labelNames: seq<string>)
    returns (counter: Result<Vector>, histogram: Result<Vector>, registered: seq<Vector>)
    requires counterOpts.CounterOpts? && histogramOpts.HistogramOpts? && counterOpts.name == histogramOpts.name
    ensures counter.Ok? && histogram.Ok? && counter.value != histogram.value
    ensures histogram.value.opts == histogramOpts
    ensures registered == [counter.value, histogram.value]
  {
    var registry := new Registry(AcceptAll);
    var cache := new VectorCache(registry);
    counter := cache.GetOrMakeCounterVec(counterOpts, labelNames);
    histogram := cache.GetOrMakeHistogramVec(histogramOpts, labelNames);
    registered := registry.registered;
  }

  /**
    With a registerer that accepts every vector (`AcceptAll`): the same labels
    in another order make another counter, and both are registered.
   */
  method LabelOrderIsIdentity(opts: Opts, label1: string, label2: string)
    returns (forward: Result<Vector>, backward: Result<Vector>, registered: seq<Vector>)
    requires opts.CounterOpts? && PipeFree(opts.name, [label1, label2]) && label1 != label2
    ensures forward.Ok? && backward.Ok? && forward.value != backward.value
    ensures forward.value.labelNames == [label1, label2] && backward.value.labelNames == [label2, label1]
    ensures registered == [forward.value, backward.value]
  {
    LabelOrderMatters(opts.name, label1, label2);
    var registry := new Registry(AcceptAll);
    var cache := new VectorCache(registry);
    forward := cache.GetOrMakeCounterVec(opts, [label1, label2]);
    backward := cache.GetOrMakeCounterVec(opts, [label2, label1]);
    registered := registry.registered;
  }

  /**
    With a registerer that accepts every vector (`AcceptAll`), the
    collision: after a counter named name + "||" + moved with
    labels `labelNames`, a request for the name `name` with labels
    [moved] + labelNames receives that same vector, whose label names are
    not the ones asked for, and nothing new is registered.
   */
  method CollidingIdentitiesShareVector(opts1: Opts, opts2: Opts, moved: string, labelNames: seq<string>)
    returns (first: Result<Vector>, second: Result<Vector>, registered: seq<Vector>)
    requires opts1.CounterOpts? && opts2.CounterOpts? && opts1.name == opts2.name + Separator + moved
    ensures first.Ok? && second == first
    ensures second.value.labelNames == labelNames && second.value.labelNames != [moved] + labelNames
    ensures registered == [first.value]
  {
    CollisionFamily(opts2.name, moved, labelNames);
    var registry := new Registry(AcceptAll);
    var cache := new VectorCache(registry);
    first := cache.GetOrMakeCounterVec(opts1, labelNames);
    second := cache.GetOrMakeCounterVec(opts2, [moved] + labelNames);
    registered := registry.registered;
  }

  /**
    A registration that fails stores nothing: the key stays absent, and the
    next request for it builds another vector and tries again.
   */
  method FailedRegistrationStoresNothing(opts: Opts, labelNames: seq<string>)
    returns (first: Result<Vector>, second: Result<Vector>, stored: bool)
    requires opts.CounterOpts?
    ensures first.Err? && second.Err? && first.error.collector != second.error.collector
    ensures !stored
  {
    var registry := new Registry(RejectAll);
    var cache := new VectorCache(registry);
    first := cache.GetOrMakeCounterVec(opts, labelNames);
    second := cache.GetOrMakeCounterVec(opts, labelNames);
    stored := CacheKey(opts.name, labelNames) in cache.cVecs;
  }
}
