/**
  The vector cache: one map per instrument kind from cache key to vector,
  filled lazily, so that each (kind, name, label names) is built and
  registered once. The mutex that guards every call is not modelled: each
  call runs as one sequential step, which is what the lock provides.
 */
module VectorCaches {
  import opened CacheKeys
  import opened ClientGolang

  /** The failure MustRegister panics with: the registerer turned down the new vector. */
  datatype RegistrationError = Rejected(collector: Vector)

  datatype Result<T> = Ok(value: T) | Err(error: RegistrationError)

  /** `after` keeps every key of `before` with the same value. */
  predicate Extends<K, V(==)>(before: map<K, V>, after: map<K, V>)
  {
    forall k | k in before :: k in after && after[k] == before[k]
  }

  /** `v` is the vector a constructor builds from these arguments. */
  predicate BuiltFrom(v: Vector, kind: Kind, opts: Opts, labelNames: seq<string>)
  {
    v.kind == kind && v.opts == opts && v.labelNames == labelNames
  }

  class VectorCache {
    const registerer: Registry
    var cVecs: map<string, Vector>
    var gVecs: map<string, Vector>
    var hVecs: map<string, Vector>

    /** The map the cache keeps for one kind. */
    ghost function Entries(kind: Kind): map<string, Vector>
      reads this
    {
      match kind
      case Counter => cVecs
      case Gauge => gVecs
      case Histogram => hVecs
    }

    /**
      An entry is well kept when the vector has the map's kind, sits under
      its own key, and was registered exactly once.
     */
    ghost predicate Holds(kind: Kind, key: string, v: Vector)
      reads registerer
    {
      v.kind == kind && OptsFor(kind, v.opts) && CacheKey(v.opts.name, v.labelNames) == key &&
      multiset(registerer.registered)[v] == 1
    }

    ghost predicate Valid()
      reads this, registerer
    {
      (forall k | k in cVecs :: Holds(Counter, k, cVecs[k])) &&
      (forall k | k in gVecs :: Holds(Gauge, k, gVecs[k])) &&
      (forall k | k in hVecs :: Holds(Histogram, k, hVecs[k]))
    }

    /** newVectorCache: three empty maps and the given registerer. */
    constructor (registerer: Registry)
      ensures this.registerer == registerer
      ensures cVecs == map[] && gVecs == map[] && hVecs == map[]
      ensures Valid()
    {
      this.registerer := registerer;
      cVecs := map[];
      gVecs := map[];
      hVecs := map[];
    }

    /**
      getOrMakeCounterVec. A hit returns the stored vector and changes
      nothing, whatever the other option fields say. A miss builds one new
      vector and registers it; only when the registration succeeds is the
      vector stored and returned. The gauge and histogram maps are never
      touched.
     */
    method GetOrMakeCounterVec(opts: Opts, labelNames: seq<string>) returns (r: Result<Vector>)
      requires Valid() && opts.CounterOpts?
      modifies this, registerer
      ensures Valid()
      ensures gVecs == old(gVecs) && hVecs == old(hVecs)
      ensures Extends(old(cVecs), cVecs)
      ensures var key := CacheKey(opts.name, labelNames);
        key in old(cVecs) ==>
          r == Ok(old(cVecs)[key]) && cVecs == old(cVecs) &&
          registerer.registered == old(registerer.registered)
      ensures var key := CacheKey(opts.name, labelNames);
        key !in old(cVecs) && r.Ok? ==>
          fresh(r.value) && BuiltFrom(r.value, Counter, opts, labelNames) &&
          registerer.accepts(old(registerer.registered), r.value) &&
          registerer.registered == old(registerer.registered) + [r.value] &&
          cVecs == old(cVecs)[key := r.value]
      ensures r.Err? ==>
          CacheKey(opts.name, labelNames) !in old(cVecs) &&
          fresh(r.error.collector) && BuiltFrom(r.error.collector, Counter, opts, labelNames) &&
          !registerer.accepts(old(registerer.registered), r.error.collector) &&
          registerer.registered == old(registerer.registered) &&
          cVecs == old(cVecs)
    {
      var cacheKey := CacheKey(opts.name, labelNames);
      var cv: Vector;
      if cacheKey !in cVecs {
        cv := new Vector(Counter, opts, labelNames);
        var ok := registerer.Register(cv);
        if !ok {
          return Err(Rejected(cv));
        }
        cVecs := cVecs[cacheKey := cv];
      } else {
        cv := cVecs[cacheKey];
      }
      r := Ok(cv);
    }

    /** getOrMakeGaugeVec: as GetOrMakeCounterVec, on the gauge map only. */
    method GetOrMakeGaugeVec(opts: Opts, labelNames: seq<string>) returns (r: Result<Vector>)
      requires Valid() && opts.GaugeOpts?
      modifies this, registerer
      ensures Valid()
      ensures cVecs == old(cVecs) && hVecs == old(hVecs)
      ensures Extends(old(gVecs), gVecs)
      ensures var key := CacheKey(opts.name, labelNames);
        key in old(gVecs) ==>
          r == Ok(old(gVecs)[key]) && gVecs == old(gVecs) &&
          registerer.registered == old(registerer.registered)
      ensures var key := CacheKey(opts.name, labelNames);
        key !in old(gVecs) && r.Ok? ==>
          fresh(r.value) && BuiltFrom(r.value, Gauge, opts, labelNames) &&
          registerer.accepts(old(registerer.registered), r.value) &&
          registerer.registered == old(registerer.registered) + [r.value] &&
          gVecs == old(gVecs)[key := r.value]
      ensures r.Err? ==>
          CacheKey(opts.name, labelNames) !in old(gVecs) &&
          fresh(r.error.collector) && BuiltFrom(r.error.collector, Gauge, opts, labelNames) &&
          !registerer.accepts(old(registerer.registered), r.error.collector) &&
          registerer.registered == old(registerer.registered) &&
          gVecs == old(gVecs)
    {
      var cacheKey := CacheKey(opts.name, labelNames);
      var gv: Vector;
      if cacheKey !in gVecs {
        gv := new Vector(Gauge, opts, labelNames);
        var ok := registerer.Register(gv);
        if !ok {
          return Err(Rejected(gv));
        }
        gVecs := gVecs[cacheKey := gv];
      } else {
        gv := gVecs[cacheKey];
      }
      r := Ok(gv);
    }

    /** getOrMakeHistogramVec: as GetOrMakeCounterVec, on the histogram map only. */
    method GetOrMakeHistogramVec(opts: Opts, labelNames: seq<string>) returns (r: Result<Vector>)
      requires Valid() && opts.HistogramOpts?
      modifies this, registerer
      ensures Valid()
      ensures cVecs == old(cVecs) && gVecs == old(gVecs)
      ensures Extends(old(hVecs), hVecs)
      ensures var key := CacheKey(opts.name, labelNames);
        key in old(hVecs) ==>
          r == Ok(old(hVecs)[key]) && hVecs == old(hVecs) &&
          registerer.registered == old(registerer.registered)
      ensures var key := CacheKey(opts.name, labelNames);
        key !in old(hVecs) && r.Ok? ==>
          fresh(r.value) && BuiltFrom(r.value, Histogram, opts, labelNames) &&
          registerer.accepts(old(registerer.registered), r.value) &&
          registerer.registered == old(registerer.registered) + [r.value] &&
          hVecs == old(hVecs)[key := r.value]
      ensures r.Err? ==>
          CacheKey(opts.name, labelNames) !in old(hVecs) &&
          fresh(r.error.collector) && BuiltFrom(r.error.collector, Histogram, opts, labelNames) &&
          !registerer.accepts(old(registerer.registered), r.error.collector) &&
          registerer.registered == old(registerer.registered) &&
          hVecs == old(hVecs)
    {
      var cacheKey := CacheKey(opts.name, labelNames);
      var hv: Vector;
      if cacheKey !in hVecs {
        hv := new Vector(Histogram, opts, labelNames);
        var ok := registerer.Register(hv);
        if !ok {
          return Err(Rejected(hv));
        }
        hVecs := hVecs[cacheKey := hv];
      } else {
        hv := hVecs[cacheKey];
      }
      r := Ok(hv);
    }
  }
}
