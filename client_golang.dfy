/**
  The parts of the Prometheus Go client that the vector cache uses, as far
  as the cache relies on them: option records, vector objects (compared by
  reference, as Go compares *CounterVec pointers) and a registerer that
  accepts or rejects a vector by a rule the cache cannot see.
 */
module ClientGolang {

  /** The three instrument kinds the cache keeps a map for. */
  datatype Kind = Counter | Gauge | Histogram

  /**
    prometheus.CounterOpts, GaugeOpts and HistogramOpts. Only `name` takes
    part in the cache key; the other fields are carried into the vector
    unchanged and are otherwise opaque here.
   */
  datatype Opts =
    | CounterOpts(namespace: string, subsystem: string, name: string, help: string,
                  constLabels: map<string, string>)
    | GaugeOpts(namespace: string, subsystem: string, name: string, help: string,
                constLabels: map<string, string>)
    | HistogramOpts(namespace: string, subsystem: string, name: string, help: string,
                    constLabels: map<string, string>, buckets: seq<real>)

  /** The option record that belongs to each kind's constructor. */
  predicate OptsFor(kind: Kind, opts: Opts)
  {
    match kind
    case Counter => opts.CounterOpts?
    case Gauge => opts.GaugeOpts?
    case Histogram => opts.HistogramOpts?
  }

  /**
    A counter, gauge or histogram vector as built by prometheus.NewCounterVec,
    NewGaugeVec or NewHistogramVec: a new object holding the options and the
    label names it was made with.
   */
  class Vector {
    const kind: Kind
    const opts: Opts
    const labelNames: seq<string>

    constructor (kind: Kind, opts: Opts, labelNames: seq<string>)
      ensures this.kind == kind && this.opts == opts && this.labelNames == labelNames
    {
      this.kind := kind;
      this.opts := opts;
      this.labelNames := labelNames;
    }
  }

  /**
    A prometheus.Registerer. `registered` lists the vectors it has accepted,
    in order; `accepts` is its admission rule (for the default registry,
    for example, "the vector's own descriptor is valid and no conflicting
    descriptor is registered yet"), looked at only through
    its answers.
   */
  class Registry {
    var registered: seq<Vector>
    const accepts: (seq<Vector>, Vector) -> bool

    constructor (accepts: (seq<Vector>, Vector) -> bool)
      ensures registered == [] && this.accepts == accepts
    {
      registered := [];
      this.accepts := accepts;
    }

    /**
      Register: when the rule accepts the vector it is appended to the
      registered vectors; otherwise nothing changes and the failure is
      reported (MustRegister panics at that point).
     */
    method Register(v: Vector) returns (ok: bool)
      modifies this
      ensures ok == accepts(old(registered), v)
      ensures registered == if ok then old(registered) + [v] else old(registered)
    {
      ok := accepts(registered, v);
      if ok {
        registered := registered + [v];
      }
    }
  }
}
