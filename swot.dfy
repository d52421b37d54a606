/** The SWOT vocabulary shared by the six data baskets: the impact a metric is
    classified into, the four lists of a `swot_summary`, and the routing loop
    that appends each successful metric's entry to the list its impact selects
    (metrics that carry an error are skipped). */
module Swot {
  import opened Wrappers

  /** The `swot_category` strings the classifiers produce. */
  datatype Impact = Strength | Weakness | Opportunity | Threat | SevereThreat | Neutral

  /** Python truthiness of an optional number. */
  predicate NonZero(x: Option<real>) {
    x.Some? && x.value != 0.0
  }

  /** `x if x else None`: a zero value is reported as no value. */
  function Shown(x: Option<real>): (r: Option<real>)
    ensures r.Some? <==> NonZero(x)
    ensures r.Some? ==> r == x
  {
    if NonZero(x) then x else None
  }

  /** Python's `a or b` on optional numbers. */
  function Or(a: Option<real>, b: Option<real>): (r: Option<real>)
    ensures NonZero(a) ==> r == a
    ensures !NonZero(a) ==> r == b
  {
    if NonZero(a) then a else b
  }

  /** The four keys of a `swot_summary` dictionary. */
  datatype Bucket = Strengths | Weaknesses | Opportunities | Threats

  /** A successfully computed metric: its category and the entry it would contribute. */
  datatype Signal<T> = Signal(impact: Impact, entry: T)

  datatype Summary<T> = Summary(strengths: seq<T>, weaknesses: seq<T>, opportunities: seq<T>, threats: seq<T>)
  {
    function Get(b: Bucket): seq<T> {
      match b
      case Strengths => strengths
      case Weaknesses => weaknesses
      case Opportunities => opportunities
      case Threats => threats
    }

    /** `swot_summary[b].append(x)` */
    function Add(b: Bucket, x: T): (r: Summary<T>)
      ensures r.Get(b) == Get(b) + [x]
      ensures forall c :: c != b ==> r.Get(c) == Get(c)
      ensures r.Size() == Size() + 1
    {
      match b
      case Strengths => this.(strengths := strengths + [x])
      case Weaknesses => this.(weaknesses := weaknesses + [x])
      case Opportunities => this.(opportunities := opportunities + [x])
      case Threats => this.(threats := threats + [x])
    }

    function Size(): nat {
      |strengths| + |weaknesses| + |opportunities| + |threats|
    }
  }

  function EmptySummary<T>(): (s: Summary<T>)
    ensures forall b :: s.Get(b) == []
  {
    Summary([], [], [], [])
  }

  /** The routing of the volatility and sentiment baskets: each category to its
      own list, THREAT and SEVERE_THREAT both to threats, NEUTRAL nowhere. */
  function FullRouting(i: Impact): (b: Option<Bucket>)
    ensures b == None <==> i == Neutral
    ensures b == Some(Threats) <==> (i == Threat || i == SevereThreat)
    ensures b == Some(Strengths) <==> i == Strength
    ensures b == Some(Weaknesses) <==> i == Weakness
    ensures b == Some(Opportunities) <==> i == Opportunity
  {
    match i
    case Strength => Some(Strengths)
    case Weakness => Some(Weaknesses)
    case Opportunity => Some(Opportunities)
    case Threat => Some(Threats)
    case SevereThreat => Some(Threats)
    case Neutral => None
  }

  /** One step of the routing loop; `None` is a metric that reported an error. */
  function RouteOne<T>(s: Summary<T>, m: Option<Signal<T>>, table: Impact -> Option<Bucket>): Summary<T> {
    match m
    case None => s
    case Some(sig) =>
      match table(sig.impact)
      case None => s
      case Some(b) => s.Add(b, sig.entry)
  }

  /** The summary the routing loop builds over `metrics`, in order. */
  function RouteAll<T>(metrics: seq<Option<Signal<T>>>, table: Impact -> Option<Bucket>): Summary<T>
    decreases |metrics|
  {
    if |metrics| == 0 then EmptySummary()
    else RouteOne(RouteAll(metrics[..|metrics| - 1], table), metrics[|metrics| - 1], table)
  }

  /** Metric `m` contributes entry `x` to bucket `b`. */
  predicate Routes<T(==)>(m: Option<Signal<T>>, table: Impact -> Option<Bucket>, b: Bucket, x: T) {
    m.Some? && m.value.entry == x && table(m.value.impact) == Some(b)
  }

  /** The `for metric in [...]` loop of a basket. */
  method Route<T>(metrics: seq<Option<Signal<T>>>, table: Impact -> Option<Bucket>) returns (s: Summary<T>)
    ensures s == RouteAll(metrics, table)
  {
    s := EmptySummary();
    for i := 0 to |metrics|
      invariant s == RouteAll(metrics[..i], table)
    {
      assert metrics[..i + 1][..i] == metrics[..i];
      s := RouteOne(s, metrics[i], table);
    }
    assert metrics[..|metrics|] == metrics;
  }

  /** An entry is in a list exactly when some successful metric routed it there. */
  lemma {:induction false} RouteMembership<T>(metrics: seq<Option<Signal<T>>>, table: Impact -> Option<Bucket>, b: Bucket, x: T)
    ensures x in RouteAll(metrics, table).Get(b) <==>
            exists k | 0 <= k < |metrics| :: Routes(metrics[k], table, b, x)
    decreases |metrics|
  {
    if |metrics| > 0 {
      var init := metrics[..|metrics| - 1];
      RouteMembership(init, table, b, x);
      assert forall k | 0 <= k < |init| :: init[k] == metrics[k];
    }
  }

  /** Each metric adds at most one entry. */
  lemma {:induction false} RouteSizeBound<T>(metrics: seq<Option<Signal<T>>>, table: Impact -> Option<Bucket>)
    ensures RouteAll(metrics, table).Size() <= |metrics|
    decreases |metrics|
  {
    if |metrics| > 0 {
      RouteSizeBound(metrics[..|metrics| - 1], table);
    }
  }

  /** A list that no table entry selects stays empty. */
  lemma {:induction false} RouteUnselectedEmpty<T>(metrics: seq<Option<Signal<T>>>, table: Impact -> Option<Bucket>, b: Bucket)
    requires forall i :: table(i) != Some(b)
    ensures RouteAll(metrics, table).Get(b) == []
    decreases |metrics|
  {
    if |metrics| > 0 {
      RouteUnselectedEmpty(metrics[..|metrics| - 1], table, b);
    }
  }

  /** When every metric failed the summary is empty. */
  lemma {:induction false} RouteAllFailed<T>(metrics: seq<Option<Signal<T>>>, table: Impact -> Option<Bucket>)
    requires forall k | 0 <= k < |metrics| :: metrics[k].None?
    ensures RouteAll(metrics, table) == EmptySummary()
    decreases |metrics|
  {
    if |metrics| > 0 {
      RouteAllFailed(metrics[..|metrics| - 1], table);
    }
  }

  /** One more metric extends the summary by one routing step. */
  lemma RouteStep<T>(metrics: seq<Option<Signal<T>>>, table: Impact -> Option<Bucket>, k: nat)
    requires k < |metrics|
    ensures RouteAll(metrics[..k + 1], table) == RouteOne(RouteAll(metrics[..k], table), metrics[k], table)
  {
    assert metrics[..k + 1][..k] == metrics[..k];
  }

  /** A list that no metric routes to stays empty. */
  lemma {:induction false} RouteUnusedEmpty<T>(metrics: seq<Option<Signal<T>>>, table: Impact -> Option<Bucket>, b: Bucket)
    requires forall k | 0 <= k < |metrics| && metrics[k].Some? :: table(metrics[k].value.impact) != Some(b)
    ensures RouteAll(metrics, table).Get(b) == []
    decreases |metrics|
  {
    if |metrics| > 0 {
      RouteUnusedEmpty(metrics[..|metrics| - 1], table, b);
    }
  }
}
