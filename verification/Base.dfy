/** Values shared by the two budget ledgers: machine integers, the four signed
    limits, the usage they bound, and the abstract counter both ledgers refine. */
module Base {
  datatype Option<+T> = None | Some(value: T)

  const MAX_INT64: int := 0x7FFF_FFFF_FFFF_FFFF
  const MIN_INT64: int := -0x8000_0000_0000_0000
  const TWO_64: int := 0x1_0000_0000_0000_0000

  predicate IsInt64(x: int) {
    MIN_INT64 <= x <= MAX_INT64
  }

  /** Two's-complement truncation: what an unguarded 64-bit addition stores. */
  function Wrap64(x: int): (r: int)
    ensures IsInt64(r)
    ensures IsInt64(x) ==> r == x
    ensures MAX_INT64 < x <= 2 * MAX_INT64 ==> r == x - TWO_64
    ensures 2 * MIN_INT64 <= x < MIN_INT64 ==> r == x + TWO_64
  {
    var low := x % TWO_64;
    if low <= MAX_INT64 then low else low - TWO_64
  }

  // The limits an authorization may carry, and the usage counted against them.
  datatype Limits = Limits(runs: int, calls: int, outputs: int, cost: int)
  datatype Usage = Usage(runs: int, calls: int, outputs: int, cost: int)

  const ZERO: Usage := Usage(0, 0, 0, 0)
  const MAX_EVENTS: int := 100_000
  const MAX_COST_MICROS: int := 1_000_000_000_000

  /** The bounds a signed authorization's limits must respect. */
  predicate ValidLimits(l: Limits) {
    && 1 <= l.runs <= 100
    && 1 <= l.calls <= MAX_EVENTS
    && 0 <= l.outputs <= MAX_EVENTS
    && 0 <= l.cost <= MAX_COST_MICROS
  }

  /** At most 100 runs, 100,000 calls and captured outputs, and a million units of cost in micros. */
  lemma LimitsMean(l: Limits)
    ensures ValidLimits(l) <==>
      && 1 <= l.runs <= 100 && 1 <= l.calls <= 100_000 && 0 <= l.outputs <= 100_000
      && 0 <= l.cost <= 1_000_000 * 1_000_000
  {
  }

  predicate NonNegative(u: Usage) {
    u.runs >= 0 && u.calls >= 0 && u.outputs >= 0 && u.cost >= 0
  }

  predicate Within(u: Usage, l: Limits) {
    && NonNegative(u)
    && u.runs <= l.runs && u.calls <= l.calls && u.outputs <= l.outputs && u.cost <= l.cost
  }

  function Plus(u: Usage, d: Usage): Usage {
    Usage(u.runs + d.runs, u.calls + d.calls, u.outputs + d.outputs, u.cost + d.cost)
  }

  /** What a caller asks for: one run with some captured outputs, or one provider call at a cost. */
  datatype Request = RunRequest(outputs: int) | CallRequest(cost: int)

  function Delta(r: Request): Usage {
    match r
    case RunRequest(outputs) => Usage(1, 0, outputs, 0)
    case CallRequest(cost) => Usage(0, 1, 0, cost)
  }

  function EventType(r: Request): string {
    if r.RunRequest? then "run_reserved" else "provider_call_reserved"
  }

  /** A delta of the shape that one of the two reservation kinds has. */
  predicate ReservationShape(eventType: string, d: Usage) {
    && NonNegative(d)
    && (eventType == "run_reserved" || eventType == "provider_call_reserved")
    && (eventType == "run_reserved" ==> d.runs == 1 && d.calls == 0 && d.cost == 0)
    && (eventType == "provider_call_reserved" ==> d.runs == 0 && d.calls == 1 && d.outputs == 0)
  }

  // ---- The abstract budget counter ----

  /** The counter accepts a request exactly when it asks for no negative amount
      and the sum stays within every limit. */
  predicate Affordable(l: Limits, u: Usage, r: Request) {
    NonNegative(Delta(r)) && Within(Plus(u, Delta(r)), l)
  }

  function Spend(l: Limits, u: Usage, r: Request): Usage {
    if Affordable(l, u, r) then Plus(u, Delta(r)) else u
  }

  function SpendAll(l: Limits, rs: seq<Request>): (u: Usage)
    requires ValidLimits(l)
    ensures Within(u, l)
  {
    if rs == [] then ZERO
    else Spend(l, SpendAll(l, rs[..|rs| - 1]), rs[|rs| - 1])
  }

  function Verdict(l: Limits, rs: seq<Request>, i: nat): bool
    requires ValidLimits(l) && i < |rs|
  {
    Affordable(l, SpendAll(l, rs[..i]), rs[i])
  }

  // ---- Sizes ----

  /** A sequence without repeats has as many members as elements. */
  lemma {:induction false} DistinctSize<T>(s: seq<T>, members: set<T>)
    requires forall i, j :: 0 <= i < j < |s| ==> s[i] != s[j]
    requires forall x :: x in members <==> x in s
    ensures |members| == |s|
  {
    if s == [] {
      assert members == {};
    } else {
      var prior, last := s[..|s| - 1], s[|s| - 1];
      assert forall x :: x in s <==> x in prior || x == last;
      DistinctSize(prior, members - {last});
    }
  }

  lemma {:induction false} SubsetSize<T>(t: set<T>, s: set<T>)
    requires t <= s
    ensures |t| <= |s|
    decreases |t|
  {
    if t != {} {
      var x :| x in t;
      SubsetSize(t - {x}, s - {x});
    }
  }

  lemma SameSizeSubset<T>(t: set<T>, s: set<T>)
    requires t <= s && |s| == |t|
    ensures s == t
  {
    if s != t {
      var x :| x in s && x !in t;
      SubsetSize(t, s - {x});
    }
  }
}
