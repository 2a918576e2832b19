/** Limits that cover a plan admit every schedule the plan foresaw, call by call. */
module PlanCoverage {
  import opened Base
  import opened Cost
  import opened Plan
  import opened FileLedger
  import opened Backends

  /** The check made before an authorization is signed. */
  predicate Covers(l: Limits, plan: Plan) {
    && l.runs >= 1
    && l.calls >= plan.budget.calls
    && l.cost >= plan.budget.cost
    && !(l.outputs > 0 && l.outputs < plan.reviewOutputs)
  }

  // ---- Schedules ----

  /** What an evaluation reserves: its run, the preflight call, and calls on behalf of a slot. */
  datatype Event = RunStart(outputs: int) | PreflightCall(cost: int) | SlotCall(slot: nat, cost: int)

  function RequestOf(e: Event): Request {
    match e
    case RunStart(outputs) => RunRequest(outputs)
    case PreflightCall(cost) => CallRequest(cost)
    case SlotCall(_, cost) => CallRequest(cost)
  }

  function RequestsOf(es: seq<Event>): (rs: seq<Request>)
    ensures |rs| == |es|
  {
    seq(|es|, i requires 0 <= i < |es| => RequestOf(es[i]))
  }

  function Runs(es: seq<Event>): nat {
    if es == [] then 0 else Runs(es[..|es| - 1]) + (if es[|es| - 1].RunStart? then 1 else 0)
  }

  function Preflights(es: seq<Event>): nat {
    if es == [] then 0 else Preflights(es[..|es| - 1]) + (if es[|es| - 1].PreflightCall? then 1 else 0)
  }

  predicate IsFor(e: Event, slot: nat) {
    e.SlotCall? && e.slot == slot
  }

  function SlotCalls(es: seq<Event>, slot: nat): nat {
    if es == [] then 0 else SlotCalls(es[..|es| - 1], slot) + (if IsFor(es[|es| - 1], slot) then 1 else 0)
  }

  function SlotCost(es: seq<Event>, slot: nat): int {
    if es == [] then 0 else SlotCost(es[..|es| - 1], slot) + (if IsFor(es[|es| - 1], slot) then es[|es| - 1].cost else 0)
  }

  /** The situation a plan was made for. */
  datatype Setting = Setting(slots: seq<Profile>, preflight: Preflight, rates: Rates, review: int)

  predicate EventFits(l: Limits, c: Setting, e: Event) {
    match e
    case RunStart(outputs) => outputs == 0 || (l.outputs > 0 && outputs == c.review)
    case PreflightCall(cost) => 0 <= cost <= PreflightCost(c.preflight, c.rates) && cost <= MAX_INT64
    case SlotCall(slot, cost) => slot < |c.slots| && 0 <= cost <= MAX_INT64
  }

  ghost predicate SlotsRespected(c: Setting, es: seq<Event>) {
    forall k :: 0 <= k < |c.slots| ==>
      SlotCalls(es, k) <= c.slots[k].maxSteps && SlotCost(es, k) <= ProfileCost(c.slots[k], c.rates)
  }

  /** At most one run, capturing nothing or the whole review bundle; at most one preflight within its
      bound; and in any order and interleaving, calls within each slot's step and cost bounds. */
  ghost predicate Schedule(l: Limits, c: Setting, es: seq<Event>) {
    && (forall i :: 0 <= i < |es| ==> EventFits(l, c, es[i]))
    && Runs(es) <= 1 && Preflights(es) <= 1
    && SlotsRespected(c, es)
  }

  // ---- What a schedule adds up to ----

  function Reserved(es: seq<Event>): Usage {
    if es == [] then ZERO else Plus(Reserved(es[..|es| - 1]), Delta(RequestOf(es[|es| - 1])))
  }

  function CallsBelow(es: seq<Event>, m: nat): nat {
    if m == 0 then 0 else CallsBelow(es, m - 1) + SlotCalls(es, m - 1)
  }

  function CostBelow(es: seq<Event>, m: nat): int {
    if m == 0 then 0 else CostBelow(es, m - 1) + SlotCost(es, m - 1)
  }

  lemma {:induction false} OneMoreEvent(es: seq<Event>, m: nat)
    requires es != []
    ensures var prior, e := es[..|es| - 1], es[|es| - 1];
      var here := e.SlotCall? && e.slot < m;
      && CallsBelow(es, m) == CallsBelow(prior, m) + (if here then 1 else 0)
      && CostBelow(es, m) == CostBelow(prior, m) + (if here then e.cost else 0)
  {
    if m > 0 {
      OneMoreEvent(es, m - 1);
    }
  }

  lemma {:induction false} NoEvents(m: nat)
    ensures CallsBelow([], m) == 0 && CostBelow([], m) == 0
  {
    if m > 0 {
      NoEvents(m - 1);
    }
  }

  /** Every call belongs to the preflight or to exactly one slot. */
  lemma {:induction false} ReservedBySlot(l: Limits, c: Setting, es: seq<Event>)
    requires forall i :: 0 <= i < |es| ==> EventFits(l, c, es[i])
    ensures Reserved(es).runs == Runs(es)
    ensures Reserved(es).calls == Preflights(es) + CallsBelow(es, |c.slots|)
    ensures Reserved(es).cost <= Preflights(es) * PreflightCost(c.preflight, c.rates) + CostBelow(es, |c.slots|)
    ensures l.outputs > 0 ==> Reserved(es).outputs <= Runs(es) * (if c.review > 0 then c.review else 0)
    ensures l.outputs <= 0 ==> Reserved(es).outputs == 0
  {
    if es == [] {
      NoEvents(|c.slots|);
    } else {
      var prior, e := es[..|es| - 1], es[|es| - 1];
      ReservedBySlot(l, c, prior);
      OneMoreEvent(es, |c.slots|);
      hide PreflightCost;
      assert EventFits(l, c, e);
      if e.PreflightCall? {
        OneMoreTimes(Preflights(prior), PreflightCost(c.preflight, c.rates));
      } else if e.RunStart? {
        OneMoreTimes(Runs(prior), if c.review > 0 then c.review else 0);
      }
    }
  }

  lemma OneMoreTimes(n: nat, x: int)
    ensures (n + 1) * x == n * x + x
  {
  }

  lemma {:induction false} SlotsBound(c: Setting, es: seq<Event>, m: nat)
    requires SlotsRespected(c, es) && m <= |c.slots|
    ensures CallsBelow(es, m) <= Total(c.slots[..m], c.rates).calls
    ensures CostBelow(es, m) <= Total(c.slots[..m], c.rates).cost
  {
    if m > 0 {
      SlotsBound(c, es, m - 1);
      assert c.slots[..m][..m - 1] == c.slots[..m - 1];
      hide ProfileCost;
      hide SlotCalls;
      hide SlotCost;
    }
  }

  /** A schedule as a whole stays within limits that cover the plan. */
  lemma ScheduleFits(l: Limits, c: Setting, plan: Plan, es: seq<Event>)
    requires ValidLimits(l) && Covers(l, plan) && Planned(plan, c.slots, c.preflight, c.rates, c.review)
    requires Schedule(l, c, es) && PreflightCost(c.preflight, c.rates) <= MAX_INT64
    ensures var u := Reserved(es); u.runs <= l.runs && u.calls <= l.calls && u.outputs <= l.outputs && u.cost <= l.cost
  {
    ReservedBySlot(l, c, es);
    SlotsBound(c, es, |c.slots|);
    assert c.slots[..|c.slots|] == c.slots;
    hide Total;
    hide Reserved;
    hide TokenCost;
    hide SlotsRespected;
    hide Runs;
    hide Preflights;
    AtMostOnce(Preflights(es), PreflightCost(c.preflight, c.rates));
    AtMostOnce(Runs(es), if c.review > 0 then c.review else 0);
  }

  lemma AtMostOnce(n: nat, x: int)
    requires n <= 1 && x >= 0
    ensures n * x <= x
  {
  }

  // ---- Admission at every step ----

  lemma {:induction false} PrefixSpends(l: Limits, c: Setting, es: seq<Event>, k: nat)
    requires (forall i :: 0 <= i < |es| ==> EventFits(l, c, es[i])) && c.review >= 0 && k <= |es|
    ensures NonNegative(Reserved(es[..k]))
    ensures Reserved(es[..k]).runs <= Reserved(es).runs && Reserved(es[..k]).calls <= Reserved(es).calls
    ensures Reserved(es[..k]).outputs <= Reserved(es).outputs && Reserved(es[..k]).cost <= Reserved(es).cost
  {
    if es == [] {
      assert es[..k] == [];
    } else {
      var prior, e := es[..|es| - 1], es[|es| - 1];
      assert EventFits(l, c, e);
      hide PreflightCost;
      if k < |es| {
        PrefixSpends(l, c, prior, k);
        assert prior[..k] == es[..k];
        PrefixSpends(l, c, prior, |prior|);
        assert prior[..|prior|] == prior;
      } else {
        PrefixSpends(l, c, prior, |prior|);
        assert prior[..|prior|] == prior && es[..k] == es;
      }
    }
  }

  /** If the whole fits, every step is accepted and the counter is the running sum. */
  lemma {:induction false} EveryStepAccepted(l: Limits, c: Setting, es: seq<Event>, k: nat)
    requires ValidLimits(l) && (forall i :: 0 <= i < |es| ==> EventFits(l, c, es[i])) && c.review >= 0 && k <= |es|
    requires var u := Reserved(es); u.runs <= l.runs && u.calls <= l.calls && u.outputs <= l.outputs && u.cost <= l.cost
    ensures SpendAll(l, RequestsOf(es)[..k]) == Reserved(es[..k])
    ensures k < |es| ==> Verdict(l, RequestsOf(es), k)
  {
    if k > 0 {
      EveryStepAccepted(l, c, es, k - 1);
      assert RequestsOf(es)[..k][..k - 1] == RequestsOf(es)[..k - 1];
      StepSum(es, k - 1);
    }
    if k < |es| {
      PrefixSpends(l, c, es, k + 1);
      StepSum(es, k);
      DeltaFits(l, c, es[k]);
    }
    hide Reserved;
    hide EventFits;
  }

  lemma StepSum(es: seq<Event>, k: nat)
    requires k < |es|
    ensures Reserved(es[..k + 1]) == Plus(Reserved(es[..k]), Delta(RequestOf(es[k])))
  {
    assert es[..k + 1][..k] == es[..k];
  }

  lemma DeltaFits(l: Limits, c: Setting, e: Event)
    requires EventFits(l, c, e) && c.review >= 0
    ensures NonNegative(Delta(RequestOf(e)))
  {
  }

  ghost predicate NeverRefused(l: Limits, es: seq<Event>)
    requires ValidLimits(l)
  {
    forall k :: 0 <= k < |es| ==> Verdict(l, RequestsOf(es), k)
  }

  /** If the limits cover the plan, then no schedule the plan foresaw is refused at any step, if and
      only if the preflight's cost bound, which is added up unguarded, fits a 64-bit integer. */
  lemma CoverageIsEnough(l: Limits, c: Setting, plan: Plan)
    requires ValidLimits(l) && Covers(l, plan) && c.review >= 0
    requires Planned(plan, c.slots, c.preflight, c.rates, c.review) && AllValid(c.slots)
    ensures (forall es :: Schedule(l, c, es) ==> NeverRefused(l, es)) <==> PreflightCost(c.preflight, c.rates) <= MAX_INT64
  {
    if PreflightCost(c.preflight, c.rates) <= MAX_INT64 {
      forall es | Schedule(l, c, es) ensures NeverRefused(l, es) {
        ScheduleFits(l, c, plan, es);
        forall k: nat | k < |es| ensures Verdict(l, RequestsOf(es), k) {
          EveryStepAccepted(l, c, es, k);
        }
      }
    } else {
      var es := [PreflightCall(MAX_INT64)];
      OverflowSchedule(l, c, es);
    }
  }

  /** A preflight whose bound overflowed can cost more than any limit allows. */
  lemma OverflowSchedule(l: Limits, c: Setting, es: seq<Event>)
    requires ValidLimits(l) && AllValid(c.slots) && PreflightCost(c.preflight, c.rates) > MAX_INT64
    requires es == [PreflightCall(MAX_INT64)]
    ensures Schedule(l, c, es) && !NeverRefused(l, es)
  {
    assert es[..0] == [];
    forall k: nat | k < |c.slots|
      ensures SlotCalls(es, k) <= c.slots[k].maxSteps && SlotCost(es, k) <= ProfileCost(c.slots[k], c.rates)
    {
      assert c.slots[k].Valid();
    }
    assert RequestsOf(es)[..0] == [];
    assert !Verdict(l, RequestsOf(es), 0);
  }

  lemma {:induction false} AcceptedSums(l: Limits, es: seq<Event>, k: nat)
    requires ValidLimits(l) && NeverRefused(l, es) && k <= |es|
    ensures SpendAll(l, RequestsOf(es)[..k]) == Reserved(es[..k])
  {
    if k == 0 {
      assert RequestsOf(es)[..0] == [] && es[..0] == [];
    } else {
      AcceptedSums(l, es, k - 1);
      assert Verdict(l, RequestsOf(es), k - 1);
      assert RequestsOf(es)[..k][..k - 1] == RequestsOf(es)[..k - 1];
      StepSum(es, k - 1);
      hide Reserved;
      hide NeverRefused;
    }
  }

  /** A schedule that is never refused stays within the limits. */
  lemma NeverRefusedFits(l: Limits, es: seq<Event>)
    requires ValidLimits(l) && NeverRefused(l, es)
    ensures Within(Reserved(es), l)
  {
    AcceptedSums(l, es, |es|);
    assert es[..|es|] == es && RequestsOf(es)[..|es|] == RequestsOf(es);
  }

  // ---- The plan in full ----

  /** n calls for one slot, the first at the given cost and the others free. */
  function CallsFor(slot: nat, n: nat, cost: int): seq<Event> {
    if n == 0 then [] else CallsFor(slot, n - 1, cost) + [SlotCall(slot, if n == 1 then cost else 0)]
  }

  /** Everything the first m slots allow. */
  function FullCalls(c: Setting, m: nat): seq<Event>
    requires m <= |c.slots|
  {
    if m == 0 then []
    else
      var p := c.slots[m - 1];
      FullCalls(c, m - 1) + CallsFor(m - 1, if p.maxSteps >= 0 then p.maxSteps else 0, ProfileCost(p, c.rates))
  }

  /** The preflight at its bound and all that the slots allow. */
  function FullPlan(c: Setting): seq<Event> {
    [PreflightCall(PreflightCost(c.preflight, c.rates))] + FullCalls(c, |c.slots|)
  }

  lemma SlotSnoc(es: seq<Event>, e: Event, k: nat)
    ensures SlotCalls(es + [e], k) == SlotCalls(es, k) + (if IsFor(e, k) then 1 else 0)
    ensures SlotCost(es + [e], k) == SlotCost(es, k) + (if IsFor(e, k) then e.cost else 0)
  {
    assert (es + [e])[..|es|] == es;
  }

  lemma KindSnoc(es: seq<Event>, e: Event)
    ensures Runs(es + [e]) == Runs(es) + (if e.RunStart? then 1 else 0)
    ensures Preflights(es + [e]) == Preflights(es) + (if e.PreflightCall? then 1 else 0)
    ensures Reserved(es + [e]) == Plus(Reserved(es), Delta(RequestOf(e)))
  {
    assert (es + [e])[..|es|] == es;
  }

  lemma {:induction false} CountsAppend(a: seq<Event>, b: seq<Event>, k: nat)
    ensures SlotCalls(a + b, k) == SlotCalls(a, k) + SlotCalls(b, k) && SlotCost(a + b, k) == SlotCost(a, k) + SlotCost(b, k)
    ensures Runs(a + b) == Runs(a) + Runs(b) && Preflights(a + b) == Preflights(a) + Preflights(b)
    ensures Reserved(a + b) == Plus(Reserved(a), Reserved(b))
  {
    if b == [] {
      assert a + b == a;
    } else {
      var prior, e := b[..|b| - 1], b[|b| - 1];
      assert b == prior + [e] && a + b == a + prior + [e];
      CountsAppend(a, prior, k);
      SlotSnoc(prior, e, k);
      SlotSnoc(a + prior, e, k);
      KindSnoc(prior, e);
      KindSnoc(a + prior, e);
      hide SlotCalls;
      hide SlotCost;
      hide Runs;
      hide Preflights;
      hide Reserved;
    }
  }

  lemma {:induction false} CallsForCount(slot: nat, n: nat, cost: int, k: nat)
    ensures var es := CallsFor(slot, n, cost);
      && SlotCalls(es, k) == (if k == slot then n else 0) && SlotCost(es, k) == (if k == slot && n > 0 then cost else 0)
      && Runs(es) == 0 && Preflights(es) == 0 && Reserved(es) == Usage(0, n, 0, if n > 0 then cost else 0)
  {
    if n > 0 {
      CallsForCount(slot, n - 1, cost, k);
      var es := CallsFor(slot, n, cost);
      assert es[..|es| - 1] == CallsFor(slot, n - 1, cost);
    }
  }

  ghost predicate AllFitting(l: Limits, c: Setting, es: seq<Event>) {
    forall i :: 0 <= i < |es| ==> EventFits(l, c, es[i])
  }

  lemma {:induction false} CallsForFit(l: Limits, c: Setting, slot: nat, n: nat, cost: int)
    requires slot < |c.slots| && 0 <= cost <= MAX_INT64
    ensures AllFitting(l, c, CallsFor(slot, n, cost))
  {
    if n > 0 {
      CallsForFit(l, c, slot, n - 1, cost);
    }
  }

  lemma FittingAppend(l: Limits, c: Setting, a: seq<Event>, b: seq<Event>)
    requires AllFitting(l, c, a) && AllFitting(l, c, b)
    ensures AllFitting(l, c, a + b)
  {
    hide EventFits;
  }

  lemma CostInRange(p: Profile, rates: Rates)
    requires p.Valid()
    ensures 0 <= ProfileCost(p, rates) <= MAX_INT64
  {
  }

  lemma TotalStep(c: Setting, m: nat)
    requires 0 < m <= |c.slots|
    ensures Total(c.slots[..m], c.rates).calls == Total(c.slots[..m - 1], c.rates).calls + c.slots[m - 1].maxSteps
    ensures Total(c.slots[..m], c.rates).cost == Total(c.slots[..m - 1], c.rates).cost + ProfileCost(c.slots[m - 1], c.rates)
  {
    hide ProfileCost;
    assert c.slots[..m][..m - 1] == c.slots[..m - 1] && c.slots[..m][m - 1] == c.slots[m - 1];
  }

  lemma FullStep(c: Setting, m: nat)
    requires 0 < m <= |c.slots| && AllValid(c.slots)
    ensures c.slots[m - 1].Valid() && c.slots[m - 1].maxSteps >= 1
    ensures FullCalls(c, m) == FullCalls(c, m - 1) + CallsFor(m - 1, c.slots[m - 1].maxSteps, ProfileCost(c.slots[m - 1], c.rates))
  {
    hide CallsFor;
    hide ProfileCost;
    assert c.slots[m - 1].Valid();
  }

  lemma NoCallsYet(l: Limits, c: Setting, k: nat)
    ensures var es := FullCalls(c, 0);
      && AllFitting(l, c, es) && Runs(es) == 0 && Preflights(es) == 0 && SlotCalls(es, k) == 0 && SlotCost(es, k) == 0
      && Reserved(es) == Usage(0, Total(c.slots[..0], c.rates).calls, 0, Total(c.slots[..0], c.rates).cost)
  {
    assert c.slots[..0] == [];
  }

  lemma {:induction false} FullCounts(l: Limits, c: Setting, m: nat, k: nat)
    requires m <= |c.slots| && AllValid(c.slots)
    ensures var es := FullCalls(c, m);
      && AllFitting(l, c, es) && Runs(es) == 0 && Preflights(es) == 0
      && SlotCalls(es, k) == (if k < m then c.slots[k].maxSteps else 0)
      && SlotCost(es, k) == (if k < m then ProfileCost(c.slots[k], c.rates) else 0)
      && Reserved(es) == Usage(0, Total(c.slots[..m], c.rates).calls, 0, Total(c.slots[..m], c.rates).cost)
  {
    hide *;
    if m == 0 {
      NoCallsYet(l, c, k);
    } else {
      FullStep(c, m);
      var p := c.slots[m - 1];
      var cost := ProfileCost(p, c.rates);
      FullCounts(l, c, m - 1, k);
      var last := CallsFor(m - 1, p.maxSteps, cost);
      CallsForCount(m - 1, p.maxSteps, cost, k);
      CostInRange(p, c.rates);
      CallsForFit(l, c, m - 1, p.maxSteps, cost);
      CountsAppend(FullCalls(c, m - 1), last, k);
      FittingAppend(l, c, FullCalls(c, m - 1), last);
      TotalStep(c, m);
      PlusIs(Reserved(FullCalls(c, m - 1)), Reserved(last));
    }
  }

  lemma PlusIs(u: Usage, d: Usage)
    ensures Plus(u, d) == Usage(u.runs + d.runs, u.calls + d.calls, u.outputs + d.outputs, u.cost + d.cost)
  {
  }

  lemma PreflightCounts(f: Preflight, rates: Rates, k: nat)
    ensures var es := [PreflightCall(PreflightCost(f, rates))];
      && SlotCalls(es, k) == 0 && SlotCost(es, k) == 0 && Runs(es) == 0 && Preflights(es) == 1
      && Reserved(es) == Usage(0, 1, 0, PreflightCost(f, rates)) && PreflightCost(f, rates) >= 0
  {
    var es := [PreflightCall(PreflightCost(f, rates))];
    assert es[..0] == [];
  }

  /** The plan in full is a foreseen schedule, and it reserves exactly the planned bounds. */
  lemma FullPlanIsForeseen(l: Limits, c: Setting, plan: Plan)
    requires AllValid(c.slots) && PreflightCost(c.preflight, c.rates) <= MAX_INT64
    requires Planned(plan, c.slots, c.preflight, c.rates, c.review)
    ensures Schedule(l, c, FullPlan(c))
    ensures Reserved(FullPlan(c)) == Usage(0, plan.budget.calls, 0, plan.budget.cost)
  {
    var first, rest := [PreflightCall(PreflightCost(c.preflight, c.rates))], FullCalls(c, |c.slots|);
    assert c.slots[..|c.slots|] == c.slots;
    forall k: nat ensures
      && SlotCalls(FullPlan(c), k) == (if k < |c.slots| then c.slots[k].maxSteps else 0)
      && SlotCost(FullPlan(c), k) == (if k < |c.slots| then ProfileCost(c.slots[k], c.rates) else 0)
    {
      FullCounts(l, c, |c.slots|, k);
      PreflightCounts(c.preflight, c.rates, k);
      CountsAppend(first, rest, k);
      hide *;
    }
    FullCounts(l, c, |c.slots|, 0);
    PreflightCounts(c.preflight, c.rates, 0);
    CountsAppend(first, rest, 0);
    assert AllFitting(l, c, first);
    FittingAppend(l, c, first, rest);
    hide FullCalls;
    hide SlotCalls;
    hide SlotCost;
    hide Reserved;
    hide Runs;
    hide Preflights;
    hide Total;
    hide ProfileCost;
    hide TokenCost;
  }

  lemma BundleIsForeseen(l: Limits, c: Setting, es: seq<Event>)
    requires AllValid(c.slots) && l.outputs > 0 && es == [RunStart(c.review)]
    ensures Schedule(l, c, es) && Reserved(es) == Usage(1, 0, c.review, 0)
  {
    assert es[..0] == [];
    forall k: nat | k < |c.slots|
      ensures SlotCalls(es, k) <= c.slots[k].maxSteps && SlotCost(es, k) <= ProfileCost(c.slots[k], c.rates)
    {
      assert c.slots[k].Valid();
      CostInRange(c.slots[k], c.rates);
    }
  }

  /** Covering the plan is not only enough but needed: where the preflight's bound fits, the limits cover the
      plan if and only if no foreseen schedule is refused at any step. */
  lemma CoverageIsExact(l: Limits, c: Setting, plan: Plan)
    requires ValidLimits(l) && c.review >= 0 && AllValid(c.slots)
    requires Planned(plan, c.slots, c.preflight, c.rates, c.review) && PreflightCost(c.preflight, c.rates) <= MAX_INT64
    ensures Covers(l, plan) <==> forall es :: Schedule(l, c, es) ==> NeverRefused(l, es)
  {
    if Covers(l, plan) {
      CoverageIsEnough(l, c, plan);
    }
    if forall es :: Schedule(l, c, es) ==> NeverRefused(l, es) {
      FullPlanIsForeseen(l, c, plan);
      NeverRefusedFits(l, FullPlan(c));
      if l.outputs > 0 {
        BundleIsForeseen(l, c, [RunStart(c.review)]);
        NeverRefusedFits(l, [RunStart(c.review)]);
      }
      hide Schedule;
      hide NeverRefused;
      hide FullPlan;
      hide Reserved;
      hide Total;
    }
  }

  /** Carried to the two ledgers: asked for a foreseen schedule, with distinct IDs and inside the
      window, neither ever refuses. */
  lemma NeitherLedgerRefuses(
    g: Ledger, invocation: string, start: int, c: Setting, plan: Plan, es: seq<Event>, asks: seq<Ask>)
    requires g.Valid() && invocation != "" && g.auth.InWindowMs(start)
    requires Covers(g.auth.limits, plan) && c.review >= 0 && Planned(plan, c.slots, c.preflight, c.rates, c.review)
    requires PreflightCost(c.preflight, c.rates) <= MAX_INT64 && Schedule(g.auth.limits, c, es)
    requires Requests(asks) == RequestsOf(es)
    requires DistinctAsks(asks) && Timely(g, asks) && TimelyMs(g, asks) && WithinCap(g, asks)
    ensures forall i :: 0 <= i < |asks| ==> FileVerdict(g, invocation, asks, i) && RedisVerdict(g, invocation, start, asks, i)
  {
    var l := g.auth.limits;
    hide *;
    LimitsValid(g);
    ScheduleFits(l, c, plan, es);
    forall i: nat | i < |asks|
      ensures TypedRequest(asks[i].request) && Verdict(l, Requests(asks), i)
      ensures !Overflows(l, SpendAll(l, Requests(asks[..i])), asks[i].request)
    {
      SameRequest(l, c, asks, es, i);
      AllFit(l, c, es);
      EveryStepAccepted(l, c, es, i);
      CounterVerdict(l, asks, i);
      AcceptedFits(l, SpendAll(l, Requests(asks[..i])), asks[i].request);
    }
    AreTyped(asks);
    NothingOverflows(g, asks);
    BackendsAgree(g, invocation, start, asks);
  }

  lemma LimitsValid(g: Ledger)
    requires g.Valid()
    ensures ValidLimits(g.auth.limits)
  {
  }

  lemma AllFit(l: Limits, c: Setting, es: seq<Event>)
    requires Schedule(l, c, es)
    ensures forall i :: 0 <= i < |es| ==> EventFits(l, c, es[i])
  {
  }

  lemma SameRequest(l: Limits, c: Setting, asks: seq<Ask>, es: seq<Event>, i: nat)
    requires Requests(asks) == RequestsOf(es) && i < |asks| && Schedule(l, c, es) && c.review >= 0
    ensures |es| == |asks|
  {
  }

  lemma AcceptedFits(l: Limits, u: Usage, r: Request)
    requires ValidLimits(l) && Affordable(l, u, r) && Within(u, l)
    ensures TypedRequest(r) && !Overflows(l, u, r)
  {
  }

  lemma AreTyped(asks: seq<Ask>)
    requires forall i :: 0 <= i < |asks| ==> TypedRequest(asks[i].request)
    ensures Typed(asks)
  {
  }

  lemma NothingOverflows(g: Ledger, asks: seq<Ask>)
    requires g.Valid()
    requires forall i :: 0 <= i < |asks| ==>
      !Overflows(g.auth.limits, SpendAll(g.auth.limits, Requests(asks[..i])), asks[i].request)
    ensures NoOverflow(g, asks)
  {
  }
}
