/** The offline plan of a live evaluation: upper bounds added up with overflow checks, and the
    promise that limits which cover the plan never refuse a call that the plan foresaw. */
module Plan {
  import opened Base
  import opened Cost

  /** What a runtime profile allows one agent in one case. */
  datatype Profile = Profile(maxSteps: int, maxTotalTokens: int, maxCost: int)
  {
    predicate Valid() {
      1 <= maxSteps <= MAX_INT64 && 0 < maxTotalTokens <= MAX_INT64 && 0 <= maxCost <= MAX_INT64
    }
  }

  datatype Template = Template(single: Profile, researcher: Profile, drafter: Profile, reviewer: Profile)
  {
    predicate Valid() {
      single.Valid() && researcher.Valid() && drafter.Valid() && reviewer.Valid()
    }
  }

  function MaxRate(rates: Rates): int {
    if rates.output > rates.input then rates.output else rates.input
  }

  /** A profile's cost bound: its own, or its token bound at the dearer rate. */
  function ProfileCost(p: Profile, rates: Rates): int {
    if p.maxCost > 0 then p.maxCost else TokenCost(p.maxTotalTokens, MaxRate(rates))
  }

  // ---- Sums over profile slots ----

  /** The bounds a plan adds up: fewest and most provider calls, most tokens, most cost. */
  datatype Sums = Sums(minimum: int, calls: int, tokens: int, cost: int)

  const NOTHING := Sums(0, 0, 0, 0)

  function Add(a: Sums, b: Sums): Sums {
    Sums(a.minimum + b.minimum, a.calls + b.calls, a.tokens + b.tokens, a.cost + b.cost)
  }

  predicate Fits(s: Sums) {
    s.minimum <= MAX_INT64 && s.calls <= MAX_INT64 && s.tokens <= MAX_INT64 && s.cost <= MAX_INT64
  }

  predicate AtLeast(a: Sums, b: Sums) {
    a.minimum >= b.minimum && a.calls >= b.calls && a.tokens >= b.tokens && a.cost >= b.cost
  }

  function SlotSums(p: Profile, rates: Rates): Sums {
    Sums(0, p.maxSteps, p.maxTotalTokens, ProfileCost(p, rates))
  }

  /** A minimum on its own. */
  function Fewest(n: int): Sums {
    Sums(n, 0, 0, 0)
  }

  /** The true sum over a list of slots, in unbounded arithmetic. */
  function Total(slots: seq<Profile>, rates: Rates): Sums {
    if slots == [] then NOTHING else Add(Total(slots[..|slots| - 1], rates), SlotSums(slots[|slots| - 1], rates))
  }

  ghost predicate AllValid(slots: seq<Profile>) {
    forall i :: 0 <= i < |slots| ==> slots[i].Valid()
  }

  lemma {:induction false} TotalAppend(a: seq<Profile>, b: seq<Profile>, rates: Rates)
    ensures Total(a + b, rates) == Add(Total(a, rates), Total(b, rates))
  {
    hide SlotSums;
    if b == [] {
      assert a + b == a;
    } else {
      assert (a + b)[..|a + b| - 1] == a + b[..|b| - 1];
      TotalAppend(a, b[..|b| - 1], rates);
    }
  }

  lemma {:induction false} TotalGrows(slots: seq<Profile>, rates: Rates)
    requires AllValid(slots)
    ensures AtLeast(Total(slots, rates), NOTHING)
  {
    if slots != [] {
      TotalGrows(slots[..|slots| - 1], rates);
    }
  }

  // ---- Checked addition ----

  function CheckedAdd(target: int, delta: int): (r: Option<int>)
    requires IsInt64(target) && IsInt64(delta)
    ensures r.Some? <==> delta >= 0 && target + delta <= MAX_INT64
    ensures r.Some? ==> r.value == target + delta
  {
    if delta < 0 || target > MAX_INT64 - delta then None else Some(target + delta)
  }

  predicate Machine(s: Sums) {
    IsInt64(s.minimum) && IsInt64(s.calls) && IsInt64(s.tokens) && IsInt64(s.cost)
  }

  /** Four checked additions in a row; fails exactly when an amount is negative or one of the true
      sums is out of range. */
  method AddSums(side: Sums, more: Sums) returns (r: Option<Sums>)
    requires Machine(side) && Machine(more)
    ensures r.Some? <==> AtLeast(more, NOTHING) && Fits(Add(side, more))
    ensures r.Some? ==> r.value == Add(side, more) && Machine(r.value)
  {
    var minimum := CheckedAdd(side.minimum, more.minimum);
    if minimum.None? {
      return None;
    }
    var calls := CheckedAdd(side.calls, more.calls);
    if calls.None? {
      return None;
    }
    var tokens := CheckedAdd(side.tokens, more.tokens);
    if tokens.None? {
      return None;
    }
    var cost := CheckedAdd(side.cost, more.cost);
    if cost.None? {
      return None;
    }
    return Some(Sums(minimum.value, calls.value, tokens.value, cost.value));
  }

  /** Adds a list of profiles to a side, one by one. */
  method AddProfiles(side: Sums, profiles: seq<Profile>, rates: Rates) returns (r: Option<Sums>)
    requires Machine(side) && AtLeast(side, NOTHING) && AllValid(profiles)
    ensures r.Some? <==> Fits(Add(side, Total(profiles, rates)))
    ensures r.Some? ==> r.value == Add(side, Total(profiles, rates)) && Machine(r.value)
  {
    var sums := side;
    for i := 0 to |profiles|
      invariant Machine(sums) && sums == Add(side, Total(profiles[..i], rates))
    {
      assert profiles[..i + 1][..i] == profiles[..i];
      var next := AddSums(sums, SlotSums(profiles[i], rates));
      if next.None? {
        PrefixSmaller(profiles, i + 1, rates);
        return None;
      }
      sums := next.value;
    }
    assert profiles[..|profiles|] == profiles;
    return Some(sums);
  }

  lemma PrefixSmaller(slots: seq<Profile>, k: nat, rates: Rates)
    requires AllValid(slots) && k <= |slots|
    ensures AtLeast(Total(slots, rates), Total(slots[..k], rates))
  {
    assert slots == slots[..k] + slots[k..];
    TotalAppend(slots[..k], slots[k..], rates);
    TotalGrows(slots[k..], rates);
  }

  // ---- Cases ----

  datatype Outcome = BudgetExceeded | Completed | OtherOutcome

  /** An evaluation case, as far as the plan reads it. */
  datatype Sample = Sample(template: string, outcome: Outcome, expectedTools: nat)

  /** The fewest calls a single agent needs for a case. */
  function MinimumCalls(s: Sample): nat {
    if s.outcome == BudgetExceeded then 0 else if s.expectedTools > 0 && s.outcome == Completed then 2 else 1
  }

  function MinimumTotal(dataset: seq<Sample>): nat {
    if dataset == [] then 0 else MinimumTotal(dataset[..|dataset| - 1]) + MinimumCalls(dataset[|dataset| - 1])
  }

  function RuntimeSlots(cases: nat, profile: Profile): seq<Profile> {
    if cases == 0 then [] else RuntimeSlots(cases - 1, profile) + [profile]
  }

  /** The configured templates, the supported template IDs with whether each requires a tool, and
      the trimming applied to a case's template ID before it is looked up among the former only. */
  datatype Strategy = Strategy(templates: map<string, Template>, specs: map<string, bool>, trim: string -> string)
  {
    predicate Knows(s: Sample) { trim(s.template) in templates && s.template in specs }

    function Of(s: Sample): Template
      requires Knows(s)
    {
      templates[trim(s.template)]
    }

    /** The fewest calls the three roles need. */
    function RoleCalls(s: Sample): nat
      requires Knows(s)
    {
      if specs[s.template] then 4 else 3
    }

    ghost predicate Valid() { forall t :: t in templates ==> templates[t].Valid() }
  }

  ghost predicate Known(dataset: seq<Sample>, c: Strategy) {
    forall i :: 0 <= i < |dataset| ==> c.Knows(dataset[i])
  }

  function CandidateSlots(dataset: seq<Sample>, c: Strategy): seq<Profile>
    requires Known(dataset, c)
  {
    if dataset == [] then []
    else
      var t := c.Of(dataset[|dataset| - 1]);
      CandidateSlots(dataset[..|dataset| - 1], c) + [t.researcher, t.drafter, t.reviewer]
  }

  function StableSlots(dataset: seq<Sample>, c: Strategy): seq<Profile>
    requires Known(dataset, c)
  {
    if dataset == [] then []
    else StableSlots(dataset[..|dataset| - 1], c) + [c.Of(dataset[|dataset| - 1]).single]
  }

  function RoleTotal(dataset: seq<Sample>, c: Strategy): nat
    requires Known(dataset, c)
  {
    if dataset == [] then 0 else RoleTotal(dataset[..|dataset| - 1], c) + c.RoleCalls(dataset[|dataset| - 1])
  }

  function CandidateSide(dataset: seq<Sample>, c: Strategy, rates: Rates): Sums
    requires Known(dataset, c)
  {
    Add(Fewest(RoleTotal(dataset, c)), Total(CandidateSlots(dataset, c), rates))
  }

  function StableSide(dataset: seq<Sample>, c: Strategy, rates: Rates): Sums
    requires Known(dataset, c)
  {
    Add(Fewest(MinimumTotal(dataset)), Total(StableSlots(dataset, c), rates))
  }

  // ---- Finalizing ----

  /** The preflight call: its input and output token bounds. */
  datatype Preflight = Preflight(inputTokens: int, outputTokens: int)

  /** The preflight's cost bound in unbounded arithmetic. */
  function PreflightCost(f: Preflight, rates: Rates): int {
    TokenCost(f.inputTokens, rates.input) + TokenCost(f.outputTokens, rates.output)
  }

  /** What finalizing starts from: the preflight alone, in machine arithmetic, unguarded. */
  function PreflightSums(f: Preflight, rates: Rates): (s: Sums)
    ensures Machine(s)
  {
    Sums(1, 1, Wrap64(f.inputTokens + f.outputTokens), Wrap64(PreflightCost(f, rates)))
  }

  /** A plan: the budget bounds and the size of a full review bundle. */
  datatype Plan = Plan(budget: Sums, reviewOutputs: int)

  ghost predicate Positive(sides: seq<Sums>) {
    forall i :: 0 <= i < |sides| ==> AtLeast(sides[i], NOTHING)
  }

  /** Adds the sides to the preflight. */
  method Finalize(sides: seq<Sums>, f: Preflight, rates: Rates) returns (r: Option<Sums>)
    requires forall i :: 0 <= i < |sides| ==> Machine(sides[i])
    ensures r.Some? <==> Positive(sides) && Fits(Add(PreflightSums(f, rates), SideTotal(sides)))
    ensures r.Some? ==> r.value == Add(PreflightSums(f, rates), SideTotal(sides))
  {
    hide PreflightSums;
    var budget := PreflightSums(f, rates);
    for i := 0 to |sides|
      invariant Machine(budget) && budget == Add(PreflightSums(f, rates), SideTotal(sides[..i]))
      invariant forall j :: 0 <= j < i ==> AtLeast(sides[j], NOTHING)
    {
      assert sides[..i + 1][..i] == sides[..i];
      var next := AddSums(budget, sides[i]);
      if next.None? {
        if Positive(sides) {
          SidesGrow(sides, i + 1);
        }
        return None;
      }
      budget := next.value;
    }
    assert sides[..|sides|] == sides;
    return Some(budget);
  }

  function SideTotal(sides: seq<Sums>): Sums {
    if sides == [] then NOTHING else Add(SideTotal(sides[..|sides| - 1]), sides[|sides| - 1])
  }

  lemma {:induction false} SidesGrow(sides: seq<Sums>, k: nat)
    requires k <= |sides| && Positive(sides)
    ensures AtLeast(SideTotal(sides), SideTotal(sides[..k]))
  {
    if k < |sides| {
      var prior := sides[..|sides| - 1];
      SidesGrow(prior, k);
      assert prior[..k] == sides[..k];
    } else {
      assert sides[..k] == sides;
    }
  }

  /** The plan's upper bounds are the preflight's plus the true sum over all slots. */
  ghost predicate Planned(plan: Plan, slots: seq<Profile>, f: Preflight, rates: Rates, review: int) {
    var sum := Add(PreflightSums(f, rates), Total(slots, rates));
    && plan.budget.calls == sum.calls && plan.budget.tokens == sum.tokens && plan.budget.cost == sum.cost
    && plan.reviewOutputs == review
  }

  lemma OneSide(a: Sums)
    ensures SideTotal([a]) == a && (Positive([a]) <==> AtLeast(a, NOTHING))
  {
    assert [a][..0] == [];
    assert [a][0] == a;
  }

  lemma TwoSides(a: Sums, b: Sums)
    ensures SideTotal([a, b]) == Add(a, b) && (Positive([a, b]) <==> AtLeast(a, NOTHING) && AtLeast(b, NOTHING))
  {
    assert [a, b][..1] == [a];
    assert [a, b][0] == a && [a, b][1] == b;
    OneSide(a);
  }

  // ---- The two builders ----

  lemma TotalNothing(rates: Rates)
    ensures Total([], rates) == NOTHING
  {
  }

  lemma {:induction false} NoMinimum(slots: seq<Profile>, rates: Rates)
    ensures Total(slots, rates).minimum == 0
  {
    if slots != [] {
      NoMinimum(slots[..|slots| - 1], rates);
    }
  }

  lemma RuntimeStep(i: nat, profile: Profile, rates: Rates)
    requires profile.Valid()
    ensures Total(RuntimeSlots(i + 1, profile), rates) == Add(Total(RuntimeSlots(i, profile), rates), Total([profile], rates))
    ensures AtLeast(Total([profile], rates), NOTHING) && AllValid([profile])
  {
    hide Total;
    TotalAppend(RuntimeSlots(i, profile), [profile], rates);
    TotalGrows([profile], rates);
  }

  lemma {:induction false} RuntimeGrows(i: nat, cases: nat, profile: Profile, rates: Rates)
    requires i <= cases && profile.Valid()
    ensures AtLeast(Total(RuntimeSlots(cases, profile), rates), Total(RuntimeSlots(i, profile), rates))
  {
    hide Total;
    if i < cases {
      RuntimeGrows(i, cases - 1, profile, rates);
      RuntimeStep(cases - 1, profile, rates);
    }
  }

  /** The side of a single-runtime plan; its minimum is added up without a guard. */
  function RuntimeSide(dataset: seq<Sample>, profile: Profile, rates: Rates): Sums {
    Total(RuntimeSlots(|dataset|, profile), rates).(minimum := Wrap64(MinimumTotal(dataset)))
  }

  /** The single-runtime plan: one side, the same profile for every case. It fails exactly when a
      bound does not fit, and its bounds are the exact sums. */
  method BuildRuntimePlan(dataset: seq<Sample>, profile: Profile, rates: Rates, f: Preflight) returns (r: Option<Plan>)
    requires profile.Valid()
    ensures r.Some? ==>
      && Planned(r.value, RuntimeSlots(|dataset|, profile), f, rates, 0)
      && r.value.budget.minimum == 1 + MinimumTotal(dataset) % TWO_64
    ensures r.Some? <==>
      && Fits(Total(RuntimeSlots(|dataset|, profile), rates)) && Wrap64(MinimumTotal(dataset)) >= 0
      && Fits(Add(PreflightSums(f, rates), RuntimeSide(dataset, profile, rates)))
  {
    hide PreflightSums;
    hide Total;
    var side := NOTHING;
    TotalNothing(rates);
    for i := 0 to |dataset|
      invariant Machine(side) && side.calls >= 0 && side.tokens >= 0 && side.cost >= 0
      invariant side.(minimum := 0) == Total(RuntimeSlots(i, profile), rates)
      invariant side.minimum == Wrap64(MinimumTotal(dataset[..i]))
    {
      assert dataset[..i + 1][..i] == dataset[..i];
      WrapAdd(MinimumTotal(dataset[..i]), MinimumCalls(dataset[i]));
      RuntimeStep(i, profile, rates);
      NoMinimum([profile], rates);
      NoMinimum(RuntimeSlots(i + 1, profile), rates);
      var minimum := Wrap64(side.minimum + MinimumCalls(dataset[i]));
      var next := AddProfiles(side.(minimum := 0), [profile], rates);
      if next.None? {
        RuntimeGrows(i + 1, |dataset|, profile, rates);
        return None;
      }
      side := next.value.(minimum := minimum);
    }
    assert dataset[..|dataset|] == dataset;
    NoMinimum(RuntimeSlots(|dataset|, profile), rates);
    OneSide(side);
    var budget := Finalize([side], f, rates);
    if budget.None? {
      return None;
    }
    PreflightCalls(f, rates);
    return Some(Plan(budget.value, 0));
  }

  lemma PreflightCalls(f: Preflight, rates: Rates)
    ensures PreflightSums(f, rates).minimum == 1 && PreflightSums(f, rates).calls == 1
  {
  }

  /** One more case adds its three roles to the candidate side and its single agent to the stable. */
  lemma CaseAdds(dataset: seq<Sample>, c: Strategy, rates: Rates)
    requires Known(dataset, c) && dataset != [] && c.Valid()
    ensures var prior, s := dataset[..|dataset| - 1], dataset[|dataset| - 1];
      var t := c.Of(s);
      && AllValid([t.researcher, t.drafter, t.reviewer]) && AllValid([t.single])
      && AtLeast(Total([t.researcher, t.drafter, t.reviewer], rates), NOTHING) && AtLeast(Total([t.single], rates), NOTHING)
      && CandidateSide(dataset, c, rates) ==
         Add(Add(CandidateSide(prior, c, rates), Fewest(c.RoleCalls(s))), Total([t.researcher, t.drafter, t.reviewer], rates))
      && StableSide(dataset, c, rates) ==
         Add(Add(StableSide(prior, c, rates), Fewest(MinimumCalls(s))), Total([t.single], rates))
  {
    hide Total;
    var prior, s := dataset[..|dataset| - 1], dataset[|dataset| - 1];
    var t := c.Of(s);
    TotalAppend(CandidateSlots(prior, c), [t.researcher, t.drafter, t.reviewer], rates);
    TotalAppend(StableSlots(prior, c), [t.single], rates);
    TotalGrows([t.researcher, t.drafter, t.reviewer], rates);
    TotalGrows([t.single], rates);
  }

  lemma KnownPrefix(dataset: seq<Sample>, c: Strategy, i: nat)
    requires Known(dataset, c) && i <= |dataset|
    ensures Known(dataset[..i], c)
  {
  }

  lemma {:induction false} StrategyGrows(dataset: seq<Sample>, c: Strategy, i: nat, rates: Rates)
    requires Known(dataset, c) && c.Valid() && i <= |dataset|
    ensures Known(dataset[..i], c)
    ensures AtLeast(CandidateSide(dataset, c, rates), CandidateSide(dataset[..i], c, rates))
    ensures AtLeast(StableSide(dataset, c, rates), StableSide(dataset[..i], c, rates))
  {
    hide CandidateSide;
    hide StableSide;
    hide Total;
    KnownPrefix(dataset, c, i);
    if i < |dataset| {
      var prior := dataset[..|dataset| - 1];
      KnownPrefix(dataset, c, |dataset| - 1);
      StrategyGrows(prior, c, i, rates);
      assert prior[..i] == dataset[..i];
      CaseAdds(dataset, c, rates);
    } else {
      assert dataset[..i] == dataset;
    }
  }

  lemma NoCases(c: Strategy, rates: Rates)
    ensures Known([], c) && CandidateSide([], c, rates) == NOTHING && StableSide([], c, rates) == NOTHING
  {
    hide Total;
    TotalNothing(rates);
    var none: seq<Sample> := [];
    assert CandidateSlots(none, c) == [] && StableSlots(none, c) == [];
    assert RoleTotal(none, c) == 0 && MinimumTotal(none) == 0;
  }

  /** One case on one side: its fewest calls, then its profiles. */
  method AddCase(side: Sums, fewest: nat, profiles: seq<Profile>, rates: Rates) returns (r: Option<Sums>)
    requires Machine(side) && AtLeast(side, NOTHING) && AllValid(profiles) && fewest <= 4
    ensures r.Some? <==> Fits(Add(Add(side, Fewest(fewest)), Total(profiles, rates)))
    ensures r.Some? ==> r.value == Add(Add(side, Fewest(fewest)), Total(profiles, rates)) && Machine(r.value)
  {
    hide Total;
    TotalGrows(profiles, rates);
    var started := AddSums(side, Fewest(fewest));
    if started.None? {
      return None;
    }
    r := AddProfiles(started.value, profiles, rates);
  }

  /** The strategy comparison's plan: three roles on the candidate side and one agent on the stable
      side for every case, by the case's template. It fails exactly for a case without a configured
      and supported template, or when a bound does not fit. */
  method BuildStrategyPlan(dataset: seq<Sample>, c: Strategy, rates: Rates, f: Preflight)
    returns (r: Option<Plan>)
    requires c.Valid()
    ensures r.Some? ==>
      && Known(dataset, c)
      && Planned(r.value, CandidateSlots(dataset, c) + StableSlots(dataset, c), f, rates, Wrap64(|dataset| * 2))
      && r.value.budget.minimum == 1 + RoleTotal(dataset, c) + MinimumTotal(dataset)
    ensures r.Some? <==>
      && Known(dataset, c)
      && Fits(CandidateSide(dataset, c, rates)) && Fits(StableSide(dataset, c, rates))
      && Fits(Add(PreflightSums(f, rates), Add(CandidateSide(dataset, c, rates), StableSide(dataset, c, rates))))
  {
    hide PreflightSums;
    hide Total;
    hide CandidateSide;
    hide StableSide;
    var candidate, stable := NOTHING, NOTHING;
    NoCases(c, rates);
    for i := 0 to |dataset|
      invariant Known(dataset[..i], c)
      invariant Machine(candidate) && AtLeast(candidate, NOTHING) && Machine(stable) && AtLeast(stable, NOTHING)
      invariant candidate == CandidateSide(dataset[..i], c, rates) && stable == StableSide(dataset[..i], c, rates)
    {
      var s := dataset[i];
      if !c.Knows(s) {
        return None;
      }
      ghost var seen := dataset[..i + 1];
      assert seen[..|seen| - 1] == dataset[..i] && seen[|seen| - 1] == s;
      CaseAdds(seen, c, rates);
      var t := c.Of(s);
      var candidate' := AddCase(candidate, c.RoleCalls(s), [t.researcher, t.drafter, t.reviewer], rates);
      var stable' := AddCase(stable, MinimumCalls(s), [t.single], rates);
      if candidate'.None? || stable'.None? {
        if Known(dataset, c) {
          StrategyGrows(dataset, c, i + 1, rates);
        }
        return None;
      }
      candidate, stable := candidate'.value, stable'.value;
    }
    assert dataset[..|dataset|] == dataset;
    TwoSides(candidate, stable);
    var budget := Finalize([candidate, stable], f, rates);
    if budget.None? {
      return None;
    }
    StrategyPlanned(dataset, c, rates, f);
    return Some(Plan(budget.value, Wrap64(|dataset| * 2)));
  }

  lemma StrategyPlanned(dataset: seq<Sample>, c: Strategy, rates: Rates, f: Preflight)
    requires Known(dataset, c)
    ensures var sum := Add(PreflightSums(f, rates), Add(CandidateSide(dataset, c, rates), StableSide(dataset, c, rates)));
      && Planned(Plan(sum, 0), CandidateSlots(dataset, c) + StableSlots(dataset, c), f, rates, 0)
      && sum.minimum == 1 + RoleTotal(dataset, c) + MinimumTotal(dataset)
  {
    hide Total;
    TotalAppend(CandidateSlots(dataset, c), StableSlots(dataset, c), rates);
    NoMinimum(CandidateSlots(dataset, c), rates);
    NoMinimum(StableSlots(dataset, c), rates);
    PreflightCalls(f, rates);
  }

  // ---- What the bounds are made of ----

  /** A profile is planned at its own cost bound; without one, at its token bound priced at the dearer of
      the two rates: no less than at either, and exactly at one of them. */
  lemma ProfileCostMeans(p: Profile, rates: Rates)
    requires p.Valid()
    ensures p.maxCost > 0 ==> ProfileCost(p, rates) == p.maxCost
    ensures p.maxCost == 0 ==>
      && ProfileCost(p, rates) >= TokenCost(p.maxTotalTokens, rates.input)
      && ProfileCost(p, rates) >= TokenCost(p.maxTotalTokens, rates.output)
      && (ProfileCost(p, rates) == TokenCost(p.maxTotalTokens, rates.input)
          || ProfileCost(p, rates) == TokenCost(p.maxTotalTokens, rates.output))
  {
    CostMonotone(p.maxTotalTokens, rates.input, p.maxTotalTokens, MaxRate(rates));
    CostMonotone(p.maxTotalTokens, rates.output, p.maxTotalTokens, MaxRate(rates));
    hide TokenCost;
  }

  /** However a profile's tokens are split into input and output of one call, the call costs at most one
      micro more than planned. */
  lemma TokenSplitFits(p: Profile, rates: Rates, input: nat, output: nat)
    requires p.Valid() && p.maxCost == 0 && rates.input >= 0 && rates.output >= 0 && input + output <= p.maxTotalTokens
    requires p.maxTotalTokens * rates.input <= MAX_INT64 - 999_999 && p.maxTotalTokens * rates.output <= MAX_INT64 - 999_999
    ensures TokenCost(input, rates.input) + TokenCost(output, rates.output) <= ProfileCost(p, rates) + 1
  {
    var rate := if rates.output > rates.input then rates.output else rates.input;
    ProductMonotone(input, rates.input, p.maxTotalTokens, rates.input);
    ProductMonotone(output, rates.output, p.maxTotalTokens, rates.output);
    ProductMonotone(input, rates.input, input, rate);
    ProductMonotone(output, rates.output, output, rate);
    ProductMonotone(input + output, rate, p.maxTotalTokens, rate);
    assert (input + output) * rate == input * rate + output * rate;
    CostIsCeiling(input, rates.input);
    CostIsCeiling(output, rates.output);
    CostIsCeiling(p.maxTotalTokens, rate);
    ProfileCostMeans(p, rates);
    hide TokenCost;
    hide ProfileCost;
  }

  function SumOf(xs: seq<int>): int {
    if xs == [] then 0 else SumOf(xs[..|xs| - 1]) + xs[|xs| - 1]
  }

  /** The total over a list of slots is, bound by bound, the sum of what the profiles say. */
  lemma {:induction false} TotalIsSums(slots: seq<Profile>, rates: Rates)
    ensures Total(slots, rates).minimum == 0
    ensures Total(slots, rates).calls == SumOf(seq(|slots|, i requires 0 <= i < |slots| => slots[i].maxSteps))
    ensures Total(slots, rates).tokens == SumOf(seq(|slots|, i requires 0 <= i < |slots| => slots[i].maxTotalTokens))
    ensures Total(slots, rates).cost == SumOf(seq(|slots|, i requires 0 <= i < |slots| => ProfileCost(slots[i], rates)))
  {
    hide ProfileCost;
    if slots != [] {
      var prior := slots[..|slots| - 1];
      TotalIsSums(prior, rates);
      assert seq(|slots|, i requires 0 <= i < |slots| => slots[i].maxSteps)[..|prior|] ==
             seq(|prior|, i requires 0 <= i < |prior| => prior[i].maxSteps);
      assert seq(|slots|, i requires 0 <= i < |slots| => slots[i].maxTotalTokens)[..|prior|] ==
             seq(|prior|, i requires 0 <= i < |prior| => prior[i].maxTotalTokens);
      assert seq(|slots|, i requires 0 <= i < |slots| => ProfileCost(slots[i], rates))[..|prior|] ==
             seq(|prior|, i requires 0 <= i < |prior| => ProfileCost(prior[i], rates));
    }
  }

  /** A single-runtime plan has one slot for each case, all with the same profile. */
  lemma {:induction false} RuntimeSlotsAre(cases: nat, profile: Profile)
    ensures |RuntimeSlots(cases, profile)| == cases
    ensures forall i :: 0 <= i < cases ==> RuntimeSlots(cases, profile)[i] == profile
  {
    if cases > 0 {
      RuntimeSlotsAre(cases - 1, profile);
    }
  }

  /** A comparison has, for each case in order, its template's researcher, drafter and reviewer on the
      candidate side, and its template's single agent on the stable side. */
  lemma {:induction false} StrategySlotsAre(dataset: seq<Sample>, c: Strategy)
    requires Known(dataset, c)
    ensures |CandidateSlots(dataset, c)| == 3 * |dataset| && |StableSlots(dataset, c)| == |dataset|
    ensures forall i :: 0 <= i < |dataset| ==>
      && c.trim(dataset[i].template) in c.templates
      && var t := c.templates[c.trim(dataset[i].template)];
         && CandidateSlots(dataset, c)[3 * i] == t.researcher && CandidateSlots(dataset, c)[3 * i + 1] == t.drafter
         && CandidateSlots(dataset, c)[3 * i + 2] == t.reviewer && StableSlots(dataset, c)[i] == t.single
  {
    if dataset != [] {
      var prior := dataset[..|dataset| - 1];
      StrategySlotsAre(prior, c);
      forall i | 0 <= i < |prior| ensures dataset[i] == prior[i] {
      }
    }
  }

  /** The fewest calls of a case: none if it is to exceed its budget, two if it is to complete with tools,
      otherwise one; and for the three roles three, or four if a tool is required. */
  lemma MinimumMeans(s: Sample, c: Strategy)
    ensures MinimumCalls(s) == 0 <==> s.outcome == BudgetExceeded
    ensures MinimumCalls(s) == 2 <==> s.outcome == Completed && s.expectedTools > 0
    ensures MinimumCalls(s) <= 2
    ensures c.Knows(s) ==> (c.RoleCalls(s) == 4 <==> c.specs[s.template]) && 3 <= c.RoleCalls(s) <= 4
  {
  }

  lemma {:induction false} MinimumTotalIsSum(dataset: seq<Sample>)
    ensures MinimumTotal(dataset) == SumOf(seq(|dataset|, i requires 0 <= i < |dataset| => MinimumCalls(dataset[i])))
  {
    if dataset != [] {
      var prior := dataset[..|dataset| - 1];
      MinimumTotalIsSum(prior);
      assert seq(|dataset|, i requires 0 <= i < |dataset| => MinimumCalls(dataset[i]))[..|prior|] ==
             seq(|prior|, i requires 0 <= i < |prior| => MinimumCalls(prior[i]));
    }
  }
}
