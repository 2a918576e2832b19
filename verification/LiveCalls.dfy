/** What the live client reserves for a case's provider calls, against what the runner admits: the
    reservation prices a byte bound and the full output allowance, the runner counts estimated and
    then actual tokens of a transcript that grows with every turn. How far the two can drift apart
    decides whether a plan's bound holds. */
module LiveCalls {
  import opened Base
  import opened Cost
  import opened Plan
  import opened PlanCoverage
  import opened LiveRequests

  const MAX_ALLOWED_STEPS := 64

  /** A profile with its per-call token limits. */
  datatype Budget = Budget(profile: Profile, maxInput: int, maxOutput: int)
  {
    predicate Valid() {
      && profile.Valid() && profile.maxSteps <= MAX_ALLOWED_STEPS
      && 0 < maxInput && 0 < maxOutput <= profile.maxTotalTokens
    }
  }

  /** A case: the messages it starts with, the tools it offers, and the exchanges they support. */
  datatype Case = Case(start: seq<Part>, tools: seq<Part>, exchanges: seq<Exchange>)
  {
    ghost predicate Valid() {
      && ValidParts(start) && ValidParts(tools) && ValidExchanges(exchanges)
      && (exchanges != [] ==> tools != [])
    }
  }

  // ---- Requests along a run ----

  ghost predicate ValidTurns(c: Case, turns: seq<Turn>) {
    forall i :: 0 <= i < |turns| ==> ValidTurn(c.exchanges, turns[i]) && Answerable(c.exchanges, turns[i].uses)
  }

  /** The transcript after some turns. */
  ghost function Transcript(c: Case, turns: seq<Turn>): seq<Part>
    requires ValidTurns(c, turns)
  {
    if turns == [] then c.start
    else Transcript(c, turns[..|turns| - 1]) + TurnParts(c.exchanges, turns[|turns| - 1])
  }

  /** What follows the transcript in the request of step i + 1: the tools, or on the last step the
      instruction to finish. */
  function Tail(b: Budget, c: Case, i: nat): seq<Part> {
    if i + 1 == b.profile.maxSteps && c.tools != [] then [FINAL] else c.tools
  }

  ghost function RequestAfter(b: Budget, c: Case, turns: seq<Turn>): seq<Part>
    requires ValidTurns(c, turns)
  {
    Transcript(c, turns) + Tail(b, c, |turns|)
  }

  /** The tokens and bytes the turns have added. */
  ghost function Grown(c: Case, turns: seq<Turn>): nat
    requires ValidTurns(c, turns)
  {
    if turns == [] then 0 else Grown(c, turns[..|turns| - 1]) + Count(TurnParts(c.exchanges, turns[|turns| - 1]))
  }

  ghost function GrownBytes(c: Case, turns: seq<Turn>): nat
    requires ValidTurns(c, turns)
  {
    if turns == [] then 0 else GrownBytes(c, turns[..|turns| - 1]) + Bytes(TurnParts(c.exchanges, turns[|turns| - 1]))
  }

  /** The estimate of the i-th request when the turns have added x tokens. */
  function Size(b: Budget, c: Case, i: nat, x: int): int {
    Count(c.start) + x + Count(Tail(b, c, i))
  }

  function SizeBytes(b: Budget, c: Case, i: nat, y: int): int {
    Bytes(c.start) + y + Bytes(Tail(b, c, i))
  }

  lemma {:induction false} TranscriptSize(c: Case, turns: seq<Turn>)
    requires ValidTurns(c, turns)
    ensures Count(Transcript(c, turns)) == Count(c.start) + Grown(c, turns)
    ensures Bytes(Transcript(c, turns)) == Bytes(c.start) + GrownBytes(c, turns)
  {
    hide Count;
    hide Bytes;
    hide TurnParts;
    hide ValidTurn;
    if turns != [] {
      var prior := turns[..|turns| - 1];
      TranscriptSize(c, prior);
      PartsAppend(Transcript(c, prior), TurnParts(c.exchanges, turns[|turns| - 1]));
    }
  }

  lemma RequestSize(b: Budget, c: Case, turns: seq<Turn>)
    requires ValidTurns(c, turns)
    ensures var r, n := RequestAfter(b, c, turns), |turns|;
      Count(r) == Size(b, c, n, Grown(c, turns)) && Bytes(r) == SizeBytes(b, c, n, GrownBytes(c, turns))
  {
    hide Count;
    hide Bytes;
    hide Tail;
    TranscriptSize(c, turns);
    PartsAppend(Transcript(c, turns), Tail(b, c, |turns|));
  }

  /** The exchange each turn's first use gets. */
  function Chosen(turns: seq<Turn>): (us: seq<nat>)
    ensures |us| == |turns|
  {
    seq(|turns|, i requires 0 <= i < |turns| => if turns[i].uses == [] then 0 else turns[i].uses[0].exchange)
  }

  ghost predicate ChoicesOk(c: Case, us: seq<nat>) {
    forall i :: 0 <= i < |us| ==> us[i] < |c.exchanges|
  }

  ghost function Lost(c: Case, us: seq<nat>): int
    requires ChoicesOk(c, us)
  {
    if us == [] then 0 else Lost(c, us[..|us| - 1]) + TurnLoss(c.exchanges[us[|us| - 1]])
  }

  /** The most bytes that turns with given choices can make of x tokens. */
  ghost function MostBytes(c: Case, us: seq<nat>, x: int): int
    requires ChoicesOk(c, us)
  {
    4 * (x - 12 * |us|) - Lost(c, us)
  }

  lemma {:induction false} GrownBound(c: Case, turns: seq<Turn>)
    requires c.Valid() && ValidTurns(c, turns)
    ensures ChoicesOk(c, Chosen(turns)) && GrownBytes(c, turns) <= MostBytes(c, Chosen(turns), Grown(c, turns))
  {
    hide TurnParts;
    hide Growth;
    hide TurnLoss;
    hide Count;
    hide Bytes;
    if turns != [] {
      var prior, t := turns[..|turns| - 1], turns[|turns| - 1];
      GrownBound(c, prior);
      assert ValidTurn(c.exchanges, t);
      TurnBound(c.exchanges, t);
      hide ValidTurn;
      assert Chosen(turns)[..|prior|] == Chosen(prior);
    }
  }

  // ---- The runner and the client ----

  /** The true price of a call, and the estimate the machine computes for it. */
  function Price(b: Budget, rates: Rates, input: int): (p: int)
    ensures 0 <= p <= 2 * MAX_INT64
  {
    TokenCost(input, rates.input) + TokenCost(b.maxOutput, rates.output)
  }

  function Estimate(b: Budget, rates: Rates, input: int): int {
    Wrap64(Price(b, rates, input))
  }

  /** The runner's admission, on top of what earlier calls actually used; all its sums are unguarded. */
  predicate RunnerAdmits(b: Budget, rates: Rates, usedTokens: int, usedCost: int, size: int) {
    && size <= b.maxInput
    && Wrap64(Wrap64(usedTokens + size) + b.maxOutput) <= b.profile.maxTotalTokens
    && (b.profile.maxCost > 0 ==> Wrap64(usedCost + Estimate(b, rates, size)) <= b.profile.maxCost)
  }

  /** What the runner lets a completed run have used before it goes on. */
  predicate Kept(b: Budget, usedTokens: int, usedCost: int) {
    && 0 <= usedTokens <= b.profile.maxTotalTokens
    && 0 <= usedCost && (b.profile.maxCost > 0 ==> usedCost <= b.profile.maxCost)
  }

  /** The client goes to the ledger only with a positive estimate, or a free one where allowed. */
  predicate ClientReserves(estimate: int, allowZero: bool) {
    estimate > 0 || (estimate == 0 && allowZero)
  }

  /** An estimate that does not fit turns negative, and the client refuses the call by itself. */
  lemma WrappedEstimateRefused(b: Budget, rates: Rates, input: int, allowZero: bool)
    requires Price(b, rates, input) > MAX_INT64
    ensures Estimate(b, rates, input) < 0 && !ClientReserves(Estimate(b, rates, input), allowZero)
  {
    hide TokenCost;
  }

  /** A free call is taken to the ledger only where that is allowed, any other with its positive price. */
  lemma FreeEstimateRefused(estimate: int)
    ensures !ClientReserves(0, false) && ClientReserves(0, true)
    ensures estimate > 0 ==> ClientReserves(estimate, false)
    ensures estimate < 0 ==> !ClientReserves(estimate, true)
  {
  }

  /** The tokens and cost a response was accounted at. */
  datatype Answer = Answer(tokens: int, cost: int)

  function UsedTokens(answers: seq<Answer>): int {
    if answers == [] then 0 else UsedTokens(answers[..|answers| - 1]) + answers[|answers| - 1].tokens
  }

  function UsedCost(answers: seq<Answer>): int {
    if answers == [] then 0 else UsedCost(answers[..|answers| - 1]) + answers[|answers| - 1].cost
  }

  ghost predicate CallOk(b: Budget, rates: Rates, c: Case, allowZero: bool, turns: seq<Turn>, answers: seq<Answer>)
    requires ValidTurns(c, turns)
  {
    var request := RequestAfter(b, c, turns);
    && Kept(b, UsedTokens(answers), UsedCost(answers))
    && RunnerAdmits(b, rates, UsedTokens(answers), UsedCost(answers), Count(request))
    && ClientReserves(Estimate(b, rates, ReservedInput(request)), allowZero)
  }

  ghost predicate Answered(answers: seq<Answer>) {
    forall i :: 0 <= i < |answers| ==> answers[i].tokens >= 1 && answers[i].cost >= 0
  }

  /** A run of |turns| + 1 calls, all of them admitted by the runner and taken to the ledger by the
      client, each answered but the last, each answer going on with a turn. */
  ghost predicate Trace(b: Budget, rates: Rates, c: Case, allowZero: bool, turns: seq<Turn>, answers: seq<Answer>) {
    && |turns| == |answers| < b.profile.maxSteps
    && ValidTurns(c, turns) && Answered(answers)
    && (turns != [] ==> Trace(b, rates, c, allowZero, turns[..|turns| - 1], answers[..|answers| - 1]))
    && CallOk(b, rates, c, allowZero, turns, answers)
  }

  /** What the calls of a run reserve. */
  ghost function TotalReserved(b: Budget, rates: Rates, c: Case, turns: seq<Turn>): int
    requires ValidTurns(c, turns)
  {
    var here := Price(b, rates, ReservedInput(RequestAfter(b, c, turns)));
    if turns == [] then here else TotalReserved(b, rates, c, turns[..|turns| - 1]) + here
  }

  // ---- Numbers in range ----

  /** Budgets and prices for which none of the sums above overflows. */
  predicate InRange(b: Budget, rates: Rates) {
    && b.maxInput + 2 * b.profile.maxTotalTokens <= MAX_INT64
    && 4 * b.profile.maxTotalTokens + 64 <= MAX_INT64
    && Price(b, rates, 4 * b.profile.maxTotalTokens + 64) + b.profile.maxCost <= MAX_INT64
  }

  /** The admission in exact arithmetic. */
  predicate HasRoom(b: Budget, rates: Rates, usedTokens: int, usedCost: int, size: int) {
    && size <= b.maxInput && usedTokens + size + b.maxOutput <= b.profile.maxTotalTokens
    && (b.profile.maxCost > 0 ==> usedCost + Price(b, rates, size) <= b.profile.maxCost)
  }

  lemma PriceGrows(b: Budget, rates: Rates, x: int, y: int)
    requires x <= y
    ensures Price(b, rates, x) <= Price(b, rates, y)
  {
    CostMonotone(x, rates.input, y, rates.input);
    hide TokenCost;
  }

  lemma AdmissionIsExact(b: Budget, rates: Rates, usedTokens: int, usedCost: int, size: nat)
    requires b.Valid() && InRange(b, rates) && Kept(b, usedTokens, usedCost)
    ensures RunnerAdmits(b, rates, usedTokens, usedCost, size) <==> HasRoom(b, rates, usedTokens, usedCost, size)
  {
    if size <= 4 * b.profile.maxTotalTokens + 64 {
      PriceGrows(b, rates, size, 4 * b.profile.maxTotalTokens + 64);
    }
    hide Price;
  }

  lemma EstimateIsExact(b: Budget, rates: Rates, request: seq<Part>)
    requires b.Valid() && InRange(b, rates) && ValidParts(request) && Count(request) <= b.profile.maxTotalTokens
    ensures Estimate(b, rates, ReservedInput(request)) == Price(b, rates, ReservedInput(request))
  {
    ReservedAtMost(request);
    PriceGrows(b, rates, ReservedInput(request), 4 * b.profile.maxTotalTokens + 64);
    hide Price;
    hide ReservedInput;
  }

  /** The preflight's planned cost is the price of a call of its size. */
  lemma PreflightIsPriced(f: Preflight, rates: Rates, p: Profile)
    ensures PreflightCost(f, rates) == Price(Budget(p, f.inputTokens, f.outputTokens), rates, f.inputTokens)
  {
    hide TokenCost;
  }
}
