/** Exactly how much a case's calls can reserve, whatever the model answers, and what that means for a
    plan and for the limits of an authorization. */
module LiveBounds {
  import opened Base
  import opened Cost
  import opened Plan
  import opened PlanCoverage
  import opened LiveRequests
  import opened LiveCalls

  // ---- How large each request can be ----

  /** The runner can admit call i with turns that added x tokens, if every answer so far took one token. */
  predicate Allowed(b: Budget, rates: Rates, c: Case, i: nat, x: int) {
    HasRoom(b, rates, i, 0, Size(b, c, i, x))
  }

  function Largest(b: Budget, rates: Rates, c: Case, i: nat, x: int): (r: int)
    ensures -1 <= r && (x >= -1 ==> r <= x) && (r >= 0 ==> Allowed(b, rates, c, i, r))
    ensures forall k :: r < k <= x ==> !Allowed(b, rates, c, i, k)
    decreases x + 1
  {
    if x < 0 then -1 else if Allowed(b, rates, c, i, x) then x else Largest(b, rates, c, i, x - 1)
  }

  /** The most tokens the turns can have added at call i by its own admission; -1 if none will do. */
  function Limit(b: Budget, rates: Rates, c: Case, i: nat): int {
    Largest(b, rates, c, i, b.profile.maxTotalTokens)
  }

  function ExchangeAt(c: Case, us: seq<nat>, i: nat): Exchange
    requires ChoicesOk(c, us) && i < |us|
  {
    c.exchanges[us[i]]
  }

  /** The most they can have added if all the calls up to the last are to be admitted: each further
      turn needs room to grow. */
  function Top(b: Budget, rates: Rates, c: Case, us: seq<nat>, i: nat): int
    requires ChoicesOk(c, us) && i <= |us|
    decreases |us| - i
  {
    var limit := Limit(b, rates, c, i);
    if i == |us| then limit
    else
      var next := Top(b, rates, c, us, i + 1) - Growth(ExchangeAt(c, us, i));
      if next < limit then next else limit
  }

  /** A run with these exchanges, one a turn, can be had at all. */
  ghost predicate Feasible(b: Budget, rates: Rates, c: Case, us: seq<nat>) {
    ChoicesOk(c, us) && |us| < b.profile.maxSteps && Top(b, rates, c, us, 0) >= 0
  }

  function Level(b: Budget, rates: Rates, c: Case, us: seq<nat>, i: nat): int
    requires ChoicesOk(c, us) && i <= |us|
  {
    if i == 0 then 0 else Top(b, rates, c, us, i)
  }

  /** The most that call i can be priced at. */
  ghost function WorstPrice(b: Budget, rates: Rates, c: Case, us: seq<nat>, i: nat): (p: int)
    requires ChoicesOk(c, us) && i <= |us|
    ensures p >= 0
  {
    var x := Level(b, rates, c, us, i);
    Price(b, rates, PricedAt(Size(b, c, i, x), SizeBytes(b, c, i, MostBytes(c, us[..i], x))))
  }

  ghost function WorstUpTo(b: Budget, rates: Rates, c: Case, us: seq<nat>, n: nat): (p: int)
    requires ChoicesOk(c, us) && n <= |us|
    ensures p >= 0
  {
    var here := WorstPrice(b, rates, c, us, n);
    if n == 0 then here else WorstUpTo(b, rates, c, us, n - 1) + here
  }

  /** The most that a run with these exchanges can reserve. */
  ghost function WorstTotal(b: Budget, rates: Rates, c: Case, us: seq<nat>): (p: int)
    requires ChoicesOk(c, us)
    ensures p >= 0
  {
    WorstUpTo(b, rates, c, us, |us|)
  }

  // ---- No run reserves more ----

  lemma {:induction false} ShorterRun(
    b: Budget, rates: Rates, c: Case, allowZero: bool, turns: seq<Turn>, answers: seq<Answer>, i: nat)
    requires Trace(b, rates, c, allowZero, turns, answers) && i <= |turns|
    ensures Trace(b, rates, c, allowZero, turns[..i], answers[..i])
  {
    hide CallOk;
    hide ValidTurns;
    hide Answered;
    if i < |turns| {
      var n := |turns| - 1;
      ShorterRun(b, rates, c, allowZero, turns[..n], answers[..n], i);
      assert turns[..n][..i] == turns[..i] && answers[..n][..i] == answers[..i];
    } else {
      assert turns[..i] == turns && answers[..i] == answers;
    }
  }

  lemma {:induction false} UsedAtLeast(answers: seq<Answer>)
    requires Answered(answers)
    ensures UsedTokens(answers) >= |answers| && UsedCost(answers) >= 0
  {
    if answers != [] {
      UsedAtLeast(answers[..|answers| - 1]);
    }
  }

  lemma TraceParts(b: Budget, rates: Rates, c: Case, allowZero: bool, turns: seq<Turn>, answers: seq<Answer>)
    requires Trace(b, rates, c, allowZero, turns, answers)
    ensures |turns| == |answers| < b.profile.maxSteps && ValidTurns(c, turns) && Answered(answers)
    ensures CallOk(b, rates, c, allowZero, turns, answers)
  {
    hide CallOk;
    hide ValidTurns;
    hide Answered;
  }

  lemma CallParts(b: Budget, rates: Rates, c: Case, allowZero: bool, turns: seq<Turn>, answers: seq<Answer>)
    requires b.Valid() && InRange(b, rates) && ValidTurns(c, turns) && Answered(answers) && |answers| == |turns|
    requires CallOk(b, rates, c, allowZero, turns, answers)
    ensures HasRoom(b, rates, |turns|, 0, Size(b, c, |turns|, Grown(c, turns)))
  {
    UsedAtLeast(answers);
    RequestSize(b, c, turns);
    AdmissionIsExact(b, rates, UsedTokens(answers), UsedCost(answers), Count(RequestAfter(b, c, turns)));
    hide RunnerAdmits;
    hide Estimate;
    hide InRange;
    hide UsedTokens;
    hide UsedCost;
    hide RequestAfter;
    hide Size;
    hide Price;
  }

  lemma WithinLimit(b: Budget, rates: Rates, c: Case, i: nat, x: nat)
    requires b.Valid() && Allowed(b, rates, c, i, x)
    ensures x <= Limit(b, rates, c, i)
  {
    hide Largest;
    hide Price;
    assert x <= b.profile.maxTotalTokens;
  }

  lemma GrowsBy(c: Case, turns: seq<Turn>, i: nat)
    requires c.Valid() && ValidTurns(c, turns) && i < |turns|
    ensures ValidTurns(c, turns[..i]) && ValidTurns(c, turns[..i + 1]) && Chosen(turns)[i] < |c.exchanges|
    ensures Grown(c, turns[..i + 1]) >= Grown(c, turns[..i]) + Growth(c.exchanges[Chosen(turns)[i]])
  {
    hide TurnParts;
    hide Growth;
    hide TurnLoss;
    hide Count;
    assert turns[..i + 1][..i] == turns[..i] && turns[..i + 1][i] == turns[i];
    assert ValidTurn(c.exchanges, turns[i]);
    TurnBound(c.exchanges, turns[i]);
    hide ValidTurn;
  }

  /** In every run the turns stay below what leaves room for the calls to come. */
  lemma {:induction false} StaysBelow(
    b: Budget, rates: Rates, c: Case, allowZero: bool, turns: seq<Turn>, answers: seq<Answer>, i: nat)
    requires b.Valid() && c.Valid() && InRange(b, rates) && Trace(b, rates, c, allowZero, turns, answers) && i <= |turns|
    ensures ValidTurns(c, turns) && ValidTurns(c, turns[..i]) && ChoicesOk(c, Chosen(turns))
    ensures Grown(c, turns[..i]) <= Top(b, rates, c, Chosen(turns), i)
    decreases |turns| - i
  {
    hide *;
    TraceParts(b, rates, c, allowZero, turns, answers);
    GrownBound(c, turns);
    ShorterRun(b, rates, c, allowZero, turns, answers, i);
    TraceParts(b, rates, c, allowZero, turns[..i], answers[..i]);
    CallParts(b, rates, c, allowZero, turns[..i], answers[..i]);
    AllowedIs(b, rates, c, i, Grown(c, turns[..i]));
    WithinLimit(b, rates, c, i, Grown(c, turns[..i]));
    TopIs(b, rates, c, Chosen(turns), i);
    if i < |turns| {
      StaysBelow(b, rates, c, allowZero, turns, answers, i + 1);
      GrowsBy(c, turns, i);
    }
  }

  lemma AllowedIs(b: Budget, rates: Rates, c: Case, i: nat, x: int)
    ensures Allowed(b, rates, c, i, x) <==> HasRoom(b, rates, i, 0, Size(b, c, i, x))
  {
  }

  lemma TopIs(b: Budget, rates: Rates, c: Case, us: seq<nat>, i: nat)
    requires ChoicesOk(c, us) && i <= |us|
    ensures i < |us| ==> us[i] < |c.exchanges|
    ensures Top(b, rates, c, us, i) ==
      if i == |us| then Limit(b, rates, c, i)
      else
        var next := Top(b, rates, c, us, i + 1) - Growth(c.exchanges[us[i]]);
        if next < Limit(b, rates, c, i) then next else Limit(b, rates, c, i)
  {
    hide Limit;
    hide Growth;
  }

  lemma {:induction false} ChosenPrefix(turns: seq<Turn>, i: nat)
    requires i <= |turns|
    ensures Chosen(turns)[..i] == Chosen(turns[..i])
  {
  }

  lemma PricedGrows(count: int, bytes: int, count': int, bytes': int)
    requires count <= count' && bytes <= bytes'
    ensures PricedAt(count, bytes) <= PricedAt(count', bytes')
  {
  }

  /** A call of a run is priced at most at the worst. */
  lemma CallBound(
    b: Budget, rates: Rates, c: Case, allowZero: bool, turns: seq<Turn>, answers: seq<Answer>, i: nat)
    requires b.Valid() && c.Valid() && InRange(b, rates) && Trace(b, rates, c, allowZero, turns, answers) && i <= |turns|
    ensures ValidTurns(c, turns) && ValidTurns(c, turns[..i]) && ChoicesOk(c, Chosen(turns))
    ensures Price(b, rates, ReservedInput(RequestAfter(b, c, turns[..i]))) <= WorstPrice(b, rates, c, Chosen(turns), i)
  {
    StaysBelow(b, rates, c, allowZero, turns, answers, i);
    var prefix, us := turns[..i], Chosen(turns);
    var x, y := Grown(c, prefix), Level(b, rates, c, us, i);
    assert x <= y by { hide Top; assert i == 0 ==> prefix == []; }
    hide Trace;
    hide ValidTurns;
    hide Price;
    hide Top;
    hide Grown;
    hide GrownBytes;
    hide InRange;
    RequestSize(b, c, prefix);
    GrownBound(c, prefix);
    ChosenPrefix(turns, i);
    hide RequestAfter;
    hide Level;
    PricedGrows(Size(b, c, i, x), SizeBytes(b, c, i, GrownBytes(c, prefix)),
                Size(b, c, i, y), SizeBytes(b, c, i, MostBytes(c, us[..i], y)));
    PriceGrows(b, rates, ReservedInput(RequestAfter(b, c, prefix)),
               PricedAt(Size(b, c, i, y), SizeBytes(b, c, i, MostBytes(c, us[..i], y))));
  }

  lemma {:induction false} BoundUpTo(
    b: Budget, rates: Rates, c: Case, allowZero: bool, turns: seq<Turn>, answers: seq<Answer>, n: nat)
    requires b.Valid() && c.Valid() && InRange(b, rates) && Trace(b, rates, c, allowZero, turns, answers) && n <= |turns|
    ensures ValidTurns(c, turns) && ValidTurns(c, turns[..n]) && ChoicesOk(c, Chosen(turns))
    ensures TotalReserved(b, rates, c, turns[..n]) <= WorstUpTo(b, rates, c, Chosen(turns), n)
  {
    hide Trace;
    hide ValidTurns;
    hide Price;
    hide WorstPrice;
    hide InRange;
    CallBound(b, rates, c, allowZero, turns, answers, n);
    hide RequestAfter;
    if n > 0 {
      BoundUpTo(b, rates, c, allowZero, turns, answers, n - 1);
      assert turns[..n][..n - 1] == turns[..n - 1];
    }
  }

  /** However the model answers, a run reserves at most the worst for the exchanges it had. */
  lemma TraceBound(b: Budget, rates: Rates, c: Case, allowZero: bool, turns: seq<Turn>, answers: seq<Answer>)
    requires b.Valid() && c.Valid() && InRange(b, rates) && Trace(b, rates, c, allowZero, turns, answers)
    ensures ValidTurns(c, turns) && Feasible(b, rates, c, Chosen(turns))
    ensures TotalReserved(b, rates, c, turns) <= WorstTotal(b, rates, c, Chosen(turns))
  {
    TraceParts(b, rates, c, allowZero, turns, answers);
    StaysBelow(b, rates, c, allowZero, turns, answers, 0);
    BoundUpTo(b, rates, c, allowZero, turns, answers, |turns|);
    hide Trace;
    hide ValidTurns;
    hide InRange;
    hide WorstUpTo;
    hide Top;
    assert turns[..|turns|] == turns;
  }

  // ---- And some run reserves as much ----

  lemma LevelSteps(b: Budget, rates: Rates, c: Case, us: seq<nat>, i: nat)
    requires Feasible(b, rates, c, us) && i < |us|
    ensures us[i] < |c.exchanges|
    ensures Level(b, rates, c, us, i + 1) >= Level(b, rates, c, us, i) + Growth(c.exchanges[us[i]])
    ensures Level(b, rates, c, us, i) >= 0
  {
    hide Growth;
    hide Limit;
    TopIs(b, rates, c, us, i);
    TopPositive(b, rates, c, us, i);
    hide Top;
  }

  lemma {:induction false} TopPositive(b: Budget, rates: Rates, c: Case, us: seq<nat>, i: nat)
    requires Feasible(b, rates, c, us) && i <= |us|
    ensures Top(b, rates, c, us, i) >= 0
  {
    hide Growth;
    hide Limit;
    if i > 0 {
      TopPositive(b, rates, c, us, i - 1);
      TopIs(b, rates, c, us, i - 1);
      hide Top;
    }
  }

  lemma LevelAllowed(b: Budget, rates: Rates, c: Case, us: seq<nat>, i: nat)
    requires Feasible(b, rates, c, us) && i <= |us|
    ensures Level(b, rates, c, us, i) >= 0 && Allowed(b, rates, c, i, Level(b, rates, c, us, i))
  {
    TopPositive(b, rates, c, us, i);
    TopIs(b, rates, c, us, i);
    hide Growth;
    hide Top;
    AllowedBelow(b, rates, c, i, Limit(b, rates, c, i), Level(b, rates, c, us, i));
  }

  lemma AllowedBelow(b: Budget, rates: Rates, c: Case, i: nat, x: int, y: int)
    requires y <= x && (x >= 0 ==> Allowed(b, rates, c, i, x)) && y >= 0
    ensures Allowed(b, rates, c, i, y)
  {
    PriceGrows(b, rates, Size(b, c, i, y), Size(b, c, i, x));
    hide Price;
    hide Count;
    hide Tail;
  }

  /** Lean turns that grow exactly to each level. */
  ghost function FullTurns(b: Budget, rates: Rates, c: Case, us: seq<nat>, n: nat): (turns: seq<Turn>)
    requires ChoicesOk(c, us) && n <= |us|
    ensures |turns| == n
  {
    if n == 0 then []
    else
      var e := ExchangeAt(c, us, n - 1);
      var x := Level(b, rates, c, us, n) - Level(b, rates, c, us, n - 1);
      FullTurns(b, rates, c, us, n - 1) + [FullTurn(c.exchanges, us[n - 1], if x >= Growth(e) then x else Growth(e))]
  }

  /** Answers that account for one token each. */
  function Ones(n: nat): (answers: seq<Answer>)
    ensures |answers| == n
  {
    if n == 0 then [] else Ones(n - 1) + [Answer(1, 0)]
  }

  lemma UsedSnoc(answers: seq<Answer>, a: Answer)
    ensures UsedTokens(answers + [a]) == UsedTokens(answers) + a.tokens
    ensures UsedCost(answers + [a]) == UsedCost(answers) + a.cost
    ensures Answered(answers) && a.tokens >= 1 && a.cost >= 0 ==> Answered(answers + [a])
  {
    assert (answers + [a])[..|answers|] == answers;
  }

  lemma {:induction false} OnesUse(n: nat)
    ensures UsedTokens(Ones(n)) == n && UsedCost(Ones(n)) == 0 && Answered(Ones(n))
  {
    if n > 0 {
      OnesUse(n - 1);
      UsedSnoc(Ones(n - 1), Answer(1, 0));
      hide UsedTokens;
      hide UsedCost;
      hide Answered;
    }
  }

  lemma TurnsSnoc(c: Case, turns: seq<Turn>, t: Turn)
    requires ValidTurns(c, turns) && ValidTurn(c.exchanges, t) && Answerable(c.exchanges, t.uses)
    ensures ValidTurns(c, turns + [t])
    ensures Grown(c, turns + [t]) == Grown(c, turns) + Count(TurnParts(c.exchanges, t))
    ensures GrownBytes(c, turns + [t]) == GrownBytes(c, turns) + Bytes(TurnParts(c.exchanges, t))
  {
    hide ValidTurn;
    hide TurnParts;
    hide Count;
    hide Bytes;
    var all := turns + [t];
    assert all[..|turns|] == turns && all[|turns|] == t;
  }

  lemma LostSnoc(c: Case, us: seq<nat>, n: nat)
    requires ChoicesOk(c, us) && 0 < n <= |us|
    ensures ChoicesOk(c, us[..n]) && ChoicesOk(c, us[..n - 1])
    ensures Lost(c, us[..n]) == Lost(c, us[..n - 1]) + TurnLoss(c.exchanges[us[n - 1]])
  {
    hide TurnLoss;
    assert us[..n][..n - 1] == us[..n - 1];
  }

  lemma {:induction false} FullTurnsSize(b: Budget, rates: Rates, c: Case, us: seq<nat>, n: nat)
    requires c.Valid() && Feasible(b, rates, c, us) && n <= |us|
    ensures var turns, x := FullTurns(b, rates, c, us, n), Level(b, rates, c, us, n);
      && ValidTurns(c, turns) && ChoicesOk(c, us[..n])
      && Grown(c, turns) == x && GrownBytes(c, turns) == MostBytes(c, us[..n], x)
  {
    hide *;
    FeasibleChoices(b, rates, c, us);
    if n == 0 {
      NoTurns(b, rates, c, us);
    } else {
      var prior, u := FullTurns(b, rates, c, us, n - 1), us[n - 1];
      CaseParts(c);
      FullTurnsSize(b, rates, c, us, n - 1);
      LevelSteps(b, rates, c, us, n - 1);
      var x := Level(b, rates, c, us, n) - Level(b, rates, c, us, n - 1);
      FullTurnsIs(b, rates, c, us, n);
      FullTurnSize(c.exchanges, u, x);
      TurnsSnoc(c, prior, FullTurn(c.exchanges, u, x));
      LostSnoc(c, us, n);
      MostBytesIs(c, us[..n], Level(b, rates, c, us, n));
      MostBytesIs(c, us[..n - 1], Level(b, rates, c, us, n - 1));
    }
  }

  lemma CaseParts(c: Case)
    requires c.Valid()
    ensures ValidExchanges(c.exchanges)
  {
  }

  lemma NoTurns(b: Budget, rates: Rates, c: Case, us: seq<nat>)
    requires ChoicesOk(c, us)
    ensures FullTurns(b, rates, c, us, 0) == [] && ValidTurns(c, []) && ChoicesOk(c, us[..0])
    ensures Grown(c, []) == 0 == Level(b, rates, c, us, 0) && GrownBytes(c, []) == 0 == MostBytes(c, us[..0], 0)
  {
    assert us[..0] == [];
  }

  lemma FullTurnsIs(b: Budget, rates: Rates, c: Case, us: seq<nat>, n: nat)
    requires ChoicesOk(c, us) && 0 < n <= |us| && us[n - 1] < |c.exchanges|
    requires Level(b, rates, c, us, n) - Level(b, rates, c, us, n - 1) >= Growth(c.exchanges[us[n - 1]])
    ensures FullTurns(b, rates, c, us, n) == FullTurns(b, rates, c, us, n - 1)
      + [FullTurn(c.exchanges, us[n - 1], Level(b, rates, c, us, n) - Level(b, rates, c, us, n - 1))]
  {
    hide FullTurn;
    hide Level;
    hide Growth;
  }

  lemma MostBytesIs(c: Case, us: seq<nat>, x: int)
    requires ChoicesOk(c, us)
    ensures MostBytes(c, us, x) == 4 * (x - 12 * |us|) - Lost(c, us)
  {
  }

  /** Prices the client takes to the ledger: some rate is positive, or free calls are allowed. */
  predicate Chargeable(rates: Rates, allowZero: bool) {
    allowZero || rates.input > 0 || rates.output > 0
  }

  lemma PositivePrice(b: Budget, rates: Rates, input: int)
    requires input >= 1 && b.maxOutput >= 1 && (rates.input > 0 || rates.output > 0)
    ensures Price(b, rates, input) > 0
  {
    if rates.input > 0 {
      CostMonotone(1, 1, input, rates.input);
    } else {
      CostMonotone(1, 1, b.maxOutput, rates.output);
    }
    UnitTokenCost();
    hide TokenCost;
  }

  lemma UnitTokenCost()
    ensures TokenCost(1, 1) == 1
  {
  }

  lemma RequestValid(b: Budget, c: Case, turns: seq<Turn>)
    requires c.Valid() && ValidTurns(c, turns)
    ensures ValidParts(RequestAfter(b, c, turns))
  {
    TranscriptValid(c, turns);
    hide Transcript;
    hide ValidTurns;
  }

  lemma {:induction false} TranscriptValid(c: Case, turns: seq<Turn>)
    requires c.Valid() && ValidTurns(c, turns)
    ensures ValidParts(Transcript(c, turns))
  {
    if turns != [] {
      var t := turns[|turns| - 1];
      TranscriptValid(c, turns[..|turns| - 1]);
      TurnValid(c.exchanges, t);
      hide ValidTurn;
      hide TurnParts;
      hide Transcript;
    }
  }

  lemma TurnValid(es: seq<Exchange>, t: Turn)
    requires ValidExchanges(es) && ValidTurn(es, t) && Answerable(es, t.uses)
    ensures ValidParts(TurnParts(es, t))
  {
    MorePartsValid(es, t.uses);
    hide ActionParts;
    hide ReplyParts;
  }

  lemma FullCallOk(b: Budget, rates: Rates, c: Case, allowZero: bool, turns: seq<Turn>, x: nat)
    requires b.Valid() && c.Valid() && InRange(b, rates) && Chargeable(rates, allowZero)
    requires ValidTurns(c, turns) && Grown(c, turns) == x && Allowed(b, rates, c, |turns|, x)
    ensures CallOk(b, rates, c, allowZero, turns, Ones(|turns|))
  {
    hide RequestAfter;
    hide ValidTurns;
    hide Grown;
    hide InRange;
    hide UsedTokens;
    hide UsedCost;
    hide Size;
    hide Count;
    hide Bytes;
    hide Answered;
    var n, request := |turns|, RequestAfter(b, c, turns);
    OnesUse(n);
    RequestSize(b, c, turns);
    RequestValid(b, c, turns);
    AdmissionIsExact(b, rates, n, 0, Count(request));
    EstimateIsExact(b, rates, request);
    assert ReservedInput(request) >= 1;
    if rates.input > 0 || rates.output > 0 {
      PositivePrice(b, rates, ReservedInput(request));
    }
    hide Price;
    hide RunnerAdmits;
    hide ReservedInput;
  }

  /** The worst is reached by a run of the runner, with a transcript that grows at every turn. */
  lemma {:induction false} WorstIsReached(b: Budget, rates: Rates, c: Case, allowZero: bool, us: seq<nat>, n: nat)
    requires b.Valid() && c.Valid() && InRange(b, rates) && Chargeable(rates, allowZero)
    requires Feasible(b, rates, c, us) && n <= |us|
    ensures var turns := FullTurns(b, rates, c, us, n);
      && Trace(b, rates, c, allowZero, turns, Ones(n)) && ValidTurns(c, turns)
      && TotalReserved(b, rates, c, turns) == WorstUpTo(b, rates, c, us, n)
  {
    hide *;
    FeasibleChoices(b, rates, c, us);
    var turns, x := FullTurns(b, rates, c, us, n), Level(b, rates, c, us, n);
    FullTurnsSize(b, rates, c, us, n);
    LevelAllowed(b, rates, c, us, n);
    FullCallOk(b, rates, c, allowZero, turns, x);
    OnesUse(n);
    RequestSize(b, c, turns);
    WorstIs(b, rates, c, us, n);
    TotalIs(b, rates, c, turns);
    if n > 0 {
      WorstIsReached(b, rates, c, allowZero, us, n - 1);
      FullTurnsPrefix(b, rates, c, us, n);
    }
    TraceIs(b, rates, c, allowZero, turns, n);
  }

  lemma WorstIs(b: Budget, rates: Rates, c: Case, us: seq<nat>, n: nat)
    requires ChoicesOk(c, us) && n <= |us|
    ensures ChoicesOk(c, us[..n])
    ensures var x := Level(b, rates, c, us, n);
      var here := Price(b, rates, PricedAt(Size(b, c, n, x), SizeBytes(b, c, n, MostBytes(c, us[..n], x))));
      WorstUpTo(b, rates, c, us, n) == if n == 0 then here else WorstUpTo(b, rates, c, us, n - 1) + here
  {
    hide Level;
    hide Price;
    hide PricedAt;
    hide MostBytes;
  }

  lemma TotalIs(b: Budget, rates: Rates, c: Case, turns: seq<Turn>)
    requires ValidTurns(c, turns)
    ensures turns != [] ==> ValidTurns(c, turns[..|turns| - 1])
    ensures var request := RequestAfter(b, c, turns);
      var here := Price(b, rates, PricedAt(Count(request), Bytes(request)));
      TotalReserved(b, rates, c, turns) ==
      if turns == [] then here else TotalReserved(b, rates, c, turns[..|turns| - 1]) + here
  {
    hide Price;
    hide PricedAt;
    hide RequestAfter;
    hide ValidTurn;
  }

  lemma TraceIs(b: Budget, rates: Rates, c: Case, allowZero: bool, turns: seq<Turn>, n: nat)
    requires |turns| == n < b.profile.maxSteps && ValidTurns(c, turns) && Answered(Ones(n))
    requires CallOk(b, rates, c, allowZero, turns, Ones(n))
    requires n > 0 ==> Trace(b, rates, c, allowZero, turns[..n - 1], Ones(n - 1))
    ensures Trace(b, rates, c, allowZero, turns, Ones(n))
  {
    hide CallOk;
    hide ValidTurns;
    hide Answered;
    if n > 0 {
      assert Ones(n)[..n - 1] == Ones(n - 1);
    }
  }

  lemma FullTurnsPrefix(b: Budget, rates: Rates, c: Case, us: seq<nat>, n: nat)
    requires ChoicesOk(c, us) && 0 < n <= |us|
    ensures FullTurns(b, rates, c, us, n)[..n - 1] == FullTurns(b, rates, c, us, n - 1)
  {
    hide FullTurn;
    hide Level;
    hide Growth;
  }

  lemma {:induction false} FreeIsFree(b: Budget, rates: Rates, c: Case, us: seq<nat>, n: nat)
    requires ChoicesOk(c, us) && n <= |us| && rates.input <= 0 && rates.output <= 0
    ensures WorstUpTo(b, rates, c, us, n) == 0
  {
    hide Level;
    hide Size;
    hide SizeBytes;
    hide MostBytes;
    hide PricedAt;
    if n > 0 {
      FreeIsFree(b, rates, c, us, n - 1);
    }
  }

  // ---- The exact conditions ----

  /** Every run that the runner admits reserves at most `bound`. */
  ghost predicate RunsReserve(b: Budget, rates: Rates, c: Case, allowZero: bool, bound: int) {
    forall turns, answers ::
      Trace(b, rates, c, allowZero, turns, answers) ==> TotalReserved(b, rates, c, turns) <= bound
  }

  /** The worst for every choice of exchanges is at most `bound`: a condition on the case's sizes. */
  ghost predicate WorstReserves(b: Budget, rates: Rates, c: Case, bound: int) {
    forall us :: Feasible(b, rates, c, us) ==> WorstTotal(b, rates, c, us) <= bound
  }

  /** Whatever the model answers, a case's calls reserve at most a bound if and only if the worst for
      each feasible choice of exchanges does. */
  lemma RunsReserveExactly(b: Budget, rates: Rates, c: Case, allowZero: bool, bound: nat)
    requires b.Valid() && c.Valid() && InRange(b, rates)
    ensures RunsReserve(b, rates, c, allowZero, bound) <==> WorstReserves(b, rates, c, bound)
  {
    hide Trace;
    hide Feasible;
    hide WorstUpTo;
    hide TotalReserved;
    hide InRange;
    hide Chosen;
    if WorstReserves(b, rates, c, bound) {
      forall turns, answers | Trace(b, rates, c, allowZero, turns, answers)
        ensures ValidTurns(c, turns) && TotalReserved(b, rates, c, turns) <= bound
      {
        TraceBound(b, rates, c, allowZero, turns, answers);
      }
    }
    if RunsReserve(b, rates, c, allowZero, bound) {
      forall us | Feasible(b, rates, c, us) ensures ChoicesOk(c, us) && WorstTotal(b, rates, c, us) <= bound {
        FeasibleChoices(b, rates, c, us);
        if Chargeable(rates, allowZero) {
          WorstIsReached(b, rates, c, allowZero, us, |us|);
        } else {
          FreeIsFree(b, rates, c, us, |us|);
        }
      }
    }
  }

  lemma FeasibleChoices(b: Budget, rates: Rates, c: Case, us: seq<nat>)
    requires Feasible(b, rates, c, us)
    ensures ChoicesOk(c, us) && |us| < b.profile.maxSteps
  {
  }

  lemma PlannedCostIsPositive(p: Profile, rates: Rates)
    requires p.Valid()
    ensures ProfileCost(p, rates) >= 0
  {
  }

  /** Exactly when a profile's planned cost bounds what a case's calls reserve. */
  lemma PlanBoundsReservations(b: Budget, rates: Rates, c: Case, allowZero: bool)
    requires b.Valid() && c.Valid() && InRange(b, rates)
    ensures RunsReserve(b, rates, c, allowZero, ProfileCost(b.profile, rates)) <==>
            WorstReserves(b, rates, c, ProfileCost(b.profile, rates))
  {
    PlannedCostIsPositive(b.profile, rates);
    RunsReserveExactly(b, rates, c, allowZero, ProfileCost(b.profile, rates));
  }

  // ---- What the ledger then does ----

  ghost function CallPrice(b: Budget, rates: Rates, c: Case, turns: seq<Turn>): (p: int)
    requires ValidTurns(c, turns)
    ensures p >= 0
  {
    Price(b, rates, ReservedInput(RequestAfter(b, c, turns)))
  }

  /** The preflight at its bound, then the calls of a run. */
  ghost function LiveEvents(b: Budget, rates: Rates, c: Case, f: Preflight, turns: seq<Turn>): (es: seq<Event>)
    requires ValidTurns(c, turns)
    ensures |es| == |turns| + 2
  {
    var before := if turns == [] then [PreflightCall(PreflightCost(f, rates))]
                  else LiveEvents(b, rates, c, f, turns[..|turns| - 1]);
    before + [SlotCall(0, CallPrice(b, rates, c, turns))]
  }

  lemma ReservedSnoc(es: seq<Event>, e: Event)
    ensures PlanCoverage.Reserved(es + [e]) == Plus(PlanCoverage.Reserved(es), Delta(RequestOf(e)))
  {
    assert (es + [e])[..|es|] == es;
  }

  lemma TotalSnoc(b: Budget, rates: Rates, c: Case, turns: seq<Turn>)
    requires ValidTurns(c, turns)
    ensures turns != [] ==> ValidTurns(c, turns[..|turns| - 1])
    ensures TotalReserved(b, rates, c, turns) ==
            (if turns == [] then 0 else TotalReserved(b, rates, c, turns[..|turns| - 1])) + CallPrice(b, rates, c, turns)
  {
    hide Price;
    hide RequestAfter;
    hide ValidTurn;
  }

  lemma PreflightAlone(f: Preflight, rates: Rates)
    ensures PlanCoverage.Reserved([PreflightCall(PreflightCost(f, rates))]) == Usage(0, 1, 0, PreflightCost(f, rates))
    ensures PreflightCost(f, rates) >= 0
  {
    var es := [PreflightCall(PreflightCost(f, rates))];
    assert es[..0] == [];
  }

  lemma {:induction false} LiveSums(b: Budget, rates: Rates, c: Case, f: Preflight, turns: seq<Turn>)
    requires ValidTurns(c, turns)
    ensures PlanCoverage.Reserved(LiveEvents(b, rates, c, f, turns)) ==
            Usage(0, |turns| + 2, 0, PreflightCost(f, rates) + TotalReserved(b, rates, c, turns))
  {
    TotalSnoc(b, rates, c, turns);
    PreflightAlone(f, rates);
    hide CallPrice;
    hide PreflightCost;
    hide TotalReserved;
    hide ValidTurns;
    var e := SlotCall(0, CallPrice(b, rates, c, turns));
    if turns == [] {
      ReservedSnoc([PreflightCall(PreflightCost(f, rates))], e);
    } else {
      LiveSums(b, rates, c, f, turns[..|turns| - 1]);
      ReservedSnoc(LiveEvents(b, rates, c, f, turns[..|turns| - 1]), e);
    }
    hide PlanCoverage.Reserved;
  }

  ghost predicate EveryEventFits(l: Limits, c: Setting, es: seq<Event>) {
    forall i :: 0 <= i < |es| ==> EventFits(l, c, es[i])
  }

  lemma EventFitsSnoc(l: Limits, c: Setting, es: seq<Event>, e: Event)
    requires EveryEventFits(l, c, es) && EventFits(l, c, e)
    ensures EveryEventFits(l, c, es + [e])
  {
    hide EventFits;
  }

  function SettingOf(b: Budget, rates: Rates, f: Preflight): Setting {
    Setting([b.profile], f, rates, 0)
  }

  lemma PreflightFits(l: Limits, b: Budget, rates: Rates, f: Preflight)
    requires PreflightCost(f, rates) <= MAX_INT64
    ensures EventFits(l, SettingOf(b, rates, f), PreflightCall(PreflightCost(f, rates)))
  {
    PreflightAlone(f, rates);
  }

  lemma SlotFits(l: Limits, b: Budget, rates: Rates, f: Preflight, price: int)
    requires 0 <= price <= MAX_INT64
    ensures EventFits(l, SettingOf(b, rates, f), SlotCall(0, price))
  {
  }

  lemma {:induction false} LiveFits(l: Limits, b: Budget, rates: Rates, c: Case, f: Preflight, turns: seq<Turn>)
    requires ValidTurns(c, turns) && ValidLimits(l)
    requires PreflightCost(f, rates) + TotalReserved(b, rates, c, turns) <= l.cost
    ensures EveryEventFits(l, SettingOf(b, rates, f), LiveEvents(b, rates, c, f, turns))
    ensures TotalReserved(b, rates, c, turns) >= 0
  {
    TotalSnoc(b, rates, c, turns);
    PreflightAlone(f, rates);
    hide CallPrice;
    hide PreflightCost;
    hide TotalReserved;
    hide ValidTurns;
    hide EventFits;
    hide SettingOf;
    var setting := SettingOf(b, rates, f);
    if turns == [] {
      PreflightFits(l, b, rates, f);
      SlotFits(l, b, rates, f, CallPrice(b, rates, c, turns));
      EventFitsSnoc(l, setting, [PreflightCall(PreflightCost(f, rates))], SlotCall(0, CallPrice(b, rates, c, turns)));
    } else {
      LiveFits(l, b, rates, c, f, turns[..|turns| - 1]);
      SlotFits(l, b, rates, f, CallPrice(b, rates, c, turns));
      EventFitsSnoc(l, setting, LiveEvents(b, rates, c, f, turns[..|turns| - 1]), SlotCall(0, CallPrice(b, rates, c, turns)));
    }
  }

  lemma LiveAccepted(l: Limits, b: Budget, rates: Rates, c: Case, f: Preflight, turns: seq<Turn>)
    requires ValidTurns(c, turns) && ValidLimits(l) && |turns| + 2 <= l.calls
    requires PreflightCost(f, rates) + TotalReserved(b, rates, c, turns) <= l.cost
    ensures NeverRefused(l, LiveEvents(b, rates, c, f, turns))
  {
    var es, setting := LiveEvents(b, rates, c, f, turns), SettingOf(b, rates, f);
    assert setting.review == 0;
    LiveFits(l, b, rates, c, f, turns);
    LiveSums(b, rates, c, f, turns);
    hide LiveEvents;
    hide PreflightCost;
    hide TotalReserved;
    hide PlanCoverage.Reserved;
    hide ValidTurns;
    hide EventFits;
    hide SettingOf;
    forall k: nat | k < |es| ensures Verdict(l, RequestsOf(es), k) {
      EveryStepAccepted(l, setting, es, k);
    }
  }

  /** The ledger refuses no step of any run of the case. */
  ghost predicate NeverCutShort(l: Limits, b: Budget, rates: Rates, c: Case, f: Preflight, allowZero: bool)
    requires ValidLimits(l)
  {
    forall turns, answers ::
      Trace(b, rates, c, allowZero, turns, answers) ==> NeverRefused(l, LiveEvents(b, rates, c, f, turns))
  }

  /** Exactly which cost limits never cut a case short, once the preflight fits and the call limit
      covers the steps: those that leave, after the preflight, enough for the worst. */
  lemma LimitsSuffice(l: Limits, b: Budget, rates: Rates, c: Case, f: Preflight, allowZero: bool)
    requires ValidLimits(l) && b.Valid() && c.Valid() && InRange(b, rates) && b.profile.maxSteps + 1 <= l.calls
    requires PreflightCost(f, rates) <= l.cost
    ensures NeverCutShort(l, b, rates, c, f, allowZero) <==>
            WorstReserves(b, rates, c, l.cost - PreflightCost(f, rates))
  {
    var left := l.cost - PreflightCost(f, rates);
    RunsReserveExactly(b, rates, c, allowZero, left);
    hide Trace;
    hide WorstReserves;
    hide InRange;
    hide TotalReserved;
    hide LiveEvents;
    hide PreflightCost;
    hide NeverRefused;
    if RunsReserve(b, rates, c, allowZero, left) {
      forall turns, answers | Trace(b, rates, c, allowZero, turns, answers)
        ensures ValidTurns(c, turns) && NeverRefused(l, LiveEvents(b, rates, c, f, turns))
      {
        TraceParts(b, rates, c, allowZero, turns, answers);
        LiveAccepted(l, b, rates, c, f, turns);
      }
    }
    if NeverCutShort(l, b, rates, c, f, allowZero) {
      forall turns, answers | Trace(b, rates, c, allowZero, turns, answers)
        ensures ValidTurns(c, turns) && TotalReserved(b, rates, c, turns) <= left
      {
        TraceParts(b, rates, c, allowZero, turns, answers);
        LiveSums(b, rates, c, f, turns);
        NeverRefusedFits(l, LiveEvents(b, rates, c, f, turns));
      }
    }
  }
}
