/** How far a plan can be missed: runs whose transcript grows as slowly as it can. */
module LiveGap {
  import opened Base
  import opened Cost
  import opened Plan
  import opened LiveRequests
  import opened LiveCalls
  import opened LiveBounds

  /** A micro a token, so that costs are token counts. */
  const UNIT := Rates(1_000_000, 1_000_000)

  lemma UnitCost(tokens: int)
    requires 0 <= tokens && tokens * MILLION <= MAX_INT64 - 999_999
    ensures TokenCost(tokens, MILLION) == tokens
  {
    CostIsCeiling(tokens, MILLION);
  }

  /** A tool with a four-letter name that replies nothing. */
  const LEAN := Exchange(Text(4, 0, 0), Text(4, 0, 0), EMPTY)

  /** A case of one message with 4n ASCII characters, and one tool. */
  function PlainCase(n: nat): Case {
    Case([Part(4, [EMPTY, EMPTY, EMPTY, Text(4 * n, 0, 0)])], [Part(8, [Text(4, 0, 0), EMPTY, EMPTY])], [LEAN])
  }

  lemma PlainSizes(n: nat)
    ensures var c := PlainCase(n);
      && c.Valid() && Count(c.start) == n + 4 && Bytes(c.start) == 4 * n
      && Count(c.tools) == 9 && Bytes(c.tools) == 4
  {
    hide *;
    var content, name, none := Text(4 * n, 0, 0), Text(4 * 1, 0, 0), Text(4 * 0, 0, 0);
    PlainParts(n);
    PlainText(n);
    PlainText(1);
    PlainText(0);
    OnePart(Part(4, [none, none, none, content]));
    OnePart(Part(8, [name, none, none]));
    FourTexts(none, none, none, content);
    ThreeTexts(name, none, none);
  }

  lemma PlainParts(n: nat)
    ensures var c, content, name, none := PlainCase(n), Text(4 * n, 0, 0), Text(4 * 1, 0, 0), Text(4 * 0, 0, 0);
      c.start == [Part(4, [none, none, none, content])] && c.tools == [Part(8, [name, none, none])] && c.Valid()
  {
    LeanFacts(n);
    hide ValidExchanges;
    hide Growth;
    hide TurnLoss;
  }

  /** A profile with just enough tokens for k + 1 calls, bounded by tokens or by the same cost. */
  function TightBudget(n: nat, output: nat, k: nat, byCost: bool): Budget {
    var total := n + 13 + 25 * k + output;
    Budget(Profile(k + 2, total, if byCost then total else 0), n + 13 + 24 * k, output)
  }

  predicate SmallNumbers(n: nat, output: nat, k: nat) {
    && k + 2 <= MAX_ALLOWED_STEPS && output > 0
    && (4 * (n + 13 + 25 * k + output) + 64 + output) * MILLION + n + 13 + 25 * k + output <= MAX_INT64 - 999_999
  }

  /** Turns that add as little as they can. */
  function Turns(i: nat): (turns: seq<Turn>)
    ensures |turns| == i
  {
    if i == 0 then [] else Turns(i - 1) + [FullTurn([LEAN], 0, 24)]
  }

  function Answers(i: nat): (answers: seq<Answer>)
    ensures |answers| == i
  {
    if i == 0 then [] else Answers(i - 1) + [Answer(1, 1)]
  }

  lemma {:induction false} AnswersUse(i: nat)
    ensures UsedTokens(Answers(i)) == i && UsedCost(Answers(i)) == i && Answered(Answers(i))
  {
    if i > 0 {
      AnswersUse(i - 1);
      UsedSnoc(Answers(i - 1), Answer(1, 1));
      hide UsedTokens;
      hide UsedCost;
      hide Answered;
    }
  }

  lemma {:induction false} TurnsGrow(n: nat, i: nat)
    ensures var c := PlainCase(n);
      ValidTurns(c, Turns(i)) && Grown(c, Turns(i)) == 24 * i && GrownBytes(c, Turns(i)) == 42 * i
  {
    hide *;
    var c := PlainCase(n);
    LeanFacts(n);
    if i == 0 {
      NoTurnsYet(c);
    } else {
      TurnsGrow(n, i - 1);
      FullTurnSize(c.exchanges, 0, 24);
      TurnsSnoc(c, Turns(i - 1), FullTurn([LEAN], 0, 24));
      TurnsAre(i);
    }
  }

  lemma LeanFacts(n: nat)
    ensures PlainCase(n).exchanges == [LEAN] && ValidExchanges([LEAN]) && Growth(LEAN) == 24 && TurnLoss(LEAN) == 6
  {
    hide ValidExchanges;
    hide Growth;
    hide TurnLoss;
    LeanSizes(LEAN);
    OneExchange(LEAN);
  }

  lemma PlainValid(m: nat)
    ensures Text(4 * m, 0, 0).Valid()
  {
  }

  lemma ExchangeIsValid(e: Exchange)
    requires e.name.Valid() && e.arguments.Valid() && e.reply.Valid() && e.name.Count() >= 1 && e.arguments.Count() >= 1
    ensures e.Valid()
  {
  }

  lemma LeanSizes(e: Exchange)
    requires e.name == Text(4 * 1, 0, 0) && e.arguments == Text(4 * 1, 0, 0) && e.reply == Text(4 * 0, 0, 0)
    ensures e.Valid() && Growth(e) == 24 && TurnLoss(e) == 6
  {
    hide *;
    PlainText(1);
    PlainText(0);
    PlainValid(1);
    PlainValid(0);
    ExchangeIsValid(e);
    ExchangeSizes(e);
  }

  lemma OneExchange(e: Exchange)
    requires e.Valid()
    ensures ValidExchanges([e])
  {
    assert [e][0] == e;
  }

  lemma NoTurnsYet(c: Case)
    ensures Turns(0) == [] && ValidTurns(c, []) && Grown(c, []) == 0 && GrownBytes(c, []) == 0
  {
  }

  lemma TurnsAre(i: nat)
    requires i > 0 && Growth(LEAN) == 24
    ensures Turns(i) == Turns(i - 1) + [FullTurn([LEAN], 0, 24)]
  {
    hide FullTurn;
  }

  /** The i-th request: its estimate, and the tokens it is priced at. */
  lemma PlainRequest(n: nat, output: nat, k: nat, byCost: bool, i: nat)
    requires SmallNumbers(n, output, k) && i <= k
    ensures var b, c := TightBudget(n, output, k, byCost), PlainCase(n);
      && ValidTurns(c, Turns(i))
      && Count(RequestAfter(b, c, Turns(i))) == n + 13 + 24 * i
      && ReservedInput(RequestAfter(b, c, Turns(i))) == 4 * n + 68 + 42 * i
  {
    hide *;
    var b, c := TightBudget(n, output, k, byCost), PlainCase(n);
    TurnsGrow(n, i);
    PlainSizes(n);
    RequestSize(b, c, Turns(i));
    PlainTail(n, output, k, byCost, i);
    PlainPriced(n, output, k, i);
    ReservedIs(RequestAfter(b, c, Turns(i)));
  }

  lemma PlainTail(n: nat, output: nat, k: nat, byCost: bool, i: nat)
    requires i <= k
    ensures var b, c := TightBudget(n, output, k, byCost), PlainCase(n);
      && Size(b, c, i, 24 * i) == Count(c.start) + 24 * i + Count(c.tools)
      && SizeBytes(b, c, i, 42 * i) == Bytes(c.start) + 42 * i + Bytes(c.tools)
  {
    hide Count;
    hide Bytes;
    hide PlainCase;
  }

  lemma PlainPriced(n: nat, output: nat, k: nat, i: nat)
    requires SmallNumbers(n, output, k) && i <= k
    ensures PricedAt(n + 13 + 24 * i, 4 * n + 4 + 42 * i) == 4 * n + 68 + 42 * i
  {
  }

  lemma ReservedIs(request: seq<Part>)
    ensures ReservedInput(request) == PricedAt(Count(request), Bytes(request))
  {
    hide PricedAt;
  }

  lemma TightRange(n: nat, output: nat, k: nat, byCost: bool)
    requires SmallNumbers(n, output, k)
    ensures var b := TightBudget(n, output, k, byCost);
      && b.Valid() && InRange(b, UNIT) && ProfileCost(b.profile, UNIT) == n + 13 + 25 * k + output
  {
    var total := n + 13 + 25 * k + output;
    UnitCost(4 * total + 64);
    UnitCost(output);
    UnitCost(total);
    hide TokenCost;
  }

  lemma TightPrice(n: nat, output: nat, k: nat, byCost: bool, tokens: int)
    requires SmallNumbers(n, output, k) && 0 <= tokens <= 4 * (n + 13 + 25 * k + output) + 64
    ensures Price(TightBudget(n, output, k, byCost), UNIT, tokens) == tokens + output
  {
    UnitCost(tokens);
    UnitCost(output);
    hide TokenCost;
  }

  lemma PlainCallOk(n: nat, output: nat, k: nat, byCost: bool, i: nat)
    requires SmallNumbers(n, output, k) && i <= k
    ensures var b, c := TightBudget(n, output, k, byCost), PlainCase(n);
      && ValidTurns(c, Turns(i)) && CallOk(b, UNIT, c, false, Turns(i), Answers(i))
      && CallPrice(b, UNIT, c, Turns(i)) == 4 * n + 68 + 42 * i + output
  {
    hide *;
    var b, c := TightBudget(n, output, k, byCost), PlainCase(n);
    AnswersUse(i);
    PlainRequest(n, output, k, byCost, i);
    TightAdmits(n, output, k, byCost, i);
    CallOkIf(b, c, Turns(i), Answers(i));
  }

  lemma TightAdmits(n: nat, output: nat, k: nat, byCost: bool, i: nat)
    requires SmallNumbers(n, output, k) && i <= k
    ensures var b := TightBudget(n, output, k, byCost);
      && Kept(b, i, i) && RunnerAdmits(b, UNIT, i, i, n + 13 + 24 * i)
      && Price(b, UNIT, 4 * n + 68 + 42 * i) == 4 * n + 68 + 42 * i + output
      && Estimate(b, UNIT, 4 * n + 68 + 42 * i) > 0
  {
    var b := TightBudget(n, output, k, byCost);
    TightRange(n, output, k, byCost);
    TightPrice(n, output, k, byCost, n + 13 + 24 * i);
    TightPrice(n, output, k, byCost, 4 * n + 68 + 42 * i);
    hide Price;
    hide InRange;
    AdmissionIsExact(b, UNIT, i, i, n + 13 + 24 * i);
    hide RunnerAdmits;
  }

  lemma CallOkIf(b: Budget, c: Case, turns: seq<Turn>, answers: seq<Answer>)
    requires ValidTurns(c, turns)
    requires var request := RequestAfter(b, c, turns);
      && Kept(b, UsedTokens(answers), UsedCost(answers))
      && RunnerAdmits(b, UNIT, UsedTokens(answers), UsedCost(answers), Count(request))
      && Estimate(b, UNIT, ReservedInput(request)) > 0
    ensures CallOk(b, UNIT, c, false, turns, answers)
    ensures CallPrice(b, UNIT, c, turns) == Price(b, UNIT, ReservedInput(RequestAfter(b, c, turns)))
  {
    hide RunnerAdmits;
    hide Kept;
    hide Estimate;
    hide Price;
    hide RequestAfter;
    hide ValidTurns;
  }

  lemma PlainStep(n: nat, output: nat, k: nat, byCost: bool, i: nat)
    requires SmallNumbers(n, output, k) && i <= k
    requires i > 0 ==> Trace(TightBudget(n, output, k, byCost), UNIT, PlainCase(n), false, Turns(i - 1), Answers(i - 1))
    ensures Trace(TightBudget(n, output, k, byCost), UNIT, PlainCase(n), false, Turns(i), Answers(i))
  {
    PlainCallOk(n, output, k, byCost, i);
    AnswersUse(i);
    hide CallOk;
    hide ValidTurns;
    hide Answered;
    hide PlainCase;
    if i > 0 {
      assert Turns(i)[..i - 1] == Turns(i - 1) && Answers(i)[..i - 1] == Answers(i - 1);
    }
  }

  /** Whether a profile is bounded by tokens or by cost, its calls can reserve far more than planned:
      for every message of 4n characters and every k up to 62 there is a profile planned at
      n + 13 + 25k + output micros, and a run of k + 1 calls, its transcript growing at every turn,
      that the runner admits and that reserves (k + 1)(4n + 68 + output + 21k). */
  lemma {:induction false} ReservationsOutgrowPlan(n: nat, output: nat, k: nat, byCost: bool, i: nat)
    requires SmallNumbers(n, output, k) && i <= k
    ensures var b, c := TightBudget(n, output, k, byCost), PlainCase(n);
      && b.Valid() && c.Valid() && ProfileCost(b.profile, UNIT) == n + 13 + 25 * k + output
      && Trace(b, UNIT, c, false, Turns(i), Answers(i)) && ValidTurns(c, Turns(i))
      && TotalReserved(b, UNIT, c, Turns(i)) == (i + 1) * (4 * n + 68 + output + 21 * i)
  {
    hide *;
    var b, c := TightBudget(n, output, k, byCost), PlainCase(n);
    TightRange(n, output, k, byCost);
    PlainSizes(n);
    PlainCallOk(n, output, k, byCost, i);
    TotalSnoc(b, UNIT, c, Turns(i));
    if i > 0 {
      ReservationsOutgrowPlan(n, output, k, byCost, i - 1);
      TurnsPrefix(i);
      Adds(4 * n + 68 + output, i);
    }
    PlainStep(n, output, k, byCost, i);
  }

  lemma TurnsPrefix(i: nat)
    requires i > 0
    ensures Turns(i)[..i - 1] == Turns(i - 1)
  {
    hide FullTurn;
  }

  lemma Adds(base: int, i: nat)
    requires i > 0
    ensures (i + 1) * (base + 21 * i) == i * (base + 21 * (i - 1)) + base + 42 * i
  {
  }
}
