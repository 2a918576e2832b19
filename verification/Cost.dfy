/** Ceiling-rounded token cost in micros, and the report that accumulates it. */
module Cost {
  import opened Base

  const MILLION: int := 1_000_000

  /** The cost of some tokens at a rate in micros per million, rounded up, saturating. */
  function TokenCost(tokens: int, rate: int): (c: int)
    ensures 0 <= c <= MAX_INT64
  {
    if tokens <= 0 || rate <= 0 then 0
    else if tokens > MAX_INT64 / rate then MAX_INT64
    else
      var product := tokens * rate;
      if product > MAX_INT64 - 999_999 then MAX_INT64
      else
        assert product >= 0;
        (product + 999_999) / MILLION
  }

  /** c is the exact cost of `product` micro-millionths, rounded up. */
  predicate IsCeiling(c: int, product: int) {
    product <= c * MILLION < product + MILLION
  }

  function Ceiling(product: int): (c: int)
    ensures IsCeiling(c, product)
  {
    (product + 999_999) / MILLION
  }

  lemma QuotientTest(tokens: int, rate: int)
    requires tokens > 0 && rate > 0
    ensures tokens > MAX_INT64 / rate <==> tokens * rate > MAX_INT64
  {
    var q := MAX_INT64 / rate;
    assert q * rate <= MAX_INT64 < (q + 1) * rate;
    if tokens > q {
      assert tokens * rate >= (q + 1) * rate;
    } else {
      assert tokens * rate <= q * rate;
    }
  }

  /** The computation never overflows; it saturates exactly when the rounding could have. */
  lemma CostBranches(tokens: int, rate: int)
    requires tokens >= 0 && rate >= 0
    ensures 0 <= tokens * rate
    ensures TokenCost(tokens, rate) ==
            if tokens * rate > MAX_INT64 - 999_999 then MAX_INT64 else Ceiling(tokens * rate)
  {
    if tokens > 0 && rate > 0 {
      QuotientTest(tokens, rate);
    } else {
      assert tokens * rate == 0;
    }
  }

  /** Exactly when the cost is the true ceiling: when it does not saturate, or when the true
      ceiling happens to be the largest integer. And it never undercharges unless the true cost
      itself is out of range. */
  lemma CostIsCeiling(tokens: int, rate: int)
    requires tokens >= 0 && rate >= 0
    ensures IsCeiling(TokenCost(tokens, rate), tokens * rate) <==>
            tokens * rate <= MAX_INT64 - 999_999 || (MAX_INT64 - 1) * MILLION < tokens * rate <= MAX_INT64 * MILLION
    ensures TokenCost(tokens, rate) * MILLION >= tokens * rate <==> tokens * rate <= MAX_INT64 * MILLION
  {
    CostBranches(tokens, rate);
  }

  lemma ProductMonotone(t: int, r: int, t': int, r': int)
    requires 0 <= t <= t' && 0 <= r <= r'
    ensures 0 <= t * r <= t' * r'
  {
    assert t * r <= t' * r <= t' * r';
  }

  /** More tokens or a higher rate never cost less, saturated or not. */
  lemma CostMonotone(t: int, r: int, t': int, r': int)
    requires t <= t' && r <= r'
    ensures TokenCost(t, r) <= TokenCost(t', r')
  {
    if t > 0 && r > 0 {
      CostBranches(t, r);
      CostBranches(t', r');
      ProductMonotone(t, r, t', r');
    }
  }

  // ---- Splitting ----

  function Sum(ts: seq<nat>): nat {
    if ts == [] then 0 else Sum(ts[..|ts| - 1]) + ts[|ts| - 1]
  }

  function CostEach(ts: seq<nat>, rate: int): int {
    if ts == [] then 0 else CostEach(ts[..|ts| - 1], rate) + TokenCost(ts[|ts| - 1], rate)
  }

  lemma {:induction false} EachBounds(ts: seq<nat>, rate: int)
    requires rate >= 0 && Sum(ts) * rate <= MAX_INT64 - 999_999
    ensures 0 <= Sum(ts) * rate <= CostEach(ts, rate) * MILLION <= Sum(ts) * rate + |ts| * 999_999
  {
    if ts != [] {
      var prior, last := ts[..|ts| - 1], ts[|ts| - 1];
      assert Sum(ts) * rate == Sum(prior) * rate + last * rate;
      ProductMonotone(Sum(prior), rate, Sum(ts), rate);
      ProductMonotone(last, rate, Sum(ts), rate);
      EachBounds(prior, rate);
      CostIsCeiling(last, rate);
    }
  }

  /** Splitting tokens over k calls never lowers the cost, and adds at most k - 1 micros. */
  lemma SplittingCost(ts: seq<nat>, rate: int)
    requires ts != [] && rate >= 0 && Sum(ts) * rate <= MAX_INT64 - 999_999
    ensures TokenCost(Sum(ts), rate) <= CostEach(ts, rate) <= TokenCost(Sum(ts), rate) + |ts| - 1
  {
    EachBounds(ts, rate);
    CostIsCeiling(Sum(ts), rate);
  }

  // ---- Accumulation ----

  /** Token counts a provider reports for one request. */
  datatype Tokens = Tokens(prompt: int, completion: int, total: int)

  datatype Rates = Rates(input: int, output: int)

  /** Mathematical accounting, free of machine arithmetic: the exact cost in micro-millionths. */
  function ExactMicroMillionths(us: seq<Tokens>, rates: Rates): int {
    if us == [] then 0
    else
      var u := us[|us| - 1];
      ExactMicroMillionths(us[..|us| - 1], rates) + u.prompt * rates.input + u.completion * rates.output
  }

  /** The sum of the rounded, saturating costs, in unbounded arithmetic. */
  function CostTotal(us: seq<Tokens>, rates: Rates): (c: int)
    ensures c >= 0
  {
    if us == [] then 0
    else
      var u := us[|us| - 1];
      CostTotal(us[..|us| - 1], rates) + TokenCost(u.prompt, rates.input) + TokenCost(u.completion, rates.output)
  }

  /** What the machine stores after adding up the requests one by one. */
  function MeteredCost(us: seq<Tokens>, rates: Rates): int {
    if us == [] then 0
    else
      var u := us[|us| - 1];
      Wrap64(Wrap64(MeteredCost(us[..|us| - 1], rates) + TokenCost(u.prompt, rates.input))
             + TokenCost(u.completion, rates.output))
  }

  ghost predicate Counted(us: seq<Tokens>, rates: Rates) {
    rates.input >= 0 && rates.output >= 0 && forall i :: 0 <= i < |us| ==> us[i].prompt >= 0 && us[i].completion >= 0
  }

  /** No record's cost saturates. */
  ghost predicate Unsaturated(us: seq<Tokens>, rates: Rates) {
    forall i :: 0 <= i < |us| ==>
      && us[i].prompt * rates.input <= MAX_INT64 - 999_999
      && us[i].completion * rates.output <= MAX_INT64 - 999_999
  }

  /** No record's true cost is out of range. */
  ghost predicate Payable(us: seq<Tokens>, rates: Rates) {
    forall i :: 0 <= i < |us| ==>
      us[i].prompt * rates.input <= MAX_INT64 * MILLION && us[i].completion * rates.output <= MAX_INT64 * MILLION
  }

  lemma WrapTwice(total: int, a: int, b: int)
    ensures Wrap64(Wrap64(Wrap64(total) + a) + b) == Wrap64(total + a + b)
  {
    WrapAdd(total, a);
    WrapAdd(total + a, b);
  }

  lemma WrapAdd(x: int, a: int)
    ensures Wrap64(Wrap64(x) + a) == Wrap64(x + a)
  {
    var k := (x - Wrap64(x)) / TWO_64;
    assert x == Wrap64(x) + k * TWO_64;
    WrapShift(Wrap64(x) + a, k);
  }

  lemma {:induction false} WrapShift(x: int, k: int)
    ensures Wrap64(x + k * TWO_64) == Wrap64(x)
  {
    assert (x + k * TWO_64) % TWO_64 == x % TWO_64;
  }

  lemma WrapMeans(x: nat)
    ensures Wrap64(x) == x <==> x <= MAX_INT64
    ensures Wrap64(x) < 0 <==> x % TWO_64 > MAX_INT64
  {
  }

  /** What the machine stores is the true sum of the rounded costs, wrapped: it is that sum exactly
      while the sum fits, and negative exactly on the upper half of each further 2^64. */
  lemma {:induction false} MeteredIsWrapped(us: seq<Tokens>, rates: Rates)
    ensures MeteredCost(us, rates) == Wrap64(CostTotal(us, rates))
    ensures MeteredCost(us, rates) == CostTotal(us, rates) <==> CostTotal(us, rates) <= MAX_INT64
    ensures MeteredCost(us, rates) < 0 <==> CostTotal(us, rates) % TWO_64 > MAX_INT64
  {
    hide Wrap64;
    hide TokenCost;
    WrapMeans(CostTotal(us, rates));
    if us == [] {
      WrapMeans(0);
    } else {
      var prior, u := us[..|us| - 1], us[|us| - 1];
      MeteredIsWrapped(prior, rates);
      WrapTwice(CostTotal(prior, rates), TokenCost(u.prompt, rates.input), TokenCost(u.completion, rates.output));
    }
  }

  lemma ChargeBounds(tokens: int, rate: int)
    requires tokens >= 0 && rate >= 0
    ensures 0 <= tokens * rate
    ensures tokens * rate <= MAX_INT64 * MILLION ==> tokens * rate <= TokenCost(tokens, rate) * MILLION
    ensures tokens * rate <= MAX_INT64 - 999_999 ==> TokenCost(tokens, rate) * MILLION <= tokens * rate + 999_999
    ensures tokens * rate > MAX_INT64 - 999_999 ==> TokenCost(tokens, rate) == MAX_INT64
  {
    CostBranches(tokens, rate);
  }

  lemma {:induction false} TotalBounds(us: seq<Tokens>, rates: Rates)
    requires Counted(us, rates)
    ensures 0 <= ExactMicroMillionths(us, rates)
    ensures Payable(us, rates) ==> ExactMicroMillionths(us, rates) <= CostTotal(us, rates) * MILLION
    ensures Unsaturated(us, rates) ==>
      CostTotal(us, rates) * MILLION <= ExactMicroMillionths(us, rates) + 2 * |us| * 999_999
  {
    if us != [] {
      var prior, u := us[..|us| - 1], us[|us| - 1];
      assert Payable(us, rates) ==> Payable(prior, rates);
      assert Unsaturated(us, rates) ==> Unsaturated(prior, rates);
      TotalBounds(prior, rates);
      ChargeBounds(u.prompt, rates.input);
      ChargeBounds(u.completion, rates.output);
      hide TokenCost;
    }
  }

  /** Every single record is part of both sums. */
  lemma {:induction false} PartOfTotals(us: seq<Tokens>, rates: Rates, i: nat)
    requires Counted(us, rates) && i < |us|
    ensures us[i].prompt * rates.input <= ExactMicroMillionths(us, rates)
    ensures us[i].completion * rates.output <= ExactMicroMillionths(us, rates)
    ensures TokenCost(us[i].prompt, rates.input) <= CostTotal(us, rates)
    ensures TokenCost(us[i].completion, rates.output) <= CostTotal(us, rates)
  {
    var prior, u := us[..|us| - 1], us[|us| - 1];
    TotalBounds(prior, rates);
    ChargeBounds(u.prompt, rates.input);
    ChargeBounds(u.completion, rates.output);
    hide TokenCost;
    if i < |us| - 1 {
      PartOfTotals(prior, rates, i);
    }
  }

  /** For every log whose sum fits: the report charges at least the true cost if and only if no
      single cost is out of range, and stays below two micros per record above it if and only if
      nothing saturates or the true cost is itself that close to the largest integer. */
  lemma MeteredIsConservative(us: seq<Tokens>, rates: Rates)
    requires Counted(us, rates) && us != [] && CostTotal(us, rates) <= MAX_INT64
    ensures MeteredCost(us, rates) == CostTotal(us, rates)
    ensures MeteredCost(us, rates) * MILLION >= ExactMicroMillionths(us, rates) <==> Payable(us, rates)
    ensures MeteredCost(us, rates) * MILLION < ExactMicroMillionths(us, rates) + 2 * |us| * MILLION <==>
            Unsaturated(us, rates) || ExactMicroMillionths(us, rates) > (MAX_INT64 - 2 * |us|) * MILLION
  {
    MeteredIsWrapped(us, rates);
    TotalBounds(us, rates);
    hide CostTotal;
    hide MeteredCost;
    hide ExactMicroMillionths;
    hide TokenCost;
    if !Payable(us, rates) {
      var i :| 0 <= i < |us| && (us[i].prompt * rates.input > MAX_INT64 * MILLION
                                 || us[i].completion * rates.output > MAX_INT64 * MILLION);
      PartOfTotals(us, rates, i);
    }
    if !Unsaturated(us, rates) {
      var i :| 0 <= i < |us| && (us[i].prompt * rates.input > MAX_INT64 - 999_999
                                 || us[i].completion * rates.output > MAX_INT64 - 999_999);
      PartOfTotals(us, rates, i);
      ChargeBounds(us[i].prompt, rates.input);
      ChargeBounds(us[i].completion, rates.output);
    }
  }

  // ---- The reports ----

  datatype Report = Report(inputTokens: int, outputTokens: int, totalTokens: int, cost: int)

  /** The client's two usage reports, one per provider, each priced by its own rates if any. */
  class UsageMeter {
    var embedding: Report
    var llm: Report
    var embeddingRates: Option<Rates>
    var llmRates: Option<Rates>
    ghost var embeddingLog: seq<Tokens>
    ghost var llmLog: seq<Tokens>

    ghost predicate Valid()
      reads this
    {
      Matches(embedding, embeddingRates, embeddingLog) && Matches(llm, llmRates, llmLog)
    }

    constructor (embeddingRates: Option<Rates>, llmRates: Option<Rates>)
      ensures Valid() && this.embeddingRates == embeddingRates && this.llmRates == llmRates
      ensures embeddingLog == [] && llmLog == []
    {
      embedding, llm := Report(0, 0, 0, 0), Report(0, 0, 0, 0);
      this.embeddingRates, this.llmRates := embeddingRates, llmRates;
      embeddingLog, llmLog := [], [];
    }

    /** Adds one response to the report it belongs to and leaves the other alone. */
    method RecordUsage(isEmbedding: bool, u: Tokens)
      requires Valid()
      modifies this
      ensures Valid() && embeddingRates == old(embeddingRates) && llmRates == old(llmRates)
      ensures embeddingLog == (if isEmbedding then old(embeddingLog) + [u] else old(embeddingLog))
      ensures llmLog == (if isEmbedding then old(llmLog) else old(llmLog) + [u])
      ensures var was, after := if isEmbedding then old(embedding) else old(llm), if isEmbedding then embedding else llm;
        && after.inputTokens == Wrap64(was.inputTokens + u.prompt) && after.outputTokens == Wrap64(was.outputTokens + u.completion)
        && after.totalTokens == Wrap64(was.totalTokens + (if u.total > 0 then u.total else Wrap64(u.prompt + u.completion)))
      ensures isEmbedding ==> llm == old(llm)
      ensures !isEmbedding ==> embedding == old(embedding)
    {
      hide Wrap64;
      hide TokenCost;
      hide Matches;
      var report, rates := llm, llmRates;
      if isEmbedding {
        report, rates := embedding, embeddingRates;
      }
      MatchesSnoc(report, rates, if isEmbedding then embeddingLog else llmLog, u);
      var total := u.total;
      if total <= 0 {
        total := Wrap64(u.prompt + u.completion);
      }
      report := report.(inputTokens := Wrap64(report.inputTokens + u.prompt),
                        outputTokens := Wrap64(report.outputTokens + u.completion),
                        totalTokens := Wrap64(report.totalTokens + total));
      if rates.Some? {
        report := report.(cost := Wrap64(report.cost + TokenCost(u.prompt, rates.value.input)));
        report := report.(cost := Wrap64(report.cost + TokenCost(u.completion, rates.value.output)));
      }
      if isEmbedding {
        embedding, embeddingLog := report, embeddingLog + [u];
      } else {
        llm, llmLog := report, llmLog + [u];
      }
    }
  }

  /** A report holds exactly what its log adds up to. */
  ghost predicate Matches(r: Report, rates: Option<Rates>, log: seq<Tokens>) {
    && r.cost == (if rates.None? then 0 else MeteredCost(log, rates.value))
    && r.inputTokens == WrappedSum(log, Prompt) && r.outputTokens == WrappedSum(log, Completion)
    && r.totalTokens == WrappedSum(log, Billed)
  }

  function Prompt(u: Tokens): int { u.prompt }

  function Completion(u: Tokens): int { u.completion }

  /** The provider's total, or the sum of the parts when it reports none. */
  function Billed(u: Tokens): int { if u.total <= 0 then Wrap64(u.prompt + u.completion) else u.total }

  ghost function WrappedSum(log: seq<Tokens>, part: Tokens -> int): int {
    if log == [] then 0 else Wrap64(WrappedSum(log[..|log| - 1], part) + part(log[|log| - 1]))
  }

  lemma MatchesSnoc(r: Report, rates: Option<Rates>, log: seq<Tokens>, u: Tokens)
    requires Matches(r, rates, log)
    ensures Matches(r.(inputTokens := Wrap64(r.inputTokens + u.prompt),
                       outputTokens := Wrap64(r.outputTokens + u.completion),
                       totalTokens := Wrap64(r.totalTokens + Billed(u)),
                       cost := if rates.None? then r.cost
                               else Wrap64(Wrap64(r.cost + TokenCost(u.prompt, rates.value.input))
                                           + TokenCost(u.completion, rates.value.output))),
                    rates, log + [u])
  {
    hide Wrap64;
    hide TokenCost;
    assert (log + [u])[..|log|] == log;
  }

  /** A provider that reports no totals is billed for input and output together. */
  lemma {:induction false} UnreportedTotals(log: seq<Tokens>)
    requires forall i :: 0 <= i < |log| ==> log[i].total <= 0
    ensures WrappedSum(log, Billed) == Wrap64(WrappedSum(log, Prompt) + WrappedSum(log, Completion))
  {
    hide Wrap64;
    if log != [] {
      var prior, u := log[..|log| - 1], log[|log| - 1];
      UnreportedTotals(prior);
      SumSnoc(log, Prompt);
      SumSnoc(log, Completion);
      SumSnoc(log, Billed);
      var p, q := WrappedSum(prior, Prompt), WrappedSum(prior, Completion);
      hide WrappedSum;
      WrapBoth(p + q, u.prompt + u.completion);
      WrapBoth(p + u.prompt, q + u.completion);
      assert p + q + (u.prompt + u.completion) == p + u.prompt + (q + u.completion);
    }
  }

  lemma SumSnoc(log: seq<Tokens>, part: Tokens -> int)
    requires log != []
    ensures WrappedSum(log, part) == Wrap64(WrappedSum(log[..|log| - 1], part) + part(log[|log| - 1]))
  {
    hide Wrap64;
  }

  lemma WrapBoth(a: int, b: int)
    ensures Wrap64(Wrap64(a) + Wrap64(b)) == Wrap64(a + b)
  {
    WrapAdd(a, Wrap64(b));
    WrapAdd(b, a);
    hide Wrap64;
  }
}
