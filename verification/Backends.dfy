/** The two ledgers side by side, fed the same requests: each against the abstract counter. */
module Backends {
  import opened Base
  import opened RedisScripts
  import opened FileLedger
  import opened FileStore

  /** One request as a caller makes it, with its reservation ID, content digest and time. */
  datatype Ask = Ask(request: Request, id: string, digest: string, subject: string, at: int)
  {
    function Ms(): int { at / NANOS_PER_MILLI }
  }

  function Requests(asks: seq<Ask>): (rs: seq<Request>)
    ensures |rs| == |asks|
  {
    seq(|asks|, i requires 0 <= i < |asks| => asks[i].request)
  }

  ghost predicate DistinctAsks(asks: seq<Ask>) {
    forall i, j :: 0 <= i < j < |asks| ==> asks[i].id != asks[j].id
  }

  /** Inside the file ledger's window, in nanoseconds. */
  ghost predicate Timely(g: Ledger, asks: seq<Ask>) {
    forall i :: 0 <= i < |asks| ==> g.auth.InWindow(asks[i].at)
  }

  /** Inside the Redis ledger's window, in milliseconds. */
  ghost predicate TimelyMs(g: Ledger, asks: seq<Ask>) {
    forall i :: 0 <= i < |asks| ==> g.auth.InWindowMs(asks[i].Ms())
  }

  ghost predicate Typed(asks: seq<Ask>) {
    forall i :: 0 <= i < |asks| ==> TypedRequest(asks[i].request)
  }

  /** Few enough records for loading: by the limits, or by the number of requests. */
  predicate WithinCap(g: Ledger, asks: seq<Ask>) {
    g.auth.limits.runs + g.auth.limits.calls <= MAX_EVENTS || |asks| <= MAX_EVENTS + 1
  }

  // ---- The file ledger, one request after another ----

  ghost function FileAfter(g: Ledger, invocation: string, asks: seq<Ask>): seq<Record> {
    if asks == [] then []
    else
      var prior, a := FileAfter(g, invocation, asks[..|asks| - 1]), asks[|asks| - 1];
      if AppendAccepts(g, prior, a.request, a.at)
      then prior + [BuildRecord(g, invocation, prior, a.request, a.subject, a.at)]
      else prior
  }

  ghost predicate FileVerdict(g: Ledger, invocation: string, asks: seq<Ask>, i: nat)
    requires i < |asks|
  {
    AppendAccepts(g, FileAfter(g, invocation, asks[..i]), asks[i].request, asks[i].at)
  }

  // ---- The Redis ledger, one request after another ----

  function ScriptArgs(invocation: string, a: Ask): ReserveArgs {
    ReserveArgs(a.id, a.digest, invocation, EventType(a.request), a.subject, Delta(a.request))
  }

  function At(s: Store, ms: int): Store {
    if ms > s.now then s.(now := ms) else s
  }

  function RedisAfter(g: Ledger, invocation: string, start: int, asks: seq<Ask>): Store {
    var id := IdentityOf(g.auth);
    if asks == [] then InitializeScript(id, Store(None, None, None, start)).0
    else
      var a := asks[|asks| - 1];
      var s := At(RedisAfter(g, invocation, start, asks[..|asks| - 1]), a.Ms());
      ReserveScript(id, s, ScriptArgs(invocation, a)).0
  }

  predicate RedisVerdict(g: Ledger, invocation: string, start: int, asks: seq<Ask>, i: nat)
    requires i < |asks|
  {
    var s := At(RedisAfter(g, invocation, start, asks[..i]), asks[i].Ms());
    ReserveScript(IdentityOf(g.auth), s, ScriptArgs(invocation, asks[i])).1.Done?
  }

  /** A live, unrevoked ledger in its window with the given usage. */
  ghost predicate Live(g: Ledger, s: Store, usage: Usage) {
    && s.Intact() && s.marker.value == FreshMarker(IdentityOf(g.auth)) && g.auth.InWindowMs(s.now)
    && var st := s.state.value;
       && st.identity == IdentityOf(g.auth) && st.status == Some(Initialized) && st.revocation.None?
       && st.usage == usage && st.sequence >= 0 && |s.events.value| == st.sequence + 1
  }

  lemma LiveReserve(g: Ledger, s: Store, usage: Usage, r: ReserveArgs, request: Request)
    requires Live(g, s, usage) && Within(usage, g.auth.limits) && r.id !in s.state.value.reservations
    requires r.delta == Delta(request) && r.eventType == EventType(request)
    ensures var (s', reply) := ReserveScript(IdentityOf(g.auth), s, r);
      && Live(g, s', Spend(g.auth.limits, usage, request))
      && (reply.Done? <==> Affordable(g.auth.limits, usage, request))
      && s'.state.value.reservations.Keys <= s.state.value.reservations.Keys + {r.id}
  {
    assert |"run_reserved"| == 12 && |"provider_call_reserved"| == 22;
    hide ReservationFields;
    hide NextStreamId;
  }

  lemma SpendSnoc(l: Limits, asks: seq<Ask>)
    requires ValidLimits(l) && asks != []
    ensures var prior := asks[..|asks| - 1];
      SpendAll(l, Requests(asks)) == Spend(l, SpendAll(l, Requests(prior)), asks[|asks| - 1].request)
  {
    assert Requests(asks)[..|asks| - 1] == Requests(asks[..|asks| - 1]);
  }

  ghost predicate KnownOnly(s: Store, asks: seq<Ask>) {
    s.state.Some? && forall x :: x in s.state.value.reservations ==> exists i :: 0 <= i < |asks| && asks[i].id == x
  }

  /** The Redis ledger follows the abstract counter. */
  lemma {:induction false} RedisFollows(g: Ledger, invocation: string, start: int, asks: seq<Ask>)
    requires g.Valid() && g.auth.InWindowMs(start) && DistinctAsks(asks) && TimelyMs(g, asks)
    ensures var s := RedisAfter(g, invocation, start, asks);
      Live(g, s, SpendAll(g.auth.limits, Requests(asks))) && KnownOnly(s, asks)
    ensures asks != [] ==>
      var prior := asks[..|asks| - 1];
      RedisVerdict(g, invocation, start, asks, |asks| - 1) <==>
        Affordable(g.auth.limits, SpendAll(g.auth.limits, Requests(prior)), asks[|asks| - 1].request)
  {
    hide ReserveScript;
    hide Affordable;
    if asks != [] {
      var prior, a := asks[..|asks| - 1], asks[|asks| - 1];
      RedisFollows(g, invocation, start, prior);
      var s := At(RedisAfter(g, invocation, start, prior), a.Ms());
      SpendSnoc(g.auth.limits, asks);
      hide SpendAll;
      LiveReserve(g, s, SpendAll(g.auth.limits, Requests(prior)), ScriptArgs(invocation, a), a.request);
    }
  }

  // ---- The file ledger follows the counter too, until a count overflows ----

  /** The sum of captured outputs leaves the machine's range while a run is still available. */
  predicate Overflows(l: Limits, u: Usage, r: Request) {
    r.RunRequest? && u.outputs + r.outputs > MAX_INT64 && u.runs < l.runs
  }

  ghost predicate NoOverflow(g: Ledger, asks: seq<Ask>)
    requires g.Valid()
  {
    forall i :: 0 <= i < |asks| ==> !Overflows(g.auth.limits, SpendAll(g.auth.limits, Requests(asks[..i])), asks[i].request)
  }

  lemma AskRecords(g: Ledger, invocation: string, prior: seq<Record>, a: Ask)
    requires g.Valid() && invocation != "" && g.auth.InWindow(a.at) && TypedRequest(a.request)
    requires HonestLedger(g, prior) && |prior| <= MAX_EVENTS
    ensures AppendAccepts(g, prior, a.request, a.at) <==>
            Affordable(g.auth.limits, RecordUsage(prior), a.request) || Overflows(g.auth.limits, RecordUsage(prior), a.request)
    ensures Affordable(g.auth.limits, RecordUsage(prior), a.request) ==>
      var all := prior + [BuildRecord(g, invocation, prior, a.request, a.subject, a.at)];
      HonestLedger(g, all) && RecordUsage(all) == Plus(RecordUsage(prior), Delta(a.request))
  {
    hide HonestLedger;
    HonestWithin(g, prior);
    AdmitExactly(g.auth.limits, RecordUsage(prior), a.request);
    if Affordable(g.auth.limits, RecordUsage(prior), a.request) {
      BuildKeepsHonest(g, invocation, prior, a.request, a.subject, a.at);
      UsageSnoc(prior, BuildRecord(g, invocation, prior, a.request, a.subject, a.at));
    }
  }

  ghost predicate FileMatches(g: Ledger, rs: seq<Record>, usage: Usage, asked: nat) {
    HonestLedger(g, rs) && RecordUsage(rs) == usage && usage.runs + usage.calls == |rs| && |rs| <= asked
  }

  lemma FileStep(g: Ledger, invocation: string, prior: seq<Record>, a: Ask, usage: Usage, asked: nat)
    requires g.Valid() && invocation != "" && g.auth.InWindow(a.at) && TypedRequest(a.request)
    requires FileMatches(g, prior, usage, asked) && |prior| <= MAX_EVENTS
    ensures AppendAccepts(g, prior, a.request, a.at) <==>
            Affordable(g.auth.limits, usage, a.request) || Overflows(g.auth.limits, usage, a.request)
    ensures Affordable(g.auth.limits, usage, a.request) ==>
      FileMatches(g, prior + [BuildRecord(g, invocation, prior, a.request, a.subject, a.at)],
                  Spend(g.auth.limits, usage, a.request), asked + 1)
  {
    hide HonestLedger;
    hide AppendAccepts;
    AskRecords(g, invocation, prior, a);
    hide BuildRecord;
    hide RecordUsage;
  }

  lemma {:induction false} FileFollows(g: Ledger, invocation: string, asks: seq<Ask>)
    requires g.Valid() && invocation != "" && Timely(g, asks) && Typed(asks) && WithinCap(g, asks) && NoOverflow(g, asks)
    ensures FileMatches(g, FileAfter(g, invocation, asks), SpendAll(g.auth.limits, Requests(asks)), |asks|)
  {
    hide *;
    if asks == [] {
      NothingAsked(g, invocation, asks);
    } else {
      var prior, a := asks[..|asks| - 1], asks[|asks| - 1];
      AskFacts(g, asks);
      ShorterNoOverflow(g, asks, |asks| - 1);
      NotHere(g, asks, |asks| - 1);
      FileFollows(g, invocation, prior);
      SpendSnoc(g.auth.limits, asks);
      FileFits(g, invocation, prior, asks);
      FileStep(g, invocation, FileAfter(g, invocation, prior), a, SpendAll(g.auth.limits, Requests(prior)), |prior|);
      FileSnoc(g, invocation, asks);
      Refusal(g, FileAfter(g, invocation, prior), SpendAll(g.auth.limits, Requests(prior)), |prior|, a.request);
    }
  }

  lemma NothingAsked(g: Ledger, invocation: string, asks: seq<Ask>)
    requires g.Valid() && asks == []
    ensures FileMatches(g, FileAfter(g, invocation, asks), SpendAll(g.auth.limits, Requests(asks)), |asks|)
  {
    hide HonestLedger;
    EmptyHonest(g);
  }

  lemma AskFacts(g: Ledger, asks: seq<Ask>)
    requires g.Valid() && asks != [] && Timely(g, asks) && Typed(asks) && WithinCap(g, asks)
    ensures var prior, a := asks[..|asks| - 1], asks[|asks| - 1];
      && TypedRequest(a.request) && g.auth.InWindow(a.at) && ValidLimits(g.auth.limits)
      && Timely(g, prior) && Typed(prior) && WithinCap(g, prior)
  {
    hide TypedRequest;
  }

  lemma FileSnoc(g: Ledger, invocation: string, asks: seq<Ask>)
    requires asks != []
    ensures var prior, a := FileAfter(g, invocation, asks[..|asks| - 1]), asks[|asks| - 1];
      FileAfter(g, invocation, asks) ==
      if AppendAccepts(g, prior, a.request, a.at)
      then prior + [BuildRecord(g, invocation, prior, a.request, a.subject, a.at)]
      else prior
  {
  }

  lemma Refusal(g: Ledger, rs: seq<Record>, usage: Usage, asked: nat, r: Request)
    requires FileMatches(g, rs, usage, asked)
    ensures !Affordable(g.auth.limits, usage, r) ==> FileMatches(g, rs, Spend(g.auth.limits, usage, r), asked + 1)
  {
    hide HonestLedger;
  }

  lemma ShorterNoOverflow(g: Ledger, asks: seq<Ask>, k: nat)
    requires g.Valid() && NoOverflow(g, asks) && k <= |asks|
    ensures NoOverflow(g, asks[..k])
  {
    hide Overflows;
    assert forall i :: 0 <= i < k ==> asks[..k][..i] == asks[..i];
  }

  lemma FileFits(g: Ledger, invocation: string, prior: seq<Ask>, asks: seq<Ask>)
    requires g.Valid() && WithinCap(g, asks) && |prior| < |asks|
    requires FileMatches(g, FileAfter(g, invocation, prior), SpendAll(g.auth.limits, Requests(prior)), |prior|)
    ensures |FileAfter(g, invocation, prior)| <= MAX_EVENTS
  {
    hide HonestLedger;
    hide FileAfter;
  }

  /** What each backend says about the i-th request, given that no earlier one overflowed. */
  lemma VerdictsAt(g: Ledger, invocation: string, start: int, asks: seq<Ask>, i: nat)
    requires g.Valid() && invocation != "" && g.auth.InWindowMs(start)
    requires DistinctAsks(asks) && Timely(g, asks) && TimelyMs(g, asks) && Typed(asks) && WithinCap(g, asks)
    requires i < |asks| && NoOverflow(g, asks[..i])
    ensures var u := SpendAll(g.auth.limits, Requests(asks[..i]));
      && (RedisVerdict(g, invocation, start, asks, i) <==> Affordable(g.auth.limits, u, asks[i].request))
      && (FileVerdict(g, invocation, asks, i) <==>
            Affordable(g.auth.limits, u, asks[i].request) || Overflows(g.auth.limits, u, asks[i].request))
  {
    hide HonestLedger;
    hide AppendAccepts;
    var prior := asks[..i];
    assert asks[..i + 1][..i] == prior;
    RedisFollows(g, invocation, start, asks[..i + 1]);
    FileFollows(g, invocation, prior);
    hide Affordable;
    hide Overflows;
    hide ReserveScript;
    hide SpendAll;
    hide FileAfter;
    hide RedisAfter;
    hide FileMatches;
    FileFits(g, invocation, prior, asks);
    FileStep(g, invocation, FileAfter(g, invocation, prior), asks[i], SpendAll(g.auth.limits, Requests(prior)), |prior|);
  }

  /** Fed the same requests, with distinct IDs, in the window, within the record cap, and with
      nothing lost or revoked, the two ledgers give the same verdicts if and only if no request
      overflows the file ledger's output count; then every verdict is the abstract counter's and
      both end with exactly the usage it ends with. */
  lemma BackendsAgree(g: Ledger, invocation: string, start: int, asks: seq<Ask>)
    requires g.Valid() && invocation != "" && g.auth.InWindowMs(start)
    requires DistinctAsks(asks) && Timely(g, asks) && TimelyMs(g, asks) && Typed(asks) && WithinCap(g, asks)
    ensures (forall i :: 0 <= i < |asks| ==> (FileVerdict(g, invocation, asks, i) <==> RedisVerdict(g, invocation, start, asks, i)))
            <==> NoOverflow(g, asks)
    ensures NoOverflow(g, asks) ==>
      && (forall i :: 0 <= i < |asks| ==>
            (FileVerdict(g, invocation, asks, i) <==> Verdict(g.auth.limits, Requests(asks), i)))
      && RecordUsage(FileAfter(g, invocation, asks)) == SpendAll(g.auth.limits, Requests(asks))
      && HonestLedger(g, FileAfter(g, invocation, asks))
      && var s := RedisAfter(g, invocation, start, asks);
         s.state.Some? && s.state.value.usage == SpendAll(g.auth.limits, Requests(asks))
  {
    assert ValidLimits(g.auth.limits);
    hide *;
    if NoOverflow(g, asks) {
      forall i: nat | i < |asks|
        ensures FileVerdict(g, invocation, asks, i) <==> RedisVerdict(g, invocation, start, asks, i)
        ensures FileVerdict(g, invocation, asks, i) <==> Verdict(g.auth.limits, Requests(asks), i)
      {
        ShorterNoOverflow(g, asks, i);
        VerdictsAt(g, invocation, start, asks, i);
        NotHere(g, asks, i);
        CounterVerdict(g.auth.limits, asks, i);
      }
      FileFollows(g, invocation, asks);
      FinalFile(g, invocation, asks);
      RedisFollows(g, invocation, start, asks);
      FinalRedis(g, RedisAfter(g, invocation, start, asks), SpendAll(g.auth.limits, Requests(asks)));
    } else {
      var m := FirstOverflow(g, asks);
      VerdictsAt(g, invocation, start, asks, m);
      OverflowIsNotAffordable(g.auth.limits, SpendAll(g.auth.limits, Requests(asks[..m])), asks[m].request);
    }
  }

  lemma NotHere(g: Ledger, asks: seq<Ask>, i: nat)
    requires g.Valid() && NoOverflow(g, asks) && i < |asks|
    ensures !Overflows(g.auth.limits, SpendAll(g.auth.limits, Requests(asks[..i])), asks[i].request)
  {
  }

  lemma CounterVerdict(l: Limits, asks: seq<Ask>, i: nat)
    requires ValidLimits(l) && i < |asks|
    ensures Verdict(l, Requests(asks), i) == Affordable(l, SpendAll(l, Requests(asks[..i])), asks[i].request)
  {
    assert Requests(asks)[..i] == Requests(asks[..i]);
  }

  lemma FinalFile(g: Ledger, invocation: string, asks: seq<Ask>)
    requires g.Valid()
    requires FileMatches(g, FileAfter(g, invocation, asks), SpendAll(g.auth.limits, Requests(asks)), |asks|)
    ensures HonestLedger(g, FileAfter(g, invocation, asks))
    ensures RecordUsage(FileAfter(g, invocation, asks)) == SpendAll(g.auth.limits, Requests(asks))
  {
  }

  lemma FinalRedis(g: Ledger, s: Store, u: Usage)
    requires Live(g, s, u)
    ensures s.state.Some? && s.state.value.usage == u
  {
  }

  lemma OverflowIsNotAffordable(l: Limits, u: Usage, r: Request)
    requires ValidLimits(l) && Overflows(l, u, r)
    ensures !Affordable(l, u, r)
  {
  }

  lemma NoOverflowSnoc(g: Ledger, asks: seq<Ask>)
    requires g.Valid() && asks != []
    ensures var prior := asks[..|asks| - 1];
      NoOverflow(g, asks) <==>
        && NoOverflow(g, prior)
        && !Overflows(g.auth.limits, SpendAll(g.auth.limits, Requests(prior)), asks[|asks| - 1].request)
  {
    hide Overflows;
    hide SpendAll;
    hide Requests;
    var prior := asks[..|asks| - 1];
    assert forall i :: 0 <= i < |prior| ==> prior[..i] == asks[..i] && prior[i] == asks[i];
  }

  lemma NothingOverflowsYet(g: Ledger)
    requires g.Valid()
    ensures NoOverflow(g, [])
  {
  }

  lemma {:induction false} FirstOverflow(g: Ledger, asks: seq<Ask>) returns (m: nat)
    requires g.Valid() && !NoOverflow(g, asks)
    ensures m < |asks| && NoOverflow(g, asks[..m])
    ensures Overflows(g.auth.limits, SpendAll(g.auth.limits, Requests(asks[..m])), asks[m].request)
  {
    hide *;
    if asks == [] {
      NothingOverflowsYet(g);
      assert false;
    }
    NoOverflowSnoc(g, asks);
    var prior := asks[..|asks| - 1];
    if NoOverflow(g, prior) {
      m := |asks| - 1;
    } else {
      m := FirstOverflow(g, prior);
      assert prior[..m] == asks[..m];
    }
  }
}
