/** Which limits keep the shared directory readable whatever happens, and what the others lead to. */
module FileLimits {
  import opened Base
  import opened Numbered
  import opened RedisScripts
  import opened FileLedger
  import opened FileStore
  import opened FileRuns
  import opened FileSafety
  import opened Backends

  // ---- One process on its own ----

  /** One process makes one attempt from start to finish. */
  ghost function Solo(g: Ledger, s: System, job: Job): System {
    var listed := Next(g, Next(g, Next(g, s, Start(0, job)), BeginList(0)), EndList(0, s.files.Keys));
    Next(g, Next(g, Next(g, listed, LoadAndAdmit(0)), LinkFile(0)), Finish(0, false))
  }

  predicate Quiet(s: System) {
    0 in s.processes ==> s.processes[0].phase.Idle?
  }

  function With(s: System, proc: Process): System {
    s.(processes := s.processes[0 := proc])
  }

  lemma SoloLists(g: Ledger, s: System, job: Job)
    requires Quiet(s) && JobPossible(g, job)
    ensures Next(g, Next(g, Next(g, s, Start(0, job)), BeginList(0)), EndList(0, s.files.Keys)) ==
            With(s, Process(job, 0, Listed(s.files.Keys)))
  {
    hide JobPossible;
    var s1 := Next(g, s, Start(0, job));
    assert s1 == With(s, Process(job, 0, Begun));
    var s2 := Next(g, s1, BeginList(0));
    assert s2 == With(s, Process(job, 0, Listing(s.files.Keys)));
  }

  lemma WholeListing(g: Ledger, files: map<nat, Record>)
    requires Contiguous(files)
    ensures |files.Keys| == |files| && |View(files)| == |files|
    ensures LoadListing(g, files, files.Keys) ==
            if |files| <= MAX_EVENTS && HonestLedger(g, View(files)) then Some(View(files)) else None
  {
    hide HonestLedger;
  }

  lemma LoadNext(g: Ledger, s: System, proc: Process)
    requires 0 in s.processes && s.processes[0] == proc && proc.phase == Listed(s.files.Keys)
    ensures var prior := LoadListing(g, s.files, s.files.Keys);
      Next(g, s, LoadAndAdmit(0)) ==
      With(s, proc.(phase := if prior.None? || !Admits(g.auth.limits, RecordUsage(prior.value), Delta(proc.job.request))
                             then Idle else Ready(BuildFor(g, proc.job, prior.value), |s.files.Keys| + 1)))
  {
    hide LoadListing;
    hide Admits;
    hide BuildFor;
    hide RecordUsage;
  }

  lemma WithTwice(s: System, proc: Process, next: Process)
    ensures With(With(s, proc), next) == With(s, next)
    ensures With(s, proc).files == s.files && 0 in With(s, proc).processes && With(s, proc).processes[0] == proc
  {
  }

  lemma SoloLoads(g: Ledger, s: System, job: Job)
    requires Contiguous(s.files)
    ensures var rs := View(s.files);
      var before := With(s, Process(job, 0, Listed(s.files.Keys)));
      var ok := |rs| <= MAX_EVENTS && HonestLedger(g, rs) && Admits(g.auth.limits, RecordUsage(rs), Delta(job.request));
      Next(g, before, LoadAndAdmit(0)) ==
      With(s, Process(job, 0, if ok then Ready(BuildFor(g, job, rs), |rs| + 1) else Idle))
  {
    hide *;
    var proc, rs := Process(job, 0, Listed(s.files.Keys)), View(s.files);
    var ok := |rs| <= MAX_EVENTS && HonestLedger(g, rs) && Admits(g.auth.limits, RecordUsage(rs), Delta(job.request));
    WithTwice(s, proc, Process(job, 0, if ok then Ready(BuildFor(g, job, rs), |rs| + 1) else Idle));
    WholeListing(g, s.files);
    LoadNext(g, With(s, proc), proc);
  }

  lemma SoloFinishes(g: Ledger, s: System, job: Job, record: Record, number: nat)
    requires number !in s.files
    ensures Next(g, Next(g, With(s, Process(job, 0, Ready(record, number))), LinkFile(0)), Finish(0, false)) ==
            With(s, Process(job, 0, Idle)).(files := s.files[number := record])
  {
    var s1 := Next(g, With(s, Process(job, 0, Ready(record, number))), LinkFile(0));
    assert s1 == With(s, Process(job, 0, Linked(number))).(files := s.files[number := record]);
  }

  lemma SoloIdles(g: Ledger, s: System, job: Job)
    ensures var idle := With(s, Process(job, 0, Idle));
      Next(g, Next(g, idle, LinkFile(0)), Finish(0, false)) == idle
  {
  }

  lemma AcceptsParts(g: Ledger, rs: seq<Record>, job: Job)
    requires JobPossible(g, job)
    ensures AppendAccepts(g, rs, job.request, job.now) <==>
            |rs| <= MAX_EVENTS && HonestLedger(g, rs) && Admits(g.auth.limits, RecordUsage(rs), Delta(job.request))
  {
    hide HonestLedger;
    hide Admits;
  }

  /** An attempt on its own does exactly what the sequential ledger does. */
  lemma SoloResult(g: Ledger, s: System, job: Job)
    requires Contiguous(s.files) && Quiet(s) && JobPossible(g, job)
    ensures var s', rs := Solo(g, s, job), View(s.files);
      && Quiet(s') && Contiguous(s'.files)
      && View(s'.files) == if AppendAccepts(g, rs, job.request, job.now) then rs + [BuildFor(g, job, rs)] else rs
  {
    hide *;
    var rs := View(s.files);
    var record := BuildFor(g, job, rs);
    ViewSize(s.files);
    Beyond(s.files, |rs| + 1);
    SoloLists(g, s, job);
    SoloLoads(g, s, job);
    AcceptsParts(g, rs, job);
    SoloFinishes(g, s, job, record, |rs| + 1);
    SoloIdles(g, s, job);
    NextNumber(s.files, |rs| + 1, record);
    SoloIs(g, s, job);
    WithIdle(s, job);
    WithIdle(s.(files := s.files[|rs| + 1 := record]), job);
    assert With(s, Process(job, 0, Idle)).(files := s.files[|rs| + 1 := record]) ==
           With(s.(files := s.files[|rs| + 1 := record]), Process(job, 0, Idle)) by { WithFiles(s, job, s.files[|rs| + 1 := record]); }
  }

  lemma Beyond(files: map<nat, Record>, n: nat)
    requires Contiguous(files) && n == |files| + 1
    ensures n !in files
  {
    assert n !in Numbers(|files|);
  }

  lemma SoloIs(g: Ledger, s: System, job: Job)
    ensures var listed := Next(g, Next(g, Next(g, s, Start(0, job)), BeginList(0)), EndList(0, s.files.Keys));
      Solo(g, s, job) == Next(g, Next(g, Next(g, listed, LoadAndAdmit(0)), LinkFile(0)), Finish(0, false))
  {
    hide Next;
  }

  lemma WithIdle(s: System, job: Job)
    ensures Quiet(With(s, Process(job, 0, Idle))) && With(s, Process(job, 0, Idle)).files == s.files
  {
  }

  lemma WithFiles(s: System, job: Job, files: map<nat, Record>)
    ensures With(s, Process(job, 0, Idle)).(files := files) == With(s.(files := files), Process(job, 0, Idle))
  {
  }

  lemma RunSnoc(g: Ledger, actions: seq<Action>, a: Action)
    ensures Run(g, actions + [a]) == Next(g, Run(g, actions), a)
  {
    hide Next;
    assert (actions + [a])[..|actions|] == actions;
  }

  lemma SoloRun(g: Ledger, actions: seq<Action>, job: Job) returns (longer: seq<Action>)
    ensures Run(g, longer) == Solo(g, Run(g, actions), job)
  {
    hide Next;
    hide Run;
    var names := Run(g, actions).files.Keys;
    var a1 := actions + [Start(0, job)];
    var a2 := a1 + [BeginList(0)];
    var a3 := a2 + [EndList(0, names)];
    var a4 := a3 + [LoadAndAdmit(0)];
    var a5 := a4 + [LinkFile(0)];
    longer := a5 + [Finish(0, false)];
    RunSnoc(g, actions, Start(0, job));
    RunSnoc(g, a1, BeginList(0));
    RunSnoc(g, a2, EndList(0, names));
    RunSnoc(g, a3, LoadAndAdmit(0));
    RunSnoc(g, a4, LinkFile(0));
    RunSnoc(g, a5, Finish(0, false));
  }

  lemma StartsEmpty(g: Ledger, invocation: string)
    ensures Quiet(Run(g, [])) && Contiguous(Run(g, []).files)
    ensures View(Run(g, []).files) == FileAfter(g, invocation, [])
  {
  }

  function JobOf(invocation: string, a: Ask): Job {
    Job(invocation, a.request, a.subject, a.at)
  }

  lemma AskIsPossible(g: Ledger, invocation: string, asks: seq<Ask>)
    requires invocation != "" && Timely(g, asks) && Typed(asks) && asks != []
    ensures JobPossible(g, JobOf(invocation, asks[|asks| - 1]))
    ensures Timely(g, asks[..|asks| - 1]) && Typed(asks[..|asks| - 1])
  {
  }

  lemma FileAfterSnoc(g: Ledger, invocation: string, asks: seq<Ask>)
    requires asks != []
    ensures var rs, job := FileAfter(g, invocation, asks[..|asks| - 1]), JobOf(invocation, asks[|asks| - 1]);
      FileAfter(g, invocation, asks) ==
      if AppendAccepts(g, rs, job.request, job.now) then rs + [BuildFor(g, job, rs)] else rs
  {
    hide AppendAccepts;
  }

  /** Everything the sequential ledger does is a run of the shared directory. */
  lemma {:induction false} SequentialIsARun(g: Ledger, invocation: string, asks: seq<Ask>) returns (actions: seq<Action>)
    requires invocation != "" && Timely(g, asks) && Typed(asks)
    ensures Quiet(Run(g, actions)) && Contiguous(Run(g, actions).files)
    ensures View(Run(g, actions).files) == FileAfter(g, invocation, asks)
  {
    hide *;
    if asks == [] {
      actions := [];
      StartsEmpty(g, invocation);
    } else {
      AskIsPossible(g, invocation, asks);
      var before := SequentialIsARun(g, invocation, asks[..|asks| - 1]);
      var job := JobOf(invocation, asks[|asks| - 1]);
      actions := SoloRun(g, before, job);
      SoloResult(g, Run(g, before), job);
      FileAfterSnoc(g, invocation, asks);
    }
  }

  // ---- Too many records ----

  /** Free calls until the call limit, then free runs. */
  function FreeAsks(g: Ledger, n: nat): (asks: seq<Ask>)
    ensures |asks| == n
  {
    if n == 0 then []
    else FreeAsks(g, n - 1) + [Ask(if n <= g.auth.limits.calls then CallRequest(0) else RunRequest(0), "", "", "", g.auth.issuedAt)]
  }

  function FreeUsage(g: Ledger, n: int): Usage {
    if n <= g.auth.limits.calls then Usage(0, n, 0, 0) else Usage(n - g.auth.limits.calls, g.auth.limits.calls, 0, 0)
  }

  lemma FreeAsksSnoc(g: Ledger, n: nat)
    requires n > 0
    ensures FreeAsks(g, n)[..n - 1] == FreeAsks(g, n - 1)
    ensures var a := FreeAsks(g, n)[n - 1];
      a.request == (if n <= g.auth.limits.calls then CallRequest(0) else RunRequest(0)) && a.at == g.auth.issuedAt
  {
  }

  lemma FreeSpend(g: Ledger, n: nat, r: Request)
    requires g.Valid() && 0 < n <= g.auth.limits.runs + g.auth.limits.calls
    requires r == if n <= g.auth.limits.calls then CallRequest(0) else RunRequest(0)
    ensures Spend(g.auth.limits, FreeUsage(g, n - 1), r) == FreeUsage(g, n)
    ensures !Overflows(g.auth.limits, FreeUsage(g, n - 1), r)
    ensures TypedRequest(r) && g.auth.InWindow(g.auth.issuedAt) && ValidLimits(g.auth.limits)
  {
  }

  lemma AskSnoc(g: Ledger, asks: seq<Ask>)
    requires asks != [] && Timely(g, asks[..|asks| - 1]) && Typed(asks[..|asks| - 1])
    requires g.auth.InWindow(asks[|asks| - 1].at) && TypedRequest(asks[|asks| - 1].request)
    ensures Timely(g, asks) && Typed(asks)
  {
    hide TypedRequest;
  }

  lemma NoAsks(g: Ledger, asks: seq<Ask>)
    requires g.Valid() && asks == []
    ensures ValidLimits(g.auth.limits) && Timely(g, asks) && Typed(asks)
    ensures NoOverflow(g, asks) && SpendAll(g.auth.limits, Requests(asks)) == FreeUsage(g, 0)
  {
  }

  lemma {:induction false} FreeAsksFit(g: Ledger, n: nat)
    requires g.Valid() && n <= g.auth.limits.runs + g.auth.limits.calls
    ensures ValidLimits(g.auth.limits) && Timely(g, FreeAsks(g, n)) && Typed(FreeAsks(g, n)) && NoOverflow(g, FreeAsks(g, n))
    ensures SpendAll(g.auth.limits, Requests(FreeAsks(g, n))) == FreeUsage(g, n)
  {
    hide *;
    var asks := FreeAsks(g, n);
    if n == 0 {
      NoAsks(g, asks);
    } else {
      FreeAsksSnoc(g, n);
      FreeAsksFit(g, n - 1);
      FreeSpend(g, n, asks[n - 1].request);
      AskSnoc(g, asks);
      SpendSnoc(g.auth.limits, asks);
      NoOverflowSnoc(g, asks);
    }
  }

  lemma FreeTotal(g: Ledger, n: nat)
    requires g.Valid()
    ensures FreeUsage(g, n).runs + FreeUsage(g, n).calls == n
  {
  }

  /** When the limits allow more records than loading does, honest use reaches one too many. */
  lemma CapIsReached(g: Ledger) returns (actions: seq<Action>)
    requires g.Valid() && g.auth.limits.runs + g.auth.limits.calls > MAX_EVENTS
    ensures var files := Run(g, actions).files;
      Contiguous(files) && |files| == MAX_EVENTS + 1 && HonestLedger(g, View(files))
  {
    var n: nat := MAX_EVENTS + 1;
    var asks := FreeAsks(g, n);
    hide *;
    FreeAsksFit(g, n);
    FreeTotal(g, n);
    CapFits(g, asks);
    InvocationNamed();
    actions := SequentialIsARun(g, "invocation", asks);
    FileFollows(g, "invocation", asks);
    AllSpent(g, FileAfter(g, "invocation", asks), SpendAll(g.auth.limits, Requests(asks)), |asks|);
    ViewSize(Run(g, actions).files);
  }

  lemma InvocationNamed()
    ensures "invocation" != ""
  {
  }

  lemma CapFits(g: Ledger, asks: seq<Ask>)
    requires g.Valid() && |asks| <= MAX_EVENTS + 1
    ensures WithinCap(g, asks) && ValidLimits(g.auth.limits) && g.auth.limits.calls <= MAX_EVENTS
  {
  }

  lemma AllSpent(g: Ledger, rs: seq<Record>, usage: Usage, asked: nat)
    requires FileMatches(g, rs, usage, asked)
    ensures HonestLedger(g, rs) && |rs| == usage.runs + usage.calls
  {
    hide HonestLedger;
  }

  /** Whatever run led to an honest ledger one record past the cap: nothing more is accepted, and
      budget is left exactly when the limits allow still more. */
  lemma CapStrandsBudget(g: Ledger, actions: seq<Action>)
    requires g.Valid() && |Run(g, actions).files| == MAX_EVENTS + 1
    requires Contiguous(Run(g, actions).files) && HonestLedger(g, View(Run(g, actions).files))
    ensures var rs := View(Run(g, actions).files);
      && (forall r, t :: !AppendAccepts(g, rs, r, t))
      && ((exists r :: Affordable(g.auth.limits, RecordUsage(rs), r)) <==>
            g.auth.limits.runs + g.auth.limits.calls >= MAX_EVENTS + 2)
  {
    hide *;
    ReadsBack(g, actions);
    var rs := View(Run(g, actions).files);
    ViewSize(Run(g, actions).files);
    HonestWithin(g, rs);
    PastCapRefuses(g, rs);
    SomethingLeft(g.auth.limits, RecordUsage(rs));
  }

  lemma PastCapRefuses(g: Ledger, rs: seq<Record>)
    requires |rs| > MAX_EVENTS
    ensures forall r, t :: !AppendAccepts(g, rs, r, t)
  {
  }

  /** Something is affordable exactly when a free run or a free call is. */
  lemma SomethingLeft(l: Limits, u: Usage)
    requires Within(u, l)
    ensures (exists r :: Affordable(l, u, r)) <==> u.runs + u.calls < l.runs + l.calls
  {
    if u.runs < l.runs {
      assert Affordable(l, u, RunRequest(0));
    } else if u.calls < l.calls {
      assert Affordable(l, u, CallRequest(0));
    }
  }

  // ---- Too many outputs ----

  /** One captured output, then as many as a machine integer holds. */
  function OverflowAsks(g: Ledger): seq<Ask> {
    [Ask(RunRequest(1), "", "", "", g.auth.issuedAt), Ask(RunRequest(MAX_INT64), "", "", "", g.auth.issuedAt)]
  }

  lemma OneAsk(g: Ledger, a: Ask)
    ensures FileAfter(g, "invocation", [a]) ==
            if AppendAccepts(g, [], a.request, a.at)
            then [BuildRecord(g, "invocation", [], a.request, a.subject, a.at)] else []
  {
    hide AppendAccepts;
    hide BuildRecord;
    var asks := [a];
    assert asks[..|asks| - 1] == [] && asks[|asks| - 1] == a;
  }

  lemma FirstOutput(g: Ledger, a: Ask)
    requires g.Valid() && a.request == RunRequest(1) && a.at == g.auth.issuedAt
    requires g.auth.limits.runs >= 2 && g.auth.limits.outputs >= 1
    ensures var rs := [BuildRecord(g, "invocation", [], a.request, a.subject, a.at)];
      && FileAfter(g, "invocation", [a]) == rs && HonestLedger(g, rs) && RecordUsage(rs) == Usage(1, 0, 1, 0)
  {
    hide *;
    var r := BuildRecord(g, "invocation", [], a.request, a.subject, a.at);
    NoRecords(g, []);
    OneAsk(g, a);
    FirstFits(g, a);
    InvocationNamed();
    BuildKeepsHonest(g, "invocation", [], a.request, a.subject, a.at);
    UsageSnoc([], r);
    assert [] + [r] == [r];
  }

  lemma FirstFits(g: Ledger, a: Ask)
    requires g.Valid() && a.request == RunRequest(1) && a.at == g.auth.issuedAt && RecordUsage([]) == ZERO
    requires g.auth.limits.runs >= 2 && g.auth.limits.outputs >= 1 && HonestLedger(g, [])
    ensures AppendAccepts(g, [], a.request, a.at) && TypedRequest(a.request) && g.auth.InWindow(a.at)
    ensures Admits(g.auth.limits, RecordUsage([]), Delta(a.request)) && FitsCounter(g.auth.limits, a.request)
    ensures var r := BuildRecord(g, "invocation", [], a.request, a.subject, a.at);
      Plus(RecordUsage([]), r.payload.delta) == Usage(1, 0, 1, 0)
  {
    hide HonestLedger;
    hide RecordUsage;
  }

  lemma TwoAsks(g: Ledger, a: Ask, b: Ask)
    ensures var rs := FileAfter(g, "invocation", [a]);
      FileAfter(g, "invocation", [a, b]) ==
      if AppendAccepts(g, rs, b.request, b.at)
      then rs + [BuildRecord(g, "invocation", rs, b.request, b.subject, b.at)] else rs
  {
    hide AppendAccepts;
    hide BuildRecord;
    var asks := [a, b];
    assert asks[..|asks| - 1] == [a] && asks[|asks| - 1] == b;
  }

  lemma SecondOverflows(g: Ledger, rs: seq<Record>, b: Ask)
    requires g.Valid() && HonestLedger(g, rs) && RecordUsage(rs) == Usage(1, 0, 1, 0) && |rs| <= MAX_EVENTS
    requires b.request == RunRequest(MAX_INT64) && b.at == g.auth.issuedAt && g.auth.limits.runs >= 2
    ensures AppendAccepts(g, rs, b.request, b.at)
    ensures RecordUsage(rs + [BuildRecord(g, "invocation", rs, b.request, b.subject, b.at)]).outputs > MAX_INT64
  {
    hide HonestLedger;
    hide RecordUsage;
    OverflowLosesLedger(g, rs, MAX_INT64, "invocation", b.subject, b.at);
    UsageSnoc(rs, BuildRecord(g, "invocation", rs, b.request, b.subject, b.at));
  }

  lemma OverflowTyped(g: Ledger)
    requires g.Valid()
    ensures Timely(g, OverflowAsks(g)) && Typed(OverflowAsks(g))
  {
  }

  /** Two runs suffice to overflow the output sum, when two runs and one output are allowed. */
  lemma OverflowIsReached(g: Ledger) returns (actions: seq<Action>)
    requires g.Valid() && g.auth.limits.runs >= 2 && g.auth.limits.outputs >= 1
    ensures var files := Run(g, actions).files;
      Contiguous(files) && RecordUsage(View(files)).outputs > MAX_INT64
  {
    var a, b := OverflowAsks(g)[0], OverflowAsks(g)[1];
    assert OverflowAsks(g) == [a, b];
    OverflowTyped(g);
    FirstOutput(g, a);
    hide *;
    InvocationNamed();
    actions := SequentialIsARun(g, "invocation", [a, b]);
    TwoAsks(g, a, b);
    SecondOverflows(g, FileAfter(g, "invocation", [a]), b);
  }

  lemma {:induction false} OutputsNeedRuns(rs: seq<Record>)
    requires Shaped(rs)
    ensures RecordUsage(rs).runs >= 0 && (RecordUsage(rs).runs == 0 ==> RecordUsage(rs).outputs == 0)
  {
    if rs != [] {
      OutputsNeedRuns(rs[..|rs| - 1]);
    }
  }

  lemma LastShaped(rs: seq<Record>)
    requires Shaped(rs) && rs != []
    ensures Shaped(rs[..|rs| - 1])
    ensures var d := rs[|rs| - 1].payload.delta; d.runs >= 0 && d.outputs >= 0 && (d.runs == 0 ==> d.outputs == 0)
    ensures rs[|rs| - 1].payload.delta.runs <= 1
  {
  }

  lemma OutputsFit(g: Ledger, rs: seq<Record>)
    requires g.Valid() && AlmostHonest(g, rs) && Shaped(rs)
    requires g.auth.limits.outputs == 0 || g.auth.limits.runs == 1
    ensures RecordUsage(rs).outputs <= MAX_INT64
  {
    hide AlmostHonest;
    AlmostFacts(g, rs);
    hide Shaped;
    if rs != [] {
      var prior, r := rs[..|rs| - 1], rs[|rs| - 1];
      assert rs == prior + [r];
      AlmostParts(g, rs);
      LastShaped(rs);
      hide HonestLedger;
      hide Chained;
      hide VerifiesRecord;
      HonestWithin(g, prior);
      OutputsNeedRuns(prior);
      UsageSnoc(prior, r);
      hide RecordUsage;
      hide Admits;
    }
  }

  // ---- The exact condition ----

  ghost predicate RunReloads(g: Ledger, actions: seq<Action>) {
    var files := Run(g, actions).files;
    Contiguous(files) && Reloads(files)
  }

  lemma AlwaysFits(g: Ledger, actions: seq<Action>)
    requires g.Valid() && g.auth.limits.runs + g.auth.limits.calls <= MAX_EVENTS
    requires g.auth.limits.outputs == 0 || g.auth.limits.runs == 1
    ensures RunReloads(g, actions)
  {
    hide *;
    Reachable(g, actions);
    var s := Run(g, actions);
    InvLedger(g, s);
    SharedLedgerIsSafe(g, actions);
    ReadsBack(g, actions);
    OutputsFit(g, View(s.files));
    ReloadsIff(s.files);
    RunReloadsIff(g, actions);
  }

  lemma RunReloadsIff(g: Ledger, actions: seq<Action>)
    requires Contiguous(Run(g, actions).files)
    ensures RunReloads(g, actions) <==> Reloads(Run(g, actions).files)
  {
    hide Run;
  }

  /** Exactly which limits keep the directory readable in every run: room for no more records than
      loading allows, and no way to add up captured outputs over two runs. */
  lemma AlwaysReloads(g: Ledger)
    requires g.Valid()
    ensures (forall actions :: RunReloads(g, actions)) <==>
            && g.auth.limits.runs + g.auth.limits.calls <= MAX_EVENTS
            && (g.auth.limits.outputs == 0 || g.auth.limits.runs == 1)
  {
    var l := g.auth.limits;
    assert ValidLimits(l);
    assert 1 <= l.runs && 0 <= l.outputs;
    hide *;
    if l.runs + l.calls > MAX_EVENTS {
      var actions := CapIsReached(g);
      ReloadsIff(Run(g, actions).files);
      RunReloadsIff(g, actions);
      assert !RunReloads(g, actions);
    } else if l.outputs >= 1 && l.runs >= 2 {
      var actions := OverflowIsReached(g);
      ReloadsIff(Run(g, actions).files);
      RunReloadsIff(g, actions);
      assert !RunReloads(g, actions);
    } else {
      forall actions ensures RunReloads(g, actions) {
        AlwaysFits(g, actions);
      }
    }
  }
}
