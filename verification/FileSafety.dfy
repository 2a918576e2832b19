/** What every run of every number of processes guarantees about the shared directory. */
module FileSafety {
  import opened Base
  import opened Numbered
  import opened RedisScripts
  import opened FileLedger
  import opened FileStore
  import opened FileRuns

  // ---- Provider calls are paid for ----

  function CallsUsage(files: map<nat, Record>, calls: seq<nat>): Usage
    requires forall i :: 0 <= i < |calls| ==> calls[i] in files
  {
    if calls == [] then ZERO
    else Plus(CallsUsage(files, calls[..|calls| - 1]), files[calls[|calls| - 1]].payload.delta)
  }

  /** The usage of the records whose numbers are in a set. */
  function Chosen(rs: seq<Record>, numbers: set<nat>): Usage {
    if rs == [] then ZERO
    else
      var rest := Chosen(rs[..|rs| - 1], numbers);
      if |rs| in numbers then Plus(rest, rs[|rs| - 1].payload.delta) else rest
  }

  lemma {:induction false} ChosenIsPart(rs: seq<Record>, numbers: set<nat>)
    requires Shaped(rs)
    ensures NonNegative(Chosen(rs, numbers))
    ensures Chosen(rs, numbers).calls <= RecordUsage(rs).calls && Chosen(rs, numbers).cost <= RecordUsage(rs).cost
  {
    if rs != [] {
      ChosenIsPart(rs[..|rs| - 1], numbers);
    }
  }

  lemma {:induction false} ChooseOneMore(rs: seq<Record>, numbers: set<nat>, n: nat)
    requires n !in numbers
    ensures Chosen(rs, numbers + {n}) ==
            if 1 <= n <= |rs| then Plus(Chosen(rs, numbers), rs[n - 1].payload.delta) else Chosen(rs, numbers)
  {
    if rs != [] {
      ChooseOneMore(rs[..|rs| - 1], numbers, n);
    }
  }

  lemma {:induction false} CallsAreChosen(files: map<nat, Record>, calls: seq<nat>, numbers: set<nat>)
    requires Contiguous(files) && CallsOk(files, calls) && forall n :: n in numbers <==> n in calls
    ensures CallsUsage(files, calls) == Chosen(View(files), numbers)
    ensures CallsUsage(files, calls).calls == |calls|
  {
    if calls == [] {
      NothingChosen(View(files), numbers);
    } else {
      hide View;
      var prior, last := calls[..|calls| - 1], calls[|calls| - 1];
      CallsAreChosen(files, prior, numbers - {last});
      ChooseOneMore(View(files), numbers - {last}, last);
      assert numbers - {last} + {last} == numbers;
      ViewAt(files, last);
    }
  }

  lemma {:induction false} NothingChosen(rs: seq<Record>, numbers: set<nat>)
    requires numbers == {}
    ensures Chosen(rs, numbers) == ZERO
  {
    if rs != [] {
      NothingChosen(rs[..|rs| - 1], numbers);
    }
  }

  lemma CallsArePaid(g: Ledger, s: System)
    requires g.Valid() && Inv(g, s)
    ensures |s.calls| <= g.auth.limits.calls && CallsUsage(s.files, s.calls).cost <= g.auth.limits.cost
  {
    hide AlmostHonest;
    hide CallsOk;
    var rs := View(s.files);
    AlmostFacts(g, rs);
    var numbers := set c | c in s.calls;
    CallsAreChosen(s.files, s.calls, numbers);
    ChosenIsPart(rs, numbers);
  }

  lemma InvLedger(g: Ledger, s: System)
    requires Inv(g, s)
    ensures Contiguous(s.files) && AlmostHonest(g, View(s.files)) && Shaped(View(s.files))
    ensures |s.files| <= MAX_EVENTS + 1 && CallsOk(s.files, s.calls)
  {
    hide AlmostHonest;
    hide CallsOk;
    hide Shaped;
    hide ProcessOk;
  }

  lemma AllButLast(g: Ledger, rs: seq<Record>)
    requires AlmostHonest(g, rs)
    ensures rs != [] ==> HonestLedger(g, rs[..|rs| - 1])
  {
  }

  /** For every interleaving of every number of processes asking for anything, with stale listings,
      lost races and crashes anywhere: the directory is a gap-free verified chain; its runs, calls
      and cost are within the limits, and so are the provider calls made; every record before the
      last makes an honest ledger, and the whole does if and only if its output sum fits. */
  lemma SharedLedgerIsSafe(g: Ledger, actions: seq<Action>)
    requires g.Valid()
    ensures var s := Run(g, actions);
      && Contiguous(s.files)
      && var rs := View(s.files);
         && Chained(g, rs)
         && RecordUsage(rs).runs <= g.auth.limits.runs && RecordUsage(rs).calls <= g.auth.limits.calls
         && RecordUsage(rs).cost <= g.auth.limits.cost && NonNegative(RecordUsage(rs))
         && CallsOk(s.files, s.calls) && |s.calls| <= g.auth.limits.calls
         && CallsUsage(s.files, s.calls).cost <= g.auth.limits.cost
         && (rs != [] ==> HonestLedger(g, rs[..|rs| - 1]))
         && (HonestLedger(g, rs) <==> RecordUsage(rs).outputs <= MAX_INT64)
  {
    hide *;
    Reachable(g, actions);
    var s := Run(g, actions);
    InvLedger(g, s);
    CallsArePaid(g, s);
    CallsThere(s.files, s.calls);
    AlmostFacts(g, View(s.files));
    AllButLast(g, View(s.files));
  }

  lemma CallsThere(files: map<nat, Record>, calls: seq<nat>)
    requires CallsOk(files, calls)
    ensures forall i :: 0 <= i < |calls| ==> calls[i] in files
  {
  }

  lemma LinkAdds(g: Ledger, s: System, p: nat)
    requires Next(g, s, LinkFile(p)).files != s.files
    ensures p in s.processes && s.processes[p].phase.Ready? && s.processes[p].phase.number !in s.files
    ensures Next(g, s, LinkFile(p)).files == s.files[s.processes[p].phase.number := s.processes[p].phase.record]
  {
  }

  lemma BuildForIs(g: Ledger, job: Job, prior: seq<Record>)
    ensures BuildFor(g, job, prior) == BuildRecord(g, job.invocation, prior, job.request, job.subject, job.now)
  {
    hide BuildRecord;
  }

  lemma BuiltOnLast(g: Ledger, job: Job, prior: seq<Record>)
    ensures BuildFor(g, job, prior).payload.previous == PreviousSha(prior, |prior|)
    ensures BuildFor(g, job, prior).payload.sequence == |prior| + 1
  {
  }

  lemma AffordableIff(g: Ledger, prior: seq<Record>, request: Request)
    requires g.Valid() && HonestLedger(g, prior) && TypedRequest(request)
    requires Admits(g.auth.limits, RecordUsage(prior), Delta(request))
    ensures Affordable(g.auth.limits, RecordUsage(prior), request) <==>
            RecordUsage(prior).outputs + Delta(request).outputs <= MAX_INT64
  {
    HonestWithin(g, prior);
    hide HonestLedger;
    hide RecordUsage;
    AdmitMeans(g.auth.limits, RecordUsage(prior), Delta(request));
  }

  lemma JobIsTyped(g: Ledger, job: Job)
    requires JobPossible(g, job)
    ensures TypedRequest(job.request)
  {
  }

  /** In every run, a link that succeeds was computed from the whole directory as it is at that
      moment, and the directory was then an honest ledger: the new record extends its last record
      and was admitted on top of all of it, affordably if and only if the output sum fits. */
  lemma StaleNeverCommits(g: Ledger, actions: seq<Action>, p: nat)
    requires g.Valid()
    requires Next(g, Run(g, actions), LinkFile(p)).files != Run(g, actions).files
    ensures var s := Run(g, actions);
      && Contiguous(s.files) && p in s.processes && s.processes[p].phase.Ready?
      && var job, record, all := s.processes[p].job, s.processes[p].phase.record, View(s.files);
         && HonestLedger(g, all) && record == BuildFor(g, job, all)
         && Carries(g, record, job.invocation, job.request, job.subject, job.now)
         && record.payload.previous == PreviousSha(all, |all|) && record.payload.sequence == |all| + 1
         && Admits(g.auth.limits, RecordUsage(all), Delta(job.request))
         && (Affordable(g.auth.limits, RecordUsage(all), job.request) <==>
               RecordUsage(all).outputs + Delta(job.request).outputs <= MAX_INT64)
         && Next(g, s, LinkFile(p)).files == s.files[|all| + 1 := record]
  {
    hide *;
    Reachable(g, actions);
    var s := Run(g, actions);
    LinkAdds(g, s, p);
    ReadyFacts(g, s, p);
    var proc := s.processes[p];
    ReadyRange(g, s.files, proc.job, proc.phase.record, proc.phase.number);
    NextNumber(s.files, proc.phase.number, proc.phase.record);
    LinkKeepsLedger(g, s.files, proc.job, proc.phase.record, proc.phase.number);
    BuiltOnLast(g, proc.job, View(s.files));
    BuildForIs(g, proc.job, View(s.files));
    BuildCarries(g, proc.job.invocation, View(s.files), proc.job.request, proc.job.subject, proc.job.now);
    ViewSize(s.files);
    JobIsTyped(g, proc.job);
    AffordableIff(g, View(s.files), proc.job.request);
  }

  // ---- Reading back ----

  lemma {:induction false} ShapedCounts(rs: seq<Record>)
    requires Shaped(rs)
    ensures RecordUsage(rs).runs + RecordUsage(rs).calls == |rs|
  {
    if rs != [] {
      ShapedCounts(rs[..|rs| - 1]);
    }
  }

  lemma LoadsExactly(g: Ledger, d: Directory, rs: seq<Record>)
    requires Holds(d, rs)
    ensures LoadsAs(g, d, if |rs| <= MAX_EVENTS && HonestLedger(g, rs) then Loaded(rs, RecordUsage(rs)) else LoadFailed)
  {
    hide HonestLedger;
    hide Holds;
    forall other | Holds(d, other) ensures other == rs {
      SameRecords(d, rs, other);
    }
  }

  /** Whether a directory loads: no more records than allowed, and an output sum that fits. */
  ghost predicate Reloads(files: map<nat, Record>)
    requires Contiguous(files)
  {
    |files| <= MAX_EVENTS && RecordUsage(View(files)).outputs <= MAX_INT64
  }

  /** Whatever the processes did, the directory reads back as exactly what was written, with its
      usage, if and only if it has at most 100,000 records and its output sum fits; it never has
      more than one record too many. */
  lemma ReadsBack(g: Ledger, actions: seq<Action>)
    requires g.Valid()
    ensures var files := Run(g, actions).files;
      && Contiguous(files) && |files| <= MAX_EVENTS + 1
      && LoadsAs(g, DirectoryOf(files),
                 if Reloads(files) then Loaded(View(files), RecordUsage(View(files))) else LoadFailed)
      && RecordUsage(View(files)).runs + RecordUsage(View(files)).calls == |files|
  {
    hide *;
    Reachable(g, actions);
    var s := Run(g, actions);
    InvLedger(g, s);
    var rs := View(s.files);
    DirectoryHolds(s.files);
    ViewSize(s.files);
    AlmostFacts(g, rs);
    LoadsExactly(g, DirectoryOf(s.files), rs);
    ShapedCounts(rs);
    ReloadsIff(s.files);
  }

  lemma ReloadsIff(files: map<nat, Record>)
    requires Contiguous(files)
    ensures Reloads(files) <==> |files| <= MAX_EVENTS && RecordUsage(View(files)).outputs <= MAX_INT64
  {
  }

  // ---- Where the machine's arithmetic bites ----

  /** If a run request's captured outputs overflow the counter, it is admitted and committed, and
      the directory it leaves is refused by every later load: the ledger is lost, not overspent. */
  lemma OverflowLosesLedger(g: Ledger, rs: seq<Record>, outputs: int, invocation: string, subject: string, now: int)
    requires g.Valid() && HonestLedger(g, rs) && |rs| <= MAX_EVENTS && invocation != "" && g.auth.InWindow(now)
    requires IsInt64(outputs) && RecordUsage(rs).outputs + outputs > MAX_INT64 && RecordUsage(rs).runs < g.auth.limits.runs
    ensures var next := BuildRecord(g, invocation, rs, RunRequest(outputs), subject, now);
      && AppendAccepts(g, rs, RunRequest(outputs), now)
      && !Within(RecordUsage(rs + [next]), g.auth.limits)
      && !HonestLedger(g, rs + [next])
      && forall r, t :: !AppendAccepts(g, rs + [next], r, t)
  {
    hide HonestLedger;
    var request := RunRequest(outputs);
    var next := BuildRecord(g, invocation, rs, request, subject, now);
    HonestWithin(g, rs);
    AdmitExactly(g.auth.limits, RecordUsage(rs), request);
    BuildKeepsHonest(g, invocation, rs, request, subject, now);
    UsageSnoc(rs, next);
  }
}
