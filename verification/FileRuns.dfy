/** Any number of processes on one ledger directory: stale listings, lost races, crashes.
    Each step is one system call or one local computation. */
module FileRuns {
  import opened Base
  import opened Numbered
  import opened RedisScripts
  import opened FileLedger
  import opened FileStore

  /** What a process is trying to reserve. */
  datatype Job = Job(invocation: string, request: Request, subject: string, now: int)

  datatype Phase =
    | Idle
    | Begun                                  // about to list the directory
    | Listing(seen: set<nat>)                // listing; these names were there when it began
    | Listed(names: set<nat>)
    | Ready(record: Record, number: nat)     // loaded, admitted and signed; about to link
    | Linked(number: nat)                    // linked; temporary file still there
    | Calling(number: nat)                   // reservation returned; provider call still to come

  datatype Process = Process(job: Job, attempt: nat, phase: Phase)

  /** The numbered files, the processes, and for each provider call made the reservation behind it. */
  datatype System = System(files: map<nat, Record>, processes: map<nat, Process>, calls: seq<nat>)

  datatype Action =
    | Start(p: nat, job: Job)
    | BeginList(p: nat)
    | EndList(p: nat, names: set<nat>)
    | LoadAndAdmit(p: nat)
    | LinkFile(p: nat)
    | Finish(p: nat, removed: bool)
    | CallProvider(p: nat)
    | Crash(p: nat)

  /** Loading a listing: its records, if the names are 1 to n, few enough, and an honest ledger. */
  ghost function LoadListing(g: Ledger, files: map<nat, Record>, names: set<nat>): Option<seq<Record>>
    requires names <= files.Keys
  {
    if names == Numbers(|names|) && |names| <= MAX_EVENTS && HonestLedger(g, FirstRecords(files, |names|))
    then Some(FirstRecords(files, |names|))
    else None
  }

  function BuildFor(g: Ledger, job: Job, prior: seq<Record>): Record {
    BuildRecord(g, job.invocation, prior, job.request, job.subject, job.now)
  }

  /** What a process can ask for at all: machine integers, inside the window. */
  predicate JobPossible(g: Ledger, job: Job) {
    job.invocation != "" && g.auth.InWindow(job.now) && TypedRequest(job.request)
  }

  /** What one process does next, given its phase. */
  ghost function Advance(g: Ledger, s: System, a: Action, proc: Process): System
    requires proc.phase.Listed? ==> proc.phase.names <= s.files.Keys
  {
    match (a, proc.phase)
    case (BeginList(p), Begun) => Move(s, p, proc, Listing(s.files.Keys))
    case (EndList(p, names), Listing(seen)) =>
      if seen <= names <= s.files.Keys then Move(s, p, proc, Listed(names)) else s
    case (LoadAndAdmit(p), Listed(names)) =>
      var prior := LoadListing(g, s.files, names);
      if prior.None? || !Admits(g.auth.limits, RecordUsage(prior.value), Delta(proc.job.request))
      then Move(s, p, proc, Idle)
      else Move(s, p, proc, Ready(BuildFor(g, proc.job, prior.value), |names| + 1))
    case (LinkFile(p), Ready(record, number)) =>
      if number !in s.files then
        Move(s, p, proc, Linked(number)).(files := s.files[number := record])
      else if proc.attempt + 1 < MAX_ATTEMPTS then Move(s, p, proc.(attempt := proc.attempt + 1), Begun)
      else Move(s, p, proc, Idle)
    case (Finish(p, removed), Linked(number)) =>
      Move(s, p, proc, if removed && proc.job.request.CallRequest? then Calling(number) else Idle)
    case (CallProvider(p), Calling(number)) => Move(s, p, proc, Idle).(calls := s.calls + [number])
    case _ => s
  }

  function Move(s: System, p: nat, proc: Process, phase: Phase): System {
    s.(processes := s.processes[p := proc.(phase := phase)])
  }

  /** One step. An action that does not fit the process's phase does nothing. */
  ghost function Next(g: Ledger, s: System, a: Action): System {
    if a.Start? then
      if (a.p in s.processes && !s.processes[a.p].phase.Idle?) || !JobPossible(g, a.job) then s
      else s.(processes := s.processes[a.p := Process(a.job, 0, Begun)])
    else if a.Crash? then s.(processes := s.processes - {a.p})
    else if a.p !in s.processes then s
    else
      var proc := s.processes[a.p];
      if proc.phase.Listed? && !(proc.phase.names <= s.files.Keys) then s else Advance(g, s, a, proc)
  }

  ghost function Run(g: Ledger, actions: seq<Action>): System {
    if actions == [] then System(map[], map[], [])
    else Next(g, Run(g, actions[..|actions| - 1]), actions[|actions| - 1])
  }

  // ---- The invariant ----

  ghost predicate Shaped(rs: seq<Record>) {
    forall i :: 0 <= i < |rs| ==> ReservationShape(rs[i].payload.eventType, rs[i].payload.delta)
  }

  /** A record that was admitted, in machine arithmetic, on top of the records before it. */
  ghost predicate Admitted(g: Ledger, prior: seq<Record>, r: Record) {
    && VerifiesRecord(g, r, |prior| + 1, PreviousSha(prior, |prior|)) && SmallDelta(r.payload.delta)
    && ReservationShape(r.payload.eventType, r.payload.delta)
    && Admits(g.auth.limits, RecordUsage(prior), r.payload.delta)
  }

  /** An honest ledger, but for a last record whose admission may have overflowed. */
  ghost predicate AlmostHonest(g: Ledger, rs: seq<Record>) {
    rs != [] ==> HonestLedger(g, rs[..|rs| - 1]) && Admitted(g, rs[..|rs| - 1], rs[|rs| - 1])
  }

  ghost predicate LedgerOk(g: Ledger, files: map<nat, Record>) {
    && Contiguous(files)
    && AlmostHonest(g, View(files)) && Shaped(View(files)) && |files| <= MAX_EVENTS + 1
  }

  predicate Owns(proc: Process, number: nat) {
    (proc.phase.Linked? && proc.phase.number == number) || (proc.phase.Calling? && proc.phase.number == number)
  }

  /** A record ready to be linked was built and admitted on an honest prefix of what is now there. */
  ghost predicate ReadyOk(g: Ledger, files: map<nat, Record>, job: Job, record: Record, number: nat)
    requires Contiguous(files)
  {
    && 1 <= number <= |files| + 1 && number <= MAX_EVENTS + 1
    && var prior := View(files)[..number - 1];
       && HonestLedger(g, prior) && record == BuildFor(g, job, prior)
       && Admits(g.auth.limits, RecordUsage(prior), Delta(job.request))
  }

  ghost predicate ProcessOk(g: Ledger, files: map<nat, Record>, calls: seq<nat>, proc: Process)
    requires Contiguous(files)
  {
    && JobPossible(g, proc.job)
    && match proc.phase
       case Listing(seen) => seen <= files.Keys
       case Listed(names) => names <= files.Keys
       case Ready(record, number) => ReadyOk(g, files, proc.job, record, number)
       case Linked(number) => number in files && number !in calls && files[number].payload.delta == Delta(proc.job.request)
       case Calling(number) =>
         && number in files && number !in calls && proc.job.request.CallRequest?
         && files[number].payload.delta == Delta(proc.job.request)
       case _ => true
  }

  ghost predicate CallsOk(files: map<nat, Record>, calls: seq<nat>) {
    && (forall i, j :: 0 <= i < j < |calls| ==> calls[i] != calls[j])
    && (forall i :: 0 <= i < |calls| ==> calls[i] in files && files[calls[i]].payload.delta.calls == 1)
  }

  ghost predicate OwnersDistinct(processes: map<nat, Process>) {
    forall p, q, n :: p in processes && q in processes && p != q && Owns(processes[p], n) ==> !Owns(processes[q], n)
  }

  ghost predicate Inv(g: Ledger, s: System) {
    && LedgerOk(g, s.files)
    && (forall p :: p in s.processes ==> ProcessOk(g, s.files, s.calls, s.processes[p]))
    && OwnersDistinct(s.processes)
    && CallsOk(s.files, s.calls)
  }

  // ---- Steps that leave the files alone ----

  lemma MoveKeeps(g: Ledger, s: System, p: nat, proc: Process)
    requires Inv(g, s) && ProcessOk(g, s.files, s.calls, proc)
    requires forall n :: Owns(proc, n) ==> p in s.processes && Owns(s.processes[p], n)
    ensures Inv(g, s.(processes := s.processes[p := proc]))
  {
    hide LedgerOk;
    hide ProcessOk;
    hide Owns;
  }

  lemma ListingIsPrefix(g: Ledger, files: map<nat, Record>, names: set<nat>)
    requires Contiguous(files) && names <= files.Keys && LoadListing(g, files, names).Some?
    ensures |names| <= |files| && |names| <= MAX_EVENTS
    ensures LoadListing(g, files, names).value == View(files)[..|names|]
    ensures HonestLedger(g, LoadListing(g, files, names).value)
  {
    hide HonestLedger;
    SubsetSize(names, files.Keys);
  }

  lemma LoadKeeps(g: Ledger, s: System, p: nat)
    requires Inv(g, s) && p in s.processes && s.processes[p].phase.Listed?
    ensures Inv(g, Next(g, s, LoadAndAdmit(p)))
  {
    hide HonestLedger;
    hide LoadListing;
    hide View;
    hide Admits;
    hide BuildFor;
    hide TypedRequest;
    var proc := s.processes[p];
    var names := proc.phase.names;
    assert ProcessOk(g, s.files, s.calls, proc);
    var prior := LoadListing(g, s.files, names);
    if prior.Some? && Admits(g.auth.limits, RecordUsage(prior.value), Delta(proc.job.request)) {
      ListingIsPrefix(g, s.files, names);
      var ready := Ready(BuildFor(g, proc.job, prior.value), |names| + 1);
      MoveKeeps(g, s, p, proc.(phase := ready));
    } else {
      MoveKeeps(g, s, p, proc.(phase := Idle));
    }
  }

  lemma CallOthers(
    g: Ledger, files: map<nat, Record>, calls: seq<nat>, number: nat, other: Process)
    requires Contiguous(files) && ProcessOk(g, files, calls, other) && !Owns(other, number)
    ensures ProcessOk(g, files, calls + [number], other)
  {
    hide JobPossible;
    hide ReadyOk;
    hide Contiguous;
  }

  lemma IdleOk(g: Ledger, files: map<nat, Record>, calls: seq<nat>, proc: Process)
    requires Contiguous(files) && JobPossible(g, proc.job)
    ensures ProcessOk(g, files, calls, proc.(phase := Idle))
  {
    hide JobPossible;
  }

  lemma CallMade(files: map<nat, Record>, calls: seq<nat>, number: nat)
    requires CallsOk(files, calls) && number in files && number !in calls && files[number].payload.delta.calls == 1
    ensures CallsOk(files, calls + [number])
  {
    var all := calls + [number];
    assert all[|calls|] == number && forall i :: 0 <= i < |calls| ==> all[i] == calls[i];
  }

  lemma IdleOwnsNothing(processes: map<nat, Process>, p: nat, proc: Process)
    requires OwnersDistinct(processes) && proc.phase.Idle?
    ensures OwnersDistinct(processes[p := proc])
  {
  }

  lemma CallKeeps(g: Ledger, s: System, p: nat)
    requires Inv(g, s) && p in s.processes && s.processes[p].phase.Calling?
    ensures Inv(g, Next(g, s, CallProvider(p)))
  {
    hide LedgerOk;
    hide JobPossible;
    hide ReadyOk;
    hide Contiguous;
    var proc := s.processes[p];
    var number := proc.phase.number;
    LedgerContiguous(g, s.files);
    assert ProcessOk(g, s.files, s.calls, proc) && Owns(proc, number);
    forall q | q in s.processes && q != p ensures ProcessOk(g, s.files, s.calls + [number], s.processes[q]) {
      CallOthers(g, s.files, s.calls, number, s.processes[q]);
    }
    IdleOk(g, s.files, s.calls + [number], proc);
    CallMade(s.files, s.calls, number);
    IdleOwnsNothing(s.processes, p, proc.(phase := Idle));
    hide ProcessOk;
    hide OwnersDistinct;
    hide CallsOk;
  }

  // ---- The link step ----

  lemma BuiltIsAdmitted(g: Ledger, job: Job, prior: seq<Record>)
    requires g.Valid() && JobPossible(g, job) && Admits(g.auth.limits, RecordUsage(prior), Delta(job.request))
    ensures Admitted(g, prior, BuildFor(g, job, prior))
    ensures BuildFor(g, job, prior).payload.delta == Delta(job.request)
  {
    hide VerifiesRecord;
    BuildVerifies(g, job.invocation, prior, job.request, job.subject, job.now);
    hide RecordUsage;
    hide Wrap64;
    assert |"run_reserved"| == 12 && |"provider_call_reserved"| == 22;
  }

  lemma ShapedSnoc(rs: seq<Record>, r: Record)
    requires Shaped(rs) && ReservationShape(r.payload.eventType, r.payload.delta)
    ensures Shaped(rs + [r])
  {
    hide ReservationShape;
  }

  lemma AlmostSnoc(g: Ledger, prior: seq<Record>, r: Record)
    requires HonestLedger(g, prior) && Admitted(g, prior, r)
    ensures AlmostHonest(g, prior + [r]) && ReservationShape(r.payload.eventType, r.payload.delta)
  {
    var all := prior + [r];
    assert all[..|all| - 1] == prior && all[|all| - 1] == r;
    hide HonestLedger;
    hide VerifiesRecord;
    hide Admits;
  }

  lemma LinkKeepsLedger(g: Ledger, files: map<nat, Record>, job: Job, record: Record, number: nat)
    requires g.Valid() && LedgerOk(g, files) && JobPossible(g, job)
    requires ReadyOk(g, files, job, record, number) && number !in files
    ensures LedgerOk(g, files[number := record])
    ensures record.payload.delta == Delta(job.request) && record == BuildFor(g, job, View(files))
    ensures HonestLedger(g, View(files)) && Admits(g.auth.limits, RecordUsage(View(files)), Delta(job.request))
  {
    hide HonestLedger;
    hide Admits;
    hide BuildFor;
    hide JobPossible;
    hide AlmostHonest;
    hide Shaped;
    hide Admitted;
    NextNumber(files, number, record);
    ViewSize(files);
    var prior := View(files);
    hide View;
    hide Contiguous;
    assert prior[..number - 1] == prior;
    BuiltIsAdmitted(g, job, prior);
    AlmostSnoc(g, prior, record);
    ShapedSnoc(prior, record);
  }

  /** A link on the next number does not disturb what other processes rely on. */
  lemma OthersUndisturbed(
    g: Ledger, files: map<nat, Record>, calls: seq<nat>, number: nat, record: Record, other: Process)
    requires Contiguous(files) && number == |files| + 1 && Contiguous(files[number := record])
    requires View(files[number := record]) == View(files) + [record]
    requires ProcessOk(g, files, calls, other)
    ensures ProcessOk(g, files[number := record], calls, other)
    ensures !Owns(other, number)
  {
    hide JobPossible;
    hide ReadyOk;
    hide View;
    hide Contiguous;
    if other.phase.Ready? {
      ReadyUndisturbed(g, files, number, record, other.job, other.phase.record, other.phase.number);
    }
    ViewSize(files);
  }

  lemma ReadyUndisturbed(
    g: Ledger, files: map<nat, Record>, number: nat, record: Record, job: Job, mine: Record, myNumber: nat)
    requires Contiguous(files) && number == |files| + 1 && Contiguous(files[number := record])
    requires View(files[number := record]) == View(files) + [record]
    requires ReadyOk(g, files, job, mine, myNumber)
    ensures ReadyOk(g, files[number := record], job, mine, myNumber)
  {
    hide BuildFor;
    hide Admits;
    ViewSize(files);
    hide View;
    hide Contiguous;
    assert View(files[number := record])[..myNumber - 1] == View(files)[..myNumber - 1];
    assert files[number := record].Keys == files.Keys + {number};
  }

  lemma NewOwner(processes: map<nat, Process>, p: nat, proc: Process, number: nat)
    requires OwnersDistinct(processes) && (forall n :: Owns(proc, n) ==> n == number)
    requires forall q :: q in processes && q != p ==> !Owns(processes[q], number)
    ensures OwnersDistinct(processes[p := proc])
  {
    hide Owns;
  }

  lemma CallsStay(files: map<nat, Record>, calls: seq<nat>, number: nat, record: Record)
    requires CallsOk(files, calls) && number !in files
    ensures CallsOk(files[number := record], calls) && number !in calls
  {
  }

  lemma InvParts(g: Ledger, s: System)
    requires Inv(g, s)
    ensures LedgerOk(g, s.files) && Contiguous(s.files)
    ensures forall p :: p in s.processes ==> ProcessOk(g, s.files, s.calls, s.processes[p])
    ensures OwnersDistinct(s.processes) && CallsOk(s.files, s.calls)
  {
    hide ProcessOk;
    hide OwnersDistinct;
    hide CallsOk;
    LedgerContiguous(g, s.files);
  }

  lemma InvWhole(g: Ledger, s: System)
    requires LedgerOk(g, s.files) && Contiguous(s.files)
    requires forall p :: p in s.processes ==> ProcessOk(g, s.files, s.calls, s.processes[p])
    requires OwnersDistinct(s.processes) && CallsOk(s.files, s.calls)
    ensures Inv(g, s)
  {
    hide LedgerOk;
    hide ProcessOk;
    hide OwnersDistinct;
    hide CallsOk;
  }

  lemma ReadyFacts(g: Ledger, s: System, p: nat)
    requires Inv(g, s) && p in s.processes && s.processes[p].phase.Ready?
    ensures LedgerOk(g, s.files) && JobPossible(g, s.processes[p].job) && Contiguous(s.files)
    ensures ReadyOk(g, s.files, s.processes[p].job, s.processes[p].phase.record, s.processes[p].phase.number)
  {
    hide LedgerOk;
    hide JobPossible;
    hide ReadyOk;
    hide OwnersDistinct;
    hide CallsOk;
    LedgerContiguous(g, s.files);
    assert ProcessOk(g, s.files, s.calls, s.processes[p]);
  }

  lemma LinkNext(g: Ledger, s: System, p: nat)
    requires p in s.processes && s.processes[p].phase.Ready? && s.processes[p].phase.number !in s.files
    ensures var proc := s.processes[p];
      Next(g, s, LinkFile(p)) ==
      System(s.files[proc.phase.number := proc.phase.record],
             s.processes[p := proc.(phase := Linked(proc.phase.number))], s.calls)
  {
  }

  lemma LinkedOk(g: Ledger, files: map<nat, Record>, calls: seq<nat>, proc: Process, number: nat)
    requires Contiguous(files) && JobPossible(g, proc.job) && number in files && number !in calls
    requires files[number].payload.delta == Delta(proc.job.request)
    ensures ProcessOk(g, files, calls, proc.(phase := Linked(number)))
    ensures forall n :: Owns(proc.(phase := Linked(number)), n) ==> n == number
  {
    hide JobPossible;
  }

  lemma LinkKeeps(g: Ledger, s: System, p: nat)
    requires g.Valid() && Inv(g, s) && p in s.processes && s.processes[p].phase.Ready?
    requires s.processes[p].phase.number !in s.files
    ensures Inv(g, Next(g, s, LinkFile(p)))
  {
    hide *;
    var proc := s.processes[p];
    var number, record := proc.phase.number, proc.phase.record;
    InvParts(g, s);
    ReadyFacts(g, s, p);
    LinkNext(g, s, p);
    ReadyRange(g, s.files, proc.job, record, number);
    NextNumber(s.files, number, record);
    LinkKeepsLedger(g, s.files, proc.job, record, number);
    var files' := s.files[number := record];
    forall q | q in s.processes && q != p
      ensures ProcessOk(g, files', s.calls, s.processes[q]) && !Owns(s.processes[q], number)
    {
      OthersUndisturbed(g, s.files, s.calls, number, record, s.processes[q]);
    }
    CallsStay(s.files, s.calls, number, record);
    LinkedOk(g, files', s.calls, proc, number);
    NewOwner(s.processes, p, proc.(phase := Linked(number)), number);
    InvWhole(g, Next(g, s, LinkFile(p)));
  }

  lemma LedgerContiguous(g: Ledger, files: map<nat, Record>)
    requires LedgerOk(g, files)
    ensures Contiguous(files)
  {
  }

  lemma ReadyRange(g: Ledger, files: map<nat, Record>, job: Job, record: Record, number: nat)
    requires Contiguous(files) && ReadyOk(g, files, job, record, number)
    ensures 1 <= number <= |files| + 1
  {
  }

  // ---- All steps ----

  lemma SimpleKeeps(g: Ledger, s: System, a: Action)
    requires Inv(g, s) && a.p in s.processes
    requires a.BeginList? || a.EndList? || a.Finish?
    ensures Inv(g, Next(g, s, a))
  {
    hide LedgerOk;
    hide ReadyOk;
    hide OwnersDistinct;
    hide CallsOk;
    var proc := s.processes[a.p];
    LedgerContiguous(g, s.files);
    assert ProcessOk(g, s.files, s.calls, proc);
    var s' := Next(g, s, a);
    if s' != s {
      var proc' := s'.processes[a.p];
      assert ProcessOk(g, s.files, s.calls, proc');
      MoveKeeps(g, s, a.p, proc');
    }
  }

  lemma LostRaceKeeps(g: Ledger, s: System, p: nat)
    requires Inv(g, s) && p in s.processes && s.processes[p].phase.Ready?
    requires s.processes[p].phase.number in s.files
    ensures Inv(g, Next(g, s, LinkFile(p)))
  {
    hide LedgerOk;
    hide ReadyOk;
    hide OwnersDistinct;
    hide CallsOk;
    var proc := s.processes[p];
    LedgerContiguous(g, s.files);
    assert ProcessOk(g, s.files, s.calls, proc);
    var s' := Next(g, s, LinkFile(p));
    MoveKeeps(g, s, p, s'.processes[p]);
  }

  lemma StartKeeps(g: Ledger, s: System, p: nat, job: Job)
    requires Inv(g, s)
    ensures Inv(g, Next(g, s, Start(p, job)))
  {
    hide LedgerOk;
    hide OwnersDistinct;
    hide CallsOk;
    LedgerContiguous(g, s.files);
    if JobPossible(g, job) {
      MoveKeeps(g, s, p, Process(job, 0, Begun));
    }
  }

  lemma CrashKeeps(g: Ledger, s: System, p: nat)
    requires Inv(g, s)
    ensures Inv(g, Next(g, s, Crash(p)))
  {
    hide LedgerOk;
    hide ProcessOk;
    hide CallsOk;
    hide Owns;
  }

  lemma StepKeeps(g: Ledger, s: System, a: Action)
    requires g.Valid() && Inv(g, s)
    ensures Inv(g, Next(g, s, a))
  {
    if a.Start? {
      StartKeeps(g, s, a.p, a.job);
    } else if a.Crash? {
      CrashKeeps(g, s, a.p);
    } else if a.p in s.processes {
      hide Inv;
      var phase := s.processes[a.p].phase;
      if a.LoadAndAdmit? && phase.Listed? {
        LoadKeeps(g, s, a.p);
      } else if a.LinkFile? && phase.Ready? {
        if phase.number in s.files { LostRaceKeeps(g, s, a.p); } else { LinkKeeps(g, s, a.p); }
      } else if a.CallProvider? && phase.Calling? {
        CallKeeps(g, s, a.p);
      } else if a.BeginList? || a.EndList? || a.Finish? {
        SimpleKeeps(g, s, a);
      }
    }
  }

  /** The invariant holds after every run: any jobs, any interleaving, crashes anywhere. */
  lemma {:induction false} Reachable(g: Ledger, actions: seq<Action>)
    requires g.Valid()
    ensures Inv(g, Run(g, actions))
  {
    if actions == [] {
      assert Inv(g, System(map[], map[], []));
    } else {
      hide Inv;
      hide Next;
      Reachable(g, actions[..|actions| - 1]);
      StepKeeps(g, Run(g, actions[..|actions| - 1]), actions[|actions| - 1]);
    }
  }

  // ---- What an almost honest ledger still guarantees ----

  /** Admission in machine arithmetic bounds runs, calls and cost; outputs only while their sum fits. */
  lemma AdmitMeans(l: Limits, u: Usage, d: Usage)
    requires ValidLimits(l) && Within(u, l) && SmallDelta(d) && d.runs <= 1 && d.calls <= 1 && Admits(l, u, d)
    ensures var sum := Plus(u, d);
      && NonNegative(sum) && sum.runs <= l.runs && sum.calls <= l.calls && sum.cost <= l.cost
      && (Within(sum, l) <==> sum.outputs <= MAX_INT64)
  {
  }

  /** Runs, calls and cost never pass their limits, the chain always verifies, and the ledger is
      honest exactly when its output sum fits a machine integer. */
  lemma AlmostFacts(g: Ledger, rs: seq<Record>)
    requires g.Valid() && AlmostHonest(g, rs)
    ensures Chained(g, rs) && NonNegative(RecordUsage(rs))
    ensures RecordUsage(rs).runs <= g.auth.limits.runs && RecordUsage(rs).calls <= g.auth.limits.calls
    ensures RecordUsage(rs).cost <= g.auth.limits.cost
    ensures HonestLedger(g, rs) <==> RecordUsage(rs).outputs <= MAX_INT64
  {
    hide *;
    if rs == [] {
      NoRecords(g, rs);
    } else {
      var prior, r := rs[..|rs| - 1], rs[|rs| - 1];
      assert rs == prior + [r];
      AlmostParts(g, rs);
      HonestWithin(g, prior);
      HonestChained(g, prior);
      UsageSnoc(prior, r);
      ChainedSnoc(g, prior, r);
      HonestSnoc(g, prior, r);
      AdmitMeans(g.auth.limits, RecordUsage(prior), r.payload.delta);
    }
  }

  lemma NoRecords(g: Ledger, rs: seq<Record>)
    requires g.Valid() && rs == []
    ensures HonestLedger(g, rs) && Chained(g, rs) && RecordUsage(rs) == ZERO && NonNegative(ZERO)
    ensures ZERO.runs <= g.auth.limits.runs && ZERO.calls <= g.auth.limits.calls && ZERO.cost <= g.auth.limits.cost
    ensures ZERO.outputs <= MAX_INT64
  {
    EmptyHonest(g);
  }

  lemma AlmostParts(g: Ledger, rs: seq<Record>)
    requires g.Valid() && AlmostHonest(g, rs) && rs != []
    ensures var prior, r := rs[..|rs| - 1], rs[|rs| - 1];
      && ValidLimits(g.auth.limits) && HonestLedger(g, prior)
      && VerifiesRecord(g, r, |prior| + 1, PreviousSha(prior, |prior|)) && SmallDelta(r.payload.delta)
      && Admits(g.auth.limits, RecordUsage(prior), r.payload.delta)
      && r.payload.delta.runs <= 1 && r.payload.delta.calls <= 1
  {
    hide HonestLedger;
    hide VerifiesRecord;
    hide Admits;
  }

  lemma HonestChained(g: Ledger, rs: seq<Record>)
    requires HonestLedger(g, rs)
    ensures Chained(g, rs)
  {
  }
}
