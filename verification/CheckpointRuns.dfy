/** Any number of evaluations on one checkpoint directory, interrupted anywhere: each step is one
    system call, which may fail, and a process may die between any two of them. */
module CheckpointRuns {
  import opened Base
  import opened Signing
  import opened Numbered
  import opened Checkpoint

  datatype Phase =
    | Idle
    | Created(record: Record)     // temporary exists, empty or torn
    | Filled(record: Record)      // temporary holds the whole record; not yet synced
    | Synced(record: Record)      // about to link
    | Linked(record: Record)      // numbered file exists; temporary not yet removed
    | Failing(record: Record)     // an error is being returned; deferred removal still to come

  /** One store in memory. Its next case is the one after its evidence. */
  datatype Process = Process(
    identity: Identity, evidence: seq<Evidence>, previous: ShaText<Body>, phase: Phase)
  {
    function Number(): nat { |evidence| + 1 }
  }

  datatype System = System(files: map<nat, Content>, temps: map<nat, Content>, processes: map<nat, Process>)

  datatype Action =
    | Open(p: nat, identity: Identity)
    | Create(p: nat, progress: Progress, at: int)
    | Write(p: nat, ok: bool)
    | Sync(p: nat, ok: bool)
    | Link(p: nat, ok: bool)
    | Remove(p: nat, ok: bool)
    | Cleanup(p: nat, ok: bool)
    | Crash(p: nat)
    | Sweep(number: nat)          // an operator deletes a temporary nobody is writing

  function Listing(s: System): Directory {
    Directory(s.files, if s.temps == map[] then {} else {".tmp"})
  }

  predicate Writing(proc: Process, number: nat) {
    !proc.phase.Idle? && proc.Number() == number
  }

  // ---- The files as a sequence of records ----

  ghost predicate FilesOk(files: map<nat, Content>) {
    Contiguous(files) && forall n :: n in files ==> files[n].Whole?
  }

  ghost function Records(files: map<nat, Content>): (rs: seq<Record>)
    requires FilesOk(files)
    ensures |rs| == |files|
  {
    seq(|files|, i requires 0 <= i < |files| => files[i + 1].record)
  }

  lemma RecordsHeld(files: map<nat, Content>, others: set<string>)
    requires FilesOk(files)
    ensures Holds(Directory(files, others), Records(files)) <==> others == {}
  {
  }

  lemma RecordsNext(files: map<nat, Content>, n: nat, r: Record)
    requires FilesOk(files) && 1 <= n <= |files| + 1 && n !in files
    ensures n == |files| + 1 && FilesOk(files[n := Whole(r)])
    ensures Records(files[n := Whole(r)]) == Records(files) + [r]
  {
    NextContiguous(files, n, Whole(r));
  }

  lemma RecordAt(files: map<nat, Content>, n: nat)
    requires FilesOk(files)
    ensures n in files <==> 1 <= n <= |files|
    ensures n in files ==> files[n] == Whole(Records(files)[n - 1])
  {
  }

  // ---- Steps ----

  /** Opening a store: refused unless the directory is nothing but a whole chain for the identity. */
  ghost function OpenStep(g: Signer, s: System, p: nat, id: Identity): System {
    if p in s.processes || !ValidIdentity(id) || !FilesOk(s.files) then s
    else
      var rs := Records(s.files);
      if Resumable(g, id, Listing(s), rs)
      then s.(processes := s.processes[p := Process(Resumed(id, rs), EvidenceOf(rs), PreviousSha(rs, |rs|), Idle)])
      else s
  }

  function Move(s: System, p: nat, proc: Process, phase: Phase): System {
    s.(processes := s.processes[p := proc.(phase := phase)])
  }

  function Advance(g: Signer, s: System, a: Action, proc: Process): System {
    var n := proc.Number();
    match (a, proc.phase)
    case (Create(p, progress, at), Idle) =>
      if progress.completed != n || progress.total != proc.identity.totalCases || n in s.temps || at == ZERO_INSTANT
      then s
      else
        var record := BuildRecord(g, proc.identity, n, proc.previous, progress.evidence, at);
        Move(s, p, proc, Created(record)).(temps := s.temps[n := Torn])
    case (Write(p, ok), Created(record)) =>
      if ok then Move(s, p, proc, Filled(record)).(temps := s.temps[n := Whole(record)])
      else Move(s, p, proc, Failing(record))
    case (Sync(p, ok), Filled(record)) => Move(s, p, proc, if ok then Synced(record) else Failing(record))
    case (Link(p, ok), Synced(record)) =>
      if ok && n in s.temps && n !in s.files
      then Move(s, p, proc, Linked(record)).(files := s.files[n := s.temps[n]])
      else Move(s, p, proc, Failing(record))
    case (Remove(p, ok), Linked(record)) =>
      if ok then Move(s, p, Remember(proc, record), Idle).(temps := s.temps - {n})
      else Move(s, p, proc, Failing(record))
    case (Cleanup(p, ok), Failing(_)) =>
      Move(s, p, proc, Idle).(temps := if ok then s.temps - {n} else s.temps)
    case _ => s
  }

  /** Memory after a completed append. */
  function Remember(proc: Process, record: Record): Process {
    proc.(evidence := proc.evidence + [record.body.evidence],
          previous := if record.integrity.Some? then record.integrity.value.payloadSha else NoSha)
  }

  ghost function Next(g: Signer, s: System, a: Action): System {
    match a
    case Open(p, id) => OpenStep(g, s, p, id)
    case Crash(p) => s.(processes := s.processes - {p})
    case Sweep(n) =>
      if exists q :: q in s.processes && Writing(s.processes[q], n) then s else s.(temps := s.temps - {n})
    case _ => if a.p in s.processes then Advance(g, s, a, s.processes[a.p]) else s
  }

  ghost function RunFrom(g: Signer, s: System, actions: seq<Action>): System {
    if actions == [] then s
    else Next(g, RunFrom(g, s, actions[..|actions| - 1]), actions[|actions| - 1])
  }

  const EMPTY := System(map[], map[], map[])

  ghost function Run(g: Signer, actions: seq<Action>): System {
    RunFrom(g, EMPTY, actions)
  }

  // ---- The invariant ----

  ghost predicate ChainOk(g: Signer, rs: seq<Record>) {
    rs != [] ==> ValidIdentity(rs[0].body.identity) && Chain(g, rs[0].body.identity, rs)
  }

  /** A store's memory is a prefix of what is on disk. */
  ghost predicate MemoryOk(rs: seq<Record>, proc: Process) {
    && ValidIdentity(proc.identity) && |proc.evidence| <= |rs|
    && (forall i :: 0 <= i < |proc.evidence| ==> proc.evidence[i] == rs[i].body.evidence)
    && proc.previous == PreviousSha(rs, |proc.evidence|)
    && (proc.evidence != [] ==> proc.identity == rs[0].body.identity)
  }

  ghost predicate PhaseOk(g: Signer, rs: seq<Record>, temps: map<nat, Content>, proc: Process) {
    var n := proc.Number();
    proc.phase.Idle? ||
    (&& VerifiesRecord(g, proc.identity, proc.phase.record, n, proc.previous) && n in temps
     && (proc.phase.Filled? || proc.phase.Synced? ==> temps[n] == Whole(proc.phase.record))
     && (proc.phase.Linked? ==> n <= |rs| && rs[n - 1] == proc.phase.record))
  }

  ghost predicate ProcessesOk(g: Signer, rs: seq<Record>, temps: map<nat, Content>, processes: map<nat, Process>) {
    forall p :: p in processes ==> MemoryOk(rs, processes[p]) && PhaseOk(g, rs, temps, processes[p])
  }

  ghost predicate WritersDistinct(processes: map<nat, Process>) {
    forall p, q, n :: p in processes && q in processes && p != q && Writing(processes[p], n) ==> !Writing(processes[q], n)
  }

  ghost predicate Inv(g: Signer, s: System) {
    && FilesOk(s.files) && ChainOk(g, Records(s.files))
    && ProcessesOk(g, Records(s.files), s.temps, s.processes)
    && WritersDistinct(s.processes)
  }

  /** One process moves and at most the temporary it is writing changes. */
  lemma LocalKeeps(g: Signer, s: System, p: nat, proc: Process, temps: map<nat, Content>, n: nat)
    requires Inv(g, s) && MemoryOk(Records(s.files), proc) && PhaseOk(g, Records(s.files), temps, proc)
    requires forall k :: k != n ==> (k in temps <==> k in s.temps) && (k in temps ==> temps[k] == s.temps[k])
    requires forall q :: q in s.processes && q != p ==> !Writing(s.processes[q], n)
    requires !proc.phase.Idle? ==> proc.Number() == n
    ensures Inv(g, s.(processes := s.processes[p := proc], temps := temps))
  {
    hide MemoryOk;
    hide VerifiesRecord;
    hide ChainOk;
    hide FilesOk;
    hide Records;
  }

  /** A store that just loaded remembers exactly what is on disk. */
  lemma LoadedMemory(g: Signer, id: Identity, rs: seq<Record>)
    requires ValidIdentity(id) && ChainOk(g, rs) && Chain(g, Resumed(id, rs), rs)
    ensures MemoryOk(rs, Process(Resumed(id, rs), EvidenceOf(rs), PreviousSha(rs, |rs|), Idle))
  {
    if rs != [] {
      ResumedIsChain(g, id, rs);
    }
    hide Chain;
  }

  lemma ResumedIsChain(g: Signer, id: Identity, rs: seq<Record>)
    requires Chain(g, Resumed(id, rs), rs) && rs != []
    ensures rs[0].body.identity == Resumed(id, rs)
  {
    assert VerifiesRecord(g, Resumed(id, rs), rs[0], 0 + 1, PreviousSha(rs, 0));
  }

  lemma OpenKeeps(g: Signer, s: System, p: nat, id: Identity)
    requires Inv(g, s)
    ensures Inv(g, OpenStep(g, s, p, id))
  {
    assert FilesOk(s.files) && ChainOk(g, Records(s.files));
    hide Inv;
    hide FilesOk;
    hide Records;
    hide ChainOk;
    hide Chain;
    hide ValidIdentity;
    hide MemoryOk;
    hide PhaseOk;
    hide Holds;
    var rs := Records(s.files);
    if OpenStep(g, s, p, id) != s {
      LoadedMemory(g, id, rs);
      var proc := Process(Resumed(id, rs), EvidenceOf(rs), PreviousSha(rs, |rs|), Idle);
      IdleOk(g, rs, s.temps, proc);
      LocalKeeps(g, s, p, proc, s.temps, 0);
    }
  }

  lemma IdleOk(g: Signer, rs: seq<Record>, temps: map<nat, Content>, proc: Process)
    requires proc.phase.Idle?
    ensures PhaseOk(g, rs, temps, proc)
  {
  }

  lemma InvFacts(g: Signer, s: System, p: nat)
    requires Inv(g, s) && p in s.processes
    ensures FilesOk(s.files) && ChainOk(g, Records(s.files))
    ensures MemoryOk(Records(s.files), s.processes[p]) && PhaseOk(g, Records(s.files), s.temps, s.processes[p])
    ensures !s.processes[p].phase.Idle? ==>
      forall q :: q in s.processes && q != p ==> !Writing(s.processes[q], s.processes[p].Number())
  {
    hide MemoryOk;
    hide PhaseOk;
    hide ChainOk;
    hide FilesOk;
    hide Records;
    if !s.processes[p].phase.Idle? {
      assert Writing(s.processes[p], s.processes[p].Number());
    }
  }

  /** A number without a temporary is being written by nobody. */
  lemma FreeNumber(g: Signer, s: System, n: nat)
    requires Inv(g, s) && n !in s.temps
    ensures forall q :: q in s.processes ==> !Writing(s.processes[q], n)
  {
    hide MemoryOk;
    hide VerifiesRecord;
    hide ChainOk;
    hide FilesOk;
    hide Records;
  }

  lemma CreateKeeps(g: Signer, s: System, a: Action)
    requires g.Valid() && Inv(g, s) && a.Create? && a.p in s.processes
    ensures Inv(g, Next(g, s, a))
  {
    hide BuildRecord;
    hide VerifiesRecord;
    hide ChainOk;
    hide FilesOk;
    hide Records;
    InvFacts(g, s, a.p);
    var proc := s.processes[a.p];
    var s' := Next(g, s, a);
    if s' != s {
      hide Inv;
      var n := proc.Number();
      BuildVerifies(g, proc.identity, n, proc.previous, a.progress.evidence, a.at);
      FreeNumber(g, s, n);
      LocalKeeps(g, s, a.p, s'.processes[a.p], s'.temps, n);
    }
  }

  lemma SameMemory(rs: seq<Record>, proc: Process, phase: Phase)
    requires MemoryOk(rs, proc)
    ensures MemoryOk(rs, proc.(phase := phase))
  {
  }

  lemma WriterOk(g: Signer, rs: seq<Record>, s: System, a: Action, proc: Process)
    requires PhaseOk(g, rs, s.temps, proc) && !proc.phase.Idle? && (a.Write? || a.Sync? || a.Link? || a.Remove? || a.Cleanup?)
    requires var s' := Advance(g, s, a, proc); s'.files == s.files && s' != s && !(a.Remove? && a.ok)
    ensures var s' := Advance(g, s, a, proc);
      && s'.processes == s.processes[a.p := proc.(phase := s'.processes[a.p].phase)]
      && PhaseOk(g, rs, s'.temps, s'.processes[a.p])
      && (forall k :: k != proc.Number() ==>
            (k in s'.temps <==> k in s.temps) && (k in s'.temps ==> s'.temps[k] == s.temps[k]))
  {
    hide VerifiesRecord;
  }

  /** Steps of a process that is writing and whose memory does not change, other than a link. */
  lemma WriterKeeps(g: Signer, s: System, a: Action)
    requires Inv(g, s) && (a.Write? || a.Sync? || a.Link? || a.Remove? || a.Cleanup?) && a.p in s.processes
    requires Next(g, s, a).files == s.files && Next(g, s, a) != s && !(a.Remove? && a.ok)
    ensures Inv(g, Next(g, s, a))
  {
    var proc, s' := s.processes[a.p], Next(g, s, a);
    assert s' == Advance(g, s, a, proc) && !proc.phase.Idle?;
    hide *;
    InvFacts(g, s, a.p);
    var rs := Records(s.files);
    WriterOk(g, rs, s, a, proc);
    SameMemory(rs, proc, s'.processes[a.p].phase);
    LocalKeeps(g, s, a.p, s'.processes[a.p], s'.temps, proc.Number());
  }

  lemma RemoveKeeps(g: Signer, s: System, p: nat)
    requires Inv(g, s) && p in s.processes && s.processes[p].phase.Linked?
    ensures Inv(g, Next(g, s, Remove(p, true)))
  {
    hide VerifiesRecord;
    hide ChainOk;
    hide FilesOk;
    hide Records;
    InvFacts(g, s, p);
    var proc, rs := s.processes[p], Records(s.files);
    hide Inv;
    hide PhaseOk;
    hide MemoryOk;
    var s' := Next(g, s, Remove(p, true));
    RememberOk(g, rs, s.temps, proc, proc.phase.record);
    IdleOk(g, rs, s'.temps, s'.processes[p]);
    LocalKeeps(g, s, p, s'.processes[p], s'.temps, proc.Number());
  }

  lemma RememberOk(g: Signer, rs: seq<Record>, temps: map<nat, Content>, proc: Process, record: Record)
    requires MemoryOk(rs, proc) && PhaseOk(g, rs, temps, proc) && proc.phase == Linked(record)
    ensures MemoryOk(rs, Remember(proc, record).(phase := Idle))
  {
  }

  lemma LinkChain(g: Signer, rs: seq<Record>, proc: Process, record: Record)
    requires ChainOk(g, rs) && MemoryOk(rs, proc) && |proc.evidence| == |rs|
    requires VerifiesRecord(g, proc.identity, record, |rs| + 1, proc.previous)
    ensures ChainOk(g, rs + [record])
  {
    ChainSnoc(g, proc.identity, rs, record);
    hide Chain;
    if rs == [] {
      EmptyChain(g, proc.identity);
    }
  }

  lemma EmptyChain(g: Signer, id: Identity)
    ensures Chain(g, id, [])
  {
  }

  lemma MemoryStays(rs: seq<Record>, record: Record, proc: Process)
    requires MemoryOk(rs, proc)
    ensures MemoryOk(rs + [record], proc)
  {
  }

  lemma PhaseStays(g: Signer, rs: seq<Record>, record: Record, temps: map<nat, Content>, proc: Process)
    requires PhaseOk(g, rs, temps, proc)
    ensures PhaseOk(g, rs + [record], temps, proc)
  {
    hide VerifiesRecord;
  }

  lemma LinkKeeps(g: Signer, s: System, p: nat)
    requires Inv(g, s) && p in s.processes && s.processes[p].phase.Synced?
    requires s.processes[p].Number() !in s.files && s.processes[p].Number() in s.temps
    ensures Inv(g, Next(g, s, Link(p, true)))
  {
    hide VerifiesRecord;
    hide ChainOk;
    hide FilesOk;
    hide Records;
    InvFacts(g, s, p);
    var proc, rs := s.processes[p], Records(s.files);
    var record, n := proc.phase.record, proc.Number();
    RecordsNext(s.files, n, record);
    LinkChain(g, rs, proc, record);
    var all, proc' := rs + [record], proc.(phase := Linked(record));
    assert all[n - 1] == record;
    MemoryStays(rs, record, proc');
    assert PhaseOk(g, all, s.temps, proc');
    forall q | q in s.processes && q != p
      ensures MemoryOk(all, s.processes[q]) && PhaseOk(g, all, s.temps, s.processes[q])
    {
      InvFacts(g, s, q);
      MemoryStays(rs, record, s.processes[q]);
      PhaseStays(g, rs, record, s.temps, s.processes[q]);
    }
    hide MemoryOk;
    hide PhaseOk;
  }

  lemma CrashKeeps(g: Signer, s: System, p: nat)
    requires Inv(g, s)
    ensures Inv(g, s.(processes := s.processes - {p}))
  {
    hide MemoryOk;
    hide PhaseOk;
    hide ChainOk;
    hide FilesOk;
    hide Records;
    hide Writing;
  }

  lemma SweepKeeps(g: Signer, s: System, n: nat)
    requires Inv(g, s)
    ensures Inv(g, Next(g, s, Sweep(n)))
  {
    hide MemoryOk;
    hide VerifiesRecord;
    hide ChainOk;
    hide FilesOk;
    hide Records;
  }

  lemma StepKeeps(g: Signer, s: System, a: Action)
    requires g.Valid() && Inv(g, s)
    ensures Inv(g, Next(g, s, a))
  {
    if a.Open? {
      OpenKeeps(g, s, a.p, a.identity);
    } else if a.Crash? {
      CrashKeeps(g, s, a.p);
    } else if a.Sweep? {
      SweepKeeps(g, s, a.number);
    } else if a.p in s.processes {
      hide Inv;
      if a.Create? {
        CreateKeeps(g, s, a);
      } else if Next(g, s, a) != s {
        var proc := s.processes[a.p];
        if a.Link? && proc.phase.Synced? && a.ok && proc.Number() in s.temps && proc.Number() !in s.files {
          LinkKeeps(g, s, a.p);
        } else if a.Remove? && a.ok {
          RemoveKeeps(g, s, a.p);
        } else {
          WriterKeeps(g, s, a);
        }
      }
    }
  }

  lemma {:induction false} RunKeeps(g: Signer, s: System, actions: seq<Action>)
    requires g.Valid() && Inv(g, s)
    ensures Inv(g, RunFrom(g, s, actions))
  {
    hide Inv;
    hide Next;
    if actions != [] {
      RunKeeps(g, s, actions[..|actions| - 1]);
      StepKeeps(g, RunFrom(g, s, actions[..|actions| - 1]), actions[|actions| - 1]);
    }
  }

  lemma Reachable(g: Signer, actions: seq<Action>)
    requires g.Valid()
    ensures Inv(g, Run(g, actions))
  {
    assert Inv(g, EMPTY);
    RunKeeps(g, EMPTY, actions);
  }

  // ---- What every run guarantees ----

  /** For every interleaving, with any call failing and any process dying anywhere: the numbered
      files are gap-free, none is torn, they form one signed chain under one identity and one
      generation time, and what each live store remembers is a prefix of them. */
  lemma CrashConsistent(g: Signer, actions: seq<Action>)
    requires g.Valid()
    ensures var s := Run(g, actions);
      && FilesOk(s.files) && ChainOk(g, Records(s.files))
      && forall p :: p in s.processes ==>
           && s.processes[p].evidence <= EvidenceOf(Records(s.files))
           && (s.processes[p].evidence != [] ==> s.processes[p].identity == Records(s.files)[0].body.identity)
  {
    Reachable(g, actions);
    hide Run;
    hide ChainOk;
    hide FilesOk;
    hide Records;
    hide PhaseOk;
  }

  ghost predicate Survives(before: map<nat, Content>, after: map<nat, Content>) {
    forall n :: n in before ==> n in after && after[n] == before[n]
  }

  lemma StepPreserves(g: Signer, s: System, a: Action)
    ensures Survives(s.files, Next(g, s, a).files)
  {
  }

  /** A committed record is never overwritten or removed, whatever happens afterwards. */
  lemma {:induction false} NeverOverwritten(g: Signer, s: System, later: seq<Action>)
    ensures Survives(s.files, RunFrom(g, s, later).files)
  {
    hide Next;
    if later != [] {
      NeverOverwritten(g, s, later[..|later| - 1]);
      StepPreserves(g, RunFrom(g, s, later[..|later| - 1]), later[|later| - 1]);
    }
  }

  /** A store opens only for a complete identity. */
  lemma OpenNeedsIdentity(g: Signer, s: System, p: nat, id: Identity)
    requires Next(g, s, Open(p, id)) != s
    ensures id.side == "candidate" || id.side == "stable"
    ensures id.datasetVersion != "" && |id.datasetHash| == 64 && |id.configHash| == 64
    ensures 1 <= id.totalCases <= 999_999 && id.caseTimeoutMs > 0 && id.generatedAt.instant != ZERO_INSTANT
  {
  }

  /** The same configuration, whatever the generation time. */
  predicate SameConfiguration(a: Identity, b: Identity) {
    a.(generatedAt := b.generatedAt) == b
  }

  /** Exactly when an evaluation can resume after any run, and what it then knows: no temporary is
      left behind, no more records than cases, and the same configuration. The new store holds
      exactly the committed evidence, continues the chain, and keeps its generation time. */
  lemma ReopenRestores(g: Signer, actions: seq<Action>, p: nat, id: Identity)
    requires g.Valid() && ValidIdentity(id) && p !in Run(g, actions).processes
    ensures var s := Run(g, actions);
      var s' := Next(g, s, Open(p, id));
      && FilesOk(s.files)
      && var rs := Records(s.files);
         && (p in s'.processes <==>
               s.temps == map[] && |rs| <= id.totalCases
               && (rs != [] ==> SameConfiguration(id, rs[0].body.identity)))
         && (p in s'.processes ==>
               && s'.processes[p].evidence == EvidenceOf(rs)
               && s'.processes[p].previous == PreviousSha(rs, |rs|)
               && s'.processes[p].identity == (if rs == [] then id else rs[0].body.identity)
               && s'.processes[p].phase == Idle)
         && (p !in s'.processes ==> s' == s)
  {
    Reachable(g, actions);
    hide Run;
    var s := Run(g, actions);
    var rs := Records(s.files);
    ResumableExactly(g, id, s);
    if Resumable(g, id, Listing(s), rs) && rs != [] {
      ResumedIsChain(g, id, rs);
    }
    hide Resumable;
    hide ChainOk;
    hide ProcessesOk;
    hide FilesOk;
    hide Records;
  }

  lemma ResumableExactly(g: Signer, id: Identity, s: System)
    requires FilesOk(s.files) && ChainOk(g, Records(s.files))
    ensures var rs := Records(s.files);
      Resumable(g, id, Listing(s), rs) <==>
        && s.temps == map[] && |rs| <= id.totalCases
        && (rs != [] ==> SameConfiguration(id, rs[0].body.identity))
  {
    var rs := Records(s.files);
    RecordsHeld(s.files, Listing(s).others);
    hide Holds;
    hide VerifiesRecord;
    if rs == [] {
      EmptyChain(g, id);
    } else if Chain(g, Resumed(id, rs), rs) {
      ResumedIsChain(g, id, rs);
    }
  }

  /** One append with nothing going wrong. */
  ghost function AppendAlone(g: Signer, s: System, p: nat, progress: Progress, at: int): System {
    var filled := Next(g, Next(g, s, Create(p, progress, at)), Write(p, true));
    Next(g, Next(g, Next(g, filled, Sync(p, true)), Link(p, true)), Remove(p, true))
  }

  lemma FillResult(g: Signer, s: System, p: nat, progress: Progress, at: int)
    requires p in s.processes && s.processes[p].phase.Idle? && at != ZERO_INSTANT
    requires s.processes[p].Number() !in s.temps
    requires progress.completed == s.processes[p].Number() && progress.total == s.processes[p].identity.totalCases
    ensures var proc := s.processes[p];
      var record := BuildRecord(g, proc.identity, proc.Number(), proc.previous, progress.evidence, at);
      Next(g, Next(g, s, Create(p, progress, at)), Write(p, true)) ==
      System(s.files, s.temps[proc.Number() := Whole(record)], s.processes[p := proc.(phase := Filled(record))])
  {
    hide BuildRecord;
    var proc := s.processes[p];
    var record := BuildRecord(g, proc.identity, proc.Number(), proc.previous, progress.evidence, at);
    assert Next(g, s, Create(p, progress, at)) ==
           System(s.files, s.temps[proc.Number() := Torn], s.processes[p := proc.(phase := Created(record))]);
  }

  lemma CommitResult(g: Signer, s: System, p: nat, proc: Process, record: Record)
    requires p in s.processes && s.processes[p] == proc.(phase := Filled(record)) && proc.phase.Idle?
    requires proc.Number() in s.temps && s.temps[proc.Number()] == Whole(record) && proc.Number() !in s.files
    ensures Next(g, Next(g, Next(g, s, Sync(p, true)), Link(p, true)), Remove(p, true)) ==
            System(s.files[proc.Number() := Whole(record)], s.temps - {proc.Number()},
                   s.processes[p := Remember(proc, record)])
  {
    var n := proc.Number();
    var s3 := Next(g, s, Sync(p, true));
    assert s3 == System(s.files, s.temps, s.processes[p := proc.(phase := Synced(record))]);
    var s4 := Next(g, s3, Link(p, true));
    assert s4 == System(s.files[n := Whole(record)], s.temps, s.processes[p := proc.(phase := Linked(record))]);
  }

  lemma AloneResult(g: Signer, s: System, p: nat, progress: Progress, at: int)
    requires p in s.processes && s.processes[p].phase.Idle? && at != ZERO_INSTANT
    requires s.processes[p].Number() !in s.temps && s.processes[p].Number() !in s.files
    requires progress.completed == s.processes[p].Number() && progress.total == s.processes[p].identity.totalCases
    ensures var proc := s.processes[p];
      var record := BuildRecord(g, proc.identity, proc.Number(), proc.previous, progress.evidence, at);
      AppendAlone(g, s, p, progress, at) ==
      System(s.files[proc.Number() := Whole(record)], s.temps, s.processes[p := Remember(proc, record)])
  {
    hide BuildRecord;
    hide Next;
    var proc := s.processes[p];
    var record := BuildRecord(g, proc.identity, proc.Number(), proc.previous, progress.evidence, at);
    var s2 := Next(g, Next(g, s, Create(p, progress, at)), Write(p, true));
    FillResult(g, s, p, progress, at);
    CommitResult(g, s2, p, proc, record);
    assert s2.temps - {proc.Number()} == s.temps;
    assert s2.processes[p := Remember(proc, record)] == s.processes[p := Remember(proc, record)];
  }

  lemma AloneKeeps(g: Signer, s: System, p: nat, progress: Progress, at: int)
    requires g.Valid() && Inv(g, s)
    ensures Inv(g, AppendAlone(g, s, p, progress, at))
  {
    hide Inv;
    hide Next;
    StepKeeps(g, s, Create(p, progress, at));
    var s1 := Next(g, s, Create(p, progress, at));
    StepKeeps(g, s1, Write(p, true));
    var s2 := Next(g, s1, Write(p, true));
    StepKeeps(g, s2, Sync(p, true));
    var s3 := Next(g, s2, Sync(p, true));
    StepKeeps(g, s3, Link(p, true));
    StepKeeps(g, Next(g, s3, Link(p, true)), Remove(p, true));
  }

  /** A store that is level with the disk, such as one that just resumed, can go on: an undisturbed
      append commits the next case on top of the last record, under the same identity. */
  lemma ResumedGoesOn(g: Signer, s: System, p: nat, progress: Progress, at: int)
    requires g.Valid() && Inv(g, s) && p in s.processes && s.processes[p].phase.Idle?
    requires |s.processes[p].evidence| == |s.files| && |s.files| + 1 !in s.temps && at != ZERO_INSTANT
    requires progress.completed == |s.files| + 1 && progress.total == s.processes[p].identity.totalCases
    ensures var proc, s' := s.processes[p], AppendAlone(g, s, p, progress, at);
      var record := BuildRecord(g, proc.identity, |s.files| + 1, proc.previous, progress.evidence, at);
      && Inv(g, s') && s'.temps == s.temps && Records(s'.files) == Records(s.files) + [record]
      && p in s'.processes && s'.processes[p] == Remember(proc, record)
  {
    var proc := s.processes[p];
    var record := BuildRecord(g, proc.identity, |s.files| + 1, proc.previous, progress.evidence, at);
    AloneKeeps(g, s, p, progress, at);
    InvFacts(g, s, p);
    hide Inv;
    hide BuildRecord;
    hide AppendAlone;
    RecordAt(s.files, |s.files| + 1);
    RecordsNext(s.files, |s.files| + 1, record);
    AloneResult(g, s, p, progress, at);
  }

  /** The store does not stop at the last case: after all of them, one more append is accepted, and
      then the directory can no longer be reopened for that configuration. */
  lemma OverrunBlocksReopen(g: Signer, s: System, p: nat, e: Evidence, at: int, q: nat, id: Identity)
    requires g.Valid() && Inv(g, s) && p in s.processes && s.processes[p].phase.Idle?
    requires |s.processes[p].evidence| == |s.files| == s.processes[p].identity.totalCases
    requires |s.files| + 1 !in s.temps && at != ZERO_INSTANT
    requires q !in s.processes && id.totalCases == s.processes[p].identity.totalCases
    ensures var s' := AppendAlone(g, s, p, Progress(|s.files| + 1, id.totalCases, e), at);
      && |s'.files| == id.totalCases + 1
      && q !in s'.processes && q !in Next(g, s', Open(q, id)).processes
  {
    hide Inv;
    hide AppendAlone;
    var progress := Progress(|s.files| + 1, id.totalCases, e);
    InvFacts(g, s, p);
    RecordAt(s.files, |s.files| + 1);
    ResumedGoesOn(g, s, p, progress, at);
    AloneResult(g, s, p, progress, at);
  }

  // ---- The steps together are an append ----

  /** The calls after the creation. A call that does not fit the process's phase does not happen. */
  ghost function Rest(g: Signer, s: System, p: nat, faults: Faults): System {
    var synced := Next(g, Next(g, s, Write(p, !faults.write)), Sync(p, !(faults.sync || faults.close)));
    var removed := Next(g, Next(g, synced, Link(p, !faults.link)), Remove(p, !faults.remove));
    Next(g, removed, Cleanup(p, !faults.cleanup))
  }

  /** The calls one append makes, in order, with the given ones failing. */
  ghost function AppendWith(g: Signer, s: System, p: nat, progress: Progress, at: int, faults: Faults): System {
    if faults.create then s else Rest(g, Next(g, s, Create(p, progress, at)), p, faults)
  }

  function SceneOf(s: System, proc: Process): Scene {
    Scene(proc.identity, proc.evidence, proc.previous, s.files, s.temps)
  }

  /** A system in which process p is as given. */
  ghost predicate At(s: System, p: nat, files: map<nat, Content>, temps: map<nat, Content>, proc: Process) {
    s.files == files && s.temps == temps && p in s.processes && s.processes[p] == proc
  }

  lemma StepAt(g: Signer, s: System, p: nat, a: Action)
    requires p in s.processes && (a.Create? || a.Write? || a.Sync? || a.Link? || a.Remove? || a.Cleanup?) && a.p == p
    ensures Next(g, s, a) == Advance(g, s, a, s.processes[p])
  {
  }

  lemma WriteAndSync(g: Signer, s: System, p: nat, proc: Process, record: Record, written: bool, synced: bool)
    requires At(s, p, s.files, s.temps, proc.(phase := Created(record)))
    ensures var n, s' := proc.Number(), Next(g, Next(g, s, Write(p, written)), Sync(p, synced));
      At(s', p, s.files, if written then s.temps[n := Whole(record)] else s.temps,
         proc.(phase := if written && synced then Synced(record) else Failing(record)))
  {
    StepAt(g, s, p, Write(p, written));
    var s1 := Next(g, s, Write(p, written));
    StepAt(g, s1, p, Sync(p, synced));
  }

  lemma LinkAndRemove(g: Signer, s: System, p: nat, proc: Process, record: Record, linked: bool, removed: bool)
    requires At(s, p, s.files, s.temps, proc.(phase := Synced(record)))
    requires proc.Number() in s.temps && s.temps[proc.Number()] == Whole(record)
    ensures var n, s' := proc.Number(), Next(g, Next(g, s, Link(p, linked)), Remove(p, removed));
      var links := linked && n !in s.files;
      At(s', p, if links then s.files[n := Whole(record)] else s.files,
         if links && removed then s.temps - {n} else s.temps,
         if links && removed then Remember(proc, record).(phase := Idle) else proc.(phase := Failing(record)))
  {
    StepAt(g, s, p, Link(p, linked));
    var s1 := Next(g, s, Link(p, linked));
    StepAt(g, s1, p, Remove(p, removed));
  }

  lemma FailingStays(g: Signer, s: System, p: nat, proc: Process, record: Record, linked: bool, removed: bool)
    requires At(s, p, s.files, s.temps, proc.(phase := Failing(record)))
    ensures At(Next(g, Next(g, s, Link(p, linked)), Remove(p, removed)), p, s.files, s.temps, proc.(phase := Failing(record)))
  {
  }

  lemma IdleStays(g: Signer, s: System, p: nat, a: Action)
    requires a.Write? || a.Sync? || a.Link? || a.Remove? || a.Cleanup?
    requires a.p == p && p in s.processes && s.processes[p].phase.Idle?
    ensures Next(g, s, a) == s
  {
  }

  lemma CleanupAt(g: Signer, s: System, p: nat, proc: Process, record: Record, ok: bool)
    requires At(s, p, s.files, s.temps, proc.(phase := Failing(record)))
    ensures At(Next(g, s, Cleanup(p, ok)), p, s.files, if ok then s.temps - {proc.Number()} else s.temps, proc.(phase := Idle))
  {
  }

  lemma CreateAt(g: Signer, s: System, p: nat, progress: Progress, at: int)
    requires p in s.processes && s.processes[p].phase.Idle? && at != ZERO_INSTANT
    ensures var proc := s.processes[p];
      var n := proc.Number();
      var record := BuildRecord(g, proc.identity, n, proc.previous, progress.evidence, at);
      var s' := Next(g, s, Create(p, progress, at));
      if progress.completed == n && progress.total == proc.identity.totalCases && n !in s.temps
      then At(s', p, s.files, s.temps[n := Torn], proc.(phase := Created(record)))
      else s' == s
  {
    hide BuildRecord;
  }

  lemma RestEnds(g: Signer, s: System, p: nat, proc: Process, record: Record, faults: Faults)
    requires At(s, p, s.files, s.temps, proc.(phase := Created(record))) && proc.phase.Idle?
    ensures var n := proc.Number();
      var temps := if faults.write then s.temps else s.temps[n := Whole(record)];
      var links := !faults.BeforeLink() && n !in s.files;
      var ok := links && !faults.remove;
      At(Rest(g, s, p, faults), p, if links then s.files[n := Whole(record)] else s.files,
         if ok || !faults.cleanup then temps - {n} else temps,
         if ok then Remember(proc, record) else proc)
  {
    hide Next;
    WriteAndSync(g, s, p, proc, record, !faults.write, !(faults.sync || faults.close));
    var s3 := Next(g, Next(g, s, Write(p, !faults.write)), Sync(p, !(faults.sync || faults.close)));
    var s5 := Next(g, Next(g, s3, Link(p, !faults.link)), Remove(p, !faults.remove));
    if s3.processes[p].phase.Synced? {
      LinkAndRemove(g, s3, p, proc, record, !faults.link, !faults.remove);
    } else {
      FailingStays(g, s3, p, proc, record, !faults.link, !faults.remove);
    }
    if s5.processes[p].phase.Idle? {
      IdleStays(g, s5, p, Cleanup(p, !faults.cleanup));
    } else {
      CleanupAt(g, s5, p, proc, record, !faults.cleanup);
    }
  }

  lemma RestIdle(g: Signer, s: System, p: nat, faults: Faults)
    requires p in s.processes && s.processes[p].phase.Idle?
    ensures Rest(g, s, p, faults) == s
  {
    hide Next;
    IdleStays(g, s, p, Write(p, !faults.write));
    IdleStays(g, s, p, Sync(p, !(faults.sync || faults.close)));
    IdleStays(g, s, p, Link(p, !faults.link));
    IdleStays(g, s, p, Remove(p, !faults.remove));
    IdleStays(g, s, p, Cleanup(p, !faults.cleanup));
  }

  /** Run one after the other, the steps of the interleaved model do exactly what one append does,
      for every combination of failing calls. */
  lemma StepsAreAppend(g: Signer, s: System, p: nat, progress: Progress, at: int, faults: Faults)
    requires p in s.processes && s.processes[p].phase.Idle? && at != ZERO_INSTANT
    ensures var s' := AppendWith(g, s, p, progress, at, faults);
      && p in s'.processes && s'.processes[p].phase.Idle?
      && Appended(g, SceneOf(s, s.processes[p]), SceneOf(s', s'.processes[p]), progress, at, faults,
                  |s'.processes[p].evidence| > |s.processes[p].evidence|)
  {
    var proc := s.processes[p];
    var n := proc.Number();
    var record := BuildRecord(g, proc.identity, n, proc.previous, progress.evidence, at);
    BuildSigns(g, proc.identity, n, proc.previous, progress.evidence, at);
    CreateAt(g, s, p, progress, at);
    hide BuildRecord;
    hide Next;
    hide Rest;
    var s1 := Next(g, s, Create(p, progress, at));
    if !faults.create {
      if progress.completed == n && progress.total == proc.identity.totalCases && n !in s.temps {
        RestEnds(g, s1, p, proc, record, faults);
        TempsBack(s.temps, n, record);
      } else {
        RestIdle(g, s, p, faults);
      }
    }
  }

  lemma TempsBack(temps: map<nat, Content>, n: nat, record: Record)
    requires n !in temps
    ensures temps[n := Torn] - {n} == temps && temps[n := Torn][n := Whole(record)] - {n} == temps
    ensures temps[n := Torn].Keys == temps.Keys + {n}
    ensures temps[n := Torn][n := Whole(record)].Keys == temps.Keys + {n}
  {
  }

  // ---- Callers that stop at the last case ----

  predicate InRange(r: Record) {
    r.body.completed <= r.body.identity.totalCases
  }

  /** In every run there are no more records than cases if and only if no record past the last case
      was linked. */
  lemma OverrunShows(g: Signer, actions: seq<Action>)
    requires g.Valid()
    ensures FilesOk(Run(g, actions).files)
    ensures var rs := Records(Run(g, actions).files);
      rs != [] ==> (|rs| <= rs[0].body.identity.totalCases <==> forall i :: 0 <= i < |rs| ==> InRange(rs[i]))
  {
    hide *;
    Reachable(g, actions);
    InvChain(g, Run(g, actions));
    if Records(Run(g, actions).files) != [] {
      ChainInRange(g, Records(Run(g, actions).files));
    }
  }

  lemma InvChain(g: Signer, s: System)
    requires Inv(g, s)
    ensures FilesOk(s.files) && ChainOk(g, Records(s.files))
  {
    hide FilesOk;
    hide ChainOk;
    hide Records;
  }

  lemma ChainInRange(g: Signer, rs: seq<Record>)
    requires ChainOk(g, rs) && rs != []
    ensures |rs| <= rs[0].body.identity.totalCases <==> forall i :: 0 <= i < |rs| ==> InRange(rs[i])
  {
    forall i | 0 <= i < |rs| ensures rs[i].body.completed == i + 1 && rs[i].body.identity == rs[0].body.identity {
      assert VerifiesRecord(g, rs[0].body.identity, rs[i], i + 1, PreviousSha(rs, i));
    }
    hide Chain;
    assert InRange(rs[|rs| - 1]) <==> |rs| <= rs[0].body.identity.totalCases;
  }

  ghost predicate Restrained(s: System) {
    && (forall n :: n in s.files && s.files[n].Whole? ==> InRange(s.files[n].record))
    && (forall n :: n in s.temps && s.temps[n].Whole? ==> InRange(s.temps[n].record))
    && (forall p :: p in s.processes && !s.processes[p].phase.Idle? ==> InRange(s.processes[p].phase.record))
  }

  /** A caller that reports no case past the last. */
  predicate Stops(a: Action) {
    a.Create? ==> a.progress.completed <= a.progress.total
  }

  lemma BuildInRange(g: Signer, id: Identity, n: int, previous: ShaText<Body>, e: Evidence, at: int)
    ensures InRange(BuildRecord(g, id, n, previous, e, at)) <==> n <= id.totalCases
  {
  }

  lemma StepRestrained(g: Signer, s: System, a: Action)
    requires Restrained(s) && Stops(a)
    ensures Restrained(Next(g, s, a))
  {
    hide InRange;
    hide FilesOk;
    hide Resumable;
    if a.Create? && a.p in s.processes {
      var proc := s.processes[a.p];
      BuildInRange(g, proc.identity, proc.Number(), proc.previous, a.progress.evidence, a.at);
    }
    hide BuildRecord;
  }

  lemma {:induction false} RunRestrained(g: Signer, actions: seq<Action>)
    requires forall i :: 0 <= i < |actions| ==> Stops(actions[i])
    ensures Restrained(Run(g, actions))
  {
    hide Next;
    hide Stops;
    if actions != [] {
      hide Restrained;
      RunRestrained(g, actions[..|actions| - 1]);
      StepRestrained(g, Run(g, actions[..|actions| - 1]), actions[|actions| - 1]);
    }
  }

  lemma RecordsInRange(files: map<nat, Content>)
    requires FilesOk(files) && forall n :: n in files && files[n].Whole? ==> InRange(files[n].record)
    ensures forall i :: 0 <= i < |Records(files)| ==> InRange(Records(files)[i])
  {
    hide InRange;
    forall i | 0 <= i < |Records(files)| ensures InRange(Records(files)[i]) {
      RecordAt(files, i + 1);
    }
  }

  lemma RestrainedFiles(s: System)
    requires Restrained(s)
    ensures forall n :: n in s.files && s.files[n].Whole? ==> InRange(s.files[n].record)
  {
    hide InRange;
  }

  /** When no caller reports a case past the last, an evaluation can resume after any run exactly when
      no temporary is left and the configuration is the same: the number of records never stands in
      its way. */
  lemma StoppingCallersReopen(g: Signer, actions: seq<Action>, p: nat, id: Identity)
    requires g.Valid() && ValidIdentity(id) && p !in Run(g, actions).processes
    requires forall i :: 0 <= i < |actions| ==> Stops(actions[i])
    ensures var s := Run(g, actions);
      && FilesOk(s.files)
      && var rs := Records(s.files);
         p in Next(g, s, Open(p, id)).processes <==>
           s.temps == map[] && (rs != [] ==> SameConfiguration(id, rs[0].body.identity))
  {
    var total := id.totalCases;
    assert total >= 1;
    hide *;
    ReopenRestores(g, actions, p, id);
    OverrunShows(g, actions);
    RunRestrained(g, actions);
    RestrainedFiles(Run(g, actions));
    RecordsInRange(Run(g, actions).files);
    var rs := Records(Run(g, actions).files);
    if rs != [] && SameConfiguration(id, rs[0].body.identity) {
      SameCases(id, rs[0].body.identity);
    }
  }

  lemma SameCases(a: Identity, b: Identity)
    requires SameConfiguration(a, b)
    ensures a.totalCases == b.totalCases
  {
  }
}
