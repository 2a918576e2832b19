/** Loading the file ledger and appending to it: the scan loop and the retry loop. */
module FileStore {
  import opened Base
  import opened Signing
  import opened Numbered
  import opened RedisScripts
  import opened FileLedger

  // ---- Loading ----

  /** The running total in machine integers is exact, and accepted exactly when it is within limits. */
  lemma WrappedTotalExact(l: Limits, u: Usage, d: Usage)
    requires ValidLimits(l) && Within(u, l) && SmallDelta(d)
    ensures var w := Usage(Wrap64(u.runs + d.runs), Wrap64(u.calls + d.calls),
                           Wrap64(u.outputs + d.outputs), Wrap64(u.cost + d.cost));
      && (d.cost <= MAX_INT64 - u.cost && Admits(l, ZERO, w) <==> Within(Plus(u, d), l))
      && (Within(Plus(u, d), l) ==> w == Plus(u, d))
  {
  }

  /** If the scan stops at a record it cannot accept, no honest ledger is in the directory. */
  lemma StopIsFinal(g: Ledger, d: Directory, seen: seq<Record>, rs: seq<Record>)
    requires HonestLedger(g, seen) && Holds(d, rs) && |seen| < |rs|
    requires StartsWith(d, seen)
    requires !HonestLedger(g, seen + [rs[|seen|]])
    ensures !HonestLedger(g, rs)
  {
    hide HonestLedger;
    var k := |seen| + 1;
    assert forall j :: 0 <= j < |seen| ==> FileIs(d, j + 1, rs[j]) && rs[j] == seen[j];
    assert rs[..k] == seen + [rs[|seen|]];
    if HonestLedger(g, rs) {
      HonestPrefix(g, rs, k);
    }
  }

  lemma StartsEmpty(d: Directory)
    ensures StartsWith(d, [])
  {
  }

  lemma StartsWithSnoc(d: Directory, rs: seq<Record>, r: Record)
    requires StartsWith(d, rs) && |rs| + 1 in d.files && d.files[|rs| + 1] == Decoded(r)
    ensures StartsWith(d, rs + [r])
  {
    var all := rs + [r];
    assert forall i :: 0 <= i < |rs| ==> all[i] == rs[i];
  }

  lemma RefuseAt(g: Ledger, d: Directory, seen: seq<Record>)
    requires HonestLedger(g, seen) && |seen| + 1 <= |d.files| && |seen| + 1 in d.files
    requires StartsWith(d, seen)
    requires d.files[|seen| + 1].Decoded? ==> !HonestLedger(g, seen + [d.files[|seen| + 1].record])
    ensures forall rs :: Holds(d, rs) ==> !HonestLedger(g, rs)
  {
    hide HonestLedger;
    forall rs | Holds(d, rs) ensures !HonestLedger(g, rs) {
      assert FileIs(d, |seen| + 1, rs[|seen|]);
      HonestSnoc(g, seen, rs[|seen|]);
      StopIsFinal(g, d, seen, rs);
    }
  }

  lemma VerifiedIsSigned(g: Ledger, r: Record, sequence: int, previous: ShaText<Payload>)
    requires VerifiesRecord(g, r, sequence, previous)
    ensures r.integrity.Some?
  {
  }

  /** One record of the scan: decode, verify against the predecessor, add up, re-admit the total. */
  method CheckRecord(g: Ledger, records: seq<Record>, usage: Usage, previous: ShaText<Payload>, file: File)
    returns (ok: bool, total: Usage)
    requires g.Valid() && HonestLedger(g, records)
    requires usage == RecordUsage(records) && previous == PreviousSha(records, |records|)
    ensures ok <==> file.Decoded? && HonestLedger(g, records + [file.record])
    ensures ok ==> total == RecordUsage(records + [file.record]) && file.record.integrity.Some?
  {
    hide HonestLedger;
    hide VerifiesRecord;
    ok, total := false, usage;
    if file.Undecodable? {
      return;
    }
    var record := file.record;
    HonestSnoc(g, records, record);
    HonestWithin(g, records);
    UsageSnoc(records, record);
    if !Decodes(file) || !VerifiesRecord(g, record, |records| + 1, previous) {
      return;
    }
    VerifiedIsSigned(g, record, |records| + 1, previous);
    var delta := record.payload.delta;
    WrappedTotalExact(g.auth.limits, usage, delta);
    var runs, calls := Wrap64(usage.runs + delta.runs), Wrap64(usage.calls + delta.calls);
    var outputs := Wrap64(usage.outputs + delta.outputs);
    if delta.cost > MAX_INT64 - usage.cost {
      return;
    }
    var cost := Wrap64(usage.cost + delta.cost);
    hide Wrap64;
    ok := Admits(g.auth.limits, ZERO, Usage(runs, calls, outputs, cost));
    if ok {
      total := Usage(runs, calls, outputs, cost);
    }
  }

  /** Reads the directory in name order, verifying each record against its predecessor and
      re-admitting the running total; the result is what the whole directory deserves. */
  method Load(g: Ledger, d: Directory, names: seq<nat>) returns (r: LoadResult)
    requires g.Valid() && SortedListing(names, d.files)
    ensures LoadsAs(g, d, r)
    ensures r.Loaded? ==> forall n :: 1 <= n <= |r.records| ==> Genuine(g, r.records, n)
  {
    hide HonestLedger;
    hide RecordUsage;
    hide StartsWith;
    hide Contiguous;
    ListingSize(names, d.files);
    if d.strays != {} || |names| > MAX_EVENTS {
      return LoadFailed;
    }
    var records: seq<Record>, usage, previous := [], ZERO, NoSha;
    EmptyHonest(g);
    StartsEmpty(d);
    for index := 0 to |names|
      invariant |records| == index && HonestLedger(g, records) && usage == RecordUsage(records)
      invariant previous == PreviousSha(records, index)
      invariant forall j :: 0 <= j < index ==> names[j] == j + 1
      invariant StartsWith(d, records)
    {
      if names[index] != index + 1 {
        GapIsFatal(names, d.files, index);
        return LoadFailed;
      }
      assert names[index] in names;
      var file := d.files[index + 1];
      var ok, total := CheckRecord(g, records, usage, previous, file);
      if !ok {
        RefuseAt(g, d, records);
        return LoadFailed;
      }
      StartsWithSnoc(d, records, file.record);
      usage := total;
      records := records + [file.record];
      previous := file.record.integrity.value.payloadSha;
    }
    AllNamed(names, d.files);
    forall n | 1 <= n <= |records| ensures Genuine(g, records, n) {
      HonestIsGenuine(g, records, n);
    }
    hide Genuine;
    return Loaded(records, usage);
  }

  // ---- Appending ----

  /** The record a process signs on top of the records it loaded. */
  function BuildRecord(
    g: Ledger, invocation: string, prior: seq<Record>, request: Request, subject: string, now: int): Record
  {
    var p := Payload(RECORD_SCHEMA, g.auth.id, g.auth.payloadHash, |prior| + 1, PreviousSha(prior, |prior|),
                     invocation, EventType(request), subject, Delta(request), Time(now, 0));
    Record(p, Some(Sign(g, p)))
  }

  /** A record that says what its caller asked for, made and signed at the given instant. */
  predicate Carries(g: Ledger, r: Record, invocation: string, request: Request, subject: string, now: int) {
    && r.payload.invocation == invocation && r.payload.subject == subject && r.payload.createdAt == Time(now, 0)
    && r.payload.authorizationId == g.auth.id && r.payload.authorizationHash == g.auth.payloadHash
    && (match request
        case RunRequest(outputs) => r.payload.eventType == "run_reserved" && r.payload.delta == Usage(1, 0, outputs, 0)
        case CallRequest(cost) => r.payload.eventType == "provider_call_reserved" && r.payload.delta == Usage(0, 1, 0, cost))
    && r.integrity.Some? && r.integrity.value.signedAt == Time(now, 0) && r.integrity.value.keyId == g.keyId
    && r.integrity.value.payloadSha == ShaOf(r.payload, 0)
    && r.integrity.value.signature == MacOf(Mac(g.key, "hmac-sha256", g.keyId, now, r.payload), 0)
  }

  lemma BuildCarries(g: Ledger, invocation: string, prior: seq<Record>, request: Request, subject: string, now: int)
    ensures var r := BuildRecord(g, invocation, prior, request, subject, now);
      && Carries(g, r, invocation, request, subject, now) && r.payload.sequence == |prior| + 1
      && r.payload.previous == PreviousSha(prior, |prior|)
  {
  }

  lemma BuildVerifies(
    g: Ledger, invocation: string, prior: seq<Record>, request: Request, subject: string, now: int)
    requires g.Valid() && invocation != "" && g.auth.InWindow(now)
    ensures VerifiesRecord(g, BuildRecord(g, invocation, prior, request, subject, now), |prior| + 1,
                           PreviousSha(prior, |prior|))
  {
  }

  /** An admitted record keeps the ledger honest, unless its captured outputs overflow the counter. */
  lemma BuildKeepsHonest(
    g: Ledger, invocation: string, prior: seq<Record>, request: Request, subject: string, now: int)
    requires g.Valid() && invocation != "" && g.auth.InWindow(now)
    requires HonestLedger(g, prior) && TypedRequest(request) && Admits(g.auth.limits, RecordUsage(prior), Delta(request))
    ensures HonestLedger(g, prior + [BuildRecord(g, invocation, prior, request, subject, now)]) <==>
            Affordable(g.auth.limits, RecordUsage(prior), request)
    ensures FitsCounter(g.auth.limits, request) ==>
            HonestLedger(g, prior + [BuildRecord(g, invocation, prior, request, subject, now)])
  {
    hide HonestLedger;
    hide VerifiesRecord;
    var r := BuildRecord(g, invocation, prior, request, subject, now);
    HonestWithin(g, prior);
    BuildVerifies(g, invocation, prior, request, subject, now);
    HonestSnoc(g, prior, r);
    AdmitExactly(g.auth.limits, RecordUsage(prior), request);
  }

  function DirectoryOf(files: map<nat, Record>): Directory {
    Directory(map n | n in files :: Decoded(files[n]), {})
  }

  lemma DirectoryHolds(files: map<nat, Record>)
    requires Contiguous(files)
    ensures Holds(DirectoryOf(files), View(files))
  {
    assert DirectoryOf(files).files.Keys == files.Keys;
  }

  datatype AppendResult = Committed | OutOfWindow | Unreadable | OverBudget | Contended | IoError

  /** An input or output error while committing: before the link, or after it succeeded. */
  datatype CommitFault = NoFault | FailsBefore | FailsAfter

  const MAX_ATTEMPTS: nat := 32

  /** Later files: everything that was there still is, unchanged. */
  ghost predicate Extends(before: map<nat, Record>, after: map<nat, Record>) {
    forall n :: n in before ==> n in after && after[n] == before[n]
  }

  lemma LaterView(before: map<nat, Record>, after: map<nat, Record>)
    requires Contiguous(before) && Contiguous(after) && Extends(before, after)
    ensures View(before) <= View(after)
  {
    ViewSize(before);
    ViewSize(after);
    assert before.Keys <= after.Keys;
    SubsetSize(before.Keys, after.Keys);
    hide Numbers;
    hide View;
    forall i | 0 <= i < |before| ensures View(before)[i] == View(after)[i] {
      ViewAt(before, i + 1);
      ViewAt(after, i + 1);
    }
  }

  /** The directory other processes share: records by number. */
  class SharedDirectory {
    var files: map<nat, Record>

    /** Exclusive creation. A number once taken keeps its record; and on a gap-free directory only
        the number after the last can still be taken by a process that knows a prefix of it, which
        leaves it gap-free with the record at its end. */
    method Link(number: nat, r: Record) returns (created: bool)
      modifies this
      ensures Extends(old(files), files) && files.Keys == old(files).Keys + {number}
      ensures created ==> number !in old(files) && files[number] == r
      ensures !created ==> files == old(files)
      ensures Contiguous(old(files)) && 1 <= number <= |old(files)| + 1 ==>
        && (created <==> number == |old(files)| + 1) && Contiguous(files)
        && View(files) == if created then View(old(files)) + [r] else View(old(files))
    {
      created := number !in files;
      if created {
        ghost var before := files;
        if Contiguous(before) && 1 <= number <= |before| + 1 {
          NextNumber(before, number, r);
        }
        files := files[number := r];
      } else {
        ghost var before := files;
        if Contiguous(before) {
          ViewAt(before, number);
        }
      }
    }
  }

  /** Whether a ledger without rivals accepts a request. */
  ghost predicate AppendAccepts(g: Ledger, rs: seq<Record>, request: Request, now: int) {
    && g.auth.InWindow(now) && HonestLedger(g, rs) && |rs| <= MAX_EVENTS
    && Admits(g.auth.limits, RecordUsage(rs), Delta(request))
  }

  /** The directory ended as everything that was there plus one record, which was admitted on top of all
      of it, numbered and linked after it, and says what the caller asked for. */
  ghost predicate PutOnTop(
    g: Ledger, before: seq<Record>, prior: seq<Record>, after: seq<Record>,
    invocation: string, request: Request, subject: string, now: int)
  {
    && before <= prior && AppendAccepts(g, prior, request, now)
    && after == prior + [BuildRecord(g, invocation, prior, request, subject, now)]
    && |after| == |prior| + 1
    && var last := after[|prior|];
       && Carries(g, last, invocation, request, subject, now)
       && last.payload.sequence == |after| && last.payload.previous == PreviousSha(prior, |prior|)
  }

  lemma PutsOnTop(
    g: Ledger, before: seq<Record>, prior: seq<Record>, after: seq<Record>,
    invocation: string, request: Request, subject: string, now: int)
    requires before <= prior && AppendAccepts(g, prior, request, now)
    requires after == prior + [BuildRecord(g, invocation, prior, request, subject, now)]
    ensures PutOnTop(g, before, prior, after, invocation, request, subject, now)
  {
    hide AppendAccepts;
    hide Carries;
    BuildCarries(g, invocation, prior, request, subject, now);
    hide BuildRecord;
  }

  /** What other processes may do to the directory: add records, leaving no gap. */
  ghost predicate Fair(rivals: (nat, map<nat, Record>) -> map<nat, Record>) {
    forall i: nat, files: map<nat, Record> :: Extends(files, rivals(i, files)) && (Contiguous(files) ==> Contiguous(rivals(i, files)))
  }

  /** Load, admit, sign, commit; start over when another process took the number. `rivals(i, files)` is
      what other processes leave in the directory between the load and the link of attempt i, and
      `faults(i)` what goes wrong in its commit. `prior` is what this call's record was put on top of,
      if it was committed: all that was there, admitted against it. That is so exactly for a success
      and for an error after the link, where the budget is spent though the caller is refused. */
  method AppendReservation(
    g: Ledger, directory: SharedDirectory, invocation: string, request: Request, subject: string, now: int,
    rivals: (nat, map<nat, Record>) -> map<nat, Record>, faults: nat -> CommitFault)
    returns (result: AppendResult, ghost prior: Option<seq<Record>>)
    requires g.Valid() && invocation != "" && Contiguous(directory.files) && Fair(rivals)
    modifies directory
    ensures Contiguous(directory.files) && Extends(old(directory.files), directory.files)
    ensures result == Committed ==> prior.Some?
    ensures prior.Some? ==> result == Committed || result == IoError
    ensures prior.Some? ==>
      PutOnTop(g, View(old(directory.files)), prior.value, View(directory.files), invocation, request, subject, now)
    ensures result == OutOfWindow <==> !g.auth.InWindow(now)
    ensures (forall i: nat, files: map<nat, Record> :: rivals(i, files) == files) ==>
      var rs := View(old(directory.files));
      && (prior.Some? <==> AppendAccepts(g, rs, request, now) && faults(0) != FailsBefore)
      && (prior.Some? ==> prior.value == rs)
      && (prior.None? ==> directory.files == old(directory.files))
      && (result == Committed <==> AppendAccepts(g, rs, request, now) && faults(0) == NoFault)
      && (result == IoError <==> AppendAccepts(g, rs, request, now) && faults(0) != NoFault)
      && (result == Unreadable <==> g.auth.InWindow(now) && !(HonestLedger(g, rs) && |rs| <= MAX_EVENTS))
      && result != Contended
  {
    hide HonestLedger;
    hide Contiguous;
    hide View;
    hide Extends;
    hide Admits;
    hide RecordUsage;
    hide PutOnTop;
    hide BuildRecord;
    prior := None;
    ghost var before := directory.files;
    ExtendsSelf(before);
    if !g.auth.InWindow(now) {
      return OutOfWindow, None;
    }
    ghost var alone := forall i: nat, files: map<nat, Record> :: rivals(i, files) == files;
    for attempt := 0 to MAX_ATTEMPTS
      invariant Contiguous(directory.files) && Extends(before, directory.files)
      invariant alone ==> attempt == 0 && directory.files == before
    {
      ghost var seen := directory.files;
      var loaded := LoadAll(g, directory.files);
      if loaded.LoadFailed? {
        return Unreadable, None;
      }
      if !Admits(g.auth.limits, loaded.usage, Delta(request)) {
        return OverBudget, None;
      }
      var records := loaded.records;
      var record := BuildRecord(g, invocation, records, request, subject, now);
      directory.files := rivals(attempt, directory.files);
      ghost var found := directory.files;
      ExtendsAll(before, seen, found);
      LaterView(before, seen);
      LaterView(seen, found);
      ViewSize(seen);
      ViewSize(found);
      if faults(attempt) == FailsBefore {
        return IoError, None;
      }
      var created := directory.Link(|records| + 1, record);
      ExtendsAll(before, found, directory.files);
      if created {
        SamePrefix(View(seen), View(found));
        PutsOnTop(g, View(before), records, View(directory.files), invocation, request, subject, now);
        prior := Some(records);
        return if faults(attempt) == NoFault then Committed else IoError, Some(records);
      }
    }
    return Contended, None;
  }

  lemma ExtendsSelf(files: map<nat, Record>)
    ensures Extends(files, files)
  {
  }

  lemma ExtendsAll(a: map<nat, Record>, b: map<nat, Record>, c: map<nat, Record>)
    requires Extends(a, b) && Extends(b, c)
    ensures Extends(a, c)
  {
  }

  lemma SamePrefix(a: seq<Record>, b: seq<Record>)
    requires a <= b && |a| == |b|
    ensures a == b
  {
  }

  /** Loading the shared directory: all its records, or a failure. */
  method LoadAll(g: Ledger, files: map<nat, Record>) returns (r: LoadResult)
    requires g.Valid() && Contiguous(files)
    ensures var rs := View(files);
      r == if |rs| <= MAX_EVENTS && HonestLedger(g, rs) then Loaded(rs, RecordUsage(rs)) else LoadFailed
  {
    hide *;
    var d := DirectoryOf(files);
    var names := seq(|files|, i => i + 1);
    DirectoryHolds(files);
    SameCount(files);
    ListsAll(d, View(files), names);
    r := Load(g, d, names);
    LoadsOnly(g, d, View(files), r);
  }

  lemma SameCount(files: map<nat, Record>)
    ensures |DirectoryOf(files).files| == |files|
  {
    assert DirectoryOf(files).files.Keys == files.Keys;
  }

  lemma LoadsOnly(g: Ledger, d: Directory, rs: seq<Record>, r: LoadResult)
    requires Holds(d, rs) && LoadsAs(g, d, r)
    ensures r == if |rs| <= MAX_EVENTS && HonestLedger(g, rs) then Loaded(rs, RecordUsage(rs)) else LoadFailed
  {
    hide HonestLedger;
    hide Holds;
    hide RecordUsage;
    if r.Loaded? {
      SameRecords(d, rs, r.records);
    }
  }

  lemma ListsAll(d: Directory, rs: seq<Record>, names: seq<nat>)
    requires Holds(d, rs) && |names| == |d.files| && forall i :: 0 <= i < |names| ==> names[i] == i + 1
    ensures SortedListing(names, d.files)
  {
    forall n ensures n in names <==> n in d.files {
      if n in d.files {
        assert names[n - 1] == n;
      }
    }
  }

  lemma SameRecords(d: Directory, a: seq<Record>, b: seq<Record>)
    requires Holds(d, a) && Holds(d, b)
    ensures a == b
  {
    assert forall i :: 0 <= i < |a| ==> FileIs(d, i + 1, a[i]) && FileIs(d, i + 1, b[i]);
  }
}
