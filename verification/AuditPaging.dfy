/** The verifier object and the loop that feeds it the stream in overlapping pages. */
module AuditPaging {
  import opened Base
  import opened Decimal
  import opened RedisScripts
  import opened Audit

  const PAGE_SIZE: nat := 512

  lemma ReplaySnoc(auth: Authorization, snap: Snapshot, es: seq<Entry>, e: Entry)
    requires Replay(auth, snap, es).Some?
    ensures Replay(auth, snap, es + [e]) == Audit.Consume(auth, snap, Replay(auth, snap, es).value, e)
  {
    hide Audit.Consume;
    assert (es + [e])[..|es|] == es;
  }

  /** The field count matches and each expected field is there; so the field set is exact. */
  method RequireFields(f: Fields, names: seq<Field>) returns (ok: bool)
    requires forall i, j :: 0 <= i < j < |names| ==> names[i] != names[j]
    ensures ok <==> HasExactly(f, names)
  {
    DistinctSize(names, set n | n in names);
    if |f| != |names| {
      return false;
    }
    for i := 0 to |names|
      invariant forall j :: 0 <= j < i ==> names[j] in f
    {
      if names[i] !in f {
        return false;
      }
    }
    SameSizeSubset((set n | n in names), f.Keys);
    return true;
  }

  class Verifier {
    const auth: Authorization
    const snapshot: Snapshot
    var processed: nat
    var previousId: Option<StreamId>
    var previousCreated: int
    var runs: int
    var calls: int
    var outputs: int
    var cost: int
    var revocationSeen: bool
    var digest: seq<Canonical>
    ghost var consumed: seq<Entry>

    function View(): Progress
      reads this
    {
      Progress(processed, previousId, previousCreated, Usage(runs, calls, outputs, cost), revocationSeen, digest)
    }

    ghost predicate Valid()
      reads this
    {
      && Replay(auth, snapshot, consumed) == Some(View())
      && processed == |consumed|
      && (processed == 0 ==> !revocationSeen)
    }

    constructor (auth: Authorization, snapshot: Snapshot)
      ensures this.auth == auth && this.snapshot == snapshot
      ensures Valid() && consumed == [] && View() == START
    {
      this.auth, this.snapshot := auth, snapshot;
      processed, previousId, previousCreated := 0, None, 0;
      runs, calls, outputs, cost := 0, 0, 0, 0;
      revocationSeen, digest, consumed := false, [], [];
    }

    method CheckInitialized(e: Entry) returns (ok: bool)
      requires TypeIs(e, "initialized")
      ensures ok <==> processed == 0 && ValidInitialization(auth, e)
    {
      if processed != 0 {
        return false;
      }
      var exact := RequireFields(e.fields, INITIALIZED_NAMES);
      return exact && e.fields[FPayloadHash] == auth.payloadHash;
    }

    /** The text checks of a reservation: exact fields, three digests. */
    method CheckReservationText(e: Entry) returns (ok: bool)
      requires FEventType in e.fields && IsReservationType(e.fields[FEventType])
      ensures ok <==> HasExactly(e.fields, RESERVATION_NAMES) && ValidSha256(e.fields[FInvocation])
                      && ValidSha256(e.fields[FSubject]) && ValidSha256(e.fields[FReservation])
    {
      hide ValidSha256;
      var exact := RequireFields(e.fields, RESERVATION_NAMES);
      return exact && ValidSha256(e.fields[FInvocation]) && ValidSha256(e.fields[FSubject])
             && ValidSha256(e.fields[FReservation]);
    }

    method AddReservation(e: Entry) returns (ok: bool)
      requires FEventType in e.fields && IsReservationType(e.fields[FEventType])
      requires Within(Usage(runs, calls, outputs, cost), auth.limits)
      modifies this`runs, this`calls, this`outputs, this`cost
      ensures ok <==> processed > 0 && !revocationSeen && ValidReservation(e)
                      && Within(Plus(old(View()).usage, EntryDelta(e)), auth.limits)
      ensures View().usage == if ok then Plus(old(View()).usage, EntryDelta(e)) else old(View()).usage
    {
      hide FieldInt;
      hide HasExactly;
      hide ValidSha256;
      if processed == 0 || revocationSeen {
        return false;
      }
      var legible := CheckReservationText(e);
      if !legible {
        return false;
      }
      var addRuns, addCalls := FieldInt(e.fields, FRuns), FieldInt(e.fields, FCalls);
      var addOutputs, addCost := FieldInt(e.fields, FOutputs), FieldInt(e.fields, FCost);
      if addRuns.None? || addCalls.None? || addOutputs.None? || addCost.None?
         || addRuns.value < 0 || addCalls.value < 0 || addOutputs.value < 0 || addCost.value < 0 {
        return false;
      }
      if e.fields[FEventType] == "run_reserved" {
        if addRuns.value != 1 || addCalls.value != 0 || addCost.value != 0 {
          return false;
        }
      } else if addRuns.value != 0 || addCalls.value != 1 || addOutputs.value != 0 {
        return false;
      }
      if addRuns.value > auth.limits.runs - runs || addCalls.value > auth.limits.calls - calls
         || addOutputs.value > auth.limits.outputs - outputs || addCost.value > auth.limits.cost - cost {
        return false;
      }
      runs, calls := runs + addRuns.value, calls + addCalls.value;
      outputs, cost := outputs + addOutputs.value, cost + addCost.value;
      return true;
    }

    method CheckRevocation(e: Entry, createdAt: int) returns (ok: bool)
      requires TypeIs(e, "authorization_revoked") && CreatedAt(e) == Some(createdAt)
      ensures ok <==> processed > 0 && !revocationSeen && ValidRevocation(auth, snapshot, e)
                      && processed == snapshot.sequence
    {
      if processed == 0 || revocationSeen || snapshot.status != Revoked
         || snapshot.revocation.None? || snapshot.revocation.value.mode != StreamMode {
        return false;
      }
      if processed != snapshot.sequence {
        return false;
      }
      var exact := RequireFields(e.fields, REVOCATION_NAMES);
      var info := snapshot.revocation.value.info;
      return exact && e.fields[FPayloadHash] == auth.payloadHash && e.fields[FOperator] == info.operator
             && e.fields[FReason] == info.reason && e.fields[FRequest] == info.request && createdAt == info.at;
    }

    method Consume(e: Entry) returns (ok: bool)
      requires Valid() && Within(View().usage, auth.limits)
      modifies this
      ensures ok <==> Audit.Consume(auth, snapshot, old(View()), e).Some?
      ensures Valid() && Within(View().usage, auth.limits)
      ensures consumed == if ok then old(consumed) + [e] else old(consumed)
    {
      hide EntryDelta;
      hide FieldInt;
      hide KindInPlace;
      hide CanonicalOf;
      hide Replay;
      if previousId.Some? && !previousId.value.Before(e.id) {
        return false;
      }
      var sequence := FieldInt(e.fields, FSequence);
      if sequence != Some(processed) || FEventType !in e.fields {
        return false;
      }
      var createdAt := FieldInt(e.fields, FCreatedAt);
      if createdAt.None? || createdAt.value < auth.IssuedMs() || createdAt.value >= auth.ExpiresMs() {
        return false;
      }
      if processed > 0 && createdAt.value < previousCreated {
        return false;
      }
      assert EntryInPlace(auth, View(), e);
      ok := ConsumeKind(e, createdAt.value);
      if ok {
        digest := digest + [CanonicalOf(e, processed, createdAt.value)];
        processed := processed + 1;
        previousId, previousCreated := Some(e.id), createdAt.value;
        consumed := consumed + [e];
        ReplaySnoc(auth, snapshot, old(consumed), e);
      }
    }

    /** The switch on the event type. */
    method ConsumeKind(e: Entry, createdAt: int) returns (ok: bool)
      requires FEventType in e.fields && CreatedAt(e) == Some(createdAt)
      requires Within(View().usage, auth.limits) && (processed == 0 ==> !revocationSeen)
      modifies this`runs, this`calls, this`outputs, this`cost, this`revocationSeen
      ensures ok <==> KindInPlace(auth, snapshot, old(View()), e)
      ensures View() == if ok then old(View()).(usage := Plus(old(View()).usage, EntryDelta(e)),
                                                revocationSeen := TypeIs(e, "authorization_revoked"))
                        else old(View())
      ensures Within(View().usage, auth.limits)
    {
      KindsDiffer(e);
      var eventType := e.fields[FEventType];
      if eventType == "initialized" {
        ok := CheckInitialized(e);
      } else if eventType == "run_reserved" || eventType == "provider_call_reserved" {
        ok := AddReservation(e);
      } else if eventType == "authorization_revoked" {
        ok := CheckRevocation(e, createdAt);
        if ok {
          revocationSeen := true;
        }
      } else {
        return false;
      }
    }
  }

  // ---- XRANGE ----

  predicate Between(e: Entry, low: Option<StreamId>, high: StreamId) {
    (low.Some? ==> !e.id.Before(low.value)) && !high.Before(e.id)
  }

  function Range(es: seq<Entry>, low: Option<StreamId>, high: StreamId): seq<Entry> {
    if es == [] then []
    else
      var last := es[|es| - 1];
      Range(es[..|es| - 1], low, high) + (if Between(last, low, high) then [last] else [])
  }

  /** XRANGE low high COUNT count, both ends inclusive. */
  function RangeN(es: seq<Entry>, low: Option<StreamId>, high: StreamId, count: nat): seq<Entry> {
    var all := Range(es, low, high);
    if |all| <= count then all else all[..count]
  }

  /** On a stream whose entries in range are consecutive, the range is that slice. */
  lemma {:induction false} RangeIsSlice(es: seq<Entry>, low: Option<StreamId>, high: StreamId, i: nat, n: nat)
    requires i <= n <= |es|
    requires forall k :: 0 <= k < |es| ==> (Between(es[k], low, high) <==> i <= k < n)
    ensures Range(es, low, high) == es[i..n]
  {
    hide Between;
    if es != [] {
      hide Range;
      var prior, last := es[..|es| - 1], es[|es| - 1];
      RangeSnoc(es, low, high);
      SliceSnoc(es, i, n);
      if n == |es| && i < n {
        RangeIsSlice(prior, low, high, i, n - 1);
      } else {
        RangeIsSlice(prior, low, high, if i == |es| then i - 1 else i, if n == |es| then n - 1 else n);
      }
    }
  }

  lemma SliceSnoc(es: seq<Entry>, i: nat, n: nat)
    requires i <= n <= |es| && es != []
    ensures var prior, last := es[..|es| - 1], es[|es| - 1];
      es[i..n] == if n == |es| && i < n then prior[i..n - 1] + [last]
                  else prior[if i == |es| then i - 1 else i..if n == |es| then n - 1 else n]
  {
  }

  lemma RangeSnoc(es: seq<Entry>, low: Option<StreamId>, high: StreamId)
    requires es != []
    ensures var prior, last := es[..|es| - 1], es[|es| - 1];
      Range(es, low, high) == if Between(last, low, high) then Range(prior, low, high) + [last] else Range(prior, low, high)
  {
  }

  /** What must hold of the stream at every read for the pages to tile the snapshot's log:
      later appends are allowed, changes to the captured entries are not. */
  ghost predicate Stable(streamAt: nat -> seq<Entry>, log: seq<Entry>, snap: Snapshot) {
    && log != [] && |log| == snap.eventCount && log[|log| - 1].id == snap.lastId
    && (forall k: nat :: log <= streamAt(k) && Increasing(streamAt(k)))
  }

  lemma StablePage(streamAt: nat -> seq<Entry>, log: seq<Entry>, snap: Snapshot, k: nat, i: nat, low: Option<StreamId>)
    requires Stable(streamAt, log, snap) && i < |log|
    requires low == Some(log[i].id) || (i == 0 && low == None)
    ensures Range(streamAt(k), low, snap.lastId) == log[i..]
  {
    var es := streamAt(k);
    assert log <= es && Increasing(es);
    var n := |log|;
    assert forall j :: 0 <= j < n ==> es[j] == log[j];
    forall j | 0 <= j < |es| ensures Between(es[j], low, snap.lastId) <==> i <= j < n {
      assert j < n - 1 ==> es[j].id.Before(es[n - 1].id);
      assert j > n - 1 ==> es[n - 1].id.Before(es[j].id);
      if low.Some? {
        assert j < i ==> es[j].id.Before(es[i].id);
        assert j > i ==> es[i].id.Before(es[j].id);
      }
    }
    RangeIsSlice(es, low, snap.lastId, i, n);
    assert es[i..n] == log[i..];
  }

  // ---- The paging loop ----

  /** Bounds the verifier checks before it reads anything. */
  predicate CountPlausible(auth: Authorization, snap: Snapshot) {
    && snap.eventCount >= 1 && snap.sequence == snap.eventCount - 1
    && snap.eventCount <= 2 + auth.limits.runs + auth.limits.calls
  }

  /** Feeds one page to the verifier; stops at the first entry it refuses or that is too many. */
  method ConsumePage(v: Verifier, page: seq<Entry>, eventCount: int) returns (ok: bool)
    requires v.Valid() && Within(v.View().usage, v.auth.limits)
    modifies v
    ensures v.Valid() && Within(v.View().usage, v.auth.limits)
    ensures ok ==> v.consumed == old(v.consumed) + page && (page != [] ==> |v.consumed| <= eventCount)
    ensures |old(v.consumed)| + |page| <= eventCount ==>
              (ok <==> Replay(v.auth, v.snapshot, old(v.consumed) + page).Some?)
  {
    hide Audit.Consume;
    hide Replay;
    assert old(v.consumed) + page[..0] == old(v.consumed);
    for i := 0 to |page|
      invariant v.Valid() && Within(v.View().usage, v.auth.limits)
      invariant v.consumed == old(v.consumed) + page[..i]
      invariant i > 0 ==> |v.consumed| <= eventCount
    {
      if v.processed >= eventCount {
        return false;
      }
      ghost var prior := v.consumed;
      assert page[..i + 1] == page[..i] + [page[i]];
      ReplaySnoc(v.auth, v.snapshot, prior, page[i]);
      var taken := v.Consume(page[i]);
      if !taken {
        RefusalSticks(v.auth, v.snapshot, prior + [page[i]], page[i + 1..]);
        assert old(v.consumed) + page == prior + [page[i]] + page[i + 1..];
        return false;
      }
    }
    assert page[..|page|] == page;
    return true;
  }

  lemma {:induction false} RefusalSticks(auth: Authorization, snap: Snapshot, es: seq<Entry>, more: seq<Entry>)
    requires Replay(auth, snap, es).None?
    ensures Replay(auth, snap, es + more).None?
  {
    hide Audit.Consume;
    if more == [] {
      assert es + more == es;
    } else {
      var prior := more[..|more| - 1];
      RefusalSticks(auth, snap, es, prior);
      assert (es + more)[..|es + more| - 1] == es + prior;
    }
  }

  lemma ReplayUpTo(auth: Authorization, snap: Snapshot, log: seq<Entry>, k: nat)
    requires k <= |log| && Replay(auth, snap, log[..k]).None?
    ensures Replay(auth, snap, log).None?
  {
    hide Replay;
    RefusalSticks(auth, snap, log[..k], log[k..]);
    assert log[..k] + log[k..] == log;
  }

  /** One read: fetch the page after `start`, drop the entry it overlaps in, and consume the rest. */
  method ReadPage(
    v: Verifier, stream: seq<Entry>, start: Option<StreamId>, ghost log: seq<Entry>, ghost stable: bool)
    returns (ok: bool, next: StreamId)
    requires v.Valid() && Within(v.View().usage, v.auth.limits) && |v.consumed| < v.snapshot.eventCount
    requires stable ==> |v.consumed| < |log| == v.snapshot.eventCount && v.consumed == log[..|v.consumed|]
                        && PageFollows(stream, v.snapshot, log, |v.consumed|, start)
    modifies v
    ensures v.Valid() && Within(v.View().usage, v.auth.limits)
    ensures ok ==> old(v.consumed) < v.consumed && |v.consumed| <= v.snapshot.eventCount
                   && next == v.consumed[|v.consumed| - 1].id
    ensures stable && ok ==> v.consumed == log[..|v.consumed|]
    ensures stable && !ok ==> Replay(v.auth, v.snapshot, log).None?
  {
    hide Replay;
    hide RangeN;
    ok, next := false, StreamId(0, 0);
    var count := if start.Some? then PAGE_SIZE + 1 else PAGE_SIZE;
    var page := RangeN(stream, start, v.snapshot.lastId, count);
    if start.Some? {
      if page == [] || page[0].id != start.value {
        return;
      }
      page := page[1..];
    }
    if page == [] {
      return;
    }
    ghost var end := |v.consumed| + |page|;
    assert stable ==> end <= |log| && v.consumed + page == log[..end];
    ok := ConsumePage(v, page, v.snapshot.eventCount);
    if ok {
      next := page[|page| - 1].id;
    } else if stable {
      ReplayUpTo(v.auth, v.snapshot, log, end);
    }
  }

  /** The paging loop: each page starts at the last entry of the one before. */
  method ReadPages(v: Verifier, streamAt: nat -> seq<Entry>, ghost log: seq<Entry>) returns (ok: bool)
    requires v.Valid() && v.consumed == [] && v.View() == START && v.auth.Valid() && v.snapshot.eventCount >= 1
    modifies v
    ensures v.Valid()
    ensures Stable(streamAt, log, v.snapshot) ==>
              if ok then v.consumed == log else Replay(v.auth, v.snapshot, log).None?
  {
    hide Replay;
    hide PageFollows;
    var snap := v.snapshot;
    ghost var stable := Stable(streamAt, log, snap);
    var start: Option<StreamId> := None;
    var pages := 0;
    while v.processed < snap.eventCount
      invariant v.Valid() && Within(v.View().usage, v.auth.limits)
      invariant |v.consumed| <= snap.eventCount
      invariant start == if v.consumed == [] then None else Some(v.consumed[|v.consumed| - 1].id)
      invariant stable ==> |v.consumed| <= |log| == snap.eventCount && v.consumed == log[..|v.consumed|]
      decreases snap.eventCount - |v.consumed|
    {
      if stable {
        PageIsNext(streamAt, log, snap, pages, |v.consumed|, start);
      }
      var read, next := ReadPage(v, streamAt(pages), start, log, stable);
      pages := pages + 1;
      if !read {
        return false;
      }
      start := Some(next);
      if next == snap.lastId {
        break;
      }
    }
    if stable && start == Some(snap.lastId) {
      LastIdIsLast(streamAt, log, snap, |v.consumed|);
    }
    assert stable ==> log[..|log|] == log;
    return true;
  }

  lemma LastIdIsLast(streamAt: nat -> seq<Entry>, log: seq<Entry>, snap: Snapshot, n: nat)
    requires Stable(streamAt, log, snap) && 0 < n <= |log| && log[n - 1].id == snap.lastId
    ensures n == |log|
  {
    var es := streamAt(0);
    assert log <= es && Increasing(es);
    assert es[n - 1] == log[n - 1] && es[|log| - 1] == log[|log| - 1];
  }

  /** Reads the stream page by page and replays it. `streamAt(k)` is the stream as the k-th read
      finds it; nothing is assumed about it. A verified run has replayed a valid log, whatever the
      reads returned. If appends are all that happened to the stream since the snapshot, every
      captured entry is replayed exactly once and the verdict is the verdict on the captured log. */
  method VerifyAuditStream(auth: Authorization, snap: Snapshot, streamAt: nat -> seq<Entry>, ghost log: seq<Entry>)
    returns (verified: bool, digest: seq<Canonical>, ghost replayed: seq<Entry>)
    requires auth.Valid() && (snap.status == Initialized || snap.status == Revoked)
    ensures verified ==> CountPlausible(auth, snap) && AuditValid(auth, snap, replayed)
    ensures verified ==>
      |digest| == |replayed| && forall i :: 0 <= i < |replayed| ==>
        CreatedAt(replayed[i]).Some? && digest[i] == CanonicalOf(replayed[i], i, CreatedAt(replayed[i]).value)
    ensures Stable(streamAt, log, snap) ==> (verified <==> CountPlausible(auth, snap) && AuditValid(auth, snap, log))
    ensures Stable(streamAt, log, snap) && verified ==> replayed == log && |digest| == |log|
  {
    hide Replay;
    hide AuditValid;
    hide Stable;
    verified, digest, replayed := false, [], [];
    if snap.eventCount < 1 || snap.sequence != snap.eventCount - 1
       || snap.eventCount > 2 + auth.limits.runs + auth.limits.calls {
      return;
    }
    AcceptsExactly(auth, snap, log);
    var v := new Verifier(auth, snap);
    var ok := ReadPages(v, streamAt, log);
    if ok {
      replayed := v.consumed;
      digest := v.digest;
      verified := Finish(v);
      ReplayDecides(auth, snap, replayed);
      AcceptsExactly(auth, snap, replayed);
    }
  }

  /** The page after `done` entries of the log is the next slice of the log. */
  ghost predicate PageFollows(
    stream: seq<Entry>, snap: Snapshot, log: seq<Entry>, done: nat, start: Option<StreamId>)
    requires done < |log|
  {
    var page := RangeN(stream, start, snap.lastId, if start.Some? then PAGE_SIZE + 1 else PAGE_SIZE);
    var end := if |log| - done <= PAGE_SIZE then |log| else done + PAGE_SIZE;
    && (start.Some? ==> done > 0 && log[done - 1].id == start.value)
    && page == (if start.None? then [] else [log[done - 1]]) + log[done..end]
  }

  /** The next page of a stable stream is the next slice of the log. */
  lemma PageIsNext(
    streamAt: nat -> seq<Entry>, log: seq<Entry>, snap: Snapshot, k: nat, done: nat, start: Option<StreamId>)
    requires Stable(streamAt, log, snap) && done < |log|
    requires start == if done == 0 then None else Some(log[done - 1].id)
    ensures PageFollows(streamAt(k), snap, log, done, start)
  {
    if done == 0 {
      StablePage(streamAt, log, snap, k, 0, None);
      assert log[0..] == log;
    } else {
      StablePage(streamAt, log, snap, k, done - 1, start);
    }
  }

  method Finish(v: Verifier) returns (ok: bool)
    ensures ok <==> Finishes(v.snapshot, v.View())
  {
    if v.processed != v.snapshot.eventCount || v.previousId != Some(v.snapshot.lastId) {
      return false;
    }
    if v.snapshot.status == Revoked && !v.revocationSeen {
      return false;
    }
    if v.snapshot.status == Initialized && v.revocationSeen {
      return false;
    }
    return v.runs == v.snapshot.usage.runs && v.calls == v.snapshot.usage.calls
           && v.outputs == v.snapshot.usage.outputs && v.cost == v.snapshot.usage.cost;
  }
}
