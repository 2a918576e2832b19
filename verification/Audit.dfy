/** The audit verifier: it replays a stream of raw text fields entry by entry and
    reconciles the result with a snapshot of the state hash. */
module Audit {
  import opened Base
  import opened Decimal
  import opened RedisScripts

  // ---- Legible entries ----

  const INITIALIZED_NAMES: seq<Field> := [FSequence, FEventType, FCreatedAt, FPayloadHash]
  const RESERVATION_NAMES: seq<Field> :=
    [FSequence, FEventType, FCreatedAt, FInvocation, FSubject, FRuns, FCalls, FOutputs, FCost, FReservation]
  const REVOCATION_NAMES: seq<Field> :=
    [FSequence, FEventType, FCreatedAt, FPayloadHash, FOperator, FReason, FRequest]

  predicate HasExactly(f: Fields, names: seq<Field>) {
    f.Keys == set n | n in names
  }

  predicate TypeIs(e: Entry, eventType: string) {
    FEventType in e.fields && e.fields[FEventType] == eventType
  }

  predicate ValidInitialization(auth: Authorization, e: Entry) {
    && TypeIs(e, "initialized")
    && HasExactly(e.fields, INITIALIZED_NAMES)
    && e.fields[FPayloadHash] == auth.payloadHash
  }

  predicate NonNegativeField(f: Fields, name: Field) {
    FieldInt(f, name).Some? && FieldInt(f, name).value >= 0
  }

  predicate ValidReservation(e: Entry) {
    && FEventType in e.fields && IsReservationType(e.fields[FEventType])
    && HasExactly(e.fields, RESERVATION_NAMES)
    && ValidSha256(e.fields[FInvocation]) && ValidSha256(e.fields[FSubject]) && ValidSha256(e.fields[FReservation])
    && NonNegativeField(e.fields, FRuns) && NonNegativeField(e.fields, FCalls)
    && NonNegativeField(e.fields, FOutputs) && NonNegativeField(e.fields, FCost)
    && ReservationShape(e.fields[FEventType], EntryDelta(e))
  }

  predicate ValidRevocation(auth: Authorization, snap: Snapshot, e: Entry) {
    && snap.status == Revoked && snap.revocation.Some? && snap.revocation.value.mode == StreamMode
    && TypeIs(e, "authorization_revoked")
    && HasExactly(e.fields, REVOCATION_NAMES)
    && e.fields[FPayloadHash] == auth.payloadHash
    && e.fields[FOperator] == snap.revocation.value.info.operator
    && e.fields[FReason] == snap.revocation.value.info.reason
    && e.fields[FRequest] == snap.revocation.value.info.request
    && FieldInt(e.fields, FCreatedAt) == Some(snap.revocation.value.info.at)
  }

  function CreatedAt(e: Entry): Option<int> {
    FieldInt(e.fields, FCreatedAt)
  }

  predicate CreatedInWindow(auth: Authorization, e: Entry) {
    CreatedAt(e).Some? && auth.InWindowMs(CreatedAt(e).value)
  }

  // ---- What an honest audit log looks like, stated about the whole log ----

  ghost predicate Numbered(es: seq<Entry>) {
    forall i :: 0 <= i < |es| ==> FieldInt(es[i].fields, FSequence) == Some(i)
  }

  ghost predicate TimesInOrder(auth: Authorization, es: seq<Entry>) {
    && (forall i :: 0 <= i < |es| ==> CreatedInWindow(auth, es[i]))
    && (forall i, j :: 0 <= i < j < |es| ==> CreatedAt(es[i]).value <= CreatedAt(es[j]).value)
  }

  ghost predicate PrefixesAffordable(auth: Authorization, es: seq<Entry>) {
    forall k :: 0 <= k <= |es| ==> Within(StreamUsage(es[..k]), auth.limits)
  }

  /** Creation first and only first; then reservations; a matching revocation only in the
      snapshot's terminal position, and nothing after it. */
  ghost predicate KindsInOrder(auth: Authorization, snap: Snapshot, es: seq<Entry>) {
    && (es != [] ==> ValidInitialization(auth, es[0]))
    && (forall i :: 0 < i < |es| - 1 ==> ValidReservation(es[i]))
    && (|es| > 1 ==> ValidReservation(es[|es| - 1])
                     || (ValidRevocation(auth, snap, es[|es| - 1]) && |es| - 1 == snap.sequence))
  }

  ghost predicate PrefixValid(auth: Authorization, snap: Snapshot, es: seq<Entry>) {
    && Increasing(es) && Numbered(es) && TimesInOrder(auth, es)
    && KindsInOrder(auth, snap, es) && PrefixesAffordable(auth, es)
  }

  predicate EndsRevoked(es: seq<Entry>) {
    es != [] && TypeIs(es[|es| - 1], "authorization_revoked")
  }

  /** A log that is the snapshot's: it ends where the snapshot does and adds up to its usage. */
  ghost predicate AuditValid(auth: Authorization, snap: Snapshot, es: seq<Entry>) {
    && PrefixValid(auth, snap, es)
    && es != [] && |es| == snap.eventCount && es[|es| - 1].id == snap.lastId
    && (EndsRevoked(es) <==> snap.status == Revoked)
    && StreamUsage(es) == snap.usage
  }

  // ---- The verifier, one entry at a time ----

  /** What goes into the stream digest for one entry. */
  datatype Canonical = Canonical(
    id: StreamId, sequence: int, eventType: string, createdAt: int, payloadHash: string,
    invocation: string, subject: string, delta: Usage, reservation: string,
    operator: string, reason: string, request: string)

  function TextOr(f: Fields, name: Field): string {
    if name in f then f[name] else ""
  }

  function CanonicalOf(e: Entry, sequence: int, createdAt: int): Canonical {
    Canonical(e.id, sequence, TextOr(e.fields, FEventType), createdAt, TextOr(e.fields, FPayloadHash),
              TextOr(e.fields, FInvocation), TextOr(e.fields, FSubject), EntryDelta(e),
              TextOr(e.fields, FReservation), TextOr(e.fields, FOperator), TextOr(e.fields, FReason),
              TextOr(e.fields, FRequest))
  }

  datatype Progress = Progress(
    processed: nat, previousId: Option<StreamId>, previousCreated: int,
    usage: Usage, revocationSeen: bool, digest: seq<Canonical>)

  const START: Progress := Progress(0, None, 0, ZERO, false, [])

  /** The checks every entry passes before its kind is looked at. */
  predicate EntryInPlace(auth: Authorization, p: Progress, e: Entry) {
    && (p.previousId.Some? ==> p.previousId.value.Before(e.id))
    && FieldInt(e.fields, FSequence) == Some(p.processed)
    && FEventType in e.fields
    && CreatedInWindow(auth, e)
    && (p.processed > 0 ==> CreatedAt(e).value >= p.previousCreated)
  }

  predicate KindInPlace(auth: Authorization, snap: Snapshot, p: Progress, e: Entry) {
    || (p.processed == 0 && ValidInitialization(auth, e))
    || (p.processed > 0 && !p.revocationSeen && ValidReservation(e)
        && Within(Plus(p.usage, EntryDelta(e)), auth.limits))
    || (p.processed > 0 && !p.revocationSeen && ValidRevocation(auth, snap, e) && p.processed == snap.sequence)
  }

  function Consume(auth: Authorization, snap: Snapshot, p: Progress, e: Entry): Option<Progress> {
    if EntryInPlace(auth, p, e) && KindInPlace(auth, snap, p, e) then
      Some(Progress(p.processed + 1, Some(e.id), CreatedAt(e).value, Plus(p.usage, EntryDelta(e)),
                    TypeIs(e, "authorization_revoked"),
                    p.digest + [CanonicalOf(e, p.processed, CreatedAt(e).value)]))
    else None
  }

  function Replay(auth: Authorization, snap: Snapshot, es: seq<Entry>): Option<Progress> {
    if es == [] then Some(START)
    else
      var p := Replay(auth, snap, es[..|es| - 1]);
      if p.None? then None else Consume(auth, snap, p.value, es[|es| - 1])
  }

  predicate Finishes(snap: Snapshot, p: Progress) {
    && p.processed == snap.eventCount && p.previousId == Some(snap.lastId)
    && !(snap.status == Revoked && !p.revocationSeen)
    && !(snap.status == Initialized && p.revocationSeen)
    && p.usage == snap.usage
  }

  // ---- Replaying one entry at a time decides the whole-log property ----

  ghost predicate Summarizes(p: Progress, es: seq<Entry>) {
    && p.processed == |es|
    && p.usage == StreamUsage(es)
    && p.revocationSeen == EndsRevoked(es)
    && p.previousId == (if es == [] then None else Some(es[|es| - 1].id))
    && (es != [] && CreatedAt(es[|es| - 1]).Some? ==> p.previousCreated == CreatedAt(es[|es| - 1]).value)
    && |p.digest| == |es|
    && (forall i :: 0 <= i < |es| ==>
          CreatedAt(es[i]).Some? && p.digest[i] == CanonicalOf(es[i], i, CreatedAt(es[i]).value))
  }

  lemma KindsDiffer(e: Entry)
    ensures TypeIs(e, "authorization_revoked") ==> !TypeIs(e, "initialized") && !ValidReservation(e)
    ensures TypeIs(e, "initialized") ==> !ValidReservation(e) && EntryDelta(e) == ZERO
    ensures TypeIs(e, "authorization_revoked") ==> EntryDelta(e) == ZERO
  {
    assert |"initialized"| == 11 && |"run_reserved"| == 12;
    assert |"provider_call_reserved"| == 22 && |"authorization_revoked"| == 21;
  }

  lemma IncreasingSnoc(es: seq<Entry>, e: Entry)
    ensures Increasing(es + [e]) <==> Increasing(es) && (es != [] ==> es[|es| - 1].id.Before(e.id))
  {
    var all := es + [e];
    if Increasing(es) && (es != [] ==> es[|es| - 1].id.Before(e.id)) {
      forall i, j | 0 <= i < j < |all| ensures all[i].id.Before(all[j].id) {
        if j == |es| {
          assert i == |es| - 1 || es[i].id.Before(es[|es| - 1].id);
        }
      }
    }
    if Increasing(all) {
      forall i, j | 0 <= i < j < |es| ensures es[i].id.Before(es[j].id) {
        assert all[i].id.Before(all[j].id);
      }
      assert es != [] ==> all[|es| - 1].id.Before(all[|es|].id);
    }
  }

  lemma NumberedSnoc(es: seq<Entry>, e: Entry)
    ensures Numbered(es + [e]) <==> Numbered(es) && FieldInt(e.fields, FSequence) == Some(|es|)
  {
    hide FieldInt;
    var all := es + [e];
    assert all[|es|] == e;
    assert forall i :: 0 <= i < |es| ==> all[i] == es[i];
  }

  lemma TimesSnoc(auth: Authorization, es: seq<Entry>, e: Entry)
    ensures TimesInOrder(auth, es + [e]) <==>
            TimesInOrder(auth, es) && CreatedInWindow(auth, e)
            && (es != [] ==> CreatedAt(es[|es| - 1]).value <= CreatedAt(e).value)
  {
    hide CreatedAt;
    var all := es + [e];
    assert all[|es|] == e;
    assert forall i :: 0 <= i < |es| ==> all[i] == es[i];
  }

  lemma AffordableSnoc(auth: Authorization, es: seq<Entry>, e: Entry)
    requires auth.Valid()
    ensures PrefixesAffordable(auth, es + [e]) <==>
            PrefixesAffordable(auth, es) && Within(Plus(StreamUsage(es), EntryDelta(e)), auth.limits)
  {
    hide EntryDelta;
    var all := es + [e];
    StreamUsageSnoc(es, e);
    assert all[..|all|] == all;
    assert forall k :: 0 <= k <= |es| ==> all[..k] == es[..k];
  }

  ghost predicate KindFollows(auth: Authorization, snap: Snapshot, es: seq<Entry>, e: Entry) {
    if es == [] then ValidInitialization(auth, e)
    else !EndsRevoked(es) && (ValidReservation(e) || (ValidRevocation(auth, snap, e) && |es| == snap.sequence))
  }

  lemma KindsSnoc(auth: Authorization, snap: Snapshot, es: seq<Entry>, e: Entry)
    ensures KindsInOrder(auth, snap, es + [e]) <==> KindsInOrder(auth, snap, es) && KindFollows(auth, snap, es, e)
  {
    var all := es + [e];
    hide ValidReservation;
    assert all[|all| - 1] == e;
    if es != [] {
      var last := es[|es| - 1];
      KindsDiffer(last);
      KindsDiffer(e);
      assert all[|es| - 1] == last;
      assert forall i :: 0 <= i < |es| ==> all[i] == es[i];
      if KindsInOrder(auth, snap, all) && |es| > 1 {
        assert ValidReservation(all[|es| - 1]);
      }
    }
  }

  /** Whether the verifier takes the next entry is whether the longer log is still valid. */
  lemma ConsumeDecides(auth: Authorization, snap: Snapshot, p: Progress, es: seq<Entry>, e: Entry)
    requires auth.Valid() && PrefixValid(auth, snap, es) && Summarizes(p, es)
    ensures Consume(auth, snap, p, e).Some? <==> PrefixValid(auth, snap, es + [e])
  {
    hide ValidInitialization;
    hide ValidReservation;
    hide ValidRevocation;
    hide EntryDelta;
    hide FieldInt;
    hide KindsInOrder;
    hide Numbered;
    hide TimesInOrder;
    hide PrefixesAffordable;
    IncreasingSnoc(es, e);
    NumberedSnoc(es, e);
    TimesSnoc(auth, es, e);
    KindsSnoc(auth, snap, es, e);
    AffordableSnoc(auth, es, e);
    KindFacts(auth, snap, e);
    PrefixFacts(auth, es);
  }

  lemma KindFacts(auth: Authorization, snap: Snapshot, e: Entry)
    ensures ValidInitialization(auth, e) ==> FEventType in e.fields && EntryDelta(e) == ZERO
    ensures ValidReservation(e) ==> FEventType in e.fields
    ensures ValidRevocation(auth, snap, e) ==> FEventType in e.fields && EntryDelta(e) == ZERO
  {
    KindsDiffer(e);
  }

  lemma PrefixFacts(auth: Authorization, es: seq<Entry>)
    requires TimesInOrder(auth, es) && PrefixesAffordable(auth, es)
    ensures es != [] ==> CreatedAt(es[|es| - 1]).Some?
    ensures Within(StreamUsage(es), auth.limits)
  {
    assert es[..|es|] == es;
  }

  lemma ConsumeSummarizes(auth: Authorization, snap: Snapshot, p: Progress, es: seq<Entry>, e: Entry)
    requires Summarizes(p, es) && Consume(auth, snap, p, e).Some?
    ensures Summarizes(Consume(auth, snap, p, e).value, es + [e])
  {
    hide KindInPlace;
    hide EntryDelta;
    hide FieldInt;
    StreamUsageSnoc(es, e);
  }

  lemma PrefixValidShrinks(auth: Authorization, snap: Snapshot, es: seq<Entry>, e: Entry)
    requires auth.Valid() && PrefixValid(auth, snap, es + [e])
    ensures PrefixValid(auth, snap, es)
  {
    hide KindsInOrder;
    hide Numbered;
    hide TimesInOrder;
    hide PrefixesAffordable;
    hide Increasing;
    IncreasingSnoc(es, e);
    NumberedSnoc(es, e);
    TimesSnoc(auth, es, e);
    KindsSnoc(auth, snap, es, e);
    AffordableSnoc(auth, es, e);
  }

  /** For any log at all: the entry-by-entry replay gets through it exactly when the whole log
      is valid, and then its counters are the log's sums and its digest covers every entry. */
  lemma {:induction false} ReplayDecides(auth: Authorization, snap: Snapshot, es: seq<Entry>)
    requires auth.Valid()
    ensures Replay(auth, snap, es).Some? <==> PrefixValid(auth, snap, es)
    ensures Replay(auth, snap, es).Some? ==> Summarizes(Replay(auth, snap, es).value, es)
  {
    if es == [] {
      assert StreamUsage(es[..0]) == ZERO;
    } else {
      hide PrefixValid;
      hide Consume;
      hide Summarizes;
      var prior, e := es[..|es| - 1], es[|es| - 1];
      assert es == prior + [e];
      ReplayDecides(auth, snap, prior);
      var p := Replay(auth, snap, prior);
      if p.Some? {
        ConsumeDecides(auth, snap, p.value, prior, e);
        if Consume(auth, snap, p.value, e).Some? {
          ConsumeSummarizes(auth, snap, p.value, prior, e);
        }
      } else if PrefixValid(auth, snap, es) {
        PrefixValidShrinks(auth, snap, prior, e);
      }
    }
  }

  /** The verdict on a whole log. */
  predicate Accepts(auth: Authorization, snap: Snapshot, es: seq<Entry>) {
    Replay(auth, snap, es).Some? && Finishes(snap, Replay(auth, snap, es).value)
  }

  /** Sound and complete: the verifier accepts a log exactly when it is the snapshot's honest log. */
  lemma AcceptsExactly(auth: Authorization, snap: Snapshot, es: seq<Entry>)
    requires auth.Valid() && (snap.status == Initialized || snap.status == Revoked) && snap.eventCount >= 1
    ensures Accepts(auth, snap, es) <==> AuditValid(auth, snap, es)
  {
    hide Replay;
    hide PrefixValid;
    ReplayDecides(auth, snap, es);
  }
}
