/** What an accepted log says, entry by entry, in the text of its own fields. */
module AuditExact {
  import opened Base
  import opened Decimal
  import opened RedisScripts
  import opened RedisRuns
  import opened RedisSafety
  import opened Audit

  predicate FieldIs(e: Entry, field: Field, text: string) {
    field in e.fields && e.fields[field] == text
  }

  /** 64 hexadecimal characters. */
  predicate HexText(e: Entry, field: Field) {
    field in e.fields && |e.fields[field]| == 64
    && forall i :: 0 <= i < 64 ==>
         var c := e.fields[field][i]; '0' <= c <= '9' || 'a' <= c <= 'f' || 'A' <= c <= 'F'
  }

  predicate IntField(e: Entry, field: Field, n: int) {
    FieldInt(e.fields, field) == Some(n)
  }

  /** A creation entry: four fields, for this authorization. */
  predicate CreationText(auth: Authorization, e: Entry) {
    && e.fields.Keys == {FSequence, FEventType, FCreatedAt, FPayloadHash}
    && FieldIs(e, FEventType, "initialized") && FieldIs(e, FPayloadHash, auth.payloadHash)
  }

  /** A reservation entry: ten fields, one run or one call, digests in hexadecimal. */
  predicate ReservationTextIs(e: Entry, d: Usage) {
    && e.fields.Keys == {FSequence, FEventType, FCreatedAt, FInvocation, FSubject, FRuns, FCalls, FOutputs, FCost, FReservation}
    && HexText(e, FInvocation) && HexText(e, FSubject) && HexText(e, FReservation)
    && Amounts(e, d)
  }

  /** A revocation entry: seven fields, saying what the snapshot says. */
  predicate RevocationTextIs(auth: Authorization, info: Revocation, e: Entry) {
    && e.fields.Keys == {FSequence, FEventType, FCreatedAt, FPayloadHash, FOperator, FReason, FRequest}
    && FieldIs(e, FEventType, "authorization_revoked") && FieldIs(e, FPayloadHash, auth.payloadHash)
    && FieldIs(e, FOperator, info.operator) && FieldIs(e, FReason, info.reason) && FieldIs(e, FRequest, info.request)
    && IntField(e, FCreatedAt, info.at)
  }

  lemma CreationMeans(auth: Authorization, e: Entry)
    ensures ValidInitialization(auth, e) <==> CreationText(auth, e)
  {
    assert (set n | n in INITIALIZED_NAMES) == {FSequence, FEventType, FCreatedAt, FPayloadHash};
  }

  lemma RevocationMeans(auth: Authorization, snap: Snapshot, e: Entry)
    ensures ValidRevocation(auth, snap, e) <==>
      && snap.status == Revoked && snap.revocation.Some? && snap.revocation.value.mode == StreamMode
      && RevocationTextIs(auth, snap.revocation.value.info, e)
  {
    assert (set n | n in REVOCATION_NAMES) ==
           {FSequence, FEventType, FCreatedAt, FPayloadHash, FOperator, FReason, FRequest};
  }

  lemma ReservationNames()
    ensures (set n | n in RESERVATION_NAMES) ==
            {FSequence, FEventType, FCreatedAt, FInvocation, FSubject, FRuns, FCalls, FOutputs, FCost, FReservation}
  {
  }

  lemma HexMeans(e: Entry, field: Field)
    ensures HexText(e, field) <==> field in e.fields && ValidSha256(e.fields[field])
  {
  }

  /** The amounts a reservation names, and that they are of one run or one call. */
  predicate Amounts(e: Entry, d: Usage) {
    && IntField(e, FRuns, d.runs) && IntField(e, FCalls, d.calls) && IntField(e, FOutputs, d.outputs) && IntField(e, FCost, d.cost)
    && d.runs >= 0 && d.calls >= 0 && d.outputs >= 0 && d.cost >= 0
    && (|| (FieldIs(e, FEventType, "run_reserved") && d.runs == 1 && d.calls == 0 && d.cost == 0)
        || (FieldIs(e, FEventType, "provider_call_reserved") && d.runs == 0 && d.calls == 1 && d.outputs == 0))
  }

  predicate Counted(e: Entry) {
    && FEventType in e.fields && IsReservationType(e.fields[FEventType])
    && NonNegativeField(e.fields, FRuns) && NonNegativeField(e.fields, FCalls)
    && NonNegativeField(e.fields, FOutputs) && NonNegativeField(e.fields, FCost)
    && ReservationShape(e.fields[FEventType], EntryDelta(e))
  }

  lemma AmountsMean(e: Entry)
    ensures Counted(e) ==> Amounts(e, EntryDelta(e))
    ensures forall d :: Amounts(e, d) ==> Counted(e) && EntryDelta(e) == d
  {
    assert |"run_reserved"| == 12 && |"provider_call_reserved"| == 22;
    hide FieldInt;
  }

  lemma ReservationMeans(e: Entry)
    ensures ValidReservation(e) ==> ReservationTextIs(e, EntryDelta(e))
    ensures forall d :: ReservationTextIs(e, d) ==> ValidReservation(e) && EntryDelta(e) == d
  {
    ReservationNames();
    HexMeans(e, FInvocation);
    HexMeans(e, FSubject);
    HexMeans(e, FReservation);
    AmountsMean(e);
    hide Amounts;
    hide HexText;
    hide ValidSha256;
    hide EntryDelta;
    hide NonNegativeField;
    hide ReservationShape;
    hide IsReservationType;
  }

  /** What acceptance says of every entry of a log: its number, a time in the window and not before its
      predecessor's, and the text of its kind; and the running sums of what the entries reserve stay
      within every limit and end at the snapshot's. */
  lemma AcceptedLog(auth: Authorization, snap: Snapshot, es: seq<Entry>, i: nat)
    requires auth.Valid() && (snap.status == Initialized || snap.status == Revoked) && snap.eventCount >= 1
    requires Accepts(auth, snap, es) && i < |es|
    ensures |es| == snap.eventCount && es[|es| - 1].id == snap.lastId && StreamUsage(es) == snap.usage
    ensures IntField(es[i], FSequence, i)
    ensures exists at :: IntField(es[i], FCreatedAt, at) && auth.issuedAt / 1_000_000 <= at < auth.expiresAt / 1_000_000
    ensures i > 0 ==> es[i - 1].id.Before(es[i].id)
    ensures i == 0 <==> CreationText(auth, es[i])
    ensures i > 0 ==>
      || ReservationTextIs(es[i], EntryDelta(es[i]))
      || (i == |es| - 1 && snap.status == Revoked && snap.revocation.Some?
          && RevocationTextIs(auth, snap.revocation.value.info, es[i]))
    ensures snap.status == Revoked <==> FieldIs(es[|es| - 1], FEventType, "authorization_revoked")
    ensures var u := StreamUsage(es[..i + 1]);
      && 0 <= u.runs <= auth.limits.runs && 0 <= u.calls <= auth.limits.calls
      && 0 <= u.outputs <= auth.limits.outputs && 0 <= u.cost <= auth.limits.cost
  {
    hide *;
    AcceptsExactly(auth, snap, es);
    ValidLogIs(auth, snap, es, i);
    EntryIs(auth, snap, es, i);
    LogUsage(auth, es, i);
  }

  lemma ValidLogIs(auth: Authorization, snap: Snapshot, es: seq<Entry>, i: nat)
    requires AuditValid(auth, snap, es) && i < |es|
    ensures |es| == snap.eventCount && es[|es| - 1].id == snap.lastId && StreamUsage(es) == snap.usage
    ensures snap.status == Revoked <==> FieldIs(es[|es| - 1], FEventType, "authorization_revoked")
    ensures i > 0 ==> es[i - 1].id.Before(es[i].id)
    ensures Audit.Numbered(es) && TimesInOrder(auth, es) && KindsInOrder(auth, snap, es) && PrefixesAffordable(auth, es)
  {
    hide StreamUsage;
    hide Audit.Numbered;
    hide TimesInOrder;
    hide KindsInOrder;
    hide PrefixesAffordable;
  }

  lemma LogUsage(auth: Authorization, es: seq<Entry>, i: nat)
    requires PrefixesAffordable(auth, es) && i < |es|
    ensures var u := StreamUsage(es[..i + 1]);
      && 0 <= u.runs <= auth.limits.runs && 0 <= u.calls <= auth.limits.calls
      && 0 <= u.outputs <= auth.limits.outputs && 0 <= u.cost <= auth.limits.cost
  {
    hide StreamUsage;
    assert Within(StreamUsage(es[..i + 1]), auth.limits);
  }

  lemma TimeIs(auth: Authorization, es: seq<Entry>, i: nat)
    requires TimesInOrder(auth, es) && i < |es|
    ensures exists at :: IntField(es[i], FCreatedAt, at) && auth.issuedAt / 1_000_000 <= at < auth.expiresAt / 1_000_000
  {
    hide FieldInt;
    assert CreatedInWindow(auth, es[i]);
    assert IntField(es[i], FCreatedAt, CreatedAt(es[i]).value);
  }

  lemma NumberIs(es: seq<Entry>, i: nat)
    requires Audit.Numbered(es) && i < |es|
    ensures IntField(es[i], FSequence, i)
  {
  }

  lemma KindIs(auth: Authorization, snap: Snapshot, es: seq<Entry>, i: nat)
    requires KindsInOrder(auth, snap, es) && i < |es|
    ensures i == 0 <==> ValidInitialization(auth, es[i])
    ensures i > 0 ==> ValidReservation(es[i]) || (i == |es| - 1 && ValidRevocation(auth, snap, es[i]))
  {
    KindsDiffer(es[i]);
    hide ValidInitialization;
    hide ValidReservation;
    hide ValidRevocation;
  }

  lemma EntryIs(auth: Authorization, snap: Snapshot, es: seq<Entry>, i: nat)
    requires Audit.Numbered(es) && TimesInOrder(auth, es) && KindsInOrder(auth, snap, es) && i < |es|
    ensures IntField(es[i], FSequence, i)
    ensures exists at :: IntField(es[i], FCreatedAt, at) && auth.issuedAt / 1_000_000 <= at < auth.expiresAt / 1_000_000
    ensures i == 0 <==> CreationText(auth, es[i])
    ensures i > 0 ==>
      || ReservationTextIs(es[i], EntryDelta(es[i]))
      || (i == |es| - 1 && snap.status == Revoked && snap.revocation.Some?
          && RevocationTextIs(auth, snap.revocation.value.info, es[i]))
  {
    hide *;
    NumberIs(es, i);
    TimeIs(auth, es, i);
    KindIs(auth, snap, es, i);
    CreationMeans(auth, es[i]);
    RevocationMeans(auth, snap, es[i]);
    ReservationMeans(es[i]);
  }

  // ---- The digest ----

  /** What the stream digest is taken over, for the entries the scripts write: everything they say. */
  lemma DigestOfReservation(e: Entry, sequence: int, at: int, r: ReserveArgs)
    requires SmallDelta(r.delta) && ReservationShape(r.eventType, r.delta) && e.fields == ReservationFields(sequence, at, r)
    ensures CanonicalOf(e, sequence, at) ==
            Canonical(e.id, sequence, r.eventType, at, "", r.invocation, r.subject, r.delta, r.digest, "", "", "")
  {
    ReservationSays(e, sequence, at, r);
    hide EntryDelta;
    hide Itoa;
  }

  lemma DigestOfCreation(e: Entry, at: int, hash: string)
    requires e.fields == InitializedFields(0, at, hash)
    ensures CanonicalOf(e, 0, at) ==
            Canonical(e.id, 0, "initialized", at, hash, "", "", Usage(0, 0, 0, 0), "", "", "", "")
  {
    InitializedSaysNothing(e, at, hash);
    hide EntryDelta;
    hide Itoa;
  }

  lemma DigestOfRevocation(e: Entry, sequence: int, hash: string, v: Revocation)
    requires e.fields == RevocationFields(sequence, hash, v)
    ensures CanonicalOf(e, sequence, v.at) ==
            Canonical(e.id, sequence, "authorization_revoked", v.at, hash, "", "", Usage(0, 0, 0, 0), "",
                      v.operator, v.reason, v.request)
  {
    RevocationSaysNothing(e, sequence, hash, v);
    hide EntryDelta;
    hide Itoa;
  }
}
