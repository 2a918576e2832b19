/** Audit completeness: every ledger the scripts can produce, with its three keys
    present, is inspected without complaint and its stream passes the audit. */
module AuditRuns {
  import opened Base
  import opened Decimal
  import opened RedisScripts
  import opened RedisRuns
  import opened RedisSafety
  import opened Audit
  import opened AuditPaging

  const REASONS: set<string> :=
    {"budget_cancelled", "credential_rotation", "evaluation_cancelled", "operator_request", LOSS_REASON}

  predicate ClientReserves(r: ReserveArgs) {
    ValidSha256(r.invocation) && ValidSha256(r.subject) && ValidSha256(r.digest)
  }

  predicate ClientRevokes(operator: string, reason: string, request: string) {
    ValidSha256(operator) && ValidSha256(request) && reason in REASONS
  }

  /** Arguments as the client builds them: digests are SHA-256 text, reasons come from the list. */
  predicate ClientBuilt(a: Action) {
    && (a.DoReserve? ==> ClientReserves(a.reserve))
    && (a.DoRevoke? ==> ClientRevokes(a.revoke.operator, a.revoke.reason, a.revoke.request))
  }

  ghost predicate Legible(h: History) {
    && (forall i :: 0 <= i < |h.charges| ==> ClientReserves(h.charges[i].args))
    && (h.store.marker.Some? && h.store.marker.value.revocation.Some? ==>
          var info := h.store.marker.value.revocation.value.info;
          ClientRevokes(info.operator, info.reason, info.request))
  }

  lemma StepKeepsLegible(auth: Authorization, h: History, a: Action)
    requires Legible(h) && ClientBuilt(a)
    ensures Legible(Step(auth, h, a))
  {
    hide ClientReserves;
    hide ClientRevokes;
    hide Append;
  }

  lemma {:induction false} RunKeepsLegible(auth: Authorization, start: int, actions: seq<Action>)
    requires forall i :: 0 <= i < |actions| ==> ClientBuilt(actions[i])
    ensures Legible(Run(auth, start, actions))
  {
    hide Legible;
    hide Step;
    hide ClientBuilt;
    if actions == [] {
      BeginLegible(start);
    } else {
      var prior := actions[..|actions| - 1];
      RunKeepsLegible(auth, start, prior);
      StepKeepsLegible(auth, Run(auth, start, prior), actions[|actions| - 1]);
    }
  }

  lemma BeginLegible(start: int)
    ensures Legible(Begin(start))
  {
  }

  // ---- Each written entry reads back as a valid one ----

  lemma InitializationReads(auth: Authorization, e: Entry, at: int)
    requires e.fields == InitializedFields(0, at, auth.payloadHash) && IsInt64(at)
    ensures ValidInitialization(auth, e) && CreatedAt(e) == Some(at)
  {
    FieldParses(e.fields, FCreatedAt, at);
    assert e.fields.Keys == {FSequence, FEventType, FCreatedAt, FPayloadHash};
  }

  lemma ReservationReads(e: Entry, sequence: int, at: int, r: ReserveArgs)
    requires e.fields == ReservationFields(sequence, at, r) && IsInt64(at)
    requires ClientReserves(r) && ReservationShape(r.eventType, r.delta) && SmallDelta(r.delta)
    ensures ValidReservation(e) && CreatedAt(e) == Some(at)
  {
    hide EntryDelta;
    hide FieldInt;
    hide ValidSha256;
    hide HasExactly;
    ReservationFieldsParse(sequence, at, r);
    ReservationSays(e, sequence, at, r);
    ReservationHasFields(sequence, at, r);
  }

  lemma ReservationHasFields(sequence: int, at: int, r: ReserveArgs)
    ensures HasExactly(ReservationFields(sequence, at, r), RESERVATION_NAMES)
  {
    hide Itoa;
    assert ReservationFields(sequence, at, r).Keys
        == {FSequence, FEventType, FCreatedAt, FInvocation, FSubject, FRuns, FCalls, FOutputs, FCost, FReservation};
  }

  lemma RevocationReads(auth: Authorization, snap: Snapshot, e: Entry, sequence: int)
    requires snap.status == Revoked && snap.revocation.Some? && snap.revocation.value.mode == StreamMode
    requires e.fields == RevocationFields(sequence, auth.payloadHash, snap.revocation.value.info)
    requires IsInt64(snap.revocation.value.info.at)
    ensures ValidRevocation(auth, snap, e) && CreatedAt(e) == Some(snap.revocation.value.info.at)
  {
    FieldParses(e.fields, FCreatedAt, snap.revocation.value.info.at);
    assert e.fields.Keys == {FSequence, FEventType, FCreatedAt, FPayloadHash, FOperator, FReason, FRequest};
  }

  // ---- The whole stream of a reachable ledger is valid ----

  /** A stream and a snapshot that tell the same story of charges and, maybe, a revocation. */
  ghost predicate SameStory(
    auth: Authorization, snap: Snapshot, es: seq<Entry>, cs: seq<Charge>, initAt: int, rev: Option<Revocation>)
  {
    && auth.Valid() && EventsMatch(auth, es, cs, initAt, rev)
    && WellShaped(cs) && Within(ChargedUsage(cs), auth.limits)
    && (forall i :: 0 <= i < |cs| ==> ClientReserves(cs[i].args))
    && auth.InWindowMs(initAt) && Timed(auth, cs, initAt, if rev.Some? then rev.value.at else auth.ExpiresMs())
    && (rev.Some? ==> auth.InWindowMs(rev.value.at) && initAt <= rev.value.at)
    && snap.status == (if rev.Some? then Revoked else Initialized)
    && snap.revocation == (if rev.None? then None else Some(MarkerRevocation(rev.value, StreamMode, |cs| + 1)))
    && snap.usage == ChargedUsage(cs) && snap.sequence == |es| - 1 && snap.eventCount == |es|
    && snap.lastId == es[|es| - 1].id
  }

  /** The time each entry was created, according to the story. */
  function TimeOf(cs: seq<Charge>, initAt: int, rev: Option<Revocation>, i: nat): int {
    if i == 0 then initAt
    else if i <= |cs| then cs[i - 1].at
    else if rev.Some? then rev.value.at
    else initAt
  }

  lemma EntryReads(
    auth: Authorization, snap: Snapshot, es: seq<Entry>, cs: seq<Charge>, initAt: int, rev: Option<Revocation>, i: nat)
    requires SameStory(auth, snap, es, cs, initAt, rev) && i < |es|
    ensures if i == 0 then ValidInitialization(auth, es[i])
            else if i <= |cs| then ValidReservation(es[i])
            else ValidRevocation(auth, snap, es[i])
    ensures CreatedAt(es[i]) == Some(TimeOf(cs, initAt, rev, i))
  {
    hide InitializedFields;
    hide ReservationFields;
    hide RevocationFields;
    hide ValidInitialization;
    hide ValidReservation;
    hide ValidRevocation;
    hide CreatedAt;
    hide ClientReserves;
    hide ReservationShape;
    if i == 0 {
      InitializationReads(auth, es[0], initAt);
    } else if i <= |cs| {
      ChargeIsSmall(auth, cs, i - 1);
      var c := cs[i - 1];
      ReservationReads(es[i], i, c.at, c.args);
    } else {
      RevocationReads(auth, snap, es[i], i);
    }
  }

  lemma StoryNumbered(
    auth: Authorization, snap: Snapshot, es: seq<Entry>, cs: seq<Charge>, initAt: int, rev: Option<Revocation>)
    requires SameStory(auth, snap, es, cs, initAt, rev)
    ensures Numbered(es)
  {
    hide EventsMatch;
    ChargeCounts(cs);
    EventCount(auth, es, cs, initAt, rev);
    forall i: nat | i < |es| ensures FieldInt(es[i].fields, FSequence) == Some(i) {
      EntriesAnnounce(auth, es, cs, initAt, rev, i);
    }
  }

  lemma StoryTimes(
    auth: Authorization, snap: Snapshot, es: seq<Entry>, cs: seq<Charge>, initAt: int, rev: Option<Revocation>)
    requires SameStory(auth, snap, es, cs, initAt, rev)
    ensures TimesInOrder(auth, es)
  {
    hide EventsMatch;
    hide CreatedAt;
    EventCount(auth, es, cs, initAt, rev);
    forall i: nat | i < |es| ensures CreatedAt(es[i]) == Some(TimeOf(cs, initAt, rev, i)) {
      EntryReads(auth, snap, es, cs, initAt, rev, i);
    }
    forall i: nat, j: nat | i < j < |es| ensures TimeOf(cs, initAt, rev, i) <= TimeOf(cs, initAt, rev, j) {
    }
  }

  lemma StoryKinds(
    auth: Authorization, snap: Snapshot, es: seq<Entry>, cs: seq<Charge>, initAt: int, rev: Option<Revocation>)
    requires SameStory(auth, snap, es, cs, initAt, rev)
    ensures KindsInOrder(auth, snap, es) && (EndsRevoked(es) <==> snap.status == Revoked)
  {
    hide EventsMatch;
    EventCount(auth, es, cs, initAt, rev);
    forall i: nat | i < |es|
      ensures if i == 0 then ValidInitialization(auth, es[i])
              else if i <= |cs| then ValidReservation(es[i])
              else ValidRevocation(auth, snap, es[i])
    {
      EntryReads(auth, snap, es, cs, initAt, rev, i);
    }
    KindsDiffer(es[|es| - 1]);
    hide ValidReservation;
  }

  lemma StoryFacts(
    auth: Authorization, snap: Snapshot, es: seq<Entry>, cs: seq<Charge>, initAt: int, rev: Option<Revocation>)
    requires SameStory(auth, snap, es, cs, initAt, rev)
    ensures auth.Valid() && EventsMatch(auth, es, cs, initAt, rev) && WellShaped(cs)
    ensures Within(ChargedUsage(cs), auth.limits) && snap.usage == ChargedUsage(cs)
  {
    hide EventsMatch;
  }

  lemma PrefixAffordable(
    auth: Authorization, es: seq<Entry>, cs: seq<Charge>, initAt: int, rev: Option<Revocation>, k: nat)
    requires auth.Valid() && EventsMatch(auth, es, cs, initAt, rev) && k <= |cs| && k < |es|
    requires WellShaped(cs) && Within(ChargedUsage(cs), auth.limits)
    ensures Within(StreamUsage(es[..k + 1]), auth.limits)
  {
    hide EventsMatch;
    hide WellShaped;
    hide StreamUsage;
    hide ChargedUsage;
    StreamAddsUp(auth, es, cs, initAt, rev, k);
    PrefixCharges(cs, k);
  }

  lemma ZeroFits(auth: Authorization)
    requires auth.Valid()
    ensures Within(StreamUsage([]), auth.limits)
  {
  }

  lemma StoryAffordable(
    auth: Authorization, snap: Snapshot, es: seq<Entry>, cs: seq<Charge>, initAt: int, rev: Option<Revocation>)
    requires SameStory(auth, snap, es, cs, initAt, rev)
    ensures PrefixesAffordable(auth, es) && StreamUsage(es) == snap.usage
  {
    hide *;
    StoryFacts(auth, snap, es, cs, initAt, rev);
    EventCount(auth, es, cs, initAt, rev);
    StreamTotal(auth, es, cs, initAt, rev);
    forall k: nat | k <= |es| ensures Within(StreamUsage(es[..k]), auth.limits) {
      if k == |es| {
        assert es[..k] == es;
      } else if k > 0 {
        PrefixAffordable(auth, es, cs, initAt, rev, k - 1);
      } else {
        assert es[..k] == [];
        ZeroFits(auth);
      }
    }
    EachPrefixFits(auth, es);
  }

  lemma EachPrefixFits(auth: Authorization, es: seq<Entry>)
    requires forall k: nat :: k <= |es| ==> Within(StreamUsage(es[..k]), auth.limits)
    ensures PrefixesAffordable(auth, es)
  {
    hide Within;
    hide StreamUsage;
  }

  lemma StoryIsValid(
    auth: Authorization, snap: Snapshot, es: seq<Entry>, cs: seq<Charge>, initAt: int, rev: Option<Revocation>)
    requires SameStory(auth, snap, es, cs, initAt, rev)
    ensures CountPlausible(auth, snap) && AuditValid(auth, snap, es)
  {
    hide KindsInOrder;
    hide Numbered;
    hide TimesInOrder;
    hide PrefixesAffordable;
    StoryNumbered(auth, snap, es, cs, initAt, rev);
    StoryTimes(auth, snap, es, cs, initAt, rev);
    StoryKinds(auth, snap, es, cs, initAt, rev);
    StoryAffordable(auth, snap, es, cs, initAt, rev);
    ChargeCounts(cs);
  }

  /** What the client checks of an inspection reply before it trusts it. */
  predicate Decodes(snap: Snapshot) {
    && (snap.status == Initialized || snap.status == Revoked)
    && (snap.status == Revoked ==>
          snap.revocation.Some?
          && var info := snap.revocation.value.info; ClientRevokes(info.operator, info.reason, info.request))
  }

  lemma InspectTellsStory(auth: Authorization, h: History)
    requires auth.Valid() && Inv(auth, h) && Legible(h) && h.store.Intact()
    ensures var reply := InspectScript(IdentityOf(auth), h.store);
      && reply.Inspected? && reply.snapshot.intact && Decodes(reply.snapshot)
      && SameStory(auth, reply.snapshot, h.store.events.value, h.charges, h.initAt, h.store.state.value.revocation)
  {
    hide ClientReserves;
    hide ClientRevokes;
    hide InitializedFields;
    hide ReservationFields;
    hide RevocationFields;
    ChargeCounts(h.charges);
  }

  /** After any run of client-built calls, clock advances and losses that leaves all three keys,
      inspection succeeds and the audit of the captured stream, event cap included, accepts. */
  lemma AuditIsComplete(auth: Authorization, start: int, actions: seq<Action>)
    requires auth.Valid() && forall i :: 0 <= i < |actions| ==> ClientBuilt(actions[i])
    ensures var s := Run(auth, start, actions).store;
      s.Intact() ==>
        var reply := InspectScript(IdentityOf(auth), s);
        && reply.Inspected? && reply.snapshot.intact && Decodes(reply.snapshot)
        && CountPlausible(auth, reply.snapshot)
        && AuditValid(auth, reply.snapshot, s.events.value)
        && Accepts(auth, reply.snapshot, s.events.value)
  {
    hide Inv;
    hide InspectScript;
    hide AuditValid;
    hide SameStory;
    hide Run;
    hide Accepts;
    Reachable(auth, start, actions);
    RunKeepsLegible(auth, start, actions);
    var h := Run(auth, start, actions);
    if h.store.Intact() {
      InspectTellsStory(auth, h);
      var snap := InspectScript(IdentityOf(auth), h.store).snapshot;
      StoryIsValid(auth, snap, h.store.events.value, h.charges, h.initAt, h.store.state.value.revocation);
      AcceptsExactly(auth, snap, h.store.events.value);
    }
  }

  // ---- Later appends do not disturb a captured log ----

  function StreamAfter(auth: Authorization, h: History, later: seq<Action>): seq<Entry> {
    var events := RunFrom(auth, h, later).store.events;
    if events.Some? then events.value else []
  }

  predicate LosesEvents(a: Action) {
    a.Lose? && EventsKey in a.keys
  }

  lemma EventsGrow(auth: Authorization, s: Store, a: Action)
    requires s.events.Some? && s.events.value != [] && Increasing(s.events.value) && !LosesEvents(a)
    ensures var s' := Act(auth, s, a).0;
      s'.events.Some? && s.events.value <= s'.events.value && Increasing(s'.events.value)
  {
    hide Increasing;
    hide ReservationFields;
    hide RevocationFields;
    hide InitializedFields;
    var es := s.events.value;
    if s.state.Some? {
      var next := s.state.value.sequence + 1;
      if a.DoReserve? {
        AppendIncreasing(es, s.now, ReservationFields(next, s.now, a.reserve));
      }
      if a.DoRevoke? {
        AppendIncreasing(es, s.now, RevocationFields(next, auth.payloadHash,
          Revocation(s.now, a.revoke.operator, a.revoke.reason, a.revoke.request)));
      }
    }
  }

  lemma {:induction false} StreamGrows(auth: Authorization, h: History, later: seq<Action>)
    requires h.store.events.Some? && h.store.events.value != [] && Increasing(h.store.events.value)
    requires forall k :: 0 <= k < |later| ==> !LosesEvents(later[k])
    ensures RunFrom(auth, h, later).store.events.Some?
    ensures h.store.events.value <= StreamAfter(auth, h, later) && Increasing(StreamAfter(auth, h, later))
  {
    hide Act;
    hide Increasing;
    if later != [] {
      var prior := later[..|later| - 1];
      StreamGrows(auth, h, prior);
      EventsGrow(auth, RunFrom(auth, h, prior).store, later[|later| - 1]);
    }
  }

  /** While the audit reads, other clients may initialize, reserve and revoke, the clock may
      advance and other keys may go: as long as the stream key stays, every read still begins with
      the log the snapshot captured. */
  lemma AuditToleratesAppends(
    auth: Authorization, start: int, actions: seq<Action>, later: nat -> seq<Action>)
    requires auth.Valid() && Run(auth, start, actions).store.Intact()
    requires forall i :: 0 <= i < |actions| ==> ClientBuilt(actions[i])
    requires forall k: nat, i :: 0 <= i < |later(k)| ==> !LosesEvents(later(k)[i])
    ensures var h := Run(auth, start, actions);
      var reply := InspectScript(IdentityOf(auth), h.store);
      && reply.Inspected?
      && Stable((k: nat) => StreamAfter(auth, h, later(k)), h.store.events.value, reply.snapshot)
  {
    hide Act;
    hide Run;
    Reachable(auth, start, actions);
    RunKeepsLegible(auth, start, actions);
    var h := Run(auth, start, actions);
    InspectTellsStory(auth, h);
    forall k: nat
      ensures h.store.events.value <= StreamAfter(auth, h, later(k)) && Increasing(StreamAfter(auth, h, later(k)))
    {
      StreamGrows(auth, h, later(k));
    }
  }

  /** Inspecting and auditing a ledger in use. After any run of client-built calls, clock advances and
      losses that leaves all three keys, and with anything but the loss of the stream going on between
      the pages, the paged audit verifies. */
  method InspectAndAudit(auth: Authorization, start: int, actions: seq<Action>, later: nat -> seq<Action>)
    returns (verified: bool)
    requires auth.Valid() && Run(auth, start, actions).store.Intact()
    requires forall i :: 0 <= i < |actions| ==> ClientBuilt(actions[i])
    requires forall k: nat, i :: 0 <= i < |later(k)| ==> !LosesEvents(later(k)[i])
    ensures verified
  {
    hide *;
    AuditToleratesAppends(auth, start, actions, later);
    AuditIsComplete(auth, start, actions);
    var h := Run(auth, start, actions);
    IntactHasEvents(h.store);
    var snapshot := InspectScript(IdentityOf(auth), h.store).snapshot;
    DecodedStatus(snapshot);
    var digest;
    ghost var replayed;
    verified, digest, replayed := VerifyAuditStream(
      auth, snapshot, (k: nat) => StreamAfter(auth, h, later(k)), h.store.events.value);
  }

  lemma IntactHasEvents(s: Store)
    requires s.Intact()
    ensures s.events.Some?
  {
  }

  lemma DecodedStatus(snap: Snapshot)
    requires Decodes(snap)
    ensures snap.status == Initialized || snap.status == Revoked
  {
  }
}
