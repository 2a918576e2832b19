/** Exactly when each script succeeds, in every run, and what it then writes, field by field. */
module RedisExact {
  import opened Base
  import opened Decimal
  import opened RedisScripts
  import opened RedisRuns
  import opened RedisSafety

  /** The authorization's window, as instants in milliseconds. */
  predicate Open(auth: Authorization, now: int) {
    auth.issuedAt / 1_000_000 <= now < auth.expiresAt / 1_000_000
  }

  /** The marker exists and nobody has revoked it. */
  predicate Unrevoked(s: Store) {
    s.marker.Some? && s.marker.value.revocation.None?
  }

  predicate TextIs(e: Entry, field: Field, text: string) {
    field in e.fields && e.fields[field] == text
  }

  /** Exactly one entry was added at the end. */
  ghost predicate OneMore(before: seq<Entry>, after: seq<Entry>) {
    |after| == |before| + 1 && after[..|before|] == before
  }

  // ---- Initialize ----

  /** In every run an initialization creates the ledger exactly when all three keys are absent and the
      window is open; it finds it intact exactly when they are all there, unrevoked and the window is
      open; it is refused otherwise. Only a creation writes, and it writes an empty ledger. */
  lemma InitializeExactly(auth: Authorization, start: int, actions: seq<Action>)
    requires auth.Valid()
    ensures var s := Run(auth, start, actions).store;
      var (s', reply) := Act(auth, s, DoInitialize);
      && (reply == Done(1) <==> Open(auth, s.now) && s.Blank())
      && (reply == Done(0) <==> Open(auth, s.now) && s.Intact() && Unrevoked(s))
      && (reply == Done(1) || reply == Done(0) || reply.Refused?)
      && (reply != Done(1) ==> s' == s)
      && (reply == Done(1) ==>
            && s'.Intact() && Unrevoked(s') && s'.now == s.now && s'.state.value.usage == Usage(0, 0, 0, 0)
            && s'.state.value.sequence == 0 && s'.state.value.reservations == map[] && s'.state.value.revocation.None?
            && |s'.events.value| == 1 && Announces(s'.events.value[0], 0, "initialized"))
  {
    hide Run;
    Reachable(auth, start, actions);
    var s := Run(auth, start, actions).store;
    InitializedAnnounces(FreshEvents(IdentityOf(auth), s.now)[0], s.now, auth.payloadHash);
    hide Announces;
    hide EventsMatch;
    hide Timed;
    hide WellShaped;
    hide DistinctIds;
    EventsAreCounted(auth, Run(auth, start, actions));
  }

  lemma EventsAreCounted(auth: Authorization, h: History)
    requires Inv(auth, h)
    ensures h.store.state.Some? && h.store.events.Some? ==>
      |h.store.events.value| == h.store.state.value.sequence + 1 && h.store.state.value.sequence >= 0
  {
    hide Timed;
    hide WellShaped;
    hide DistinctIds;
    if h.store.state.Some? && h.store.events.Some? {
      EventCount(auth, h.store.events.value, h.charges, h.initAt, h.store.state.value.revocation);
    }
  }

  // ---- Revoke ----

  lemma RevocationText(sequence: int, hash: string, r: Revocation, id: StreamId)
    requires IsInt64(sequence) && IsInt64(r.at)
    ensures var e := Entry(id, RevocationFields(sequence, hash, r));
      && Announces(e, sequence, "authorization_revoked") && FieldInt(e.fields, FCreatedAt) == Some(r.at)
      && TextIs(e, FOperator, r.operator) && TextIs(e, FReason, r.reason) && TextIs(e, FRequest, r.request)
  {
    var e := Entry(id, RevocationFields(sequence, hash, r));
    FieldParses(e.fields, FSequence, sequence);
    FieldParses(e.fields, FCreatedAt, r.at);
    hide Itoa;
  }

  /** What a revocation leaves in the stream and the marker, in the caller's own words. */
  ghost predicate Revokes(s: Store, s': Store, r: RevokeArgs) {
    && s'.marker.Some? && s'.marker.value.revocation.Some?
    && s'.marker.value.revocation.value.info == Revocation(s.now, r.operator, r.reason, r.request)
    && if s.Intact()
       then
         && s'.Intact() && s'.state.value.usage == s.state.value.usage
         && s'.state.value.reservations == s.state.value.reservations
         && OneMore(s.events.value, s'.events.value)
         && var last := s'.events.value[|s.events.value|];
            && Announces(last, |s.events.value|, "authorization_revoked") && FieldInt(last.fields, FCreatedAt) == Some(s.now)
            && TextIs(last, FOperator, r.operator) && TextIs(last, FReason, r.reason) && TextIs(last, FRequest, r.request)
       else s'.state == s.state && s'.events == s.events
  }

  /** In every run a revocation takes effect exactly when the marker is there and unrevoked, the window
      is open, and either nothing is lost, for any reason given, or the reason given is that the state
      is lost. A revoked marker answers 0. Anything else is refused, and only an effect writes. */
  lemma RevokeExactly(auth: Authorization, start: int, actions: seq<Action>, r: RevokeArgs)
    requires auth.Valid()
    ensures var s := Run(auth, start, actions).store;
      var (s', reply) := Act(auth, s, DoRevoke(r));
      && (reply == Done(1) <==>
            && Unrevoked(s) && Open(auth, s.now)
            && ((s.state.Some? && s.events.Some?) || r.reason == "state_integrity_incident"))
      && (reply == Done(0) <==> s.marker.Some? && !Unrevoked(s) && Open(auth, s.now))
      && (reply == Done(1) || reply == Done(0) || reply.Refused?)
      && (reply != Done(1) ==> s' == s)
      && (reply == Done(1) ==> Revokes(s, s', r))
  {
    hide Run;
    Reachable(auth, start, actions);
    var h := Run(auth, start, actions);
    EventsAreCounted(auth, h);
    RevokeReplies(auth, h, r);
    RevokeEffect(auth, h.store, r);
    hide Act;
    if Act(auth, h.store, DoRevoke(r)).1 == Done(1) {
      RevokeWrites(auth, h, r);
    }
    hide Inv;
    hide Revokes;
  }

  lemma RevokeReplies(auth: Authorization, h: History, r: RevokeArgs)
    requires auth.Valid() && Inv(auth, h)
    ensures var s, reply := h.store, Act(auth, h.store, DoRevoke(r)).1;
      && (reply == Done(1) <==>
            && Unrevoked(s) && Open(auth, s.now)
            && ((s.state.Some? && s.events.Some?) || r.reason == "state_integrity_incident"))
      && (reply == Done(0) <==> s.marker.Some? && !Unrevoked(s) && Open(auth, s.now))
      && (reply == Done(1) || reply == Done(0) || reply.Refused?)
  {
    EventsAreCounted(auth, h);
    hide EventsMatch;
    hide Timed;
    hide WellShaped;
    hide DistinctIds;
    hide Append;
    hide RevocationFields;
    hide ChargedUsage;
    hide ReservationsOf;
  }

  lemma AppendIsOneMore(es: seq<Entry>, now: int, fields: Fields)
    ensures OneMore(es, Append(es, now, fields)) && |Append(es, now, fields)| == |es| + 1
    ensures Append(es, now, fields)[|es|].fields == fields
  {
  }

  lemma RevokeWrites(auth: Authorization, h: History, r: RevokeArgs)
    requires auth.Valid() && Inv(auth, h) && Act(auth, h.store, DoRevoke(r)).1 == Done(1)
    ensures Revokes(h.store, Act(auth, h.store, DoRevoke(r)).0, r)
  {
    EventsAreCounted(auth, h);
    RevokeEffect(auth, h.store, r);
    assert IsInt64(h.store.now) by { hide Inv; }
    ChargeCounts(h.charges);
    hide Act;
    var s := h.store;
    var info := Revocation(s.now, r.operator, r.reason, r.request);
    if s.Intact() {
      var next := s.state.value.sequence + 1;
      var fields := RevocationFields(next, auth.payloadHash, info);
      AppendIsOneMore(s.events.value, s.now, fields);
      RevocationText(next, auth.payloadHash, info, Append(s.events.value, s.now, fields)[|s.events.value|].id);
    }
    hide Announces;
    hide RevocationFields;
    hide Append;
    hide OneMore;
    hide EventsMatch;
    hide Timed;
    hide WellShaped;
    hide DistinctIds;
    hide FieldInt;
  }

  // ---- Reserve ----

  /** A request for one run or one call that the limits still leave room for. */
  predicate RoomFor(l: Limits, u: Usage, r: ReserveArgs) {
    var d := r.delta;
    && d.runs >= 0 && d.calls >= 0 && d.outputs >= 0 && d.cost >= 0
    && (|| (r.eventType == "run_reserved" && d.runs == 1 && d.calls == 0 && d.cost == 0)
        || (r.eventType == "provider_call_reserved" && d.runs == 0 && d.calls == 1 && d.outputs == 0))
    && u.runs + d.runs <= l.runs && u.calls + d.calls <= l.calls
    && u.outputs + d.outputs <= l.outputs && u.cost + d.cost <= l.cost
  }

  /** What a new reservation leaves behind: the counters raised by it, the ID remembered, and one more
      entry with everything the caller gave. */
  ghost predicate Charges(s: Store, s': Store, r: ReserveArgs)
    requires s.Intact()
  {
    && s'.Intact() && s'.marker == s.marker && s'.now == s.now
    && var st, st' := s.state.value, s'.state.value;
       && st'.usage == Usage(st.usage.runs + r.delta.runs, st.usage.calls + r.delta.calls,
                             st.usage.outputs + r.delta.outputs, st.usage.cost + r.delta.cost)
       && st'.sequence == st.sequence + 1 && st'.reservations == st.reservations[r.id := r.digest]
       && OneMore(s.events.value, s'.events.value)
       && Writes(s'.events.value[|s.events.value|], st.sequence + 1, s.now, r)
  }

  ghost predicate Writes(e: Entry, sequence: int, now: int, r: ReserveArgs) {
    && Announces(e, sequence, r.eventType) && FieldInt(e.fields, FCreatedAt) == Some(now)
    && TextIs(e, FInvocation, r.invocation) && TextIs(e, FSubject, r.subject) && TextIs(e, FReservation, r.digest)
    && FieldInt(e.fields, FRuns) == Some(r.delta.runs) && FieldInt(e.fields, FCalls) == Some(r.delta.calls)
    && FieldInt(e.fields, FOutputs) == Some(r.delta.outputs) && FieldInt(e.fields, FCost) == Some(r.delta.cost)
  }

  lemma ReservationText(sequence: int, at: int, r: ReserveArgs, e: Entry)
    requires IsInt64(sequence) && IsInt64(at) && SmallDelta(r.delta) && e.fields == ReservationFields(sequence, at, r)
    ensures Writes(e, sequence, at, r)
  {
    ReservationFieldsParse(sequence, at, r);
    ReservationAnnounces(e, sequence, at, r);
    hide Itoa;
    hide Announces;
    hide FieldInt;
  }

  /** In every run a reservation succeeds exactly when all keys are there, unrevoked, the window is open,
      and it is either known under the same digest, and then changes nothing, or new and affordable, and
      then charges exactly what it asks for. Anything else is refused and changes nothing. */
  lemma ReserveExactly(auth: Authorization, start: int, actions: seq<Action>, r: ReserveArgs)
    requires auth.Valid()
    ensures var s := Run(auth, start, actions).store;
      var (s', reply) := Act(auth, s, DoReserve(r));
      var usable := s.Intact() && Unrevoked(s) && Open(auth, s.now);
      && (!usable ==> reply.Refused? && s' == s)
      && (usable && r.id in s.state.value.reservations ==>
            && s' == s
            && if s.state.value.reservations[r.id] == r.digest then reply == Done(s.state.value.sequence) else reply.Refused?)
      && (usable && r.id !in s.state.value.reservations ==>
            if RoomFor(auth.limits, s.state.value.usage, r)
            then reply == Done(s.state.value.sequence + 1) && Charges(s, s', r)
            else reply.Refused? && s' == s)
  {
    hide Run;
    Reachable(auth, start, actions);
    var h := Run(auth, start, actions);
    ReserveReplies(auth, h, r);
    if Grants(auth, h.store, DoReserve(r)) {
      ReserveWrites(auth, h, r);
    }
    hide Act;
    hide Inv;
    hide Charges;
    hide RoomFor;
  }

  lemma ReserveReplies(auth: Authorization, h: History, r: ReserveArgs)
    requires auth.Valid() && Inv(auth, h)
    ensures var s := h.store;
      var (s', reply) := Act(auth, s, DoReserve(r));
      var usable := s.Intact() && Unrevoked(s) && Open(auth, s.now);
      && (!usable ==> reply.Refused? && s' == s)
      && (usable && r.id in s.state.value.reservations ==>
            && s' == s
            && if s.state.value.reservations[r.id] == r.digest then reply == Done(s.state.value.sequence) else reply.Refused?)
      && (usable && r.id !in s.state.value.reservations ==>
            if RoomFor(auth.limits, s.state.value.usage, r)
            then reply == Done(s.state.value.sequence + 1) && Grants(auth, s, DoReserve(r))
            else reply.Refused? && s' == s)
  {
    EventsAreCounted(auth, h);
    assert |"run_reserved"| == 12 && |"provider_call_reserved"| == 22;
    hide EventsMatch;
    hide Timed;
    hide WellShaped;
    hide DistinctIds;
    hide Append;
    hide ReservationFields;
    hide ChargedUsage;
    hide ReservationsOf;
  }

  lemma ReserveWrites(auth: Authorization, h: History, r: ReserveArgs)
    requires auth.Valid() && Inv(auth, h) && Grants(auth, h.store, DoReserve(r))
    ensures h.store.Intact() && Charges(h.store, Act(auth, h.store, DoReserve(r)).0, r)
  {
    hide *;
    var s := h.store;
    GrantEffect(auth, s, r);
    GrantFacts(auth, h, r);
    var next := s.state.value.sequence + 1;
    var fields := ReservationFields(next, s.now, r);
    AppendIsOneMore(s.events.value, s.now, fields);
    ReservationText(next, s.now, r, Append(s.events.value, s.now, fields)[|s.events.value|]);
    ChargesIf(s, Act(auth, s, DoReserve(r)).0, r);
  }

  lemma GrantFacts(auth: Authorization, h: History, r: ReserveArgs)
    requires auth.Valid() && Inv(auth, h) && Grants(auth, h.store, DoReserve(r))
    ensures h.store.Intact() && SmallDelta(r.delta) && IsInt64(h.store.now) && IsInt64(h.store.state.value.sequence + 1)
  {
    GrantEffect(auth, h.store, r);
    ChargeCounts(h.charges);
    EventsAreCounted(auth, h);
    hide Grants;
    hide Act;
    hide EventsMatch;
    hide Timed;
    hide WellShaped;
    hide DistinctIds;
    hide ChargedUsage;
    hide ReservationsOf;
  }

  lemma ChargesIf(s: Store, s': Store, r: ReserveArgs)
    requires s.Intact() && OneMore(s.events.value, Append(s.events.value, s.now, ReservationFields(s.state.value.sequence + 1, s.now, r)))
    requires var st := s.state.value;
      var es := Append(s.events.value, s.now, ReservationFields(st.sequence + 1, s.now, r));
      && s' == s.(state := Some(st.(usage := Plus(st.usage, r.delta), sequence := st.sequence + 1,
                                    reservations := st.reservations[r.id := r.digest])),
                  events := Some(es))
      && |es| > |s.events.value| && Writes(es[|s.events.value|], st.sequence + 1, s.now, r)
    ensures Charges(s, s', r)
  {
    hide Writes;
    hide Append;
    hide ReservationFields;
    hide OneMore;
  }

  // ---- Keys that are not this ledger's ----

  /** A marker written for another authorization, key or expiry. */
  predicate ForeignMarker(id: Identity, s: Store) {
    s.marker.Some? && !(s.marker.value.schema == id.schema && s.marker.value.payloadHash == id.payloadHash
                        && s.marker.value.keyId == id.keyId && s.marker.value.expires == id.expires)
  }

  /** A state hash written for another authorization, or a stream with entries missing or added. */
  predicate BrokenState(id: Identity, s: Store) {
    && s.Intact()
    && var st := s.state.value;
       || st.identity.payloadHash != id.payloadHash || st.identity.keyId != id.keyId || st.identity.schema != id.schema
       || st.identity.issued != id.issued || st.identity.expires != id.expires || st.identity.limits != id.limits
       || |s.events.value| != st.sequence + 1
  }

  /** Whatever a store holds: with another ledger's marker, or an unrevoked marker beside a state hash or
      stream that does not fit, every script refuses and nothing is written. */
  lemma ForeignKeysAreRefused(id: Identity, s: Store, r: ReserveArgs, v: RevokeArgs)
    requires ForeignMarker(id, s) || (BrokenState(id, s) && s.marker.value.status != Some(Revoked))
    ensures InitializeScript(id, s).0 == s && InitializeScript(id, s).1.Refused?
    ensures ReserveScript(id, s, r).0 == s && ReserveScript(id, s, r).1.Refused?
    ensures RevokeScript(id, s, v).0 == s && RevokeScript(id, s, v).1.Refused?
    ensures InspectScript(id, s).InspectRefused?
  {
  }

  /** Whatever a store holds: inspection refuses negative counters, and a revoked marker whose state hash is
      there but does not tell of the same revocation. */
  lemma InconsistentKeysAreRefused(id: Identity, s: Store)
    requires s.Intact()
    ensures InspectScript(id, s).Inspected? ==>
      && s.state.value.usage.runs >= 0 && s.state.value.usage.calls >= 0
      && s.state.value.usage.outputs >= 0 && s.state.value.usage.cost >= 0
    ensures s.marker.value.status == Some(Revoked) && InspectScript(id, s).Inspected? ==>
      && s.marker.value.revocation.Some? && s.marker.value.revocation.value.mode == StreamMode
      && s.state.value.status == Some(Revoked) && s.state.value.revocation.Some?
      && s.state.value.revocation.value.request == s.marker.value.revocation.value.info.request
      && s.marker.value.revocation.value.sequence == s.state.value.sequence
    ensures s.marker.value.status != Some(Revoked) && InspectScript(id, s).Inspected? ==>
      s.marker.value.status == Some(Initialized) && s.state.value.status != Some(Revoked) && s.state.value.revocation.None?
  {
  }
}
