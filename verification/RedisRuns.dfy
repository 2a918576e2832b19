/** Whole runs of the Redis ledger: scripts from any number of clients, mixed with a
    clock that never goes back and the loss of any subset of the three keys. */
module RedisRuns {
  import opened Base
  import opened RedisScripts

  datatype Key = StateKey | EventsKey | MarkerKey

  datatype Action =
    | DoInitialize
    | DoReserve(reserve: ReserveArgs)
    | DoRevoke(revoke: RevokeArgs)
    | Advance(to: int)
    | Lose(keys: set<Key>)

  function Drop(s: Store, keys: set<Key>): Store {
    Store(if StateKey in keys then None else s.state, if EventsKey in keys then None else s.events,
          if MarkerKey in keys then None else s.marker, s.now)
  }

  function Act(auth: Authorization, s: Store, a: Action): (Store, Reply) {
    match a
    case DoInitialize => InitializeScript(IdentityOf(auth), s)
    case DoReserve(r) => ReserveScript(IdentityOf(auth), s, r)
    case DoRevoke(r) => RevokeScript(IdentityOf(auth), s, r)
    case Advance(to) => (if to > s.now then s.(now := to) else s, Done(0))
    case Lose(keys) => (Drop(s, keys), Done(0))
  }

  /** A budget grant: the arguments it was made with and the server time. */
  datatype Charge = Charge(args: ReserveArgs, at: int)

  /** The store with what an observer remembers: the grants since the last creation,
      the grants ever made, and how often the ledger was created. */
  datatype History = History(
    store: Store, initAt: int, charges: seq<Charge>, ever: seq<Charge>, creations: nat)

  predicate Creates(auth: Authorization, s: Store, a: Action) {
    a.DoInitialize? && Act(auth, s, a).1 == Done(1)
  }

  /** The reserve script granted new budget (a retry of a known reservation grants none). */
  predicate Grants(auth: Authorization, s: Store, a: Action) {
    && a.DoReserve?
    && Act(auth, s, a).1.Done?
    && s.state.Some?
    && a.reserve.id !in s.state.value.reservations
  }

  function Step(auth: Authorization, h: History, a: Action): History {
    var s' := Act(auth, h.store, a).0;
    if Creates(auth, h.store, a) then History(s', h.store.now, [], h.ever, h.creations + 1)
    else if Grants(auth, h.store, a) then
      var c := Charge(a.reserve, h.store.now);
      h.(store := s', charges := h.charges + [c], ever := h.ever + [c])
    else h.(store := s')
  }

  function Begin(start: int): History {
    History(Store(None, None, None, start), start, [], [], 0)
  }

  function RunFrom(auth: Authorization, h: History, actions: seq<Action>): History {
    if actions == [] then h
    else Step(auth, RunFrom(auth, h, actions[..|actions| - 1]), actions[|actions| - 1])
  }

  /** The history after any sequence of actions on an empty database. */
  function Run(auth: Authorization, start: int, actions: seq<Action>): History {
    RunFrom(auth, Begin(start), actions)
  }

  // ---- What a list of charges amounts to ----

  function ChargedUsage(cs: seq<Charge>): Usage {
    if cs == [] then ZERO else Plus(ChargedUsage(cs[..|cs| - 1]), cs[|cs| - 1].args.delta)
  }

  function ReservationsOf(cs: seq<Charge>): map<string, string> {
    if cs == [] then map[]
    else ReservationsOf(cs[..|cs| - 1])[cs[|cs| - 1].args.id := cs[|cs| - 1].args.digest]
  }

  ghost predicate DistinctIds(cs: seq<Charge>) {
    forall i, j :: 0 <= i < j < |cs| ==> cs[i].args.id != cs[j].args.id
  }

  ghost predicate WellShaped(cs: seq<Charge>) {
    forall i :: 0 <= i < |cs| ==> ReservationShape(cs[i].args.eventType, cs[i].args.delta)
  }

  ghost predicate Timed(auth: Authorization, cs: seq<Charge>, initAt: int, now: int) {
    && (forall i :: 0 <= i < |cs| ==> initAt <= cs[i].at <= now && auth.InWindowMs(cs[i].at))
    && (forall i, j :: 0 <= i < j < |cs| ==> cs[i].at <= cs[j].at)
  }

  lemma ChargeSnoc(cs: seq<Charge>, c: Charge)
    ensures ChargedUsage(cs + [c]) == Plus(ChargedUsage(cs), c.args.delta)
    ensures ReservationsOf(cs + [c]) == ReservationsOf(cs)[c.args.id := c.args.digest]
  {
    assert (cs + [c])[..|cs|] == cs;
  }

  lemma {:induction false} ReservationsCover(cs: seq<Charge>)
    requires DistinctIds(cs)
    ensures forall i :: 0 <= i < |cs| ==> cs[i].args.id in ReservationsOf(cs) && ReservationsOf(cs)[cs[i].args.id] == cs[i].args.digest
    ensures forall x :: x in ReservationsOf(cs) ==> exists i :: 0 <= i < |cs| && cs[i].args.id == x
  {
    if cs != [] {
      ReservationsCover(cs[..|cs| - 1]);
    }
  }

  /** Every grant is one run or one call, and never lowers a counter. */
  lemma {:induction false} ChargeCounts(cs: seq<Charge>)
    requires WellShaped(cs)
    ensures NonNegative(ChargedUsage(cs))
    ensures ChargedUsage(cs).runs + ChargedUsage(cs).calls == |cs|
  {
    if cs != [] {
      ChargeCounts(cs[..|cs| - 1]);
    }
  }

  lemma {:induction false} PrefixCharges(cs: seq<Charge>, k: nat)
    requires WellShaped(cs) && k <= |cs|
    ensures NonNegative(ChargedUsage(cs[..k]))
    ensures ChargedUsage(cs[..k]).runs <= ChargedUsage(cs).runs
    ensures ChargedUsage(cs[..k]).calls <= ChargedUsage(cs).calls
    ensures ChargedUsage(cs[..k]).outputs <= ChargedUsage(cs).outputs
    ensures ChargedUsage(cs[..k]).cost <= ChargedUsage(cs).cost
  {
    ChargeCounts(cs[..k]);
    if k < |cs| {
      var prior := cs[..|cs| - 1];
      PrefixCharges(prior, k);
      assert prior[..k] == cs[..k];
    } else {
      assert cs[..k] == cs;
    }
  }

  // ---- The invariant ----

  /** The stream tells the whole story: creation, then each charge, then the revocation if any. */
  ghost predicate EventsMatch(
    auth: Authorization, es: seq<Entry>, cs: seq<Charge>, initAt: int, revocation: Option<Revocation>)
  {
    && |es| == 1 + |cs| + (if revocation.Some? then 1 else 0)
    && Increasing(es)
    && es[0].fields == InitializedFields(0, initAt, auth.payloadHash)
    && (forall i :: 0 <= i < |cs| ==> es[i + 1].fields == ReservationFields(i + 1, cs[i].at, cs[i].args))
    && (revocation.Some? ==>
          es[|cs| + 1].fields == RevocationFields(|cs| + 1, auth.payloadHash, revocation.value))
  }

  ghost predicate StateMatches(auth: Authorization, st: StateHash, h: History) {
    && st.identity == IdentityOf(auth)
    && st.usage == ChargedUsage(h.charges)
    && st.reservations == ReservationsOf(h.charges)
    && st.status == Some(if st.revocation.Some? then Revoked else Initialized)
    && st.sequence == |h.charges| + (if st.revocation.Some? then 1 else 0)
    && (st.revocation.Some? ==>
          && auth.InWindowMs(st.revocation.value.at)
          && h.initAt <= st.revocation.value.at <= h.store.now
          && forall i :: 0 <= i < |h.charges| ==> h.charges[i].at <= st.revocation.value.at)
  }

  ghost predicate MarkerMatches(auth: Authorization, m: Marker) {
    && MarkerNames(m, IdentityOf(auth))
    && m.status == Some(if m.revocation.Some? then Revoked else Initialized)
  }

  ghost predicate Inv(auth: Authorization, h: History) {
    && DistinctIds(h.charges)
    && WellShaped(h.charges)
    && Within(ChargedUsage(h.charges), auth.limits)
    && Timed(auth, h.charges, h.initAt, h.store.now)
    && h.initAt <= h.store.now
    && (h.store.marker.Some? ==> MarkerMatches(auth, h.store.marker.value))
    && (h.store.state.Some? && h.store.events.Some? ==>
          && auth.InWindowMs(h.initAt)
          && StateMatches(auth, h.store.state.value, h)
          && EventsMatch(auth, h.store.events.value, h.charges, h.initAt, h.store.state.value.revocation))
    && (h.store.Intact() ==> AgreeOnRevocation(h.store))
  }

  /** While all three keys exist, marker and state hash agree about the revocation. */
  ghost predicate AgreeOnRevocation(s: Store)
    requires s.Intact()
  {
    var st, m := s.state.value, s.marker.value;
    m.revocation == if st.revocation.None? then None
                    else Some(MarkerRevocation(st.revocation.value, StreamMode, st.sequence))
  }

  lemma InitializeKeeps(auth: Authorization, h: History)
    requires auth.Valid() && Inv(auth, h)
    ensures Inv(auth, Step(auth, h, DoInitialize))
  {
  }

  lemma AppendIncreasing(es: seq<Entry>, now: int, fields: Fields)
    requires es != [] && Increasing(es)
    ensures Increasing(Append(es, now, fields))
  {
    var last := es[|es| - 1].id;
    var next := NextStreamId(es, now);
    forall i | 0 <= i < |es| ensures es[i].id.Before(next) {
      assert i == |es| - 1 || es[i].id.Before(last);
    }
  }

  lemma ExtendIds(cs: seq<Charge>, c: Charge)
    requires DistinctIds(cs) && c.args.id !in ReservationsOf(cs)
    ensures DistinctIds(cs + [c])
  {
    ReservationsCover(cs);
    hide ReservationsOf;
    var all := cs + [c];
    assert all[|cs|] == c && forall i :: 0 <= i < |cs| ==> all[i] == cs[i];
  }

  lemma ExtendShape(cs: seq<Charge>, c: Charge)
    requires WellShaped(cs) && ReservationShape(c.args.eventType, c.args.delta)
    ensures WellShaped(cs + [c])
  {
    hide ReservationShape;
  }

  lemma ExtendTimes(auth: Authorization, cs: seq<Charge>, c: Charge, initAt: int)
    requires Timed(auth, cs, initAt, c.at) && initAt <= c.at && auth.InWindowMs(c.at)
    ensures Timed(auth, cs + [c], initAt, c.at)
  {
    var all := cs + [c];
    assert all[|cs|] == c && forall i :: 0 <= i < |cs| ==> all[i] == cs[i];
  }

  lemma ExtendEvents(auth: Authorization, es: seq<Entry>, cs: seq<Charge>, initAt: int, c: Charge)
    requires EventsMatch(auth, es, cs, initAt, None)
    ensures EventsMatch(auth, Append(es, c.at, ReservationFields(|cs| + 1, c.at, c.args)), cs + [c], initAt, None)
  {
    hide InitializedFields;
    hide ReservationFields;
    hide RevocationFields;
    var fields := ReservationFields(|cs| + 1, c.at, c.args);
    AppendIncreasing(es, c.at, fields);
    hide Increasing;
    var es', all := Append(es, c.at, fields), cs + [c];
    assert forall i :: 0 <= i < |es| ==> es'[i] == es[i];
    assert all[|cs|] == c && forall i :: 0 <= i < |cs| ==> all[i] == cs[i];
  }

  lemma GrantEffect(auth: Authorization, s: Store, r: ReserveArgs)
    requires Grants(auth, s, DoReserve(r))
    ensures s.Intact() && MarkerFault(s.marker, IdentityOf(auth)).None? && auth.InWindowMs(s.now)
    ensures s.state.value.status != Some(Revoked) && s.state.value.revocation.None?
    ensures ReservationShape(r.eventType, r.delta)
    ensures NonNegative(s.state.value.usage) ==> Within(Plus(s.state.value.usage, r.delta), auth.limits)
    ensures var st := s.state.value;
      Act(auth, s, DoReserve(r)).0 ==
      s.(state := Some(st.(usage := Plus(st.usage, r.delta), sequence := st.sequence + 1,
                           reservations := st.reservations[r.id := r.digest])),
         events := Some(Append(s.events.value, s.now, ReservationFields(st.sequence + 1, s.now, r))))
  {
    assert DeltaFault(r).None?;
  }

  lemma GrantKeeps(auth: Authorization, h: History, r: ReserveArgs)
    requires auth.Valid() && Inv(auth, h) && Grants(auth, h.store, DoReserve(r))
    ensures Inv(auth, Step(auth, h, DoReserve(r)))
  {
    hide Act;
    hide DistinctIds;
    hide WellShaped;
    hide Timed;
    hide EventsMatch;
    hide ReservationsOf;
    hide ChargedUsage;
    hide Append;
    hide ReservationFields;
    var c := Charge(r, h.store.now);
    GrantEffect(auth, h.store, r);
    ChargeSnoc(h.charges, c);
    ExtendIds(h.charges, c);
    ExtendShape(h.charges, c);
    ExtendTimes(auth, h.charges, c, h.initAt);
    ExtendEvents(auth, h.store.events.value, h.charges, h.initAt, c);
  }

  lemma ReserveKeeps(auth: Authorization, h: History, r: ReserveArgs)
    requires auth.Valid() && Inv(auth, h)
    ensures Inv(auth, Step(auth, h, DoReserve(r)))
  {
    if Grants(auth, h.store, DoReserve(r)) {
      GrantKeeps(auth, h, r);
    } else {
      assert Act(auth, h.store, DoReserve(r)).0 == h.store;
    }
  }

  lemma RevokeEffect(auth: Authorization, s: Store, r: RevokeArgs)
    ensures var (s', reply) := Act(auth, s, DoRevoke(r));
      var info := Revocation(s.now, r.operator, r.reason, r.request);
      && (reply != Done(1) ==> s' == s)
      && (reply == Done(1) ==>
            && s.marker.Some? && MarkerNames(s.marker.value, IdentityOf(auth)) && auth.InWindowMs(s.now)
            && if s.state.Some? && s.events.Some?
               then
                 var st := s.state.value;
                 && st.revocation.None?
                 && s' == Store(
                      Some(st.(sequence := st.sequence + 1, status := Some(Revoked), revocation := Some(info))),
                      Some(Append(s.events.value, s.now, RevocationFields(st.sequence + 1, auth.payloadHash, info))),
                      Some(RevokeMarker(s.marker.value, info, StreamMode, st.sequence + 1)), s.now)
               else s' == s.(marker := Some(RevokeMarker(s.marker.value, info, MarkerOnly, -1))))
  {
    hide Append;
    hide RevocationFields;
  }

  lemma ExtendByRevocation(
    auth: Authorization, es: seq<Entry>, cs: seq<Charge>, initAt: int, now: int, info: Revocation)
    requires EventsMatch(auth, es, cs, initAt, None)
    ensures EventsMatch(auth, Append(es, now, RevocationFields(|cs| + 1, auth.payloadHash, info)), cs, initAt, Some(info))
  {
    hide InitializedFields;
    hide ReservationFields;
    hide RevocationFields;
    var fields := RevocationFields(|cs| + 1, auth.payloadHash, info);
    AppendIncreasing(es, now, fields);
    hide Increasing;
    var es' := Append(es, now, fields);
    assert forall i :: 0 <= i < |es| ==> es'[i] == es[i];
  }

  lemma ChargesAreEarlier(auth: Authorization, cs: seq<Charge>, initAt: int, now: int)
    requires Timed(auth, cs, initAt, now)
    ensures forall i :: 0 <= i < |cs| ==> cs[i].at <= now
  {
  }

  lemma RevokeKeeps(auth: Authorization, h: History, r: RevokeArgs)
    requires auth.Valid() && Inv(auth, h)
    ensures Inv(auth, Step(auth, h, DoRevoke(r)))
  {
    hide Act;
    hide DistinctIds;
    hide WellShaped;
    hide Timed;
    hide EventsMatch;
    hide Append;
    hide RevocationFields;
    RevokeEffect(auth, h.store, r);
    if h.store.state.Some? && h.store.events.Some? && Act(auth, h.store, DoRevoke(r)).1 == Done(1) {
      ChargesAreEarlier(auth, h.charges, h.initAt, h.store.now);
      ExtendByRevocation(auth, h.store.events.value, h.charges, h.initAt, h.store.now,
                         Revocation(h.store.now, r.operator, r.reason, r.request));
    }
  }

  lemma LaterStillTimed(auth: Authorization, cs: seq<Charge>, initAt: int, now: int, later: int)
    requires Timed(auth, cs, initAt, now) && now <= later
    ensures Timed(auth, cs, initAt, later)
  {
  }

  lemma EnvironmentKeeps(auth: Authorization, h: History, a: Action)
    requires Inv(auth, h) && (a.Advance? || a.Lose?)
    ensures Inv(auth, Step(auth, h, a))
  {
    hide DistinctIds;
    hide WellShaped;
    hide Timed;
    hide EventsMatch;
    LaterStillTimed(auth, h.charges, h.initAt, h.store.now, Step(auth, h, a).store.now);
  }

  lemma StepKeeps(auth: Authorization, h: History, a: Action)
    requires auth.Valid() && Inv(auth, h)
    ensures Inv(auth, Step(auth, h, a))
  {
    match a
    case DoInitialize => InitializeKeeps(auth, h);
    case DoReserve(r) => ReserveKeeps(auth, h, r);
    case DoRevoke(r) => RevokeKeeps(auth, h, r);
    case Advance(_) => EnvironmentKeeps(auth, h, a);
    case Lose(_) => EnvironmentKeeps(auth, h, a);
  }

  lemma {:induction false} RunKeeps(auth: Authorization, h: History, actions: seq<Action>)
    requires auth.Valid() && Inv(auth, h)
    ensures Inv(auth, RunFrom(auth, h, actions))
  {
    hide Inv;
    hide Step;
    if actions != [] {
      RunKeeps(auth, h, actions[..|actions| - 1]);
      StepKeeps(auth, RunFrom(auth, h, actions[..|actions| - 1]), actions[|actions| - 1]);
    }
  }

  /** The invariant holds after every run. */
  lemma Reachable(auth: Authorization, start: int, actions: seq<Action>)
    requires auth.Valid()
    ensures Inv(auth, Run(auth, start, actions))
  {
    RunKeeps(auth, Begin(start), actions);
  }
}
