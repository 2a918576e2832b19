/** What every run of the Redis ledger guarantees: the counters are the stream's sums,
    partial loss grants no budget twice, revocation is final, a retry is charged once. */
module RedisSafety {
  import opened Base
  import opened RedisScripts
  import opened RedisRuns

  // ---- Counters and stream ----

  lemma InitializedSaysNothing(e: Entry, at: int, hash: string)
    requires e.fields == InitializedFields(0, at, hash)
    ensures EntryDelta(e) == ZERO
  {
    assert |"initialized"| == 11 && |"run_reserved"| == 12 && |"provider_call_reserved"| == 22;
  }

  lemma RevocationSaysNothing(e: Entry, sequence: int, hash: string, r: Revocation)
    requires e.fields == RevocationFields(sequence, hash, r)
    ensures EntryDelta(e) == ZERO
  {
    assert |"authorization_revoked"| == 21 && |"run_reserved"| == 12 && |"provider_call_reserved"| == 22;
  }

  lemma ReservationSays(e: Entry, sequence: int, at: int, r: ReserveArgs)
    requires e.fields == ReservationFields(sequence, at, r)
    requires ReservationShape(r.eventType, r.delta) && SmallDelta(r.delta)
    ensures EntryDelta(e) == r.delta
  {
    ReservationFieldsParse(sequence, at, r);
  }

  /** A charge that was admitted is small enough to survive printing and parsing. */
  lemma ChargeIsSmall(auth: Authorization, cs: seq<Charge>, i: nat)
    requires auth.Valid() && WellShaped(cs) && Within(ChargedUsage(cs), auth.limits) && i < |cs|
    ensures Within(ChargedUsage(cs[..i + 1]), auth.limits) && Within(ChargedUsage(cs[..i]), auth.limits)
    ensures ChargedUsage(cs[..i + 1]) == Plus(ChargedUsage(cs[..i]), cs[i].args.delta)
    ensures SmallDelta(cs[i].args.delta)
  {
    PrefixCharges(cs, i);
    PrefixCharges(cs, i + 1);
    assert cs[..i + 1][..i] == cs[..i];
  }

  lemma EventFields(
    auth: Authorization, es: seq<Entry>, cs: seq<Charge>, initAt: int, rev: Option<Revocation>, k: nat)
    requires EventsMatch(auth, es, cs, initAt, rev) && k < |es|
    ensures |es| == 1 + |cs| + (if rev.Some? then 1 else 0)
    ensures k == 0 ==> es[k].fields == InitializedFields(0, initAt, auth.payloadHash)
    ensures 0 < k <= |cs| ==> es[k].fields == ReservationFields(k, cs[k - 1].at, cs[k - 1].args)
    ensures k > |cs| ==> rev.Some? && es[k].fields == RevocationFields(|cs| + 1, auth.payloadHash, rev.value)
  {
    hide InitializedFields;
    hide ReservationFields;
    hide RevocationFields;
    if 0 < k <= |cs| {
      assert es[k - 1 + 1].fields == ReservationFields(k - 1 + 1, cs[k - 1].at, cs[k - 1].args);
    }
  }

  lemma NothingYet()
    ensures StreamUsage([]) == ZERO && ChargedUsage([]) == ZERO
  {
  }

  lemma ShapedAt(cs: seq<Charge>, i: nat)
    requires WellShaped(cs) && i < |cs|
    ensures ReservationShape(cs[i].args.eventType, cs[i].args.delta)
  {
  }

  /** After the creation event, each entry adds exactly one charge. */
  lemma {:induction false} StreamAddsUp(
    auth: Authorization, es: seq<Entry>, cs: seq<Charge>, initAt: int, rev: Option<Revocation>, k: nat)
    requires auth.Valid() && EventsMatch(auth, es, cs, initAt, rev) && k <= |cs| && k < |es|
    requires WellShaped(cs) && Within(ChargedUsage(cs), auth.limits)
    ensures StreamUsage(es[..k + 1]) == ChargedUsage(cs[..k])
  {
    hide *;
    EventFields(auth, es, cs, initAt, rev, k);
    assert es[..k + 1] == es[..k] + [es[k]];
    StreamUsageSnoc(es[..k], es[k]);
    if k == 0 {
      InitializedSaysNothing(es[0], initAt, auth.payloadHash);
      NothingYet();
      assert es[..0] == [] && cs[..0] == [];
      PlusZero(ZERO);
    } else {
      StreamAddsUp(auth, es, cs, initAt, rev, k - 1);
      ChargeIsSmall(auth, cs, k - 1);
      ShapedAt(cs, k - 1);
      ReservationSays(es[k], k, cs[k - 1].at, cs[k - 1].args);
    }
  }

  lemma PlusZero(u: Usage)
    ensures Plus(u, ZERO) == u
  {
  }

  lemma StreamTotal(
    auth: Authorization, es: seq<Entry>, cs: seq<Charge>, initAt: int, rev: Option<Revocation>)
    requires auth.Valid() && EventsMatch(auth, es, cs, initAt, rev)
    requires WellShaped(cs) && Within(ChargedUsage(cs), auth.limits)
    ensures StreamUsage(es) == ChargedUsage(cs)
  {
    hide *;
    EventCount(auth, es, cs, initAt, rev);
    StreamAddsUp(auth, es, cs, initAt, rev, |cs|);
    assert cs[..|cs|] == cs;
    var body := es[..|cs| + 1];
    if rev.Some? {
      var last := es[|cs| + 1];
      EventFields(auth, es, cs, initAt, rev, |cs| + 1);
      assert es == body + [last];
      RevocationSaysNothing(last, |cs| + 1, auth.payloadHash, rev.value);
      StreamUsageSnoc(body, last);
      PlusZero(StreamUsage(body));
    } else {
      assert body == es;
    }
  }

  /** An entry's own account of its place and kind. */
  ghost predicate Announces(e: Entry, sequence: int, eventType: string) {
    && FieldInt(e.fields, FSequence) == Some(sequence)
    && FEventType in e.fields && e.fields[FEventType] == eventType
  }

  lemma InitializedAnnounces(e: Entry, at: int, hash: string)
    requires e.fields == InitializedFields(0, at, hash)
    ensures Announces(e, 0, "initialized")
  {
    FieldParses(e.fields, FSequence, 0);
  }

  lemma ReservationAnnounces(e: Entry, sequence: int, at: int, r: ReserveArgs)
    requires e.fields == ReservationFields(sequence, at, r) && IsInt64(sequence)
    ensures Announces(e, sequence, r.eventType)
  {
    FieldParses(e.fields, FSequence, sequence);
  }

  lemma RevocationAnnounces(e: Entry, sequence: int, hash: string, r: Revocation)
    requires e.fields == RevocationFields(sequence, hash, r) && IsInt64(sequence)
    ensures Announces(e, sequence, "authorization_revoked")
  {
    FieldParses(e.fields, FSequence, sequence);
  }

  lemma EntriesAnnounce(
    auth: Authorization, es: seq<Entry>, cs: seq<Charge>, initAt: int, rev: Option<Revocation>, i: nat)
    requires EventsMatch(auth, es, cs, initAt, rev) && i < |es| <= MAX_INT64
    ensures if i == 0 then Announces(es[i], 0, "initialized")
            else if i <= |cs| then Announces(es[i], i, cs[i - 1].args.eventType)
            else Announces(es[i], i, "authorization_revoked")
  {
    hide Announces;
    hide InitializedFields;
    hide ReservationFields;
    hide RevocationFields;
    if i == 0 {
      InitializedAnnounces(es[0], initAt, auth.payloadHash);
    } else if i <= |cs| {
      ReservationAnnounces(es[i], i, cs[i - 1].at, cs[i - 1].args);
    } else {
      RevocationAnnounces(es[i], i, auth.payloadHash, rev.value);
    }
  }

  /** After any run, whenever the state hash and the stream both exist, the stream has one
      entry per sequence number, starts with the only creation event, ends with the revocation
      if there is one, and sums to the counters, which are within the limits. */
  lemma LedgerMatchesStream(auth: Authorization, start: int, actions: seq<Action>)
    requires auth.Valid()
    ensures var h := Run(auth, start, actions);
      h.store.state.Some? && h.store.events.Some? ==>
        var st, es := h.store.state.value, h.store.events.value;
        var revoked := st.revocation.Some?;
        && |es| == st.sequence + 1 > 0
        && Announces(es[0], 0, "initialized")
        && (forall i :: 0 < i < |es| && !(revoked && i == st.sequence) ==>
              Announces(es[i], i, "run_reserved") || Announces(es[i], i, "provider_call_reserved"))
        && (revoked ==> Announces(es[st.sequence], st.sequence, "authorization_revoked"))
        && st.usage == StreamUsage(es)
        && Within(st.usage, auth.limits)
        && st.sequence == st.usage.runs + st.usage.calls + (if revoked then 1 else 0)
  {
    Reachable(auth, start, actions);
    var h := Run(auth, start, actions);
    hide Run;
    hide Announces;
    hide EventsMatch;
    if h.store.state.Some? && h.store.events.Some? {
      var st, es := h.store.state.value, h.store.events.value;
      EventCount(auth, es, h.charges, h.initAt, st.revocation);
      StreamTotal(auth, es, h.charges, h.initAt, st.revocation);
      ChargeCounts(h.charges);
      forall i: nat | i < |es|
        ensures if i == 0 then Announces(es[i], 0, "initialized")
                else if i <= |h.charges| then Announces(es[i], i, h.charges[i - 1].args.eventType)
                else Announces(es[i], i, "authorization_revoked")
      {
        EntriesAnnounce(auth, es, h.charges, h.initAt, st.revocation, i);
      }
    }
  }

  lemma EventCount(
    auth: Authorization, es: seq<Entry>, cs: seq<Charge>, initAt: int, rev: Option<Revocation>)
    requires EventsMatch(auth, es, cs, initAt, rev)
    ensures |es| == 1 + |cs| + (if rev.Some? then 1 else 0)
  {
  }

  // ---- Loss never grants budget twice ----

  predicate LosesMarker(a: Action) {
    a.Lose? && MarkerKey in a.keys
  }

  function MarkerLosses(actions: seq<Action>): nat {
    if actions == [] then 0
    else MarkerLosses(actions[..|actions| - 1]) + (if LosesMarker(actions[|actions| - 1]) then 1 else 0)
  }

  /** What any action can do to the marker, and to a database without one. */
  lemma MarkerFacts(auth: Authorization, s: Store, a: Action)
    ensures var s' := Act(auth, s, a).0;
      && (Creates(auth, s, a) ==> s.Blank() && s'.Intact())
      && (s.Blank() && !Creates(auth, s, a) ==> s'.Blank() && !Grants(auth, s, a))
      && (s.marker.Some? && !LosesMarker(a) ==> s'.marker.Some?)
      && (s.marker.None? && !Creates(auth, s, a) ==> s'.marker.None?)
  {
  }

  function FullBudgets(n: int, l: Limits): Usage {
    Usage(n * l.runs, n * l.calls, n * l.outputs, n * l.cost)
  }

  predicate AtMost(a: Usage, b: Usage) {
    a.runs <= b.runs && a.calls <= b.calls && a.outputs <= b.outputs && a.cost <= b.cost
  }

  lemma OneMoreShare(n: int, m: int, x: int)
    ensures (n + 1) * x == n * x + x
    ensures 0 <= n <= m && x >= 0 ==> 0 <= n * x <= m * x
  {
    if 0 <= n <= m && x >= 0 {
      assert m * x == n * x + (m - n) * x;
    }
  }

  lemma OneMoreBudget(n: int, m: int, l: Limits)
    requires ValidLimits(l)
    ensures FullBudgets(n + 1, l) == Plus(FullBudgets(n, l), Usage(l.runs, l.calls, l.outputs, l.cost))
    ensures 0 <= n <= m ==> AtMost(ZERO, FullBudgets(n, l)) && AtMost(FullBudgets(n, l), FullBudgets(m, l))
  {
    OneMoreShare(n, m, l.runs);
    OneMoreShare(n, m, l.calls);
    OneMoreShare(n, m, l.outputs);
    OneMoreShare(n, m, l.cost);
  }

  /** Everything ever granted fits in one full budget per creation. */
  ghost predicate EverBounded(auth: Authorization, h: History) {
    && (h.creations == 0 ==> h.store.Blank() && h.charges == [] && h.ever == [])
    && (h.creations > 0 ==>
          AtMost(ChargedUsage(h.ever), Plus(FullBudgets(h.creations - 1, auth.limits), ChargedUsage(h.charges))))
  }

  lemma StepKeepsBound(auth: Authorization, h: History, a: Action)
    requires auth.Valid() && EverBounded(auth, h) && Within(ChargedUsage(h.charges), auth.limits)
    ensures EverBounded(auth, Step(auth, h, a))
  {
    hide Act;
    hide FullBudgets;
    MarkerFacts(auth, h.store, a);
    assert ChargedUsage([]) == ZERO;
    hide ChargedUsage;
    if Creates(auth, h.store, a) {
      OneMoreBudget(h.creations - 1, 0, auth.limits);
      OneMoreBudget(0, 0, auth.limits);
    } else if Grants(auth, h.store, a) {
      var c := Charge(a.reserve, h.store.now);
      ChargeSnoc(h.charges, c);
      ChargeSnoc(h.ever, c);
    }
  }

  lemma StepCountsMarker(auth: Authorization, h: History, a: Action, losses: nat)
    requires h.creations <= losses + (if h.store.marker.Some? then 1 else 0)
    ensures var h', losses' := Step(auth, h, a), losses + (if LosesMarker(a) then 1 else 0);
      h'.creations <= losses' + (if h'.store.marker.Some? then 1 else 0)
  {
    hide Act;
    MarkerFacts(auth, h.store, a);
  }

  lemma {:induction false} RunBounds(auth: Authorization, start: int, actions: seq<Action>)
    requires auth.Valid()
    ensures EverBounded(auth, Run(auth, start, actions))
    ensures var h := Run(auth, start, actions);
      h.creations <= MarkerLosses(actions) + (if h.store.marker.Some? then 1 else 0)
  {
    hide Act;
    hide Inv;
    if actions != [] {
      var prior, a := actions[..|actions| - 1], actions[|actions| - 1];
      RunBounds(auth, start, prior);
      Reachable(auth, start, prior);
      StepKeepsBound(auth, Run(auth, start, prior), a);
      StepCountsMarker(auth, Run(auth, start, prior), a, MarkerLosses(prior));
    }
  }

  /** Budget is granted again only after the marker itself was lost: whatever else is lost, in
      whatever order, a run that loses the marker m times grants at most m + 1 full budgets, and
      the grants since the last creation alone never exceed one. Creation needs all keys absent. */
  lemma LossNeverRegrants(auth: Authorization, start: int, actions: seq<Action>)
    requires auth.Valid()
    ensures var h := Run(auth, start, actions);
      && Within(ChargedUsage(h.charges), auth.limits)
      && AtMost(ChargedUsage(h.ever), FullBudgets(MarkerLosses(actions) + 1, auth.limits))
      && (Creates(auth, h.store, DoInitialize) ==> h.store.Blank())
  {
    RunBounds(auth, start, actions);
    Reachable(auth, start, actions);
    var h := Run(auth, start, actions);
    MarkerFacts(auth, h.store, DoInitialize);
    hide Act;
    hide Run;
    hide FullBudgets;
    OneMoreBudget(h.creations - 1, 0, auth.limits);
    OneMoreBudget(h.creations, MarkerLosses(actions) + 1, auth.limits);
  }

  /** Between two creations of one ledger, the marker was explicitly lost. */
  lemma RecreationNeedsMarkerLoss(auth: Authorization, start: int, actions: seq<Action>, i: nat, j: nat)
    requires i < j < |actions|
    requires Creates(auth, Run(auth, start, actions[..i]).store, actions[i])
    requires Creates(auth, Run(auth, start, actions[..j]).store, actions[j])
    ensures exists k :: i < k < j && LosesMarker(actions[k])
  {
    MarkerFacts(auth, Run(auth, start, actions[..j]).store, actions[j]);
    hide Act;
    if forall k :: i < k < j ==> !LosesMarker(actions[k]) {
      MarkerStays(auth, start, actions, i, j);
    }
  }

  lemma {:induction false} MarkerStays(auth: Authorization, start: int, actions: seq<Action>, i: nat, j: nat)
    requires i < j < |actions|
    requires Creates(auth, Run(auth, start, actions[..i]).store, actions[i])
    requires forall k :: i < k < j ==> !LosesMarker(actions[k])
    ensures Run(auth, start, actions[..j]).store.marker.Some?
  {
    hide Act;
    var prior := Run(auth, start, actions[..j - 1]);
    assert actions[..j][..j - 1] == actions[..j - 1];
    MarkerFacts(auth, prior.store, actions[j - 1]);
    if i + 1 < j {
      MarkerStays(auth, start, actions, i, j - 1);
    }
  }

  // ---- Revocation is final ----

  ghost predicate Frozen(s: Store, m: Marker) {
    s.marker == Some(m) && m.status == Some(Revoked) && m.revocation.Some?
  }

  /** Same marker, no new grant, no creation; the other keys unchanged unless lost. */
  ghost predicate NothingMoves(h: History, h': History) {
    && h'.store.marker == h.store.marker
    && h'.charges == h.charges && h'.ever == h.ever && h'.creations == h.creations
    && (h'.store.events == h.store.events || h'.store.events.None?)
    && (h'.store.state == h.store.state || h'.store.state.None?)
  }

  /** One step from a revoked ledger that keeps its marker. */
  lemma FrozenStep(auth: Authorization, h: History, a: Action, m: Marker)
    requires Frozen(h.store, m) && MarkerNames(m, IdentityOf(auth)) && !LosesMarker(a)
    ensures NothingMoves(h, Step(auth, h, a))
    ensures a.DoInitialize? || a.DoReserve? ==> Act(auth, h.store, a).1.Refused?
    ensures a.DoInitialize? || a.DoReserve? || a.DoRevoke? ==> Act(auth, h.store, a).0 == h.store
  {
  }

  lemma {:induction false} FrozenRun(auth: Authorization, h: History, after: seq<Action>, m: Marker)
    requires Frozen(h.store, m) && MarkerNames(m, IdentityOf(auth))
    requires forall k :: 0 <= k < |after| ==> !LosesMarker(after[k])
    ensures NothingMoves(h, RunFrom(auth, h, after))
  {
    hide Act;
    if after != [] {
      var prior := after[..|after| - 1];
      FrozenRun(auth, h, prior, m);
      FrozenStep(auth, RunFrom(auth, h, prior), after[|after| - 1], m);
    }
  }

  /** What a successful revocation leaves behind. */
  lemma RevokeFreezes(auth: Authorization, h: History, r: RevokeArgs)
    requires auth.Valid() && Inv(auth, h) && Act(auth, h.store, DoRevoke(r)).1 == Done(1)
    ensures var h' := Step(auth, h, DoRevoke(r));
      && h'.store.marker.Some? && Frozen(h'.store, h'.store.marker.value)
      && MarkerNames(h'.store.marker.value, IdentityOf(auth))
      && h'.store.marker.value.revocation.value.info == Revocation(h.store.now, r.operator, r.reason, r.request)
      && (h'.store.state.Some? && h'.store.events.Some? ==> h'.store.state.value.revocation.Some?)
  {
    hide Append;
  }

  /** Once a revoke script has changed the marker, then through every later run that keeps the
      marker: the recorded operator, reason, time and request never change, no initialize or
      reserve succeeds, repeated revokes change nothing, and a stream-mode revocation stays last. */
  lemma RevocationIsFinal(
    auth: Authorization, start: int, before: seq<Action>, r: RevokeArgs, after: seq<Action>)
    requires auth.Valid()
    requires Act(auth, Run(auth, start, before).store, DoRevoke(r)).1 == Done(1)
    requires forall k :: 0 <= k < |after| ==> !LosesMarker(after[k])
    ensures var h0 := Run(auth, start, before);
      var h1 := Step(auth, h0, DoRevoke(r));
      var h := RunFrom(auth, h1, after);
      && NothingMoves(h1, h)
      && h.store.marker.Some? && Frozen(h.store, h.store.marker.value)
      && h.store.marker.value.revocation.value.info == Revocation(h0.store.now, r.operator, r.reason, r.request)
      && (h.store.state.Some? && h.store.events.Some? ==>
            var es := h.store.events.value;
            es != [] && Announces(es[|es| - 1], |es| - 1, "authorization_revoked"))
      && (forall a: Action :: a.DoInitialize? || a.DoReserve? ==> Act(auth, h.store, a).1.Refused?)
      && (forall a: Action :: a.DoInitialize? || a.DoReserve? || a.DoRevoke? ==> Act(auth, h.store, a).0 == h.store)
  {
    hide Act;
    hide RunFrom;
    hide Run;
    hide Step;
    hide Inv;
    var h0 := Run(auth, start, before);
    var h1 := Step(auth, h0, DoRevoke(r));
    var h := RunFrom(auth, h1, after);
    Reachable(auth, start, before);
    RevokeKeeps(auth, h0, r);
    RevokeFreezes(auth, h0, r);
    var m := h1.store.marker.value;
    FrozenRun(auth, h1, after, m);
    LastIsRevocation(auth, h1);
    forall a: Action | a.DoInitialize? || a.DoReserve? || a.DoRevoke?
      ensures Act(auth, h.store, a).0 == h.store
      ensures a.DoInitialize? || a.DoReserve? ==> Act(auth, h.store, a).1.Refused?
    {
      FrozenStep(auth, h, a, m);
    }
  }

  lemma LastIsRevocation(auth: Authorization, h: History)
    requires auth.Valid() && Inv(auth, h)
    ensures h.store.state.Some? && h.store.events.Some? && h.store.state.value.revocation.Some? ==>
              var es := h.store.events.value;
              es != [] && Announces(es[|es| - 1], |es| - 1, "authorization_revoked")
  {
    if h.store.state.Some? && h.store.events.Some? && h.store.state.value.revocation.Some? {
      var es, rev := h.store.events.value, h.store.state.value.revocation;
      hide EventsMatch;
      EventCount(auth, es, h.charges, h.initAt, rev);
      ChargeCounts(h.charges);
      EntriesAnnounce(auth, es, h.charges, h.initAt, rev, |es| - 1);
    }
  }

  // ---- Retries ----

  /** The content whose digest travels with a reservation. */
  datatype Reservation = Reservation(
    payloadHash: string, id: string, invocation: string, eventType: string, subject: string, delta: Usage)

  function ArgsOf(sha: Reservation -> string, r: Reservation): ReserveArgs {
    ReserveArgs(r.id, sha(r), r.invocation, r.eventType, r.subject, r.delta)
  }

  ghost predicate CollisionFree(sha: Reservation -> string) {
    forall a, b :: sha(a) == sha(b) ==> a == b
  }

  /** In every run each reservation ID was charged at most once since the creation; and once it
      was charged, sending the same content again succeeds without any change for as long as the
      keys survive, the window is open and nobody revoked, however little budget is left. */
  lemma RetryIsChargedOnce(auth: Authorization, start: int, actions: seq<Action>, i: nat)
    requires auth.Valid() && i < |Run(auth, start, actions).charges|
    ensures var h := Run(auth, start, actions);
      var retry := DoReserve(h.charges[i].args);
      && DistinctIds(h.charges)
      && Act(auth, h.store, retry).0 == h.store
      && Step(auth, h, retry) == h
      && (h.store.Intact() && h.store.marker.value.revocation.None? && auth.InWindowMs(h.store.now) ==>
            Act(auth, h.store, retry).1 == Done(h.store.state.value.sequence))
  {
    Reachable(auth, start, actions);
    ReservationsCover(Run(auth, start, actions).charges);
  }

  /** Reusing a charged reservation ID for any other content is refused and changes nothing. */
  lemma ConflictChangesNothing(
    auth: Authorization, start: int, actions: seq<Action>, sha: Reservation -> string,
    first: Reservation, second: Reservation)
    requires auth.Valid() && CollisionFree(sha) && first.id == second.id && first != second
    requires exists i :: 0 <= i < |Run(auth, start, actions).charges|
                         && Run(auth, start, actions).charges[i].args == ArgsOf(sha, first)
    ensures var h := Run(auth, start, actions);
      var (store, reply) := Act(auth, h.store, DoReserve(ArgsOf(sha, second)));
      store == h.store && reply.Refused?
  {
    Reachable(auth, start, actions);
    ReservationsCover(Run(auth, start, actions).charges);
    assert sha(first) != sha(second);
  }
}
