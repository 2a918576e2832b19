/** The shared Redis ledger: its three keys and the atomic scripts that change them.
    Each script is a function from the store before to the store after and the reply. */
module RedisScripts {
  import opened Base
  import opened Decimal

  const LEDGER_SCHEMA := "agent-task-live-authorization-redis-ledger/v1"
  const NANOS_PER_MILLI := 1_000_000

  /** The signed authorization, as far as the ledgers read it. Times are nanoseconds. */
  datatype Authorization = Authorization(
    id: string, payloadHash: string, keyId: string, issuedAt: int, expiresAt: int, limits: Limits)
  {
    function IssuedMs(): int { issuedAt / NANOS_PER_MILLI }

    function ExpiresMs(): int { expiresAt / NANOS_PER_MILLI }

    predicate InWindowMs(now: int) { IssuedMs() <= now < ExpiresMs() }

    predicate InWindow(now: int) { issuedAt <= now < expiresAt }

    predicate Valid() {
      ValidLimits(limits) && issuedAt < expiresAt && IsInt64(IssuedMs()) && IsInt64(ExpiresMs())
    }
  }

  /** The nine identity arguments every script receives. */
  datatype Identity = Identity(
    schema: string, payloadHash: string, keyId: string, issued: int, expires: int, limits: Limits)

  function IdentityOf(auth: Authorization): Identity {
    Identity(LEDGER_SCHEMA, auth.payloadHash, auth.keyId, auth.IssuedMs(), auth.ExpiresMs(), auth.limits)
  }

  // ---- The three keys ----

  datatype Status = Initialized | Revoked | OtherStatus(text: string)
  datatype AuditMode = StreamMode | MarkerOnly

  datatype Revocation = Revocation(at: int, operator: string, reason: string, request: string)

  /** The state hash. A missing counter reads as -1; `status` is missing in older hashes. */
  datatype StateHash = StateHash(
    identity: Identity, status: Option<Status>, usage: Usage, sequence: int,
    reservations: map<string, string>, revocation: Option<Revocation>)

  datatype MarkerRevocation = MarkerRevocation(info: Revocation, mode: AuditMode, sequence: int)

  /** The marker hash, which never expires. */
  datatype Marker = Marker(
    schema: string, payloadHash: string, keyId: string, expires: int,
    status: Option<Status>, revocation: Option<MarkerRevocation>)

  datatype StreamId = StreamId(ms: int, seqNo: int)
  {
    predicate Before(other: StreamId) {
      ms < other.ms || (ms == other.ms && seqNo < other.seqNo)
    }
  }

  /** Names of stream entry fields. The 14 the ledger writes, and any other. */
  datatype Field =
    | FSequence | FEventType | FCreatedAt | FPayloadHash | FInvocation | FSubject
    | FRuns | FCalls | FOutputs | FCost | FReservation | FOperator | FReason | FRequest
    | FOther(name: string)

  type Fields = map<Field, string>

  /** A stream entry: its ID and its raw text fields. */
  datatype Entry = Entry(id: StreamId, fields: Fields)

  datatype Store = Store(
    state: Option<StateHash>, events: Option<seq<Entry>>, marker: Option<Marker>, now: int)
  {
    predicate Intact() { state.Some? && events.Some? && marker.Some? }

    predicate Blank() { state.None? && events.None? && marker.None? }
  }

  datatype Fault =
    | OutsideWindow | MarkerMismatch | AuthorizationRevoked | PartialState | LedgerMismatch
    | StateStatusInvalid | SequenceMismatch | StateLost | OrphanedAudit | NotInitialized
    | ReservationConflict | ReservationInvalid | EventTypeInvalid | DeltaInvalid | UsageInvalid
    | RunsExhausted | CallsExhausted | OutputsExhausted | CostExhausted
    | RevocationIncomplete | MarkerStatusInvalid | LossReasonRequired | RevocationInconsistent

  datatype Reply = Done(value: int) | Refused(fault: Fault)

  // ---- Stream fields ----

  function InitializedFields(sequence: int, at: int, payloadHash: string): Fields {
    map[FSequence := Itoa(sequence), FEventType := "initialized",
        FCreatedAt := Itoa(at), FPayloadHash := payloadHash]
  }

  function ReservationFields(sequence: int, at: int, r: ReserveArgs): Fields {
    map[FSequence := Itoa(sequence), FEventType := r.eventType, FCreatedAt := Itoa(at),
        FInvocation := r.invocation, FSubject := r.subject,
        FRuns := Itoa(r.delta.runs), FCalls := Itoa(r.delta.calls),
        FOutputs := Itoa(r.delta.outputs), FCost := Itoa(r.delta.cost),
        FReservation := r.digest]
  }

  function RevocationFields(sequence: int, payloadHash: string, r: Revocation): Fields {
    map[FSequence := Itoa(sequence), FEventType := "authorization_revoked",
        FCreatedAt := Itoa(r.at), FPayloadHash := payloadHash,
        FOperator := r.operator, FReason := r.reason, FRequest := r.request]
  }

  function FieldInt(fields: Fields, name: Field): Option<int> {
    if name in fields then ParseInt64(fields[name]) else None
  }

  predicate IsReservationType(eventType: string) {
    eventType == "run_reserved" || eventType == "provider_call_reserved"
  }

  /** The usage an entry's own text says it reserved; anything but a legible reservation says zero. */
  function EntryDelta(e: Entry): Usage {
    if FEventType !in e.fields || !IsReservationType(e.fields[FEventType]) then ZERO
    else
      var runs := FieldInt(e.fields, FRuns);
      var calls := FieldInt(e.fields, FCalls);
      var outputs := FieldInt(e.fields, FOutputs);
      var cost := FieldInt(e.fields, FCost);
      if runs.None? || calls.None? || outputs.None? || cost.None? then ZERO
      else Usage(runs.value, calls.value, outputs.value, cost.value)
  }

  /** The sum of what the entries say they reserved. */
  function StreamUsage(es: seq<Entry>): Usage {
    if es == [] then ZERO else Plus(StreamUsage(es[..|es| - 1]), EntryDelta(es[|es| - 1]))
  }

  lemma StreamUsageSnoc(es: seq<Entry>, e: Entry)
    ensures StreamUsage(es + [e]) == Plus(StreamUsage(es), EntryDelta(e))
  {
    assert (es + [e])[..|es|] == es;
  }

  predicate SmallDelta(d: Usage) {
    IsInt64(d.runs) && IsInt64(d.calls) && IsInt64(d.outputs) && IsInt64(d.cost)
  }

  lemma FieldParses(f: Fields, name: Field, n: int)
    requires name in f && f[name] == Itoa(n) && IsInt64(n)
    ensures FieldInt(f, name) == Some(n)
  {
    ParseItoa(n);
  }

  /** A reservation's fields parse back to exactly what was reserved. */
  lemma ReservationFieldsParse(sequence: int, at: int, r: ReserveArgs)
    requires SmallDelta(r.delta)
    ensures var f := ReservationFields(sequence, at, r);
      && FieldInt(f, FRuns) == Some(r.delta.runs) && FieldInt(f, FCalls) == Some(r.delta.calls)
      && FieldInt(f, FOutputs) == Some(r.delta.outputs)
      && FieldInt(f, FCost) == Some(r.delta.cost)
      && (IsInt64(sequence) ==> FieldInt(f, FSequence) == Some(sequence))
      && (IsInt64(at) ==> FieldInt(f, FCreatedAt) == Some(at))
  {
    var f := ReservationFields(sequence, at, r);
    FieldParses(f, FRuns, r.delta.runs);
    FieldParses(f, FCalls, r.delta.calls);
    FieldParses(f, FOutputs, r.delta.outputs);
    FieldParses(f, FCost, r.delta.cost);
    if IsInt64(sequence) { FieldParses(f, FSequence, sequence); }
    if IsInt64(at) { FieldParses(f, FCreatedAt, at); }
  }

  /** The ID that XADD with '*' assigns: the clock, unless the stream's last ID is not behind it. */
  function NextStreamId(events: seq<Entry>, now: int): (id: StreamId)
    ensures events != [] ==> events[|events| - 1].id.Before(id)
  {
    if events == [] || events[|events| - 1].id.ms < now then StreamId(now, 0)
    else StreamId(events[|events| - 1].id.ms, events[|events| - 1].id.seqNo + 1)
  }

  ghost predicate Increasing(es: seq<Entry>) {
    forall i, j :: 0 <= i < j < |es| ==> es[i].id.Before(es[j].id)
  }

  function Append(events: seq<Entry>, now: int, fields: Fields): seq<Entry> {
    events + [Entry(NextStreamId(events, now), fields)]
  }

  // ---- Checks the scripts share ----

  predicate MarkerNames(m: Marker, id: Identity) {
    m.schema == id.schema && m.payloadHash == id.payloadHash && m.keyId == id.keyId && m.expires == id.expires
  }

  /** What initialize and reserve find wrong with an existing marker. */
  function MarkerFault(marker: Option<Marker>, id: Identity): Option<Fault> {
    if marker.None? then None
    else if !MarkerNames(marker.value, id) then Some(MarkerMismatch)
    else if marker.value.status == Some(Revoked) then Some(AuthorizationRevoked)
    else if marker.value.status != Some(Initialized) then Some(MarkerMismatch)
    else None
  }

  /** What the scripts find wrong with the state hash before they trust its counters. */
  function StateFault(st: StateHash, id: Identity): Option<Fault> {
    if st.identity != id then Some(LedgerMismatch)
    else if (st.status.Some? && st.status != Some(Initialized)) || st.revocation.Some? then Some(StateStatusInvalid)
    else None
  }

  predicate InWindow(id: Identity, now: int) {
    id.issued <= now < id.expires
  }

  // ---- Initialize ----

  function FreshMarker(id: Identity): Marker {
    Marker(id.schema, id.payloadHash, id.keyId, id.expires, Some(Initialized), None)
  }

  function FreshState(id: Identity): StateHash {
    StateHash(id, Some(Initialized), ZERO, 0, map[], None)
  }

  function FreshEvents(id: Identity, now: int): seq<Entry> {
    Append([], now, InitializedFields(0, now, id.payloadHash))
  }

  function InitializeFault(id: Identity, s: Store): Option<Fault> {
    if !InWindow(id, s.now) then Some(OutsideWindow)
    else if MarkerFault(s.marker, id).Some? then MarkerFault(s.marker, id)
    else if s.state.Some? then
      if s.events.None? || s.marker.None? then Some(PartialState)
      else if StateFault(s.state.value, id).Some? then StateFault(s.state.value, id)
      else if s.state.value.sequence < 0 || |s.events.value| != s.state.value.sequence + 1 then Some(SequenceMismatch)
      else None
    else if s.marker.Some? then Some(StateLost)
    else if s.events.Some? then Some(OrphanedAudit)
    else None
  }

  function InitializeScript(id: Identity, s: Store): (Store, Reply) {
    var fault := InitializeFault(id, s);
    if fault.Some? then (s, Refused(fault.value))
    else if s.state.Some? then (s, Done(0))
    else (Store(Some(FreshState(id)), Some(FreshEvents(id, s.now)), Some(FreshMarker(id)), s.now), Done(1))
  }

  // ---- Reserve ----

  /** The reservation arguments: the ID, the digest of its whole content, and the content. */
  datatype ReserveArgs = ReserveArgs(
    id: string, digest: string, invocation: string, eventType: string, subject: string, delta: Usage)

  function ReserveKeysFault(id: Identity, s: Store): Option<Fault> {
    if MarkerFault(s.marker, id).Some? then MarkerFault(s.marker, id)
    else if s.marker.Some? && (s.state.None? || s.events.None?) then Some(StateLost)
    else if !s.Intact() then Some(NotInitialized)
    else if StateFault(s.state.value, id).Some? then StateFault(s.state.value, id)
    else if !InWindow(id, s.now) then Some(OutsideWindow)
    else if s.state.value.sequence < 0 || |s.events.value| != s.state.value.sequence + 1 then Some(SequenceMismatch)
    else None
  }

  function DeltaFault(r: ReserveArgs): Option<Fault> {
    if !NonNegative(r.delta) then Some(ReservationInvalid)
    else if r.eventType != "run_reserved" && r.eventType != "provider_call_reserved" then Some(EventTypeInvalid)
    else if !ReservationShape(r.eventType, r.delta) then Some(DeltaInvalid)
    else None
  }

  function BudgetFault(usage: Usage, d: Usage, l: Limits): Option<Fault> {
    if !NonNegative(usage) then Some(UsageInvalid)
    else if usage.runs + d.runs > l.runs then Some(RunsExhausted)
    else if usage.calls + d.calls > l.calls then Some(CallsExhausted)
    else if usage.outputs + d.outputs > l.outputs then Some(OutputsExhausted)
    else if usage.cost + d.cost > l.cost then Some(CostExhausted)
    else None
  }

  function ReserveScript(id: Identity, s: Store, r: ReserveArgs): (Store, Reply) {
    var keys := ReserveKeysFault(id, s);
    if keys.Some? then (s, Refused(keys.value))
    else
      var st := s.state.value;
      if r.id in st.reservations then
        if st.reservations[r.id] != r.digest then (s, Refused(ReservationConflict)) else (s, Done(st.sequence))
      else if DeltaFault(r).Some? then (s, Refused(DeltaFault(r).value))
      else if BudgetFault(st.usage, r.delta, id.limits).Some? then
        (s, Refused(BudgetFault(st.usage, r.delta, id.limits).value))
      else
        var next := st.sequence + 1;
        var st' := st.(usage := Plus(st.usage, r.delta), sequence := next,
                       reservations := st.reservations[r.id := r.digest]);
        (s.(state := Some(st'),
            events := Some(Append(s.events.value, s.now, ReservationFields(next, s.now, r)))), Done(next))
  }

  // ---- Revoke ----

  datatype RevokeArgs = RevokeArgs(operator: string, reason: string, request: string)

  const LOSS_REASON := "state_integrity_incident"

  function RevokeMarkerFault(id: Identity, s: Store): Option<Fault> {
    if s.marker.None? then Some(NotInitialized)
    else if !MarkerNames(s.marker.value, id) then Some(MarkerMismatch)
    else if !InWindow(id, s.now) then Some(OutsideWindow)
    else None
  }

  function RevokeMarker(m: Marker, info: Revocation, mode: AuditMode, sequence: int): Marker {
    m.(status := Some(Revoked), revocation := Some(MarkerRevocation(info, mode, sequence)))
  }

  function RevokeScript(id: Identity, s: Store, r: RevokeArgs): (Store, Reply) {
    var early := RevokeMarkerFault(id, s);
    if early.Some? then (s, Refused(early.value))
    else
      var m := s.marker.value;
      var info := Revocation(s.now, r.operator, r.reason, r.request);
      if m.status == Some(Revoked) then
        if m.revocation.None? then (s, Refused(RevocationIncomplete)) else (s, Done(0))
      else if m.status != Some(Initialized) then (s, Refused(MarkerStatusInvalid))
      else if s.state.None? || s.events.None? then
        if r.reason != LOSS_REASON then (s, Refused(LossReasonRequired))
        else (s.(marker := Some(RevokeMarker(m, info, MarkerOnly, -1))), Done(1))
      else
        var st := s.state.value;
        if StateFault(st, id).Some? then (s, Refused(StateFault(st, id).value))
        else if st.sequence < 0 || |s.events.value| != st.sequence + 1 then (s, Refused(SequenceMismatch))
        else
          var next := st.sequence + 1;
          (Store(
            Some(st.(sequence := next, status := Some(Revoked), revocation := Some(info))),
            Some(Append(s.events.value, s.now, RevocationFields(next, id.payloadHash, info))),
            Some(RevokeMarker(m, info, StreamMode, next)), s.now), Done(1))
  }

  // ---- Inspect ----

  /** What the inspect script captures atomically. `intact` is false after a marker-only revocation. */
  datatype Snapshot = Snapshot(
    status: Status, intact: bool, usage: Usage, sequence: int, eventCount: int,
    lastId: StreamId, revocation: Option<MarkerRevocation>)

  datatype InspectReply = Inspected(snapshot: Snapshot) | InspectRefused(fault: Fault)

  function InspectScript(id: Identity, s: Store): InspectReply {
    if s.marker.None? then InspectRefused(NotInitialized)
    else if !MarkerNames(s.marker.value, id) then InspectRefused(MarkerMismatch)
    else
      var m := s.marker.value;
      if m.status != Some(Initialized) && m.status != Some(Revoked) then InspectRefused(MarkerStatusInvalid)
      else
        var revoked := m.status == Some(Revoked);
        if s.state.None? || s.events.None? then
          if !revoked || m.revocation.None? || m.revocation.value.mode != MarkerOnly then InspectRefused(StateLost)
          else Inspected(Snapshot(Revoked, false, Usage(-1, -1, -1, -1), -1, -1, StreamId(0, 0), m.revocation))
        else
          var st := s.state.value;
          if st.identity != id then InspectRefused(LedgerMismatch)
          else if !revoked && StateFault(st, id).Some? then InspectRefused(StateStatusInvalid)
          else if st.sequence < 0 || |s.events.value| != st.sequence + 1 then InspectRefused(SequenceMismatch)
          else if !NonNegative(st.usage) then InspectRefused(UsageInvalid)
          else if revoked && !(m.revocation.Some? && m.revocation.value.mode == StreamMode
                               && st.status == Some(Revoked) && st.revocation.Some?
                               && st.revocation.value.request == m.revocation.value.info.request
                               && m.revocation.value.sequence == st.sequence)
          then InspectRefused(RevocationInconsistent)
          else Inspected(Snapshot(m.status.value, true, st.usage, st.sequence, |s.events.value|,
                                  s.events.value[|s.events.value| - 1].id,
                                  if revoked then m.revocation else None))
  }
}
