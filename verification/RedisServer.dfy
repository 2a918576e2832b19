/** The scripts as the server runs them: in place on the three keys. */
module RedisServer {
  import opened Base
  import opened RedisScripts

  class Server {
    var state: Option<StateHash>
    var events: Option<seq<Entry>>
    var marker: Option<Marker>
    var now: int

    function Contents(): Store
      reads this
    {
      Store(state, events, marker, now)
    }

    constructor (now: int)
      ensures Contents() == Store(None, None, None, now)
    {
      state, events, marker := None, None, None;
      this.now := now;
    }

    method CheckMarker(id: Identity) returns (fault: Option<Fault>)
      ensures fault == MarkerFault(marker, id)
    {
      if marker.None? {
        return None;
      }
      var m := marker.value;
      if m.schema != id.schema || m.payloadHash != id.payloadHash || m.keyId != id.keyId || m.expires != id.expires {
        return Some(MarkerMismatch);
      }
      if m.status == Some(Revoked) {
        return Some(AuthorizationRevoked);
      }
      if m.status != Some(Initialized) {
        return Some(MarkerMismatch);
      }
      return None;
    }

    method Initialize(id: Identity) returns (reply: Reply)
      modifies this
      ensures (Contents(), reply) == InitializeScript(id, old(Contents()))
    {
      if now < id.issued || now >= id.expires {
        return Refused(OutsideWindow);
      }
      var fault := CheckMarker(id);
      if fault.Some? {
        return Refused(fault.value);
      }
      if state.Some? {
        if events.None? || marker.None? {
          return Refused(PartialState);
        }
        if state.value.identity != id {
          return Refused(LedgerMismatch);
        }
        if (state.value.status.Some? && state.value.status.value != Initialized) || state.value.revocation.Some? {
          return Refused(StateStatusInvalid);
        }
        if state.value.sequence < 0 || |events.value| != state.value.sequence + 1 {
          return Refused(SequenceMismatch);
        }
        return Done(0);
      }
      if marker.Some? {
        return Refused(StateLost);
      }
      if events.Some? {
        return Refused(OrphanedAudit);
      }
      marker := Some(Marker(id.schema, id.payloadHash, id.keyId, id.expires, Some(Initialized), None));
      state := Some(StateHash(id, Some(Initialized), ZERO, 0, map[], None));
      events := Some([] + [Entry(NextStreamId([], now), InitializedFields(0, now, id.payloadHash))]);
      return Done(1);
    }

    method Reserve(id: Identity, r: ReserveArgs) returns (reply: Reply)
      modifies this
      ensures (Contents(), reply) == ReserveScript(id, old(Contents()), r)
    {
      var fault := CheckMarker(id);
      if fault.Some? {
        return Refused(fault.value);
      }
      if marker.Some? && (state.None? || events.None?) {
        return Refused(StateLost);
      }
      if state.None? || events.None? || marker.None? {
        return Refused(NotInitialized);
      }
      if state.value.identity != id {
        return Refused(LedgerMismatch);
      }
      if (state.value.status.Some? && state.value.status.value != Initialized) || state.value.revocation.Some? {
        return Refused(StateStatusInvalid);
      }
      if now < id.issued || now >= id.expires {
        return Refused(OutsideWindow);
      }
      var sequence := state.value.sequence;
      if sequence < 0 || |events.value| != sequence + 1 {
        return Refused(SequenceMismatch);
      }
      if r.id in state.value.reservations {
        if state.value.reservations[r.id] != r.digest {
          return Refused(ReservationConflict);
        }
        return Done(sequence);
      }
      reply := Charge(id, r, sequence);
    }

    /** The tail of the reserve script: validate the deltas, check the four budgets, then write. */
    method Charge(id: Identity, r: ReserveArgs, sequence: int) returns (reply: Reply)
      requires ReserveKeysFault(id, Contents()).None?
      requires sequence == state.value.sequence
      requires r.id !in state.value.reservations
      modifies this
      ensures (Contents(), reply) == ReserveScript(id, old(Contents()), r)
    {
      var d := r.delta;
      if d.runs < 0 || d.calls < 0 || d.outputs < 0 || d.cost < 0 {
        return Refused(ReservationInvalid);
      }
      if r.eventType != "run_reserved" && r.eventType != "provider_call_reserved" {
        return Refused(EventTypeInvalid);
      }
      if r.eventType == "run_reserved" {
        if d.runs != 1 || d.calls != 0 || d.cost != 0 {
          return Refused(DeltaInvalid);
        }
      } else if d.runs != 0 || d.calls != 1 || d.outputs != 0 {
        return Refused(DeltaInvalid);
      }
      var usage := state.value.usage;
      if usage.runs < 0 || usage.calls < 0 || usage.outputs < 0 || usage.cost < 0 {
        return Refused(UsageInvalid);
      }
      var runs, calls := usage.runs + d.runs, usage.calls + d.calls;
      var outputs, cost := usage.outputs + d.outputs, usage.cost + d.cost;
      if runs > id.limits.runs {
        return Refused(RunsExhausted);
      }
      if calls > id.limits.calls {
        return Refused(CallsExhausted);
      }
      if outputs > id.limits.outputs {
        return Refused(OutputsExhausted);
      }
      if cost > id.limits.cost {
        return Refused(CostExhausted);
      }
      var next := sequence + 1;
      state := Some(state.value.(usage := Usage(runs, calls, outputs, cost), sequence := next,
                                 reservations := state.value.reservations[r.id := r.digest]));
      events := Some(events.value + [Entry(NextStreamId(events.value, now), ReservationFields(next, now, r))]);
      return Done(next);
    }

    method Revoke(id: Identity, r: RevokeArgs) returns (reply: Reply)
      modifies this
      ensures (Contents(), reply) == RevokeScript(id, old(Contents()), r)
    {
      if marker.None? {
        return Refused(NotInitialized);
      }
      if marker.value.schema != id.schema || marker.value.payloadHash != id.payloadHash
         || marker.value.keyId != id.keyId || marker.value.expires != id.expires {
        return Refused(MarkerMismatch);
      }
      if now < id.issued || now >= id.expires {
        return Refused(OutsideWindow);
      }
      if marker.value.status == Some(Revoked) {
        if marker.value.revocation.None? {
          return Refused(RevocationIncomplete);
        }
        return Done(0);
      }
      if marker.value.status != Some(Initialized) {
        return Refused(MarkerStatusInvalid);
      }
      var info := Revocation(now, r.operator, r.reason, r.request);
      if state.None? || events.None? {
        if r.reason != LOSS_REASON {
          return Refused(LossReasonRequired);
        }
        marker := Some(marker.value.(status := Some(Revoked),
                                     revocation := Some(MarkerRevocation(info, MarkerOnly, -1))));
        return Done(1);
      }
      if state.value.identity != id {
        return Refused(LedgerMismatch);
      }
      if (state.value.status.Some? && state.value.status.value != Initialized) || state.value.revocation.Some? {
        return Refused(StateStatusInvalid);
      }
      if state.value.sequence < 0 || |events.value| != state.value.sequence + 1 {
        return Refused(SequenceMismatch);
      }
      var next := state.value.sequence + 1;
      state := Some(state.value.(sequence := next, status := Some(Revoked), revocation := Some(info)));
      marker := Some(marker.value.(status := Some(Revoked),
                                   revocation := Some(MarkerRevocation(info, StreamMode, next))));
      events := Some(events.value + [Entry(NextStreamId(events.value, now),
                                           RevocationFields(next, id.payloadHash, info))]);
      return Done(1);
    }
  }
}
