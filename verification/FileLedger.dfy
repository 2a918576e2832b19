/** The file ledger: signed, hash-chained records in a directory shared by processes. */
module FileLedger {
  import opened Base
  import opened Signing
  import opened Numbered
  import opened RedisScripts

  const RECORD_SCHEMA := "agent-task-live-authorization-ledger/v1"

  /** A record without its integrity block; this is what gets hashed and signed. */
  datatype Payload = Payload(
    schema: string, authorizationId: string, authorizationHash: string, sequence: int, previous: ShaText<Payload>,
    invocation: string, eventType: string, subject: string, delta: Usage, createdAt: Time)

  datatype Record = Record(payload: Payload, integrity: Option<Integrity<Payload>>)

  /** A ledger handle: the authorization and the signing key. */
  datatype Ledger = Ledger(auth: Authorization, key: string, keyId: string)
  {
    predicate Valid() {
      auth.Valid() && |key| >= 32 && keyId != "" && auth.issuedAt > ZERO_INSTANT
    }
  }

  function Sign(g: Ledger, p: Payload): Integrity<Payload> {
    SignPayload(g.key, g.keyId, p.createdAt.instant, p)
  }

  predicate VerifiesRecord(g: Ledger, r: Record, sequence: int, previous: ShaText<Payload>) {
    && r.payload.schema == RECORD_SCHEMA && r.payload.authorizationId == g.auth.id
    && r.payload.authorizationHash == g.auth.payloadHash && r.payload.sequence == sequence
    && r.payload.previous == previous && r.integrity.Some?
    && IsReservationType(r.payload.eventType)
    && r.payload.invocation != "" && r.payload.createdAt.instant != ZERO_INSTANT
    && r.payload.createdAt.instant == r.integrity.value.signedAt.instant
    && g.auth.InWindow(r.payload.createdAt.instant)
    && r.integrity.value.keyId == g.keyId
    && VerifiesPayload(g.key, r.payload, r.integrity.value)
  }

  // ---- Admission ----

  /** The admission test as the machine computes it: the three count sums wrap, only cost is guarded. */
  predicate Admits(l: Limits, u: Usage, d: Usage) {
    && NonNegative(d)
    && Wrap64(u.runs + d.runs) <= l.runs
    && Wrap64(u.calls + d.calls) <= l.calls
    && Wrap64(u.outputs + d.outputs) <= l.outputs
    && d.cost <= MAX_INT64 - u.cost && Wrap64(u.cost + d.cost) <= l.cost
  }

  predicate TypedRequest(r: Request) {
    if r.RunRequest? then IsInt64(r.outputs) else IsInt64(r.cost)
  }

  /** The only amount that can overflow a count: captured outputs within `MaxCapturedOutputs` of 2^63. */
  predicate FitsCounter(l: Limits, r: Request) {
    TypedRequest(r) && (r.RunRequest? ==> r.outputs <= MAX_INT64 - l.outputs)
  }

  /** Exactly which requests the machine admits: those the abstract counter accepts, and those
      run requests whose captured-output sum overflows. */
  lemma AdmitExactly(l: Limits, u: Usage, r: Request)
    requires ValidLimits(l) && Within(u, l) && TypedRequest(r)
    ensures Admits(l, u, Delta(r)) <==>
            Affordable(l, u, r) || (r.RunRequest? && u.outputs + r.outputs > MAX_INT64 && u.runs < l.runs)
    ensures FitsCounter(l, r) ==> (Admits(l, u, Delta(r)) <==> Affordable(l, u, r))
  {
  }

  // ---- Directories ----

  datatype File = Undecodable | Decoded(record: Record)

  /** The numbered files, by number, and the names of anything else. */
  datatype Directory = Directory(files: map<nat, File>, strays: set<string>)

  predicate Decodes(f: File) {
    f.Decoded? && SmallDelta(f.record.payload.delta)
  }

  function PreviousSha(rs: seq<Record>, i: nat): ShaText<Payload>
    requires i <= |rs|
  {
    if i == 0 || rs[i - 1].integrity.None? then NoSha else rs[i - 1].integrity.value.payloadSha
  }

  ghost predicate Chained(g: Ledger, rs: seq<Record>) {
    forall i :: 0 <= i < |rs| ==> VerifiesRecord(g, rs[i], i + 1, PreviousSha(rs, i))
  }

  function RecordUsage(rs: seq<Record>): Usage {
    if rs == [] then ZERO else Plus(RecordUsage(rs[..|rs| - 1]), rs[|rs| - 1].payload.delta)
  }

  ghost predicate NeverOverdrawn(g: Ledger, rs: seq<Record>) {
    forall k :: 0 <= k <= |rs| ==> Within(RecordUsage(rs[..k]), g.auth.limits)
  }

  ghost predicate TypedRecords(rs: seq<Record>) {
    forall i :: 0 <= i < |rs| ==> SmallDelta(rs[i].payload.delta)
  }

  /** A sequence of records that is an honest ledger. */
  ghost predicate HonestLedger(g: Ledger, rs: seq<Record>) {
    TypedRecords(rs) && Chained(g, rs) && NeverOverdrawn(g, rs)
  }

  predicate FileIs(d: Directory, number: nat, r: Record) {
    number in d.files && d.files[number] == Decoded(r)
  }

  ghost predicate StartsWith(d: Directory, rs: seq<Record>) {
    forall i :: 0 <= i < |rs| ==> FileIs(d, i + 1, rs[i])
  }

  ghost predicate Holds(d: Directory, rs: seq<Record>) {
    d.strays == {} && |d.files| == |rs| && Contiguous(d.files) && StartsWith(d, rs)
  }

  datatype LoadResult = Loaded(records: seq<Record>, usage: Usage) | LoadFailed

  /** What loading must return for a directory, stated about the whole directory. */
  ghost predicate LoadsAs(g: Ledger, d: Directory, r: LoadResult) {
    match r
    case Loaded(rs, usage) =>
      Holds(d, rs) && |rs| <= MAX_EVENTS && HonestLedger(g, rs) && usage == RecordUsage(rs)
    case LoadFailed =>
      forall rs :: Holds(d, rs) && |rs| <= MAX_EVENTS ==> !HonestLedger(g, rs)
  }

  // ---- Facts about ledgers as sequences ----

  lemma UsageSnoc(rs: seq<Record>, r: Record)
    ensures RecordUsage(rs + [r]) == Plus(RecordUsage(rs), r.payload.delta)
  {
    assert (rs + [r])[..|rs|] == rs;
  }

  lemma ChainedSnoc(g: Ledger, rs: seq<Record>, r: Record)
    ensures Chained(g, rs + [r]) <==> Chained(g, rs) && VerifiesRecord(g, r, |rs| + 1, PreviousSha(rs, |rs|))
  {
    hide VerifiesRecord;
    var all := rs + [r];
    assert all[|rs|] == r && PreviousSha(all, |rs|) == PreviousSha(rs, |rs|);
    assert forall i :: 0 <= i < |rs| ==> all[i] == rs[i] && PreviousSha(all, i) == PreviousSha(rs, i);
  }

  lemma OverdrawnSnoc(g: Ledger, rs: seq<Record>, r: Record)
    ensures NeverOverdrawn(g, rs + [r]) <==>
            NeverOverdrawn(g, rs) && Within(Plus(RecordUsage(rs), r.payload.delta), g.auth.limits)
  {
    var all := rs + [r];
    UsageSnoc(rs, r);
    assert all[..|all|] == all;
    assert forall k :: 0 <= k <= |rs| ==> all[..k] == rs[..k];
  }

  lemma TypedSnoc(rs: seq<Record>, r: Record)
    ensures TypedRecords(rs + [r]) <==> TypedRecords(rs) && SmallDelta(r.payload.delta)
  {
    hide SmallDelta;
    var all := rs + [r];
    assert all[|rs|] == r;
    assert forall i :: 0 <= i < |rs| ==> all[i] == rs[i];
  }

  /** A ledger stays honest exactly when the next record verifies against the last and is affordable. */
  lemma HonestSnoc(g: Ledger, rs: seq<Record>, r: Record)
    ensures HonestLedger(g, rs + [r]) <==>
            && HonestLedger(g, rs) && SmallDelta(r.payload.delta)
            && VerifiesRecord(g, r, |rs| + 1, PreviousSha(rs, |rs|))
            && Within(Plus(RecordUsage(rs), r.payload.delta), g.auth.limits)
  {
    hide TypedRecords;
    hide Chained;
    hide NeverOverdrawn;
    hide VerifiesRecord;
    TypedSnoc(rs, r);
    ChainedSnoc(g, rs, r);
    OverdrawnSnoc(g, rs, r);
  }

  /** Cutting records off the end of an honest ledger is not detectable. */
  lemma {:induction false} HonestPrefix(g: Ledger, rs: seq<Record>, k: nat)
    requires HonestLedger(g, rs) && k <= |rs|
    ensures HonestLedger(g, rs[..k])
  {
    hide HonestLedger;
    if k == |rs| {
      assert rs[..k] == rs;
    } else {
      var prior := rs[..|rs| - 1];
      assert rs == prior + [rs[|rs| - 1]];
      HonestSnoc(g, prior, rs[|rs| - 1]);
      HonestPrefix(g, prior, k);
      assert prior[..k] == rs[..k];
    }
  }

  lemma HonestWithin(g: Ledger, rs: seq<Record>)
    requires HonestLedger(g, rs)
    ensures Within(RecordUsage(rs), g.auth.limits)
  {
    assert rs[..|rs|] == rs;
  }

  lemma EmptyHonest(g: Ledger)
    requires g.Valid()
    ensures HonestLedger(g, []) && RecordUsage([]) == ZERO
  {
    var none: seq<Record> := [];
    assert none[..0] == none;
  }

  // ---- What a verified record says ----

  /** Record number n of a ledger, in the terms of its own content: written for this authorization inside
      its window, numbered, linked to the record before it, and signed over all of that at the time it
      was made, with this ledger's key. */
  ghost predicate Genuine(g: Ledger, rs: seq<Record>, n: nat)
    requires 1 <= n <= |rs|
  {
    var p := rs[n - 1].payload;
    && p.schema == "agent-task-live-authorization-ledger/v1" && p.authorizationId == g.auth.id
    && p.authorizationHash == g.auth.payloadHash && p.sequence == n && p.invocation != ""
    && (p.eventType == "run_reserved" || p.eventType == "provider_call_reserved")
    && g.auth.issuedAt <= p.createdAt.instant < g.auth.expiresAt
    && (n == 1 ==> p.previous == NoSha)
    && (n > 1 ==> rs[n - 2].integrity.Some? && p.previous == rs[n - 2].integrity.value.payloadSha)
    && rs[n - 1].integrity.Some?
    && var i := rs[n - 1].integrity.value;
       && i.keyId == g.keyId && i.signedAt.instant == p.createdAt.instant
       && i.payloadSha.ShaOf? && i.payloadSha.payload == p
       && i.signature.MacOf? && i.signature.mac == Mac(g.key, "hmac-sha256", g.keyId, p.createdAt.instant, p)
  }

  lemma VerifiedIsGenuine(g: Ledger, rs: seq<Record>, n: nat)
    requires 1 <= n <= |rs| && VerifiesRecord(g, rs[n - 1], n, PreviousSha(rs, n - 1))
    requires n > 1 ==> rs[n - 2].integrity.Some?
    ensures Genuine(g, rs, n)
  {
  }

  /** Every record of an honest ledger is genuine. */
  lemma HonestIsGenuine(g: Ledger, rs: seq<Record>, n: nat)
    requires HonestLedger(g, rs) && 1 <= n <= |rs|
    ensures Genuine(g, rs, n)
  {
    assert VerifiesRecord(g, rs[n - 1], n - 1 + 1, PreviousSha(rs, n - 1));
    if n > 1 {
      assert VerifiesRecord(g, rs[n - 2], n - 2 + 1, PreviousSha(rs, n - 2));
    }
    hide HonestLedger;
    VerifiedIsGenuine(g, rs, n);
  }
}
