/** The signed checkpoint store: one file per finished case, written to a temporary name,
    linked to its number, and read back when an evaluation resumes. */
module Checkpoint {
  import opened Base
  import opened Decimal
  import opened Signing
  import opened Numbered

  const CHECKPOINT_SCHEMA := "agent-task-eval-checkpoint/v1"
  const MAX_CASES: nat := 999_999

  /** What a checkpoint belongs to. Everything but the generation time is fixed by the caller. */
  datatype Identity = Identity(
    side: string, datasetVersion: string, datasetHash: string, configHash: string, environment: string,
    seed: int, caseTimeoutMs: int, execution: string, totalCases: int, generatedAt: Time)

  predicate ValidIdentity(id: Identity) {
    && (id.side == "candidate" || id.side == "stable") && id.datasetVersion != ""
    && ValidSha256(id.datasetHash) && ValidSha256(id.configHash)
    && 1 <= id.totalCases <= MAX_CASES && id.caseTimeoutMs > 0 && id.generatedAt.instant != ZERO_INSTANT
  }

  datatype Evidence = Evidence(caseId: string, result: string)

  /** A record without its integrity block; this is what gets hashed and signed. */
  datatype Body = Body(
    schema: string, identity: Identity, completed: int, previous: ShaText<Body>, evidence: Evidence)

  datatype Record = Record(body: Body, integrity: Option<Integrity<Body>>)

  /** What a file holds: a whole record, or anything that does not decode. */
  datatype Content = Torn | Whole(record: Record)

  datatype Signer = Signer(key: string, keyId: string)
  {
    predicate Valid() { |key| >= 32 && keyId != "" }
  }

  // ---- Chains of records ----

  function PreviousSha(rs: seq<Record>, i: nat): ShaText<Body>
    requires i <= |rs|
  {
    if i == 0 || rs[i - 1].integrity.None? then NoSha else rs[i - 1].integrity.value.payloadSha
  }

  /** Record number n of a chain for an identity, signed, and following the record before it. */
  predicate VerifiesRecord(g: Signer, id: Identity, r: Record, n: int, previous: ShaText<Body>) {
    && r.body.schema == CHECKPOINT_SCHEMA && r.integrity.Some? && r.integrity.value.keyId == g.keyId
    && VerifiesPayload(g.key, r.body, r.integrity.value)
    && r.body.completed == n && r.body.previous == previous
    && r.body.identity == id && id.generatedAt.instant != ZERO_INSTANT
  }

  ghost predicate Chain(g: Signer, id: Identity, rs: seq<Record>) {
    forall i :: 0 <= i < |rs| ==> VerifiesRecord(g, id, rs[i], i + 1, PreviousSha(rs, i))
  }

  lemma ChainSnoc(g: Signer, id: Identity, rs: seq<Record>, r: Record)
    ensures Chain(g, id, rs + [r]) <==>
            Chain(g, id, rs) && VerifiesRecord(g, id, r, |rs| + 1, PreviousSha(rs, |rs|))
  {
    hide VerifiesRecord;
    var all := rs + [r];
    assert all[|rs|] == r && PreviousSha(all, |rs|) == PreviousSha(rs, |rs|);
    assert forall i :: 0 <= i < |rs| ==> all[i] == rs[i] && PreviousSha(all, i) == PreviousSha(rs, i);
  }

  function EvidenceOf(rs: seq<Record>): (es: seq<Evidence>)
    ensures |es| == |rs|
  {
    seq(|rs|, i requires 0 <= i < |rs| => rs[i].body.evidence)
  }

  /** The identity a chain was written under, as a caller who expects `id` learns it. */
  function Resumed(id: Identity, rs: seq<Record>): Identity {
    if rs == [] then id else id.(generatedAt := rs[0].body.identity.generatedAt)
  }

  // ---- Directories ----

  /** Numbered files, and the names of temporaries and anything else. */
  datatype Directory = Directory(files: map<nat, Content>, others: set<string>)

  ghost predicate Holds(d: Directory, rs: seq<Record>) {
    && d.others == {} && Contiguous(d.files) && |d.files| == |rs|
    && forall i :: 0 <= i < |rs| ==> HoldsAt(d, i + 1, rs[i])
  }

  predicate HoldsAt(d: Directory, n: nat, r: Record) {
    n in d.files && d.files[n] == Whole(r)
  }

  /** A directory from which an evaluation under `id` may resume: nothing but a whole chain. */
  ghost predicate Resumable(g: Signer, id: Identity, d: Directory, rs: seq<Record>) {
    Holds(d, rs) && |rs| <= id.totalCases && Chain(g, Resumed(id, rs), rs)
  }

  lemma HeldOnce(d: Directory, a: seq<Record>, b: seq<Record>)
    requires Holds(d, a) && Holds(d, b)
    ensures a == b
  {
    assert forall i :: 0 <= i < |a| ==> HoldsAt(d, i + 1, a[i]) && HoldsAt(d, i + 1, b[i]);
  }

  // ---- What a verified record says ----

  /** Record number n of a chain, in the terms of its own content: of this configuration, numbered, linked
      to the record before it, and signed over all of that with this store's key. */
  ghost predicate Genuine(g: Signer, id: Identity, rs: seq<Record>, n: nat)
    requires 1 <= n <= |rs|
  {
    var body := rs[n - 1].body;
    && body.schema == "agent-task-eval-checkpoint/v1" && body.identity == id && body.completed == n
    && (n == 1 ==> body.previous == NoSha)
    && (n > 1 ==> rs[n - 2].integrity.Some? && body.previous == rs[n - 2].integrity.value.payloadSha)
    && rs[n - 1].integrity.Some?
    && var i := rs[n - 1].integrity.value;
       && i.keyId == g.keyId && i.payloadSha.ShaOf? && i.payloadSha.payload == body
       && i.signature.MacOf? && i.signature.mac == Mac(g.key, "hmac-sha256", g.keyId, i.signedAt.instant, body)
  }

  lemma ChainIsGenuine(g: Signer, id: Identity, rs: seq<Record>, n: nat)
    requires Chain(g, id, rs) && 1 <= n <= |rs|
    ensures Genuine(g, id, rs, n)
  {
    assert VerifiesRecord(g, id, rs[n - 1], n - 1 + 1, PreviousSha(rs, n - 1));
    if n > 1 {
      assert VerifiesRecord(g, id, rs[n - 2], n - 2 + 1, PreviousSha(rs, n - 2));
    }
    hide Chain;
  }

  /** The files of a resumable directory, and only those, are its genuine records. */
  lemma ResumableIsGenuine(g: Signer, id: Identity, d: Directory, rs: seq<Record>, n: nat)
    requires Resumable(g, id, d, rs)
    ensures n in d.files <==> 1 <= n <= |rs|
    ensures n in d.files ==> d.files[n] == Whole(rs[n - 1]) && Genuine(g, Resumed(id, rs), rs, n)
  {
    hide VerifiesRecord;
    if 1 <= n <= |rs| {
      assert HoldsAt(d, n - 1 + 1, rs[n - 1]);
      ChainIsGenuine(g, Resumed(id, rs), rs, n);
    }
  }

  /** Changing what any file's record says, its evidence above all, while keeping its integrity block
      makes the directory impossible to resume from. */
  lemma ContentIsProtected(g: Signer, id: Identity, d: Directory, rs: seq<Record>, n: nat, body: Body)
    requires Resumable(g, id, d, rs) && 1 <= n <= |rs| && body != rs[n - 1].body
    ensures var forged := d.(files := d.files[n := Whole(rs[n - 1].(body := body))]);
      forall other :: !Resumable(g, id, forged, other)
  {
    hide Resumable;
    ResumableIsGenuine(g, id, d, rs, n);
    var forged := d.(files := d.files[n := Whole(rs[n - 1].(body := body))]);
    forall other ensures !Resumable(g, id, forged, other) {
      if Resumable(g, id, forged, other) {
        ResumableIsGenuine(g, id, forged, other, n);
      }
    }
  }

  // ---- Loading ----

  ghost predicate HoldsPrefix(d: Directory, rs: seq<Record>) {
    forall i :: 0 <= i < |rs| ==> HoldsAt(d, i + 1, rs[i])
  }

  lemma PrefixSnoc(d: Directory, rs: seq<Record>, r: Record)
    requires HoldsPrefix(d, rs) && HoldsAt(d, |rs| + 1, r)
    ensures HoldsPrefix(d, rs + [r])
  {
    var all := rs + [r];
    assert forall i :: 0 <= i < |rs| ==> all[i] == rs[i];
  }

  /** In a resumable directory the file after any scanned prefix verifies against that prefix. */
  lemma NextMustVerify(g: Signer, id: Identity, d: Directory, seen: seq<Record>, rs: seq<Record>)
    requires Resumable(g, id, d, rs) && HoldsPrefix(d, seen) && |seen| < |rs|
    ensures |seen| + 1 in d.files && d.files[|seen| + 1].Whole?
    ensures var r := d.files[|seen| + 1].record;
      VerifiesRecord(g, Resumed(id, seen + [r]), r, |seen| + 1, PreviousSha(seen, |seen|))
  {
    hide VerifiesRecord;
    assert forall i :: 0 <= i < |seen| ==> HoldsAt(d, i + 1, seen[i]) && HoldsAt(d, i + 1, rs[i]);
    assert HoldsAt(d, |seen| + 1, rs[|seen|]);
    assert PreviousSha(rs, |seen|) == PreviousSha(seen, |seen|);
    assert VerifiesRecord(g, Resumed(id, rs), rs[|seen|], |seen| + 1, PreviousSha(rs, |seen|));
  }

  lemma StopIsFinal(g: Signer, id: Identity, d: Directory, seen: seq<Record>)
    requires HoldsPrefix(d, seen) && |seen| < |d.files| && |seen| + 1 in d.files
    requires d.files[|seen| + 1].Whole? ==>
      var r := d.files[|seen| + 1].record;
      !VerifiesRecord(g, Resumed(id, seen + [r]), r, |seen| + 1, PreviousSha(seen, |seen|))
    ensures forall rs :: !Resumable(g, id, d, rs)
  {
    hide VerifiesRecord;
    hide HoldsPrefix;
    forall rs ensures !Resumable(g, id, d, rs) {
      if Resumable(g, id, d, rs) {
        NextMustVerify(g, id, d, seen, rs);
      }
    }
  }

  /** What the scan has established after a prefix. */
  ghost predicate Scanned(
    g: Signer, expected: Identity, d: Directory, rs: seq<Record>,
    identity: Identity, evidence: seq<Evidence>, previous: ShaText<Body>)
  {
    && Chain(g, identity, rs) && HoldsPrefix(d, rs) && identity == Resumed(expected, rs)
    && evidence == EvidenceOf(rs) && previous == PreviousSha(rs, |rs|)
  }

  /** The identity to check the next record against: the first record supplies the generation time. */
  function ChainIdentity(identity: Identity, index: nat, r: Record): Identity {
    if index == 0 then identity.(generatedAt := r.body.identity.generatedAt) else identity
  }

  lemma ScanNothing(g: Signer, expected: Identity, d: Directory)
    ensures Scanned(g, expected, d, [], expected, [], NoSha)
  {
  }

  lemma ScanOne(
    g: Signer, expected: Identity, d: Directory, rs: seq<Record>,
    identity: Identity, evidence: seq<Evidence>, previous: ShaText<Body>, r: Record)
    requires Scanned(g, expected, d, rs, identity, evidence, previous) && HoldsAt(d, |rs| + 1, r)
    ensures ChainIdentity(identity, |rs|, r) == Resumed(expected, rs + [r])
    ensures VerifiesRecord(g, ChainIdentity(identity, |rs|, r), r, |rs| + 1, previous) ==>
      && r.integrity.Some?
      && Scanned(g, expected, d, rs + [r], ChainIdentity(identity, |rs|, r), evidence + [r.body.evidence],
                 r.integrity.value.payloadSha)
  {
    var id := ChainIdentity(identity, |rs|, r);
    if VerifiesRecord(g, id, r, |rs| + 1, previous) {
      hide VerifiesRecord;
      Signed(g, id, r, |rs| + 1, previous);
      ChainSnoc(g, id, rs, r);
      PrefixSnoc(d, rs, r);
      hide Chain;
      hide HoldsPrefix;
      assert EvidenceOf(rs + [r]) == EvidenceOf(rs) + [r.body.evidence];
    }
  }

  lemma ScannedPrefix(
    g: Signer, expected: Identity, d: Directory, rs: seq<Record>,
    identity: Identity, evidence: seq<Evidence>, previous: ShaText<Body>)
    requires Scanned(g, expected, d, rs, identity, evidence, previous)
    ensures HoldsPrefix(d, rs) && previous == PreviousSha(rs, |rs|)
  {
  }

  lemma ScanAll(
    g: Signer, expected: Identity, d: Directory, rs: seq<Record>,
    identity: Identity, evidence: seq<Evidence>, previous: ShaText<Body>)
    requires Scanned(g, expected, d, rs, identity, evidence, previous)
    requires d.others == {} && Contiguous(d.files) && |d.files| == |rs| <= expected.totalCases
    ensures Resumable(g, expected, d, rs)
    ensures forall other :: Resumable(g, expected, d, other) ==> other == rs
    ensures identity == Resumed(expected, rs) && evidence == EvidenceOf(rs) && previous == PreviousSha(rs, |rs|)
  {
    hide Chain;
    hide Contiguous;
    forall other | Resumable(g, expected, d, other) ensures other == rs {
      HeldOnce(d, other, rs);
    }
  }

  /** The numbered files are these records, each genuine, and the evidence is theirs. */
  ghost predicate AllGenuine(g: Signer, id: Identity, d: Directory, evidence: seq<Evidence>, rs: seq<Record>) {
    |rs| == |evidence| && forall n :: 1 <= n <= |rs| ==>
      HoldsAt(d, n, rs[n - 1]) && Genuine(g, id, rs, n) && rs[n - 1].body.evidence == evidence[n - 1]
  }

  lemma ScanGenuine(
    g: Signer, expected: Identity, d: Directory, rs: seq<Record>, identity: Identity, evidence: seq<Evidence>)
    requires Resumable(g, expected, d, rs) && identity == Resumed(expected, rs) && evidence == EvidenceOf(rs)
    ensures |evidence| == |d.files| <= identity.totalCases && AllGenuine(g, identity, d, evidence, rs)
  {
    hide Genuine;
    hide Chain;
    hide Contiguous;
    forall n | 1 <= n <= |rs|
      ensures HoldsAt(d, n, rs[n - 1]) && Genuine(g, identity, rs, n) && rs[n - 1].body.evidence == evidence[n - 1]
    {
      hide Holds;
      ResumableIsGenuine(g, expected, d, rs, n);
    }
    hide HoldsAt;
  }

  datatype Progress = Progress(completed: int, total: int, evidence: Evidence)

  /** The record a store signs for the next case. */
  function BuildRecord(
    g: Signer, id: Identity, completed: int, previous: ShaText<Body>, e: Evidence, at: int): Record
  {
    var body := Body(CHECKPOINT_SCHEMA, id, completed, previous, e);
    Record(body, Some(SignPayload(g.key, g.keyId, at, body)))
  }

  lemma BuildVerifies(
    g: Signer, id: Identity, completed: int, previous: ShaText<Body>, e: Evidence, at: int)
    requires g.Valid() && at != ZERO_INSTANT && id.generatedAt.instant != ZERO_INSTANT
    ensures VerifiesRecord(g, id, BuildRecord(g, id, completed, previous, e, at), completed, previous)
  {
  }

  /** Signed over its own body with this key at this instant. */
  predicate SignedAt(g: Signer, r: Record, at: int) {
    && r.integrity.Some? && r.integrity.value.payloadSha == ShaOf(r.body, 0)
    && r.integrity.value.signedAt == Time(at, 0) && r.integrity.value.keyId == g.keyId
    && r.integrity.value.signature == MacOf(Mac(g.key, "hmac-sha256", g.keyId, at, r.body), 0)
  }

  lemma BuildSigns(g: Signer, id: Identity, n: int, previous: ShaText<Body>, e: Evidence, at: int)
    ensures var r := BuildRecord(g, id, n, previous, e, at);
      && SignedAt(g, r, at) && r.body == Body("agent-task-eval-checkpoint/v1", id, n, previous, e)
      && r.integrity.Some? && r.integrity.value.payloadSha == ShaOf(r.body, 0)
  {
  }

  /** Which system calls of one append fail. */
  datatype Faults = Faults(
    create: bool, write: bool, sync: bool, close: bool, link: bool, remove: bool, cleanup: bool)
  {
    predicate BeforeLink() { write || sync || close || link }
  }

  /** A store's memory and the directory it writes to: numbered files and numbered temporaries. */
  datatype Scene = Scene(
    identity: Identity, evidence: seq<Evidence>, previous: ShaText<Body>,
    files: map<nat, Content>, temps: map<nat, Content>)

  /** Everything an append does, for every combination of failing calls. A numbered file appears only
      whole and never replaces another, exactly when nothing fails up to the link; memory grows only
      with it, exactly when the removal succeeds too; a temporary stays behind exactly when an append
      that created one fails and so does its removal. */
  ghost predicate Appended(
    g: Signer, before: Scene, after: Scene, progress: Progress, at: int, faults: Faults, ok: bool)
  {
    var n := |before.evidence| + 1;
    var record := BuildRecord(g, before.identity, n, before.previous, progress.evidence, at);
    var next := progress.completed == n && progress.total == before.identity.totalCases;
    var begins := next && !faults.create && n !in before.temps;
    var links := begins && !faults.BeforeLink() && n !in before.files;
    && after.identity == before.identity
    && after.files == (if links then before.files[n := Whole(record)] else before.files)
    && (links ==>
          && record.body == Body("agent-task-eval-checkpoint/v1", before.identity, n, before.previous, progress.evidence)
          && SignedAt(g, record, at))
    && (ok <==> links && !faults.remove)
    && after.evidence == (if ok then before.evidence + [progress.evidence] else before.evidence)
    && after.previous == (if ok then ShaOf(record.body, 0) else before.previous)
    && (ok || !begins || !faults.cleanup ==> after.temps == before.temps)
    && (begins && !ok && faults.cleanup ==> after.temps.Keys == before.temps.Keys + {n})
  }

  /** A directory as the append sees it. */
  class Disk {
    var files: map<nat, Content>
    var temps: map<nat, Content>
  }

  class CheckpointStore {
    var signer: Signer
    var identity: Identity
    var evidence: seq<Evidence>
    var previous: ShaText<Body>

    constructor (g: Signer, expected: Identity)
      ensures signer == g && identity == expected && evidence == [] && previous == NoSha
    {
      signer, identity, evidence, previous := g, expected, [], NoSha;
    }

    /** Reads the directory in name order. It succeeds exactly when the directory is nothing but a
        whole chain for this identity, and then the store is where the chain's writer left off. */
    method Load(d: Directory, names: seq<nat>) returns (ok: bool)
      requires SortedListing(names, d.files) && evidence == [] && previous == NoSha
      modifies this
      ensures signer == old(signer)
      ensures ok <==> exists rs :: Resumable(signer, old(identity), d, rs)
      ensures ok ==> forall rs :: Resumable(signer, old(identity), d, rs) ==>
        evidence == EvidenceOf(rs) && previous == PreviousSha(rs, |rs|) && identity == Resumed(old(identity), rs)
      ensures ok ==>
        && |evidence| == |d.files| <= identity.totalCases
        && exists rs :: AllGenuine(signer, identity, d, evidence, rs)
    {
      hide Chain;
      hide VerifiesRecord;
      hide HoldsPrefix;
      hide Contiguous;
      hide EvidenceOf;
      hide ChainIdentity;
      hide Scanned;
      hide AllGenuine;
      ListingSize(names, d.files);
      if d.others != {} || |names| > identity.totalCases {
        return false;
      }
      ghost var g, expected := signer, identity;
      ghost var records: seq<Record> := [];
      ScanNothing(g, expected, d);
      for index := 0 to |names|
        invariant signer == g && |records| == index
        invariant Scanned(g, expected, d, records, identity, evidence, previous)
        invariant forall j :: 0 <= j < index ==> names[j] == j + 1
      {
        ScannedPrefix(g, expected, d, records, identity, evidence, previous);
        if names[index] != index + 1 {
          GapIsFatal(names, d.files, index);
          return false;
        }
        assert names[index] in names;
        var content := d.files[index + 1];
        if content.Torn? {
          StopIsFinal(g, expected, d, records);
          return false;
        }
        var record := content.record;
        var chainId := ChainIdentity(identity, index, record);
        ScanOne(g, expected, d, records, identity, evidence, previous, record);
        if !VerifiesRecord(signer, chainId, record, index + 1, previous) {
          StopIsFinal(g, expected, d, records);
          return false;
        }
        identity := chainId;
        evidence := evidence + [record.body.evidence];
        previous := record.integrity.value.payloadSha;
        records := records + [record];
      }
      AllNamed(names, d.files);
      ScanAll(g, expected, d, records, identity, evidence, previous);
      ScanGenuine(g, expected, d, records, identity, evidence);
      return true;
    }

    ghost function Seen(disk: Disk): Scene
      reads this, disk
    {
      Scene(identity, evidence, previous, disk.files, disk.temps)
    }

    /** Writes the next case: create the temporary exclusively, fill, sync and close it, link it to
        its number, remove it. An error after the temporary exists tries once to remove it. */
    method Append(disk: Disk, progress: Progress, at: int, faults: Faults) returns (ok: bool)
      requires at != ZERO_INSTANT
      modifies this, disk
      ensures signer == old(signer)
      ensures Appended(signer, old(Seen(disk)), Seen(disk), progress, at, faults, ok)
    {
      var n := |evidence| + 1;
      BuildSigns(signer, identity, n, previous, progress.evidence, at);
      hide BuildRecord;
      hide SignedAt;
      if progress.completed != n || progress.total != identity.totalCases {
        return false;
      }
      var record := BuildRecord(signer, identity, n, previous, progress.evidence, at);
      if faults.create || n in disk.temps {
        return false;
      }
      disk.temps := disk.temps[n := Torn];
      if faults.write {
        Discard(disk, n, faults.cleanup);
        return false;
      }
      disk.temps := disk.temps[n := Whole(record)];
      if faults.sync || faults.close {
        Discard(disk, n, faults.cleanup);
        return false;
      }
      if faults.link || n in disk.files {
        Discard(disk, n, faults.cleanup);
        return false;
      }
      disk.files := disk.files[n := disk.temps[n]];
      if faults.remove {
        Discard(disk, n, faults.cleanup);
        return false;
      }
      disk.temps := disk.temps - {n};
      evidence := evidence + [progress.evidence];
      previous := record.integrity.value.payloadSha;
      return true;
    }
  }

  /** The deferred removal, whose own failure is ignored. */
  method Discard(disk: Disk, n: nat, fails: bool)
    modifies disk`temps
    ensures disk.temps == if fails then old(disk.temps) else old(disk.temps) - {n}
  {
    if !fails {
      disk.temps := disk.temps - {n};
    }
  }

  lemma Signed(g: Signer, id: Identity, r: Record, n: int, previous: ShaText<Body>)
    requires VerifiesRecord(g, id, r, n, previous)
    ensures r.integrity.Some?
  {
  }
}
