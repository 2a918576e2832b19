/** What the hash chain protects: given the final record, every earlier record's content. */
module FileEvidence {
  import opened Base
  import opened Signing
  import opened RedisScripts
  import opened FileLedger

  /** Two records that differ at most in how the signature's hex letters are cased and in the
      zone in which the signing time is written. */
  ghost predicate SameButSpelling(x: Record, y: Record) {
    && x.payload == y.payload && x.integrity.Some? && y.integrity.Some?
    && var i, j := x.integrity.value, y.integrity.value;
       && i.algorithm == j.algorithm && i.keyId == j.keyId && i.payloadSha == j.payloadSha
       && i.signedAt.instant == j.signedAt.instant
       && i.signature.MacOf? && j.signature.MacOf? && i.signature.mac == j.signature.mac
  }

  lemma VerifiedSame(g: Ledger, x: Record, y: Record, sequence: int, previous: ShaText<Payload>)
    requires VerifiesRecord(g, x, sequence, previous)
    requires y.integrity.Some? && y.integrity.value.payloadSha == x.integrity.value.payloadSha
    ensures VerifiesRecord(g, y, sequence, previous) <==> SameButSpelling(x, y)
  {
  }

  /** Working backwards from the shared final record. */
  lemma {:induction false} ChainFixes(g: Ledger, a: seq<Record>, b: seq<Record>, k: nat)
    requires Chained(g, a) && Chained(g, b) && |a| == |b| && k < |a|
    requires a[|a| - 1] == b[|b| - 1]
    ensures SameButSpelling(a[k], b[k])
    decreases |a| - k
  {
    hide SameButSpelling;
    hide VerifiesRecord;
    Linked(g, a, k);
    Linked(g, b, k);
    if k < |a| - 1 {
      ChainFixes(g, a, b, k + 1);
      Linked(g, a, k + 1);
      Linked(g, b, k + 1);
      SamePayload(a[k + 1], b[k + 1]);
    }
    SharedShaSame(g, a[k], b[k], k + 1, PreviousSha(a, k), PreviousSha(b, k));
  }

  lemma Linked(g: Ledger, rs: seq<Record>, k: nat)
    requires Chained(g, rs) && k < |rs|
    ensures VerifiesRecord(g, rs[k], k + 1, PreviousSha(rs, k))
    ensures rs[k].integrity.Some? && rs[k].payload.previous == PreviousSha(rs, k)
    ensures k > 0 ==> rs[k - 1].integrity.Some?
  {
    assert k > 0 ==> VerifiesRecord(g, rs[k - 1], k - 1 + 1, PreviousSha(rs, k - 1));
  }

  lemma SamePayload(x: Record, y: Record)
    requires SameButSpelling(x, y)
    ensures x.payload == y.payload
  {
  }

  lemma SharedShaSame(g: Ledger, x: Record, y: Record, sequence: int, px: ShaText<Payload>, py: ShaText<Payload>)
    requires VerifiesRecord(g, x, sequence, px) && VerifiesRecord(g, y, sequence, py)
    requires x.integrity.value.payloadSha == y.integrity.value.payloadSha
    ensures SameButSpelling(x, y)
  {
  }

  lemma {:induction false} SpellingKeepsUsage(a: seq<Record>, b: seq<Record>)
    requires |a| == |b| && forall i :: 0 <= i < |a| ==> a[i].payload == b[i].payload
    ensures RecordUsage(a) == RecordUsage(b)
  {
    if a != [] {
      SpellingKeepsUsage(a[..|a| - 1], b[..|b| - 1]);
    }
  }

  lemma SpellingKeepsHonest(g: Ledger, a: seq<Record>, b: seq<Record>)
    requires HonestLedger(g, a) && |a| == |b| && forall i :: 0 <= i < |a| ==> SameButSpelling(a[i], b[i])
    ensures HonestLedger(g, b) && RecordUsage(b) == RecordUsage(a)
  {
    hide HonestLedger;
    hide SameButSpelling;
    SpellingKeepsChain(g, a, b);
    SpellingKeepsRest(g, a, b);
    HonestIf(g, b);
  }

  lemma HonestIf(g: Ledger, rs: seq<Record>)
    requires TypedRecords(rs) && Chained(g, rs) && NeverOverdrawn(g, rs)
    ensures HonestLedger(g, rs)
  {
    hide TypedRecords;
    hide Chained;
    hide NeverOverdrawn;
  }

  lemma HonestOnly(g: Ledger, rs: seq<Record>)
    requires HonestLedger(g, rs)
    ensures TypedRecords(rs) && Chained(g, rs) && NeverOverdrawn(g, rs)
  {
    hide TypedRecords;
    hide Chained;
    hide NeverOverdrawn;
  }

  lemma SameSha(x: Record, y: Record)
    requires SameButSpelling(x, y)
    ensures x.integrity.Some? && y.integrity.Some? && x.integrity.value.payloadSha == y.integrity.value.payloadSha
  {
  }

  lemma SpellingKeepsChain(g: Ledger, a: seq<Record>, b: seq<Record>)
    requires HonestLedger(g, a) && |a| == |b| && forall i :: 0 <= i < |a| ==> SameButSpelling(a[i], b[i])
    ensures Chained(g, b)
  {
    hide HonestLedger;
    hide VerifiesRecord;
    hide SameButSpelling;
    HonestOnly(g, a);
    forall i | 0 <= i < |b| ensures VerifiesRecord(g, b[i], i + 1, PreviousSha(b, i)) {
      SameSha(a[i], b[i]);
      if i > 0 {
        SameSha(a[i - 1], b[i - 1]);
      }
      assert PreviousSha(b, i) == PreviousSha(a, i);
      VerifiedSame(g, a[i], b[i], i + 1, PreviousSha(a, i));
    }
  }

  lemma SpellingKeepsRest(g: Ledger, a: seq<Record>, b: seq<Record>)
    requires HonestLedger(g, a) && |a| == |b| && forall i :: 0 <= i < |a| ==> SameButSpelling(a[i], b[i])
    ensures TypedRecords(b) && NeverOverdrawn(g, b) && RecordUsage(b) == RecordUsage(a)
  {
    hide HonestLedger;
    HonestOnly(g, a);
    forall i | 0 <= i < |a| ensures a[i].payload == b[i].payload {
      SamePayload(a[i], b[i]);
    }
    hide SameButSpelling;
    hide Chained;
    hide RecordUsage;
    hide Within;
    forall k | 0 <= k <= |b| ensures RecordUsage(b[..k]) == RecordUsage(a[..k]) {
      SpellingKeepsUsage(a[..k], b[..k]);
    }
    assert a[..|a|] == a && b[..|b|] == b;
  }

  /** Keep an honest ledger's final record and replace the rest at will: the result is accepted
      exactly when nothing was dropped, added or moved and every record is the same up to spelling
      (and then it reports the same usage). So altering, reordering or dropping an earlier record fails. */
  lemma TamperingShows(g: Ledger, a: seq<Record>, b: seq<Record>)
    requires HonestLedger(g, a) && a != [] && b != [] && a[|a| - 1] == b[|b| - 1]
    ensures HonestLedger(g, b) <==> |a| == |b| && forall i :: 0 <= i < |a| ==> SameButSpelling(a[i], b[i])
    ensures HonestLedger(g, b) ==> RecordUsage(b) == RecordUsage(a)
  {
    hide SameButSpelling;
    hide VerifiesPayload;
    if HonestLedger(g, b) {
      assert VerifiesRecord(g, a[|a| - 1], |a| - 1 + 1, PreviousSha(a, |a| - 1));
      assert VerifiesRecord(g, b[|b| - 1], |b| - 1 + 1, PreviousSha(b, |b| - 1));
      forall i | 0 <= i < |a| ensures SameButSpelling(a[i], b[i]) {
        ChainFixes(g, a, b, i);
      }
    }
    if |a| == |b| && forall i :: 0 <= i < |a| ==> SameButSpelling(a[i], b[i]) {
      SpellingKeepsHonest(g, a, b);
    }
  }

  function Respell(r: Record): Record
    requires r.integrity.Some? && r.integrity.value.signature.MacOf?
  {
    var i := r.integrity.value;
    r.(integrity := Some(i.(signature := i.signature.(letterCase := i.signature.letterCase + 1))))
  }

  /** Byte-for-byte tamper evidence does fail: recasing any record's signature yields a different
      directory that is accepted all the same. */
  lemma SpellingIsNotProtected(g: Ledger, a: seq<Record>, k: nat)
    requires HonestLedger(g, a) && k < |a|
    ensures a[k].integrity.Some? && a[k].integrity.value.signature.MacOf?
    ensures var b := a[k := Respell(a[k])]; b != a && HonestLedger(g, b)
  {
    assert VerifiesRecord(g, a[k], k + 1, PreviousSha(a, k));
    var b := a[k := Respell(a[k])];
    assert b[k] != a[k];
    forall i | 0 <= i < |a| ensures SameButSpelling(a[i], b[i]) {
      assert VerifiesRecord(g, a[i], i + 1, PreviousSha(a, i));
    }
    SpellingKeepsHonest(g, a, b);
  }

  /** Changing what any record says while keeping its integrity block is refused. */
  lemma ContentIsProtected(g: Ledger, a: seq<Record>, k: nat, p: Payload)
    requires HonestLedger(g, a) && k < |a| && p != a[k].payload
    ensures !HonestLedger(g, a[k := a[k].(payload := p)])
  {
    hide HonestLedger;
    var b := a[k := a[k].(payload := p)];
    HonestIsGenuine(g, a, k + 1);
    if HonestLedger(g, b) {
      HonestIsGenuine(g, b, k + 1);
    }
  }
}
