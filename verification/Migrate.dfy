/** Moving each user's legacy memory collection into one shared collection, and checking the result. */
module Migrate {
  import opened Base
  import opened Decimal

  const SHARED_SCHEMA := "shared_user_payload_v1"

  datatype Payload = Payload(
    user: Option<string>, schema: Option<string>, migratedFrom: Option<nat>, migratedAt: Option<int>, rest: string)

  datatype Point = Point(id: string, vector: seq<real>, payload: Payload)

  predicate Blank(id: string) {
    forall i :: 0 <= i < |id| ==> id[i] == ' '
  }

  /** Points without an ID or a vector are skipped. */
  predicate Movable(p: Point) {
    !Blank(p.id) && p.vector != []
  }

  /** When each user's point with a given ID is moved. */
  type Clock = (nat, string) -> int

  /** The point written to the shared collection: same ID and vector, payload rebound to the user. */
  function Rebound(p: Point, user: nat, now: Clock): Point {
    p.(payload := p.payload.(user := Some(Digits(user)), schema := Some(SHARED_SCHEMA),
                             migratedFrom := Some(user), migratedAt := Some(now(user, p.id))))
  }

  // ---- Collections and scrolling ----

  /** What the server guarantees of a stored collection: IDs are unique and not empty. */
  ghost predicate Stored(points: seq<Point>) {
    && (forall i :: 0 <= i < |points| ==> points[i].id != "")
    && (forall i, j :: 0 <= i < j < |points| ==> points[i].id != points[j].id)
  }

  function IndexOf(points: seq<Point>, id: string): (k: nat)
    ensures k <= |points| && (k < |points| ==> points[k].id == id)
    ensures forall i :: 0 <= i < k ==> points[i].id != id
  {
    if points == [] || points[0].id == id then 0 else IndexOf(points[1..], id) + 1
  }

  datatype Page = Page(points: seq<Point>, next: Option<string>)

  /** One scroll request: up to `limit` points from the offset on, and where to go on. */
  function Scroll(points: seq<Point>, limit: nat, offset: Option<string>): Page {
    var start := if offset.None? then 0 else IndexOf(points, offset.value);
    var end := if start + limit < |points| then start + limit else |points|;
    Page(points[start..end], if end < |points| then Some(points[end].id) else None)
  }

  /** Scrolling from the k-th point. */
  lemma ScrollFrom(points: seq<Point>, limit: nat, offset: Option<string>, k: nat)
    requires Stored(points) && limit > 0 && (if k == 0 then offset.None? else k < |points| && offset == Some(points[k].id))
    ensures var page := Scroll(points, limit, offset);
      var end := k + |page.points|;
      && end <= |points| && page.points == points[k..end]
      && (page.points == [] ==> points == [])
      && (page.next.None? <==> end == |points|)
      && (page.next.Some? ==> page.next.value == points[end].id != "" && page.next != offset)
  {
  }

  /** Scans a collection page by page. Every point is visited exactly once, in order. */
  method ScanCollection(points: seq<Point>, batchSize: nat) returns (visited: seq<Point>, count: nat)
    requires Stored(points) && batchSize > 0
    ensures visited == points && count == |points|
  {
    hide Scroll;
    visited, count := [], 0;
    var offset: Option<string> := None;
    ghost var k := 0;
    while true
      invariant k <= |points| && visited == points[..k] && count == k
      invariant if k == 0 then offset.None? else k < |points| && offset == Some(points[k].id)
      decreases |points| - k
    {
      var page := Scroll(points, batchSize, offset);
      ScrollFrom(points, batchSize, offset, k);
      visited, count := visited + page.points, count + |page.points|;
      k := k + |page.points|;
      if page.points == [] || page.next.None? || page.next.value == "" || page.next == offset {
        return;
      }
      offset := page.next;
    }
  }

  // ---- A collection as a map ----

  ghost function ById(points: seq<Point>): map<string, Point> {
    if points == [] then map[]
    else ById(points[..|points| - 1])[points[|points| - 1].id := points[|points| - 1]]
  }

  lemma {:induction false} ByIdExactly(points: seq<Point>)
    requires Stored(points)
    ensures forall i :: 0 <= i < |points| ==> points[i].id in ById(points) && ById(points)[points[i].id] == points[i]
    ensures forall id :: id in ById(points) ==> exists i :: 0 <= i < |points| && points[i].id == id && ById(points)[id] == points[i]
  {
    if points != [] {
      ByIdExactly(points[..|points| - 1]);
    }
  }

  /** Insert or replace by ID. */
  function Upsert(points: seq<Point>, p: Point): seq<Point> {
    var k := IndexOf(points, p.id);
    if k < |points| then points[k := p] else points + [p]
  }

  lemma {:induction false} ReplaceById(points: seq<Point>, k: nat, p: Point)
    requires Stored(points) && k < |points| && points[k].id == p.id
    ensures ById(points[k := p]) == ById(points)[p.id := p]
  {
    var prior, last := points[..|points| - 1], points[|points| - 1];
    if k == |points| - 1 {
      assert points[k := p][..k] == prior;
    } else {
      assert points[k := p][..|points| - 1] == prior[k := p];
      ReplaceById(prior, k, p);
      assert last.id != p.id;
    }
  }

  lemma UpsertStored(points: seq<Point>, p: Point)
    requires Stored(points) && p.id != ""
    ensures Stored(Upsert(points, p))
  {
    hide IndexOf;
    var k, after := IndexOf(points, p.id), Upsert(points, p);
    if k < |points| {
      assert forall i :: 0 <= i < |points| ==> after[i].id == points[i].id;
    } else {
      assert forall i :: 0 <= i < |points| ==> after[i] == points[i];
    }
  }

  lemma AppendById(points: seq<Point>, p: Point)
    ensures ById(points + [p]) == ById(points)[p.id := p]
  {
    assert (points + [p])[..|points|] == points;
  }

  lemma UpsertById(points: seq<Point>, p: Point)
    requires Stored(points) && p.id != ""
    ensures Stored(Upsert(points, p)) && ById(Upsert(points, p)) == ById(points)[p.id := p]
  {
    hide ById;
    hide Stored;
    hide IndexOf;
    UpsertStored(points, p);
    var k := IndexOf(points, p.id);
    if k < |points| {
      ReplaceById(points, k, p);
    } else {
      AppendById(points, p);
    }
  }

  // ---- Migration ----

  /** The shared collection, by ID, after the points of one legacy collection were moved into it. */
  ghost function Moved(shared: map<string, Point>, points: seq<Point>, user: nat, now: Clock): map<string, Point> {
    if points == [] then shared
    else
      var prior, p := Moved(shared, points[..|points| - 1], user, now), points[|points| - 1];
      if Movable(p) then prior[p.id := Rebound(p, user, now)] else prior
  }

  function CountMovable(points: seq<Point>): nat {
    if points == [] then 0
    else CountMovable(points[..|points| - 1]) + (if Movable(points[|points| - 1]) then 1 else 0)
  }

  datatype MigrationStats = MigrationStats(scanned: nat, migrated: nat, skipped: nat)

  /** The shared collection as the server holds it. */
  class Collection {
    var points: seq<Point>

    constructor ()
      ensures points == []
    {
      points := [];
    }

    method UpsertPoint(p: Point)
      requires Stored(points) && p.id != ""
      modifies this
      ensures points == Upsert(old(points), p)
      ensures Stored(points) && ById(points) == ById(old(points))[p.id := p]
    {
      UpsertById(points, p);
      points := Upsert(points, p);
    }
  }

  /** Which scroll and upsert requests the server fails. */
  datatype Outages = Outages(scroll: nat -> bool, upsert: string -> bool)

  /** Moves one user's collection; it stops at the first failed request. A success has moved exactly
      the movable points, a failure a prefix of them. A dry run counts the same and writes nothing. */
  method MigrateCollection(
    source: seq<Point>, target: Collection, user: nat, batchSize: nat, dryRun: bool, now: Clock, outages: Outages)
    returns (stats: MigrationStats, ok: bool)
    requires Stored(source) && Stored(target.points) && batchSize > 0
    modifies target
    ensures Stored(target.points)
    ensures dryRun ==> target.points == old(target.points)
    ensures ok ==>
      && (!dryRun ==> ById(target.points) == Moved(ById(old(target.points)), source, user, now))
      && stats.scanned == |source| && stats.migrated == CountMovable(source)
      && stats.skipped + stats.migrated == stats.scanned
    ensures !ok && !dryRun ==>
      exists k :: 0 <= k <= |source| && ById(target.points) == Moved(ById(old(target.points)), source[..k], user, now)
    ensures ok && !dryRun ==>
      && (forall i :: 0 <= i < |source| && Worth(source[i]) ==>
            Arrived(ById(target.points), source[i], user, now(user, source[i].id)))
      && (forall id :: (forall i :: 0 <= i < |source| && Worth(source[i]) ==> source[i].id != id) ==>
            SameAt(ById(old(target.points)), ById(target.points), id))
    ensures (forall i :: !outages.scroll(i)) && (forall id :: !outages.upsert(id)) ==> ok
  {
    hide Scroll;
    hide Upsert;
    hide Movable;
    hide Moved;
    hide ById;
    hide CountMovable;
    hide Arrived;
    hide SameAt;
    hide Worth;
    ghost var before := target.points;
    MovedWhole(ById(before), source, user, now);
    stats, ok := MigrationStats(0, 0, 0), false;
    var offset: Option<string> := None;
    var requests := 0;
    ghost var k := 0;
    MoveNothing(source, before, user, dryRun, now);
    hide Moving;
    while true
      invariant k <= |source| && (if k == 0 then offset.None? else k < |source| && offset == Some(source[k].id))
      invariant Moving(source, before, user, dryRun, now, k, stats, target.points)
      decreases |source| - k
    {
      if outages.scroll(requests) {
        MovedSome(source, before, user, dryRun, now, k, stats, target.points);
        return stats, false;
      }
      requests := requests + 1;
      var page := Scroll(source, batchSize, offset);
      ScrollFrom(source, batchSize, offset, k);
      if page.points == [] {
        MovedAll(source, before, user, dryRun, now, stats, target.points);
        return stats, true;
      }
      for i := 0 to |page.points|
        invariant Moving(source, before, user, dryRun, now, k + i, stats, target.points)
      {
        MoveOne(source, before, user, dryRun, now, k + i, stats, target.points);
        var p := page.points[i];
        if !Movable(p) {
          stats := stats.(scanned := stats.scanned + 1, skipped := stats.skipped + 1);
        } else {
          if !dryRun {
            if outages.upsert(p.id) {
              MovedSome(source, before, user, dryRun, now, k + i, stats, target.points);
              return stats.(scanned := stats.scanned + 1), false;
            }
            target.UpsertPoint(Rebound(p, user, now));
          }
          stats := stats.(scanned := stats.scanned + 1, migrated := stats.migrated + 1);
        }
      }
      k := k + |page.points|;
      if page.next.None? || page.next.value == "" || page.next == offset {
        MovedAll(source, before, user, dryRun, now, stats, target.points);
        return stats, true;
      }
      offset := page.next;
    }
  }

  /** Where a migration stands after k points. */
  ghost predicate Moving(
    source: seq<Point>, before: seq<Point>, user: nat, dryRun: bool, now: Clock, k: nat,
    stats: MigrationStats, points: seq<Point>)
  {
    && k <= |source| && Stored(points)
    && (if dryRun then points == before else ById(points) == Moved(ById(before), source[..k], user, now))
    && stats.scanned == k && stats.migrated == CountMovable(source[..k]) && stats.skipped + stats.migrated == k
  }

  lemma MoveNothing(source: seq<Point>, before: seq<Point>, user: nat, dryRun: bool, now: Clock)
    requires Stored(before)
    ensures Moving(source, before, user, dryRun, now, 0, MigrationStats(0, 0, 0), before)
  {
  }

  lemma MovedAll(
    source: seq<Point>, before: seq<Point>, user: nat, dryRun: bool, now: Clock, stats: MigrationStats, points: seq<Point>)
    requires Moving(source, before, user, dryRun, now, |source|, stats, points)
    ensures Stored(points) && stats.scanned == |source| && stats.migrated == CountMovable(source)
    ensures if dryRun then points == before else ById(points) == Moved(ById(before), source, user, now)
    ensures stats.skipped + stats.migrated == stats.scanned
  {
    assert source[..|source|] == source;
  }

  lemma MovedSome(
    source: seq<Point>, before: seq<Point>, user: nat, dryRun: bool, now: Clock, k: nat,
    stats: MigrationStats, points: seq<Point>)
    requires Moving(source, before, user, dryRun, now, k, stats, points)
    ensures k <= |source| && Stored(points)
    ensures if dryRun then points == before else ById(points) == Moved(ById(before), source[..k], user, now)
  {
  }

  lemma MoveOne(
    source: seq<Point>, before: seq<Point>, user: nat, dryRun: bool, now: Clock, k: nat,
    stats: MigrationStats, points: seq<Point>)
    requires Moving(source, before, user, dryRun, now, k, stats, points) && k < |source| && Stored(source)
    ensures Stored(points)
    ensures !Movable(source[k]) ==>
      Moving(source, before, user, dryRun, now, k + 1,
             stats.(scanned := stats.scanned + 1, skipped := stats.skipped + 1), points)
    ensures Movable(source[k]) ==>
      Moving(source, before, user, dryRun, now, k + 1,
             stats.(scanned := stats.scanned + 1, migrated := stats.migrated + 1),
             if dryRun then points else Upsert(points, Rebound(source[k], user, now)))
  {
    hide Movable;
    hide Upsert;
    assert source[..k + 1][..k] == source[..k];
    UpsertById(points, Rebound(source[k], user, now));
  }

  // ---- Verification ----

  ghost function MovableIds(points: seq<Point>): set<string> {
    set p | p in points && Movable(p) :: p.id
  }

  predicate OwnedBy(p: Point, user: nat) {
    p.payload.user == Some(Digits(user))
  }

  ghost function IdsOwned(shared: map<string, Point>, user: nat): set<string> {
    set id | id in shared && OwnedBy(shared[id], user)
  }

  function Filtered(points: seq<Point>, user: nat): seq<Point> {
    if points == [] then []
    else
      var prior, p := Filtered(points[..|points| - 1], user), points[|points| - 1];
      if OwnedBy(p, user) then prior + [p] else prior
  }

  /** What verification must find: the same IDs on both sides, all under the shared schema. */
  ghost predicate InOrder(source: seq<Point>, shared: map<string, Point>, user: nat) {
    && MovableIds(source) == IdsOwned(shared, user)
    && forall id :: id in IdsOwned(shared, user) ==> HasSchema(shared[id])
  }

  datatype Verification = Verification(
    sourcePoints: nat, sharedPoints: nat, missing: nat, unexpected: nat,
    duplicateSource: nat, duplicateShared: nat, wrongTenant: nat, wrongSchema: nat, verified: bool)

  /** Counts the elements of one set that are not in the other, one by one. */
  method CountMissing(from: set<string>, other: set<string>) returns (n: nat)
    ensures n == |from - other|
  {
    n := 0;
    var rest := from;
    while rest != {}
      invariant rest <= from && n == |from - rest - other|
      decreases |rest|
    {
      var id :| id in rest;
      DropOne(from, rest, other, id);
      if id !in other {
        n := n + 1;
      }
      rest := rest - {id};
    }
    assert from - {} == from;
  }

  lemma DropOne(from: set<string>, rest: set<string>, other: set<string>, id: string)
    requires rest <= from && id in rest
    ensures |from - (rest - {id}) - other| == |from - rest - other| + (if id in other then 0 else 1)
  {
    if id !in other {
      assert from - (rest - {id}) - other == (from - rest - other) + {id};
    } else {
      assert from - (rest - {id}) - other == from - rest - other;
    }
  }

  /** The movable source IDs, with a count of repeats. */
  method CollectSource(visited: seq<Point>) returns (ids: set<string>, duplicates: nat)
    ensures ids == MovableIds(visited) && duplicates + |ids| == CountMovable(visited)
  {
    hide Movable;
    ids, duplicates := {}, 0;
    for i := 0 to |visited|
      invariant ids == MovableIds(visited[..i]) && duplicates + |ids| == CountMovable(visited[..i])
    {
      var p := visited[i];
      assert visited[..i + 1] == visited[..i] + [p];
      if Movable(p) {
        if p.id in ids {
          duplicates := duplicates + 1;
        } else {
          ids := ids + {p.id};
        }
      }
    }
    assert visited[..|visited|] == visited;
  }

  ghost function AllIds(points: seq<Point>): set<string> {
    set p | p in points :: p.id
  }

  /** How many points a predicate rejects. */
  ghost function Rejected(points: seq<Point>, good: Point -> bool): nat {
    if points == [] then 0
    else Rejected(points[..|points| - 1], good) + (if good(points[|points| - 1]) then 0 else 1)
  }

  predicate HasSchema(p: Point) {
    p.payload.schema == Some(SHARED_SCHEMA)
  }

  ghost function Owned(user: nat): Point -> bool {
    p => OwnedBy(p, user)
  }

  lemma OneMorePoint(points: seq<Point>, i: nat, good: Point -> bool)
    requires i < |points|
    ensures AllIds(points[..i + 1]) == AllIds(points[..i]) + {points[i].id}
    ensures Rejected(points[..i + 1], good) == Rejected(points[..i], good) + (if good(points[i]) then 0 else 1)
  {
    assert points[..i + 1] == points[..i] + [points[i]];
  }

  method CollectShared(visited: seq<Point>, user: nat)
    returns (ids: set<string>, duplicates: nat, wrongTenant: nat, wrongSchema: nat)
    ensures ids == AllIds(visited) && duplicates + |ids| == |visited|
    ensures wrongTenant == Rejected(visited, Owned(user)) && wrongSchema == Rejected(visited, HasSchema)
  {
    hide AllIds;
    hide HasSchema;
    hide OwnedBy;
    ids, duplicates, wrongTenant, wrongSchema := {}, 0, 0, 0;
    assert AllIds([]) == {} by { NoIds(); }
    for i := 0 to |visited|
      invariant ids == AllIds(visited[..i]) && duplicates + |ids| == i
      invariant wrongTenant == Rejected(visited[..i], Owned(user)) && wrongSchema == Rejected(visited[..i], HasSchema)
    {
      hide Rejected;
      var p := visited[i];
      OneMorePoint(visited, i, Owned(user));
      OneMorePoint(visited, i, HasSchema);
      if p.id in ids {
        duplicates := duplicates + 1;
        assert ids + {p.id} == ids;
      }
      ids := ids + {p.id};
      if !OwnedBy(p, user) {
        wrongTenant := wrongTenant + 1;
      }
      if !HasSchema(p) {
        wrongSchema := wrongSchema + 1;
      }
    }
    assert visited[..|visited|] == visited;
  }

  lemma NoIds()
    ensures AllIds([]) == {}
  {
  }

  lemma NewId(points: seq<Point>)
    requires Stored(points) && points != []
    ensures Stored(points[..|points| - 1])
    ensures points[|points| - 1].id !in AllIds(points[..|points| - 1])
  {
  }

  /** A stored collection has as many IDs as points. */
  lemma {:induction false} StoredSize(points: seq<Point>)
    requires Stored(points)
    ensures |AllIds(points)| == |points|
  {
    hide *;
    if points == [] {
      NoIds();
    } else {
      var prior := points[..|points| - 1];
      NewId(points);
      StoredSize(prior);
      OneMorePoint(points, |prior|, HasSchema);
      assert points[..|prior| + 1] == points;
    }
  }

  lemma {:induction false} MovableSize(points: seq<Point>)
    requires Stored(points)
    ensures |MovableIds(points)| == CountMovable(points)
  {
    hide Movable;
    if points == [] {
      assert MovableIds(points) == {};
    } else {
      var prior, p := points[..|points| - 1], points[|points| - 1];
      MovableSize(prior);
      assert points == prior + [p];
      assert MovableIds(points) == if Movable(p) then MovableIds(prior) + {p.id} else MovableIds(prior);
    }
  }

  lemma {:induction false} FilteredExactly(points: seq<Point>, user: nat)
    requires Stored(points)
    ensures forall p :: p in Filtered(points, user) <==> p in points && OwnedBy(p, user)
    ensures Stored(Filtered(points, user))
  {
    hide OwnedBy;
    if points != [] {
      var prior, last := points[..|points| - 1], points[|points| - 1];
      FilteredExactly(prior, user);
      assert forall p :: p in points <==> p in prior || p == last;
      var kept := Filtered(prior, user);
      forall i | 0 <= i < |kept| ensures kept[i].id != last.id {
        assert kept[i] in kept;
      }
    }
  }

  lemma {:induction false} NoneRejected(points: seq<Point>, good: Point -> bool)
    ensures Rejected(points, good) == 0 <==> forall p :: p in points ==> good(p)
  {
    if points != [] {
      NoneRejected(points[..|points| - 1], good);
      assert forall p :: p in points <==> p in points[..|points| - 1] || p == points[|points| - 1];
    }
  }

  lemma FilteredIds(points: seq<Point>, user: nat)
    requires Stored(points)
    ensures AllIds(Filtered(points, user)) == IdsOwned(ById(points), user)
    ensures Rejected(Filtered(points, user), Owned(user)) == 0
    ensures Rejected(Filtered(points, user), HasSchema) == 0 <==>
            forall id :: id in IdsOwned(ById(points), user) ==> HasSchema(ById(points)[id])
  {
    hide OwnedBy;
    hide HasSchema;
    FilteredExactly(points, user);
    ByIdExactly(points);
    hide Filtered;
    hide ById;
    hide Stored;
    NoneRejected(Filtered(points, user), HasSchema);
    NoneRejected(Filtered(points, user), Owned(user));
    hide Rejected;
  }

  lemma EmptyDifference(a: set<string>, b: set<string>)
    ensures |a - b| == 0 && |b - a| == 0 <==> a == b
  {
    assert a - b == {} && b - a == {} <==> a == b;
  }

  /** Scans both collections and compares. The counts are the sizes of the set differences, and the
      user is verified exactly when both sides hold the same IDs under the shared schema. */
  method VerifyUser(source: seq<Point>, shared: seq<Point>, user: nat, batchSize: nat) returns (v: Verification)
    requires Stored(source) && Stored(shared) && batchSize > 0
    ensures var owned := IdsOwned(ById(shared), user);
      && v.sourcePoints == |MovableIds(source)| && v.sharedPoints == |owned|
      && v.missing == |MovableIds(source) - owned| && v.unexpected == |owned - MovableIds(source)|
      && (v.verified <==> InOrder(source, ById(shared), user))
  {
    FilteredExactly(shared, user);
    FilteredIds(shared, user);
    var filtered := Filtered(shared, user);
    MovableSize(source);
    StoredSize(filtered);
    hide *;
    var fromSource, _ := ScanCollection(source, batchSize);
    var sourceIds, duplicateSource := CollectSource(fromSource);
    var fromShared, _ := ScanCollection(filtered, batchSize);
    var sharedIds, duplicateShared, wrongTenant, wrongSchema := CollectShared(fromShared, user);
    EmptyDifference(sourceIds, sharedIds);
    var missing := CountMissing(sourceIds, sharedIds);
    var unexpected := CountMissing(sharedIds, sourceIds);
    v := Verification(|sourceIds|, |sharedIds|, missing, unexpected, duplicateSource, duplicateShared, wrongTenant,
                      wrongSchema, missing == 0 && unexpected == 0 && duplicateSource == 0 && duplicateShared == 0
                                   && wrongTenant == 0 && wrongSchema == 0);
    OrderExactly(source, ById(shared), user);
  }

  lemma OrderExactly(source: seq<Point>, shared: map<string, Point>, user: nat)
    ensures InOrder(source, shared, user) <==>
            && MovableIds(source) == IdsOwned(shared, user)
            && forall id :: id in IdsOwned(shared, user) ==> HasSchema(shared[id])
  {
  }

  // ---- What arrives ----

  /** What a user's migration writes for an ID. */
  ghost function Written(points: seq<Point>, user: nat, id: string, now: Clock): Point
    requires id in MovableIds(points)
  {
    var k := IndexOf(points, id);
    assert k < |points|;
    Rebound(points[k], user, now)
  }

  lemma MovablePrefix(points: seq<Point>)
    requires points != []
    ensures var prior, p := points[..|points| - 1], points[|points| - 1];
      MovableIds(points) == if Movable(p) then MovableIds(prior) + {p.id} else MovableIds(prior)
  {
    hide Movable;
    assert points == points[..|points| - 1] + [points[|points| - 1]];
  }

  lemma IndexPrefix(points: seq<Point>, id: string)
    requires Stored(points) && points != []
    ensures var prior, p := points[..|points| - 1], points[|points| - 1];
      && (p.id == id ==> IndexOf(points, id) == |prior|)
      && (id in MovableIds(prior) ==> IndexOf(prior, id) == IndexOf(points, id) < |prior| && p.id != id)
  {
    hide Movable;
    hide IndexOf;
    var prior := points[..|points| - 1];
    if id in MovableIds(prior) {
      var k := IndexOf(prior, id);
      assert k < |prior| && prior[k] == points[k];
      assert IndexOf(points, id) <= k;
    }
  }

  /** Moving a collection rewrites exactly its movable IDs. */
  lemma {:induction false} MovedExactly(shared: map<string, Point>, points: seq<Point>, user: nat, now: Clock, id: string)
    requires Stored(points)
    ensures var after := Moved(shared, points, user, now);
      if id in MovableIds(points) then id in after && after[id] == Written(points, user, id, now)
      else (id in after <==> id in shared) && (id in after ==> after[id] == shared[id])
  {
    hide Movable;
    if points != [] {
      MovablePrefix(points);
      IndexPrefix(points, id);
      MovedExactly(shared, points[..|points| - 1], user, now, id);
      hide IndexOf;
      hide MovableIds;
    }
  }

  /** A point worth moving: it has a vector, and an ID that is not all spaces. */
  ghost predicate Worth(p: Point) {
    p.vector != [] && exists j :: 0 <= j < |p.id| && p.id[j] != ' '
  }

  /** The point is there under its own ID, with its own vector and the rest of its payload, belonging to
      the user, under the shared schema, with its origin and the time it was moved. */
  ghost predicate Arrived(shared: map<string, Point>, p: Point, user: nat, at: int) {
    && p.id in shared
    && var q := shared[p.id];
       && q.id == p.id && q.vector == p.vector && q.payload.rest == p.payload.rest
       && q.payload.user == Some(Digits(user)) && q.payload.schema == Some("shared_user_payload_v1")
       && q.payload.migratedFrom == Some(user) && q.payload.migratedAt == Some(at)
  }

  lemma IndexUnique(points: seq<Point>, i: nat)
    requires Stored(points) && i < |points|
    ensures IndexOf(points, points[i].id) == i
  {
    hide IndexOf;
  }

  lemma WorthIsMovable(p: Point)
    ensures Movable(p) <==> Worth(p)
  {
  }

  /** A migration moves exactly the points worth moving, whole, and leaves every other ID alone. */
  lemma MovedWhole(shared: map<string, Point>, points: seq<Point>, user: nat, now: Clock)
    requires Stored(points)
    ensures forall i :: 0 <= i < |points| && Worth(points[i]) ==>
      Arrived(Moved(shared, points, user, now), points[i], user, now(user, points[i].id))
    ensures forall id :: (forall i :: 0 <= i < |points| && Worth(points[i]) ==> points[i].id != id) ==>
      SameAt(shared, Moved(shared, points, user, now), id)
  {
    hide Moved;
    hide IndexOf;
    forall i | 0 <= i < |points| && Worth(points[i])
      ensures Arrived(Moved(shared, points, user, now), points[i], user, now(user, points[i].id))
    {
      WorthIsMovable(points[i]);
      assert points[i] in points;
      MovedExactly(shared, points, user, now, points[i].id);
      IndexUnique(points, i);
    }
    forall id | forall i :: 0 <= i < |points| && Worth(points[i]) ==> points[i].id != id
      ensures SameAt(shared, Moved(shared, points, user, now), id)
    {
      forall p | p in points && Movable(p) ensures p.id != id {
        WorthIsMovable(p);
      }
      hide Movable;
      hide Worth;
      MovedExactly(shared, points, user, now, id);
    }
  }

  predicate SameAt(before: map<string, Point>, after: map<string, Point>, id: string) {
    (id in after <==> id in before) && (id in after ==> after[id] == before[id])
  }

  /** What verification establishes, in the terms of the two collections: the IDs worth moving are exactly
      the IDs the user owns, and each of those is under the shared schema. */
  lemma InOrderMeans(source: seq<Point>, shared: map<string, Point>, user: nat)
    ensures InOrder(source, shared, user) <==>
      && (forall id :: (exists p :: p in source && Worth(p) && p.id == id) <==>
                       (id in shared && shared[id].payload.user == Some(Digits(user))))
      && (forall id :: id in shared && shared[id].payload.user == Some(Digits(user)) ==>
                       shared[id].payload.schema == Some("shared_user_payload_v1"))
  {
    forall p ensures Movable(p) <==> Worth(p) {
      WorthIsMovable(p);
    }
    hide Movable;
    hide Worth;
    assert forall id :: id in MovableIds(source) <==> exists p :: p in source && Worth(p) && p.id == id;
    assert forall id :: id in IdsOwned(shared, user) <==> id in shared && shared[id].payload.user == Some(Digits(user));
  }
}
