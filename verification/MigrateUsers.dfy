/** Migrating many users into the shared collection, then verifying them all. */
module MigrateUsers {
  import opened Base
  import opened Decimal
  import opened Migrate

  /** Each user's legacy collection. */
  type Legacy = map<nat, seq<Point>>

  ghost predicate AllStored(legacy: Legacy) {
    forall u :: u in legacy ==> Stored(legacy[u])
  }

  ghost predicate Present(legacy: Legacy, users: seq<nat>) {
    forall i :: 0 <= i < |users| ==> users[i] in legacy
  }

  ghost predicate DistinctUsers(users: seq<nat>) {
    forall i, j :: 0 <= i < j < |users| ==> users[i] != users[j]
  }

  /** The shared collection, by ID, after moving the users one after the other. */
  ghost function MoveUsers(shared: map<string, Point>, legacy: Legacy, users: seq<nat>, now: Clock): map<string, Point>
    requires Present(legacy, users)
  {
    if users == [] then shared
    else
      var u := users[|users| - 1];
      Moved(MoveUsers(shared, legacy, users[..|users| - 1], now), legacy[u], u, now)
  }

  ghost predicate AllInOrder(shared: map<string, Point>, legacy: Legacy, users: seq<nat>)
    requires Present(legacy, users)
  {
    forall i :: 0 <= i < |users| ==> InOrder(legacy[users[i]], shared, users[i])
  }

  // ---- Who owns an ID in the end ----

  /** The last user that has an ID. */
  ghost function LastOwner(legacy: Legacy, users: seq<nat>, id: string): (r: Option<nat>)
    requires Present(legacy, users)
    ensures r.Some? ==> r.value in legacy && id in MovableIds(legacy[r.value]) && r.value in users
    ensures r.None? ==> forall i :: 0 <= i < |users| ==> id !in MovableIds(legacy[users[i]])
  {
    if users == [] then None
    else if id in MovableIds(legacy[users[|users| - 1]]) then Some(users[|users| - 1])
    else LastOwner(legacy, users[..|users| - 1], id)
  }

  lemma {:induction false} EndsWith(shared: map<string, Point>, legacy: Legacy, users: seq<nat>, now: Clock, id: string)
    requires AllStored(legacy) && Present(legacy, users)
    ensures var after, owner := MoveUsers(shared, legacy, users, now), LastOwner(legacy, users, id);
      if owner.Some? then id in after && after[id] == Written(legacy[owner.value], owner.value, id, now)
      else (id in after <==> id in shared) && (id in after ==> after[id] == shared[id])
  {
    hide Moved;
    hide MovableIds;
    hide Written;
    hide Stored;
    if users != [] {
      var prior, u := users[..|users| - 1], users[|users| - 1];
      EndsWith(shared, legacy, prior, now, id);
      MovedExactly(MoveUsers(shared, legacy, prior, now), legacy[u], u, now, id);
    }
  }

  lemma WrittenIsOwned(points: seq<Point>, user: nat, id: string, now: Clock, other: nat)
    requires id in MovableIds(points)
    ensures HasSchema(Written(points, user, id, now))
    ensures OwnedBy(Written(points, user, id, now), other) <==> user == other
  {
    DigitsRoundTrip(user);
    DigitsRoundTrip(other);
  }

  /** An ID belongs to a user after the migration exactly when that user was its last owner, or
      nobody had it and it was there before. */
  lemma OwnedAfter(shared: map<string, Point>, legacy: Legacy, users: seq<nat>, now: Clock, id: string, user: nat)
    requires AllStored(legacy) && Present(legacy, users)
    ensures var after, owner := MoveUsers(shared, legacy, users, now), LastOwner(legacy, users, id);
      && (id in IdsOwned(after, user) <==>
            if owner.Some? then owner.value == user else id in shared && OwnedBy(shared[id], user))
      && (owner.Some? ==> id in after && HasSchema(after[id]))
  {
    hide Moved;
    hide MovableIds;
    hide Written;
    hide OwnedBy;
    hide HasSchema;
    EndsWith(shared, legacy, users, now, id);
    var owner := LastOwner(legacy, users, id);
    if owner.Some? {
      WrittenIsOwned(legacy[owner.value], owner.value, id, now, user);
    }
    hide MoveUsers;
    hide LastOwner;
  }

  // ---- When everybody verifies ----

  ghost predicate DisjointIds(legacy: Legacy, users: seq<nat>)
    requires Present(legacy, users)
  {
    forall i, j :: 0 <= i < j < |users| ==> MovableIds(legacy[users[i]]) !! MovableIds(legacy[users[j]])
  }

  /** No point of a migrated user that nobody's legacy collection accounts for. */
  ghost predicate NoForeignPoints(shared: map<string, Point>, legacy: Legacy, users: seq<nat>)
    requires Present(legacy, users)
  {
    forall id, i :: id in shared && 0 <= i < |users| && OwnedBy(shared[id], users[i]) ==> LastOwner(legacy, users, id).Some?
  }

  lemma EnoughForOrder(shared: map<string, Point>, legacy: Legacy, users: seq<nat>, now: Clock, i: nat)
    requires AllStored(legacy) && Present(legacy, users) && DistinctUsers(users) && i < |users|
    requires DisjointIds(legacy, users) && NoForeignPoints(shared, legacy, users)
    ensures InOrder(legacy[users[i]], MoveUsers(shared, legacy, users, now), users[i])
  {
    hide MovableIds;
    hide MoveUsers;
    hide OwnedBy;
    hide HasSchema;
    hide IdsOwned;
    var u, after := users[i], MoveUsers(shared, legacy, users, now);
    forall id
      ensures id in MovableIds(legacy[u]) <==> id in IdsOwned(after, u)
      ensures id in IdsOwned(after, u) ==> id in after && HasSchema(after[id])
    {
      OwnedAfter(shared, legacy, users, now, id, u);
      var owner := LastOwner(legacy, users, id);
      hide LastOwner;
      if owner.Some? && id in MovableIds(legacy[u]) {
        var j :| 0 <= j < |users| && users[j] == owner.value;
        assert i == j;
      }
    }
    OrderExactly(legacy[u], after, u);
  }

  lemma NeededForOrder(shared: map<string, Point>, legacy: Legacy, users: seq<nat>, now: Clock)
    requires AllStored(legacy) && Present(legacy, users) && DistinctUsers(users)
    requires AllInOrder(MoveUsers(shared, legacy, users, now), legacy, users)
    ensures DisjointIds(legacy, users) && NoForeignPoints(shared, legacy, users)
  {
    hide MovableIds;
    hide MoveUsers;
    hide OwnedBy;
    hide HasSchema;
    hide IdsOwned;
    hide LastOwner;
    var after := MoveUsers(shared, legacy, users, now);
    forall i, j | 0 <= i < j < |users| ensures MovableIds(legacy[users[i]]) !! MovableIds(legacy[users[j]]) {
      forall id | id in MovableIds(legacy[users[i]]) ensures id !in MovableIds(legacy[users[j]]) {
        OrderExactly(legacy[users[i]], after, users[i]);
        OrderExactly(legacy[users[j]], after, users[j]);
        OwnedAfter(shared, legacy, users, now, id, users[i]);
        OwnedAfter(shared, legacy, users, now, id, users[j]);
      }
    }
    forall id, i | id in shared && 0 <= i < |users| && OwnedBy(shared[id], users[i])
      ensures LastOwner(legacy, users, id).Some?
    {
      OrderExactly(legacy[users[i]], after, users[i]);
      OwnedAfter(shared, legacy, users, now, id, users[i]);
    }
  }

  /** Migrating distinct users and then verifying reports all of them verified if and only if their
      movable IDs are pairwise disjoint and the shared collection held no foreign points for them. */
  lemma MigrationVerifies(shared: map<string, Point>, legacy: Legacy, users: seq<nat>, now: Clock)
    requires AllStored(legacy) && Present(legacy, users) && DistinctUsers(users)
    ensures AllInOrder(MoveUsers(shared, legacy, users, now), legacy, users) <==>
            DisjointIds(legacy, users) && NoForeignPoints(shared, legacy, users)
  {
    hide *;
    if AllInOrder(MoveUsers(shared, legacy, users, now), legacy, users) {
      NeededForOrder(shared, legacy, users, now);
    }
    if DisjointIds(legacy, users) && NoForeignPoints(shared, legacy, users) {
      forall i: nat | i < |users| ensures users[i] in legacy && InOrder(legacy[users[i]], MoveUsers(shared, legacy, users, now), users[i]) {
        IsPresent(legacy, users, i);
        EnoughForOrder(shared, legacy, users, now, i);
      }
      Gathered(MoveUsers(shared, legacy, users, now), legacy, users);
    }
  }

  lemma IsPresent(legacy: Legacy, users: seq<nat>, i: nat)
    requires Present(legacy, users) && i < |users|
    ensures users[i] in legacy
  {
  }

  lemma Gathered(shared: map<string, Point>, legacy: Legacy, users: seq<nat>)
    requires Present(legacy, users)
    requires forall i :: 0 <= i < |users| ==> users[i] in legacy && InOrder(legacy[users[i]], shared, users[i])
    ensures AllInOrder(shared, legacy, users)
  {
    hide InOrder;
  }

  /** Migrating again changes nothing but the time stamp of the migration: at the same time it
      changes nothing at all, and at any time it verifies exactly when the first run did. */
  lemma RerunKeeps(shared: map<string, Point>, legacy: Legacy, users: seq<nat>, now: Clock, later: Clock)
    requires AllStored(legacy) && Present(legacy, users) && DistinctUsers(users)
    ensures var once := MoveUsers(shared, legacy, users, now);
      && MoveUsers(once, legacy, users, now) == once
      && (AllInOrder(MoveUsers(once, legacy, users, later), legacy, users) <==> AllInOrder(once, legacy, users))
  {
    hide MoveUsers;
    hide Written;
    hide MovableIds;
    hide InOrder;
    var once := MoveUsers(shared, legacy, users, now);
    var twice := MoveUsers(once, legacy, users, now);
    forall id ensures (id in twice <==> id in once) && (id in twice ==> twice[id] == once[id]) {
      EndsWith(shared, legacy, users, now, id);
      EndsWith(once, legacy, users, now, id);
    }
    assert twice == once;
    MigrationVerifies(shared, legacy, users, now);
    MigrationVerifies(once, legacy, users, later);
    ForeignStays(shared, legacy, users, now);
  }

  lemma PrefixMovable(points: seq<Point>, k: nat)
    requires k <= |points|
    ensures MovableIds(points[..k]) <= MovableIds(points)
  {
    hide Movable;
    assert forall p :: p in points[..k] ==> p in points;
  }

  /** A migration that broke off anywhere and is then run to its end leaves what one uninterrupted
      run leaves. */
  lemma ResumedMigration(shared: map<string, Point>, points: seq<Point>, k: nat, user: nat, early: Clock, now: Clock)
    requires Stored(points) && k <= |points|
    ensures Moved(Moved(shared, points[..k], user, early), points, user, now) == Moved(shared, points, user, now)
  {
    hide Moved;
    hide Movable;
    var broken := Moved(shared, points[..k], user, early);
    var one, other := Moved(broken, points, user, now), Moved(shared, points, user, now);
    PrefixMovable(points, k);
    forall id ensures (id in one <==> id in other) && (id in one ==> one[id] == other[id]) {
      MovedExactly(shared, points[..k], user, early, id);
      MovedExactly(broken, points, user, now, id);
      MovedExactly(shared, points, user, now, id);
    }
  }

  lemma ForeignStays(shared: map<string, Point>, legacy: Legacy, users: seq<nat>, now: Clock)
    requires AllStored(legacy) && Present(legacy, users)
    ensures NoForeignPoints(MoveUsers(shared, legacy, users, now), legacy, users) <==> NoForeignPoints(shared, legacy, users)
  {
    hide MoveUsers;
    hide Written;
    hide MovableIds;
    hide OwnedBy;
    var once := MoveUsers(shared, legacy, users, now);
    forall id ensures LastOwner(legacy, users, id).None? ==>
      (id in once <==> id in shared) && (id in once ==> once[id] == shared[id])
    {
      EndsWith(shared, legacy, users, now, id);
    }
    hide LastOwner;
  }

  // ---- The two commands ----

  /** Migrates user by user, deleting each legacy collection after its migration if asked to, and stops
      at the first failure: everyone before it is migrated, its own points partly, nobody after it,
      and no collection is deleted that was not migrated in full. */
  method MigrateEveryone(
    legacy: Legacy, target: Collection, users: seq<nat>, batchSize: nat, now: Clock,
    deleteLegacy: bool, outages: nat -> Outages, deletionFails: nat -> bool)
    returns (remaining: Legacy, done: nat, ok: bool)
    requires AllStored(legacy) && Present(legacy, users) && DistinctUsers(users)
    requires Stored(target.points) && batchSize > 0
    modifies target
    ensures Stored(target.points) && done <= |users| && (ok ==> done == |users|)
    ensures done == |users| ==> ById(target.points) == MoveUsers(ById(old(target.points)), legacy, users, now)
    ensures done < |users| ==>
      var before, points := MoveUsers(ById(old(target.points)), legacy, users[..done], now), legacy[users[done]];
      exists k :: 0 <= k <= |points| && ById(target.points) == Moved(before, points[..k], users[done], now)
    ensures forall u :: u in remaining ==> u in legacy && remaining[u] == legacy[u]
    ensures forall u :: u in legacy && u !in remaining ==> deleteLegacy && u in users[..done]
    ensures ok && deleteLegacy ==> forall u :: u in users ==> u !in remaining
  {
    hide ById;
    hide Moved;
    hide Stored;
    remaining, done, ok := legacy, 0, false;
    for i := 0 to |users|
      invariant Stored(target.points) && done == i
      invariant ById(target.points) == MoveUsers(ById(old(target.points)), legacy, users[..i], now)
      invariant forall u :: u in remaining ==> u in legacy && remaining[u] == legacy[u]
      invariant forall u :: u in legacy && u !in remaining ==> deleteLegacy && u in users[..i]
      invariant deleteLegacy ==> forall u :: u in users[..i] ==> u !in remaining
    {
      var user := users[i];
      assert users[..i + 1] == users[..i] + [user] && users[..i + 1][..i] == users[..i];
      assert user !in users[..i];
      var stats, moved := MigrateCollection(remaining[user], target, user, batchSize, false, now, outages(user));
      if !moved {
        return remaining, i, false;
      }
      done := i + 1;
      if deleteLegacy {
        if deletionFails(user) {
          assert done == |users| ==> users[..done] == users;
          MovedPartly(ById(old(target.points)), legacy, users, done, now);
          return remaining, done, false;
        }
        remaining := remaining - {user};
      }
    }
    assert users[..|users|] == users;
    return remaining, done, true;
  }

  /** Nothing of the next user moved yet. */
  lemma MovedPartly(shared: map<string, Point>, legacy: Legacy, users: seq<nat>, done: nat, now: Clock)
    requires Present(legacy, users) && done <= |users|
    ensures done < |users| ==>
      var before := MoveUsers(shared, legacy, users[..done], now);
      Moved(before, legacy[users[done]][..0], users[done], now) == before
  {
    hide MoveUsers;
  }

  /** Verifies user by user; the report is verified exactly when everyone is in order. */
  method VerifyEveryone(legacy: Legacy, shared: seq<Point>, users: seq<nat>, batchSize: nat)
    returns (report: seq<Verification>, verified: bool)
    requires AllStored(legacy) && Present(legacy, users) && Stored(shared) && batchSize > 0
    ensures |report| == |users| && (verified <==> AllInOrder(ById(shared), legacy, users))
    ensures forall i :: 0 <= i < |users| ==> (report[i].verified <==> InOrder(legacy[users[i]], ById(shared), users[i]))
  {
    hide ById;
    hide InOrder;
    hide Stored;
    report, verified := [], true;
    for i := 0 to |users|
      invariant |report| == i && (verified <==> forall j :: 0 <= j < i ==> report[j].verified)
      invariant forall j :: 0 <= j < i ==> (report[j].verified <==> InOrder(legacy[users[j]], ById(shared), users[j]))
    {
      var stats := VerifyUser(legacy[users[i]], shared, users[i], batchSize);
      ghost var prior := report;
      report := report + [stats];
      assert report[i] == stats && forall j :: 0 <= j < i ==> report[j] == prior[j];
      verified := verified && stats.verified;
    }
  }
}
