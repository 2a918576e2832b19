/** Keyset pagination of the following feed with a lookahead row, as the read acceptance drives it. */
module Feed {
  import opened Base

  const PUBLIC := 0
  const FOLLOWERS := 1

  datatype Row = Nil | Row(id: nat, author: nat, deletedAt: int, visible: int)

  datatype Options = Options(viewer: nat, before: nat, limit: nat, pages: nat, minPages: nat, minRows: nat)
  {
    predicate Valid() {
      1 <= limit <= 100 && 1 <= pages <= 20 && 1 <= minPages <= pages && 1 <= minRows <= pages * limit
    }
  }

  /** A read transaction. `None` is a failed read. */
  datatype Session = Session(
    candidates: (nat, nat) -> Option<seq<Row>>, following: seq<nat> -> Option<set<nat>>, closes: bool)

  datatype Failure =
    | CandidateReadFailed | InvalidPage | FollowReadFailed | NotFollowed | InsufficientFixture | CloseFailed

  datatype Journey = Journey(pages: nat, rows: nat, truncated: bool, failure: Option<Failure>)

  // ---- Pages ----

  predicate Acceptable(row: Row, viewer: nat) {
    && row.Row? && row.id != 0 && row.author != 0 && row.deletedAt == 0
    && (row.author == viewer || row.visible == PUBLIC || row.visible == FOLLOWERS)
  }

  /** A row that may be shown: a real post, not deleted, the viewer's own or public or for followers. */
  predicate Showable(row: Row, viewer: nat) {
    row.Row? && row.id > 0 && row.author > 0 && row.deletedAt == 0 && (row.author == viewer || row.visible in {0, 1})
  }

  lemma AcceptableMeans(row: Row, viewer: nat)
    ensures Acceptable(row, viewer) <==> Showable(row, viewer)
  {
  }

  ghost predicate AllAcceptable(rows: seq<Row>, viewer: nat) {
    forall i :: 0 <= i < |rows| ==> Acceptable(rows[i], viewer)
  }

  ghost predicate Descending(rows: seq<Row>) {
    && (forall i :: 0 <= i < |rows| ==> rows[i].Row?)
    && (forall i, j :: 0 <= i < j < |rows| ==> rows[i].id > rows[j].id)
  }

  /** Rows a page may hold: acceptable, strictly descending, below the cursor (0 is the head). */
  ghost predicate ValidPage(rows: seq<Row>, viewer: nat, before: nat, maximum: nat) {
    && |rows| <= maximum && AllAcceptable(rows, viewer) && Descending(rows)
    && (before != 0 && rows != [] ==> rows[0].id < before)
  }

  /** Row i is below the row before it, or below the cursor if it is the first and there is one. */
  predicate Descends(rows: seq<Row>, i: nat, before: nat)
    requires i < |rows| && rows[i].Row?
  {
    if i == 0 then before == 0 || rows[0].id < before else rows[i - 1].Row? && rows[i].id < rows[i - 1].id
  }

  lemma {:induction false} FarDescends(rows: seq<Row>, before: nat, i: nat, j: nat)
    requires forall k :: 0 <= k < |rows| ==> rows[k].Row? && Descends(rows, k, before)
    requires i < j < |rows|
    ensures rows[i].id > rows[j].id
  {
    assert Descends(rows, j, before);
    if i + 1 < j {
      FarDescends(rows, before, i, j - 1);
    }
  }

  lemma StepsDescend(rows: seq<Row>, before: nat)
    requires forall i :: 0 <= i < |rows| ==> rows[i].Row? && Descends(rows, i, before)
    ensures Descending(rows)
  {
    forall i: nat, j: nat | i < j < |rows| ensures rows[i].id > rows[j].id {
      FarDescends(rows, before, i, j);
    }
    hide Descends;
  }

  lemma PageMeans(rows: seq<Row>, viewer: nat, before: nat, maximum: nat)
    ensures ValidPage(rows, viewer, before, maximum) <==>
      && |rows| <= maximum
      && forall i :: 0 <= i < |rows| ==> Showable(rows[i], viewer) && Descends(rows, i, before)
  {
    forall row ensures Acceptable(row, viewer) <==> Showable(row, viewer) {
      AcceptableMeans(row, viewer);
    }
    hide Acceptable;
    if forall i :: 0 <= i < |rows| ==> Showable(rows[i], viewer) && Descends(rows, i, before) {
      StepsDescend(rows, before);
      if rows != [] {
        assert Descends(rows, 0, before);
      }
    }
  }

  method ValidRows(rows: seq<Row>, viewer: nat, before: nat, maximum: nat) returns (ok: bool)
    ensures ok <==> ValidPage(rows, viewer, before, maximum)
    ensures ok <==>
      && |rows| <= maximum
      && forall i :: 0 <= i < |rows| ==> Showable(rows[i], viewer) && Descends(rows, i, before)
  {
    PageMeans(rows, viewer, before, maximum);
    if |rows| > maximum {
      return false;
    }
    var previous := before;
    for i := 0 to |rows|
      invariant AllAcceptable(rows[..i], viewer) && Descending(rows[..i])
      invariant previous == if i == 0 then before else rows[i - 1].id
      invariant i > 0 ==> previous != 0 && (before != 0 ==> rows[0].id < before)
    {
      if !Acceptable(rows[i], viewer) || (previous != 0 && rows[i].id >= previous) {
        return false;
      }
      previous := rows[i].id;
    }
    assert rows[..|rows|] == rows;
    return true;
  }

  /** The authors other than the viewer, each once, in order of appearance. */
  function Authors(rows: seq<Row>, viewer: nat): seq<nat> {
    if rows == [] then []
    else
      var prior, last := Authors(rows[..|rows| - 1], viewer), rows[|rows| - 1];
      if last.Row? && last.author != viewer && last.author !in prior then prior + [last.author] else prior
  }

  lemma {:induction false} AuthorsExactly(rows: seq<Row>, viewer: nat, author: nat)
    ensures author in Authors(rows, viewer) <==>
            author != viewer && exists i :: 0 <= i < |rows| && rows[i].Row? && rows[i].author == author
    ensures forall i, j :: 0 <= i < j < |Authors(rows, viewer)| ==> Authors(rows, viewer)[i] != Authors(rows, viewer)[j]
  {
    if rows != [] {
      AuthorsExactly(rows[..|rows| - 1], viewer, author);
    }
  }

  method CollectAuthors(rows: seq<Row>, viewer: nat) returns (authors: seq<nat>)
    requires forall i :: 0 <= i < |rows| ==> rows[i].Row?
    ensures authors == Authors(rows, viewer)
  {
    authors := [];
    var seen: set<nat> := {};
    for i := 0 to |rows|
      invariant authors == Authors(rows[..i], viewer) && forall a :: a in seen <==> a in authors
    {
      assert rows[..i + 1][..i] == rows[..i];
      if rows[i].author != viewer && rows[i].author !in seen {
        authors := authors + [rows[i].author];
        seen := seen + {rows[i].author};
      }
    }
    assert rows[..|rows|] == rows;
  }

  ghost predicate AuthorsFollowed(s: Session, rows: seq<Row>, viewer: nat) {
    var authors := Authors(rows, viewer);
    authors == [] ||
    (s.following(authors).Some? && forall a :: a in authors ==> a in s.following(authors).value)
  }

  function First(rows: seq<Row>, n: nat): seq<Row> {
    if |rows| <= n then rows else rows[..n]
  }

  ghost predicate PageOk(o: Options, s: Session, before: nat) {
    var all := s.candidates(before, o.limit + 1);
    && all.Some? && ValidPage(all.value, o.viewer, before, o.limit + 1)
    && AuthorsFollowed(s, First(all.value, o.limit), o.viewer)
  }

  /** One page: read one row too many, check everything read, keep at most `limit` rows. */
  method ReadPage(o: Options, s: Session, before: nat) returns (failure: Option<Failure>, rows: seq<Row>, more: bool)
    ensures failure.None? <==> PageOk(o, s, before)
    ensures failure.None? ==>
      s.candidates(before, o.limit + 1).Some? &&
      var all := s.candidates(before, o.limit + 1).value;
      rows == First(all, o.limit) && (more <==> |all| > o.limit)
  {
    failure, rows, more := None, [], false;
    var all := s.candidates(before, o.limit + 1);
    if all.None? {
      failure := Some(CandidateReadFailed);
      return;
    }
    var ok := ValidRows(all.value, o.viewer, before, o.limit + 1);
    if !ok {
      failure := Some(InvalidPage);
      return;
    }
    more := |all.value| > o.limit;
    rows := if more then all.value[..o.limit] else all.value;
    var authors := CollectAuthors(rows, o.viewer);
    if |authors| > 0 {
      var followed := s.following(authors);
      if followed.None? {
        failure := Some(FollowReadFailed);
        return;
      }
      for i := 0 to |authors|
        invariant forall j :: 0 <= j < i ==> authors[j] in followed.value
      {
        if authors[i] !in followed.value {
          failure := Some(NotFollowed);
          return;
        }
      }
    }
  }

  // ---- A fixed candidate list ----

  /** The candidates below a cursor; 0 means from the head. */
  function Below(table: seq<Row>, before: nat): seq<Row> {
    if table == [] then []
    else if before == 0 || (table[0].Row? && table[0].id < before) then table
    else Below(table[1..], before)
  }

  /** The session serves one descending list and one set of followed authors throughout. */
  ghost predicate Serves(s: Session, table: seq<Row>, followed: set<nat>) {
    && Descending(table)
    && (forall before, n :: s.candidates(before, n) == Some(First(Below(table, before), n)))
    && (forall authors: seq<nat> :: s.following(authors).Some?
          && forall a :: a in authors ==> (a in s.following(authors).value <==> a in followed))
  }

  lemma {:induction false} BelowIsSuffix(table: seq<Row>, before: nat)
    requires Descending(table)
    ensures Descending(Below(table, before))
    ensures before != 0 ==> forall i :: 0 <= i < |table| ==> (table[i] in Below(table, before) <==> table[i].id < before)
    ensures before != 0 ==> forall i :: 0 <= i < |Below(table, before)| ==> Below(table, before)[i].id < before
  {
    if table != [] && !(before == 0 || table[0].id < before) {
      BelowIsSuffix(table[1..], before);
      assert forall i :: 0 < i < |table| ==> table[i] == table[1..][i - 1];
    }
  }

  /** Going on from the k-th row leaves exactly the rows after it. */
  lemma {:induction false} BelowRow(table: seq<Row>, k: nat)
    requires Descending(table) && k < |table| && table[k].id != 0
    ensures Below(table, table[k].id) == table[k + 1..]
  {
    if k == 0 {
      if |table| > 1 {
        assert table[1..][0] == table[1];
      }
      assert Below(table, table[0].id) == Below(table[1..], table[0].id);
    } else {
      BelowRow(table[1..], k - 1);
      assert table[1..][k - 1] == table[k];
      assert table[1..][k..] == table[k + 1..];
    }
  }

  lemma {:induction false} BelowBelow(table: seq<Row>, before: nat, k: nat)
    requires Descending(table) && k < |Below(table, before)|
    requires Below(table, before)[k].Row? && Below(table, before)[k].id != 0
    ensures Below(table, Below(table, before)[k].id) == Below(table, before)[k + 1..]
  {
    if table == [] || before == 0 || table[0].id < before {
      BelowRow(table, k);
    } else {
      BelowIsSuffix(table[1..], before);
      BelowBelow(table[1..], before, k);
    }
  }

  /** The rows a journey may show, and one more. */
  function Budget(o: Options): nat { o.pages * o.limit }

  /** Whether a journey over a fixed list succeeds, said about the list alone. */
  ghost predicate Presentable(o: Options, table: seq<Row>, followed: set<nat>) {
    var rows := Below(table, o.before);
    && AllAcceptable(First(rows, Budget(o) + 1), o.viewer)
    && (forall i :: 0 <= i < |First(rows, Budget(o))| ==> Trusted(rows[i], o.viewer, followed))
  }

  predicate Trusted(row: Row, viewer: nat, followed: set<nat>) {
    row.Row? && (row.author == viewer || row.author in followed)
  }

  /** How many pages it takes to show some rows. */
  function PagesFor(rows: nat, limit: nat): nat
    requires limit > 0
  {
    if rows <= limit then (if rows == 0 then 0 else 1) else PagesFor(rows - limit, limit) + 1
  }

  // ---- Journeys ----

  /** What any session's pages have established: the rows so far go strictly down from the cursor. */
  ghost predicate Walked(o: Options, read: seq<Row>, before: nat) {
    && ValidPage(read, o.viewer, o.before, |read|)
    && before == if read == [] then o.before else read[|read| - 1].id
  }

  lemma WalkOn(o: Options, read: seq<Row>, before: nat, rows: seq<Row>)
    requires Walked(o, read, before) && rows != []
    requires ValidPage(rows, o.viewer, before, |rows|)
    ensures Walked(o, read + rows, rows[|rows| - 1].id) && rows[|rows| - 1].id != 0
  {
    var all := read + rows;
    forall i, j | 0 <= i < j < |all| ensures all[i].Row? && all[j].Row? && all[i].id > all[j].id {
      if i < |read| <= j {
        assert read[i].id >= read[|read| - 1].id > rows[0].id >= rows[j - |read|].id;
      }
    }
  }

  lemma FirstValid(rows: seq<Row>, viewer: nat, before: nat, n: nat)
    requires ValidPage(rows, viewer, before, n + 1)
    ensures ValidPage(First(rows, n), viewer, before, |First(rows, n)|)
  {
  }

  /** A cursor into a fixed list: n rows of what lies below the start have been passed. */
  ghost predicate CursorAt(rows: seq<Row>, start: nat, n: nat, before: nat) {
    n <= |rows| && (if n == 0 then before == start else rows[n - 1].Row? && before == rows[n - 1].id != 0)
  }

  lemma RestBelow(table: seq<Row>, start: nat, n: nat, before: nat)
    requires Descending(table) && CursorAt(Below(table, start), start, n, before)
    ensures Below(table, before) == Below(table, start)[n..]
    ensures Descending(Below(table, before))
    ensures before != 0 && Below(table, before) != [] ==> Below(table, before)[0].id < before
  {
    BelowIsSuffix(table, before);
    if n > 0 {
      BelowBelow(table, start, n - 1);
    }
  }

  /** A prefix of a descending list below the cursor is a valid page exactly when it is acceptable. */
  lemma PrefixIsPage(rest: seq<Row>, viewer: nat, before: nat, maximum: nat)
    requires Descending(rest) && (before != 0 && rest != [] ==> rest[0].id < before)
    ensures ValidPage(First(rest, maximum), viewer, before, maximum) <==> AllAcceptable(First(rest, maximum), viewer)
    ensures Descending(First(rest, maximum))
  {
    hide Acceptable;
  }

  lemma ServesPage(s: Session, table: seq<Row>, followed: set<nat>, before: nat, n: nat)
    requires Serves(s, table, followed)
    ensures Descending(table) && s.candidates(before, n) == Some(First(Below(table, before), n))
  {
  }

  /** A page over a fixed list is the next rows of that list. */
  lemma TablePage(o: Options, s: Session, table: seq<Row>, followed: set<nat>, n: nat, before: nat)
    requires Serves(s, table, followed) && CursorAt(Below(table, o.before), o.before, n, before)
    ensures var rest := Below(table, o.before)[n..];
      && s.candidates(before, o.limit + 1) == Some(First(rest, o.limit + 1))
      && (PageOk(o, s, before) <==>
            && AllAcceptable(First(rest, o.limit + 1), o.viewer)
            && forall i :: 0 <= i < |First(rest, o.limit)| ==> Trusted(rest[i], o.viewer, followed))
  {
    hide Serves;
    hide Below;
    hide AllAcceptable;
    hide ValidPage;
    hide AuthorsFollowed;
    hide Trusted;
    ServesPage(s, table, followed, before, o.limit + 1);
    RestBelow(table, o.before, n, before);
    var rest := Below(table, o.before)[n..];
    PrefixIsPage(rest, o.viewer, before, o.limit + 1);
    PrefixIsPage(rest, o.viewer, before, o.limit);
    var page := First(rest, o.limit);
    assert First(First(rest, o.limit + 1), o.limit) == page;
    FollowedExactly(s, table, followed, page, o.viewer);
    hide Descending;
    assert forall i :: 0 <= i < |page| ==> page[i] == rest[i];
  }

  lemma FollowedExactly(s: Session, table: seq<Row>, followed: set<nat>, rows: seq<Row>, viewer: nat)
    requires Serves(s, table, followed) && forall i :: 0 <= i < |rows| ==> rows[i].Row?
    ensures AuthorsFollowed(s, rows, viewer) <==> forall i :: 0 <= i < |rows| ==> Trusted(rows[i], viewer, followed)
  {
    var authors := Authors(rows, viewer);
    forall a ensures a in authors <==> a != viewer && exists i :: 0 <= i < |rows| && rows[i].author == a {
      AuthorsExactly(rows, viewer, a);
    }
    if AuthorsFollowed(s, rows, viewer) {
      forall i | 0 <= i < |rows| ensures Trusted(rows[i], viewer, followed) {
        assert rows[i].author != viewer ==> rows[i].author in authors;
      }
    }
  }

  /** What has been checked of a fixed list after n rows were shown. */
  ghost predicate CheckedTo(o: Options, rows: seq<Row>, followed: set<nat>, shown: nat, looked: nat) {
    && AllAcceptable(First(rows, looked), o.viewer)
    && forall i :: 0 <= i < |First(rows, shown)| ==> Trusted(rows[i], o.viewer, followed)
  }

  lemma CheckOn(o: Options, rows: seq<Row>, followed: set<nat>, n: nat, looked: nat)
    requires n <= |rows| && looked <= n + 1 && CheckedTo(o, rows, followed, n, looked)
    requires n > 0 ==> looked == n + 1
    ensures CheckedTo(o, rows, followed, n + o.limit, n + o.limit + 1) <==>
            && AllAcceptable(First(rows[n..], o.limit + 1), o.viewer)
            && forall i :: 0 <= i < |First(rows[n..], o.limit)| ==> Trusted(rows[n..][i], o.viewer, followed)
  {
    var rest := rows[n..];
    assert forall i :: 0 <= i < |rest| ==> rest[i] == rows[n + i];
    assert forall i :: n <= i < |rows| ==> rows[i] == rest[i - n];
  }

  lemma CheckedLess(o: Options, rows: seq<Row>, followed: set<nat>, shown: nat, shown': nat)
    requires CheckedTo(o, rows, followed, shown, shown + 1) && shown' <= shown
    ensures CheckedTo(o, rows, followed, shown', shown' + 1)
  {
  }

  lemma PresentableChecks(o: Options, table: seq<Row>, followed: set<nat>)
    ensures Presentable(o, table, followed) <==>
            CheckedTo(o, Below(table, o.before), followed, Budget(o), Budget(o) + 1)
  {
  }

  lemma PageIsValid(o: Options, s: Session, before: nat)
    requires PageOk(o, s, before)
    ensures var page := First(s.candidates(before, o.limit + 1).value, o.limit);
      && ValidPage(page, o.viewer, before, |page|) && |page| <= o.limit
      && forall i :: 0 <= i < |page| ==> page[i].Row? && page[i].id != 0
  {
    FirstValid(s.candidates(before, o.limit + 1).value, o.viewer, before, o.limit);
  }

  /** After i full pages, one more page of some rows. */
  lemma {:induction false} FullPages(i: nat, rows: nat, limit: nat)
    requires 0 < limit && rows <= limit
    ensures PagesFor(i * limit + rows, limit) == if rows == 0 then i else i + 1
  {
    if i > 0 {
      FullPages(i - 1, rows, limit);
      assert i * limit == (i - 1) * limit + limit;
    }
  }

  /** After i pages: all of them full as long as there is more, and the counters exact. */
  ghost predicate Tallied(o: Options, i: nat, read: seq<Row>, r: Journey, more: bool) {
    && r.failure.None? && r.rows == |read| <= i * o.limit
    && (more ==> |read| == i * o.limit && r.pages == i)
    && (!more ==> o.limit > 0 && r.pages == PagesFor(|read|, o.limit))
    && r.truncated == (more && i == o.pages)
  }

  /** The counters after one more page. */
  function Tally(o: Options, i: nat, r: Journey, page: seq<Row>, more: bool): Journey {
    var counted := if |page| > 0 then r.(pages := r.pages + 1, rows := r.rows + |page|) else r;
    counted.(truncated := more && i == o.pages - 1)
  }

  lemma TallyOn(o: Options, i: nat, read: seq<Row>, r: Journey, page: seq<Row>, more: bool)
    requires o.Valid() && i < o.pages && Tallied(o, i, read, r, true)
    requires |page| <= o.limit && (more ==> |page| == o.limit)
    ensures Tallied(o, i + 1, read + page, Tally(o, i, r, page, more), more)
  {
    hide PagesFor;
    FullPages(i, |page|, o.limit);
    OnePageMore(i, o.limit);
  }

  lemma OnePageMore(i: nat, limit: nat)
    ensures (i + 1) * limit == i * limit + limit
  {
  }

  lemma FewerPages(i: nat, pages: nat, limit: nat)
    requires i <= pages
    ensures i * limit <= pages * limit
  {
    assert pages * limit == i * limit + (pages - i) * limit;
  }

  /** Where i pages over a fixed list have got to. */
  ghost predicate OnTable(
    o: Options, rows: seq<Row>, followed: set<nat>, i: nat, read: seq<Row>, before: nat, more: bool)
  {
    var n := i * o.limit;
    && CheckedTo(o, rows, followed, n, if i == 0 then 0 else n + 1)
    && read == First(rows, n)
    && (i > 0 ==> (more <==> |rows| > n))
    && (more ==> CursorAt(rows, o.before, n, before))
  }

  lemma TableStart(o: Options, rows: seq<Row>, followed: set<nat>)
    ensures Walked(o, [], o.before) && OnTable(o, rows, followed, 0, [], o.before, true)
  {
  }

  /** A failing page means the list is not presentable; a good one moves on by its rows. */
  lemma TableStep(o: Options, s: Session, table: seq<Row>, followed: set<nat>, i: nat, read: seq<Row>, before: nat)
    requires o.Valid() && i < o.pages && Serves(s, table, followed)
    requires OnTable(o, Below(table, o.before), followed, i, read, before, true)
    ensures !PageOk(o, s, before) ==> !Presentable(o, table, followed)
    ensures PageOk(o, s, before) ==>
      var rows, all := Below(table, o.before), s.candidates(before, o.limit + 1).value;
      var page := First(all, o.limit);
      && (forall k :: 0 <= k < |page| ==> page[k].Row?)
      && OnTable(o, rows, followed, i + 1, read + page,
                 if page == [] then before else page[|page| - 1].id, |all| > o.limit)
  {
    hide *;
    var rows, n := Below(table, o.before), i * o.limit;
    TableFacts(o, rows, followed, i, read, before);
    NextPageFits(o, i);
    TablePage(o, s, table, followed, n, before);
    CheckOn(o, rows, followed, n, if i == 0 then 0 else n + 1);
    if !PageOk(o, s, before) {
      PresentableChecks(o, table, followed);
      if Presentable(o, table, followed) {
        CheckedLess(o, rows, followed, Budget(o), n + o.limit);
      }
    } else {
      PageIsValid(o, s, before);
      MovesBy(rows, n, o.limit);
      TableMoves(o, rows, followed, i, read, before);
    }
  }

  lemma TableFacts(o: Options, rows: seq<Row>, followed: set<nat>, i: nat, read: seq<Row>, before: nat)
    requires OnTable(o, rows, followed, i, read, before, true)
    ensures CheckedTo(o, rows, followed, i * o.limit, if i == 0 then 0 else i * o.limit + 1)
    ensures read == First(rows, i * o.limit) && CursorAt(rows, o.before, i * o.limit, before) && i * o.limit <= |rows|
    ensures i == 0 ==> i * o.limit == 0
  {
  }

  lemma NextPageFits(o: Options, i: nat)
    requires o.Valid() && i < o.pages
    ensures o.limit > 0 && i * o.limit + o.limit == (i + 1) * o.limit <= Budget(o)
  {
    OnePageMore(i, o.limit);
    FewerPages(i + 1, o.pages, o.limit);
  }

  lemma TableMoves(o: Options, rows: seq<Row>, followed: set<nat>, i: nat, read: seq<Row>, before: nat)
    requires OnTable(o, rows, followed, i, read, before, true) && o.limit > 0
    requires i * o.limit <= |rows| && i * o.limit + o.limit == (i + 1) * o.limit
    requires CheckedTo(o, rows, followed, (i + 1) * o.limit, (i + 1) * o.limit + 1)
    requires forall k :: 0 <= k < |First(rows[i * o.limit..], o.limit)| ==>
      First(rows[i * o.limit..], o.limit)[k].Row? && First(rows[i * o.limit..], o.limit)[k].id != 0
    ensures var all := First(rows[i * o.limit..], o.limit + 1);
      var page := First(all, o.limit);
      OnTable(o, rows, followed, i + 1, read + page,
              if page == [] then before else page[|page| - 1].id, |all| > o.limit)
  {
    hide CheckedTo;
    MovesBy(rows, i * o.limit, o.limit);
  }

  lemma MovesBy(rows: seq<Row>, n: nat, limit: nat)
    requires n <= |rows|
    ensures var all := First(rows[n..], limit + 1);
      && First(all, limit) == First(rows[n..], limit)
      && First(rows, n) + First(all, limit) == First(rows, n + limit)
      && (|all| > limit <==> |rows| > n + limit)
  {
  }

  lemma TableEnd(
    o: Options, table: seq<Row>, followed: set<nat>, i: nat, read: seq<Row>, before: nat, more: bool)
    requires o.Valid() && 0 < i <= o.pages && (more ==> i == o.pages)
    requires OnTable(o, Below(table, o.before), followed, i, read, before, more)
    ensures Presentable(o, table, followed) && read == First(Below(table, o.before), Budget(o))
    ensures more && i == o.pages <==> |Below(table, o.before)| > Budget(o)
  {
    hide Below;
    PagesFit(o, i);
    PresentableChecks(o, table, followed);
  }

  /** Reads page after page. For any session, a successful journey shows acceptable rows in strictly
      descending order below the start. Over a fixed list it shows exactly the first pages * limit
      rows below the start, no row skipped or repeated, reports truncation exactly when rows remain,
      and fails exactly when the list itself, the minimum sizes or the close are at fault. */
  method ReadJourney(o: Options, s: Session, ghost table: seq<Row>, ghost followed: set<nat>)
    returns (r: Journey, ghost read: seq<Row>)
    requires o.Valid()
    ensures r.failure.None? ==>
      && ValidPage(read, o.viewer, o.before, Budget(o)) && |read| <= Budget(o)
      && (forall i :: 0 <= i < |read| ==> Showable(read[i], o.viewer) && Descends(read, i, o.before))
      && r.rows == |read| && r.pages == PagesFor(|read|, o.limit)
    ensures Serves(s, table, followed) ==>
      var rows := Below(table, o.before);
      var shown := First(rows, Budget(o));
      && (r.failure.None? <==>
            && Presentable(o, table, followed) && s.closes
            && PagesFor(|shown|, o.limit) >= o.minPages && |shown| >= o.minRows)
      && (r.failure.None? ==>
            r.rows == |shown| && r.pages == PagesFor(|shown|, o.limit) && (r.truncated <==> |rows| > Budget(o)))
    ensures Serves(s, table, followed) && r.failure.None? ==> read == First(Below(table, o.before), Budget(o))
  {
    hide *;
    r, read := Journey(0, 0, false, None), [];
    var before, i, more := o.before, 0, true;
    JourneyStart(o, r);
    TableStart(o, Below(table, o.before), followed);
    while more && i < o.pages
      invariant i <= o.pages && (more || i > 0)
      invariant Walked(o, read, before) && Tallied(o, i, read, r, more)
      invariant Serves(s, table, followed) ==> OnTable(o, Below(table, o.before), followed, i, read, before, more)
      decreases o.pages - i
    {
      if Serves(s, table, followed) {
        TableStep(o, s, table, followed, i, read, before);
      }
      var failure, page, next := ReadPage(o, s, before);
      if failure.Some? {
        r := r.(failure := failure);
        return;
      }
      PageIsValid(o, s, before);
      FirstSize(s.candidates(before, o.limit + 1).value, o.limit);
      TallyOn(o, i, read, r, page, next);
      more := next;
      if page == [] {
        assert read + page == read;
      } else {
        WalkOn(o, read, before, page);
        before := page[|page| - 1].id;
      }
      read := read + page;
      r := Tally(o, i, r, page, more);
      i := i + 1;
    }
    JourneyEnd(o, i, read, before, r, more);
    PageMeans(read, o.viewer, o.before, Budget(o));
    if Serves(s, table, followed) {
      TableEnd(o, table, followed, i, read, before, more);
    }
    if r.pages < o.minPages || r.rows < o.minRows {
      r := r.(failure := Some(InsufficientFixture));
    } else if !s.closes {
      r := r.(failure := Some(CloseFailed));
    }
  }

  lemma JourneyStart(o: Options, r: Journey)
    requires o.Valid() && r == Journey(0, 0, false, None)
    ensures Tallied(o, 0, [], r, true) && 0 < o.pages && 0 < o.limit
  {
  }

  lemma FirstSize(rows: seq<Row>, n: nat)
    ensures |First(rows, n)| == if |rows| > n then n else |rows|
  {
  }

  lemma PagesFit(o: Options, i: nat)
    requires i <= o.pages
    ensures i * o.limit <= Budget(o)
  {
    FewerPages(i, o.pages, o.limit);
  }

  lemma JourneyEnd(o: Options, i: nat, read: seq<Row>, before: nat, r: Journey, more: bool)
    requires o.Valid() && i <= o.pages && Walked(o, read, before) && Tallied(o, i, read, r, more)
    ensures ValidPage(read, o.viewer, o.before, Budget(o)) && r.failure.None? && r.rows == |read|
    ensures r.pages == PagesFor(|read|, o.limit) && r.truncated == (more && i == o.pages)
  {
    hide AllAcceptable;
    hide Descending;
    hide PagesFor;
    FullPages(i, 0, o.limit);
    PagesFit(o, i);
  }
}
