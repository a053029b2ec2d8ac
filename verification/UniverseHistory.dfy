/** The paged history of universe snapshots over runs of the loader: what the list is, and
    what a reader misses who turns its pages while universes are announced. */
module UniverseHistory {
  import opened Collections
  import opened Paging
  import opened SortedKeys
  import opened UniverseTables

  // ----- the list is ordered by the latest announcement

  function Without(us: seq<Universe>, u: Universe): seq<Universe> {
    if us == [] then [] else (if us[0] == u then [] else [us[0]]) + Without(us[1..], u)
  }

  /** The universes announced so far, the one announced latest first. */
  ghost function Recency(h: seq<Event>): seq<Universe> {
    if h == [] then []
    else
      var before := Recency(h[..|h| - 1]);
      match h[|h| - 1]
      case Announce(u, _) => [u] + Without(before, u)
      case Populate(_) => before
  }

  ghost predicate Descends(snapshots: map<Checksum, Snapshot>, us: seq<Universe>) {
    && (forall i :: 0 <= i < |us| ==> Digest(us[i]) in snapshots)
    && (forall i, j :: 0 <= i < j < |us| ==> snapshots[Digest(us[i])].version > snapshots[Digest(us[j])].version)
  }

  lemma {:induction false} WithoutElements(us: seq<Universe>, u: Universe)
    ensures forall x :: x in Without(us, u) <==> x in us && x != u
  {
    if us != [] {
      WithoutElements(us[1..], u);
      assert us == [us[0]] + us[1..];
    }
  }

  lemma {:induction false} WithoutDescends(snapshots: map<Checksum, Snapshot>, us: seq<Universe>, u: Universe)
    requires Descends(snapshots, us)
    ensures Descends(snapshots, Without(us, u))
  {
    if us != [] {
      WithoutDescends(snapshots, us[1..], u);
      WithoutElements(us[1..], u);
      var rest := Without(us[1..], u);
      forall j | 0 <= j < |rest|
        ensures Digest(rest[j]) in snapshots && snapshots[Digest(us[0])].version > snapshots[Digest(rest[j])].version
      {
        assert rest[j] in us[1..];
      }
    }
  }

  lemma DescendsOn(s: map<Checksum, Snapshot>, t: map<Checksum, Snapshot>, us: seq<Universe>)
    requires Descends(s, us)
    requires forall u <- us :: Digest(u) in s && Digest(u) in t && t[Digest(u)].version == s[Digest(u)].version
    ensures Descends(t, us)
  {
  }

  lemma AnnouncedDescends(db: Db, us: seq<Universe>, u: Universe, today: int)
    requires Descends(db.snapshots, us) && forall x :: x in us <==> Digest(x) in db.snapshots
    ensures var after := Announced(db, u, today).snapshots;
            Descends(after, [u] + Without(us, u)) && forall x :: x in [u] + Without(us, u) <==> Digest(x) in after
  {
    var after, rest := Announced(db, u, today).snapshots, Without(us, u);
    WithoutElements(us, u);
    WithoutDescends(db.snapshots, us, u);
    DescendsOn(db.snapshots, after, rest);
    forall j | 0 <= j < |rest| ensures after[Digest(u)].version > after[Digest(rest[j])].version {
      assert rest[j] in rest;
    }
  }

  /** In every history the snapshots are those of the universes announced, and their versions
      order them by their latest announcement. */
  lemma {:induction false} RecencyIs(h: seq<Event>, db: Db)
    requires After(h, db)
    ensures Descends(db.snapshots, Recency(h)) && forall x :: x in Recency(h) <==> Digest(x) in db.snapshots
    decreases |h|
  {
    if h != [] {
      var front, last := h[..|h| - 1], h[|h| - 1];
      var d :| After(front, d) && Possible(d, last) && db == Step(d, last);
      RecencyIs(front, d);
      if last.Announce? {
        AnnouncedDescends(d, Recency(front), last.u, last.today);
      }
    }
  }

  ghost function ByVersion(db: Db): map<int, Snapshot>
    requires Numbered(db)
  {
    map c | c in db.snapshots :: db.snapshots[c].version := db.snapshots[c]
  }

  ghost function SnapshotsOf(db: Db, us: seq<Universe>): seq<Snapshot>
    requires Descends(db.snapshots, us)
  {
    seq(|us|, i requires 0 <= i < |us| => db.snapshots[Digest(us[i])])
  }

  ghost predicate Passes(s: Snapshot, f: Filter) {
    (f.status.Some? ==> s.status == f.status.value) && (f.version.Some? ==> s.version == f.version.value)
  }

  lemma SelectedVersions(db: Db, f: Filter, us: seq<Universe>, v: int)
    requires Names(db, f, us)
    ensures v in Selected(ByVersion(db), f) <==> exists i :: 0 <= i < |us| && db.snapshots[Digest(us[i])].version == v
  {
    if v in Selected(ByVersion(db), f) {
      var c :| c in db.snapshots && db.snapshots[c].version == v;
      assert Passes(db.snapshots[c], f);
      var i :| 0 <= i < |us| && us[i] == c.underlyings;
      assert Digest(us[i]) == c;
    }
    if i :| 0 <= i < |us| && db.snapshots[Digest(us[i])].version == v {
      var c := Digest(us[i]);
      assert c in db.snapshots && c.underlyings in us && Passes(db.snapshots[c], f);
      assert v in ByVersion(db) && ByVersion(db)[v] == db.snapshots[c];
    }
  }

  /** The query returns the snapshots of `us`, in that order. */
  ghost predicate Lists(db: Db, f: Filter, us: seq<Universe>) {
    Numbered(db) && Descends(db.snapshots, us) && History(ByVersion(db), f) == SnapshotsOf(db, us)
  }

  ghost function VersionsOf(db: Db, us: seq<Universe>): seq<int>
    requires Descends(db.snapshots, us)
  {
    seq(|us|, i requires 0 <= i < |us| => db.snapshots[Digest(us[i])].version)
  }

  /** `us` names the snapshots that pass. */
  ghost predicate Names(db: Db, f: Filter, us: seq<Universe>) {
    && Numbered(db) && Descends(db.snapshots, us)
    && forall c <- db.snapshots :: Passes(db.snapshots[c], f) <==> c.underlyings in us
  }

  lemma VersionsAre(db: Db, f: Filter, us: seq<Universe>)
    requires Names(db, f, us)
    ensures Versions(ByVersion(db), f) == VersionsOf(db, us)
  {
    var t, vs := ByVersion(db), VersionsOf(db, us);
    forall v ensures v in vs <==> v in Selected(t, f) {
      SelectedVersions(db, f, us, v);
      if v in Selected(t, f) {
        var i :| 0 <= i < |us| && db.snapshots[Digest(us[i])].version == v;
        assert vs[i] == v;
      }
    }
    SortedUnique(Selected(t, f), IntGe, vs);
  }

  lemma RowAt(db: Db, us: seq<Universe>, i: nat)
    requires Numbered(db) && Descends(db.snapshots, us) && i < |us|
    ensures VersionsOf(db, us)[i] in ByVersion(db) && ByVersion(db)[VersionsOf(db, us)[i]] == SnapshotsOf(db, us)[i]
  {
    assert Digest(us[i]) in db.snapshots;
  }

  lemma HistoryLists(db: Db, f: Filter, us: seq<Universe>)
    requires Names(db, f, us)
    ensures Lists(db, f, us)
  {
    VersionsAre(db, f, us);
    var listed, shown := SnapshotsOf(db, us), History(ByVersion(db), f);
    forall i | 0 <= i < |us| ensures shown[i] == listed[i] {
      RowAt(db, us, i);
    }
  }

  const ALL := Filter(None, None)

  function First<T>(xs: seq<T>): seq<T> { xs[..Min(1, |xs|)] }

  function Rest<T>(xs: seq<T>, offset: nat): seq<T> { xs[Min(offset, |xs|)..] }

  lemma {:induction false} LatestIsCurrent(h: seq<Event>)
    ensures Recency(h) == [] <==> Current(h) == None
    ensures Recency(h) != [] ==> Current(h) == Some(Recency(h)[0])
  {
    if h != [] {
      LatestIsCurrent(h[..|h| - 1]);
    }
  }

  lemma DescendsParts(s: map<Checksum, Snapshot>, us: seq<Universe>)
    requires Descends(s, us)
    ensures Descends(s, First(us)) && Descends(s, Rest(us, 1))
    ensures forall x :: x in us <==> x in First(us) || x in Rest(us, 1)
    ensures us != [] ==> us[0] !in Rest(us, 1) && First(us) == [us[0]]
  {
    assert us == First(us) + Rest(us, 1);
  }

  lemma StatusByPlace(h: seq<Event>, db: Db, c: Checksum)
    requires After(h, db) && c in db.snapshots
    ensures c.underlyings in Recency(h)
    ensures db.snapshots[c].status == ACTIVE <==> c.underlyings in First(Recency(h))
    ensures db.snapshots[c].status == SUPERSEDED <==> c.underlyings in Rest(Recency(h), 1)
  {
    SnapshotTableSound(h, db);
    RecencyIs(h, db);
    LatestIsCurrent(h);
    DescendsParts(db.snapshots, Recency(h));
    assert c == Digest(c.underlyings);
  }

  /** The status filters split a list after its first row. */
  function WithStatus<T>(xs: seq<T>, status: Option<Status>): seq<T> {
    match status
    case None => xs
    case Some(ACTIVE) => First(xs)
    case Some(SUPERSEDED) => Rest(xs, 1)
  }

  /** The universes by their latest announcement, as far as they pass the filter. */
  ghost function Listed(h: seq<Event>, status: Option<Status>): seq<Universe> { WithStatus(Recency(h), status) }

  lemma ListedIffPasses(h: seq<Event>, db: Db, status: Option<Status>, c: Checksum)
    requires After(h, db) && c in db.snapshots
    ensures Passes(db.snapshots[c], Filter(status, None)) <==> c.underlyings in Listed(h, status)
  {
    StatusByPlace(h, db, c);
  }

  lemma ListedDescends(h: seq<Event>, db: Db, status: Option<Status>)
    requires After(h, db)
    ensures Descends(db.snapshots, Listed(h, status))
  {
    RecencyIs(h, db);
    DescendsParts(db.snapshots, Recency(h));
  }

  lemma NamedByStatus(h: seq<Event>, db: Db, status: Option<Status>)
    requires After(h, db)
    ensures Names(db, Filter(status, None), Listed(h, status))
  {
    SnapshotTableSound(h, db);
    ListedDescends(h, db, status);
    forall c | c in db.snapshots
      ensures Passes(db.snapshots[c], Filter(status, None)) <==> c.underlyings in Listed(h, status)
    {
      ListedIffPasses(h, db, status, c);
    }
  }

  /** What the history lists in every reachable state. */
  lemma HistoryOfRun(h: seq<Event>, db: Db, status: Option<Status>)
    requires After(h, db)
    ensures Lists(db, Filter(status, None), Listed(h, status))
  {
    NamedByStatus(h, db, status);
    HistoryLists(db, Filter(status, None), Listed(h, status));
  }

  // ----- what moves in front of a universe

  ghost function AnnouncedIn(more: seq<Event>): set<Universe> {
    if more == [] then {}
    else AnnouncedIn(more[..|more| - 1]) + if more[|more| - 1].Announce? then {more[|more| - 1].u} else {}
  }

  /** The universes announced since the latest announcement of `x`, itself included. */
  ghost function Since(more: seq<Event>, x: Universe): set<Universe> {
    if more == [] then {}
    else
      var before, last := Since(more[..|more| - 1], x), more[|more| - 1];
      if !last.Announce? then before
      else if last.u == x then {x}
      else if before == {} then {} else before + {last.u}
  }

  ghost function Before(us: seq<Universe>, x: Universe): set<Universe> {
    if us == [] || us[0] == x then {} else {us[0]} + Before(us[1..], x)
  }

  lemma {:induction false} BeforeWithout(us: seq<Universe>, u: Universe, x: Universe)
    requires u != x
    ensures Before(Without(us, u), x) == Before(us, x) - {u}
  {
    if us != [] {
      BeforeWithout(us[1..], u, x);
      if us[0] != u {
        var rest := Without(us[1..], u);
        assert ([us[0]] + rest)[1..] == rest;
      } else {
        assert [] + Without(us[1..], u) == Without(us[1..], u);
      }
    }
  }

  lemma BeforeAnnounced(us: seq<Universe>, u: Universe, x: Universe)
    ensures Before([u] + Without(us, u), x) == if u == x then {} else Before(us, x) + {u}
  {
    assert ([u] + Without(us, u))[1..] == Without(us, u);
    if u != x {
      BeforeWithout(us, u, x);
    }
  }

  lemma {:induction false} SinceIs(more: seq<Event>, x: Universe)
    ensures Since(more, x) != {} <==> x in AnnouncedIn(more)
    ensures x in AnnouncedIn(more) ==> x in Since(more, x)
  {
    if more != [] {
      SinceIs(more[..|more| - 1], x);
    }
  }

  /** After more transactions, what is listed before `x` is what was announced since `x`, or,
      if `x` was not announced again, all that was announced joins what was before it. */
  lemma {:induction false} BeforeMore(h: seq<Event>, more: seq<Event>, x: Universe)
    ensures Before(Recency(h + more), x)
         == if x in AnnouncedIn(more) then Since(more, x) - {x} else Before(Recency(h), x) + AnnouncedIn(more)
  {
    if more == [] {
      assert h + more == h;
    } else {
      var front, last := more[..|more| - 1], more[|more| - 1];
      assert (h + more)[..|h + more| - 1] == h + front && (h + more)[|h + more| - 1] == last;
      BeforeMore(h, front, x);
      SinceIs(front, x);
      if last.Announce? {
        BeforeAnnounced(Recency(h + front), last.u, x);
      }
    }
  }

  ghost predicate Unique<T>(xs: seq<T>) { forall i, j :: 0 <= i < j < |xs| ==> xs[i] != xs[j] }

  lemma UniqueCons<T>(x: T, xs: seq<T>)
    requires Unique(xs) && x !in xs
    ensures Unique([x] + xs)
  {
  }

  lemma {:induction false} RecencyUnique(h: seq<Event>)
    ensures Unique(Recency(h))
  {
    if h != [] {
      var before, last := Recency(h[..|h| - 1]), h[|h| - 1];
      RecencyUnique(h[..|h| - 1]);
      if last.Announce? {
        WithoutUnique(before, last.u);
        WithoutElements(before, last.u);
        UniqueCons(last.u, Without(before, last.u));
      }
    }
  }

  lemma {:induction false} WithoutUnique(us: seq<Universe>, u: Universe)
    requires Unique(us)
    ensures Unique(Without(us, u))
  {
    if us != [] {
      var rest := Without(us[1..], u);
      assert Unique(us[1..]) && us[0] !in us[1..];
      WithoutUnique(us[1..], u);
      WithoutElements(us[1..], u);
      UniqueCons(us[0], rest);
      assert [] + rest == rest;
    }
  }

  lemma {:induction false} BeforeAt(us: seq<Universe>, k: nat)
    requires k < |us| && Unique(us)
    ensures Before(us, us[k]) == Elements(us[..k])
  {
    if k > 0 {
      var rest := us[1..];
      assert Unique(rest) && rest[k - 1] == us[k] && us[0] != us[k];
      BeforeAt(rest, k - 1);
      assert us[..k] == [us[0]] + rest[..k - 1];
      assert Elements(us[..k]) == {us[0]} + Elements(rest[..k - 1]);
    } else {
      assert us[..0] == [];
    }
  }

  lemma CountBefore(us: seq<Universe>, k: nat)
    requires k < |us| && Unique(us)
    ensures |Before(us, us[k])| == k
  {
    BeforeAt(us, k);
    UniqueCount(us[..k]);
  }

  lemma RestAt<T>(xs: seq<T>, offset: nat, k: nat)
    requires k < |xs| && Unique(xs)
    ensures xs[k] in Rest(xs, offset) <==> k >= offset
  {
    if k >= offset {
      assert Rest(xs, offset)[k - offset] == xs[k];
    }
  }

  lemma RestIs(us: seq<Universe>, offset: nat, x: Universe)
    requires Unique(us)
    ensures x in Rest(us, offset) <==> x in us && |Before(us, x)| >= offset
  {
    if x in us {
      var k :| 0 <= k < |us| && us[k] == x;
      CountBefore(us, k);
      RestAt(us, offset, k);
    }
  }

  lemma {:induction false} StaysListed(h: seq<Event>, more: seq<Event>, x: Universe)
    ensures x in Recency(h + more) <==> x in Recency(h) || x in AnnouncedIn(more)
  {
    if more == [] {
      assert h + more == h;
    } else {
      var front, last := more[..|more| - 1], more[|more| - 1];
      assert (h + more)[..|h + more| - 1] == h + front && (h + more)[|h + more| - 1] == last;
      StaysListed(h, front, x);
      if last.Announce? {
        WithoutElements(Recency(h + front), last.u);
      }
    }
  }

  /** A universe from `offset` on is found from there on after more transactions exactly when
      it was not announced again, or more than `offset` universes were since it was. */
  lemma StillUnreadIff(h: seq<Event>, more: seq<Event>, offset: nat, x: Universe)
    requires x in Rest(Recency(h), offset)
    ensures x in Rest(Recency(h + more), offset) <==> x !in AnnouncedIn(more) || |Since(more, x)| > offset
  {
    RecencyUnique(h);
    RecencyUnique(h + more);
    RestIs(Recency(h), offset, x);
    RestIs(Recency(h + more), offset, x);
    StaysListed(h, more, x);
    BeforeMore(h, more, x);
    SinceIs(more, x);
    if x in AnnouncedIn(more) {
      assert Since(more, x) == (Since(more, x) - {x}) + {x};
    } else {
      SubsetCount(Before(Recency(h), x), Before(Recency(h), x) + AnnouncedIn(more));
    }
  }

  // ----- turning the pages

  ghost predicate OnLaterPage(db: Db, f: Filter, page: nat, limit: nat, x: Universe)
    requires Numbered(db)
  {
    exists q :: q > page && Shows(db, f, q, limit, x)
  }

  ghost predicate Shows(db: Db, f: Filter, page: nat, limit: nat, x: Universe)
    requires Numbered(db)
  {
    Digest(x) in db.snapshots && db.snapshots[Digest(x)] in Slice(History(ByVersion(db), f), Offset(page, limit), limit)
  }

  lemma {:induction false} LaterPages<T>(xs: seq<T>, page: nat, limit: nat, k: nat) returns (q: nat)
    requires limit >= 1 && page >= 1 && 0 <= Offset(page, limit) <= k < |xs|
    ensures q >= page && xs[k] in Slice(xs, Offset(q, limit), limit)
    decreases k - Offset(page, limit)
  {
    OffsetStep(page, limit);
    if k < Offset(page + 1, limit) {
      q := page;
      assert Slice(xs, Offset(q, limit), limit)[k - Offset(q, limit)] == xs[k];
    } else {
      q := LaterPages(xs, page + 1, limit, k);
    }
  }

  lemma SliceStartsAt<T>(xs: seq<T>, offset: nat, limit: nat, x: T) returns (k: nat)
    requires x in Slice(xs, offset, limit)
    ensures offset <= k < |xs| && xs[k] == x
  {
    var a := Min(offset, |xs|);
    var i :| 0 <= i < |Slice(xs, offset, limit)| && Slice(xs, offset, limit)[i] == x;
    k := a + i;
  }

  /** Ids are distinct, so a row tells its universe. */
  lemma RowNames(db: Db, us: seq<Universe>, k: nat, x: Universe)
    requires Numbered(db) && Descends(db.snapshots, us) && k < |us| && Digest(x) in db.snapshots
    requires SnapshotsOf(db, us)[k] == db.snapshots[Digest(x)]
    ensures us[k] == x
  {
    assert db.snapshots[Digest(us[k])].id == db.snapshots[Digest(x)].id;
  }

  lemma ShownIsInRest(db: Db, f: Filter, us: seq<Universe>, q: nat, limit: nat, x: Universe, offset: nat)
    requires limit >= 1 && Lists(db, f, us) && Shows(db, f, q, limit, x) && offset <= Offset(q, limit)
    ensures x in Rest(us, offset)
  {
    var k := SliceStartsAt(SnapshotsOf(db, us), Offset(q, limit), limit, db.snapshots[Digest(x)]);
    RowNames(db, us, k, x);
    InRest(us, offset, k);
  }

  lemma InRest<T>(xs: seq<T>, offset: nat, k: nat)
    requires offset <= k < |xs|
    ensures xs[k] in Rest(xs, offset)
  {
    assert Rest(xs, offset)[k - offset] == xs[k];
  }

  lemma RestIsShown(db: Db, f: Filter, us: seq<Universe>, page: nat, limit: nat, offset: nat, x: Universe)
    requires limit >= 1 && Lists(db, f, us) && offset == Offset(page + 1, limit) && x in Rest(us, offset)
    ensures OnLaterPage(db, f, page, limit, x)
  {
    var i :| 0 <= i < |Rest(us, offset)| && Rest(us, offset)[i] == x;
    var rows, k := SnapshotsOf(db, us), offset + i;
    assert us[k] == x && rows[k] == db.snapshots[Digest(x)];
    var q := LaterPages(rows, page + 1, limit, k);
    assert Shows(db, f, q, limit, x);
  }

  lemma LaterPagesAreRest(db: Db, f: Filter, us: seq<Universe>, page: nat, limit: nat, offset: nat, x: Universe)
    requires limit >= 1 && Lists(db, f, us) && offset == Offset(page + 1, limit)
    ensures OnLaterPage(db, f, page, limit, x) <==> x in Rest(us, offset)
  {
    if OnLaterPage(db, f, page, limit, x) {
      var q :| q > page && Shows(db, f, q, limit, x);
      OffsetsAscend(page + 1, q, limit);
      ShownIsInRest(db, f, us, q, limit, x, offset);
    }
    if x in Rest(us, offset) {
      RestIsShown(db, f, us, page, limit, offset, x);
    }
  }

  /** The rows a reader passes over without seeing: unfiltered the list starts with the
      current universe, filtered for SUPERSEDED with the one before it. */
  ghost function Shift(status: Option<Status>): nat { if status == Some(SUPERSEDED) then 1 else 0 }

  lemma RestTwice<T>(xs: seq<T>, k: nat, offset: nat)
    ensures Rest(Rest(xs, k), offset) == Rest(xs, offset + k)
  {
    var m := Min(k, |xs|);
    assert xs[m..][Min(offset, |xs| - m)..] == xs[m + Min(offset, |xs| - m)..];
  }

  lemma RestWithStatus<T>(xs: seq<T>, status: Option<Status>, offset: nat)
    requires status != Some(ACTIVE)
    ensures Rest(WithStatus(xs, status), offset) == Rest(xs, offset + Shift(status))
  {
    if status.Some? {
      RestTwice(xs, 1, offset);
    }
  }

  lemma UnreadIs(h: seq<Event>, db: Db, status: Option<Status>, page: nat, limit: nat, offset: nat, x: Universe)
    requires After(h, db) && limit >= 1 && status != Some(ACTIVE) && offset == Offset(page + 1, limit)
    ensures Numbered(db)
    ensures OnLaterPage(db, Filter(status, None), page, limit, x) <==> x in Rest(Recency(h), offset + Shift(status))
  {
    HistoryOfRun(h, db, status);
    RestWithStatus(Recency(h), status, offset);
    LaterPagesAreRest(db, Filter(status, None), Listed(h, status), page, limit, offset, x);
  }

  /** A reader has read the pages up to `page`; then more transactions happen. A snapshot that
      was still to come is still to come exactly when its universe was not announced again, or
      enough others were since to push it back behind what was read. */
  lemma SkippedUnless(h: seq<Event>, db: Db, more: seq<Event>, db': Db, status: Option<Status>,
      page: nat, limit: nat, x: Universe)
    requires After(h, db) && After(h + more, db') && limit >= 1 && status != Some(ACTIVE)
    requires Numbered(db) && Numbered(db') && OnLaterPage(db, Filter(status, None), page, limit, x)
    ensures OnLaterPage(db', Filter(status, None), page, limit, x)
            <==> x !in AnnouncedIn(more) || |Since(more, x)| > Offset(page + 1, limit) + Shift(status)
  {
    OffsetStep(page + 1, limit);
    var offset: nat := Offset(page + 1, limit);
    UnreadIs(h, db, status, page, limit, offset, x);
    UnreadIs(h + more, db', status, page, limit, offset, x);
    StillUnreadIff(h, more, offset + Shift(status), x);
  }

  lemma OneAnnouncement(u: Universe, today: int)
    ensures AnnouncedIn([Announce(u, today)]) == {u} && Since([Announce(u, today)], u) == {u}
  {
    var more := [Announce(u, today)];
    assert more[..0] == [];
    assert AnnouncedIn(more[..0]) == {} && Since(more[..0], u) == {};
  }

  lemma SkippedIsAnnounced(h: seq<Event>, db: Db, u: Universe, today: int, db': Db, page: nat, limit: nat, x: Universe)
    requires After(h, db) && After(h + [Announce(u, today)], db') && page >= 1 && limit >= 1
    requires Numbered(db) && Numbered(db') && OnLaterPage(db, ALL, page, limit, x)
    ensures OnLaterPage(db', ALL, page, limit, x) <==> x != u
  {
    OneAnnouncement(u, today);
    OffsetStep(page, limit);
    SkippedUnless(h, db, [Announce(u, today)], db', None, page, limit, x);
  }

  /** One announcement after at least one page was read: nothing unread is skipped exactly
      when the announced universe is new or its row was read already. */
  lemma NothingSkippedIff(h: seq<Event>, db: Db, u: Universe, today: int, db': Db, page: nat, limit: nat)
    requires After(h, db) && After(h + [Announce(u, today)], db') && page >= 1 && limit >= 1
    requires Numbered(db) && Numbered(db')
    ensures (forall x :: OnLaterPage(db, ALL, page, limit, x) ==> OnLaterPage(db', ALL, page, limit, x))
            <==> !OnLaterPage(db, ALL, page, limit, u)
  {
    forall x | OnLaterPage(db, ALL, page, limit, x) ensures OnLaterPage(db', ALL, page, limit, x) <==> x != u {
      SkippedIsAnnounced(h, db, u, today, db', page, limit, x);
    }
  }

  lemma AnnounceNext(h: seq<Event>, db: Db, u: Universe, today: int)
    requires After(h, db)
    ensures After(h + [Announce(u, today)], Announced(db, u, today))
    ensures Recency(h + [Announce(u, today)]) == [u] + Without(Recency(h), u)
  {
    var all := h + [Announce(u, today)];
    assert all[..|all| - 1] == h && all[|all| - 1] == Announce(u, today);
    assert Possible(db, all[|all| - 1]) && Announced(db, u, today) == Step(db, all[|all| - 1]);
  }

  lemma {:induction false} WithoutNothing(us: seq<Universe>, u: Universe)
    requires u !in us
    ensures Without(us, u) == us
  {
    if us != [] {
      WithoutNothing(us[1..], u);
    }
  }

  lemma AnnounceNew(h: seq<Event>, db: Db, us: seq<Universe>, u: Universe, today: int) returns (h': seq<Event>, db': Db)
    requires After(h, db) && Recency(h) == us && u !in us
    ensures After(h', db') && Recency(h') == [u] + us
  {
    AnnounceNext(h, db, u, today);
    WithoutNothing(us, u);
    h', db' := h + [Announce(u, today)], Announced(db, u, today);
  }

  lemma ThreeAnnounced(a: Universe, b: Universe, c: Universe, today: int) returns (h: seq<Event>, db: Db)
    requires a != b && a != c && b != c
    ensures After(h, db) && Recency(h) == [c, b, a]
  {
    h, db := AnnounceNew([], NO_ROWS, [], a, today);
    assert [a] + [] == [a];
    h, db := AnnounceNew(h, db, [a], b, today);
    h, db := AnnounceNew(h, db, [b, a], c, today);
  }

  /** Three universes, one row a page, the first page read; then the oldest one returns. It was
      still to come, and now no page from the second on shows it. */
  lemma ReturningUniverseIsSkipped(a: Universe, b: Universe, c: Universe, today: int)
    returns (h: seq<Event>, db: Db, db': Db)
    requires a != b && a != c && b != c
    ensures After(h, db) && Numbered(db) && After(h + [Announce(a, today)], db') && Numbered(db')
    ensures OnLaterPage(db, ALL, 1, 1, a) && !OnLaterPage(db', ALL, 1, 1, a)
  {
    h, db := ThreeAnnounced(a, b, c, today);
    db' := Announced(db, a, today);
    AnnounceNext(h, db, a, today);
    assert Offset(2, 1) == 1 && Rest(Recency(h), 1) == [b, a];
    UnreadIs(h, db, None, 1, 1, 1, a);
    SnapshotTableSound(h + [Announce(a, today)], db');
    SkippedIsAnnounced(h, db, a, today, db', 1, 1, a);
  }
}
