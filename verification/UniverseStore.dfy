/** The F&O universe tables: snapshots keyed by checksum, memberships keyed by instrument.
    A loader run is two transactions; a run may stop between them and runs may overlap. */
module UniverseTables {
  import opened Collections

  type Universe = set<string>

  /** Stands for the SHA-256 of the sorted list: different universes, different checksums. */
  datatype Checksum = Digest(underlyings: Universe)

  datatype Status = ACTIVE | SUPERSEDED

  datatype Snapshot = Snapshot(id: int, version: int, status: Status, effectiveFrom: int,
                               equityCount: int, indexCount: int, constituentCount: int)

  datatype Member = Member(snapshotId: int, underlying: string, status: Status)

  datatype Db = Db(snapshots: map<Checksum, Snapshot>, members: map<string, Member>, nextId: int)

  const INDEX_SYMBOLS: set<string> := {
    "NIFTY", "BANKNIFTY", "FINNIFTY", "MIDCPNIFTY", "NIFTYNXT50", "BANKEX", "SENSEX", "INDIAVIX"
  }

  function InstrumentId(underlying: string): string { "NSE:" + underlying }

  /** `LIKE '%TEST%'` */
  predicate IsSynthetic(id: string) {
    |id| >= 4 && (id[..4] == "TEST" || IsSynthetic(id[1..]))
  }

  /** Some stretch of `s` is `TEST`. */
  ghost predicate HasTest(s: string) { exists p, q :: s == p + "TEST" + q }

  lemma {:induction false} TestIsFound(p: string, q: string)
    ensures IsSynthetic(p + "TEST" + q)
  {
    var id := p + "TEST" + q;
    if p == [] {
      assert id[..4] == "TEST";
    } else {
      assert id[1..] == p[1..] + "TEST" + q;
      TestIsFound(p[1..], q);
    }
  }

  lemma {:induction false} FoundIsTest(id: string)
    requires IsSynthetic(id)
    ensures HasTest(id)
  {
    if id[..4] == "TEST" {
      assert id == [] + "TEST" + id[4..];
    } else {
      FoundIsTest(id[1..]);
      var p, q :| id[1..] == p + "TEST" + q;
      assert id == ([id[0]] + p) + "TEST" + q;
    }
  }

  lemma SyntheticIff(id: string)
    ensures IsSynthetic(id) <==> HasTest(id)
  {
    if IsSynthetic(id) {
      FoundIsTest(id);
    }
    if p, q :| id == p + "TEST" + q {
      TestIsFound(p, q);
    }
  }

  /** The prefix of an id has no part in it: an id is synthetic exactly when its underlying's
      name has `TEST` in it. */
  lemma SyntheticIdIff(x: string)
    ensures IsSynthetic("NSE:" + x) <==> HasTest(x)
  {
    var id := "NSE:" + x;
    SyntheticIff(id);
    if HasTest(x) {
      var p, q :| x == p + "TEST" + q;
      assert id == ("NSE:" + p) + "TEST" + q;
    }
    if HasTest(id) {
      var p, q :| id == p + "TEST" + q;
      assert id[|p|] == 'T';
      assert id[0] == 'N' && id[1] == 'S' && id[2] == 'E' && id[3] == ':';
      assert id[4..] == x && x == p[4..] + "TEST" + q;
    }
  }

  // ----- the two transactions

  ghost predicate IsMaxVersion(snapshots: map<Checksum, Snapshot>, v: int) {
    && (forall c <- snapshots :: snapshots[c].version <= v)
    && (if snapshots == map[] then v == 0 else exists c <- snapshots :: snapshots[c].version == v)
  }

  lemma {:induction false} MaxVersionExists(snapshots: map<Checksum, Snapshot>) returns (v: int)
    ensures IsMaxVersion(snapshots, v)
    decreases |snapshots|
  {
    if snapshots == map[] {
      v := 0;
    } else {
      var c := Pick(snapshots.Keys);
      var rest := snapshots - {c};
      v := MaxVersionExists(rest);
      if rest == map[] || snapshots[c].version > v {
        v := snapshots[c].version;
      }
      assert forall d <- snapshots :: d == c || d in rest;
    }
  }

  ghost function MaxVersion(snapshots: map<Checksum, Snapshot>): (v: int)
    ensures IsMaxVersion(snapshots, v)
  {
    assert exists v :: IsMaxVersion(snapshots, v) by {
      var v := MaxVersionExists(snapshots);
    }
    var v :| IsMaxVersion(snapshots, v);
    v
  }

  ghost function Superseded(snapshots: map<Checksum, Snapshot>): map<Checksum, Snapshot> {
    map c | c in snapshots :: snapshots[c].(status := SUPERSEDED)
  }

  function NewSnapshot(id: int, version: int, u: Universe, today: int): Snapshot {
    Snapshot(id, version, ACTIVE, today, |u - INDEX_SYMBOLS|, |u * INDEX_SYMBOLS|, |u|)
  }

  /** First transaction: supersede everything, then insert or reactivate this universe. */
  ghost function Announced(db: Db, u: Universe, today: int): Db {
    var version := MaxVersion(db.snapshots) + 1;
    var row := if Digest(u) in db.snapshots then db.snapshots[Digest(u)].(status := ACTIVE, version := version)
               else NewSnapshot(db.nextId, version, u, today);
    db.(snapshots := Superseded(db.snapshots)[Digest(u) := row], nextId := db.nextId + 1)
  }

  function UnderlyingOf(id: string): string { if |id| >= 4 then id[4..] else "" }

  ghost function Ids(u: Universe): set<string> { set x | x in u :: InstrumentId(x) }

  ghost function Pointed(members: map<string, Member>, u: Universe, snapshotId: int): map<string, Member> {
    members + map k | k in Ids(u) :: Member(snapshotId, UnderlyingOf(k), ACTIVE)
  }

  /** Second transaction: every underlying's membership points to this universe's snapshot. */
  ghost function Populated(db: Db, u: Universe, snapshotId: int): Db {
    db.(members := Pointed(db.members, u, snapshotId))
  }

  // ----- histories of transactions

  datatype Event = Announce(u: Universe, today: int) | Populate(u: Universe)

  ghost predicate Possible(db: Db, e: Event) { e.Populate? ==> Digest(e.u) in db.snapshots }

  ghost function Step(db: Db, e: Event): Db
    requires Possible(db, e)
  {
    match e
    case Announce(u, today) => Announced(db, u, today)
    case Populate(u) => Populated(db, u, db.snapshots[Digest(u)].id)
  }

  const NO_ROWS := Db(map[], map[], 1)

  ghost predicate After(h: seq<Event>, db: Db)
    decreases |h|
  {
    if h == [] then db == NO_ROWS
    else
      var front, last := h[..|h| - 1], h[|h| - 1];
      exists d :: After(front, d) && Possible(d, last) && db == Step(d, last)
  }

  lemma BeforeLast(h: seq<Event>, db: Db) returns (d: Db)
    requires After(h, db) && h != []
    ensures After(h[..|h| - 1], d) && Possible(d, h[|h| - 1]) && db == Step(d, h[|h| - 1])
  {
    d :| After(h[..|h| - 1], d) && Possible(d, h[|h| - 1]) && db == Step(d, h[|h| - 1]);
  }

  /** The universe announced last. */
  ghost function Current(h: seq<Event>): Option<Universe> {
    if h == [] then None
    else if h[|h| - 1].Announce? then Some(h[|h| - 1].u)
    else Current(h[..|h| - 1])
  }

  /** The universe of the last membership transaction that contained `x`. */
  ghost function Owner(h: seq<Event>, x: string): Option<Universe> {
    if h == [] then None
    else if h[|h| - 1].Populate? && x in h[|h| - 1].u then Some(h[|h| - 1].u)
    else Owner(h[..|h| - 1], x)
  }

  // ----- snapshot table

  ghost predicate Numbered(db: Db) {
    && (forall c <- db.snapshots :: db.snapshots[c].id < db.nextId)
    && (forall c, d :: c in db.snapshots && d in db.snapshots && c != d ==>
          db.snapshots[c].id != db.snapshots[d].id && db.snapshots[c].version != db.snapshots[d].version)
  }

  ghost function IndexNames(u: Universe): set<string> {
    set x | x in u && (x == "NIFTY" || x == "BANKNIFTY" || x == "FINNIFTY" || x == "MIDCPNIFTY"
                       || x == "NIFTYNXT50" || x == "BANKEX" || x == "SENSEX" || x == "INDIAVIX")
  }

  ghost predicate CountsOf(s: Snapshot, u: Universe) {
    s.indexCount == |IndexNames(u)| && s.equityCount + s.indexCount == s.constituentCount == |u|
  }

  /** Ids and versions are pairwise distinct and the counts are those of the universes. */
  ghost predicate SnapshotsSound(db: Db) {
    Numbered(db) && forall c <- db.snapshots :: CountsOf(db.snapshots[c], c.underlyings)
  }

  /** The current universe's snapshot is the only active one and has the greatest version. */
  ghost predicate OneActive(db: Db, current: Option<Universe>) {
    match current
    case None => db.snapshots == map[]
    case Some(u) =>
      && Digest(u) in db.snapshots && db.snapshots[Digest(u)].status == ACTIVE
      && forall c <- db.snapshots :: c != Digest(u) ==>
           db.snapshots[c].status == SUPERSEDED && db.snapshots[c].version < db.snapshots[Digest(u)].version
  }

  lemma AnnouncedCounts(id: int, version: int, u: Universe, today: int)
    ensures CountsOf(NewSnapshot(id, version, u, today), u)
  {
    var index := INDEX_SYMBOLS;
    assert u == (u - index) + (u * index);
    assert u * index == IndexNames(u);
  }

  lemma AnnounceNumbers(db: Db, u: Universe, today: int)
    requires Numbered(db)
    ensures Numbered(Announced(db, u, today)) && OneActive(Announced(db, u, today), Some(u))
  {
  }

  lemma AnnounceKeepsSound(db: Db, u: Universe, today: int)
    requires SnapshotsSound(db)
    ensures SnapshotsSound(Announced(db, u, today)) && OneActive(Announced(db, u, today), Some(u))
  {
    AnnounceNumbers(db, u, today);
    AnnouncedCounts(db.nextId, MaxVersion(db.snapshots) + 1, u, today);
    var after := Announced(db, u, today);
    forall c | c in after.snapshots ensures CountsOf(after.snapshots[c], c.underlyings) {
      assert c in db.snapshots ==> CountsOf(db.snapshots[c], c.underlyings);
    }
  }

  lemma {:induction false} SnapshotTableSound(h: seq<Event>, db: Db)
    requires After(h, db)
    ensures SnapshotsSound(db) && OneActive(db, Current(h))
    decreases |h|
  {
    if h != [] {
      var front, last := h[..|h| - 1], h[|h| - 1];
      var d :| After(front, d) && Possible(d, last) && db == Step(d, last);
      SnapshotTableSound(front, d);
      if last.Announce? {
        AnnounceKeepsSound(d, last.u, last.today);
      }
    }
  }

  /** The day on which a universe was announced first. */
  ghost function FirstDay(h: seq<Event>, u: Universe): Option<int> {
    if h == [] then None
    else
      var before := FirstDay(h[..|h| - 1], u);
      if before.Some? then before
      else if h[|h| - 1].Announce? && h[|h| - 1].u == u then Some(h[|h| - 1].today) else None
  }

  /** There is one snapshot for every universe ever announced, effective since its first
      announcement however often it comes back. */
  lemma {:induction false} EffectiveSinceFirstDay(h: seq<Event>, db: Db, u: Universe)
    requires After(h, db)
    ensures Digest(u) in db.snapshots <==> FirstDay(h, u).Some?
    ensures Digest(u) in db.snapshots ==> db.snapshots[Digest(u)].effectiveFrom == FirstDay(h, u).value
    decreases |h|
  {
    if h != [] {
      var front, last := h[..|h| - 1], h[|h| - 1];
      var d :| After(front, d) && Possible(d, last) && db == Step(d, last);
      EffectiveSinceFirstDay(front, d, u);
    }
  }

  // ----- ids and versions

  ghost function Announcements(h: seq<Event>): nat {
    if h == [] then 0 else Announcements(h[..|h| - 1]) + if h[|h| - 1].Announce? then 1 else 0
  }

  /** The number of announcements up to the first of `u`. */
  ghost function FirstRank(h: seq<Event>, u: Universe): Option<int> {
    if h == [] then None
    else
      var before := FirstRank(h[..|h| - 1], u);
      if before.Some? then before
      else if h[|h| - 1].Announce? && h[|h| - 1].u == u then Some(Announcements(h)) else None
  }

  /** The number of announcements up to the latest of `u`. */
  ghost function LatestRank(h: seq<Event>, u: Universe): Option<int> {
    if h == [] then None
    else if h[|h| - 1].Announce? && h[|h| - 1].u == u then Some(Announcements(h))
    else LatestRank(h[..|h| - 1], u)
  }

  ghost predicate CountedUpTo(db: Db, n: nat) { db.nextId == n + 1 && IsMaxVersion(db.snapshots, n) }

  lemma AnnounceCounts(db: Db, u: Universe, today: int, n: nat)
    requires CountedUpTo(db, n)
    ensures CountedUpTo(Announced(db, u, today), n + 1)
    ensures Announced(db, u, today).snapshots[Digest(u)].version == n + 1
  {
    MaxVersionUnique(db.snapshots, n, MaxVersion(db.snapshots));
  }

  lemma MaxVersionUnique(snapshots: map<Checksum, Snapshot>, v: int, w: int)
    requires IsMaxVersion(snapshots, v) && IsMaxVersion(snapshots, w)
    ensures v == w
  {
  }

  lemma {:induction false} AnnouncementsAreCounted(h: seq<Event>, db: Db)
    requires After(h, db)
    ensures CountedUpTo(db, Announcements(h))
    decreases |h|
  {
    if h != [] {
      var front, last := h[..|h| - 1], h[|h| - 1];
      var d :| After(front, d) && Possible(d, last) && db == Step(d, last);
      AnnouncementsAreCounted(front, d);
      if last.Announce? {
        AnnounceCounts(d, last.u, last.today, Announcements(front));
      }
    }
  }

  lemma AnnounceRanks(db: Db, u: Universe, today: int, n: nat, x: Universe)
    requires CountedUpTo(db, n)
    ensures var before, after := db.snapshots, Announced(db, u, today).snapshots;
            && (Digest(x) in after <==> x == u || Digest(x) in before)
            && (x == u ==> after[Digest(x)].version == n + 1)
            && (x != u && Digest(x) in before ==> after[Digest(x)].version == before[Digest(x)].version)
            && (Digest(x) in after ==>
                  after[Digest(x)].id == if Digest(x) in before then before[Digest(x)].id else n + 1)
  {
    AnnounceCounts(db, u, today, n);
  }

  ghost predicate Ranked(h: seq<Event>, db: Db, u: Universe) {
    if Digest(u) in db.snapshots
    then
      var row := db.snapshots[Digest(u)];
      FirstRank(h, u) == Some(row.id) && LatestRank(h, u) == Some(row.version)
    else FirstRank(h, u) == None && LatestRank(h, u) == None
  }

  lemma StepKeepsRanked(h: seq<Event>, d: Db, u: Universe)
    requires h != [] && Possible(d, h[|h| - 1]) && Ranked(h[..|h| - 1], d, u)
    requires CountedUpTo(d, Announcements(h[..|h| - 1]))
    ensures Ranked(h, Step(d, h[|h| - 1]), u)
  {
    var e := h[|h| - 1];
    if e.Announce? {
      AnnounceRanks(d, e.u, e.today, Announcements(h[..|h| - 1]), u);
    }
  }

  /** A snapshot's id is the rank of its universe's first announcement among all announcements,
      since the sequence of ids advances on a return too; its version is the rank of the latest. */
  lemma {:induction false} IdsAndVersionsAreRanks(h: seq<Event>, db: Db, u: Universe)
    requires After(h, db)
    ensures Ranked(h, db, u)
    decreases |h|
  {
    if h != [] {
      var d := BeforeLast(h, db);
      IdsAndVersionsAreRanks(h[..|h| - 1], d, u);
      AnnouncementsAreCounted(h[..|h| - 1], d);
      StepKeepsRanked(h, d, u);
    }
  }

  // ----- membership table

  /** `x` is a member of the snapshot of exactly the universe that owns it. */
  ghost predicate MemberRight(db: Db, x: string, owner: Option<Universe>) {
    match owner
    case None => "NSE:" + x !in db.members
    case Some(u) =>
      && Digest(u) in db.snapshots
      && "NSE:" + x in db.members
      && db.members["NSE:" + x] == Member(db.snapshots[Digest(u)].id, x, ACTIVE)
  }

  ghost predicate KeysAreIds(db: Db) { forall k <- db.members :: k == InstrumentId(UnderlyingOf(k)) }

  lemma InstrumentIdInjective(x: string, y: string)
    requires InstrumentId(x) == InstrumentId(y)
    ensures x == y
  {
    UnderlyingOfId(x);
    UnderlyingOfId(y);
  }

  lemma UnderlyingOfId(x: string)
    ensures UnderlyingOf(InstrumentId(x)) == x
  {
    assert InstrumentId(x)[4..] == x;
  }

  lemma PopulateStep(db: Db, u: Universe, id: int, x: string)
    ensures var t := Populated(db, u, id);
            && (InstrumentId(x) in t.members <==> x in u || InstrumentId(x) in db.members)
            && (x in u ==> t.members[InstrumentId(x)] == Member(id, x, ACTIVE))
            && (x !in u && InstrumentId(x) in db.members ==> t.members[InstrumentId(x)] == db.members[InstrumentId(x)])
  {
    UnderlyingOfId(x);
    if InstrumentId(x) in Ids(u) {
      var y :| y in u && InstrumentId(y) == InstrumentId(x);
      InstrumentIdInjective(x, y);
    }
  }

  lemma {:induction false} MembershipFollowsOwner(h: seq<Event>, db: Db, x: string)
    requires After(h, db)
    ensures MemberRight(db, x, Owner(h, x))
    decreases |h|
  {
    if h != [] {
      var front, last := h[..|h| - 1], h[|h| - 1];
      var d :| After(front, d) && Possible(d, last) && db == Step(d, last);
      MembershipFollowsOwner(front, d, x);
      if last.Populate? {
        PopulateStep(d, last.u, d.snapshots[Digest(last.u)].id, x);
      }
    }
  }

  lemma {:induction false} MemberKeys(h: seq<Event>, db: Db)
    requires After(h, db)
    ensures KeysAreIds(db)
    decreases |h|
  {
    if h != [] {
      var front, last := h[..|h| - 1], h[|h| - 1];
      var d :| After(front, d) && Possible(d, last) && db == Step(d, last);
      MemberKeys(front, d);
      forall x: string { UnderlyingOfId(x); }
    }
  }

  // ----- what the reader serves

  ghost predicate Joined(db: Db, k: string, version: int)
    requires k in db.members
  {
    exists c :: && c in db.snapshots && db.snapshots[c].id == db.members[k].snapshotId
                && db.snapshots[c].version == version
  }

  /** The join of memberships and snapshots at a version, without synthetic rows. */
  ghost function Served(db: Db, version: int): set<string> {
    set k | k in db.members && Joined(db, k, version) && db.members[k].status == ACTIVE && !IsSynthetic(k)
          :: db.members[k].underlying
  }

  /** The join at any snapshot's version returns exactly the real underlyings that this
      snapshot's universe still owns. */
  lemma ServedAreOwned(h: seq<Event>, db: Db, u: Universe, x: string)
    requires After(h, db) && Digest(u) in db.snapshots
    ensures x in Served(db, db.snapshots[Digest(u)].version) <==>
            Owner(h, x) == Some(u) && !HasTest(x)
  {
    SyntheticIdIff(x);
    SnapshotTableSound(h, db);
    MemberKeys(h, db);
    var s := db.snapshots[Digest(u)];
    if x in Served(db, s.version) {
      var k :| k in db.members && Joined(db, k, s.version) && !IsSynthetic(k) && db.members[k].underlying == x;
      MembershipFollowsOwner(h, db, UnderlyingOf(k));
      var owner := Owner(h, UnderlyingOf(k)).value;
      var c :| && c in db.snapshots && db.snapshots[c].id == db.members[k].snapshotId
               && db.snapshots[c].version == s.version;
      assert c == Digest(u) && c == Digest(owner);
    }
    if Owner(h, x) == Some(u) && !HasTest(x) {
      MembershipFollowsOwner(h, db, x);
      assert Joined(db, InstrumentId(x), s.version);
    }
  }

  /** The underlyings with no `TEST` in their name. */
  ghost function Real(u: Universe): set<string> { set x | x in u && !HasTest(x) }

  lemma {:induction false} OwnersContain(h: seq<Event>, x: string)
    ensures Owner(h, x).Some? ==> x in Owner(h, x).value
  {
    if h != [] {
      OwnersContain(h[..|h| - 1], x);
    }
  }

  /** The active snapshot never serves a foreign underlying, and it serves all of its own
      exactly when the last membership transaction of each of them was for this universe. */
  lemma ActiveServesAllIff(h: seq<Event>, db: Db, u: Universe)
    requires After(h, db) && Current(h) == Some(u)
    ensures Digest(u) in db.snapshots
    ensures var served := Served(db, db.snapshots[Digest(u)].version);
            && served <= Real(u)
            && (served == Real(u) <==> forall x <- Real(u) :: Owner(h, x) == Some(u))
  {
    SnapshotTableSound(h, db);
    var served := Served(db, db.snapshots[Digest(u)].version);
    forall x ensures x in served <==> Owner(h, x) == Some(u) && !HasTest(x) {
      ServedAreOwned(h, db, u, x);
    }
    forall x | x in served ensures x in Real(u) {
      OwnersContain(h, x);
    }
  }

  /** Whatever happened before, one run that is not disturbed serves exactly its underlyings;
      in particular a re-run after a crash, and a return to an earlier universe. */
  lemma UndisturbedRunServesAll(h: seq<Event>, db: Db, u: Universe, today: int)
    requires After(h + [Announce(u, today), Populate(u)], db)
    ensures Digest(u) in db.snapshots && Served(db, db.snapshots[Digest(u)].version) == Real(u)
    ensures OneActive(db, Some(u))
  {
    var all := h + [Announce(u, today), Populate(u)];
    assert all[..|all| - 1] == h + [Announce(u, today)];
    assert Current(all) == Some(u) by {
      assert Current(h + [Announce(u, today)]) == Some(u);
    }
    ActiveServesAllIff(all, db, u);
    SnapshotTableSound(all, db);
    forall x | x in Real(u) ensures Owner(all, x) == Some(u) {}
  }

  /** A run that stops between its transactions serves only part of its universe: what the
      last completed membership transactions left to it. */
  lemma CrashedRunServesRemainder(h: seq<Event>, db: Db, u: Universe, today: int)
    requires After(h + [Announce(u, today)], db)
    ensures Digest(u) in db.snapshots
    ensures Served(db, db.snapshots[Digest(u)].version) == set x | x in Real(u) && Owner(h, x) == Some(u)
  {
    var all := h + [Announce(u, today)];
    assert all[..|all| - 1] == h;
    SnapshotTableSound(all, db);
    var served := Served(db, db.snapshots[Digest(u)].version);
    forall x ensures x in served <==> x in Real(u) && Owner(h, x) == Some(u) {
      ServedAreOwned(all, db, u, x);
      assert Owner(all, x) == Owner(h, x);
      OwnersContain(h, x);
    }
  }

  /** When two runs overlap and the older one populates last, the active snapshot loses
      every underlying the two universes share. */
  lemma OverlappingRunsLoseShared(h: seq<Event>, db: Db, u: Universe, v: Universe, d1: int, d2: int)
    requires u != v && After(h + [Announce(u, d1), Announce(v, d2), Populate(v), Populate(u)], db)
    ensures OneActive(db, Some(v))
    ensures Digest(v) in db.snapshots && Served(db, db.snapshots[Digest(v)].version) == Real(v - u)
  {
    var all := h + [Announce(u, d1), Announce(v, d2), Populate(v), Populate(u)];
    var most := h + [Announce(u, d1), Announce(v, d2), Populate(v)];
    assert all[..|all| - 1] == most;
    assert most[..|most| - 1] == h + [Announce(u, d1), Announce(v, d2)];
    assert Current(h + [Announce(u, d1), Announce(v, d2)]) == Some(v);
    assert Current(most) == Some(v);
    SnapshotTableSound(all, db);
    var served := Served(db, db.snapshots[Digest(v)].version);
    forall x ensures x in served <==> x in Real(v - u) {
      ServedAreOwned(all, db, v, x);
      OwnersContain(all, x);
      assert x in u ==> Owner(all, x) == Some(u);
      assert x !in u ==> Owner(all, x) == Owner(most, x);
    }
  }
}

module UniverseLoader {
  import opened Collections
  import opened UniverseTables

  class UniverseStore {
    var snapshots: map<Checksum, Snapshot>
    var members: map<string, Member>
    var nextId: int

    ghost function View(): Db
      reads this
    {
      Db(snapshots, members, nextId)
    }

    constructor ()
      ensures View() == NO_ROWS
    {
      snapshots, members, nextId := map[], map[], 1;
    }

    /** `COALESCE(MAX(snapshot_version), 0)` */
    method CurrentMax() returns (v: int)
      ensures v == MaxVersion(snapshots)
    {
      v := 0;
      var left := snapshots.Keys;
      while left != {}
        invariant left <= snapshots.Keys
        invariant IsMaxVersion(map c | c in snapshots && c !in left :: snapshots[c], v)
        decreases left
      {
        var c :| c in left;
        ghost var seen := map d | d in snapshots && d !in left :: snapshots[d];
        ghost var more := map d | d in snapshots && d !in left - {c} :: snapshots[d];
        assert more == seen[c := snapshots[c]];
        if seen == map[] {
          assert more.Keys == {c};
        }
        if left == snapshots.Keys || snapshots[c].version > v {
          v := snapshots[c].version;
          assert c in more && more[c].version == v;
        } else {
          assert seen != map[] by {
            var d :| d in snapshots.Keys && d !in left;
            assert d in seen;
          }
          ghost var d :| d in seen && seen[d].version == v;
          assert d in more && more[d].version == v;
        }
        left := left - {c};
      }
      assert (map c | c in snapshots && c !in left :: snapshots[c]) == snapshots;
      MaxVersionUnique(snapshots, v, MaxVersion(snapshots));
    }

    /** `INSERT ... ON CONFLICT (checksum) DO UPDATE ... RETURNING id`: either branch returns a
        row. The identity sequence advances on a conflict too. */
    method UpsertSnapshot(version: int, u: Universe, today: int) returns (id: Option<int>)
      modifies this`snapshots, this`nextId
      ensures nextId == old(nextId) + 1
      ensures snapshots == old(snapshots)[Digest(u) :=
                if Digest(u) in old(snapshots)
                then old(snapshots)[Digest(u)].(status := ACTIVE, version := version)
                else NewSnapshot(old(nextId), version, u, today)]
      ensures id == Some(snapshots[Digest(u)].id)
    {
      if Digest(u) in snapshots {
        snapshots := snapshots[Digest(u) := snapshots[Digest(u)].(status := ACTIVE, version := version)];
      } else {
        snapshots := snapshots[Digest(u) := NewSnapshot(nextId, version, u, today)];
      }
      nextId := nextId + 1;
      id := Some(snapshots[Digest(u)].id);
    }

    /** Step 4 of a run. The branch for a missing id cannot be taken. */
    method FirstTransaction(u: Universe, today: int) returns (snapshotId: int)
      modifies this`snapshots, this`nextId
      ensures View() == Announced(old(View()), u, today)
      ensures snapshotId == snapshots[Digest(u)].id
    {
      var currentMax := CurrentMax();
      snapshots := map c | c in snapshots ::
        if snapshots[c].status == ACTIVE then snapshots[c].(status := SUPERSEDED) else snapshots[c];
      assert snapshots == Superseded(old(snapshots));
      var id := UpsertSnapshot(currentMax + 1, u, today);
      if id == None {
        assert false;
      }
      snapshotId := id.value;
    }

    /** Step 5 of a run. */
    method SecondTransaction(u: Universe, snapshotId: int) returns (count: nat)
      requires KeysMatchUnderlyings(members)
      modifies this`members
      ensures View() == Populated(old(View()), u, snapshotId)
      ensures count == |u| && KeysMatchUnderlyings(members)
    {
      count := 0;
      var left := u;
      ghost var m0, done: Universe := members, {};
      assert Pointed(m0, {}, snapshotId) == m0 by { assert Ids({}) == {}; }
      while left != {}
        invariant done + left == u && count + |left| == |u|
        invariant members == Pointed(m0, done, snapshotId) && KeysMatchUnderlyings(members)
        decreases left
      {
        var x :| x in left;
        InsertMember(m0, done, x, snapshotId);
        UpsertMembership(x, snapshotId);
        count, left, done := count + 1, left - {x}, done + {x};
      }
    }

    /** `INSERT ... ON CONFLICT (instrument_id, effective_from) DO UPDATE`: the conflict branch
        leaves `underlying` as it is. */
    method UpsertMembership(x: string, snapshotId: int)
      requires KeysMatchUnderlyings(members)
      modifies this`members
      ensures members == old(members)[InstrumentId(x) := Member(snapshotId, x, ACTIVE)]
      ensures KeysMatchUnderlyings(members)
    {
      var k := InstrumentId(x);
      if k in members {
        InstrumentIdInjective(members[k].underlying, x);
        members := members[k := members[k].(snapshotId := snapshotId, status := ACTIVE)];
      } else {
        members := members[k := Member(snapshotId, x, ACTIVE)];
      }
    }

    /** The reader's join, row by row. */
    method LoadConstituents(version: int) returns (symbols: set<string>)
      ensures symbols == Served(View(), version)
    {
      symbols := {};
      var left := members.Keys;
      while left != {}
        invariant left <= members.Keys
        invariant symbols == set k | k in members && k !in left && Joined(View(), k, version)
                                     && members[k].status == ACTIVE && !IsSynthetic(k) :: members[k].underlying
        decreases left
      {
        var k :| k in left;
        left := left - {k};
        var m := members[k];
        var joined := exists c <- snapshots :: snapshots[c].id == m.snapshotId && snapshots[c].version == version;
        assert joined == Joined(View(), k, version);
        if joined && m.status == ACTIVE && !IsSynthetic(k) {
          symbols := symbols + {m.underlying};
        }
      }
    }
  }

  ghost predicate KeysMatchUnderlyings(members: map<string, Member>) {
    forall k <- members :: k == InstrumentId(members[k].underlying)
  }

  lemma InsertMember(members: map<string, Member>, u: Universe, x: string, id: int)
    ensures Pointed(members, u + {x}, id) == Pointed(members, u, id)[InstrumentId(x) := Member(id, x, ACTIVE)]
  {
    UnderlyingOfId(x);
    forall k ensures k in Ids(u + {x}) <==> k in Ids(u) || k == InstrumentId(x) {
      if k in Ids(u) {
        var y :| y in u && InstrumentId(y) == k;
        assert y in u + {x};
      }
      assert x in u + {x};
    }
  }
}
