/**
 A reader of the merchant change feed beside every writer. A call is three statements, and
 writers, aliases and commits may come between any two of them.
 */
module MerchantReader {
  import opened Common
  import opened MerchantFeed

  // ----- one reader and every writer -----

  /** A cursor the server handed out, and the merchant it stood for when it did. */
  datatype Handed = Handed(cursor: Cursor, id: MerchantId)

  function PositionHanded(h: Handed): Position {
    Position(h.cursor.xid, h.id)
  }

  /** The reader's call: none, its cursor resolved, or its page read. */
  datatype Call =
    | Idle
    | Resolved(from: Handed, limit: nat, lastId: MerchantId)
    | Queried(from: Handed, page: Page)

  /**
   A reader beside the database. `owner` remembers every alias ever registered: an alias is
   never repointed and no two merchants share a principal. `handed` holds every cursor the
   reader was given, so it may also retry from an old one.
   */
  datatype World = World(db: Db, owner: map<MerchantId, Principal>,
                         replica: map<Principal, Content>, handed: set<Handed>, call: Call)

  datatype Event =
    | Begins
    | Writes(x: Xid, m: MerchantId, content: Content)
    | Commits(x: Xid)
    | Aborts(x: Xid)
    | Registers(m: MerchantId, p: Principal)
    | Unregisters(m: MerchantId)
    | Resolves(from: Handed, limit: nat)
    | Queries
    | Replies
    | Abandons

  function Applied(replica: map<Principal, Content>, records: seq<Record>): map<Principal, Content>
    decreases |records|
  {
    if records == [] then replica
    else Applied(replica[records[0].principal := records[0].content], records[1..])
  }

  predicate MayRegister(w: World, m: MerchantId, p: Principal) {
    && m > 0 && p != ""
    && (if m in w.owner then w.owner[m] == p else p !in w.owner.Values)
  }

  /** Writers, and aliases coming and going. */
  function DbEvent(w: World, e: Event): World {
    match e
    case Begins => w.(db := Begin(w.db))
    case Writes(x, m, content) => if MayWrite(w.db, x, m) then w.(db := WriteRow(w.db, x, m, content)) else w
    case Commits(x) => if x in w.db.open then w.(db := Commit(w.db, x)) else w
    case Aborts(x) => if x in w.db.open then w.(db := Abort(w.db, x)) else w
    case Registers(m, p) =>
      if MayRegister(w, m, p) then w.(db := w.db.(aliases := w.db.aliases[m := p]), owner := w.owner[m := p]) else w
    case Unregisters(m) => w.(db := w.db.(aliases := w.db.aliases - {m}))
    case _ => w
  }

  ghost function DoResolve(w: World, from: Handed, limit: nat): World {
    w.(call := Resolved(from, limit, MerchantIdOf(w.db, from.cursor.principal)))
  }

  ghost function DoQuery(w: World): World
    requires w.call.Resolved?
  {
    w.(call := Queried(w.call.from, FindChangedAfter(w.db, w.call.from.cursor.xid, w.call.lastId, w.call.limit)))
  }

  /** The cursor a page hands out. */
  function NextHanded(from: Handed, page: Page, next: Cursor): Handed {
    if page.rows == [] then from else Handed(next, page.rows[|page.rows| - 1].id)
  }

  /** The reader applies the reply and keeps its cursor; a failed call changes nothing. */
  function DoReply(w: World): World
    requires w.call.Queried?
  {
    var reply := Replied(w.db.aliases, w.call.from.cursor, w.call.page);
    if reply.Failure? then w.(call := Idle)
    else w.(replica := Applied(w.replica, reply.upserted),
            handed := w.handed + {NextHanded(w.call.from, w.call.page, reply.next)},
            call := Idle)
  }

  /** An event that is not enabled leaves the world as it is. */
  ghost function Next(w: World, e: Event): World {
    match e
    case Resolves(from, limit) => if from in w.handed && w.call.Idle? then DoResolve(w, from, limit) else w
    case Queries => if w.call.Resolved? then DoQuery(w) else w
    case Replies => if w.call.Queried? then DoReply(w) else w
    case Abandons => w.(call := Idle)
    case _ => DbEvent(w, e)
  }

  ghost function RunFrom(w: World, events: seq<Event>): World
    decreases |events|
  {
    if events == [] then w else RunFrom(Next(w, events[0]), events[1..])
  }

  /** Any database, with a reader that starts from zero. */
  ghost predicate Initial(w: World) {
    && DbValid(w.db) && AliasesValid(w)
    && w.handed == {Handed(Cursor(0, ""), 0)} && w.call.Idle?
  }

  // ----- the invariant -----

  ghost predicate AliasesValid(w: World) {
    && (forall m :: m in w.db.aliases ==> m in w.owner && w.owner[m] == w.db.aliases[m])
    && (forall m :: m in w.owner ==> m > 0 && w.owner[m] != "")
    && (forall m, n :: m in w.owner && n in w.owner && w.owner[m] == w.owner[n] ==> m == n)
  }

  ghost predicate HandedValid(w: World, h: Handed) {
    && Settled(w.db, h.cursor.xid)
    && (if h.cursor.principal == "" then h.id == 0 else h.id in w.owner && w.owner[h.id] == h.cursor.principal)
  }

  /** The replica shows merchant `m` as it is committed. */
  ghost predicate Holds(w: World, m: MerchantId)
    requires m in w.db.table
  {
    m in w.owner && w.owner[m] in w.replica && w.replica[w.owner[m]] == w.db.table[m].content
  }

  ghost predicate HoldsUpTo(w: World, p: Position) {
    forall m :: m in w.db.table && !Less(p, PositionOf(w.db, m)) ==> Holds(w, m)
  }

  ghost predicate HandedInv(w: World) {
    forall h :: h in w.handed ==> HandedValid(w, h) && HoldsUpTo(w, PositionHanded(h))
  }

  ghost predicate Lists(rows: seq<Listed>, m: MerchantId) {
    exists i :: 0 <= i < |rows| && rows[i].id == m
  }

  /** The merchant now stands after every cursor handed out and after the page. */
  ghost predicate Beyond(w: World, p: Position, m: MerchantId)
    requires m in w.db.table
  {
    && Less(p, PositionOf(w.db, m))
    && forall h :: h in w.handed ==> Less(PositionHanded(h), PositionOf(w.db, m))
  }

  /** Where the page ends. */
  function EndOf(page: Page): Position
    requires page.rows != []
  {
    Position(page.lastXid, page.rows[|page.rows| - 1].id)
  }

  /** A row the page lists is still as it lists it, unless the merchant has been written since. */
  ghost predicate RowValid(w: World, p: Position, row: Listed) {
    row.id in w.db.table && (w.db.table[row.id].content == row.content || Beyond(w, p, row.id))
  }

  /** Up to its end, what the page does not list the replica holds. */
  ghost predicate Covers(w: World, p: Position, rows: seq<Listed>) {
    forall m :: m in w.db.table && !Less(p, PositionOf(w.db, m)) ==> Holds(w, m) || Lists(rows, m)
  }

  ghost predicate PageValid(w: World, page: Page) {
    page.rows != [] ==>
      && Settled(w.db, page.lastXid)
      && (forall i :: 0 <= i < |page.rows| ==> RowValid(w, EndOf(page), page.rows[i]))
      && Covers(w, EndOf(page), page.rows)
  }

  ghost predicate CallInv(w: World) {
    match w.call
    case Idle => true
    case Resolved(from, _, lastId) => from in w.handed && (lastId == 0 || lastId == from.id)
    case Queried(from, page) => from in w.handed && PageValid(w, page)
  }

  ghost predicate Inv(w: World) {
    DbValid(w.db) && AliasesValid(w) && HandedInv(w) && CallInv(w)
  }

  // ----- commits -----

  /** Every entry a commit writes lands after every cursor ever handed out. */
  lemma CommitLandsAfterCursors(w: World, x: Xid, m: MerchantId, h: Handed)
    requires Inv(w) && x in w.db.open && m in WrittenBy(w.db, x) && h in w.handed
    ensures m in Commit(w.db, x).table && Less(PositionHanded(h), PositionOf(Commit(w.db, x), m))
  {
    assert HandedValid(w, h);
  }

  lemma CommitKeepsHanded(w: World, x: Xid)
    requires Inv(w) && x in w.db.open
    ensures HandedInv(w.(db := Commit(w.db, x)))
  {
    var w' := w.(db := Commit(w.db, x));
    forall h | h in w'.handed
      ensures HandedValid(w', h) && HoldsUpTo(w', PositionHanded(h))
    {
      assert HandedValid(w, h) && HoldsUpTo(w, PositionHanded(h));
      forall m | m in w'.db.table && !Less(PositionHanded(h), PositionOf(w'.db, m))
        ensures Holds(w', m)
      {
        if m in WrittenBy(w.db, x) {
          CommitLandsAfterCursors(w, x, m, h);
        } else {
          assert w'.db.table[m] == w.db.table[m];
          assert Holds(w, m);
        }
      }
    }
  }

  lemma CommitKeepsRow(w: World, x: Xid, page: Page, row: Listed)
    requires Inv(w) && x in w.db.open && page.rows != [] && Settled(w.db, page.lastXid) && RowValid(w, EndOf(page), row)
    ensures RowValid(w.(db := Commit(w.db, x)), EndOf(page), row)
  {
    var w' := w.(db := Commit(w.db, x));
    if row.id in WrittenBy(w.db, x) {
      forall h | h in w'.handed
        ensures Less(PositionHanded(h), PositionOf(w'.db, row.id))
      {
        CommitLandsAfterCursors(w, x, row.id, h);
      }
    } else {
      assert w'.db.table[row.id] == w.db.table[row.id];
    }
  }

  lemma CommitKeepsPage(w: World, x: Xid, page: Page)
    requires Inv(w) && x in w.db.open && PageValid(w, page)
    ensures PageValid(w.(db := Commit(w.db, x)), page)
  {
    var w' := w.(db := Commit(w.db, x));
    if page.rows != [] {
      forall i | 0 <= i < |page.rows|
        ensures RowValid(w', EndOf(page), page.rows[i])
      {
        CommitKeepsRow(w, x, page, page.rows[i]);
      }
      forall m | m in w'.db.table && !Less(EndOf(page), PositionOf(w'.db, m))
        ensures Holds(w', m) || Lists(page.rows, m)
      {
        assert m !in WrittenBy(w.db, x);
        assert w'.db.table[m] == w.db.table[m];
        assert Holds(w, m) || Lists(page.rows, m);
      }
    }
  }

  lemma CommitKeepsInv(w: World, x: Xid)
    requires Inv(w) && x in w.db.open
    ensures Inv(w.(db := Commit(w.db, x)))
  {
    CommitValid(w.db, x);
    CommitKeepsHanded(w, x);
    if w.call.Queried? {
      CommitKeepsPage(w, x, w.call.page);
    }
  }

  // ----- everything else a writer or an alias does -----

  /** Rows, replica and cursors stay; settled ids stay settled; no alias is lost from memory. */
  ghost predicate Frames(w: World, w': World) {
    && w'.db.table == w.db.table && w'.replica == w.replica && w'.handed == w.handed
    && (forall m :: m in w.owner ==> m in w'.owner && w'.owner[m] == w.owner[m])
    && (forall x :: Settled(w.db, x) ==> Settled(w'.db, x))
  }

  lemma FrameKeepsHanded(w: World, w': World)
    requires HandedInv(w) && Frames(w, w')
    ensures HandedInv(w')
  {
    forall h | h in w'.handed
      ensures HandedValid(w', h) && HoldsUpTo(w', PositionHanded(h))
    {
      assert HandedValid(w, h) && HoldsUpTo(w, PositionHanded(h));
      forall m | m in w'.db.table && !Less(PositionHanded(h), PositionOf(w'.db, m))
        ensures Holds(w', m)
      {
        assert Holds(w, m);
      }
    }
  }

  lemma FrameKeepsPage(w: World, w': World, page: Page)
    requires PageValid(w, page) && Frames(w, w')
    ensures PageValid(w', page)
  {
    if page.rows != [] {
      forall i | 0 <= i < |page.rows|
        ensures RowValid(w', EndOf(page), page.rows[i])
      {
        assert RowValid(w, EndOf(page), page.rows[i]);
      }
      forall m | m in w'.db.table && !Less(EndOf(page), PositionOf(w'.db, m))
        ensures Holds(w', m) || Lists(page.rows, m)
      {
        assert Holds(w, m) || Lists(page.rows, m);
      }
    }
  }

  lemma FrameKeepsInv(w: World, w': World)
    requires Inv(w) && Frames(w, w') && w'.call == w.call && DbValid(w'.db) && AliasesValid(w')
    ensures Inv(w')
  {
    FrameKeepsHanded(w, w');
    if w.call.Queried? {
      FrameKeepsPage(w, w', w.call.page);
    }
  }

  lemma RegisterKeepsInv(w: World, m: MerchantId, p: Principal)
    requires Inv(w) && MayRegister(w, m, p)
    ensures Inv(DbEvent(w, Registers(m, p)))
  {
    assert forall n :: n in w.owner ==> w.owner[n] in w.owner.Values;
    FrameKeepsInv(w, DbEvent(w, Registers(m, p)));
  }

  lemma DbEventKeepsInv(w: World, e: Event)
    requires Inv(w)
    ensures Inv(DbEvent(w, e))
  {
    if e.Commits? {
      if e.x in w.db.open {
        CommitKeepsInv(w, e.x);
      }
    } else if e.Registers? {
      if MayRegister(w, e.m, e.p) {
        RegisterKeepsInv(w, e.m, e.p);
      }
    } else {
      FrameKeepsInv(w, DbEvent(w, e));
    }
  }

  // ----- the three statements of a call -----

  /** A cursor taken back never resolves past the place it was handed out for. */
  lemma ResolvesNoFurther(w: World, h: Handed)
    requires AliasesValid(w) && HandedValid(w, h)
    ensures MerchantIdOf(w.db, h.cursor.principal) in {0, h.id}
    ensures !Less(PositionHanded(h), Position(h.cursor.xid, MerchantIdOf(w.db, h.cursor.principal)))
  {
  }

  lemma ResolveKeepsInv(w: World, from: Handed, limit: nat)
    requires Inv(w) && from in w.handed
    ensures Inv(DoResolve(w, from, limit))
  {
    assert HandedValid(w, from);
    ResolvesNoFurther(w, from);
    FrameKeepsHanded(w, DoResolve(w, from, limit));
  }

  /** An entry after the cursor and not after the end of the page matches, for the last one listed does. */
  lemma MatchesUpToEnd(db: Db, after: Position, last: MerchantId, m: MerchantId)
    requires last in Matching(db, after) && m in db.table
    requires Less(after, PositionOf(db, m)) && !Less(PositionOf(db, last), PositionOf(db, m))
    ensures m in Matching(db, after)
  {
  }

  /** A page lists every entry from its cursor to its end. */
  lemma PageListsUpToEnd(db: Db, after: Position, limit: nat, m: MerchantId)
    requires m in db.table && Less(after, PositionOf(db, m))
    requires var page := FindChangedAfter(db, after.xid, after.id, limit);
             page.rows != [] && !Less(EndOf(page), PositionOf(db, m))
    ensures Lists(FindChangedAfter(db, after.xid, after.id, limit).rows, m)
  {
    var all := Ordered(db, Matching(db, after));
    var page := FindChangedAfter(db, after.xid, after.id, limit);
    PageIsPrefix(db, after.xid, after.id, limit);
    MatchesUpToEnd(db, after, page.rows[|page.rows| - 1].id, m);
    var i :| 0 <= i < |all| && all[i] == m;
    assert i < |page.rows|;
    assert page.rows[i].id == m;
  }

  /** Up to the end of the page just read, the replica holds the merchant or the page lists it. */
  lemma QueryCovers(w: World, from: Handed, lastId: MerchantId, limit: nat, m: MerchantId)
    requires Inv(w) && from in w.handed && (lastId == 0 || lastId == from.id) && m in w.db.table
    requires var page := FindChangedAfter(w.db, from.cursor.xid, lastId, limit);
             page.rows != [] && !Less(EndOf(page), PositionOf(w.db, m))
    ensures Holds(w, m) || Lists(FindChangedAfter(w.db, from.cursor.xid, lastId, limit).rows, m)
  {
    var after := Position(from.cursor.xid, lastId);
    if Less(after, PositionOf(w.db, m)) {
      PageListsUpToEnd(w.db, after, limit, m);
    } else {
      assert HandedValid(w, from) && HoldsUpTo(w, PositionHanded(from));
    }
  }

  lemma QueryReadsRows(w: World, xid: Xid, lastId: MerchantId, limit: nat)
    ensures var page := FindChangedAfter(w.db, xid, lastId, limit);
            page.rows != [] ==>
              Settled(w.db, page.lastXid)
              && forall i :: 0 <= i < |page.rows| ==> RowValid(w, EndOf(page), page.rows[i])
  {
    var all, page := Ordered(w.db, Matching(w.db, Position(xid, lastId))), FindChangedAfter(w.db, xid, lastId, limit);
    PageIsPrefix(w.db, xid, lastId, limit);
    if page.rows != [] {
      assert page.rows[|page.rows| - 1].id in Matching(w.db, Position(xid, lastId));
    }
  }

  lemma QueryReadsPage(w: World, from: Handed, lastId: MerchantId, limit: nat)
    requires Inv(w) && from in w.handed && (lastId == 0 || lastId == from.id)
    ensures PageValid(w, FindChangedAfter(w.db, from.cursor.xid, lastId, limit))
  {
    var page := FindChangedAfter(w.db, from.cursor.xid, lastId, limit);
    QueryReadsRows(w, from.cursor.xid, lastId, limit);
    if page.rows != [] {
      forall m | m in w.db.table && !Less(EndOf(page), PositionOf(w.db, m))
        ensures Holds(w, m) || Lists(page.rows, m)
      {
        QueryCovers(w, from, lastId, limit, m);
      }
    }
  }

  lemma QueryKeepsInv(w: World)
    requires Inv(w) && w.call.Resolved?
    ensures Inv(DoQuery(w))
  {
    QueryReadsPage(w, w.call.from, w.call.lastId, w.call.limit);
    FrameKeepsHanded(w, DoQuery(w));
    FrameKeepsPage(w, DoQuery(w), DoQuery(w).call.page);
  }

  /** A reply that names a principal leaves the content it says, if it says one. */
  lemma {:induction false} AppliedSets(replica: map<Principal, Content>, records: seq<Record>, p: Principal, content: Content)
    requires exists i :: 0 <= i < |records| && records[i].principal == p
    requires forall i :: 0 <= i < |records| && records[i].principal == p ==> records[i].content == content
    ensures Lookup(Applied(replica, records), p) == Some(content)
    decreases |records|
  {
    var first := replica[records[0].principal := records[0].content];
    var i :| 0 <= i < |records| && records[i].principal == p;
    if j :| 0 < j < |records| && records[j].principal == p {
      assert records[1..][j - 1] == records[j];
      AppliedSets(first, records[1..], p, content);
    } else {
      AppliedLeaves(first, records[1..], p);
    }
  }

  /** One that does not leaves the principal as it was. */
  lemma {:induction false} AppliedLeaves(replica: map<Principal, Content>, records: seq<Record>, p: Principal)
    requires forall i :: 0 <= i < |records| ==> records[i].principal != p
    ensures Lookup(Applied(replica, records), p) == Lookup(replica, p)
    decreases |records|
  {
    if records != [] {
      AppliedLeaves(replica[records[0].principal := records[0].content], records[1..], p);
    }
  }

  /** A merchant the rows list as it is committed is held once they are applied. */
  lemma ListedIsHeld(w: World, rows: seq<Listed>, m: MerchantId)
    requires AliasesValid(w) && Aliased(w.db.aliases, rows) && m in w.db.table && Lists(rows, m)
    requires forall i :: 0 <= i < |rows| && rows[i].id == m ==> rows[i].content == w.db.table[m].content
    ensures m in w.db.aliases
    ensures Lookup(Applied(w.replica, RecordsOf(w.db.aliases, rows)), w.db.aliases[m]) == Some(w.db.table[m].content)
  {
    var records := RecordsOf(w.db.aliases, rows);
    var i :| 0 <= i < |rows| && rows[i].id == m;
    assert records[i].principal == w.db.aliases[m];
    AppliedSets(w.replica, records, w.db.aliases[m], w.db.table[m].content);
  }

  /** One they do not list is held as before. */
  lemma UnlistedIsLeft(w: World, rows: seq<Listed>, m: MerchantId)
    requires AliasesValid(w) && Aliased(w.db.aliases, rows) && m in w.owner && !Lists(rows, m)
    ensures Lookup(Applied(w.replica, RecordsOf(w.db.aliases, rows)), w.owner[m]) == Lookup(w.replica, w.owner[m])
  {
    AppliedLeaves(w.replica, RecordsOf(w.db.aliases, rows), w.owner[m]);
  }

  lemma ReplyHolds(w: World, m: MerchantId)
    requires Inv(w) && w.call.Queried? && Aliased(w.db.aliases, w.call.page.rows) && m in w.db.table
    requires Holds(w, m) || Lists(w.call.page.rows, m)
    requires w.call.page.rows != [] ==> !Beyond(w, EndOf(w.call.page), m)
    ensures Holds(DoReply(w), m)
  {
    var page := w.call.page;
    if Lists(page.rows, m) {
      forall i | 0 <= i < |page.rows| && page.rows[i].id == m
        ensures page.rows[i].content == w.db.table[m].content
      {
        assert RowValid(w, EndOf(page), page.rows[i]);
      }
      ListedIsHeld(w, page.rows, m);
    } else {
      UnlistedIsLeft(w, page.rows, m);
    }
  }

  lemma ReplyKeepsCursor(w: World, h: Handed)
    requires Inv(w) && w.call.Queried? && Aliased(w.db.aliases, w.call.page.rows) && h in w.handed
    ensures HandedValid(DoReply(w), h) && HoldsUpTo(DoReply(w), PositionHanded(h))
  {
    var w' := DoReply(w);
    assert HandedValid(w, h) && HoldsUpTo(w, PositionHanded(h));
    forall m | m in w'.db.table && !Less(PositionHanded(h), PositionOf(w'.db, m))
      ensures Holds(w', m)
    {
      ReplyHolds(w, m);
    }
  }

  lemma ReplyHandsOut(w: World)
    requires Inv(w) && w.call.Queried? && Aliased(w.db.aliases, w.call.page.rows) && w.call.page.rows != []
    ensures var h := NextHanded(w.call.from, w.call.page, Replied(w.db.aliases, w.call.from.cursor, w.call.page).next);
            HandedValid(DoReply(w), h) && HoldsUpTo(DoReply(w), PositionHanded(h))
  {
    var page, w' := w.call.page, DoReply(w);
    forall m | m in w'.db.table && !Less(EndOf(page), PositionOf(w'.db, m))
      ensures Holds(w', m)
    {
      ReplyHolds(w, m);
    }
  }

  lemma ReplyKeepsInv(w: World)
    requires Inv(w) && w.call.Queried?
    ensures Inv(DoReply(w))
  {
    var w' := DoReply(w);
    if Aliased(w.db.aliases, w.call.page.rows) {
      forall h | h in w'.handed
        ensures HandedValid(w', h) && HoldsUpTo(w', PositionHanded(h))
      {
        if h in w.handed {
          ReplyKeepsCursor(w, h);
        } else {
          ReplyHandsOut(w);
        }
      }
    } else {
      IdleKeepsInv(w);
    }
  }

  lemma IdleKeepsInv(w: World)
    requires Inv(w)
    ensures Inv(w.(call := Idle))
  {
    FrameKeepsHanded(w, w.(call := Idle));
  }

  lemma NextKeepsInv(w: World, e: Event)
    requires Inv(w)
    ensures Inv(Next(w, e))
  {
    match e
    case Resolves(from, limit) =>
      if from in w.handed && w.call.Idle? {
        ResolveKeepsInv(w, from, limit);
      }
    case Queries =>
      if w.call.Resolved? {
        QueryKeepsInv(w);
      }
    case Replies =>
      if w.call.Queried? {
        ReplyKeepsInv(w);
      }
    case Abandons => IdleKeepsInv(w);
    case _ => DbEventKeepsInv(w, e);
  }

  lemma {:induction false} RunKeepsInv(w: World, events: seq<Event>)
    requires Inv(w)
    ensures Inv(RunFrom(w, events))
    decreases |events|
  {
    if events != [] {
      NextKeepsInv(w, events[0]);
      RunKeepsInv(Next(w, events[0]), events[1..]);
    }
  }

  /**
   No lost change: after any run of writers beginning, writing, committing and aborting in any
   order, alias rows coming and going, and calls from any cursor handed out, all of it between
   the statements of a call as well, the replica holds the committed content of every merchant
   at or below every cursor handed out.
   */
  lemma NoLostChange(start: World, events: seq<Event>, h: Handed, m: MerchantId)
    requires Initial(start)
    requires var w := RunFrom(start, events); h in w.handed && m in w.db.table
    ensures var w := RunFrom(start, events);
            !Less(PositionHanded(h), PositionOf(w.db, m)) ==>
              m in w.owner && w.owner[m] in w.replica && w.replica[w.owner[m]] == w.db.table[m].content
  {
    RunKeepsInv(start, events);
    var w := RunFrom(start, events);
    assert HoldsUpTo(w, PositionHanded(h));
  }

  /**
   Positions never slip behind a cursor: in every reachable state each cursor handed out is
   below every open and every future writer, and whatever commits next lands after it, even
   when an older writer's commit moves an entry backwards.
   */
  lemma PositionsNeverSlipBehind(start: World, events: seq<Event>, h: Handed, x: Xid)
    requires Initial(start) && h in RunFrom(start, events).handed
    ensures var w := RunFrom(start, events);
            && (x in w.db.open || x >= w.db.nextXid ==> h.cursor.xid < x)
            && (x in w.db.open ==>
                  forall m :: m in Commit(w.db, x).table && Lookup(Commit(w.db, x).table, m) != Lookup(w.db.table, m) ==>
                    Less(PositionHanded(h), PositionOf(Commit(w.db, x), m)))
  {
    RunKeepsInv(start, events);
    var w := RunFrom(start, events);
    assert HandedValid(w, h);
    if x in w.db.open {
      forall m | m in Commit(w.db, x).table && Lookup(Commit(w.db, x).table, m) != Lookup(w.db.table, m)
        ensures Less(PositionHanded(h), PositionOf(Commit(w.db, x), m))
      {
        assert m in WrittenBy(w.db, x);
        CommitLandsAfterCursors(w, x, m, h);
      }
    }
  }

  // ----- what a writer writes -----

  /** The event writes the merchant again for this writer, or ends the writer. */
  predicate Overrides(e: Event, x: Xid, m: MerchantId) {
    (e.Writes? && e.x == x && e.m == m) || (e.Commits? && e.x == x) || (e.Aborts? && e.x == x)
  }

  lemma PendingStays(w: World, e: Event, x: Xid, m: MerchantId)
    requires x in w.db.open && Lookup(w.db.pending, m).Some? && w.db.pending[m].xid == x && !Overrides(e, x, m)
    ensures x in Next(w, e).db.open && Lookup(Next(w, e).db.pending, m) == Some(w.db.pending[m])
  {
  }

  lemma {:induction false} PendingRuns(w: World, events: seq<Event>, x: Xid, m: MerchantId)
    requires x in w.db.open && Lookup(w.db.pending, m).Some? && w.db.pending[m].xid == x
    requires forall i :: 0 <= i < |events| ==> !Overrides(events[i], x, m)
    ensures x in RunFrom(w, events).db.open && Lookup(RunFrom(w, events).db.pending, m) == Some(w.db.pending[m])
    decreases |events|
  {
    if events != [] {
      PendingStays(w, events[0], x, m);
      PendingRuns(Next(w, events[0]), events[1..], x, m);
    }
  }

  /**
   What a writer writes is what it commits: whatever other writers and readers do in between, its
   commit puts its last content of a merchant into the table under its own transaction id, and its
   abort leaves the table alone.
   */
  lemma WrittenIsCommitted(w: World, x: Xid, m: MerchantId, content: Content, events: seq<Event>)
    requires MayWrite(w.db, x, m) && forall i :: 0 <= i < |events| ==> !Overrides(events[i], x, m)
    ensures var w' := RunFrom(Next(w, Writes(x, m, content)), events);
            && Lookup(Next(w', Commits(x)).db.table, m) == Some(Entry(content, x))
            && Next(w', Aborts(x)).db.table == w'.db.table
            && x !in Next(w', Commits(x)).db.open && x !in Next(w', Aborts(x)).db.open
  {
    PendingRuns(Next(w, Writes(x, m, content)), events, x, m);
  }
}
