/**
 Draining the merchant change feed: what a reader that walks to the end of the feed is given,
 writers open or not, and what it then holds.
 */
module MerchantDrain {
  import opened Common
  import opened MerchantFeed
  import opened MerchantReader

  /** Every merchant is aliased one to one. */
  ghost predicate OneToOne(db: Db) {
    && DbValid(db)
    && (forall m :: m in db.table ==> m in db.aliases)
    && (forall m :: m in db.aliases ==> m > 0 && db.aliases[m] != "")
    && (forall m, n :: m in db.aliases && n in db.aliases && db.aliases[m] == db.aliases[n] ==> m == n)
  }

  ghost function ResolvedTo(db: Db, cursor: Cursor): Position {
    Position(cursor.xid, MerchantIdOf(db, cursor.principal))
  }

  ghost predicate Known(db: Db, ids: seq<MerchantId>) {
    forall i :: 0 <= i < |ids| ==> ids[i] in db.table && ids[i] in db.aliases
  }

  ghost function RecordsFor(db: Db, ids: seq<MerchantId>): seq<Record>
    requires Known(db, ids)
  {
    RecordsOf(db.aliases, RowsOf(db, ids))
  }

  function FirstOf(all: seq<MerchantId>, k: nat): set<MerchantId>
    requires k <= |all|
  {
    set i | 0 <= i < k :: all[i]
  }

  /** What is left after the first `k` merchants of the query is the query for the others. */
  lemma {:induction false} OrderedDrop(db: Db, ids: set<MerchantId>, k: nat)
    requires ids <= db.table.Keys && k <= |Ordered(db, ids)|
    ensures var all := Ordered(db, ids);
            var taken := FirstOf(all, k);
            taken <= ids && all[k..] == Ordered(db, ids - taken)
    decreases k
  {
    var all := Ordered(db, ids);
    if k == 0 {
      assert ids - FirstOf(all, 0) == ids;
    } else {
      var m, rest := all[0], Ordered(db, ids - {all[0]});
      assert all == [m] + rest;
      OrderedDrop(db, ids - {m}, k - 1);
      var taken, fewer := FirstOf(all, k), FirstOf(rest, k - 1);
      assert taken == {m} + fewer by {
        assert forall i :: 0 <= i < k - 1 ==> rest[i] == all[i + 1];
        forall x | x in taken
          ensures x in {m} + fewer
        {
          var i :| 0 <= i < k && all[i] == x;
          assert i > 0 ==> rest[i - 1] == x;
        }
      }
      assert ids - taken == ids - {m} - fewer;
    }
  }

  lemma CursorResolves(db: Db, m: MerchantId)
    requires OneToOne(db) && m in db.table && m in db.aliases
    ensures ResolvedTo(db, Cursor(db.table[m].xid, db.aliases[m])) == PositionOf(db, m)
  {
    assert MerchantIdOf(db, db.aliases[m]) == m;
  }

  lemma KnownPrefix(db: Db, ids: seq<MerchantId>, k: nat)
    requires Known(db, ids) && k <= |ids|
    ensures Known(db, ids[..k]) && Aliased(db.aliases, RowsOf(db, ids[..k]))
  {
  }

  /** A page, row by row. */
  lemma PageRows(db: Db, after: Position, limit: nat)
    requires OneToOne(db)
    ensures var all := Ordered(db, Matching(db, after));
            var page, k := FindChangedAfter(db, after.xid, after.id, limit), Min(limit, |all|);
            && Known(db, all) && Known(db, all[..k])
            && page.rows == RowsOf(db, all[..k]) && page.hasMore == (|all| > limit)
            && Aliased(db.aliases, page.rows)
            && (k > 0 ==> page.lastXid == db.table[all[k - 1]].xid)
  {
    var all := Ordered(db, Matching(db, after));
    AllKnown(db, after);
    PageIsPrefix(db, after.xid, after.id, limit);
    KnownPrefix(db, all, Min(limit, |all|));
  }

  lemma PageReplies(db: Db, cursor: Cursor, limit: nat)
    requires OneToOne(db) && limit >= 1
    ensures var reply := MerchantsChangedSince(db, cursor, limit);
            var all := Ordered(db, Matching(db, ResolvedTo(db, cursor)));
            var k := Min(limit, |all|);
            && Known(db, all[..k])
            && reply.Reply?
            && reply.upserted == RecordsFor(db, all[..k])
            && reply.hasMore == (|all| > limit)
            && (k > 0 ==> ResolvedTo(db, reply.next) == PositionOf(db, all[k - 1]))
            && (k == 0 ==> reply.next == cursor)
  {
    var after := ResolvedTo(db, cursor);
    PageRows(db, after, limit);
    var all := Ordered(db, Matching(db, after));
    var k := Min(limit, |all|);
    if k > 0 {
      CursorResolves(db, all[k - 1]);
    }
  }

  /** The cursor after a page stands just before everything the page did not list. */
  lemma PageAdvances(db: Db, cursor: Cursor, limit: nat)
    requires OneToOne(db) && limit >= 1
    ensures var reply := MerchantsChangedSince(db, cursor, limit);
            var all := Ordered(db, Matching(db, ResolvedTo(db, cursor)));
            && Known(db, all[..Min(limit, |all|)])
            && reply.Reply?
            && reply.upserted == RecordsFor(db, all[..Min(limit, |all|)])
            && reply.hasMore == (|all| > limit)
            && Ordered(db, Matching(db, ResolvedTo(db, reply.next))) == all[Min(limit, |all|)..]
  {
    PageReplies(db, cursor, limit);
    var ids := Matching(db, ResolvedTo(db, cursor));
    var k := Min(limit, |Ordered(db, ids)|);
    OrderedDrop(db, ids, k);
    if k > 0 {
      MatchingAfter(db, ResolvedTo(db, cursor), k);
    }
  }

  lemma MatchingAfter(db: Db, after: Position, k: nat)
    requires OneToOne(db) && 0 < k <= |Ordered(db, Matching(db, after))|
    ensures var all := Ordered(db, Matching(db, after));
            Matching(db, PositionOf(db, all[k - 1])) == Matching(db, after) - FirstOf(all, k)
  {
    var all := Ordered(db, Matching(db, after));
    var taken := FirstOf(all, k);
    OrderedLists(db, Matching(db, after));
    var last := PositionOf(db, all[k - 1]);
    assert all[k - 1] in Matching(db, after);
    forall i | 0 <= i < k
      ensures all[i] !in Matching(db, last)
    {
      assert i < k - 1 ==> Less(PositionOf(db, all[i]), last);
    }
    forall m | m in Matching(db, after) && m !in taken
      ensures m in Matching(db, last)
    {
      var i :| 0 <= i < |all| && all[i] == m;
      assert i >= k && Less(last, PositionOf(db, all[i]));
    }
    assert Matching(db, last) == Matching(db, after) - taken;
  }

  /** Reading page after page until the server says there is no more. */
  ghost function Walk(db: Db, cursor: Cursor, limit: nat): (seq<Record>, Cursor)
    requires OneToOne(db) && limit >= 1
    decreases |Ordered(db, Matching(db, ResolvedTo(db, cursor)))|
  {
    PageAdvances(db, cursor, limit);
    var reply := MerchantsChangedSince(db, cursor, limit);
    if !reply.hasMore then (reply.upserted, reply.next)
    else
      var rest := Walk(db, reply.next, limit);
      (reply.upserted + rest.0, rest.1)
  }

  lemma RecordsSplit(db: Db, ids: seq<MerchantId>, k: nat)
    requires k <= |ids| && Known(db, ids)
    ensures Known(db, ids[..k]) && Known(db, ids[k..])
    ensures RecordsFor(db, ids) == RecordsFor(db, ids[..k]) + RecordsFor(db, ids[k..])
  {
  }

  lemma AllKnown(db: Db, after: Position)
    requires OneToOne(db)
    ensures Known(db, Ordered(db, Matching(db, after)))
  {
  }

  /** The walk ends, and delivered every remaining entry exactly once, in feed order. */
  lemma {:induction false} WalkDeliversAll(db: Db, cursor: Cursor, limit: nat)
    requires OneToOne(db) && limit >= 1
    ensures var all := Ordered(db, Matching(db, ResolvedTo(db, cursor)));
            var walk := Walk(db, cursor, limit);
            && Known(db, all) && walk.0 == RecordsFor(db, all)
            && Matching(db, ResolvedTo(db, walk.1)) == {}
    decreases |Ordered(db, Matching(db, ResolvedTo(db, cursor)))|
  {
    var all := Ordered(db, Matching(db, ResolvedTo(db, cursor)));
    var reply := MerchantsChangedSince(db, cursor, limit);
    PageAdvances(db, cursor, limit);
    AllKnown(db, ResolvedTo(db, cursor));
    RecordsSplit(db, all, Min(limit, |all|));
    if reply.hasMore {
      WalkDeliversAll(db, reply.next, limit);
    } else {
      assert all[..|all|] == all && all[|all|..] == [];
      OrderedLists(db, Matching(db, ResolvedTo(db, reply.next)));
    }
  }

  /** The merchant's transaction is over, and so is every one before it. */
  ghost predicate BelowOpen(db: Db, m: MerchantId)
    requires m in db.table
  {
    forall o :: o in db.open ==> db.table[m].xid < o
  }

  /** What the query wants, told from the rows: below every open writer, and after the position by transaction id, then id. */
  lemma WantedExactly(db: Db, after: Position, m: MerchantId)
    requires DbValid(db) && m in db.table
    ensures m in Matching(db, after) <==>
              && BelowOpen(db, m)
              && (after.xid < db.table[m].xid || (after.xid == db.table[m].xid && after.id < m))
  {
  }

  /** Applying what is left after a cursor brings the merchant up to date, unless an open writer hides it. */
  lemma DrainedEntry(w: World, h: Handed, m: MerchantId)
    requires Inv(w) && h in w.handed && OneToOne(w.db) && m in w.db.table && BelowOpen(w.db, m)
    ensures var left := Ordered(w.db, Matching(w.db, ResolvedTo(w.db, h.cursor)));
            Known(w.db, left)
            && Lookup(Applied(w.replica, RecordsFor(w.db, left)), w.db.aliases[m]) == Some(w.db.table[m].content)
  {
    var after := ResolvedTo(w.db, h.cursor);
    var left := Ordered(w.db, Matching(w.db, after));
    var rows := RowsOf(w.db, left);
    OrderedLists(w.db, Matching(w.db, after));
    AllKnown(w.db, after);
    assert HandedValid(w, h) && HoldsUpTo(w, PositionHanded(h));
    ResolvesNoFurther(w, h);
    if Less(after, PositionOf(w.db, m)) {
      WantedExactly(w.db, after, m);
      var i :| 0 <= i < |left| && left[i] == m;
      assert rows[i].id == m;
      ListedIsHeld(w, rows, m);
    } else {
      assert Holds(w, m);
      forall i | 0 <= i < |rows|
        ensures rows[i].id != m
      {
        assert left[i] in Matching(w.db, after);
      }
      UnlistedIsLeft(w, rows, m);
    }
  }

  /** Merchants in feed order, each once: by transaction id, then by id. */
  ghost predicate InFeedOrder(db: Db, ids: seq<MerchantId>)
    requires Known(db, ids)
  {
    forall i, j :: 0 <= i < j < |ids| ==>
      db.table[ids[i]].xid < db.table[ids[j]].xid || (db.table[ids[i]].xid == db.table[ids[j]].xid && ids[i] < ids[j])
  }

  /** What a walk from `cursor` lists: the records, and whose they are. */
  ghost predicate WalkLists(db: Db, cursor: Cursor, limit: nat, ids: seq<MerchantId>)
    requires OneToOne(db) && limit >= 1
  {
    && Known(db, ids) && InFeedOrder(db, ids)
    && Walk(db, cursor, limit).0 == RecordsFor(db, ids)
    && (forall m :: m in ids <==>
          && m in db.table && BelowOpen(db, m)
          && (cursor.xid < db.table[m].xid || (cursor.xid == db.table[m].xid && MerchantIdOf(db, cursor.principal) < m)))
  }

  /**
   A walk lists, in feed order and once each, exactly the merchants after the cursor whose
   transaction id is below every open one, whatever the page size and whoever is writing.
   */
  lemma WalkIsExact(db: Db, cursor: Cursor, limit: nat) returns (ids: seq<MerchantId>)
    requires OneToOne(db) && limit >= 1
    ensures WalkLists(db, cursor, limit, ids)
  {
    var after := ResolvedTo(db, cursor);
    ids := Ordered(db, Matching(db, after));
    WalkDeliversAll(db, cursor, limit);
    OrderedLists(db, Matching(db, after));
    forall i, j | 0 <= i < j < |ids|
      ensures db.table[ids[i]].xid < db.table[ids[j]].xid || (db.table[ids[i]].xid == db.table[ids[j]].xid && ids[i] < ids[j])
    {
      assert Less(PositionOf(db, ids[i]), PositionOf(db, ids[j]));
    }
    forall m
      ensures m in ids <==> m in Matching(db, after)
    {
    }
    forall m | m in db.table
      ensures m in Matching(db, after) <==>
                && BelowOpen(db, m)
                && (cursor.xid < db.table[m].xid || (cursor.xid == db.table[m].xid && MerchantIdOf(db, cursor.principal) < m))
    {
      WantedExactly(db, after, m);
    }
  }

  /**
   Draining is exact: in every reachable state, writers open or not, walking from any cursor
   handed out until there is no more leaves the replica holding the committed content of every
   merchant whose transaction id is below every open one.
   */
  lemma DrainIsExact(start: World, events: seq<Event>, h: Handed, limit: nat, m: MerchantId)
    requires Initial(start)
    requires var w := RunFrom(start, events); h in w.handed && OneToOne(w.db) && m in w.db.table
    requires limit >= 1
    ensures var w := RunFrom(start, events);
            var walk := Walk(w.db, h.cursor, limit);
            && ((forall o :: o in w.db.open ==> w.db.table[m].xid < o) ==>
                  Lookup(Applied(w.replica, walk.0), w.db.aliases[m]) == Some(w.db.table[m].content))
            && Walk(w.db, walk.1, limit).0 == []
  {
    RunKeepsInv(start, events);
    var w := RunFrom(start, events);
    WalkDeliversAll(w.db, h.cursor, limit);
    NothingLeft(w.db, Walk(w.db, h.cursor, limit).1, limit);
    if BelowOpen(w.db, m) {
      DrainedEntry(w, h, m);
    }
  }

  /** From where a walk ends there is nothing more. */
  lemma NothingLeft(db: Db, cursor: Cursor, limit: nat)
    requires OneToOne(db) && limit >= 1 && Matching(db, ResolvedTo(db, cursor)) == {}
    ensures Walk(db, cursor, limit).0 == []
  {
    WalkDeliversAll(db, cursor, limit);
  }

  // ----- and nothing else -----

  ghost predicate Named(w: World, p: Principal) {
    exists m :: m in w.db.table && m in w.owner && w.owner[m] == p
  }

  /** Everything the replica holds is a merchant of the table. */
  ghost predicate NoStrangers(w: World) {
    forall p :: p in w.replica ==> Named(w, p)
  }

  lemma NamedStays(w: World, w': World, p: Principal)
    requires Named(w, p) && w.db.table.Keys <= w'.db.table.Keys
    requires forall m :: m in w.owner ==> m in w'.owner && w'.owner[m] == w.owner[m]
    ensures Named(w', p)
  {
    var m :| m in w.db.table && m in w.owner && w.owner[m] == p;
    assert m in w'.db.table && w'.owner[m] == p;
  }

  lemma AppliedNames(w: World, rows: seq<Listed>, p: Principal)
    requires AliasesValid(w) && NoStrangers(w) && Aliased(w.db.aliases, rows)
    requires forall i :: 0 <= i < |rows| ==> rows[i].id in w.db.table
    ensures p in Applied(w.replica, RecordsOf(w.db.aliases, rows)) ==> Named(w, p)
  {
    var records := RecordsOf(w.db.aliases, rows);
    if i :| 0 <= i < |rows| && records[i].principal == p {
      assert w.owner[rows[i].id] == p;
    } else {
      AppliedLeaves(w.replica, records, p);
      assert p in Applied(w.replica, records) ==> Lookup(w.replica, p).Some?;
    }
  }

  lemma ReplyKeepsNoStrangers(w: World)
    requires Inv(w) && NoStrangers(w) && w.call.Queried?
    ensures NoStrangers(DoReply(w))
  {
    var w', rows := DoReply(w), w.call.page.rows;
    if Aliased(w.db.aliases, rows) {
      forall i | 0 <= i < |rows|
        ensures rows[i].id in w.db.table
      {
        assert RowValid(w, EndOf(w.call.page), rows[i]);
      }
      forall p | p in w'.replica
        ensures Named(w', p)
      {
        AppliedNames(w, rows, p);
        NamedStays(w, w', p);
      }
    } else {
      forall p | p in w'.replica
        ensures Named(w', p)
      {
        NamedStays(w, w', p);
      }
    }
  }

  lemma NextKeepsNoStrangers(w: World, e: Event)
    requires Inv(w) && NoStrangers(w)
    ensures NoStrangers(Next(w, e))
  {
    if e.Replies? && w.call.Queried? {
      ReplyKeepsNoStrangers(w);
    } else {
      forall p | p in Next(w, e).replica
        ensures Named(Next(w, e), p)
      {
        NamedStays(w, Next(w, e), p);
      }
    }
  }

  lemma {:induction false} RunKeepsNoStrangers(w: World, events: seq<Event>)
    requires Inv(w) && NoStrangers(w)
    ensures NoStrangers(RunFrom(w, events))
    decreases |events|
  {
    if events != [] {
      NextKeepsInv(w, events[0]);
      NextKeepsNoStrangers(w, events[0]);
      RunKeepsNoStrangers(Next(w, events[0]), events[1..]);
    }
  }

  /** The table as a reader sees it. */
  ghost function TableByPrincipal(db: Db): map<Principal, Content>
    requires OneToOne(db)
  {
    map m | m in db.table :: db.aliases[m] := db.table[m].content
  }

  lemma EqualsTable(db: Db, replica: map<Principal, Content>)
    requires OneToOne(db)
    requires forall m :: m in db.table ==> Lookup(replica, db.aliases[m]) == Some(db.table[m].content)
    requires forall p :: p in replica ==> exists m :: m in db.table && db.aliases[m] == p
    ensures replica == TableByPrincipal(db)
  {
    var table := TableByPrincipal(db);
    forall p
      ensures Lookup(replica, p) == Lookup(table, p)
    {
      if m :| m in db.table && db.aliases[m] == p {
        assert Lookup(replica, db.aliases[m]) == Some(db.table[m].content);
      }
    }
    assert forall p :: p in replica ==> Lookup(replica, p).Some? && Lookup(table, p).Some?;
    assert forall p :: p in table ==> Lookup(replica, p).Some?;
  }

  lemma DrainedWorld(w: World, h: Handed)
    requires Inv(w) && NoStrangers(w) && h in w.handed && OneToOne(w.db) && w.db.open == {}
    ensures var left := Ordered(w.db, Matching(w.db, ResolvedTo(w.db, h.cursor)));
            Known(w.db, left) && Applied(w.replica, RecordsFor(w.db, left)) == TableByPrincipal(w.db)
  {
    var left := Ordered(w.db, Matching(w.db, ResolvedTo(w.db, h.cursor)));
    AllKnown(w.db, ResolvedTo(w.db, h.cursor));
    var replica := Applied(w.replica, RecordsFor(w.db, left));
    forall m | m in w.db.table
      ensures Lookup(replica, w.db.aliases[m]) == Some(w.db.table[m].content)
    {
      DrainedEntry(w, h, m);
    }
    forall p | p in replica
      ensures exists m :: m in w.db.table && w.db.aliases[m] == p
    {
      AppliedNames(w, RowsOf(w.db, left), p);
      var m :| m in w.db.table && m in w.owner && w.owner[m] == p;
      assert w.db.aliases[m] == p;
    }
    EqualsTable(w.db, replica);
  }

  /** With no writer open, a reader that started empty and drains the feed holds the table: every merchant as committed, nothing else. */
  lemma DrainedReplicaIsTable(start: World, events: seq<Event>, h: Handed, limit: nat)
    requires Initial(start) && start.replica == map[]
    requires var w := RunFrom(start, events); h in w.handed && OneToOne(w.db) && w.db.open == {}
    requires limit >= 1
    ensures var w := RunFrom(start, events);
            Applied(w.replica, Walk(w.db, h.cursor, limit).0) == TableByPrincipal(w.db)
  {
    RunKeepsInv(start, events);
    RunKeepsNoStrangers(start, events);
    var w := RunFrom(start, events);
    WalkDeliversAll(w.db, h.cursor, limit);
    DrainedWorld(w, h);
  }

  // ----- the walk, call by call -----

  lemma {:induction false} AppliedConcat(replica: map<Principal, Content>, first: seq<Record>, second: seq<Record>)
    ensures Applied(replica, first + second) == Applied(Applied(replica, first), second)
    decreases |first|
  {
    if first == [] {
      assert first + second == second;
    } else {
      assert (first + second)[1..] == first[1..] + second;
      AppliedConcat(replica[first[0].principal := first[0].content], first[1..], second);
    }
  }

  /** The three events of a call with nothing between them. */
  function CallAlone(from: Handed, limit: nat): seq<Event> {
    [Resolves(from, limit), Queries, Replies]
  }

  lemma CallAloneRuns(w: World, from: Handed, limit: nat, rest: seq<Event>)
    requires w.call.Idle? && from in w.handed
    ensures RunFrom(w, CallAlone(from, limit) + rest) == RunFrom(DoReply(DoQuery(DoResolve(w, from, limit))), rest)
  {
    var events := CallAlone(from, limit) + rest;
    assert events[1..] == [Queries, Replies] + rest;
    assert events[1..][1..] == [Replies] + rest;
    assert events[1..][1..][1..] == rest;
    var a := DoResolve(w, from, limit);
    assert RunFrom(w, events) == RunFrom(a, events[1..]);
    assert RunFrom(a, events[1..]) == RunFrom(DoQuery(a), events[1..][1..]);
  }

  /** A call of its own answers as the three statements together. */
  lemma CallAloneAnswers(w: World, from: Handed, limit: nat)
    ensures var reply := MerchantsChangedSince(w.db, from.cursor, limit);
            var w' := DoReply(DoQuery(DoResolve(w, from, limit)));
            && w'.db == w.db && w'.call.Idle?
            && (reply.Reply? ==>
                  && w'.replica == Applied(w.replica, reply.upserted)
                  && exists h :: h in w'.handed && h.cursor == reply.next)
  {
    var reply := MerchantsChangedSince(w.db, from.cursor, limit);
    if reply.Reply? {
      var page := FindChangedAfter(w.db, from.cursor.xid, MerchantIdOf(w.db, from.cursor.principal), limit);
      var h := NextHanded(from, page, reply.next);
      assert h in DoReply(DoQuery(DoResolve(w, from, limit))).handed && h.cursor == reply.next;
    }
  }

  /** The walk is a run of calls: made of the reader, with nothing between them, it leaves its replica where the walk does. */
  lemma {:induction false} WalkIsRun(w: World, h: Handed, limit: nat) returns (events: seq<Event>)
    requires w.call.Idle? && h in w.handed && OneToOne(w.db) && limit >= 1
    ensures RunFrom(w, events).replica == Applied(w.replica, Walk(w.db, h.cursor, limit).0)
    ensures RunFrom(w, events).db == w.db
    decreases |Ordered(w.db, Matching(w.db, ResolvedTo(w.db, h.cursor)))|
  {
    var reply := MerchantsChangedSince(w.db, h.cursor, limit);
    var w' := DoReply(DoQuery(DoResolve(w, h, limit)));
    PageAdvances(w.db, h.cursor, limit);
    CallAloneAnswers(w, h, limit);
    if reply.hasMore {
      var next :| next in w'.handed && next.cursor == reply.next;
      var rest := WalkIsRun(w', next, limit);
      CallAloneRuns(w, h, limit, rest);
      AppliedConcat(w.replica, reply.upserted, Walk(w.db, reply.next, limit).0);
      events := CallAlone(h, limit) + rest;
    } else {
      CallAloneRuns(w, h, limit, []);
      events := CallAlone(h, limit) + [];
    }
  }
}
