/**
 The merchant change feed. Writers take increasing transaction ids and commit in any
 order; a trigger stamps every written merchant with its writer's id; a reader walks by
 cursor and is shown only entries below the snapshot's xmin.
 */
module MerchantFeed {
  import opened Common

  type Xid = nat
  type MerchantId = int
  type Principal = string

  datatype Content = Content(storeName: string, status: string)

  /** A committed merchant row joined with its feed row. */
  datatype Entry = Entry(content: Content, xid: Xid)

  /** An uncommitted write; its writer holds the row lock of the merchant. */
  datatype Write = Write(xid: Xid, content: Content)

  /**
   The database: `open` are the transaction ids in progress, `pending` the writes they have
   made, `aliases` the merchant alias rows present now.
   */
  datatype Db = Db(nextXid: Xid, open: set<Xid>, table: map<MerchantId, Entry>,
                   pending: map<MerchantId, Write>, aliases: map<MerchantId, Principal>)

  ghost predicate DbValid(db: Db) {
    && (forall x :: x in db.open ==> 0 < x < db.nextXid)
    && (forall m :: m in db.pending ==> m > 0 && db.pending[m].xid in db.open)
    && (forall m :: m in db.table ==> m > 0 && 0 < db.table[m].xid < db.nextXid && db.table[m].xid !in db.open)
    && 0 < db.nextXid
  }

  // ----- writers -----

  function Begin(db: Db): Db {
    db.(nextXid := db.nextXid + 1, open := db.open + {db.nextXid})
  }

  /** A writer may write a merchant whose row no other open writer holds. */
  predicate MayWrite(db: Db, x: Xid, m: MerchantId) {
    x in db.open && m > 0 && (m in db.pending ==> db.pending[m].xid == x)
  }

  function WriteRow(db: Db, x: Xid, m: MerchantId, content: Content): Db
    requires MayWrite(db, x, m)
  {
    db.(pending := db.pending[m := Write(x, content)])
  }

  function WrittenBy(db: Db, x: Xid): set<MerchantId> {
    set m | m in db.pending && db.pending[m].xid == x
  }

  function Abort(db: Db, x: Xid): Db {
    db.(open := db.open - {x}, pending := db.pending - WrittenBy(db, x))
  }

  function Commit(db: Db, x: Xid): Db {
    Abort(db, x).(table := db.table + map m | m in WrittenBy(db, x) :: Entry(db.pending[m].content, x))
  }

  lemma CommitValid(db: Db, x: Xid)
    requires DbValid(db) && x in db.open
    ensures DbValid(Commit(db, x)) && DbValid(Abort(db, x))
  {
  }

  /** The inner join of the merchants with their feed rows. */
  function Joined(merchants: map<MerchantId, Content>, feed: map<MerchantId, Xid>): map<MerchantId, Entry>
    requires merchants.Keys == feed.Keys
  {
    map m | m in merchants :: Entry(merchants[m], feed[m])
  }

  function Uncommitted(writing: map<MerchantId, Content>, stamping: map<MerchantId, Xid>): map<MerchantId, Write>
    requires writing.Keys == stamping.Keys
  {
    map m | m in writing :: Write(stamping[m], writing[m])
  }

  function StampedBy(stamping: map<MerchantId, Xid>, x: Xid): set<MerchantId> {
    set m | m in stamping && stamping[m] == x
  }

  /** The merchants a transaction wrote, over what was there. */
  function Overwritten(merchants: map<MerchantId, Content>, writing: map<MerchantId, Content>, mine: set<MerchantId>)
    : map<MerchantId, Content>
    requires mine <= writing.Keys
  {
    merchants + map m | m in mine :: writing[m]
  }

  function Stamped(feed: map<MerchantId, Xid>, mine: set<MerchantId>, x: Xid): map<MerchantId, Xid> {
    feed + map m | m in mine :: x
  }

  lemma MineIsWritten(writing: map<MerchantId, Content>, stamping: map<MerchantId, Xid>, mine: set<MerchantId>, db: Db, x: Xid)
    requires writing.Keys == stamping.Keys && db.pending == Uncommitted(writing, stamping)
    requires mine == StampedBy(stamping, x)
    ensures mine == WrittenBy(db, x) && mine <= writing.Keys
    ensures Uncommitted(writing - mine, stamping - mine) == db.pending - mine
  {
    assert mine == WrittenBy(db, x);
  }

  lemma RowsMove(merchants: map<MerchantId, Content>, feed: map<MerchantId, Xid>,
                 writing: map<MerchantId, Content>, pending: map<MerchantId, Write>, mine: set<MerchantId>, x: Xid)
    requires merchants.Keys == feed.Keys && mine <= writing.Keys && mine <= pending.Keys
    requires forall m :: m in mine ==> pending[m].content == writing[m]
    ensures Joined(Overwritten(merchants, writing, mine), Stamped(feed, mine, x))
         == Joined(merchants, feed) + map m | m in mine :: Entry(pending[m].content, x)
  {
    var left := Joined(Overwritten(merchants, writing, mine), Stamped(feed, mine, x));
    var right := Joined(merchants, feed) + map m | m in mine :: Entry(pending[m].content, x);
    assert left.Keys == right.Keys;
    forall m | m in left
      ensures left[m] == right[m]
    {
      assert m in mine || (m !in mine && m in merchants);
    }
  }

  lemma CommitMovesRows(merchants: map<MerchantId, Content>, feed: map<MerchantId, Xid>,
                        writing: map<MerchantId, Content>, stamping: map<MerchantId, Xid>,
                        mine: set<MerchantId>, db: Db, x: Xid)
    requires merchants.Keys == feed.Keys && writing.Keys == stamping.Keys
    requires mine == StampedBy(stamping, x)
    requires db.table == Joined(merchants, feed) && db.pending == Uncommitted(writing, stamping)
    ensures mine == WrittenBy(db, x) && mine <= writing.Keys
    ensures Joined(Overwritten(merchants, writing, mine), Stamped(feed, mine, x)) == Commit(db, x).table
    ensures Uncommitted(writing - mine, stamping - mine) == Abort(db, x).pending == Commit(db, x).pending
  {
    MineIsWritten(writing, stamping, mine, db, x);
    RowsMove(merchants, feed, writing, db.pending, mine, x);
  }

  /** Moving a transaction's rows is committing it; dropping them is aborting it. */
  lemma TablesCommit(merchants: map<MerchantId, Content>, feed: map<MerchantId, Xid>,
                     writing: map<MerchantId, Content>, stamping: map<MerchantId, Xid>, db: Db, x: Xid)
    requires merchants.Keys == feed.Keys && writing.Keys == stamping.Keys && DbValid(db) && x in db.open
    requires db.table == Joined(merchants, feed) && db.pending == Uncommitted(writing, stamping)
    ensures var mine := StampedBy(stamping, x);
            && mine <= writing.Keys && DbValid(Commit(db, x)) && DbValid(Abort(db, x))
            && Overwritten(merchants, writing, mine).Keys == Stamped(feed, mine, x).Keys
            && (writing - mine).Keys == (stamping - mine).Keys
            && Db(db.nextXid, db.open - {x}, Joined(Overwritten(merchants, writing, mine), Stamped(feed, mine, x)),
                  Uncommitted(writing - mine, stamping - mine), db.aliases) == Commit(db, x)
            && Db(db.nextXid, db.open - {x}, Joined(merchants, feed),
                  Uncommitted(writing - mine, stamping - mine), db.aliases) == Abort(db, x)
  {
    CommitValid(db, x);
    CommitMovesRows(merchants, feed, writing, stamping, StampedBy(stamping, x), db, x);
  }

  /**
   The two tables as the database holds them. Every merchant write fires the trigger that
   upserts the writer's transaction id into the feed row.
   */
  class MerchantTables {
    var nextXid: Xid
    var open: set<Xid>
    var merchants: map<MerchantId, Content>
    var feed: map<MerchantId, Xid>
    var writing: map<MerchantId, Content>
    var stamping: map<MerchantId, Xid>
    var aliases: map<MerchantId, Principal>

    ghost predicate Valid()
      reads this
    {
      && merchants.Keys == feed.Keys
      && writing.Keys == stamping.Keys
      && DbValid(State())
    }

    ghost function State(): Db
      requires merchants.Keys == feed.Keys && writing.Keys == stamping.Keys
      reads this
    {
      Db(nextXid, open, Joined(merchants, feed), Uncommitted(writing, stamping), aliases)
    }

    constructor ()
      ensures Valid() && State() == Db(1, {}, map[], map[], map[])
    {
      nextXid, open := 1, {};
      merchants, feed, writing, stamping, aliases := map[], map[], map[], map[], map[];
    }

    method BeginTransaction() returns (x: Xid)
      requires Valid()
      modifies this
      ensures Valid() && State() == Begin(old(State()))
      ensures x == old(nextXid) && x in open && forall o :: o in old(open) ==> o < x
    {
      x := nextXid;
      nextXid := nextXid + 1;
      open := open + {x};
    }

    method Save(x: Xid, m: MerchantId, content: Content)
      requires Valid() && MayWrite(State(), x, m)
      modifies this
      ensures Valid() && State() == WriteRow(old(State()), x, m, content)
    {
      writing := writing[m := content];
      RecordChangeTransaction(m, x);
      assert State().pending == old(State()).pending[m := Write(x, content)];
    }

    /** The trigger: insert the feed row, or on conflict set its transaction id. */
    method RecordChangeTransaction(m: MerchantId, x: Xid)
      modifies this`stamping
      ensures stamping == old(stamping)[m := x]
    {
      stamping := stamping[m := x];
    }

    method CommitTransaction(x: Xid)
      requires Valid() && x in open
      modifies this
      ensures Valid() && State() == Commit(old(State()), x)
    {
      ghost var after := Commit(State(), x);
      TablesCommit(merchants, feed, writing, stamping, State(), x);
      var mine := StampedBy(stamping, x);
      merchants, feed := Overwritten(merchants, writing, mine), Stamped(feed, mine, x);
      writing, stamping := writing - mine, stamping - mine;
      open := open - {x};
      assert State() == after;
    }

    method AbortTransaction(x: Xid)
      requires Valid() && x in open
      modifies this
      ensures Valid() && State() == Abort(old(State()), x)
    {
      TablesCommit(merchants, feed, writing, stamping, State(), x);
      var mine := StampedBy(stamping, x);
      writing, stamping := writing - mine, stamping - mine;
      open := open - {x};
    }
  }

  // ----- the reader's query -----

  /** A place in the feed; `Less` is the row comparison of the query. */
  datatype Position = Position(xid: Xid, id: MerchantId)

  predicate Less(p: Position, q: Position) {
    p.xid < q.xid || (p.xid == q.xid && p.id < q.id)
  }

  function PositionOf(db: Db, m: MerchantId): Position
    requires m in db.table
  {
    Position(db.table[m].xid, m)
  }

  /** `x` is below the snapshot's xmin: every transaction up to it has finished. */
  ghost predicate Settled(db: Db, x: Xid) {
    x < db.nextXid && forall o :: o in db.open ==> x < o
  }

  ghost function Matching(db: Db, after: Position): set<MerchantId> {
    set m | m in db.table && Settled(db, db.table[m].xid) && Less(after, PositionOf(db, m))
  }

  ghost predicate IsLeast(db: Db, ids: set<MerchantId>, m: MerchantId)
    requires ids <= db.table.Keys
  {
    m in ids && forall n :: n in ids && n != m ==> Less(PositionOf(db, m), PositionOf(db, n))
  }

  lemma {:induction false} LeastExists(db: Db, ids: set<MerchantId>)
    requires ids <= db.table.Keys && ids != {}
    ensures exists m :: IsLeast(db, ids, m)
    decreases |ids|
  {
    var a := Pick(ids);
    var rest := ids - {a};
    assert forall n :: n in ids && n != a ==> n in rest;
    if rest == {} {
      assert IsLeast(db, ids, a);
    } else {
      LeastExists(db, rest);
      var b :| IsLeast(db, rest, b);
      assert IsLeast(db, ids, if Less(PositionOf(db, a), PositionOf(db, b)) then a else b);
    }
  }

  /** ORDER BY change_transaction_id, id. */
  ghost function Ordered(db: Db, ids: set<MerchantId>): (all: seq<MerchantId>)
    requires ids <= db.table.Keys
    ensures forall i :: 0 <= i < |all| ==> all[i] in ids
    decreases |ids|
  {
    if ids == {} then []
    else
      LeastExists(db, ids);
      var m :| IsLeast(db, ids, m);
      [m] + Ordered(db, ids - {m})
  }

  /** A merchant as a page lists it. */
  datatype Listed = Listed(id: MerchantId, content: Content)

  datatype Page = Page(rows: seq<Listed>, hasMore: bool, lastXid: Xid)

  function RowsOf(db: Db, ids: seq<MerchantId>): seq<Listed>
    requires forall i :: 0 <= i < |ids| ==> ids[i] in db.table
  {
    seq(|ids|, i requires 0 <= i < |ids| => Listed(ids[i], db.table[ids[i]].content))
  }

  /** One row more than the limit is read, to learn whether there is more. */
  ghost function FindChangedAfter(db: Db, xid: Xid, lastId: MerchantId, limit: nat): Page {
    var all := Ordered(db, Matching(db, Position(xid, lastId)));
    var records := if |all| > limit + 1 then all[..limit + 1] else all;
    var hasMore := |records| > limit;
    var page := if hasMore then records[..limit] else records;
    Page(RowsOf(db, page), hasMore, if page != [] then db.table[page[|page| - 1]].xid else xid)
  }

  // ----- the RPC -----

  datatype Cursor = Cursor(xid: Xid, principal: Principal)

  datatype Record = Record(principal: Principal, content: Content)

  datatype Reply =
    | Reply(upserted: seq<Record>, next: Cursor, hasMore: bool)
    | Failure

  const MERCHANT_PAGE_DEFAULT := 100
  const MERCHANT_PAGE_MAX := 500

  function MerchantPageLimitOf(requested: Option<int>): (limit: nat)
    ensures 1 <= limit <= MERCHANT_PAGE_MAX
    ensures requested.Some? && 1 <= requested.value <= MERCHANT_PAGE_MAX ==> limit == requested.value
    ensures requested.Some? && requested.value > MERCHANT_PAGE_MAX ==> limit == MERCHANT_PAGE_MAX
    ensures requested.None? || requested.value <= 0 ==> limit == MERCHANT_PAGE_DEFAULT
  {
    if requested.None? || requested.value <= 0 then MERCHANT_PAGE_DEFAULT
    else Min(requested.value, MERCHANT_PAGE_MAX)
  }

  /** The merchant a cursor names; a principal no alias row knows falls back to 0. */
  ghost function MerchantIdOf(db: Db, principal: Principal): MerchantId {
    if principal != "" && exists m :: m in db.aliases && db.aliases[m] == principal then
      var m :| m in db.aliases && db.aliases[m] == principal; m
    else 0
  }

  predicate Aliased(aliases: map<MerchantId, Principal>, rows: seq<Listed>) {
    forall i :: 0 <= i < |rows| ==> rows[i].id in aliases
  }

  function RecordsOf(aliases: map<MerchantId, Principal>, rows: seq<Listed>): seq<Record>
    requires Aliased(aliases, rows)
  {
    seq(|rows|, i requires 0 <= i < |rows| => Record(aliases[rows[i].id], rows[i].content))
  }

  /** The reply to a page, once its aliases are read; a merchant without one fails the call. */
  function Replied(aliases: map<MerchantId, Principal>, cursor: Cursor, page: Page): Reply {
    if !Aliased(aliases, page.rows) then Failure
    else
      var next := if page.rows == [] then cursor else Cursor(page.lastXid, aliases[page.rows[|page.rows| - 1].id]);
      Reply(RecordsOf(aliases, page.rows), next, page.hasMore)
  }

  /** The three statements of a call with nothing between them: resolve the cursor, read the page, read the aliases. */
  ghost function MerchantsChangedSince(db: Db, cursor: Cursor, limit: nat): Reply {
    Replied(db.aliases, cursor, FindChangedAfter(db, cursor.xid, MerchantIdOf(db, cursor.principal), limit))
  }

  // ----- the order of the query -----

  ghost predicate Ascending(db: Db, ids: seq<MerchantId>)
    requires forall i :: 0 <= i < |ids| ==> ids[i] in db.table
  {
    forall i, j :: 0 <= i < j < |ids| ==> Less(PositionOf(db, ids[i]), PositionOf(db, ids[j]))
  }

  /** The query lists exactly the wanted merchants, each once, ascending by position. */
  lemma {:induction false} OrderedLists(db: Db, ids: set<MerchantId>)
    requires ids <= db.table.Keys
    ensures var all := Ordered(db, ids);
            && |all| == |ids|
            && (forall m :: m in ids ==> m in all)
            && Ascending(db, all)
    decreases |ids|
  {
    if ids != {} {
      var all := Ordered(db, ids);
      LeastExists(db, ids);
      var m := all[0];
      assert IsLeast(db, ids, m) && all == [m] + Ordered(db, ids - {m});
      OrderedLists(db, ids - {m});
    }
  }

  lemma PageIsPrefix(db: Db, xid: Xid, lastId: MerchantId, limit: nat)
    ensures var all := Ordered(db, Matching(db, Position(xid, lastId)));
            var page := FindChangedAfter(db, xid, lastId, limit);
            && (forall m :: m in Matching(db, Position(xid, lastId)) ==> m in all)
            && Ascending(db, all)
            && page.rows == RowsOf(db, all[..Min(limit, |all|)])
            && page.hasMore == (|all| > limit)
            && (page.rows != [] ==> page.rows[|page.rows| - 1].id in db.table
                                    && page.lastXid == db.table[page.rows[|page.rows| - 1].id].xid)
  {
    OrderedLists(db, Matching(db, Position(xid, lastId)));
  }

  /** An older writer that commits last does move an entry backwards in the feed. */
  lemma EntriesMoveBackwards(db: Db, older: Xid, newer: Xid, m: MerchantId, first: Content, second: Content)
    requires DbValid(db) && older in db.open && newer in db.open && older < newer && m > 0 && m !in db.pending
    ensures MayWrite(db, newer, m)
    ensures var a := Commit(WriteRow(db, newer, m, first), newer);
            && MayWrite(a, older, m)
            && var b := Commit(WriteRow(a, older, m, second), older);
            && m in a.table && m in b.table && Less(PositionOf(b, m), PositionOf(a, m))
            && b.table[m].content == second
  {
  }
}
