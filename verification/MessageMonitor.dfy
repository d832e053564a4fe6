/** The polling cursor of the iMessage monitor (src/Pi.IMessage/IMessageMonitor.cs) over a table that is
    queried by row id but ordered by date (src/Pi.IMessage/IMessageDatabase.cs). */
module MessageMonitor {
  datatype Row = Row(id: nat, date: int)

  /** Row ids are positive and grow with the table. */
  ghost predicate Ascending(table: seq<Row>) {
    && (forall i | 0 <= i < |table| :: table[i].id > 0)
    && (forall i, j | 0 <= i < j < |table| :: table[i].id < table[j].id)
  }

  /** Dates agree with row ids; rows may share a date. */
  ghost predicate DatesAgree(table: seq<Row>) {
    forall i, j | 0 <= i < j < |table| :: table[i].date <= table[j].date
  }

  ghost predicate ByDate(rows: seq<Row>) {
    forall i, j | 0 <= i < j < |rows| :: rows[i].date <= rows[j].date
  }

  function Waiting(table: seq<Row>, cursor: nat): set<Row> {
    set r | r in table && r.id > cursor
  }

  function Min(a: int, b: int): int {
    if a < b then a else b
  }

  function Rows(rows: seq<Row>): set<Row> {
    set r | r in rows
  }

  ghost predicate Distinct(rows: seq<Row>) {
    forall i, j | 0 <= i < j < |rows| :: rows[i].id != rows[j].id
  }

  /** Rows of the set, ordered by date, none later than those left out; rows of one date come in any
      order. */
  ghost predicate Earliest(waiting: set<Row>, batch: seq<Row>) {
    && Rows(batch) <= waiting && Distinct(batch)
    && ByDate(batch)
    && (forall b <- batch, r <- waiting - Rows(batch) :: b.date <= r.date)
  }

  /** What the query may answer: of the rows above the cursor the earliest, as many as the limit
      allows. */
  ghost predicate IsBatch(table: seq<Row>, cursor: nat, limit: nat, batch: seq<Row>) {
    && Earliest(Waiting(table, cursor), batch) && |batch| <= limit
    && (|batch| < limit ==> Rows(batch) == Waiting(table, cursor))
  }

  lemma EarliestExists(rows: set<Row>) returns (m: Row)
    requires rows != {}
    ensures m in rows && forall r <- rows :: m.date <= r.date
    decreases |rows|
  {
    m :| m in rows;
    if rows - {m} != {} {
      var n := EarliestExists(rows - {m});
      m := if n.date < m.date then n else m;
    }
  }

  lemma LatestExists(rows: set<Row>) returns (m: Row)
    requires rows != {}
    ensures m in rows && forall r <- rows :: r.date <= m.date
    decreases |rows|
  {
    m :| m in rows;
    if rows - {m} != {} {
      var n := LatestExists(rows - {m});
      m := if n.date > m.date then n else m;
    }
  }

  class Database {
    var table: seq<Row>

    constructor (table: seq<Row>)
      ensures this.table == table
    {
      this.table := table;
    }

    method Arrive(rows: seq<Row>)
      modifies this
      ensures table == old(table) + rows
    {
      table := table + rows;
    }

    /** The row id of a latest row by date, or 0 for an empty table. */
    method GetRecentRowId() returns (id: nat)
      ensures table == [] ==> id == 0
      ensures table != [] ==> exists r <- table :: r.id == id && forall q <- table :: q.date <= r.date
    {
      if table == [] { return 0; }
      var rows := set r | r in table;
      assert table[0] in rows;
      ghost var any := LatestExists(rows);
      var latest :| latest in rows && forall r <- rows :: r.date <= latest.date;
      return latest.id;
    }

    method GetMessagesSince(rowId: nat, limit: nat) returns (batch: seq<Row>)
      requires Ascending(table)
      ensures IsBatch(table, rowId, limit, batch)
    {
      hide Earliest, Ascending;
      ghost var waiting := Waiting(table, rowId);
      var remaining := set r | r in table && r.id > rowId;
      batch := [];
      NothingYet(waiting);
      while |batch| < limit && remaining != {}
        invariant remaining == waiting - Rows(batch) && Earliest(waiting, batch) && |batch| <= limit
        decreases |remaining|
      {
        ghost var any := EarliestExists(remaining);
        var row :| row in remaining && forall r <- remaining :: row.date <= r.date;
        RowsSnoc(batch, row);
        EarliestSnoc(table, waiting, batch, row);
        batch := batch + [row];
        remaining := remaining - {row};
      }
      EarliestWithin(waiting, batch);
    }
  }

  lemma NothingYet(waiting: set<Row>)
    ensures Earliest(waiting, []) && Rows([]) == {}
  {
  }

  lemma EarliestWithin(waiting: set<Row>, batch: seq<Row>)
    requires Earliest(waiting, batch)
    ensures Rows(batch) <= waiting
  {
  }

  lemma EarliestSnoc(table: seq<Row>, waiting: set<Row>, batch: seq<Row>, row: Row)
    requires Ascending(table) && Earliest(waiting, batch) && row in waiting - Rows(batch)
    requires forall r <- waiting :: r in table
    requires forall r <- waiting - Rows(batch) :: row.date <= r.date
    ensures Earliest(waiting, batch + [row])
  {
    hide Ascending;
    RowsSnoc(batch, row);
    forall r | r in batch
      ensures r in waiting && r.date <= row.date
    {
      assert r in Rows(batch);
    }
    OneRowPerId(table, batch, row);
  }

  lemma RowsSnoc(rows: seq<Row>, row: Row)
    ensures Rows(rows + [row]) == Rows(rows) + {row}
  {
  }

  lemma OneRowPerId(table: seq<Row>, rows: seq<Row>, row: Row)
    requires Ascending(table) && row in table && row !in rows && forall r <- rows :: r in table
    ensures forall r <- rows :: r.id != row.id
  {
    forall r | r in rows
      ensures r.id != row.id
    {
      var i :| 0 <= i < |table| && table[i] == r;
      var j :| 0 <= j < |table| && table[j] == row;
      assert i != j;
    }
  }

  // ---------------------------------------------------------------- the monitor

  /** The rows of a batch whose processing did not throw. */
  function Succeeded(batch: seq<Row>, throws: Row -> bool): seq<Row> {
    if batch == [] then []
    else
      var last := batch[|batch| - 1];
      var before := Succeeded(batch[..|batch| - 1], throws);
      if throws(last) then before else before + [last]
  }

  function MaxId(rows: seq<Row>, cursor: nat): nat {
    if rows == [] then cursor
    else
      var before := MaxId(rows[..|rows| - 1], cursor);
      var id := rows[|rows| - 1].id;
      if id > before then id else before
  }

  class IMessageMonitor {
    const database: Database
    const limit: nat
    var lastProcessedRowId: nat
    ghost var processed: seq<Row>

    constructor (database: Database, limit: nat)
      ensures this.database == database && this.limit == limit && processed == []
    {
      this.database, this.limit := database, limit;
      lastProcessedRowId, processed := 0, [];
    }

    /** No row is processed twice, and none that was processed will be fetched again. */
    ghost predicate Valid() reads this, database {
      && Ascending(database.table) && Distinct(processed)
      && (forall r <- processed :: r.id <= lastProcessedRowId)
    }

    method Initialise()
      requires Valid() && processed == []
      modifies this`lastProcessedRowId
      ensures Valid()
      ensures database.table == [] ==> lastProcessedRowId == 0
      ensures database.table != [] ==>
              exists r <- database.table :: r.id == lastProcessedRowId && forall q <- database.table :: q.date <= r.date
    {
      lastProcessedRowId := database.GetRecentRowId();
    }

    method PollForNewMessages(throws: Row -> bool) returns (ghost batch: seq<Row>)
      requires Valid()
      modifies this`lastProcessedRowId, this`processed
      ensures Valid() && IsBatch(database.table, old(lastProcessedRowId), limit, batch)
      ensures processed == old(processed) + Succeeded(batch, throws)
      ensures lastProcessedRowId == MaxId(Succeeded(batch, throws), old(lastProcessedRowId))
    {
      hide IsBatch, Succeeded, MaxId, Distinct, Ascending;
      var newMessages := database.GetMessagesSince(lastProcessedRowId, limit);
      batch := newMessages;
      NoneYet(throws, lastProcessedRowId);
      ghost var cursor, before := lastProcessedRowId, processed;
      for k := 0 to |newMessages|
        invariant processed == before + Succeeded(newMessages[..k], throws)
        invariant lastProcessedRowId == MaxId(Succeeded(newMessages[..k], throws), cursor)
      {
        var message := newMessages[k];
        SucceededSnoc(newMessages, k, throws);
        if !throws(message) {
          processed := processed + [message];
          MaxIdSnoc(Succeeded(newMessages[..k], throws), message, cursor);
          lastProcessedRowId := if message.id > lastProcessedRowId then message.id else lastProcessedRowId;
        }
      }
      assert newMessages[..|newMessages|] == newMessages;
      NothingTwice(database.table, cursor, limit, batch, throws, before);
    }
  }

  lemma NoneYet(throws: Row -> bool, cursor: nat)
    ensures Succeeded([], throws) == [] && MaxId([], cursor) == cursor
  {
  }

  lemma SucceededSnoc(batch: seq<Row>, k: nat, throws: Row -> bool)
    requires k < |batch|
    ensures Succeeded(batch[..k + 1], throws)
         == if throws(batch[k]) then Succeeded(batch[..k], throws) else Succeeded(batch[..k], throws) + [batch[k]]
  {
    assert batch[..k + 1][..k] == batch[..k];
  }

  lemma MaxIdSnoc(rows: seq<Row>, row: Row, cursor: nat)
    ensures MaxId(rows + [row], cursor) == if row.id > MaxId(rows, cursor) then row.id else MaxId(rows, cursor)
  {
    assert (rows + [row])[..|rows|] == rows;
  }

  lemma {:induction false} MaxIdMeaning(rows: seq<Row>, cursor: nat)
    ensures cursor <= MaxId(rows, cursor) && forall r <- rows :: r.id <= MaxId(rows, cursor)
    ensures MaxId(rows, cursor) == cursor || exists r <- rows :: r.id == MaxId(rows, cursor)
  {
    if rows != [] {
      var init, last := rows[..|rows| - 1], rows[|rows| - 1];
      MaxIdMeaning(init, cursor);
      assert rows == init + [last];
    }
  }

  lemma {:induction false} SucceededMeaning(batch: seq<Row>, throws: Row -> bool)
    ensures forall r :: r in Succeeded(batch, throws) <==> r in batch && !throws(r)
    ensures (forall r <- batch :: !throws(r)) ==> Succeeded(batch, throws) == batch
  {
    if batch != [] {
      var init, last := batch[..|batch| - 1], batch[|batch| - 1];
      SucceededMeaning(init, throws);
      assert batch == init + [last];
    }
  }

  lemma {:induction false} SucceededDistinct(batch: seq<Row>, throws: Row -> bool)
    requires Distinct(batch)
    ensures Distinct(Succeeded(batch, throws))
  {
    if batch != [] {
      var init, last := batch[..|batch| - 1], batch[|batch| - 1];
      SucceededDistinct(init, throws);
      SucceededMeaning(init, throws);
      forall r | r in Succeeded(init, throws)
        ensures r.id != last.id
      {
        var i :| 0 <= i < |init| && init[i] == r;
        assert batch[i] == r;
      }
    }
  }

  /** Whatever throws, the cursor never decreases, and a poll processes no row that was processed
      before. */
  lemma NothingTwice(table: seq<Row>, cursor: nat, limit: nat, batch: seq<Row>, throws: Row -> bool, before: seq<Row>)
    requires IsBatch(table, cursor, limit, batch) && Distinct(before) && forall r <- before :: r.id <= cursor
    ensures var done := Succeeded(batch, throws);
            && cursor <= MaxId(done, cursor) && Distinct(before + done)
            && (forall r <- before + done :: r.id <= MaxId(done, cursor))
  {
    var done := Succeeded(batch, throws);
    SucceededMeaning(batch, throws);
    SucceededDistinct(batch, throws);
    MaxIdMeaning(done, cursor);
    AboveCursor(table, cursor, limit, batch);
    hide MaxId, Succeeded, IsBatch;
  }

  lemma AboveCursor(table: seq<Row>, cursor: nat, limit: nat, batch: seq<Row>)
    requires IsBatch(table, cursor, limit, batch)
    ensures Distinct(batch) && forall r <- batch :: r in table && r.id > cursor
  {
    forall r | r in batch
      ensures r in table && r.id > cursor
    {
      assert r in Rows(batch);
    }
  }

  // ---------------------------------------------------------------- what a poll can lose

  /** The rows a poll moves the cursor past without processing them: no later poll fetches them. */
  function Lost(table: seq<Row>, cursor: nat, done: seq<Row>): set<Row> {
    (set r | r in table && cursor < r.id <= MaxId(done, cursor)) - Rows(done)
  }

  /** A row whose processing throws is lost exactly when a row with a greater id in the same batch is
      processed; otherwise the next poll fetches it again. */
  lemma ThrowingRow(table: seq<Row>, cursor: nat, limit: nat, batch: seq<Row>, throws: Row -> bool, r: Row)
    requires IsBatch(table, cursor, limit, batch) && r in batch && throws(r)
    ensures r in Lost(table, cursor, Succeeded(batch, throws)) <==> exists d <- batch :: !throws(d) && d.id > r.id
    ensures r !in Lost(table, cursor, Succeeded(batch, throws))
       <==> r in Waiting(table, MaxId(Succeeded(batch, throws), cursor))
  {
    var done := Succeeded(batch, throws);
    SucceededMeaning(batch, throws);
    MaxIdMeaning(done, cursor);
    AboveCursor(table, cursor, limit, batch);
    hide Succeeded, MaxId, IsBatch;
    if MaxId(done, cursor) >= r.id {
      var d :| d in done && d.id == MaxId(done, cursor);
      DistinctIds(batch, d, r);
    }
  }

  lemma DistinctIds(rows: seq<Row>, a: Row, b: Row)
    requires Distinct(rows) && a in rows && b in rows && a != b
    ensures a.id != b.id
  {
    var i :| 0 <= i < |rows| && rows[i] == a;
    var j :| 0 <= j < |rows| && rows[j] == b;
    assert i != j;
  }

  /** If nothing throws, a poll loses nothing exactly when every waiting row below one it fetched was
      fetched too. */
  lemma LossMeaning(table: seq<Row>, cursor: nat, limit: nat, batch: seq<Row>)
    requires Ascending(table) && IsBatch(table, cursor, limit, batch)
    ensures Lost(table, cursor, batch) == {}
       <==> forall r <- Waiting(table, cursor), d <- batch :: r.id < d.id ==> r in batch
  {
    MaxIdMeaning(batch, cursor);
    AboveCursor(table, cursor, limit, batch);
    hide MaxId, IsBatch, Ascending;
    if Lost(table, cursor, batch) == {} {
      forall r, d | r in Waiting(table, cursor) && d in batch && r.id < d.id
        ensures r in batch
      {
        assert r !in Lost(table, cursor, batch);
      }
    } else {
      var r :| r in Lost(table, cursor, batch);
      var d :| d in batch && d.id == MaxId(batch, cursor);
      assert r !in batch;
      OneRowPerId(table, batch, r);
    }
  }

  /** A poll that has room for everything that waits loses nothing, whatever the dates. */
  lemma RoomForAll(table: seq<Row>, cursor: nat, limit: nat, batch: seq<Row>)
    requires Ascending(table) && IsBatch(table, cursor, limit, batch) && |Waiting(table, cursor)| <= limit
    ensures Lost(table, cursor, batch) == {} && Rows(batch) == Waiting(table, cursor)
  {
    RowsSize(batch);
    SubsetOfSize(Rows(batch), Waiting(table, cursor));
    LossMeaning(table, cursor, limit, batch);
  }

  lemma {:induction false} RowsSize(rows: seq<Row>)
    requires Distinct(rows)
    ensures |Rows(rows)| == |rows|
  {
    if rows != [] {
      var init, last := rows[..|rows| - 1], rows[|rows| - 1];
      RowsSize(init);
      assert rows == init + [last];
      assert last !in init;
      RowsSnoc(init, last);
    }
  }

  lemma {:induction false} SubsetOfSize(a: set<Row>, b: set<Row>)
    requires a <= b && |a| >= |b|
    ensures a == b
  {
    if a != {} {
      var x :| x in a;
      SubsetOfSize(a - {x}, b - {x});
    }
  }

  function Earlier(rows: set<Row>, date: int): set<Row> {
    set r | r in rows && r.date < date
  }

  function NotLater(rows: set<Row>, date: int): set<Row> {
    set r | r in rows && r.date <= date
  }

  /** The waiting row r comes before q in the table, but the query may fetch q without r: q is not later,
      and the limit has room for q and not for everything up to r's date. */
  ghost predicate Clash(table: seq<Row>, cursor: nat, limit: nat, r: Row, q: Row) {
    var waiting := Waiting(table, cursor);
    && r in waiting && q in waiting && r.id < q.id && q.date <= r.date
    && |Earlier(waiting, q.date)| < limit < |NotLater(waiting, r.date)|
  }

  /** For any dates: no answer of the query makes a poll lose a row exactly if no two waiting rows clash. */
  lemma ClashDecides(table: seq<Row>, cursor: nat, limit: nat)
    requires Ascending(table)
    ensures (forall batch | IsBatch(table, cursor, limit, batch) :: Lost(table, cursor, batch) == {})
       <==> !exists r, q :: Clash(table, cursor, limit, r, q)
  {
    hide Ascending, IsBatch, Clash, Lost;
    forall batch | IsBatch(table, cursor, limit, batch) && Lost(table, cursor, batch) != {}
      ensures exists r, q :: Clash(table, cursor, limit, r, q)
    {
      LossClashes(table, cursor, limit, batch);
    }
    forall r, q | Clash(table, cursor, limit, r, q)
      ensures exists batch :: IsBatch(table, cursor, limit, batch) && Lost(table, cursor, batch) != {}
    {
      ClashLoses(table, cursor, limit, r, q);
    }
  }

  lemma LossClashes(table: seq<Row>, cursor: nat, limit: nat, batch: seq<Row>)
    requires Ascending(table) && IsBatch(table, cursor, limit, batch) && Lost(table, cursor, batch) != {}
    ensures exists r, q :: Clash(table, cursor, limit, r, q)
  {
    LossMeaning(table, cursor, limit, batch);
    var waiting := Waiting(table, cursor);
    var r, q :| r in waiting && q in batch && r.id < q.id && r !in batch;
    assert q in Rows(batch) && r in waiting - Rows(batch);
    RowsSize(batch);
    assert Earlier(waiting, q.date) <= Rows(batch) - {q};
    SubsetSize(Earlier(waiting, q.date), Rows(batch) - {q});
    assert Rows(batch) + {r} <= NotLater(waiting, r.date);
    SubsetSize(Rows(batch) + {r}, NotLater(waiting, r.date));
    assert Clash(table, cursor, limit, r, q);
  }

  /** The first `n` rows by date, with q before and r after the other rows of its date. */
  lemma {:induction false} FetchAround(table: seq<Row>, waiting: set<Row>, n: nat, r: Row, q: Row)
    returns (batch: seq<Row>)
    requires Ascending(table) && q in waiting && r != q && n <= |waiting| && forall w <- waiting :: w in table
    ensures Earliest(waiting, batch) && |batch| == |Rows(batch)| == n
    ensures q in batch || Rows(batch) <= Earlier(waiting, q.date)
    ensures r in batch ==> NotLater(waiting, r.date) <= Rows(batch)
  {
    batch := [];
    NothingYet(waiting);
    if n > 0 {
      batch := FetchAround(table, waiting, n - 1, r, q);
      hide Ascending, Earliest, Distinct;
      EarliestWithin(waiting, batch);
      var remaining := waiting - Rows(batch);
      assert remaining == {} ==> Rows(batch) == waiting;
      var row := PickAround(remaining, r, q);
      EarliestSnoc(table, waiting, batch, row);
      RowsSnoc(batch, row);
      batch := batch + [row];
    }
  }

  lemma PickAround(remaining: set<Row>, r: Row, q: Row) returns (row: Row)
    requires remaining != {} && r != q
    ensures row in remaining && forall x <- remaining :: row.date <= x.date
    ensures q in remaining && row != q ==> row.date < q.date
    ensures row == r ==> NotLater(remaining, r.date) == {r}
  {
    row := EarliestExists(remaining);
    if q in remaining && q.date == row.date {
      row := q;
    } else if row == r && NotLater(remaining, r.date) != {r} {
      assert r in NotLater(remaining, r.date);
      row :| row in NotLater(remaining, r.date) && row != r;
    }
  }

  lemma ClashLoses(table: seq<Row>, cursor: nat, limit: nat, r: Row, q: Row)
    requires Ascending(table) && Clash(table, cursor, limit, r, q)
    ensures exists batch :: IsBatch(table, cursor, limit, batch) && Lost(table, cursor, batch) != {}
  {
    hide Ascending, Earliest, Lost;
    var waiting := Waiting(table, cursor);
    SubsetSize(NotLater(waiting, r.date), waiting);
    var batch := FetchAround(table, waiting, limit, r, q);
    assert q in batch by {
      if q !in batch {
        SubsetSize(Rows(batch), Earlier(waiting, q.date));
      }
    }
    assert r !in batch by {
      if r in batch {
        SubsetSize(NotLater(waiting, r.date), Rows(batch));
      }
    }
    assert IsBatch(table, cursor, limit, batch);
    LossMeaning(table, cursor, limit, batch);
  }

  /** With less room, a row whose date is out of step with its id is lost. */
  lemma OutOfStepIsLost(batch: seq<Row>)
    requires IsBatch([Row(1, 10), Row(2, 5)], 0, 1, batch)
    ensures batch == [Row(2, 5)] && Lost([Row(1, 10), Row(2, 5)], 0, batch) == {Row(1, 10)}
  {
    var table := [Row(1, 10), Row(2, 5)];
    assert Row(1, 10) in table && table[1] == Row(2, 5);
    AboveCursor(table, 0, 1, batch);
    assert Waiting(table, 0) == {Row(1, 10), Row(2, 5)};
    assert batch != [] by {
      assert Row(1, 10) !in Rows([]);
    }
    assert batch == [batch[0]];
    assert batch[0] != Row(1, 10) by {
      assert Row(2, 5) !in Rows([Row(1, 10)]);
    }
    MaxIdMeaning(batch, 0);
  }

  // ---------------------------------------------------------------- any run

  function LastId(table: seq<Row>): nat {
    if table == [] then 0 else table[|table| - 1].id
  }

  /** Every row above the starting cursor has been processed, was lost in some poll, or is waiting. */
  ghost predicate Accounted(table: seq<Row>, start: nat, cursor: nat, processed: seq<Row>, missed: set<Row>) {
    && start <= cursor <= LastId(table) && Rows(processed) !! missed
    && Waiting(table, start) == Rows(processed) + missed + Waiting(table, cursor)
    && (forall r <- missed :: r.id <= cursor)
  }

  lemma ArrivalAccounted(table: seq<Row>, rows: seq<Row>, start: nat, cursor: nat, processed: seq<Row>,
                         missed: set<Row>)
    requires Accounted(table, start, cursor, processed, missed) && Ascending(table + rows)
    ensures Accounted(table + rows, start, cursor, processed, missed)
  {
    ArrivalsAreAbove(table, rows);
    WaitingPlus(table, rows, start);
    WaitingPlus(table, rows, cursor);
  }

  lemma ArrivalsAreAbove(table: seq<Row>, rows: seq<Row>)
    requires Ascending(table + rows)
    ensures LastId(table) <= LastId(table + rows) && forall r <- rows :: r.id > LastId(table)
  {
    var all := table + rows;
    assert forall i | 0 <= i < |table| :: all[i] == table[i];
    forall r | r in rows
      ensures r.id > LastId(table)
    {
      var j :| 0 <= j < |rows| && rows[j] == r;
      assert all[|table| + j] == r;
    }
    if rows != [] {
      assert all[|all| - 1] == rows[|rows| - 1] && rows[|rows| - 1] in rows;
    } else {
      assert all == table;
    }
  }

  lemma WaitingPlus(table: seq<Row>, rows: seq<Row>, cursor: nat)
    requires forall r <- rows :: r.id > cursor
    ensures Waiting(table + rows, cursor) == Waiting(table, cursor) + Rows(rows)
  {
  }

  lemma PollAccounted(table: seq<Row>, start: nat, cursor: nat, limit: nat, processed: seq<Row>, missed: set<Row>,
      batch: seq<Row>, throws: Row -> bool)
    requires Ascending(table) && Accounted(table, start, cursor, processed, missed)
    requires IsBatch(table, cursor, limit, batch)
    requires forall r <- processed :: r.id <= cursor
    ensures var done := Succeeded(batch, throws);
            Accounted(table, start, MaxId(done, cursor), processed + done, missed + Lost(table, cursor, done))
  {
    var done := Succeeded(batch, throws);
    SucceededMeaning(batch, throws);
    MaxIdMeaning(done, cursor);
    AboveCursor(table, cursor, limit, batch);
    hide Succeeded, MaxId, IsBatch, Rows, Waiting, Lost;
    RowsPlus(processed, done);
    BelowLast(table);
    WaitingSplits(table, cursor, done);
    NothingShared(table, cursor, processed, missed, done);
  }

  /** What waited before a poll has been processed, is lost or waits. */
  lemma WaitingSplits(table: seq<Row>, cursor: nat, done: seq<Row>)
    requires forall r <- done :: r in table && r.id > cursor
    ensures Waiting(table, cursor) == Rows(done) + Lost(table, cursor, done) + Waiting(table, MaxId(done, cursor))
    ensures forall r <- Lost(table, cursor, done) :: r.id <= MaxId(done, cursor)
  {
    MaxIdMeaning(done, cursor);
    hide MaxId;
  }

  lemma NothingShared(table: seq<Row>, cursor: nat, processed: seq<Row>, missed: set<Row>, done: seq<Row>)
    requires Rows(processed) !! missed && (forall r <- missed :: r.id <= cursor)
    requires forall r <- processed :: r.id <= cursor
    requires forall r <- done :: r.id > cursor
    ensures Rows(processed) + Rows(done) !! missed + Lost(table, cursor, done)
  {
    hide MaxId;
  }

  lemma RowsPlus(a: seq<Row>, b: seq<Row>)
    ensures Rows(a + b) == Rows(a) + Rows(b)
  {
  }

  lemma BelowLast(table: seq<Row>)
    requires Ascending(table)
    ensures forall r <- table :: r.id <= LastId(table)
  {
  }

  /** One poll: the table and the cursor it found, what the query answered, what did not throw. */
  datatype Poll = Poll(table: seq<Row>, cursor: nat, batch: seq<Row>, done: seq<Row>)

  function CursorAfter(polls: seq<Poll>, start: nat): nat {
    if polls == [] then start else var p := polls[|polls| - 1]; MaxId(p.done, p.cursor)
  }

  function ProcessedBy(polls: seq<Poll>): seq<Row> {
    if polls == [] then [] else ProcessedBy(polls[..|polls| - 1]) + polls[|polls| - 1].done
  }

  function LostBy(polls: seq<Poll>): set<Row> {
    if polls == [] then {}
    else
      var p := polls[|polls| - 1];
      LostBy(polls[..|polls| - 1]) + Lost(p.table, p.cursor, p.done)
  }

  /** The polls of a run, each after its round of arrivals and from the cursor the one before left. */
  ghost predicate Polled(polls: seq<Poll>, initial: seq<Row>, rounds: seq<seq<Row>>, limit: nat,
                         throws: nat -> Row -> bool, start: nat)
    requires |polls| <= |rounds|
  {
    polls == [] ||
    var n := |polls| - 1;
    var p := polls[n];
    && Polled(polls[..n], initial, rounds, limit, throws, start)
    && p.table == initial + Flatten(rounds, n + 1) && p.cursor == CursorAfter(polls[..n], start)
    && IsBatch(p.table, p.cursor, limit, p.batch) && p.done == Succeeded(p.batch, throws(n))
  }

  /** The poll processed a row and not the waiting row r below it. */
  ghost predicate Passes(p: Poll, r: Row) {
    r in Waiting(p.table, p.cursor) && r !in p.done && exists d <- p.done :: r.id < d.id
  }

  /** No waiting rows clash, and no row of the batch throws while a greater one is processed. */
  ghost predicate Harmless(p: Poll, limit: nat) {
    && (forall r, q :: !Clash(p.table, p.cursor, limit, r, q))
    && (forall r <- p.batch, d <- p.done :: r.id < d.id ==> r in p.done)
  }

  /** A poll loses exactly the rows it passes. */
  lemma LostIsPassed(p: Poll, limit: nat, throws: Row -> bool, r: Row)
    requires IsBatch(p.table, p.cursor, limit, p.batch) && p.done == Succeeded(p.batch, throws) && Ascending(p.table)
    ensures r in Lost(p.table, p.cursor, p.done) <==> Passes(p, r)
  {
    SucceededMeaning(p.batch, throws);
    AboveCursor(p.table, p.cursor, limit, p.batch);
    MaxIdMeaning(p.done, p.cursor);
    hide MaxId, Succeeded, IsBatch, Ascending;
    if r in Lost(p.table, p.cursor, p.done) {
      var d :| d in p.done && d.id == MaxId(p.done, p.cursor);
      OneRowPerId(p.table, p.done, r);
    }
  }

  lemma HarmlessLosesNothing(p: Poll, limit: nat, throws: Row -> bool)
    requires IsBatch(p.table, p.cursor, limit, p.batch) && p.done == Succeeded(p.batch, throws) && Ascending(p.table)
    requires Harmless(p, limit)
    ensures Lost(p.table, p.cursor, p.done) == {}
  {
    SucceededMeaning(p.batch, throws);
    ClashDecides(p.table, p.cursor, limit);
    LossMeaning(p.table, p.cursor, limit, p.batch);
    hide IsBatch, Succeeded, Ascending, Clash, Lost;
    forall r
      ensures r !in Lost(p.table, p.cursor, p.done)
    {
      LostIsPassed(p, limit, throws, r);
    }
  }

  lemma PolledSnoc(polls: seq<Poll>, p: Poll, initial: seq<Row>, rounds: seq<seq<Row>>, limit: nat,
                   throws: nat -> Row -> bool, start: nat)
    requires |polls| < |rounds| && Polled(polls, initial, rounds, limit, throws, start)
    requires p.table == initial + Flatten(rounds, |polls| + 1) && p.cursor == CursorAfter(polls, start)
    requires IsBatch(p.table, p.cursor, limit, p.batch) && p.done == Succeeded(p.batch, throws(|polls|))
    ensures Polled(polls + [p], initial, rounds, limit, throws, start)
    ensures CursorAfter(polls + [p], start) == MaxId(p.done, p.cursor)
    ensures ProcessedBy(polls + [p]) == ProcessedBy(polls) + p.done
    ensures LostBy(polls + [p]) == LostBy(polls) + Lost(p.table, p.cursor, p.done)
  {
    hide Flatten, IsBatch, Succeeded, MaxId, Lost;
    assert (polls + [p])[..|polls|] == polls;
  }

  /** What a run misses, each row in the poll that passed it. */
  lemma {:induction false} MissedMeans(polls: seq<Poll>, initial: seq<Row>, rounds: seq<seq<Row>>, limit: nat,
                                       throws: nat -> Row -> bool, start: nat)
    requires |polls| <= |rounds| && Polled(polls, initial, rounds, limit, throws, start)
    requires Ascending(initial + Flatten(rounds, |rounds|))
    ensures forall r :: r in LostBy(polls) <==> exists p <- polls :: Passes(p, r)
    ensures (forall p <- polls :: Harmless(p, limit)) ==> LostBy(polls) == {}
  {
    hide Flatten, IsBatch, Succeeded, MaxId, Lost, Ascending, Passes, Harmless, CursorAfter;
    if polls != [] {
      var n := |polls| - 1;
      var p := polls[n];
      MissedMeans(polls[..n], initial, rounds, limit, throws, start);
      RoundAscending(initial, rounds, n);
      forall r
        ensures r in Lost(p.table, p.cursor, p.done) <==> Passes(p, r)
      {
        LostIsPassed(p, limit, throws(n), r);
      }
      if Harmless(p, limit) {
        HarmlessLosesNothing(p, limit, throws(n));
      }
      assert polls == polls[..n] + [p];
    }
  }

  /** Rows may arrive with any dates and any row may throw: none is processed twice, and every row above
      the starting cursor has been processed, was passed by some poll, which processed a greater row and
      not this one, or is still waiting. */
  method AnyRun(monitor: IMessageMonitor, rounds: seq<seq<Row>>, throws: nat -> Row -> bool)
    returns (ghost polls: seq<Poll>, ghost missed: set<Row>)
    requires monitor.Valid() && monitor.processed == [] && Ascending(monitor.database.table + Flatten(rounds, |rounds|))
    requires monitor.lastProcessedRowId <= LastId(monitor.database.table)
    modifies monitor, monitor.database
    ensures monitor.Valid() && monitor.database.table == old(monitor.database.table) + Flatten(rounds, |rounds|)
    ensures |polls| == |rounds|
    ensures Polled(polls, old(monitor.database.table), rounds, monitor.limit, throws, old(monitor.lastProcessedRowId))
    ensures monitor.processed == ProcessedBy(polls)
    ensures monitor.lastProcessedRowId == CursorAfter(polls, old(monitor.lastProcessedRowId))
    ensures Accounted(monitor.database.table, old(monitor.lastProcessedRowId), monitor.lastProcessedRowId,
                      monitor.processed, missed)
    ensures forall r :: r in missed <==> exists p <- polls :: Passes(p, r)
    ensures (forall p <- polls :: Harmless(p, monitor.limit)) ==> missed == {}
  {
    hide Ascending, IsBatch, Succeeded, MaxId, Flatten, Accounted, Lost;
    hide Polled, CursorAfter, ProcessedBy, LostBy, Passes, Harmless;
    polls, missed := [], {};
    ghost var initial, start := monitor.database.table, monitor.lastProcessedRowId;
    NoRounds(rounds);
    NoPolls(initial, rounds, monitor.limit, throws, start);
    NothingMissed(initial, start);
    for k := 0 to |rounds|
      invariant monitor.Valid() && monitor.database.table == initial + Flatten(rounds, k)
      invariant |polls| == k && Polled(polls, initial, rounds, monitor.limit, throws, start) && missed == LostBy(polls)
      invariant monitor.processed == ProcessedBy(polls) && monitor.lastProcessedRowId == CursorAfter(polls, start)
      invariant Accounted(monitor.database.table, start, monitor.lastProcessedRowId, monitor.processed, missed)
    {
      OneRound(initial, rounds, k);
      RoundAscending(initial, rounds, k);
      ArrivalAccounted(monitor.database.table, rounds[k], start, monitor.lastProcessedRowId, monitor.processed, missed);
      monitor.database.Arrive(rounds[k]);
      ghost var table, cursor, processed := monitor.database.table, monitor.lastProcessedRowId, monitor.processed;
      ghost var batch := monitor.PollForNewMessages(throws(k));
      PollAccounted(table, start, cursor, monitor.limit, processed, missed, batch, throws(k));
      ghost var poll := Poll(table, cursor, batch, Succeeded(batch, throws(k)));
      PolledSnoc(polls, poll, initial, rounds, monitor.limit, throws, start);
      polls, missed := polls + [poll], missed + Lost(table, cursor, poll.done);
    }
    MissedMeans(polls, initial, rounds, monitor.limit, throws, start);
  }

  lemma RoundAscending(initial: seq<Row>, rounds: seq<seq<Row>>, k: nat)
    requires k < |rounds| && Ascending(initial + Flatten(rounds, |rounds|))
    ensures Ascending(initial + Flatten(rounds, k + 1))
  {
    FlattenPrefix(rounds, k + 1, |rounds|);
    PrefixBehind(initial, Flatten(rounds, k + 1), Flatten(rounds, |rounds|));
    PrefixAscending(initial + Flatten(rounds, k + 1), initial + Flatten(rounds, |rounds|));
  }

  lemma NoPolls(initial: seq<Row>, rounds: seq<seq<Row>>, limit: nat, throws: nat -> Row -> bool, start: nat)
    ensures Polled([], initial, rounds, limit, throws, start)
    ensures CursorAfter([], start) == start && ProcessedBy([]) == [] && LostBy([]) == {}
  {
  }

  lemma NothingMissed(table: seq<Row>, start: nat)
    requires start <= LastId(table)
    ensures Accounted(table, start, start, [], {})
  {
  }

  // ---------------------------------------------------------------- dates in step with ids

  /** The id that stands for having processed the first c rows. */
  function IdAt(table: seq<Row>, c: nat): nat
    requires c <= |table|
  {
    if c == 0 then 0 else table[c - 1].id
  }

  /** Where the next poll ends, and whether it does not cut between rows of one date. */
  function CutAfter(table: seq<Row>, c: nat, limit: nat): nat {
    Min(|table|, c + limit)
  }

  predicate CutOk(table: seq<Row>, c: nat, limit: nat) {
    var d := CutAfter(table, c, limit);
    c < d < |table| ==> table[d - 1].date < table[d].date
  }

  lemma WaitingIsTail(table: seq<Row>, c: nat)
    requires Ascending(table) && c <= |table|
    ensures Waiting(table, IdAt(table, c)) == Rows(table[c..]) && |Waiting(table, IdAt(table, c))| == |table| - c
  {
    forall r
      ensures r in Waiting(table, IdAt(table, c)) <==> r in table[c..]
    {
      if r in table {
        var i :| 0 <= i < |table| && table[i] == r;
        if i >= c {
          assert table[c..][i - c] == r;
        }
      }
    }
    RowsSize(table[c..]);
  }

  /** A batch has as many rows as there are, up to the limit. */
  lemma BatchSize(table: seq<Row>, c: nat, limit: nat, batch: seq<Row>)
    requires Ascending(table) && c <= |table| && IsBatch(table, IdAt(table, c), limit, batch)
    ensures |batch| == |Rows(batch)| == CutAfter(table, c, limit) - c
  {
    WaitingIsTail(table, c);
    RowsSize(batch);
    SubsetSize(Rows(batch), Waiting(table, IdAt(table, c)));
  }

  lemma {:induction false} SubsetSize(a: set<Row>, b: set<Row>)
    requires a <= b
    ensures |a| <= |b|
  {
    if a != {} {
      var x :| x in a;
      SubsetSize(a - {x}, b - {x});
    }
  }

  lemma LeftOutIsLater(table: seq<Row>, cursor: nat, limit: nat, batch: seq<Row>, b: Row, r: Row)
    requires IsBatch(table, cursor, limit, batch) && b in batch && r in Waiting(table, cursor) && r !in batch
    ensures b.date <= r.date
  {
  }

  /** If a batch reaches behind the cut, rows on both sides of the cut share their date. */
  lemma ReachesBehind(table: seq<Row>, c: nat, limit: nat, batch: seq<Row>, j: nat)
    requires Ascending(table) && DatesAgree(table) && c <= |table| && IsBatch(table, IdAt(table, c), limit, batch)
    requires CutAfter(table, c, limit) <= j < |table| && table[j] in batch
    ensures !CutOk(table, c, limit)
  {
    var d := CutAfter(table, c, limit);
    BatchSize(table, c, limit, batch);
    SomeLeftOut(table, c, d, batch, j);
    assert forall i | c <= i < d :: table[i] in Waiting(table, IdAt(table, c));
    hide IsBatch, Rows, Ascending, Waiting;
    var i :| c <= i < d && table[i] !in batch;
    LeftOutIsLater(table, IdAt(table, c), limit, batch, table[j], table[i]);
    assert table[i].date <= table[d - 1].date;
    assert table[d].date <= table[j].date;
  }

  lemma SomeLeftOut(table: seq<Row>, c: nat, d: nat, batch: seq<Row>, j: nat)
    requires Ascending(table) && c <= d <= j < |table| && table[j] in batch && |Rows(batch)| == d - c
    ensures exists i | c <= i < d :: table[i] !in batch
  {
    if forall i | c <= i < d :: table[i] in batch {
      var stretch := table[c..d] + [table[j]];
      RowsSize(stretch);
      SubsetSize(Rows(stretch), Rows(batch));
    }
  }

  lemma IndexOf(table: seq<Row>, c: nat, r: Row) returns (i: nat)
    requires Ascending(table) && c <= |table| && r in table && r.id > IdAt(table, c)
    ensures c <= i < |table| && table[i] == r
  {
    i :| 0 <= i < |table| && table[i] == r;
  }

  lemma InStretch(table: seq<Row>, c: nat, d: nat, i: nat)
    requires c <= i < d <= |table|
    ensures table[i] in Rows(table[c..d])
  {
    assert table[c..d][i - c] == table[i];
  }

  /** When dates agree with ids and the cut is clean, a batch holds exactly the next stretch of the table. */
  lemma BatchIsStretch(table: seq<Row>, c: nat, limit: nat, batch: seq<Row>)
    requires Ascending(table) && DatesAgree(table) && c <= |table| && CutOk(table, c, limit)
    requires IsBatch(table, IdAt(table, c), limit, batch)
    ensures Rows(batch) == Rows(table[c..CutAfter(table, c, limit)]) && |batch| == CutAfter(table, c, limit) - c
  {
    var d := CutAfter(table, c, limit);
    BatchSize(table, c, limit, batch);
    RowsSize(table[c..d]);
    AboveCursor(table, IdAt(table, c), limit, batch);
    hide IsBatch, Ascending, DatesAgree, CutOk, IdAt;
    forall r | r in batch
      ensures r in Rows(table[c..d])
    {
      var i := IndexOf(table, c, r);
      if i >= d {
        ReachesBehind(table, c, limit, batch, i);
      }
      InStretch(table, c, d, i);
    }
    SubsetOfSize(Rows(batch), Rows(table[c..d]));
  }

  /** When dates agree with ids, no answer of the query can make a poll lose a row exactly if it does not
      cut between rows of one date. */
  lemma TiesDecide(table: seq<Row>, c: nat, limit: nat)
    requires Ascending(table) && DatesAgree(table) && c <= |table|
    ensures (forall batch | IsBatch(table, IdAt(table, c), limit, batch) :: Lost(table, IdAt(table, c), batch) == {})
       <==> CutOk(table, c, limit)
  {
    if CutOk(table, c, limit) {
      forall batch | IsBatch(table, IdAt(table, c), limit, batch)
        ensures Lost(table, IdAt(table, c), batch) == {}
      {
        StretchLosesNothing(table, c, limit, batch);
      }
    } else {
      ClashDecides(table, IdAt(table, c), limit);
      TieClashes(table, c, limit);
    }
  }

  lemma StretchLosesNothing(table: seq<Row>, c: nat, limit: nat, batch: seq<Row>)
    requires Ascending(table) && DatesAgree(table) && c <= |table| && CutOk(table, c, limit)
    requires IsBatch(table, IdAt(table, c), limit, batch)
    ensures Lost(table, IdAt(table, c), batch) == {}
    ensures MaxId(batch, IdAt(table, c)) == IdAt(table, CutAfter(table, c, limit))
  {
    var d := CutAfter(table, c, limit);
    BatchIsStretch(table, c, limit, batch);
    MaxIdMeaning(batch, IdAt(table, c));
    StretchBound(table, c, d, batch);
    hide MaxId, IsBatch, DatesAgree, CutOk;
    assert MaxId(batch, IdAt(table, c)) == IdAt(table, d);
    forall r | r in table && IdAt(table, c) < r.id <= IdAt(table, d)
      ensures r in Rows(batch)
    {
      var i := IndexOf(table, c, r);
      InStretch(table, c, d, i);
    }
  }

  lemma StretchBound(table: seq<Row>, c: nat, d: nat, batch: seq<Row>)
    requires Ascending(table) && c <= d <= |table| && Rows(batch) == Rows(table[c..d])
    ensures forall r <- batch :: r.id <= IdAt(table, d)
    ensures c < d ==> table[d - 1] in batch
    ensures c == d ==> batch == []
  {
    RowsEmpty(batch);
    forall r | r in batch
      ensures r in table[c..d]
    {
      assert r in Rows(batch);
    }
    if c < d {
      assert table[c..d][d - 1 - c] == table[d - 1];
      assert table[d - 1] in Rows(batch);
    } else {
      assert table[c..d] == [];
    }
  }

  lemma RowsEmpty(rows: seq<Row>)
    ensures Rows(rows) == {} <==> rows == []
  {
    if rows != [] {
      assert rows[0] in Rows(rows);
    }
  }

  /** Rows of one date on both sides of the cut clash. */
  lemma TieClashes(table: seq<Row>, c: nat, limit: nat)
    requires Ascending(table) && DatesAgree(table) && c <= |table| && !CutOk(table, c, limit)
    ensures var d := CutAfter(table, c, limit);
            c < d < |table| && Clash(table, IdAt(table, c), limit, table[d - 1], table[d])
  {
    var d := CutAfter(table, c, limit);
    var waiting, date := Waiting(table, IdAt(table, c)), table[d].date;
    assert table[d - 1].date == date;
    EarlierRows(table, c, d);
    StretchSize(table, c, d - 1);
    SubsetSize(Earlier(waiting, date), Rows(table[c..d - 1]));
    NotLaterRows(table, c, d);
    StretchSize(table, c, d + 1);
    SubsetSize(Rows(table[c..d + 1]), NotLater(waiting, date));
  }

  lemma StretchSize(table: seq<Row>, c: nat, d: nat)
    requires Ascending(table) && c <= d <= |table|
    ensures |Rows(table[c..d])| == d - c
  {
    RowsSize(table[c..d]);
  }

  lemma EarlierRows(table: seq<Row>, c: nat, d: nat)
    requires Ascending(table) && DatesAgree(table) && c < d < |table| && table[d - 1].date == table[d].date
    ensures Earlier(Waiting(table, IdAt(table, c)), table[d].date) <= Rows(table[c..d - 1])
  {
    hide Ascending, IdAt;
    forall r | r in Earlier(Waiting(table, IdAt(table, c)), table[d].date)
      ensures r in Rows(table[c..d - 1])
    {
      var i := IndexOf(table, c, r);
      assert i < d - 1;
      InStretch(table, c, d - 1, i);
    }
  }

  lemma NotLaterRows(table: seq<Row>, c: nat, d: nat)
    requires Ascending(table) && DatesAgree(table) && c < d < |table|
    ensures Rows(table[c..d + 1]) <= NotLater(Waiting(table, IdAt(table, c)), table[d].date)
  {
    forall r | r in Rows(table[c..d + 1])
      ensures r in NotLater(Waiting(table, IdAt(table, c)), table[d].date)
    {
      var i :| 0 <= i < d + 1 - c && table[c..d + 1][i] == r;
      assert table[c + i] == r;
      assert c > 0 ==> table[c - 1].id < table[c + i].id;
    }
  }

  /** The rows from `start` up to c have been processed, once each and by date, and the cursor stands
      behind them. */
  ghost predicate Progress(table: seq<Row>, cursor: nat, processed: seq<Row>, start: nat, c: nat) {
    && start <= c <= |table| && cursor == IdAt(table, c)
    && Rows(processed) == Rows(table[start..c]) && |processed| == c - start && ByDate(processed)
  }

  lemma ProgressStep(table: seq<Row>, start: nat, c: nat, limit: nat, processed: seq<Row>, batch: seq<Row>)
    requires Ascending(table) && DatesAgree(table) && c <= |table| && CutOk(table, c, limit)
    requires Progress(table, IdAt(table, c), processed, start, c) && IsBatch(table, IdAt(table, c), limit, batch)
    ensures Progress(table, MaxId(batch, IdAt(table, c)), processed + batch, start, CutAfter(table, c, limit))
  {
    var d := CutAfter(table, c, limit);
    StretchLosesNothing(table, c, limit, batch);
    BatchIsStretch(table, c, limit, batch);
    hide IsBatch, Lost, MaxId, CutOk;
    RowsPlus(processed, batch);
    RowsPlus(table[start..c], table[c..d]);
    assert table[start..c] + table[c..d] == table[start..d];
    BatchByDate(table, IdAt(table, c), limit, batch);
    LaterStretch(table, start, c, d, processed, batch);
    hide Rows, DatesAgree, ByDate;
    ByDateAppend(processed, batch);
  }

  lemma BatchByDate(table: seq<Row>, cursor: nat, limit: nat, batch: seq<Row>)
    requires IsBatch(table, cursor, limit, batch)
    ensures ByDate(batch)
  {
  }

  lemma LaterStretch(table: seq<Row>, start: nat, c: nat, d: nat, processed: seq<Row>, batch: seq<Row>)
    requires DatesAgree(table) && start <= c <= d <= |table|
    requires Rows(processed) == Rows(table[start..c]) && Rows(batch) == Rows(table[c..d])
    ensures forall x <- processed, y <- batch :: x.date <= y.date
  {
    forall x, y | x in processed && y in batch
      ensures x.date <= y.date
    {
      assert x in Rows(processed) && y in Rows(batch);
      var i :| 0 <= i < c - start && table[start..c][i] == x;
      var j :| 0 <= j < d - c && table[c..d][j] == y;
      assert table[start + i].date <= table[c + j].date;
    }
  }

  lemma ByDateAppend(a: seq<Row>, b: seq<Row>)
    requires ByDate(a) && ByDate(b) && forall x <- a, y <- b :: x.date <= y.date
    ensures ByDate(a + b)
  {
    assert forall i | 0 <= i < |a| :: a[i] in a;
    assert forall i | 0 <= i < |b| :: b[i] in b;
  }

  ghost predicate StrictlyByDate(rows: seq<Row>) {
    forall i, j | 0 <= i < j < |rows| :: rows[i].date < rows[j].date
  }

  lemma StrictSlice(rows: seq<Row>, start: nat, c: nat)
    requires StrictlyByDate(rows) && start <= c <= |rows|
    ensures StrictlyByDate(rows[start..c])
  {
  }

  lemma SameLast(processed: seq<Row>, stretch: seq<Row>)
    requires ByDate(processed) && Rows(processed) == Rows(stretch) && |processed| == |stretch| > 0
    requires StrictlyByDate(stretch)
    ensures processed[|processed| - 1] == stretch[|stretch| - 1]
  {
    var n := |processed| - 1;
    var p, q := processed[n], stretch[n];
    assert p in Rows(stretch) && q in Rows(processed);
    hide Rows;
    var i :| 0 <= i <= n && stretch[i] == p;
    var j :| 0 <= j <= n && processed[j] == q;
    assert q.date <= p.date;
    assert i < n ==> p.date < q.date;
  }

  lemma RowsFront(rows: seq<Row>)
    requires rows != [] && Distinct(rows)
    ensures var n := |rows| - 1; Rows(rows[..n]) == Rows(rows) - {rows[n]} && Distinct(rows[..n])
  {
    var n := |rows| - 1;
    assert rows == rows[..n] + [rows[n]];
    RowsSnoc(rows[..n], rows[n]);
    assert forall i | 0 <= i < n :: rows[i].id != rows[n].id;
  }

  /** Rows sorted by date that are exactly those of a stretch of strictly increasing dates are that
      stretch. */
  lemma {:induction false} SameOrder(processed: seq<Row>, stretch: seq<Row>)
    requires ByDate(processed) && Rows(processed) == Rows(stretch) && |processed| == |stretch|
    requires Distinct(processed) && Distinct(stretch) && StrictlyByDate(stretch)
    ensures processed == stretch
  {
    if processed != [] {
      var n := |processed| - 1;
      SameLast(processed, stretch);
      RowsFront(processed);
      RowsFront(stretch);
      ByDateFront(processed);
      StrictSlice(stretch, 0, n);
      hide Rows, Distinct, ByDate, StrictlyByDate;
      SameOrder(processed[..n], stretch[..n]);
      assert processed == processed[..n] + [processed[n]] && stretch == stretch[..n] + [stretch[n]];
    }
  }

  lemma ByDateFront(rows: seq<Row>)
    requires ByDate(rows) && rows != []
    ensures ByDate(rows[..|rows| - 1])
  {
  }

  /** Rows arrive, the monitor polls. */
  function Flatten(rounds: seq<seq<Row>>, k: nat): seq<Row>
    requires k <= |rounds|
  {
    if k == 0 then [] else Flatten(rounds, k - 1) + rounds[k - 1]
  }

  /** How far the polls reach after k rounds: each takes as many rows as there are, up to the limit. */
  function Reached(initial: seq<Row>, start: nat, rounds: seq<seq<Row>>, k: nat, limit: nat): nat
    requires k <= |rounds|
  {
    if k == 0 then start
    else CutAfter(initial + Flatten(rounds, k), Reached(initial, start, rounds, k - 1, limit), limit)
  }

  /** No poll cuts between rows of one date. */
  ghost predicate CutsOk(initial: seq<Row>, start: nat, rounds: seq<seq<Row>>, limit: nat) {
    forall k | 0 <= k < |rounds| ::
      CutOk(initial + Flatten(rounds, k + 1), Reached(initial, start, rounds, k, limit), limit)
  }

  /** Where a monitor may start: behind a row that shares the latest date. */
  ghost predicate StartsAt(table: seq<Row>, start: nat) {
    && start <= |table| && (table != [] ==> start > 0)
    && forall i | 0 < start <= i < |table| :: table[i].date == table[start - 1].date
  }

  lemma {:induction false} FlattenPrefix(rounds: seq<seq<Row>>, k: nat, n: nat)
    requires k <= n <= |rounds|
    ensures Flatten(rounds, k) <= Flatten(rounds, n)
    decreases n
  {
    if k < n {
      FlattenPrefix(rounds, k, n - 1);
    }
  }

  lemma PrefixAscending(table: seq<Row>, full: seq<Row>)
    requires Ascending(full) && table <= full
    ensures Ascending(table)
  {
  }

  lemma PrefixAgrees(table: seq<Row>, full: seq<Row>)
    requires DatesAgree(full) && table <= full
    ensures DatesAgree(table)
  {
  }

  lemma StartFound(table: seq<Row>, id: nat) returns (start: nat)
    requires Ascending(table) && DatesAgree(table)
    requires table == [] ==> id == 0
    requires table != [] ==> exists r <- table :: r.id == id && forall q <- table :: q.date <= r.date
    ensures StartsAt(table, start) && id == IdAt(table, start) && Progress(table, id, [], start, start)
  {
    start := 0;
    if table != [] {
      var r :| r in table && r.id == id && forall q <- table :: q.date <= r.date;
      var i :| 0 <= i < |table| && table[i] == r;
      start := i + 1;
      assert forall j | 0 <= j < |table| :: table[j] in table;
    }
    assert table[start..start] == [];
  }

  /** Rows arrive and the monitor polls; nothing throws. */
  method Round(monitor: IMessageMonitor, rows: seq<Row>, ghost start: nat, ghost c: nat)
    requires monitor.Valid()
    requires Progress(monitor.database.table, monitor.lastProcessedRowId, monitor.processed, start, c)
    requires Ascending(monitor.database.table + rows) && DatesAgree(monitor.database.table + rows)
    requires CutOk(monitor.database.table + rows, c, monitor.limit)
    modifies monitor, monitor.database
    ensures monitor.Valid() && monitor.database.table == old(monitor.database.table) + rows
    ensures Progress(monitor.database.table, monitor.lastProcessedRowId, monitor.processed, start,
      CutAfter(monitor.database.table, c, monitor.limit))
  {
    ProgressArrives(monitor.database.table, rows, monitor.lastProcessedRowId, monitor.processed, start, c);
    hide Ascending, DatesAgree, IsBatch, Succeeded, MaxId, Progress, CutOk, CutAfter;
    monitor.database.Arrive(rows);
    ghost var table, processed := monitor.database.table, monitor.processed;
    var throws := _ => false;
    ghost var batch := monitor.PollForNewMessages(throws);
    SucceededMeaning(batch, throws);
    ProgressStep(table, start, c, monitor.limit, processed, batch);
  }

  lemma ProgressArrives(table: seq<Row>, rows: seq<Row>, cursor: nat, processed: seq<Row>, start: nat, c: nat)
    requires Progress(table, cursor, processed, start, c)
    ensures Progress(table + rows, cursor, processed, start, c) && cursor == IdAt(table + rows, c)
    ensures c <= |table + rows|
  {
    assert (table + rows)[start..c] == table[start..c];
  }

  /** If dates agree with ids, no poll cuts between rows of one date and nothing throws, the monitor
      processes exactly the rows behind its starting row, once each and by date, as far as its polls
      reach. */
  method MonitorLoop(monitor: IMessageMonitor, rounds: seq<seq<Row>>) returns (ghost start: nat)
    requires monitor.Valid() && monitor.processed == []
    requires Ascending(monitor.database.table + Flatten(rounds, |rounds|))
    requires DatesAgree(monitor.database.table + Flatten(rounds, |rounds|))
    requires forall s | StartsAt(monitor.database.table, s) :: CutsOk(monitor.database.table, s, rounds, monitor.limit)
    modifies monitor, monitor.database
    ensures monitor.Valid() && StartsAt(old(monitor.database.table), start)
    ensures monitor.database.table == old(monitor.database.table) + Flatten(rounds, |rounds|)
    ensures Progress(monitor.database.table, monitor.lastProcessedRowId, monitor.processed, start,
      Reached(old(monitor.database.table), start, rounds, |rounds|, monitor.limit))
  {
    hide Ascending, DatesAgree, IsBatch, Succeeded, MaxId, Flatten, Reached, IdAt, Progress, CutOk, CutAfter, StartsAt;
    ghost var initial, limit, all := monitor.database.table, monitor.limit, Flatten(rounds, |rounds|);
    PrefixAscending(initial, initial + all);
    PrefixAgrees(initial, initial + all);
    monitor.Initialise();
    start := StartFound(initial, monitor.lastProcessedRowId);
    ghost var c := start;
    NoRounds(rounds);
    ReachedNothing(initial, start, rounds, limit);
    for k := 0 to |rounds|
      invariant monitor.Valid() && monitor.database.table == initial + Flatten(rounds, k)
      invariant c == Reached(initial, start, rounds, k, limit)
      invariant Progress(monitor.database.table, monitor.lastProcessedRowId, monitor.processed, start, c)
    {
      OneRound(initial, rounds, k);
      ReachedNext(initial, start, rounds, k, limit);
      FlattenPrefix(rounds, k + 1, |rounds|);
      PrefixAscending(initial + Flatten(rounds, k + 1), initial + all);
      PrefixAgrees(initial + Flatten(rounds, k + 1), initial + all);
      Round(monitor, rounds[k], start, c);
      c := CutAfter(monitor.database.table, c, limit);
    }
  }

  lemma NoRounds(rounds: seq<seq<Row>>)
    ensures Flatten(rounds, 0) == []
  {
  }

  lemma OneRound(initial: seq<Row>, rounds: seq<seq<Row>>, k: nat)
    requires k < |rounds|
    ensures initial + Flatten(rounds, k + 1) == initial + Flatten(rounds, k) + rounds[k]
  {
  }

  lemma ReachedNothing(initial: seq<Row>, start: nat, rounds: seq<seq<Row>>, limit: nat)
    ensures Reached(initial, start, rounds, 0, limit) == start
  {
  }

  lemma ReachedNext(initial: seq<Row>, start: nat, rounds: seq<seq<Row>>, k: nat, limit: nat)
    requires k < |rounds|
    ensures Reached(initial, start, rounds, k + 1, limit)
         == CutAfter(initial + Flatten(rounds, k + 1), Reached(initial, start, rounds, k, limit), limit)
  {
  }

  /** With strictly increasing dates no cut can go wrong. */
  lemma StrictCuts(initial: seq<Row>, start: nat, rounds: seq<seq<Row>>, limit: nat)
    requires StrictlyByDate(initial + Flatten(rounds, |rounds|))
    ensures CutsOk(initial, start, rounds, limit)
  {
    hide StrictlyByDate, CutOk, Reached, Flatten;
    forall k | 0 <= k < |rounds|
      ensures CutOk(initial + Flatten(rounds, k + 1), Reached(initial, start, rounds, k, limit), limit)
    {
      FlattenPrefix(rounds, k + 1, |rounds|);
      PrefixBehind(initial, Flatten(rounds, k + 1), Flatten(rounds, |rounds|));
      StrictCut(initial + Flatten(rounds, k + 1), initial + Flatten(rounds, |rounds|),
        Reached(initial, start, rounds, k, limit), limit);
    }
  }

  lemma PrefixBehind(initial: seq<Row>, part: seq<Row>, all: seq<Row>)
    requires part <= all
    ensures initial + part <= initial + all
  {
  }

  lemma StrictProgress(initial: seq<Row>, all: seq<Row>, cursor: nat, processed: seq<Row>, c: nat)
    requires Ascending(initial + all) && StrictlyByDate(initial + all) && Distinct(processed)
    requires Progress(initial + all, cursor, processed, |initial|, c)
    ensures processed == all[..c - |initial|]
  {
    var stretch := (initial + all)[|initial|..c];
    StrictSlice(initial + all, |initial|, c);
    assert stretch == all[..c - |initial|];
    hide StrictlyByDate, Rows;
    assert Distinct(stretch);
    SameOrder(processed, stretch);
  }

  /** With strictly increasing dates the monitor processes exactly the rows that arrived after it
      started, once each and in their order, as far as its polls reach. */
  method MonitorLoopInOrder(monitor: IMessageMonitor, rounds: seq<seq<Row>>)
    requires monitor.Valid() && monitor.processed == []
    requires Ascending(monitor.database.table + Flatten(rounds, |rounds|))
    requires StrictlyByDate(monitor.database.table + Flatten(rounds, |rounds|))
    modifies monitor, monitor.database
    ensures var initial, all := old(monitor.database.table), Flatten(rounds, |rounds|);
            && monitor.Valid() && monitor.database.table == initial + all
            && var c := Reached(initial, |initial|, rounds, |rounds|, monitor.limit);
            && |initial| <= c <= |initial| + |all| && monitor.processed == all[..c - |initial|]
  {
    ghost var initial, all := monitor.database.table, Flatten(rounds, |rounds|);
    assert DatesAgree(initial + all);
    hide StrictlyByDate, DatesAgree, Ascending, Reached, Flatten;
    forall s | StartsAt(initial, s)
      ensures CutsOk(initial, s, rounds, monitor.limit)
    {
      StrictCuts(initial, s, rounds, monitor.limit);
    }
    hide CutsOk, StartsAt;
    ghost var start := MonitorLoop(monitor, rounds);
    StrictStart(initial, initial + all, start);
    ghost var c := Reached(initial, start, rounds, |rounds|, monitor.limit);
    assert |initial| <= c <= |initial + all|;
    StrictProgress(initial, all, monitor.lastProcessedRowId, monitor.processed, c);
  }

  lemma StrictStart(initial: seq<Row>, all: seq<Row>, start: nat)
    requires StrictlyByDate(all) && initial <= all
    ensures StartsAt(initial, start) ==> start == |initial|
  {
    if 0 < start < |initial| {
      assert all[start - 1] == initial[start - 1] && all[start] == initial[start];
    }
  }

  lemma StrictCut(table: seq<Row>, all: seq<Row>, c: nat, limit: nat)
    requires StrictlyByDate(all) && table <= all
    ensures CutOk(table, c, limit)
  {
    var d := CutAfter(table, c, limit);
    if c < d < |table| {
      assert all[d - 1] == table[d - 1] && all[d] == table[d];
    }
  }
}
