/** A table and what executing one statement, given as text, does to it. */
module SqlTable {
  import opened Wrappers
  import opened SqlValues
  import opened SqlText
  import opened SqlGrammar

  datatype Table = Table(name: string, columns: set<string>, rows: seq<Row>)

  /** Rows returned and rows affected, or a statement the database refuses. */
  datatype Reply = Reply(rows: seq<Row>, affected: nat) | Refused

  datatype Database = Database(cmp: Comparisons, before: (seq<SortKey>, Row, Row) -> bool)

  predicate Selects(db: Database, filter: Option<Cond>, args: seq<DbValue>, row: Row) {
    filter.None? || Eval(filter.value, db.cmp, args, 1, row) == True
  }

  /** The rows a filter keeps (`keep`) or drops, in table order. */
  function Filtered(db: Database, filter: Option<Cond>, args: seq<DbValue>, rows: seq<Row>, keep: bool): seq<Row>
    decreases |rows|
  {
    if rows == [] then []
    else
      (if Selects(db, filter, args, rows[0]) == keep then [rows[0]] else [])
      + Filtered(db, filter, args, rows[1..], keep)
  }

  function Inserted(db: Database, keys: seq<SortKey>, row: Row, rows: seq<Row>): seq<Row> {
    if rows == [] || db.before(keys, row, rows[0]) then [row] + rows
    else [rows[0]] + Inserted(db, keys, row, rows[1..])
  }

  function Sorted(db: Database, keys: seq<SortKey>, rows: seq<Row>): seq<Row> {
    if keys == [] || rows == [] then rows
    else Inserted(db, keys, rows[0], Sorted(db, keys, rows[1..]))
  }

  function Window(rows: seq<Row>, limit: nat, offset: nat): seq<Row> {
    if |rows| <= offset then []
    else if |rows| - offset <= limit then rows[offset..]
    else rows[offset..offset + limit]
  }

  function Assigned(row: Row, sets: seq<(string, nat)>, args: seq<DbValue>): Row
    decreases |sets|
  {
    if sets == [] then row
    else Assigned(row[sets[0].0 := Arg(args, 1, sets[0].1)], sets[1..], args)
  }

  function Rewritten(db: Database, filter: Option<Cond>, sets: seq<(string, nat)>, args: seq<DbValue>, rows: seq<Row>)
    : seq<Row>
    decreases |rows|
  {
    if rows == [] then []
    else
      [if Selects(db, filter, args, rows[0]) then Assigned(rows[0], sets, args) else rows[0]]
      + Rewritten(db, filter, sets, args, rows[1..])
  }

  // ----- what the database refuses -----

  function FilterColumns(filter: Option<Cond>): set<string> {
    if filter.None? then {} else Columns(filter.value)
  }

  function FilterPlaceholders(filter: Option<Cond>): seq<nat> {
    if filter.None? then [] else Placeholders(filter.value)
  }

  /** Every placeholder has an argument and every argument is used. */
  predicate ArgumentsFit(placeholders: seq<nat>, args: seq<DbValue>) {
    && (forall n :: n in placeholders ==> 1 <= n <= |args|)
    && (forall n :: 1 <= n <= |args| ==> n in placeholders)
  }

  predicate ColumnsDistinct(sets: seq<(string, nat)>) {
    forall i, j :: 0 <= i < j < |sets| ==> sets[i].0 != sets[j].0
  }

  predicate Admissible(t: Table, s: Statement, args: seq<DbValue>) {
    && s.table == t.name
    && FilterColumns(s.filter) <= t.columns
    && match s
       case Select(_, c, keys, _, _) =>
         (forall k :: k in keys ==> k.column in t.columns) && ArgumentsFit(FilterPlaceholders(c), args)
       case Update(_, sets, c) =>
         && (forall p :: p in sets ==> p.0 in t.columns)
         && ColumnsDistinct(sets)
         && ArgumentsFit(seq(|sets|, i requires 0 <= i < |sets| => sets[i].1) + FilterPlaceholders(c), args)
       case _ => ArgumentsFit(FilterPlaceholders(s.filter), args)
  }

  // ----- execution -----

  function Run(db: Database, t: Table, s: Statement, args: seq<DbValue>): (Table, Reply) {
    var chosen := Filtered(db, s.filter, args, t.rows, true);
    match s
    case Select(_, _, keys, limit, offset) => (t, Reply(Window(Sorted(db, keys, chosen), limit, offset), 0))
    case SelectCount(_, alias, _) => (t, Reply([map[alias := Int(|chosen|)]], 0))
    case Delete(_, c) => (t.(rows := Filtered(db, c, args, t.rows, false)), Reply([], |chosen|))
    case Update(_, sets, c) =>
      var rows := Rewritten(db, c, sets, args, t.rows);
      (t.(rows := rows), Reply(Rewritten(db, None, sets, args, chosen), |chosen|))
  }

  /** The effect of a statement given as characters. */
  function Execute(db: Database, t: Table, sql: string, args: seq<DbValue>): (Table, Reply) {
    var s := ParseStatement(Lex(sql));
    if s.Some? && Admissible(t, s.value, args) then Run(db, t, s.value, args) else (t, Refused)
  }

  lemma {:induction false} InsertedRows(db: Database, keys: seq<SortKey>, row: Row, rows: seq<Row>)
    ensures multiset(Inserted(db, keys, row, rows)) == multiset{row} + multiset(rows)
  {
    if rows != [] && !db.before(keys, row, rows[0]) {
      InsertedRows(db, keys, row, rows[1..]);
      assert rows == [rows[0]] + rows[1..];
    }
  }

  /** Sorting loses and invents nothing. */
  lemma {:induction false} SortedRows(db: Database, keys: seq<SortKey>, rows: seq<Row>)
    ensures multiset(Sorted(db, keys, rows)) == multiset(rows)
    ensures |Sorted(db, keys, rows)| == |rows|
  {
    if keys != [] && rows != [] {
      SortedRows(db, keys, rows[1..]);
      InsertedRows(db, keys, rows[0], Sorted(db, keys, rows[1..]));
      assert rows == [rows[0]] + rows[1..];
    }
    assert |multiset(Sorted(db, keys, rows))| == |Sorted(db, keys, rows)|;
  }

  // ----- what a window shows -----

  /** The window has as many rows as it can hold and there are from the offset on, and they are those from there on. */
  ghost predicate ShowsFrom(page: seq<Row>, rows: seq<Row>, limit: nat, offset: nat) {
    && |page| == (if |rows| <= offset then 0 else if |rows| - offset < limit then |rows| - offset else limit)
    && forall i :: 0 <= i < |page| ==> page[i] == rows[offset + i]
  }

  lemma {:induction false} WindowShows(rows: seq<Row>, limit: nat, offset: nat)
    ensures ShowsFrom(Window(rows, limit, offset), rows, limit, offset)
  {
  }

  /** Where the k-th page of `size` rows begins, counted from 0. */
  function PageStart(size: nat, k: nat): nat {
    if k == 0 then 0 else PageStart(size, k - 1) + size
  }

  lemma {:induction false} PageStartIs(size: nat, k: nat)
    ensures PageStart(size, k) == k * size
  {
    if k > 0 {
      PageStartIs(size, k - 1);
    }
  }

  function AllPages(page: nat -> seq<Row>, k: nat): seq<Row> {
    if k == 0 then [] else AllPages(page, k - 1) + page(k - 1)
  }

  lemma {:induction false} NextPage(rows: seq<Row>, size: nat, from: nat, shown: seq<Row>, page: seq<Row>)
    requires shown == (if from <= |rows| then rows[..from] else rows) && page == Window(rows, size, from)
    ensures shown + page == if from + size <= |rows| then rows[..from + size] else rows
  {
  }

  /** Each page is the window at its place. */
  ghost predicate ArePages(rows: seq<Row>, size: nat, page: nat -> seq<Row>, k: nat) {
    forall i :: 0 <= i < k ==> page(i) == Window(rows, size, PageStart(size, i))
  }

  /** Consecutive pages join to the list from its beginning; with enough of them, to all of it. */
  lemma {:induction false} PagesJoin(rows: seq<Row>, size: nat, page: nat -> seq<Row>, k: nat, start: nat)
    requires ArePages(rows, size, page, k) && start == PageStart(size, k)
    ensures AllPages(page, k) == if start <= |rows| then rows[..start] else rows
  {
    if k > 0 {
      PagesJoin(rows, size, page, k - 1, start - size);
      NextPage(rows, size, start - size, AllPages(page, k - 1), page(k - 1));
    } else {
      assert rows[..0] == [];
    }
  }

  /** `before` orders the rows: nothing comes before itself or what precedes it, and ties are transitive. */
  ghost predicate Orders(db: Database, keys: seq<SortKey>) {
    && (forall a, b :: db.before(keys, a, b) ==> !db.before(keys, b, a))
    && (forall a, b, c :: !db.before(keys, a, b) && !db.before(keys, b, c) ==> !db.before(keys, a, c))
  }

  /** No row stands after one that it should come before. */
  ghost predicate InOrder(db: Database, keys: seq<SortKey>, rows: seq<Row>) {
    forall i, j :: 0 <= i < j < |rows| ==> !db.before(keys, rows[j], rows[i])
  }

  lemma {:induction false} HeadInOrder(db: Database, keys: seq<SortKey>, row: Row, rows: seq<Row>)
    requires InOrder(db, keys, rows) && forall r :: r in rows ==> !db.before(keys, r, row)
    ensures InOrder(db, keys, [row] + rows)
  {
  }

  lemma {:induction false} InsertedInOrder(db: Database, keys: seq<SortKey>, row: Row, rows: seq<Row>)
    requires Orders(db, keys) && InOrder(db, keys, rows)
    ensures InOrder(db, keys, Inserted(db, keys, row, rows))
    ensures forall r :: r in Inserted(db, keys, row, rows) ==> r == row || r in rows
    decreases |rows|
  {
    if rows != [] && !db.before(keys, row, rows[0]) {
      InsertedInOrder(db, keys, row, rows[1..]);
      var later := Inserted(db, keys, row, rows[1..]);
      forall r | r in later ensures !db.before(keys, r, rows[0]) {
        if r != row {
          var i :| 0 < i < |rows| && rows[i] == r;
        }
      }
      HeadInOrder(db, keys, rows[0], later);
    } else {
      forall r | r in rows ensures !db.before(keys, r, row) {
        var i :| 0 <= i < |rows| && rows[i] == r;
        assert !db.before(keys, rows[0], row) && !db.before(keys, r, rows[0]);
      }
      HeadInOrder(db, keys, row, rows);
    }
  }

  /** The rows are sorted by the keys. */
  lemma {:induction false} SortedInOrder(db: Database, keys: seq<SortKey>, rows: seq<Row>)
    requires keys != [] && Orders(db, keys)
    ensures InOrder(db, keys, Sorted(db, keys, rows))
    decreases |rows|
  {
    if rows != [] {
      SortedInOrder(db, keys, rows[1..]);
      InsertedInOrder(db, keys, rows[0], Sorted(db, keys, rows[1..]));
    }
  }
}
