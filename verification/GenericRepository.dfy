/**
 The repository that writes SQL text for an entity's table and runs it. Each method's contract
 says what the call does to the rows in terms of the specification, not of the text it sends.
 */
module GenericRepository {
  import opened Wrappers
  import opened SqlValues
  import opened SqlText
  import opened SqlGrammar
  import opened SqlTable
  import opened Specification
  import opened Statements

  datatype StoreError = QueryFailed | NoRowReturned

  datatype QueryOptions = QueryOptions(limit: int, offset: int, orderBy: seq<SortKey>)

  // ----- rows by specification -----

  /** The rows that make s true (`keep`), or all the others, in table order. */
  ghost function Matching(cmp: Comparisons, s: Spec, rows: seq<Row>, keep: bool): seq<Row> {
    if rows == [] then []
    else
      (if (Meaning(s, cmp, rows[0]) == True) == keep then [rows[0]] else [])
      + Matching(cmp, s, rows[1..], keep)
  }

  lemma {:induction false} CountOne(row: Row, rows: seq<Row>)
    ensures multiset([row] + rows) == multiset{row} + multiset(rows)
  {
  }

  lemma {:induction false} Reorder(x: multiset<Row>, a: multiset<Row>, b: multiset<Row>)
    ensures (x + a) + b == x + (a + b) && a + (x + b) == x + (a + b)
  {
  }

  /** One more row on one side of a split list. */
  lemma {:induction false} SplitNext(row: Row, rest: seq<Row>, yes: seq<Row>, no: seq<Row>)
    requires multiset(yes) + multiset(no) == multiset(rest) && |yes| + |no| == |rest|
    ensures multiset([row] + yes) + multiset(no) == multiset([row] + rest)
    ensures multiset(yes) + multiset([row] + no) == multiset([row] + rest)
    ensures |[row] + yes| + |no| == |[row] + rest| == |yes| + |[row] + no|
  {
    CountOne(row, rest);
    CountOne(row, yes);
    CountOne(row, no);
    Reorder(multiset{row}, multiset(yes), multiset(no));
  }

  /** Every row matches or not, never both: deletion and selection split the table. */
  lemma {:induction false} MatchingSplits(cmp: Comparisons, s: Spec, rows: seq<Row>)
    ensures multiset(Matching(cmp, s, rows, true)) + multiset(Matching(cmp, s, rows, false)) == multiset(rows)
    ensures |Matching(cmp, s, rows, true)| + |Matching(cmp, s, rows, false)| == |rows|
  {
    if rows != [] {
      MatchingSplits(cmp, s, rows[1..]);
      var yes, no := Matching(cmp, s, rows[1..], true), Matching(cmp, s, rows[1..], false);
      MatchingNext(cmp, s, rows, yes, no);
      SplitNext(rows[0], rows[1..], yes, no);
      assert rows == [rows[0]] + rows[1..];
    }
  }

  lemma {:induction false} MatchingNext(cmp: Comparisons, s: Spec, rows: seq<Row>, yes: seq<Row>, no: seq<Row>)
    requires rows != [] && yes == Matching(cmp, s, rows[1..], true) && no == Matching(cmp, s, rows[1..], false)
    ensures Matching(cmp, s, rows, true) == if Meaning(s, cmp, rows[0]) == True then [rows[0]] + yes else yes
    ensures Matching(cmp, s, rows, false) == if Meaning(s, cmp, rows[0]) == True then no else [rows[0]] + no
  {
    assert [] + yes == yes && [] + no == no;
  }

  /** Of the rows that do not match none matches, and all stay as they are. */
  lemma {:induction false} MatchingOfRest(cmp: Comparisons, s: Spec, rows: seq<Row>)
    ensures Matching(cmp, s, Matching(cmp, s, rows, false), true) == []
    ensures Matching(cmp, s, Matching(cmp, s, rows, false), false) == Matching(cmp, s, rows, false)
  {
    if rows != [] {
      MatchingOfRest(cmp, s, rows[1..]);
      var rest := Matching(cmp, s, rows[1..], false);
      if Meaning(s, cmp, rows[0]) == True {
        assert Matching(cmp, s, rows, false) == rest;
      } else {
        assert Matching(cmp, s, rows, false) == [rows[0]] + rest;
        assert ([rows[0]] + rest)[1..] == rest;
      }
    }
  }

  /** Without a binding limit, the rows found are the matching rows, each once, in some order. */
  lemma {:induction false} UnlimitedFind(db: Database, s: Spec, keys: seq<SortKey>, rows: seq<Row>, limit: nat)
    requires |rows| <= limit
    ensures var found, hits := Window(Sorted(db, keys, Matching(db.cmp, s, rows, true)), limit, 0), Matching(db.cmp, s, rows, true);
            |found| == |hits| && multiset(found) == multiset(hits)
  {
    var hits := Matching(db.cmp, s, rows, true);
    MatchingSplits(db.cmp, s, rows);
    SortedRows(db, keys, hits);
    assert Window(Sorted(db, keys, hits), limit, 0) == Sorted(db, keys, hits);
  }

  /** Which rows a find shows, and that they are in order. */
  lemma {:induction false} FoundRows(db: Database, keys: seq<SortKey>, hits: seq<Row>, limit: nat, offset: nat, found: seq<Row>)
    requires found == Window(Sorted(db, keys, hits), limit, offset)
    ensures ShowsFrom(found, Sorted(db, keys, hits), limit, offset)
    ensures keys != [] && Orders(db, keys) ==> InOrder(db, keys, found)
  {
    WindowShows(Sorted(db, keys, hits), limit, offset);
    if keys != [] && Orders(db, keys) {
      SortedInOrder(db, keys, hits);
    }
  }

  ghost predicate FilterMeans(db: Database, c: Option<Cond>, args: seq<DbValue>, s: Spec) {
    forall row :: Selects(db, c, args, row) <==> Meaning(s, db.cmp, row) == True
  }

  lemma {:induction false} FilteredIsMatching(
    db: Database, c: Option<Cond>, args: seq<DbValue>, s: Spec, rows: seq<Row>, keep: bool)
    requires FilterMeans(db, c, args, s)
    ensures Filtered(db, c, args, rows, keep) == Matching(db.cmp, s, rows, keep)
  {
    if rows != [] {
      FilteredIsMatching(db, c, args, s, rows[1..], keep);
    }
  }

  /** The condition compiled from s, its parameters bound from `$1`, selects what s means. */
  lemma {:induction false} CompiledFilter(db: Database, s: Spec)
    ensures FilterMeans(db, Some(ToCond(s, 1)), Params(s), s)
  {
    forall row ensures Selects(db, Some(ToCond(s, 1)), Params(s), row) <==> Meaning(s, db.cmp, row) == True {
      EvalClause(s, 1, db.cmp, Params(s), 1, row);
    }
  }

  lemma {:induction false} CompiledArguments(s: Spec)
    ensures ArgumentsFit(Placeholders(ToCond(s, 1)), Params(s))
    ensures Columns(ToCond(s, 1)) == Fields(s)
  {
    PlaceholdersOfClause(s, 1);
    var ns := Numbers(1, |Params(s)|);
    forall n | 1 <= n <= |Params(s)| ensures n in ns {
      assert ns[n - 1] == n;
    }
  }

  // ----- updates -----

  type Assignment = seq<(string, DbValue)>

  function ColumnsOf(params: Assignment): (cs: seq<string>)
    ensures |cs| == |params| && forall i :: 0 <= i < |params| ==> cs[i] == params[i].0
  {
    seq(|params|, i requires 0 <= i < |params| => params[i].0)
  }

  function ValuesOf(params: Assignment): (vs: seq<DbValue>)
    ensures |vs| == |params| && forall i :: 0 <= i < |params| ==> vs[i] == params[i].1
  {
    seq(|params|, i requires 0 <= i < |params| => params[i].1)
  }

  predicate Distinct(cs: seq<string>) {
    forall i, j :: 0 <= i < j < |cs| ==> cs[i] != cs[j]
  }

  /** The row with the parameters written into their columns. */
  ghost function Written(row: Row, params: Assignment): Row
    decreases |params|
  {
    if params == [] then row else Written(row[params[0].0 := params[0].1], params[1..])
  }

  ghost predicate HasId(cmp: Comparisons, idColumn: string, id: int, row: Row) {
    cmp.equal(Cell(row, idColumn), Int(id)) == True
  }

  /** The table after an update: rows with the id are written, all others stay, in place. */
  ghost function Updated(cmp: Comparisons, idColumn: string, id: int, params: Assignment, rows: seq<Row>): seq<Row> {
    seq(|rows|, i requires 0 <= i < |rows| =>
      if HasId(cmp, idColumn, id, rows[i]) then Written(rows[i], params) else rows[i])
  }

  /** Each written column holds its own value; every other column keeps its cell. */
  lemma {:induction false} WrittenCells(row: Row, params: Assignment)
    requires Distinct(ColumnsOf(params))
    ensures forall i :: 0 <= i < |params| ==> Cell(Written(row, params), params[i].0) == params[i].1
    ensures forall c: string :: c !in ColumnsOf(params) ==> Cell(Written(row, params), c) == Cell(row, c)
    decreases |params|
  {
    if params != [] {
      var tail, cs := params[1..], ColumnsOf(params);
      assert ColumnsOf(tail) == cs[1..];
      var first := row[params[0].0 := params[0].1];
      WrittenCells(first, tail);
      assert params[0].0 !in ColumnsOf(tail);
      forall i | 0 <= i < |params| ensures Cell(Written(row, params), params[i].0) == params[i].1 {
        if i > 0 {
          assert tail[i - 1] == params[i];
        }
      }
      forall c: string | c !in cs ensures Cell(Written(row, params), c) == Cell(row, c) {
        assert cs[0] != c && c !in cs[1..];
      }
    }
  }

  lemma {:induction false} AssignedIsWritten(row: Row, params: Assignment, j: nat, args: seq<DbValue>)
    requires j + |params| <= |args| && forall i {:trigger params[i]} :: 0 <= i < |params| ==> args[j + i] == params[i].1
    ensures Assigned(row, SetPairs(ColumnsOf(params), j + 1), args) == Written(row, params)
    decreases |params|
  {
    if params != [] {
      var tail, pairs := params[1..], SetPairs(ColumnsOf(params), j + 1);
      assert pairs[0] == (params[0].0, j + 1);
      assert pairs[1..] == SetPairs(ColumnsOf(tail), j + 2);
      assert forall i {:trigger tail[i]} :: 0 <= i < |tail| ==> tail[i] == params[i + 1];
      AssignedIsWritten(row[params[0].0 := params[0].1], tail, j + 1, args);
    }
  }

  ghost function UpdateArgs(params: Assignment, id: int): seq<DbValue> {
    ValuesOf(params) + [Int(id)]
  }

  lemma {:induction false} RewrittenIsUpdated(
    db: Database, idColumn: string, id: int, params: Assignment, rows: seq<Row>)
    ensures Rewritten(db, Some(CEq(idColumn, |params| + 1)), SetPairs(ColumnsOf(params), 1), UpdateArgs(params, id), rows)
         == Updated(db.cmp, idColumn, id, params, rows)
    decreases |rows|
  {
    if rows != [] {
      RewrittenIsUpdated(db, idColumn, id, params, rows[1..]);
      AssignedIsWritten(rows[0], params, 0, UpdateArgs(params, id));
      assert Updated(db.cmp, idColumn, id, params, rows)
          == [if HasId(db.cmp, idColumn, id, rows[0]) then Written(rows[0], params) else rows[0]]
             + Updated(db.cmp, idColumn, id, params, rows[1..]);
    }
  }

  ghost function FirstWithId(cmp: Comparisons, idColumn: string, id: int, rows: seq<Row>): Option<Row> {
    if rows == [] then None
    else if HasId(cmp, idColumn, id, rows[0]) then Some(rows[0])
    else FirstWithId(cmp, idColumn, id, rows[1..])
  }

  ghost function ReturnedRows(db: Database, idColumn: string, id: int, params: Assignment, rows: seq<Row>): seq<Row> {
    var args := UpdateArgs(params, id);
    Rewritten(db, None, SetPairs(ColumnsOf(params), 1), args,
              Filtered(db, Some(CEq(idColumn, |params| + 1)), args, rows, true))
  }

  /** Writing the rows chosen by the id gives the written first row with the id, if there is one. */
  lemma {:induction false} FirstChosen(db: Database, idColumn: string, id: int, params: Assignment, rows: seq<Row>)
    ensures var chosen := Filtered(db, Some(CEq(idColumn, |params| + 1)), UpdateArgs(params, id), rows, true);
            var first := FirstWithId(db.cmp, idColumn, id, rows);
            if first.Some? then chosen != [] && chosen[0] == first.value else chosen == []
    decreases |rows|
  {
    if rows != [] {
      FirstChosen(db, idColumn, id, params, rows[1..]);
    }
  }

  lemma {:induction false} FirstReturned(db: Database, idColumn: string, id: int, params: Assignment, rows: seq<Row>)
    ensures var out, first := ReturnedRows(db, idColumn, id, params, rows), FirstWithId(db.cmp, idColumn, id, rows);
            if first.Some? then out != [] && out[0] == Written(first.value, params) else out == []
  {
    FirstChosen(db, idColumn, id, params, rows);
    var first := FirstWithId(db.cmp, idColumn, id, rows);
    if first.Some? {
      AssignedIsWritten(first.value, params, 0, UpdateArgs(params, id));
    }
  }

  lemma {:induction false} UpdateFits(params: Assignment, id: int)
    ensures var pairs := SetPairs(ColumnsOf(params), 1);
            ArgumentsFit(seq(|pairs|, i requires 0 <= i < |pairs| => pairs[i].1) + [|params| + 1], UpdateArgs(params, id))
  {
    var pairs := SetPairs(ColumnsOf(params), 1);
    var ns := seq(|pairs|, i requires 0 <= i < |pairs| => pairs[i].1) + [|params| + 1];
    assert forall i :: 0 <= i < |ns| ==> ns[i] == i + 1;
    forall n | 1 <= n <= |params| + 1 ensures n in ns {
      assert ns[n - 1] == n;
    }
  }

  /** The first row with the id as it was written, or an error when there is none. */
  ghost function WrittenFirst(first: Option<Row>, params: Assignment): Result<Row, StoreError> {
    if first.None? then Err(NoRowReturned) else Ok(Written(first.value, params))
  }

  // ----- the repository -----

  class Repository {
    const db: Database
    const tableName: string
    const idColumn: string
    var table: Table

    constructor (db: Database, tableName: string, idColumn: string, table: Table)
      requires IsName(tableName) && IsName(idColumn)
      ensures this.db == db && this.tableName == tableName && this.idColumn == idColumn && this.table == table
    {
      this.db, this.tableName, this.idColumn, this.table := db, tableName, idColumn, table;
    }

    /** The statements for s are accepted by the database. */
    ghost predicate Answerable(s: Spec)
      reads this
    {
      NoEmptyList(s) && tableName == table.name && Fields(s) <= table.columns
    }

    ghost function Hits(s: Spec): seq<Row>
      reads this
    {
      Matching(db.cmp, s, table.rows, true)
    }

    /** The number of rows that match; an error when the statement is refused. */
    method CountBy(s: Spec) returns (r: Result<int, StoreError>)
      requires IsName(tableName) && Named(s)
      ensures r == if Answerable(s) then Ok(|Hits(s)|) else Err(QueryFailed)
    {
      var (clause, params) := ToWhereClause(s, 1);
      var sql := Spell(CountPieces("count", "cnt", tableName, clause));
      CountRuns(db, table, tableName, s, sql, params);
      var (_, reply) := Execute(db, table, sql, params);
      if reply.Refused? {
        return Err(QueryFailed);
      }
      if reply.rows == [] {
        return Ok(0);
      }
      var cell := Cell(reply.rows[0], "cnt");
      return if cell.Int? then Ok(cell.i) else Err(QueryFailed);
    }

    /** The matching rows, sorted, within the window; an error when the statement is refused. */
    method FindBy(s: Spec, opts: QueryOptions) returns (r: Result<seq<Row>, StoreError>)
      requires IsName(tableName) && Named(s) && KeysNamed(opts.orderBy)
      ensures r ==
        if Answerable(s) && opts.limit >= 0 && opts.offset >= 0 && forall k :: k in opts.orderBy ==> k.column in table.columns
        then Ok(Window(Sorted(db, opts.orderBy, Hits(s)), opts.limit, opts.offset))
        else Err(QueryFailed)
      ensures r.Ok? ==> ShowsFrom(r.value, Sorted(db, opts.orderBy, Hits(s)), opts.limit, opts.offset)
      ensures r.Ok? && opts.orderBy != [] && Orders(db, opts.orderBy) ==> InOrder(db, opts.orderBy, r.value)
    {
      var (clause, params) := ToWhereClause(s, 1);
      var tail := [];
      if opts.orderBy != [] {
        tail := OrderPieces(opts.orderBy);
      }
      tail := tail + WindowPieces(opts.limit, opts.offset);
      var sql := Spell(SelectPieces(tableName, clause, tail));
      SelectRuns(db, table, tableName, s, opts, sql, params);
      var (_, reply) := Execute(db, table, sql, params);
      if reply.Refused? {
        return Err(QueryFailed);
      }
      FoundRows(db, opts.orderBy, Hits(s), opts.limit, opts.offset, reply.rows);
      return Ok(reply.rows);
    }

    /** Removes exactly the matching rows and says how many they were. */
    method DeleteBy(s: Spec) returns (r: Result<nat, StoreError>)
      requires IsName(tableName) && Named(s)
      modifies this`table
      ensures r == if old(Answerable(s)) then Ok(|old(Hits(s))|) else Err(QueryFailed)
      ensures table == if r.Ok? then old(table).(rows := Matching(db.cmp, s, old(table.rows), false)) else old(table)
    {
      var (clause, params) := ToWhereClause(s, 1);
      var sql := Spell(DeletePieces(tableName, clause));
      DeleteRuns(db, table, tableName, s, sql, params);
      var (t, reply) := Execute(db, table, sql, params);
      table := t;
      return if reply.Refused? then Err(QueryFailed) else Ok(reply.affected);
    }

    /** `col = $i` for each parameter, and the values in the same order. */
    method Assignments(params: Assignment) returns (setClauses: seq<seq<Piece>>, values: seq<DbValue>)
      ensures setClauses == SetClauses(ColumnsOf(params), 1) && values == ValuesOf(params)
    {
      setClauses, values := [], [];
      for i := 0 to |params|
        invariant setClauses == SetClauses(ColumnsOf(params[..i]), 1)
        invariant values == ValuesOf(params[..i])
      {
        setClauses := setClauses + [SetClause(params[i].0, i + 1)];
        values := values + [params[i].1];
        assert params[..i + 1] == params[..i] + [params[i]];
      }
      assert params[..|params|] == params;
    }

    /** Writes each parameter into its own column of the rows with the id, and nothing else. */
    method Update(id: int, params: Assignment) returns (r: Result<Row, StoreError>)
      requires IsName(tableName) && IsName(idColumn) && ColumnsNamed(ColumnsOf(params))
      modifies this`table
      ensures !old(AcceptsUpdate(table, tableName, idColumn, params)) ==> r == Err(QueryFailed) && table == old(table)
      ensures old(AcceptsUpdate(table, tableName, idColumn, params)) ==>
                && table == old(table).(rows := Updated(db.cmp, idColumn, id, params, old(table.rows)))
                && r == WrittenFirst(FirstWithId(db.cmp, idColumn, id, old(table.rows)), params)
    {
      var setClauses, values := Assignments(params);
      var idParam := |values| + 1;
      values := values + [Int(id)];
      var sql := Spell(UpdatePieces(tableName, setClauses, idColumn, idParam));
      UpdateReply(db, table, tableName, idColumn, id, params, sql, values);
      var (t, reply) := Execute(db, table, sql, values);
      table := t;
      if reply.Refused? {
        return Err(QueryFailed);
      }
      return if reply.rows == [] then Err(NoRowReturned) else Ok(reply.rows[0]);
    }
  }

  // ----- running the statements -----

  function TailPieces(opts: QueryOptions): seq<Piece> {
    OrderPieces(opts.orderBy) + WindowPieces(opts.limit, opts.offset)
  }

  ghost predicate Accepts(t: Table, tableName: string, s: Spec) {
    NoEmptyList(s) && tableName == t.name && Fields(s) <= t.columns
  }

  /** What the database makes of a specification's filter. */
  lemma {:induction false} SpecFilter(db: Database, s: Spec, rows: seq<Row>)
    ensures var c, args := Some(ToCond(s, 1)), Specification.Params(s);
            && FilterColumns(c) == Fields(s) && ArgumentsFit(FilterPlaceholders(c), args)
            && Filtered(db, c, args, rows, true) == Matching(db.cmp, s, rows, true)
            && Filtered(db, c, args, rows, false) == Matching(db.cmp, s, rows, false)
  {
    CompiledArguments(s);
    CompiledFilter(db, s);
    FilteredIsMatching(db, Some(ToCond(s, 1)), Specification.Params(s), s, rows, true);
    FilteredIsMatching(db, Some(ToCond(s, 1)), Specification.Params(s), s, rows, false);
  }

  lemma {:induction false} CountParses(tableName: string, s: Spec)
    requires IsName(tableName) && Named(s)
    ensures ParseStatement(Lex(Spell(CountPieces("count", "cnt", tableName, Clause(s, 1)))))
         == if NoEmptyList(s) then Some(SelectCount(tableName, "cnt", Some(ToCond(s, 1)))) else None
  {
    NameStartingWithC("count");
    NameStartingWithC("cnt");
    LexCount("count", "cnt", tableName, s);
    ParseCountOf("cnt", tableName, s);
  }

  lemma {:induction false} SelectParses(tableName: string, s: Spec, opts: QueryOptions)
    requires IsName(tableName) && Named(s) && KeysNamed(opts.orderBy)
    ensures ParseStatement(Lex(Spell(SelectPieces(tableName, Clause(s, 1), TailPieces(opts)))))
         == if NoEmptyList(s) && opts.limit >= 0 && opts.offset >= 0
            then Some(Select(tableName, Some(ToCond(s, 1)), opts.orderBy, opts.limit, opts.offset)) else None
  {
    ReadsSelectTail(opts.orderBy, opts.limit, opts.offset);
    LexSelect(tableName, s, TailPieces(opts), OrderTokens(opts.orderBy) + WindowTokens(opts.limit, opts.offset));
    ParseSelectOf(tableName, s, opts.orderBy, opts.limit, opts.offset);
  }

  lemma {:induction false} RunsAs(db: Database, t: Table, sql: string, args: seq<DbValue>, stmt: Option<Statement>)
    requires ParseStatement(Lex(sql)) == stmt
    ensures Execute(db, t, sql, args)
         == if stmt.Some? && Admissible(t, stmt.value, args) then Run(db, t, stmt.value, args) else (t, Refused)
  {
  }

  lemma {:induction false} RunCount(db: Database, t: Table, tableName: string, s: Spec)
    ensures var stmt, args := SelectCount(tableName, "cnt", Some(ToCond(s, 1))), Specification.Params(s);
            && (Admissible(t, stmt, args) <==> tableName == t.name && Fields(s) <= t.columns)
            && Run(db, t, stmt, args) == (t, Reply([map["cnt" := Int(|Matching(db.cmp, s, t.rows, true)|)]], 0))
  {
    SpecFilter(db, s, t.rows);
  }

  lemma {:induction false} RunSelect(db: Database, t: Table, tableName: string, s: Spec, keys: seq<SortKey>, n: nat, m: nat)
    ensures var stmt, args := Select(tableName, Some(ToCond(s, 1)), keys, n, m), Specification.Params(s);
            && (Admissible(t, stmt, args)
                <==> tableName == t.name && Fields(s) <= t.columns && forall k :: k in keys ==> k.column in t.columns)
            && Run(db, t, stmt, args) == (t, Reply(Window(Sorted(db, keys, Matching(db.cmp, s, t.rows, true)), n, m), 0))
  {
    SpecFilter(db, s, t.rows);
  }

  lemma {:induction false} RunDelete(db: Database, t: Table, tableName: string, s: Spec)
    ensures var stmt, args := Delete(tableName, Some(ToCond(s, 1))), Specification.Params(s);
            && (Admissible(t, stmt, args) <==> tableName == t.name && Fields(s) <= t.columns)
            && Run(db, t, stmt, args)
            == (t.(rows := Matching(db.cmp, s, t.rows, false)), Reply([], |Matching(db.cmp, s, t.rows, true)|))
  {
    SpecFilter(db, s, t.rows);
  }

  lemma {:induction false} CountRuns(db: Database, t: Table, tableName: string, s: Spec, sql: string, args: seq<DbValue>)
    requires IsName(tableName) && Named(s)
    requires sql == Spell(CountPieces("count", "cnt", tableName, ToWhereClause(s, 1).0)) && args == ToWhereClause(s, 1).1
    ensures Execute(db, t, sql, args)
         == (t, if Accepts(t, tableName, s) then Reply([map["cnt" := Int(|Matching(db.cmp, s, t.rows, true)|)]], 0) else Refused)
  {
    ClauseAndParams(s, 1);
    CountParses(tableName, s);
    RunsAs(db, t, sql, args, if NoEmptyList(s) then Some(SelectCount(tableName, "cnt", Some(ToCond(s, 1)))) else None);
    RunCount(db, t, tableName, s);
  }

  lemma {:induction false} SelectRuns(
    db: Database, t: Table, tableName: string, s: Spec, opts: QueryOptions, sql: string, args: seq<DbValue>)
    requires IsName(tableName) && Named(s) && KeysNamed(opts.orderBy)
    requires sql == Spell(SelectPieces(tableName, ToWhereClause(s, 1).0, TailPieces(opts))) && args == ToWhereClause(s, 1).1
    ensures Execute(db, t, sql, args)
         == (t, if Accepts(t, tableName, s) && opts.limit >= 0 && opts.offset >= 0
                     && forall k :: k in opts.orderBy ==> k.column in t.columns
                then Reply(Window(Sorted(db, opts.orderBy, Matching(db.cmp, s, t.rows, true)), opts.limit, opts.offset), 0)
                else Refused)
  {
    ClauseAndParams(s, 1);
    SelectParses(tableName, s, opts);
    if NoEmptyList(s) && opts.limit >= 0 && opts.offset >= 0 {
      RunsAs(db, t, sql, args, Some(Select(tableName, Some(ToCond(s, 1)), opts.orderBy, opts.limit, opts.offset)));
      RunSelect(db, t, tableName, s, opts.orderBy, opts.limit, opts.offset);
    } else {
      RunsAs(db, t, sql, args, None);
    }
  }

  /** The rows that a find of one page returns. */
  ghost function PageAt(db: Database, t: Table, tableName: string, s: Spec, opts: QueryOptions): seq<Row> {
    var (clause, args) := ToWhereClause(s, 1);
    var (_, reply) := Execute(db, t, Spell(SelectPieces(tableName, clause, TailPieces(opts))), args);
    if reply.Refused? then [] else reply.rows
  }

  lemma {:induction false} PageIsWindow(db: Database, t: Table, tableName: string, s: Spec, opts: QueryOptions, all: seq<Row>)
    requires IsName(tableName) && Named(s) && KeysNamed(opts.orderBy) && opts.limit >= 0 && opts.offset >= 0
    requires Accepts(t, tableName, s) && forall key :: key in opts.orderBy ==> key.column in t.columns
    requires all == Sorted(db, opts.orderBy, Matching(db.cmp, s, t.rows, true))
    ensures PageAt(db, t, tableName, s, opts) == Window(all, opts.limit, opts.offset)
  {
    var (clause, args) := ToWhereClause(s, 1);
    SelectRuns(db, t, tableName, s, opts, Spell(SelectPieces(tableName, clause, TailPieces(opts))), args);
  }

  /**
   Pages of one size, found one after another, show the sorted matching rows from the first on, each
   once; enough of them show all.
   */
  lemma {:induction false} PagesShowAll(
    db: Database, t: Table, tableName: string, s: Spec, keys: seq<SortKey>, size: nat, k: nat, all: seq<Row>, page: nat -> seq<Row>)
    requires IsName(tableName) && Named(s) && KeysNamed(keys)
    requires Accepts(t, tableName, s) && forall key :: key in keys ==> key.column in t.columns
    requires all == Sorted(db, keys, Matching(db.cmp, s, t.rows, true))
    requires forall i :: 0 <= i < k ==> page(i) == PageAt(db, t, tableName, s, QueryOptions(size, PageStart(size, i), keys))
    ensures AllPages(page, k) == if PageStart(size, k) <= |all| then all[..PageStart(size, k)] else all
  {
    forall i | 0 <= i < k ensures page(i) == Window(all, size, PageStart(size, i)) {
      PageIsWindow(db, t, tableName, s, QueryOptions(size, PageStart(size, i), keys), all);
    }
    PagesJoin(all, size, page, k, PageStart(size, k));
  }

  lemma {:induction false} DeleteRuns(db: Database, t: Table, tableName: string, s: Spec, sql: string, args: seq<DbValue>)
    requires IsName(tableName) && Named(s)
    requires sql == Spell(DeletePieces(tableName, ToWhereClause(s, 1).0)) && args == ToWhereClause(s, 1).1
    ensures Execute(db, t, sql, args)
         == if Accepts(t, tableName, s)
            then (t.(rows := Matching(db.cmp, s, t.rows, false)), Reply([], |Matching(db.cmp, s, t.rows, true)|))
            else (t, Refused)
  {
    ClauseAndParams(s, 1);
    LexDelete(tableName, s);
    ParseDeleteOf(tableName, s);
    RunsAs(db, t, sql, args, if NoEmptyList(s) then Some(Delete(tableName, Some(ToCond(s, 1)))) else None);
    RunDelete(db, t, tableName, s);
  }

  /**
   Run one after another on any table, the three statements of a specification agree: the count is
   the number of rows an unlimited find returns and of rows the deletion removes, and after the
   deletion the count is 0.
   */
  lemma {:induction false} CountFindDeleteAgree(
    db: Database, t: Table, tableName: string, s: Spec, opts: QueryOptions,
    count: string, select: string, delete: string, args: seq<DbValue>, hits: nat)
    requires IsName(tableName) && Named(s) && KeysNamed(opts.orderBy) && Accepts(t, tableName, s)
    requires opts.limit >= |t.rows| && opts.offset == 0 && forall k :: k in opts.orderBy ==> k.column in t.columns
    requires count == Spell(CountPieces("count", "cnt", tableName, ToWhereClause(s, 1).0))
    requires select == Spell(SelectPieces(tableName, ToWhereClause(s, 1).0, TailPieces(opts)))
    requires delete == Spell(DeletePieces(tableName, ToWhereClause(s, 1).0))
    requires args == ToWhereClause(s, 1).1 && hits == |Matching(db.cmp, s, t.rows, true)|
    ensures Execute(db, t, count, args).1 == Reply([map["cnt" := Int(hits)]], 0)
    ensures Execute(db, t, select, args).1.Reply? && |Execute(db, t, select, args).1.rows| == hits
    ensures Execute(db, t, delete, args).1 == Reply([], hits)
    ensures Execute(db, Execute(db, t, delete, args).0, count, args).1 == Reply([map["cnt" := Int(0)]], 0)
  {
    CountRuns(db, t, tableName, s, count, args);
    SelectRuns(db, t, tableName, s, opts, select, args);
    UnlimitedFind(db, s, opts.orderBy, t.rows, opts.limit);
    DeleteRuns(db, t, tableName, s, delete, args);
    MatchingOfRest(db.cmp, s, t.rows);
    CountRuns(db, Execute(db, t, delete, args).0, tableName, s, count, args);
  }

  ghost predicate AcceptsUpdate(t: Table, tableName: string, idColumn: string, params: Assignment) {
    && params != [] && Distinct(ColumnsOf(params)) && tableName == t.name
    && idColumn in t.columns && (forall c :: c in ColumnsOf(params) ==> c in t.columns)
  }

  lemma {:induction false} UpdateAdmissible(t: Table, tableName: string, idColumn: string, id: int, params: Assignment)
    requires params != []
    ensures Admissible(t, Statement.Update(tableName, SetPairs(ColumnsOf(params), 1), Some(CEq(idColumn, |params| + 1))),
                       UpdateArgs(params, id))
        <==> AcceptsUpdate(t, tableName, idColumn, params)
  {
    UpdateFits(params, id);
    var cs, pairs := ColumnsOf(params), SetPairs(ColumnsOf(params), 1);
    assert forall i {:trigger pairs[i]} :: 0 <= i < |cs| ==> pairs[i] == (cs[i], i + 1);
    assert ColumnsDistinct(pairs) <==> Distinct(cs);
    assert (forall p :: p in pairs ==> p.0 in t.columns) <==> (forall c :: c in cs ==> c in t.columns) by {
      forall c | c in cs ensures exists p :: p in pairs && p.0 == c {
        var i :| 0 <= i < |cs| && cs[i] == c;
        assert pairs[i] in pairs;
      }
    }
  }

  lemma {:induction false} UpdateRuns(
    db: Database, t: Table, tableName: string, idColumn: string, id: int, params: Assignment)
    requires IsName(tableName) && IsName(idColumn) && ColumnsNamed(ColumnsOf(params))
    ensures var sql := UpdatePieces(tableName, SetClauses(ColumnsOf(params), 1), idColumn, |params| + 1);
            var (after, reply) := Execute(db, t, Spell(sql), UpdateArgs(params, id));
            if AcceptsUpdate(t, tableName, idColumn, params)
            then && after == t.(rows := Updated(db.cmp, idColumn, id, params, t.rows))
                 && reply.Reply? && reply.rows == ReturnedRows(db, idColumn, id, params, t.rows)
                 && (var first := FirstWithId(db.cmp, idColumn, id, t.rows);
                     if first.Some? then reply.rows != [] && reply.rows[0] == Written(first.value, params)
                     else reply.rows == [])
            else after == t && reply == Refused
  {
    var columns := ColumnsOf(params);
    LexUpdate(tableName, columns, idColumn, |params| + 1);
    ParseUpdateOf(tableName, columns, idColumn, |params| + 1);
    if params != [] {
      UpdateAdmissible(t, tableName, idColumn, id, params);
      RewrittenIsUpdated(db, idColumn, id, params, t.rows);
      FirstReturned(db, idColumn, id, params, t.rows);
    }
  }

  /** The table and the reply that executing an update leaves. */
  lemma {:induction false} UpdateReply(
    db: Database, t: Table, tableName: string, idColumn: string, id: int, params: Assignment,
    sql: string, values: seq<DbValue>)
    requires IsName(tableName) && IsName(idColumn) && ColumnsNamed(ColumnsOf(params))
    requires sql == Spell(UpdatePieces(tableName, SetClauses(ColumnsOf(params), 1), idColumn, |params| + 1))
    requires values == ValuesOf(params) + [Int(id)]
    ensures
      var (after, reply) := Execute(db, t, sql, values);
      if !AcceptsUpdate(t, tableName, idColumn, params) then after == t && reply == Refused
      else
        && after == t.(rows := Updated(db.cmp, idColumn, id, params, t.rows)) && reply.Reply?
        && WrittenFirst(FirstWithId(db.cmp, idColumn, id, t.rows), params) ==
           (if reply.rows == [] then Err(NoRowReturned) else Ok(reply.rows[0]))
  {
    UpdateRuns(db, t, tableName, idColumn, id, params);
  }
}
