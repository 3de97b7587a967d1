/**
 The statements the generic repository writes: their text, piece by piece, and what the SQL
 grammar reads in it.
 */
module Statements {
  import opened Wrappers
  import opened SqlValues
  import opened SqlText
  import opened SqlGrammar
  import opened Specification

  // ----- the filter -----

  /** WHERE and a specification's clause parse to its condition, or not at all when a list is empty. */
  lemma {:induction false} ParseFilterClause(s: Spec, r: seq<Token>)
    requires Named(s) && EndsCondition(r)
    ensures ParseFilter([Key(WHERE)] + (ClauseTokens(s, 1) + r))
         == if NoEmptyList(s) then Some((Some(ToCond(s, 1)), r)) else None
  {
    Cons(Key(WHERE), ClauseTokens(s, 1) + r);
    ParseClause(s, 1, r);
  }

  /** What a parser of the rest of a statement makes of a specification's filter. */
  ghost function FilterOf(s: Spec): Option<Cond> {
    if NoEmptyList(s) then Some(ToCond(s, 1)) else None
  }

  ghost function SourceTokens(table: string, s: Spec, r: seq<Token>): seq<Token> {
    [Key(FROM)] + ([Word(table)] + ([Key(WHERE)] + (ClauseTokens(s, 1) + r)))
  }

  lemma {:induction false} ParseSourceOf(table: string, s: Spec, r: seq<Token>)
    requires IsName(table) && Named(s) && EndsCondition(r)
    ensures ParseSource(SourceTokens(table, s, r))
         == if NoEmptyList(s) then Some(((table, Some(ToCond(s, 1))), r)) else None
  {
    var x := [Key(WHERE)] + (ClauseTokens(s, 1) + r);
    ParseFilterClause(s, r);
    Cons(Word(table), x);
    Cons(Key(FROM), [Word(table)] + x);
  }

  // ----- DELETE FROM t WHERE c -----

  lemma {:induction false} ParseDeleteOf(table: string, s: Spec)
    requires IsName(table) && Named(s)
    ensures ParseStatement([Key(DELETE)] + SourceTokens(table, s, []))
         == if NoEmptyList(s) then Some(Delete(table, Some(ToCond(s, 1)))) else None
  {
    ParseSourceOf(table, s, []);
    Cons(Key(DELETE), SourceTokens(table, s, []));
  }

  // ----- SELECT count(*) AS cnt FROM t WHERE c -----

  ghost function CountTokens(alias: string, y: seq<Token>): seq<Token> {
    [Sym('(')] + ([Sym('*')] + ([Sym(')')] + ([Key(AS)] + ([Word(alias)] + y))))
  }

  lemma {:induction false} ParseCountTokens(alias: string, y: seq<Token>, source: Option<(string, Option<Cond>)>)
    requires ParseSource(y) == if source.Some? then Some((source.value, [])) else None
    ensures ParseCount(CountTokens(alias, y))
         == if source.Some? then Some(SelectCount(source.value.0, alias, source.value.1)) else None
  {
    var t3 := [Word(alias)] + y;
    var t4 := [Key(AS)] + t3;
    var t5 := [Sym(')')] + t4;
    var t6 := [Sym('*')] + t5;
    Cons(Word(alias), y);
    Cons(Key(AS), t3);
    Cons(Sym(')'), t4);
    Cons(Sym('*'), t5);
    Cons(Sym('('), t6);
  }

  lemma {:induction false} ParseCountOf(alias: string, table: string, s: Spec)
    requires IsName(table) && Named(s)
    ensures ParseStatement([Key(SELECT)] + ([Word("count")] + CountTokens(alias, SourceTokens(table, s, []))))
         == if NoEmptyList(s) then Some(SelectCount(table, alias, Some(ToCond(s, 1)))) else None
  {
    var y := SourceTokens(table, s, []);
    ParseSourceOf(table, s, []);
    ParseCountTokens(alias, y, if NoEmptyList(s) then Some((table, Some(ToCond(s, 1)))) else None);
    ParseCountStart(CountTokens(alias, y));
  }

  lemma {:induction false} ParseCountStart(y: seq<Token>)
    ensures ParseStatement([Key(SELECT)] + ([Word("count")] + y)) == ParseCount(y)
  {
    Cons(Word("count"), y);
    Cons(Key(SELECT), [Word("count")] + y);
  }

  // ----- SELECT * FROM t WHERE c [ORDER BY k, ...] LIMIT n OFFSET m -----

  function Direction(k: SortKey): Keyword {
    if k.ascending then ASC else DESC
  }

  /** `f ASC, g DESC, ...` */
  function SortPieces(keys: seq<SortKey>): seq<Piece> {
    if keys == [] then []
    else if |keys| == 1 then [W(keys[0].column), Space, K(Direction(keys[0]))]
    else [W(keys[0].column), Space] + ([K(Direction(keys[0]))] + ([S(','), Space] + SortPieces(keys[1..])))
  }

  ghost function SortTokens(keys: seq<SortKey>): seq<Token> {
    if keys == [] then []
    else if |keys| == 1 then [Word(keys[0].column)] + [Key(Direction(keys[0]))]
    else [Word(keys[0].column)] + ([Key(Direction(keys[0]))] + ([Sym(',')] + SortTokens(keys[1..])))
  }

  ghost predicate KeysNamed(keys: seq<SortKey>) {
    forall k :: k in keys ==> IsName(k.column)
  }

  lemma {:induction false} ReadsSortStep(k: SortKey, rest: seq<Piece>, ts: seq<Token>)
    requires IsName(k.column) && Reads(rest, ts) && rest != []
    ensures Reads([W(k.column), Space] + ([K(Direction(k))] + ([S(','), Space] + rest)),
                  [Word(k.column)] + ([Key(Direction(k))] + ([Sym(',')] + ts)))
  {
    Spaced(S(','), rest);
    Leading(K(Direction(k)), [S(','), Space] + rest);
    Spaced(W(k.column), [K(Direction(k))] + ([S(','), Space] + rest));
  }

  lemma {:induction false} ReadsSortKeys(keys: seq<SortKey>)
    requires KeysNamed(keys)
    ensures Reads(SortPieces(keys), SortTokens(keys))
    ensures keys != [] ==> SortPieces(keys) != [] && SortPieces(keys)[|SortPieces(keys)| - 1].Tok?
  {
    if |keys| == 1 {
      var f, d := W(keys[0].column), K(Direction(keys[0]));
      Single(d);
      Spaced(f, [d]);
      assert [f, Space, d] == [f, Space] + [d];
    } else if |keys| > 1 {
      ReadsSortKeys(keys[1..]);
      ReadsSortStep(keys[0], SortPieces(keys[1..]), SortTokens(keys[1..]));
    }
  }

  ghost function AfterKey(keys: seq<SortKey>, r: seq<Token>): seq<Token>
    requires keys != []
  {
    if |keys| == 1 then r else [Sym(',')] + (SortTokens(keys[1..]) + r)
  }

  lemma {:induction false} SortTokensNested(keys: seq<SortKey>, r: seq<Token>)
    requires keys != []
    ensures SortTokens(keys) + r
         == [Word(keys[0].column)] + ([Key(Direction(keys[0]))] + AfterKey(keys, r))
  {
  }

  lemma {:induction false} ParseLastKey(k: SortKey, r: seq<Token>)
    requires r == [] || r[0] != Sym(',')
    ensures ParseSortKeys([Word(k.column)] + ([Key(Direction(k))] + r)) == Some(([k], r))
  {
    Cons(Key(Direction(k)), r);
    Cons(Word(k.column), [Key(Direction(k))] + r);
  }

  lemma {:induction false} ParseFirstKey(k: SortKey, y: seq<Token>, others: seq<SortKey>, r: seq<Token>, keys: seq<SortKey>)
    requires ParseSortKeys(y) == Some((others, r)) && keys == [k] + others
    ensures ParseSortKeys([Word(k.column)] + ([Key(Direction(k))] + ([Sym(',')] + y))) == Some((keys, r))
  {
    Cons(Sym(','), y);
    Cons(Key(Direction(k)), [Sym(',')] + y);
    Cons(Word(k.column), [Key(Direction(k))] + ([Sym(',')] + y));
  }

  ghost predicate SortKeysParse(keys: seq<SortKey>, ts: seq<Token>, r: seq<Token>) {
    ParseSortKeys(ts) == Some((keys, r))
  }

  lemma {:induction false} ParseLoneKey(keys: seq<SortKey>, ts: seq<Token>, r: seq<Token>)
    requires |keys| == 1 && (r == [] || r[0] != Sym(','))
    requires ts == SortTokens(keys) + r
    ensures SortKeysParse(keys, ts, r)
  {
    SortTokensNested(keys, r);
    ParseLastKey(keys[0], r);
    assert keys == [keys[0]];
  }

  lemma {:induction false} ParseMoreKeys(keys: seq<SortKey>, ts: seq<Token>, y: seq<Token>, r: seq<Token>)
    requires |keys| > 1 && ts == SortTokens(keys) + r
    requires y == SortTokens(keys[1..]) + r && SortKeysParse(keys[1..], y, r)
    ensures SortKeysParse(keys, ts, r)
  {
    SortTokensNested(keys, r);
    ParseFirstKey(keys[0], y, keys[1..], r, keys);
  }

  lemma {:induction false} ParseSortTokens(keys: seq<SortKey>, ts: seq<Token>, r: seq<Token>)
    requires keys != [] && (r == [] || r[0] != Sym(','))
    requires ts == SortTokens(keys) + r
    ensures SortKeysParse(keys, ts, r)
  {
    if |keys| == 1 {
      ParseLoneKey(keys, ts, r);
    } else {
      var y := SortTokens(keys[1..]) + r;
      ParseSortTokens(keys[1..], y, r);
      ParseMoreKeys(keys, ts, y, r);
    }
  }

  function IntPieces(n: int): seq<Piece> {
    if n < 0 then [S('-'), Tok(Num(-n))] else [Tok(Num(n))]
  }

  ghost function IntTokens(n: int): seq<Token> {
    if n < 0 then [Sym('-'), Num(-n)] else [Num(n)]
  }

  lemma {:induction false} ReadsInt(n: int)
    ensures Reads([Space] + IntPieces(n), IntTokens(n))
  {
    if n < 0 {
      Single(Tok(Num(-n)));
      Leading(S('-'), [Tok(Num(-n))]);
      assert IntPieces(n) == [S('-')] + [Tok(Num(-n))];
    } else {
      Single(Tok(Num(n)));
    }
    Leading(Space, IntPieces(n));
  }

  function WindowPieces(limit: int, offset: int): seq<Piece> {
    After([Key(LIMIT)]) + ([Space] + IntPieces(limit)) + (After([Key(OFFSET)]) + ([Space] + IntPieces(offset)))
  }

  ghost function WindowTokens(limit: int, offset: int): seq<Token> {
    [Key(LIMIT)] + IntTokens(limit) + ([Key(OFFSET)] + IntTokens(offset))
  }

  lemma {:induction false} ReadsWindow(limit: int, offset: int)
    ensures Reads(WindowPieces(limit, offset), WindowTokens(limit, offset))
    ensures WindowPieces(limit, offset) != [] && WindowPieces(limit, offset)[0] == Space
  {
    ReadsAfter([Key(LIMIT)]);
    ReadsAfter([Key(OFFSET)]);
    ReadsInt(limit);
    ReadsInt(offset);
    var a, b := After([Key(LIMIT)]), After([Key(OFFSET)]);
    ReadsConcat(a, [Key(LIMIT)], [Space] + IntPieces(limit), IntTokens(limit));
    ReadsConcat(b, [Key(OFFSET)], [Space] + IntPieces(offset), IntTokens(offset));
    ReadsConcat(a + ([Space] + IntPieces(limit)), [Key(LIMIT)] + IntTokens(limit),
                b + ([Space] + IntPieces(offset)), [Key(OFFSET)] + IntTokens(offset));
  }

  function OrderPieces(keys: seq<SortKey>): seq<Piece> {
    if keys == [] then [] else After([Key(ORDER), Key(BY)]) + ([Space] + SortPieces(keys))
  }

  ghost function OrderTokens(keys: seq<SortKey>): seq<Token> {
    if keys == [] then [] else [Key(ORDER), Key(BY)] + SortTokens(keys)
  }

  lemma {:induction false} ReadsOrder(keys: seq<SortKey>)
    requires KeysNamed(keys)
    ensures Reads(OrderPieces(keys), OrderTokens(keys))
    ensures keys != [] ==> OrderPieces(keys) != [] && OrderPieces(keys)[0] == Space
  {
    if keys != [] {
      ReadsAfter([Key(ORDER), Key(BY)]);
      ReadsSortKeys(keys);
      Leading(Space, SortPieces(keys));
      ReadsConcat(After([Key(ORDER), Key(BY)]), [Key(ORDER), Key(BY)],
                  [Space] + SortPieces(keys), SortTokens(keys));
    }
  }

  lemma {:induction false} WindowStart(limit: int, offset: int)
    ensures WindowTokens(limit, offset) != [] && WindowTokens(limit, offset)[0] == Key(LIMIT)
  {
  }

  lemma {:induction false} ParseOrderOf(keys: seq<SortKey>, r: seq<Token>)
    requires r != [] && r[0] == Key(LIMIT)
    ensures ParseOrder(OrderTokens(keys) + r) == Some((keys, r))
    ensures EndsCondition(OrderTokens(keys) + r)
  {
    if keys == [] {
      assert OrderTokens(keys) + r == r;
    } else {
      var y := SortTokens(keys) + r;
      assert OrderTokens(keys) + r == [Key(ORDER)] + ([Key(BY)] + y);
      Cons(Key(ORDER), [Key(BY)] + y);
      Cons(Key(BY), y);
      ParseSortTokens(keys, y, r);
    }
  }

  /** A negative limit or offset is not SQL. */
  lemma {:induction false} ParseWindowOf(limit: int, offset: int)
    ensures ParseWindow(WindowTokens(limit, offset)) == if limit >= 0 && offset >= 0 then Some((limit, offset)) else None
  {
    var y := [Key(OFFSET)] + IntTokens(offset);
    assert WindowTokens(limit, offset) == [Key(LIMIT)] + (IntTokens(limit) + y);
    Cons(Key(LIMIT), IntTokens(limit) + y);
    if limit >= 0 {
      Cons(Num(limit), y);
      Cons(Key(OFFSET), IntTokens(offset));
      assert offset >= 0 ==> IntTokens(offset)[1..] == [];
    } else {
      assert (IntTokens(limit) + y)[0] == Sym('-');
    }
  }

  ghost function SelectTokens(table: string, s: Spec, keys: seq<SortKey>, limit: int, offset: int): seq<Token> {
    SourceTokens(table, s, OrderTokens(keys) + WindowTokens(limit, offset))
  }

  lemma {:induction false} ParseSelectOf(table: string, s: Spec, keys: seq<SortKey>, limit: int, offset: int)
    requires IsName(table) && Named(s)
    ensures ParseStatement([Key(SELECT)] + ([Sym('*')] + SelectTokens(table, s, keys, limit, offset)))
         == if NoEmptyList(s) && limit >= 0 && offset >= 0 then Some(Select(table, Some(ToCond(s, 1)), keys, limit, offset))
            else None
  {
    var w := WindowTokens(limit, offset);
    var y := SelectTokens(table, s, keys, limit, offset);
    WindowStart(limit, offset);
    ParseOrderOf(keys, w);
    ParseSourceOf(table, s, OrderTokens(keys) + w);
    ParseWindowOf(limit, offset);
    SkipTwo(Key(SELECT), Sym('*'), y);
  }

  lemma {:induction false} SkipTwo(a: Token, b: Token, y: seq<Token>)
    ensures var ts := [a] + ([b] + y); ts[0] == a && ts[1..] == [b] + y && ts[1..][0] == b && ts[2..] == y
  {
  }

  // ----- the statements' pieces -----

  function SourcePieces(table: string, clause: seq<Piece>): seq<Piece> {
    Before([Key(FROM), Word(table), Key(WHERE)]) + clause
  }

  function DeletePieces(table: string, clause: seq<Piece>): seq<Piece> {
    Before([Key(DELETE)]) + SourcePieces(table, clause)
  }

  /** `fn(*) AS alias ` */
  function CountHeadPieces(fn: string, alias: string): seq<Piece> {
    [W(fn)] + ([S('('), S('*'), S(')'), Space] + Before([Key(AS), Word(alias)]))
  }

  function CountPieces(fn: string, alias: string, table: string, clause: seq<Piece>): seq<Piece> {
    Before([Key(SELECT)]) + (CountHeadPieces(fn, alias) + SourcePieces(table, clause))
  }

  function SelectPieces(table: string, clause: seq<Piece>, tail: seq<Piece>): seq<Piece> {
    Before([Key(SELECT), Sym('*')]) + (SourcePieces(table, clause) + tail)
  }

  lemma {:induction false} ReadsSource(table: string, s: Spec)
    requires IsName(table) && Named(s)
    ensures var ps := SourcePieces(table, Clause(s, 1));
            && Reads(ps, [Key(FROM), Word(table), Key(WHERE)] + ClauseTokens(s, 1))
            && ps != [] && ps[0] == Tok(Key(FROM)) && Closed(ps[|ps| - 1])
  {
    ReadsBefore([Key(FROM), Word(table), Key(WHERE)]);
    ClausePhrase(s, 1);
    ReadsConcat(Before([Key(FROM), Word(table), Key(WHERE)]), [Key(FROM), Word(table), Key(WHERE)],
                Clause(s, 1), ClauseTokens(s, 1));
  }

  lemma {:induction false} SourceTokensOf(table: string, s: Spec, r: seq<Token>)
    ensures [Key(FROM), Word(table), Key(WHERE)] + ClauseTokens(s, 1) + r == SourceTokens(table, s, r)
  {
    Unfold3(Key(FROM), Word(table), Key(WHERE), ClauseTokens(s, 1) + r);
    assert [Key(FROM), Word(table), Key(WHERE)] + ClauseTokens(s, 1) + r
        == [Key(FROM), Word(table), Key(WHERE)] + (ClauseTokens(s, 1) + r);
  }

  lemma {:induction false} LexDelete(table: string, s: Spec)
    requires IsName(table) && Named(s)
    ensures Lex(Spell(DeletePieces(table, Clause(s, 1)))) == [Key(DELETE)] + SourceTokens(table, s, [])
  {
    var ts := [Key(FROM), Word(table), Key(WHERE)] + ClauseTokens(s, 1);
    ReadsSource(table, s);
    ReadsBefore([Key(DELETE)]);
    LexTwo(Before([Key(DELETE)]), [Key(DELETE)], SourcePieces(table, Clause(s, 1)), ts);
    SourceTokensOf(table, s, []);
    assert ts + [] == ts;
  }

  lemma {:induction false} ReadsParens(tail: seq<Piece>, ts: seq<Token>)
    requires Reads(tail, ts)
    ensures Reads([S('('), S('*'), S(')'), Space] + tail, [Sym('(')] + ([Sym('*')] + ([Sym(')')] + ts)))
  {
    var a := [Space] + tail;
    var b := [S(')')] + a;
    var c := [S('*')] + b;
    Leading(Space, tail);
    Leading(S(')'), a);
    Leading(S('*'), b);
    Leading(S('('), c);
    assert [S('('), S('*'), S(')'), Space] + tail == [S('(')] + c;
  }

  ghost function CountHead(fn: string, alias: string): seq<Token> {
    [Word(fn)] + ([Sym('(')] + ([Sym('*')] + ([Sym(')')] + [Key(AS), Word(alias)])))
  }

  lemma {:induction false} ReadsCountHead(fn: string, alias: string)
    requires IsName(fn) && IsName(alias)
    ensures Reads(CountHeadPieces(fn, alias), CountHead(fn, alias))
    ensures CountHeadPieces(fn, alias) != [] && CountHeadPieces(fn, alias)[|CountHeadPieces(fn, alias)| - 1] == Space
  {
    var tail := Before([Key(AS), Word(alias)]);
    var parens := [S('('), S('*'), S(')'), Space] + tail;
    ReadsBefore([Key(AS), Word(alias)]);
    ReadsParens(tail, [Key(AS), Word(alias)]);
    Leading(W(fn), parens);
  }

  lemma {:induction false} CountTokensNested(fn: string, alias: string, ts: seq<Token>)
    ensures CountHead(fn, alias) + ts == [Word(fn)] + CountTokens(alias, ts)
  {
    var tail := [Key(AS), Word(alias)];
    assert tail + ts == [Key(AS)] + ([Word(alias)] + ts);
    assert CountHead(fn, alias) + ts == [Word(fn)] + ([Sym('(')] + ([Sym('*')] + ([Sym(')')] + (tail + ts))));
  }

  lemma {:induction false} LexCount(fn: string, alias: string, table: string, s: Spec)
    requires IsName(fn) && IsName(alias) && IsName(table) && Named(s)
    ensures Lex(Spell(CountPieces(fn, alias, table, Clause(s, 1))))
         == [Key(SELECT)] + ([Word(fn)] + CountTokens(alias, SourceTokens(table, s, [])))
  {
    var source, ts := SourcePieces(table, Clause(s, 1)), [Key(FROM), Word(table), Key(WHERE)] + ClauseTokens(s, 1);
    var head, ht := CountHeadPieces(fn, alias), CountHead(fn, alias);
    ReadsSource(table, s);
    ReadsBefore([Key(SELECT)]);
    ReadsCountHead(fn, alias);
    ReadsConcat(head, ht, source, ts);
    LexTwo(Before([Key(SELECT)]), [Key(SELECT)], head + source, ht + ts);
    SourceTokensOf(table, s, []);
    assert ts + [] == ts;
    CountTokensNested(fn, alias, ts);
  }

  lemma {:induction false} ReadsSelectTail(keys: seq<SortKey>, limit: int, offset: int)
    requires KeysNamed(keys)
    ensures var ps := OrderPieces(keys) + WindowPieces(limit, offset);
            Reads(ps, OrderTokens(keys) + WindowTokens(limit, offset)) && ps != [] && ps[0] == Space
  {
    ReadsOrder(keys);
    ReadsWindow(limit, offset);
    ReadsConcat(OrderPieces(keys), OrderTokens(keys), WindowPieces(limit, offset), WindowTokens(limit, offset));
  }

  lemma {:induction false} LexSelect(table: string, s: Spec, tail: seq<Piece>, r: seq<Token>)
    requires IsName(table) && Named(s)
    requires Reads(tail, r) && tail != [] && tail[0] == Space
    ensures Lex(Spell(SelectPieces(table, Clause(s, 1), tail)))
         == [Key(SELECT)] + ([Sym('*')] + SourceTokens(table, s, r))
  {
    var ht := [Key(SELECT), Sym('*')];
    var source, ts := SourcePieces(table, Clause(s, 1)), [Key(FROM), Word(table), Key(WHERE)] + ClauseTokens(s, 1);
    ReadsSource(table, s);
    ReadsBefore(ht);
    ReadsConcat(source, ts, tail, r);
    LexTwo(Before(ht), ht, source + tail, ts + r);
    SourceTokensOf(table, s, r);
    Unfold2(Key(SELECT), Sym('*'), ts + r);
  }

  lemma {:induction false} Unfold2(x: Token, y: Token, rest: seq<Token>)
    ensures [x, y] + rest == [x] + ([y] + rest)
  {
  }

  // ----- UPDATE t SET f = $1, ... WHERE id = $n RETURNING * -----

  function SetClause(column: string, n: nat): seq<Piece> {
    [W(column), Space, S('='), Space, P(n)]
  }

  function JoinPieces(parts: seq<seq<Piece>>): seq<Piece> {
    if parts == [] then []
    else if |parts| == 1 then parts[0]
    else parts[0] + ([S(','), Space] + JoinPieces(parts[1..]))
  }

  function UpdatePieces(table: string, setClauses: seq<seq<Piece>>, idColumn: string, n: nat): seq<Piece> {
    Before([Key(UPDATE), Word(table), Key(SET)]) + (JoinPieces(setClauses) + UpdateEnd(idColumn, n))
  }

  ghost function SetClauses(columns: seq<string>, k: nat): (parts: seq<seq<Piece>>)
    ensures |parts| == |columns| && forall i :: 0 <= i < |columns| ==> parts[i] == SetClause(columns[i], k + i)
  {
    seq(|columns|, i requires 0 <= i < |columns| => SetClause(columns[i], k + i))
  }

  ghost function SetTokens(columns: seq<string>, k: nat): seq<Token> {
    if columns == [] then []
    else if |columns| == 1 then [Word(columns[0]), Sym('='), Param(k)]
    else [Word(columns[0]), Sym('='), Param(k)] + ([Sym(',')] + SetTokens(columns[1..], k + 1))
  }

  ghost predicate ColumnsNamed(columns: seq<string>) {
    forall c :: c in columns ==> IsName(c)
  }

  lemma {:induction false} ReadsSetStep(c: string, k: nat, rest: seq<Piece>, ts: seq<Token>)
    requires IsName(c) && Reads(rest, ts) && rest != [] && Closed(rest[|rest| - 1])
    ensures Phrase(SetClause(c, k) + ([S(','), Space] + rest), [Word(c), Sym('='), Param(k)] + ([Sym(',')] + ts))
  {
    BinaryPhrase(c, S('='), k);
    Spaced(S(','), rest);
    ReadsConcat(SetClause(c, k), [Word(c), Sym('='), Param(k)], [S(','), Space] + rest, [Sym(',')] + ts);
  }

  lemma {:induction false} ReadsSets(columns: seq<string>, k: nat)
    requires ColumnsNamed(columns)
    ensures columns != [] ==> Phrase(JoinPieces(SetClauses(columns, k)), SetTokens(columns, k))
    decreases |columns|
  {
    if |columns| == 1 {
      BinaryPhrase(columns[0], S('='), k);
    } else if |columns| > 1 {
      var rest := SetClauses(columns[1..], k + 1);
      assert SetClauses(columns, k)[1..] == rest;
      ReadsSets(columns[1..], k + 1);
      ReadsSetStep(columns[0], k, JoinPieces(rest), SetTokens(columns[1..], k + 1));
    }
  }

  ghost function UpdateTail(idColumn: string, n: nat): seq<Token> {
    [Key(WHERE)] + ([Word(idColumn), Sym('='), Param(n)] + [Key(RETURNING), Sym('*')])
  }

  function UpdateEnd(idColumn: string, n: nat): seq<Piece> {
    After([Key(WHERE)]) + (([Space] + SetClause(idColumn, n)) + After([Key(RETURNING), Sym('*')]))
  }

  lemma {:induction false} ReadsUpdateTail(idColumn: string, n: nat)
    requires IsName(idColumn)
    ensures Reads(UpdateEnd(idColumn, n), UpdateTail(idColumn, n))
    ensures UpdateEnd(idColumn, n) != [] && UpdateEnd(idColumn, n)[0] == Space
  {
    var id, it := SetClause(idColumn, n), [Word(idColumn), Sym('='), Param(n)];
    var end, et := After([Key(RETURNING), Sym('*')]), [Key(RETURNING), Sym('*')];
    ReadsAfter([Key(WHERE)]);
    BinaryPhrase(idColumn, S('='), n);
    Leading(Space, id);
    ReadsAfter(et);
    ReadsConcat([Space] + id, it, end, et);
    ReadsConcat(After([Key(WHERE)]), [Key(WHERE)], ([Space] + id) + end, it + et);
  }

  ghost function UpdateTokens(table: string, sets: seq<Token>, tail: seq<Token>): seq<Token> {
    [Key(UPDATE)] + ([Word(table)] + ([Key(SET)] + (sets + tail)))
  }

  lemma {:induction false} LexUpdate(table: string, columns: seq<string>, idColumn: string, n: nat)
    requires IsName(table) && IsName(idColumn) && ColumnsNamed(columns)
    ensures Lex(Spell(UpdatePieces(table, SetClauses(columns, 1), idColumn, n)))
         == UpdateTokens(table, SetTokens(columns, 1), UpdateTail(idColumn, n))
  {
    var ht := [Key(UPDATE), Word(table), Key(SET)];
    var sets := JoinPieces(SetClauses(columns, 1));
    var tail := UpdateEnd(idColumn, n);
    ReadsBefore(ht);
    ReadsUpdateTail(idColumn, n);
    ReadsSets(columns, 1);
    ReadsConcat(sets, SetTokens(columns, 1), tail, UpdateTail(idColumn, n));
    LexTwo(Before(ht), ht, sets + tail, SetTokens(columns, 1) + UpdateTail(idColumn, n));
    Unfold3(Key(UPDATE), Word(table), Key(SET), SetTokens(columns, 1) + UpdateTail(idColumn, n));
  }

  ghost function SetPairs(columns: seq<string>, k: nat): (pairs: seq<(string, nat)>)
    ensures |pairs| == |columns| && forall i :: 0 <= i < |columns| ==> pairs[i] == (columns[i], k + i)
  {
    seq(|columns|, i requires 0 <= i < |columns| => (columns[i], k + i))
  }

  lemma {:induction false} ParseOneSet(c: string, k: nat, rest: seq<Token>)
    ensures var ts := [Word(c), Sym('='), Param(k)] + rest;
            && ParseName(ts) == Some((c, [Sym('=')] + ([Param(k)] + rest)))
            && EatSym([Sym('=')] + ([Param(k)] + rest), '=') == Some([Param(k)] + rest)
            && ParseParam([Param(k)] + rest) == Some((k, rest))
  {
    Unfold3(Word(c), Sym('='), Param(k), rest);
    Cons(Word(c), [Sym('=')] + ([Param(k)] + rest));
    Cons(Sym('='), [Param(k)] + rest);
    Cons(Param(k), rest);
  }

  lemma {:induction false} ParseLastSet(c: string, k: nat, r: seq<Token>)
    requires r == [] || r[0] != Sym(',')
    ensures ParseSets([Word(c), Sym('='), Param(k)] + r) == Some(([(c, k)], r))
  {
    ParseOneSet(c, k, r);
  }

  lemma {:induction false} ParseFirstSet(c: string, k: nat, y: seq<Token>, others: seq<(string, nat)>, r: seq<Token>)
    requires ParseSets(y) == Some((others, r))
    ensures ParseSets([Word(c), Sym('='), Param(k)] + ([Sym(',')] + y)) == Some(([(c, k)] + others, r))
  {
    ParseOneSet(c, k, [Sym(',')] + y);
    Cons(Sym(','), y);
  }

  ghost predicate SetsParse(columns: seq<string>, k: nat, r: seq<Token>) {
    ParseSets(SetTokens(columns, k) + r) == Some((SetPairs(columns, k), r))
  }

  lemma {:induction false} ParseLoneSet(columns: seq<string>, k: nat, r: seq<Token>)
    requires |columns| == 1 && (r == [] || r[0] != Sym(','))
    ensures SetsParse(columns, k, r)
  {
    ParseLastSet(columns[0], k, r);
    assert SetPairs(columns, k) == [(columns[0], k)];
  }

  lemma {:induction false} SetTokensNested(columns: seq<string>, k: nat, r: seq<Token>)
    requires |columns| > 1
    ensures SetTokens(columns, k) + r
         == [Word(columns[0]), Sym('='), Param(k)] + ([Sym(',')] + (SetTokens(columns[1..], k + 1) + r))
    ensures SetPairs(columns, k) == [(columns[0], k)] + SetPairs(columns[1..], k + 1)
  {
  }

  lemma {:induction false} ParseMoreSets(columns: seq<string>, k: nat, r: seq<Token>)
    requires |columns| > 1 && SetsParse(columns[1..], k + 1, r)
    ensures SetsParse(columns, k, r)
  {
    SetTokensNested(columns, k, r);
    ParseFirstSet(columns[0], k, SetTokens(columns[1..], k + 1) + r, SetPairs(columns[1..], k + 1), r);
  }

  lemma {:induction false} ParseSetTokens(columns: seq<string>, k: nat, r: seq<Token>)
    requires columns != [] && (r == [] || r[0] != Sym(','))
    ensures SetsParse(columns, k, r)
    decreases |columns|
  {
    if |columns| == 1 {
      ParseLoneSet(columns, k, r);
    } else {
      ParseSetTokens(columns[1..], k + 1, r);
      ParseMoreSets(columns, k, r);
    }
  }

  lemma {:induction false} ParseIdFilter(idColumn: string, n: nat)
    requires IsName(idColumn)
    ensures ParseFilter(UpdateTail(idColumn, n)) == Some((Some(CEq(idColumn, n)), [Key(RETURNING), Sym('*')]))
  {
    var r := [Key(RETURNING), Sym('*')];
    var test := Eq(idColumn, Null);
    ParseTest(test, n, r);
    Cons(Key(WHERE), PredicateTokens(test, n) + r);
  }

  lemma {:induction false} ParseUpdateFrom(table: string, x: seq<Token>, sets: Parse<seq<(string, nat)>>, c: Cond)
    requires ParseSets(x) == sets
    requires sets.Some? ==> ParseFilter(sets.value.1) == Some((Some(c), [Key(RETURNING), Sym('*')]))
    ensures ParseStatement([Key(UPDATE)] + ([Word(table)] + ([Key(SET)] + x)))
         == if sets.Some? then Some(Update(table, sets.value.0, Some(c))) else None
  {
    Cons(Key(SET), x);
    Cons(Word(table), [Key(SET)] + x);
    Cons(Key(UPDATE), [Word(table)] + ([Key(SET)] + x));
    assert [Key(RETURNING), Sym('*')][1..] == [Sym('*')];
    assert [Sym('*')][1..] == [];
  }

  /** With no columns to set, `SET  WHERE ...` is not SQL. */
  lemma {:induction false} ParseUpdateOf(table: string, columns: seq<string>, idColumn: string, n: nat)
    requires IsName(idColumn)
    ensures ParseStatement(UpdateTokens(table, SetTokens(columns, 1), UpdateTail(idColumn, n)))
         == if columns == [] then None else Some(Update(table, SetPairs(columns, 1), Some(CEq(idColumn, n))))
  {
    var tail := UpdateTail(idColumn, n);
    var x := SetTokens(columns, 1) + tail;
    ParseIdFilter(idColumn, n);
    if columns == [] {
      assert x == tail;
      ParseUpdateFrom(table, x, None, CEq(idColumn, n));
    } else {
      ParseSetTokens(columns, 1, tail);
      ParseUpdateFrom(table, x, Some((SetPairs(columns, 1), tail)), CEq(idColumn, n));
    }
  }
}
