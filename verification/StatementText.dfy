/**
 The characters of the four statements: the pieces spell exactly what the format strings of the
 generic repository produce.
 */
module StatementText {
  import opened Wrappers
  import opened SqlValues
  import opened SqlText
  import opened SqlGrammar
  import opened Specification
  import opened ClauseText
  import opened Statements
  import opened GenericRepository

  lemma {:induction false} SpellCons(p: Piece, rest: seq<Piece>)
    ensures Spell([p] + rest) == SpellPiece(p) + Spell(rest)
  {
    SpellOne(p);
    SpellConcat([p], rest);
  }

  /** A token and a space before, and a space and a token after, the rest. */
  lemma {:induction false} SpellBefore(t: Token, ts: seq<Token>)
    ensures Spell(Before([t] + ts)) == SpellPiece(Tok(t)) + " " + Spell(Before(ts))
  {
    assert ([t] + ts)[1..] == ts;
    SpellTwo(Tok(t), Space);
    SpellConcat([Tok(t), Space], Before(ts));
  }

  lemma {:induction false} SpellAfter(t: Token, ts: seq<Token>)
    ensures Spell(After([t] + ts)) == " " + SpellPiece(Tok(t)) + Spell(After(ts))
  {
    assert ([t] + ts)[1..] == ts;
    SpellTwo(Space, Tok(t));
    SpellConcat([Space, Tok(t)], After(ts));
  }

  lemma {:induction false} OneBefore(k: Keyword)
    ensures Spell(Before([Key(k)])) == SpellKey(k) + " "
  {
    SpellBefore(Key(k), []);
    assert [Key(k)] + [] == [Key(k)];
  }

  lemma {:induction false} OneAfter(k: Keyword)
    ensures Spell(After([Key(k)])) == " " + SpellKey(k)
  {
    SpellAfter(Key(k), []);
    assert [Key(k)] + [] == [Key(k)];
  }

  // ----- FROM table WHERE clause -----

  lemma {:induction false} SourceWords()
    ensures "FROM" + " " == "FROM "
    ensures "WHERE" + " " == "WHERE "
    ensures " " + "WHERE " == " WHERE "
  {
  }

  lemma {:induction false} ThreeBefore(k: Keyword, w: string, k': Keyword)
    ensures Spell(Before([Key(k), Word(w), Key(k')])) == SpellKey(k) + " " + (w + " " + (SpellKey(k') + " "))
  {
    SpellBefore(Key(k), [Word(w), Key(k')]);
    SpellBefore(Word(w), [Key(k')]);
    OneBefore(k');
    assert [Key(k)] + [Word(w), Key(k')] == [Key(k), Word(w), Key(k')];
    assert [Word(w)] + [Key(k')] == [Word(w), Key(k')];
  }

  lemma {:induction false} BeforeClause(table: string)
    ensures Spell(Before([Key(FROM), Word(table), Key(WHERE)])) == "FROM " + (table + " WHERE ")
  {
    ThreeBefore(FROM, table, WHERE);
    SourceWords();
    Regroup(table, " ", "WHERE ");
  }

  lemma {:induction false} SourceText(table: string, clause: seq<Piece>)
    ensures Spell(SourcePieces(table, clause)) == "FROM " + (table + (" WHERE " + Spell(clause)))
  {
    BeforeClause(table);
    SpellConcat(Before([Key(FROM), Word(table), Key(WHERE)]), clause);
    Regroup("FROM ", table + " WHERE ", Spell(clause));
    Regroup(table, " WHERE ", Spell(clause));
  }

  lemma {:induction false} DeleteWords()
    ensures "DELETE" + " " == "DELETE "
    ensures "DELETE " + "FROM " == "DELETE FROM "
  {
  }

  lemma {:induction false} DeleteText(table: string, s: Spec)
    ensures Spell(DeletePieces(table, ToWhereClause(s, 1).0)) == "DELETE FROM " + (table + (" WHERE " + WhereText(s, 1)))
  {
    var clause := ToWhereClause(s, 1).0;
    OneBefore(DELETE);
    SourceText(table, clause);
    SpellConcat(Before([Key(DELETE)]), SourcePieces(table, clause));
    Regroup("DELETE ", "FROM ", table + (" WHERE " + Spell(clause)));
    DeleteWords();
  }

  lemma {:induction false} ParensText()
    ensures Spell([S('('), S('*'), S(')'), Space]) == "(*) "
  {
    SpellTwo(S('('), S('*'));
    SpellTwo(S(')'), Space);
    SpellConcat([S('('), S('*')], [S(')'), Space]);
    assert [S('('), S('*'), S(')'), Space] == [S('('), S('*')] + [S(')'), Space];
    assert "(" + "*" + (")" + " ") == "(*) ";
  }

  lemma {:induction false} AliasText(alias: string)
    ensures Spell(Before([Key(AS), Word(alias)])) == "AS" + " " + (alias + " ")
  {
    SpellBefore(Key(AS), [Word(alias)]);
    SpellBefore(Word(alias), []);
    assert [Key(AS)] + [Word(alias)] == [Key(AS), Word(alias)] && [Word(alias)] + [] == [Word(alias)];
  }

  lemma {:induction false} CountHeadText(fn: string, alias: string)
    ensures Spell(CountHeadPieces(fn, alias)) == fn + ("(*) " + ("AS" + " " + (alias + " ")))
  {
    var parens, named := [S('('), S('*'), S(')'), Space], Before([Key(AS), Word(alias)]);
    ParensText();
    AliasText(alias);
    SpellConcat(parens, named);
    SpellCons(W(fn), parens + named);
  }

  lemma {:induction false} CountPiecesText(fn: string, alias: string, table: string, clause: seq<Piece>)
    ensures Spell(CountPieces(fn, alias, table, clause))
         == "SELECT " + (fn + ("(*) " + ("AS" + " " + (alias + " ")))) + Spell(SourcePieces(table, clause))
  {
    var head, source := CountHeadPieces(fn, alias), SourcePieces(table, clause);
    OneBefore(SELECT);
    assert "SELECT" + " " == "SELECT ";
    CountHeadText(fn, alias);
    SpellConcat(head, source);
    SpellConcat(Before([Key(SELECT)]), head + source);
    Regroup("SELECT ", Spell(head), Spell(source));
  }

  lemma {:induction false} CountWords()
    ensures "SELECT " + ("count" + ("(*) " + ("AS" + " " + ("cnt" + " ")))) + "FROM " == "SELECT count(*) AS cnt FROM "
  {
  }

  lemma {:induction false} CountText(table: string, s: Spec)
    ensures Spell(CountPieces("count", "cnt", table, ToWhereClause(s, 1).0))
         == "SELECT count(*) AS cnt FROM " + (table + (" WHERE " + WhereText(s, 1)))
  {
    var clause := ToWhereClause(s, 1).0;
    CountPiecesText("count", "cnt", table, clause);
    SourceText(table, clause);
    CountWords();
    Regroup("SELECT " + ("count" + ("(*) " + ("AS" + " " + ("cnt" + " ")))), "FROM ", table + (" WHERE " + Spell(clause)));
  }

  // ----- ORDER BY keys LIMIT n OFFSET m -----

  function ShowInt(n: int): string {
    if n < 0 then "-" + Show(-n) else Show(n)
  }

  lemma {:induction false} IntText(n: int)
    ensures Spell(IntPieces(n)) == ShowInt(n)
  {
    if n < 0 {
      SpellTwo(S('-'), Tok(Num(-n)));
    } else {
      SpellOne(Tok(Num(n)));
    }
  }

  lemma {:induction false} NumberText(k: Keyword, n: int)
    ensures Spell(After([Key(k)]) + ([Space] + IntPieces(n))) == " " + SpellKey(k) + " " + ShowInt(n)
  {
    OneAfter(k);
    IntText(n);
    SpellCons(Space, IntPieces(n));
    SpellConcat(After([Key(k)]), [Space] + IntPieces(n));
    Regroup(" " + SpellKey(k), " ", ShowInt(n));
  }

  lemma {:induction false} WindowWords()
    ensures " " + "LIMIT" + " " == " LIMIT "
    ensures " " + "OFFSET" + " " == " OFFSET "
  {
  }

  lemma {:induction false} WindowText(limit: int, offset: int)
    ensures Spell(WindowPieces(limit, offset)) == " LIMIT " + ShowInt(limit) + (" OFFSET " + ShowInt(offset))
  {
    NumberText(LIMIT, limit);
    NumberText(OFFSET, offset);
    SpellConcat(After([Key(LIMIT)]) + ([Space] + IntPieces(limit)), After([Key(OFFSET)]) + ([Space] + IntPieces(offset)));
    WindowWords();
  }

  /** `f ASC` or `f DESC`, for each key. */
  function SortTexts(keys: seq<SortKey>): (ts: seq<string>)
    ensures |ts| == |keys|
    ensures forall i :: 0 <= i < |keys| ==> ts[i] == keys[i].column + if keys[i].ascending then " ASC" else " DESC"
  {
    seq(|keys|, i requires 0 <= i < |keys| => keys[i].column + if keys[i].ascending then " ASC" else " DESC")
  }

  lemma {:induction false} KeyText(k: SortKey)
    ensures Spell([W(k.column), Space, K(Direction(k))]) == k.column + if k.ascending then " ASC" else " DESC"
  {
    SpellThree(W(k.column), Space, K(Direction(k)));
    Regroup(k.column, " ", SpellKey(Direction(k)));
    assert " " + "ASC" == " ASC" && " " + "DESC" == " DESC";
  }

  lemma {:induction false} ListedText(first: seq<Piece>, rest: seq<Piece>)
    ensures Spell(first + ([S(','), Space] + rest)) == Spell(first) + ", " + Spell(rest)
  {
    SpellTwo(S(','), Space);
    SpellConcat([S(','), Space], rest);
    SpellConcat(first, [S(','), Space] + rest);
    assert "," + " " == ", ";
    Regroup(Spell(first), ", ", Spell(rest));
  }

  lemma {:induction false} MoreKeysText(k: SortKey, rest: seq<Piece>)
    ensures Spell([W(k.column), Space] + ([K(Direction(k))] + ([S(','), Space] + rest)))
         == k.column + (if k.ascending then " ASC" else " DESC") + ", " + Spell(rest)
  {
    KeyText(k);
    ListedText([W(k.column), Space, K(Direction(k))], rest);
    assert [W(k.column), Space, K(Direction(k))] + ([S(','), Space] + rest)
        == [W(k.column), Space] + ([K(Direction(k))] + ([S(','), Space] + rest));
  }

  lemma {:induction false} SortText(keys: seq<SortKey>)
    ensures Spell(SortPieces(keys)) == Join(SortTexts(keys), ", ")
  {
    if |keys| == 1 {
      KeyText(keys[0]);
    } else if |keys| > 1 {
      SortText(keys[1..]);
      MoreKeysText(keys[0], SortPieces(keys[1..]));
      assert SortTexts(keys)[1..] == SortTexts(keys[1..]);
    }
  }

  function OrderClause(keys: seq<SortKey>): string {
    if keys == [] then "" else " ORDER BY " + Join(SortTexts(keys), ", ")
  }

  lemma {:induction false} OrderWords()
    ensures " " + "ORDER" + (" " + "BY") == " ORDER BY"
    ensures " ORDER BY" + " " == " ORDER BY "
  {
  }

  lemma {:induction false} OrderHeadText()
    ensures Spell(After([Key(ORDER), Key(BY)])) == " ORDER BY"
  {
    SpellAfter(Key(ORDER), [Key(BY)]);
    OneAfter(BY);
    assert [Key(ORDER)] + [Key(BY)] == [Key(ORDER), Key(BY)];
    OrderWords();
  }

  lemma {:induction false} OrderText(keys: seq<SortKey>)
    ensures Spell(OrderPieces(keys)) == OrderClause(keys)
  {
    if keys != [] {
      OrderHeadText();
      SortText(keys);
      SpellCons(Space, SortPieces(keys));
      SpellConcat(After([Key(ORDER), Key(BY)]), [Space] + SortPieces(keys));
      OrderWords();
      Regroup(" ORDER BY", " ", Join(SortTexts(keys), ", "));
    }
  }

  lemma {:induction false} SelectText(table: string, s: Spec, opts: QueryOptions)
    ensures Spell(SelectPieces(table, ToWhereClause(s, 1).0, TailPieces(opts)))
         == "SELECT * FROM " + (table + (" WHERE " + WhereText(s, 1)))
            + (OrderClause(opts.orderBy) + (" LIMIT " + ShowInt(opts.limit) + (" OFFSET " + ShowInt(opts.offset))))
  {
    var source, tail := SourcePieces(table, ToWhereClause(s, 1).0), TailPieces(opts);
    OrderText(opts.orderBy);
    WindowText(opts.limit, opts.offset);
    SpellConcat(OrderPieces(opts.orderBy), WindowPieces(opts.limit, opts.offset));
    SelectHead(table, ToWhereClause(s, 1).0, tail);
  }

  lemma {:induction false} SelectStarText()
    ensures Spell(Before([Key(SELECT), Sym('*')])) == "SELECT * "
  {
    SpellBefore(Key(SELECT), [Sym('*')]);
    SpellBefore(Sym('*'), []);
    assert [Key(SELECT)] + [Sym('*')] == [Key(SELECT), Sym('*')] && [Sym('*')] + [] == [Sym('*')];
    assert "SELECT" + " " + ("*" + " ") == "SELECT * ";
  }

  lemma {:induction false} SelectHead(table: string, clause: seq<Piece>, tail: seq<Piece>)
    ensures Spell(SelectPieces(table, clause, tail))
         == "SELECT * FROM " + (table + (" WHERE " + Spell(clause))) + Spell(tail)
  {
    var source, x := SourcePieces(table, clause), table + (" WHERE " + Spell(clause));
    SelectStarText();
    SourceText(table, clause);
    SpellConcat(source, tail);
    SpellConcat(Before([Key(SELECT), Sym('*')]), source + tail);
    Regroup("SELECT * ", "FROM " + x, Spell(tail));
    Regroup("SELECT * ", "FROM ", x);
    assert "SELECT * " + "FROM " == "SELECT * FROM ";
  }

  // ----- UPDATE -----

  /** `f = $k`, `g = $k+1`, ... */
  function SetTexts(columns: seq<string>, k: nat): (ts: seq<string>)
    ensures |ts| == |columns| && forall i :: 0 <= i < |columns| ==> ts[i] == columns[i] + (" = $" + Show(k + i))
  {
    seq(|columns|, i requires 0 <= i < |columns| => columns[i] + (" = $" + Show(k + i)))
  }

  lemma {:induction false} SetText(column: string, n: nat)
    ensures Spell(SetClause(column, n)) == column + (" = $" + Show(n))
  {
    BinaryText(column, S('='), n);
    assert " " + "=" + " " == " = " && " = " + "$" == " = $";
    Regroup(column, " = ", "$" + Show(n));
    Regroup(" = ", "$", Show(n));
  }

  lemma {:induction false} SetListText(columns: seq<string>, k: nat)
    ensures Spell(JoinPieces(SetClauses(columns, k))) == Join(SetTexts(columns, k), ", ")
  {
    var parts := SetClauses(columns, k);
    if |columns| == 1 {
      SetText(columns[0], k);
    } else if |columns| > 1 {
      SetListText(columns[1..], k + 1);
      SetText(columns[0], k);
      assert parts[1..] == SetClauses(columns[1..], k + 1);
      ListedText(parts[0], JoinPieces(parts[1..]));
      assert SetTexts(columns, k)[1..] == SetTexts(columns[1..], k + 1);
    }
  }

  lemma {:induction false} ReturningText()
    ensures Spell(After([Key(RETURNING), Sym('*')])) == " RETURNING *"
  {
    SpellAfter(Key(RETURNING), [Sym('*')]);
    SpellAfter(Sym('*'), []);
    assert [Key(RETURNING)] + [Sym('*')] == [Key(RETURNING), Sym('*')] && [Sym('*')] + [] == [Sym('*')];
    assert " " + "RETURNING" + (" " + "*") == " RETURNING *";
  }

  lemma {:induction false} WhereWords()
    ensures " " + "WHERE" == " WHERE"
    ensures " WHERE" + " " == " WHERE "
  {
  }

  lemma {:induction false} UpdateEndText(idColumn: string, n: nat)
    ensures Spell(UpdateEnd(idColumn, n)) == " WHERE " + (idColumn + (" = $" + Show(n))) + " RETURNING *"
  {
    var clause, returning := SetClause(idColumn, n), After([Key(RETURNING), Sym('*')]);
    OneAfter(WHERE);
    WhereWords();
    SetText(idColumn, n);
    ReturningText();
    SpellCons(Space, clause);
    SpellConcat([Space] + clause, returning);
    SpellConcat(After([Key(WHERE)]), ([Space] + clause) + returning);
    Regroup(" WHERE", " " + Spell(clause), " RETURNING *");
    Regroup(" WHERE", " ", Spell(clause));
  }

  lemma {:induction false} UpdateWords()
    ensures "UPDATE" + " " == "UPDATE "
    ensures "SET" + " " == "SET "
    ensures " " + "SET " == " SET "
  {
  }

  lemma {:induction false} UpdateHeadText(table: string)
    ensures Spell(Before([Key(UPDATE), Word(table), Key(SET)])) == "UPDATE " + (table + " SET ")
  {
    ThreeBefore(UPDATE, table, SET);
    UpdateWords();
    Regroup(table, " ", "SET ");
  }

  lemma {:induction false} UpdateText(table: string, columns: seq<string>, idColumn: string, n: nat)
    ensures Spell(UpdatePieces(table, SetClauses(columns, 1), idColumn, n))
         == "UPDATE " + (table + " SET ")
            + (Join(SetTexts(columns, 1), ", ") + (" WHERE " + (idColumn + (" = $" + Show(n))) + " RETURNING *"))
  {
    var clauses, end := JoinPieces(SetClauses(columns, 1)), UpdateEnd(idColumn, n);
    UpdateHeadText(table);
    SetListText(columns, 1);
    UpdateEndText(idColumn, n);
    SpellConcat(clauses, end);
    SpellConcat(Before([Key(UPDATE), Word(table), Key(SET)]), clauses + end);
  }
}
