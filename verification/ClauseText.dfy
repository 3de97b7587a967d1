/**
 The characters of the generated clauses, case by case: the pieces spell exactly what the
 format strings of the specification types produce.
 */
module ClauseText {
  import opened SqlValues
  import opened SqlText
  import opened Specification

  lemma {:induction false} SpellConcat(a: seq<Piece>, b: seq<Piece>)
    ensures Spell(a + b) == Spell(a) + Spell(b)
  {
    if a == [] {
      assert a + b == b;
    } else {
      assert (a + b)[0] == a[0] && (a + b)[1..] == a[1..] + b;
      SpellConcat(a[1..], b);
      var x, y := Spell(a[1..]), Spell(b);
      assert SpellPiece(a[0]) + (x + y) == SpellPiece(a[0]) + x + y;
    }
  }

  lemma {:induction false} SpellOne(p: Piece)
    ensures Spell([p]) == SpellPiece(p)
  {
    assert [p][1..] == [];
  }

  lemma {:induction false} SpellTwo(p: Piece, q: Piece)
    ensures Spell([p, q]) == SpellPiece(p) + SpellPiece(q)
  {
    SpellOne(p);
    SpellOne(q);
    assert [p, q] == [p] + [q];
    SpellConcat([p], [q]);
  }

  lemma {:induction false} SpellThree(p: Piece, q: Piece, r: Piece)
    ensures Spell([p, q, r]) == SpellPiece(p) + SpellPiece(q) + SpellPiece(r)
  {
    SpellTwo(p, q);
    SpellOne(r);
    assert [p, q, r] == [p, q] + [r];
    SpellConcat([p, q], [r]);
  }

  lemma {:induction false} Regroup(a: string, b: string, c: string)
    ensures a + b + c == a + (b + c)
  {
  }

  /** `f op $k`, the operator between spaces. */
  lemma {:induction false} BinaryText(f: string, op: Piece, k: nat)
    ensures Spell([W(f), Space, op, Space, P(k)]) == f + (" " + SpellPiece(op) + " ") + ("$" + Show(k))
  {
    SpellThree(Space, op, Space);
    SpellOne(W(f));
    SpellOne(P(k));
    assert [W(f), Space, op, Space, P(k)] == [W(f)] + [Space, op, Space] + [P(k)];
    SpellConcat([W(f)], [Space, op, Space]);
    SpellConcat([W(f)] + [Space, op, Space], [P(k)]);
  }

  lemma {:induction false} EqText(f: string, v: DbValue, k: nat)
    ensures WhereText(Test(Eq(f, v)), k) == f + " = $" + Show(k)
  {
    BinaryText(f, S('='), k);
    assert " " + "=" + " " == " = ";
    assert " = " + "$" == " = $";
    Regroup(f + " = ", "$", Show(k));
    Regroup(f, " = ", "$");
  }

  lemma {:induction false} LikeText(f: string, pattern: string, k: nat)
    ensures WhereText(Test(Like(f, pattern)), k) == f + " LIKE $" + Show(k)
  {
    BinaryText(f, K(SqlText.LIKE), k);
    assert " " + "LIKE" + " " == " LIKE ";
    assert " LIKE " + "$" == " LIKE $";
    Regroup(f + " LIKE ", "$", Show(k));
    Regroup(f, " LIKE ", "$");
  }

  lemma {:induction false} AndTailText(n: nat)
    ensures Spell([Space, K(SqlText.AND), Space, P(n)]) == " AND $" + Show(n)
  {
    SpellThree(Space, K(SqlText.AND), Space);
    SpellOne(P(n));
    assert [Space, K(SqlText.AND), Space, P(n)] == [Space, K(SqlText.AND), Space] + [P(n)];
    SpellConcat([Space, K(SqlText.AND), Space], [P(n)]);
    assert " " + "AND" + " " == " AND ";
    assert " AND " + "$" == " AND $";
    Regroup(" AND ", "$", Show(n));
  }

  lemma {:induction false} BetweenText(f: string, low: DbValue, high: DbValue, k: nat)
    ensures WhereText(Test(Between(f, low, high)), k) == f + " BETWEEN $" + Show(k) + (" AND $" + Show(k + 1))
  {
    var head, tail := [W(f), Space, K(SqlText.BETWEEN), Space, P(k)], [Space, K(SqlText.AND), Space, P(k + 1)];
    SpellConcat(head, tail);
    BinaryText(f, K(SqlText.BETWEEN), k);
    AndTailText(k + 1);
    assert " " + "BETWEEN" + " " == " BETWEEN ";
    assert " BETWEEN " + "$" == " BETWEEN $";
    Regroup(f + " BETWEEN ", "$", Show(k));
    Regroup(f, " BETWEEN ", "$");
  }

  function Join(parts: seq<string>, sep: string): string {
    if parts == [] then "" else if |parts| == 1 then parts[0] else parts[0] + sep + Join(parts[1..], sep)
  }

  /** The strings `$k`, `$k+1`, ... */
  function Dollars(k: nat, n: nat): (ds: seq<string>)
    ensures |ds| == n && forall i :: 0 <= i < n ==> ds[i] == "$" + Show(k + i)
  {
    seq(n, i requires 0 <= i < n => "$" + Show(k + i))
  }

  lemma {:induction false} ListText(k: nat, n: nat)
    ensures Spell(PlaceholderList(k, n)) == Join(Dollars(k, n), ", ")
    decreases n
  {
    var ds := Dollars(k, n);
    if n == 1 {
      SpellOne(P(k));
    } else if n > 1 {
      ListText(k + 1, n - 1);
      assert ds[1..] == Dollars(k + 1, n - 1);
      OneMoreText(k, PlaceholderList(k + 1, n - 1));
    }
  }

  lemma {:induction false} OneMoreText(k: nat, rest: seq<Piece>)
    ensures Spell([P(k)] + ([S(','), Space] + rest)) == ("$" + Show(k)) + ", " + Spell(rest)
  {
    SpellOne(P(k));
    SpellTwo(S(','), Space);
    SpellConcat([S(','), Space], rest);
    SpellConcat([P(k)], [S(','), Space] + rest);
    assert "," + " " == ", ";
    Regroup("$" + Show(k), ", ", Spell(rest));
  }

  lemma {:induction false} InHeadText(f: string)
    ensures Spell([W(f), Space, K(SqlText.IN), Space, S('(')]) == f + " IN ("
  {
    SpellOne(W(f));
    SpellThree(Space, K(SqlText.IN), Space);
    SpellOne(S('('));
    assert [W(f), Space, K(SqlText.IN), Space, S('(')] == [W(f)] + ([Space, K(SqlText.IN), Space] + [S('(')]);
    SpellConcat([Space, K(SqlText.IN), Space], [S('(')]);
    SpellConcat([W(f)], [Space, K(SqlText.IN), Space] + [S('(')]);
    assert " " + "IN" + " " + "(" == " IN (";
  }

  lemma {:induction false} InText(f: string, vs: seq<DbValue>, k: nat)
    ensures WhereText(Test(In(f, vs)), k) == f + " IN (" + Join(Dollars(k, |vs|), ", ") + ")"
  {
    var head, list := [W(f), Space, K(SqlText.IN), Space, S('(')], PlaceholderList(k, |vs|);
    InHeadText(f);
    SpellOne(S(')'));
    ListText(k, |vs|);
    SpellConcat(head, list);
    SpellConcat(head + list, [S(')')]);
  }

  lemma {:induction false} MidText(kw: Keyword)
    ensures Spell([S(')'), Space, K(kw), Space, S('(')]) == ") " + SpellKey(kw) + " ("
  {
    SpellTwo(S(')'), Space);
    SpellOne(K(kw));
    SpellTwo(Space, S('('));
    assert [S(')'), Space, K(kw), Space, S('(')] == [S(')'), Space] + [K(kw)] + [Space, S('(')];
    SpellConcat([S(')'), Space], [K(kw)]);
    SpellConcat([S(')'), Space] + [K(kw)], [Space, S('(')]);
    assert ")" + " " == ") " && " " + "(" == " (";
  }

  lemma {:induction false} ConnectText(l: seq<Piece>, kw: Keyword, r: seq<Piece>)
    ensures Spell(Connect(l, kw, r)) == "(" + Spell(l) + (") " + SpellKey(kw) + " (") + Spell(r) + ")"
  {
    var mid := [S(')'), Space, K(kw), Space, S('(')];
    MidText(kw);
    SpellOne(S('('));
    SpellOne(S(')'));
    SpellConcat([S('(')], l);
    SpellConcat([S('(')] + l, mid);
    SpellConcat([S('(')] + l + mid, r);
    SpellConcat([S('(')] + l + mid + r, [S(')')]);
  }

  lemma {:induction false} OpText(op: Connective)
    ensures ") " + SpellKey(OpKey(op)) + " (" == if op == Conjunction then ") AND (" else ") OR ("
  {
    assert ") " + "AND" + " (" == ") AND (" && ") " + "OR" + " (" == ") OR (";
  }

  /** `(l) AND (r)` and `(l) OR (r)`, the right side numbered on from the left. */
  lemma {:induction false} CombineText(op: Connective, l: Spec, r: Spec, k: nat, kr: nat)
    requires kr == k + |ToWhereClause(l, k).1|
    ensures WhereText(Combine(op, l, r), k)
         == "(" + WhereText(l, k) + (if op == Conjunction then ") AND (" else ") OR (") + WhereText(r, kr) + ")"
  {
    ConnectText(ToWhereClause(l, k).0, OpKey(op), ToWhereClause(r, kr).0);
    OpText(op);
  }
}
