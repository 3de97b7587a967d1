/**
 Query specifications and their compilation to WHERE text with `$N` placeholders.
 The main result, `ClauseMeansSpec`, reads the generated characters back with an SQL grammar
 and finds a condition that has the specification's truth value on every row.
 */
module Specification {
  import opened Wrappers
  import opened SqlValues
  import opened SqlText
  import opened SqlGrammar

  datatype Connective = Conjunction | Disjunction

  /** A specification on one field. */
  datatype Predicate =
    | Eq(field: string, value: DbValue)
    | Like(field: string, pattern: string)
    | In(field: string, values: seq<DbValue>)
    | Between(field: string, low: DbValue, high: DbValue)

  datatype Spec =
    | Test(p: Predicate)
    | Combine(op: Connective, left: Spec, right: Spec)

  // ----- what a specification asks for -----

  ghost function PredicateMeaning(p: Predicate, cmp: Comparisons, row: Row): Truth {
    var v := Cell(row, p.field);
    match p
    case Eq(_, x) => cmp.equal(v, x)
    case Like(_, pattern) => cmp.like(v, Text(pattern))
    case In(_, xs) =>
      if exists x :: x in xs && cmp.equal(v, x) == True then True
      else if forall x :: x in xs ==> cmp.equal(v, x) == False then False
      else Unknown
    case Between(_, low, high) => Within(cmp, v, low, high)
  }

  /** The truth of a specification on a row, read off the tree. */
  ghost function Meaning(s: Spec, cmp: Comparisons, row: Row): Truth {
    match s
    case Test(p) => PredicateMeaning(p, cmp, row)
    case Combine(op, l, r) =>
      if op == Conjunction then Conj(Meaning(l, cmp, row), Meaning(r, cmp, row)) else Disj(Meaning(l, cmp, row), Meaning(r, cmp, row))
  }

  /** AND is true iff both sides are and false iff either is; OR the other way round. Unknown is what is left. */
  lemma {:induction false} ConnectivesMean(op: Connective, l: Spec, r: Spec, cmp: Comparisons, row: Row, whole: Truth)
    requires whole == Meaning(Combine(op, l, r), cmp, row)
    ensures op == Conjunction ==>
              && (whole == True <==> Meaning(l, cmp, row) == True && Meaning(r, cmp, row) == True)
              && (whole == False <==> Meaning(l, cmp, row) == False || Meaning(r, cmp, row) == False)
    ensures op != Conjunction ==>
              && (whole == True <==> Meaning(l, cmp, row) == True || Meaning(r, cmp, row) == True)
              && (whole == False <==> Meaning(l, cmp, row) == False && Meaning(r, cmp, row) == False)
  {
  }

  /** BETWEEN includes both ends and is false as soon as the value is outside one of them; a missing cell is NULL. */
  lemma {:induction false} BetweenMeans(f: string, low: DbValue, high: DbValue, cmp: Comparisons, row: Row)
    ensures
      var v, whole := (if f in row then row[f] else Null), Meaning(Test(Between(f, low, high)), cmp, row);
      && (whole == True <==> cmp.atMost(low, v) == True && cmp.atMost(v, high) == True)
      && (whole == False <==> cmp.atMost(low, v) == False || cmp.atMost(v, high) == False)
  {
  }

  function Fields(s: Spec): set<string> {
    match s
    case Test(p) => {p.field}
    case Combine(_, l, r) => Fields(l) + Fields(r)
  }

  /** Every field is an SQL name. */
  ghost predicate Named(s: Spec) {
    forall f :: f in Fields(s) ==> IsName(f)
  }

  predicate NoEmptyList(s: Spec) {
    match s
    case Test(p) => p.In? ==> p.values != []
    case Combine(_, l, r) => NoEmptyList(l) && NoEmptyList(r)
  }

  // ----- the compiler -----

  function W(w: string): Piece { Tok(Word(w)) }
  function K(k: Keyword): Piece { Tok(Key(k)) }
  function P(n: nat): Piece { Tok(Param(n)) }
  function S(c: char): Piece { Tok(Sym(c)) }

  /** `$k, $k+1, ..., $k+n-1` */
  function PlaceholderList(k: nat, n: nat): seq<Piece>
    decreases n
  {
    if n == 0 then []
    else if n == 1 then [P(k)]
    else [P(k)] + ([S(','), Space] + PlaceholderList(k + 1, n - 1))
  }

  function OpKey(op: Connective): Keyword {
    match op
    case Conjunction => AND
    case Disjunction => OR
  }

  /** `(l) AND (r)` or `(l) OR (r)` */
  function Connect(l: seq<Piece>, kw: Keyword, r: seq<Piece>): seq<Piece> {
    [S('(')] + l + [S(')'), Space, K(kw), Space, S('(')] + r + [S(')')]
  }

  /** A predicate's clause; its placeholders start at `$offset`. */
  function PredicateClause(p: Predicate, offset: nat): seq<Piece> {
    match p
    case Eq(f, _) => [W(f), Space, S('='), Space, P(offset)]
    case Like(f, _) => [W(f), Space, K(LIKE), Space, P(offset)]
    case In(f, vs) => [W(f), Space, K(IN), Space, S('(')] + PlaceholderList(offset, |vs|) + [S(')')]
    case Between(f, _, _) =>
      [W(f), Space, K(BETWEEN), Space, P(offset)] + [Space, K(AND), Space, P(offset + 1)]
  }

  function PredicateParams(p: Predicate): seq<DbValue> {
    match p
    case Eq(_, v) => [v]
    case Like(_, pattern) => [Text(pattern)]
    case In(_, vs) => vs
    case Between(_, low, high) => [low, high]
  }

  /** The clause and its parameters; the right side numbers on from the left side's parameters. */
  function ToWhereClause(s: Spec, offset: nat): (seq<Piece>, seq<DbValue>) {
    match s
    case Test(p) => (PredicateClause(p, offset), PredicateParams(p))
    case Combine(op, l, r) =>
      var (lClause, lParams) := ToWhereClause(l, offset);
      var (rClause, rParams) := ToWhereClause(r, offset + |lParams|);
      (Connect(lClause, OpKey(op), rClause), lParams + rParams)
  }

  /** The generated characters. */
  function WhereText(s: Spec, offset: nat): string {
    Spell(ToWhereClause(s, offset).0)
  }

  // ----- the condition the clause stands for -----

  ghost function Params(s: Spec): seq<DbValue> {
    match s
    case Test(p) => PredicateParams(p)
    case Combine(_, l, r) => Params(l) + Params(r)
  }

  ghost function Clause(s: Spec, k: nat): seq<Piece> {
    match s
    case Test(p) => PredicateClause(p, k)
    case Combine(op, l, r) => Connect(Clause(l, k), OpKey(op), Clause(r, k + |Params(l)|))
  }

  /** k, k+1, ..., k+n-1 */
  function Numbers(k: nat, n: nat): (ns: seq<nat>)
    ensures |ns| == n && forall i :: 0 <= i < n ==> ns[i] == k + i
  {
    seq(n, i requires 0 <= i < n => k + i)
  }

  ghost function PredicateCond(p: Predicate, k: nat): Cond {
    match p
    case Eq(f, _) => CEq(f, k)
    case Like(f, _) => CLike(f, k)
    case In(f, vs) => CIn(f, Numbers(k, |vs|))
    case Between(f, _, _) => CBetween(f, k, k + 1)
  }

  ghost function Combined(op: Connective, c: Cond, d: Cond): Cond {
    if op == Conjunction then CAnd(c, d) else COr(c, d)
  }

  ghost function ToCond(s: Spec, k: nat): Cond {
    match s
    case Test(p) => PredicateCond(p, k)
    case Combine(op, l, r) => Combined(op, ToCond(l, k), ToCond(r, k + |Params(l)|))
  }

  lemma {:induction false} ClauseAndParams(s: Spec, k: nat)
    ensures ToWhereClause(s, k) == (Clause(s, k), Params(s))
  {
    match s
    case Test(_) =>
    case Combine(_, l, r) =>
      ClauseAndParams(l, k);
      ClauseAndParams(r, k + |Params(l)|);
  }

  // ----- the clause reads as its tokens -----

  ghost predicate Closed(p: Piece) {
    p == S(')') || (p.Tok? && p.token.Param?)
  }

  /** Text that reads as `ts`, starts with a token and ends with a placeholder or a parenthesis. */
  ghost predicate Phrase(ps: seq<Piece>, ts: seq<Token>) {
    && Reads(ps, ts)
    && ps != [] && ps[0].Tok? && Closed(ps[|ps| - 1])
  }

  ghost function ListTokens(k: nat, n: nat): seq<Token>
    decreases n
  {
    if n == 0 then []
    else if n == 1 then [Param(k)]
    else [Param(k)] + ([Sym(',')] + ListTokens(k + 1, n - 1))
  }

  ghost function PredicateTokens(p: Predicate, k: nat): seq<Token> {
    match p
    case Eq(f, _) => [Word(f), Sym('='), Param(k)]
    case Like(f, _) => [Word(f), Key(LIKE), Param(k)]
    case In(f, vs) => [Word(f), Key(IN), Sym('(')] + ListTokens(k, |vs|) + [Sym(')')]
    case Between(f, _, _) => [Word(f), Key(BETWEEN), Param(k), Key(AND), Param(k + 1)]
  }

  ghost function Joined(l: seq<Token>, kw: Keyword, r: seq<Token>): seq<Token> {
    [Sym('(')] + l + [Sym(')'), Key(kw), Sym('(')] + r + [Sym(')')]
  }

  ghost function ClauseTokens(s: Spec, k: nat): seq<Token> {
    match s
    case Test(p) => PredicateTokens(p, k)
    case Combine(op, l, r) => Joined(ClauseTokens(l, k), OpKey(op), ClauseTokens(r, k + |Params(l)|))
  }

  lemma {:induction false} BinaryPhrase(f: string, op: Piece, k: nat)
    requires IsName(f) && Spellable(op) && op.Tok?
    ensures Phrase([W(f), Space, op, Space, P(k)], [Word(f), op.token, Param(k)])
  {
    var tail := [op, Space] + [P(k)];
    Single(P(k));
    Spaced(op, [P(k)]);
    Spaced(W(f), tail);
    assert [W(f), Space, op, Space, P(k)] == [W(f), Space] + tail;
  }

  lemma {:induction false} ListPhrase(k: nat, n: nat)
    ensures n == 0 ==> PlaceholderList(k, n) == [] && ListTokens(k, n) == []
    ensures n > 0 ==> Phrase(PlaceholderList(k, n), ListTokens(k, n))
    decreases n
  {
    if n == 1 {
      Single(P(k));
    } else if n > 1 {
      var rest := PlaceholderList(k + 1, n - 1);
      ListPhrase(k + 1, n - 1);
      Spaced(S(','), rest);
      Leading(P(k), [S(','), Space] + rest);
    }
  }

  lemma {:induction false} InHead(f: string)
    requires IsName(f)
    ensures WellSpaced([W(f), Space, K(IN), Space, S('(')])
    ensures Tokens([W(f), Space, K(IN), Space, S('(')]) == [Word(f), Key(IN), Sym('(')]
  {
    var tail := [K(IN), Space] + [S('(')];
    Single(S('('));
    Spaced(K(IN), [S('(')]);
    Spaced(W(f), tail);
    assert [W(f), Space, K(IN), Space, S('(')] == [W(f), Space] + tail;
  }

  lemma {:induction false} InPhrase(f: string, list: seq<Piece>, ts: seq<Token>)
    requires IsName(f)
    requires Phrase(list, ts) || (list == [] && ts == [])
    ensures Phrase([W(f), Space, K(IN), Space, S('(')] + list + [S(')')],
                   [Word(f), Key(IN), Sym('(')] + ts + [Sym(')')])
  {
    var head := [W(f), Space, K(IN), Space, S('(')];
    InHead(f);
    Single(S(')'));
    TokensConcat(head, list);
    TokensConcat(head + list, [S(')')]);
    WellSpacedConcat(head, list);
    WellSpacedConcat(head + list, [S(')')]);
  }

  lemma {:induction false} BetweenPhrase(f: string, k: nat)
    requires IsName(f)
    ensures Phrase([W(f), Space, K(BETWEEN), Space, P(k)] + [Space, K(AND), Space, P(k + 1)],
                   [Word(f), Key(BETWEEN), Param(k), Key(AND), Param(k + 1)])
  {
    var head, tail := [W(f), Space, K(BETWEEN), Space, P(k)], [K(AND), Space] + [P(k + 1)];
    BinaryPhrase(f, K(BETWEEN), k);
    Single(P(k + 1));
    Spaced(K(AND), [P(k + 1)]);
    Leading(Space, tail);
    assert [Space, K(AND), Space, P(k + 1)] == [Space] + tail;
    TokensConcat(head, [Space] + tail);
    WellSpacedConcat(head, [Space] + tail);
  }

  lemma {:induction false} PredicatePhrase(p: Predicate, k: nat)
    requires IsName(p.field)
    ensures Phrase(PredicateClause(p, k), PredicateTokens(p, k))
  {
    match p
    case Eq(f, _) => BinaryPhrase(f, S('='), k);
    case Like(f, _) => BinaryPhrase(f, K(LIKE), k);
    case In(f, vs) =>
      ListPhrase(k, |vs|);
      InPhrase(f, PlaceholderList(k, |vs|), ListTokens(k, |vs|));
    case Between(f, _, _) => BetweenPhrase(f, k);
  }

  lemma {:induction false} ConnectMid(kw: Keyword)
    ensures WellSpaced([S(')'), Space, K(kw), Space, S('(')])
    ensures Tokens([S(')'), Space, K(kw), Space, S('(')]) == [Sym(')'), Key(kw), Sym('(')]
  {
    var tail := [K(kw), Space] + [S('(')];
    Single(S('('));
    Spaced(K(kw), [S('(')]);
    Spaced(S(')'), tail);
    assert [S(')'), Space, K(kw), Space, S('(')] == [S(')'), Space] + tail;
  }

  lemma {:induction false} ConnectPhrase(l: seq<Piece>, x: seq<Token>, kw: Keyword, r: seq<Piece>, y: seq<Token>)
    requires Phrase(l, x) && Phrase(r, y)
    ensures Phrase(Connect(l, kw, r), Joined(x, kw, y))
  {
    var mid := [S(')'), Space, K(kw), Space, S('(')];
    ConnectMid(kw);
    Single(S('('));
    Single(S(')'));
    Enclosed([S('(')], l, mid);
    Enclosed([S('(')] + l + mid, r, [S(')')]);
  }

  lemma {:induction false} Enclosed(a: seq<Piece>, b: seq<Piece>, c: seq<Piece>)
    requires WellSpaced(a) && WellSpaced(b) && WellSpaced(c)
    requires a != [] && b != [] && c != []
    requires !Collide(a[|a| - 1], b[0]) && !Collide(b[|b| - 1], c[0])
    ensures WellSpaced(a + b + c)
    ensures Tokens(a + b + c) == Tokens(a) + Tokens(b) + Tokens(c)
  {
    TokensConcat(a, b);
    TokensConcat(a + b, c);
    WellSpacedConcat(a, b);
    WellSpacedConcat(a + b, c);
  }

  lemma {:induction false} ClausePhrase(s: Spec, k: nat)
    requires Named(s)
    ensures Phrase(Clause(s, k), ClauseTokens(s, k))
  {
    match s
    case Test(p) =>
      assert p.field in Fields(s);
      PredicatePhrase(p, k);
    case Combine(op, l, r) =>
      var kr := k + |Params(l)|;
      ClausePhrase(l, k);
      ClausePhrase(r, kr);
      ConnectPhrase(Clause(l, k), ClauseTokens(l, k), OpKey(op), Clause(r, kr), ClauseTokens(r, kr));
  }

  // ----- parsing the clause -----

  lemma {:induction false} ParseList(k: nat, n: nat, r: seq<Token>)
    requires n > 0 && (r == [] || r[0] != Sym(','))
    ensures ParseParams(ListTokens(k, n) + r) == Some((Numbers(k, n), r))
    decreases n
  {
    var ts := ListTokens(k, n) + r;
    if n == 1 {
      assert ts[1..] == r;
      assert Numbers(k, 1) == [k];
    } else {
      var rest := ListTokens(k + 1, n - 1) + r;
      assert ts[1..] == [Sym(',')] + rest;
      assert ts[1..][1..] == rest;
      ParseList(k + 1, n - 1, r);
      assert Numbers(k, n) == [k] + Numbers(k + 1, n - 1);
    }
  }

  lemma {:induction false} ParseIn(f: string, k: nat, n: nat, r: seq<Token>)
    requires IsName(f)
    ensures ParsePredicate([Word(f)] + ([Key(IN)] + ([Sym('(')] + (ListTokens(k, n) + ([Sym(')')] + r)))))
         == if n == 0 then None else Some((CIn(f, Numbers(k, n)), r))
  {
    var t1 := [Sym(')')] + r;
    var t2 := ListTokens(k, n) + t1;
    var t3 := [Sym('(')] + t2;
    Cons(Sym(')'), r);
    Cons(Sym('('), t2);
    Cons(Key(IN), t3);
    Cons(Word(f), [Key(IN)] + t3);
    if n > 0 {
      ParseList(k, n, t1);
    } else {
      assert t2 == t1;
    }
  }

  lemma {:induction false} ParseBinary(f: string, op: Token, k: nat, r: seq<Token>)
    requires op == Sym('=') || op == Key(LIKE)
    ensures ParsePredicate([Word(f)] + ([op] + ([Param(k)] + r)))
         == Some((if op == Sym('=') then CEq(f, k) else CLike(f, k), r))
  {
    Cons(Param(k), r);
    Cons(op, [Param(k)] + r);
    Cons(Word(f), [op] + ([Param(k)] + r));
  }

  lemma {:induction false} ParseBetween(f: string, k: nat, r: seq<Token>)
    ensures ParsePredicate([Word(f)] + ([Key(BETWEEN)] + ([Param(k)] + ([Key(AND)] + ([Param(k + 1)] + r)))))
         == Some((CBetween(f, k, k + 1), r))
  {
    var t1 := [Param(k + 1)] + r;
    var t2 := [Key(AND)] + t1;
    var t3 := [Param(k)] + t2;
    Cons(Param(k + 1), r);
    Cons(Key(AND), t1);
    Cons(Param(k), t2);
    Cons(Key(BETWEEN), t3);
    Cons(Word(f), [Key(BETWEEN)] + t3);
  }

  ghost function Nested(p: Predicate, k: nat, r: seq<Token>): seq<Token> {
    match p
    case Eq(f, _) => [Word(f)] + ([Sym('=')] + ([Param(k)] + r))
    case Like(f, _) => [Word(f)] + ([Key(LIKE)] + ([Param(k)] + r))
    case In(f, vs) => [Word(f)] + ([Key(IN)] + ([Sym('(')] + (ListTokens(k, |vs|) + ([Sym(')')] + r))))
    case Between(f, _, _) => [Word(f)] + ([Key(BETWEEN)] + ([Param(k)] + ([Key(AND)] + ([Param(k + 1)] + r))))
  }

  lemma {:induction false} Unfold3(x: Token, y: Token, z: Token, rest: seq<Token>)
    ensures [x, y, z] + rest == [x] + ([y] + ([z] + rest))
  {
  }

  lemma {:induction false} TokensNested(p: Predicate, k: nat, r: seq<Token>)
    ensures PredicateTokens(p, k) + r == Nested(p, k, r)
  {
    match p
    case Eq(f, _) => Unfold3(Word(f), Sym('='), Param(k), r);
    case Like(f, _) => Unfold3(Word(f), Key(LIKE), Param(k), r);
    case In(f, vs) =>
      var head, list := [Word(f), Key(IN), Sym('(')], ListTokens(k, |vs|);
      assert head + list + [Sym(')')] + r == head + (list + ([Sym(')')] + r));
      Unfold3(Word(f), Key(IN), Sym('('), list + ([Sym(')')] + r));
    case Between(f, _, _) =>
      var head, tail := [Word(f), Key(BETWEEN), Param(k)], [Key(AND)] + ([Param(k + 1)] + r);
      assert PredicateTokens(p, k) + r == head + tail;
      Unfold3(Word(f), Key(BETWEEN), Param(k), tail);
  }

  lemma {:induction false} ParseNested(p: Predicate, k: nat, r: seq<Token>)
    requires IsName(p.field)
    ensures ParsePredicate(Nested(p, k, r))
         == if p.In? && p.values == [] then None else Some((PredicateCond(p, k), r))
  {
    match p
    case Eq(f, _) => ParseBinary(f, Sym('='), k, r);
    case Like(f, _) => ParseBinary(f, Key(LIKE), k, r);
    case In(f, vs) => ParseIn(f, k, |vs|, r);
    case Between(f, _, _) => ParseBetween(f, k, r);
  }

  /** What may follow a whole condition. */
  ghost predicate EndsCondition(r: seq<Token>) {
    r == [] || (r[0] != Key(AND) && r[0] != Key(OR))
  }

  lemma {:induction false} ParseParenthesised(x: seq<Token>, c: Option<Cond>, r: seq<Token>)
    requires ParseCond(x + ([Sym(')')] + r)) == Outcome(c, [Sym(')')] + r)
    ensures ParseFactor([Sym('(')] + (x + ([Sym(')')] + r))) == Outcome(c, r)
  {
    var ts := [Sym('(')] + (x + ([Sym(')')] + r));
    assert ts[1..] == x + ([Sym(')')] + r);
    assert ([Sym(')')] + r)[1..] == r;
  }

  lemma {:induction false} ParseStops(c: Cond, r: seq<Token>)
    requires r == [] || r[0] != Key(AND)
    ensures ParseAnds(c, r) == Some((c, r))
    ensures r == [] || r[0] != Key(OR) ==> ParseOrs(c, r) == Some((c, r))
  {
  }

  ghost function Outcome(c: Option<Cond>, r: seq<Token>): Parse<Cond> {
    if c.Some? then Some((c.value, r)) else None
  }

  lemma {:induction false} ParseLoneFactor(ts: seq<Token>, c: Option<Cond>, r: seq<Token>)
    requires ParseFactor(ts) == Outcome(c, r) && (r == [] || r[0] != Key(AND))
    ensures ParseTerm(ts) == Outcome(c, r)
    ensures r == [] || r[0] != Key(OR) ==> ParseCond(ts) == Outcome(c, r)
  {
    if c.Some? {
      ParseStops(c.value, r);
    }
  }

  lemma {:induction false} ParseAnd(a: Option<Cond>, b: Option<Cond>, ts: seq<Token>, ys: seq<Token>, r: seq<Token>)
    requires EndsCondition(r)
    requires ParseFactor(ts) == Outcome(a, [Key(AND)] + ys) && ParseFactor(ys) == Outcome(b, r)
    ensures ParseCond(ts) == if a.Some? && b.Some? then Some((CAnd(a.value, b.value), r)) else None
  {
    var rest := [Key(AND)] + ys;
    assert rest[1..] == ys;
    if a.Some? {
      if b.Some? {
        ParseStops(CAnd(a.value, b.value), r);
        assert ParseAnds(a.value, rest) == Some((CAnd(a.value, b.value), r));
      } else {
        assert ParseAnds(a.value, rest) == None;
      }
    }
  }

  lemma {:induction false} ParseOr(a: Option<Cond>, b: Option<Cond>, ts: seq<Token>, ys: seq<Token>, r: seq<Token>)
    requires EndsCondition(r)
    requires ParseFactor(ts) == Outcome(a, [Key(OR)] + ys) && ParseFactor(ys) == Outcome(b, r)
    ensures ParseCond(ts) == if a.Some? && b.Some? then Some((COr(a.value, b.value), r)) else None
  {
    var rest := [Key(OR)] + ys;
    assert rest[1..] == ys;
    ParseLoneFactor(ts, a, rest);
    ParseLoneFactor(ys, b, r);
    if a.Some? {
      if b.Some? {
        ParseStops(COr(a.value, b.value), r);
        assert ParseOrs(a.value, rest) == Some((COr(a.value, b.value), r));
      } else {
        assert ParseOrs(a.value, rest) == None;
      }
    }
  }

  lemma {:induction false} ParseTest(p: Predicate, k: nat, r: seq<Token>)
    requires IsName(p.field) && EndsCondition(r)
    ensures ParseCond(PredicateTokens(p, k) + r)
         == if p.In? && p.values == [] then None else Some((PredicateCond(p, k), r))
  {
    var ts := PredicateTokens(p, k) + r;
    TokensNested(p, k, r);
    ParseNested(p, k, r);
    assert ts[0] == Word(p.field);
    ParseLoneFactor(ts, if p.In? && p.values == [] then None else Some(PredicateCond(p, k)), r);
  }

  lemma {:induction false} JoinedTokens(x: seq<Token>, kw: Keyword, y: seq<Token>, r: seq<Token>)
    ensures Joined(x, kw, y) + r
         == [Sym('(')] + (x + ([Sym(')')] + ([Key(kw)] + ([Sym('(')] + (y + ([Sym(')')] + r))))))
  {
  }

  ghost function Condition(s: Spec, k: nat): Option<Cond> {
    if NoEmptyList(s) then Some(ToCond(s, k)) else None
  }

  /** Parsing a clause's tokens gives its condition and stops at its end; an empty IN list stops it. */
  lemma {:induction false} ParseClause(s: Spec, k: nat, r: seq<Token>)
    requires Named(s) && EndsCondition(r)
    ensures ParseCond(ClauseTokens(s, k) + r) == Outcome(Condition(s, k), r)
  {
    match s
    case Test(p) =>
      assert p.field in Fields(s);
      ParseTest(p, k, r);
    case Combine(op, l, r') =>
      var kr := k + |Params(l)|;
      var x, y := ClauseTokens(l, k), ClauseTokens(r', kr);
      var ys := [Sym('(')] + (y + ([Sym(')')] + r));
      var after := [Key(OpKey(op))] + ys;
      ParseClause(l, k, [Sym(')')] + after);
      ParseClause(r', kr, [Sym(')')] + r);
      ParseParenthesised(x, Condition(l, k), after);
      ParseParenthesised(y, Condition(r', kr), r);
      JoinedTokens(x, OpKey(op), y, r);
      match op
      case Conjunction => ParseAnd(Condition(l, k), Condition(r', kr), ClauseTokens(s, k) + r, ys, r);
      case Disjunction => ParseOr(Condition(l, k), Condition(r', kr), ClauseTokens(s, k) + r, ys, r);
  }

  // ----- evaluating the condition -----

  lemma {:induction false} AnyEqualIsMembership(cmp: Comparisons, v: DbValue, xs: seq<DbValue>)
    ensures AnyEqual(cmp, v, xs) == True <==> exists x :: x in xs && cmp.equal(v, x) == True
    ensures AnyEqual(cmp, v, xs) == False <==> forall x :: x in xs ==> cmp.equal(v, x) == False
  {
    if xs != [] {
      AnyEqualIsMembership(cmp, v, xs[1..]);
      assert forall x :: x in xs <==> x == xs[0] || x in xs[1..];
    }
  }

  /** The arguments from `$k` on are the parameters. */
  ghost predicate Bound(params: seq<DbValue>, k: nat, args: seq<DbValue>, base: nat) {
    && base <= k && k - base + |params| <= |args|
    && forall i {:trigger params[i]} :: 0 <= i < |params| ==> args[k - base + i] == params[i]
  }

  lemma {:induction false} EvalIn(f: string, vs: seq<DbValue>, k: nat, cmp: Comparisons, args: seq<DbValue>, base: nat, row: Row)
    requires Bound(vs, k, args, base)
    ensures Eval(CIn(f, Numbers(k, |vs|)), cmp, args, base, row) == PredicateMeaning(In(f, vs), cmp, row)
  {
    var ns := Numbers(k, |vs|);
    assert ArgList(args, base, ns) == vs;
    AnyEqualIsMembership(cmp, Cell(row, f), vs);
  }

  lemma {:induction false} EvalTest(p: Predicate, k: nat, cmp: Comparisons, args: seq<DbValue>, base: nat, row: Row)
    requires Bound(PredicateParams(p), k, args, base)
    ensures Eval(PredicateCond(p, k), cmp, args, base, row) == PredicateMeaning(p, cmp, row)
  {
    var ps := PredicateParams(p);
    match p
    case Eq(_, v) => assert ps[0] == v;
    case Like(_, pattern) => assert ps[0] == Text(pattern);
    case In(f, vs) => EvalIn(f, vs, k, cmp, args, base, row);
    case Between(_, lo, hi) => assert ps[0] == lo && ps[1] == hi;
  }

  lemma {:induction false} BoundParts(x: seq<DbValue>, y: seq<DbValue>, k: nat, args: seq<DbValue>, base: nat)
    requires Bound(x + y, k, args, base)
    ensures Bound(x, k, args, base) && Bound(y, k + |x|, args, base)
  {
    var z := x + y;
    assert forall i {:trigger x[i]} :: 0 <= i < |x| ==> z[i] == x[i];
    assert forall i {:trigger y[i]} :: 0 <= i < |y| ==> z[|x| + i] == y[i];
  }

  ghost predicate Agrees(s: Spec, k: nat, cmp: Comparisons, args: seq<DbValue>, base: nat, row: Row) {
    Eval(ToCond(s, k), cmp, args, base, row) == Meaning(s, cmp, row)
  }

  lemma {:induction false} EvalCombine(op: Connective, l: Spec, r: Spec, k: nat, cmp: Comparisons, args: seq<DbValue>, base: nat, row: Row)
    requires Agrees(l, k, cmp, args, base, row) && Agrees(r, k + |Params(l)|, cmp, args, base, row)
    ensures Agrees(Combine(op, l, r), k, cmp, args, base, row)
  {
    assert ToCond(Combine(op, l, r), k) == Combined(op, ToCond(l, k), ToCond(r, k + |Params(l)|));
  }

  lemma {:induction false} EvalClause(s: Spec, k: nat, cmp: Comparisons, args: seq<DbValue>, base: nat, row: Row)
    requires Bound(Params(s), k, args, base)
    ensures Agrees(s, k, cmp, args, base, row)
  {
    match s
    case Test(p) => EvalTest(p, k, cmp, args, base, row);
    case Combine(op, l, r) =>
      BoundParts(Params(l), Params(r), k, args, base);
      EvalClause(l, k, cmp, args, base, row);
      EvalClause(r, k + |Params(l)|, cmp, args, base, row);
      EvalCombine(op, l, r, k, cmp, args, base, row);
  }

  /** A condition's placeholders are `$k, $k+1, ...`, each once, left to right. */
  lemma {:induction false} PlaceholdersOfClause(s: Spec, k: nat)
    ensures Placeholders(ToCond(s, k)) == Numbers(k, |Params(s)|)
    ensures Columns(ToCond(s, k)) == Fields(s)
  {
    match s
    case Test(p) =>
    case Combine(_, l, r) =>
      PlaceholdersOfClause(l, k);
      PlaceholdersOfClause(r, k + |Params(l)|);
  }

  lemma {:induction false} LexOfClause(s: Spec, k: nat)
    requires Named(s)
    ensures Lex(WhereText(s, k)) == ClauseTokens(s, k)
  {
    ClauseAndParams(s, k);
    ClausePhrase(s, k);
    LexOfSpell(Clause(s, k));
  }

  // ----- main results -----

  /** The characters generated for a specification are a search condition iff it has no empty IN list. */
  lemma {:induction false} ClauseParsesIff(s: Spec, offset: nat)
    requires Named(s)
    ensures (exists c :: ParseCond(Lex(WhereText(s, offset))) == Some((c, []))) <==> NoEmptyList(s)
  {
    LexOfClause(s, offset);
    ParseClause(s, offset, []);
    assert ClauseTokens(s, offset) + [] == ClauseTokens(s, offset);
    if NoEmptyList(s) {
      assert ParseCond(Lex(WhereText(s, offset))) == Some((ToCond(s, offset), []));
    }
  }

  /** `f IN ()`, the clause of an IN list with no values, is not a search condition. */
  lemma {:induction false} EmptyInListIsNotSql(f: string, offset: nat)
    requires IsName(f)
    ensures ParseCond(Lex(WhereText(Test(In(f, [])), offset))) == None
  {
    var s := Test(In(f, []));
    LexOfClause(s, offset);
    ParseClause(s, offset, []);
    assert ClauseTokens(s, offset) + [] == ClauseTokens(s, offset);
  }

  /**
   Reading the generated characters back as SQL and evaluating them on a row, `$i` bound to
   params[i - offset], gives the specification's own truth value; the placeholders are
   offset .. offset + |params| - 1, each once, left to right.
   */
  lemma {:induction false} ClauseMeansSpec(s: Spec, offset: nat, cmp: Comparisons, row: Row)
    requires Named(s) && NoEmptyList(s)
    ensures var params := ToWhereClause(s, offset).1;
            var parsed := ParseCond(Lex(WhereText(s, offset)));
            && parsed.Some? && parsed.value.1 == []
            && Placeholders(parsed.value.0) == Numbers(offset, |params|)
            && Columns(parsed.value.0) == Fields(s)
            && Eval(parsed.value.0, cmp, params, offset, row) == Meaning(s, cmp, row)
  {
    ClauseAndParams(s, offset);
    LexOfClause(s, offset);
    ParseClause(s, offset, []);
    assert ClauseTokens(s, offset) + [] == ClauseTokens(s, offset);
    PlaceholdersOfClause(s, offset);
    EvalClause(s, offset, cmp, Params(s), offset, row);
  }
}
