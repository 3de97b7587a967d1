/**
 A grammar of SQL statements over tokens, following sections 8.2 to 8.5 and 8.12 of
 ISO/IEC 9075:1992 for search conditions (AND binds tighter than OR), and the value of a
 search condition on a row. It knows nothing of how the repository writes its statements.
 */
module SqlGrammar {
  import opened Wrappers
  import opened SqlValues
  import opened SqlText

  datatype Cond =
    | CAnd(left: Cond, right: Cond)
    | COr(left: Cond, right: Cond)
    | CEq(column: string, arg: nat)
    | CLike(column: string, arg: nat)
    | CIn(column: string, args: seq<nat>)
    | CBetween(column: string, low: nat, high: nat)

  /** Placeholders of a condition, left to right. */
  function Placeholders(c: Cond): seq<nat> {
    match c
    case CAnd(l, r) => Placeholders(l) + Placeholders(r)
    case COr(l, r) => Placeholders(l) + Placeholders(r)
    case CEq(_, n) => [n]
    case CLike(_, n) => [n]
    case CIn(_, ns) => ns
    case CBetween(_, lo, hi) => [lo, hi]
  }

  function Columns(c: Cond): set<string> {
    match c
    case CAnd(l, r) => Columns(l) + Columns(r)
    case COr(l, r) => Columns(l) + Columns(r)
    case _ => {c.column}
  }

  /** The value `$n` stands for when the values from `$base` on are `args`. */
  function Arg(args: seq<DbValue>, base: nat, n: nat): DbValue {
    if base <= n < base + |args| then args[n - base] else Null
  }

  function ArgList(args: seq<DbValue>, base: nat, ns: seq<nat>): (vs: seq<DbValue>)
    ensures |vs| == |ns| && forall i :: 0 <= i < |ns| ==> vs[i] == Arg(args, base, ns[i])
  {
    seq(|ns|, i requires 0 <= i < |ns| => Arg(args, base, ns[i]))
  }

  function Eval(c: Cond, cmp: Comparisons, args: seq<DbValue>, base: nat, row: Row): Truth {
    match c
    case CAnd(l, r) => Conj(Eval(l, cmp, args, base, row), Eval(r, cmp, args, base, row))
    case COr(l, r) => Disj(Eval(l, cmp, args, base, row), Eval(r, cmp, args, base, row))
    case CEq(f, n) => cmp.equal(Cell(row, f), Arg(args, base, n))
    case CLike(f, n) => cmp.like(Cell(row, f), Arg(args, base, n))
    case CIn(f, ns) => AnyEqual(cmp, Cell(row, f), ArgList(args, base, ns))
    case CBetween(f, lo, hi) => Within(cmp, Cell(row, f), Arg(args, base, lo), Arg(args, base, hi))
  }

  // ----- search conditions -----

  type Parse<T> = Option<(T, seq<Token>)>

  function Eat(ts: seq<Token>, k: Keyword): (p: Option<seq<Token>>)
    ensures p.Some? ==> |p.value| == |ts| - 1
  {
    if ts != [] && ts[0] == Key(k) then Some(ts[1..]) else None
  }

  function EatWord(ts: seq<Token>, w: string): (p: Option<seq<Token>>)
    ensures p.Some? ==> |p.value| == |ts| - 1
  {
    if ts != [] && ts[0] == Word(w) then Some(ts[1..]) else None
  }

  function EatSym(ts: seq<Token>, c: char): (p: Option<seq<Token>>)
    ensures p.Some? ==> |p.value| == |ts| - 1
  {
    if ts != [] && ts[0] == Sym(c) then Some(ts[1..]) else None
  }

  function ParseParam(ts: seq<Token>): (p: Parse<nat>)
    ensures p.Some? ==> |p.value.1| == |ts| - 1
  {
    if ts != [] && ts[0].Param? then Some((ts[0].n, ts[1..])) else None
  }

  function ParseName(ts: seq<Token>): (p: Parse<string>)
    ensures p.Some? ==> |p.value.1| == |ts| - 1
  {
    if ts != [] && ts[0].Word? then Some((ts[0].w, ts[1..])) else None
  }

  /** One placeholder, or several separated by commas. */
  function ParseParams(ts: seq<Token>): (p: Parse<seq<nat>>)
    ensures p.Some? ==> |p.value.1| < |ts|
    decreases |ts|
  {
    var (n, rest) :- ParseParam(ts);
    if EatSym(rest, ',').Some? then
      var (ns, rest) :- ParseParams(rest[1..]);
      Some(([n] + ns, rest))
    else Some(([n], rest))
  }

  function ParsePredicate(ts: seq<Token>): (p: Parse<Cond>)
    ensures p.Some? ==> |p.value.1| < |ts|
  {
    var (f, rest) :- ParseName(ts);
    if EatSym(rest, '=').Some? then
      var (n, rest) :- ParseParam(rest[1..]);
      Some((CEq(f, n), rest))
    else if Eat(rest, LIKE).Some? then
      var (n, rest) :- ParseParam(rest[1..]);
      Some((CLike(f, n), rest))
    else if Eat(rest, BETWEEN).Some? then
      var (lo, rest) :- ParseParam(rest[1..]);
      var rest :- Eat(rest, AND);
      var (hi, rest) :- ParseParam(rest);
      Some((CBetween(f, lo, hi), rest))
    else
      var rest :- Eat(rest, IN);
      var rest :- EatSym(rest, '(');
      var (ns, rest) :- ParseParams(rest);
      var rest :- EatSym(rest, ')');
      Some((CIn(f, ns), rest))
  }

  /** condition ::= term { OR term } */
  function ParseCond(ts: seq<Token>): (p: Parse<Cond>)
    ensures p.Some? ==> |p.value.1| < |ts|
    decreases |ts|, 3
  {
    var (c, rest) :- ParseTerm(ts);
    ParseOrs(c, rest)
  }

  function ParseOrs(c: Cond, ts: seq<Token>): (p: Parse<Cond>)
    ensures p.Some? ==> |p.value.1| <= |ts|
    decreases |ts|, 4
  {
    if Eat(ts, OR).Some? then
      var (d, rest) :- ParseTerm(ts[1..]);
      ParseOrs(COr(c, d), rest)
    else Some((c, ts))
  }

  /** term ::= factor { AND factor } */
  function ParseTerm(ts: seq<Token>): (p: Parse<Cond>)
    ensures p.Some? ==> |p.value.1| < |ts|
    decreases |ts|, 1
  {
    var (c, rest) :- ParseFactor(ts);
    ParseAnds(c, rest)
  }

  function ParseAnds(c: Cond, ts: seq<Token>): (p: Parse<Cond>)
    ensures p.Some? ==> |p.value.1| <= |ts|
    decreases |ts|, 2
  {
    if Eat(ts, AND).Some? then
      var (d, rest) :- ParseFactor(ts[1..]);
      ParseAnds(CAnd(c, d), rest)
    else Some((c, ts))
  }

  /** factor ::= ( condition ) | predicate */
  function ParseFactor(ts: seq<Token>): (p: Parse<Cond>)
    ensures p.Some? ==> |p.value.1| < |ts|
    decreases |ts|, 0
  {
    if EatSym(ts, '(').Some? then
      var (c, rest) :- ParseCond(ts[1..]);
      var rest :- EatSym(rest, ')');
      Some((c, rest))
    else ParsePredicate(ts)
  }

  // ----- statements -----

  datatype SortKey = SortKey(column: string, ascending: bool)

  datatype Statement =
    | Select(table: string, filter: Option<Cond>, order: seq<SortKey>, limit: nat, offset: nat)
    | SelectCount(table: string, alias: string, filter: Option<Cond>)
    | Delete(table: string, filter: Option<Cond>)
    | Update(table: string, sets: seq<(string, nat)>, filter: Option<Cond>)

  function ParseFilter(ts: seq<Token>): (p: Parse<Option<Cond>>)
  {
    if Eat(ts, WHERE).Some? then
      var (c, rest) :- ParseCond(ts[1..]);
      Some((Some(c), rest))
    else Some((None, ts))
  }

  function ParseSortKeys(ts: seq<Token>): (p: Parse<seq<SortKey>>)
    ensures p.Some? ==> |p.value.1| < |ts|
    decreases |ts|
  {
    var (f, rest) :- ParseName(ts);
    if Eat(rest, ASC).Some? || Eat(rest, DESC).Some? then
      var key := SortKey(f, Eat(rest, ASC).Some?);
      var rest := rest[1..];
      if EatSym(rest, ',').Some? then
        var (keys, rest) :- ParseSortKeys(rest[1..]);
        Some(([key] + keys, rest))
      else Some(([key], rest))
    else None
  }

  function ParseOrder(ts: seq<Token>): Parse<seq<SortKey>> {
    if Eat(ts, ORDER).Some? then
      var rest :- Eat(ts[1..], BY);
      ParseSortKeys(rest)
    else Some(([], ts))
  }

  function ParseNum(ts: seq<Token>): Parse<nat> {
    if ts != [] && ts[0].Num? then Some((ts[0].n, ts[1..])) else None
  }

  /** FROM t [WHERE c] */
  function ParseSource(ts: seq<Token>): Parse<(string, Option<Cond>)> {
    var ts :- Eat(ts, FROM);
    var (t, ts) :- ParseName(ts);
    var (c, ts) :- ParseFilter(ts);
    Some(((t, c), ts))
  }

  /** LIMIT n OFFSET m, at the end of a statement */
  function ParseWindow(ts: seq<Token>): Option<(nat, nat)> {
    var ts :- Eat(ts, LIMIT);
    var (limit, ts) :- ParseNum(ts);
    var ts :- Eat(ts, OFFSET);
    var (offset, ts) :- ParseNum(ts);
    if ts == [] then Some((limit, offset)) else None
  }

  function ParseSets(ts: seq<Token>): (p: Parse<seq<(string, nat)>>)
    ensures p.Some? ==> |p.value.1| < |ts|
    decreases |ts|
  {
    var (f, rest) :- ParseName(ts);
    var rest :- EatSym(rest, '=');
    var (n, rest) :- ParseParam(rest);
    if EatSym(rest, ',').Some? then
      var (sets, rest) :- ParseSets(rest[1..]);
      Some(([(f, n)] + sets, rest))
    else Some(([(f, n)], rest))
  }

  /** SELECT * FROM t [WHERE c] [ORDER BY ...] LIMIT n OFFSET m */
  function ParseSelect(ts: seq<Token>): Option<Statement> {
    var (source, ts) :- ParseSource(ts);
    var (keys, ts) :- ParseOrder(ts);
    var window :- ParseWindow(ts);
    Some(Select(source.0, source.1, keys, window.0, window.1))
  }

  /** SELECT count(*) AS a FROM t [WHERE c] */
  function ParseCount(ts: seq<Token>): Option<Statement> {
    var ts :- EatSym(ts, '(');
    var ts :- EatSym(ts, '*');
    var ts :- EatSym(ts, ')');
    var ts :- Eat(ts, AS);
    var (a, ts) :- ParseName(ts);
    var (source, ts) :- ParseSource(ts);
    if ts == [] then Some(SelectCount(source.0, a, source.1)) else None
  }

  /** DELETE FROM t [WHERE c] */
  function ParseDelete(ts: seq<Token>): Option<Statement> {
    var (source, ts) :- ParseSource(ts);
    if ts == [] then Some(Delete(source.0, source.1)) else None
  }

  /** UPDATE t SET f = $n, ... [WHERE c] RETURNING * */
  function ParseUpdate(ts: seq<Token>): Option<Statement> {
    var (t, ts) :- ParseName(ts);
    var ts :- Eat(ts, SET);
    var (sets, ts) :- ParseSets(ts);
    var (c, ts) :- ParseFilter(ts);
    var ts :- Eat(ts, RETURNING);
    var ts :- EatSym(ts, '*');
    if ts == [] then Some(Update(t, sets, c)) else None
  }

  function ParseStatement(ts: seq<Token>): Option<Statement> {
    if Eat(ts, SELECT).Some? then
      if EatSym(ts[1..], '*').Some? then ParseSelect(ts[2..])
      else
        var ts :- EatWord(ts[1..], "count");
        ParseCount(ts)
    else if Eat(ts, DELETE).Some? then ParseDelete(ts[1..])
    else
      var ts :- Eat(ts, UPDATE);
      ParseUpdate(ts)
  }
}
