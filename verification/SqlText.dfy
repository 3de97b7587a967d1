/**
 SQL text. Statements are written as lists of pieces, tokens and spaces, and `Spell` turns the
 pieces into characters; `Lex` reads characters back into tokens by longest match. The main
 result, `LexOfSpell`, says that well-spaced text reads back as exactly what was written.
 */
module SqlText {

  datatype Keyword =
    | SELECT | FROM | WHERE | AND | OR | NOT | IN | LIKE | BETWEEN | IS | NULL | AS | ORDER | BY
    | ASC | DESC | LIMIT | OFFSET | DELETE | UPDATE | SET | RETURNING

  datatype Token =
    | Word(w: string)
    | Key(k: Keyword)
    | Num(n: nat)
    | Param(n: nat)
    | Sym(c: char)

  /** What text is made of: tokens and the spaces between them. */
  datatype Piece = Space | Tok(token: Token)

  predicate IsDigit(c: char) { '0' <= c <= '9' }

  predicate IsLetter(c: char) { 'a' <= c <= 'z' || 'A' <= c <= 'Z' || c == '_' }

  predicate IsWordChar(c: char) { IsLetter(c) || IsDigit(c) }

  /** Length of the longest prefix of word characters. */
  function WordLen(s: string): (n: nat)
    ensures n <= |s|
  {
    if s != "" && IsWordChar(s[0]) then 1 + WordLen(s[1..]) else 0
  }

  /** Length of the longest prefix of digits. */
  function DigitLen(s: string): (n: nat)
    ensures n <= |s|
    ensures forall i :: 0 <= i < n ==> IsDigit(s[i])
  {
    if s != "" && IsDigit(s[0]) then 1 + DigitLen(s[1..]) else 0
  }

  function DigitChar(d: nat): (c: char)
    requires d < 10
    ensures IsDigit(c)
  {
    ('0' as int + d) as char
  }

  function DigitValue(c: char): (d: nat)
    requires IsDigit(c)
    ensures d < 10
  {
    c as int - '0' as int
  }

  /** Decimal digits of n, most significant first, no leading zeros. */
  function Show(n: nat): (s: string)
    ensures s != "" && forall i :: 0 <= i < |s| ==> IsDigit(s[i])
  {
    if n < 10 then [DigitChar(n)] else Show(n / 10) + [DigitChar(n % 10)]
  }

  function Read(s: string): nat
    requires forall i :: 0 <= i < |s| ==> IsDigit(s[i])
  {
    if s == "" then 0 else 10 * Read(s[..|s| - 1]) + DigitValue(s[|s| - 1])
  }

  lemma {:induction false} ReadOfShow(n: nat)
    ensures Read(Show(n)) == n
  {
    var s := Show(n);
    if n < 10 {
      assert s[..|s| - 1] == "";
    } else {
      assert s[..|s| - 1] == Show(n / 10);
      ReadOfShow(n / 10);
    }
  }

  function SpellKey(k: Keyword): string {
    match k
    case SELECT => "SELECT" case FROM => "FROM" case WHERE => "WHERE" case AND => "AND"
    case OR => "OR" case NOT => "NOT" case IN => "IN" case LIKE => "LIKE" case BETWEEN => "BETWEEN"
    case IS => "IS" case NULL => "NULL" case AS => "AS" case ORDER => "ORDER" case BY => "BY"
    case ASC => "ASC" case DESC => "DESC" case LIMIT => "LIMIT" case OFFSET => "OFFSET"
    case DELETE => "DELETE" case UPDATE => "UPDATE" case SET => "SET" case RETURNING => "RETURNING"
  }

  const KEYWORDS: seq<Keyword> :=
    [SELECT, FROM, WHERE, AND, OR, NOT, IN, LIKE, BETWEEN, IS, NULL, AS, ORDER, BY,
     ASC, DESC, LIMIT, OFFSET, DELETE, UPDATE, SET, RETURNING]

  function UpperChar(c: char): char {
    if 'a' <= c <= 'z' then (c as int - 'a' as int + 'A' as int) as char else c
  }

  function Upper(s: string): string {
    seq(|s|, i requires 0 <= i < |s| => UpperChar(s[i]))
  }

  /** The first of `ks` that w spells in any case. */
  function FindKey(w: string, ks: seq<Keyword>): Token {
    if ks == [] then Word(w)
    else if Upper(w) == SpellKey(ks[0]) then Key(ks[0])
    else FindKey(w, ks[1..])
  }

  /** Words are keywords, in either case, or names. */
  function Classify(w: string): Token {
    FindKey(w, KEYWORDS)
  }

  function Lex(s: string): seq<Token>
    decreases |s|
  {
    if s == "" then []
    else if s[0] == ' ' then Lex(s[1..])
    else if IsDigit(s[0]) then
      var n := DigitLen(s);
      [Num(Read(s[..n]))] + Lex(s[n..])
    else if IsLetter(s[0]) then
      var n := WordLen(s);
      [Classify(s[..n])] + Lex(s[n..])
    else if s[0] == '$' && DigitLen(s[1..]) > 0 then
      var n := DigitLen(s[1..]);
      [Param(Read(s[1..][..n]))] + Lex(s[1..][n..])
    else [Sym(s[0])] + Lex(s[1..])
  }

  predicate IsWord(w: string) {
    w != "" && IsLetter(w[0]) && forall i :: 0 <= i < |w| ==> IsWordChar(w[i])
  }

  /** A word that names a table or a column. */
  predicate IsName(w: string) {
    IsWord(w) && Classify(w) == Word(w)
  }

  predicate IsSymChar(c: char) {
    !IsWordChar(c) && c != ' ' && c != '$'
  }

  predicate Spellable(p: Piece) {
    match p
    case Tok(Word(w)) => IsName(w)
    case Tok(Sym(c)) => IsSymChar(c)
    case _ => true
  }

  /** Whether p written directly before q would run together with it. */
  predicate Collide(p: Piece, q: Piece) {
    && p.Tok? && !p.token.Sym?
    && q.Tok? && (q.token.Word? || q.token.Key? || q.token.Num?)
  }

  ghost predicate WellSpaced(ps: seq<Piece>) {
    ps == [] || (Spellable(ps[0]) && (|ps| > 1 ==> !Collide(ps[0], ps[1])) && WellSpaced(ps[1..]))
  }

  function SpellPiece(p: Piece): string {
    match p
    case Space => " "
    case Tok(Word(w)) => w
    case Tok(Key(k)) => SpellKey(k)
    case Tok(Num(n)) => Show(n)
    case Tok(Param(n)) => "$" + Show(n)
    case Tok(Sym(c)) => [c]
  }

  function Spell(ps: seq<Piece>): string {
    if ps == [] then "" else SpellPiece(ps[0]) + Spell(ps[1..])
  }

  function TokenOf(p: Piece): seq<Token> {
    if p.Tok? then [p.token] else []
  }

  function Tokens(ps: seq<Piece>): seq<Token> {
    if ps == [] then [] else TokenOf(ps[0]) + Tokens(ps[1..])
  }

  // ----- maximal munch -----

  lemma {:induction false} DigitLenOf(d: string, rest: string)
    requires forall i :: 0 <= i < |d| ==> IsDigit(d[i])
    requires rest == "" || !IsDigit(rest[0])
    ensures DigitLen(d + rest) == |d|
  {
    if d == "" {
      assert d + rest == rest;
    } else {
      assert (d + rest)[1..] == d[1..] + rest;
      DigitLenOf(d[1..], rest);
    }
  }

  lemma {:induction false} WordLenOf(w: string, rest: string)
    requires forall i :: 0 <= i < |w| ==> IsWordChar(w[i])
    requires rest == "" || !IsWordChar(rest[0])
    ensures WordLen(w + rest) == |w|
  {
    if w == "" {
      assert w + rest == rest;
    } else {
      assert (w + rest)[1..] == w[1..] + rest;
      WordLenOf(w[1..], rest);
    }
  }

  lemma {:induction false} KeyIsWord(k: Keyword)
    ensures IsWord(SpellKey(k))
  {
  }

  lemma {:induction false} KeyIsUpper(k: Keyword)
    ensures Upper(SpellKey(k)) == SpellKey(k)
  {
    var w := SpellKey(k);
    assert forall i :: 0 <= i < |w| ==> !('a' <= w[i] <= 'z');
  }

  /** No two keywords are spelled alike. */
  lemma {:induction false} SpellingsDiffer(j: Keyword, k: Keyword)
    requires j != k
    ensures SpellKey(j) != SpellKey(k)
  {
    var a, b := SpellKey(j), SpellKey(k);
    assert |a| != |b| || a[0] != b[0] || a[1] != b[1];
  }

  lemma {:induction false} FindKeyOf(k: Keyword, ks: seq<Keyword>)
    requires k in ks
    ensures FindKey(SpellKey(k), ks) == Key(k)
  {
    KeyIsUpper(k);
    if ks[0] != k {
      SpellingsDiffer(k, ks[0]);
      FindKeyOf(k, ks[1..]);
    }
  }

  lemma {:induction false} ClassifyKey(k: Keyword)
    ensures Classify(SpellKey(k)) == Key(k)
  {
    assert k in KEYWORDS by {
      match k
      case SELECT => assert KEYWORDS[0] == k;
      case FROM => assert KEYWORDS[1] == k;
      case WHERE => assert KEYWORDS[2] == k;
      case AND => assert KEYWORDS[3] == k;
      case OR => assert KEYWORDS[4] == k;
      case NOT => assert KEYWORDS[5] == k;
      case IN => assert KEYWORDS[6] == k;
      case LIKE => assert KEYWORDS[7] == k;
      case BETWEEN => assert KEYWORDS[8] == k;
      case IS => assert KEYWORDS[9] == k;
      case NULL => assert KEYWORDS[10] == k;
      case AS => assert KEYWORDS[11] == k;
      case ORDER => assert KEYWORDS[12] == k;
      case BY => assert KEYWORDS[13] == k;
      case ASC => assert KEYWORDS[14] == k;
      case DESC => assert KEYWORDS[15] == k;
      case LIMIT => assert KEYWORDS[16] == k;
      case OFFSET => assert KEYWORDS[17] == k;
      case DELETE => assert KEYWORDS[18] == k;
      case UPDATE => assert KEYWORDS[19] == k;
      case SET => assert KEYWORDS[20] == k;
      case RETURNING => assert KEYWORDS[21] == k;
    }
    FindKeyOf(k, KEYWORDS);
  }

  lemma {:induction false} LexWord(w: string, rest: string)
    requires IsWord(w)
    requires rest == "" || !IsWordChar(rest[0])
    ensures Lex(w + rest) == [Classify(w)] + Lex(rest)
  {
    var s := w + rest;
    WordLenOf(w, rest);
    assert s[0] == w[0];
    assert s[..|w|] == w && s[|w|..] == rest;
  }

  lemma {:induction false} LexNum(n: nat, rest: string)
    requires rest == "" || !IsDigit(rest[0])
    ensures Lex(Show(n) + rest) == [Num(n)] + Lex(rest)
  {
    var d := Show(n);
    var s := d + rest;
    DigitLenOf(d, rest);
    ReadOfShow(n);
    assert s[0] == d[0];
    assert s[..|d|] == d && s[|d|..] == rest;
  }

  lemma {:induction false} LexDollar(t: string)
    requires DigitLen(t) > 0
    ensures Lex("$" + t) == [Param(Read(t[..DigitLen(t)]))] + Lex(t[DigitLen(t)..])
  {
    var s := "$" + t;
    assert s[0] == '$' && s[1..] == t;
  }

  lemma {:induction false} LexParam(n: nat, rest: string)
    requires rest == "" || !IsDigit(rest[0])
    ensures Lex("$" + Show(n) + rest) == [Param(n)] + Lex(rest)
  {
    var d := Show(n);
    var t := d + rest;
    DigitLenOf(d, rest);
    ReadOfShow(n);
    LexDollar(t);
    assert t[..|d|] == d && t[|d|..] == rest;
    assert "$" + d + rest == "$" + t;
  }

  /** One piece followed by text it does not run into is read as that piece. */
  lemma {:induction false} LexPiece(p: Piece, rest: string)
    requires Spellable(p)
    requires p.Tok? && !p.token.Sym? && rest != "" ==> !IsWordChar(rest[0])
    ensures Lex(SpellPiece(p) + rest) == TokenOf(p) + Lex(rest)
  {
    match p
    case Space => assert (" " + rest)[1..] == rest;
    case Tok(Sym(c)) => assert ([c] + rest)[1..] == rest;
    case Tok(Word(w)) => LexWord(w, rest);
    case Tok(Key(k)) => KeyIsWord(k); ClassifyKey(k); LexWord(SpellKey(k), rest);
    case Tok(Num(n)) => LexNum(n, rest);
    case Tok(Param(n)) => LexParam(n, rest);
  }

  lemma {:induction false} SpellStart(p: Piece)
    requires Spellable(p)
    ensures SpellPiece(p) != ""
    ensures IsWordChar(SpellPiece(p)[0]) <==> p.Tok? && (p.token.Word? || p.token.Key? || p.token.Num?)
  {
    if p.Tok? && p.token.Key? {
      KeyIsWord(p.token.k);
    }
  }

  /** Well-spaced text reads back as exactly the tokens it was written from. */
  lemma {:induction false} LexOfSpell(ps: seq<Piece>)
    requires WellSpaced(ps)
    ensures Lex(Spell(ps)) == Tokens(ps)
  {
    if ps != [] {
      LexOfSpell(ps[1..]);
      if |ps| > 1 {
        SpellStart(ps[1]);
      }
      LexPiece(ps[0], Spell(ps[1..]));
    }
  }

  // ----- concatenation -----

  lemma {:induction false} Cons<T>(x: T, rest: seq<T>)
    ensures ([x] + rest)[0] == x && ([x] + rest)[1..] == rest
  {
  }

  lemma {:induction false} TokensConcat(a: seq<Piece>, b: seq<Piece>)
    ensures Tokens(a + b) == Tokens(a) + Tokens(b)
  {
    if a == [] {
      assert a + b == b;
    } else {
      assert (a + b)[0] == a[0] && (a + b)[1..] == a[1..] + b;
      TokensConcat(a[1..], b);
      var x, y := Tokens(a[1..]), Tokens(b);
      assert TokenOf(a[0]) + (x + y) == TokenOf(a[0]) + x + y;
    }
  }

  lemma {:induction false} WellSpacedConcat(a: seq<Piece>, b: seq<Piece>)
    requires WellSpaced(a) && WellSpaced(b)
    requires a != [] && b != [] ==> !Collide(a[|a| - 1], b[0])
    ensures WellSpaced(a + b)
  {
    if a == [] {
      assert a + b == b;
    } else {
      assert (a + b)[1..] == a[1..] + b;
      WellSpacedConcat(a[1..], b);
    }
  }

  /** Pieces that read as `ts`. */
  ghost predicate Reads(ps: seq<Piece>, ts: seq<Token>) {
    WellSpaced(ps) && Tokens(ps) == ts
  }

  lemma {:induction false} ReadsConcat(a: seq<Piece>, x: seq<Token>, b: seq<Piece>, y: seq<Token>)
    requires Reads(a, x) && Reads(b, y)
    requires a != [] && b != [] ==> !Collide(a[|a| - 1], b[0])
    ensures Reads(a + b, x + y)
  {
    TokensConcat(a, b);
    WellSpacedConcat(a, b);
  }

  lemma {:induction false} Spaced(p: Piece, ps: seq<Piece>)
    requires Spellable(p) && WellSpaced(ps)
    ensures Reads([p, Space] + ps, TokenOf(p) + Tokens(ps))
  {
    var q := [Space] + ps;
    Cons(Space, ps);
    Cons(p, q);
    assert [p, Space] + ps == [p] + q;
  }

  lemma {:induction false} Single(p: Piece)
    requires Spellable(p)
    ensures Reads([p], TokenOf(p))
  {
    assert [p][1..] == [];
  }

  lemma {:induction false} Leading(p: Piece, ps: seq<Piece>)
    requires Spellable(p) && WellSpaced(ps)
    requires ps != [] ==> !Collide(p, ps[0])
    ensures Reads([p] + ps, TokenOf(p) + Tokens(ps))
  {
    assert ([p] + ps)[1..] == ps;
  }

  /** Tokens, each followed by a space. */
  function Before(ts: seq<Token>): (ps: seq<Piece>)
    ensures ts != [] ==> ps != [] && ps[0] == Tok(ts[0]) && ps[|ps| - 1] == Space
  {
    if ts == [] then [] else [Tok(ts[0]), Space] + Before(ts[1..])
  }

  /** Tokens, each preceded by a space. */
  function After(ts: seq<Token>): (ps: seq<Piece>)
    ensures ts != [] ==> ps != [] && ps[0] == Space && ps[|ps| - 1] == Tok(ts[|ts| - 1])
  {
    if ts == [] then [] else [Space, Tok(ts[0])] + After(ts[1..])
  }

  lemma {:induction false} ReadsBefore(ts: seq<Token>)
    requires forall t :: t in ts ==> Spellable(Tok(t))
    ensures Reads(Before(ts), ts)
  {
    if ts != [] {
      ReadsBefore(ts[1..]);
      Spaced(Tok(ts[0]), Before(ts[1..]));
      assert ts == [ts[0]] + ts[1..];
    }
  }

  lemma {:induction false} ReadsAfter(ts: seq<Token>)
    requires forall t :: t in ts ==> Spellable(Tok(t))
    ensures Reads(After(ts), ts)
  {
    if ts != [] {
      var rest := After(ts[1..]);
      ReadsAfter(ts[1..]);
      Leading(Tok(ts[0]), rest);
      Leading(Space, [Tok(ts[0])] + rest);
      assert [Space, Tok(ts[0])] + rest == [Space] + ([Tok(ts[0])] + rest);
      assert ts == [ts[0]] + ts[1..];
    }
  }

  lemma {:induction false} NotFound(w: string, ks: seq<Keyword>)
    requires forall k: Keyword :: Upper(w) != SpellKey(k)
    ensures FindKey(w, ks) == Word(w)
  {
    if ks != [] {
      assert Upper(w) != SpellKey(ks[0]);
      NotFound(w, ks[1..]);
    }
  }

  lemma {:induction false} NoKeywordStartsWithC(k: Keyword)
    ensures SpellKey(k)[0] != 'C'
  {
  }

  lemma {:induction false} NameStartingWithC(w: string)
    requires IsWord(w) && UpperChar(w[0]) == 'C'
    ensures IsName(w)
  {
    forall k: Keyword ensures Upper(w) != SpellKey(k) {
      NoKeywordStartsWithC(k);
      assert Upper(w)[0] == 'C';
    }
    NotFound(w, KEYWORDS);
  }

  // ----- writing in parts -----

  lemma {:induction false} LexTwo(a: seq<Piece>, x: seq<Token>, b: seq<Piece>, y: seq<Token>)
    requires Reads(a, x) && Reads(b, y)
    requires a != [] && b != [] ==> !Collide(a[|a| - 1], b[0])
    ensures Lex(Spell(a + b)) == x + y
  {
    ReadsConcat(a, x, b, y);
    LexOfSpell(a + b);
  }
}
