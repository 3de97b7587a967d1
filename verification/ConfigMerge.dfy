/**
 Environment overrides merged into a configuration tree. The environment is a list of variables;
 how the text of a value is read (bool, number or string) and how a name is put into lower case
 are inputs.
 */
module ConfigMerge {
  import opened Wrappers

  datatype Leaf = Bool(b: bool) | Number(text: string) | Text(text: string)

  datatype Value =
    | Null
    | Scalar(leaf: Leaf)
    | List(items: seq<Value>)
    | Object(fields: map<string, Value>)

  type Path = seq<string>

  // ----- setting one path -----

  /** Intermediate objects are made as needed; a non-object in the way is left as it is. */
  function SetNested(root: Value, path: Path, leaf: Leaf): Value
    decreases |path|
  {
    if path == [] || !root.Object? then root
    else if |path| == 1 then Object(root.fields[path[0] := Scalar(leaf)])
    else
      var child := if path[0] in root.fields then root.fields[path[0]] else Object(map[]);
      Object(root.fields[path[0] := SetNested(child, path[1..], leaf)])
  }

  function Get(root: Value, path: Path): Option<Value>
    decreases |path|
  {
    if path == [] then Some(root)
    else if root.Object? && path[0] in root.fields then Get(root.fields[path[0]], path[1..])
    else None
  }

  /** The root or something on the way to the path's last segment is there and is not an object. */
  predicate Blocked(root: Value, path: Path)
    decreases |path|
  {
    path == [] || !root.Object?
    || (|path| > 1 && path[0] in root.fields && Blocked(root.fields[path[0]], path[1..]))
  }

  /** One path is the beginning of the other. */
  predicate Comparable(p: Path, q: Path) {
    p <= q || q <= p
  }

  lemma {:induction false} BlockedUnchanged(root: Value, path: Path, leaf: Leaf)
    requires Blocked(root, path)
    ensures SetNested(root, path, leaf) == root
    decreases |path|
  {
    if path != [] && root.Object? {
      BlockedUnchanged(root.fields[path[0]], path[1..], leaf);
      assert root.fields[path[0] := root.fields[path[0]]] == root.fields;
    }
  }

  /** The path holds the new value exactly when nothing blocks it; otherwise nothing changes at all. */
  lemma {:induction false} SetThenGet(root: Value, path: Path, leaf: Leaf)
    requires path != []
    ensures !Blocked(root, path) ==> Get(SetNested(root, path, leaf), path) == Some(Scalar(leaf))
    ensures Blocked(root, path) ==> SetNested(root, path, leaf) == root && Get(root, path).None?
    decreases |path|
  {
    if Blocked(root, path) {
      BlockedUnchanged(root, path, leaf);
      BlockedAbsent(root, path);
    } else if |path| == 1 {
      assert path[1..] == [];
      assert Get(Scalar(leaf), []) == Some(Scalar(leaf));
    } else {
      var child := if path[0] in root.fields then root.fields[path[0]] else Object(map[]);
      assert !Blocked(child, path[1..]);
      SetThenGet(child, path[1..], leaf);
    }
  }

  lemma {:induction false} BlockedAbsent(root: Value, path: Path)
    requires Blocked(root, path) && path != []
    ensures Get(root, path).None?
    decreases |path|
  {
    if root.Object? {
      BlockedAbsent(root.fields[path[0]], path[1..]);
    }
  }

  /** Paths of which neither begins with the other do not touch each other. */
  lemma {:induction false} OthersUnchanged(root: Value, p: Path, q: Path, leaf: Leaf)
    requires !Comparable(p, q)
    ensures Get(SetNested(root, p, leaf), q) == Get(root, q)
    decreases |p|
  {
    if root.Object? && p[0] == q[0] {
      assert !Comparable(p[1..], q[1..]) by {
        assert p == [p[0]] + p[1..] && q == [q[0]] + q[1..];
      }
      var child := if p[0] in root.fields then root.fields[p[0]] else Object(map[]);
      OthersUnchanged(child, p[1..], q[1..], leaf);
      if p[0] !in root.fields {
        assert q[1..] != [];
        assert Get(child, q[1..]).None?;
      }
    }
  }

  // ----- the order of two overrides -----

  lemma {:induction false} SameHead(root: Value, p: Path, q: Path, v: Leaf, w: Leaf, child: Value)
    requires root.Object? && |p| > 1 && |q| > 1 && p[0] == q[0]
    requires child == if p[0] in root.fields then root.fields[p[0]] else Object(map[])
    ensures SetNested(SetNested(root, p, v), q, w) ==
            Object(root.fields[p[0] := SetNested(SetNested(child, p[1..], v), q[1..], w)])
  {
    var mid := SetNested(child, p[1..], v);
    var last := SetNested(mid, q[1..], w);
    assert root.fields[p[0] := mid][q[0] := last] == root.fields[p[0] := last];
  }

  /** A scalar at a proper beginning of the path blocks it, whichever comes first. */
  lemma {:induction false} ShorterWins(root: Value, p: Path, q: Path, v: Leaf, w: Leaf)
    requires root.Object? && |p| == 1 && |q| > 1 && p[0] == q[0]
    ensures SetNested(SetNested(root, p, v), q, w) == SetNested(root, p, v)
    ensures SetNested(SetNested(root, q, w), p, v) == SetNested(root, p, v)
  {
    var set_ := root.fields[p[0] := Scalar(v)];
    assert SetNested(Scalar(v), q[1..], w) == Scalar(v);
    assert set_[p[0] := Scalar(v)] == set_;
    var child := if q[0] in root.fields then root.fields[q[0]] else Object(map[]);
    assert root.fields[q[0] := SetNested(child, q[1..], w)][p[0] := Scalar(v)] == set_;
  }

  lemma {:induction false} DifferentHeads(root: Value, p: Path, q: Path, v: Leaf, w: Leaf)
    requires root.Object? && p != [] && q != [] && p[0] != q[0]
    ensures SetNested(SetNested(root, p, v), q, w) == SetNested(SetNested(root, q, w), p, v)
  {
    var a := SetNested(root, p, v).fields[p[0]];
    var b := SetNested(root, q, w).fields[q[0]];
    assert root.fields[p[0] := a][q[0] := b] == root.fields[q[0] := b][p[0] := a];
  }

  lemma {:induction false} DistinctCommute(root: Value, p: Path, q: Path, v: Leaf, w: Leaf)
    requires p != q
    ensures SetNested(SetNested(root, p, v), q, w) == SetNested(SetNested(root, q, w), p, v)
    decreases |p|
  {
    if p != [] && q != [] && root.Object? {
      if p[0] != q[0] {
        DifferentHeads(root, p, q, v, w);
      } else if |p| == 1 {
        assert |q| > 1;
        ShorterWins(root, p, q, v, w);
      } else if |q| == 1 {
        ShorterWins(root, q, p, w, v);
      } else {
        var child := if p[0] in root.fields then root.fields[p[0]] else Object(map[]);
        assert p[1..] != q[1..] by {
          assert p == [p[0]] + p[1..] && q == [q[0]] + q[1..];
        }
        DistinctCommute(child, p[1..], q[1..], v, w);
        SameHead(root, p, q, v, w, child);
        SameHead(root, q, p, w, v, child);
      }
    }
  }

  lemma {:induction false} LastWins(root: Value, p: Path, v: Leaf, w: Leaf)
    requires !Blocked(root, p)
    ensures SetNested(SetNested(root, p, v), p, w) == SetNested(root, p, w)
    decreases |p|
  {
    if |p| == 1 {
      assert root.fields[p[0] := Scalar(v)][p[0] := Scalar(w)] == root.fields[p[0] := Scalar(w)];
    } else {
      var child := if p[0] in root.fields then root.fields[p[0]] else Object(map[]);
      assert !Blocked(child, p[1..]);
      LastWins(child, p[1..], v, w);
      SameHead(root, p, p, v, w, child);
    }
  }

  /**
   Two overrides give the same tree in either order, even where one path begins with the other,
   unless they set one unblocked path to different values.
   */
  lemma {:induction false} OverridesCommute(root: Value, p: Path, q: Path, v: Leaf, w: Leaf)
    ensures SetNested(SetNested(root, p, v), q, w) == SetNested(SetNested(root, q, w), p, v)
            <==> p != q || v == w || Blocked(root, p)
  {
    if p != q {
      DistinctCommute(root, p, q, v, w);
    } else if Blocked(root, p) {
      BlockedUnchanged(root, p, v);
      BlockedUnchanged(root, p, w);
    } else {
      LastWins(root, p, v, w);
      LastWins(root, p, w, v);
      SetThenGet(root, p, v);
      SetThenGet(root, p, w);
    }
  }

  // ----- any number of overrides -----

  datatype Override = Override(path: Path, leaf: Leaf)

  function SetAll(root: Value, os: seq<Override>): Value
    decreases |os|
  {
    if os == [] then root else SetAll(SetNested(root, os[0].path, os[0].leaf), os[1..])
  }

  ghost predicate DistinctPaths(os: seq<Override>) {
    forall i, j :: 0 <= i < j < |os| ==> os[i].path != os[j].path
  }

  /** An override with a path of its own can be moved to the front. */
  lemma {:induction false} MoveToFront(root: Value, os: seq<Override>, k: nat)
    requires k < |os| && DistinctPaths(os)
    ensures SetAll(root, os) == SetAll(SetNested(root, os[k].path, os[k].leaf), os[..k] + os[k + 1..])
    decreases |os|
  {
    if k == 0 {
      assert os[..0] + os[1..] == os[1..];
    } else {
      var o, first, rest := os[k], os[0], os[1..];
      var root1 := SetNested(root, first.path, first.leaf);
      assert DistinctPaths(rest);
      MoveToFront(root1, rest, k - 1);
      DistinctCommute(root, first.path, o.path, first.leaf, o.leaf);
      var without := os[..k] + os[k + 1..];
      assert without[0] == first && without[1..] == rest[..k - 1] + rest[k..];
    }
  }

  lemma {:induction false} DistinctWithout(os: seq<Override>, k: nat)
    requires k < |os| && DistinctPaths(os)
    ensures DistinctPaths(os[..k] + os[k + 1..])
  {
    var rest := os[..k] + os[k + 1..];
    forall i, j | 0 <= i < j < |rest| ensures rest[i].path != rest[j].path {
      var i', j' := if i < k then i else i + 1, if j < k then j else j + 1;
      assert rest[i] == os[i'] && rest[j] == os[j'] && i' < j';
    }
  }

  lemma {:induction false} RemoveAt<T>(s: seq<T>, k: nat)
    requires k < |s|
    ensures multiset(s[..k] + s[k + 1..]) == multiset(s) - multiset{s[k]}
  {
    assert s == s[..k] + ([s[k]] + s[k + 1..]);
  }

  lemma {:induction false} SameRest<T>(xs: seq<T>, ys: seq<T>) returns (k: nat)
    requires xs != [] && multiset(xs) == multiset(ys)
    ensures k < |ys| && ys[k] == xs[0] && multiset(xs[1..]) == multiset(ys[..k] + ys[k + 1..])
  {
    assert xs[0] in multiset(xs);
    assert xs[0] in ys;
    k :| 0 <= k < |ys| && ys[k] == xs[0];
    RemoveAt(ys, k);
    DropFirst(xs);
  }

  lemma {:induction false} DropFirst<T>(s: seq<T>)
    requires s != []
    ensures multiset(s[1..]) == multiset(s) - multiset{s[0]}
  {
    assert s == [s[0]] + s[1..];
  }

  /** Any list of overrides with different paths gives the same tree in every order. */
  lemma {:induction false} OrderIrrelevant(root: Value, xs: seq<Override>, ys: seq<Override>)
    requires multiset(xs) == multiset(ys) && DistinctPaths(ys)
    ensures SetAll(root, xs) == SetAll(root, ys)
    decreases |xs|
  {
    if xs == [] {
      assert |multiset(ys)| == 0;
      assert ys == [];
    } else {
      var k := SameRest(xs, ys);
      MoveToFront(root, ys, k);
      DistinctWithout(ys, k);
      OrderIrrelevant(SetNested(root, xs[0].path, xs[0].leaf), xs[1..], ys[..k] + ys[k + 1..]);
    }
  }

  // ----- exactly when the order does not matter -----

  /** `p` is a proper beginning of `q`, and names something. */
  predicate Before(p: Path, q: Path) {
    p != [] && p < q
  }

  lemma {:induction false} BlockedStays(root: Value, p: Path, q: Path, leaf: Leaf)
    requires Blocked(root, p)
    ensures Blocked(SetNested(root, q, leaf), p)
    decreases |p|
  {
    if p != [] && q != [] && root.Object? && p[0] == q[0] {
      if |q| > 1 {
        BlockedStays(root.fields[p[0]], p[1..], q[1..], leaf);
      }
    }
  }

  lemma {:induction false} UnblockedStays(root: Value, p: Path, q: Path, leaf: Leaf)
    requires !Blocked(root, p) && !Before(q, p)
    ensures !Blocked(SetNested(root, q, leaf), p)
    decreases |p|
  {
    if q != [] && |p| > 1 && p[0] == q[0] {
      var child := if p[0] in root.fields then root.fields[p[0]] else Object(map[]);
      assert p == [p[0]] + p[1..] && q == [q[0]] + q[1..];
      assert |q| > 1 && !Before(q[1..], p[1..]);
      UnblockedStays(child, p[1..], q[1..], leaf);
    }
  }

  /** A beginning of an unblocked path is unblocked, and once set it blocks the path. */
  lemma {:induction false} BeginningBlocks(root: Value, q: Path, p: Path, leaf: Leaf)
    requires !Blocked(root, p) && Before(q, p)
    ensures !Blocked(root, q) && Blocked(SetNested(root, q, leaf), p)
    decreases |p|
  {
    if |q| > 1 {
      var child := if p[0] in root.fields then root.fields[p[0]] else Object(map[]);
      assert p == [p[0]] + p[1..] && q == [q[0]] + q[1..];
      assert q[0] == p[0] && q[1..] < p[1..];
      BeginningBlocks(child, q[1..], p[1..], leaf);
    } else {
      assert p[0] == q[0];
    }
  }

  /** Two values for one path only where it is blocked or something at its beginning is overridden as well. */
  ghost predicate Settled(root: Value, os: seq<Override>) {
    forall a, b :: a in os && b in os && a.path == b.path && a.leaf != b.leaf ==>
      Blocked(root, a.path) || exists r :: r in os && Before(r.path, a.path)
  }

  /** An override can be moved to the front past others of its path that set the same value. */
  lemma {:induction false} MoveSameToFront(root: Value, os: seq<Override>, k: nat)
    requires k < |os|
    requires forall j :: 0 <= j < k ==> os[j].path != os[k].path || os[j].leaf == os[k].leaf
    ensures SetAll(root, os) == SetAll(SetNested(root, os[k].path, os[k].leaf), os[..k] + os[k + 1..])
    decreases |os|
  {
    if k == 0 {
      assert os[..0] + os[1..] == os[1..];
    } else {
      var o, first, rest := os[k], os[0], os[1..];
      MoveSameToFront(SetNested(root, first.path, first.leaf), rest, k - 1);
      OverridesCommute(root, first.path, o.path, first.leaf, o.leaf);
      var without := os[..k] + os[k + 1..];
      assert without[0] == first && without[1..] == rest[..k - 1] + rest[k..];
    }
  }

  lemma {:induction false} AllBlocked(root: Value, os: seq<Override>)
    requires forall o :: o in os ==> Blocked(root, o.path)
    ensures SetAll(root, os) == root
    decreases |os|
  {
    if os != [] {
      BlockedUnchanged(root, os[0].path, os[0].leaf);
      AllBlocked(root, os[1..]);
    }
  }

  /** An override with a shortest unblocked path. */
  lemma {:induction false} Shortest(root: Value, os: seq<Override>) returns (o: Override)
    requires exists x :: x in os && !Blocked(root, x.path)
    ensures o in os && !Blocked(root, o.path)
    ensures forall x :: x in os && !Blocked(root, x.path) ==> |o.path| <= |x.path|
    decreases |os|
  {
    var rest := os[1..];
    assert forall x :: x in os <==> x == os[0] || x in rest;
    if exists x :: x in rest && !Blocked(root, x.path) {
      o := Shortest(root, rest);
      if !Blocked(root, os[0].path) && |os[0].path| < |o.path| {
        o := os[0];
      }
    } else {
      o := os[0];
    }
  }

  /** No beginning of a shortest unblocked path is overridden, so all overrides of it agree. */
  lemma {:induction false} ShortestAgrees(root: Value, os: seq<Override>, o: Override, x: Override)
    requires Settled(root, os) && o in os && x in os && x.path == o.path && !Blocked(root, o.path)
    requires forall y :: y in os && !Blocked(root, y.path) ==> |o.path| <= |y.path|
    ensures x.leaf == o.leaf
  {
    forall r | r in os ensures !Before(r.path, o.path) {
      if Before(r.path, o.path) {
        BeginningBlocks(root, r.path, o.path, r.leaf);
        assert false;
      }
    }
  }

  lemma {:induction false} RemoveMember(os: seq<Override>, k: nat, x: Override)
    requires k < |os|
    ensures x in os[..k] + os[k + 1..] ==> x in os
    ensures x in os ==> x == os[k] || x in os[..k] + os[k + 1..]
  {
    var rest := os[..k] + os[k + 1..];
    if x in os {
      var i :| 0 <= i < |os| && os[i] == x;
      if i < k {
        assert rest[i] == x;
      } else if i > k {
        assert rest[i - 1] == x;
      }
    }
  }

  lemma {:induction false} StillSettled(root: Value, os: seq<Override>, k: nat, rest: seq<Override>)
    requires Settled(root, os) && k < |os| && !Blocked(root, os[k].path) && rest == os[..k] + os[k + 1..]
    ensures Settled(SetNested(root, os[k].path, os[k].leaf), rest)
  {
    var q, leaf := os[k].path, os[k].leaf;
    var root1 := SetNested(root, q, leaf);
    forall a, b | a in rest && b in rest && a.path == b.path && a.leaf != b.leaf
      ensures Blocked(root1, a.path) || exists r :: r in rest && Before(r.path, a.path)
    {
      RemoveMember(os, k, a);
      RemoveMember(os, k, b);
      if Blocked(root, a.path) {
        BlockedStays(root, a.path, q, leaf);
      } else {
        var r :| r in os && Before(r.path, a.path);
        RemoveMember(os, k, r);
        if r !in rest {
          BeginningBlocks(root, q, a.path, leaf);
        }
      }
    }
  }

  lemma {:induction false} SameMembers(xs: seq<Override>, ys: seq<Override>, x: Override)
    requires multiset(xs) == multiset(ys)
    ensures x in xs <==> x in ys
  {
    assert x in xs <==> x in multiset(xs);
    assert x in ys <==> x in multiset(ys);
  }

  /** Taking one copy of a shortest unblocked override out and setting it first changes nothing. */
  lemma {:induction false} TakeShortest(root: Value, os: seq<Override>, o: Override)
      returns (rest: seq<Override>)
    requires Settled(root, os) && o in os && !Blocked(root, o.path)
    requires forall y :: y in os && !Blocked(root, y.path) ==> |o.path| <= |y.path|
    ensures SetAll(root, os) == SetAll(SetNested(root, o.path, o.leaf), rest)
    ensures multiset(rest) == multiset(os) - multiset{o} && |rest| < |os|
    ensures Settled(SetNested(root, o.path, o.leaf), rest)
  {
    var k :| 0 <= k < |os| && os[k] == o;
    rest := os[..k] + os[k + 1..];
    forall j | 0 <= j < k ensures os[j].path != o.path || os[j].leaf == o.leaf {
      if os[j].path == o.path {
        ShortestAgrees(root, os, o, os[j]);
      }
    }
    MoveSameToFront(root, os, k);
    RemoveAt(os, k);
    StillSettled(root, os, k, rest);
  }

  lemma {:induction false} SettledInOther(root: Value, xs: seq<Override>, ys: seq<Override>)
    requires multiset(xs) == multiset(ys) && Settled(root, xs)
    ensures Settled(root, ys)
  {
    forall x ensures x in xs <==> x in ys {
      SameMembers(xs, ys, x);
    }
  }

  lemma {:induction false} SettledSame(root: Value, xs: seq<Override>, ys: seq<Override>)
    requires multiset(xs) == multiset(ys) && Settled(root, xs)
    ensures SetAll(root, xs) == SetAll(root, ys)
    decreases |xs|
  {
    SettledInOther(root, xs, ys);
    forall x ensures x in xs <==> x in ys {
      SameMembers(xs, ys, x);
    }
    if exists x :: x in xs && !Blocked(root, x.path) {
      var o := Shortest(root, xs);
      var a := TakeShortest(root, xs, o);
      var b := TakeShortest(root, ys, o);
      SettledSame(SetNested(root, o.path, o.leaf), a, b);
    } else {
      AllBlocked(root, xs);
      AllBlocked(root, ys);
    }
  }

  lemma {:induction false} UnblockedThroughout(root: Value, os: seq<Override>, p: Path)
    requires !Blocked(root, p) && forall o :: o in os ==> !Before(o.path, p)
    ensures !Blocked(SetAll(root, os), p)
    decreases |os|
  {
    if os != [] {
      assert os[0] in os;
      UnblockedStays(root, p, os[0].path, os[0].leaf);
      UnblockedThroughout(SetNested(root, os[0].path, os[0].leaf), os[1..], p);
    }
  }

  lemma {:induction false} SetAllLast(root: Value, os: seq<Override>, o: Override)
    ensures SetAll(root, os + [o]) == SetNested(SetAll(root, os), o.path, o.leaf)
    decreases |os|
  {
    if os == [] {
      assert os + [o] == [o] && [o][1..] == [];
      assert SetAll(SetNested(root, o.path, o.leaf), []) == SetNested(root, o.path, o.leaf);
    } else {
      assert (os + [o])[0] == os[0] && (os + [o])[1..] == os[1..] + [o];
      SetAllLast(SetNested(root, os[0].path, os[0].leaf), os[1..], o);
    }
  }

  /** The order in which a given override comes last. */
  lemma {:induction false} PutLast(root: Value, os: seq<Override>, o: Override) returns (ys: seq<Override>)
    requires o in os && !Blocked(root, o.path) && forall x :: x in os ==> !Before(x.path, o.path)
    ensures multiset(ys) == multiset(os) && Get(SetAll(root, ys), o.path) == Some(Scalar(o.leaf))
  {
    var k :| 0 <= k < |os| && os[k] == o;
    var rest := os[..k] + os[k + 1..];
    ys := rest + [o];
    RemoveAt(os, k);
    forall x | x in rest ensures !Before(x.path, o.path) {
      RemoveMember(os, k, x);
    }
    UnblockedThroughout(root, rest, o.path);
    SetAllLast(root, rest, o);
    SetThenGet(SetAll(root, rest), o.path, o.leaf);
  }

  /**
   Any number of overrides gives one tree in every order if and only if wherever two of them set one
   path to different values the path is blocked or something at its beginning is overridden as well.
   */
  lemma {:induction false} OrderIrrelevantIff(root: Value, os: seq<Override>)
    ensures (forall ys :: multiset(ys) == multiset(os) ==> SetAll(root, ys) == SetAll(root, os)) <==> Settled(root, os)
  {
    if Settled(root, os) {
      forall ys | multiset(ys) == multiset(os) ensures SetAll(root, ys) == SetAll(root, os) {
        SettledSame(root, os, ys);
      }
    } else {
      var a, b :| a in os && b in os && a.path == b.path && a.leaf != b.leaf
                  && !Blocked(root, a.path) && !exists r :: r in os && Before(r.path, a.path);
      var xs := PutLast(root, os, a);
      var ys := PutLast(root, os, b);
      assert SetAll(root, xs) != SetAll(root, ys);
    }
  }

  // ----- the environment -----

  const PREFIX: string := "RINFRA_"

  /** The pieces between double underscores, found from the left. */
  function Split(s: string): (pieces: seq<string>)
    ensures pieces != []
    decreases |s|
  {
    if |s| >= 2 && s[0] == '_' && s[1] == '_' then [""] + Split(s[2..])
    else if s == "" then [""]
    else
      var later := Split(s[1..]);
      [[s[0]] + later[0]] + later[1..]
  }

  function Join(pieces: seq<string>): string {
    if pieces == [] then ""
    else if |pieces| == 1 then pieces[0]
    else pieces[0] + "__" + Join(pieces[1..])
  }

  lemma {:induction false} JoinDelimiter(pieces: seq<string>)
    requires pieces != []
    ensures Join([""] + pieces) == "__" + Join(pieces)
  {
    assert ([""] + pieces)[1..] == pieces;
    assert "" + "__" == "__";
  }

  lemma {:induction false} JoinLonger(c: char, pieces: seq<string>)
    requires pieces != []
    ensures Join([[c] + pieces[0]] + pieces[1..]) == [c] + Join(pieces)
  {
    var longer := [[c] + pieces[0]] + pieces[1..];
    assert longer[1..] == pieces[1..];
    if |pieces| > 1 {
      Regroup([c], pieces[0], "__", Join(pieces[1..]));
    }
  }

  lemma {:induction false} Regroup(a: string, b: string, c: string, d: string)
    ensures (a + b) + c + d == a + (b + c + d)
  {
  }

  /** Nothing of a name is lost by splitting it. */
  lemma {:induction false} JoinOfSplit(s: string)
    ensures Join(Split(s)) == s
    decreases |s|
  {
    if |s| >= 2 && s[0] == '_' && s[1] == '_' {
      JoinOfSplit(s[2..]);
      JoinDelimiter(Split(s[2..]));
      assert s == "__" + s[2..];
    } else if s != "" {
      JoinOfSplit(s[1..]);
      JoinLonger(s[0], Split(s[1..]));
      assert s == [s[0]] + s[1..];
    }
  }

  ghost predicate Separated(s: string) {
    exists i :: 0 <= i < |s| - 1 && s[i] == '_' && s[i + 1] == '_'
  }

  lemma {:induction false} FirstPieceStart(s: string)
    ensures Split(s)[0] != "" ==> s != "" && Split(s)[0][0] == s[0]
    ensures |s| >= 2 && s[0] == '_' && s[1] == '_' ==> Split(s)[0] == ""
  {
  }

  /** No piece holds the separator: a name is split wherever it can be. */
  lemma {:induction false} PiecesNotSeparated(s: string, i: nat)
    requires i < |Split(s)|
    ensures !Separated(Split(s)[i])
    decreases |s|
  {
    if |s| >= 2 && s[0] == '_' && s[1] == '_' {
      if i > 0 {
        PiecesNotSeparated(s[2..], i - 1);
      }
    } else if s != "" {
      var later := Split(s[1..]);
      PiecesNotSeparated(s[1..], i);
      if i == 0 {
        FirstPieceStart(s[1..]);
        LongerNotSeparated(s[0], later[0]);
      } else {
        assert Split(s)[i] == later[i];
      }
    }
  }

  lemma {:induction false} LongerNotSeparated(c: char, piece: string)
    requires !Separated(piece) && !(c == '_' && piece != "" && piece[0] == '_')
    ensures !Separated([c] + piece)
  {
    var longer := [c] + piece;
    forall i | 0 <= i < |longer| - 1 ensures !(longer[i] == '_' && longer[i + 1] == '_') {
      if i > 0 {
        assert longer[i] == piece[i - 1] && longer[i + 1] == piece[i - 1 + 1];
      }
    }
  }

  /** Cut from the left: no piece holds the separator, and none but the last ends with half of one. */
  ghost predicate WellCut(pieces: seq<string>) {
    && pieces != []
    && (forall i :: 0 <= i < |pieces| ==> !Separated(pieces[i]))
    && (forall i :: 0 <= i < |pieces| - 1 ==> pieces[i] == "" || pieces[i][|pieces[i]| - 1] != '_')
  }

  lemma {:induction false} TailNotSeparated(p: string)
    requires p != "" && !Separated(p)
    ensures !Separated(p[1..])
  {
    forall i | 0 <= i < |p| - 2 ensures !(p[1..][i] == '_' && p[1..][i + 1] == '_') {
      assert p[1..][i] == p[i + 1] && p[1..][i + 1] == p[i + 1 + 1];
    }
  }

  lemma {:induction false} WellCutFirst(pieces: seq<string>, shorter: seq<string>)
    requires WellCut(pieces) && pieces[0] != "" && shorter == [pieces[0][1..]] + pieces[1..]
    ensures WellCut(shorter) && pieces == [[pieces[0][0]] + shorter[0]] + shorter[1..]
    ensures Join(pieces) == [pieces[0][0]] + Join(shorter)
    ensures !(pieces[0][0] == '_' && Join(shorter) != "" && Join(shorter)[0] == '_')
  {
    var p, rest := pieces[0], pieces[0][1..];
    assert p == [p[0]] + rest;
    assert shorter[1..] == pieces[1..];
    JoinLonger(p[0], shorter);
    TailNotSeparated(p);
    if rest != "" {
      assert !(p[0] == '_' && p[0 + 1] == '_');
    }
  }

  /** Joining undoes splitting and splitting undoes joining: the pieces of a name are the only ones cut from the left. */
  lemma {:induction false} SplitOfJoin(pieces: seq<string>)
    requires WellCut(pieces)
    ensures Split(Join(pieces)) == pieces
    decreases |Join(pieces)|
  {
    var s := Join(pieces);
    if pieces[0] != "" {
      var shorter := [pieces[0][1..]] + pieces[1..];
      WellCutFirst(pieces, shorter);
      assert s[1..] == Join(shorter);
      SplitOfJoin(shorter);
    } else if |pieces| > 1 {
      assert s == "__" + Join(pieces[1..]);
      assert s[2..] == Join(pieces[1..]);
      SplitOfJoin(pieces[1..]);
      assert pieces == [""] + pieces[1..];
    }
  }

  function Lowered(lower: string -> string, pieces: seq<string>): seq<string> {
    if pieces == [] then [] else [lower(pieces[0])] + Lowered(lower, pieces[1..])
  }

  /** The override a variable stands for, if it has the prefix and something after it. */
  function OverrideOf(lower: string -> string, read: string -> Leaf, name: string, value: string): Option<Override> {
    if PREFIX < name then Some(Override(Lowered(lower, Split(name[|PREFIX|..])), read(value))) else None
  }

  lemma {:induction false} LoweredAt(lower: string -> string, pieces: seq<string>, i: nat)
    requires i < |pieces|
    ensures |Lowered(lower, pieces)| == |pieces| && Lowered(lower, pieces)[i] == lower(pieces[i])
  {
    if |pieces| > 1 {
      LoweredAt(lower, pieces[1..], if i > 0 then i - 1 else 0);
    } else {
      assert Lowered(lower, pieces[1..]) == [];
    }
  }

  /** `RINFRA_` and the pieces with double underscores between them name the path of the lower-case pieces, in order. */
  lemma {:induction false} VariableNamesPath(
      lower: string -> string, read: string -> Leaf, pieces: seq<string>, path: Path, value: string)
    requires WellCut(pieces) && Join(pieces) != ""
    requires |path| == |pieces| && forall i :: 0 <= i < |path| ==> path[i] == lower(pieces[i])
    ensures OverrideOf(lower, read, "RINFRA_" + Join(pieces), value) == Some(Override(path, read(value)))
  {
    var name := "RINFRA_" + Join(pieces);
    SplitOfJoin(pieces);
    assert |PREFIX| == 7 && name[..7] == PREFIX && name[7..] == Join(pieces);
    LoweredAt(lower, pieces, 0);
    forall i | 0 <= i < |pieces| ensures Lowered(lower, pieces)[i] == path[i] {
      LoweredAt(lower, pieces, i);
    }
    assert Lowered(lower, pieces) == path;
  }

  /** No other variable is an override. */
  lemma {:induction false} OverrideIff(lower: string -> string, read: string -> Leaf, name: string, value: string)
    ensures OverrideOf(lower, read, name, value).Some? <==> |name| > 7 && name[..7] == "RINFRA_"
  {
  }

  function Overrides(lower: string -> string, read: string -> Leaf, vars: seq<(string, string)>): seq<Override> {
    if vars == [] then []
    else
      var o := OverrideOf(lower, read, vars[0].0, vars[0].1);
      (if o.Some? then [o.value] else []) + Overrides(lower, read, vars[1..])
  }

  lemma {:induction false} NextVariable(
      lower: string -> string, read: string -> Leaf, vars: seq<(string, string)>, i: nat, root: Value)
    requires i < |vars|
    ensures
      var o := OverrideOf(lower, read, vars[i].0, vars[i].1);
      var all, later := Overrides(lower, read, vars[i..]), Overrides(lower, read, vars[i + 1..]);
      && |all| == |later| + (if o.Some? then 1 else 0)
      && SetAll(root, all) == (if o.Some? then SetAll(SetNested(root, o.value.path, o.value.leaf), later) else SetAll(root, later))
  {
    assert vars[i..][0] == vars[i] && vars[i..][1..] == vars[i + 1..];
    var o, later := OverrideOf(lower, read, vars[i].0, vars[i].1), Overrides(lower, read, vars[i + 1..]);
    if o.Some? {
      assert ([o.value] + later)[1..] == later;
    } else {
      assert [] + later == later;
    }
  }

  method MergeEnvIntoValue(lower: string -> string, read: string -> Leaf, vars: seq<(string, string)>, value: Value)
    returns (merged: Value, count: nat)
    ensures merged == SetAll(value, Overrides(lower, read, vars))
    ensures count == |Overrides(lower, read, vars)|
  {
    merged, count := value, 0;
    var i := 0;
    while i < |vars|
      invariant 0 <= i <= |vars|
      invariant SetAll(merged, Overrides(lower, read, vars[i..])) == SetAll(value, Overrides(lower, read, vars))
      invariant count + |Overrides(lower, read, vars[i..])| == |Overrides(lower, read, vars)|
    {
      var name, text := vars[i].0, vars[i].1;
      NextVariable(lower, read, vars, i, merged);
      if PREFIX <= name {
        var stripped := name[|PREFIX|..];
        if stripped != "" {
          var segments := Lowered(lower, Split(stripped));
          merged := SetNested(merged, segments, read(text));
          count := count + 1;
        }
      }
      i := i + 1;
    }
  }

  lemma {:induction false} Concatenated(a: seq<Override>, b: seq<Override>, c: seq<Override>)
    ensures a + (b + c) == (a + b) + c
  {
  }

  lemma {:induction false} OverridesAppend(
      lower: string -> string, read: string -> Leaf, a: seq<(string, string)>, b: seq<(string, string)>)
    ensures Overrides(lower, read, a + b) == Overrides(lower, read, a) + Overrides(lower, read, b)
    decreases |a|
  {
    if a == [] {
      assert a + b == b;
    } else {
      assert (a + b)[0] == a[0] && (a + b)[1..] == a[1..] + b;
      OverridesAppend(lower, read, a[1..], b);
      var o := OverrideOf(lower, read, a[0].0, a[0].1);
      Concatenated(if o.Some? then [o.value] else [], Overrides(lower, read, a[1..]), Overrides(lower, read, b));
    }
  }

  lemma {:induction false} OverridesAround(
      lower: string -> string, read: string -> Leaf, a: seq<(string, string)>, x: (string, string), b: seq<(string, string)>)
    ensures multiset(Overrides(lower, read, a + ([x] + b))) ==
            multiset(Overrides(lower, read, [x])) + multiset(Overrides(lower, read, a + b))
  {
    OverridesAppend(lower, read, a, [x] + b);
    OverridesAppend(lower, read, [x], b);
    OverridesAppend(lower, read, a, b);
  }

  lemma {:induction false} OverridesWithout(lower: string -> string, read: string -> Leaf, s: seq<(string, string)>, k: nat)
    requires k < |s|
    ensures multiset(Overrides(lower, read, s)) ==
            multiset(Overrides(lower, read, [s[k]])) + multiset(Overrides(lower, read, s[..k] + s[k + 1..]))
  {
    assert s == s[..k] + ([s[k]] + s[k + 1..]);
    OverridesAround(lower, read, s[..k], s[k], s[k + 1..]);
  }

  lemma {:induction false} OverridesPermuted(
      lower: string -> string, read: string -> Leaf, xs: seq<(string, string)>, ys: seq<(string, string)>)
    requires multiset(xs) == multiset(ys)
    ensures multiset(Overrides(lower, read, xs)) == multiset(Overrides(lower, read, ys))
    decreases |xs|
  {
    if xs == [] {
      assert |multiset(ys)| == 0;
      assert ys == [];
    } else {
      var k := SameRest(xs, ys);
      OverridesPermuted(lower, read, xs[1..], ys[..k] + ys[k + 1..]);
      OverridesWithout(lower, read, ys, k);
      OverridesWithout(lower, read, xs, 0);
      assert xs[..0] + xs[1..] == xs[1..];
    }
  }

  lemma {:induction false} VariableOf(
      lower: string -> string, read: string -> Leaf, vars: seq<(string, string)>, o: Override) returns (k: nat)
    requires o in Overrides(lower, read, vars)
    ensures k < |vars| && OverrideOf(lower, read, vars[k].0, vars[k].1) == Some(o)
    decreases |vars|
  {
    var first := OverrideOf(lower, read, vars[0].0, vars[0].1);
    if first == Some(o) {
      k := 0;
    } else {
      k := VariableOf(lower, read, vars[1..], o);
      k := k + 1;
    }
  }

  lemma {:induction false} RemoveVariable(vars: seq<(string, string)>, k: nat)
    requires k < |vars|
    ensures multiset(vars[..k] + vars[k + 1..] + [vars[k]]) == multiset(vars)
  {
    assert vars == vars[..k] + ([vars[k]] + vars[k + 1..]);
  }

  /** The order of the variables in which the one that stands for a given override comes last. */
  lemma {:induction false} PutVariableLast(
      lower: string -> string, read: string -> Leaf, root: Value, vars: seq<(string, string)>, o: Override)
      returns (vars': seq<(string, string)>)
    requires o in Overrides(lower, read, vars) && !Blocked(root, o.path)
    requires forall x :: x in Overrides(lower, read, vars) ==> !Before(x.path, o.path)
    ensures multiset(vars') == multiset(vars)
    ensures Get(SetAll(root, Overrides(lower, read, vars')), o.path) == Some(Scalar(o.leaf))
  {
    var k := VariableOf(lower, read, vars, o);
    var rest := vars[..k] + vars[k + 1..];
    vars' := rest + [vars[k]];
    RemoveVariable(vars, k);
    OverridesAppend(lower, read, rest, [vars[k]]);
    assert [vars[k]][1..] == [] && Overrides(lower, read, [vars[k]]) == [o];
    var os := Overrides(lower, read, rest);
    OverridesPermuted(lower, read, vars', vars);
    forall x | x in os ensures !Before(x.path, o.path) {
      assert x in os + [o];
      SameMembers(Overrides(lower, read, vars'), Overrides(lower, read, vars), x);
    }
    UnblockedThroughout(root, os, o.path);
    SetAllLast(root, os, o);
    SetThenGet(SetAll(root, os), o.path, o.leaf);
  }

  /**
   The order in which the environment lists its variables does not matter if and only if wherever two
   of them give one path different values the path is blocked or a beginning of it is given as well.
   */
  lemma {:induction false} EnvironmentOrderIrrelevant(
      lower: string -> string, read: string -> Leaf, root: Value, vars: seq<(string, string)>)
    ensures (forall vars' :: multiset(vars') == multiset(vars) ==>
               SetAll(root, Overrides(lower, read, vars')) == SetAll(root, Overrides(lower, read, vars)))
            <==> Settled(root, Overrides(lower, read, vars))
  {
    var os := Overrides(lower, read, vars);
    if Settled(root, os) {
      forall vars' | multiset(vars') == multiset(vars)
        ensures SetAll(root, Overrides(lower, read, vars')) == SetAll(root, os)
      {
        OverridesPermuted(lower, read, vars, vars');
        SettledSame(root, os, Overrides(lower, read, vars'));
      }
    } else {
      var a, b :| a in os && b in os && a.path == b.path && a.leaf != b.leaf
                  && !Blocked(root, a.path) && !exists r :: r in os && Before(r.path, a.path);
      var xs := PutVariableLast(lower, read, root, vars, a);
      var ys := PutVariableLast(lower, read, root, vars, b);
      assert SetAll(root, Overrides(lower, read, xs)) != SetAll(root, Overrides(lower, read, ys));
    }
  }

  /** The last variable of the environment is what its path holds afterwards, unless something blocks the path. */
  lemma {:induction false} LastVariableHolds(
      lower: string -> string, read: string -> Leaf, root: Value, vars: seq<(string, string)>, pieces: seq<string>,
      path: Path, value: string)
    requires WellCut(pieces) && Join(pieces) != ""
    requires |path| == |pieces| && forall i :: 0 <= i < |path| ==> path[i] == lower(pieces[i])
    requires !Blocked(SetAll(root, Overrides(lower, read, vars)), path)
    ensures Get(SetAll(root, Overrides(lower, read, vars + [("RINFRA_" + Join(pieces), value)])), path)
         == Some(Scalar(read(value)))
  {
    var variable, o := ("RINFRA_" + Join(pieces), value), Override(path, read(value));
    VariableNamesPath(lower, read, pieces, path, value);
    OverridesAppend(lower, read, vars, [variable]);
    assert [variable][1..] == [] && Overrides(lower, read, [variable]) == [o];
    SetAllLast(root, Overrides(lower, read, vars), o);
    SetThenGet(SetAll(root, Overrides(lower, read, vars)), path, o.leaf);
  }

  /** Names that differ only in case name one path, and then the order decides. */
  lemma {:induction false} CaseCollision(lower: string -> string, read: string -> Leaf, one: string, two: string)
    requires lower("A") == "a" && lower("a") == "a" && read(one) != read(two)
    ensures
      var xs := [("RINFRA_A", one), ("RINFRA_a", two)];
      var ys := [("RINFRA_a", two), ("RINFRA_A", one)];
      SetAll(Object(map[]), Overrides(lower, read, xs)) != SetAll(Object(map[]), Overrides(lower, read, ys))
  {
    var a, b := ("RINFRA_A", one), ("RINFRA_a", two);
    var oa, ob := Override(["a"], read(one)), Override(["a"], read(two));
    OneLetter(lower, read, 'A', one);
    OneLetter(lower, read, 'a', two);
    TwoOverrides(lower, read, a, b, oa, ob);
    TwoOverrides(lower, read, b, a, ob, oa);
    OverridesCommute(Object(map[]), ["a"], ["a"], read(one), read(two));
  }

  lemma {:induction false} OneLetter(lower: string -> string, read: string -> Leaf, c: char, value: string)
    requires c != '_' && lower([c]) == "a"
    ensures OverrideOf(lower, read, PREFIX + [c], value) == Some(Override(["a"], read(value)))
  {
    var name := PREFIX + [c];
    assert name[..|PREFIX|] == PREFIX && name[|PREFIX|..] == [c];
    SplitOne(c);
    assert [[c]][1..] == [];
    assert Lowered(lower, []) == [];
    assert Lowered(lower, [[c]]) == ["a"];
  }

  lemma {:induction false} TwoOverrides(
      lower: string -> string, read: string -> Leaf, a: (string, string), b: (string, string), oa: Override, ob: Override)
    requires OverrideOf(lower, read, a.0, a.1) == Some(oa) && OverrideOf(lower, read, b.0, b.1) == Some(ob)
    ensures forall root :: SetAll(root, Overrides(lower, read, [a, b])) ==
                           SetNested(SetNested(root, oa.path, oa.leaf), ob.path, ob.leaf)
  {
    assert [a, b][1..] == [b] && [b][1..] == [];
    assert Overrides(lower, read, []) == [];
    assert Overrides(lower, read, [b]) == [ob];
    assert Overrides(lower, read, [a, b]) == [oa, ob];
    forall root
      ensures SetAll(root, [oa, ob]) == SetNested(SetNested(root, oa.path, oa.leaf), ob.path, ob.leaf)
    {
      assert [oa, ob][1..] == [ob] && [ob][1..] == [];
      var one := SetNested(root, oa.path, oa.leaf);
      assert SetAll(one, [ob]) == SetAll(SetNested(one, ob.path, ob.leaf), []);
    }
  }

  lemma {:induction false} SplitOne(c: char)
    requires c != '_'
    ensures Split([c]) == [[c]]
  {
    assert [c][1..] == "" && Split("") == [""];
    assert [""][1..] == [] && [c] + "" == [c];
  }
}
