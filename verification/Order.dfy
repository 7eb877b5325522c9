/** Total orders, and the two ways the engine sorts: a set into a list, and a list by a key. */
module Order {

  ghost predicate Total<T(!new)>(le: (T, T) -> bool) {
    forall a, b :: le(a, b) || le(b, a)
  }

  ghost predicate Transitive<T(!new)>(le: (T, T) -> bool) {
    forall a, b, c :: le(a, b) && le(b, c) ==> le(a, c)
  }

  ghost predicate AntiSymmetric<T(!new)>(le: (T, T) -> bool) {
    forall a, b :: le(a, b) && le(b, a) ==> a == b
  }

  ghost predicate TotalOrder<T(!new)>(le: (T, T) -> bool) {
    Total(le) && Transitive(le) && AntiSymmetric(le)
  }

  ghost predicate Sorted<T>(s: seq<T>, le: (T, T) -> bool) {
    forall i, j :: 0 <= i < j < |s| ==> le(s[i], s[j])
  }

  predicate NoDup<T(==)>(s: seq<T>) {
    forall i, j :: 0 <= i < j < |s| ==> s[i] != s[j]
  }

  function Elems<T(==)>(s: seq<T>): (r: set<T>) {
    set x | x in s
  }

  // ---------------------------------------------------------------- lexicographic order

  /** Lexicographic order on lists, the order Python puts on strings and on lists. */
  predicate Lex<T(==)>(le: (T, T) -> bool, a: seq<T>, b: seq<T>) {
    if a == [] then true
    else if b == [] then false
    else if a[0] == b[0] then Lex(le, a[1..], b[1..])
    else le(a[0], b[0])
  }

  lemma {:induction false} LexTotal<T(!new)>(le: (T, T) -> bool, a: seq<T>, b: seq<T>)
    requires TotalOrder(le)
    ensures Lex(le, a, b) || Lex(le, b, a)
  {
    if a != [] && b != [] && a[0] == b[0] { LexTotal(le, a[1..], b[1..]); }
  }

  lemma {:induction false} LexAntiSymmetric<T(!new)>(le: (T, T) -> bool, a: seq<T>, b: seq<T>)
    requires TotalOrder(le) && Lex(le, a, b) && Lex(le, b, a)
    ensures a == b
  {
    if a != [] && b != [] && a[0] == b[0] {
      LexAntiSymmetric(le, a[1..], b[1..]);
      assert a == [a[0]] + a[1..] && b == [b[0]] + b[1..];
    }
  }

  lemma {:induction false} LexTransitive<T(!new)>(le: (T, T) -> bool, a: seq<T>, b: seq<T>, c: seq<T>)
    requires TotalOrder(le) && Lex(le, a, b) && Lex(le, b, c)
    ensures Lex(le, a, c)
  {
    if a != [] && b != [] && c != [] && a[0] == b[0] && b[0] == c[0] {
      LexTransitive(le, a[1..], b[1..], c[1..]);
    }
  }

  function Min(a: int, b: int): int { if a <= b then a else b }

  predicate CharLe(a: char, b: char) { a <= b }

  predicate NatLe(a: nat, b: nat) { a <= b }

  predicate NameLe(a: string, b: string) { Lex(CharLe, a, b) }

  predicate NamesLe(a: seq<string>, b: seq<string>) { Lex(NameLe, a, b) }

  lemma NatOrder()
    ensures TotalOrder(NatLe)
  {}

  lemma NameOrder()
    ensures TotalOrder(NameLe)
  {
    forall a: string, b: string ensures NameLe(a, b) || NameLe(b, a) { LexTotal(CharLe, a, b); }
    forall a: string, b: string | NameLe(a, b) && NameLe(b, a) ensures a == b { LexAntiSymmetric(CharLe, a, b); }
    forall a: string, b: string, c: string | NameLe(a, b) && NameLe(b, c) ensures NameLe(a, c) {
      LexTransitive(CharLe, a, b, c);
    }
  }

  lemma NamesOrder()
    ensures TotalOrder(NamesLe)
  {
    NameOrder();
    forall a: seq<string>, b: seq<string> ensures NamesLe(a, b) || NamesLe(b, a) { LexTotal(NameLe, a, b); }
    forall a: seq<string>, b: seq<string> | NamesLe(a, b) && NamesLe(b, a) ensures a == b {
      LexAntiSymmetric(NameLe, a, b);
    }
    forall a: seq<string>, b: seq<string>, c: seq<string> | NamesLe(a, b) && NamesLe(b, c) ensures NamesLe(a, c) {
      LexTransitive(NameLe, a, b, c);
    }
  }

  // ---------------------------------------------------------------- sorting a set

  lemma {:induction false} LeastExists<T(!new)>(s: set<T>, le: (T, T) -> bool)
    requires s != {} && TotalOrder(le)
    ensures exists m :: m in s && forall x :: x in s ==> le(m, x)
  {
    hide TotalOrder;
    var y :| y in s;
    var rest := s - {y};
    Comparable(le, y, y);
    if rest != {} {
      LeastExists(rest, le);
      var m :| m in rest && forall x :: x in rest ==> le(m, x);
      Comparable(le, y, m);
      if le(y, m) {
        forall x | x in rest ensures le(y, x) { Chained(le, y, m, x); }
        assert forall x :: x in s ==> x == y || x in rest;
      } else {
        assert forall x :: x in s ==> x == y || x in rest;
      }
    } else {
      assert forall x :: x in s ==> x == y || x in rest;
    }
  }

  lemma Comparable<T(!new)>(le: (T, T) -> bool, a: T, b: T)
    requires TotalOrder(le)
    ensures le(a, b) || le(b, a)
  {}

  lemma Chained<T(!new)>(le: (T, T) -> bool, a: T, b: T, c: T)
    requires TotalOrder(le) && le(a, b) && le(b, c)
    ensures le(a, c)
  {}

  function Least<T(==, !new)>(s: set<T>, le: (T, T) -> bool): (m: T)
    requires s != {} && TotalOrder(le)
    ensures m in s && forall x :: x in s ==> le(m, x)
  {
    LeastExists(s, le);
    var m :| m in s && forall x :: x in s ==> le(m, x);
    m
  }

  /** `sorted(s)` of a set. */
  function SortedOf<T(==, !new)>(s: set<T>, le: (T, T) -> bool): (r: seq<T>)
    requires TotalOrder(le)
    ensures |r| == |s| && (forall x :: x in r <==> x in s)
    ensures Sorted(r, le) && NoDup(r)
  {
    if s == {} then []
    else
      var m := Least(s, le);
      [m] + SortedOf(s - {m}, le)
  }

  /** The highest number in use, 0 if there is none. */
  function Highest(s: set<nat>): (m: nat)
    ensures (forall x :: x in s ==> x <= m) && (s != {} ==> m in s) && (s == {} ==> m == 0)
  {
    NatOrder();
    var r := SortedOf(s, NatLe);
    if r == [] then 0
    else
      assert r[|r|-1] in r;
      assert forall x :: x in s ==> x in r && x <= r[|r|-1];
      r[|r|-1]
  }

  lemma NonEmptyHasElem<T>(s: seq<T>)
    ensures s == [] || exists x :: x in s
  {
    if s != [] { assert s[0] in s; }
  }

  /** A sorted duplicate-free list is the only one with its elements. */
  lemma {:induction false} SortedUnique<T(!new)>(a: seq<T>, b: seq<T>, le: (T, T) -> bool)
    requires TotalOrder(le) && Sorted(a, le) && Sorted(b, le) && NoDup(a) && NoDup(b)
    requires forall x :: x in a <==> x in b
    ensures a == b
  {
    if a == [] {
      NonEmptyHasElem(b);
    } else {
      assert a[0] in b;
      assert b != [] && b[0] in a;
      var i :| 0 <= i < |a| && a[i] == b[0];
      var j :| 0 <= j < |b| && b[j] == a[0];
      assert le(a[0], a[0]) && a[0] == b[0];
      forall x ensures x in a[1..] <==> x in b[1..] {
        if x in a[1..] { var k :| 1 <= k < |a| && a[k] == x; assert x in b && x != b[0]; }
        if x in b[1..] { var k :| 1 <= k < |b| && b[k] == x; assert x in a && x != a[0]; }
      }
      SortedUnique(a[1..], b[1..], le);
      assert a == [a[0]] + a[1..] && b == [b[0]] + b[1..];
    }
  }

  // ---------------------------------------------------------------- sorting a list by a key

  function Insert<T>(x: T, s: seq<T>, le: (T, T) -> bool): (r: seq<T>)
    ensures multiset(r) == multiset{x} + multiset(s)
  {
    if s == [] then [x]
    else if le(x, s[0]) then [x] + s
    else
      assert s == [s[0]] + s[1..];
      [s[0]] + Insert(x, s[1..], le)
  }

  /** Stable `sorted(s, key=...)`, where `le` compares the keys. */
  function SortBy<T>(s: seq<T>, le: (T, T) -> bool): (r: seq<T>)
    ensures multiset(r) == multiset(s)
  {
    if s == [] then []
    else
      assert s == [s[0]] + s[1..];
      Insert(s[0], SortBy(s[1..], le), le)
  }

  lemma {:induction false} InsertSorted<T(!new)>(x: T, s: seq<T>, le: (T, T) -> bool)
    requires Total(le) && Transitive(le) && Sorted(s, le)
    ensures Sorted(Insert(x, s, le), le)
  {
    if s != [] && !le(x, s[0]) {
      var r := Insert(x, s[1..], le);
      assert Sorted(s[1..], le);
      InsertSorted(x, s[1..], le);
      assert le(s[0], x);
      hide Total, Transitive;
      forall i | 0 <= i < |r| ensures le(s[0], r[i]) {
        assert r[i] in multiset(r);
        assert r[i] == x || r[i] in s[1..];
      }
      FirstThen(s[0], r, le);
    } else if s != [] {
      FirstBelow(x, s, le);
      FirstThen(x, s, le);
    }
  }

  lemma FirstThen<T(!new)>(x: T, s: seq<T>, le: (T, T) -> bool)
    requires Sorted(s, le) && forall i :: 0 <= i < |s| ==> le(x, s[i])
    ensures Sorted([x] + s, le)
  {
    var r := [x] + s;
    assert forall i :: 1 <= i < |r| ==> r[i] == s[i-1];
  }

  lemma FirstBelow<T(!new)>(x: T, s: seq<T>, le: (T, T) -> bool)
    requires Transitive(le) && Sorted(s, le) && s != [] && le(x, s[0])
    ensures forall j :: 0 <= j < |s| ==> le(x, s[j])
  {
    forall j | 0 < j < |s| ensures le(x, s[j]) { assert le(s[0], s[j]); }
  }

  lemma {:induction false} SortBySorted<T(!new)>(s: seq<T>, le: (T, T) -> bool)
    requires Total(le) && Transitive(le)
    ensures Sorted(SortBy(s, le), le)
  {
    if s != [] {
      SortBySorted(s[1..], le);
      InsertSorted(s[0], SortBy(s[1..], le), le);
    }
  }

  /** Sorting keeps exactly the elements, and keeps a duplicate-free list duplicate-free. */
  lemma SortByElems<T>(s: seq<T>, le: (T, T) -> bool)
    ensures |SortBy(s, le)| == |s|
    ensures forall x :: x in SortBy(s, le) <==> x in s
    ensures NoDup(s) ==> NoDup(SortBy(s, le))
  {
    var r := SortBy(s, le);
    assert |multiset(r)| == |multiset(s)|;
    forall x ensures x in r <==> x in s {
      assert x in r <==> x in multiset(r);
      assert x in s <==> x in multiset(s);
    }
    if NoDup(s) {
      NoDupCount(s);
      CountNoDup(r);
    }
  }

  lemma NoDupCount<T>(s: seq<T>)
    requires NoDup(s)
    ensures forall x :: multiset(s)[x] <= 1
  {
    if s != [] {
      NoDupCount(s[1..]);
      assert s == [s[0]] + s[1..];
      assert s[0] !in s[1..];
    }
  }

  lemma CountNoDup<T>(s: seq<T>)
    requires forall x :: multiset(s)[x] <= 1
    ensures NoDup(s)
  {
    forall i, j | 0 <= i < j < |s| ensures s[i] != s[j] {
      assert s == s[..i] + [s[i]] + s[i+1..];
      assert s[j] == s[i+1..][j-i-1];
      assert multiset(s) == multiset(s[..i]) + multiset{s[i]} + multiset(s[i+1..]);
      assert s[j] in multiset(s[i+1..]);
      assert multiset(s)[s[i]] <= 1;
    }
  }

  lemma CardMono<T>(a: set<T>, b: set<T>)
    requires a <= b
    ensures |a| <= |b|
  {
    assert b == a + (b - a);
  }

  lemma NoDupCard<T>(s: seq<T>)
    requires NoDup(s)
    ensures |Elems(s)| == |s|
  {
    if s != [] {
      NoDupCard(s[1..]);
      assert s[0] !in s[1..];
      assert Elems(s) == {s[0]} + Elems(s[1..]);
    }
  }
}
