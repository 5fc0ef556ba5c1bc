/** Sorting and de-duplication of vectors, and the lexicographic order of strings.
    The sorts of the Rust standard library are stable; so is the insertion sort here. */
module Ordering {

  ghost predicate TotalOrder<T(!new)>(le: (T, T) -> bool) {
    && (forall a, b :: le(a, b) || le(b, a))
    && (forall a, b :: le(a, b) && le(b, a) ==> a == b)
    && (forall a, b, c :: le(a, b) && le(b, c) ==> le(a, c))
  }

  /** The order `le` has the three properties of a total order on the elements of `s`. */
  ghost predicate TotalOn<T>(le: (T, T) -> bool, s: seq<T>) {
    && (forall a, b | a in s && b in s :: le(a, b) || le(b, a))
    && (forall a, b | a in s && b in s && le(a, b) && le(b, a) :: a == b)
    && (forall a, b, c | a in s && b in s && c in s && le(a, b) && le(b, c) :: le(a, c))
  }

  ghost predicate Antisymmetric<T>(le: (T, T) -> bool, s: seq<T>) {
    forall a, b | a in s && b in s && le(a, b) && le(b, a) :: a == b
  }

  ghost predicate SameElements<T(!new)>(s: seq<T>, t: seq<T>) {
    forall x :: x in s <==> x in t
  }

  ghost predicate StrictlySorted<T>(le: (T, T) -> bool, s: seq<T>) {
    forall i, j | 0 <= i < j < |s| :: le(s[i], s[j]) && s[i] != s[j]
  }

  ghost predicate Sorted<T>(le: (T, T) -> bool, s: seq<T>) {
    forall i, j | 0 <= i < j < |s| :: le(s[i], s[j])
  }

  function Insert<T>(le: (T, T) -> bool, s: seq<T>, x: T): seq<T> {
    if s == [] || le(s[|s| - 1], x) then s + [x]
    else Insert(le, s[..|s| - 1], x) + [s[|s| - 1]]
  }

  function Sort<T>(le: (T, T) -> bool, s: seq<T>): seq<T> {
    if s == [] then [] else Insert(le, Sort(le, s[..|s| - 1]), s[|s| - 1])
  }

  /** Drops an element equal to the one before it. */
  function Dedup<T(==)>(s: seq<T>): seq<T> {
    if |s| <= 1 then s
    else if s[|s| - 2] == s[|s| - 1] then Dedup(s[..|s| - 1])
    else Dedup(s[..|s| - 1]) + [s[|s| - 1]]
  }

  /** A vector sorted, then de-duplicated. */
  function Canon<T(==)>(le: (T, T) -> bool, s: seq<T>): seq<T> {
    Dedup(Sort(le, s))
  }

  lemma {:induction false} InsertElements<T(!new)>(le: (T, T) -> bool, s: seq<T>, x: T)
    ensures forall y :: y in Insert(le, s, x) <==> y == x || y in s
  {
    if s == [] || le(s[|s| - 1], x) {
    } else {
      InsertElements(le, s[..|s| - 1], x);
      assert s == s[..|s| - 1] + [s[|s| - 1]];
    }
  }

  lemma {:induction false} InsertSorted<T(!new)>(le: (T, T) -> bool, s: seq<T>, x: T)
    requires TotalOn(le, s + [x]) && Sorted(le, s)
    ensures Sorted(le, Insert(le, s, x))
  {
    assert forall y | y in s :: y in s + [x];
    assert x in s + [x];
    if s == [] {
    } else if le(s[|s| - 1], x) {
      forall i | 0 <= i < |s| ensures le(s[i], x) {
        assert s[i] == s[|s| - 1] || le(s[i], s[|s| - 1]);
      }
    } else {
      var init, last := s[..|s| - 1], s[|s| - 1];
      assert forall y | y in init + [x] :: y in s + [x];
      InsertSorted(le, init, x);
      InsertElements(le, init, x);
      var r := Insert(le, init, x);
      forall i | 0 <= i < |r| ensures le(r[i], last) {
        assert r[i] in r;
      }
    }
  }

  lemma {:induction false} SortElements<T(!new)>(le: (T, T) -> bool, s: seq<T>)
    ensures SameElements(Sort(le, s), s)
  {
    if s != [] {
      var init, last := s[..|s| - 1], s[|s| - 1];
      SortElements(le, init);
      InsertElements(le, Sort(le, init), last);
      assert s == init + [last];
    }
  }

  lemma {:induction false} SortSorted<T(!new)>(le: (T, T) -> bool, s: seq<T>)
    requires TotalOn(le, s)
    ensures Sorted(le, Sort(le, s))
  {
    if s != [] {
      var init, last := s[..|s| - 1], s[|s| - 1];
      assert s == init + [last];
      SortSorted(le, init);
      SortElements(le, init);
      InsertSorted(le, Sort(le, init), last);
    }
  }

  lemma {:induction false} DedupStrict<T(!new)>(le: (T, T) -> bool, s: seq<T>)
    requires Antisymmetric(le, s) && Sorted(le, s)
    ensures SameElements(Dedup(s), s) && StrictlySorted(le, Dedup(s))
  {
    if |s| > 1 {
      var init, last := s[..|s| - 1], s[|s| - 1];
      assert s == init + [last];
      DedupStrict(le, init);
      var d, before := Dedup(init), s[|s| - 2];
      assert before == init[|init| - 1];
      if before != last {
        forall i | 0 <= i < |d| ensures le(d[i], last) && d[i] != last {
          assert d[i] in init;
          var j :| 0 <= j < |init| && init[j] == d[i];
          assert le(s[j], last) && le(before, last) && before in s && last in s;
          assert s[j] == before || le(s[j], before);
        }
      }
    }
  }

  /** What sorting and de-duplicating a vector leaves: its elements, once each, in order. */
  lemma CanonStrict<T(!new)>(le: (T, T) -> bool, s: seq<T>)
    requires TotalOn(le, s)
    ensures SameElements(Canon(le, s), s)
    ensures StrictlySorted(le, Canon(le, s))
  {
    SortElements(le, s);
    SortSorted(le, s);
    DedupStrict(le, Sort(le, s));
  }

  lemma StrictMax<T(!new)>(le: (T, T) -> bool, s: seq<T>, t: seq<T>)
    requires Antisymmetric(le, s) && StrictlySorted(le, s) && StrictlySorted(le, t) && SameElements(s, t)
    requires s != []
    ensures t != [] && s[|s| - 1] == t[|t| - 1]
  {
    var top := s[|s| - 1];
    assert top in t;
    var j :| 0 <= j < |t| && t[j] == top;
    var other := t[|t| - 1];
    assert other in t && other in s;
    var i :| 0 <= i < |s| && s[i] == other;
    assert other == top || (le(other, top) && le(top, other));
  }

  /** A strictly sorted vector is determined by the set of its elements. */
  lemma {:induction false} StrictUnique<T(!new)>(le: (T, T) -> bool, s: seq<T>, t: seq<T>)
    requires Antisymmetric(le, s) && StrictlySorted(le, s) && StrictlySorted(le, t) && SameElements(s, t)
    ensures s == t
  {
    if s == [] {
      if t != [] { StrictMax(le, t, s); }
    } else {
      StrictMax(le, s, t);
      var s', t' := s[..|s| - 1], t[..|t| - 1];
      var top := s[|s| - 1];
      assert s == s' + [top] && t == t' + [top];
      forall x ensures x in s' <==> x in t' {
        assert x in s <==> x in s' || x == top;
        assert x in t <==> x in t' || x == top;
      }
      StrictUnique(le, s', t');
    }
  }

  // ---------------------------------------------------------------- lexicographic order

  predicate LexLe<T(==)>(le: (T, T) -> bool, a: seq<T>, b: seq<T>) {
    if a == [] then true
    else if b == [] then false
    else if a[0] == b[0] then LexLe(le, a[1..], b[1..])
    else le(a[0], b[0])
  }

  /** `a` and `b` agree up to `k`, where `a` ends or has the lesser element. */
  ghost predicate ComesFirstAt<T>(le: (T, T) -> bool, a: seq<T>, b: seq<T>, k: nat) {
    k <= |a| && k <= |b| && a[..k] == b[..k]
    && (k == |a| || (k < |a| && k < |b| && a[k] != b[k] && le(a[k], b[k])))
  }

  lemma SameHead<T>(a: seq<T>, b: seq<T>, k: nat)
    requires 0 < k <= |a| && k <= |b| && a[..k] == b[..k]
    ensures a[0] == b[0]
  {
    assert a[0] == a[..k][0] && b[0] == b[..k][0];
  }

  /** Lexicographic order is decided at the first difference. */
  lemma {:induction false} FirstDifference<T(!new)>(le: (T, T) -> bool, a: seq<T>, b: seq<T>)
    ensures LexLe(le, a, b) <==> exists k: nat :: ComesFirstAt(le, a, b, k)
  {
    if a == [] {
      assert ComesFirstAt(le, a, b, 0);
    } else if b != [] && a[0] == b[0] {
      FirstDifference(le, a[1..], b[1..]);
      if k: nat :| ComesFirstAt(le, a[1..], b[1..], k) {
        assert a[..k + 1] == [a[0]] + a[1..][..k] && b[..k + 1] == [b[0]] + b[1..][..k];
        assert ComesFirstAt(le, a, b, k + 1);
      }
      if k: nat :| ComesFirstAt(le, a, b, k) {
        assert k > 0;
        assert a[1..][..k - 1] == a[..k][1..] && b[1..][..k - 1] == b[..k][1..];
        assert ComesFirstAt(le, a[1..], b[1..], k - 1);
      }
    } else if b != [] {
      if k: nat :| ComesFirstAt(le, a, b, k) {
        if k > 0 { SameHead(a, b, k); }
      }
      if le(a[0], b[0]) { assert ComesFirstAt(le, a, b, 0); }
    }
  }

  lemma {:induction false} LexPair<T(!new)>(le: (T, T) -> bool, a: seq<T>, b: seq<T>)
    requires TotalOrder(le)
    ensures LexLe(le, a, b) || LexLe(le, b, a)
    ensures LexLe(le, a, b) && LexLe(le, b, a) ==> a == b
  {
    if a != [] && b != [] && a[0] == b[0] {
      LexPair(le, a[1..], b[1..]);
      assert a == [a[0]] + a[1..] && b == [b[0]] + b[1..];
    }
  }

  lemma {:induction false} LexTrans<T(!new)>(le: (T, T) -> bool, a: seq<T>, b: seq<T>, c: seq<T>)
    requires TotalOrder(le) && LexLe(le, a, b) && LexLe(le, b, c)
    ensures LexLe(le, a, c)
  {
    if a != [] && a[0] == b[0] == c[0] {
      LexTrans(le, a[1..], b[1..], c[1..]);
    }
  }

  /** Equal-length prefixes decide the order unless they are the same. */
  lemma {:induction false} LexConcat<T(!new)>(le: (T, T) -> bool, a: seq<T>, b: seq<T>, s: seq<T>, t: seq<T>)
    requires |a| == |b|
    ensures LexLe(le, a + s, b + t) <==> if a == b then LexLe(le, s, t) else LexLe(le, a, b)
  {
    if a == [] {
      assert a + s == s && b + t == t;
    } else {
      assert (a + s)[1..] == a[1..] + s && (b + t)[1..] == b[1..] + t;
      assert a == [a[0]] + a[1..] && b == [b[0]] + b[1..];
      LexConcat(le, a[1..], b[1..], s, t);
    }
  }

  predicate CharLe(a: char, b: char) { a <= b }

  /** The order of Rust's `String`. */
  predicate StringLe(a: string, b: string) { LexLe(CharLe, a, b) }

  /** The order of Rust's `PathBuf`, which compares component by component. */
  predicate PathLe(a: seq<string>, b: seq<string>) { LexLe(StringLe, a, b) }

  lemma StringOrder()
    ensures TotalOrder(StringLe)
  {
    forall a, b ensures (StringLe(a, b) || StringLe(b, a)) && (StringLe(a, b) && StringLe(b, a) ==> a == b) {
      LexPair(CharLe, a, b);
    }
    forall a, b, c | StringLe(a, b) && StringLe(b, c) ensures StringLe(a, c) {
      LexTrans(CharLe, a, b, c);
    }
  }

  lemma PathOrder()
    ensures TotalOrder(PathLe)
  {
    StringOrder();
    forall a, b ensures (PathLe(a, b) || PathLe(b, a)) && (PathLe(a, b) && PathLe(b, a) ==> a == b) {
      LexPair(StringLe, a, b);
    }
    forall a, b, c | PathLe(a, b) && PathLe(b, c) ensures PathLe(a, c) {
      LexTrans(StringLe, a, b, c);
    }
  }
}
