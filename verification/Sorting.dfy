/** Python's `sorted`: a stable insertion sort by a total preorder, and the fact that makes it
    a canonical form: when the order tells distinct elements apart, only the contents matter. */
module Sorting {

  ghost predicate Orders<T(!new)>(le: (T, T) -> bool) {
    && (forall a, b :: le(a, b) || le(b, a))
    && (forall a, b, c :: le(a, b) && le(b, c) ==> le(a, c))
  }

  ghost predicate Separates<T>(le: (T, T) -> bool, s: seq<T>) {
    forall a, b | a in s && b in s && le(a, b) && le(b, a) :: a == b
  }

  ghost predicate Sorted<T>(le: (T, T) -> bool, s: seq<T>) {
    forall i, j | 0 <= i < j < |s| :: le(s[i], s[j])
  }

  function Insert<T>(le: (T, T) -> bool, x: T, s: seq<T>): seq<T> {
    if s == [] then [x]
    else if le(x, s[0]) then [x] + s
    else [s[0]] + Insert(le, x, s[1..])
  }

  function Sort<T>(le: (T, T) -> bool, s: seq<T>): seq<T> {
    if s == [] then [] else Insert(le, s[0], Sort(le, s[1..]))
  }

  lemma {:induction false} InsertPermutes<T>(le: (T, T) -> bool, x: T, s: seq<T>)
    ensures multiset(Insert(le, x, s)) == multiset{x} + multiset(s)
  {
    if s != [] && !le(x, s[0]) {
      InsertPermutes(le, x, s[1..]);
      assert s == [s[0]] + s[1..];
    }
  }

  lemma {:induction false} SortPermutes<T>(le: (T, T) -> bool, s: seq<T>)
    ensures multiset(Sort(le, s)) == multiset(s)
  {
    if s != [] {
      SortPermutes(le, s[1..]);
      InsertPermutes(le, s[0], Sort(le, s[1..]));
      assert s == [s[0]] + s[1..];
    }
  }

  lemma SameElements<T>(s: seq<T>, t: seq<T>)
    requires multiset(s) == multiset(t)
    ensures |s| == |t|
    ensures forall x :: x in s <==> x in t
  {
    assert |multiset(s)| == |s| && |multiset(t)| == |t|;
    forall x ensures x in s <==> x in t {
      assert x in s <==> x in multiset(s);
      assert x in t <==> x in multiset(t);
    }
  }

  lemma {:induction false} InsertKeepsSorted<T(!new)>(le: (T, T) -> bool, x: T, s: seq<T>)
    requires Orders(le) && Sorted(le, s)
    ensures Sorted(le, Insert(le, x, s))
  {
    if s != [] && !le(x, s[0]) {
      var rest := Insert(le, x, s[1..]);
      InsertKeepsSorted(le, x, s[1..]);
      InsertPermutes(le, x, s[1..]);
      forall y | y in rest ensures le(s[0], y) {
        assert y in multiset(rest);
        assert y == x || y in s[1..];
      }
    }
  }

  lemma {:induction false} SortSorts<T(!new)>(le: (T, T) -> bool, s: seq<T>)
    requires Orders(le)
    ensures Sorted(le, Sort(le, s))
  {
    if s != [] {
      SortSorts(le, s[1..]);
      InsertKeepsSorted(le, s[0], Sort(le, s[1..]));
    }
  }

  lemma {:induction false} SortedIsUnique<T(!new)>(le: (T, T) -> bool, s: seq<T>, t: seq<T>)
    requires Orders(le) && Sorted(le, s) && Sorted(le, t)
    requires multiset(s) == multiset(t) && Separates(le, s)
    ensures s == t
    decreases |s|
  {
    SameElements(s, t);
    if s != [] {
      assert s[0] in t && t[0] in s;
      assert le(s[0], s[0]) && le(t[0], t[0]);
      assert le(s[0], t[0]) && le(t[0], s[0]);
      assert s == [s[0]] + s[1..] && t == [t[0]] + t[1..];
      assert multiset(s[1..]) == multiset(s) - multiset{s[0]};
      assert multiset(t[1..]) == multiset(t) - multiset{t[0]};
      SortedIsUnique(le, s[1..], t[1..]);
    }
  }

  /** Sorting forgets the order its input came in. */
  lemma SortIsCanonical<T(!new)>(le: (T, T) -> bool, s: seq<T>, t: seq<T>)
    requires Orders(le) && Separates(le, s)
    requires multiset(s) == multiset(t)
    ensures Sort(le, s) == Sort(le, t)
  {
    SortSorts(le, s);
    SortSorts(le, t);
    SortPermutes(le, s);
    SortPermutes(le, t);
    SameElements(s, Sort(le, s));
    SortedIsUnique(le, Sort(le, s), Sort(le, t));
  }

  // ---------- The lexicographic order on strings ----------

  predicate StringLe(a: string, b: string) {
    if a == "" then true
    else if b == "" then false
    else a[0] < b[0] || (a[0] == b[0] && StringLe(a[1..], b[1..]))
  }

  /** `a` and `b` agree before position `i`. */
  predicate AgreeTo(a: string, b: string, i: nat) { i <= |a| && i <= |b| && a[..i] == b[..i] }

  /** `a` comes first when it is a prefix of `b`, or has the smaller character where they first differ. */
  lemma {:induction false} StringLeIsLexicographic(a: string, b: string)
    ensures StringLe(a, b) <==> a <= b || exists i: nat :: i < |a| && i < |b| && AgreeTo(a, b, i) && a[i] < b[i]
  {
    if a != "" && b != "" {
      forall i: nat | i > 0 ensures AgreeTo(a, b, i) ==> a[0] == b[0] {
        AgreeingStarts(a, b, i);
      }
      assert AgreeTo(a, b, 0);
      if a[0] == b[0] {
        StringLeIsLexicographic(a[1..], b[1..]);
        assert a == [a[0]] + a[1..] && b == [b[0]] + b[1..];
        forall i: nat ensures AgreeTo(a[1..], b[1..], i) <==> AgreeTo(a, b, i + 1) {
          AgreeOneOn(a, b, i);
        }
        if i: nat :| i < |a| && i < |b| && AgreeTo(a, b, i) && a[i] < b[i] {
          assert AgreeTo(a[1..], b[1..], i - 1) && a[1..][i - 1] < b[1..][i - 1];
        }
      }
    }
  }

  lemma AgreeingStarts(a: string, b: string, i: nat)
    requires a != "" && b != "" && i > 0
    ensures AgreeTo(a, b, i) ==> a[0] == b[0]
  {
    if AgreeTo(a, b, i) {
      assert a[..i][0] == b[..i][0];
    }
  }

  lemma AgreeOneOn(a: string, b: string, i: nat)
    requires a != "" && b != "" && a[0] == b[0]
    ensures AgreeTo(a[1..], b[1..], i) <==> AgreeTo(a, b, i + 1)
  {
    if i + 1 <= |a| && i + 1 <= |b| {
      assert a[..i + 1] == [a[0]] + a[1..][..i] && b[..i + 1] == [b[0]] + b[1..][..i];
    }
  }

  lemma StringLeTotal(a: string, b: string)
    ensures StringLe(a, b) || StringLe(b, a)
  {}

  lemma StringLeTransitive(a: string, b: string, c: string)
    requires StringLe(a, b) && StringLe(b, c)
    ensures StringLe(a, c)
  {}

  lemma {:induction false} StringLeAntisymmetric(a: string, b: string)
    requires StringLe(a, b) && StringLe(b, a)
    ensures a == b
  {
    if a != "" {
      StringLeAntisymmetric(a[1..], b[1..]);
      assert a == [a[0]] + a[1..] && b == [b[0]] + b[1..];
    }
  }
}
