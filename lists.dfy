/** Facts about lists without repetitions, the shape every queue in the tools keeps. */
module Lists {

  /** No element occurs twice. */
  predicate NoDup<T(==)>(s: seq<T>)
  {
    forall i, j :: 0 <= i < j < |s| ==> s[i] != s[j]
  }

  /** The elements of a list, as a set. */
  function Elems<T>(s: seq<T>): set<T>
  {
    set x | x in s
  }

  /** The position of an element of the list. */
  function IndexOf<T(==)>(s: seq<T>, x: T): (k: nat)
    requires x in s
    ensures k < |s| && s[k] == x
    ensures forall j :: 0 <= j < k ==> s[j] != x
  {
    if s[0] == x then 0 else 1 + IndexOf(s[1..], x)
  }


  /** `r` ends with `s`: whatever was put in front of `s`, its elements
      are all still there, in their order. */
  predicate EndsWith<T(==)>(r: seq<T>, s: seq<T>)
  {
    |s| <= |r| && r[|r| - |s|..] == s
  }

  lemma EndsWithTrans<T>(a: seq<T>, b: seq<T>, c: seq<T>)
    requires EndsWith(a, b) && EndsWith(b, c)
    ensures EndsWith(a, c)
  {
    assert a[|a| - |c|..] == a[|a| - |b|..][|b| - |c|..];
  }

  lemma EndsWithElems<T>(r: seq<T>, s: seq<T>)
    requires EndsWith(r, s)
    ensures Elems(s) <= Elems(r)
  {
    forall x | x in s ensures x in r {
      var k :| 0 <= k < |s| && s[k] == x;
      assert r[|r| - |s| + k] == x;
    }
  }

  /** A set shrinks strictly when it loses a member it had. */
  lemma CardShrinks<T>(a: set<T>, b: set<T>, x: T)
    requires b <= a && x in a && x !in b
    ensures |b| < |a|
  {
    assert b <= a - {x};
    SubsetCard(b, a - {x});
  }

  /** A subset is no larger than its superset. */
  lemma {:induction false} SubsetCard<T>(a: set<T>, b: set<T>)
    requires a <= b
    ensures |a| <= |b|
    decreases |b|
  {
    if a != {} {
      var x :| x in a;
      SubsetCard(a - {x}, b - {x});
    }
  }

  /** The images of `s` under `f`, each put in front of those before it:
      what a stack holds after `s` was pushed element by element. */
  function Stacked<T, U>(f: T -> U, s: seq<T>): (r: seq<U>)
    ensures |r| == |s|
  {
    if s == [] then [] else [f(s[|s| - 1])] + Stacked(f, s[..|s| - 1])
  }

  /** Entry k of the stack is the image of the element pushed |s|-1-k-th. */
  lemma {:induction false} StackedAt<T, U>(f: T -> U, s: seq<T>, k: nat)
    requires k < |s|
    ensures Stacked(f, s)[k] == f(s[|s| - 1 - k])
  {
    if k > 0 {
      var front := s[..|s| - 1];
      StackedAt(f, front, k - 1);
      assert front[|front| - 1 - (k - 1)] == s[|s| - 1 - k];
    }
  }

  /** Every entry of the stack is the image of the element pushed
      |s|-1-k-th: the stack holds the images in reverse order. */
  lemma StackedIndex<T, U>(f: T -> U, s: seq<T>)
    ensures forall k :: 0 <= k < |s| ==> Stacked(f, s)[k] == f(s[|s| - 1 - k])
  {
    forall k | 0 <= k < |s| ensures Stacked(f, s)[k] == f(s[|s| - 1 - k]) {
      StackedAt(f, s, k);
    }
  }

  /** Pushing one more element puts its image on top. */
  lemma StackedPush<T, U>(f: T -> U, s: seq<T>, x: T)
    ensures Stacked(f, s + [x]) == [f(x)] + Stacked(f, s)
  {
    assert (s + [x])[..|s|] == s;
  }
}
