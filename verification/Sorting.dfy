/** Sorting: the order that the library sorts establish, the fact that it determines the result, and
    the hand-written in-place exchange sort that two components carry. */
module Sorting {

  ghost predicate Sorted(s: seq<real>) {
    forall i, j :: 0 <= i < j < |s| ==> s[i] <= s[j]
  }

  lemma HeadAndTail<T>(s: seq<T>)
    requires s != []
    ensures multiset(s) == multiset{s[0]} + multiset(s[1..])
  {
    assert s == [s[0]] + s[1..];
  }

  lemma TakenOut<T>(s: seq<T>, j: nat)
    requires j < |s|
    ensures multiset(s) == multiset{s[j]} + multiset(s[..j] + s[j + 1..])
  {
    assert s == s[..j] + ([s[j]] + s[j + 1..]);
  }

  lemma PermutationMembers<T>(a: seq<T>, b: seq<T>)
    requires multiset(a) == multiset(b)
    ensures |a| == |b| && forall x :: x in a <==> x in b
  {
    assert |a| == |multiset(a)| == |multiset(b)| == |b|;
    forall x
      ensures x in a <==> x in b
    {
      assert x in a <==> x in multiset(a);
      assert x in b <==> x in multiset(b);
    }
  }

  // ----- Ascending by a key

  ghost predicate SortedBy<T>(key: T -> real, s: seq<T>) {
    forall i, j :: 0 <= i < j < |s| ==> key(s[i]) <= key(s[j])
  }

  function Insert<T>(key: T -> real, x: T, s: seq<T>): (r: seq<T>)
    ensures |r| == |s| + 1
  {
    if s == [] || key(x) <= key(s[0]) then [x] + s else [s[0]] + Insert(key, x, s[1..])
  }

  lemma {:induction false} InsertPermutes<T>(key: T -> real, x: T, s: seq<T>)
    ensures multiset(Insert(key, x, s)) == multiset{x} + multiset(s)
  {
    if s == [] || key(x) <= key(s[0]) {
    } else {
      InsertPermutes(key, x, s[1..]);
      HeadAndTail(s);
    }
  }

  lemma {:induction false} InsertMembers<T>(key: T -> real, x: T, s: seq<T>, k: nat)
    requires k < |Insert(key, x, s)|
    ensures Insert(key, x, s)[k] == x || Insert(key, x, s)[k] in s
  {
    if !(s == [] || key(x) <= key(s[0])) && k > 0 {
      InsertMembers(key, x, s[1..], k - 1);
    }
  }

  lemma ConsSorts<T>(key: T -> real, x: T, s: seq<T>)
    requires SortedBy(key, s) && forall k :: 0 <= k < |s| ==> key(x) <= key(s[k])
    ensures SortedBy(key, [x] + s)
  {
  }

  lemma {:induction false} InsertSorts<T>(key: T -> real, x: T, s: seq<T>)
    requires SortedBy(key, s)
    ensures SortedBy(key, Insert(key, x, s))
  {
    if s == [] || key(x) <= key(s[0]) {
      ConsSorts(key, x, s);
    } else {
      InsertSorts(key, x, s[1..]);
      var t := Insert(key, x, s[1..]);
      forall k | 0 <= k < |t|
        ensures key(s[0]) <= key(t[k])
      {
        InsertMembers(key, x, s[1..], k);
      }
      ConsSorts(key, s[0], t);
    }
  }

  function SortBy<T>(key: T -> real, s: seq<T>): (r: seq<T>)
    ensures SortedBy(key, r) && multiset(r) == multiset(s) && |r| == |s|
  {
    if s == [] then []
    else
      HeadAndTail(s);
      InsertSorts(key, s[0], SortBy(key, s[1..]));
      InsertPermutes(key, s[0], SortBy(key, s[1..]));
      Insert(key, s[0], SortBy(key, s[1..]))
  }

  function Same(x: real): real { x }

  /** The ascending arrangement of a sample. */
  function Sort(s: seq<real>): (r: seq<real>)
    ensures Sorted(r) && multiset(r) == multiset(s) && |r| == |s|
  {
    var r := SortBy(Same, s);
    assert forall i, j :: 0 <= i < j < |r| ==> Same(r[i]) <= Same(r[j]);
    r
  }

  lemma LeastFirst(s: seq<real>, x: real)
    requires Sorted(s) && x in s
    ensures s[0] <= x
  {
  }

  lemma TailsAgree(a: seq<real>, b: seq<real>)
    requires a != [] && b != [] && a[0] == b[0] && multiset(a) == multiset(b)
    ensures multiset(a[1..]) == multiset(b[1..])
  {
    HeadAndTail(a);
    HeadAndTail(b);
    assert multiset(a[1..]) == multiset(a) - multiset{a[0]};
    assert multiset(b[1..]) == multiset(b) - multiset{b[0]};
  }

  lemma HeadsAgree(a: seq<real>, b: seq<real>)
    requires Sorted(a) && Sorted(b) && a != [] && multiset(a) == multiset(b)
    ensures b != [] && a[0] == b[0]
  {
    PermutationMembers(a, b);
    LeastFirst(a, b[0]);
    LeastFirst(b, a[0]);
  }

  /** The order and the multiset determine the sequence. */
  lemma {:induction false} SortedIsUnique(a: seq<real>, b: seq<real>)
    requires Sorted(a) && Sorted(b) && multiset(a) == multiset(b)
    ensures a == b
    decreases |a|
  {
    if a == [] {
      assert |multiset(b)| == |b|;
    } else {
      HeadsAgree(a, b);
      TailsAgree(a, b);
      SortedIsUnique(a[1..], b[1..]);
      assert a == [a[0]] + a[1..] && b == [b[0]] + b[1..];
    }
  }

  lemma SortIsDetermined(s: seq<real>, t: seq<real>)
    requires Sorted(t) && multiset(t) == multiset(s)
    ensures t == Sort(s)
  {
    SortedIsUnique(t, Sort(s));
  }

  // ----- Mapping a sequence

  function Map<A, B>(f: A -> B, s: seq<A>): (r: seq<B>)
    ensures |r| == |s| && forall i :: 0 <= i < |s| ==> r[i] == f(s[i])
  {
    seq(|s|, i requires 0 <= i < |s| => f(s[i]))
  }

  lemma MapTakenOut<A, B>(f: A -> B, s: seq<A>, j: nat)
    requires j < |s|
    ensures multiset(Map(f, s)) == multiset{f(s[j])} + multiset(Map(f, s[..j] + s[j + 1..]))
  {
    TakenOut(Map(f, s), j);
    assert Map(f, s)[..j] + Map(f, s)[j + 1..] == Map(f, s[..j] + s[j + 1..]);
  }

  lemma BothTakenOut<T>(a: seq<T>, b: seq<T>, j: nat)
    requires a != [] && j < |b| && b[j] == a[0] && multiset(a) == multiset(b)
    ensures multiset(a[..0] + a[1..]) == multiset(b[..j] + b[j + 1..])
  {
    TakenOut(a, 0);
    TakenOut(b, j);
    assert multiset(a[..0] + a[1..]) == multiset(a) - multiset{a[0]};
    assert multiset(b[..j] + b[j + 1..]) == multiset(b) - multiset{b[j]};
  }

  /** Rearranging a sequence rearranges its image. */
  lemma {:induction false} MapPermutes<A, B>(f: A -> B, a: seq<A>, b: seq<A>)
    requires multiset(a) == multiset(b)
    ensures multiset(Map(f, a)) == multiset(Map(f, b))
    decreases |a|
  {
    PermutationMembers(a, b);
    if a != [] {
      assert a[0] in b;
      var j :| 0 <= j < |b| && b[j] == a[0];
      BothTakenOut(a, b, j);
      MapPermutes(f, a[..0] + a[1..], b[..j] + b[j + 1..]);
      MapTakenOut(f, a, 0);
      MapTakenOut(f, b, j);
    }
  }

  /** A map that keeps the order commutes with sorting. */
  lemma SortCommutes(f: real -> real, s: seq<real>)
    requires forall x, y :: x <= y ==> f(x) <= f(y)
    ensures Sort(Map(f, s)) == Map(f, Sort(s))
  {
    MapPermutes(f, Sort(s), s);
    SortIsDetermined(Map(f, s), Map(f, Sort(s)));
  }

  function ToReals(s: seq<int>): (r: seq<real>)
    ensures |r| == |s| && forall i :: 0 <= i < |s| ==> r[i] == s[i] as real
  {
    Map((x: int) => x as real, s)
  }

  /** A sorted rearrangement of integer samples is their ascending arrangement as reals. */
  lemma SortedInts(s: seq<int>, t: seq<int>)
    requires multiset(t) == multiset(s) && forall i, j :: 0 <= i < j < |t| ==> t[i] <= t[j]
    ensures ToReals(t) == Sort(ToReals(s))
  {
    MapPermutes((x: int) => x as real, t, s);
    SortIsDetermined(ToReals(s), ToReals(t));
  }

  /** The first k elements are in their final place: ascending, and none above what follows. */
  ghost predicate SettledUpTo(s: seq<int>, k: nat) {
    k <= |s| && forall i, j :: 0 <= i < k && i < j < |s| ==> s[i] <= s[j]
  }

  ghost predicate LeastUpTo(s: seq<int>, i: nat, j: nat) {
    i < j <= |s| && forall l :: i < l < j ==> s[i] <= s[l]
  }

  function Exchanged(s: seq<int>, i: nat, j: nat): seq<int>
    requires i < j < |s|
  {
    if s[j] < s[i] then s[i := s[j]][j := s[i]] else s
  }

  lemma ExchangeStep(s: seq<int>, i: nat, j: nat)
    requires SettledUpTo(s, i) && LeastUpTo(s, i, j) && j < |s|
    ensures SettledUpTo(Exchanged(s, i, j), i) && LeastUpTo(Exchanged(s, i, j), i, j + 1)
    ensures multiset(Exchanged(s, i, j)) == multiset(s) && |Exchanged(s, i, j)| == |s|
  {
  }

  /** The exchange sort of warmkit/fsm.go and report.go: ascending, in place. */
  method ExchangeSort(a: array<int>)
    modifies a
    ensures forall i, j :: 0 <= i < j < a.Length ==> a[i] <= a[j]
    ensures multiset(a[..]) == multiset(old(a[..]))
    ensures ToReals(a[..]) == Sort(ToReals(old(a[..])))
  {
    ghost var before := multiset(a[..]);
    for i := 0 to a.Length
      invariant multiset(a[..]) == before
      invariant SettledUpTo(a[..], i)
    {
      for j := i + 1 to a.Length
        invariant multiset(a[..]) == before
        invariant SettledUpTo(a[..], i) && LeastUpTo(a[..], i, j)
      {
        ghost var s := a[..];
        if a[j] < a[i] {
          a[i], a[j] := a[j], a[i];
        }
        assert a[..] == Exchanged(s, i, j);
        ExchangeStep(s, i, j);
      }
    }
    assert forall i, j :: 0 <= i < j < a.Length ==> a[..][i] <= a[..][j];
    SortedInts(old(a[..]), a[..]);
  }
}
