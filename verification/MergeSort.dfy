/** The stable merge sort of WDL/mergesort.h, in place with scratch space. */
module MergeSorts {
  import opened Sequences

  type Comparison<!T> = (T, T) -> int

  /** What the sort demands of a comparison: any total preorder. */
  ghost predicate TotalPreorder<T(!new)>(compar: Comparison<T>) {
    && (forall x, y :: compar(x, y) <= 0 <==> compar(y, x) >= 0)
    && (forall x, y, z :: compar(x, y) <= 0 && compar(y, z) <= 0 ==> compar(x, z) <= 0)
  }

  ghost predicate Sorted<T>(s: seq<T>, compar: Comparison<T>) {
    forall i, j :: 0 <= i < j < |s| ==> compar(s[i], s[j]) <= 0
  }

  /** The elements that compare equal to x, in their order. */
  function ClassOf<T>(s: seq<T>, x: T, compar: Comparison<T>): seq<T> {
    if s == [] then []
    else (if compar(s[0], x) == 0 then [s[0]] else []) + ClassOf(s[1..], x, compar)
  }

  /** From two sequences, taking from the first unless it is greater. */
  function Merged<T>(a: seq<T>, b: seq<T>, compar: Comparison<T>): (r: seq<T>)
    ensures |r| == |a| + |b|
    decreases |a| + |b|
  {
    if a == [] then b
    else if b == [] then a
    else if compar(a[0], b[0]) > 0 then [b[0]] + Merged(a, b[1..], compar)
    else [a[0]] + Merged(a[1..], b, compar)
  }

  function MergeSorted<T>(s: seq<T>, compar: Comparison<T>): (r: seq<T>)
    ensures |r| == |s|
    decreases |s|
  {
    if |s| < 2 then s
    else Merged(MergeSorted(s[..|s| / 2], compar), MergeSorted(s[|s| / 2..], compar), compar)
  }

  // ----- it sorts, keeps every element, and keeps the order of equal ones -----

  /** Nothing in s is below x. */
  ghost predicate AllFrom<T>(s: seq<T>, x: T, compar: Comparison<T>) {
    forall i :: 0 <= i < |s| ==> compar(x, s[i]) <= 0
  }

  lemma {:induction false} MergedFrom<T(!new)>(a: seq<T>, b: seq<T>, x: T, compar: Comparison<T>)
    requires AllFrom(a, x, compar) && AllFrom(b, x, compar)
    ensures AllFrom(Merged(a, b, compar), x, compar)
    decreases |a| + |b|
  {
    if a != [] && b != [] {
      if compar(a[0], b[0]) > 0 {
        MergedFrom(a, b[1..], x, compar);
      } else {
        MergedFrom(a[1..], b, x, compar);
      }
    }
  }

  lemma HeadIsLeast<T>(a: seq<T>, compar: Comparison<T>)
    requires Sorted(a, compar) && a != []
    ensures AllFrom(a[1..], a[0], compar)
  {
  }

  lemma FromBelow<T(!new)>(a: seq<T>, x: T, compar: Comparison<T>)
    requires TotalPreorder(compar) && Sorted(a, compar) && a != [] && compar(x, a[0]) <= 0
    ensures AllFrom(a, x, compar)
  {
  }

  lemma ConsSorted<T>(x: T, s: seq<T>, compar: Comparison<T>)
    requires Sorted(s, compar) && AllFrom(s, x, compar)
    ensures Sorted([x] + s, compar)
  {
  }

  lemma {:induction false} MergedSorted<T(!new)>(a: seq<T>, b: seq<T>, compar: Comparison<T>)
    requires TotalPreorder(compar) && Sorted(a, compar) && Sorted(b, compar)
    ensures Sorted(Merged(a, b, compar), compar)
    decreases |a| + |b|
  {
    hide TotalPreorder;
    if a != [] && b != [] {
      if compar(a[0], b[0]) > 0 {
        MergedSorted(a, b[1..], compar);
        Turned(a[0], b[0], compar);
        FromBelow(a, b[0], compar);
        HeadIsLeast(b, compar);
        MergedFrom(a, b[1..], b[0], compar);
        ConsSorted(b[0], Merged(a, b[1..], compar), compar);
      } else {
        MergedSorted(a[1..], b, compar);
        FromBelow(b, a[0], compar);
        HeadIsLeast(a, compar);
        MergedFrom(a[1..], b, a[0], compar);
        ConsSorted(a[0], Merged(a[1..], b, compar), compar);
      }
    }
  }

  lemma Turned<T(!new)>(x: T, y: T, compar: Comparison<T>)
    requires TotalPreorder(compar)
    ensures compar(x, y) > 0 ==> compar(y, x) <= 0
    ensures compar(x, y) == 0 ==> compar(y, x) == 0
  {
  }

  lemma {:induction false} MergedKeepsAll<T>(a: seq<T>, b: seq<T>, compar: Comparison<T>)
    ensures multiset(Merged(a, b, compar)) == multiset(a) + multiset(b)
    decreases |a| + |b|
  {
    if a != [] && b != [] {
      assert a == [a[0]] + a[1..] && b == [b[0]] + b[1..];
      if compar(a[0], b[0]) > 0 {
        MergedKeepsAll(a, b[1..], compar);
      } else {
        MergedKeepsAll(a[1..], b, compar);
      }
    }
  }

  function OneOf<T>(y: T, x: T, compar: Comparison<T>): seq<T> {
    if compar(y, x) == 0 then [y] else []
  }

  lemma ClassOfCons<T>(y: T, s: seq<T>, x: T, compar: Comparison<T>)
    ensures ClassOf([y] + s, x, compar) == OneOf(y, x, compar) + ClassOf(s, x, compar)
  {
    assert ([y] + s)[1..] == s;
  }

  lemma {:induction false} ClassOfAppend<T>(a: seq<T>, b: seq<T>, x: T, compar: Comparison<T>)
    ensures ClassOf(a + b, x, compar) == ClassOf(a, x, compar) + ClassOf(b, x, compar)
    decreases |a|
  {
    if a == [] {
      assert a + b == b;
    } else {
      ClassOfAppend(a[1..], b, x, compar);
      assert a + b == [a[0]] + (a[1..] + b) && a == [a[0]] + a[1..];
      ClassOfCons(a[0], a[1..] + b, x, compar);
      ClassOfCons(a[0], a[1..], x, compar);
      Regroup(OneOf(a[0], x, compar), ClassOf(a[1..], x, compar), ClassOf(b, x, compar));
    }
  }

  /** Nothing above x is in its class. */
  lemma {:induction false} NoneInClass<T(!new)>(s: seq<T>, x: T, compar: Comparison<T>)
    requires forall i :: 0 <= i < |s| ==> compar(s[i], x) > 0
    ensures ClassOf(s, x, compar) == []
  {
    if s != [] {
      NoneInClass(s[1..], x, compar);
    }
  }

  lemma AllAbove<T(!new)>(a: seq<T>, y: T, x: T, compar: Comparison<T>)
    requires TotalPreorder(compar) && Sorted(a, compar) && a != [] && compar(a[0], y) > 0 && compar(y, x) == 0
    ensures forall i :: 0 <= i < |a| ==> compar(a[i], x) > 0
  {
    forall i | 0 <= i < |a|
      ensures compar(a[i], x) > 0
    {
      assert compar(a[0], a[i]) <= 0;
    }
  }

  /** Merging puts the equal elements of the first before those of the second. */
  lemma {:induction false} MergedStable<T(!new)>(a: seq<T>, b: seq<T>, x: T, compar: Comparison<T>)
    requires TotalPreorder(compar) && Sorted(a, compar) && Sorted(b, compar)
    ensures ClassOf(Merged(a, b, compar), x, compar) == ClassOf(a, x, compar) + ClassOf(b, x, compar)
    decreases |a| + |b|
  {
    hide TotalPreorder, ClassOf;
    MergedStep(a, b, compar);
    if a == [] || b == [] {
      NothingInClass(x, compar);
    } else if compar(a[0], b[0]) > 0 {
      hide Merged;
      MergedStable(a, b[1..], x, compar);
      assert b == [b[0]] + b[1..];
      ClassOfCons(b[0], Merged(a, b[1..], compar), x, compar);
      ClassOfCons(b[0], b[1..], x, compar);
      if compar(b[0], x) == 0 {
        AllAbove(a, b[0], x, compar);
        NoneInClass(a, x, compar);
      }
    } else {
      hide Merged;
      MergedStable(a[1..], b, x, compar);
      assert a == [a[0]] + a[1..];
      ClassOfCons(a[0], Merged(a[1..], b, compar), x, compar);
      ClassOfCons(a[0], a[1..], x, compar);
      Regroup(OneOf(a[0], x, compar), ClassOf(a[1..], x, compar), ClassOf(b, x, compar));
    }
  }

  lemma NothingInClass<T>(x: T, compar: Comparison<T>)
    ensures ClassOf([], x, compar) == []
  {
  }

  /** The sort sorts, keeps every element, and keeps equal elements in their order. */
  lemma {:induction false} SortsStably<T(!new)>(s: seq<T>, compar: Comparison<T>)
    requires TotalPreorder(compar)
    ensures Sorted(MergeSorted(s, compar), compar)
    ensures multiset(MergeSorted(s, compar)) == multiset(s)
    ensures forall x :: ClassOf(MergeSorted(s, compar), x, compar) == ClassOf(s, x, compar)
    decreases |s|
  {
    hide TotalPreorder, Sorted;
    if |s| < 2 {
      ShortSorted(s, compar);
    } else {
      var a, b := s[..|s| / 2], s[|s| / 2..];
      assert s == a + b;
      SortsStably(a, compar);
      SortsStably(b, compar);
      var p, q := MergeSorted(a, compar), MergeSorted(b, compar);
      MergedSorted(p, q, compar);
      MergedKeepsAll(p, q, compar);
      forall x
        ensures ClassOf(MergeSorted(s, compar), x, compar) == ClassOf(s, x, compar)
      {
        MergedStable(p, q, x, compar);
        ClassOfAppend(a, b, x, compar);
      }
    }
  }

  lemma ShortSorted<T>(s: seq<T>, compar: Comparison<T>)
    requires |s| < 2
    ensures Sorted(s, compar)
  {
  }

  // ----- in place -----

  /** The array holds these elements from an index on. */
  ghost predicate Holds<T>(base: array<T>, from: nat, s: seq<T>)
    reads base
  {
    from + |s| <= base.Length && forall k :: from <= k < from + |s| ==> base[k] == s[k - from]
  }

  twostate predicate Elsewhere<T>(base: array<T>, from: nat, count: nat)
    reads base
  {
    forall k :: 0 <= k < base.Length && !(from <= k < from + count) ==> base[k] == old(base[k])
  }

  lemma HoldsHalves<T>(base: array<T>, from: nat, s: seq<T>, n: nat)
    requires Holds(base, from, s) && n <= |s|
    ensures Holds(base, from, s[..n]) && Holds(base, from + n, s[n..])
  {
  }

  method MergeSort<T>(base: array<T>, from: nat, nmemb: nat, compar: Comparison<T>, tmpspace: array<T>, ghost s: seq<T>)
    requires |s| == nmemb && Holds(base, from, s) && nmemb <= tmpspace.Length && base != tmpspace
    modifies base, tmpspace
    ensures Holds(base, from, MergeSorted(s, compar)) && Elsewhere(base, from, nmemb)
    decreases nmemb, 1
  {
    hide Merged;
    if nmemb < 2 {
      return;
    }
    var n1 := nmemb / 2;
    ghost var left, right := s[..n1], s[n1..];
    SortedHalves(s, compar);
    HoldsHalves(base, from, s, n1);
    hide MergeSorted;
    if nmemb > 2 {
      SortHalves(base, from, n1, nmemb, compar, tmpspace, left, right);
    } else {
      ShortSort(left, compar);
      ShortSort(right, compar);
    }
    Merge(base, from, n1, nmemb, compar, tmpspace, MergeSorted(left, compar), MergeSorted(right, compar));
  }

  /** Sorts two neighbouring parts. */
  method SortHalves<T>(base: array<T>, from: nat, n1: nat, nmemb: nat, compar: Comparison<T>, tmpspace: array<T>,
                       ghost left: seq<T>, ghost right: seq<T>)
    requires |left| == n1 && |right| == nmemb - n1 && 0 < n1 < nmemb <= tmpspace.Length && base != tmpspace
    requires Holds(base, from, left) && Holds(base, from + n1, right)
    modifies base, tmpspace
    ensures Holds(base, from, MergeSorted(left, compar)) && Holds(base, from + n1, MergeSorted(right, compar))
    ensures Elsewhere(base, from, nmemb)
    decreases nmemb, 0
  {
    hide MergeSorted, Merged;
    MergeSort(base, from, n1, compar, tmpspace, left);
    assert Holds(base, from + n1, right);
    MergeSort(base, from + n1, nmemb - n1, compar, tmpspace, right);
    assert Holds(base, from, MergeSorted(left, compar));
  }

  lemma ShortSort<T>(s: seq<T>, compar: Comparison<T>)
    ensures |s| < 2 ==> MergeSorted(s, compar) == s
  {
  }

  lemma SortedHalves<T>(s: seq<T>, compar: Comparison<T>)
    requires |s| >= 2
    ensures MergeSorted(s, compar) == Merged(MergeSorted(s[..|s| / 2], compar), MergeSorted(s[|s| / 2..], compar), compar)
  {
    hide Merged;
  }

  /** How far the first part is in order with the start of the second. */
  method Advance<T>(base: array<T>, from: nat, m: nat, compar: Comparison<T>, ghost a: seq<T>, ghost b: seq<T>)
    returns (i: nat)
    requires |a| == m && b != [] && Holds(base, from, a) && Holds(base, from + m, b)
    ensures i <= m && Merged(a, b, compar) == a[..i] + Merged(a[i..], b[0..], compar)
    ensures i < m ==> compar(a[i], b[0]) > 0
  {
    hide Merged;
    ghost var whole := Merged(a, b, compar);
    assert a[0..] == a && a[..0] == [] && b[0..] == b;
    i := 0;
    while i < m
      invariant 0 <= i <= m
      invariant whole == a[..i] + Merged(a[i..], b[0..], compar)
    {
      assert base[from + i] == a[i] && base[from + m] == b[0];
      if compar(base[from + i], base[from + m]) > 0 {
        return;
      }
      NextWritten(a, b, i, 0, a[..i], whole, compar);
      assert a[..i + 1] == a[..i] + [a[i]];
      i := i + 1;
    }
  }

  /** Merges two neighbouring parts: while the first is in order it just advances; once its
      next element is greater, the full merge. */
  method Merge<T>(base: array<T>, from: nat, m: nat, nmemb: nat, compar: Comparison<T>, tmpspace: array<T>,
                  ghost a: seq<T>, ghost b: seq<T>)
    requires 0 < m < nmemb <= tmpspace.Length && base != tmpspace && |a| == m && |b| == nmemb - m
    requires Holds(base, from, a) && Holds(base, from + m, b)
    modifies base, tmpspace
    ensures Holds(base, from, Merged(a, b, compar)) && Elsewhere(base, from, nmemb)
  {
    hide Merged;
    var i := Advance(base, from, m, compar, a, b);
    if i < m {
      var done := MergeIntoScratch(base, from, i, m, nmemb, compar, tmpspace, a, b);
      CopyBack(base, from, done, tmpspace);
    } else {
      MergedStep(a[m..], b, compar);
      assert b[0..] == b && a[..m] == a;
    }
  }

  lemma MergedStep<T>(a: seq<T>, b: seq<T>, compar: Comparison<T>)
    ensures a == [] ==> Merged(a, b, compar) == b
    ensures b == [] ==> Merged(a, b, compar) == a
    ensures a != [] && b != [] ==>
              Merged(a, b, compar) ==
              if compar(a[0], b[0]) > 0 then [b[0]] + Merged(a, b[1..], compar) else [a[0]] + Merged(a[1..], b, compar)
  {
  }

  /** What is written so far, and the next element. */
  lemma NextWritten<T>(a: seq<T>, b: seq<T>, i: nat, j: nat, written: seq<T>, whole: seq<T>, compar: Comparison<T>)
    requires i < |a| && j < |b| && whole == written + Merged(a[i..], b[j..], compar)
    ensures whole ==
            if compar(a[i], b[j]) > 0 then (written + [b[j]]) + Merged(a[i..], b[j + 1..], compar)
            else (written + [a[i]]) + Merged(a[i + 1..], b[j..], compar)
  {
    MergedStep(a[i..], b[j..], compar);
    assert a[i..][1..] == a[i + 1..] && b[j..][1..] == b[j + 1..];
    hide Merged;
  }

  /** The merge from the first element out of order, into the scratch space, until one part is
      used up. */
  method MergeParts<T>(base: array<T>, from: nat, sofar: nat, m: nat, nmemb: nat, compar: Comparison<T>, tmpspace: array<T>,
                       ghost a: seq<T>, ghost b: seq<T>)
    returns (i: nat, j: nat, ghost written: seq<T>)
    requires sofar < m < nmemb <= tmpspace.Length && base != tmpspace && |a| == m && |b| == nmemb - m
    requires Holds(base, from, a) && Holds(base, from + m, b)
    requires compar(a[sofar], b[0]) > 0 && Merged(a, b, compar) == a[..sofar] + Merged(a[sofar..], b[0..], compar)
    modifies tmpspace
    ensures i <= m && 1 <= j <= nmemb - m && (i == m || j == nmemb - m)
    ensures |written| == i + j && Holds(tmpspace, 0, written)
    ensures Merged(a, b, compar) == written + if i < m then a[i..] else b[j..]
  {
    hide Merged;
    ghost var whole := Merged(a, b, compar);
    NextWritten(a, b, sofar, 0, a[..sofar], whole, compar);
    forall k | 0 <= k < sofar {
      tmpspace[k] := base[from + k];
    }
    tmpspace[sofar] := base[from + m];
    written := a[..sofar] + [b[0]];
    i, j := sofar, 1;
    while i < m && j < nmemb - m
      invariant sofar <= i <= m && 1 <= j <= nmemb - m && |written| == i + j
      invariant Holds(tmpspace, 0, written) && whole == written + Merged(a[i..], b[j..], compar)
    {
      NextWritten(a, b, i, j, written, whole, compar);
      assert base[from + i] == a[i] && base[from + m + j] == b[j];
      if compar(base[from + i], base[from + m + j]) > 0 {
        tmpspace[i + j] := base[from + m + j];
        written := written + [b[j]];
        j := j + 1;
      } else {
        tmpspace[i + j] := base[from + i];
        written := written + [a[i]];
        i := i + 1;
      }
    }
    MergedStep(a[i..], b[j..], compar);
  }

  /** Then what is left of the first part; what is left of the second is in its place. */
  method MergeIntoScratch<T>(base: array<T>, from: nat, sofar: nat, m: nat, nmemb: nat, compar: Comparison<T>, tmpspace: array<T>,
                             ghost a: seq<T>, ghost b: seq<T>)
    returns (done: nat)
    requires sofar < m < nmemb <= tmpspace.Length && base != tmpspace && |a| == m && |b| == nmemb - m
    requires Holds(base, from, a) && Holds(base, from + m, b)
    requires compar(a[sofar], b[0]) > 0 && Merged(a, b, compar) == a[..sofar] + Merged(a[sofar..], b[0..], compar)
    modifies tmpspace
    ensures m <= done <= nmemb && Holds(tmpspace, 0, Merged(a, b, compar)[..done]) && Merged(a, b, compar)[done..] == b[done - m..]
  {
    hide Merged;
    var i, j;
    ghost var written;
    i, j, written := MergeParts(base, from, sofar, m, nmemb, compar, tmpspace, a, b);
    if i < m {
      forall k | i + j <= k < nmemb {
        tmpspace[k] := base[from + (k - j)];
      }
      done := nmemb;
    } else {
      done := m + j;
    }
  }

  method CopyBack<T>(base: array<T>, from: nat, count: nat, tmpspace: array<T>)
    requires from + count <= base.Length && count <= tmpspace.Length && base != tmpspace
    modifies base
    ensures forall k :: from <= k < from + count ==> base[k] == tmpspace[k - from]
    ensures Elsewhere(base, from, count)
  {
    forall k | from <= k < from + count {
      base[k] := tmpspace[k - from];
    }
  }
}
