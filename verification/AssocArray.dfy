/** The sorted array map of WDL/assocarray.h. */
module AssocArrays {
  import opened MergeSorts
  import opened Options

  datatype KeyVal<K, V> = KeyVal(key: K, val: V)

  /** The value of the first entry whose key compares equal. */
  function First<K, V>(data: seq<KeyVal<K, V>>, key: K, keycmp: Comparison<K>): Option<V> {
    if data == [] then None
    else if keycmp(data[0].key, key) == 0 then Some(data[0].val)
    else First(data[1..], key, keycmp)
  }

  ghost predicate Strict<K, V>(data: seq<KeyVal<K, V>>, keycmp: Comparison<K>) {
    forall i, j :: 0 <= i < j < |data| ==> keycmp(data[i].key, data[j].key) < 0
  }

  /** Entries compare as their keys do. */
  function ByKey<K, V>(keycmp: Comparison<K>): Comparison<KeyVal<K, V>> {
    (x: KeyVal<K, V>, y: KeyVal<K, V>) => keycmp(x.key, y.key)
  }

  lemma ByKeyIsPreorder<K(!new), V(!new)>(keycmp: Comparison<K>)
    requires TotalPreorder(keycmp)
    ensures TotalPreorder(ByKey<K, V>(keycmp))
  {
    var c := ByKey<K, V>(keycmp);
    forall x, y
      ensures c(x, y) <= 0 <==> c(y, x) >= 0
    {
      assert c(x, y) == keycmp(x.key, y.key) && c(y, x) == keycmp(y.key, x.key);
    }
    forall x, y, z | c(x, y) <= 0 && c(y, z) <= 0
      ensures c(x, z) <= 0
    {
      assert keycmp(x.key, y.key) <= 0 && keycmp(y.key, z.key) <= 0;
    }
  }

  // ----- facts about the first entry of a key -----

  lemma {:induction false} FirstNone<K, V>(data: seq<KeyVal<K, V>>, key: K, keycmp: Comparison<K>)
    requires forall i :: 0 <= i < |data| ==> keycmp(data[i].key, key) != 0
    ensures First(data, key, keycmp) == None
  {
    if data != [] {
      FirstNone(data[1..], key, keycmp);
    }
  }

  lemma {:induction false} FirstAt<K, V>(data: seq<KeyVal<K, V>>, i: nat, key: K, keycmp: Comparison<K>)
    requires i < |data| && keycmp(data[i].key, key) == 0
    requires forall j :: 0 <= j < i ==> keycmp(data[j].key, key) != 0
    ensures First(data, key, keycmp) == Some(data[i].val)
    decreases i
  {
    if i > 0 {
      FirstAt(data[1..], i - 1, key, keycmp);
    }
  }

  lemma {:induction false} FirstAppend<K, V>(a: seq<KeyVal<K, V>>, b: seq<KeyVal<K, V>>, key: K, keycmp: Comparison<K>)
    ensures First(a + b, key, keycmp) == if First(a, key, keycmp).Some? then First(a, key, keycmp) else First(b, key, keycmp)
  {
    if a == [] {
      assert a + b == b;
    } else {
      assert (a + b)[1..] == a[1..] + b;
      FirstAppend(a[1..], b, key, keycmp);
    }
  }

  /** The first entry of a key is the first of its class. */
  lemma {:induction false} FirstOfClass<K, V>(data: seq<KeyVal<K, V>>, x: KeyVal<K, V>, keycmp: Comparison<K>)
    ensures var c := ClassOf(data, x, ByKey(keycmp));
            First(data, x.key, keycmp) == if c == [] then None else Some(c[0].val)
  {
    if data != [] {
      FirstOfClass(data[1..], x, keycmp);
    }
  }

  // ----- removing duplicates -----

  function Deduped<K, V>(data: seq<KeyVal<K, V>>, keycmp: Comparison<K>): (r: seq<KeyVal<K, V>>)
    ensures |r| <= |data| && (data != [] ==> r != [])
  {
    if |data| <= 1 then data
    else
      var front, last := Deduped(data[..|data| - 1], keycmp), data[|data| - 1];
      if keycmp(last.key, front[|front| - 1].key) != 0 then front + [last] else front
  }

  /** The last entry stays unless its key equals that of the one kept before it. */
  lemma DedupedStep<K, V>(front: seq<KeyVal<K, V>>, last: KeyVal<K, V>, keycmp: Comparison<K>)
    requires front != []
    ensures var d := Deduped(front, keycmp);
            Deduped(front + [last], keycmp) == if keycmp(last.key, d[|d| - 1].key) != 0 then d + [last] else d
  {
    var data := front + [last];
    assert data[..|data| - 1] == front && data[|data| - 1] == last;
  }

  lemma FirstOne<K, V>(x: KeyVal<K, V>, key: K, keycmp: Comparison<K>)
    ensures First([x], key, keycmp) == if keycmp(x.key, key) == 0 then Some(x.val) else None
  {
    assert [x][1..] == [];
  }

  /** Dropping an entry equal to the one kept before it changes no lookup. */
  lemma {:induction false} DedupedKeepsFirst<K(!new), V(!new)>(data: seq<KeyVal<K, V>>, key: K, keycmp: Comparison<K>)
    requires TotalPreorder(keycmp)
    ensures First(Deduped(data, keycmp), key, keycmp) == First(data, key, keycmp)
    decreases |data|
  {
    hide TotalPreorder, First;
    if |data| > 1 {
      var front, last := data[..|data| - 1], data[|data| - 1];
      assert data == front + [last];
      var d := Deduped(front, keycmp);
      DedupedKeepsFirst(front, key, keycmp);
      DedupedStep(front, last, keycmp);
      FirstAppend(front, [last], key, keycmp);
      FirstOne(last, key, keycmp);
      hide Deduped;
      var kept := d[|d| - 1];
      if keycmp(last.key, kept.key) != 0 {
        FirstAppend(d, [last], key, keycmp);
      } else if keycmp(last.key, key) == 0 {
        EqualKeys(kept.key, last.key, key, keycmp);
        assert d == d[..|d| - 1] + [kept];
        FirstAppend(d[..|d| - 1], [kept], key, keycmp);
        FirstOne(kept, key, keycmp);
      }
    }
  }

  lemma EqualKeys<K(!new)>(a: K, b: K, c: K, keycmp: Comparison<K>)
    requires TotalPreorder(keycmp) && keycmp(b, a) == 0 && keycmp(b, c) == 0
    ensures keycmp(a, c) == 0
  {
  }

  lemma ShortDeduped<K, V>(data: seq<KeyVal<K, V>>, keycmp: Comparison<K>)
    requires |data| <= 1
    ensures Deduped(data, keycmp) == data && Strict(data, keycmp)
  {
  }

  lemma SortedPrefix<T>(front: seq<T>, last: T, compar: Comparison<T>)
    requires Sorted(front + [last], compar)
    ensures Sorted(front, compar)
  {
    var s := front + [last];
    forall i, j | 0 <= i < j < |front|
      ensures compar(front[i], front[j]) <= 0
    {
      assert compar(s[i], s[j]) <= 0;
    }
  }

  lemma {:induction false} DedupedStrict<K(!new), V(!new)>(data: seq<KeyVal<K, V>>, keycmp: Comparison<K>)
    requires TotalPreorder(keycmp) && Sorted(data, ByKey(keycmp))
    ensures Strict(Deduped(data, keycmp), keycmp)
    ensures data != [] ==> Deduped(data, keycmp)[|Deduped(data, keycmp)| - 1] in data
    decreases |data|
  {
    hide TotalPreorder, Sorted, Strict, Deduped, ByKey;
    if |data| <= 1 {
      ShortDeduped(data, keycmp);
    } else {
      var front, last := data[..|data| - 1], data[|data| - 1];
      assert data == front + [last];
      SortedPrefix(front, last, ByKey(keycmp));
      DedupedStrict(front, keycmp);
      DedupedStep(front, last, keycmp);
      var d := Deduped(front, keycmp);
      var kept := d[|d| - 1];
      LastIsGreatest(front, last, kept, keycmp);
      if keycmp(last.key, kept.key) != 0 {
        StrictSnoc(d, last, keycmp);
      }
    }
  }

  lemma LastIsGreatest<K(!new), V(!new)>(front: seq<KeyVal<K, V>>, last: KeyVal<K, V>, x: KeyVal<K, V>, keycmp: Comparison<K>)
    requires Sorted(front + [last], ByKey(keycmp)) && x in front
    ensures keycmp(x.key, last.key) <= 0 && last in front + [last]
  {
    var s := front + [last];
    var k :| 0 <= k < |front| && front[k] == x;
    assert s[k] == x && s[|front|] == last;
    assert ByKey(keycmp)(s[k], s[|front|]) <= 0;
  }

  lemma StrictSnoc<K(!new), V(!new)>(front: seq<KeyVal<K, V>>, last: KeyVal<K, V>, keycmp: Comparison<K>)
    requires TotalPreorder(keycmp) && Strict(front, keycmp) && front != []
    requires keycmp(front[|front| - 1].key, last.key) <= 0 && keycmp(last.key, front[|front| - 1].key) != 0
    ensures Strict(front + [last], keycmp)
  {
    var z := |front| - 1;
    forall i | 0 <= i <= z
      ensures keycmp(front[i].key, last.key) < 0
    {
      if i < z {
        assert keycmp(front[i].key, front[z].key) < 0;
      }
    }
  }

  class AssocArray<K(!new), V(!new)> {
    var data: seq<KeyVal<K, V>>
    const keycmp: Comparison<K>

    constructor (keycmp: Comparison<K>)
      ensures data == [] && this.keycmp == keycmp
    {
      this.keycmp := keycmp;
      data := [];
    }

    /** Where the key is, or belongs. */
    method LowerBound(key: K) returns (i: nat, ismatch: bool)
      requires TotalPreorder(keycmp) && Strict(data, keycmp)
      ensures i <= |data| && (ismatch ==> i < |data| && keycmp(key, data[i].key) == 0)
      ensures forall j :: 0 <= j < i ==> keycmp(data[j].key, key) < 0
      ensures forall j :: (if ismatch then i + 1 else i) <= j < |data| ==> keycmp(data[j].key, key) > 0
    {
      hide TotalPreorder, Strict;
      var a, c := 0, |data|;
      while a != c
        invariant 0 <= a <= c <= |data|
        invariant forall j :: 0 <= j < a ==> keycmp(data[j].key, key) < 0
        invariant forall j :: c <= j < |data| ==> keycmp(data[j].key, key) > 0
        decreases c - a
      {
        var b := (a + c) / 2;
        var cmp := keycmp(key, data[b].key);
        if cmp > 0 {
          Below(data, b, key, keycmp);
          a := b + 1;
        } else if cmp < 0 {
          Above(data, b, key, keycmp);
          c := b;
        } else {
          Below(data, b, key, keycmp);
          Above(data, b, key, keycmp);
          return b, true;
        }
      }
      return a, false;
    }

    method Get(key: K) returns (r: Option<V>)
      requires TotalPreorder(keycmp) && Strict(data, keycmp)
      ensures r == First(data, key, keycmp)
    {
      var i, ismatch := LowerBound(key);
      if ismatch {
        MatchIsFirst(data, i, key, keycmp);
        r := Some(data[i].val);
      } else {
        FirstNone(data, key, keycmp);
        r := None;
      }
    }

    /** Sets the value of a key. */
    method Insert(key: K, val: V) returns (i: nat)
      requires TotalPreorder(keycmp) && Strict(data, keycmp)
      modifies this
      ensures Strict(data, keycmp) && i < |data| && data[i].val == val && keycmp(data[i].key, key) == 0
      ensures forall k :: First(data, k, keycmp) == if keycmp(k, key) == 0 then Some(val) else First(old(data), k, keycmp)
      ensures |data| == |old(data)| + if First(old(data), key, keycmp).Some? then 0 else 1
    {
      hide First, TotalPreorder, Strict;
      var ismatch;
      i, ismatch := LowerBound(key);
      if ismatch {
        Replaced(data, i, key, val, keycmp);
        data := data[i := data[i].(val := val)];
      } else {
        Inserted(data, i, key, val, keycmp);
        data := data[..i] + [KeyVal(key, val)] + data[i..];
      }
    }

    method Delete(key: K)
      requires TotalPreorder(keycmp) && Strict(data, keycmp)
      modifies this
      ensures Strict(data, keycmp)
      ensures forall k :: First(data, k, keycmp) == if keycmp(k, key) == 0 then None else First(old(data), k, keycmp)
    {
      hide First, TotalPreorder, Strict;
      var i, ismatch := LowerBound(key);
      Deleted(data, i, ismatch, key, keycmp);
      if ismatch {
        data := data[..i] + data[i + 1..];
      }
    }

    /** Adds at the end; the array is not in order until ResortStable. */
    method AddUnsorted(key: K, val: V)
      modifies this
      ensures data == old(data) + [KeyVal(key, val)]
    {
      data := data + [KeyVal(key, val)];
    }

    method RemoveDuplicateKeys()
      requires |data| > 1
      modifies this
      ensures data == Deduped(old(data), keycmp)
    {
      hide Deduped;
      ghost var all := data;
      var sz, cnt := |data|, 1;
      assert all[..1] == [all[0]];
      ShortDeduped(all[..1], keycmp);
      for x := 1 to sz
        invariant 1 <= cnt <= x && |data| == sz && data[x..] == all[x..] && data[..cnt] == Deduped(all[..x], keycmp)
      {
        assert data[x] == data[x..][0] == all[x] && all[..x + 1] == all[..x] + [all[x]];
        DedupedStep(all[..x], all[x], keycmp);
        if keycmp(data[x].key, data[cnt - 1].key) != 0 {
          if x != cnt {
            data := data[cnt := data[x]];
          }
          cnt := cnt + 1;
        }
      }
      assert all[..sz] == all;
      if cnt < sz {
        data := data[..cnt];
      }
    }

    /** Sorts what AddUnsorted added: the first value added for each key wins. */
    method ResortStable()
      requires TotalPreorder(keycmp)
      modifies this
      ensures Strict(data, keycmp)
      ensures forall k :: First(data, k, keycmp) == First(old(data), k, keycmp)
    {
      hide First, TotalPreorder, Strict, Deduped, MergeSorted;
      if |data| > 1 {
        var a := new KeyVal<K, V>[|data|](i requires 0 <= i < |data| reads this => data[i]);
        var tmp := new KeyVal<K, V>[|data|](i requires 0 <= i < |data| reads this => data[i]);
        ghost var all := data;
        MergeSort(a, 0, |data|, ByKey(keycmp), tmp, all);
        data := a[..];
        assert data == MergeSorted(all, ByKey(keycmp));
        RemoveDuplicateKeys();
        ResortedFirst(all, keycmp);
      } else {
        ShortDeduped(data, keycmp);
      }
    }
  }

  lemma Below<K(!new), V(!new)>(data: seq<KeyVal<K, V>>, b: nat, key: K, keycmp: Comparison<K>)
    requires TotalPreorder(keycmp) && Strict(data, keycmp) && b < |data| && keycmp(key, data[b].key) >= 0
    ensures forall j :: 0 <= j < b ==> keycmp(data[j].key, key) < 0
    ensures keycmp(key, data[b].key) > 0 ==> keycmp(data[b].key, key) < 0
  {
    forall j | 0 <= j < b
      ensures keycmp(data[j].key, key) < 0
    {
      assert keycmp(data[j].key, data[b].key) < 0;
    }
  }

  lemma Above<K(!new), V(!new)>(data: seq<KeyVal<K, V>>, b: nat, key: K, keycmp: Comparison<K>)
    requires TotalPreorder(keycmp) && Strict(data, keycmp) && b < |data| && keycmp(key, data[b].key) <= 0
    ensures forall j :: b < j < |data| ==> keycmp(data[j].key, key) > 0
    ensures keycmp(key, data[b].key) < 0 ==> keycmp(data[b].key, key) > 0
  {
    forall j | b < j < |data|
      ensures keycmp(data[j].key, key) > 0
    {
      assert keycmp(data[b].key, data[j].key) < 0;
    }
  }

  lemma MatchIsFirst<K(!new), V(!new)>(data: seq<KeyVal<K, V>>, i: nat, key: K, keycmp: Comparison<K>)
    requires TotalPreorder(keycmp) && i < |data| && keycmp(key, data[i].key) == 0
    requires forall j :: 0 <= j < i ==> keycmp(data[j].key, key) < 0
    ensures First(data, key, keycmp) == Some(data[i].val)
  {
    FirstAt(data, i, key, keycmp);
  }

  /** Sorting and removing duplicates changes no lookup. */
  lemma ResortedFirst<K(!new), V(!new)>(all: seq<KeyVal<K, V>>, keycmp: Comparison<K>)
    requires TotalPreorder(keycmp)
    ensures var r := Deduped(MergeSorted(all, ByKey(keycmp)), keycmp);
            Strict(r, keycmp) && forall k :: First(r, k, keycmp) == First(all, k, keycmp)
  {
    hide First, TotalPreorder, Strict, Deduped, MergeSorted, ByKey, Sorted;
    ByKeyIsPreorder<K, V>(keycmp);
    SortsStably(all, ByKey(keycmp));
    var s := MergeSorted(all, ByKey(keycmp));
    DedupedStrict(s, keycmp);
    forall k
      ensures First(Deduped(s, keycmp), k, keycmp) == First(all, k, keycmp)
    {
      DedupedKeepsFirst(s, k, keycmp);
      if all == [] {
        NothingSorted(keycmp, all);
      } else {
        var x := KeyVal(k, all[0].val);
        FirstOfClass(s, x, keycmp);
        FirstOfClass(all, x, keycmp);
      }
    }
  }

  lemma NothingSorted<K, V>(keycmp: Comparison<K>, all: seq<KeyVal<K, V>>)
    requires all == []
    ensures MergeSorted(all, ByKey(keycmp)) == all
  {
  }

  lemma Replaced<K(!new), V(!new)>(data: seq<KeyVal<K, V>>, i: nat, key: K, val: V, keycmp: Comparison<K>)
    requires TotalPreorder(keycmp) && Strict(data, keycmp) && i < |data| && keycmp(key, data[i].key) == 0
    ensures var r := data[i := data[i].(val := val)];
            Strict(r, keycmp) && keycmp(r[i].key, key) == 0 && First(data, key, keycmp).Some? &&
            forall k :: First(r, k, keycmp) == if keycmp(k, key) == 0 then Some(val) else First(data, k, keycmp)
  {
    var r := data[i := data[i].(val := val)];
    forall k
      ensures First(r, k, keycmp) == if keycmp(k, key) == 0 then Some(val) else First(data, k, keycmp)
    {
      SplitAt(data, i, k, keycmp);
      SplitAt(r, i, k, keycmp);
      assert r[..i] == data[..i] && r[i + 1..] == data[i + 1..];
      ApartFrom(data, i, key, k, keycmp);
    }
    SplitAt(data, i, key, keycmp);
    ApartFrom(data, i, key, key, keycmp);
  }

  /** A lookup, seen from one index. */
  lemma SplitAt<K, V>(data: seq<KeyVal<K, V>>, i: nat, k: K, keycmp: Comparison<K>)
    requires i < |data|
    ensures First(data, k, keycmp) ==
            if First(data[..i], k, keycmp).Some? then First(data[..i], k, keycmp)
            else if keycmp(data[i].key, k) == 0 then Some(data[i].val)
            else First(data[i + 1..], k, keycmp)
  {
    hide First;
    assert data == data[..i] + data[i..] && data[i..] == [data[i]] + data[i + 1..];
    FirstAppend(data[..i], data[i..], k, keycmp);
    FirstAppend([data[i]], data[i + 1..], k, keycmp);
    FirstOne(data[i], k, keycmp);
  }

  /** Entries on either side of a match have other keys. */
  lemma ApartFrom<K(!new), V(!new)>(data: seq<KeyVal<K, V>>, i: nat, key: K, k: K, keycmp: Comparison<K>)
    requires TotalPreorder(keycmp) && Strict(data, keycmp) && i < |data| && keycmp(key, data[i].key) == 0
    ensures keycmp(data[i].key, k) == 0 <==> keycmp(k, key) == 0
    ensures keycmp(k, key) == 0 ==> First(data[..i], k, keycmp) == None && First(data[i + 1..], k, keycmp) == None
  {
    if keycmp(k, key) == 0 {
      Below(data, i, k, keycmp);
      Above(data, i, k, keycmp);
      FirstNone(data[..i], k, keycmp);
      FirstNone(data[i + 1..], k, keycmp);
    }
  }

  lemma Inserted<K(!new), V(!new)>(data: seq<KeyVal<K, V>>, i: nat, key: K, val: V, keycmp: Comparison<K>)
    requires TotalPreorder(keycmp) && Strict(data, keycmp) && i <= |data|
    requires forall j :: 0 <= j < i ==> keycmp(data[j].key, key) < 0
    requires forall j :: i <= j < |data| ==> keycmp(data[j].key, key) > 0
    ensures var r := data[..i] + [KeyVal(key, val)] + data[i..];
            Strict(r, keycmp) && keycmp(r[i].key, key) == 0 && First(data, key, keycmp).None? &&
            forall k :: First(r, k, keycmp) == if keycmp(k, key) == 0 then Some(val) else First(data, k, keycmp)
  {
    FirstNone(data, key, keycmp);
    StrictAround(data, i, key, val, keycmp);
    hide TotalPreorder, Strict, First;
    Spliced(data, i, KeyVal(key, val));
    forall k
      ensures First(data[..i] + [KeyVal(key, val)] + data[i..], k, keycmp) ==
              if keycmp(k, key) == 0 then Some(val) else First(data, k, keycmp)
    {
      InsertedAt(data, i, key, val, k, keycmp);
    }
  }

  lemma Spliced<T>(data: seq<T>, i: nat, x: T)
    requires i <= |data|
    ensures var r := data[..i] + [x] + data[i..];
            |r| == |data| + 1 && r[i] == x && r[..i] == data[..i] && r[i + 1..] == data[i..]
  {
  }

  lemma InsertedAt<K(!new), V(!new)>(data: seq<KeyVal<K, V>>, i: nat, key: K, val: V, k: K, keycmp: Comparison<K>)
    requires TotalPreorder(keycmp) && i <= |data| && keycmp(key, key) == 0
    requires Strict(data[..i] + [KeyVal(key, val)] + data[i..], keycmp)
    ensures First(data[..i] + [KeyVal(key, val)] + data[i..], k, keycmp) ==
            if keycmp(k, key) == 0 then Some(val) else First(data, k, keycmp)
  {
    hide TotalPreorder, Strict, First;
    var r := data[..i] + [KeyVal(key, val)] + data[i..];
    Spliced(data, i, KeyVal(key, val));
    SplitAt(r, i, k, keycmp);
    assert data == data[..i] + data[i..];
    FirstAppend(data[..i], data[i..], k, keycmp);
    ApartFrom(r, i, key, k, keycmp);
  }

  lemma Turn<K(!new)>(a: K, b: K, keycmp: Comparison<K>)
    requires TotalPreorder(keycmp)
    ensures keycmp(a, b) > 0 ==> keycmp(b, a) < 0
    ensures keycmp(a, a) == 0
  {
  }

  lemma StrictAround<K(!new), V(!new)>(data: seq<KeyVal<K, V>>, i: nat, key: K, val: V, keycmp: Comparison<K>)
    requires TotalPreorder(keycmp) && Strict(data, keycmp) && i <= |data|
    requires forall j :: 0 <= j < i ==> keycmp(data[j].key, key) < 0
    requires forall j :: i <= j < |data| ==> keycmp(data[j].key, key) > 0
    ensures Strict(data[..i] + [KeyVal(key, val)] + data[i..], keycmp) && keycmp(key, key) == 0
  {
    hide TotalPreorder;
    var r := data[..i] + [KeyVal(key, val)] + data[i..];
    forall p, q | 0 <= p < q < |r|
      ensures keycmp(r[p].key, r[q].key) < 0
    {
      if q > i {
        Turn(data[q - 1].key, key, keycmp);
      }
    }
    Turn(key, key, keycmp);
  }

  lemma StrictWithout<K, V>(data: seq<KeyVal<K, V>>, i: nat, keycmp: Comparison<K>)
    requires Strict(data, keycmp) && i < |data|
    ensures Strict(data[..i] + data[i + 1..], keycmp)
  {
    var r := data[..i] + data[i + 1..];
    forall p, q | 0 <= p < q < |r|
      ensures keycmp(r[p].key, r[q].key) < 0
    {
      assert keycmp(data[if p < i then p else p + 1].key, data[if q < i then q else q + 1].key) < 0;
    }
  }

  lemma Deleted<K(!new), V(!new)>(data: seq<KeyVal<K, V>>, i: nat, ismatch: bool, key: K, keycmp: Comparison<K>)
    requires TotalPreorder(keycmp) && Strict(data, keycmp) && i <= |data|
    requires ismatch ==> i < |data| && keycmp(key, data[i].key) == 0
    requires forall j :: 0 <= j < i ==> keycmp(data[j].key, key) < 0
    requires forall j :: (if ismatch then i + 1 else i) <= j < |data| ==> keycmp(data[j].key, key) > 0
    ensures var r := if ismatch then data[..i] + data[i + 1..] else data;
            Strict(r, keycmp) &&
            forall k :: First(r, k, keycmp) == if keycmp(k, key) == 0 then None else First(data, k, keycmp)
  {
    var r := if ismatch then data[..i] + data[i + 1..] else data;
    if ismatch {
      StrictWithout(data, i, keycmp);
    }
    hide TotalPreorder, Strict, First;
    forall k
      ensures First(r, k, keycmp) == if keycmp(k, key) == 0 then None else First(data, k, keycmp)
    {
      if ismatch {
        SplitAt(data, i, k, keycmp);
        ApartFrom(data, i, key, k, keycmp);
        FirstAppend(data[..i], data[i + 1..], k, keycmp);
      } else if keycmp(k, key) == 0 {
        NoMatch(data, key, k, keycmp);
      }
    }
  }

  lemma NoMatch<K(!new), V(!new)>(data: seq<KeyVal<K, V>>, key: K, k: K, keycmp: Comparison<K>)
    requires TotalPreorder(keycmp) && keycmp(k, key) == 0 && forall j :: 0 <= j < |data| ==> keycmp(data[j].key, key) != 0
    ensures First(data, k, keycmp) == None
  {
    forall j | 0 <= j < |data|
      ensures keycmp(data[j].key, k) != 0
    {
      if keycmp(data[j].key, k) == 0 {
        EqualKeys(data[j].key, k, key, keycmp);
      }
    }
    FirstNone(data, k, keycmp);
  }
}
