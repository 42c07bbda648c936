/** Messages that carry lists of records, and chat messages (mpb.cpp): builders and parsers. */
module RecordLists {
  import opened Sequences
  import opened Bytes
  import opened Options

  /** A C string: no NUL inside. */
  type Text = s: seq<Byte> | forall i :: 0 <= i < |s| ==> s[i] != 0 witness []

  /** The string that starts at from: where its NUL is, or the end of the data. */
  function NulAt(data: seq<Byte>, from: nat): (r: nat)
    requires from <= |data|
    ensures from <= r <= |data| && (r < |data| ==> data[r] == 0)
    ensures forall i :: from <= i < r ==> data[i] != 0
    decreases |data| - from
  {
    if from == |data| || data[from] == 0 then from else NulAt(data, from + 1)
  }

  lemma NulExact(data: seq<Byte>, from: nat, r: nat)
    requires from <= r < |data| && data[r] == 0 && forall i :: from <= i < r ==> data[i] != 0
    ensures NulAt(data, from) == r
  {
    var k := NulAt(data, from);
    assert k < |data| ==> data[k] == 0;
  }

  lemma Middle(pre: seq<Byte>, s: seq<Byte>, post: seq<Byte>)
    ensures (pre + s + post)[|pre|..|pre| + |s|] == s
    ensures forall i :: |pre| <= i < |pre| + |s| ==> (pre + s + post)[i] == s[i - |pre|]
  {
  }

  lemma NulBehind(pre: seq<Byte>, s: Text, post: seq<Byte>)
    ensures var data := pre + s + [0] + post;
            NulAt(data, |pre|) == |pre| + |s| && data[|pre|..|pre| + |s|] == s
  {
    hide NulAt;
    var data := pre + s + ([0] + post);
    assert pre + s + [0] + post == data;
    Middle(pre, s, [0] + post);
    NulExact(data, |pre|, |pre| + |s|);
  }

  /** Walks over the string that starts at from. */
  method SkipText(data: seq<Byte>, from: nat) returns (p: nat)
    requires from <= |data|
    ensures p == NulAt(data, from)
  {
    p := from;
    while p < |data| && data[p] != 0
      invariant from <= p <= |data| && NulAt(data, p) == NulAt(data, from)
    {
      p := p + 1;
    }
  }

  // ----- reading a whole list -----

  /** A record read, and where the next one starts. */
  datatype Got<R> = Got(next: nat, rec: R)

  type Reader<!R> = (seq<Byte>, nat) -> Option<Got<R>>

  /** The loop around parse_get_rec, from one offset on. */
  function ReadAll<R>(get: Reader<R>, data: seq<Byte>, offs: nat): seq<R>
    decreases |data| - offs
  {
    match get(data, offs)
    case None => []
    case Some(g) =>
      if offs < g.next <= |data| then [g.rec] + ReadAll(get, data, g.next) else [g.rec]
  }

  function EncodeAll<R>(encode: R -> seq<Byte>, recs: seq<R>): seq<Byte> {
    if recs == [] then [] else EncodeAll(encode, recs[..|recs| - 1]) + encode(recs[|recs| - 1])
  }

  /** Behind a header, reading one record at its offset gives it back cleaned, and the next
      offset; at the end there is none. Offsets do not count the header. */
  ghost predicate ReadsBack<R(!new)>(encode: R -> seq<Byte>, get: Reader<R>, clean: R -> R, header: seq<Byte>) {
    && (forall pre: seq<Byte>, r, post: seq<Byte> :: header <= pre ==>
          get(pre + encode(r) + post, |pre| - |header|) == Some(Got(|pre| - |header| + |encode(r)|, clean(r))))
    && (forall data: seq<Byte> :: header <= data ==> get(data, |data| - |header|) == None)
    && (forall r :: |encode(r)| > 0)
  }

  function Mapped<R>(clean: R -> R, recs: seq<R>): seq<R> {
    seq(|recs|, i requires 0 <= i < |recs| => clean(recs[i]))
  }

  lemma {:induction false} EncodeAllSplit<R>(encode: R -> seq<Byte>, a: seq<R>, b: seq<R>)
    ensures EncodeAll(encode, a + b) == EncodeAll(encode, a) + EncodeAll(encode, b)
    decreases |b|
  {
    if b == [] {
      assert a + b == a;
    } else {
      var z := |b| - 1;
      EncodeAllSplit(encode, a, b[..z]);
      assert (a + b)[..|a + b| - 1] == a + b[..z];
      Regroup(EncodeAll(encode, a), EncodeAll(encode, b[..z]), encode(b[z]));
    }
  }

  lemma One<R>(encode: R -> seq<Byte>, r: R)
    ensures EncodeAll(encode, [r]) == encode(r)
  {
    assert [r][..0] == [];
  }

  /** Behind any header and any records already read: the rest of the list is read back, and
      nothing more. */
  lemma {:induction false} ListReadsBack<R(!new)>(encode: R -> seq<Byte>, get: Reader<R>, clean: R -> R,
                                                 header: seq<Byte>, pre: seq<Byte>, recs: seq<R>)
    requires ReadsBack(encode, get, clean, header) && header <= pre
    ensures ReadAll(get, pre + EncodeAll(encode, recs), |pre| - |header|) == Mapped(clean, recs)
    decreases |recs|
  {
    hide ReadsBack;
    var data := pre + EncodeAll(encode, recs);
    if recs == [] {
      assert data == pre;
      AtEnd(encode, get, clean, header, data);
    } else {
      var r, rest := recs[0], recs[1..];
      var post := EncodeAll(encode, rest);
      assert recs == [r] + rest;
      EncodeAllSplit(encode, [r], rest);
      One(encode, r);
      hide EncodeAll;
      Regroup(pre, encode(r), post);
      OneRead(encode, get, clean, header, pre, r, post);
      ListReadsBack(encode, get, clean, header, pre + encode(r), rest);
      assert Mapped(clean, recs) == [clean(r)] + Mapped(clean, rest);
    }
  }

  lemma AtEnd<R(!new)>(encode: R -> seq<Byte>, get: Reader<R>, clean: R -> R, header: seq<Byte>, data: seq<Byte>)
    requires ReadsBack(encode, get, clean, header) && header <= data
    ensures get(data, |data| - |header|) == None
  {
  }

  lemma OneRead<R(!new)>(encode: R -> seq<Byte>, get: Reader<R>, clean: R -> R, header: seq<Byte>, pre: seq<Byte>, r: R, post: seq<Byte>)
    requires ReadsBack(encode, get, clean, header) && header <= pre
    ensures get(pre + encode(r) + post, |pre| - |header|) == Some(Got(|pre| - |header| + |encode(r)|, clean(r)))
    ensures |encode(r)| > 0
  {
  }
}
