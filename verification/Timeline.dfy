/** The session timeline of a remote channel: segments of recorded audio laid over each other,
    the latest on top (njclient.cpp, AddSessionInfo and GetSessionInfo). Times are reals. */
module SessionTimeline {
  import opened IntervalTag
  import opened Options
  import opened Sequences

  const MIN_LENGTH := 0.05
  const MIN_ADDED := 0.2
  const MAX_ENTRIES := 65536

  /** From start on for length seconds, the media of guid plays from offset. */
  datatype Piece = Piece(guid: Guid, start: real, length: real, offset: real) {
    function End(): real {
      start + length
    }

    predicate Covers(t: real) {
      start <= t < End()
    }

    /** The media position heard at time t. */
    function Position(t: real): real {
      offset + (t - start)
    }
  }

  /** A segment added: guid plays from its beginning, from start on. */
  datatype Segment = Segment(guid: Guid, start: real, length: real) {
    function End(): real {
      start + length
    }

    predicate Covers(t: real) {
      start <= t < End()
    }

    predicate Accepted() {
      start >= 0.0 && length >= MIN_ADDED
    }

    function AsPiece(): Piece {
      Piece(guid, start, length, 0.0)
    }
  }

  predicate Ok(p: Piece) {
    p.length >= MIN_LENGTH && p.offset >= 0.0 && p.start >= 0.0
  }

  /** In time order, without overlap, no piece too short. */
  predicate Ordered(ps: seq<Piece>) {
    && (forall i :: 0 <= i < |ps| ==> Ok(ps[i]))
    && (forall i, j :: 0 <= i < j < |ps| ==> ps[i].End() <= ps[j].start)
  }

  // ----- what an addition means -----

  /** What the new segment leaves of a piece before itself. */
  function LeftOf(p: Piece, s: Segment): seq<Piece> {
    if p.start > s.start then []
    else if p.End() <= s.start then [p]
    else if s.start - p.start >= MIN_LENGTH then [p.(length := s.start - p.start)]
    else []
  }

  /** What it leaves behind itself. A piece it splits gets its guid for the tail. */
  function RightOf(p: Piece, s: Segment): seq<Piece> {
    if p.start >= s.End() && p.start > s.start then [p]
    else if p.End() <= s.start || p.End() - s.End() < MIN_LENGTH then []
    else [Piece(if p.start <= s.start then s.guid else p.guid, s.End(), p.End() - s.End(), p.offset + (s.End() - p.start))]
  }

  function Lefts(ps: seq<Piece>, s: Segment): seq<Piece> {
    if ps == [] then [] else LeftOf(ps[0], s) + Lefts(ps[1..], s)
  }

  function Rights(ps: seq<Piece>, s: Segment): seq<Piece> {
    if ps == [] then [] else RightOf(ps[0], s) + Rights(ps[1..], s)
  }

  predicate Room(ps: seq<Piece>, s: Segment) {
    |Lefts(ps, s)| + |Rights(ps, s)| < MAX_ENTRIES
  }

  function Added(ps: seq<Piece>, s: Segment): seq<Piece> {
    if !s.Accepted() then ps
    else Lefts(ps, s) + (if Room(ps, s) then [s.AsPiece()] else []) + Rights(ps, s)
  }

  lemma {:induction false} Split(ps: seq<Piece>, qs: seq<Piece>, s: Segment)
    ensures Lefts(ps + qs, s) == Lefts(ps, s) + Lefts(qs, s) && Rights(ps + qs, s) == Rights(ps, s) + Rights(qs, s)
  {
    hide LeftOf, RightOf;
    if ps == [] {
      assert ps + qs == qs;
    } else {
      assert (ps + qs)[1..] == ps[1..] + qs;
      Split(ps[1..], qs, s);
    }
  }

  /** Pieces that end before the segment stay. */
  lemma {:induction false} Before(ps: seq<Piece>, s: Segment)
    requires s.Accepted() && forall i :: 0 <= i < |ps| ==> Ok(ps[i]) && ps[i].End() <= s.start
    ensures Lefts(ps, s) == ps && Rights(ps, s) == []
  {
    if ps != [] {
      Before(ps[1..], s);
    }
  }

  /** So do pieces that start after it. */
  lemma {:induction false} After(ps: seq<Piece>, s: Segment)
    requires s.Accepted() && forall i :: 0 <= i < |ps| ==> ps[i].start >= s.End()
    ensures Lefts(ps, s) == [] && Rights(ps, s) == ps
  {
    if ps != [] {
      After(ps[1..], s);
    }
  }

  /** Pieces that start after the segment does have no left part. */
  lemma {:induction false} NoLefts(ps: seq<Piece>, s: Segment)
    requires forall i :: 0 <= i < |ps| ==> ps[i].start > s.start
    ensures Lefts(ps, s) == []
  {
    if ps != [] {
      NoLefts(ps[1..], s);
    }
  }

  /** Of the pieces that start no later than the segment, only the last can be cut. */
  lemma CutAtLast(ps: seq<Piece>, s: Segment)
    requires Ordered(ps) && s.Accepted() && ps != [] && ps[|ps| - 1].start <= s.start
    ensures var z := |ps| - 1;
            Lefts(ps, s) == ps[..z] + LeftOf(ps[z], s) && Rights(ps, s) == RightOf(ps[z], s)
  {
    hide LeftOf, RightOf, Lefts, Rights, Ordered, Ok;
    var z := |ps| - 1;
    var front := ps[..z];
    FrontEnds(ps, front, s.start);
    Split(front, [ps[z]], s);
    Before(front, s);
    assert front + [ps[z]] == ps;
    OneCut(ps[z], s);
  }

  lemma FrontEnds(ps: seq<Piece>, front: seq<Piece>, t: real)
    requires Ordered(ps) && ps != [] && ps[|ps| - 1].start <= t && front == ps[..|ps| - 1]
    ensures forall i :: 0 <= i < |front| ==> Ok(front[i]) && front[i].End() <= t
  {
  }

  lemma OneCut(p: Piece, s: Segment)
    ensures Lefts([p], s) == LeftOf(p, s) && Rights([p], s) == RightOf(p, s)
  {
    assert [p][1..] == [];
    hide LeftOf, RightOf;
  }

  /** Of the pieces that start later, those too short behind the segment go, one may be cut,
      the others stay. */
  lemma CutAtFirst(ps: seq<Piece>, s: Segment)
    requires Ordered(ps) && s.Accepted() && ps != [] && ps[0].start > s.start
    ensures if ps[0].start >= s.End() then Rights(ps, s) == ps
            else if ps[0].End() - s.End() < MIN_LENGTH then Rights(ps, s) == Rights(ps[1..], s)
            else Rights(ps, s) == RightOf(ps[0], s) + ps[1..]
  {
    if ps[0].start >= s.End() {
      After(ps, s);
    } else if ps[0].End() - s.End() >= MIN_LENGTH {
      After(ps[1..], s);
    }
  }

  /** Found: guid plays from offs for len seconds. Not found: nothing for len seconds. */
  datatype Answer = Found(guid: Guid, offs: real, len: real) | Silence(len: real)

  class SessionList {
    var sessioninfo: seq<Piece>

    constructor ()
      ensures sessioninfo == []
    {
      sessioninfo := [];
    }

    /** The first piece that starts later. */
    method FindLater(st: real) returns (x: nat)
      ensures x <= |sessioninfo| && (x < |sessioninfo| ==> st < sessioninfo[x].start)
      ensures forall i :: 0 <= i < x ==> sessioninfo[i].start <= st
    {
      x := 0;
      while x < |sessioninfo| && !(st < sessioninfo[x].start)
        invariant x <= |sessioninfo|
        invariant forall i :: 0 <= i < x ==> sessioninfo[i].start <= st
      {
        x := x + 1;
      }
    }

    /** Cuts the piece the segment starts in, at index x - 1, and says whether the segment
        splits it. */
    method CutPiecesEnd(s: Segment, at: nat) returns (x: nat, splits: bool)
      requires 0 < at <= |sessioninfo| && Ok(sessioninfo[at - 1]) && sessioninfo[at - 1].start <= s.start && s.Accepted()
      modifies this
      ensures var prev := old(sessioninfo)[at - 1];
              && x == at - 1 + |LeftOf(prev, s)|
              && sessioninfo == old(sessioninfo)[..at - 1] + LeftOf(prev, s) + RightOf(prev, s) + old(sessioninfo)[at..]
              && splits == (RightOf(prev, s) != []) && (splits ==> s.End() <= prev.End())
    {
      x, splits := at, false;
      var prev := sessioninfo[x - 1];
      PieceCut(prev, s);
      ghost var left, right := LeftOf(prev, s), RightOf(prev, s);
      hide LeftOf, RightOf, Ok;
      ghost var head, tail := sessioninfo[..x - 1], sessioninfo[x..];
      assert sessioninfo == head + [prev] + tail;
      if s.start < prev.End() {
        if s.End() <= prev.End() - MIN_LENGTH {
          var ns := Piece(s.guid, s.End(), prev.End() - s.End(), prev.offset + (s.End() - prev.start));
          sessioninfo := sessioninfo[..x] + [ns] + sessioninfo[x..];
          splits := true;
        }
        assert sessioninfo == head + [prev] + right + tail;
        var cut := prev.(length := s.start - prev.start);
        sessioninfo := sessioninfo[x - 1 := cut];
        assert sessioninfo == head + [cut] + right + tail;
        if s.start - prev.start < MIN_LENGTH {
          x := x - 1;
          sessioninfo := sessioninfo[..x] + sessioninfo[x + 1..];
          assert sessioninfo == head + left + right + tail;
        }
      }
    }

    /** Cuts the piece the segment starts in; says whether later pieces must be looked at. */
    method CutPrevious(s: Segment, at: nat) returns (x: nat, next: bool)
      requires Ordered(sessioninfo) && s.Accepted() && at <= |sessioninfo|
      requires forall i :: 0 <= i < |sessioninfo| ==> (sessioninfo[i].start <= s.start <==> i < at)
      modifies this
      ensures x == |Lefts(old(sessioninfo)[..at], s)|
      ensures sessioninfo == Lefts(old(sessioninfo)[..at], s) + Rights(old(sessioninfo)[..at], s) + old(sessioninfo)[at..]
      ensures next ==> at < |old(sessioninfo)| && Rights(old(sessioninfo)[..at], s) == []
      ensures !next ==> Rights(old(sessioninfo)[at..], s) == old(sessioninfo)[at..]
    {
      hide Lefts, Rights, LeftOf, RightOf;
      ghost var ps := sessioninfo;
      x, next := at, at < |sessioninfo|;
      if x == 0 {
        Before([], s);
        assert ps[..0] == [];
      } else {
        CutAtLast(ps[..at], s);
        assert ps[..at][..at - 1] == ps[..at - 1];
        var splits: bool;
        x, splits := CutPiecesEnd(s, at);
        if splits {
          next := false;
          After(ps[at..], s);
        }
      }
      if at == |ps| {
        NoRights(s);
      }
    }

    /** Looks at one piece the segment may run over; again when that piece is gone and another
        follows. */
    method CutNext(s: Segment, x: nat) returns (again: bool)
      requires x < |sessioninfo| && Ordered(sessioninfo[x..]) && sessioninfo[x].start > s.start && s.Accepted()
      modifies this
      ensures x <= |sessioninfo| && sessioninfo[..x] == old(sessioninfo)[..x]
      ensures again ==> x < |sessioninfo| && sessioninfo[x..] == old(sessioninfo)[x..][1..] && Rights(sessioninfo[x..], s) == Rights(old(sessioninfo)[x..], s)
      ensures !again ==> sessioninfo[x..] == Rights(old(sessioninfo)[x..], s)
    {
      hide Rights, RightOf;
      again := false;
      ghost var rest := sessioninfo[x..];
      CutAtFirst(rest, s);
      if s.End() > sessioninfo[x].start {
        var p := sessioninfo[x];
        var adj := s.End() - p.start;
        p := p.(start := p.start + adj, length := p.length - adj, offset := p.offset + adj);
        if p.length < MIN_LENGTH {
          sessioninfo := sessioninfo[..x] + sessioninfo[x + 1..];
          assert sessioninfo[x..] == rest[1..];
          again := x < |sessioninfo|;
          NoRights(s);
        } else {
          sessioninfo := sessioninfo[x := p];
          CutPiece(rest[0], s);
          assert sessioninfo[x..] == [p] + rest[1..];
        }
      }
    }

    /** Cuts the pieces the segment runs over. */
    method CutFollowing(s: Segment, x: nat)
      requires x < |sessioninfo| && Ordered(sessioninfo[x..]) && s.Accepted() && sessioninfo[x].start > s.start
      modifies this
      ensures sessioninfo == old(sessioninfo)[..x] + Rights(old(sessioninfo)[x..], s)
    {
      hide Rights, RightOf;
      var again := true;
      while again
        invariant x <= |sessioninfo| && sessioninfo[..x] == old(sessioninfo)[..x]
        invariant again ==> x < |sessioninfo| && Ordered(sessioninfo[x..]) && sessioninfo[x].start > s.start
        invariant again ==> Rights(sessioninfo[x..], s) == Rights(old(sessioninfo)[x..], s)
        invariant !again ==> sessioninfo[x..] == Rights(old(sessioninfo)[x..], s)
        decreases again, |sessioninfo|
      {
        ghost var rest := sessioninfo[x..];
        again := CutNext(s, x);
        if again {
          assert sessioninfo[x] == rest[1];
        }
      }
    }

    /** Makes room for the segment; it belongs at index x. */
    method CutAround(s: Segment, at: nat) returns (x: nat)
      requires Ordered(sessioninfo) && s.Accepted() && at <= |sessioninfo|
      requires forall i :: 0 <= i < |sessioninfo| ==> (sessioninfo[i].start <= s.start <==> i < at)
      modifies this
      ensures x == |Lefts(old(sessioninfo), s)| && sessioninfo == Lefts(old(sessioninfo), s) + Rights(old(sessioninfo), s)
    {
      hide Lefts, Rights, LeftOf, RightOf;
      ghost var ps, front, tail := sessioninfo, sessioninfo[..at], sessioninfo[at..];
      NoLefts(tail, s);
      Split(front, tail, s);
      assert front + tail == ps;
      assert Ordered(tail) && (tail != [] ==> tail[0].start > s.start);
      hide Ordered;
      ghost var lefts, rights := Lefts(front, s), Rights(front, s);
      var next: bool;
      x, next := CutPrevious(s, at);
      assert sessioninfo == lefts + rights + tail;
      if next {
        assert sessioninfo[..x] == lefts && sessioninfo[x..] == tail;
        CutFollowing(s, x);
      } else {
        Regroup(lefts, rights, tail);
      }
    }

    /** Lays a segment over what is there. */
    method AddSessionInfo(guid: Guid, st: real, len: real)
      requires Ordered(sessioninfo)
      modifies this
      ensures sessioninfo == Added(old(sessioninfo), Segment(guid, st, len))
    {
      hide Lefts, Rights, Ordered;
      if st < 0.0 || len < MIN_ADDED {
        return;
      }
      var s := Segment(guid, st, len);
      var at := FindLater(st);
      LaterOnes(sessioninfo, at, st);
      var x := CutAround(s, at);
      if len >= MIN_LENGTH && |sessioninfo| < MAX_ENTRIES {
        sessioninfo := sessioninfo[..x] + [Piece(guid, st, len, 0.0)] + sessioninfo[x..];
      }
    }

    /** The piece at a time, allowing the position to be off by one sample on either side. */
    method GetSessionInfo(time: real, mv: real) returns (a: Answer)
      requires Ordered(sessioninfo)
      ensures var p := Find(sessioninfo, time + 2.0 * mv);
              if p.Some? then
                a == Found(p.value.guid, if time < p.value.start then p.value.offset else p.value.Position(time), p.value.End() - time)
              else
                a.Silence? && a.len <= 1.0 &&
                (forall t :: time + 2.0 * mv <= t < time + a.len ==> Find(sessioninfo, t) == None) &&
                (a.len < 1.0 ==> exists i :: 0 <= i < |sessioninfo| && sessioninfo[i].start == time + a.len)
    {
      var m := mv * 2.0;
      FindIn(sessioninfo, time + m);
      for x := 0 to |sessioninfo|
        invariant forall i :: 0 <= i < x ==> sessioninfo[i].End() <= time + m
      {
        var p := sessioninfo[x];
        if time < p.start - m {
          var len := p.start - time;
          NoneBetween(sessioninfo, x, time + m);
          return Silence(if len > 1.0 then 1.0 else len);
        }
        if time < p.start + p.length - m {
          FoundAt(sessioninfo, x, time + m);
          if time < p.start {
            return Found(p.guid, p.offset, p.length + (p.start - time));
          } else {
            return Found(p.guid, time - p.start + p.offset, p.start + p.length - time);
          }
        }
      }
      NoneBetween(sessioninfo, |sessioninfo|, time + m);
      return Silence(1.0);
    }
  }

  /** The two parts of a piece the segment starts in or behind. */
  lemma PieceCut(p: Piece, s: Segment)
    requires Ok(p) && p.start <= s.start && s.Accepted()
    ensures LeftOf(p, s) == if s.start >= p.End() then [p]
                            else if s.start - p.start < MIN_LENGTH then [] else [p.(length := s.start - p.start)]
    ensures RightOf(p, s) == if s.End() <= p.End() - MIN_LENGTH
                             then [Piece(s.guid, s.End(), p.End() - s.End(), p.offset + (s.End() - p.start))] else []
  {
  }

  lemma LaterOnes(ps: seq<Piece>, at: nat, st: real)
    requires Ordered(ps) && at <= |ps| && (at < |ps| ==> st < ps[at].start)
    requires forall i :: 0 <= i < at ==> ps[i].start <= st
    ensures forall i :: 0 <= i < |ps| ==> (ps[i].start <= st <==> i < at)
    ensures Ordered(ps[at..]) && forall i :: 0 <= i < |ps[at..]| ==> ps[at..][i].start > st
  {
    forall i | at <= i < |ps|
      ensures ps[i].start > st
    {
      assert i == at || ps[at].End() <= ps[i].start;
    }
  }

  lemma NoRights(s: Segment)
    ensures Rights([], s) == []
  {
  }

  lemma CutPiece(p: Piece, s: Segment)
    requires Ok(p) && s.start < p.start < s.End() && p.End() - s.End() >= MIN_LENGTH
    ensures var adj := s.End() - p.start;
            RightOf(p, s) == [p.(start := p.start + adj, length := p.length - adj, offset := p.offset + adj)]
  {
  }

  // ----- every addition keeps the list in order -----

  predicate AllEndBy(ps: seq<Piece>, t: real) {
    forall i :: 0 <= i < |ps| ==> ps[i].End() <= t
  }

  predicate AllStartFrom(ps: seq<Piece>, t: real) {
    forall i :: 0 <= i < |ps| ==> ps[i].start >= t
  }

  lemma Joined(ps: seq<Piece>, qs: seq<Piece>, t: real)
    requires Ordered(ps) && Ordered(qs) && AllEndBy(ps, t) && AllStartFrom(qs, t)
    ensures Ordered(ps + qs)
  {
    var r := ps + qs;
    forall i, j | 0 <= i < j < |r|
      ensures r[i].End() <= r[j].start
    {
      if i < |ps| <= j {
        assert ps[i].End() <= t <= qs[j - |ps|].start;
      }
    }
  }

  lemma BothEndBy(ps: seq<Piece>, qs: seq<Piece>, t: real)
    requires AllEndBy(ps, t) && AllEndBy(qs, t)
    ensures AllEndBy(ps + qs, t)
  {
  }

  lemma BothStartFrom(ps: seq<Piece>, qs: seq<Piece>, t: real)
    requires AllStartFrom(ps, t) && AllStartFrom(qs, t)
    ensures AllStartFrom(ps + qs, t)
  {
  }

  lemma TailOrdered(ps: seq<Piece>)
    requires Ordered(ps) && ps != []
    ensures Ordered(ps[1..]) && Ok(ps[0]) && (|ps| > 1 ==> ps[0].start <= ps[0].End() <= ps[1].start)
  {
  }

  lemma LeftInBounds(p: Piece, s: Segment)
    requires Ok(p) && s.Accepted()
    ensures Ordered(LeftOf(p, s)) && AllEndBy(LeftOf(p, s), s.start)
    ensures AllStartFrom(LeftOf(p, s), p.start) && AllEndBy(LeftOf(p, s), p.End())
  {
  }

  lemma EmptyInBounds(t: real)
    ensures Ordered([]) && AllEndBy([], t) && AllStartFrom([], t)
  {
  }

  lemma Sooner(ps: seq<Piece>, t: real, u: real)
    requires AllStartFrom(ps, t) && u <= t
    ensures AllStartFrom(ps, u)
  {
  }

  lemma Later(ps: seq<Piece>, t: real, u: real)
    requires AllEndBy(ps, t) && t <= u
    ensures AllEndBy(ps, u)
  {
  }

  lemma {:induction false} LeftsOrdered(ps: seq<Piece>, s: Segment)
    requires Ordered(ps) && s.Accepted()
    ensures Ordered(Lefts(ps, s)) && AllEndBy(Lefts(ps, s), s.start)
    ensures ps != [] ==> AllStartFrom(Lefts(ps, s), ps[0].start)
  {
    hide Ordered, AllEndBy, AllStartFrom, LeftOf, Ok;
    EmptyInBounds(s.start);
    if ps != [] {
      TailOrdered(ps);
      var p, head := ps[0], LeftOf(ps[0], s);
      LeftInBounds(p, s);
      LeftsOrdered(ps[1..], s);
      var rest := Lefts(ps[1..], s);
      EmptyInBounds(p.End());
      if |ps| > 1 {
        Sooner(rest, ps[1].start, p.End());
      }
      Joined(head, rest, p.End());
      Sooner(rest, p.End(), p.start);
      BothEndBy(head, rest, s.start);
      BothStartFrom(head, rest, p.start);
    }
  }

  lemma {:induction false} RightsOrdered(ps: seq<Piece>, s: Segment)
    requires Ordered(ps) && s.Accepted()
    ensures Ordered(Rights(ps, s)) && AllStartFrom(Rights(ps, s), s.End())
    ensures ps != [] ==> AllStartFrom(Rights(ps, s), ps[0].start)
  {
    if ps != [] {
      RightsOrdered(ps[1..], s);
      var head, rest := RightOf(ps[0], s), Rights(ps[1..], s);
      if |ps| > 1 {
        assert ps[0].End() <= ps[1].start;
        Joined(head, rest, ps[1].start);
      }
    }
  }

  /** The list stays sorted and disjoint, with every piece at least 0.05 s long and no offset
      negative. */
  lemma AddedKeepsOrder(ps: seq<Piece>, s: Segment)
    requires Ordered(ps)
    ensures Ordered(Added(ps, s))
  {
    if s.Accepted() {
      LeftsOrdered(ps, s);
      RightsOrdered(ps, s);
      hide Lefts, Rights;
      var mid := if Room(ps, s) then [s.AsPiece()] else [];
      Joined(Lefts(ps, s), mid, s.start);
      Joined(Lefts(ps, s) + mid, Rights(ps, s), s.End());
    }
  }

  // ----- what is heard at a time -----

  datatype Place = Place(guid: Guid, position: real)

  /** The first piece that covers t. */
  function Find(ps: seq<Piece>, t: real): Option<Piece> {
    if ps == [] then None else if ps[0].Covers(t) then Some(ps[0]) else Find(ps[1..], t)
  }

  function At(ps: seq<Piece>, t: real): Option<Place> {
    match Find(ps, t)
    case None => None
    case Some(p) => Some(Place(p.guid, p.Position(t)))
  }

  lemma {:induction false} FindIn(ps: seq<Piece>, t: real)
    ensures match Find(ps, t)
            case Some(p) => p in ps && p.Covers(t)
            case None => forall i :: 0 <= i < |ps| ==> !ps[i].Covers(t)
  {
    if ps != [] {
      FindIn(ps[1..], t);
    }
  }

  lemma {:induction false} FindAppend(ps: seq<Piece>, qs: seq<Piece>, t: real)
    ensures Find(ps + qs, t) == if Find(ps, t).Some? then Find(ps, t) else Find(qs, t)
  {
    if ps == [] {
      assert ps + qs == qs;
    } else {
      assert (ps + qs)[1..] == ps[1..] + qs;
      FindAppend(ps[1..], qs, t);
    }
  }

  /** In an ordered list nothing after the first piece covers a time before that one's end. */
  lemma NoneEarlier(ps: seq<Piece>, t: real)
    requires Ordered(ps) && ps != [] && t < ps[0].End()
    ensures Find(ps[1..], t) == None
  {
    FindIn(ps[1..], t);
    forall i | 0 <= i < |ps| - 1
      ensures !ps[1..][i].Covers(t)
    {
      assert ps[0].End() <= ps[i + 1].start;
    }
  }

  predicate Cut(p: Piece, s: Segment) {
    p.start < s.End() && s.start < p.End()
  }

  /** The new segment leaves too little of the piece on the side of t. */
  predicate Trimmed(p: Piece, s: Segment, t: real) {
    Cut(p, s) && (if t < s.start then s.start - p.start < 0.05 else p.End() - s.End() < 0.05)
  }

  /** The new segment lies inside the piece, and t behind it. */
  predicate SplitBefore(p: Piece, s: Segment, t: real) {
    Cut(p, s) && p.start <= s.start && t >= s.End()
  }

  lemma {:induction false} LeftsAt(ps: seq<Piece>, s: Segment, t: real)
    requires Ordered(ps) && s.Accepted()
    ensures t >= s.start ==> At(Lefts(ps, s), t) == None
    ensures t < s.start ==>
              At(Lefts(ps, s), t) ==
              if Find(ps, t).Some? && !Trimmed(Find(ps, t).value, s, t) then At(ps, t) else None
  {
    if ps != [] {
      LeftsAt(ps[1..], s, t);
      FindAppend(LeftOf(ps[0], s), Lefts(ps[1..], s), t);
      FindOne(LeftOf(ps[0], s), t);
      if t < ps[0].End() {
        NoneEarlier(ps, t);
      }
    }
  }

  lemma FindOne(ps: seq<Piece>, t: real)
    requires |ps| <= 1
    ensures Find(ps, t) == if ps != [] && ps[0].Covers(t) then Some(ps[0]) else None
  {
    if ps != [] {
      assert ps[1..] == [];
    }
  }

  /** The place in a piece, with the guid of the segment that split it. */
  function Kept(p: Piece, s: Segment, t: real): Place {
    Place(if SplitBefore(p, s, t) then s.guid else p.guid, p.Position(t))
  }

  lemma {:induction false} RightsAt(ps: seq<Piece>, s: Segment, t: real)
    requires Ordered(ps) && s.Accepted()
    ensures t < s.End() ==> At(Rights(ps, s), t) == None
    ensures t >= s.End() ==>
              At(Rights(ps, s), t) ==
              if Find(ps, t).Some? && !Trimmed(Find(ps, t).value, s, t) then Some(Kept(Find(ps, t).value, s, t)) else None
  {
    if ps != [] {
      RightsAt(ps[1..], s, t);
      FindAppend(RightOf(ps[0], s), Rights(ps[1..], s), t);
      FindOne(RightOf(ps[0], s), t);
      if t < ps[0].End() {
        NoneEarlier(ps, t);
      }
    }
  }

  /** One addition, at every time: the new segment where it lies, if there is room; elsewhere
      what was there, unless the rest of its piece on that side is under 0.05 s. */
  lemma AddedAt(ps: seq<Piece>, s: Segment, t: real)
    requires Ordered(ps) && s.Accepted()
    ensures At(Added(ps, s), t) ==
            if s.Covers(t) then (if Room(ps, s) then Some(Place(s.guid, t - s.start)) else None)
            else if Find(ps, t).None? || Trimmed(Find(ps, t).value, s, t) then None
            else Some(Kept(Find(ps, t).value, s, t))
  {
    hide Lefts, Rights, Room, Ordered;
    var mid := if Room(ps, s) then [s.AsPiece()] else [];
    LeftsAt(ps, s, t);
    RightsAt(ps, s, t);
    FindAppend(Lefts(ps, s) + mid, Rights(ps, s), t);
    FindAppend(Lefts(ps, s), mid, t);
    FindOne(mid, t);
  }

  // ----- whole histories -----

  /** The list after all these additions. */
  function Timeline(adds: seq<Segment>): (ps: seq<Piece>)
    ensures Ordered(ps)
  {
    if adds == [] then []
    else
      var front, last := Timeline(adds[..|adds| - 1]), adds[|adds| - 1];
      AddedKeepsOrder(front, last);
      Added(front, last)
  }

  /** A segment that is laid down at all. */
  predicate Counts(s: Segment) {
    s.start >= 0.0 && s.length >= 0.2
  }

  /** The most recent of those that cover t. */
  function Latest(adds: seq<Segment>, t: real): (r: Option<Segment>)
    ensures r.Some? ==> r.value in adds && Counts(r.value) && r.value.start <= t < r.value.start + r.value.length
  {
    if adds == [] then None
    else
      var s := adds[|adds| - 1];
      if Counts(s) && s.start <= t < s.start + s.length then Some(s) else Latest(adds[..|adds| - 1], t)
  }

  /** What was there at t was lost: when it was added the list was full, or a later segment
      left less than 0.05 s of its piece. */
  predicate Lost(adds: seq<Segment>, t: real) {
    adds != [] &&
    var front, s := adds[..|adds| - 1], adds[|adds| - 1];
    if !Counts(s) then Lost(front, t)
    else if s.Covers(t) then |Lefts(Timeline(front), s)| + |Rights(Timeline(front), s)| >= 65536
    else Lost(front, t) || (Find(Timeline(front), t).Some? && Trimmed(Find(Timeline(front), t).value, s, t))
  }

  /** The last segment that split the piece under t in front of t, since the latest that
      covers t. */
  function LastSplit(adds: seq<Segment>, t: real): Option<Segment> {
    if adds == [] then None
    else
      var front, s := adds[..|adds| - 1], adds[|adds| - 1];
      if !Counts(s) then LastSplit(front, t)
      else if s.Covers(t) then None
      else if Find(Timeline(front), t).Some? && SplitBefore(Find(Timeline(front), t).value, s, t) then Some(s)
      else LastSplit(front, t)
  }

  /** After any additions, at every time: the media position is that in the most recently added
      segment covering it, and it is uncovered only where that segment was lost. */
  lemma {:induction false} LatestAddedWins(adds: seq<Segment>, t: real)
    ensures At(Timeline(adds), t).Some? <==> Latest(adds, t).Some? && !Lost(adds, t)
    ensures At(Timeline(adds), t).Some? ==>
              && At(Timeline(adds), t).value.position == t - Latest(adds, t).value.start
              && At(Timeline(adds), t).value.guid ==
                 if LastSplit(adds, t).Some? then LastSplit(adds, t).value.guid else Latest(adds, t).value.guid
    decreases |adds|
  {
    hide Added, Lefts, Rights, Trimmed, SplitBefore;
    if adds != [] {
      var front, s := adds[..|adds| - 1], adds[|adds| - 1];
      LatestAddedWins(front, t);
      if s.Accepted() {
        AddedAt(Timeline(front), s, t);
      } else {
        NotAdded(Timeline(front), s);
      }
    }
  }

  lemma {:induction false} PartsBound(ps: seq<Piece>, s: Segment)
    requires Ordered(ps) && Counts(s)
    ensures |Lefts(ps, s)| + |Rights(ps, s)| <= |ps| + if ps != [] && ps[0].start <= s.start then 1 else 0
  {
    if ps != [] {
      PartsBound(ps[1..], s);
      if |ps| > 1 {
        assert ps[0].End() <= ps[1].start;
      }
    }
  }

  /** Each addition makes the list longer by two at most, so the first 32768 always find room. */
  lemma {:induction false} FewAdditionsFit(adds: seq<Segment>)
    ensures |Timeline(adds)| <= 2 * |adds|
    ensures 0 < |adds| <= 32768 && Counts(adds[|adds| - 1]) ==>
              adds[|adds| - 1].AsPiece() in Timeline(adds)
    decreases |adds|
  {
    hide Lefts, Rights, Ordered;
    if adds != [] {
      var front, s := adds[..|adds| - 1], adds[|adds| - 1];
      FewAdditionsFit(front);
      if Counts(s) {
        PartsBound(Timeline(front), s);
        if Room(Timeline(front), s) {
          assert Added(Timeline(front), s)[|Lefts(Timeline(front), s)|] == s.AsPiece();
        }
      }
    }
  }

  lemma NotAdded(ps: seq<Piece>, s: Segment)
    requires !s.Accepted()
    ensures Added(ps, s) == ps
  {
  }

  /** The guid reported is that segment's own exactly when no later segment with another guid
      split its piece in front of t. */
  lemma GuidIsLatestIffNotSplit(adds: seq<Segment>, t: real)
    requires At(Timeline(adds), t).Some?
    ensures Latest(adds, t).Some?
    ensures At(Timeline(adds), t).value.guid == Latest(adds, t).value.guid <==>
            LastSplit(adds, t) == None || LastSplit(adds, t).value.guid == Latest(adds, t).value.guid
  {
    hide Timeline, Latest, LastSplit, Lost;
    LatestAddedWins(adds, t);
  }

  /** Ten seconds of one recording, one second of another laid into it: behind that second the
      list plays the first recording on, under the guid of the second. */
  lemma SplitTailChangesGuid(g: Guid, h: Guid)
    requires g != h
    ensures var adds := [Segment(g, 0.0, 10.0), Segment(h, 2.0, 1.0)];
            Latest(adds, 5.0) == Some(adds[0]) && At(Timeline(adds), 5.0) == Some(Place(h, 5.0))
  {
    var a, b := Segment(g, 0.0, 10.0), Segment(h, 2.0, 1.0);
    var adds := [a, b];
    assert adds[..1] == [a] && [a][..0] == [];
    assert Timeline([]) == [] && Lefts([], a) == [] && Rights([], a) == [];
    assert Timeline([a]) == [a.AsPiece()];
    FindOne([a.AsPiece()], 5.0);
    OneCut(a.AsPiece(), b);
    AddedAt([a.AsPiece()], b, 5.0);
    assert Timeline(adds) == Added([a.AsPiece()], b);
  }

  // ----- looking up -----

  lemma NoneBetween(ps: seq<Piece>, x: nat, from: real)
    requires Ordered(ps) && x <= |ps| && (x < |ps| ==> from < ps[x].start) && forall i :: 0 <= i < x ==> ps[i].End() <= from
    ensures forall t :: from <= t && (x < |ps| ==> t < ps[x].start) ==> Find(ps, t) == None
  {
    forall t | from <= t && (x < |ps| ==> t < ps[x].start)
      ensures Find(ps, t) == None
    {
      FindIn(ps, t);
    }
  }

  lemma FoundAt(ps: seq<Piece>, x: nat, t: real)
    requires Ordered(ps) && x < |ps| && ps[x].Covers(t)
    ensures Find(ps, t) == Some(ps[x])
  {
    FindIn(ps, t);
  }
}
