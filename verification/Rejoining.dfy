/** A channel that rejoins its siblings' interval grid is placed on the right queue position
    (njclient.cpp, rejoinIntervalGrid). */
module Rejoining {
  import opened IntervalTag
  import opened Options
  import opened Channels

  ghost predicate Near(t: real, at: real, intervalMs: real) {
    -intervalMs / 4.0 < t - at < intervalMs / 4.0
  }

  /** k intervals of time. */
  function Span(k: int, intervalMs: real): real {
    k as real * intervalMs
  }

  /** Downloads are compared by their ENDs when ours has ended and one of the sibling's has. */
  predicate ByEnd(q: seq<Option<Decode>>, ours: Decode)
    requires |q| == 3
  {
    ours.endMs > 0.0 && FirstEnded(q) < 3
  }

  /** ENDs, or BEGINs when those are compared, reach us about one interval apart, with less
      than a quarter interval of jitter. */
  ghost predicate OnGrid(ref: Channel, ours: Decode, first: int, mine: int, base: real, intervalMs: real)
    requires ref.ds.Some?
  {
    var q := [ref.ds, ref.next0, ref.next1];
    && intervalMs > 0.0
    && Near(if ByEnd(q, ours) then ours.endMs else ours.beginMs, base + Span(mine, intervalMs), intervalMs)
    && if ByEnd(q, ours) then EndsNear(q, first, base, intervalMs) else BeginsNear(q, first, base, intervalMs)
  }

  ghost predicate EndsNear(q: seq<Option<Decode>>, first: int, base: real, intervalMs: real)
    requires |q| == 3
  {
    forall j :: 0 <= j < 3 && q[j].Some? && q[j].value.endMs > 0.0 ==>
      Near(q[j].value.endMs, base + Span(first + j, intervalMs), intervalMs)
  }

  ghost predicate BeginsNear(q: seq<Option<Decode>>, first: int, base: real, intervalMs: real)
    requires |q| == 3
  {
    forall j :: 0 <= j < 3 && q[j].Some? ==> Near(q[j].value.beginMs, base + Span(first + j, intervalMs), intervalMs)
  }

  lemma Spans(k: int, j: int, intervalMs: real)
    ensures Span(k, intervalMs) - Span(j, intervalMs) == Span(k - j, intervalMs)
  {
  }

  lemma NearestWhole(lag: real, k: int, intervalMs: real)
    requires intervalMs > 0.0
    requires -intervalMs / 2.0 < lag - Span(k, intervalMs) < intervalMs / 2.0
    ensures (lag / intervalMs + 0.5).Floor == k
  {
    var x := lag / intervalMs - k as real;
    assert x * intervalMs == lag - Span(k, intervalMs);
    if x >= 0.5 {
      Scale(0.5, x, intervalMs);
    }
    if x <= -0.5 {
      Scale(x, -0.5, intervalMs);
    }
    FloorIs(lag / intervalMs + 0.5, k);
  }

  lemma FloorIs(y: real, k: int)
    requires k as real <= y < k as real + 1.0
    ensures y.Floor == k
  {
  }

  lemma Scale(a: real, b: real, m: real)
    requires a <= b && m >= 0.0
    ensures a * m <= b * m
  {
  }

  lemma EntryOnGrid(q: seq<Option<Decode>>, i: nat, first: int, base: real, intervalMs: real)
    requires |q| == 3 && i < 3 && q[i].Some? && FirstEnded(q) < 3 && EndsNear(q, first, base, intervalMs)
    ensures Near(EndTime(q, i, intervalMs), base + Span(first + i, intervalMs), intervalMs)
  {
    hide Span, FirstEnded;
    var f := FirstEnded(q);
    assert Near(q[f].value.endMs, base + Span(first + f, intervalMs), intervalMs);
    Spans(first + i, first + f, intervalMs);
    SpanIs(i - f, intervalMs);
  }

  lemma SpanIs(k: int, intervalMs: real)
    ensures Span(k, intervalMs) == k as real * intervalMs
  {
  }

  /** How far the entry is behind ours, within half an interval. */
  lemma LagOnGrid(q: seq<Option<Decode>>, i: nat, ours: Decode, first: int, mine: int, base: real, intervalMs: real)
    requires |q| == 3 && i < 3 && q[i].Some? && intervalMs > 0.0
    requires Near(if ByEnd(q, ours) then ours.endMs else ours.beginMs, base + Span(mine, intervalMs), intervalMs)
    requires if ByEnd(q, ours) then EndsNear(q, first, base, intervalMs) else BeginsNear(q, first, base, intervalMs)
    ensures -intervalMs / 2.0 < Lag(q, i, ours, intervalMs) - Span(first + i - mine, intervalMs) < intervalMs / 2.0
  {
    hide EndTime, FirstEnded, Span;
    Spans(first + i, mine, intervalMs);
    if ByEnd(q, ours) {
      EntryOnGrid(q, i, first, base, intervalMs);
    }
  }

  /** The estimate is the exact distance between our interval and the one the sibling plays,
      whichever of its entries is nearest. */
  lemma RejoinFindsDepth(ref: Channel, ours: Decode, first: int, mine: int, base: real, intervalMs: real)
    requires ref.ds.Some? && OnGrid(ref, ours, first, mine, base, intervalMs)
    ensures SiblingPosition(ref, ours, intervalMs) == mine - first
  {
    hide Lag, Nearest, ByEnd, EndsNear, BeginsNear, Near, Span;
    var q := [ref.ds, ref.next0, ref.next1];
    var near := Nearest(q, 2, ours, intervalMs);
    LagOnGrid(q, near, ours, first, mine, base, intervalMs);
    NearestWhole(Lag(q, near, ours, intervalMs), first + near - mine, intervalMs);
  }

  /** So the channel waits one swap exactly when its interval is later than the one the
      sibling plays, and nothing is queued behind it. */
  lemma RejoinHoldsIfAhead(u: User, ch: int, aligns: bool, first: int, mine: int, base: real, intervalMs: real)
    requires 0 <= ch < |u.chs| && u.chs[ch].IntervalMode() && u.chs[ch].ds.Some? && Reference(u, ch, 0) >= 0
    requires !aligns || IntervalOf(u.chs[ch].ds.value.guid).None?
    requires OnGrid(u.chs[Reference(u, ch, 0)], u.chs[ch].ds.value, first, mine, base, intervalMs)
    ensures var c, r := u.chs[ch], Rejoined(u, ch, intervalMs, aligns);
            r.rejoin == 0 && r.Queue() == c.Queue() && r.hold == if mine > first && c.next0.None? && c.next1.None? then 1 else 0
  {
    hide OnGrid, SiblingPosition, Reference, IntervalOf;
    RejoinFindsDepth(u.chs[Reference(u, ch, 0)], u.chs[ch].ds.value, first, mine, base, intervalMs);
  }

  /** A sibling whose grid a channel may follow, whether it plays now or not. */
  predicate Sibling(u: User, ch: int, i: int) {
    && 0 <= i < |u.chs| && i != ch && i in u.present
    && !u.chs[i].live && !u.chs[i].session && !u.chs[i].videoOnly && u.chs[i].rejoin == 0
  }

  predicate SiblingPlays(u: User, ch: int, i: int) {
    Sibling(u, ch, i) && u.chs[i].ds.Some? && u.chs[i].hold == 0
  }

  /** What becomes of the mark: a channel with nothing to place keeps it; while it has siblings and
      none of them plays, it tries again at the next swap; else it is done, and its queue is as before. */
  lemma RejoinTriesUntil(u: User, ch: int, intervalMs: real, aligns: bool)
    requires 0 <= ch < |u.chs| && u.chs[ch].rejoin > 0
    ensures var c, r := u.chs[ch], Rejoined(u, ch, intervalMs, aligns);
            && r == c.(rejoin := r.rejoin, hold := r.hold) && (r.hold != c.hold ==> exists i :: SiblingPlays(u, ch, i))
            && (r.rejoin > 0 <==>
                  && !c.live && !c.session
                  && (c.ds.None? || ((!aligns || IntervalOf(c.ds.value.guid).None?) &&
                                     (exists i :: Sibling(u, ch, i)) && !exists i :: SiblingPlays(u, ch, i))))
  {
    hide SiblingPosition, IntervalOf;
    assert forall i :: 0 <= i < |u.chs| ==> (Follows(u, ch, i) <==> Sibling(u, ch, i));
    assert forall i :: 0 <= i < |u.chs| ==> (Follows(u, ch, i) && Sounds(u.chs[i]) <==> SiblingPlays(u, ch, i));
  }
}
