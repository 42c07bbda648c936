/** A remote user's channels and their interval queues: what every locked section of
    njclient.cpp does to them. */
module Channels {
  import opened IntervalTag
  import opened Options

  const MAX_CHANNELS := 32

  /** A download being decoded; endMs is 0.0 until its END arrived. */
  datatype Decode = Decode(guid: Guid, beginMs: real, endMs: real)

  /** A channel: three flag bits, the interval playing (ds), the two queued behind it, the
      swaps ds still waits, and whether it must rejoin its siblings' interval grid. */
  datatype Channel = Channel(
    live: bool, session: bool, videoOnly: bool,
    ds: Option<Decode>, next0: Option<Decode>, next1: Option<Decode>,
    hold: nat, rejoin: nat)
  {
    predicate IntervalMode() {
      !live && !session
    }

    function Queue(): seq<Decode> {
      One(ds) + One(next0) + One(next1)
    }

    function Flushed(): Channel {
      this.(ds := None, next0 := None, next1 := None, hold := 0)
    }

    /** The queue moves up by one. */
    function Advanced(): Channel {
      this.(ds := next0, next0 := next1, next1 := None)
    }
  }

  function One<T>(o: Option<T>): seq<T> {
    if o.Some? then [o.value] else []
  }

  const IDLE := Channel(false, false, false, None, None, None, 0, 0)

  datatype User = User(chs: seq<Channel>, sub: set<int>, present: set<int>) {
    /** Subscribed and present. */
    predicate Playable(i: int) {
      i in sub && i in present
    }
  }

  // ----- arrivals and resets -----

  /** A download became playable (startPlaying), or a download-free interval was announced;
      None when it cannot be decoded. */
  function Arrived(c: Channel, d: Option<Decode>): Channel {
    if c.session then c
    else if c.next0.None? then c.(next0 := d)
    else c.(next1 := d)
  }

  /** A silent interval was announced. */
  function Silenced(c: Channel): Channel {
    if c.session || c.live then c
    else if c.next0.None? then c
    else c.(next1 := None)
  }

  /** The channel's mode was announced; a change of live or session mode empties the queue. */
  function Announced(c: Channel, live: bool, session: bool, videoOnly: bool): Channel {
    if c.live != live || c.session != session then
      c.Flushed().(live := live, session := session, videoOnly := videoOnly,
                   rejoin := if c.live && !live && !session then 1 else 0)
    else c.(videoOnly := videoOnly)
  }

  function MarkEnded(o: Option<Decode>, g: Guid, t: real): Option<Decode> {
    if o.Some? && o.value.guid == g then Some(o.value.(endMs := t)) else o
  }

  /** The END of a download reached its shared buffer. */
  function Ended(c: Channel, g: Guid, t: real): Channel {
    c.(ds := MarkEnded(c.ds, g, t), next0 := MarkEnded(c.next0, g, t), next1 := MarkEnded(c.next1, g, t))
  }

  // ----- the swap -----

  /** One channel at an interval swap. */
  function Swapped(c: Channel, playable: bool, late: bool): Channel {
    if c.IntervalMode() && c.hold > 0 then c.(hold := c.hold - 1)
    else if c.IntervalMode() && !c.videoOnly && late then c.(ds := None)
    else if c.IntervalMode() then
      c.(ds := if playable then c.next0 else None, next0 := c.next1, next1 := None)
    else c
  }

  /** It starts playing at this swap after playing nothing. */
  predicate JoinsAtSwap(c: Channel, playable: bool, late: bool) {
    c.IntervalMode() && c.hold == 0 && (c.videoOnly || !late) && c.ds.None? && playable && c.next0.Some?
  }

  /** A download about to start on this channel is younger than the guard. */
  predicate StartsLate(u: User, i: int, now: real, guard: real)
    requires 0 <= i < |u.chs|
  {
    var c := u.chs[i];
    c.IntervalMode() && !c.videoOnly && c.hold == 0 && u.Playable(i) && c.next0.Some? &&
    c.next0.value.beginMs > 0.0 && now - c.next0.value.beginMs < guard
  }

  /** How long an interval of this many samples takes. */
  function IntervalMs(length: nat, srate: int): real {
    if srate > 0 then length as real * 1000.0 / srate as real else 0.0
  }

  /** The age below which a download starts late: as configured, at most a quarter interval. */
  function LateStartGuard(configMs: real, intervalMs: real): (guard: real)
    ensures guard >= 0.0 && (guard == 0.0 || guard <= configMs)
    ensures intervalMs > 0.0 ==> 4.0 * guard <= intervalMs
  {
    var guard := if configMs > 0.0 then configMs else 0.0;
    if intervalMs > 0.0 && intervalMs * 0.25 < guard then intervalMs * 0.25 else guard
  }

  /** Some download about to start is too young: the user plays one interval later. */
  predicate IsLate(u: User, now: real, guard: real) {
    guard > 0.0 && exists i :: 0 <= i < |u.chs| && StartsLate(u, i, now, guard)
  }

  // ----- holding -----

  /** A hold is at most one swap, and none when an interval is already queued. */
  function Held(c: Channel, swaps: nat): Channel {
    var room := if c.next0.Some? || c.next1.Some? then 0 else 1;
    c.(hold := if swaps < room then swaps else room)
  }

  // ----- alignment -----

  /** The channel takes part in the alignment. */
  predicate Tagged(u: User, i: int)
    requires 0 <= i < |u.chs|
  {
    Candidate(u, i) && IntervalOf(u.chs[i].ds.value.guid).Some?
  }

  predicate Candidate(u: User, i: int)
    requires 0 <= i < |u.chs|
  {
    var c := u.chs[i];
    c.IntervalMode() && !c.videoOnly && c.ds.Some? && c.hold == 0 && u.Playable(i)
  }

  function Number(u: User, i: int): int
    requires 0 <= i < |u.chs| && Tagged(u, i)
  {
    IntervalOf(u.chs[i].ds.value.guid).value
  }

  /** The aligned channels among the first k, in index order. */
  function Aligning(u: User, k: nat): (r: seq<int>)
    requires k <= |u.chs|
    ensures forall j :: 0 <= j < |r| ==> 0 <= r[j] < k && Tagged(u, r[j])
    ensures forall i :: 0 <= i < k && Tagged(u, i) ==> i in r
  {
    if k == 0 then []
    else if Tagged(u, k - 1) then Aligning(u, k - 1) + [k - 1]
    else Aligning(u, k - 1)
  }

  function Numbers(u: User, list: seq<int>): (r: seq<int>)
    requires forall j :: 0 <= j < |list| ==> 0 <= list[j] < |u.chs| && Tagged(u, list[j])
    ensures |r| == |list| && forall j :: 0 <= j < |r| ==> r[j] == Number(u, list[j])
  {
    seq(|list|, j requires 0 <= j < |list| => Number(u, list[j]))
  }

  function PlayingGuid(u: User, i: int): Guid
    requires 0 <= i < |u.chs| && Tagged(u, i)
  {
    u.chs[i].ds.value.guid
  }

  predicate OneSession(u: User, list: seq<int>)
    requires forall j :: 0 <= j < |list| ==> 0 <= list[j] < |u.chs| && Tagged(u, list[j])
  {
    forall j :: 0 <= j < |list| ==> SameSession(PlayingGuid(u, list[0]), PlayingGuid(u, list[j]))
  }

  /** The earliest and latest number as the scan in alignUserChannels finds them. */
  function Lowest(iv: seq<int>): (r: int)
    requires |iv| > 0
    ensures r in iv
  {
    if |iv| == 1 then iv[0]
    else
      var l := Lowest(iv[..|iv| - 1]);
      if Ahead(iv[|iv| - 1], l) < 0 then iv[|iv| - 1] else l
  }

  function Highest(iv: seq<int>): (r: int)
    requires |iv| > 0
    ensures r in iv
  {
    if |iv| == 1 then iv[0]
    else
      var h := Highest(iv[..|iv| - 1]);
      if Ahead(iv[|iv| - 1], h) > 0 then iv[|iv| - 1] else h
  }

  predicate HasNumber(o: Option<Decode>, t: int) {
    o.Some? && IntervalOf(o.value.guid) == Some(t)
  }

  predicate QueuedBehind(c: Channel, t: int) {
    HasNumber(c.next0, t) || HasNumber(c.next1, t)
  }

  /** Everything behind skips forward: some channel on the latest interval did not just
      join, and every channel behind it has that interval queued. */
  predicate SkipsForward(u: User, list: seq<int>, joined: set<int>, hi: int)
    requires forall j :: 0 <= j < |list| ==> 0 <= list[j] < |u.chs| && Tagged(u, list[j])
  {
    && (exists j :: 0 <= j < |list| && Number(u, list[j]) == hi && list[j] !in joined)
    && (forall j :: 0 <= j < |list| && Number(u, list[j]) != hi ==> QueuedBehind(u.chs[list[j]], hi))
  }

  function Size(c: Channel): nat {
    |c.Queue()|
  }

  /** Drops what is older than the target. */
  function DropOlder(c: Channel, target: int): Channel
    decreases Size(c)
  {
    if c.ds.Some? && IntervalOf(c.ds.value.guid).Some? && Ahead(IntervalOf(c.ds.value.guid).value, target) < 0 then
      DropOlder(c.Advanced(), target)
    else c
  }

  function AlignedOne(c: Channel, number: int, target: int): Channel {
    var d := Ahead(number, target);
    if d < 0 then DropOlder(c, target)
    else if d > 0 && c.next1.None? then c.(hold := 1)
    else c
  }

  function Aligned(u: User, joined: set<int>): User {
    var list := Aligning(u, |u.chs|);
    if |list| < 2 || !OneSession(u, list) then u
    else
      var iv := Numbers(u, list);
      var lo, hi := Lowest(iv), Highest(iv);
      if lo == hi then u
      else MovedTo(u, if SkipsForward(u, list, joined, hi) then hi else lo, |u.chs|)
  }

  /** The first k channels moved to the target. */
  function MovedTo(u: User, target: int, k: nat): (r: User)
    requires k <= |u.chs|
    ensures |r.chs| == |u.chs| && r.sub == u.sub && r.present == u.present
  {
    u.(chs := seq(|u.chs|, i requires 0 <= i < |u.chs| =>
      if i < k && Tagged(u, i) then AlignedOne(u.chs[i], Number(u, i), target) else u.chs[i]))
  }

  // ----- rejoining the grid of an untagged sender -----

  predicate Follows(u: User, ch: int, i: int)
    requires 0 <= i < |u.chs|
  {
    i != ch && u.chs[i].IntervalMode() && !u.chs[i].videoOnly && u.chs[i].rejoin == 0 && i in u.present
  }

  predicate Sounds(c: Channel) {
    c.ds.Some? && c.hold == 0
  }

  /** The lowest sibling channel that plays now; -1 if none does. */
  function Reference(u: User, ch: int, from: nat): (r: int)
    requires from <= |u.chs|
    ensures -1 <= r < |u.chs|
    ensures r >= 0 ==> r >= from && Follows(u, ch, r) && Sounds(u.chs[r])
    ensures forall i :: from <= i < (if r < 0 then |u.chs| else r) ==> !(Follows(u, ch, i) && Sounds(u.chs[i]))
    decreases |u.chs| - from
  {
    if from == |u.chs| then -1
    else if Follows(u, ch, from) && Sounds(u.chs[from]) then from
    else Reference(u, ch, from + 1)
  }

  /** The first entry of a queue whose END arrived; 3 if none did. */
  function FirstEnded(q: seq<Option<Decode>>): (f: nat)
    requires |q| == 3
    ensures f <= 3 && (f < 3 ==> q[f].Some? && q[f].value.endMs > 0.0)
  {
    if q[0].Some? && q[0].value.endMs > 0.0 then 0
    else if q[1].Some? && q[1].value.endMs > 0.0 then 1
    else if q[2].Some? && q[2].value.endMs > 0.0 then 2
    else 3
  }

  /** When entry i ended; while it still streams in, counted from one that has ended. */
  function EndTime(q: seq<Option<Decode>>, i: nat, intervalMs: real): real
    requires |q| == 3 && i < 3 && q[i].Some? && FirstEnded(q) < 3
  {
    if q[i].value.endMs > 0.0 then q[i].value.endMs
    else q[FirstEnded(q)].value.endMs + (i - FirstEnded(q)) as real * intervalMs
  }

  /** How much later than ours entry i of the sibling's queue was sent. */
  function Lag(q: seq<Option<Decode>>, i: nat, ours: Decode, intervalMs: real): real
    requires |q| == 3 && i < 3 && q[i].Some?
  {
    if ours.endMs > 0.0 && FirstEnded(q) < 3 then EndTime(q, i, intervalMs) - ours.endMs
    else q[i].value.beginMs - ours.beginMs
  }

  function Magnitude(x: real): real {
    if x < 0.0 then -x else x
  }

  /** The entry sent nearest ours, the first on a tie, among entries up to k. */
  function Nearest(q: seq<Option<Decode>>, k: nat, ours: Decode, intervalMs: real): (r: nat)
    requires |q| == 3 && k < 3 && q[0].Some?
    ensures r <= k && q[r].Some?
  {
    if k == 0 then 0
    else
      var r := Nearest(q, k - 1, ours, intervalMs);
      if q[k].Some? && Magnitude(Lag(q, k, ours, intervalMs)) < Magnitude(Lag(q, r, ours, intervalMs)) then k else r
  }

  /** The queue position the sibling has for the interval recorded with ours. */
  function SiblingPosition(ref: Channel, ours: Decode, intervalMs: real): int
    requires ref.ds.Some?
  {
    var q := [ref.ds, ref.next0, ref.next1];
    var near := Nearest(q, 2, ours, intervalMs);
    near - if intervalMs > 0.0 then (Lag(q, near, ours, intervalMs) / intervalMs + 0.5).Floor else 0
  }

  /** rejoinIntervalGrid for channel ch, whose rejoin mark is set. */
  function Rejoined(u: User, ch: int, intervalMs: real, aligns: bool): Channel
    requires 0 <= ch < |u.chs|
  {
    var c := u.chs[ch];
    if !c.IntervalMode() then c.(rejoin := 0)
    else if c.ds.None? then c
    else if aligns && IntervalOf(c.ds.value.guid).Some? then c.(rejoin := 0)
    else
      var ref := Reference(u, ch, 0);
      if ref < 0 then c.(rejoin := if exists i :: 0 <= i < |u.chs| && Follows(u, ch, i) then 2 else 0)
      else
        var pos := SiblingPosition(u.chs[ref], c.ds.value, intervalMs);
        Held(c.(rejoin := 0), if pos < 0 then 0 else pos)
  }

  /** The first k channels had their turn to rejoin. */
  function RejoinedAll(u: User, k: nat, intervalMs: real, aligns: bool): (r: User)
    requires k <= |u.chs|
    ensures |r.chs| == |u.chs| && r.sub == u.sub && r.present == u.present
  {
    if k == 0 then u
    else
      var v := RejoinedAll(u, k - 1, intervalMs, aligns);
      if v.chs[k - 1].rejoin == 0 then v
      else v.(chs := v.chs[k - 1 := Rejoined(v, k - 1, intervalMs, aligns)])
  }

  // ----- all of a user's channels at a swap -----

  function AllSwapped(u: User, late: bool): (r: User)
    ensures |r.chs| == |u.chs| && r.sub == u.sub && r.present == u.present
  {
    u.(chs := seq(|u.chs|, i requires 0 <= i < |u.chs| => Swapped(u.chs[i], u.Playable(i), late)))
  }

  function Joining(u: User, late: bool): set<int> {
    set i | 0 <= i < |u.chs| && JoinsAtSwap(u.chs[i], u.Playable(i), late)
  }

  /** What on_new_interval does to one user's channels. */
  function AfterSwap(u: User, late: bool, aligns: bool, intervalMs: real): User {
    var v := AllSwapped(u, late);
    var w := if aligns then Aligned(v, Joining(u, late)) else v;
    RejoinedAll(w, |w.chs|, intervalMs, aligns)
  }
}
