/** A remote user's channels as njclient.cpp holds and changes them, each method proved to do
    what its function on values says. */
module RemoteUsers {
  import opened IntervalTag
  import opened Options
  import opened Channels

  class RemoteUser {
    const channels: array<Channel>
    var submask: set<int>
    var chanpresentmask: set<int>

    ghost predicate Valid() {
      channels.Length == MAX_CHANNELS
    }

    ghost function State(): User
      reads this, channels
    {
      User(channels[..], submask, chanpresentmask)
    }

    constructor ()
      ensures Valid() && fresh(channels)
      ensures State() == User(seq(MAX_CHANNELS, _ => IDLE), {}, {})
    {
      channels := new Channel[MAX_CHANNELS](_ => IDLE);
      submask, chanpresentmask := {}, {};
    }

    method StartPlaying(ch: nat, d: Option<Decode>)
      requires Valid() && ch < MAX_CHANNELS
      modifies channels
      ensures State() == old(State()).(chs := old(channels[..])[ch := Arrived(old(channels[ch]), d)])
    {
      var c := channels[ch];
      if !c.session {
        var useidx := if c.next0.Some? then 1 else 0;
        if useidx == 0 {
          channels[ch] := c.(next0 := d);
        } else {
          channels[ch] := c.(next1 := d);
        }
      }
    }

    method AddSilence(ch: nat)
      requires Valid() && ch < MAX_CHANNELS
      modifies channels
      ensures State() == old(State()).(chs := old(channels[..])[ch := Silenced(old(channels[ch]))])
    {
      var c := channels[ch];
      if !c.session && !c.live {
        var useidx := if c.next0.Some? then 1 else 0;
        if useidx == 0 {
          channels[ch] := c.(next0 := None);
        } else {
          channels[ch] := c.(next1 := None);
        }
      }
    }

    method SetInfo(ch: nat, live: bool, session: bool, videoOnly: bool, autosubscribe: bool)
      requires Valid() && ch < MAX_CHANNELS
      modifies channels, this
      ensures channels[..] == old(channels[..])[ch := Announced(old(channels[ch]), live, session, videoOnly)]
      ensures chanpresentmask == old(chanpresentmask) + {ch}
      ensures submask == old(submask) + if autosubscribe then {ch} else {}
    {
      var c := channels[ch];
      if c.live != live || c.session != session {
        var rejoin := if c.live && !live && !session then 1 else 0;
        c := c.(rejoin := rejoin, hold := 0);
        c := c.(ds := None, next0 := None, next1 := None);
      }
      channels[ch] := c.(live := live, session := session, videoOnly := videoOnly);
      chanpresentmask := chanpresentmask + {ch};
      if autosubscribe {
        submask := submask + {ch};
      }
    }

    method RemoveChannel(ch: nat)
      requires Valid() && ch < MAX_CHANNELS
      modifies channels, this
      ensures channels[..] == old(channels[..])[ch := old(channels[ch]).Flushed().(rejoin := 0)]
      ensures chanpresentmask == old(chanpresentmask) - {ch} && submask == old(submask) - {ch}
    {
      chanpresentmask, submask := chanpresentmask - {ch}, submask - {ch};
      channels[ch] := channels[ch].(ds := None, next0 := None, next1 := None, rejoin := 0, hold := 0);
    }

    method SetSubscribed(ch: nat, sub: bool)
      requires Valid() && ch < MAX_CHANNELS
      modifies channels, this
      ensures chanpresentmask == old(chanpresentmask)
      ensures ch !in old(chanpresentmask) || (ch in old(submask)) == sub ==> State() == old(State())
      ensures ch in old(chanpresentmask) && ch in old(submask) && !sub ==>
                submask == old(submask) - {ch} &&
                channels[..] == old(channels[..])[ch := old(channels[ch]).Flushed().(rejoin := 0)]
      ensures ch in old(chanpresentmask) && ch !in old(submask) && sub ==>
                submask == old(submask) + {ch} &&
                channels[..] == old(channels[..])[ch := old(channels[ch]).(rejoin := 1, hold := 0)]
    {
      if ch in chanpresentmask && (ch in submask) != sub {
        if !sub {
          submask := submask - {ch};
          channels[ch] := channels[ch].(ds := None, next0 := None, next1 := None, rejoin := 0, hold := 0);
        } else {
          submask := submask + {ch};
          channels[ch] := channels[ch].(rejoin := 1, hold := 0);
        }
      }
    }

    static method LateStartGuardMs(configMs: real, length: nat, srate: int) returns (guard: real)
      ensures guard == LateStartGuard(configMs, IntervalMs(length, srate))
    {
      var intervalMs := IntervalMs(length, srate);
      guard := if configMs > 0.0 then configMs else 0.0;
      if intervalMs > 0.0 && intervalMs * 0.25 < guard {
        guard := intervalMs * 0.25;
      }
    }

    /** The age of the youngest download about to start at this swap that is younger than the
        guard; -1.0 if there is none. */
    method LateStartAge(now: real, configMs: real, length: nat, srate: int, ghost guard: real) returns (youngest: real)
      requires Valid() && guard == LateStartGuard(configMs, IntervalMs(length, srate))
      requires forall i :: 0 <= i < MAX_CHANNELS && channels[i].next0.Some? ==> channels[i].next0.value.beginMs <= now
      ensures youngest >= 0.0 <==> IsLate(State(), now, guard)
      ensures youngest < 0.0 ==> youngest == -1.0
      ensures youngest >= 0.0 ==>
                (exists i :: 0 <= i < MAX_CHANNELS && StartsLate(State(), i, now, guard) && youngest == now - channels[i].next0.value.beginMs) &&
                (forall i :: 0 <= i < MAX_CHANNELS && StartsLate(State(), i, now, guard) ==> youngest <= now - channels[i].next0.value.beginMs)
    {
      youngest := -1.0;
      var guardMs := LateStartGuardMs(configMs, length, srate);
      if guardMs <= 0.0 {
        return;
      }
      for ch := 0 to MAX_CHANNELS
        invariant youngest == -1.0 || youngest >= 0.0
        invariant youngest < 0.0 ==> forall i :: 0 <= i < ch ==> !StartsLate(State(), i, now, guard)
        invariant youngest >= 0.0 ==>
            (exists i :: 0 <= i < ch && StartsLate(State(), i, now, guard) && youngest == now - channels[i].next0.value.beginMs) &&
            (forall i :: 0 <= i < ch && StartsLate(State(), i, now, guard) ==> youngest <= now - channels[i].next0.value.beginMs)
      {
        var chan := channels[ch];
        if chan.live || chan.session || chan.videoOnly || chan.hold > 0 {
          continue;
        }
        if ch !in submask || ch !in chanpresentmask {
          continue;
        }
        if chan.next0.None? || chan.next0.value.beginMs <= 0.0 {
          continue;
        }
        var age := now - chan.next0.value.beginMs;
        if age < guardMs && (youngest < 0.0 || age < youngest) {
          youngest := age;
        }
      }
    }

    /** The first pass of on_new_interval over one user's channels. */
    method SwapChannels(late: bool) returns (joined: set<int>)
      requires Valid()
      modifies channels
      ensures State() == AllSwapped(old(State()), late)
      ensures joined == Joining(old(State()), late)
    {
      joined := {};
      ghost var u := State();
      for ch := 0 to MAX_CHANNELS
        invariant forall i :: 0 <= i < ch ==> channels[i] == Swapped(u.chs[i], u.Playable(i), late)
        invariant forall i :: ch <= i < MAX_CHANNELS ==> channels[i] == u.chs[i]
        invariant joined == set i | 0 <= i < ch && JoinsAtSwap(u.chs[i], u.Playable(i), late)
      {
        var chan := channels[ch];
        if !chan.live && !chan.session && chan.hold > 0 {
          chan := chan.(hold := chan.hold - 1);
        } else if !chan.live && !chan.session && !chan.videoOnly && late {
          chan := chan.(ds := None);
        } else if !chan.live && !chan.session {
          var played := chan.ds.Some?;
          chan := chan.(ds := None);
          if ch in submask && ch in chanpresentmask {
            chan := chan.(ds := chan.next0);
          }
          if !played && chan.ds.Some? {
            joined := joined + {ch};
          }
          chan := chan.(next0 := chan.next1);
          chan := chan.(next1 := None);
        }
        channels[ch] := chan;
      }
    }

    /** Drops intervals older than the target from the front of one channel's queue. */
    method SkipTo(ch: nat, target: int)
      requires Valid() && ch < MAX_CHANNELS
      modifies channels
      ensures channels[..] == old(channels[..])[ch := DropOlder(old(channels[ch]), target)]
    {
      ghost var c := channels[ch];
      while channels[ch].ds.Some? && IntervalOf(channels[ch].ds.value.guid).Some? &&
            Ahead(IntervalOf(channels[ch].ds.value.guid).value, target) < 0
        invariant DropOlder(channels[ch], target) == DropOlder(c, target)
        invariant forall i :: 0 <= i < MAX_CHANNELS && i != ch ==> channels[i] == old(channels[i])
        decreases Size(channels[ch])
      {
        var chan := channels[ch];
        chan := chan.(ds := chan.next0);
        chan := chan.(next0 := chan.next1);
        chan := chan.(next1 := None);
        channels[ch] := chan;
      }
    }

    method HoldIntervalChannel(ch: nat, swaps: nat) returns (held: nat)
      requires Valid() && ch < MAX_CHANNELS
      modifies channels
      ensures channels[..] == old(channels[..])[ch := Held(old(channels[ch]), swaps)]
      ensures held == channels[ch].hold <= 1
    {
      var c := channels[ch];
      var room := if c.next0.Some? || c.next1.Some? then 0 else 1;
      channels[ch] := c.(hold := if swaps < room then swaps else room);
      held := channels[ch].hold;
    }

    /** Which channels are aligned, and their interval numbers; agree is false when they are
        not all from one session. */
    method CollectAligned() returns (chs: seq<int>, iv: seq<int>, agree: bool)
      requires Valid()
      ensures agree <==> OneSession(State(), Aligning(State(), MAX_CHANNELS))
      ensures agree ==> chs == Aligning(State(), MAX_CHANNELS) && iv == Numbers(State(), chs)
    {
      hide IntervalOf, SameSession, Aligning, Numbers, OneSession;
      chs, iv, agree := [], [], true;
      var session: Option<Guid> := None;
      ghost var u := State();
      AligningNone(u);
      for ch := 0 to MAX_CHANNELS
        invariant chs == Aligning(u, ch) && iv == Numbers(u, chs) && agree
        invariant OneSession(u, chs)
        invariant chs == [] ==> session.None?
        invariant chs != [] ==> session == Some(PlayingGuid(u, chs[0]))
      {
        AligningNext(u, ch);
        var c := channels[ch];
        if c.videoOnly || c.live || c.session || c.ds.None? || c.hold > 0 {
          continue;
        }
        if ch !in submask || ch !in chanpresentmask {
          continue;
        }
        var t := IntervalOf(c.ds.value.guid);
        if t.None? {
          continue;
        }
        if session.None? {
          session := Some(c.ds.value.guid);
        } else if !SameSession(session.value, c.ds.value.guid) {
          agree := false;
          SessionsDiffer(u, ch);
          return;
        }
        OneMoreAligned(u, chs, ch);
        chs, iv := chs + [ch], iv + [t.value];
      }
    }

    /** Plays a user's interval channels on the same sender interval. */
    method AlignUserChannels(joined: set<int>)
      requires Valid()
      modifies channels
      ensures State() == Aligned(old(State()), joined)
    {
      hide Tagged, Ahead, OneSession, SkipsForward, MovedTo, Numbers;
      ghost var u := State();
      var chs, iv, agree := CollectAligned();
      if !agree || |chs| < 2 {
        return;
      }
      var lo, hi := FindExtremes(iv);
      if lo == hi {
        return;
      }
      var skip := DecideSkip(chs, iv, joined, hi);
      var target := if skip then hi else lo;
      MoveAll(chs, iv, target);
    }

    method FindExtremes(iv: seq<int>) returns (lo: int, hi: int)
      requires |iv| > 0
      ensures lo == Lowest(iv) && hi == Highest(iv)
    {
      hide Ahead;
      lo, hi := iv[0], iv[0];
      ScanStart(iv);
      for i := 1 to |iv|
        invariant lo == Lowest(iv[..i]) && hi == Highest(iv[..i])
      {
        assert iv[..i + 1][..i] == iv[..i];
        if Ahead(iv[i], lo) < 0 {
          lo := iv[i];
        }
        if Ahead(iv[i], hi) > 0 {
          hi := iv[i];
        }
      }
      assert iv[..|iv|] == iv;
    }

    method DecideSkip(chs: seq<int>, iv: seq<int>, joined: set<int>, hi: int) returns (skip: bool)
      requires Valid() && chs == Aligning(State(), MAX_CHANNELS) && iv == Numbers(State(), chs)
      ensures skip <==> SkipsForward(State(), chs, joined, hi)
    {
      hide Tagged, Aligning, IntervalOf;
      var joinedOnlyAhead := true;
      for i := 0 to |chs|
        invariant joinedOnlyAhead <==> forall j :: 0 <= j < i && iv[j] == hi ==> chs[j] in joined
      {
        if iv[i] == hi && chs[i] !in joined {
          joinedOnlyAhead := false;
        }
      }
      skip := !joinedOnlyAhead;
      var i := 0;
      while i < |chs| && skip
        invariant 0 <= i <= |chs|
        invariant joinedOnlyAhead ==> !skip
        invariant !joinedOnlyAhead ==>
            (skip <==> forall j :: 0 <= j < i && iv[j] != hi ==> QueuedBehind(channels[chs[j]], hi))
      {
        if iv[i] != hi {
          var c := channels[chs[i]];
          var queued := c.next0.Some? && IntervalOf(c.next0.value.guid) == Some(hi);
          if !queued {
            queued := c.next1.Some? && IntervalOf(c.next1.value.guid) == Some(hi);
          }
          if !queued {
            skip := false;
          }
        }
        i := i + 1;
      }
    }

    method MoveAll(chs: seq<int>, iv: seq<int>, target: int)
      requires Valid() && chs == Aligning(State(), MAX_CHANNELS) && iv == Numbers(State(), chs)
      modifies channels
      ensures State() == MovedTo(old(State()), target, MAX_CHANNELS)
    {
      hide Tagged, IntervalOf, DropOlder, Ahead, Aligning;
      ghost var u := State();
      DistinctIndices(u, MAX_CHANNELS);
      for i := 0 to |chs|
        invariant forall j :: 0 <= j < i ==> channels[chs[j]] == AlignedOne(u.chs[chs[j]], Number(u, chs[j]), target)
        invariant forall k :: 0 <= k < MAX_CHANNELS && k !in chs[..i] ==> channels[k] == u.chs[k]
      {
        var ch := chs[i];
        assert ch !in chs[..i];
        var d := Ahead(iv[i], target);
        if d < 0 {
          SkipTo(ch, target);
        } else if d > 0 {
          if channels[ch].next1.None? {
            channels[ch] := channels[ch].(hold := 1);
          }
        }
        assert chs[..i + 1] == chs[..i] + [ch];
      }
      assert chs[..|chs|] == chs;
    }

    /** Places channel ch, whose rejoin mark is set, on its siblings' interval grid. */
    method RejoinIntervalGrid(ch: nat, intervalMs: real, aligns: bool)
      requires Valid() && ch < MAX_CHANNELS
      modifies channels
      ensures State() == old(State()).(chs := old(channels[..])[ch := Rejoined(old(State()), ch, intervalMs, aligns)])
    {
      hide IntervalOf, SiblingPosition;
      var chan := channels[ch];
      if chan.live || chan.session {
        channels[ch] := chan.(rejoin := 0);
        return;
      }
      if chan.ds.None? {
        return;
      }
      if aligns && IntervalOf(chan.ds.value.guid).Some? {
        channels[ch] := chan.(rejoin := 0);
        return;
      }
      var ref, siblingSilent := FindReference(ch);
      if ref < 0 {
        if !siblingSilent {
          channels[ch] := chan.(rejoin := 0);
        } else {
          channels[ch] := chan.(rejoin := 2);
        }
        return;
      }
      var pos := EstimatePosition(channels[ref], chan.ds.value, intervalMs);
      if pos < 0 {
        pos := 0;
      }
      channels[ch] := chan.(rejoin := 0);
      var held := HoldIntervalChannel(ch, pos);
    }

    method FindReference(ch: nat) returns (ref: int, siblingSilent: bool)
      requires Valid()
      ensures ref == Reference(State(), ch, 0)
      ensures ref < 0 ==> (siblingSilent <==> exists i :: 0 <= i < MAX_CHANNELS && Follows(State(), ch, i))
    {
      ref, siblingSilent := -1, false;
      var i := 0;
      while i < MAX_CHANNELS && ref < 0
        invariant 0 <= i <= MAX_CHANNELS
        invariant ref < 0 ==> Reference(State(), ch, 0) == Reference(State(), ch, i)
        invariant ref >= 0 ==> ref == Reference(State(), ch, 0)
        invariant ref < 0 ==> (siblingSilent <==> exists j :: 0 <= j < i && Follows(State(), ch, j))
      {
        var c := channels[i];
        if !(i == ch || c.videoOnly || c.live || c.session || c.rejoin != 0 || i !in chanpresentmask) {
          if c.ds.Some? && c.hold == 0 {
            ref := i;
          } else {
            assert Follows(State(), ch, i);
            siblingSilent := true;
          }
        }
        i := i + 1;
      }
    }

    /** What on_new_interval does to this user's channels. */
    method OnNewInterval(now: real, configMs: real, aligns: bool, length: nat, srate: int) returns (late: bool)
      requires Valid()
      requires forall i :: 0 <= i < MAX_CHANNELS && channels[i].next0.Some? ==> channels[i].next0.value.beginMs <= now
      modifies channels
      ensures late == IsLate(old(State()), now, LateStartGuard(configMs, IntervalMs(length, srate)))
      ensures State() == AfterSwap(old(State()), late, aligns, IntervalMs(length, srate))
    {
      hide Aligned, Rejoined, Swapped, IsLate, Joining, AllSwapped, LateStartGuard, IntervalMs;
      var intervalMs := IntervalMs(length, srate);
      var lateAge := LateStartAge(now, configMs, length, srate, LateStartGuard(configMs, intervalMs));
      late := lateAge >= 0.0;
      var joined := SwapChannels(late);
      if aligns {
        AlignUserChannels(joined);
      }
      ghost var w := State();
      for ch := 0 to MAX_CHANNELS
        invariant State() == RejoinedAll(w, ch, intervalMs, aligns)
      {
        if channels[ch].rejoin != 0 {
          RejoinIntervalGrid(ch, intervalMs, aligns);
        }
      }
    }
  }

  /** The queue position of our interval in a playing sibling's queue, from arrival times. */
  method EstimatePosition(ref: Channel, ours: Decode, intervalMs: real) returns (pos: int)
    requires ref.ds.Some?
    ensures pos == SiblingPosition(ref, ours, intervalMs)
  {
    hide EndTime, Magnitude;
    var q := [ref.ds, ref.next0, ref.next1];
    var ended := FirstEnded(q);
    var byEnd := ours.endMs > 0.0 && ended < 3;
    var near, nearD := 0, Lag(q, 0, ours, intervalMs);
    var i: int := 1;
    while i < 3
      invariant 1 <= i <= 3
      invariant 0 <= near < 3 && near == Nearest(q, i - 1, ours, intervalMs) && nearD == Lag(q, near, ours, intervalMs)
    {
      if q[i].Some? {
        var d: real;
        if byEnd {
          d := EndTime(q, i, intervalMs) - ours.endMs;
        } else {
          d := q[i].value.beginMs - ours.beginMs;
        }
        if Magnitude(d) < Magnitude(nearD) {
          near, nearD := i, d;
        }
      }
      i := i + 1;
    }
    var k := if intervalMs > 0.0 then (nearD / intervalMs + 0.5).Floor else 0;
    pos := near - k;
  }

  lemma AligningNone(u: User)
    ensures Aligning(u, 0) == [] && Numbers(u, []) == [] && OneSession(u, [])
  {
  }

  lemma OneMoreAligned(u: User, chs: seq<int>, k: int)
    requires forall j :: 0 <= j < |chs| ==> 0 <= chs[j] < |u.chs| && Tagged(u, chs[j])
    requires 0 <= k < |u.chs| && Tagged(u, k) && OneSession(u, chs)
    requires chs != [] ==> SameSession(PlayingGuid(u, chs[0]), PlayingGuid(u, k))
    ensures OneSession(u, chs + [k]) && Numbers(u, chs + [k]) == Numbers(u, chs) + [Number(u, k)]
  {
    hide Tagged;
    assert OneSession(u, chs + [k]) by {
      hide IntervalOf;
    }
  }

  lemma ScanStart(iv: seq<int>)
    requires |iv| > 0
    ensures Lowest(iv[..1]) == iv[0] && Highest(iv[..1]) == iv[0]
  {
  }

  lemma AligningNext(u: User, k: nat)
    requires k < |u.chs|
    ensures Aligning(u, k + 1) == Aligning(u, k) + if Tagged(u, k) then [k] else []
  {
  }

  /** One differing session among the first channels is enough. */
  lemma {:induction false} SessionsDiffer(u: User, k: nat)
    requires k < |u.chs| && Tagged(u, k) && Aligning(u, k) != []
    requires !SameSession(PlayingGuid(u, Aligning(u, k)[0]), PlayingGuid(u, k))
    ensures !OneSession(u, Aligning(u, |u.chs|))
  {
    hide Tagged, SameSession;
    AligningNext(u, k);
    PrefixKept(u, k + 1, |u.chs|);
    var first, all := Aligning(u, k), Aligning(u, |u.chs|);
    assert first + [k] <= all;
    hide Aligning;
    assert all[|first|] == (first + [k])[|first|] == k && all[0] == (first + [k])[0] == first[0];
  }

  lemma {:induction false} PrefixKept(u: User, k: nat, n: nat)
    requires k <= n <= |u.chs|
    ensures Aligning(u, k) <= Aligning(u, n)
    decreases n - k
  {
    hide Tagged;
    if k < n {
      PrefixKept(u, k, n - 1);
      AligningNext(u, n - 1);
    }
  }

  lemma {:induction false} DistinctIndices(u: User, k: nat)
    requires k <= |u.chs|
    ensures forall a, b :: 0 <= a < b < |Aligning(u, k)| ==> Aligning(u, k)[a] < Aligning(u, k)[b]
  {
    hide Tagged;
    if k > 0 {
      DistinctIndices(u, k - 1);
      AligningNext(u, k - 1);
    }
  }
}
