/** Every stream of the whole receiver runs as a stream on its own: what VideoSync proves of
    one stream holds of each stream of every VideoRouting run. */
module VideoSystem {
  import opened Bytes
  import opened IntervalTag
  import opened Channels
  import opened VideoStreams
  import opened VideoSync
  import R = VideoRouting

  function StateOf(sys: R.System, i: nat): Stream {
    if i < |sys.streams| then sys.streams[i].s else NEW_STREAM
  }

  /** The user's channels at each swap of a system run. */
  function Heard(es: seq<R.Event>, user: string): seq<seq<Channel>> {
    if es == [] then []
    else
      var e := es[|es| - 1];
      Heard(es[..|es| - 1], user) + if e.Swap? then [R.ChannelsOf(e.users, user)] else []
  }

  /** The channels at each swap of a stream's run. */
  function SwapChannels(es: seq<Event>): (r: seq<seq<Channel>>)
    ensures |r| == Swaps(es)
  {
    if es == [] then [] else SwapChannels(es[..|es| - 1]) + if es[|es| - 1].Swap? then [es[|es| - 1].chs] else []
  }

  lemma {:induction false} SwapChannelsSplit(es: seq<Event>, fs: seq<Event>)
    ensures SwapChannels(es + fs) == SwapChannels(es) + SwapChannels(fs)
    decreases |fs|
  {
    hide Swaps;
    if fs == [] {
      assert es + fs == es;
    } else {
      var z := |fs| - 1;
      SwapChannelsSplit(es, fs[..z]);
      assert (es + fs)[..|es + fs| - 1] == es + fs[..z];
    }
  }

  lemma Alone(s: Stream, e: Event)
    ensures Ran(s, [e]) == Step(s, e) && SwapChannels([e]) == if e.Swap? then [e.chs] else []
  {
    OneStep(s, e);
    assert [e][..0] == [];
  }

  function Reach(e: Event, mine: bool): seq<Event> {
    if mine then [e] else []
  }

  /** The bytes of a WRITE reach at most one stream. */
  lemma BytesAlone(sys: R.System, guid: Guid, w: seq<Byte>, live: bool, i: nat)
    returns (es: seq<Event>)
    requires guid in sys.trackers && i < |R.AfterBytes(sys, guid, w, live).streams|
    ensures |sys.streams| <= |R.AfterBytes(sys, guid, w, live).streams|
    ensures Ran(StateOf(sys, i), es) == R.AfterBytes(sys, guid, w, live).streams[i].s && SwapChannels(es) == []
    ensures i < |sys.streams| ==> R.AfterBytes(sys, guid, w, live).streams[i].id == sys.streams[i].id
  {
    hide Step, R.Mentions;
    es := Reach(Data(guid, w, live), i == R.Target(sys, guid).1);
    Alone(StateOf(sys, i), Data(guid, w, live));
    StepIs(StateOf(sys, i), guid, w, live);
    hide Ran, Written;
  }

  lemma StepIs(s: Stream, guid: Guid, w: seq<Byte>, live: bool)
    ensures Step(s, Data(guid, w, live)) == Written(s, guid, w, live) && Step(s, End(guid)) == Finished(s, guid)
    ensures Ran(s, []) == s && SwapChannels([]) == []
  {
  }

  lemma EndAlone(sys: R.System, guid: Guid, i: nat) returns (es: seq<Event>)
    requires i < |sys.streams|
    ensures |R.AfterEnd(sys, guid).streams| == |sys.streams|
    ensures Ran(sys.streams[i].s, es) == R.AfterEnd(sys, guid).streams[i].s && SwapChannels(es) == []
    ensures R.AfterEnd(sys, guid).streams[i].id == sys.streams[i].id
  {
    hide Step, R.Mentions;
    es := Reach(End(guid), i == R.FindByGuid(sys.streams, guid));
    Alone(sys.streams[i].s, End(guid));
    StepIs(sys.streams[i].s, guid, [], false);
    hide Ran, Finished;
  }

  lemma DataAlone(sys: R.System, guid: Guid, w: seq<Byte>, end: bool, live: bool, i: nat)
    returns (es: seq<Event>)
    requires i < |R.AfterData(sys, guid, w, end, live).streams|
    ensures |sys.streams| <= |R.AfterData(sys, guid, w, end, live).streams|
    ensures Ran(StateOf(sys, i), es) == R.AfterData(sys, guid, w, end, live).streams[i].s && SwapChannels(es) == []
    ensures i < |sys.streams| ==> R.AfterData(sys, guid, w, end, live).streams[i].id == sys.streams[i].id
  {
    hide R.AfterBytes, R.AfterEnd, Swaps;
    StepIs(StateOf(sys, i), guid, w, live);
    es := [];
    if guid in sys.trackers {
      var t := if w == [] then sys else R.AfterBytes(sys, guid, w, live);
      EndCount(t, guid);
      if w != [] {
        es := BytesAlone(sys, guid, w, live, i);
      }
      if end {
        var fs := EndAlone(t, guid, i);
        RanSplit(StateOf(sys, i), es, fs);
        SwapChannelsSplit(es, fs);
        es := es + fs;
      }
    }
  }

  lemma EndCount(sys: R.System, guid: Guid)
    ensures |R.AfterEnd(sys, guid).streams| == |sys.streams|
  {
    hide R.FindByGuid;
  }

  lemma BeginAlone(sys: R.System, id: R.StreamId, guid: Guid, seqNo: int, i: nat) returns (es: seq<Event>)
    requires i < |R.AfterBegin(sys, id, guid, seqNo).streams|
    ensures |sys.streams| <= |R.AfterBegin(sys, id, guid, seqNo).streams|
    ensures Ran(StateOf(sys, i), es) == R.AfterBegin(sys, id, guid, seqNo).streams[i].s && SwapChannels(es) == []
    ensures i < |sys.streams| ==> R.AfterBegin(sys, id, guid, seqNo).streams[i].id == sys.streams[i].id
  {
    hide R.IndexOf, Begun;
    es := Reach(Begin(guid, seqNo), i == R.IndexOf(sys.streams, id));
    Alone(StateOf(sys, i), Begin(guid, seqNo));
    StepIs(StateOf(sys, i), guid, [], false);
    hide Ran;
  }

  lemma StepAlone(sys: R.System, e: R.Event, i: nat) returns (es: seq<Event>)
    requires i < |R.Step(sys, e).streams|
    ensures |sys.streams| <= |R.Step(sys, e).streams|
    ensures Ran(StateOf(sys, i), es) == R.Step(sys, e).streams[i].s
    ensures SwapChannels(es) == if e.Swap? then [R.ChannelsOf(e.users, R.Step(sys, e).streams[i].id.user)] else []
    ensures i < |sys.streams| ==> R.Step(sys, e).streams[i].id == sys.streams[i].id
  {
    hide R.AfterBegin, R.AfterData, R.ChannelsOf, SwappedStream, UserLeft, ForegroundReset, Begun, Written, Finished;
    StepIs(StateOf(sys, i), ZERO_GUID, [], false);
    match e
    case Begin(id, guid, seqNo) => es := BeginAlone(sys, id, guid, seqNo, i);
    case Data(guid, w, end, live) => es := DataAlone(sys, guid, w, end, live, i);
    case Swap(users) =>
      var swap := Swap(R.ChannelsOf(users, sys.streams[i].id.user));
      es := [swap];
      Alone(sys.streams[i].s, swap);
    case Leave(user) =>
      es := Reach(Leave, sys.streams[i].id.user == user);
      Alone(sys.streams[i].s, Leave);
    case Foreground =>
      es := [Foreground];
      Alone(sys.streams[i].s, Foreground);
    case Disconnect => es := [];
  }

  /** Stream i of a system run is a stream run of its own, from a new stream, with the user's
      channels at every swap since the stream began to exist. */
  lemma {:induction false} EachStreamRunsAlone(es: seq<R.Event>, i: nat)
    returns (mine: seq<Event>, before: seq<seq<Channel>>)
    requires i < |R.Run(es).streams|
    ensures Ran(NEW_STREAM, mine) == R.Run(es).streams[i].s
    ensures Heard(es, R.Run(es).streams[i].id.user) == before + SwapChannels(mine)
  {
    hide R.Step, Step, Swaps;
    var front, e := es[..|es| - 1], es[|es| - 1];
    var sys := R.Run(front);
    var user := R.Run(es).streams[i].id.user;
    var fs := StepAlone(sys, e, i);
    if i < |sys.streams| {
      mine, before := EachStreamRunsAlone(front, i);
    } else {
      mine, before := [], Heard(front, user);
      NothingYet();
    }
    RanSplit(NEW_STREAM, mine, fs);
    SwapChannelsSplit(mine, fs);
    mine := mine + fs;
  }

  lemma NothingYet()
    ensures Ran(NEW_STREAM, []) == NEW_STREAM && SwapChannels([]) == []
  {
  }
}
