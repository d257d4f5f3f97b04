/**
 Channels, the poller's table and the kernel's interest set (matelib/Channel.h, matelib/Channel.cc,
 matelib/EpollPoller.cc).  An event mask is a set of bits.
 */
module Epoll {
  import opened Options

  datatype Bit = In | Pri | Out | Err | Hup | RdHup

  const READ_EVENT: set<Bit> := {In, Pri}
  const WRITE_EVENT: set<Bit> := {Out}

  /** Of a channel in the poller: never seen, watched, or known but not watched. */
  datatype Registration = New | Added | Deleted

  datatype CtlOp = CtlAdd | CtlMod | CtlDel

  /** What the kernel keeps for a descriptor. */
  datatype Watch = Watch(mask: set<Bit>, channel: Channel)

  /** One call of epoll_ctl. */
  datatype Ctl = Ctl(op: CtlOp, fd: int, watch: Watch)

  /** epoll_ctl in the kernel: it refuses to add twice, and to change or delete what it does not watch. */
  function EpollCtl(kernel: map<int, Watch>, c: Ctl): Option<map<int, Watch>> {
    if (c.op == CtlAdd) == (c.fd in kernel) then None
    else if c.op == CtlDel then Some(kernel - {c.fd})
    else Some(kernel[c.fd := c.watch])
  }

  /** What the kernel watches after some calls; None when it has refused one of them. */
  function Replay(calls: seq<Ctl>): Option<map<int, Watch>> {
    if calls == [] then Some(map[])
    else
      var k := Replay(calls[..|calls| - 1]);
      if k.None? then None else EpollCtl(k.value, calls[|calls| - 1])
  }

  datatype Callback = OnClose | OnError | OnRead | OnWrite

  /** The callbacks that a set of returned events calls, in order. */
  function Dispatch(revents: set<Bit>, fd: int): seq<Callback> {
    (if Hup in revents && In !in revents then [OnClose] else [])
    + (if Err in revents && fd > 0 then [OnError] else [])
    + (if In in revents || Pri in revents || RdHup in revents then [OnRead] else [])
    + (if Out in revents then [OnWrite] else [])
  }

  function Turn(c: Callback): nat {
    match c
    case OnClose => 0
    case OnError => 1
    case OnRead => 2
    case OnWrite => 3
  }

  lemma EveryEventServed(revents: set<Bit>, fd: int)
    ensures Dispatch(revents, fd) == [] <==> revents <= if fd > 0 then {} else {Err}
  {
    var close := if Hup in revents && In !in revents then [OnClose] else [];
    var error := if Err in revents && fd > 0 then [OnError] else [];
    var read := if In in revents || Pri in revents || RdHup in revents then [OnRead] else [];
    var write := if Out in revents then [OnWrite] else [];
    assert Dispatch(revents, fd) == close + error + read + write;
    assert |Dispatch(revents, fd)| == |close| + |error| + |read| + |write|;
    forall b | b in revents && (fd > 0 || b != Err) ensures |close| + |error| + |read| + |write| > 0 {
      match b
      case In => case Pri => case Out => case Err => case Hup => case RdHup =>
    }
  }

  lemma InOneOrder(revents: set<Bit>, fd: int)
    ensures var calls := Dispatch(revents, fd);
            forall i, j :: 0 <= i < j < |calls| ==> Turn(calls[i]) < Turn(calls[j])
  {
  }

  lemma ReadsIff(revents: set<Bit>, fd: int)
    ensures OnRead in Dispatch(revents, fd) <==> revents * {In, Pri, RdHup} != {}
  {
    var watched := revents * {In, Pri, RdHup};
    if In in revents || Pri in revents || RdHup in revents {
      assert In in watched || Pri in watched || RdHup in watched;
    }
  }

  /**
   Every event is served: urgent data and input by reading, room for output by writing, an error by
   the error callback unless the descriptor is not positive, a hang-up by closing, or by reading
   first when there is input.  The callbacks come in a fixed order, each at most once, and none is
   made without its event.
   */
  lemma DispatchSpec(revents: set<Bit>, fd: int)
    ensures var calls := Dispatch(revents, fd);
            && (calls == [] <==> revents <= if fd > 0 then {} else {Err})
            && (forall i, j :: 0 <= i < j < |calls| ==> Turn(calls[i]) < Turn(calls[j]))
            && (OnClose in calls <==> Hup in revents && In !in revents)
            && (OnError in calls <==> Err in revents && fd > 0)
            && (OnRead in calls <==> revents * {In, Pri, RdHup} != {})
            && (OnWrite in calls <==> Out in revents)
            && (OnClose in calls && OnRead in calls
                <==> Hup in revents && In !in revents && (Pri in revents || RdHup in revents))
  {
    EveryEventServed(revents, fd);
    InOneOrder(revents, fd);
    ReadsIff(revents, fd);
  }

  /** What the requests on one channel make of its mask and its registration. */
  datatype Request = EnableReading | DisableReading | EnableWriting | DisableWriting | DisableAll | Remove

  datatype Status = Status(events: set<Bit>, state: Registration)

  const UNSEEN: Status := Status({}, New)

  function NewEvents(events: set<Bit>, r: Request): set<Bit> {
    match r
    case EnableReading => events + READ_EVENT
    case DisableReading => events - READ_EVENT
    case EnableWriting => events + WRITE_EVENT
    case DisableWriting => events - WRITE_EVENT
    case DisableAll => {}
    case Remove => events
  }

  /** Removing is only allowed to a known channel that waits for nothing. */
  predicate Allowed(s: Status, r: Request) {
    r == Remove ==> s.events == {} && s.state != New
  }

  function NextStatus(s: Status, r: Request): Status {
    var events := NewEvents(s.events, r);
    if r == Remove then Status(events, New)
    else if s.state == Added && events == {} then Status(events, Deleted)
    else Status(events, Added)
  }

  class Channel {
    const fd: int
    var events: set<Bit>
    var state: Registration

    constructor (fd: int)
      ensures this.fd == fd && Value() == UNSEEN
    {
      this.fd := fd;
      events, state := {}, New;
    }

    function Value(): Status
      reads this
    {
      Status(events, state)
    }

    /** enableReading and its like: change the mask, then tell the poller; remove only tells it. */
    method Ask(r: Request, poller: EpollPoller, ghost all: set<Channel>)
      requires this in all && poller.Agree(all) && Allowed(Value(), r)
      modifies this, poller
      ensures poller.Agree(all) && Value() == NextStatus(old(Value()), r)
    {
      match r {
        case EnableReading => events := events + READ_EVENT;
        case DisableReading => events := events - READ_EVENT;
        case EnableWriting => events := events + WRITE_EVENT;
        case DisableWriting => events := events - WRITE_EVENT;
        case DisableAll => events := {};
        case Remove =>
      }
      if r == Remove {
        poller.RemoveChannel(this, all);
      } else {
        poller.UpdateChannel(this, all);
      }
    }

    /** handleEvent: the callbacks it calls, in order. */
    method HandleEvent(revents: set<Bit>) returns (calls: seq<Callback>)
      ensures calls == Dispatch(revents, fd)
    {
      calls := [];
      if Hup in revents && In !in revents {
        calls := calls + [OnClose];
      }
      if Err in revents {
        if fd > 0 {
          calls := calls + [OnError];
        }
      }
      if In in revents || Pri in revents || RdHup in revents {
        calls := calls + [OnRead];
      }
      if Out in revents {
        calls := calls + [OnWrite];
      }
    }
  }

  class EpollPoller {
    var channels: map<int, Channel>
    var kernel: map<int, Watch>
    ghost var calls: seq<Ctl>    // of epoll_ctl, so far

    constructor ()
      ensures channels == map[] && kernel == map[] && calls == []
    {
      channels, kernel, calls := map[], map[], [];
    }

    /** The same for one channel: known unless new, watched exactly when added, then with its mask. */
    ghost predicate OneAgrees(c: Channel, stale: bool)
      reads this, c
    {
      && (c.state != New <==> c.fd in channels) && (c.fd in channels ==> channels[c.fd] == c)
      && (c.state == Added <==> c.fd in kernel)
      && (c.fd in kernel ==> kernel[c.fd].channel == c && (!stale ==> kernel[c.fd].mask == c.events))
    }

    /** The table, the kernel and the channels tell the same story, except about the mask of `stale`. */
    ghost predicate AgreeBut(all: set<Channel>, stale: set<Channel>)
      reads this, all
    {
      && Replay(calls) == Some(kernel)
      && (forall c, d :: c in all && d in all && c != d ==> c.fd != d.fd)
      && (forall fd :: fd in channels ==> channels[fd] in all && channels[fd].fd == fd)
      && (forall fd :: fd in kernel ==> fd in channels)
      && (forall c :: c in all ==> OneAgrees(c, c in stale))
    }

    ghost predicate Agree(all: set<Channel>)
      reads this, all
    {
      AgreeBut(all, {})
    }

    /** One call of epoll_ctl that the kernel does not refuse: it watches what all calls add up to. */
    method Update(op: CtlOp, channel: Channel)
      requires Replay(calls) == Some(kernel) && (op == CtlAdd <==> channel.fd !in kernel)
      modifies this`kernel, this`calls
      ensures calls == old(calls) + [Ctl(op, channel.fd, Watch(channel.events, channel))]
      ensures Replay(calls) == Some(kernel)
      ensures forall fd :: fd != channel.fd ==> (fd in kernel <==> fd in old(kernel))
      ensures forall fd :: fd != channel.fd && fd in kernel ==> kernel[fd] == old(kernel)[fd]
      ensures channel.fd in kernel <==> op != CtlDel
      ensures channel.fd in kernel ==> kernel[channel.fd] == Watch(channel.events, channel)
    {
      calls := calls + [Ctl(op, channel.fd, Watch(channel.events, channel))];
      assert calls[..|calls| - 1] == old(calls);
      if op == CtlDel {
        kernel := kernel - {channel.fd};
      } else {
        kernel := kernel[channel.fd := Watch(channel.events, channel)];
      }
    }

    method UpdateChannel(channel: Channel, ghost all: set<Channel>)
      requires channel in all && AgreeBut(all, {channel})
      modifies this, channel`state
      ensures Agree(all)
      ensures channel.state == if old(channel.state) == Added && channel.events == {} then Deleted else Added
    {
      if channel.state == New || channel.state == Deleted {
        AddChannel(channel, all);
      } else {
        ModifyChannel(channel, all);
      }
    }

    /** A channel that is new to the poller, or that it knows without watching it. */
    method AddChannel(channel: Channel, ghost all: set<Channel>)
      requires channel in all && AgreeBut(all, {channel}) && channel.state != Added
      modifies this, channel`state
      ensures Agree(all) && channel.state == Added
    {
      PutInTable(channel);
      channel.state := Added;
      Update(CtlAdd, channel);
      forall c | c in all && c != channel ensures OneAgrees(c, false) {
        assert c.fd != channel.fd && old(OneAgrees(c, false));
      }
    }

    method PutInTable(channel: Channel)
      requires channel.state != Added
      requires if channel.state == New then channel.fd !in channels
               else channel.fd in channels && channels[channel.fd] == channel
      modifies this`channels
      ensures channels == old(channels)[channel.fd := channel]
    {
      if channel.state == New {
        assert channel.fd !in channels;
        channels := channels[channel.fd := channel];
      } else {
        assert channels[channel.fd] == channel;
      }
    }

    /** A channel that the kernel watches. */
    method ModifyChannel(channel: Channel, ghost all: set<Channel>)
      requires channel in all && AgreeBut(all, {channel}) && channel.state == Added
      modifies this, channel`state
      ensures Agree(all) && channel.state == if channel.events == {} then Deleted else Added
    {
      assert channels[channel.fd] == channel;
      if channel.events == {} {
        Update(CtlDel, channel);
        channel.state := Deleted;
      } else {
        Update(CtlMod, channel);
      }
    }

    method RemoveChannel(channel: Channel, ghost all: set<Channel>)
      requires channel in all && Agree(all) && channel.events == {} && channel.state != New
      modifies this, channel`state
      ensures Agree(all) && channel.state == New
    {
      assert channels[channel.fd] == channel;
      channels := channels - {channel.fd};
      if channel.state == Added {
        Update(CtlDel, channel);
      }
      channel.state := New;
    }
  }

  /** A request on the i-th channel. */
  datatype Step = Step(i: nat, r: Request)

  function StatusAfter(steps: seq<Step>, i: nat): Status {
    if steps == [] then UNSEEN
    else
      var s := StatusAfter(steps[..|steps| - 1], i);
      var last := steps[|steps| - 1];
      if last.i == i then NextStatus(s, last.r) else s
  }

  ghost predicate AllAllowed(steps: seq<Step>) {
    forall k :: 0 <= k < |steps| ==> Allowed(StatusAfter(steps[..k], steps[k].i), steps[k].r)
  }

  method Create(fds: seq<int>) returns (poller: EpollPoller, chans: seq<Channel>)
    ensures fresh(poller) && poller.channels == map[] && poller.kernel == map[] && poller.calls == []
    ensures |chans| == |fds|
    ensures forall i :: 0 <= i < |fds| ==> fresh(chans[i]) && chans[i].fd == fds[i] && chans[i].Value() == UNSEEN
  {
    poller := new EpollPoller();
    chans := [];
    for i := 0 to |fds|
      invariant |chans| == i && fresh(poller)
      invariant poller.channels == map[] && poller.kernel == map[] && poller.calls == []
      invariant forall j :: 0 <= j < i ==> fresh(chans[j]) && chans[j].fd == fds[j] && chans[j].Value() == UNSEEN
    {
      var c := new Channel(fds[i]);
      chans := chans + [c];
    }
  }

  /** The request that begins to watch for a bit, and those that end it. */
  predicate Starts(r: Request, b: Bit) {
    match b
    case In => r == EnableReading
    case Pri => r == EnableReading
    case Out => r == EnableWriting
    case _ => false
  }

  predicate Ends(r: Request, b: Bit) {
    match b
    case In => r in {DisableReading, DisableAll}
    case Pri => r in {DisableReading, DisableAll}
    case Out => r in {DisableWriting, DisableAll}
    case _ => false
  }

  /** The k-th step asks channel `i` to watch for the bit, and no later one asks it to stop. */
  ghost predicate WatchedSince(steps: seq<Step>, i: nat, b: Bit, k: nat) {
    && k < |steps| && steps[k].i == i && Starts(steps[k].r, b)
    && forall j :: k < j < |steps| && steps[j].i == i ==> !Ends(steps[j].r, b)
  }

  ghost predicate IsWatched(steps: seq<Step>, i: nat, b: Bit) {
    exists k :: WatchedSince(steps, i, b, k)
  }

  lemma WatchStep(steps: seq<Step>, i: nat, b: Bit)
    requires steps != []
    ensures var init, last := steps[..|steps| - 1], steps[|steps| - 1];
            IsWatched(steps, i, b)
            <==> if last.i == i && Starts(last.r, b) then true
                 else IsWatched(init, i, b) && !(last.i == i && Ends(last.r, b))
  {
    var n := |steps| - 1;
    var init, last := steps[..n], steps[n];
    if last.i == i && Starts(last.r, b) { assert WatchedSince(steps, i, b, n); }
    forall k: nat | k < n
      ensures WatchedSince(steps, i, b, k) <==> WatchedSince(init, i, b, k) && !(last.i == i && Ends(last.r, b))
    {
    }
  }

  /** A channel waits for exactly the bits it was asked to watch for and not asked to give up since. */
  lemma {:induction false} MaskIs(steps: seq<Step>, i: nat, b: Bit)
    ensures b in StatusAfter(steps, i).events <==> IsWatched(steps, i, b)
    decreases |steps|
  {
    if steps != [] {
      MaskIs(steps[..|steps| - 1], i, b);
      WatchStep(steps, i, b);
    }
  }

  ghost predicate SomeAbout(steps: seq<Step>, i: nat) {
    exists k :: 0 <= k < |steps| && steps[k].i == i
  }

  /** The last request on channel `i` is this one. */
  ghost predicate LastIs(steps: seq<Step>, i: nat, r: Request) {
    exists k :: 0 <= k < |steps| && steps[k] == Step(i, r) && forall j :: k < j < |steps| ==> steps[j].i != i
  }

  lemma SomeStep(steps: seq<Step>, i: nat)
    requires steps != []
    ensures SomeAbout(steps, i) <==> steps[|steps| - 1].i == i || SomeAbout(steps[..|steps| - 1], i)
  {
    var init := steps[..|steps| - 1];
    assert forall k :: 0 <= k < |init| ==> steps[k] == init[k];
    if steps[|steps| - 1].i != i { assert forall k :: 0 <= k < |steps| && steps[k].i == i ==> init[k].i == i; }
  }

  lemma LastStep(steps: seq<Step>, i: nat, r: Request)
    requires steps != []
    ensures var init, last := steps[..|steps| - 1], steps[|steps| - 1];
            LastIs(steps, i, r) <==> if last.i == i then last.r == r else LastIs(init, i, r)
  {
    var n := |steps| - 1;
    var init, last := steps[..n], steps[n];
    if last.i != i {
      forall k | 0 <= k < n
        ensures (init[k] == Step(i, r) && forall j :: k < j < n ==> init[j].i != i)
                <==> (steps[k] == Step(i, r) && forall j :: k < j < |steps| ==> steps[j].i != i)
      {
        assert forall j :: 0 <= j < n ==> steps[j] == init[j];
      }
    } else if last.r == r {
      assert steps[n] == Step(i, r);
    }
  }

  /** A channel is new to the poller before its first request and after being removed; else it is known. */
  lemma {:induction false} RegistrationIs(steps: seq<Step>, i: nat)
    ensures var s := StatusAfter(steps, i);
            && (s.state == New <==> !SomeAbout(steps, i) || LastIs(steps, i, Remove))
            && (s.state == Deleted ==> s.events == {})
    decreases |steps|
  {
    if steps != [] {
      RegistrationIs(steps[..|steps| - 1], i);
      LastStep(steps, i, Remove);
      SomeStep(steps, i);
    }
  }

  /** A request that leaves nothing to wait for ends the watching of a watched channel, and only that does. */
  lemma GivesUpIff(steps: seq<Step>, i: nat)
    requires steps != [] && steps[|steps| - 1].i == i && steps[|steps| - 1].r != Remove
    ensures StatusAfter(steps, i).state == Deleted
            <==> && StatusAfter(steps[..|steps| - 1], i).state == Added
                 && forall b :: !IsWatched(steps, i, b)
  {
    forall b ensures b in StatusAfter(steps, i).events <==> IsWatched(steps, i, b) {
      MaskIs(steps, i, b);
    }
  }

  /**
   After any sequence of requests on channels with different descriptors, the kernel has refused
   none of the calls it got and watches what they add up to; the table holds exactly
   the channels that are not new, and the kernel watches exactly those that are added, with their
   masks; each channel's mask and registration are those its own requests give it.
   */
  method Drive(fds: seq<int>, steps: seq<Step>) returns (poller: EpollPoller, chans: seq<Channel>)
    requires forall i, j :: 0 <= i < j < |fds| ==> fds[i] != fds[j]
    requires forall k :: 0 <= k < |steps| ==> steps[k].i < |fds|
    requires AllAllowed(steps)
    ensures |chans| == |fds| && poller.Agree(set i | 0 <= i < |chans| :: chans[i])
    ensures forall i :: 0 <= i < |chans| ==> chans[i].fd == fds[i] && chans[i].Value() == StatusAfter(steps, i)
    ensures Replay(poller.calls) == Some(poller.kernel)
    ensures forall i :: 0 <= i < |chans| ==> (fds[i] in poller.channels <==> StatusAfter(steps, i).state != New)
    ensures forall i :: 0 <= i < |chans| ==> (fds[i] in poller.kernel <==> StatusAfter(steps, i).state == Added)
    ensures forall i :: 0 <= i < |chans| && fds[i] in poller.kernel
              ==> poller.kernel[fds[i]] == Watch(StatusAfter(steps, i).events, chans[i])
  {
    poller, chans := Create(fds);
    ghost var all := set i | 0 <= i < |chans| :: chans[i];
    assert steps[..0] == [];
    for k := 0 to |steps|
      invariant poller.Agree(all)
      invariant forall i :: 0 <= i < |chans| ==> fresh(chans[i]) && chans[i].Value() == StatusAfter(steps[..k], i)
    {
      assert steps[..k + 1][..k] == steps[..k];
      assert chans[steps[k].i] in all;
      chans[steps[k].i].Ask(steps[k].r, poller, all);
    }
    assert steps[..|steps|] == steps;
    forall i | 0 <= i < |chans| ensures chans[i] in all {}
  }
}
