/**
 The output path of a connection (matelib/TcpConnection.cc): sends from the loop thread and from
 others, partial writes, the deferred half-close, and what a close by the peer does to them.

 A step is one call executed by the loop thread, or the check-and-queue of another thread.  The
 socket takes any prefix of what it is given, or reports an error; after SHUT_WR it reports EPIPE.
 */
module OutputPath {
  datatype ConnState = Connecting | Connected | Disconnecting | Disconnected

  /** What write() reports. */
  datatype WriteResult = Wrote(n: nat) | WouldBlock | BrokenPipe | OtherError

  /** Functors queued for the loop thread by others. */
  datatype Functor = SendLater(data: string) | ShutdownLater

  /** A SHUT_WR: what was still in the buffer, what was still queued, and the state of the connection. */
  datatype Shut = Shut(left: string, queued: seq<Functor>, state: ConnState)

  datatype Conn = Conn(
    state: ConnState,
    writing: bool,               // interest in EPOLLOUT
    output: string,              // outputBuffer_
    queue: seq<Functor>,
    wire: string,                // what the socket has taken
    accepted: string,            // what was sent, without what was refused
    shuts: seq<Shut>,
    early: bool)                 // the output ran dry while a queued shutdown had not yet run

  const FRESH: Conn := Conn(Connecting, false, "", [], "", "", [], false)

  datatype Action =
    | Establish
    | Send(data: string, w: WriteResult)
    | RemoteSend(data: string)
    | RunFunctor(w: WriteResult)
    | Shutdown
    | RemoteShutdown
    | HandleWrite(w: WriteResult)
    | HandleClose

  predicate Possible(c: Conn, w: WriteResult, len: nat) {
    (w.Wrote? ==> w.n <= len) && (c.shuts != [] ==> w == BrokenPipe)
  }

  predicate Enabled(c: Conn, a: Action) {
    match a
    case Establish => c.state == Connecting
    case Send(data, w) => Possible(c, w, |data|)
    case RemoteSend(_) => true
    case RunFunctor(w) => c.queue != [] && Possible(c, w, if c.queue[0].SendLater? then |c.queue[0].data| else 0)
    case Shutdown => true
    case RemoteShutdown => true
    case HandleWrite(w) => Possible(c, w, |c.output|)
    case HandleClose => c.state == Connected || c.state == Disconnecting
  }

  /** sendInThread. */
  function SendStep(c: Conn, data: string, w: WriteResult): Conn
    requires Possible(c, w, |data|)
  {
    if c.state == Disconnected then c
    else if !c.writing && c.output == "" then
      if w == BrokenPipe then c
      else
        var n := if w.Wrote? then w.n else 0;
        var rest := data[n..];
        c.(wire := c.wire + data[..n], output := rest, writing := rest != "", accepted := c.accepted + data)
    else if data == "" then c
    else c.(output := c.output + data, writing := true, accepted := c.accepted + data)
  }

  /** shutdownInLoop. */
  function ShutStep(c: Conn): Conn {
    if c.writing then c else c.(shuts := c.shuts + [Shut(c.output, c.queue, c.state)])
  }

  predicate ShutQueued(c: Conn) {
    ShutdownLater in c.queue
  }

  function WriteStep(c: Conn, w: WriteResult): Conn
    requires Possible(c, w, |c.output|)
  {
    if !c.writing || !w.Wrote? || w.n == 0 then c
    else
      var c1 := c.(wire := c.wire + c.output[..w.n], output := c.output[w.n..]);
      if c1.output != "" then c1
      else
        var c2 := c1.(writing := false);
        if c.state == Disconnecting then ShutStep(c2.(early := c.early || ShutQueued(c))) else c2
  }

  function Apply(c: Conn, a: Action): Conn
    requires Enabled(c, a)
  {
    match a
    case Establish => c.(state := Connected)
    case Send(data, w) => if c.state == Connected then SendStep(c, data, w) else c
    case RemoteSend(data) => if c.state == Connected then c.(queue := c.queue + [SendLater(data)]) else c
    case RunFunctor(w) =>
      var c1 := c.(queue := c.queue[1..]);
      if c.queue[0].SendLater? then SendStep(c1, c.queue[0].data, w) else ShutStep(c1)
    case Shutdown => if c.state == Connected then ShutStep(c.(state := Disconnecting)) else c
    case RemoteShutdown =>
      if c.state == Connected then c.(state := Disconnecting, queue := c.queue + [ShutdownLater]) else c
    case HandleWrite(w) => WriteStep(c, w)
    case HandleClose => c.(state := Disconnected, writing := false)
  }

  ghost predicate LegalFrom(c: Conn, run: seq<Action>)
    decreases |run|
  {
    run == [] || (Enabled(c, run[0]) && LegalFrom(Apply(c, run[0]), run[1..]))
  }

  ghost function After(c: Conn, run: seq<Action>): Conn
    requires LegalFrom(c, run)
    decreases |run|
  {
    if run == [] then c else After(Apply(c, run[0]), run[1..])
  }

  /** Nothing sent is lost, repeated or reordered. */
  predicate Conserved(c: Conn) {
    c.wire + c.output == c.accepted
  }

  /** Until the connection is closed there is write interest exactly when there is something to write. */
  predicate InterestExact(c: Conn) {
    if c.state == Disconnected then !c.writing else c.writing <==> c.output != ""
  }

  ghost predicate ShutsClean(c: Conn) {
    forall i :: 0 <= i < |c.shuts| ==> c.shuts[i].left == "" || c.shuts[i].state == Disconnected
  }

  ghost predicate QueueShape(c: Conn) {
    && (forall i :: 0 <= i < |c.queue| && c.queue[i] == ShutdownLater ==> i == |c.queue| - 1)
    && (c.state in {Connecting, Connected} ==> !ShutQueued(c) && c.shuts == [] && !c.early)
  }

  /** How often SHUT_WR has been issued. */
  predicate ShutCount(c: Conn) {
    && (ShutQueued(c) ==> |c.shuts| == if c.early then 1 else 0)
    && (!ShutQueued(c) ==> |c.shuts| <= 2 && (|c.shuts| == 2 <==> c.early))
    && (c.state != Disconnected && c.shuts != [] ==> c.output == "")
    && (c.early ==> c.output == "")
    && (c.state == Disconnecting && !ShutQueued(c) && c.output == "" ==> c.shuts != [])
  }

  ghost predicate Inv(c: Conn) {
    Conserved(c) && InterestExact(c) && ShutsClean(c) && QueueShape(c) && ShutCount(c)
  }

  lemma SendKeepsInv(c: Conn, data: string, w: WriteResult)
    requires Inv(c) && Possible(c, w, |data|)
    ensures Inv(SendStep(c, data, w))
  {
    if w.Wrote? {
      assert data == data[..w.n] + data[w.n..];
      assert c.wire + data[..w.n] + data[w.n..] == c.wire + data;
    }
    assert c.wire + (c.output + data) == c.wire + c.output + data;
  }

  lemma WriteKeepsInv(c: Conn, w: WriteResult)
    requires Inv(c) && Possible(c, w, |c.output|)
    ensures Inv(WriteStep(c, w))
  {
    if w.Wrote? {
      assert c.output == c.output[..w.n] + c.output[w.n..];
      assert c.wire + c.output[..w.n] + c.output[w.n..] == c.wire + c.output;
    }
  }

  lemma PushKeepsShape(q: seq<Functor>, f: Functor)
    requires ShutdownLater !in q
    ensures forall i :: 0 <= i < |q + [f]| && (q + [f])[i] == ShutdownLater ==> i == |q|
    ensures ShutdownLater in q + [f] <==> f == ShutdownLater
  {
    assert (q + [f])[|q|] == f;
    assert forall i :: 0 <= i < |q| ==> (q + [f])[i] in q;
  }

  lemma RunFunctorKeepsInv(c: Conn, w: WriteResult)
    requires Inv(c) && Enabled(c, RunFunctor(w))
    ensures Inv(Apply(c, RunFunctor(w)))
  {
    var rest := c.queue[1..];
    assert c.queue == [c.queue[0]] + rest;
    var c1 := c.(queue := rest);
    if c.queue[0].SendLater? {
      assert ShutQueued(c1) == ShutQueued(c);
      SendKeepsInv(c1, c.queue[0].data, w);
    } else {
      assert rest == [];
    }
  }

  lemma StepKeepsInv(c: Conn, a: Action)
    requires Inv(c) && Enabled(c, a)
    ensures Inv(Apply(c, a))
  {
    match a
    case Send(data, w) => if c.state == Connected { SendKeepsInv(c, data, w); }
    case RemoteSend(data) => if c.state == Connected { PushKeepsShape(c.queue, SendLater(data)); }
    case RemoteShutdown => if c.state == Connected { PushKeepsShape(c.queue, ShutdownLater); }
    case RunFunctor(w) => RunFunctorKeepsInv(c, w);
    case HandleWrite(w) => WriteKeepsInv(c, w);
    case _ =>
  }

  lemma {:induction false} RunKeepsInv(c: Conn, run: seq<Action>)
    requires Inv(c) && LegalFrom(c, run)
    ensures Inv(After(c, run))
    decreases |run|
  {
    if run != [] {
      StepKeepsInv(c, run[0]);
      RunKeepsInv(Apply(c, run[0]), run[1..]);
    }
  }

  /** A send finds the connection closed, or is told that the peer reads no more. */
  predicate Refused(c: Conn, w: WriteResult) {
    c.state == Disconnected || (!c.writing && c.output == "" && w == BrokenPipe)
  }

  /** What a step accepts for sending. */
  function AcceptedBy(c: Conn, a: Action): string {
    match a
    case Send(data, w) => if c.state != Connected || Refused(c, w) then "" else data
    case RunFunctor(w) =>
      if c.queue == [] || c.queue[0] == ShutdownLater || Refused(c, w) then "" else c.queue[0].data
    case _ => ""
  }

  ghost function AcceptedIn(c: Conn, run: seq<Action>): string
    requires LegalFrom(c, run)
    decreases |run|
  {
    if run == [] then "" else AcceptedBy(c, run[0]) + AcceptedIn(Apply(c, run[0]), run[1..])
  }

  lemma StepAccepts(c: Conn, a: Action)
    requires Enabled(c, a)
    ensures Apply(c, a).accepted == c.accepted + AcceptedBy(c, a)
  {
    assert c.accepted + "" == c.accepted;
  }

  lemma {:induction false} RunAccepts(c: Conn, run: seq<Action>)
    requires LegalFrom(c, run)
    ensures After(c, run).accepted == c.accepted + AcceptedIn(c, run)
    decreases |run|
  {
    if run == [] {
      assert c.accepted + "" == c.accepted;
    } else {
      StepAccepts(c, run[0]);
      RunAccepts(Apply(c, run[0]), run[1..]);
      assert c.accepted + AcceptedBy(c, run[0]) + AcceptedIn(Apply(c, run[0]), run[1..])
             == c.accepted + (AcceptedBy(c, run[0]) + AcceptedIn(Apply(c, run[0]), run[1..]));
    }
  }

  /** Functors queued by other threads, and functors taken off the queue. */
  ghost function Posted(c: Conn, run: seq<Action>): seq<Functor>
    requires LegalFrom(c, run)
    decreases |run|
  {
    if run == [] then [] else PostedBy(c, run[0]) + Posted(Apply(c, run[0]), run[1..])
  }

  function PostedBy(c: Conn, a: Action): seq<Functor> {
    if c.state != Connected then []
    else if a.RemoteSend? then [SendLater(a.data)]
    else if a.RemoteShutdown? then [ShutdownLater]
    else []
  }

  ghost function Executed(c: Conn, run: seq<Action>): seq<Functor>
    requires LegalFrom(c, run)
    decreases |run|
  {
    if run == [] then []
    else (if run[0].RunFunctor? then [c.queue[0]] else []) + Executed(Apply(c, run[0]), run[1..])
  }

  lemma StepInOrder(c: Conn, a: Action)
    requires Enabled(c, a)
    ensures (if a.RunFunctor? then [c.queue[0]] else []) + Apply(c, a).queue == c.queue + PostedBy(c, a)
  {
  }

  /** What other threads ask for is done in the order in which they asked. */
  lemma {:induction false} RemoteInOrder(c: Conn, run: seq<Action>)
    requires LegalFrom(c, run)
    ensures Executed(c, run) + After(c, run).queue == c.queue + Posted(c, run)
    decreases |run|
  {
    if run == [] {
      assert [] + c.queue == c.queue + [];
    } else {
      var d := Apply(c, run[0]);
      var x := if run[0].RunFunctor? then [c.queue[0]] else [];
      RemoteInOrder(d, run[1..]);
      StepInOrder(c, run[0]);
      Regroup(x, Executed(d, run[1..]), After(d, run[1..]).queue, d.queue, Posted(d, run[1..]),
              c.queue, PostedBy(c, run[0]));
    }
  }

  lemma Regroup(x: seq<Functor>, e: seq<Functor>, left: seq<Functor>, q: seq<Functor>, p: seq<Functor>,
                was: seq<Functor>, add: seq<Functor>)
    requires e + left == q + p && x + q == was + add
    ensures x + e + left == was + (add + p)
  {
    assert x + e + left == x + (e + left);
    assert x + (q + p) == x + q + p;
    assert was + add + p == was + (add + p);
  }

  /** Nothing waits to be sent, so that a send goes to the socket at once. */
  predicate Idle(c: Conn) {
    !c.writing && c.output == ""
  }

  /** What the socket takes in a step, from what write() reports and what it was given. */
  function TakenBy(c: Conn, a: Action): string
    requires Enabled(c, a)
  {
    match a
    case Send(data, w) => if c.state == Connected && Idle(c) && w.Wrote? then data[..w.n] else ""
    case RunFunctor(w) =>
      if c.queue[0].SendLater? && c.state != Disconnected && Idle(c) && w.Wrote? then c.queue[0].data[..w.n] else ""
    case HandleWrite(w) => if c.writing && w.Wrote? then c.output[..w.n] else ""
    case _ => ""
  }

  ghost function TakenIn(c: Conn, run: seq<Action>): string
    requires LegalFrom(c, run)
    decreases |run|
  {
    if run == [] then "" else TakenBy(c, run[0]) + TakenIn(Apply(c, run[0]), run[1..])
  }

  lemma StepTakes(c: Conn, a: Action)
    requires Enabled(c, a)
    ensures Apply(c, a).wire == c.wire + TakenBy(c, a)
  {
    assert c.wire + "" == c.wire;
  }

  lemma {:induction false} RunTakes(c: Conn, run: seq<Action>)
    requires LegalFrom(c, run)
    ensures After(c, run).wire == c.wire + TakenIn(c, run)
    decreases |run|
  {
    if run == [] {
      assert c.wire + "" == c.wire;
    } else {
      StepTakes(c, run[0]);
      RunTakes(Apply(c, run[0]), run[1..]);
      assert c.wire + TakenBy(c, run[0]) + TakenIn(Apply(c, run[0]), run[1..])
             == c.wire + (TakenBy(c, run[0]) + TakenIn(Apply(c, run[0]), run[1..]));
    }
  }

  /**
   Whatever the socket takes or refuses: the peer gets exactly what write() has reported as taken;
   that and what is buffered are the accepted sends in order, all but those refused.  Until the
   connection is closed, write interest is on exactly when the buffer is not empty, and SHUT_WR is
   issued only when it is empty.
   */
  lemma OutputConserved(run: seq<Action>)
    requires LegalFrom(FRESH, run)
    ensures var c := After(FRESH, run);
            && c.wire == TakenIn(FRESH, run) && c.wire + c.output == AcceptedIn(FRESH, run)
            && InterestExact(c) && ShutsClean(c)
  {
    RunKeepsInv(FRESH, run);
    RunAccepts(FRESH, run);
    RunTakes(FRESH, run);
    assert "" + AcceptedIn(FRESH, run) == AcceptedIn(FRESH, run);
    assert "" + TakenIn(FRESH, run) == TakenIn(FRESH, run);
  }

  /* ---------------------------------------------------------------- the four states */

  ghost predicate AsksToClose(run: seq<Action>) {
    Shutdown in run || RemoteShutdown in run
  }

  /** shutdown() was called, by whichever thread, after the connection had come up. */
  ghost predicate AskedWhileUp(run: seq<Action>) {
    exists i :: 0 <= i < |run| && run[i] == Establish && AsksToClose(run[i + 1..])
  }

  lemma {:induction false} StateFrom(c: Conn, run: seq<Action>)
    requires LegalFrom(c, run) && c.state != Connecting
    ensures var d := After(c, run);
            && (d.state == Disconnected <==> c.state == Disconnected || HandleClose in run)
            && (d.state == Connected <==> c.state == Connected && HandleClose !in run && !AsksToClose(run))
            && d.state != Connecting && Establish !in run
    decreases |run|
  {
    if run != [] {
      assert run == [run[0]] + run[1..];
      StateFrom(Apply(c, run[0]), run[1..]);
    }
  }

  lemma {:induction false} StateFromStart(c: Conn, run: seq<Action>)
    requires LegalFrom(c, run) && c.state == Connecting
    ensures var d := After(c, run);
            && (d.state == Connecting <==> Establish !in run)
            && (d.state == Disconnected <==> HandleClose in run)
            && (d.state == Disconnecting <==> AskedWhileUp(run) && HandleClose !in run)
    decreases |run|
  {
    if run != [] {
      var rest := run[1..];
      assert run == [run[0]] + rest;
      if run[0] == Establish {
        StateFrom(Apply(c, run[0]), rest);
        AskedAtOnce(run);
      } else {
        StateFromStart(Apply(c, run[0]), rest);
        AskedLater(run);
      }
    }
  }

  lemma AskedAtOnce(run: seq<Action>)
    requires run != [] && run[0] == Establish && Establish !in run[1..]
    ensures AskedWhileUp(run) <==> AsksToClose(run[1..])
  {
    assert run[0 + 1..] == run[1..];
    assert forall i :: 0 < i < |run| ==> run[i] == run[1..][i - 1];
  }

  lemma AskedLater(run: seq<Action>)
    requires run != [] && run[0] != Establish
    ensures AskedWhileUp(run) <==> AskedWhileUp(run[1..])
  {
    var rest := run[1..];
    forall i | 0 <= i < |rest| ensures rest[i] == run[i + 1] && rest[i + 1..] == run[i + 1 + 1..] {}
    if AskedWhileUp(run) {
      var i :| 0 <= i < |run| && run[i] == Establish && AsksToClose(run[i + 1..]);
      assert rest[i - 1] == Establish && rest[i - 1 + 1..] == run[i + 1..];
    }
  }

  lemma {:induction false} NoShutFrom(c: Conn, run: seq<Action>)
    requires LegalFrom(c, run) && !AsksToClose(run)
    requires c.shuts == [] && !ShutQueued(c) && c.state != Disconnecting
    ensures After(c, run).shuts == []
    decreases |run|
  {
    if run != [] {
      assert run == [run[0]] + run[1..];
      var d := Apply(c, run[0]);
      forall i | 0 <= i < |d.queue| ensures d.queue[i] != ShutdownLater {
        assert run[0].RunFunctor? ==> d.queue[i] == c.queue[i + 1];
      }
      NoShutFrom(d, run[1..]);
    }
  }

  /** Nobody half-closes a connection unless shutdown() has been called. */
  lemma ShutOnlyIfAsked(run: seq<Action>)
    requires LegalFrom(FRESH, run) && After(FRESH, run).shuts != []
    ensures AsksToClose(run)
  {
    if !AsksToClose(run) { NoShutFrom(FRESH, run); }
  }

  /** The state is what has happened to the connection: established, asked to close, closed. */
  lemma StateIs(run: seq<Action>)
    requires LegalFrom(FRESH, run)
    ensures var c := After(FRESH, run);
            && (c.state == Connecting <==> Establish !in run)
            && (c.state == Disconnected <==> HandleClose in run)
            && (c.state == Disconnecting <==> AskedWhileUp(run) && HandleClose !in run)
  {
    StateFromStart(FRESH, run);
  }

  /* ---------------------------------------------------------------- sends overtaken by a half-close */

  predicate SendQueued(q: seq<Functor>) {
    exists i :: 0 <= i < |q| && q[i].SendLater?
  }

  /** The step issues SHUT_WR while data that other threads have sent waits in the queue. */
  predicate Overtakes(c: Conn, a: Action)
    requires Enabled(c, a)
  {
    var shuts := Apply(c, a).shuts;
    |shuts| > |c.shuts| && SendQueued(shuts[|shuts| - 1].queued)
  }

  /**
   SHUT_WR overtakes queued sends exactly when there are some, and the loop's thread either shuts
   down with nothing in the buffer, or writes the last of the buffer after some shutdown().
   */
  lemma OvertakesIff(c: Conn, a: Action)
    requires Inv(c) && Enabled(c, a)
    ensures Overtakes(c, a)
            <==> && SendQueued(c.queue)
                 && (|| (a.Shutdown? && c.state == Connected && !c.writing)
                     || (a.HandleWrite? && c.state == Disconnecting && c.writing && a.w == Wrote(|c.output|)))
  {
    if a.RunFunctor? && c.queue[0] == ShutdownLater {
      assert c.queue[1..] == [];
    }
  }

  ghost predicate NothingLeft(s: Shut) {
    s.state == Disconnected || (s.left == "" && !SendQueued(s.queued))
  }

  ghost predicate AllLeft(c: Conn) {
    forall i :: 0 <= i < |c.shuts| ==> NothingLeft(c.shuts[i])
  }

  lemma NothingQueued(c: Conn, a: Action)
    requires Enabled(c, a) && !SendQueued(c.queue) && !a.RemoteSend?
    ensures !SendQueued(Apply(c, a).queue)
  {
    var q := Apply(c, a).queue;
    forall i | 0 <= i < |q| ensures !q[i].SendLater? {
      assert q[i] == ShutdownLater || q[i] in c.queue;
    }
  }

  lemma LastShut(c: Conn, a: Action)
    requires Enabled(c, a) && Inv(c) && !SendQueued(c.queue) && |Apply(c, a).shuts| > |c.shuts|
    requires ShutsClean(Apply(c, a))
    ensures NothingLeft(Apply(c, a).shuts[|Apply(c, a).shuts| - 1])
  {
    OvertakesIff(c, a);
  }

  lemma LocalStep(c: Conn, a: Action)
    requires Enabled(c, a) && Inv(c) && ShutsClean(Apply(c, a)) && !SendQueued(c.queue) && AllLeft(c)
    ensures AllLeft(Apply(c, a))
  {
    ShutsGrow(c, a);
    if |Apply(c, a).shuts| > |c.shuts| { LastShut(c, a); }
    LastOneMore(c.shuts, Apply(c, a).shuts);
  }

  lemma LastOneMore(was: seq<Shut>, now: seq<Shut>)
    requires now == was || (|now| == |was| + 1 && now[..|was|] == was && NothingLeft(now[|was|]))
    requires forall i :: 0 <= i < |was| ==> NothingLeft(was[i])
    ensures forall i :: 0 <= i < |now| ==> NothingLeft(now[i])
  {
    assert forall i :: 0 <= i < |was| ==> now[i] == was[i];
  }

  /** Without send() on another thread, SHUT_WR is issued only when nothing at all is left to send. */
  lemma {:induction false} LocalSendsAllLeave(c: Conn, run: seq<Action>)
    requires Inv(c) && LegalFrom(c, run) && !SendQueued(c.queue) && AllLeft(c)
    requires forall i :: 0 <= i < |run| ==> !run[i].RemoteSend?
    ensures AllLeft(After(c, run))
    decreases |run|
  {
    if run != [] {
      StepKeepsInv(c, run[0]);
      NothingQueued(c, run[0]);
      LocalStep(c, run[0]);
      LocalSendsAllLeave(Apply(c, run[0]), run[1..]);
    }
  }

  lemma ShutsGrow(c: Conn, a: Action)
    requires Enabled(c, a)
    ensures var shuts := Apply(c, a).shuts;
            shuts == c.shuts || (|shuts| == |c.shuts| + 1 && shuts[..|c.shuts|] == c.shuts)
  {
  }

  /** Another thread sends "y" and shuts down; the loop's own "x" is the last to leave. */
  const OVERTAKING: seq<Action> :=
    [Establish, Send("x", WouldBlock), RemoteSend("y"), RemoteShutdown]
    + [HandleWrite(Wrote(1)), RunFunctor(BrokenPipe)]

  const WAITING: Conn :=
    Conn(Disconnecting, true, "x", [SendLater("y"), ShutdownLater], "", "x", [], false)

  /** What another thread has sent can be lost although it was sent before shutdown(). */
  lemma SendOvertaken()
    ensures LegalFrom(FRESH, OVERTAKING)
    ensures var c := After(FRESH, OVERTAKING);
            c.wire == "x" && c.output == "" && c.queue == [ShutdownLater]
            && |c.shuts| == 1 && c.shuts[0].queued == [SendLater("y"), ShutdownLater]
  {
    UntilWaiting();
    WhenWaiting();
    RunConcat(FRESH, OVERTAKING[..4], OVERTAKING[4..]);
    assert OVERTAKING[..4] + OVERTAKING[4..] == OVERTAKING;
  }

  lemma UntilWaiting()
    ensures LegalFrom(FRESH, OVERTAKING[..4]) && After(FRESH, OVERTAKING[..4]) == WAITING
  {
    var run := OVERTAKING[..4];
    var c1 := Apply(FRESH, run[0]);
    var c2 := Apply(c1, run[1]);
    assert c2 == Conn(Connected, true, "x", [], "", "x", [], false);
    var c3 := Apply(c2, run[2]);
    var c4 := Apply(c3, run[3]);
    assert c4 == WAITING;
    assert run[3..][1..] == [] && run[2..][1..] == run[3..] && run[1..][1..] == run[2..];
    assert LegalFrom(c3, run[3..]) && After(c3, run[3..]) == c4;
    assert LegalFrom(c2, run[2..]) && After(c2, run[2..]) == c4;
    assert LegalFrom(c1, run[1..]) && After(c1, run[1..]) == c4;
  }

  lemma WhenWaiting()
    ensures LegalFrom(WAITING, OVERTAKING[4..])
    ensures var c := After(WAITING, OVERTAKING[4..]);
            c.wire == "x" && c.output == "" && c.queue == [ShutdownLater]
            && |c.shuts| == 1 && c.shuts[0].queued == [SendLater("y"), ShutdownLater]
  {
    var run := OVERTAKING[4..];
    var c1 := Apply(WAITING, run[0]);
    assert c1.output == "" && c1.wire == "x" && c1.shuts == [Shut("", WAITING.queue, Disconnecting)];
    var c2 := Apply(c1, run[1]);
    assert run[1..][1..] == [];
    assert LegalFrom(c1, run[1..]) && After(c1, run[1..]) == c2;
  }

  lemma {:induction false} RunConcat(c: Conn, run: seq<Action>, more: seq<Action>)
    requires LegalFrom(c, run) && LegalFrom(After(c, run), more)
    ensures LegalFrom(c, run + more) && After(c, run + more) == After(After(c, run), more)
    decreases |run|
  {
    if run == [] {
      assert run + more == more;
    } else {
      RunConcat(Apply(c, run[0]), run[1..], more);
      assert (run + more)[1..] == run[1..] + more;
    }
  }

  /** Once a requested half-close has had its turn, it has been issued or waits for the buffer. */
  lemma CloseNotForgotten(run: seq<Action>)
    requires LegalFrom(FRESH, run)
    ensures var c := After(FRESH, run);
            c.state == Disconnecting && !ShutQueued(c) ==> c.shuts != [] || c.writing
  {
    RunKeepsInv(FRESH, run);
  }

  /** handleWrite empties the buffer while shutdown() of another thread is still queued. */
  predicate RunsDryEarly(c: Conn, a: Action) {
    a.HandleWrite? && c.state == Disconnecting && c.writing && a.w == Wrote(|c.output|) && ShutQueued(c)
  }

  ghost predicate SomeRunsDryEarly(c: Conn, run: seq<Action>)
    requires LegalFrom(c, run)
    decreases |run|
  {
    run != [] && (RunsDryEarly(c, run[0]) || SomeRunsDryEarly(Apply(c, run[0]), run[1..]))
  }

  lemma {:induction false} EarlyIff(c: Conn, run: seq<Action>)
    requires Inv(c) && LegalFrom(c, run)
    ensures After(c, run).early <==> c.early || SomeRunsDryEarly(c, run)
    decreases |run|
  {
    if run != [] {
      StepKeepsInv(c, run[0]);
      EarlyIff(Apply(c, run[0]), run[1..]);
      EarlyStep(c, run[0]);
    }
  }

  lemma EarlyStep(c: Conn, a: Action)
    requires Inv(c) && Enabled(c, a)
    ensures Apply(c, a).early <==> c.early || RunsDryEarly(c, a)
  {
  }

  /**
   SHUT_WR is never issued more than twice; it is issued twice exactly when some handleWrite emptied
   the buffer between shutdown() on another thread and its functor, and the functor has run since.
   */
  lemma ShutTwiceIff(run: seq<Action>)
    requires LegalFrom(FRESH, run)
    ensures var c := After(FRESH, run);
            |c.shuts| <= 2 && (|c.shuts| == 2 <==> SomeRunsDryEarly(FRESH, run) && !ShutQueued(c))
  {
    RunKeepsInv(FRESH, run);
    EarlyIff(FRESH, run);
  }

  /** Without shutdown() from another thread it is issued at most once. */
  lemma {:induction false} LocalShutdownOnce(c: Conn, run: seq<Action>)
    requires Inv(c) && LegalFrom(c, run) && RemoteShutdown !in run
    requires !c.early && !ShutQueued(c)
    ensures |After(c, run).shuts| <= 1
    decreases |run|
  {
    if run != [] {
      assert run == [run[0]] + run[1..];
      var d := Apply(c, run[0]);
      StepKeepsInv(c, run[0]);
      if run[0].RemoteSend? { assert !ShutQueued(d); }
      if run[0].RunFunctor? { assert forall f :: f in c.queue[1..] ==> f in c.queue; }
      LocalShutdownOnce(d, run[1..]);
    }
  }

  /** The smallest such run. */
  lemma ShutTwice()
    ensures var run := [Establish, Send("x", WouldBlock), RemoteShutdown,
                        HandleWrite(Wrote(1)), RunFunctor(BrokenPipe)];
            LegalFrom(FRESH, run) && |After(FRESH, run).shuts| == 2
  {
    var run := [Establish, Send("x", WouldBlock), RemoteShutdown, HandleWrite(Wrote(1)), RunFunctor(BrokenPipe)];
    var c1 := Apply(FRESH, run[0]);
    var c2 := Apply(c1, run[1]);
    assert c2.output == "x";
    var c3 := Apply(c2, run[2]);
    var c4 := Apply(c3, run[3]);
    assert c4.output == "" && |c4.shuts| == 1;
    var c5 := Apply(c4, run[4]);
    assert run[4..][1..] == [] && run[3..][1..] == run[4..] && run[2..][1..] == run[3..] && run[1..][1..] == run[2..];
    assert LegalFrom(c4, run[4..]) && After(c4, run[4..]) == c5;
    assert LegalFrom(c3, run[3..]) && After(c3, run[3..]) == c5;
    assert LegalFrom(c2, run[2..]) && After(c2, run[2..]) == c5;
    assert LegalFrom(c1, run[1..]) && After(c1, run[1..]) == c5;
  }
}

/** The object, over a real output buffer. */
module TcpConnections {
  import opened Buffers
  import opened OutputPath

  /** Calls of the user's connection callback, with the state it sees, and of the server's cleanup. */
  datatype Called = ConnectionCallback(state: ConnState) | CleanupCallback

  class TcpConnection {
    var state: ConnState
    var writing: bool            // channel_->isWriting()
    const outputBuffer: Buffer
    var functors: seq<Functor>   // those in the queue of the loop that are for this connection
    var shutdowns: nat           // how often SHUT_WR has been issued
    var called: seq<Called>
    ghost var g: Conn            // the whole state, with the history

    ghost predicate Valid()
      reads this, outputBuffer
    {
      && outputBuffer.Valid() && Inv(g)
      && state == g.state && writing == g.writing && outputBuffer.Text() == g.output
      && functors == g.queue && shutdowns == |g.shuts|
    }

    constructor ()
      ensures Valid() && g == FRESH && called == [] && fresh(outputBuffer)
    {
      state, writing, functors, shutdowns, called, g := Connecting, false, [], 0, [], FRESH;
      outputBuffer := new Buffer();
    }

    /** send() on the loop's thread; `w` is what write() would report. */
    method Send(data: string, w: WriteResult)
      requires Valid() && Possible(g, w, |data|)
      modifies this, outputBuffer
      ensures Valid() && g == Apply(old(g), Action.Send(data, w)) && called == old(called)
    {
      if state == Connected {
        SendInThread(data, w);
      }
    }

    /** send() on another thread: a copy of the data waits for the loop. */
    method SendFromOtherThread(data: string)
      requires Valid()
      modifies this`functors, this`g
      ensures Valid() && g == Apply(old(g), RemoteSend(data))
    {
      StepKeepsInv(g, RemoteSend(data));
      g := Apply(g, RemoteSend(data));
      if state == Connected {
        functors := functors + [SendLater(data)];
      }
    }

    /** sendInThread. */
    method SendInThread(data: string, w: WriteResult)
      requires Valid() && Possible(g, w, |data|)
      modifies this`writing, this`g, outputBuffer
      ensures Valid() && g == SendStep(old(g), data, w)
    {
      SendKeepsInv(g, data, w);
      g := SendStep(g, data, w);
      if state == Disconnected {
        return;
      }
      var error, nwrote, remaining := false, 0, |data|;
      if !writing && outputBuffer.writeIndex - outputBuffer.readIndex == 0 {
        if w.Wrote? {
          nwrote := w.n;
          remaining := |data| - nwrote;
        } else if w == BrokenPipe {
          error := true;
        }
      }
      if !error && remaining > 0 {
        outputBuffer.Append(data[nwrote..]);
        if !writing {
          writing := true;
        }
      }
    }

    /** shutdown() on the loop's thread. */
    method Shutdown()
      requires Valid()
      modifies this
      ensures Valid() && g == Apply(old(g), Action.Shutdown) && called == old(called)
    {
      StepKeepsInv(g, Action.Shutdown);
      g := Apply(g, Action.Shutdown);
      if state == Connected {
        state := Disconnecting;
        ShutdownInLoop();
      }
    }

    /** shutdown() on another thread. */
    method ShutdownFromOtherThread()
      requires Valid()
      modifies this`state, this`functors, this`g
      ensures Valid() && g == Apply(old(g), RemoteShutdown)
    {
      StepKeepsInv(g, RemoteShutdown);
      g := Apply(g, RemoteShutdown);
      if state == Connected {
        state := Disconnecting;
        functors := functors + [ShutdownLater];
      }
    }

    /** The loop calls the next functor that is for this connection. */
    method RunFunctor(w: WriteResult)
      requires Valid() && Enabled(g, Action.RunFunctor(w))
      modifies this, outputBuffer
      ensures Valid() && g == Apply(old(g), Action.RunFunctor(w)) && called == old(called)
    {
      var functor := functors[0];
      ghost var after := Apply(g, Action.RunFunctor(w));
      StepKeepsInv(g, Action.RunFunctor(w));
      functors := functors[1..];
      if functor.SendLater? {
        RestKeepsInv(g);
        g := g.(queue := g.queue[1..]);
        SendInThread(functor.data, w);
      } else {
        ShutdownInLoop();
        g := after;
      }
    }

    /** shutdownInLoop. */
    method ShutdownInLoop()
      modifies this`shutdowns
      ensures shutdowns == old(shutdowns) + if writing then 0 else 1
    {
      if !writing {
        shutdowns := shutdowns + 1;
      }
    }

    method HandleWrite(w: WriteResult)
      requires Valid() && Possible(g, w, |g.output|)
      modifies this, outputBuffer
      ensures Valid() && g == WriteStep(old(g), w) && called == old(called)
    {
      WriteKeepsInv(g, w);
      g := WriteStep(g, w);
      if writing {
        if w.Wrote? && w.n > 0 {
          outputBuffer.Retrieve(w.n);
          if outputBuffer.writeIndex - outputBuffer.readIndex == 0 {
            writing := false;
            if state == Disconnecting {
              ShutdownInLoop();
            }
          }
        }
      }
    }

    /** The user is told once the connection is down, then the server is asked to forget it. */
    method HandleClose()
      requires Valid() && (state == Connected || state == Disconnecting)
      modifies this
      ensures Valid() && g == Apply(old(g), OutputPath.HandleClose)
      ensures called == old(called) + [ConnectionCallback(Disconnected), CleanupCallback]
      ensures shutdowns == old(shutdowns) && functors == old(functors)
    {
      StepKeepsInv(g, OutputPath.HandleClose);
      state, writing := Disconnected, false;
      g := Apply(g, OutputPath.HandleClose);
      called := called + [ConnectionCallback(state)];
      called := called + [CleanupCallback];
    }
  }

  /** A functor that sends can be taken off the queue. */
  lemma RestKeepsInv(c: Conn)
    requires Inv(c) && c.queue != [] && c.queue[0].SendLater?
    ensures Inv(c.(queue := c.queue[1..]))
  {
    assert c.queue == [c.queue[0]] + c.queue[1..];
    assert ShutQueued(c.(queue := c.queue[1..])) == ShutQueued(c);
  }
}
