/**
 Handing functors to a loop thread (matelib/EventLoop.cc): the queue under the mutex, the swap,
 the batch, and the eventfd that ends a blocking poll.

 One action is one atomic step of the loop thread or of some other thread; a run is any
 interleaving of them.
 */
module LoopProtocol {
  type Functor = nat

  datatype Pc =
    | Setup                      // loop() has not been called
    | AtPoll                     // blocked in epoll_wait, or about to be
    | Dispatching(wake: bool)    // handling active channels; wake: the wakeup channel is still to be handled
    | PreSwap                    // callingPendingFunctors_ is set, the queue not yet taken
    | Running                    // executing the batch
    | Exited

  datatype State = State(
    pc: Pc,
    calling: bool,               // callingPendingFunctors_
    quit: bool,
    pending: seq<Functor>,       // pendingFunctors_
    batch: seq<Functor>,         // what is left of the local vector
    executed: seq<Functor>,
    enqueued: seq<Functor>,      // every functor ever pushed, in order
    eventfd: nat,                // the kernel counter
    writers: nat,                // threads between their push and their write
    quitters: nat,               // threads between setting quit_ and their write
    loopWriting: bool,           // the loop thread itself is between push and write
    early: bool)                 // the queue holds functors the loop thread pushed before loop()

  const INIT: State := State(Setup, false, false, [], [], [], [], 0, 0, 0, false, false)

  datatype Action =
    | Push(f: Functor)           // another thread, under the mutex
    | Write                      // its wakeup
    | OtherQuit
    | QuitWrite
    | LoopPush(f: Functor)       // the loop thread, from user code
    | LoopWrite
    | LoopQuit
    | Enter
    | PollReturn(wake: bool)
    | ReadWakeup
    | BeginBatch
    | Swap
    | RunNext
    | EndBatch

  /** The loop thread is executing user code and has finished its previous queueInLoop. */
  predicate InUserCode(s: State) {
    (s.pc == Setup || s.pc.Dispatching? || s.pc == Running) && !s.loopWriting
  }

  predicate Enabled(s: State, a: Action) {
    match a
    case Push(_) => true
    case Write => s.writers > 0
    case OtherQuit => true
    case QuitWrite => s.quitters > 0
    case LoopPush(_) => InUserCode(s)
    case LoopWrite => s.loopWriting
    case LoopQuit => InUserCode(s)
    case Enter => s.pc == Setup && !s.loopWriting
    case PollReturn(wake) => s.pc == AtPoll && (wake ==> s.eventfd > 0)
    case ReadWakeup => s.pc == Dispatching(true) && !s.loopWriting
    case BeginBatch => s.pc == Dispatching(false) && !s.loopWriting
    case Swap => s.pc == PreSwap
    case RunNext => s.pc == Running && s.batch != [] && !s.loopWriting
    case EndBatch => s.pc == Running && s.batch == [] && !s.loopWriting
  }

  function Apply(s: State, a: Action): State
    requires Enabled(s, a)
  {
    match a
    case Push(f) => s.(pending := s.pending + [f], enqueued := s.enqueued + [f], writers := s.writers + 1)
    case Write => s.(eventfd := s.eventfd + 1, writers := s.writers - 1)
    case OtherQuit => s.(quit := true, quitters := s.quitters + 1)
    case QuitWrite => s.(eventfd := s.eventfd + 1, quitters := s.quitters - 1)
    case LoopPush(f) =>
      s.(pending := s.pending + [f], enqueued := s.enqueued + [f],
         loopWriting := s.calling, early := s.early || s.pc == Setup)
    case LoopWrite => s.(eventfd := s.eventfd + 1, loopWriting := false)
    case LoopQuit => s.(quit := true)
    case Enter => s.(pc := if s.quit then Exited else AtPoll)
    case PollReturn(wake) => s.(pc := Dispatching(wake))
    case ReadWakeup => s.(pc := Dispatching(false), eventfd := 0)
    case BeginBatch => s.(pc := PreSwap, calling := true)
    case Swap => s.(pc := Running, batch := s.pending, pending := [], early := false)
    case RunNext => s.(batch := s.batch[1..], executed := s.executed + [s.batch[0]])
    case EndBatch => s.(pc := if s.quit then Exited else AtPoll, calling := false)
  }

  ghost predicate LegalFrom(s: State, run: seq<Action>)
    decreases |run|
  {
    run == [] || (Enabled(s, run[0]) && LegalFrom(Apply(s, run[0]), run[1..]))
  }

  ghost function After(s: State, run: seq<Action>): State
    requires LegalFrom(s, run)
    decreases |run|
  {
    if run == [] then s else After(Apply(s, run[0]), run[1..])
  }

  /** Whoever pushed last has woken the loop, or is about to. */
  predicate WakeupDue(s: State) {
    s.eventfd > 0 || s.writers > 0 || s.loopWriting
  }

  /** A loop blocked in poll with functors to run is being woken. */
  predicate NoLostWakeup(s: State) {
    s.pc == AtPoll && s.pending != [] ==> s.eventfd > 0 || s.writers > 0
  }

  predicate NoLostQuit(s: State) {
    s.pc == AtPoll && s.quit ==> s.eventfd > 0 || s.quitters > 0
  }

  predicate InOrder(s: State) {
    s.executed + s.batch + s.pending == s.enqueued
  }

  ghost predicate Inv(s: State) {
    && InOrder(s)
    && (s.calling <==> s.pc == PreSwap || s.pc == Running)
    && (s.batch != [] ==> s.pc == Running)
    && (s.loopWriting ==> s.pc == Running)
    && (s.pc in {Setup, AtPoll, Running} && !s.early && s.pending != [] ==> WakeupDue(s))
    && (s.early ==> s.pending != [] && s.pc != Running)
    && NoLostQuit(s)
  }

  lemma StepKeepsInv(s: State, a: Action)
    requires Inv(s) && Enabled(s, a)
    ensures Inv(Apply(s, a))
  {
    var t := Apply(s, a);
    match a
    case Push(f) =>
      assert s.executed + s.batch + (s.pending + [f]) == s.executed + s.batch + s.pending + [f];
    case LoopPush(f) =>
      assert s.executed + s.batch + (s.pending + [f]) == s.executed + s.batch + s.pending + [f];
    case Swap =>
      assert s.executed + s.pending + [] == s.executed + [] + s.pending;
    case RunNext =>
      assert s.executed + [s.batch[0]] + s.batch[1..] + s.pending == s.executed + s.batch + s.pending;
    case _ =>
  }

  lemma {:induction false} RunKeepsInv(s: State, run: seq<Action>)
    requires Inv(s) && LegalFrom(s, run)
    ensures Inv(After(s, run))
    decreases |run|
  {
    if run != [] {
      StepKeepsInv(s, run[0]);
      RunKeepsInv(Apply(s, run[0]), run[1..]);
    }
  }

  /** The functors queued in a run, by whichever thread. */
  function Pushes(run: seq<Action>): seq<Functor> {
    if run == [] then [] else PushedBy(run[0]) + Pushes(run[1..])
  }

  function PushedBy(a: Action): seq<Functor> {
    if a.Push? || a.LoopPush? then [a.f] else []
  }

  lemma {:induction false} EnqueuedAre(s: State, run: seq<Action>)
    requires LegalFrom(s, run)
    ensures After(s, run).enqueued == s.enqueued + Pushes(run)
    decreases |run|
  {
    if run != [] {
      EnqueuedAre(Apply(s, run[0]), run[1..]);
      assert Apply(s, run[0]).enqueued == s.enqueued + PushedBy(run[0]);
      assert s.enqueued + Pushes(run) == s.enqueued + PushedBy(run[0]) + Pushes(run[1..]);
    }
  }

  /**
   In every interleaving: functors run in the order in which they were queued, each at most once;
   a blocked loop with a functor to run is being woken, unless the loop thread queued functors
   before loop() and none has been taken yet; and a blocked loop that should quit is being woken.
   */
  lemma Safety(run: seq<Action>)
    requires LegalFrom(INIT, run)
    ensures var s := After(INIT, run);
            && s.executed + s.batch + s.pending == Pushes(run)
            && (NoLostWakeup(s) || s.early) && NoLostQuit(s)
  {
    RunKeepsInv(INIT, run);
    EnqueuedAre(INIT, run);
    assert [] + Pushes(run) == Pushes(run);
  }

  /** Functors with different numbers are never executed twice. */
  lemma AtMostOnce(run: seq<Action>)
    requires LegalFrom(INIT, run)
    requires var q := Pushes(run); forall i, j :: 0 <= i < j < |q| ==> q[i] != q[j]
    ensures var x := After(INIT, run).executed; forall i, j :: 0 <= i < j < |x| ==> x[i] != x[j]
  {
    Safety(run);
    var s := After(INIT, run);
    assert forall i :: 0 <= i < |s.executed| ==> s.executed[i] == Pushes(run)[i];
  }

  lemma {:induction false} QuitFrom(s: State, run: seq<Action>)
    requires LegalFrom(s, run) && (s.pc == Exited ==> s.quit)
    ensures After(s, run).quit <==> s.quit || OtherQuit in run || LoopQuit in run
    ensures After(s, run).pc == Exited ==> After(s, run).quit
    decreases |run|
  {
    if run != [] {
      assert run == [run[0]] + run[1..];
      QuitFrom(Apply(s, run[0]), run[1..]);
    }
  }

  /** The loop ends only when some thread has called quit(). */
  lemma QuitIff(run: seq<Action>)
    requires LegalFrom(INIT, run)
    ensures After(INIT, run).quit <==> OtherQuit in run || LoopQuit in run
    ensures After(INIT, run).pc == Exited ==> OtherQuit in run || LoopQuit in run
  {
    QuitFrom(INIT, run);
  }

  lemma {:induction false} NeverSetupAgain(s: State, run: seq<Action>)
    requires s.pc != Setup && LegalFrom(s, run)
    ensures After(s, run).pc != Setup
    decreases |run|
  {
    if run != [] { NeverSetupAgain(Apply(s, run[0]), run[1..]); }
  }

  ghost predicate SomePush(run: seq<Action>) {
    exists i :: 0 <= i < |run| && run[i].Push?
  }

  ghost predicate SomeLoopPush(run: seq<Action>) {
    exists i :: 0 <= i < |run| && run[i].LoopPush?
  }

  /** Before loop(): who has queued, and whether the eventfd has been or is about to be written. */
  ghost predicate Prepared(s: State, pushed: bool, loopPushed: bool) {
    && s.pc == Setup && !s.calling && !s.loopWriting
    && (!s.quit ==> s.quitters == 0 && (s.eventfd > 0 || s.writers > 0 <==> pushed))
    && (s.pending != [] <==> pushed || loopPushed)
  }

  lemma {:induction false} BeforeLoop(s: State, run: seq<Action>, pushed: bool, loopPushed: bool)
    requires LegalFrom(s, run) && Prepared(s, pushed, loopPushed) && After(s, run).pc == Setup
    ensures Prepared(After(s, run), pushed || SomePush(run), loopPushed || SomeLoopPush(run))
    decreases |run|
  {
    if run != [] {
      var t, rest := Apply(s, run[0]), run[1..];
      if t.pc != Setup { NeverSetupAgain(t, rest); }
      SomeSplits(run);
      BeforeLoop(t, rest, pushed || run[0].Push?, loopPushed || run[0].LoopPush?);
    }
  }

  lemma SomeSplits(run: seq<Action>)
    requires run != []
    ensures SomePush(run) <==> run[0].Push? || SomePush(run[1..])
    ensures SomeLoopPush(run) <==> run[0].LoopPush? || SomeLoopPush(run[1..])
  {
    var rest := run[1..];
    assert forall i :: 0 <= i < |rest| ==> rest[i] == run[i + 1];
    assert forall i :: 0 < i < |run| ==> run[i] == rest[i - 1];
  }

  /**
   Entering the loop leaves functors without a wakeup exactly when the loop thread has queued some
   before and no other thread has.
   */
  lemma EntryIff(run: seq<Action>)
    requires LegalFrom(INIT, run)
    requires var s := After(INIT, run); Enabled(s, Enter) && !s.quit
    ensures NoLostWakeup(Apply(After(INIT, run), Enter)) <==> !SomeLoopPush(run) || SomePush(run)
  {
    BeforeLoop(INIT, run, false, false);
  }

  function QueueAll(fs: seq<Functor>): seq<Action> {
    if fs == [] then [Enter] else [LoopPush(fs[0])] + QueueAll(fs[1..])
  }

  lemma {:induction false} QueueThenEnter(s: State, fs: seq<Functor>)
    requires s.pc == Setup && !s.loopWriting && !s.quit && !s.calling
    ensures LegalFrom(s, QueueAll(fs))
    ensures After(s, QueueAll(fs))
            == s.(pc := AtPoll, pending := s.pending + fs, enqueued := s.enqueued + fs, early := s.early || fs != [])
    decreases |fs|
  {
    var run := QueueAll(fs);
    if fs == [] {
      assert run[0] == Enter && run[1..] == [];
      assert s.pending + fs == s.pending && s.enqueued + fs == s.enqueued;
    } else {
      assert run[0] == LoopPush(fs[0]) && run[1..] == QueueAll(fs[1..]);
      QueueThenEnter(Apply(s, run[0]), fs[1..]);
      assert s.pending + [fs[0]] + fs[1..] == s.pending + fs;
      assert s.enqueued + [fs[0]] + fs[1..] == s.enqueued + fs;
    }
  }

  /** Queueing on the loop thread before loop(), and nothing else, loses the wakeup. */
  lemma EarlyQueueStrands(fs: seq<Functor>)
    ensures LegalFrom(INIT, QueueAll(fs))
    ensures NoLostWakeup(After(INIT, QueueAll(fs))) <==> fs == []
  {
    QueueThenEnter(INIT, fs);
    assert [] + fs == fs;
  }

  function RunAll(n: nat): seq<Action> {
    if n == 0 then [EndBatch] else [RunNext] + RunAll(n - 1)
  }

  lemma {:induction false} RunAllRuns(s: State)
    requires s.pc == Running && !s.loopWriting
    ensures LegalFrom(s, RunAll(|s.batch|))
    ensures After(s, RunAll(|s.batch|))
            == s.(pc := if s.quit then Exited else AtPoll, calling := false, batch := [],
                  executed := s.executed + s.batch)
    decreases |s.batch|
  {
    var run := RunAll(|s.batch|);
    if s.batch == [] {
      assert run[0] == EndBatch && run[1..] == [];
      assert s.executed + s.batch == s.executed;
    } else {
      assert run[0] == RunNext && run[1..] == RunAll(|s.batch| - 1);
      RunAllRuns(Apply(s, RunNext));
      assert s.executed + [s.batch[0]] + s.batch[1..] == s.executed + s.batch;
    }
  }

  /**
   One wakeup is enough: the loop can go on by itself and runs everything that was queued.  It has
   then used up the wakeups, and either polls again or has ended because it was asked to.
   */
  lemma WakeupSuffices(run: seq<Action>)
    requires LegalFrom(INIT, run)
    requires var s := After(INIT, run); s.pc == AtPoll && s.eventfd > 0
    ensures var s := After(INIT, run);
            var more := [PollReturn(true), ReadWakeup, BeginBatch, Swap] + RunAll(|s.pending|);
            && LegalFrom(s, more) && After(s, more).executed == Pushes(run)
            && After(s, more).eventfd == 0 && After(s, more).pending == []
            && After(s, more).pc == if s.quit then Exited else AtPoll
  {
    RunKeepsInv(INIT, run);
    GoesOn(After(INIT, run));
    EnqueuedAre(INIT, run);
    assert [] + Pushes(run) == Pushes(run);
  }

  lemma GoesOn(s: State)
    requires s.pc == AtPoll && s.eventfd > 0 && InOrder(s) && s.batch == [] && !s.loopWriting
    ensures var more := [PollReturn(true), ReadWakeup, BeginBatch, Swap] + RunAll(|s.pending|);
            && LegalFrom(s, more) && After(s, more).executed == s.enqueued
            && After(s, more).eventfd == 0 && After(s, more).pending == []
            && After(s, more).pc == if s.quit then Exited else AtPoll
  {
    var s4 := s.(pc := Running, eventfd := 0, calling := true, batch := s.pending, pending := [], early := false);
    RunAllRuns(s4);
    FromPoll(s, s4, RunAll(|s.pending|));
    assert s.executed + [] + s.pending == s.executed + s.pending;
  }

  lemma FromPoll(s: State, s4: State, tail: seq<Action>)
    requires s.pc == AtPoll && s.eventfd > 0 && !s.loopWriting
    requires s4 == s.(pc := Running, eventfd := 0, calling := true, batch := s.pending, pending := [], early := false)
    requires LegalFrom(s4, tail)
    ensures var more := [PollReturn(true), ReadWakeup, BeginBatch, Swap] + tail;
            LegalFrom(s, more) && After(s, more) == After(s4, tail)
  {
    var s2 := s.(pc := Dispatching(false), eventfd := 0);
    FromDispatch(s2, s4, tail);
    Prefix(Apply(s, PollReturn(true)), ReadWakeup, [BeginBatch, Swap] + tail);
    Prefix(s, PollReturn(true), [ReadWakeup] + ([BeginBatch, Swap] + tail));
    assert [PollReturn(true), ReadWakeup, BeginBatch, Swap] + tail
           == [PollReturn(true)] + ([ReadWakeup] + ([BeginBatch, Swap] + tail));
  }

  lemma FromDispatch(s: State, s4: State, tail: seq<Action>)
    requires s.pc == Dispatching(false) && !s.loopWriting
    requires s4 == s.(pc := Running, calling := true, batch := s.pending, pending := [], early := false)
    requires LegalFrom(s4, tail)
    ensures LegalFrom(s, [BeginBatch, Swap] + tail) && After(s, [BeginBatch, Swap] + tail) == After(s4, tail)
  {
    Prefix(Apply(s, BeginBatch), Swap, tail);
    Prefix(s, BeginBatch, [Swap] + tail);
    assert [BeginBatch, Swap] + tail == [BeginBatch] + ([Swap] + tail);
  }

  lemma Prefix(s: State, a: Action, run: seq<Action>)
    requires Enabled(s, a) && LegalFrom(Apply(s, a), run)
    ensures LegalFrom(s, [a] + run) && After(s, [a] + run) == After(Apply(s, a), run)
  {
    assert ([a] + run)[1..] == run;
  }
}

/** The object: each method is one atomic step, or a whole call made by the loop thread alone. */
module EventLoops {
  import opened LoopProtocol

  class EventLoop {
    var pc: Pc
    var callingPendingFunctors: bool
    var quit: bool
    var pendingFunctors: seq<Functor>
    var functors: seq<Functor>
    var wakeupFd: nat
    ghost var executed: seq<Functor>
    ghost var enqueued: seq<Functor>
    ghost var writers: nat
    ghost var quitters: nat
    ghost var loopWriting: bool
    ghost var early: bool

    ghost function View(): State
      reads this
    {
      State(pc, callingPendingFunctors, quit, pendingFunctors, functors, executed, enqueued,
            wakeupFd, writers, quitters, loopWriting, early)
    }

    constructor ()
      ensures View() == INIT
    {
      pc, callingPendingFunctors, quit, pendingFunctors, functors := Setup, false, false, [], [];
      wakeupFd, executed, enqueued, writers, quitters, loopWriting, early := 0, [], [], 0, 0, false, false;
    }

    /** The critical section of queueInLoop, for a caller on another thread. */
    method PushFromOtherThread(f: Functor)
      modifies this
      ensures View() == Apply(old(View()), Push(f))
    {
      pendingFunctors := pendingFunctors + [f];
      enqueued, writers := enqueued + [f], writers + 1;
    }

    /** What that caller does next. */
    method WakeupFromOtherThread()
      requires Enabled(View(), Write)
      modifies this
      ensures View() == Apply(old(View()), Write)
    {
      Wakeup();
      writers := writers - 1;
    }

    method Wakeup()
      modifies this`wakeupFd
      ensures wakeupFd == old(wakeupFd) + 1
    {
      wakeupFd := wakeupFd + 1;
    }

    method HandleWakeup()
      requires Enabled(View(), ReadWakeup)
      modifies this
      ensures View() == Apply(old(View()), ReadWakeup)
    {
      wakeupFd := 0;
      pc := Dispatching(false);
    }

    /** queueInLoop called by the loop thread: it writes only while functors are being called. */
    method QueueInLoop(f: Functor)
      requires Enabled(View(), LoopPush(f))
      modifies this
      ensures var mid := Apply(old(View()), LoopPush(f));
              View() == if mid.loopWriting then Apply(mid, LoopWrite) else mid
    {
      pendingFunctors := pendingFunctors + [f];
      enqueued, early := enqueued + [f], early || pc == Setup;
      if callingPendingFunctors {
        Wakeup();
      }
    }

    /** What the functors of a batch queue themselves, in order. */
    static function Queued(fs: seq<Functor>, script: Functor -> seq<Functor>): seq<Functor> {
      if fs == [] then [] else script(fs[0]) + Queued(fs[1..], script)
    }

    /**
     A batch during which no other thread interferes; `script` says what each functor queues.
     Exactly the functors that were pending run; what they queue waits, with a wakeup for each.
     */
    method DoPendingFunctors(script: Functor -> seq<Functor>)
      requires Inv(View()) && pc == Dispatching(false)
      modifies this
      ensures Inv(View()) && pc == if old(quit) then Exited else AtPoll
      ensures executed == old(executed + pendingFunctors)
      ensures pendingFunctors == Queued(old(pendingFunctors), script)
      ensures wakeupFd == old(wakeupFd) + |pendingFunctors|
      ensures !callingPendingFunctors && quit == old(quit) && writers == old(writers)
    {
      TakeBatch();
      RunBatch(script);
      StepKeepsInv(View(), EndBatch);
      callingPendingFunctors := false;
      pc := if quit then Exited else AtPoll;
    }

    /** Every functor of the local vector, in order. */
    method RunBatch(script: Functor -> seq<Functor>)
      requires Inv(View()) && pc == Running && !loopWriting
      modifies this
      ensures Inv(View()) && pc == Running && !loopWriting && functors == []
      ensures executed == old(executed + functors)
      ensures pendingFunctors == old(pendingFunctors) + Queued(old(functors), script)
      ensures wakeupFd - |pendingFunctors| == old(wakeupFd - |pendingFunctors|)
      ensures quit == old(quit) && writers == old(writers)
    {
      while functors != []
        invariant Inv(View()) && pc == Running && !loopWriting
        invariant executed + functors == old(executed + functors)
        invariant pendingFunctors + Queued(functors, script) == old(pendingFunctors) + Queued(old(functors), script)
        invariant wakeupFd - |pendingFunctors| == old(wakeupFd - |pendingFunctors|)
        invariant quit == old(quit) && writers == old(writers)
        decreases |functors|
      {
        ghost var head, rest := [functors[0]], functors[1..];
        assert functors == head + rest;
        CallNext(script(functors[0]));
      }
    }

    /** The flag, then the swap under the mutex. */
    method TakeBatch()
      requires Inv(View()) && pc == Dispatching(false)
      modifies this
      ensures Inv(View()) && View() == Apply(Apply(old(View()), BeginBatch), Swap)
    {
      StepKeepsInv(View(), BeginBatch);
      StepKeepsInv(Apply(View(), BeginBatch), Swap);
      callingPendingFunctors := true;
      functors, pendingFunctors := pendingFunctors, [];
      pc, early := Running, false;
    }

    /** The next functor of the batch, which queues `fs`. */
    method CallNext(fs: seq<Functor>)
      requires Inv(View()) && pc == Running && !loopWriting && functors != []
      modifies this
      ensures Inv(View()) && pc == Running && !loopWriting
      ensures functors == old(functors)[1..] && executed == old(executed) + [old(functors)[0]]
      ensures pendingFunctors == old(pendingFunctors) + fs && wakeupFd == old(wakeupFd) + |fs|
      ensures quit == old(quit) && writers == old(writers)
    {
      StepKeepsInv(View(), RunNext);
      functors, executed := functors[1..], executed + [functors[0]];
      CallFunctor(fs);
    }

    /** A functor that queues the given functors, in order, and returns. */
    method CallFunctor(fs: seq<Functor>)
      requires Inv(View()) && pc == Running && !loopWriting
      modifies this
      ensures Inv(View()) && pc == Running && !loopWriting
      ensures pendingFunctors == old(pendingFunctors) + fs && wakeupFd == old(wakeupFd) + |fs|
      ensures executed == old(executed) && functors == old(functors) && quit == old(quit) && writers == old(writers)
    {
      for k := 0 to |fs|
        invariant Inv(View()) && pc == Running && !loopWriting
        invariant pendingFunctors == old(pendingFunctors) + fs[..k] && wakeupFd == old(wakeupFd) + k
        invariant executed == old(executed) && functors == old(functors) && quit == old(quit) && writers == old(writers)
      {
        StepKeepsInv(View(), LoopPush(fs[k]));
        StepKeepsInv(Apply(View(), LoopPush(fs[k])), LoopWrite);
        QueueInLoop(fs[k]);
        assert fs[..k + 1] == fs[..k] + [fs[k]];
      }
      assert fs[..|fs|] == fs;
    }
  }
}
