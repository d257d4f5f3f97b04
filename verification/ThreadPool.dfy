/**
 The worker pool (matelib/base/ThreadPool.cc): a queue of tasks, one condition variable and a
 fixed number of workers.  One action is one critical section, or what a worker does between two.
 */
module PoolProtocol {
  import opened Options

  type Task = nat

  datatype Pc =
    | Top                        // about to test running_
    | Taking                     // inside take(), about to test the wait condition under the mutex
    | Blocked                    // waiting on the condition
    | Executing(task: Task)
    | Done

  /** `late` counts the tasks the worker started after stop(). */
  datatype Worker = Worker(pc: Pc, late: nat)

  datatype State = State(
    running: bool,
    tasks: seq<Task>,
    workers: seq<Worker>,
    taken: seq<Task>,            // tasks in the order in which they were taken
    submitted: seq<Task>,
    atStop: nat)                 // how many had been taken at stop()

  function Start(n: nat): State {
    State(true, [], seq(n, _ => Worker(Top, 0)), [], [], 0)
  }

  datatype Action =
    | Submit(task: Task, wake: Option<nat>)   // wake: the worker that pthread_cond_signal picks
    | Check(w: nat)
    | Take(w: nat)
    | Wake(w: nat)                            // a further or a spurious wakeup
    | Finish(w: nat)
    | Stop

  predicate SomeBlocked(ws: seq<Worker>) {
    exists w :: 0 <= w < |ws| && ws[w].pc == Blocked
  }

  predicate Enabled(s: State, a: Action) {
    match a
    case Submit(_, None) => !SomeBlocked(s.workers)
    case Submit(_, Some(w)) => w < |s.workers| && s.workers[w].pc == Blocked
    case Check(w) => w < |s.workers| && s.workers[w].pc == Top
    case Take(w) => w < |s.workers| && s.workers[w].pc == Taking
    case Wake(w) => w < |s.workers| && s.workers[w].pc == Blocked
    case Finish(w) => w < |s.workers| && s.workers[w].pc.Executing?
    case Stop => s.running
  }

  function Goto(s: State, w: nat, pc: Pc): State
    requires w < |s.workers|
  {
    s.(workers := s.workers[w := s.workers[w].(pc := pc)])
  }

  /** All waiting workers leave the wait. */
  function WakeAll(ws: seq<Worker>): (r: seq<Worker>)
    ensures |r| == |ws|
    ensures forall w :: 0 <= w < |ws| ==> r[w] == if ws[w].pc == Blocked then ws[w].(pc := Taking) else ws[w]
  {
    seq(|ws|, w requires 0 <= w < |ws| => if ws[w].pc == Blocked then ws[w].(pc := Taking) else ws[w])
  }

  function Apply(s: State, a: Action): (t: State)
    requires Enabled(s, a)
    ensures |t.workers| == |s.workers|
  {
    match a
    case Submit(task, wake) =>
      var s1 := s.(submitted := s.submitted + [task]);
      if |s.workers| == 0 then s1.(taken := s.taken + [task])
      else
        var s2 := s1.(tasks := s.tasks + [task]);
        if wake.Some? then Goto(s2, wake.value, Taking) else s2
    case Check(w) => Goto(s, w, if s.running then Taking else Done)
    case Take(w) =>
      if s.tasks != [] then
        var late := s.workers[w].late + if s.running then 0 else 1;
        s.(tasks := s.tasks[1..], taken := s.taken + [s.tasks[0]],
           workers := s.workers[w := Worker(Executing(s.tasks[0]), late)])
      else Goto(s, w, if s.running then Blocked else Top)
    case Wake(w) => Goto(s, w, Taking)
    case Finish(w) => Goto(s, w, Top)
    case Stop => s.(running := false, workers := WakeAll(s.workers), atStop := |s.taken|)
  }

  /** Workers that are not waiting on the condition. */
  function Awake(ws: seq<Worker>): nat {
    if ws == [] then 0 else Awake(ws[1..]) + if ws[0].pc == Blocked then 0 else 1
  }

  function LateTasks(ws: seq<Worker>): nat {
    if ws == [] then 0 else LateTasks(ws[1..]) + ws[0].late
  }

  function Min(a: nat, b: nat): nat {
    if a < b then a else b
  }

  lemma {:induction false} UpdateCounts(ws: seq<Worker>, w: nat, x: Worker)
    requires w < |ws|
    ensures Awake(ws[w := x]) + (if ws[w].pc == Blocked then 0 else 1)
            == Awake(ws) + (if x.pc == Blocked then 0 else 1)
    ensures LateTasks(ws[w := x]) + ws[w].late == LateTasks(ws) + x.late
    decreases |ws|
  {
    if w > 0 {
      assert ws[w := x][1..] == ws[1..][w - 1 := x];
      UpdateCounts(ws[1..], w - 1, x);
    } else {
      assert ws[w := x][1..] == ws[1..];
    }
  }

  lemma {:induction false} AwakeBounds(ws: seq<Worker>)
    ensures Awake(ws) <= |ws|
    ensures Awake(ws) == |ws| <==> !SomeBlocked(ws)
    decreases |ws|
  {
    if ws != [] {
      AwakeBounds(ws[1..]);
      if SomeBlocked(ws[1..]) {
        var w :| 0 <= w < |ws[1..]| && ws[1..][w].pc == Blocked;
        assert ws[w + 1].pc == Blocked;
      }
      if SomeBlocked(ws) && ws[0].pc != Blocked {
        var w :| 0 <= w < |ws| && ws[w].pc == Blocked;
        assert ws[1..][w - 1].pc == Blocked;
      }
    }
  }

  lemma {:induction false} LateBound(ws: seq<Worker>)
    requires forall w :: 0 <= w < |ws| ==> ws[w].late <= 1
    ensures LateTasks(ws) <= |ws|
    decreases |ws|
  {
    if ws != [] { LateBound(ws[1..]); }
  }

  lemma {:induction false} WakeAllKeepsLate(ws: seq<Worker>)
    ensures LateTasks(WakeAll(ws)) == LateTasks(ws)
    decreases |ws|
  {
    if ws != [] {
      assert WakeAll(ws)[1..] == WakeAll(ws[1..]);
      WakeAllKeepsLate(ws[1..]);
    }
  }

  /** The wakeups never fall behind the queue. */
  predicate NeverStranded(s: State) {
    s.running ==> Awake(s.workers) >= Min(|s.workers|, |s.tasks|)
  }

  ghost predicate WorkerOk(s: State, x: Worker) {
    && x.late <= 1
    && (s.running ==> x.late == 0 && x.pc != Done)
    && (!s.running ==> x.pc != Blocked && (x.late == 1 ==> x.pc != Taking))
  }

  ghost predicate Inv(s: State) {
    && s.taken + s.tasks == s.submitted
    && (s.workers == [] ==> s.tasks == [])
    && NeverStranded(s)
    && (forall w :: 0 <= w < |s.workers| ==> WorkerOk(s, s.workers[w]))
    && (!s.running ==> |s.workers| > 0 ==> |s.taken| == s.atStop + LateTasks(s.workers))
    && (s.running ==> LateTasks(s.workers) == 0)
  }

  lemma {:induction false} StartInv(n: nat)
    ensures Inv(Start(n)) && LateTasks(Start(n).workers) == 0
    decreases n
  {
    if n > 0 {
      StartInv(n - 1);
      assert Start(n).workers[1..] == Start(n - 1).workers;
    }
  }

  lemma SubmitKeepsInv(s: State, task: Task, wake: Option<nat>)
    requires Inv(s) && Enabled(s, Submit(task, wake))
    ensures Inv(Apply(s, Submit(task, wake)))
  {
    AwakeBounds(s.workers);
    assert s.taken + (s.tasks + [task]) == s.taken + s.tasks + [task];
    if |s.workers| == 0 {
      assert s.taken + [task] + s.tasks == s.taken + s.tasks + [task];
    } else if wake.Some? {
      UpdateCounts(s.workers, wake.value, s.workers[wake.value].(pc := Taking));
    }
  }

  lemma TakeKeepsInv(s: State, w: nat)
    requires Inv(s) && Enabled(s, Take(w))
    ensures Inv(Apply(s, Take(w)))
  {
    UpdateCounts(s.workers, w, Apply(s, Take(w)).workers[w]);
    if s.tasks != [] {
      assert s.taken + [s.tasks[0]] + s.tasks[1..] == s.taken + s.tasks;
    }
  }

  /** A worker that moves on, and does not go to wait. */
  lemma GotoKeepsInv(s: State, w: nat, pc: Pc)
    requires Inv(s) && w < |s.workers| && pc != Blocked
    requires WorkerOk(s, s.workers[w].(pc := pc))
    ensures Inv(Goto(s, w, pc))
  {
    UpdateCounts(s.workers, w, s.workers[w].(pc := pc));
  }

  lemma StopKeepsInv(s: State)
    requires Inv(s) && s.running
    ensures Inv(Apply(s, Stop))
  {
    WakeAllKeepsLate(s.workers);
  }

  lemma StepKeepsInv(s: State, a: Action)
    requires Inv(s) && Enabled(s, a)
    ensures Inv(Apply(s, a))
  {
    match a
    case Submit(task, wake) => SubmitKeepsInv(s, task, wake);
    case Check(w) => GotoKeepsInv(s, w, if s.running then Taking else Done);
    case Take(w) => TakeKeepsInv(s, w);
    case Wake(w) => GotoKeepsInv(s, w, Taking);
    case Finish(w) => GotoKeepsInv(s, w, Top);
    case Stop => StopKeepsInv(s);
  }

  ghost predicate LegalFrom(s: State, run: seq<Action>)
    decreases |run|
  {
    run == [] || (Enabled(s, run[0]) && LegalFrom(Apply(s, run[0]), run[1..]))
  }

  ghost function After(s: State, run: seq<Action>): (t: State)
    requires LegalFrom(s, run)
    ensures |t.workers| == |s.workers|
    decreases |run|
  {
    if run == [] then s else After(Apply(s, run[0]), run[1..])
  }

  lemma {:induction false} RunKeepsInv(s: State, run: seq<Action>)
    requires Inv(s) && LegalFrom(s, run)
    ensures Inv(After(s, run))
    decreases |run|
  {
    if run != [] {
      StepKeepsInv(s, run[0]);
      RunKeepsInv(Apply(s, run[0]), run[1..]);
    }
  }

  /** The tasks given to run() in a run. */
  function Submissions(run: seq<Action>): seq<Task> {
    if run == [] then [] else (if run[0].Submit? then [run[0].task] else []) + Submissions(run[1..])
  }

  lemma {:induction false} SubmittedAre(s: State, run: seq<Action>)
    requires LegalFrom(s, run)
    ensures After(s, run).submitted == s.submitted + Submissions(run)
    decreases |run|
  {
    if run != [] {
      SubmittedAre(Apply(s, run[0]), run[1..]);
      assert s.submitted + Submissions(run)
             == s.submitted + (if run[0].Submit? then [run[0].task] else []) + Submissions(run[1..]);
    }
  }

  lemma {:induction false} RunningIff(s: State, run: seq<Action>)
    requires LegalFrom(s, run)
    ensures After(s, run).running <==> s.running && Stop !in run
    decreases |run|
  {
    if run != [] {
      assert run == [run[0]] + run[1..];
      RunningIff(Apply(s, run[0]), run[1..]);
    }
  }

  /**
   In every interleaving: tasks are taken in the order of submission, each at most once; while the
   pool runs, the workers that are not waiting are enough for the tasks in the queue, or all there
   are; after stop() no worker waits, and all of them together take at most one task each.
   */
  lemma Safety(n: nat, run: seq<Action>)
    requires LegalFrom(Start(n), run)
    ensures var s := After(Start(n), run);
            && s.taken + s.tasks == Submissions(run) && (s.running <==> Stop !in run)
            && (s.running ==> Awake(s.workers) >= Min(n, |s.tasks|))
            && (!s.running ==> !SomeBlocked(s.workers))
            && (!s.running && n > 0 ==> s.atStop <= |s.taken| <= s.atStop + n)
            && (forall w :: 0 <= w < n ==> s.workers[w].late <= 1)
  {
    StartInv(n);
    RunKeepsInv(Start(n), run);
    LateBound(After(Start(n), run).workers);
    SubmittedAre(Start(n), run);
    RunningIff(Start(n), run);
    assert [] + Submissions(run) == Submissions(run);
  }

  lemma AtMostOnce(n: nat, run: seq<Action>)
    requires LegalFrom(Start(n), run)
    requires var q := Submissions(run); forall i, j :: 0 <= i < j < |q| ==> q[i] != q[j]
    ensures var x := After(Start(n), run).taken; forall i, j :: 0 <= i < j < |x| ==> x[i] != x[j]
  {
    Safety(n, run);
    var s := After(Start(n), run);
    assert forall i :: 0 <= i < |s.taken| ==> s.taken[i] == Submissions(run)[i];
  }

  /** A queued task always finds a worker that will look at the queue again. */
  lemma SomeoneWillLook(n: nat, run: seq<Action>) returns (w: nat)
    requires LegalFrom(Start(n), run) && n > 0
    requires After(Start(n), run).running && After(Start(n), run).tasks != []
    ensures w < n && After(Start(n), run).workers[w].pc !in {Blocked, Done}
  {
    StartInv(n);
    RunKeepsInv(Start(n), run);
    w := FirstAwake(After(Start(n), run).workers);
  }

  lemma {:induction false} FirstAwake(ws: seq<Worker>) returns (w: nat)
    requires Awake(ws) > 0
    ensures w < |ws| && ws[w].pc != Blocked
    decreases |ws|
  {
    if ws[0].pc != Blocked {
      w := 0;
    } else {
      var v := FirstAwake(ws[1..]);
      w := v + 1;
    }
  }
}

/** The object; the workers are its threads. */
module ThreadPools {
  import opened Options
  import opened PoolProtocol

  class ThreadPool {
    var running: bool
    var tasks: seq<Task>
    var threads: seq<Worker>
    ghost var taken: seq<Task>
    ghost var submitted: seq<Task>
    ghost var atStop: nat

    ghost function View(): State
      reads this
    {
      State(running, tasks, threads, taken, submitted, atStop)
    }

    /** The pool once start() has created its threads. */
    constructor (threadNum: nat)
      ensures View() == Start(threadNum) && Inv(View())
    {
      running, tasks, threads := true, [], seq(threadNum, _ => Worker(Top, 0));
      taken, submitted, atStop := [], [], 0;
      StartInv(threadNum);
    }

    /** Without threads the caller executes the task itself. */
    method Run(task: Task, wake: Option<nat>)
      requires Inv(View()) && Enabled(View(), Submit(task, wake))
      modifies this
      ensures Inv(View()) && View() == Apply(old(View()), Submit(task, wake))
    {
      StepKeepsInv(View(), Submit(task, wake));
      submitted := submitted + [task];
      if |threads| == 0 {
        taken := taken + [task];
      } else {
        tasks := tasks + [task];
        if wake.Some? {
          threads := threads[wake.value := threads[wake.value].(pc := Taking)];
        }
      }
    }

    /** take(), up to the point where it returns or waits. */
    method TakeTask(w: nat) returns (task: Option<Task>)
      requires Inv(View()) && Enabled(View(), Take(w))
      modifies this
      ensures Inv(View()) && View() == Apply(old(View()), Take(w))
      ensures task == if old(tasks) == [] then None else Some(old(tasks)[0])
    {
      StepKeepsInv(View(), Take(w));
      task := None;
      if tasks == [] && running {
        threads := threads[w := threads[w].(pc := Blocked)];
      } else if tasks != [] {
        task := Some(tasks[0]);
        threads := threads[w := Worker(Executing(tasks[0]), threads[w].late + if running then 0 else 1)];
        taken, tasks := taken + [tasks[0]], tasks[1..];
      } else {
        threads := threads[w := threads[w].(pc := Top)];
      }
    }

    /** running_ := false and notifyAll, under the mutex. */
    method StopAll()
      requires Inv(View()) && Enabled(View(), Stop)
      modifies this
      ensures Inv(View()) && View() == Apply(old(View()), Stop)
    {
      StepKeepsInv(View(), Stop);
      running, threads, atStop := false, WakeAll(threads), |taken|;
    }
  }
}
