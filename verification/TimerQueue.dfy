/**
 The timer queue (matelib/TimerQueue.cc, matelib/Timer.h): an ordered set of entries, the vector of
 expired ones whose callbacks may add and cancel timers, and a one-shot kernel timer.

 Timers have identities instead of addresses.  An action is one call executed by the loop thread, a
 step of the loop in `handleRead`, or something the kernel or another thread does.  Using or
 deleting a timer that has been deleted leads to `crashed`.
 */
module TimerProtocol {
  import opened Options

  type Id = nat
  type Time = int              // microseconds

  /** Timer objects; `delta` is the interval of a repeating timer. */
  datatype Timer = Timer(expiration: Time, repeat: bool, delta: nat)

  datatype Entry = Entry(key: Time, id: Id)

  /** The order of std::pair. */
  predicate Less(a: Entry, b: Entry) {
    a.key < b.key || (a.key == b.key && a.id < b.id)
  }

  ghost predicate Sorted(q: seq<Entry>) {
    forall i, j :: 0 <= i < j < |q| ==> Less(q[i], q[j])
  }

  /** std::set::insert. */
  function Insert(q: seq<Entry>, e: Entry): seq<Entry> {
    if q == [] || Less(e, q[0]) then [e] + q
    else if q[0] == e then q
    else [q[0]] + Insert(q[1..], e)
  }

  /** std::set::erase by value. */
  function Remove(q: seq<Entry>, e: Entry): seq<Entry> {
    if q == [] then [] else if q[0] == e then q[1..] else [q[0]] + Remove(q[1..], e)
  }

  /** lower_bound of (now, the greatest address): how many entries have expired. */
  function ExpiredCount(q: seq<Entry>, now: Time): (k: nat)
    ensures k <= |q|
  {
    if q == [] || q[0].key > now then 0 else 1 + ExpiredCount(q[1..], now)
  }

  datatype State = State(
    timers: seq<Entry>,
    canceling: set<Entry>,
    batch: seq<Entry>,           // the expired vector
    calling: Option<nat>,        // in handleRead: how many callbacks have been started
    now: Time,                   // the time handleRead took
    heap: map<Id, Timer>,        // live timers
    transit: set<Id>,            // created, addTimerInLoop still queued
    freed: set<Id>,
    unused: Id,
    keys: map<Id, Time>,         // the TimerId that addTimer returned
    cancelled: set<Id>,          // cancelled after they had been inserted
    runs: seq<Id>,               // callbacks started, in order
    clock: Time,
    armed: Option<Time>,         // when the kernel timer will expire
    armTime: Time,
    readable: bool,
    crashed: bool)

  function Init(clock: Time): State {
    State([], {}, [], None, clock, map[], {}, {}, 0, map[], {}, [], clock, None, clock, false, false)
  }

  datatype Action =
    | New(when: Time, repeat: bool, delta: nat)
    | AddInLoop(id: Id)
    | Cancel(e: Entry)
    | BeginRead
    | RunNext
    | EndRead
    | Tick(d: nat)
    | Fire

  predicate Enabled(s: State, a: Action) {
    match a
    case New(_, _, _) => true
    case AddInLoop(id) => id in s.transit
    case Cancel(_) => true
    case BeginRead => s.calling.None?
    case RunNext => s.calling.Some? && s.calling.value < |s.batch|
    case EndRead => s.calling.Some? && s.calling.value >= |s.batch|
    case Tick(_) => true
    case Fire => s.armed.Some? && s.armed.value <= s.clock
  }

  /** timerfd_settime with the interval of howMuchTimeFromNow; it forgets an expiry not yet read. */
  function Arm(s: State, when: Time): State {
    s.(armed := Some(s.clock + if when - s.clock < 100 then 100 else when - s.clock),
       armTime := s.clock, readable := false)
  }

  function AddStep(s: State, id: Id): State {
    if id !in s.heap then s.(crashed := true)
    else
      var when := s.heap[id].expiration;
      var e := Entry(when, id);
      var s1 := s.(timers := Insert(s.timers, e), transit := s.transit - {id},
                   crashed := s.crashed || e in s.timers);
      if s.timers == [] || when < s.timers[0].key then Arm(s1, when) else s1
  }

  function Delete(s: State, id: Id): State {
    s.(heap := s.heap - {id}, freed := s.freed + {id}, crashed := s.crashed || id !in s.heap)
  }

  function CancelStep(s: State, e: Entry): State {
    if e in s.timers then
      Delete(s.(timers := Remove(s.timers, e), cancelled := s.cancelled + {e.id}), e.id)
    else if s.calling.Some? then
      s.(canceling := s.canceling + {e},
         cancelled := if e in s.batch then s.cancelled + {e.id} else s.cancelled)
    else s
  }

  /** Timer::restart; the entry goes back under the key it had. */
  function ResetOne(s: State, e: Entry): State {
    if e.id !in s.heap then s.(crashed := true)
    else if s.heap[e.id].repeat && e !in s.canceling then
      s.(heap := s.heap[e.id := s.heap[e.id].(expiration := s.now + s.heap[e.id].delta)],
         timers := Insert(s.timers, e))
    else Delete(s, e.id)
  }

  /** The loop of reset(); the batch is what is left of the expired vector. */
  function ResetAll(s: State): State
    decreases |s.batch|
  {
    if s.batch == [] then s else ResetAll(ResetOne(s, s.batch[0]).(batch := s.batch[1..]))
  }

  function Rearm(s: State): State {
    if s.timers == [] then s
    else if s.timers[0].id !in s.heap then s.(crashed := true)
    else Arm(s, s.heap[s.timers[0].id].expiration)
  }

  function Apply(s: State, a: Action): State
    requires Enabled(s, a)
  {
    match a
    case New(when, repeat, delta) =>
      s.(heap := s.heap[s.unused := Timer(when, repeat, delta)], transit := s.transit + {s.unused},
         keys := s.keys[s.unused := when], unused := s.unused + 1)
    case AddInLoop(id) => AddStep(s, id)
    case Cancel(e) => CancelStep(s, e)
    case BeginRead =>
      var k := ExpiredCount(s.timers, s.clock);
      s.(readable := false, canceling := {}, now := s.clock,
         batch := s.timers[..k], timers := s.timers[k..], calling := Some(0))
    case RunNext =>
      var id := s.batch[s.calling.value].id;
      s.(runs := s.runs + [id], calling := Some(s.calling.value + 1), crashed := s.crashed || id !in s.heap)
    case EndRead => Rearm(ResetAll(s.(calling := None)))
    case Tick(d) => s.(clock := s.clock + d)
    case Fire => s.(readable := true, armed := None)
  }

  ghost predicate LegalFrom(s: State, run: seq<Action>)
    decreases |run|
  {
    run == [] || (Enabled(s, run[0]) && LegalFrom(Apply(s, run[0]), run[1..]))
  }

  ghost function After(s: State, run: seq<Action>): State
    requires LegalFrom(s, run)
    decreases |run|
  {
    if run == [] then s else After(Apply(s, run[0]), run[1..])
  }

  /* ---------------------------------------------------------------- the ordered set */

  lemma {:induction false} InsertSpec(q: seq<Entry>, e: Entry)
    requires Sorted(q)
    ensures Sorted(Insert(q, e))
    ensures forall x :: x in Insert(q, e) <==> x in q || x == e
    decreases |q|
  {
    if q == [] || Less(e, q[0]) {
    } else if q[0] != e {
      InsertSpec(q[1..], e);
      var r := Insert(q[1..], e);
      forall j | 0 <= j < |r| ensures Less(q[0], r[j]) {
        assert r[j] in r;
        if r[j] != e { assert r[j] in q[1..]; }
      }
      assert Insert(q, e) == [q[0]] + r;
    }
  }

  lemma {:induction false} RemoveSpec(q: seq<Entry>, e: Entry)
    requires Sorted(q)
    ensures Sorted(Remove(q, e))
    ensures forall x :: x in Remove(q, e) <==> x in q && x != e
    ensures Remove(q, e) != [] ==> q != [] && q[0].key <= Remove(q, e)[0].key
    decreases |q|
  {
    if q != [] && q[0] != e {
      RemoveSpec(q[1..], e);
      var r := Remove(q[1..], e);
      forall j | 0 <= j < |r| ensures Less(q[0], r[j]) {
        assert r[j] in r && r[j] in q[1..];
      }
    } else if q != [] {
      assert forall j :: 0 < j < |q| ==> q[j] == q[1..][j - 1];
    }
  }

  /** getExpired takes exactly the entries whose key has come, in the order of their keys. */
  lemma {:induction false} ExpiredSpec(q: seq<Entry>, now: Time)
    requires Sorted(q)
    ensures var k := ExpiredCount(q, now);
            && (forall x :: x in q[..k] <==> x in q && x.key <= now)
            && (forall x :: x in q[k..] <==> x in q && x.key > now)
            && Sorted(q[..k]) && Sorted(q[k..])
  {
    ExpiredPrefix(q, now);
    var k := ExpiredCount(q, now);
    assert q == q[..k] + q[k..];
  }

  lemma {:induction false} ExpiredPrefix(q: seq<Entry>, now: Time)
    requires Sorted(q)
    ensures forall i :: 0 <= i < ExpiredCount(q, now) ==> q[i].key <= now
    ensures forall i :: ExpiredCount(q, now) <= i < |q| ==> q[i].key > now
    decreases |q|
  {
    if q != [] && q[0].key <= now {
      ExpiredPrefix(q[1..], now);
      assert forall i :: 0 < i < |q| ==> q[i] == q[1..][i - 1];
    }
  }

  /* ---------------------------------------------------------------- the invariant */

  /** The entry the user can cancel the timer by. */
  function EntryOf(s: State, id: Id): Entry
    requires id in s.keys
  {
    Entry(s.keys[id], id)
  }

  ghost predicate Own(s: State, id: Id)
    requires id in s.keys
  {
    var e := EntryOf(s, id);
    && (id in s.transit ==> e !in s.timers && e !in s.batch)
    && (e in s.timers ==> e !in s.batch)
    && (id in s.heap <==> id in s.transit || e in s.timers || e in s.batch)
    && (id in s.freed <==> id !in s.heap)
  }

  /** Deleted, or to be deleted when the present batch ends. */
  ghost predicate Doomed(s: State, id: Id)
    requires id in s.keys
  {
    id in s.freed || (EntryOf(s, id) in s.batch && EntryOf(s, id) in s.canceling)
  }

  ghost predicate Keyed(s: State, q: seq<Entry>) {
    forall e :: e in q ==> e.id in s.keys && s.keys[e.id] == e.key
  }

  ghost predicate Times(s: State, id: Id)
    requires id in s.keys && id in s.heap
  {
    && s.keys[id] <= s.heap[id].expiration
    && (id in s.transit || !s.heap[id].repeat ==> s.heap[id].expiration == s.keys[id])
  }

  ghost predicate Core(s: State) {
    && !s.crashed
    && Sorted(s.timers) && Sorted(s.batch) && Keyed(s, s.timers) && Keyed(s, s.batch)
    && (forall id: Id :: id in s.keys <==> id < s.unused)
    && (forall id :: id in s.heap || id in s.transit || id in s.freed ==> id in s.keys)
    && (forall id :: id in s.keys ==> Own(s, id))
    && (forall id :: id in s.heap ==> Times(s, id))
    && (forall id :: id in s.cancelled ==> id in s.keys && Doomed(s, id))
    && (forall e :: e in s.batch ==> e.key <= s.now)
  }

  ghost predicate Inv(s: State) {
    Core(s) && (s.calling.None? ==> s.batch == [])
  }

  lemma InitInv(clock: Time)
    ensures Inv(Init(clock))
  {
  }

  lemma NewKeepsInv(s: State, a: Action)
    requires Inv(s) && a.New?
    ensures Inv(Apply(s, a))
  {
    var t := Apply(s, a);
    forall id | id in t.keys ensures Own(t, id) {
      if id == s.unused {
        assert id !in s.keys;
      } else {
        assert Own(s, id);
      }
    }
    forall id | id in t.heap ensures Times(t, id) {
      if id != s.unused { assert Times(s, id); }
    }
    forall id | id in s.cancelled ensures Doomed(t, id) { assert Doomed(s, id); }
  }

  lemma ArmKeepsCore(s: State, when: Time)
    requires Core(s)
    ensures Core(Arm(s, when))
  {
    var t := Arm(s, when);
    assert forall id :: id in s.keys ==> Own(t, id) == Own(s, id);
    assert forall id :: id in s.heap && id in s.keys ==> Times(t, id) == Times(s, id);
    assert forall id :: id in s.keys ==> Doomed(t, id) == Doomed(s, id);
  }

  lemma AddKeepsCore(s: State, id: Id)
    requires Core(s) && id in s.transit
    ensures Core(AddStep(s, id))
  {
    assert Own(s, id) && Times(s, id);
    var e := EntryOf(s, id);
    var s1 := s.(timers := Insert(s.timers, e), transit := s.transit - {id});
    InsertSpec(s.timers, e);
    forall x | x in s1.keys ensures Own(s1, x) { assert Own(s, x); }
    forall x | x in s1.heap ensures Times(s1, x) { assert Times(s, x); }
    forall x | x in s.cancelled ensures Doomed(s1, x) { assert Doomed(s, x); }
    assert Core(s1);
    ArmKeepsCore(s1, s.keys[id]);
  }

  lemma DeleteKeepsCore(s: State, t: State, e: Entry)
    requires Core(s) && e.id in s.keys && e == EntryOf(s, e.id)
    requires e in s.timers || e in s.batch
    requires Sorted(t.timers) && Sorted(t.batch)
    requires forall x :: x in t.timers <==> x in s.timers && x != e
    requires forall x :: x in t.batch <==> x in s.batch && x != e
    requires t == s.(timers := t.timers, batch := t.batch, cancelled := t.cancelled,
                     heap := s.heap - {e.id}, freed := s.freed + {e.id})
    requires t.cancelled <= s.cancelled + {e.id}
    ensures Core(t)
  {
    assert Own(s, e.id);
    forall x | x in t.keys ensures Own(t, x) { assert Own(s, x); }
    forall x | x in t.heap ensures Times(t, x) { assert Times(s, x); }
    forall x | x in t.cancelled ensures x in t.keys && Doomed(t, x) {
      if x != e.id { assert Doomed(s, x); }
    }
  }

  lemma CancelKeepsInv(s: State, e: Entry)
    requires Inv(s)
    ensures Inv(CancelStep(s, e))
  {
    var t := CancelStep(s, e);
    if e in s.timers {
      RemoveSpec(s.timers, e);
      assert Own(s, e.id);
      DeleteKeepsCore(s, t, e);
    } else {
      forall x | x in t.keys ensures Own(t, x) { assert Own(s, x); }
      forall x | x in t.heap ensures Times(t, x) { assert Times(s, x); }
      forall x | x in t.cancelled ensures x in t.keys && Doomed(t, x) {
        if x in s.cancelled { assert Doomed(s, x); }
      }
    }
  }

  lemma BeginKeepsInv(s: State)
    requires Inv(s) && s.calling.None?
    ensures Inv(Apply(s, BeginRead))
  {
    var t := Apply(s, BeginRead);
    ExpiredSpec(s.timers, s.clock);
    forall x | x in t.keys ensures Own(t, x) { assert Own(s, x); }
    forall x | x in t.heap ensures Times(t, x) { assert Times(s, x); }
    forall x | x in t.cancelled ensures Doomed(t, x) { assert Doomed(s, x); }
  }

  lemma RunKeepsCore(s: State)
    requires Inv(s) && Enabled(s, RunNext)
    ensures Inv(Apply(s, RunNext))
  {
    var t := Apply(s, RunNext);
    var e := s.batch[s.calling.value];
    assert e in s.batch && Own(s, e.id);
    forall x | x in t.keys ensures Own(t, x) { assert Own(s, x); }
    forall x | x in t.heap ensures Times(t, x) { assert Times(s, x); }
    forall x | x in t.cancelled ensures Doomed(t, x) { assert Doomed(s, x); }
  }

  lemma RestartKeepsCore(s: State, t: State, e: Entry)
    requires Core(s) && s.batch != [] && e == s.batch[0] && e.id in s.heap
    requires s.heap[e.id].repeat && e !in s.canceling
    requires t == ResetOne(s, e).(batch := s.batch[1..])
    ensures Core(t)
  {
    var rest := s.batch[1..];
    assert s.batch == [e] + rest && e in s.batch;
    assert Own(s, e.id);
    InsertSpec(s.timers, e);
    assert forall x :: x in rest <==> x in s.batch && x != e;
    EntryMoves(s, t, e);
    forall x | x in t.heap ensures Times(t, x) { assert Times(s, x); }
  }

  /** An entry goes from the batch back into the queue. */
  lemma EntryMoves(s: State, t: State, e: Entry)
    requires Core(s) && e in s.batch && e.id in s.heap && t.heap.Keys == s.heap.Keys
    requires t == s.(timers := t.timers, batch := t.batch, heap := t.heap)
    requires forall x :: x in t.timers <==> x in s.timers || x == e
    requires forall x :: x in t.batch <==> x in s.batch && x != e
    requires e !in s.canceling
    ensures forall x :: x in t.keys ==> Own(t, x)
    ensures forall x :: x in t.cancelled ==> x in t.keys && Doomed(t, x)
  {
    forall x | x in t.keys ensures Own(t, x) { assert Own(s, x); }
    forall x | x in t.cancelled ensures Doomed(t, x) { assert Doomed(s, x); }
  }

  lemma ResetOneKeepsCore(s: State)
    requires Core(s) && s.batch != []
    ensures Core(ResetOne(s, s.batch[0]).(batch := s.batch[1..]))
  {
    var e, rest := s.batch[0], s.batch[1..];
    assert s.batch == [e] + rest && e in s.batch;
    assert Own(s, e.id);
    var t := ResetOne(s, e).(batch := rest);
    if s.heap[e.id].repeat && e !in s.canceling {
      RestartKeepsCore(s, t, e);
    } else {
      assert forall x :: x in rest <==> x in s.batch && x != e;
      DeleteKeepsCore(s, t, e);
    }
  }

  lemma {:induction false} ResetAllKeepsCore(s: State)
    requires Core(s)
    ensures Core(ResetAll(s)) && ResetAll(s).batch == [] && ResetAll(s).calling == s.calling
    decreases |s.batch|
  {
    if s.batch != [] {
      ResetOneKeepsCore(s);
      ResetAllKeepsCore(ResetOne(s, s.batch[0]).(batch := s.batch[1..]));
    }
  }

  lemma EndKeepsInv(s: State)
    requires Inv(s) && Enabled(s, EndRead)
    ensures Inv(Apply(s, EndRead))
  {
    var s0 := s.(calling := None);
    FlagsKeepCore(s, s0);
    ResetAllKeepsCore(s0);
    var t := ResetAll(s0);
    if t.timers != [] {
      var e := t.timers[0];
      assert e in t.timers && Own(t, e.id);
      ArmKeepsCore(t, t.heap[e.id].expiration);
    }
  }

  /** The clock and the kernel timer do not matter to the queue. */
  lemma FlagsKeepCore(s: State, t: State)
    requires Core(s)
    requires t == s.(calling := t.calling, clock := t.clock, readable := t.readable, armed := t.armed)
    ensures Core(t)
  {
    forall x | x in t.keys ensures Own(t, x) { assert Own(s, x); }
    forall x | x in t.heap ensures Times(t, x) { assert Times(s, x); }
    forall x | x in t.cancelled ensures Doomed(t, x) { assert Doomed(s, x); }
  }

  lemma StepKeepsInv(s: State, a: Action)
    requires Inv(s) && Enabled(s, a)
    ensures Inv(Apply(s, a))
  {
    match a
    case New(_, _, _) => NewKeepsInv(s, a);
    case AddInLoop(id) => AddKeepsCore(s, id);
    case Cancel(e) => CancelKeepsInv(s, e);
    case BeginRead => BeginKeepsInv(s);
    case RunNext => RunKeepsCore(s);
    case EndRead => EndKeepsInv(s);
    case Tick(_) => FlagsKeepCore(s, Apply(s, a));
    case Fire => FlagsKeepCore(s, Apply(s, a));
  }

  lemma {:induction false} RunKeepsInv(s: State, run: seq<Action>)
    requires Inv(s) && LegalFrom(s, run)
    ensures Inv(After(s, run))
    decreases |run|
  {
    if run != [] {
      StepKeepsInv(s, run[0]);
      RunKeepsInv(Apply(s, run[0]), run[1..]);
    }
  }

  /* ---------------------------------------------------------------- ownership, over whole runs */

  /** How many places hold the timer: in transit, queued, in the expired batch, deleted. */
  ghost function Places(s: State, id: Id): nat
    requires id in s.keys
  {
    var e := EntryOf(s, id);
    (if id in s.transit then 1 else 0) + (if e in s.timers then 1 else 0)
    + (if e in s.batch then 1 else 0) + (if id in s.freed then 1 else 0)
  }

  /**
   Whatever the callbacks add and cancel, every timer is in exactly one place; no deleted timer is
   run, restarted or deleted again; and every entry, queued or expired, is the one that the user's
   TimerId names, however often the timer has been re-armed.
   */
  lemma Ownership(clock: Time, run: seq<Action>)
    requires LegalFrom(Init(clock), run)
    ensures var s := After(Init(clock), run);
            && !s.crashed
            && (forall id: Id :: id < s.unused ==> id in s.keys && Places(s, id) == 1)
            && (forall e :: e in s.timers || e in s.batch ==> e.id in s.keys && e == EntryOf(s, e.id))
  {
    InitInv(clock);
    RunKeepsInv(Init(clock), run);
    var s := After(Init(clock), run);
    forall id: Id | id < s.unused ensures id in s.keys && Places(s, id) == 1 {
      assert id in s.keys && Own(s, id);
    }
  }

  function Count(xs: seq<Id>, id: Id): nat {
    if xs == [] then 0 else Count(xs[..|xs| - 1], id) + if xs[|xs| - 1] == id then 1 else 0
  }

  lemma {:induction false} ResetAllKeepsFreed(s: State, id: Id)
    requires id in s.freed
    ensures id in ResetAll(s).freed && ResetAll(s).runs == s.runs
    decreases |s.batch|
  {
    if s.batch != [] {
      ResetAllKeepsFreed(ResetOne(s, s.batch[0]).(batch := s.batch[1..]), id);
    }
  }

  lemma FreedStep(s: State, id: Id, a: Action)
    requires Inv(s) && Enabled(s, a) && id in s.freed
    ensures id in Apply(s, a).freed && Count(Apply(s, a).runs, id) == Count(s.runs, id)
  {
    match a
    case RunNext =>
      var e := s.batch[s.calling.value];
      assert e in s.batch && Own(s, e.id) && Own(s, id);
      assert (s.runs + [e.id])[..|s.runs|] == s.runs;
    case EndRead => ResetAllKeepsFreed(s.(calling := None), id);
    case _ =>
  }

  lemma {:induction false} FreedNeverRuns(s: State, id: Id, run: seq<Action>)
    requires Inv(s) && LegalFrom(s, run) && id in s.freed
    ensures id in After(s, run).freed && Count(After(s, run).runs, id) == Count(s.runs, id)
    decreases |run|
  {
    if run != [] {
      StepKeepsInv(s, run[0]);
      FreedStep(s, id, run[0]);
      FreedNeverRuns(Apply(s, run[0]), id, run[1..]);
    }
  }

  /**
   A timer that was cancelled after it had been inserted never runs again once the batch in which
   that happened has ended, and never again at all when it was not in that batch.
   */
  lemma CancelIsFinal(clock: Time, run: seq<Action>, id: Id, rest: seq<Action>)
    requires LegalFrom(Init(clock), run)
    requires var s := After(Init(clock), run);
             id in s.cancelled && id in s.keys && (s.calling.None? || EntryOf(s, id) !in s.batch) && LegalFrom(s, rest)
    ensures var s := After(Init(clock), run);
            Count(After(s, rest).runs, id) == Count(s.runs, id)
  {
    InitInv(clock);
    RunKeepsInv(Init(clock), run);
    var s := After(Init(clock), run);
    assert Doomed(s, id);
    FreedNeverRuns(s, id, rest);
  }

  /** Cancelling a live timer takes effect exactly when its insertion is not still queued. */
  lemma CancelTakesEffectIff(s: State, id: Id)
    requires Inv(s) && id in s.heap
    ensures id in s.keys && id in Apply(s, Cancel(EntryOf(s, id))).keys
    ensures Doomed(Apply(s, Cancel(EntryOf(s, id))), id) <==> id !in s.transit
  {
    assert id in s.keys && Own(s, id);
    var e := EntryOf(s, id);
    assert EntryOf(CancelStep(s, e), id) == e;
  }

  /* ---------------------------------------------------------------- deadlines */

  /** Taking the expired entries at `now` takes none whose timer is due later. */
  ghost predicate NoneEarly(s: State, now: Time)
    requires Inv(s)
  {
    forall e :: e in s.timers[..ExpiredCount(s.timers, now)] ==> e.id in s.heap && s.heap[e.id].expiration <= now
  }

  /** Every timer in the queue is due at its key, or is due already. */
  ghost predicate Punctual(s: State) {
    forall e :: e in s.timers ==>
      e.id in s.heap && (s.heap[e.id].expiration == e.key || s.heap[e.id].expiration <= s.clock)
  }

  /**
   A repeating timer goes back under its old key.  The next reading, whenever it comes, takes no
   timer early exactly when every timer in the queue is due at its key, or is due already.
   */
  lemma NeverEarlyIff(s: State)
    requires Inv(s)
    ensures (forall now :: now >= s.clock ==> NoneEarly(s, now)) <==> Punctual(s)
  {
    forall e | e in s.timers ensures e.id in s.heap && e.key <= s.heap[e.id].expiration {
      assert Own(s, e.id) && Times(s, e.id);
    }
    forall now | now >= s.clock
      ensures NoneEarly(s, now)
              || exists e :: e in s.timers && s.heap[e.id].expiration > e.key && s.heap[e.id].expiration > s.clock
    {
      ExpiredSpec(s.timers, now);
    }
    forall e | e in s.timers && s.heap[e.id].expiration > e.key && s.heap[e.id].expiration > s.clock
      ensures !NoneEarly(s, if e.key > s.clock then e.key else s.clock)
    {
      ExpiredSpec(s.timers, if e.key > s.clock then e.key else s.clock);
    }
  }

  lemma {:induction false} RunConcat(s: State, run: seq<Action>, more: seq<Action>)
    requires LegalFrom(s, run) && LegalFrom(After(s, run), more)
    ensures LegalFrom(s, run + more) && After(s, run + more) == After(After(s, run), more)
    decreases |run|
  {
    if run == [] {
      assert run + more == more;
    } else {
      RunConcat(Apply(s, run[0]), run[1..], more);
      assert (run + more)[1..] == run[1..] + more;
    }
  }

  lemma RunTwo(s: State, a: Action, b: Action)
    requires Enabled(s, a) && Enabled(Apply(s, a), b)
    ensures LegalFrom(s, [a, b]) && After(s, [a, b]) == Apply(Apply(s, a), b)
  {
    assert [a, b][1..] == [b] && [b][1..] == [];
    assert After(Apply(s, a), [b]) == After(Apply(Apply(s, a), b), []);
  }

  /** A timer due every 100 µs fires once more after 10, because another one is due then. */
  function EarlyRun(): seq<Action> {
    RearmRun(100) + [New(20, false, 0), AddInLoop(1)] + [Tick(10), BeginRead]
  }

  lemma FiresEarly()
    ensures LegalFrom(Init(0), EarlyRun())
    ensures var s := After(Init(0), EarlyRun());
            s.clock == 20 && s.batch != [] && s.batch[0] == Entry(10, 0) && 0 in s.heap && s.heap[0].expiration == 110
  {
    var s0, r6 := Init(0), RearmRun(100);
    Rearmed(100);
    AddLater(r6, 20);
    var r8 := r6 + [New(20, false, 0), AddInLoop(1)];
    var s8 := After(s0, r8);
    RunTwo(s8, Tick(10), BeginRead);
    RunConcat(s0, r8, [Tick(10), BeginRead]);
    assert ExpiredCount(s8.timers, 20) == 2;
  }

  /** A timer due at 10 and then every `delta` microseconds, after its first callback. */
  function RearmRun(delta: nat): seq<Action> {
    [New(10, true, delta), AddInLoop(0)] + [Tick(10), BeginRead] + [RunNext, EndRead]
  }

  lemma Rearmed(delta: nat)
    requires delta >= 100
    ensures LegalFrom(Init(0), RearmRun(delta))
    ensures var s := After(Init(0), RearmRun(delta));
            && s.timers == [Entry(10, 0)] && s.calling.None? && s.clock == 10 && s.unused == 1
            && s.heap == map[0 := Timer(10 + delta, true, delta)]
            && s.armed == Some(10 + delta) && !s.readable
  {
    var s0, r2 := Init(0), [New(10, true, delta), AddInLoop(0)];
    AddFirst(s0, delta);
    ReadFirst(After(s0, r2), []);
    RunConcat(s0, r2, [Tick(10), BeginRead]);
    var r4 := r2 + [Tick(10), BeginRead];
    RearmFirst(After(s0, r4), [], delta);
    RunConcat(s0, r4, [RunNext, EndRead]);
  }

  /** A timer due every 1000 µs makes another one, due at 500, wait until 1010. */
  function LateRun(): seq<Action> {
    [New(10, true, 1000), AddInLoop(0)] + [New(500, false, 0), AddInLoop(1)]
    + [Tick(10), BeginRead] + [RunNext, EndRead]
  }

  lemma FiresLate()
    ensures LegalFrom(Init(0), LateRun())
    ensures var s := After(Init(0), LateRun());
            && s.calling.None? && !s.readable && s.armed == Some(1010)
            && Entry(500, 1) in s.timers && 1 in s.heap && s.heap[1] == Timer(500, false, 0)
  {
    var s0 := Init(0);
    var r2 := [New(10, true, 1000), AddInLoop(0)];
    AddFirst(s0, 1000);
    var s2 := After(s0, r2);
    AddAnother(s2, 500);
    RunConcat(s0, r2, [New(500, false, 0), AddInLoop(1)]);
    var r4 := r2 + [New(500, false, 0), AddInLoop(1)];
    var s4 := After(s0, r4);
    ReadFirst(s4, [Entry(500, 1)]);
    RunConcat(s0, r4, [Tick(10), BeginRead]);
    var r6 := r4 + [Tick(10), BeginRead];
    RearmFirst(After(s0, r6), [Entry(500, 1)], 1000);
    RunConcat(s0, r6, [RunNext, EndRead]);
  }

  /** The same when the other one is added afterwards: its key is not before the stale one. */
  function LateAddRun(): seq<Action> {
    RearmRun(1000) + [New(500, false, 0), AddInLoop(1)]
  }

  lemma FiresLateAfterAdd()
    ensures LegalFrom(Init(0), LateAddRun())
    ensures var s := After(Init(0), LateAddRun());
            && s.calling.None? && !s.readable && s.armed == Some(1010)
            && Entry(500, 1) in s.timers && 1 in s.heap && s.heap[1] == Timer(500, false, 0)
  {
    var run := RearmRun(1000);
    Rearmed(1000);
    AddLater(run, 500);
    assert LateAddRun() == run + [New(500, false, 0), AddInLoop(1)];
  }

  lemma AddLater(run: seq<Action>, when: Time)
    requires LegalFrom(Init(0), run) && when > 10
    requires var s := After(Init(0), run);
             s.timers == [Entry(10, 0)] && s.unused == 1 && s.calling.None? && 0 in s.heap
    ensures LegalFrom(Init(0), run + [New(when, false, 0), AddInLoop(1)])
    ensures var s, t := After(Init(0), run), After(Init(0), run + [New(when, false, 0), AddInLoop(1)]);
            && t.timers == [Entry(10, 0), Entry(when, 1)] && t.clock == s.clock && t.calling.None?
            && t.heap == s.heap[1 := Timer(when, false, 0)]
            && t.armed == s.armed && t.readable == s.readable
  {
    AddAnother(After(Init(0), run), when);
    RunConcat(Init(0), run, [New(when, false, 0), AddInLoop(1)]);
  }

  lemma AddFirst(s: State, delta: nat)
    requires s == Init(0)
    ensures LegalFrom(s, [New(10, true, delta), AddInLoop(0)])
    ensures var t := After(s, [New(10, true, delta), AddInLoop(0)]);
            && t.timers == [Entry(10, 0)] && t.clock == 0 && t.calling.None? && t.unused == 1
            && t.heap == map[0 := Timer(10, true, delta)]
  {
    RunTwo(s, New(10, true, delta), AddInLoop(0));
  }

  lemma ReadFirst(s: State, rest: seq<Entry>)
    requires s.clock == 0 && s.timers == [Entry(10, 0)] + rest && s.calling.None?
    requires rest != [] ==> rest[0].key > 10
    ensures LegalFrom(s, [Tick(10), BeginRead])
    ensures After(s, [Tick(10), BeginRead])
            == s.(clock := 10, now := 10, readable := false, canceling := {},
                  batch := [Entry(10, 0)], timers := rest, calling := Some(0))
  {
    RunTwo(s, Tick(10), BeginRead);
    assert s.timers[1..] == rest;
    assert ExpiredCount(rest, 10) == 0 && ExpiredCount(s.timers, 10) == 1;
  }

  lemma RearmFirst(s: State, rest: seq<Entry>, delta: nat)
    requires s.now == 10 == s.clock && s.batch == [Entry(10, 0)] && s.timers == rest && s.calling == Some(0)
    requires rest != [] ==> rest[0].key > 10
    requires 0 in s.heap && s.heap[0] == Timer(10, true, delta) && s.canceling == {} && delta >= 100
    ensures LegalFrom(s, [RunNext, EndRead])
    ensures var t := After(s, [RunNext, EndRead]);
            && t.timers == [Entry(10, 0)] + rest && t.calling.None? && t.clock == s.clock && t.unused == s.unused
            && t.heap == s.heap[0 := Timer(10 + delta, true, delta)]
            && t.armed == Some(10 + delta) && !t.readable
  {
    RunTwo(s, RunNext, EndRead);
    ResetOfOne(Apply(s, RunNext).(calling := None), Entry(10, 0));
  }

  lemma AddAnother(s: State, when: Time)
    requires s.timers == [Entry(10, 0)] && s.unused == 1 && s.calling.None? && 0 in s.heap && when > 10
    ensures LegalFrom(s, [New(when, false, 0), AddInLoop(1)])
    ensures var t := After(s, [New(when, false, 0), AddInLoop(1)]);
            && t.timers == [Entry(10, 0), Entry(when, 1)] && t.clock == s.clock && t.calling.None?
            && t.heap == s.heap[1 := Timer(when, false, 0)]
            && t.armed == s.armed && t.readable == s.readable
  {
    RunTwo(s, New(when, false, 0), AddInLoop(1));
    assert s.timers[1..] == [] && Insert([], Entry(when, 1)) == [Entry(when, 1)];
  }

  lemma ResetOfOne(s: State, e: Entry)
    requires s.batch == [e]
    ensures ResetAll(s) == ResetOne(s, e).(batch := [])
  {
    assert s.batch[1..] == [];
  }

  /** No timer repeats, now or later. */
  ghost predicate OneShot(s: State) {
    forall id :: id in s.heap ==> !s.heap[id].repeat
  }

  ghost predicate OneShotRun(run: seq<Action>) {
    forall i :: 0 <= i < |run| && run[i].New? ==> !run[i].repeat
  }

  /** The kernel timer has gone off, or will no later than the earliest key, or 100 µs after it was set. */
  predicate WillFire(s: State) {
    s.timers != [] ==>
      s.readable
      || (s.armed.Some? && (s.armed.value <= s.timers[0].key || s.armed.value <= s.armTime + 100))
  }

  ghost predicate Timely(s: State) {
    OneShot(s) && (s.calling.None? ==> WillFire(s))
  }

  lemma {:induction false} ResetAllOneShot(s: State)
    requires OneShot(s)
    ensures OneShot(ResetAll(s)) && ResetAll(s).timers == s.timers
    decreases |s.batch|
  {
    if s.batch != [] {
      ResetAllOneShot(ResetOne(s, s.batch[0]).(batch := s.batch[1..]));
    }
  }

  lemma EndIsTimely(s: State)
    requires Inv(s) && Enabled(s, EndRead) && OneShot(s)
    ensures Timely(Apply(s, EndRead))
  {
    var s0 := s.(calling := None);
    FlagsKeepCore(s, s0);
    ResetAllKeepsCore(s0);
    ResetAllOneShot(s0);
    var t := ResetAll(s0);
    if t.timers != [] {
      var e := t.timers[0];
      assert e in t.timers && Own(t, e.id) && Times(t, e.id);
    }
  }

  lemma {:induction false} ResetKeepsFlags(s: State)
    ensures var t := ResetAll(s); t.clock == s.clock && t.calling == s.calling && t.runs == s.runs
    decreases |s.batch|
  {
    if s.batch != [] { ResetKeepsFlags(ResetOne(s, s.batch[0]).(batch := s.batch[1..])); }
  }

  /* ---------------------------------------------------------------- what re-arming does */

  /** The entry will be in the queue when handleRead has ended. */
  predicate Stays(s: State, e: Entry) {
    e in s.timers || (e in s.batch && e.id in s.heap && s.heap[e.id].repeat && e !in s.canceling)
  }

  /** When its timer will then be due. */
  function DueAfter(s: State, e: Entry): Time {
    if e.id !in s.heap then 0
    else if e in s.batch then s.now + s.heap[e.id].delta
    else s.heap[e.id].expiration
  }

  /** Entries of the same timer are the same entry. */
  lemma SameTimer(s: State, e: Entry, f: Entry)
    requires Core(s) && (e in s.timers || e in s.batch) && (f in s.timers || f in s.batch)
    ensures e.id == f.id ==> e == f
  {
  }

  lemma ResetOneStays(s: State, e: Entry)
    requires Core(s) && s.batch != []
    ensures var t := ResetOne(s, s.batch[0]).(batch := s.batch[1..]);
            && Core(t) && (Stays(t, e) <==> Stays(s, e))
            && (Stays(s, e) ==> e.id in s.heap && DueAfter(t, e) == DueAfter(s, e))
  {
    ResetOneKeepsCore(s);
    assert s.batch[0] in s.batch && Own(s, s.batch[0].id);
    if e == s.batch[0] {
      HeadStays(s);
    } else if e in s.timers || e in s.batch {
      assert Own(s, e.id);
      SameTimer(s, e, s.batch[0]);
      OtherStays(s, e);
    } else {
      OtherStays(s, e);
    }
  }

  lemma HeadStays(s: State)
    requires Sorted(s.batch) && Sorted(s.timers) && s.batch != []
    requires s.batch[0].id in s.heap && s.batch[0] !in s.timers
    ensures var e := s.batch[0];
            var t := ResetOne(s, e).(batch := s.batch[1..]);
            && (Stays(t, e) <==> Stays(s, e)) && (Stays(s, e) ==> DueAfter(t, e) == DueAfter(s, e))
  {
    var e, rest := s.batch[0], s.batch[1..];
    assert s.batch == [e] + rest && e in s.batch;
    assert e !in rest;
    InsertSpec(s.timers, e);
  }

  lemma OtherStays(s: State, e: Entry)
    requires Sorted(s.timers) && s.batch != [] && s.batch[0].id in s.heap
    requires e != s.batch[0] && (e in s.timers || e in s.batch ==> e.id != s.batch[0].id)
    ensures var t := ResetOne(s, s.batch[0]).(batch := s.batch[1..]);
            && (Stays(t, e) <==> Stays(s, e)) && (Stays(s, e) ==> DueAfter(t, e) == DueAfter(s, e))
  {
    var rest := s.batch[1..];
    assert s.batch == [s.batch[0]] + rest;
    assert e in rest <==> e in s.batch;
    InsertSpec(s.timers, s.batch[0]);
  }

  lemma {:induction false} ResetAllStays(s: State, e: Entry)
    requires Core(s)
    ensures var t := ResetAll(s);
            && Core(t) && (t.timers != [] ==> t.timers[0].id in t.heap) && (e in t.timers <==> Stays(s, e))
            && (Stays(s, e) ==> e.id in t.heap && t.heap[e.id].expiration == DueAfter(s, e))
    decreases |s.batch|
  {
    if s.batch == [] {
      if e in s.timers { assert Own(s, e.id); }
      if s.timers != [] { assert s.timers[0] in s.timers && Own(s, s.timers[0].id); }
    } else {
      ResetOneStays(s, e);
      ResetAllStays(ResetOne(s, s.batch[0]).(batch := s.batch[1..]), e);
    }
  }

  /** What handleRead leaves in the queue, and when each of its timers is due. */
  lemma EndStays(s: State, e: Entry)
    requires Inv(s) && Enabled(s, EndRead)
    ensures var t := Apply(s, EndRead);
            && (e in t.timers <==> Stays(s, e))
            && (Stays(s, e) ==> e.id in t.heap && t.heap[e.id].expiration == DueAfter(s, e))
  {
    var s0 := s.(calling := None);
    FlagsKeepCore(s, s0);
    ResetAllStays(s0, e);
    RearmKeepsQueue(ResetAll(s0));
  }

  lemma RearmKeepsQueue(s: State)
    requires s.timers != [] ==> s.timers[0].id in s.heap
    ensures Rearm(s).timers == s.timers && Rearm(s).heap == s.heap
  {
  }

  /* ---------------------------------------------------------------- the life of one timer */

  datatype Place = Nowhere | InTransit | InQueue | InBatch | Deleted

  function PlaceOf(s: State, id: Id): Place {
    if id !in s.keys then Nowhere
    else if id in s.transit then InTransit
    else if EntryOf(s, id) in s.timers then InQueue
    else if EntryOf(s, id) in s.batch then InBatch
    else Deleted
  }

  /** Where a step brings a timer; any other timer stays where it is. */
  function Moved(s: State, a: Action, id: Id): Place {
    var place := PlaceOf(s, id);
    match a
    case New(_, _, _) => if id == s.unused then InTransit else place
    case AddInLoop(added) => if id == added then InQueue else place
    case Cancel(e) => if place == InQueue && e == EntryOf(s, id) then Deleted else place
    case BeginRead => if place == InQueue && s.keys[id] <= s.clock then InBatch else place
    case EndRead =>
      if place != InBatch then place
      else if id in s.heap && s.heap[id].repeat && EntryOf(s, id) !in s.canceling then InQueue
      else Deleted
    case _ => place
  }

  /** A cancelled timer is deleted, or marked; no other one is touched. */
  lemma CancelSpec(s: State, e: Entry)
    requires Inv(s)
    ensures var t := CancelStep(s, e);
            && (forall x :: x in t.timers <==> x in s.timers && x != e)
            && t.batch == s.batch && t.transit == s.transit && t.keys == s.keys && t.runs == s.runs
            && (forall x :: x != e ==> (x in t.canceling <==> x in s.canceling))
            && (e in t.canceling <==> e in s.canceling || (e !in s.timers && s.calling.Some?))
            && (forall id :: id != e.id ==> (id in t.heap <==> id in s.heap) && (id in t.freed <==> id in s.freed))
            && (forall id :: id in t.heap ==> id in s.heap && t.heap[id] == s.heap[id])
            && (e.id in t.freed <==> e.id in s.freed || e in s.timers)
            && (t.armed, t.readable, t.clock, t.calling) == (s.armed, s.readable, s.clock, s.calling)
  {
    RemoveSpec(s.timers, e);
    if e in s.timers { assert Own(s, e.id); }
  }

  /** addTimer makes a timer of its own, with the key of its first expiration. */
  lemma NewSpec(s: State, when: Time, repeat: bool, delta: nat)
    requires Inv(s)
    ensures var t, id := Apply(s, New(when, repeat, delta)), s.unused;
            && id !in s.keys && id !in s.heap && t.unused == id + 1
            && t.heap == s.heap[id := Timer(when, repeat, delta)] && t.keys == s.keys[id := when]
            && t.timers == s.timers && t.batch == s.batch && t.freed == s.freed && t.runs == s.runs
  {
  }

  /** handleRead begins by taking the time, and forgetting the kernel event and earlier cancellations. */
  lemma BeginSpec(s: State)
    requires Inv(s) && s.calling.None?
    ensures var t := Apply(s, BeginRead);
            && t.now == s.clock == t.clock && !t.readable && t.canceling == {} && t.calling == Some(0)
            && (forall e :: e in t.batch <==> e in s.timers && e.key <= s.clock)
            && (forall e :: e in t.timers <==> e in s.timers && e.key > s.clock)
            && t.heap == s.heap && t.freed == s.freed && t.transit == s.transit && t.runs == s.runs
  {
    ExpiredSpec(s.timers, s.clock);
  }

  lemma EndPlace(s: State, id: Id)
    requires Inv(s) && Enabled(s, EndRead)
    ensures PlaceOf(Apply(s, EndRead), id) == Moved(s, EndRead, id)
  {
    var t := Apply(s, EndRead);
    EndKeepsInv(s);
    EndKeepsNames(s);
    if id in s.keys {
      assert Own(s, id) && Own(t, id);
      EndStays(s, EntryOf(s, id));
    }
  }

  lemma EndKeepsNames(s: State)
    requires Enabled(s, EndRead)
    ensures var t := Apply(s, EndRead); t.keys == s.keys && t.transit == s.transit && t.batch == []
  {
    ResetKeepsNames(s.(calling := None));
  }

  lemma {:induction false} ResetKeepsNames(s: State)
    ensures var t := ResetAll(s); t.keys == s.keys && t.transit == s.transit && t.batch == []
    decreases |s.batch|
  {
    if s.batch != [] { ResetKeepsNames(ResetOne(s, s.batch[0]).(batch := s.batch[1..])); }
  }

  /** Every step moves exactly the timers it is about: to the queue, to the batch, to where they are deleted. */
  lemma PlaceStep(s: State, a: Action, id: Id)
    requires Inv(s) && Enabled(s, a)
    ensures PlaceOf(Apply(s, a), id) == Moved(s, a, id)
  {
    if id in s.keys { assert Own(s, id); }
    match a
    case AddInLoop(added) => assert Own(s, added) && Times(s, added); InsertSpec(s.timers, EntryOf(s, added));
    case Cancel(e) => CancelSpec(s, e);
    case BeginRead => ExpiredSpec(s.timers, s.clock);
    case EndRead => EndPlace(s, id);
    case _ =>
  }

  /** A live timer stays what it is, but for the time at which a repeating one is due next. */
  lemma TimerStep(s: State, a: Action, id: Id)
    requires Inv(s) && Enabled(s, a) && id in s.heap && id in Apply(s, a).heap
    ensures var was, now := s.heap[id], Apply(s, a).heap[id];
            && now.repeat == was.repeat && now.delta == was.delta
            && now.expiration == if a.EndRead? && PlaceOf(s, id) == InBatch then s.now + was.delta else was.expiration
  {
    assert id in s.keys && Own(s, id);
    match a
    case New(_, _, _) => assert s.unused !in s.keys;
    case Cancel(e) => CancelSpec(s, e);
    case EndRead => EndTimer(s, id);
    case _ =>
  }

  lemma EndTimer(s: State, id: Id)
    requires Inv(s) && Enabled(s, EndRead) && id in s.heap && id in Apply(s, EndRead).heap
    ensures var was, now := s.heap[id], Apply(s, EndRead).heap[id];
            && now.repeat == was.repeat && now.delta == was.delta
            && now.expiration == if PlaceOf(s, id) == InBatch then s.now + was.delta else was.expiration
  {
    var s0 := s.(calling := None);
    FlagsKeepCore(s, s0);
    assert Own(s, id);
    ResetTimer(s0, id);
    ResetAllKeepsCore(s0);
    var t := ResetAll(s0);
    if t.timers != [] { assert t.timers[0] in t.timers && Own(t, t.timers[0].id); }
    RearmKeepsQueue(t);
  }

  /** When the timer will be due, if it lives on. */
  function DueLater(s: State, id: Id): Time
    requires id in s.keys && id in s.heap
  {
    if EntryOf(s, id) in s.batch then s.now + s.heap[id].delta else s.heap[id].expiration
  }

  lemma ResetOneTimer(s: State, id: Id)
    requires Core(s) && id in s.keys && s.batch != []
    ensures var t := ResetOne(s, s.batch[0]).(batch := s.batch[1..]);
            && t.keys == s.keys
            && (id in t.heap ==>
                  && id in s.heap && t.heap[id].repeat == s.heap[id].repeat && t.heap[id].delta == s.heap[id].delta
                  && DueLater(t, id) == DueLater(s, id))
  {
    var b := s.batch[0];
    assert b in s.batch && Own(s, b.id) && Own(s, id);
    assert id == b.id ==> EntryOf(s, id) == b;
    ResetsTimer(s, id);
  }

  lemma ResetsTimer(s: State, id: Id)
    requires s.batch != [] && Sorted(s.batch) && s.batch[0].id in s.heap && id in s.keys
    requires id == s.batch[0].id <==> EntryOf(s, id) == s.batch[0]
    ensures var t := ResetOne(s, s.batch[0]).(batch := s.batch[1..]);
            && t.keys == s.keys
            && (id in t.heap ==>
                  && id in s.heap && t.heap[id].repeat == s.heap[id].repeat && t.heap[id].delta == s.heap[id].delta
                  && DueLater(t, id) == DueLater(s, id))
  {
    var b, rest := s.batch[0], s.batch[1..];
    assert s.batch == [b] + rest && b !in rest;
  }

  lemma {:induction false} ResetTimer(s: State, id: Id)
    requires Core(s) && id in s.keys
    ensures var t := ResetAll(s);
            id in t.heap ==>
              && id in s.heap && t.heap[id].repeat == s.heap[id].repeat && t.heap[id].delta == s.heap[id].delta
              && t.heap[id].expiration == DueLater(s, id)
    decreases |s.batch|
  {
    if s.batch != [] {
      ResetOneKeepsCore(s);
      ResetOneTimer(s, id);
      ResetTimer(ResetOne(s, s.batch[0]).(batch := s.batch[1..]), id);
    }
  }

  /** The callback of the timer has been started in the present batch. */
  ghost predicate StartedNow(s: State, e: Entry) {
    s.calling.Some? && InFirst(s.batch, s.calling.value, e)
  }

  ghost predicate InFirst(q: seq<Entry>, k: nat, e: Entry) {
    exists i :: 0 <= i < k && i < |q| && q[i] == e
  }

  ghost predicate Started(s: State, id: Id)
    requires id in s.keys
  {
    PlaceOf(s, id) == Deleted || StartedNow(s, EntryOf(s, id))
  }

  /** The timer has not been cancelled in the present batch. */
  predicate Unmarked(s: State, e: Entry) {
    s.calling.Some? ==> e !in s.canceling
  }

  lemma UnmarkedStep(s: State, a: Action, e: Entry)
    requires Inv(s) && Enabled(s, a) && Unmarked(s, e) && a != Cancel(e)
    ensures Unmarked(Apply(s, a), e)
  {
    match a
    case Cancel(x) => CancelSpec(s, x);
    case EndRead => EndKeepsClock(s);
    case _ =>
  }

  /** A repeating timer lives until it is cancelled. */
  lemma {:induction false} RepeatsUntilCancelled(s: State, run: seq<Action>, id: Id)
    requires Inv(s) && LegalFrom(s, run) && id in s.heap && id in s.keys && s.heap[id].repeat
    requires Unmarked(s, EntryOf(s, id)) && Cancel(EntryOf(s, id)) !in run
    ensures var t := After(s, run); id in t.heap && t.heap[id].repeat && t.heap[id].delta == s.heap[id].delta
    decreases |run|
  {
    if run != [] {
      var e, a, t := EntryOf(s, id), run[0], Apply(s, run[0]);
      assert a in run;
      StepKeepsInv(s, a);
      PlaceStep(s, a, id);
      UnmarkedStep(s, a, e);
      KeysStay(s, a);
      assert Own(s, id) && Own(t, id);
      TimerStep(s, a, id);
      RepeatsUntilCancelled(t, run[1..], id);
    }
  }

  lemma KeysStay(s: State, a: Action)
    requires Inv(s) && Enabled(s, a)
    ensures forall id :: id in s.keys ==> id in Apply(s, a).keys && Apply(s, a).keys[id] == s.keys[id]
  {
    match a
    case EndRead => EndKeepsNames(s);
    case _ =>
  }

  lemma CountSnoc(xs: seq<Id>, x: Id, id: Id)
    ensures Count(xs + [x], id) == Count(xs, id) + if x == id then 1 else 0
  {
    assert (xs + [x])[..|xs|] == xs;
  }

  lemma StartedStep(s: State, a: Action, id: Id)
    requires Inv(s) && Enabled(s, a) && id in s.heap && id in s.keys && !s.heap[id].repeat
    requires a != Cancel(EntryOf(s, id))
    ensures id in Apply(s, a).keys
    ensures Count(Apply(s, a).runs, id) - Count(s.runs, id)
            == (if Started(Apply(s, a), id) then 1 else 0) - (if Started(s, id) then 1 else 0)
  {
    KeysStay(s, a);
    PlaceStep(s, a, id);
    assert Own(s, id);
    match a
    case RunNext => NextStarted(s, id);
    case EndRead => EndStarted(s, id);
    case BeginRead => assert !StartedNow(Apply(s, a), EntryOf(s, id));
    case Cancel(e) => CancelSpec(s, e);
    case _ =>
  }

  lemma NextStarted(s: State, id: Id)
    requires Inv(s) && Enabled(s, RunNext) && id in s.keys
    ensures Count(Apply(s, RunNext).runs, id) - Count(s.runs, id)
            == (if StartedNow(Apply(s, RunNext), EntryOf(s, id)) then 1 else 0)
               - (if StartedNow(s, EntryOf(s, id)) then 1 else 0)
  {
    var k, e := s.calling.value, EntryOf(s, id);
    CountSnoc(s.runs, s.batch[k].id, id);
    assert s.batch[k] in s.batch;
    assert s.batch[k].id == id <==> s.batch[k] == e;
    AmongFirst(s.batch, k, e);
  }

  lemma AmongFirst(q: seq<Entry>, k: nat, e: Entry)
    requires k < |q| && Sorted(q)
    ensures InFirst(q, k + 1, e) <==> InFirst(q, k, e) || q[k] == e
    ensures q[k] == e ==> !InFirst(q, k, e)
  {
  }

  lemma EndStarted(s: State, id: Id)
    requires Inv(s) && Enabled(s, EndRead) && id in s.keys && id in s.heap && !s.heap[id].repeat
    ensures id in Apply(s, EndRead).keys && Apply(s, EndRead).runs == s.runs
    ensures Started(Apply(s, EndRead), id) <==> Started(s, id)
  {
    KeysStay(s, EndRead);
    EndKeepsClock(s);
    EndPlace(s, id);
    ResetKeepsFlags(s.(calling := None));
    assert Own(s, id);
    if EntryOf(s, id) in s.batch {
      var i :| 0 <= i < |s.batch| && s.batch[i] == EntryOf(s, id);
      assert StartedNow(s, EntryOf(s, id));
    }
  }

  /** A deleted timer stays deleted and is started no more; a one-shot timer is started before that, once. */
  lemma {:induction false} OneShotStarts(s: State, run: seq<Action>, id: Id)
    requires Inv(s) && LegalFrom(s, run) && id in s.keys && (id in s.heap ==> !s.heap[id].repeat)
    requires Unmarked(s, EntryOf(s, id)) && Cancel(EntryOf(s, id)) !in run
    ensures id in After(s, run).keys
    ensures Count(After(s, run).runs, id) - Count(s.runs, id)
            == (if Started(After(s, run), id) then 1 else 0) - (if Started(s, id) then 1 else 0)
    decreases |run|
  {
    if run != [] {
      var a, t := run[0], Apply(s, run[0]);
      assert a in run;
      StepKeepsInv(s, a);
      KeysStay(s, a);
      UnmarkedStep(s, a, EntryOf(s, id));
      assert Own(s, id) && Own(t, id);
      if id in s.heap {
        StartedStep(s, a, id);
        if id in t.heap { TimerStep(s, a, id); }
      } else {
        PlaceStep(s, a, id);
        FreedStep(s, id, a);
      }
      OneShotStarts(t, run[1..], id);
    }
  }

  /**
   What is not cancelled is not lost: outside handleRead, and as long as nobody cancels it, a live
   repeating timer stays alive, and a live one-shot timer is started at most once and deleted only
   after it was started.
   */
  lemma KeptUntilCancelled(clock: Time, run: seq<Action>, id: Id, rest: seq<Action>)
    requires LegalFrom(Init(clock), run)
    requires var s := After(Init(clock), run);
             s.calling.None? && id in s.heap && id in s.keys && LegalFrom(s, rest) && Cancel(EntryOf(s, id)) !in rest
    ensures var s := After(Init(clock), run);
            var t := After(s, rest);
            if s.heap[id].repeat then id in t.heap
            else && Count(t.runs, id) <= Count(s.runs, id) + 1
                 && (id !in t.heap ==> Count(t.runs, id) == Count(s.runs, id) + 1)
  {
    InitInv(clock);
    RunKeepsInv(Init(clock), run);
    var s := After(Init(clock), run);
    assert Own(s, id);
    if s.heap[id].repeat {
      RepeatsUntilCancelled(s, rest, id);
    } else {
      OneShotStarts(s, rest, id);
      RunKeepsInv(s, rest);
      assert Own(After(s, rest), id);
    }
  }

  /** The kernel timer is set 100 µs ahead or more, and no later than asked for if that is later. */
  lemma ArmSpec(s: State, when: Time)
    ensures var t := Arm(s, when);
            && t.armed.Some? && t.armed.value >= s.clock + 100
            && (t.armed.value == when || (t.armed.value == s.clock + 100 && when < s.clock + 100))
            && !t.readable && t.armTime == s.clock
  {
  }

  /* ---------------------------------------------------------------- firing early, over runs */

  /** handleRead re-arms no timer to a future time other than its key. */
  ghost predicate RearmsPunctually(s: State) {
    forall e :: Stays(s, e) ==> DueAfter(s, e) == e.key || DueAfter(s, e) <= s.clock
  }

  lemma EndPunctualIff(s: State)
    requires Inv(s) && Enabled(s, EndRead)
    ensures Punctual(Apply(s, EndRead)) <==> RearmsPunctually(s)
  {
    var t := Apply(s, EndRead);
    EndKeepsClock(s);
    forall e ensures e in t.timers <==> Stays(s, e) { EndStays(s, e); }
    forall e | Stays(s, e) ensures e.id in t.heap && t.heap[e.id].expiration == DueAfter(s, e) { EndStays(s, e); }
  }

  lemma EndKeepsClock(s: State)
    requires Enabled(s, EndRead)
    ensures Apply(s, EndRead).clock == s.clock && Apply(s, EndRead).calling.None?
  {
    ResetKeepsFlags(s.(calling := None));
  }

  lemma PunctualStepIff(s: State, a: Action)
    requires Inv(s) && Punctual(s) && Enabled(s, a)
    ensures Punctual(Apply(s, a)) <==> (a.EndRead? ==> RearmsPunctually(s))
  {
    match a
    case EndRead => EndPunctualIff(s);
    case AddInLoop(id) => assert Own(s, id) && Times(s, id); InsertSpec(s.timers, EntryOf(s, id));
    case Cancel(e) => CancelKeepsPunctual(s, e);
    case New(_, _, _) => NewTimerApart(s);
    case BeginRead => ExpiredSpec(s.timers, s.clock);
    case _ =>
  }

  lemma NewTimerApart(s: State)
    requires Inv(s)
    ensures s.unused !in s.heap
    ensures forall e :: e in s.timers ==> e.id in s.heap && e.id != s.unused
  {
    forall e | e in s.timers ensures e.id in s.heap && e.id != s.unused { assert Own(s, e.id); }
  }

  lemma CancelKeepsPunctual(s: State, e: Entry)
    requires Inv(s) && Punctual(s)
    ensures Punctual(CancelStep(s, e))
  {
    RemoveSpec(s.timers, e);
    forall f | f in CancelStep(s, e).timers ensures f in s.timers && f.id in CancelStep(s, e).heap {
      if e in s.timers && f.id == e.id { SameTimer(s, e, f); }
    }
  }

  /** No reading from any state of the run would take a timer early. */
  ghost predicate AlwaysPunctual(s: State, run: seq<Action>)
    requires LegalFrom(s, run)
    decreases |run|
  {
    Punctual(s) && (run == [] || AlwaysPunctual(Apply(s, run[0]), run[1..]))
  }

  ghost predicate AlwaysRearmsPunctually(s: State, run: seq<Action>)
    requires LegalFrom(s, run)
    decreases |run|
  {
    run == []
    || ((run[0].EndRead? ==> RearmsPunctually(s)) && AlwaysRearmsPunctually(Apply(s, run[0]), run[1..]))
  }

  lemma {:induction false} PunctualFromIff(s: State, run: seq<Action>)
    requires Inv(s) && Punctual(s) && LegalFrom(s, run)
    ensures AlwaysPunctual(s, run) <==> AlwaysRearmsPunctually(s, run)
    decreases |run|
  {
    if run != [] {
      PunctualStepIff(s, run[0]);
      StepKeepsInv(s, run[0]);
      if Punctual(Apply(s, run[0])) { PunctualFromIff(Apply(s, run[0]), run[1..]); }
    }
  }

  /**
   In no state of a run would a reading take a timer early, exactly when no handleRead of the run
   re-arms a timer to a future time other than its key.
   */
  lemma NeverEarlyRunIff(clock: Time, run: seq<Action>)
    requires LegalFrom(Init(clock), run)
    ensures AlwaysPunctual(Init(clock), run) <==> AlwaysRearmsPunctually(Init(clock), run)
  {
    InitInv(clock);
    PunctualFromIff(Init(clock), run);
  }

  /* ---------------------------------------------------------------- firing late, over runs */

  /** The kernel timer has gone off, or will before any timer is due or 100 µs after it was set. */
  ghost predicate WillServe(s: State) {
    forall e :: e in s.timers ==> e.id in s.heap && (s.readable || ArmedFor(s, s.heap[e.id].expiration))
  }

  predicate ArmedFor(s: State, due: Time) {
    s.armed.Some? && (s.armed.value <= due || s.armed.value <= s.armTime + 100)
  }

  ghost predicate IsFirst(s: State, f: Entry) {
    Stays(s, f) && forall e :: Stays(s, e) ==> e == f || Less(f, e)
  }

  /** What will be the first entry when handleRead ends is due within 100 µs, or before all the others. */
  ghost predicate FirstIsDueFirst(s: State) {
    forall f :: IsFirst(s, f) ==>
      DueAfter(s, f) <= s.clock + 100 || forall e :: Stays(s, e) ==> DueAfter(s, f) <= DueAfter(s, e)
  }

  /**
   With any timers: handleRead leaves the kernel timer set in time for every timer exactly when what
   is going to be the first entry is due first, or within 100 µs.
   */
  lemma RearmInTimeIff(s: State)
    requires Inv(s) && Enabled(s, EndRead)
    ensures WillServe(Apply(s, EndRead)) <==> FirstIsDueFirst(s)
  {
    var t := Apply(s, EndRead);
    EndKeepsInv(s);
    EndKeepsClock(s);
    forall e ensures e in t.timers <==> Stays(s, e) { EndStays(s, e); }
    forall e | Stays(s, e) ensures e.id in t.heap && t.heap[e.id].expiration == DueAfter(s, e) { EndStays(s, e); }
    if t.timers != [] {
      EndArms(s);
      assert IsFirst(s, t.timers[0]);
      assert forall f :: IsFirst(s, f) ==> f == t.timers[0];
    }
  }

  /** The kernel timer is set for the timer of the first entry. */
  ghost predicate ArmedForFirst(t: State) {
    t.timers != [] ==>
      var first := t.timers[0];
      && first in t.timers && (forall e :: e in t.timers ==> e == first || Less(first, e))
      && first.id in t.heap && !t.readable && t.armTime == t.clock
      && t.armed == Some(if t.heap[first.id].expiration < t.clock + 100 then t.clock + 100
                         else t.heap[first.id].expiration)
  }

  lemma EndArms(s: State)
    requires Inv(s) && Enabled(s, EndRead)
    ensures ArmedForFirst(Apply(s, EndRead))
  {
    var s0 := s.(calling := None);
    FlagsKeepCore(s, s0);
    ResetAllKeepsCore(s0);
    RearmArms(ResetAll(s0));
  }

  lemma RearmArms(s: State)
    requires Core(s)
    ensures ArmedForFirst(Rearm(s))
  {
    if s.timers != [] {
      assert s.timers[0] in s.timers && Own(s, s.timers[0].id);
      FirstIsLess(s.timers);
    }
  }

  lemma FirstIsLess(q: seq<Entry>)
    requires Sorted(q) && q != []
    ensures forall e :: e in q ==> e == q[0] || Less(q[0], e)
  {
    forall e | e in q ensures e == q[0] || Less(q[0], e) {
      var i :| 0 <= i < |q| && q[i] == e;
    }
  }

  /** Adding a timer: it becomes the first, or the kernel timer goes off in time for it anyhow. */
  predicate AddInTime(s: State, id: Id)
    requires id in s.keys
  {
    s.timers == [] || s.keys[id] < s.timers[0].key || s.readable || ArmedFor(s, s.keys[id])
  }

  /** Adding compares with the first key, which may be stale. */
  lemma AddInTimeIff(s: State, id: Id)
    requires Inv(s) && WillServe(s) && id in s.transit
    ensures id in s.keys && (WillServe(AddStep(s, id)) <==> AddInTime(s, id))
  {
    assert Own(s, id) && Times(s, id);
    var e, t := EntryOf(s, id), AddStep(s, id);
    InsertSpec(s.timers, e);
    assert e in t.timers;
    forall f | f in s.timers ensures f.id in s.heap && f.key <= s.heap[f.id].expiration {
      assert Own(s, f.id) && Times(s, f.id);
    }
    if s.timers != [] {
      forall f | f in s.timers ensures s.timers[0].key <= f.key {
        var i :| 0 <= i < |s.timers| && s.timers[i] == f;
      }
    }
  }

  lemma CancelStillServes(s: State, e: Entry)
    requires Inv(s) && WillServe(s)
    ensures WillServe(CancelStep(s, e))
  {
    RemoveSpec(s.timers, e);
    forall f | f in CancelStep(s, e).timers ensures f in s.timers && f.id in CancelStep(s, e).heap {
      if e in s.timers && f.id == e.id { SameTimer(s, e, f); }
    }
  }

  /** Outside handleRead the queue will be read in time. */
  ghost predicate InTime(s: State) {
    s.calling.None? ==> WillServe(s)
  }

  /** The guard of the two steps that can make a timer late. */
  ghost predicate KeepsTime(s: State, a: Action) {
    && (a.EndRead? ==> FirstIsDueFirst(s))
    && (a.AddInLoop? && s.calling.None? ==> a.id in s.keys && AddInTime(s, a.id))
  }

  lemma InTimeStepIff(s: State, a: Action)
    requires Inv(s) && InTime(s) && Enabled(s, a)
    ensures InTime(Apply(s, a)) <==> KeepsTime(s, a)
  {
    match a
    case EndRead => EndKeepsClock(s); RearmInTimeIff(s);
    case AddInLoop(id) => if s.calling.None? { AddInTimeIff(s, id); }
    case Cancel(e) => if s.calling.None? { CancelStillServes(s, e); }
    case New(_, _, _) => NewTimerApart(s);
    case _ =>
  }

  /** In every state of the run outside handleRead the queue will be read in time. */
  ghost predicate AlwaysInTime(s: State, run: seq<Action>)
    requires LegalFrom(s, run)
    decreases |run|
  {
    InTime(s) && (run == [] || AlwaysInTime(Apply(s, run[0]), run[1..]))
  }

  ghost predicate AlwaysKeepsTime(s: State, run: seq<Action>)
    requires LegalFrom(s, run)
    decreases |run|
  {
    run == [] || (KeepsTime(s, run[0]) && AlwaysKeepsTime(Apply(s, run[0]), run[1..]))
  }

  lemma {:induction false} InTimeFromIff(s: State, run: seq<Action>)
    requires Inv(s) && InTime(s) && LegalFrom(s, run)
    ensures AlwaysInTime(s, run) <==> AlwaysKeepsTime(s, run)
    decreases |run|
  {
    if run != [] {
      InTimeStepIff(s, run[0]);
      StepKeepsInv(s, run[0]);
      if InTime(Apply(s, run[0])) { InTimeFromIff(Apply(s, run[0]), run[1..]); }
    }
  }

  /**
   No timer of a run is ever left to a kernel timer that goes off too late, exactly when every
   handleRead and every addTimerInLoop outside of one meets its guard.
   */
  lemma NeverLateIff(clock: Time, run: seq<Action>)
    requires LegalFrom(Init(clock), run)
    ensures AlwaysInTime(Init(clock), run) <==> AlwaysKeepsTime(Init(clock), run)
  {
    InitInv(clock);
    InTimeFromIff(Init(clock), run);
  }

  /* ---------------------------------------------------------------- one-shot timers */

  lemma AddIsTimely(s: State, id: Id)
    requires Inv(s) && Timely(s) && id in s.transit
    ensures Timely(AddStep(s, id))
  {
    assert Own(s, id) && Times(s, id);
    InsertSpec(s.timers, EntryOf(s, id));
    InsertFront(s.timers, EntryOf(s, id));
  }

  lemma InsertFront(q: seq<Entry>, e: Entry)
    ensures Insert(q, e) != []
    ensures q == [] || Less(e, q[0]) ==> Insert(q, e)[0] == e
    ensures q != [] && !Less(e, q[0]) ==> Insert(q, e)[0] == q[0]
  {
  }

  lemma TimelyStep(s: State, a: Action)
    requires Inv(s) && Timely(s) && Enabled(s, a)
    requires a.New? ==> !a.repeat
    ensures Timely(Apply(s, a))
  {
    match a
    case AddInLoop(id) => AddIsTimely(s, id);
    case Cancel(e) => RemoveSpec(s.timers, e);
    case EndRead => EndIsTimely(s);
    case _ =>
  }

  lemma {:induction false} TimelyRun(s: State, run: seq<Action>)
    requires Inv(s) && Timely(s) && LegalFrom(s, run) && OneShotRun(run)
    ensures Inv(After(s, run)) && Timely(After(s, run))
    decreases |run|
  {
    if run != [] {
      StepKeepsInv(s, run[0]);
      TimelyStep(s, run[0]);
      assert forall i :: 0 <= i < |run[1..]| ==> run[1..][i] == run[i + 1];
      TimelyRun(Apply(s, run[0]), run[1..]);
    }
  }

  /**
   With one-shot timers only: outside handleRead a queue that is not empty will be read, although
   cancelling never sets the kernel timer again; and reading takes exactly what has expired.
   */
  lemma NoMissedDeadline(clock: Time, run: seq<Action>)
    requires LegalFrom(Init(clock), run) && OneShotRun(run)
    ensures var s := After(Init(clock), run);
            && (s.calling.None? ==> WillFire(s))
            && Inv(s) && forall now :: NoneEarly(s, now)
  {
    InitInv(clock);
    TimelyRun(Init(clock), run);
    var s := After(Init(clock), run);
    forall now ensures NoneEarly(s, now) {
      ExpiredSpec(s.timers, now);
      forall e | e in s.timers ensures e.id in s.heap && s.heap[e.id].expiration == e.key {
        assert Own(s, e.id) && Times(s, e.id);
      }
    }
  }
}

/** The object, with the loops of getExpired, handleRead and reset. */
module TimerQueues {
  import opened Options
  import opened TimerProtocol

  /** What a callback does, on the loop thread: add a timer, cancel one, or take time. */
  datatype Request = RunAt(when: Time, repeat: bool, delta: nat) | CancelTimer(e: Entry) | Elapse(d: nat)

  function Served(s: State, r: Request): (t: State)
    ensures t.batch == s.batch && t.calling == s.calling && t.runs == s.runs
  {
    match r
    case RunAt(when, repeat, delta) => Apply(Apply(s, New(when, repeat, delta)), AddInLoop(s.unused))
    case CancelTimer(e) => Apply(s, Cancel(e))
    case Elapse(d) => Apply(s, Tick(d))
  }

  function ServedAll(s: State, rs: seq<Request>): (t: State)
    ensures t.batch == s.batch && t.calling == s.calling && t.runs == s.runs
    decreases |rs|
  {
    if rs == [] then s else ServedAll(Served(s, rs[0]), rs[1..])
  }

  /** The callbacks that have not been started yet, each with what it does. */
  function Called(s: State, script: nat -> seq<Request>): State
    requires s.calling.Some?
    decreases |s.batch| - s.calling.value
  {
    if s.calling.value >= |s.batch| then s
    else Called(ServedAll(Apply(s, RunNext), script(s.calling.value)), script)
  }

  /** A whole handleRead. */
  function Handled(s: State, script: nat -> seq<Request>): State
    requires s.calling.None?
  {
    CalledSpec(Apply(s, BeginRead), script);
    Apply(Called(Apply(s, BeginRead), script), EndRead)
  }

  function Ids(q: seq<Entry>): seq<Id> {
    if q == [] then [] else [q[0].id] + Ids(q[1..])
  }

  lemma {:induction false} CalledSpec(s: State, script: nat -> seq<Request>)
    requires s.calling.Some? && s.calling.value <= |s.batch|
    ensures var t := Called(s, script);
            && t.batch == s.batch && t.calling == Some(|s.batch|)
            && t.runs == s.runs + Ids(s.batch[s.calling.value..])
    decreases |s.batch| - s.calling.value
  {
    var k := s.calling.value;
    if k < |s.batch| {
      var t := ServedAll(Apply(s, RunNext), script(k));
      CalledSpec(t, script);
      assert s.batch[k..][1..] == s.batch[k + 1..];
      assert s.runs + [s.batch[k].id] + Ids(s.batch[k + 1..]) == s.runs + Ids(s.batch[k..]);
    }
  }

  /** handleRead starts exactly the timers expired at its beginning, once each, in key order. */
  lemma HandledSpec(s: State, script: nat -> seq<Request>)
    requires s.calling.None?
    ensures Handled(s, script).runs == s.runs + Ids(s.timers[..ExpiredCount(s.timers, s.clock)])
    ensures Handled(s, script).calling.None?
  {
    var s1 := Apply(s, BeginRead);
    CalledSpec(s1, script);
    assert s1.batch[0..] == s1.batch;
    ResetKeepsFlags(Called(s1, script).(calling := None));
  }

  class TimerQueue {
    var timers: seq<Entry>
    var cancelingTimers: set<Entry>
    var expired: seq<Entry>
    var next: Option<nat>        // set while callbacks are being called: how many have been started
    var now: Time
    var heap: map<Id, Timer>
    var unused: Id
    var clock: Time
    var armed: Option<Time>
    var armTime: Time
    var readable: bool
    ghost var g: State           // the whole state, with the history

    ghost predicate Matches()
      reads this
    {
      && timers == g.timers && cancelingTimers == g.canceling && expired == g.batch && next == g.calling
      && now == g.now && heap == g.heap && unused == g.unused
      && clock == g.clock && armed == g.armed && armTime == g.armTime && readable == g.readable
    }

    ghost predicate Valid()
      reads this
    {
      Matches() && Inv(g)
    }

    constructor (clock: Time)
      ensures Valid() && g == Init(clock)
    {
      timers, cancelingTimers, expired, next, now, heap, unused := [], {}, [], None, clock, map[], 0;
      this.clock, armed, armTime, readable := clock, None, clock, false;
      g := Init(clock);
      new;
      InitInv(clock);
    }

    /** timerfd_settime: at least 100 microseconds from now. */
    method ResetTimerfd(when: Time)
      requires Matches()
      modifies this`armed, this`armTime, this`readable, this`g
      ensures Matches() && g == Arm(old(g), when)
    {
      var microseconds := when - clock;
      if microseconds < 100 {
        microseconds := 100;
      }
      armed, armTime, readable := Some(clock + microseconds), clock, false;
      g := Arm(g, when);
    }

    /** addTimer: the object and the TimerId. */
    method NewTimer(when: Time, repeat: bool, delta: nat) returns (e: Entry)
      requires Valid()
      modifies this
      ensures Valid() && g == Apply(old(g), New(when, repeat, delta))
      ensures e == Entry(when, old(g).unused)
    {
      NewKeepsInv(g, New(when, repeat, delta));
      e := Entry(when, unused);
      heap := heap[unused := Timer(when, repeat, delta)];
      unused := unused + 1;
      g := Apply(g, New(when, repeat, delta));
    }

    method AddTimerInLoop(id: Id)
      requires Valid() && id in g.transit
      modifies this
      ensures Valid() && g == Apply(old(g), AddInLoop(id))
    {
      AddKeepsCore(g, id);
      assert Own(g, id);
      InsertTimer(id);
    }

    method InsertTimer(id: Id)
      requires Matches() && id in heap
      modifies this
      ensures Matches() && g == AddStep(old(g), id)
    {
      ghost var after := AddStep(g, id);
      var when := heap[id].expiration;
      var earliestChanged := timers == [] || when < timers[0].key;
      timers := Insert(timers, Entry(when, id));
      g := g.(timers := timers, transit := g.transit - {id});
      if earliestChanged {
        ResetTimerfd(when);
      }
      g := after;
    }

    method CancelTimerInLoop(e: Entry)
      requires Valid()
      modifies this
      ensures Valid() && g == Apply(old(g), Cancel(e))
    {
      CancelKeepsInv(g, e);
      RemoveTimer(e);
    }

    method RemoveTimer(e: Entry)
      requires Matches()
      modifies this
      ensures Matches() && g == CancelStep(old(g), e)
    {
      if e in timers {
        timers, heap := Remove(timers, e), heap - {e.id};
      } else if next.Some? {
        cancelingTimers := cancelingTimers + {e};
      }
      g := CancelStep(g, e);
    }

    /** Walks to the first entry that has not expired. */
    method LowerBound(time: Time) returns (end: nat)
      ensures end == ExpiredCount(timers, time)
    {
      end := 0;
      while end < |timers| && timers[end].key <= time
        invariant end <= |timers|
        invariant ExpiredCount(timers, time) == end + ExpiredCount(timers[end..], time)
      {
        assert timers[end..][1..] == timers[end + 1..];
        end := end + 1;
      }
    }

    /** Reads the kernel timer and cuts the expired entries off. */
    method GetExpired()
      requires Valid() && next.None?
      modifies this
      ensures Valid() && g == Apply(old(g), BeginRead)
    {
      BeginKeepsInv(g);
      CutExpired();
    }

    method CutExpired()
      requires Matches() && next.None?
      modifies this
      ensures Matches() && g == Apply(old(g), BeginRead)
    {
      readable, cancelingTimers, now := false, {}, clock;
      var end := LowerBound(now);
      expired, timers, next := timers[..end], timers[end..], Some(0);
      g := Apply(g, BeginRead);
    }

    /** Re-arms the repeating timers that were not cancelled and deletes the others. */
    method Reset()
      requires Valid() && next.Some? && next.value == |expired|
      modifies this
      ensures Valid() && g == Apply(old(g), EndRead)
    {
      EndKeepsInv(g);
      FlagsKeepCore(g, g.(calling := None));
      LeaveCalling();
      ResetLoop();
      RearmFirst();
    }

    /** callingExpiredTimers_ = false. */
    method LeaveCalling()
      requires Matches()
      modifies this`next, this`g
      ensures Matches() && g == old(g).(calling := None)
    {
      next := None;
      g := g.(calling := None);
    }

    method ResetLoop()
      requires Matches() && Core(g)
      modifies this
      ensures Matches() && Core(g) && g == ResetAll(old(g))
    {
      ghost var s := g;
      while expired != []
        invariant Matches() && Core(g) && ResetAll(g) == ResetAll(s)
        decreases |expired|
      {
        HeadIsLive(g);
        ResetOneKeepsCore(g);
        ResetNext();
      }
    }

    method RearmFirst()
      requires Matches() && Core(g)
      modifies this`armed, this`armTime, this`readable, this`g
      ensures Matches() && g == Rearm(old(g))
    {
      if timers != [] {
        assert timers[0] in timers && Own(g, timers[0].id);
        ResetTimerfd(heap[timers[0].id].expiration);
      }
    }

    method ResetNext()
      requires Matches() && expired != [] && expired[0].id in heap
      modifies this
      ensures Matches()
      ensures g == ResetOne(old(g), old(expired)[0]).(batch := old(expired)[1..])
    {
      var e := expired[0];
      ghost var after := ResetOne(g, e).(batch := g.batch[1..]);
      if heap[e.id].repeat && e !in cancelingTimers {
        heap := heap[e.id := heap[e.id].(expiration := now + heap[e.id].delta)];
        timers := Insert(timers, e);
      } else {
        heap := heap - {e.id};
      }
      expired := expired[1..];
      g := after;
    }

    /** The callback does something. */
    method Serve(request: Request)
      requires Valid() && next.Some?
      modifies this
      ensures Valid() && g == Served(old(g), request)
    {
      match request {
        case RunAt(when, repeat, delta) =>
          var e := NewTimer(when, repeat, delta);
          AddTimerInLoop(e.id);
        case CancelTimer(e) => CancelTimerInLoop(e);
        case Elapse(d) => PassTime(d);
      }
    }

    method PassTime(d: nat)
      requires Valid()
      modifies this`clock, this`g
      ensures Valid() && g == Apply(old(g), Tick(d))
    {
      FlagsKeepCore(g, Apply(g, Tick(d)));
      clock := clock + d;
      g := Apply(g, Tick(d));
    }

    /** One callback: it may add and cancel timers, among them its own. */
    method CallBack(requests: seq<Request>)
      requires Valid() && next.Some? && next.value < |expired|
      modifies this
      ensures Valid() && g == ServedAll(Apply(old(g), RunNext), requests)
    {
      RunKeepsCore(g);
      next := Some(next.value + 1);
      g := Apply(g, RunNext);
      ServeAll(requests);
    }

    method ServeAll(requests: seq<Request>)
      requires Valid() && next.Some?
      modifies this
      ensures Valid() && g == ServedAll(old(g), requests)
    {
      assert requests[0..] == requests;
      for k := 0 to |requests|
        invariant Valid() && next.Some?
        invariant ServedAll(g, requests[k..]) == ServedAll(old(g), requests)
      {
        assert requests[k..][1..] == requests[k + 1..];
        Serve(requests[k]);
      }
    }

    /** The whole callback of the kernel timer: exactly the expired timers run, in the order of their keys. */
    method HandleRead(script: nat -> seq<Request>)
      requires Valid() && next.None?
      modifies this
      ensures Valid() && g == Handled(old(g), script)
      ensures g.runs == old(g).runs + Ids(old(timers[..ExpiredCount(timers, clock)]))
    {
      HandledSpec(g, script);
      GetExpired();
      CalledSpec(g, script);
      CallAll(script);
      Reset();
    }

    method CallAll(script: nat -> seq<Request>)
      requires Valid() && next == Some(0)
      modifies this
      ensures Valid() && g == Called(old(g), script)
    {
      ghost var start := g;
      while next.value < |expired|
        invariant Valid() && next.Some? && next.value <= |expired|
        invariant Called(g, script) == Called(start, script)
        decreases |expired| - next.value
      {
        CallBack(script(next.value));
      }
    }
  }

  lemma HeadIsLive(s: State)
    requires Core(s) && s.batch != []
    ensures s.batch[0].id in s.heap
  {
    assert s.batch[0] in s.batch && Own(s, s.batch[0].id);
  }
}
