/**
 The life of connections across loops (matelib/TcpServer.cc, matelib/TcpConnection.cc,
 matelib/EventLoop.cc): the server's loop accepts, another loop serves, and the last reference is
 handed from the connection map through two queues.

 Loop 0 is the server's.  A step is one event handler, one functor, or the check-and-queue of
 another thread; `crashed` records a failed assertion of the source, or the use of a connection
 that has been given up.
 */
module ConnectionLife {
  import opened Search
  import opened Numerals
  import opened Epoll
  import opened OutputPath

  type ConnId = nat

  /**
   Functors for a connection.  The first three hold a reference to it; `Use` holds only its address:
   it is the rest of a send() or shutdown() on another thread.
   */
  datatype Task = BringUp(c: ConnId) | RemoveFromMap(c: ConnId) | Destroy(c: ConnId) | Use(c: ConnId)

  datatype Record = Record(
    name: string,
    loop: nat,
    state: ConnState,
    reg: Registration,           // of its channel, in the poller of its loop
    waiting: bool,               // its channel waits for some event
    ups: nat,                    // connection callbacks made when it came up
    downs: nat)                  // and when it went down

  datatype Loop = Loop(dispatching: bool, batch: seq<Task>, pending: seq<Task>)

  /** The connections, and the server's map of them. */
  datatype Roster = Roster(connectionMap: map<string, ConnId>, conns: map<ConnId, Record>, nextId: nat)

  datatype State = State(
    roster: Roster,
    loops: seq<Loop>,
    removals: seq<bool>,         // for every channel removed: was its loop handling events
    crashed: bool)

  function Init(n: nat): State {
    State(Roster(map[], map[], 0), seq(n, _ => Loop(false, [], [])), [], false)
  }

  datatype Action =
    | Accept(loop: nat, rest: string)
    | Event(c: ConnId, revents: set<Bit>, eof: bool)   // its channel; would a read find the end of the stream
    | PostSend(c: ConnId)
    | AskShutdown(c: ConnId, remote: bool)
    | BeginDispatch(l: nat)
    | EndDispatch(l: nat)
    | SwapTasks(l: nat)
    | RunTask(l: nat)

  /* ---------------------------------------------------------------- names */

  const WRAP: int := 0x1_0000_0000

  /** An unsigned number printed with %d. */
  function AsInt(id: nat): int {
    var m := id % WRAP;
    if m < 0x8000_0000 then m else m - WRAP
  }

  /** snprintf into 32 bytes; `rest` is port, descriptor and peer. */
  function ConnName(id: nat, rest: string): string {
    Cut("#" + Decimal(AsInt(id)) + ":" + rest)
  }

  function Cut(text: string): string {
    if |text| > 31 then text[..31] else text
  }

  lemma CutSpec(text: string)
    ensures Cut(text) <= text && |Cut(text)| == if |text| < 31 then |text| else 31
  {
  }

  /** As much of #id:rest as fits into 31 characters. */
  lemma NameSpec(id: nat, rest: string)
    requires id < 0x8000_0000
    ensures var name, text := ConnName(id, rest), "#" + Decimal(id) + ":" + rest;
            name <= text && |name| == if |text| < 31 then |text| else 31
  {
    assert AsInt(id) == id;
    CutSpec("#" + Decimal(id) + ":" + rest);
  }

  lemma {:induction false} NoColonInDigits(n: nat)
    ensures ':' !in Digits(n, 10)
    decreases n
  {
    if n > 0 { NoColonInDigits(n / 10); }
  }

  lemma NamePrefix(id: nat, rest: string)
    ensures var d := Decimal(AsInt(id)); ':' !in d && |d| <= 20
    ensures var d := Decimal(AsInt(id)); "#" + d + ":" <= ConnName(id, rest)
  {
    var v := AsInt(id);
    var n: nat := if v < 0 then -v else v;
    NoColonInDigits(n);
    DecimalLength(v);
    var d := Decimal(v);
    var text := "#" + d + ":" + rest;
    assert text[..|d| + 2] == "#" + d + ":";
    if |text| > 31 { assert text[..31][..|d| + 2] == text[..|d| + 2]; }
  }

  /** Names of different connections differ, until the counter has gone round. */
  lemma NamesDiffer(id: nat, rest: string, id2: nat, rest2: string)
    requires id < WRAP && id2 < WRAP && ConnName(id, rest) == ConnName(id2, rest2)
    ensures id == id2
  {
    NamePrefix(id, rest);
    NamePrefix(id2, rest2);
    SameNumber(AsInt(id), AsInt(id2), ConnName(id, rest));
    AsIntInjective(id, id2);
  }

  lemma AsIntInjective(id: nat, id2: nat)
    requires id < WRAP && id2 < WRAP && AsInt(id) == AsInt(id2)
    ensures id == id2
  {
  }

  lemma SameNumber(v: int, w: int, name: string)
    requires ':' !in Decimal(v) && ':' !in Decimal(w)
    requires "#" + Decimal(v) + ":" <= name && "#" + Decimal(w) + ":" <= name
    ensures v == w
  {
    SamePrefix(Decimal(v), Decimal(w), name);
    DecimalInjective(v, w);
  }

  lemma SamePrefix(d: string, d2: string, name: string)
    requires ':' !in d && ':' !in d2 && "#" + d + ":" <= name && "#" + d2 + ":" <= name
    ensures d == d2
  {
    assert name == "#" + d + [':'] + name[|d| + 2..];
    assert name == "#" + d2 + [':'] + name[|d2| + 2..];
    FindCharAfter("#" + d, ':', name[|d| + 2..]);
    FindCharAfter("#" + d2, ':', name[|d2| + 2..]);
    assert d == name[1..|d| + 1] && d2 == name[1..|d2| + 1];
  }

  /* ---------------------------------------------------------------- steps */

  predicate Enabled(s: State, a: Action) {
    match a
    case Accept(l, _) => l < |s.loops| && s.loops[0].dispatching
    case Event(c, revents, _) =>
      && c in s.roster.conns && s.roster.conns[c].reg == Added && s.roster.conns[c].loop < |s.loops|
      && s.loops[s.roster.conns[c].loop].dispatching
      && revents <= READ_EVENT + WRITE_EVENT + {Err, Hup}
    case PostSend(c) => c in s.roster.conns && s.roster.conns[c].loop < |s.loops|
    case AskShutdown(c, _) => c in s.roster.conns && s.roster.conns[c].loop < |s.loops|
    case BeginDispatch(l) => l < |s.loops| && !s.loops[l].dispatching && s.loops[l].batch == []
    case EndDispatch(l) => l < |s.loops| && s.loops[l].dispatching
    case SwapTasks(l) => l < |s.loops| && !s.loops[l].dispatching && s.loops[l].batch == []
    case RunTask(l) => l < |s.loops| && !s.loops[l].dispatching && s.loops[l].batch != []
  }

  function Update(r: Roster, c: ConnId, rec: Record): Roster {
    r.(conns := r.conns[c := rec])
  }

  function Created(r: Roster, l: nat, rest: string): Roster {
    var name := ConnName(r.nextId, rest);
    Roster(r.connectionMap[name := r.nextId],
           r.conns[r.nextId := Record(name, l, Connecting, New, false, 0, 0)], r.nextId + 1)
  }

  function Erased(r: Roster, name: string): Roster {
    r.(connectionMap := r.connectionMap - {name})
  }

  function UpRecord(rec: Record): Record {
    rec.(state := Connected, reg := Added, waiting := true, ups := rec.ups + 1)
  }

  /** A connection's state after handleClose. */
  function ClosedRecord(rec: Record): Record {
    rec.(state := Disconnected, reg := Deleted, waiting := false, downs := rec.downs + 1)
  }

  function Pushed(loops: seq<Loop>, l: nat, t: Task): seq<Loop>
    requires l < |loops|
  {
    loops[l := loops[l].(pending := loops[l].pending + [t])]
  }

  /** The first functor of a batch, taken out. */
  function Popped(loops: seq<Loop>, l: nat): seq<Loop>
    requires l < |loops| && loops[l].batch != []
  {
    loops[l := loops[l].(batch := loops[l].batch[1..])]
  }

  /** queueInLoop. */
  function Queue(s: State, l: nat, t: Task): State
    requires l < |s.loops|
  {
    s.(loops := Pushed(s.loops, l, t))
  }

  function Fail(s: State): State {
    s.(crashed := true)
  }

  predicate Queued(loops: seq<Loop>, l: nat, t: Task) {
    l < |loops| && t in loops[l].batch + loops[l].pending
  }

  predicate InMap(r: Roster, c: ConnId)
    requires c in r.conns
  {
    r.conns[c].name in r.connectionMap && r.connectionMap[r.conns[c].name] == c
  }

  /** Somebody keeps the connection alive. */
  ghost predicate Owned(s: State, c: ConnId)
    requires c in s.roster.conns
  {
    InMap(s.roster, c) || exists l: nat, t :: Queued(s.loops, l, t) && t.c == c && !t.Use?
  }

  /** What a functor does on loop `l`; using a connection that has been given up fails. */
  ghost function Exec(s: State, l: nat, t: Task): State
    requires l < |s.loops|
  {
    if t.c !in s.roster.conns then Fail(s)
    else
      var r := s.roster.conns[t.c];
      match t
      case BringUp(c) => if l != r.loop then Fail(s) else s.(roster := Update(s.roster, c, UpRecord(r)))
      case RemoveFromMap(c) =>
        if l != 0 || r.loop >= |s.loops| then Fail(s)
        else Queue(s.(roster := Erased(s.roster, r.name)), r.loop, Destroy(c))
      case Destroy(c) =>
        var r1 := if r.state == Connected then ClosedRecord(r) else r;
        if l != r.loop || r1.waiting || r1.reg == New then Fail(s)
        else s.(roster := Update(s.roster, c, r1.(reg := New)), removals := s.removals + [s.loops[l].dispatching])
      case Use(c) => if l != r.loop || !Owned(s, c) then Fail(s) else s
  }

  /** runInLoop, called on loop `caller`. */
  ghost function RunInLoop(s: State, l: nat, caller: nat, t: Task): State
    requires l < |s.loops|
  {
    if l == caller then Exec(s, l, t) else Queue(s, l, t)
  }

  /** How often the callbacks for these events reach handleClose: on a hang-up, and on reading the end. */
  function Closes(revents: set<Bit>, eof: bool): nat {
    var calls := Dispatch(revents, 1);
    (if OnClose in calls then 1 else 0) + (if OnRead in calls && eof then 1 else 0)
  }

  /** handleClose. */
  ghost function Close(s: State, c: ConnId): (s': State)
    requires |s.loops| > 0
    ensures |s'.loops| == |s.loops| && s'.roster.nextId == s.roster.nextId
  {
    if c !in s.roster.conns || s.roster.conns[c].state !in {Connected, Disconnecting} then Fail(s)
    else
      var r := s.roster.conns[c];
      RunInLoop(s.(roster := Update(s.roster, c, ClosedRecord(r))), 0, r.loop, RemoveFromMap(c))
  }

  ghost function CloseTimes(s: State, c: ConnId, n: nat): State
    requires |s.loops| > 0
  {
    if n == 0 then s else if n == 1 then Close(s, c) else Close(Close(s, c), c)
  }

  ghost function Apply(s: State, a: Action): State
    requires Enabled(s, a)
  {
    match a
    case Accept(l, rest) => RunInLoop(s.(roster := Created(s.roster, l, rest)), l, 0, BringUp(s.roster.nextId))
    case Event(c, revents, eof) => CloseTimes(s, c, Closes(revents, eof))
    case PostSend(c) =>
      if s.roster.conns[c].state == Connected then Queue(s, s.roster.conns[c].loop, Use(c)) else s
    case AskShutdown(c, remote) =>
      var r := s.roster.conns[c];
      if r.state != Connected then s
      else
        var s1 := s.(roster := Update(s.roster, c, r.(state := Disconnecting)));
        if remote then Queue(s1, r.loop, Use(c)) else s1
    case BeginDispatch(l) => s.(loops := s.loops[l := s.loops[l].(dispatching := true)])
    case EndDispatch(l) => s.(loops := s.loops[l := s.loops[l].(dispatching := false)])
    case SwapTasks(l) => s.(loops := s.loops[l := Loop(false, s.loops[l].pending, [])])
    case RunTask(l) => Exec(s.(loops := Popped(s.loops, l)), l, s.loops[l].batch[0])
  }

  ghost predicate LegalFrom(s: State, run: seq<Action>)
    decreases |run|
  {
    run == [] || (Enabled(s, run[0]) && LegalFrom(Apply(s, run[0]), run[1..]))
  }

  ghost function After(s: State, run: seq<Action>): State
    requires LegalFrom(s, run)
    decreases |run|
  {
    if run == [] then s else After(Apply(s, run[0]), run[1..])
  }

  /* ---------------------------------------------------------------- the invariant */

  /** The stages of a connection's life, one after the other. */
  datatype Stage = Fresh | Up | Closed | Leaving | Gone

  function StageOf(r: Roster, c: ConnId): Stage
    requires c in r.conns
  {
    var rec := r.conns[c];
    if rec.state == Connecting then Fresh
    else if rec.state != Disconnected then Up
    else if InMap(r, c) then Closed
    else if rec.reg == Deleted then Leaving
    else Gone
  }

  /** A functor and the loop it belongs to. */
  datatype Due = NothingDue | Due(l: nat, t: Task)

  /** The functor that takes a connection to its next stage. */
  function DueOf(r: Roster, c: ConnId): Due
    requires c in r.conns
  {
    match StageOf(r, c)
    case Fresh => Due(r.conns[c].loop, BringUp(c))
    case Closed => Due(0, RemoveFromMap(c))
    case Leaving => Due(r.conns[c].loop, Destroy(c))
    case _ => NothingDue
  }

  predicate IsDue(r: Roster, l: nat, t: Task) {
    t.c in r.conns && DueOf(r, t.c) == Due(l, t)
  }

  predicate RecordOk(r: Roster, c: ConnId, n: nat)
    requires c in r.conns
  {
    var rec := r.conns[c];
    && rec.loop < n && rec.waiting == (rec.reg == Added)
    && match StageOf(r, c)
       case Fresh => rec.reg == New && rec.ups == 0 && rec.downs == 0 && InMap(r, c)
       case Up => rec.reg == Added && rec.ups == 1 && rec.downs == 0 && InMap(r, c)
       case Closed => rec.reg == Deleted && rec.ups == 1 && rec.downs == 1
       case Leaving => rec.ups == 1 && rec.downs == 1
       case Gone => rec.reg == New && rec.ups == 1 && rec.downs == 1
  }

  ghost predicate Distinct(q: seq<Task>) {
    forall i, j :: 0 <= i < j < |q| && !q[i].Use? ==> q[i] != q[j]
  }

  ghost predicate Tidy(l: Loop) {
    Distinct(l.batch + l.pending) && (l.dispatching ==> l.batch == [])
  }

  ghost predicate HasName(c: ConnId, name: string) {
    exists rest :: name == ConnName(c, rest)
  }

  ghost predicate NamesOk(r: Roster) {
    && r.nextId <= WRAP
    && (forall c: ConnId :: c in r.conns <==> c < r.nextId)
    && (forall c :: c in r.conns ==> HasName(c, r.conns[c].name))
    && (forall n :: n in r.connectionMap ==> r.connectionMap[n] in r.conns && r.conns[r.connectionMap[n]].name == n)
  }

  ghost predicate RosterOk(r: Roster, n: nat) {
    NamesOk(r) && forall c :: c in r.conns ==> RecordOk(r, c, n)
  }

  /** The functors queued that hold a reference are exactly those due, each once; `hand` is being run. */
  ghost predicate QueuesOk(r: Roster, loops: seq<Loop>, hand: Due) {
    && (forall l: nat, t: Task :: !t.Use? ==> (Queued(loops, l, t) <==> IsDue(r, l, t) && hand != Due(l, t)))
    && (hand.Due? ==> hand.l < |loops| && IsDue(r, hand.l, hand.t))
    && (forall l :: 0 <= l < |loops| ==> Tidy(loops[l]))
  }

  ghost predicate InvBut(s: State, hand: Due) {
    && !s.crashed && |s.loops| > 0
    && (forall b :: b in s.removals ==> !b)
    && RosterOk(s.roster, |s.loops|)
    && QueuesOk(s.roster, s.loops, hand)
  }

  ghost predicate Core(s: State) {
    InvBut(s, NothingDue)
  }

  function QueueOf(l: Loop): seq<Task> {
    l.batch + l.pending
  }

  ghost predicate DestroyBehind(q: seq<Task>, i: nat, c: ConnId) {
    exists j :: i < j < |q| && q[j] == Destroy(c)
  }

  /** A functor with only the address is in the loop of its connection, in front of what gives it up. */
  ghost predicate UseOk(r: Roster, q: seq<Task>, l: nat, i: nat)
    requires i < |q|
  {
    q[i].Use? ==>
      && q[i].c in r.conns && r.conns[q[i].c].loop == l
      && (|| StageOf(r, q[i].c) in {Up, Closed}
          || (StageOf(r, q[i].c) == Leaving && DestroyBehind(q, i, q[i].c)))
  }

  ghost predicate UsesOk(r: Roster, loops: seq<Loop>) {
    forall l, i :: 0 <= l < |loops| && 0 <= i < |QueueOf(loops[l])| ==> UseOk(r, QueueOf(loops[l]), l, i)
  }

  ghost predicate Inv(s: State) {
    Core(s) && UsesOk(s.roster, s.loops)
  }

  /** A functor holds no reference while it is run unless it held one in the queue. */
  function HandOf(l: nat, t: Task): Due {
    if t.Use? then NothingDue else Due(l, t)
  }

  /* ---------------------------------------------------------------- queues */

  lemma PopQueue(r: Roster, loops: seq<Loop>, l: nat)
    requires QueuesOk(r, loops, NothingDue) && l < |loops| && loops[l].batch != []
    ensures QueuesOk(r, Popped(loops, l), HandOf(l, loops[l].batch[0]))
  {
    var loops', t := Popped(loops, l), loops[l].batch[0];
    var q, q' := loops[l].batch + loops[l].pending, loops'[l].batch + loops'[l].pending;
    assert q' == q[1..] && q[0] == t && q == [t] + q';
    assert Tidy(loops[l]) && Queued(loops, l, t);
    forall k: nat, u: Task | !u.Use? ensures Queued(loops', k, u) <==> Queued(loops, k, u) && Due(l, t) != Due(k, u) {}
  }

  lemma PushQueue(r: Roster, loops: seq<Loop>, l: nat, t: Task)
    requires QueuesOk(r, loops, Due(l, t)) && !t.Use?
    ensures QueuesOk(r, Pushed(loops, l, t), NothingDue)
  {
    var loops' := Pushed(loops, l, t);
    var q := loops[l].batch + loops[l].pending;
    assert loops'[l].batch + loops'[l].pending == q + [t];
    assert !Queued(loops, l, t) && Tidy(loops[l]);
    forall k: nat, u ensures Queued(loops', k, u) <==> Queued(loops, k, u) || (k == l && u == t) {}
  }

  lemma PushUse(r: Roster, loops: seq<Loop>, l: nat, c: ConnId)
    requires QueuesOk(r, loops, NothingDue) && l < |loops|
    ensures QueuesOk(r, Pushed(loops, l, Use(c)), NothingDue)
  {
    var loops' := Pushed(loops, l, Use(c));
    assert loops'[l].batch + loops'[l].pending == loops[l].batch + loops[l].pending + [Use(c)];
    assert Tidy(loops[l]);
    forall k: nat, u: Task | !u.Use? ensures Queued(loops', k, u) <==> Queued(loops, k, u) {}
  }

  /** Swapping an empty batch for the queue, and starting or ending a dispatch, move no functor. */
  lemma SameQueues(r: Roster, loops: seq<Loop>, l: nat, x: Loop)
    requires QueuesOk(r, loops, NothingDue) && l < |loops| && (x.dispatching ==> x.batch == [])
    requires x.batch + x.pending == loops[l].batch + loops[l].pending
    ensures QueuesOk(r, loops[l := x], NothingDue)
  {
    assert Tidy(loops[l]);
    forall k: nat, u ensures Queued(loops[l := x], k, u) <==> Queued(loops, k, u) {}
  }

  /** When the roster changes for one connection, only what is due for that one changes. */
  lemma DueChanges(r: Roster, r': Roster, loops: seq<Loop>, c: ConnId, now: Due, next: Due)
    requires QueuesOk(r, loops, now)
    requires if c in r.conns then now == DueOf(r, c) else now == NothingDue
    requires c in r'.conns && next == DueOf(r', c) && (next.Due? ==> next.l < |loops|)
    requires forall d :: d != c ==> (d in r.conns <==> d in r'.conns)
    requires forall d :: d != c && d in r.conns ==> DueOf(r', d) == DueOf(r, d)
    ensures QueuesOk(r', loops, next)
  {
    forall k: nat, u: Task | !u.Use? ensures Queued(loops, k, u) <==> IsDue(r', k, u) && next != Due(k, u) {
      assert Queued(loops, k, u) <==> IsDue(r, k, u) && now != Due(k, u);
    }
  }

  /* ---------------------------------------------------------------- every step keeps it */

  /** No two connections share a name, until the counter has gone round. */
  lemma NamesUnique(r: Roster, c: ConnId, d: ConnId)
    requires NamesOk(r) && c in r.conns && d in r.conns && r.conns[c].name == r.conns[d].name
    ensures c == d
  {
    assert HasName(c, r.conns[c].name) && HasName(d, r.conns[d].name);
    var rest :| r.conns[c].name == ConnName(c, rest);
    var rest2 :| r.conns[d].name == ConnName(d, rest2);
    NamesDiffer(c, rest, d, rest2);
  }

  lemma CreateKeepsNames(r: Roster, l: nat, rest: string)
    requires NamesOk(r) && r.nextId < WRAP
    ensures NamesOk(Created(r, l, rest))
  {
    var r' := Created(r, l, rest);
    assert HasName(r.nextId, ConnName(r.nextId, rest));
    forall name | name in r'.connectionMap ensures r'.conns[r'.connectionMap[name]].name == name {
      if name != ConnName(r.nextId, rest) { assert name in r.connectionMap; }
    }
  }

  lemma CreateKeepsOthers(r: Roster, l: nat, rest: string, d: ConnId, n: nat)
    requires RosterOk(r, n) && r.nextId < WRAP && d in r.conns
    ensures DueOf(Created(r, l, rest), d) == DueOf(r, d) && RecordOk(Created(r, l, rest), d, n)
    ensures StageOf(Created(r, l, rest), d) == StageOf(r, d)
  {
    var r' := Created(r, l, rest);
    if r.conns[d].name == ConnName(r.nextId, rest) {
      CreateKeepsNames(r, l, rest);
      NamesUnique(r', d, r.nextId);
    }
    assert RecordOk(r, d, n);
  }

  lemma CreateKeepsCore(s: State, l: nat, rest: string)
    requires Core(s) && l < |s.loops| && s.roster.nextId < WRAP
    ensures InvBut(s.(roster := Created(s.roster, l, rest)), Due(l, BringUp(s.roster.nextId)))
  {
    var r, r' := s.roster, Created(s.roster, l, rest);
    CreateKeepsNames(r, l, rest);
    forall d | d in r.conns ensures DueOf(r', d) == DueOf(r, d) && RecordOk(r', d, |s.loops|) {
      CreateKeepsOthers(r, l, rest, d, |s.loops|);
    }
    DueChanges(r, r', s.loops, r.nextId, NothingDue, Due(l, BringUp(r.nextId)));
  }

  /** Changing the record of one connection leaves the others alone. */
  lemma UpdateKeepsCore(s: State, c: ConnId, rec: Record)
    requires c in s.roster.conns && InvBut(s, DueOf(s.roster, c))
    requires rec.name == s.roster.conns[c].name && RecordOk(Update(s.roster, c, rec), c, |s.loops|)
    ensures InvBut(s.(roster := Update(s.roster, c, rec)), DueOf(Update(s.roster, c, rec), c))
  {
    var r, r' := s.roster, Update(s.roster, c, rec);
    forall d | d in r.conns && d != c ensures DueOf(r', d) == DueOf(r, d) && RecordOk(r', d, |s.loops|) {
      assert RecordOk(r, d, |s.loops|);
    }
    DueChanges(r, r', s.loops, c, DueOf(r, c), DueOf(r', c));
  }

  lemma EraseKeepsOthers(r: Roster, c: ConnId, d: ConnId, n: nat)
    requires RosterOk(r, n) && c in r.conns && d in r.conns && d != c
    ensures DueOf(Erased(r, r.conns[c].name), d) == DueOf(r, d) && RecordOk(Erased(r, r.conns[c].name), d, n)
    ensures StageOf(Erased(r, r.conns[c].name), d) == StageOf(r, d)
  {
    if r.conns[d].name == r.conns[c].name { NamesUnique(r, c, d); }
    OtherName(r, r.conns[c].name, d, n);
  }

  lemma OtherName(r: Roster, name: string, d: ConnId, n: nat)
    requires d in r.conns && RecordOk(r, d, n) && r.conns[d].name != name
    ensures DueOf(Erased(r, name), d) == DueOf(r, d) && RecordOk(Erased(r, name), d, n)
    ensures StageOf(Erased(r, name), d) == StageOf(r, d)
  {
  }

  /** Taking a closed connection out of the map. */
  lemma EraseKeepsCore(s: State, c: ConnId)
    requires c in s.roster.conns && StageOf(s.roster, c) == Closed && InvBut(s, DueOf(s.roster, c))
    ensures var r' := Erased(s.roster, s.roster.conns[c].name);
            InvBut(s.(roster := r'), Due(s.roster.conns[c].loop, Destroy(c)))
  {
    var r, r' := s.roster, Erased(s.roster, s.roster.conns[c].name);
    assert RecordOk(r, c, |s.loops|);
    forall d | d in r.conns && d != c ensures DueOf(r', d) == DueOf(r, d) && RecordOk(r', d, |s.loops|) {
      EraseKeepsOthers(r, c, d, |s.loops|);
    }
    assert NamesOk(r') && RecordOk(r', c, |s.loops|);
    DueChanges(r, r', s.loops, c, DueOf(r, c), DueOf(r', c));
  }

  lemma BringUpKeepsCore(s: State, l: nat, c: ConnId)
    requires InvBut(s, Due(l, BringUp(c)))
    ensures Core(Exec(s, l, BringUp(c)))
  {
    assert IsDue(s.roster, l, BringUp(c)) && RecordOk(s.roster, c, |s.loops|);
    UpdateKeepsCore(s, c, UpRecord(s.roster.conns[c]));
  }

  lemma RemoveKeepsCore(s: State, l: nat, c: ConnId)
    requires InvBut(s, Due(l, RemoveFromMap(c)))
    ensures Core(Exec(s, l, RemoveFromMap(c)))
  {
    var r := s.roster.conns[c];
    assert IsDue(s.roster, l, RemoveFromMap(c)) && RecordOk(s.roster, c, |s.loops|);
    EraseKeepsCore(s, c);
    PushQueue(Erased(s.roster, r.name), s.loops, r.loop, Destroy(c));
  }

  lemma DestroyKeepsCore(s: State, l: nat, c: ConnId)
    requires InvBut(s, Due(l, Destroy(c))) && !s.loops[l].dispatching
    ensures Core(Exec(s, l, Destroy(c)))
  {
    var r := s.roster.conns[c].(reg := New);
    assert IsDue(s.roster, l, Destroy(c)) && RecordOk(s.roster, c, |s.loops|);
    UpdateKeepsCore(s, c, r);
    DestroyIs(s, l, c);
  }

  lemma DestroyIs(s: State, l: nat, c: ConnId)
    requires l < |s.loops| && !s.loops[l].dispatching && c in s.roster.conns && s.roster.conns[c].loop == l
    requires s.roster.conns[c].state == Disconnected && s.roster.conns[c].reg == Deleted && !s.roster.conns[c].waiting
    ensures Exec(s, l, Destroy(c))
            == s.(roster := Update(s.roster, c, s.roster.conns[c].(reg := New)), removals := s.removals + [false])
  {
  }

  lemma ExecKeepsCore(s: State, l: nat, t: Task)
    requires InvBut(s, HandOf(l, t)) && l < |s.loops|
    requires t.Destroy? ==> !s.loops[l].dispatching
    requires t.Use? ==> t.c in s.roster.conns && s.roster.conns[t.c].loop == l && Owned(s, t.c)
    ensures Core(Exec(s, l, t))
  {
    match t
    case BringUp(c) => BringUpKeepsCore(s, l, c);
    case RemoveFromMap(c) => RemoveKeepsCore(s, l, c);
    case Destroy(c) => DestroyKeepsCore(s, l, c);
    case Use(c) => assert Exec(s, l, t) == s;
  }

  lemma RunInLoopKeepsCore(s: State, l: nat, caller: nat, t: Task)
    requires InvBut(s, Due(l, t)) && !t.Destroy? && !t.Use?
    ensures Core(RunInLoop(s, l, caller, t))
  {
    if l == caller { ExecKeepsCore(s, l, t); } else { PushQueue(s.roster, s.loops, l, t); }
  }

  lemma CloseKeepsCore(s: State, c: ConnId)
    requires Core(s) && c in s.roster.conns && s.roster.conns[c].reg == Added
    ensures Core(Close(s, c))
  {
    var rec := s.roster.conns[c];
    assert RecordOk(s.roster, c, |s.loops|);
    UpdateKeepsCore(s, c, ClosedRecord(rec));
    RunInLoopKeepsCore(s.(roster := Update(s.roster, c, ClosedRecord(rec))), 0, rec.loop, RemoveFromMap(c));
  }

  lemma StateKeepsCore(s: State, c: ConnId)
    requires Core(s) && c in s.roster.conns && s.roster.conns[c].state == Connected
    ensures Core(s.(roster := Update(s.roster, c, s.roster.conns[c].(state := Disconnecting))))
  {
    assert RecordOk(s.roster, c, |s.loops|);
    UpdateKeepsCore(s, c, s.roster.conns[c].(state := Disconnecting));
  }

  lemma AskShutdownKeepsCore(s: State, c: ConnId, remote: bool)
    requires Core(s) && Enabled(s, AskShutdown(c, remote))
    ensures Core(Apply(s, AskShutdown(c, remote)))
  {
    if s.roster.conns[c].state == Connected {
      StateKeepsCore(s, c);
      PushUse(Update(s.roster, c, s.roster.conns[c].(state := Disconnecting)), s.loops, s.roster.conns[c].loop, c);
    }
  }

  lemma PostSendKeepsCore(s: State, c: ConnId)
    requires Core(s) && Enabled(s, PostSend(c))
    ensures Core(Apply(s, PostSend(c)))
  {
    PushUse(s.roster, s.loops, s.roster.conns[c].loop, c);
  }

  /** A hang-up without input but with urgent data, where reading then finds the end of the stream. */
  predicate ClosesTwice(a: Action) {
    a.Event? && Hup in a.revents && In !in a.revents && Pri in a.revents && a.eof
  }

  lemma ClosesCount(a: Action)
    requires a.Event? && RdHup !in a.revents
    ensures Closes(a.revents, a.eof) <= 2 && (Closes(a.revents, a.eof) == 2 <==> ClosesTwice(a))
  {
  }

  /** Ids still to be given out before the counter goes round. */
  predicate Room(s: State, a: Action) {
    a.Accept? ==> s.roster.nextId < WRAP
  }

  lemma AcceptKeepsCore(s: State, a: Action)
    requires Core(s) && Enabled(s, a) && a.Accept? && s.roster.nextId < WRAP
    ensures Core(Apply(s, a))
  {
    CreateKeepsCore(s, a.loop, a.rest);
    RunInLoopKeepsCore(s.(roster := Created(s.roster, a.loop, a.rest)), a.loop, 0, BringUp(s.roster.nextId));
  }

  lemma CloseTimesKeepsCore(s: State, c: ConnId, n: nat)
    requires Core(s) && c in s.roster.conns && s.roster.conns[c].reg == Added && n <= 1
    ensures Core(CloseTimes(s, c, n))
  {
    if n == 1 { CloseKeepsCore(s, c); }
  }

  lemma EventCloses(s: State, a: Action)
    requires |s.loops| > 0 && Enabled(s, a) && a.Event?
    ensures Apply(s, a) == CloseTimes(s, a.c, Closes(a.revents, a.eof))
    ensures a.c in s.roster.conns && s.roster.conns[a.c].reg == Added
    ensures if ClosesTwice(a) then Closes(a.revents, a.eof) == 2 else Closes(a.revents, a.eof) <= 1
  {
    ClosesCount(a);
  }

  lemma EventKeepsCore(s: State, a: Action)
    requires Core(s) && Enabled(s, a) && a.Event? && !ClosesTwice(a)
    ensures Core(Apply(s, a))
  {
    EventCloses(s, a);
    CloseTimesKeepsCore(s, a.c, Closes(a.revents, a.eof));
  }

  /** The state in which the first functor of a batch is run. */
  function Popping(s: State, l: nat): State
    requires l < |s.loops| && s.loops[l].batch != []
  {
    s.(loops := Popped(s.loops, l))
  }

  /** A functor with only the address still finds its connection. */
  lemma UseIsOwned(s: State, l: nat)
    requires Inv(s) && Enabled(s, RunTask(l)) && s.loops[l].batch[0].Use?
    ensures var c := s.loops[l].batch[0].c;
            c in s.roster.conns && s.roster.conns[c].loop == l && Owned(Popping(s, l), c)
  {
    var q, c := QueueOf(s.loops[l]), s.loops[l].batch[0].c;
    assert q[0] == Use(c) && UseOk(s.roster, q, l, 0);
    assert RecordOk(s.roster, c, |s.loops|);
    if StageOf(s.roster, c) == Leaving { DestroyStays(s.loops, l, c); }
  }

  lemma DestroyStays(loops: seq<Loop>, l: nat, c: ConnId)
    requires l < |loops| && loops[l].batch != [] && DestroyBehind(QueueOf(loops[l]), 0, c)
    ensures Queued(Popped(loops, l), l, Destroy(c))
  {
    var q := QueueOf(loops[l]);
    var j :| 0 < j < |q| && q[j] == Destroy(c);
    assert QueueOf(Popped(loops, l)[l]) == q[1..] && q[1..][j - 1] == Destroy(c);
  }

  lemma RunTaskKeepsCore(s: State, l: nat)
    requires Inv(s) && Enabled(s, RunTask(l))
    ensures Core(Apply(s, RunTask(l)))
  {
    PopQueue(s.roster, s.loops, l);
    if s.loops[l].batch[0].Use? { UseIsOwned(s, l); }
    ExecKeepsCore(Popping(s, l), l, s.loops[l].batch[0]);
  }

  /** What a loop's record becomes. */
  function LoopStep(x: Loop, a: Action): Loop
    requires a.BeginDispatch? || a.EndDispatch? || a.SwapTasks?
  {
    if a.BeginDispatch? then x.(dispatching := true)
    else if a.EndDispatch? then x.(dispatching := false)
    else Loop(false, x.pending, [])
  }

  lemma LoopStepIs(s: State, a: Action)
    requires Enabled(s, a) && (a.BeginDispatch? || a.EndDispatch? || a.SwapTasks?)
    ensures a.l < |s.loops| && Apply(s, a) == s.(loops := s.loops[a.l := LoopStep(s.loops[a.l], a)])
    ensures QueueOf(LoopStep(s.loops[a.l], a)) == QueueOf(s.loops[a.l])
  {
  }

  lemma LoopStepKeepsCore(s: State, a: Action)
    requires Core(s) && Enabled(s, a) && (a.BeginDispatch? || a.EndDispatch? || a.SwapTasks?)
    ensures Core(Apply(s, a))
  {
    LoopStepIs(s, a);
    assert Tidy(s.loops[a.l]);
    SameQueues(s.roster, s.loops, a.l, LoopStep(s.loops[a.l], a));
  }

  lemma StepKeepsCore(s: State, a: Action)
    requires Inv(s) && Enabled(s, a) && Room(s, a) && !ClosesTwice(a)
    ensures Core(Apply(s, a))
  {
    match a
    case Accept(_, _) => AcceptKeepsCore(s, a);
    case Event(_, _, _) => EventKeepsCore(s, a);
    case PostSend(c) => PostSendKeepsCore(s, c);
    case AskShutdown(c, remote) => AskShutdownKeepsCore(s, c, remote);
    case RunTask(l) => RunTaskKeepsCore(s, l);
    case _ => LoopStepKeepsCore(s, a);
  }

  /* ---------------------------------------------------------------- addresses stay valid */

  /** Nothing happens to the connection that matters to functors that use it. */
  predicate Onward(r: Roster, r': Roster, c: ConnId)
    requires c in r.conns
  {
    && c in r'.conns && r'.conns[c].loop == r.conns[c].loop
    && (StageOf(r', c) == StageOf(r, c) || (StageOf(r, c) == Up && StageOf(r', c) == Closed))
  }

  lemma RosterKeepsUses(r: Roster, r': Roster, loops: seq<Loop>)
    requires UsesOk(r, loops)
    requires forall c :: c in r.conns && StageOf(r, c) in {Up, Closed, Leaving} ==> Onward(r, r', c)
    ensures UsesOk(r', loops)
  {
    forall l, i | 0 <= l < |loops| && 0 <= i < |QueueOf(loops[l])| ensures UseOk(r', QueueOf(loops[l]), l, i) {
      assert UseOk(r, QueueOf(loops[l]), l, i);
    }
  }

  lemma BehindExtends(q: seq<Task>, t: Task, i: nat, c: ConnId)
    requires i < |q|
    ensures DestroyBehind(q, i, c) ==> DestroyBehind(q + [t], i, c)
    ensures t == Destroy(c) ==> DestroyBehind(q + [t], i, c)
  {
    assert (q + [t])[|q|] == t;
    if DestroyBehind(q, i, c) {
      var j :| i < j < |q| && q[j] == Destroy(c);
      assert (q + [t])[j] == Destroy(c);
    }
  }

  /** A functor joins a queue: one that uses a connection only while that is up. */
  lemma PushKeepsUses(r: Roster, loops: seq<Loop>, l: nat, t: Task)
    requires UsesOk(r, loops) && l < |loops|
    requires t.Use? ==> t.c in r.conns && r.conns[t.c].loop == l && StageOf(r, t.c) == Up
    ensures UsesOk(r, Pushed(loops, l, t))
  {
    var loops', q := Pushed(loops, l, t), QueueOf(loops[l]);
    assert QueueOf(loops'[l]) == q + [t];
    forall k, i | 0 <= k < |loops'| && 0 <= i < |QueueOf(loops'[k])| ensures UseOk(r, QueueOf(loops'[k]), k, i) {
      if k != l {
        assert UseOk(r, QueueOf(loops[k]), k, i);
      } else if i < |q| {
        assert UseOk(r, q, l, i) && (q + [t])[i] == q[i];
        BehindExtends(q, t, i, q[i].c);
      }
    }
  }

  /** Leaving the map, with the functor that gives the connection up put behind all others. */
  lemma RemoveKeepsUses(r: Roster, r': Roster, loops: seq<Loop>, c: ConnId)
    requires UsesOk(r, loops) && c in r.conns && r.conns[c].loop < |loops|
    requires forall d :: d in r.conns && d != c ==> Onward(r, r', d)
    requires c in r'.conns && r'.conns[c].loop == r.conns[c].loop && StageOf(r', c) == Leaving
    ensures UsesOk(r', Pushed(loops, r.conns[c].loop, Destroy(c)))
  {
    var l := r.conns[c].loop;
    var loops', q := Pushed(loops, l, Destroy(c)), QueueOf(loops[l]);
    assert QueueOf(loops'[l]) == q + [Destroy(c)];
    forall k, i | 0 <= k < |loops'| && 0 <= i < |QueueOf(loops'[k])| ensures UseOk(r', QueueOf(loops'[k]), k, i) {
      if k != l {
        assert UseOk(r, QueueOf(loops[k]), k, i);
      } else if i < |q| {
        assert UseOk(r, q, l, i) && (q + [Destroy(c)])[i] == q[i];
        BehindExtends(q, Destroy(c), i, q[i].c);
      }
    }
  }

  /** Giving a connection up: no functor uses it any more. */
  lemma GiveUpKeepsUses(r: Roster, r': Roster, loops: seq<Loop>, c: ConnId)
    requires UsesOk(r, loops) && c in r.conns && StageOf(r, c) == Leaving
    requires forall l: nat :: !Queued(loops, l, Destroy(c))
    requires forall d :: d in r.conns && d != c ==> Onward(r, r', d)
    ensures UsesOk(r', loops)
  {
    forall l, i | 0 <= l < |loops| && 0 <= i < |QueueOf(loops[l])| ensures UseOk(r', QueueOf(loops[l]), l, i) {
      assert !Queued(loops, l, Destroy(c));
      assert UseOk(r, QueueOf(loops[l]), l, i);
      NoneBehind(QueueOf(loops[l]), i, c);
    }
  }

  lemma NoneBehind(q: seq<Task>, i: nat, c: ConnId)
    requires Destroy(c) !in q
    ensures !DestroyBehind(q, i, c)
  {
    assert forall j :: i < j < |q| ==> q[j] != Destroy(c);
  }

  lemma PopKeepsUses(r: Roster, loops: seq<Loop>, l: nat)
    requires UsesOk(r, loops) && l < |loops| && loops[l].batch != []
    ensures UsesOk(r, Popped(loops, l))
  {
    var loops', q := Popped(loops, l), QueueOf(loops[l]);
    assert QueueOf(loops'[l]) == q[1..];
    forall k, i | 0 <= k < |loops'| && 0 <= i < |QueueOf(loops'[k])| ensures UseOk(r, QueueOf(loops'[k]), k, i) {
      if k != l {
        assert UseOk(r, QueueOf(loops[k]), k, i);
      } else {
        assert UseOk(r, q, l, i + 1) && q[1..][i] == q[i + 1];
        if DestroyBehind(q, i + 1, q[i + 1].c) {
          var j :| i + 1 < j < |q| && q[j] == Destroy(q[i + 1].c);
          assert q[1..][j - 1] == q[j];
        }
      }
    }
  }

  lemma LoopStepKeepsUses(s: State, a: Action)
    requires UsesOk(s.roster, s.loops) && Enabled(s, a) && (a.BeginDispatch? || a.EndDispatch? || a.SwapTasks?)
    ensures UsesOk(Apply(s, a).roster, Apply(s, a).loops)
  {
    LoopStepIs(s, a);
    var loops' := Apply(s, a).loops;
    forall k, i | 0 <= k < |loops'| && 0 <= i < |QueueOf(loops'[k])| ensures UseOk(s.roster, QueueOf(loops'[k]), k, i) {
      assert UseOk(s.roster, QueueOf(s.loops[k]), k, i);
    }
  }

  lemma UpdateOnward(r: Roster, c: ConnId, rec: Record)
    requires c in r.conns && rec.name == r.conns[c].name
    ensures forall d :: d in r.conns && d != c ==> Onward(r, Update(r, c, rec), d)
  {
  }

  lemma BringUpKeepsUses(s: State, l: nat, c: ConnId)
    requires InvBut(s, Due(l, BringUp(c))) && UsesOk(s.roster, s.loops)
    ensures UsesOk(Exec(s, l, BringUp(c)).roster, Exec(s, l, BringUp(c)).loops)
  {
    assert IsDue(s.roster, l, BringUp(c)) && RecordOk(s.roster, c, |s.loops|);
    UpdateOnward(s.roster, c, UpRecord(s.roster.conns[c]));
    RosterKeepsUses(s.roster, Update(s.roster, c, UpRecord(s.roster.conns[c])), s.loops);
  }

  lemma ErasedOnward(r: Roster, c: ConnId, n: nat)
    requires RosterOk(r, n) && c in r.conns && StageOf(r, c) == Closed
    ensures var r' := Erased(r, r.conns[c].name);
            StageOf(r', c) == Leaving && forall d :: d in r.conns && d != c ==> Onward(r, r', d)
  {
    assert RecordOk(r, c, n);
    forall d | d in r.conns && d != c ensures Onward(r, Erased(r, r.conns[c].name), d) {
      EraseKeepsOthers(r, c, d, n);
    }
  }

  lemma RemoveFromMapKeepsUses(s: State, l: nat, c: ConnId)
    requires InvBut(s, Due(l, RemoveFromMap(c))) && UsesOk(s.roster, s.loops)
    ensures UsesOk(Exec(s, l, RemoveFromMap(c)).roster, Exec(s, l, RemoveFromMap(c)).loops)
  {
    assert IsDue(s.roster, l, RemoveFromMap(c)) && RecordOk(s.roster, c, |s.loops|);
    ErasedOnward(s.roster, c, |s.loops|);
    RemoveKeepsUses(s.roster, Erased(s.roster, s.roster.conns[c].name), s.loops, c);
  }

  lemma DestroyKeepsUses(s: State, l: nat, c: ConnId)
    requires InvBut(s, Due(l, Destroy(c))) && UsesOk(s.roster, s.loops)
    ensures UsesOk(Exec(s, l, Destroy(c)).roster, Exec(s, l, Destroy(c)).loops)
  {
    assert IsDue(s.roster, l, Destroy(c)) && RecordOk(s.roster, c, |s.loops|);
    UpdateOnward(s.roster, c, s.roster.conns[c].(reg := New));
    forall k: nat ensures !Queued(s.loops, k, Destroy(c)) {
      assert !(IsDue(s.roster, k, Destroy(c)) && Due(l, Destroy(c)) != Due(k, Destroy(c)));
    }
    GiveUpKeepsUses(s.roster, Update(s.roster, c, s.roster.conns[c].(reg := New)), s.loops, c);
  }

  lemma ExecKeepsUses(s: State, l: nat, t: Task)
    requires InvBut(s, HandOf(l, t)) && UsesOk(s.roster, s.loops) && l < |s.loops|
    ensures UsesOk(Exec(s, l, t).roster, Exec(s, l, t).loops)
  {
    match t
    case BringUp(c) => BringUpKeepsUses(s, l, c);
    case RemoveFromMap(c) => RemoveFromMapKeepsUses(s, l, c);
    case Destroy(c) => DestroyKeepsUses(s, l, c);
    case Use(c) =>
  }

  lemma RunInLoopKeepsUses(s: State, l: nat, caller: nat, t: Task)
    requires InvBut(s, Due(l, t)) && UsesOk(s.roster, s.loops) && !t.Use?
    ensures UsesOk(RunInLoop(s, l, caller, t).roster, RunInLoop(s, l, caller, t).loops)
  {
    if l == caller { ExecKeepsUses(s, l, t); } else { PushKeepsUses(s.roster, s.loops, l, t); }
  }

  lemma CreatedOnward(r: Roster, l: nat, rest: string, n: nat)
    requires RosterOk(r, n) && r.nextId < WRAP
    ensures forall d :: d in r.conns ==> Onward(r, Created(r, l, rest), d)
  {
    forall d | d in r.conns ensures Onward(r, Created(r, l, rest), d) {
      CreateKeepsOthers(r, l, rest, d, n);
    }
  }

  lemma AcceptKeepsUses(s: State, a: Action)
    requires Inv(s) && Enabled(s, a) && a.Accept? && s.roster.nextId < WRAP
    ensures UsesOk(Apply(s, a).roster, Apply(s, a).loops)
  {
    CreateKeepsCore(s, a.loop, a.rest);
    CreatedOnward(s.roster, a.loop, a.rest, |s.loops|);
    RosterKeepsUses(s.roster, Created(s.roster, a.loop, a.rest), s.loops);
    RunInLoopKeepsUses(s.(roster := Created(s.roster, a.loop, a.rest)), a.loop, 0, BringUp(s.roster.nextId));
  }

  lemma CloseKeepsUses(s: State, c: ConnId)
    requires Inv(s) && c in s.roster.conns && s.roster.conns[c].reg == Added
    ensures UsesOk(Close(s, c).roster, Close(s, c).loops)
  {
    var rec := s.roster.conns[c];
    assert RecordOk(s.roster, c, |s.loops|);
    UpdateKeepsCore(s, c, ClosedRecord(rec));
    UpdateOnward(s.roster, c, ClosedRecord(rec));
    RosterKeepsUses(s.roster, Update(s.roster, c, ClosedRecord(rec)), s.loops);
    RunInLoopKeepsUses(s.(roster := Update(s.roster, c, ClosedRecord(rec))), 0, rec.loop, RemoveFromMap(c));
  }

  lemma EventKeepsUses(s: State, a: Action)
    requires Inv(s) && Enabled(s, a) && a.Event? && !ClosesTwice(a)
    ensures UsesOk(Apply(s, a).roster, Apply(s, a).loops)
  {
    EventCloses(s, a);
    CloseKeepsUses(s, a.c);
  }

  lemma AskShutdownKeepsUses(s: State, c: ConnId, remote: bool)
    requires Inv(s) && Enabled(s, AskShutdown(c, remote))
    ensures UsesOk(Apply(s, AskShutdown(c, remote)).roster, Apply(s, AskShutdown(c, remote)).loops)
  {
    var rec := s.roster.conns[c];
    if rec.state == Connected {
      var r' := Update(s.roster, c, rec.(state := Disconnecting));
      UpdateOnward(s.roster, c, rec.(state := Disconnecting));
      RosterKeepsUses(s.roster, r', s.loops);
      PushKeepsUses(r', s.loops, rec.loop, Use(c));
    }
  }

  lemma PostSendKeepsUses(s: State, c: ConnId)
    requires Inv(s) && Enabled(s, PostSend(c))
    ensures UsesOk(Apply(s, PostSend(c)).roster, Apply(s, PostSend(c)).loops)
  {
    if s.roster.conns[c].state == Connected { PushKeepsUses(s.roster, s.loops, s.roster.conns[c].loop, Use(c)); }
  }

  lemma RunTaskKeepsUses(s: State, l: nat)
    requires Inv(s) && Enabled(s, RunTask(l))
    ensures UsesOk(Apply(s, RunTask(l)).roster, Apply(s, RunTask(l)).loops)
  {
    PopQueue(s.roster, s.loops, l);
    PopKeepsUses(s.roster, s.loops, l);
    ExecKeepsUses(Popping(s, l), l, s.loops[l].batch[0]);
  }

  lemma StepKeepsUses(s: State, a: Action)
    requires Inv(s) && Enabled(s, a) && Room(s, a) && !ClosesTwice(a)
    ensures UsesOk(Apply(s, a).roster, Apply(s, a).loops)
  {
    match a
    case Accept(_, _) => AcceptKeepsUses(s, a);
    case Event(_, _, _) => EventKeepsUses(s, a);
    case PostSend(c) => PostSendKeepsUses(s, c);
    case AskShutdown(c, remote) => AskShutdownKeepsUses(s, c, remote);
    case RunTask(l) => RunTaskKeepsUses(s, l);
    case _ => LoopStepKeepsUses(s, a);
  }

  /* ---------------------------------------------------------------- whole runs */

  lemma StepKeepsInv(s: State, a: Action)
    requires Inv(s) && Enabled(s, a) && Room(s, a) && !ClosesTwice(a)
    ensures Inv(Apply(s, a))
  {
    StepKeepsCore(s, a);
    StepKeepsUses(s, a);
  }

  /* ---------------------------------------------------------------- the life of one connection */

  /** A hang-up without input, or reading the end of the stream. */
  predicate ClosingEvent(a: Action) {
    && a.Event?
    && ((Hup in a.revents && In !in a.revents) || (a.eof && (In in a.revents || Pri in a.revents)))
  }

  function StageAfter(t: Task, stage: Stage): Stage {
    match t
    case BringUp(_) => Up
    case RemoveFromMap(_) => Leaving
    case Destroy(_) => Gone
    case Use(_) => stage
  }

  /** Where one handleClose brings a connection of the given loop. */
  function ClosedStage(stage: Stage, closing: bool, loop: nat): Stage {
    if !closing then stage else if loop == 0 then Leaving else Closed
  }

  /** What a step makes of a connection: only closing events and its own functors move it on. */
  function NextStage(s: State, a: Action, c: ConnId): Stage
    requires Enabled(s, a) && c in s.roster.conns
  {
    var stage := StageOf(s.roster, c);
    match a
    case Event(d, _, _) =>
      if d == c then ClosedStage(stage, ClosingEvent(a), s.roster.conns[c].loop) else stage
    case RunTask(l) =>
      var t := s.loops[l].batch[0];
      if t.c == c then StageAfter(t, stage) else stage
    case _ => stage
  }

  /** A connection's record in two rosters, but for what its stage and shutdown() change. */
  predicate SameConnection(r: Roster, r': Roster, c: ConnId)
    requires c in r.conns
  {
    c in r'.conns && r'.conns[c].name == r.conns[c].name && r'.conns[c].loop == r.conns[c].loop
  }

  lemma UpdateStages(r: Roster, c: ConnId, rec: Record)
    requires c in r.conns && rec.name == r.conns[c].name && rec.loop == r.conns[c].loop
    ensures InMap(Update(r, c, rec), c) == InMap(r, c)
    ensures forall d :: d in r.conns ==> SameConnection(r, Update(r, c, rec), d)
    ensures forall d :: d in r.conns && d != c ==>
              Update(r, c, rec).conns[d] == r.conns[d] && StageOf(Update(r, c, rec), d) == StageOf(r, d)
  {
  }

  lemma ErasedStages(r: Roster, c: ConnId, n: nat)
    requires RosterOk(r, n) && c in r.conns && StageOf(r, c) == Closed
    ensures var r' := Erased(r, r.conns[c].name);
            && r'.conns == r.conns && StageOf(r', c) == Leaving
            && forall d :: d in r.conns && d != c ==> StageOf(r', d) == StageOf(r, d)
  {
    ErasedOnward(r, c, n);
    forall d | d in r.conns && d != c ensures StageOf(Erased(r, r.conns[c].name), d) == StageOf(r, d) {
      EraseKeepsOthers(r, c, d, n);
    }
  }

  /** The roster after a step, seen by connection `c`: `c` goes to `stage`, the others stay as they are. */
  ghost predicate OnlyMoves(r: Roster, r': Roster, c: ConnId, stage: Stage)
    requires c in r.conns
  {
    && c in r'.conns && StageOf(r', c) == stage
    && (forall d :: d in r.conns ==> SameConnection(r, r', d))
    && (forall d :: d in r.conns && d != c ==> r'.conns[d] == r.conns[d] && StageOf(r', d) == StageOf(r, d))
  }

  lemma ExecStages(s: State, l: nat, t: Task)
    requires InvBut(s, HandOf(l, t)) && l < |s.loops|
    requires t.Use? ==> t.c in s.roster.conns && s.roster.conns[t.c].loop == l && Owned(s, t.c)
    ensures t.c in s.roster.conns
    ensures OnlyMoves(s.roster, Exec(s, l, t).roster, t.c, StageAfter(t, StageOf(s.roster, t.c)))
  {
    match t
    case BringUp(c) => BringUpStages(s, l, c);
    case RemoveFromMap(c) => RemoveStages(s, l, c);
    case Destroy(c) => DestroyStages(s, l, c);
    case Use(c) =>
  }

  lemma BringUpStages(s: State, l: nat, c: ConnId)
    requires InvBut(s, Due(l, BringUp(c)))
    ensures c in s.roster.conns && OnlyMoves(s.roster, Exec(s, l, BringUp(c)).roster, c, Up)
  {
    assert IsDue(s.roster, l, BringUp(c));
    UpdateStages(s.roster, c, UpRecord(s.roster.conns[c]));
  }

  lemma RemoveStages(s: State, l: nat, c: ConnId)
    requires InvBut(s, Due(l, RemoveFromMap(c)))
    ensures c in s.roster.conns && OnlyMoves(s.roster, Exec(s, l, RemoveFromMap(c)).roster, c, Leaving)
  {
    assert IsDue(s.roster, l, RemoveFromMap(c)) && RecordOk(s.roster, c, |s.loops|);
    ErasedStages(s.roster, c, |s.loops|);
  }

  lemma DestroyStages(s: State, l: nat, c: ConnId)
    requires InvBut(s, Due(l, Destroy(c)))
    ensures c in s.roster.conns && OnlyMoves(s.roster, Exec(s, l, Destroy(c)).roster, c, Gone)
  {
    assert IsDue(s.roster, l, Destroy(c)) && RecordOk(s.roster, c, |s.loops|);
    UpdateStages(s.roster, c, s.roster.conns[c].(reg := New));
  }

  lemma CloseStages(s: State, c: ConnId)
    requires Inv(s) && c in s.roster.conns && s.roster.conns[c].reg == Added
    ensures OnlyMoves(s.roster, Close(s, c).roster, c, if s.roster.conns[c].loop == 0 then Leaving else Closed)
  {
    var rec := s.roster.conns[c];
    assert RecordOk(s.roster, c, |s.loops|);
    UpdateStages(s.roster, c, ClosedRecord(rec));
    UpdateKeepsCore(s, c, ClosedRecord(rec));
    var s1 := s.(roster := Update(s.roster, c, ClosedRecord(rec)));
    assert StageOf(s1.roster, c) == Closed;
    if rec.loop == 0 { RemoveStages(s1, 0, c); }
  }

  lemma EventStages(s: State, a: Action)
    requires Inv(s) && Enabled(s, a) && a.Event? && !ClosesTwice(a)
    ensures OnlyMoves(s.roster, Apply(s, a).roster, a.c,
                      ClosedStage(StageOf(s.roster, a.c), ClosingEvent(a), s.roster.conns[a.c].loop))
  {
    EventCloses(s, a);
    EventCount(s, a);
    CloseTimesStages(s, a.c, Closes(a.revents, a.eof));
  }

  lemma EventCount(s: State, a: Action)
    requires Enabled(s, a) && a.Event? && !ClosesTwice(a)
    ensures Closes(a.revents, a.eof) == if ClosingEvent(a) then 1 else 0
  {
    OneClose(a);
  }

  lemma CloseTimesStages(s: State, c: ConnId, n: nat)
    requires Inv(s) && c in s.roster.conns && s.roster.conns[c].reg == Added && n <= 1
    ensures OnlyMoves(s.roster, CloseTimes(s, c, n).roster, c,
                      ClosedStage(StageOf(s.roster, c), n == 1, s.roster.conns[c].loop))
  {
    if n == 1 { CloseStages(s, c); }
  }

  lemma OneClose(a: Action)
    requires a.Event? && RdHup !in a.revents && !ClosesTwice(a)
    ensures Closes(a.revents, a.eof) == if ClosingEvent(a) then 1 else 0
  {
  }

  lemma RunTaskStages(s: State, l: nat)
    requires Inv(s) && Enabled(s, RunTask(l))
    ensures var t := s.loops[l].batch[0];
            t.c in s.roster.conns
            && OnlyMoves(s.roster, Apply(s, RunTask(l)).roster, t.c, StageAfter(t, StageOf(s.roster, t.c)))
  {
    PopQueue(s.roster, s.loops, l);
    if s.loops[l].batch[0].Use? { UseIsOwned(s, l); }
    ExecStages(Popping(s, l), l, s.loops[l].batch[0]);
  }

  lemma AcceptStages(s: State, a: Action, c: ConnId)
    requires Inv(s) && Enabled(s, a) && a.Accept? && s.roster.nextId < WRAP && c in s.roster.conns
    ensures var r' := Apply(s, a).roster;
            c in r'.conns && r'.conns[c] == s.roster.conns[c] && StageOf(r', c) == StageOf(s.roster, c)
  {
    var n, r1 := s.roster.nextId, Created(s.roster, a.loop, a.rest);
    CreateKeepsOthers(s.roster, a.loop, a.rest, c, |s.loops|);
    CreateKeepsCore(s, a.loop, a.rest);
    if a.loop == 0 { BringUpStages(s.(roster := r1), 0, n); }
  }

  lemma ShutdownStages(s: State, c: ConnId, remote: bool)
    requires Inv(s) && Enabled(s, AskShutdown(c, remote))
    ensures OnlyMoves(s.roster, Apply(s, AskShutdown(c, remote)).roster, c, StageOf(s.roster, c))
    ensures var was, now := s.roster.conns[c], Apply(s, AskShutdown(c, remote)).roster.conns[c];
            now == was.(state := if was.state == Connected then Disconnecting else was.state)
  {
    if s.roster.conns[c].state == Connected {
      UpdateStages(s.roster, c, s.roster.conns[c].(state := Disconnecting));
    }
  }

  /** Which connection a step is about. */
  function Subject(s: State, a: Action): ConnId
    requires Enabled(s, a)
  {
    match a
    case Accept(_, _) => s.roster.nextId
    case Event(c, _, _) => c
    case PostSend(c) => c
    case AskShutdown(c, _) => c
    case RunTask(l) => s.loops[l].batch[0].c
    case _ => s.roster.nextId
  }

  /** Each step brings its connection to the next stage, if it is due, and leaves all others as they are. */
  lemma StageStep(s: State, a: Action, c: ConnId)
    requires Inv(s) && Enabled(s, a) && Room(s, a) && !ClosesTwice(a) && c in s.roster.conns
    ensures SameConnection(s.roster, Apply(s, a).roster, c)
    ensures StageOf(Apply(s, a).roster, c) == NextStage(s, a, c)
    ensures c != Subject(s, a) ==> Apply(s, a).roster.conns[c] == s.roster.conns[c]
  {
    match a
    case Accept(_, _) => AcceptStages(s, a, c);
    case Event(_, _, _) => EventStages(s, a);
    case AskShutdown(d, remote) => ShutdownStages(s, d, remote);
    case RunTask(l) => RunTaskStages(s, l);
    case _ =>
  }

  /** A new connection gets the next id, its name and its loop, and is in the map. */
  lemma AcceptSpec(s: State, l: nat, rest: string)
    requires Inv(s) && Enabled(s, Accept(l, rest)) && s.roster.nextId < WRAP
    ensures var c, r' := s.roster.nextId, Apply(s, Accept(l, rest)).roster;
            && r'.nextId == c + 1 && c !in s.roster.conns && c in r'.conns && InMap(r', c)
            && r'.conns[c].name == ConnName(c, rest) && r'.conns[c].loop == l
            && StageOf(r', c) == if l == 0 then Up else Fresh
  {
    var c, r1 := s.roster.nextId, Created(s.roster, l, rest);
    CreateKeepsCore(s, l, rest);
    if l == 0 { BringUpStages(s.(roster := r1), 0, c); UpdateStages(r1, c, UpRecord(r1.conns[c])); }
  }

  /** The functors that a step puts behind those queued in loop `l`. */
  function Posted(s: State, a: Action, l: nat): seq<Task>
    requires Enabled(s, a)
  {
    match a
    case Accept(loop, _) => if loop != 0 && l == loop then [BringUp(s.roster.nextId)] else []
    case Event(c, _, _) =>
      if !ClosingEvent(a) || l != 0 then []
      else if s.roster.conns[c].loop == 0 then [Destroy(c)] else [RemoveFromMap(c)]
    case PostSend(c) => if s.roster.conns[c].state == Connected && l == s.roster.conns[c].loop then [Use(c)] else []
    case AskShutdown(c, remote) =>
      if remote && s.roster.conns[c].state == Connected && l == s.roster.conns[c].loop then [Use(c)] else []
    case RunTask(k) =>
      var t := s.loops[k].batch[0];
      if t.RemoveFromMap? && t.c in s.roster.conns && l == s.roster.conns[t.c].loop then [Destroy(t.c)] else []
    case _ => []
  }

  /** Queues are first in, first out: a step takes at most the first functor, and adds only behind the last. */
  lemma QueueStep(s: State, a: Action, l: nat)
    requires Inv(s) && Enabled(s, a) && Room(s, a) && !ClosesTwice(a) && l < |s.loops|
    ensures |Apply(s, a).loops| == |s.loops|
    ensures QueueOf(Apply(s, a).loops[l])
            == (if a == RunTask(l) then QueueOf(s.loops[l])[1..] else QueueOf(s.loops[l])) + Posted(s, a, l)
  {
    match a
    case Accept(_, _) => AcceptQueues(s, a, l);
    case Event(_, _, _) => EventQueues(s, a, l);
    case RunTask(k) => RunTaskQueues(s, k, l);
    case PostSend(_) => PostQueues(s, a, l);
    case AskShutdown(_, _) => PostQueues(s, a, l);
    case _ => LoopStepIs(s, a);
  }

  lemma AcceptQueues(s: State, a: Action, l: nat)
    requires Inv(s) && Enabled(s, a) && a.Accept? && s.roster.nextId < WRAP && l < |s.loops|
    ensures |Apply(s, a).loops| == |s.loops|
    ensures QueueOf(Apply(s, a).loops[l]) == QueueOf(s.loops[l]) + Posted(s, a, l)
  {
    if a.loop != 0 { PushedQueue(s.loops, a.loop, BringUp(s.roster.nextId), l); }
  }

  lemma PushedQueue(loops: seq<Loop>, l: nat, t: Task, k: nat)
    requires l < |loops| && k < |loops|
    ensures QueueOf(Pushed(loops, l, t)[k]) == QueueOf(loops[k]) + if k == l then [t] else []
  {
  }

  lemma EventQueues(s: State, a: Action, l: nat)
    requires Inv(s) && Enabled(s, a) && a.Event? && !ClosesTwice(a) && l < |s.loops|
    ensures |Apply(s, a).loops| == |s.loops|
    ensures QueueOf(Apply(s, a).loops[l]) == QueueOf(s.loops[l]) + Posted(s, a, l)
  {
    EventCloses(s, a);
    EventCount(s, a);
    CloseQueues(s, a, l);
  }

  lemma PostQueues(s: State, a: Action, l: nat)
    requires Inv(s) && Enabled(s, a) && (a.PostSend? || a.AskShutdown?) && l < |s.loops|
    ensures |Apply(s, a).loops| == |s.loops|
    ensures QueueOf(Apply(s, a).loops[l]) == QueueOf(s.loops[l]) + Posted(s, a, l)
  {
    PushedQueue(s.loops, s.roster.conns[a.c].loop, Use(a.c), l);
  }

  lemma CloseQueues(s: State, a: Action, l: nat)
    requires Inv(s) && Enabled(s, a) && a.Event? && l < |s.loops|
    requires Closes(a.revents, a.eof) == if ClosingEvent(a) then 1 else 0
    requires Apply(s, a) == CloseTimes(s, a.c, Closes(a.revents, a.eof))
    ensures |Apply(s, a).loops| == |s.loops|
    ensures QueueOf(Apply(s, a).loops[l]) == QueueOf(s.loops[l]) + Posted(s, a, l)
  {
    var rec := s.roster.conns[a.c];
    assert RecordOk(s.roster, a.c, |s.loops|);
    PushedQueue(s.loops, 0, if rec.loop == 0 then Destroy(a.c) else RemoveFromMap(a.c), l);
  }

  lemma RunTaskQueues(s: State, k: nat, l: nat)
    requires Inv(s) && Enabled(s, RunTask(k)) && l < |s.loops|
    ensures |Apply(s, RunTask(k)).loops| == |s.loops|
    ensures QueueOf(Apply(s, RunTask(k)).loops[l])
            == (if k == l then QueueOf(s.loops[l])[1..] else QueueOf(s.loops[l])) + Posted(s, RunTask(k), l)
  {
    var t, loops := s.loops[k].batch[0], Popped(s.loops, k);
    TaskFits(s, k);
    assert RecordOk(s.roster, t.c, |s.loops|);
    assert QueueOf(loops[k]) == QueueOf(s.loops[k])[1..];
    if t.RemoveFromMap? {
      RemoveIsFirst(s, k);
      PushedQueue(loops, s.roster.conns[t.c].loop, Destroy(t.c), l);
    }
  }

  lemma RemoveIsFirst(s: State, k: nat)
    requires Inv(s) && Enabled(s, RunTask(k)) && s.loops[k].batch[0].RemoveFromMap?
    ensures k == 0
  {
    var t := s.loops[k].batch[0];
    assert Queued(s.loops, k, t) && IsDue(s.roster, k, t);
  }

  /** A channel leaves its poller only in a functor of its own loop, never while that handles events. */
  lemma RemovedWhen(s: State, a: Action, c: ConnId)
    requires Inv(s) && Enabled(s, a) && Room(s, a) && !ClosesTwice(a) && c in s.roster.conns
    requires c in Apply(s, a).roster.conns
    requires s.roster.conns[c].reg != New && Apply(s, a).roster.conns[c].reg == New
    ensures a == RunTask(s.roster.conns[c].loop) && !s.loops[s.roster.conns[c].loop].dispatching
    ensures s.loops[s.roster.conns[c].loop].batch[0] == Destroy(c)
  {
    StageStep(s, a, c);
    StepKeepsInv(s, a);
    assert RecordOk(s.roster, c, |s.loops|) && RecordOk(Apply(s, a).roster, c, |s.loops|) by { LoopsStay(s, a); }
    if a.RunTask? { TaskFits(s, a.l); TaskLoop(s, a.l); }
  }

  lemma LoopsStay(s: State, a: Action)
    requires Inv(s) && Enabled(s, a) && Room(s, a) && !ClosesTwice(a)
    ensures |Apply(s, a).loops| == |s.loops|
  {
    QueueStep(s, a, 0);
  }

  lemma TaskLoop(s: State, l: nat)
    requires Inv(s) && Enabled(s, RunTask(l)) && s.loops[l].batch[0].Destroy?
    ensures s.loops[l].batch[0].c in s.roster.conns && s.roster.conns[s.loops[l].batch[0].c].loop == l
  {
    var t := s.loops[l].batch[0];
    assert Queued(s.loops, l, t) && IsDue(s.roster, l, t);
  }

  ghost predicate IsClosed(s: State, c: ConnId) {
    c in s.roster.conns && StageOf(s.roster, c) in {Closed, Leaving, Gone}
  }

  ghost predicate SomeClosing(run: seq<Action>, c: ConnId) {
    exists i :: 0 <= i < |run| && ClosingEvent(run[i]) && run[i].c == c
  }

  lemma ClosedStep(s: State, a: Action, c: ConnId)
    requires Inv(s) && Enabled(s, a) && Room(s, a) && !ClosesTwice(a)
    ensures IsClosed(Apply(s, a), c) <==> IsClosed(s, c) || (ClosingEvent(a) && a.c == c)
  {
    if c in s.roster.conns {
      StageStep(s, a, c);
      if a.RunTask? { TaskFits(s, a.l); }
    } else {
      NewStage(s, a, c);
    }
  }

  lemma TaskFits(s: State, l: nat)
    requires Inv(s) && Enabled(s, RunTask(l))
    ensures var t := s.loops[l].batch[0];
            && t.c in s.roster.conns
            && (t.BringUp? ==> StageOf(s.roster, t.c) == Fresh)
            && (t.RemoveFromMap? ==> StageOf(s.roster, t.c) == Closed)
            && (t.Destroy? ==> StageOf(s.roster, t.c) == Leaving)
  {
    var t := s.loops[l].batch[0];
    assert Queued(s.loops, l, t);
    if t.Use? { UseIsOwned(s, l); } else { assert IsDue(s.roster, l, t); }
  }

  lemma NewStage(s: State, a: Action, c: ConnId)
    requires Inv(s) && Enabled(s, a) && Room(s, a) && !ClosesTwice(a) && c !in s.roster.conns
    ensures !IsClosed(Apply(s, a), c)
  {
    match a
    case Accept(l, rest) => AcceptSpec(s, l, rest); AcceptsOne(s, l, rest);
    case Event(_, _, _) => EventStages(s, a); EventConns(s, a);
    case RunTask(l) => RunTaskStages(s, l); TaskConns(s, l);
    case AskShutdown(d, remote) =>
    case _ =>
  }

  lemma AcceptsOne(s: State, l: nat, rest: string)
    requires Inv(s) && Enabled(s, Accept(l, rest)) && s.roster.nextId < WRAP
    ensures Apply(s, Accept(l, rest)).roster.conns.Keys == s.roster.conns.Keys + {s.roster.nextId}
  {
  }

  lemma EventConns(s: State, a: Action)
    requires Inv(s) && Enabled(s, a) && a.Event?
    ensures Apply(s, a).roster.conns.Keys == s.roster.conns.Keys
  {
    EventCloses(s, a);
    CloseConns(s, a.c);
    CloseConns(Close(s, a.c), a.c);
  }

  lemma CloseConns(s: State, c: ConnId)
    requires |s.loops| > 0
    ensures Close(s, c).roster.conns.Keys == s.roster.conns.Keys
  {
  }

  lemma TaskConns(s: State, l: nat)
    requires Enabled(s, RunTask(l))
    ensures Apply(s, RunTask(l)).roster.conns.Keys == s.roster.conns.Keys
  {
  }

  lemma {:induction false} ClosedFrom(s: State, run: seq<Action>, c: ConnId)
    requires Inv(s) && LegalFrom(s, run) && s.roster.nextId + Accepts(run) <= WRAP && Calm(run)
    ensures IsClosed(After(s, run), c) <==> IsClosed(s, c) || SomeClosing(run, c)
    decreases |run|
  {
    if run != [] {
      assert run[0] in run && run == [run[0]] + run[1..];
      StepKeepsInv(s, run[0]);
      NextIdCounts(s, run[0]);
      ClosedStep(s, run[0], c);
      ClosingSplits(run, c);
      ClosedFrom(Apply(s, run[0]), run[1..], c);
    }
  }

  lemma ClosingSplits(run: seq<Action>, c: ConnId)
    requires run != []
    ensures SomeClosing(run, c) <==> (ClosingEvent(run[0]) && run[0].c == c) || SomeClosing(run[1..], c)
  {
    assert forall i :: 0 <= i < |run[1..]| ==> run[1..][i] == run[i + 1];
    assert forall i :: 0 < i < |run| ==> run[i] == run[1..][i - 1];
  }

  /** The user is told that a connection is down exactly when an event has closed that very connection. */
  lemma DownIff(n: nat, run: seq<Action>, c: ConnId)
    requires n > 0 && LegalFrom(Init(n), run) && Accepts(run) <= WRAP && Calm(run)
    requires c in After(Init(n), run).roster.conns
    ensures After(Init(n), run).roster.conns[c].downs == 1 <==> SomeClosing(run, c)
  {
    RunKeepsInv(Init(n), run);
    ClosedFrom(Init(n), run, c);
    var s := After(Init(n), run);
    assert RecordOk(s.roster, c, |s.loops|);
  }

  lemma CloseTwiceCrashes(s: State, c: ConnId)
    requires |s.loops| > 0 && c in s.roster.conns
    ensures Close(Close(s, c), c).crashed
  {
    assert Close(s, c).crashed || Close(s, c).roster.conns[c].state == Disconnected;
  }

  lemma EventCrashes(s: State, a: Action)
    requires |s.loops| > 0 && Enabled(s, a) && ClosesTwice(a)
    ensures Apply(s, a).crashed
  {
    CloseTwiceCrashes(s, a.c);
    EventCloses(s, a);
  }

  /** The one way to fail an assertion. */
  lemma CrashIff(s: State, a: Action)
    requires Inv(s) && Enabled(s, a) && Room(s, a)
    ensures Apply(s, a).crashed <==> ClosesTwice(a)
  {
    if ClosesTwice(a) { EventCrashes(s, a); } else { StepKeepsInv(s, a); }
  }

  /** One loop, one connection, one event: the hang-up comes with urgent data. */
  function CrashRun(rest: string): seq<Action> {
    [BeginDispatch(0), Accept(0, rest), Event(0, {Hup, Pri}, true)]
  }

  lemma Crashes(rest: string)
    ensures LegalFrom(Init(1), CrashRun(rest)) && After(Init(1), CrashRun(rest)).crashed
  {
    var run := CrashRun(rest);
    var s1 := Apply(Init(1), run[0]);
    var s2 := Apply(s1, run[1]);
    assert s2.roster.conns[0] == UpRecord(Record(ConnName(0, rest), 0, Connecting, New, false, 0, 0));
    EventCrashes(s2, run[2]);
    Prefix(s2, run[2], []);
    assert [run[2]] + [] == [run[2]];
    Prefix(s1, run[1], [run[2]]);
    Prefix(Init(1), run[0], [run[1]] + [run[2]]);
    assert run == [run[0]] + ([run[1]] + [run[2]]);
  }

  lemma Prefix(s: State, a: Action, run: seq<Action>)
    requires Enabled(s, a) && LegalFrom(Apply(s, a), run)
    ensures LegalFrom(s, [a] + run) && After(s, [a] + run) == After(Apply(s, a), run)
  {
    assert ([a] + run)[1..] == run;
  }

  /** How many connections a run accepts. */
  function Accepts(run: seq<Action>): nat {
    if run == [] then 0 else (if run[0].Accept? then 1 else 0) + Accepts(run[1..])
  }

  ghost predicate Calm(run: seq<Action>) {
    forall a :: a in run ==> !ClosesTwice(a)
  }

  lemma NextIdCounts(s: State, a: Action)
    requires Enabled(s, a)
    ensures Apply(s, a).roster.nextId == s.roster.nextId + if a.Accept? then 1 else 0
  {
  }

  lemma {:induction false} RunKeepsInv(s: State, run: seq<Action>)
    requires Inv(s) && LegalFrom(s, run) && s.roster.nextId + Accepts(run) <= WRAP && Calm(run)
    ensures Inv(After(s, run))
    decreases |run|
  {
    if run != [] {
      assert run[0] in run;
      StepKeepsInv(s, run[0]);
      NextIdCounts(s, run[0]);
      RunKeepsInv(Apply(s, run[0]), run[1..]);
    }
  }

  lemma RegisteredIsOwned(s: State, c: ConnId)
    requires Inv(s) && c in s.roster.conns
    ensures s.roster.conns[c].reg != New ==> Owned(s, c)
    ensures s.roster.conns[c].downs <= s.roster.conns[c].ups <= 1
    ensures !Owned(s, c) <==> s.roster.conns[c].reg == New && s.roster.conns[c].ups == 1 == s.roster.conns[c].downs
  {
    assert RecordOk(s.roster, c, |s.loops|);
    var due := DueOf(s.roster, c);
    if due.Due? {
      assert IsDue(s.roster, due.l, due.t);
      assert Queued(s.loops, due.l, due.t);
    }
  }

  lemma QueuedIsOwned(s: State, l: nat, t: Task)
    requires Inv(s) && Queued(s.loops, l, t)
    ensures t.c in s.roster.conns && Owned(s, t.c)
  {
    if t.Use? {
      var q := QueueOf(s.loops[l]);
      var i :| 0 <= i < |q| && q[i] == t;
      assert UseOk(s.roster, q, l, i) && RecordOk(s.roster, t.c, |s.loops|);
      if StageOf(s.roster, t.c) == Leaving {
        var j :| i < j < |q| && q[j] == Destroy(t.c);
        assert Queued(s.loops, l, Destroy(t.c));
      }
    } else {
      assert IsDue(s.roster, l, t);
    }
  }

  /**
   In every run over any number of loops: no assertion fails, and no functor uses a connection that
   has been given up; a connection that a poller knows, or that any functor is queued for, is owned
   by the map or by a functor that holds a reference; each callback is made at most once, up before
   down; and no channel is removed while its loop handles events.
   */
  lemma Safety(n: nat, run: seq<Action>)
    requires n > 0 && LegalFrom(Init(n), run) && Accepts(run) <= WRAP && Calm(run)
    ensures var s := After(Init(n), run);
            && !s.crashed
            && (forall c :: c in s.roster.conns && s.roster.conns[c].reg != New ==> Owned(s, c))
            && (forall l: nat, t :: Queued(s.loops, l, t) ==> t.c in s.roster.conns && Owned(s, t.c))
            && (forall c :: c in s.roster.conns ==> s.roster.conns[c].downs <= s.roster.conns[c].ups <= 1)
            && (forall b :: b in s.removals ==> !b)
  {
    RunKeepsInv(Init(n), run);
    var s := After(Init(n), run);
    forall c | c in s.roster.conns
      ensures s.roster.conns[c].reg != New ==> Owned(s, c)
      ensures s.roster.conns[c].downs <= s.roster.conns[c].ups <= 1
    {
      RegisteredIsOwned(s, c);
    }
    forall l: nat, t | Queued(s.loops, l, t) ensures t.c in s.roster.conns && Owned(s, t.c) {
      QueuedIsOwned(s, l, t);
    }
  }

  /**
   A connection is given up exactly when it is out of its poller and both callbacks have been made.
   Until then it is in the map, or its next functor is queued.
   */
  lemma GivenUpIff(n: nat, run: seq<Action>, c: ConnId)
    requires n > 0 && LegalFrom(Init(n), run) && Accepts(run) <= WRAP && Calm(run)
    requires c in After(Init(n), run).roster.conns
    ensures var s := After(Init(n), run);
            var r := s.roster.conns[c];
            !Owned(s, c) <==> r.reg == New && r.ups == 1 == r.downs
  {
    RunKeepsInv(Init(n), run);
    RegisteredIsOwned(After(Init(n), run), c);
  }
}

/** The server: its map, the connections it made, and the queues of the loops. */
module TcpServers {
  import opened Epoll
  import OutputPath
  import opened ConnectionLife

  lemma {:induction false} AfterSnoc(s: State, run: seq<Action>, a: Action)
    requires LegalFrom(s, run) && Enabled(After(s, run), a)
    ensures LegalFrom(s, run + [a]) && After(s, run + [a]) == Apply(After(s, run), a)
    decreases |run|
  {
    if run == [] {
      assert ([] + [a])[1..] == [];
    } else {
      assert (run + [a])[1..] == run[1..] + [a];
      AfterSnoc(Apply(s, run[0]), run[1..], a);
    }
  }

  /** Taking a queue and running what was in it. */
  function Batch(l: nat, n: nat): seq<Action> {
    if n == 0 then [SwapTasks(l)] else Batch(l, n - 1) + [RunTask(l)]
  }

  class TcpServer {
    var connectionMap: map<string, ConnId>
    var conns: map<ConnId, Record>
    var nextConnId: nat
    var loops: seq<Loop>
    ghost var g: State           // the whole state, with the history

    ghost predicate Matches()
      reads this
    {
      g.roster == Roster(connectionMap, conns, nextConnId) && g.loops == loops
    }

    ghost predicate Valid()
      reads this
    {
      Matches() && Inv(g)
    }

    constructor (n: nat)
      requires n > 0
      ensures Valid() && g == Init(n)
    {
      connectionMap, conns, nextConnId, loops := map[], map[], 0, seq(n, _ => Loop(false, [], []));
      g := Init(n);
      new;
      assert g.loops == loops;
    }

    method QueueInLoop(l: nat, t: Task)
      requires Matches() && l < |loops|
      modifies this`loops, this`g
      ensures Matches() && g == Queue(old(g), l, t)
    {
      loops := loops[l := loops[l].(pending := loops[l].pending + [t])];
      g := Queue(g, l, t);
    }

    /** connectionEstablished, on loop `l`. */
    method ConnectionEstablished(l: nat, c: ConnId)
      requires Matches() && l < |loops| && c in conns && conns[c].loop == l
      modifies this`conns, this`g
      ensures Matches() && g == Exec(old(g), l, BringUp(c))
    {
      conns := conns[c := conns[c].(state := OutputPath.Connected)];
      conns := conns[c := conns[c].(waiting := true, reg := Added)];
      conns := conns[c := conns[c].(ups := conns[c].ups + 1)];
      g := Exec(g, l, BringUp(c));
    }

    /** removeConnectionInLoop, on the server's loop. */
    method RemoveConnectionInLoop(c: ConnId)
      requires Matches() && |loops| > 0 && c in conns && conns[c].loop < |loops|
      modifies this`connectionMap, this`loops, this`g
      ensures Matches() && g == Exec(old(g), 0, RemoveFromMap(c))
    {
      ghost var after := Exec(g, 0, RemoveFromMap(c));
      connectionMap := connectionMap - {conns[c].name};
      g := g.(roster := Erased(g.roster, conns[c].name));
      QueueInLoop(conns[c].loop, Destroy(c));
      g := after;
    }

    /** connectionDestroyed, on loop `l`. */
    method ConnectionDestroyed(l: nat, c: ConnId)
      requires Matches() && l < |loops| && c in conns && conns[c].loop == l
      requires conns[c].state != OutputPath.Connected ==> !conns[c].waiting && conns[c].reg != New
      modifies this`conns, this`g
      ensures Matches() && g == Exec(old(g), l, Destroy(c))
    {
      g := Exec(g, l, Destroy(c));
      if conns[c].state == OutputPath.Connected {
        conns := conns[c := conns[c].(state := OutputPath.Disconnected, waiting := false, reg := Deleted)];
        conns := conns[c := conns[c].(downs := conns[c].downs + 1)];
      }
      assert !conns[c].waiting;
      conns := conns[c := conns[c].(reg := New)];
    }

    /** What is known while functor `t` is run on loop `l`. */
    ghost predicate Running(l: nat, t: Task)
      reads this
    {
      Matches() && InvBut(g, HandOf(l, t)) && UsesOk(g.roster, g.loops) && l < |loops|
    }

    method CallFunctor(l: nat, t: Task)
      requires Running(l, t) && (t.Destroy? ==> !loops[l].dispatching)
      requires t.Use? ==> t.c in conns && conns[t.c].loop == l && Owned(g, t.c)
      modifies this
      ensures Valid() && g == Exec(old(g), l, t)
    {
      if !t.Use? { FunctorFits(g, l, t); }
      ExecKeepsCore(g, l, t);
      ExecKeepsUses(g, l, t);
      match t {
        case BringUp(c) => ConnectionEstablished(l, c);
        case RemoveFromMap(c) => RemoveConnectionInLoop(c);
        case Destroy(c) => ConnectionDestroyed(l, c);
        case Use(c) => assert Owned(g, c);
      }
    }

    /** Called on loop `caller`. */
    method RunInLoop(l: nat, caller: nat, t: Task)
      requires Running(l, t) && !t.Destroy? && !t.Use?
      modifies this
      ensures Valid() && g == ConnectionLife.RunInLoop(old(g), l, caller, t)
    {
      RunInLoopKeepsCore(g, l, caller, t);
      RunInLoopKeepsUses(g, l, caller, t);
      if l == caller {
        CallFunctor(l, t);
      } else {
        QueueInLoop(l, t);
      }
    }

    /** A connection was accepted; `ioLoop` is the loop chosen for it. */
    method HandleConnection(ioLoop: nat, rest: string)
      requires Valid() && ioLoop < |loops| && nextConnId < WRAP && loops[0].dispatching
      modifies this
      ensures Valid() && g == Apply(old(g), Accept(ioLoop, rest))
    {
      CreateKeepsCore(g, ioLoop, rest);
      CreatedOnward(g.roster, ioLoop, rest, |loops|);
      RosterKeepsUses(g.roster, Created(g.roster, ioLoop, rest), g.loops);
      var c := nextConnId;
      var connName := ConnName(c, rest);
      nextConnId := nextConnId + 1;
      conns := conns[c := Record(connName, ioLoop, OutputPath.Connecting, New, false, 0, 0)];
      connectionMap := connectionMap[connName := c];
      g := g.(roster := Created(g.roster, ioLoop, rest));
      RunInLoop(ioLoop, 0, BringUp(c));
    }

    /** handleClose of a connection: its assertion holds, and the server is asked to forget it. */
    method HandleClose(c: ConnId)
      requires Valid() && c in conns && conns[c].reg == Added
      modifies this
      ensures Valid() && g == Close(old(g), c)
    {
      ClosingFits(g, c);
      assert conns[c].state == OutputPath.Connected || conns[c].state == OutputPath.Disconnecting;
      MarkClosed(c);
      RunInLoop(0, conns[c].loop, RemoveFromMap(c));
    }

    method MarkClosed(c: ConnId)
      requires Matches() && c in conns
      modifies this`conns, this`g
      ensures Matches() && g == old(g).(roster := Update(old(g).roster, c, ClosedRecord(old(conns)[c])))
      ensures c in conns && conns[c] == ClosedRecord(old(conns)[c])
    {
      g := g.(roster := Update(g.roster, c, ClosedRecord(conns[c])));
      conns := conns[c := conns[c].(state := OutputPath.Disconnected)];
      conns := conns[c := conns[c].(waiting := false, reg := Deleted)];
      conns := conns[c := conns[c].(downs := conns[c].downs + 1)];
    }

    /** doPendingFunctors of loop `l`: exactly the functors that were queued when it began. */
    method DoPendingFunctors(l: nat)
      requires Valid() && l < |loops| && !loops[l].dispatching && loops[l].batch == []
      modifies this
      ensures Valid() && |loops| == |old(loops)| && loops[l].batch == []
      ensures LegalFrom(old(g), Batch(l, |old(loops)[l].pending|))
      ensures g == After(old(g), Batch(l, |old(loops)[l].pending|))
    {
      ghost var start := g;
      StepKeepsInv(g, SwapTasks(l));
      AfterSnoc(start, [], SwapTasks(l));
      var n := |loops[l].pending|;
      loops := loops[l := Loop(false, loops[l].pending, [])];
      g := Apply(g, SwapTasks(l));
      ghost var k := 0;
      assert [] + [SwapTasks(l)] == Batch(l, 0);
      while loops[l].batch != []
        invariant Valid() && |loops| == |old(loops)| && !loops[l].dispatching && |loops[l].batch| == n - k
        invariant LegalFrom(start, Batch(l, k)) && g == After(start, Batch(l, k))
        decreases |loops[l].batch|
      {
        AfterSnoc(start, Batch(l, k), RunTask(l));
        RunFirst(l);
        k := k + 1;
      }
    }

    method RunFirst(l: nat)
      requires Valid() && l < |loops| && !loops[l].dispatching && loops[l].batch != []
      modifies this
      ensures Valid() && g == Apply(old(g), RunTask(l))
      ensures |loops| == |old(loops)| && !loops[l].dispatching && loops[l].batch == old(loops)[l].batch[1..]
    {
      RunFits(g, l);
      var t := TakeFirst(l);
      CallFunctor(l, t);
    }

    method TakeFirst(l: nat) returns (t: Task)
      requires Matches() && l < |loops| && loops[l].batch != []
      modifies this`loops, this`g
      ensures Matches() && t == old(loops)[l].batch[0] && g == old(g).(loops := Popped(old(g).loops, l))
    {
      t := loops[l].batch[0];
      loops := loops[l := loops[l].(batch := loops[l].batch[1..])];
      g := g.(loops := Popped(g.loops, l));
    }
  }

  lemma ClosingFits(s: State, c: ConnId)
    requires Inv(s) && c in s.roster.conns && s.roster.conns[c].reg == Added
    ensures s.roster.conns[c].state in {OutputPath.Connected, OutputPath.Disconnecting}
    ensures s.roster.conns[c].loop < |s.loops|
    ensures var r' := Update(s.roster, c, ClosedRecord(s.roster.conns[c]));
            InvBut(s.(roster := r'), Due(0, RemoveFromMap(c))) && UsesOk(r', s.loops)
  {
    var rec := ClosedRecord(s.roster.conns[c]);
    assert RecordOk(s.roster, c, |s.loops|);
    UpdateKeepsCore(s, c, rec);
    UpdateOnward(s.roster, c, rec);
    RosterKeepsUses(s.roster, Update(s.roster, c, rec), s.loops);
  }

  lemma RunFits(s: State, l: nat)
    requires Inv(s) && Enabled(s, RunTask(l))
    ensures var popped, t := Popping(s, l), s.loops[l].batch[0];
            && InvBut(popped, HandOf(l, t)) && UsesOk(popped.roster, popped.loops) && !popped.loops[l].dispatching
            && (t.Use? ==> t.c in s.roster.conns && s.roster.conns[t.c].loop == l && Owned(popped, t.c))
            && Apply(s, RunTask(l)) == Exec(popped, l, t)
            && |Exec(popped, l, t).loops| == |s.loops|
            && !Exec(popped, l, t).loops[l].dispatching && Exec(popped, l, t).loops[l].batch == s.loops[l].batch[1..]
  {
    PopQueue(s.roster, s.loops, l);
    PopKeepsUses(s.roster, s.loops, l);
    if s.loops[l].batch[0].Use? { UseIsOwned(s, l); }
    BatchesStay(Popping(s, l), l, s.loops[l].batch[0]);
  }

  lemma FunctorFits(s: State, l: nat, t: Task)
    requires InvBut(s, Due(l, t))
    ensures t.c in s.roster.conns && s.roster.conns[t.c].loop < |s.loops| && l < |s.loops|
    ensures if t.RemoveFromMap? then l == 0 else l == s.roster.conns[t.c].loop
    ensures t.Destroy? ==>
              var r := s.roster.conns[t.c];
              r.state == OutputPath.Disconnected && !r.waiting && r.reg != New
  {
    assert IsDue(s.roster, l, t) && RecordOk(s.roster, t.c, |s.loops|);
  }

  /** A functor may queue others, but touches no batch. */
  lemma BatchesStay(s: State, l: nat, t: Task)
    requires l < |s.loops|
    ensures var s' := Exec(s, l, t);
            |s'.loops| == |s.loops| && forall k :: 0 <= k < |s.loops| ==>
              s'.loops[k].batch == s.loops[k].batch && s'.loops[k].dispatching == s.loops[k].dispatching
  {
  }
}
