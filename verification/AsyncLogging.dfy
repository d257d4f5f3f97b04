/**
 The double-buffered logger (matelib/base/AsyncLogging.cc).  Any number of producers append under
 the mutex; one consumer swaps the buffers out under the same mutex and writes them without it.

 Buffers have identities and live in `store`; pointers are optional identities.  An action is one
 critical section, or one step of the consumer outside of it.  Dereferencing a null pointer, using
 `back()` on an empty vector and failing one of the assertions of the source lead to `Crashed`.
 */
module LogProtocol {
  import opened Options

  type Id = nat

  const SIZE: nat := 4096 * 1024
  const MOST_BUFFERS: nat := 25

  /** Bytes, and which of all messages they are: the numbers are history, not program state. */
  datatype Content = Content(data: string, from: nat, to: nat)

  datatype Range = Range(from: nat, to: nat)

  /** A notice about discarded buffers, and how many stretches of messages precede it in the file. */
  datatype Notice = Notice(at: nat, text: string)

  /** What has been logged; all but `file` is history. */
  datatype Log = Log(
    messages: seq<string>,       // everything ever appended that fits into a buffer, in order
    file: string,
    written: string,             // the file without the notices
    ranges: seq<Range>,          // the messages in it
    notices: seq<Notice>)
  {
    predicate Discarded() {
      notices != []
    }

    /** The file after a stretch of messages, and after a notice. */
    function Grown(c: Content): Log {
      this.(file := file + c.data, written := written + c.data, ranges := ranges + [Range(c.from, c.to)])
    }

    function Noted(text: string): Log {
      this.(file := file + text, notices := notices + [Notice(|ranges|, text)])
    }
  }

  datatype Pc =
    | Head                 // about to test running_
    | Locking              // about to enter the critical section
    | Waiting              // in waitForSeconds
    | Trimming             // has the buffers, about to look at how many they are
    | Writing(i: nat)
    | Refilling
    | Done
    | Crashed

  datatype State = State(
    running: bool,
    pc: Pc,
    current: Option<Id>,
    next: Option<Id>,
    full: seq<Id>,
    spare1: Option<Id>,
    spare2: Option<Id>,
    batch: seq<Id>,              // buffersToWrite
    store: map<Id, Content>,
    unused: Id,                  // identity of the next new buffer
    log: Log)

  const INIT: State := State(
    true, Head, Some(0), Some(1), [], Some(2), Some(3), [],
    map[0 := Content("", 0, 0), 1 := Content("", 0, 0), 2 := Content("", 0, 0), 3 := Content("", 0, 0)],
    4, Log([], "", "", [], []))

  datatype Action =
    | Append(m: string)
    | Test                       // while (running_)
    | Lock                       // enter the critical section
    | WakeUp                     // signalled, timed out or spurious
    | Trim(notice: string)
    | WriteOne
    | Refill
    | Stop

  predicate Enabled(s: State, a: Action) {
    match a
    case Append(_) => s.pc != Crashed
    case Test => s.pc == Head
    case Lock => s.pc == Locking
    case WakeUp => s.pc == Waiting
    case Trim(_) => s.pc == Trimming
    case WriteOne => s.pc.Writing?
    case Refill => s.pc == Refilling
    case Stop => s.pc != Crashed
  }

  predicate Fits(data: string, m: string) {
    SIZE - |data| > |m|
  }

  /** FixedBuffer::append: all of the message or nothing of it. */
  function Put(c: Content, m: string): Content {
    if Fits(c.data, m) then Content(c.data + m, c.from, c.to + 1) else c
  }

  function Data(s: State, id: Id): string {
    if id in s.store then s.store[id].data else ""
  }

  /** Sets the full buffer aside; messages go to the next buffer or to a new one. */
  function Rotate(s: State): State
    requires s.current.Some?
  {
    var id := if s.next.Some? then s.next.value else s.unused;
    s.(full := s.full + [s.current.value], current := Some(id), next := None,
       unused := if s.next.Some? then s.unused else s.unused + 1,
       store := s.store[id := Content(Data(s, id), |s.log.messages|, |s.log.messages|)])
  }

  /** The message is put into the buffer in use; one that does not fit into any buffer gets lost here. */
  function PutStep(s: State, m: string): State
    requires s.current.Some? && s.current.value in s.store
  {
    var c := s.current.value;
    s.(store := s.store[c := Put(s.store[c], m)],
       log := if |m| < SIZE then s.log.(messages := s.log.messages + [m]) else s.log)
  }

  function AppendStep(s: State, m: string): State
    requires s.current.Some? && s.current.value in s.store
  {
    PutStep(if Fits(s.store[s.current.value].data, m) then s else Rotate(s), m)
  }

  /** The end of the critical section: take everything, hand out the spare buffers. */
  function SwapOut(s: State): State {
    if s.current.None? || s.spare1.None? then s.(pc := Crashed)
    else
      s.(pc := Trimming, batch := s.full + [s.current.value], full := [], current := s.spare1, spare1 := None,
         next := if s.next.Some? then s.next else s.spare2,
         spare2 := if s.next.Some? then s.spare2 else None,
         store := s.store[s.spare1.value := Content(Data(s, s.spare1.value), |s.log.messages|, |s.log.messages|)])
  }

  predicate EmptySpare(s: State, p: Option<Id>) {
    p.Some? && Data(s, p.value) == ""
  }

  function Shortened(b: seq<Id>): seq<Id> {
    if |b| > 2 then b[..2] else b
  }

  /** The missing spare buffers come from the back of the vector, emptied. */
  function RefillStep(s: State): State {
    var b := Shortened(s.batch);
    var n1 := if s.spare1.None? then 1 else 0;
    var n2 := if s.spare2.None? then 1 else 0;
    if |b| < n1 + n2 then s.(pc := Crashed)
    else
      var id1 := if n1 == 1 then b[|b| - 1] else s.spare1.value;
      var id2 := if n2 == 1 then b[|b| - 1 - n1] else s.spare2.value;
      s.(spare1 := Some(id1), spare2 := Some(id2), batch := [], pc := Head,
         store := Emptied(Emptied(s.store, id1, n1 == 1), id2, n2 == 1))
  }

  function Emptied(store: map<Id, Content>, id: Id, really: bool): map<Id, Content> {
    if really then store[id := Content("", 0, 0)] else store
  }

  function Wrote(s: State, c: Content, i: nat): State {
    s.(log := s.log.Grown(c), pc := Writing(i))
  }

  function Apply(s: State, a: Action): State
    requires Enabled(s, a)
  {
    match a
    case Append(m) =>
      if s.current.None? || s.current.value !in s.store then s.(pc := Crashed) else AppendStep(s, m)
    case Test =>
      if !s.running then s.(pc := Done)
      else if EmptySpare(s, s.spare1) && EmptySpare(s, s.spare2) && s.batch == [] then s.(pc := Locking)
      else s.(pc := Crashed)
    case Lock => if s.full == [] && s.running then s.(pc := Waiting) else SwapOut(s)
    case WakeUp =>
      if s.current.None? then s.(pc := Crashed)
      else if Data(s, s.current.value) == "" && s.full == [] && s.running then s
      else SwapOut(s)
    case Trim(notice) =>
      if |s.batch| > MOST_BUFFERS then
        s.(log := s.log.Noted(notice), batch := s.batch[..2], pc := Writing(0))
      else s.(pc := Writing(0))
    case WriteOne =>
      if s.pc.i < |s.batch| then
        var id := s.batch[s.pc.i];
        if id !in s.store then s.(pc := Crashed) else Wrote(s, s.store[id], s.pc.i + 1)
      else s.(pc := Refilling)
    case Refill => RefillStep(s)
    case Stop => s.(running := false)
  }

  ghost predicate LegalFrom(s: State, run: seq<Action>)
    decreases |run|
  {
    run == [] || (Enabled(s, run[0]) && LegalFrom(Apply(s, run[0]), run[1..]))
  }

  ghost function After(s: State, run: seq<Action>): State
    requires LegalFrom(s, run)
    decreases |run|
  {
    if run == [] then s else After(Apply(s, run[0]), run[1..])
  }

  function Concat(ms: seq<string>): string {
    if ms == [] then "" else Concat(ms[..|ms| - 1]) + ms[|ms| - 1]
  }

  lemma {:induction false} ConcatAppend(a: seq<string>, b: seq<string>)
    ensures Concat(a + b) == Concat(a) + Concat(b)
    decreases |b|
  {
    if b == [] {
      assert a + b == a;
    } else {
      var n := |b| - 1;
      ConcatAppend(a, b[..n]);
      assert (a + b)[..|a + b| - 1] == a + b[..n];
    }
  }

  /* ---------------------------------------------------------------- ownership */

  function One(p: Option<Id>): multiset<Id> {
    if p.Some? then multiset{p.value} else multiset{}
  }

  /** How often each buffer is owned. */
  function Owned(s: State): multiset<Id> {
    OwnedBy(s.current, s.next, s.spare1, s.spare2, s.full, s.batch)
  }

  function OwnedBy(current: Option<Id>, next: Option<Id>, spare1: Option<Id>, spare2: Option<Id>,
                   full: seq<Id>, batch: seq<Id>): multiset<Id>
  {
    One(current) + One(next) + One(spare1) + One(spare2) + multiset(full) + multiset(batch)
  }

  ghost predicate AllOnce(m: multiset<Id>) {
    forall id :: id in m ==> m[id] == 1
  }

  ghost predicate OneOwner(s: State) {
    Once(Owned(s), s.store.Keys, s.unused)
  }

  ghost predicate Once(owned: multiset<Id>, known: set<Id>, unused: Id) {
    && AllOnce(owned)
    && (forall id :: id in owned ==> id in known)
    && (forall id :: id in known ==> id < unused)
  }

  ghost predicate Distinct(u: seq<Id>) {
    forall i, j :: 0 <= i < j < |u| ==> u[i] != u[j]
  }

  /** What occurs in `u` occurs there once, and not among `others`. */
  lemma Separate(u: seq<Id>, others: multiset<Id>, all: multiset<Id>)
    requires AllOnce(all) && multiset(u) + others <= all
    ensures Distinct(u)
    ensures forall id :: id in u ==> id in all
    ensures forall id :: id in others ==> id !in u
  {
    forall i, j | 0 <= i < j < |u| ensures u[i] != u[j] {
      assert u == u[..j] + [u[j]] + u[j + 1..];
      assert u[i] in multiset(u[..j]);
      assert u[j] in multiset(u) && u[j] in all && multiset(u)[u[j]] <= all[u[j]];
    }
    forall id | id in u ensures id in all {
      assert id in multiset(u) && id in multiset(u) + others;
    }
    forall id | id in others ensures id !in u {
      assert id in multiset(u) + others && id in all;
      assert multiset(u)[id] + others[id] <= all[id];
    }
  }

  /* ---------------------------------------------------------------- contents */

  /** The part of the batch the consumer has still to write. */
  function Unwritten(s: State): seq<Id> {
    if s.pc == Trimming then s.batch
    else if s.pc.Writing? && s.pc.i <= |s.batch| then s.batch[s.pc.i..]
    else []
  }

  /** The buffers with unwritten messages, oldest first. */
  function Line(s: State): seq<Id>
    requires s.current.Some?
  {
    Unwritten(s) + s.full + [s.current.value]
  }

  ghost predicate Holds(c: Content, ms: seq<string>) {
    c.from <= c.to <= |ms| && c.data == Concat(ms[c.from..c.to])
  }

  /** Each buffer holds a stretch of the messages; the stretches are in order, without gaps if `exact`. */
  ghost predicate Chain(store: map<Id, Content>, u: seq<Id>, ms: seq<string>, exact: bool) {
    && u != []
    && (forall i :: 0 <= i < |u| ==> u[i] in store && Holds(store[u[i]], ms))
    && (forall i :: 0 < i < |u| ==> store[u[i - 1]].to <= store[u[i]].from)
    && (exact ==> forall i :: 0 < i < |u| ==> store[u[i - 1]].to == store[u[i]].from)
    && store[u[|u| - 1]].to == |ms|
  }

  lemma HoldsPut(c: Content, ms: seq<string>, m: string)
    requires Holds(c, ms) && c.to == |ms| && Fits(c.data, m)
    ensures Holds(Put(c, m), ms + [m])
  {
    assert (ms + [m])[c.from..c.to + 1] == ms[c.from..c.to] + [m];
    ConcatAppend(ms[c.from..c.to], [m]);
    assert [m][..0] == [] && Concat([m]) == m;
  }

  lemma HoldsLonger(c: Content, ms: seq<string>, m: string)
    requires Holds(c, ms)
    ensures Holds(c, ms + [m])
  {
    assert (ms + [m])[c.from..c.to] == ms[c.from..c.to];
  }

  lemma ChainPut(store: map<Id, Content>, u: seq<Id>, ms: seq<string>, exact: bool, m: string)
    requires Chain(store, u, ms, exact) && Distinct(u)
    requires Fits(store[u[|u| - 1]].data, m)
    ensures var c := u[|u| - 1]; Chain(store[c := Put(store[c], m)], u, ms + [m], exact)
  {
    var last := |u| - 1;
    var store1 := store[u[last] := Put(store[u[last]], m)];
    forall i | 0 <= i < |u| ensures Holds(store1[u[i]], ms + [m]) {
      if i == last { HoldsPut(store[u[i]], ms, m); } else { HoldsLonger(store[u[i]], ms, m); }
    }
  }

  lemma ChainActivate(store: map<Id, Content>, u: seq<Id>, ms: seq<string>, exact: bool, id: Id)
    requires Chain(store, u, ms, exact) && id !in u
    ensures Chain(store[id := Content("", |ms|, |ms|)], u + [id], ms, exact)
  {
    assert ms[|ms|..|ms|] == [];
  }

  ghost predicate AllIn(u: seq<Id>, store: map<Id, Content>) {
    forall i :: 0 <= i < |u| ==> u[i] in store
  }

  /** The text of the buffers, in order. */
  function Texts(store: map<Id, Content>, u: seq<Id>): string
    requires forall i :: 0 <= i < |u| ==> u[i] in store
  {
    if u == [] then "" else store[u[0]].data + Texts(store, u[1..])
  }

  /** The messages in the buffers, by their numbers. */
  function RangesOf(store: map<Id, Content>, u: seq<Id>): seq<Range>
    requires forall i :: 0 <= i < |u| ==> u[i] in store
  {
    if u == [] then [] else [Range(store[u[0]].from, store[u[0]].to)] + RangesOf(store, u[1..])
  }

  lemma ChainTail(store: map<Id, Content>, u: seq<Id>, ms: seq<string>, exact: bool)
    requires Chain(store, u, ms, exact) && |u| > 1
    ensures Chain(store, u[1..], ms, exact)
  {
    var v := u[1..];
    forall i | 0 < i < |v|
      ensures store[v[i - 1]].to <= store[v[i]].from && (exact ==> store[v[i - 1]].to == store[v[i]].from)
    {
      assert v[i] == u[i + 1] && v[i - 1] == u[i];
    }
  }

  lemma {:induction false} ChainText(store: map<Id, Content>, u: seq<Id>, ms: seq<string>)
    requires Chain(store, u, ms, true)
    ensures Texts(store, u) == Concat(ms[store[u[0]].from..])
    decreases |u|
  {
    var c := store[u[0]];
    if |u| == 1 {
      assert ms[c.from..] == ms[c.from..c.to];
      assert Texts(store, u[1..]) == "";
    } else {
      ChainTail(store, u, ms, true);
      ChainText(store, u[1..], ms);
      SplitConcat(ms, c.from, c.to);
    }
  }

  lemma SplitConcat(ms: seq<string>, from: nat, to: nat)
    requires from <= to <= |ms|
    ensures Concat(ms[from..]) == Concat(ms[from..to]) + Concat(ms[to..])
  {
    assert ms[from..] == ms[from..to] + ms[to..];
    ConcatAppend(ms[from..to], ms[to..]);
  }

  /** The messages in the ranges, in order. */
  function RangesText(ms: seq<string>, rs: seq<Range>): string
    requires forall i :: 0 <= i < |rs| ==> rs[i].from <= rs[i].to <= |ms|
  {
    if rs == [] then ""
    else RangesText(ms, rs[..|rs| - 1]) + Concat(ms[rs[|rs| - 1].from..rs[|rs| - 1].to])
  }

  /** Stretches of messages, none before or inside another one. */
  ghost predicate Ordered(rs: seq<Range>, bound: nat) {
    && (forall i :: 0 <= i < |rs| ==> rs[i].from <= rs[i].to <= bound)
    && (forall i, j :: 0 <= i < j < |rs| ==> rs[i].to <= rs[j].from)
  }

  lemma {:induction false} RangesTextExtends(ms: seq<string>, m: string, rs: seq<Range>)
    requires Ordered(rs, |ms|)
    ensures RangesText(ms + [m], rs) == RangesText(ms, rs)
    decreases |rs|
  {
    if rs != [] {
      RangesTextExtends(ms, m, rs[..|rs| - 1]);
      var r := rs[|rs| - 1];
      assert (ms + [m])[r.from..r.to] == ms[r.from..r.to];
    }
  }

  /** The file: the stretches of messages in order, with whole notices between them. */
  function FileText(ms: seq<string>, rs: seq<Range>, ns: seq<Notice>): string
    requires forall i :: 0 <= i < |rs| ==> rs[i].from <= rs[i].to <= |ms|
    decreases |rs| + |ns|
  {
    if ns != [] && ns[|ns| - 1].at >= |rs| then FileText(ms, rs, ns[..|ns| - 1]) + ns[|ns| - 1].text
    else if rs == [] then ""
    else FileText(ms, rs[..|rs| - 1], ns) + Concat(ms[rs[|rs| - 1].from..rs[|rs| - 1].to])
  }

  /** Notices in the order in which they were written. */
  ghost predicate NoticesOrdered(ns: seq<Notice>, n: nat) {
    && (forall i :: 0 <= i < |ns| ==> ns[i].at <= n)
    && (forall i, j :: 0 <= i < j < |ns| ==> ns[i].at <= ns[j].at)
  }

  lemma {:induction false} FileTextExtends(ms: seq<string>, m: string, rs: seq<Range>, ns: seq<Notice>)
    requires Ordered(rs, |ms|)
    ensures FileText(ms + [m], rs, ns) == FileText(ms, rs, ns)
    decreases |rs| + |ns|
  {
    if ns != [] && ns[|ns| - 1].at >= |rs| {
      FileTextExtends(ms, m, rs, ns[..|ns| - 1]);
    } else if rs != [] {
      var short, r := rs[..|rs| - 1], rs[|rs| - 1];
      FileTextExtends(ms, m, short, ns);
      SameStretch(ms, m, r);
      assert FileText(ms, rs, ns) == FileText(ms, short, ns) + Concat(ms[r.from..r.to]);
    }
  }

  lemma SameStretch(ms: seq<string>, m: string, r: Range)
    requires r.from <= r.to <= |ms|
    ensures (ms + [m])[r.from..r.to] == ms[r.from..r.to]
  {
  }

  /* ---------------------------------------------------------------- the invariant */

  ghost predicate Pointers(s: State) {
    && s.pc != Crashed
    && s.current.Some?
    && (s.next.Some? ==> Data(s, s.next.value) == "")
    && (s.spare1.Some? ==> Data(s, s.spare1.value) == "")
    && (s.spare2.Some? ==> Data(s, s.spare2.value) == "")
    && (s.next.None? ==> s.full != [])
    && (if s.pc in {Trimming, Refilling} || s.pc.Writing? then
          s.spare1.None? && |s.batch| >= (if s.spare2.None? then 2 else 1)
        else s.spare1.Some? && s.spare2.Some? && s.batch == [])
    && (s.pc.Writing? ==> s.pc.i <= |s.batch|)
  }

  ghost predicate Contents(s: State)
    requires s.current.Some?
  {
    LineAndFile(s.store, Line(s), s.log)
  }

  ghost predicate LogOk(log: Log, bound: nat) {
    && Ordered(log.ranges, bound) && bound <= |log.messages|
    && log.written == RangesText(log.messages, log.ranges)
    && log.file == FileText(log.messages, log.ranges, log.notices)
    && NoticesOrdered(log.notices, |log.ranges|)
    && (!log.Discarded() ==> log.file == log.written == Concat(log.messages[..bound]))
  }

  ghost predicate LineAndFile(store: map<Id, Content>, u: seq<Id>, log: Log) {
    Chain(store, u, log.messages, !log.Discarded()) && LogOk(log, store[u[0]].from)
  }

  ghost predicate Inv(s: State) {
    Pointers(s) && OneOwner(s) && Contents(s)
  }

  lemma SameOwners(s: State, t: State)
    requires OneOwner(s) && Owned(t) == Owned(s) && t.store.Keys == s.store.Keys && t.unused == s.unused
    ensures OneOwner(t)
  {
  }

  lemma SameContents(s: State, t: State)
    requires s.current.Some? && Contents(s) && t.current == s.current && t.full == s.full
    requires Unwritten(t) == Unwritten(s)
    requires t.store == s.store && t.log == s.log
    ensures Contents(t)
  {
    assert Line(t) == Line(s);
  }

  lemma LineOwned(s: State)
    requires Pointers(s)
    ensures multiset(Line(s)) + (One(s.next) + One(s.spare1) + One(s.spare2)) <= Owned(s)
  {
    var left := Unwritten(s);
    if s.pc.Writing? { assert s.batch == s.batch[..s.pc.i] + s.batch[s.pc.i..]; }
    assert multiset(left) <= multiset(s.batch);
    assert multiset(Line(s)) == multiset(left) + multiset(s.full) + One(s.current);
    FewerInAll(multiset(left), multiset(s.batch), multiset(s.full),
               One(s.current), One(s.next), One(s.spare1), One(s.spare2));
  }

  lemma FewerInAll(left: multiset<Id>, batch: multiset<Id>, full: multiset<Id>, c: multiset<Id>,
                   n: multiset<Id>, x: multiset<Id>, y: multiset<Id>)
    requires left <= batch
    ensures left + full + c + (n + x + y) <= c + n + x + y + full + batch
  {
  }

  lemma LineDistinct(s: State)
    requires Pointers(s) && OneOwner(s)
    ensures Distinct(Line(s))
    ensures forall id :: id in Line(s) ==> id in s.store && id < s.unused
    ensures forall p :: p in {s.next, s.spare1, s.spare2} && p.Some? ==> p.value !in Line(s)
  {
    LineOwned(s);
    var others := One(s.next) + One(s.spare1) + One(s.spare2);
    Separate(Line(s), others, Owned(s));
    forall p | p in {s.next, s.spare1, s.spare2} && p.Some? ensures p.value !in Line(s) {
      assert p.value in others;
    }
  }

  lemma InitInv()
    ensures Inv(INIT)
  {
    assert Owned(INIT) == multiset{0, 1, 2, 3};
    InitContents();
  }

  lemma InitContents()
    ensures Contents(INIT)
  {
    assert Line(INIT) == [0];
    assert INIT.log.messages[0..0] == [] && INIT.log.messages[..0] == [];
  }

  lemma InStore(s: State)
    requires Pointers(s) && OneOwner(s)
    ensures s.current.value in s.store
    ensures forall i :: 0 <= i < |s.full| ==> s.full[i] in s.store
    ensures forall i :: 0 <= i < |s.batch| ==> s.batch[i] in s.store
  {
    assert s.current.value in Owned(s);
    forall i | 0 <= i < |s.full| ensures s.full[i] in s.store {
      assert s.full[i] in multiset(s.full) && s.full[i] in Owned(s);
    }
    forall i | 0 <= i < |s.batch| ensures s.batch[i] in s.store {
      assert s.batch[i] in multiset(s.batch) && s.batch[i] in Owned(s);
    }
  }

  /** A new buffer at the end of the line. */
  lemma ActivateKeepsContents(s: State, t: State, n: Id)
    requires s.current.Some? && Contents(s) && n !in Line(s)
    requires t.current == Some(n) && t.store == s.store[n := Content("", |s.log.messages|, |s.log.messages|)]
    requires Line(t) == Line(s) + [n]
    requires t.log == s.log
    ensures Contents(t)
  {
    ChainActivate(s.store, Line(s), s.log.messages, !s.log.Discarded(), n);
    assert Line(t)[0] == Line(s)[0];
  }

  lemma RotateLine(s: State, t: State, n: Id)
    requires Pointers(s) && OneOwner(s) && t == Rotate(s) && t.current == Some(n)
    ensures Line(t) == Line(s) + [n] && n !in Line(s)
    ensures t.store == s.store[n := Content("", |s.log.messages|, |s.log.messages|)]
  {
    LineDistinct(s);
    Reassociate(Unwritten(s), s.full, s.current.value, n);
  }

  lemma RotateKeepsInv(s: State)
    requires Inv(s)
    ensures Inv(Rotate(s)) && Data(Rotate(s), Rotate(s).current.value) == ""
    ensures Rotate(s).log == s.log
  {
    var t := Rotate(s);
    var n := t.current.value;
    RotateLine(s, t, n);
    ActivateKeepsContents(s, t, n);
    if s.next.Some? { RotateToNext(s, t); } else { RotateToNew(s, t); }
    NotOwnedTwice(s);
    RotatePointers(s, t, n);
  }

  lemma RotatePointers(s: State, t: State, n: Id)
    requires Pointers(s) && t == Rotate(s) && t.current == Some(n) && t.current !in {s.spare1, s.spare2}
    ensures Pointers(t)
  {
  }

  lemma OneMore(all: multiset<Id>, id: Id)
    requires AllOnce(all) && id !in all
    ensures AllOnce(all + multiset{id})
    ensures forall x :: x in all + multiset{id} <==> x in all || x == id
  {
  }

  lemma Reassociate(left: seq<Id>, full: seq<Id>, c: Id, n: Id)
    ensures left + (full + [c]) + [n] == left + full + [c] + [n]
  {
  }

  lemma RotateToNext(s: State, t: State)
    requires Pointers(s) && OneOwner(s) && t == Rotate(s) && s.next.Some?
    ensures OneOwner(t)
  {
    assert s.next.value in Owned(s);
    OwnedAfterNext(s, t);
    SameOwners(s, t);
  }

  lemma OwnedAfterNext(s: State, t: State)
    requires s.current.Some? && t == Rotate(s) && s.next.Some?
    ensures Owned(t) == Owned(s)
    ensures s.next.value in s.store ==> t.store.Keys == s.store.Keys
  {
    assert multiset(t.full) == multiset(s.full) + One(s.current);
    FullGrows(One(s.current), One(s.next), One(s.spare1), One(s.spare2), multiset(s.full), multiset(s.batch));
  }

  lemma FullGrows(c: multiset<Id>, n: multiset<Id>, x: multiset<Id>, y: multiset<Id>, f: multiset<Id>, b: multiset<Id>)
    ensures n + multiset{} + x + y + (f + c) + b == c + n + x + y + f + b
  {
  }

  lemma RotateToNew(s: State, t: State)
    requires Pointers(s) && OneOwner(s) && t == Rotate(s) && s.next.None?
    ensures OneOwner(t)
  {
    assert s.unused !in Owned(s);
    OneMore(Owned(s), s.unused);
    OwnedAfterRotate(s, t);
  }

  lemma OwnedAfterRotate(s: State, t: State)
    requires s.current.Some? && t == Rotate(s) && s.next.None?
    ensures Owned(t) == Owned(s) + multiset{s.unused} && t.store.Keys == s.store.Keys + {s.unused}
  {
    assert multiset(t.full) == multiset(s.full) + One(s.current);
    assert One(t.current) == multiset{s.unused} && One(t.next) == multiset{};
  }

  /** The buffer in use, the next one and the spare ones are different buffers. */
  lemma NotOwnedTwice(s: State)
    requires Pointers(s) && OneOwner(s)
    ensures s.current != s.next && s.current != s.spare1 && s.current != s.spare2
    ensures s.next.Some? ==> s.next != s.spare1 && s.next != s.spare2
    ensures s.spare1.Some? ==> s.spare1 != s.spare2
    ensures forall p :: p in {s.current, s.next, s.spare1, s.spare2} && p.Some? ==>
              p.value < s.unused && p.value !in s.batch
  {
    var rest := One(s.current) + One(s.next) + One(s.spare1) + One(s.spare2);
    Separate(s.batch, rest, Owned(s));
    assert rest <= Owned(s);
    forall p | p in {s.current, s.next, s.spare1, s.spare2} && p.Some?
      ensures p.value < s.unused && p.value !in s.batch
    {
      assert p.value in rest;
    }
  }

  lemma PutKeepsContents(s: State, m: string)
    requires Pointers(s) && OneOwner(s) && Contents(s) && Fits(s.store[s.current.value].data, m)
    ensures Contents(PutStep(s, m))
  {
    LineDistinct(s);
    var u := Line(s);
    assert Line(PutStep(s, m)) == u && u[|u| - 1] == s.current.value;
    PutInLine(s.store, u, s.log, m);
  }

  lemma PutInLine(store: map<Id, Content>, u: seq<Id>, log: Log, m: string)
    requires LineAndFile(store, u, log) && Distinct(u)
    requires Fits(store[u[|u| - 1]].data, m)
    ensures var c := u[|u| - 1];
            LineAndFile(store[c := Put(store[c], m)], u, log.(messages := log.messages + [m]))
  {
    ChainPut(store, u, log.messages, !log.Discarded(), m);
    MessageKeepsLog(log, store[u[0]].from, m);
  }

  lemma MessageKeepsLog(log: Log, bound: nat, m: string)
    requires LogOk(log, bound)
    ensures LogOk(log.(messages := log.messages + [m]), bound)
  {
    assert (log.messages + [m])[..bound] == log.messages[..bound];
    RangesTextExtends(log.messages, m, log.ranges);
    FileTextExtends(log.messages, m, log.ranges, log.notices);
  }

  lemma PutKeepsInv(s: State, m: string)
    requires Inv(s) && Fits(s.store[s.current.value].data, m)
    ensures Inv(PutStep(s, m))
  {
    var t := PutStep(s, m);
    PutKeepsContents(s, m);
    assert t.store.Keys == s.store.Keys;
    NotOwnedTwice(s);
    PutKeepsPointers(s, t);
    SameOwners(s, t);
  }

  lemma PutKeepsPointers(s: State, t: State)
    requires Pointers(s) && s.current !in {s.next, s.spare1, s.spare2}
    requires t == s.(store := t.store, log := t.log) && t.store.Keys == s.store.Keys
    requires forall id :: id in s.store && Some(id) != s.current ==> t.store[id] == s.store[id]
    ensures Pointers(t)
  {
  }

  lemma AppendKeepsInv(s: State, m: string)
    requires Inv(s)
    ensures Inv(AppendStep(s, m))
    ensures AppendStep(s, m).log == if |m| < SIZE then s.log.(messages := s.log.messages + [m]) else s.log
  {
    if Fits(s.store[s.current.value].data, m) {
      PutKeepsInv(s, m);
    } else {
      RotateKeepsInv(s);
      var r := Rotate(s);
      if |m| < SIZE { PutKeepsInv(r, m); } else { TooLong(r, m); }
    }
  }

  /** A message that does not fit into an empty buffer changes nothing. */
  lemma TooLong(s: State, m: string)
    requires s.current.Some? && s.current.value in s.store && |m| >= SIZE
    ensures PutStep(s, m) == s
  {
    assert s.store[s.current.value := s.store[s.current.value]] == s.store;
  }

  lemma SwapOutKeepsInv(s: State)
    requires Inv(s) && s.pc in {Locking, Waiting}
    ensures Inv(SwapOut(s)) && SwapOut(s).pc == Trimming
  {
    var t := SwapOut(s);
    LineDistinct(s);
    SwapOutContents(s, t);
    SwapOutPointers(s, t);
    SwapOutOwners(s, t);
  }

  lemma SwapOutContents(s: State, t: State)
    requires s.current.Some? && s.spare1.Some? && Contents(s) && s.pc in {Locking, Waiting} && t == SwapOut(s)
    requires s.spare1.value !in Line(s) && Data(s, s.spare1.value) == ""
    ensures Contents(t)
  {
    assert [] + s.full + [s.current.value] == s.full + [s.current.value];
    assert t.batch + [] + [s.spare1.value] == t.batch + [s.spare1.value];
    ActivateKeepsContents(s, t, s.spare1.value);
  }

  lemma SwapOutPointers(s: State, t: State)
    requires Pointers(s) && OneOwner(s) && s.pc in {Locking, Waiting} && t == SwapOut(s)
    ensures Pointers(t)
  {
    NotOwnedTwice(s);
  }

  lemma SwapOutOwners(s: State, t: State)
    requires OneOwner(s) && s.current.Some? && s.spare1.Some? && s.batch == [] && t == SwapOut(s)
    ensures OneOwner(t)
  {
    assert t.store.Keys == s.store.Keys by { assert s.spare1.value in Owned(s); }
    OwnedAfterSwap(s, t);
    SameOwners(s, t);
  }

  lemma OwnedAfterSwap(s: State, t: State)
    requires s.current.Some? && s.spare1.Some? && s.batch == [] && t == SwapOut(s)
    ensures Owned(t) == Owned(s)
  {
    assert multiset(t.batch) == multiset(s.full) + One(s.current);
    SpareMoves(One(s.current), One(s.next), One(s.spare1), One(s.spare2), multiset(s.full), One(t.next), One(t.spare2));
  }

  lemma SpareMoves(c: multiset<Id>, n: multiset<Id>, x: multiset<Id>, y: multiset<Id>, f: multiset<Id>,
                   n1: multiset<Id>, y1: multiset<Id>)
    requires (n1 == n && y1 == y) || (n == multiset{} && n1 == y && y1 == multiset{})
    ensures x + n1 + multiset{} + y1 + multiset{} + (f + c) == c + n + x + y + f + multiset{}
  {
  }

  lemma {:induction false} ChainOrder(store: map<Id, Content>, u: seq<Id>, ms: seq<string>, exact: bool, i: nat, j: nat)
    requires Chain(store, u, ms, exact) && i < j < |u|
    ensures store[u[i]].to <= store[u[j]].from
    decreases j
  {
    if i < j - 1 {
      ChainOrder(store, u, ms, exact, i, j - 1);
      assert Holds(store[u[j - 1]], ms);
    }
  }

  /** Leaving out buffers from the middle leaves the rest in order. */
  lemma ChainCut(store: map<Id, Content>, head: seq<Id>, middle: seq<Id>, tail: seq<Id>, ms: seq<string>, exact: bool)
    requires Chain(store, head + middle + tail, ms, exact) && head != [] && tail != []
    ensures Chain(store, head + tail, ms, false)
  {
    var u, v := head + middle + tail, head + tail;
    var gap := |middle|;
    forall i | 0 <= i < |v| ensures v[i] in store && Holds(store[v[i]], ms) {
      assert v[i] == if i < |head| then u[i] else u[i + gap];
    }
    forall i | 0 < i < |v| ensures store[v[i - 1]].to <= store[v[i]].from {
      var a, b := if i - 1 < |head| then i - 1 else i - 1 + gap, if i < |head| then i else i + gap;
      assert v[i - 1] == u[a] && v[i] == u[b];
      ChainOrder(store, u, ms, exact, a, b);
    }
    assert v[|v| - 1] == u[|u| - 1];
  }

  lemma FewerOwners(small: multiset<Id>, all: multiset<Id>)
    requires AllOnce(all) && small <= all
    ensures AllOnce(small) && forall id :: id in small ==> id in all
  {
    forall id | id in small ensures small[id] == 1 && id in all {
      assert small[id] <= all[id];
    }
  }

  lemma TrimOwners(s: State, t: State)
    requires OneOwner(s) && |s.batch| >= 2
    requires t == s.(batch := s.batch[..2], log := t.log, pc := t.pc)
    ensures OneOwner(t)
  {
    assert s.batch == s.batch[..2] + s.batch[2..];
    assert multiset(s.batch) == multiset(s.batch[..2]) + multiset(s.batch[2..]);
    assert Owned(t) <= Owned(s);
    FewerOwners(Owned(t), Owned(s));
  }

  lemma TrimContents(s: State, t: State, notice: string)
    requires s.current.Some? && Contents(s) && s.pc == Trimming && |s.batch| >= 2
    requires t == s.(batch := s.batch[..2], log := s.log.Noted(notice), pc := Writing(0))
    ensures Contents(t)
  {
    var head, middle, tail := s.batch[..2], s.batch[2..], s.full + [s.current.value];
    assert s.batch == head + middle;
    assert Line(s) == head + middle + tail;
    assert Line(t) == head + tail;
    ChainCut(s.store, head, middle, tail, s.log.messages, !s.log.Discarded());
    NoticeKeepsLog(s.log, s.store[Line(s)[0]].from, notice);
  }

  lemma NoticeKeepsLog(log: Log, bound: nat, text: string)
    requires LogOk(log, bound)
    ensures LogOk(log.Noted(text), bound) && log.Noted(text).Discarded()
  {
    var ns := log.notices + [Notice(|log.ranges|, text)];
    assert ns[..|ns| - 1] == log.notices;
  }

  lemma TrimKeepsInv(s: State, notice: string)
    requires Inv(s) && s.pc == Trimming
    ensures Inv(Apply(s, Trim(notice)))
  {
    var t := Apply(s, Trim(notice));
    if |s.batch| > MOST_BUFFERS {
      TrimContents(s, t, notice);
      TrimOwners(s, t);
      TrimPointers(s, t);
    } else {
      assert s.batch[0..] == s.batch && t == s.(pc := Writing(0));
      SameContents(s, t);
      SameOwners(s, t);
      TrimPointers(s, t);
    }
  }

  /** A batch of at most 25 buffers is left as it is; of a larger one two are kept, and the file says so. */
  lemma TrimSpec(s: State, notice: string)
    requires s.pc == Trimming
    ensures var t := Apply(s, Trim(notice));
            && t.pc == Writing(0) && t.store == s.store && t.full == s.full && t.current == s.current
            && (|s.batch| <= 25 ==> t.batch == s.batch && t.log == s.log)
            && (|s.batch| > 25 ==> t.batch == [s.batch[0], s.batch[1]] && t.log.file == s.log.file + notice)
            && t.log.written == s.log.written && t.log.messages == s.log.messages
  {
  }

  /** Up to 25 buffers are written completely. */
  lemma SmallBatchWritten(s: State, notice: string)
    requires Inv(s) && s.pc == Trimming && |s.batch| <= 25
    ensures AllIn(s.batch, s.store)
    ensures WriteRest(Apply(s, Trim(notice))).log.file == s.log.file + Texts(s.store, s.batch)
  {
    TrimSpec(s, notice);
    InStore(s);
    WriteRestSpec(Apply(s, Trim(notice)));
    assert s.batch[0..] == s.batch;
  }

  /** The consumer takes the buffers exactly when one is full, when it is to stop, or when a wait has found text. */
  lemma TakesIff(s: State, a: Action)
    requires Pointers(s) && Enabled(s, a) && (a.Lock? || a.WakeUp?)
    ensures var t := Apply(s, a);
            if s.full != [] || !s.running || (a.WakeUp? && Data(s, s.current.value) != "")
            then t.pc == Trimming && t.batch == s.full + [s.current.value] && t.full == [] && t.current == s.spare1
            else t == s.(pc := Waiting)
  {
  }

  /** A new buffer is allocated only when the one in use is full and no next one is at hand. */
  lemma AllocatesIff(s: State, m: string)
    requires Inv(s)
    ensures s.current.value in s.store
    ensures var t := AppendStep(s, m);
            && (t.unused == if |s.store[s.current.value].data| + |m| >= SIZE && s.next.None? then s.unused + 1
                            else s.unused)
            && (|s.store[s.current.value].data| + |m| >= SIZE ==>
                  t.full == s.full + [s.current.value] && t.next == None && (s.next.Some? ==> t.current == s.next))
            && (|s.store[s.current.value].data| + |m| < SIZE ==>
                  t.full == s.full && t.next == s.next && t.current == s.current)
  {
    InStore(s);
  }

  lemma TrimPointers(s: State, t: State)
    requires Pointers(s) && s.pc == Trimming && t == s.(batch := t.batch, log := t.log, pc := Writing(0))
    requires t.batch == s.batch || |t.batch| == 2
    ensures Pointers(t)
  {
  }

  lemma WriteLine(s: State, t: State)
    requires s.current.Some? && s.pc.Writing? && s.pc.i < |s.batch|
    requires t.batch == s.batch && t.full == s.full && t.current == s.current && t.pc == Writing(s.pc.i + 1)
    ensures Line(t) == Line(s)[1..] && Line(s)[0] == s.batch[s.pc.i] && |Line(s)| > 1
  {
    assert s.batch[s.pc.i..] == [s.batch[s.pc.i]] + s.batch[s.pc.i + 1..];
  }

  lemma WriteKeepsContents(s: State, t: State)
    requires s.current.Some? && Contents(s) && s.pc.Writing? && s.pc.i < |s.batch| && s.batch[s.pc.i] in s.store
    requires t == Wrote(s, s.store[s.batch[s.pc.i]], s.pc.i + 1)
    ensures Contents(t)
  {
    var u := Line(s);
    WriteLine(s, t);
    ChainTail(s.store, u, s.log.messages, !s.log.Discarded());
    assert Holds(s.store[u[0]], s.log.messages) && Holds(s.store[u[1]], s.log.messages);
    WriteKeepsLog(s.log, s.store[u[0]], s.store[u[1]].from);
    assert Line(t)[0] == u[1];
  }

  lemma WritePointers(s: State, t: State)
    requires Pointers(s) && OneOwner(s) && s.pc.Writing?
    requires if s.pc.i < |s.batch| then t == s.(log := t.log, pc := Writing(s.pc.i + 1))
             else t == s.(pc := Refilling)
    ensures Pointers(t) && OneOwner(t)
  {
    SameOwners(s, t);
  }

  lemma WriteKeepsInv(s: State)
    requires Inv(s) && s.pc.Writing?
    ensures Inv(Apply(s, WriteOne))
  {
    var t := Apply(s, WriteOne);
    if s.pc.i < |s.batch| {
      InStore(s);
      assert t == Wrote(s, s.store[s.batch[s.pc.i]], s.pc.i + 1);
      WriteKeepsContents(s, t);
    } else {
      assert Line(t) == Line(s);
    }
    WritePointers(s, t);
  }

  /** Writing a buffer extends the written history by its messages. */
  lemma WriteKeepsLog(log: Log, c: Content, next: nat)
    requires LogOk(log, c.from) && Holds(c, log.messages) && c.to <= next <= |log.messages|
    requires !log.Discarded() ==> c.to == next
    ensures LogOk(log.Grown(c), next)
  {
    var ms, rs := log.messages, log.ranges + [Range(c.from, c.to)];
    assert rs[..|rs| - 1] == log.ranges;
    assert ms[..c.to] == ms[..c.from] + ms[c.from..c.to];
    ConcatAppend(ms[..c.from], ms[c.from..c.to]);
  }

  /** The rest of the writing loop. */
  function WriteRest(s: State): State
    requires s.pc.Writing? && forall i :: 0 <= i < |s.batch| ==> s.batch[i] in s.store
    decreases if s.pc.i < |s.batch| then |s.batch| - s.pc.i else 0
  {
    if s.pc.i < |s.batch| then WriteRest(Wrote(s, s.store[s.batch[s.pc.i]], s.pc.i + 1))
    else s.(pc := Refilling)
  }

  lemma {:induction false} WriteRestKeepsInv(s: State)
    requires s.pc.Writing? && Inv(s)
    ensures AllIn(s.batch, s.store) && Inv(WriteRest(s))
    decreases if s.pc.i < |s.batch| then |s.batch| - s.pc.i else 0
  {
    InStore(s);
    WriteKeepsInv(s);
    if s.pc.i < |s.batch| { WriteRestKeepsInv(Apply(s, WriteOne)); }
  }

  /** The file grows by exactly the batch, in order, and the history by the messages in it. */
  lemma {:induction false} WriteRestSpec(s: State)
    requires s.pc.Writing? && AllIn(s.batch, s.store) && s.pc.i <= |s.batch|
    ensures var t := WriteRest(s);
            && t == s.(pc := Refilling, log := t.log)
            && t.log.messages == s.log.messages && t.log.notices == s.log.notices
            && t.log.file == s.log.file + Texts(s.store, s.batch[s.pc.i..])
            && t.log.written == s.log.written + Texts(s.store, s.batch[s.pc.i..])
            && t.log.ranges == s.log.ranges + RangesOf(s.store, s.batch[s.pc.i..])
    decreases |s.batch| - s.pc.i
  {
    var rest := s.batch[s.pc.i..];
    if rest == [] {
      assert s.log.file + "" == s.log.file && s.log.written + "" == s.log.written && s.log.ranges + [] == s.log.ranges;
    } else {
      var c := s.store[rest[0]];
      assert rest[1..] == s.batch[s.pc.i + 1..];
      WriteRestSpec(Wrote(s, c, s.pc.i + 1));
      var more, ranges := Texts(s.store, rest[1..]), RangesOf(s.store, rest[1..]);
      assert s.log.file + c.data + more == s.log.file + (c.data + more);
      assert s.log.written + c.data + more == s.log.written + (c.data + more);
      assert s.log.ranges + [Range(c.from, c.to)] + ranges == s.log.ranges + ([Range(c.from, c.to)] + ranges);
    }
  }

  lemma BacksInBatch(b: seq<Id>)
    requires b != []
    ensures var c := Shortened(b);
            && c[|c| - 1] in b && multiset{c[|c| - 1]} <= multiset(b)
            && (|b| >= 2 ==> c[|c| - 2] in b && multiset{c[|c| - 1]} + multiset{c[|c| - 2]} <= multiset(b))
  {
    if |b| >= 2 {
      assert b == [b[0]] + [b[1]] + b[2..];
    }
  }

  lemma RefillKeepsInv(s: State)
    requires Inv(s) && s.pc == Refilling
    ensures Inv(RefillStep(s))
  {
    var t := RefillStep(s);
    RefillSpares(s, t);
    LineAndBatch(s);
    RefillOwners(s, t);
    RefillContents(s, t);
    RefillPointers(s, t);
  }

  lemma EmptiedTwice(store: map<Id, Content>, x: Id, y: Id, rx: bool, ry: bool)
    requires x in store && y in store
    requires !rx ==> store[x].data == ""
    requires !ry ==> store[y].data == ""
    ensures var store1 := Emptied(Emptied(store, x, rx), y, ry);
            && store1.Keys == store.Keys
            && store1[x].data == "" && store1[y].data == ""
            && forall id :: id in store ==>
                 store1[id] == store[id] || (store1[id].data == "" && ((rx && id == x) || (ry && id == y)))
  {
  }

  lemma RefillSpares(s: State, t: State)
    requires Pointers(s) && OneOwner(s) && s.pc == Refilling && t == RefillStep(s)
    ensures t.spare1.Some? && t.spare2.Some?
    ensures One(t.spare1) + One(t.spare2) <= One(s.spare2) + multiset(s.batch)
    ensures t.store.Keys == s.store.Keys
    ensures forall id :: id in s.store ==> t.store[id] == s.store[id] || (id in s.batch && t.store[id].data == "")
    ensures Data(t, t.spare1.value) == "" && Data(t, t.spare2.value) == ""
  {
    RefillTakes(s, t);
    BatchInStore(s);
    EmptiedTwice(s.store, t.spare1.value, t.spare2.value, true, s.spare2.None?);
  }

  lemma RefillTakes(s: State, t: State)
    requires s.spare1.None? && |s.batch| >= (if s.spare2.None? then 2 else 1) && t == RefillStep(s)
    ensures t.spare1.Some? && t.spare2.Some? && t.spare1.value in s.batch
    ensures if s.spare2.None? then t.spare2.value in s.batch else t.spare2 == s.spare2
    ensures One(t.spare1) + One(t.spare2) <= One(s.spare2) + multiset(s.batch)
    ensures t.store == Emptied(Emptied(s.store, t.spare1.value, true), t.spare2.value, s.spare2.None?)
  {
    BacksInBatch(s.batch);
  }

  /** Recycling allocates nothing: the spare buffers are of the batch, and everything else stays. */
  lemma RefillRecycles(s: State)
    requires Pointers(s) && s.pc == Refilling
    ensures var t := RefillStep(s);
            && t.pc == Head && t.unused == s.unused && t.batch == []
            && t.spare1.Some? && t.spare1.value in s.batch && t.spare2.Some?
            && (if s.spare2.Some? then t.spare2 == s.spare2 else t.spare2.value in s.batch)
            && (t.current, t.next, t.full, t.log, t.running) == (s.current, s.next, s.full, s.log, s.running)
  {
    RefillTakes(s, RefillStep(s));
  }

  lemma BatchInStore(s: State)
    requires OneOwner(s)
    ensures forall id :: id in s.batch ==> id in s.store
    ensures s.spare2.Some? ==> s.spare2.value in s.store
  {
    forall id | id in s.batch ensures id in s.store {
      assert id in multiset(s.batch) && id in Owned(s);
    }
    assert s.spare2.Some? ==> s.spare2.value in Owned(s);
  }

  lemma RefillPointers(s: State, t: State)
    requires Pointers(s) && OneOwner(s) && s.pc == Refilling && t.pc == Head && t.batch == []
    requires t.current == s.current && t.next == s.next && t.full == s.full && t.spare1.Some? && t.spare2.Some?
    requires forall id :: id in t.store <==> id in s.store
    requires forall id :: id in s.store ==> t.store[id] == s.store[id] || (id in s.batch && t.store[id].data == "")
    requires Data(t, t.spare1.value) == "" && Data(t, t.spare2.value) == ""
    ensures Pointers(t)
  {
  }

  lemma RefillContents(s: State, t: State)
    requires s.current.Some? && Contents(s) && s.pc == Refilling && t.pc == Head
    requires t.current == s.current && t.full == s.full
    requires t.log == s.log
    requires forall id :: id in Line(s) ==> id in t.store && id in s.store && t.store[id] == s.store[id]
    ensures Contents(t)
  {
    assert Line(t) == Line(s);
    SameBuffers(s.store, t.store, Line(s), s.log.messages, !s.log.Discarded());
  }

  lemma SameBuffers(store: map<Id, Content>, store1: map<Id, Content>, u: seq<Id>, ms: seq<string>, exact: bool)
    requires Chain(store, u, ms, exact)
    requires forall id :: id in u ==> id in store1 && store1[id] == store[id]
    ensures Chain(store1, u, ms, exact) && store1[u[0]] == store[u[0]]
  {
    forall i | 0 <= i < |u| ensures u[i] in store1 && store1[u[i]] == store[u[i]] {
      assert u[i] in u;
    }
  }

  lemma LineAndBatch(s: State)
    requires Pointers(s) && OneOwner(s) && s.pc == Refilling
    ensures forall id :: id in s.batch ==> id !in Line(s) && Some(id) !in {s.current, s.next, s.spare2}
    ensures forall id :: id in Line(s) ==> id in s.store
  {
    var others := multiset(s.batch) + One(s.next) + One(s.spare2);
    OthersOwned(s, others);
    Separate(Line(s), others, Owned(s));
    NotOwnedTwice(s);
    forall id | id in s.batch ensures id !in Line(s) && Some(id) !in {s.current, s.next, s.spare2} {
      assert id in others;
    }
  }

  lemma OthersOwned(s: State, others: multiset<Id>)
    requires s.current.Some? && s.pc == Refilling && s.spare1.None?
    requires others == multiset(s.batch) + One(s.next) + One(s.spare2)
    ensures multiset(Line(s)) + others <= Owned(s)
  {
    assert multiset(Line(s)) == multiset(s.full) + One(s.current);
  }

  lemma RefillOwners(s: State, t: State)
    requires Pointers(s) && OneOwner(s) && t.batch == []
    requires t.current == s.current && t.next == s.next && t.full == s.full && t.unused == s.unused
    requires t.store.Keys == s.store.Keys && s.spare1 == None
    requires One(t.spare1) + One(t.spare2) <= One(s.spare2) + multiset(s.batch)
    ensures OneOwner(t)
  {
    var rest := One(s.current) + One(s.next) + multiset(s.full);
    assert Owned(t) == rest + (One(t.spare1) + One(t.spare2));
    assert Owned(s) == rest + (One(s.spare2) + multiset(s.batch));
    FewerOwners(Owned(t), Owned(s));
  }

  /** Outside the consumer's work both spare buffers are there and empty. */
  lemma SparesReady(s: State)
    requires Pointers(s) && s.pc in {Head, Locking, Waiting}
    ensures s.current.Some? && EmptySpare(s, s.spare1) && EmptySpare(s, s.spare2) && s.batch == []
  {
  }

  lemma TestKeepsInv(s: State)
    requires Inv(s) && s.pc == Head
    ensures Inv(Apply(s, Test))
  {
    var t := Apply(s, Test);
    assert t.pc != Crashed;
    SameLine(s, t);
  }

  lemma LockKeepsInv(s: State)
    requires Inv(s) && s.pc == Locking
    ensures Inv(Apply(s, Lock))
  {
    var t := Apply(s, Lock);
    if t.pc == Waiting {
      assert t == s.(pc := Waiting);
      SameLine(s, t);
    } else {
      assert t == SwapOut(s);
      SwapOutKeepsInv(s);
    }
  }

  /** The message of an append, if it is shorter than a buffer. */
  function MessageOf(a: Action): seq<string> {
    if a.Append? && |a.m| < SIZE then [a.m] else []
  }

  lemma MessagesKept(s: State, a: Action)
    requires Enabled(s, a) && Apply(s, a).pc != Crashed
    ensures Apply(s, a).log.messages == s.log.messages + MessageOf(a)
  {
    if MessageOf(a) == [] { assert s.log.messages + [] == s.log.messages; }
  }

  lemma WakeUpKeepsInv(s: State)
    requires Inv(s) && s.pc == Waiting
    ensures Inv(Apply(s, WakeUp))
  {
    var t := Apply(s, WakeUp);
    if t != s {
      assert t == SwapOut(s);
      SwapOutKeepsInv(s);
    }
  }

  lemma AppendActionKeepsInv(s: State, m: string)
    requires Inv(s)
    ensures Inv(Apply(s, Append(m)))
  {
    InStore(s);
    AppendKeepsInv(s, m);
  }

  lemma RefillActionKeepsInv(s: State)
    requires Inv(s) && s.pc == Refilling
    ensures Inv(Apply(s, Refill))
  {
    RefillAction(s);
    RefillKeepsInv(s);
  }

  lemma RefillAction(s: State)
    requires s.pc == Refilling
    ensures Apply(s, Refill) == RefillStep(s)
  {
  }

  lemma StepKeepsInv(s: State, a: Action)
    requires Inv(s) && Enabled(s, a)
    ensures Inv(Apply(s, a))
  {
    match a
    case Append(m) => AppendActionKeepsInv(s, m);
    case Test => TestKeepsInv(s);
    case Lock => LockKeepsInv(s);
    case WakeUp => WakeUpKeepsInv(s);
    case Trim(notice) => TrimKeepsInv(s, notice);
    case WriteOne => WriteKeepsInv(s);
    case Refill => RefillActionKeepsInv(s);
    case Stop => SameLine(s, Apply(s, a));
  }

  /** Steps that change nothing but flags. */
  lemma SameLine(s: State, t: State)
    requires Inv(s) && t.pc != Crashed
    requires t == s.(pc := t.pc, running := t.running)
    requires t.pc == s.pc || (s.pc in {Head, Locking} && t.pc in {Locking, Waiting, Done})
    ensures Inv(t)
  {
    SameContents(s, t);
    SameOwners(s, t);
  }

  /* ---------------------------------------------------------------- over whole runs */

  /** The messages appended in a run, without those as long as a buffer. */
  function Logged(run: seq<Action>): seq<string> {
    if run == [] then [] else MessageOf(run[0]) + Logged(run[1..])
  }

  lemma Associate(a: seq<string>, b: seq<string>, c: seq<string>)
    ensures (a + b) + c == a + (b + c)
  {
  }

  lemma {:induction false} RunKeepsInv(s: State, run: seq<Action>)
    requires Inv(s) && LegalFrom(s, run)
    ensures Inv(After(s, run)) && After(s, run).log.messages == s.log.messages + Logged(run)
    decreases |run|
  {
    if run != [] {
      StepKeepsInv(s, run[0]);
      MessagesKept(s, run[0]);
      RunKeepsInv(Apply(s, run[0]), run[1..]);
      Associate(s.log.messages, MessageOf(run[0]), Logged(run[1..]));
    }
  }

  /**
   In every interleaving of producers with the consumer, for messages of any length, no pointer is
   null when it is followed, no vector empty when its back is taken, no assertion fails, and no
   buffer has two owners.
   */
  lemma RecyclingAlwaysPossible(run: seq<Action>)
    requires LegalFrom(INIT, run)
    ensures var s := After(INIT, run);
            && s.pc != Crashed
            && s.current.Some?
            && (s.next.None? ==> s.full != [])
            && (s.pc == Head ==> EmptySpare(s, s.spare1) && EmptySpare(s, s.spare2) && s.batch == [])
            && AllOnce(Owned(s))
  {
    InitInv();
    RunKeepsInv(INIT, run);
  }

  /**
   What has been written are whole messages, in order, none twice, and the file is just that with
   whole notices in between.  Until buffers are discarded, the file followed by the unwritten
   buffers is every message appended so far that is shorter than a buffer.
   */
  lemma StreamIntegrity(run: seq<Action>)
    requires LegalFrom(INIT, run)
    ensures var s := After(INIT, run);
            && s.log.messages == Logged(run)
            && Ordered(s.log.ranges, |s.log.messages|) && NoticesOrdered(s.log.notices, |s.log.ranges|)
            && s.log.file == FileText(Logged(run), s.log.ranges, s.log.notices)
            && s.log.written == RangesText(Logged(run), s.log.ranges)
            && s.current.Some? && AllIn(Line(s), s.store)
            && (s.log.notices == [] ==> s.log.file + Texts(s.store, Line(s)) == Concat(Logged(run)))
  {
    InitInv();
    RunKeepsInv(INIT, run);
    assert [] + Logged(run) == Logged(run);
    StreamOf(After(INIT, run));
  }

  lemma StreamOf(s: State)
    requires Inv(s)
    ensures AllIn(Line(s), s.store)
    ensures LogOk(s.log, s.store[Line(s)[0]].from)
    ensures !s.log.Discarded() ==> s.log.file == s.log.written
    ensures !s.log.Discarded() ==> s.log.file + Texts(s.store, Line(s)) == Concat(s.log.messages)
  {
    if !s.log.Discarded() { LineFollowsFile(s.store, Line(s), s.log); }
  }

  lemma LineFollowsFile(store: map<Id, Content>, u: seq<Id>, log: Log)
    requires LineAndFile(store, u, log) && !log.Discarded()
    ensures log.file + Texts(store, u) == Concat(log.messages)
  {
    var from := store[u[0]].from;
    ChainText(store, u, log.messages);
    assert log.messages == log.messages[..from] + log.messages[from..];
    ConcatAppend(log.messages[..from], log.messages[from..]);
  }

  lemma {:induction false} TextsAppend(store: map<Id, Content>, u: seq<Id>, v: seq<Id>)
    requires forall i :: 0 <= i < |u| ==> u[i] in store
    requires forall i :: 0 <= i < |v| ==> v[i] in store
    ensures forall i :: 0 <= i < |u + v| ==> (u + v)[i] in store
    ensures Texts(store, u + v) == Texts(store, u) + Texts(store, v)
    decreases |u|
  {
    if u == [] {
      assert u + v == v;
    } else {
      TextsAppend(store, u[1..], v);
      assert (u + v)[1..] == u[1..] + v;
    }
  }

  lemma {:induction false} TextsSame(store: map<Id, Content>, store1: map<Id, Content>, u: seq<Id>)
    requires forall i :: 0 <= i < |u| ==> u[i] in store && u[i] in store1 && store[u[i]] == store1[u[i]]
    ensures Texts(store, u) == Texts(store1, u)
    decreases |u|
  {
    if u != [] { TextsSame(store, store1, u[1..]); }
  }

  /**
   After any run in which nothing was discarded a further message gets into the stream exactly when
   it is shorter than a buffer; a longer one is lost without a word.
   */
  lemma AppendLoggedIff(run: seq<Action>, m: string)
    requires LegalFrom(INIT, run) && After(INIT, run).log.notices == []
    ensures After(INIT, run).pc != Crashed && LegalFrom(INIT, run + [Append(m)])
    ensures var s, t := After(INIT, run), After(INIT, run + [Append(m)]);
            && s.current.Some? && AllIn(Line(s), s.store) && t.current.Some? && AllIn(Line(t), t.store)
            && (t.log.file + Texts(t.store, Line(t)) == s.log.file + Texts(s.store, Line(s)) + m <==> |m| < 4194304)
  {
    InitInv();
    RunKeepsInv(INIT, run);
    var s := After(INIT, run);
    AfterSnoc(INIT, run, Append(m));
    InStore(s);
    assert Apply(s, Append(m)) == AppendStep(s, m);
    AppendKeepsInv(s, m);
    StreamOf(s);
    StreamOf(AppendStep(s, m));
    assert |m| < SIZE ==> (s.log.messages + [m])[..|s.log.messages|] == s.log.messages;
  }

  lemma {:induction false} AfterSnoc(s: State, run: seq<Action>, a: Action)
    requires LegalFrom(s, run) && Enabled(After(s, run), a)
    ensures LegalFrom(s, run + [a]) && After(s, run + [a]) == Apply(After(s, run), a)
    decreases |run|
  {
    if run == [] {
      assert ([] + [a])[1..] == [];
    } else {
      assert (run + [a])[1..] == run[1..] + [a];
      AfterSnoc(Apply(s, run[0]), run[1..], a);
    }
  }

  /* ---------------------------------------------------------------- stop() */

  /** What the consumer does next. */
  function Next(s: State): Action
    requires s.pc !in {Done, Crashed}
  {
    match s.pc
    case Head => Test
    case Locking => Lock
    case Waiting => WakeUp
    case Trimming => Trim("")
    case Writing(_) => WriteOne
    case Refilling => Refill
    case Done => Stop
    case Crashed => Stop
  }

  function Stepped(s: State): State
    requires s.pc !in {Done, Crashed}
  {
    Apply(s, Next(s))
  }

  /** How many steps the consumer can still make after stop(). */
  function Rank(s: State): nat {
    match s.pc
    case Head => 1
    case Locking => 6 + |s.full|
    case Waiting => 6 + |s.full|
    case Trimming => 4 + |s.batch|
    case Writing(i) => if i <= |s.batch| then 3 + |s.batch| - i else 3
    case Refilling => 2
    case Done => 0
    case Crashed => 0
  }

  lemma RankDecreases(s: State)
    requires s.pc !in {Done, Crashed} && !s.running
    ensures Rank(Stepped(s)) < Rank(s) && !Stepped(s).running
  {
    match s.pc
    case Refilling => RefillEnds(s);
    case Locking => SwapOutEnds(s);
    case Waiting => SwapOutEnds(s);
    case _ =>
  }

  lemma RefillEnds(s: State)
    ensures RefillStep(s).pc in {Head, Crashed} && RefillStep(s).running == s.running
  {
  }

  lemma SwapOutEnds(s: State)
    ensures var t := SwapOut(s);
            t.running == s.running && (t.pc == Crashed || (t.pc == Trimming && |t.batch| == |s.full| + 1))
  {
  }

  /** After stop(), when nothing more is appended, the consumer always comes to an end. */
  function Finish(s: State): (t: State)
    requires !s.running
    ensures t.pc in {Done, Crashed}
    decreases Rank(s)
  {
    if s.pc in {Done, Crashed} then s
    else
      RankDecreases(s);
      Finish(Stepped(s))
  }

  /** What the consumer has taken, or is about to take. */
  function Swallowed(s: State): seq<Id>
    requires s.current.Some?
  {
    if s.pc in {Locking, Waiting} then Line(s) else Unwritten(s)
  }

  /** It is more than it will write, and the excess has not been cut off yet. */
  predicate Overloaded(s: State)
    requires s.current.Some?
  {
    s.pc in {Locking, Waiting, Trimming} && |Swallowed(s)| > MOST_BUFFERS
  }

  /** The buffers that will be discarded, those that will be written, and those nobody will take. */
  function Dropped(s: State): seq<Id>
    requires s.current.Some?
  {
    if Overloaded(s) then Swallowed(s)[2..] else []
  }

  function Kept(s: State): seq<Id>
    requires s.current.Some?
  {
    if Overloaded(s) then Swallowed(s)[..2] else Swallowed(s)
  }

  function LeftBehind(s: State): seq<Id>
    requires s.current.Some?
  {
    if s.pc in {Locking, Waiting} then [] else s.full + [s.current.value]
  }

  /** Going from `s` to `t` the consumer has written what it no longer has to write. */
  ghost predicate Accounts(s: State, t: State) {
    && s.current.Some? && t.current.Some?
    && AllIn(Kept(s), s.store) && AllIn(Kept(t), t.store)
    && s.log.written + Texts(s.store, Kept(s)) == t.log.written + Texts(t.store, Kept(t))
  }

  lemma WriteAccounts(s: State, t: State)
    requires s.current.Some? && s.pc.Writing? && AllIn(s.batch, s.store)
    requires t == Apply(s, WriteOne)
    ensures Accounts(s, t)
  {
    if s.pc.i < |s.batch| {
      OneWritten(s, s.store[s.batch[s.pc.i]]);
      assert t == Wrote(s, s.store[s.batch[s.pc.i]], s.pc.i + 1);
    }
  }

  lemma OneWritten(s: State, c: Content)
    requires s.current.Some? && s.pc.Writing? && AllIn(s.batch, s.store)
    requires s.pc.i < |s.batch| && c == s.store[s.batch[s.pc.i]]
    ensures Accounts(s, Wrote(s, c, s.pc.i + 1))
  {
    FirstText(s.store, s.batch, s.pc.i);
    AssocText(s.log.written, c.data, Texts(s.store, s.batch[s.pc.i + 1..]));
  }

  lemma FirstText(store: map<Id, Content>, u: seq<Id>, i: nat)
    requires i < |u| && AllIn(u, store)
    ensures AllIn(u[i..], store) && AllIn(u[i + 1..], store)
    ensures Texts(store, u[i..]) == store[u[i]].data + Texts(store, u[i + 1..])
  {
    assert u[i..][1..] == u[i + 1..];
  }

  lemma AssocText(a: string, b: string, c: string)
    ensures a + (b + c) == a + b + c
  {
  }

  lemma SwapAccounts(s: State, t: State)
    requires s.current.Some? && s.spare1.Some? && s.pc in {Locking, Waiting} && t == SwapOut(s)
    requires s.spare1.value !in Line(s) && AllIn(Line(s), s.store)
    ensures Accounts(s, t)
  {
    assert t.batch == Line(s);
    assert Kept(t) == Kept(s) && |Kept(s)| <= |Line(s)|;
    forall i | 0 <= i < |Kept(s)|
      ensures Kept(s)[i] in s.store && Kept(s)[i] in t.store && s.store[Kept(s)[i]] == t.store[Kept(s)[i]]
    {
      assert Kept(s)[i] == Line(s)[i] && Line(s)[i] in Line(s);
    }
    TextsSame(s.store, t.store, Kept(s));
  }

  lemma RefillAccounts(s: State, t: State)
    requires Pointers(s) && s.pc == Refilling
    requires t == RefillStep(s)
    ensures Accounts(s, t)
  {
  }

  lemma TrimAccounts(s: State, t: State)
    requires s.current.Some? && s.pc == Trimming && AllIn(s.batch, s.store)
    requires t == Apply(s, Trim(""))
    ensures Accounts(s, t)
  {
    assert t.batch[0..] == t.batch;
  }

  lemma TestAccounts(s: State, t: State)
    requires s.current.Some? && s.pc == Head && !s.running
    requires t == Apply(s, Test)
    ensures Accounts(s, t)
  {
  }

  lemma NextKeepsInv(s: State)
    requires s.pc !in {Done, Crashed} && Inv(s)
    ensures Inv(Stepped(s)) && Stepped(s).pc != Crashed
  {
    StepKeepsInv(s, Next(s));
  }

  lemma NextMessages(s: State)
    requires s.pc !in {Done, Crashed} && Stepped(s).pc != Crashed
    ensures Stepped(s).log.messages == s.log.messages
  {
    MessagesKept(s, Next(s));
    assert s.log.messages + [] == s.log.messages;
  }

  lemma StepAccounts(s: State, t: State)
    requires s.pc !in {Done, Crashed} && t == Stepped(s)
    requires Inv(s) && !s.running
    ensures Accounts(s, t)
  {
    match s.pc
    case Head => TestAccounts(s, t);
    case Refilling => RefillAccounts(s, t);
    case Writing(i) => InStore(s); WriteAccounts(s, t);
    case Trimming => InStore(s); TrimAccounts(s, t);
    case Locking => LineDistinct(s); SwapAccounts(s, t);
    case Waiting => LineDistinct(s); SwapAccounts(s, t);
  }

  /** It writes exactly the buffers that will be written, and then ends. */
  lemma {:induction false} FinishWrites(s: State)
    requires Inv(s) && !s.running
    ensures AllIn(Kept(s), s.store)
    ensures Finish(s).pc == Done && Finish(s).log.messages == s.log.messages
    ensures Finish(s).log.written == s.log.written + Texts(s.store, Kept(s))
    decreases Rank(s)
  {
    if s.pc != Done {
      RankDecreases(s);
      StepAccounts(s, Stepped(s));
      NextKeepsInv(s);
      NextMessages(s);
      FinishWrites(Stepped(s));
    }
  }

  /** The buffers in line are those written, those discarded and those left behind. */
  lemma LineSplits(s: State)
    requires s.current.Some?
    ensures Line(s) == Kept(s) + Dropped(s) + LeftBehind(s)
  {
    assert Line(s) == Swallowed(s) + LeftBehind(s);
    assert Swallowed(s) == Kept(s) + Dropped(s);
  }

  lemma TextsSplit(store: map<Id, Content>, a: seq<Id>, b: seq<Id>, c: seq<Id>)
    requires AllIn(a + b + c, store)
    ensures AllIn(a, store) && AllIn(b, store) && AllIn(c, store)
    ensures Texts(store, a + b + c) == Texts(store, a) + (Texts(store, b) + Texts(store, c))
  {
    AllInParts(store, a + b, c);
    AllInParts(store, a, b);
    TextsAppend(store, a + b, c);
    TextsAppend(store, a, b);
  }

  lemma AllInParts(store: map<Id, Content>, a: seq<Id>, b: seq<Id>)
    requires AllIn(a + b, store)
    ensures AllIn(a, store) && AllIn(b, store)
  {
    assert forall i :: 0 <= i < |a| ==> (a + b)[i] == a[i];
    assert forall i :: 0 <= i < |b| ==> (a + b)[|a| + i] == b[i];
  }

  /**
   stop() when nothing is appended any more: everything that was still in the buffers is written in
   the end exactly when the buffers that will be discarded and those left behind are empty.  If
   nothing had been discarded before, that is every message.
   */
  lemma DrainIff(s: State)
    requires Inv(s) && !s.running
    ensures AllIn(Line(s), s.store) && AllIn(Dropped(s), s.store) && AllIn(LeftBehind(s), s.store)
    ensures Finish(s).pc == Done && Finish(s).log.messages == s.log.messages
    ensures Finish(s).log.written == s.log.written + Texts(s.store, Line(s))
            <==> Texts(s.store, Dropped(s)) == "" && Texts(s.store, LeftBehind(s)) == ""
    ensures s.log.notices == [] ==> s.log.written + Texts(s.store, Line(s)) == Concat(s.log.messages)
  {
    StreamOf(s);
    LineSplits(s);
    TextsSplit(s.store, Kept(s), Dropped(s), LeftBehind(s));
    FinishWrites(s);
  }

  /** One short message, then stop(), before the consumer has tested the flag: the message is lost. */
  lemma StopLosesMessage()
    ensures LegalFrom(INIT, [Append("x"), Stop])
    ensures var s := After(INIT, [Append("x"), Stop]);
            && !s.running && s.log.messages == ["x"]
            && Finish(s).pc == Done && Finish(s).log.file == "" == Finish(s).log.written
  {
    var s1 := Apply(INIT, Append("x"));
    var s2 := Apply(s1, Stop);
    assert [Append("x"), Stop][1..] == [Stop] && [Stop][1..] == [];
    assert LegalFrom(s1, [Stop]) && After(s1, [Stop]) == s2;
    assert [] + ["x"] == ["x"];
    assert Finish(s2) == Finish(Stepped(s2));
  }
}

/** The object, one method for each critical section and for the consumer's work between two of them. */
module AsyncLoggings {
  import opened Options
  import opened LogProtocol

  class AsyncLogging {
    var running: bool
    var pc: Pc
    var currentBuffer: Option<Id>
    var nextBuffer: Option<Id>
    var fullBuffers: seq<Id>
    var newBuffer1: Option<Id>
    var newBuffer2: Option<Id>
    var buffersToWrite: seq<Id>
    var store: map<Id, Content>
    var unused: Id
    var file: string
    var appended: nat            // the number of the next message
    ghost var g: State           // the whole state, with the history

    ghost predicate Matches()
      reads this
    {
      && running == g.running && pc == g.pc && currentBuffer == g.current && nextBuffer == g.next
      && fullBuffers == g.full && newBuffer1 == g.spare1 && newBuffer2 == g.spare2 && buffersToWrite == g.batch
      && store == g.store && unused == g.unused && file == g.log.file
      && appended == |g.log.messages|
    }

    ghost predicate Valid()
      reads this
    {
      Matches() && Inv(g)
    }

    constructor ()
      ensures Valid() && g == INIT
    {
      running, pc, currentBuffer, nextBuffer, fullBuffers := true, Head, Some(0), Some(1), [];
      newBuffer1, newBuffer2, buffersToWrite, store, unused := Some(2), Some(3), [], INIT.store, 4;
      file, appended, g := "", 0, INIT;
      InitInv();
    }

    /** Called by any producer; the mutex makes it one step. */
    method Append(m: string)
      requires Valid()
      modifies this
      ensures Valid() && g == AppendStep(old(g), m)
    {
      InStore(g);
      AppendKeepsInv(g, m);
      if SIZE - |store[currentBuffer.value].data| <= |m| {
        ChangeBuffer();
      }
      PutInCurrent(m);
    }

    method ChangeBuffer()
      requires Matches() && currentBuffer.Some?
      modifies this
      ensures Matches() && g == Rotate(old(g))
    {
      ghost var after := Rotate(g);
      fullBuffers := fullBuffers + [currentBuffer.value];
      if nextBuffer.Some? {
        currentBuffer, nextBuffer := nextBuffer, None;
      } else {
        currentBuffer, unused := Some(unused), unused + 1;
      }
      Activate();
      g := after;
    }

    /** The buffer in use keeps its text; the next message is the first it will get. */
    method Activate()
      requires currentBuffer.Some? && store == g.store && appended == |g.log.messages|
      modifies this`store
      ensures store == g.store[currentBuffer.value := Content(Data(g, currentBuffer.value), appended, appended)]
    {
      var left := if currentBuffer.value in store then store[currentBuffer.value].data else "";
      store := store[currentBuffer.value := Content(left, appended, appended)];
    }

    method PutInCurrent(m: string)
      requires Matches() && currentBuffer.Some? && currentBuffer.value in store
      modifies this`store, this`appended, this`g
      ensures Matches() && g == PutStep(old(g), m)
    {
      g := PutStep(g, m);
      store := store[currentBuffer.value := Put(store[currentBuffer.value], m)];
      if |m| < SIZE {
        appended := appended + 1;
      }
    }

    /** The head of the consumer's loop: the flag, and the three assertions behind it. */
    method TestRunning() returns (more: bool)
      requires Valid() && pc == Head
      modifies this`pc, this`g
      ensures Valid() && g == Apply(old(g), Test) && (more <==> running)
    {
      TestKeepsInv(g);
      SparesReady(g);
      more := LeaveHead();
    }

    method LeaveHead() returns (more: bool)
      requires Matches() && pc == Head && EmptySpare(g, g.spare1) && EmptySpare(g, g.spare2) && g.batch == []
      modifies this`pc, this`g
      ensures Matches() && g == Apply(old(g), Test) && (more <==> running)
    {
      more := running;
      if more {
        assert newBuffer1.Some? && Data(g, newBuffer1.value) == "";
        assert newBuffer2.Some? && Data(g, newBuffer2.value) == "";
        assert buffersToWrite == [];
      }
      g := Apply(g, Test);
      pc := if more then Locking else Done;
    }

    /** Entering the critical section: without a full buffer the consumer waits. */
    method EnterCritical()
      requires Valid() && pc == Locking
      modifies this
      ensures Valid() && g == Apply(old(g), Lock)
    {
      LockKeepsInv(g);
      SparesReady(g);
      LockBuffers();
    }

    method LockBuffers()
      requires Matches() && pc == Locking && currentBuffer.Some? && newBuffer1.Some?
      modifies this
      ensures Matches() && g == Apply(old(g), Lock)
    {
      if fullBuffers == [] && running {
        pc, g := Waiting, Apply(g, Lock);
      } else {
        SwapBuffers();
      }
    }

    /** waitForSeconds has returned, for whatever reason; with nothing to write it waits again. */
    method WaitReturns()
      requires Valid() && pc == Waiting
      modifies this
      ensures Valid() && g == Apply(old(g), WakeUp)
    {
      WakeUpKeepsInv(g);
      SparesReady(g);
      InStore(g);
      LookAgain();
    }

    method LookAgain()
      requires Matches() && pc == Waiting && currentBuffer.Some? && currentBuffer.value in store && newBuffer1.Some?
      modifies this
      ensures Matches() && g == Apply(old(g), WakeUp)
    {
      if store[currentBuffer.value].data != "" || fullBuffers != [] || !running {
        SwapBuffers();
      }
    }

    /** The end of the consumer's critical section. */
    method TakeBuffers()
      requires Valid() && pc in {Locking, Waiting}
      modifies this
      ensures Valid() && g == SwapOut(old(g))
    {
      SwapOutKeepsInv(g);
      SwapBuffers();
    }

    method SwapBuffers()
      requires Matches() && currentBuffer.Some? && newBuffer1.Some?
      modifies this
      ensures Matches() && g == SwapOut(old(g))
    {
      ghost var after := SwapOut(g);
      fullBuffers := fullBuffers + [currentBuffer.value];
      buffersToWrite, fullBuffers := fullBuffers, [];
      HandOut();
      pc, g := Trimming, after;
    }

    /** The spare buffers take the places of those that were taken. */
    method HandOut()
      requires newBuffer1.Some? && store == g.store && appended == |g.log.messages|
      modifies this`currentBuffer, this`newBuffer1, this`nextBuffer, this`newBuffer2, this`store
      ensures currentBuffer == old(newBuffer1) && newBuffer1 == None
      ensures nextBuffer == if old(nextBuffer).Some? then old(nextBuffer) else old(newBuffer2)
      ensures newBuffer2 == if old(nextBuffer).Some? then old(newBuffer2) else None
      ensures store == g.store[currentBuffer.value := Content(Data(g, currentBuffer.value), appended, appended)]
    {
      currentBuffer, newBuffer1 := newBuffer1, None;
      Activate();
      if nextBuffer.None? {
        nextBuffer, newBuffer2 := newBuffer2, None;
      }
    }

    /** More than 25 buffers: say so in the file and keep two. */
    method DiscardExcess(notice: string)
      requires Valid() && pc == Trimming
      modifies this
      ensures Valid() && g == Apply(old(g), Trim(notice))
    {
      TrimKeepsInv(g, notice);
      CutExcess(notice);
    }

    method CutExcess(notice: string)
      requires Matches() && pc == Trimming
      modifies this
      ensures Matches() && g == Apply(old(g), Trim(notice))
    {
      g := Apply(g, Trim(notice));
      if |buffersToWrite| > MOST_BUFFERS {
        file := file + notice;
        buffersToWrite := buffersToWrite[..2];
      }
      pc := Writing(0);
    }

    /** The writing loop. */
    method WriteBatch()
      requires Valid() && pc == Writing(0)
      modifies this`pc, this`file, this`g
      ensures Valid() && pc == Refilling && AllIn(buffersToWrite, store)
      ensures file == old(file) + Texts(store, buffersToWrite)
      ensures g.log.ranges == old(g).log.ranges + RangesOf(store, buffersToWrite)
      ensures g == old(g).(pc := Refilling, log := g.log)
    {
      WriteRestKeepsInv(g);
      WriteRestSpec(g);
      assert buffersToWrite[0..] == buffersToWrite;
      WriteLoop();
    }

    method WriteLoop()
      requires Matches() && pc == Writing(0) && AllIn(buffersToWrite, store)
      modifies this`pc, this`file, this`g
      ensures Matches() && g == WriteRest(old(g))
    {
      var i := 0;
      while i < |buffersToWrite|
        invariant Matches() && pc == Writing(i) && WriteRest(g) == WriteRest(old(g))
      {
        WriteNext(i);
        i := i + 1;
      }
      pc, g := Refilling, g.(pc := Refilling);
    }

    method WriteNext(i: nat)
      requires Matches() && i < |buffersToWrite| && buffersToWrite[i] in store
      modifies this`pc, this`file, this`g
      ensures Matches() && g == Wrote(old(g), store[buffersToWrite[i]], i + 1)
    {
      g := Wrote(g, store[buffersToWrite[i]], i + 1);
      file := file + store[buffersToWrite[i]].data;
      pc := Writing(i + 1);
    }

    /** Two buffers of the batch, at most, become the spare ones; the others are freed. */
    method RefillSpares()
      requires Valid() && pc == Refilling
      modifies this
      ensures Valid() && g == RefillStep(old(g))
      ensures newBuffer1.Some? && newBuffer2.Some? && buffersToWrite == []
    {
      RefillKeepsInv(g);
      RecycleBuffers();
    }

    method RecycleBuffers()
      requires Matches()
      requires |buffersToWrite| >= (if newBuffer1.None? then 1 else 0) + (if newBuffer2.None? then 1 else 0)
      modifies this
      ensures Matches() && g == RefillStep(old(g))
      ensures newBuffer1.Some? && newBuffer2.Some? && buffersToWrite == []
    {
      ghost var after := RefillStep(g);
      if |buffersToWrite| > 2 {
        buffersToWrite := buffersToWrite[..2];
      }
      if newBuffer1.None? {
        var id := PopBack();
        newBuffer1 := Some(id);
      }
      if newBuffer2.None? {
        var id := PopBack();
        newBuffer2 := Some(id);
      }
      buffersToWrite, pc, g := [], Head, after;
    }

    /** back(), pop_back() and reset(). */
    method PopBack() returns (id: Id)
      requires buffersToWrite != []
      modifies this`buffersToWrite, this`store
      ensures id == old(buffersToWrite)[|old(buffersToWrite)| - 1]
      ensures buffersToWrite == old(buffersToWrite)[..|old(buffersToWrite)| - 1]
      ensures store == Emptied(old(store), id, true)
    {
      id := buffersToWrite[|buffersToWrite| - 1];
      buffersToWrite := buffersToWrite[..|buffersToWrite| - 1];
      store := store[id := Content("", 0, 0)];
    }
  }
}
