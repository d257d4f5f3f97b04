/**
 The byte buffer (matelib/Buffer.h, matelib/Buffer.cc).

 A buffer stands for the text between its two indices.  `BufferOps` says what every operation does
 to that text and to the three numbers that shape the storage; class `Buffer` does the same with
 indices, lazy deletion, compaction and growth.
 */
module BufferOps {
  const CHEAP_PREPEND: nat := 8
  const INITIAL_SIZE: nat := 1024
  const EXTRA_BUF: nat := 65536

  /** Size of the storage and the two indices into it. */
  datatype Shape = Shape(size: nat, read: nat, write: nat) {
    ghost predicate Valid() {
      CHEAP_PREPEND <= read <= write <= size
    }

    function Readable(): int {
      write - read
    }

    function Writable(): int {
      size - write
    }
  }

  const INITIAL: Shape := Shape(CHEAP_PREPEND + INITIAL_SIZE, CHEAP_PREPEND, CHEAP_PREPEND)

  /** What `readv` reports. */
  datatype ReadResult = Received(data: string) | Failed {
    function Data(): string {
      if Received? then data else ""
    }
  }

  datatype Op =
    | Append(data: string)
    | Retrieve(n: nat)
    | Erase(at: nat, len: nat)
    | Clear
    | ReadFd(result: ReadResult)

  /** What the callers of the operation must respect (Buffer.h:115, Buffer.h:162-163), and what `readv` can return. */
  predicate Legal(op: Op, s: Shape) {
    match op
    case Append(_) => true
    case Retrieve(n) => n <= s.Readable()
    case Erase(at, len) => at + len <= s.Readable()
    case Clear => true
    case ReadFd(result) => |result.Data()| <= s.Writable() + EXTRA_BUF
  }

  /** The operations on the text a buffer stands for. */
  function ApplyText(op: Op, s: string): string
    requires op.Retrieve? ==> op.n <= |s|
    requires op.Erase? ==> op.at + op.len <= |s|
  {
    match op
    case Append(data) => s + data
    case Retrieve(n) => s[n..]
    case Erase(at, len) => s[..at] + s[at + len..]
    case Clear => []
    case ReadFd(result) => s + result.Data()
  }

  function RetrieveShape(s: Shape, n: nat): (r: Shape)
    requires s.Valid() && n <= s.Readable()
    ensures r.Valid() && r.Readable() == s.Readable() - n && r.size == s.size
  {
    if n < s.Readable() then s.(read := s.read + n)
    else Shape(s.size, CHEAP_PREPEND, CHEAP_PREPEND)
  }

  /** Use the free space at the end, else slide the text down, else grow. */
  function AppendShape(s: Shape, n: nat): (r: Shape)
    requires s.Valid()
    ensures r.Valid() && r.Readable() == s.Readable() + n && r.size >= s.size
  {
    if n <= s.Writable() then s.(write := s.write + n)
    else if s.Writable() + s.read < n + CHEAP_PREPEND then Shape(s.write + n, s.read, s.write + n)
    else Shape(s.size, CHEAP_PREPEND, CHEAP_PREPEND + s.Readable() + n)
  }

  function ReadFdShape(s: Shape, n: nat): (r: Shape)
    requires s.Valid()
    ensures r.Valid() && r.Readable() == s.Readable() + n
  {
    if n <= s.Writable() then s.(write := s.write + n)
    else AppendShape(s.(write := s.size), n - s.Writable())
  }

  function ApplyShape(op: Op, s: Shape): (r: Shape)
    requires s.Valid() && Legal(op, s)
    ensures r.Valid()
  {
    match op
    case Append(data) => AppendShape(s, |data|)
    case Retrieve(n) => RetrieveShape(s, n)
    case Erase(at, len) =>
      if at == 0 then RetrieveShape(s, len) else Shape(s.size - len, s.read, s.write - len)
    case Clear => Shape(s.size, CHEAP_PREPEND, CHEAP_PREPEND)
    case ReadFd(result) => ReadFdShape(s, |result.Data()|)
  }

  /** `ops` can be issued one after the other, starting from `s`. */
  ghost predicate LegalRun(ops: seq<Op>, s: Shape)
    requires s.Valid()
    decreases |ops|
  {
    ops == [] || (Legal(ops[0], s) && LegalRun(ops[1..], ApplyShape(ops[0], s)))
  }

  ghost function RunShape(ops: seq<Op>, s: Shape): Shape
    requires s.Valid() && LegalRun(ops, s)
    decreases |ops|
  {
    if ops == [] then s else RunShape(ops[1..], ApplyShape(ops[0], s))
  }

  /** The largest number of readable bytes before, during and after the run. */
  ghost function Peak(ops: seq<Op>, s: Shape): nat
    requires s.Valid() && LegalRun(ops, s)
    decreases |ops|
  {
    if ops == [] then s.Readable()
    else
      var rest := Peak(ops[1..], ApplyShape(ops[0], s));
      if rest > s.Readable() then rest else s.Readable()
  }

  ghost function SpaceLimit(h: nat): nat {
    if 2 * h + 7 > 1032 then 2 * h + 7 else 1032
  }

  lemma StepStaysSmall(op: Op, s: Shape, h: nat)
    requires s.Valid() && Legal(op, s)
    requires s.size <= SpaceLimit(h)
    requires s.Readable() <= h && ApplyShape(op, s).Readable() <= h
    ensures ApplyShape(op, s).size <= SpaceLimit(h)
  {
  }

  lemma {:induction false} SizeWithinLimit(ops: seq<Op>, s: Shape, h: nat)
    requires s.Valid() && LegalRun(ops, s)
    requires s.size <= SpaceLimit(h) && Peak(ops, s) <= h
    ensures RunShape(ops, s).size <= SpaceLimit(h)
    decreases |ops|
  {
    if ops != [] {
      StepStaysSmall(ops[0], s, h);
      SizeWithinLimit(ops[1..], ApplyShape(ops[0], s), h);
    }
  }

  /**
   However appends and retrieves are interleaved, a buffer that started with the default
   capacity never takes more than about twice the most text it ever held.
   */
  lemma SpaceBound(ops: seq<Op>)
    requires LegalRun(ops, INITIAL)
    ensures RunShape(ops, INITIAL).size <= SpaceLimit(Peak(ops, INITIAL))
  {
    SizeWithinLimit(ops, INITIAL, Peak(ops, INITIAL));
  }
}

module Buffers {
  import opened Options
  import opened Search
  import opened BufferOps

  class Buffer {
    var storage: string
    var readIndex: nat
    var writeIndex: nat

    ghost predicate Valid()
      reads this
    {
      CHEAP_PREPEND <= readIndex <= writeIndex <= |storage|
    }

    /** The text the buffer stands for. */
    ghost function Text(): (s: string)
      requires Valid()
      reads this
    {
      storage[readIndex..writeIndex]
    }

    ghost function Shape(): (s: Shape)
      reads this
      ensures Valid() ==> s.Valid() && s.Readable() == |Text()|
    {
      BufferOps.Shape(|storage|, readIndex, writeIndex)
    }

    constructor ()
      ensures Valid() && Text() == [] && Shape() == INITIAL
      ensures |storage| == 1032 && readIndex == writeIndex == 8
    {
      storage := seq(CHEAP_PREPEND + INITIAL_SIZE, _ => '\0');
      readIndex, writeIndex := CHEAP_PREPEND, CHEAP_PREPEND;
    }

    constructor Copy(rhs: Buffer)
      requires rhs.Valid()
      ensures Valid() && Text() == rhs.Text()
      ensures Shape() == BufferOps.Shape(1032 + |Text()|, 8, 8 + |Text()|)
    {
      storage := seq(CHEAP_PREPEND + INITIAL_SIZE + (rhs.writeIndex - rhs.readIndex), _ => '\0');
      readIndex, writeIndex := CHEAP_PREPEND, CHEAP_PREPEND;
      new;
      Append(rhs.storage[rhs.readIndex..rhs.writeIndex]);
    }

    constructor Move(rhs: Buffer)
      requires rhs.Valid()
      modifies rhs
      ensures Valid() && Text() == old(rhs.Text()) && Shape() == old(rhs.Shape())
      ensures rhs.Valid() && rhs.Text() == [] && rhs.Shape() == INITIAL
    {
      storage := seq(CHEAP_PREPEND + INITIAL_SIZE, _ => '\0');
      readIndex, writeIndex := CHEAP_PREPEND, CHEAP_PREPEND;
      new;
      Swap(rhs);
    }

    method Swap(rhs: Buffer)
      requires Valid() && rhs.Valid()
      modifies this, rhs
      ensures Valid() && rhs.Valid()
      ensures Text() == old(rhs.Text()) && Shape() == old(rhs.Shape())
      ensures rhs.Text() == old(Text()) && rhs.Shape() == old(Shape())
    {
      storage, rhs.storage := rhs.storage, storage;
      readIndex, rhs.readIndex := rhs.readIndex, readIndex;
      writeIndex, rhs.writeIndex := rhs.writeIndex, writeIndex;
    }

    /** `std::search` over [start, writeIndex); returns writeIndex when there is no occurrence. */
    method SearchIn(start: nat, needle: string) returns (i: nat)
      requires Valid() && readIndex <= start <= writeIndex
      ensures start <= i <= writeIndex
      ensures FirstMatch(Text(), needle, start - readIndex, i - readIndex)
              || (i == writeIndex && forall j: nat :: start - readIndex <= j ==> !MatchAt(Text(), needle, j))
    {
      i := start;
      while i + |needle| <= writeIndex
        invariant start <= i <= writeIndex + 1
        invariant forall j: nat :: start - readIndex <= j < i - readIndex ==> !MatchAt(Text(), needle, j)
      {
        SliceOfSlice(storage, readIndex, writeIndex, i - readIndex, i - readIndex + |needle|);
        var here := OccursAt(i, needle);
        if here {
          return;
        }
        i := i + 1;
      }
      i := writeIndex;
    }

    method OccursAt(i: nat, needle: string) returns (here: bool)
      requires i + |needle| <= |storage|
      ensures here <==> storage[i..i + |needle|] == needle
    {
      var k := 0;
      while k < |needle| && storage[i + k] == needle[k]
        invariant k <= |needle|
        invariant forall j :: 0 <= j < k ==> storage[i + j] == needle[j]
      {
        k := k + 1;
      }
      here := k == |needle|;
      assert !here ==> storage[i..i + |needle|][k] == storage[i + k];
    }

    /** The offset of the first CRLF of the text, if there is one. */
    method FindCRLF() returns (r: Option<nat>)
      requires Valid()
      ensures r == FindCrlf(Text())
    {
      var i := SearchIn(readIndex, CRLF);
      r := if i == writeIndex then None else Some(i - readIndex);
    }

    method FindCRLFFrom(start: nat) returns (r: Option<nat>)
      requires Valid() && start <= |Text()|
      ensures r == FindFrom(Text(), CRLF, start)
    {
      var i := SearchIn(readIndex + start, CRLF);
      r := if i == writeIndex then None else Some(i - readIndex);
    }

    /** Any other text; the only occurrence that is not reported is the empty one in an empty buffer. */
    method FindStr(needle: string) returns (r: Option<nat>)
      requires Valid() && |needle| <= |Text()|
      ensures r == if Text() == [] then None else FindFrom(Text(), needle, 0)
    {
      var i := SearchIn(readIndex, needle);
      r := if i == writeIndex then None else Some(i - readIndex);
    }

    method Retrieve(n: nat)
      requires Valid() && n <= |Text()|
      modifies this
      ensures Valid() && Text() == old(Text())[n..]
      ensures Shape() == RetrieveShape(old(Shape()), n)
      ensures storage == old(storage)
      ensures if n == |old(Text())| then readIndex == writeIndex == 8
              else readIndex == old(readIndex) + n && writeIndex == old(writeIndex)
    {
      if n < writeIndex - readIndex {
        readIndex := readIndex + n;
      } else {
        RetrieveAll();
      }
    }

    method RetrieveUntil(end: nat)
      requires Valid() && readIndex <= end <= writeIndex
      modifies this
      ensures Valid() && Text() == old(Text())[end - old(readIndex)..]
      ensures Shape() == RetrieveShape(old(Shape()), end - old(readIndex))
    {
      Retrieve(end - readIndex);
    }

    method RetrieveAll()
      requires Valid()
      modifies this`readIndex, this`writeIndex
      ensures Valid() && Text() == []
      ensures Shape() == BufferOps.Shape(|storage|, CHEAP_PREPEND, CHEAP_PREPEND)
    {
      readIndex, writeIndex := CHEAP_PREPEND, CHEAP_PREPEND;
    }

    method RetrieveAsString(n: nat) returns (s: string)
      requires Valid() && n <= |Text()|
      modifies this
      ensures Valid() && s + Text() == old(Text()) && |s| == n
      ensures Shape() == RetrieveShape(old(Shape()), n)
    {
      s := storage[readIndex..readIndex + n];
      Retrieve(n);
    }

    method RetrieveAllAsString() returns (s: string)
      requires Valid()
      modifies this
      ensures Valid() && Text() == [] && s == old(Text())
      ensures Shape() == BufferOps.Shape(old(|storage|), CHEAP_PREPEND, CHEAP_PREPEND)
    {
      s := RetrieveAsString(writeIndex - readIndex);
    }

    /** `std::copy` of [from, to) down to `dest`: forwards, so that the ranges may overlap. */
    method CopyDown(from: nat, to: nat, dest: nat)
      requires dest <= from <= to <= |storage|
      modifies this`storage
      ensures |storage| == old(|storage|)
      ensures storage[dest..dest + (to - from)] == old(storage[from..to])
    {
      var k := 0;
      while k < to - from
        invariant k <= to - from
        invariant |storage| == old(|storage|)
        invariant forall j :: dest + k <= j < |storage| ==> storage[j] == old(storage)[j]
        invariant forall j :: dest <= j < dest + k ==> storage[j] == old(storage)[from + (j - dest)]
      {
        storage := storage[dest + k := storage[from + k]];
        k := k + 1;
      }
    }

    /** Makes room for `len` more bytes; the two assertions are those of the source. */
    method EnsureWritableBytes(len: nat)
      requires Valid()
      modifies this
      ensures Valid() && Text() == old(Text()) && len <= |storage| - writeIndex
      ensures AppendShape(old(Shape()), len) == AppendShape(Shape(), len)
    {
      if |storage| - writeIndex < len {
        if |storage| - writeIndex + readIndex < len + CHEAP_PREPEND {
          storage := storage[..writeIndex] + seq(len, _ => '\0');
        } else {
          assert CHEAP_PREPEND < readIndex;
          var readable := writeIndex - readIndex;
          CopyDown(readIndex, writeIndex, CHEAP_PREPEND);
          readIndex := CHEAP_PREPEND;
          writeIndex := readIndex + readable;
          assert readable == writeIndex - readIndex;
        }
      }
    }

    method Append(data: string)
      requires Valid()
      modifies this
      ensures Valid() && Text() == old(Text()) + data
      ensures Shape() == AppendShape(old(Shape()), |data|)
    {
      EnsureWritableBytes(|data|);
      storage := storage[..writeIndex] + data + storage[writeIndex + |data|..];
      writeIndex := writeIndex + |data|;
    }

    /** Removes `len` bytes from the middle; `at` is an offset into the text. */
    method Erase(at: nat, len: nat)
      requires Valid() && at + len <= |Text()|
      modifies this
      ensures Valid() && Text() == ApplyText(Op.Erase(at, len), old(Text()))
      ensures Shape() == ApplyShape(Op.Erase(at, len), old(Shape()))
    {
      if at == 0 {
        Retrieve(len);
      } else {
        var start := readIndex + at;
        storage := storage[..start] + storage[start + len..];
        writeIndex := writeIndex - len;
      }
    }

    /** Zeroes the bytes up to the write index, then forgets them. */
    method Clear()
      requires Valid()
      modifies this
      ensures Valid() && Text() == []
      ensures Shape() == BufferOps.Shape(old(|storage|), CHEAP_PREPEND, CHEAP_PREPEND)
      ensures forall i :: CHEAP_PREPEND <= i < old(writeIndex) ==> storage[i] == '\0'
      ensures storage[old(writeIndex)..] == old(storage[writeIndex..])
    {
      storage := storage[..CHEAP_PREPEND] + seq(writeIndex - CHEAP_PREPEND, _ => '\0') + storage[writeIndex..];
      RetrieveAll();
    }

    /**
     One `readv` into the free space and, beyond it, into a stack buffer that is then appended;
     `n` is what it returns, and a failed one changes nothing.
     */
    method ReadFd(result: ReadResult) returns (n: int)
      requires Valid() && |result.Data()| <= |storage| - writeIndex + EXTRA_BUF
      modifies this
      ensures Valid() && Text() == old(Text()) + result.Data()
      ensures Shape() == ReadFdShape(old(Shape()), |result.Data()|)
      ensures if result.Failed? then n == -1 && storage == old(storage) else n == |result.data|
    {
      if result.Failed? {
        return -1;
      }
      n := |result.data|;
      TakeIn(result.data);
    }

    /** The bytes that `readv` has put into the two pieces. */
    method TakeIn(incoming: string)
      requires Valid() && |incoming| <= |storage| - writeIndex + EXTRA_BUF
      modifies this
      ensures Valid() && Text() == old(Text()) + incoming
      ensures Shape() == ReadFdShape(old(Shape()), |incoming|)
    {
      var writable := |storage| - writeIndex;
      if |incoming| <= writable {
        storage := storage[..writeIndex] + incoming + storage[writeIndex + |incoming|..];
        writeIndex := writeIndex + |incoming|;
      } else {
        storage := storage[..writeIndex] + incoming[..writable];
        writeIndex := |storage|;
        Append(incoming[writable..]);
      }
    }

    method Perform(op: Op)
      requires Valid() && Legal(op, Shape())
      modifies this
      ensures Valid()
      ensures Text() == ApplyText(op, old(Text()))
      ensures Shape() == ApplyShape(op, old(Shape()))
    {
      match op
      case Append(data) => Append(data);
      case Retrieve(n) => Retrieve(n);
      case Erase(at, len) => Erase(at, len);
      case Clear => Clear();
      case ReadFd(result) => var n := ReadFd(result);
    }
  }

  /** Operations on two buffers, one of which the run works on at a time. */
  datatype PairOp = First(op: Op) | Second(op: Op) | SwapThem | CopyFirst

  /** What the two buffers stand for, and their shapes. */
  datatype Pair = Pair(text1: string, shape1: Shape, text2: string, shape2: Shape) {
    ghost predicate Valid() {
      shape1.Valid() && shape2.Valid() && |text1| == shape1.Readable() && |text2| == shape2.Readable()
    }
  }

  ghost predicate LegalPair(p: PairOp, s: Pair) {
    match p
    case First(op) => Legal(op, s.shape1)
    case Second(op) => Legal(op, s.shape2)
    case SwapThem => true
    case CopyFirst => true
  }

  ghost function ApplyPair(p: PairOp, s: Pair): (r: Pair)
    requires s.Valid() && LegalPair(p, s)
    ensures r.Valid()
  {
    match p
    case First(op) => s.(text1 := ApplyText(op, s.text1), shape1 := ApplyShape(op, s.shape1))
    case Second(op) => s.(text2 := ApplyText(op, s.text2), shape2 := ApplyShape(op, s.shape2))
    case SwapThem => Pair(s.text2, s.shape2, s.text1, s.shape1)
    case CopyFirst => s.(text2 := s.text1, shape2 := Shape.Shape(1032 + |s.text1|, 8, 8 + |s.text1|))
  }

  ghost predicate LegalPairRun(ops: seq<PairOp>, s: Pair)
    requires s.Valid()
    decreases |ops|
  {
    ops == [] || (LegalPair(ops[0], s) && LegalPairRun(ops[1..], ApplyPair(ops[0], s)))
  }

  ghost function RunPair(ops: seq<PairOp>, s: Pair): (r: Pair)
    requires s.Valid() && LegalPairRun(ops, s)
    ensures r.Valid()
    decreases |ops|
  {
    if ops == [] then s else RunPair(ops[1..], ApplyPair(ops[0], s))
  }

  const EMPTY_PAIR: Pair := Pair("", INITIAL, "", INITIAL)

  /** Two buffers behave as two strings under every sequence of operations, swaps and copies. */
  method Drive(ops: seq<PairOp>) returns (a: Buffer, b: Buffer)
    requires LegalPairRun(ops, EMPTY_PAIR)
    ensures a.Valid() && b.Valid() && a != b
    ensures Pair(a.Text(), a.Shape(), b.Text(), b.Shape()) == RunPair(ops, EMPTY_PAIR)
  {
    a := new Buffer();
    b := new Buffer();
    for i := 0 to |ops|
      invariant a.Valid() && b.Valid() && a != b && fresh(a) && fresh(b)
      invariant var now := Pair(a.Text(), a.Shape(), b.Text(), b.Shape());
                LegalPairRun(ops[i..], now) && RunPair(ops[i..], now) == RunPair(ops, EMPTY_PAIR)
    {
      assert ops[i..][1..] == ops[i + 1..];
      if ops[i].CopyFirst? {
        b := new Buffer.Copy(a);
      } else if ops[i].SwapThem? {
        a.Swap(b);
      } else if ops[i].First? {
        a.Perform(ops[i].op);
      } else {
        b.Perform(ops[i].op);
      }
    }
  }
}
