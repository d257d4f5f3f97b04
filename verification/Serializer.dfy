/**
 Typed values on the wire (rpc/Serializer.h), over the byte buffer of matelib/Buffer.h.  The host is
 little endian.  A byte is a character below 256.
 */
module Serialization {
  import opened Options
  import opened Search
  import LogStreams

  datatype ByteOrder = BigEndian | LittleEndian

  /** A type of fixed size, copied as it lies in memory, or a string. */
  datatype Type = PodT(size: nat) | StrT

  datatype Value = Pod(bytes: string) | Str(text: string)

  predicate HasType(v: Value, t: Type) {
    match v
    case Pod(bytes) => t == PodT(|bytes|)
    case Str(_) => t == StrT
  }

  predicate HaveTypes(vs: seq<Value>, ts: seq<Type>) {
    |vs| == |ts| && forall i :: 0 <= i < |vs| ==> HasType(vs[i], ts[i])
  }

  /** A variable before anything is decoded into it. */
  function Blank(t: Type): Value {
    match t
    case PodT(size) => Pod(seq(size, _ => '\0'))
    case StrT => Str("")
  }

  /** What strlen sees of a string. */
  function CString(s: string): string {
    s[..FindChar(s, '\0')]
  }

  /** strlen, stored in 16 bits. */
  function Length16(s: string): nat {
    |CString(s)| % 0x1_0000
  }

  function Octet(c: char): nat {
    c as int % 256
  }

  /** A 16-bit number in memory, and back. */
  function Mark(n: nat): string {
    [(n % 256) as char, (n / 256 % 256) as char]
  }

  function Word(b: string): nat
    requires |b| == 2
  {
    Octet(b[0]) + 256 * Octet(b[1])
  }

  /** reverse2LittleEndian. */
  function Ordered(order: ByteOrder, b: string): string {
    if order == BigEndian then LogStreams.Reversed(b) else b
  }

  /**
   Length and text.  The length is swapped in place before it is used as a byte count, so that the
   text may be cut off or read beyond its terminator; the latter is undefined.
   */
  function EncodeString(order: ByteOrder, s: string): Option<string> {
    var mark := Swapped(order, Mark(Length16(s)));
    var count := Word(mark);
    if count == 0 then Some(mark)
    else if count > |s| + 1 then None
    else Some(mark + (s + "\0")[..count])
  }

  /** A mark in the byte order of the stream. */
  function Swapped(order: ByteOrder, b: string): (r: string)
    requires |b| == 2
    ensures |r| == 2 && (r[0], r[1]) == if order == BigEndian then (b[1], b[0]) else (b[0], b[1])
  {
    OrderedTwo(order, b);
    Ordered(order, b)
  }

  /** Puts the text in front of what the string holds already; too few bytes fail an assertion. */
  function DecodeString(order: ByteOrder, into: string, input: string): Option<(string, string)> {
    if |input| < 2 then None
    else
      var count, rest := Word(Swapped(order, input[..2])), input[2..];
      if count == 0 then Some((into, rest))
      else if |rest| < count then None
      else Some((rest[..count] + into, rest[count..]))
  }

  function Encode(order: ByteOrder, v: Value): Option<string> {
    match v
    case Pod(bytes) => Some(Ordered(order, bytes))
    case Str(s) => EncodeString(order, s)
  }

  /** A value of fixed size is left as it is when there are too few bytes. */
  function Decode(order: ByteOrder, into: Value, input: string): Option<(Value, string)> {
    match into
    case Pod(bytes) =>
      var n := |bytes|;
      if |input| < n then Some((into, input)) else Some((Pod(Ordered(order, input[..n])), input[n..]))
    case Str(s) =>
      match DecodeString(order, s, input)
      case None => None
      case Some(p) => Some((Str(p.0), p.1))
  }

  /** packageArgs. */
  function EncodeAll(order: ByteOrder, vs: seq<Value>): Option<string> {
    if vs == [] then Some("")
    else
      match Encode(order, vs[0])
      case None => None
      case Some(b) =>
        match EncodeAll(order, vs[1..])
        case None => None
        case Some(rest) => Some(b + rest)
  }

  /** getTuple. */
  function DecodeAll(order: ByteOrder, ts: seq<Type>, input: string): Option<(seq<Value>, string)> {
    if ts == [] then Some(([], input))
    else
      match Decode(order, Blank(ts[0]), input)
      case None => None
      case Some(p) =>
        match DecodeAll(order, ts[1..], p.1)
        case None => None
        case Some(q) => Some(([p.0] + q.0, q.1))
  }

  /* ---------------------------------------------------------------- byte order */

  lemma OrderedTwo(order: ByteOrder, b: string)
    requires |b| == 2
    ensures |Ordered(order, b)| == 2
    ensures (Ordered(order, b)[0], Ordered(order, b)[1]) == if order == BigEndian then (b[1], b[0]) else (b[0], b[1])
  {
    LogStreams.ReversedAt(b, 0);
    LogStreams.ReversedAt(b, 1);
  }

  lemma {:induction false} ReversedTwice(s: string)
    ensures |LogStreams.Reversed(s)| == |s| && LogStreams.Reversed(LogStreams.Reversed(s)) == s
    decreases |s|
  {
    if s != [] {
      ReversedTwice(s[1..]);
      LogStreams.ReversedSnoc(LogStreams.Reversed(s[1..]), s[0]);
    }
  }

  lemma OrderedTwice(order: ByteOrder, b: string)
    ensures |Ordered(order, b)| == |b| && Ordered(order, Ordered(order, b)) == b
  {
    ReversedTwice(b);
  }

  lemma MarkWord(n: nat)
    requires n < 0x1_0000
    ensures Word(Mark(n)) == n
    ensures Word([Mark(n)[1], Mark(n)[0]]) == n / 256 + 256 * (n % 256)
  {
  }

  /* ---------------------------------------------------------------- strings */

  /** What arrives of a string in a little-endian stream. */
  function SentText(s: string): string {
    s[..Length16(s)]
  }

  /** A string arrives as it was sent, with nothing missing and nothing left over. */
  predicate Travels(order: ByteOrder, s: string) {
    && '\0' !in s && |s| < 0x1_0000
    && (order == BigEndian ==> |s| / 256 == |s| % 256)
  }

  /** The count used when writing, and the count found when reading. */
  lemma CountsOf(order: ByteOrder, s: string, tail: string)
    ensures var mark := Swapped(order, Mark(Length16(s)));
            var n := Length16(s);
            && Word(mark) == (if order == BigEndian then n / 256 + 256 * (n % 256) else n)
            && (mark + tail)[..2] == mark && (mark + tail)[2..] == tail
            && Word(Swapped(order, mark)) == n
  {
    var n := Length16(s);
    var mark := Swapped(order, Mark(n));
    MarkWord(n);
    assert mark == if order == BigEndian then [Mark(n)[1], Mark(n)[0]] else Mark(n);
    assert Swapped(order, mark) == Mark(n);
  }

  /** In a little-endian stream a string arrives cut off at its first NUL, modulo 65536 bytes. */
  lemma StringArrives(s: string, into: string, rest: string)
    ensures EncodeString(LittleEndian, s).Some?
    ensures DecodeString(LittleEndian, into, EncodeString(LittleEndian, s).value + rest)
            == Some((SentText(s) + into, rest))
  {
    var n := Length16(s);
    var text := (s + "\0")[..n];
    CountsOf(LittleEndian, s, text + rest);
    CountsOf(LittleEndian, s, rest);
    assert text == SentText(s);
    var mark := Swapped(LittleEndian, Mark(n));
    if n != 0 {
      assert mark + text + rest == mark + (text + rest);
      assert (text + rest)[..n] == text && (text + rest)[n..] == rest;
    } else {
      assert SentText(s) + into == into;
    }
  }

  /** The two bytes of a length on the wire. */
  lemma MarkBytes(order: ByteOrder, n: nat)
    requires n < 0x1_0000
    ensures var mark := Swapped(order, Mark(n));
            if order == LittleEndian then mark[0] as int == n % 256 && mark[1] as int == n / 256
            else mark[0] as int == n / 256 && mark[1] as int == n % 256
  {
  }

  /** On the wire the length comes first, in the byte order of the stream, and then the text. */
  lemma WireForm(order: ByteOrder, s: string)
    requires EncodeString(order, s).Some?
    ensures var b, n := EncodeString(order, s).value, FindChar(s, '\0') % 0x1_0000;
            && |b| >= 2
            && (order == LittleEndian ==> b[0] as int == n % 256 && b[1] as int == n / 256)
            && (order == BigEndian ==> b[0] as int == n / 256 && b[1] as int == n % 256)
            && (order == LittleEndian ==> n <= |s| && b[2..] == s[..n])
  {
    MarkBytes(order, Length16(s));
    CountsOf(order, s, "");
    TextBehind(order, s);
  }

  lemma TextBehind(order: ByteOrder, s: string)
    requires EncodeString(order, s).Some?
    ensures var b, mark := EncodeString(order, s).value, Swapped(order, Mark(Length16(s)));
            && |b| >= 2 && b[..2] == mark && b[0] == mark[0] && b[1] == mark[1]
            && Word(mark) <= |s| + 1 && b[2..] == (s + "\0")[..Word(mark)]
  {
  }

  lemma NoNul(s: string)
    ensures Length16(s) <= |s|
    ensures Length16(s) == |s| <==> '\0' !in s && |s| < 0x1_0000
  {
    var k := FindChar(s, '\0');
    assert k == |s| ==> s[..k] == s;
    assert '\0' !in s ==> k == |s|;
  }

  /**
   A string survives the trip exactly when it has no NUL and fewer than 65536 bytes, and, in a
   big-endian stream, a length whose two bytes are equal.
   */
  lemma StringRoundTripIff(order: ByteOrder, s: string, rest: string)
    ensures && EncodeString(order, s).Some?
            && DecodeString(order, "", EncodeString(order, s).value + rest) == Some((s, rest))
            <==> Travels(order, s)
  {
    NoNul(s);
    if order == LittleEndian {
      StringArrives(s, "", rest);
      assert SentText(s) + "" == SentText(s);
      assert SentText(s) == s <==> Length16(s) == |s|;
    } else {
      BigEndianIff(s, rest);
    }
  }

  lemma BigEndianIff(s: string, rest: string)
    ensures && EncodeString(BigEndian, s).Some?
            && DecodeString(BigEndian, "", EncodeString(BigEndian, s).value + rest) == Some((s, rest))
            <==> Length16(s) == |s| && |s| / 256 == |s| % 256
  {
    var n := Length16(s);
    var count := n / 256 + 256 * (n % 256);
    CountsOf(BigEndian, s, rest);
    assert count == n <==> n / 256 == n % 256;
    if 0 < count <= |s| + 1 { BigEndianText(s, rest, n, count); }
  }

  lemma BigEndianText(s: string, rest: string, n: nat, count: nat)
    requires n == Length16(s) && count == n / 256 + 256 * (n % 256) && 0 < count <= |s| + 1
    ensures EncodeString(BigEndian, s).Some?
    ensures DecodeString(BigEndian, "", EncodeString(BigEndian, s).value + rest) == Some((s, rest))
            <==> count == n == |s|
  {
    var text := (s + "\0")[..count];
    var mark := Swapped(BigEndian, Mark(n));
    CountsOf(BigEndian, s, text + rest);
    assert EncodeString(BigEndian, s) == Some(mark + text);
    assert mark + text + rest == mark + (text + rest);
    if count == n {
      assert (text + rest)[..n] == text && (text + rest)[n..] == rest;
      assert text + "" == text && (n == |s| ==> text == s);
    } else {
      assert n <= |text + rest| ==> |(text + rest)[n..]| != |rest|;
    }
  }

  /* ---------------------------------------------------------------- argument lists */

  function Sent(v: Value): Value {
    if v.Str? then Str(SentText(v.text)) else v
  }

  function SentAll(vs: seq<Value>): (r: seq<Value>)
    ensures |r| == |vs| && forall i :: 0 <= i < |vs| ==> r[i] == Sent(vs[i])
  {
    if vs == [] then [] else [Sent(vs[0])] + SentAll(vs[1..])
  }

  lemma ValueArrives(v: Value, t: Type, into: Value, rest: string)
    requires HasType(v, t) && HasType(into, t) && (into.Str? ==> into.text == "")
    ensures Encode(LittleEndian, v).Some?
    ensures Decode(LittleEndian, into, Encode(LittleEndian, v).value + rest) == Some((Sent(v), rest))
  {
    match v
    case Pod(bytes) =>
      assert (bytes + rest)[..|bytes|] == bytes && (bytes + rest)[|bytes|..] == rest;
    case Str(s) =>
      StringArrives(s, "", rest);
      assert SentText(s) + "" == SentText(s);
  }

  /** A value of fixed size survives in either byte order. */
  lemma PodRoundTrip(order: ByteOrder, v: Value, into: Value, rest: string)
    requires v.Pod? && HasType(into, PodT(|v.bytes|))
    ensures Encode(order, v).Some? && Decode(order, into, Encode(order, v).value + rest) == Some((v, rest))
  {
    var b := Ordered(order, v.bytes);
    OrderedTwice(order, v.bytes);
    assert (b + rest)[..|b|] == b && (b + rest)[|b|..] == rest;
  }

  /** Any argument list can be packed, and unpacks to what arrives of each argument. */
  lemma {:induction false} ListArrives(vs: seq<Value>, ts: seq<Type>, rest: string)
    requires HaveTypes(vs, ts)
    ensures EncodeAll(LittleEndian, vs).Some?
    ensures DecodeAll(LittleEndian, ts, EncodeAll(LittleEndian, vs).value + rest) == Some((SentAll(vs), rest))
    decreases |vs|
  {
    if vs != [] {
      ListArrives(vs[1..], ts[1..], rest);
      var b, more := Encode(LittleEndian, vs[0]), EncodeAll(LittleEndian, vs[1..]);
      ValueArrives(vs[0], ts[0], Blank(ts[0]), more.value + rest);
      assert b.value + more.value + rest == b.value + (more.value + rest);
    } else {
      assert "" + rest == rest;
    }
  }

  lemma Assoc(a: string, b: string, c: string)
    ensures a + b + c == a + (b + c)
  {
  }

  predicate AllTravel(vs: seq<Value>) {
    forall i :: 0 <= i < |vs| && vs[i].Str? ==> Travels(LittleEndian, vs[i].text)
  }

  /** The arguments arrive unchanged exactly when their strings are free of NUL and not too long. */
  lemma ListUnchangedIff(vs: seq<Value>)
    ensures SentAll(vs) == vs <==> AllTravel(vs)
  {
    forall i | 0 <= i < |vs| ensures Sent(vs[i]) == vs[i] <==> (vs[i].Str? ==> Travels(LittleEndian, vs[i].text)) {
      if vs[i].Str? {
        NoNul(vs[i].text);
        assert SentText(vs[i].text) == vs[i].text <==> Length16(vs[i].text) == |vs[i].text|;
      }
    }
  }
}

/** The object over a real buffer. */
module Serializers {
  import opened Options
  import opened Search
  import opened Buffers
  import opened Serialization
  import LogStreams

  class Serializer {
    const byteOrder: ByteOrder
    const streamBuffer: Buffer

    ghost predicate Valid()
      reads streamBuffer
    {
      streamBuffer.Valid()
    }

    ghost function Text(): string
      requires Valid()
      reads streamBuffer
    {
      streamBuffer.Text()
    }

    constructor (byteOrder: ByteOrder)
      ensures Valid() && fresh(streamBuffer) && Text() == "" && this.byteOrder == byteOrder
    {
      this.byteOrder := byteOrder;
      streamBuffer := new Buffer();
    }

    method Reverse2LittleEndian(buf: array<char>)
      modifies buf
      ensures buf[..] == Ordered(byteOrder, old(buf[..]))
    {
      if byteOrder == BigEndian {
        LogStreams.ReverseRange(buf, 0, buf.Length);
        assert buf[..] == buf[0..buf.Length] && old(buf[..]) == old(buf[0..buf.Length]);
      }
    }

    method Clear()
      requires Valid()
      modifies streamBuffer
      ensures Valid() && Text() == ""
      ensures streamBuffer.writeIndex == 8 && |streamBuffer.storage| == |old(streamBuffer.storage)|
    {
      streamBuffer.Clear();
      streamBuffer.RetrieveAll();
    }

    /** operator<<; `ok` is false when it would read beyond the string. */
    method Input(v: Value) returns (ok: bool)
      requires Valid()
      modifies streamBuffer
      ensures Valid() && ok == Encode(byteOrder, v).Some?
      ensures ok ==> Text() == old(Text()) + Encode(byteOrder, v).value
      ensures |streamBuffer.storage| >= |old(streamBuffer.storage)|
    {
      if v.Pod? {
        var buf := new char[|v.bytes|](i requires 0 <= i < |v.bytes| => v.bytes[i]);
        assert buf[..] == v.bytes;
        Reverse2LittleEndian(buf);
        streamBuffer.Append(buf[..]);
        ok := true;
      } else {
        ok := InputString(v.text);
      }
    }

    method InputString(s: string) returns (ok: bool)
      requires Valid()
      modifies streamBuffer
      ensures Valid() && ok == EncodeString(byteOrder, s).Some?
      ensures ok ==> Text() == old(Text()) + EncodeString(byteOrder, s).value
      ensures |streamBuffer.storage| >= |old(streamBuffer.storage)|
    {
      var mark := InMemory(Mark(FindChar(s, '\0') % 0x1_0000));
      var len := Word(mark);
      streamBuffer.Append(mark);
      if len == 0 {
        return true;
      }
      if len > |s| + 1 {
        return false;
      }
      streamBuffer.Append((s + "\0")[..len]);
      ok := true;
      assert old(Text()) + mark + (s + "\0")[..len] == old(Text()) + (mark + (s + "\0")[..len]);
    }

    /** Two bytes in the byte order of the stream. */
    method InMemory(b: string) returns (r: string)
      requires |b| == 2
      ensures r == Swapped(byteOrder, b)
    {
      var p := new char[2](i requires 0 <= i < 2 => b[i]);
      assert p[..] == b;
      Reverse2LittleEndian(p);
      r := p[..];
    }

    /** operator>>; `ok` is false when an assertion of the buffer fails. */
    method Output(into: Value) returns (ok: bool, v: Value)
      requires Valid()
      modifies streamBuffer
      ensures Valid() && ok == Decode(byteOrder, into, old(Text())).Some?
      ensures ok ==> Decode(byteOrder, into, old(Text())) == Some((v, Text()))
    {
      if into.Pod? {
        var len := |into.bytes|;
        ok, v := true, into;
        if streamBuffer.writeIndex - streamBuffer.readIndex >= len {
          var bytes := streamBuffer.storage[streamBuffer.readIndex..streamBuffer.readIndex + len];
          SliceOfSlice(streamBuffer.storage, streamBuffer.readIndex, streamBuffer.writeIndex, 0, len);
          var buf := new char[len](i requires 0 <= i < len => bytes[i]);
          assert buf[..] == bytes;
          streamBuffer.Retrieve(len);
          Reverse2LittleEndian(buf);
          v := Pod(buf[..]);
        }
      } else {
        var s;
        ok, s := OutputString(into.text);
        v := Str(s);
      }
    }

    method OutputString(str: string) returns (ok: bool, s: string)
      requires Valid()
      modifies streamBuffer
      ensures Valid() && ok == DecodeString(byteOrder, str, old(Text())).Some?
      ensures ok ==> DecodeString(byteOrder, str, old(Text())) == Some((s, Text()))
    {
      s := str;
      if streamBuffer.writeIndex - streamBuffer.readIndex < 2 {
        return false, s;
      }
      var mark := streamBuffer.RetrieveAsString(2);
      assert old(Text())[..2] == mark && old(Text())[2..] == Text();
      mark := InMemory(mark);
      var len := Word(mark);
      if len == 0 {
        return true, s;
      }
      if streamBuffer.writeIndex - streamBuffer.readIndex < len {
        return false, s;
      }
      ghost var rest := Text();
      var text := streamBuffer.RetrieveAsString(len);
      assert text == rest[..len] && Text() == rest[len..];
      s := text + s;
      ok := true;
    }

    /** The elements of a tuple, from the first to the last. */
    method PackageArgs(args: seq<Value>) returns (ok: bool)
      requires Valid()
      modifies streamBuffer
      ensures Valid() && ok == EncodeAll(byteOrder, args).Some?
      ensures ok ==> Text() == old(Text()) + EncodeAll(byteOrder, args).value
      ensures |streamBuffer.storage| >= |old(streamBuffer.storage)|
      decreases |args|
    {
      if args == [] {
        ok := true;
        assert old(Text()) + "" == old(Text());
      } else {
        ok := Input(args[0]);
        if ok {
          ghost var first, more := Encode(byteOrder, args[0]), EncodeAll(byteOrder, args[1..]);
          ok := PackageArgs(args[1..]);
          if ok { Assoc(old(Text()), first.value, more.value); }
        }
      }
    }

    method GetTuple(types: seq<Type>) returns (ok: bool, args: seq<Value>)
      requires Valid()
      modifies streamBuffer
      ensures Valid() && ok == DecodeAll(byteOrder, types, old(Text())).Some?
      ensures ok ==> DecodeAll(byteOrder, types, old(Text())) == Some((args, Text()))
      decreases |types|
    {
      ok, args := true, [];
      if types != [] {
        var v;
        ok, v := Output(Blank(types[0]));
        if ok {
          ok, args := GetTuple(types[1..]);
          args := [v] + args;
        }
      }
    }
  }
}
