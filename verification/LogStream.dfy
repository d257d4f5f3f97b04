/**
 Formatting of integers (matelib/base/LogStream.cc): what a numeral is, and what it is worth.
 */
module Numerals {
  predicate IsBase(base: nat) {
    base == 10 || base == 16
  }

  const DIGITS: string := "0123456789ABCDEF"

  /** The digits of `n`, most significant first, none for zero. */
  function Digits(n: nat, base: nat): string
    requires IsBase(base)
    decreases n
  {
    if n == 0 then "" else Digits(n / base, base) + [DIGITS[n % base]]
  }

  function Numeral(n: nat, base: nat): string
    requires IsBase(base)
  {
    if n == 0 then "0" else Digits(n, base)
  }

  function Decimal(v: int): string {
    if v < 0 then "-" + Numeral(-v, 10) else Numeral(v, 10)
  }

  /** The worth of a digit, or 16 for any other character. */
  function DigitValue(c: char): nat {
    if '0' <= c <= '9' then c as int - '0' as int
    else if 'A' <= c <= 'F' then c as int - 'A' as int + 10
    else 16
  }

  predicate AllDigits(s: string, base: nat) {
    forall i :: 0 <= i < |s| ==> DigitValue(s[i]) < base
  }

  /** Horner's rule. */
  function Value(s: string, base: nat): nat {
    if s == [] then 0 else Value(s[..|s| - 1], base) * base + DigitValue(s[|s| - 1])
  }

  /** Digits only, at least one, and no zero in front of another digit. */
  predicate CanonicalNat(s: string, base: nat) {
    s != [] && AllDigits(s, base) && (s[0] == '0' ==> |s| == 1)
  }

  predicate Canonical(s: string) {
    if s != [] && s[0] == '-' then CanonicalNat(s[1..], 10) && s != "-0" else CanonicalNat(s, 10)
  }

  function DecimalValue(s: string): int {
    if s != [] && s[0] == '-' then 0 - Value(s[1..], 10) else Value(s, 10)
  }

  /** One more digit at the end. */
  lemma Snoc(s: string, c: char, base: nat)
    ensures Value(s + [c], base) == Value(s, base) * base + DigitValue(c)
    ensures AllDigits(s + [c], base) <==> AllDigits(s, base) && DigitValue(c) < base
  {
    var t := s + [c];
    assert t[..|t| - 1] == s && t[|t| - 1] == c;
    assert forall i :: 0 <= i < |s| ==> t[i] == s[i];
  }

  lemma DivMod(n: nat, base: nat)
    requires IsBase(base)
    ensures n / base * base + n % base == n && n % base < base
    ensures n > 0 ==> n / base < n
  {
  }

  lemma {:induction false} DigitsSound(n: nat, base: nat)
    requires IsBase(base)
    ensures AllDigits(Digits(n, base), base) && Value(Digits(n, base), base) == n
    ensures n > 0 ==> Digits(n, base) != [] && Digits(n, base)[0] != '0'
    decreases n
  {
    if n > 0 {
      DivMod(n, base);
      var m, d := n / base, n % base;
      DigitsSound(m, base);
      DigitSound(Digits(m, base), m, d, base);
      assert Digits(n, base) == Digits(m, base) + [DIGITS[d]];
    }
  }

  lemma DigitSound(s: string, m: nat, d: nat, base: nat)
    requires IsBase(base) && d < base && AllDigits(s, base) && Value(s, base) == m
    requires m > 0 ==> s != [] && s[0] != '0'
    ensures AllDigits(s + [DIGITS[d]], base) && Value(s + [DIGITS[d]], base) == m * base + d
    ensures (m > 0 || (s == [] && d > 0)) ==> (s + [DIGITS[d]])[0] != '0'
  {
    Snoc(s, DIGITS[d], base);
    assert DigitValue(DIGITS[d]) == d;
  }

  lemma DigitOf(c: char)
    requires DigitValue(c) < 16
    ensures DIGITS[DigitValue(c)] == c
  {
  }

  lemma SplitLast(m: nat, d: nat, base: nat)
    requires IsBase(base) && d < base
    ensures (m * base + d) / base == m && (m * base + d) % base == d
  {
    if base == 10 {
      assert (m * 10 + d) / 10 == m;
    } else {
      assert (m * 16 + d) / 16 == m;
    }
  }

  lemma {:induction false} DigitsComplete(s: string, base: nat)
    requires IsBase(base) && AllDigits(s, base) && (s != [] ==> s[0] != '0')
    ensures Digits(Value(s, base), base) == s
    ensures s != [] ==> Value(s, base) > 0
    decreases |s|
  {
    if s != [] {
      var init, c := s[..|s| - 1], s[|s| - 1];
      assert s == init + [c];
      Snoc(init, c, base);
      DigitsComplete(init, base);
      DigitComplete(init, Value(init, base), c, base);
    }
  }

  lemma DigitComplete(init: string, m: nat, c: char, base: nat)
    requires IsBase(base) && DigitValue(c) < base && Digits(m, base) == init
    requires if init == [] then c != '0' else m > 0
    ensures m * base + DigitValue(c) > 0
    ensures Digits(m * base + DigitValue(c), base) == init + [c]
  {
    NotZero(init, m, c, base);
    OneMoreDigit(m, c, base);
  }

  lemma OneMoreDigit(m: nat, c: char, base: nat)
    requires IsBase(base) && DigitValue(c) < base && m * base + DigitValue(c) > 0
    ensures Digits(m * base + DigitValue(c), base) == Digits(m, base) + [c]
  {
    DigitOf(c);
    SplitLast(m, DigitValue(c), base);
  }

  lemma NotZero(init: string, m: nat, c: char, base: nat)
    requires IsBase(base) && DigitValue(c) < base
    requires if init == [] then c != '0' else m > 0
    ensures m * base + DigitValue(c) > 0
  {
  }

  /** The text of a number is canonical, and its value is the number. */
  lemma DecimalSound(v: int)
    ensures Canonical(Decimal(v)) && DecimalValue(Decimal(v)) == v
  {
    var n: nat := if v < 0 then -v else v;
    DigitsSound(n, 10);
    assert n == 0 ==> Value("0", 10) == 0 by { assert "0"[..0] == ""; }
    if v < 0 {
      assert Decimal(v)[1..] == Numeral(n, 10);
    } else {
      assert Decimal(v)[0] != '-';
    }
  }

  /** There is only one canonical text for a number. */
  lemma DecimalComplete(s: string)
    requires Canonical(s)
    ensures Decimal(DecimalValue(s)) == s
  {
    assert Value("0", 10) == 0 by { assert "0"[..0] == ""; }
    if s[0] == '-' {
      var t := s[1..];
      assert s == "-" + t;
      assert |t| == 1 && t[0] == '0' ==> s == "-0";
      DigitsComplete(t, 10);
    } else if s[0] == '0' {
      assert s == "0";
    } else {
      DigitsComplete(s, 10);
    }
  }

  lemma DecimalInjective(v: int, w: int)
    requires Decimal(v) == Decimal(w)
    ensures v == w
  {
    DecimalSound(v);
    DecimalSound(w);
  }

  function Power(base: nat, k: nat): nat {
    if k == 0 then 1 else base * Power(base, k - 1)
  }

  lemma {:induction false} DigitCount(n: nat, base: nat, k: nat)
    requires IsBase(base) && n < Power(base, k)
    ensures |Digits(n, base)| <= k
    decreases n
  {
    if n > 0 {
      DivMod(n, base);
      FewerDigits(n, base, Power(base, k - 1));
      DigitCount(n / base, base, k - 1);
    }
  }

  lemma FewerDigits(n: nat, base: nat, p: nat)
    requires IsBase(base) && n < base * p
    ensures n / base < p
  {
    if base == 10 {
      assert n < 10 * p;
    } else {
      assert n < 16 * p;
    }
  }

  const MIN64: int := -0x8000_0000_0000_0000
  const MAX64: int := 0xFFFF_FFFF_FFFF_FFFF

  /** Any signed or unsigned 64-bit number needs at most twenty characters. */
  lemma DecimalLength(v: int)
    requires MIN64 <= v <= MAX64
    ensures |Decimal(v)| <= 20
  {
    assert Power(10, 5) == 100000 && Power(10, 10) == 10000000000 by { Powers(); }
    Powers();
    if v < 0 { DigitCount(-v, 10, 19); } else { DigitCount(v, 10, 20); }
  }

  lemma Powers()
    ensures Power(10, 19) == 10000000000000000000 && Power(10, 20) == 100000000000000000000
    ensures Power(16, 16) == MAX64 + 1
  {
    assert Power(10, 4) == 10000;
    assert Power(10, 8) == 100000000;
    assert Power(10, 12) == 1000000000000;
    assert Power(10, 16) == 10000000000000000;
    assert Power(16, 4) == 0x1_0000;
    assert Power(16, 8) == 0x1_0000_0000;
    assert Power(16, 12) == 0x1_0000_0000_0000;
  }

  /** Some texts, digit by digit. */
  lemma Examples()
    ensures Decimal(0) == "0" && Decimal(-120) == "-120" && Numeral(0xBEEF, 16) == "BEEF"
  {
    assert Digits(1, 10) == "1";
    assert Digits(12, 10) == "12";
    assert Digits(120, 10) == "120";
    assert Digits(0xB, 16) == "B";
    assert Digits(0xBE, 16) == "BE";
    assert Digits(0xBEE, 16) == "BEE";
    assert Digits(0xBEEF, 16) == "BEEF";
  }

  lemma HexLength(n: nat)
    requires n <= MAX64
    ensures |Numeral(n, 16)| <= 16
  {
    Powers();
    DigitCount(n, 16, 16);
  }
}

/** The fixed buffer and the stream over it (matelib/base/LogStream.h, matelib/base/LogStream.cc). */
module LogStreams {
  import opened Numerals

  const SMALL_BUFFER: nat := 4096
  const MAX_NUMERIC_SIZE: nat := 32

  /** C++ division and remainder: towards zero, the remainder taking the sign of the dividend. */
  function TruncDiv(a: int, b: int): int
    requires b > 0
  {
    if a >= 0 then a / b else -((-a) / b)
  }

  function TruncMod(a: int, b: int): (r: int)
    requires b > 0
    ensures -b < r < b && (a >= 0 ==> r >= 0) && (a <= 0 ==> r <= 0)
  {
    if a >= 0 then a % b else -((-a) % b)
  }

  function Reversed(s: string): (r: string)
    ensures |r| == |s|
  {
    if s == [] then [] else Reversed(s[1..]) + [s[0]]
  }

  lemma {:induction false} ReversedAt(s: string, k: nat)
    requires k < |s|
    ensures Reversed(s)[k] == s[|s| - 1 - k]
  {
    if k < |s| - 1 { ReversedAt(s[1..], k); }
  }

  lemma {:induction false} ReversedSnoc(s: string, c: char)
    ensures Reversed(s + [c]) == [c] + Reversed(s)
  {
    if s == [] {
      assert s + [c] == [c] && Reversed([c]) == Reversed([c][1..]) + [c];
    } else {
      ReversedSnoc(s[1..], c);
      assert (s + [c])[1..] == s[1..] + [c];
    }
  }

  /** `std::reverse` of [from, to). */
  method ReverseRange(a: array<char>, from: nat, to: nat)
    requires from <= to <= a.Length
    modifies a
    ensures a[..from] == old(a[..from]) && a[to..] == old(a[to..])
    ensures a[from..to] == Reversed(old(a[from..to]))
  {
    var lo, hi := from, to;
    while lo < hi - 1
      invariant from <= lo && hi <= to && lo - from == to - hi
      invariant lo <= hi + 1
      invariant a[..from] == old(a[..from]) && a[to..] == old(a[to..])
      invariant forall k :: from <= k < lo ==> a[k] == old(a[from + to - 1 - k])
      invariant forall k :: hi <= k < to ==> a[k] == old(a[from + to - 1 - k])
      invariant forall k :: lo <= k < hi ==> a[k] == old(a[k])
    {
      hi := hi - 1;
      a[lo], a[hi] := a[hi], a[lo];
      lo := lo + 1;
    }
    ghost var was, now := old(a[from..to]), a[from..to];
    forall k | 0 <= k < |was| ensures now[k] == was[|was| - 1 - k] {
      assert now[k] == a[from + k] && was[|was| - 1 - k] == old(a[to - 1 - k]);
    }
    IsReversed(was, now);
  }

  lemma IsReversed(was: string, now: string)
    requires |now| == |was| && forall k :: 0 <= k < |was| ==> now[k] == was[|was| - 1 - k]
    ensures now == Reversed(was)
  {
    forall k | 0 <= k < |was| ensures |Reversed(was)| == |was| && now[k] == Reversed(was)[k] {
      ReversedAt(was, k);
    }
    if was == "" { assert now == ""; } else { ReversedAt(was, 0); }
  }

  /** Nineteen characters around the zero in the middle, indexed by a remainder of either sign. */
  const SIGNED_DIGITS: string := "9876543210123456789"

  function Magnitude(v: int): nat {
    if v < 0 then -v else v
  }

  lemma DigitOfRemainder(i: int)
    ensures SIGNED_DIGITS[9 + TruncMod(i, 10)] == DIGITS[Magnitude(i) % 10]
    ensures Magnitude(TruncDiv(i, 10)) == Magnitude(i) / 10
  {
    var r := TruncMod(i, 10);
    assert Magnitude(i) % 10 == if r < 0 then -r else r;
  }

  /** `*p++ = c`, seen from the text that is being written back to front. */
  method Put(a: array<char>, at: nat, p: nat, c: char)
    requires at <= p < a.Length
    modifies a
    ensures Reversed(a[at..p + 1]) == [c] + Reversed(old(a[at..p]))
    ensures a[..at] == old(a[..at]) && a[p + 1..] == old(a[p + 1..])
  {
    a[p] := c;
    assert a[at..p + 1] == old(a[at..p]) + [c];
    ReversedSnoc(old(a[at..p]), c);
  }

  /** Terminates the text and turns it round. */
  method Finish(a: array<char>, at: nat, p: nat)
    requires at <= p < a.Length
    modifies a
    ensures a[at..p] == Reversed(old(a[at..p])) && a[p] == '\0'
    ensures a[..at] == old(a[..at]) && a[p + 1..] == old(a[p + 1..])
  {
    a[p] := '\0';
    ghost var tail := a[p..];
    ReverseRange(a, at, p);
    assert a[p] == a[p..][0] == tail[0];
    assert a[p + 1..] == a[p..][1..] == tail[1..];
  }

  /** The digits a conversion loop has still to write; it writes one even for zero. */
  ghost function Pending(n: nat, base: nat, first: bool): string
    requires IsBase(base)
  {
    if first then Numeral(n, base) else Digits(n, base)
  }

  lemma PendingStep(n: nat, base: nat, first: bool, back: string)
    requires IsBase(base) && (first || n != 0)
    ensures Pending(n, base, first) + back == Pending(n / base, base, false) + ([DIGITS[n % base]] + back)
  {
    if n == 0 {
      assert Digits(0, base) == "" && DIGITS[0] == '0';
    } else {
      assert Digits(n, base) == Digits(n / base, base) + [DIGITS[n % base]];
    }
  }

  /** `a[at..p]` holds a text back to front, and the rest of the array is as it was. */
  ghost predicate Written(a: array<char>, at: nat, p: nat, back: string, was: string)
    reads a
  {
    && at <= p == at + |back| && p <= a.Length == |was|
    && Reversed(a[at..p]) == back && a[..at] == was[..at] && a[p..] == was[p..]
  }

  method PutOne(a: array<char>, at: nat, p: nat, c: char, ghost back: string, ghost was: string)
    requires Written(a, at, p, back, was) && p < a.Length
    modifies a
    ensures Written(a, at, p + 1, [c] + back, was)
  {
    assert a[p + 1..] == a[p..][1..] == was[p + 1..];
    Put(a, at, p, c);
  }

  /** A conversion loop that is not finished has room for another digit. */
  lemma RoomForDigit(n: nat, base: nat, first: bool, back: string, text: string)
    requires IsBase(base) && (first || n != 0) && Pending(n, base, first) + back == text
    ensures |back| < |text|
    ensures Pending(n / base, base, false) + ([DIGITS[n % base]] + back) == text
  {
    PendingStep(n, base, first, back);
  }

  /** The digits of a number of either sign, from the last to the first. */
  method PutDecimal(a: array<char>, at: nat, value: int) returns (p: nat)
    requires MIN64 <= value <= MAX64
    requires at + |Numeral(Magnitude(value), 10)| <= a.Length
    modifies a
    ensures at <= p <= a.Length && Reversed(a[at..p]) == Numeral(Magnitude(value), 10)
    ensures a[..at] == old(a[..at]) && a[p..] == old(a[p..])
  {
    ghost var was, text := a[..], Numeral(Magnitude(value), 10);
    var i, first := value, true;
    p := at;
    ghost var back := "";
    while first || i != 0
      invariant Written(a, at, p, back, was) && Pending(Magnitude(i), 10, first) + back == text
      decreases Magnitude(i), first
    {
      RoomForDigit(Magnitude(i), 10, first, back, text);
      DigitOfRemainder(i);
      var c := SIGNED_DIGITS[9 + TruncMod(i, 10)];
      PutOne(a, at, p, c, back, was);
      back := [c] + back;
      i, p, first := TruncDiv(i, 10), p + 1, false;
    }
  }

  /** The same in base sixteen. */
  method PutHex(a: array<char>, at: nat, value: nat) returns (p: nat)
    requires value <= MAX64
    requires at + |Numeral(value, 16)| <= a.Length
    modifies a
    ensures at <= p <= a.Length && Reversed(a[at..p]) == Numeral(value, 16)
    ensures a[..at] == old(a[..at]) && a[p..] == old(a[p..])
  {
    ghost var was, text := a[..], Numeral(value, 16);
    var i, first := value, true;
    p := at;
    ghost var back := "";
    while first || i != 0
      invariant Written(a, at, p, back, was) && Pending(i, 16, first) + back == text
      decreases i, first
    {
      RoomForDigit(i, 16, first, back, text);
      var c := DIGITS[i % 16];
      PutOne(a, at, p, c, back, was);
      back := [c] + back;
      i, p, first := i / 16, p + 1, false;
    }
  }

  /** Writes the text of `value` and a terminator at `a[at..]`. */
  method ConvertInt(a: array<char>, at: nat, value: int) returns (n: nat)
    requires MIN64 <= value <= MAX64
    requires at + 21 <= a.Length
    modifies a
    ensures n <= 20 && a[at..at + n] == Decimal(value) && a[at + n] == '\0'
    ensures a[..at] == old(a[..at]) && a[at + n + 1..] == old(a[at + n + 1..])
  {
    ghost var text := Decimal(value);
    assert |text| <= 20 by { DecimalLength(value); }
    ghost var was := a[..];
    var p := PutSigned(a, at, value);
    n := p - at;
    EndText(a, at, p, text);
    assert was[p..][1..] == was[p + 1..];
  }

  /** Terminates a text written back to front, and turns it round. */
  method EndText(a: array<char>, at: nat, p: nat, ghost text: string)
    requires at <= p < a.Length && Reversed(a[at..p]) == text
    modifies a
    ensures |text| == p - at && a[at..p] == text && a[p] == '\0'
    ensures a[..at] == old(a[..at]) && a[p + 1..] == old(a[p..])[1..]
  {
    assert a[p..][1..] == a[p + 1..];
    Finish(a, at, p);
  }

  /** Digits and sign, from the last to the first. */
  method PutSigned(a: array<char>, at: nat, value: int) returns (p: nat)
    requires MIN64 <= value <= MAX64
    requires at + |Decimal(value)| <= a.Length
    modifies a
    ensures at <= p <= a.Length && Reversed(a[at..p]) == Decimal(value)
    ensures a[..at] == old(a[..at]) && a[p..] == old(a[p..])
  {
    SignedText(value);
    ghost var was := a[..];
    p := PutDecimal(a, at, value);
    if value < 0 {
      PutOne(a, at, p, '-', Numeral(Magnitude(value), 10), was);
      p := p + 1;
    }
  }

  lemma SignedText(value: int)
    ensures Decimal(value) == (if value < 0 then "-" else "") + Numeral(Magnitude(value), 10)
  {
  }

  /** The hexadecimal text of a pointer and a terminator. */
  method ConvertHex(a: array<char>, at: nat, value: nat) returns (n: nat)
    requires value <= MAX64
    requires at + 17 <= a.Length
    modifies a
    ensures n <= 16 && a[at..at + n] == Numeral(value, 16) && a[at + n] == '\0'
    ensures a[..at] == old(a[..at]) && a[at + n + 1..] == old(a[at + n + 1..])
  {
    ghost var text := Numeral(value, 16);
    assert |text| <= 16 by { HexLength(value); }
    ghost var was := a[..];
    var p := PutHex(a, at, value);
    n := p - at;
    EndText(a, at, p, text);
    assert was[p..][1..] == was[p + 1..];
  }

  class FixedBuffer {
    const data: array<char>
    var cur: nat

    ghost predicate Valid()
      reads this
    {
      cur <= data.Length
    }

    ghost function Contents(): string
      requires Valid()
      reads this, data
    {
      data[..cur]
    }

    constructor (size: nat)
      ensures Valid() && fresh(data) && data.Length == size && Contents() == []
    {
      data := new char[size](_ => '\0');
      cur := 0;
    }

    /** The two characters in front of a pointer, not yet counted as contents. */
    method PutPrefix()
      requires Valid() && Avail() >= 2
      modifies data
      ensures data[..cur + 2] == old(Contents()) + "0x"
    {
      data[cur] := '0';
      data[cur + 1] := 'x';
    }

    function Avail(): int
      reads this
    {
      data.Length - cur
    }

    /** All of `s`, or nothing of it. */
    method Append(s: string)
      requires Valid()
      modifies this, data
      ensures Valid()
      ensures Contents() == if old(Avail()) > |s| then old(Contents()) + s else old(Contents())
    {
      if Avail() > |s| {
        forall k | 0 <= k < |s| {
          data[cur + k] := s[k];
        }
        cur := cur + |s|;
      }
    }

    method Add(len: nat)
      requires Valid() && len <= Avail()
      modifies this
      ensures Valid() && cur == old(cur) + len
    {
      cur := cur + len;
    }

    method Reset()
      modifies this
      ensures Valid() && Contents() == []
    {
      cur := 0;
    }
  }

  class LogStream {
    const buffer: FixedBuffer

    ghost predicate Valid()
      reads this, buffer
    {
      buffer.Valid() && buffer.data.Length == SMALL_BUFFER
    }

    ghost function Contents(): string
      requires Valid()
      reads this, buffer, buffer.data
    {
      buffer.Contents()
    }

    constructor ()
      ensures Valid() && fresh(buffer) && fresh(buffer.data) && Contents() == []
    {
      buffer := new FixedBuffer(SMALL_BUFFER);
    }

    /** Appends the decimal text, or nothing when fewer than 32 bytes are free. */
    method FormatInteger(v: int)
      requires Valid() && MIN64 <= v <= MAX64
      modifies buffer, buffer.data
      ensures Valid()
      ensures Contents() == if old(buffer.Avail()) >= 32 then old(Contents()) + Decimal(v)
                            else old(Contents())
    {
      if buffer.Avail() >= MAX_NUMERIC_SIZE {
        var len := ConvertInt(buffer.data, buffer.cur, v);
        ghost var at := buffer.cur;
        buffer.Add(len);
        assert buffer.data[..at + len] == buffer.data[..at] + buffer.data[at..at + len];
      }
    }

    /** A pointer: 0x and the hexadecimal digits. */
    method FormatPointer(v: nat)
      requires Valid() && v <= MAX64
      modifies buffer, buffer.data
      ensures Valid()
      ensures Contents() == if old(buffer.Avail()) >= 32 then old(Contents()) + "0x" + Numeral(v, 16)
                            else old(Contents())
    {
      if buffer.Avail() >= MAX_NUMERIC_SIZE {
        ghost var at := buffer.cur;
        buffer.PutPrefix();
        var len := ConvertHex(buffer.data, buffer.cur + 2, v);
        buffer.Add(len + 2);
        assert buffer.data[..at + 2 + len] == buffer.data[..at + 2] + buffer.data[at + 2..at + 2 + len];
      }
    }
  }
}
