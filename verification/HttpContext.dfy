/**
 The resumable request parser (http/HttpContext.h, http/HttpContext.cc).

 `Step` is one turn of the loop of `parseRequest` on values; `Run` is the whole loop.  Class
 `HttpContext` runs the loop on a buffer in place.
 */
module HttpParsing {
  import opened Options
  import opened Search
  import opened HttpRequests

  datatype State = ExpectRequestLine | ExpectHeaders | ExpectBody | GotAll

  /** The loop variables, the parser's fields and the unread input. */
  datatype Parse = Parse(ok: bool, hasMore: bool, state: State, request: Request, input: string)

  /** Checks a request line and stores what it understood, even when the line is rejected. */
  function ProcessRequestLine(r: Request, line: string): (bool, Request) {
    var space := FindChar(line, ' ');
    if space == |line| then (false, r)
    else
      var r1 := r.(verb := MethodOf(line[..space]));
      var rest := line[space + 1..];
      var space2 := FindChar(rest, ' ');
      if r1.verb == Invalid || space2 == |rest| then (false, r1)
      else
        var r2 := r1.(path := rest[..space2]);
        var v := VersionOf(rest[space2 + 1..]);
        if v == Unknown then (false, r2) else (true, r2.(version := v))
  }

  /** Eight characters: HTTP/1. and a 1 or a 0. */
  function VersionOf(s: string): Version {
    if |s| != 8 || s[..7] != "HTTP/1." then Unknown
    else if s[7] == '1' then Http11
    else if s[7] == '0' then Http10
    else Unknown
  }

  function AddHeader(r: Request, line: string, colon: nat): Request
    requires colon < |line|
  {
    r.(headers := r.headers[line[..colon] := Trim(line[colon + 1..])])
  }

  function Step(p: Parse): Parse {
    match p.state
    case ExpectRequestLine =>
      (match FindCrlf(p.input)
       case None => p.(hasMore := false)
       case Some(k) =>
         var (ok, r) := ProcessRequestLine(p.request, p.input[..k]);
         if ok then Parse(true, p.hasMore, ExpectHeaders, r, p.input[k + 2..])
         else p.(ok := false, hasMore := false, request := r))
    case ExpectHeaders =>
      (match FindCrlf(p.input)
       case None => p.(hasMore := false)
       case Some(k) =>
         var colon := FindChar(p.input[..k], ':');
         if colon != k then
           p.(request := AddHeader(p.request, p.input[..k], colon), input := p.input[k + 2..])
         else
           p.(state := ExpectBody, input := p.input[k + 2..]))
    case ExpectBody => p.(state := GotAll, hasMore := false)
    case GotAll => p
  }

  ghost function Iterate(p: Parse, n: nat): Parse
    decreases n
  {
    if n == 0 || !p.hasMore then p else Iterate(Step(p), n - 1)
  }

  /** The loop, as a recursion on the unread bytes. */
  function Run(p: Parse): (r: Parse)
    requires p.hasMore ==> p.state != GotAll
    ensures !r.hasMore
    decreases |p.input|, p.hasMore
  {
    if !p.hasMore then p else Run(Step(p))
  }

  function Start(state: State, request: Request, input: string): Parse {
    Parse(true, true, state, request, input)
  }

  function ParseRequest(state: State, request: Request, input: string): Parse
    requires state != GotAll
  {
    Run(Start(state, request, input))
  }

  /* ---------------------------------------------------------------- termination */

  lemma {:induction false} IterateStuck(p: Parse, n: nat)
    requires p.hasMore && p.state == GotAll
    ensures Iterate(p, n) == p
    decreases n
  {
    if n > 0 { IterateStuck(p, n - 1); }
  }

  lemma {:induction false} IterateFinishes(p: Parse) returns (n: nat)
    requires p.hasMore ==> p.state != GotAll
    ensures Iterate(p, n) == Run(p)
    decreases |p.input|, p.hasMore
  {
    if !p.hasMore {
      n := 0;
    } else {
      var m := IterateFinishes(Step(p));
      n := m + 1;
    }
  }

  /** The loop ends, whatever the input, exactly when it is not entered in state GotAll. */
  lemma TerminatesIff(state: State, request: Request, input: string)
    ensures (exists n: nat :: !Iterate(Start(state, request, input), n).hasMore) <==> state != GotAll
  {
    var p := Start(state, request, input);
    if state == GotAll {
      forall n: nat ensures Iterate(p, n).hasMore { IterateStuck(p, n); }
    } else {
      var n := IterateFinishes(p);
      assert !Iterate(p, n).hasMore;
    }
  }

  /* ---------------------------------------------------------------- chunk independence */

  /** Looking at a rejected line again changes nothing. */
  lemma RequestLineIdempotent(r: Request, line: string)
    ensures ProcessRequestLine(ProcessRequestLine(r, line).1, line) == ProcessRequestLine(r, line)
  {
  }

  /** More input never changes a turn of the loop that found its line. */
  lemma StepExtends(p: Parse, ys: string)
    requires p.hasMore && p.state != GotAll
    requires FindCrlf(p.input).Some? || p.state == ExpectBody
    ensures Step(p.(input := p.input + ys)) == Step(p).(input := Step(p).input + ys)
  {
    if p.state != ExpectBody {
      FindCrlfExtends(p.input, ys);
      var k := FindCrlf(p.input).value;
      assert (p.input + ys)[..k] == p.input[..k];
      assert (p.input + ys)[k + 2..] == p.input[k + 2..] + ys;
    }
  }

  lemma {:induction false} RunExtends(p: Parse, ys: string)
    requires p.ok && p.hasMore && p.state != GotAll
    ensures var first, whole := Run(p), Run(p.(input := p.input + ys));
            if first.state == GotAll then whole == first.(input := first.input + ys)
            else whole == ParseRequest(first.state, first.request, first.input + ys)
    decreases |p.input|
  {
    if p.state == ExpectBody {
    } else if FindCrlf(p.input).None? {
      assert Run(p) == p.(hasMore := false);
    } else {
      StepExtends(p, ys);
      var next := Step(p);
      if next.hasMore {
        RunExtends(next, ys);
      } else {
        var line := p.input[..FindCrlf(p.input).value];
        RequestLineIdempotent(p.request, line);
        var again := Start(next.state, next.request, next.input + ys);
        StepExtends(Start(next.state, next.request, next.input), ys);
        assert Step(again) == next.(input := next.input + ys);
      }
    }
  }

  /**
   Splitting the input in two anywhere makes no difference: parsing `xs`, then `xs`'s leftover
   followed by `ys`, is parsing `xs + ys` at once.
   */
  lemma ChunkIndependent(state: State, request: Request, xs: string, ys: string)
    requires state != GotAll
    ensures var first, whole := ParseRequest(state, request, xs), ParseRequest(state, request, xs + ys);
            if first.state == GotAll then whole == first.(input := first.input + ys)
            else whole == ParseRequest(first.state, first.request, first.input + ys)
  {
    RunExtends(Start(state, request, xs), ys);
  }

  /** Parsing after every arriving chunk, until the request is complete; then chunks only pile up. */
  function Feed(state: State, request: Request, left: string, chunks: seq<string>): Parse
    requires state != GotAll && chunks != []
    decreases |chunks|
  {
    var p := ParseRequest(state, request, left + chunks[0]);
    if |chunks| == 1 then p
    else if p.state == GotAll then p.(input := p.input + Concat(chunks[1..]))
    else Feed(p.state, p.request, p.input, chunks[1..])
  }

  function Concat(chunks: seq<string>): string {
    if chunks == [] then "" else chunks[0] + Concat(chunks[1..])
  }

  /** A request may arrive in any number of pieces, cut anywhere. */
  lemma {:induction false} AnyChunking(state: State, request: Request, left: string, chunks: seq<string>)
    requires state != GotAll && chunks != []
    ensures Feed(state, request, left, chunks) == ParseRequest(state, request, left + Concat(chunks))
    decreases |chunks|
  {
    var rest := Concat(chunks[1..]);
    assert left + Concat(chunks) == (left + chunks[0]) + rest;
    ChunkIndependent(state, request, left + chunks[0], rest);
    var p := ParseRequest(state, request, left + chunks[0]);
    if |chunks| == 1 {
      assert rest == "" && (left + chunks[0]) + rest == left + chunks[0];
    } else if p.state != GotAll {
      AnyChunking(p.state, p.request, p.input, chunks[1..]);
    }
  }

  /* ---------------------------------------------------------------- what completes a request */

  /** A CRLF at `a` and one at `b`, with no colon on what lies between them. */
  ghost predicate ClosingLine(s: string, a: nat, b: nat) {
    a + 2 <= b && MatchAt(s, CRLF, a) && MatchAt(s, CRLF, b) && ':' !in s[a + 2..b]
  }

  ghost predicate ClosedAfter(s: string, k: nat) {
    exists a: nat, b: nat :: k <= a && ClosingLine(s, a, b)
  }

  /** A good first line, and behind it a line without a colon. */
  ghost predicate HoldsRequest(s: string) {
    FindCrlf(s).Some?
    && GoodRequestLine(s[..FindCrlf(s).value])
    && ClosedAfter(s, FindCrlf(s).value)
  }

  /** A known method, a path and one of two versions, each one space apart. */
  ghost predicate GoodRequestLine(line: string) {
    exists m: Method, path: string, v: Version :: IsRequestLine(line, m, path, v)
  }

  predicate IsRequestLine(line: string, m: Method, path: string, v: Version) {
    m != Invalid && v != Unknown && ' ' !in path && line == MethodText(m) + " " + path + " " + VersionText(v)
  }

  lemma MethodTextOf(m: Method)
    requires m != Invalid
    ensures MethodOf(MethodText(m)) == m && ' ' !in MethodText(m)
  {
  }

  lemma VersionTextOf(v: Version)
    requires v != Unknown
    ensures VersionOf(VersionText(v)) == v
  {
  }

  lemma TextsOf(m: string, v: string)
    ensures MethodOf(m) != Invalid ==> MethodText(MethodOf(m)) == m
    ensures VersionOf(v) != Unknown ==> VersionText(VersionOf(v)) == v
  {
    if VersionOf(v) != Unknown {
      assert v == v[..7] + [v[7]];
    }
  }

  lemma SplitAtSpace(a: string, rest: string)
    requires ' ' !in a
    ensures var line := a + " " + rest;
            FindChar(line, ' ') == |a| && line[..|a|] == a && line[|a| + 1..] == rest
  {
    FindCharAfter(a, ' ', rest);
  }

  lemma GoodLineParses(r: Request, m: Method, path: string, v: Version)
    requires m != Invalid && v != Unknown && ' ' !in path
    ensures ProcessRequestLine(r, MethodText(m) + " " + path + " " + VersionText(v))
            == (true, r.(verb := m, path := path, version := v))
  {
    var mt, vt := MethodText(m), VersionText(v);
    assert MethodOf(mt) == m && ' ' !in mt by { MethodTextOf(m); }
    assert VersionOf(vt) == v by { VersionTextOf(v); }
    LineParses(r, mt, path, vt);
  }

  lemma LineParses(r: Request, mt: string, path: string, vt: string)
    requires ' ' !in mt && ' ' !in path && MethodOf(mt) != Invalid && VersionOf(vt) != Unknown
    ensures ProcessRequestLine(r, mt + " " + path + " " + vt)
            == (true, r.(verb := MethodOf(mt), path := path, version := VersionOf(vt)))
  {
    LineSplits(mt, path, vt);
  }

  lemma LineSplits(mt: string, path: string, vt: string)
    requires ' ' !in mt && ' ' !in path
    ensures var line, rest := mt + " " + path + " " + vt, path + " " + vt;
            && FindChar(line, ' ') == |mt| < |line| && line[..|mt|] == mt && line[|mt| + 1..] == rest
            && FindChar(rest, ' ') == |path| < |rest| && rest[..|path|] == path && rest[|path| + 1..] == vt
  {
    assert mt + " " + path + " " + vt == mt + " " + (path + " " + vt);
    SplitAtSpace(mt, path + " " + vt);
    SplitAtSpace(path, vt);
  }

  lemma AtSpace(s: string)
    requires FindChar(s, ' ') < |s|
    ensures var k := FindChar(s, ' '); s == s[..k] + " " + s[k + 1..]
  {
    CutAt(s, FindChar(s, ' '));
  }

  lemma CutAt(s: string, k: nat)
    requires k < |s|
    ensures s == s[..k] + [s[k]] + s[k + 1..]
  {
  }

  lemma Join(a: string, b: string, c: string)
    ensures a + " " + (b + " " + c) == a + " " + b + " " + c
  {
  }

  lemma AcceptedHasForm(r: Request, line: string)
    requires ProcessRequestLine(r, line).0
    ensures GoodRequestLine(line)
  {
    var space := FindChar(line, ' ');
    var mt, rest := line[..space], line[space + 1..];
    var space2 := FindChar(rest, ' ');
    var path, vt := rest[..space2], rest[space2 + 1..];
    AtSpace(line);
    AtSpace(rest);
    Join(mt, path, vt);
    TextsOf(mt, vt);
    assert IsRequestLine(line, MethodOf(mt), path, VersionOf(vt));
  }

  /**
   The line is accepted exactly when it has the form of section 3.1.1, with the versions known here;
   the request then holds its parts.
   */
  lemma RequestLineAcceptedIff(r: Request, line: string)
    ensures ProcessRequestLine(r, line).0 <==> GoodRequestLine(line)
    ensures forall m, path, v :: IsRequestLine(line, m, path, v) ==>
              ProcessRequestLine(r, line) == (true, r.(verb := m, path := path, version := v))
  {
    if ProcessRequestLine(r, line).0 { AcceptedHasForm(r, line); }
    forall m, path, v | IsRequestLine(line, m, path, v)
      ensures ProcessRequestLine(r, line) == (true, r.(verb := m, path := path, version := v))
    {
      GoodLineParses(r, m, path, v);
    }
  }

  /** In the header state, with the CRLF before the first header still in front. */
  ghost predicate Closed(s: string) {
    exists a: nat, b: nat :: ClosingLine(CRLF + s, a, b)
  }

  lemma DropCrlf(s: string, k: nat)
    requires MatchAt(s, CRLF, k)
    ensures s[k..] == CRLF + s[k + 2..] && (CRLF + s)[k + 2..] == s[k..]
  {
    assert s[k..k + 2] == CRLF;
    assert s[k..] == s[k..k + 2] + s[k + 2..];
  }

  /** A closing line found in a suffix is one in the whole text, and the other way round. */
  lemma ClosingLineShifts(t: string, d: nat, a: nat, b: nat)
    requires d <= |t|
    ensures ClosingLine(t[d..], a, b) <==> ClosingLine(t, d + a, d + b)
  {
    ShiftMatch(t, d, a);
    ShiftMatch(t, d, b);
    if a + 2 <= b && d + b <= |t| {
      assert t[d..][a + 2..b] == t[d + a + 2..d + b];
    }
  }

  lemma ClosedWithin(s: string, k: nat)
    requires FindCrlf(s) == Some(k)
    ensures Closed(s) <==> ':' !in s[..k] || Closed(s[k + 2..])
  {
    if ':' !in s[..k] {
      ClosedAtOnce(s, k);
    } else if Closed(s) {
      var a: nat, b: nat :| ClosingLine(CRLF + s, a, b);
      ClosesLater(s, k, a, b);
    }
    if Closed(s[k + 2..]) {
      ClosedFromRest(s, k);
    }
  }

  lemma ClosedFromRest(s: string, k: nat)
    requires FindCrlf(s) == Some(k) && Closed(s[k + 2..])
    ensures Closed(s)
  {
    DropCrlf(s, k);
    var a: nat, b: nat :| ClosingLine(CRLF + s[k + 2..], a, b);
    ClosingLineShifts(CRLF + s, k + 2, a, b);
  }

  lemma ClosedAtOnce(s: string, k: nat)
    requires MatchAt(s, CRLF, k) && ':' !in s[..k]
    ensures Closed(s)
  {
    var t := CRLF + s;
    assert t[0 + 2..k + 2] == s[..k] && t[0..0 + 2] == CRLF;
    assert t[k + 2..k + 2 + 2] == s[k..k + 2];
    assert ClosingLine(t, 0, k + 2);
  }

  lemma NotInFirstLine(s: string, k: nat, a: nat, b: nat)
    requires FindCrlf(s) == Some(k) && ':' in s[..k] && ClosingLine(CRLF + s, a, b)
    ensures k + 2 <= a
  {
    if a < k + 2 {
      NoCrlfBefore(s, k, a);
      if b < k + 2 { NoCrlfBefore(s, k, b); }
    }
    assert k + 2 <= b ==> (CRLF + s)[2..b][..k] == s[..k];
  }

  lemma ClosesLater(s: string, k: nat, a: nat, b: nat)
    requires FindCrlf(s) == Some(k) && ':' in s[..k] && ClosingLine(CRLF + s, a, b)
    ensures Closed(s[k + 2..])
  {
    NotInFirstLine(s, k, a, b);
    DropCrlf(s, k);
    ClosingLineShifts(CRLF + s, k + 2, a - k - 2, b - k - 2);
  }

  lemma ShiftMatch(t: string, d: nat, i: nat)
    requires d <= |t|
    ensures MatchAt(t[d..], CRLF, i) <==> MatchAt(t, CRLF, d + i)
  {
    if d + i + 2 <= |t| { assert t[d..][i..i + 2] == t[d + i..d + i + 2]; }
  }

  /** Before the first CRLF of `s` there is in CRLF + s only the one in front. */
  lemma NoCrlfBefore(s: string, k: nat, i: nat)
    requires FindCrlf(s) == Some(k)
    requires MatchAt(CRLF + s, CRLF, i) && i < k + 2
    ensures i == 0
  {
    var t := CRLF + s;
    assert 3 <= |t| ==> t[1..3][0] == '\n';
    if i >= 2 {
      assert t[2..] == s;
      ShiftMatch(t, 2, i - 2);
    }
  }

  lemma NotClosedYet(s: string)
    requires FindCrlf(s).None?
    ensures !Closed(s)
  {
    var t := CRLF + s;
    assert t[2..] == s;
    forall a: nat, b: nat ensures !ClosingLine(t, a, b) {
      if b >= 2 { ShiftMatch(t, 2, b - 2); }
    }
  }

  lemma {:induction false} HeadersComplete(p: Parse)
    requires p.ok && p.hasMore && p.state == ExpectHeaders
    ensures Run(p).ok
    ensures Run(p).state == GotAll <==> Closed(p.input)
    ensures Run(p).state in {ExpectHeaders, GotAll}
    decreases |p.input|
  {
    match FindCrlf(p.input)
    case None =>
      NotClosedYet(p.input);
    case Some(k) =>
      ClosedWithin(p.input, k);
      var next := Step(p);
      if next.state == ExpectHeaders {
        HeadersComplete(next);
      } else {
        assert Run(next) == Step(next);
      }
  }

  /**
   From a fresh parser: the request is complete exactly when the input holds a good request line
   and, behind it, a line without a colon; it is refused exactly when its first line is bad.
   */
  lemma CompleteIff(request: Request, s: string)
    ensures var p := ParseRequest(ExpectRequestLine, request, s);
            && (p.state == GotAll <==> HoldsRequest(s))
            && (!p.ok <==> FindCrlf(s).Some? && !GoodRequestLine(s[..FindCrlf(s).value]))
  {
    var p := Start(ExpectRequestLine, request, s);
    match FindCrlf(s)
    case None =>
      assert Run(p) == Run(p.(hasMore := false));
    case Some(k) =>
      RequestLineAcceptedIff(request, s[..k]);
      var next := Step(p);
      assert Run(p) == Run(next);
      if ProcessRequestLine(request, s[..k]).0 {
        HeadersComplete(next);
        ClosedAfterIff(s, k);
      }
  }

  lemma ClosedAfterIff(s: string, k: nat)
    requires FindCrlf(s) == Some(k)
    ensures ClosedAfter(s, k) <==> Closed(s[k + 2..])
  {
    DropCrlf(s, k);
    if ClosedAfter(s, k) { ClosedBehind(s, k); }
    if Closed(s[k + 2..]) { ClosedInFront(s, k); }
  }

  lemma ClosedBehind(s: string, k: nat)
    requires k + 2 <= |s| && s[k..] == CRLF + s[k + 2..] && ClosedAfter(s, k)
    ensures Closed(s[k + 2..])
  {
    var a: nat, b: nat :| k <= a && ClosingLine(s, a, b);
    ClosingLineShifts(s, k, a - k, b - k);
  }

  lemma ClosedInFront(s: string, k: nat)
    requires k + 2 <= |s| && s[k..] == CRLF + s[k + 2..] && Closed(s[k + 2..])
    ensures ClosedAfter(s, k)
  {
    var a: nat, b: nat :| ClosingLine(s[k..], a, b);
    ClosingLineShifts(s, k, a, b);
  }

  /* ---------------------------------------------------------------- round trip */

  ghost predicate Blank(s: string) {
    forall i :: 0 <= i < |s| ==> s[i] == ' ' || s[i] == '\t'
  }

  /** A header as sent: field, colon, white space, value, white space. */
  datatype Header = Header(field: string, before: string, value: string, after: string) {
    ghost predicate Valid() {
      && ':' !in field && FindCrlf(field).None?
      && Blank(before) && Blank(after)
      && Trimmed(value) && FindCrlf(value).None?
    }

    function Line(): string {
      field + ":" + before + value + after
    }
  }

  function PrintHeaders(hs: seq<Header>): string {
    if hs == [] then "" else hs[0].Line() + CRLF + PrintHeaders(hs[1..])
  }

  function PrintRequest(m: Method, path: string, v: Version, hs: seq<Header>): string {
    MethodText(m) + " " + path + " " + VersionText(v) + CRLF + PrintHeaders(hs) + CRLF
  }

  /** The headers of a list, later ones winning. */
  function Collect(hs: seq<Header>, m: map<string, string>): map<string, string> {
    if hs == [] then m else Collect(hs[1..], m[hs[0].field := hs[0].value])
  }

  predicate IsCrlf(s: string, i: nat) {
    i + 2 <= |s| && s[i] == '\r' && s[i + 1] == '\n'
  }

  lemma NoCrlfIff(s: string)
    ensures FindCrlf(s).None? <==> forall i: nat :: !IsCrlf(s, i)
  {
    forall i: nat ensures MatchAt(s, CRLF, i) <==> IsCrlf(s, i) {
      if i + 2 <= |s| { assert s[i..i + 2] == [s[i], s[i + 1]]; }
    }
  }

  /** There is no CRLF in `a + [c] + b` when there is none in `a` and `b` and `c` is neither CR nor LF. */
  lemma NoCrlfJoin(a: string, c: char, b: string)
    requires FindCrlf(a).None? && FindCrlf(b).None? && c != '\r' && c != '\n'
    ensures FindCrlf(a + [c] + b).None?
  {
    var s := a + [c] + b;
    NoCrlfIff(a);
    NoCrlfIff(b);
    forall i: nat ensures !IsCrlf(s, i) {
      assert !IsCrlf(a, i);
      if i > |a| { assert !IsCrlf(b, i - |a| - 1); }
    }
    NoCrlfIff(s);
  }

  lemma {:induction false} NoCrlfBlank(a: string, blank: string)
    requires FindCrlf(a).None? && Blank(blank)
    ensures FindCrlf(a + blank).None?
    decreases |blank|
  {
    if blank == [] {
      assert a + blank == a;
    } else {
      var last := |blank| - 1;
      NoCrlfBlank(a, blank[..last]);
      NoCrlfJoin(a + blank[..last], blank[last], "");
      assert a + blank == a + blank[..last] + [blank[last]] + "";
    }
  }

  lemma {:induction false} NoCrlfBlankFront(blank: string, b: string)
    requires FindCrlf(b).None? && Blank(blank)
    ensures FindCrlf(blank + b).None?
    decreases |blank|
  {
    if blank == [] {
      assert blank + b == b;
    } else {
      NoCrlfBlankFront(blank[1..], b);
      NoCrlfJoin("", blank[0], blank[1..] + b);
      assert blank + b == "" + [blank[0]] + (blank[1..] + b);
    }
  }

  /** A CRLF needs its LF: adding a lone CR at the end creates none. */
  lemma NoCrlfCr(a: string)
    requires FindCrlf(a).None?
    ensures FindCrlf(a + "\r").None?
  {
    forall i: nat ensures !MatchAt(a + "\r", CRLF, i) {
      if i + 2 <= |a| + 1 {
        if i + 2 <= |a| {
          assert !MatchAt(a, CRLF, i) && (a + "\r")[i..i + 2] == a[i..i + 2];
        } else {
          assert (a + "\r")[i..i + 2][1] == '\r';
        }
      }
    }
  }

  lemma HeaderLineNoCrlf(h: Header)
    requires h.Valid()
    ensures FindCrlf(h.Line() + "\r").None?
  {
    NoCrlfBlankFront(h.before, h.value);
    NoCrlfBlank(h.before + h.value, h.after);
    NoCrlfJoin(h.field, ':', h.before + h.value + h.after);
    assert h.Line() == h.field + [':'] + (h.before + h.value + h.after);
    NoCrlfCr(h.Line());
  }

  lemma HeaderParts(h: Header)
    requires h.Valid()
    ensures var line, k := h.Line(), |h.field|;
            && FindChar(line, ':') == k < |line| && line[..k] == h.field && Trim(line[k + 1..]) == h.value
  {
    var line := h.Line();
    assert line == h.field + [':'] + (h.before + h.value + h.after);
    FindCharAfter(h.field, ':', h.before + h.value + h.after);
    assert line[..|h.field|] == h.field;
    assert line[|h.field| + 1..] == h.before + h.value + h.after;
    TrimSpec(h.before, h.value, h.after);
  }

  /** Parsing one printed header. */
  lemma HeaderStep(p: Parse, h: Header, rest: string)
    requires p.state == ExpectHeaders && h.Valid() && p.input == h.Line() + CRLF + rest
    ensures Step(p) == p.(request := p.request.(headers := p.request.headers[h.field := h.value]), input := rest)
  {
    HeaderLineNoCrlf(h);
    FindCrlfAfterLine(h.Line(), rest);
    var line := h.Line();
    CutLine(line, rest);
    HeaderParts(h);
  }

  lemma CutLine(line: string, rest: string)
    ensures (line + CRLF + rest)[..|line|] == line && (line + CRLF + rest)[|line| + 2..] == rest
  {
  }

  lemma {:induction false} HeadersRoundTrip(p: Parse, hs: seq<Header>, tail: string)
    requires p.ok && p.hasMore && p.state == ExpectHeaders
    requires forall i :: 0 <= i < |hs| ==> hs[i].Valid()
    requires p.input == PrintHeaders(hs) + CRLF + tail
    ensures Run(p) == Parse(true, false, GotAll, p.request.(headers := Collect(hs, p.request.headers)), tail)
    decreases |hs|
  {
    if hs == [] {
      FindCrlfAfterLine("", tail);
      assert p.input == "" + CRLF + tail && p.input[2..] == tail && p.input[..0] == "";
      assert FindCrlf(p.input) == Some(0);
      var next := Step(p);
      assert next == p.(state := ExpectBody, input := tail);
      assert Run(next) == Step(next);
    } else {
      var rest := PrintHeaders(hs[1..]) + CRLF + tail;
      assert p.input == hs[0].Line() + CRLF + rest;
      HeaderStep(p, hs[0], rest);
      HeadersRoundTrip(Step(p), hs[1..], tail);
    }
  }

  /**
   Parsing a printed request from the initial state gives that request back and leaves the bytes
   behind it unread.
   */
  lemma RoundTrip(m: Method, path: string, v: Version, hs: seq<Header>, tail: string)
    requires m != Invalid && v != Unknown && ' ' !in path && FindCrlf(path).None?
    requires forall i :: 0 <= i < |hs| ==> hs[i].Valid()
    ensures ParseRequest(ExpectRequestLine, FRESH_REQUEST, PrintRequest(m, path, v, hs) + tail)
            == Parse(true, false, GotAll, Request(m, path, v, Collect(hs, map[]), ""), tail)
  {
    var line := MethodText(m) + " " + path + " " + VersionText(v);
    assert FindCrlf(line + "\r").None? by { RequestLineNoCrlf(m, path, v); }
    GoodLineParses(FRESH_REQUEST, m, path, v);
    LineThenHeaders(line, FRESH_REQUEST.(verb := m, path := path, version := v), hs, tail);
  }

  lemma RequestLineNoCrlf(m: Method, path: string, v: Version)
    requires FindCrlf(path).None?
    ensures FindCrlf(MethodText(m) + " " + path + " " + VersionText(v) + "\r").None?
  {
    TextsWithoutCrlf(m, v);
    var mt, vt := MethodText(m), VersionText(v);
    NoCrlfJoin(mt, ' ', path);
    NoCrlfJoin(mt + [' '] + path, ' ', vt);
    NoCrlfCr(mt + [' '] + path + [' '] + vt);
  }

  lemma LineThenHeaders(line: string, parsed: Request, hs: seq<Header>, tail: string)
    requires FindCrlf(line + "\r").None? && ProcessRequestLine(FRESH_REQUEST, line) == (true, parsed)
    requires forall i :: 0 <= i < |hs| ==> hs[i].Valid()
    ensures ParseRequest(ExpectRequestLine, FRESH_REQUEST, line + CRLF + PrintHeaders(hs) + CRLF + tail)
            == Parse(true, false, GotAll, parsed.(headers := Collect(hs, parsed.headers)), tail)
  {
    var rest := PrintHeaders(hs) + CRLF + tail;
    Regroup(line + CRLF, PrintHeaders(hs), CRLF, tail);
    FirstLineStep(line, parsed, rest);
    HeadersRoundTrip(Parse(true, true, ExpectHeaders, parsed, rest), hs, tail);
  }

  lemma Regroup(a: string, b: string, c: string, d: string)
    ensures a + b + c + d == a + (b + c + d)
  {
  }

  lemma FirstLineStep(line: string, parsed: Request, rest: string)
    requires FindCrlf(line + "\r").None? && ProcessRequestLine(FRESH_REQUEST, line) == (true, parsed)
    ensures ParseRequest(ExpectRequestLine, FRESH_REQUEST, line + CRLF + rest)
            == Run(Parse(true, true, ExpectHeaders, parsed, rest))
  {
    var input := line + CRLF + rest;
    FindCrlfAfterLine(line, rest);
    assert input[..|line|] == line && input[|line| + 2..] == rest;
    assert Step(Start(ExpectRequestLine, FRESH_REQUEST, input)) == Parse(true, true, ExpectHeaders, parsed, rest);
  }

  lemma TextsWithoutCrlf(m: Method, v: Version)
    ensures FindCrlf(MethodText(m)).None? && FindCrlf(VersionText(v)).None?
  {
    if FindCrlf(MethodText(m)).Some? {
      assert '\n' in MethodText(m) by {
        var k := FindCrlf(MethodText(m)).value;
        assert MethodText(m)[k..k + 2][1] == MethodText(m)[k + 1];
      }
    }
  }

  /** Every printed header is one of the map: then so is every collected one. */
  lemma {:induction false} CollectWithin(hs: seq<Header>, m: map<string, string>, headers: map<string, string>)
    requires forall f :: f in m ==> f in headers && m[f] == headers[f]
    requires forall i :: 0 <= i < |hs| ==> hs[i].field in headers && headers[hs[i].field] == hs[i].value
    ensures forall f :: f in Collect(hs, m) ==> f in headers && Collect(hs, m)[f] == headers[f]
    ensures m.Keys <= Collect(hs, m).Keys
    ensures forall i :: 0 <= i < |hs| ==> hs[i].field in Collect(hs, m)
    decreases |hs|
  {
    if hs != [] {
      CollectWithin(hs[1..], m[hs[0].field := hs[0].value], headers);
      forall i | 0 <= i < |hs| ensures hs[i].field in Collect(hs, m) {
        if i > 0 { assert hs[i] == hs[1..][i - 1]; }
      }
    }
  }

  /** Printing a header map, its fields in any order, and parsing it gives the map back. */
  lemma HeaderMapRoundTrip(m: Method, path: string, v: Version, headers: map<string, string>,
                           hs: seq<Header>, tail: string)
    requires m != Invalid && v != Unknown && ' ' !in path && FindCrlf(path).None?
    requires forall i :: 0 <= i < |hs| ==> hs[i].Valid()
    requires forall i :: 0 <= i < |hs| ==> hs[i].field in headers && headers[hs[i].field] == hs[i].value
    requires forall f :: f in headers ==> exists i :: 0 <= i < |hs| && hs[i].field == f
    ensures ParseRequest(ExpectRequestLine, FRESH_REQUEST, PrintRequest(m, path, v, hs) + tail)
            == Parse(true, false, GotAll, Request(m, path, v, headers, ""), tail)
  {
    RoundTrip(m, path, v, hs, tail);
    CollectWithin(hs, map[], headers);
    assert Collect(hs, map[]) == headers;
  }
}

/** The parser object and the server callback that drives it (http/HttpContext.h, http/HttpServer.cc). */
module HttpContexts {
  import opened Options
  import opened Search
  import opened Buffers
  import opened HttpRequests
  import opened HttpParsing

  class HttpContext {
    var state: State
    const request: HttpRequest

    constructor ()
      ensures state == ExpectRequestLine && request.Value() == FRESH_REQUEST && fresh(request)
    {
      state := ExpectRequestLine;
      request := new HttpRequest();
    }

    method Reset()
      modifies this, request
      ensures state == ExpectRequestLine && request.Value() == FRESH_REQUEST
    {
      state := ExpectRequestLine;
      request.Reset();
    }

    method ParseLine(line: string) returns (ok: bool)
      modifies request
      ensures (ok, request.Value()) == ProcessRequestLine(old(request.Value()), line)
    {
      ok := false;
      var space := FindChar(line, ' ');
      if space != |line| {
        var known := request.SetMethod(line[..space]);
        if known {
          var rest := line[space + 1..];
          space := FindChar(rest, ' ');
          if space != |rest| {
            request.SetPath(rest[..space]);
            var version := rest[space + 1..];
            ok := |version| == 8 && version[..7] == "HTTP/1.";
            if ok {
              if version[7] == '1' {
                request.SetVersion(Http11);
              } else if version[7] == '0' {
                request.SetVersion(Http10);
              } else {
                ok := false;
              }
            }
          }
        }
      }
    }

    /** [peek(), crlf). */
    method PeekLine(buf: Buffer, k: nat) returns (line: string)
      requires buf.Valid() && k <= |buf.Text()|
      ensures line == buf.Text()[..k]
    {
      line := buf.storage[buf.readIndex..buf.readIndex + k];
      SliceOfSlice(buf.storage, buf.readIndex, buf.writeIndex, 0, k);
    }

    /** One turn of the loop in the state that expects a request line. */
    method TakeRequestLine(buf: Buffer) returns (ok: bool, hasMore: bool)
      requires buf.Valid() && state == ExpectRequestLine
      modifies this, request, buf
      ensures buf.Valid()
      ensures Parse(ok, hasMore, state, request.Value(), buf.Text())
              == Step(Start(old(state), old(request.Value()), old(buf.Text())))
    {
      ok, hasMore := true, true;
      var crlf := buf.FindCRLF();
      if crlf.Some? {
        var line := PeekLine(buf, crlf.value);
        ok := ParseLine(line);
        if ok {
          buf.RetrieveUntil(buf.readIndex + crlf.value + 2);
          state := ExpectHeaders;
        } else {
          hasMore := false;
        }
      } else {
        hasMore := false;
      }
    }

    /** One turn of the loop in the state that expects a header or the end of the headers. */
    method TakeHeader(buf: Buffer) returns (hasMore: bool)
      requires buf.Valid() && state == ExpectHeaders
      modifies this, request, buf
      ensures buf.Valid()
      ensures Parse(true, hasMore, state, request.Value(), buf.Text())
              == Step(Start(old(state), old(request.Value()), old(buf.Text())))
    {
      hasMore := true;
      var crlf := buf.FindCRLF();
      if crlf.Some? {
        var line := PeekLine(buf, crlf.value);
        var colon := FindChar(line, ':');
        if colon != |line| {
          request.AddHeader(line, colon);
        } else {
          state := ExpectBody;
        }
        buf.RetrieveUntil(buf.readIndex + crlf.value + 2);
      } else {
        hasMore := false;
      }
    }

    /** The loop over the readable part of `buf`; it must not be entered with a request already complete. */
    method ParseRequest(buf: Buffer) returns (ok: bool)
      requires buf.Valid() && state != GotAll
      modifies this, request, buf
      ensures buf.Valid()
      ensures Parse(ok, false, state, request.Value(), buf.Text())
              == HttpParsing.ParseRequest(old(state), old(request.Value()), old(buf.Text()))
    {
      ok := true;
      var hasMore := true;
      while hasMore
        invariant buf.Valid()
        invariant hasMore ==> ok && state != GotAll
        invariant Run(Parse(ok, hasMore, state, request.Value(), buf.Text()))
                  == HttpParsing.ParseRequest(old(state), old(request.Value()), old(buf.Text()))
        decreases |buf.Text()|, hasMore
      {
        ghost var before := Parse(ok, hasMore, state, request.Value(), buf.Text());
        if state == ExpectRequestLine {
          ok, hasMore := TakeRequestLine(buf);
        } else if state == ExpectHeaders {
          hasMore := TakeHeader(buf);
        } else if state == ExpectBody {
          state := GotAll;
          hasMore := false;
        }
        StepProgress(before);
      }
    }
  }

  lemma StepProgress(p: Parse)
    requires p.ok && p.hasMore && p.state != GotAll
    ensures Run(p) == Run(Step(p))
    ensures Step(p).hasMore ==> |Step(p).input| < |p.input| && Step(p).state != GotAll && Step(p).ok
  {
  }

  /** What the server sends back: a refusal, or the answer of the user callback to a request. */
  datatype Reply = BadRequest | Answer(request: Request, complete: bool)

  /** The reply to the bytes read so far by a parser in some state. */
  ghost function ReplyFrom(state: State, request: Request, s: string): Reply
    requires state != GotAll
  {
    var p := HttpParsing.ParseRequest(state, request, s);
    if !p.ok then BadRequest else Answer(p.request, p.state == GotAll)
  }

  ghost function ReplyTo(request: Request, s: string): Reply {
    ReplyFrom(ExpectRequestLine, request, s)
  }

  /** One message callback; the parser is left ready for the next request whatever happened. */
  method OnMessage(context: HttpContext, buf: Buffer) returns (reply: Reply)
    requires buf.Valid() && context.state != GotAll
    modifies context, context.request, buf
    ensures buf.Valid()
    ensures reply == ReplyFrom(old(context.state), old(context.request.Value()), old(buf.Text()))
    ensures old(context.state) == ExpectRequestLine ==> context.state == ExpectRequestLine
    ensures reply.Answer? ==> context.state == ExpectRequestLine && context.request.Value() == FRESH_REQUEST
    ensures var p := HttpParsing.ParseRequest(old(context.state), old(context.request.Value()), old(buf.Text()));
            && buf.Text() == p.input
            && (reply.BadRequest? ==> context.state == p.state && context.request.Value() == p.request)
    ensures context.state != GotAll
  {
    ghost var s := buf.Text();
    NeverRefused(Start(context.state, context.request.Value(), s));
    var ok := context.ParseRequest(buf);
    if !ok {
      reply := BadRequest;
    } else {
      reply := Answer(context.request.Value(), context.state == GotAll);
      context.Reset();
    }
  }

  /** Headers change nothing of what the request line has set. */
  lemma {:induction false} HeadersKeepLine(p: Parse)
    requires p.ok && (p.hasMore ==> p.state in {ExpectHeaders, ExpectBody})
    ensures var r := Run(p).request;
            && Run(p).ok && r.verb == p.request.verb && r.path == p.request.path
            && r.version == p.request.version && r.body == p.request.body
    decreases |p.input|, p.hasMore
  {
    if p.hasMore { HeadersKeepLine(Step(p)); }
  }

  /** The user callback gets the method, the path and the version of the first line. */
  lemma AnswersFirstLine(request: Request, s: string, k: nat, m: Method, path: string, v: Version)
    requires FindCrlf(s) == Some(k) && IsRequestLine(s[..k], m, path, v)
    ensures var reply := ReplyTo(request, s);
            && reply.Answer? && reply.request.verb == m && reply.request.path == path && reply.request.version == v
            && reply.request.body == request.body
  {
    RequestLineAcceptedIff(request, s[..k]);
    var p := Start(ExpectRequestLine, request, s);
    assert Run(p) == Run(Step(p));
    HeadersKeepLine(Step(p));
  }

  /** The user callback gets the request that was sent, with its headers, and as a complete one. */
  lemma AnswersRequest(m: Method, path: string, v: Version, hs: seq<Header>, tail: string)
    requires m != Invalid && v != Unknown && ' ' !in path && FindCrlf(path).None?
    requires forall i :: 0 <= i < |hs| ==> hs[i].Valid()
    ensures ReplyTo(FRESH_REQUEST, PrintRequest(m, path, v, hs) + tail)
            == Answer(Request(m, path, v, Collect(hs, map[]), ""), true)
  {
    RoundTrip(m, path, v, hs, tail);
  }

  lemma NoLineEnd(s: string)
    requires '\n' !in s
    ensures FindCrlf(s).None?
  {
    forall i: nat ensures !MatchAt(s, CRLF, i) {
      if i + 2 <= |s| { assert s[i..i + 2][1] == s[i + 1]; }
    }
  }

  const FIELD: Header := Header("a", " ", "b", "")

  lemma FieldIsValid()
    ensures FIELD.Valid()
  {
    NoLineEnd("a");
    NoLineEnd("b");
  }

  lemma FieldText()
    ensures PrintHeaders([FIELD]) == "a: b\r\n"
  {
    assert [FIELD][1..] == [] && PrintHeaders([]) == "";
    assert FIELD.Line() == "a: b";
  }

  /** A request as it comes over the wire, with the first byte of another one. */
  lemma AnswersExample()
    ensures ReplyTo(FRESH_REQUEST, "GET / HTTP/1.1\r\na: b\r\n\r\nG")
            == Answer(Request(Get, "/", Http11, map["a" := "b"], ""), true)
  {
    NoLineEnd("/");
    FieldIsValid();
    FieldText();
    assert PrintRequest(Get, "/", Http11, [FIELD]) + "G" == "GET / HTTP/1.1\r\na: b\r\n\r\nG";
    AnswersRequest(Get, "/", Http11, [FIELD], "G");
    assert [FIELD][1..] == [];
    assert Collect([FIELD], map[]) == map["a" := "b"];
  }

  /** Only a request line is ever refused, and then the parser still expects one. */
  lemma {:induction false} NeverRefused(p: Parse)
    requires p.ok && p.hasMore && p.state != GotAll
    ensures !Run(p).ok ==> Run(p).state == ExpectRequestLine && p.state == ExpectRequestLine
    decreases |p.input|, p.hasMore
  {
    var next := Step(p);
    if next.hasMore { NeverRefused(next); }
  }

  /**
   An answer is one to a complete request exactly when the bytes read so far hold one: otherwise
   the callback runs on whatever fields were there, since "no error" is taken for "complete".
   */
  lemma ReplyKind(request: Request, s: string)
    ensures ReplyTo(request, s) == BadRequest <==> FindCrlf(s).Some? && !GoodRequestLine(s[..FindCrlf(s).value])
    ensures ReplyTo(request, s).Answer? ==> (ReplyTo(request, s).complete <==> HoldsRequest(s))
  {
    CompleteIff(request, s);
  }

  /** A request cut after its fifth byte is answered too early. */
  lemma EarlyAnswer()
    ensures ReplyTo(FRESH_REQUEST, "GET /") == Answer(FRESH_REQUEST, false)
  {
    var s := "GET /";
    forall i: nat ensures !MatchAt(s, CRLF, i) {
      if i + 2 <= |s| { assert s[i] != '\r' && s[i..i + 2][0] == s[i]; }
    }
    var p := Start(ExpectRequestLine, FRESH_REQUEST, s);
    assert Run(p) == Run(p.(hasMore := false));
  }
}
