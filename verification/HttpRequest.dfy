/** An HTTP request and the text of its parts (http/HttpRequest.h). */
module HttpRequests {
  datatype Method = Invalid | Get | Post | Head | Put | Delete
  datatype Version = Unknown | Http10 | Http11

  /** The value of a request object. */
  datatype Request = Request(verb: Method, path: string, version: Version, headers: map<string, string>, body: string)

  const FRESH_REQUEST: Request := Request(Invalid, "", Unknown, map[], "")

  function MethodOf(s: string): Method {
    if s == "GET" then Get
    else if s == "POST" then Post
    else if s == "HEAD" then Head
    else if s == "PUT" then Put
    else if s == "DELETE" then Delete
    else Invalid
  }

  function MethodText(m: Method): string {
    match m
    case Get => "GET"
    case Post => "POST"
    case Head => "HEAD"
    case Put => "PUT"
    case Delete => "DELETE"
    case Invalid => "UNKNOWN"
  }

  function VersionText(v: Version): string {
    match v
    case Http10 => "HTTP/1.0"
    case Http11 => "HTTP/1.1"
    case Unknown => "UNKNOWN"
  }

  /** The tokens of section 3.1.1 of RFC 7230 and section 4 of RFC 7231 that are known here. */
  lemma Tokens(s: string)
    ensures MethodOf(s) == Get <==> s == "GET"
    ensures MethodOf(s) == Post <==> s == "POST"
    ensures MethodOf(s) == Head <==> s == "HEAD"
    ensures MethodOf(s) == Put <==> s == "PUT"
    ensures MethodOf(s) == Delete <==> s == "DELETE"
    ensures MethodOf(s) != Invalid ==> MethodText(MethodOf(s)) == s
    ensures VersionText(Http10) == "HTTP/1.0" && VersionText(Http11) == "HTTP/1.1"
  {
  }

  /** `isspace` in the C locale. */
  predicate IsSpace(c: char) {
    c == ' ' || ('\t' <= c <= '\r')
  }

  function TrimLeft(s: string): string {
    if s != [] && IsSpace(s[0]) then TrimLeft(s[1..]) else s
  }

  function TrimRight(s: string): string {
    if s != [] && IsSpace(s[|s| - 1]) then TrimRight(s[..|s| - 1]) else s
  }

  function Trim(s: string): string {
    TrimRight(TrimLeft(s))
  }

  predicate Trimmed(s: string) {
    s == [] || (!IsSpace(s[0]) && !IsSpace(s[|s| - 1]))
  }

  lemma {:induction false} TrimLeftShape(s: string) returns (k: nat)
    ensures k <= |s| && TrimLeft(s) == s[k..]
    ensures forall i :: 0 <= i < k ==> IsSpace(s[i])
    ensures k < |s| ==> !IsSpace(s[k])
  {
    if s != [] && IsSpace(s[0]) {
      var j := TrimLeftShape(s[1..]);
      k := j + 1;
      forall i | 0 <= i < k ensures IsSpace(s[i]) {
        if i > 0 { assert s[i] == s[1..][i - 1]; }
      }
    } else {
      k := 0;
    }
  }

  lemma {:induction false} TrimRightShape(s: string) returns (k: nat)
    ensures k <= |s| && TrimRight(s) == s[..k]
    ensures forall i :: k <= i < |s| ==> IsSpace(s[i])
    ensures k > 0 ==> !IsSpace(s[k - 1])
  {
    if s != [] && IsSpace(s[|s| - 1]) {
      k := TrimRightShape(s[..|s| - 1]);
      forall i | k <= i < |s| ensures IsSpace(s[i]) {
        if i < |s| - 1 { assert s[i] == s[..|s| - 1][i]; }
      }
      assert s[..|s| - 1][..k] == s[..k];
    } else {
      k := |s|;
    }
  }

  /** Space, tabulators, line feed, form feed and carriage return. */
  const SPACES: set<char> := {' ', '\t', '\n', '\U{0b}', '\U{0c}', '\r'}

  /** Trimming removes exactly the white space around a text that neither begins nor ends with any. */
  lemma TrimSpec(left: string, s: string, right: string)
    requires forall c :: c in left + right ==> c in SPACES
    requires s == [] || (s[0] !in SPACES && s[|s| - 1] !in SPACES)
    ensures Trim(left + s + right) == s
  {
    assert forall c :: IsSpace(c) <==> c in SPACES;
    assert forall c :: c in left || c in right ==> c in left + right;
    var all := left + s + right;
    var i := TrimLeftShape(all);
    var rest := all[i..];
    var k := TrimRightShape(rest);
    assert forall j :: 0 <= j < |left| ==> all[j] == left[j];
    assert forall j :: 0 <= j < |right| ==> all[|left| + |s| + j] == right[j];
    if s == [] {
      assert forall j :: 0 <= j < |all| ==> IsSpace(all[j]);
      assert i == |all|;
    } else {
      assert all[|left|] == s[0] && all[|left| + |s| - 1] == s[|s| - 1];
      assert i == |left|;
      assert rest == s + right;
      assert k == |s|;
    }
  }

  class HttpRequest {
    var verb: Method
    var path: string
    var version: Version
    var headers: map<string, string>
    var body: string

    function Value(): Request
      reads this
    {
      Request(verb, path, version, headers, body)
    }

    constructor ()
      ensures Value() == FRESH_REQUEST
    {
      verb, path, version, headers, body := Invalid, "", Unknown, map[], "";
    }

    method SetMethod(s: string) returns (ok: bool)
      modifies this
      ensures Value() == old(Value()).(verb := MethodOf(s))
      ensures ok <==> s in {"GET", "POST", "HEAD", "PUT", "DELETE"}
      ensures ok ==> s == MethodText(verb)
    {
      if s == "GET" {
        verb := Get;
      } else if s == "POST" {
        verb := Post;
      } else if s == "HEAD" {
        verb := Head;
      } else if s == "PUT" {
        verb := Put;
      } else if s == "DELETE" {
        verb := Delete;
      } else {
        verb := Invalid;
      }
      ok := verb != Invalid;
    }

    method SetPath(s: string)
      modifies this
      ensures Value() == old(Value()).(path := s)
    {
      path := s;
    }

    method SetVersion(v: Version)
      modifies this
      ensures Value() == old(Value()).(version := v)
    {
      version := v;
    }

    /** Stores the text before the colon with the trimmed text after it. */
    method AddHeader(line: string, colon: nat)
      requires colon < |line|
      modifies this
      ensures Value() == old(Value()).(headers := old(headers)[line[..colon] := Trim(line[colon + 1..])])
    {
      var field := line[..colon];
      var start, end := colon + 1, |line|;
      while start < end && IsSpace(line[start])
        invariant colon + 1 <= start <= end
        invariant TrimLeft(line[start..]) == TrimLeft(line[colon + 1..])
      {
        assert line[start..][1..] == line[start + 1..];
        start := start + 1;
      }
      assert TrimLeft(line[colon + 1..]) == line[start..] == line[start..end];
      while start < end && IsSpace(line[end - 1])
        invariant start <= end <= |line|
        invariant TrimRight(line[start..end]) == TrimRight(line[start..])
        decreases end
      {
        assert line[start..end][..end - start - 1] == line[start..end - 1];
        end := end - 1;
      }
      assert line[start..end] == TrimRight(line[start..]);
      headers := headers[field := line[start..end]];
    }

    /** The value of a field, or the empty text. */
    function Header(field: string): string
      reads this
    {
      if field in headers then headers[field] else ""
    }

    method Reset()
      modifies this
      ensures Value() == FRESH_REQUEST
    {
      verb, path, version, headers, body := Invalid, "", Unknown, map[], "";
    }
  }
}
