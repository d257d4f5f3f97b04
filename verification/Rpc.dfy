/**
 Remote calls (rpc/RpcServer.h, rpc/RpcServer.cc, rpc/RpcClient.h): what a client sends, what the
 server answers, and what the client makes of the answer.  Both sides use little-endian streams.
 */
module RpcProtocol {
  import opened Options
  import opened Search
  import opened Serialization

  /** The state codes as they lie in memory. */
  const SUCCESS: string := [0 as char, 0 as char, 0 as char, 0 as char]
  const FUNCTION_NOTBIND: string := [1 as char, 0 as char, 0 as char, 0 as char]
  const RECV_TIMEOUT: string := [2 as char, 0 as char, 0 as char, 0 as char]

  const NOT_BIND_TEXT: string := "function not bind: "
  const TIMEOUT_TEXT: string := "recv timeout"

  /** value_t: the value means nothing unless the code is SUCCESS. */
  datatype Reply = Reply(code: string, message: string, value: Value)

  /** A bound function; without a result type it is void. */
  datatype Function = Function(params: seq<Type>, result: Option<Type>, f: seq<Value> -> Value) {
    /** The type its result has on the wire: void returns one byte. */
    function WireType(): Type {
      if result.None? then PodT(1) else result.value
    }

    ghost predicate Valid() {
      result.Some? ==> forall args :: HaveTypes(args, params) ==> HasType(f(args), result.value)
    }
  }

  /** call_helper. */
  function CallHelper(fn: Function, args: seq<Value>): Value {
    if fn.result.None? then Pod([0 as char]) else fn.f(args)
  }

  type Functions = map<string, Function>

  ghost predicate AllValid(fns: Functions) {
    forall name :: name in fns ==> fns[name].Valid()
  }

  /** What onMessage sends back for a message; None when an assertion of the buffer fails. */
  function Serve(fns: Functions, input: string): Option<string> {
    match DecodeString(LittleEndian, "", input)
    case None => None
    case Some((name, rest)) =>
      if name !in fns then EncodeAll(LittleEndian, [Pod(FUNCTION_NOTBIND), Str(NOT_BIND_TEXT + name)])
      else
        match DecodeAll(LittleEndian, fns[name].params, rest)
        case None => None
        case Some((args, _)) => EncodeReply(Reply(SUCCESS, "", CallHelper(fns[name], args)))
  }

  function EncodeReply(r: Reply): Option<string> {
    EncodeAll(LittleEndian, [Pod(r.code), Str(r.message), r.value])
  }

  /** Decoding into a fresh value_t; `initial` is what its value is before. */
  function DecodeReply(initial: Value, input: string): Option<(Reply, string)> {
    match DecodeAll(LittleEndian, [PodT(4), StrT], input)
    case None => None
    case Some((head, rest)) =>
      if |head| != 2 || !head[0].Pod? || !head[1].Str? then None
      else if head[0].bytes != SUCCESS then Some((Reply(head[0].bytes, head[1].text, initial), rest))
      else
        match Decode(LittleEndian, initial, rest)
        case None => None
        case Some((v, left)) => Some((Reply(SUCCESS, head[1].text, v), left))
  }

  /** The bytes of a call. */
  function Request(name: string, args: seq<Value>): Option<string> {
    EncodeAll(LittleEndian, [Str(name)] + args)
  }

  /** What netCall returns: `latched` is set once a call has timed out. */
  function NetCall(latched: bool, sent: nat, taken: int, answer: Option<string>, initial: Value): Option<Reply> {
    if latched || taken != sent || answer.None? || answer.value == ""
    then Some(Reply(RECV_TIMEOUT, TIMEOUT_TEXT, initial))
    else
      match DecodeReply(initial, answer.value)
      case None => None
      case Some((r, _)) => Some(r)
  }

  /* ---------------------------------------------------------------- a call over the wire */

  /* ---------------------------------------------------------------- messages cut short */

  /** A length mark is there, and the text it announces. */
  predicate StringFits(input: string) {
    |input| >= 2 && |input| - 2 >= Word(input[..2])
  }

  /** What is behind the first string. */
  function Behind(input: string): string
    requires StringFits(input)
  {
    input[2 + Word(input[..2])..]
  }

  /** Every string among values of these types fits; a value of fixed size that is cut short is skipped. */
  predicate StringsFit(ts: seq<Type>, input: string) {
    ts == []
    || match ts[0]
       case PodT(size) => StringsFit(ts[1..], if |input| < size then input else input[size..])
       case StrT => StringFits(input) && StringsFit(ts[1..], Behind(input))
  }

  lemma StringFitsIff(into: string, input: string)
    ensures DecodeString(LittleEndian, into, input).Some? <==> StringFits(input)
    ensures StringFits(input) ==>
              DecodeString(LittleEndian, into, input).value == (input[2..2 + Word(input[..2])] + into, Behind(input))
  {
    if |input| >= 2 {
      var count, rest := Word(input[..2]), input[2..];
      assert count <= |rest| ==> rest[..count] == input[2..2 + count] && rest[count..] == input[2 + count..];
      assert count == 0 ==> input[2..2 + count] + into == into;
    }
  }

  lemma {:induction false} StringsFitIff(ts: seq<Type>, input: string)
    ensures DecodeAll(LittleEndian, ts, input).Some? <==> StringsFit(ts, input)
    decreases |ts|
  {
    if ts != [] {
      match ts[0]
      case PodT(size) => StringsFitIff(ts[1..], if |input| < size then input else input[size..]);
      case StrT =>
        StringFitsIff("", input);
        if StringFits(input) { StringsFitIff(ts[1..], Behind(input)); }
    }
  }

  /**
   The server fails an assertion on a message exactly when a length mark or the text it announces
   is cut short, in the name or in the arguments of a bound function.
   */
  lemma ServeFailsIff(fns: Functions, input: string)
    ensures Serve(fns, input).None?
            <==> || !StringFits(input)
                 || (var name := input[2..2 + Word(input[..2])];
                     name in fns && !StringsFit(fns[name].params, Behind(input)))
  {
    StringFitsIff("", input);
    if StringFits(input) {
      var name := input[2..2 + Word(input[..2])];
      assert name + "" == name;
      if name in fns {
        StringsFitIff(fns[name].params, Behind(input));
        var args := DecodeAll(LittleEndian, fns[name].params, Behind(input));
        if args.Some? { ReplySplits(Reply(SUCCESS, "", CallHelper(fns[name], args.value.0))); }
      } else {
        RefusalArrives(name, Pod(""));
      }
    }
  }

  /** A call whose message is cut inside the name, for instance by the end of a read, makes the server fail. */
  lemma CutNameFails(fns: Functions, name: string, k: nat)
    requires EncodeString(LittleEndian, name).Some? && k < |EncodeString(LittleEndian, name).value|
    ensures Serve(fns, EncodeString(LittleEndian, name).value[..k]).None?
  {
    var whole := EncodeString(LittleEndian, name).value;
    var n := Length16(name);
    CountsOf(LittleEndian, name, (name + "\0")[..n]);
    assert |whole| == 2 + n;
    if k >= 2 { assert whole[..k][..2] == Mark(n); }
    ServeFailsIff(fns, whole[..k]);
  }

  /** The result of a call, for arguments of any content. */
  function RemoteResult(fns: Functions, name: string, args: seq<Value>, initial: Value): Reply {
    var called := SentText(name);
    if called in fns then
      var fn := fns[called];
      Reply(SUCCESS, "", Sent(if fn.result.None? then Pod([0 as char]) else fn.f(SentAll(args))))
    else Reply(FUNCTION_NOTBIND, SentText(NOT_BIND_TEXT + called), initial)
  }

  /** The caller's side of the types: arguments as declared, room for the result. */
  predicate Matches(fns: Functions, name: string, args: seq<Value>, initial: Value) {
    var called := SentText(name);
    called in fns ==> HaveTypes(args, fns[called].params) && HasType(initial, fns[called].WireType())
  }

  predicate IsBlank(v: Value) {
    v.Str? ==> v.text == ""
  }

  lemma RequestArrives(name: string, args: seq<Value>)
    ensures EncodeAll(LittleEndian, args).Some?
    ensures Request(name, args) == Some(EncodeString(LittleEndian, name).value + EncodeAll(LittleEndian, args).value)
    ensures DecodeString(LittleEndian, "", Request(name, args).value)
            == Some((SentText(name), EncodeAll(LittleEndian, args).value))
  {
    ListArrives(args, TypesOf(args), "");
    var more := EncodeAll(LittleEndian, args).value;
    StringArrives(name, "", more);
    assert ([Str(name)] + args)[1..] == args;
    assert SentText(name) + "" == SentText(name);
  }

  function TypesOf(vs: seq<Value>): (ts: seq<Type>)
    ensures HaveTypes(vs, ts)
  {
    if vs == [] then [] else [if vs[0].Str? then StrT else PodT(|vs[0].bytes|)] + TypesOf(vs[1..])
  }

  lemma HeadArrives(code: string, message: string, more: string)
    requires |code| == 4
    ensures EncodeAll(LittleEndian, [Pod(code), Str(message)]).Some?
    ensures DecodeAll(LittleEndian, [PodT(4), StrT], EncodeAll(LittleEndian, [Pod(code), Str(message)]).value + more)
            == Some(([Pod(code), Str(SentText(message))], more))
  {
    var head := [Pod(code), Str(message)];
    ListArrives(head, [PodT(4), StrT], more);
    assert SentAll(head) == [Pod(code), Str(SentText(message))];
  }

  lemma OnePacked(v: Value)
    requires EncodeAll(LittleEndian, [v]).Some?
    ensures Encode(LittleEndian, v).Some? && EncodeAll(LittleEndian, [v]) == Encode(LittleEndian, v)
  {
    assert [v][1..] == [];
    assert Encode(LittleEndian, v).value + "" == Encode(LittleEndian, v).value;
  }

  lemma HasTail(vs: seq<Value>)
    requires vs != [] && EncodeAll(LittleEndian, vs).Some?
    ensures EncodeAll(LittleEndian, vs[1..]).Some?
  {
  }

  lemma Cons(vs: seq<Value>)
    requires vs != [] && EncodeAll(LittleEndian, vs[1..]).Some?
    ensures Encode(LittleEndian, vs[0]).Some?
    ensures EncodeAll(LittleEndian, vs)
            == Some(Encode(LittleEndian, vs[0]).value + EncodeAll(LittleEndian, vs[1..]).value)
  {
    ValueArrives(vs[0], TypesOf(vs)[0], Blank(TypesOf(vs)[0]), "");
  }

  /** Packing one list behind another. */
  lemma {:induction false} PackedTogether(vs: seq<Value>, ws: seq<Value>)
    requires EncodeAll(LittleEndian, vs).Some? && EncodeAll(LittleEndian, ws).Some?
    ensures EncodeAll(LittleEndian, vs + ws)
            == Some(EncodeAll(LittleEndian, vs).value + EncodeAll(LittleEndian, ws).value)
    decreases |vs|
  {
    if vs == [] {
      assert vs + ws == ws;
      assert "" + EncodeAll(LittleEndian, ws).value == EncodeAll(LittleEndian, ws).value;
    } else {
      HasTail(vs);
      PackedTogether(vs[1..], ws);
      var us := vs + ws;
      assert us[0] == vs[0] && us[1..] == vs[1..] + ws;
      Cons(us);
      Cons(vs);
      Assoc(Encode(LittleEndian, vs[0]).value,
            EncodeAll(LittleEndian, vs[1..]).value, EncodeAll(LittleEndian, ws).value);
    }
  }

  /** A full reply is its head followed by its value. */
  lemma ReplySplits(r: Reply)
    ensures EncodeAll(LittleEndian, [Pod(r.code), Str(r.message)]).Some? && Encode(LittleEndian, r.value).Some?
    ensures EncodeReply(r)
            == Some(EncodeAll(LittleEndian, [Pod(r.code), Str(r.message)]).value + Encode(LittleEndian, r.value).value)
  {
    var head, v := [Pod(r.code), Str(r.message)], r.value;
    ListArrives(head, TypesOf(head), "");
    ListArrives([v], TypesOf([v]), "");
    PackedTogether(head, [v]);
    assert head + [v] == [Pod(r.code), Str(r.message), v];
    OnePacked(v);
  }

  lemma ReplyArrives(r: Reply, initial: Value, t: Type)
    requires r.code == SUCCESS && HasType(r.value, t) && HasType(initial, t) && IsBlank(initial)
    ensures EncodeReply(r).Some?
    ensures DecodeReply(initial, EncodeReply(r).value) == Some((Reply(SUCCESS, SentText(r.message), Sent(r.value)), ""))
  {
    ReplySplits(r);
    var value := Encode(LittleEndian, r.value).value;
    HeadArrives(r.code, r.message, value);
    ValueArrives(r.value, t, initial, "");
    assert value + "" == value;
  }

  lemma RefusalArrives(name: string, initial: Value)
    ensures var reply := EncodeAll(LittleEndian, [Pod(FUNCTION_NOTBIND), Str(NOT_BIND_TEXT + name)]);
            && reply.Some?
            && DecodeReply(initial, reply.value)
               == Some((Reply(FUNCTION_NOTBIND, SentText(NOT_BIND_TEXT + name), initial), ""))
  {
    HeadArrives(FUNCTION_NOTBIND, NOT_BIND_TEXT + name, "");
    var reply := EncodeAll(LittleEndian, [Pod(FUNCTION_NOTBIND), Str(NOT_BIND_TEXT + name)]).value;
    assert reply + "" == reply;
  }

  lemma SentKeepsTypes(vs: seq<Value>, ts: seq<Type>)
    requires HaveTypes(vs, ts)
    ensures HaveTypes(SentAll(vs), ts)
  {
  }

  /** What the server sends back, before it is encoded. */
  lemma Answered(fns: Functions, name: string, args: seq<Value>)
    requires SentText(name) in fns ==> HaveTypes(args, fns[SentText(name)].params)
    ensures Request(name, args).Some?
    ensures var called := SentText(name);
            Serve(fns, Request(name, args).value)
            == if called in fns then
                 var fn := fns[called];
                 EncodeReply(Reply(SUCCESS, "", if fn.result.None? then Pod([0 as char]) else fn.f(SentAll(args))))
               else EncodeAll(LittleEndian, [Pod(FUNCTION_NOTBIND), Str("function not bind: " + called)])
  {
    RequestArrives(name, args);
    var packed := EncodeAll(LittleEndian, args).value;
    if SentText(name) in fns {
      ListArrives(args, fns[SentText(name)].params, "");
      assert packed + "" == packed;
    }
  }

  /**
   For every table of functions and every call: the server always answers, and the client reads
   from the answer exactly what the function returns locally for what arrives of the arguments,
   or the refusal; nothing is left unread.
   */
  lemma CallOverTheWire(fns: Functions, name: string, args: seq<Value>, initial: Value)
    requires AllValid(fns) && Matches(fns, name, args, initial) && IsBlank(initial)
    ensures Request(name, args).Some?
    ensures Serve(fns, Request(name, args).value).Some?
    ensures DecodeReply(initial, Serve(fns, Request(name, args).value).value)
            == Some((RemoteResult(fns, name, args, initial), ""))
  {
    Answered(fns, name, args);
    var called := SentText(name);
    if called in fns {
      var fn := fns[called];
      SentKeepsTypes(args, fn.params);
      assert fn.Valid();
      assert SentText("") == "";
      ReplyArrives(Reply(SUCCESS, "", CallHelper(fn, SentAll(args))), initial, fn.WireType());
    } else {
      RefusalArrives(called, initial);
    }
  }

  /**
   When no string in the call or its result contains a NUL or has 65536 bytes or more, a remote call
   is a local one: the bound function itself is applied to the arguments themselves, in their order;
   a void function gives one zero byte.  The name of an unbound function comes back in full.
   */
  lemma RemoteIsLocal(fns: Functions, name: string, args: seq<Value>, initial: Value)
    requires Travels(LittleEndian, name) && AllTravel(args)
    requires name in fns && fns[name].result.Some? ==> AllTravel([fns[name].f(args)])
    requires name !in fns ==> Travels(LittleEndian, "function not bind: " + name)
    ensures RemoteResult(fns, name, args, initial)
            == if name !in fns then Reply(FUNCTION_NOTBIND, "function not bind: " + name, initial)
               else if fns[name].result.None? then Reply(SUCCESS, "", Pod([0 as char]))
               else Reply(SUCCESS, "", fns[name].f(args))
  {
    ListUnchangedIff([Str(name)]);
    ListUnchangedIff(args);
    assert SentAll([Str(name)])[0] == Sent(Str(name));
    if name !in fns {
      ListUnchangedIff([Str(NOT_BIND_TEXT + name)]);
      assert SentAll([Str(NOT_BIND_TEXT + name)])[0] == Sent(Str(NOT_BIND_TEXT + name));
    } else if fns[name].result.Some? {
      var r := fns[name].f(args);
      ListUnchangedIff([r]);
      assert SentAll([r])[0] == Sent(r);
    }
  }

  /** The state codes and the texts, as they travel. */
  lemma WireForms(name: string, v: Value)
    ensures EncodeReply(Reply(SUCCESS, "", v))
            == Some([0 as char, 0 as char, 0 as char, 0 as char] + [0 as char, 0 as char]
                    + Encode(LittleEndian, v).value)
    ensures EncodeString(LittleEndian, "function not bind: " + name).Some?
    ensures EncodeAll(LittleEndian, [Pod(FUNCTION_NOTBIND), Str(NOT_BIND_TEXT + name)])
            == Some([1 as char, 0 as char, 0 as char, 0 as char]
                    + EncodeString(LittleEndian, "function not bind: " + name).value)
    ensures NetCall(true, 0, 0, None, v)
            == Some(Reply([2 as char, 0 as char, 0 as char, 0 as char], "recv timeout", v))
  {
    ReplySplits(Reply(SUCCESS, "", v));
    HeadForm(SUCCESS, "");
    HeadForm(FUNCTION_NOTBIND, NOT_BIND_TEXT + name);
    assert EncodeString(LittleEndian, "") == Some([0 as char, 0 as char]);
  }

  lemma HeadForm(code: string, text: string)
    ensures EncodeString(LittleEndian, text).Some?
    ensures EncodeAll(LittleEndian, [Pod(code), Str(text)]) == Some(code + EncodeString(LittleEndian, text).value)
  {
    StringArrives(text, "", "");
    assert [Pod(code), Str(text)][1..] == [Str(text)];
    OneString(text);
  }

  lemma OneString(text: string)
    requires EncodeString(LittleEndian, text).Some?
    ensures EncodeAll(LittleEndian, [Str(text)]) == EncodeString(LittleEndian, text)
  {
    assert [Str(text)][1..] == [];
    assert EncodeString(LittleEndian, text).value + "" == EncodeString(LittleEndian, text).value;
  }

  /** Some name arrives as this one. */
  ghost predicate Reachable(name: string) {
    exists called :: SentText(called) == name
  }

  lemma ReachableIff(name: string)
    ensures Reachable(name) <==> Travels(LittleEndian, name)
  {
    if Travels(LittleEndian, name) {
      NoNul(name);
      assert SentText(name) == name;
    }
    if Reachable(name) {
      var called :| SentText(called) == name;
      SentTextTravels(called);
    }
  }

  lemma SentTextTravels(s: string)
    ensures Travels(LittleEndian, SentText(s))
  {
    NoNul(s);
    var k := FindChar(s, '\0');
    assert '\0' !in s[..k] && |s[..k]| == k && Length16(s) <= k;
    assert forall i :: 0 <= i < Length16(s) ==> s[i] == s[..k][i];
  }

  /**
   Binding a function replaces what was bound under its name and leaves the other names alone.  It
   can be called from then on exactly when its name is free of NUL and shorter than 65536 bytes.
   */
  lemma BoundCallableIff(fns: Functions, name: string, fn: Function, called: string, args: seq<Value>, initial: Value)
    ensures RemoteResult(fns[name := fn], called, args, initial)
            == if SentText(called) == name then
                 Reply(SUCCESS, "", Sent(if fn.result.None? then Pod([0 as char]) else fn.f(SentAll(args))))
               else RemoteResult(fns, called, args, initial)
    ensures Reachable(name) <==> Travels(LittleEndian, name)
  {
    ReachableIff(name);
  }

  /**
   A call to a server that answers fails exactly when an earlier one has timed out, when the socket
   did not take the whole message, or when the answer could not be read; otherwise it gives the
   remote result.
   */
  lemma TimesOutIff(fns: Functions, name: string, args: seq<Value>, initial: Value,
                    latched: bool, taken: int, received: bool)
    requires AllValid(fns) && Matches(fns, name, args, initial) && IsBlank(initial)
    ensures Request(name, args).Some? && Serve(fns, Request(name, args).value).Some?
    ensures var m := Request(name, args).value;
            var r := NetCall(latched, |m|, taken, if received then Serve(fns, m) else None, initial);
            && r.Some?
            && (r.value.code == RECV_TIMEOUT <==> latched || taken != |m| || !received)
            && (r.value.code != RECV_TIMEOUT ==> r.value == RemoteResult(fns, name, args, initial))
  {
    CallOverTheWire(fns, name, args, initial);
    var answer := Serve(fns, Request(name, args).value);
    assert answer.value != "";
    assert RemoteResult(fns, name, args, initial).code[0] != RECV_TIMEOUT[0];
  }
}

module Rpc {
  import opened Options
  import opened BufferOps
  import opened Buffers
  import opened Serialization
  import opened Serializers
  import opened RpcProtocol

  class RpcServer {
    var functions: Functions
    const serializer: Serializer // of the thread

    ghost predicate Valid()
      reads this, serializer.streamBuffer
    {
      serializer.Valid() && serializer.byteOrder == LittleEndian && serializer.Text() == ""
    }

    constructor ()
      ensures Valid() && fresh(serializer.streamBuffer) && functions == map[]
    {
      functions := map[];
      serializer := new Serializer(LittleEndian);
    }

    /** A later binding replaces an earlier one. */
    method Bind(name: string, fn: Function)
      modifies this
      ensures functions == old(functions)[name := fn]
    {
      functions := functions[name := fn];
    }

    /**
     The buffer of the connection is swapped in, the call is made, and the answer is sent; `ok` is
     false when an assertion fails on the way.
     */
    method OnMessage(buf: Buffer) returns (ok: bool, sent: string)
      requires Valid() && buf.Valid() && buf != serializer.streamBuffer
      modifies buf, serializer.streamBuffer
      ensures serializer.Valid() && buf.Valid() && buf.Text() == ""
      ensures ok == Serve(functions, old(buf.Text())).Some?
      ensures ok ==> Valid() && sent == Serve(functions, old(buf.Text())).value
    {
      var ds := serializer;
      ds.streamBuffer.Swap(buf);
      sent := "";
      var funcname;
      ok, funcname := ds.OutputString("");
      if !ok {
        return;
      }
      if funcname !in functions {
        ds.Clear();
        ok := ds.PackageArgs([Pod(FUNCTION_NOTBIND), Str(NOT_BIND_TEXT + funcname)]);
      } else {
        ok := CallProxy(functions[funcname], ds);
      }
      if ok {
        sent := ds.streamBuffer.storage[ds.streamBuffer.readIndex..ds.streamBuffer.writeIndex];
        ds.Clear();
      }
    }

    /** callproxyImpl. */
    method CallProxy(fn: Function, ds: Serializer) returns (ok: bool)
      requires ds.Valid() && ds.byteOrder == LittleEndian
      modifies ds.streamBuffer
      ensures ds.Valid()
      ensures var args := DecodeAll(LittleEndian, fn.params, old(ds.Text()));
              if args.None? then !ok
              else
                var value := if fn.result.None? then Pod([0 as char]) else fn.f(args.value.0);
                var r := EncodeReply(Reply(SUCCESS, "", value));
                ok == r.Some? && (ok ==> ds.Text() == r.value)
    {
      var args;
      ok, args := ds.GetTuple(fn.params);
      if ok {
        ds.Clear();
        var ret := CallHelper(fn, args);
        ok := ds.PackageArgs([Pod(SUCCESS), Str(""), ret]);
      }
    }
  }

  class RpcClient {
    var timedOut: bool           // stateCode_ == RPC_RECV_TIMEOUT
    const serializer: Serializer

    ghost predicate Valid()
      reads this, serializer.streamBuffer
    {
      serializer.Valid() && serializer.byteOrder == LittleEndian
    }

    constructor ()
      ensures Valid() && fresh(serializer.streamBuffer) && !timedOut && serializer.Text() == ""
    {
      timedOut := false;
      serializer := new Serializer(LittleEndian);
    }

    /** The first half of call: name and arguments go behind whatever is in the stream. */
    method Pack(func: string, args: seq<Value>) returns (ok: bool)
      requires Valid()
      modifies serializer.streamBuffer
      ensures Valid() && ok == Request(func, args).Some?
      ensures ok ==> serializer.Text() == old(serializer.Text()) + Request(func, args).value
      ensures |serializer.streamBuffer.storage| >= |old(serializer.streamBuffer.storage)|
    {
      ok := serializer.PackageArgs([Str(func)] + args);
    }

    /**
     `taken` is what write() returns, `answer` what could be read: None for an error, "" when the
     peer has closed.  A client that has timed out neither writes nor empties its stream.
     */
    method NetCall(taken: int, answer: Option<string>, initial: Value) returns (ok: bool, r: Reply)
      requires Valid()
      requires answer.Some? ==> |answer.value| <= |serializer.streamBuffer.storage| - CHEAP_PREPEND + EXTRA_BUF
      modifies this, serializer.streamBuffer
      ensures Valid()
      ensures var spec := RpcProtocol.NetCall(old(timedOut), |old(serializer.Text())|, taken, answer, initial);
              ok == spec.Some? && (ok ==> r == spec.value)
      ensures ok ==> timedOut == (r.code == RECV_TIMEOUT)
      ensures ok ==> serializer.Text() == if old(timedOut) then old(serializer.Text()) else ""
    {
      ok, r := true, Reply(RECV_TIMEOUT, TIMEOUT_TEXT, initial);
      if timedOut {
        return;
      }
      var n := serializer.streamBuffer.writeIndex - serializer.streamBuffer.readIndex;
      assert n == |serializer.Text()|;
      serializer.Clear();
      if taken != n || answer.None? || answer.value == "" {
        timedOut := true;
        return;
      }
      var ret := serializer.streamBuffer.ReadFd(Received(answer.value));
      assert serializer.Text() == answer.value;
      ok, r := Unpack(initial);
      if ok {
        serializer.Clear();
        timedOut := r.code == RECV_TIMEOUT;
      }
    }

    /** operator>> for a value_t. */
    method Unpack(initial: Value) returns (ok: bool, r: Reply)
      requires Valid()
      modifies serializer.streamBuffer
      ensures Valid() && ok == DecodeReply(initial, old(serializer.Text())).Some?
      ensures ok ==> DecodeReply(initial, old(serializer.Text())) == Some((r, serializer.Text()))
    {
      r := Reply(SUCCESS, "", initial);
      var head;
      ok, head := serializer.GetTuple([PodT(4), StrT]);
      if !ok {
        return;
      }
      HeadShape(old(serializer.Text()));
      r := Reply(head[0].bytes, head[1].text, initial);
      if r.code == SUCCESS {
        var v;
        ok, v := serializer.Output(initial);
        r := r.(value := v);
      }
    }
  }

  lemma HeadShape(input: string)
    ensures var d := DecodeAll(LittleEndian, [PodT(4), StrT], input);
            d.Some? ==> |d.value.0| == 2 && d.value.0[0].Pod? && d.value.0[1].Str?
  {
    assert [PodT(4), StrT][1..] == [StrT] && [StrT][1..] == [];
    var p := Decode(LittleEndian, Blank(PodT(4)), input).value;
    assert DecodeAll(LittleEndian, [StrT], p.1).Some? ==> |DecodeAll(LittleEndian, [StrT], p.1).value.0| == 1;
  }

  /**
   A whole call through both objects, each message arriving in one piece: the client gets the
   result of the local call on what arrives of the arguments, or the refusal; afterwards both
   streams and the connection's buffer are empty.
   */
  method RemoteCall(client: RpcClient, server: RpcServer, input: Buffer, name: string, args: seq<Value>, initial: Value)
    returns (r: Reply)
    requires client.Valid() && server.Valid() && input.Valid() && input.Text() == ""
    requires !client.timedOut && client.serializer.Text() == ""
    requires client.serializer.streamBuffer != server.serializer.streamBuffer
    requires input != server.serializer.streamBuffer && input != client.serializer.streamBuffer
    requires AllValid(server.functions) && Matches(server.functions, name, args, initial) && IsBlank(initial)
    requires forall m :: Request(name, args) == Some(m) ==> |m| <= |input.storage| - input.writeIndex + EXTRA_BUF
    requires forall m, a :: Request(name, args) == Some(m) && Serve(server.functions, m) == Some(a) ==>
               |a| <= |client.serializer.streamBuffer.storage| - CHEAP_PREPEND + EXTRA_BUF
    modifies client, client.serializer.streamBuffer, server.serializer.streamBuffer, input
    ensures r == RemoteResult(server.functions, name, args, initial)
    ensures client.Valid() && server.Valid() && input.Valid() && !client.timedOut
    ensures client.serializer.Text() == "" && server.serializer.Text() == "" && input.Text() == ""
  {
    CallOverTheWire(server.functions, name, args, initial);
    var packed := client.Pack(name, args);
    var stream := client.serializer.streamBuffer;
    var message := stream.storage[stream.readIndex..stream.writeIndex];
    assert message == Request(name, args).value;
    var answer := Exchange(server, input, message);
    assert answer != "";
    var ok;
    ok, r := client.NetCall(|message|, Some(answer), initial);
  }

  /** The server's side: the message is read in one piece and answered. */
  method Exchange(server: RpcServer, input: Buffer, message: string) returns (answer: string)
    requires server.Valid() && input.Valid() && input.Text() == "" && input != server.serializer.streamBuffer
    requires |message| <= |input.storage| - input.writeIndex + EXTRA_BUF
    requires Serve(server.functions, message).Some?
    modifies server.serializer.streamBuffer, input
    ensures server.Valid() && input.Valid() && input.Text() == ""
    ensures answer == Serve(server.functions, message).value
  {
    var n := input.ReadFd(Received(message));
    assert input.Text() == message;
    var ok;
    ok, answer := server.OnMessage(input);
  }
}
