/**
 * The client side: command encoding, reading replies from a socket that delivers arbitrary pieces
 * (testcore_client/connection.py) and the command pipeline (testcore_client/client.py).
 */
module Client {
  import opened Wrappers
  import opened Text
  import opened Wire
  import C = ClientParser
  import S = ServerParser
  import Serializer

  // ---------------------------------------------------------------- encoding

  function EncodeArg(arg: string): seq<Byte> {
    [BULK] + Decimal(|Encode(arg)|) + [CR, LF] + Encode(arg) + [CR, LF]
  }

  function EncodeArgs(args: seq<string>): seq<Byte> {
    if args == [] then [] else EncodeArg(args[0]) + EncodeArgs(args[1..])
  }

  function CommandBytes(args: seq<string>): seq<Byte> {
    [ARRAY] + Decimal(|args|) + [CR, LF] + EncodeArgs(args)
  }

  lemma {:induction false} EncodeArgsSnoc(args: seq<string>, arg: string)
    ensures EncodeArgs(args + [arg]) == EncodeArgs(args) + EncodeArg(arg)
  {
    hide EncodeArg;
    if args != [] {
      EncodeArgsSnoc(args[1..], arg);
      assert (args + [arg])[1..] == args[1..] + [arg];
    } else {
      assert [arg][1..] == [];
    }
  }

  /** `Connection._encode_command`. */
  method EncodeCommand(args: seq<string>) returns (bytes: seq<Byte>)
    ensures bytes == CommandBytes(args)
  {
    bytes := [ARRAY] + Decimal(|args|) + [CR, LF];
    for i := 0 to |args|
      invariant bytes == [ARRAY] + Decimal(|args|) + [CR, LF] + EncodeArgs(args[..i])
    {
      EncodeArgsSnoc(args[..i], args[i]);
      assert args[..i + 1] == args[..i] + [args[i]];
      var data := Encode(args[i]);
      var part := [BULK] + Decimal(|data|) + [CR, LF] + data + [CR, LF];
      bytes := bytes + part;
    }
    assert args[..|args|] == args;
  }

  /** Client and server write the same bytes for a list of strings. */
  lemma CommandMatchesServer(args: seq<string>)
    ensures CommandBytes(args) == Serializer.EncodeArray(S.Words(args))
  {
    ArgsMatchItems(args);
  }

  lemma {:induction false} ArgsMatchItems(args: seq<string>)
    ensures EncodeArgs(args) == Serializer.EncodeItems(S.Words(args))
  {
    if args != [] {
      ArgsMatchItems(args[1..]);
      assert S.Words(args)[1..] == S.Words(args[1..]);
    }
  }

  // ---------------------------------------------------------------- reading replies

  /** What one `recv` gives: a piece of data (empty when the peer closed), an error or a timeout. */
  datatype Recv = Data(bytes: seq<Byte>) | OsError | TimedOut

  /** The connection's receive side; when `incoming` runs out nothing arrives any more. */
  datatype Link = Link(buffer: seq<Byte>, incoming: seq<Recv>, connected: bool)

  datatype Failure =
    | ServerError(text: string)
    | ProtocolError(fault: Fault)
    | Timeout
    | ConnectionError
    | ParserError

  datatype Result = Ok(value: Value) | Exn(failure: Failure)

  /** `_parse_one` with `_recv_more`: parse, or receive and try again. */
  function ReadOne(link: Link): (r: (Result, Link))
    decreases |link.incoming|
  {
    match C.TryParse(link.buffer)
    case Done(v, consumed) => (Ok(v), link.(buffer := link.buffer[consumed..]))
    case Raised(fault) => (Exn(ProtocolError(fault)), link)
    case Incomplete =>
      if !link.connected then (Exn(ConnectionError), link)
      else if link.incoming == [] then (Exn(Timeout), link)
      else
        var later := link.incoming[1..];
        match link.incoming[0]
        case TimedOut => (Exn(Timeout), link.(incoming := later))
        case OsError => (Exn(ConnectionError), Link([], later, false))
        case Data(bytes) =>
          if bytes == [] then (Exn(ConnectionError), Link([], later, false))
          else ReadOne(link.(buffer := link.buffer + bytes, incoming := later))
  }

  predicate IsErrorText(text: string) {
    "ERR_" <= text
  }

  /** `_read_response`: a decoded string with the `ERR_` mark is raised. */
  function Checked(r: Result): Result {
    if r.Ok? && r.value.Str? && IsErrorText(r.value.text) then Exn(ServerError(r.value.text[4..])) else r
  }

  /** The reading loop of `send_pipeline`: `k` replies, exceptions kept as results. */
  function ReadMany(link: Link, k: nat): (r: (seq<Result>, Link))
    ensures |r.0| == k
    decreases k
  {
    if k == 0 then ([], link)
    else
      var (first, link1) := ReadOne(link);
      var (others, link2) := ReadMany(link1, k - 1);
      ([Checked(first)] + others, link2)
  }

  /** All commands of a batch in one write. */
  method EncodeBatch(commands: seq<seq<string>>) returns (packed: seq<Byte>)
    ensures packed == CommandsBytes(commands)
  {
    packed := [];
    for i := 0 to |commands|
      invariant packed == CommandsBytes(commands[..i])
    {
      var bytes := EncodeCommand(commands[i]);
      CommandsBytesSnoc(commands[..i], commands[i]);
      assert commands[..i + 1] == commands[..i] + [commands[i]];
      packed := packed + bytes;
    }
    assert commands[..|commands|] == commands;
  }

  class Connection {
    var buffer: seq<Byte>
    var incoming: seq<Recv>
    var connected: bool
    var sent: seq<Byte>

    constructor (incoming: seq<Recv>)
      ensures State() == Link([], incoming, true) && sent == []
    {
      buffer, this.incoming, connected, sent := [], incoming, true, [];
    }

    function State(): Link
      reads this
    {
      Link(buffer, incoming, connected)
    }

    /** `_recv_more`; `None` when data arrived, otherwise what it raises. */
    method ReceiveMore() returns (raised: Option<Failure>)
      modifies this`buffer, this`incoming, this`connected
      ensures raised.None? <==>
                old(connected) && old(incoming) != [] && old(incoming)[0].Data? && old(incoming)[0].bytes != []
      ensures raised.None? ==> State() == Link(old(buffer) + old(incoming)[0].bytes, old(incoming)[1..], true)
      ensures raised.Some? && old(C.TryParse(buffer)).Incomplete? ==>
                old(ReadOne(State())) == (Exn(raised.value), State())
    {
      if !connected {
        return Some(ConnectionError);
      }
      if incoming == [] {
        return Some(Timeout);
      }
      var event := incoming[0];
      incoming := incoming[1..];
      match event {
        case TimedOut =>
          return Some(Timeout);
        case OsError =>
          connected, buffer := false, [];
          return Some(ConnectionError);
        case Data(bytes) =>
          if bytes == [] {
            connected, buffer := false, [];
            return Some(ConnectionError);
          }
          buffer := buffer + bytes;
          return None;
      }
    }

    /** `_parse_one`. */
    method ParseOne() returns (r: Result)
      modifies this`buffer, this`incoming, this`connected
      ensures (r, State()) == ReadOne(old(State()))
    {
      hide C.TryParse;
      while true
        invariant ReadOne(State()) == ReadOne(old(State()))
        decreases |incoming|
      {
        var attempt := C.TryParse(buffer);
        match attempt {
          case Done(v, consumed) =>
            buffer := buffer[consumed..];
            return Ok(v);
          case Raised(fault) =>
            return Exn(ProtocolError(fault));
          case Incomplete =>
            var raised := ReceiveMore();
            if raised.Some? {
              return Exn(raised.value);
            }
        }
      }
    }

    /** `send_pipeline`; `None` when sending raises ConnectionError. */
    method SendPipeline(commands: seq<seq<string>>, sendFails: bool) returns (results: Option<seq<Result>>)
      modifies this
      ensures results.None? <==> !old(connected) || sendFails
      ensures results.Some? ==> (results.value, State()) == ReadMany(old(State()), |commands|)
      ensures results.Some? ==> sent == old(sent) + CommandsBytes(commands)
    {
      hide ReadOne, Checked, CommandsBytes;
      if !connected {
        return None;
      }
      if sendFails {
        connected, buffer := false, [];
        return None;
      }
      var packed := EncodeBatch(commands);
      sent := sent + packed;
      ghost var start := State();
      ghost var whole := ReadMany(start, |commands|);
      var collected: seq<Result> := [];
      assert collected + whole.0 == whole.0;
      for i := 0 to |commands|
        invariant sent == old(sent) + CommandsBytes(commands)
        invariant collected + ReadMany(State(), |commands| - i).0 == whole.0
        invariant ReadMany(State(), |commands| - i).1 == whole.1
      {
        ghost var others := ReadMany(ReadOne(State()).1, |commands| - i - 1).0;
        ghost var head := Checked(ReadOne(State()).0);
        assert collected + ([head] + others) == (collected + [head]) + others;
        var reply := ParseOne();
        collected := collected + [Checked(reply)];
      }
      assert collected + [] == collected;
      results := Some(collected);
    }
  }

  function CommandsBytes(commands: seq<seq<string>>): seq<Byte> {
    if commands == [] then [] else CommandBytes(commands[0]) + CommandsBytes(commands[1..])
  }

  lemma {:induction false} CommandsBytesSnoc(commands: seq<seq<string>>, command: seq<string>)
    ensures CommandsBytes(commands + [command]) == CommandsBytes(commands) + CommandBytes(command)
  {
    hide CommandBytes;
    if commands != [] {
      CommandsBytesSnoc(commands[1..], command);
      assert (commands + [command])[1..] == commands[1..] + [command];
    } else {
      assert [command][1..] == [];
    }
  }

  // ---------------------------------------------------------------- alignment

  /** The bytes still to come before the first close, error or timeout. */
  function Arriving(incoming: seq<Recv>): seq<Byte> {
    if incoming == [] || !incoming[0].Data? || incoming[0].bytes == [] then []
    else incoming[0].bytes + Arriving(incoming[1..])
  }

  function Available(link: Link): seq<Byte> {
    link.buffer + Arriving(link.incoming)
  }

  /** `f` is one complete reply frame for `v`. */
  predicate IsFrame(f: seq<Byte>, v: Value) {
    C.TryParse(f) == Done(v, |f|)
  }

  /** Every reply the server serializes is one frame, simple strings and errors if free of CRLF. */
  lemma ServerRepliesAreFrames(items: seq<Value>, s: string, n: int)
    requires Serializer.Flat(items)
    ensures IsFrame(Serializer.EncodeArray(items), Items(items))
    ensures IsFrame(Serializer.BulkString(s), Str(s))
    ensures IsFrame(Serializer.IntegerReply(n), Integer(n))
    ensures IsFrame(Serializer.NULL_REPLY, Null)
    ensures FindCrlf(Encode(s), 0).None? <==> IsFrame(Serializer.SimpleString(s), Str(s))
    ensures FindCrlf(Encode(s), 0).None? <==> IsFrame(Serializer.ErrorReply(s), Str("ERR_" + s))
  {
    hide C.ElementAt, Serializer.EncodeArray, FindCrlf, Encode;
    Serializer.ArrayReadsBack(items, []);
    Serializer.BulkReadsBack(s, []);
    Serializer.IntegerReadsBack(n, []);
    Serializer.NullReadsBack([]);
    Serializer.SimpleReadsBackIff(s, []);
    Serializer.ErrorReadsBackIff(s, []);
    assert forall f: seq<Byte> :: f + [] == f;
  }

  lemma FrameAtFront(f: seq<Byte>, v: Value, more: seq<Byte>)
    requires IsFrame(f, v)
    ensures C.TryParse(f + more) == Done(v, |f|)
  {
    hide C.ElementAt;
    C.Stable(f, 0, more);
  }

  lemma PartOfFrame(f: seq<Byte>, v: Value, part: seq<Byte>)
    requires IsFrame(f, v) && part < f
    ensures C.TryParse(part).Incomplete?
  {
    hide C.ElementAt;
    if !C.TryParse(part).Incomplete? {
      assert part + f[|part|..] == f;
      C.Stable(part, 0, f[|part|..]);
    }
  }

  /** A frame that is on its way is read whole, however it is cut into pieces, and nothing more. */
  lemma {:induction false} ReadOneFrame(link: Link, f: seq<Byte>, v: Value, rest: seq<Byte>)
    requires link.connected && IsFrame(f, v) && Available(link) == f + rest
    ensures ReadOne(link).0 == Ok(v)
    ensures ReadOne(link).1.connected && Available(ReadOne(link).1) == rest
    decreases |link.incoming|
  {
    hide C.TryParse;
    var buffer := link.buffer;
    if |buffer| >= |f| {
      assert buffer[..|f|] == Available(link)[..|f|] == f;
      assert buffer == f + buffer[|f|..];
      FrameAtFront(f, v, buffer[|f|..]);
      assert Available(link)[|f|..] == buffer[|f|..] + Arriving(link.incoming);
    } else {
      assert buffer == Available(link)[..|buffer|] == f[..|buffer|];
      PartOfFrame(f, v, buffer);
      assert Arriving(link.incoming) != [];
      var next := link.(buffer := buffer + link.incoming[0].bytes, incoming := link.incoming[1..]);
      assert Available(next) == Available(link);
      ReadOneFrame(next, f, v, rest);
    }
  }

  function ConcatFrames(frames: seq<seq<Byte>>): seq<Byte> {
    if frames == [] then [] else frames[0] + ConcatFrames(frames[1..])
  }

  /**
   * When the replies on their way are exactly one frame per command, result `i` is reply `i`
   * (an exception only for a decoded `ERR_` text), and exactly the frames' bytes are used up.
   */
  lemma {:induction false} RepliesAligned(link: Link, frames: seq<seq<Byte>>, values: seq<Value>, rest: seq<Byte>)
    requires |frames| == |values| && forall i :: 0 <= i < |frames| ==> IsFrame(frames[i], values[i])
    requires link.connected && Available(link) == ConcatFrames(frames) + rest
    ensures var (results, last) := ReadMany(link, |frames|);
            && (forall i :: 0 <= i < |frames| ==> results[i] == Checked(Ok(values[i])))
            && last.connected && Available(last) == rest
    decreases |frames|
  {
    hide ReadOne, Available, IsFrame, Checked;
    if frames == [] {
      assert [] + rest == rest;
    } else {
      assert ConcatFrames(frames) + rest == frames[0] + (ConcatFrames(frames[1..]) + rest);
      ReadOneFrame(link, frames[0], values[0], ConcatFrames(frames[1..]) + rest);
      RepliesAligned(ReadOne(link).1, frames[1..], values[1..], rest);
    }
  }

  /** What the caller of `_read_response` gets for a reply, by its decoded value. */
  lemma CheckedTells(v: Value)
    ensures v.Str? && "ERR_" <= v.text ==> Checked(Ok(v)) == Exn(ServerError(v.text[4..]))
    ensures !(v.Str? && "ERR_" <= v.text) ==> Checked(Ok(v)) == Ok(v)
  {
  }

  /** `f` is the server's error reply with text `s`, in one piece. */
  predicate IsErrorFrame(f: seq<Byte>, s: string) {
    f == Serializer.ErrorReply(s) && FindCrlf(Encode(s), 0).None?
  }

  lemma ErrorFrame(f: seq<Byte>, v: Value, s: string)
    requires IsFrame(f, v) && IsErrorFrame(f, s)
    ensures v == Str("ERR_" + s) && v.text[4..] == s
  {
    hide C.ElementAt, FindCrlf, Encode, Serializer.ErrorReply;
    Serializer.ErrorReadsBackIff(s, []);
    assert f + [] == f;
  }

  /**
   * Result `i`, by reply `i`: the server's error with its text for an error reply and for every other string
   * that decodes to an `ERR_` text, and the value itself for anything else.
   */
  lemma RepliesTold(link: Link, frames: seq<seq<Byte>>, values: seq<Value>, rest: seq<Byte>)
    requires |frames| == |values| && forall i :: 0 <= i < |frames| ==> IsFrame(frames[i], values[i])
    requires link.connected && Available(link) == ConcatFrames(frames) + rest
    ensures var results := ReadMany(link, |frames|).0;
            && (forall i, s :: 0 <= i < |frames| && IsErrorFrame(frames[i], s) ==> results[i] == Exn(ServerError(s)))
            && (forall i :: 0 <= i < |frames| && values[i].Str? && "ERR_" <= values[i].text ==>
                  results[i] == Exn(ServerError(values[i].text[4..])))
            && (forall i :: 0 <= i < |frames| && !(values[i].Str? && "ERR_" <= values[i].text) ==>
                  results[i] == Ok(values[i]))
  {
    hide ReadMany, Available, IsFrame, Checked, ConcatFrames, IsErrorFrame;
    RepliesAligned(link, frames, values, rest);
    forall i | 0 <= i < |frames|
      ensures values[i].Str? && "ERR_" <= values[i].text ==>
                Checked(Ok(values[i])) == Exn(ServerError(values[i].text[4..]))
      ensures !(values[i].Str? && "ERR_" <= values[i].text) ==> Checked(Ok(values[i])) == Ok(values[i])
    {
      CheckedTells(values[i]);
    }
    forall i, s | 0 <= i < |frames| && IsErrorFrame(frames[i], s)
      ensures Checked(Ok(values[i])) == Exn(ServerError(s))
    {
      ErrorFrame(frames[i], values[i], s);
      assert values[i].text[..4] == "ERR_";
      CheckedTells(values[i]);
    }
  }

  // ---------------------------------------------------------------- replies that do not come

  /** What comes behind the bytes: a timeout, an error, a close, or nothing. */
  function AfterData(incoming: seq<Recv>): seq<Recv> {
    if incoming == [] || !incoming[0].Data? || incoming[0].bytes == [] then incoming else AfterData(incoming[1..])
  }

  /**
   * While only part of a frame has come: if nothing more comes in time the read ends with Timeout and all
   * bytes stay in the buffer for the next read; if the connection is closed or fails it ends with
   * ConnectionError and they are gone.
   */
  lemma {:induction false} PartialReply(link: Link, f: seq<Byte>, v: Value)
    requires link.connected && IsFrame(f, v) && Available(link) < f
    ensures var events := AfterData(link.incoming);
            if events == [] then ReadOne(link) == (Exn(Timeout), Link(Available(link), [], true))
            else if events[0].TimedOut? then ReadOne(link) == (Exn(Timeout), Link(Available(link), events[1..], true))
            else ReadOne(link) == (Exn(ConnectionError), Link([], events[1..], false))
    decreases |link.incoming|
  {
    hide C.TryParse;
    assert link.buffer == Available(link)[..|link.buffer|] == f[..|link.buffer|];
    PartOfFrame(f, v, link.buffer);
    if link.incoming != [] && link.incoming[0].Data? && link.incoming[0].bytes != [] {
      var next := link.(buffer := link.buffer + link.incoming[0].bytes, incoming := link.incoming[1..]);
      assert Available(next) == Available(link);
      PartialReply(next, f, v);
    } else {
      assert link.buffer + [] == link.buffer;
    }
  }

  /** On a closed connection every further result of a batch is ConnectionError. */
  lemma {:induction false} ClosedFails(link: Link, k: nat)
    requires !link.connected && link.buffer == []
    ensures ReadMany(link, k).1 == link
    ensures forall i :: 0 <= i < k ==> ReadMany(link, k).0[i] == Exn(ConnectionError)
    decreases k
  {
    if k > 0 {
      ClosedFails(link, k - 1);
    }
  }

  /** Bytes that are no frame stay in the buffer, and every further read of a batch raises the same fault. */
  lemma {:induction false} FaultRepeats(link: Link, k: nat)
    requires C.TryParse(link.buffer).Raised?
    ensures ReadMany(link, k).1 == link
    ensures forall i :: 0 <= i < k ==>
              ReadMany(link, k).0[i] == Exn(ProtocolError(C.TryParse(link.buffer).fault))
    decreases k
  {
    hide C.TryParse;
    if k > 0 {
      FaultRepeats(link, k - 1);
    }
  }

  // ---------------------------------------------------------------- the pipeline

  type Parser = Value -> Result

  const BLOCKED: set<string> := {
    "DUMP", "JOURNAL", "MONITOR", "SUBSCRIBE", "UNSUBSCRIBE",
    "IINFO", "IRESOURCES", "IPING", "ILOCKED", "DRIVER"
  }

  predicate Blocked(args: seq<string>) {
    args != [] && Upper(args[0]) in BLOCKED
  }

  /** The parsing loop of `execute` over `zip(raw, parsers)`. */
  function ApplyParsers(raw: seq<Result>, parsers: seq<Parser>): (r: seq<Result>)
    requires |raw| == |parsers|
    ensures |r| == |raw|
    ensures forall i :: 0 <= i < |r| ==> r[i] == if raw[i].Exn? then raw[i] else parsers[i](raw[i].value)
  {
    if raw == [] then []
    else
      [if raw[0].Exn? then raw[0] else parsers[0](raw[0].value)] + ApplyParsers(raw[1..], parsers[1..])
  }

  method ParseReplies(raw: seq<Result>, parsers: seq<Parser>) returns (results: seq<Result>)
    requires |raw| == |parsers|
    ensures results == ApplyParsers(raw, parsers)
  {
    results := [];
    for i := 0 to |raw|
      invariant results == ApplyParsers(raw, parsers)[..i]
    {
      if raw[i].Exn? {
        results := results + [raw[i]];
      } else {
        results := results + [parsers[i](raw[i].value)];
      }
    }
  }

  class Pipeline {
    const conn: Connection
    var commands: seq<seq<string>>
    var parsers: seq<Parser>

    constructor (conn: Connection)
      ensures Valid() && commands == [] && this.conn == conn
    {
      this.conn, commands, parsers := conn, [], [];
    }

    predicate Valid()
      reads this
    {
      |commands| == |parsers| && forall i :: 0 <= i < |commands| ==> !Blocked(commands[i])
    }

    /** `_queue`: a blocked command is refused and changes nothing. */
    method Queue(parser: Parser, args: seq<string>) returns (ok: bool)
      requires Valid()
      modifies this
      ensures Valid()
      ensures ok == !Blocked(args)
      ensures ok ==> commands == old(commands) + [args] && parsers == old(parsers) + [parser]
      ensures !ok ==> commands == old(commands) && parsers == old(parsers)
    {
      if Blocked(args) {
        return false;
      }
      commands := commands + [args];
      parsers := parsers + [parser];
      ok := true;
    }

    /** `execute`; `None` when sending raises, and then the queues are kept. */
    method Execute(sendFails: bool) returns (results: Option<seq<Result>>)
      requires Valid()
      modifies this, conn
      ensures Valid()
      ensures results.None? <==> old(commands) != [] && (!old(conn.connected) || sendFails)
      ensures results.None? ==> commands == old(commands) && parsers == old(parsers)
      ensures results.Some? ==> commands == []
      ensures results.Some? ==>
        results.value == ApplyParsers(ReadMany(old(conn.State()), |old(commands)|).0, old(parsers))
        && conn.State() == ReadMany(old(conn.State()), |old(commands)|).1
        && conn.sent == old(conn.sent) + CommandsBytes(old(commands))
    {
      if commands == [] {
        assert conn.sent + CommandsBytes([]) == conn.sent;
        return Some([]);
      }
      var raw := conn.SendPipeline(commands, sendFails);
      if raw.None? {
        return None;
      }
      var collected := ParseReplies(raw.value, parsers);
      commands, parsers := [], [];
      results := Some(collected);
    }

    /** `reset`. */
    method Reset()
      modifies this
      ensures Valid() && commands == []
    {
      commands, parsers := [], [];
    }
  }

  /**
   * A batch answered by one frame per command: result `i` is parser `i` applied to reply `i`, or
   * the server's error when reply `i` decodes to an `ERR_` text.
   */
  lemma PipelineAligned(link: Link, parsers: seq<Parser>, frames: seq<seq<Byte>>, values: seq<Value>, rest: seq<Byte>)
    requires |parsers| == |frames| == |values| && forall i :: 0 <= i < |frames| ==> IsFrame(frames[i], values[i])
    requires link.connected && Available(link) == ConcatFrames(frames) + rest
    ensures var results := ApplyParsers(ReadMany(link, |parsers|).0, parsers);
            forall i :: 0 <= i < |parsers| ==>
              results[i] == if values[i].Str? && IsErrorText(values[i].text)
                            then Exn(ServerError(values[i].text[4..]))
                            else parsers[i](values[i])
    ensures Available(ReadMany(link, |parsers|).1) == rest
  {
    hide ReadMany, Available, IsFrame, ApplyParsers;
    RepliesAligned(link, frames, values, rest);
  }

  /** Parser `i` gets reply `i` unless it is an error of the server, which comes out as it is. */
  lemma PipelineTold(link: Link, parsers: seq<Parser>, frames: seq<seq<Byte>>, values: seq<Value>, rest: seq<Byte>)
    requires |parsers| == |frames| == |values| && forall i :: 0 <= i < |frames| ==> IsFrame(frames[i], values[i])
    requires link.connected && Available(link) == ConcatFrames(frames) + rest
    ensures var results := ApplyParsers(ReadMany(link, |parsers|).0, parsers);
            && (forall i, s :: 0 <= i < |frames| && IsErrorFrame(frames[i], s) ==> results[i] == Exn(ServerError(s)))
            && (forall i :: 0 <= i < |frames| && values[i].Str? && "ERR_" <= values[i].text ==>
                  results[i] == Exn(ServerError(values[i].text[4..])))
            && (forall i :: 0 <= i < |frames| && !(values[i].Str? && "ERR_" <= values[i].text) ==>
                  results[i] == parsers[i](values[i]))
  {
    hide ReadMany, Available, IsFrame, ApplyParsers, ConcatFrames, IsErrorFrame;
    RepliesTold(link, frames, values, rest);
  }

  /** The commands a pipeline refuses, in any case. */
  lemma BlockedIff(args: seq<string>)
    ensures Blocked(args) <==>
              args != []
              && exists word ::
                   word in {"DUMP", "JOURNAL", "MONITOR", "SUBSCRIBE", "UNSUBSCRIBE", "IINFO", "IRESOURCES", "IPING",
                            "ILOCKED", "DRIVER"}
                   && Spells(args[0], word)
  {
    if args != [] {
      forall word | word in BLOCKED ensures Upper(args[0]) == word <==> Spells(args[0], word) {
        UpperSpells(args[0], word);
      }
    }
  }
}
