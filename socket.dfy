/** The socket sink: one JSON record per sample, written to a connected
    Unix stream socket. The sink is alive while it holds a socket and dead
    once the socket is gone; a dead sink forwards nothing. */
module SocketSink {
  import opened Common
  import opened Text
  import opened Io
  import opened Stylus

  // ---------------------------------------------------------------------
  // The JSON record

  /** The values the record holds. */
  datatype JsonValue = JBool(b: bool) | JInt(i: int)

  predicate ValueChar(c: char) { c == '-' || IsDigit(c) || 'a' <= c <= 'z' }
  predicate KeyChar(c: char) { c == '_' || 'a' <= c <= 'z' }
  predicate PlainKey(k: string) { forall i :: 0 <= i < |k| ==> KeyChar(k[i]) }
  predicate PlainKeys(pairs: seq<(string, JsonValue)>) { forall i :: 0 <= i < |pairs| ==> PlainKey(pairs[i].0) }

  /** Every character `json.dumps` writes for such a record. */
  predicate RecordChar(c: char)
  {
    c == '{' || c == '}' || c == '"' || c == ':' || c == ',' || c == ' ' || KeyChar(c) || ValueChar(c)
  }

  /** `json.dumps` of one value: `true`, `false` or the decimal integer. */
  function RenderValue(v: JsonValue): (s: string)
    ensures |s| > 0 && forall i :: 0 <= i < |s| ==> ValueChar(s[i])
  {
    match v
    case JBool(b) => if b then "true" else "false"
    case JInt(i) =>
      var s := IntToString(i);
      assert forall k :: 0 <= k < |s| ==> ValueChar(s[k]) by {
        if i < 0 { assert s == "-" + NatToString(-i); } else { assert AllDigits(s); }
      }
      s
  }

  function ParseValue(s: string): Option<JsonValue>
  {
    if s == "true" then Some(JBool(true))
    else if s == "false" then Some(JBool(false))
    else match ParseInt(s)
      case Some(i) => Some(JInt(i))
      case None => None
  }

  lemma ParseRenderValue(v: JsonValue)
    ensures ParseValue(RenderValue(v)) == Some(v)
  {
    if v.JInt? {
      var s := RenderValue(v);
      assert s[0] != 't' && s[0] != 'f';
      ParseIntToString(v.i);
    }
  }

  /** One `"key": value` member with `json.dumps`'s default separators. */
  function Member(key: string, v: JsonValue): string
  {
    "\"" + key + "\": " + RenderValue(v)
  }

  /** The members joined with `", "`. */
  function Members(pairs: seq<(string, JsonValue)>): string
  {
    if |pairs| == 0 then ""
    else if |pairs| == 1 then Member(pairs[0].0, pairs[0].1)
    else Member(pairs[0].0, pairs[0].1) + ", " + Members(pairs[1..])
  }

  /** `json.dumps` of a flat object, keys in insertion order. */
  function RenderObject(pairs: seq<(string, JsonValue)>): string
  {
    "{" + Members(pairs) + "}"
  }

  function ParseMember(m: string): Option<(string, JsonValue)>
  {
    var parts := Split(m, ':');
    if |parts| != 2 then None
    else
      var key := parts[0];
      var value := parts[1];
      if |key| < 2 || key[0] != '"' || key[|key| - 1] != '"' || |value| < 1 || value[0] != ' ' then None
      else match ParseValue(value[1..])
        case Some(v) => Some((key[1..|key| - 1], v))
        case None => None
  }

  /** The members after the first, each of which follows a `", "`. */
  function ParseTail(parts: seq<string>): Option<seq<(string, JsonValue)>>
  {
    if |parts| == 0 then Some([])
    else if |parts[0]| == 0 || parts[0][0] != ' ' then None
    else match (ParseMember(parts[0][1..]), ParseTail(parts[1..]))
      case (Some(m), Some(rest)) => Some([m] + rest)
      case _ => None
  }

  function ParseMembers(body: string): Option<seq<(string, JsonValue)>>
  {
    if body == "" then Some([])
    else
      var parts := Split(body, ',');
      match (ParseMember(parts[0]), ParseTail(parts[1..]))
      case (Some(m), Some(rest)) => Some([m] + rest)
      case _ => None
  }

  /** Reads back a flat object whose keys are plain and whose values are
      booleans and integers. */
  function ParseObject(s: string): Option<seq<(string, JsonValue)>>
  {
    if |s| < 2 || s[0] != '{' || s[|s| - 1] != '}' then None else ParseMembers(s[1..|s| - 1])
  }

  lemma {:induction false} LacksChar(s: string, c: char)
    requires forall i :: 0 <= i < |s| ==> s[i] != c
    ensures c !in s
  {
  }

  lemma MemberChars(key: string, v: JsonValue)
    requires PlainKey(key)
    ensures forall i :: 0 <= i < |Member(key, v)| ==> RecordChar(Member(key, v)[i]) && Member(key, v)[i] != ','
  {
    var r := RenderValue(v);
    var m := Member(key, v);
    forall i | 0 <= i < |m| ensures RecordChar(m[i]) && m[i] != ',' {
      if i == 0 { } else if i < 1 + |key| { assert m[i] == key[i - 1]; }
      else if i < 4 + |key| { } else { assert m[i] == r[i - 4 - |key|]; }
    }
  }

  lemma ParseMemberOf(key: string, v: JsonValue)
    requires PlainKey(key)
    ensures ParseMember(Member(key, v)) == Some((key, v))
  {
    var quoted := "\"" + key + "\"";
    var rest := " " + RenderValue(v);
    assert Member(key, v) == quoted + [':'] + rest;
    LacksChar(quoted, ':');
    assert forall i :: 0 <= i < |rest| ==> rest[i] != ':' by {
      forall i | 0 <= i < |rest| ensures rest[i] != ':' {
        if i > 0 { assert rest[i] == RenderValue(v)[i - 1]; }
      }
    }
    LacksChar(rest, ':');
    SplitAround(quoted, ':', rest);
    SplitWithoutSep(rest, ':');
    assert quoted[1..|quoted| - 1] == key;
    assert rest[1..] == RenderValue(v);
    ParseRenderValue(v);
  }

  /** The parts after the first of the split: each member behind its space. */
  function SpacedMembers(pairs: seq<(string, JsonValue)>): (parts: seq<string>)
    ensures |parts| == |pairs|
  {
    seq(|pairs|, i requires 0 <= i < |pairs| => " " + Member(pairs[i].0, pairs[i].1))
  }

  lemma SpacedMembersCons(pairs: seq<(string, JsonValue)>)
    requires |pairs| >= 1
    ensures SpacedMembers(pairs) == [" " + Member(pairs[0].0, pairs[0].1)] + SpacedMembers(pairs[1..])
  {
    var rhs := [" " + Member(pairs[0].0, pairs[0].1)] + SpacedMembers(pairs[1..]);
    forall i | 0 <= i < |pairs|
      ensures SpacedMembers(pairs)[i] == rhs[i]
    {
      if i > 0 {
        assert rhs[i] == SpacedMembers(pairs[1..])[i - 1];
        assert pairs[1..][i - 1] == pairs[i];
      }
    }
  }

  /** Splitting the members on `','` cuts exactly between them. */
  lemma {:induction false} SplitMembers(pairs: seq<(string, JsonValue)>)
    requires |pairs| >= 1 && PlainKeys(pairs)
    ensures Split(Members(pairs), ',') == [Member(pairs[0].0, pairs[0].1)] + SpacedMembers(pairs[1..])
    decreases |pairs|
  {
    var first := Member(pairs[0].0, pairs[0].1);
    MemberChars(pairs[0].0, pairs[0].1);
    LacksChar(first, ',');
    if |pairs| == 1 {
      SplitWithoutSep(first, ',');
    } else {
      var rest := pairs[1..];
      var tail := Members(rest);
      assert Members(pairs) == first + [','] + (" " + tail);
      SplitAround(first, ',', " " + tail);
      SplitMembers(rest);
      assert (" " + tail)[1..] == tail;
      var parts := Split(tail, ',');
      assert Split(" " + tail, ',') == [" " + parts[0]] + parts[1..];
      SpacedMembersCons(rest);
    }
  }

  lemma {:induction false} ParseTailSpaced(pairs: seq<(string, JsonValue)>)
    requires PlainKeys(pairs)
    ensures ParseTail(SpacedMembers(pairs)) == Some(pairs)
    decreases |pairs|
  {
    if |pairs| > 0 {
      var parts := SpacedMembers(pairs);
      assert parts[0][1..] == Member(pairs[0].0, pairs[0].1);
      ParseMemberOf(pairs[0].0, pairs[0].1);
      assert parts[1..] == SpacedMembers(pairs[1..]);
      ParseTailSpaced(pairs[1..]);
      assert [pairs[0]] + pairs[1..] == pairs;
    }
  }

  /** The object serialiser and its reader are inverse on flat records with
      plain keys. */
  lemma ParseRenderObject(pairs: seq<(string, JsonValue)>)
    requires PlainKeys(pairs)
    ensures ParseObject(RenderObject(pairs)) == Some(pairs)
  {
    var s := RenderObject(pairs);
    assert s[1..|s| - 1] == Members(pairs);
    if |pairs| > 0 {
      MemberChars(pairs[0].0, pairs[0].1);
      assert Members(pairs) != "";
      SplitMembers(pairs);
      ParseMemberOf(pairs[0].0, pairs[0].1);
      ParseTailSpaced(pairs[1..]);
      assert [pairs[0]] + pairs[1..] == pairs;
    }
  }

  lemma {:induction false} MembersChars(pairs: seq<(string, JsonValue)>)
    requires PlainKeys(pairs)
    ensures forall i :: 0 <= i < |Members(pairs)| ==> RecordChar(Members(pairs)[i])
    decreases |pairs|
  {
    if |pairs| > 0 {
      MemberChars(pairs[0].0, pairs[0].1);
      if |pairs| > 1 {
        MembersChars(pairs[1..]);
        var first := Member(pairs[0].0, pairs[0].1);
        var tail := Members(pairs[1..]);
        forall i | 0 <= i < |Members(pairs)| ensures RecordChar(Members(pairs)[i]) {
          if i >= |first| + 2 { assert Members(pairs)[i] == tail[i - |first| - 2]; }
        }
      }
    }
  }

  /** The sample's fields in declaration order, under their Python names. */
  const FIELD_NAMES: seq<string> :=
    ["tip", "barrel", "eraser", "in_range", "invert", "x", "y", "pressure", "tilt_x", "tilt_y"]

  /** `sample.__dict__`. */
  function Fields(s: StylusSample): (pairs: seq<(string, JsonValue)>)
    ensures |pairs| == |FIELD_NAMES| && forall i :: 0 <= i < |pairs| ==> pairs[i].0 == FIELD_NAMES[i]
    ensures PlainKeys(pairs)
  {
    [("tip", JBool(s.tip)), ("barrel", JBool(s.barrel)), ("eraser", JBool(s.eraser)),
     ("in_range", JBool(s.inRange)), ("invert", JBool(s.invert)),
     ("x", JInt(s.x)), ("y", JInt(s.y)), ("pressure", JInt(s.pressure)),
     ("tilt_x", JInt(s.tiltX)), ("tilt_y", JInt(s.tiltY))]
  }

  /** The sample a record of exactly those ten fields describes. */
  function SampleOfFields(pairs: seq<(string, JsonValue)>): Option<StylusSample>
  {
    if |pairs| == |FIELD_NAMES|
       && (forall i :: 0 <= i < |pairs| ==> pairs[i].0 == FIELD_NAMES[i])
       && pairs[0].1.JBool? && pairs[1].1.JBool? && pairs[2].1.JBool? && pairs[3].1.JBool? && pairs[4].1.JBool?
       && pairs[5].1.JInt? && pairs[6].1.JInt? && pairs[7].1.JInt? && pairs[8].1.JInt? && pairs[9].1.JInt?
    then
      Some(StylusSample(pairs[0].1.b, pairs[1].1.b, pairs[2].1.b, pairs[3].1.b, pairs[4].1.b,
                        pairs[5].1.i, pairs[6].1.i, pairs[7].1.i, pairs[8].1.i, pairs[9].1.i))
    else None
  }

  /** The bytes `forward` sends: the record, then one newline, and no other
      newline anywhere. */
  function Payload(s: StylusSample): (p: string)
    ensures |p| > 0 && p[|p| - 1] == '\n'
    ensures forall i :: 0 <= i < |p| - 1 ==> p[i] != '\n'
  {
    MembersChars(Fields(s));
    RenderObject(Fields(s)) + "\n"
  }

  /** Reads a received line back into a sample. */
  function SampleOfPayload(line: string): Option<StylusSample>
  {
    if |line| == 0 || line[|line| - 1] != '\n' then None
    else match ParseObject(line[..|line| - 1])
      case Some(pairs) => SampleOfFields(pairs)
      case None => None
  }

  /** The ten fields name the sample they were taken from. */
  lemma FieldsRoundTrip(s: StylusSample)
    ensures SampleOfFields(Fields(s)) == Some(s)
  {
    var pairs := Fields(s);
    assert pairs[0].1 == JBool(s.tip) && pairs[9].1 == JInt(s.tiltY);
  }

  /** The receiver recovers every field of the sample from the line. */
  lemma PayloadRoundTrip(s: StylusSample)
    ensures SampleOfPayload(Payload(s)) == Some(s)
  {
    var p := Payload(s);
    assert p[..|p| - 1] == RenderObject(Fields(s));
    ParseRenderObject(Fields(s));
    FieldsRoundTrip(s);
  }

  // ---------------------------------------------------------------------
  // The sink

  /** What `_connect` issues: the socket, the connect, and the close of the
      socket when the connect raised an `OSError`. */
  function ConnectOps(reply: nat -> Reply, base: nat, path: string): seq<Op>
  {
    if Failed(reply(base)) then [SocketCreate]
    else if !Failed(reply(base + 1)) || !IsOSError(reply(base + 1).exc) then [SocketCreate, SocketConnect(base, path)]
    else [SocketCreate, SocketConnect(base, path), SocketClose(base)]
  }

  /** What `_connect` raises: a failed `socket()` and a non-`OSError` from the
      connect propagate; an `OSError` from the connect becomes `RuntimeError`
      unless closing the socket raised. */
  function ConnectExc(reply: nat -> Reply, base: nat): Option<Exc>
  {
    if Failed(reply(base)) then Some(reply(base).exc)
    else if !Failed(reply(base + 1)) then None
    else if !IsOSError(reply(base + 1).exc) then Some(reply(base + 1).exc)
    else if Failed(reply(base + 2)) then Some(reply(base + 2).exc)
    else Some(RuntimeError)
  }

  /** `_connect` either connects, or raises; a socket whose connect failed
      with an `OSError` is closed before the exception leaves. */
  lemma ConnectEitherConnectsOrCloses(reply: nat -> Reply, base: nat, path: string)
    ensures ConnectExc(reply, base).None? <==>
      (ConnectOps(reply, base, path) == [SocketCreate, SocketConnect(base, path)] && !Failed(reply(base)) && !Failed(reply(base + 1)))
    ensures !Failed(reply(base)) && Failed(reply(base + 1)) && IsOSError(reply(base + 1).exc) ==>
      ConnectOps(reply, base, path)[2] == SocketClose(base)
      && ConnectExc(reply, base) == Some(if Failed(reply(base + 2)) then reply(base + 2).exc else RuntimeError)
  {
  }

  /** The calls `forward` makes on a sink holding `sock`, given the replies
      from `base` on: the `sendall`, then the close of the socket when the
      send raised an `OSError`; none on a dead sink. */
  function ForwardOps(sock: Option<nat>, s: StylusSample, reply: nat -> Reply, base: nat): seq<Op>
  {
    if sock.None? then []
    else if Failed(reply(base)) && IsOSError(reply(base).exc) then [SendAll(sock.value, Payload(s)), SocketClose(sock.value)]
    else [SendAll(sock.value, Payload(s))]
  }

  /** What `forward` raises: an exception of the send that is no `OSError`,
      or whatever the close after an `OSError` raised. */
  function ForwardExc(sock: Option<nat>, reply: nat -> Reply, base: nat): Option<Exc>
  {
    if sock.None? || !Failed(reply(base)) then None
    else if !IsOSError(reply(base).exc) then Some(reply(base).exc)
    else if Failed(reply(base + 1)) then Some(reply(base + 1).exc)
    else None
  }

  /** The socket after `forward`: dropped once a send that raised an
      `OSError` was followed by a close that returned. */
  function ForwardSock(sock: Option<nat>, reply: nat -> Reply, base: nat): Option<nat>
  {
    if sock.Some? && Failed(reply(base)) && IsOSError(reply(base).exc) && !Failed(reply(base + 1)) then None else sock
  }

  /** The calls `close` makes on a sink holding `sock`. */
  function CloseOps(sock: Option<nat>): seq<Op>
  {
    if sock.None? then [] else [SocketClose(sock.value)]
  }

  /** What `close` raises: what closing the socket raised. */
  function CloseExc(sock: Option<nat>, reply: nat -> Reply, base: nat): Option<Exc>
  {
    if sock.Some? && Failed(reply(base)) then Some(reply(base).exc) else None
  }

  class SocketForwarder {
    const w: World
    const path: string
    /** The connected socket (its number is the position of its creation in
        the trace), None once the sink is dead. */
    var sock: Option<nat>
    /** The samples `forward` was called with, in order. */
    ghost var handed: seq<StylusSample>
    /** How many times `close` was called. */
    ghost var closes: nat

    constructor (w: World, path: string)
      ensures this.w == w && this.path == path && sock.None? && handed == [] && closes == 0
    {
      this.w := w;
      this.path := path;
      sock := None;
      handed := [];
      closes := 0;
    }

    /** `_connect`. */
    method Connect() returns (exc: Option<Exc>)
      modifies this`sock, w
      ensures var base := |old(w.trace)|;
        && w.trace == old(w.trace) + ConnectOps(w.reply, base, path)
        && exc == ConnectExc(w.reply, base)
        && sock == (if exc.None? then Some(base) else old(sock))
    {
      var id := |w.trace|;
      var created := w.Call(SocketCreate);
      if Failed(created) {
        return Some(created.exc);
      }
      var connected := w.Call(SocketConnect(id, path));
      if Failed(connected) {
        if !IsOSError(connected.exc) {
          return Some(connected.exc);
        }
        var closed := w.Call(SocketClose(id));
        if Failed(closed) {
          return Some(closed.exc);
        }
        return Some(RuntimeError);
      }
      sock := Some(id);
      exc := None;
    }

    /** `forward`: a dead sink does nothing. A send that raises an `OSError`
      closes the socket and kills the sink without raising, unless the close
      itself raises, which leaves the sink holding the socket. */
    method Forward(s: StylusSample) returns (exc: Option<Exc>)
      modifies this`sock, this`handed, w
      ensures old(w.trace) <= w.trace && NoReadsIn(w.trace, |old(w.trace)|)
      ensures handed == old(handed) + [s]
      ensures old(sock).None? ==> sock.None? && w.trace == old(w.trace) && exc.None?
      ensures old(sock).Some? ==>
        var id := old(sock).value;
        var base := |old(w.trace)|;
        var sent := w.reply(base);
        && |w.trace| > base && w.trace[..base + 1] == old(w.trace) + [SendAll(id, Payload(s))]
        && (!Failed(sent) ==> w.trace == old(w.trace) + [SendAll(id, Payload(s))] && sock == old(sock) && exc.None?)
        && (Failed(sent) && !IsOSError(sent.exc) ==>
              w.trace == old(w.trace) + [SendAll(id, Payload(s))] && sock == old(sock) && exc == Some(sent.exc))
        && (Failed(sent) && IsOSError(sent.exc) ==>
              && w.trace == old(w.trace) + [SendAll(id, Payload(s)), SocketClose(id)]
              && (Failed(w.reply(base + 1)) ==> sock == old(sock) && exc == Some(w.reply(base + 1).exc))
              && (!Failed(w.reply(base + 1)) ==> sock.None? && exc.None?))
      ensures w.trace == old(w.trace) + ForwardOps(old(sock), s, w.reply, |old(w.trace)|)
      ensures exc == ForwardExc(old(sock), w.reply, |old(w.trace)|) && sock == ForwardSock(old(sock), w.reply, |old(w.trace)|)
    {
      exc := None;
      handed := handed + [s];
      if sock.None? {
        return;
      }
      var id := sock.value;
      var sent := w.Call(SendAll(id, Payload(s)));
      if Failed(sent) {
        if !IsOSError(sent.exc) {
          return Some(sent.exc);
        }
        var closed := w.Call(SocketClose(id));
        if Failed(closed) {
          return Some(closed.exc);
        }
        sock := None;
      }
    }

    /** `close`: the sink is dead afterwards even when the close raises. */
    method Close() returns (exc: Option<Exc>)
      modifies this`sock, this`closes, w
      ensures old(w.trace) <= w.trace && closes == old(closes) + 1
      ensures sock.None?
      ensures old(sock).None? ==> w.trace == old(w.trace) && exc.None?
      ensures old(sock).Some? ==>
        && w.trace == old(w.trace) + [SocketClose(old(sock).value)]
        && exc == (if Failed(w.reply(|old(w.trace)|)) then Some(w.reply(|old(w.trace)|).exc) else None)
      ensures w.trace == old(w.trace) + CloseOps(old(sock)) && exc == CloseExc(old(sock), w.reply, |old(w.trace)|)
    {
      exc := None;
      closes := closes + 1;
      if sock.Some? {
        var closed := w.Call(SocketClose(sock.value));
        sock := None;
        if Failed(closed) {
          exc := Some(closed.exc);
        }
      }
    }
  }

  /** `SocketForwarder(path)`: a sink that is alive with the socket it
      created and connected, or the exception `_connect` raised. */
  method Create(w: World, path: string) returns (r: Result<SocketForwarder, Exc>)
    modifies w
    ensures old(w.trace) <= w.trace
    ensures var base := |old(w.trace)|;
      && w.trace == old(w.trace) + ConnectOps(w.reply, base, path)
      && (r.Err? <==> ConnectExc(w.reply, base).Some?)
      && (r.Err? ==> Some(r.error) == ConnectExc(w.reply, base))
      && (r.Ok? ==> fresh(r.value) && r.value.w == w && r.value.path == path && r.value.sock == Some(base))
    ensures r.Ok? ==> r.value.handed == [] && r.value.closes == 0
  {
    var fwd := new SocketForwarder(w, path);
    var exc := fwd.Connect();
    if exc.Some? {
      return Err(exc.value);
    }
    r := Ok(fwd);
  }
}
