/** The daemon: the scan loop that finds the tablet and serves it, the
    setup and teardown around one served device, and the pump that reads
    reports and hands every decoded sample to every forwarder.

    Every call the daemon makes lands in the `World`'s trace. Each method
    says where its calls sit in that trace and what they returned:
    `SetupInWorld`, `PumpInWorld` and `TailInWorld` for the parts of a
    session, `SessionInWorld` for a whole `_serve_device`, `RoundInWorld` and
    `RoundRaised` for a pass of the scan loop. The forwarders count what
    they were handed and how often they were closed, and `SinksAt` ties
    those counts to the session.

    The daemon also keeps a ghost log of `Step`s, one entry each time it
    enters one of its helpers (unlock, detach, claim, open a forwarder,
    read, forward, close, release, re-attach, set_alt, scan, sleep). The
    session's ordering properties are lemmas about that log, and the
    records above tie each of its entries to the calls behind it. */
module Daemon {
  import opened Common
  import opened Io
  import opened Stylus
  import UsbIo
  import UInput
  import SocketSink

  /** Concatenation regroups; the logs and traces below grow by appending. */
  lemma Associative<T>(a: seq<T>, b: seq<T>, c: seq<T>)
    ensures a + (b + c) == (a + b) + c
  {
  }

  /** The options the daemon reads (`--device`, `--verbose`, `--no-uinput`,
      `--socket-path`, `--timeout`, `--force-detach`, `--skip-set-alt`). */
  datatype Args = Args(
    device: Option<string>,
    verbose: bool,
    noUInput: bool,
    socketPath: Option<string>,
    timeoutMs: int,
    forceDetach: bool,
    skipSetAlt: bool)

  /** Python truthiness of an optional string. */
  predicate Truthy(s: Option<string>) { s.Some? && s.value != "" }

  /** The tablet's constants, and the name the daemon gives its uinput
      device (`UInputName` for the daemon itself). */
  datatype Constants = Constants(
    vendorId: int,
    productId: int,
    stylusInterface: int,
    stylusEndpoint: int,
    stylusReadSize: int,
    reportLengths: seq<(int, int)>,
    uinputName: seq<Byte>)

  const UINPUT_NAME: string := "XP-Pen Deco Mini7 V2 (uinput)"

  /** UTF-8 of a string of ASCII characters. */
  function AsciiBytes(s: string): (b: seq<Byte>)
    requires forall i :: 0 <= i < |s| ==> s[i] as int < 128
    ensures |b| == |s| && forall i :: 0 <= i < |s| ==> b[i] == s[i] as int
  {
    seq(|s|, i requires 0 <= i < |s| => s[i] as int as Byte)
  }

  lemma UInputNameIsAscii()
    ensures forall i :: 0 <= i < |UINPUT_NAME| ==> UINPUT_NAME[i] as int < 128
  {
  }

  /** The name the uinput device is created with, as bytes. */
  function UInputName(): seq<Byte>
  {
    UInputNameIsAscii();
    AsciiBytes(UINPUT_NAME)
  }

  /** A forwarder in the daemon's list. */
  datatype Sink = ToUInput(u: UInput.UInputForwarder) | ToSocket(s: SocketSink.SocketForwarder)

  function SinkObject(k: Sink): object
  {
    match k
    case ToUInput(u) => u
    case ToSocket(s) => s
  }

  function SinkObjects(sinks: seq<Sink>): set<object>
  {
    set i | 0 <= i < |sinks| :: SinkObject(sinks[i])
  }

  /** Every forwarder works on the daemon's world. */
  predicate Wired(sinks: seq<Sink>, w: World)
  {
    forall i :: 0 <= i < |sinks| ==>
      (sinks[i].ToUInput? ==> sinks[i].u.w == w) && (sinks[i].ToSocket? ==> sinks[i].s.w == w)
  }

  /** No forwarder occurs twice in the list. */
  predicate Distinct(sinks: seq<Sink>)
  {
    forall i, j :: 0 <= i < j < |sinks| ==> SinkObject(sinks[i]) != SinkObject(sinks[j])
  }

  /** Neither the daemon nor the world is one of the forwarders. */
  lemma DaemonIsNoSink(sinks: seq<Sink>, d: TabletDaemon)
    ensures forall i :: 0 <= i < |sinks| ==> SinkObject(sinks[i]) != d && SinkObject(sinks[i]) != d.w && allocated(SinkObject(sinks[i]))
    ensures d !in SinkObjects(sinks) && d.w !in SinkObjects(sinks)
  {
  }

  /** The samples forwarder `k` was handed by calls of its `forward`, in order. */
  ghost function Handed(k: Sink): seq<StylusSample>
    reads SinkObject(k)
  {
    match k
    case ToUInput(u) => u.handed
    case ToSocket(s) => s.handed
  }

  /** How many times the `close` of forwarder `k` was called. */
  ghost function Closes(k: Sink): nat
    reads SinkObject(k)
  {
    match k
    case ToUInput(u) => u.closes
    case ToSocket(s) => s.closes
  }

  /** No forwarder in the list was handed a sample or closed yet. */
  ghost predicate Unused(sinks: seq<Sink>)
    reads SinkObjects(sinks)
  {
    forall i :: 0 <= i < |sinks| ==> Handed(sinks[i]) == [] && Closes(sinks[i]) == 0
  }

  /** Forwarder `i` was handed what the log `pump` delivers to it, and its
      `close` was called once when it is among the first `closed`. */
  ghost predicate SinksAt(sinks: seq<Sink>, pump: seq<Step>, closed: nat)
    reads SinkObjects(sinks)
  {
    forall i :: 0 <= i < |sinks| ==>
      Handed(sinks[i]) == DeliveredTo(pump, i) && Closes(sinks[i]) == (if i < closed then 1 else 0)
  }

  ghost function HandedAll(sinks: seq<Sink>): seq<seq<StylusSample>>
    reads SinkObjects(sinks)
  {
    seq(|sinks|, i requires 0 <= i < |sinks| reads SinkObjects(sinks) => Handed(sinks[i]))
  }

  /** What decides the calls a forwarder makes: the uinput descriptor, or
      the socket of a socket sink. */
  datatype Port = UInputPort(fd: Option<nat>) | SocketPort(sock: Option<nat>)

  ghost function PortOf(k: Sink): Port
    reads SinkObject(k)
  {
    match k
    case ToUInput(u) => UInputPort(u.fd)
    case ToSocket(s) => SocketPort(s.sock)
  }

  ghost function Ports(sinks: seq<Sink>): (ports: seq<Port>)
    reads SinkObjects(sinks)
    ensures |ports| == |sinks|
  {
    seq(|sinks|, i requires 0 <= i < |sinks| reads SinkObjects(sinks) => PortOf(sinks[i]))
  }

  /** The calls `forward` makes on a forwarder in state `k`, given the
      replies from `base` on. */
  ghost function ForwardCalls(k: Port, s: StylusSample, reply: nat -> Reply, base: nat): seq<Op>
  {
    match k
    case UInputPort(fd) => UInput.ForwardOps(fd, s, reply, base)
    case SocketPort(sock) => SocketSink.ForwardOps(sock, s, reply, base)
  }

  /** What `forward` raises on a forwarder in state `k`. */
  ghost function ForwardRaised(k: Port, reply: nat -> Reply, base: nat): Option<Exc>
  {
    match k
    case UInputPort(fd) => UInput.ForwardExc(fd, reply, base)
    case SocketPort(sock) => SocketSink.ForwardExc(sock, reply, base)
  }

  /** The state of a forwarder after `forward`: a uinput forwarder keeps its
      descriptor, a socket sink may drop its socket. */
  function AfterForward(k: Port, reply: nat -> Reply, base: nat): Port
  {
    match k
    case UInputPort(fd) => k
    case SocketPort(sock) => SocketPort(SocketSink.ForwardSock(sock, reply, base))
  }

  /** The calls `close` makes on a forwarder in state `k`. */
  function CloseCalls(k: Port): seq<Op>
  {
    match k
    case UInputPort(fd) => UInput.CloseOps(fd)
    case SocketPort(sock) => SocketSink.CloseOps(sock)
  }

  /** What `close` raises on a forwarder in state `k`. */
  function CloseRaised(k: Port, reply: nat -> Reply, base: nat): Option<Exc>
  {
    match k
    case UInputPort(fd) => UInput.CloseExc(fd, reply, base)
    case SocketPort(sock) => SocketSink.CloseExc(sock, reply, base)
  }

  /** The state of a forwarder after `close`. */
  function AfterClose(k: Port, reply: nat -> Reply, base: nat): Port
  {
    match k
    case UInputPort(fd) => UInputPort(UInput.ClosedFd(fd, reply, base))
    case SocketPort(sock) => SocketPort(None)
  }

  datatype Step =
    | Unlock | Detach | Claim | OpenUInput | OpenSocket | NoTargets
    | ReadReport | Forwarded(target: nat, sample: StylusSample)
    | CloseSink(target: nat) | Release | Attach | SetAlt
    | Scan | Rescan | Pause

  // ---------------------------------------------------------------------
  // The pump

  /** One sample handed to the forwarders in list order. */
  function Deliver(s: StylusSample, n: nat): (steps: seq<Step>)
    ensures |steps| == n && forall i :: 0 <= i < n ==> steps[i] == Forwarded(i, s)
  {
    seq(n, i requires 0 <= i < n => Forwarded(i, s))
  }

  /** One read and, when it yields a sample, its delivery. */
  function Round(sample: Option<StylusSample>, n: nat): seq<Step>
  {
    if sample.Some? then [ReadReport] + Deliver(sample.value, n) else [ReadReport]
  }

  function Rounds(samples: seq<Option<StylusSample>>, n: nat): seq<Step>
  {
    if |samples| == 0 then [] else Rounds(samples[..|samples| - 1], n) + Round(samples[|samples| - 1], n)
  }

  lemma RoundsAppend(samples: seq<Option<StylusSample>>, sample: Option<StylusSample>, n: nat)
    ensures Rounds(samples + [sample], n) == Rounds(samples, n) + Round(sample, n)
  {
    assert (samples + [sample])[..|samples|] == samples;
  }

  /** The samples that survived the read and the decoder, in order. */
  function Accepted(samples: seq<Option<StylusSample>>): seq<StylusSample>
  {
    if |samples| == 0 then []
    else Accepted(samples[..|samples| - 1]) + (if samples[|samples| - 1].Some? then [samples[|samples| - 1].value] else [])
  }

  /** The samples a log hands to forwarder `target`, in order. */
  function DeliveredTo(steps: seq<Step>, target: nat): seq<StylusSample>
  {
    if |steps| == 0 then []
    else
      var last := steps[|steps| - 1];
      DeliveredTo(steps[..|steps| - 1], target) + (if last.Forwarded? && last.target == target then [last.sample] else [])
  }

  /** The sample `_pump` forwards for one read: a payload that decodes. */
  function SampleOfRead(r: Result<Option<seq<Byte>>, Exc>): (s: Option<StylusSample>)
    ensures s.Some? ==> r.Ok? && r.value.Some? && DecodeStylus(r.value.value) == s
    ensures r.Ok? && r.value.Some? && DecodeStylus(r.value.value).Some? ==> s.Some?
  {
    if r.Ok? && r.value.Some? then DecodeStylus(r.value.value) else None
  }

  /** The start of an interrupted round: the read, and the forwarders reached
      before the one that raised. */
  predicate IsRoundPrefix(p: seq<Step>, n: nat)
  {
    && 1 <= |p| <= n + 1 && p[0] == ReadReport
    && (|p| > 1 ==> p[1].Forwarded? && forall i :: 1 <= i < |p| ==> p[i] == Forwarded(i - 1, p[1].sample))
  }

  lemma {:induction false} DeliveredToAppend(a: seq<Step>, b: seq<Step>, target: nat)
    ensures DeliveredTo(a + b, target) == DeliveredTo(a, target) + DeliveredTo(b, target)
    decreases |b|
  {
    if |b| > 0 {
      assert (a + b)[..|a + b| - 1] == a + b[..|b| - 1];
      DeliveredToAppend(a, b[..|b| - 1], target);
    } else {
      assert a + b == a;
    }
  }

  lemma {:induction false} DeliveredToDeliver(s: StylusSample, n: nat, target: nat)
    ensures DeliveredTo(Deliver(s, n), target) == (if target < n then [s] else [])
    decreases n
  {
    if n > 0 {
      assert Deliver(s, n)[..n - 1] == Deliver(s, n - 1);
      DeliveredToDeliver(s, n - 1, target);
    }
  }

  /** One round hands forwarder `target` its sample, if the read yielded one. */
  lemma DeliveredToRound(sample: Option<StylusSample>, n: nat, target: nat)
    requires target < n
    ensures DeliveredTo(Round(sample, n), target) == if sample.Some? then [sample.value] else []
  {
    assert DeliveredTo([ReadReport], target) == [] by {
      assert [ReadReport][..0] == [];
    }
    if sample.Some? {
      DeliveredToAppend([ReadReport], Deliver(sample.value, n), target);
      DeliveredToDeliver(sample.value, n, target);
    }
  }

  /** Every forwarder sees exactly the accepted samples, in the order they
      were read; a read that yields no sample reaches no forwarder. */
  lemma {:induction false} EveryTargetSeesAccepted(samples: seq<Option<StylusSample>>, n: nat, target: nat)
    requires target < n
    ensures DeliveredTo(Rounds(samples, n), target) == Accepted(samples)
    decreases |samples|
  {
    if |samples| > 0 {
      var last := samples[|samples| - 1];
      EveryTargetSeesAccepted(samples[..|samples| - 1], n, target);
      DeliveredToAppend(Rounds(samples[..|samples| - 1], n), Round(last, n), target);
      DeliveredToRound(last, n, target);
    }
  }

  /** The pump logs only reads and forwards. */
  lemma {:induction false} RoundsArePumpSteps(samples: seq<Option<StylusSample>>, n: nat, partial: seq<Step>)
    requires partial == [] || IsRoundPrefix(partial, n)
    ensures forall i :: 0 <= i < |Rounds(samples, n) + partial| ==> (Rounds(samples, n) + partial)[i].ReadReport? || (Rounds(samples, n) + partial)[i].Forwarded?
    decreases |samples|
  {
    if |samples| > 0 {
      var last := samples[|samples| - 1];
      RoundsArePumpSteps(samples[..|samples| - 1], n, []);
      assert Rounds(samples[..|samples| - 1], n) + [] == Rounds(samples[..|samples| - 1], n);
      assert Rounds(samples, n) == Rounds(samples[..|samples| - 1], n) + Round(last, n);
    }
  }

  /** The first `reached` forwarders of a round are handed its sample. */
  lemma DeliveredToPrefix(s: StylusSample, n: nat, reached: nat, target: nat)
    requires reached <= n
    ensures DeliveredTo(Deliver(s, n)[..reached], target) == if target < reached then [s] else []
  {
    assert Deliver(s, n)[..reached] == Deliver(s, reached);
    DeliveredToDeliver(s, reached, target);
  }

  /** `DeliveredToPrefix` for every forwarder at once. */
  lemma DeliveredToEachPrefix(s: StylusSample, n: nat, reached: nat)
    requires reached <= n
    ensures forall target: nat :: DeliveredTo(Deliver(s, n)[..reached], target) == if target < reached then [s] else []
  {
    forall target: nat
      ensures DeliveredTo(Deliver(s, n)[..reached], target) == if target < reached then [s] else []
    {
      DeliveredToPrefix(s, n, reached, target);
    }
  }

  /** An interrupted round hands its sample to the forwarders it reached. */
  lemma DeliveredToPartial(partial: seq<Step>, n: nat, target: nat)
    requires IsRoundPrefix(partial, n)
    ensures DeliveredTo(partial, target) == if target + 1 < |partial| then [partial[1].sample] else []
  {
    assert DeliveredTo([ReadReport], target) == [] by {
      assert [ReadReport][..0] == [];
    }
    if |partial| == 1 {
      assert partial == [ReadReport];
    } else {
      var s := partial[1].sample;
      assert partial == [ReadReport] + Deliver(s, |partial| - 1);
      DeliveredToAppend([ReadReport], Deliver(s, |partial| - 1), target);
      DeliveredToDeliver(s, |partial| - 1, target);
    }
  }

  /** What the pump's log hands forwarder `target`: the accepted samples of
      the completed rounds, then the sample of the interrupted round when the
      exception came from a later forwarder. */
  lemma DeliveredToPump(samples: seq<Option<StylusSample>>, partial: seq<Step>, n: nat, target: nat)
    requires partial == [] || IsRoundPrefix(partial, n)
    requires target < n
    ensures DeliveredTo(Rounds(samples, n) + partial, target) ==
      Accepted(samples) + (if target + 1 < |partial| then [partial[1].sample] else [])
  {
    EveryTargetSeesAccepted(samples, n, target);
    DeliveredToAppend(Rounds(samples, n), partial, target);
    if partial != [] {
      DeliveredToPartial(partial, n, target);
    }
  }

  /** A read hands nothing to any forwarder. */
  lemma ReadDeliversNothing(target: nat)
    ensures DeliveredTo([ReadReport], target) == []
  {
    assert [ReadReport][..0] == [];
  }

  /** A read hands nothing to any forwarder, all of them at once. */
  lemma ReadDeliversNothingToAny()
    ensures forall target: nat :: DeliveredTo([ReadReport], target) == []
  {
    forall target: nat
      ensures DeliveredTo([ReadReport], target) == []
    {
      ReadDeliversNothing(target);
    }
  }

  /** A round cut after `reached` forwards hands its sample to those it
      reached. */
  lemma DeliveredToEachRound(s: StylusSample, n: nat, reached: nat)
    requires reached <= n
    ensures forall target: nat ::
      DeliveredTo([ReadReport] + Deliver(s, n)[..reached], target) == DeliveredTo(Deliver(s, n)[..reached], target)
  {
    forall target: nat
      ensures DeliveredTo([ReadReport] + Deliver(s, n)[..reached], target) == DeliveredTo(Deliver(s, n)[..reached], target)
    {
      DeliveredToAppend([ReadReport], Deliver(s, n)[..reached], target);
      ReadDeliversNothing(target);
    }
  }

  /** The read `read_stylus_report` issues with the daemon's options. */
  function StylusRead(args: Args, consts: Constants): Op
  {
    Read(consts.stylusEndpoint, consts.stylusReadSize, args.timeoutMs)
  }

  /** The `k`-th completed read of the pump is the call `read` at trace
      position `readAt[k]`, inside `from .. to`, and yielded `samples[k]`;
      the reads are in trace order. */
  ghost predicate ReadsLogged(t: seq<Op>, reply: nat -> Reply, read: Op, readAt: seq<nat>,
                              samples: seq<Option<StylusSample>>, from: nat, to: nat)
  {
    && from <= to <= |t| && |readAt| == |samples|
    && (forall k :: 0 <= k < |readAt| ==>
          && from <= readAt[k] < to && t[readAt[k]] == read
          && samples[k] == SampleOfRead(UsbIo.ReadOutcome(reply(readAt[k]))))
    && (forall k, l :: 0 <= k < l < |readAt| ==> readAt[k] < readAt[l])
  }

  /** Every call `read` inside `from .. to` is one of the positions `at`. */
  ghost predicate ReadsCovered(t: seq<Op>, read: Op, at: seq<nat>, from: nat, to: nat)
    requires to <= |t|
  {
    forall q {:trigger q in at} :: from <= q < to && t[q] == read ==> q in at
  }

  /** One more read, at the end of the trace so far, after which the trace
      grew without reading. */
  lemma ReadsLoggedExtend(t: seq<Op>, t': seq<Op>, reply: nat -> Reply, read: Op, readAt: seq<nat>,
                          samples: seq<Option<StylusSample>>, from: nat, sample: Option<StylusSample>)
    requires ReadsLogged(t, reply, read, readAt, samples, from, |t|) && ReadsCovered(t, read, readAt, from, |t|)
    requires t <= t' && |t| < |t'| && t'[|t|] == read && NoReadsIn(t', |t| + 1) && read.Read?
    requires sample == SampleOfRead(UsbIo.ReadOutcome(reply(|t|)))
    ensures ReadsLogged(t', reply, read, readAt, samples, from, |t'|)
    ensures ReadsLogged(t', reply, read, readAt + [|t|], samples + [sample], from, |t'|)
    ensures ReadsCovered(t', read, readAt + [|t|], from, |t'|)
  {
    SliceKept(t, t', 0, |t|);
  }

  /** How a round of the pump ends early, given the reply to its read: a read
      that raised anything but a timeout ends it right after the read with
      that exception; otherwise the read yielded a sample and a forwarder
      raised while it was being handed out. */
  ghost predicate CutShort(n: nat, exc: Option<Exc>, partial: seq<Step>, read: Reply)
  {
    var r := UsbIo.ReadOutcome(read);
    && exc.Some? && IsRoundPrefix(partial, n)
    && (r.Err? ==> exc == Some(r.error) && partial == [ReadReport])
    && (r.Ok? ==> SampleOfRead(r).Some? && 1 < |partial| && partial == Round(SampleOfRead(r), n)[..|partial|])
  }

  /** A read that raised cuts its round short right after the read. */
  lemma CutByRead(n: nat, read: Reply)
    requires UsbIo.ReadOutcome(read).Err?
    ensures CutShort(n, Some(UsbIo.ReadOutcome(read).error), [ReadReport], read)
  {
  }

  /** A forwarder that raised cuts its round short after the forwarders
      reached. */
  lemma CutByForward(n: nat, exc: Option<Exc>, read: Reply, reached: nat)
    requires exc.Some? && UsbIo.ReadOutcome(read).Ok? && SampleOfRead(UsbIo.ReadOutcome(read)).Some?
    requires 1 <= reached <= n
    ensures CutShort(n, exc, [ReadReport] + Deliver(SampleOfRead(UsbIo.ReadOutcome(read)).value, n)[..reached], read)
  {
    var s := SampleOfRead(UsbIo.ReadOutcome(read));
    var partial := [ReadReport] + Deliver(s.value, n)[..reached];
    assert partial == Round(s, n)[..|partial|];
  }


  /** What one call of `forward` or `close` did: its calls, what it raised,
      and the forwarder's state after it. */
  datatype Sent = Sent(calls: seq<Op>, exc: Option<Exc>, after: Port)

  ghost function ForwardOutcome(k: Port, s: StylusSample, reply: nat -> Reply, at: nat): Sent
  {
    Sent(ForwardCalls(k, s, reply, at), ForwardRaised(k, reply, at), AfterForward(k, reply, at))
  }

  function CloseOutcome(k: Port, reply: nat -> Reply, at: nat): Sent
  {
    Sent(CloseCalls(k), CloseRaised(k, reply, at), AfterClose(k, reply, at))
  }

  /** A loop over the forwarders: the calls it made, the forwarders' states
      after it, what it raised and how many forwarders it reached. */
  datatype Sweep = Sweep(calls: seq<Op>, ports: seq<Port>, exc: Option<Exc>, reached: nat)

  /** A loop over the first `i` forwarders, in states `ports`, doing `step`
      on each with the replies from `base` on: each call's calls follow the
      previous one's, and the first call that raises ends the loop. Both the
      `for` loop of `_pump` and the close loop of the `finally` block are
      such loops. */
  ghost function SweepPrefix(ports: seq<Port>, step: (Port, nat) -> Sent, base: nat, i: nat): (d: Sweep)
    requires i <= |ports|
    ensures |d.ports| == |ports| && d.reached <= i
    ensures forall j :: i <= j < |ports| ==> d.ports[j] == ports[j]
    ensures d.exc.None? ==> d.reached == i
    decreases i
  {
    if i == 0 then Sweep([], ports, None, 0)
    else
      var prev := SweepPrefix(ports, step, base, i - 1);
      if prev.exc.Some? then prev
      else
        var o := step(ports[i - 1], base + |prev.calls|);
        Sweep(prev.calls + o.calls, prev.ports[i - 1 := o.after], o.exc, i)
  }

  ghost function SweepAll(ports: seq<Port>, step: (Port, nat) -> Sent, base: nat): Sweep
  {
    SweepPrefix(ports, step, base, |ports|)
  }

  /** `forward` with `s`, as a step of a loop. */
  ghost function Forwarding(s: StylusSample, reply: nat -> Reply): (Port, nat) -> Sent
  {
    (k: Port, at: nat) => ForwardOutcome(k, s, reply, at)
  }

  /** `close`, as a step of a loop. */
  ghost function Closing(reply: nat -> Reply): (Port, nat) -> Sent
  {
    (k: Port, at: nat) => CloseOutcome(k, reply, at)
  }

  /** The `for` loop of `_pump`, handing `s` to every forwarder. */
  ghost function Delivered(ports: seq<Port>, s: StylusSample, reply: nat -> Reply, base: nat): Sweep
  {
    SweepAll(ports, Forwarding(s, reply), base)
  }

  /** The close loop of the `finally` block. */
  ghost function ClosedAll(ports: seq<Port>, reply: nat -> Reply, base: nat): Sweep
  {
    SweepAll(ports, Closing(reply), base)
  }

  /** A loop that started on the trace `t0` with the forwarders in states
      `p0` went through the first `i` of them without raising, leaving the
      trace at `t` and the forwarders in states `ports`. */
  ghost predicate Swept(p0: seq<Port>, step: (Port, nat) -> Sent, t0: seq<Op>, i: nat, t: seq<Op>, ports: seq<Port>)
  {
    i <= |p0| && var d := SweepPrefix(p0, step, |t0|, i); d.exc.None? && t == t0 + d.calls && ports == d.ports
  }

  /** One more turn of the loop, on forwarder `i`, whose call `o` appended
      its calls to the trace and changed the forwarder's state. */
  lemma SweptStep(p0: seq<Port>, step: (Port, nat) -> Sent, t0: seq<Op>, i: nat, t: seq<Op>, ports: seq<Port>,
                  o: Sent, t': seq<Op>, ports': seq<Port>)
    requires Swept(p0, step, t0, i, t, ports) && i < |p0|
    requires o == step(ports[i], |t|) && t' == t + o.calls && ports' == ports[i := o.after]
    ensures ports[i] == p0[i]
    ensures o.exc.None? ==> Swept(p0, step, t0, i + 1, t', ports')
    ensures o.exc.Some? ==> var d := SweepAll(p0, step, |t0|);
      && t' == t0 + d.calls && ports' == d.ports && d.exc == o.exc && d.reached == i + 1
  {
    var d := SweepPrefix(p0, step, |t0|, i);
    assert SweepPrefix(p0, step, |t0|, i + 1) == Sweep(d.calls + o.calls, d.ports[i := o.after], o.exc, i + 1);
    Associative(t0, d.calls, o.calls);
    if o.exc.Some? {
      SweepStops(p0, step, |t0|, i + 1, |p0|);
    }
  }

  /** A loop that went through every forwarder without raising. */
  lemma SweptAll(p0: seq<Port>, step: (Port, nat) -> Sent, t0: seq<Op>, t: seq<Op>, ports: seq<Port>)
    requires Swept(p0, step, t0, |p0|, t, ports)
    ensures var d := SweepAll(p0, step, |t0|);
      t == t0 + d.calls && ports == d.ports && d.exc.None? && d.reached == |p0|
  {
  }

  /** A loop starts with no calls. */
  lemma SweptNone(p0: seq<Port>, step: (Port, nat) -> Sent, t0: seq<Op>)
    ensures Swept(p0, step, t0, 0, t0, p0)
  {
    assert t0 + [] == t0;
  }

  /** Once a call raised, the loop goes no further. */
  lemma {:induction false} SweepStops(ports: seq<Port>, step: (Port, nat) -> Sent, base: nat, i: nat, k: nat)
    requires i <= k <= |ports| && SweepPrefix(ports, step, base, i).exc.Some?
    ensures SweepPrefix(ports, step, base, k) == SweepPrefix(ports, step, base, i)
    decreases k
  {
    if k > i {
      SweepStops(ports, step, base, i, k - 1);
    }
  }

  /** A loop that raised was ended by forwarder `reached - 1`: the exception
      is what the call on it raised, on the replies right after the calls of
      the forwarders before it, none of which raised. */
  lemma {:induction false} SweepRaisedBy(ports: seq<Port>, step: (Port, nat) -> Sent, base: nat, i: nat)
    requires i <= |ports| && SweepPrefix(ports, step, base, i).exc.Some?
    ensures var d := SweepPrefix(ports, step, base, i);
      && 1 <= d.reached <= i
      && var before := SweepPrefix(ports, step, base, d.reached - 1);
      && before.exc.None?
      && d.exc == step(ports[d.reached - 1], base + |before.calls|).exc
      && d.calls == before.calls + step(ports[d.reached - 1], base + |before.calls|).calls
    decreases i
  {
    var d := SweepPrefix(ports, step, base, i);
    var prev := SweepPrefix(ports, step, base, i - 1);
    if prev.exc.Some? {
      assert d == prev;
      SweepRaisedBy(ports, step, base, i - 1);
    } else {
      var o := step(ports[i - 1], base + |prev.calls|);
      assert d == Sweep(prev.calls + o.calls, prev.ports[i - 1 := o.after], o.exc, i);
    }
  }

  /** Before the loop stopped, every forwarder reached raised nothing:
      forwarder `j` made its calls right after those of the ones before it. */
  lemma {:induction false} SweepQuietBefore(ports: seq<Port>, step: (Port, nat) -> Sent, base: nat, i: nat, j: nat)
    requires j < i <= |ports| && SweepPrefix(ports, step, base, i).exc.None?
    ensures var before := SweepPrefix(ports, step, base, j);
      var o := step(ports[j], base + |before.calls|);
      && before.exc.None? && o.exc.None?
      && SweepPrefix(ports, step, base, j + 1).calls == before.calls + o.calls
    decreases i
  {
    if j + 1 < i {
      SweepQuietBefore(ports, step, base, i - 1, j);
    }
  }

  /** A forwarder whose state no call changes keeps it through the loop. */
  lemma {:induction false} SweepKeeps(ports: seq<Port>, step: (Port, nat) -> Sent, base: nat, i: nat, j: nat)
    requires i <= |ports| && j < |ports| && forall at :: step(ports[j], at).after == ports[j]
    ensures SweepPrefix(ports, step, base, i).ports[j] == ports[j]
    decreases i
  {
    if i > 0 {
      SweepKeeps(ports, step, base, i - 1, j);
    }
  }

  /** A uinput forwarder keeps its descriptor through the `for` loop of
      `_pump`, and a dead socket sink stays dead. */
  lemma DeliveryKeepsPorts(ports: seq<Port>, s: StylusSample, reply: nat -> Reply, base: nat, j: nat)
    requires j < |ports| && (ports[j].UInputPort? || ports[j] == SocketPort(None))
    ensures Delivered(ports, s, reply, base).ports[j] == ports[j]
  {
    SweepKeeps(ports, Forwarding(s, reply), base, |ports|, j);
  }

  /** After the close loop every forwarder it reached is closed: a socket
      sink is dead, a uinput forwarder forgot its descriptor unless closing
      it raised. */
  lemma {:induction false} ClosesForget(ports: seq<Port>, reply: nat -> Reply, base: nat, i: nat, j: nat)
    requires j < i <= |ports| && SweepPrefix(ports, Closing(reply), base, i).exc.None?
    ensures var d := SweepPrefix(ports, Closing(reply), base, i);
      d.ports[j] == (if ports[j].SocketPort? then SocketPort(None) else UInputPort(None))
    decreases i
  {
    var step := Closing(reply);
    var prev := SweepPrefix(ports, step, base, i - 1);
    if j + 1 < i {
      ClosesForget(ports, reply, base, i - 1, j);
    } else {
      var o := step(ports[j], base + |prev.calls|);
      assert o.exc.None?;
    }
  }

  /** One round of the `while` loop of `_pump`, whose read is the call at
      `q`, with the forwarders in states `ports`: the read, then, when it
      yields a sample, that sample's `for` loop. A read that raised ends the
      round with its exception; a read that timed out or yielded no sample
      ends it quietly. */
  ghost function RoundCalls(read: Op, ports: seq<Port>, reply: nat -> Reply, q: nat): Sweep
  {
    var r := UsbIo.ReadOutcome(reply(q));
    if r.Err? then Sweep([read], ports, Some(r.error), 0)
    else match SampleOfRead(r)
      case None => Sweep([read], ports, None, 0)
      case Some(s) =>
        var d := Delivered(ports, s, reply, q + 1);
        Sweep([read] + d.calls, d.ports, d.exc, d.reached)
  }

  /** A round of the pump, as a step of its loop. */
  ghost function Reading(read: Op, reply: nat -> Reply): (seq<Port>, nat) -> Sweep
  {
    (ports: seq<Port>, q: nat) => RoundCalls(read, ports, reply, q)
  }

  /** `k` rounds of a loop from the forwarder states `ports`, each given by
      `round` on the replies right after the previous one; the first round
      that raises ends the loop. */
  ghost function RoundsPrefix(ports: seq<Port>, round: (seq<Port>, nat) -> Sweep, base: nat, k: nat): Sweep
    decreases k
  {
    if k == 0 then Sweep([], ports, None, 0)
    else
      var prev := RoundsPrefix(ports, round, base, k - 1);
      if prev.exc.Some? then prev
      else
        var r := round(prev.ports, base + |prev.calls|);
        Sweep(prev.calls + r.calls, r.ports, r.exc, r.reached)
  }

  /** The calls of `k` rounds of `_pump` from position `base`. */
  ghost function Pumped(read: Op, ports: seq<Port>, reply: nat -> Reply, base: nat, k: nat): Sweep
  {
    RoundsPrefix(ports, Reading(read, reply), base, k)
  }

  /** One more round after `k` quiet ones that started on the trace `t0`. */
  lemma RoundsStep(ports: seq<Port>, round: (seq<Port>, nat) -> Sweep, t0: seq<Op>, k: nat, t: seq<Op>,
                   r: Sweep, t': seq<Op>)
    requires var d := RoundsPrefix(ports, round, |t0|, k); d.exc.None? && t == t0 + d.calls
    requires r == round(RoundsPrefix(ports, round, |t0|, k).ports, |t|) && t' == t + r.calls
    ensures var d' := RoundsPrefix(ports, round, |t0|, k + 1);
      && d'.exc == r.exc && d'.ports == r.ports && d'.reached == r.reached
      && t' == t0 + d'.calls && t'[|t0|..|t'|] == d'.calls
  {
    var d := RoundsPrefix(ports, round, |t0|, k);
    Associative(t0, d.calls, r.calls);
  }

  /** The pump's record against the trace: its completed reads in order, the
      positions `from .. to` it occupies, the read of the interrupted round
      at `lastRead` when it ended with an exception, and the states of the
      forwarders it started with. */
  datatype PumpTrace = PumpTrace(
    samples: seq<Option<StylusSample>>,
    readAt: seq<nat>,
    partial: seq<Step>,
    lastRead: nat,
    from: nat,
    to: nat,
    ports: seq<Port>)

  /** The rounds the pump began: the completed ones and the interrupted one. */
  function PumpRounds(exc: Option<Exc>, p: PumpTrace): nat
  {
    |p.samples| + (if exc.Some? then 1 else 0)
  }

  /** The pump with `n` forwarders, ending with `exc`, made exactly the
      reads `p` records inside `from .. to` of `t`, and these positions hold
      the calls of its rounds, the last of which raised `exc`. */
  ghost predicate PumpInWorld(read: Op, n: nat, exc: Option<Exc>, p: PumpTrace, t: seq<Op>, reply: nat -> Reply)
  {
    p in PumpRuns(read, n, exc, t, reply)
  }

  /** The pumps the trace admits; membership is one fact to a caller, like
      `Sessions`. */
  ghost function PumpRuns(read: Op, n: nat, exc: Option<Exc>, t: seq<Op>, reply: nat -> Reply): iset<PumpTrace>
  {
    iset p | PumpParts(read, n, exc, p, t, reply)
  }

  /** The clauses of `PumpInWorld`. */
  ghost predicate PumpParts(read: Op, n: nat, exc: Option<Exc>, p: PumpTrace, t: seq<Op>, reply: nat -> Reply)
  {
    && ReadsLogged(t, reply, read, p.readAt, p.samples, p.from, p.to)
    && (var c := Pumped(read, p.ports, reply, p.from, PumpRounds(exc, p));
        && t[p.from .. p.to] == c.calls && c.exc == exc
        && (exc.Some? ==> |p.partial| == 1 + c.reached))
    && (exc.None? ==> p.partial == [] && ReadsCovered(t, read, p.readAt, p.from, p.to))
    && (exc.Some? ==>
          && p.from <= p.lastRead < p.to && t[p.lastRead] == read
          && (forall k :: 0 <= k < |p.readAt| ==> p.readAt[k] < p.lastRead)
          && CutShort(n, exc, p.partial, reply(p.lastRead))
          && ReadsCovered(t, read, p.readAt + [p.lastRead], p.from, p.to))
  }

  /** A pump whose reads so far are recorded, and whose next round read at
      the end of `t` and was cut short, ran exactly as `PumpInWorld` says. */
  lemma PumpCut(read: Op, n: nat, exc: Option<Exc>, samples: seq<Option<StylusSample>>, readAt: seq<nat>,
                partial: seq<Step>, from: nat, t: seq<Op>, t': seq<Op>, reply: nat -> Reply, ports: seq<Port>)
    requires ReadsLogged(t, reply, read, readAt, samples, from, |t|) && ReadsCovered(t, read, readAt, from, |t|)
    requires t <= t' && |t| < |t'| && t'[|t|] == read && NoReadsIn(t', |t| + 1) && read.Read?
    requires CutShort(n, exc, partial, reply(|t|))
    requires var c := Pumped(read, ports, reply, from, |samples| + 1);
      t'[from .. |t'|] == c.calls && c.exc == exc && |partial| == 1 + c.reached
    ensures PumpInWorld(read, n, exc, PumpTrace(samples, readAt, partial, |t|, from, |t'|, ports), t', reply)
  {
    ReadsLoggedExtend(t, t', reply, read, readAt, samples, from, SampleOfRead(UsbIo.ReadOutcome(reply(|t|))));
    assert PumpParts(read, n, exc, PumpTrace(samples, readAt, partial, |t|, from, |t'|, ports), t', reply);
  }

  /** A pump that stopped on the signal after the rounds of `samples`, each
      of them quiet, ran exactly as `PumpInWorld` says. */
  lemma PumpStopped(read: Op, n: nat, samples: seq<Option<StylusSample>>, readAt: seq<nat>, lastRead: nat,
                    t0: seq<Op>, t: seq<Op>, reply: nat -> Reply, ports: seq<Port>)
    ensures var c := Pumped(read, ports, reply, |t0|, |samples|);
      (&& c.exc.None? && t == t0 + c.calls
       && ReadsLogged(t, reply, read, readAt, samples, |t0|, |t|) && ReadsCovered(t, read, readAt, |t0|, |t|))
      ==> PumpInWorld(read, n, None, PumpTrace(samples, readAt, [], lastRead, |t0|, |t|, ports), t, reply)
  {
    var c := Pumped(read, ports, reply, |t0|, |samples|);
    if c.exc.None? && t == t0 + c.calls {
      assert t[|t0| .. |t|] == c.calls;
      if ReadsLogged(t, reply, read, readAt, samples, |t0|, |t|) && ReadsCovered(t, read, readAt, |t0|, |t|) {
        assert PumpParts(read, n, None, PumpTrace(samples, readAt, [], lastRead, |t0|, |t|, ports), t, reply);
      }
    }
  }

  /** The state the pump's loop keeps track of: the trace, the log, the
      forwarders' states and what each was handed. */
  datatype PumpState = PumpState(trace: seq<Op>, steps: seq<Step>, ports: seq<Port>, handed: seq<seq<StylusSample>>)

  /** The states a pump with `n` forwarders can be in after the rounds of
      `samples`, read at `readAt`, since the state was `t0`, `p0`, `s0`,
      `h0`; membership is one fact to a caller, like `Sessions`. */
  ghost function PumpStates(read: Op, reply: nat -> Reply, n: nat, t0: seq<Op>, p0: seq<Port>, s0: seq<Step>,
                            h0: seq<seq<StylusSample>>, samples: seq<Option<StylusSample>>, readAt: seq<nat>): iset<PumpState>
  {
    iset st | PumpStateParts(read, reply, n, t0, p0, s0, h0, samples, readAt, st)
  }

  /** The rounds' calls follow `t0` and none raised, the forwarders are in
      the states they left, the log holds the rounds, the reads are the
      recorded ones, and forwarder `i` was handed what the rounds deliver to
      it on top of `h0[i]`. */
  ghost predicate PumpStateParts(read: Op, reply: nat -> Reply, n: nat, t0: seq<Op>, p0: seq<Port>, s0: seq<Step>,
                                 h0: seq<seq<StylusSample>>, samples: seq<Option<StylusSample>>, readAt: seq<nat>,
                                 st: PumpState)
  {
    var from := |t0|;
    && (var c := Pumped(read, p0, reply, from, |samples|);
        c.exc.None? && st.trace == t0 + c.calls && st.ports == c.ports)
    && st.steps == s0 + Rounds(samples, n)
    && ReadsLogged(st.trace, reply, read, readAt, samples, from, |st.trace|)
    && ReadsCovered(st.trace, read, readAt, from, |st.trace|)
    && |h0| == n && |st.handed| == n
    && (forall i :: 0 <= i < n ==> st.handed[i] == h0[i] + DeliveredTo(Rounds(samples, n), i))
  }

  /** The round after the state `pre` read with `read` at the end of its
      trace and led to the state `post`, ending with `exc` after the steps
      `partial`, as `RoundCalls` and the reply to the read say. */
  ghost predicate RoundTaken(read: Op, reply: nat -> Reply, n: nat, pre: PumpState, post: PumpState,
                             sample: Option<StylusSample>, exc: Option<Exc>, partial: seq<Step>)
  {
    && read.Read?
    && (var r := RoundCalls(read, pre.ports, reply, |pre.trace|);
        && post.trace == pre.trace + r.calls && exc == r.exc && post.ports == r.ports
        && (exc.Some? ==> |partial| == 1 + r.reached))
    && |pre.trace| < |post.trace| && post.trace[|pre.trace|] == read && NoReadsIn(post.trace, |pre.trace| + 1)
    && sample == SampleOfRead(UsbIo.ReadOutcome(reply(|pre.trace|)))
    && post.steps == pre.steps + partial
    && (exc.None? ==> partial == Round(sample, n))
    && (exc.Some? ==> CutShort(n, exc, partial, reply(|pre.trace|)))
    && |pre.handed| == n && |post.handed| == n
    && (forall i :: 0 <= i < n ==> post.handed[i] == pre.handed[i] + DeliveredTo(partial, i))
  }

  /** One more round of the pump, from the state `pre` that the rounds of
      `samples` left to the state `post`: a quiet round extends them by its
      sample and its read; a round cut short ends the pump as `PumpInWorld`
      says. */
  lemma PumpStateStep(read: Op, reply: nat -> Reply, n: nat, t0: seq<Op>, p0: seq<Port>, s0: seq<Step>,
                      h0: seq<seq<StylusSample>>, samples: seq<Option<StylusSample>>, readAt: seq<nat>,
                      pre: PumpState, post: PumpState, sample: Option<StylusSample>, exc: Option<Exc>, partial: seq<Step>)
    ensures
      (pre in PumpStates(read, reply, n, t0, p0, s0, h0, samples, readAt)
       && RoundTaken(read, reply, n, pre, post, sample, exc, partial))
      ==>
      && (exc.None? ==> post in PumpStates(read, reply, n, t0, p0, s0, h0, samples + [sample], readAt + [|pre.trace|]))
      && (exc.Some? ==>
            && post.steps == s0 + Rounds(samples, n) + partial
            && post.ports == Pumped(read, p0, reply, |t0|, |samples| + 1).ports
            && PumpInWorld(read, n, exc, PumpTrace(samples, readAt, partial, |pre.trace|, |t0|, |post.trace|, p0), post.trace, reply)
            && (forall i :: 0 <= i < n ==> post.handed[i] == h0[i] + DeliveredTo(Rounds(samples, n) + partial, i)))
  {
    if pre in PumpStates(read, reply, n, t0, p0, s0, h0, samples, readAt)
       && RoundTaken(read, reply, n, pre, post, sample, exc, partial) {
      if exc.Some? {
        PumpStateCut(read, reply, n, t0, p0, s0, h0, samples, readAt, pre, post, sample, exc, partial);
      } else {
        PumpStateQuiet(read, reply, n, t0, p0, s0, h0, samples, readAt, pre, post, sample, exc, partial);
      }
    }
  }

  /** A quiet round adds its sample, its read and its deliveries. */
  lemma PumpStateQuiet(read: Op, reply: nat -> Reply, n: nat, t0: seq<Op>, p0: seq<Port>, s0: seq<Step>,
                       h0: seq<seq<StylusSample>>, samples: seq<Option<StylusSample>>, readAt: seq<nat>,
                       pre: PumpState, post: PumpState, sample: Option<StylusSample>, exc: Option<Exc>, partial: seq<Step>)
    requires PumpStateParts(read, reply, n, t0, p0, s0, h0, samples, readAt, pre)
    requires RoundTaken(read, reply, n, pre, post, sample, exc, partial) && exc.None?
    ensures PumpStateParts(read, reply, n, t0, p0, s0, h0, samples + [sample], readAt + [|pre.trace|], post)
  {
    var t, t' := pre.trace, post.trace;
    var r := RoundCalls(read, pre.ports, reply, |t|);
    assert Reading(read, reply)(pre.ports, |t|) == r;
    RoundsStep(p0, Reading(read, reply), t0, |samples|, t, r, t');
    RoundsAppend(samples, sample, n);
    forall i | 0 <= i < n
      ensures post.handed[i] == h0[i] + DeliveredTo(Rounds(samples + [sample], n), i)
    {
      DeliveredToAppend(Rounds(samples, n), partial, i);
      Associative(h0[i], DeliveredTo(Rounds(samples, n), i), DeliveredTo(partial, i));
    }
    ReadsLoggedExtend(t, t', reply, read, readAt, samples, |t0|, sample);
    Associative(s0, Rounds(samples, n), Round(sample, n));
  }

  /** A round cut short ends the pump as `PumpInWorld` says. */
  lemma PumpStateCut(read: Op, reply: nat -> Reply, n: nat, t0: seq<Op>, p0: seq<Port>, s0: seq<Step>,
                     h0: seq<seq<StylusSample>>, samples: seq<Option<StylusSample>>, readAt: seq<nat>,
                     pre: PumpState, post: PumpState, sample: Option<StylusSample>, exc: Option<Exc>, partial: seq<Step>)
    requires PumpStateParts(read, reply, n, t0, p0, s0, h0, samples, readAt, pre)
    requires RoundTaken(read, reply, n, pre, post, sample, exc, partial) && exc.Some?
    ensures post.steps == s0 + Rounds(samples, n) + partial
    ensures post.ports == Pumped(read, p0, reply, |t0|, |samples| + 1).ports
    ensures PumpInWorld(read, n, exc, PumpTrace(samples, readAt, partial, |pre.trace|, |t0|, |post.trace|, p0), post.trace, reply)
    ensures forall i :: 0 <= i < n ==> post.handed[i] == h0[i] + DeliveredTo(Rounds(samples, n) + partial, i)
  {
    var t, t' := pre.trace, post.trace;
    var r := RoundCalls(read, pre.ports, reply, |t|);
    assert Reading(read, reply)(pre.ports, |t|) == r;
    RoundsStep(p0, Reading(read, reply), t0, |samples|, t, r, t');
    forall i | 0 <= i < n
      ensures post.handed[i] == h0[i] + DeliveredTo(Rounds(samples, n) + partial, i)
    {
      DeliveredToAppend(Rounds(samples, n), partial, i);
      Associative(h0[i], DeliveredTo(Rounds(samples, n), i), DeliveredTo(partial, i));
    }
    Associative(s0, Rounds(samples, n), partial);
    PumpCut(read, n, exc, samples, readAt, partial, |t0|, t, t', reply, p0);
  }

  // ---------------------------------------------------------------------
  // Serving one device: the `try` body

  /** The setup calls `_serve_device` makes, in order, given the options. */
  function SetupPlan(args: Args): seq<Step>
  {
    [Unlock] + (if args.forceDetach then [Detach] else []) + [Claim]
    + (if !args.noUInput then [OpenUInput] else []) + (if Truthy(args.socketPath) then [OpenSocket] else [])
  }

  function ClaimAt(args: Args): nat { if args.forceDetach then 2 else 1 }
  function UInputAt(args: Args): nat { ClaimAt(args) + 1 }
  function SocketAt(args: Args): nat { ClaimAt(args) + (if args.noUInput then 1 else 2) }

  /** Where the setup calls of one body sit in the trace: `unlock_interfaces`
      from `unlock`, with `unlockIssued` requests after the configuration;
      `detach_kernel_driver` from `detach`; the claim at `claim`; the
      creation of the uinput and socket forwarders from `uinput` and
      `socket`; the setup ends before `end`. */
  datatype SetupAt = SetupAt(unlock: nat, unlockIssued: nat, detach: nat, claim: nat, uinput: nat, socket: nat, end: nat)

  /** What setup call `k` raised, when `issued` calls were made and the last
      one raised `exc`: the earlier ones returned normally. */
  function StepExc(issued: nat, exc: Option<Exc>, k: nat): Option<Exc>
  {
    if issued == k + 1 then exc else None
  }

  /** `detach_kernel_driver` made its calls from position `p` of `t`; it
      raised `exc` and detached a driver when `detached`. */
  ghost predicate DetachRan(reply: nat -> Reply, t: seq<Op>, p: nat, dev: Device, iface: int, exc: Option<Exc>, detached: bool)
  {
    var ops := UsbIo.DetachOps(reply, p, dev, iface);
    var r := UsbIo.DetachResult(reply, p, dev);
    && p + |ops| <= |t| && t[p .. p + |ops|] == ops
    && exc == (if r.Err? then Some(r.error) else None)
    && detached == (r == Ok(true))
  }

  /** The claim is the call at `p` of `t` and raised `exc`, what the call raised. */
  ghost predicate ClaimRan(reply: nat -> Reply, t: seq<Op>, p: nat, iface: int, exc: Option<Exc>)
  {
    p < |t| && t[p] == ClaimInterface(iface) && exc == (if Failed(reply(p)) then Some(reply(p).exc) else None)
  }

  /** The calls the creation of the uinput forwarder makes from `p`, with
      the daemon's name and ids. */
  ghost function UInputCreateOps(reply: nat -> Reply, p: nat, consts: Constants): seq<Op>
  {
    UInput.CreateOps(reply, p, consts.uinputName, consts.vendorId, consts.productId)
  }

  /** The creation of the uinput forwarder made the calls of
      `UInput.CreateOps` from `p` of `t`, the first of them the open of
      uinput, and raised `exc`: nothing when the open and the configuration
      returned. */
  ghost predicate UInputOpened(reply: nat -> Reply, t: seq<Op>, p: nat, consts: Constants, exc: Option<Exc>)
  {
    var ops := UInputCreateOps(reply, p, consts);
    && p + |ops| <= |t| && t[p .. p + |ops|] == ops
    && p < |t| && t[p] == OpenDevice(UInput.UINPUT_PATH)
    && (exc.None? <==> UInput.Created(reply, p))
    && (exc.Some? ==> exc == Some(OSError))
  }

  /** The creation of the socket forwarder made the calls of `_connect` from
      `p` of `t` and raised what `_connect` raised. */
  ghost predicate SocketOpened(reply: nat -> Reply, t: seq<Op>, p: nat, path: string, exc: Option<Exc>)
  {
    var ops := SocketSink.ConnectOps(reply, p, path);
    p + |ops| <= |t| && t[p .. p + |ops|] == ops && exc == SocketSink.ConnectExc(reply, p)
  }

  /** The calls of `unlock_interfaces` stay in a growing trace. */
  lemma UnlockRanKept(reply: nat -> Reply, t: seq<Op>, t': seq<Op>, base: nat, reportLengths: seq<(int, int)>,
                      issued: nat, exc: Option<Exc>)
    requires UsbIo.UnlockRan(reply, t, base, reportLengths, issued, exc) && t <= t'
    ensures UsbIo.UnlockRan(reply, t', base, reportLengths, issued, exc)
  {
    SliceKept(t, t', base, base + 1 + issued);
    SliceKept(t, t', base + 1, base + 1 + issued);
  }

  /** So do the calls of `detach_kernel_driver`. */
  lemma DetachRanKept(reply: nat -> Reply, t: seq<Op>, t': seq<Op>, p: nat, dev: Device, iface: int, exc: Option<Exc>, detached: bool)
    requires DetachRan(reply, t, p, dev, iface, exc, detached) && t <= t'
    ensures DetachRan(reply, t', p, dev, iface, exc, detached)
  {
    SliceKept(t, t', p, p + |UsbIo.DetachOps(reply, p, dev, iface)|);
  }

  /** The unlock, the detach and the claim of a setup that made `issued`
      calls and ended with `exc`, back to back from `at.unlock` in `t`. */
  ghost predicate AcquiredInWorld(args: Args, consts: Constants, dev: Device, issued: nat, exc: Option<Exc>, detached: bool,
                                  at: SetupAt, t: seq<Op>, reply: nat -> Reply)
  {
    var iface := consts.stylusInterface;
    var afterUnlock := at.unlock + 1 + at.unlockIssued;
    && UsbIo.UnlockRan(reply, t, at.unlock, consts.reportLengths, at.unlockIssued, StepExc(issued, exc, 0))
    && (args.forceDetach && issued > 1 ==>
          at.detach == afterUnlock && DetachRan(reply, t, at.detach, dev, iface, StepExc(issued, exc, 1), detached))
    && (!(args.forceDetach && issued > 1) ==> !detached)
    && (issued > ClaimAt(args) ==>
          && at.claim == (if args.forceDetach then at.detach + |UsbIo.DetachOps(reply, at.detach, dev, iface)| else afterUnlock)
          && ClaimRan(reply, t, at.claim, iface, StepExc(issued, exc, ClaimAt(args))))
    && (issued == 1 ==> at.end == afterUnlock)
    && (args.forceDetach && issued == 2 ==> at.end == at.detach + |UsbIo.DetachOps(reply, at.detach, dev, iface)|)
    && (issued == ClaimAt(args) + 1 ==> at.end == at.claim + 1)
  }

  /** The setup stopped at `unlock_interfaces`. */
  lemma AcquiredByUnlock(args: Args, consts: Constants, dev: Device, exc: Option<Exc>, at: SetupAt, t: seq<Op>, reply: nat -> Reply)
    requires UsbIo.UnlockRan(reply, t, at.unlock, consts.reportLengths, at.unlockIssued, exc)
    requires at.end == at.unlock + 1 + at.unlockIssued
    ensures AcquiredInWorld(args, consts, dev, 1, exc, false, at, t, reply)
  {
  }

  /** The setup stopped at `detach_kernel_driver`, which raised. */
  lemma AcquiredByDetach(args: Args, consts: Constants, dev: Device, exc: Option<Exc>, at: SetupAt, t: seq<Op>, reply: nat -> Reply)
    requires args.forceDetach && at.detach == at.unlock + 1 + at.unlockIssued
    requires UsbIo.UnlockRan(reply, t, at.unlock, consts.reportLengths, at.unlockIssued, None)
    requires DetachRan(reply, t, at.detach, dev, consts.stylusInterface, exc, false)
    requires at.end == at.detach + |UsbIo.DetachOps(reply, at.detach, dev, consts.stylusInterface)|
    ensures AcquiredInWorld(args, consts, dev, 2, exc, false, at, t, reply)
  {
  }

  /** The setup went as far as the claim. */
  lemma AcquiredByClaim(args: Args, consts: Constants, dev: Device, exc: Option<Exc>, detached: bool, at: SetupAt,
                        t: seq<Op>, reply: nat -> Reply)
    requires UsbIo.UnlockRan(reply, t, at.unlock, consts.reportLengths, at.unlockIssued, None)
    requires args.forceDetach ==> at.detach == at.unlock + 1 + at.unlockIssued
    requires args.forceDetach ==> DetachRan(reply, t, at.detach, dev, consts.stylusInterface, None, detached)
    requires !args.forceDetach ==> !detached
    requires at.claim == (if args.forceDetach then at.detach + |UsbIo.DetachOps(reply, at.detach, dev, consts.stylusInterface)|
                          else at.unlock + 1 + at.unlockIssued)
    requires ClaimRan(reply, t, at.claim, consts.stylusInterface, exc) && at.end == at.claim + 1
    ensures AcquiredInWorld(args, consts, dev, ClaimAt(args) + 1, exc, detached, at, t, reply)
  {
  }

  /** The forwarders a setup that made `issued` calls and ended with `exc`
      created after the claim at `at.claim`: the uinput one from `at.uinput`,
      right after the claim, and the socket one from `at.socket`, right after
      the one before it. The setup ends at `at.end`, right after the last
      creation it made. */
  ghost predicate OpenedInWorld(args: Args, consts: Constants, issued: nat, exc: Option<Exc>, at: SetupAt,
                                t: seq<Op>, reply: nat -> Reply)
  {
    at in Openings(args, consts, issued, exc, t, reply)
  }

  /** The positions of the forwarders' opens the trace admits; membership is
      one fact to a caller, like `Sessions`. */
  ghost function Openings(args: Args, consts: Constants, issued: nat, exc: Option<Exc>, t: seq<Op>, reply: nat -> Reply): iset<SetupAt>
  {
    iset at | OpenedParts(args, consts, issued, exc, at, t, reply)
  }

  /** The clauses of `OpenedInWorld`. */
  ghost predicate OpenedParts(args: Args, consts: Constants, issued: nat, exc: Option<Exc>, at: SetupAt,
                              t: seq<Op>, reply: nat -> Reply)
  {
    var uinputEnd := at.uinput + |UInputCreateOps(reply, at.uinput, consts)|;
    && (!args.noUInput && issued > UInputAt(args) ==>
          at.uinput == at.claim + 1 && UInputOpened(reply, t, at.uinput, consts, StepExc(issued, exc, UInputAt(args))))
    && (!args.noUInput && issued == UInputAt(args) + 1 ==> at.end == uinputEnd)
    && (Truthy(args.socketPath) && issued > SocketAt(args) ==>
          && at.socket == (if args.noUInput then at.claim + 1 else uinputEnd)
          && SocketOpened(reply, t, at.socket, args.socketPath.value, StepExc(issued, exc, SocketAt(args)))
          && (issued == SocketAt(args) + 1 ==>
                at.end == at.socket + |SocketSink.ConnectOps(reply, at.socket, args.socketPath.value)|))
  }

  /** The forwarders' opens when no socket forwarder was opened: none at
      all, or the uinput forwarder's alone, which ends the setup. */
  lemma OpenedWithoutSocket(args: Args, consts: Constants, issued: nat, exc: Option<Exc>, at: SetupAt,
                            t: seq<Op>, reply: nat -> Reply)
    ensures (if args.noUInput then issued == UInputAt(args) && exc.None?
             else && issued == UInputAt(args) + 1 && at.uinput == at.claim + 1
                  && at.end == at.uinput + |UInputCreateOps(reply, at.uinput, consts)|
                  && UInputOpened(reply, t, at.uinput, consts, exc))
            ==> OpenedInWorld(args, consts, issued, exc, at, t, reply)
    ensures issued == UInputAt(args) + (if args.noUInput then 0 else 1) ==>
      OpenedPorts(args, issued, exc.Some?, at) == (if args.noUInput || exc.Some? then [] else [UInputPort(Some(at.uinput))])
  {
    if args.noUInput && issued == UInputAt(args) && exc.None? {
      assert OpenedParts(args, consts, issued, exc, at, t, reply);
    }
    if !args.noUInput && issued == UInputAt(args) + 1 && at.uinput == at.claim + 1
       && at.end == at.uinput + |UInputCreateOps(reply, at.uinput, consts)| && UInputOpened(reply, t, at.uinput, consts, exc) {
      assert OpenedParts(args, consts, issued, exc, at, t, reply);
    }
  }

  /** The forwarders' opens when the socket forwarder's open was the last
      setup call, after the uinput forwarder's when that one is wanted. */
  lemma OpenedWithSocket(args: Args, consts: Constants, exc: Option<Exc>, at: SetupAt, t: seq<Op>, reply: nat -> Reply)
    ensures (&& Truthy(args.socketPath)
             && (args.noUInput ==> at.socket == at.claim + 1)
             && (!args.noUInput ==>
                   && at.uinput == at.claim + 1 && at.socket == at.uinput + |UInputCreateOps(reply, at.uinput, consts)|
                   && UInputOpened(reply, t, at.uinput, consts, None))
             && SocketOpened(reply, t, at.socket, args.socketPath.value, exc)
             && at.end == at.socket + |SocketSink.ConnectOps(reply, at.socket, args.socketPath.value)|)
            ==> OpenedInWorld(args, consts, SocketAt(args) + 1, exc, at, t, reply)
    ensures Truthy(args.socketPath) ==>
      OpenedPorts(args, SocketAt(args) + 1, exc.Some?, at)
      == (if args.noUInput then [] else [UInputPort(Some(at.uinput))]) + (if exc.None? then [SocketPort(Some(at.socket))] else [])
  {
    if && Truthy(args.socketPath)
       && (args.noUInput ==> at.socket == at.claim + 1)
       && (!args.noUInput ==>
             && at.uinput == at.claim + 1 && at.socket == at.uinput + |UInputCreateOps(reply, at.uinput, consts)|
             && UInputOpened(reply, t, at.uinput, consts, None))
       && SocketOpened(reply, t, at.socket, args.socketPath.value, exc)
       && at.end == at.socket + |SocketSink.ConnectOps(reply, at.socket, args.socketPath.value)|
    {
      assert OpenedParts(args, consts, SocketAt(args) + 1, exc, at, t, reply);
    }
  }

  ghost predicate SetupInWorld(args: Args, consts: Constants, dev: Device, issued: nat, exc: Option<Exc>, detached: bool,
                               at: SetupAt, t: seq<Op>, reply: nat -> Reply)
  {
    && AcquiredInWorld(args, consts, dev, issued, exc, detached, at, t, reply)
    && OpenedInWorld(args, consts, issued, exc, at, t, reply)
  }

  /** How a setup of `issued` calls ended, the last raising `exc`: the calls
      follow the plan and stop at the first exception, the driver was only
      detached when asked and the detach returned, `forwarders` forwarders were
      registered, and the calls sit in `t` from `at.unlock` to its end. */
  ghost predicate SetupEnded(args: Args, consts: Constants, dev: Device, issued: nat, exc: Option<Exc>, detached: bool,
                             forwarders: nat, at: SetupAt, t: seq<Op>, reply: nat -> Reply)
  {
    && 1 <= issued <= |SetupPlan(args)|
    && (exc.None? ==> issued == |SetupPlan(args)|)
    && (issued < |SetupPlan(args)| ==> exc.Some?)
    && (detached ==> args.forceDetach && ReturnedAt(issued, exc.Some?, 1))
    && forwarders == OpenedCount(args, issued, exc.Some?)
    && at.unlock <= at.end == |t|
    && SetupInWorld(args, consts, dev, issued, exc, detached, at, t, reply)
  }

  /** How the `try` body of one `_serve_device` went: how many setup calls
      it made and what the last one raised, whether the driver was detached,
      the pump's log and exception; where its calls sit in the trace, which
      it leaves at `end`. */
  datatype BodyRun = BodyRun(
    setupIssued: nat,
    setupExc: Option<Exc>,
    detached: bool,
    pump: seq<Step>,
    pumpExc: Option<Exc>,
    at: SetupAt,
    pumped: PumpTrace,
    end: nat)

  /** After `issued` setup calls, the last of which raised when `failed`,
      the call at index `k` was made and returned normally. */
  predicate ReturnedAt(issued: nat, failed: bool, k: nat)
  {
    k < issued && !(k + 1 == issued && failed)
  }

  predicate Returned(run: BodyRun, k: nat)
  {
    ReturnedAt(run.setupIssued, run.setupExc.Some?, k)
  }

  predicate Claimed(args: Args, run: BodyRun) { Returned(run, ClaimAt(args)) }

  /** The forwarders registered after `issued` setup calls. */
  function OpenedCount(args: Args, issued: nat, failed: bool): nat
  {
    (if !args.noUInput && ReturnedAt(issued, failed, UInputAt(args)) then 1 else 0)
    + (if Truthy(args.socketPath) && ReturnedAt(issued, failed, SocketAt(args)) then 1 else 0)
  }

  function SinkCount(args: Args, run: BodyRun): nat
  {
    OpenedCount(args, run.setupIssued, run.setupExc.Some?)
  }

  /** The states of the forwarders registered after `issued` setup calls:
      the uinput forwarder holds the descriptor of its open at `at.uinput`,
      the socket sink the socket it created at `at.socket`. */
  function OpenedPorts(args: Args, issued: nat, failed: bool, at: SetupAt): (ports: seq<Port>)
    ensures |ports| == OpenedCount(args, issued, failed)
  {
    (if !args.noUInput && ReturnedAt(issued, failed, UInputAt(args)) then [UInputPort(Some(at.uinput))] else [])
    + (if Truthy(args.socketPath) && ReturnedAt(issued, failed, SocketAt(args)) then [SocketPort(Some(at.socket))] else [])
  }

  /** The states of the forwarders when the body ends: as the setup left
      them, or as the pump's rounds left them. */
  ghost function BodyEndPorts(args: Args, consts: Constants, run: BodyRun, reply: nat -> Reply): seq<Port>
  {
    if PumpRan(args, run) then Pumped(StylusRead(args, consts), run.pumped.ports, reply, run.pumped.from, PumpRounds(run.pumpExc, run.pumped)).ports
    else OpenedPorts(args, run.setupIssued, run.setupExc.Some?, run.at)
  }

  /** A body that stopped in the setup logs the setup calls made. */
  lemma BodyStepsStopped(args: Args, run: BodyRun)
    requires run.setupIssued <= |SetupPlan(args)| && run.setupExc.Some?
    ensures BodySteps(args, run) == SetupPlan(args)[..run.setupIssued]
  {
  }

  /** A body that finished its setup logs the whole plan, then the early
      return or the pump. */
  lemma BodyStepsDone(args: Args, run: BodyRun)
    requires SetupDone(args, run)
    ensures BodySteps(args, run) == SetupPlan(args) + (if SinkCount(args, run) == 0 then [NoTargets] else run.pump)
  {
    assert SetupPlan(args)[..run.setupIssued] == SetupPlan(args);
  }

  predicate SetupDone(args: Args, run: BodyRun)
  {
    run.setupIssued == |SetupPlan(args)| && run.setupExc.None?
  }

  function BodySteps(args: Args, run: BodyRun): seq<Step>
    requires run.setupIssued <= |SetupPlan(args)|
  {
    if !SetupDone(args, run) then SetupPlan(args)[..run.setupIssued]
    else if SinkCount(args, run) == 0 then SetupPlan(args)[..run.setupIssued] + [NoTargets]
    else SetupPlan(args)[..run.setupIssued] + run.pump
  }

  /** What leaves the `try` body. */
  function BodyExc(args: Args, run: BodyRun): Option<Exc>
  {
    if run.setupExc.Some? then run.setupExc
    else if SetupDone(args, run) && SinkCount(args, run) > 0 then run.pumpExc
    else None
  }

  predicate PumpStep(s: Step) { s.ReadReport? || s.Forwarded? }

  predicate PumpRan(args: Args, run: BodyRun)
  {
    SetupDone(args, run) && SinkCount(args, run) > 0
  }

  /** The body against the trace: the setup calls inside `at.unlock ..
      at.end`, then the pump's reads up to `end`. */
  ghost predicate BodyInWorld(args: Args, consts: Constants, dev: Device, run: BodyRun, t: seq<Op>, reply: nat -> Reply)
  {
    run in Bodies(args, consts, dev, t, reply)
  }

  /** The bodies for `dev` the trace admits; membership is one fact to a
      caller, like `Sessions`. */
  ghost function Bodies(args: Args, consts: Constants, dev: Device, t: seq<Op>, reply: nat -> Reply): iset<BodyRun>
  {
    iset run | BodyParts(args, consts, dev, run, t, reply)
  }

  ghost predicate BodyParts(args: Args, consts: Constants, dev: Device, run: BodyRun, t: seq<Op>, reply: nat -> Reply)
  {
    && run.at.unlock <= run.at.end <= run.end <= |t|
    && SetupPartInWorld(args, consts, dev, run, t, reply)
    && PumpPartInWorld(args, consts, run, t, reply)
  }

  /** The setup calls of the body sit in `t` before `at.end`. */
  ghost predicate SetupPartInWorld(args: Args, consts: Constants, dev: Device, run: BodyRun, t: seq<Op>, reply: nat -> Reply)
  {
    run.at.end <= |t|
    && SetupInWorld(args, consts, dev, run.setupIssued, run.setupExc, run.detached, run.at, t[..run.at.end], reply)
  }

  /** The pump of the body, when it ran, read from `at.end` to `end`. */
  ghost predicate PumpPartInWorld(args: Args, consts: Constants, run: BodyRun, t: seq<Op>, reply: nat -> Reply)
  {
    && (!PumpRan(args, run) ==> run.end == run.at.end)
    && (PumpRan(args, run) ==>
          && run.pump == Rounds(run.pumped.samples, SinkCount(args, run)) + run.pumped.partial
          && run.pumped.from == run.at.end && run.pumped.to == run.end && run.end <= |t|
          && run.pumped.ports == OpenedPorts(args, run.setupIssued, run.setupExc.Some?, run.at)
          && PumpInWorld(StylusRead(args, consts), SinkCount(args, run), run.pumpExc, run.pumped, t[..run.end], reply))
  }

  predicate WellFormedBody(args: Args, run: BodyRun)
  {
    && 1 <= run.setupIssued <= |SetupPlan(args)|
    && (run.setupIssued < |SetupPlan(args)| ==> run.setupExc.Some?)
    && (run.detached ==> args.forceDetach && Returned(run, 1))
    && ((run.pump != [] || run.pumpExc.Some?) ==> SetupDone(args, run) && SinkCount(args, run) > 0)
    && (forall i :: 0 <= i < |run.pump| ==> PumpStep(run.pump[i]))
  }

  /** A body that ended with `exc`, leaving the trace at `t`. */
  ghost predicate BodyEnded(args: Args, consts: Constants, dev: Device, run: BodyRun, exc: Option<Exc>,
                            t: seq<Op>, reply: nat -> Reply)
  {
    WellFormedBody(args, run) && BodyExc(args, run) == exc && run.end == |t| && BodyInWorld(args, consts, dev, run, t, reply)
  }

  /** A body whose setup raised or opened no forwarder ends with the
      setup: it pumps nothing. */
  lemma BodyOfSetup(args: Args, consts: Constants, dev: Device, issued: nat, exc: Option<Exc>, detached: bool,
                    forwarders: nat, at: SetupAt, t: seq<Op>, reply: nat -> Reply)
    requires SetupEnded(args, consts, dev, issued, exc, detached, forwarders, at, t, reply)
    requires exc.Some? || forwarders == 0
    ensures var run := BodyRun(issued, exc, detached, [], None, at, PumpTrace([], [], [], 0, at.end, at.end, []), at.end);
      && BodyEnded(args, consts, dev, run, exc, t, reply) && !PumpRan(args, run)
      && BodySteps(args, run) == SetupPlan(args)[..issued] + (if exc.None? then [NoTargets] else [])
  {
    assert t[..|t|] == t;
  }

  /** A body whose setup went through and opened forwarders ends with the
      pump's rounds. */
  lemma BodyOfPump(args: Args, consts: Constants, dev: Device, detached: bool, forwarders: nat, at: SetupAt, p: PumpTrace,
                   exc: Option<Exc>, t: seq<Op>, t': seq<Op>, reply: nat -> Reply)
    requires SetupEnded(args, consts, dev, |SetupPlan(args)|, None, detached, forwarders, at, t, reply) && forwarders > 0
    requires t <= t' && p.from == |t| && p.to == |t'| && p.ports == OpenedPorts(args, |SetupPlan(args)|, false, at)
    requires PumpInWorld(StylusRead(args, consts), OpenedCount(args, |SetupPlan(args)|, false), exc, p, t', reply)
    ensures var n := OpenedCount(args, |SetupPlan(args)|, false);
      var run := BodyRun(|SetupPlan(args)|, None, detached, Rounds(p.samples, n) + p.partial, exc, at, p, |t'|);
      && BodyEnded(args, consts, dev, run, exc, t', reply) && PumpRan(args, run)
      && BodySteps(args, run) == SetupPlan(args) + run.pump
  {
    var n := OpenedCount(args, |SetupPlan(args)|, false);
    var run := BodyRun(|SetupPlan(args)|, None, detached, Rounds(p.samples, n) + p.partial, exc, at, p, |t'|);
    PumpBodyShape(args, run);
    PumpBodyInWorld(args, consts, dev, run, t, t', reply);
  }

  /** The setup's calls up to `t`, then the pump's, make the body's. */
  lemma PumpBodyInWorld(args: Args, consts: Constants, dev: Device, run: BodyRun, t: seq<Op>, t': seq<Op>, reply: nat -> Reply)
    requires PumpRan(args, run) && run.at.unlock <= run.at.end == |t| && t <= t' && run.end == |t'|
    requires SetupInWorld(args, consts, dev, run.setupIssued, run.setupExc, run.detached, run.at, t, reply)
    requires run.pump == Rounds(run.pumped.samples, SinkCount(args, run)) + run.pumped.partial
    requires run.pumped.from == |t| && run.pumped.to == |t'|
    requires run.pumped.ports == OpenedPorts(args, run.setupIssued, run.setupExc.Some?, run.at)
    requires PumpInWorld(StylusRead(args, consts), SinkCount(args, run), run.pumpExc, run.pumped, t', reply)
    ensures BodyInWorld(args, consts, dev, run, t', reply)
  {
    SetupPartOfPrefix(args, consts, dev, run, t, t', reply);
    PumpPartOfWhole(args, consts, run, t', reply);
  }

  /** Setup calls recorded against the trace at the end of the setup stay
      recorded in a longer trace. */
  lemma SetupPartOfPrefix(args: Args, consts: Constants, dev: Device, run: BodyRun, t: seq<Op>, t': seq<Op>, reply: nat -> Reply)
    requires run.at.end == |t| && t <= t'
    requires SetupInWorld(args, consts, dev, run.setupIssued, run.setupExc, run.detached, run.at, t, reply)
    ensures SetupPartInWorld(args, consts, dev, run, t', reply)
  {
    assert t'[..run.at.end] == t;
  }

  /** A pump that ran up to the end of `t` is the body's pump part in `t`. */
  lemma PumpPartOfWhole(args: Args, consts: Constants, run: BodyRun, t: seq<Op>, reply: nat -> Reply)
    requires PumpRan(args, run) && run.end == |t|
    requires run.pump == Rounds(run.pumped.samples, SinkCount(args, run)) + run.pumped.partial
    requires run.pumped.from == run.at.end && run.pumped.to == run.end
    requires run.pumped.ports == OpenedPorts(args, run.setupIssued, run.setupExc.Some?, run.at)
    requires PumpInWorld(StylusRead(args, consts), SinkCount(args, run), run.pumpExc, run.pumped, t, reply)
    ensures PumpPartInWorld(args, consts, run, t, reply)
  {
    assert t[..run.end] == t;
  }

  /** The log and the exception of a body whose setup went through and
      whose pump logged its rounds, the last perhaps cut short. */
  lemma PumpBodyShape(args: Args, run: BodyRun)
    requires SetupDone(args, run) && SinkCount(args, run) > 0
    requires run.detached ==> args.forceDetach && Returned(run, 1)
    requires run.pump == Rounds(run.pumped.samples, SinkCount(args, run)) + run.pumped.partial
    requires run.pumped.partial == [] || IsRoundPrefix(run.pumped.partial, SinkCount(args, run))
    ensures WellFormedBody(args, run) && BodyExc(args, run) == run.pumpExc && PumpRan(args, run)
    ensures BodySteps(args, run) == SetupPlan(args) + run.pump
  {
    RoundsArePumpSteps(run.pumped.samples, SinkCount(args, run), run.pumped.partial);
    assert SetupPlan(args)[..|SetupPlan(args)|] == SetupPlan(args);
  }

  // ---------------------------------------------------------------------
  // Serving one device: the `except` and `finally`

  /** What the `except usb.core.USBError` leaves pending: every exception
      but a `USBError`. */
  function Pending(bodyExc: Option<Exc>): (p: Option<Exc>)
    ensures p.None? <==> bodyExc.None? || bodyExc.value.USBError?
    ensures p.Some? ==> p == bodyExc
  {
    if bodyExc.Some? && !bodyExc.value.USBError? then bodyExc else None
  }

  /** How the `finally` block went: how many forwarders it closed and what
      the last close raised, what the release and `force_set_alt` raised;
      where its calls sit in the trace (the closes from `closeAt`, the rest
      from `tailAt` to `end`) and the states of the forwarders it closed. */
  datatype TeardownRun = TeardownRun(
    closesIssued: nat,
    closeExc: Option<Exc>,
    releaseExc: Option<Exc>,
    setAltExc: Option<Exc>,
    tailAt: nat,
    end: nat,
    closeAt: nat,
    ports: seq<Port>)

  /** The calls of the end of the `finally` block, unless `--skip-set-alt`:
      the re-attach of a detached driver, then `force_set_alt`. */
  function ResetOps(args: Args, dev: Device, iface: int, detached: bool): seq<Op>
  {
    if args.skipSetAlt then []
    else (if detached then [AttachKernelDriver(iface)] else []) + UsbIo.SetAltOps(dev, iface)
  }

  /** What the release of a claimed interface raises, given the replies from `at` on. */
  function TailRelease(reply: nat -> Reply, at: nat, claimed: bool): Option<Exc>
  {
    if claimed then UsbIo.ReleaseOutcome(reply(at), reply(at + 1)) else None
  }

  /** The calls the `finally` block makes once every forwarder is closed,
      given the replies from `at` on: the release of a claimed interface,
      then, unless it raised, the re-attach and `force_set_alt`. */
  function TailOps(reply: nat -> Reply, at: nat, args: Args, dev: Device, iface: int, claimed: bool, detached: bool): seq<Op>
  {
    if !claimed then ResetOps(args, dev, iface, detached)
    else if TailRelease(reply, at, claimed).Some? then [ReleaseInterface(iface), DisposeResources]
    else [ReleaseInterface(iface), DisposeResources] + ResetOps(args, dev, iface, detached)
  }

  /** What `force_set_alt` raises at the end of the `finally` block, given
      the replies from `at` on. */
  function TailSetAlt(reply: nat -> Reply, at: nat, args: Args, dev: Device, claimed: bool, detached: bool): Option<Exc>
  {
    if args.skipSetAlt || TailRelease(reply, at, claimed).Some? then None
    else UsbIo.SetAltResult(reply, at + (if claimed then 2 else 0) + (if detached then 1 else 0), dev)
  }

  /** The close loop against the trace: from `closeAt` to `tailAt`, exactly
      the calls of `close` on the forwarders in states `ports`, in
      registration order up to the first that raised, and `closeExc` is
      what that one raised. */
  ghost predicate ClosesInWorld(td: TeardownRun, t: seq<Op>, reply: nat -> Reply)
  {
    var d := ClosedAll(td.ports, reply, td.closeAt);
    && td.closeAt + |d.calls| == td.tailAt <= |t| && t[td.closeAt .. td.tailAt] == d.calls
    && td.closeExc == d.exc && td.closesIssued == d.reached
  }

  /** The part of the teardown after the closes against the trace: when every
      close returned, exactly the calls of `TailOps` from `tailAt` to `end`,
      with the exceptions they give. */
  ghost predicate TailInWorld(args: Args, consts: Constants, dev: Device, claimed: bool, detached: bool,
                              td: TeardownRun, t: seq<Op>, reply: nat -> Reply)
  {
    && td.tailAt <= td.end <= |t|
    && (td.closeExc.Some? ==> td.tailAt == td.end)
    && (td.closeExc.None? ==>
          var ops := TailOps(reply, td.tailAt, args, dev, consts.stylusInterface, claimed, detached);
          && td.end == td.tailAt + |ops| && t[td.tailAt .. td.end] == ops
          && td.releaseExc == TailRelease(reply, td.tailAt, claimed)
          && td.setAltExc == TailSetAlt(reply, td.tailAt, args, dev, claimed, detached))
  }

  function CloseSteps(n: nat): (steps: seq<Step>)
    ensures |steps| == n && forall i :: 0 <= i < n ==> steps[i] == CloseSink(i)
  {
    seq(n, i requires 0 <= i < n => CloseSink(i))
  }

  function TeardownSteps(args: Args, claimed: bool, detached: bool, t: TeardownRun): seq<Step>
  {
    if t.closeExc.Some? then CloseSteps(t.closesIssued)
    else CloseSteps(t.closesIssued) + ReleaseOnwards(args, claimed, detached, t.releaseExc)
  }

  /** What the teardown does once every forwarder is closed. */
  function ReleaseOnwards(args: Args, claimed: bool, detached: bool, releaseExc: Option<Exc>): seq<Step>
  {
    if !claimed then ReattachOnwards(args, detached)
    else if releaseExc.Some? then [Release]
    else [Release] + ReattachOnwards(args, detached)
  }

  /** What the teardown does once the interface is released. */
  function ReattachOnwards(args: Args, detached: bool): seq<Step>
  {
    if args.skipSetAlt then [] else if detached then [Attach, SetAlt] else [SetAlt]
  }

  /** An exception raised in the `finally` block replaces the pending one. */
  function TeardownExc(t: TeardownRun, pending: Option<Exc>): Option<Exc>
  {
    if t.closeExc.Some? then t.closeExc
    else if t.releaseExc.Some? then t.releaseExc
    else if t.setAltExc.Some? then t.setAltExc
    else pending
  }

  predicate WellFormedTeardown(args: Args, claimed: bool, sinks: nat, t: TeardownRun)
  {
    && t.closesIssued <= sinks
    && (t.closeExc.None? ==> t.closesIssued == sinks)
    && (t.closeExc.Some? ==> t.closesIssued >= 1)
    && (t.releaseExc.Some? ==> claimed && t.closeExc.None?)
    && (t.setAltExc.Some? ==> !args.skipSetAlt && t.closeExc.None? && t.releaseExc.None?)
  }

  /** One `_serve_device`, body and teardown. */
  datatype ServeRun = ServeRun(args: Args, body: BodyRun, teardown: TeardownRun)

  predicate WellFormedServe(run: ServeRun)
  {
    && WellFormedBody(run.args, run.body)
    && WellFormedTeardown(run.args, Claimed(run.args, run.body), SinkCount(run.args, run.body), run.teardown)
  }

  /** A record `_serve_device` can produce. */
  type Session = run: ServeRun | WellFormedServe(run)
    witness ServeRun(
      Args(None, false, false, None, 0, false, false),
      BodyRun(1, Some(OSError), false, [], None, SetupAt(0, 0, 0, 0, 0, 0, 0), PumpTrace([], [], [], 0, 0, 0, []), 0),
      TeardownRun(0, None, None, None, 0, 0, 0, []))

  /** One `_serve_device` for `dev` against the trace: the body from
      `run.body.at.unlock`, then right after it the closes of the forwarders
      in the states the body left them in, then the rest of the teardown up
      to `run.teardown.end`. */
  ghost predicate SessionInWorld(consts: Constants, dev: Device, run: ServeRun, t: seq<Op>, reply: nat -> Reply)
  {
    run in Sessions(consts, dev, t, reply)
  }

  /** The sessions of `dev` the trace admits. A method that ends a session
      states membership here, one fact, instead of every clause below. */
  ghost function Sessions(consts: Constants, dev: Device, t: seq<Op>, reply: nat -> Reply): iset<ServeRun>
  {
    iset run | SessionParts(consts, dev, run, t, reply)
  }

  ghost predicate SessionParts(consts: Constants, dev: Device, run: ServeRun, t: seq<Op>, reply: nat -> Reply)
  {
    && BodyInWorld(run.args, consts, dev, run.body, t, reply)
    && run.teardown.closeAt == run.body.end
    && run.teardown.ports == BodyEndPorts(run.args, consts, run.body, reply)
    && ClosesInWorld(run.teardown, t, reply)
    && TailInWorld(run.args, consts, dev, Claimed(run.args, run.body), run.body.detached, run.teardown, t, reply)
  }

  function ServeSteps(run: Session): seq<Step>
  {
    BodySteps(run.args, run.body) + TeardownSteps(run.args, Claimed(run.args, run.body), run.body.detached, run.teardown)
  }

  function ServeExc(run: ServeRun): Option<Exc>
  {
    TeardownExc(run.teardown, Pending(BodyExc(run.args, run.body)))
  }

  // ---------------------------------------------------------------------
  // Properties of one session

  /** The slices of the setup plan `_acquire` walks through. */
  lemma AcquireSlices(args: Args)
    ensures var plan := SetupPlan(args); var c := ClaimAt(args);
      && UInputAt(args) <= |plan| && plan[..1] == [Unlock] && plan[1..1] == []
      && (args.forceDetach ==> plan[1..2] == [Detach])
      && plan[1..c + 1] == plan[1..c] + [Claim]
  {
  }

  /** The slices of the setup plan the forwarder creation walks through. */
  lemma OpenSlices(args: Args)
    ensures var plan := SetupPlan(args); var f := UInputAt(args); var k := SocketAt(args);
      && k == f + (if args.noUInput then 0 else 1)
      && |plan| == k + (if Truthy(args.socketPath) then 1 else 0)
      && plan[f..f] == []
      && (!args.noUInput ==> plan[f..f + 1] == [OpenUInput])
      && (Truthy(args.socketPath) ==> plan[f..k + 1] == plan[f..k] + [OpenSocket])
  {
    var plan := SetupPlan(args);
    if Truthy(args.socketPath) {
      assert plan[SocketAt(args)] == OpenSocket;
    }
  }

  /** The setup order: unlock first, the detach only with `--force-detach`,
      then the claim, then the uinput forwarder unless `--no-uinput`, then the
      socket forwarder when a socket path is given. */
  lemma SetupOrder(args: Args)
    ensures var plan := SetupPlan(args);
      && plan[0] == Unlock
      && (Detach in plan <==> args.forceDetach) && (args.forceDetach ==> plan[1] == Detach)
      && plan[ClaimAt(args)] == Claim
      && (OpenUInput in plan <==> !args.noUInput) && (!args.noUInput ==> plan[UInputAt(args)] == OpenUInput)
      && (OpenSocket in plan <==> Truthy(args.socketPath)) && (Truthy(args.socketPath) ==> plan[SocketAt(args)] == OpenSocket)
      && ClaimAt(args) < UInputAt(args) && UInputAt(args) <= SocketAt(args)
      && (forall i :: 0 <= i < |plan| && (plan[i] == OpenUInput || plan[i] == OpenSocket) ==> ClaimAt(args) < i)
  {
  }

  /** The pump's log holds only reads and forwards. */
  lemma PumpHasOnlyPumpSteps(args: Args, run: BodyRun)
    requires WellFormedBody(args, run)
    ensures forall s :: s in run.pump ==> PumpStep(s)
  {
    forall s | s in run.pump
      ensures PumpStep(s)
    {
      var i :| 0 <= i < |run.pump| && run.pump[i] == s;
    }
  }

  /** The steps of the teardown never occur in the body. */
  lemma BodyHasNoTeardown(args: Args, run: BodyRun)
    requires WellFormedBody(args, run)
    ensures forall s :: s in BodySteps(args, run) ==> !s.CloseSink? && s != Release && s != Attach && s != SetAlt
  {
    PumpHasOnlyPumpSteps(args, run);
  }

  /** Once the setup is done, the forwarders registered are the ones the
      options ask for. */
  lemma SinksWhenDone(args: Args, run: BodyRun)
    requires SetupDone(args, run)
    ensures SinkCount(args, run) == (if args.noUInput then 0 else 1) + (if Truthy(args.socketPath) then 1 else 0)
  {
    SetupOrder(args);
  }

  /** Where the early return, the reads and the claim sit in the body. */
  lemma BodyMarkers(args: Args, run: BodyRun)
    requires WellFormedBody(args, run)
    ensures NoTargets in BodySteps(args, run) <==> SetupDone(args, run) && SinkCount(args, run) == 0
    ensures ReadReport in BodySteps(args, run) ==> SetupDone(args, run) && SinkCount(args, run) > 0
    ensures SetupDone(args, run) ==> Claim in BodySteps(args, run)
  {
    var plan := SetupPlan(args);
    assert NoTargets !in plan && ReadReport !in plan;
    PumpHasOnlyPumpSteps(args, run);
    if SetupDone(args, run) {
      BodyStepsDone(args, run);
      SetupOrder(args);
      assert plan[ClaimAt(args)] == Claim;
    } else {
      BodyStepsStopped(args, run);
      assert forall s :: s in plan[..run.setupIssued] ==> s in plan;
    }
  }

  /** The teardown's log holds only teardown steps. */
  lemma TeardownStepsOnly(args: Args, claimed: bool, detached: bool, t: TeardownRun)
    ensures forall s :: s in TeardownSteps(args, claimed, detached, t) ==> TeardownStep(s)
  {
    var closes := CloseSteps(t.closesIssued);
    assert forall s :: s in closes ==> s.CloseSink?;
  }

  /** With no forwarder requested, `_serve_device` gives up after the full
      setup, the claim included, and never reads. */
  lemma NoTargetsAfterClaim(run: Session)
    ensures NoTargets in ServeSteps(run) <==> SetupDone(run.args, run.body) && run.args.noUInput && !Truthy(run.args.socketPath)
    ensures NoTargets in ServeSteps(run) ==>
      && Claimed(run.args, run.body) && Claim in ServeSteps(run)
      && ReadReport !in ServeSteps(run)
  {
    var body := run.body;
    TeardownStepsOnly(run.args, Claimed(run.args, body), body.detached, run.teardown);
    BodyMarkers(run.args, body);
    if SetupDone(run.args, body) {
      SinksWhenDone(run.args, body);
    }
  }

  /** The teardown closes the forwarders in registration order, right after
      the body. */
  lemma ClosesInRegistrationOrder(run: Session)
    ensures var body := BodySteps(run.args, run.body);
      && |ServeSteps(run)| >= |body| + run.teardown.closesIssued
      && (forall i :: 0 <= i < run.teardown.closesIssued ==> ServeSteps(run)[|body| + i] == CloseSink(i))
      && (run.teardown.closeExc.None? ==> run.teardown.closesIssued == SinkCount(run.args, run.body))
  {
  }

  predicate TeardownStep(s: Step) { s.CloseSink? || s == Release || s == Attach || s == SetAlt }

  /** The release, re-attach and `set_alt` steps of a session are those of
      the part of the teardown after the closes, which only runs when every
      close returned. */
  lemma TeardownTail(run: Session, x: Step)
    requires x == Release || x == Attach || x == SetAlt
    ensures x in ServeSteps(run) <==>
      run.teardown.closeExc.None? && x in ReleaseOnwards(run.args, Claimed(run.args, run.body), run.body.detached, run.teardown.releaseExc)
    ensures run.teardown.closeExc.None? ==>
      ServeSteps(run) == BodySteps(run.args, run.body) + CloseSteps(run.teardown.closesIssued)
        + ReleaseOnwards(run.args, Claimed(run.args, run.body), run.body.detached, run.teardown.releaseExc)
  {
    BodyHasNoTeardown(run.args, run.body);
    assert x !in CloseSteps(run.teardown.closesIssued);
  }

  /** When every close returned, the interface is released exactly when it
      was claimed. */
  lemma ReleaseIffClaimed(run: Session)
    ensures run.teardown.closeExc.None? ==> (Release in ServeSteps(run) <==> Claimed(run.args, run.body))
  {
    TeardownTail(run, Release);
  }

  /** The re-attach needs a detached driver and no `--skip-set-alt`; the
      `set_alt` recovery needs no `--skip-set-alt` and is the last step. Both
      happen whenever they may and neither the closes nor the release raised. */
  lemma ReattachAndSetAltGates(run: Session)
    ensures Attach in ServeSteps(run) ==> run.body.detached && !run.args.skipSetAlt
    ensures SetAlt in ServeSteps(run) ==> !run.args.skipSetAlt && ServeSteps(run)[|ServeSteps(run)| - 1] == SetAlt
    ensures run.teardown.closeExc.None? && run.teardown.releaseExc.None? ==>
      && (Attach in ServeSteps(run) <==> run.body.detached && !run.args.skipSetAlt)
      && (SetAlt in ServeSteps(run) <==> !run.args.skipSetAlt)
  {
    TeardownTail(run, Attach);
    TeardownTail(run, SetAlt);
  }

  /** A close that raises ends the teardown: no release, no re-attach, no
      `set_alt`, and its exception is the one that leaves. */
  lemma CloseExceptionSkipsTeardown(run: Session)
    requires run.teardown.closeExc.Some?
    ensures Release !in ServeSteps(run) && Attach !in ServeSteps(run) && SetAlt !in ServeSteps(run)
    ensures ServeExc(run) == run.teardown.closeExc
  {
    TeardownTail(run, Release);
    TeardownTail(run, Attach);
    TeardownTail(run, SetAlt);
  }

  /** Only a `USBError` from the body is swallowed: with a clean teardown,
      `_serve_device` returns normally exactly when the body did or raised a
      `USBError`, and otherwise raises what the body raised. */
  lemma OnlyUsbErrorsSwallowed(run: ServeRun)
    requires run.teardown.closeExc.None? && run.teardown.releaseExc.None? && run.teardown.setAltExc.None?
    ensures ServeExc(run).None? <==> BodyExc(run.args, run.body).None? || BodyExc(run.args, run.body).value.USBError?
    ensures ServeExc(run).Some? ==> ServeExc(run) == BodyExc(run.args, run.body)
  {
  }

  /** The pump runs only once the interface is claimed and some forwarder is
      registered. */
  lemma ReadsOnlyAfterClaim(run: Session)
    ensures ReadReport in ServeSteps(run) ==> Claimed(run.args, run.body) && SinkCount(run.args, run.body) > 0
  {
    var body := run.body;
    assert ReadReport !in SetupPlan(run.args);
    assert ReadReport !in TeardownSteps(run.args, Claimed(run.args, body), body.detached, run.teardown);
    if ReadReport in ServeSteps(run) {
      assert ReadReport in body.pump;
      assert SetupDone(run.args, body);
      assert Returned(body, ClaimAt(run.args));
    }
  }

  // ---------------------------------------------------------------------
  // One session against the trace

  /** The unlock, detach and claim recorded against a trace stay recorded as
      the trace grows. */
  lemma AcquiredKept(args: Args, consts: Constants, dev: Device, issued: nat, exc: Option<Exc>, detached: bool,
                     at: SetupAt, t: seq<Op>, t': seq<Op>, reply: nat -> Reply)
    requires AcquiredInWorld(args, consts, dev, issued, exc, detached, at, t, reply) && t <= t'
    ensures AcquiredInWorld(args, consts, dev, issued, exc, detached, at, t', reply)
  {
    UnlockRanKept(reply, t, t', at.unlock, consts.reportLengths, at.unlockIssued, StepExc(issued, exc, 0));
    if args.forceDetach && issued > 1 {
      DetachRanKept(reply, t, t', at.detach, dev, consts.stylusInterface, StepExc(issued, exc, 1), detached);
    }
    if issued > ClaimAt(args) {
      SliceKept(t, t', at.claim, at.claim + 1);
    }
  }

  /** A setup that stopped at the unlock, the detach or the claim. */
  lemma SetupOfAcquire(args: Args, consts: Constants, dev: Device, issued: nat, exc: Option<Exc>, detached: bool,
                       at: SetupAt, t: seq<Op>, reply: nat -> Reply)
    requires 1 <= issued <= UInputAt(args) && exc.Some? && (detached ==> args.forceDetach && ReturnedAt(issued, true, 1))
    requires at.unlock <= at.end == |t| && AcquiredInWorld(args, consts, dev, issued, exc, detached, at, t, reply)
    ensures SetupEnded(args, consts, dev, issued, exc, detached, 0, at, t, reply)
  {
  }

  /** A setup whose unlock, detach and claim went through up to `t1`,
      followed by the creation of the forwarders up to `t`. */
  lemma SetupOfOpen(args: Args, consts: Constants, dev: Device, issued: nat, exc: Option<Exc>, detached: bool,
                    forwarders: nat, at0: SetupAt, at: SetupAt, t1: seq<Op>, t: seq<Op>, reply: nat -> Reply)
    requires AcquiredInWorld(args, consts, dev, UInputAt(args), None, detached, at0, t1, reply)
    requires detached ==> args.forceDetach && ReturnedAt(UInputAt(args), false, 1)
    requires at0.unlock <= |t1| == at0.claim + 1 && t1 <= t
    requires at == at0.(uinput := at.uinput, socket := at.socket, end := |t|)
    requires UInputAt(args) <= issued <= |SetupPlan(args)| && (exc.None? ==> issued == |SetupPlan(args)|)
    requires issued < |SetupPlan(args)| ==> exc.Some?
    requires exc.Some? ==> issued > UInputAt(args)
    requires issued == UInputAt(args) ==> |t| == |t1|
    requires forwarders == OpenedCount(args, issued, exc.Some?)
    requires OpenedInWorld(args, consts, issued, exc, at, t, reply)
    ensures SetupEnded(args, consts, dev, issued, exc, detached, forwarders, at, t, reply)
  {
    AcquiredKept(args, consts, dev, UInputAt(args), None, detached, at0, t1, t, reply);
    assert AcquiredInWorld(args, consts, dev, issued, exc, detached, at, t, reply);
  }

  /** A body recorded against a trace stays recorded as the trace grows. */
  lemma BodyKept(args: Args, consts: Constants, dev: Device, run: BodyRun, t: seq<Op>, t': seq<Op>, reply: nat -> Reply)
    requires BodyInWorld(args, consts, dev, run, t, reply) && t <= t'
    ensures BodyInWorld(args, consts, dev, run, t', reply)
  {
    SliceKept(t, t', 0, run.at.end);
    SliceKept(t, t', 0, run.end);
  }

  /** A body that left the trace at `t1`, followed by a teardown whose
      calls start there and end the trace, makes a session. */
  lemma SessionOfParts(args: Args, consts: Constants, dev: Device, body: BodyRun, bodyExc: Option<Exc>,
                       td: TeardownRun, t1: seq<Op>, t: seq<Op>, reply: nat -> Reply)
    requires BodyEnded(args, consts, dev, body, bodyExc, t1, reply)
    requires t1 <= t && td.closeAt == |t1| && td.end == |t|
    requires td.ports == BodyEndPorts(args, consts, body, reply) && ClosesInWorld(td, t, reply)
    requires TailInWorld(args, consts, dev, Claimed(args, body), body.detached, td, t, reply)
    ensures SessionInWorld(consts, dev, ServeRun(args, body, td), t, reply)
  {
    BodyKept(args, consts, dev, body, t1, t, reply);
  }

  /** `SessionOfParts` with its premises as the antecedent, for a caller
      that holds them all. */
  lemma SessionFromParts(args: Args, consts: Constants, dev: Device, body: BodyRun, bodyExc: Option<Exc>,
                         td: TeardownRun, t1: seq<Op>, t: seq<Op>, reply: nat -> Reply)
    ensures
      (&& BodyEnded(args, consts, dev, body, bodyExc, t1, reply)
       && t1 <= t && td.closeAt == |t1| && td.end == |t|
       && td.ports == BodyEndPorts(args, consts, body, reply) && ClosesInWorld(td, t, reply)
       && TailInWorld(args, consts, dev, Claimed(args, body), body.detached, td, t, reply))
      ==> SessionInWorld(consts, dev, ServeRun(args, body, td), t, reply)
  {
    if && BodyEnded(args, consts, dev, body, bodyExc, t1, reply)
       && t1 <= t && td.closeAt == |t1| && td.end == |t|
       && td.ports == BodyEndPorts(args, consts, body, reply) && ClosesInWorld(td, t, reply)
       && TailInWorld(args, consts, dev, Claimed(args, body), body.detached, td, t, reply)
    {
      SessionOfParts(args, consts, dev, body, bodyExc, td, t1, t, reply);
    }
  }

  /** A session recorded against a trace stays recorded as the trace grows. */
  lemma SessionKept(consts: Constants, dev: Device, run: ServeRun, t: seq<Op>, t': seq<Op>, reply: nat -> Reply)
    requires SessionInWorld(consts, dev, run, t, reply) && t <= t'
    ensures SessionInWorld(consts, dev, run, t', reply)
  {
    BodyKept(run.args, consts, dev, run.body, t, t', reply);
    SliceKept(t, t', run.teardown.closeAt, run.teardown.tailAt);
    SliceKept(t, t', run.teardown.tailAt, run.teardown.end);
  }

  /** The session's claim: `Claimed` holds exactly when the claim call was
      made and returned normally. */
  lemma ClaimedIffClaimReturned(consts: Constants, dev: Device, run: Session, t: seq<Op>, reply: nat -> Reply)
    requires SessionInWorld(consts, dev, run, t, reply)
    ensures Claimed(run.args, run.body) <==>
      && run.body.setupIssued > ClaimAt(run.args) && run.body.at.claim < |t|
      && t[run.body.at.claim] == ClaimInterface(consts.stylusInterface) && !Failed(reply(run.body.at.claim))
  {
    var body := run.body;
    var b := t[..body.at.end];
    if body.setupIssued > ClaimAt(run.args) {
      assert ClaimRan(reply, b, body.at.claim, consts.stylusInterface, StepExc(body.setupIssued, body.setupExc, ClaimAt(run.args)));
    }
  }

  /** Every read of the stylus endpoint in the body comes after the claim,
      and that claim returned normally. */
  lemma ReadsFollowClaim(consts: Constants, dev: Device, run: Session, t: seq<Op>, reply: nat -> Reply)
    requires SessionInWorld(consts, dev, run, t, reply)
    ensures forall q :: run.body.at.end <= q < run.body.end && t[q] == StylusRead(run.args, consts) ==>
      && Claimed(run.args, run.body) && run.body.at.claim < q
      && t[run.body.at.claim] == ClaimInterface(consts.stylusInterface) && !Failed(reply(run.body.at.claim))
  {
    var body := run.body;
    if PumpRan(run.args, body) {
      ClaimedIffClaimReturned(consts, dev, run, t, reply);
      var b := t[..body.at.end];
      assert ClaimRan(reply, b, body.at.claim, consts.stylusInterface, StepExc(body.setupIssued, body.setupExc, ClaimAt(run.args)));
    }
  }

  /** The calls after the closes: the interface is released exactly when it
      was claimed; the driver is re-attached exactly when it was detached,
      there is no `--skip-set-alt` and the release did not raise; for a device
      with a bus and an address, the `usbconfig` command is the last call
      exactly under the same two conditions. */
  lemma TailGates(reply: nat -> Reply, at: nat, args: Args, dev: Device, iface: int, claimed: bool, detached: bool)
    ensures var ops := TailOps(reply, at, args, dev, iface, claimed, detached);
      && (ReleaseInterface(iface) in ops <==> claimed)
      && (AttachKernelDriver(iface) in ops <==> detached && !args.skipSetAlt && TailRelease(reply, at, claimed).None?)
      && (dev.bus.Some? && dev.address.Some? ==>
            ((|ops| > 0 && ops[|ops| - 1] == RunCommand(UsbIo.SetAltCommand(dev.bus.value, dev.address.value, iface)))
              <==> (!args.skipSetAlt && TailRelease(reply, at, claimed).None?)))
  {
    var reset := ResetOps(args, dev, iface, detached);
    assert ReleaseInterface(iface) !in reset;
    assert AttachKernelDriver(iface) in reset <==> detached && !args.skipSetAlt;
  }

  // ---------------------------------------------------------------------
  // The daemon

  /** How one pass of the scan loop went: the enumeration at `at` found no
      tablet, or found `dev`, which was served. */
  datatype ScanRound = NotFound(at: nat) | Served(dev: Device, run: Session, at: nat)

  function RoundLog(r: ScanRound): seq<Step>
  {
    match r
    case NotFound(_) => [Scan, Rescan]
    case Served(_, run, _) => [Scan] + ServeSteps(run) + [Pause]
  }

  /** Where a pass ends: after the scan-interval sleep, or after the
      one-second sleep that follows the session. */
  function RoundEnd(r: ScanRound): nat
  {
    match r
    case NotFound(at) => at + 2
    case Served(_, run, _) => run.teardown.end + 1
  }

  /** A pass against the trace: the enumeration with the tablet's ids at
      `at`; then either the scan-interval sleep, when the selection found
      nothing, or the session of the device the selection picked (the first
      the selector takes), right after the enumeration, and the one-second
      sleep right after the session. */
  ghost predicate RoundInWorld(consts: Constants, args: Args, selector: Option<string>, r: ScanRound, t: seq<Op>, reply: nat -> Reply)
  {
    && RoundEnd(r) <= |t| && r.at < |t| && t[r.at] == Enumerate(consts.vendorId, consts.productId)
    && match r
       case NotFound(at) =>
         UsbIo.FindOutcome(reply(at), selector, Err(TabletNotFoundError)) && t[at + 1] == Sleep(ScanInterval)
       case Served(dev, run, at) =>
         && UsbIo.FindOutcome(reply(at), selector, Ok(dev))
         && run.args == args && run.body.at.unlock == at + 1
         && SessionInWorld(consts, dev, run, t, reply)
         && t[run.teardown.end] == Sleep(OneSecond)
  }

  /** A pass that raised `exc`, against the trace it ends: the enumeration
      at `at` raised it (anything but `TabletNotFoundError`, which is a
      rescan), or the session of the device the selection picked did, and
      no sleep followed. */
  ghost predicate RoundRaised(consts: Constants, args: Args, selector: Option<string>, r: ScanRound, exc: Exc,
                              t: seq<Op>, reply: nat -> Reply)
  {
    && r.at < |t| && t[r.at] == Enumerate(consts.vendorId, consts.productId)
    && match r
       case NotFound(at) =>
         |t| == at + 1 && exc != TabletNotFoundError && UsbIo.FindOutcome(reply(at), selector, Err(exc))
       case Served(dev, run, at) =>
         && UsbIo.FindOutcome(reply(at), selector, Ok(dev))
         && run.args == args && run.body.at.unlock == at + 1 && run.teardown.end == |t|
         && SessionInWorld(consts, dev, run, t, reply)
         && ServeExc(run) == Some(exc)
  }

  /** The log of a pass that raised: the scan, then the session if there was one. */
  function RaisedLog(r: ScanRound): seq<Step>
  {
    match r
    case NotFound(_) => [Scan]
    case Served(_, run, _) => [Scan] + ServeSteps(run)
  }

  /** The selector `run` scans with: the `--device` option when given. */
  function Selector(args: Args): Option<string>
  {
    if Truthy(args.device) then Some(args.device.value) else None
  }

  /** Where a sequence of passes started at `from` ends. */
  function RoundsEnd(rounds: seq<ScanRound>, from: nat): nat
  {
    if |rounds| == 0 then from else RoundEnd(rounds[|rounds| - 1])
  }

  /** The passes follow one another from `from` on with nothing in between. */
  ghost predicate RoundsInWorld(consts: Constants, args: Args, selector: Option<string>, rounds: seq<ScanRound>,
                                from: nat, t: seq<Op>, reply: nat -> Reply)
  {
    && (forall k :: 0 <= k < |rounds| ==> RoundInWorld(consts, args, selector, rounds[k], t, reply))
    && Chained(rounds, from)
  }

  /** Each pass starts where the one before it ended, the first at `from`. */
  predicate Chained(rounds: seq<ScanRound>, from: nat)
  {
    && (|rounds| > 0 ==> rounds[0].at == from)
    && (forall k :: 0 < k < |rounds| ==> rounds[k].at == RoundEnd(rounds[k - 1]))
  }

  lemma ChainedExtend(rounds: seq<ScanRound>, r: ScanRound, from: nat)
    requires Chained(rounds, from) && r.at == RoundsEnd(rounds, from)
    ensures Chained(rounds + [r], from) && RoundsEnd(rounds + [r], from) == RoundEnd(r)
  {
  }

  /** A pass recorded against a trace stays recorded as the trace grows. */
  lemma RoundKept(consts: Constants, args: Args, selector: Option<string>, r: ScanRound, t: seq<Op>, t': seq<Op>, reply: nat -> Reply)
    requires RoundInWorld(consts, args, selector, r, t, reply) && t <= t'
    ensures RoundInWorld(consts, args, selector, r, t', reply)
  {
    SliceKept(t, t', 0, RoundEnd(r));
    if r.Served? {
      SessionKept(consts, r.dev, r.run, t, t', reply);
    }
  }

  /** So do all the passes of the loop. */
  lemma RoundsKept(consts: Constants, args: Args, selector: Option<string>, rounds: seq<ScanRound>, from: nat,
                   t: seq<Op>, t': seq<Op>, reply: nat -> Reply)
    requires RoundsInWorld(consts, args, selector, rounds, from, t, reply) && t <= t'
    ensures RoundsInWorld(consts, args, selector, rounds, from, t', reply)
  {
    forall k | 0 <= k < |rounds|
      ensures RoundInWorld(consts, args, selector, rounds[k], t', reply)
    {
      RoundKept(consts, args, selector, rounds[k], t, t', reply);
    }
  }

  /** A session makes at least one call: the configuration of the unlock. */
  lemma SessionCalls(consts: Constants, dev: Device, run: Session, t: seq<Op>, reply: nat -> Reply)
    requires SessionInWorld(consts, dev, run, t, reply)
    ensures run.body.at.unlock < run.teardown.end
  {
  }

  /** A session that started right after the enumeration at `at` and was
      followed by the one-second sleep makes a served pass. */
  lemma ServedRound(consts: Constants, args: Args, selector: Option<string>, dev: Device, run: Session, at: nat,
                    t: seq<Op>, t': seq<Op>, reply: nat -> Reply)
    requires at < |t| && t[at] == Enumerate(consts.vendorId, consts.productId)
    requires UsbIo.FindOutcome(reply(at), selector, Ok(dev))
    requires run.args == args && run.body.at.unlock == at + 1 && run.teardown.end == |t|
    requires SessionInWorld(consts, dev, run, t, reply)
    requires t' == t + [Sleep(OneSecond)]
    ensures RoundEnd(Served(dev, run, at)) == |t'|
    ensures RoundInWorld(consts, args, selector, Served(dev, run, at), t', reply)
  {
    SessionKept(consts, dev, run, t, t', reply);
    SliceKept(t, t', at, at + 1);
  }

  /** One more pass, starting where the others ended. */
  lemma RoundsExtend(consts: Constants, args: Args, selector: Option<string>, rounds: seq<ScanRound>, r: ScanRound,
                     from: nat, t: seq<Op>, reply: nat -> Reply)
    requires RoundsInWorld(consts, args, selector, rounds, from, t, reply)
    requires RoundInWorld(consts, args, selector, r, t, reply) && r.at == RoundsEnd(rounds, from)
    ensures RoundsInWorld(consts, args, selector, rounds + [r], from, t, reply)
    ensures RoundsEnd(rounds + [r], from) == RoundEnd(r)
  {
    var rs := rounds + [r];
    ChainedExtend(rounds, r, from);
    forall k | 0 <= k < |rs|
      ensures RoundInWorld(consts, args, selector, rs[k], t, reply)
    {
      if k < |rounds| {
        assert rs[k] == rounds[k];
      } else {
        assert rs[k] == r;
      }
    }
  }

  function ScanLog(rounds: seq<ScanRound>): seq<Step>
  {
    if |rounds| == 0 then [] else ScanLog(rounds[..|rounds| - 1]) + RoundLog(rounds[|rounds| - 1])
  }

  /** The scanning loop, since the trace had `from` calls and the log stood
      at `s0`, made the passes `rounds`, back to back, leaving the log at
      `log` and the trace at `t`. */
  ghost predicate Scanned(args: Args, consts: Constants, selector: Option<string>, from: nat, s0: seq<Step>,
                          rounds: seq<ScanRound>, log: seq<Step>, t: seq<Op>, reply: nat -> Reply)
  {
    && from <= |t|
    && log == s0 + ScanLog(rounds)
    && (forall k :: 0 <= k < |rounds| && rounds[k].Served? ==>
          rounds[k].run.args == args && UsbIo.Selects(selector, rounds[k].dev))
    && RoundsInWorld(consts, args, selector, rounds, from, t, reply)
    && RoundsEnd(rounds, from) == |t|
  }

  /** One more pass, starting where the others ended, extends the loop. */
  lemma ScannedExtend(args: Args, consts: Constants, selector: Option<string>, from: nat, s0: seq<Step>,
                      rounds: seq<ScanRound>, r: ScanRound, log: seq<Step>, t: seq<Op>, t': seq<Op>, reply: nat -> Reply)
    requires Scanned(args, consts, selector, from, s0, rounds, log, t, reply)
    requires t <= t' && r.at == |t|
    requires r.Served? ==> r.run.args == args && UsbIo.Selects(selector, r.dev)
    requires RoundEnd(r) == |t'| && RoundInWorld(consts, args, selector, r, t', reply)
    ensures Scanned(args, consts, selector, from, s0, rounds + [r], log + RoundLog(r), t', reply)
  {
    RoundsKept(consts, args, selector, rounds, from, t, t', reply);
    RoundsExtend(consts, args, selector, rounds, r, from, t', reply);
    ScanLogAppend(rounds, r);
    Associative(s0, ScanLog(rounds), RoundLog(r));
  }

  lemma ScanLogAppend(rounds: seq<ScanRound>, r: ScanRound)
    ensures ScanLog(rounds + [r]) == ScanLog(rounds) + RoundLog(r)
  {
    assert (rounds + [r])[..|rounds|] == rounds;
  }

  function Count(steps: seq<Step>, s: Step): nat
  {
    if |steps| == 0 then 0 else Count(steps[..|steps| - 1], s) + (if steps[|steps| - 1] == s then 1 else 0)
  }

  function CountServed(rounds: seq<ScanRound>): nat
  {
    if |rounds| == 0 then 0 else CountServed(rounds[..|rounds| - 1]) + (if rounds[|rounds| - 1].Served? then 1 else 0)
  }

  lemma {:induction false} CountAppend(a: seq<Step>, b: seq<Step>, s: Step)
    ensures Count(a + b, s) == Count(a, s) + Count(b, s)
    decreases |b|
  {
    if |b| > 0 {
      assert (a + b)[..|a + b| - 1] == a + b[..|b| - 1];
      CountAppend(a, b[..|b| - 1], s);
    } else {
      assert a + b == a;
    }
  }

  lemma {:induction false} CountAbsent(steps: seq<Step>, s: Step)
    requires s !in steps
    ensures Count(steps, s) == 0
    decreases |steps|
  {
    if |steps| > 0 {
      CountAbsent(steps[..|steps| - 1], s);
    }
  }

  /** The setup plan has no unlock after its first call. */
  lemma PlanUnlocksFirst(args: Args, k: nat)
    requires 1 <= k <= |SetupPlan(args)|
    ensures Unlock !in SetupPlan(args)[1..k]
  {
    var rest := (if args.forceDetach then [Detach] else []) + [Claim]
      + (if !args.noUInput then [OpenUInput] else []) + (if Truthy(args.socketPath) then [OpenSocket] else []);
    assert SetupPlan(args) == [Unlock] + rest;
    assert SetupPlan(args)[1..k] == rest[..k - 1];
  }

  /** Any non-empty prefix of the setup plan unlocks exactly once. */
  lemma SetupPrefixUnlocksOnce(args: Args, k: nat)
    requires 1 <= k <= |SetupPlan(args)|
    ensures Count(SetupPlan(args)[..k], Unlock) == 1
  {
    var plan := SetupPlan(args);
    assert plan[..k] == [Unlock] + plan[1..k];
    PlanUnlocksFirst(args, k);
    CountAppend([Unlock], plan[1..k], Unlock);
    CountAbsent(plan[1..k], Unlock);
    assert Count([Unlock], Unlock) == 1 by { assert [Unlock][..0] == []; }
  }

  /** The body of one session unlocks the device exactly once, first. */
  lemma BodyUnlocksOnce(args: Args, run: BodyRun)
    requires WellFormedBody(args, run)
    ensures Count(BodySteps(args, run), Unlock) == 1
  {
    var setup := SetupPlan(args)[..run.setupIssued];
    var tail: seq<Step> := if !SetupDone(args, run) then [] else if SinkCount(args, run) == 0 then [NoTargets] else run.pump;
    assert BodySteps(args, run) == setup + tail;
    PumpHasOnlyPumpSteps(args, run);
    assert Unlock !in tail;
    SetupPrefixUnlocksOnce(args, run.setupIssued);
    CountAbsent(tail, Unlock);
    CountAppend(setup, tail, Unlock);
  }

  /** One session unlocks the device exactly once. */
  lemma ServeUnlocksOnce(run: Session)
    ensures Count(ServeSteps(run), Unlock) == 1
  {
    var teardown := TeardownSteps(run.args, Claimed(run.args, run.body), run.body.detached, run.teardown);
    BodyUnlocksOnce(run.args, run.body);
    TeardownStepsOnly(run.args, Claimed(run.args, run.body), run.body.detached, run.teardown);
    assert Unlock !in teardown;
    CountAbsent(teardown, Unlock);
    CountAppend(BodySteps(run.args, run.body), teardown, Unlock);
  }

  /** The scan loop serves a device exactly in the rounds where it found
      one: the log holds one unlock per served round and none for a round
      that only rescanned. */
  lemma {:induction false} ScanServesOnlyFoundDevices(rounds: seq<ScanRound>)
    ensures Count(ScanLog(rounds), Unlock) == CountServed(rounds)
    decreases |rounds|
  {
    if |rounds| > 0 {
      var prefix := rounds[..|rounds| - 1];
      var last := rounds[|rounds| - 1];
      ScanServesOnlyFoundDevices(prefix);
      CountAppend(ScanLog(prefix), RoundLog(last), Unlock);
      match last
      case NotFound(_) =>
        CountAbsent([Scan, Rescan], Unlock);
      case Served(_, run, _) =>
        ServeUnlocksOnce(run);
        CountAppend([Scan], ServeSteps(run), Unlock);
        CountAppend([Scan] + ServeSteps(run), [Pause], Unlock);
        CountAbsent([Scan], Unlock);
        CountAbsent([Pause], Unlock);
    }
  }

  class TabletDaemon {
    const w: World
    const args: Args
    const consts: Constants
    /** Cleared by the stop signal only. */
    var shouldRun: bool
    /** The ghost log of the helpers entered, in order. */
    ghost var steps: seq<Step>

    constructor (w: World, args: Args, consts: Constants)
      requires consts.uinputName == UInputName()
      ensures this.w == w && this.args == args && this.consts == consts
      ensures shouldRun && steps == []
    {
      this.w := w;
      this.args := args;
      this.consts := consts;
      shouldRun := true;
      steps := [];
    }

    /** `should_run` is false only once the stop signal has arrived. */
    ghost predicate SignalState()
      reads this`shouldRun, w
    {
      !shouldRun ==> |w.trace| >= w.stopAt
    }

    /** `_handle_stop`. */
    method HandleStop()
      modifies this`shouldRun
      ensures !shouldRun
    {
      shouldRun := false;
    }

    /** Runs the signal handler if the signal has arrived by now. */
    method DeliverSignals()
      modifies this`shouldRun
      ensures shouldRun == (old(shouldRun) && |w.trace| < w.stopAt)
    {
      if |w.trace| >= w.stopAt {
        HandleStop();
      }
    }

    /** The `for` loop of `_pump`: hands one sample to every forwarder in
        list order, ending with the first exception a forward raises. The
        first `reached` forwarders were handed the sample, the others
        nothing, and no forward reads the stylus endpoint. */
    method ForwardToAll(sinks: seq<Sink>, sample: StylusSample) returns (exc: Option<Exc>, ghost reached: nat)
      requires Wired(sinks, w) && Distinct(sinks)
      modifies this`steps, w, SinkObjects(sinks)
      ensures old(w.trace) <= w.trace && NoReadsIn(w.trace, |old(w.trace)|)
      ensures reached <= |sinks| && steps == old(steps) + Deliver(sample, |sinks|)[..reached]
      ensures forall i :: 0 <= i < |sinks| ==>
        Handed(sinks[i]) == old(Handed(sinks[i])) + DeliveredTo(Deliver(sample, |sinks|)[..reached], i)
      ensures forall i :: 0 <= i < |sinks| ==> Closes(sinks[i]) == old(Closes(sinks[i]))
      ensures exc.None? ==> reached == |sinks|
      ensures exc.Some? ==> reached >= 1
      ensures var d := Delivered(old(Ports(sinks)), sample, w.reply, |old(w.trace)|);
        && w.trace == old(w.trace) + d.calls && exc == d.exc && reached == d.reached && Ports(sinks) == d.ports
    {
      DaemonIsNoSink(sinks, this);
      exc, reached := ForwardEach(sinks, sample);
      steps := steps + Deliver(sample, |sinks|)[..reached];
      DeliveredToEachPrefix(sample, |sinks|, reached);
    }

    /** The loop of `ForwardToAll` itself: the first `reached` forwarders
        were handed the sample, and the calls are those of `Delivered`. */
    method ForwardEach(sinks: seq<Sink>, sample: StylusSample) returns (exc: Option<Exc>, ghost reached: nat)
      requires Wired(sinks, w) && Distinct(sinks)
      modifies w, SinkObjects(sinks)
      ensures old(w.trace) <= w.trace && NoReadsIn(w.trace, |old(w.trace)|)
      ensures reached <= |sinks|
      ensures forall i :: 0 <= i < |sinks| ==>
        Handed(sinks[i]) == old(Handed(sinks[i])) + (if i < reached then [sample] else [])
      ensures forall i :: 0 <= i < |sinks| ==> Closes(sinks[i]) == old(Closes(sinks[i]))
      ensures exc.None? ==> reached == |sinks|
      ensures exc.Some? ==> reached >= 1
      ensures var d := Delivered(old(Ports(sinks)), sample, w.reply, |old(w.trace)|);
        && w.trace == old(w.trace) + d.calls && exc == d.exc && reached == d.reached && Ports(sinks) == d.ports
    {
      ghost var t0 := w.trace;
      ghost var h0 := HandedAll(sinks);
      ghost var p0 := Ports(sinks);
      ghost var step := Forwarding(sample, w.reply);
      SweptNone(p0, step, t0);
      exc, reached := None, 0;
      for i := 0 to |sinks|
        invariant exc.None? && reached == i
        invariant t0 <= w.trace && NoReadsIn(w.trace, |t0|)
        invariant forall j :: 0 <= j < |sinks| ==> Handed(sinks[j]) == h0[j] + (if j < i then [sample] else [])
        invariant forall j :: 0 <= j < |sinks| ==> Closes(sinks[j]) == old(Closes(sinks[j]))
        invariant Swept(p0, step, t0, i, w.trace, Ports(sinks))
      {
        reached := i + 1;
        ghost var t1 := w.trace;
        var e := ForwardTurn(sinks, i, sample, p0, t0);
        if e.Some? {
          exc := e;
          break;
        }
      }
      if exc.None? {
        SweptAll(p0, step, t0, w.trace, Ports(sinks));
      }
    }

    /** Turn `i` of the forwarding loop that started on the trace `t0` with
        the forwarders in states `p0`. */
    method ForwardTurn(sinks: seq<Sink>, i: nat, sample: StylusSample, ghost p0: seq<Port>, ghost t0: seq<Op>)
      returns (exc: Option<Exc>)
      requires Wired(sinks, w) && Distinct(sinks) && i < |sinks|
      requires Swept(p0, Forwarding(sample, w.reply), t0, i, w.trace, Ports(sinks))
      requires t0 <= w.trace && NoReadsIn(w.trace, |t0|)
      modifies w, SinkObject(sinks[i])
      ensures t0 <= w.trace && NoReadsIn(w.trace, |t0|)
      ensures forall j :: 0 <= j < |sinks| ==>
        Handed(sinks[j]) == old(Handed(sinks[j])) + (if j == i then [sample] else [])
      ensures forall j :: 0 <= j < |sinks| ==> Closes(sinks[j]) == old(Closes(sinks[j]))
      ensures exc.None? ==> Swept(p0, Forwarding(sample, w.reply), t0, i + 1, w.trace, Ports(sinks))
      ensures exc.Some? ==> var d := Delivered(p0, sample, w.reply, |t0|);
        && w.trace == t0 + d.calls && Ports(sinks) == d.ports && exc == d.exc && d.reached == i + 1
    {
      ghost var t1 := w.trace;
      ghost var ports1 := Ports(sinks);
      exc := ForwardOne(sinks, i, sample);
      NoReadsJoin(t1, w.trace, |t0|);
      Grown(t0, t1, w.trace);
      SweptStep(p0, Forwarding(sample, w.reply), t0, i, t1, ports1, ForwardOutcome(ports1[i], sample, w.reply, |t1|), w.trace, Ports(sinks));
    }

    /** `forward` on forwarder `i` of the list: it alone is handed the
        sample, no `close` is called, and nothing reads the stylus endpoint. */
    method ForwardOne(sinks: seq<Sink>, i: nat, sample: StylusSample) returns (exc: Option<Exc>)
      requires Wired(sinks, w) && Distinct(sinks) && i < |sinks|
      modifies w, SinkObject(sinks[i])
      ensures old(w.trace) <= w.trace && NoReadsIn(w.trace, |old(w.trace)|)
      ensures forall j :: 0 <= j < |sinks| ==>
        Handed(sinks[j]) == old(Handed(sinks[j])) + (if j == i then [sample] else [])
      ensures forall j :: 0 <= j < |sinks| ==> Closes(sinks[j]) == old(Closes(sinks[j]))
      ensures var k := old(Ports(sinks))[i]; var base := |old(w.trace)|;
        && w.trace == old(w.trace) + ForwardCalls(k, sample, w.reply, base)
        && exc == ForwardRaised(k, w.reply, base)
        && Ports(sinks) == old(Ports(sinks))[i := AfterForward(k, w.reply, base)]
    {
      ghost var p := Ports(sinks);
      match sinks[i]
      case ToUInput(u) =>
        assert p[i] == UInputPort(u.fd);
        ghost var written;
        exc, written := u.Forward(sample);
        assert Ports(sinks) == p[i := p[i]];
      case ToSocket(s) =>
        assert p[i] == SocketPort(s.sock);
        exc := s.Forward(sample);
        assert Ports(sinks) == p[i := SocketPort(s.sock)];
    }

    /** `read_stylus_report` with the daemon's options, logged as a read. */
    method ReadStylus() returns (r: Result<Option<seq<Byte>>, Exc>)
      modifies this`steps, w
      ensures steps == old(steps) + [ReadReport]
      ensures w.trace == old(w.trace) + [StylusRead(args, consts)]
      ensures r == UsbIo.ReadOutcome(w.reply(|old(w.trace)|))
    {
      steps := steps + [ReadReport];
      r := UsbIo.ReadStylusReport(w, consts.stylusEndpoint, consts.stylusReadSize, args.timeoutMs);
    }

    /** One pass of the `while` loop of `_pump`: one read of the stylus
        endpoint and, when it yields a sample, its delivery; nothing after the
        read reads again. */
    method PumpOnce(sinks: seq<Sink>) returns (exc: Option<Exc>, ghost sample: Option<StylusSample>, ghost partial: seq<Step>)
      requires Wired(sinks, w) && Distinct(sinks)
      modifies this`steps, w, SinkObjects(sinks)
      ensures old(w.trace) < w.trace && w.trace[|old(w.trace)|] == StylusRead(args, consts)
      ensures NoReadsIn(w.trace, |old(w.trace)| + 1)
      ensures sample == SampleOfRead(UsbIo.ReadOutcome(w.reply(|old(w.trace)|)))
      ensures steps == old(steps) + partial
      ensures exc.None? ==> partial == Round(sample, |sinks|)
      ensures exc.Some? ==> CutShort(|sinks|, exc, partial, w.reply(|old(w.trace)|))
      ensures forall i :: 0 <= i < |sinks| ==> Handed(sinks[i]) == old(Handed(sinks[i])) + DeliveredTo(partial, i)
      ensures forall i :: 0 <= i < |sinks| ==> Closes(sinks[i]) == old(Closes(sinks[i]))
      ensures var r := RoundCalls(StylusRead(args, consts), old(Ports(sinks)), w.reply, |old(w.trace)|);
        && w.trace == old(w.trace) + r.calls && exc == r.exc && Ports(sinks) == r.ports
        && (exc.Some? ==> |partial| == 1 + r.reached)
    {
      DaemonIsNoSink(sinks, this);
      ghost var s0 := steps;
      ghost var p0 := Ports(sinks);
      ghost var tb := w.trace;
      ghost var base := |w.trace|;
      var r := ReadStylus();
      ghost var t1 := w.trace;
      var decoded := SampleOfRead(r);
      sample := decoded;
      partial := [ReadReport];
      ReadDeliversNothingToAny();
      exc := None;
      if r.Err? {
        CutByRead(|sinks|, w.reply(base));
        exc := Some(r.error);
      } else if decoded.Some? {
        ghost var reached;
        ghost var d := Deliver(decoded.value, |sinks|);
        exc, reached := ForwardToAll(sinks, decoded.value);
        partial := [ReadReport] + d[..reached];
        Associative(s0, [ReadReport], d[..reached]);
        if exc.Some? {
          CutByForward(|sinks|, exc, w.reply(base), reached);
        } else {
          assert d[..|sinks|] == d;
        }
        DeliveredToEachPrefix(decoded.value, |sinks|, reached);
        DeliveredToEachRound(decoded.value, |sinks|, reached);
        assert w.trace[base] == t1[base];
        Associative(tb, [StylusRead(args, consts)], Delivered(p0, decoded.value, w.reply, base + 1).calls);
      }
    }

    /** What the pump has done since the trace was `t0`, the forwarders were
        in states `p0`, the log stood at `s0` and the forwarders had been
        handed `h0`: the rounds of `samples`, read at `readAt`, and nothing
        else (`PumpStateParts`). */
    ghost predicate PumpedSoFar(sinks: seq<Sink>, t0: seq<Op>, p0: seq<Port>, s0: seq<Step>, h0: seq<seq<StylusSample>>,
                                samples: seq<Option<StylusSample>>, readAt: seq<nat>)
      reads this`steps, w, SinkObjects(sinks)
    {
      PumpState(w.trace, steps, Ports(sinks), HandedAll(sinks))
        in PumpStates(StylusRead(args, consts), w.reply, |sinks|, t0, p0, s0, h0, samples, readAt)
    }

    /** One turn of the pump's loop after what `PumpedSoFar` describes. */
    method PumpRound(sinks: seq<Sink>, ghost t0: seq<Op>, ghost p0: seq<Port>, ghost s0: seq<Step>, ghost h0: seq<seq<StylusSample>>,
                     ghost samples: seq<Option<StylusSample>>, ghost readAt: seq<nat>)
      returns (exc: Option<Exc>, ghost sample: Option<StylusSample>, ghost partial: seq<Step>)
      requires Wired(sinks, w) && Distinct(sinks) && PumpedSoFar(sinks, t0, p0, s0, h0, samples, readAt)
      modifies this`steps, w, SinkObjects(sinks)
      ensures old(w.trace) < w.trace
      ensures forall i :: 0 <= i < |sinks| ==> Closes(sinks[i]) == old(Closes(sinks[i]))
      ensures exc.None? ==> PumpedSoFar(sinks, t0, p0, s0, h0, samples + [sample], readAt + [|old(w.trace)|])
      ensures exc.Some? ==>
        && steps == s0 + Rounds(samples, |sinks|) + partial
        && Ports(sinks) == Pumped(StylusRead(args, consts), p0, w.reply, |t0|, |samples| + 1).ports
        && PumpInWorld(StylusRead(args, consts), |sinks|, exc,
                       PumpTrace(samples, readAt, partial, |old(w.trace)|, |t0|, |w.trace|, p0), w.trace, w.reply)
        && (forall i :: 0 <= i < |sinks| ==> Handed(sinks[i]) == h0[i] + DeliveredTo(Rounds(samples, |sinks|) + partial, i))
    {
      ghost var pre := PumpState(w.trace, steps, Ports(sinks), HandedAll(sinks));
      DaemonIsNoSink(sinks, this);
      exc, sample, partial := PumpOnce(sinks);
      ghost var post := PumpState(w.trace, steps, Ports(sinks), HandedAll(sinks));
      PumpStateStep(StylusRead(args, consts), w.reply, |sinks|, t0, p0, s0, h0, samples, readAt,
                    pre, post, sample, exc, partial);
    }

    /** `_pump`: reads until the stop signal, handing every decoded sample to
        every forwarder in list order. Ends early with whatever a read or a
        forward raises. Its reads are exactly the ones `p` records, in trace
        order, and every forwarder was handed what the log delivers to it. */
    method Pump(sinks: seq<Sink>) returns (exc: Option<Exc>, ghost p: PumpTrace)
      requires Wired(sinks, w) && Distinct(sinks) && SignalState()
      modifies this`shouldRun, this`steps, w, SinkObjects(sinks)
      ensures SignalState() && old(w.trace) <= w.trace
      ensures p.from == |old(w.trace)| && p.to == |w.trace|
      ensures steps == old(steps) + Rounds(p.samples, |sinks|) + p.partial
      ensures PumpInWorld(StylusRead(args, consts), |sinks|, exc, p, w.trace, w.reply)
      ensures p.ports == old(Ports(sinks))
      ensures Ports(sinks) == Pumped(StylusRead(args, consts), p.ports, w.reply, p.from, PumpRounds(exc, p)).ports
      ensures forall i :: 0 <= i < |sinks| ==>
        Handed(sinks[i]) == old(Handed(sinks[i])) + DeliveredTo(Rounds(p.samples, |sinks|) + p.partial, i)
      ensures forall i :: 0 <= i < |sinks| ==> Closes(sinks[i]) == old(Closes(sinks[i]))
      ensures exc.None? ==> !shouldRun
    {
      ghost var s0 := steps;
      ghost var t0 := w.trace;
      ghost var h0 := HandedAll(sinks);
      ghost var p0 := Ports(sinks);
      DaemonIsNoSink(sinks, this);
      assert steps == s0 + Rounds([], |sinks|);
      assert t0 + [] == t0;
      ghost var samples, readAt, partial, lastRead;
      exc, samples, readAt, partial, lastRead := PumpLoop(sinks, t0, p0, s0, h0);
      p := PumpTrace(samples, readAt, partial, lastRead, |t0|, |w.trace|, p0);
      if exc.None? {
        assert Rounds(samples, |sinks|) + [] == Rounds(samples, |sinks|);
        PumpStopped(StylusRead(args, consts), |sinks|, samples, readAt, lastRead, t0, w.trace, w.reply, p0);
      }
    }

    /** The `while` loop of `_pump`, after what `PumpedSoFar` describes with
        no rounds yet: it ran the rounds of `samples`, read at `readAt`, and
        either stopped on the signal or was cut short in the round that read
        at `lastRead`. */
    method PumpLoop(sinks: seq<Sink>, ghost t0: seq<Op>, ghost p0: seq<Port>, ghost s0: seq<Step>, ghost h0: seq<seq<StylusSample>>)
      returns (exc: Option<Exc>, ghost samples: seq<Option<StylusSample>>, ghost readAt: seq<nat>,
               ghost partial: seq<Step>, ghost lastRead: nat)
      requires Wired(sinks, w) && Distinct(sinks) && SignalState()
      requires PumpedSoFar(sinks, t0, p0, s0, h0, [], [])
      modifies this`shouldRun, this`steps, w, SinkObjects(sinks)
      ensures SignalState() && t0 <= w.trace
      ensures forall i :: 0 <= i < |sinks| ==> Closes(sinks[i]) == old(Closes(sinks[i]))
      ensures exc.None? ==> !shouldRun && partial == [] && PumpedSoFar(sinks, t0, p0, s0, h0, samples, readAt)
      ensures exc.Some? ==>
        && steps == s0 + Rounds(samples, |sinks|) + partial
        && Ports(sinks) == Pumped(StylusRead(args, consts), p0, w.reply, |t0|, |samples| + 1).ports
        && PumpInWorld(StylusRead(args, consts), |sinks|, exc,
                       PumpTrace(samples, readAt, partial, lastRead, |t0|, |w.trace|, p0), w.trace, w.reply)
        && (forall i :: 0 <= i < |sinks| ==> Handed(sinks[i]) == h0[i] + DeliveredTo(Rounds(samples, |sinks|) + partial, i))
    {
      samples, readAt, partial, lastRead := [], [], [], 0;
      DaemonIsNoSink(sinks, this);
      DeliverSignals();
      while shouldRun
        invariant SignalState() && (shouldRun ==> |w.trace| < w.stopAt)
        invariant partial == [] && t0 <= w.trace
        invariant PumpedSoFar(sinks, t0, p0, s0, h0, samples, readAt)
        invariant forall i :: 0 <= i < |sinks| ==> Closes(sinks[i]) == old(Closes(sinks[i]))
        decreases w.stopAt - |w.trace|
      {
        ghost var t := w.trace;
        var e;
        ghost var sample, cut;
        e, sample, cut := PumpRound(sinks, t0, p0, s0, h0, samples, readAt);
        Grown(t0, t, w.trace);
        if e.Some? {
          return e, samples, readAt, cut, |t|;
        }
        samples := samples + [sample];
        readAt := readAt + [|t|];
        DeliverSignals();
      }
      exc := None;
    }

    /** The first part of the `try` block of `_serve_device`: unlock, the
        detach with `--force-detach`, the claim. Ends with the first
        exception. The calls sit back to back from `at.unlock`. */
    method Acquire(dev: Device) returns (exc: Option<Exc>, detached: bool, ghost issued: nat, ghost at: SetupAt)
      modifies this`steps, w
      ensures old(w.trace) <= w.trace
      ensures 1 <= issued <= UInputAt(args) && steps == old(steps) + SetupPlan(args)[..issued]
      ensures exc.None? ==> issued == UInputAt(args)
      ensures issued < UInputAt(args) ==> exc.Some?
      ensures detached ==> args.forceDetach && ReturnedAt(issued, exc.Some?, 1)
      ensures at.unlock == |old(w.trace)| && at.end == |w.trace|
      ensures AcquiredInWorld(args, consts, dev, issued, exc, detached, at, w.trace, w.reply)
      ensures exc.None? ==> at.claim + 1 == |w.trace|
    {
      ghost var plan := SetupPlan(args);
      ghost var t0 := w.trace;
      AcquireSlices(args);
      detached := false;
      issued := 1;
      ghost var unlockIssued;
      exc, unlockIssued := UnlockDevice();
      ghost var t1 := w.trace;
      at := SetupAt(|t0|, unlockIssued, |t1|, |t1|, 0, 0, |t1|);
      if exc.Some? {
        AcquiredByUnlock(args, consts, dev, exc, at, w.trace, w.reply);
      } else {
        exc, detached, issued, at := DetachAndClaim(dev, unlockIssued, at);
        assert plan[..issued] == plan[..1] + plan[1..issued];
      }
    }

    /** The rest of `_acquire` once `unlock_interfaces` returned: the
        detach when `--force-detach` is given, then the claim. */
    method DetachAndClaim(dev: Device, ghost unlockIssued: nat, ghost at0: SetupAt)
      returns (exc: Option<Exc>, detached: bool, ghost issued: nat, ghost at: SetupAt)
      requires at0.unlockIssued == unlockIssued && at0.detach == at0.unlock + 1 + unlockIssued == |w.trace|
      requires UsbIo.UnlockRan(w.reply, w.trace, at0.unlock, consts.reportLengths, unlockIssued, None)
      modifies this`steps, w
      ensures old(w.trace) <= w.trace
      ensures 2 <= issued <= UInputAt(args) && steps == old(steps) + SetupPlan(args)[1..issued]
      ensures exc.None? ==> issued == UInputAt(args)
      ensures issued < UInputAt(args) ==> exc.Some?
      ensures detached ==> args.forceDetach && ReturnedAt(issued, exc.Some?, 1)
      ensures at.unlock == at0.unlock && at.end == |w.trace|
      ensures AcquiredInWorld(args, consts, dev, issued, exc, detached, at, w.trace, w.reply)
      ensures exc.None? ==> at.claim + 1 == |w.trace|
    {
      AcquireSlices(args);
      ghost var t0 := w.trace;
      if !args.forceDetach {
        exc, at := ClaimAfter(dev, false, at0.(claim := |t0|));
        issued := UInputAt(args);
        detached := false;
      } else {
        exc, detached := DetachDriver(dev);
        issued := 2;
        ghost var t1 := w.trace;
        UnlockRanKept(w.reply, t0, t1, at0.unlock, consts.reportLengths, unlockIssued, None);
        at := at0.(claim := |t1|, end := |t1|);
        if exc.Some? {
          AcquiredByDetach(args, consts, dev, exc, at, t1, w.reply);
        } else {
          exc, at := ClaimAfter(dev, detached, at);
          issued := UInputAt(args);
          Associative(old(steps), [Detach], [Claim]);
          Grown(t0, t1, w.trace);
        }
      }
    }

    /** The claim, once the unlock and, with `--force-detach`, the detach
        at `at0` returned. */
    method ClaimAfter(dev: Device, ghost detached: bool, ghost at0: SetupAt) returns (exc: Option<Exc>, ghost at: SetupAt)
      requires UsbIo.UnlockRan(w.reply, w.trace, at0.unlock, consts.reportLengths, at0.unlockIssued, None)
      requires at0.detach == at0.unlock + 1 + at0.unlockIssued
      requires args.forceDetach ==> DetachRan(w.reply, w.trace, at0.detach, dev, consts.stylusInterface, None, detached)
      requires !args.forceDetach ==> !detached
      requires at0.claim == |w.trace|
      requires at0.claim == (if args.forceDetach then at0.detach + |UsbIo.DetachOps(w.reply, at0.detach, dev, consts.stylusInterface)|
                             else at0.unlock + 1 + at0.unlockIssued)
      modifies this`steps, w
      ensures steps == old(steps) + [Claim]
      ensures old(w.trace) <= w.trace && at == at0.(end := |w.trace|) && at.claim + 1 == |w.trace|
      ensures AcquiredInWorld(args, consts, dev, ClaimAt(args) + 1, exc, detached, at, w.trace, w.reply)
    {
      ghost var t := w.trace;
      exc := ClaimStylus();
      UnlockRanKept(w.reply, t, w.trace, at0.unlock, consts.reportLengths, at0.unlockIssued, None);
      if args.forceDetach {
        DetachRanKept(w.reply, t, w.trace, at0.detach, dev, consts.stylusInterface, None, detached);
      }
      at := at0.(end := |w.trace|);
      AcquiredByClaim(args, consts, dev, exc, detached, at, w.trace, w.reply);
    }

    /** `unlock_interfaces`, logged as the first setup call. */
    method UnlockDevice() returns (exc: Option<Exc>, ghost issued: nat)
      modifies this`steps, w
      ensures old(w.trace) <= w.trace && steps == old(steps) + [Unlock]
      ensures |w.trace| == |old(w.trace)| + 1 + issued
      ensures UsbIo.UnlockRan(w.reply, w.trace, |old(w.trace)|, consts.reportLengths, issued, exc)
    {
      steps := steps + [Unlock];
      exc, issued := UsbIo.UnlockInterfaces(w, consts.reportLengths);
    }

    /** `detach_kernel_driver` on the stylus interface; whether a driver was
        detached. */
    method DetachDriver(dev: Device) returns (exc: Option<Exc>, detached: bool)
      modifies this`steps, w
      ensures old(w.trace) <= w.trace && steps == old(steps) + [Detach]
      ensures |w.trace| == |old(w.trace)| + |UsbIo.DetachOps(w.reply, |old(w.trace)|, dev, consts.stylusInterface)|
      ensures DetachRan(w.reply, w.trace, |old(w.trace)|, dev, consts.stylusInterface, exc, detached)
      ensures exc.Some? ==> !detached
    {
      steps := steps + [Detach];
      var r := UsbIo.DetachKernelDriver(w, dev, consts.stylusInterface);
      if r.Err? {
        return Some(r.error), false;
      }
      exc, detached := None, r.value;
    }

    /** `usb.util.claim_interface` on the stylus interface. */
    method ClaimStylus() returns (exc: Option<Exc>)
      modifies this`steps, w
      ensures steps == old(steps) + [Claim]
      ensures w.trace == old(w.trace) + [ClaimInterface(consts.stylusInterface)]
      ensures ClaimRan(w.reply, w.trace, |old(w.trace)|, consts.stylusInterface, exc)
    {
      steps := steps + [Claim];
      var c := w.Call(ClaimInterface(consts.stylusInterface));
      exc := if Failed(c) then Some(c.exc) else None;
    }

    /** The forwarders of the `try` block, right after the claim at
        `claimAt`: the uinput device unless `--no-uinput`, then the socket
        when a socket path is given. */
    method OpenForwarders(ghost at0: SetupAt)
      returns (exc: Option<Exc>, sinks: seq<Sink>, ghost issued: nat, ghost at: SetupAt)
      requires at0.claim + 1 == |w.trace|
      modifies this`steps, w
      ensures old(w.trace) <= w.trace
      ensures UInputAt(args) <= issued <= |SetupPlan(args)|
      ensures steps == old(steps) + SetupPlan(args)[UInputAt(args)..issued]
      ensures exc.None? ==> issued == |SetupPlan(args)|
      ensures issued < |SetupPlan(args)| ==> exc.Some?
      ensures exc.Some? ==> issued > UInputAt(args)
      ensures |sinks| == OpenedCount(args, issued, exc.Some?) && Wired(sinks, w) && Distinct(sinks)
      ensures forall o :: o in SinkObjects(sinks) ==> fresh(o)
      ensures Unused(sinks) && Ports(sinks) == OpenedPorts(args, issued, exc.Some?, at)
      ensures at == at0.(uinput := at.uinput, socket := at.socket, end := |w.trace|)
      ensures issued == UInputAt(args) ==> w.trace == old(w.trace)
      ensures OpenedInWorld(args, consts, issued, exc, at, w.trace, w.reply)
    {
      ghost var s0 := steps;
      ghost var plan := SetupPlan(args);
      OpenSlices(args);
      ghost var first := UInputAt(args);
      ghost var uinputAt, socketAt := |w.trace|, |w.trace|;
      issued := first;
      exc, sinks := None, [];
      if !args.noUInput {
        exc, sinks := OpenUInputSink();
        issued := issued + 1;
      }
      if exc.None? && Truthy(args.socketPath) {
        ghost var done := plan[first..issued];
        ghost var t1 := w.trace;
        socketAt := |t1|;
        exc, sinks := OpenSocketSink(sinks);
        issued := issued + 1;
        Associative(s0, done, [OpenSocket]);
        if !args.noUInput {
          SliceKept(t1, w.trace, uinputAt, |t1|);
        }
        at := at0.(uinput := uinputAt, socket := socketAt, end := |w.trace|);
        OpenedWithSocket(args, consts, exc, at, w.trace, w.reply);
      } else {
        at := at0.(uinput := uinputAt, socket := socketAt, end := |w.trace|);
        OpenedWithoutSocket(args, consts, issued, exc, at, w.trace, w.reply);
      }
    }

    /** The uinput forwarder: `UInputForwarder.create` with the daemon's
        name and ids. */
    method OpenUInputSink() returns (exc: Option<Exc>, sinks: seq<Sink>)
      modifies this`steps, w
      ensures old(w.trace) <= w.trace && steps == old(steps) + [OpenUInput]
      ensures w.trace == old(w.trace) + UInputCreateOps(w.reply, |old(w.trace)|, consts)
      ensures UInputOpened(w.reply, w.trace, |old(w.trace)|, consts, exc)
      ensures exc.Some? ==> sinks == []
      ensures exc.None? ==> Ports(sinks) == [UInputPort(Some(|old(w.trace)|))]
      ensures Wired(sinks, w) && Unused(sinks)
      ensures forall o :: o in SinkObjects(sinks) ==> fresh(o)
    {
      steps := steps + [OpenUInput];
      var u;
      ghost var configured, queried;
      u, configured, queried := UInput.Create(w, consts.uinputName, consts.vendorId, consts.productId);
      if u.Err? {
        return Some(u.error), [];
      }
      exc, sinks := None, [ToUInput(u.value)];
    }

    /** The socket forwarder, registered after the ones in `before`. */
    method OpenSocketSink(before: seq<Sink>) returns (exc: Option<Exc>, sinks: seq<Sink>)
      requires Truthy(args.socketPath) && Wired(before, w) && Distinct(before) && Unused(before)
      modifies this`steps, w
      ensures old(w.trace) <= w.trace && steps == old(steps) + [OpenSocket]
      ensures w.trace == old(w.trace) + SocketSink.ConnectOps(w.reply, |old(w.trace)|, args.socketPath.value)
      ensures SocketOpened(w.reply, w.trace, |old(w.trace)|, args.socketPath.value, exc)
      ensures exc.Some? ==> sinks == before
      ensures exc.None? ==> |sinks| == |before| + 1 && sinks[..|before|] == before
      ensures Ports(sinks) == old(Ports(before)) + (if exc.None? then [SocketPort(Some(|old(w.trace)|))] else [])
      ensures Wired(sinks, w) && Distinct(sinks) && Unused(sinks)
      ensures forall o :: o in SinkObjects(sinks) ==> o in SinkObjects(before) || fresh(o)
    {
      DaemonIsNoSink(before, this);
      steps := steps + [OpenSocket];
      var k := SocketSink.Create(w, args.socketPath.value);
      if k.Err? {
        return Some(k.error), before;
      }
      exc, sinks := None, before + [ToSocket(k.value)];
      forall o | o in SinkObjects(sinks)
        ensures o in SinkObjects(before) || fresh(o)
      {
        var i :| 0 <= i < |sinks| && o == SinkObject(sinks[i]);
        if i < |before| {
          assert sinks[i] == before[i];
        }
      }
      forall i | 0 <= i < |before|
        ensures SinkObject(sinks[i]) != k.value
      {
        assert sinks[i] == before[i];
      }
    }

    /** The setup calls of the `try` block, up to the first exception. */
    method Setup(dev: Device)
      returns (exc: Option<Exc>, sinks: seq<Sink>, claimed: bool, detached: bool, ghost issued: nat, ghost at: SetupAt)
      modifies this`steps, w
      ensures old(w.trace) <= w.trace
      ensures issued <= |SetupPlan(args)| && steps == old(steps) + SetupPlan(args)[..issued]
      ensures claimed == ReturnedAt(issued, exc.Some?, ClaimAt(args))
      ensures Wired(sinks, w) && Distinct(sinks) && Unused(sinks) && Ports(sinks) == OpenedPorts(args, issued, exc.Some?, at)
      ensures forall o :: o in SinkObjects(sinks) ==> fresh(o)
      ensures at.unlock == |old(w.trace)|
      ensures SetupEnded(args, consts, dev, issued, exc, detached, |sinks|, at, w.trace, w.reply)
    {
      ghost var s0 := steps;
      ghost var t0 := w.trace;
      ghost var plan := SetupPlan(args);
      exc, detached, issued, at := Acquire(dev);
      claimed := exc.None?;
      sinks := [];
      ghost var t1 := w.trace;
      if exc.None? {
        ghost var at0 := at;
        exc, sinks, issued, at := OpenForwarders(at0);
        assert plan[..UInputAt(args)] + plan[UInputAt(args)..issued] == plan[..issued];
        Associative(s0, plan[..UInputAt(args)], plan[UInputAt(args)..issued]);
        SetupOfOpen(args, consts, dev, issued, exc, detached, |sinks|, at0, at, t1, w.trace, w.reply);
      } else {
        SetupOfAcquire(args, consts, dev, issued, exc, detached, at, w.trace, w.reply);
      }
      Grown(t0, t1, w.trace);
    }

    /** The `try` block of `_serve_device`: the setup, then the pump, or the
        early return when no forwarder is requested. Ends with the first
        exception. Every forwarder was handed exactly what the pump's log
        delivers to it, and none was closed yet. */
    method ServeBody(dev: Device)
      returns (bodyExc: Option<Exc>, sinks: seq<Sink>, claimed: bool, detached: bool, ghost run: BodyRun)
      requires SignalState()
      modifies this`shouldRun, this`steps, w
      ensures SignalState() && old(w.trace) <= w.trace
      ensures BodyEnded(args, consts, dev, run, bodyExc, w.trace, w.reply)
      ensures steps == old(steps) + BodySteps(args, run)
      ensures claimed == Claimed(args, run) && detached == run.detached
      ensures |sinks| == SinkCount(args, run) && Wired(sinks, w) && Distinct(sinks)
      ensures forall o :: o in SinkObjects(sinks) ==> fresh(o)
      ensures run.at.unlock == |old(w.trace)|
      ensures SinksAt(sinks, run.pump, 0) && Ports(sinks) == BodyEndPorts(args, consts, run, w.reply)
    {
      ghost var s0 := steps;
      ghost var issued, at;
      var exc;
      exc, sinks, claimed, detached, issued, at := Setup(dev);
      bodyExc, run := AfterSetup(dev, sinks, exc, s0, issued, detached, at);
    }

    /** The rest of the `try` block once the setup made `issued` calls from
        `at` and ended with `exc`: the early return or the pump. */
    method AfterSetup(dev: Device, sinks: seq<Sink>, exc: Option<Exc>, ghost s0: seq<Step>, ghost issued: nat,
                      ghost detached: bool, ghost at: SetupAt)
      returns (bodyExc: Option<Exc>, ghost run: BodyRun)
      requires SignalState() && Wired(sinks, w) && Distinct(sinks) && Unused(sinks)
      requires Ports(sinks) == OpenedPorts(args, issued, exc.Some?, at)
      requires issued <= |SetupPlan(args)| && steps == s0 + SetupPlan(args)[..issued]
      requires SetupEnded(args, consts, dev, issued, exc, detached, |sinks|, at, w.trace, w.reply)
      modifies this`shouldRun, this`steps, w, SinkObjects(sinks)
      ensures SignalState() && old(w.trace) <= w.trace
      ensures BodyEnded(args, consts, dev, run, bodyExc, w.trace, w.reply)
      ensures steps == s0 + BodySteps(args, run)
      ensures run.setupIssued == issued && run.setupExc == exc && run.detached == detached && run.at == at
      ensures SinksAt(sinks, run.pump, 0) && Ports(sinks) == BodyEndPorts(args, consts, run, w.reply)
    {
      DaemonIsNoSink(sinks, this);
      if exc.Some? || |sinks| == 0 {
        run := StopAfterSetup(dev, sinks, exc, s0, issued, detached, at);
        bodyExc := exc;
      } else {
        assert SetupPlan(args)[..issued] == SetupPlan(args);
        bodyExc, run := PumpSession(dev, sinks, s0, detached, at);
      }
    }

    /** The end of a body whose setup raised, or opened no forwarder and
        returns early. */
    method StopAfterSetup(dev: Device, sinks: seq<Sink>, exc: Option<Exc>, ghost s0: seq<Step>, ghost issued: nat,
                          ghost detached: bool, ghost at: SetupAt)
      returns (ghost run: BodyRun)
      requires SetupEnded(args, consts, dev, issued, exc, detached, |sinks|, at, w.trace, w.reply)
      requires steps == s0 + SetupPlan(args)[..issued] && (exc.Some? || |sinks| == 0) && Unused(sinks)
      requires Ports(sinks) == OpenedPorts(args, issued, exc.Some?, at)
      modifies this`steps
      ensures run.setupIssued == issued && run.setupExc == exc && run.detached == detached && run.at == at && run.pump == []
      ensures steps == s0 + BodySteps(args, run)
      ensures BodyEnded(args, consts, dev, run, exc, w.trace, w.reply) && SinksAt(sinks, run.pump, 0)
      ensures Ports(sinks) == BodyEndPorts(args, consts, run, w.reply)
    {
      if exc.None? {
        steps := steps + [NoTargets];
        Associative(s0, SetupPlan(args)[..issued], [NoTargets]);
      }
      BodyOfSetup(args, consts, dev, issued, exc, detached, |sinks|, at, w.trace, w.reply);
      run := BodyRun(issued, exc, detached, [], None, at, PumpTrace([], [], [], 0, at.end, at.end, []), at.end);
    }

    /** The pump of a body whose setup, from `at`, made every call with
        none raising and opened `sinks`. */
    method PumpSession(dev: Device, sinks: seq<Sink>, ghost s0: seq<Step>, ghost detached: bool, ghost at: SetupAt)
      returns (bodyExc: Option<Exc>, ghost run: BodyRun)
      requires SignalState() && Wired(sinks, w) && Distinct(sinks) && Unused(sinks)
      requires SetupEnded(args, consts, dev, |SetupPlan(args)|, None, detached, |sinks|, at, w.trace, w.reply) && |sinks| > 0
      requires steps == s0 + SetupPlan(args) && Ports(sinks) == OpenedPorts(args, |SetupPlan(args)|, false, at)
      modifies this`shouldRun, this`steps, w, SinkObjects(sinks)
      ensures SignalState() && old(w.trace) <= w.trace
      ensures run == BodyRun(|SetupPlan(args)|, None, detached, run.pump, bodyExc, at, run.pumped, |w.trace|)
      ensures steps == s0 + BodySteps(args, run)
      ensures BodyEnded(args, consts, dev, run, bodyExc, w.trace, w.reply) && PumpRan(args, run)
      ensures SinksAt(sinks, run.pump, 0) && Ports(sinks) == BodyEndPorts(args, consts, run, w.reply)
    {
      ghost var t1 := w.trace;
      ghost var s1 := steps;
      ghost var p;
      bodyExc, p := Pump(sinks);
      Associative(s1, Rounds(p.samples, |sinks|), p.partial);
      Associative(s0, SetupPlan(args), Rounds(p.samples, |sinks|) + p.partial);
      BodyOfPump(args, consts, dev, detached, |sinks|, at, p, bodyExc, t1, w.trace, w.reply);
      run := BodyRun(|SetupPlan(args)|, None, detached, Rounds(p.samples, |sinks|) + p.partial, bodyExc, at, p, |w.trace|);
    }

    /** The close loop of the `finally` block: closes the forwarders in
        registration order, ending with the first exception a close raises.
        The first `closed` forwarders had their `close` called once more,
        and no forwarder was handed anything. */
    method CloseAll(sinks: seq<Sink>) returns (exc: Option<Exc>, ghost closed: nat)
      requires Wired(sinks, w) && Distinct(sinks)
      modifies this`steps, w, SinkObjects(sinks)
      ensures old(w.trace) <= w.trace
      ensures closed <= |sinks| && steps == old(steps) + CloseSteps(closed)
      ensures exc.None? ==> closed == |sinks|
      ensures exc.Some? ==> closed >= 1
      ensures forall i :: 0 <= i < |sinks| ==> Handed(sinks[i]) == old(Handed(sinks[i]))
      ensures forall i :: 0 <= i < |sinks| ==> Closes(sinks[i]) == old(Closes(sinks[i])) + (if i < closed then 1 else 0)
      ensures var d := ClosedAll(old(Ports(sinks)), w.reply, |old(w.trace)|);
        && w.trace == old(w.trace) + d.calls && exc == d.exc && closed == d.reached && Ports(sinks) == d.ports
    {
      ghost var s0 := steps;
      ghost var t0 := w.trace;
      ghost var p0 := Ports(sinks);
      ghost var step := Closing(w.reply);
      DaemonIsNoSink(sinks, this);
      SweptNone(p0, step, t0);
      exc, closed := None, 0;
      for i := 0 to |sinks|
        invariant exc.None? && closed == i && steps == s0 && t0 <= w.trace
        invariant forall j :: 0 <= j < |sinks| ==> Handed(sinks[j]) == old(Handed(sinks[j]))
        invariant forall j :: 0 <= j < |sinks| ==>
          Closes(sinks[j]) == old(Closes(sinks[j])) + (if j < i then 1 else 0)
        invariant Swept(p0, step, t0, i, w.trace, Ports(sinks))
      {
        closed := i + 1;
        ghost var t1 := w.trace;
        var e := CloseTurn(sinks, i, p0, t0);
        Grown(t0, t1, w.trace);
        if e.Some? {
          exc := e;
          break;
        }
      }
      if exc.None? {
        SweptAll(p0, step, t0, w.trace, Ports(sinks));
      }
      steps := steps + CloseSteps(closed);
    }

    /** Turn `i` of the close loop that started on the trace `t0` with the
        forwarders in states `p0`. */
    method CloseTurn(sinks: seq<Sink>, i: nat, ghost p0: seq<Port>, ghost t0: seq<Op>) returns (exc: Option<Exc>)
      requires Wired(sinks, w) && Distinct(sinks) && i < |sinks|
      requires Swept(p0, Closing(w.reply), t0, i, w.trace, Ports(sinks))
      modifies w, SinkObject(sinks[i])
      ensures old(w.trace) <= w.trace
      ensures forall j :: 0 <= j < |sinks| ==> Handed(sinks[j]) == old(Handed(sinks[j]))
      ensures forall j :: 0 <= j < |sinks| ==> Closes(sinks[j]) == old(Closes(sinks[j])) + (if j == i then 1 else 0)
      ensures exc.None? ==> Swept(p0, Closing(w.reply), t0, i + 1, w.trace, Ports(sinks))
      ensures exc.Some? ==> var d := ClosedAll(p0, w.reply, |t0|);
        && w.trace == t0 + d.calls && Ports(sinks) == d.ports && exc == d.exc && d.reached == i + 1
    {
      ghost var t1 := w.trace;
      ghost var ports1 := Ports(sinks);
      exc := CloseOne(sinks, i);
      SweptStep(p0, Closing(w.reply), t0, i, t1, ports1, CloseOutcome(ports1[i], w.reply, |t1|), w.trace, Ports(sinks));
    }

    /** `close` on forwarder `i` of the list: it alone has its `close`
        called, and no forwarder is handed anything. */
    method CloseOne(sinks: seq<Sink>, i: nat) returns (exc: Option<Exc>)
      requires Wired(sinks, w) && Distinct(sinks) && i < |sinks|
      modifies w, SinkObject(sinks[i])
      ensures old(w.trace) <= w.trace
      ensures forall j :: 0 <= j < |sinks| ==> Handed(sinks[j]) == old(Handed(sinks[j]))
      ensures forall j :: 0 <= j < |sinks| ==> Closes(sinks[j]) == old(Closes(sinks[j])) + (if j == i then 1 else 0)
      ensures var k := old(Ports(sinks))[i]; var base := |old(w.trace)|;
        && w.trace == old(w.trace) + CloseCalls(k)
        && exc == CloseRaised(k, w.reply, base)
        && Ports(sinks) == old(Ports(sinks))[i := AfterClose(k, w.reply, base)]
    {
      match sinks[i]
      case ToUInput(u) =>
        exc := u.Close();
      case ToSocket(k) =>
        exc := k.Close();
    }

    /** The `finally` block of `_serve_device`: close every forwarder,
        release a claimed interface, re-attach a detached driver (swallowing
        whatever that raises) and run the `set_alt` recovery, the last two
        unless `--skip-set-alt`. An exception raised here ends the block and
        replaces the pending one. */
    method Teardown(dev: Device, sinks: seq<Sink>, claimed: bool, detached: bool, pending: Option<Exc>, ghost pump: seq<Step>,
                    ghost ports: seq<Port>)
      returns (exc: Option<Exc>, ghost t: TeardownRun)
      requires Wired(sinks, w) && Distinct(sinks) && SinksAt(sinks, pump, 0) && Ports(sinks) == ports
      modifies this`steps, w, SinkObjects(sinks)
      ensures old(w.trace) <= w.trace
      ensures WellFormedTeardown(args, claimed, |sinks|, t)
      ensures steps == old(steps) + TeardownSteps(args, claimed, detached, t)
      ensures exc == TeardownExc(t, pending)
      ensures t.closeAt == |old(w.trace)| && t.ports == ports && t.end == |w.trace|
      ensures ClosesInWorld(t, w.trace, w.reply)
      ensures TailInWorld(args, consts, dev, claimed, detached, t, w.trace, w.reply)
      ensures SinksAt(sinks, pump, t.closesIssued)
    {
      ghost var s0 := steps;
      ghost var t0 := w.trace;
      ghost var p0 := ports;
      DaemonIsNoSink(sinks, this);
      ghost var closed;
      exc, closed := CloseAll(sinks);
      ghost var t1 := w.trace;
      assert t1[|t0|..] == ClosedAll(p0, w.reply, |t0|).calls;
      if exc.Some? {
        t := TeardownRun(closed, exc, None, None, |t1|, |t1|, |t0|, p0);
      } else {
        var released, setAlt := ReleaseAndReset(dev, claimed, detached);
        t := TeardownRun(|sinks|, None, released, setAlt, |t1|, |w.trace|, |t0|, p0);
        SliceKept(t1, w.trace, |t0|, |t1|);
        Associative(s0, CloseSteps(|sinks|), ReleaseOnwards(args, claimed, detached, released));
        exc := if released.Some? then released else if setAlt.Some? then setAlt else pending;
      }
      Grown(t0, t1, w.trace);
    }

    /** The `finally` block once every forwarder is closed: release a claimed
        interface, then re-attach and reset. */
    method ReleaseAndReset(dev: Device, claimed: bool, detached: bool) returns (released: Option<Exc>, setAlt: Option<Exc>)
      modifies this`steps, w
      ensures w.trace == old(w.trace) + TailOps(w.reply, |old(w.trace)|, args, dev, consts.stylusInterface, claimed, detached)
      ensures released == TailRelease(w.reply, |old(w.trace)|, claimed)
      ensures setAlt == TailSetAlt(w.reply, |old(w.trace)|, args, dev, claimed, detached)
      ensures steps == old(steps) + ReleaseOnwards(args, claimed, detached, released)
      ensures released.Some? ==> claimed && setAlt.None?
      ensures setAlt.Some? ==> !args.skipSetAlt
    {
      ghost var s0 := steps;
      ghost var t0 := w.trace;
      released := None;
      if claimed {
        steps := steps + [Release];
        released := UsbIo.ReleaseInterface(w, consts.stylusInterface);
        if released.Some? {
          return released, None;
        }
      }
      ghost var t1 := w.trace;
      setAlt := Reset(dev, detached);
      if claimed {
        Associative(s0, [Release], ReattachOnwards(args, detached));
        Associative(t0, t1[|t0|..], ResetOps(args, dev, consts.stylusInterface, detached));
        assert t1 == t0 + t1[|t0|..];
      }
    }

    /** The end of the `finally` block, unless `--skip-set-alt`: re-attach a
        detached driver, swallowing whatever that raises, then the `set_alt`
        recovery. */
    method Reset(dev: Device, detached: bool) returns (setAlt: Option<Exc>)
      modifies this`steps, w
      ensures w.trace == old(w.trace) + ResetOps(args, dev, consts.stylusInterface, detached)
      ensures setAlt == if args.skipSetAlt then None
        else UsbIo.SetAltResult(w.reply, |old(w.trace)| + (if detached then 1 else 0), dev)
      ensures steps == old(steps) + ReattachOnwards(args, detached)
    {
      if args.skipSetAlt {
        return None;
      }
      ghost var s0 := steps;
      ghost var t0 := w.trace;
      if detached {
        steps := steps + [Attach];
        var ignored := UsbIo.AttachKernelDriver(w, consts.stylusInterface);
      }
      ghost var t1 := w.trace;
      steps := steps + [SetAlt];
      setAlt := UsbIo.ForceSetAlt(w, dev, consts.stylusInterface);
      if detached {
        assert steps == s0 + [Attach, SetAlt];
        Associative(t0, [AttachKernelDriver(consts.stylusInterface)], UsbIo.SetAltOps(dev, consts.stylusInterface));
      } else {
        assert t1 == t0 && [] + UsbIo.SetAltOps(dev, consts.stylusInterface) == UsbIo.SetAltOps(dev, consts.stylusInterface);
      }
    }

    /** `_serve_device`: the body, the `except usb.core.USBError`, then the
        teardown. Its calls are the ones `run` places in the trace; each of
        its forwarders was handed exactly what the pump's log delivers to it
        and closed once if the close loop reached it. */
    method ServeDevice(dev: Device) returns (exc: Option<Exc>, ghost run: Session, ghost sinks: seq<Sink>)
      requires SignalState()
      modifies this`shouldRun, this`steps, w
      ensures SignalState() && old(w.trace) <= w.trace
      ensures run.args == args
      ensures steps == old(steps) + ServeSteps(run)
      ensures exc == ServeExc(run)
      ensures run.body.at.unlock == |old(w.trace)| && run.teardown.end == |w.trace|
      ensures SessionInWorld(consts, dev, run, w.trace, w.reply)
      ensures |sinks| == SinkCount(args, run.body) && Distinct(sinks)
      ensures SinksAt(sinks, run.body.pump, run.teardown.closesIssued)
    {
      ghost var s0 := steps;
      var bodyExc, live, claimed, detached;
      ghost var body;
      bodyExc, live, claimed, detached, body := ServeBody(dev);
      sinks := live;
      exc, run := CloseSession(dev, live, claimed, detached, bodyExc, body);
      Associative(s0, BodySteps(args, body), TeardownSteps(args, claimed, detached, run.teardown));
    }

    /** The `except` and `finally` of a session whose body ended with
        `bodyExc`, leaving the forwarders `sinks` open. */
    method CloseSession(dev: Device, sinks: seq<Sink>, claimed: bool, detached: bool, bodyExc: Option<Exc>, ghost body: BodyRun)
      returns (exc: Option<Exc>, ghost run: Session)
      requires Wired(sinks, w) && Distinct(sinks) && SinksAt(sinks, body.pump, 0) && |sinks| == SinkCount(args, body)
      requires BodyEnded(args, consts, dev, body, bodyExc, w.trace, w.reply)
      requires claimed == Claimed(args, body) && detached == body.detached
      requires Ports(sinks) == BodyEndPorts(args, consts, body, w.reply)
      modifies this`steps, w, SinkObjects(sinks)
      ensures old(w.trace) <= w.trace
      ensures run == ServeRun(args, body, run.teardown)
      ensures steps == old(steps) + TeardownSteps(args, claimed, detached, run.teardown)
      ensures exc == ServeExc(run) && run.teardown.end == |w.trace|
      ensures SessionInWorld(consts, dev, run, w.trace, w.reply)
      ensures SinksAt(sinks, body.pump, run.teardown.closesIssued)
    {
      ghost var t1 := w.trace;
      ghost var td;
      exc, td := Teardown(dev, sinks, claimed, detached, Pending(bodyExc), body.pump, BodyEndPorts(args, consts, body, w.reply));
      run := ServeRun(args, body, td);
      SessionFromParts(args, consts, dev, body, bodyExc, td, t1, w.trace, w.reply);
    }

    /** The lookup at the head of one pass: enumerate, pick the tablet with
        the selector, and sleep the scan interval when it is not there. */
    method Find(selector: Option<string>) returns (found: Result<Device, Exc>)
      requires SignalState()
      modifies this`steps, w
      ensures SignalState()
      ensures w.trace == old(w.trace) + [Enumerate(consts.vendorId, consts.productId)]
        + (if found == Err(TabletNotFoundError) then [Sleep(ScanInterval)] else [])
      ensures UsbIo.FindOutcome(w.reply(|old(w.trace)|), selector, found)
      ensures found.Ok? ==> UsbIo.Selects(selector, found.value)
      ensures found != Err(TabletNotFoundError) ==> steps == old(steps) + [Scan]
      ensures found == Err(TabletNotFoundError) ==> steps == old(steps) + [Scan, Rescan]
    {
      steps := steps + [Scan];
      found := UsbIo.FindDevice(w, consts.vendorId, consts.productId, selector);
      if found == Err(TabletNotFoundError) {
        steps := steps + [Rescan];
        var slept := w.Call(Sleep(ScanInterval));
      }
    }

    /** One pass of the loop of `run` and `_serve_explicit`: look for the
        tablet with the selector; when it is not there sleep the scan
        interval, otherwise serve it and sleep a second. */
    method ScanOnce(selector: Option<string>) returns (exc: Option<Exc>, ghost round: ScanRound, ghost tail: seq<Step>)
      requires SignalState()
      modifies this`shouldRun, this`steps, w
      ensures SignalState() && old(w.trace) <= w.trace && |old(w.trace)| < |w.trace|
      ensures round.Served? ==> round.run.args == args && UsbIo.Selects(selector, round.dev)
      ensures round.at == |old(w.trace)|
      ensures exc.None? ==> steps == old(steps) + RoundLog(round)
      ensures exc.None? ==> RoundEnd(round) == |w.trace| && RoundInWorld(consts, args, selector, round, w.trace, w.reply)
      ensures exc.Some? ==> steps == old(steps) + tail && tail == RaisedLog(round)
      ensures exc.Some? ==> RoundRaised(consts, args, selector, round, exc.value, w.trace, w.reply)
    {
      ghost var s0 := steps;
      ghost var t0 := w.trace;
      var found := Find(selector);
      if found == Err(TabletNotFoundError) {
        return None, NotFound(|t0|), [];
      }
      if found.Err? {
        assert RaisedLog(NotFound(|t0|)) == [Scan];
        return Some(found.error), NotFound(|t0|), [Scan];
      }
      ghost var run;
      exc, run := ServeFound(selector, found.value, |t0|);
      round, tail := Served(found.value, run, |t0|), [Scan] + ServeSteps(run);
      Associative(s0, [Scan], ServeSteps(run));
      assert RaisedLog(round) == tail;
      if exc.None? {
        Associative(s0, tail, [Pause]);
      }
    }

    /** The served half of a pass: the session of the device the selection
        picked at `at`, then, unless it raised, the one-second sleep. */
    method ServeFound(selector: Option<string>, dev: Device, ghost at: nat) returns (exc: Option<Exc>, ghost run: Session)
      requires SignalState() && at + 1 == |w.trace| && w.trace[at] == Enumerate(consts.vendorId, consts.productId)
      requires UsbIo.FindOutcome(w.reply(at), selector, Ok(dev))
      modifies this`shouldRun, this`steps, w
      ensures SignalState() && old(w.trace) < w.trace
      ensures run.args == args
      ensures exc == ServeExc(run)
      ensures exc.Some? ==> steps == old(steps) + ServeSteps(run)
      ensures exc.Some? ==> RoundRaised(consts, args, selector, Served(dev, run, at), exc.value, w.trace, w.reply)
      ensures exc.None? ==> steps == old(steps) + ServeSteps(run) + [Pause]
      ensures exc.None? ==>
        RoundEnd(Served(dev, run, at)) == |w.trace| && RoundInWorld(consts, args, selector, Served(dev, run, at), w.trace, w.reply)
    {
      ghost var t0 := w.trace;
      ghost var sinks;
      exc, run, sinks := ServeDevice(dev);
      ghost var t1 := w.trace;
      SessionCalls(consts, dev, run, t1, w.reply);
      assert t1[at] == t0[at];
      if exc.None? {
        PauseAfterSession();
        ServedRound(consts, args, selector, dev, run, at, t1, w.trace, w.reply);
      }
      Grown(t0, t1, w.trace);
    }

    /** The one-second sleep after a session that returned normally. */
    method PauseAfterSession()
      requires SignalState()
      modifies this`steps, w
      ensures SignalState()
      ensures steps == old(steps) + [Pause] && w.trace == old(w.trace) + [Sleep(OneSecond)]
    {
      steps := steps + [Pause];
      var slept := w.Call(Sleep(OneSecond));
    }

    /** What the scanning loop has done since the trace had `from` calls
        and the log stood at `s0`: the passes `rounds`, back to back. */
    ghost predicate ScannedSoFar(selector: Option<string>, from: nat, s0: seq<Step>, rounds: seq<ScanRound>)
      reads this`steps, w
    {
      Scanned(args, consts, selector, from, s0, rounds, steps, w.trace, w.reply)
    }

    /** One turn of the scanning loop after what `ScannedSoFar` describes. */
    method ScanStep(selector: Option<string>, ghost from: nat, ghost s0: seq<Step>, ghost rounds: seq<ScanRound>)
      returns (exc: Option<Exc>, ghost round: ScanRound, ghost tail: seq<Step>)
      requires SignalState() && ScannedSoFar(selector, from, s0, rounds)
      modifies this`shouldRun, this`steps, w
      ensures SignalState() && old(w.trace) < w.trace
      ensures exc.None? ==> ScannedSoFar(selector, from, s0, rounds + [round])
      ensures exc.Some? ==>
        && steps == s0 + ScanLog(rounds) + tail && tail == RaisedLog(round)
        && RoundsInWorld(consts, args, selector, rounds, from, w.trace, w.reply)
        && round.at == RoundsEnd(rounds, from)
        && RoundRaised(consts, args, selector, round, exc.value, w.trace, w.reply)
    {
      ghost var t := w.trace;
      ghost var log := steps;
      exc, round, tail := ScanOnce(selector);
      if exc.None? {
        ScannedExtend(args, consts, selector, from, s0, rounds, round, log, t, w.trace, w.reply);
      } else {
        RoundsKept(consts, args, selector, rounds, from, t, w.trace, w.reply);
      }
    }

    /** The loop of `run` and `_serve_explicit`, until the stop signal. An
        exception other than `TabletNotFoundError` ends it. The passes sit
        back to back in the trace from where the loop started. */
    method ScanLoop(selector: Option<string>)
      returns (exc: Option<Exc>, ghost rounds: seq<ScanRound>, ghost tail: seq<Step>, ghost last: ScanRound)
      requires SignalState()
      modifies this`shouldRun, this`steps, w
      ensures SignalState() && old(w.trace) <= w.trace
      ensures steps == old(steps) + ScanLog(rounds) + tail
      ensures forall k :: 0 <= k < |rounds| && rounds[k].Served? ==>
        rounds[k].run.args == args && UsbIo.Selects(selector, rounds[k].dev)
      ensures RoundsInWorld(consts, args, selector, rounds, |old(w.trace)|, w.trace, w.reply)
      ensures exc.None? ==> tail == [] && !shouldRun && |w.trace| >= w.stopAt
      ensures exc.None? ==> RoundsEnd(rounds, |old(w.trace)|) == |w.trace|
      ensures exc.Some? ==>
        && tail == RaisedLog(last) && last.at == RoundsEnd(rounds, |old(w.trace)|)
        && RoundRaised(consts, args, selector, last, exc.value, w.trace, w.reply)
    {
      rounds, tail, last := [], [], NotFound(0);
      ghost var s0 := steps;
      ghost var t0 := w.trace;
      assert steps == s0 + ScanLog(rounds);
      DeliverSignals();
      while shouldRun
        invariant SignalState() && (shouldRun ==> |w.trace| < w.stopAt)
        invariant t0 <= w.trace && tail == []
        invariant ScannedSoFar(selector, |t0|, s0, rounds)
        decreases w.stopAt - |w.trace|
      {
        var e;
        ghost var round, partial;
        ghost var t1 := w.trace;
        e, round, partial := ScanStep(selector, |t0|, s0, rounds);
        Grown(t0, t1, w.trace);
        if e.Some? {
          return e, rounds, partial, round;
        }
        rounds := rounds + [round];
        DeliverSignals();
      }
      exc := None;
    }

    /** `run`: the explicit selector loop when `--device` is given, else the
        scanning loop. */
    method Run() returns (exc: Option<Exc>, ghost rounds: seq<ScanRound>, ghost tail: seq<Step>, ghost last: ScanRound)
      requires SignalState()
      modifies this`shouldRun, this`steps, w
      ensures SignalState() && old(w.trace) <= w.trace
      ensures steps == old(steps) + ScanLog(rounds) + tail
      ensures forall k :: 0 <= k < |rounds| && rounds[k].Served? ==>
        rounds[k].run.args == args &&
        if Truthy(args.device) then UsbIo.MatchesUgen(rounds[k].dev, args.device.value) else true
      ensures RoundsInWorld(consts, args, Selector(args), rounds, |old(w.trace)|, w.trace, w.reply)
      ensures exc.None? ==> tail == [] && !shouldRun && |w.trace| >= w.stopAt
      ensures exc.None? ==> RoundsEnd(rounds, |old(w.trace)|) == |w.trace|
      ensures exc.Some? ==>
        && tail == RaisedLog(last) && last.at == RoundsEnd(rounds, |old(w.trace)|)
        && RoundRaised(consts, args, Selector(args), last, exc.value, w.trace, w.reply)
    {
      if Truthy(args.device) {
        exc, rounds, tail, last := ScanLoop(Some(args.device.value));
      } else {
        exc, rounds, tail, last := ScanLoop(None);
      }
    }
  }
}
