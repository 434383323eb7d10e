/** The outside world as the bridge sees it: every call into pyusb, libc,
    the socket layer, `subprocess` or `time.sleep` is an `Op` appended to one
    trace, and its outcome is read from an oracle indexed by the position of
    the call in that trace. The stop signal is part of the world too: it has
    arrived once the trace has reached `stopAt` entries. */
module Io {
  import opened Common

  /** The third argument of an `ioctl`, as the forwarder builds it. */
  datatype IoctlArg =
    | NoArg
    | IntArg(v: int)
    | AbsSetup(code: int, value: int, minimum: int, maximum: int, fuzz: int, flat: int, resolution: int)
    | DevSetup(busType: int, vendor: int, product: int, version: int, name: seq<Byte>, ffEffectsMax: int)
    | NameBuffer(size: nat)

  /** One `input_event` record (its timestamp is not modelled). */
  datatype InputEvent = InputEvent(evType: int, code: int, value: int)

  /** A delay passed to `time.sleep`. */
  datatype Delay = ScanInterval | OneSecond

  datatype Op =
      // pyusb
    | Enumerate(vendor: int, product: int)
    | SetConfiguration
    | CtrlTransfer(bmRequestType: int, bRequest: int, wValue: int, wIndex: int, wLength: int)
    | IsKernelDriverActive(iface: int)
    | DetachKernelDriver(iface: int)
    | AttachKernelDriver(iface: int)
    | ClaimInterface(iface: int)
    | ReleaseInterface(iface: int)
    | DisposeResources
    | Read(endpoint: int, size: int, timeout: int)
      // subprocess
    | RunCommand(argv: seq<string>)
      // libc and os
    | OpenDevice(path: string)
    | Ioctl(fd: nat, request: bv64, arg: IoctlArg)
    | WriteEvent(fd: nat, event: InputEvent)
    | CloseFd(fd: nat)
      // socket
    | SocketCreate
    | SocketConnect(sock: nat, path: string)
    | SendAll(sock: nat, payload: string)
    | SocketClose(sock: nat)
      // time
    | Sleep(delay: Delay)

  /** What a call came back with. `Raise` means the call raised (or, for an
      `ioctl`, returned non-zero); every other reply is a normal return, with
      the data the call yields where it yields any. */
  datatype Reply =
    | Done
    | Raise(exc: Exc)
    | Flag(b: bool)
    | Data(bytes: seq<Byte>)
    | Name(text: string)
    | Devices(devices: seq<Device>)

  predicate Failed(r: Reply) { r.Raise? }

  /** The boolean a normal return carries (false when it carries none). */
  function FlagOf(r: Reply): bool { r.Flag? && r.b }

  /** The bytes a normal return carries (empty when it carries none). */
  function BytesOf(r: Reply): seq<Byte> { if r.Data? then r.bytes else [] }

  /** The string a normal return carries (empty when it carries none). */
  function NameOf(r: Reply): string { if r.Name? then r.text else "" }

  /** The devices a normal return carries (none when it carries none). */
  function DevicesOf(r: Reply): seq<Device> { if r.Devices? then r.devices else [] }

  class World {
    var trace: seq<Op>
    const reply: nat -> Reply
    const stopAt: nat

    constructor (reply: nat -> Reply, stopAt: nat)
      ensures trace == [] && this.reply == reply && this.stopAt == stopAt
    {
      trace := [];
      this.reply := reply;
      this.stopAt := stopAt;
    }

    /** Performs one call: records it and returns its outcome. */
    method Call(op: Op) returns (r: Reply)
      modifies this
      ensures trace == old(trace) + [op]
      ensures r == reply(|old(trace)|)
    {
      r := reply(|trace|);
      trace := trace + [op];
    }
  }

  /** The calls at positions `base .. base + n - 1` all returned normally. */
  ghost predicate NoFailures(reply: nat -> Reply, base: nat, n: nat)
  {
    forall p: nat :: base <= p < base + n ==> !Failed(reply(p))
  }

  /** No call from position `from` of `t` on reads the stylus endpoint. */
  ghost predicate NoReadsIn(t: seq<Op>, from: nat)
  {
    forall q :: from <= q < |t| ==> !t[q].Read?
  }

  /** A trace that grew keeps its earlier calls where they were. */
  lemma SliceKept(t: seq<Op>, t': seq<Op>, a: nat, b: nat)
    requires t <= t' && a <= b <= |t|
    ensures t'[a..b] == t[a..b] && t'[..b] == t[..b]
    ensures forall q :: a <= q < b ==> t'[q] == t[q]
  {
    assert t == t'[..|t|];
  }

  /** A trace that grew twice grew. */
  lemma Grown(t: seq<Op>, t': seq<Op>, t'': seq<Op>)
    requires t <= t' && t' <= t''
    ensures t <= t'' && (|t| < |t''| ==> t < t'')
  {
  }

  /** Two stretches without reads make one. */
  lemma NoReadsJoin(t: seq<Op>, t': seq<Op>, from: nat)
    requires NoReadsIn(t, from) && t <= t' && NoReadsIn(t', |t|)
    ensures NoReadsIn(t', from)
  {
    SliceKept(t, t', 0, |t|);
  }

  /** Issuing a plan of `planned` calls one after the other and stopping at
      the first one that raises leaves `issued` of them issued; `ok` says the
      whole plan ran with every call returning normally, and otherwise the
      last call issued is the first that raised. */
  ghost predicate StoppedAtFirstFailure(reply: nat -> Reply, base: nat, planned: nat, issued: nat, ok: bool)
  {
    && issued <= planned
    && (ok ==> issued == planned && NoFailures(reply, base, planned))
    && (!ok ==> 0 < issued && NoFailures(reply, base, issued - 1) && Failed(reply(base + issued - 1)))
  }

  /** How many calls of a plan of `planned` calls from `base` are made when
      the first one that raises ends it. */
  ghost function IssuedUntilFailure(reply: nat -> Reply, base: nat, planned: nat): (issued: nat)
    ensures issued <= planned
    decreases planned
  {
    if planned == 0 then 0
    else if Failed(reply(base)) then 1
    else 1 + IssuedUntilFailure(reply, base + 1, planned - 1)
  }

  /** A plan that stopped at its first failure made exactly
      `IssuedUntilFailure` calls, and ran whole exactly when none of its
      calls raised. */
  lemma {:induction false} StoppedIsUntilFailure(reply: nat -> Reply, base: nat, planned: nat, issued: nat, ok: bool)
    requires StoppedAtFirstFailure(reply, base, planned, issued, ok)
    ensures issued == IssuedUntilFailure(reply, base, planned)
    ensures ok <==> NoFailures(reply, base, planned)
    decreases planned
  {
    if planned == 0 {
    } else if Failed(reply(base)) {
      assert !NoFailures(reply, base, planned);
    } else {
      if ok {
        assert NoFailures(reply, base + 1, planned - 1);
        StoppedIsUntilFailure(reply, base + 1, planned - 1, issued - 1, ok);
      } else {
        assert issued > 1;
        assert NoFailures(reply, base + 1, issued - 2);
        StoppedIsUntilFailure(reply, base + 1, planned - 1, issued - 1, ok);
        assert !NoFailures(reply, base, planned) by {
          assert Failed(reply(base + issued - 1));
        }
      }
    }
  }

  /** One more call of a plan that has so far run without failure. */
  lemma PlanStep(reply: nat -> Reply, t0: seq<Op>, plan: seq<Op>, k: nat, trace: seq<Op>)
    requires k < |plan| && trace == t0 + plan[..k] + [plan[k]] && NoFailures(reply, |t0|, k)
    ensures trace == t0 + plan[..k + 1]
    ensures !Failed(reply(|t0| + k)) ==> NoFailures(reply, |t0|, k + 1)
    ensures !Failed(reply(|t0| + k)) && k + 1 == |plan| ==> StoppedAtFirstFailure(reply, |t0|, |plan|, k + 1, true)
    ensures Failed(reply(|t0| + k)) ==> StoppedAtFirstFailure(reply, |t0|, |plan|, k + 1, false)
  {
    assert plan[..k + 1] == plan[..k] + [plan[k]];
  }
}
