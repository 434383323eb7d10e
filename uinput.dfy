/** The uinput forwarder: creates a virtual pen device through uinput
    ioctls, replays each sample as a frame of input events and destroys the
    device on close. The ioctls, writes and closes are calls on the `World`. */
module UInput {
  import opened Common
  import opened Io
  import opened Ioctl
  import opened Stylus

  const UINPUT_PATH: string := "/dev/uinput"
  const INPUT_DIR: string := "/dev/input"
  const UINPUT_MAX_NAME_SIZE: nat := 80
  const BUS_USB: int := 0x0003

  // Event types and codes of Linux's input-event-codes.h.
  const EV_SYN: int := 0x00
  const EV_KEY: int := 0x01
  const EV_ABS: int := 0x03
  const BTN_TOUCH: int := 0x14A
  const BTN_STYLUS: int := 0x14B
  const BTN_STYLUS2: int := 0x14C
  const BTN_TOOL_PEN: int := 0x140
  const BTN_TOOL_RUBBER: int := 0x141
  const ABS_X: int := 0x00
  const ABS_Y: int := 0x01
  const ABS_PRESSURE: int := 0x18
  const ABS_TILT_X: int := 0x1A
  const ABS_TILT_Y: int := 0x1B
  const SYN_REPORT: int := 0

  // ---------------------------------------------------------------------
  // The device name

  /** The `name` field of `struct uinput_setup`: the UTF-8 name cut to 79
      bytes and NUL-padded to exactly 80, so it is always NUL-terminated. */
  function NameField(utf8Name: seq<Byte>): (field: seq<Byte>)
    ensures |field| == UINPUT_MAX_NAME_SIZE
    ensures field[UINPUT_MAX_NAME_SIZE - 1] == 0
    ensures var k := Min(|utf8Name|, UINPUT_MAX_NAME_SIZE - 1);
      field[..k] == utf8Name[..k] && forall i :: k <= i < UINPUT_MAX_NAME_SIZE ==> field[i] == 0
  {
    var encoded := if |utf8Name| <= UINPUT_MAX_NAME_SIZE - 1 then utf8Name else utf8Name[..UINPUT_MAX_NAME_SIZE - 1];
    encoded + seq(UINPUT_MAX_NAME_SIZE - |encoded|, _ => 0 as Byte)
  }

  /** The string a C reader sees in a buffer: the bytes before the first NUL. */
  function CString(buf: seq<Byte>): seq<Byte>
  {
    if |buf| == 0 || buf[0] == 0 then [] else [buf[0]] + CString(buf[1..])
  }

  lemma {:induction false} CStringOfTerminated(s: seq<Byte>, rest: seq<Byte>)
    requires 0 !in s && |rest| > 0 && rest[0] == 0
    ensures CString(s + rest) == s
    decreases |s|
  {
    if |s| > 0 {
      assert (s + rest)[1..] == s[1..] + rest;
      CStringOfTerminated(s[1..], rest);
      assert [s[0]] + s[1..] == s;
    } else {
      assert s + rest == rest;
    }
  }

  /** The kernel reads back the name it was given, cut to 79 bytes, as long
      as the name holds no NUL byte. */
  lemma NameFieldReadsBack(utf8Name: seq<Byte>)
    requires 0 !in utf8Name
    ensures CString(NameField(utf8Name)) == utf8Name[..Min(|utf8Name|, UINPUT_MAX_NAME_SIZE - 1)]
  {
    var k := Min(|utf8Name|, UINPUT_MAX_NAME_SIZE - 1);
    var field := NameField(utf8Name);
    assert field == field[..k] + field[k..];
    assert 0 !in field[..k] by {
      forall i | 0 <= i < k ensures field[..k][i] != 0 {
        assert field[..k][i] == utf8Name[i];
      }
    }
    CStringOfTerminated(field[..k], field[k..]);
  }

  // ---------------------------------------------------------------------
  // The events of one sample

  function BoolValue(b: bool): int { if b then 1 else 0 }

  const SYN_EVENT: InputEvent := InputEvent(EV_SYN, SYN_REPORT, 0)

  /** The ten state events `forward` writes for a sample, in order. */
  function SampleEvents(s: StylusSample): (evs: seq<InputEvent>)
    ensures |evs| == 10
    ensures forall i :: 0 <= i < 5 ==> evs[i].evType == EV_ABS
    ensures forall i :: 5 <= i < 10 ==> evs[i].evType == EV_KEY && (evs[i].value == 0 || evs[i].value == 1)
    ensures !(evs[8].value == 1 && evs[9].value == 1)
  {
    [InputEvent(EV_ABS, ABS_X, s.x),
     InputEvent(EV_ABS, ABS_Y, s.y),
     InputEvent(EV_ABS, ABS_PRESSURE, s.pressure),
     InputEvent(EV_ABS, ABS_TILT_X, s.tiltX),
     InputEvent(EV_ABS, ABS_TILT_Y, s.tiltY),
     InputEvent(EV_KEY, BTN_TOUCH, BoolValue(s.tip)),
     InputEvent(EV_KEY, BTN_STYLUS, BoolValue(s.barrel)),
     InputEvent(EV_KEY, BTN_STYLUS2, BoolValue(s.eraser)),
     InputEvent(EV_KEY, BTN_TOOL_PEN, BoolValue(s.inRange && !s.invert)),
     InputEvent(EV_KEY, BTN_TOOL_RUBBER, BoolValue(s.inRange && s.invert))]
  }

  /** One frame: the ten state events, then the one report that ends it. */
  function FrameEvents(s: StylusSample): (evs: seq<InputEvent>)
    ensures |evs| == 11 && evs[10] == SYN_EVENT
    ensures forall i :: 0 <= i < 10 ==> evs[i].evType != EV_SYN
  {
    SampleEvents(s) + [SYN_EVENT]
  }

  /** The value of the first event with the given type and code. */
  function Lookup(evs: seq<InputEvent>, evType: int, code: int): Option<int>
  {
    if |evs| == 0 then None
    else if evs[0].evType == evType && evs[0].code == code then Some(evs[0].value)
    else Lookup(evs[1..], evType, code)
  }

  /** What a consumer of the event node reconstructs from one frame. */
  function SampleOfFrame(evs: seq<InputEvent>): Option<StylusSample>
  {
    match (Lookup(evs, EV_ABS, ABS_X), Lookup(evs, EV_ABS, ABS_Y), Lookup(evs, EV_ABS, ABS_PRESSURE),
           Lookup(evs, EV_ABS, ABS_TILT_X), Lookup(evs, EV_ABS, ABS_TILT_Y))
    case (Some(x), Some(y), Some(p), Some(tx), Some(ty)) =>
      var pen := Lookup(evs, EV_KEY, BTN_TOOL_PEN) == Some(1);
      var rubber := Lookup(evs, EV_KEY, BTN_TOOL_RUBBER) == Some(1);
      Some(StylusSample(
        tip := Lookup(evs, EV_KEY, BTN_TOUCH) == Some(1),
        barrel := Lookup(evs, EV_KEY, BTN_STYLUS) == Some(1),
        eraser := Lookup(evs, EV_KEY, BTN_STYLUS2) == Some(1),
        inRange := pen || rubber,
        invert := rubber,
        x := x, y := y, pressure := p, tiltX := tx, tiltY := ty))
    case _ => None
  }

  lemma {:induction false} LookupFirst(evs: seq<InputEvent>, i: nat, evType: int, code: int)
    requires i < |evs| && evs[i].evType == evType && evs[i].code == code
    requires forall j :: 0 <= j < i ==> !(evs[j].evType == evType && evs[j].code == code)
    ensures Lookup(evs, evType, code) == Some(evs[i].value)
    decreases i
  {
    if i > 0 {
      LookupFirst(evs[1..], i - 1, evType, code);
    }
  }

  /** Reading a frame back by (type, code) recovers every field of the sample;
      `invert` is only observable while the pen is in range. */
  lemma FrameRoundTrip(s: StylusSample)
    ensures SampleOfFrame(FrameEvents(s)) == Some(s.(invert := s.inRange && s.invert))
  {
    var evs := FrameEvents(s);
    LookupFirst(evs, 0, EV_ABS, ABS_X);
    LookupFirst(evs, 1, EV_ABS, ABS_Y);
    LookupFirst(evs, 2, EV_ABS, ABS_PRESSURE);
    LookupFirst(evs, 3, EV_ABS, ABS_TILT_X);
    LookupFirst(evs, 4, EV_ABS, ABS_TILT_Y);
    LookupFirst(evs, 5, EV_KEY, BTN_TOUCH);
    LookupFirst(evs, 6, EV_KEY, BTN_STYLUS);
    LookupFirst(evs, 7, EV_KEY, BTN_STYLUS2);
    LookupFirst(evs, 8, EV_KEY, BTN_TOOL_PEN);
    LookupFirst(evs, 9, EV_KEY, BTN_TOOL_RUBBER);
  }

  // ---------------------------------------------------------------------
  // The configuration ioctls

  /** One absolute axis: its code, range and resolution. */
  datatype AxisSpec = AxisSpec(code: int, minimum: int, maximum: int, resolution: int)

  const EVENT_TYPES: seq<int> := [EV_KEY, EV_ABS]
  const KEY_CODES: seq<int> := [BTN_TOUCH, BTN_STYLUS, BTN_STYLUS2, BTN_TOOL_PEN, BTN_TOOL_RUBBER]
  const ABS_CODES: seq<int> := [ABS_X, ABS_Y, ABS_PRESSURE, ABS_TILT_X, ABS_TILT_Y]
  const AXES: seq<AxisSpec> := [
    AxisSpec(ABS_X, 0, 0x4585, 5080),
    AxisSpec(ABS_Y, 0, 0x2B65, 5080),
    AxisSpec(ABS_PRESSURE, 0, 0x3FFF, 1),
    AxisSpec(ABS_TILT_X, -127, 127, 1),
    AxisSpec(ABS_TILT_Y, -127, 127, 1)]

  /** `struct uinput_abs_setup` of an axis: the current value starts at the
      minimum, fuzz and flat are zero. */
  function AbsSetupOf(a: AxisSpec): IoctlArg
  {
    AbsSetup(a.code, a.minimum, a.minimum, a.maximum, 0, 0, a.resolution)
  }

  function BitOps(fd: nat, request: bv64, codes: seq<int>): (ops: seq<Op>)
    ensures |ops| == |codes|
  {
    seq(|codes|, i requires 0 <= i < |codes| => Ioctl(fd, request, IntArg(codes[i])))
  }

  /** A `c_uint16` field keeps the low 16 bits of what is stored in it. */
  function U16(v: int): (r: int)
    ensures 0 <= r < 0x1_0000 && (r - v) % 0x1_0000 == 0
    ensures 0 <= v < 0x1_0000 ==> r == v
  {
    v % 0x1_0000
  }

  function DevSetupOp(fd: nat, name: seq<Byte>, vendor: int, product: int): Op
  {
    Ioctl(fd, UI_DEV_SETUP, DevSetup(BUS_USB, U16(vendor), U16(product), 0, NameField(name), 0))
  }

  /** Every ioctl `_configure` issues, in order: capability bits, axis
      setups, device setup, device creation. */
  function ConfigurePlan(fd: nat, name: seq<Byte>, vendor: int, product: int): (plan: seq<Op>)
    ensures |plan| == 19
  {
    BitOps(fd, UI_SET_EVBIT, EVENT_TYPES)
    + BitOps(fd, UI_SET_KEYBIT, KEY_CODES)
    + BitOps(fd, UI_SET_ABSBIT, ABS_CODES)
    + seq(|AXES|, i requires 0 <= i < |AXES| => Ioctl(fd, UI_ABS_SETUP, AbsSetupOf(AXES[i])))
    + [DevSetupOp(fd, name, vendor, product), Ioctl(fd, UI_DEV_CREATE, NoArg)]
  }

  /** The entries of the plan one by one, as `_configure` issues them. */
  lemma ConfigurePlanEntries(fd: nat, name: seq<Byte>, vendor: int, product: int)
    ensures var plan := ConfigurePlan(fd, name, vendor, product);
      && (forall i :: 0 <= i < 2 ==> plan[i] == Ioctl(fd, UI_SET_EVBIT, IntArg(EVENT_TYPES[i])))
      && (forall i :: 2 <= i < 7 ==> plan[i] == Ioctl(fd, UI_SET_KEYBIT, IntArg(KEY_CODES[i - 2])))
      && (forall i :: 7 <= i < 12 ==> plan[i] == Ioctl(fd, UI_SET_ABSBIT, IntArg(ABS_CODES[i - 7])))
      && (forall i :: 12 <= i < 17 ==> plan[i] == Ioctl(fd, UI_ABS_SETUP, AbsSetupOf(AXES[i - 12])))
      && plan[17] == DevSetupOp(fd, name, vendor, product)
      && plan[18] == Ioctl(fd, UI_DEV_CREATE, NoArg)
  {
  }

  predicate IsCapabilityRequest(request: bv64)
  {
    request == UI_SET_EVBIT || request == UI_SET_KEYBIT || request == UI_SET_ABSBIT || request == UI_ABS_SETUP
  }

  /** The plan's order: every capability bit and axis setup precedes the
      device setup, which precedes the creation; each axis setup starts the
      axis at its minimum with zero fuzz and flat. */
  lemma ConfigurePlanOrder(fd: nat, name: seq<Byte>, vendor: int, product: int)
    ensures var plan := ConfigurePlan(fd, name, vendor, product);
      && (forall i :: 0 <= i < 17 ==> plan[i].Ioctl? && IsCapabilityRequest(plan[i].request))
      && plan[17] == DevSetupOp(fd, name, vendor, product)
      && plan[18] == Ioctl(fd, UI_DEV_CREATE, NoArg)
      && (forall i :: 12 <= i < 17 ==>
            (plan[i].request == UI_ABS_SETUP && plan[i].arg.AbsSetup?
             && plan[i].arg.value == plan[i].arg.minimum && plan[i].arg.fuzz == 0 && plan[i].arg.flat == 0))
  {
    RequestsDistinct(0);
  }

  /** A prefix of the plan that contains the device setup contains all 17
      capability ioctls before it, and one that contains the creation also
      contains the device setup. */
  lemma SetupBeforeCreate(fd: nat, name: seq<Byte>, vendor: int, product: int, issued: nat)
    requires issued <= 19
    ensures var done := ConfigurePlan(fd, name, vendor, product)[..issued];
      && (forall i :: 0 <= i < |done| && done[i].Ioctl? && done[i].request == UI_DEV_SETUP ==> i == 17)
      && (forall i :: 0 <= i < |done| && done[i].Ioctl? && done[i].request == UI_DEV_CREATE ==>
            i == 18 && done[17] == DevSetupOp(fd, name, vendor, product))
  {
    ConfigurePlanOrder(fd, name, vendor, product);
    RequestsDistinct(0);
  }

  /** The sysname query sizes, tried in order. */
  const SYSNAME_LENGTHS: seq<bv32> := [32, 64, 128]

  function SysnameQuery(fd: nat, length: bv32): Op
  {
    Ioctl(fd, UI_GET_SYSNAME(length), NameBuffer(length as nat))
  }

  function SysnameQueries(fd: nat, n: nat): (ops: seq<Op>)
    requires n <= |SYSNAME_LENGTHS|
    ensures |ops| == n
  {
    seq(n, i requires 0 <= i < n => SysnameQuery(fd, SYSNAME_LENGTHS[i]))
  }

  /** A query that succeeded and named a node. */
  predicate Resolved(r: Reply) { !Failed(r) && NameOf(r) != "" }

  /** `os.path.join(INPUT_DIR, name)`. */
  function JoinPath(dir: string, name: string): string
  {
    if |name| > 0 && name[0] == '/' then name
    else if |dir| > 0 && dir[|dir| - 1] == '/' then dir + name
    else dir + "/" + name
  }

  function WriteOps(fd: nat, evs: seq<InputEvent>): (ops: seq<Op>)
    ensures |ops| == |evs|
  {
    seq(|evs|, i requires 0 <= i < |evs| => WriteEvent(fd, evs[i]))
  }

  /** The writes of a frame, or of any prefix of it, read nothing. */
  lemma FrameWritesNoReads(t0: seq<Op>, fd: nat, s: StylusSample, k: nat)
    requires k <= 11
    ensures t0 <= t0 + WriteOps(fd, FrameEvents(s))[..k]
    ensures NoReadsIn(t0 + WriteOps(fd, FrameEvents(s))[..k], |t0|)
  {
    var t := t0 + WriteOps(fd, FrameEvents(s))[..k];
    forall q | |t0| <= q < |t|
      ensures !t[q].Read?
    {
      assert t[q] == WriteOps(fd, FrameEvents(s))[q - |t0|];
    }
  }

  /** The calls `forward` makes on a forwarder whose descriptor is `fd`,
      given the replies from `base` on: the writes of the frame up to the
      first that fails; none when the forwarder is closed. */
  ghost function ForwardOps(fd: Option<nat>, s: StylusSample, reply: nat -> Reply, base: nat): seq<Op>
  {
    if fd.None? then [] else WriteOps(fd.value, FrameEvents(s))[..IssuedUntilFailure(reply, base, 11)]
  }

  /** What `forward` raises: `TypeError` on a closed forwarder, `OSError`
      when one of the writes fails. */
  ghost function ForwardExc(fd: Option<nat>, reply: nat -> Reply, base: nat): Option<Exc>
  {
    if fd.None? then Some(TypeError) else if NoFailures(reply, base, 11) then None else Some(OSError)
  }

  /** The calls `close` makes on a forwarder whose descriptor is `fd`: the
      destruction of the device and the close of the descriptor, or none. */
  function CloseOps(fd: Option<nat>): seq<Op>
  {
    if fd.None? then [] else [Ioctl(fd.value, UI_DEV_DESTROY, NoArg), CloseFd(fd.value)]
  }

  /** What `close` raises, given the replies from `base` on: `OSError` when
      the destruction or the close of the descriptor failed. */
  function CloseExc(fd: Option<nat>, reply: nat -> Reply, base: nat): Option<Exc>
  {
    if fd.Some? && (Failed(reply(base)) || Failed(reply(base + 1))) then Some(OSError) else None
  }

  /** The descriptor after `close`: forgotten unless closing it raised. */
  function ClosedFd(fd: Option<nat>, reply: nat -> Reply, base: nat): Option<nat>
  {
    if fd.Some? && Failed(reply(base + 1)) then fd else None
  }

  // ---------------------------------------------------------------------
  // The forwarder

  class UInputForwarder {
    const w: World
    const vendor: int
    const product: int
    /** The open uinput descriptor, None once closed. */
    var fd: Option<nat>
    var eventPath: Option<string>
    /** The samples `forward` was called with, in order. */
    ghost var handed: seq<StylusSample>
    /** How many times `close` was called. */
    ghost var closes: nat

    constructor (w: World, fd: nat, vendor: int, product: int)
      ensures this.w == w && this.fd == Some(fd) && this.vendor == vendor && this.product == product
      ensures eventPath.None? && handed == [] && closes == 0
    {
      this.w := w;
      this.fd := Some(fd);
      this.vendor := vendor;
      this.product := product;
      eventPath := None;
      handed := [];
      closes := 0;
    }

    method IoctlChecked(request: bv64, arg: IoctlArg) returns (ok: bool)
      requires fd.Some?
      modifies w
      ensures w.trace == old(w.trace) + [Ioctl(fd.value, request, arg)]
      ensures ok == !Failed(w.reply(|old(w.trace)|))
    {
      var r := w.Call(Ioctl(fd.value, request, arg));
      ok := !Failed(r);
    }

    /** An ioctl that issues `plan[k]` of a plan followed from the start. */
    method PlannedIoctl(request: bv64, arg: IoctlArg, ghost plan: seq<Op>, ghost t0: seq<Op>, ghost k: nat) returns (ok: bool)
      requires fd.Some? && k < |plan| && plan[k] == Ioctl(fd.value, request, arg)
      requires w.trace == t0 + plan[..k] && NoFailures(w.reply, |t0|, k)
      modifies w
      ensures w.trace == t0 + plan[..k + 1]
      ensures ok ==> NoFailures(w.reply, |t0|, k + 1)
      ensures !ok ==> StoppedAtFirstFailure(w.reply, |t0|, |plan|, k + 1, false)
    {
      ok := IoctlChecked(request, arg);
      PlanStep(w.reply, t0, plan, k, w.trace);
    }

    /** `_setup_abs`. */
    method SetupAbs(code: int, minimum: int, maximum: int, resolution: int) returns (ok: bool)
      requires fd.Some?
      modifies w
      ensures w.trace == old(w.trace) + [Ioctl(fd.value, UI_ABS_SETUP, AbsSetupOf(AxisSpec(code, minimum, maximum, resolution)))]
      ensures ok == !Failed(w.reply(|old(w.trace)|))
    {
      ok := IoctlChecked(UI_ABS_SETUP, AbsSetup(code, minimum, minimum, maximum, 0, 0, resolution));
    }

    /** One `for code in codes: self._ioctl_int(request, code)` loop of
      `_configure`, issuing `plan[offset ..]` and stopping at the first failure. */
    method SetBits(request: bv64, codes: seq<int>, ghost plan: seq<Op>, ghost t0: seq<Op>, ghost offset: nat)
      returns (ok: bool, ghost issued: nat)
      requires fd.Some? && offset + |codes| <= |plan|
      requires forall i :: offset <= i < offset + |codes| ==> plan[i] == Ioctl(fd.value, request, IntArg(codes[i - offset]))
      requires w.trace == t0 + plan[..offset] && NoFailures(w.reply, |t0|, offset)
      modifies w
      ensures offset <= issued <= offset + |codes| && w.trace == t0 + plan[..issued]
      ensures ok ==> issued == offset + |codes| && NoFailures(w.reply, |t0|, issued)
      ensures !ok ==> StoppedAtFirstFailure(w.reply, |t0|, |plan|, issued, false)
    {
      issued := offset;
      for i := 0 to |codes|
        invariant issued == offset + i && w.trace == t0 + plan[..issued] && NoFailures(w.reply, |t0|, issued)
      {
        ok := IoctlChecked(request, IntArg(codes[i]));
        PlanStep(w.reply, t0, plan, issued, w.trace);
        issued := issued + 1;
        if !ok { return ok, issued; }
      }
      ok := true;
    }

    /** One `_setup_abs` call of `_configure`, issuing `plan[k]`. */
    method SetupAxis(code: int, minimum: int, maximum: int, resolution: int, ghost plan: seq<Op>, ghost t0: seq<Op>, ghost k: nat)
      returns (ok: bool)
      requires fd.Some? && k < |plan| && plan[k] == Ioctl(fd.value, UI_ABS_SETUP, AbsSetupOf(AxisSpec(code, minimum, maximum, resolution)))
      requires w.trace == t0 + plan[..k] && NoFailures(w.reply, |t0|, k)
      modifies w
      ensures w.trace == t0 + plan[..k + 1]
      ensures ok ==> NoFailures(w.reply, |t0|, k + 1)
      ensures !ok ==> StoppedAtFirstFailure(w.reply, |t0|, |plan|, k + 1, false)
    {
      ok := SetupAbs(code, minimum, maximum, resolution);
      PlanStep(w.reply, t0, plan, k, w.trace);
    }

    /** The five `_setup_abs` calls of `_configure`, issuing `plan[12 .. 17]`
      and stopping at the first failure. */
    method SetupAxes(ghost plan: seq<Op>, ghost t0: seq<Op>) returns (ok: bool, ghost issued: nat)
      requires fd.Some? && 17 <= |plan|
      requires forall i :: 12 <= i < 17 ==> plan[i] == Ioctl(fd.value, UI_ABS_SETUP, AbsSetupOf(AXES[i - 12]))
      requires w.trace == t0 + plan[..12] && NoFailures(w.reply, |t0|, 12)
      modifies w
      ensures 12 <= issued <= 17 && w.trace == t0 + plan[..issued]
      ensures ok ==> issued == 17 && NoFailures(w.reply, |t0|, issued)
      ensures !ok ==> StoppedAtFirstFailure(w.reply, |t0|, |plan|, issued, false)
    {
      ok := SetupAxis(ABS_X, 0, 0x4585, 5080, plan, t0, 12);
      issued := 13;
      if !ok { return; }
      ok := SetupAxis(ABS_Y, 0, 0x2B65, 5080, plan, t0, 13);
      issued := 14;
      if !ok { return; }
      ok := SetupAxis(ABS_PRESSURE, 0, 0x3FFF, 1, plan, t0, 14);
      issued := 15;
      if !ok { return; }
      ok := SetupAxis(ABS_TILT_X, -127, 127, 1, plan, t0, 15);
      issued := 16;
      if !ok { return; }
      ok := SetupAxis(ABS_TILT_Y, -127, 127, 1, plan, t0, 16);
      issued := 17;
    }

    /** The capability part of `_configure` (event types, key codes, axis
      codes, axis ranges), issuing `plan[.. 17]` and stopping at the first
      failure. */
    method DeclareCapabilities(ghost plan: seq<Op>, ghost t0: seq<Op>) returns (ok: bool, ghost issued: nat)
      requires fd.Some? && 17 <= |plan| && w.trace == t0
      requires forall i :: 0 <= i < 2 ==> plan[i] == Ioctl(fd.value, UI_SET_EVBIT, IntArg(EVENT_TYPES[i]))
      requires forall i :: 2 <= i < 7 ==> plan[i] == Ioctl(fd.value, UI_SET_KEYBIT, IntArg(KEY_CODES[i - 2]))
      requires forall i :: 7 <= i < 12 ==> plan[i] == Ioctl(fd.value, UI_SET_ABSBIT, IntArg(ABS_CODES[i - 7]))
      requires forall i :: 12 <= i < 17 ==> plan[i] == Ioctl(fd.value, UI_ABS_SETUP, AbsSetupOf(AXES[i - 12]))
      modifies w
      ensures issued <= 17 && w.trace == t0 + plan[..issued]
      ensures ok ==> issued == 17 && NoFailures(w.reply, |t0|, issued)
      ensures !ok ==> StoppedAtFirstFailure(w.reply, |t0|, |plan|, issued, false)
    {
      assert plan[..0] == [];
      ok, issued := SetBits(UI_SET_EVBIT, EVENT_TYPES, plan, t0, 0);
      if !ok { return; }
      ok, issued := SetBits(UI_SET_KEYBIT, KEY_CODES, plan, t0, 2);
      if !ok { return; }
      ok, issued := SetBits(UI_SET_ABSBIT, ABS_CODES, plan, t0, 7);
      if !ok { return; }
      ok, issued := SetupAxes(plan, t0);
    }

    /** `_configure`: issues the plan, stopping with `OSError` at the first
      ioctl that fails; after a successful creation it looks up the event node. */
    method Configure(name: seq<Byte>) returns (exc: Option<Exc>, ghost issued: nat, ghost tried: nat)
      requires fd.Some?
      modifies w, this`eventPath
      ensures var plan := ConfigurePlan(fd.value, name, vendor, product);
        && StoppedAtFirstFailure(w.reply, |old(w.trace)|, |plan|, issued, exc.None?)
        && (exc.Some? ==> exc == Some(OSError) && w.trace == old(w.trace) + plan[..issued])
        && (exc.None? ==>
              && QueryOutcome(w.reply, |old(w.trace)| + |plan|, tried, eventPath)
              && w.trace == old(w.trace) + plan + SysnameQueries(fd.value, tried))
    {
      ghost var t0 := w.trace;
      ghost var plan := ConfigurePlan(fd.value, name, vendor, product);
      ConfigurePlanEntries(fd.value, name, vendor, product);
      tried := 0;
      issued := 0;
      var ok: bool;
      ok, issued := DeclareCapabilities(plan, t0);
      if !ok { return Some(OSError), issued, tried; }
      ok := PlannedIoctl(UI_DEV_SETUP, DevSetup(BUS_USB, U16(vendor), U16(product), 0, NameField(name), 0), plan, t0, 17);
      issued := 18;
      if !ok { return Some(OSError), issued, tried; }
      ok := PlannedIoctl(UI_DEV_CREATE, NoArg, plan, t0, 18);
      issued := 19;
      if !ok { return Some(OSError), issued, tried; }
      assert plan[..19] == plan;
      var path;
      path, tried := QueryEventNode();
      eventPath := path;
      exc := None;
    }

    /** `_query_event_node`: tries the buffer sizes in order and stops at the
      first query that succeeds with a non-empty name. */
    method QueryEventNode() returns (path: Option<string>, ghost tried: nat)
      requires fd.Some?
      modifies w
      ensures 1 <= tried <= 3
      ensures w.trace == old(w.trace) + SysnameQueries(fd.value, tried)
      ensures QueryOutcome(w.reply, |old(w.trace)|, tried, path)
    {
      ghost var t0 := w.trace;
      ghost var base := |t0|;
      tried := 0;
      for i := 0 to |SYSNAME_LENGTHS|
        invariant tried == i
        invariant w.trace == t0 + SysnameQueries(fd.value, i)
        invariant forall p :: base <= p < base + i ==> !Resolved(w.reply(p))
      {
        var length := SYSNAME_LENGTHS[i];
        var r := w.Call(SysnameQuery(fd.value, length));
        assert SysnameQueries(fd.value, i + 1) == SysnameQueries(fd.value, i) + [SysnameQuery(fd.value, length)];
        tried := i + 1;
        if !Failed(r) {
          var name := NameOf(r);
          if name != "" {
            return Some(JoinPath(INPUT_DIR, name)), tried;
          }
        }
      }
      path := None;
    }

    /** `forward`: writes the frame of the sample event by event; a failed
      write raises `OSError` and ends the frame early. Writing on a closed
      forwarder raises `TypeError` before any write. */
    method Forward(s: StylusSample) returns (exc: Option<Exc>, ghost written: nat)
      modifies w, this`handed
      ensures old(w.trace) <= w.trace && NoReadsIn(w.trace, |old(w.trace)|)
      ensures handed == old(handed) + [s]
      ensures fd.None? ==> exc == Some(TypeError) && w.trace == old(w.trace)
      ensures fd.Some? ==>
        && StoppedAtFirstFailure(w.reply, |old(w.trace)|, 11, written, exc.None?)
        && w.trace == old(w.trace) + WriteOps(fd.value, FrameEvents(s))[..written]
        && (exc.Some? ==> exc == Some(OSError))
      ensures w.trace == old(w.trace) + ForwardOps(fd, s, w.reply, |old(w.trace)|)
      ensures exc == ForwardExc(fd, w.reply, |old(w.trace)|)
    {
      written := 0;
      handed := handed + [s];
      if fd.None? {
        exc := Some(TypeError);
      } else {
        ghost var t0 := w.trace;
        exc, written := WriteFrame(s);
        FrameWritesNoReads(t0, fd.value, s, written);
        StoppedIsUntilFailure(w.reply, |t0|, 11, written, exc.None?);
      }
    }

    /** The writes of one frame, stopping at the first that fails. */
    method WriteFrame(s: StylusSample) returns (exc: Option<Exc>, ghost written: nat)
      requires fd.Some?
      modifies w
      ensures StoppedAtFirstFailure(w.reply, |old(w.trace)|, 11, written, exc.None?)
      ensures w.trace == old(w.trace) + WriteOps(fd.value, FrameEvents(s))[..written]
      ensures exc.Some? ==> exc == Some(OSError)
    {
      written := 0;
      var events := SampleEvents(s);
      ghost var t0 := w.trace;
      ghost var all := WriteOps(fd.value, FrameEvents(s));
      for i := 0 to |events|
        invariant written == i && w.trace == t0 + all[..i] && NoFailures(w.reply, |t0|, i)
      {
        var r := w.Call(WriteEvent(fd.value, events[i]));
        assert all[i] == WriteEvent(fd.value, events[i]);
        PlanStep(w.reply, t0, all, i, w.trace);
        written := i + 1;
        if Failed(r) { return Some(OSError), written; }
      }
      var r := w.Call(WriteEvent(fd.value, SYN_EVENT));
      PlanStep(w.reply, t0, all, 10, w.trace);
      assert all[..11] == all;
      written := 11;
      exc := if Failed(r) then Some(OSError) else None;
    }

    /** `close`: destroys the device and closes the descriptor even when the
      destruction fails; the descriptor is forgotten once `os.close`
      returned. A closed forwarder issues nothing. */
    method Close() returns (exc: Option<Exc>)
      modifies this`fd, this`closes, w
      ensures old(w.trace) <= w.trace && closes == old(closes) + 1
      ensures old(fd).None? ==> fd.None? && w.trace == old(w.trace) && exc.None?
      ensures old(fd).Some? ==>
        var base := |old(w.trace)|;
        && w.trace == old(w.trace) + [Ioctl(old(fd).value, UI_DEV_DESTROY, NoArg), CloseFd(old(fd).value)]
        && (fd.None? <==> !Failed(w.reply(base + 1)))
        && (fd.Some? ==> fd == old(fd))
        && (exc.None? <==> !Failed(w.reply(base)) && !Failed(w.reply(base + 1)))
        && (exc.Some? ==> exc == Some(OSError))
      ensures w.trace == old(w.trace) + CloseOps(old(fd))
      ensures exc == CloseExc(old(fd), w.reply, |old(w.trace)|) && fd == ClosedFd(old(fd), w.reply, |old(w.trace)|)
    {
      exc := None;
      closes := closes + 1;
      if fd.Some? {
        var destroyed := IoctlChecked(UI_DEV_DESTROY, NoArg);
        var r := w.Call(CloseFd(fd.value));
        if Failed(r) {
          return Some(OSError);
        }
        fd := None;
        if !destroyed {
          exc := Some(OSError);
        }
      }
    }
  }

  /** The outcome of the node lookup, given the replies to its queries:
      a path exactly when the last query tried resolved, and only the last
      query tried may resolve; an unresolved lookup tried all three sizes. */
  ghost predicate QueryOutcome(reply: nat -> Reply, base: nat, tried: nat, path: Option<string>)
  {
    && 1 <= tried <= 3
    && (forall p :: base <= p < base + tried - 1 ==> !Resolved(reply(p)))
    && (path.Some? <==> Resolved(reply(base + tried - 1)))
    && (path.Some? ==> path.value == JoinPath(INPUT_DIR, NameOf(reply(base + tried - 1))))
    && (path.None? ==> tried == 3)
  }

  /** The open and every call of the configuration plan returned normally:
      what a creation needs to succeed. */
  ghost predicate Created(reply: nat -> Reply, base: nat)
  {
    !Failed(reply(base)) && NoFailures(reply, base + 1, 19)
  }

  /** How many node queries the lookup makes, given the replies from `base`
      on: up to and including the first that resolves, at most three. */
  function QueriesTried(reply: nat -> Reply, base: nat): nat
  {
    if Resolved(reply(base)) then 1 else if Resolved(reply(base + 1)) then 2 else 3
  }

  /** The lookup that made `tried` queries made `QueriesTried` of them. */
  lemma QueryOutcomeTried(reply: nat -> Reply, base: nat, tried: nat, path: Option<string>)
    requires QueryOutcome(reply, base, tried, path)
    ensures tried == QueriesTried(reply, base)
  {
  }

  /** The calls `UInputForwarder(...)` makes, given the replies from `base`
      on: the open; when it returned, the configuration plan up to its first
      failure; when that ran whole, the queries of the node lookup. */
  ghost function CreateOps(reply: nat -> Reply, base: nat, name: seq<Byte>, vendor: int, product: int): seq<Op>
  {
    var plan := ConfigurePlan(base, name, vendor, product);
    if Failed(reply(base)) then [OpenDevice(UINPUT_PATH)]
    else if !NoFailures(reply, base + 1, |plan|) then [OpenDevice(UINPUT_PATH)] + plan[..IssuedUntilFailure(reply, base + 1, |plan|)]
    else [OpenDevice(UINPUT_PATH)] + plan + SysnameQueries(base, QueriesTried(reply, base + 1 + |plan|))
  }

  /** A creation whose open failed made no other call. */
  lemma CreateOpsUnopened(reply: nat -> Reply, base: nat, name: seq<Byte>, vendor: int, product: int)
    requires Failed(reply(base))
    ensures CreateOps(reply, base, name, vendor, product) == [OpenDevice(UINPUT_PATH)]
  {
  }

  /** The calls of a creation whose open returned, once the configuration
      stopped after `issued` calls and the lookup made `tried` queries. */
  lemma CreateOpsConfigured(reply: nat -> Reply, base: nat, name: seq<Byte>, vendor: int, product: int,
                            issued: nat, tried: nat, path: Option<string>, ok: bool, t0: seq<Op>)
    requires !Failed(reply(base))
    requires StoppedAtFirstFailure(reply, base + 1, 19, issued, ok)
    requires ok ==> QueryOutcome(reply, base + 20, tried, path)
    ensures var plan := ConfigurePlan(base, name, vendor, product);
      && (ok ==> CreateOps(reply, base, name, vendor, product) == [OpenDevice(UINPUT_PATH)] + plan + SysnameQueries(base, tried))
      && (!ok ==> CreateOps(reply, base, name, vendor, product) == [OpenDevice(UINPUT_PATH)] + plan[..issued])
    ensures var plan := ConfigurePlan(base, name, vendor, product);
      && (ok ==> t0 + [OpenDevice(UINPUT_PATH)] + plan + SysnameQueries(base, tried) == t0 + CreateOps(reply, base, name, vendor, product))
      && (!ok ==> t0 + [OpenDevice(UINPUT_PATH)] + plan[..issued] == t0 + CreateOps(reply, base, name, vendor, product))
  {
    var plan := ConfigurePlan(base, name, vendor, product);
    CreateOpsOfPlan(reply, base, name, vendor, product, issued, tried, path, ok);
    if ok {
      assert t0 + [OpenDevice(UINPUT_PATH)] + plan + SysnameQueries(base, tried)
        == t0 + ([OpenDevice(UINPUT_PATH)] + plan + SysnameQueries(base, tried));
    } else {
      assert t0 + [OpenDevice(UINPUT_PATH)] + plan[..issued] == t0 + ([OpenDevice(UINPUT_PATH)] + plan[..issued]);
    }
  }

  /** The calls `CreateOps` gives once the open returned, by how the
      configuration and the lookup went. */
  lemma CreateOpsOfPlan(reply: nat -> Reply, base: nat, name: seq<Byte>, vendor: int, product: int,
                        issued: nat, tried: nat, path: Option<string>, ok: bool)
    requires !Failed(reply(base))
    requires StoppedAtFirstFailure(reply, base + 1, 19, issued, ok)
    requires ok ==> QueryOutcome(reply, base + 20, tried, path)
    ensures var plan := ConfigurePlan(base, name, vendor, product);
      && (ok ==> CreateOps(reply, base, name, vendor, product) == [OpenDevice(UINPUT_PATH)] + plan + SysnameQueries(base, tried))
      && (!ok ==> CreateOps(reply, base, name, vendor, product) == [OpenDevice(UINPUT_PATH)] + plan[..issued])
  {
    var plan := ConfigurePlan(base, name, vendor, product);
    StoppedIsUntilFailure(reply, base + 1, |plan|, issued, ok);
    if ok {
      QueryOutcomeTried(reply, base + 1 + |plan|, tried, path);
    }
  }

  /** `UInputForwarder(...)`: opens uinput and configures the device. A
      failure in either raises `OSError`; a failed configuration leaves the
      descriptor open (it is never closed). The descriptor is numbered by the
      position of the open in the trace. */
  method Create(w: World, name: seq<Byte>, vendor: int, product: int)
    returns (r: Result<UInputForwarder, Exc>, ghost issued: nat, ghost tried: nat)
    modifies w
    ensures old(w.trace) <= w.trace
    ensures var base := |old(w.trace)|;
      && (r.Err? ==> r.error == OSError)
      && (Failed(w.reply(base)) ==> r.Err? && w.trace == old(w.trace) + [OpenDevice(UINPUT_PATH)])
      && (!Failed(w.reply(base)) ==>
            var plan := ConfigurePlan(base, name, vendor, product);
            && StoppedAtFirstFailure(w.reply, base + 1, |plan|, issued, r.Ok?)
            && (r.Err? ==> w.trace == old(w.trace) + [OpenDevice(UINPUT_PATH)] + plan[..issued])
            && (r.Ok? ==>
                  && QueryOutcome(w.reply, base + 1 + |plan|, tried, r.value.eventPath)
                  && w.trace == old(w.trace) + [OpenDevice(UINPUT_PATH)] + plan + SysnameQueries(base, tried)))
    ensures r.Ok? ==>
      && fresh(r.value) && r.value.w == w && r.value.fd == Some(|old(w.trace)|)
      && r.value.vendor == vendor && r.value.product == product
      && r.value.handed == [] && r.value.closes == 0
    ensures w.trace[|old(w.trace)|] == OpenDevice(UINPUT_PATH)
    ensures r.Ok? <==> Created(w.reply, |old(w.trace)|)
    ensures w.trace == old(w.trace) + CreateOps(w.reply, |old(w.trace)|, name, vendor, product)
  {
    var base := |w.trace|;
    issued, tried := 0, 0;
    var openReply := w.Call(OpenDevice(UINPUT_PATH));
    if Failed(openReply) {
      CreateOpsUnopened(w.reply, base, name, vendor, product);
      return Err(OSError), issued, tried;
    }
    var fwd := new UInputForwarder(w, base, vendor, product);
    var exc;
    exc, issued, tried := fwd.Configure(name);
    CreateOpsConfigured(w.reply, base, name, vendor, product, issued, tried, fwd.eventPath, exc.None?, old(w.trace));
    if exc.Some? {
      return Err(OSError), issued, tried;
    }
    r := Ok(fwd);
  }
}
