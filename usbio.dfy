/** The USB helpers: locating the tablet (optionally by a `ugenB.A`
    selector), claiming its configuration, the HID unlock requests, kernel
    driver detach and re-attach, the `usbconfig set_alt` recovery command and
    the stylus read with its timeout classification. Every pyusb call and the
    `usbconfig` run are calls on the `World`. */
module UsbIo {
  import opened Common
  import opened Text
  import opened Io

  // ---------------------------------------------------------------------
  // The ugen selector

  const UGEN_PREFIX: string := "ugen"

  /** The `(bus, address)` a selector names: `"ugen"`, then exactly two
      decimal numbers separated by one `'.'`. */
  function ParseUgen(s: string): (r: Option<(nat, nat)>)
    ensures r.Some? ==> |s| > |UGEN_PREFIX| && s[..|UGEN_PREFIX|] == UGEN_PREFIX && '.' in s
  {
    if |s| < |UGEN_PREFIX| || s[..|UGEN_PREFIX|] != UGEN_PREFIX then None
    else
      var parts := Split(s[|UGEN_PREFIX|..], '.');
      if |parts| != 2 then None
      else
        match (ParseNat(parts[0]), ParseNat(parts[1]))
        case (Some(bus), Some(address)) =>
          assert s[|UGEN_PREFIX|..] == Join(parts, '.') by { JoinSplit(s[|UGEN_PREFIX|..], '.'); }
          assert s == UGEN_PREFIX + s[|UGEN_PREFIX|..];
          assert s[|UGEN_PREFIX| + |parts[0]|] == '.';
          Some((bus, address))
        case _ => None
  }

  /** `_matches_ugen`: the device knows its bus and address and the selector
      names exactly those. */
  predicate MatchesUgen(dev: Device, ugen: string)
  {
    dev.bus.Some? && dev.address.Some? && ParseUgen(ugen) == Some((dev.bus.value, dev.address.value))
  }

  /** The selector `force_set_alt` writes for a device. */
  function UgenName(bus: nat, address: nat): (s: string)
    ensures |s| > |UGEN_PREFIX| && s[..|UGEN_PREFIX|] == UGEN_PREFIX
  {
    UGEN_PREFIX + NatToString(bus) + "." + NatToString(address)
  }

  /** A selector that parses is made of the prefix and two digit strings
      around one dot, whose values are the parsed pair. */
  lemma ParseUgenShape(s: string)
    requires ParseUgen(s).Some?
    ensures exists b, a ::
      && s == UGEN_PREFIX + b + "." + a
      && |b| > 0 && AllDigits(b) && |a| > 0 && AllDigits(a)
      && ParseNat(b) == Some(ParseUgen(s).value.0) && ParseNat(a) == Some(ParseUgen(s).value.1)
  {
    var rest := s[|UGEN_PREFIX|..];
    var parts := Split(rest, '.');
    JoinSplit(rest, '.');
    assert rest == parts[0] + "." + parts[1];
    assert s == UGEN_PREFIX + rest;
    var b, a := parts[0], parts[1];
    assert ParseNat(b) == Some(ParseUgen(s).value.0) && ParseNat(a) == Some(ParseUgen(s).value.1);
    assert s == UGEN_PREFIX + b + "." + a;
  }

  /** Parsing the name `force_set_alt` builds gives back the bus and address. */
  lemma UgenNameParses(bus: nat, address: nat)
    ensures ParseUgen(UgenName(bus, address)) == Some((bus, address))
  {
    var b := NatToString(bus);
    var a := NatToString(address);
    var s := UgenName(bus, address);
    assert s[|UGEN_PREFIX|..] == b + ['.'] + a;
    assert forall i :: 0 <= i < |b| ==> b[i] != '.';
    assert forall i :: 0 <= i < |a| ==> a[i] != '.';
    SplitAround(b, '.', a);
    SplitWithoutSep(a, '.');
    ParseNatToString(bus);
    ParseNatToString(address);
  }

  /** The round trip of the selector: a device with a bus and an address
      matches a name exactly when the name is built from that bus and address. */
  lemma MatchesUgenName(dev: Device, bus: nat, address: nat)
    ensures MatchesUgen(dev, UgenName(bus, address)) <==> dev.bus == Some(bus) && dev.address == Some(address)
  {
    UgenNameParses(bus, address);
  }

  /** A device without a bus or an address matches no selector, and no
      selector without the prefix or with other than one dot matches. */
  lemma MatchesUgenRejects(dev: Device, ugen: string)
    ensures dev.bus.None? || dev.address.None? ==> !MatchesUgen(dev, ugen)
    ensures (|ugen| < |UGEN_PREFIX| || ugen[..|UGEN_PREFIX|] != UGEN_PREFIX) ==> !MatchesUgen(dev, ugen)
    ensures |ugen| >= |UGEN_PREFIX| && |Split(ugen[|UGEN_PREFIX|..], '.')| != 2 ==> !MatchesUgen(dev, ugen)
  {
  }

  // ---------------------------------------------------------------------
  // find_device

  /** Whether `find_device` takes a device: any device without a selector. */
  predicate Selects(ugen: Option<string>, dev: Device)
  {
    ugen.None? || MatchesUgen(dev, ugen.value)
  }

  /** `dev` is the first of `devices` the selector takes. */
  ghost predicate FirstSelected(devices: seq<Device>, ugen: Option<string>, dev: Device)
  {
    exists i :: 0 <= i < |devices| && devices[i] == dev && Selects(ugen, devices[i])
                && forall j :: 0 <= j < i ==> !Selects(ugen, devices[j])
  }

  /** What the selection over `devices` gives: the first device the selector
      takes, or `TabletNotFoundError` when it takes none; without a selector,
      the first device. */
  ghost predicate SelectedFrom(devices: seq<Device>, ugen: Option<string>, r: Result<Device, Exc>)
  {
    && (r.Err? <==> forall i :: 0 <= i < |devices| ==> !Selects(ugen, devices[i]))
    && (r.Err? ==> r.error == TabletNotFoundError)
    && (r.Ok? ==> FirstSelected(devices, ugen, r.value))
    && (ugen.None? && |devices| > 0 ==> r == Ok(devices[0]))
  }

  /** The loop of `find_device` over the enumerated devices: the first device
      the selector takes, or `TabletNotFoundError` when it takes none. */
  method SelectDevice(devices: seq<Device>, ugen: Option<string>) returns (r: Result<Device, Exc>)
    ensures SelectedFrom(devices, ugen, r)
  {
    for i := 0 to |devices|
      invariant forall j :: 0 <= j < i ==> !Selects(ugen, devices[j])
    {
      var dev := devices[i];
      if ugen.None? {
        return Ok(dev);
      }
      if MatchesUgen(dev, ugen.value) {
        return Ok(dev);
      }
    }
    r := Err(TabletNotFoundError);
  }

  /** What `find_device` returns given how the enumeration came back: its
      exception, or the selection over the devices it listed. */
  ghost predicate FindOutcome(reply: Reply, ugen: Option<string>, r: Result<Device, Exc>)
  {
    && (Failed(reply) ==> r == Err(reply.exc))
    && (!Failed(reply) ==> SelectedFrom(DevicesOf(reply), ugen, r))
  }

  /** `find_device`: enumerates the devices with the tablet's ids (an
      exception there propagates) and selects among them. */
  method FindDevice(w: World, vendor: int, product: int, ugen: Option<string>) returns (r: Result<Device, Exc>)
    modifies w
    ensures old(w.trace) <= w.trace
    ensures w.trace == old(w.trace) + [Enumerate(vendor, product)]
    ensures FindOutcome(w.reply(|old(w.trace)|), ugen, r)
    ensures r.Ok? ==> Selects(ugen, r.value) && r.value in DevicesOf(w.reply(|old(w.trace)|))
  {
    var found := w.Call(Enumerate(vendor, product));
    if Failed(found) {
      return Err(found.exc);
    }
    r := SelectDevice(DevicesOf(found), ugen);
  }

  // ---------------------------------------------------------------------
  // Configuration and the unlock requests

  /** `_ensure_configuration`'s filter: a `USBError` without an errno or with
      EBUSY (16) means the configuration is already set. */
  predicate AlreadyConfigured(e: Exc)
  {
    e.USBError? && (e.errno.None? || e.errno == Some(16))
  }

  /** What `_ensure_configuration` raises given how `set_configuration` came back. */
  function ConfigurationOutcome(r: Reply): (exc: Option<Exc>)
    ensures exc.None? <==> !Failed(r) || AlreadyConfigured(r.exc)
    ensures exc.Some? ==> exc.value == r.exc
  {
    if Failed(r) && !AlreadyConfigured(r.exc) then Some(r.exc) else None
  }

  method EnsureConfiguration(w: World) returns (exc: Option<Exc>)
    modifies w
    ensures w.trace == old(w.trace) + [SetConfiguration]
    ensures exc == ConfigurationOutcome(w.reply(|old(w.trace)|))
  {
    var r := w.Call(SetConfiguration);
    exc := ConfigurationOutcome(r);
  }

  /** HID class request SET_IDLE (bmRequestType 0x21, bRequest 0x0A) with
      duration 0 for all reports, no data stage. */
  function SetIdle(iface: int): Op { CtrlTransfer(0x21, 0x0A, 0, iface, 0) }

  /** Standard GET_DESCRIPTOR to the interface (0x81, 0x06) for the HID report
      descriptor: descriptor type 0x22 in the high byte of wValue, index 0. */
  function GetReportDescriptor(iface: int, length: int): Op { CtrlTransfer(0x81, 0x06, 0x2200, iface, length) }

  /** The requests of `unlock_interfaces` after the configuration, for the
      `(interface, length)` pairs in order: SET_IDLE immediately followed by the
      report descriptor read of the same interface. */
  function UnlockRequests(reportLengths: seq<(int, int)>): (ops: seq<Op>)
    ensures |ops| == 2 * |reportLengths|
    decreases |reportLengths|
  {
    if |reportLengths| == 0 then []
    else
      var (iface, length) := reportLengths[0];
      [SetIdle(iface), GetReportDescriptor(iface, length)] + UnlockRequests(reportLengths[1..])
  }

  /** Entry `2k` of the requests is the SET_IDLE of the `k`-th interface and
      entry `2k + 1` its report descriptor read. */
  lemma {:induction false} UnlockRequestsPairs(reportLengths: seq<(int, int)>, k: nat)
    requires k < |reportLengths|
    ensures var ops := UnlockRequests(reportLengths);
      ops[2 * k] == SetIdle(reportLengths[k].0) && ops[2 * k + 1] == GetReportDescriptor(reportLengths[k].0, reportLengths[k].1)
    decreases k
  {
    if k > 0 {
      UnlockRequestsPairs(reportLengths[1..], k - 1);
    }
  }

  /** `unlock_interfaces` ran from position `base` of `t`: the configuration
      there, then the first `issued` requests right after it. A configuration
      error other than "already configured" ends it before any request; else
      it stops at the first request that raises. `exc` is what it raised. */
  ghost predicate UnlockRan(reply: nat -> Reply, t: seq<Op>, base: nat, reportLengths: seq<(int, int)>, issued: nat, exc: Option<Exc>)
  {
    var plan := UnlockRequests(reportLengths);
    && issued <= |plan| && base + 1 + issued <= |t|
    && t[base] == SetConfiguration && t[base + 1 .. base + 1 + issued] == plan[..issued]
    && (ConfigurationOutcome(reply(base)).Some? ==> exc == ConfigurationOutcome(reply(base)) && issued == 0)
    && (ConfigurationOutcome(reply(base)).None? ==>
          && StoppedAtFirstFailure(reply, base + 1, |plan|, issued, exc.None?)
          && (exc.Some? ==> exc == Some(reply(base + issued).exc)))
  }

  /** `unlock_interfaces`: the configuration, then the two requests per
      interface; a configuration error other than "already configured" and
      any request that raises end it with that exception. */
  method UnlockInterfaces(w: World, reportLengths: seq<(int, int)>) returns (exc: Option<Exc>, ghost issued: nat)
    modifies w
    ensures old(w.trace) <= w.trace && |w.trace| == |old(w.trace)| + 1 + issued
    ensures UnlockRan(w.reply, w.trace, |old(w.trace)|, reportLengths, issued, exc)
  {
    ghost var t0 := w.trace;
    issued := 0;
    exc := EnsureConfiguration(w);
    if exc.Some? {
      return;
    }
    ghost var t1 := w.trace;
    exc, issued := SendUnlockRequests(w, reportLengths);
    assert w.trace[|t0| + 1 .. |t0| + 1 + issued] == w.trace[|t1|..];
  }

  /** The loop of `unlock_interfaces` over the report lengths, stopping at the
      first request that raises. */
  method SendUnlockRequests(w: World, reportLengths: seq<(int, int)>) returns (exc: Option<Exc>, ghost issued: nat)
    modifies w
    ensures old(w.trace) <= w.trace
    ensures var plan := UnlockRequests(reportLengths);
      && StoppedAtFirstFailure(w.reply, |old(w.trace)|, |plan|, issued, exc.None?)
      && w.trace == old(w.trace) + plan[..issued]
      && (exc.Some? ==> exc == Some(w.reply(|old(w.trace)| + issued - 1).exc))
  {
    ghost var t0 := w.trace;
    ghost var plan := UnlockRequests(reportLengths);
    issued := 0;
    for i := 0 to |reportLengths|
      invariant issued == 2 * i && w.trace == t0 + plan[..issued] && NoFailures(w.reply, |t0|, issued)
    {
      var iface := reportLengths[i].0;
      var length := reportLengths[i].1;
      UnlockRequestsPairs(reportLengths, i);
      exc := IssuePlanned(w, SetIdle(iface), t0, plan, issued);
      issued := issued + 1;
      if exc.Some? {
        return;
      }
      exc := IssuePlanned(w, GetReportDescriptor(iface, length), t0, plan, issued);
      issued := issued + 1;
      if exc.Some? {
        return;
      }
    }
    assert plan[..issued] == plan;
    exc := None;
  }

  /** Entry `k` of a plan whose first `k` calls returned normally: what the
      call raised, if anything. */
  method IssuePlanned(w: World, op: Op, ghost t0: seq<Op>, ghost plan: seq<Op>, ghost k: nat) returns (exc: Option<Exc>)
    requires k < |plan| && op == plan[k] && w.trace == t0 + plan[..k] && NoFailures(w.reply, |t0|, k)
    modifies w
    ensures w.trace == t0 + plan[..k + 1]
    ensures exc.None? ==> NoFailures(w.reply, |t0|, k + 1)
    ensures exc.Some? ==> StoppedAtFirstFailure(w.reply, |t0|, |plan|, k + 1, false) && exc == Some(w.reply(|t0| + k).exc)
  {
    var r := w.Call(op);
    PlanStep(w.reply, t0, plan, k, w.trace);
    exc := if Failed(r) then Some(r.exc) else None;
  }

  // ---------------------------------------------------------------------
  // Kernel driver, set_alt recovery, release

  /** The calls `detach_kernel_driver` makes given the replies from `base` on. */
  function DetachOps(reply: nat -> Reply, base: nat, dev: Device, iface: int): seq<Op>
  {
    if !dev.hasDriverQuery then []
    else if Failed(reply(base)) || !FlagOf(reply(base)) then [IsKernelDriverActive(iface)]
    else [IsKernelDriverActive(iface), Op.DetachKernelDriver(iface)]
  }

  /** What `detach_kernel_driver` returns given the replies from `base` on. */
  function DetachResult(reply: nat -> Reply, base: nat, dev: Device): Result<bool, Exc>
  {
    if !dev.hasDriverQuery then Ok(false)
    else if Failed(reply(base)) then Err(Converted(reply(base).exc))
    else if !FlagOf(reply(base)) then Ok(false)
    else if Failed(reply(base + 1)) then Err(Converted(reply(base + 1).exc))
    else Ok(true)
  }

  /** A driver counts as detached only when the backend could query it, it
      was active and the detach call returned normally. */
  lemma DetachedOnlyWhenActive(reply: nat -> Reply, base: nat, dev: Device, iface: int)
    ensures DetachResult(reply, base, dev) == Ok(true) <==>
      dev.hasDriverQuery && !Failed(reply(base)) && FlagOf(reply(base)) && !Failed(reply(base + 1))
    ensures DetachResult(reply, base, dev) == Ok(true) <==> Op.DetachKernelDriver(iface) in DetachOps(reply, base, dev, iface) && !Failed(reply(base + 1))
    ensures DetachResult(reply, base, dev).Err? ==>
      var last := reply(base + |DetachOps(reply, base, dev, iface)| - 1);
      Failed(last) && DetachResult(reply, base, dev).error == Converted(last.exc)
  {
  }

  /** `detach_kernel_driver`: true exactly when the backend can query the
      driver, the driver was active and detaching it succeeded. A `USBError`
      from either call becomes `RuntimeError`; any other exception propagates. */
  method DetachKernelDriver(w: World, dev: Device, iface: int) returns (r: Result<bool, Exc>)
    modifies w
    ensures old(w.trace) <= w.trace
    ensures var base := |old(w.trace)|;
      && (!dev.hasDriverQuery ==> r == Ok(false) && w.trace == old(w.trace))
      && (dev.hasDriverQuery ==>
            && |w.trace| > base && w.trace[..base + 1] == old(w.trace) + [IsKernelDriverActive(iface)]
            && (Failed(w.reply(base)) ==>
                  w.trace == old(w.trace) + [IsKernelDriverActive(iface)] && r == Err(Converted(w.reply(base).exc)))
            && (!Failed(w.reply(base)) && !FlagOf(w.reply(base)) ==>
                  w.trace == old(w.trace) + [IsKernelDriverActive(iface)] && r == Ok(false))
            && (!Failed(w.reply(base)) && FlagOf(w.reply(base)) ==>
                  && w.trace == old(w.trace) + [IsKernelDriverActive(iface), Op.DetachKernelDriver(iface)]
                  && r == (if Failed(w.reply(base + 1)) then Err(Converted(w.reply(base + 1).exc)) else Ok(true))))
    ensures r == Ok(true) ==> dev.hasDriverQuery && FlagOf(w.reply(|old(w.trace)|))
    ensures w.trace == old(w.trace) + DetachOps(w.reply, |old(w.trace)|, dev, iface)
    ensures r == DetachResult(w.reply, |old(w.trace)|, dev)
  {
    if !dev.hasDriverQuery {
      return Ok(false);
    }
    var active := w.Call(IsKernelDriverActive(iface));
    if Failed(active) {
      return Err(Converted(active.exc));
    }
    if FlagOf(active) {
      var detached := w.Call(Op.DetachKernelDriver(iface));
      if Failed(detached) {
        return Err(Converted(detached.exc));
      }
      return Ok(true);
    }
    r := Ok(false);
  }

  /** The `except USBError: raise RuntimeError(...)` of `detach_kernel_driver`. */
  function Converted(e: Exc): (c: Exc)
    ensures c == RuntimeError <==> e.USBError? || e == RuntimeError
    ensures !e.USBError? ==> c == e
  {
    if e.USBError? then RuntimeError else e
  }

  /** What `attach_kernel_driver` lets through: everything but `USBError`
      and `NotImplementedError`. */
  function AttachOutcome(r: Reply): (exc: Option<Exc>)
    ensures exc.None? <==> !Failed(r) || r.exc.USBError? || r.exc == NotImplementedError
    ensures exc.Some? ==> exc.value == r.exc
  {
    if Failed(r) && !r.exc.USBError? && r.exc != NotImplementedError then Some(r.exc) else None
  }

  method AttachKernelDriver(w: World, iface: int) returns (exc: Option<Exc>)
    modifies w
    ensures old(w.trace) <= w.trace
    ensures w.trace == old(w.trace) + [Op.AttachKernelDriver(iface)]
    ensures exc == AttachOutcome(w.reply(|old(w.trace)|))
  {
    var r := w.Call(Op.AttachKernelDriver(iface));
    exc := AttachOutcome(r);
  }

  /** The `usbconfig` command of `force_set_alt`. */
  function SetAltCommand(bus: nat, address: nat, iface: int): (argv: seq<string>)
    ensures |argv| == 7 && argv[0] == "usbconfig" && argv[1] == "-d" && argv[3] == "-i"
    ensures argv[5] == "set_alt" && argv[6] == "0"
    ensures ParseUgen(argv[2]) == Some((bus, address))
    ensures ParseInt(argv[4]) == Some(iface)
  {
    UgenNameParses(bus, address);
    ParseIntToString(iface);
    ["usbconfig", "-d", UgenName(bus, address), "-i", IntToString(iface), "set_alt", "0"]
  }

  /** The device `force_set_alt` addresses is the device it was called for:
      its selector argument matches that device. */
  lemma SetAltCommandSelectsDevice(dev: Device, iface: int)
    requires dev.bus.Some? && dev.address.Some?
    ensures MatchesUgen(dev, SetAltCommand(dev.bus.value, dev.address.value, iface)[2])
  {
  }

  /** What `force_set_alt` lets through: everything but a missing `usbconfig`
      and a failing one. */
  function SetAltOutcome(r: Reply): (exc: Option<Exc>)
    ensures exc.None? <==> !Failed(r) || r.exc == FileNotFoundError || r.exc == CalledProcessError
    ensures exc.Some? ==> exc.value == r.exc
  {
    if Failed(r) && r.exc != FileNotFoundError && r.exc != CalledProcessError then Some(r.exc) else None
  }

  /** The calls `force_set_alt` makes for `dev`. */
  function SetAltOps(dev: Device, iface: int): seq<Op>
  {
    if dev.bus.None? || dev.address.None? then [] else [RunCommand(SetAltCommand(dev.bus.value, dev.address.value, iface))]
  }

  /** What `force_set_alt` raises for `dev` given the reply at `at`. */
  function SetAltResult(reply: nat -> Reply, at: nat, dev: Device): Option<Exc>
  {
    if dev.bus.None? || dev.address.None? then None else SetAltOutcome(reply(at))
  }

  /** `force_set_alt`: runs nothing for a device without bus or address. */
  method ForceSetAlt(w: World, dev: Device, iface: int) returns (exc: Option<Exc>)
    modifies w
    ensures old(w.trace) <= w.trace
    ensures dev.bus.None? || dev.address.None? ==> w.trace == old(w.trace) && exc.None?
    ensures dev.bus.Some? && dev.address.Some? ==>
      && w.trace == old(w.trace) + [RunCommand(SetAltCommand(dev.bus.value, dev.address.value, iface))]
      && exc == SetAltOutcome(w.reply(|old(w.trace)|))
    ensures w.trace == old(w.trace) + SetAltOps(dev, iface) && exc == SetAltResult(w.reply, |old(w.trace)|, dev)
  {
    if dev.bus.None? || dev.address.None? {
      return None;
    }
    var r := w.Call(RunCommand(SetAltCommand(dev.bus.value, dev.address.value, iface)));
    exc := SetAltOutcome(r);
  }

  /** The exception `release_interface` ends with: the one from
      `dispose_resources` if it raised (it replaces any earlier one), else the
      one from the release. */
  function ReleaseOutcome(release: Reply, dispose: Reply): (exc: Option<Exc>)
    ensures exc.None? <==> !Failed(release) && !Failed(dispose)
    ensures Failed(dispose) ==> exc == Some(dispose.exc)
    ensures !Failed(dispose) && Failed(release) ==> exc == Some(release.exc)
  {
    if Failed(dispose) then Some(dispose.exc) else if Failed(release) then Some(release.exc) else None
  }

  /** `release_interface`: the resources are disposed even when the release raises. */
  method ReleaseInterface(w: World, iface: int) returns (exc: Option<Exc>)
    modifies w
    ensures old(w.trace) <= w.trace
    ensures w.trace == old(w.trace) + [Op.ReleaseInterface(iface), DisposeResources]
    ensures exc == ReleaseOutcome(w.reply(|old(w.trace)|), w.reply(|old(w.trace)| + 1))
  {
    var released := w.Call(Op.ReleaseInterface(iface));
    var disposed := w.Call(DisposeResources);
    exc := ReleaseOutcome(released, disposed);
  }

  // ---------------------------------------------------------------------
  // Reading the stylus endpoint

  /** The read timeouts: FreeBSD's and Linux's ETIMEDOUT. */
  predicate TimedOut(e: Exc)
  {
    e.USBError? && (e.errno == Some(60) || e.errno == Some(110))
  }

  /** What `read_stylus_report` returns given how `dev.read` came back: a
      timeout and an empty read both give no payload, any other exception
      propagates, and a payload is never empty. */
  function ReadOutcome(r: Reply): (out: Result<Option<seq<Byte>>, Exc>)
    ensures out == Ok(None) <==> (Failed(r) && TimedOut(r.exc)) || (!Failed(r) && BytesOf(r) == [])
    ensures out.Err? <==> Failed(r) && !TimedOut(r.exc)
    ensures out.Err? ==> out.error == r.exc
    ensures out.Ok? && out.value.Some? ==> |out.value.value| > 0 && out.value.value == BytesOf(r)
  {
    if Failed(r) then
      if TimedOut(r.exc) then Ok(None) else Err(r.exc)
    else
      var payload := BytesOf(r);
      if |payload| > 0 then Ok(Some(payload)) else Ok(None)
  }

  method ReadStylusReport(w: World, endpoint: int, size: int, timeoutMs: int) returns (r: Result<Option<seq<Byte>>, Exc>)
    modifies w
    ensures old(w.trace) <= w.trace
    ensures w.trace == old(w.trace) + [Read(endpoint, size, timeoutMs)]
    ensures r == ReadOutcome(w.reply(|old(w.trace)|))
  {
    var data := w.Call(Read(endpoint, size, timeoutMs));
    r := ReadOutcome(data);
  }
}
