# xppenfbsd bridge — a Dafny model

This project models the core of `xppen_mini7_v2_fbsd`, a FreeBSD user-space
driver for the XP-Pen Deco Mini7 V2 pen tablet. The daemon does the following:

- It finds the tablet on the USB bus, optionally by a `ugenB.A` selector.
- It unlocks the tablet with HID class requests and claims the stylus interface.
- It reads 10-byte stylus reports and decodes each into a `StylusSample`.
- It hands every sample to its forwarders:
  - a virtual pen created through uinput ioctls;
  - a Unix stream socket that receives one JSON record per line.
- When it stops serving a device, it closes the forwarders, releases the interface, can re-attach the kernel driver, and runs `usbconfig set_alt 0`.

The model has these modules:

| module | file | what it holds |
|---|---|---|
| `Common` | common.dfy | bytes, `Option`, `Result`, the exception classes the daemon tells apart, and the pyusb device record |
| `Text` | text.dfy | decimal `str(int)` / `int(str)` and `str.split`, as the ugen selector uses them |
| `Io` | world.dfy | the outside world, described below |
| `Stylus` | stylus.dfy | the report decoder and `hexdump` (pure) |
| `Ioctl` | ioctl.dfy | FreeBSD's `_IOC` request packing and the uinput request numbers (pure, on `bv64`) |
| `UInput` | uinput.dfy | the `UInputForwarder` class |
| `UsbIo` | usbio.dfy | the USB helpers |
| `SocketSink` | socket.dfy | the `SocketForwarder` class and its JSON record |
| `Daemon` | cli.dfy | the `TabletDaemon` class: the scan loop, one session (setup, pump, teardown), and the stop signal |

The outside world is one `Io.World` object.

- Every pyusb, libc, socket, `subprocess` or `time.sleep` call appends an `Op` to `World.trace`.
- The call's outcome is read from an oracle `reply` indexed by the call's position in the trace.
- A reply is either a value or a raised exception.
- The SIGTERM/SIGINT handler is modelled by `World.stopAt`: the signal has arrived once the trace is that long. The daemon observes it at the head of its loops.

The source's objects become classes whose methods update fields in place:

- the uinput forwarder's `fd`;
- the socket forwarder's `sock`;
- the daemon's `should_run`.

Each method states its new state. A method that calls out also states which calls it appended to the trace and the outcome each call's reply gives:

- `ForwardCalls`/`ForwardRaised` and `CloseCalls`/`CloseRaised` give the calls and the exception of one `forward` or `close`, from the forwarder's state and the replies;
- `Delivered` and `ClosedAll` chain those over the forwarders in list order, up to the first that raised;
- `UInputCreateOps` gives the calls of the uinput forwarder's construction.

For the daemon, records tie a run to the trace:

- `SetupInWorld`, `PumpInWorld` and `TailInWorld` place the setup calls, the pump's rounds (each read followed by its `Delivered` calls) and the calls after the closes;
- `ClosesInWorld` places the close loop right after the body;
- `SessionInWorld` places one `_serve_device`, and `RoundInWorld` and `RoundRaised` place one pass of the scan loop;
- each forwarder counts the samples it was handed and the calls of its `close`, and `SinksAt` ties those counts to the pump and the close loop.

The daemon also keeps a ghost log of `Step`s, one entry per helper it enters. The session's ordering guarantees are lemmas about that log:

- unlock before claim, claim before opening forwarders;
- no pump without targets;
- closes in registration order;
- release only when claimed;
- re-attach and `set_alt` gated by the flags;
- one unlock per served device.

## Model

| member | source | states |
|---|---|---|
| Stylus.DecodeSigned | src/xppen_mini7_v2_fbsd/stylus.py:26-27 | the result is the two's-complement reading of the byte: in [-128, 128) and congruent to the byte mod 256 |
| Stylus.SignedRoundTrip | src/xppen_mini7_v2_fbsd/stylus.py:26-27 | decoding a signed byte is a bijection between bytes and [-128, 128): it is inverted by `EncodeSigned` both ways |
| Stylus.DecodeSignedBoundaries | src/xppen_mini7_v2_fbsd/stylus.py:26-27 | 0x00, 0x7F, 0x80 and 0xFF decode to 0, 127, -128 and -1 |
| Stylus.LeU16 | src/xppen_mini7_v2_fbsd/stylus.py:38-40 | the little-endian word is in [0, 65536) and its low and high bytes are the two input bytes |
| Stylus.DecodeStylus | src/xppen_mini7_v2_fbsd/stylus.py:29-54 | no sample exactly when the report is shorter than 10 bytes or its id is not 0x07; a decoded sample's fields fit the wire widths |
| Stylus.DecodeIgnoresTail | src/xppen_mini7_v2_fbsd/stylus.py:29-54 | bytes after the tenth never change the decoded sample |
| Stylus.FlagBitsDetermineFlags | src/xppen_mini7_v2_fbsd/stylus.py:32-37 | two status bytes with the same bits 0x01, 0x02, 0x04, 0x08 and 0x20 give the same five flags |
| Stylus.IgnoredStatusBits | src/xppen_mini7_v2_fbsd/stylus.py:32-37 | status bits 0x10, 0x40 and 0x80 do not affect the decoded sample |
| Stylus.StatusByte | src/xppen_mini7_v2_fbsd/stylus.py:32-37 | the status byte encoding a sample's flags uses only the low six bits |
| Stylus.StatusByteDecodes | src/xppen_mini7_v2_fbsd/stylus.py:32-37 | each flag bit of the encoded status byte reads back as the sample's flag |
| Stylus.EncodeStylus | src/xppen_mini7_v2_fbsd/stylus.py:29-54 | an encoded report is 10 bytes long and starts with report id 0x07 |
| Stylus.DecodeEncode | src/xppen_mini7_v2_fbsd/stylus.py:29-54 | every wire-representable sample survives encode-then-decode unchanged |
| Stylus.StatusByteOfDecoded | src/xppen_mini7_v2_fbsd/stylus.py:32-37 | re-encoding a decoded sample's flags gives the status byte with its ignored bits cleared |
| Stylus.EncodeDecode | src/xppen_mini7_v2_fbsd/stylus.py:29-54 | decode-then-encode of a valid report gives its first ten bytes back, except for the ignored status bits |
| Stylus.DecodeExampleReport | src/xppen_mini7_v2_fbsd/stylus.py:29-54 | a concrete report (tip and in-range set, x = 0, y = 100, pressure 0x2000) decodes to the expected sample |
| Stylus.Hexdump | src/xppen_mini7_v2_fbsd/stylus.py:22-24 | empty data gives the empty string; otherwise the text is 3n-1 characters long |
| Stylus.HexdumpAt | src/xppen_mini7_v2_fbsd/stylus.py:22-24 | byte i sits at characters 3i and 3i+1 as two lower-case hex digits, with single spaces between bytes |
| Stylus.HexByteRoundTrip | src/xppen_mini7_v2_fbsd/stylus.py:24 | every byte's two-digit rendering parses back to the byte |
| Stylus.UnhexdumpHexdump | src/xppen_mini7_v2_fbsd/stylus.py:22-24 | the dump is lossless: parsing it back gives the original bytes |
| Ioctl.IOC | src/xppen_mini7_v2_fbsd/uinput_forwarder.py:23-24 | for a valid direction, 8-bit group and number, and a length below 8192, the direction, length, group and number are all recoverable from the request |
| Ioctl.IO | src/xppen_mini7_v2_fbsd/uinput_forwarder.py:26-27 | a void request has direction `IOC_VOID`, length 0 and the given group and number |
| Ioctl.IOW | src/xppen_mini7_v2_fbsd/uinput_forwarder.py:29-30 | a write request has direction `IOC_IN` and carries the given length, group and number |
| Ioctl.IOWINT | src/xppen_mini7_v2_fbsd/uinput_forwarder.py:32-33 | an int-argument request has direction `IOC_VOID` and carries `sizeof(int)` as its length |
| Ioctl.UI_GET_SYSNAME | src/xppen_mini7_v2_fbsd/uinput_forwarder.py:95 | the sysname query is an `IOC_OUT` request of group 'U', number 44, carrying the buffer length |
| Ioctl.RequestNumbers | src/xppen_mini7_v2_fbsd/uinput_forwarder.py:91-98 | each uinput request constant is the packing its definition names: `UI_DEV_CREATE` = `_IO('U', 1)`, `UI_DEV_SETUP` = `_IOW('U', 3, 92)`, `UI_SET_EVBIT` = `_IOWINT('U', 100)` and so on; `UI_GET_SYSNAME(32)` = 0x4020552C |
| Ioctl.RequestsDistinct | src/xppen_mini7_v2_fbsd/uinput_forwarder.py:91-98 | the seven fixed requests are pairwise distinct, and no sysname query collides with them |
| UInput.NameField | src/xppen_mini7_v2_fbsd/uinput_forwarder.py:141-143 | the name field is 80 bytes: the name cut to 79 bytes, then NULs to the end, so the last byte is always NUL |
| UInput.CStringOfTerminated | src/xppen_mini7_v2_fbsd/uinput_forwarder.py:141-143 | a NUL-free prefix followed by a NUL reads back as that prefix |
| UInput.NameFieldReadsBack | src/xppen_mini7_v2_fbsd/uinput_forwarder.py:141-143 | the kernel reads back the name, truncated to 79 bytes, from the field |
| UInput.SampleEvents | src/xppen_mini7_v2_fbsd/uinput_forwarder.py:206-217 | ten events: five absolute axes, then five 0/1 key events, and the pen and rubber tools are never both down |
| UInput.FrameEvents | src/xppen_mini7_v2_fbsd/uinput_forwarder.py:205-220 | a frame is the ten sample events then one `SYN_REPORT`, and the sync is the only `EV_SYN` event |
| UInput.LookupFirst | src/xppen_mini7_v2_fbsd/uinput_forwarder.py:206-217 | looking up a (type, code) pair returns the first event carrying it |
| UInput.FrameRoundTrip | src/xppen_mini7_v2_fbsd/uinput_forwarder.py:205-220 | a frame carries the whole sample: decoding it gives the sample back, with `invert` read as in-range-and-inverted |
| UInput.U16 | src/xppen_mini7_v2_fbsd/uinput_forwarder.py:140 | a `c_uint16` field holds its value mod 65536, and values already in range unchanged |
| UInput.ConfigurePlan | src/xppen_mini7_v2_fbsd/uinput_forwarder.py:126-146 | the configuration issues exactly 19 ioctls |
| UInput.ConfigurePlanEntries | src/xppen_mini7_v2_fbsd/uinput_forwarder.py:126-146 | the requests, in order: 2 event bits, 5 key bits, 5 axis bits, 5 axis setups with the source's ranges and resolutions, the device setup (bus USB, vendor, product, 80-byte name), then create |
| UInput.ConfigurePlanOrder | src/xppen_mini7_v2_fbsd/uinput_forwarder.py:126-146 | the first 17 requests declare capabilities and axes, then `UI_DEV_SETUP`, then `UI_DEV_CREATE` last; each axis starts at its minimum with zero fuzz and flat |
| UInput.SetupBeforeCreate | src/xppen_mini7_v2_fbsd/uinput_forwarder.py:145-146 | any prefix of the configuration that contains the create also contains the setup, earlier |
| UInput.UInputForwarder.constructor | src/xppen_mini7_v2_fbsd/uinput_forwarder.py:117-123 | a new forwarder holds the opened fd, vendor and product, and no event path yet |
| UInput.UInputForwarder.IoctlChecked | src/xppen_mini7_v2_fbsd/uinput_forwarder.py:178-192 | one ioctl on the fd is recorded, and it succeeds exactly when the call returned 0 |
| UInput.UInputForwarder.SetupAbs | src/xppen_mini7_v2_fbsd/uinput_forwarder.py:194-203 | one `UI_ABS_SETUP` is issued, whose absinfo has value = minimum, fuzz and flat 0, and the given range and resolution |
| UInput.UInputForwarder.SetBits | src/xppen_mini7_v2_fbsd/uinput_forwarder.py:127-132 | issues the next bit declarations of the plan in order, stopping at the first failing ioctl |
| UInput.UInputForwarder.PlannedIoctl | src/xppen_mini7_v2_fbsd/uinput_forwarder.py:145-146 | issues the next ioctl of the plan; on success no planned ioctl has failed yet, otherwise the trace stops at the first failure |
| UInput.UInputForwarder.SetupAxis | src/xppen_mini7_v2_fbsd/uinput_forwarder.py:133-137 | issues the next axis setup of the plan, with the same stop-at-first-failure guarantee |
| UInput.UInputForwarder.SetupAxes | src/xppen_mini7_v2_fbsd/uinput_forwarder.py:133-137 | issues the five axis setups of the plan in order, stopping at the first failing one |
| UInput.UInputForwarder.DeclareCapabilities | src/xppen_mini7_v2_fbsd/uinput_forwarder.py:127-137 | issues the first 17 plan entries, stopping at the first failure |
| UInput.UInputForwarder.Configure | src/xppen_mini7_v2_fbsd/uinput_forwarder.py:126-147 | the trace holds a prefix of the plan that ends at the first failing ioctl; the result is an `OSError` then, or else the plan completed and the sysname queries ran |
| UInput.UInputForwarder.QueryEventNode | src/xppen_mini7_v2_fbsd/uinput_forwarder.py:151-159 | at most three queries; it stops at the first that succeeds with a non-empty name, and the path is `/dev/input/<name>`; with no such query the path is None |
| UInput.FrameWritesNoReads | src/xppen_mini7_v2_fbsd/uinput_forwarder.py:218-227 | any prefix of a frame's writes adds no read to the trace |
| UInput.UInputForwarder.Forward | src/xppen_mini7_v2_fbsd/uinput_forwarder.py:205-227 | records the sample as handed; on a closed forwarder, a `TypeError` and nothing written; otherwise the frame's 11 writes in order, stopping at the first failing write, which raises `OSError`; nothing it does is a read |
| UInput.UInputForwarder.WriteFrame | src/xppen_mini7_v2_fbsd/uinput_forwarder.py:218-227 | on an open forwarder, the frame's 11 writes in order, stopping at the first failing one, which raises `OSError` |
| UInput.UInputForwarder.Close | src/xppen_mini7_v2_fbsd/uinput_forwarder.py:229-235 | counts one more close; when open: destroy, then close the fd even if destroy failed; the fd is cleared exactly when `os.close` returned; it raises `OSError` exactly when either call failed; when already closed, nothing |
| UInput.Create | src/xppen_mini7_v2_fbsd/uinput_forwarder.py:107-149 | opens `/dev/uinput`, then configures; every failure is an `OSError`; a failed open issues no ioctl; a failed configuration stops at its first failing ioctl; success yields a fresh forwarder holding the opened fd, after the whole plan and the sysname queries |
| UsbIo.ParseUgen | src/xppen_mini7_v2_fbsd/usbio.py:42-46 | a parsed selector starts with `ugen` and contains a dot |
| UsbIo.ParseUgenShape | src/xppen_mini7_v2_fbsd/usbio.py:42-46 | a parsed selector is exactly `ugen` + digits + `.` + digits, with those numbers |
| UsbIo.UgenName | src/xppen_mini7_v2_fbsd/usbio.py:97 | the rendered selector starts with `ugen` |
| UsbIo.UgenNameParses | src/xppen_mini7_v2_fbsd/usbio.py:38-48 | the selector `force_set_alt` renders parses back to the same bus and address |
| UsbIo.MatchesUgenName | src/xppen_mini7_v2_fbsd/usbio.py:38-48 | a device matches `ugenB.A` exactly when its bus is B and its address is A |
| UsbIo.MatchesUgenRejects | src/xppen_mini7_v2_fbsd/usbio.py:39-48 | a device without bus or address, a selector without the `ugen` prefix, and one without exactly one dot never match |
| UsbIo.SelectDevice | src/xppen_mini7_v2_fbsd/usbio.py:26-36 | `TabletNotFoundError` exactly when no enumerated device is selected; otherwise the first selected device, which is the first device when there is no selector |
| UsbIo.FindDevice | src/xppen_mini7_v2_fbsd/usbio.py:26-36 | one enumeration by vendor and product; its exception propagates; otherwise the result is the first enumerated device the selector takes (the first device without a selector), or `TabletNotFoundError` exactly when none is taken |
| UsbIo.ConfigurationOutcome | src/xppen_mini7_v2_fbsd/usbio.py:60-65 | `set_configuration` counts as done when it returned or raised a `USBError` with errno None or 16 (EBUSY); any other exception propagates |
| UsbIo.EnsureConfiguration | src/xppen_mini7_v2_fbsd/usbio.py:60-65 | one `set_configuration` call, with the outcome above |
| UsbIo.UnlockRequests | src/xppen_mini7_v2_fbsd/usbio.py:52-56 | the unlock sends exactly two requests per interface |
| UsbIo.UnlockRequestsPairs | src/xppen_mini7_v2_fbsd/usbio.py:50-71 | for each interface: `SET_IDLE` (0x21, 0x0A, 0, iface, no data), then `GET_REPORT_DESCRIPTOR` (0x81, 0x06, 0x2200, iface, its length) |
| UsbIo.SendUnlockRequests | src/xppen_mini7_v2_fbsd/usbio.py:52-56 | issues the unlock requests in order, stopping at the first failure, which propagates |
| UsbIo.UnlockInterfaces | src/xppen_mini7_v2_fbsd/usbio.py:50-58 | configuration first; the unlock requests follow only when it counts as done |
| UsbIo.DetachKernelDriver | src/xppen_mini7_v2_fbsd/usbio.py:73-82 | False without the driver query; True only when a driver was active and its detach returned; a `USBError` from either call becomes a `RuntimeError` |
| UsbIo.Converted | src/xppen_mini7_v2_fbsd/usbio.py:80-81 | a `USBError` becomes a `RuntimeError`, and other exceptions pass through unchanged |
| UsbIo.AttachOutcome | src/xppen_mini7_v2_fbsd/usbio.py:84-88 | a `USBError` or `NotImplementedError` from the attach is swallowed, and any other exception propagates |
| UsbIo.AttachKernelDriver | src/xppen_mini7_v2_fbsd/usbio.py:84-88 | one attach call, with the outcome above |
| UsbIo.SetAltCommand | src/xppen_mini7_v2_fbsd/usbio.py:97-98 | the argv is `usbconfig -d ugenB.A -i <iface> set_alt 0`, and its selector and interface parse back to B, A and iface |
| UsbIo.SetAltCommandSelectsDevice | src/xppen_mini7_v2_fbsd/usbio.py:97-98 | the `-d` argument selects the very device the command was built for |
| UsbIo.SetAltOutcome | src/xppen_mini7_v2_fbsd/usbio.py:99-105 | a missing `usbconfig` or a failing run is swallowed, and any other exception propagates |
| UsbIo.ForceSetAlt | src/xppen_mini7_v2_fbsd/usbio.py:90-105 | no call when bus or address is unknown; otherwise exactly one run of the command, with the outcome above |
| UsbIo.ReleaseOutcome | src/xppen_mini7_v2_fbsd/usbio.py:107-111 | the release succeeds when both calls returned; a failing `dispose_resources` wins over a failing release |
| UsbIo.ReleaseInterface | src/xppen_mini7_v2_fbsd/usbio.py:107-111 | release, then `dispose_resources` always, with the outcome above |
| UsbIo.ReadOutcome | src/xppen_mini7_v2_fbsd/usbio.py:113-125 | None exactly on a timeout (errno 60 or 110) or an empty read; other errors propagate; otherwise the non-empty bytes read |
| UsbIo.ReadStylusReport | src/xppen_mini7_v2_fbsd/usbio.py:113-125 | one read of the endpoint, with the outcome above |
| Text.NatToString | src/xppen_mini7_v2_fbsd/usbio.py:97 | `str` of a natural number is non-empty decimal digits, with no leading zero |
| Text.IntToString | src/xppen_mini7_v2_fbsd/usbio.py:98 | `str` of an integer is non-empty, with a leading minus exactly for negatives |
| Text.ParseNat | src/xppen_mini7_v2_fbsd/usbio.py:46 | parsing succeeds exactly on non-empty all-digit text |
| Text.ParseNatToString | src/xppen_mini7_v2_fbsd/usbio.py:38-48 | decimal rendering of a natural number parses back to it |
| Text.ParseIntToString | src/xppen_mini7_v2_fbsd/usbio.py:98 | decimal rendering of an integer parses back to it |
| Text.Split | src/xppen_mini7_v2_fbsd/usbio.py:45 | `split` always yields at least one part |
| Text.JoinSplit | src/xppen_mini7_v2_fbsd/usbio.py:45 | joining the parts with the separator gives the text back |
| Text.SplitPartsLackSep | src/xppen_mini7_v2_fbsd/usbio.py:45 | no part contains the separator |
| Text.SplitAround | src/xppen_mini7_v2_fbsd/usbio.py:45 | splitting at the first separator yields the text before it, then the split of the rest |
| SocketSink.RenderValue | src/xppen_mini7_v2_fbsd/socket_forwarder.py:32 | a rendered JSON value is non-empty and uses only value characters |
| SocketSink.ParseRenderValue | src/xppen_mini7_v2_fbsd/socket_forwarder.py:32 | every rendered boolean or integer parses back to itself |
| SocketSink.ParseMemberOf | src/xppen_mini7_v2_fbsd/socket_forwarder.py:32 | a rendered `"key": value` member parses back to its key and value |
| SocketSink.SplitMembers | src/xppen_mini7_v2_fbsd/socket_forwarder.py:32 | the member list splits at its commas into exactly the rendered members |
| SocketSink.ParseRenderObject | src/xppen_mini7_v2_fbsd/socket_forwarder.py:32 | a rendered flat JSON object parses back to its key/value list |
| SocketSink.Fields | src/xppen_mini7_v2_fbsd/socket_forwarder.py:32 | the record's keys are the ten dataclass fields in declaration order |
| SocketSink.FieldsRoundTrip | src/xppen_mini7_v2_fbsd/socket_forwarder.py:32 | the record's fields determine the sample |
| SocketSink.Payload | src/xppen_mini7_v2_fbsd/socket_forwarder.py:32 | a payload ends with exactly one newline and contains no other, so it is one line |
| SocketSink.PayloadRoundTrip | src/xppen_mini7_v2_fbsd/socket_forwarder.py:32 | a reader parsing one line gets the sample back |
| SocketSink.ConnectEitherConnectsOrCloses | src/xppen_mini7_v2_fbsd/socket_forwarder.py:20-27 | the connect succeeds exactly when socket creation and connect both returned; after a connect `OSError` the socket is closed, and the exception is `RuntimeError` unless that close raised |
| SocketSink.SocketForwarder.constructor | src/xppen_mini7_v2_fbsd/socket_forwarder.py:15-17 | a new forwarder holds the path and no socket |
| SocketSink.SocketForwarder.Connect | src/xppen_mini7_v2_fbsd/socket_forwarder.py:20-27 | creates a socket and connects it; it holds the socket exactly when both calls returned; a connect `OSError` closes the socket and raises `RuntimeError`, and any other exception propagates |
| SocketSink.SocketForwarder.Forward | src/xppen_mini7_v2_fbsd/socket_forwarder.py:29-38 | records the sample as handed; a dead sink sends nothing; a live one sends the sample's payload once; on an `OSError` it closes the socket and goes dead without raising, unless that close raises; other errors propagate |
| SocketSink.SocketForwarder.Close | src/xppen_mini7_v2_fbsd/socket_forwarder.py:40-45 | counts one more close; the sink is dead afterwards in every case; a live socket is closed once, and that call's error propagates |
| SocketSink.Create | src/xppen_mini7_v2_fbsd/socket_forwarder.py:15-27 | a new forwarder that holds a connected socket, or the connect's exception |
| Daemon.AsciiBytes | src/xppen_mini7_v2_fbsd/cli.py:117 | UTF-8 of an ASCII string is its character codes, one byte each |
| Daemon.UInputNameIsAscii | src/xppen_mini7_v2_fbsd/cli.py:117 | the uinput device name is pure ASCII |
| Daemon.Deliver | src/xppen_mini7_v2_fbsd/cli.py:155-158 | a sample goes to every forwarder, in list order |
| Daemon.RoundsAppend | src/xppen_mini7_v2_fbsd/cli.py:148-158 | the pump's log of rounds grows by one round per loop iteration |
| Daemon.SampleOfRead | src/xppen_mini7_v2_fbsd/cli.py:149-154 | a round yields a sample exactly when the read returned bytes that decode |
| Daemon.DeliveredToAppend | src/xppen_mini7_v2_fbsd/cli.py:155-158 | what one forwarder receives over concatenated logs is the concatenation |
| Daemon.DeliveredToDeliver | src/xppen_mini7_v2_fbsd/cli.py:155-158 | one delivery gives each listed forwarder the sample once, and nothing to others |
| Daemon.DeliveredToPrefix | src/xppen_mini7_v2_fbsd/cli.py:155-158 | a delivery that stopped after `reached` forwarders gave the sample to exactly those |
| Daemon.DeliveredToRound | src/xppen_mini7_v2_fbsd/cli.py:148-158 | in one pump round a forwarder receives the round's sample, or nothing when the round had none |
| Daemon.DeliveredToPartial | src/xppen_mini7_v2_fbsd/cli.py:148-158 | a round cut short gives its sample to the forwarders it reached and nothing to the rest |
| Daemon.EveryTargetSeesAccepted | src/xppen_mini7_v2_fbsd/cli.py:147-158 | every forwarder receives exactly the decoded samples, in the order they were read, with none lost, duplicated or reordered |
| Daemon.DeliveredToPump | src/xppen_mini7_v2_fbsd/cli.py:147-158 | a pump that ended with an exception gave each forwarder the decoded samples in read order, plus the cut round's sample when that forwarder came before the one that raised |
| Daemon.RoundsArePumpSteps | src/xppen_mini7_v2_fbsd/cli.py:147-158 | the pump's log consists of reads and forwards only |
| Daemon.ReadsLoggedExtend | src/xppen_mini7_v2_fbsd/cli.py:148-154 | a read appended at the end of the trace, followed only by calls that are not reads, extends the record of the pump's reads: the positions stay strictly increasing, each read yields the sample of its reply, and every read in the range is recorded |
| Daemon.CutByRead | src/xppen_mini7_v2_fbsd/cli.py:149 | a read that raised ends the round right after the read, with the read's exception |
| Daemon.CutByForward | src/xppen_mini7_v2_fbsd/cli.py:155-158 | a forward that raised ends the round after the read and the forwards that were reached |
| Daemon.SweepStops | src/xppen_mini7_v2_fbsd/cli.py:155-158 | once the loop has raised, no later forwarder changes its outcome: the calls, states and exception stay those of the forwarder that raised |
| Daemon.SweepRaisedBy | src/xppen_mini7_v2_fbsd/cli.py:155-158 | a loop that raised was ended by forwarder `reached - 1`: the exception and the last calls are that forwarder's own, on the replies right after the calls of the forwarders before it, none of which raised |
| Daemon.SweepQuietBefore | src/xppen_mini7_v2_fbsd/cli.py:155-158 | in a loop that has not raised, every forwarder reached raised nothing and made its calls right after those of the forwarders before it |
| Daemon.SweepKeeps | src/xppen_mini7_v2_fbsd/cli.py:155-158 | a forwarder whose state no call changes keeps that state through the loop |
| Daemon.DeliveryKeepsPorts | src/xppen_mini7_v2_fbsd/cli.py:155-158 | through the `for` loop of `_pump` a uinput forwarder keeps its descriptor and a socket sink that lost its socket stays without one |
| Daemon.ClosesForget | src/xppen_mini7_v2_fbsd/cli.py:133-136 | after a close loop that raised nothing, every forwarder it reached is closed: a socket sink has no socket, a uinput forwarder no descriptor |
| Daemon.PumpCut | src/xppen_mini7_v2_fbsd/cli.py:147-158 | a pump whose last round was cut short made exactly the recorded reads plus that round's read, which is the last read in the trace |
| Daemon.PumpStopped | src/xppen_mini7_v2_fbsd/cli.py:147-158 | a pump that stopped on the signal after quiet rounds, whose calls are those of `Pumped` and whose reads are logged and covered, ran as `PumpInWorld` says with no exception |
| Daemon.PumpStateStep | src/xppen_mini7_v2_fbsd/cli.py:148-158 | one more round after the rounds of `samples`: a quiet round extends the pump's record (trace, forwarder states, steps, reads, hand-overs) by its sample and its read; a round cut short ends the pump as `PumpInWorld` says, with `Pumped`'s exception, steps and forwarder states |
| Daemon.BodyStepsStopped | src/xppen_mini7_v2_fbsd/cli.py:108-129 | a body that stopped during setup logs just the setup steps that were issued |
| Daemon.BodyStepsDone | src/xppen_mini7_v2_fbsd/cli.py:108-129 | a completed setup is followed by the no-targets abort when there are no forwarders, and by the pump otherwise |
| Daemon.BodyOfSetup | src/xppen_mini7_v2_fbsd/cli.py:108-128 | a setup that raised, or opened no forwarder, is a whole body: it pumps nothing, ends the trace at the setup's end, and logs the no-targets abort only when nothing raised |
| Daemon.BodyOfPump | src/xppen_mini7_v2_fbsd/cli.py:108-129 | a complete setup with forwarders, followed by a pump whose reads are recorded, is a body whose exception is the pump's |
| Daemon.PumpBodyShape | src/xppen_mini7_v2_fbsd/cli.py:108-129 | a body that reached the pump logs the whole setup plan and then the pump's rounds, and raises what the pump raised |
| Daemon.Pending | src/xppen_mini7_v2_fbsd/cli.py:130-131 | the exception still pending after the body is any non-`USBError` one |
| Daemon.CloseSteps | src/xppen_mini7_v2_fbsd/cli.py:133-136 | the forwarders are closed one each, in list order |
| Daemon.SetupOrder | src/xppen_mini7_v2_fbsd/cli.py:109-125 | unlock first; detach exactly with `--force-detach`, second; then claim; then uinput exactly without `--no-uinput`; then socket exactly with a socket path; forwarders open only after the claim |
| Daemon.PumpHasOnlyPumpSteps | src/xppen_mini7_v2_fbsd/cli.py:147-158 | a session's pump logs only reads and forwards |
| Daemon.BodyHasNoTeardown | src/xppen_mini7_v2_fbsd/cli.py:108-129 | the body never closes, releases, re-attaches or runs `set_alt` |
| Daemon.SinksWhenDone | src/xppen_mini7_v2_fbsd/cli.py:114-125 | after a completed setup the forwarder count is (uinput ? 1 : 0) + (socket path ? 1 : 0) |
| Daemon.BodyMarkers | src/xppen_mini7_v2_fbsd/cli.py:108-129 | the no-targets abort happens exactly when setup completed with no forwarders; a read happens only after a completed setup with forwarders; a completed setup has claimed |
| Daemon.TeardownStepsOnly | src/xppen_mini7_v2_fbsd/cli.py:132-145 | the finally block only closes, releases, re-attaches and runs `set_alt` |
| Daemon.NoTargetsAfterClaim | src/xppen_mini7_v2_fbsd/cli.py:112-128 | a session aborts for lack of targets exactly when setup completed with `--no-uinput` and no socket path, and then only after the claim |
| Daemon.ClosesInRegistrationOrder | src/xppen_mini7_v2_fbsd/cli.py:133-136 | right after the body the forwarders are closed in registration order, and all of them when every close returned |
| Daemon.TeardownTail | src/xppen_mini7_v2_fbsd/cli.py:132-145 | release, re-attach and `set_alt` happen only when every close returned, and are then the session's last steps |
| Daemon.ReleaseIffClaimed | src/xppen_mini7_v2_fbsd/cli.py:137-138 | when the closes returned, the interface is released exactly when it was claimed |
| Daemon.ReattachAndSetAltGates | src/xppen_mini7_v2_fbsd/cli.py:139-145 | re-attach only after a detach and without `--skip-set-alt`; `set_alt` only without `--skip-set-alt`, and as the last step; both run when nothing in the teardown raised |
| Daemon.CloseExceptionSkipsTeardown | src/xppen_mini7_v2_fbsd/cli.py:133-138 | an exception from a close skips the release, re-attach and `set_alt`, and it is what the session raises |
| Daemon.OnlyUsbErrorsSwallowed | src/xppen_mini7_v2_fbsd/cli.py:130-145 | with a clean teardown, a session ends quietly exactly when its body raised nothing or a `USBError`; any other exception from the body is re-raised |
| Daemon.ReadsOnlyAfterClaim | src/xppen_mini7_v2_fbsd/cli.py:112-129 | a session reads reports only after claiming the interface and with at least one forwarder |
| Daemon.SetupOfAcquire | src/xppen_mini7_v2_fbsd/cli.py:109-113 | a setup that raised in the unlock, the detach or the claim ended there, with no forwarder |
| Daemon.SetupOfOpen | src/xppen_mini7_v2_fbsd/cli.py:109-125 | an unlock, detach and claim that returned, followed by the forwarder creations, make a setup whose forwarder count is one per creation that returned |
| Daemon.SessionOfParts | src/xppen_mini7_v2_fbsd/cli.py:103-145 | a body followed by a teardown whose calls start where the body ended is one session in the trace |
| Daemon.SessionFromParts | src/xppen_mini7_v2_fbsd/cli.py:103-145 | a body ended against the trace, followed right after it by the close loop on the forwarders in the states the body left them in, then by the tail, is a session (`SessionInWorld`) |
| Daemon.SessionKept | src/xppen_mini7_v2_fbsd/cli.py:103-145 | a session's calls stay where they are as the trace grows |
| Daemon.ClaimedIffClaimReturned | src/xppen_mini7_v2_fbsd/cli.py:112-113 | a session counts as claimed exactly when its trace holds the `claim_interface` call on the stylus interface and that call returned |
| Daemon.ReadsFollowClaim | src/xppen_mini7_v2_fbsd/cli.py:112-129 | every read of the stylus endpoint in a session's body comes after a `claim_interface` call that returned |
| Daemon.TailGates | src/xppen_mini7_v2_fbsd/cli.py:137-145 | after the closes, `release_interface` is called exactly when the interface was claimed; `attach_kernel_driver` exactly when detached, without `--skip-set-alt`, and after a release that did not raise; the `usbconfig` run is the last call exactly without `--skip-set-alt` and after a release that did not raise |
| Daemon.ServedRound | src/xppen_mini7_v2_fbsd/cli.py:84-90 | an enumeration that found a device, that device's session right after it, and then the one-second sleep make one pass |
| Daemon.RoundsExtend | src/xppen_mini7_v2_fbsd/cli.py:82-90 | a pass that starts where the previous passes ended extends the loop's passes |
| Daemon.ScannedExtend | src/xppen_mini7_v2_fbsd/cli.py:82-90 | one more pass extends both the loop's log and its passes in the trace |
| Daemon.ScanLogAppend | src/xppen_mini7_v2_fbsd/cli.py:82-90 | the scan loop's log grows by one round's log per iteration |
| Daemon.CountAppend | src/xppen_mini7_v2_fbsd/cli.py:82-90 | step counts add over concatenated logs |
| Daemon.CountAbsent | src/xppen_mini7_v2_fbsd/cli.py:82-90 | a step that is absent counts zero |
| Daemon.PlanUnlocksFirst | src/xppen_mini7_v2_fbsd/cli.py:109-125 | no setup call after the first is an unlock |
| Daemon.SetupPrefixUnlocksOnce | src/xppen_mini7_v2_fbsd/cli.py:109-125 | every non-empty prefix of the setup holds exactly one unlock |
| Daemon.BodyUnlocksOnce | src/xppen_mini7_v2_fbsd/cli.py:108-129 | the session body unlocks the device exactly once |
| Daemon.ServeUnlocksOnce | src/xppen_mini7_v2_fbsd/cli.py:103-145 | a whole session unlocks the device exactly once |
| Daemon.ScanServesOnlyFoundDevices | src/xppen_mini7_v2_fbsd/cli.py:82-101 | the scan log holds one unlock per served round and none for a round that only rescanned |
| Daemon.TabletDaemon.constructor | src/xppen_mini7_v2_fbsd/cli.py:68-72 | a new daemon should run and has logged nothing |
| Daemon.TabletDaemon.HandleStop | src/xppen_mini7_v2_fbsd/cli.py:74-76 | the handler clears `should_run` |
| Daemon.TabletDaemon.DeliverSignals | src/xppen_mini7_v2_fbsd/cli.py:74-76 | `should_run` stays set only while the signal has not arrived |
| Daemon.TabletDaemon.ForwardOne | src/xppen_mini7_v2_fbsd/cli.py:156-158 | calls `forward` on forwarder `i` alone: the trace grows by exactly `ForwardCalls` of its old state (a uinput forwarder's frame writes up to the first failed one, a socket sink's `sendall` and, on failure, `close`), the exception is `ForwardRaised` of that state and the replies (`TypeError` with no descriptor, `OSError` on a failed write; a socket sink raises only a send error that is no `OSError`, or what the close after an `OSError` raised), and only its state changes, as `AfterForward`; it alone is handed the sample; nothing is closed and nothing reads the stylus endpoint |
| Daemon.TabletDaemon.ForwardToAll | src/xppen_mini7_v2_fbsd/cli.py:155-158 | the `for` loop: the trace grows by exactly the calls of `Delivered`, each forwarder's `forward` in list order on the replies right after the previous one's; the exception is `Delivered`'s, which `SweepRaisedBy` shows is what forwarder `reached - 1` raised after the earlier ones raised nothing; the first `reached` forwarders were handed the sample once and the rest nothing; with no exception all were reached; nothing is closed |
| Daemon.TabletDaemon.ForwardEach | src/xppen_mini7_v2_fbsd/cli.py:155-158 | the `for` loop itself: the trace grows by exactly `Delivered`'s calls, with its exception, its `reached` and its forwarder states; the first `reached` forwarders were handed the sample and the rest nothing |
| Daemon.TabletDaemon.ForwardTurn | src/xppen_mini7_v2_fbsd/cli.py:155-158 | one turn on forwarder `i` either keeps the loop's record `Swept` for `i + 1` forwarders or ends the loop exactly as `Delivered` says, with `reached == i + 1` |
| Daemon.TabletDaemon.ReadStylus | src/xppen_mini7_v2_fbsd/cli.py:149 | exactly one call, the read of the stylus endpoint with the configured size and timeout; its outcome is the reply's |
| Daemon.TabletDaemon.PumpOnce | src/xppen_mini7_v2_fbsd/cli.py:149-158 | one round: the trace grows by exactly `RoundCalls`: the stylus read, then, when its reply decodes to a sample, the `Delivered` calls of that sample; the exception is the read's or `Delivered`'s; the sample is the decoded reply; every forwarder reached was handed it; the forwarders' new states are `RoundCalls`'s |
| Daemon.TabletDaemon.PumpRound | src/xppen_mini7_v2_fbsd/cli.py:148-158 | one more loop iteration either extends the record of reads, samples, forwarder states and hand-overs by one round (`PumpedSoFar`), or ends the pump as `PumpInWorld` says, with its exception the one `Pumped` gives for that round |
| Daemon.TabletDaemon.Pump | src/xppen_mini7_v2_fbsd/cli.py:147-158 | the pump's part of the trace is exactly the calls of `Pumped`, its rounds from the forwarders' initial states, and its exception is `Pumped`'s; the reads in it are exactly the recorded ones, in trace order, each yielding the recorded sample of its reply; each forwarder was handed exactly the decoded samples in read order, plus the cut round's when it was reached; nothing is closed; a quiet end means the stop signal arrived |
| Daemon.TabletDaemon.PumpLoop | src/xppen_mini7_v2_fbsd/cli.py:148-158 | the `while` loop: a quiet end means the stop signal arrived, with every round recorded (`PumpedSoFar`); otherwise the cut round's exception ends the pump as `PumpInWorld` says |
| Daemon.TabletDaemon.UnlockDevice | src/xppen_mini7_v2_fbsd/cli.py:109 | the calls of `unlock_interfaces` sit at the end of the trace, and the exception is the one their replies give |
| Daemon.TabletDaemon.DetachDriver | src/xppen_mini7_v2_fbsd/cli.py:110-111 | the calls of `detach_kernel_driver` sit at the end of the trace; the exception is the one its replies give, and `detached` holds exactly when it returned True |
| Daemon.TabletDaemon.ClaimStylus | src/xppen_mini7_v2_fbsd/cli.py:112-113 | exactly one call, `claim_interface` on the stylus interface, which raises exactly what that call raised |
| Daemon.TabletDaemon.ClaimAfter | src/xppen_mini7_v2_fbsd/cli.py:112-113 | after an unlock and a detach that returned, the claim call sits right after them |
| Daemon.TabletDaemon.DetachAndClaim | src/xppen_mini7_v2_fbsd/cli.py:110-113 | after an unlock that returned: the detach with `--force-detach`, then the claim, back to back, stopping at the first exception |
| Daemon.TabletDaemon.Acquire | src/xppen_mini7_v2_fbsd/cli.py:109-113 | from the end of the trace: the unlock, the detach with `--force-detach`, and the claim, back to back, each raising what its replies give, stopping at the first exception; `detached` holds only after a detach that returned True |
| Daemon.TabletDaemon.OpenUInputSink | src/xppen_mini7_v2_fbsd/cli.py:114-123 | the trace grows by exactly `UInputCreateOps`: the open of `/dev/uinput`, the configuration ioctls up to the first failed one, then the node lookup; no exception exactly when the open and the configuration returned, else `OSError`; on success one fresh forwarder that was handed nothing and never closed |
| Daemon.TabletDaemon.OpenSocketSink | src/xppen_mini7_v2_fbsd/cli.py:124-125 | the calls of `_connect` at the end of the trace, raising what they raise; on success the list grows by one fresh, unused forwarder at its end, and on failure it is unchanged |
| Daemon.TabletDaemon.OpenForwarders | src/xppen_mini7_v2_fbsd/cli.py:114-125 | the uinput creation right after the claim unless `--no-uinput`, then the socket creation when a socket path is given, each raising what its calls raise, stopping at the first exception; one fresh, unused forwarder per creation that returned |
| Daemon.OpenedWithoutSocket | src/xppen_mini7_v2_fbsd/cli.py:114-123 | without a socket path the opening part is the uinput creation right after the claim, or nothing with `--no-uinput`, and the opened forwarders are the uinput one exactly when its creation returned |
| Daemon.OpenedWithSocket | src/xppen_mini7_v2_fbsd/cli.py:114-125 | with a socket path the socket creation follows the uinput creation, or the claim with `--no-uinput`; the opened forwarders are the uinput one unless `--no-uinput`, then the socket sink exactly when its creation returned |
| Daemon.TabletDaemon.Setup | src/xppen_mini7_v2_fbsd/cli.py:109-125 | the setup calls from the end of the trace in plan order, each raising what its replies give, up to the first exception; `claimed` exactly when the claim call was made and returned; the forwarders are fresh and unused |
| Daemon.TabletDaemon.StopAfterSetup | src/xppen_mini7_v2_fbsd/cli.py:126-128 | a body whose setup raised or opened no forwarder ends with the setup and pumps nothing |
| Daemon.TabletDaemon.PumpSession | src/xppen_mini7_v2_fbsd/cli.py:129 | after a complete setup with forwarders, the body's pump span is the calls of `Pumped` from the forwarders' opened states, and the body's exception is the pump's, as the replies give it |
| Daemon.TabletDaemon.ServeBody | src/xppen_mini7_v2_fbsd/cli.py:108-129 | the try block: every setup call and every pump round sit in the trace with the outcomes their replies give (`BodyInWorld`), a forward's exception included; the exception, `claimed` and `detached` follow from those replies; the forwarders' states are `BodyEndPorts`; each was handed exactly what the pump delivered to it, and none was closed |
| Daemon.TabletDaemon.AfterSetup | src/xppen_mini7_v2_fbsd/cli.py:126-129 | after the setup ended: the early return with no targets, or the pump on the opened forwarders, as `BodyEnded` records it from the replies |
| Daemon.TabletDaemon.CloseOne | src/xppen_mini7_v2_fbsd/cli.py:134-136 | calls `close` on forwarder `i` alone: the trace grows by exactly `CloseCalls` of its old state (`UI_DEV_DESTROY` and the close of the descriptor, or the socket's close, or nothing when already closed), the exception is `CloseRaised` (`OSError` when the destroy or the close of the descriptor failed; a socket's close raises what its reply raised), and only its state changes, as `AfterClose`; nothing is handed to anyone |
| Daemon.TabletDaemon.CloseAll | src/xppen_mini7_v2_fbsd/cli.py:133-136 | the close loop: the trace grows by exactly the calls of `ClosedAll`, each forwarder's `close` in list order; the exception is `ClosedAll`'s, the one forwarder `closed - 1` raised; the first `closed` forwarders had `close` called once and the rest not; with no exception all were closed |
| Daemon.TabletDaemon.CloseTurn | src/xppen_mini7_v2_fbsd/cli.py:133-136 | one turn on forwarder `i` either keeps the loop's record `Swept` for `i + 1` forwarders or ends the loop exactly as `ClosedAll` says, with `reached == i + 1` |
| Daemon.TabletDaemon.ReleaseAndReset | src/xppen_mini7_v2_fbsd/cli.py:137-145 | the calls after the closes: release and dispose exactly when claimed; then, unless the release raised, the re-attach when detached and the `usbconfig` run, both only without `--skip-set-alt`; the two exceptions are the ones those replies give |
| Daemon.TabletDaemon.Reset | src/xppen_mini7_v2_fbsd/cli.py:139-145 | without `--skip-set-alt`: `attach_kernel_driver` exactly when detached, then the `force_set_alt` calls, raising what their reply gives; with it, no call |
| Daemon.TabletDaemon.Teardown | src/xppen_mini7_v2_fbsd/cli.py:132-145 | the finally block: right after the body, exactly the close loop's calls with the exception its replies give (`ClosesInWorld`); when all returned, the rest of the calls and their exceptions follow from the replies (`TailInWorld`); a teardown exception replaces the pending one, which otherwise propagates |
| Daemon.TabletDaemon.CloseSession | src/xppen_mini7_v2_fbsd/cli.py:130-145 | the `except` and `finally` of a session whose body ended: the teardown on the forwarders in the states the body left them in, so that the whole is `SessionInWorld`, the exception `ServeExc`, and the close loop reached the forwarders it says |
| Daemon.TabletDaemon.ServeDevice | src/xppen_mini7_v2_fbsd/cli.py:103-145 | a session: the body's calls, then the close loop's on the forwarders in the states the body left them in, then the tail's, each with the outcome its reply gives (`SessionInWorld`); the exception is `ServeExc` of those outcomes; each forwarder was handed exactly what the pump delivered to it, and closed once exactly when the close loop reached it |
| Daemon.TabletDaemon.Find | src/xppen_mini7_v2_fbsd/cli.py:83-98 | one enumeration at the end of the trace; the result is the first device the selector takes, the enumeration's exception, or `TabletNotFoundError`, and then the scan-interval sleep follows |
| Daemon.TabletDaemon.PauseAfterSession | src/xppen_mini7_v2_fbsd/cli.py:90 | exactly one call, the one-second sleep |
| Daemon.TabletDaemon.ServeFound | src/xppen_mini7_v2_fbsd/cli.py:89-90 | the session of the device found at the enumeration, then, unless it raised, the one-second sleep; the whole is one pass, or one raised pass |
| Daemon.TabletDaemon.ScanOnce | src/xppen_mini7_v2_fbsd/cli.py:83-101 | the enumeration at the end of the trace; then the scan-interval sleep when nothing is found, or the session of the first device the selector takes, right after it, and the one-second sleep (`RoundInWorld`); a raised exception is the enumeration's, with no sleep, or the session's (`RoundRaised`) |
| Daemon.TabletDaemon.ScanStep | src/xppen_mini7_v2_fbsd/cli.py:82-101 | one iteration of the loop extends its passes by one, or ends it with a raised pass where the passes ended |
| Daemon.TabletDaemon.ScanLoop | src/xppen_mini7_v2_fbsd/cli.py:82-101 | the passes sit back to back in the trace from where the loop started, each as `RoundInWorld` says; an exception comes from a last pass as `RoundRaised` says; a quiet end means the stop signal arrived |
| Daemon.TabletDaemon.Run | src/xppen_mini7_v2_fbsd/cli.py:78-101 | the scan loop's guarantees, with the `--device` selector when it is given, so every served device matches that `ugenB.A` and is the first enumerated device that does |

## Left out

- The `constants` module is not part of this model. Vendor and product ids, the stylus interface and endpoint, the read size and the report-length table are a `Constants` parameter of the daemon.
- The `argparse` parsing, `daemonize`, `main`, logging and the `signal.signal` registration are left out. The daemon receives a parsed `Args` record. A signal is delivered only at the head of a loop, which the model checks with `DeliverSignals`. Runs in which the signal never arrives are not modelled, because every loop's termination measure is `stopAt - |trace|`.
- Sleep durations are not modelled. A `time.sleep` is one step that never raises.
- `UInputForwarder._apply_permissions` is not modelled: its `chmod`/`chown` failures are only logged and change no state of the forwarder.
- The `input_event` timestamps, the `struct`/`ctypes` byte layouts and `struct.pack` range errors are not modelled. Events and setup records are values. The 16-bit id fields are reduced with `U16`.
- An `fd` leaked by a failed configuration is not modelled. `UInput.Create` returns the error without closing the descriptor, as the source does.
- Only ASCII names are modelled. `UnicodeDecodeError` from decoding a sysname, and UTF-8 beyond ASCII, are left out.
- Text.ParseNat: accepts only plain ASCII decimal digits. Python's `int()` also accepts signs, surrounding whitespace, underscores and non-ASCII Unicode decimal digits (such as Arabic-Indic or full-width digits), so a selector such as `ugen+1.2` matches in the source but not in the model.
- Stylus.Hexdump: takes a sequence of bytes, so every element is in 0..255. The source's `bytes(data)` raises `ValueError` for an integer outside that range, and that error path is not modelled. None of the modelled files calls `hexdump`.
- JSON is modelled only for flat records of booleans and integers, which is everything `json.dumps(sample.__dict__)` produces.
- Only `Exception` subclasses are modelled. `KeyboardInterrupt` and other `BaseException`s are left out.
- Device bus and address are `nat`.
- The close loop's `getattr`/`callable` checks always succeed, because both forwarder classes define `close` and `forward`.
