/** Values shared by every part of the bridge: bytes, optional values,
    results, the exceptions the daemon distinguishes and the USB device
    record that pyusb hands out. */
module Common {

  /** One byte, as Python's `bytes` yields it. */
  type Byte = b: int | 0 <= b < 256

  datatype Option<+T> = None | Some(value: T)

  datatype Result<+T, +E> = Ok(value: T) | Err(error: E)

  /** The exception classes whose handling differs somewhere in the daemon.
      `USBError` carries pyusb's errno (None when the backend gave none);
      `TabletNotFoundError` is the daemon's own "no tablet" signal. */
  datatype Exc =
    | USBError(errno: Option<int>)
    | OSError
    | FileNotFoundError
    | CalledProcessError
    | NotImplementedError
    | RuntimeError
    | TabletNotFoundError
    | TypeError

  /** Whether `except OSError` catches the exception: pyusb's `USBError`
      derives from `IOError`, which is `OSError`, and so does
      `FileNotFoundError`. */
  predicate IsOSError(e: Exc)
  {
    e.USBError? || e == OSError || e == FileNotFoundError
  }

  /** What the bridge reads from a pyusb device: its bus number and address
      (either may be missing on some backends) and whether the backend offers
      `is_kernel_driver_active`. */
  datatype Device = Device(bus: Option<nat>, address: Option<nat>, hasDriverQuery: bool)

  function Min(a: int, b: int): int { if a <= b then a else b }
}
