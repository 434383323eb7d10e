/** FreeBSD's `sys/ioccom.h` request-number packing, as the uinput forwarder
    computes it, and the uinput request numbers built from it. A request is
    direction | (13-bit parameter length << 16) | (group << 8) | number. */
module Ioctl {

  const IOCPARM_SHIFT: bv64 := 13
  const IOCPARM_MASK: bv64 := (1 << IOCPARM_SHIFT) - 1
  const IOC_VOID: bv32 := 0x2000_0000
  const IOC_OUT: bv32 := 0x4000_0000
  const IOC_IN: bv32 := 0x8000_0000
  /** The three direction bits (`IOC_DIRMASK`). */
  const IOC_DIRMASK: bv64 := 0xE000_0000

  /** `sizeof(int)` on the platforms FreeBSD runs on. */
  const SIZEOF_INT: bv32 := 4

  /** The parts of a request number, as `ioccom.h`'s accessor macros read them. */
  function IocDirection(request: bv64): bv64 { request & IOC_DIRMASK }
  function IocLength(request: bv64): bv64 { (request >> 16) & IOCPARM_MASK }
  function IocGroup(request: bv64): bv64 { (request >> 8) & 0xFF }
  function IocNumber(request: bv64): bv64 { request & 0xFF }

  /** A direction made of the three direction bits only. */
  predicate IsDirection(direction: bv32) { (direction as bv64) & !IOC_DIRMASK == 0 }

  /** `_IOC`: packs the four fields; every field is recovered by the
      accessors when group and number fit in a byte. */
  function IOC(direction: bv32, group: bv32, number: bv32, length: bv32): (r: bv64)
    ensures IsDirection(direction) && group < 256 && number < 256 ==>
      && IocDirection(r) == direction as bv64
      && IocLength(r) == (length as bv64) & IOCPARM_MASK
      && IocGroup(r) == group as bv64
      && IocNumber(r) == number as bv64
  {
    (direction as bv64) | (((length as bv64) & IOCPARM_MASK) << 16) | ((group as bv64) << 8) | (number as bv64)
  }

  /** `_IO`: no parameter. */
  function IO(group: bv32, number: bv32): (r: bv64)
    ensures group < 256 && number < 256 ==>
      IocDirection(r) == IOC_VOID as bv64 && IocLength(r) == 0
      && IocGroup(r) == group as bv64 && IocNumber(r) == number as bv64
  {
    IOC(IOC_VOID, group, number, 0)
  }

  /** `_IOW`: a parameter of `length` bytes copied in. */
  function IOW(group: bv32, number: bv32, length: bv32): (r: bv64)
    ensures group < 256 && number < 256 && length < 0x2000 ==>
      IocDirection(r) == IOC_IN as bv64 && IocLength(r) == length as bv64
      && IocGroup(r) == group as bv64 && IocNumber(r) == number as bv64
  {
    IOC(IOC_IN, group, number, length)
  }

  /** `_IOWINT`: an int passed by value, so direction void with length `sizeof(int)`. */
  function IOWINT(group: bv32, number: bv32): (r: bv64)
    ensures group < 256 && number < 256 ==>
      IocDirection(r) == IOC_VOID as bv64 && IocLength(r) == SIZEOF_INT as bv64
      && IocGroup(r) == group as bv64 && IocNumber(r) == number as bv64
  {
    IOC(IOC_VOID, group, number, SIZEOF_INT)
  }

  /** The uinput ioctl group, `'U'`. */
  const UINPUT_IOCTL_BASE: bv32 := 0x55
  /** `sizeof(struct uinput_setup)`: 4 x u16 id, char[80] name, u32. */
  const UINPUT_SETUP_SIZE: bv32 := 92
  /** `sizeof(struct uinput_abs_setup)`: u16 code, 2 bytes padding, 6 x s32. */
  const UINPUT_ABS_SETUP_SIZE: bv32 := 28

  /** The uinput requests. Each is written as the number its packing gives;
      `RequestNumbers` proves each equal to the `_IO`, `_IOW` or `_IOWINT`
      packing the forwarder computes it with. */
  const UI_DEV_CREATE: bv64 := 0x2000_5501
  const UI_DEV_DESTROY: bv64 := 0x2000_5502
  const UI_DEV_SETUP: bv64 := 0x805C_5503
  const UI_ABS_SETUP: bv64 := 0x801C_5504
  const UI_SET_EVBIT: bv64 := 0x2004_5564
  const UI_SET_KEYBIT: bv64 := 0x2004_5565
  const UI_SET_ABSBIT: bv64 := 0x2004_5567

  /** `UI_GET_SYSNAME(length)`: read the device's sysfs name into a buffer. */
  function UI_GET_SYSNAME(length: bv32): (r: bv64)
    ensures length < 0x2000 ==>
      IocDirection(r) == IOC_OUT as bv64 && IocLength(r) == length as bv64
      && IocGroup(r) == UINPUT_IOCTL_BASE as bv64 && IocNumber(r) == 44
  {
    IOC(IOC_OUT, UINPUT_IOCTL_BASE, 44, length)
  }

  /** The request numbers the forwarder issues are the packings of group
      `'U'` it computes them with. */
  lemma RequestNumbers()
    ensures UI_DEV_CREATE == IO(UINPUT_IOCTL_BASE, 1) && UI_DEV_DESTROY == IO(UINPUT_IOCTL_BASE, 2)
    ensures UI_DEV_SETUP == IOW(UINPUT_IOCTL_BASE, 3, UINPUT_SETUP_SIZE)
    ensures UI_ABS_SETUP == IOW(UINPUT_IOCTL_BASE, 4, UINPUT_ABS_SETUP_SIZE)
    ensures UI_SET_EVBIT == IOWINT(UINPUT_IOCTL_BASE, 100) && UI_SET_KEYBIT == IOWINT(UINPUT_IOCTL_BASE, 101)
    ensures UI_SET_ABSBIT == IOWINT(UINPUT_IOCTL_BASE, 103)
    ensures UI_GET_SYSNAME(32) == 0x4020_552C
  {
  }

  /** The requests are pairwise distinct, and no sysname query of any length
      collides with one of them. */
  lemma RequestsDistinct(length: bv32)
    ensures |{UI_DEV_CREATE, UI_DEV_DESTROY, UI_DEV_SETUP, UI_ABS_SETUP,
              UI_SET_EVBIT, UI_SET_KEYBIT, UI_SET_ABSBIT}| == 7
    ensures UI_GET_SYSNAME(length) !in {UI_DEV_CREATE, UI_DEV_DESTROY, UI_DEV_SETUP,
              UI_ABS_SETUP, UI_SET_EVBIT, UI_SET_KEYBIT, UI_SET_ABSBIT}
  {
    RequestNumbers();
    assert IocNumber(UI_GET_SYSNAME(length)) == 44;
  }
}
