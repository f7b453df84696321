/** The values of the OV16A1Q sensor driver (drivers/media/i2c/ov16a1q.c):
    its mode catalog, the byte layout of its register accesses, the control
    records of the V4L2 control handler and what a control change or a stream
    start does to them and to the bus, and the pad query handlers.
    The stateful driver is Ov16a1q.Sensor. */
module Ov16a1qModel {
  import opened BigEndian
  import opened Errno
  import opened Ov16a1qTables

  const MEDIA_BUS_FMT_SBGGR10_1X10 := 0x3007

  // Sensor registers the driver addresses directly.
  const REG_MODE_SELECT: U16 := 0x0100
  const REG_CHIP_ID: U16 := 0x300b
  const REG_EXPOSURE: U16 := 0x3500
  const REG_GAIN: U16 := 0x3508
  const REG_VTS: U16 := 0x380e
  const CHIP_ID := 0x1641

  // V4L2 selection targets.
  const SEL_TGT_CROP := 0x0000
  const SEL_TGT_CROP_DEFAULT := 0x0001
  const SEL_TGT_CROP_BOUNDS := 0x0002
  const SEL_TGT_NATIVE_SIZE := 0x0003

  datatype Option<T> = None | Some(value: T)
  datatype Result<T> = Ok(value: T) | Err(err: int)

  /** struct ov16a1q_mode */
  datatype Mode = Mode(width: nat, height: nat, hts: nat, vts: nat, linkFreq: nat,
                       laneCount: nat, depth: nat, regs: seq<RegEntry>, mbusCode: nat)

  /** ov16a1q_modes: a single 4-lane 2304x1728 RAW10 mode. */
  const Modes: seq<Mode> := [
    Mode(2304, 1728, 2550, 3920, 180000000, 4, 10, Mode2304x1728Regs, MEDIA_BUS_FMT_SBGGR10_1X10)
  ]

  /** The mode-derived quantities of the control handler. */
  function PixelRate(m: Mode): nat
    requires m.depth > 0
  {
    m.linkFreq * 2 * m.laneCount / m.depth
  }

  function HBlank(m: Mode): int { m.hts - m.width }

  function VBlankDefault(m: Mode): int { m.vts - m.height }

  function ExposureMaxDefault(m: Mode): int { m.vts - 4 }

  /** Every catalog mode has the lane count, sizes and timings the driver's
      arithmetic relies on, and its pixel rate is 144 MHz. */
  lemma CatalogModes(m: Mode)
    requires m in Modes
    ensures m == Modes[0] && |Modes| == 1
    ensures m.depth > 0 && PixelRate(m) == 144000000
    ensures HBlank(m) == 246 && VBlankDefault(m) == 2192 && ExposureMaxDefault(m) == 3916
    ensures 2 <= m.height && m.height + VBlankDefault(m) == m.vts
  {
  }

  // ---------------------------------------------------------------------
  // Register framing

  /** One register access the driver puts on the bus: ov16a1q_write of the
      low `len` bytes of `value` to `reg`, or ov16a1q_read of `len` bytes from
      `reg` (a two-message transfer: the address out, `len` bytes in). */
  datatype Frame = Write(reg: U16, len: nat, value: int) | Read(reg: U16, len: nat)

  /** What the adapter answers to one frame: the count i2c_master_send or
      i2c_transfer returns, and for a read the value whose low bytes arrive. */
  datatype I2cReply = I2cReply(count: int, word: nat)

  /** `val << 8 * bytes` in 32-bit arithmetic. */
  function ShiftLeft32(val: U32, bytes: nat): U32
  {
    (val * Pow256(bytes)) % 0x1_0000_0000
  }

  /** The first len + 2 bytes of the buffer ov16a1q_write fills:
      put_unaligned_be16(reg) then put_unaligned_be32(val << 8 * (4 - len)). */
  function WriteBuffer(reg: U16, len: nat, val: U32): (buf: seq<Byte>)
    requires 1 <= len <= 4
    ensures |buf| == len + 2
  {
    (ToBe(reg, 2) + ToBe(ShiftLeft32(val, 4 - len), 4))[..len + 2]
  }

  /** The bytes a frame sends: for a write the buffer filled from the value
      converted to the u32 parameter of ov16a1q_write, for a read the
      big-endian register address. */
  function WireBytes(f: Frame): seq<Byte>
    requires 1 <= f.len <= 4
  {
    match f
    case Write(reg, len, value) => WriteBuffer(reg, len, value % 0x1_0000_0000)
    case Read(reg, _) => ToBe(reg, 2)
  }

  /** A write frame is the register address, big-endian, followed by the low
      `len` bytes of the value, big-endian. */
  lemma WriteFrameLayout(reg: U16, len: nat, val: U32)
    requires 1 <= len <= 4
    ensures WriteBuffer(reg, len, val) == ToBe(reg, 2) + ToBe(val, len)
  {
    var m := 4 - len;
    assert Pow256(4) == 0x1_0000_0000;
    calc {
      ToBe(ShiftLeft32(val, m), 4);
      { EncodeMod(val * Pow256(m), 4); }
      ToBe(val * Pow256(m), len + m);
      { EncodeShifted(val, len, m); }
      ToBe(val, len) + Zeros(m);
    }
    var a := ToBe(reg, 2);
    assert (a + (ToBe(val, len) + Zeros(m)))[..len + 2] == a + ToBe(val, len);
  }

  /** get_unaligned_be32 of the zeroed 4-byte buffer whose last |rx| bytes
      were received. */
  function ReadValue(rx: seq<Byte>): nat
    requires |rx| <= 4
  {
    FromBe(Zeros(4 - |rx|) + rx)
  }

  /** A read decodes the received bytes big-endian with the upper bytes zero. */
  lemma ReadDecodes(rx: seq<Byte>)
    requires |rx| <= 4
    ensures ReadValue(rx) == FromBe(rx)
  {
    ZeroPadded(4 - |rx|, rx);
  }

  /** Reading back, at the same width, the payload of a write of a value that
      fits that width yields the value. */
  lemma WriteReadRoundTrip(reg: U16, len: nat, v: U32)
    requires 1 <= len <= 4 && v < Pow256(len)
    ensures ReadValue(WriteBuffer(reg, len, v)[2..]) == v
  {
    WriteFrameLayout(reg, len, v);
    var a, rx := ToBe(reg, 2), ToBe(v, len);
    assert (a + rx)[2..] == rx;
    ReadWord(v, len);
    DivModUnique(v, Pow256(len), 0, v);
  }

  /** The value a read of width `len` returns when the low bytes of `word`
      arrive. */
  lemma ReadWord(word: nat, len: nat)
    requires len <= 4
    ensures ReadValue(ToBe(word, len)) == word % Pow256(len)
  {
    ReadDecodes(ToBe(word, len));
    DecodeEncode(word, len);
  }

  /** ov16a1q_write's result for a send that returned `sent`. */
  function WriteStatus(sent: int, len: nat): int
  {
    if sent != len + 2 then -EIO else 0
  }

  /** The frames of ov16a1q_write_reg_list: one single-byte write per entry. */
  function TableFrames(table: seq<RegEntry>): (fs: seq<Frame>)
    ensures |fs| == |table|
  {
    seq(|table|, i requires 0 <= i < |table| => Write(table[i].address, 1, table[i].val))
  }

  /** ov16a1q_write_reg_list's result when its frames start at bus position k:
      the status of the last write, 0 for an empty table. */
  function TableStatus(bus: nat -> I2cReply, k: nat, table: seq<RegEntry>): int
  {
    if |table| == 0 then 0 else WriteStatus(bus(k + |table| - 1).count, 1)
  }

  // ---------------------------------------------------------------------
  // Controls

  /** An integer V4L2 control: its range, default and current value (every
      control of this driver has step 1). */
  datatype Ctrl = Ctrl(min: int, max: int, def: int, val: int)

  ghost predicate CtrlValid(c: Ctrl)
  {
    c.min <= c.def <= c.max && c.min <= c.val <= c.max
  }

  /** The value nearest to `v` in [lo, hi] (lo when the range is empty). */
  function Clamp(v: int, lo: int, hi: int): int
  {
    if v < lo then lo else if v > hi then hi else v
  }

  /** Clamping lands in a non-empty range, keeps a value already in it, and
      otherwise gives the nearer end. */
  lemma ClampRange(v: int, lo: int, hi: int)
    ensures lo <= hi ==> lo <= Clamp(v, lo, hi) <= hi
    ensures lo <= v <= hi ==> Clamp(v, lo, hi) == v
    ensures v < lo ==> Clamp(v, lo, hi) == lo
    ensures lo <= hi && v > hi ==> Clamp(v, lo, hi) == hi
  {
  }

  /** __v4l2_ctrl_modify_range: a new range and default; a current value
      outside the new range is clamped into it. */
  function ModifyRange(c: Ctrl, min: int, max: int, def: int): Ctrl
  {
    Ctrl(min, max, def, Clamp(c.val, min, max))
  }

  /** The new range and default are taken as given; a consistent one gives a
      valid control, and a value already inside it is kept. */
  lemma ModifyRangeValid(c: Ctrl, min: int, max: int, def: int)
    ensures var r := ModifyRange(c, min, max, def);
            && r.min == min && r.max == max && r.def == def
            && (min <= def <= max ==> CtrlValid(r))
            && (min <= c.val <= max ==> r.val == c.val)
  {
  }

  /** The controls of the handler the driver keeps pointers to, plus the
      analogue gain. */
  datatype Controls = Controls(pixelRate: Ctrl, hblank: Ctrl, vblank: Ctrl, exposure: Ctrl, gain: Ctrl)

  /** What the control handler keeps: every range is consistent and every
      value lies in its range, except that the exposure value may lie above
      the exposure maximum, as it does after a range change whose nested
      exposure write failed. */
  ghost predicate ControlsSound(c: Controls)
  {
    && CtrlValid(c.pixelRate) && CtrlValid(c.hblank) && CtrlValid(c.vblank) && CtrlValid(c.gain)
    && c.exposure.min <= c.exposure.def <= c.exposure.max && c.exposure.min <= c.exposure.val
  }

  /** Every control lies within its range. */
  ghost predicate ControlsValid(c: Controls)
  {
    ControlsSound(c) && c.exposure.val <= c.exposure.max
  }

  /** The ranges ov16a1q_init_ctrls creates for mode `m`. */
  function InitialControls(m: Mode): Controls
    requires m.depth > 0
  {
    var pr := PixelRate(m);
    var hb := HBlank(m);
    var vb := VBlankDefault(m);
    var em := ExposureMaxDefault(m);
    Controls(Ctrl(0, pr, pr, pr), Ctrl(hb, hb, hb, hb), Ctrl(vb, 0x7ff7 - m.height, vb, vb),
             Ctrl(0, em, em, em), Ctrl(128, 1984, 128, 128))
  }

  /** The ranges set_fmt gives the controls for mode `m`, before it sets the
      vertical blank to its default: the pixel rate follows the mode, the
      vertical blank may now reach 0xffff - height, the horizontal blank is
      fixed. */
  function FormatRanges(c: Controls, m: Mode): Controls
    requires m.depth > 0
  {
    var vb := VBlankDefault(m);
    var hb := HBlank(m);
    c.(pixelRate := c.pixelRate.(val := Clamp(PixelRate(m), c.pixelRate.min, c.pixelRate.max)),
       vblank := ModifyRange(c.vblank, vb, 0xffff - m.height, vb),
       hblank := ModifyRange(c.hblank, hb, hb, hb))
  }

  /** The initial ranges of the catalog mode: pixel rate 144 MHz, horizontal
      blank fixed at hts - width, vertical blank from vts - height, exposure
      [0, vts - 4] defaulting to its maximum, gain [128, 1984] from 128; they
      are valid. The vertical blank may reach 0x7ff7 - height at init but
      0xffff - height once set_fmt has run, which keeps valid controls valid
      and sound controls sound, and leaves exposure and gain alone. */
  lemma InitialRanges(m: Mode, c: Controls)
    requires m in Modes
    ensures m.depth > 0
    ensures var i := InitialControls(m);
            && ControlsValid(i)
            && i.pixelRate == Ctrl(0, 144000000, 144000000, 144000000)
            && i.hblank.min == i.hblank.max == i.hblank.val == m.hts - m.width
            && i.vblank.min == i.vblank.def == i.vblank.val == m.vts - m.height
            && i.exposure == Ctrl(0, m.vts - 4, m.vts - 4, m.vts - 4)
            && i.gain == Ctrl(128, 1984, 128, 128)
            && i.vblank.max == 0x7ff7 - m.height
    ensures var f := FormatRanges(c, m);
            && (ControlsValid(c) ==> ControlsValid(f))
            && (ControlsSound(c) ==> ControlsSound(f))
            && f.vblank.min == f.vblank.def == m.vts - m.height && f.vblank.max == 0xffff - m.height
            && f.exposure == c.exposure && f.gain == c.gain
  {
    CatalogModes(m);
  }

  /** The V4L2 control ids the driver's s_ctrl callback can be called with. */
  datatype CtrlId = Exposure | AnalogueGain | VBlank | Unhandled(id: int)

  /** The register write ov16a1q_set_ctrl issues for a control, if any. */
  function ControlWrite(id: CtrlId, height: nat, v: int): Option<Frame>
  {
    match id
    case Exposure => Some(Write(REG_EXPOSURE, 3, v))
    case AnalogueGain => Some(Write(REG_GAIN, 2, v))
    case VBlank => Some(Write(REG_VTS, 2, height + v))
    case Unhandled(_) => None
  }

  /** What a step of the driver does, starting at bus position k: the frames
      it sends, its result and the controls afterwards. */
  datatype Outcome = Outcome(frames: seq<Frame>, ret: int, ctrls: Controls)

  /** The exposure maximum a vertical blank of `v` allows. */
  function ExposureLimit(height: nat, v: int): int
  {
    height + v - 2
  }

  /** The value the new exposure range [min, lim] clamps the exposure to,
      when that differs from its current value: the value of the nested
      s_ctrl. None when check_range refuses the range or the value stays. */
  function Reclamped(c: Controls, lim: int): Option<int>
  {
    if lim < c.exposure.min then None
    else
      var nv := Clamp(c.exposure.val, c.exposure.min, lim);
      if nv == c.exposure.val then None else Some(nv)
  }

  /** __v4l2_ctrl_modify_range(exposure, minimum, lim, step, lim) as
      ov16a1q_set_ctrl calls it. A range whose maximum is below its minimum is
      refused with -ERANGE and nothing changes. Otherwise the range and default
      are set; when clamping changes the value, the framework runs s_ctrl for
      the exposure at the clamped value (one write to 0x3500 while the device
      is in use) and keeps that value only when s_ctrl returned 0. */
  function RangeOutcome(bus: nat -> I2cReply, k: nat, c: Controls, height: nat, lim: int, inUse: bool): Outcome
  {
    if lim < c.exposure.min then Outcome([], -ERANGE, c)
    else
      var e := ModifyRange(c.exposure, c.exposure.min, lim, lim);
      if e.val == c.exposure.val then Outcome([], 0, c.(exposure := e))
      else
        var w := WriteOutcome(bus, k, c, height, Exposure, e.val, inUse);
        Outcome(w.frames, w.ret, c.(exposure := if w.ret == 0 then e else e.(val := c.exposure.val)))
  }

  /** One call of ov16a1q_set_ctrl: for the vertical blank, first the change
      of the exposure range with its nested s_ctrl, whose result is ignored;
      then the control's own register write. */
  function CtrlOutcome(bus: nat -> I2cReply, k: nat, c: Controls, height: nat,
                       id: CtrlId, v: int, inUse: bool): Outcome
  {
    if id.VBlank? then
      var r := RangeOutcome(bus, k, c, height, ExposureLimit(height, v), inUse);
      var w := WriteOutcome(bus, k + |r.frames|, r.ctrls, height, id, v, inUse);
      Outcome(r.frames + w.frames, w.ret, w.ctrls)
    else WriteOutcome(bus, k, c, height, id, v, inUse)
  }

  /** The part of ov16a1q_set_ctrl after any range change, and all of it for
      a control other than the vertical blank: while the device is in use the
      control's register write, or -EINVAL for an id it does not handle; no
      control changes. */
  function WriteOutcome(bus: nat -> I2cReply, k: nat, c: Controls, height: nat,
                        id: CtrlId, v: int, inUse: bool): Outcome
  {
    Outcome(CtrlFrames(height, id, v, inUse), CtrlStatus(bus, k, height, id, v, inUse), c)
  }

  /** The frames a vertical blank change sends, whatever the adapter answers:
      the nested exposure write when the new range moves the exposure value,
      then the frame length write. */
  function VBlankSends(c: Controls, height: nat, v: int, inUse: bool): seq<Frame>
  {
    var nested := match Reclamped(c, ExposureLimit(height, v))
      case None => []
      case Some(nv) => CtrlFrames(height, Exposure, nv, inUse);
    nested + CtrlFrames(height, VBlank, v, inUse)
  }

  /** The frames of a vertical blank change do not depend on the adapter's
      answers. */
  lemma VBlankSendsAgree(bus: nat -> I2cReply, k: nat, c: Controls, height: nat, v: int, inUse: bool)
    ensures CtrlOutcome(bus, k, c, height, VBlank, v, inUse).frames == VBlankSends(c, height, v, inUse)
  {
  }

  /** Out of use s_ctrl does no register write of its own; in use it issues
      the control's register write, or none for an id it does not handle. */
  function CtrlFrames(height: nat, id: CtrlId, v: int, inUse: bool): seq<Frame>
  {
    if !inUse then []
    else match ControlWrite(id, height, v)
      case None => []
      case Some(f) => [f]
  }

  /** s_ctrl's result when its own write, if any, is frame number k on the bus. */
  function CtrlStatus(bus: nat -> I2cReply, k: nat, height: nat, id: CtrlId, v: int, inUse: bool): int
  {
    if !inUse then 0
    else match ControlWrite(id, height, v)
      case None => -EINVAL
      case Some(f) => WriteStatus(bus(k).count, f.len)
  }

  /** Each handled control is one register of its own width; the vertical
      blank register receives the frame length height + v. */
  lemma ControlRegisters(height: nat, v: int)
    ensures ControlWrite(Exposure, height, v) == Some(Write(0x3500, 3, v))
    ensures ControlWrite(AnalogueGain, height, v) == Some(Write(0x3508, 2, v))
    ensures ControlWrite(VBlank, height, v) == Some(Write(0x380e, 2, height + v))
    ensures forall n :: ControlWrite(Unhandled(n), height, v) == None
  {
  }

  /** A vertical blank change that clamps the exposure while the device is in
      use, and whose nested exposure write comes back short: the exposure
      keeps its old value. */
  ghost predicate NestedWriteFails(bus: nat -> I2cReply, k: nat, c: Controls, height: nat, v: int, inUse: bool)
  {
    inUse && Reclamped(c, ExposureLimit(height, v)).Some? && bus(k).count != 3 + 2
  }

  /** Setting the vertical blank to v moves the exposure maximum and default
      to lim = height + v - 2, in use or not, unless check_range refuses a
      lim below the exposure minimum; the exposure value becomes the clamped
      one unless the nested write fails, and then it keeps its old value.
      Nothing else changes, and no other control changes any control. Sound
      controls stay sound; valid controls stay valid exactly when the nested
      write does not fail. */
  lemma CtrlRangeEffect(bus: nat -> I2cReply, k: nat, c: Controls, height: nat,
                        id: CtrlId, v: int, inUse: bool)
    ensures var o := CtrlOutcome(bus, k, c, height, id, v, inUse);
            var lim := ExposureLimit(height, v);
            && (!id.VBlank? || lim < c.exposure.min ==> o.ctrls == c)
            && (id.VBlank? && c.exposure.min <= lim ==>
                  && o.ctrls == c.(exposure := o.ctrls.exposure)
                  && o.ctrls.exposure.min == c.exposure.min
                  && o.ctrls.exposure.max == o.ctrls.exposure.def == lim
                  && o.ctrls.exposure.val == if NestedWriteFails(bus, k, c, height, v, inUse) then c.exposure.val
                                            else Clamp(c.exposure.val, c.exposure.min, lim))
            && (ControlsSound(c) ==> ControlsSound(o.ctrls))
            && (ControlsValid(c) ==>
                  (ControlsValid(o.ctrls) <==> !(id.VBlank? && NestedWriteFails(bus, k, c, height, v, inUse))))
  {
    var lim := ExposureLimit(height, v);
    if id.VBlank? && c.exposure.min <= lim {
      ClampRange(c.exposure.val, c.exposure.min, lim);
    }
  }

  /** Out of use, s_ctrl writes nothing and succeeds. In use, an unhandled id
      writes nothing and is refused with -EINVAL; a handled control ends with
      its own write, whose bytes are the register address and the value,
      taken modulo 2^32, at the register's width, and s_ctrl fails, with -EIO,
      exactly when that last send comes back short. Exposure and gain send
      that one write only. */
  lemma CtrlBusEffect(bus: nat -> I2cReply, k: nat, c: Controls, height: nat,
                      id: CtrlId, v: int, inUse: bool)
    ensures var o := CtrlOutcome(bus, k, c, height, id, v, inUse);
            && (!inUse ==> o.frames == [] && o.ret == 0)
            && (inUse && id.Unhandled? ==> o.frames == [] && o.ret == -EINVAL)
            && (inUse && !id.Unhandled? ==>
                  var last := o.frames[|o.frames| - 1];
                  && |o.frames| >= 1 && last.Write?
                  && (o.ret == 0 <==> bus(k + |o.frames| - 1).count == last.len + 2)
                  && (o.ret != 0 ==> o.ret == -EIO))
            && (inUse && (id.Exposure? || id.AnalogueGain?) ==> |o.frames| == 1)
            && (inUse && id.Exposure? ==>
                  WireBytes(o.frames[0]) == ToBe(0x3500, 2) + ToBe(v % 0x1_0000_0000, 3))
            && (inUse && id.AnalogueGain? ==>
                  WireBytes(o.frames[0]) == ToBe(0x3508, 2) + ToBe(v % 0x1_0000_0000, 2))
            && (inUse && id.VBlank? ==>
                  WireBytes(o.frames[|o.frames| - 1]) == ToBe(0x380e, 2) + ToBe((height + v) % 0x1_0000_0000, 2))
  {
    if inUse {
      match id
      case Exposure => WriteFrameLayout(REG_EXPOSURE, 3, v % 0x1_0000_0000);
      case AnalogueGain => WriteFrameLayout(REG_GAIN, 2, v % 0x1_0000_0000);
      case VBlank => WriteFrameLayout(REG_VTS, 2, (height + v) % 0x1_0000_0000);
      case Unhandled(_) =>
    }
  }

  /** In use, a vertical blank change first writes the clamped exposure to
      0x3500 exactly when the new range changes the exposure value, then its
      own frame length to 0x380e, and a failed exposure write does not change
      the result; out of use it writes nothing. */
  lemma VBlankFrames(bus: nat -> I2cReply, k: nat, c: Controls, height: nat, v: int, inUse: bool)
    ensures var o := CtrlOutcome(bus, k, c, height, VBlank, v, inUse);
            var lim := ExposureLimit(height, v);
            && (inUse && c.exposure.min <= lim && c.exposure.val > lim ==>
                  o.frames == [Write(0x3500, 3, lim), Write(0x380e, 2, height + v)])
            && (inUse && c.exposure.min <= c.exposure.val <= lim ==> o.frames == [Write(0x380e, 2, height + v)])
            && (inUse && lim < c.exposure.min ==> o.frames == [Write(0x380e, 2, height + v)])
            && (inUse ==> o.ret == WriteStatus(bus(k + |o.frames| - 1).count, 2))
            && (!inUse ==> o.frames == [])
  {
  }

  // ---------------------------------------------------------------------
  // Stream start

  /** Running `o1` and then, only when it returned 0, `o2`: the shape of the
      driver's `ret = step(); if (ret) return ret;` chains. */
  function Then(o1: Outcome, o2: Outcome): Outcome
  {
    if o1.ret != 0 then o1 else Outcome(o1.frames + o2.frames, o2.ret, o2.ctrls)
  }

  /** `o`, started at bus position k, sent a prefix of `full`, all of it when it
      succeeded; it fails only with -EIO, and then the last frame it sent is a
      write the adapter cut short. */
  ghost predicate Stops(o: Outcome, full: seq<Frame>, bus: nat -> I2cReply, k: nat)
  {
    StopsAt(o.frames, o.ret, full, bus, k)
  }

  /** `sent` frames, sent from bus position k, with result `ret`. */
  ghost predicate StopsAt(sent: seq<Frame>, ret: int, full: seq<Frame>, bus: nat -> I2cReply, k: nat)
  {
    && |sent| <= |full| && sent == full[..|sent|]
    && (ret == 0 ==> |sent| == |full|)
    && (ret == 0 || ret == -EIO)
    && (ret != 0 ==> |sent| > 0 && ShortWrite(sent[|sent| - 1], bus(k + |sent| - 1)))
  }

  /** `f` is a write the adapter answered with fewer bytes than it carries. */
  ghost predicate ShortWrite(f: Frame, r: I2cReply)
  {
    f.Write? && r.count != f.len + 2
  }

  /** Chaining two stages that each stop at their first failure gives a
      sequence that stops at its first failure. */
  lemma ThenStops(o1: Outcome, o2: Outcome, f1: seq<Frame>, f2: seq<Frame>, bus: nat -> I2cReply, k: nat, k2: nat)
    requires k2 == k + |f1|
    requires Stops(o1, f1, bus, k) && (o1.ret == 0 ==> Stops(o2, f2, bus, k2))
    ensures Stops(Then(o1, o2), f1 + f2, bus, k)
  {
    if o1.ret != 0 {
      assert f1 + f2 == o1.frames + (f1[|o1.frames|..] + f2);
    } else {
      var o := Then(o1, o2);
      assert f1 + f2 == o.frames + f2[|o2.frames|..];
      if o.ret != 0 {
        assert o.frames[|o.frames| - 1] == o2.frames[|o2.frames| - 1];
      }
    }
  }

  /** A register table stops at its first failure: ov16a1q_write_reg_list
      sends every entry and reports the last write, which is then the one cut
      short. */
  lemma TableStops(bus: nat -> I2cReply, k: nat, table: seq<RegEntry>)
    ensures StopsAt(TableFrames(table), TableStatus(bus, k, table), TableFrames(table), bus, k)
  {
    if |table| > 0 {
      assert TableFrames(table)[|table| - 1].len == 1;
    }
  }

  /** What was sent after a prefix `p` of the log stops within `full` as
      `p` followed by it stops within `p + full`. */
  lemma StopsAfter(p: seq<Frame>, sent: seq<Frame>, ret: int, full: seq<Frame>, bus: nat -> I2cReply, k: nat)
    requires StopsAt(sent, ret, full, bus, k + |p|)
    ensures StopsAt(p + sent, ret, p + full, bus, k)
  {
    assert (p + full)[..|p + sent|] == p + full[..|sent|];
    if ret != 0 {
      assert (p + sent)[|p + sent| - 1] == sent[|sent| - 1];
    }
  }

  /** A stage that failed stopped early within any longer sequence that
      continues after it. */
  lemma StopsWithin(sent: seq<Frame>, ret: int, full: seq<Frame>, more: seq<Frame>, bus: nat -> I2cReply, k: nat)
    requires StopsAt(sent, ret, full, bus, k) && ret != 0
    ensures StopsAt(sent, ret, full + more, bus, k)
  {
    assert (full + more)[..|sent|] == full[..|sent|];
  }

  /** A handled control sends all its frames; it fails only with -EIO, when
      the last frame, its own write, comes back short. */
  lemma CtrlStops(bus: nat -> I2cReply, k: nat, c: Controls, height: nat, id: CtrlId, v: int, inUse: bool)
    requires !id.Unhandled?
    ensures var o := CtrlOutcome(bus, k, c, height, id, v, inUse);
            Stops(o, o.frames, bus, k)
  {
  }

  /** __v4l2_ctrl_handler_setup on this driver's handler: s_ctrl for the
      vertical blank, the exposure and the analogue gain, in the order the
      handler created them, each with its current value as the previous call
      left it, stopping at the first error. The exposure and gain calls are
      only their register writes. */
  function HandlerSetup(bus: nat -> I2cReply, k: nat, height: nat, c: Controls, inUse: bool): Outcome
  {
    var o1 := CtrlOutcome(bus, k, c, height, VBlank, c.vblank.val, inUse);
    var k2 := k + |o1.frames|;
    var o2 := WriteOutcome(bus, k2, o1.ctrls, height, Exposure, o1.ctrls.exposure.val, inUse);
    var o3 := WriteOutcome(bus, k2 + |o2.frames|, o2.ctrls, height, AnalogueGain, o2.ctrls.gain.val, inUse);
    Then(o1, Then(o2, o3))
  }

  /** The frames of a handler setup from the controls `c` that reaches the
      gain: the vertical blank's frames, then the exposure at the value `c1`
      the vertical blank call left, then the gain. */
  function SetupFrames(height: nat, c: Controls, c1: Controls, inUse: bool): seq<Frame>
  {
    VBlankSends(c, height, c.vblank.val, inUse)
      + (CtrlFrames(height, Exposure, c1.exposure.val, inUse) + CtrlFrames(height, AnalogueGain, c1.gain.val, inUse))
  }

  /** The setup sends the three controls' writes in order (none when the
      device is not in use) and stops at the first that fails. */
  lemma SetupStops(bus: nat -> I2cReply, k: nat, height: nat, c: Controls, inUse: bool)
    ensures var hs := HandlerSetup(bus, k, height, c, inUse);
            Stops(hs, SetupFrames(height, c, hs.ctrls, inUse), bus, k)
  {
    SetupUnfolds(bus, k, height, c, inUse);
    SetupChainStops(bus, k, height, c, inUse);
    assert HandlerSetup(bus, k, height, c, inUse).ctrls == CtrlOutcome(bus, k, c, height, VBlank, c.vblank.val, inUse).ctrls;
  }

  /** The three control writes of the setup, chained, stop at their first
      failure. */
  lemma SetupChainStops(bus: nat -> I2cReply, k: nat, height: nat, c: Controls, inUse: bool)
    ensures var o1 := CtrlOutcome(bus, k, c, height, VBlank, c.vblank.val, inUse);
            var c1 := o1.ctrls;
            var k2 := k + |o1.frames|;
            var k3 := k2 + |CtrlFrames(height, Exposure, c1.exposure.val, inUse)|;
            Stops(Then(o1,
                       Then(WriteOutcome(bus, k2, c1, height, Exposure, c1.exposure.val, inUse),
                            WriteOutcome(bus, k3, c1, height, AnalogueGain, c1.gain.val, inUse))),
                  SetupFrames(height, c, c1, inUse), bus, k)
  {
    var o1 := CtrlOutcome(bus, k, c, height, VBlank, c.vblank.val, inUse);
    VBlankSendsAgree(bus, k, c, height, c.vblank.val, inUse);
    var c1 := o1.ctrls;
    var k2 := k + |o1.frames|;
    SetupTailStops(bus, k2, height, c1, inUse);
    var f2 := CtrlFrames(height, Exposure, c1.exposure.val, inUse);
    var o2 := Then(WriteOutcome(bus, k2, c1, height, Exposure, c1.exposure.val, inUse),
                   WriteOutcome(bus, k2 + |f2|, c1, height, AnalogueGain, c1.gain.val, inUse));
    CtrlStops(bus, k, c, height, VBlank, c.vblank.val, inUse);
    ThenStops(o1, o2, o1.frames, f2 + CtrlFrames(height, AnalogueGain, c1.gain.val, inUse), bus, k, k2);
  }

  /** The exposure write followed by the gain write stops at its first failure. */
  lemma SetupTailStops(bus: nat -> I2cReply, k: nat, height: nat, c: Controls, inUse: bool)
    ensures var f2 := CtrlFrames(height, Exposure, c.exposure.val, inUse);
            Stops(Then(WriteOutcome(bus, k, c, height, Exposure, c.exposure.val, inUse),
                       WriteOutcome(bus, k + |f2|, c, height, AnalogueGain, c.gain.val, inUse)),
                  f2 + CtrlFrames(height, AnalogueGain, c.gain.val, inUse), bus, k)
  {
    var f2 := CtrlFrames(height, Exposure, c.exposure.val, inUse);
    var f3 := CtrlFrames(height, AnalogueGain, c.gain.val, inUse);
    ThenStops(WriteOutcome(bus, k, c, height, Exposure, c.exposure.val, inUse),
              WriteOutcome(bus, k + |f2|, c, height, AnalogueGain, c.gain.val, inUse), f2, f3, bus, k, k + |f2|);
  }

  /** The handler setup as three control writes, the last two at the values
      the vertical blank call left, each placed after the frames before it. */
  lemma SetupUnfolds(bus: nat -> I2cReply, k: nat, height: nat, c: Controls, inUse: bool)
    ensures var o1 := CtrlOutcome(bus, k, c, height, VBlank, c.vblank.val, inUse);
            var c1 := o1.ctrls;
            var k2 := k + |o1.frames|;
            var k3 := k2 + |CtrlFrames(height, Exposure, c1.exposure.val, inUse)|;
            HandlerSetup(bus, k, height, c, inUse)
              == Then(o1, Then(WriteOutcome(bus, k2, c1, height, Exposure, c1.exposure.val, inUse),
                               WriteOutcome(bus, k3, c1, height, AnalogueGain, c1.gain.val, inUse)))
  {
  }

  /** The setup leaves the controls as the vertical blank call, which comes
      first, leaves them: the exposure range follows the current vertical
      blank whenever check_range accepts it. Sound controls stay sound. */
  lemma SetupControls(bus: nat -> I2cReply, k: nat, height: nat, c: Controls, inUse: bool)
    ensures var s := HandlerSetup(bus, k, height, c, inUse).ctrls;
            var lim := ExposureLimit(height, c.vblank.val);
            && s == CtrlOutcome(bus, k, c, height, VBlank, c.vblank.val, inUse).ctrls
            && (c.exposure.min <= lim ==> s.exposure.max == s.exposure.def == lim)
            && (ControlsSound(c) ==> ControlsSound(s))
  {
    CtrlRangeEffect(bus, k, c, height, VBlank, c.vblank.val, inUse);
  }

  /** The frame that starts streaming: 0x0100 <- 1. */
  function StreamOnFrame(): Frame
  {
    Write(REG_MODE_SELECT, 1, 1)
  }

  /** The frame that stops streaming: 0x0100 <- 0. */
  function StreamOffFrame(): Frame
  {
    Write(REG_MODE_SELECT, 1, 0)
  }

  /** The handler setup of a stream start followed by its stream-on write,
      which runs only when the setup returned 0. */
  function SetupAndStream(bus: nat -> I2cReply, k: nat, height: nat, c: Controls, inUse: bool): Outcome
  {
    var o3 := HandlerSetup(bus, k, height, c, inUse);
    Then(o3, Outcome([StreamOnFrame()], WriteStatus(bus(k + |o3.frames|).count, 1), o3.ctrls))
  }

  /** The frames of a stream start from the controls `c` that reaches the
      stream-on write, the vertical blank call having left the controls `c1`. */
  function FullStart(base: seq<RegEntry>, m: Mode, c: Controls, c1: Controls, inUse: bool): seq<Frame>
  {
    TableFrames(base) + (TableFrames(m.regs) + (SetupFrames(m.height, c, c1, inUse) + [StreamOnFrame()]))
  }

  /** The setup followed by the stream-on write stops at its first failure. */
  lemma SetupAndStreamStops(bus: nat -> I2cReply, k: nat, height: nat, c: Controls, inUse: bool)
    ensures var o := SetupAndStream(bus, k, height, c, inUse);
            Stops(o, SetupFrames(height, c, o.ctrls, inUse) + [StreamOnFrame()], bus, k)
  {
    var o3 := HandlerSetup(bus, k, height, c, inUse);
    var f3 := SetupFrames(height, c, o3.ctrls, inUse);
    SetupStops(bus, k, height, c, inUse);
    var o4 := Outcome([StreamOnFrame()], WriteStatus(bus(k + |o3.frames|).count, 1), o3.ctrls);
    ThenStops(o3, o4, f3, [StreamOnFrame()], bus, k, k + |f3|);
  }

  /** A stream start from the log `f0` and the controls `c` left the log `f`,
      the result `ret` and the controls `c'`: it stopped in the base table or
      in the mode table with the controls untouched, or went on to the handler
      setup and the stream-on write, whose vertical blank call moved the
      exposure range. */
  ghost predicate StartedAs(f0: seq<Frame>, f: seq<Frame>, ret: int, c': Controls, bus: nat -> I2cReply,
                            base: seq<RegEntry>, m: Mode, c: Controls, inUse: bool)
  {
    var k := |f0|;
    var t1 := TableStatus(bus, k, base);
    var t2 := TableStatus(bus, k + |base|, m.regs);
    && (t1 != 0 ==> f == f0 + TableFrames(base) && ret == t1 && c' == c)
    && (t1 == 0 && t2 != 0 ==> f == f0 + TableFrames(base) + TableFrames(m.regs) && ret == t2 && c' == c)
    && (t1 == 0 && t2 == 0 ==> StreamedOn(f0 + TableFrames(base) + TableFrames(m.regs), f, ret, c', bus, m.height, c, inUse))
  }

  /** The handler setup and the stream-on write, sent from the log `f0` and
      the controls `c`, left the log `f`, the result `ret` and the controls `c'`. */
  ghost predicate StreamedOn(f0: seq<Frame>, f: seq<Frame>, ret: int, c': Controls, bus: nat -> I2cReply,
                             height: nat, c: Controls, inUse: bool)
  {
    var o := SetupAndStream(bus, |f0|, height, c, inUse);
    f == f0 + o.frames && ret == o.ret && c' == o.ctrls
  }

  /** The two ways the handler setup and stream-on write end, as a log `f0`
      grows by them. */
  lemma SetupAndStreamSteps(f0: seq<Frame>, bus: nat -> I2cReply, k: nat, height: nat, c: Controls, inUse: bool)
    ensures var o := SetupAndStream(bus, k, height, c, inUse);
            var hs := HandlerSetup(bus, k, height, c, inUse);
            && o.ctrls == hs.ctrls
            && (hs.ret != 0 ==> f0 + o.frames == f0 + hs.frames && o.ret == hs.ret)
            && (hs.ret == 0 ==>
                  && f0 + o.frames == f0 + hs.frames + [StreamOnFrame()]
                  && o.ret == WriteStatus(bus(k + |hs.frames|).count, 1))
  {
    var hs := HandlerSetup(bus, k, height, c, inUse);
    assert f0 + (hs.frames + [StreamOnFrame()]) == f0 + hs.frames + [StreamOnFrame()];
  }

  /** A stream start runs the base table, the mode table, the handler setup
      and the stream-on write in that order, and the first failing stage aborts
      it: the log only grows, what was appended is a prefix of the full
      sequence, all of it when the start succeeds; a failure is -EIO and the
      last frame sent is the short write that caused it. */
  lemma StartStages(f0: seq<Frame>, f: seq<Frame>, ret: int, c': Controls, bus: nat -> I2cReply,
                    base: seq<RegEntry>, m: Mode, c: Controls, inUse: bool)
    requires StartedAs(f0, f, ret, c', bus, base, m, c, inUse)
    ensures |f0| <= |f| && f[..|f0|] == f0
    ensures StopsAt(f[|f0|..], ret, FullStart(base, m, c, c', inUse), bus, |f0|)
  {
    var k := |f0|;
    if TableStatus(bus, k, base) != 0 {
      BaseTableStops(f0, f, ret, c', bus, base, m, c, inUse);
    } else if TableStatus(bus, k + |base|, m.regs) != 0 {
      ModeTableStops(f0, f, ret, c', bus, base, m, c, inUse);
    } else {
      SetupStageStops(f0, f, ret, c', bus, base, m, c, inUse);
    }
  }

  /** `f` is `f0` followed by `sent`. */
  lemma Appended(f0: seq<Frame>, sent: seq<Frame>, f: seq<Frame>)
    requires f == f0 + sent
    ensures |f0| <= |f| && f[..|f0|] == f0 && f[|f0|..] == sent
  {
  }

  /** A failing base table is where a stream start stops. */
  lemma BaseTableStops(f0: seq<Frame>, f: seq<Frame>, ret: int, c': Controls, bus: nat -> I2cReply,
                       base: seq<RegEntry>, m: Mode, c: Controls, inUse: bool)
    requires ret == TableStatus(bus, |f0|, base) != 0 && f == f0 + TableFrames(base)
    ensures |f0| <= |f| && f[..|f0|] == f0
    ensures StopsAt(f[|f0|..], ret, FullStart(base, m, c, c', inUse), bus, |f0|)
  {
    var tb := TableFrames(base);
    TableStops(bus, |f0|, base);
    StopsWithin(tb, ret, tb, TableFrames(m.regs)
                  + (SetupFrames(m.height, c, c', inUse) + [StreamOnFrame()]), bus, |f0|);
    Appended(f0, tb, f);
  }

  /** A failing mode table after a base table that went through is where a
      stream start stops. */
  lemma ModeTableStops(f0: seq<Frame>, f: seq<Frame>, ret: int, c': Controls, bus: nat -> I2cReply,
                       base: seq<RegEntry>, m: Mode, c: Controls, inUse: bool)
    requires ret == TableStatus(bus, |f0| + |base|, m.regs) != 0
    requires f == f0 + TableFrames(base) + TableFrames(m.regs)
    ensures |f0| <= |f| && f[..|f0|] == f0
    ensures StopsAt(f[|f0|..], ret, FullStart(base, m, c, c', inUse), bus, |f0|)
  {
    var k := |f0|;
    var tb := TableFrames(base);
    var tr := TableFrames(m.regs);
    var tail := SetupFrames(m.height, c, c', inUse) + [StreamOnFrame()];
    TableStops(bus, k + |base|, m.regs);
    StopsWithin(tr, ret, tr, tail, bus, k + |base|);
    StopsAfter(tb, tr, ret, tr + tail, bus, k);
    Regroup3(f0, tb, tr);
    Appended(f0, tb + tr, f);
  }

  /** After both tables, the handler setup and the stream-on write stop at
      their first failure within the full sequence. */
  lemma SetupStageStops(f0: seq<Frame>, f: seq<Frame>, ret: int, c': Controls, bus: nat -> I2cReply,
                        base: seq<RegEntry>, m: Mode, c: Controls, inUse: bool)
    requires StreamedOn(f0 + TableFrames(base) + TableFrames(m.regs), f, ret, c', bus, m.height, c, inUse)
    ensures |f0| <= |f| && f[..|f0|] == f0
    ensures StopsAt(f[|f0|..], ret, FullStart(base, m, c, c', inUse), bus, |f0|)
  {
    var k := |f0|;
    var rest := SetupAndStream(bus, k + |base| + |m.regs|, m.height, c, inUse);
    SetupAndStreamStops(bus, k + |base| + |m.regs|, m.height, c, inUse);
    LastStageStops(f0, TableFrames(base), TableFrames(m.regs), rest.frames, f, ret,
                   SetupFrames(m.height, c, c', inUse) + [StreamOnFrame()], bus);
  }

  /** A last stage that stops within `tail`, sent after two tables that went
      through, stops within the whole sequence. */
  lemma LastStageStops(f0: seq<Frame>, tb: seq<Frame>, tr: seq<Frame>, sent: seq<Frame>, f: seq<Frame>,
                       ret: int, tail: seq<Frame>, bus: nat -> I2cReply)
    requires StopsAt(sent, ret, tail, bus, |f0| + |tb| + |tr|)
    requires f == f0 + tb + tr + sent
    ensures |f0| <= |f| && f[..|f0|] == f0
    ensures StopsAt(f[|f0|..], ret, tb + (tr + tail), bus, |f0|)
  {
    var k := |f0|;
    StopsAfter(tr, sent, ret, tail, bus, k + |tb|);
    StopsAfter(tb, tr + sent, ret, tr + tail, bus, k);
    Regroup4(f0, tb, tr, sent);
    Appended(f0, tb + (tr + sent), f);
  }

  lemma Regroup3(a: seq<Frame>, b: seq<Frame>, c: seq<Frame>)
    ensures a + b + c == a + (b + c)
  {
  }

  lemma Regroup4(a: seq<Frame>, b: seq<Frame>, c: seq<Frame>, d: seq<Frame>)
    ensures a + b + c + d == a + (b + (c + d))
  {
    Regroup3(a, b, c);
    Regroup3(a, b + c, d);
    Regroup3(b, c, d);
  }

  // ---------------------------------------------------------------------
  // Binding

  /** The index of the first mode whose lane count is `lanes`. */
  function FirstWithLanes(modes: seq<Mode>, lanes: nat): (r: Option<nat>)
    ensures r.Some? ==> r.value < |modes| && modes[r.value].laneCount == lanes
                        && forall j :: 0 <= j < r.value ==> modes[j].laneCount != lanes
    ensures r.None? <==> forall j :: 0 <= j < |modes| ==> modes[j].laneCount != lanes
  {
    if |modes| == 0 then None
    else if modes[0].laneCount == lanes then Some(0)
    else match FirstWithLanes(modes[1..], lanes)
      case None => None
      case Some(i) => Some(i + 1)
  }

  /** Only a 4-lane bus can bind the catalog. */
  lemma CatalogLanes(lanes: nat)
    ensures FirstWithLanes(Modes, lanes).Some? <==> lanes == 4
    ensures lanes == 4 ==> FirstWithLanes(Modes, lanes) == Some(0)
  {
    assert Modes[0].laneCount == 4;
  }

  /** ov16a1q_check_sensor_id's result for the reply to its 2-byte read. */
  function IdCheck(r: I2cReply): (ret: int)
    ensures ret == 0 <==> r.count == 2 && r.word % 0x1_0000 == CHIP_ID
    ensures r.count != 2 ==> ret == -EIO
    ensures r.count == 2 && r.word % 0x1_0000 != CHIP_ID ==> ret == -ENODEV
  {
    ReadWord(r.word, 2);
    assert Pow256(2) == 0x1_0000;
    if r.count != 2 then -EIO
    else if ReadValue(ToBe(r.word, 2)) != CHIP_ID then -ENODEV
    else 0
  }

  // ---------------------------------------------------------------------
  // Pad queries

  /** A media bus format as set_fmt reports it (the field is always NONE). */
  datatype Format = Format(code: nat, width: nat, height: nat)

  function FormatOf(m: Mode): Format
  {
    Format(m.mbusCode, m.width, m.height)
  }

  /** v4l2_find_nearest_size over the catalog: with a single mode, that mode. */
  function NearestMode(width: nat, height: nat): (m: Mode)
    ensures m in Modes
  {
    Modes[0]
  }

  datatype FrameSize = FrameSize(minWidth: nat, maxWidth: nat, minHeight: nat, maxHeight: nat)

  /** ov16a1q_enum_frame_sizes */
  function EnumFrameSize(index: nat, code: nat): (r: Result<FrameSize>)
    ensures r.Ok? <==> index < |Modes| && code == Modes[index].mbusCode
    ensures r.Ok? ==> r.value == FrameSize(Modes[index].width, Modes[index].width,
                                           Modes[index].height, Modes[index].height)
    ensures r.Err? ==> r.err == -EINVAL
  {
    if index >= |Modes| then Err(-EINVAL)
    else if code != Modes[index].mbusCode then Err(-EINVAL)
    else Ok(FrameSize(Modes[index].width, Modes[index].width, Modes[index].height, Modes[index].height))
  }

  /** ov16a1q_enum_mbus_code, with `cur` the current mode. */
  function EnumMbusCode(index: nat, cur: Mode): (r: Result<nat>)
    ensures r.Ok? <==> index == 0
    ensures r.Ok? ==> r.value == cur.mbusCode
    ensures r.Err? ==> r.err == -EINVAL
  {
    if index != 0 then Err(-EINVAL) else Ok(cur.mbusCode)
  }

  datatype Rect = Rect(left: int, top: int, width: nat, height: nat)

  /** ov16a1q_get_selection, with `crop` the crop rectangle of the subdev
      state and `cur` the current mode. */
  function GetSelection(target: int, crop: Rect, cur: Mode): (r: Result<Rect>)
    ensures r.Ok? <==> target in {SEL_TGT_CROP, SEL_TGT_CROP_DEFAULT, SEL_TGT_CROP_BOUNDS, SEL_TGT_NATIVE_SIZE}
    ensures target == SEL_TGT_CROP ==> r == Ok(crop)
    ensures r.Err? ==> r.err == -EINVAL
  {
    if target == SEL_TGT_CROP then Ok(crop)
    else if target == SEL_TGT_NATIVE_SIZE then Ok(Rect(0, 0, cur.width, cur.height))
    else if target == SEL_TGT_CROP_DEFAULT || target == SEL_TGT_CROP_BOUNDS then Ok(Rect(0, 0, cur.width, cur.height))
    else Err(-EINVAL)
  }

  /** The pad queries agree with each other on a catalog mode: the only code
      reported is the mode's, enum_frame_size accepts exactly that code at
      index 0 and reports the mode's size, and the native size, default crop
      and crop bounds are all the full frame of that size at the origin. */
  lemma QueriesAgree(cur: Mode, crop: Rect, index: nat, code: nat, target: int)
    requires cur in Modes
    ensures EnumMbusCode(index, cur).Ok? ==> EnumMbusCode(index, cur).value == MEDIA_BUS_FMT_SBGGR10_1X10
    ensures EnumFrameSize(index, code).Ok? <==> index == 0 && code == MEDIA_BUS_FMT_SBGGR10_1X10
    ensures EnumFrameSize(0, cur.mbusCode) == Ok(FrameSize(cur.width, cur.width, cur.height, cur.height))
    ensures target in {SEL_TGT_CROP_DEFAULT, SEL_TGT_CROP_BOUNDS, SEL_TGT_NATIVE_SIZE} ==>
              GetSelection(target, crop, cur) == Ok(Rect(0, 0, 2304, 1728))
  {
    CatalogModes(cur);
  }
}
