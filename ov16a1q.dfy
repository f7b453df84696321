/** The OV16A1Q sensor driver (drivers/media/i2c/ov16a1q.c) as a stateful
    device: the I2C register accesses, the register tables, the s_ctrl
    callback, stream start and stop, set_fmt, the runtime power callbacks with
    the usage count the runtime PM core keeps, and probe. The values these
    operations compute are Ov16a1qModel's. */
module Ov16a1q {
  import opened BigEndian
  import opened Errno
  import opened Ov16a1qTables
  import opened Ov16a1qModel

  /** v4l2_subdev_format.which */
  datatype Which = Try | Active

  /** ov16a1q_power_on's result: the clock's error, else the regulators'. */
  function PowerOnStatus(clkErr: int, regErr: int): (ret: int)
    ensures ret == 0 <==> clkErr == 0 && regErr == 0
    ensures clkErr != 0 ==> ret == clkErr
    ensures clkErr == 0 ==> ret == regErr
  {
    if clkErr != 0 then clkErr else regErr
  }

  /** The sensor as probe leaves it bound: the bus, the crop rectangle of its
      subdev state, the base register table every stream start writes, and the
      state the driver and the runtime PM core change. */
  class Sensor {
    /** bus(k) is the adapter's answer to the k-th frame. */
    const bus: nat -> I2cReply
    const crop: Rect
    /** ov16a1q_regs */
    const baseRegs: seq<RegEntry>
    /** Every frame put on the bus so far, in order. */
    var frames: seq<Frame>
    /** ov16a1q->cur_mode */
    var curMode: Mode
    /** The controls of ov16a1q->ctrl_handler. */
    var ctrls: Controls
    /** The format of the subdev state that TRY set_fmt calls write. */
    var tryFormat: Format
    /** The runtime PM usage count and status (true: active). */
    var pmUsage: nat
    var active: bool
    /** How many times xvclk is prepared and enabled, and the supplies enabled. */
    var clockUse: nat
    var supplyUse: nat
    /** Logical value of reset_gpio. */
    var reset: int

    /** The pixel rate control holds the mode's rate, 144 MHz as for every
        catalog mode, and the controls are sound (the exposure value may lie
        above its maximum after a failed nested write); a device in use is powered;
        the clock and the supplies are on, and the reset line high, exactly
        while the device is active. */
    ghost predicate Valid()
      reads this
    {
      && curMode.depth > 0 && ctrls.pixelRate.val == PixelRate(curMode) == 144000000
      && ControlsSound(ctrls)
      && (pmUsage > 0 ==> active)
      && clockUse == (if active then 1 else 0)
      && supplyUse == (if active then 1 else 0)
      && reset == (if active then 1 else 0)
    }

    /** pm_runtime_get_if_in_use succeeds: the device is active and used. */
    function InUse(): bool
      reads this
    {
      active && pmUsage > 0
    }

    /** The state probe builds before powering up: the reset line requested
        low, nothing enabled, the try format that init_state sets. */
    constructor (bus: nat -> I2cReply, crop: Rect, baseRegs: seq<RegEntry>, mode: Mode, ctrls: Controls)
      requires mode.depth > 0 && ctrls.pixelRate.val == PixelRate(mode) == 144000000
      requires ControlsValid(ctrls)
      ensures Valid() && !active && pmUsage == 0
      ensures this.bus == bus && this.crop == crop && this.baseRegs == baseRegs
      ensures curMode == mode && this.ctrls == ctrls && frames == []
      ensures tryFormat == FormatOf(NearestMode(mode.width, mode.height))
    {
      this.bus := bus;
      this.crop := crop;
      this.baseRegs := baseRegs;
      frames := [];
      curMode := mode;
      this.ctrls := ctrls;
      tryFormat := FormatOf(NearestMode(mode.width, mode.height));
      pmUsage := 0;
      active := false;
      clockUse := 0;
      supplyUse := 0;
      reset := 0;
    }

    /** ov16a1q_write: a width over 4 is refused; otherwise one write frame,
        and -EIO unless the adapter sent all len + 2 bytes. */
    method WriteReg(reg: U16, len: nat, val: int) returns (ret: int)
      requires 1 <= len
      modifies this`frames
      ensures len > 4 ==> ret == -EINVAL && frames == old(frames)
      ensures len <= 4 ==> frames == old(frames) + [Write(reg, len, val)]
                           && ret == WriteStatus(bus(|old(frames)|).count, len)
    {
      if len > 4 {
        return -EINVAL;
      }
      var sent := bus(|frames|).count;
      frames := frames + [Write(reg, len, val)];
      if sent != len + 2 {
        return -EIO;
      }
      return 0;
    }

    /** ov16a1q_read: a width over 4 is refused; otherwise one two-message
        transfer, -EIO unless both messages went through, and the value is
        the received bytes read big-endian. */
    method ReadReg(reg: U16, len: nat) returns (ret: int, val: nat)
      modifies this`frames
      ensures len > 4 ==> ret == -EINVAL && val == 0 && frames == old(frames)
      ensures len <= 4 ==> frames == old(frames) + [Read(reg, len)]
      ensures len <= 4 && bus(|old(frames)|).count != 2 ==> ret == -EIO && val == 0
      ensures len <= 4 && bus(|old(frames)|).count == 2 ==>
                ret == 0 && val == bus(|old(frames)|).word % Pow256(len)
    {
      if len > 4 {
        return -EINVAL, 0;
      }
      var r := bus(|frames|);
      frames := frames + [Read(reg, len)];
      if r.count != 2 {
        return -EIO, 0;
      }
      ReadWord(r.word, len);
      return 0, ReadValue(ToBe(r.word, len));
    }

    /** ov16a1q_write_reg_list: every entry is written, one byte each, even
        after a failure; the result is the last write's. */
    method WriteRegList(table: seq<RegEntry>) returns (ret: int)
      modifies this`frames
      ensures frames == old(frames) + TableFrames(table)
      ensures ret == TableStatus(bus, |old(frames)|, table)
    {
      ghost var f0 := frames;
      ret := 0;
      var i := 0;
      while i < |table|
        invariant 0 <= i <= |table|
        invariant frames == f0 + TableFrames(table[..i])
        invariant ret == TableStatus(bus, |f0|, table[..i])
      {
        ret := WriteReg(table[i].address, 1, table[i].val);
        assert TableFrames(table[..i + 1]) == TableFrames(table[..i]) + [Write(table[i].address, 1, table[i].val)];
        i := i + 1;
      }
      assert table[..i] == table;
    }

    /** ov16a1q_set_ctrl: a vertical blank change moves the exposure range
        first; then, only while the device is in use, the control's register
        is written (an id it does not handle is refused). */
    method SetCtrl(id: CtrlId, v: int) returns (ret: int)
      requires Valid()
      modifies this`frames, this`ctrls
      decreases if id.VBlank? then 2 else 0
      ensures Valid()
      ensures var o := CtrlOutcome(bus, |old(frames)|, old(ctrls), old(curMode).height, id, v, old(InUse()));
              frames == old(frames) + o.frames && ret == o.ret && ctrls == o.ctrls
    {
      if id.VBlank? {
        var _ := ModifyExposureRange(ExposureLimit(curMode.height, v));
      }
      if !InUse() {
        return 0;
      }
      match id
      case Exposure =>
        ret := WriteReg(REG_EXPOSURE, 3, v);
      case AnalogueGain =>
        ret := WriteReg(REG_GAIN, 2, v);
      case VBlank =>
        ret := WriteReg(REG_VTS, 2, curMode.height + v);
      case Unhandled(_) =>
        ret := -EINVAL;
    }

    /** __v4l2_ctrl_modify_range on the exposure control with maximum and
        default `lim`: check_range refuses a maximum below the minimum; the new
        range is set; when it clamps the value, s_ctrl runs for the exposure at
        the clamped value, which is kept only when s_ctrl returned 0. */
    method ModifyExposureRange(lim: int) returns (ret: int)
      requires Valid()
      modifies this`frames, this`ctrls
      decreases 1
      ensures Valid()
      ensures var r := RangeOutcome(bus, |old(frames)|, old(ctrls), old(curMode).height, lim, old(InUse()));
              frames == old(frames) + r.frames && ret == r.ret && ctrls == r.ctrls
    {
      var e := ctrls.exposure;
      if lim < e.min {
        return -ERANGE;
      }
      var clamped := ModifyRange(e, e.min, lim, lim);
      ctrls := ctrls.(exposure := clamped.(val := e.val));
      if clamped.val == e.val {
        return 0;
      }
      ret := SetCtrl(Exposure, clamped.val);
      if ret == 0 {
        ctrls := ctrls.(exposure := clamped);
      }
    }

    /** __v4l2_ctrl_handler_setup: s_ctrl for each writable control at its
        current value, in creation order, until one fails. */
    method CtrlHandlerSetup() returns (ret: int)
      requires Valid()
      modifies this`frames, this`ctrls
      ensures Valid()
      ensures var o := HandlerSetup(bus, |old(frames)|, old(curMode).height, old(ctrls), old(InUse()));
              frames == old(frames) + o.frames && ret == o.ret && ctrls == o.ctrls
    {
      ret := SetCtrl(VBlank, ctrls.vblank.val);
      if ret != 0 {
        return;
      }
      ret := SetCtrl(Exposure, ctrls.exposure.val);
      if ret != 0 {
        return;
      }
      ret := SetCtrl(AnalogueGain, ctrls.gain.val);
    }

    /** ov16a1q_start_stream: the base table, the mode's table, then
        StreamOn; each only when the one before returned 0. */
    method StartStream() returns (ret: int)
      requires Valid()
      modifies this`frames, this`ctrls
      ensures Valid()
      ensures StartedAs(old(frames), frames, ret, ctrls, bus, baseRegs, old(curMode), old(ctrls), old(InUse()))
    {
      ghost var k, m, c, u := |frames|, curMode, ctrls, InUse();
      ret := WriteRegList(baseRegs);
      if ret != 0 {
        return;
      }
      ret := WriteRegList(curMode.regs);
      if ret != 0 {
        return;
      }
      assert |frames| == k + |baseRegs| + |m.regs| && curMode == m && ctrls == c && InUse() == u;
      ret := StreamOn();
    }

    /** The end of ov16a1q_start_stream: the control handler setup, then,
        when it returned 0, the stream-on write 0x0100 <- 1. */
    method StreamOn() returns (ret: int)
      requires Valid()
      modifies this`frames, this`ctrls
      ensures Valid()
      ensures StreamedOn(old(frames), frames, ret, ctrls, bus, old(curMode).height, old(ctrls), old(InUse()))
    {
      SetupAndStreamSteps(frames, bus, |frames|, curMode.height, ctrls, InUse());
      ret := CtrlHandlerSetup();
      if ret != 0 {
        return;
      }
      ret := WriteReg(REG_MODE_SELECT, 1, 1);
    }

    /** ov16a1q_stop_stream: 0x0100 <- 0. */
    method StopStream() returns (ret: int)
      modifies this`frames
      ensures frames == old(frames) + [StreamOffFrame()]
      ensures ret == WriteStatus(bus(|old(frames)|).count, 1)
    {
      ret := WriteReg(REG_MODE_SELECT, 1, 0);
    }

    /** ov16a1q_power_on; `clkErr` and `regErr` are what clk_prepare_enable and
        regulator_bulk_enable return. The reset line goes low first; a failing
        regulator disables the clock again; on success the reset line goes
        high. */
    method PowerOn(clkErr: int, regErr: int) returns (ret: int)
      modifies this`clockUse, this`supplyUse, this`reset
      ensures ret == PowerOnStatus(clkErr, regErr)
      ensures ret != 0 ==> reset == 0 && clockUse == old(clockUse) && supplyUse == old(supplyUse)
      ensures ret == 0 ==> reset == 1 && clockUse == old(clockUse) + 1 && supplyUse == old(supplyUse) + 1
    {
      reset := 0;
      if clkErr != 0 {
        return clkErr;
      }
      clockUse := clockUse + 1;
      if regErr != 0 {
        clockUse := clockUse - 1;
        return regErr;
      }
      supplyUse := supplyUse + 1;
      reset := 1;
      return 0;
    }

    /** ov16a1q_power_off: reset low, clock off, supplies off; disabling
        something already off leaves it off. */
    method PowerOff() returns (ret: int)
      modifies this`clockUse, this`supplyUse, this`reset
      ensures ret == 0 && reset == 0
      ensures clockUse == if old(clockUse) > 0 then old(clockUse) - 1 else 0
      ensures supplyUse == if old(supplyUse) > 0 then old(supplyUse) - 1 else 0
    {
      reset := 0;
      if clockUse > 0 {
        clockUse := clockUse - 1;
      }
      if supplyUse > 0 {
        supplyUse := supplyUse - 1;
      }
      return 0;
    }

    /** pm_runtime_resume_and_get: takes a usage reference and powers a
        suspended device up; if that fails the reference is dropped again and
        the device stays suspended. */
    method ResumeAndGet(clkErr: int, regErr: int) returns (ret: int)
      requires Valid()
      modifies this`pmUsage, this`active, this`clockUse, this`supplyUse, this`reset
      ensures Valid()
      ensures ret == (if old(active) then 0 else PowerOnStatus(clkErr, regErr))
      ensures ret == 0 ==> active && pmUsage == old(pmUsage) + 1
      ensures ret != 0 ==> !active && pmUsage == old(pmUsage)
    {
      pmUsage := pmUsage + 1;
      if active {
        return 0;
      }
      ret := PowerOn(clkErr, regErr);
      if ret != 0 {
        pmUsage := pmUsage - 1;
        return;
      }
      active := true;
    }

    /** pm_runtime_put_sync / pm_runtime_put_autosuspend: drops a usage
        reference; suspending is left to Suspend. */
    method Put()
      requires Valid()
      modifies this`pmUsage
      ensures Valid()
      ensures pmUsage == if old(pmUsage) > 0 then old(pmUsage) - 1 else 0
    {
      if pmUsage > 0 {
        pmUsage := pmUsage - 1;
      }
    }

    /** The runtime suspend of an unused active device (the autosuspend timer
        firing): ov16a1q_power_off, and the device is suspended. */
    method Suspend()
      requires Valid() && active && pmUsage == 0
      modifies this`active, this`clockUse, this`supplyUse, this`reset
      ensures Valid() && !active
    {
      var _ := PowerOff();
      active := false;
    }

    /** ov16a1q_s_stream. On: resume the device, then start streaming; a
        failed start drops the reference again. Off: the stream-off write,
        whose result is ignored, then the reference is dropped; 0. */
    method SStream(on: bool, clkErr: int, regErr: int) returns (ret: int)
      requires Valid()
      modifies this`frames, this`ctrls, this`pmUsage, this`active, this`clockUse, this`supplyUse, this`reset
      ensures Valid()
      ensures on && !old(active) && PowerOnStatus(clkErr, regErr) != 0 ==>
                && ret == PowerOnStatus(clkErr, regErr)
                && frames == old(frames) && ctrls == old(ctrls) && pmUsage == old(pmUsage) && !active
      ensures on && (old(active) || PowerOnStatus(clkErr, regErr) == 0) ==>
                && StartedAs(old(frames), frames, ret, ctrls, bus, baseRegs, curMode, old(ctrls), true) && active
                && pmUsage == old(pmUsage) + (if ret == 0 then 1 else 0)
      ensures !on ==>
                && ret == 0 && frames == old(frames) + [StreamOffFrame()] && ctrls == old(ctrls)
                && active == old(active) && pmUsage == if old(pmUsage) > 0 then old(pmUsage) - 1 else 0
    {
      if on {
        ret := ResumeAndGet(clkErr, regErr);
        if ret != 0 {
          return;
        }
        ret := StartStream();
        if ret != 0 {
          Put();
        }
      } else {
        var _ := StopStream();
        Put();
        ret := 0;
      }
    }

    /** ov16a1q_set_fmt: the nearest catalog mode is reported. TRY stores it
        in the subdev state. ACTIVE makes it the current mode, moves the
        pixel rate, the vertical blank range (default vts - height) and the
        fixed horizontal blank to it, then sets the vertical blank to that
        default, which runs s_ctrl when the value changes and keeps the new
        value when s_ctrl succeeds. */
    method SetFmt(which: Which, width: nat, height: nat) returns (ret: int, fmt: Format)
      requires Valid()
      modifies this`frames, this`ctrls, this`curMode, this`tryFormat
      ensures Valid() && ret == 0 && fmt == FormatOf(NearestMode(width, height))
      ensures which == Try ==>
                && tryFormat == fmt && curMode == old(curMode) && ctrls == old(ctrls) && frames == old(frames)
      ensures which == Active ==>
                var m := NearestMode(width, height);
                var c1 := FormatRanges(old(ctrls), m);
                var vb := VBlankDefault(m);
                && curMode == m && tryFormat == old(tryFormat)
                && (c1.vblank.val == vb ==> ctrls == c1 && frames == old(frames))
                && (c1.vblank.val != vb ==>
                      var o := CtrlOutcome(bus, |old(frames)|, c1, m.height, VBlank, vb, InUse());
                      && frames == old(frames) + o.frames
                      && ctrls == if o.ret == 0 then o.ctrls.(vblank := o.ctrls.vblank.(val := vb)) else o.ctrls)
    {
      var m := NearestMode(width, height);
      fmt := FormatOf(m);
      if which == Try {
        tryFormat := fmt;
        return 0, fmt;
      }
      CatalogModes(m);
      InitialRanges(m, ctrls);
      curMode := m;
      ctrls := FormatRanges(ctrls, m);
      var vb := VBlankDefault(m);
      if ctrls.vblank.val != vb {
        var r := SetCtrl(VBlank, vb);
        if r == 0 {
          ctrls := ctrls.(vblank := ctrls.vblank.(val := vb));
        }
      }
      return 0, fmt;
    }

    /** ov16a1q_check_sensor_id: a 2-byte read of the chip id register; a
        failed read is returned, a wrong id is -ENODEV. */
    method CheckSensorId() returns (ret: int)
      modifies this`frames
      ensures frames == old(frames) + [Read(REG_CHIP_ID, 2)]
      ensures ret == IdCheck(bus(|old(frames)|))
    {
      var r, id := ReadReg(REG_CHIP_ID, 2);
      if r != 0 {
        return r;
      }
      assert Pow256(2) == 0x1_0000;
      if id != CHIP_ID {
        return -ENODEV;
      }
      return 0;
    }

    /** The end of ov16a1q_probe once the sensor is set up: power on, mark
        the device active holding one usage reference, check the chip id,
        register the subdevice (`asyncErr` is what that returns), then drop the
        reference and leave the device to autosuspend. A failure after
        power-up powers the sensor off again. */
    method PowerUpAndIdentify(clkErr: int, regErr: int, asyncErr: int) returns (ret: int)
      requires Valid() && !active && pmUsage == 0
      modifies this`frames, this`pmUsage, this`active, this`clockUse, this`supplyUse, this`reset
      ensures Valid() && pmUsage == 0 && (active <==> ret == 0)
      ensures ret == if PowerOnStatus(clkErr, regErr) != 0 then PowerOnStatus(clkErr, regErr)
                     else if IdCheck(bus(|old(frames)|)) != 0 then IdCheck(bus(|old(frames)|))
                     else asyncErr
      ensures frames == if PowerOnStatus(clkErr, regErr) != 0 then old(frames)
                        else old(frames) + [Read(REG_CHIP_ID, 2)]
    {
      ret := PowerOn(clkErr, regErr);
      if ret != 0 {
        return;
      }
      active := true;
      pmUsage := 1;
      ret := CheckSensorId();
      if ret == 0 && asyncErr != 0 {
        ret := asyncErr;
      }
      if ret != 0 {
        pmUsage := 0;
        var _ := PowerOff();
        active := false;
        return;
      }
      Put();
    }

    /** ov16a1q_remove: an active device is powered off; the device ends up
        suspended. */
    method Remove()
      requires Valid()
      modifies this`active, this`clockUse, this`supplyUse, this`reset
      ensures !active && clockUse == 0 && supplyUse == 0 && reset == 0
    {
      if active {
        var _ := PowerOff();
      }
      active := false;
    }
  }

  /** ov16a1q_parse_of after the endpoint lookup: no endpoint is -EINVAL, a
      parse failure is returned, and otherwise the first mode with the
      endpoint's lane count is chosen, -EINVAL when there is none. */
  method ParseOf(found: bool, parseErr: int, lanes: nat) returns (ret: int, index: Option<nat>)
    ensures !found ==> ret == -EINVAL && index == None
    ensures found && parseErr != 0 ==> ret == parseErr && index == None
    ensures found && parseErr == 0 ==>
              && index == FirstWithLanes(Modes, lanes)
              && (ret == 0 <==> index.Some?) && (ret != 0 ==> ret == -EINVAL)
  {
    if !found {
      return -EINVAL, None;
    }
    if parseErr != 0 {
      return parseErr, None;
    }
    index := None;
    var i := 0;
    while i < |Modes|
      invariant 0 <= i <= |Modes|
      invariant index.None? ==> forall j :: 0 <= j < i ==> Modes[j].laneCount != lanes
      invariant index.Some? ==> index == FirstWithLanes(Modes, lanes)
    {
      if Modes[i].laneCount == lanes {
        index := Some(i);
        break;
      }
      i := i + 1;
    }
    if index.None? {
      return -EINVAL, None;
    }
    return 0, index;
  }

  /** What probe finds in the system: the error of each step the driver
      cannot see into (0 when it succeeds) and the endpoint it parses. */
  datatype ProbeEnv = ProbeEnv(
    /** devm_kzalloc, devm_clk_get, devm_gpiod_get, devm_regulator_bulk_get */
    resourceErr: int,
    endpointFound: bool, parseErr: int, lanes: nat,
    /** the control handler's error and the fwnode property controls' */
    ctrlErr: int,
    /** media_entity_pads_init, v4l2_subdev_init_finalize (negative on failure) */
    entityErr: int, finalizeErr: int,
    /** clk_prepare_enable, regulator_bulk_enable */
    clkErr: int, regErr: int,
    /** v4l2_async_register_subdev_sensor */
    asyncErr: int)

  /** The result of ov16a1q_probe: the first failing step's error, where the
      id check answers `idReply`. */
  function ProbeStatus(env: ProbeEnv, idReply: I2cReply): int
  {
    if env.resourceErr != 0 then env.resourceErr
    else if !env.endpointFound then -EINVAL
    else if env.parseErr != 0 then env.parseErr
    else if FirstWithLanes(Modes, env.lanes).None? then -EINVAL
    else if env.ctrlErr != 0 then env.ctrlErr
    else if env.entityErr < 0 then env.entityErr
    else if env.finalizeErr < 0 then env.finalizeErr
    else if PowerOnStatus(env.clkErr, env.regErr) != 0 then PowerOnStatus(env.clkErr, env.regErr)
    else if IdCheck(idReply) != 0 then IdCheck(idReply)
    else env.asyncErr
  }

  /** Probe binds exactly a 4-lane sensor whose id reads 0x1641 when every
      other step succeeds; a wrong id is -ENODEV, a short id read -EIO. */
  lemma ProbeBinds(env: ProbeEnv, idReply: I2cReply)
    ensures ProbeStatus(env, idReply) == 0 <==>
              && env.resourceErr == 0 && env.endpointFound && env.parseErr == 0 && env.lanes == 4
              && env.ctrlErr == 0 && env.entityErr >= 0 && env.finalizeErr >= 0
              && env.clkErr == 0 && env.regErr == 0
              && idReply.count == 2 && idReply.word % 0x1_0000 == CHIP_ID && env.asyncErr == 0
    ensures var earlier := env.resourceErr == 0 && env.endpointFound && env.parseErr == 0 && env.lanes == 4
                          && env.ctrlErr == 0 && env.entityErr >= 0 && env.finalizeErr >= 0
                          && env.clkErr == 0 && env.regErr == 0;
            && (earlier && idReply.count != 2 ==> ProbeStatus(env, idReply) == -EIO)
            && (earlier && idReply.count == 2 && idReply.word % 0x1_0000 != CHIP_ID ==>
                  ProbeStatus(env, idReply) == -ENODEV)
  {
    CatalogLanes(env.lanes);
  }

  /** ov16a1q_probe. On success the sensor is bound to the catalog mode with
      the initial controls, has sent only the id read, and is powered but
      unused, left for autosuspend. A failure after power-up powers it off
      again; every failure returns the first failing step's error. */
  method Probe(bus: nat -> I2cReply, crop: Rect, env: ProbeEnv) returns (ret: int, s: Sensor?)
    ensures ret == ProbeStatus(env, bus(0))
    ensures ret == 0 <==> s != null
    ensures s != null ==>
              && fresh(s) && s.Valid() && s.bus == bus && s.crop == crop
              && s.curMode == Modes[0] && s.ctrls == InitialControls(Modes[0])
              && s.frames == [Read(REG_CHIP_ID, 2)]
              && s.active && s.pmUsage == 0 && s.tryFormat == FormatOf(Modes[0])
              && s.baseRegs == CommonRegs
  {
    if env.resourceErr != 0 {
      return env.resourceErr, null;
    }
    var r, index := ParseOf(env.endpointFound, env.parseErr, env.lanes);
    if r != 0 {
      return r, null;
    }
    if env.ctrlErr != 0 {
      return env.ctrlErr, null;
    }
    if env.entityErr < 0 {
      return env.entityErr, null;
    }
    if env.finalizeErr < 0 {
      return env.finalizeErr, null;
    }
    var mode := Modes[index.value];
    CatalogModes(mode);
    InitialRanges(mode, InitialControls(mode));
    var sensor := new Sensor(bus, crop, CommonRegs, mode, InitialControls(mode));
    r := sensor.PowerUpAndIdentify(env.clkErr, env.regErr, env.asyncErr);
    if r != 0 {
      return r, null;
    }
    return 0, sensor;
  }
}
