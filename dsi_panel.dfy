/** What the two DSI panel drivers share: the DCS commands they send, the
    MIPI-DSI device that carries them, and the DRM display mode they report. */
module DsiPanel {
  import opened BigEndian
  import opened Errno
  import opened Sequencing

  // DCS command numbers (MIPI Display Command Set) used in the command sequences.
  const DCS_SET_PARTIAL_ROWS: Byte := 0x30
  const DCS_SET_PARTIAL_COLUMNS: Byte := 0x31
  const DCS_SET_ADDRESS_MODE: Byte := 0x36
  const DCS_SET_3D_CONTROL: Byte := 0x3d
  const DCS_SET_VSYNC_TIMING: Byte := 0x40
  const DCS_WRITE_CONTROL_DISPLAY: Byte := 0x53
  const DCS_WRITE_POWER_SAVE: Byte := 0x55

  /** MIPI_DSI_DCS_TEAR_MODE_VBLANK */
  const TEAR_MODE_VBLANK := 0

  /** One DCS command as the panel drivers issue it. `Write` is a raw
      mipi_dsi_dcs_write_seq: the command byte followed by its payload. */
  datatype DcsCmd =
    | Write(bytes: seq<Byte>)
    | SetTearOn(mode: int)
    | SetDisplayBrightness(level: int)
    | SetPixelFormat(format: int)
    | ExitSleepMode
    | SetDisplayOn
    | SetDisplayOff
    | EnterSleepMode

  /** The MIPI-DSI peripheral a panel talks to. Each command is one bus
      transaction; `status(k)` is what the k-th transaction returns (a negative
      errno on failure). Every helper the drivers call, including the
      mipi_dsi_dcs_write_seq macro, returns from the driver on a negative status. */
  class DsiDevice {
    const status: nat -> int
    var log: seq<DcsCmd>
    /** MIPI_DSI_MODE_LPM in dsi->mode_flags */
    var lowPowerMode: bool

    constructor (status: nat -> int)
      ensures this.status == status && log == [] && !lowPowerMode
    {
      this.status := status;
      log := [];
      lowPowerMode := false;
    }

    ghost function Failed(): nat -> bool
    {
      (j: nat) => status(j) < 0
    }

    /** Sends `cmds` in order and stops at the first one that fails, returning
        its status; returns 0 when every command went through. */
    method Run(cmds: seq<DcsCmd>) returns (ret: int)
      modifies this`log
      ensures var p := Performed(Failed(), old(|log|), |cmds|);
              log == old(log) + cmds[..p]
      ensures ret <= 0
      ensures ret == 0 <==> AllPass(Failed(), old(|log|), |cmds|)
      ensures ret < 0 ==> ret == status(|log| - 1)
    {
      ghost var k := |log|;
      var i := 0;
      while i < |cmds|
        invariant 0 <= i <= |cmds|
        invariant log == old(log) + cmds[..i]
        invariant AllPass(Failed(), k, i)
      {
        var st := status(|log|);
        log := log + [cmds[i]];
        if st < 0 {
          StopsAfterFirstFailure(Failed(), k, |cmds|, i);
          assert cmds[..i] + [cmds[i]] == cmds[..i + 1];
          return st;
        }
        i := i + 1;
      }
      RunsToCompletion(Failed(), k, |cmds|);
      assert cmds[..i] == cmds;
      return 0;
    }
  }

  /** A video-mode DSI panel as both panel drivers manage it: `prepare`
      powers the panel up and sends its on sequence, `unprepare` sends its off
      sequence and powers it down. The two drivers differ only in their
      sequences, which their probe gives to the constructor. */
  class Panel {
    const dsi: DsiDevice
    const onCommands: seq<DcsCmd>
    const offCommands: seq<DcsCmd>
    /** ctx->prepared */
    var prepared: bool
    /** how many times this panel holds ctx->supply enabled */
    var regulatorUse: nat
    /** logical value of ctx->reset_gpio (1 holds the panel in reset) */
    var reset: int

    /** The regulator is enabled exactly when the panel is prepared, and the
        reset line is released exactly then. */
    ghost predicate Valid()
      reads this
    {
      && regulatorUse == (if prepared then 1 else 0)
      && reset == (if prepared then 0 else 1)
    }

    /** The state probe leaves: the reset line requested high (GPIOD_OUT_HIGH),
        the regulator off, the panel not prepared. */
    constructor (dsi: DsiDevice, onCommands: seq<DcsCmd>, offCommands: seq<DcsCmd>)
      ensures Valid() && !prepared
      ensures this.dsi == dsi && this.onCommands == onCommands && this.offCommands == offCommands
    {
      this.dsi := dsi;
      this.onCommands := onCommands;
      this.offCommands := offCommands;
      prepared := false;
      regulatorUse := 0;
      reset := 1;
    }

    /** The reset pulse: the line goes 0, 1, 0 (the pauses between are not modelled). */
    method Reset()
      modifies this`reset
      ensures reset == 0
    {
      reset := 0;
      reset := 1;
      reset := 0;
    }

    /** The on sequence: low-power mode is set, then the commands are sent
        until the first failure. */
    method On() returns (ret: int)
      modifies dsi
      ensures dsi.lowPowerMode
      ensures dsi.log == old(dsi.log) + onCommands[..Performed(dsi.Failed(), old(|dsi.log|), |onCommands|)]
      ensures ret <= 0 && (ret == 0 <==> AllPass(dsi.Failed(), old(|dsi.log|), |onCommands|))
      ensures ret < 0 ==> ret == dsi.status(|dsi.log| - 1)
    {
      dsi.lowPowerMode := true;
      ret := dsi.Run(onCommands);
    }

    /** The off sequence: low-power mode is cleared, then the commands are
        sent until the first failure. */
    method Off() returns (ret: int)
      modifies dsi
      ensures !dsi.lowPowerMode
      ensures dsi.log == old(dsi.log) + offCommands[..Performed(dsi.Failed(), old(|dsi.log|), |offCommands|)]
      ensures ret <= 0 && (ret == 0 <==> AllPass(dsi.Failed(), old(|dsi.log|), |offCommands|))
      ensures ret < 0 ==> ret == dsi.status(|dsi.log| - 1)
    {
      dsi.lowPowerMode := false;
      ret := dsi.Run(offCommands);
    }

    /** prepare; `regulatorErr` is what regulator_enable returns. A second
        prepare is a no-op; a failing regulator leaves everything alone; a
        failing on sequence puts the panel back into reset and disables the
        regulator again. */
    method Prepare(regulatorErr: int) returns (ret: int)
      requires Valid()
      modifies this`prepared, this`regulatorUse, this`reset, dsi
      ensures Valid() && ret <= 0
      ensures old(prepared) ==> ret == 0 && prepared && unchanged(this) && unchanged(dsi)
      ensures !old(prepared) && regulatorErr < 0 ==>
                ret == regulatorErr && !prepared && unchanged(this) && unchanged(dsi)
      ensures !old(prepared) && regulatorErr >= 0 ==>
                && dsi.lowPowerMode
                && dsi.log == old(dsi.log) + onCommands[..Performed(dsi.Failed(), old(|dsi.log|), |onCommands|)]
                && (prepared <==> AllPass(dsi.Failed(), old(|dsi.log|), |onCommands|))
                && (ret == 0 <==> prepared)
                && (ret < 0 ==> ret == dsi.status(|dsi.log| - 1))
    {
      if prepared {
        return 0;
      }
      if regulatorErr < 0 {
        return regulatorErr;
      }
      regulatorUse := regulatorUse + 1;
      Reset();
      ret := On();
      if ret < 0 {
        reset := 1;
        regulatorUse := regulatorUse - 1;
        return ret;
      }
      prepared := true;
      return 0;
    }

    /** unprepare: a failing off sequence is only reported in the log, the
        panel is powered down regardless and 0 is returned. */
    method Unprepare() returns (ret: int)
      requires Valid()
      modifies this`prepared, this`regulatorUse, this`reset, dsi
      ensures Valid() && ret == 0 && !prepared
      ensures !old(prepared) ==> unchanged(this) && unchanged(dsi)
      ensures old(prepared) ==>
                && !dsi.lowPowerMode
                && dsi.log == old(dsi.log) + offCommands[..Performed(dsi.Failed(), old(|dsi.log|), |offCommands|)]
                && reset == 1 && regulatorUse == 0
    {
      if !prepared {
        return 0;
      }
      var _ := Off();
      reset := 1;
      regulatorUse := regulatorUse - 1;
      prepared := false;
      return 0;
    }
  }

  /** The fields of a drm_display_mode the panels fill in. */
  datatype DisplayMode = DisplayMode(
    clock: nat,
    hdisplay: nat, hsyncStart: nat, hsyncEnd: nat, htotal: nat,
    vdisplay: nat, vsyncStart: nat, vsyncEnd: nat, vtotal: nat,
    widthMm: nat, heightMm: nat)

  /** Built from active size, front porch, sync width and back porch, as the
      panels write their modes; the clock is in kHz at 60 frames per second. */
  function MakeMode(hactive: nat, hfp: nat, hsync: nat, hbp: nat,
                    vactive: nat, vfp: nat, vsync: nat, vbp: nat,
                    widthMm: nat, heightMm: nat): (m: DisplayMode)
    requires hfp > 0 && hsync > 0 && hbp > 0 && vfp > 0 && vsync > 0 && vbp > 0
    ensures Ordered(m)
    ensures m.clock * 1000 <= m.htotal * m.vtotal * 60 < (m.clock + 1) * 1000
    ensures m.htotal - m.hdisplay == hfp + hsync + hbp && m.vtotal - m.vdisplay == vfp + vsync + vbp
  {
    var htotal := hactive + hfp + hsync + hbp;
    var vtotal := vactive + vfp + vsync + vbp;
    DisplayMode((htotal * vtotal * 60) / 1000,
                hactive, hactive + hfp, hactive + hfp + hsync, htotal,
                vactive, vactive + vfp, vactive + vfp + vsync, vtotal,
                widthMm, heightMm)
  }

  ghost predicate Ordered(m: DisplayMode)
  {
    && m.hdisplay < m.hsyncStart < m.hsyncEnd < m.htotal
    && m.vdisplay < m.vsyncStart < m.vsyncEnd < m.vtotal
  }

  /** The connector as get_modes leaves it: its list of probed modes and its
      physical size. */
  datatype Connector = Connector(probed: seq<DisplayMode>, widthMm: nat, heightMm: nat)

  /** get_modes: when drm_mode_duplicate succeeds (`duplicated`), one copy of
      `mode` is added to the connector, its physical size is copied and 1 is
      returned; otherwise -ENOMEM and the connector is left alone. */
  function GetModes(mode: DisplayMode, duplicated: bool, c: Connector): (r: (int, Connector))
    ensures r.0 == 1 || r.0 == -ENOMEM
    ensures r.0 == 1 <==> duplicated
    ensures duplicated ==> r.1.probed == c.probed + [mode]
                           && r.1.widthMm == mode.widthMm && r.1.heightMm == mode.heightMm
    ensures !duplicated ==> r.1 == c
  {
    if !duplicated then (-ENOMEM, c)
    else (1, Connector(c.probed + [mode], mode.widthMm, mode.heightMm))
  }
}
