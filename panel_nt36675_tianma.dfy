/** The Tianma NT36675 DSI panel (drivers/gpu/drm/panel/panel-nt36675-tianma.c):
    its command sequences and its mode. Prepare and unprepare are
    DsiPanel.Panel's. */
module Nt36675Tianma {
  import opened BigEndian
  import opened Sequencing
  import opened DsiPanel

  // The raw writes of nt36675_tianma_on, grouped by the checked DCS helper
  // calls that separate them.
  const OnPreamble: seq<DcsCmd> := [
    Write([0xff, 0x10]), Write([0xfb, 0x01]), Write([0x3b, 0x03, 0x1e, 0x0a, 0x04, 0x04]),
    Write([0xb0, 0x00])
  ]
  const OnPanelSetup: seq<DcsCmd> := [
    Write([DCS_WRITE_CONTROL_DISPLAY, 0x24]), Write([DCS_WRITE_POWER_SAVE, 0x00]),
    Write([0xff, 0x27]), Write([0xfb, 0x01]), Write([0x07, 0x01]),
    Write([DCS_SET_VSYNC_TIMING, 0x25]), Write([0xff, 0x23]), Write([0xfb, 0x01]),
    Write([0x0a, 0x20]), Write([0x0b, 0x20]), Write([0x0c, 0x20]), Write([0x0d, 0x2a]),
    Write([0x10, 0x50]), Write([0x11, 0x01]), Write([0x12, 0x95]), Write([0x15, 0x68]),
    Write([0x16, 0x0b]), Write([DCS_SET_PARTIAL_ROWS, 0xff]), Write([DCS_SET_PARTIAL_COLUMNS, 0xff]),
    Write([0x32, 0xff]), Write([0x33, 0xfe]), Write([0x34, 0xfd]), Write([0x35, 0xfa]),
    Write([DCS_SET_ADDRESS_MODE, 0xf6]), Write([0x37, 0xf2]), Write([0x38, 0xf0]),
    Write([0x39, 0xee])
  ]
  const OnGammaTail: seq<DcsCmd> := [
    Write([0x3b, 0xea]), Write([DCS_SET_3D_CONTROL, 0xe8]), Write([0x3f, 0xe7]),
    Write([DCS_SET_VSYNC_TIMING, 0xe6]), Write([0x41, 0xe5]), Write([0xa0, 0x11]),
    Write([0xff, 0x10]), Write([0xfb, 0x01])
  ]
  const OnEpilogue: seq<DcsCmd> := [
    Write([0xff, 0x27]), Write([0xfb, 0x01]), Write([0x3f, 0x01]), Write([0x43, 0x08]),
    Write([0xff, 0x10])
  ]

  /** The commands nt36675_tianma_on sends, in order. */
  const OnCommands: seq<DcsCmd> :=
    OnPreamble
    + [SetTearOn(TEAR_MODE_VBLANK), SetDisplayBrightness(0x00b8)]
    + OnPanelSetup
    + [SetPixelFormat(0xec)]
    + OnGammaTail
    + [ExitSleepMode, SetDisplayOn]
    + OnEpilogue

  /** The commands nt36675_tianma_off sends, in order. */
  const OffCommands: seq<DcsCmd> := [Write([0xff, 0x10]), SetDisplayOff, EnterSleepMode]

  /** nt36675_tianma_mode */
  const PanelMode: DisplayMode := MakeMode(1080, 20, 4, 22, 2400, 10, 2, 30, 83, 147)

  /** The probe's part that matters here: a panel driving `dsi` with this
      driver's sequences, not prepared, held in reset. */
  method NewPanel(dsi: DsiDevice) returns (p: Panel)
    ensures fresh(p) && p.Valid() && !p.prepared
    ensures p.dsi == dsi && p.onCommands == OnCommands && p.offCommands == OffCommands
  {
    p := new Panel(dsi, OnCommands, OffCommands);
  }

  /** The mode's timings are strictly ordered and its clock is
      1126 * 2442 * 60 / 1000 kHz. */
  lemma ModeTiming()
    ensures Ordered(PanelMode)
    ensures PanelMode.hdisplay == 1080 && PanelMode.hsyncStart == 1100
         && PanelMode.hsyncEnd == 1104 && PanelMode.htotal == 1126
    ensures PanelMode.vdisplay == 2400 && PanelMode.vsyncStart == 2410
         && PanelMode.vsyncEnd == 2412 && PanelMode.vtotal == 2442
    ensures PanelMode.clock == 164981
  {
  }

  /** Within the on sequence the checked DCS helpers come in the order
      tear-on, brightness, pixel format, exit sleep, display on; display on is
      sent only when every command before it succeeded. */
  lemma OnCheckedStepsInOrder(failed: nat -> bool, k: nat)
    ensures |OnCommands| == 49
    ensures OnCommands[4] == SetTearOn(TEAR_MODE_VBLANK)
    ensures OnCommands[5] == SetDisplayBrightness(0x00b8)
    ensures OnCommands[33] == SetPixelFormat(0xec)
    ensures OnCommands[42] == ExitSleepMode && OnCommands[43] == SetDisplayOn
    ensures Performed(failed, k, |OnCommands|) > 43 ==> AllPass(failed, k, 43)
  {
    if Performed(failed, k, |OnCommands|) > 43 {
      RunsOnlyAfterPasses(failed, k, |OnCommands|, 43);
    }
  }
}
