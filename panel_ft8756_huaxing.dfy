/** The Huaxing FT8756 DSI panel (drivers/gpu/drm/panel/panel-ft8756-huaxing.c):
    its command sequences and its mode. Prepare and unprepare are
    DsiPanel.Panel's. */
module Ft8756Huaxing {
  import opened BigEndian
  import opened Sequencing
  import opened DsiPanel

  // The raw writes of ft8756_huaxing_on, grouped by the checked DCS helper
  // calls that separate them.
  const OnPreamble: seq<DcsCmd> := [
    Write([0x00, 0x00]), Write([0xff, 0x87, 0x56, 0x01]), Write([0x00, 0x80]),
    Write([0xff, 0x87, 0x56]), Write([0x00, 0x80]),
    Write([0xca, 0x80, 0x80, 0x80, 0x80, 0x80, 0x80, 0x80, 0x80, 0x80, 0x80, 0x80, 0x80]),
    Write([0x00, 0x90]),
    Write([0xca, 0xfe, 0xff, 0x66, 0xf6, 0xff, 0x66, 0xfb, 0xff, 0x32])
  ]
  const OnPanelSetup: seq<DcsCmd> := [
    Write([DCS_WRITE_CONTROL_DISPLAY, 0x24]), Write([DCS_WRITE_POWER_SAVE, 0x00]),
    Write([0x00, 0xb5]), Write([0xca, 0x04])
  ]

  /** The commands ft8756_huaxing_on sends, in order. */
  const OnCommands: seq<DcsCmd> :=
    OnPreamble
    + [SetDisplayBrightness(0x00b8)]
    + OnPanelSetup
    + [ExitSleepMode, SetDisplayOn]

  /** The vendor writes ft8756_huaxing_off sends after the panel sleeps. */
  const OffVendor: seq<DcsCmd> := [Write([0x00, 0x00]), Write([0xf7, 0x5a, 0xa5, 0x95, 0x27])]

  /** The commands ft8756_huaxing_off sends, in order. */
  const OffCommands: seq<DcsCmd> := [SetDisplayOff, EnterSleepMode] + OffVendor

  /** ft8756_huaxing_mode */
  const PanelMode: DisplayMode := MakeMode(1080, 20, 4, 20, 2400, 8, 4, 32, 83, 147)

  /** The probe's part that matters here: a panel driving `dsi` with this
      driver's sequences, not prepared, held in reset. */
  method NewPanel(dsi: DsiDevice) returns (p: Panel)
    ensures fresh(p) && p.Valid() && !p.prepared
    ensures p.dsi == dsi && p.onCommands == OnCommands && p.offCommands == OffCommands
  {
    p := new Panel(dsi, OnCommands, OffCommands);
  }

  /** The mode's timings are strictly ordered and its clock is
      1124 * 2444 * 60 / 1000 kHz. */
  lemma ModeTiming()
    ensures Ordered(PanelMode)
    ensures PanelMode.hdisplay == 1080 && PanelMode.hsyncStart == 1100
         && PanelMode.hsyncEnd == 1104 && PanelMode.htotal == 1124
    ensures PanelMode.vdisplay == 2400 && PanelMode.vsyncStart == 2408
         && PanelMode.vsyncEnd == 2412 && PanelMode.vtotal == 2444
    ensures PanelMode.clock == 164823
  {
  }

  /** Within the on sequence the checked DCS helpers come in the order
      brightness, exit sleep, display on; display on is sent only when every
      command before it succeeded. */
  lemma OnCheckedStepsInOrder(failed: nat -> bool, k: nat)
    ensures |OnCommands| == 15
    ensures OnCommands[8] == SetDisplayBrightness(0x00b8)
    ensures OnCommands[13] == ExitSleepMode && OnCommands[14] == SetDisplayOn
    ensures Performed(failed, k, |OnCommands|) == 15 ==> AllPass(failed, k, 14)
  {
    if Performed(failed, k, |OnCommands|) == 15 {
      RunsOnlyAfterPasses(failed, k, |OnCommands|, 14);
    }
  }

  /** The off sequence turns the display off, then puts it to sleep, and
      sends the vendor writes only when both succeeded: a failing display-off
      ends it at once, a failing enter-sleep right after. */
  lemma OffOrder(failed: nat -> bool, k: nat)
    ensures OffCommands[0] == SetDisplayOff && OffCommands[1] == EnterSleepMode
    ensures OffCommands[2..] == OffVendor
    ensures failed(k) ==> Performed(failed, k, |OffCommands|) == 1
    ensures !failed(k) && failed(k + 1) ==> Performed(failed, k, |OffCommands|) == 2
    ensures Performed(failed, k, |OffCommands|) > 2 <==> !failed(k) && !failed(k + 1)
  {
    if failed(k) {
      StopsAfterFirstFailure(failed, k, |OffCommands|, 0);
    } else if failed(k + 1) {
      StopsAfterFirstFailure(failed, k, |OffCommands|, 1);
    } else {
      assert AllPass(failed, k, 2);
    }
  }
}
