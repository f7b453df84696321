# Verified model of the OV16A1Q, DRV2624 and two DSI panel drivers

This Dafny project models four Linux drivers and proves properties of them:

- **OV16A1Q camera sensor** (`drivers/media/i2c/ov16a1q.c`).
  - The I2C register write and read, with their exact byte layout.
  - The register-table player, which never stops early.
  - The stream-start pipeline: base table, mode table, control handler setup, then `0x0100` ← 1.
  - `s_stream` with the runtime PM usage count.
  - The `s_ctrl` callback, including how the vertical blank moves the exposure range.
  - The control ranges of `init_ctrls` and `set_fmt`.
  - The pad queries, power on and off, the chip-id check, endpoint lane binding and probe.
- **TI DRV2624 haptics** (`drivers/input/misc/drv2624.c`).
  - Voltage conversion, rumble magnitude scaling, and the LRA drive-time and open-loop-period arithmetic.
  - Probe-time validation of the device properties.
  - The register programs of `init`, `open` and `close` over an 8-bit regmap, each stopping at the first failing access, with their GO-register polling loops.
- **Tianma NT36675 and Huaxing FT8756 DSI panels** (`drivers/gpu/drm/panel/`).
  - The `prepared` state machine of `prepare`/`unprepare`, with its regulator and reset line.
  - The `on`/`off` DCS command sequences, which abort at the first failure.
  - The fixed display mode and `get_modes`.

Modules:

| module | file | contents |
|---|---|---|
| `Errno`, `BigEndian` | `big_endian.dfy` | kernel error numbers; big-endian byte encoding and decoding (`put_unaligned_be16/32`, `get_unaligned_be32`) |
| `Sequencing` | `sequencing.dfy` | step sequences that stop at the first failing step |
| `Ov16a1qTables` | `ov16a1q_tables.dfy` | the two register tables as data |
| `Ov16a1qModel` | `ov16a1q_model.dfy` | the sensor's values: mode catalog, frame layout, control records, what a control change or a stream start does, pad queries |
| `Ov16a1q` | `ov16a1q.dfy` | class `Sensor`, the stateful driver, plus `ParseOf` and `Probe` |
| `Drv2624` | `drv2624.dfy` | the haptics arithmetic, register programs and class `Haptics` |
| `DsiPanel` | `dsi_panel.dfy` | classes `DsiDevice` and `Panel`, shared by both panels; display modes |
| `Nt36675Tianma`, `Ft8756Huaxing` | `panel_nt36675_tianma.dfy`, `panel_ft8756_huaxing.dfy` | each panel's command sequences and mode |

Every bus is modelled the same way. An I2C adapter, a regmap or a MIPI-DSI host becomes a constant oracle `bus(k)`: it gives the reply to the k-th transfer. The object also keeps a log of every transfer it attempted. A driver's method therefore states exactly what it sent and what it returned for any behaviour of the hardware. Each method is tied to a pure function of the old state and the oracle. The lemmas prove the driver's promises about that function.

Error codes are the kernel's `int`s: 0 or a negative errno.

## Model

| member | source | states |
|---|---|---|
| `BigEndian.DecodeEncode` | drivers/media/i2c/ov16a1q.c:740-741 | Decoding the n-byte big-endian encoding of v gives v mod 256^n. |
| `BigEndian.EncodeDecode` | drivers/media/i2c/ov16a1q.c:789 | Encoding the decoded value of a byte string at its own length gives the string back. |
| `BigEndian.EncodeShifted` | drivers/media/i2c/ov16a1q.c:741 | v shifted left by m bytes encodes as v's n bytes followed by m zero bytes. |
| `BigEndian.ZeroPadded` | drivers/media/i2c/ov16a1q.c:766-789 | Leading zero bytes do not change a big-endian value. |
| `Ov16a1qModel.CatalogModes` | drivers/media/i2c/ov16a1q.c:695-710 | The catalog holds one mode. Its pixel rate is 144000000, horizontal blank 246, vertical blank default 2192 and exposure maximum 3916. Its height plus the vertical blank default is vts. |
| `Ov16a1qModel.WriteFrameLayout` | drivers/media/i2c/ov16a1q.c:740-742 | The `len + 2` bytes sent are the register address as 2 big-endian bytes, then the low `len` bytes of the value, big-endian. |
| `Ov16a1qModel.ReadDecodes` | drivers/media/i2c/ov16a1q.c:766-789 | The 4-byte buffer, zeroed, with the received bytes at its low end, decodes to the received bytes read big-endian. |
| `Ov16a1qModel.WriteReadRoundTrip` | drivers/media/i2c/ov16a1q.c:732-792 | Reading back, at the same width, the payload written for a value `v < 256^len` yields `v`. |
| `Ov16a1qModel.ReadWord` | drivers/media/i2c/ov16a1q.c:780-789 | A read of width `len` returns the adapter's word mod 256^len. |
| `Ov16a1qModel.ClampRange` | drivers/media/i2c/ov16a1q.c:892-898 | Clamping into a non-empty range lands in it, keeps a value already inside, and otherwise gives the nearer end. |
| `Ov16a1qModel.ModifyRangeValid` | drivers/media/i2c/ov16a1q.c:1000-1003 | A range change takes the new bounds and default as given. A consistent range gives a valid control. A value already inside is kept. |
| `Ov16a1qModel.InitialRanges` | drivers/media/i2c/ov16a1q.c:1133-1157 | Pixel rate is [0, 144 MHz] at 144 MHz. Horizontal blank is fixed at hts − width. Vertical blank starts at vts − height with maximum 0x7ff7 − height. Exposure is [0, vts − 4] at vts − 4. Gain is [128, 1984] at 128. All are valid. After `set_fmt` the vertical blank maximum is 0xffff − height; valid controls stay valid; exposure and gain are untouched. |
| `Ov16a1qModel.ControlRegisters` | drivers/media/i2c/ov16a1q.c:1009-1024 | Exposure is a 3-byte write to 0x3500 and gain a 2-byte write to 0x3508. Vertical blank is a 2-byte write of height + v to 0x380e. Any other id writes nothing. |
| `Ov16a1qModel.CtrlRangeEffect` | drivers/media/i2c/ov16a1q.c:996-1004 | Setting the vertical blank to v sets the exposure maximum and default to lim = height + v − 2, in use or not, unless lim is below the exposure minimum; then the range change is refused and nothing changes. The exposure value becomes the clamped one, unless the nested exposure write fails; then it keeps its old value. Nothing else changes, and other controls change no control. Sound controls stay sound. Valid controls stay valid exactly when the nested write does not fail. |
| `Ov16a1qModel.CtrlBusEffect` | drivers/media/i2c/ov16a1q.c:1006-1024 | Out of use: no write, result 0. In use, an unhandled id: no write, −EINVAL. In use, a handled control ends with its own write, to the register's address at its width. The call fails, with −EIO, exactly when that last send comes back short. Exposure and gain send only that one write. |
| `Ov16a1qModel.VBlankFrames` | drivers/media/i2c/ov16a1q.c:996-1018 | In use, a vertical blank change that lowers the exposure maximum below the exposure value sends 0x3500 ← lim, then 0x380e ← height + v. Otherwise it sends only the 0x380e write. Its result is the 0x380e write's status alone. Out of use it sends nothing. |
| `Ov16a1qModel.VBlankSendsAgree` | drivers/media/i2c/ov16a1q.c:996-1018 | The frames a vertical blank change sends do not depend on the adapter's answers. |
| `Ov16a1qModel.ThenStops` | drivers/media/i2c/ov16a1q.c:803-817 | Two stages that each stop at their first failure, chained by `if (ret) return ret`, stop at their first failure. |
| `Ov16a1qModel.TableStops` | drivers/media/i2c/ov16a1q.c:751-759 | A table sends all its frames. It fails only with −EIO, and then the last write is the one cut short. |
| `Ov16a1qModel.CtrlStops` | drivers/media/i2c/ov16a1q.c:996-1018 | A handled control sends all its frames. It fails only with −EIO, when its own write, the last frame, comes back short; a failed nested exposure write does not fail it. |
| `Ov16a1qModel.SetupStops` | drivers/media/i2c/ov16a1q.c:811-813 | The handler setup sends the vertical blank's frames, then the exposure at the value that call left, then the gain, in order. It sends none when out of use and stops at the first control that fails. |
| `Ov16a1qModel.SetupControls` | drivers/media/i2c/ov16a1q.c:811-813 | The handler setup leaves the controls as its vertical blank call does: the exposure maximum and default follow the current vertical blank. Sound controls stay sound. |
| `Ov16a1qModel.SetupAndStreamStops` | drivers/media/i2c/ov16a1q.c:811-817 | The setup followed by `0x0100` ← 1 stops at its first failure. The stream-on write is sent only after a successful setup. |
| `Ov16a1qModel.StartStages` | drivers/media/i2c/ov16a1q.c:794-820 | A stream start only appends to the log. What it appends is a prefix of: base table, mode table, setup writes, `0x0100` ← 1, with the exposure written at the value the vertical blank call left. On success it is all of it. A failure is −EIO whose last frame is the short write; no later stage runs. |
| `Ov16a1qModel.FirstWithLanes` | drivers/media/i2c/ov16a1q.c:1224-1232 | Result is the first index whose lane count matches, or none exactly when no mode matches. |
| `Ov16a1qModel.CatalogLanes` | drivers/media/i2c/ov16a1q.c:1224-1238 | Only a 4-lane endpoint binds the catalog, to mode 0. |
| `Ov16a1qModel.IdCheck` | drivers/media/i2c/ov16a1q.c:1184-1201 | 0 exactly when the 2-byte read succeeds and reads 0x1641. A failed read is −EIO; a wrong id is −ENODEV. |
| `Ov16a1qModel.NearestMode` | drivers/media/i2c/ov16a1q.c:875-877 | The mode chosen is a catalog mode. |
| `Ov16a1qModel.EnumFrameSize` | drivers/media/i2c/ov16a1q.c:934-950 | Succeeds exactly for an index in the catalog whose mode has the code asked for, and reports that mode's fixed size. Otherwise −EINVAL. |
| `Ov16a1qModel.EnumMbusCode` | drivers/media/i2c/ov16a1q.c:952-964 | Succeeds exactly at index 0, with the current mode's code. Otherwise −EINVAL. |
| `Ov16a1qModel.GetSelection` | drivers/media/i2c/ov16a1q.c:904-932 | Succeeds exactly for the four crop/size targets. CROP returns the state's crop; anything else is −EINVAL. |
| `Ov16a1qModel.QueriesAgree` | drivers/media/i2c/ov16a1q.c:904-964 | On a catalog mode the queries agree. The only code is SBGGR10_1X10 and frame sizes exist only for it at index 0. Native size, default crop and bounds are all 2304×1728 at the origin. |
| `Ov16a1q.PowerOnStatus` | drivers/media/i2c/ov16a1q.c:1059-1089 | Power-on succeeds exactly when clock and regulators both do. Otherwise it returns the clock's error, else the regulators'. |
| `Ov16a1q.Sensor.constructor` | drivers/media/i2c/ov16a1q.c:1243-1298 | The state before power-up: nothing enabled, reset low, no usage reference, empty log. The try format is the nearest mode's. |
| `Ov16a1q.Sensor.WriteReg` | drivers/media/i2c/ov16a1q.c:732-749 | `len > 4` is −EINVAL with no transfer. Otherwise exactly one write frame, and −EIO unless all `len + 2` bytes went out. |
| `Ov16a1q.Sensor.ReadReg` | drivers/media/i2c/ov16a1q.c:761-792 | `len > 4` is −EINVAL with no transfer. Otherwise one read frame: −EIO unless both messages went through, else 0 and the word mod 256^len. |
| `Ov16a1q.Sensor.WriteRegList` | drivers/media/i2c/ov16a1q.c:751-759 | Exactly one 1-byte write per entry, in table order, even after failures. The result is the last write's status. |
| `Ov16a1q.Sensor.SetCtrl` | drivers/media/i2c/ov16a1q.c:983-1029 | Log, result and controls are those of `CtrlOutcome` (see `CtrlRangeEffect`, `CtrlBusEffect`, `VBlankFrames`), for any value. The sensor invariant is kept. |
| `Ov16a1q.Sensor.ModifyExposureRange` | drivers/media/i2c/ov16a1q.c:1000-1003 | Log, result and controls are those of `RangeOutcome`: −ERANGE when the new maximum is below the minimum; otherwise the new range is set, and a value it clamps goes through the exposure's `s_ctrl` and is kept only when that returns 0. The sensor invariant is kept. |
| `Ov16a1q.Sensor.CtrlHandlerSetup` | drivers/media/i2c/ov16a1q.c:811 | Log, result and controls are those of the three chained `s_ctrl` calls. The controls end as the vertical blank call leaves them. |
| `Ov16a1q.Sensor.StartStream` | drivers/media/i2c/ov16a1q.c:794-820 | The log, result and controls are one of three cases: base table failed, mode table failed, or setup plus stream-on ran. Each only runs when the stage before returned 0 (`StartedAs`, see `StartStages`). |
| `Ov16a1q.Sensor.StreamOn` | drivers/media/i2c/ov16a1q.c:811-817 | The handler setup, then, only on success, `0x0100` ← 1 (`StreamedOn`). |
| `Ov16a1q.Sensor.StopStream` | drivers/media/i2c/ov16a1q.c:822-831 | Exactly one frame, `0x0100` ← 0, and its write status. |
| `Ov16a1q.Sensor.PowerOn` | drivers/media/i2c/ov16a1q.c:1059-1089 | On success, clock and supplies are enabled once more and reset is 1. On failure the clock is unwound (nothing stays enabled) and reset is 0. |
| `Ov16a1q.Sensor.PowerOff` | drivers/media/i2c/ov16a1q.c:1091-1105 | Always 0. Reset goes to 0 and clock and supplies are disabled once. |
| `Ov16a1q.Sensor.ResumeAndGet` | drivers/media/i2c/ov16a1q.c:843-845 | Takes a reference and powers up a suspended device. On failure the reference is dropped and the device stays suspended. |
| `Ov16a1q.Sensor.Put` | drivers/media/i2c/ov16a1q.c:855-856 | Drops one usage reference, never below 0. |
| `Ov16a1q.Sensor.Suspend` | drivers/media/i2c/ov16a1q.c:1091-1105 | An unused active device is powered off and suspended, keeping the invariant. |
| `Ov16a1q.Sensor.SStream` | drivers/media/i2c/ov16a1q.c:833-863 | On, power-up failing: its error; nothing sent; usage count unchanged. On, otherwise: a stream start as `StartedAs`; usage count +1 on success and unchanged on failure. Off: `0x0100` ← 0 whatever it returns, one reference dropped, result 0. |
| `Ov16a1q.Sensor.SetFmt` | drivers/media/i2c/ov16a1q.c:865-902 | Reports the nearest mode and returns 0. TRY only stores the format; current mode, controls and log are unchanged. ACTIVE installs the mode and its ranges (`FormatRanges`), then sets the vertical blank to vts − height through `s_ctrl` when it differs. |
| `Ov16a1q.Sensor.CheckSensorId` | drivers/media/i2c/ov16a1q.c:1184-1201 | Exactly one 2-byte read of 0x300b, with result `IdCheck` of its reply. |
| `Ov16a1q.Sensor.PowerUpAndIdentify` | drivers/media/i2c/ov16a1q.c:1300-1329 | The first failing step's error among power-on, id check and async registration. Active exactly on success. A failure after power-up powers off again; the usage count ends at 0. |
| `Ov16a1q.Sensor.Remove` | drivers/media/i2c/ov16a1q.c:1338-1351 | Ends suspended, with clock and supplies disabled and reset low. |
| `Ov16a1q.ParseOf` | drivers/media/i2c/ov16a1q.c:1203-1241 | No endpoint: −EINVAL. A parse error is returned. Otherwise the first mode with the endpoint's lane count, or −EINVAL when none has it. |
| `Ov16a1q.ProbeBinds` | drivers/media/i2c/ov16a1q.c:1243-1336 | Probe succeeds exactly when every step succeeds, the bus has 4 lanes and the id reads 0x1641. After earlier steps succeed, a short id read is −EIO and a wrong id −ENODEV. |
| `Ov16a1q.Probe` | drivers/media/i2c/ov16a1q.c:1243-1336 | Returns the first failing step's error, and a sensor exactly on success. That sensor has catalog mode 0, the initial controls and the base table. It has sent only the id read, is powered and unused. |
| `Drv2624.UpdateBits` | drivers/input/misc/drv2624.c:198-201 | The bits under the mask come from the value and the other bits are kept. |
| `Drv2624.CalculateVoltage` | drivers/input/misc/drv2624.c:82-85 | r is ⌊mv·255/5600⌋ up to 16843009 mV, and never above 766958. |
| `Drv2624.VoltageWraps` | drivers/input/misc/drv2624.c:82-85 | The 32-bit product wraps: 16843010 mV converts to 0, while 16843009 mV converts to 766958. |
| `Drv2624.Magnitude` | drivers/input/misc/drv2624.c:106-115 | strong>>8 if strong > 0, else weak>>8 if weak > 0, else 0, clamped to 0x7f. |
| `Drv2624.StrongTakesPriority` | drivers/input/misc/drv2624.c:107-110 | A non-zero strong magnitude decides the result whatever the weak one is, even when it scales to 0. |
| `Drv2624.MagnitudeMonotone` | drivers/input/misc/drv2624.c:106-115 | Scaling is monotone in the magnitude used. |
| `Drv2624.DriveTime` | drivers/input/misc/drv2624.c:239-243 | The low 7 bits are 5·(1000 − f)/f. Bit 7 is set exactly when f < 125. |
| `Drv2624.DriveTimeExceedsField` | drivers/input/misc/drv2624.c:239-247 | At or below 135 Hz the drive time needs more than the 5-bit field, so the update keeps only its low bits. |
| `Drv2624.PeriodSplit` | drivers/input/misc/drv2624.c:240-265 | Over 45–300 Hz the period is in [135, 902], so the 16-bit truncation never bites. High bits (≤ 3) times 256 plus the low byte rebuild it. |
| `Drv2624.Control1Contents` | drivers/input/misc/drv2624.c:198-201 | CONTROL1 gets the actuator bit equal to the mode, loop and auto-brake set, and bits 0–3 and 5 kept. |
| `Drv2624.ErmControl2ClearsLibrary` | drivers/input/misc/drv2624.c:209-211 | In ERM mode, writing 0x01 under mask 0x80 clears bit 7 and changes nothing else. |
| `Drv2624.ReadConfig` | drivers/input/misc/drv2624.c:322-361 | Probe accepts exactly when all properties read, mode ∈ {ERM, LRA}, and, in LRA, 45 ≤ f ≤ 300. A bad mode or frequency is −EINVAL and a failed read returns its error, in property order. Voltages are converted. |
| `Drv2624.Untouched` | drivers/input/misc/drv2624.c:189-288 | A register no access of a program writes keeps its value. |
| `Drv2624.ApplyAllConcat` | drivers/input/misc/drv2624.c:189-288 | Running two programs in a row is running their concatenation. |
| `Drv2624.InitOrder` | drivers/input/misc/drv2624.c:189-288 | The init program is MODE pin function, CONTROL1, (CONTROL2 in ERM), rated voltage, overdrive clamp, (DRIVE_TIME, PERIOD_H, PERIOD_L in LRA), MODE ← calibration, GO ← 1. |
| `Drv2624.InitWritesPeriod` | drivers/input/misc/drv2624.c:238-272 | After a complete LRA init, PERIOD_L holds period bits 0–7. PERIOD_H holds bits 8–9 under mask 0x03 and keeps its other bits. |
| `Drv2624.PollCount` | drivers/input/misc/drv2624.c:290-299 | The poll makes n reads: the last one ends it (an error or a non-busy value), and none before does. |
| `Drv2624.Haptics.constructor` | drivers/input/misc/drv2624.c:398-405 | A device with validated configuration, empty log and magnitude 0. |
| `Drv2624.Haptics.Play` | drivers/input/misc/drv2624.c:101-120 | Stores `Magnitude(strong, weak)` and returns 0. |
| `Drv2624.Haptics.RunProgram` | drivers/input/misc/drv2624.c:189-288 | Sends the accesses in order up to and including the first failing one. That one's error is returned, and registers hold the effect of the accesses before it. On success it returns 0 and applies the whole program. |
| `Drv2624.Haptics.PollGo` | drivers/input/misc/drv2624.c:290-299 | Reads GO exactly `PollCount` times. Returns the last read's error; 0 means GO no longer reads busy. |
| `Drv2624.Haptics.RunThenPoll` | drivers/input/misc/drv2624.c:274-299 | The program, then, only if every access went through, the GO poll. |
| `Drv2624.Haptics.Init` | drivers/input/misc/drv2624.c:182-302 | The init program stops at the first failing access and returns its error. Otherwise GO is polled while it reads 1, and the first read error is returned. |
| `Drv2624.Haptics.Open` | drivers/input/misc/drv2624.c:122-152 | MODE ← RTP, RTP_INPUT ← 0, GO ← 1, stopping at and returning the first error. |
| `Drv2624.Haptics.Close` | drivers/input/misc/drv2624.c:154-180 | As written: GO ← 0. If that fails nothing else happens. Otherwise GO is polled while it reads 0, until a read fails or returns non-zero. Its precondition, that the poll ends, fails on a stopped device (see Findings). |
| `Drv2624.StoppedDeviceNeverEndsClosePoll` | drivers/input/misc/drv2624.c:170-179 | When GO reads 0 without error from some point on, no number of reads ends a poll that waits while GO reads 0. |
| `Drv2624.StoppedDeviceEndsIntendedPoll` | drivers/input/misc/drv2624.c:290-299 | A poll that waits while GO reads 1 ends with its first read when GO reads 0. |
| `Drv2624.Haptics.CloseIntended` | drivers/input/misc/drv2624.c:154-180 | Corrected close: GO ← 0, then GO is polled while it reads 1. On a stopped device, whose GO reads 0, it makes exactly the write and one read. |
| `Sequencing.Performed` | drivers/gpu/drm/panel/panel-nt36675-tianma.c:49-127 | At most n steps run, and at least one when there are any. |
| `Sequencing.StopsAfterFirstFailure` | drivers/gpu/drm/panel/panel-nt36675-tianma.c:54-58 | When step i is the first to fail, exactly i + 1 steps run. |
| `Sequencing.RunsToCompletion` | drivers/gpu/drm/panel/panel-nt36675-tianma.c:49-129 | When no step fails, all run. |
| `Sequencing.RunsOnlyAfterPasses` | drivers/gpu/drm/panel/panel-nt36675-tianma.c:49-129 | A step runs only if every step before it succeeded. |
| `Sequencing.StoppedAtFailure` | drivers/gpu/drm/panel/panel-nt36675-tianma.c:49-129 | A sequence that stopped early stopped at a failing step. |
| `DsiPanel.DsiDevice.Run` | drivers/gpu/drm/panel/panel-nt36675-tianma.c:49-129 | Sends the commands up to and including the first failure, and returns that command's status. Returns 0 exactly when all succeed. |
| `DsiPanel.Panel.constructor` | drivers/gpu/drm/panel/panel-nt36675-tianma.c:247-292 | Not prepared, regulator off, reset held high. |
| `DsiPanel.Panel.Reset` | drivers/gpu/drm/panel/panel-nt36675-tianma.c:31-39 | The reset pulse leaves the line at 0. |
| `DsiPanel.Panel.On` | drivers/gpu/drm/panel/panel-nt36675-tianma.c:41-130 | Low-power mode set, then the on commands up to the first failure. Result 0 exactly when all pass, else the failing status. |
| `DsiPanel.Panel.Off` | drivers/gpu/drm/panel/panel-nt36675-tianma.c:132-157 | Low-power mode cleared, then the off commands up to the first failure. Result 0 exactly when all pass, else the failing status. |
| `DsiPanel.Panel.Prepare` | drivers/gpu/drm/panel/panel-nt36675-tianma.c:159-186 | Already prepared: 0 and nothing changes. Regulator failure: its error, nothing changes. Otherwise the on sequence: prepared exactly when it fully passes, and on failure reset back to 1 and the regulator disabled. The regulator is enabled exactly while prepared. |
| `DsiPanel.Panel.Unprepare` | drivers/gpu/drm/panel/panel-nt36675-tianma.c:188-206 | Not prepared: no-op returning 0. Otherwise the off sequence, whose failure is ignored, then reset 1, regulator disabled, not prepared, 0. |
| `DsiPanel.MakeMode` | drivers/gpu/drm/panel/panel-nt36675-tianma.c:208-220 | The timing fields are strictly ordered. clock = ⌊htotal·vtotal·60/1000⌋. The totals exceed the active sizes by the porches and sync. |
| `DsiPanel.GetModes` | drivers/gpu/drm/panel/panel-nt36675-tianma.c:222-239 | Returns 1 exactly when duplication succeeds, adding one copy of the mode and its physical size. Otherwise −ENOMEM with the connector untouched. |
| `Nt36675Tianma.NewPanel` | drivers/gpu/drm/panel/panel-nt36675-tianma.c:247-292 | A fresh unprepared panel carrying this driver's on and off sequences. |
| `Nt36675Tianma.ModeTiming` | drivers/gpu/drm/panel/panel-nt36675-tianma.c:208-220 | 1080 < 1100 < 1104 < 1126 and 2400 < 2410 < 2412 < 2442; clock 164981. |
| `Nt36675Tianma.OnCheckedStepsInOrder` | drivers/gpu/drm/panel/panel-nt36675-tianma.c:54-120 | Checked steps are tear-on, brightness 0x00b8, pixel format, exit sleep, display on, in that order. Display on (step 44) is sent only after all 43 before it succeed. |
| `Ft8756Huaxing.NewPanel` | drivers/gpu/drm/panel/panel-ft8756-huaxing.c:206-251 | A fresh unprepared panel carrying this driver's on and off sequences. |
| `Ft8756Huaxing.ModeTiming` | drivers/gpu/drm/panel/panel-ft8756-huaxing.c:167-179 | 1080 < 1100 < 1104 < 1124 and 2400 < 2408 < 2412 < 2444; clock 164823. |
| `Ft8756Huaxing.OnCheckedStepsInOrder` | drivers/gpu/drm/panel/panel-ft8756-huaxing.c:41-88 | Checked steps are brightness 0x00b8, exit sleep, display on. Display on is sent only after all 14 commands before it succeed. |
| `Ft8756Huaxing.OffOrder` | drivers/gpu/drm/panel/panel-ft8756-huaxing.c:98-115 | Display off, then enter sleep. The vendor writes go out exactly when both succeed; a failing first or second step ends the sequence there. |

`s_stream(0)` always writes `0x0100` ← 0 and drops a usage reference, even when the sensor is not streaming (`ov16a1q.c:853-857`); `SStream` does the same.

The sensor's invariant (`ControlsSound`) allows the exposure value to lie above the exposure maximum. That happens when a vertical blank change clamps the exposure and the nested exposure write fails: the framework then keeps the old value.

`Prepare`, `Unprepare`, `On` and `Off` are shared by both panels. The FT8756 versions are `panel-ft8756-huaxing.c:118-165` and `90-116`, and differ only in their command sequences.

## Left out

- Delays (`usleep_range`, `msleep`), logging, subdev state locking and the DRV2624 work item (`drv2624_worker`, `schedule_work`, `cancel_work_sync`): the model is sequential and timeless.
- Transport internals of I2C, regmap and MIPI-DSI: each is an oracle answering transfer k, plus a log of transfers.
- fwnode and endpoint parsing, media-entity and async registration, and the control handler's own allocation: each is an error value handed to `ParseOf`/`Probe`; the lane count is an input.
- The rest of `drv2624_probe` after validation (reset pulse, input device, regmap allocation) and both panel probes beyond the state they build; panel and sensor `remove` unwind only as stated.
- Register-table contents and DSI vendor payloads are data: proofs use only their length and order.
- `Drv2624.Haptics.Init`, `Drv2624.Haptics.Close`, `Drv2624.Haptics.CloseIntended`, `Drv2624.Haptics.PollGo`: the GO polling loops have no bound in the code. The model assumes the register stops reading busy within a ghost `fuel` number of reads, and does not cover a poll that never ends. For `Close` as written that excludes a stopped device, the case recorded under Findings.
- `Ov16a1q.Sensor.WriteReg`: a width of 0 is not rejected by the code, but it shifts the value by 32 bits, which is undefined in C. The model requires `len >= 1`. A zero-width read is well defined: it reads 0, and the model covers it.
- `Ov16a1q.Sensor.ReadReg`: on failure the model returns `val = 0`, where the C function leaves `*val` untouched. The only caller discards it on failure.
- `Ov16a1q.Sensor.Suspend`: autosuspend timing is not modelled. Suspending an unused device is a separate step the runtime PM core may take at any time.
- `Ov16a1q.Sensor.SetCtrl`: `pm_runtime_get_if_in_use` with runtime PM disabled (an error return) is not modelled. Its reference is taken and dropped within the call, so the usage count is untouched.
- `Ov16a1q.Sensor.SetFmt`: the `s_ctrl` that `__v4l2_ctrl_modify_range` issues when set_fmt's own range changes clamp the vertical or horizontal blank, and the pixel rate control's own `s_ctrl`, are not modelled. The pixel rate has no hardware effect in this driver. The nested exposure `s_ctrl` of the vertical blank change that follows is modelled, through `SetCtrl`.
- `Ov16a1q.Sensor.CtrlHandlerSetup`: `__v4l2_ctrl_handler_setup` is modelled as `s_ctrl` on the three writable controls in creation order; the read-only controls have no `s_ctrl` effect.
- `Ov16a1q.Sensor.Valid` does not say that the current mode belongs to the catalog, which would drag the whole mode table into every proof. `SetFmt` and `Probe` state which catalog mode they install.

## Findings

| source | as written | input that shows it | evidently intended | confidence | as-written member | corrected member |
|---|---|---|---|---|---|---|
| drivers/input/misc/drv2624.c:170-179 | after GO ← 0, `drv2624_close` polls `while (cal_buf == 0)` | a device that has stopped: every read of GO succeeds and returns 0, so the loop never exits | wait while GO still reads 1, as `drv2624_init` does at line 299 | medium, not executed | `Drv2624.StoppedDeviceNeverEndsClosePoll` (with `Drv2624.Haptics.Close`) | `Drv2624.Haptics.CloseIntended` (with `Drv2624.StoppedDeviceEndsIntendedPoll`) |
