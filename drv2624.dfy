/** The TI DRV2624 haptics driver (drivers/input/misc/drv2624.c): probe-time
    validation of the device properties, the register arithmetic, and the
    register programs of init, open and close over a regmap bus. */
module Drv2624 {
  import opened BigEndian
  import opened Errno
  import opened Sequencing

  // Actuator types (include/dt-bindings/input/ti-drv2624.h).
  const ERM_MODE: U32 := 0x00
  const LRA_MODE: U32 := 0x01

  // Register addresses.
  const MODE: Byte := 0x07
  const CONTROL1: Byte := 0x08
  const GO: Byte := 0x0c
  const CONTROL2: Byte := 0x0d
  const RTP_INPUT: Byte := 0x0e
  const RATED_VOLTAGE: Byte := 0x1f
  const OVERDRIVE_CLAMP: Byte := 0x20
  const DRIVE_TIME: Byte := 0x27
  const OPENLOOP_PERIOD_H: Byte := 0x2e
  const OPENLOOP_PERIOD_L: Byte := 0x2f

  // Fields of the MODE register.
  const PINFUNC_MASK: bv8 := 0x0c
  const PINFUNC_INT_SHIFTED: bv8 := 0x08
  const MODE_MASK: bv8 := 0x03
  const MODE_RTP: bv8 := 0x00
  const MODE_CALIBRATION: bv8 := 0x03
  // Fields of CONTROL1: actuator type (bit 7), loop (bit 6), auto-brake (bit 4).
  const CONTROL1_MASK: bv8 := 0xd0
  // Field of CONTROL2: the effect library (bit 7).
  const LIB_MASK: bv8 := 0x80
  // Fields of DRIVE_TIME: the drive time (bits 0-4) and the 45 Hz minimum-frequency select (bit 7).
  const DRIVE_TIME_MASK: bv8 := 0x9f
  // Field of OPENLOOP_PERIOD_H: bits 8-9 of the period.
  const PERIOD_H_MASK: bv8 := 0x03

  /** regmap_update_bits on one 8-bit register: the bits under `mask` take
      their value from `val`, the others keep theirs. */
  function UpdateBits(cur: bv8, mask: bv8, val: bv8): (r: bv8)
    ensures r & mask == val & mask
    ensures r & !mask == cur & !mask
  {
    (cur & !mask) | (val & mask)
  }

  /** drv2624_calculate_voltage: millivolts to the register scale, r = v * 255 / 5.6,
      with the product computed in 32-bit unsigned arithmetic. */
  function CalculateVoltage(mv: U32): (r: nat)
    ensures r <= 766958
    ensures mv <= 16843009 ==> r * 5600 <= mv * 255 < (r + 1) * 5600
  {
    ((mv * 255) % 0x1_0000_0000) / 5600
  }

  /** The voltage conversion wraps for inputs above 16843009 mV: 16843010 mV
      converts to 0. */
  lemma VoltageWraps()
    ensures CalculateVoltage(16843010) == 0
    ensures CalculateVoltage(16843009) == 766958
  {
  }

  /** drv2624_haptics_play's scaling of a rumble effect: the strong magnitude
      if it is non-zero, else the weak one, reduced to its high byte and
      clamped to 0x7f. */
  function Magnitude(strong: U16, weak: U16): (r: Byte)
    ensures r <= 0x7f
    ensures strong > 0 ==> r == if strong / 256 > 0x7f then 0x7f else strong / 256
    ensures strong == 0 && weak > 0 ==> r == if weak / 256 > 0x7f then 0x7f else weak / 256
    ensures strong == 0 && weak == 0 ==> r == 0
  {
    var m := if strong > 0 then strong / 256 else if weak > 0 then weak / 256 else 0;
    if m > 0x7f then 0x7f else m
  }

  /** A non-zero strong magnitude decides the result whatever the weak one is,
      even when it is too small to survive the scaling. */
  lemma StrongTakesPriority(strong: U16, weak1: U16, weak2: U16)
    requires strong > 0
    ensures Magnitude(strong, weak1) == Magnitude(strong, weak2)
    ensures strong < 256 ==> Magnitude(strong, weak1) == 0
  {
  }

  /** The scaling is monotone in the magnitude that is used. */
  lemma MagnitudeMonotone(a: U16, b: U16)
    requires 0 < a <= b
    ensures Magnitude(a, 0) <= Magnitude(b, 0)
    ensures Magnitude(0, a) <= Magnitude(0, b)
  {
  }

  /** a <= b scales to a * f <= b * f. */
  lemma MulLe(a: nat, b: nat, f: nat)
    requires a <= b
    ensures a * f <= b * f
    decreases b - a
  {
    if a < b {
      MulLe(a, b - 1, f);
      assert b * f == (b - 1) * f + f;
    }
  }

  /** The quotient the LRA drive time starts from, 5 * (1000 - f) / f. */
  function DriveTimeBase(f: U32): (q: nat)
    requires 45 <= f <= 300
    ensures q <= 106
  {
    var q := 5 * (1000 - f) / f;
    assert q <= 106 by {
      assert q * f <= 5 * (1000 - f);
      if q > 106 {
        MulLe(107, q, f);
      }
    }
    q
  }

  /** The LRA drive time: the base quotient with bit 7 (the 45 Hz minimum
      frequency select) or'ed in below 125 Hz. The base never reaches bit 7,
      so the or adds 0x80. */
  function DriveTime(f: U32): (r: Byte)
    requires 45 <= f <= 300
    ensures r % 128 == DriveTimeBase(f)
    ensures r / 128 == 1 <==> f < 125
  {
    DriveTimeBase(f) + (if f < 125 then 0x80 else 0)
  }

  /** At 135 Hz and below the computed drive time needs more than the five
      bits the DRIVE_TIME field has, so the update keeps only its low bits. */
  lemma DriveTimeExceedsField(f: U32)
    requires 45 <= f <= 135
    ensures DriveTimeBase(f) >= 32
  {
    var q := DriveTimeBase(f);
    assert 5 * (1000 - f) < (q + 1) * f;
    if q < 31 {
      MulLe(q + 1, 32, f);
    }
  }

  /** The open-loop period, 10^9 / (24619 * f), truncated to 16 bits. */
  function OpenLoopPeriod(f: U32): (p: U16)
    requires 45 <= f <= 300
  {
    (1000000000 / (24619 * f)) % 0x1_0000
  }

  /** Bits 8-9 of the period, (p & 0x0300) >> 8, destined for OPENLOOP_PERIOD_H. */
  function PeriodHigh(p: U16): (h: Byte)
    ensures h <= 3
  {
    (p / 256) % 4
  }

  /** Bits 0-7 of the period, p & 0x00ff, destined for OPENLOOP_PERIOD_L. */
  function PeriodLow(p: U16): (l: Byte)
  {
    p % 256
  }

  /** Over the accepted frequency range the period lies in [135, 902], so the
      16-bit truncation never bites and the two registers hold it exactly. */
  lemma PeriodSplit(f: U32)
    requires 45 <= f <= 300
    ensures 135 <= OpenLoopPeriod(f) <= 902
    ensures PeriodHigh(OpenLoopPeriod(f)) * 256 + PeriodLow(OpenLoopPeriod(f)) == OpenLoopPeriod(f)
  {
    var d := 24619 * f;
    var q := 1000000000 / d;
    assert 1107855 <= d <= 7385700;
    assert q * d <= 1000000000 < (q + 1) * d;
    if q > 902 {
      MulLe(903, q, d);
    }
    if q < 135 {
      MulLe(q + 1, 135, d);
    }
  }

  /** The CONTROL1 value init writes: the actuator type in bit 7, closed loop
      (bit 6) and auto-brake (bit 4). */
  function Control1Value(mode: U32): (v: bv8)
    requires mode <= LRA_MODE
  {
    ((mode as bv8) << 7) | 0x40 | 0x10
  }

  /** The CONTROL1 update sets the actuator bit to the mode and the loop and
      auto-brake bits to 1, and keeps bits 0-3 and 5. */
  lemma Control1Contents(cur: bv8, mode: U32)
    requires mode <= LRA_MODE
    ensures var r := UpdateBits(cur, CONTROL1_MASK, Control1Value(mode));
            && (r & 0x80) == (if mode == LRA_MODE then 0x80 else 0)
            && (r & 0x50) == 0x50
            && (r & 0x2f) == (cur & 0x2f)
  {
  }

  /** In ERM mode the CONTROL2 update writes 0x01 under mask 0x80: the value
      misses the mask, so the library bit is cleared and nothing is set. */
  lemma ErmControl2ClearsLibrary(cur: bv8)
    ensures UpdateBits(cur, LIB_MASK, 0x01) == cur & 0x7f
  {
  }

  /** Outcome of one device_property_read_u32. */
  datatype PropRead = Found(value: U32) | Missing(err: int)

  /** What probe keeps of the device properties. */
  datatype Config = Config(mode: U32, lraFrequency: U32, ratedVoltage: nat, overdriveVoltage: nat)

  ghost predicate ConfigValid(c: Config)
  {
    && c.mode <= LRA_MODE
    && (c.mode == LRA_MODE ==> 45 <= c.lraFrequency <= 300)
  }

  datatype ProbeResult = Probed(config: Config) | ProbeError(err: int)

  /** The validating part of drv2624_probe: properties are read in the order
      mode, lra-frequency (LRA only), vib-rated-mv, vib-overdrive-mv, and the
      first failed read or out-of-range value ends probe with its error. */
  function ReadConfig(mode: PropRead, lraFrequency: PropRead, ratedMv: PropRead, overdriveMv: PropRead): (r: ProbeResult)
    ensures r.Probed? ==> ConfigValid(r.config)
    ensures r.Probed? <==>
              && mode.Found? && mode.value <= LRA_MODE
              && (mode.value == LRA_MODE ==> lraFrequency.Found? && 45 <= lraFrequency.value <= 300)
              && ratedMv.Found? && overdriveMv.Found?
    ensures r.Probed? ==>
              && r.config.mode == mode.value
              && r.config.lraFrequency == (if mode.value == LRA_MODE then lraFrequency.value else 0)
              && r.config.ratedVoltage == CalculateVoltage(ratedMv.value)
              && r.config.overdriveVoltage == CalculateVoltage(overdriveMv.value)
    ensures mode.Missing? ==> r == ProbeError(mode.err)
    ensures mode.Found? && mode.value > LRA_MODE ==> r == ProbeError(-EINVAL)
    ensures mode.Found? && mode.value == LRA_MODE && lraFrequency.Missing? ==> r == ProbeError(lraFrequency.err)
    ensures (mode.Found? && mode.value == LRA_MODE && lraFrequency.Found?
             && (lraFrequency.value < 45 || lraFrequency.value > 300)) ==> r == ProbeError(-EINVAL)
    ensures var earlier := mode.Found? && mode.value <= LRA_MODE
                           && (mode.value == LRA_MODE ==> lraFrequency.Found? && 45 <= lraFrequency.value <= 300);
            && (earlier && ratedMv.Missing? ==> r == ProbeError(ratedMv.err))
            && (earlier && ratedMv.Found? && overdriveMv.Missing? ==> r == ProbeError(overdriveMv.err))
  {
    if mode.Missing? then ProbeError(mode.err)
    else if mode.value > LRA_MODE then ProbeError(-EINVAL)
    else if mode.value == LRA_MODE && lraFrequency.Missing? then ProbeError(lraFrequency.err)
    else if mode.value == LRA_MODE && (lraFrequency.value < 45 || lraFrequency.value > 300) then ProbeError(-EINVAL)
    else if ratedMv.Missing? then ProbeError(ratedMv.err)
    else if overdriveMv.Missing? then ProbeError(overdriveMv.err)
    else
      var f := if mode.value == LRA_MODE then lraFrequency.value else 0;
      Probed(Config(mode.value, f, CalculateVoltage(ratedMv.value), CalculateVoltage(overdriveMv.value)))
  }

  /** One regmap access. */
  datatype Access =
    | RegWrite(reg: Byte, value: int)
    | RegUpdate(reg: Byte, mask: bv8, val: bv8)
    | RegRead(reg: Byte)

  /** The register file after a successful access; regmap's 8-bit value
      format keeps the low byte of a written value. */
  function Apply(regs: seq<bv8>, a: Access): (r: seq<bv8>)
    requires |regs| == 256
    ensures |r| == 256
  {
    match a
    case RegWrite(reg, value) => regs[reg := (value % 256) as bv8]
    case RegUpdate(reg, mask, val) => regs[reg := UpdateBits(regs[reg], mask, val)]
    case RegRead(_) => regs
  }

  function ApplyAll(regs: seq<bv8>, prog: seq<Access>): (r: seq<bv8>)
    requires |regs| == 256
    ensures |r| == 256
  {
    if prog == [] then regs else Apply(ApplyAll(regs, prog[..|prog| - 1]), prog[|prog| - 1])
  }

  lemma ApplyStep(regs: seq<bv8>, prog: seq<Access>, i: nat)
    requires |regs| == 256 && i < |prog|
    ensures ApplyAll(regs, prog[..i + 1]) == Apply(ApplyAll(regs, prog[..i]), prog[i])
  {
    assert prog[..i + 1][..i] == prog[..i];
  }

  ghost predicate Touches(a: Access, reg: Byte)
  {
    !a.RegRead? && a.reg == reg
  }

  /** A register that no access of a program writes keeps its value. */
  lemma {:induction false} Untouched(regs: seq<bv8>, prog: seq<Access>, reg: Byte)
    requires |regs| == 256
    requires forall i :: 0 <= i < |prog| ==> !Touches(prog[i], reg)
    ensures ApplyAll(regs, prog)[reg] == regs[reg]
  {
    if prog != [] {
      Untouched(regs, prog[..|prog| - 1], reg);
    }
  }

  /** drv2624_init's register program before the calibration poll. */
  function InitProgram(c: Config): (prog: seq<Access>)
    requires ConfigValid(c)
  {
    var pinFunction := RegUpdate(MODE, PINFUNC_MASK, PINFUNC_INT_SHIFTED);
    var control1 := RegUpdate(CONTROL1, CONTROL1_MASK, Control1Value(c.mode));
    var rated := RegWrite(RATED_VOLTAGE, c.ratedVoltage);
    var overdrive := RegWrite(OVERDRIVE_CLAMP, c.overdriveVoltage);
    var calibrate := RegUpdate(MODE, MODE_MASK, MODE_CALIBRATION);
    var go := RegWrite(GO, 1);
    if c.mode == ERM_MODE then
      [pinFunction, control1, RegUpdate(CONTROL2, LIB_MASK, 0x01), rated, overdrive, calibrate, go]
    else
      [pinFunction, control1, rated, overdrive] + LraTiming(c.lraFrequency) + [calibrate, go]
  }

  /** The LRA timing accesses of drv2624_init: drive time, then the two
      halves of the open-loop period. */
  function LraTiming(f: U32): (prog: seq<Access>)
    requires 45 <= f <= 300
  {
    var p := OpenLoopPeriod(f);
    [RegUpdate(DRIVE_TIME, DRIVE_TIME_MASK, DriveTime(f) as bv8),
     RegUpdate(OPENLOOP_PERIOD_H, PERIOD_H_MASK, PeriodHigh(p) as bv8),
     RegWrite(OPENLOOP_PERIOD_L, PeriodLow(p))]
  }

  /** The init program's order: pin function, CONTROL1, CONTROL2 (ERM only),
      rated voltage, overdrive clamp, the three LRA timing registers (LRA only),
      calibration mode, GO. */
  lemma InitOrder(c: Config)
    requires ConfigValid(c)
    ensures var prog := InitProgram(c);
            var n := |prog|;
            && n == 7 + (if c.mode == LRA_MODE then 2 else 0)
            && prog[0] == RegUpdate(MODE, PINFUNC_MASK, PINFUNC_INT_SHIFTED)
            && prog[1] == RegUpdate(CONTROL1, CONTROL1_MASK, Control1Value(c.mode))
            && (c.mode == ERM_MODE ==>
                  prog[2] == RegUpdate(CONTROL2, LIB_MASK, 0x01)
                  && prog[3] == RegWrite(RATED_VOLTAGE, c.ratedVoltage)
                  && prog[4] == RegWrite(OVERDRIVE_CLAMP, c.overdriveVoltage))
            && (c.mode == LRA_MODE ==>
                  prog[2] == RegWrite(RATED_VOLTAGE, c.ratedVoltage)
                  && prog[3] == RegWrite(OVERDRIVE_CLAMP, c.overdriveVoltage)
                  && prog[4].reg == DRIVE_TIME && prog[5].reg == OPENLOOP_PERIOD_H
                  && prog[6].reg == OPENLOOP_PERIOD_L)
            && prog[n - 2] == RegUpdate(MODE, MODE_MASK, MODE_CALIBRATION)
            && prog[n - 1] == RegWrite(GO, 1)
  {
  }

  /** Running two programs one after the other. */
  lemma {:induction false} ApplyAllConcat(regs: seq<bv8>, s: seq<Access>, t: seq<Access>)
    requires |regs| == 256
    ensures ApplyAll(regs, s + t) == ApplyAll(ApplyAll(regs, s), t)
    decreases |t|
  {
    if t == [] {
      assert s + t == s;
    } else {
      var t' := t[..|t| - 1];
      assert (s + t)[..|s + t| - 1] == s + t';
      ApplyAllConcat(regs, s, t');
    }
  }

  /** In LRA mode a complete init program leaves bits 0-7 of the open-loop
      period in PERIOD_L, and bits 8-9 under PERIOD_H's two-bit mask, the rest
      of PERIOD_H keeping what it held. */
  lemma InitWritesPeriod(regs: seq<bv8>, c: Config)
    requires |regs| == 256 && ConfigValid(c) && c.mode == LRA_MODE
    ensures var after := ApplyAll(regs, InitProgram(c));
            var p := OpenLoopPeriod(c.lraFrequency);
            && after[OPENLOOP_PERIOD_L] == PeriodLow(p) as bv8
            && after[OPENLOOP_PERIOD_H] == UpdateBits(regs[OPENLOOP_PERIOD_H], PERIOD_H_MASK, PeriodHigh(p) as bv8)
  {
    var prog := InitProgram(c);
    var pre := prog[..4];
    var post := [RegUpdate(MODE, MODE_MASK, MODE_CALIBRATION), RegWrite(GO, 1)];
    assert prog == pre + LraTiming(c.lraFrequency) + post;
    PeriodAfter(regs, pre, c.lraFrequency, post);
  }

  /** The period registers after a program made of accesses that leave
      PERIOD_H alone, the LRA timing accesses, and calibrate-and-go. */
  lemma PeriodAfter(regs: seq<bv8>, pre: seq<Access>, f: U32, post: seq<Access>)
    requires |regs| == 256 && 45 <= f <= 300
    requires forall j :: 0 <= j < |pre| ==> !Touches(pre[j], OPENLOOP_PERIOD_H)
    requires post == [RegUpdate(MODE, MODE_MASK, MODE_CALIBRATION), RegWrite(GO, 1)]
    ensures var after := ApplyAll(regs, pre + LraTiming(f) + post);
            var p := OpenLoopPeriod(f);
            && after[OPENLOOP_PERIOD_L] == PeriodLow(p) as bv8
            && after[OPENLOOP_PERIOD_H] == UpdateBits(regs[OPENLOOP_PERIOD_H], PERIOD_H_MASK, PeriodHigh(p) as bv8)
  {
    var timing := LraTiming(f);
    ApplyAllConcat(regs, pre + timing, post);
    ApplyAllConcat(regs, pre, timing);
    Untouched(regs, pre, OPENLOOP_PERIOD_H);
    var mid := ApplyAll(regs, pre);
    TimingEffect(mid, f);
    Untouched(ApplyAll(mid, timing), post, OPENLOOP_PERIOD_H);
    Untouched(ApplyAll(mid, timing), post, OPENLOOP_PERIOD_L);
  }

  lemma TimingEffect(regs: seq<bv8>, f: U32)
    requires |regs| == 256 && 45 <= f <= 300
    ensures var after := ApplyAll(regs, LraTiming(f));
            var p := OpenLoopPeriod(f);
            && after[OPENLOOP_PERIOD_L] == PeriodLow(p) as bv8
            && after[OPENLOOP_PERIOD_H] == UpdateBits(regs[OPENLOOP_PERIOD_H], PERIOD_H_MASK, PeriodHigh(p) as bv8)
  {
    var t := LraTiming(f);
    assert t[..1] == [t[0]] && t[..2] == [t[0], t[1]];
    assert [t[0]][..0] == [] && [t[0], t[1]][..1] == [t[0]] && t[..|t| - 1] == t[..2];
    var r1 := Apply(regs, t[0]);
    assert ApplyAll(regs, [t[0]]) == r1;
    var r2 := Apply(r1, t[1]);
    assert ApplyAll(regs, [t[0], t[1]]) == r2;
  }

  /** The open program: real-time playback mode, zero amplitude, GO. */
  const OpenProgram: seq<Access> :=
    [RegUpdate(MODE, MODE_MASK, MODE_RTP), RegWrite(RTP_INPUT, 0), RegWrite(GO, 1)]

  /** One regmap reply: an error code (0 on success) and, for a read, the value. */
  datatype Reply = Reply(err: int, value: int)

  /** Whether the poll reading at bus position k + j ends the loop. */
  ghost predicate PollStops(bus: nat -> Reply, k: nat, busy: int, j: nat)
  {
    bus(k + j).err != 0 || bus(k + j).value != busy
  }

  /** The GO register, polled from bus position k while it reads `busy`,
      stops within `fuel` reads. */
  ghost predicate PollEndsWithin(bus: nat -> Reply, k: nat, busy: int, fuel: nat)
  {
    exists j :: 0 <= j < fuel && PollStops(bus, k, busy, j)
  }

  /** How many reads the poll makes. */
  ghost function PollCount(bus: nat -> Reply, k: nat, busy: int, fuel: nat): (n: nat)
    requires PollEndsWithin(bus, k, busy, fuel)
    ensures 0 < n <= fuel && PollStops(bus, k, busy, n - 1)
    ensures forall j :: 0 <= j < n - 1 ==> !PollStops(bus, k, busy, j)
    decreases fuel
  {
    if PollStops(bus, k, busy, 0) then 1
    else
      assert PollEndsWithin(bus, k + 1, busy, fuel - 1) by {
        var j :| 0 <= j < fuel && PollStops(bus, k, busy, j);
        assert PollStops(bus, k + 1, busy, j - 1);
      }
      var m := PollCount(bus, k + 1, busy, fuel - 1);
      assert forall j :: 1 <= j < m ==> !PollStops(bus, k, busy, j) by {
        forall j | 1 <= j < m ensures !PollStops(bus, k, busy, j) {
          assert !PollStops(bus, k + 1, busy, j - 1);
        }
      }
      1 + m
  }

  function GoReads(n: nat): (s: seq<Access>)
    ensures |s| == n && forall i :: 0 <= i < n ==> s[i] == RegRead(GO)
  {
    seq(n, _ => RegRead(GO))
  }

  /** The haptics device as the driver sees it: its configuration from probe,
      the amplitude play stores, and the regmap bus. `bus(k)` is the reply to
      the k-th access; `regs` is the register file the accesses act on. */
  class Haptics {
    const bus: nat -> Reply
    const config: Config
    var log: seq<Access>
    var regs: seq<bv8>
    /** haptics->magnitude */
    var magnitude: Byte

    ghost predicate Valid()
      reads this
    {
      |regs| == 256 && ConfigValid(config)
    }

    ghost function Failed(): nat -> bool
    {
      (j: nat) => bus(j).err != 0
    }

    constructor (bus: nat -> Reply, config: Config, regs: seq<bv8>)
      requires |regs| == 256 && ConfigValid(config)
      ensures Valid() && this.bus == bus && this.config == config && this.regs == regs
      ensures log == [] && magnitude == 0
    {
      this.bus := bus;
      this.config := config;
      this.regs := regs;
      log := [];
      magnitude := 0;
    }

    /** drv2624_haptics_play: stores the scaled magnitude and returns 0 (the
        register write happens later, from the work item). */
    method Play(strong: U16, weak: U16) returns (ret: int)
      modifies this`magnitude
      ensures ret == 0 && magnitude == Magnitude(strong, weak)
    {
      magnitude := Magnitude(strong, weak);
      return 0;
    }

    /** Runs the accesses of `prog` in order and stops at the first one that
        fails, returning its error; a failed access leaves the registers alone. */
    method RunProgram(prog: seq<Access>) returns (err: int)
      requires Valid()
      modifies this`log, this`regs
      ensures Valid()
      ensures var p := Performed(Failed(), old(|log|), |prog|);
              && log == old(log) + prog[..p]
              && (err == 0 <==> AllPass(Failed(), old(|log|), |prog|))
              && (err == 0 ==> regs == ApplyAll(old(regs), prog))
              && (err != 0 ==> err == bus(|log| - 1).err && regs == ApplyAll(old(regs), prog[..p - 1]))
    {
      ghost var k := |log|;
      ghost var regs0 := regs;
      var i := 0;
      while i < |prog|
        invariant 0 <= i <= |prog| && |regs| == 256
        invariant log == old(log) + prog[..i]
        invariant AllPass(Failed(), k, i)
        invariant regs == ApplyAll(regs0, prog[..i])
      {
        var reply := bus(|log|);
        log := log + [prog[i]];
        assert prog[..i] + [prog[i]] == prog[..i + 1];
        if reply.err != 0 {
          StopsAfterFirstFailure(Failed(), k, |prog|, i);
          return reply.err;
        }
        ApplyStep(regs0, prog, i);
        regs := Apply(regs, prog[i]);
        i := i + 1;
      }
      RunsToCompletion(Failed(), k, |prog|);
      assert prog[..i] == prog;
      return 0;
    }

    /** Reads GO until it reads something other than `busy` or a read fails;
        returns the failing read's error, or 0. */
    method PollGo(busy: int, ghost fuel: nat) returns (err: int)
      requires PollEndsWithin(bus, |log|, busy, fuel)
      modifies this`log
      ensures var n := PollCount(bus, old(|log|), busy, fuel);
              && log == old(log) + GoReads(n)
              && err == bus(|log| - 1).err
              && (err == 0 ==> bus(|log| - 1).value != busy)
    {
      ghost var k := |log|;
      ghost var n := PollCount(bus, k, busy, fuel);
      var i := 0;
      while true
        invariant 0 <= i < n
        invariant log == old(log) + GoReads(i)
        decreases n - i
      {
        var reply := bus(|log|);
        assert reply == bus(k + i);
        log := log + [RegRead(GO)];
        assert GoReads(i) + [RegRead(GO)] == GoReads(i + 1);
        if reply.err != 0 || reply.value != busy {
          assert PollStops(bus, k, busy, i);
          assert i == n - 1;
          return reply.err;
        }
        assert !PollStops(bus, k, busy, i);
        i := i + 1;
      }
    }

    /** Runs `prog` until its first failing access; once it has gone
        through, polls GO while it reads `busy`. */
    method RunThenPoll(prog: seq<Access>, busy: int, ghost fuel: nat) returns (err: int)
      requires Valid()
      requires AllPass(Failed(), |log|, |prog|) ==> PollEndsWithin(bus, |log| + |prog|, busy, fuel)
      modifies this`log, this`regs
      ensures Valid()
      ensures var p := Performed(Failed(), old(|log|), |prog|);
              if AllPass(Failed(), old(|log|), |prog|) then
                && regs == ApplyAll(old(regs), prog)
                && log == old(log) + prog + GoReads(PollCount(bus, old(|log|) + |prog|, busy, fuel))
                && err == bus(|log| - 1).err
                && (err == 0 ==> bus(|log| - 1).value != busy)
              else
                && log == old(log) + prog[..p]
                && regs == ApplyAll(old(regs), prog[..p - 1])
                && err != 0 && err == bus(|log| - 1).err
    {
      ghost var log0 := log;
      err := RunProgram(prog);
      if err != 0 {
        return err;
      }
      RunsToCompletion(Failed(), |log0|, |prog|);
      assert prog[..|prog|] == prog;
      assert log == log0 + prog;
      err := PollGo(busy, fuel);
    }

    /** drv2624_init: the init program, stopped by the first failing access;
        once it has gone through, GO is polled until calibration leaves it
        other than 1. Polling assumes the register stops reading 1 within
        `fuel` reads. */
    method Init(ghost fuel: nat) returns (err: int)
      requires Valid()
      requires AllPass(Failed(), |log|, |InitProgram(config)|) ==>
                 PollEndsWithin(bus, |log| + |InitProgram(config)|, 1, fuel)
      modifies this`log, this`regs
      ensures Valid()
      ensures var prog := InitProgram(config);
              var p := Performed(Failed(), old(|log|), |prog|);
              if AllPass(Failed(), old(|log|), |prog|) then
                && regs == ApplyAll(old(regs), prog)
                && log == old(log) + prog + GoReads(PollCount(bus, old(|log|) + |prog|, 1, fuel))
                && err == bus(|log| - 1).err
                && (err == 0 ==> bus(|log| - 1).value != 1)
              else
                && log == old(log) + prog[..p]
                && regs == ApplyAll(old(regs), prog[..p - 1])
                && err != 0 && err == bus(|log| - 1).err
    {
      err := RunThenPoll(InitProgram(config), 1, fuel);
    }

    /** drv2624_open: real-time playback mode, zero amplitude, GO; the first
        failing access returns its error. */
    method Open() returns (err: int)
      requires Valid()
      modifies this`log, this`regs
      ensures Valid()
      ensures var p := Performed(Failed(), old(|log|), |OpenProgram|);
              && log == old(log) + OpenProgram[..p]
              && (err == 0 <==> AllPass(Failed(), old(|log|), |OpenProgram|))
              && (err == 0 ==> regs == ApplyAll(old(regs), OpenProgram))
              && (err != 0 ==> err == bus(|log| - 1).err)
    {
      err := RunProgram(OpenProgram);
    }

    /** drv2624_close: GO <- 0, then GO is polled until it reads non-zero; a
        failing write or read ends it (the error is only logged). */
    method Close(ghost fuel: nat)
      requires Valid()
      requires bus(|log|).err == 0 ==> PollEndsWithin(bus, |log| + 1, 0, fuel)
      modifies this`log, this`regs
      ensures Valid()
      ensures bus(old(|log|)).err != 0 ==> log == old(log) + [RegWrite(GO, 0)] && regs == old(regs)
      ensures bus(old(|log|)).err == 0 ==>
                && log == old(log) + [RegWrite(GO, 0)] + GoReads(PollCount(bus, old(|log|) + 1, 0, fuel))
                && regs == Apply(old(regs), RegWrite(GO, 0))
    {
      var reply := bus(|log|);
      log := log + [RegWrite(GO, 0)];
      if reply.err != 0 {
        return;
      }
      regs := Apply(regs, RegWrite(GO, 0));
      var _ := PollGo(0, fuel);
    }

    /** drv2624_close as its loop is evidently meant, the way drv2624_init
        waits for calibration: GO <- 0, then GO is polled while it still reads
        1. A device that has stopped, whose GO reads 0, ends the poll with
        its first read. */
    method CloseIntended(ghost fuel: nat)
      requires Valid()
      requires bus(|log|).err == 0 ==> PollEndsWithin(bus, |log| + 1, 1, fuel)
      modifies this`log, this`regs
      ensures Valid()
      ensures bus(old(|log|)).err != 0 ==> log == old(log) + [RegWrite(GO, 0)] && regs == old(regs)
      ensures bus(old(|log|)).err == 0 ==>
                && log == old(log) + [RegWrite(GO, 0)] + GoReads(PollCount(bus, old(|log|) + 1, 1, fuel))
                && regs == Apply(old(regs), RegWrite(GO, 0))
      ensures bus(old(|log|)).err == 0 && bus(old(|log|) + 1) == Reply(0, 0) ==>
                log == old(log) + [RegWrite(GO, 0), RegRead(GO)]
    {
      var reply := bus(|log|);
      log := log + [RegWrite(GO, 0)];
      if reply.err != 0 {
        return;
      }
      regs := Apply(regs, RegWrite(GO, 0));
      ghost var before := log;
      ghost var stopped := bus(|log|) == Reply(0, 0);
      if stopped {
        StoppedDeviceEndsIntendedPoll(bus, |log|, fuel);
      }
      var _ := PollGo(1, fuel);
      if stopped {
        assert GoReads(1) == [RegRead(GO)];
        assert before + [RegRead(GO)] == old(log) + [RegWrite(GO, 0), RegRead(GO)];
      }
    }
  }

  /** drv2624_close as written polls while GO reads 0. On a device that has
      stopped, GO reads 0 without error on every read, and no number of reads
      ends that poll: Close's precondition cannot be met and the function
      spins. */
  lemma StoppedDeviceNeverEndsClosePoll(bus: nat -> Reply, k: nat, fuel: nat)
    requires forall j :: k <= j ==> bus(j) == Reply(0, 0)
    ensures !PollEndsWithin(bus, k, 0, fuel)
  {
    forall j | 0 <= j < fuel
      ensures !PollStops(bus, k, 0, j)
    {
      assert bus(k + j) == Reply(0, 0);
    }
  }

  /** Polling while GO reads 1, a stopped device, whose GO reads 0, ends the
      poll with the first read, whatever the fuel. */
  lemma StoppedDeviceEndsIntendedPoll(bus: nat -> Reply, k: nat, fuel: nat)
    requires bus(k) == Reply(0, 0)
    ensures fuel >= 1 ==> PollEndsWithin(bus, k, 1, fuel) && PollCount(bus, k, 1, fuel) == 1
    ensures PollEndsWithin(bus, k, 1, fuel) ==> PollCount(bus, k, 1, fuel) == 1
  {
    assert PollStops(bus, k, 1, 0);
  }
}
