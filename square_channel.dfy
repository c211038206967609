/**
 * `SquareChannel`: one of the two pulse channels of the sound unit. Writes to
 * its four registers (0x4000-0x4003 for the first channel, 0x4004-0x4007 for
 * the second) decode bit fields into the channel's fields, and every write ends
 * with one `process` step, which sets the output sample and counts the pulse
 * timer down.
 */
module Square {
  import opened Bytes

  /** `volume`, a constant 120 in the source. */
  const Volume := 120

  /** `DUTY_LOOKUP`: one row of eight steps per duty mode. */
  const DutyLookup: seq<int> := [
    0, 1, 0, 0, 0, 0, 0, 0,
    0, 1, 1, 0, 0, 0, 0, 0,
    0, 1, 1, 1, 1, 0, 0, 0,
    1, 0, 0, 1, 1, 1, 1, 1]

  /** The fields of a square channel that its methods read or write. */
  datatype Channel = Channel(
    dutyMode: int, lengthCounterEnable: bool, envDisable: bool, envDecayRate: int,
    sweepEnable: bool, sweepCounter: int, sweepMode: int, sweepShiftCount: int,
    pulseTimer: int, lengthCounter: int, sample: int)

  /** The channel as constructed: every field at Java's default value. */
  const Initial := Channel(0, false, false, 0, false, 0, 0, 0, 0, 0, 0)

  /**
   * The ranges the fields stay in: each decoded field fits its bit width, the
   * timer never drops below -1, and the sample is silence or full volume.
   */
  predicate Wf(c: Channel)
  {
    && 0 <= c.dutyMode < 4
    && 0 <= c.envDecayRate < 16
    && 0 <= c.sweepCounter < 8
    && (c.sweepMode == 0 || c.sweepMode == 1)
    && 0 <= c.sweepShiftCount < 8
    && c.pulseTimer >= -1
    && 0 <= c.lengthCounter < 32
    && (c.sample == 0 || c.sample == Volume)
  }

  /** Java's arithmetic `x >> n` on an `int`: the shift count is taken mod 32 and the result rounds down. */
  function Shr(x: int, n: int): int
  {
    x / Pow2(n % 32)
  }

  /** Whether a register address belongs to one of the two square channels. */
  predicate IsControl(address: int) { address == 0x4000 || address == 0x4004 }
  predicate IsSweep(address: int) { address == 0x4001 || address == 0x4005 }
  predicate IsTimerLow(address: int) { address == 0x4002 || address == 0x4006 }
  predicate IsTimerHigh(address: int) { address == 0x4003 || address == 0x4007 }

  /**
   * The register decode of `write`, before `process` runs. The timer updates are
   * `(timer & 0x7000) | v` and `(timer & 0xFF) | ((v & 7) << 8)`; since the two
   * operands of each `|` have no bit in common, `|` is a sum here.
   */
  function Latch(c: Channel, address: int, v: Byte): Channel
  {
    if IsControl(address) then
      c.(dutyMode := (v / 0x40) % 4, lengthCounterEnable := (v / 0x20) % 2 == 0,
         envDisable := (v / 0x10) % 2 == 1, envDecayRate := v % 0x10)
    else if IsSweep(address) then
      c.(sweepEnable := v / 0x80 == 1, sweepCounter := (v / 0x10) % 8,
         sweepMode := (v / 8) % 2, sweepShiftCount := v % 8)
    else if IsTimerLow(address) then
      c.(pulseTimer := (c.pulseTimer / 0x1000) % 8 * 0x1000 + v)
    else if IsTimerHigh(address) then
      c.(pulseTimer := c.pulseTimer % 0x100 + v % 8 * 0x100, lengthCounter := (v / 8) % 0x20)
    else c
  }

  /** Whether `process` lets the channel sound: length left, timer above 7, and no sweep overflow. */
  predicate Audible(c: Channel)
  {
    c.lengthCounter > 0 && c.pulseTimer > 7
    && !(c.sweepMode == 0 && c.pulseTimer + Shr(c.pulseTimer, c.sweepShiftCount) > 4095)
  }

  /** `process`: set the sample, then count the timer down. */
  function Processed(c: Channel): Channel
    requires 0 <= c.dutyMode < 4
  {
    var sample := if Audible(c) then Volume * DutyLookup[c.dutyMode * 8] else 0;
    c.(sample := sample, pulseTimer := c.pulseTimer - Shr(c.pulseTimer, c.sweepShiftCount) - 1)
  }

  /** `write`: every register write ends with one `process` step. */
  function Written(c: Channel, address: int, v: Byte): Channel
    requires Wf(c)
  {
    LatchKeepsWf(c, address, v);
    Processed(Latch(c, address, v))
  }

  /** `clockLengthCounter`: count down an enabled, running length counter; run `process` when it reaches 0. */
  function Clocked(c: Channel): Channel
    requires Wf(c)
  {
    if c.lengthCounterEnable && c.lengthCounter > 0 then
      var c1 := c.(lengthCounter := c.lengthCounter - 1);
      if c1.lengthCounter == 0 then Processed(c1) else c1
    else c
  }

  // ---------------------------------------------------------------- properties

  lemma LatchKeepsWf(c: Channel, address: int, v: Byte)
    requires Wf(c)
    ensures Wf(Latch(c, address, v))
  {
  }

  /** The byte a program writes to 0x4000/0x4004 to select these settings. */
  function ControlByte(duty: int, halt: bool, envDisable: bool, rate: int): Byte
    requires 0 <= duty < 4 && 0 <= rate < 16
  {
    duty * 0x40 + (if halt then 0x20 else 0) + (if envDisable then 0x10 else 0) + rate
  }

  /**
   * The control register reads duty from bits 7-6, the length-counter halt
   * from bit 5 (the counter runs while it is clear), the envelope disable
   * from bit 4 and the decay rate from bits 3-0; nothing else is latched.
   */
  lemma ControlDecode(c: Channel, address: int, duty: int, halt: bool, envDisable: bool, rate: int)
    requires IsControl(address)
    requires 0 <= duty < 4 && 0 <= rate < 16
    ensures Latch(c, address, ControlByte(duty, halt, envDisable, rate)) ==
      c.(dutyMode := duty, lengthCounterEnable := !halt, envDisable := envDisable, envDecayRate := rate)
  {
  }

  /** The byte a program writes to 0x4001/0x4005 to select these sweep settings. */
  function SweepByte(enable: bool, counter: int, mode: int, shift: int): Byte
    requires 0 <= counter < 8 && 0 <= mode < 2 && 0 <= shift < 8
  {
    (if enable then 0x80 else 0) + counter * 0x10 + mode * 8 + shift
  }

  /** The sweep register reads enable from bit 7, the counter from bits 6-4, the mode from bit 3 and the shift from bits 2-0. */
  lemma SweepDecode(c: Channel, address: int, enable: bool, counter: int, mode: int, shift: int)
    requires IsSweep(address)
    requires 0 <= counter < 8 && 0 <= mode < 2 && 0 <= shift < 8
    ensures Latch(c, address, SweepByte(enable, counter, mode, shift)) ==
      c.(sweepEnable := enable, sweepCounter := counter, sweepMode := mode, sweepShiftCount := shift)
  {
  }

  /**
   * 0x4002/0x4006 replaces the timer's low byte with `v` and keeps bits 12-14;
   * 0x4003/0x4007 keeps the low byte, puts `v & 7` in bits 8-10 and loads the
   * length counter from bits 7-3. Either way the timer is a 15-bit value.
   */
  lemma TimerLatches(c: Channel, address: int, v: Byte)
    requires Wf(c)
    requires IsTimerLow(address) || IsTimerHigh(address)
    ensures 0 <= Latch(c, address, v).pulseTimer < 0x8000
    ensures IsTimerLow(address) ==>
      && Latch(c, address, v).pulseTimer % 0x100 == v
      && Latch(c, address, v).pulseTimer / 0x1000 == (c.pulseTimer / 0x1000) % 8
      && Latch(c, address, v).lengthCounter == c.lengthCounter
    ensures IsTimerHigh(address) ==>
      && Latch(c, address, v).pulseTimer % 0x100 == c.pulseTimer % 0x100
      && Latch(c, address, v).pulseTimer / 0x100 == v % 8
      && Latch(c, address, v).lengthCounter * 8 + v % 8 == v
  {
  }

  /** The shift counts the sweep register can hold select divisors 1 to 128. */
  lemma SmallPowers()
    ensures Pow2(0) == 1 && Pow2(1) == 2 && Pow2(2) == 4 && Pow2(3) == 8
    ensures Pow2(4) == 16 && Pow2(5) == 32 && Pow2(6) == 64 && Pow2(7) == 128
  {
    assert Pow2(1) == 2;
    assert Pow2(2) == 4;
    assert Pow2(3) == 8;
    assert Pow2(4) == 16;
    assert Pow2(5) == 32;
    assert Pow2(6) == 64;
  }

  /** `x >> n` of a non-negative value lies between 0 and the value, and -1 stays -1. */
  lemma ShrBounds(x: int, n: int)
    requires x >= -1 && 0 <= n < 8
    ensures x >= 0 ==> 0 <= Shr(x, n) <= x
    ensures x == -1 ==> Shr(x, n) == -1
  {
    SmallPowers();
    assert n % 32 == n;
    if n == 0 {
    } else if n == 1 {
    } else if n == 2 {
    } else if n == 3 {
    } else if n == 4 {
    } else if n == 5 {
    } else if n == 6 {
    } else {
    }
  }

  /**
   * `process` outputs full volume exactly when the channel is audible with
   * duty mode 3 (the only row whose first step is high), and silence
   * otherwise. A running timer counts down by at least one per step and never
   * below -1, where it then stays.
   */
  lemma ProcessStep(c: Channel)
    requires Wf(c)
    ensures Wf(Processed(c))
    ensures Processed(c).sample == (if Audible(c) && c.dutyMode == 3 then Volume else 0)
    ensures c.pulseTimer >= 0 ==> -1 <= Processed(c).pulseTimer < c.pulseTimer
    ensures c.pulseTimer == -1 ==> Processed(c).pulseTimer == -1
    ensures Processed(c) == c.(sample := Processed(c).sample, pulseTimer := Processed(c).pulseTimer)
  {
    ShrBounds(c.pulseTimer, c.sweepShiftCount);
  }

  /** A write keeps the ranges of every field. */
  lemma WriteKeepsWf(c: Channel, address: int, v: Byte)
    requires Wf(c)
    ensures Wf(Written(c, address, v))
  {
    LatchKeepsWf(c, address, v);
    ProcessStep(Latch(c, address, v));
  }

  /**
   * The length counter never goes below 0: it counts down by one only while
   * enabled and positive, and `process` runs exactly when it reaches 0.
   */
  lemma ClockLengthCounterStep(c: Channel)
    requires Wf(c)
    ensures Wf(Clocked(c))
    ensures Clocked(c).lengthCounter ==
      if c.lengthCounterEnable && c.lengthCounter > 0 then c.lengthCounter - 1 else c.lengthCounter
    ensures !(c.lengthCounterEnable && c.lengthCounter == 1) ==>
      Clocked(c) == c.(lengthCounter := Clocked(c).lengthCounter)
  {
    if c.lengthCounterEnable && c.lengthCounter == 1 {
      ProcessStep(c.(lengthCounter := 0));
    }
  }

  /** Once the length counter has run out, the channel is silent. */
  lemma SilentWhenLengthZero(c: Channel)
    requires Wf(c) && c.lengthCounter == 0
    ensures Processed(c).sample == 0
  {
  }

  class SquareChannel {
    var dutyMode: int
    var lengthCounterEnable: bool
    var envDisable: bool
    var envDecayRate: int
    var sweepEnable: bool
    var sweepCounter: int
    var sweepMode: int
    var sweepShiftCount: int
    var pulseTimer: int
    var lengthCounter: int
    var sample: int

    ghost function State(): Channel
      reads this
    {
      Channel(dutyMode, lengthCounterEnable, envDisable, envDecayRate,
              sweepEnable, sweepCounter, sweepMode, sweepShiftCount,
              pulseTimer, lengthCounter, sample)
    }

    ghost predicate Valid()
      reads this
    {
      Wf(State())
    }

    constructor ()
      ensures Valid() && State() == Initial
    {
      dutyMode, lengthCounterEnable, envDisable, envDecayRate := 0, false, false, 0;
      sweepEnable, sweepCounter, sweepMode, sweepShiftCount := false, 0, 0, 0;
      pulseTimer, lengthCounter, sample := 0, 0, 0;
    }

    /** `write`: decode the register, then `process`. */
    method Write(address: int, value: Byte)
      requires Valid()
      modifies this
      ensures Valid()
      ensures State() == Written(old(State()), address, value)
    {
      if address == 0x4000 || address == 0x4004 {
        dutyMode := (value / 0x40) % 4;
        lengthCounterEnable := (value / 0x20) % 2 == 0;
        envDisable := (value / 0x10) % 2 == 1;
        envDecayRate := value % 0x10;
      } else if address == 0x4001 || address == 0x4005 {
        sweepEnable := value / 0x80 == 1;
        sweepCounter := (value / 0x10) % 8;
        sweepMode := (value / 8) % 2;
        sweepShiftCount := value % 8;
      } else if address == 0x4002 || address == 0x4006 {
        pulseTimer := (pulseTimer / 0x1000) % 8 * 0x1000;
        pulseTimer := pulseTimer + value;
      } else if address == 0x4003 || address == 0x4007 {
        pulseTimer := pulseTimer % 0x100;
        pulseTimer := pulseTimer + value % 8 * 0x100;
        lengthCounter := (value / 8) % 0x20;
      }
      assert State() == Latch(old(State()), address, value);
      LatchKeepsWf(old(State()), address, value);
      Process();
      WriteKeepsWf(old(State()), address, value);
    }

    /** `clockLengthCounter` */
    method ClockLengthCounter()
      requires Valid()
      modifies this
      ensures Valid()
      ensures State() == Clocked(old(State()))
    {
      ClockLengthCounterStep(State());
      if lengthCounterEnable && lengthCounter > 0 {
        lengthCounter := lengthCounter - 1;
        if lengthCounter == 0 {
          Process();
        }
      }
    }

    /** `process` */
    method Process()
      requires Valid()
      modifies this
      ensures Valid()
      ensures State() == Processed(old(State()))
    {
      ProcessStep(State());
      if lengthCounter > 0 && pulseTimer > 7 {
        if sweepMode == 0 && pulseTimer + Shr(pulseTimer, sweepShiftCount) > 4095 {
          sample := 0;
        } else {
          sample := Volume * DutyLookup[dutyMode * 8];
        }
      } else {
        sample := 0;
      }
      pulseTimer := pulseTimer - Shr(pulseTimer, sweepShiftCount) - 1;
    }
  }
}
