/** `mpu6000_init`: reads the product code, negotiates the clock source in a
    bounded retry loop, verifies the clock once more, then programs sample
    rate, low-pass filter, gyro range, accelerometer range and interrupts
    in that order. Failures of the sample-rate, filter and gyro-range writes
    abort the sequence; the results of the accelerometer and interrupt
    writes are ignored. Delays and console output have no effect here. */
module Startup {
  import opened Bytes
  import opened SpiBus
  import opened Registers
  import opened Config

  const H_RESET: u8 := 0x80
  const CLK_SEL_PLLGYROZ: u8 := 0x03
  const I2C_IF_DIS: u8 := 0x10
  const FS_2000DPS: u8 := 0x18
  const RAW_RDY_EN: u8 := 0x01
  const INT_ANYRD_2CLEAR: u8 := 0x10

  /** The initial value of the 8-bit retry counter, decremented before
      each test, so the loop body runs at most four times. */
  const CLOCK_TRIES: u8 := 5

  const INIT_RATE: u32 := 1000
  const INIT_FILTER: u16 := 256
  const INIT_ACCEL_G: u32 := 8

  /** Gyro scale for the 2000 deg/s range, (pi/180) / 16.4 LSB per deg/s. */
  const GYRO_SCALE: real := 0.0174532 / 16.4
  const GYRO_RANGE_RAD_S: real := (2000.0 / 180.0) * PI

  // ---------------------------------------------------------------- clock negotiation

  /** The transactions of one clock-negotiation attempt: reset, checked
      clock selection, checked I2C disable, clock read-back. */
  const ATTEMPT_TXNS: seq<Txn> :=
    [WriteTxn([PWR_MGMT_1, H_RESET])]
    + CheckedTxns(PWR_MGMT_1, CLK_SEL_PLLGYROZ)
    + CheckedTxns(USER_CTRL, I2C_IF_DIS)
    + [ReadTxn(ReadCommand(PWR_MGMT_1), 1)]

  /** Whether read reply `j` reports success and the PLL-gyro-Z clock. */
  predicate ClockReported(s: Script, j: nat)
  {
    var rep := ReplyAt(s, j);
    rep.ok && FirstByte(rep) == CLK_SEL_PLLGYROZ
  }

  /** The number of clock-negotiation attempts the loop makes when the
      replies of its first attempt start at `j` and at most `limit` attempts
      remain. Each attempt consumes three read replies, the third being the
      clock read-back that ends the loop when it reports the clock. */
  function ClockAttempts(s: Script, j: nat, limit: nat): (n: nat)
    ensures n <= limit
    ensures limit > 0 ==> n >= 1
    decreases limit
  {
    if limit == 0 then 0
    else if ClockReported(s, j + 2) then 1
    else 1 + ClockAttempts(s, j + 3, limit - 1)
  }

  /** No attempt before the last one the loop makes reads the clock back. */
  lemma {:induction false} ClockAttemptsMissBeforeLast(s: Script, j: nat, limit: nat)
    ensures forall k :: 0 <= k < ClockAttempts(s, j, limit) - 1 ==> !ClockReported(s, j + 3 * k + 2)
    decreases limit
  {
    if limit > 0 && !ClockReported(s, j + 2) {
      ClockAttemptsMissBeforeLast(s, j + 3, limit - 1);
      forall k | 0 <= k < ClockAttempts(s, j, limit) - 1
        ensures !ClockReported(s, j + 3 * k + 2)
      {
        if k > 0 {
          assert j + 3 * k + 2 == (j + 3) + 3 * (k - 1) + 2;
        }
      }
    }
  }

  /** A loop that stops before its limit stops because its last attempt
      read the clock back. */
  lemma {:induction false} ClockAttemptsStopOnReport(s: Script, j: nat, limit: nat)
    ensures var n := ClockAttempts(s, j, limit);
      n < limit ==> ClockReported(s, j + 3 * (n - 1) + 2)
    decreases limit
  {
    if limit > 0 && !ClockReported(s, j + 2) {
      ClockAttemptsStopOnReport(s, j + 3, limit - 1);
      var n := ClockAttempts(s, j, limit);
      if n < limit {
        assert j + 3 * (n - 1) + 2 == (j + 3) + 3 * (n - 2) + 2;
      }
    }
  }

  /** When no read-back within the limit reports the clock, the loop runs
      out its limit. */
  lemma {:induction false} ClockAttemptsExhausted(s: Script, j: nat, limit: nat)
    requires forall k :: 0 <= k < limit ==> !ClockReported(s, j + 3 * k + 2)
    ensures ClockAttempts(s, j, limit) == limit
    decreases limit
  {
    if limit > 0 {
      assert !ClockReported(s, j + 3 * 0 + 2);
      forall k | 0 <= k < limit - 1
        ensures !ClockReported(s, (j + 3) + 3 * k + 2)
      {
        assert (j + 3) + 3 * k + 2 == j + 3 * (k + 1) + 2;
      }
      ClockAttemptsExhausted(s, j + 3, limit - 1);
    }
  }

  /** One pass of the loop body: reset, checked clock selection, checked
      I2C disable and the clock read-back, in that order. The results of the
      three writes are ignored; only the read-back decides whether the
      clock is locked. */
  method ClockAttempt(b: Bus) returns (locked: bool, bus: Bus)
    ensures Consumed(b, bus, 3, 3)
    ensures bus.trace == b.trace + ATTEMPT_TXNS
    ensures locked <==> ClockReported(b.script, b.replyAt + 2)
  {
    var reset := WriteReg(b, PWR_MGMT_1, H_RESET);
    var clock := WriteCheckedReg(reset.bus, PWR_MGMT_1, CLK_SEL_PLLGYROZ);
    var i2c := WriteCheckedReg(clock.bus, USER_CTRL, I2C_IF_DIS);
    var rd := ReadReg(i2c.bus, PWR_MGMT_1);
    locked, bus := rd.res == Ok && rd.val == CLK_SEL_PLLGYROZ, rd.bus;
  }

  /** `n` copies of `t`, one after the other. */
  function Repeat(t: seq<Txn>, n: nat): (r: seq<Txn>)
    ensures |r| == n * |t|
  {
    if n == 0 then [] else Repeat(t, n - 1) + t
  }

  /** `while (--tries != 0) { ...; if (locked) break; }` with the 8-bit
      counter starting at 5: attempts run until one reads the clock back or
      four have been made. */
  method NegotiateClock(b: Bus) returns (attempts: nat, bus: Bus)
    ensures attempts == ClockAttempts(b.script, b.replyAt, CLOCK_TRIES - 1)
    ensures Consumed(b, bus, 3 * attempts, 3 * attempts)
    ensures bus.trace == b.trace + Repeat(ATTEMPT_TXNS, attempts)
  {
    var tries: u8 := CLOCK_TRIES;
    attempts, bus := 0, b;
    tries := tries - 1;
    while tries != 0
      invariant attempts + tries == CLOCK_TRIES - 1
      invariant Consumed(b, bus, 3 * attempts, 3 * attempts)
      invariant bus.trace == b.trace + Repeat(ATTEMPT_TXNS, attempts)
      invariant ClockAttempts(b.script, b.replyAt, CLOCK_TRIES - 1) == attempts + ClockAttempts(b.script, bus.replyAt, tries)
      decreases tries
    {
      var locked;
      locked, bus := ClockAttempt(bus);
      attempts := attempts + 1;
      if locked {
        break;
      }
      tries := tries - 1;
    }
  }

  // ---------------------------------------------------------------- configuration

  datatype InitOutcome = InitOutcome(res: Status, st: DriverState, bus: Bus)

  /** The transactions of the configuration writes after the clock check,
      in order: sample-rate divider 0, filter code 0, gyro 2000 deg/s,
      accelerometer range, data-ready interrupt, clear-on-read pin. */
  function ConfigTxns(accelReg: u8): seq<Txn>
  {
    CheckedTxns(SMPLRT_DIV, 0)
    + CheckedTxns(CONFIG, 0)
    + CheckedTxns(GYRO_CONFIG, FS_2000DPS)
    + CheckedTxns(ACCEL_CONFIG, accelReg)
    + CheckedTxns(INT_ENABLE, RAW_RDY_EN)
    + CheckedTxns(INT_PIN_CFG, INT_ANYRD_2CLEAR)
  }

  /** Whether the three fatal checked writes, answered from acknowledgement
      `i` and read reply `j` on, all succeed. */
  predicate FatalWritesOk(s: Script, i: nat, j: nat)
  {
    && CheckedOk(s, i, j, 0)
    && CheckedOk(s, i + 1, j + 1, 0)
    && CheckedOk(s, i + 2, j + 2, FS_2000DPS)
  }

  /** How many of the three fatal checked writes (sample rate, filter,
      gyro range), answered from acknowledgement `i` and read reply `j` on,
      succeed before the first one that fails; 3 when all of them do. */
  function FatalWritesPassed(s: Script, i: nat, j: nat): (k: nat)
    ensures k <= 3
    ensures k == 3 <==> FatalWritesOk(s, i, j)
    ensures k >= 1 ==> CheckedOk(s, i, j, 0)
    ensures k >= 2 ==> CheckedOk(s, i + 1, j + 1, 0)
    ensures k == 0 ==> !CheckedOk(s, i, j, 0)
    ensures k == 1 ==> !CheckedOk(s, i + 1, j + 1, 0)
    ensures k == 2 ==> !CheckedOk(s, i + 2, j + 2, FS_2000DPS)
  {
    if !CheckedOk(s, i, j, 0) then 0
    else if !CheckedOk(s, i + 1, j + 1, 0) then 1
    else if !CheckedOk(s, i + 2, j + 2, FS_2000DPS) then 2
    else 3
  }

  /** The transactions of the first `n` fatal checked writes. */
  function FatalTxns(n: nat): seq<Txn>
    requires n <= 3
  {
    if n == 0 then []
    else if n == 1 then CheckedTxns(SMPLRT_DIV, 0)
    else if n == 2 then CheckedTxns(SMPLRT_DIV, 0) + CheckedTxns(CONFIG, 0)
    else CheckedTxns(SMPLRT_DIV, 0) + CheckedTxns(CONFIG, 0) + CheckedTxns(GYRO_CONFIG, FS_2000DPS)
  }

  /** The state configuration leaves when `k` fatal writes succeeded: the
      sample rate and the filter cut-off are recorded before their writes
      are checked, the gyro scale only once its write succeeded, and the
      accelerometer range after that. */
  function StateAfterFatal(st: DriverState, k: nat): DriverState
  {
    if k == 0 then st.(sampleRate := BASE_RATE)
    else if k <= 2 then st.(sampleRate := BASE_RATE, dlpfFreq := 256)
    else st.(sampleRate := BASE_RATE, dlpfFreq := 256,
             gyroScale := GYRO_SCALE, gyroRangeRadS := GYRO_RANGE_RAD_S,
             accelScale := ONE_G / 4096.0, accelRangeMs2 := 8.0 * ONE_G)
  }

  /** How many clock attempts initialisation makes on bus `b`: the first
      attempt's replies follow the product-code read. */
  function InitClockAttempts(b: Bus): nat
  {
    ClockAttempts(b.script, b.replyAt + 1, CLOCK_TRIES - 1)
  }

  /** Whether the clock read after the loop delivers the PLL clock,
      whatever its status. */
  predicate InitClockLocked(b: Bus)
  {
    FirstByte(ReplyAt(b.script, b.replyAt + 1 + 3 * InitClockAttempts(b))) == CLK_SEL_PLLGYROZ
  }

  /** The condition under which initialisation succeeds: the clock is
      locked after the loop, and the sample-rate, filter and gyro-range
      checked writes all succeed. */
  predicate InitAccepted(b: Bus)
  {
    var n := InitClockAttempts(b);
    && InitClockLocked(b)
    && FatalWritesOk(b.script, b.ackAt + 3 * n, b.replyAt + 2 + 3 * n)
  }

  /** Everything a successful initialisation issues, in order. */
  function InitTxns(b: Bus): seq<Txn>
  {
    ProbeTxns(InitClockAttempts(b)) + ConfigTxns(AccelSettingFor(FirstByte(ReplyAt(b.script, b.replyAt)), INIT_ACCEL_G).regVal)
  }

  /** The settings a successful initialisation leaves in the driver state
      besides the product code. */
  predicate InitSettings(st: DriverState)
  {
    && st.sampleRate == BASE_RATE && st.dlpfFreq == 256
    && st.gyroScale == GYRO_SCALE && st.gyroRangeRadS == GYRO_RANGE_RAD_S
    && st.accelScale == ONE_G / 4096.0 && st.accelRangeMs2 == 8.0 * ONE_G
  }

  /** Whatever the product code, an 8 g request selects 4096 counts per g. */
  lemma InitAccelSetting(product: u8)
    ensures AccelSettingFor(product, INIT_ACCEL_G).lsbPerG == 4096
  {
    assert SelectAccelTier(INIT_ACCEL_G) == AccelSetting(0x10, 4096, 8);
  }

  /** The configuration steps of `mpu6000_init` after the clock check:
      1000 Hz sampling, 256 Hz filter and the 2000 deg/s gyro range, each
      aborting on failure with the state recorded so far, then the 8 g
      accelerometer range and the interrupt setup, whose results are
      ignored. */
  method Configure(b: Bus, st: DriverState) returns (r: InitOutcome)
    ensures r.res == Ok <==> FatalWritesOk(b.script, b.ackAt, b.replyAt)
    ensures r.st == StateAfterFatal(st, FatalWritesPassed(b.script, b.ackAt, b.replyAt))
    ensures var k := FatalWritesPassed(b.script, b.ackAt, b.replyAt);
      k < 3 ==> Consumed(b, r.bus, k + 1, k + 1) && r.bus.trace == b.trace + FatalTxns(k + 1)
    ensures r.res == Ok ==> Consumed(b, r.bus, 6, 6)
    ensures r.res == Ok ==> r.bus.trace == b.trace + ConfigTxns(AccelSettingFor(st.product, INIT_ACCEL_G).regVal)
    ensures r.res == Ok ==> InitSettings(r.st)
  {
    var rate := SetSampleRate(b, st, INIT_RATE);
    if rate.res != Ok {
      return InitOutcome(Error, rate.st, rate.bus);
    }
    assert SelectDlpf(INIT_FILTER) == Dlpf(256, 0);
    var lpf := SetDlpfFilter(rate.bus, rate.st, INIT_FILTER);
    if lpf.res != Ok {
      return InitOutcome(Error, lpf.st, lpf.bus);
    }
    var gyro := WriteCheckedReg(lpf.bus, GYRO_CONFIG, FS_2000DPS);
    if gyro.res != Ok {
      return InitOutcome(Error, lpf.st, gyro.bus);
    }
    var st' := lpf.st.(gyroScale := GYRO_SCALE, gyroRangeRadS := GYRO_RANGE_RAD_S);
    var accel := SetAccelRange(gyro.bus, st', INIT_ACCEL_G);
    InitAccelSetting(st'.product);
    assert accel.st.accelScale * 4096.0 == ONE_G;
    var intEnable := WriteCheckedReg(accel.bus, INT_ENABLE, RAW_RDY_EN);
    var intPin := WriteCheckedReg(intEnable.bus, INT_PIN_CFG, INT_ANYRD_2CLEAR);
    r := InitOutcome(Ok, accel.st, intPin.bus);
  }

  /** The transactions of the probe phase that ends in the clock check. */
  function ProbeTxns(attempts: nat): seq<Txn>
  {
    [ReadTxn(ReadCommand(PRODUCT_ID), 1)] + Repeat(ATTEMPT_TXNS, attempts) + [ReadTxn(ReadCommand(PWR_MGMT_1), 1)]
  }

  /** The probe phase of `mpu6000_init`: the product-code read, whose byte
      is kept whatever its status, the clock-negotiation loop, and one more
      read of the clock register, whose byte is kept whatever its status. */
  method Probe(b: Bus) returns (product: u8, clock: u8, attempts: nat, bus: Bus)
    ensures product == FirstByte(ReplyAt(b.script, b.replyAt))
    ensures attempts == InitClockAttempts(b)
    ensures clock == FirstByte(ReplyAt(b.script, b.replyAt + 1 + 3 * attempts))
    ensures Consumed(b, bus, 3 * attempts, 2 + 3 * attempts)
    ensures bus.trace == b.trace + ProbeTxns(attempts)
  {
    var id := ReadReg(b, PRODUCT_ID);
    product := id.val;
    attempts, bus := NegotiateClock(id.bus);
    var check := ReadReg(bus, PWR_MGMT_1);
    clock, bus := check.val, check.bus;
  }

  /** `mpu6000_init`. The product code is stored whatever the status of its
      read; the clock loop's outcome is not used; after the loop the clock
      register is read once more and initialisation fails when its byte is
      not the PLL clock. */
  method Init(b: Bus, st: DriverState) returns (r: InitOutcome)
    ensures r.st.product == FirstByte(ReplyAt(b.script, b.replyAt))
    ensures r.res == Ok <==> InitAccepted(b)
    ensures r.res == Ok ==> r.bus.trace == b.trace + InitTxns(b)
    ensures r.res == Ok ==> InitSettings(r.st)
    ensures var n := InitClockAttempts(b);
      !InitClockLocked(b) ==>
        && r.st == st.(product := FirstByte(ReplyAt(b.script, b.replyAt)))
        && Consumed(b, r.bus, 3 * n, 2 + 3 * n)
        && r.bus.trace == b.trace + ProbeTxns(n)
    ensures var n := InitClockAttempts(b);
      var k := FatalWritesPassed(b.script, b.ackAt + 3 * n, b.replyAt + 2 + 3 * n);
      InitClockLocked(b) ==>
        && r.st == StateAfterFatal(st.(product := FirstByte(ReplyAt(b.script, b.replyAt))), k)
        && (k < 3 ==> Consumed(b, r.bus, 3 * n + k + 1, 2 + 3 * n + k + 1))
        && (k < 3 ==> r.bus.trace == b.trace + ProbeTxns(n) + FatalTxns(k + 1))
        && (k == 3 ==> Consumed(b, r.bus, 3 * n + 6, 2 + 3 * n + 6))
  {
    var product, clock, attempts, bus := Probe(b);
    assert InitClockLocked(b) == (clock == CLK_SEL_PLLGYROZ);
    assert InitAccepted(b) == (clock == CLK_SEL_PLLGYROZ && FatalWritesOk(bus.script, bus.ackAt, bus.replyAt));
    if clock != CLK_SEL_PLLGYROZ {
      return InitOutcome(Error, st.(product := product), bus);
    }
    r := Configure(bus, st.(product := product));
  }

  /** A device whose clock read-back never reports the PLL clock within the
      loop, and whose final clock read does not either, is rejected after
      exactly four attempts. */
  lemma InitRejectedWithoutClock(b: Bus)
    requires forall k :: 0 <= k < 4 ==> !ClockReported(b.script, b.replyAt + 3 + 3 * k)
    requires FirstByte(ReplyAt(b.script, b.replyAt + 13)) != CLK_SEL_PLLGYROZ
    ensures InitClockAttempts(b) == 4
    ensures !InitAccepted(b)
  {
    ClockAttemptsExhausted(b.script, b.replyAt + 1, 4);
  }

  /** A device that misses the clock on all four attempts but reports it on
      the fifth read, and accepts the fatal writes, is accepted. */
  lemma InitAcceptedOnFinalClockRead(b: Bus)
    requires forall k :: 0 <= k < 4 ==> !ClockReported(b.script, b.replyAt + 3 + 3 * k)
    requires FirstByte(ReplyAt(b.script, b.replyAt + 13)) == CLK_SEL_PLLGYROZ
    requires FatalWritesOk(b.script, b.ackAt + 12, b.replyAt + 14)
    ensures InitAccepted(b)
  {
    ClockAttemptsExhausted(b.script, b.replyAt + 1, 4);
  }
}
