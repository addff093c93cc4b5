# MPU6000 driver model

A Dafny model of the StarryPilot MPU6000 inertial-sensor driver
(`starry_fmu/Driver/mpu6000/mpu6000.c`). The driver talks to the chip over
SPI, configures it at start-up, and serves gyro and accelerometer samples
through a device `read` call. The model covers these parts:

- **Register protocol** (`Registers`). Single-register writes and reads,
  burst reads, and the checked write that reads a register back.
- **Bus** (`SpiBus`). The bus is a scripted device. It answers each write
  from a queue of byte counts and each send-then-receive from a queue of
  replies. It records every transaction in a trace. When a queue runs dry,
  a write gets a count of 0 and a read gets a failure with no bytes.
- **Configuration selectors** (`Config`). The sample-rate divisor, the
  low-pass filter ladder, and the accelerometer range with its revision-C
  workaround.
- **Start-up** (`Startup`). The product-code read, the bounded clock
  negotiation loop, the final clock check, and the configuration writes.
  Some write failures abort start-up and others are ignored.
- **Measurement** (`Measurement`). Six-byte big-endian burst decoding,
  the remap to north-east-down axes with 16-bit wrap-around, and scaling to
  rad/s or m/s².
- **Device interface** (`Facade`). `read` dispatches on a position
  selector. `control` refuses every command.
- **Machine integers** (`Bytes`). The driver's fixed-width integers and
  byte operations: bitwise OR, two's-complement decoding, and 16-bit
  wrap-around.

The driver's global variables (`_sample_rate`, `_dlpf_freq`, `_product`
and the four scale and range values) form an explicit `DriverState` value.
Each operation takes that value and returns the new one, along with its
status and the bus after the call.

Four details of the code are easy to misread. The model keeps each as
written:

- The divisor is the truncated quotient `1000 / rate`. It is not rounded,
  and it is stored in a `uint8_t` before it is clamped (see Findings).
- The clock loop runs at most four times. The 8-bit counter starts at 5
  and is decremented before each test.
- A failed checked write does not undo the recorded settings.
  `_set_sample_rate` records the rate and `_set_dlpf_filter` records the
  cut-off whatever the write returns. `set_accel_range` records its scale
  and ignores the write's result.
- Applying the axis remap twice gives (-X, -Y, Z).

## Model

| member | source | states |
|---|---|---|
| `Bytes.Or8HighBit` | StarryPilot-master/starry_fmu/Driver/mpu6000/mpu6000.c:19-20 | OR-ing DIR_READ (0x80) into a byte sets bit 7 and keeps the other bits: an address below 0x80 gains 0x80, any other byte is unchanged |
| `Bytes.Or8Zero` | StarryPilot-master/starry_fmu/Driver/mpu6000/mpu6000.c:150 | OR-ing DIR_WRITE (0x00) into an address leaves it unchanged, so the write frame starts with the bare address |
| `Bytes.WrapNeg16` | StarryPilot-master/starry_fmu/Driver/mpu6000/mpu6000.c:409-414 | negation through the `uint16_t` temporary and back into `int16_t` is ordinary negation except that -32768 maps to itself |
| `Bytes.DecodeI16` | StarryPilot-master/starry_fmu/Driver/mpu6000/mpu6000.c:421-424 | decoding a (high, low) byte pair gives the value whose high and low bytes they are, and it is negative exactly when the high byte's top bit is set |
| `Bytes.DecodeI16OfBytes` | StarryPilot-master/starry_fmu/Driver/mpu6000/mpu6000.c:421-424 | splitting any 16-bit value into its bytes and decoding them gives the value back |
| `Registers.ReadCommandIsOr` | StarryPilot-master/starry_fmu/Driver/mpu6000/mpu6000.c:162 | the read command byte equals the bitwise OR of the address with DIR_READ, for every byte |
| `Registers.WriteReg` | StarryPilot-master/starry_fmu/Driver/mpu6000/mpu6000.c:145-155 | issues exactly the frame [reg, val], consumes one acknowledgement, and succeeds exactly when both bytes were accepted |
| `Registers.ReadReg` | StarryPilot-master/starry_fmu/Driver/mpu6000/mpu6000.c:157-168 | issues one read whose command is the register address with the top bit (0x80) set; the status is the transfer's and the byte is delivered whether or not the transfer succeeded |
| `Registers.ReadMultiReg` | StarryPilot-master/starry_fmu/Driver/mpu6000/mpu6000.c:170-180 | issues one read of `len` bytes; the status is the transfer's and the data are the reply's bytes cut or zero-padded to `len` |
| `Registers.WriteCheckedReg` | StarryPilot-master/starry_fmu/Driver/mpu6000/mpu6000.c:182-196 | issues the write and then the read-back of the same register, and succeeds exactly when the write was fully accepted, the read-back succeeded, and the byte read equals the byte written |
| `Config.SampleRateDivisor` | StarryPilot-master/starry_fmu/Driver/mpu6000/mpu6000.c:198-210 | the divisor lies in [1, 200]; a request of 0 or of at least 1000 Hz gives 1; between 5 and 1000 Hz it is the truncating quotient, unwrapped and unclamped |
| `Config.ClampedDivisorBrackets` | StarryPilot-master/starry_fmu/Driver/mpu6000/mpu6000.c:206 | between 5 and 1000 Hz the intended divisor is the largest whose rate `1000 / div` still reaches the request |
| `Config.UnwrappedQuotient` | StarryPilot-master/starry_fmu/Driver/mpu6000/mpu6000.c:206-210 | for requests of 5 to 1000 Hz the quotient lies in [1, 200] and so survives the `uint8_t` store; below 5 Hz it is at least 200, so it is the quotient the byte store can wrap; above 1000 Hz it is 0 and the clamp raises it to 1 |
| `Config.SampleRateDivisorNotAntitone` | StarryPilot-master/starry_fmu/Driver/mpu6000/mpu6000.c:206 | as written, 1, 2 and 4 Hz get divisor 200 but 3 Hz gets 333 mod 256 = 77, an effective 12 Hz against 5 Hz for a faster request |
| `Config.ClampedDivisor` | StarryPilot-master/starry_fmu/Driver/mpu6000/mpu6000.c:206-210 | the intended divisor lies in [1, 200]: 1 for a request of 0 or at least 1000 Hz, 200 for 1 to 5 Hz, and the truncating quotient in between, with no 8-bit wrap |
| `Config.ClampedDivisorAntitone` | StarryPilot-master/starry_fmu/Driver/mpu6000/mpu6000.c:206-210 | with the intended divisor, a faster request never gets a larger divisor |
| `Config.DivisorsAgreeExceptAtThree` | StarryPilot-master/starry_fmu/Driver/mpu6000/mpu6000.c:206-210 | the as-written and intended divisors agree on every request except 3 Hz |
| `Config.EffectiveRateBounds` | StarryPilot-master/starry_fmu/Driver/mpu6000/mpu6000.c:213 | the recorded rate `1000 / div` lies in [5, 1000] and is at least any request between 5 and 1000 Hz |
| `Config.SetSampleRate` | StarryPilot-master/starry_fmu/Driver/mpu6000/mpu6000.c:198-216 | writes `div - 1` for the driver's wrapped-then-clamped divisor to SMPLRT_DIV with a checked write, returns that write's result, and records the rate `1000 / div` whatever the result; nothing else in the state changes; the recorded rate lies in [5, 1000], reaches any request between 5 and 1000 Hz, and is the intended divisor's for every request but 3 Hz |
| `Config.SelectDlpf` | StarryPilot-master/starry_fmu/Driver/mpu6000/mpu6000.c:218-262 | a request of 0 or above 256 Hz, and only such a request, disables the filter; any other request gets the smallest offered cut-off at or above it, with the matching code |
| `Config.SetDlpfFilter` | StarryPilot-master/starry_fmu/Driver/mpu6000/mpu6000.c:218-263 | records the selected cut-off whatever happens, writes its code to CONFIG with a checked write, and returns that write's result |
| `Config.SelectAccelTier` | StarryPilot-master/starry_fmu/Driver/mpu6000/mpu6000.c:279-302 | the register value is `afs << 3` with afs at most 3; the range is 2·2^afs g and times counts per g gives 32768; the range covers any request up to 16 g and is the smallest that does |
| `Config.AccelTierBoundaries` | StarryPilot-master/starry_fmu/Driver/mpu6000/mpu6000.c:283-302 | the thresholds are strict: 2, 4 and 8 g keep their range, 3, 5 and 9 g get the next one, and 10 g gets 16 g |
| `Config.AccelSettingFor` | StarryPilot-master/starry_fmu/Driver/mpu6000/mpu6000.c:265-302 | the four revision-C product codes always get register 0x08 at 4096 counts per g and 8 g; every other code gets exactly the tier the strict comparisons select, the smallest power-of-two range covering the request |
| `Config.ScaleOfSetting` | StarryPilot-master/starry_fmu/Driver/mpu6000/mpu6000.c:305-306 | the recorded scale turns one g of counts into ONE_G and the full 16-bit count range into the tier's range |
| `Config.SetAccelRange` | StarryPilot-master/starry_fmu/Driver/mpu6000/mpu6000.c:265-309 | always succeeds; issues one checked write of the selected register value; records a scale with scale × counts-per-g = ONE_G and range = scale × 32768; nothing else in the state changes |
| `Measurement.RotateToNed` | StarryPilot-master/starry_fmu/Driver/mpu6000/mpu6000.c:409-414 | the new X is the old Y, the new Y is the old X negated (-32768 stays -32768), and Z is unchanged |
| `Measurement.RotateTwice` | StarryPilot-master/starry_fmu/Driver/mpu6000/mpu6000.c:409-414 | two remaps negate X and Y, with 16-bit wrap-around, and keep Z |
| `Measurement.RotateFourTimes` | StarryPilot-master/starry_fmu/Driver/mpu6000/mpu6000.c:409-414 | four remaps give every sample back, including samples holding -32768 |
| `Measurement.RotateExamples` | StarryPilot-master/starry_fmu/Driver/mpu6000/mpu6000.c:409-414 | (1000, 2000, 3000) remaps to (2000, -1000, 3000), and -32768 on X stays -32768 on Y |
| `Measurement.DecodeBurst` | StarryPilot-master/starry_fmu/Driver/mpu6000/mpu6000.c:421-424 | decoding six burst bytes gives the sample whose big-endian encoding they are |
| `Measurement.DecodeEncodeBurst` | StarryPilot-master/starry_fmu/Driver/mpu6000/mpu6000.c:421-424 | encoding a sample and decoding the burst gives the sample back |
| `Measurement.BurstDecodesUniquely` | StarryPilot-master/starry_fmu/Driver/mpu6000/mpu6000.c:421-424 | a burst is the encoding of exactly one sample, and decoding finds it |
| `Measurement.ReadRaw` | StarryPilot-master/starry_fmu/Driver/mpu6000/mpu6000.c:416-429 | one six-byte burst read; the status is the burst's; the sample is the remapped decoding of the delivered bytes, whatever the status |
| `Measurement.GyrReadRaw` | StarryPilot-master/starry_fmu/Driver/mpu6000/mpu6000.c:416-429 | reads six bytes with command 0xC3 (GYRO_XOUT_H with the read bit) and returns the remapped sample and the burst status |
| `Measurement.AccReadRaw` | StarryPilot-master/starry_fmu/Driver/mpu6000/mpu6000.c:444-457 | reads six bytes with command 0xBB (ACCEL_XOUT_H with the read bit) and returns the remapped sample and the burst status |
| `Measurement.Scale` | StarryPilot-master/starry_fmu/Driver/mpu6000/mpu6000.c:437-439 | the scaled sample divided by a nonzero scale gives the raw counts back on every axis; a zero sample, or a zero scale as in the state before start-up, gives zero |
| `Measurement.ReadScaled` | StarryPilot-master/starry_fmu/Driver/mpu6000/mpu6000.c:431-442 | the raw read's status and bus effect, with the remapped sample multiplied by the scale, written whatever the status |
| `Measurement.GyrReadRad` | StarryPilot-master/starry_fmu/Driver/mpu6000/mpu6000.c:431-442 | the gyro burst, remapped and multiplied by the recorded gyro scale, with the burst status |
| `Measurement.AccReadMs2` | StarryPilot-master/starry_fmu/Driver/mpu6000/mpu6000.c:459-470 | the accelerometer burst, remapped and multiplied by the recorded accelerometer scale, with the burst status |
| `Measurement.ScaleAccelExample` | StarryPilot-master/starry_fmu/Driver/mpu6000/mpu6000.c:465-467 | at 4096 counts per g the sample (4096, -4096, 8192) scales to exactly (ONE_G, -ONE_G, 19.6133) |
| `Startup.ClockAttempts` | StarryPilot-master/starry_fmu/Driver/mpu6000/mpu6000.c:322-348 | the number of attempts the loop makes is at most the limit, and at least one when the limit is positive |
| `Startup.ClockAttemptsMissBeforeLast` | StarryPilot-master/starry_fmu/Driver/mpu6000/mpu6000.c:343-346 | no attempt before the last one read the clock back |
| `Startup.ClockAttemptsStopOnReport` | StarryPilot-master/starry_fmu/Driver/mpu6000/mpu6000.c:343-346 | a loop that stops before its limit stops because its last read-back reported the clock |
| `Startup.ClockAttemptsExhausted` | StarryPilot-master/starry_fmu/Driver/mpu6000/mpu6000.c:329-348 | when no read-back within the limit reports the clock, the loop runs out its limit |
| `Startup.ClockAttempt` | StarryPilot-master/starry_fmu/Driver/mpu6000/mpu6000.c:330-346 | one pass issues the reset, the checked clock selection, the checked I2C disable and the clock read-back in that order; it is locked exactly when the read-back succeeds with 0x03 |
| `Startup.NegotiateClock` | StarryPilot-master/starry_fmu/Driver/mpu6000/mpu6000.c:322-348 | the 8-bit counter starting at 5 with pre-decrement gives at most four attempts, stopping after the first locked one; the bus effect is that many attempts' transactions |
| `Startup.Probe` | StarryPilot-master/starry_fmu/Driver/mpu6000/mpu6000.c:326-350 | keeps the product byte whatever the read status, runs the clock loop, and reads the clock register once more, keeping its byte whatever the status |
| `Startup.InitAccelSetting` | StarryPilot-master/starry_fmu/Driver/mpu6000/mpu6000.c:388 | whatever the product code, the 8 g request selects 4096 counts per g |
| `Startup.Configure` | StarryPilot-master/starry_fmu/Driver/mpu6000/mpu6000.c:355-398 | succeeds exactly when the sample-rate, filter and gyro-range checked writes all succeed; when one of them fails, nothing is issued after it and the state keeps what was recorded before its check (the 1000 Hz rate, then also the 256 Hz cut-off); on success all six writes are issued in order, the bus advances by six acknowledgements and six replies, and the state holds 1000 Hz, 256 Hz, the 2000 deg/s scales and the 8 g scales |
| `Startup.Init` | StarryPilot-master/starry_fmu/Driver/mpu6000/mpu6000.c:311-407 | stores the product byte; succeeds exactly when the final clock read delivers 0x03 and the three fatal writes succeed; when the clock check fails, only the product changes and nothing follows the probe; when a fatal write fails, nothing follows it and the state is what configuration had recorded; on success it issues the whole start-up sequence and leaves the configured state |
| `Startup.FatalWritesPassed` | StarryPilot-master/starry_fmu/Driver/mpu6000/mpu6000.c:357-377 | counts the fatal checked writes that succeed before the first failure: every write before that count succeeds, the one at it fails, and the count is 3 exactly when all three succeed |
| `Startup.InitRejectedWithoutClock` | StarryPilot-master/starry_fmu/Driver/mpu6000/mpu6000.c:329-353 | a device that never reports the clock is tried exactly four times and then rejected |
| `Startup.InitAcceptedOnFinalClockRead` | StarryPilot-master/starry_fmu/Driver/mpu6000/mpu6000.c:329-353 | a device that misses the clock on all four attempts is still accepted if the final read delivers 0x03 and the fatal writes succeed |
| `Facade.Read` | StarryPilot-master/starry_fmu/Driver/mpu6000/mpu6000.c:472-509 | an unknown selector returns 0 and touches neither bus nor buffer; a known selector performs one burst on the channel the first matching selector names, fills the buffer with the raw or scaled sample whatever the status, and returns `size` on success and 0 on failure |
| `Facade.Control` | StarryPilot-master/starry_fmu/Driver/mpu6000/mpu6000.c:511-522 | every command is refused |

## Left out

- `rt_mpu6000_init` (device registration and SPI mode and clock setup) is
  not modelled. It is plumbing over the operating system's device API.
- Opening the SPI device at the start of `mpu6000_init` is not modelled.
  The scripted bus is always open.
- `time_waitUs` delays and `Console.print` messages in `mpu6000_init` have
  no effect in the model.
- Floating-point arithmetic is modelled with exact reals. The model makes
  no claim about rounding of the scale factors or the scaled samples.
- `int16_t_from_bytes` lives in a header that is not part of this model.
  It is taken to be big-endian two's-complement decoding, as the comments
  at the call sites say.
- The numeric values of the four read selectors are defined in a header
  that is not part of this model. `Facade.Read` takes them as the
  `Positions` parameter.
- `Facade.Read`: when two selectors share a value, only the first matching
  branch is described, as the source tests them in order. The byte layout
  of the caller's buffer is reduced to a `Payload` value.
- The uninitialised byte that a failed read copies out is modelled as
  whatever bytes the scripted reply carries, zero-padded when it carries
  too few.
- A failed transfer is modelled by status only. The driver's error codes
  are collapsed to success versus failure, which is all it ever inspects.
- `Measurement.GyrReadRaw`: the source reads the gyro burst into a
  `uint16_t` buffer and the accelerometer burst into an `int16_t` buffer.
  Both decode the same bytes, so the model does not distinguish them.

## Findings

| source | as written | input that shows it | evidently intended | confidence | as-written member | corrected member |
|---|---|---|---|---|---|---|
| StarryPilot-master/starry_fmu/Driver/mpu6000/mpu6000.c:206-210 | `uint8_t div = 1000 / rate` wraps modulo 256 before the clamp to [1, 200] | a request of 3 Hz gives divisor 77 (effective 12 Hz), while 4 Hz gives 200 (effective 5 Hz) | clamp the quotient to [1, 200] before narrowing it to 8 bits, so that a slower request never gets a faster rate | not executed | `Config.SampleRateDivisorNotAntitone` | `Config.ClampedDivisorAntitone` |

Only a request of 3 Hz is affected: `Config.DivisorsAgreeExceptAtThree`
proves the two divisors agree everywhere else. Start-up requests 1000 Hz,
where both divisors are 1. `Config.SetSampleRate` models the driver as
written. Its contract also states that the rate it records is the
corrected divisor's for every request other than 3 Hz.
