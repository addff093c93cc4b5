/** The driver's configuration state and the three configuration selectors:
    sample-rate divisor, digital low-pass filter ladder and accelerometer
    full-scale tier. Each selector is a pure decision table; each setter
    writes the selected register value with a checked write and records
    the effective value in the state. */
module Config {
  import opened Bytes
  import opened SpiBus
  import opened Registers

  /** Standard gravity, in m/s^2, as the driver's float constant. */
  const ONE_G: real := 9.80665
  /** The driver's single-precision approximation of pi. */
  const PI: real := 3.1415926

  /** The gyro output rate the divisor divides, in Hz. */
  const BASE_RATE: nat := 1000
  const DEFAULT_RATE: u32 := 1000
  const MAX_DIVISOR: nat := 200

  /** The driver's module-level variables: effective sample rate, effective
      filter cut-off, product code, and the gyro and accelerometer scale
      factors and ranges. Floats are modelled as reals. */
  datatype DriverState = DriverState(
    sampleRate: nat,
    dlpfFreq: nat,
    product: u8,
    gyroScale: real,
    gyroRangeRadS: real,
    accelScale: real,
    accelRangeMs2: real)

  /** The zero-initialised state of the variables before `mpu6000_init`. */
  const INITIAL_STATE := DriverState(0, 0, 0, 0.0, 0.0, 0.0, 0.0)

  datatype Configured = Configured(res: Status, st: DriverState, bus: Bus)

  // ---------------------------------------------------------------- sample rate

  /** A requested rate of 0 stands for the default rate. */
  function RequestedRate(rate: u32): nat
  {
    if rate == 0 then DEFAULT_RATE else rate
  }

  /** The divisor as the driver computes it: the truncating quotient is
      stored in a `uint8_t`, so it wraps modulo 256 before being clamped to
      [1, 200]. Between 5 Hz and 1000 Hz nothing wraps or clamps. */
  function SampleRateDivisor(rate: u32): (div: nat)
    ensures 1 <= div <= MAX_DIVISOR
    ensures rate == 0 || rate >= BASE_RATE ==> div == 1
    ensures 5 <= rate <= BASE_RATE ==> div == BASE_RATE / rate
  {
    UnwrappedQuotient(rate);
    var q: u8 := (BASE_RATE / RequestedRate(rate)) % 0x100;
    if q > MAX_DIVISOR then MAX_DIVISOR else if q < 1 then 1 else q
  }

  /** For requests of 5 Hz to 1000 Hz the quotient lies in [1, 200], so it
      fits the byte; below 5 Hz it is at least 200 and above 1000 Hz it is 0. */
  lemma UnwrappedQuotient(rate: u32)
    ensures 1 <= rate <= 5 ==> BASE_RATE / rate >= MAX_DIVISOR
    ensures 5 <= rate <= BASE_RATE ==> 1 <= BASE_RATE / rate <= MAX_DIVISOR
    ensures rate > BASE_RATE ==> BASE_RATE / rate == 0
  {
    if 1 <= rate <= 5 {
      QuotientAntitone(BASE_RATE, rate, 5);
    }
    if 5 <= rate <= BASE_RATE {
      QuotientAntitone(BASE_RATE, 5, rate);
      QuotientAntitone(BASE_RATE, rate, BASE_RATE);
    } else if rate > BASE_RATE {
      QuotientOfLarger(BASE_RATE, rate);
    }
  }

  /** Between 5 Hz and 1000 Hz the intended divisor is the largest whose
      rate is still at least the request. */
  lemma ClampedDivisorBrackets(rate: u32)
    requires 5 <= rate <= BASE_RATE
    ensures ClampedDivisor(rate) * rate <= BASE_RATE < (ClampedDivisor(rate) + 1) * rate
  {
    QuotientBounds(BASE_RATE, rate);
  }

  /** Truncating division brackets the dividend. */
  lemma QuotientBounds(n: nat, d: nat)
    requires d >= 1
    ensures (n / d) * d <= n < (n / d + 1) * d
  {
    assert n == (n / d) * d + n % d;
    assert (n / d + 1) * d == (n / d) * d + d;
  }

  lemma QuotientOfLarger(n: nat, d: nat)
    requires n < d
    ensures n / d == 0
  {
    var q := n / d;
    assert n == q * d + n % d;
    if q >= 1 {
      MulMonotone(d, 1, q);
      assert false;
    }
  }

  /** The divisor the clamp evidently intends: the truncating quotient
      clamped to [1, 200] without the 8-bit wrap. */
  function ClampedDivisor(rate: u32): (div: nat)
    ensures 1 <= div <= MAX_DIVISOR
    ensures rate == 0 || rate >= BASE_RATE ==> div == 1
    ensures 1 <= rate <= 5 ==> div == MAX_DIVISOR
    ensures 5 <= rate <= BASE_RATE ==> div == BASE_RATE / rate
  {
    UnwrappedQuotient(rate);
    var q := BASE_RATE / RequestedRate(rate);
    if q > MAX_DIVISOR then MAX_DIVISOR else if q < 1 then 1 else q
  }

  /** A slower request never gets a smaller intended divisor: the
      effective rate is monotone in the requested rate. */
  lemma ClampedDivisorAntitone(r1: u32, r2: u32)
    requires 1 <= r1 <= r2
    ensures ClampedDivisor(r2) <= ClampedDivisor(r1)
  {
    QuotientAntitone(BASE_RATE, r1, r2);
  }

  lemma QuotientAntitone(n: nat, d1: nat, d2: nat)
    requires 1 <= d1 <= d2
    ensures n / d2 <= n / d1
  {
    var q1, q2 := n / d1, n / d2;
    assert q2 * d1 <= q2 * d2 <= n by {
      MulMonotone(q2, d1, d2);
    }
    if q2 > q1 {
      assert (q1 + 1) * d1 <= q2 * d1 by {
        MulMonotone(d1, q1 + 1, q2);
      }
      assert false;
    }
  }

  lemma MulMonotone(k: nat, a: nat, b: nat)
    requires a <= b
    ensures k * a <= k * b && a * k <= b * k
  {
  }

  /** The as-written divisor breaks that monotonicity: 1, 2 and 4 Hz get
      the maximum divisor, but 3 Hz gets 333 mod 256 = 77, a faster rate
      than 4 Hz gets. */
  lemma SampleRateDivisorNotAntitone()
    ensures SampleRateDivisor(1) == SampleRateDivisor(2) == SampleRateDivisor(4) == MAX_DIVISOR
    ensures SampleRateDivisor(3) == 77 < SampleRateDivisor(4)
    ensures BASE_RATE / SampleRateDivisor(3) == 12 && BASE_RATE / SampleRateDivisor(4) == 5
    ensures ClampedDivisor(3) == MAX_DIVISOR
  {
  }

  /** The two divisors differ only at a request of 3 Hz. */
  lemma DivisorsAgreeExceptAtThree(rate: u32)
    requires rate != 3
    ensures SampleRateDivisor(rate) == ClampedDivisor(rate)
  {
    UnwrappedQuotient(rate);
    if rate == 0 {
    } else if rate < 5 {
      SampleRateDivisorNotAntitone();
    } else if rate <= BASE_RATE {
    } else {
    }
  }

  /** `_set_sample_rate`: writes `div - 1` to the divider register with a
      checked write, and records the effective rate `1000 / div` whether or
      not that write succeeded. The divisor is the driver's, wrap included;
      it is the intended one for every request except 3 Hz. */
  method SetSampleRate(b: Bus, st: DriverState, rate: u32) returns (r: Configured)
    ensures r.st == st.(sampleRate := BASE_RATE / SampleRateDivisor(rate))
    ensures rate != 3 ==> r.st.sampleRate == BASE_RATE / ClampedDivisor(rate)
    ensures 5 <= r.st.sampleRate <= BASE_RATE
    ensures 5 <= rate <= BASE_RATE ==> rate <= r.st.sampleRate
    ensures Consumed(b, r.bus, 1, 1)
    ensures r.bus.trace == b.trace + CheckedTxns(SMPLRT_DIV, SampleRateDivisor(rate) - 1)
    ensures r.res == Ok <==> CheckedOk(b.script, b.ackAt, b.replyAt, SampleRateDivisor(rate) - 1)
  {
    var div := SampleRateDivisor(rate);
    if rate != 3 {
      DivisorsAgreeExceptAtThree(rate);
    }
    var w := WriteCheckedReg(b, SMPLRT_DIV, div - 1);
    if 5 <= rate <= BASE_RATE {
      QuotientBounds(BASE_RATE, rate);
    }
    EffectiveRateBounds(div, rate);
    r := Configured(w.res, st.(sampleRate := BASE_RATE / div), w.bus);
  }

  /** The effective rate of a divisor in [1, 200] lies in [5, 1000], and
      is at least any request the divisor keeps at or below 1000 Hz. */
  lemma EffectiveRateBounds(div: nat, rate: nat)
    requires 1 <= div <= MAX_DIVISOR
    requires 5 <= rate <= BASE_RATE ==> div * rate <= BASE_RATE
    ensures 5 <= BASE_RATE / div <= BASE_RATE
    ensures 5 <= rate <= BASE_RATE ==> rate <= BASE_RATE / div
  {
    QuotientAntitone(BASE_RATE, div, MAX_DIVISOR);
    QuotientAntitone(BASE_RATE, 1, div);
    if 5 <= rate <= BASE_RATE {
      var q := BASE_RATE / div;
      QuotientBounds(BASE_RATE, div);
      if q < rate {
        MulMonotone(div, q + 1, rate);
        assert false;
      }
    }
  }

  // ---------------------------------------------------------------- low-pass filter

  /** The filter cut-offs the chip offers, in Hz, in increasing order. The
      configuration code of `DLPF_STEPS[i]` is `6 - i`. */
  const DLPF_STEPS: seq<nat> := [5, 10, 20, 42, 98, 188, 256]
  /** The code that disables the filter; recorded as a cut-off of 0. */
  const DLPF_OFF: u8 := 7

  datatype Dlpf = Dlpf(freq: nat, code: u8)

  /** The cut-off a filter code selects, with 0 for the unfiltered code. */
  function CutoffOfCode(code: u8): nat
  {
    if code < 7 then DLPF_STEPS[6 - code] else 0
  }

  /** The filter ladder: a request of 0 or above 256 Hz disables the
      filter; any other request gets the smallest offered cut-off at or
      above it. */
  function SelectDlpf(f: u16): (d: Dlpf)
    ensures f == 0 || f > 256 <==> d == Dlpf(0, DLPF_OFF)
    ensures 1 <= f <= 256 ==> d.freq in DLPF_STEPS && f <= d.freq
    ensures 1 <= f <= 256 ==> forall w :: w in DLPF_STEPS && f <= w ==> d.freq <= w
    ensures d.code <= 7 && CutoffOfCode(d.code) == d.freq
  {
    if f == 0 then Dlpf(0, DLPF_OFF)
    else if f <= 5 then Dlpf(5, 6)
    else if f <= 10 then Dlpf(10, 5)
    else if f <= 20 then Dlpf(20, 4)
    else if f <= 42 then Dlpf(42, 3)
    else if f <= 98 then Dlpf(98, 2)
    else if f <= 188 then Dlpf(188, 1)
    else if f <= 256 then Dlpf(256, 0)
    else Dlpf(0, DLPF_OFF)
  }

  /** `_set_dlpf_filter`: records the selected cut-off, then writes its
      code to the CONFIG register; the result is the checked write's. */
  method SetDlpfFilter(b: Bus, st: DriverState, f: u16) returns (r: Configured)
    ensures r.st == st.(dlpfFreq := SelectDlpf(f).freq)
    ensures Consumed(b, r.bus, 1, 1)
    ensures r.bus.trace == b.trace + CheckedTxns(CONFIG, SelectDlpf(f).code)
    ensures r.res == Ok <==> CheckedOk(b.script, b.ackAt, b.replyAt, SelectDlpf(f).code)
  {
    var d := SelectDlpf(f);
    var st' := st.(dlpfFreq := d.freq);
    var w := WriteCheckedReg(b, CONFIG, d.code);
    r := Configured(w.res, st', w.bus);
  }

  // ---------------------------------------------------------------- accelerometer range

  /** The silicon revisions whose accelerometer range is forced to the
      hard-wired setting: engineering samples and production parts of
      revision C4 and C5. */
  const REV_C_PRODUCTS: set<u8> := {0x14, 0x15, 0x54, 0x55}

  /** An accelerometer setting: the ACCEL_CONFIG register value, the raw
      counts per g, and the full-scale range in g. */
  datatype AccelSetting = AccelSetting(regVal: u8, lsbPerG: nat, rangeG: nat)

  /** The full-scale tier for a requested maximum of `maxG`: AFS_SEL 3, 2,
      1 or 0 by strict comparison against 8, 4 and 2 g. */
  function SelectAccelTier(maxG: u32): (s: AccelSetting)
    ensures s.regVal % 8 == 0 && s.regVal / 8 <= 3
    ensures s.rangeG == 2 * Pow2(s.regVal / 8)
    ensures s.lsbPerG * s.rangeG == 32768
    ensures maxG <= 16 ==> maxG <= s.rangeG
    ensures s.rangeG > 2 ==> maxG > s.rangeG / 2
    ensures maxG > 16 ==> s.rangeG == 16
  {
    var afs: nat :=
      if maxG > 8 then 3
      else if maxG > 4 then 2
      else if maxG > 2 then 1
      else 0;
    // AFS_SEL occupies bits 3 and 4 of the register: `afs << 3`
    var lsb := if afs == 3 then 2048 else if afs == 2 then 4096 else if afs == 1 then 8192 else 16384;
    AccelSetting(afs * 8, lsb, 2 * Pow2(afs))
  }

  /** The comparisons are strict: a request of exactly 2, 4 or 8 g gets
      that range, one just above gets the next; 10 g gets 16 g. */
  lemma AccelTierBoundaries()
    ensures SelectAccelTier(2) == AccelSetting(0x00, 16384, 2)
    ensures SelectAccelTier(3) == AccelSetting(0x08, 8192, 4)
    ensures SelectAccelTier(4) == AccelSetting(0x08, 8192, 4)
    ensures SelectAccelTier(5) == AccelSetting(0x10, 4096, 8)
    ensures SelectAccelTier(8) == AccelSetting(0x10, 4096, 8)
    ensures SelectAccelTier(9) == AccelSetting(0x18, 2048, 16)
    ensures SelectAccelTier(10) == AccelSetting(0x18, 2048, 16)
  {
  }

  /** The setting `set_accel_range` writes: the revision-C workaround
      register value 0x08 with the 8 g scale, or the requested tier. */
  function AccelSettingFor(product: u8, maxG: u32): (s: AccelSetting)
    ensures product in REV_C_PRODUCTS ==> s == AccelSetting(0x08, 4096, 8)
    ensures product !in REV_C_PRODUCTS ==> s == SelectAccelTier(maxG)
    ensures product !in REV_C_PRODUCTS ==> s.rangeG == 2 * Pow2(s.regVal / 8)
    ensures product !in REV_C_PRODUCTS ==> (maxG <= 16 ==> maxG <= s.rangeG) && (s.rangeG > 2 ==> maxG > s.rangeG / 2)
    ensures s.lsbPerG * s.rangeG == 32768
  {
    if product in REV_C_PRODUCTS then AccelSetting(0x08, 4096, 8)
    else SelectAccelTier(maxG)
  }

  /** The scale derived from a setting turns one g of counts into ONE_G and
      the full 16-bit count range into the setting's range. */
  lemma ScaleOfSetting(lsb: nat, range: nat)
    requires lsb * range == 32768
    ensures (ONE_G / (lsb as real)) * (lsb as real) == ONE_G
    ensures (ONE_G / (lsb as real)) * 32768.0 == (range as real) * ONE_G
  {
    var k := ONE_G / (lsb as real);
    assert (lsb as real) * (range as real) == 32768.0;
    calc {
      k * 32768.0;
      == k * ((lsb as real) * (range as real));
      == (k * (lsb as real)) * (range as real);
      == ONE_G * (range as real);
    }
  }

  /** `set_accel_range`: writes the setting with a checked write whose
      result is ignored, records the scale and range, and always succeeds. */
  method SetAccelRange(b: Bus, st: DriverState, maxG: u32) returns (r: Configured)
    ensures r.res == Ok
    ensures Consumed(b, r.bus, 1, 1)
    ensures r.bus.trace == b.trace + CheckedTxns(ACCEL_CONFIG, AccelSettingFor(st.product, maxG).regVal)
    ensures r.st.accelScale * (AccelSettingFor(st.product, maxG).lsbPerG as real) == ONE_G
    ensures r.st.accelScale * 32768.0 == r.st.accelRangeMs2
    ensures r.st == st.(accelScale := r.st.accelScale, accelRangeMs2 := r.st.accelRangeMs2)
  {
    var s := AccelSettingFor(st.product, maxG);
    var w := WriteCheckedReg(b, ACCEL_CONFIG, s.regVal);
    var scale := ONE_G / (s.lsbPerG as real);
    ScaleOfSetting(s.lsbPerG, s.rangeG);
    var st' := st.(accelScale := scale, accelRangeMs2 := (s.rangeG as real) * ONE_G);
    r := Configured(Ok, st', w.bus);
  }
}
