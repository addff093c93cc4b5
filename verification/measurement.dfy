/** The measurement pipeline: a six-byte burst read of the gyro or
    accelerometer output registers, decoded as three big-endian signed
    16-bit values, remapped from the sensor's axes to the vehicle's
    north-east-down axes, and optionally scaled to physical units. */
module Measurement {
  import opened Bytes
  import opened SpiBus
  import opened Registers
  import opened Config

  /** A three-axis sample of raw signed 16-bit counts. */
  datatype Vec3 = Vec3(x: i16, y: i16, z: i16)

  /** A three-axis sample in physical units (float in the driver). */
  datatype Real3 = Real3(x: real, y: real, z: real)

  datatype Channel = Gyro | Accel

  /** The high byte of the X output, where each channel's burst starts. */
  function FirstRegister(ch: Channel): u8
  {
    match ch
    case Gyro => GYRO_XOUT_H
    case Accel => ACCEL_XOUT_H
  }

  const BURST_LEN: u8 := 6

  /** `rotate_to_ned`: the vehicle's X is the sensor's Y, the vehicle's Y is
      the sensor's X negated with 16-bit wrap-around, Z is unchanged. */
  function RotateToNed(v: Vec3): (r: Vec3)
    ensures r.x == v.y && r.z == v.z
    ensures v.x != -0x8000 ==> r.y == -v.x
    ensures v.x == -0x8000 ==> r.y == -0x8000
  {
    Vec3(v.y, WrapNeg16(v.x), v.z)
  }

  /** The remap is a quarter turn about Z: two applications negate X and Y. */
  lemma RotateTwice(v: Vec3)
    ensures RotateToNed(RotateToNed(v)) == Vec3(WrapNeg16(v.x), WrapNeg16(v.y), v.z)
  {
  }

  /** Four applications of the remap give the sample back, including
      samples holding -32768. */
  lemma RotateFourTimes(v: Vec3)
    ensures RotateToNed(RotateToNed(RotateToNed(RotateToNed(v)))) == v
  {
    RotateTwice(v);
    RotateTwice(RotateToNed(RotateToNed(v)));
    WrapNeg16Involutive(v.x);
    WrapNeg16Involutive(v.y);
  }

  /** The remap of (1000, 2000, 3000) and of a sample with -32768 on X. */
  lemma RotateExamples()
    ensures RotateToNed(Vec3(1000, 2000, 3000)) == Vec3(2000, -1000, 3000)
    ensures RotateToNed(Vec3(-0x8000, 7, -7)) == Vec3(7, -0x8000, -7)
  {
  }

  /** The six output bytes the sensor sends for a sample: X, Y, Z, each
      high byte first. */
  function EncodeBurst(v: Vec3): (data: seq<u8>)
    ensures |data| == 6
  {
    [HighByte(v.x), LowByte(v.x), HighByte(v.y), LowByte(v.y), HighByte(v.z), LowByte(v.z)]
  }

  /** Decodes six burst bytes as three big-endian signed 16-bit values. */
  function DecodeBurst(data: seq<u8>): (v: Vec3)
    requires |data| == 6
    ensures EncodeBurst(v) == data
  {
    Vec3(DecodeI16(data[0], data[1]), DecodeI16(data[2], data[3]), DecodeI16(data[4], data[5]))
  }

  /** Decoding what the sensor encodes gives the sample back. */
  lemma DecodeEncodeBurst(v: Vec3)
    ensures DecodeBurst(EncodeBurst(v)) == v
  {
    DecodeI16OfBytes(v.x);
    DecodeI16OfBytes(v.y);
    DecodeI16OfBytes(v.z);
  }

  /** A burst has one sample that encodes to it, and decoding finds it. */
  lemma BurstDecodesUniquely(data: seq<u8>)
    requires |data| == 6
    ensures forall s :: EncodeBurst(s) == data ==> DecodeBurst(data) == s
  {
    forall s | EncodeBurst(s) == data
      ensures DecodeBurst(data) == s
    {
      DecodeEncodeBurst(s);
    }
  }

  /** The next read reply on `b`, cut or zero-padded to six bytes, is the
      encoding of sensor-frame sample `s`. */
  predicate NextBurstIs(b: Bus, s: Vec3)
  {
    EncodeBurst(s) == Fit(ReplyAt(b.script, b.replyAt).data, 6)
  }

  datatype RawRead = RawRead(res: Status, v: Vec3, bus: Bus)

  /** A raw read of a channel: the burst status, and the vehicle-frame
      sample decoded from whatever bytes the burst delivered. */
  method ReadRaw(b: Bus, ch: Channel) returns (r: RawRead)
    ensures Consumed(b, r.bus, 0, 1)
    ensures r.bus.trace == b.trace + [ReadTxn(ReadCommand(FirstRegister(ch)), BURST_LEN)]
    ensures r.res == Ok <==> ReplyAt(b.script, b.replyAt).ok
    ensures forall s :: NextBurstIs(b, s) ==> r.v == RotateToNed(s)
  {
    var burst := ReadMultiReg(b, FirstRegister(ch), BURST_LEN);
    BurstDecodesUniquely(burst.data);
    var sample := DecodeBurst(burst.data);
    r := RawRead(burst.res, RotateToNed(sample), burst.bus);
  }

  /** `mpu6000_gyr_read_raw`: the burst read starts at GYRO_XOUT_H. */
  method GyrReadRaw(b: Bus) returns (r: RawRead)
    ensures Consumed(b, r.bus, 0, 1)
    ensures r.bus.trace == b.trace + [ReadTxn(0xC3, 6)]
    ensures r.res == Ok <==> ReplyAt(b.script, b.replyAt).ok
    ensures forall s :: NextBurstIs(b, s) ==> r.v == RotateToNed(s)
  {
    r := ReadRaw(b, Gyro);
  }

  /** `mpu6000_acc_read_raw`: the burst read starts at ACCEL_XOUT_H. */
  method AccReadRaw(b: Bus) returns (r: RawRead)
    ensures Consumed(b, r.bus, 0, 1)
    ensures r.bus.trace == b.trace + [ReadTxn(0xBB, 6)]
    ensures r.res == Ok <==> ReplyAt(b.script, b.replyAt).ok
    ensures forall s :: NextBurstIs(b, s) ==> r.v == RotateToNed(s)
  {
    r := ReadRaw(b, Accel);
  }

  /** Element-wise product of a scale factor and a raw sample. */
  function Scale(k: real, v: Vec3): (r: Real3)
    ensures v == Vec3(0, 0, 0) || k == 0.0 ==> r == Real3(0.0, 0.0, 0.0)
    ensures k != 0.0 ==> r.x / k == v.x as real && r.y / k == v.y as real && r.z / k == v.z as real
  {
    Real3(k * (v.x as real), k * (v.y as real), k * (v.z as real))
  }

  datatype ScaledRead = ScaledRead(res: Status, s: Real3, bus: Bus)

  /** A scaled read: the raw read's status and bus effect, with the raw
      sample multiplied by `k`; the product is written whatever the status. */
  method ReadScaled(b: Bus, k: real, ch: Channel) returns (r: ScaledRead)
    ensures Consumed(b, r.bus, 0, 1)
    ensures r.bus.trace == b.trace + [ReadTxn(ReadCommand(FirstRegister(ch)), BURST_LEN)]
    ensures r.res == Ok <==> ReplyAt(b.script, b.replyAt).ok
    ensures forall s :: NextBurstIs(b, s) ==> r.s == Scale(k, RotateToNed(s))
  {
    var raw := ReadRaw(b, ch);
    r := ScaledRead(raw.res, Scale(k, raw.v), raw.bus);
  }

  /** `mpu6000_gyr_read_rad`: the raw gyro sample times the gyro scale. */
  method GyrReadRad(b: Bus, st: DriverState) returns (r: ScaledRead)
    ensures Consumed(b, r.bus, 0, 1)
    ensures r.res == Ok <==> ReplyAt(b.script, b.replyAt).ok
    ensures r.bus.trace == b.trace + [ReadTxn(0xC3, 6)]
    ensures forall s :: NextBurstIs(b, s) ==> r.s == Scale(st.gyroScale, RotateToNed(s))
  {
    r := ReadScaled(b, st.gyroScale, Gyro);
  }

  /** `mpu6000_acc_read_m_s2`: the raw accelerometer sample times the
      accelerometer scale. */
  method AccReadMs2(b: Bus, st: DriverState) returns (r: ScaledRead)
    ensures Consumed(b, r.bus, 0, 1)
    ensures r.res == Ok <==> ReplyAt(b.script, b.replyAt).ok
    ensures r.bus.trace == b.trace + [ReadTxn(0xBB, 6)]
    ensures forall s :: NextBurstIs(b, s) ==> r.s == Scale(st.accelScale, RotateToNed(s))
  {
    r := ReadScaled(b, st.accelScale, Accel);
  }

  /** At the 8 g scale of 4096 counts per g, the vehicle-frame sample
      (4096, -4096, 8192) reads exactly (1 g, -1 g, 2 g). */
  lemma ScaleAccelExample()
    ensures Scale(ONE_G / 4096.0, Vec3(4096, -4096, 8192)) == Real3(ONE_G, -ONE_G, 2.0 * ONE_G)
    ensures 2.0 * ONE_G == 19.6133
  {
  }
}
