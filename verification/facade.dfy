/** The device interface the driver registers: `read`, which dispatches on
    a position selector to one of the four measurement reads, and
    `control`, which accepts no command. */
module Facade {
  import opened Bytes
  import opened SpiBus
  import opened Registers
  import opened Config
  import opened Measurement

  /** The four selector values `read` recognises: raw gyro, scaled gyro,
      raw accelerometer and scaled accelerometer. Their numeric values are
      defined outside the driver, so the model takes them as a parameter. */
  datatype Positions = Positions(gyrRaw: int, gyrScaled: int, accRaw: int, accScaled: int)

  predicate IsSelector(p: Positions, pos: int)
  {
    pos == p.gyrRaw || pos == p.gyrScaled || pos == p.accRaw || pos == p.accScaled
  }

  /** What `read` leaves in the caller's buffer. */
  datatype Payload = Untouched | RawSample(v: Vec3) | ScaledSample(s: Real3)

  datatype ReadResult = ReadResult(count: nat, payload: Payload, bus: Bus)

  /** `mpu6000_read`: the selectors are tested in the order raw gyro,
      scaled gyro, raw accelerometer, scaled accelerometer. A recognised
      selector performs one burst read and fills the buffer whatever the
      read's status; the result is `size` when the read succeeds and 0
      otherwise. An unknown selector touches neither bus nor buffer and
      returns 0. */
  method Read(b: Bus, st: DriverState, p: Positions, pos: int, size: nat) returns (r: ReadResult)
    ensures !IsSelector(p, pos) ==> r == ReadResult(0, Untouched, b)
    ensures IsSelector(p, pos) ==> Consumed(b, r.bus, 0, 1)
    ensures IsSelector(p, pos) && ReplyAt(b.script, b.replyAt).ok ==> r.count == size
    ensures IsSelector(p, pos) && !ReplyAt(b.script, b.replyAt).ok ==> r.count == 0
    ensures pos == p.gyrRaw ==>
      && r.bus.trace == b.trace + [ReadTxn(0xC3, 6)]
      && forall s :: NextBurstIs(b, s) ==> r.payload == RawSample(RotateToNed(s))
    ensures pos != p.gyrRaw && pos == p.gyrScaled ==>
      && r.bus.trace == b.trace + [ReadTxn(0xC3, 6)]
      && forall s :: NextBurstIs(b, s) ==> r.payload == ScaledSample(Scale(st.gyroScale, RotateToNed(s)))
    ensures pos != p.gyrRaw && pos != p.gyrScaled && pos == p.accRaw ==>
      && r.bus.trace == b.trace + [ReadTxn(0xBB, 6)]
      && forall s :: NextBurstIs(b, s) ==> r.payload == RawSample(RotateToNed(s))
    ensures pos != p.gyrRaw && pos != p.gyrScaled && pos != p.accRaw && pos == p.accScaled ==>
      && r.bus.trace == b.trace + [ReadTxn(0xBB, 6)]
      && forall s :: NextBurstIs(b, s) ==> r.payload == ScaledSample(Scale(st.accelScale, RotateToNed(s)))
  {
    if pos == p.gyrRaw {
      var raw := GyrReadRaw(b);
      r := ReadResult(if raw.res != Ok then 0 else size, RawSample(raw.v), raw.bus);
    } else if pos == p.gyrScaled {
      var scaled := GyrReadRad(b, st);
      r := ReadResult(if scaled.res != Ok then 0 else size, ScaledSample(scaled.s), scaled.bus);
    } else if pos == p.accRaw {
      var raw := AccReadRaw(b);
      r := ReadResult(if raw.res != Ok then 0 else size, RawSample(raw.v), raw.bus);
    } else if pos == p.accScaled {
      var scaled := AccReadMs2(b, st);
      r := ReadResult(if scaled.res != Ok then 0 else size, ScaledSample(scaled.s), scaled.bus);
    } else {
      r := ReadResult(0, Untouched, b);
    }
  }

  /** `mpu6000_control`: the command switch has only a default branch, so
      every command is refused. */
  function Control(cmd: u8): (r: Status)
    ensures r != Ok
  {
    Error
  }
}
