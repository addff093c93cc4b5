/** The register protocol of the MPU6000: single-register writes and reads,
    burst reads, and the checked write that reads a register back after
    writing it. The direction of a transfer is carried by the top bit of
    the first byte sent: clear for a write, set for a read. */
module Registers {
  import opened Bytes
  import opened SpiBus

  const DIR_READ: u8 := 0x80
  const DIR_WRITE: u8 := 0x00

  const SMPLRT_DIV: u8 := 0x19
  const CONFIG: u8 := 0x1A
  const GYRO_CONFIG: u8 := 0x1B
  const ACCEL_CONFIG: u8 := 0x1C
  const INT_PIN_CFG: u8 := 0x37
  const INT_ENABLE: u8 := 0x38
  const ACCEL_XOUT_H: u8 := 0x3B
  const GYRO_XOUT_H: u8 := 0x43
  const USER_CTRL: u8 := 0x6A
  const PWR_MGMT_1: u8 := 0x6B
  const PRODUCT_ID: u8 := 0x0C

  /** The driver's `rt_err_t`: only success versus failure is ever inspected. */
  datatype Status = Ok | Error

  datatype Done = Done(res: Status, bus: Bus)
  datatype ByteRead = ByteRead(res: Status, val: u8, bus: Bus)
  datatype BurstRead = BurstRead(res: Status, data: seq<u8>, bus: Bus)

  /** The command byte that starts a read of `reg`, `reg | DIR_READ`:
      bit 7 set, the other bits kept. */
  function ReadCommand(reg: u8): u8
  {
    if reg < 0x80 then reg + 0x80 else reg
  }

  /** The read command is the bitwise OR of the address with the read
      direction bit, for every byte. */
  lemma ReadCommandIsOr(reg: u8)
    ensures ReadCommand(reg) == Or8(DIR_READ, reg)
  {
    Or8HighBit(reg);
  }

  /** The transactions of one checked write of `val` to `reg`. */
  function CheckedTxns(reg: u8, val: u8): seq<Txn>
  {
    [WriteTxn([reg, val]), ReadTxn(ReadCommand(reg), 1)]
  }

  /** Whether a checked write of `val`, answered by acknowledgement `i` and
      read reply `j` of the script, succeeds. */
  predicate CheckedOk(s: Script, i: nat, j: nat, val: u8)
  {
    AckAt(s, i) == 2 && ReplyAt(s, j).ok && FirstByte(ReplyAt(s, j)) == val
  }

  /** A write is the two-byte frame [reg, val]; it succeeds exactly when the
      device accepts both bytes. */
  method WriteReg(b: Bus, reg: u8, val: u8) returns (r: Done)
    ensures Consumed(b, r.bus, 1, 0)
    ensures r.bus.trace == b.trace + [WriteTxn([reg, val])]
    ensures r.res == Ok <==> AckAt(b.script, b.ackAt) == 2
  {
    Or8Zero(reg);
    var frame := [Or8(DIR_WRITE, reg), val];
    var s := Write(b, frame);
    r := Done(if s.count == |frame| then Ok else Error, s.bus);
  }

  /** A one-byte read: the status of the transfer and the byte received,
      which is delivered whether or not the transfer succeeded. */
  method ReadReg(b: Bus, reg: u8) returns (r: ByteRead)
    ensures Consumed(b, r.bus, 0, 1)
    ensures r.bus.trace == b.trace + [ReadTxn(ReadCommand(reg), 1)]
    ensures r.res == Ok <==> ReplyAt(b.script, b.replyAt).ok
    ensures r.val == FirstByte(ReplyAt(b.script, b.replyAt))
  {
    ReadCommandIsOr(reg);
    var rx := SendThenRecv(b, Or8(DIR_READ, reg), 1);
    r := ByteRead(if rx.ok then Ok else Error, rx.data[0], rx.bus);
  }

  /** A burst read of `len` consecutive registers starting at `reg`: the
      reply's bytes, cut or zero-padded to `len`, whatever the status. */
  method ReadMultiReg(b: Bus, reg: u8, len: u8) returns (r: BurstRead)
    ensures Consumed(b, r.bus, 0, 1)
    ensures r.bus.trace == b.trace + [ReadTxn(ReadCommand(reg), len)]
    ensures r.res == Ok <==> ReplyAt(b.script, b.replyAt).ok
    ensures r.data == Fit(ReplyAt(b.script, b.replyAt).data, len)
  {
    ReadCommandIsOr(reg);
    var rx := SendThenRecv(b, Or8(DIR_READ, reg), len);
    r := BurstRead(if rx.ok then Ok else Error, rx.data, rx.bus);
  }

  /** A write followed by a read-back of the same register. It succeeds
      exactly when the write was fully accepted, the read-back transfer
      succeeded and the byte read back is the byte written. */
  method WriteCheckedReg(b: Bus, reg: u8, val: u8) returns (r: Done)
    ensures Consumed(b, r.bus, 1, 1)
    ensures r.bus.trace == b.trace + CheckedTxns(reg, val)
    ensures r.res == Ok <==> CheckedOk(b.script, b.ackAt, b.replyAt, val)
  {
    var w := WriteReg(b, reg, val);
    var rd := ReadReg(w.bus, reg);
    var res := if w.res == Ok && rd.res == Ok then Ok else Error;
    if rd.val != val || res != Ok {
      return Done(Error, rd.bus);
    }
    r := Done(Ok, rd.bus);
  }
}
