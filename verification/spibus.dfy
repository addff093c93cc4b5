/** A scripted stand-in for the SPI device the driver talks to.

    The driver uses two bus primitives: a plain write (`rt_device_write`),
    which reports how many bytes were accepted, and a send-then-receive
    transaction (`rt_spi_send_then_recv`), which reports success or failure
    and fills a receive buffer. The scripted bus answers each primitive from
    its own queue, in order, and records every transaction it is asked to
    perform. A queue that has run dry answers a write with a count of 0 and
    a read with a failure whose buffer holds zero bytes. */
module SpiBus {
  import opened Bytes

  /** The answer to one send-then-receive transaction: its status and the
      bytes left in the receive buffer. On failure the bytes stand for the
      uninitialised buffer contents the driver copies anyway. */
  datatype ReadReply = ReadReply(ok: bool, data: seq<u8>)

  /** One transaction as issued by the driver. */
  datatype Txn =
    | WriteTxn(frame: seq<u8>)
    | ReadTxn(cmd: u8, len: nat)

  /** What the scripted device will answer: the queue of write
      acknowledgements (bytes accepted) and the queue of read replies. */
  datatype Script = Script(acks: seq<nat>, replies: seq<ReadReply>)

  /** The scripted device: its script, how far each queue has been
      consumed, and the transactions issued so far. */
  datatype Bus = Bus(script: Script, ackAt: nat, replyAt: nat, trace: seq<Txn>)

  /** The i-th write acknowledgement of the script. */
  function AckAt(s: Script, i: nat): nat
  {
    if i < |s.acks| then s.acks[i] else 0
  }

  /** The i-th read reply of the script. */
  function ReplyAt(s: Script, i: nat): ReadReply
  {
    if i < |s.replies| then s.replies[i] else ReadReply(false, [])
  }

  /** The first `len` bytes of `data`, padded with zero bytes. */
  function Fit(data: seq<u8>, len: nat): (r: seq<u8>)
    ensures |r| == len
    ensures forall i :: 0 <= i < len && i < |data| ==> r[i] == data[i]
    ensures forall i :: |data| <= i < len ==> r[i] == 0
  {
    if len <= |data| then data[..len] else data + seq(len - |data|, _ => 0)
  }

  /** The byte a one-byte read of this reply delivers. */
  function FirstByte(rep: ReadReply): (r: u8)
    ensures r == Fit(rep.data, 1)[0]
  {
    if |rep.data| == 0 then 0 else rep.data[0]
  }

  /** `b'` is `b` with `acks` more acknowledgements and `replies` more read
      replies consumed, and the same script. */
  predicate Consumed(b: Bus, b': Bus, acks: nat, replies: nat)
  {
    && b'.script == b.script
    && b'.ackAt == b.ackAt + acks
    && b'.replyAt == b.replyAt + replies
  }

  datatype Sent = Sent(count: nat, bus: Bus)

  /** A write of `frame`, answered by the next acknowledgement. */
  function Write(b: Bus, frame: seq<u8>): Sent
  {
    Sent(AckAt(b.script, b.ackAt), b.(ackAt := b.ackAt + 1, trace := b.trace + [WriteTxn(frame)]))
  }

  datatype Received = Received(ok: bool, data: seq<u8>, bus: Bus)

  /** Sends the command byte, then clocks in `len` bytes, answered by the
      next read reply. */
  function SendThenRecv(b: Bus, cmd: u8, len: nat): Received
  {
    var rep := ReplyAt(b.script, b.replyAt);
    Received(rep.ok, Fit(rep.data, len), b.(replyAt := b.replyAt + 1, trace := b.trace + [ReadTxn(cmd, len)]))
  }
}
