/** What is left of a command once its text is resolved, and the messages of the
    control channel. */
module Commands {
  import opened NetStats

  datatype Kind = Ping | Unicast | Multicast

  /** Interval and wait are in microseconds, timeout in milliseconds. */
  datatype Command = Command(id: nat, kind: Kind, count: int, interval: int, wait: int, size: nat, timeout: int, token: char)

  const HEAD_SIZE: nat := 16  // sizeof(DataHead)

  /** The packets a command asks for: none when its count is not positive. */
  function Wanted(c: Command): nat { if c.count < 0 then 0 else c.count }

  /** A command after which the next one begins cleanly. A ping below one may leave a
      write bit behind that lets the next command send too early, see
      Peers.EmptyPing and Peers.StaleWriteBit. */
  predicate Pushable(c: Command) { c.kind.Ping? ==> c.count >= 1 }

  /** The length of the buffer of a sender: at least a head. */
  function BufferSize(c: Command): nat { if c.size < HEAD_SIZE then HEAD_SIZE else c.size }

  /** Garbled stands for what is read when several messages are in the stream. */
  datatype Message = Cookie | Main(cmd: Command) | Ack | Stop | Result(stat: NetStat) | Garbled

  predicate IsPrivate(m: Message) { m.Ack? || m.Stop? || m.Result? }

  /** The control channel is a stream without frames: a read takes all there is,
      and is one message only if one is there. */
  function ReadAll(stream: seq<Message>): Message { if |stream| == 1 then stream[0] else Garbled }
}
