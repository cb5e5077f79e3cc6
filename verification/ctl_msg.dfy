/**
  The control record written to the `tcp_dumb` proc file: `struct ctl_msg`
  holding a window and a `struct tcp_tuple`.

  Under natural alignment the record is 16 bytes: `cwnd` at 0, two bytes of
  padding, then `saddr`, `iaddr`, `sport` and `iport`. Only `cwnd` and `iport`
  are ever read by the module; the other tuple fields are decoded and unused.
 */
module CtlMsg {
  import opened Words

  /** `sizeof(struct ctl_msg)`. */
  const MsgSize: nat := 16

  const CwndOffset: nat := 0
  const PadOffset: nat := 2
  const SaddrOffset: nat := 4
  const IaddrOffset: nat := 8
  const SportOffset: nat := 12
  const IportOffset: nat := 14

  /** `struct tcp_tuple`: addresses and ports of one connection. */
  datatype TcpTuple = TcpTuple(saddr: u32, iaddr: u32, sport: u16, iport: u16)

  /** `struct ctl_msg`: the window to pin and the connection it is meant for. */
  datatype Msg = Msg(cwnd: u16, tcp: TcpTuple)

  /** The two alignment bytes between `cwnd` and the tuple are zero. */
  predicate PaddingZero(raw: seq<u8>)
    requires |raw| == MsgSize
  {
    raw[PadOffset] == 0 && raw[PadOffset + 1] == 0
  }

  /** Reads a whole record out of its 16 bytes. */
  function Decode(raw: seq<u8>): (m: Msg)
    requires |raw| == MsgSize
    ensures EncodeU16(m.cwnd) == raw[CwndOffset..CwndOffset + 2]
    ensures EncodeU32(m.tcp.saddr) == raw[SaddrOffset..SaddrOffset + 4]
    ensures EncodeU32(m.tcp.iaddr) == raw[IaddrOffset..IaddrOffset + 4]
    ensures EncodeU16(m.tcp.sport) == raw[SportOffset..SportOffset + 2]
    ensures EncodeU16(m.tcp.iport) == raw[IportOffset..IportOffset + 2]
  {
    Msg(DecodeU16(raw, CwndOffset),
        TcpTuple(DecodeU32(raw, SaddrOffset), DecodeU32(raw, IaddrOffset),
                 DecodeU16(raw, SportOffset), DecodeU16(raw, IportOffset)))
  }

  /** Lays a record out in memory, padding bytes zero. */
  function Encode(m: Msg): (raw: seq<u8>)
    ensures |raw| == MsgSize && PaddingZero(raw)
    ensures Decode(raw) == m
  {
    var raw := EncodeU16(m.cwnd) + [0, 0] + EncodeU32(m.tcp.saddr) + EncodeU32(m.tcp.iaddr)
               + EncodeU16(m.tcp.sport) + EncodeU16(m.tcp.iport);
    assert raw[CwndOffset..CwndOffset + 2] == EncodeU16(m.cwnd);
    assert raw[SaddrOffset..SaddrOffset + 4] == EncodeU32(m.tcp.saddr);
    assert raw[IaddrOffset..IaddrOffset + 4] == EncodeU32(m.tcp.iaddr);
    assert raw[SportOffset..SportOffset + 2] == EncodeU16(m.tcp.sport);
    assert raw[IportOffset..IportOffset + 2] == EncodeU16(m.tcp.iport);
    DecodeEncodeU16(m.cwnd, raw, CwndOffset);
    DecodeEncodeU32(m.tcp.saddr, raw, SaddrOffset);
    DecodeEncodeU32(m.tcp.iaddr, raw, IaddrOffset);
    DecodeEncodeU16(m.tcp.sport, raw, SportOffset);
    DecodeEncodeU16(m.tcp.iport, raw, IportOffset);
    raw
  }

  /** Every 16-byte image with zero padding is the encoding of the record it decodes to. */
  lemma EncodeDecode(raw: seq<u8>)
    requires |raw| == MsgSize && PaddingZero(raw)
    ensures Encode(Decode(raw)) == raw
  {
  }

  /**
    The scratch record of `dumb_write`: zero-filled, then the `|buf|` written
    bytes copied over its head.
   */
  function ZeroFill(buf: seq<u8>): (scratch: seq<u8>)
    requires |buf| <= MsgSize
    ensures |scratch| == MsgSize
    ensures scratch[..|buf|] == buf
    ensures forall i :: |buf| <= i < MsgSize ==> scratch[i] == 0
  {
    buf + seq(MsgSize - |buf|, _ => 0)
  }
}
