/**
  The proc-file write handler `dumb_write`.

  A write longer than the record is rejected (the table is untouched) and a
  write of at most 16 bytes is copied over a zero-filled record whose `cwnd`
  is stored at slot `iport`. Either way the handler reports the whole
  `count` as consumed.
 */
module Control {
  import opened Words
  import opened CtlMsg
  import opened CwndTable

  /** What a write asks of the table. */
  datatype Decision =
    | Apply(port: u16, cwnd: u16)   // store `cwnd` at slot `port`
    | InputTooLarge(count: nat)     // longer than the record: logged and dropped

  /** The outcome of `dumb_write`: the new table and the value returned to the writer. */
  datatype WriteResult = WriteResult(table: Table, ret: nat)

  /**
    Reads the update out of the written bytes. Bytes past the end of a short
    write read as zero, so a field the write does not reach is zero and a
    field it reaches half-way reads its missing byte as zero.
   */
  function Parse(buf: seq<u8>): (d: Decision)
    ensures d.InputTooLarge? <==> |buf| > MsgSize
    ensures d.InputTooLarge? ==> d.count == |buf|
    ensures d.Apply? && |buf| >= CwndOffset + 2 ==> EncodeU16(d.cwnd) == buf[CwndOffset..CwndOffset + 2]
    ensures d.Apply? && |buf| == CwndOffset + 1 ==> EncodeU16(d.cwnd) == [buf[CwndOffset], 0]
    ensures d.Apply? && |buf| <= CwndOffset ==> d.cwnd == 0
    ensures d.Apply? && |buf| >= IportOffset + 2 ==> EncodeU16(d.port) == buf[IportOffset..IportOffset + 2]
    ensures d.Apply? && |buf| == IportOffset + 1 ==> EncodeU16(d.port) == [buf[IportOffset], 0]
    ensures d.Apply? && |buf| <= IportOffset ==> d.port == 0
  {
    if |buf| > MsgSize then
      InputTooLarge(|buf|)
    else
      var scratch := ZeroFill(buf);
      var msg := Decode(scratch);
      assert scratch[CwndOffset..CwndOffset + 2] == [scratch[0], scratch[1]];
      assert scratch[IportOffset..IportOffset + 2] == [scratch[14], scratch[15]];
      assert |buf| >= 2 ==> buf[CwndOffset..CwndOffset + 2] == [scratch[0], scratch[1]];
      assert |buf| == 16 ==> buf[IportOffset..IportOffset + 2] == [scratch[14], scratch[15]];
      assert |buf| == 1 ==> scratch[1] == 0;
      assert |buf| == 15 ==> scratch[15] == 0;
      Apply(msg.tcp.iport, msg.cwnd)
  }

  /** `dumb_write(filp, buf, count, offp)` with `count == |buf|`. */
  function DumbWrite(t: Table, buf: seq<u8>): (r: WriteResult)
    ensures r.ret == |buf|
    ensures |buf| > MsgSize ==> r.table == t
    ensures |buf| <= MsgSize ==>
              && Get(r.table, Parse(buf).port) == Parse(buf).cwnd
              && forall q: u16 :: q != Parse(buf).port ==> Get(r.table, q) == Get(t, q)
  {
    match Parse(buf)
    case InputTooLarge(count) => WriteResult(t, count)
    case Apply(port, cwnd) => WriteResult(Set(t, port, cwnd), |buf|)
  }

  /** Writing a whole encoded record pins its `cwnd` at its `iport` and nothing else. */
  lemma WriteRecord(t: Table, m: Msg)
    ensures DumbWrite(t, Encode(m)) == WriteResult(Set(t, m.tcp.iport, m.cwnd), MsgSize)
  {
  }

  /**
    Records that agree on `cwnd` and `iport` have the same effect: the
    addresses and the local port are captured but never used, so connections
    sharing a remote port share one slot.
   */
  lemma WriteIgnoresUnusedFields(t: Table, m1: Msg, m2: Msg)
    requires m1.cwnd == m2.cwnd && m1.tcp.iport == m2.tcp.iport
    ensures DumbWrite(t, Encode(m1)) == DumbWrite(t, Encode(m2))
  {
  }

  /** An empty write is accepted and sets slot 0 to window 0. */
  lemma WriteEmpty(t: Table)
    ensures DumbWrite(t, []) == WriteResult(Set(t, 0, 0), 0)
  {
  }

  /** A write that stops before `iport` always lands in slot 0. */
  lemma WriteShortOfPort(t: Table, buf: seq<u8>)
    requires |buf| <= IportOffset
    ensures Parse(buf).Apply?
    ensures DumbWrite(t, buf).table == Set(t, 0, Parse(buf).cwnd)
  {
  }

  /** A rejected write changes nothing yet still reports all of `count` consumed. */
  lemma WriteTooLarge(t: Table, buf: seq<u8>)
    requires |buf| > MsgSize
    ensures DumbWrite(t, buf) == WriteResult(t, |buf|)
  {
  }

  /** Repeating a write has no further effect. */
  lemma WriteIdempotent(t: Table, buf: seq<u8>)
    ensures DumbWrite(DumbWrite(t, buf).table, buf) == DumbWrite(t, buf)
  {
  }

  /** Of two accepted writes to the same port, only the later one is visible. */
  lemma WriteLastWins(t: Table, b1: seq<u8>, b2: seq<u8>)
    requires |b1| <= MsgSize && |b2| <= MsgSize
    requires Parse(b1).port == Parse(b2).port
    ensures DumbWrite(DumbWrite(t, b1).table, b2).table == DumbWrite(t, b2).table
  {
  }

  /** Writes aimed at different ports may be applied in either order. */
  lemma WritesCommute(t: Table, b1: seq<u8>, b2: seq<u8>)
    requires Parse(b1).Apply? ==> Parse(b2).Apply? ==> Parse(b1).port != Parse(b2).port
    ensures DumbWrite(DumbWrite(t, b1).table, b2).table == DumbWrite(DumbWrite(t, b2).table, b1).table
  {
  }
}
