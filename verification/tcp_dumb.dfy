/**
  The module as a whole: the table shared by the control-write path and
  the ack path.

  `TcpDumb` is the imperative form, mirroring the C globals: a
  65536-element array filled by the load-time loop, written by `Write` and
  read by `Acked`. `Step` and `Run` are the functional form used to state
  properties of interleaved writes and hook calls on one connection.
 */
module Engine {
  import opened Words
  import opened CtlMsg
  import opened CwndTable
  import opened Control
  import opened Hooks

  class TcpDumb {
    /** `cwnd_table`. */
    const cwndTable: array<u16>

    /** `tcp_dumb_register`, minus the registration calls: fills every slot with the default. */
    constructor Register()
      ensures fresh(cwndTable)
      ensures cwndTable.Length == TableSize
      ensures cwndTable[..] == Initial()
    {
      var a := new u16[TableSize];
      var i := 0;
      while i < TableSize
        invariant 0 <= i <= TableSize
        invariant forall j :: 0 <= j < i ==> a[j] == DefaultCwnd
      {
        a[i] := DefaultCwnd;
        i := i + 1;
      }
      cwndTable := a;
    }

    /** `dumb_write` on the live table. */
    method Write(buf: seq<u8>) returns (ret: nat)
      requires cwndTable.Length == TableSize
      modifies cwndTable
      ensures ret == |buf|
      ensures cwndTable[..] == DumbWrite(old(cwndTable[..]), buf).table
    {
      if |buf| > MsgSize {
        // rejected: only a diagnostic is logged
      } else {
        var msg := Decode(ZeroFill(buf));
        cwndTable[msg.tcp.iport] := msg.cwnd;
      }
      ret := |buf|;
    }

    /** `dumb_acked` on the live table. */
    method Acked(c: Conn, sample: AckSample) returns (c': Conn)
      requires cwndTable.Length == TableSize
      ensures c'.sndCwnd as int == cwndTable[c.remotePort] as int
      ensures c' == DumbAcked(cwndTable[..], c, sample)
    {
      var cwnd := cwndTable[c.remotePort];
      c' := c.(sndCwnd := cwnd as int as u32);
    }
  }

  /** Something that happens to the module: a control write or a hook call. */
  datatype Event = Write(buf: seq<u8>) | Call(hook: Hook)

  /** The table and one connection using the algorithm. */
  datatype State = State(table: Table, conn: Conn)

  /** The connection's window is the one its port's slot holds. */
  predicate Pinned(s: State)
  {
    s.conn.sndCwnd as int == Get(s.table, s.conn.remotePort) as int
  }

  /** An accepted write to slot `port`. */
  predicate WritesPort(e: Event, port: u16)
  {
    e.Write? && Parse(e.buf).Apply? && Parse(e.buf).port == port
  }

  function Step(s: State, e: Event): (s': State)
    ensures e.Call? ==> s'.table == s.table
    ensures e.Write? ==> s'.conn == s.conn
  {
    match e
    case Write(buf) => State(DumbWrite(s.table, buf).table, s.conn)
    case Call(h) => State(s.table, Dispatch(s.table, s.conn, h).conn)
  }

  /** The state after the events of `es`, one after another. */
  function Run(s: State, es: seq<Event>): (s': State)
    ensures s'.conn.remotePort == s.conn.remotePort
    decreases |es|
  {
    if es == [] then s else Run(Step(s, es[0]), es[1..])
  }

  /** The table after applying only the control writes among `es`. */
  function ApplyWrites(t: Table, es: seq<Event>): (t': Table)
    decreases |es|
  {
    if es == [] then t
    else if es[0].Write? then ApplyWrites(DumbWrite(t, es[0].buf).table, es[1..])
    else ApplyWrites(t, es[1..])
  }

  /** The ack path never writes the table: it evolves by the control writes alone. */
  lemma {:induction false} RunTable(s: State, es: seq<Event>)
    ensures Run(s, es).table == ApplyWrites(s.table, es)
    decreases |es|
  {
    if es != [] {
      RunTable(Step(s, es[0]), es[1..]);
    }
  }

  /**
    The algorithm touches only the window: the threshold, the state the host
    drives and the remote port are never changed, and the window is either
    untouched or a table value, which fits in 16 bits.
   */
  lemma {:induction false} RunFrame(s: State, es: seq<Event>)
    ensures Run(s, es).conn.sndSsthresh == s.conn.sndSsthresh
    ensures Run(s, es).conn.caState == s.conn.caState
    ensures Run(s, es).conn.remotePort == s.conn.remotePort
    ensures Run(s, es).conn.sndCwnd == s.conn.sndCwnd || Run(s, es).conn.sndCwnd as int < TableSize
    decreases |es|
  {
    if es != [] {
      RunFrame(Step(s, es[0]), es[1..]);
    }
  }

  /** Every ack pins the window to the table. */
  lemma AckPins(s: State, sample: AckSample)
    ensures Pinned(Step(s, Call(PktsAcked(sample))))
  {
  }

  /** Once pinned, the window stays pinned until a write to the connection's own port. */
  lemma {:induction false} RunKeepsPinned(s: State, es: seq<Event>)
    requires Pinned(s)
    requires forall i :: 0 <= i < |es| ==> !WritesPort(es[i], s.conn.remotePort)
    ensures Pinned(Run(s, es))
    decreases |es|
  {
    if es != [] {
      var s1 := Step(s, es[0]);
      assert !WritesPort(es[0], s.conn.remotePort);
      assert Pinned(s1);
      RunKeepsPinned(s1, es[1..]);
    }
  }

  /** Conversely, a write that changes its slot unpins a window that was pinned to it. */
  lemma WriteUnpins(s: State, buf: seq<u8>)
    requires Pinned(s)
    requires Parse(buf).Apply? && Parse(buf).port == s.conn.remotePort
    requires Parse(buf).cwnd as int != s.conn.sndCwnd as int
    ensures !Pinned(Step(s, Write(buf)))
  {
  }

  /** The whole record lifecycle: init, ack at the default, override to 10, hooks, ack at 10. */
  lemma Scenario(ssthresh: u32, sample: AckSample)
    ensures
      var c0 := Conn(10000, ssthresh, Open, 5000);
      var s0 := State(Initial(), c0);
      var s1 := Step(s0, Call(PktsAcked(sample)));
      var s2 := Step(s1, Write(Encode(Msg(10, TcpTuple(0, 0, 0, 5000)))));
      var s3 := Run(s2, [Call(CongAvoid(1, 1)), Call(SetState(Loss)), Call(Init)]);
      var s4 := Step(s3, Call(PktsAcked(sample)));
      && s1.conn.sndCwnd == 42
      && s3.conn == s1.conn
      && s4.conn.sndCwnd == 10
      && Dispatch(s4.table, s4.conn, Ssthresh).ret == Some(ssthresh)
      && Dispatch(s4.table, s4.conn, UndoCwnd).ret == Some(10)
  {
  }

  /**
    Once unpinned, the window stays stale through any events that hold no
    ack and no further write to the connection's own port.
   */
  lemma {:induction false} RunKeepsStale(s: State, es: seq<Event>)
    requires !Pinned(s)
    requires forall i :: 0 <= i < |es| ==> !WritesPort(es[i], s.conn.remotePort)
    requires forall i :: 0 <= i < |es| ==> !(es[i].Call? && es[i].hook.PktsAcked?)
    ensures !Pinned(Run(s, es))
    decreases |es|
  {
    if es != [] {
      var s1 := Step(s, es[0]);
      assert !WritesPort(es[0], s.conn.remotePort);
      assert !Pinned(s1);
      RunKeepsStale(s1, es[1..]);
    }
  }

  /**
    The module's life in the imperative form: load, ack at the default 42,
    pin port 5000 to 10 through the proc file, ack at 10.
   */
  method Lifecycle(c: Conn, sample: AckSample) returns (first: Conn, second: Conn)
    requires c.remotePort == 5000
    ensures first.sndCwnd == 42 && second.sndCwnd == 10
    ensures second.sndSsthresh == c.sndSsthresh && second.remotePort == c.remotePort
  {
    var m := new TcpDumb.Register();
    first := m.Acked(c, sample);
    var buf := Encode(Msg(10, TcpTuple(0, 0, 0, 5000)));
    var n := m.Write(buf);
    second := m.Acked(first, sample);
  }
}
