/**
  The six operations of the `tcp_dumb` congestion-control algorithm.

  Only the per-ack hook does anything: it overwrites the connection's
  `snd_cwnd` with the window the table holds for the connection's remote
  port. The others leave the connection alone and return the current
  threshold or window where the host asks for a value.
 */
module Hooks {
  import opened Words
  import opened CwndTable

  /** The host's congestion-avoidance states (`TCP_CA_*`); the host drives them. */
  datatype CaState = Open | Disorder | Cwr | Recovery | Loss

  /**
    The part of `struct tcp_sock` the algorithm sees. `remotePort` is the raw
    `sin_port` of the peer address, used unchanged as a table index.
   */
  datatype Conn = Conn(sndCwnd: u32, sndSsthresh: u32, caState: CaState, remotePort: u16)

  /** `struct ack_sample`, passed to `dumb_acked`; none of its fields is read. */
  datatype AckSample = AckSample

  /** A call the host makes through `struct tcp_congestion_ops`. */
  datatype Hook =
    | Init                              // .init       = dumb_init
    | Ssthresh                          // .ssthresh   = dumb_ssthresh
    | CongAvoid(ack: u32, acked: u32)   // .cong_avoid = dumb_cong_avoid
    | SetState(newState: CaState)       // .set_state  = dumb_state
    | UndoCwnd                          // .undo_cwnd  = dumb_undo_cwnd
    | PktsAcked(sample: AckSample)      // .pkts_acked = dumb_acked

  /** A hook's return value, for the hooks that return one. */
  datatype Option<T> = None | Some(value: T)

  /** The connection after a hook, and the `u32` it returned if it returns one. */
  datatype HookResult = HookResult(conn: Conn, ret: Option<u32>)

  /** `dumb_acked`: `snd_cwnd = cwnd_table[remote port]`, widened from `u16`. */
  function DumbAcked(t: Table, c: Conn, sample: AckSample): (c': Conn)
    ensures c'.sndCwnd as int == Get(t, c.remotePort) as int
    ensures c'.sndCwnd as int < TableSize
    ensures c'.sndSsthresh == c.sndSsthresh && c'.caState == c.caState
    ensures c'.remotePort == c.remotePort
  {
    c.(sndCwnd := Get(t, c.remotePort) as int as u32)
  }

  /**
    One call through the operations table `tcp_dumb`. Five of the six
    callbacks leave the connection alone; `dumb_ssthresh` and
    `dumb_undo_cwnd` hand back the current threshold and window.
   */
  function Dispatch(t: Table, c: Conn, h: Hook): (r: HookResult)
    ensures !h.PktsAcked? ==> r.conn == c
    ensures h.PktsAcked? ==> r.conn.sndCwnd as int == Get(t, c.remotePort) as int
    ensures r.conn.sndSsthresh == c.sndSsthresh && r.conn.caState == c.caState
    ensures r.conn.remotePort == c.remotePort
    ensures r.ret.Some? <==> h.Ssthresh? || h.UndoCwnd?
    ensures h.Ssthresh? ==> r.ret == Some(c.sndSsthresh)
    ensures h.UndoCwnd? ==> r.ret == Some(c.sndCwnd)
  {
    match h
    // dumb_init: does not seed a window
    case Init => HookResult(c, None)
    // dumb_ssthresh: keeps the host's slow-start threshold
    case Ssthresh => HookResult(c, Some(c.sndSsthresh))
    // dumb_cong_avoid: no additive increase
    case CongAvoid(_, _) => HookResult(c, None)
    // dumb_state: ignores state changes
    case SetState(_) => HookResult(c, None)
    // dumb_undo_cwnd: the window to restore after a spurious loss is the current one
    case UndoCwnd => HookResult(c, Some(c.sndCwnd))
    case PktsAcked(sample) => HookResult(DumbAcked(t, c, sample), None)
  }
}
