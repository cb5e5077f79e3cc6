/**
  The override table `cwnd_table`: one `u16` window per possible port,
  filled with the default window when the module loads.

  The table is indexed by a `u16` and has exactly 2^16 slots, so every
  port is a valid index and no bounds check is needed on either path.
 */
module CwndTable {
  import opened Words

  /** `TABLE_SIZE`: one slot per 16-bit port. */
  const TableSize: nat := 0x1_0000

  /** `default_cwnd`. */
  const DefaultCwnd: u16 := 42

  /** A table value always covers the whole port space. */
  type Table = t: seq<u16> | |t| == TableSize witness seq(0x1_0000, _ => 0)

  /** The table as left by the initialisation loop of `tcp_dumb_register`. */
  function Initial(): (t: Table)
    ensures forall p: u16 :: Get(t, p) == DefaultCwnd
  {
    seq(TableSize, _ => DefaultCwnd)
  }

  /** The window stored for `port`; it exists for every port. */
  function Get(t: Table, port: u16): (w: u16)
    ensures 0 <= port as int < |t|
    ensures w == t[port as int]
  {
    t[port]
  }

  /** Overwrites one slot, `cwnd_table[port] = w`. */
  function Set(t: Table, port: u16, w: u16): (t': Table)
    ensures Get(t', port) == w
    ensures forall q: u16 :: q != port ==> Get(t', q) == Get(t, q)
  {
    t[port := w]
  }

  /** Two tables are equal when every port reads the same window from both. */
  lemma Extensionality(t: Table, t': Table)
    requires forall p: u16 :: Get(t, p) == Get(t', p)
    ensures t == t'
  {
    forall i | 0 <= i < TableSize
      ensures t[i] == t'[i]
    {
      assert Get(t, i as u16) == Get(t', i as u16);
    }
  }

  /** The last of two writes to one slot is the one that stays. */
  lemma SetSetSame(t: Table, port: u16, w1: u16, w2: u16)
    ensures Set(Set(t, port, w1), port, w2) == Set(t, port, w2)
  {
  }

  /** Writes to different slots commute. */
  lemma SetSetCommute(t: Table, p1: u16, w1: u16, p2: u16, w2: u16)
    requires p1 != p2
    ensures Set(Set(t, p1, w1), p2, w2) == Set(Set(t, p2, w2), p1, w1)
  {
  }

  /** Writing back the value a slot already holds changes nothing. */
  lemma SetGet(t: Table, port: u16)
    ensures Set(t, port, Get(t, port)) == t
  {
  }
}
