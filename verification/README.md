# tcp_dumb: per-port congestion-window override, in Dafny

`tcp_dumb` is a Linux congestion-control module that lets an operator pin
the congestion window of TCP connections by remote port. It keeps a table
`cwnd_table` of 65536 `u16` windows, one per port, filled with 42 when the
module loads. A proc-file write handler (`dumb_write`) decodes a fixed
`struct ctl_msg` record and stores its `cwnd` at slot `iport`. The
congestion hook `dumb_acked` runs on every acknowledgment and overwrites the
connection's `snd_cwnd` with the table entry for the connection's remote
port. The other five hooks are no-ops or return the host's current values.

Modules:

- `Words` (`words.dfy`): `u8`/`u16`/`u32` and the host byte order. The
  code does not fix the byte order; the model takes little-endian and keeps
  it behind `DecodeU16`/`DecodeU32` and their inverses.
- `CtlMsg` (`ctl_msg.dfy`): `struct tcp_tuple` and `struct ctl_msg`, and
  the 16-byte layout with its named offsets. It also holds encoding,
  decoding and the zero-filled scratch record of `dumb_write`.
- `CwndTable` (`cwnd_table.dfy`): the table as a value of exactly 65536
  windows. The port type is `u16`, so `Get`/`Set` need no bounds
  precondition.
- `Control` (`control.dfy`): `dumb_write` and its properties.
- `Hooks` (`hooks.dfy`): the six `tcp_congestion_ops` callbacks on an
  immutable connection record.
- `Engine` (`tcp_dumb.dfy`): the class `TcpDumb`, whose array is filled by
  the load-time loop and then written and read by the two paths. It also
  has a functional trace model (`Step`/`Run`) for interleaved writes and
  hook calls.

The record is 16 bytes. `dumb_write` compares `count` against
`sizeof(struct ctl_msg)`, and under natural alignment that is 16 bytes:
`cwnd` at 0, two padding bytes, `saddr` at 4, `iaddr` at 8, `sport` at 12
and `iport` at 14. Any write of at most 14 bytes never reaches `iport` and
so always updates slot 0 (`Control.WriteShortOfPort`).

## Model

| member | source | states |
|---|---|---|
| Words.DecodeU16 | src/lkm/tcp_dumb/tcp_dumb.c:42-43 | a `u16` field read in host order is the word whose encoding is exactly the two bytes at the offset |
| Words.DecodeU32 | src/lkm/tcp_dumb/tcp_dumb.c:17-19 | a `u32` field read in host order is the word whose encoding is exactly the four bytes at the offset |
| CtlMsg.Decode | src/lkm/tcp_dumb/tcp_dumb.c:17-27 | each decoded field of `ctl_msg` re-encodes to the bytes at that field's offset in the 16-byte layout |
| CtlMsg.Encode | src/lkm/tcp_dumb/tcp_dumb.c:17-27 | a record laid out in memory is 16 bytes with zero padding and decodes back to the same record |
| CtlMsg.EncodeDecode | src/lkm/tcp_dumb/tcp_dumb.c:17-27 | every 16-byte image with zero padding is the encoding of the record it decodes to, so the two directions are inverse |
| CtlMsg.ZeroFill | src/lkm/tcp_dumb/tcp_dumb.c:36-41 | the scratch record is 16 bytes, begins with the written bytes and is zero past them |
| CwndTable.Initial | src/lkm/tcp_dumb/tcp_dumb.c:119-121 | after initialisation every port's slot holds the default window 42 |
| CwndTable.Get | src/lkm/tcp_dumb/tcp_dumb.c:94 | every `u16` port is a valid index into the 65536-slot table, so the read `cwnd_table[port]` needs no bounds check and returns that slot's window |
| CwndTable.Extensionality | src/lkm/tcp_dumb/tcp_dumb.c:14 | two tables that read the same window at every port are the same table |
| CwndTable.Set | src/lkm/tcp_dumb/tcp_dumb.c:44 | a store makes the slot read back the stored window and leaves every other slot as it was |
| CwndTable.SetSetSame | src/lkm/tcp_dumb/tcp_dumb.c:44 | of two stores to one slot only the later one remains |
| CwndTable.SetSetCommute | src/lkm/tcp_dumb/tcp_dumb.c:44 | stores to different slots can be applied in either order |
| CwndTable.SetGet | src/lkm/tcp_dumb/tcp_dumb.c:44 | storing the value a slot already holds leaves the table unchanged |
| Control.Parse | src/lkm/tcp_dumb/tcp_dumb.c:36-43 | a write is rejected exactly when it is longer than 16 bytes; otherwise the window is the first two written bytes and the port the bytes at 14-15, with every byte beyond the write read as zero |
| Control.DumbWrite | src/lkm/tcp_dumb/tcp_dumb.c:30-47 | the handler returns `count`; a too-long write leaves the table alone; an accepted one stores the parsed window at the parsed port and nothing else |
| Control.WriteRecord | src/lkm/tcp_dumb/tcp_dumb.c:36-46 | writing a whole encoded record stores its `cwnd` at its `iport`, returns 16, and changes no other slot |
| Control.WriteIgnoresUnusedFields | src/lkm/tcp_dumb/tcp_dumb.c:42-44 | two records that agree on `cwnd` and `iport` have the same effect whatever their addresses and local port |
| Control.WriteEmpty | src/lkm/tcp_dumb/tcp_dumb.c:36-46 | a zero-length write sets slot 0 to window 0 and returns 0 |
| Control.WriteShortOfPort | src/lkm/tcp_dumb/tcp_dumb.c:36-44 | a write of at most 14 bytes is accepted and updates slot 0 |
| Control.WriteTooLarge | src/lkm/tcp_dumb/tcp_dumb.c:37-39 | a write longer than the record leaves the table unchanged and still returns its full length |
| Control.WriteIdempotent | src/lkm/tcp_dumb/tcp_dumb.c:41-46 | repeating a write changes nothing further |
| Control.WriteLastWins | src/lkm/tcp_dumb/tcp_dumb.c:44 | of two accepted writes to the same port, the table ends as if only the second had happened |
| Control.WritesCommute | src/lkm/tcp_dumb/tcp_dumb.c:44 | writes that do not both hit the same port can be applied in either order |
| Hooks.DumbAcked | src/lkm/tcp_dumb/tcp_dumb.c:86-97 | after an ack the window equals the table entry for the remote port, so it is below 65536; threshold, state and port are unchanged |
| Hooks.Dispatch | src/lkm/tcp_dumb/tcp_dumb.c:51-73 | `dumb_init` (51-53), `dumb_cong_avoid` (61-63) and `dumb_state` (65-67) return the connection unchanged and nothing; `dumb_ssthresh` (55-59) returns the current threshold and `dumb_undo_cwnd` (69-73) the current window, both without change; only `pkts_acked` changes the window, to the table entry for the remote port |
| Engine.TcpDumb.Register | src/lkm/tcp_dumb/tcp_dumb.c:115-121 | the load-time loop leaves a freshly allocated array, owned by the module, of exactly 65536 slots each holding the default window 42, equal to `CwndTable.Initial()` |
| Engine.TcpDumb.Write | src/lkm/tcp_dumb/tcp_dumb.c:30-47 | the array handler returns `count` and leaves the array exactly as the functional `DumbWrite` does |
| Engine.TcpDumb.Acked | src/lkm/tcp_dumb/tcp_dumb.c:86-95 | the new window is the array entry at the connection's remote port, as in `DumbAcked` |
| Engine.RunTable | src/lkm/tcp_dumb/tcp_dumb.c:44 | over any interleaving of writes and hook calls the table evolves by the writes alone; the hooks never store into it |
| Engine.RunFrame | src/lkm/tcp_dumb/tcp_dumb.c:51-97 | over any interleaving the threshold, state and remote port are never changed, and the window is either untouched or below 65536 |
| Engine.AckPins | src/lkm/tcp_dumb/tcp_dumb.c:92-95 | after every ack the window equals the table entry for the connection's port |
| Engine.RunKeepsPinned | src/lkm/tcp_dumb/tcp_dumb.c:44 | a pinned window stays equal to its slot through any events that include no accepted write to that port |
| Engine.WriteUnpins | src/lkm/tcp_dumb/tcp_dumb.c:44 | right after a write that changes its slot, a window that was pinned to that slot no longer matches it |
| Engine.Scenario | src/lkm/tcp_dumb/tcp_dumb.c:51-97 | from a fresh table an ack sets the window to 42; after writing window 10 for port 5000, the no-op hooks change nothing, the next ack sets 10, ssthresh returns the untouched threshold and undo_cwnd returns 10 |
| Engine.RunKeepsStale | src/lkm/tcp_dumb/tcp_dumb.c:44 | a window that no longer matches its slot stays stale through any events with no ack and no accepted write to the connection's port |
| Engine.Lifecycle | src/lkm/tcp_dumb/tcp_dumb.c:30-97 | on one module instance, load then ack gives window 42, a proc write of window 10 for port 5000 then an ack gives 10, and the threshold and port are untouched |

## Left out

- Module registration, the proc file and its permissions
  (`tcp_register_congestion_control`, `proc_create`, `remove_proc_entry`,
  `tcp_dumb_unregister`, the `tcp_congestion_ops` and `file_operations`
  initialisers): host glue. `Hooks.Dispatch` stands for the operations table.
- `printk` diagnostics in `dumb_write` and `dumb_acked`: logging only.
- `copy_from_user` is a plain copy of the written bytes. Its return value,
  which the code ignores, and faults on the user pointer are not modelled.
- `get_tcp_tuple`/`addr2sockaddr`: the connection record carries the peer's
  raw `sin_port` as `remotePort`. The network-versus-host byte order of that
  port is not modelled; both paths use it as the same opaque `u16`.
- Control.DumbWrite: `count` is the length of the written buffer (a `nat`).
  The conversion of `size_t` to the `ssize_t` return value is not modelled;
  the kernel caps write sizes far below where that conversion could wrap.
- Concurrency between the write path and the ack path, and the atomicity of
  a single `u16` slot: the model runs operations one after another on one
  table.
- The trace model follows one connection. Other connections interact with
  it only through the shared table, and the table's evolution does not
  depend on any connection (`Engine.RunTable`).
- The host's own congestion state machine: state transitions, and the use
  the host makes of the values returned by `ssthresh` and `undo_cwnd`.
- src/cleaner/cleaner.cc: an unrelated directory-pruning tool that walks the
  filesystem and reads clocks.
