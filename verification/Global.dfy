/** Constants and common types (inc/global.h, inc/tju_packet.h, inc/kernel.h). */
module Global {

  type byte = x: int | 0 <= x < 0x100
  type uint16 = x: int | 0 <= x < 0x1_0000
  type uint32 = x: int | 0 <= x < 0x1_0000_0000

  const MAX_DLEN := 1375
  const MAX_LEN := 1400
  const MAX_SWINDOW_SIZE := 32 * 1375
  const MAX_RWINDOW_SIZE := 32 * 1375
  const MAX_SOCK_BUF_SIZE := 6000 * 1400
  const CLEAN_THRESHOLD := 4 * MAX_SOCK_BUF_SIZE / 5
  const DEFAULT_HEADER_LEN := 20
  const TCP_RTO_MIN := 200000
  const INITIAL_RTO := 500000

  // Microseconds accepted by setitimer in tv_usec; anything larger is refused.
  const MAX_USEC := 999999

  const NO_FLAG: byte := 0
  const FIN_FLAG_MASK: byte := 2
  const ACK_FLAG_MASK: byte := 4
  const SYN_FLAG_MASK: byte := 8

  const CLIENT_ISN := 0
  const SERVER_ISN := 0
  const FIN_SEQ := 0

  datatype Option<+T> = None | Some(value: T)

  function Min(x: int, y: int): int { if x < y then x else y }

  function Abs(x: int): nat { if x < 0 then -x else x }

  function Pow2(n: nat): nat { if n == 0 then 1 else 2 * Pow2(n - 1) }

  /** Appending behind the first element. */
  lemma HeadTail<T>(a: seq<T>, b: seq<T>)
    requires |a| > 0
    ensures |a + b| > 0 && (a + b)[0] == a[0] && (a + b)[1..] == a[1..] + b
  {
  }

  lemma Regrouped<T>(a: seq<T>, b: seq<T>, c: seq<T>)
    ensures a + (b + c) == a + b + c
  {
  }

  /** p stands behind a. */
  lemma Behind<T>(a: seq<T>, b: seq<T>, p: seq<T>)
    requires a <= b && |b| == |a| + |p|
    requires forall i :: 0 <= i < |p| ==> b[|a| + i] == p[i]
    ensures b == a + p
  {
  }

  lemma EmptyAppend<T>(a: seq<T>, b: seq<T>)
    requires |a| == 0
    ensures a + b == b
  {
  }

  /** A segment as the transfer engine sees it: sequence numbers are unbounded here. */
  datatype Packet =
    | Data(q: nat, payload: seq<byte>)
    | Ack(ack: nat, wnd: nat)
}
