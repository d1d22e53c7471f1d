/**
  Pure specifications of the transmit and receive engines: how the driver decodes
  STATUS, how its transmit poll ends, what a transmit does to the statistics, and
  how many bytes a read drains. The driver's methods are proved against these.
*/
module Engine {
  import opened Nrf24Defs

  // ---------------------------------------------------------------------------
  // STATUS decoding
  // ---------------------------------------------------------------------------

  /** available()'s test: a payload is waiting. */
  predicate RxReady(status: byte) {
    status & STATUS_RX_DR != 0
  }

  /** available()'s pipe number: the 3-bit RX_P_NO field. */
  function RxPipeNumber(status: byte): (pipe: byte)
    ensures pipe <= 7
    ensures pipe << 1 == status & STATUS_RX_P_NO
  {
    (status & STATUS_RX_P_NO) >> 1
  }

  /** The test that ends write's poll: the chip reported data sent or retries exhausted. */
  predicate TxResolved(status: byte) {
    status & (STATUS_TX_DS | STATUS_MAX_RT) != 0
  }

  /** write's result once the poll ended: the data-sent flag. */
  predicate TxSucceeded(status: byte) {
    status & STATUS_TX_DS != 0
  }

  // ---------------------------------------------------------------------------
  // Counters
  // ---------------------------------------------------------------------------

  /** The C++ `counter++` on a uint16_t counter, which wraps from 0xFFFF to 0. */
  function Inc16(x: uint16): (r: uint16)
    ensures r != x
    ensures x < 0xFFFF ==> r > x && r - x == 1
    ensures x == 0xFFFF ==> r == 0
  {
    x + 1
  }

  // ---------------------------------------------------------------------------
  // Transmit
  // ---------------------------------------------------------------------------

  /** write gives up when its poll counter passes this value. */
  const TX_POLL_LIMIT: nat := 10000

  /**
    How write's poll ends. The oracle `poll` gives the STATUS byte seen on each
    read of the call: poll(k) is the (k+1)-th read.
  */
  datatype PollResult = Resolved(at: nat) | TimedOut

  /**
    The outcome of polling from read k on: the first read at or after k, up to
    read TX_POLL_LIMIT, that shows a resolution flag, or a timeout when none does.
  */
  function PollOutcome(poll: nat -> byte, k: nat): (r: PollResult)
    decreases TX_POLL_LIMIT + 1 - k
    ensures r.Resolved? ==>
      k <= r.at <= TX_POLL_LIMIT && TxResolved(poll(r.at)) &&
      forall j :: k <= j < r.at ==> !TxResolved(poll(j))
    ensures r.TimedOut? ==>
      forall j :: k <= j <= TX_POLL_LIMIT ==> !TxResolved(poll(j))
  {
    if k > TX_POLL_LIMIT then TimedOut
    else if TxResolved(poll(k)) then Resolved(k)
    else PollOutcome(poll, k + 1)
  }

  /** What one write reports and leaves behind in the statistics. */
  datatype TxReport = TxReport(ok: bool, sent: uint16, lost: uint16, flushed: bool)

  /**
    write's accounting: after a resolved poll at read i, the driver reads STATUS once
    more (read i+1) and its data-sent flag is the result; the matching counter rises.
    After a timeout the TX FIFO is flushed and no counter moves.
  */
  function TransmitReport(poll: nat -> byte, sent: uint16, lost: uint16): TxReport {
    match PollOutcome(poll, 0)
    case Resolved(i) =>
      var ok := TxSucceeded(poll(i + 1));
      TxReport(ok, if ok then Inc16(sent) else sent, if ok then lost else Inc16(lost), false)
    case TimedOut =>
      TxReport(false, sent, lost, true)
  }

  /**
    Exactly one of the two counters moves, by one, when the chip resolved the
    transmission, and the result is the data-sent flag; on a timeout, which happens
    only when none of the 10001 polled STATUS bytes showed a flag, neither moves.
  */
  lemma {:induction false} TransmitCountsOnce(poll: nat -> byte, sent: uint16, lost: uint16)
    ensures var r := TransmitReport(poll, sent, lost);
      match PollOutcome(poll, 0)
      case Resolved(i) =>
        && r.ok == TxSucceeded(poll(i + 1))
        && !r.flushed
        && (r.sent != sent) != (r.lost != lost)
        && (r.ok ==> r.sent == Inc16(sent) && r.lost == lost)
        && (!r.ok ==> r.sent == sent && r.lost == Inc16(lost))
      case TimedOut =>
        && !r.ok && r.flushed && r.sent == sent && r.lost == lost
        && forall j :: 0 <= j <= TX_POLL_LIMIT ==> !TxResolved(poll(j))
  {
  }

  /** A timeout happens exactly when no polled STATUS byte up to the limit shows a flag. */
  lemma {:induction false} TimeoutIffNoFlag(poll: nat -> byte)
    ensures PollOutcome(poll, 0).TimedOut? <==> forall j :: 0 <= j <= TX_POLL_LIMIT ==> !TxResolved(poll(j))
  {
    if PollOutcome(poll, 0).Resolved? {
      var i := PollOutcome(poll, 0).at;
      assert TxResolved(poll(i));
    }
  }

  // ---------------------------------------------------------------------------
  // Receive
  // ---------------------------------------------------------------------------

  /** getDynamicPayloadSize's result for the width R_RX_PL_WID reported. */
  function CheckedPayloadWidth(reported: byte): (w: byte)
    ensures w <= MAX_PAYLOAD_SIZE
    ensures reported <= MAX_PAYLOAD_SIZE ==> w == reported
    ensures reported > MAX_PAYLOAD_SIZE ==> w == 0
  {
    if reported > MAX_PAYLOAD_SIZE then 0 else reported
  }

  /**
    The number of bytes read drains and returns: the caller's length, or with dynamic
    payloads the checked reported width cut to the caller's length.
  */
  function ReadLength(len: byte, dynamic: bool, reported: byte): (n: byte)
    ensures n <= len
    ensures !dynamic ==> n == len
    ensures dynamic ==> n <= MAX_PAYLOAD_SIZE
    ensures dynamic && reported <= MAX_PAYLOAD_SIZE ==> n == (if reported > len then len else reported)
    ensures dynamic && reported > MAX_PAYLOAD_SIZE ==> n == 0
  {
    var n := if dynamic then CheckedPayloadWidth(reported) else len;
    if n > len then len else n
  }

  /**
    The bytes R_RX_PAYLOAD clocks out when n are requested of a stored payload p:
    p's bytes first, and 0x00 past its end.
  */
  function PayloadBytes(p: seq<byte>, n: nat): (r: seq<byte>)
    ensures |r| == n
    ensures forall i :: 0 <= i < n ==> r[i] == if i < |p| then p[i] else 0
  {
    if n <= |p| then p[..n] else p + seq(n - |p|, _ => 0)
  }
}
