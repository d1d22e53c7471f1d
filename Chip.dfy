/**
  The nRF24L01 as the driver sees it: an in-memory register file answering framed
  register reads and writes, the three multi-byte address registers, and abstract
  TX, RX and ACK-payload FIFOs that record the payload commands the driver issues.
  Values that only the radio hardware decides (the STATUS byte while it changes,
  the width R_RX_PL_WID reports, the variant-probe read-back) are not stored here;
  the driver receives them as oracle parameters.
*/
module Radio {
  import opened Nrf24Defs
  import opened Fields
  import Engine

  /** Number of one-byte cells: the whole 5-bit register address space. */
  const REGISTER_CELLS: nat := 0x20

  type RegisterFile = s: seq<byte> | |s| == REGISTER_CELLS witness seq(REGISTER_CELLS, _ => 0)

  /** A payload loaded with W_TX_PAYLOAD (noAck false) or W_TX_PAYLOAD_NO_ACK (noAck true). */
  datatype TxEntry = TxEntry(payload: seq<byte>, noAck: bool)

  /** A payload loaded with W_ACK_PAYLOAD for the given pipe. */
  datatype AckEntry = AckEntry(pipe: byte, payload: seq<byte>)

  /** The whole chip state as a value. */
  datatype ChipState = ChipState(
    regs: RegisterFile,
    rxAddrP0: seq<byte>,
    rxAddrP1: seq<byte>,
    txAddr: seq<byte>,
    txFifo: seq<TxEntry>,
    rxFifo: seq<seq<byte>>,
    ackFifo: seq<AckEntry>,
    featuresActivated: bool)
  {
    /** The state with one-byte register r holding v. */
    function SetReg(r: byte, v: byte): (s: ChipState)
      requires r < 0x20
      ensures s.regs[r] == v
    {
      this.(regs := regs[r := v])
    }

    /**
      The state after a register write of `data` to register r: the cell holds the
      first byte, and an address register also keeps up to five bytes written.
      A write of no bytes changes nothing.
    */
    function Written(r: byte, data: seq<byte>): (s: ChipState)
      requires r < 0x20
      ensures |data| == 0 ==> s == this
      ensures |data| > 0 && !IsAddressRegister(r) ==> s == SetReg(r, data[0])
      ensures |data| > 0 && r == RX_ADDR_P0 ==> s == SetReg(r, data[0]).(rxAddrP0 := Truncated(data))
      ensures |data| > 0 && r == RX_ADDR_P1 ==> s == SetReg(r, data[0]).(rxAddrP1 := Truncated(data))
      ensures |data| > 0 && r == TX_ADDR ==> s == SetReg(r, data[0]).(txAddr := Truncated(data))
    {
      if |data| == 0 then this
      else
        var s := SetReg(r, data[0]);
        if r == RX_ADDR_P0 then s.(rxAddrP0 := Truncated(data))
        else if r == RX_ADDR_P1 then s.(rxAddrP1 := Truncated(data))
        else if r == TX_ADDR then s.(txAddr := Truncated(data))
        else s
    }

    /** The state after R_RX_PAYLOAD: the oldest received payload, if any, is gone. */
    function Drained(): ChipState {
      if rxFifo == [] then this else this.(rxFifo := rxFifo[1..])
    }

    /** What R_RX_PAYLOAD returns when n bytes are clocked out. */
    function Head(n: nat): (bytes: seq<byte>)
      ensures |bytes| == n
    {
      Engine.PayloadBytes(if rxFifo == [] then [] else rxFifo[0], n)
    }

    /**
      The pipe a receiver-side address register stands for: pipes 0 and 1 have their
      own registers; pipes 2..5 contribute their one-byte register as the first
      (low-order) byte and borrow every other byte from pipe 1.
    */
    function EffectiveAddress(pipe: byte): seq<byte>
      requires pipe < MAX_PIPES
    {
      if pipe == 0 then rxAddrP0
      else if pipe == 1 then rxAddrP1
      else [regs[RX_ADDR_P0 + pipe]] + (if |rxAddrP1| == 0 then [] else rxAddrP1[1..])
    }
  }

  /** The bytes an address register keeps of a write: at most MAX_ADDR_SIZE. */
  function Truncated(data: seq<byte>): (kept: seq<byte>)
    ensures |kept| <= MAX_ADDR_SIZE as int && |kept| <= |data|
    ensures kept == data[..|kept|]
    ensures |data| <= MAX_ADDR_SIZE as int ==> kept == data
  {
    if |data| <= MAX_ADDR_SIZE as int then data else data[..MAX_ADDR_SIZE]
  }

  class Chip {
    const regs: array<byte>
    var rxAddrP0: seq<byte>
    var rxAddrP1: seq<byte>
    var txAddr: seq<byte>
    var txFifo: seq<TxEntry>
    var rxFifo: seq<seq<byte>>
    var ackFifo: seq<AckEntry>
    var featuresActivated: bool

    ghost predicate Valid() {
      regs.Length == REGISTER_CELLS
    }

    /** The chip's state as a value. */
    ghost function State(): ChipState
      reads this, regs
      requires Valid()
    {
      ChipState(regs[..], rxAddrP0, rxAddrP1, txAddr, txFifo, rxFifo, ackFifo, featuresActivated)
    }

    /** A chip in the given state, before the driver has spoken to it. */
    constructor (init: ChipState)
      ensures Valid() && fresh(regs)
      ensures State() == init
    {
      regs := new byte[REGISTER_CELLS](i requires 0 <= i < REGISTER_CELLS => init.regs[i]);
      rxAddrP0, rxAddrP1, txAddr := init.rxAddrP0, init.rxAddrP1, init.txAddr;
      txFifo, rxFifo, ackFifo := init.txFifo, init.rxFifo, init.ackFifo;
      featuresActivated := init.featuresActivated;
      new;
      assert regs[..] == init.regs;
    }

    /** An R_REGISTER transaction: one byte out of the addressed cell. */
    method ReadRegister(op: byte) returns (v: byte)
      requires Valid() && IsReadOpcode(op)
      ensures v == regs[OpcodeRegister(op)]
    {
      v := regs[OpcodeRegister(op)];
    }

    /** A W_REGISTER transaction with the given data bytes. */
    method WriteRegister(op: byte, data: seq<byte>)
      requires Valid() && IsWriteOpcode(op)
      modifies this, regs
      ensures Valid()
      ensures State() == old(State()).Written(OpcodeRegister(op), data)
    {
      var r := OpcodeRegister(op);
      if |data| > 0 {
        regs[r] := data[0];
        if r == RX_ADDR_P0 {
          rxAddrP0 := Truncated(data);
        } else if r == RX_ADDR_P1 {
          rxAddrP1 := Truncated(data);
        } else if r == TX_ADDR {
          txAddr := Truncated(data);
        }
      }
    }

    /**
      The chip settles register r at v, the value it keeps of the last write. The variant
      probe expects a base nRF24L01 to keep RF_SETUP without the reserved bit 7.
    */
    method Retain(r: byte, v: byte)
      requires Valid() && r < 0x20
      modifies regs
      ensures Valid()
      ensures State() == old(State()).SetReg(r, v)
    {
      regs[r] := v;
    }

    /** A one-byte command; FLUSH_TX and FLUSH_RX empty their FIFO, other commands change nothing modelled. */
    method Command(op: byte)
      requires Valid()
      modifies this
      ensures Valid()
      ensures op == FLUSH_TX ==> State() == old(State()).(txFifo := [])
      ensures op == FLUSH_RX ==> State() == old(State()).(rxFifo := [])
      ensures op != FLUSH_TX && op != FLUSH_RX ==> State() == old(State())
    {
      if op == FLUSH_TX {
        txFifo := [];
      } else if op == FLUSH_RX {
        rxFifo := [];
      }
    }

    /** W_TX_PAYLOAD or W_TX_PAYLOAD_NO_ACK followed by the payload bytes. */
    method LoadTxPayload(op: byte, data: seq<byte>)
      requires Valid() && (op == W_TX_PAYLOAD || op == W_TX_PAYLOAD_NO_ACK)
      modifies this
      ensures Valid()
      ensures State() == old(State()).(txFifo := old(txFifo) + [TxEntry(data, op == W_TX_PAYLOAD_NO_ACK)])
    {
      txFifo := txFifo + [TxEntry(data, op == W_TX_PAYLOAD_NO_ACK)];
    }

    /** W_ACK_PAYLOAD | pipe followed by the payload bytes. */
    method LoadAckPayload(op: byte, data: seq<byte>)
      requires Valid() && op & 0xF8 == W_ACK_PAYLOAD
      modifies this
      ensures Valid()
      ensures State() == old(State()).(ackFifo := old(ackFifo) + [AckEntry(op & 0x07, data)])
    {
      ackFifo := ackFifo + [AckEntry(op & 0x07, data)];
    }

    /** R_RX_PAYLOAD clocking out n bytes; the oldest received payload leaves the FIFO. */
    method ReadRxPayload(op: byte, n: nat) returns (bytes: seq<byte>)
      requires Valid() && op == R_RX_PAYLOAD
      modifies this
      ensures Valid()
      ensures bytes == old(State()).Head(n)
      ensures State() == old(State()).Drained()
    {
      bytes := Engine.PayloadBytes(if rxFifo == [] then [] else rxFifo[0], n);
      if rxFifo != [] {
        rxFifo := rxFifo[1..];
      }
    }

    /** The two-byte activation exchange; only 0x50 followed by 0x73 unlocks the extra features. */
    method Activate(op: byte, key: byte)
      requires Valid()
      modifies this
      ensures Valid()
      ensures State() == old(State()).(featuresActivated := old(featuresActivated) || (op == 0x50 && key == 0x73))
    {
      if op == 0x50 && key == 0x73 {
        featuresActivated := true;
      }
    }
  }
}
