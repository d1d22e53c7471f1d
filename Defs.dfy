/**
  The nRF24L01 register map, command opcodes, bit masks, limits and enumerations
  that the driver header declares, together with the per-pipe configuration record.
  Bytes are modelled as `bv8` so that the driver's masking is plain bit-vector logic.
*/
module Nrf24Defs {

  type byte = bv8

  /** Unsigned 16-bit values: the driver's statistics counters and frequencies in MHz. */
  type uint16 = bv16

  // ---------------------------------------------------------------------------
  // Register addresses
  // ---------------------------------------------------------------------------

  const CONFIG: byte := 0x00
  const EN_AA: byte := 0x01
  const EN_RXADDR: byte := 0x02
  const SETUP_AW: byte := 0x03
  const SETUP_RETR: byte := 0x04
  const RF_CH: byte := 0x05
  const RF_SETUP: byte := 0x06
  const STATUS: byte := 0x07
  const OBSERVE_TX: byte := 0x08
  const RPD: byte := 0x09
  const RX_ADDR_P0: byte := 0x0A
  const RX_ADDR_P1: byte := 0x0B
  const RX_ADDR_P2: byte := 0x0C
  const RX_ADDR_P3: byte := 0x0D
  const RX_ADDR_P4: byte := 0x0E
  const RX_ADDR_P5: byte := 0x0F
  const TX_ADDR: byte := 0x10
  const RX_PW_P0: byte := 0x11
  const RX_PW_P1: byte := 0x12
  const RX_PW_P2: byte := 0x13
  const RX_PW_P3: byte := 0x14
  const RX_PW_P4: byte := 0x15
  const RX_PW_P5: byte := 0x16
  const FIFO_STATUS: byte := 0x17
  const DYNPD: byte := 0x1C
  const FEATURE: byte := 0x1D

  /** Every register address the header names, in header order. */
  const RegisterAddresses: seq<byte> :=
    [CONFIG, EN_AA, EN_RXADDR, SETUP_AW, SETUP_RETR, RF_CH, RF_SETUP, STATUS,
     OBSERVE_TX, RPD, RX_ADDR_P0, RX_ADDR_P1, RX_ADDR_P2, RX_ADDR_P3, RX_ADDR_P4,
     RX_ADDR_P5, TX_ADDR, RX_PW_P0, RX_PW_P1, RX_PW_P2, RX_PW_P3, RX_PW_P4,
     RX_PW_P5, FIFO_STATUS, DYNPD, FEATURE]

  /** The registers that hold a multi-byte address rather than a single byte. */
  predicate IsAddressRegister(r: byte) {
    r == RX_ADDR_P0 || r == RX_ADDR_P1 || r == TX_ADDR
  }

  // ---------------------------------------------------------------------------
  // Command opcodes
  // ---------------------------------------------------------------------------

  const R_REGISTER: byte := 0x00
  const W_REGISTER: byte := 0x20
  const R_RX_PAYLOAD: byte := 0x61
  const W_TX_PAYLOAD: byte := 0xA0
  const FLUSH_TX: byte := 0xE1
  const FLUSH_RX: byte := 0xE2
  const REUSE_TX_PL: byte := 0xE3
  const R_RX_PL_WID: byte := 0x60
  const W_ACK_PAYLOAD: byte := 0xA8
  const W_TX_PAYLOAD_NO_ACK: byte := 0xB0
  const NOP: byte := 0xFF

  /** The fixed opcodes the driver sends as whole commands (never OR-ed with a register). */
  const CommandOpcodes: seq<byte> :=
    [R_RX_PAYLOAD, W_TX_PAYLOAD, FLUSH_TX, FLUSH_RX, REUSE_TX_PL, R_RX_PL_WID,
     W_ACK_PAYLOAD, W_TX_PAYLOAD_NO_ACK, NOP]

  // ---------------------------------------------------------------------------
  // Bit masks
  // ---------------------------------------------------------------------------

  const STATUS_RX_DR: byte := 0x40
  const STATUS_TX_DS: byte := 0x20
  const STATUS_MAX_RT: byte := 0x10
  const STATUS_RX_P_NO: byte := 0x0E
  const STATUS_TX_FULL: byte := 0x01

  const StatusMasks: seq<byte> :=
    [STATUS_RX_DR, STATUS_TX_DS, STATUS_MAX_RT, STATUS_RX_P_NO, STATUS_TX_FULL]

  const CONFIG_MASK_RX_DR: byte := 0x40
  const CONFIG_MASK_TX_DS: byte := 0x20
  const CONFIG_MASK_MAX_RT: byte := 0x10
  const CONFIG_EN_CRC: byte := 0x08
  const CONFIG_CRCO: byte := 0x04
  const CONFIG_PWR_UP: byte := 0x02
  const CONFIG_PRIM_RX: byte := 0x01

  const ConfigMasks: seq<byte> :=
    [CONFIG_MASK_RX_DR, CONFIG_MASK_TX_DS, CONFIG_MASK_MAX_RT, CONFIG_EN_CRC,
     CONFIG_CRCO, CONFIG_PWR_UP, CONFIG_PRIM_RX]

  const RF_SETUP_CONT_WAVE: byte := 0x80
  const RF_SETUP_RF_DR_LOW: byte := 0x20
  const RF_SETUP_PLL_LOCK: byte := 0x10
  const RF_SETUP_RF_DR_HIGH: byte := 0x08
  const RF_SETUP_RF_PWR: byte := 0x06

  const RfSetupMasks: seq<byte> :=
    [RF_SETUP_CONT_WAVE, RF_SETUP_RF_DR_LOW, RF_SETUP_RF_DR_HIGH, RF_SETUP_RF_PWR]

  const FIFO_STATUS_TX_REUSE: byte := 0x40
  const FIFO_STATUS_TX_FULL: byte := 0x20
  const FIFO_STATUS_TX_EMPTY: byte := 0x10
  const FIFO_STATUS_RX_FULL: byte := 0x02
  const FIFO_STATUS_RX_EMPTY: byte := 0x01

  const FEATURE_EN_DPL: byte := 0x04
  const FEATURE_EN_ACK_PAY: byte := 0x02
  const FEATURE_EN_DYN_ACK: byte := 0x01

  // ---------------------------------------------------------------------------
  // Limits
  // ---------------------------------------------------------------------------

  const MAX_PAYLOAD_SIZE: byte := 32
  const MAX_ADDR_SIZE: byte := 5
  const MIN_ADDR_SIZE: byte := 3
  const MAX_CHANNEL: byte := 125
  const MAX_PIPES: byte := 6

  // ---------------------------------------------------------------------------
  // Enumerations, with the numeric value each constant has in the header
  // ---------------------------------------------------------------------------

  datatype DataRate = Rate1Mbps | Rate2Mbps | Rate250Kbps {
    function Code(): byte {
      match this
      case Rate1Mbps => 0
      case Rate2Mbps => 1
      case Rate250Kbps => 2
    }
  }

  datatype PowerLevel = PowerNeg18dBm | PowerNeg12dBm | PowerNeg6dBm | Power0dBm {
    function Code(): byte {
      match this
      case PowerNeg18dBm => 0
      case PowerNeg12dBm => 1
      case PowerNeg6dBm => 2
      case Power0dBm => 3
    }
  }

  /** The power level whose header value is `code`; every 2-bit code names one. */
  function PowerLevelFromCode(code: byte): (level: PowerLevel)
    requires code <= 3
    ensures level.Code() == code
  {
    if code == 0 then PowerNeg18dBm
    else if code == 1 then PowerNeg12dBm
    else if code == 2 then PowerNeg6dBm
    else Power0dBm
  }

  datatype CrcLength = CrcDisabled | Crc8Bit | Crc16Bit {
    function Code(): byte {
      match this
      case CrcDisabled => 0
      case Crc8Bit => 1
      case Crc16Bit => 2
    }
  }

  datatype AddressWidth = Width3Bytes | Width4Bytes | Width5Bytes {
    function Code(): byte {
      match this
      case Width3Bytes => 1
      case Width4Bytes => 2
      case Width5Bytes => 3
    }
    /** The number of address bytes the constant's name promises. */
    function Bytes(): byte {
      match this
      case Width3Bytes => 3
      case Width4Bytes => 4
      case Width5Bytes => 5
    }
  }

  /**
    The auto-retransmit delay enumeration: code d stands for (d + 1) * 250 microseconds,
    from NRF24_ARD_250US = 0 up to NRF24_ARD_4000US = 15.
  */
  type RetransmitDelay = d: byte | d <= 15

  function DelayMicros(d: RetransmitDelay): nat {
    250 * (d as nat + 1)
  }

  /** A payload width in bytes: at most MAX_PAYLOAD_SIZE. */
  type PayloadWidth = b: byte | b <= MAX_PAYLOAD_SIZE

  /** An address length in bytes: MIN_ADDR_SIZE to MAX_ADDR_SIZE. */
  type AddressLength = b: byte | MIN_ADDR_SIZE <= b <= MAX_ADDR_SIZE witness MAX_ADDR_SIZE

  /** An RF channel number: at most MAX_CHANNEL. */
  type Channel = b: byte | b <= MAX_CHANNEL

  /** An address buffer of the header's fixed size, MAX_ADDR_SIZE bytes. */
  type AddressBuffer = s: seq<byte> | |s| == MAX_ADDR_SIZE as int witness [0, 0, 0, 0, 0]

  /**
    The configuration the driver keeps for one receive pipe (the header's NRF24_Pipe).
    The ranges the driver keeps its members in are stated as the members' types.
  */
  datatype Pipe = Pipe(
    address: AddressBuffer,
    addressWidth: AddressLength,
    payloadSize: PayloadWidth,
    autoAck: bool,
    dynamicPayload: bool)

  // ---------------------------------------------------------------------------
  // Facts about the header's definitions
  // ---------------------------------------------------------------------------

  /** Each register address fits in five bits, so masking with 0x1F leaves it intact. */
  lemma RegisterAddressesFitFiveBits()
    ensures forall i :: 0 <= i < |RegisterAddresses| ==>
      RegisterAddresses[i] < 0x20 && RegisterAddresses[i] & 0x1F == RegisterAddresses[i]
  {
  }

  /** The five STATUS fields occupy disjoint bits. */
  lemma StatusMasksDisjoint()
    ensures forall i, j :: 0 <= i < j < |StatusMasks| ==> StatusMasks[i] & StatusMasks[j] == 0
  {
  }

  /** The CONFIG masks are seven distinct single bits, 0x01 to 0x40. */
  lemma ConfigMasksSingleBits()
    ensures |ConfigMasks| == 7
    ensures forall i :: 0 <= i < |ConfigMasks| ==> ConfigMasks[i] == (1 as byte) << (6 - i) as byte
    ensures forall i, j :: 0 <= i < j < |ConfigMasks| ==> ConfigMasks[i] != ConfigMasks[j]
  {
  }

  /** Carrier wave, the two data-rate bits and the power field of RF_SETUP do not overlap. */
  lemma RfSetupMasksDisjoint()
    ensures forall i, j :: 0 <= i < j < |RfSetupMasks| ==> RfSetupMasks[i] & RfSetupMasks[j] == 0
  {
  }

  /** A power level shifted left by one always lies inside the RF_PWR field. */
  lemma PowerLevelInsidePowerField(level: PowerLevel)
    ensures level.Code() <= 3
    ensures (level.Code() << 1) & !RF_SETUP_RF_PWR == 0
  {
  }

  /** A retransmit delay code fits the high nibble of SETUP_RETR and comes back unchanged. */
  lemma RetransmitDelayFitsHighNibble(d: RetransmitDelay)
    ensures (d << 4) & 0x0F == 0
    ensures (d << 4) >> 4 == d
    ensures 250 <= DelayMicros(d) <= 4000
  {
  }

  /** The address-width enumeration codes 1..3 stand for 3..5 address bytes. */
  lemma AddressWidthCodes(w: AddressWidth)
    ensures 1 <= w.Code() <= 3
    ensures w.Bytes() == w.Code() + 2
    ensures MIN_ADDR_SIZE <= w.Bytes() <= MAX_ADDR_SIZE
  {
  }

  /** The read and write register commands differ only in bit 5, and every other command has a bit above bit 5. */
  lemma CommandOpcodesAboveRegisterSpace()
    ensures R_REGISTER ^ W_REGISTER == 0x20
    ensures forall i :: 0 <= i < |CommandOpcodes| ==> CommandOpcodes[i] >= 0x40
  {
  }
}
