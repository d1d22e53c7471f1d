/**
  The pure bit manipulation the driver performs on register bytes: opcode framing,
  single-bit updates, and an encoder/decoder pair for every multi-bit field it
  configures (channel, data rate, power level, carrier wave, CRC, mode, retries,
  address width). Each encoder is specified by what its decoder reads back and by
  the bits it leaves alone.
*/
module Fields {
  import opened Nrf24Defs

  datatype Option<T> = None | Some(value: T)

  // ---------------------------------------------------------------------------
  // Opcode framing (readReg and writeReg)
  // ---------------------------------------------------------------------------

  /** The first byte readReg sends: the R_REGISTER command with the register's five address bits. */
  function ReadOpcode(reg: byte): (op: byte)
    ensures op & 0xE0 == R_REGISTER
    ensures op & 0x1F == reg & 0x1F
  {
    R_REGISTER | (reg & 0x1F)
  }

  /** The first byte writeReg sends: the W_REGISTER command with the register's five address bits. */
  function WriteOpcode(reg: byte): (op: byte)
    ensures op & 0xE0 == W_REGISTER
    ensures op & 0x1F == reg & 0x1F
  {
    W_REGISTER | (reg & 0x1F)
  }

  predicate IsReadOpcode(op: byte) {
    op & 0xE0 == R_REGISTER
  }

  predicate IsWriteOpcode(op: byte) {
    op & 0xE0 == W_REGISTER
  }

  /** The register a framed read or write opcode addresses. */
  function OpcodeRegister(op: byte): (r: byte)
    ensures r < 0x20
  {
    op & 0x1F
  }

  /**
    For every register the header names, framing keeps the address intact, the two
    opcodes stay below 0x40, and neither collides with a fixed command opcode.
  */
  lemma FramingOfNamedRegisters(r: byte)
    requires r in RegisterAddresses
    ensures OpcodeRegister(ReadOpcode(r)) == r && OpcodeRegister(WriteOpcode(r)) == r
    ensures ReadOpcode(r) == r && WriteOpcode(r) == r | 0x20
    ensures ReadOpcode(r) < 0x40 && WriteOpcode(r) < 0x40
    ensures ReadOpcode(r) !in CommandOpcodes && WriteOpcode(r) !in CommandOpcodes
  {
    RegisterAddressesFitFiveBits();
    CommandOpcodesAboveRegisterSpace();
  }

  // ---------------------------------------------------------------------------
  // Single bits (setRegisterBit and getRegisterBit)
  // ---------------------------------------------------------------------------

  /**
    The byte-sized effect of the C expression `1 << bit`: a single bit for bit < 8,
    nothing at all once the bit lies beyond the byte.
  */
  function BitMask(bit: byte): (m: byte)
    ensures bit < 8 ==> m != 0 && m & (m - 1) == 0
    ensures bit >= 8 ==> m == 0
  {
    if bit < 8 then (1 as byte) << bit else 0
  }

  /** getRegisterBit's decoder: whether `bit` is set in `v` (never, for bit >= 8). */
  predicate BitSet(v: byte, bit: byte) {
    v & BitMask(bit) != 0
  }

  /** setRegisterBit's encoder: `v` with `bit` set or cleared. */
  function WithBit(v: byte, bit: byte, value: bool): (r: byte)
    ensures bit < 8 ==> BitSet(r, bit) == value
    ensures bit >= 8 ==> r == v
    ensures forall b: byte {:trigger BitSet(r, b)} :: b != bit ==> BitSet(r, b) == BitSet(v, b)
  {
    if value then v | BitMask(bit) else v & !BitMask(bit)
  }

  // ---------------------------------------------------------------------------
  // Connectivity probe
  // ---------------------------------------------------------------------------

  /** isChipConnected's test on SETUP_AW: bits 2..3 clear and bits 0..1 not both clear. */
  predicate ChipConnected(setupAw: byte) {
    setupAw & 0x0C == 0 && setupAw & 0x03 != 0
  }

  /**
    The probe accepts exactly the bytes whose low nibble is a legal width code 1..3;
    the high nibble is not examined.
  */
  lemma ChipConnectedMeaning(setupAw: byte)
    ensures ChipConnected(setupAw) <==> 1 <= setupAw & 0x0F <= 3
    ensures ChipConnected(setupAw & 0x0F) == ChipConnected(setupAw)
  {
  }

  // ---------------------------------------------------------------------------
  // Channel and frequency
  // ---------------------------------------------------------------------------

  /** The channel setChannel stores: its argument, clamped to MAX_CHANNEL. */
  function ClampChannel(x: byte): (ch: byte)
    ensures ch <= MAX_CHANNEL
    ensures x <= MAX_CHANNEL ==> ch == x
    ensures x > MAX_CHANNEL ==> ch == MAX_CHANNEL
  {
    if x > MAX_CHANNEL then MAX_CHANNEL else x
  }

  /** setFrequency's conversion: a channel only for 2400..2525 MHz, nothing otherwise. */
  function FrequencyChannel(mhz: uint16): (r: Option<byte>)
    ensures r.Some? <==> 2400 <= mhz <= 2525
    ensures r.Some? ==> r.value <= MAX_CHANNEL && r.value as uint16 == mhz - 2400
  {
    if mhz < 2400 || mhz > 2525 then None else Some((mhz - 2400) as byte)
  }

  /** getFrequency's conversion of the RF_CH byte; no channel byte overflows 16 bits. */
  function ChannelFrequency(ch: byte): (mhz: uint16)
    ensures mhz as int == 2400 + ch as int
    ensures 2400 <= mhz <= 2400 + 255
  {
    2400 + ch as uint16
  }

  /** A frequency in band survives setFrequency followed by getFrequency. */
  lemma FrequencyRoundTrip(mhz: uint16)
    requires 2400 <= mhz <= 2525
    ensures FrequencyChannel(mhz).Some?
    ensures ChannelFrequency(ClampChannel(FrequencyChannel(mhz).value)) == mhz
  {
  }

  // ---------------------------------------------------------------------------
  // RF_SETUP: data rate, power level, carrier wave
  // ---------------------------------------------------------------------------

  const DATA_RATE_BITS: byte := RF_SETUP_RF_DR_LOW | RF_SETUP_RF_DR_HIGH

  /** getDataRate's decoder; RF_DR_LOW wins when both rate bits are set. */
  function DataRateOf(rfSetup: byte): DataRate {
    if rfSetup & RF_SETUP_RF_DR_LOW != 0 then Rate250Kbps
    else if rfSetup & RF_SETUP_RF_DR_HIGH != 0 then Rate2Mbps
    else Rate1Mbps
  }

  /** setDataRate's encoder. */
  function WithDataRate(rfSetup: byte, rate: DataRate): (r: byte)
    ensures DataRateOf(r) == rate
    ensures r & !DATA_RATE_BITS == rfSetup & !DATA_RATE_BITS
  {
    var cleared := rfSetup & !DATA_RATE_BITS;
    match rate
    case Rate250Kbps => cleared | RF_SETUP_RF_DR_LOW
    case Rate1Mbps => cleared
    case Rate2Mbps => cleared | RF_SETUP_RF_DR_HIGH
  }

  /** getPowerLevel's decoder. */
  function PowerLevelOf(rfSetup: byte): PowerLevel {
    PowerLevelFromCode((rfSetup & RF_SETUP_RF_PWR) >> 1)
  }

  /** setPowerLevel's encoder. */
  function WithPowerLevel(rfSetup: byte, level: PowerLevel): (r: byte)
    ensures PowerLevelOf(r) == level
    ensures r & !RF_SETUP_RF_PWR == rfSetup & !RF_SETUP_RF_PWR
  {
    (rfSetup & !RF_SETUP_RF_PWR) | (level.Code() << 1)
  }

  /** isCarrierWave's decoder. */
  predicate CarrierWaveOf(rfSetup: byte) {
    rfSetup & RF_SETUP_CONT_WAVE != 0
  }

  /** setCarrierWave's encoder. */
  function WithCarrierWave(rfSetup: byte, enable: bool): (r: byte)
    ensures CarrierWaveOf(r) == enable
    ensures r & !RF_SETUP_CONT_WAVE == rfSetup & !RF_SETUP_CONT_WAVE
  {
    if enable then rfSetup | RF_SETUP_CONT_WAVE else rfSetup & !RF_SETUP_CONT_WAVE
  }

  /** The three RF_SETUP fields are independent: setting one never changes what the others decode to. */
  lemma RfSetupFieldsIndependent(rfSetup: byte, rate: DataRate, level: PowerLevel, enable: bool)
    ensures PowerLevelOf(WithDataRate(rfSetup, rate)) == PowerLevelOf(rfSetup)
    ensures CarrierWaveOf(WithDataRate(rfSetup, rate)) == CarrierWaveOf(rfSetup)
    ensures DataRateOf(WithPowerLevel(rfSetup, level)) == DataRateOf(rfSetup)
    ensures CarrierWaveOf(WithPowerLevel(rfSetup, level)) == CarrierWaveOf(rfSetup)
    ensures DataRateOf(WithCarrierWave(rfSetup, enable)) == DataRateOf(rfSetup)
    ensures PowerLevelOf(WithCarrierWave(rfSetup, enable)) == PowerLevelOf(rfSetup)
  {
  }

  // ---------------------------------------------------------------------------
  // CONFIG: CRC, power and primary mode, interrupt masks
  // ---------------------------------------------------------------------------

  const CRC_BITS: byte := CONFIG_EN_CRC | CONFIG_CRCO

  /** getCRCLength's decoder. */
  function CrcLengthOf(config: byte): CrcLength {
    if config & CONFIG_EN_CRC == 0 then CrcDisabled
    else if config & CONFIG_CRCO != 0 then Crc16Bit
    else Crc8Bit
  }

  /** setCRCLength's encoder; disabling clears only the enable bit. */
  function WithCrcLength(config: byte, length: CrcLength): (r: byte)
    ensures CrcLengthOf(r) == length
    ensures r & !CRC_BITS == config & !CRC_BITS
    ensures length == CrcDisabled ==> r & CONFIG_CRCO == config & CONFIG_CRCO
  {
    match length
    case CrcDisabled => config & !CONFIG_EN_CRC
    case Crc8Bit => (config | CONFIG_EN_CRC) & !CONFIG_CRCO
    case Crc16Bit => config | CONFIG_EN_CRC | CONFIG_CRCO
  }

  const MODE_BITS: byte := CONFIG_PWR_UP | CONFIG_PRIM_RX

  /** CONFIG after setModeTX: PRIM_RX cleared, then powerUp's PWR_UP set. */
  function TxModeConfig(config: byte): (r: byte)
    ensures !BitSet(r, 0) && BitSet(r, 1)
    ensures r & !MODE_BITS == config & !MODE_BITS
  {
    WithBit(config, 0, false) | CONFIG_PWR_UP
  }

  /** CONFIG after setModeRX: PRIM_RX set, then powerUp's PWR_UP set. */
  function RxModeConfig(config: byte): (r: byte)
    ensures BitSet(r, 0) && BitSet(r, 1)
    ensures r & !MODE_BITS == config & !MODE_BITS
  {
    WithBit(config, 0, true) | CONFIG_PWR_UP
  }

  /** CONFIG after powerUp or powerDown. */
  function WithPower(config: byte, up: bool): (r: byte)
    ensures BitSet(r, 1) == up
    ensures r & !CONFIG_PWR_UP == config & !CONFIG_PWR_UP
  {
    if up then config | CONFIG_PWR_UP else config & !CONFIG_PWR_UP
  }

  /** CONFIG after maskInterrupt (mask set) or unmaskInterrupt (mask cleared). */
  function WithMask(config: byte, mask: byte, masked: bool): (r: byte)
    ensures r & mask == (if masked then mask else 0)
    ensures r & !mask == config & !mask
  {
    if masked then config | mask else config & !mask
  }

  // ---------------------------------------------------------------------------
  // SETUP_RETR: retransmit delay (high nibble) and count (low nibble)
  // ---------------------------------------------------------------------------

  function Clamp15(x: byte): (r: byte)
    ensures r <= 15
    ensures x <= 15 ==> r == x
    ensures x > 15 ==> r == 15
  {
    if x > 15 then 15 else x
  }

  /** getRetryCount's decoder. */
  function RetryCountOf(setupRetr: byte): (count: byte)
    ensures count <= 15
  {
    setupRetr & 0x0F
  }

  /** getRetryDelay's decoder. */
  function RetryDelayOf(setupRetr: byte): RetransmitDelay {
    (setupRetr & 0xF0) >> 4
  }

  /** The two nibbles determine a SETUP_RETR byte completely. */
  lemma RetryNibblesDetermineByte(a: byte, b: byte)
    requires RetryDelayOf(a) == RetryDelayOf(b) && RetryCountOf(a) == RetryCountOf(b)
    ensures a == b
  {
  }

  /** setRetries' encoder: both arguments clamped to 15. */
  function RetriesByte(delay: byte, count: byte): (r: byte)
    ensures RetryDelayOf(r) == Clamp15(delay)
    ensures RetryCountOf(r) == Clamp15(count)
  {
    (Clamp15(delay) << 4) | Clamp15(count)
  }

  /** setRetryDelay's encoder: the count nibble is kept. */
  function WithRetryDelay(setupRetr: byte, delay: RetransmitDelay): (r: byte)
    ensures RetryDelayOf(r) == delay
    ensures RetryCountOf(r) == RetryCountOf(setupRetr)
  {
    (setupRetr & 0x0F) | (delay << 4)
  }

  /** setRetryCount's encoder: the count clamped to 15, the delay nibble kept. */
  function WithRetryCount(setupRetr: byte, count: byte): (r: byte)
    ensures RetryCountOf(r) == Clamp15(count)
    ensures RetryDelayOf(r) == RetryDelayOf(setupRetr)
  {
    (setupRetr & 0xF0) | Clamp15(count)
  }

  // ---------------------------------------------------------------------------
  // SETUP_AW: address width, encoded as the driver writes it
  // ---------------------------------------------------------------------------

  /** getAddressWidth's decoder: the register byte minus one, computed in C's int arithmetic. */
  function AddressWidthOf(setupAw: byte): (code: int)
    ensures -1 <= code <= 254
    ensures code + 1 == setupAw as int
  {
    setupAw as int - 1
  }

  /** The byte setAddressWidth writes: the enumeration code plus one. */
  function AddressWidthRegister(w: AddressWidth): (setupAw: byte)
    ensures 2 <= setupAw <= 4
    ensures AddressWidthOf(setupAw) == w.Code() as int
  {
    w.Code() + 1
  }

  /** The width setAddressWidth caches: the enumeration code plus two, the promised byte count. */
  function CachedAddressWidth(w: AddressWidth): (bytes: byte)
    ensures bytes == w.Bytes()
    ensures MIN_ADDR_SIZE <= bytes <= MAX_ADDR_SIZE
  {
    w.Code() + 2
  }

  /**
    The address-width encodings disagree with each other. reset writes SETUP_AW = 3
    while caching 5 bytes (register = bytes - 2), but setAddressWidth writes
    bytes - 1; for the 5-byte width that is 4, a value the connectivity probe then
    rejects, and after reset getAddressWidth reports the 4-byte code.
  */
  lemma AddressWidthEncodingsDisagree(w: AddressWidth)
    ensures AddressWidthRegister(w) as int == CachedAddressWidth(w) as int - 1
    ensures AddressWidthRegister(w) as int != CachedAddressWidth(w) as int - 2
    ensures !ChipConnected(AddressWidthRegister(Width5Bytes))
    ensures ChipConnected(AddressWidthRegister(Width3Bytes)) && ChipConnected(AddressWidthRegister(Width4Bytes))
    ensures AddressWidthOf(0x03) == Width4Bytes.Code() as int
  {
  }

  // ---------------------------------------------------------------------------
  // Pipes
  // ---------------------------------------------------------------------------

  /** The EN_RXADDR / EN_AA / DYNPD bit of a pipe. */
  function PipeBit(pipe: byte): (m: byte)
    requires pipe < MAX_PIPES
    ensures m & 0x3F == m && m != 0
    ensures forall q: byte {:trigger BitMask(q)} :: q < MAX_PIPES && q != pipe ==> m & BitMask(q) == 0
  {
    BitMask(pipe)
  }

  /** openReadingPipe's mask update: or-ing in a pipe's bit sets that bit and no other. */
  lemma EnablePipeBit(v: byte, pipe: byte)
    requires pipe < MAX_PIPES
    ensures forall q: byte :: BitSet(v | PipeBit(pipe), q) == (q == pipe || BitSet(v, q))
  {
    forall q: byte ensures BitSet(v | PipeBit(pipe), q) == (q == pipe || BitSet(v, q)) {
      assert v | PipeBit(pipe) == WithBit(v, pipe, true);
    }
  }

  /** closePipe's mask update: and-ing with a pipe bit's complement clears that bit and no other. */
  lemma DisablePipeBit(v: byte, pipe: byte)
    requires pipe < MAX_PIPES
    ensures forall q: byte :: BitSet(v & !PipeBit(pipe), q) == (q != pipe && BitSet(v, q))
  {
    forall q: byte ensures BitSet(v & !PipeBit(pipe), q) == (q != pipe && BitSet(v, q)) {
      assert v & !PipeBit(pipe) == WithBit(v, pipe, false);
    }
  }

  /** memcpy of the first n bytes of src over dst. */
  function CopyPrefix(dst: seq<byte>, src: seq<byte>, n: nat): (r: seq<byte>)
    requires n <= |src| && n <= |dst|
    ensures |r| == |dst|
    ensures forall i :: 0 <= i < |r| ==> r[i] == if i < n then src[i] else dst[i]
  {
    src[..n] + dst[n..]
  }
}
