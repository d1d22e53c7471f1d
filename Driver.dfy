/**
  The nRF24L01 driver object: the cached configuration and statistics the driver
  keeps, and every core operation as a method that reads and writes the chip's
  register file. Each mutating method states the chip's whole new state and the
  driver's whole new cache in terms of the old ones; the pure functions it is
  stated with are characterised by the lemmas in this module and in Fields and Engine.
*/
module Driver {
  import opened Nrf24Defs
  import opened Fields
  import opened Engine
  import opened Radio

  /** The value the driver writes to STATUS to clear all three interrupt flags. */
  const CLEAR_FLAGS: byte := STATUS_RX_DR | STATUS_TX_DS | STATUS_MAX_RT

  /** The reset address of pipes 0 and 1 and of the transmitter. */
  const DEFAULT_ADDRESS: seq<byte> := [0xE7, 0xE7, 0xE7, 0xE7, 0xE7]

  /** A pipe's cached configuration as the constructor sets it. */
  const DEFAULT_PIPE: Pipe := Pipe([0, 0, 0, 0, 0], 5, 32, true, false)

  /**
    The configuration the driver caches besides its per-pipe records and the TX
    address: the object's scalar configuration members, grouped as one value.
  */
  datatype Settings = Settings(
    payloadSize: PayloadWidth,
    addressWidth: AddressLength,
    channel: Channel,
    txPower: PowerLevel,
    dataRate: DataRate,
    crcLength: CrcLength,
    retryCount: byte,
    retryDelay: RetransmitDelay,
    dynamicPayloadEnabled: bool,
    autoAckEnabled: bool,
    isPlusVariant: bool,
    rxPipeEnabled: byte,
    messageLen: byte)

  /** The driver's packet statistics; the uint16_t counters wrap. */
  datatype Statistics = Statistics(
    packetsLost: uint16,
    packetsSent: uint16,
    packetsReceived: uint16,
    retransmitCount: byte)

  /** The settings the constructor establishes, and the zeroed statistics. */
  const INITIAL_SETTINGS: Settings :=
    Settings(32, 5, 2, Power0dBm, Rate1Mbps, Crc16Bit, 3, 0, false, true, false, 0, 32)
  const ZERO_STATISTICS: Statistics := Statistics(0, 0, 0, 0)

  // ---------------------------------------------------------------------------
  // Specifications of the multi-step operations
  // ---------------------------------------------------------------------------

  /** Reset's first block: power down, then the eight configuration registers. */
  function ResetConfiguration(s: ChipState): ChipState {
    s.SetReg(CONFIG, WithPower(s.regs[CONFIG], false))
     .SetReg(CONFIG, 0x08)
     .SetReg(EN_AA, 0x3F)
     .SetReg(EN_RXADDR, 0x03)
     .SetReg(SETUP_AW, 0x03)
     .SetReg(SETUP_RETR, 0x03)
     .SetReg(RF_CH, 0x02)
     .SetReg(RF_SETUP, 0x0E)
     .SetReg(STATUS, 0x70)
  }

  /** Reset's second block: both FIFOs flushed and the interrupt flags cleared. */
  function ResetFifos(s: ChipState): ChipState {
    s.(txFifo := []).(rxFifo := []).SetReg(STATUS, CLEAR_FLAGS)
  }

  /** Reset's third block: the default receive and transmit addresses. */
  function ResetAddresses(s: ChipState): ChipState {
    s.Written(RX_ADDR_P0, DEFAULT_ADDRESS)
     .Written(RX_ADDR_P1, DEFAULT_ADDRESS)
     .SetReg(RX_ADDR_P2, 0xC2)
     .SetReg(RX_ADDR_P3, 0xC3)
     .SetReg(RX_ADDR_P4, 0xC4)
     .SetReg(RX_ADDR_P5, 0xC5)
     .Written(TX_ADDR, DEFAULT_ADDRESS)
  }

  /** Reset's last block: 32-byte payload widths on every pipe, FEATURE and DYNPD cleared. */
  function ResetWidthsAndFeatures(s: ChipState): ChipState {
    s.SetReg(RX_PW_P0, 0x20)
     .SetReg(RX_PW_P1, 0x20)
     .SetReg(RX_PW_P2, 0x20)
     .SetReg(RX_PW_P3, 0x20)
     .SetReg(RX_PW_P4, 0x20)
     .SetReg(RX_PW_P5, 0x20)
     .SetReg(FEATURE, 0x00)
     .SetReg(DYNPD, 0x00)
  }

  /** The registers and FIFOs after reset, in the order reset writes them. */
  function ResetRegisters(s: ChipState): ChipState {
    ResetWidthsAndFeatures(ResetAddresses(ResetFifos(ResetConfiguration(s))))
  }

  /** The settings after reset: power, data rate, CRC, retries and the variant flag are kept. */
  function ResetSettings(c: Settings): Settings {
    c.(payloadSize := 32, addressWidth := 5, channel := 2,
       dynamicPayloadEnabled := false, autoAckEnabled := true, rxPipeEnabled := 0x03)
  }

  /** The cells reset's first block writes, as one update of the register file. */
  lemma ResetConfigurationCells(s: ChipState)
    ensures ResetConfiguration(s) == s.(regs := s.regs[CONFIG := 0x08][EN_AA := 0x3F][EN_RXADDR := 0x03]
      [SETUP_AW := 0x03][SETUP_RETR := 0x03][RF_CH := 0x02][RF_SETUP := 0x0E][STATUS := 0x70])
  {
  }

  /** The cells and FIFOs reset's second block changes. */
  lemma ResetFifosCells(s: ChipState)
    ensures ResetFifos(s) == s.(regs := s.regs[STATUS := CLEAR_FLAGS], txFifo := [], rxFifo := [])
  {
  }

  /** The cells and address registers reset's third block writes. */
  lemma ResetAddressesCells(s: ChipState)
    ensures ResetAddresses(s) == s.(regs := s.regs[RX_ADDR_P0 := 0xE7][RX_ADDR_P1 := 0xE7]
      [RX_ADDR_P2 := 0xC2][RX_ADDR_P3 := 0xC3][RX_ADDR_P4 := 0xC4][RX_ADDR_P5 := 0xC5][TX_ADDR := 0xE7],
      rxAddrP0 := DEFAULT_ADDRESS, rxAddrP1 := DEFAULT_ADDRESS, txAddr := DEFAULT_ADDRESS)
  {
  }

  /** The cells reset's last block writes. */
  lemma ResetWidthsAndFeaturesCells(s: ChipState)
    ensures ResetWidthsAndFeatures(s) == s.(regs := s.regs[RX_PW_P0 := 0x20][RX_PW_P1 := 0x20][RX_PW_P2 := 0x20]
      [RX_PW_P3 := 0x20][RX_PW_P4 := 0x20][RX_PW_P5 := 0x20][FEATURE := 0x00][DYNPD := 0x00])
  {
  }

  /**
    The register values reset leaves, and the connectivity probe accepting them;
    the receive-pipe registers not named here are the only cells it leaves alone
    besides OBSERVE_TX, RPD, FIFO_STATUS and the reserved cells.
  */
  lemma ResetDefaults(s: ChipState)
    ensures var t := ResetRegisters(s);
      && t.regs[CONFIG] == 0x08 && t.regs[EN_AA] == 0x3F && t.regs[EN_RXADDR] == 0x03
      && t.regs[SETUP_AW] == 0x03 && t.regs[SETUP_RETR] == 0x03 && t.regs[RF_CH] == 0x02
      && t.regs[RF_SETUP] == 0x0E && t.regs[FEATURE] == 0 && t.regs[DYNPD] == 0
      && t.regs[STATUS] == CLEAR_FLAGS
      && t.regs[RX_PW_P0] == 0x20 && t.regs[RX_PW_P1] == 0x20 && t.regs[RX_PW_P2] == 0x20
      && t.regs[RX_PW_P3] == 0x20 && t.regs[RX_PW_P4] == 0x20 && t.regs[RX_PW_P5] == 0x20
      && t.rxAddrP0 == DEFAULT_ADDRESS && t.rxAddrP1 == DEFAULT_ADDRESS && t.txAddr == DEFAULT_ADDRESS
      && t.regs[RX_ADDR_P2] == 0xC2 && t.regs[RX_ADDR_P3] == 0xC3
      && t.regs[RX_ADDR_P4] == 0xC4 && t.regs[RX_ADDR_P5] == 0xC5
      && t.txFifo == [] && t.rxFifo == []
      && t.ackFifo == s.ackFifo && t.featuresActivated == s.featuresActivated
      && t.regs[OBSERVE_TX] == s.regs[OBSERVE_TX] && t.regs[FIFO_STATUS] == s.regs[FIFO_STATUS]
      && ChipConnected(t.regs[SETUP_AW])
      && RetryCountOf(t.regs[SETUP_RETR]) == 3 && RetryDelayOf(t.regs[SETUP_RETR]) == 0
      && DataRateOf(t.regs[RF_SETUP]) == Rate2Mbps && PowerLevelOf(t.regs[RF_SETUP]) == Power0dBm
      && CrcLengthOf(t.regs[CONFIG]) == Crc8Bit && !BitSet(t.regs[CONFIG], 1)
  {
    var s1 := ResetConfiguration(s);
    var s2 := ResetFifos(s1);
    var s3 := ResetAddresses(s2);
    ResetConfigurationCells(s);
    ResetFifosCells(s1);
    ResetAddressesCells(s2);
    ResetWidthsAndFeaturesCells(s3);
  }

  /**
    reset writes the chip's own defaults, 2 Mbps and an 8-bit CRC, but keeps the
    cached data rate and CRC length, so a freshly constructed driver that is reset
    reports 1 Mbps and a 16-bit CRC while the chip runs at 2 Mbps with an 8-bit CRC.
  */
  lemma ResetCacheVersusRegisters(s: ChipState)
    ensures var t := ResetRegisters(s);
      var c := ResetSettings(INITIAL_SETTINGS);
      && c.dataRate == Rate1Mbps && DataRateOf(t.regs[RF_SETUP]) == Rate2Mbps
      && c.crcLength == Crc16Bit && CrcLengthOf(t.regs[CONFIG]) == Crc8Bit
      && c.txPower == PowerLevelOf(t.regs[RF_SETUP])
      && c.retryCount == RetryCountOf(t.regs[SETUP_RETR]) && c.retryDelay == RetryDelayOf(t.regs[SETUP_RETR])
      && c.channel == t.regs[RF_CH] && c.rxPipeEnabled == t.regs[EN_RXADDR]
  {
    ResetDefaults(s);
  }

  /**
    The registers after begin on a responding chip: reset, then the variant probe
    writes RF_SETUP | 0x80, the chip keeps the byte it reads back as `probe`, and the
    driver writes the old value back only when `probe` shows bit 7; a chip known to be
    the + variant gets the activation command.
  */
  function BeginRegisters(s: ChipState, probe: byte, wasPlus: bool): ChipState {
    ProbedRegisters(ResetRegisters(s), probe, wasPlus)
  }

  /** The variant probe on its own, from the registers t that reset left. */
  function ProbedRegisters(t: ChipState, probe: byte, wasPlus: bool): ChipState {
    var v := ProbeWrites(t, probe);
    if wasPlus || probe & 0x80 != 0 then v.(featuresActivated := true) else v
  }

  /**
    The probe's register traffic: RF_SETUP | 0x80 is written, the chip keeps `probe`
    of it (a base chip drops the reserved bit 7), and the old byte is written again
    when `probe` shows bit 7.
  */
  function ProbeWrites(t: ChipState, probe: byte): ChipState {
    var setup := t.regs[RF_SETUP];
    var u := t.SetReg(RF_SETUP, setup | 0x80).SetReg(RF_SETUP, probe);
    if probe & 0x80 != 0 then u.SetReg(RF_SETUP, setup) else u
  }

  /**
    RF_SETUP is restored to its reset value only on a chip whose read-back shows
    bit 7; otherwise it keeps what the chip read back, so it holds the reset value
    exactly when the chip kept the written byte without bit 7. CONT_WAVE is bit 7, so
    the carrier wave is off after begin either way. The rest of the reset state is
    untouched by the probe.
  */
  lemma BeginProbeOutcome(s: ChipState, probe: byte, wasPlus: bool)
    ensures var t := BeginRegisters(s, probe, wasPlus);
      && t.regs[RF_SETUP] == (if probe & 0x80 != 0 then 0x0E else probe)
      && (t.regs[RF_SETUP] == 0x0E <==> probe & 0x80 != 0 || probe == 0x0E)
      && !CarrierWaveOf(t.regs[RF_SETUP])
      && (probe & 0x80 != 0 || probe == 0x0E ==>
            DataRateOf(t.regs[RF_SETUP]) == Rate2Mbps && PowerLevelOf(t.regs[RF_SETUP]) == Power0dBm
            && !CarrierWaveOf(t.regs[RF_SETUP]))
      && t.featuresActivated == (wasPlus || probe & 0x80 != 0 || s.featuresActivated)
      && t == ResetRegisters(s).(regs := t.regs, featuresActivated := t.featuresActivated)
      && forall q :: 0 <= q < REGISTER_CELLS && q != RF_SETUP as int ==> t.regs[q] == ResetRegisters(s).regs[q]
  {
    ResetDefaults(s);
  }

  /** The registers after openReadingPipe on a valid pipe. */
  function OpenedRegisters(s: ChipState, pipe: byte, address: seq<byte>, width: byte, size: byte): ChipState
    requires pipe < MAX_PIPES && 1 <= width as int <= |address|
  {
    var t := s.SetReg(EN_RXADDR, s.regs[EN_RXADDR] | PipeBit(pipe));
    PipeAddressWritten(t, pipe, address, width).SetReg(RX_PW_P0 + pipe, size)
  }

  /** openReadingPipe's address write: `width` bytes for pipes 0 and 1, only the last one for pipes 2..5. */
  function PipeAddressWritten(s: ChipState, pipe: byte, address: seq<byte>, width: byte): ChipState
    requires pipe < MAX_PIPES && 1 <= width as int <= |address|
  {
    if pipe <= 1 then s.Written(RX_ADDR_P0 + pipe, address[..width])
    else s.SetReg(RX_ADDR_P0 + pipe, address[width - 1])
  }

  /** The cached record of a pipe after openReadingPipe: the first `width` address bytes copied in. */
  function OpenedPipe(p: Pipe, address: seq<byte>, width: AddressLength, size: PayloadWidth): (q: Pipe)
    requires width as int <= |address|
    ensures q.address[..width] == address[..width] && q.address[width..] == p.address[width..]
    ensures q == p.(address := q.address, addressWidth := width, payloadSize := size)
  {
    p.(address := CopyPrefix(p.address, address, width as nat), addressWidth := width, payloadSize := size)
  }

  /**
    openReadingPipe enables exactly its pipe and gives it the payload width; besides
    EN_RXADDR and the pipe's address and width registers no cell changes, and
    neither do the transmit address or the FIFOs.
  */
  lemma OpenedRegistersEnable(s: ChipState, pipe: byte, address: seq<byte>, width: byte, size: byte)
    requires pipe < MAX_PIPES && MIN_ADDR_SIZE <= width <= MAX_ADDR_SIZE && width as int <= |address|
    ensures var t := OpenedRegisters(s, pipe, address, width, size);
      && (forall q: byte {:trigger BitSet(t.regs[EN_RXADDR], q)} ::
            BitSet(t.regs[EN_RXADDR], q) == (q == pipe || BitSet(s.regs[EN_RXADDR], q)))
      && t.regs[RX_PW_P0 + pipe] == size
      && t.txAddr == s.txAddr
      && t.txFifo == s.txFifo && t.rxFifo == s.rxFifo && t.ackFifo == s.ackFifo
      && t.featuresActivated == s.featuresActivated
      && (forall q ::
            (0 <= q < REGISTER_CELLS && q != EN_RXADDR as int && q != (RX_ADDR_P0 + pipe) as int &&
             q != (RX_PW_P0 + pipe) as int) ==> t.regs[q] == s.regs[q])
  {
    var t := OpenedRegisters(s, pipe, address, width, size);
    var en := s.regs[EN_RXADDR] | PipeBit(pipe);
    assert t.regs[EN_RXADDR] == en;
    forall q: byte ensures BitSet(en, q) == (q == pipe || BitSet(s.regs[EN_RXADDR], q)) {
      assert BitSet(en, q) == BitSet(WithBit(s.regs[EN_RXADDR], pipe, true), q);
    }
  }

  /**
    openReadingPipe writes all `width` address bytes for pipes 0 and 1 but only the
    last byte for pipes 2..5, which keep sharing pipe 1's other bytes. Opening pipe 1
    therefore moves the effective address of pipes 2..5 without touching their registers.
  */
  lemma OpenedRegistersAddress(s: ChipState, pipe: byte, address: seq<byte>, width: byte, size: byte)
    requires pipe < MAX_PIPES && MIN_ADDR_SIZE <= width <= MAX_ADDR_SIZE && width as int <= |address|
    ensures var t := OpenedRegisters(s, pipe, address, width, size);
      && (pipe == 0 ==> t.rxAddrP0 == address[..width] && t.rxAddrP1 == s.rxAddrP1)
      && (pipe == 1 ==> t.rxAddrP1 == address[..width] && t.rxAddrP0 == s.rxAddrP0)
      && (pipe >= 2 ==> t.regs[RX_ADDR_P0 + pipe] == address[width - 1]
                        && t.rxAddrP0 == s.rxAddrP0 && t.rxAddrP1 == s.rxAddrP1
                        && t.EffectiveAddress(pipe) == [address[width - 1]] + s.EffectiveAddress(pipe)[1..])
      && (pipe == 1 ==>
            forall q: byte :: (2 <= q < MAX_PIPES) ==> t.EffectiveAddress(q) == [s.regs[RX_ADDR_P0 + q]] + address[1..width])
  {
  }

  /**
    For pipes 2..5 the address the driver caches and the address the chip matches
    agree only when the supplied address's last byte equals its first: the driver
    writes the last byte into the register that supplies the first byte.
  */
  lemma PipeAddressCacheVersusWire(s: ChipState, pipe: byte, address: seq<byte>, width: byte, size: byte)
    requires 2 <= pipe < MAX_PIPES && MIN_ADDR_SIZE <= width <= MAX_ADDR_SIZE && width as int <= |address|
    requires s.rxAddrP1 == address[..width]
    ensures var t := OpenedRegisters(s, pipe, address, width, size);
      t.EffectiveAddress(pipe) == address[..width] <==> address[width - 1] == address[0]
  {
    var t := OpenedRegisters(s, pipe, address, width, size);
    assert t.EffectiveAddress(pipe) == [address[width - 1]] + address[1..width];
    if address[width - 1] == address[0] {
      PrefixSplit(address, width as nat);
    } else {
      assert t.EffectiveAddress(pipe)[0] != address[..width][0];
    }
  }

  /** A nonempty prefix is its first byte followed by the rest of the prefix. */
  lemma PrefixSplit(a: seq<byte>, w: nat)
    requires 1 <= w <= |a|
    ensures a[..w] == [a[0]] + a[1..w]
  {
  }

  /** RX_PW cells after setPayloadSize has visited pipes 0..n-1, one pipe at a time. */
  function PayloadCells(regs: RegisterFile, enabled: byte, size: byte, n: nat): RegisterFile
    requires n <= MAX_PIPES as int
  {
    if n == 0 then regs
    else
      var before := PayloadCells(regs, enabled, size, n - 1);
      if BitSet(enabled, (n - 1) as byte) then before[RxWidthCell(n - 1) := size] else before
  }

  /** The cached pipes after setPayloadSize has visited pipes 0..n-1, one pipe at a time. */
  function PayloadPipes(pipes: seq<Pipe>, enabled: byte, size: PayloadWidth, n: nat): (r: seq<Pipe>)
    requires n <= MAX_PIPES as int && |pipes| == MAX_PIPES as int
    ensures |r| == MAX_PIPES as int
  {
    if n == 0 then pipes
    else
      var before := PayloadPipes(pipes, enabled, size, n - 1);
      if BitSet(enabled, (n - 1) as byte) then before[n - 1 := before[n - 1].(payloadSize := size)] else before
  }

  /** One pass of setPayloadSize's loop, on the cells and on the cached pipes. */
  lemma PayloadStep(regs: RegisterFile, pipes: seq<Pipe>, enabled: byte, size: PayloadWidth, i: nat)
    requires i < MAX_PIPES as int && |pipes| == MAX_PIPES as int
    ensures var cells := PayloadCells(regs, enabled, size, i);
      PayloadCells(regs, enabled, size, i + 1) == if BitSet(enabled, i as byte) then cells[RxWidthCell(i) := size] else cells
    ensures var before := PayloadPipes(pipes, enabled, size, i);
      PayloadPipes(pipes, enabled, size, i + 1) ==
        if BitSet(enabled, i as byte) then before[i := before[i].(payloadSize := size)] else before
  {
  }

  /** Cell q after pipes 0..n-1 were visited: the new width exactly on the enabled pipes' RX_PW cells. */
  lemma {:induction false} PayloadCellsAt(regs: RegisterFile, enabled: byte, size: byte, n: nat, q: int)
    requires n <= MAX_PIPES as int && 0 <= q < REGISTER_CELLS
    ensures PayloadCells(regs, enabled, size, n)[q] ==
      if RX_PW_P0 as int <= q < RX_PW_P0 as int + n && BitSet(enabled, (q - RX_PW_P0 as int) as byte)
      then size else regs[q]
  {
    if n > 0 {
      PayloadCellsAt(regs, enabled, size, n - 1, q);
      var before := PayloadCells(regs, enabled, size, n - 1);
      if q == RxWidthCell(n - 1) {
        assert (q - RX_PW_P0 as int) as byte == (n - 1) as byte;
      } else {
        assert PayloadCells(regs, enabled, size, n)[q] == before[q];
      }
    }
  }

  /** Pipe record p after pipes 0..n-1 were visited. */
  lemma {:induction false} PayloadPipesAt(pipes: seq<Pipe>, enabled: byte, size: PayloadWidth, n: nat, p: int)
    requires n <= MAX_PIPES as int && |pipes| == MAX_PIPES as int && 0 <= p < MAX_PIPES as int
    ensures PayloadPipes(pipes, enabled, size, n)[p] ==
      if p < n && BitSet(enabled, p as byte) then pipes[p].(payloadSize := size) else pipes[p]
  {
    if n > 0 {
      PayloadPipesAt(pipes, enabled, size, n - 1, p);
      var before := PayloadPipes(pipes, enabled, size, n - 1);
      if p != n - 1 {
        assert PayloadPipes(pipes, enabled, size, n)[p] == before[p];
      } else {
        assert before[p] == pipes[p];
      }
    }
  }

  /**
    setPayloadSize rewrites the width of exactly the enabled pipes, register and
    cache alike, and leaves every other pipe and register as it was.
  */
  lemma {:induction false} PayloadSizeOnEnabledPipes(regs: RegisterFile, pipes: seq<Pipe>, enabled: byte, size: PayloadWidth)
    requires |pipes| == MAX_PIPES as int
    ensures forall p :: 0 <= p < MAX_PIPES as int ==>
      && PayloadCells(regs, enabled, size, 6)[RxWidthCell(p)] ==
           (if BitSet(enabled, p as byte) then size else regs[RxWidthCell(p)])
      && PayloadPipes(pipes, enabled, size, 6)[p] ==
           (if BitSet(enabled, p as byte) then pipes[p].(payloadSize := size) else pipes[p])
    ensures forall q :: 0 <= q < REGISTER_CELLS && !(RX_PW_P0 as int <= q < RX_PW_P0 as int + 6) ==>
      PayloadCells(regs, enabled, size, 6)[q] == regs[q]
  {
    forall p | 0 <= p < MAX_PIPES as int
      ensures PayloadCells(regs, enabled, size, 6)[RxWidthCell(p)] ==
           (if BitSet(enabled, p as byte) then size else regs[RxWidthCell(p)])
      ensures PayloadPipes(pipes, enabled, size, 6)[p] ==
           (if BitSet(enabled, p as byte) then pipes[p].(payloadSize := size) else pipes[p])
    {
      PayloadCellsAt(regs, enabled, size, 6, RxWidthCell(p));
      assert (RxWidthCell(p) - RX_PW_P0 as int) as byte == p as byte;
      PayloadPipesAt(pipes, enabled, size, 6, p);
    }
    forall q | 0 <= q < REGISTER_CELLS && !(RX_PW_P0 as int <= q < RX_PW_P0 as int + 6)
      ensures PayloadCells(regs, enabled, size, 6)[q] == regs[q]
    {
      PayloadCellsAt(regs, enabled, size, 6, q);
    }
  }

  /** The register-file index of pipe p's RX_PW register. */
  function RxWidthCell(p: int): int {
    RX_PW_P0 as int + p
  }

  /** The chip after startWrite's mode switch, interrupt clear and payload load. */
  function Launched(s: ChipState, data: seq<byte>, multicast: bool): ChipState {
    s.SetReg(CONFIG, TxModeConfig(s.regs[CONFIG]))
     .SetReg(STATUS, CLEAR_FLAGS)
     .(txFifo := s.txFifo + [TxEntry(data, multicast)])
  }

  /** The chip after a read that found `reported` as the dynamic width, before the payload is drained. */
  function BeforeDrain(s: ChipState, dynamic: bool, reported: byte): ChipState {
    if dynamic && reported > MAX_PAYLOAD_SIZE then s.(rxFifo := []) else s
  }

  // ---------------------------------------------------------------------------
  // Small facts about register updates
  // ---------------------------------------------------------------------------

  lemma SetRegTwice(s: ChipState, r: byte, a: byte, b: byte)
    requires r < 0x20
    ensures s.SetReg(r, a).SetReg(r, b) == s.SetReg(r, b)
  {
    assert s.SetReg(r, a).SetReg(r, b).regs == s.SetReg(r, b).regs;
  }

  lemma SetRegSame(s: ChipState, r: byte)
    requires r < 0x20
    ensures s.SetReg(r, s.regs[r]) == s
  {
    assert s.SetReg(r, s.regs[r]).regs == s.regs;
  }

  // ---------------------------------------------------------------------------
  // The driver object
  // ---------------------------------------------------------------------------

  class NRF24 {
    /** The register file the SPI transactions reach. */
    const chip: Chip
    /** The per-pipe records (the pipes[6] member). */
    const pipes: array<Pipe>
    /** The cached transmit address (the tx_address[5] member). */
    const txAddress: array<byte>
    var settings: Settings
    var stats: Statistics

    /** The objects the driver is wired to. */
    ghost predicate Valid() {
      && chip.Valid()
      && pipes.Length == MAX_PIPES as int
      && txAddress.Length == MAX_ADDR_SIZE as int
      && txAddress != chip.regs
    }

    /** The constructor: default settings, zeroed statistics, every pipe at its default. */
    constructor (chip: Chip)
      requires chip.Valid()
      ensures Valid() && this.chip == chip
      ensures fresh(pipes) && fresh(txAddress)
      ensures settings == INITIAL_SETTINGS && stats == ZERO_STATISTICS
      ensures pipes[..] == seq(6, _ => DEFAULT_PIPE) && txAddress[..] == [0, 0, 0, 0, 0]
    {
      this.chip := chip;
      settings := INITIAL_SETTINGS;
      stats := ZERO_STATISTICS;
      pipes := new Pipe[MAX_PIPES as int];
      txAddress := new byte[MAX_ADDR_SIZE as int](_ => 0);
      new;
      for i := 0 to MAX_PIPES as int
        modifies pipes
        invariant forall j :: 0 <= j < i ==> pipes[j] == DEFAULT_PIPE
      {
        pipes[i] := DEFAULT_PIPE;
      }
      assert pipes[..] == seq(6, _ => DEFAULT_PIPE);
      assert txAddress[..] == [0, 0, 0, 0, 0];
    }

    // -------------------------------------------------------------------------
    // Register transactions
    // -------------------------------------------------------------------------

    /** readReg: frame the address as an R_REGISTER opcode and read one byte back. */
    method ReadReg(reg: byte) returns (v: byte)
      requires Valid()
      ensures v == chip.regs[reg & 0x1F]
      ensures reg < 0x20 ==> v == chip.regs[reg]
    {
      v := chip.ReadRegister(ReadOpcode(reg));
    }

    /** writeReg with a single data byte, for a one-byte register. */
    method WriteReg(reg: byte, v: byte)
      requires Valid() && reg < 0x20 && !IsAddressRegister(reg)
      modifies chip, chip.regs
      ensures Valid()
      ensures chip.State() == old(chip.State()).SetReg(reg, v)
    {
      chip.WriteRegister(WriteOpcode(reg), [v]);
    }

    /** writeReg with a buffer of data bytes. */
    method WriteRegBytes(reg: byte, data: seq<byte>)
      requires Valid() && reg < 0x20
      modifies chip, chip.regs
      ensures Valid()
      ensures chip.State() == old(chip.State()).Written(reg, data)
    {
      chip.WriteRegister(WriteOpcode(reg), data);
    }

    /** writeCommand: a lone opcode byte. */
    method WriteCommand(cmd: byte)
      requires Valid()
      modifies chip
      ensures Valid()
      ensures cmd == FLUSH_TX ==> chip.State() == old(chip.State()).(txFifo := [])
      ensures cmd == FLUSH_RX ==> chip.State() == old(chip.State()).(rxFifo := [])
      ensures cmd != FLUSH_TX && cmd != FLUSH_RX ==> chip.State() == old(chip.State())
    {
      chip.Command(cmd);
    }

    method FlushTx()
      requires Valid()
      modifies chip
      ensures Valid()
      ensures chip.State() == old(chip.State()).(txFifo := [])
    {
      WriteCommand(FLUSH_TX);
    }

    method FlushRx()
      requires Valid()
      modifies chip
      ensures Valid()
      ensures chip.State() == old(chip.State()).(rxFifo := [])
    {
      WriteCommand(FLUSH_RX);
    }

    method ClearInterrupts()
      requires Valid()
      modifies chip, chip.regs
      ensures Valid()
      ensures chip.State() == old(chip.State()).SetReg(STATUS, CLEAR_FLAGS)
    {
      WriteReg(STATUS, CLEAR_FLAGS);
    }

    method PowerUp()
      requires Valid()
      modifies chip, chip.regs
      ensures Valid()
      ensures chip.State() == old(chip.State()).SetReg(CONFIG, WithPower(old(chip.regs[CONFIG]), true))
    {
      var config := ReadReg(CONFIG);
      WriteReg(CONFIG, WithPower(config, true));
    }

    method PowerDown()
      requires Valid()
      modifies chip, chip.regs
      ensures Valid()
      ensures chip.State() == old(chip.State()).SetReg(CONFIG, WithPower(old(chip.regs[CONFIG]), false))
    {
      var config := ReadReg(CONFIG);
      WriteReg(CONFIG, WithPower(config, false));
    }

    /** activateFeatures: the undocumented ACTIVATE command 0x50 with its key 0x73. */
    method ActivateFeatures()
      requires Valid()
      modifies chip
      ensures Valid()
      ensures chip.State() == old(chip.State()).(featuresActivated := true)
    {
      chip.Activate(0x50, 0x73);
    }

    /** isChipConnected: the SETUP_AW sanity check. */
    method IsChipConnected() returns (connected: bool)
      requires Valid()
      ensures connected == ChipConnected(chip.regs[SETUP_AW])
    {
      var setupAw := ReadReg(SETUP_AW);
      connected := setupAw & 0x0C == 0x00 && setupAw & 0x03 != 0x00;
    }

    /** isConnected: the public form of the same check. */
    method IsConnected() returns (connected: bool)
      requires Valid()
      ensures connected <==> 1 <= chip.regs[SETUP_AW] & 0x0F <= 3
    {
      connected := IsChipConnected();
      ChipConnectedMeaning(chip.regs[SETUP_AW]);
    }

    /** setRegisterBit: read-modify-write of one bit of a one-byte register. */
    method SetRegisterBit(reg: byte, bit: byte, value: bool)
      requires Valid() && reg < 0x20 && !IsAddressRegister(reg)
      modifies chip, chip.regs
      ensures Valid()
      ensures chip.State() == old(chip.State()).SetReg(reg, WithBit(old(chip.regs[reg]), bit, value))
    {
      var v := ReadReg(reg);
      WriteReg(reg, WithBit(v, bit, value));
    }

    /** getRegisterBit. */
    method GetRegisterBit(reg: byte, bit: byte) returns (isSet: bool)
      requires Valid() && reg < 0x20
      ensures isSet == BitSet(chip.regs[reg], bit)
    {
      var v := ReadReg(reg);
      isSet := v & BitMask(bit) != 0;
    }

    // -------------------------------------------------------------------------
    // Initialisation and reset
    // -------------------------------------------------------------------------

    /**
      begin, after the bus set-up: give up when the chip does not answer the probe,
      otherwise reset it and detect the + variant. `probe` is the RF_SETUP byte the
      chip returns after the driver wrote bit 7 into it.
    */
    method Begin(probe: byte) returns (ok: bool)
      requires Valid()
      modifies this, chip, chip.regs
      ensures Valid()
      ensures ok == ChipConnected(old(chip.regs[SETUP_AW]))
      ensures !ok ==> chip.State() == old(chip.State()) && settings == old(settings)
      ensures ok ==> chip.State() == BeginRegisters(old(chip.State()), probe, old(settings.isPlusVariant))
      ensures ok ==>
        settings == ResetSettings(old(settings)).(isPlusVariant := old(settings.isPlusVariant) || probe & 0x80 != 0)
      ensures stats == old(stats)
    {
      ok := IsChipConnected();
      if !ok {
        return;
      }
      Reset();
      DetectVariant(probe);
    }

    /** begin's variant probe: set bit 7 of RF_SETUP and restore the byte only when `probe` shows it. */
    method DetectVariant(probe: byte)
      requires Valid()
      modifies this, chip, chip.regs
      ensures Valid()
      ensures chip.State() == ProbedRegisters(old(chip.State()), probe, old(settings.isPlusVariant))
      ensures settings == old(settings).(isPlusVariant := old(settings.isPlusVariant) || probe & 0x80 != 0)
      ensures stats == old(stats)
    {
      var plus := ProbeRfSetup(probe);
      if plus {
        settings := settings.(isPlusVariant := true);
      }
      if settings.isPlusVariant {
        ActivateFeatures();
      }
    }

    /**
      The probe's register traffic; the chip keeps `probe` of the byte written, and
      `plus` is whether reading it back shows bit 7.
    */
    method ProbeRfSetup(probe: byte) returns (plus: bool)
      requires Valid()
      modifies chip, chip.regs
      ensures Valid()
      ensures plus == (probe & 0x80 != 0)
      ensures chip.State() == ProbeWrites(old(chip.State()), probe)
    {
      var setup := ReadReg(RF_SETUP);
      WriteReg(RF_SETUP, setup | 0x80);
      chip.Retain(RF_SETUP, probe);
      var back := ReadReg(RF_SETUP);
      plus := back & 0x80 != 0;
      if plus {
        WriteReg(RF_SETUP, setup);
      }
    }

    /** Reset's first block. */
    method WriteConfigurationDefaults()
      requires Valid()
      modifies chip, chip.regs
      ensures Valid()
      ensures chip.State() == ResetConfiguration(old(chip.State()))
    {
      PowerDown();
      WriteReg(CONFIG, 0x08);
      WriteReg(EN_AA, 0x3F);
      WriteReg(EN_RXADDR, 0x03);
      WriteReg(SETUP_AW, 0x03);
      WriteReg(SETUP_RETR, 0x03);
      WriteReg(RF_CH, 0x02);
      WriteReg(RF_SETUP, 0x0E);
      WriteReg(STATUS, 0x70);
    }

    /** Reset's third block. */
    method WriteDefaultAddresses()
      requires Valid()
      modifies chip, chip.regs
      ensures Valid()
      ensures chip.State() == ResetAddresses(old(chip.State()))
    {
      WriteRegBytes(RX_ADDR_P0, DEFAULT_ADDRESS);
      WriteRegBytes(RX_ADDR_P1, DEFAULT_ADDRESS);
      WriteReg(RX_ADDR_P2, 0xC2);
      WriteReg(RX_ADDR_P3, 0xC3);
      WriteReg(RX_ADDR_P4, 0xC4);
      WriteReg(RX_ADDR_P5, 0xC5);
      WriteRegBytes(TX_ADDR, DEFAULT_ADDRESS);
    }

    /** Reset's last block. */
    method WriteDefaultWidthsAndFeatures()
      requires Valid()
      modifies chip, chip.regs
      ensures Valid()
      ensures chip.State() == ResetWidthsAndFeatures(old(chip.State()))
    {
      WriteReg(RX_PW_P0, 0x20);
      WriteReg(RX_PW_P1, 0x20);
      WriteReg(RX_PW_P2, 0x20);
      WriteReg(RX_PW_P3, 0x20);
      WriteReg(RX_PW_P4, 0x20);
      WriteReg(RX_PW_P5, 0x20);
      WriteReg(FEATURE, 0x00);
      WriteReg(DYNPD, 0x00);
    }

    /** reset: power down, rewrite every configuration register, flush both FIFOs, reset the settings. */
    method Reset()
      requires Valid()
      modifies this, chip, chip.regs
      ensures Valid()
      ensures chip.State() == ResetRegisters(old(chip.State()))
      ensures settings == ResetSettings(old(settings)) && stats == old(stats)
    {
      WriteResetRegisters();
      settings := ResetSettings(settings);
    }

    /** Reset's register writes, commands included. */
    method WriteResetRegisters()
      requires Valid()
      modifies chip, chip.regs
      ensures Valid()
      ensures chip.State() == ResetRegisters(old(chip.State()))
    {
      WriteConfigurationDefaults();
      FlushTx();
      FlushRx();
      ClearInterrupts();
      WriteDefaultAddresses();
      WriteDefaultWidthsAndFeatures();
    }

    // -------------------------------------------------------------------------
    // Power and mode
    // -------------------------------------------------------------------------

    method SetPowerUp(up: bool)
      requires Valid()
      modifies chip, chip.regs
      ensures Valid()
      ensures chip.State() == old(chip.State()).SetReg(CONFIG, WithPower(old(chip.regs[CONFIG]), up))
    {
      if up {
        PowerUp();
      } else {
        PowerDown();
      }
    }

    method IsPoweredUp() returns (up: bool)
      requires Valid()
      ensures up == (chip.regs[CONFIG] & CONFIG_PWR_UP != 0)
    {
      up := GetRegisterBit(CONFIG, 1);
    }

    /** setModeRX: PRIM_RX set and powered up (the chip-enable line is not modelled). */
    method SetModeRX()
      requires Valid()
      modifies chip, chip.regs
      ensures Valid()
      ensures chip.State() == old(chip.State()).SetReg(CONFIG, RxModeConfig(old(chip.regs[CONFIG])))
    {
      SetRegisterBit(CONFIG, 0, true);
      ghost var mid := chip.State();
      PowerUp();
      SetRegTwice(old(chip.State()), CONFIG, mid.regs[CONFIG], RxModeConfig(old(chip.regs[CONFIG])));
    }

    /** setModeTX: PRIM_RX cleared and powered up. */
    method SetModeTX()
      requires Valid()
      modifies chip, chip.regs
      ensures Valid()
      ensures chip.State() == old(chip.State()).SetReg(CONFIG, TxModeConfig(old(chip.regs[CONFIG])))
    {
      SetRegisterBit(CONFIG, 0, false);
      ghost var mid := chip.State();
      PowerUp();
      SetRegTwice(old(chip.State()), CONFIG, mid.regs[CONFIG], TxModeConfig(old(chip.regs[CONFIG])));
    }

    /** setModeStandby: powered up, the primary mode bit kept. */
    method SetModeStandby()
      requires Valid()
      modifies chip, chip.regs
      ensures Valid()
      ensures chip.State() == old(chip.State()).SetReg(CONFIG, WithPower(old(chip.regs[CONFIG]), true))
    {
      PowerUp();
    }

    method IsModeTX() returns (tx: bool)
      requires Valid()
      ensures tx == (chip.regs[CONFIG] & CONFIG_PRIM_RX == 0)
    {
      var rx := GetRegisterBit(CONFIG, 0);
      tx := !rx;
    }

    method IsModeRX() returns (rx: bool)
      requires Valid()
      ensures rx == (chip.regs[CONFIG] & CONFIG_PRIM_RX != 0)
    {
      rx := GetRegisterBit(CONFIG, 0);
    }

    // -------------------------------------------------------------------------
    // Channel and frequency
    // -------------------------------------------------------------------------

    method SetChannel(x: byte)
      requires Valid()
      modifies this, chip, chip.regs
      ensures Valid()
      ensures chip.State() == old(chip.State()).SetReg(RF_CH, ClampChannel(x))
      ensures settings == old(settings).(channel := ClampChannel(x)) && stats == old(stats)
    {
      var ch := x;
      if ch > MAX_CHANNEL {
        ch := MAX_CHANNEL;
      }
      settings := settings.(channel := ch);
      WriteReg(RF_CH, ch);
    }

    method GetChannel() returns (ch: byte)
      requires Valid()
      ensures ch == chip.regs[RF_CH]
    {
      ch := ReadReg(RF_CH);
    }

    /** setFrequency: a no-op outside 2400..2525 MHz. */
    method SetFrequency(mhz: uint16)
      requires Valid()
      modifies this, chip, chip.regs
      ensures Valid()
      ensures FrequencyChannel(mhz).None? ==> chip.State() == old(chip.State()) && settings == old(settings)
      ensures FrequencyChannel(mhz).Some? ==>
        && chip.State() == old(chip.State()).SetReg(RF_CH, FrequencyChannel(mhz).value)
        && settings == old(settings).(channel := FrequencyChannel(mhz).value)
      ensures stats == old(stats)
    {
      if mhz < 2400 || mhz > 2525 {
        return;
      }
      var ch: byte := (mhz - 2400) as byte;
      SetChannel(ch);
    }

    method GetFrequency() returns (mhz: uint16)
      requires Valid()
      ensures mhz == ChannelFrequency(chip.regs[RF_CH])
    {
      var ch := GetChannel();
      mhz := 2400 + ch as uint16;
    }

    // -------------------------------------------------------------------------
    // RF_SETUP fields
    // -------------------------------------------------------------------------

    method SetDataRate(rate: DataRate)
      requires Valid()
      modifies this, chip, chip.regs
      ensures Valid()
      ensures chip.State() == old(chip.State()).SetReg(RF_SETUP, WithDataRate(old(chip.regs[RF_SETUP]), rate))
      ensures settings == old(settings).(dataRate := rate) && stats == old(stats)
    {
      var rfSetup := ReadReg(RF_SETUP);
      WriteReg(RF_SETUP, WithDataRate(rfSetup, rate));
      settings := settings.(dataRate := rate);
    }

    method GetDataRate() returns (rate: DataRate)
      requires Valid()
      ensures rate == DataRateOf(chip.regs[RF_SETUP])
    {
      var rfSetup := ReadReg(RF_SETUP);
      if rfSetup & RF_SETUP_RF_DR_LOW != 0 {
        rate := Rate250Kbps;
      } else if rfSetup & RF_SETUP_RF_DR_HIGH != 0 {
        rate := Rate2Mbps;
      } else {
        rate := Rate1Mbps;
      }
    }

    method SetPowerLevel(level: PowerLevel)
      requires Valid()
      modifies this, chip, chip.regs
      ensures Valid()
      ensures chip.State() == old(chip.State()).SetReg(RF_SETUP, WithPowerLevel(old(chip.regs[RF_SETUP]), level))
      ensures settings == old(settings).(txPower := level) && stats == old(stats)
    {
      var rfSetup := ReadReg(RF_SETUP);
      WriteReg(RF_SETUP, WithPowerLevel(rfSetup, level));
      settings := settings.(txPower := level);
    }

    method GetPowerLevel() returns (level: PowerLevel)
      requires Valid()
      ensures level == PowerLevelOf(chip.regs[RF_SETUP])
    {
      var rfSetup := ReadReg(RF_SETUP);
      level := PowerLevelFromCode((rfSetup & RF_SETUP_RF_PWR) >> 1);
    }

    method SetCarrierWave(enable: bool)
      requires Valid()
      modifies chip, chip.regs
      ensures Valid()
      ensures chip.State() == old(chip.State()).SetReg(RF_SETUP, WithCarrierWave(old(chip.regs[RF_SETUP]), enable))
    {
      var rfSetup := ReadReg(RF_SETUP);
      WriteReg(RF_SETUP, WithCarrierWave(rfSetup, enable));
    }

    method IsCarrierWave() returns (enabled: bool)
      requires Valid()
      ensures enabled == CarrierWaveOf(chip.regs[RF_SETUP])
    {
      var rfSetup := ReadReg(RF_SETUP);
      enabled := rfSetup & RF_SETUP_CONT_WAVE != 0;
    }

    /** enterTestMode: carrier wave on, then transmit mode (chip enable then held high, not modelled). */
    method EnterTestMode()
      requires Valid()
      modifies chip, chip.regs
      ensures Valid()
      ensures var wave := WithCarrierWave(old(chip.regs[RF_SETUP]), true);
        chip.State() == old(chip.State()).SetReg(RF_SETUP, wave).SetReg(CONFIG, TxModeConfig(old(chip.regs[CONFIG])))
    {
      SetCarrierWave(true);
      SetModeTX();
    }

    /** exitTestMode: carrier wave off (after chip enable is dropped, not modelled). */
    method ExitTestMode()
      requires Valid()
      modifies chip, chip.regs
      ensures Valid()
      ensures chip.State() == old(chip.State()).SetReg(RF_SETUP, WithCarrierWave(old(chip.regs[RF_SETUP]), false))
    {
      SetCarrierWave(false);
    }

    // -------------------------------------------------------------------------
    // CRC
    // -------------------------------------------------------------------------

    method SetCRCLength(length: CrcLength)
      requires Valid()
      modifies this, chip, chip.regs
      ensures Valid()
      ensures chip.State() == old(chip.State()).SetReg(CONFIG, WithCrcLength(old(chip.regs[CONFIG]), length))
      ensures settings == old(settings).(crcLength := length) && stats == old(stats)
    {
      var config := ReadReg(CONFIG);
      WriteReg(CONFIG, WithCrcLength(config, length));
      settings := settings.(crcLength := length);
    }

    method GetCRCLength() returns (length: CrcLength)
      requires Valid()
      ensures length == CrcLengthOf(chip.regs[CONFIG])
    {
      var config := ReadReg(CONFIG);
      if config & CONFIG_EN_CRC == 0 {
        length := CrcDisabled;
      } else if config & CONFIG_CRCO != 0 {
        length := Crc16Bit;
      } else {
        length := Crc8Bit;
      }
    }

    // -------------------------------------------------------------------------
    // Addresses
    // -------------------------------------------------------------------------

    /** setAddressWidth, with its register and cache encodings as written. */
    method SetAddressWidth(w: AddressWidth)
      requires Valid()
      modifies this, chip, chip.regs
      ensures Valid()
      ensures chip.State() == old(chip.State()).SetReg(SETUP_AW, AddressWidthRegister(w))
      ensures settings == old(settings).(addressWidth := CachedAddressWidth(w)) && stats == old(stats)
    {
      var aw := w.Code() + 1;
      WriteReg(SETUP_AW, aw);
      settings := settings.(addressWidth := w.Code() + 2);
    }

    method GetAddressWidth() returns (code: int)
      requires Valid()
      ensures code == AddressWidthOf(chip.regs[SETUP_AW])
    {
      var aw := ReadReg(SETUP_AW);
      code := aw as int - 1;
    }

    /** memcpy of the first n bytes of src into txAddress. */
    method CopyToTxAddress(src: seq<byte>, n: byte)
      requires Valid() && n <= MAX_ADDR_SIZE && n as int <= |src|
      modifies txAddress
      ensures Valid()
      ensures txAddress[..] == CopyPrefix(old(txAddress[..]), src, n as nat)
    {
      for i := 0 to n as int
        invariant forall j :: 0 <= j < i ==> txAddress[j] == src[j]
        invariant forall j :: i <= j < txAddress.Length ==> txAddress[j] == old(txAddress[j])
      {
        txAddress[i] := src[i];
      }
    }

    /** setTxAddress: TX_ADDR and RX_ADDR_P0 both get the first addressWidth bytes. */
    method SetTxAddress(address: seq<byte>)
      requires Valid() && |address| >= settings.addressWidth as int
      modifies chip, chip.regs, txAddress
      ensures Valid()
      ensures var a := address[..settings.addressWidth];
        chip.State() == old(chip.State()).Written(TX_ADDR, a).Written(RX_ADDR_P0, a)
      ensures chip.txAddr == chip.rxAddrP0 == address[..settings.addressWidth]
      ensures txAddress[..] == CopyPrefix(old(txAddress[..]), address, settings.addressWidth as nat)
    {
      WriteRegBytes(TX_ADDR, address[..settings.addressWidth]);
      WriteRegBytes(RX_ADDR_P0, address[..settings.addressWidth]);
      CopyToTxAddress(address, settings.addressWidth);
    }

    method GetTxAddress() returns (address: seq<byte>)
      requires Valid()
      ensures address == txAddress[..settings.addressWidth]
    {
      address := txAddress[..settings.addressWidth];
    }

    /** openWritingPipe: setTxAddress under another name. */
    method OpenWritingPipe(address: seq<byte>)
      requires Valid() && |address| >= settings.addressWidth as int
      modifies chip, chip.regs, txAddress
      ensures Valid()
      ensures var a := address[..settings.addressWidth];
        chip.State() == old(chip.State()).Written(TX_ADDR, a).Written(RX_ADDR_P0, a)
      ensures txAddress[..] == CopyPrefix(old(txAddress[..]), address, settings.addressWidth as nat)
    {
      SetTxAddress(address);
    }

    // -------------------------------------------------------------------------
    // Pipes
    // -------------------------------------------------------------------------

    /**
      openReadingPipe: ignored for pipe >= 6; otherwise enable the pipe, write its
      address (one byte for pipes 2..5), its width, and cache the whole address.
    */
    method OpenReadingPipe(pipe: byte, address: seq<byte>)
      requires Valid() && (pipe < MAX_PIPES ==> |address| >= settings.addressWidth as int)
      modifies this, chip, chip.regs, pipes
      ensures Valid()
      ensures pipe >= MAX_PIPES ==>
        chip.State() == old(chip.State()) && settings == old(settings) && pipes[..] == old(pipes[..])
      ensures pipe < MAX_PIPES ==>
        var width := old(settings.addressWidth);
        && chip.State() == OpenedRegisters(old(chip.State()), pipe, address, width, old(settings.payloadSize))
        && pipes[..] == old(pipes[..])[pipe := OpenedPipe(old(pipes[pipe]), address, width, old(settings.payloadSize))]
        && settings == old(settings).(rxPipeEnabled := old(settings.rxPipeEnabled) | PipeBit(pipe))
      ensures stats == old(stats)
    {
      if pipe >= MAX_PIPES {
        return;
      }
      WriteReadingPipeRegisters(pipe, address);
      CacheOpenedPipe(pipe, address);
    }

    /** openReadingPipe's cache updates: the pipe record and the enabled-pipe mask. */
    method CacheOpenedPipe(pipe: byte, address: seq<byte>)
      requires Valid() && pipe < MAX_PIPES && |address| >= settings.addressWidth as int
      modifies this, pipes
      ensures Valid()
      ensures pipes[..] == old(pipes[..])[pipe := OpenedPipe(old(pipes[pipe]), address, old(settings.addressWidth), old(settings.payloadSize))]
      ensures settings == old(settings).(rxPipeEnabled := old(settings.rxPipeEnabled) | PipeBit(pipe))
      ensures stats == old(stats)
    {
      SetPipe(pipe, OpenedPipe(pipes[pipe], address, settings.addressWidth, settings.payloadSize));
      settings := settings.(rxPipeEnabled := settings.rxPipeEnabled | PipeBit(pipe));
    }

    /** openReadingPipe's register writes. */
    method WriteReadingPipeRegisters(pipe: byte, address: seq<byte>)
      requires Valid() && pipe < MAX_PIPES && |address| >= settings.addressWidth as int
      modifies chip, chip.regs
      ensures Valid()
      ensures chip.State() ==
        OpenedRegisters(old(chip.State()), pipe, address, settings.addressWidth, settings.payloadSize)
    {
      EnablePipe(pipe);
      WritePipeAddress(pipe, address);
      WriteReg(RX_PW_P0 + pipe, settings.payloadSize);
    }

    /** openReadingPipe's first step: set the pipe's EN_RXADDR bit. */
    method EnablePipe(pipe: byte)
      requires Valid() && pipe < MAX_PIPES
      modifies chip, chip.regs
      ensures Valid()
      ensures chip.State() == old(chip.State()).SetReg(EN_RXADDR, old(chip.regs[EN_RXADDR]) | PipeBit(pipe))
    {
      var enRxAddr := ReadReg(EN_RXADDR);
      WriteReg(EN_RXADDR, enRxAddr | BitMask(pipe));
    }

    /** openReadingPipe's address write: all addressWidth bytes for pipes 0 and 1, the last one otherwise. */
    method WritePipeAddress(pipe: byte, address: seq<byte>)
      requires Valid() && pipe < MAX_PIPES && |address| >= settings.addressWidth as int
      modifies chip, chip.regs
      ensures Valid()
      ensures chip.State() == PipeAddressWritten(old(chip.State()), pipe, address, settings.addressWidth)
    {
      if pipe <= 1 {
        WriteRegBytes(RX_ADDR_P0 + pipe, address[..settings.addressWidth]);
      } else {
        WriteReg(RX_ADDR_P0 + pipe, address[settings.addressWidth - 1]);
      }
    }

    /** Replace one cached pipe record. */
    method SetPipe(pipe: byte, p: Pipe)
      requires Valid() && pipe < MAX_PIPES
      modifies pipes
      ensures Valid()
      ensures pipes[..] == old(pipes[..])[pipe := p]
    {
      pipes[pipe] := p;
    }

    /** closePipe: clear the pipe's enable bit; its cached record stays. */
    method ClosePipe(pipe: byte)
      requires Valid()
      modifies this, chip, chip.regs
      ensures Valid()
      ensures pipe >= MAX_PIPES ==> chip.State() == old(chip.State()) && settings == old(settings)
      ensures pipe < MAX_PIPES ==>
        && chip.State() == old(chip.State()).SetReg(EN_RXADDR, old(chip.regs[EN_RXADDR]) & !PipeBit(pipe))
        && settings == old(settings).(rxPipeEnabled := old(settings.rxPipeEnabled) & !PipeBit(pipe))
      ensures stats == old(stats)
    {
      if pipe >= MAX_PIPES {
        return;
      }
      var enRxAddr := ReadReg(EN_RXADDR);
      WriteReg(EN_RXADDR, enRxAddr & !BitMask(pipe));
      settings := settings.(rxPipeEnabled := settings.rxPipeEnabled & !BitMask(pipe));
    }

    /** setPayloadSize(size): clamp to 32, make it the default, and apply it to every enabled pipe. */
    method SetPayloadSize(size: byte)
      requires Valid()
      modifies this, chip, chip.regs, pipes
      ensures Valid()
      ensures var s := if size > MAX_PAYLOAD_SIZE then MAX_PAYLOAD_SIZE else size;
        && chip.State() == old(chip.State()).(regs := PayloadCells(old(chip.regs[..]), settings.rxPipeEnabled, s, 6))
        && pipes[..] == PayloadPipes(old(pipes[..]), settings.rxPipeEnabled, s, 6)
        && settings == old(settings).(payloadSize := s, messageLen := s)
      ensures stats == old(stats)
    {
      var s := size;
      if s > MAX_PAYLOAD_SIZE {
        s := MAX_PAYLOAD_SIZE;
      }
      settings := settings.(payloadSize := s, messageLen := s);
      ghost var s0 := old(chip.State());
      ghost var p0 := old(pipes[..]);
      ghost var enabled := settings.rxPipeEnabled;
      for i := 0 to MAX_PIPES as int
        modifies chip, chip.regs, pipes
        invariant chip.State() == s0.(regs := PayloadCells(s0.regs, enabled, s, i))
        invariant pipes[..] == PayloadPipes(p0, enabled, s, i)
      {
        PayloadStep(s0.regs, p0, enabled, s, i);
        ApplyPayloadSize(i, s);
      }
    }

    /** One pass of setPayloadSize's loop: pipe i gets the width when it is enabled. */
    method ApplyPayloadSize(i: nat, size: PayloadWidth)
      requires Valid() && i < MAX_PIPES as int
      modifies chip, chip.regs, pipes
      ensures Valid()
      ensures BitSet(settings.rxPipeEnabled, i as byte) ==>
        && chip.State() == old(chip.State()).(regs := old(chip.regs[..])[RxWidthCell(i) := size])
        && pipes[..] == old(pipes[..])[i := old(pipes[i]).(payloadSize := size)]
      ensures !BitSet(settings.rxPipeEnabled, i as byte) ==>
        chip.State() == old(chip.State()) && pipes[..] == old(pipes[..])
    {
      var pipe := i as byte;
      assert (RX_PW_P0 + pipe) as int == RxWidthCell(i);
      if settings.rxPipeEnabled & BitMask(pipe) != 0 {
        WriteReg(RX_PW_P0 + pipe, size);
        SetPipe(pipe, pipes[i].(payloadSize := size));
      }
    }

    /** setPayloadSize(pipe, size): ignored for an invalid pipe or a size above 32. */
    method SetPipePayloadSize(pipe: byte, size: byte)
      requires Valid()
      modifies chip, chip.regs, pipes
      ensures Valid()
      ensures pipe >= MAX_PIPES || size > MAX_PAYLOAD_SIZE ==>
        chip.State() == old(chip.State()) && pipes[..] == old(pipes[..])
      ensures pipe < MAX_PIPES && size <= MAX_PAYLOAD_SIZE ==>
        && chip.State() == old(chip.State()).SetReg(RX_PW_P0 + pipe, size)
        && pipes[..] == old(pipes[..])[pipe := old(pipes[pipe]).(payloadSize := size)]
    {
      if pipe >= MAX_PIPES || size > MAX_PAYLOAD_SIZE {
        return;
      }
      WriteReg(RX_PW_P0 + pipe, size);
      SetPipe(pipe, pipes[pipe].(payloadSize := size));
    }

    method GetPayloadSize() returns (size: byte)
      requires Valid()
      ensures size == settings.payloadSize && size <= MAX_PAYLOAD_SIZE
    {
      size := settings.payloadSize;
    }

    method GetPipePayloadSize(pipe: byte) returns (size: byte)
      requires Valid()
      ensures size <= MAX_PAYLOAD_SIZE
      ensures size == if pipe < MAX_PIPES then pipes[pipe].payloadSize else 0
    {
      if pipe >= MAX_PIPES {
        return 0;
      }
      size := pipes[pipe].payloadSize;
    }

    // -------------------------------------------------------------------------
    // Auto-acknowledgment
    // -------------------------------------------------------------------------

    /** setAutoAck(enable): EN_AA for all six pipes; the per-pipe records are not touched. */
    method SetAutoAck(enable: bool)
      requires Valid()
      modifies this, chip, chip.regs
      ensures Valid()
      ensures chip.State() == old(chip.State()).SetReg(EN_AA, if enable then 0x3F else 0x00)
      ensures settings == old(settings).(autoAckEnabled := enable) && stats == old(stats)
    {
      if enable {
        WriteReg(EN_AA, 0x3F);
      } else {
        WriteReg(EN_AA, 0x00);
      }
      settings := settings.(autoAckEnabled := enable);
    }

    method SetPipeAutoAck(pipe: byte, enable: bool)
      requires Valid()
      modifies chip, chip.regs, pipes
      ensures Valid()
      ensures pipe >= MAX_PIPES ==> chip.State() == old(chip.State()) && pipes[..] == old(pipes[..])
      ensures pipe < MAX_PIPES ==>
        && chip.State() == old(chip.State()).SetReg(EN_AA, WithBit(old(chip.regs[EN_AA]), pipe, enable))
        && pipes[..] == old(pipes[..])[pipe := old(pipes[pipe]).(autoAck := enable)]
    {
      if pipe >= MAX_PIPES {
        return;
      }
      var enAa := ReadReg(EN_AA);
      WriteReg(EN_AA, WithBit(enAa, pipe, enable));
      SetPipe(pipe, pipes[pipe].(autoAck := enable));
    }

    method IsAutoAckEnabled() returns (enabled: bool)
      requires Valid()
      ensures enabled == settings.autoAckEnabled
    {
      enabled := settings.autoAckEnabled;
    }

    method IsPipeAutoAckEnabled(pipe: byte) returns (enabled: bool)
      requires Valid()
      ensures enabled == (pipe < MAX_PIPES && pipes[pipe].autoAck)
    {
      if pipe >= MAX_PIPES {
        return false;
      }
      enabled := pipes[pipe].autoAck;
    }

    // -------------------------------------------------------------------------
    // Auto-retransmit
    // -------------------------------------------------------------------------

    method SetRetries(delay: byte, count: byte)
      requires Valid()
      modifies this, chip, chip.regs
      ensures Valid()
      ensures chip.State() == old(chip.State()).SetReg(SETUP_RETR, RetriesByte(delay, count))
      ensures settings == old(settings).(retryDelay := Clamp15(delay), retryCount := Clamp15(count))
      ensures stats == old(stats)
    {
      WriteReg(SETUP_RETR, RetriesByte(delay, count));
      settings := settings.(retryDelay := Clamp15(delay), retryCount := Clamp15(count));
    }

    method SetRetryDelay(delay: RetransmitDelay)
      requires Valid()
      modifies this, chip, chip.regs
      ensures Valid()
      ensures chip.State() == old(chip.State()).SetReg(SETUP_RETR, WithRetryDelay(old(chip.regs[SETUP_RETR]), delay))
      ensures settings == old(settings).(retryDelay := delay) && stats == old(stats)
    {
      var setupRetr := ReadReg(SETUP_RETR);
      WriteReg(SETUP_RETR, WithRetryDelay(setupRetr, delay));
      settings := settings.(retryDelay := delay);
    }

    method SetRetryCount(count: byte)
      requires Valid()
      modifies this, chip, chip.regs
      ensures Valid()
      ensures chip.State() == old(chip.State()).SetReg(SETUP_RETR, WithRetryCount(old(chip.regs[SETUP_RETR]), count))
      ensures settings == old(settings).(retryCount := Clamp15(count)) && stats == old(stats)
    {
      var setupRetr := ReadReg(SETUP_RETR);
      WriteReg(SETUP_RETR, WithRetryCount(setupRetr, count));
      settings := settings.(retryCount := Clamp15(count));
    }

    method GetRetryCount() returns (count: byte)
      requires Valid()
      ensures count == RetryCountOf(chip.regs[SETUP_RETR]) && count <= 15
    {
      var setupRetr := ReadReg(SETUP_RETR);
      count := setupRetr & 0x0F;
    }

    method GetRetryDelay() returns (delay: RetransmitDelay)
      requires Valid()
      ensures delay == RetryDelayOf(chip.regs[SETUP_RETR])
    {
      var setupRetr := ReadReg(SETUP_RETR);
      delay := (setupRetr & 0xF0) >> 4;
    }

    // -------------------------------------------------------------------------
    // Dynamic payloads and ACK payloads
    // -------------------------------------------------------------------------

    /** enableDynamicPayloads: EN_DPL on, DYNPD for all pipes, the global flag set; the pipe records kept. */
    method EnableDynamicPayloads()
      requires Valid()
      modifies this, chip, chip.regs
      ensures Valid()
      ensures chip.State() ==
        old(chip.State()).SetReg(FEATURE, old(chip.regs[FEATURE]) | FEATURE_EN_DPL).SetReg(DYNPD, 0x3F)
      ensures settings == old(settings).(dynamicPayloadEnabled := true) && stats == old(stats)
    {
      var feature := ReadReg(FEATURE);
      WriteReg(FEATURE, feature | FEATURE_EN_DPL);
      WriteReg(DYNPD, 0x3F);
      settings := settings.(dynamicPayloadEnabled := true);
    }

    method DisableDynamicPayloads()
      requires Valid()
      modifies this, chip, chip.regs
      ensures Valid()
      ensures chip.State() ==
        old(chip.State()).SetReg(FEATURE, old(chip.regs[FEATURE]) & !FEATURE_EN_DPL).SetReg(DYNPD, 0x00)
      ensures settings == old(settings).(dynamicPayloadEnabled := false) && stats == old(stats)
    {
      var feature := ReadReg(FEATURE);
      WriteReg(FEATURE, feature & !FEATURE_EN_DPL);
      WriteReg(DYNPD, 0x00);
      settings := settings.(dynamicPayloadEnabled := false);
    }

    /** enableDynamicPayload(pipe): EN_DPL on and the pipe's DYNPD bit set; the global flag is not touched. */
    method EnableDynamicPayload(pipe: byte)
      requires Valid()
      modifies chip, chip.regs, pipes
      ensures Valid()
      ensures pipe >= MAX_PIPES ==> chip.State() == old(chip.State()) && pipes[..] == old(pipes[..])
      ensures pipe < MAX_PIPES ==>
        && chip.State() == old(chip.State())
             .SetReg(FEATURE, old(chip.regs[FEATURE]) | FEATURE_EN_DPL)
             .SetReg(DYNPD, old(chip.regs[DYNPD]) | PipeBit(pipe))
        && pipes[..] == old(pipes[..])[pipe := old(pipes[pipe]).(dynamicPayload := true)]
    {
      if pipe >= MAX_PIPES {
        return;
      }
      var feature := ReadReg(FEATURE);
      WriteReg(FEATURE, feature | FEATURE_EN_DPL);
      var dynpd := ReadReg(DYNPD);
      WriteReg(DYNPD, dynpd | BitMask(pipe));
      SetPipe(pipe, pipes[pipe].(dynamicPayload := true));
    }

    method DisableDynamicPayload(pipe: byte)
      requires Valid()
      modifies chip, chip.regs, pipes
      ensures Valid()
      ensures pipe >= MAX_PIPES ==> chip.State() == old(chip.State()) && pipes[..] == old(pipes[..])
      ensures pipe < MAX_PIPES ==>
        && chip.State() == old(chip.State()).SetReg(DYNPD, old(chip.regs[DYNPD]) & !PipeBit(pipe))
        && pipes[..] == old(pipes[..])[pipe := old(pipes[pipe]).(dynamicPayload := false)]
    {
      if pipe >= MAX_PIPES {
        return;
      }
      var dynpd := ReadReg(DYNPD);
      WriteReg(DYNPD, dynpd & !BitMask(pipe));
      SetPipe(pipe, pipes[pipe].(dynamicPayload := false));
    }

    method IsDynamicPayloadEnabled() returns (enabled: bool)
      requires Valid()
      ensures enabled == settings.dynamicPayloadEnabled
    {
      enabled := settings.dynamicPayloadEnabled;
    }

    method IsPipeDynamicPayloadEnabled(pipe: byte) returns (enabled: bool)
      requires Valid()
      ensures enabled == (pipe < MAX_PIPES && pipes[pipe].dynamicPayload)
    {
      if pipe >= MAX_PIPES {
        return false;
      }
      enabled := pipes[pipe].dynamicPayload;
    }

    /** enableAckPayload: EN_ACK_PAY and EN_DPL on, and dynamic payloads on pipe 0. */
    method EnableAckPayload()
      requires Valid()
      modifies chip, chip.regs
      ensures Valid()
      ensures chip.State() == old(chip.State())
        .SetReg(FEATURE, old(chip.regs[FEATURE]) | FEATURE_EN_ACK_PAY | FEATURE_EN_DPL)
        .SetReg(DYNPD, old(chip.regs[DYNPD]) | 0x01)
    {
      var feature := ReadReg(FEATURE);
      WriteReg(FEATURE, feature | FEATURE_EN_ACK_PAY | FEATURE_EN_DPL);
      var dynpd := ReadReg(DYNPD);
      WriteReg(DYNPD, dynpd | 0x01);
    }

    method DisableAckPayload()
      requires Valid()
      modifies chip, chip.regs
      ensures Valid()
      ensures chip.State() == old(chip.State()).SetReg(FEATURE, old(chip.regs[FEATURE]) & !FEATURE_EN_ACK_PAY)
    {
      var feature := ReadReg(FEATURE);
      WriteReg(FEATURE, feature & !FEATURE_EN_ACK_PAY);
    }

    /** writeAckPayload: ignored for an invalid pipe or more than 32 bytes. */
    method WriteAckPayload(pipe: byte, data: seq<byte>)
      requires Valid()
      modifies chip
      ensures Valid()
      ensures pipe >= MAX_PIPES || |data| > MAX_PAYLOAD_SIZE as int ==> chip.State() == old(chip.State())
      ensures pipe < MAX_PIPES && |data| <= MAX_PAYLOAD_SIZE as int ==>
        chip.State() == old(chip.State()).(ackFifo := old(chip.ackFifo) + [AckEntry(pipe, data)])
    {
      if pipe >= MAX_PIPES || |data| > MAX_PAYLOAD_SIZE as int {
        return;
      }
      chip.LoadAckPayload(W_ACK_PAYLOAD | pipe, data);
    }

    // -------------------------------------------------------------------------
    // Transmit engine
    // -------------------------------------------------------------------------

    /**
      startWrite: refuse more than 32 bytes; otherwise switch to transmit mode, clear
      the interrupt flags and load the payload (the chip-enable pulse is not modelled).
    */
    method StartWrite(data: seq<byte>, multicast: bool)
      requires Valid()
      modifies chip, chip.regs
      ensures Valid()
      ensures |data| > MAX_PAYLOAD_SIZE as int ==> chip.State() == old(chip.State())
      ensures |data| <= MAX_PAYLOAD_SIZE as int ==> chip.State() == Launched(old(chip.State()), data, multicast)
    {
      if |data| > MAX_PAYLOAD_SIZE as int {
        return;
      }
      SetModeTX();
      ClearInterrupts();
      var cmd := if multicast then W_TX_PAYLOAD_NO_ACK else W_TX_PAYLOAD;
      chip.LoadTxPayload(cmd, data);
    }

    /**
      write: launch the payload as startWrite does, then poll STATUS until a
      resolution flag shows or the poll counter passes 10000. `poll` gives the
      STATUS byte of each read this call makes, in order.
    */
    method Write(data: seq<byte>, multicast: bool, poll: nat -> byte) returns (ok: bool)
      requires Valid()
      modifies this, chip, chip.regs
      ensures Valid() && settings == old(settings)
      ensures |data| > MAX_PAYLOAD_SIZE as int ==>
        !ok && chip.State() == old(chip.State()) && stats == old(stats)
      ensures |data| <= MAX_PAYLOAD_SIZE as int ==>
        var report := TransmitReport(poll, old(stats.packetsSent), old(stats.packetsLost));
        var launched := Launched(old(chip.State()), data, multicast);
        && ok == report.ok
        && stats == old(stats).(packetsSent := report.sent, packetsLost := report.lost)
        && chip.State() == if report.flushed then launched.(txFifo := []) else launched
    {
      if |data| > MAX_PAYLOAD_SIZE as int {
        return false;
      }
      StartWrite(data, multicast);
      ok := AwaitTransmission(poll);
    }

    /**
      write's poll after the launch: the STATUS flags were just cleared; on a timeout
      the TX FIFO is flushed, otherwise STATUS is read once more, the flags cleared
      again and the matching counter raised.
    */
    method AwaitTransmission(poll: nat -> byte) returns (ok: bool)
      requires Valid() && chip.regs[STATUS] == CLEAR_FLAGS
      modifies this, chip, chip.regs
      ensures Valid() && settings == old(settings)
      ensures var report := TransmitReport(poll, old(stats.packetsSent), old(stats.packetsLost));
        && ok == report.ok
        && stats == old(stats).(packetsSent := report.sent, packetsLost := report.lost)
        && chip.State() == if report.flushed then old(chip.State()).(txFifo := []) else old(chip.State())
    {
      var resolved, at := PollTransmitStatus(poll);
      if !resolved {
        return false;
      }
      var status := poll(at + 1);
      ok := status & STATUS_TX_DS != 0;
      ClearInterrupts();
      SetRegSame(old(chip.State()), STATUS);
      if ok {
        stats := stats.(packetsSent := Inc16(stats.packetsSent));
      } else {
        stats := stats.(packetsLost := Inc16(stats.packetsLost));
      }
    }

    /**
      write's wait loop: read STATUS until a resolution flag shows, giving up and
      flushing the TX FIFO once the counter passes 10000.
    */
    method PollTransmitStatus(poll: nat -> byte) returns (resolved: bool, at: nat)
      requires Valid()
      modifies chip
      ensures Valid()
      ensures resolved == PollOutcome(poll, 0).Resolved?
      ensures resolved ==> PollOutcome(poll, 0) == Resolved(at)
      ensures chip.State() == if resolved then old(chip.State()) else old(chip.State()).(txFifo := [])
    {
      var timeout: nat := 0;
      var status := poll(timeout);
      while status & (STATUS_TX_DS | STATUS_MAX_RT) == 0
        invariant timeout <= TX_POLL_LIMIT
        invariant status == poll(timeout)
        invariant PollOutcome(poll, timeout) == PollOutcome(poll, 0)
        invariant chip.State() == old(chip.State())
        decreases TX_POLL_LIMIT - timeout
      {
        timeout := timeout + 1;
        if timeout > TX_POLL_LIMIT {
          FlushTx();
          return false, timeout;
        }
        status := poll(timeout);
      }
      return true, timeout;
    }

    // -------------------------------------------------------------------------
    // Receive engine
    // -------------------------------------------------------------------------

    /**
      available(pipe_num): whether STATUS (the byte `status` read from the chip)
      shows a received payload; the pipe number is written only in that case.
    */
    method Available(status: byte, pipeNum: byte) returns (ready: bool, pipeOut: byte)
      requires Valid()
      ensures ready == RxReady(status)
      ensures ready ==> pipeOut == RxPipeNumber(status) && pipeOut <= 7
      ensures !ready ==> pipeOut == pipeNum
    {
      pipeOut := pipeNum;
      if status & STATUS_RX_DR != 0 {
        pipeOut := (status & STATUS_RX_P_NO) >> 1;
        return true, pipeOut;
      }
      ready := false;
    }

    /**
      getDynamicPayloadSize: the width R_RX_PL_WID reported (`reported`), unless it
      exceeds 32, in which case the RX FIFO is flushed and 0 returned.
    */
    method GetDynamicPayloadSize(reported: byte) returns (width: byte)
      requires Valid()
      modifies chip
      ensures Valid()
      ensures width == CheckedPayloadWidth(reported)
      ensures reported > MAX_PAYLOAD_SIZE ==> chip.State() == old(chip.State()).(rxFifo := [])
      ensures reported <= MAX_PAYLOAD_SIZE ==> chip.State() == old(chip.State())
    {
      width := reported;
      if width > MAX_PAYLOAD_SIZE {
        FlushRx();
        return 0;
      }
    }

    /**
      read: drain the oldest payload, `len` bytes of it or, with dynamic payloads,
      the reported width cut to `len`; then clear RX_DR and count the packet.
    */
    method Read(len: byte, reported: byte) returns (n: byte, data: seq<byte>)
      requires Valid()
      modifies this, chip, chip.regs
      ensures Valid() && settings == old(settings)
      ensures n == ReadLength(len, settings.dynamicPayloadEnabled, reported)
      ensures var before := BeforeDrain(old(chip.State()), settings.dynamicPayloadEnabled, reported);
        && data == before.Head(n as nat)
        && chip.State() == before.Drained().SetReg(STATUS, STATUS_RX_DR)
      ensures stats == old(stats).(packetsReceived := Inc16(old(stats.packetsReceived)))
    {
      n := PayloadLength(len, reported);
      data := chip.ReadRxPayload(R_RX_PAYLOAD, n as nat);
      ghost var drained := chip.State();
      WriteReg(STATUS, STATUS_RX_DR);
      assert chip.State() == drained.SetReg(STATUS, STATUS_RX_DR);
      stats := stats.(packetsReceived := Inc16(stats.packetsReceived));
    }

    /** read's length: `len`, or with dynamic payloads the checked reported width cut to `len`. */
    method PayloadLength(len: byte, reported: byte) returns (n: byte)
      requires Valid()
      modifies chip
      ensures Valid()
      ensures n == ReadLength(len, settings.dynamicPayloadEnabled, reported)
      ensures chip.State() == BeforeDrain(old(chip.State()), settings.dynamicPayloadEnabled, reported)
    {
      n := len;
      if settings.dynamicPayloadEnabled {
        n := GetDynamicPayloadSize(reported);
        if n > len {
          n := len;
        }
      }
    }

    /** startListening: receive mode. */
    method StartListening()
      requires Valid()
      modifies chip, chip.regs
      ensures Valid()
      ensures chip.State() == old(chip.State()).SetReg(CONFIG, RxModeConfig(old(chip.regs[CONFIG])))
    {
      SetModeRX();
    }

    /**
      stopListening: drops chip enable (not modelled) and waits 130 microseconds
      when ACK payloads are on; `waited` records whether it waited.
    */
    method StopListening() returns (waited: bool)
      requires Valid()
      ensures waited == (chip.regs[FEATURE] & FEATURE_EN_ACK_PAY != 0)
    {
      var feature := ReadReg(FEATURE);
      waited := feature & FEATURE_EN_ACK_PAY != 0;
    }

    // -------------------------------------------------------------------------
    // Diagnostics, interrupts and FIFO status
    // -------------------------------------------------------------------------

    /** testCarrier and testRPD: bit 0 of RPD. */
    method TestCarrier() returns (carrier: bool)
      requires Valid()
      ensures carrier == (chip.regs[RPD] & 0x01 != 0)
    {
      var rpd := ReadReg(RPD);
      carrier := rpd & 0x01 != 0;
    }

    method GetObserveTx() returns (observe: byte)
      requires Valid()
      ensures observe == chip.regs[OBSERVE_TX]
    {
      observe := ReadReg(OBSERVE_TX);
    }

    /** getLostPackets: the PLOS_CNT nibble of OBSERVE_TX. */
    method GetLostPackets() returns (lost: byte)
      requires Valid()
      ensures lost <= 15 && lost << 4 == chip.regs[OBSERVE_TX] & 0xF0
    {
      var observe := ReadReg(OBSERVE_TX);
      lost := (observe & 0xF0) >> 4;
    }

    /** getRetransmitCount: the ARC_CNT nibble of OBSERVE_TX. */
    method GetRetransmitCount() returns (count: byte)
      requires Valid()
      ensures count <= 15 && count == chip.regs[OBSERVE_TX] & 0x0F
    {
      var observe := ReadReg(OBSERVE_TX);
      count := observe & 0x0F;
    }

    /** resetPacketLossCounters: rewrite RF_CH with the cached channel. */
    method ResetPacketLossCounters()
      requires Valid()
      modifies chip, chip.regs
      ensures Valid()
      ensures chip.State() == old(chip.State()).SetReg(RF_CH, settings.channel)
    {
      WriteReg(RF_CH, settings.channel);
    }

    method MaskInterrupt(interrupt: byte)
      requires Valid()
      modifies chip, chip.regs
      ensures Valid()
      ensures chip.State() == old(chip.State()).SetReg(CONFIG, WithMask(old(chip.regs[CONFIG]), interrupt, true))
    {
      var config := ReadReg(CONFIG);
      WriteReg(CONFIG, WithMask(config, interrupt, true));
    }

    method UnmaskInterrupt(interrupt: byte)
      requires Valid()
      modifies chip, chip.regs
      ensures Valid()
      ensures chip.State() == old(chip.State()).SetReg(CONFIG, WithMask(old(chip.regs[CONFIG]), interrupt, false))
    {
      var config := ReadReg(CONFIG);
      WriteReg(CONFIG, WithMask(config, interrupt, false));
    }

    /** isInterruptTriggered: whether the STATUS byte read (`status`) has any of the given flags. */
    method IsInterruptTriggered(status: byte, interrupt: byte) returns (triggered: bool)
      requires Valid()
      ensures triggered == (status & interrupt != 0)
    {
      triggered := status & interrupt != 0;
    }

    /** clearInterrupt: write the given flags to STATUS. */
    method ClearInterrupt(interrupt: byte)
      requires Valid()
      modifies chip, chip.regs
      ensures Valid()
      ensures chip.State() == old(chip.State()).SetReg(STATUS, interrupt)
    {
      WriteReg(STATUS, interrupt);
    }

    method IsTxFifoEmpty() returns (empty: bool)
      requires Valid()
      ensures empty == (chip.regs[FIFO_STATUS] & FIFO_STATUS_TX_EMPTY != 0)
    {
      var fifo := ReadReg(FIFO_STATUS);
      empty := fifo & FIFO_STATUS_TX_EMPTY != 0;
    }

    method IsTxFifoFull() returns (full: bool)
      requires Valid()
      ensures full == (chip.regs[FIFO_STATUS] & FIFO_STATUS_TX_FULL != 0)
    {
      var fifo := ReadReg(FIFO_STATUS);
      full := fifo & FIFO_STATUS_TX_FULL != 0;
    }

    method IsRxFifoEmpty() returns (empty: bool)
      requires Valid()
      ensures empty == (chip.regs[FIFO_STATUS] & FIFO_STATUS_RX_EMPTY != 0)
    {
      var fifo := ReadReg(FIFO_STATUS);
      empty := fifo & FIFO_STATUS_RX_EMPTY != 0;
    }

    method IsRxFifoFull() returns (full: bool)
      requires Valid()
      ensures full == (chip.regs[FIFO_STATUS] & FIFO_STATUS_RX_FULL != 0)
    {
      var fifo := ReadReg(FIFO_STATUS);
      full := fifo & FIFO_STATUS_RX_FULL != 0;
    }

    method FlushTxFifo()
      requires Valid()
      modifies chip
      ensures Valid()
      ensures chip.State() == old(chip.State()).(txFifo := [])
    {
      FlushTx();
    }

    method FlushRxFifo()
      requires Valid()
      modifies chip
      ensures Valid()
      ensures chip.State() == old(chip.State()).(rxFifo := [])
    {
      FlushRx();
    }

    // -------------------------------------------------------------------------
    // Statistics
    // -------------------------------------------------------------------------

    method GetPacketsSent() returns (n: uint16)
      requires Valid()
      ensures n == stats.packetsSent
    {
      n := stats.packetsSent;
    }

    method GetPacketsReceived() returns (n: uint16)
      requires Valid()
      ensures n == stats.packetsReceived
    {
      n := stats.packetsReceived;
    }

    method GetPacketsLost() returns (n: uint16)
      requires Valid()
      ensures n == stats.packetsLost
    {
      n := stats.packetsLost;
    }

    method ResetStatistics()
      requires Valid()
      modifies this
      ensures Valid() && settings == old(settings)
      ensures stats == ZERO_STATISTICS
    {
      stats := ZERO_STATISTICS;
    }
  }
}
