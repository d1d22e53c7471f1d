# nRF24L01 driver protocol engine, modelled in Dafny

This project models the register-level protocol engine of the RP2040 driver for the
Nordic nRF24L01(+) 2.4 GHz transceiver (`NRF24.cpp`, with the register map, masks, limits
and enumerations of `NRF24.h`). The driver talks to the chip purely through framed SPI
register transactions and a handful of one-byte commands. It keeps a cache of its
configuration (channel, payload size, address width, enabled-pipe mask, six per-pipe
records, the transmit address, feature flags) and packet statistics.

The model has five modules, one per file:

- `Defs.dfy` (`Nrf24Defs`): the header. It holds the register addresses, command
  opcodes, bit masks and limits, and the enumerations with their numeric values. It
  also defines the `NRF24_Pipe` record (`Pipe`). The ranges the driver keeps are stated
  as subset types: a payload width of at most 32, an address length of 3..5, a channel
  of at most 125, and an address buffer of exactly 5 bytes.
- `Fields.dfy` (`Fields`): the pure bit manipulation the driver does on register bytes.
  It covers opcode framing, single bits, and an encoder and decoder for every multi-bit
  field (channel/frequency, data rate, power level, carrier wave, CRC, mode, power,
  interrupt masks, retries, address width). Each encoder is specified by what its
  decoder reads back and by the bits it leaves alone.
- `Engine.dfy` (`Engine`): pure specifications of the transmit and receive engines.
  They cover the STATUS decoding, how `write`'s completion poll ends, what a transmit
  does to the statistics, and how many bytes `read` drains.
- `Chip.dfy` (`Radio`): the chip as the driver sees it. The class `Chip` holds a 32-cell
  register file (`array<byte>`), the three multi-byte address registers, and abstract
  TX, RX and ACK-payload FIFOs. `ChipState` is the same state as a value.
- `Driver.dfy` (`Driver`): the class `NRF24`. Its `settings` and `stats` fields, its
  `pipes` array and its `txAddress` array mirror the C++ members. Every core operation
  is a method that reads and writes the chip. Each mutating method states the chip's
  whole new state and the driver's whole new cache as functions of the old ones.
  Lemmas characterise those functions: reset defaults, the variant probe, the pipe
  address rules, and the payload-size loop.

Values that only the radio decides are parameters of the methods that observe them:

- `write`: the STATUS byte seen on each poll is `poll: nat -> byte`.
- `available`: the STATUS byte is `status`.
- `read` and `getDynamicPayloadSize`: the width R_RX_PL_WID reports is `reported`.
- `begin`: the RF_SETUP read-back of the variant probe is `probe`.

Bytes are `bv8`. The `uint16_t` counters and frequencies are `bv16`, so `packets_sent++`
wraps from 0xFFFF to 0 as in C.

Quirks of the code that the model reproduces as written:

- `setAddressWidth` writes the enumeration code plus one but caches the code plus two.
  `getAddressWidth` returns the register minus one. `reset` writes SETUP_AW = 3 while
  caching 5 bytes.
- For pipes 2..5, `openReadingPipe` writes the address's last byte into the register
  whose byte becomes the pipe's first address byte, but caches the whole address.
- `begin`'s variant probe restores RF_SETUP only when bit 7 reads back set. On a base
  chip, RF_SETUP keeps whatever the chip kept of the probe byte 0x8E. That is the
  reset value 0x0E only when the chip dropped just bit 7. The probe bit is CONT_WAVE,
  so the carrier wave is off after `begin` either way. The model lets the chip keep
  the byte it reads back (`Radio.Chip.Retain`).
- A `write` poll timeout flushes the TX FIFO and counts nothing.
- `reset` writes the chip's 2 Mbps / 8-bit CRC defaults but keeps the cached 1 Mbps /
  16-bit CRC.
- The global `setAutoAck`, `enableDynamicPayloads` and `disableDynamicPayloads` leave
  the per-pipe records alone. The per-pipe setters leave the global flags alone.
- `setPayloadSize(pipe, size)` ignores a size above 32; it does not clamp it.

Further points where the code's behaviour is easy to misread:

- A transmit timeout is counted neither as sent nor as lost.
- `setAddressWidth` writes width − 1 into SETUP_AW. The nRF24L01 product
  specification encodes SETUP_AW as width − 2 (01 = 3 bytes, 11 = 5 bytes), which is
  what `reset` writes.
- Without dynamic payloads, `read` drains the caller's `len` bytes, not the
  configured payload size.
- When R_RX_PL_WID reports more than 32, `read` flushes the RX FIFO and returns 0,
  but still issues the 0-byte payload read, clears RX_DR and counts a received packet.
- The `uint16_t` statistics wrap at 0xFFFF instead of growing without bound.

## Model

| member | source | states |
|---|---|---|
| Nrf24Defs.DataRate.Code | NRF24.h:94-98 | the data-rate enumeration values: 1 Mbps 0, 2 Mbps 1, 250 kbps 2 |
| Nrf24Defs.PowerLevel.Code | NRF24.h:100-105 | the power-level enumeration values: −18 dBm 0 up to 0 dBm 3 |
| Nrf24Defs.CrcLength.Code | NRF24.h:107-111 | the CRC enumeration values: disabled 0, 8-bit 1, 16-bit 2 |
| Nrf24Defs.AddressWidth.Code | NRF24.h:113-117 | the address-width enumeration values: 3 bytes 1, 4 bytes 2, 5 bytes 3 |
| Nrf24Defs.AddressWidth.Bytes | NRF24.h:113-117 | the byte count each address-width value names |
| Nrf24Defs.DelayMicros | NRF24.h:119-136 | the delay each retransmit-delay value names: 250 µs per step, starting at 250 µs |
| Nrf24Defs.PowerLevelFromCode | NRF24.h:100-105 | every 2-bit code names the power level with exactly that header value |
| Nrf24Defs.RegisterAddressesFitFiveBits | NRF24.h:11-36 | every register address is below 0x20, so masking it with 0x1F is the identity |
| Nrf24Defs.StatusMasksDisjoint | NRF24.h:52-56 | the five STATUS masks are pairwise disjoint |
| Nrf24Defs.ConfigMasksSingleBits | NRF24.h:59-65 | the seven CONFIG masks are the distinct single bits 0x40 down to 0x01 |
| Nrf24Defs.RfSetupMasksDisjoint | NRF24.h:68-72 | CONT_WAVE, RF_DR_LOW, RF_DR_HIGH and RF_PWR are pairwise disjoint |
| Nrf24Defs.PowerLevelInsidePowerField | NRF24.h:100-105 | a power level's value is at most 3, and shifted left by one it lies inside RF_PWR 0x06 |
| Nrf24Defs.RetransmitDelayFitsHighNibble | NRF24.h:119-136 | a delay code shifted into the high nibble leaves the low nibble clear and shifts back unchanged; it stands for 250..4000 µs |
| Nrf24Defs.AddressWidthCodes | NRF24.h:113-117 | the address-width values are 1..3 and name 3..5 bytes (value + 2) |
| Nrf24Defs.CommandOpcodesAboveRegisterSpace | NRF24.h:39-49 | R_REGISTER and W_REGISTER differ only in bit 5; every other command opcode is at least 0x40 |
| Fields.ReadOpcode | NRF24.cpp:185 | the read opcode carries R_REGISTER in its top three bits and the register's five address bits below |
| Fields.WriteOpcode | NRF24.cpp:201 | the write opcode carries W_REGISTER in its top three bits and the register's five address bits below |
| Fields.OpcodeRegister | NRF24.cpp:183-206 | the register a framed opcode addresses is below 0x20 |
| Fields.FramingOfNamedRegisters | NRF24.cpp:183-206 | for every header register, framing keeps the address, both opcodes stay below 0x40 and neither is a command opcode |
| Fields.BitMask | NRF24.cpp:277-292 | the byte effect of `1 << bit` is one single bit for bit < 8 and nothing for larger bits |
| Fields.BitSet | NRF24.cpp:288-292 | getRegisterBit's test: the byte and `1 << bit` share a set bit |
| Fields.WithBit | NRF24.cpp:277-286 | the chosen bit reads back as the value given, every other bit is kept, and bit >= 8 changes nothing |
| Fields.ChipConnected | NRF24.cpp:271-275 | isChipConnected's test: SETUP_AW has bits 2..3 clear and a nonzero width code in bits 0..1 |
| Fields.ChipConnectedMeaning | NRF24.cpp:271-275 | the connectivity test accepts exactly the SETUP_AW bytes whose low nibble is 1..3; the high nibble is not examined |
| Fields.ClampChannel | NRF24.cpp:344-351 | the stored channel is min(x, 125) |
| Fields.FrequencyChannel | NRF24.cpp:358-365 | a channel exists exactly for 2400..2525 MHz and equals f − 2400 |
| Fields.ChannelFrequency | NRF24.cpp:367-370 | the reported frequency is 2400 plus the channel, which never overflows 16 bits |
| Fields.FrequencyRoundTrip | NRF24.cpp:344-370 | an in-band frequency survives setFrequency followed by getFrequency |
| Fields.DataRateOf | NRF24.cpp:396-407 | getDataRate's decoding: RF_DR_LOW means 250 kbps, whatever RF_DR_HIGH says; else RF_DR_HIGH means 2 Mbps; else 1 Mbps |
| Fields.WithDataRate | NRF24.cpp:373-407 | getDataRate reads back the rate set, and only the two rate bits change |
| Fields.PowerLevelOf | NRF24.cpp:419-423 | getPowerLevel's decoding: the RF_PWR field shifted down, as a power level |
| Fields.WithPowerLevel | NRF24.cpp:410-423 | getPowerLevel reads back the level set, and only RF_PWR changes |
| Fields.CarrierWaveOf | NRF24.cpp:993-996 | isCarrierWave's test: the CONT_WAVE bit |
| Fields.WithCarrierWave | NRF24.cpp:982-996 | isCarrierWave reads back the value set, and only CONT_WAVE changes |
| Fields.RfSetupFieldsIndependent | NRF24.cpp:373-423 | setting any one RF_SETUP field never changes what the other two decode to |
| Fields.CrcLengthOf | NRF24.cpp:448-459 | getCRCLength's decoding: EN_CRC clear means disabled, whatever CRCO says; else CRCO picks 16 or 8 bits |
| Fields.WithCrcLength | NRF24.cpp:426-459 | getCRCLength reads back the length set, only EN_CRC and CRCO change, and disabling keeps CRCO |
| Fields.TxModeConfig | NRF24.cpp:319-325 | transmit mode clears PRIM_RX, sets PWR_UP and keeps every other CONFIG bit |
| Fields.RxModeConfig | NRF24.cpp:310-317 | receive mode sets PRIM_RX and PWR_UP and keeps every other CONFIG bit |
| Fields.WithPower | NRF24.cpp:246-259 | PWR_UP reads back as requested and every other CONFIG bit is kept |
| Fields.WithMask | NRF24.cpp:926-938 | the named mask bits all become set (or all clear), the rest of CONFIG is kept |
| Fields.Clamp15 | NRF24.cpp:601-628 | a retry argument is clamped to 15 |
| Fields.RetryCountOf | NRF24.cpp:630-633 | the retry count read back is at most 15 |
| Fields.RetryDelayOf | NRF24.cpp:635-638 | getRetryDelay's decoding: the high nibble of SETUP_RETR |
| Fields.RetryNibblesDetermineByte | NRF24.cpp:630-638 | two SETUP_RETR bytes with the same delay and count nibbles are equal |
| Fields.RetriesByte | NRF24.cpp:601-611 | setRetries' byte decodes to min(delay, 15) and min(count, 15) |
| Fields.WithRetryDelay | NRF24.cpp:613-619 | the delay nibble reads back as set and the count nibble is kept |
| Fields.WithRetryCount | NRF24.cpp:621-628 | the count nibble reads back as min(count, 15) and the delay nibble is kept |
| Fields.AddressWidthOf | NRF24.cpp:469-473 | getAddressWidth returns the register byte minus one, −1 for a zero register |
| Fields.AddressWidthRegister | NRF24.cpp:462-467 | setAddressWidth writes 2..4, which getAddressWidth decodes back to the enumeration value |
| Fields.CachedAddressWidth | NRF24.cpp:462-467 | setAddressWidth caches the byte count the enumeration names, 3..5 |
| Fields.AddressWidthEncodingsDisagree | NRF24.cpp:462-473 | the written register is the cached width minus one, not minus two as reset writes it; the 5-byte setting fails the connectivity test; after reset the getter reports the 4-byte value |
| Fields.PipeBit | NRF24.cpp:488-528 | a pipe's mask bit is a nonzero bit inside 0x3F, disjoint from every other pipe's |
| Fields.EnablePipeBit | NRF24.cpp:493-495 | or-ing in pipe p's bit sets bit p and leaves every other bit as it was |
| Fields.DisablePipeBit | NRF24.cpp:523-527 | and-ing with the complement of pipe p's bit clears bit p and leaves every other bit as it was |
| Fields.CopyPrefix | NRF24.cpp:475-480 | memcpy of n bytes: the first n bytes come from the source, the rest of the destination is kept |
| Engine.RxReady | NRF24.cpp:829 | available's test: the RX_DR flag of STATUS |
| Engine.RxPipeNumber | NRF24.cpp:825-835 | available's pipe number is at most 7 and is exactly the RX_P_NO field shifted down |
| Engine.Inc16 | NRF24.cpp:750-755 | a counter increment always changes the counter: up by one below 0xFFFF, to 0 from 0xFFFF |
| Engine.TxResolved | NRF24.cpp:736 | the poll's exit test: TX_DS or MAX_RT is set in STATUS |
| Engine.TxSucceeded | NRF24.cpp:744-745 | write's result: TX_DS is set in the STATUS read after the poll |
| Engine.PollOutcome | NRF24.cpp:736-742 | the poll resolves at the first read, up to read 10000, that shows TX_DS or MAX_RT, and times out only if none of those reads shows one |
| Engine.TransmitReport | NRF24.cpp:736-757 | write's result and counters from the poll outcome: after a resolution at read i, read i + 1 decides the result and bumps sent or lost; a timeout flushes and counts nothing |
| Engine.TransmitCountsOnce | NRF24.cpp:736-757 | when the chip resolves, exactly one of sent and lost moves, by one, and the result is the TX_DS bit of the next read; on a timeout the FIFO is flushed, neither moves and the result is false |
| Engine.TimeoutIffNoFlag | NRF24.cpp:736-742 | a timeout happens if and only if none of the 10001 polled STATUS bytes shows a flag |
| Engine.CheckedPayloadWidth | NRF24.cpp:859-874 | the dynamic width is the reported width when it is ≤ 32, and 0 otherwise |
| Engine.ReadLength | NRF24.cpp:837-843 | read's length is at most len; without dynamic payloads it is len; with them it is min(reported, len) or 0 when the report is above 32 |
| Engine.PayloadBytes | NRF24.cpp:846-850 | clocking out n bytes gives the stored payload's bytes and 0x00 past its end |
| Radio.ChipState.SetReg | NRF24.cpp:194-197 | a one-byte write leaves the written byte in its cell |
| Radio.ChipState.Written | NRF24.cpp:199-206 | a register write stores its first byte in the cell; an address register also keeps up to five bytes; an empty write changes nothing |
| Radio.ChipState.Drained | NRF24.cpp:846-850 | R_RX_PAYLOAD takes the oldest received payload out of the RX FIFO, and an empty FIFO stays empty |
| Radio.ChipState.Head | NRF24.cpp:846-850 | R_RX_PAYLOAD returns exactly the number of bytes requested |
| Radio.ChipState.EffectiveAddress | NRF24.cpp:497-502 | the address a pipe listens on: pipes 0 and 1 their own registers; pipes 2..5 their one-byte register as the first byte followed by pipe 1's other bytes |
| Radio.Truncated | NRF24.cpp:199-206 | an address register keeps the first min(len, 5) bytes of a write |
| Radio.Chip.Retain | NRF24.cpp:99-100 | the chip keeps the given byte in the register it was written to, as the probe's read-back then sees it; nothing else changes |
| Radio.Chip.ReadRegister | NRF24.cpp:183-192 | a framed read returns the addressed cell |
| Radio.Chip.WriteRegister | NRF24.cpp:199-206 | a framed write changes the chip exactly as `Written` says |
| Radio.Chip.Command | NRF24.cpp:208-233 | FLUSH_TX and FLUSH_RX empty their FIFO; other commands change nothing |
| Radio.Chip.LoadTxPayload | NRF24.cpp:776-780 | a payload command appends the payload to the TX FIFO, marked no-ack for W_TX_PAYLOAD_NO_ACK |
| Radio.Chip.LoadAckPayload | NRF24.cpp:699-703 | W_ACK_PAYLOAD \| pipe appends the payload for that pipe to the ACK FIFO |
| Radio.Chip.ReadRxPayload | NRF24.cpp:846-850 | R_RX_PAYLOAD returns the head of the RX FIFO and removes it |
| Radio.Chip.Activate | NRF24.cpp:261-269 | only 0x50 followed by 0x73 activates the extra features |
| Driver.ResetConfiguration | NRF24.cpp:125-137 | reset's power-down and eight configuration writes, in the code's order |
| Driver.ResetFifos | NRF24.cpp:139-144 | reset's two flushes and the interrupt clear |
| Driver.ResetAddresses | NRF24.cpp:146-159 | reset's seven address writes, the 5-byte ones through `Written` |
| Driver.ResetWidthsAndFeatures | NRF24.cpp:161-171 | reset's six RX_PW writes and the FEATURE and DYNPD clears |
| Driver.ResetRegisters | NRF24.cpp:123-171 | reset's four blocks composed in the code's order |
| Driver.ResetSettings | NRF24.cpp:173-179 | reset's cache update: payload 32, width 5, channel 2, dynamic payloads off, auto-ack on, pipes 0 and 1 enabled, every other setting kept |
| Driver.ResetConfigurationCells | NRF24.cpp:125-137 | reset's first block stores CONFIG=0x08, EN_AA=0x3F, EN_RXADDR=0x03, SETUP_AW=0x03, SETUP_RETR=0x03, RF_CH=0x02, RF_SETUP=0x0E and STATUS=0x70, and nothing else |
| Driver.ResetFifosCells | NRF24.cpp:139-144 | reset's second block empties both FIFOs and writes the clear mask to STATUS |
| Driver.ResetAddressesCells | NRF24.cpp:146-159 | reset gives P0, P1 and TX the address E7E7E7E7E7 and P2..P5 the bytes C2..C5 |
| Driver.ResetWidthsAndFeaturesCells | NRF24.cpp:161-171 | reset sets every RX_PW to 32 and clears FEATURE and DYNPD |
| Driver.ResetDefaults | NRF24.cpp:123-180 | the full register state reset leaves; after it the connectivity test holds, 3 retries at 250 µs, 2 Mbps, 0 dBm, 8-bit CRC, powered down |
| Driver.ResetCacheVersusRegisters | NRF24.cpp:123-180 | after construction and reset the cache says 1 Mbps and 16-bit CRC while the registers say 2 Mbps and 8-bit CRC; power, retries, channel and enabled pipes agree |
| Driver.BeginRegisters | NRF24.cpp:94-108 | begin's register effect on a responding chip: reset, then the variant probe |
| Driver.ProbedRegisters | NRF24.cpp:97-108 | the probe's writes, then the feature activation when the chip is or was known to be a + variant |
| Driver.ProbeWrites | NRF24.cpp:97-103 | RF_SETUP \| 0x80 written, the read-back byte kept by the chip, and the old byte written back when that byte shows bit 7 |
| Driver.BeginProbeOutcome | NRF24.cpp:94-108 | the probe leaves RF_SETUP at 0x0E on a + chip and at the read-back byte otherwise, so at the reset value (2 Mbps, 0 dBm) exactly when bit 7 read back set or the chip kept 0x0E; the carrier wave (bit 7, the bit the probe tests) is always off after begin; features are activated exactly when the chip is or was known to be a + variant; nothing else changes |
| Driver.OpenedRegisters | NRF24.cpp:492-505 | openReadingPipe's register writes: EN_RXADDR with the pipe's bit, the pipe address, then RX_PW |
| Driver.PipeAddressWritten | NRF24.cpp:497-502 | openReadingPipe's address write: `width` bytes for pipes 0 and 1, the last byte alone for pipes 2..5 |
| Driver.OpenedPipe | NRF24.cpp:507-510 | the opened pipe's record takes the first `width` address bytes, the width and the payload size, and keeps its other fields |
| Driver.OpenedRegistersEnable | NRF24.cpp:488-505 | opening pipe p sets exactly bit p of EN_RXADDR and the pipe's RX_PW; only those two cells and the address cell change; TX address and FIFOs are untouched |
| Driver.OpenedRegistersAddress | NRF24.cpp:497-502 | pipes 0 and 1 receive all `width` bytes; pipes 2..5 receive only the last byte as their own byte, while their other bytes stay pipe 1's; opening pipe 1 moves the effective address of pipes 2..5 |
| Driver.PipeAddressCacheVersusWire | NRF24.cpp:497-511 | for pipes 2..5 sharing pipe 1's address, the address the chip matches equals the cached one if and only if the address's last byte equals its first |
| Driver.PayloadCells | NRF24.cpp:537-542 | the register file after the loop has visited pipes 0..n−1: each enabled pipe's RX_PW written with the size |
| Driver.PayloadPipes | NRF24.cpp:537-542 | the pipe records after the loop has visited pipes 0..n−1: each enabled pipe's payload size set |
| Driver.PayloadCellsAt | NRF24.cpp:537-542 | after the loop has visited pipes 0..n−1, a cell holds the new width exactly when it is the RX_PW of a visited enabled pipe |
| Driver.PayloadPipesAt | NRF24.cpp:537-542 | after the loop has visited pipes 0..n−1, a record has the new size exactly when it is a visited enabled pipe |
| Driver.PayloadSizeOnEnabledPipes | NRF24.cpp:530-543 | setPayloadSize rewrites RX_PW and the cached size of exactly the enabled pipes and no other register |
| Driver.SetRegTwice | NRF24.cpp:310-325 | a second write to a register overrides the first |
| Driver.SetRegSame | NRF24.cpp:748 | writing a register's own value back leaves the chip unchanged, as write's second clearInterrupts does to the STATUS the first one left |
| Driver.BeforeDrain | NRF24.cpp:868-870 | read's call of getDynamicPayloadSize (line 842) flushes the RX FIFO when dynamic payloads are on and R_RX_PL_WID reports more than 32; otherwise the chip is unchanged |
| Driver.Launched | NRF24.cpp:765-786 | startWrite's effect: CONFIG in transmit mode, STATUS written with the clear mask, the payload appended to the TX FIFO |
| Driver.NRF24.constructor | NRF24.cpp:9-51 | the default settings, zeroed statistics, every pipe record at its default, and a zeroed TX address |
| Driver.NRF24.ReadReg | NRF24.cpp:183-192 | readReg returns the cell addressed by the register's five low bits |
| Driver.NRF24.WriteReg | NRF24.cpp:194-197 | a one-byte write changes that cell and nothing else |
| Driver.NRF24.WriteRegBytes | NRF24.cpp:199-206 | a buffered write changes the chip as `Written` says |
| Driver.NRF24.WriteCommand | NRF24.cpp:208-213 | a command flushes the FIFO it names and changes nothing else |
| Driver.NRF24.FlushTx | NRF24.cpp:225-228 | the TX FIFO becomes empty, nothing else changes |
| Driver.NRF24.FlushRx | NRF24.cpp:230-233 | the RX FIFO becomes empty, nothing else changes |
| Driver.NRF24.ClearInterrupts | NRF24.cpp:235-238 | STATUS is written with RX_DR \| TX_DS \| MAX_RT |
| Driver.NRF24.PowerUp | NRF24.cpp:246-252 | CONFIG gets PWR_UP set, other bits kept |
| Driver.NRF24.PowerDown | NRF24.cpp:254-259 | CONFIG gets PWR_UP cleared, other bits kept |
| Driver.NRF24.ActivateFeatures | NRF24.cpp:261-269 | the features become activated, nothing else changes |
| Driver.NRF24.IsChipConnected | NRF24.cpp:271-275 | the result is the SETUP_AW test |
| Driver.NRF24.IsConnected | NRF24.cpp:117-120 | connected exactly when SETUP_AW's low nibble is 1..3 |
| Driver.NRF24.SetRegisterBit | NRF24.cpp:277-286 | the register is rewritten with one bit set or cleared |
| Driver.NRF24.GetRegisterBit | NRF24.cpp:288-292 | the result is whether the bit is set |
| Driver.NRF24.Begin | NRF24.cpp:89-113 | no response: nothing changes and the result is false; otherwise reset then the variant probe, the cache reset and the variant flag recorded |
| Driver.NRF24.DetectVariant | NRF24.cpp:97-108 | the probe's register effect, with the variant flag set when bit 7 reads back |
| Driver.NRF24.ProbeRfSetup | NRF24.cpp:98-103 | RF_SETUP \| 0x80 is written, the chip keeps the read-back byte, and the old byte is written back only when that byte shows bit 7 |
| Driver.NRF24.WriteConfigurationDefaults | NRF24.cpp:125-137 | the chip after reset's power-down and configuration block |
| Driver.NRF24.WriteDefaultAddresses | NRF24.cpp:146-159 | the chip after reset's address block |
| Driver.NRF24.WriteDefaultWidthsAndFeatures | NRF24.cpp:161-171 | the chip after reset's width and feature block |
| Driver.NRF24.WriteResetRegisters | NRF24.cpp:125-171 | the chip after all of reset's register writes and commands |
| Driver.NRF24.Reset | NRF24.cpp:123-180 | the chip in the reset state; the cache gets payload 32, width 5, channel 2, dynamic off, auto-ack on, pipes 0 and 1 enabled; the rest is kept |
| Driver.NRF24.SetPowerUp | NRF24.cpp:295-302 | PWR_UP becomes the argument, other bits kept |
| Driver.NRF24.IsPoweredUp | NRF24.cpp:304-307 | the result is the PWR_UP bit |
| Driver.NRF24.SetModeRX | NRF24.cpp:310-317 | CONFIG gets PRIM_RX and PWR_UP set, other bits kept |
| Driver.NRF24.SetModeTX | NRF24.cpp:319-325 | CONFIG gets PRIM_RX cleared and PWR_UP set, other bits kept |
| Driver.NRF24.SetModeStandby | NRF24.cpp:327-331 | CONFIG gets PWR_UP set, the mode bit kept |
| Driver.NRF24.IsModeTX | NRF24.cpp:333-336 | transmit mode exactly when PRIM_RX is clear |
| Driver.NRF24.IsModeRX | NRF24.cpp:338-341 | receive mode exactly when PRIM_RX is set |
| Driver.NRF24.SetChannel | NRF24.cpp:344-351 | RF_CH and the cached channel both become min(x, 125); nothing else changes |
| Driver.NRF24.GetChannel | NRF24.cpp:353-356 | the result is RF_CH |
| Driver.NRF24.SetFrequency | NRF24.cpp:358-365 | outside 2400..2525 MHz nothing changes; inside, channel f − 2400 is set |
| Driver.NRF24.GetFrequency | NRF24.cpp:367-370 | the result is 2400 plus RF_CH |
| Driver.NRF24.SetDataRate | NRF24.cpp:373-394 | RF_SETUP gets the rate bits, other bits kept; the cached rate is updated |
| Driver.NRF24.GetDataRate | NRF24.cpp:396-407 | the result decodes RF_SETUP, RF_DR_LOW before RF_DR_HIGH |
| Driver.NRF24.SetPowerLevel | NRF24.cpp:410-417 | RF_SETUP gets the power field, other bits kept; the cached power is updated |
| Driver.NRF24.GetPowerLevel | NRF24.cpp:419-423 | the result decodes RF_PWR |
| Driver.NRF24.SetCarrierWave | NRF24.cpp:982-991 | CONT_WAVE becomes the argument, other bits kept |
| Driver.NRF24.IsCarrierWave | NRF24.cpp:993-996 | the result is the CONT_WAVE bit |
| Driver.NRF24.EnterTestMode | NRF24.cpp:998-1003 | carrier wave on, then transmit mode |
| Driver.NRF24.ExitTestMode | NRF24.cpp:1005-1009 | carrier wave off |
| Driver.NRF24.SetCRCLength | NRF24.cpp:426-446 | CONFIG gets the CRC bits, other bits kept; the cached length is updated |
| Driver.NRF24.GetCRCLength | NRF24.cpp:448-459 | the result decodes EN_CRC and CRCO |
| Driver.NRF24.SetAddressWidth | NRF24.cpp:462-467 | SETUP_AW gets the value plus one, the cache the value plus two |
| Driver.NRF24.GetAddressWidth | NRF24.cpp:469-473 | the result is SETUP_AW minus one |
| Driver.NRF24.CopyToTxAddress | NRF24.cpp:479 | the first n bytes of the cached TX address are replaced, the rest kept |
| Driver.NRF24.SetTxAddress | NRF24.cpp:475-480 | TX_ADDR and RX_ADDR_P0 both receive the same first address-width bytes, and the cache copies them |
| Driver.NRF24.GetTxAddress | NRF24.cpp:482-485 | the result is the cached TX address, address-width bytes long |
| Driver.NRF24.OpenWritingPipe | NRF24.cpp:514-517 | the same effect as setTxAddress |
| Driver.NRF24.OpenReadingPipe | NRF24.cpp:488-512 | pipe ≥ 6 changes nothing; otherwise the chip as `OpenedRegisters` says, the pipe's record as `OpenedPipe` says, and bit p added to the enabled mask |
| Driver.NRF24.CacheOpenedPipe | NRF24.cpp:507-511 | the record and the enabled mask after openReadingPipe |
| Driver.NRF24.WriteReadingPipeRegisters | NRF24.cpp:492-505 | the register writes of openReadingPipe |
| Driver.NRF24.EnablePipe | NRF24.cpp:493-495 | EN_RXADDR gets the pipe's bit |
| Driver.NRF24.WritePipeAddress | NRF24.cpp:497-502 | width bytes for pipes 0 and 1, only the last byte for pipes 2..5 |
| Driver.NRF24.SetPipe | NRF24.cpp:508-510 | exactly one pipe record is replaced |
| Driver.NRF24.ClosePipe | NRF24.cpp:519-528 | pipe ≥ 6 changes nothing; otherwise bit p is cleared in EN_RXADDR and in the cached mask, and the pipe's record stays |
| Driver.NRF24.SetPayloadSize | NRF24.cpp:530-543 | the default size becomes min(size, 32); RX_PW and the cached size of each enabled pipe are rewritten, as `PayloadCells` and `PayloadPipes` say |
| Driver.NRF24.ApplyPayloadSize | NRF24.cpp:537-542 | one loop pass: pipe i's RX_PW and record change exactly when pipe i is enabled |
| Driver.NRF24.SetPipePayloadSize | NRF24.cpp:545-551 | pipe ≥ 6 or size > 32 changes nothing; otherwise that pipe's RX_PW and cached size are set |
| Driver.NRF24.GetPayloadSize | NRF24.cpp:553-556 | the cached default size, at most 32 |
| Driver.NRF24.GetPipePayloadSize | NRF24.cpp:558-562 | the pipe's cached size, or 0 for pipe ≥ 6 |
| Driver.NRF24.SetAutoAck | NRF24.cpp:565-573 | EN_AA becomes 0x3F or 0x00 and the global flag is set; the per-pipe records stay |
| Driver.NRF24.SetPipeAutoAck | NRF24.cpp:575-587 | pipe ≥ 6 changes nothing; otherwise one EN_AA bit and that pipe's flag change |
| Driver.NRF24.IsAutoAckEnabled | NRF24.cpp:589-592 | the global flag |
| Driver.NRF24.IsPipeAutoAckEnabled | NRF24.cpp:594-598 | the pipe's flag, false for pipe ≥ 6 |
| Driver.NRF24.SetRetries | NRF24.cpp:601-611 | SETUP_RETR gets both nibbles clamped to 15, and so does the cache |
| Driver.NRF24.SetRetryDelay | NRF24.cpp:613-619 | the delay nibble is set and the count nibble kept |
| Driver.NRF24.SetRetryCount | NRF24.cpp:621-628 | the count nibble becomes min(count, 15) and the delay nibble is kept |
| Driver.NRF24.GetRetryCount | NRF24.cpp:630-633 | the low nibble of SETUP_RETR |
| Driver.NRF24.GetRetryDelay | NRF24.cpp:635-638 | the high nibble of SETUP_RETR |
| Driver.NRF24.EnableDynamicPayloads | NRF24.cpp:641-646 | EN_DPL set, DYNPD = 0x3F and the global flag set; the per-pipe records stay |
| Driver.NRF24.DisableDynamicPayloads | NRF24.cpp:648-653 | EN_DPL cleared, DYNPD = 0 and the global flag cleared |
| Driver.NRF24.EnableDynamicPayload | NRF24.cpp:655-662 | pipe ≥ 6 changes nothing; otherwise EN_DPL and the pipe's DYNPD bit are set and its record flag set; the global flag stays |
| Driver.NRF24.DisableDynamicPayload | NRF24.cpp:664-670 | pipe ≥ 6 changes nothing; otherwise the pipe's DYNPD bit and record flag are cleared |
| Driver.NRF24.IsDynamicPayloadEnabled | NRF24.cpp:672-675 | the global flag |
| Driver.NRF24.IsPipeDynamicPayloadEnabled | NRF24.cpp:677-681 | the pipe's flag, false for pipe ≥ 6 |
| Driver.NRF24.EnableAckPayload | NRF24.cpp:684-688 | EN_ACK_PAY and EN_DPL set, and pipe 0's DYNPD bit set |
| Driver.NRF24.DisableAckPayload | NRF24.cpp:690-693 | EN_ACK_PAY cleared, other bits kept |
| Driver.NRF24.WriteAckPayload | NRF24.cpp:695-704 | pipe ≥ 6 or more than 32 bytes changes nothing; otherwise the payload is queued for the pipe |
| Driver.NRF24.StartWrite | NRF24.cpp:765-786 | more than 32 bytes changes nothing; otherwise transmit mode, flags cleared and payload queued |
| Driver.NRF24.Write | NRF24.cpp:712-758 | more than 32 bytes: false and no change; otherwise launched as startWrite, and the result, counters and TX FIFO are as `TransmitReport` says; settings never change |
| Driver.NRF24.AwaitTransmission | NRF24.cpp:735-757 | after the poll, the result and counters follow `TransmitReport`; STATUS stays cleared, and the TX FIFO is emptied only on a timeout |
| Driver.NRF24.PollTransmitStatus | NRF24.cpp:735-742 | the loop ends resolved at exactly the read `PollOutcome` names, or times out exactly when `PollOutcome` does, flushing the TX FIFO |
| Driver.NRF24.Available | NRF24.cpp:825-835 | ready is the RX_DR bit; the pipe number ≤ 7 is written only when ready |
| Driver.NRF24.GetDynamicPayloadSize | NRF24.cpp:859-874 | the checked width; the RX FIFO is flushed exactly when the report exceeds 32 |
| Driver.NRF24.PayloadLength | NRF24.cpp:838-843 | read's length, with the overflow flush |
| Driver.NRF24.Read | NRF24.cpp:837-857 | the length is `ReadLength` ≤ len; the bytes are the head payload; the head is drained, STATUS set to RX_DR and packets_received raised by one |
| Driver.NRF24.StartListening | NRF24.cpp:876-879 | receive mode |
| Driver.NRF24.StopListening | NRF24.cpp:881-887 | the settle wait happens exactly when EN_ACK_PAY is set |
| Driver.NRF24.TestCarrier | NRF24.cpp:895-903 | bit 0 of RPD |
| Driver.NRF24.GetObserveTx | NRF24.cpp:905-908 | OBSERVE_TX |
| Driver.NRF24.GetLostPackets | NRF24.cpp:910-913 | the PLOS_CNT high nibble of OBSERVE_TX |
| Driver.NRF24.GetRetransmitCount | NRF24.cpp:915-918 | the ARC_CNT low nibble of OBSERVE_TX |
| Driver.NRF24.ResetPacketLossCounters | NRF24.cpp:920-923 | RF_CH is rewritten with the cached channel |
| Driver.NRF24.MaskInterrupt | NRF24.cpp:926-931 | the given CONFIG mask bits are set, the rest kept |
| Driver.NRF24.UnmaskInterrupt | NRF24.cpp:933-938 | the given CONFIG mask bits are cleared, the rest kept |
| Driver.NRF24.IsInterruptTriggered | NRF24.cpp:940-943 | whether STATUS has any of the given flags |
| Driver.NRF24.ClearInterrupt | NRF24.cpp:945-948 | STATUS is written with the given flags |
| Driver.NRF24.IsTxFifoEmpty | NRF24.cpp:951-954 | the TX_EMPTY bit of FIFO_STATUS |
| Driver.NRF24.IsTxFifoFull | NRF24.cpp:956-959 | the TX_FULL bit of FIFO_STATUS |
| Driver.NRF24.IsRxFifoEmpty | NRF24.cpp:961-964 | the RX_EMPTY bit of FIFO_STATUS |
| Driver.NRF24.IsRxFifoFull | NRF24.cpp:966-969 | the RX_FULL bit of FIFO_STATUS |
| Driver.NRF24.FlushTxFifo | NRF24.cpp:971-974 | the TX FIFO becomes empty |
| Driver.NRF24.FlushRxFifo | NRF24.cpp:976-979 | the RX FIFO becomes empty |
| Driver.NRF24.GetPacketsSent | NRF24.cpp:1012-1015 | the sent counter |
| Driver.NRF24.GetPacketsReceived | NRF24.cpp:1017-1020 | the received counter |
| Driver.NRF24.GetPacketsLost | NRF24.cpp:1022-1025 | the lost counter |
| Driver.NRF24.ResetStatistics | NRF24.cpp:1027-1033 | every statistic becomes zero; settings are kept |

## Left out

- SPI and GPIO set-up, chip-select toggling, the SPI baud-rate change and the IRQ pin
  (`NRF24.cpp:64-84`, `NRF24.cpp:111`). The model replaces every bus transaction with an operation on
  the register file.
- The chip-enable line and the `sleep_us`/`sleep_ms` settling delays. They are timing,
  not logic. `StopListening` reports whether it would wait.
- `writeBlocking`, because its deadline depends on the wall clock.
- `printDetails`: formatted diagnostics with floating point.
- The legacy wrappers (`NRF24.cpp:1107-1184`). `enableAck`, `modeRX`, `modeTX`,
  `newMessage`, `sendMessage`, `getMessage` and `readRegister` only forward to modelled
  operations. `config` (`NRF24.cpp:1113-1154`) is not modelled. It stores the channel
  unclamped and writes CONFIG, EN_AA, SETUP_AW, SETUP_RETR, RF_CH, RF_SETUP, both
  addresses and RX_PW_P0 directly. Then it calls the modelled setters `setChannel`,
  `setPayloadSize`, `setAddressWidth`, `setTxAddress` and `openReadingPipe`.
- `getStatus` (`NRF24.cpp:890-893`), which returns `readReg(STATUS)`. STATUS is decided
  by the radio, so the engines take it as a parameter instead.
- `updateStatus` (`NRF24.cpp:240-244`), which caches STATUS and FIFO_STATUS in the
  `status`/`fifo_status` members, and `sendCommand` (`NRF24.cpp:215-221`), which sends
  one command byte and returns the STATUS byte clocked back. No modelled operation
  calls either.
- The destructor, which only powers down.
- The chip's own behaviour: sending payloads, write-one-to-clear STATUS bits, the actual
  FIFO_STATUS, OBSERVE_TX and RPD contents. A STATUS write stores the byte written. The
  TX FIFO only records loads and flushes. The values the chip alone decides are method
  parameters.
- Driver.NRF24.WriteReg: takes only registers below 0x20 that are not address registers.
  Every call in the driver passes a header address, for which the 0x1F mask is the
  identity (`FramingOfNamedRegisters`). The one-byte writes into address registers are
  not modelled.
- Driver.NRF24.WriteRegBytes: takes only registers below 0x20, for the same reason.
- Driver.NRF24.SetTxAddress: requires the caller's buffer to hold at least
  address-width bytes; C reads past a shorter buffer. OpenWritingPipe and
  OpenReadingPipe have the same precondition.
- Driver.NRF24.Write: `len` is the length of `data`. A caller passing a shorter `len`
  than its buffer is not modelled.
- Driver.NRF24.Read: returns the bytes read instead of writing them into a caller buffer.
- Fields.BitMask: models `1 << bit` as 0 for bit ≥ 8. That is its byte effect; shifts
  of 32 or more, which C leaves undefined, get the same 0.
- Driver.NRF24.PollTransmitStatus: models the fixed 10000-iteration counter, not the
  10 ms the comment promises.
- The `messageLen` setting mirrors the public `messageLen` member (`NRF24.h:185`).
  `setPayloadSize` and `config` write it; the left-out `sendMessage` and `getMessage`
  read it.
- The public `packetsLost` member (`NRF24.h:186`). No code reads or writes it after
  its initialisation to 0; the loss statistic is `packets_lost`.
