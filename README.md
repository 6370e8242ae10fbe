# MCP4725 12-bit I2C DAC driver, modelled in Dafny

This project models the mbed driver for Microchip's MCP4725, a single-channel
12-bit digital-to-analog converter on the I2C bus. It covers the driver's two
layers:

- the bit packing of a 2-bit power mode and a 12-bit DAC code into the chip's
  command frames, and the unpacking of the chip's five-byte read-back
  (`mcp4725_codec.dfy`);
- the driver object itself (`mcp4725_driver.dfy`): a constant bus address,
  the cached power mode and DAC code, and the operations `open`, `reset`,
  `wakeup`, `powerMode` (get and set), `write_u12`, `readEeprom`,
  `writeEeprom`, `readDac` and `writeDac`.

The header's enumerations (eight addresses, four power modes) are in
`mcp4725_defs.dfy`.

Conventions:

- Buffer bytes are `bv8`. The target is ARM, where `char` is unsigned. The
  driver's `unsigned short` is `bv16`. C promotes both to `int` before
  shifting and keeps only the low eight bits when storing into a byte;
  `Low8` writes out that truncation.
- The I2C bus is abstracted. Every transfer is appended to a ghost `trace`
  of `(address, bytes)` records. A read's answer is a five-byte `Frame`
  that the caller supplies. The status returned by `open`'s probe write is
  a parameter.
- The EEPROM busy-wait takes the sequence of frames the device answers its
  polls with, and requires that one of them reports ready. The driver's
  loop has no timeout, so without a ready frame it would never return.
- The device-side reading of a fast-write frame (`ParseFastWrite`: command
  bits, power-down bits, 12-bit code) and the EEPROM image in a read-back
  (`EepromImage`) are the partners the round-trip lemmas are stated against.
  They follow the chip's frame layouts as the driver's shifts assume them.

Where the source's comments and its code disagree, the model follows the code:

- `ADDRESS_6` and `ADDRESS_7` are `0x67 << 1` and `0x68 << 1`, although their
  comments give A2:A0 = 110 and 111. `AddressMatchesStrapping` states that
  only `Address0..Address5` match the comment's 0x60 + k.
- `write_u12` stores its argument unmasked. Its doc comment promises a 16-bit
  input range. In the code, bits 15-12 of the code spill into bits 7-4 of the
  first byte: they are ORed into the power-down bits, and from 0x4000 up
  they also change the command bits. `FastWriteSpill` states exactly what
  the device receives. `FastWriteRoundTrip` states that the frame is exact
  if and only if the code is at most 4095.

## Model

| member | source | states |
|---|---|---|
| MCP4725Defs.AddressValue | MCP4725.h:57-66 | every address value is even (a 7-bit address shifted left by one) and lies in 0xC0..0xD0 |
| MCP4725Defs.AddressValuesDistinct | MCP4725.h:57-66 | two enumerated addresses have the same value if and only if they are the same address |
| MCP4725Defs.AddressMatchesStrapping | MCP4725.h:58-65 | an address equals (0x60 + k) << 1 if and only if it is one of Address0..Address5; Address6's strap bits read 111 and Address7's 7-bit address 0x68 is outside 0x60..0x67 |
| MCP4725Defs.ModeBits | MCP4725.h:70-75 | a power mode's 2-bit code; POWER_NORMAL is exactly the mode with code 0 |
| MCP4725Defs.ModeOf | MCP4725.cpp:117 | the cast of a 2-bit field to a power mode always yields the mode whose code is that field |
| MCP4725Defs.ModeBitsBijective | MCP4725.h:70-75 | the four modes and the four 2-bit codes are in one-to-one correspondence, so every mode fits in two bits |
| MCP4725Codec.Low8 | MCP4725.cpp:175 | storing a value into an unsigned char keeps exactly its low eight bits |
| MCP4725Codec.FastWriteBytes | MCP4725.cpp:174-175 | the fast write is two bytes; byte 1 is the code's low byte and byte 0's low nibble is code bits 11-8 |
| MCP4725Codec.FastWriteRoundTrip | MCP4725.cpp:168-179 | the device reads command 00, the given mode and the given code from the frame if and only if the code is at most 4095 |
| MCP4725Codec.FastWriteSpill | MCP4725.cpp:97-104 | for any 16-bit code the device reads the low 12 bits as the code, mode OR code bits 13-12 as the power-down bits, and code bits 15-14 as the command |
| MCP4725Codec.ParseFastWrite | MCP4725.cpp:173-175 | the code read from a fast-write frame is at most 4095, with bits 11-8 from byte 0's low nibble and bits 7-0 from byte 1 |
| MCP4725Codec.DecodeDacRegister | MCP4725.cpp:163-165 | the decoded code is at most 4095, with bits 11-4 from byte 1 and bits 3-0 from byte 2's high nibble; the mode is the one coded in byte 0 bits 2-1 |
| MCP4725Codec.DecodeDacRegisterReads | MCP4725.cpp:164-165 | two frames decode to the same setting if and only if they agree on byte 0 bits 2-1, byte 1 and byte 2's high nibble |
| MCP4725Codec.EepromWriteBytes | MCP4725.cpp:131-134 | the EEPROM command is three bytes; byte 0 bits 7-5 are 011, bits 2-1 hold the mode and bits 4, 3 and 0 are clear; byte 1 is code bits 11-4; byte 2 holds code bits 3-0 in its high nibble and zeros below |
| MCP4725Codec.EepromWriteRoundTrip | MCP4725.cpp:132-134 | decoding the three command bytes with the DAC-register formulas gives back the mode and code if and only if the code is at most 4095 |
| MCP4725Codec.EepromWriteTruncates | MCP4725.cpp:133-134 | for any 16-bit code the command carries the code's low 12 bits and drops the top four |
| MCP4725Codec.DecodeEeprom | MCP4725.cpp:116-118 | the EEPROM code is at most 4095, with bits 11-8 from byte 3's low nibble and bits 7-0 from byte 4; the mode is the one coded in byte 3 bits 6-5 |
| MCP4725Codec.EepromImage | MCP4725.cpp:117-118 | the EEPROM image bytes put the mode at byte 3 bits 6-5 and the code's low byte in byte 4 |
| MCP4725Codec.EepromReadRoundTrip | MCP4725.cpp:117-118 | for b3 = the mode shifted left by 5 ORed with code bits 11-8 and b4 = the code's low byte, decoding returns the setting if and only if its code is at most 4095 |
| MCP4725Codec.DecodeEepromReads | MCP4725.cpp:117-118 | two frames decode to the same EEPROM setting if and only if they agree on byte 3 under mask 0x6F and on byte 4 |
| MCP4725Codec.Ready | MCP4725.cpp:114 | the busy-wait's exit test: a read reports ready (no EEPROM write in progress) exactly when its status byte 0 has bit 7 set, that is, is at least 0x80 |
| MCP4725Codec.FirstReady | MCP4725.cpp:112-114 | the busy wait stops at a frame whose status bit 7 is set, and every earlier frame had it clear |
| MCP4725Driver.PollReads | MCP4725.cpp:112-113 | the polling loop issues one five-byte read from the device per response, in order |
| MCP4725Driver.BusyWaitTrace | MCP4725.cpp:126-129 | the reads up to the first ready frame are all five-byte reads from the device, all busy except the last, which is ready and carries that frame |
| MCP4725Driver.Mcp4725.constructor | MCP4725.cpp:19 | the address is fixed to the chosen enumerated value and no transfer has happened |
| MCP4725Driver.Mcp4725.Open | MCP4725.cpp:25-35 | sends one zero-length write to the device's address and returns true exactly when the bus status is 0; the cached fields are untouched |
| MCP4725Driver.Mcp4725.Reset | MCP4725.cpp:37-44 | sends the single byte 0x06 to address 0x00, whatever the device's address; the cached fields are untouched |
| MCP4725Driver.Mcp4725.WakeUp | MCP4725.cpp:46-53 | sends the single byte 0x09 to address 0x00, whatever the device's address; the cached fields are untouched |
| MCP4725Driver.Mcp4725.GetPowerMode | MCP4725.cpp:55-62 | one five-byte read; returns the decoded mode and refreshes both cached fields from that frame |
| MCP4725Driver.Mcp4725.SetPowerMode | MCP4725.cpp:64-71 | sets the cached mode, keeps the cached code and sends exactly one two-byte fast write of the two |
| MCP4725Driver.Mcp4725.WriteU12 | MCP4725.cpp:97-104 | stores the code unmasked, keeps the cached mode and sends one fast write of the two |
| MCP4725Driver.Mcp4725.AwaitEepromReady | MCP4725.cpp:111-114 | reads until the first ready frame, returns that frame, and the trace gains exactly those reads |
| MCP4725Driver.Mcp4725.ReadEeprom | MCP4725.cpp:106-119 | after a busy wait, returns the setting decoded from the ready frame (code at most 4095); the cached fields are untouched |
| MCP4725Driver.Mcp4725.WriteEeprom | MCP4725.cpp:121-138 | after a busy wait, sends the three-byte EEPROM command as the only write; the cached fields are untouched |
| MCP4725Driver.Mcp4725.ReadDac | MCP4725.cpp:155-166 | one five-byte read; both cached fields are overwritten from that frame and the cached code is at most 4095 |
| MCP4725Driver.Mcp4725.WriteDac | MCP4725.cpp:168-179 | one two-byte fast write of the cached mode and code to the device's address; the cached fields are untouched |

## Left out

- `read()`, `write(float)` and the `MBED_OPERATORS` float operators: they compute with floating point (clamping, `value * 4095` truncation, division by 4095.0). They are not modelled.
- The constructor's default arguments (`addr = ADDRESS_0`, `hz = 400000`): Dafny has no default parameters, so the model's constructor always takes its address explicitly; a caller wanting the default passes `Address0`. The frequency is not modelled (next line).
- The I2C object: the constructor's pin arguments, the bus frequency setup and the real read/write transport are foreign library calls. They are replaced by the ghost trace, supplied frames and a supplied probe status.
- Mcp4725.AwaitEepromReady, ReadEeprom, WriteEeprom: require that some poll response reports ready; the source blocks forever when none does, and that non-termination is not modelled.
- Bus failures on reads and writes other than the probe: the driver ignores their return values, and so does the model.
- Mcp4725.constructor: says nothing about the cached mode and code, because the driver leaves them uninitialised.
- The demo program (`main.cpp`): sine generation, voltage sampling and serial output are application code, not driver logic.
