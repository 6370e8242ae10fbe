/** The bit packing and unpacking of the MCP4725 wire formats, as the driver
    computes them. Buffer bytes are unsigned 8-bit values; the driver's
    `unsigned short` is a 16-bit value. C promotes both to `int` before
    shifting and truncates the result when it is stored back into a byte;
    Low8 writes that truncation out. */
module MCP4725Codec {
  import opened MCP4725Defs

  /** Storing an integer into an unsigned `char` keeps its low eight bits:
      the value is its high byte followed by the stored byte. */
  function Low8(x: bv16): (b: bv8)
    ensures x == ((x >> 8) << 8) | b as bv16
  {
    (x & 0xFF) as bv8
  }

  /** A power mode together with a DAC code: what the driver caches, and
      what the DAC register and the EEPROM hold. */
  datatype Setting = Setting(mode: PowerMode, value: bv16)

  /** The largest 12-bit code. */
  const MaxCode: bv16 := 0x0FFF

  /** The five bytes of one read from the device. Byte 0 is the status byte
      (bit 7 set: no EEPROM write in progress; bits 2-1: power mode of the
      DAC register), bytes 1-2 hold the DAC register's code, bytes 3-4 the
      EEPROM's power mode and code. */
  datatype Frame = Frame(b0: bv8, b1: bv8, b2: bv8, b3: bv8, b4: bv8)
  {
    function Bytes(): (s: seq<bv8>)
      ensures |s| == 5 && s[0] == b0 && s[3] == b3 && s[4] == b4
    {
      [b0, b1, b2, b3, b4]
    }
  }

  // ---------------------------------------------------------------- fast write

  /** The two-byte fast-mode write of `writeDac`:
      byte 0 = (mode << 4) | (value >> 8), byte 1 = value, each truncated to
      a byte. No mask is applied to `value`. */
  function FastWriteBytes(mode: PowerMode, value: bv16): (b: seq<bv8>)
    ensures |b| == 2
    ensures b[1] as bv16 == value & 0xFF
    ensures b[0] & 0x0F == ((value >> 8) & 0x0F) as bv8
  {
    [Low8((ModeBits(mode) as bv16 << 4) | (value >> 8)), Low8(value)]
  }

  /** The fields the device reads from a two-byte fast-mode frame:
      command bits C2:C1 (byte 0 bits 7-6, 00 for a fast write), power-down
      bits PD1:PD0 (byte 0 bits 5-4) and the 12-bit code (byte 0 bits 3-0
      followed by byte 1). */
  datatype FastFields = FastFields(command: bv2, powerDown: bv2, code: bv16)

  function ParseFastWrite(b0: bv8, b1: bv8): (f: FastFields)
    ensures f.code <= MaxCode
    ensures f.code >> 8 == (b0 & 0x0F) as bv16 && f.code & 0xFF == b1 as bv16
  {
    FastFields((b0 >> 6) as bv2, ((b0 >> 4) & 3) as bv2,
               ((b0 & 0x0F) as bv16 << 8) | b1 as bv16)
  }

  /** Fast-write frames are exact: the device sees a fast-write command with
      the driver's mode and code precisely when the code fits in 12 bits. */
  lemma FastWriteRoundTrip(mode: PowerMode, value: bv16)
    ensures var b := FastWriteBytes(mode, value);
      ParseFastWrite(b[0], b[1]) == FastFields(0, ModeBits(mode), value)
      <==> value <= MaxCode
  {
  }

  /** What the device sees for any 16-bit code: the low 12 bits arrive as
      the code, bits 13-12 are ORed into the power-down bits and bits 15-14
      become the command bits, so from 0x4000 up the frame is no longer a
      fast write at all. */
  lemma FastWriteSpill(mode: PowerMode, value: bv16)
    ensures var b := FastWriteBytes(mode, value);
      ParseFastWrite(b[0], b[1]) ==
        FastFields((value >> 14) as bv2,
                   ModeBits(mode) | ((value >> 12) & 3) as bv2,
                   value & MaxCode)
  {
  }

  // ----------------------------------------------------------- DAC register read

  /** The `readDac` decode: power mode from byte 0 bits 2-1, code from
      (byte 1 << 4) | (byte 2 >> 4). */
  function DecodeDacRegister(f: Frame): (s: Setting)
    ensures s.value <= MaxCode
    ensures ModeBits(s.mode) as bv8 == (f.b0 >> 1) & 3
    ensures s.value >> 4 == f.b1 as bv16 && s.value & 0x0F == (f.b2 >> 4) as bv16
  {
    Setting(ModeOf(((f.b0 >> 1) & 3) as bv2),
            (f.b1 as bv16 << 4) | (f.b2 >> 4) as bv16)
  }

  /** The decode reads exactly byte 0 bits 2-1, byte 1 and the high nibble
      of byte 2: two frames decode alike if and only if they agree there. */
  lemma DecodeDacRegisterReads(f: Frame, g: Frame)
    ensures DecodeDacRegister(f) == DecodeDacRegister(g) <==>
      f.b0 & 0x06 == g.b0 & 0x06 && f.b1 == g.b1 && f.b2 & 0xF0 == g.b2 & 0xF0
  {
    DecodeDacModeReads(f, g);
    DacCodeBits(f.b1, f.b2, g.b1, g.b2);
    assert (f.b0 >> 1) & 3 == (g.b0 >> 1) & 3 <==> f.b0 & 0x06 == g.b0 & 0x06;
  }

  lemma DecodeDacModeReads(f: Frame, g: Frame)
    ensures DecodeDacRegister(f).mode == DecodeDacRegister(g).mode <==>
      (f.b0 >> 1) & 3 == (g.b0 >> 1) & 3
  {
    ModeBitsBijective(DecodeDacRegister(f).mode, DecodeDacRegister(g).mode);
  }

  /** The DAC-register code formula keeps exactly all of its first byte and
      the high nibble of its second. */
  lemma DacCodeBits(a: bv8, b: bv8, c: bv8, d: bv8)
    ensures (a as bv16 << 4) | (b >> 4) as bv16 == (c as bv16 << 4) | (d >> 4) as bv16
      <==> a == c && b & 0xF0 == d & 0xF0
  {
  }

  // --------------------------------------------------------------- EEPROM write

  /** The three-byte "write DAC register and EEPROM" command of `writeEeprom`:
      [0x60 | (mode << 1), value >> 4, value << 4], each truncated to a byte. */
  function EepromWriteBytes(mode: PowerMode, value: bv16): (b: seq<bv8>)
    ensures |b| == 3
    ensures b[0] >> 5 == 3                    // command C2:C1:C0 = 011
    ensures (b[0] >> 1) & 3 == ModeBits(mode) as bv8
    ensures b[0] & 0x19 == 0                  // bits 4, 3 and 0 unused
    ensures b[1] as bv16 == (value >> 4) & 0xFF
    ensures b[2] & 0x0F == 0 && (b[2] >> 4) as bv16 == value & 0x0F
  {
    [0x60 | (ModeBits(mode) as bv8 << 1), Low8(value >> 4), Low8(value << 4)]
  }

  /** The command bytes occupy the positions `readDac` decodes: reading them
      back with its formulas yields the mode and the code exactly when the
      code fits in 12 bits. */
  lemma EepromWriteRoundTrip(mode: PowerMode, value: bv16, x: bv8, y: bv8)
    ensures var b := EepromWriteBytes(mode, value);
      DecodeDacRegister(Frame(b[0], b[1], b[2], x, y)) == Setting(mode, value)
      <==> value <= MaxCode
  {
  }

  /** For any code the EEPROM command carries its low 12 bits: the top four
      bits are silently dropped. */
  lemma EepromWriteTruncates(mode: PowerMode, value: bv16, x: bv8, y: bv8)
    ensures var b := EepromWriteBytes(mode, value);
      DecodeDacRegister(Frame(b[0], b[1], b[2], x, y)) == Setting(mode, value & MaxCode)
  {
  }

  // ---------------------------------------------------------------- EEPROM read

  /** The `readEeprom` decode: power mode from byte 3 bits 6-5, code from
      ((byte 3 << 8) & 0xFFF) | byte 4. */
  function DecodeEeprom(f: Frame): (s: Setting)
    ensures s.value <= MaxCode
    ensures ModeBits(s.mode) as bv8 == (f.b3 >> 5) & 3
    ensures s.value >> 8 == (f.b3 & 0x0F) as bv16 && s.value & 0xFF == f.b4 as bv16
  {
    Setting(ModeOf(((f.b3 >> 5) & 3) as bv2),
            ((f.b3 as bv16 << 8) & 0xFFF) | f.b4 as bv16)
  }

  /** How the EEPROM contents appear in bytes 3 and 4 of a read:
      byte 3 = (mode << 5) | code bits 11-8, byte 4 = the code's low byte. */
  function EepromImage(s: Setting): (b: (bv8, bv8))
    ensures (b.0 >> 5) & 3 == ModeBits(s.mode) as bv8
    ensures b.1 as bv16 == s.value & 0xFF
  {
    (Low8((ModeBits(s.mode) as bv16 << 5) | ((s.value >> 8) & 0x0F)), Low8(s.value))
  }

  /** Decoding an EEPROM image recovers the setting exactly when its code
      fits in 12 bits, whatever the other three bytes hold. */
  lemma EepromReadRoundTrip(s: Setting, x: bv8, y: bv8, z: bv8)
    ensures var b := EepromImage(s);
      DecodeEeprom(Frame(x, y, z, b.0, b.1)) == s <==> s.value <= MaxCode
  {
  }

  /** The decode reads exactly byte 3 bits 6-5 and 3-0 and byte 4: two frames
      decode alike if and only if they agree there. */
  lemma DecodeEepromReads(f: Frame, g: Frame)
    ensures DecodeEeprom(f) == DecodeEeprom(g) <==>
      f.b3 & 0x6F == g.b3 & 0x6F && f.b4 == g.b4
  {
    DecodeEepromModeReads(f, g);
    DecodeEepromCodeReads(f, g);
    ModeAndNibble(f.b3, g.b3);
  }

  lemma DecodeEepromModeReads(f: Frame, g: Frame)
    ensures DecodeEeprom(f).mode == DecodeEeprom(g).mode <==> (f.b3 >> 5) & 3 == (g.b3 >> 5) & 3
  {
    ModeBitsBijective(DecodeEeprom(f).mode, DecodeEeprom(g).mode);
  }

  lemma DecodeEepromCodeReads(f: Frame, g: Frame)
    ensures DecodeEeprom(f).value == DecodeEeprom(g).value <==>
      f.b3 & 0x0F == g.b3 & 0x0F && f.b4 == g.b4
  {
    EepromCodeBits(f.b3, f.b4, g.b3, g.b4);
  }

  /** The EEPROM code formula keeps exactly the low nibble of its first byte
      and all of its second. */
  lemma EepromCodeBits(a: bv8, b: bv8, c: bv8, d: bv8)
    ensures ((a as bv16 << 8) & 0xFFF) | b as bv16 == ((c as bv16 << 8) & 0xFFF) | d as bv16
      <==> a & 0x0F == c & 0x0F && b == d
  {
  }

  /** Byte 3 bits 6-5 and 3-0 together are the bits under the mask 0x6F. */
  lemma ModeAndNibble(a: bv8, b: bv8)
    ensures (a >> 5) & 3 == (b >> 5) & 3 && a & 0x0F == b & 0x0F <==> a & 0x6F == b & 0x6F
  {
  }

  // ------------------------------------------------------------- EEPROM status

  /** Status bit 7: set when no EEPROM write is in progress. The busy-wait
      loops repeat while `(status & 0x80) == 0`. */
  predicate StatusReady(status: bv8) {
    status & 0x80 != 0
  }

  /** A read reports ready when its status byte (byte 0) does; that is, when
      the status byte is at least 0x80. */
  predicate Ready(f: Frame)
    ensures Ready(f) <==> f.b0 >= 0x80
  {
    StatusReady(f.b0)
  }

  /** Some frame in the poll sequence reports ready. */
  predicate SomeReady(polls: seq<Frame>) {
    exists i :: 0 <= i < |polls| && Ready(polls[i])
  }

  /** The index of the frame at which a busy-wait loop stops: the first
      frame that reports ready. */
  function FirstReady(polls: seq<Frame>): (k: nat)
    requires SomeReady(polls)
    ensures k < |polls| && Ready(polls[k])
    ensures forall j :: 0 <= j < k ==> !Ready(polls[j])
  {
    if Ready(polls[0]) then 0
    else
      var i :| 0 <= i < |polls| && Ready(polls[i]);
      assert Ready(polls[1..][i - 1]);
      1 + FirstReady(polls[1..])
  }
}
