/** The public enumerations of the MCP4725 driver: the eight bus addresses the
    chip can be strapped to and its four power modes. */
module MCP4725Defs {

  /** The eight selectable device addresses (Address0 is the driver's default). */
  datatype Address =
    | Address0 | Address1 | Address2 | Address3
    | Address4 | Address5 | Address6 | Address7

  /** Position of an address in the enumeration, 0..7. */
  function AddressIndex(a: Address): (k: nat)
    ensures k < 8
  {
    match a
    case Address0 => 0
    case Address1 => 1
    case Address2 => 2
    case Address3 => 3
    case Address4 => 4
    case Address5 => 5
    case Address6 => 6
    case Address7 => 7
  }

  /** The integer the driver stores in its address field: a 7-bit bus address
      already shifted left by one, exactly as the enumeration literals are
      written (Address6 and Address7 use 0x67 and 0x68). */
  function AddressValue(a: Address): (v: int)
    ensures 0xC0 <= v <= 0xD0
    ensures v % 2 == 0
  {
    match a
    case Address0 => 0x60 * 2
    case Address1 => 0x61 * 2
    case Address2 => 0x62 * 2
    case Address3 => 0x63 * 2
    case Address4 => 0x64 * 2
    case Address5 => 0x65 * 2
    case Address6 => 0x67 * 2
    case Address7 => 0x68 * 2
  }

  /** True of the integers that some enumerated address denotes. */
  ghost predicate IsDeviceAddress(v: int) {
    exists a: Address :: AddressValue(a) == v
  }

  /** No two enumerated addresses share a value. */
  lemma AddressValuesDistinct(a: Address, b: Address)
    ensures AddressValue(a) == AddressValue(b) <==> a == b
  {
  }

  /** The documented strapping reads address k as 7-bit address 0x60 + k
      (A2:A0 = k). The literals follow that for Address0..Address5 only:
      Address6 is 0x67 (A2:A0 = 111) and Address7 is 0x68, outside 0x60..0x67. */
  lemma AddressMatchesStrapping(a: Address)
    ensures AddressValue(a) == (0x60 + AddressIndex(a)) * 2 <==> AddressIndex(a) < 6
    ensures a == Address6 ==> (AddressValue(a) / 2) % 8 == 7
    ensures a == Address7 ==> !(0x60 <= AddressValue(a) / 2 <= 0x67)
  {
  }

  /** The chip's power modes, in the order of their 2-bit codes. */
  datatype PowerMode =
    | PowerNormal        // output enabled
    | PowerShutdown1K    // shut down, output pulled to ground through 1 kOhm
    | PowerShutdown100K  // shut down, output pulled to ground through 100 kOhm
    | PowerShutdown500K  // shut down, output pulled to ground through 500 kOhm

  /** The 2-bit code of a power mode (its enumeration value). */
  function ModeBits(m: PowerMode): (c: bv2)
    ensures m == PowerNormal <==> c == 0
  {
    match m
    case PowerNormal => 0
    case PowerShutdown1K => 1
    case PowerShutdown100K => 2
    case PowerShutdown500K => 3
  }

  /** The power mode a 2-bit code denotes: every code names exactly one mode. */
  function ModeOf(c: bv2): (m: PowerMode)
    ensures ModeBits(m) == c
  {
    if c == 0 then PowerNormal
    else if c == 1 then PowerShutdown1K
    else if c == 2 then PowerShutdown100K
    else PowerShutdown500K
  }

  /** ModeOf and ModeBits are inverse bijections between the four modes and
      the four 2-bit codes. */
  lemma ModeBitsBijective(m: PowerMode, n: PowerMode)
    ensures ModeOf(ModeBits(m)) == m
    ensures ModeBits(m) == ModeBits(n) <==> m == n
  {
  }
}
