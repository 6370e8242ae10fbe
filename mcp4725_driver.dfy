/** The MCP4725 driver object: a fixed bus address, the cached power mode and
    DAC code, and the operations that exchange frames with the device.

    The I2C bus is abstracted. Every transfer the driver issues is appended
    to the ghost `trace`; the bytes a read returns are supplied by the caller
    as `Frame`s, and the status a probe write returns is a parameter. */
module MCP4725Driver {
  import opened MCP4725Defs
  import opened MCP4725Codec

  /** The I2C general-call address, and the general-call reset command. */
  const GeneralCallAddress: int := 0x00
  const GeneralCallReset: bv8 := 0x06
  /** The MCP4725's general-call wake-up command. */
  const GeneralCallWakeUp: bv8 := 0x09

  /** One bus transaction: the address it went to and the bytes it carried. */
  datatype Transfer =
    | Write(address: int, data: seq<bv8>)
    | Read(address: int, data: seq<bv8>)

  /** The five-byte reads a polling loop issues, one per response. */
  function PollReads(address: int, polls: seq<Frame>): (t: seq<Transfer>)
    ensures |t| == |polls|
    ensures forall i :: 0 <= i < |polls| ==> t[i] == Read(address, polls[i].Bytes())
  {
    if polls == [] then [] else [Read(address, polls[0].Bytes())] + PollReads(address, polls[1..])
  }

  /** One more poll adds one more read at the end. */
  lemma PollReadsExtend(address: int, polls: seq<Frame>, i: nat)
    requires i < |polls|
    ensures PollReads(address, polls[..i + 1])
         == PollReads(address, polls[..i]) + [Read(address, polls[i].Bytes())]
  {
  }

  /** A busy wait as it appears on the bus: five-byte reads from `address`,
      every one but the last with a busy status byte and the last with a
      ready one (`StatusReady`, the test `Ready` applies to a frame). */
  ghost predicate IsBusyWait(t: seq<Transfer>, address: int) {
    && |t| > 0
    && (forall i :: 0 <= i < |t| ==> t[i].Read? && t[i].address == address && |t[i].data| == 5)
    && (forall i :: 0 <= i < |t| - 1 ==> !StatusReady(t[i].data[0]))
    && StatusReady(t[|t| - 1].data[0])
  }

  /** The reads up to and including the first ready response form a busy
      wait, and that last read carries the ready frame's bytes. */
  lemma BusyWaitTrace(address: int, polls: seq<Frame>)
    requires SomeReady(polls)
    ensures var t := PollReads(address, polls[..FirstReady(polls) + 1]);
      IsBusyWait(t, address) && t[|t| - 1].data == polls[FirstReady(polls)].Bytes()
  {
  }

  class Mcp4725 {
    /** The device's bus address, fixed at construction. */
    const addr: int
    /** The cached power mode. */
    var powerMode: PowerMode
    /** The cached DAC code, as the `unsigned short` the driver keeps. */
    var dacValue: bv16
    /** Every transfer this driver has put on the bus, oldest first. */
    ghost var trace: seq<Transfer>

    /** The cached mode and code are left as they are found: the driver
        does not initialise them. */
    constructor (address: Address)
      ensures addr == AddressValue(address) && IsDeviceAddress(addr)
      ensures trace == []
    {
      addr := AddressValue(address);
      trace := [];
    }

    /** Probe with a zero-length write to the device's address; the bus
        answers `status` (0 when the device acknowledged). */
    method Open(status: int) returns (present: bool)
      modifies this`trace
      ensures present <==> status == 0
      ensures trace == old(trace) + [Write(addr, [])]
      ensures powerMode == old(powerMode) && dacValue == old(dacValue)
    {
      trace := trace + [Write(addr, [])];
      present := status == 0;
    }

    /** General-call reset: the single byte 0x06 to address 0x00, which
        every device on the bus obeys, whatever this driver's address. */
    method Reset()
      modifies this`trace
      ensures trace == old(trace) + [Write(GeneralCallAddress, [GeneralCallReset])]
      ensures powerMode == old(powerMode) && dacValue == old(dacValue)
    {
      trace := trace + [Write(GeneralCallAddress, [GeneralCallReset])];
    }

    /** General-call wake-up: the single byte 0x09 to address 0x00. */
    method WakeUp()
      modifies this`trace
      ensures trace == old(trace) + [Write(GeneralCallAddress, [GeneralCallWakeUp])]
      ensures powerMode == old(powerMode) && dacValue == old(dacValue)
    {
      trace := trace + [Write(GeneralCallAddress, [GeneralCallWakeUp])];
    }

    /** Read the DAC register (the device answers `response`) and refresh
        both cached fields from that one frame. */
    method ReadDac(response: Frame)
      modifies this`powerMode, this`dacValue, this`trace
      ensures Setting(powerMode, dacValue) == DecodeDacRegister(response)
      ensures dacValue <= MaxCode
      ensures trace == old(trace) + [Read(addr, response.Bytes())]
    {
      trace := trace + [Read(addr, response.Bytes())];
      var s := DecodeDacRegister(response);
      powerMode := s.mode;
      dacValue := s.value;
    }

    /** Send the cached mode and code as a two-byte fast-mode write. */
    method WriteDac()
      modifies this`trace
      ensures trace == old(trace) + [Write(addr, FastWriteBytes(powerMode, dacValue))]
      ensures powerMode == old(powerMode) && dacValue == old(dacValue)
    {
      trace := trace + [Write(addr, FastWriteBytes(powerMode, dacValue))];
    }

    /** Read the DAC register and return its power mode; the cached code is
        refreshed from the same frame. */
    method GetPowerMode(response: Frame) returns (mode: PowerMode)
      modifies this`powerMode, this`dacValue, this`trace
      ensures mode == powerMode == DecodeDacRegister(response).mode
      ensures dacValue == DecodeDacRegister(response).value
      ensures trace == old(trace) + [Read(addr, response.Bytes())]
    {
      ReadDac(response);
      mode := powerMode;
    }

    /** Set the power mode and send it with the cached code, which is kept. */
    method SetPowerMode(mode: PowerMode)
      modifies this`powerMode, this`trace
      ensures powerMode == mode && dacValue == old(dacValue)
      ensures trace == old(trace) + [Write(addr, FastWriteBytes(mode, dacValue))]
    {
      powerMode := mode;
      WriteDac();
    }

    /** Set the DAC code, unmasked, and send it with the cached mode, which
        is kept. */
    method WriteU12(value: bv16)
      modifies this`dacValue, this`trace
      ensures dacValue == value && powerMode == old(powerMode)
      ensures trace == old(trace) + [Write(addr, FastWriteBytes(powerMode, value))]
    {
      dacValue := value;
      WriteDac();
    }

    /** The busy-wait loop both EEPROM operations start with: read five
        bytes until status bit 7 is set. The device answers the i-th read
        with polls[i]; one of them must report ready, or the loop would
        never end. */
    method AwaitEepromReady(polls: seq<Frame>) returns (ready: Frame)
      requires SomeReady(polls)
      modifies this`trace
      ensures ready == polls[FirstReady(polls)]
      ensures trace == old(trace) + PollReads(addr, polls[..FirstReady(polls) + 1])
    {
      var i := 0;
      ready := polls[0];
      trace := trace + [Read(addr, ready.Bytes())];
      while !Ready(ready)
        invariant 0 <= i <= FirstReady(polls)
        invariant ready == polls[i]
        invariant trace == old(trace) + PollReads(addr, polls[..i + 1])
        decreases FirstReady(polls) - i
      {
        i := i + 1;
        ready := polls[i];
        trace := trace + [Read(addr, ready.Bytes())];
        PollReadsExtend(addr, polls, i);
      }
    }

    /** Read the power mode and code stored in EEPROM, once the device
        reports ready; both are decoded from that ready frame. */
    method ReadEeprom(polls: seq<Frame>) returns (mode: PowerMode, value: bv16)
      requires SomeReady(polls)
      modifies this`trace
      ensures Setting(mode, value) == DecodeEeprom(polls[FirstReady(polls)])
      ensures value <= MaxCode
      ensures trace == old(trace) + PollReads(addr, polls[..FirstReady(polls) + 1])
      ensures IsBusyWait(trace[|old(trace)|..], addr)
      ensures powerMode == old(powerMode) && dacValue == old(dacValue)
    {
      var ready := AwaitEepromReady(polls);
      var s := DecodeEeprom(ready);
      mode, value := s.mode, s.value;
      BusyWaitTrace(addr, polls);
      assert trace[|old(trace)|..] == PollReads(addr, polls[..FirstReady(polls) + 1]);
    }

    /** Store a power mode and code in EEPROM (and the DAC register) with a
        three-byte write, sent only after the device reports ready. The
        cached fields are not touched. */
    method WriteEeprom(polls: seq<Frame>, mode: PowerMode, value: bv16)
      requires SomeReady(polls)
      modifies this`trace
      ensures trace == old(trace) + PollReads(addr, polls[..FirstReady(polls) + 1])
                                  + [Write(addr, EepromWriteBytes(mode, value))]
      ensures IsBusyWait(trace[|old(trace)|..|trace| - 1], addr)
      ensures powerMode == old(powerMode) && dacValue == old(dacValue)
    {
      var _ := AwaitEepromReady(polls);
      ghost var polled := trace;
      trace := trace + [Write(addr, EepromWriteBytes(mode, value))];
      BusyWaitTrace(addr, polls);
      assert trace[|old(trace)|..|trace| - 1] == polled[|old(trace)|..];
    }
  }
}
