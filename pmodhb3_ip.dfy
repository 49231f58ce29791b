// The PMODHB3 motor-driver register interface (src/PMODHB3_IP.c): a driver
// that is either initialised or not, and the peripheral's register file.

module Pmodhb3 {
  import opened SystemH

  datatype Status = Success | Failure

  // Offsets of the peripheral's AXI slave registers: register 0 holds the
  // measured speed, register 1 takes the motor command word.
  const REG0_OFFSET: u32 := 0
  const REG1_OFFSET: u32 := 4

  // What a read returns while the driver is not initialised.
  const NOT_READY: u32 := 0xFFFF_FFFF

  /** The bus address of a register: base plus offset on the 32-bit bus. */
  function Address(base: u32, offset: u32): (a: u32)
    ensures base + offset < 0x1_0000_0000 ==> a == base + offset
  {
    (base + offset) % 0x1_0000_0000
  }

  /** The register file after writing data at address addr. */
  function Poke(regs: u32 -> u32, addr: u32, data: u32): (r: u32 -> u32)
    ensures r(addr) == data
    ensures forall a: u32 :: a != addr ==> r(a) == regs(a)
  {
    a => if a == addr then data else regs(a)
  }

  /** Two distinct offsets of one base address are two distinct registers. */
  lemma DistinctRegisters(base: u32)
    ensures Address(base, REG0_OFFSET) != Address(base, REG1_OFFSET)
  {
  }

  class Driver {
    // The driver's statics and the peripheral's registers.
    var baseAddress: u32
    var isInitialized: bool
    var regs: u32 -> u32

    /** Power-up: statics are zero; the registers hold whatever the
        peripheral holds. */
    constructor (hardware: u32 -> u32)
      ensures baseAddress == 0 && !isInitialized && regs == hardware
    {
      baseAddress := 0;
      isInitialized := false;
      regs := hardware;
    }

    /** The value a read of (base, offset) returns in the current state. */
    function Peek(base: u32, offset: u32): (v: u32)
      reads this
      ensures !isInitialized ==> v == NOT_READY
      ensures isInitialized ==> v == regs(Address(base, offset))
    {
      if isInitialized then regs(Address(base, offset)) else NOT_READY
    }

    /** PMODHB3_Initialize: a null base address fails and de-initialises the
        driver; a repeated initialisation succeeds and keeps the address
        stored first; a first one stores the address. */
    method Initialize(baseaddr: u32) returns (status: Status)
      modifies this`baseAddress, this`isInitialized
      ensures baseaddr == 0 ==>
        status == Failure && !isInitialized && baseAddress == old(baseAddress)
      ensures baseaddr != 0 && old(isInitialized) ==>
        status == Success && isInitialized && baseAddress == old(baseAddress)
      ensures baseaddr != 0 && !old(isInitialized) ==>
        status == Success && isInitialized && baseAddress == baseaddr
      ensures status == Success <==> isInitialized
    {
      if baseaddr == 0 {
        isInitialized := false;
        return Failure;
      }
      if isInitialized {
        return Success;
      } else {
        baseAddress := baseaddr;
        isInitialized := true;
      }
      return Success;
    }

    /** PMODHB3_GetRpm: the register at the given base and offset (the
        parameter, not the stored address), or the sentinel when not
        initialised. Changes nothing. */
    method GetRpm(base: u32, offset: u32) returns (r: u32)
      ensures r == Peek(base, offset)
      ensures !isInitialized ==> r == NOT_READY
      ensures isInitialized ==> r == regs(Address(base, offset))
    {
      if isInitialized {
        r := regs(Address(base, offset));
      } else {
        r := NOT_READY;
      }
    }

    /** PMODHB3_SetConfig: when initialised, writes data at (base, offset),
        which a later read of that register returns, and leaves every
        other register alone; otherwise fails and writes nothing. */
    method SetConfig(base: u32, offset: u32, data: u32) returns (status: Status)
      modifies this`regs
      ensures status == Success <==> isInitialized
      ensures isInitialized ==> regs == Poke(old(regs), Address(base, offset), data)
      ensures !isInitialized ==> regs == old(regs)
      ensures isInitialized ==> Peek(base, offset) == data
      ensures forall b: u32, o: u32 :: Address(b, o) != Address(base, offset) ==>
        Peek(b, o) == old(Peek(b, o))
    {
      if isInitialized {
        regs := Poke(regs, Address(base, offset), data);
        return Success;
      }
      return Failure;
    }
  }

  /** A client of the driver: after a successful initialisation a command
      written to register 1 is read back, and the speed register is
      untouched by it. */
  method WriteThenRead(d: Driver, base: u32, word: u32) returns (back: u32, rpm: u32)
    requires base != 0
    modifies d`baseAddress, d`isInitialized, d`regs
    ensures back == word
    ensures rpm == old(d.regs)(Address(base, REG0_OFFSET))
  {
    var st := d.Initialize(base);
    assert st == Success;
    st := d.SetConfig(base, REG1_OFFSET, word);
    back := d.GetRpm(base, REG1_OFFSET);
    DistinctRegisters(base);
    rpm := d.GetRpm(base, REG0_OFFSET);
  }
}
