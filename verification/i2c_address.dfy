/**
 * The bus selection and the I2C slave address computed by construct_objects
 * (Firmware/MotorControl/main.cpp:149-171). On a v3 board with minor version 3 or more, with
 * enable_i2c_instead_of_can set, the board joins the I2C bus at an address
 * built from the fixed prefix 0xD and three address-select pins; otherwise it
 * brings up CAN. A pin reads as a bit 1 unless its level is GPIO_PIN_RESET.
 */
module I2cAddress {

  /** The bit a pin contributes before it is shifted into place. */
  function Bit(level: bool): bv8
  {
    if level then 1 else 0
  }

  /** The address the three pins select: 0x68 | A0 | (A1 << 1) | (A2 << 2). */
  function AddressOf(a0: bool, a1: bool, a2: bool): (addr: bv8)
    ensures 0x68 <= addr <= 0x6F
    ensures addr & 0xF8 == 0x68
    ensures addr & 0x07 == Bit(a0) | (Bit(a1) << 1) | (Bit(a2) << 2)
  {
    0x68 | Bit(a0) | (Bit(a1) << 1) | (Bit(a2) << 2)
  }

  /** The pin levels an address in 0x68..0x6F was built from. */
  function PinsOf(addr: bv8): (bool, bool, bool)
  {
    (addr & 0x01 != 0, addr & 0x02 != 0, addr & 0x04 != 0)
  }

  /**
   * The address computation of construct_objects: start from 0xD << 3, then
   * OR in 0x1, 0x2 and 0x4 for the A0, A1 and A2 pins that do not read as
   * reset.
   */
  method ReadAddress(a0: bool, a1: bool, a2: bool) returns (addr: bv8)
    ensures addr == AddressOf(a0, a1, a2)
    ensures PinsOf(addr) == (a0, a1, a2)
  {
    addr := 0xD << 3;
    addr := addr | if a0 then 0x1 else 0;
    addr := addr | if a1 then 0x2 else 0;
    addr := addr | if a2 then 0x4 else 0;
  }

  /** Reading the pins back from the address gives the levels it was built from. */
  lemma PinsOfAddress(a0: bool, a1: bool, a2: bool)
    ensures PinsOf(AddressOf(a0, a1, a2)) == (a0, a1, a2)
  {
  }

  /** Every address in 0x68..0x6F is selected by exactly the pins read back from it. */
  lemma AddressOfPins(addr: bv8)
    requires 0x68 <= addr <= 0x6F
    ensures AddressOf(PinsOf(addr).0, PinsOf(addr).1, PinsOf(addr).2) == addr
  {
    var pins := PinsOf(addr);
    assert Bit(pins.0) == addr & 0x01;
    assert Bit(pins.1) << 1 == addr & 0x02;
    assert Bit(pins.2) << 2 == addr & 0x04;
    assert addr == 0x68 | (addr & 0x01) | (addr & 0x02) | (addr & 0x04);
  }

  /** Boards whose address pins differ answer at different addresses. */
  lemma AddressInjective(a0: bool, a1: bool, a2: bool, b0: bool, b1: bool, b2: bool)
    requires AddressOf(a0, a1, a2) == AddressOf(b0, b1, b2)
    ensures a0 == b0 && a1 == b1 && a2 == b2
  {
    PinsOfAddress(a0, a1, a2);
    PinsOfAddress(b0, b1, b2);
  }

  /** The bus construct_objects brings up. */
  datatype Bus = I2c(address: bv8) | Can

  /**
   * The I2C alternative exists only on a v3 board with minor version 3
   * or more; there, the configuration flag chooses between I2C and CAN.
   */
  predicate I2cAvailable(hwMajor: nat, hwMinor: nat) {
    hwMajor == 3 && hwMinor >= 3
  }

  /**
   * The bus selection of construct_objects. The pin levels are the readings
   * taken after the pins were configured as pulled-up inputs.
   */
  method SelectBus(hwMajor: nat, hwMinor: nat, enableI2cInsteadOfCan: bool, a0: bool, a1: bool, a2: bool)
    returns (bus: Bus)
    ensures bus.I2c? <==> I2cAvailable(hwMajor, hwMinor) && enableI2cInsteadOfCan
    ensures bus.I2c? ==> bus.address == AddressOf(a0, a1, a2) && 0x68 <= bus.address <= 0x6F
  {
    if I2cAvailable(hwMajor, hwMinor) && enableI2cInsteadOfCan {
      var addr := ReadAddress(a0, a1, a2);
      bus := I2c(addr);
    } else {
      bus := Can;
    }
  }
}
