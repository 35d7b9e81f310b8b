/**
 * The TCA9535 driver object: a device handle and three shadow registers that
 * hold the last value written to the configuration (direction), polarity
 * inversion and output registers of the chip.
 *
 * Every register write stores the new value in its shadow register first and
 * only then transmits the frame, so the shadow holds the new value whatever the
 * transmit returns. The convenience helpers compute the new word from the shadow
 * register and a mask and re-issue the full write.
 */
module Tca9535 {
  import opened Registers
  import opened I2C

  /** Transaction timeout passed to every bus call. */
  const TIMEOUT_MS := 100

  /** Bus clock of the attached device. */
  const SCL_SPEED_HZ := 100000

  /** The log grew by exactly one 3-byte write of `v` to `register`, which returned `status`. */
  ghost predicate OneWrite(before: seq<Transaction>, after: seq<Transaction>, register: bv8, v: bv16, status: Status)
  {
    after == before + [Write(Frame(register, v), TIMEOUT_MS, status)]
  }

  /**
   * The log grew by exactly one read of the input port: the command byte 0x00
   * sent, two bytes received, with outcome `status`.
   */
  ghost predicate OneInputRead(before: seq<Transaction>, after: seq<Transaction>, status: Status)
  {
    |after| == |before| + 1 && after[..|before|] == before &&
    var t := after[|before|];
    t.WriteRead? && t.tx == [INPUT_PORT] && |t.rx| == 2 && t.timeoutMs == TIMEOUT_MS && t.status == status
  }

  /** The level carried by the last read of the input port: `rx[1] << 8 | rx[0]`. */
  ghost function LastInputLevel(log: seq<Transaction>): bv16
    requires |log| > 0 && log[|log| - 1].WriteRead? && |log[|log| - 1].rx| == 2
  {
    var rx := log[|log| - 1].rx;
    Join(rx[0], rx[1])
  }

  class Expander {
    const dev: Device
    var directionReg: bv16
    var polarityInvReg: bv16
    var outputReg: bv16

    /**
     * Attaches the device at `devAddr` (7-bit addressing, 100 kHz) and sets the
     * shadow registers to the chip's power-on values, without any transaction.
     */
    constructor (bus: Bus, devAddr: bv16)
      ensures fresh(dev) && dev.log == []
      ensures dev.address == devAddr && dev.addressBits == 7 && dev.sclSpeedHz == SCL_SPEED_HZ
      ensures outputReg == 0xFFFF && polarityInvReg == 0x0000 && directionReg == 0xFFFF
    {
      var handle := bus.AddDevice(devAddr, 7, SCL_SPEED_HZ);
      dev := handle;
      outputReg := OUTPUT_RESET;
      polarityInvReg := POLARITY_RESET;
      directionReg := DIRECTION_RESET;
    }

    // -------------------------------------------------------------------------
    // Register writes
    // -------------------------------------------------------------------------

    /** Writes the configuration register; a 1 bit makes its pin an input. */
    method SetDirection(direction: bv16) returns (err: Status)
      modifies this`directionReg, dev`log
      ensures directionReg == direction
      ensures polarityInvReg == old(polarityInvReg) && outputReg == old(outputReg)
      ensures OneWrite(old(dev.log), dev.log, CONFIGURATION, direction, err)
    {
      directionReg := direction;
      var buffer := new bv8[3];
      buffer[0] := CONFIGURATION;
      buffer[1] := LowByte(direction);
      buffer[2] := HighByte(direction);
      assert buffer[..3] == Frame(CONFIGURATION, direction);
      err := dev.Transmit(buffer, 3, TIMEOUT_MS);
    }

    /** Makes the pins of `mask` outputs: `direction & ~mask`. */
    method SetPinsAsOutput(mask: bv16) returns (err: Status)
      modifies this`directionReg, dev`log
      ensures directionReg == ClearBits(old(directionReg), mask)
      ensures polarityInvReg == old(polarityInvReg) && outputReg == old(outputReg)
      ensures OneWrite(old(dev.log), dev.log, CONFIGURATION, directionReg, err)
    {
      err := SetDirection(ClearBits(directionReg, mask));
    }

    /** Makes the pins of `mask` inputs: `direction | mask`. */
    method SetPinsAsInput(mask: bv16) returns (err: Status)
      modifies this`directionReg, dev`log
      ensures directionReg == SetBits(old(directionReg), mask)
      ensures polarityInvReg == old(polarityInvReg) && outputReg == old(outputReg)
      ensures OneWrite(old(dev.log), dev.log, CONFIGURATION, directionReg, err)
    {
      err := SetDirection(SetBits(directionReg, mask));
    }

    /** Writes the polarity inversion register; a 1 bit inverts its input pin. */
    method SetPolarityInversion(polarity: bv16) returns (err: Status)
      modifies this`polarityInvReg, dev`log
      ensures polarityInvReg == polarity
      ensures directionReg == old(directionReg) && outputReg == old(outputReg)
      ensures OneWrite(old(dev.log), dev.log, POLARITY_INVERSION, polarity, err)
    {
      polarityInvReg := polarity;
      var buffer := new bv8[3];
      buffer[0] := POLARITY_INVERSION;
      buffer[1] := LowByte(polarity);
      buffer[2] := HighByte(polarity);
      assert buffer[..3] == Frame(POLARITY_INVERSION, polarity);
      err := dev.Transmit(buffer, 3, TIMEOUT_MS);
    }

    /** Reads the pins of `mask` uninverted: `polarity & ~mask`. */
    method SetPinsPolarityNormal(mask: bv16) returns (err: Status)
      modifies this`polarityInvReg, dev`log
      ensures polarityInvReg == ClearBits(old(polarityInvReg), mask)
      ensures directionReg == old(directionReg) && outputReg == old(outputReg)
      ensures OneWrite(old(dev.log), dev.log, POLARITY_INVERSION, polarityInvReg, err)
    {
      err := SetPolarityInversion(ClearBits(polarityInvReg, mask));
    }

    /** Reads the pins of `mask` inverted: `polarity | mask`. */
    method SetPinsPolarityInverse(mask: bv16) returns (err: Status)
      modifies this`polarityInvReg, dev`log
      ensures polarityInvReg == SetBits(old(polarityInvReg), mask)
      ensures directionReg == old(directionReg) && outputReg == old(outputReg)
      ensures OneWrite(old(dev.log), dev.log, POLARITY_INVERSION, polarityInvReg, err)
    {
      err := SetPolarityInversion(SetBits(polarityInvReg, mask));
    }

    /** Writes the output register: the level driven on every output pin. */
    method SetOutputRegister(level: bv16) returns (err: Status)
      modifies this`outputReg, dev`log
      ensures outputReg == level
      ensures directionReg == old(directionReg) && polarityInvReg == old(polarityInvReg)
      ensures OneWrite(old(dev.log), dev.log, OUTPUT_PORT, level, err)
    {
      outputReg := level;
      var buffer := new bv8[3];
      buffer[0] := OUTPUT_PORT;
      buffer[1] := LowByte(level);
      buffer[2] := HighByte(level);
      assert buffer[..3] == Frame(OUTPUT_PORT, level);
      err := dev.Transmit(buffer, 3, TIMEOUT_MS);
    }

    /** Drives the pins of `mask` high: `output | mask`. */
    method SetOutputPins(mask: bv16) returns (err: Status)
      modifies this`outputReg, dev`log
      ensures outputReg == SetBits(old(outputReg), mask)
      ensures directionReg == old(directionReg) && polarityInvReg == old(polarityInvReg)
      ensures OneWrite(old(dev.log), dev.log, OUTPUT_PORT, outputReg, err)
    {
      err := SetOutputRegister(SetBits(outputReg, mask));
    }

    /** Drives the pins of `mask` low: `output & ~mask`. */
    method ClearOutputPins(mask: bv16) returns (err: Status)
      modifies this`outputReg, dev`log
      ensures outputReg == ClearBits(old(outputReg), mask)
      ensures directionReg == old(directionReg) && polarityInvReg == old(polarityInvReg)
      ensures OneWrite(old(dev.log), dev.log, OUTPUT_PORT, outputReg, err)
    {
      err := SetOutputRegister(ClearBits(outputReg, mask));
    }

    /** Drives one pin high: `output | (1 << pin)`; no other pin changes. */
    method SetOutputPinHigh(pin: int) returns (err: Status)
      requires 0 <= pin < 16
      modifies this`outputReg, dev`log
      ensures Bit(outputReg, pin as Pin)
      ensures forall p: Pin :: p != pin as Pin ==> Bit(outputReg, p) == Bit(old(outputReg), p)
      ensures outputReg == SetBits(old(outputReg), PinMask(pin as Pin))
      ensures directionReg == old(directionReg) && polarityInvReg == old(polarityInvReg)
      ensures OneWrite(old(dev.log), dev.log, OUTPUT_PORT, outputReg, err)
    {
      err := SetOutputRegister(SetBits(outputReg, PinMask(pin as Pin)));
    }

    /** Drives one pin low: `output & ~(1 << pin)`; no other pin changes. */
    method SetOutputPinLow(pin: int) returns (err: Status)
      requires 0 <= pin < 16
      modifies this`outputReg, dev`log
      ensures !Bit(outputReg, pin as Pin)
      ensures forall p: Pin :: p != pin as Pin ==> Bit(outputReg, p) == Bit(old(outputReg), p)
      ensures outputReg == ClearBits(old(outputReg), PinMask(pin as Pin))
      ensures directionReg == old(directionReg) && polarityInvReg == old(polarityInvReg)
      ensures OneWrite(old(dev.log), dev.log, OUTPUT_PORT, outputReg, err)
    {
      err := SetOutputRegister(ClearBits(outputReg, PinMask(pin as Pin)));
    }

    /** Drives one pin to `value`: `SetOutputPinHigh` when true, `SetOutputPinLow` otherwise. */
    method SetOutputPinValue(pin: int, value: bool) returns (err: Status)
      requires 0 <= pin < 16
      modifies this`outputReg, dev`log
      ensures Bit(outputReg, pin as Pin) == value
      ensures forall p: Pin :: p != pin as Pin ==> Bit(outputReg, p) == Bit(old(outputReg), p)
      ensures outputReg == if value then SetBits(old(outputReg), PinMask(pin as Pin))
                           else ClearBits(old(outputReg), PinMask(pin as Pin))
      ensures directionReg == old(directionReg) && polarityInvReg == old(polarityInvReg)
      ensures OneWrite(old(dev.log), dev.log, OUTPUT_PORT, outputReg, err)
    {
      if value {
        err := SetOutputPinHigh(pin);
      } else {
        err := SetOutputPinLow(pin);
      }
    }

    // -------------------------------------------------------------------------
    // Input reads
    // -------------------------------------------------------------------------

    /**
     * Reads the input port into `level[0]`, the cell behind the out-pointer.
     * On a transport failure the error is returned and `level[0]` is not written.
     * No shadow register changes.
     */
    method GetInputRegister(level: array<bv16>) returns (err: Status)
      requires level.Length == 1
      modifies dev`log, level
      ensures directionReg == old(directionReg) && polarityInvReg == old(polarityInvReg)
      ensures outputReg == old(outputReg)
      ensures OneInputRead(old(dev.log), dev.log, err)
      ensures err == Ok ==> level[0] == LastInputLevel(dev.log)
      ensures err != Ok ==> level[0] == old(level[0])
    {
      var txBuffer := new bv8[1];
      var rxBuffer := new bv8[2];
      txBuffer[0] := INPUT_PORT;
      assert txBuffer[..1] == [INPUT_PORT];
      err := dev.TransmitReceive(txBuffer, 1, rxBuffer, 2, TIMEOUT_MS);
      if err != Ok {
        return err;
      }
      level[0] := Join(rxBuffer[0], rxBuffer[1]);
      assert rxBuffer[..2] == [rxBuffer[0], rxBuffer[1]];
      err := Ok;
    }

    /** The input level, read fresh; a transport failure is returned as `err`. */
    method GetInputValue() returns (err: Status, level: bv16)
      modifies dev`log
      ensures directionReg == old(directionReg) && polarityInvReg == old(polarityInvReg)
      ensures outputReg == old(outputReg)
      ensures OneInputRead(old(dev.log), dev.log, err)
      ensures err == Ok ==> level == LastInputLevel(dev.log)
    {
      var cell := new bv16[1];
      err := GetInputRegister(cell);
      level := cell[0];
    }

    /** Whether the pin reads high, from a fresh read of the input port. */
    method PinValue(pin: int) returns (err: Status, high: bool)
      requires 0 <= pin < 16
      modifies dev`log
      ensures directionReg == old(directionReg) && polarityInvReg == old(polarityInvReg)
      ensures outputReg == old(outputReg)
      ensures OneInputRead(old(dev.log), dev.log, err)
      ensures err == Ok ==> high == Bit(LastInputLevel(dev.log), pin as Pin)
    {
      var level;
      err, level := GetInputValue();
      high := PinHigh(level, pin as Pin);
    }

    /** Whether the pin reads high, from a fresh read of the input port. */
    method IsPinHigh(pin: int) returns (err: Status, high: bool)
      requires 0 <= pin < 16
      modifies dev`log
      ensures directionReg == old(directionReg) && polarityInvReg == old(polarityInvReg)
      ensures outputReg == old(outputReg)
      ensures OneInputRead(old(dev.log), dev.log, err)
      ensures err == Ok ==> high == Bit(LastInputLevel(dev.log), pin as Pin)
    {
      var level;
      err, level := GetInputValue();
      high := PinHigh(level, pin as Pin);
    }

    /** Whether the pin reads low, from a fresh read of the input port. */
    method IsPinLow(pin: int) returns (err: Status, low: bool)
      requires 0 <= pin < 16
      modifies dev`log
      ensures directionReg == old(directionReg) && polarityInvReg == old(polarityInvReg)
      ensures outputReg == old(outputReg)
      ensures OneInputRead(old(dev.log), dev.log, err)
      ensures err == Ok ==> low == !Bit(LastInputLevel(dev.log), pin as Pin)
    {
      var level;
      err, level := GetInputValue();
      low := PinLow(level, pin as Pin);
    }
  }
}
