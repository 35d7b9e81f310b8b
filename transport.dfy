/**
 * The I2C master transport the driver talks through. It is foreign code, so it
 * is modelled by its observable effect only: every transaction is appended to a
 * ghost log, its outcome is arbitrary (success or a bus failure), and the bytes
 * it receives are arbitrary.
 */
module I2C {

  /** Outcome of a bus transaction: `ESP_OK` or a transport failure (NACK, timeout, bus busy). */
  datatype Status = Ok | Failed

  /** One transaction as it appeared on the bus. */
  datatype Transaction =
    | Write(tx: seq<bv8>, timeoutMs: int, status: Status)
    | WriteRead(tx: seq<bv8>, rx: seq<bv8>, timeoutMs: int, status: Status)

  /** A device attached to a bus: its configuration and the transactions addressed to it. */
  class Device {
    const address: bv16
    const addressBits: nat
    const sclSpeedHz: nat
    ghost var log: seq<Transaction>

    constructor (address: bv16, addressBits: nat, sclSpeedHz: nat)
      ensures this.address == address && this.addressBits == addressBits
      ensures this.sclSpeedHz == sclSpeedHz
      ensures log == []
    {
      this.address := address;
      this.addressBits := addressBits;
      this.sclSpeedHz := sclSpeedHz;
      log := [];
    }

    /** `i2c_master_transmit`: send the first `len` bytes of `buffer`. */
    method Transmit(buffer: array<bv8>, len: nat, timeoutMs: int) returns (status: Status)
      requires len <= buffer.Length
      modifies this`log
      ensures log == old(log) + [Write(buffer[..len], timeoutMs, status)]
    {
      status :| true;
      log := log + [Write(buffer[..len], timeoutMs, status)];
    }

    /**
     * `i2c_master_transmit_receive`: send the first `txLen` bytes of `tx`, then
     * read `rxLen` bytes into `rx` in the same transaction. What lands in `rx`
     * is whatever the device answered, so the contract says nothing about it
     * beyond recording it.
     */
    method TransmitReceive(tx: array<bv8>, txLen: nat, rx: array<bv8>, rxLen: nat, timeoutMs: int)
      returns (status: Status)
      requires txLen <= tx.Length && rxLen <= rx.Length && tx != rx
      modifies this`log, rx
      ensures log == old(log) + [WriteRead(tx[..txLen], rx[..rxLen], timeoutMs, status)]
    {
      status :| true;
      log := log + [WriteRead(tx[..txLen], rx[..rxLen], timeoutMs, status)];
    }
  }

  /** A master bus; attaching a device yields its handle. */
  class Bus {
    constructor ()
    {
    }

    /** `i2c_master_bus_add_device`. */
    method AddDevice(address: bv16, addressBits: nat, sclSpeedHz: nat) returns (dev: Device)
      ensures fresh(dev) && dev.log == []
      ensures dev.address == address && dev.addressBits == addressBits && dev.sclSpeedHz == sclSpeedHz
    {
      dev := new Device(address, addressBits, sclSpeedHz);
    }
  }
}
