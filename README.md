# TCA9535 driver model

This project models the `TCA9535` driver class of `idf-tca9535`. The class drives a
16-pin I2C GPIO expander. It keeps three 16-bit shadow registers: direction
(configuration), polarity inversion and output level. Each register write stores
the new value in its shadow register and then sends a 3-byte frame
`[register address, low byte, high byte]` to the chip. The convenience helpers
combine the shadow register with a mask or with `1 << pin` and re-issue the full
write. The input read sends the command byte `0x00`, receives two bytes and joins
them little-endian as `rx[1] << 8 | rx[0]`.

Files:

- `registers.dfy`, module `Registers`: the register words as `bv16` and the wire
  bytes as `bv8`. It holds the register addresses (input `0x00`, output `0x02`,
  polarity inversion `0x04`, configuration `0x06`) and the power-on values. It also
  holds the mask operations (`v | m`, `v & ~m`, `1 << pin`), the pin tests, and the
  byte split and join. `Bit(v, p)` is the reference reading of a word, pin by pin.
  Every mask operation is characterised against it in both directions.
  `BitsDetermineWord` proves that the sixteen pin bits determine the word.
- `transport.dfy`, module `I2C`: the ESP-IDF I2C master calls as an abstract
  transport. Each transaction is appended to a ghost log together with its outcome.
  The outcome is arbitrary (`Ok` or `Failed`), and so are the received bytes.
- `tca9535.dfy`, module `Tca9535`: the class `Expander` with its device handle and
  its three shadow registers. Its methods follow the statement order of the C++
  methods.

Pins are numbered 0 to 15. The pure layer uses the type `Pin = bv4`. The driver
methods take the source's `int pin` and require `0 <= pin < 16`.

In C++, `~mask` and `1 << pin` promote to `int`, and the result is truncated back
to `uint16_t` when it is passed to the register write. For pins 0 to 15 this gives
the same 16-bit word as the `bv16` operations used here.

The model follows the code as written:

- Each `Set*` register write assigns the shadow register before it transmits. The
  shadow therefore holds the new value even when the transmit fails. It is not
  left unchanged on failure.
- The mask and pin helpers wrap the write in `ESP_ERROR_CHECK`, which aborts on
  failure. The model returns the transport status from the helper instead.
- The output shadow register starts at `0xFFFF`.
- Writes and the read use the same byte order: low byte first.

## Model

| member | source | states |
|---|---|---|
| `Registers.PinMask` | tca9535/src/tca9535.cpp:89-95 | `1 << pin` has pin `pin` set and every other pin clear |
| `Registers.SetBits` | tca9535/src/tca9535.cpp:81-83 | `v OR m` sets every pin of `m`; every other pin keeps its value in `v` |
| `Registers.ClearBits` | tca9535/src/tca9535.cpp:85-87 | `v & ~m` clears every pin of `m`; every other pin keeps its value in `v` |
| `Registers.SetBitsIsPinwiseUpdate` | tca9535/src/tca9535.cpp:49-51 | a word equals `v OR m` if and only if each of its pins is the OR of the pins of `v` and `m`: the word operation and the pin-by-pin description agree both ways |
| `Registers.ClearBitsIsPinwiseUpdate` | tca9535/src/tca9535.cpp:46-48 | a word equals `v & ~m` if and only if each of its pins is the pin of `v` with the pins of `m` cleared, both ways |
| `Registers.SetBitsIdempotent` | tca9535/src/tca9535.cpp:67-69 | applying the same OR mask twice gives the same word as applying it once |
| `Registers.ClearBitsIdempotent` | tca9535/src/tca9535.cpp:63-65 | applying the same AND-NOT mask twice gives the same word as applying it once |
| `Registers.SetPinChangesOnlyThatPin` | tca9535/src/tca9535.cpp:89-91 | `v OR (1 << pin)` is exactly the word in which pin `pin` is 1 and every other pin equals that of `v`, both ways |
| `Registers.ClearPinChangesOnlyThatPin` | tca9535/src/tca9535.cpp:93-95 | `v & ~(1 << pin)` is exactly the word in which pin `pin` is 0 and every other pin equals that of `v`, both ways |
| `Registers.PinHigh` | tca9535/src/tca9535.cpp:126-134 | `(level & (1 << pin)) != 0` holds exactly when pin `pin` of the level is 1 |
| `Registers.PinLow` | tca9535/src/tca9535.cpp:136-139 | `(level & (1 << pin)) == 0` holds exactly when pin `pin` of the level is 0, the negation of the high test |
| `Registers.Join` | tca9535/src/tca9535.cpp:115 | the word joined from `lo` and `hi` splits back into `lo` as its low byte and `hi` as its high byte |
| `Registers.SplitJoin` | tca9535/src/tca9535.cpp:39-43 | splitting a word into `v & 0xFF` and `(v >> 8) & 0xFF` and joining them gives the word back |
| `Registers.Frame` | tca9535/src/tca9535.cpp:74-78 | a write frame has 3 bytes: the register address, then two bytes that join back to the written value |
| `I2C.Device.Transmit` | tca9535/src/tca9535.cpp:43 | a transmit appends one write of the given bytes to the bus log, with the timeout and the outcome it returns |
| `I2C.Device.TransmitReceive` | tca9535/src/tca9535.cpp:110-111 | a write-then-read appends one transaction with the sent and received bytes, the timeout and the outcome it returns |
| `I2C.Bus.AddDevice` | tca9535/src/tca9535.cpp:26-30 | attaching a device yields a fresh handle with the given address, address width and bus clock, and no transactions yet |
| `Tca9535.Expander.constructor` | tca9535/src/tca9535.cpp:25-34 | attaches a 7-bit, 100 kHz device at `dev_addr`; output is `0xFFFF`, polarity `0x0000` and direction `0xFFFF`; no transaction is issued |
| `Tca9535.Expander.SetDirection` | tca9535/src/tca9535.cpp:36-44 | direction becomes the argument whatever the outcome; the other shadows are unchanged; exactly one frame `[0x06, lo, hi]` is sent and its outcome is returned |
| `Tca9535.Expander.SetPinsAsOutput` | tca9535/src/tca9535.cpp:46-48 | direction becomes `old & ~mask`, which is then written as one configuration frame; the other shadows are unchanged |
| `Tca9535.Expander.SetPinsAsInput` | tca9535/src/tca9535.cpp:49-51 | direction becomes `old OR mask`, which is then written as one configuration frame; the other shadows are unchanged |
| `Tca9535.Expander.SetPolarityInversion` | tca9535/src/tca9535.cpp:53-61 | polarity becomes the argument whatever the outcome; the other shadows are unchanged; exactly one frame `[0x04, lo, hi]` is sent and its outcome is returned |
| `Tca9535.Expander.SetPinsPolarityNormal` | tca9535/src/tca9535.cpp:63-65 | polarity becomes `old & ~mask`, which is then written as one polarity frame; the other shadows are unchanged |
| `Tca9535.Expander.SetPinsPolarityInverse` | tca9535/src/tca9535.cpp:67-69 | polarity becomes `old OR mask`, which is then written as one polarity frame; the other shadows are unchanged |
| `Tca9535.Expander.SetOutputRegister` | tca9535/src/tca9535.cpp:71-79 | output becomes the argument whatever the outcome; the other shadows are unchanged; exactly one frame `[0x02, lo, hi]` is sent and its outcome is returned |
| `Tca9535.Expander.SetOutputPins` | tca9535/src/tca9535.cpp:81-83 | output becomes `old OR mask`, which is then written as one output frame; the other shadows are unchanged |
| `Tca9535.Expander.ClearOutputPins` | tca9535/src/tca9535.cpp:85-87 | output becomes `old & ~mask`, which is then written as one output frame; the other shadows are unchanged |
| `Tca9535.Expander.SetOutputPinHigh` | tca9535/src/tca9535.cpp:89-91 | output pin `pin` becomes 1 and no other output pin changes; the new word is written as one output frame |
| `Tca9535.Expander.SetOutputPinLow` | tca9535/src/tca9535.cpp:93-95 | output pin `pin` becomes 0 and no other output pin changes; the new word is written as one output frame |
| `Tca9535.Expander.SetOutputPinValue` | tca9535/src/tca9535.cpp:97-103 | the same state and frame as `SetOutputPinHigh` when `value` is true and as `SetOutputPinLow` otherwise; output pin `pin` ends equal to `value` |
| `Tca9535.Expander.GetInputRegister` | tca9535/src/tca9535.cpp:105-118 | exactly one transaction is issued: command `0x00` sent, 2 bytes received; on success `*level` is `rx[1] << 8 OR rx[0]`; on failure `*level` is untouched; no shadow register changes |
| `Tca9535.Expander.GetInputValue` | tca9535/src/tca9535.cpp:120-124 | one fresh input read; on success the level received is returned; no shadow register changes |
| `Tca9535.Expander.PinValue` | tca9535/src/tca9535.cpp:126-129 | one fresh input read; on success the result is whether pin `pin` of the level received is 1 |
| `Tca9535.Expander.IsPinHigh` | tca9535/src/tca9535.cpp:131-134 | one fresh input read; on success the result is whether pin `pin` of the level received is 1 |
| `Tca9535.Expander.IsPinLow` | tca9535/src/tca9535.cpp:136-139 | one fresh input read; on success the result is whether pin `pin` of the level received is 0 |

## Left out

- The I2C transport is ESP-IDF code (`i2c_master_bus_add_device`, `i2c_master_transmit`, `i2c_master_transmit_receive`). Its outcome and its received bytes are left arbitrary. The timeout is only recorded in the log and is not enforced.
- `I2C.Bus.AddDevice` always yields a handle. In the source, an attachment failure aborts the program through `ESP_ERROR_CHECK` in the constructor. That failure path is not modelled.
- `ESP_ERROR_CHECK` in the mask and pin helpers and in `GetInputValue` aborts the program on a transport failure. The model returns the status to the caller instead.
- Tca9535.Expander.GetInputValue: on a failed read the returned level is unspecified. The source aborts before that value could be used.
- Tca9535.Expander.PinValue: on a failed read the returned bool is unspecified, for the same reason. This also holds for `IsPinHigh` and `IsPinLow`.
- `ESP_LOGD` logging and the log tag are left out.
- Pin numbers outside 0 to 15 are excluded by a precondition. In C, `1 << pin` is undefined there, or its value is lost when truncated to 16 bits.
- The header `tca9535/include/tca9535.hpp` declares a different API: `SetLevel`, `GetLevel`, `SetBit`, `ClearBit`, `GetValue` and a single field `value_`. The `.cpp` does not define that API, so it is not part of this model.
- The demo program `tca9535/examples/get_started/main/main.cpp` is not part of this model. It is bus set-up, a polling loop and task delays.
