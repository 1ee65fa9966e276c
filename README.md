# PLIC front end and nRF52840 GPIO, modelled in Dafny

This project models two register-driven peripherals from the Renode emulator's peripheral layer and proves properties of both models.

**`Plic` (plic.dfy): the front end of a RISC-V Platform-Level Interrupt Controller.** It covers:
- the interrupt sources, each with a raw wire level and a latched pending bit;
- the targets and their output lines;
- the input wire edge (`OnGPIO`);
- the check of source numbers;
- the decoding of the per-target enables words into per-source enable calls;
- the claim/complete register;
- reset.

The handlers behind each target (arbitration, claims, priorities) are not part of this file. So the model records every call the front end makes into them, in order, in `calls`. The error and warning messages are kept in a ghost `diagnostics` log. Building the register map is modelled on map values. A `Result` stands for the exception that `Dictionary.Add` throws on a duplicate offset, and it carries the map as that exception leaves it. A register write that throws because its hart has no target returns `false`, and a claim read that throws returns `None`.

**`Nrf52840Gpio` (nrf52840_gpio.dfy): the 32-pin GPIO port of the nRF52840.** Each pin is a `Pin` object with these fields:
- direction;
- input-buffer override;
- pull mode;
- drive mode;
- sense mode.

The port holds three arrays: the raw state bits, the OUT flags (`physicalPinState`) and the output lines. Each register write is the sequence of field callbacks it triggers, applied in the order the fields are defined:
- OUT, OUTSET and OUTCLR;
- DIR, DIRSET and DIRCLR;
- PIN_CNF, with its fields DIR, INPUT, PULL, DRIVE and SENSE.

Reads of IN are gated by direction and resolved by drive mode (wired-or, wired-and). The global DETECT signal is modelled as a level `detectState` plus a counter of the times it was raised. PinChanged events are recorded in `pinChanged`.

`wrappers.dfy` holds `Option` and `Result`. `bit_helper.dfy` holds `GetBits`, which stands in for the framework's helper that splits a 32-bit word into 32 flags, lowest bit first.

## Model

| member | source | states |
|---|---|---|
| Plic.WrapInt32 | src/Emulator/Cores/RiscV/PLIC/PlatformLevelInterruptControllerBase.cs:26 | C#'s unchecked wrap into the `int` range: the result is in range, congruent to the input modulo 2^32, and equal to the input when the input is already in range. |
| Plic.ConnectionCountProduct | src/Emulator/Cores/RiscV/PLIC/PlatformLevelInterruptControllerBase.cs:26 | The loop bound is the product of the level count (1 without a list) and the target count, as an `int` product. It equals the plain product when that fits and wraps otherwise: 2 targets with 2^30 levels give the smallest `int`, so no output lines are created. |
| Plic.PlatformLevelInterruptControllerBase.constructor | src/Emulator/Cores/RiscV/PLIC/PlatformLevelInterruptControllerBase.cs:23-45 | Creates output lines 0 .. n − 1, all low, where n is the wrapped `int` product of (levels or 1) × targets. Sources i have id i, and each is fresh, low and not pending. Targets i have id i and the given levels. ForcedTarget starts at −1. |
| Plic.IrqSource.Reset | src/Emulator/Cores/RiscV/PLIC/PlatformLevelInterruptControllerBase.cs:57-60 | A reset source has its wire low and no pending bit. |
| Plic.PlatformLevelInterruptControllerBase.IsIrqSourceAvailable | src/Emulator/Cores/RiscV/PLIC/PlatformLevelInterruptControllerBase.cs:170-173 | An available number indexes the source with that id. An unavailable number is the id of no source. |
| Plic.PlatformLevelInterruptControllerBase.OnGPIO | src/Emulator/Cores/RiscV/PLIC/PlatformLevelInterruptControllerBase.cs:73-88 | An unavailable number is reported and changes no source and no handler. Otherwise source n takes the wire value, and its pending bit becomes old pending OR value. Every other source is unchanged, and every target is refreshed once. |
| Plic.LatchSurvivesDeassert | src/Emulator/Cores/RiscV/PLIC/PlatformLevelInterruptControllerBase.cs:84-85 | Asserting a wire and then deasserting it leaves the source pending with its wire low. |
| Plic.PlatformLevelInterruptControllerBase.RefreshInterrupts | src/Emulator/Cores/RiscV/PLIC/PlatformLevelInterruptControllerBase.cs:100-109 | Makes exactly one `RefreshAllInterrupts` call per target, in target order. |
| Plic.PlatformLevelInterruptControllerBase.Reset | src/Emulator/Cores/RiscV/PLIC/PlatformLevelInterruptControllerBase.cs:52-66 | Every source ends low and not pending. The calls are every target reset once, then every target refreshed once. ForcedTarget is kept. |
| Plic.AddTargetClaimCompleteRegister | src/Emulator/Cores/RiscV/PLIC/PlatformLevelInterruptControllerBase.cs:111-113 | Fails exactly when the offset is already registered. The failure names the offset and leaves the map unchanged. Otherwise it adds exactly that offset, mapped to the claim/complete register of (hart, level), and keeps every earlier entry. |
| Plic.PlatformLevelInterruptControllerBase.ReadClaimComplete | src/Emulator/Cores/RiscV/PLIC/PlatformLevelInterruptControllerBase.cs:113-119 | For a hart with a target, it makes exactly one `AcknowledgePendingInterrupt` call on (hart, level) and returns the handler's answer. For a hart without a target it throws (`None`) and makes no call. |
| Plic.PlatformLevelInterruptControllerBase.WriteClaimComplete | src/Emulator/Cores/RiscV/PLIC/PlatformLevelInterruptControllerBase.cs:120-131 | A value that is not a source id, including one that `(int)` turns negative, is reported, reaches no handler and completes normally, for any hart. A source id makes exactly one `CompleteHandlingInterrupt` call for that source. If the hart has no target, it throws instead, with no call and no report. |
| Plic.ToInt32 | src/Emulator/Cores/RiscV/PLIC/PlatformLevelInterruptControllerBase.cs:122 | C#'s unchecked `(int)` of a `uint`: the result is in the `int` range and is congruent to the input modulo 2^32. |
| Plic.EnablesRegisterCount | src/Emulator/Cores/RiscV/PLIC/PlatformLevelInterruptControllerBase.cs:136 | The number of words is the least count with count × 32 ≥ numberOfSources + 1. It is 0 when that sum is not positive, and 0 when the sum wraps at the largest `int`. |
| Plic.EnablesBlock | src/Emulator/Cores/RiscV/PLIC/PlatformLevelInterruptControllerBase.cs:138-141 | Word w of the block sits at address + 4w and carries offset 4w. Every key is one of those word addresses. |
| Plic.EnablesBlockCoversSource | src/Emulator/Cores/RiscV/PLIC/PlatformLevelInterruptControllerBase.cs:136-152 | Every source s has its register, word s / 32, in the block, and that word's bit s % 32 decodes back to s. |
| Plic.EnablesOffsetsBounded | src/Emulator/Cores/RiscV/PLIC/PlatformLevelInterruptControllerBase.cs:136-148 | Every register of an enables block has an offset below 2^28, so `lOffset * 8` never wraps as a `uint`, and every source number `lOffset * 8 + bit` it names, bit 31 included, is at most the largest `int`. |
| Plic.AddTargetEnablesRegister | src/Emulator/Cores/RiscV/PLIC/PlatformLevelInterruptControllerBase.cs:134-168 | Succeeds exactly when none of the block's word addresses is already registered, and then adds exactly the block. Otherwise it fails at the first word address that is taken, and the failure carries the map with the words before that address already added. |
| Plic.PlatformLevelInterruptControllerBase.WriteTargetEnables | src/Emulator/Cores/RiscV/PLIC/PlatformLevelInterruptControllerBase.cs:141-166 | The write completes exactly when the hart has a target or the word holds no available source. A completed write makes the `EnableSource` calls for the word and then one refresh per target, and the log gains that word's warnings. A write that throws (the word's first source is available but the hart has no target) changes neither calls nor log. |
| Plic.EnableCallsShape | src/Emulator/Cores/RiscV/PLIC/PlatformLevelInterruptControllerBase.cs:150-163 | Every call of an enables write goes to the written (hart, level). It names an available source of the word, with that source's bit, and sources are named in strictly increasing order. |
| Plic.EnableCallsMembership | src/Emulator/Cores/RiscV/PLIC/PlatformLevelInterruptControllerBase.cs:150-163 | `EnableSource(s, b)` is among the calls if and only if s is in the word, s is available and b is s's bit. |
| Plic.EnableCallsExactlyOnce | src/Emulator/Cores/RiscV/PLIC/PlatformLevelInterruptControllerBase.cs:150-163 | Each available source of the word receives exactly one call, carrying its bit. |
| Plic.EnableWarningsMembership | src/Emulator/Cores/RiscV/PLIC/PlatformLevelInterruptControllerBase.cs:153-159 | A warning names s if and only if s is in the word, s is unavailable and s was written as 1. |
| Nrf52840Gpio.GpioPort.constructor | src/Emulator/Peripherals/Peripherals/GPIOPort/NRF52840_GPIO.cs:18-29 | Creates 32 fresh pins with ids 0..31, each an input with every mode at 0, and three distinct arrays of 32 low bits. |
| Nrf52840Gpio.Pin.Reset | src/Emulator/Peripherals/Peripherals/GPIOPort/NRF52840_GPIO.cs:218-223 | The pin becomes an input without input override. |
| Nrf52840Gpio.Pin.IsSensing | src/Emulator/Peripherals/Peripherals/GPIOPort/NRF52840_GPIO.cs:292-303 | A pin senses if and only if its sense mode names a level and its Value equals that level. |
| Nrf52840Gpio.DisconnectedPinReadsZero | src/Emulator/Peripherals/Peripherals/GPIOPort/NRF52840_GPIO.cs:229-233 | A pin that is an output without input override reads 0 whatever its state bit and modes. |
| Nrf52840Gpio.WiredAndNeedsPullUp | src/Emulator/Peripherals/Peripherals/GPIOPort/NRF52840_GPIO.cs:241-244 | An open-drain pin without a pull-up never reads 1. |
| Nrf52840Gpio.PushPullReadsRaw | src/Emulator/Peripherals/Peripherals/GPIOPort/NRF52840_GPIO.cs:235-247 | A readable pin in a push-pull drive mode reads exactly its state bit. |
| Nrf52840Gpio.WiredOrReadsPullUp | src/Emulator/Peripherals/Peripherals/GPIOPort/NRF52840_GPIO.cs:237-240 | A readable open-source pin reads 1 through a pull-up whatever its state bit, and reads the bit without one. |
| Nrf52840Gpio.WiredAndPulledUpReadsRaw | src/Emulator/Peripherals/Peripherals/GPIOPort/NRF52840_GPIO.cs:241-244 | A readable open-drain pin with a pull-up reads exactly its state bit. |
| Nrf52840Gpio.PulledPinReadsPull | src/Emulator/Peripherals/Peripherals/GPIOPort/NRF52840_GPIO.cs:235-247 | A readable pin whose state bit is what its pull forces reads the pull's level in every drive mode. |
| Nrf52840Gpio.SenseOffNeverSenses | src/Emulator/Peripherals/Peripherals/GPIOPort/NRF52840_GPIO.cs:296-299 | A Disabled or unnamed sense mode never senses. |
| Nrf52840Gpio.GpioPort.UpdateDetect | src/Emulator/Peripherals/Peripherals/GPIOPort/NRF52840_GPIO.cs:192-203 | Detect becomes "some pin senses". It is raised exactly once, on a low-to-high change, and otherwise not at all. |
| Nrf52840Gpio.GpioPort.SetValue | src/Emulator/Peripherals/Peripherals/GPIOPort/NRF52840_GPIO.cs:249-265 | A pin that is not an output changes nothing. An output pin sets its state bit and output line to the value, logs one PinChanged and re-evaluates Detect. |
| Nrf52840Gpio.GpioPort.SetRawValue | src/Emulator/Peripherals/Peripherals/GPIOPort/NRF52840_GPIO.cs:276-279 | Only that pin's state bit changes, whatever its direction. |
| Nrf52840Gpio.GpioPort.ApplyDrive | src/Emulator/Peripherals/Peripherals/GPIOPort/NRF52840_GPIO.cs:74-103 | Each driven pin's OUT flag takes its value, and output pins also take it on their state bit and line. Undriven pins keep everything. PinChanged events are logged once per output pin driven, in pin order. Detect follows the last re-evaluation, with no more raises than pins driven. |
| Nrf52840Gpio.GpioPort.DrivePin | src/Emulator/Peripherals/Peripherals/GPIOPort/NRF52840_GPIO.cs:82-89 | The pin's OUT flag takes the value. A pin that is not an output changes nothing else, and Detect is untouched. An output pin takes the value on its state bit and line and logs one PinChanged. Detect is then re-evaluated, and raised exactly when it goes from low to high. |
| Nrf52840Gpio.GpioPort.DriveStep | src/Emulator/Peripherals/Peripherals/GPIOPort/NRF52840_GPIO.cs:82-89 | Driving pin k, or skipping it, extends the drive pattern's effect from pins 0 .. k-1 to pins 0 .. k. The OUT flags, state bits, lines and events then match the pattern, and Detect keeps its bounds. |
| Nrf52840Gpio.GpioPort.WriteOut | src/Emulator/Peripherals/Peripherals/GPIOPort/NRF52840_GPIO.cs:74-77 | The OUT flags, which OUT, OUTSET and OUTCLR read back (lines 75, 81, 94), become the written bits, and every output pin is driven to its bit. |
| Nrf52840Gpio.GpioPort.WriteOutSet | src/Emulator/Peripherals/Peripherals/GPIOPort/NRF52840_GPIO.cs:79-90 | Bits written as 1 set the OUT flag and drive output pins high. Bits written as 0 change nothing. |
| Nrf52840Gpio.GpioPort.WriteOutClear | src/Emulator/Peripherals/Peripherals/GPIOPort/NRF52840_GPIO.cs:92-103 | Bits written as 1 clear the OUT flag and drive output pins low. Bits written as 0 change nothing. |
| Nrf52840Gpio.GpioPort.ApplyDirections | src/Emulator/Peripherals/Peripherals/GPIOPort/NRF52840_GPIO.cs:110-126 | Only the selected pins change direction. No other pin field changes. |
| Nrf52840Gpio.GpioPort.WriteDirection | src/Emulator/Peripherals/Peripherals/GPIOPort/NRF52840_GPIO.cs:110-114 | Reading DIR back (value provider at line 112) gives the written bits. No pin is driven. |
| Nrf52840Gpio.GpioPort.WriteDirectionSet | src/Emulator/Peripherals/Peripherals/GPIOPort/NRF52840_GPIO.cs:116-120 | Pins whose bit is 1 become outputs. The others keep their direction. |
| Nrf52840Gpio.GpioPort.WriteDirectionClear | src/Emulator/Peripherals/Peripherals/GPIOPort/NRF52840_GPIO.cs:122-126 | Pins whose bit is 1 become inputs. The others keep their direction. |
| Nrf52840Gpio.GpioPort.ReadIn | src/Emulator/Peripherals/Peripherals/GPIOPort/NRF52840_GPIO.cs:105-108 | IN reads each pin's Value, so a pin that is not readable reads 0. |
| Nrf52840Gpio.DecodeEncodePinConfig | src/Emulator/Peripherals/Peripherals/GPIOPort/NRF52840_GPIO.cs:140-187 | Decoding an encoded PIN_CNF gives it back: the fields are at bits 0, 1, 2-3, 8-10 and 16-17. |
| Nrf52840Gpio.EncodeDecodePinConfig | src/Emulator/Peripherals/Peripherals/GPIOPort/NRF52840_GPIO.cs:140-187 | Encoding a decoded word gives back exactly its field bits. Reserved bits are dropped. |
| Nrf52840Gpio.GpioPort.WritePinDir | src/Emulator/Peripherals/Peripherals/GPIOPort/NRF52840_GPIO.cs:140-150 | Only a change of direction has an effect. A change to output drives the pin with its OUT flag: state bit, line and one PinChanged. Detect is then re-evaluated and raised exactly on a low-to-high change. A change to input drives nothing and leaves Detect alone. |
| Nrf52840Gpio.GpioPort.WritePinFields | src/Emulator/Peripherals/Peripherals/GPIOPort/NRF52840_GPIO.cs:151-186 | INPUT sets the override to the inverted bit, PULL and DRIVE set their modes (a pull-up or pull-down also forces the state bit), and SENSE sets the sense mode. Only a changed sense mode re-evaluates Detect, raising it exactly on a low-to-high change. Whether other pins sense is unchanged. |
| Nrf52840Gpio.GpioPort.WritePinPull | src/Emulator/Peripherals/Peripherals/GPIOPort/NRF52840_GPIO.cs:154-170 | PullUp forces the state bit to 1 and PullDown forces it to 0, in any direction. Other codes leave it unchanged. |
| Nrf52840Gpio.GpioPort.WritePinSense | src/Emulator/Peripherals/Peripherals/GPIOPort/NRF52840_GPIO.cs:177-186 | Only a change of sense mode re-evaluates Detect. |
| Nrf52840Gpio.GpioPort.WritePinConfig | src/Emulator/Peripherals/Peripherals/GPIOPort/NRF52840_GPIO.cs:137-189 | Reading PIN_CNF back (value providers at lines 150-186) gives the written fields. The state bit ends as the pull forces it, or else as a switch to output drove it. Whether other pins sense is unchanged. `DetectAfterDir` is Detect after the DIR step: re-evaluated on a switch to output, otherwise unchanged. Detect ends at that value when the sense mode is unchanged, and as "some pin senses" when it changed. The raise count is exact: one for a low-to-high change at the DIR step, plus one for a low-to-high change at the SENSE step. |
| Nrf52840Gpio.StaleDetectAfterPinConfig | src/Emulator/Peripherals/Peripherals/GPIOPort/NRF52840_GPIO.cs:140-186 | Exhibits a PIN_CNF write after which Detect is high while no pin senses: the DIR step raises it, and the INPUT step then makes the pin unreadable without re-evaluating Detect. |
| Nrf52840Gpio.PullUpReadsHigh | src/Emulator/Peripherals/Peripherals/GPIOPort/NRF52840_GPIO.cs:154-170 | After selecting a pull-up on a readable pin, IN reads 1 for it in every drive mode. |
| Nrf52840Gpio.PullDownReadsLow | src/Emulator/Peripherals/Peripherals/GPIOPort/NRF52840_GPIO.cs:154-170 | After selecting a pull-down, IN reads 0 for the pin. |
| Nrf52840Gpio.GpioPort.Reset | src/Emulator/Peripherals/Peripherals/GPIOPort/NRF52840_GPIO.cs:31-43 | Every pin becomes an input without override, with its line low and its OUT flag 0. Pull, drive and sense modes are kept. Detect is lowered without being raised. |

## Left out

- Locks (`lock(irqSources)`): each operation is one atomic step.
- The handlers behind each PLIC target: arbitration, claim selection, priorities, thresholds and re-latching. Their calls are recorded, not interpreted, and a claim read returns the handler's answer as a parameter. Indexing a target's handler table with an unsupported level (`Handlers[(int)level]`) is not checked, because that table belongs to the target.
- `ForcedTarget` routing: `ForcedTarget` is the controller's own property (line 98), but the routing that reads it is in the targets. Only its initial value and its survival of `Reset` are modelled.
- Plic.IrqSource.Reset: `IrqSource` is not part of this model. Two effects are assumed: its constructor leaves a source low and not pending, and its `Reset` clears both flags. Any other state it resets, such as a priority, is not modelled.
- Plic.PlatformLevelInterruptControllerBase.IsIrqSourceAvailable: the method is `protected virtual` (line 170). Every check in the model uses the base definition (line 172), and overrides in derived controllers are not modelled.
- Plic.PlatformLevelInterruptControllerBase.constructor: the source and target counts are `nat`, so the exception the source throws when it allocates arrays with a negative count (lines 32 and 38) is not modelled. The wrap of the connection count (line 26) is modelled.
- `prioritiesEnabled` is accepted by the PLIC constructor but is not used in the modelled file.
- `registers.Reset()` in the PLIC `Reset`: it belongs to the register framework.
- The register framework is modelled only through its visible effects: a write runs every field's write callback in the order the fields are defined, and a read returns each field's value provider. The register collection (`DoubleWordRegisterCollection`), the bus interface, `Machine` and the chip register maps are not modelled. Building `registersMap` is modelled.
- The LATCH and DETECTMODE registers: they are only tagged in the source.
- `BaseGPIOPort`, including its `Reset` and its `OnGPIO`/`CheckPinNumber`, is not part of this model. So the GPIO `Reset` does not touch the state bits, and the port's input edge `OnGPIO` is not modelled.
- Connections are modelled as bits: delivering an `IGPIO` level and delivering the PinChanged and Detect events are not. Events are recorded or counted.
- Logging: the PLIC's error and warning messages are kept as ghost diagnostics. Its Noisy messages (lines 54 and 82) and all GPIO messages are dropped.
- Plic.AddTargetEnablesRegister: the register address `address + offset` is a C# `long` sum that wraps at 2^63, and the model adds unbounded integers, so a block that would run past the `long` range is not modelled.
- Plic.PlatformLevelInterruptControllerBase.WriteTargetEnables: requires the offset bound that every registered enables word meets (see `EnablesOffsetsBounded`). So the `uint` wrap of `lOffset * 8` never arises.
- Nrf52840Gpio.GpioPort.ApplyDrive: bounds the number of Detect raises by the number of pins driven, rather than stating it edge by edge.
- Nrf52840Gpio.GpioPort.DriveStep: carries the bound of `ApplyDrive` through `DriveProgress`: Detect raises are bounded by the number of pins driven so far, not given edge by edge.
- Nrf52840Gpio.GpioPort.WriteOut: inherits the bounded Detect statement of `ApplyDrive`.
- Nrf52840Gpio.GpioPort.WriteOutSet: inherits the bounded Detect statement of `ApplyDrive`.
- Nrf52840Gpio.GpioPort.WriteOutClear: inherits the bounded Detect statement of `ApplyDrive`.
- Subscribers of PinChanged: the Value setter invokes the event directly (`NRF52840_GPIO.cs:263`), whereas line 60 uses `?.`. With no subscriber, line 263 throws a NullReferenceException. `UpdateDetect` (line 264) then does not run, and neither do the remaining field callbacks of that register write. The model records the event and runs all of them, as if a subscriber were always present.
- For an empty non-null level list the PLIC constructor creates no output lines: line 26 multiplies the list length by the number of targets. The model does the same.
