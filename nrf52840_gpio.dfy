/**
 * The GPIO port of the nRF52840: 32 pins, each with a direction, an input
 * buffer override, a pull resistor, a drive mode and a sense mode, over the
 * port's array of raw pin states.
 *
 * Register writes are modelled by the callbacks they trigger, one flag or one
 * field at a time in the order the fields are defined. The output lines of the
 * port and the PinChanged and Detect events are recorded, not delivered.
 */
module Nrf52840Gpio {
  import opened Wrappers
  import opened BitHelper

  const NumberOfPins := 32

  datatype PinDirection = Input | Output

  /** The PULL field; its code 2 has no name in the source and acts like no pull. */
  datatype PullMode = NoPull | PullDown | PullCode2 | PullUp

  datatype DriveMode =
    | Standard | HighDriveZero | HighDriveOne | HighDrive
    | OpenZeroStandardOne | OpenZeroHighDriveOne | StandardZeroOpenOne | HighDriveZeroOpenOne

  /** The SENSE field; its code 1 has no name in the source and never senses. */
  datatype SenseMode = NoSense | SenseCode1 | High | Low

  /** A PinChanged event: which pin was driven, and to what. */
  datatype PinEvent = PinEvent(id: nat, value: bool)

  /** The drive modes that cannot drive a 0 (open-source, wired-or). */
  predicate IsWiredOr(d: DriveMode)
  {
    d == OpenZeroStandardOne || d == OpenZeroHighDriveOne
  }

  /** The drive modes that cannot drive a 1 (open-drain, wired-and). */
  predicate IsWiredAnd(d: DriveMode)
  {
    d == StandardZeroOpenOne || d == HighDriveZeroOpenOne
  }

  /** The level a readable pin shows for its state bit `raw`, as its drive mode and pull resolve it. */
  function ResolveDrive(driveMode: DriveMode, pullMode: PullMode, raw: bool): (level: bool)
  {
    match driveMode
    case OpenZeroStandardOne | OpenZeroHighDriveOne => raw || pullMode == PullUp
    case StandardZeroOpenOne | HighDriveZeroOpenOne => raw && pullMode == PullUp
    case _ => raw
  }

  /** The level a sense mode reacts to, if any. */
  function SenseLevel(m: SenseMode): (level: Option<bool>)
  {
    match m
    case High => Some(true)
    case Low => Some(false)
    case _ => None
  }

  function PullModeOf(code: bv32): (m: PullMode)
    requires code < 4
  {
    if code == 0 then NoPull else if code == 1 then PullDown else if code == 2 then PullCode2 else PullUp
  }

  function PullCode(m: PullMode): (code: bv32)
  {
    match m
    case NoPull => 0
    case PullDown => 1
    case PullCode2 => 2
    case PullUp => 3
  }

  function DriveModeOf(code: bv32): (m: DriveMode)
    requires code < 8
  {
    if code == 0 then Standard
    else if code == 1 then HighDriveZero
    else if code == 2 then HighDriveOne
    else if code == 3 then HighDrive
    else if code == 4 then OpenZeroStandardOne
    else if code == 5 then OpenZeroHighDriveOne
    else if code == 6 then StandardZeroOpenOne
    else HighDriveZeroOpenOne
  }

  function DriveCode(m: DriveMode): (code: bv32)
  {
    match m
    case Standard => 0
    case HighDriveZero => 1
    case HighDriveOne => 2
    case HighDrive => 3
    case OpenZeroStandardOne => 4
    case OpenZeroHighDriveOne => 5
    case StandardZeroOpenOne => 6
    case HighDriveZeroOpenOne => 7
  }

  function SenseModeOf(code: bv32): (m: SenseMode)
    requires code < 4
  {
    if code == 0 then NoSense else if code == 1 then SenseCode1 else if code == 2 then High else Low
  }

  function SenseCode(m: SenseMode): (code: bv32)
  {
    match m
    case NoSense => 0
    case SenseCode1 => 1
    case High => 2
    case Low => 3
  }

  /**
   * The fields of a PIN_CNF register: DIR (bit 0), INPUT (bit 1), PULL
   * (bits 2-3), DRIVE (bits 8-10) and SENSE (bits 16-17).
   */
  datatype PinConfig = PinConfig(dir: bool, input: bool, pull: PullMode, drive: DriveMode, sense: SenseMode)

  /** The bits of PIN_CNF that belong to a field; the others are reserved. */
  const PinConfigFieldMask: bv32 := 0x0003_070F

  function DecodePinConfig(v: bv32): (c: PinConfig)
  {
    PinConfig(v & 1 == 1, (v >> 1) & 1 == 1,
      PullModeOf((v >> 2) & 3), DriveModeOf((v >> 8) & 7), SenseModeOf((v >> 16) & 3))
  }

  function EncodePinConfig(c: PinConfig): (v: bv32)
  {
    (if c.dir then 1 else 0) | (if c.input then 2 else 0)
      | (PullCode(c.pull) << 2) | (DriveCode(c.drive) << 8) | (SenseCode(c.sense) << 16)
  }

  /** Decoding an encoded configuration gives it back. */
  lemma DecodeEncodePinConfig(c: PinConfig)
    ensures DecodePinConfig(EncodePinConfig(c)) == c
  {
  }

  /** Encoding a decoded word gives back its field bits; reserved bits are dropped. */
  lemma EncodeDecodePinConfig(v: bv32)
    ensures EncodePinConfig(DecodePinConfig(v)) == v & PinConfigFieldMask
  {
  }

  class Pin {
    const id: nat
    var direction: PinDirection
    var inputOverride: bool
    var driveMode: DriveMode
    var senseMode: SenseMode
    var pullMode: PullMode

    constructor (id: nat)
      ensures this.id == id
      ensures direction == Input && !inputOverride
      ensures driveMode == Standard && senseMode == NoSense && pullMode == NoPull
    {
      this.id := id;
      direction := Input;
      inputOverride := false;
      driveMode := Standard;
      senseMode := NoSense;
      pullMode := NoPull;
    }

    /** The pin's own part of a reset; the port clears its output line. */
    method Reset()
      modifies this`direction, this`inputOverride
      ensures direction == Input && !inputOverride
    {
      direction := Input;
      inputOverride := false;
    }

    /**
     * The level read from the pin, given `raw`, the port's state bit for it.
     * A pin that is not an input and has no input override reads 0; otherwise
     * wired-or modes read 1 also through a pull-up, wired-and modes read 1
     * only through a pull-up, and the other modes read the raw bit.
     */
    function Value(raw: bool): (r: bool)
      reads this
    {
      if direction != Input && !inputOverride then false
      else ResolveDrive(driveMode, pullMode, raw)
    }

    /** A pin senses when its sense mode names a level and the pin reads that level. */
    function IsSensing(raw: bool): (r: bool)
      reads this
      ensures r <==> SenseLevel(senseMode) == Some(Value(raw))
    {
      if senseMode == NoSense then false
      else (senseMode == High && Value(raw)) || (senseMode == Low && !Value(raw))
    }
  }

  /** An open-drain pin without a pull-up never reads 1. */
  lemma WiredAndNeedsPullUp(p: Pin, raw: bool)
    requires IsWiredAnd(p.driveMode) && p.pullMode != PullUp
    ensures !p.Value(raw)
  {
  }

  /** A readable open-drain pin with a pull-up reads exactly its state bit. */
  lemma WiredAndPulledUpReadsRaw(p: Pin, raw: bool)
    requires IsWiredAnd(p.driveMode) && p.pullMode == PullUp
    requires p.direction == Input || p.inputOverride
    ensures p.Value(raw) == raw
  {
  }

  /** With the state bit a pull resistor forces, a readable pin reads the pull's level in every drive mode. */
  lemma PulledPinReadsPull(p: Pin)
    requires p.direction == Input || p.inputOverride
    ensures p.pullMode == PullUp ==> p.Value(true)
    ensures p.pullMode == PullDown ==> !p.Value(false)
  {
  }

  /** A readable pin in a push-pull drive mode reads exactly its state bit. */
  lemma PushPullReadsRaw(p: Pin, raw: bool)
    requires p.direction == Input || p.inputOverride
    requires !IsWiredOr(p.driveMode) && !IsWiredAnd(p.driveMode)
    ensures p.Value(raw) == raw
  {
  }

  /** A readable open-source pin with a pull-up reads 1 whatever its state bit; without one it reads the bit. */
  lemma WiredOrReadsPullUp(p: Pin, raw: bool)
    requires p.direction == Input || p.inputOverride
    requires IsWiredOr(p.driveMode)
    ensures p.pullMode == PullUp ==> p.Value(raw)
    ensures p.pullMode != PullUp ==> p.Value(raw) == raw
  {
  }

  /** A pin that is neither an input nor has its input buffer connected reads 0 in every mode. */
  lemma DisconnectedPinReadsZero(p: Pin, raw: bool)
    requires p.direction == Output && !p.inputOverride
    ensures !p.Value(raw)
  {
  }

  /** A pin whose sense mode is off or unnamed never senses, whatever its level. */
  lemma SenseOffNeverSenses(p: Pin, raw: bool)
    requires p.senseMode == NoSense || p.senseMode == SenseCode1
    ensures !p.IsSensing(raw)
  {
  }

  /** For the OUT register: every pin is driven to its bit. */
  function OutDrive(value: bv32): (drive: seq<Option<bool>>)
  {
    var bits := GetBits(value);
    seq(NumberOfPins, i requires 0 <= i < NumberOfPins => Some(bits[i]))
  }

  /** For OUTSET: the pins whose bit is 1 are driven high, the others are left alone. */
  function OutSetDrive(value: bv32): (drive: seq<Option<bool>>)
  {
    var bits := GetBits(value);
    seq(NumberOfPins, i requires 0 <= i < NumberOfPins => if bits[i] then Some(true) else None)
  }

  /** For OUTCLR: the pins whose bit is 1 are driven low, the others are left alone. */
  function OutClearDrive(value: bv32): (drive: seq<Option<bool>>)
  {
    var bits := GetBits(value);
    seq(NumberOfPins, i requires 0 <= i < NumberOfPins => if bits[i] then Some(false) else None)
  }

  /** For DIR: every pin takes the direction its bit names. */
  function DirectionWrite(value: bv32): (dirs: seq<Option<PinDirection>>)
  {
    var bits := GetBits(value);
    seq(NumberOfPins, i requires 0 <= i < NumberOfPins => Some(if bits[i] then Output else Input))
  }

  /** For DIRSET: the pins whose bit is 1 become outputs. */
  function DirectionSetWrite(value: bv32): (dirs: seq<Option<PinDirection>>)
  {
    var bits := GetBits(value);
    seq(NumberOfPins, i requires 0 <= i < NumberOfPins => if bits[i] then Some(Output) else None)
  }

  /** For DIRCLR: the pins whose bit is 1 become inputs. */
  function DirectionClearWrite(value: bv32): (dirs: seq<Option<PinDirection>>)
  {
    var bits := GetBits(value);
    seq(NumberOfPins, i requires 0 <= i < NumberOfPins => if bits[i] then Some(Input) else None)
  }

  lemma AppendAssoc<T>(a: seq<T>, b: seq<T>, c: seq<T>)
    ensures a + b + c == a + (b + c)
  {
  }

  class GpioPort {
    const pins: seq<Pin>
    /** The port's raw state bit of each pin. */
    const state: array<bool>
    /** The flags of the OUT register. */
    const physicalPinState: array<bool>
    /** The level last set on each pin's output connection. */
    const connections: array<bool>
    var detectState: bool
    /** How many times Detect has been raised. */
    var detectEvents: nat
    /** The PinChanged events raised by driving pins, in order. */
    var pinChanged: seq<PinEvent>

    ghost predicate Valid()
    {
      && |pins| == NumberOfPins
      && (forall i :: 0 <= i < NumberOfPins ==> pins[i].id == i)
      && state.Length == NumberOfPins
      && physicalPinState.Length == NumberOfPins
      && connections.Length == NumberOfPins
      && state != physicalPinState && state != connections && physicalPinState != connections
    }

    constructor ()
      ensures Valid()
      ensures forall i :: 0 <= i < NumberOfPins ==>
        && fresh(pins[i]) && pins[i].direction == Input && !pins[i].inputOverride
        && pins[i].driveMode == Standard && pins[i].senseMode == NoSense && pins[i].pullMode == NoPull
      ensures fresh(state) && fresh(physicalPinState) && fresh(connections)
      ensures forall i :: 0 <= i < NumberOfPins ==> !state[i] && !physicalPinState[i] && !connections[i]
      ensures !detectState && detectEvents == 0 && pinChanged == []
    {
      var created: seq<Pin> := [];
      var i := 0;
      while i < NumberOfPins
        invariant 0 <= i <= NumberOfPins && |created| == i
        invariant forall j :: 0 <= j < i ==>
          && fresh(created[j]) && created[j].id == j && created[j].direction == Input && !created[j].inputOverride
          && created[j].driveMode == Standard && created[j].senseMode == NoSense && created[j].pullMode == NoPull
      {
        var pin := new Pin(i);
        created := created + [pin];
        i := i + 1;
      }
      pins := created;
      state := new bool[NumberOfPins](_ => false);
      physicalPinState := new bool[NumberOfPins](_ => false);
      connections := new bool[NumberOfPins](_ => false);
      detectState := false;
      detectEvents := 0;
      pinChanged := [];
    }

    /** Whether any pin senses its configured level. */
    predicate AnySensing()
      requires Valid()
      reads pins, state
    {
      exists i :: 0 <= i < NumberOfPins && pins[i].IsSensing(state[i])
    }

    /** Whether some pin other than `idx` senses its configured level. */
    predicate OthersSensing(idx: nat)
      requires Valid()
      reads pins, state
    {
      exists j :: 0 <= j < NumberOfPins && j != idx && pins[j].IsSensing(state[j])
    }

    /** Some pin senses exactly when pin idx or another pin senses. */
    lemma AnySensingSplit(idx: nat)
      requires Valid() && idx < NumberOfPins
      ensures AnySensing() <==> OthersSensing(idx) || pins[idx].IsSensing(state[idx])
    {
    }

    /** Whether pins other than idx sense is kept when neither their fields nor their state bits change. */
    twostate lemma OthersSensingKept(idx: nat)
      requires Valid() && idx < NumberOfPins
      requires forall j :: 0 <= j < NumberOfPins && j != idx ==> state[j] == old(state[j])
      requires forall j :: 0 <= j < NumberOfPins && j != idx ==> unchanged(pins[j])
      ensures OthersSensing(idx) == old(OthersSensing(idx))
    {
      forall j | 0 <= j < NumberOfPins && j != idx
        ensures pins[j].IsSensing(state[j]) == old(pins[j].IsSensing(state[j]))
      {
      }
    }

    /**
     * The PinChanged events that driving pins by `drive` raises for pins
     * 0 .. k-1, where `outputs` says which pins are outputs: one per output
     * pin driven.
     */
    static function DriveEvents(drive: seq<Option<bool>>, outputs: seq<bool>, k: nat): (events: seq<PinEvent>)
      requires |drive| == |outputs| && k <= |drive|
    {
      if k == 0 then []
      else (DriveEvents(drive, outputs, k - 1)
        + (if drive[k - 1].Some? && outputs[k - 1] then [PinEvent(k - 1, drive[k - 1].value)] else []))
    }

    /**
     * The flags `flags` after driving pins 0 .. k-1 by `drive`, where only
     * the pins that `mask` admits take their drive value.
     */
    static function DriveFlags(flags: seq<bool>, drive: seq<Option<bool>>, mask: seq<bool>, k: nat): (driven: seq<bool>)
      requires |flags| == |drive| == |mask| && k <= |drive|
    {
      seq(|flags|, i requires 0 <= i < |flags| => if i < k && drive[i].Some? && mask[i] then drive[i].value else flags[i])
    }

    /** Driving one more pin changes at most that pin's flag. */
    static lemma DriveFlagsStep(flags: seq<bool>, drive: seq<Option<bool>>, mask: seq<bool>, k: nat)
      requires |flags| == |drive| == |mask| && k < |drive|
      ensures !(drive[k].Some? && mask[k]) ==> DriveFlags(flags, drive, mask, k + 1) == DriveFlags(flags, drive, mask, k)
      ensures drive[k].Some? && mask[k] ==>
        DriveFlags(flags, drive, mask, k + 1) == DriveFlags(flags, drive, mask, k)[k := drive[k].value]
    {
    }

    /**
     * How Detect evolves over a sequence of steps in which `driven` pins were
     * driven: with none it is untouched; otherwise it ends equal to whether any
     * pin senses, it rises at most once per pin driven, and a rise from low to
     * high over the whole sequence raised it at least once.
     */
    twostate predicate DetectFollows(driven: nat)
      requires Valid()
      reads this, pins, state
    {
      && (driven == 0 ==> detectState == old(detectState) && detectEvents == old(detectEvents))
      && (driven > 0 ==> detectState == AnySensing())
      && old(detectEvents) <= detectEvents <= old(detectEvents) + driven
      && (!old(detectState) && detectState ==> detectEvents > old(detectEvents))
    }

    /** Detect follows whether any pin senses, and is raised only when that goes from false to true. */
    method UpdateDetect()
      requires Valid()
      modifies this`detectState, this`detectEvents
      ensures detectState == AnySensing()
      ensures detectEvents == old(detectEvents) + (if !old(detectState) && detectState then 1 else 0)
    {
      var nextDetectState := AnySensing();
      if nextDetectState != detectState {
        detectState := nextDetectState;
        if nextDetectState {
          detectEvents := detectEvents + 1;
        }
      }
    }

    /**
     * Writing a pin's Value: only an output pin takes it, on its state bit and
     * its output line; it then raises PinChanged and re-evaluates Detect.
     */
    method SetValue(id: nat, value: bool)
      requires Valid() && id < NumberOfPins
      modifies this`detectState, this`detectEvents, this`pinChanged, state, connections
      ensures pins[id].direction != Output ==>
        && unchanged(state) && connections[..] == old(connections[..])
        && pinChanged == old(pinChanged)
        && detectState == old(detectState) && detectEvents == old(detectEvents)
      ensures pins[id].direction == Output ==>
        && state[..] == old(state[..])[id := value]
        && connections[..] == old(connections[..])[id := value]
        && pinChanged == old(pinChanged) + [PinEvent(id, value)]
        && detectState == AnySensing()
        && detectEvents == old(detectEvents) + (if !old(detectState) && detectState then 1 else 0)
    {
      if pins[id].direction != Output {
        return;
      }
      connections[id] := value;
      state[id] := value;
      pinChanged := pinChanged + [PinEvent(id, value)];
      UpdateDetect();
    }

    /** Writing a pin's RawValue sets its state bit, whatever its direction. */
    method SetRawValue(id: nat, value: bool)
      requires Valid() && id < NumberOfPins
      modifies state
      ensures state[..] == old(state[..])[id := value]
    {
      state[id] := value;
    }

    /**
     * Driving every pin i with drive[i] = Some(v) through its Value, and setting
     * its OUT flag to v; pins with None are left alone.
     */
    method ApplyDrive(drive: seq<Option<bool>>)
      requires Valid() && |drive| == NumberOfPins
      modifies this`detectState, this`detectEvents, this`pinChanged, state, connections, physicalPinState
      ensures forall i :: 0 <= i < NumberOfPins ==>
        physicalPinState[i] == if drive[i].Some? then drive[i].value else old(physicalPinState[i])
      ensures forall i :: 0 <= i < NumberOfPins ==>
        state[i] == if drive[i].Some? && pins[i].direction == Output then drive[i].value else old(state[i])
      ensures forall i :: 0 <= i < NumberOfPins ==>
        connections[i] == if drive[i].Some? && pins[i].direction == Output then drive[i].value else old(connections[i])
      ensures pinChanged == old(pinChanged) + DriveEvents(drive, ReadDirection(), NumberOfPins)
      ensures DetectFollows(|DriveEvents(drive, ReadDirection(), NumberOfPins)|)
    {
      var id := 0;
      ghost var outputs := ReadDirection();
      while id < NumberOfPins
        invariant id <= NumberOfPins
        invariant DriveProgress(drive, outputs, id, old(physicalPinState[..]), old(state[..]), old(connections[..]),
          old(pinChanged), old(detectState), old(detectEvents))
      {
        DriveStep(drive, outputs, id, old(physicalPinState[..]), old(state[..]), old(connections[..]),
          old(pinChanged), old(detectState), old(detectEvents));
        id := id + 1;
      }
      assert id == NumberOfPins;
    }

    /**
     * Where driving pins 0 .. k-1 by `drive` leaves the port, from OUT flags
     * `out0`, state bits `state0`, output lines `lines0`, events `events0` and
     * Detect `detect0` raised `raises0` times, while `outputs` says which pins
     * are outputs.
     */
    ghost predicate DriveProgress(drive: seq<Option<bool>>, outputs: seq<bool>, k: nat,
      out0: seq<bool>, state0: seq<bool>, lines0: seq<bool>, events0: seq<PinEvent>, detect0: bool, raises0: nat)
      requires Valid() && |drive| == NumberOfPins && k <= NumberOfPins
      requires |out0| == |state0| == |lines0| == NumberOfPins
      reads this, pins, state, connections, physicalPinState
    {
      && outputs == ReadDirection()
      && physicalPinState[..] == DriveFlags(out0, drive, seq(NumberOfPins, i => true), k)
      && state[..] == DriveFlags(state0, drive, outputs, k)
      && connections[..] == DriveFlags(lines0, drive, outputs, k)
      && pinChanged == events0 + DriveEvents(drive, outputs, k)
      && (|DriveEvents(drive, outputs, k)| == 0 ==> detectState == detect0 && detectEvents == raises0)
      && (|DriveEvents(drive, outputs, k)| > 0 ==> detectState == AnySensing())
      && raises0 <= detectEvents <= raises0 + |DriveEvents(drive, outputs, k)|
      && (!detect0 && detectState ==> detectEvents > raises0)
    }

    /** One step of `ApplyDrive`: pin k is driven if `drive` says so. */
    method DriveStep(drive: seq<Option<bool>>, ghost outputs: seq<bool>, k: nat,
      ghost out0: seq<bool>, ghost state0: seq<bool>, ghost lines0: seq<bool>, ghost events0: seq<PinEvent>,
      ghost detect0: bool, ghost raises0: nat)
      requires Valid() && |drive| == NumberOfPins && k < NumberOfPins
      requires |out0| == |state0| == |lines0| == NumberOfPins
      requires DriveProgress(drive, outputs, k, out0, state0, lines0, events0, detect0, raises0)
      modifies this`detectState, this`detectEvents, this`pinChanged, state, connections, physicalPinState
      ensures DriveProgress(drive, outputs, k + 1, out0, state0, lines0, events0, detect0, raises0)
    {
      assert outputs[k] == (pins[k].direction == Output);
      DriveFlagsStep(out0, drive, seq(NumberOfPins, i => true), k);
      DriveFlagsStep(state0, drive, outputs, k);
      DriveFlagsStep(lines0, drive, outputs, k);
      AppendAssoc(events0, DriveEvents(drive, outputs, k),
        if drive[k].Some? && outputs[k] then [PinEvent(k, drive[k].value)] else []);
      if drive[k].Some? {
        DrivePin(k, drive[k].value);
      }
    }

    /** Driving one pin through its Value and setting its OUT flag. */
    method DrivePin(id: nat, value: bool)
      requires Valid() && id < NumberOfPins
      modifies this`detectState, this`detectEvents, this`pinChanged, state, connections, physicalPinState
      ensures physicalPinState[..] == old(physicalPinState[..])[id := value]
      ensures state[..] == if pins[id].direction == Output then old(state[..])[id := value] else old(state[..])
      ensures connections[..] == if pins[id].direction == Output then old(connections[..])[id := value] else old(connections[..])
      ensures pinChanged == old(pinChanged) + (if pins[id].direction == Output then [PinEvent(id, value)] else [])
      ensures pins[id].direction != Output ==> unchanged(state) && AnySensing() == old(AnySensing())
      ensures pins[id].direction != Output ==> detectState == old(detectState) && detectEvents == old(detectEvents)
      ensures pins[id].direction == Output ==>
        && detectState == AnySensing()
        && detectEvents == old(detectEvents) + (if !old(detectState) && detectState then 1 else 0)
    {
      SetValue(id, value);
      physicalPinState[id] := value;
    }

    /** A write to OUT: every output pin takes its bit, and the OUT flags become the written bits. */
    method WriteOut(value: bv32)
      requires Valid()
      modifies this`detectState, this`detectEvents, this`pinChanged, state, connections, physicalPinState
      ensures ReadOut() == GetBits(value)
      ensures forall i :: 0 <= i < NumberOfPins ==>
        state[i] == if pins[i].direction == Output then GetBits(value)[i] else old(state[i])
      ensures forall i :: 0 <= i < NumberOfPins ==>
        connections[i] == if pins[i].direction == Output then GetBits(value)[i] else old(connections[i])
      ensures pinChanged == old(pinChanged) + DriveEvents(OutDrive(value), ReadDirection(), NumberOfPins)
      ensures DetectFollows(|DriveEvents(OutDrive(value), ReadDirection(), NumberOfPins)|)
    {
      ApplyDrive(OutDrive(value));
    }

    /** A write to OUTSET: each pin whose bit is 1 has its OUT flag set and, if an output, is driven high; bits of 0 change nothing. */
    method WriteOutSet(value: bv32)
      requires Valid()
      modifies this`detectState, this`detectEvents, this`pinChanged, state, connections, physicalPinState
      ensures forall i :: 0 <= i < NumberOfPins ==> ReadOut()[i] == (old(ReadOut()[i]) || GetBits(value)[i])
      ensures forall i :: 0 <= i < NumberOfPins ==>
        state[i] == if GetBits(value)[i] && pins[i].direction == Output then true else old(state[i])
      ensures forall i :: 0 <= i < NumberOfPins ==>
        connections[i] == if GetBits(value)[i] && pins[i].direction == Output then true else old(connections[i])
      ensures pinChanged == old(pinChanged) + DriveEvents(OutSetDrive(value), ReadDirection(), NumberOfPins)
      ensures DetectFollows(|DriveEvents(OutSetDrive(value), ReadDirection(), NumberOfPins)|)
    {
      ApplyDrive(OutSetDrive(value));
    }

    /** A write to OUTCLR: each pin whose bit is 1 has its OUT flag cleared and, if an output, is driven low; bits of 0 change nothing. */
    method WriteOutClear(value: bv32)
      requires Valid()
      modifies this`detectState, this`detectEvents, this`pinChanged, state, connections, physicalPinState
      ensures forall i :: 0 <= i < NumberOfPins ==> ReadOut()[i] == (old(ReadOut()[i]) && !GetBits(value)[i])
      ensures forall i :: 0 <= i < NumberOfPins ==>
        state[i] == if GetBits(value)[i] && pins[i].direction == Output then false else old(state[i])
      ensures forall i :: 0 <= i < NumberOfPins ==>
        connections[i] == if GetBits(value)[i] && pins[i].direction == Output then false else old(connections[i])
      ensures pinChanged == old(pinChanged) + DriveEvents(OutClearDrive(value), ReadDirection(), NumberOfPins)
      ensures DetectFollows(|DriveEvents(OutClearDrive(value), ReadDirection(), NumberOfPins)|)
    {
      ApplyDrive(OutClearDrive(value));
    }

    /** Setting the direction of every pin i with dirs[i] = Some(d) to d; nothing else changes. */
    method ApplyDirections(dirs: seq<Option<PinDirection>>)
      requires Valid() && |dirs| == NumberOfPins
      modifies pins
      ensures forall i :: 0 <= i < NumberOfPins ==>
        pins[i].direction == if dirs[i].Some? then dirs[i].value else old(pins[i].direction)
      ensures forall i :: 0 <= i < NumberOfPins ==>
        && pins[i].inputOverride == old(pins[i].inputOverride) && pins[i].pullMode == old(pins[i].pullMode)
        && pins[i].driveMode == old(pins[i].driveMode) && pins[i].senseMode == old(pins[i].senseMode)
    {
      var id := 0;
      while id < NumberOfPins
        invariant 0 <= id <= NumberOfPins
        invariant forall i :: 0 <= i < NumberOfPins ==>
          pins[i].direction == if i < id && dirs[i].Some? then dirs[i].value else old(pins[i].direction)
        invariant forall i :: 0 <= i < NumberOfPins ==>
          && pins[i].inputOverride == old(pins[i].inputOverride) && pins[i].pullMode == old(pins[i].pullMode)
          && pins[i].driveMode == old(pins[i].driveMode) && pins[i].senseMode == old(pins[i].senseMode)
      {
        if dirs[id].Some? {
          pins[id].direction := dirs[id].value;
        }
        id := id + 1;
      }
    }

    /** A write to DIR: every pin becomes an output or an input as its bit says; no pin is driven. */
    method WriteDirection(value: bv32)
      requires Valid()
      modifies pins
      ensures ReadDirection() == GetBits(value)
      ensures forall i :: 0 <= i < NumberOfPins ==>
        && pins[i].inputOverride == old(pins[i].inputOverride) && pins[i].pullMode == old(pins[i].pullMode)
        && pins[i].driveMode == old(pins[i].driveMode) && pins[i].senseMode == old(pins[i].senseMode)
    {
      ApplyDirections(DirectionWrite(value));
    }

    /** A write to DIRSET: pins whose bit is 1 become outputs, the others keep their direction. */
    method WriteDirectionSet(value: bv32)
      requires Valid()
      modifies pins
      ensures forall i :: 0 <= i < NumberOfPins ==> ReadDirection()[i] == (old(ReadDirection()[i]) || GetBits(value)[i])
      ensures forall i :: 0 <= i < NumberOfPins ==>
        && pins[i].inputOverride == old(pins[i].inputOverride) && pins[i].pullMode == old(pins[i].pullMode)
        && pins[i].driveMode == old(pins[i].driveMode) && pins[i].senseMode == old(pins[i].senseMode)
    {
      ApplyDirections(DirectionSetWrite(value));
    }

    /** A write to DIRCLR: pins whose bit is 1 become inputs, the others keep their direction. */
    method WriteDirectionClear(value: bv32)
      requires Valid()
      modifies pins
      ensures forall i :: 0 <= i < NumberOfPins ==> ReadDirection()[i] == (old(ReadDirection()[i]) && !GetBits(value)[i])
      ensures forall i :: 0 <= i < NumberOfPins ==>
        && pins[i].inputOverride == old(pins[i].inputOverride) && pins[i].pullMode == old(pins[i].pullMode)
        && pins[i].driveMode == old(pins[i].driveMode) && pins[i].senseMode == old(pins[i].senseMode)
    {
      ApplyDirections(DirectionClearWrite(value));
    }

    /** Reading OUT, OUTSET or OUTCLR: the OUT flags. */
    function ReadOut(): (flags: seq<bool>)
      requires Valid()
      reads physicalPinState
    {
      physicalPinState[..]
    }

    /** Reading IN: each pin's Value, so a pin that is not readable reads 0. */
    function ReadIn(): (flags: seq<bool>)
      requires Valid()
      reads pins, state
      ensures |flags| == NumberOfPins
      ensures forall i :: 0 <= i < NumberOfPins ==> flags[i] == pins[i].Value(state[i])
      ensures forall i :: 0 <= i < NumberOfPins && pins[i].direction == Output && !pins[i].inputOverride ==> !flags[i]
    {
      seq(NumberOfPins, i requires 0 <= i < NumberOfPins reads pins, state => pins[i].Value(state[i]))
    }

    /** Reading DIR, DIRSET or DIRCLR: which pins are outputs. */
    function ReadDirection(): (flags: seq<bool>)
      requires Valid()
      reads pins
    {
      seq(NumberOfPins, i requires 0 <= i < NumberOfPins reads pins => pins[i].direction == Output)
    }

    /** Reading PIN_CNF[idx]: DIR reads 1 for an output, INPUT reads 1 when the input override is off. */
    function ReadPinConfig(idx: nat): (c: PinConfig)
      requires Valid() && idx < NumberOfPins
      reads pins[idx]
    {
      var pin := pins[idx];
      PinConfig(pin.direction == Output, !pin.inputOverride, pin.pullMode, pin.driveMode, pin.senseMode)
    }

    /**
     * The DIR field of PIN_CNF[idx]: only a change of direction has an effect,
     * and then the pin is driven with its OUT flag, which takes effect only
     * when it became an output.
     */
    method WritePinDir(idx: nat, val: bool)
      requires Valid() && idx < NumberOfPins
      modifies pins[idx], this`detectState, this`detectEvents, this`pinChanged, state, connections
      ensures pins[idx].direction == if val then Output else Input
      ensures && pins[idx].inputOverride == old(pins[idx].inputOverride) && pins[idx].pullMode == old(pins[idx].pullMode)
        && pins[idx].driveMode == old(pins[idx].driveMode) && pins[idx].senseMode == old(pins[idx].senseMode)
      ensures var toOutput := val && old(pins[idx].direction) == Input;
        && state[..] == (if toOutput then old(state[..])[idx := physicalPinState[idx]] else old(state[..]))
        && connections[..] == (if toOutput then old(connections[..])[idx := physicalPinState[idx]] else old(connections[..]))
        && pinChanged == old(pinChanged) + (if toOutput then [PinEvent(idx, physicalPinState[idx])] else [])
        && (!toOutput ==> detectState == old(detectState) && detectEvents == old(detectEvents))
        && (toOutput ==>
              detectState == AnySensing() && detectEvents == old(detectEvents) + (if !old(detectState) && detectState then 1 else 0))
    {
      var newValue := if val then Output else Input;
      if newValue != pins[idx].direction {
        pins[idx].direction := newValue;
        SetValue(idx, physicalPinState[idx]);
      }
    }

    /** The PULL field of PIN_CNF[idx]: a pull-up forces the state bit to 1, a pull-down to 0, whatever the direction. */
    method WritePinPull(idx: nat, val: PullMode)
      requires Valid() && idx < NumberOfPins
      modifies pins[idx], state
      ensures pins[idx].pullMode == val
      ensures && pins[idx].direction == old(pins[idx].direction) && pins[idx].inputOverride == old(pins[idx].inputOverride)
        && pins[idx].driveMode == old(pins[idx].driveMode) && pins[idx].senseMode == old(pins[idx].senseMode)
      ensures state[..] == match val
        case PullUp => old(state[..])[idx := true]
        case PullDown => old(state[..])[idx := false]
        case _ => old(state[..])
    {
      pins[idx].pullMode := val;
      match val
      case PullUp => SetRawValue(idx, true);
      case PullDown => SetRawValue(idx, false);
      case _ =>
    }

    /** The SENSE field of PIN_CNF[idx]: only a change of sense mode re-evaluates Detect. */
    method WritePinSense(idx: nat, val: SenseMode)
      requires Valid() && idx < NumberOfPins
      modifies pins[idx], this`detectState, this`detectEvents
      ensures pins[idx].senseMode == val
      ensures && pins[idx].direction == old(pins[idx].direction) && pins[idx].inputOverride == old(pins[idx].inputOverride)
        && pins[idx].driveMode == old(pins[idx].driveMode) && pins[idx].pullMode == old(pins[idx].pullMode)
      ensures old(pins[idx].senseMode) == val ==> detectState == old(detectState) && detectEvents == old(detectEvents)
      ensures old(pins[idx].senseMode) != val ==>
        && detectState == AnySensing()
        && detectEvents == old(detectEvents) + (if !old(detectState) && detectState then 1 else 0)
    {
      if pins[idx].senseMode != val {
        pins[idx].senseMode := val;
        UpdateDetect();
      }
    }

    /**
     * The INPUT, PULL, DRIVE and SENSE fields of a PIN_CNF[idx] write, applied
     * in that order after DIR. No pin is driven, and whether other pins sense
     * is unchanged.
     */
    method WritePinFields(idx: nat, c: PinConfig)
      requires Valid() && idx < NumberOfPins
      modifies pins[idx], this`detectState, this`detectEvents, state
      ensures pins[idx].direction == old(pins[idx].direction) && pins[idx].inputOverride == !c.input
        && pins[idx].pullMode == c.pull && pins[idx].driveMode == c.drive && pins[idx].senseMode == c.sense
      ensures state[..] == old(state[..])[idx :=
        if c.pull == PullUp then true else if c.pull == PullDown then false else old(state[idx])]
      ensures old(pins[idx].senseMode) != c.sense ==>
        && detectState == AnySensing()
        && detectEvents == old(detectEvents) + (if !old(detectState) && detectState then 1 else 0)
      ensures old(pins[idx].senseMode) == c.sense ==> detectState == old(detectState) && detectEvents == old(detectEvents)
      ensures OthersSensing(idx) == old(OthersSensing(idx))
    {
      pins[idx].inputOverride := !c.input;
      WritePinPull(idx, c.pull);
      pins[idx].driveMode := c.drive;
      WritePinSense(idx, c.sense);
      OthersSensingKept(idx);
    }

    /**
     * Detect once the DIR field of a PIN_CNF[idx] write with bit `dir` is
     * applied. A switch to output re-evaluates it, with the pin now an output
     * whose state bit is its OUT flag; any other DIR write leaves it as it is.
     */
    ghost predicate DetectAfterDir(idx: nat, dir: bool)
      requires Valid() && idx < NumberOfPins
      reads this, pins, state, physicalPinState
    {
      if dir && pins[idx].direction == Input then
        OthersSensing(idx)
        || SenseLevel(pins[idx].senseMode)
           == Some(pins[idx].inputOverride && ResolveDrive(pins[idx].driveMode, pins[idx].pullMode, physicalPinState[idx]))
      else detectState
    }

    /**
     * A write of `value` to PIN_CNF[idx]: its DIR, INPUT, PULL, DRIVE and SENSE
     * fields are applied in that order. A later read gives back the written
     * fields; the state bit ends as the pull forces it, or else as driving the
     * pin on a switch to output left it.
     */
    method WritePinConfig(idx: nat, value: bv32)
      requires Valid() && idx < NumberOfPins
      modifies pins[idx], this`detectState, this`detectEvents, this`pinChanged, state, connections
      ensures ReadPinConfig(idx) == DecodePinConfig(value)
      ensures var c := DecodePinConfig(value);
        var toOutput := c.dir && old(pins[idx].direction) == Input;
        && state[..] == old(state[..])[idx :=
             if c.pull == PullUp then true
             else if c.pull == PullDown then false
             else if toOutput then physicalPinState[idx]
             else old(state[idx])]
        && connections[..] == (if toOutput then old(connections[..])[idx := physicalPinState[idx]] else old(connections[..]))
        && pinChanged == old(pinChanged) + (if toOutput then [PinEvent(idx, physicalPinState[idx])] else [])
        && (old(pins[idx].senseMode) == c.sense ==> detectState == old(DetectAfterDir(idx, c.dir)))
        && (old(pins[idx].senseMode) != c.sense ==> detectState == AnySensing())
        && detectEvents == old(detectEvents)
             + (if toOutput && !old(detectState) && old(DetectAfterDir(idx, c.dir)) then 1 else 0)
             + (if old(pins[idx].senseMode) != c.sense && !old(DetectAfterDir(idx, c.dir)) && detectState then 1 else 0)
      ensures OthersSensing(idx) == old(OthersSensing(idx))
    {
      var c := DecodePinConfig(value);
      WritePinDir(idx, c.dir);
      AnySensingSplit(idx);
      OthersSensingKept(idx);
      assert detectState == old(DetectAfterDir(idx, c.dir));
      WritePinFields(idx, c);
    }

    /**
     * A reset: every pin becomes an input without input override and its
     * output line goes low, the OUT flags return to 0, and Detect is lowered
     * without being raised. Pull, drive and sense modes are kept.
     */
    method Reset()
      requires Valid()
      modifies pins, connections, physicalPinState, this`detectState
      ensures forall i :: 0 <= i < NumberOfPins ==>
        && pins[i].direction == Input && !pins[i].inputOverride && !connections[i] && !physicalPinState[i]
        && pins[i].pullMode == old(pins[i].pullMode) && pins[i].driveMode == old(pins[i].driveMode)
        && pins[i].senseMode == old(pins[i].senseMode)
      ensures !detectState && detectEvents == old(detectEvents)
    {
      var id := 0;
      while id < NumberOfPins
        invariant 0 <= id <= NumberOfPins
        invariant forall i :: 0 <= i < id ==> pins[i].direction == Input && !pins[i].inputOverride && !connections[i]
        invariant forall i :: 0 <= i < id ==> !physicalPinState[i]
        invariant forall i :: 0 <= i < NumberOfPins ==>
          && pins[i].pullMode == old(pins[i].pullMode) && pins[i].driveMode == old(pins[i].driveMode)
          && pins[i].senseMode == old(pins[i].senseMode)
      {
        physicalPinState[id] := false;
        connections[id] := false;
        pins[id].Reset();
        id := id + 1;
      }
      detectState := false;
    }
  }

  /**
   * After a PIN_CNF write that selects a pull-up on a pin left readable (an
   * input, or with its input buffer connected), IN reads 1 for that pin,
   * whatever the drive mode and whatever the pin's earlier state.
   */
  method PullUpReadsHigh(port: GpioPort, idx: nat, value: bv32)
    requires port.Valid() && idx < NumberOfPins
    requires DecodePinConfig(value).pull == PullUp
    requires !DecodePinConfig(value).dir || !DecodePinConfig(value).input
    modifies port.pins[idx], port`detectState, port`detectEvents, port`pinChanged, port.state, port.connections
    ensures port.ReadIn()[idx]
  {
    port.WritePinConfig(idx, value);
    assert port.state[..][idx];
    PulledPinReadsPull(port.pins[idx]);
  }

  /** The same with a pull-down: IN reads 0 for that pin. */
  method PullDownReadsLow(port: GpioPort, idx: nat, value: bv32)
    requires port.Valid() && idx < NumberOfPins
    requires DecodePinConfig(value).pull == PullDown
    modifies port.pins[idx], port`detectState, port`detectEvents, port`pinChanged, port.state, port.connections
    ensures !port.ReadIn()[idx]
  {
    port.WritePinConfig(idx, value);
  }

  /**
   * Detect can be left high with no pin sensing. An input pin that senses
   * High, has its input buffer override on and an OUT flag of 1, is written
   * with DIR = 1, INPUT = 1 and SENSE = High: the switch to output drives it
   * high, so it senses and Detect rises; INPUT = 1 then takes its override
   * away, so it reads 0, and as its sense mode did not change Detect is not
   * re-evaluated.
   */
  method StaleDetectAfterPinConfig(port: GpioPort, idx: nat)
    requires port.Valid() && idx < NumberOfPins
    requires port.pins[idx].direction == Input && port.pins[idx].inputOverride
    requires port.pins[idx].senseMode == High && port.pins[idx].driveMode == Standard && port.pins[idx].pullMode == NoPull
    requires port.physicalPinState[idx] && !port.OthersSensing(idx)
    modifies port.pins[idx], port`detectState, port`detectEvents, port`pinChanged, port.state, port.connections
    ensures port.detectState && !port.AnySensing()
  {
    port.WritePinConfig(idx, 0x0002_0003);
    port.AnySensingSplit(idx);
  }
}
