/**
 * The front end of a RISC-V Platform-Level Interrupt Controller: the part of
 * the controller that owns the interrupt sources and targets, latches source
 * wires into pending bits and decodes the enable and claim/complete registers.
 *
 * The handlers behind each target (IrqTarget, IrqHandler) decide arbitration,
 * claims and output lines; their code is not part of this model. Every call
 * the front end makes into them is recorded, in order, in `calls`.
 */
module Plic {
  import opened Wrappers
  import opened BitHelper

  /** A privilege level by its numeric value; `(int)level` picks a target's handler. */
  type Level = nat

  /** The largest value of a C# `int`: array lengths and source ids stay below it. */
  const MaxInt32: int := 0x7FFF_FFFF
  const MinInt32: int := -0x8000_0000

  /** A call from the front end into a target or one of its handlers. */
  datatype HandlerCall =
    | EnableSource(target: nat, level: Level, source: nat, enabled: bool)
    | AcknowledgePendingInterrupt(target: nat, level: Level)
    | CompleteHandlingInterrupt(target: nat, level: Level, source: nat)
    | ResetTarget(target: nat)
    | RefreshAllInterrupts(target: nat)

  /** What the front end reports to the log. */
  datatype Diagnostic =
    | WrongGpioSource(number: int)
    | EnableOfMissingSource(source: nat)
    | CompleteOfMissingSource(value: bv32)

  /** A register's callbacks, with the values they capture when the register is defined. */
  datatype Register =
    | ClaimComplete(hartId: nat, level: Level)
    | TargetEnables(hartId: nat, level: Level, lOffset: nat)

  /** A duplicate offset met while registering, and the map as `Dictionary.Add` leaves it when it throws. */
  datatype RegisterClash = RegisterClash(offset: int, registered: map<int, Register>)

  /** A target: its id and the privilege levels it was given (None when null). */
  datatype IrqTarget = IrqTarget(id: nat, levels: Option<seq<Level>>)

  /** One interrupt source: the raw wire level and the latched pending flag. */
  class IrqSource {
    const id: nat
    var state: bool
    var isPending: bool

    constructor (id: nat)
      ensures this.id == id && !state && !isPending
    {
      this.id := id;
      state := false;
      isPending := false;
    }

    method Reset()
      modifies this
      ensures !state && !isPending
    {
      state := false;
      isPending := false;
    }
  }

  /** C#'s unchecked wrap of an integer into the `int` range. */
  function WrapInt32(x: int): (r: int)
    ensures MinInt32 <= r <= MaxInt32
    ensures (r - x) % 0x1_0000_0000 == 0
    ensures MinInt32 <= x <= MaxInt32 ==> r == x
  {
    var m := x % 0x1_0000_0000;
    if m <= MaxInt32 then m else m - 0x1_0000_0000
  }

  /**
   * The bound of the loop creating output connections: the number of levels
   * (1 with no level list) times the number of targets, as a C# `int` product,
   * so it wraps once it leaves the `int` range.
   */
  function ConnectionCount(supportedLevels: Option<seq<Level>>, numberOfTargets: nat): (count: int)
  {
    WrapInt32((if supportedLevels.Some? then |supportedLevels.value| else 1) * numberOfTargets)
  }

  /** Without overflow the count is the plain product; two targets with 2^30 levels each give no connection at all. */
  lemma ConnectionCountProduct(supportedLevels: Option<seq<Level>>, numberOfTargets: nat)
    ensures var product := (if supportedLevels.Some? then |supportedLevels.value| else 1) * numberOfTargets;
      product <= MaxInt32 ==> ConnectionCount(supportedLevels, numberOfTargets) == product
    ensures supportedLevels.Some? && |supportedLevels.value| == 0x4000_0000 && numberOfTargets == 2 ==>
      ConnectionCount(supportedLevels, numberOfTargets) == MinInt32
  {
  }

  /**
   * The number of 32-bit enable words for `numberOfSources` sources: the
   * ceiling of (numberOfSources + 1) / 32, and none when that is not positive.
   * The sum is a C# `int`, so for the largest `int` it wraps to the smallest.
   */
  function EnablesRegisterCount(numberOfSources: int): (count: nat)
    requires MinInt32 <= numberOfSources <= MaxInt32
    ensures numberOfSources < MaxInt32 ==> count * 32 >= numberOfSources + 1
    ensures numberOfSources < MaxInt32 && count > 0 ==> (count - 1) * 32 < numberOfSources + 1
    ensures numberOfSources == MaxInt32 ==> count == 0
  {
    var sum := if numberOfSources == MaxInt32 then MinInt32 else numberOfSources + 1;
    if sum <= 0 then 0 else (sum + 31) / 32
  }

  /** The registers of an enables block of `count` words starting at byte address `address`. */
  function EnablesBlock(address: int, hartId: nat, level: Level, count: nat): (block: map<int, Register>)
    ensures forall w :: 0 <= w < count ==>
      address + 4 * w in block && block[address + 4 * w] == TargetEnables(hartId, level, 4 * w)
    ensures forall a :: a in block ==> IsEnablesAddress(address, count, a)
  {
    map a | address <= a < address + 4 * count && IsEnablesAddress(address, count, a) :: TargetEnables(hartId, level, a - address)
  }

  /** Whether byte address `a` is one of the `count` word addresses from `address` on. */
  predicate IsEnablesAddress(address: int, count: nat, a: int)
  {
    address <= a < address + 4 * count && (a - address) % 4 == 0
  }

  /** One more word adds exactly the register at the next 4-byte offset. */
  lemma EnablesBlockGrows(address: int, hartId: nat, level: Level, count: nat)
    ensures EnablesBlock(address, hartId, level, count + 1)
      == EnablesBlock(address, hartId, level, count)[address + 4 * count := TargetEnables(hartId, level, 4 * count)]
  {
  }

  /** The register at the `w`-th word of an enables block holds source bits 32*w .. 32*w+31. */
  lemma EnablesBlockCoversSource(address: int, hartId: nat, level: Level, numberOfSources: nat, s: nat)
    requires s < numberOfSources < MaxInt32
    ensures var block := EnablesBlock(address, hartId, level, EnablesRegisterCount(numberOfSources));
      && address + 4 * (s / 32) in block
      && block[address + 4 * (s / 32)] == TargetEnables(hartId, level, 4 * (s / 32))
      && block[address + 4 * (s / 32)].lOffset * 8 + s % 32 == s
  {
  }

  /**
   * Registering the claim/complete register at `offset`; adding an offset that is
   * already taken fails as `Dictionary.Add` does, naming the offset.
   */
  function AddTargetClaimCompleteRegister(registersMap: map<int, Register>, offset: int, hartId: nat, level: Level)
    : (result: Result<map<int, Register>, RegisterClash>)
    ensures result.Failure? <==> offset in registersMap
    ensures result.Failure? ==> result.error == RegisterClash(offset, registersMap)
    ensures result.Success? ==> result.value.Keys == registersMap.Keys + {offset}
    ensures result.Success? ==> result.value[offset] == ClaimComplete(hartId, level)
    ensures result.Success? ==> forall a :: a in registersMap ==> result.value[a] == registersMap[a]
  {
    if offset in registersMap then Failure(RegisterClash(offset, registersMap))
    else Success(registersMap[offset := ClaimComplete(hartId, level)])
  }

  /**
   * Registering the enables block for `numberOfSources` sources at `address`,
   * one register every 4 bytes. The first offset that is already taken stops
   * the registration; the words registered before it stay in the map.
   */
  method AddTargetEnablesRegister(registersMap: map<int, Register>, address: int, hartId: nat, level: Level, numberOfSources: int)
    returns (result: Result<map<int, Register>, RegisterClash>)
    requires MinInt32 <= numberOfSources <= MaxInt32
    ensures var count := EnablesRegisterCount(numberOfSources);
      result.Success? <==> forall w :: 0 <= w < count ==> address + 4 * w !in registersMap
    ensures result.Success? ==>
      result.value == registersMap + EnablesBlock(address, hartId, level, EnablesRegisterCount(numberOfSources))
    ensures result.Failure? ==>
      exists w :: (0 <= w < EnablesRegisterCount(numberOfSources)
        && result.error.offset == address + 4 * w && result.error.offset in registersMap
        && result.error.registered == registersMap + EnablesBlock(address, hartId, level, w)
        && forall v :: 0 <= v < w ==> address + 4 * v !in registersMap)
  {
    var maximumSourceDoubleWords := EnablesRegisterCount(numberOfSources) * 4;
    var m := registersMap;
    var offset := 0;
    ghost var words := 0;
    while offset < maximumSourceDoubleWords
      invariant offset == 4 * words && 0 <= words <= EnablesRegisterCount(numberOfSources)
      invariant m == registersMap + EnablesBlock(address, hartId, level, words)
      invariant forall v :: 0 <= v < words ==> address + 4 * v !in registersMap
    {
      assert address + offset !in EnablesBlock(address, hartId, level, words);
      if address + offset in m {
        assert address + 4 * words in registersMap;
        return Failure(RegisterClash(address + offset, m));
      }
      EnablesBlockGrows(address, hartId, level, words);
      m := m[address + offset := TargetEnables(hartId, level, offset)];
      offset := offset + 4;
      words := words + 1;
    }
    assert words == EnablesRegisterCount(numberOfSources);
    result := Success(m);
  }

  /** The `EnableSource` calls a write of `bits` to the enables word with source base `base` makes for bits 0 .. k-1. */
  function EnableCalls(hartId: nat, level: Level, base: nat, bits: seq<bool>, numberOfSources: nat, k: nat): (calls: seq<HandlerCall>)
    requires k <= |bits|
  {
    if k == 0 then []
    else (EnableCalls(hartId, level, base, bits, numberOfSources, k - 1)
      + (if base + k - 1 < numberOfSources then [EnableSource(hartId, level, base + k - 1, bits[k - 1])] else []))
  }

  /** The warnings the same write issues for bits 0 .. k-1. */
  function EnableWarnings(base: nat, bits: seq<bool>, numberOfSources: nat, k: nat): (warnings: seq<Diagnostic>)
    requires k <= |bits|
  {
    if k == 0 then []
    else (EnableWarnings(base, bits, numberOfSources, k - 1)
      + (if base + k - 1 >= numberOfSources && bits[k - 1] then [EnableOfMissingSource(base + k - 1)] else []))
  }

  /**
   * Every call of `calls` goes to the written handler and names an available
   * source among bits 0 .. k-1 of the word, with that source's bit, and the
   * sources named increase strictly.
   */
  ghost predicate CallsForWord(calls: seq<HandlerCall>, hartId: nat, level: Level, base: nat, bits: seq<bool>, numberOfSources: nat, k: nat)
  {
    && (forall i :: 0 <= i < |calls| ==>
          && calls[i].EnableSource? && calls[i].target == hartId && calls[i].level == level
          && base <= calls[i].source < base + k && calls[i].source < numberOfSources
          && calls[i].source - base < |bits|
          && calls[i].enabled == bits[calls[i].source - base])
    && (forall i, j :: 0 <= i < j < |calls| ==> calls[i].source < calls[j].source)
  }

  lemma {:induction false} EnableCallsShape(hartId: nat, level: Level, base: nat, bits: seq<bool>, numberOfSources: nat, k: nat)
    requires k <= |bits|
    ensures CallsForWord(EnableCalls(hartId, level, base, bits, numberOfSources, k), hartId, level, base, bits, numberOfSources, k)
  {
    if k > 0 {
      var prev := EnableCalls(hartId, level, base, bits, numberOfSources, k - 1);
      EnableCallsShape(hartId, level, base, bits, numberOfSources, k - 1);
      var s := base + k - 1;
      if s < numberOfSources {
        var calls := prev + [EnableSource(hartId, level, s, bits[k - 1])];
        assert EnableCalls(hartId, level, base, bits, numberOfSources, k) == calls;
        assert forall i :: 0 <= i < |prev| ==> calls[i] == prev[i] && prev[i].source < s;
      } else {
        assert EnableCalls(hartId, level, base, bits, numberOfSources, k) == prev;
      }
    }
  }

  /** A call enabling or disabling source s is made exactly when s is available and its bit is in the word. */
  lemma {:induction false} EnableCallsMembership(hartId: nat, level: Level, base: nat, bits: seq<bool>, numberOfSources: nat, k: nat, s: nat, enabled: bool)
    requires k <= |bits|
    ensures EnableSource(hartId, level, s, enabled) in EnableCalls(hartId, level, base, bits, numberOfSources, k)
        <==> base <= s < base + k && s < numberOfSources && enabled == bits[s - base]
  {
    if k > 0 {
      EnableCallsMembership(hartId, level, base, bits, numberOfSources, k - 1, s, enabled);
    }
  }

  /** Each available source of the word receives exactly one call, carrying its bit. */
  lemma EnableCallsExactlyOnce(hartId: nat, level: Level, base: nat, bits: seq<bool>, numberOfSources: nat, s: nat)
    requires |bits| == WordBits
    requires base <= s < base + WordBits && s < numberOfSources
    ensures var calls := EnableCalls(hartId, level, base, bits, numberOfSources, WordBits);
      exists i :: 0 <= i < |calls| && calls[i] == EnableSource(hartId, level, s, bits[s - base])
        && forall j :: 0 <= j < |calls| && calls[j].EnableSource? && calls[j].source == s ==> j == i
  {
    var calls := EnableCalls(hartId, level, base, bits, numberOfSources, WordBits);
    EnableCallsMembership(hartId, level, base, bits, numberOfSources, WordBits, s, bits[s - base]);
    EnableCallsShape(hartId, level, base, bits, numberOfSources, WordBits);
    var i :| 0 <= i < |calls| && calls[i] == EnableSource(hartId, level, s, bits[s - base]);
    forall j | 0 <= j < |calls| && calls[j].EnableSource? && calls[j].source == s
      ensures j == i
    {
    }
  }

  /** A warning names source s exactly when s is unavailable, in the word, and written as 1. */
  lemma {:induction false} EnableWarningsMembership(base: nat, bits: seq<bool>, numberOfSources: nat, k: nat, s: nat)
    requires k <= |bits|
    ensures EnableOfMissingSource(s) in EnableWarnings(base, bits, numberOfSources, k)
        <==> base <= s < base + k && s >= numberOfSources && bits[s - base]
  {
    if k > 0 {
      EnableWarningsMembership(base, bits, numberOfSources, k - 1, s);
    }
  }

  /** The `RefreshAllInterrupts` calls made when every target is refreshed once, in order. */
  function RefreshCalls(targets: seq<IrqTarget>): (calls: seq<HandlerCall>)
  {
    seq(|targets|, i requires 0 <= i < |targets| => RefreshAllInterrupts(targets[i].id))
  }

  /** The `ResetTarget` calls made when every target is reset once, in order. */
  function ResetCalls(targets: seq<IrqTarget>): (calls: seq<HandlerCall>)
  {
    seq(|targets|, i requires 0 <= i < |targets| => ResetTarget(targets[i].id))
  }

  /** C#'s unchecked `(int)` conversion of a `uint`. */
  function ToInt32(v: bv32): (r: int)
    ensures MinInt32 <= r <= MaxInt32
    ensures (r - v as int) % 0x1_0000_0000 == 0
  {
    if v as int <= MaxInt32 then v as int else v as int - 0x1_0000_0000
  }

  /**
   * A bound on the byte offset of every enables register: a block has at most
   * 2^26 words, so `lOffset * 8` never wraps as a `uint`.
   */
  const MaxEnablesOffset: nat := 0x1000_0000

  /**
   * Every register an enables block holds has an offset below MaxEnablesOffset,
   * and every source number it can name, `lOffset * 8 + bit`, is an `int`.
   */
  lemma EnablesOffsetsBounded(address: int, hartId: nat, level: Level, numberOfSources: int, a: int)
    requires MinInt32 <= numberOfSources <= MaxInt32
    requires a in EnablesBlock(address, hartId, level, EnablesRegisterCount(numberOfSources))
    ensures EnablesBlock(address, hartId, level, EnablesRegisterCount(numberOfSources))[a].lOffset < MaxEnablesOffset
    ensures EnablesBlock(address, hartId, level, EnablesRegisterCount(numberOfSources))[a].lOffset * 8 + 31 <= MaxInt32
  {
    var count := EnablesRegisterCount(numberOfSources);
    var block := EnablesBlock(address, hartId, level, count);
    assert IsEnablesAddress(address, count, a);
    assert a == address + 4 * ((a - address) / 4);
    assert block[a] == TargetEnables(hartId, level, a - address);
  }

  class PlatformLevelInterruptControllerBase {
    const sources: seq<IrqSource>
    const targets: seq<IrqTarget>
    /** Output line id to its level; the handlers drive the lines, so the front end only creates them. */
    const connections: map<int, bool>
    /** -1 means that no target is forced. */
    var forcedTarget: int
    var calls: seq<HandlerCall>
    ghost var diagnostics: seq<Diagnostic>

    ghost predicate Valid()
    {
      && |sources| <= MaxInt32
      && |targets| <= MaxInt32
      && (forall i :: 0 <= i < |sources| ==> sources[i].id == i)
      && (forall i :: 0 <= i < |targets| ==> targets[i].id == i)
    }

    constructor (numberOfSources: nat, numberOfTargets: nat, prioritiesEnabled: bool, supportedLevels: Option<seq<Level>>)
      requires numberOfSources <= MaxInt32 && numberOfTargets <= MaxInt32
      requires supportedLevels.Some? ==> |supportedLevels.value| <= MaxInt32
      ensures Valid()
      ensures forall k :: k in connections <==> 0 <= k < ConnectionCount(supportedLevels, numberOfTargets)
      ensures forall k :: k in connections ==> !connections[k]
      ensures |sources| == numberOfSources
      ensures forall i :: 0 <= i < |sources| ==> fresh(sources[i]) && !sources[i].state && !sources[i].isPending
      ensures |targets| == numberOfTargets
      ensures forall i :: 0 <= i < |targets| ==> targets[i].levels == supportedLevels
      ensures forcedTarget == -1 && calls == [] && diagnostics == []
    {
      var lines: map<int, bool> := map[];
      var count := ConnectionCount(supportedLevels, numberOfTargets);
      var i := 0;
      while i < count
        invariant 0 <= i && (count >= 0 ==> i <= count) && (count < 0 ==> i == 0)
        invariant forall k :: k in lines <==> 0 <= k < i
        invariant forall k :: k in lines ==> !lines[k]
      {
        lines := lines[i := false];
        i := i + 1;
      }
      connections := lines;

      var irqSources: seq<IrqSource> := [];
      i := 0;
      while i < numberOfSources
        invariant 0 <= i <= numberOfSources && |irqSources| == i
        invariant forall j :: 0 <= j < i ==> irqSources[j].id == j
        invariant forall j :: 0 <= j < i ==> fresh(irqSources[j]) && !irqSources[j].state && !irqSources[j].isPending
      {
        var source := new IrqSource(i);
        irqSources := irqSources + [source];
        i := i + 1;
      }
      sources := irqSources;

      var irqTargets: seq<IrqTarget> := [];
      i := 0;
      while i < numberOfTargets
        invariant 0 <= i <= numberOfTargets && |irqTargets| == i
        invariant forall j :: 0 <= j < i ==> irqTargets[j] == IrqTarget(j, supportedLevels)
      {
        irqTargets := irqTargets + [IrqTarget(i, supportedLevels)];
        i := i + 1;
      }
      targets := irqTargets;

      forcedTarget := -1;
      calls := [];
      diagnostics := [];
    }

    /** A source number is available exactly when some source carries it as its id. */
    function IsIrqSourceAvailable(number: int): (available: bool)
      ensures Valid() && available ==> 0 <= number < |sources| && sources[number].id == number
      ensures Valid() && !available ==> forall i :: 0 <= i < |sources| ==> sources[i].id != number
    {
      0 <= number < |sources|
    }

    /** Refreshing every target once, in order. */
    method RefreshInterrupts()
      modifies this`calls
      ensures calls == old(calls) + RefreshCalls(targets)
    {
      var i := 0;
      while i < |targets|
        invariant 0 <= i <= |targets|
        invariant calls == old(calls) + RefreshCalls(targets[..i])
      {
        calls := calls + [RefreshAllInterrupts(targets[i].id)];
        i := i + 1;
        assert RefreshCalls(targets[..i]) == RefreshCalls(targets[..i - 1]) + [RefreshAllInterrupts(targets[i - 1].id)];
      }
      assert targets[..i] == targets;
    }

    /**
     * The input wire `number` changes to `value`. An unavailable number is
     * reported and changes nothing; otherwise the wire takes the value, a high
     * value latches pending, a low one leaves pending as it was, and every
     * target is refreshed.
     */
    method OnGPIO(number: int, value: bool)
      requires Valid()
      modifies sources, this`calls, this`diagnostics
      ensures !IsIrqSourceAvailable(number) ==>
        && calls == old(calls)
        && diagnostics == old(diagnostics) + [WrongGpioSource(number)]
        && forall i :: 0 <= i < |sources| ==>
             sources[i].state == old(sources[i].state) && sources[i].isPending == old(sources[i].isPending)
      ensures IsIrqSourceAvailable(number) ==>
        && sources[number].state == value
        && sources[number].isPending == (old(sources[number].isPending) || value)
        && calls == old(calls) + RefreshCalls(targets)
        && diagnostics == old(diagnostics)
        && forall i :: 0 <= i < |sources| && i != number ==>
             sources[i].state == old(sources[i].state) && sources[i].isPending == old(sources[i].isPending)
    {
      if !IsIrqSourceAvailable(number) {
        diagnostics := diagnostics + [WrongGpioSource(number)];
        return;
      }
      var irq := sources[number];
      irq.state := value;
      irq.isPending := irq.isPending || value;
      RefreshInterrupts();
    }

    /** Resetting every source, then every target, then refreshing once; the forced target is kept. */
    method Reset()
      requires Valid()
      modifies sources, this`calls
      ensures forall i :: 0 <= i < |sources| ==> !sources[i].state && !sources[i].isPending
      ensures calls == old(calls) + ResetCalls(targets) + RefreshCalls(targets)
      ensures forcedTarget == old(forcedTarget)
    {
      var i := 0;
      while i < |sources|
        invariant 0 <= i <= |sources|
        invariant forall j :: 0 <= j < i ==> !sources[j].state && !sources[j].isPending
        invariant calls == old(calls)
      {
        assert forall j :: 0 <= j < i ==> sources[j].id != sources[i].id;
        sources[i].Reset();
        i := i + 1;
      }
      i := 0;
      while i < |targets|
        invariant 0 <= i <= |targets|
        invariant calls == old(calls) + ResetCalls(targets[..i])
        invariant forall j :: 0 <= j < |sources| ==> !sources[j].state && !sources[j].isPending
      {
        calls := calls + [ResetTarget(targets[i].id)];
        i := i + 1;
        assert ResetCalls(targets[..i]) == ResetCalls(targets[..i - 1]) + [ResetTarget(targets[i - 1].id)];
      }
      assert targets[..i] == targets;
      RefreshInterrupts();
    }

    /**
     * A read of the claim/complete register: the handler's acknowledgement,
     * `acknowledged`, is returned. With no target for the hart the read throws,
     * shown as None, and reaches no handler.
     */
    method ReadClaimComplete(hartId: nat, level: Level, acknowledged: bv32) returns (r: Option<bv32>)
      modifies this`calls
      ensures hartId < |targets| ==> r == Some(acknowledged) && calls == old(calls) + [AcknowledgePendingInterrupt(hartId, level)]
      ensures hartId >= |targets| ==> r == None && calls == old(calls)
    {
      if hartId >= |targets| {
        return None;
      }
      calls := calls + [AcknowledgePendingInterrupt(hartId, level)];
      r := Some(acknowledged);
    }

    /**
     * A write of `value` to the claim/complete register. Only a value that is
     * the id of a source reaches the handler; any other, including one that
     * the `(int)` conversion turns negative, is reported. `completed` is false
     * when the write throws: a valid source for a hart without a target.
     */
    method WriteClaimComplete(hartId: nat, level: Level, value: bv32) returns (completed: bool)
      requires Valid()
      modifies this`calls, this`diagnostics
      ensures value as int < |sources| && hartId < |targets| ==>
        completed
        && calls == old(calls) + [CompleteHandlingInterrupt(hartId, level, value as nat)]
        && diagnostics == old(diagnostics)
      ensures value as int < |sources| && hartId >= |targets| ==>
        !completed && calls == old(calls) && diagnostics == old(diagnostics)
      ensures value as int >= |sources| ==>
        completed && calls == old(calls) && diagnostics == old(diagnostics) + [CompleteOfMissingSource(value)]
    {
      var number := ToInt32(value);
      assert IsIrqSourceAvailable(number) <==> value as int < |sources|;
      if !IsIrqSourceAvailable(number) {
        diagnostics := diagnostics + [CompleteOfMissingSource(value)];
        return true;
      }
      if hartId >= |targets| {
        return false;
      }
      calls := calls + [CompleteHandlingInterrupt(hartId, level, value as nat)];
      completed := true;
    }

    /**
     * A write of `value` to the enables word at byte offset `lOffset` of the block:
     * bit b stands for source lOffset * 8 + b; each available source gets one
     * `EnableSource` call with its bit, each unavailable bit written as 1 is
     * reported, and every target is refreshed afterwards. For a hart without a
     * target the first available source throws, so `completed` is false and
     * nothing changes; a word without available sources still completes.
     */
    method WriteTargetEnables(hartId: nat, level: Level, lOffset: nat, value: bv32) returns (completed: bool)
      requires Valid()
      requires lOffset < MaxEnablesOffset
      modifies this`calls, this`diagnostics
      ensures completed <==> hartId < |targets| || lOffset * 8 >= |sources|
      ensures completed ==>
        calls == old(calls) + EnableCalls(hartId, level, lOffset * 8, GetBits(value), |sources|, WordBits) + RefreshCalls(targets)
      ensures completed ==> diagnostics == old(diagnostics) + EnableWarnings(lOffset * 8, GetBits(value), |sources|, WordBits)
      ensures !completed ==> calls == old(calls) && diagnostics == old(diagnostics)
    {
      var sourceIdBase := lOffset * 8;
      var bits := GetBits(value);
      var bit := 0;
      while bit < |bits|
        invariant 0 <= bit <= |bits|
        invariant calls == old(calls) + EnableCalls(hartId, level, sourceIdBase, bits, |sources|, bit)
        invariant diagnostics == old(diagnostics) + EnableWarnings(sourceIdBase, bits, |sources|, bit)
        invariant hartId >= |targets| && bit > 0 ==> sourceIdBase >= |sources|
      {
        var sourceNumber := sourceIdBase + bit;
        if !IsIrqSourceAvailable(sourceNumber) {
          if bits[bit] {
            diagnostics := diagnostics + [EnableOfMissingSource(sourceNumber)];
          }
        } else {
          if hartId >= |targets| {
            return false;
          }
          calls := calls + [EnableSource(hartId, level, sources[sourceNumber].id, bits[bit])];
        }
        bit := bit + 1;
      }
      RefreshInterrupts();
      completed := true;
    }
  }

  /** An assert followed by a deassert of the same wire leaves the source pending with the wire low. */
  method LatchSurvivesDeassert(plic: PlatformLevelInterruptControllerBase, n: nat)
    requires plic.Valid() && n < |plic.sources|
    modifies plic.sources, plic`calls, plic`diagnostics
    ensures plic.sources[n].isPending && !plic.sources[n].state
  {
    plic.OnGPIO(n, true);
    plic.OnGPIO(n, false);
  }
}
