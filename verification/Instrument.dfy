/** What the simulated instrument remembers, the signal it sees and its fixed properties. */
module Instrument {
  import opened Commands
  import opened Headers

  const MAX_PHASE := 6
  const MAX_CHANNEL := 12
  const MIN_APERTURE := 0.015
  const MAX_APERTURE := 3600.0
  const TRACE_CAPACITY := 4096

  /** An entry of the error queue. */
  datatype ErrorInfo = ErrorInfo(code: int, message: string)

  // ------------------------------------------------------------------ bit registers

  /** A status register as the set of the bits that are 1. */
  type Bits = set<nat>

  function Pow2(n: nat): (r: nat)
    ensures r > 0
  {
    if n == 0 then 1 else 2 * Pow2(n - 1)
  }

  /** The bits below `width` as an integer. */
  function BitsValue(bits: Bits, width: nat := 16): nat {
    if width == 0 then 0 else BitsValue(bits, width - 1) + (if width - 1 in bits then Pow2(width - 1) else 0)
  }

  lemma {:induction false} BitsBelow(bits: Bits, width: nat)
    ensures BitsValue(bits, width) < Pow2(width)
  {
    if width > 0 { BitsBelow(bits, width - 1); }
  }

  /** The value determines the bits below `width`. */
  lemma {:induction false} ValueDeterminesBits(a: Bits, b: Bits, width: nat)
    requires BitsValue(a, width) == BitsValue(b, width)
    ensures forall i :: 0 <= i < width ==> (i in a <==> i in b)
  {
    if width > 0 {
      BitsBelow(a, width - 1);
      BitsBelow(b, width - 1);
      ValueDeterminesBits(a, b, width - 1);
    }
  }

  /** The bits of a non-negative mask. */
  function Mask(n: int): (bits: Bits) {
    set i: nat | 0 <= i < 16 && (n / Pow2(i)) % 2 == 1
  }

  /** Bit `i` of a number: what is left after halving it `i` times is odd. */
  predicate Bit(n: int, i: nat)
    decreases i
  {
    if i == 0 then n % 2 == 1 else Bit(n / 2, i - 1)
  }

  lemma Halved(n: int, p: nat)
    requires p > 0
    ensures n / (2 * p) == (n / 2) / p
  {
    var q, r := (n / 2) / p, (n / 2) % p;
    assert n / 2 == q * p + r;
    var rest := 2 * r + n % 2;
    assert n == q * (2 * p) + rest && 0 <= rest < 2 * p;
    DividedBy(n, 2 * p, q, rest);
  }

  lemma DividedBy(n: int, d: nat, q: int, r: nat)
    requires d > 0 && n == q * d + r && r < d
    ensures n / d == q && n % d == r
  {
    var e := n / d - q;
    assert e * d == (n / d) * d - q * d;
    assert n == (n / d) * d + n % d;
    ProductIsFar(e, d);
  }

  lemma ProductIsFar(e: int, d: int)
    requires d > 0
    ensures e > 0 ==> e * d >= d
    ensures e < 0 ==> e * d <= -d
  {}

  lemma {:induction false} BitIsDigit(n: int, i: nat)
    ensures Bit(n, i) <==> (n / Pow2(i)) % 2 == 1
    decreases i
  {
    if i > 0 {
      Halved(n, Pow2(i - 1));
      BitIsDigit(n / 2, i - 1);
    }
  }

  /** A mask selects the bits of its number. */
  lemma MaskHasBit(n: int, i: nat)
    ensures i in Mask(n) <==> i < 16 && Bit(n, i)
  {
    BitIsDigit(n, i);
  }

  lemma LowPart(n: nat, p: nat)
    requires p > 0
    ensures n % (2 * p) == n % p + ((n / p) % 2) * p
  {
    var q, low := n / p, n % p;
    assert n == q * p + low;
    LowBit(q, p);
    DividedBy(n, 2 * p, q / 2, low + (q % 2) * p);
  }

  lemma LowBit(q: nat, p: nat)
    ensures q * p == (q / 2) * (2 * p) + (q % 2) * p && 0 <= (q % 2) * p <= p
  {
    var half, odd := q / 2, q % 2;
    assert q == 2 * half + odd;
    if odd == 1 { assert q * p == 2 * half * p + p; }
  }

  lemma {:induction false} MaskBelow(n: nat, width: nat)
    requires width <= 16
    ensures BitsValue(Mask(n), width) == n % Pow2(width)
  {
    hide Mask;
    if width > 0 {
      MaskBelow(n, width - 1);
      MaskHasBit(n, width - 1);
      BitIsDigit(n, width - 1);
      LowPart(n, Pow2(width - 1));
    }
  }

  lemma Pow2Of16()
    ensures Pow2(16) == 65536
  {
    assert Pow2(4) == 16;
    assert Pow2(8) == 256;
    assert Pow2(12) == 4096;
  }

  /** The bits of a 16-bit number add up to it. */
  lemma MaskRoundTrip(n: nat)
    requires n < 65536
    ensures BitsValue(Mask(n)) == n
  {
    hide Mask, BitsValue;
    Pow2Of16();
    MaskBelow(n, 16);
  }

  /** The mask of a printed set of bits is that set, as far as it was printed. */
  lemma BitsRoundTrip(bits: Bits)
    ensures Mask(BitsValue(bits)) == set i: nat | i in bits && i < 16
  {
    hide BitsValue, Pow2;
    BitsBelow(bits, 16);
    Pow2Of16();
    MaskRoundTrip(BitsValue(bits));
    ValueDeterminesBits(Mask(BitsValue(bits)), bits, 16);
  }

  /** A printed set of bits has the bits of the set. */
  lemma ValueHasBit(bits: Bits, i: nat)
    ensures Bit(BitsValue(bits), i) <==> i in bits && i < 16
  {
    hide BitsValue, Mask;
    if i < 16 {
      BitsRoundTrip(bits);
      MaskHasBit(BitsValue(bits), i);
    } else {
      BitsBelow(bits, 16);
      Pow2Of16();
      Pow2Grows(16, i);
      HighBitsAreClear(BitsValue(bits), i);
    }
  }

  lemma {:induction false} Pow2Grows(i: nat, j: nat)
    requires i <= j
    ensures Pow2(i) <= Pow2(j)
  {
    if i < j { Pow2Grows(i, j - 1); }
  }

  lemma {:induction false} HighBitsAreClear(n: nat, i: nat)
    requires n < Pow2(i)
    ensures !Bit(n, i)
    decreases i
  {
    if i > 0 { HighBitsAreClear(n / 2, i - 1); }
  }

  // ------------------------------------------------------------------- enumerations

  datatype WiringSystem = ThreeWattmeter | TwoWattmeter
  datatype CouplingMode = CouplingAC | CouplingDC
  datatype ShuntMode = Internal | External
  datatype LevelUnitMode = Absolute | Percent
  datatype SlopeMode = Positive | Negative
  datatype NumberFormat = Ascii | Integer | Real
  datatype ByteOrderMode = NormalOrder | SwappedOrder
  datatype TransformModes = Fft | Dft | Std
  datatype Grouping = Component | Harmonic | HGroup | HSGroup | ISGroup | SGroup
  datatype StartSourceMode = StartOnCommand | StartOnTime | StartManually
  datatype StopSourceMode = StopOnCommand | StopOnTime | StopManually | StopOnInterval
  datatype CorrectionMode = Star | Delta
  datatype KeyLockMode = Unlocked | Locked | Remote

  // --------------------------------------------------------------------------- state

  datatype InputConfig = InputConfig(coupling: CouplingMode, shunt: ShuntMode, gain: real, filter: bool)

  datatype ChannelConfig = ChannelConfig(range: real, autorange: bool, scale: real)

  datatype SweepConfig =
    SweepConfig(enabled: bool, time: real, offsetTime: real, count: int, sparsing: int, functions: seq<string>)

  const DEFAULT_INPUT := InputConfig(CouplingDC, Internal, 1.0, true)
  const DEFAULT_CHANNEL := ChannelConfig(1000.0, true, 1.0)
  const DEFAULT_SWEEP := SweepConfig(false, 1.0, 0.0, 1, 1, [])

  /** Arrays indexed from 1; index 0 is unused. */
  type Inputs = s: seq<InputConfig> | |s| == MAX_CHANNEL + 1 witness seq(MAX_CHANNEL + 1, _ => DEFAULT_INPUT)
  type Channels = s: seq<ChannelConfig> | |s| == MAX_PHASE + 1 witness seq(MAX_PHASE + 1, _ => DEFAULT_CHANNEL)
  type Sweeps = s: seq<SweepConfig> | |s| == 3 witness [DEFAULT_SWEEP, DEFAULT_SWEEP, DEFAULT_SWEEP]

  datatype SenseState = SenseState(
    voltage: Channels,
    current: Channels,
    aperture: real,
    samplingFrequency: real,
    functions: seq<string>,
    concurrent: bool)

  datatype SyncConfig = SyncConfig(
    enabled: bool,
    source: string,
    level: real,
    unit: LevelUnitMode,
    slope: SlopeMode,
    filter: bool,
    filterFrequency: real,
    timeout: real)

  datatype TriggerConfig = TriggerConfig(source: string, level: real, slope: SlopeMode)

  datatype FormatSetting = FormatSetting(format: NumberFormat, length: int)

  datatype FormatConfig =
    FormatConfig(data: FormatSetting, status: FormatSetting, byteOrder: ByteOrderMode, transpose: bool)

  datatype TransformConfig = TransformConfig(
    mode: TransformModes,
    functions: seq<string>,
    start: real,
    stop: real,
    cycles: int,
    grouping: Grouping)

  datatype IntegralConfig = IntegralConfig(
    enabled: bool,
    running: bool,
    autoClear: bool,
    functions: seq<string>,
    startSource: StartSourceMode,
    stopSource: StopSourceMode,
    stopInterval: real)

  datatype PowerConfig =
    PowerConfig(harmonicOrder: int, correction: CorrectionMode, efficiencyInput: string, efficiencyOutput: string)

  datatype DisplayConfig = DisplayConfig(enabled: bool, functions: seq<string>, output: bool)

  datatype Date = Date(year: int, month: int, day: int)
  datatype Time = Time(hours: int, minutes: int, seconds: int)

  datatype SystemConfig = SystemConfig(
    keyLock: KeyLockMode,
    date: Date,
    time: Time,
    gpibAddress: int,
    serialBaud: int,
    language: string,
    timerSeconds: real)

  /** The stored parts of a register. The CONDition part is derived whenever it is read. */
  datatype RegisterState =
    RegisterState(event: Bits, enable: int, ptransition: int, ntransition: int, previousCondition: Bits)

  const DEFAULT_REGISTER := RegisterState({}, 0, 0xFFFF, 0, {})

  datatype StatusConfig = StatusConfig(
    eventStatus: Bits,
    eventStatusEnable: int,
    serviceRequestEnable: int,
    operation: RegisterState,
    questionable: RegisterState,
    voltage: RegisterState,
    current: RegisterState)
  {
    function Get(r: Register): RegisterState {
      match r
      case Operation => operation
      case Questionable => questionable
      case QuestionableVoltage => voltage
      case QuestionableCurrent => current
    }

    function Set(r: Register, x: RegisterState): StatusConfig {
      match r
      case Operation => this.(operation := x)
      case Questionable => this.(questionable := x)
      case QuestionableVoltage => this.(voltage := x)
      case QuestionableCurrent => this.(current := x)
    }
  }

  datatype State = State(
    wiring: WiringSystem,
    inputs: Inputs,
    filterFrequency: real,
    sense: SenseState,
    sync: SyncConfig,
    continuous: bool,
    initiated: bool,
    triggerStart: TriggerConfig,
    triggerStop: TriggerConfig,
    format: FormatConfig,
    transform: TransformConfig,
    integral: IntegralConfig,
    power: PowerConfig,
    sweep: Sweeps,
    display: DisplayConfig,
    system: SystemConfig,
    status: StatusConfig,
    errors: seq<ErrorInfo>,
    savedSetups: set<int>)

  // --------------------------------------------------------- signal, options and host

  datatype PhaseSignal = PhaseSignal(
    voltageRms: real,
    currentRms: real,
    phaseShift: real,
    voltageDc: real,
    currentDc: real,
    voltageThd: real,
    currentThd: real)

  type Phases = s: seq<PhaseSignal> | |s| == MAX_PHASE
    witness seq(MAX_PHASE, _ => PhaseSignal(230.0, 1.0, 0.0, 0.0, 0.0, 0.0, 0.0))

  datatype Signal = Signal(present: bool, frequency: real, phases: Phases)

  /** 6 or 12 in practice, and never more than there are inputs. */
  type ChannelCount = n: int | n <= MAX_CHANNEL witness 6

  type RangeSet = s: seq<real> | |s| > 0 witness [1.0]

  datatype Options = Options(
    identification: string,
    scpiVersion: string,
    optionsResponse: string,
    channels: ChannelCount,
    voltageRanges: RangeSet,
    currentRanges: RangeSet)

  /** The C library: how it prints a setting and a measured value, and its functions on reals. */
  datatype Host = Host(
    formatSetting: real -> string,
    formatExponent: (int, real) -> string,
    cos: real -> real,
    sin: real -> real,
    acos: real -> real,
    sqrt: real -> real)

  /** Everything a command line depends on besides the state. */
  datatype World = World(options: Options, signal: Signal, host: Host, specs: seq<CommandSpec>)

  // ------------------------------------------------------------------------- *RST, *CLS

  function Last<T>(s: seq<T>): T
    requires |s| > 0
  {
    s[|s| - 1]
  }

  /** The documented *RST state. The error queue is kept. */
  function ResetState(o: Options, errors: seq<ErrorInfo>): State {
    State(
      ThreeWattmeter,
      seq(MAX_CHANNEL + 1, _ => DEFAULT_INPUT),
      300000.0,
      SenseState(
        seq(MAX_PHASE + 1, _ => ChannelConfig(Last(o.voltageRanges), true, 1.0)),
        seq(MAX_PHASE + 1, _ => ChannelConfig(Last(o.currentRanges), true, 1.0)),
        0.1, 100000.0, [], true),
      SyncConfig(true, "VOLT1", 0.0, Percent, Positive, false, 1000.0, 1.0),
      true,
      false,
      TriggerConfig("IMM", 0.0, Positive),
      TriggerConfig("IMM", 0.0, Positive),
      FormatConfig(FormatSetting(Ascii, 6), FormatSetting(Ascii, 16), NormalOrder, false),
      TransformConfig(Fft, [], 0.0, 5000.0, 10, Component),
      IntegralConfig(false, false, true, [], StartOnCommand, StopOnCommand, 60.0),
      PowerConfig(1, Star, "", ""),
      [DEFAULT_SWEEP, DEFAULT_SWEEP, DEFAULT_SWEEP],
      DisplayConfig(true, [], false),
      SystemConfig(Unlocked, Date(2026, 1, 1), Time(12, 0, 0), 5, 115200, "DEFault", 0.0),
      StatusConfig({}, 0, 0, DEFAULT_REGISTER, DEFAULT_REGISTER, DEFAULT_REGISTER, DEFAULT_REGISTER),
      errors,
      {})
  }

  function InitialState(o: Options): State { ResetState(o, []) }

  function ClearedStatus(s: State): State {
    s.(errors := [],
       status := s.status.(
         eventStatus := {},
         operation := s.status.operation.(event := {}),
         questionable := s.status.questionable.(event := {}),
         voltage := s.status.voltage.(event := {}),
         current := s.status.current.(event := {})))
  }

  // ------------------------------------------------------------------------ error queue

  const QUEUE_CAPACITY := 32
  const COMMAND_ERROR_BIT := 5
  const OVERFLOW := ErrorInfo(-350, "Queue overflow")

  /** A full queue keeps its oldest entries and reports the overflow in its last place. */
  function PushError(s: State, code: int, message: string): State {
    if |s.errors| >= QUEUE_CAPACITY then s.(errors := s.errors[..|s.errors| - 1] + [OVERFLOW])
    else s.(errors := s.errors + [ErrorInfo(code, message)],
            status := s.status.(eventStatus := s.status.eventStatus + {COMMAND_ERROR_BIT}))
  }
}
