/** The commands the instrument knows, as the stable keys the dispatcher selects. */
module Commands {
  import opened Wrappers
  import opened Text

  datatype Register = Operation | Questionable | QuestionableVoltage | QuestionableCurrent

  datatype RegisterPart = Condition | Event | Enable | PositiveTransition | NegativeTransition

  datatype CommonKey = Idn | Rst | Cls | Opt | Lrn | Opc | Wai | Trg | Ese | Esr | Sre | Stb | Sav | Rcl

  datatype InputKey = Coupling | Gain | FilterFrequency | FilterState | Shunt

  datatype RangingKey = RangeList | RangeAuto | Range | Scale

  datatype FunctionKey = FunctionsOff | Concurrent | FunctionCount | FunctionsAll | FunctionList

  datatype SweepKey =
    | OffsetPoints | OffsetTime | SweepPoints | SweepTime | SweepCount | Sparsing | SweepFunctions | SweepState

  datatype SyncKey =
    | SyncState | LevelUnit | SyncTimeout | SyncLevel | SyncSlope | SyncFilterFrequency | SyncFilterState | SyncSource

  datatype InitiateKey = Continuous | Sequence | SequenceName | Immediate

  datatype TriggerKey = TriggerSource | TriggerTime | TriggerLevel | TriggerSlope

  datatype TransformKey =
    | TransformMode | TransformFunctions | TransformStart | TransformStop | TransformCycles | TransformGrouping | TransformOnce

  datatype SpectrumKey = SpectrumPreamble | SpectrumThd | SpectrumData

  datatype IntegralKey =
    | ClearAuto | ClearNow | IntegralFunctions | StartSource | StartTime | StartNow
    | StopSource | StopTime | StopInterval | StopNow | IntegralState

  datatype TraceKey = TracePreamble | TraceStatus | TraceFree | TraceLength | TraceDelete | TraceData

  datatype FormatKey = StatusFormat | ByteOrder | Transpose | DataFormat

  datatype DisplayKey = DisplayFunctions | DisplayState | OutputState

  datatype SystemKey =
    | GpibAddress | SerialBaud | SystemDate | SystemTime | ErrorAll | ErrorNext | KeyLock | Language | ScpiVersion

  datatype TimerKey = ResetAuto | ResetTime | ResetNow

  /** A command header with its suffixes taken out. The star commands are never in the pattern table. */
  datatype Key =
    | Common(common: CommonKey)
    | Abort
    | RouteSystem
    | Input(input: InputKey)
    | Ranging(voltage: bool, ranging: RangingKey)
    | Aperture
    | SamplingFrequency
    | Functions(functions: FunctionKey)
    | Data(withStatus: bool)
    | Sweep(sweep: SweepKey)
    | Sync(sync: SyncKey)
    | Initiate(initiate: InitiateKey)
    | Trigger(start: bool, trigger: TriggerKey)
    | Transform(transform: TransformKey)
    | Spectrum(spectrum: SpectrumKey)
    | Integral(integral: IntegralKey)
    | HarmonicOrder
    | PowerCorrection
    | EfficiencyReference
    | Trace(trace: TraceKey)
    | Format(format: FormatKey)
    | Display(display: DisplayKey)
    | System(system: SystemKey)
    | Status(register: Register, part: RegisterPart)
    | Timer(timer: TimerKey)

  /** One command of a line after its header was matched: `suffixes` holds those of the nodes that
      were present, `args` the trimmed parameters with their quotes kept. */
  datatype Command = Command(key: Key, suffixes: seq<int>, query: bool, args: seq<string>) {

    /** The n-th suffix; omitted or 0 means input 1. */
    function Suffix(index: nat := 0): int {
      if index >= |suffixes| || suffixes[index] == 0 then 1 else suffixes[index]
    }

    /** The n-th suffix; omitted means 0, the aggregate form. */
    function AggregateSuffix(index: nat := 0): int {
      if index < |suffixes| then suffixes[index] else 0
    }

    /** The parameter at `index`, unquoted, unless it is missing or empty. */
    function Argument(index: nat := 0): Option<string> {
      if index >= |args| || args[index] == "" then None else Some(Unquote(args[index]))
    }
  }
}
