/** The values that `*RST` leaves, as the queries after it report them. */
module Defaults {
  import opened Wrappers
  import opened Text
  import opened Decimal
  import opened Commands
  import opened Instrument
  import opened Effects

  function InputDefault(h: Host, key: InputKey): string {
    match key
    case Coupling => "DC"
    case Gain => h.formatSetting(1.0)
    case FilterFrequency => h.formatSetting(300000.0)
    case FilterState => "1"
    case Shunt => "INT"
  }

  /** The largest range, with autoranging. */
  function RangingDefault(w: World, voltage: bool, key: RangingKey): string {
    var h, ranges := w.host, if voltage then w.options.voltageRanges else w.options.currentRanges;
    match key
    case RangeList => Join(FormatSettings(h, ranges), ',')
    case RangeAuto => "1"
    case Range => h.formatSetting(ranges[|ranges| - 1])
    case Scale => h.formatSetting(1.0)
  }

  function SweepDefault(h: Host, key: SweepKey): string {
    match key
    case OffsetPoints => "0"
    case OffsetTime => h.formatSetting(0.0)
    case SweepPoints => "10"
    case SweepTime => h.formatSetting(1.0)
    case SweepCount => "1"
    case Sparsing => "1"
    case SweepFunctions => ""
    case SweepState => "0"
  }

  function SyncDefault(h: Host, key: SyncKey): string {
    match key
    case SyncState => "1"
    case LevelUnit => "PCT"
    case SyncTimeout => h.formatSetting(1.0)
    case SyncLevel => h.formatSetting(0.0)
    case SyncSlope => "POS"
    case SyncFilterFrequency => h.formatSetting(1000.0)
    case SyncFilterState => "0"
    case SyncSource => "VOLT1"
  }

  function TransformDefault(h: Host, key: TransformKey): string
    requires !key.TransformOnce?
  {
    match key
    case TransformMode => "FFT"
    case TransformFunctions => ""
    case TransformStart => h.formatSetting(0.0)
    case TransformStop => h.formatSetting(5000.0)
    case TransformCycles => "10"
    case TransformGrouping => "COMP"
  }

  predicate IntegralSetting(key: IntegralKey) {
    key.ClearAuto? || key.IntegralFunctions? || key.StartSource? || key.StopSource? || key.StopInterval? || key.IntegralState?
  }

  function IntegralDefault(h: Host, key: IntegralKey): string
    requires IntegralSetting(key)
  {
    match key
    case ClearAuto => "1"
    case IntegralFunctions => ""
    case StartSource => "CMD"
    case StopSource => "CMD"
    case StopInterval => h.formatSetting(60.0)
    case IntegralState => "0"
  }

  function FormatDefault(key: FormatKey): string {
    match key
    case DataFormat => "ASC,6"
    case StatusFormat => "ASC,16"
    case ByteOrder => "NORM"
    case Transpose => "0"
  }

  function DisplayDefault(key: DisplayKey): string {
    match key
    case DisplayFunctions => ""
    case DisplayState => "1"
    case OutputState => "0"
  }

  predicate SystemSetting(key: SystemKey) { !key.ErrorAll? && !key.ErrorNext? }

  function SystemDefault(key: SystemKey, version: string): string
    requires SystemSetting(key)
  {
    match key
    case GpibAddress => "5"
    case SerialBaud => "115200"
    case SystemDate => "2026,1,1"
    case SystemTime => "12,0,0"
    case KeyLock => "OFF"
    case Language => "\"DEFault\""
    case ScpiVersion => version
  }

  function RegisterDefault(part: RegisterPart): string
    requires !part.Condition? && !part.Event?
  {
    match part
    case Enable => "0"
    case PositiveTransition => "65535"
    case NegativeTransition => "0"
  }

  lemma Numerals()
    ensures IntText(0) == "0" && IntText(1) == "1" && IntText(5) == "5" && IntText(6) == "6" && IntText(10) == "10"
    ensures IntText(12) == "12" && IntText(16) == "16" && IntText(2026) == "2026" && IntText(65535) == "65535"
    ensures IntText(115200) == "115200"
  {}

  lemma InputAfterReset(w: World, errors: seq<ErrorInfo>, c: Command, key: InputKey)
    requires c.query && 1 <= c.Suffix() <= w.options.channels && (key.Gain? || key.Shunt? ==> c.Suffix() % 2 == 1)
    ensures var s := ResetState(w.options, errors); InputEffect(w, s, c, key) == Respond(s, InputDefault(w.host, key))
  {}

  lemma RangingAfterReset(w: World, errors: seq<ErrorInfo>, c: Command, voltage: bool, key: RangingKey)
    requires c.query && 1 <= c.Suffix() <= 6
    ensures var s := ResetState(w.options, errors); RangingEffect(w, s, c, voltage, key) == Respond(s, RangingDefault(w, voltage, key))
  {
    hide FormatSettings, Join;
  }

  lemma SenseAfterReset(w: World, errors: seq<ErrorInfo>, c: Command)
    requires c.query
    ensures var s := ResetState(w.options, errors);
            && RouteEffect(s, c) == Respond(s, "\"3W\"")
            && ApertureEffect(w, s, c) == Respond(s, w.host.formatSetting(0.1))
            && s.sense.samplingFrequency == 100000.0
            && FunctionEffect(s, c, FunctionList) == Respond(s, "")
            && FunctionEffect(s, c, FunctionCount) == Respond(s, "0")
            && FunctionEffect(s, c, Concurrent) == Respond(s, "1")
            && AcquisitionEffect(s, c, Continuous) == Respond(s, "1") && !s.initiated
  {
    Numerals();
  }

  lemma SweepAfterReset(w: World, errors: seq<ErrorInfo>, c: Command, key: SweepKey)
    requires c.query && 1 <= c.Suffix() <= 2
    ensures var s := ResetState(w.options, errors); SweepEffect(w, s, c, key) == Respond(s, SweepDefault(w.host, key))
  {
    Numerals();
  }

  lemma SyncAfterReset(w: World, errors: seq<ErrorInfo>, c: Command, key: SyncKey)
    requires c.query
    ensures var s := ResetState(w.options, errors); SyncEffect(w, s, c, key) == Respond(s, SyncDefault(w.host, key))
  {}

  lemma TriggerAfterReset(w: World, errors: seq<ErrorInfo>, c: Command, start: bool)
    requires c.query
    ensures var s := ResetState(w.options, errors);
            && TriggerEffect(w, s, c, start, TriggerSource) == Respond(s, "IMM")
            && TriggerEffect(w, s, c, start, TriggerLevel) == Respond(s, w.host.formatSetting(0.0))
            && TriggerEffect(w, s, c, start, TriggerSlope) == Respond(s, "POS")
  {}

  lemma TransformAfterReset(w: World, errors: seq<ErrorInfo>, c: Command, key: TransformKey)
    requires c.query && !key.TransformOnce?
    ensures var s := ResetState(w.options, errors); TransformEffect(w, s, c, key) == Respond(s, TransformDefault(w.host, key))
  {
    Numerals();
  }

  lemma IntegralAfterReset(w: World, errors: seq<ErrorInfo>, c: Command, key: IntegralKey)
    requires c.query && IntegralSetting(key)
    ensures var s := ResetState(w.options, errors); IntegralEffect(w, s, c, key) == Respond(s, IntegralDefault(w.host, key))
  {}

  lemma PowerAfterReset(w: World, errors: seq<ErrorInfo>, c: Command)
    requires c.query
    ensures var s := ResetState(w.options, errors);
            && HarmonicOrderEffect(s, c) == Respond(s, "1")
            && CorrectionEffect(s, c) == Respond(s, "STAR")
            && (c.AggregateSuffix() in {0, 460} ==> ReferenceEffect(s, c) == Respond(s, "\"\",\"\""))
  {
    Numerals();
    assert "\"" + "" + "\",\"" + "" + "\"" == "\"\",\"\"";
  }

  lemma FormatAfterReset(w: World, errors: seq<ErrorInfo>, c: Command, key: FormatKey)
    requires c.query
    ensures var s := ResetState(w.options, errors); FormatEffect(s, c, key) == Respond(s, FormatDefault(key))
  {
    Numerals();
    assert "ASC" + "," + "6" == "ASC,6" && "ASC" + "," + "16" == "ASC,16";
  }

  lemma DisplayAfterReset(w: World, errors: seq<ErrorInfo>, c: Command, key: DisplayKey)
    requires c.query && (key.OutputState? ==> c.Suffix() == 9)
    ensures var s := ResetState(w.options, errors); DisplayEffect(s, c, key) == Respond(s, DisplayDefault(key))
  {}

  lemma SystemAfterReset(w: World, errors: seq<ErrorInfo>, c: Command, key: SystemKey, version: string)
    requires c.query && SystemSetting(key)
    ensures var s := ResetState(w.options, errors); SystemEffect(s, c, key, version) == Respond(s, SystemDefault(key, version))
  {
    Numerals();
    assert "2026" + "," + "1" + "," + "1" == "2026,1,1" && "12" + "," + "0" + "," + "0" == "12,0,0";
    assert "\"" + "DEFault" + "\"" == "\"DEFault\"";
  }

  lemma RegisterAfterReset(w: World, errors: seq<ErrorInfo>, c: Command, r: Register, part: RegisterPart)
    requires c.query && !part.Condition? && !part.Event?
    ensures var s := ResetState(w.options, errors); StatusEffect(w, s, c, r, part) == Respond(s, RegisterDefault(part))
  {
    hide ConditionOf, BitsValue;
    Numerals();
  }

  /** The queries of settings, with suffixes that exist. */
  predicate AsksSetting(w: World, c: Command) {
    match c.key
    case Common(key) => key.Ese? || key.Sre?
    case RouteSystem => true
    case Input(key) => 1 <= c.Suffix() <= w.options.channels && (key.Gain? || key.Shunt? ==> c.Suffix() % 2 == 1)
    case Ranging(_, _) => 1 <= c.Suffix() <= 6
    case Aperture => true
    case SamplingFrequency => true
    case Functions(key) => key.FunctionList? || key.FunctionCount? || key.Concurrent?
    case Sweep(_) => 1 <= c.Suffix() <= 2
    case Sync(_) => true
    case Initiate(key) => key.Continuous?
    case Trigger(_, key) => !key.TriggerTime?
    case Transform(key) => !key.TransformOnce?
    case Integral(key) => IntegralSetting(key)
    case HarmonicOrder => true
    case PowerCorrection => true
    case EfficiencyReference => c.AggregateSuffix() in {0, 460}
    case Format(_) => true
    case Display(key) => key.OutputState? ==> c.Suffix() == 9
    case System(key) => SystemSetting(key)
    case Status(_, part) => !part.Condition? && !part.Event?
    case Timer(key) => key.ResetTime?
    case _ => false
  }

  function DefaultOf(w: World, c: Command): string
    requires AsksSetting(w, c)
  {
    var h := w.host;
    match c.key
    case Common(_) => "0"
    case RouteSystem => "\"3W\""
    case Input(key) => InputDefault(h, key)
    case Ranging(voltage, key) => RangingDefault(w, voltage, key)
    case Aperture => h.formatSetting(0.1)
    case SamplingFrequency => h.formatSetting(100000.0)
    case Functions(key) => if key.FunctionList? then "" else if key.FunctionCount? then "0" else "1"
    case Sweep(key) => SweepDefault(h, key)
    case Sync(key) => SyncDefault(h, key)
    case Initiate(_) => "1"
    case Trigger(_, key) =>
      if key.TriggerSource? then "IMM" else if key.TriggerSlope? then "POS" else h.formatSetting(0.0)
    case Transform(key) => TransformDefault(h, key)
    case Integral(key) => IntegralDefault(h, key)
    case HarmonicOrder => "1"
    case PowerCorrection => "STAR"
    case EfficiencyReference => "\"\",\"\""
    case Format(key) => FormatDefault(key)
    case Display(key) => DisplayDefault(key)
    case System(key) => SystemDefault(key, w.options.scpiVersion)
    case Status(_, part) => RegisterDefault(part)
    case Timer(_) => h.formatSetting(0.0)
  }

  lemma MasksAfterReset(w: World, errors: seq<ErrorInfo>, c: Command)
    requires c.query
    ensures var s := ResetState(w.options, errors);
            && CommonEffect(w, s, c, Ese) == Respond(s, "0") && CommonEffect(w, s, c, Sre) == Respond(s, "0")
            && TimerEffect(w, s, c, ResetTime) == Respond(s, w.host.formatSetting(0.0))
  {
    hide StatusByteEffect, QuoteJoin, ClearedStatus;
    Numerals();
  }

  /** After `*RST`, the query of every setting answers with its documented value. */
  lemma ResetIsReported(w: World, errors: seq<ErrorInfo>, c: Command)
    requires c.query && AsksSetting(w, c)
    ensures var s := ResetState(w.options, errors); EffectOf(w, s, c) == Respond(s, DefaultOf(w, c))
  {
    hide CommonEffect, AbortEffect, RouteEffect, InputEffect, RangingEffect, ApertureEffect, FunctionEffect, DataEffect, SweepEffect,
         SyncEffect, AcquisitionEffect, TriggerEffect, TransformEffect, SpectrumEffect, IntegralEffect, HarmonicOrderEffect,
         CorrectionEffect, ReferenceEffect, TraceEffect, FormatEffect, DisplayEffect, SystemEffect, StatusEffect, TimerEffect,
         InputDefault, RangingDefault, SweepDefault, SyncDefault, TransformDefault, IntegralDefault, FormatDefault, DisplayDefault,
         SystemDefault, RegisterDefault, ResetState;
    match c.key
    case Common(_) => MasksAfterReset(w, errors, c);
    case RouteSystem => SenseAfterReset(w, errors, c);
    case Input(key) => InputAfterReset(w, errors, c, key);
    case Ranging(voltage, key) => RangingAfterReset(w, errors, c, voltage, key);
    case Aperture => SenseAfterReset(w, errors, c);
    case SamplingFrequency => SenseAfterReset(w, errors, c);
    case Functions(_) => SenseAfterReset(w, errors, c);
    case Sweep(key) => SweepAfterReset(w, errors, c, key);
    case Sync(key) => SyncAfterReset(w, errors, c, key);
    case Initiate(_) => SenseAfterReset(w, errors, c);
    case Trigger(start, _) => TriggerAfterReset(w, errors, c, start);
    case Transform(key) => TransformAfterReset(w, errors, c, key);
    case Integral(key) => IntegralAfterReset(w, errors, c, key);
    case HarmonicOrder => PowerAfterReset(w, errors, c);
    case PowerCorrection => PowerAfterReset(w, errors, c);
    case EfficiencyReference => PowerAfterReset(w, errors, c);
    case Format(key) => FormatAfterReset(w, errors, c, key);
    case Display(key) => DisplayAfterReset(w, errors, c, key);
    case System(key) => SystemAfterReset(w, errors, c, key, w.options.scpiVersion);
    case Status(r, part) => RegisterAfterReset(w, errors, c, r, part);
    case Timer(_) => MasksAfterReset(w, errors, c);
  }
}
