/** What every run of command lines keeps, whatever the signal does between them. */
module Invariants {
  import opened Text
  import opened Decimal
  import opened Pattern
  import opened Commands
  import opened Instrument
  import opened Effects
  import opened CommandLine
  import opened Runs

  // ------------------------------------------------------------------------ the invariant

  ghost predicate ChannelsSound(ranges: seq<real>, channels: Channels) {
    forall p :: 0 <= p <= MAX_PHASE ==> channels[p].range in ranges && 0.9 <= channels[p].scale <= 10000000.0
  }

  ghost predicate SenseSound(o: Options, x: SenseState) {
    && ChannelsSound(o.voltageRanges, x.voltage)
    && ChannelsSound(o.currentRanges, x.current)
    && MIN_APERTURE <= x.aperture <= MAX_APERTURE
    && AllUpper(x.functions)
  }

  ghost predicate SweepSound(x: SweepConfig) {
    && 0.001 <= x.time <= 3600.0
    && -3600.0 <= x.offsetTime <= 3600.0
    && 1 <= x.count <= 1000000
    && 1 <= x.sparsing <= 65535
    && AllUpper(x.functions)
  }

  /** The status data can only be text or binary along with the measured data. */
  predicate FormatSound(x: FormatConfig) {
    x.data.format.Ascii? == x.status.format.Ascii?
  }

  ghost predicate TransformSound(x: TransformConfig) {
    && x.cycles in {4, 6, 8, 10, 12}
    && 0.0 <= x.start <= 1000000.0
    && 0.0 <= x.stop <= 1000000.0
    && AllUpper(x.functions)
  }

  predicate SyncSound(x: SyncConfig) {
    && x.filterFrequency in {100.0, 1000.0, 10000.0}
    && -1000.0 <= x.level <= 1000.0
    && 0.015 <= x.timeout <= 3600.0
  }

  predicate RegisterSound(x: RegisterState) {
    0 <= x.enable <= 65535 && 0 <= x.ptransition <= 65535 && 0 <= x.ntransition <= 65535
  }

  predicate StatusSound(x: StatusConfig) {
    && 0 <= x.eventStatusEnable <= 255 && 0 <= x.serviceRequestEnable <= 255
    && RegisterSound(x.operation) && RegisterSound(x.questionable) && RegisterSound(x.voltage) && RegisterSound(x.current)
  }

  predicate SystemSound(x: SystemConfig) {
    && 1 <= x.gpibAddress <= 30 && 1200 <= x.serialBaud <= 115200
    && 1 <= x.date.month <= 12 && 1 <= x.date.day <= 31
    && 0 <= x.time.hours <= 23 && 0 <= x.time.minutes <= 59 && 0 <= x.time.seconds <= 59
  }

  /** A bounded queue of real errors, where an overflow can only be the last entry of a full queue. */
  predicate QueueSound(errors: seq<ErrorInfo>) {
    && |errors| <= QUEUE_CAPACITY
    && (forall i :: 0 <= i < |errors| ==> errors[i].code in CODES || errors[i] == OVERFLOW)
  }

  ghost predicate ListsSound(s: State) {
    && AllUpper(s.integral.functions) && AllUpper(s.display.functions)
    && 0 <= s.power.harmonicOrder <= 100
    && 0.001 <= s.integral.stopInterval <= 9990000.0
    && (forall slot :: slot in s.savedSetups ==> 10 <= slot <= 24)
  }

  ghost predicate Sound(o: Options, s: State) {
    && SenseSound(o, s.sense)
    && SweepSound(s.sweep[1]) && SweepSound(s.sweep[2])
    && FormatSound(s.format)
    && TransformSound(s.transform)
    && SyncSound(s.sync)
    && StatusSound(s.status)
    && SystemSound(s.system)
    && ListsSound(s)
    && QueueSound(s.errors)
  }

  // --------------------------------------------------------------- kept by every command

  /** A sound state stays sound, and a rejection carries one of the documented codes. */
  ghost predicate KeepsSound(o: Options, s: State, effect: Effect) {
    && (Sound(o, s) && effect.Done? ==> Sound(o, effect.state))
    && (effect.Reject? ==> effect.code in CODES)
  }

  lemma ResetIsSound(o: Options, errors: seq<ErrorInfo>)
    requires QueueSound(errors)
    ensures Sound(o, ResetState(o, errors))
  {
    assert Last(o.voltageRanges) in o.voltageRanges && Last(o.currentRanges) in o.currentRanges;
  }

  lemma PushErrorKeepsQueue(s: State, code: int, message: string)
    requires code in CODES && QueueSound(s.errors)
    ensures QueueSound(PushError(s, code, message).errors)
  {}

  lemma PushErrorKeepsSound(o: Options, s: State, code: int, message: string)
    requires code in CODES
    ensures Sound(o, s) ==> Sound(o, PushError(s, code, message))
  {
    hide QueueSound, SenseSound, SweepSound, TransformSound;
    if Sound(o, s) { PushErrorKeepsQueue(s, code, message); }
  }

  lemma CommonKeepsSound(w: World, s: State, c: Command, key: CommonKey)
    ensures KeepsSound(w.options, s, CommonEffect(w, s, c, key))
  {
    hide IntegerAccess, ConditionOf, QuoteJoin, StatusByte, BitsValue, IntText, Mask;
    if key.Rst? && QueueSound(s.errors) { ResetIsSound(w.options, s.errors); }
  }

  lemma SnapIsListed(ranges: seq<real>, wanted: real)
    requires |ranges| > 0
    ensures SnapRange(ranges, wanted) in ranges
  {}

  lemma ConfigKeepsSound(o: Options, s: State, voltage: bool, phase: int, config: ChannelConfig)
    requires 1 <= phase <= MAX_PHASE && Sound(o, s)
    requires config.range in RangesOf(o, voltage) && 0.9 <= config.scale <= 10000000.0
    ensures Sound(o, WithConfig(s, voltage, phase, config))
  {}

  lemma RangeKeepsSound(w: World, s: State, c: Command, voltage: bool, phase: int)
    requires 1 <= phase <= MAX_PHASE
    ensures KeepsSound(w.options, s, SetRangeEffect(w, s, c, voltage, phase))
  {
    hide ParseNumber;
    var effect := SetRangeEffect(w, s, c, voltage, phase);
    if Sound(w.options, s) && effect.Done? && !c.query {
      var v := ParseNumber(c.Argument().value).value;
      var ranges := RangesOf(w.options, voltage);
      SnapIsListed(ranges, v);
      ConfigKeepsSound(w.options, s, voltage, phase,
                       ConfigOf(s, voltage, phase).(range := SnapRange(ranges, v), autorange := false));
    }
  }

  lemma RangingKeepsSound(w: World, s: State, c: Command, voltage: bool, key: RangingKey)
    ensures KeepsSound(w.options, s, RangingEffect(w, s, c, voltage, key))
  {
    hide BooleanAccess, NumberAccess, SetRangeEffect;
    var phase := c.Suffix();
    if 1 <= phase <= MAX_PHASE && key.Range? {
      RangeKeepsSound(w, s, c, voltage, phase);
    } else if Sound(w.options, s) && 1 <= phase <= MAX_PHASE {
      var config := ConfigOf(s, voltage, phase);
      match key
      case RangeAuto =>
        ConfigKeepsSound(w.options, s, voltage, phase, config.(autorange := BooleanAccess(c, config.autorange).Or(config.autorange)));
      case Scale =>
        var a := NumberAccess(w.host, c, config.scale, 0.9, 10000000.0);
        ConfigKeepsSound(w.options, s, voltage, phase, config.(scale := a.Or(config.scale)));
      case RangeList =>
    }
  }

  lemma AllFunctionsAreUpper()
    ensures AllUpper(ALL_FUNCTIONS)
  {}

  lemma FunctionKeepsSound(w: World, s: State, c: Command, key: FunctionKey)
    ensures KeepsSound(w.options, s, FunctionEffect(s, c, key))
  {
    hide BooleanAccess, ListParameter, QuoteJoin;
    AllFunctionsAreUpper();
  }

  lemma DataKeepsSound(w: World, s: State, c: Command, withStatus: bool)
    ensures KeepsSound(w.options, s, DataEffect(w, s, c, withStatus))
  {
    hide ListParameter, MeasurementResponse;
  }

  lemma WithSweepIsSound(o: Options, s: State, block: int, x: SweepConfig)
    requires 1 <= block <= 2 && Sound(o, s) && SweepSound(x)
    ensures Sound(o, WithSweep(s, block, x))
  {}

  lemma SweepKeepsSound(w: World, s: State, c: Command, key: SweepKey)
    ensures KeepsSound(w.options, s, SweepEffect(w, s, c, key))
  {
    hide NumberAccess, IntegerAccess, BooleanAccess, FunctionListAccess, Effects.Aperture, AsInt, IntText, WithSweep, Sound;
    var effect, block := SweepEffect(w, s, c, key), c.Suffix();
    if Sound(w.options, s) && effect.Done? && !c.query {
      var x := s.sweep[block];
      BlockIsSound(w.options, s, block);
      match key
      case SweepState => WithSweepIsSound(w.options, s, block, x.(enabled := BooleanAccess(c, x.enabled).Or(x.enabled)));
      case SweepTime =>
        WithSweepIsSound(w.options, s, block, x.(time := 3600.0));
        var a := NumberAccess(w.host, c, x.time, 0.001, 3600.0);
        if a.Store? { WithSweepIsSound(w.options, s, block, x.(time := a.value)); }
      case OffsetTime =>
        WithSweepIsSound(w.options, s, block, x.(offsetTime := NumberAccess(w.host, c, x.offsetTime, -3600.0, 3600.0).Or(x.offsetTime)));
      case SweepCount => WithSweepIsSound(w.options, s, block, x.(count := IntegerAccess(c, x.count, 1, 1000000).Or(x.count)));
      case Sparsing => WithSweepIsSound(w.options, s, block, x.(sparsing := IntegerAccess(c, x.sparsing, 1, 65535).Or(x.sparsing)));
      case SweepFunctions => WithSweepIsSound(w.options, s, block, x.(functions := FunctionListAccess(c, x.functions).Or(x.functions)));
      case SweepPoints =>
      case OffsetPoints =>
    }
  }

  lemma BlockIsSound(o: Options, s: State, block: int)
    requires Sound(o, s) && 1 <= block <= 2
    ensures SweepSound(s.sweep[block])
  {}

  lemma SyncKeepsSound(w: World, s: State, c: Command, key: SyncKey)
    ensures KeepsSound(w.options, s, SyncEffect(w, s, c, key))
  {
    hide NumberAccess, BooleanAccess, KeywordAccess, ParseNumber, SyncSourceOf;
  }

  lemma TransformKeepsSound(w: World, s: State, c: Command, key: TransformKey)
    ensures KeepsSound(w.options, s, TransformEffect(w, s, c, key))
  {
    hide NumberAccess, IntegerAccess, KeywordAccess, FunctionListAccess;
  }

  lemma SystemKeepsSound(w: World, s: State, c: Command, key: SystemKey)
    ensures KeepsSound(w.options, s, SystemEffect(s, c, key, w.options.scpiVersion))
  {
    hide IntegerAccess, KeywordAccess, TextAccess, ParseNumber, EntryText, Join, ThreeText;
  }

  lemma StatusKeepsSound(w: World, s: State, c: Command, r: Register, part: RegisterPart)
    ensures KeepsSound(w.options, s, StatusEffect(w, s, c, r, part))
  {
    hide IntegerAccess, ConditionOf, RegisterName, BitsValue;
  }

  lemma IntegralKeepsSound(w: World, s: State, c: Command, key: IntegralKey)
    ensures KeepsSound(w.options, s, IntegralEffect(w, s, c, key))
  {
    hide NumberAccess, BooleanAccess, KeywordAccess, FunctionListAccess;
  }

  lemma SpectrumKeepsSound(w: World, s: State, c: Command, key: SpectrumKey)
    ensures KeepsSound(w.options, s, SpectrumEffect(w, s, c, key))
  {
    hide ReadWindow, FormatValues, FormatSettings, Join, Window, IntText;
  }

  lemma CalculateKeepsSound(w: World, s: State, c: Command)
    requires c.key.Transform? || c.key.Spectrum? || c.key.Integral? || c.key.HarmonicOrder? || c.key.PowerCorrection?
          || c.key.EfficiencyReference?
    ensures KeepsSound(w.options, s, EffectOf(w, s, c))
  {
    hide IntegerAccess, KeywordAccess,
         CommonEffect, AbortEffect, RouteEffect, InputEffect, RangingEffect, ApertureEffect, FunctionEffect, DataEffect,
         SweepEffect, SyncEffect, AcquisitionEffect, TriggerEffect, TransformEffect, SpectrumEffect, IntegralEffect,
         TraceEffect, FormatEffect, DisplayEffect, SystemEffect, StatusEffect, TimerEffect;
    match c.key
    case Transform(key) => TransformKeepsSound(w, s, c, key);
    case Spectrum(key) => SpectrumKeepsSound(w, s, c, key);
    case Integral(key) => IntegralKeepsSound(w, s, c, key);
    case _ =>
  }

  lemma SenseKeepsSound(w: World, s: State, c: Command)
    requires c.key.Ranging? || c.key.Aperture? || c.key.SamplingFrequency? || c.key.Functions? || c.key.Data? || c.key.Sweep?
    ensures KeepsSound(w.options, s, EffectOf(w, s, c))
  {
    hide NumberAccess, CommonEffect, AbortEffect, RouteEffect, InputEffect, RangingEffect, FunctionEffect, DataEffect,
         SweepEffect, SyncEffect, AcquisitionEffect, TriggerEffect, TransformEffect, SpectrumEffect, IntegralEffect,
         HarmonicOrderEffect, CorrectionEffect, ReferenceEffect, TraceEffect, FormatEffect, DisplayEffect, SystemEffect,
         StatusEffect, TimerEffect;
    match c.key
    case Ranging(voltage, key) => RangingKeepsSound(w, s, c, voltage, key);
    case Functions(key) => FunctionKeepsSound(w, s, c, key);
    case Data(withStatus) => DataKeepsSound(w, s, c, withStatus);
    case Sweep(key) => SweepKeepsSound(w, s, c, key);
    case _ =>
  }

  lemma InputKeepsSound(w: World, s: State, c: Command, key: InputKey)
    ensures KeepsSound(w.options, s, InputEffect(w, s, c, key))
  {
    hide NumberAccess, BooleanAccess, KeywordAccess;
  }

  lemma TriggerKeepsSound(w: World, s: State, c: Command, start: bool, key: TriggerKey)
    ensures KeepsSound(w.options, s, TriggerEffect(w, s, c, start, key))
  {
    hide NumberAccess, KeywordAccess, TextAccess;
  }

  lemma AcquisitionKeepsSound(w: World, s: State, c: Command, key: InitiateKey)
    ensures KeepsSound(w.options, s, AcquisitionEffect(s, c, key))
  {
    hide BooleanAccess;
  }

  lemma TraceKeepsSound(w: World, s: State, c: Command, key: TraceKey)
    ensures KeepsSound(w.options, s, TraceEffect(w, s, c, key))
  {
    hide BlockParameter, ReadWindow, TraceResponse, Preamble, IntText;
  }

  /** Setting one transfer format takes the other along. */
  lemma FormatKeepsSound(w: World, s: State, c: Command, key: FormatKey)
    ensures KeepsSound(w.options, s, FormatEffect(s, c, key))
  {
    hide KeywordAccess, BooleanAccess, LengthParameter, FormatOf;
  }

  lemma DisplayKeepsSound(w: World, s: State, c: Command, key: DisplayKey)
    ensures KeepsSound(w.options, s, DisplayEffect(s, c, key))
  {
    hide BooleanAccess, FunctionListAccess;
  }

  lemma AbortKeepsSound(w: World, s: State, c: Command)
    ensures KeepsSound(w.options, s, AbortEffect(s, c))
  {}

  lemma RouteKeepsSound(w: World, s: State, c: Command)
    ensures KeepsSound(w.options, s, RouteEffect(s, c))
  {
    hide SenseSound, SweepSound, TransformSound, SyncSound, StatusSound, SystemSound, QueueSound, Upper, Unquote;
  }

  lemma TimerKeepsSound(w: World, s: State, c: Command, key: TimerKey)
    ensures KeepsSound(w.options, s, TimerEffect(w, s, c, key))
  {}

  /** Every command of the table keeps the invariant. */
  lemma EffectKeepsSound(w: World, s: State, c: Command)
    ensures KeepsSound(w.options, s, EffectOf(w, s, c))
  {
    hide CommonEffect, AbortEffect, RouteEffect, InputEffect, RangingEffect, ApertureEffect, FunctionEffect, DataEffect,
         SweepEffect, SyncEffect, AcquisitionEffect, TriggerEffect, TransformEffect, SpectrumEffect, IntegralEffect,
         HarmonicOrderEffect, CorrectionEffect, ReferenceEffect,
         TraceEffect, FormatEffect, DisplayEffect, SystemEffect, StatusEffect, TimerEffect, Sound;
    match c.key
    case Common(key) => CommonKeepsSound(w, s, c, key);
    case Abort => AbortKeepsSound(w, s, c);
    case RouteSystem => RouteKeepsSound(w, s, c);
    case Timer(key) => TimerKeepsSound(w, s, c, key);
    case Input(key) => InputKeepsSound(w, s, c, key);
    case Sync(key) => SyncKeepsSound(w, s, c, key);
    case Initiate(key) => AcquisitionKeepsSound(w, s, c, key);
    case Trigger(start, key) => TriggerKeepsSound(w, s, c, start, key);
    case Trace(key) => TraceKeepsSound(w, s, c, key);
    case Format(key) => FormatKeepsSound(w, s, c, key);
    case Display(key) => DisplayKeepsSound(w, s, c, key);
    case System(key) => SystemKeepsSound(w, s, c, key);
    case Status(r, part) => StatusKeepsSound(w, s, c, r, part);
    case _ =>
      if c.key.Ranging? || c.key.Aperture? || c.key.SamplingFrequency? || c.key.Functions? || c.key.Data? || c.key.Sweep? {
        SenseKeepsSound(w, s, c);
      } else {
        CalculateKeepsSound(w, s, c);
      }
  }

  // ------------------------------------------------------------------------ whole runs

  lemma {:induction false} PiecesKeepSound(w: World, s: State, pieces: seq<string>, path: seq<Token>)
    requires Sound(w.options, s)
    ensures Sound(w.options, RunPieces(Simulator(w), s, pieces, path).state)
    decreases |pieces|
  {
    hide EffectOf, Sound, RequestFor, NextPath, PushError;
    if pieces != [] {
      var text := Trim(pieces[0]);
      if text == "" {
        PiecesKeepSound(w, s, pieces[1..], path);
      } else {
        var request := RequestFor(w.specs, text, path);
        var effect := Perform(w, s, request);
        if request.Known? { EffectKeepsSound(w, s, request.command); }
        if effect.Done? {
          PiecesKeepSound(w, effect.state, pieces[1..], NextPath(text, path));
        } else if effect.Reject? {
          PushErrorKeepsSound(w.options, s, effect.code, effect.message);
        }
      }
    }
  }

  lemma {:induction false} RunKeepsSound(w: World, s: State, steps: seq<Step>)
    requires Sound(w.options, s)
    ensures Sound(w.options, Run(w, s, steps))
    decreases |steps|
  {
    hide EffectOf, Sound, RunPieces;
    if steps != [] {
      var here := w.(signal := steps[0].signal);
      PiecesKeepSound(here, s, Split(Outside, steps[0].line, ';'), []);
      RunKeepsSound(w, After(w, s, steps[0]), steps[1..]);
    }
  }

  /** From power-on, every run of command lines under any signal leaves a sound state. */
  lemma EveryRunIsSound(w: World, steps: seq<Step>)
    ensures Sound(w.options, Run(w, InitialState(w.options), steps))
  {
    hide EffectOf, Sound, RunPieces, Run;
    ResetIsSound(w.options, []);
    RunKeepsSound(w, InitialState(w.options), steps);
  }

  /** So the recording always fits: in every run the answers of TRACe:FREE? and TRACe:CATalog:LENgth? are
      non-negative and add up to the memory. */
  lemma TraceMemoryIsConserved(w: World, steps: seq<Step>)
    ensures var s := Run(w, InitialState(w.options), steps);
            exists free: nat, length: nat ::
              && TraceEffect(w, s, Command(Trace(TraceFree), [], true, []), TraceFree) == Respond(s, IntText(free))
              && TraceEffect(w, s, Command(Trace(TraceLength), [], true, []), TraceLength) == Respond(s, IntText(length))
              && free + length == TRACE_CAPACITY
  {
    hide EffectOf, Sound, RunPieces, Run, TracePoints, IntText;
    var s := Run(w, InitialState(w.options), steps);
    EveryRunIsSound(w, steps);
    RecordingFits(w.options, s);
    var free: nat, length: nat := TRACE_CAPACITY - TracePoints(s), TracePoints(s);
    assert TraceEffect(w, s, Command(Trace(TraceFree), [], true, []), TraceFree) == Respond(s, IntText(free));
    assert TraceEffect(w, s, Command(Trace(TraceLength), [], true, []), TraceLength) == Respond(s, IntText(length));
  }

  lemma RecordingFits(o: Options, s: State)
    requires Sound(o, s)
    ensures 0 <= TracePoints(s) <= TRACE_CAPACITY
  {
    if s.sweep[1].enabled || s.sweep[2].enabled {
      var x := if s.sweep[1].enabled then s.sweep[1] else s.sweep[2];
      assert x.time / Effects.Aperture(s) >= 0.0;
    }
  }

  // ------------------------------------------------------------------------ range snapping

  predicate Ascending(ranges: seq<real>) {
    forall i, j :: 0 <= i < j < |ranges| ==> ranges[i] <= ranges[j]
  }

  /** An accepted request snaps to the least listed range that is at least 0.999 of it; the last range
      as a stand-in is never needed, since 0.999 * 1.001 < 1. */
  lemma {:induction false} SnapIsLeast(ranges: seq<real>, v: real)
    requires |ranges| > 0 && Ascending(ranges) && Last(ranges) >= 0.0 && v <= Last(ranges) * 1.001
    ensures var r := SnapRange(ranges, v);
            && r in ranges && v * 0.999 <= r
            && (forall x :: x in ranges && v * 0.999 <= x ==> r <= x)
  {
    if |ranges| > 1 && ranges[0] < v * 0.999 {
      assert Ascending(ranges[1..]) && Last(ranges[1..]) == Last(ranges);
      SnapIsLeast(ranges[1..], v);
      assert forall x :: x in ranges ==> x == ranges[0] || x in ranges[1..];
    }
  }
}
