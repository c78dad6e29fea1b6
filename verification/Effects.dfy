/** What each command does: the state it leaves and its response, or the one error it is rejected with. */
module Effects {
  import opened Wrappers
  import opened Text
  import opened Decimal
  import opened Pattern
  import opened Commands
  import opened Instrument
  import opened Measurement

  // --------------------------------------------------------------------- error codes

  const MISSING_PARAMETER := -109
  const UNDEFINED_HEADER := -113
  const SETTINGS_CONFLICT := -221
  const DATA_OUT_OF_RANGE := -222
  const ILLEGAL_PARAMETER := -224

  const CODES: set<int> := {MISSING_PARAMETER, UNDEFINED_HEADER, SETTINGS_CONFLICT, DATA_OUT_OF_RANGE, ILLEGAL_PARAMETER}

  /** `Hang` stands for a measurement whose recursion never ends. */
  datatype Effect = Done(state: State, response: Option<string>) | Reject(code: int, message: string) | Hang

  function Missing(): Effect { Reject(MISSING_PARAMETER, "Missing parameter") }
  function Expected(text: string): Effect { Reject(MISSING_PARAMETER, "Missing parameter;expected " + text) }
  function Illegal(text: string): Effect { Reject(ILLEGAL_PARAMETER, "Illegal parameter value;" + text) }
  function OutOfRange(text: string): Effect { Reject(DATA_OUT_OF_RANGE, "Data out of range;" + text) }
  function Conflict(text: string): Effect { Reject(SETTINGS_CONFLICT, "Settings conflict;" + text) }
  function Undefined(text: string): Effect { Reject(UNDEFINED_HEADER, "Undefined header;" + text) }
  function Respond(s: State, text: string): Effect { Done(s, Some(text)) }

  function QueryOnly(c: Command, name: string, e: Effect): Effect {
    if c.query then e else Undefined(name)
  }

  function CommandOnly(c: Command, name: string, e: Effect): Effect {
    if c.query then Undefined(name + "?") else e
  }

  // -------------------------------------------------------------------------- access

  /** One setting read or written: a query reports it, a command stores a value or is refused. */
  datatype Access<T> = Report(text: string) | Store(value: T) | Refuse(code: int, message: string) {
    function Or(field: T): T { if Store? then value else field }
  }

  /** `after` is the state with the stored value in place. */
  function Commit<T>(a: Access<T>, s: State, after: State): Effect {
    match a
    case Report(text) => Done(s, Some(text))
    case Store(_) => Done(after, None)
    case Refuse(code, message) => Reject(code, message)
  }

  function RefuseWith<T>(e: Effect): Access<T>
    requires e.Reject?
  {
    Refuse(e.code, e.message)
  }

  function NumberAccess(h: Host, c: Command, field: real, min: real, max: real): (a: Access<real>)
    ensures a.Report? <==> c.query
    ensures a.Refuse? ==> a.code in CODES
    ensures a.Store? ==> min <= a.value <= max
  {
    if c.query then Report(h.formatSetting(field))
    else match c.Argument()
      case None => RefuseWith(Missing())
      case Some(text) =>
        match ParseNumber(text)
        case None => RefuseWith(Illegal(text))
        case Some(v) => if v < min || v > max then RefuseWith(OutOfRange(text)) else Store(v)
  }

  function IntegerAccess(c: Command, field: int, min: int, max: int): (a: Access<int>)
    ensures a.Report? <==> c.query
    ensures a.Refuse? ==> a.code in CODES
    ensures a.Store? ==> min <= a.value <= max
  {
    if c.query then Report(IntText(field))
    else match c.Argument()
      case None => RefuseWith(Missing())
      case Some(text) =>
        match ParseNumber(text)
        case None => RefuseWith(Illegal(text))
        case Some(v) => if Lround(v) < min || Lround(v) > max then RefuseWith(OutOfRange(text)) else Store(Lround(v))
  }

  function BoolText(b: bool): string { if b then "1" else "0" }

  function BooleanAccess(c: Command, field: bool): (a: Access<bool>)
    ensures a.Report? <==> c.query
    ensures a.Refuse? ==> a.code in CODES
  {
    if c.query then Report(BoolText(field))
    else match c.Argument()
      case None => RefuseWith(Missing())
      case Some(text) =>
        match ParseBoolean(text)
        case None => RefuseWith(Illegal(text))
        case Some(v) => Store(v)
  }

  /** The spellings of one keyword; the first is the short form a query reports. */
  datatype Keyword<T> = Keyword(value: T, short: string, long: string)

  function SpellingOf<T(==)>(words: seq<Keyword<T>>, value: T): string {
    if words == [] then "" else if words[0].value == value then words[0].short else SpellingOf(words[1..], value)
  }

  function FindKeyword<T>(words: seq<Keyword<T>>, wanted: string): Option<T> {
    if words == [] then None
    else if wanted == words[0].short || wanted == words[0].long then Some(words[0].value)
    else FindKeyword(words[1..], wanted)
  }

  function KeywordAccess<T(==)>(c: Command, field: T, words: seq<Keyword<T>>): (a: Access<T>)
    ensures a.Report? <==> c.query
    ensures a.Refuse? ==> a.code in CODES
  {
    if c.query then Report(SpellingOf(words, field))
    else match c.Argument()
      case None => RefuseWith(Missing())
      case Some(text) =>
        match FindKeyword(words, Upper(text))
        case None => RefuseWith(Illegal(text))
        case Some(v) => Store(v)
  }

  /** Free text, unquoted. */
  function TextAccess(c: Command, report: string): (a: Access<string>)
    ensures a.Report? <==> c.query
    ensures a.Refuse? ==> a.code in CODES
  {
    if c.query then Report(report)
    else match c.Argument()
      case None => RefuseWith(Missing())
      case Some(text) => Store(text)
  }

  /** A <function> parameter has to be a quoted string. */
  predicate QuotedParameter(argument: string) {
    |Trim(argument)| >= 2 && IsQuote(Trim(argument)[0])
  }

  /** The first argument that is not a quoted string. */
  function FirstUnquoted(args: seq<string>): Option<string> {
    if args == [] then None
    else if !QuotedParameter(args[0]) then Some(Trim(args[0]))
    else FirstUnquoted(args[1..])
  }

  function FunctionNames(args: seq<string>): (r: seq<string>)
    ensures |r| == |args|
    ensures forall i :: 0 <= i < |args| ==> r[i] == Upper(Unquote(Trim(args[i])))
    ensures AllUpper(r)
  {
    assert forall i :: 0 <= i < |args| ==> Upper(Upper(Unquote(Trim(args[i])))) == Upper(Unquote(Trim(args[i])));
    seq(|args|, i requires 0 <= i < |args| => Upper(Unquote(Trim(args[i]))))
  }

  lemma FunctionNamesAppend(args: seq<string>, i: nat)
    requires i < |args|
    ensures FunctionNames(args[..i + 1]) == FunctionNames(args[..i]) + [Upper(Unquote(Trim(args[i])))]
  {
    hide Trim, Unquote, Upper;
  }

  function ListParameter(c: Command): (a: Access<seq<string>>)
    ensures !a.Report? && (a.Refuse? ==> a.code in CODES)
    ensures a.Store? ==> AllUpper(a.value)
  {
    if c.args == [] then RefuseWith(Missing())
    else match FirstUnquoted(c.args)
      case Some(text) => RefuseWith(Illegal(text))
      case None => Store(FunctionNames(c.args))
  }

  function FunctionListAccess(c: Command, field: seq<string>): (a: Access<seq<string>>)
    ensures a.Report? <==> c.query
    ensures a.Refuse? ==> a.code in CODES
    ensures a.Store? ==> AllUpper(a.value)
  {
    if c.query then Report(QuoteJoin(field)) else ListParameter(c)
  }

  // ------------------------------------------------------------------- keyword tables

  const COUPLINGS := [Keyword(CouplingAC, "AC", "AC"), Keyword(CouplingDC, "DC", "DC")]
  const SHUNTS := [Keyword(Internal, "INT", "INTERNAL"), Keyword(External, "EXT", "EXTERNAL")]
  const LEVEL_UNITS := [Keyword(Absolute, "ABS", "ABSOLUTE"), Keyword(Percent, "PCT", "PERCENT")]
  const SLOPES := [Keyword(SlopeMode.Positive, "POS", "POSITIVE"), Keyword(SlopeMode.Negative, "NEG", "NEGATIVE")]
  const BYTE_ORDERS := [Keyword(NormalOrder, "NORM", "NORMAL"), Keyword(SwappedOrder, "SWAP", "SWAPPED")]
  const KEY_LOCKS := [Keyword(Unlocked, "OFF", "0"), Keyword(Locked, "ON", "1"), Keyword(Remote, "REM", "REMOTE")]
  const TRANSFORM_MODES := [Keyword(Fft, "FFT", "FFT"), Keyword(Dft, "DFT", "DFT"), Keyword(Std, "STD", "STD")]
  const GROUPINGS := [
    Keyword(Component, "COMP", "COMPONENT"), Keyword(Harmonic, "HARM", "HARMONIC"), Keyword(HGroup, "HGR", "HGROUP"),
    Keyword(HSGroup, "HSGR", "HSGROUP"), Keyword(ISGroup, "ISGR", "ISGROUP"), Keyword(SGroup, "SGR", "SGROUP")]
  const START_SOURCES := [
    Keyword(StartOnCommand, "CMD", "CMD"), Keyword(StartOnTime, "TIME", "TIME"), Keyword(StartManually, "MAN", "MANUAL")]
  const STOP_SOURCES := [
    Keyword(StopOnCommand, "CMD", "CMD"), Keyword(StopOnTime, "TIME", "TIME"), Keyword(StopManually, "MAN", "MANUAL"),
    Keyword(StopOnInterval, "TINT", "TINTERVAL")]
  const CORRECTIONS := [Keyword(Star, "STAR", "STAR"), Keyword(Delta, "DELT", "DELTA")]

  // ------------------------------------------------------------------ status registers

  /** Phase p sets bit p-1 when overranged and bit p+7 when underranged, unless its autorange is on. */
  function ChannelBits(w: World, s: State, voltage: bool): Bits {
    (set p | 1 <= p <= MAX_PHASE && RangeStatus(ConfigOf(s, voltage, p), RawOf(w, voltage, p)) == {OVERRANGE} :: p - 1)
    + (set p | 1 <= p <= MAX_PHASE && RangeStatus(ConfigOf(s, voltage, p), RawOf(w, voltage, p)) == {UNDERRANGE} :: p + 7)
  }

  function ConfigOf(s: State, voltage: bool, phase: int): ChannelConfig
    requires 1 <= phase <= MAX_PHASE
  {
    if voltage then s.sense.voltage[phase] else s.sense.current[phase]
  }

  function RawOf(w: World, voltage: bool, phase: int): real
    requires 1 <= phase <= MAX_PHASE
  {
    if voltage then w.signal.phases[phase - 1].voltageRms else w.signal.phases[phase - 1].currentRms
  }

  function When(b: bool, bits: Bits): Bits { if b then bits else {} }

  /** The live condition of a register. */
  function ConditionOf(w: World, s: State, r: Register): Bits {
    match r
    case Operation =>
      When(Synchronized(w, s), {8, 9}) + When(Measuring(s), {10}) + When(s.sweep[1].enabled || s.sweep[2].enabled, {3})
    case QuestionableVoltage => ChannelBits(w, s, true)
    case QuestionableCurrent => ChannelBits(w, s, false)
    case Questionable =>
      When(!Synchronized(w, s), {5}) + When(ChannelBits(w, s, true) != {}, {0}) + When(ChannelBits(w, s, false) != {}, {1})
  }

  /** Latches the edges between the previous and the present condition through the transition masks. */
  function Latch(x: RegisterState, current: Bits): RegisterState {
    var rose, fell := current - x.previousCondition, x.previousCondition - current;
    x.(event := x.event + rose * Mask(x.ptransition) + fell * Mask(x.ntransition), previousCondition := current)
  }

  function Latched(w: World, s: State, r: Register): State {
    s.(status := s.status.Set(r, Latch(s.status.Get(r), ConditionOf(w, s, r))))
  }

  // -------------------------------------------------------------------- measured data

  /** The SCPI NaN encoding, printed with five decimals. */
  const NAN_TEXT := "+9.91000E+37"

  function FormatValue(h: Host, s: State, v: Value): string {
    match v
    case NaN => NAN_TEXT
    case Num(r) =>
      if s.format.data.length > 0 then h.formatExponent(s.format.data.length - 1, r) else h.formatExponent(5, r)
  }

  function MeasureAll(w: World, s: State, functions: seq<string>): (r: Option<seq<Measured>>)
    ensures r.Some? ==> |r.value| == |functions|
  {
    if functions == [] then Some([])
    else
      var n := |functions| - 1;
      var init, last := MeasureAll(w, s, functions[..n]), Measure(w, s, functions[n]);
      if init.None? || last.None? then None else Some(init.value + [last.value])
  }

  /** The i-th result is the measurement of the i-th function. */
  lemma {:induction false} MeasureAllAt(w: World, s: State, functions: seq<string>, i: nat)
    requires MeasureAll(w, s, functions).Some? && i < |functions|
    ensures Measure(w, s, functions[i]) == Some(MeasureAll(w, s, functions).value[i])
  {
    hide Measure;
    var n := |functions| - 1;
    if i < n { MeasureAllAt(w, s, functions[..n], i); }
  }

  function ValueTexts(h: Host, s: State, ms: seq<Measured>): (r: seq<string>)
    ensures |r| == |ms|
    ensures forall i :: 0 <= i < |ms| ==> r[i] == FormatValue(h, s, ms[i].value)
  {
    seq(|ms|, i requires 0 <= i < |ms| => FormatValue(h, s, ms[i].value))
  }

  function StatusTexts(ms: seq<Measured>): (r: seq<string>)
    ensures |r| == |ms|
    ensures forall i :: 0 <= i < |ms| ==> r[i] == IntText(BitsValue(ms[i].status))
  {
    seq(|ms|, i requires 0 <= i < |ms| => IntText(BitsValue(ms[i].status)))
  }

  /** A definite-length block of zeros, eight bytes a function. */
  function BinaryBlock(count: nat): string {
    var length := IntText(count * 8);
    "#" + IntText(|length|) + length + seq(count * 8, _ => '\0')
  }

  /** The answer to DATA? and DATA:STATus?; None when a measurement never ends. */
  function MeasurementResponse(w: World, s: State, functions: seq<string>, withStatus: bool): Option<string> {
    if functions == [] then Some("")
    else if !s.format.data.format.Ascii? then Some(BinaryBlock(|functions|))
    else
      match MeasureAll(w, s, functions)
      case None => None
      case Some(ms) =>
        Some(Join(ValueTexts(w.host, s, ms) + (if withStatus then StatusTexts(ms) else []), ','))
  }

  // ------------------------------------------------------------------------- windows

  function MaxInt(a: int, b: int): int { if a < b then b else a }
  function MinInt(a: int, b: int): int { if b < a then b else a }

  /** Every `step`-th element from `i` on, at most `count` of them when `count` is positive. */
  function WindowFrom<T>(source: seq<T>, i: nat, step: nat, count: int, taken: nat): seq<T>
    requires step >= 1
    decreases |source| - i
  {
    if i >= |source| || (count > 0 && taken >= count) then []
    else [source[i]] + WindowFrom(source, i + step, step, count, taken + 1)
  }

  function Window<T>(source: seq<T>, count: int, offset: int, sparsing: int): seq<T> {
    WindowFrom(source, MaxInt(offset, 0), MaxInt(sparsing, 1), count, 0)
  }

  datatype WindowArguments = WindowArguments(count: int, offset: int, sparsing: int)

  /** One positional argument: missing, a non-negative number, or unusable. */
  datatype Positional = Absent | Number(n: int) | Unusable

  function PositionalAt(args: seq<string>, index: nat): Positional {
    if index >= |args| || args[index] == "" then Absent
    else match ParseNumber(args[index])
      case None => Unusable
      case Some(v) => if v < 0.0 then Unusable else Number(Lround(v))
  }

  /** The arguments with the i-th of them replaced. */
  function WithArgument(x: WindowArguments, i: nat, n: int): WindowArguments {
    if i == 0 then x.(count := n) else if i == 1 then x.(offset := n) else x.(sparsing := n)
  }

  function ReadWindowFrom(args: seq<string>, first: nat, i: nat, x: WindowArguments): (a: Access<WindowArguments>)
    requires i <= 3
    ensures !a.Report? && (a.Refuse? ==> a.code in CODES)
    decreases 3 - i
  {
    if i == 3 then Store(x)
    else match PositionalAt(args, first + i)
      case Absent => Store(x)
      case Unusable => RefuseWith(Illegal(args[first + i]))
      case Number(n) => ReadWindowFrom(args, first, i + 1, WithArgument(x, i, n))
  }

  /** The optional tail <count>[,<offset>[,<sparsing>]]; reading stops at the first absent one. */
  function ReadWindow(args: seq<string>, first: nat): (a: Access<WindowArguments>)
    ensures !a.Report? && (a.Refuse? ==> a.code in CODES)
  {
    ReadWindowFrom(args, first, 0, WindowArguments(0, 0, 0))
  }

  function FormatValues(h: Host, s: State, values: seq<Value>): (r: seq<string>)
    ensures |r| == |values|
    ensures forall i :: 0 <= i < |values| ==> r[i] == FormatValue(h, s, values[i])
  {
    seq(|values|, i requires 0 <= i < |values| => FormatValue(h, s, values[i]))
  }

  function FormatSettings(h: Host, values: seq<real>): (r: seq<string>)
    ensures |r| == |values|
    ensures forall i :: 0 <= i < |values| ==> r[i] == h.formatSetting(values[i])
  {
    seq(|values|, i requires 0 <= i < |values| => h.formatSetting(values[i]))
  }

  // ---------------------------------------------------------------------- trace memory

  function Aperture(s: State): real { MaxReal(s.sense.aperture, MIN_APERTURE) }

  function AsInt(x: real, aperture: real): int { if aperture > 0.0 then Truncate(x / aperture) else 0 }

  /** The points recorded, from the sweep time of the enabled block and the averaging interval. */
  function TracePoints(s: State): int {
    if !s.sweep[1].enabled && !s.sweep[2].enabled then 0
    else
      var sweep := if s.sweep[1].enabled then s.sweep[1] else s.sweep[2];
      MinInt(AsInt(sweep.time, Aperture(s)), TRACE_CAPACITY)
  }

  /** One measurement repeated over the recording, each point 0.1 % lower than the first per step. */
  function TraceValues(m: Measured, points: nat): (r: seq<Value>)
    ensures |r| == points
  {
    seq(points, i requires 0 <= i < points => Times(m.value, 1.0 - 0.001 * i as real))
  }

  function TraceStatuses(m: Measured, points: nat): (r: seq<real>)
    ensures |r| == points
  {
    seq(points, _ => BitsValue(m.status) as real)
  }

  function AllTraceValues(ms: seq<Measured>, points: nat): seq<Value> {
    if ms == [] then [] else TraceValues(ms[0], points) + AllTraceValues(ms[1..], points)
  }

  function AllTraceStatuses(ms: seq<Measured>, points: nat): seq<real> {
    if ms == [] then [] else TraceStatuses(ms[0], points) + AllTraceStatuses(ms[1..], points)
  }

  // ------------------------------------------------------------------- common commands

  function CommonKeyOf(header: string): Option<CommonKey> {
    if header == "*IDN" then Some(Idn)
    else if header == "*RST" then Some(Rst)
    else if header == "*CLS" then Some(Cls)
    else if header == "*OPT" then Some(Opt)
    else if header == "*LRN" then Some(Lrn)
    else if header == "*OPC" then Some(Opc)
    else if header == "*WAI" then Some(Wai)
    else if header == "*TRG" then Some(Trg)
    else if header == "*ESE" then Some(Ese)
    else if header == "*ESR" then Some(Esr)
    else if header == "*SRE" then Some(Sre)
    else if header == "*STB" then Some(Stb)
    else if header == "*SAV" then Some(Sav)
    else if header == "*RCL" then Some(Rcl)
    else None
  }

  /** The status byte, given the state after latching the questionable register. */
  function StatusByte(s: State): Bits {
    var summary :=
      When(s.errors != [], {2})
      + When(s.status.questionable.event * Mask(s.status.questionable.enable) != {}, {3})
      + When(s.status.eventStatus * Mask(s.status.eventStatusEnable) != {}, {5});
    summary + When(summary * Mask(s.status.serviceRequestEnable) != {}, {6})
  }

  /** *STB? latches the questionable register on the way. */
  function StatusByteEffect(w: World, s: State, c: Command): Effect {
    var latched := Latched(w, s, Questionable);
    QueryOnly(c, "*STB", Respond(latched, IntText(BitsValue(StatusByte(latched)))))
  }

  function CommonEffect(w: World, s: State, c: Command, key: CommonKey): Effect {
    match key
    case Idn => QueryOnly(c, "*IDN", Respond(s, w.options.identification))
    case Rst => CommandOnly(c, "*RST", Done(ResetState(w.options, s.errors), None))
    case Cls => CommandOnly(c, "*CLS", Done(ClearedStatus(s), None))
    case Opt => QueryOnly(c, "*OPT", Respond(s, w.options.optionsResponse))
    case Lrn => QueryOnly(c, "*LRN", Respond(s,
                  "\"FUNC " + QuoteJoin(s.sense.functions) + ";APER " + w.host.formatSetting(s.sense.aperture) + "\""))
    case Opc =>
      if c.query then Respond(s, "1")
      else Done(s.(status := s.status.(eventStatus := s.status.eventStatus + {0})), None)
    case Wai => CommandOnly(c, "*WAI", Done(s, None))
    case Trg => CommandOnly(c, "*TRG", Done(s.(initiated := true), None))
    case Ese =>
      var a := IntegerAccess(c, s.status.eventStatusEnable, 0, 255);
      Commit(a, s, s.(status := s.status.(eventStatusEnable := a.Or(s.status.eventStatusEnable))))
    case Esr => QueryOnly(c, "*ESR",
                  Done(s.(status := s.status.(eventStatus := {})), Some(IntText(BitsValue(s.status.eventStatus)))))
    case Sre =>
      var a := IntegerAccess(c, s.status.serviceRequestEnable, 0, 255);
      Commit(a, s, s.(status := s.status.(serviceRequestEnable := a.Or(s.status.serviceRequestEnable))))
    case Stb => StatusByteEffect(w, s, c)
    case Sav =>
      var a := IntegerAccess(c, 0, 10, 24);
      CommandOnly(c, "*SAV", Commit(a, s, s.(savedSetups := s.savedSetups + {a.Or(0)})))
    case Rcl =>
      var a := IntegerAccess(c, 0, 1, 24);
      CommandOnly(c, "*RCL", if a.Store? && 2 < a.value < 10 then OutOfRange("*RCL") else Commit(a, s, s))
  }

  // ------------------------------------------------------------------------ subsystems

  function RouteEffect(s: State, c: Command): Effect {
    if c.query then Respond(s, if s.wiring.TwoWattmeter? then "\"2W\"" else "\"3W\"")
    else match c.Argument()
      case None => Missing()
      case Some(text) =>
        if Upper(text) == "3W" then Done(s.(wiring := ThreeWattmeter), None)
        else if Upper(text) == "2W" then Done(s.(wiring := TwoWattmeter), None)
        else Illegal(text)
  }

  function InputEffect(w: World, s: State, c: Command, key: InputKey): Effect {
    var channel := c.Suffix();
    if channel < 1 || channel > w.options.channels then OutOfRange("input channel " + IntText(channel))
    else
      var i := s.inputs[channel];
      match key
      case Coupling =>
        var a := KeywordAccess(c, i.coupling, COUPLINGS);
        Commit(a, s, s.(inputs := s.inputs[channel := i.(coupling := a.Or(i.coupling))]))
      case Gain =>
        var a := NumberAccess(w.host, c, i.gain, 0.0, 1000000000000.0);
        if channel % 2 == 0 then Conflict("GAIN applies to current channels only")
        else Commit(a, s, s.(inputs := s.inputs[channel := i.(gain := a.Or(i.gain))]))
      case Shunt =>
        var a := KeywordAccess(c, i.shunt, SHUNTS);
        if channel % 2 == 0 then Conflict("SHUNt applies to current channels only")
        else Commit(a, s, s.(inputs := s.inputs[channel := i.(shunt := a.Or(i.shunt))]))
      case FilterState =>
        var a := BooleanAccess(c, i.filter);
        Commit(a, s, s.(inputs := s.inputs[channel := i.(filter := a.Or(i.filter))]))
      case FilterFrequency => QueryOnly(c, "INP#:FILT:FREQ", Respond(s, w.host.formatSetting(s.filterFrequency)))
  }

  /** The first listed range that can hold the request, the last one when none can. */
  function SnapRange(ranges: seq<real>, wanted: real): real
    requires |ranges| > 0
  {
    if |ranges| == 1 || ranges[0] >= wanted * 0.999 then ranges[0] else SnapRange(ranges[1..], wanted)
  }

  function RangesOf(o: Options, voltage: bool): RangeSet {
    if voltage then o.voltageRanges else o.currentRanges
  }

  function WithConfig(s: State, voltage: bool, phase: int, config: ChannelConfig): State
    requires 1 <= phase <= MAX_PHASE
  {
    if voltage then s.(sense := s.sense.(voltage := s.sense.voltage[phase := config]))
    else s.(sense := s.sense.(current := s.sense.current[phase := config]))
  }

  function SetRangeEffect(w: World, s: State, c: Command, voltage: bool, phase: int): Effect
    requires 1 <= phase <= MAX_PHASE
  {
    var ranges, config := RangesOf(w.options, voltage), ConfigOf(s, voltage, phase);
    if c.query then Respond(s, w.host.formatSetting(config.range))
    else match c.Argument()
      case None => Missing()
      case Some(text) =>
        match ParseNumber(text)
        case None => Illegal(text)
        case Some(v) =>
          if v < ranges[0] * 0.999 || v > Last(ranges) * 1.001 then OutOfRange(text)
          else Done(WithConfig(s, voltage, phase, config.(range := SnapRange(ranges, v), autorange := false)), None)
  }

  function RangingName(voltage: bool, rest: string): string { (if voltage then "VOLT#" else "CURR#") + rest }

  function RangingEffect(w: World, s: State, c: Command, voltage: bool, key: RangingKey): Effect {
    var phase := c.Suffix();
    if phase < 1 || phase > MAX_PHASE then OutOfRange("phase " + IntText(phase))
    else
      var config := ConfigOf(s, voltage, phase);
      match key
      case Range => SetRangeEffect(w, s, c, voltage, phase)
      case RangeAuto =>
        var a := BooleanAccess(c, config.autorange);
        Commit(a, s, WithConfig(s, voltage, phase, config.(autorange := a.Or(config.autorange))))
      case RangeList => QueryOnly(c, RangingName(voltage, ":RANG:LIST"),
                          Respond(s, Join(FormatSettings(w.host, RangesOf(w.options, voltage)), ',')))
      case Scale =>
        var a := NumberAccess(w.host, c, config.scale, 0.9, 10000000.0);
        Commit(a, s, WithConfig(s, voltage, phase, config.(scale := a.Or(config.scale))))
  }

  function ApertureEffect(w: World, s: State, c: Command): Effect {
    var a := NumberAccess(w.host, c, s.sense.aperture, MIN_APERTURE, MAX_APERTURE);
    Commit(a, s, s.(sense := s.sense.(aperture := a.Or(s.sense.aperture))))
  }

  const ALL_FUNCTIONS := [
    "VOLT1", "VOLT2", "VOLT3", "CURR1", "CURR2", "CURR3", "POW1:ACT", "POW2:ACT", "POW3:ACT", "FREQ", "TIME"]

  function WithFunctions(s: State, functions: seq<string>): State { s.(sense := s.sense.(functions := functions)) }

  function FunctionEffect(s: State, c: Command, key: FunctionKey): Effect {
    match key
    case FunctionList =>
      if c.query then Respond(s, QuoteJoin(s.sense.functions))
      else
        var a := ListParameter(c);
        if a.Store? && !s.sense.concurrent && |a.value| > 1 then Conflict("FUNCtion:CONCurrent is OFF")
        else Commit(a, s, WithFunctions(s, a.Or(s.sense.functions)))
    case FunctionsAll => CommandOnly(c, "FUNC:ALL", Done(WithFunctions(s, ALL_FUNCTIONS), None))
    case FunctionsOff => CommandOnly(c, "FUNC:OFF:ALL", Done(WithFunctions(s, []), None))
    case Concurrent =>
      var a := BooleanAccess(c, s.sense.concurrent);
      var now := a.Or(s.sense.concurrent);
      var kept := if s.sense.concurrent && !now && |s.sense.functions| > 1 then s.sense.functions[..1] else s.sense.functions;
      Commit(a, s, s.(sense := s.sense.(concurrent := now, functions := kept)))
    case FunctionCount => QueryOnly(c, "FUNC:COUN", Respond(s, IntText(|s.sense.functions|)))
  }

  function Answered(s: State, response: Option<string>): Effect {
    match response
    case None => Hang
    case Some(text) => Respond(s, text)
  }

  /** With an explicit list, DATA? also replaces the configured function list. */
  function DataEffect(w: World, s: State, c: Command, withStatus: bool): Effect {
    if !c.query then Undefined(if withStatus then "DATA:STAT" else "DATA")
    else if c.args == [] then Answered(s, MeasurementResponse(w, s, s.sense.functions, withStatus))
    else
      match ListParameter(c)
      case Refuse(code, message) => Reject(code, message)
      case Report(_) => Missing()
      case Store(requested) =>
        var after := WithFunctions(s, requested);
        Answered(after, MeasurementResponse(w, after, requested, withStatus))
  }

  function WithSweep(s: State, block: int, x: SweepConfig): State
    requires 1 <= block <= 2
  {
    s.(sweep := s.sweep[block := x])
  }

  function SweepEffect(w: World, s: State, c: Command, key: SweepKey): Effect {
    var block := c.Suffix();
    if block < 1 || block > 2 then OutOfRange("sweep block " + IntText(block))
    else
      var x := s.sweep[block];
      match key
      case SweepState =>
        var a := BooleanAccess(c, x.enabled);
        Commit(a, s, WithSweep(s, block, x.(enabled := a.Or(x.enabled))))
      case SweepTime =>
        var a := NumberAccess(w.host, c, x.time, 0.001, 3600.0);
        if !c.query && c.Argument().Some? && Upper(c.Argument().value) == "MAX" then
          Done(WithSweep(s, block, x.(time := 3600.0)), None)
        else Commit(a, s, WithSweep(s, block, x.(time := a.Or(x.time))))
      case OffsetTime =>
        var a := NumberAccess(w.host, c, x.offsetTime, -3600.0, 3600.0);
        Commit(a, s, WithSweep(s, block, x.(offsetTime := a.Or(x.offsetTime))))
      case SweepCount =>
        var a := IntegerAccess(c, x.count, 1, 1000000);
        Commit(a, s, WithSweep(s, block, x.(count := a.Or(x.count))))
      case Sparsing =>
        var a := IntegerAccess(c, x.sparsing, 1, 65535);
        Commit(a, s, WithSweep(s, block, x.(sparsing := a.Or(x.sparsing))))
      case SweepFunctions =>
        var a := FunctionListAccess(c, x.functions);
        Commit(a, s, WithSweep(s, block, x.(functions := a.Or(x.functions))))
      case SweepPoints => QueryOnly(c, "SWE#:POINTS", Respond(s, IntText(AsInt(x.time, Aperture(s)))))
      case OffsetPoints => QueryOnly(c, "SWE#:OFFS:POINTS", Respond(s, IntText(AsInt(x.offsetTime, Aperture(s)))))
  }

  /** The source name a SYNC:SOURce parameter stands for. */
  function SyncSourceOf(text: string): Option<string> {
    var token := TokenOf(text);
    var voltage, current := Spelled(token.text, "VOLT", "VOLTAGE"), Spelled(token.text, "CURR", "CURRENT");
    var name := if voltage then "VOLT" else "CURR";
    if Spelled(token.text, "EXT", "EXTERNAL") then Some("EXT")
    else if (voltage || current) && 1 <= token.suffix <= MAX_PHASE then Some(name + IntText(token.suffix))
    else if (voltage || current) && !token.hasSuffix then Some(name + "1")
    else None
  }

  predicate Near(v: real, allowed: real) { Abs(v - allowed) <= allowed * 0.000001 }

  /** Only the three documented cut-off frequencies exist. */
  function CutOff(v: real): Option<real> {
    if Near(v, 100.0) then Some(100.0)
    else if Near(v, 1000.0) then Some(1000.0)
    else if Near(v, 10000.0) then Some(10000.0)
    else None
  }

  function SyncSourceEffect(s: State, c: Command): Effect {
    if c.query then Respond(s, s.sync.source)
    else match c.Argument()
      case None => Missing()
      case Some(text) =>
        match SyncSourceOf(text)
        case None => Illegal(text)
        case Some(source) => Done(s.(sync := s.sync.(source := source)), None)
  }

  function CutOffEffect(w: World, s: State, c: Command): Effect {
    if c.query then Respond(s, w.host.formatSetting(s.sync.filterFrequency))
    else match c.Argument()
      case None => Missing()
      case Some(text) =>
        match ParseNumber(text)
        case None => Illegal(text)
        case Some(v) =>
          match CutOff(v)
          case None => Illegal(text)
          case Some(allowed) => Done(s.(sync := s.sync.(filterFrequency := allowed)), None)
  }

  function SyncEffect(w: World, s: State, c: Command, key: SyncKey): Effect {
    match key
    case SyncState =>
      var a := BooleanAccess(c, s.sync.enabled);
      Commit(a, s, s.(sync := s.sync.(enabled := a.Or(s.sync.enabled))))
    case SyncSource => SyncSourceEffect(s, c)
    case SyncLevel =>
      var limit := if s.sync.unit.Percent? then 150.0 else 1000.0;
      var a := NumberAccess(w.host, c, s.sync.level, -limit, limit);
      Commit(a, s, s.(sync := s.sync.(level := a.Or(s.sync.level))))
    case LevelUnit =>
      var a := KeywordAccess(c, s.sync.unit, LEVEL_UNITS);
      Commit(a, s, s.(sync := s.sync.(unit := a.Or(s.sync.unit))))
    case SyncSlope =>
      var a := KeywordAccess(c, s.sync.slope, SLOPES);
      Commit(a, s, s.(sync := s.sync.(slope := a.Or(s.sync.slope))))
    case SyncFilterState =>
      var a := BooleanAccess(c, s.sync.filter);
      Commit(a, s, s.(sync := s.sync.(filter := a.Or(s.sync.filter))))
    case SyncFilterFrequency => CutOffEffect(w, s, c)
    case SyncTimeout =>
      var a := NumberAccess(w.host, c, s.sync.timeout, 0.015, 3600.0);
      Commit(a, s, s.(sync := s.sync.(timeout := a.Or(s.sync.timeout))))
  }

  function AcquisitionEffect(s: State, c: Command, key: InitiateKey): Effect {
    match key
    case Continuous =>
      var a := BooleanAccess(c, s.continuous);
      Commit(a, s, s.(continuous := a.Or(s.continuous)))
    case Immediate => CommandOnly(c, "INIT", Done(s.(initiated := true), None))
    case Sequence =>
      var block := c.Suffix();
      CommandOnly(c, "INIT:SEQ#",
        if block < 1 || block > 2 then OutOfRange("sequence " + IntText(block))
        else Done(WithSweep(s, block, s.sweep[block].(enabled := true)), None))
    case SequenceName => CommandOnly(c, "INIT:NAME", Done(WithSweep(s, 1, s.sweep[1].(enabled := true)), None))
  }

  function SweepsOff(s: State): State {
    s.(sweep := s.sweep[1 := s.sweep[1].(enabled := false)][2 := s.sweep[2].(enabled := false)])
  }

  function AbortEffect(s: State, c: Command): Effect {
    CommandOnly(c, "ABOR", Done(SweepsOff(s).(initiated := false), None))
  }

  const TIMESTAMP := "yyyy,MM,dd,hh,mm,ss"

  /** The six-part time stamps are checked for presence only. */
  function TimestampEffect(s: State, c: Command, name: string): Effect {
    CommandOnly(c, name, if |c.args| < 6 then Expected(TIMESTAMP) else Done(s, None))
  }

  function TriggerOf(s: State, start: bool): TriggerConfig { if start then s.triggerStart else s.triggerStop }

  function WithTrigger(s: State, start: bool, x: TriggerConfig): State {
    if start then s.(triggerStart := x) else s.(triggerStop := x)
  }

  function TriggerEffect(w: World, s: State, c: Command, start: bool, key: TriggerKey): Effect {
    var x := TriggerOf(s, start);
    match key
    case TriggerSource =>
      var a := TextAccess(c, x.source);
      Commit(a, s, WithTrigger(s, start, x.(source := Upper(a.Or("")))))
    case TriggerLevel =>
      var a := NumberAccess(w.host, c, x.level, -10000000.0, 10000000.0);
      Commit(a, s, WithTrigger(s, start, x.(level := a.Or(x.level))))
    case TriggerSlope =>
      var a := KeywordAccess(c, x.slope, SLOPES);
      Commit(a, s, WithTrigger(s, start, x.(slope := a.Or(x.slope))))
    case TriggerTime => TimestampEffect(s, c, if start then "TRIG:STAR:TIME" else "TRIG:STOP:TIME")
  }

  // --------------------------------------------------------------------------- FORMat

  function FormatOf(word: string): Option<NumberFormat> {
    if word == "ASC" || word == "ASCII" then Some(Ascii)
    else if word == "INT" || word == "INTEGER" then Some(Integer)
    else if word == "REAL" then Some(Real)
    else None
  }

  function FormatWord(f: NumberFormat): string {
    match f
    case Ascii => "ASC"
    case Integer => "INT"
    case Real => "REAL"
  }

  /** A change between text and binary of one setting takes the other along. */
  function Coupled(other: FormatSetting, format: NumberFormat, isData: bool): FormatSetting {
    if other.format.Ascii? == format.Ascii? then other
    else other.(format := if format.Ascii? then Ascii else if isData then Integer else Real)
  }

  function LengthParameter(c: Command, length: int): (a: Access<int>)
    ensures !a.Report? && (a.Refuse? ==> a.code in CODES)
  {
    if |c.args| <= 1 then Store(length)
    else match ParseNumber(c.args[1])
      case None => RefuseWith(Illegal(c.args[1]))
      case Some(v) => Store(Lround(v))
  }

  function TransferFormatEffect(s: State, c: Command, isData: bool): Effect {
    var setting := if isData then s.format.data else s.format.status;
    if c.query then Respond(s, FormatWord(setting.format) + "," + IntText(setting.length))
    else match c.Argument()
      case None => Missing()
      case Some(text) =>
        match FormatOf(Upper(text))
        case None => Illegal(text)
        case Some(format) =>
          var a := LengthParameter(c, setting.length);
          var mine := FormatSetting(format, a.Or(setting.length));
          Commit(a, s, s.(format :=
            if isData then s.format.(data := mine, status := Coupled(s.format.status, format, true))
            else s.format.(status := mine, data := Coupled(s.format.data, format, false))))
  }

  function FormatEffect(s: State, c: Command, key: FormatKey): Effect {
    match key
    case DataFormat => TransferFormatEffect(s, c, true)
    case StatusFormat => TransferFormatEffect(s, c, false)
    case ByteOrder =>
      var a := KeywordAccess(c, s.format.byteOrder, BYTE_ORDERS);
      Commit(a, s, s.(format := s.format.(byteOrder := a.Or(s.format.byteOrder))))
    case Transpose =>
      var a := BooleanAccess(c, s.format.transpose);
      Commit(a, s, s.(format := s.format.(transpose := a.Or(s.format.transpose))))
  }

  function DisplayEffect(s: State, c: Command, key: DisplayKey): Effect {
    match key
    case DisplayState =>
      var a := BooleanAccess(c, s.display.enabled);
      Commit(a, s, s.(display := s.display.(enabled := a.Or(s.display.enabled))))
    case DisplayFunctions =>
      var a := FunctionListAccess(c, s.display.functions);
      Commit(a, s, s.(display := s.display.(functions := a.Or(s.display.functions))))
    case OutputState =>
      var a := BooleanAccess(c, s.display.output);
      if c.Suffix() != 9 then Undefined("OUTPut" + IntText(c.Suffix()))
      else Commit(a, s, s.(display := s.display.(output := a.Or(s.display.output))))
  }

  // --------------------------------------------------------------------------- SYSTem

  const NO_ERROR := "0,\"No error\""

  function EntryText(e: ErrorInfo): (text: string)
    ensures text != ""
  {
    IntText(e.code) + ",\"" + e.message + "\""
  }

  function EntryTexts(errors: seq<ErrorInfo>): (r: seq<string>)
    ensures |r| == |errors|
    ensures forall i :: 0 <= i < |errors| ==> r[i] == EntryText(errors[i])
  {
    seq(|errors|, i requires 0 <= i < |errors| => EntryText(errors[i]))
  }

  function SystemEffect(s: State, c: Command, key: SystemKey, version: string): Effect {
    match key
    case ScpiVersion => QueryOnly(c, "SYST:VERS", Respond(s, version))
    case ErrorNext => QueryOnly(c, "SYST:ERR",
        if s.errors == [] then Respond(s, NO_ERROR)
        else Respond(s.(errors := s.errors[1..]), EntryText(s.errors[0])))
    case ErrorAll => QueryOnly(c, "SYST:ERR:ALL",
        if s.errors == [] then Respond(s, NO_ERROR)
        else Respond(s.(errors := []), Join(EntryTexts(s.errors), ',')))
    case KeyLock =>
      var a := KeywordAccess(c, s.system.keyLock, KEY_LOCKS);
      Commit(a, s, s.(system := s.system.(keyLock := a.Or(s.system.keyLock))))
    case Language =>
      var a := TextAccess(c, "\"" + s.system.language + "\"");
      Commit(a, s, s.(system := s.system.(language := a.Or(s.system.language))))
    case SystemDate => DateEffect(s, c)
    case SystemTime => TimeEffect(s, c)
    case GpibAddress =>
      var a := IntegerAccess(c, s.system.gpibAddress, 1, 30);
      Commit(a, s, s.(system := s.system.(gpibAddress := a.Or(s.system.gpibAddress))))
    case SerialBaud =>
      var a := IntegerAccess(c, s.system.serialBaud, 1200, 115200);
      Commit(a, s, s.(system := s.system.(serialBaud := a.Or(s.system.serialBaud))))
  }

  function ThreeText(a: int, b: int, c: int): string { IntText(a) + "," + IntText(b) + "," + IntText(c) }

  /** The first three arguments as numbers. */
  function ThreeNumbers(args: seq<string>): Option<(real, real, real)>
    requires |args| >= 3
  {
    var a, b, c := ParseNumber(args[0]), ParseNumber(args[1]), ParseNumber(args[2]);
    if a.None? || b.None? || c.None? then None else Some((a.value, b.value, c.value))
  }

  function DateEffect(s: State, c: Command): Effect {
    var d := s.system.date;
    if c.query then Respond(s, ThreeText(d.year, d.month, d.day))
    else if |c.args| < 3 then Expected("year,month,day")
    else match ThreeNumbers(c.args)
      case None => Illegal("SYSTem:DATE")
      case Some((year, month, day)) =>
        if month < 1.0 || month > 12.0 || day < 1.0 || day > 31.0 then OutOfRange("SYSTem:DATE")
        else Done(s.(system := s.system.(date := Date(Truncate(year), Truncate(month), Truncate(day)))), None)
  }

  function TimeEffect(s: State, c: Command): Effect {
    var t := s.system.time;
    if c.query then Respond(s, ThreeText(t.hours, t.minutes, t.seconds))
    else if |c.args| < 3 then Expected("hours,minutes,seconds")
    else match ThreeNumbers(c.args)
      case None => Illegal("SYSTem:TIME")
      case Some((h, m, x)) =>
        if h < 0.0 || h > 23.0 || m < 0.0 || m > 59.0 || x < 0.0 || x > 59.0 then OutOfRange("SYSTem:TIME")
        else Done(s.(system := s.system.(time := Time(Truncate(h), Truncate(m), Truncate(x)))), None)
  }

  // ------------------------------------------------------------------------ CALCulate

  /** An even number of cycles. */
  function CyclesEffect(s: State, c: Command): Effect {
    var a := IntegerAccess(c, s.transform.cycles, 4, 12);
    if a.Store? && a.value % 2 != 0 then Illegal(IntText(a.value))
    else Commit(a, s, s.(transform := s.transform.(cycles := a.Or(s.transform.cycles))))
  }

  function TransformEffect(w: World, s: State, c: Command, key: TransformKey): Effect {
    var x := s.transform;
    match key
    case TransformOnce =>
      if c.query then Undefined("CALC:TRAN:FREQ:STAT")
      else (match c.Argument()
        case None => Missing()
        case Some(text) => if Spelled(Upper(text), "ONCE", "ONCE") then Done(s, None) else Illegal(text))
    case TransformMode =>
      var a := KeywordAccess(c, x.mode, TRANSFORM_MODES);
      Commit(a, s, s.(transform := x.(mode := a.Or(x.mode))))
    case TransformFunctions =>
      var a := FunctionListAccess(c, x.functions);
      Commit(a, s, s.(transform := x.(functions := a.Or(x.functions))))
    case TransformStart =>
      var a := NumberAccess(w.host, c, x.start, 0.0, 1000000.0);
      Commit(a, s, s.(transform := x.(start := a.Or(x.start))))
    case TransformStop =>
      var a := NumberAccess(w.host, c, x.stop, 0.0, 1000000.0);
      Commit(a, s, s.(transform := x.(stop := a.Or(x.stop))))
    case TransformCycles => CyclesEffect(s, c)
    case TransformGrouping =>
      var a := KeywordAccess(c, x.grouping, GROUPINGS);
      Commit(a, s, s.(transform := x.(grouping := a.Or(x.grouping))))
  }

  const SPECTRUM_LINES := 32

  /** A decaying series: line n carries the fundamental over n squared. */
  function Spectrum(fundamental: real): (r: seq<Value>)
    ensures |r| == SPECTRUM_LINES
  {
    seq(SPECTRUM_LINES, i requires 0 <= i < SPECTRUM_LINES => Num(fundamental / ((i + 1) * (i + 1)) as real))
  }

  function SpectrumEffect(w: World, s: State, c: Command, key: SpectrumKey): Effect {
    match key
    case SpectrumData =>
      if !c.query then Undefined("CALC:DATA")
      else (match ReadWindow(c.args, 0)
        case Refuse(code, message) => Reject(code, message)
        case Report(_) => Missing()
        case Store(x) =>
          var fundamental := if w.signal.present then w.signal.phases[0].voltageRms else 0.0;
          Respond(s, Join(FormatValues(w.host, s, Window(Spectrum(fundamental), x.count, x.offset, x.sparsing)), ',')))
    case SpectrumPreamble => QueryOnly(c, "CALC:DATA:PRE", Respond(s,
        IntText(SPECTRUM_LINES) + "," + IntText(MaxInt(|s.transform.functions|, 1)) + ","
        + w.host.formatSetting(w.signal.frequency) + "," + w.host.formatSetting(s.transform.start)))
    case SpectrumThd => QueryOnly(c, "CALC:DATA:THD",
        if !s.transform.mode.Std? then Conflict("THD requires TRANsform:FREQuency:MODE STD")
        else Respond(s, Join(FormatSettings(w.host,
          [w.signal.phases[0].voltageThd, w.signal.phases[1].voltageThd, w.signal.phases[2].voltageThd]), ',')))
  }

  function IntegralEffect(w: World, s: State, c: Command, key: IntegralKey): Effect {
    var x := s.integral;
    match key
    case IntegralState =>
      var a := BooleanAccess(c, x.enabled);
      Commit(a, s, s.(integral := x.(enabled := a.Or(x.enabled))))
    case IntegralFunctions =>
      var a := FunctionListAccess(c, x.functions);
      Commit(a, s, s.(integral := x.(functions := a.Or(x.functions))))
    case ClearNow => CommandOnly(c, "CALC:INT:CLE", Done(s.(system := s.system.(timerSeconds := 0.0)), None))
    case ClearAuto =>
      var a := BooleanAccess(c, x.autoClear);
      Commit(a, s, s.(integral := x.(autoClear := a.Or(x.autoClear))))
    case StartSource =>
      var a := KeywordAccess(c, x.startSource, START_SOURCES);
      Commit(a, s, s.(integral := x.(startSource := a.Or(x.startSource))))
    case StopSource =>
      var a := KeywordAccess(c, x.stopSource, STOP_SOURCES);
      Commit(a, s, s.(integral := x.(stopSource := a.Or(x.stopSource))))
    case StartNow => CommandOnly(c, "CALC:INT:STAR",
        if !x.enabled then Conflict("CALCulate:INTegral:STATe is OFF")
        else Done(s.(integral := x.(running := true)), None))
    case StopNow => CommandOnly(c, "CALC:INT:STOP", Done(s.(integral := x.(running := false)), None))
    case StartTime => TimestampEffect(s, c, "CALC:INT:STAR:TIME")
    case StopTime => TimestampEffect(s, c, "CALC:INT:STOP:TIME")
    case StopInterval =>
      var a := NumberAccess(w.host, c, x.stopInterval, 0.001, 9990000.0);
      Commit(a, s, s.(integral := x.(stopInterval := a.Or(x.stopInterval))))
  }

  function HarmonicOrderEffect(s: State, c: Command): Effect {
    var a := IntegerAccess(c, s.power.harmonicOrder, 0, 100);
    Commit(a, s, s.(power := s.power.(harmonicOrder := a.Or(s.power.harmonicOrder))))
  }

  function CorrectionEffect(s: State, c: Command): Effect {
    var a := KeywordAccess(c, s.power.correction, CORRECTIONS);
    Commit(a, s, s.(power := s.power.(correction := a.Or(s.power.correction))))
  }

  function ReferenceEffect(s: State, c: Command): Effect {
    var suffix := c.AggregateSuffix();
    if suffix != 0 && suffix != 460 then Undefined("CALCulate:POWer" + IntText(suffix))
    else if c.query then Respond(s, "\"" + s.power.efficiencyInput + "\",\"" + s.power.efficiencyOutput + "\"")
    else if |c.args| < 2 then Expected("<function1>,<function2>")
    else Done(s.(power := s.power.(efficiencyInput := Upper(Unquote(c.args[0])), efficiencyOutput := Upper(Unquote(c.args[1])))), None)
  }

  // ---------------------------------------------------------------------------- TRACe

  function BlockParameter(c: Command): (a: Access<int>)
    ensures !a.Report? && (a.Refuse? ==> a.code in CODES)
  {
    if c.args == [] then RefuseWith(Expected("<block>"))
    else match ParseNumber(c.args[0])
      case None => RefuseWith(Illegal(c.args[0]))
      case Some(v) => if v == 1.0 then Store(1) else if v == 2.0 then Store(2) else RefuseWith(Illegal(c.args[0]))
  }

  function Preamble(w: World, s: State, x: SweepConfig): string {
    IntText(TracePoints(s)) + "," + IntText(MaxInt(|x.functions|, 1)) + ","
    + w.host.formatSetting(s.sense.aperture) + "," + w.host.formatSetting(x.offsetTime)
  }

  /** The recording of one block, cut to the requested window. */
  function TraceResponse(w: World, s: State, x: SweepConfig, statuses: bool, window: WindowArguments): Option<string> {
    match MeasureAll(w, s, if x.functions == [] then s.sense.functions else x.functions)
    case None => None
    case Some(ms) =>
      var points := MaxInt(TracePoints(s), 0);
      Some(if statuses
        then Join(FormatSettings(w.host, Window(AllTraceStatuses(ms, points), window.count, window.offset, window.sparsing)), ',')
        else Join(FormatValues(w.host, s, Window(AllTraceValues(ms, points), window.count, window.offset, window.sparsing)), ','))
  }

  function TraceName(key: TraceKey): string {
    match key
    case TracePreamble => "TRAC:PRE"
    case TraceStatus => "TRAC:STAT"
    case TraceFree => "TRAC:FREE"
    case TraceLength => "TRAC:CAT:LEN"
    case TraceDelete => "TRAC:DEL:ALL"
    case TraceData => "TRAC"
  }

  function TraceEffect(w: World, s: State, c: Command, key: TraceKey): Effect {
    match key
    case TraceFree => QueryOnly(c, TraceName(key), Respond(s, IntText(TRACE_CAPACITY - TracePoints(s))))
    case TraceLength => QueryOnly(c, TraceName(key), Respond(s, IntText(TracePoints(s))))
    case TraceDelete => CommandOnly(c, TraceName(key), Done(SweepsOff(s), None))
    case _ => RecordingEffect(w, s, c, key)
  }

  function RecordingEffect(w: World, s: State, c: Command, key: TraceKey): Effect {
    if !c.query then Undefined(TraceName(key))
    else match BlockParameter(c)
      case Refuse(code, message) => Reject(code, message)
      case Report(_) => Missing()
      case Store(block) =>
        var x := if block == 1 then s.sweep[1] else s.sweep[2];
        if key.TracePreamble? then Respond(s, Preamble(w, s, x))
        else match ReadWindow(c.args, 1)
          case Refuse(code, message) => Reject(code, message)
          case Report(_) => Missing()
          case Store(window) => Answered(s, TraceResponse(w, s, x, key.TraceStatus?, window))
  }

  // --------------------------------------------------------------------- STATus, TIMer

  function RegisterName(r: Register): string {
    match r
    case Operation => "OPER"
    case Questionable => "QUES"
    case QuestionableVoltage => "QUES:VOLT"
    case QuestionableCurrent => "QUES:CURR"
  }

  function WithRegister(s: State, r: Register, x: RegisterState): State { s.(status := s.status.Set(r, x)) }

  /** Reading the EVENt part latches, reports and clears it. */
  function EventEffect(w: World, s: State, c: Command, r: Register): Effect {
    var latched := Latch(s.status.Get(r), ConditionOf(w, s, r));
    QueryOnly(c, "STAT:" + RegisterName(r) + ":EVEN",
      Done(WithRegister(s, r, latched.(event := {})), Some(IntText(BitsValue(latched.event)))))
  }

  function StatusEffect(w: World, s: State, c: Command, r: Register, part: RegisterPart): Effect {
    var x := s.status.Get(r);
    match part
    case Condition => QueryOnly(c, "STAT:" + RegisterName(r) + ":COND", Respond(s, IntText(BitsValue(ConditionOf(w, s, r)))))
    case Event => EventEffect(w, s, c, r)
    case Enable =>
      var a := IntegerAccess(c, x.enable, 0, 65535);
      Commit(a, s, WithRegister(s, r, x.(enable := a.Or(x.enable))))
    case PositiveTransition =>
      var a := IntegerAccess(c, x.ptransition, 0, 65535);
      Commit(a, s, WithRegister(s, r, x.(ptransition := a.Or(x.ptransition))))
    case NegativeTransition =>
      var a := IntegerAccess(c, x.ntransition, 0, 65535);
      Commit(a, s, WithRegister(s, r, x.(ntransition := a.Or(x.ntransition))))
  }

  function TimerEffect(w: World, s: State, c: Command, key: TimerKey): Effect {
    match key
    case ResetNow => CommandOnly(c, "TIM:RES", Done(s.(system := s.system.(timerSeconds := 0.0)), None))
    case ResetTime => QueryOnly(c, "TIM:RES:TIME", Respond(s, w.host.formatSetting(s.system.timerSeconds)))
    case ResetAuto => Undefined("TIMer:RESet:AUTO")
  }

  // ------------------------------------------------------------------------ every command

  function EffectOf(w: World, s: State, c: Command): Effect {
    match c.key
    case Common(key) => CommonEffect(w, s, c, key)
    case Abort => AbortEffect(s, c)
    case RouteSystem => RouteEffect(s, c)
    case Input(key) => InputEffect(w, s, c, key)
    case Ranging(voltage, key) => RangingEffect(w, s, c, voltage, key)
    case Aperture => ApertureEffect(w, s, c)
    case SamplingFrequency => QueryOnly(c, "SWE:FREQ", Respond(s, w.host.formatSetting(s.sense.samplingFrequency)))
    case Functions(key) => FunctionEffect(s, c, key)
    case Data(withStatus) => DataEffect(w, s, c, withStatus)
    case Sweep(key) => SweepEffect(w, s, c, key)
    case Sync(key) => SyncEffect(w, s, c, key)
    case Initiate(key) => AcquisitionEffect(s, c, key)
    case Trigger(start, key) => TriggerEffect(w, s, c, start, key)
    case Transform(key) => TransformEffect(w, s, c, key)
    case Spectrum(key) => SpectrumEffect(w, s, c, key)
    case Integral(key) => IntegralEffect(w, s, c, key)
    case HarmonicOrder => HarmonicOrderEffect(s, c)
    case PowerCorrection => CorrectionEffect(s, c)
    case EfficiencyReference => ReferenceEffect(s, c)
    case Trace(key) => TraceEffect(w, s, c, key)
    case Format(key) => FormatEffect(s, c, key)
    case Display(key) => DisplayEffect(s, c, key)
    case System(key) => SystemEffect(s, c, key, w.options.scpiVersion)
    case Status(r, part) => StatusEffect(w, s, c, r, part)
    case Timer(key) => TimerEffect(w, s, c, key)
  }
}
