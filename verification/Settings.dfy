/** What is set is what is reported: for every setting of the instrument, a query right after an accepted command
    answers with the normal form of the value that was given. */
module Settings {
  import opened Wrappers
  import opened Text
  import opened Decimal
  import opened Pattern
  import opened Commands
  import opened Instrument
  import opened Effects

  /** How the value of a setting is given and reported. `Nearest` is a number replaced by one of a list, `Transfer` a
      format with a length that may be left out, `Pair` two names, `Triple` a date or a time. */
  datatype Kind =
    | Numeric | Whole | Switch | Choice(words: seq<(string, string)>) | Names
    | Bounded | Nearest(ranges: RangeSet) | Filter | Source | Capitals | Free | Wiring | Transfer(length: int) | Pair | Triple

  /** The spellings of a keyword table, without its values. */
  function Spellings<T>(words: seq<Keyword<T>>): seq<(string, string)> {
    if words == [] then [] else [(words[0].short, words[0].long)] + Spellings(words[1..])
  }

  function CommonKind(key: CommonKey): Option<Kind> { if key.Ese? || key.Sre? then Some(Whole) else None }

  function InputKind(key: InputKey): Option<Kind> {
    match key
    case Coupling => Some(Choice(Spellings(COUPLINGS)))
    case Gain => Some(Numeric)
    case Shunt => Some(Choice(Spellings(SHUNTS)))
    case FilterState => Some(Switch)
    case FilterFrequency => None
  }

  function RangingKind(o: Options, voltage: bool, key: RangingKey): Option<Kind> {
    match key
    case RangeAuto => Some(Switch)
    case Range => Some(Nearest(RangesOf(o, voltage)))
    case Scale => Some(Numeric)
    case RangeList => None
  }

  function SweepKind(key: SweepKey): Option<Kind> {
    match key
    case SweepState => Some(Switch)
    case SweepTime => Some(Bounded)
    case OffsetTime => Some(Numeric)
    case SweepCount => Some(Whole)
    case Sparsing => Some(Whole)
    case SweepFunctions => Some(Names)
    case _ => None
  }

  function SyncKind(key: SyncKey): Option<Kind> {
    match key
    case SyncState => Some(Switch)
    case SyncLevel => Some(Numeric)
    case LevelUnit => Some(Choice(Spellings(LEVEL_UNITS)))
    case SyncSlope => Some(Choice(Spellings(SLOPES)))
    case SyncFilterState => Some(Switch)
    case SyncTimeout => Some(Numeric)
    case SyncSource => Some(Source)
    case SyncFilterFrequency => Some(Filter)
  }

  function TriggerKind(key: TriggerKey): Option<Kind> {
    match key
    case TriggerSource => Some(Capitals)
    case TriggerLevel => Some(Numeric)
    case TriggerSlope => Some(Choice(Spellings(SLOPES)))
    case TriggerTime => None
  }

  function TransformKind(key: TransformKey): Option<Kind> {
    match key
    case TransformMode => Some(Choice(Spellings(TRANSFORM_MODES)))
    case TransformFunctions => Some(Names)
    case TransformStart => Some(Numeric)
    case TransformStop => Some(Numeric)
    case TransformCycles => Some(Whole)
    case TransformGrouping => Some(Choice(Spellings(GROUPINGS)))
    case TransformOnce => None
  }

  function IntegralKind(key: IntegralKey): Option<Kind> {
    match key
    case IntegralState => Some(Switch)
    case IntegralFunctions => Some(Names)
    case ClearAuto => Some(Switch)
    case StartSource => Some(Choice(Spellings(START_SOURCES)))
    case StopSource => Some(Choice(Spellings(STOP_SOURCES)))
    case StopInterval => Some(Numeric)
    case _ => None
  }

  function DisplayKind(key: DisplayKey): Option<Kind> { Some(if key.DisplayFunctions? then Names else Switch) }

  function SystemKind(key: SystemKey): Option<Kind> {
    match key
    case KeyLock => Some(Choice(Spellings(KEY_LOCKS)))
    case GpibAddress => Some(Whole)
    case SerialBaud => Some(Whole)
    case SystemDate => Some(Triple)
    case SystemTime => Some(Triple)
    case Language => Some(Free)
    case _ => None
  }

  function FormatKind(f: FormatConfig, key: FormatKey): Kind {
    match key
    case DataFormat => Transfer(f.data.length)
    case StatusFormat => Transfer(f.status.length)
    case ByteOrder => Choice(Spellings(BYTE_ORDERS))
    case Transpose => Switch
  }

  /** Every setting that a command with parameters stores and a query reports, and how it is given. */
  function KindOf(o: Options, f: FormatConfig, key: Key): Option<Kind> {
    match key
    case Common(k) => CommonKind(k)
    case RouteSystem => Some(Wiring)
    case Input(k) => InputKind(k)
    case Ranging(voltage, k) => RangingKind(o, voltage, k)
    case Aperture => Some(Numeric)
    case Functions(k) => if k.Concurrent? then Some(Switch) else if k.FunctionList? then Some(Names) else None
    case Sweep(k) => SweepKind(k)
    case Sync(k) => SyncKind(k)
    case Initiate(k) => if k.Continuous? then Some(Switch) else None
    case Trigger(_, k) => TriggerKind(k)
    case Transform(k) => TransformKind(k)
    case Integral(k) => IntegralKind(k)
    case HarmonicOrder => Some(Whole)
    case PowerCorrection => Some(Choice(Spellings(CORRECTIONS)))
    case EfficiencyReference => Some(Pair)
    case Format(k) => Some(FormatKind(f, k))
    case Display(k) => DisplayKind(k)
    case System(k) => SystemKind(k)
    case Status(_, part) => if part.Condition? || part.Event? then None else Some(Whole)
    case _ => None
  }

  /** The short form of the first keyword spelled like this. */
  function ShortOf(words: seq<(string, string)>, wanted: string): Option<string> {
    if words == [] then None
    else if wanted == words[0].0 || wanted == words[0].1 then Some(words[0].0)
    else ShortOf(words[1..], wanted)
  }

  /** The names of the numeric limits of a number, beside numbers themselves. */
  function BoundedNumber(text: string): Option<real> {
    if Upper(text) == "MAX" then Some(3600.0) else ParseNumber(text)
  }

  /** A number in its normal form. */
  function NumberForm(h: Host, kind: Kind, text: string): Option<real> {
    match if kind.Bounded? then BoundedNumber(text) else ParseNumber(text)
    case None => None
    case Some(v) =>
      if kind.Nearest? then Some(SnapRange(kind.ranges, v)) else if kind.Filter? then CutOff(v) else Some(v)
  }

  function TransferForm(c: Command, text: string, length: int): Option<string> {
    var given := LengthParameter(c, length);
    match FormatOf(Upper(text))
    case None => None
    case Some(format) => if given.Store? then Some(FormatWord(format) + "," + IntText(given.value)) else None
  }

  /** Several parameters in their normal form: names quoted in upper case, numbers without their fractions. */
  function ListForm(kind: Kind, args: seq<string>): Option<string> {
    match kind
    case Pair =>
      if |args| < 2 then None
      else Some("\"" + Upper(Unquote(args[0])) + "\",\"" + Upper(Unquote(args[1])) + "\"")
    case Triple =>
      if |args| < 3 || ThreeNumbers(args).None? then None
      else var x := ThreeNumbers(args).value; Some(ThreeText(Truncate(x.0), Truncate(x.1), Truncate(x.2)))
    case _ => Some(QuoteJoin(FunctionNames(args)))
  }

  /** One parameter in its normal form: numbers as the instrument prints them, integers rounded, switches as 1 and 0,
      keywords in their short form. */
  function TextForm(h: Host, kind: Kind, c: Command, text: string): Option<string> {
    match kind
    case Whole => (match ParseNumber(text) case None => None case Some(v) => Some(IntText(Lround(v))))
    case Switch => (match ParseBoolean(text) case None => None case Some(b) => Some(BoolText(b)))
    case Choice(words) => ShortOf(words, Upper(text))
    case Source => SyncSourceOf(text)
    case Capitals => Some(Upper(text))
    case Free => Some("\"" + text + "\"")
    case Wiring => if Upper(text) == "3W" || Upper(text) == "2W" then Some("\"" + Upper(text) + "\"") else None
    case Transfer(length) => TransferForm(c, text, length)
    case _ => (match NumberForm(h, kind, text) case None => None case Some(v) => Some(h.formatSetting(v)))
  }

  /** The normal form of the value a command gives. */
  function NormalForm(h: Host, kind: Kind, c: Command): Option<string> {
    if kind.Names? || kind.Pair? || kind.Triple? then ListForm(kind, c.args)
    else if c.Argument().None? then None
    else TextForm(h, kind, c, c.Argument().value)
  }

  function QueryOf(c: Command): Command { c.(query := true, args := []) }

  /** After the command `c` led to `e`, the query after it answered `again`: the normal form of what was given. */
  predicate ReadsBack(h: Host, c: Command, kind: Kind, e: Effect, again: Effect) {
    e.Done? ==>
      e.response.None? && NormalForm(h, kind, c).Some? && again == Respond(e.state, NormalForm(h, kind, c).value)
  }

  // ---------------------------------------------------------------------------- keyword tables

  ghost predicate Distinct<T(!new)>(words: seq<Keyword<T>>) {
    forall i, j :: 0 <= i < j < |words| ==> words[i].value != words[j].value
  }

  lemma {:induction false} FoundIsListed<T(!new)>(words: seq<Keyword<T>>, wanted: string)
    requires FindKeyword(words, wanted).Some?
    ensures exists i :: 0 <= i < |words| && words[i].value == FindKeyword(words, wanted).value
  {
    if wanted != words[0].short && wanted != words[0].long {
      FoundIsListed(words[1..], wanted);
      var i :| 0 <= i < |words[1..]| && words[1..][i].value == FindKeyword(words, wanted).value;
      assert words[i + 1].value == FindKeyword(words, wanted).value;
    }
  }

  /** A keyword that was found is reported in its short form. */
  lemma {:induction false} FoundIsSpelled<T(!new)>(words: seq<Keyword<T>>, wanted: string)
    requires Distinct(words)
    ensures FindKeyword(words, wanted).Some? ==>
              ShortOf(Spellings(words), wanted) == Some(SpellingOf(words, FindKeyword(words, wanted).value))
  {
    if words != [] {
      var listed := Spellings(words);
      assert listed[0] == (words[0].short, words[0].long) && listed[1..] == Spellings(words[1..]);
      if wanted != words[0].short && wanted != words[0].long && FindKeyword(words, wanted).Some? {
        FoundIsSpelled(words[1..], wanted);
        FoundIsListed(words[1..], wanted);
        var i :| 0 <= i < |words[1..]| && words[1..][i].value == FindKeyword(words, wanted).value;
        assert words[1..][i] == words[i + 1];
      }
    }
  }

  /** Storing a keyword and reporting it. */
  lemma KeywordReadsBack<T(!new)>(h: Host, c: Command, field: T, words: seq<Keyword<T>>)
    requires Distinct(words) && !c.query
    ensures var a := KeywordAccess(c, field, words);
            a.Store? ==>
              && NormalForm(h, Choice(Spellings(words)), c).Some?
              && KeywordAccess(QueryOf(c), a.value, words) == Report(NormalForm(h, Choice(Spellings(words)), c).value)
  {
    hide Unquote, Upper, Spellings, ShortOf, FindKeyword, SpellingOf, Distinct;
    if c.Argument().Some? { FoundIsSpelled(words, Upper(c.Argument().value)); }
  }

  lemma TablesAreDistinct()
    ensures Distinct(COUPLINGS) && Distinct(SHUNTS) && Distinct(LEVEL_UNITS) && Distinct(SLOPES) && Distinct(BYTE_ORDERS)
    ensures Distinct(KEY_LOCKS) && Distinct(TRANSFORM_MODES) && Distinct(CORRECTIONS) && Distinct(START_SOURCES)
  {}

  lemma MoreTablesAreDistinct()
    ensures Distinct(GROUPINGS) && Distinct(STOP_SOURCES)
  {}

  /** Storing a number, an integer, a switch or a list of names, and reporting it. */
  lemma ValuesReadBack(h: Host, c: Command)
    requires !c.query
    ensures forall field, min, max ::
              var a := NumberAccess(h, c, field, min, max);
              a.Store? ==> NormalForm(h, Numeric, c) == Some(h.formatSetting(a.value))
    ensures forall field: int, min, max ::
              var a := IntegerAccess(c, field, min, max);
              a.Store? ==> NormalForm(h, Whole, c) == Some(IntText(a.value))
    ensures forall field :: var a := BooleanAccess(c, field); a.Store? ==> NormalForm(h, Switch, c) == Some(BoolText(a.value))
    ensures forall field ::
              var a := FunctionListAccess(c, field);
              a.Store? ==> NormalForm(h, Names, c) == Some(QuoteJoin(a.value))
  {
    hide ParseNumber, ParseBoolean, Unquote, IntText, BoolText, QuoteJoin, FunctionNames, FirstUnquoted;
  }

  /** What a query of each kind reports. */
  lemma QueriesReport(h: Host, c: Command)
    requires c.query
    ensures forall field, min, max :: NumberAccess(h, c, field, min, max) == Report(h.formatSetting(field))
    ensures forall field: int, min, max :: IntegerAccess(c, field, min, max) == Report(IntText(field))
    ensures forall field :: BooleanAccess(c, field) == Report(BoolText(field))
    ensures forall field :: FunctionListAccess(c, field) == Report(QuoteJoin(field))
  {
    hide IntText, BoolText, QuoteJoin;
  }

  // ------------------------------------------------------------------------------- subsystems

  lemma MasksReadBack(w: World, s: State, c: Command, key: CommonKey)
    requires CommonKind(key).Some? && !c.query
    ensures var e := CommonEffect(w, s, c, key); e.Done? ==>
              ReadsBack(w.host, c, CommonKind(key).value, e, CommonEffect(w, e.state, QueryOf(c), key))
  {
    hide NumberAccess, IntegerAccess, NormalForm, IntText, StatusByteEffect, QuoteJoin, ClearedStatus, ResetState, BitsValue;
    ValuesReadBack(w.host, c);
    QueriesReport(w.host, QueryOf(c));
  }

  lemma InputReadsBack(w: World, s: State, c: Command, key: InputKey)
    requires InputKind(key).Some? && !c.query
    ensures var e := InputEffect(w, s, c, key); e.Done? ==>
              ReadsBack(w.host, c, InputKind(key).value, e, InputEffect(w, e.state, QueryOf(c), key))
  {
    hide NumberAccess, BooleanAccess, KeywordAccess, NormalForm, IntText, Spellings, Distinct;
    ValuesReadBack(w.host, c);
    QueriesReport(w.host, QueryOf(c));
    TablesAreDistinct();
    if 1 <= c.Suffix() <= w.options.channels {
      KeywordReadsBack(w.host, c, s.inputs[c.Suffix()].coupling, COUPLINGS);
      KeywordReadsBack(w.host, c, s.inputs[c.Suffix()].shunt, SHUNTS);
    }
  }

  /** A range asked for is replaced by the one that is used for it. */
  lemma RangeReadsBack(w: World, s: State, c: Command, voltage: bool)
    requires 1 <= c.Suffix() <= MAX_PHASE && !c.query
    ensures var e := SetRangeEffect(w, s, c, voltage, c.Suffix()); e.Done? ==>
              ReadsBack(w.host, c, Nearest(RangesOf(w.options, voltage)), e, SetRangeEffect(w, e.state, QueryOf(c), voltage, c.Suffix()))
  {
    hide ParseNumber, SnapRange, Unquote;
  }

  lemma WiringReadsBack(w: World, s: State, c: Command)
    requires !c.query
    ensures var e := RouteEffect(s, c); e.Done? ==> ReadsBack(w.host, c, Wiring, e, RouteEffect(e.state, QueryOf(c)))
  {
    hide Unquote, Upper;
    assert "\"" + "3W" + "\"" == "\"3W\"" && "\"" + "2W" + "\"" == "\"2W\"";
  }

  lemma RangingReadsBack(w: World, s: State, c: Command, voltage: bool, key: RangingKey)
    requires RangingKind(w.options, voltage, key).Some? && !c.query
    ensures var e := RangingEffect(w, s, c, voltage, key); e.Done? ==>
              ReadsBack(w.host, c, RangingKind(w.options, voltage, key).value, e, RangingEffect(w, e.state, QueryOf(c), voltage, key))
  {
    hide NumberAccess, BooleanAccess, NormalForm, IntText, SetRangeEffect, FormatSettings, Join;
    if key.Range? && 1 <= c.Suffix() <= MAX_PHASE { RangeReadsBack(w, s, c, voltage); }
    ValuesReadBack(w.host, c);
    QueriesReport(w.host, QueryOf(c));
  }

  lemma SenseReadsBack(w: World, s: State, c: Command)
    requires !c.query
    ensures var e := ApertureEffect(w, s, c); e.Done? ==> ReadsBack(w.host, c, Numeric, e, ApertureEffect(w, e.state, QueryOf(c)))
    ensures var e := FunctionEffect(s, c, Concurrent); e.Done? ==>
              ReadsBack(w.host, c, Switch, e, FunctionEffect(e.state, QueryOf(c), Concurrent))
    ensures var e := FunctionEffect(s, c, FunctionList); e.Done? ==>
              ReadsBack(w.host, c, Names, e, FunctionEffect(e.state, QueryOf(c), FunctionList))
  {
    hide NumberAccess, BooleanAccess, NormalForm, IntText, QuoteJoin, ListParameter;
    ValuesReadBack(w.host, c);
    QueriesReport(w.host, QueryOf(c));
    assert FunctionListAccess(c, []) == ListParameter(c);
  }

  /** A number or the name of its limit. */
  lemma BoundedReadsBack(h: Host, c: Command)
    requires !c.query
    ensures var limit := c.Argument().Some? && Upper(c.Argument().value) == "MAX";
            && (limit ==> NormalForm(h, Bounded, c) == Some(h.formatSetting(3600.0)))
            && (!limit ==> forall field, min, max ::
                  var a := NumberAccess(h, c, field, min, max);
                  a.Store? ==> NormalForm(h, Bounded, c) == Some(h.formatSetting(a.value)))
  {
    hide ParseNumber, Unquote, Upper;
  }

  lemma SweepReadsBack(w: World, s: State, c: Command, key: SweepKey)
    requires SweepKind(key).Some? && !c.query
    ensures var e := SweepEffect(w, s, c, key); e.Done? ==>
              ReadsBack(w.host, c, SweepKind(key).value, e, SweepEffect(w, e.state, QueryOf(c), key))
  {
    hide NumberAccess, IntegerAccess, BooleanAccess, FunctionListAccess, NormalForm, IntText, AsInt, Effects.Aperture, Upper, Unquote;
    ValuesReadBack(w.host, c);
    QueriesReport(w.host, QueryOf(c));
    BoundedReadsBack(w.host, c);
  }

  /** A source in its short form, a cut-off frequency as the documented one it is close to. */
  lemma SourceReadsBack(w: World, s: State, c: Command)
    requires !c.query
    ensures var e := SyncSourceEffect(s, c); e.Done? ==> ReadsBack(w.host, c, Source, e, SyncSourceEffect(e.state, QueryOf(c)))
    ensures var e := CutOffEffect(w, s, c); e.Done? ==> ReadsBack(w.host, c, Filter, e, CutOffEffect(w, e.state, QueryOf(c)))
  {
    hide ParseNumber, SyncSourceOf, CutOff, Unquote;
  }

  lemma SyncReadsBack(w: World, s: State, c: Command, key: SyncKey)
    requires SyncKind(key).Some? && !c.query
    ensures var e := SyncEffect(w, s, c, key); e.Done? ==>
              ReadsBack(w.host, c, SyncKind(key).value, e, SyncEffect(w, e.state, QueryOf(c), key))
  {
    hide NumberAccess, BooleanAccess, KeywordAccess, NormalForm, SyncSourceEffect, CutOffEffect, Spellings, Distinct;
    SourceReadsBack(w, s, c);
    ValuesReadBack(w.host, c);
    QueriesReport(w.host, QueryOf(c));
    TablesAreDistinct();
    KeywordReadsBack(w.host, c, s.sync.unit, LEVEL_UNITS);
    KeywordReadsBack(w.host, c, s.sync.slope, SLOPES);
  }

  lemma ContinuousReadsBack(w: World, s: State, c: Command)
    requires !c.query
    ensures var e := AcquisitionEffect(s, c, Continuous); e.Done? ==>
              ReadsBack(w.host, c, Switch, e, AcquisitionEffect(e.state, QueryOf(c), Continuous))
  {
    hide BooleanAccess, NormalForm, IntText;
    ValuesReadBack(w.host, c);
    QueriesReport(w.host, QueryOf(c));
  }

  /** Free text. */
  lemma TextsReadBack(h: Host, c: Command)
    requires !c.query
    ensures forall report :: var a := TextAccess(c, report); !a.Report? && (a.Store? ==>
              && NormalForm(h, Capitals, c) == Some(Upper(a.value))
              && NormalForm(h, Free, c) == Some("\"" + a.value + "\""))
    ensures forall report :: TextAccess(QueryOf(c), report) == Report(report)
  {
    hide Unquote, Upper;
  }

  lemma TriggerReadsBack(w: World, s: State, c: Command, start: bool, key: TriggerKey)
    requires TriggerKind(key).Some? && !c.query
    ensures var e := TriggerEffect(w, s, c, start, key); e.Done? ==>
              ReadsBack(w.host, c, TriggerKind(key).value, e, TriggerEffect(w, e.state, QueryOf(c), start, key))
  {
    hide NumberAccess, KeywordAccess, TextAccess, TimestampEffect, NormalForm, Spellings, Distinct, Upper;
    TextsReadBack(w.host, c);
    ValuesReadBack(w.host, c);
    QueriesReport(w.host, QueryOf(c));
    TablesAreDistinct();
    KeywordReadsBack(w.host, c, TriggerOf(s, start).slope, SLOPES);
  }

  lemma TransformReadsBack(w: World, s: State, c: Command, key: TransformKey)
    requires TransformKind(key).Some? && !c.query
    ensures var e := TransformEffect(w, s, c, key); e.Done? ==>
              ReadsBack(w.host, c, TransformKind(key).value, e, TransformEffect(w, e.state, QueryOf(c), key))
  {
    hide NumberAccess, IntegerAccess, KeywordAccess, FunctionListAccess, NormalForm, IntText, Spellings, Distinct, Upper, Unquote;
    ValuesReadBack(w.host, c);
    QueriesReport(w.host, QueryOf(c));
    TablesAreDistinct();
    MoreTablesAreDistinct();
    KeywordReadsBack(w.host, c, s.transform.mode, TRANSFORM_MODES);
    KeywordReadsBack(w.host, c, s.transform.grouping, GROUPINGS);
  }

  lemma IntegralReadsBack(w: World, s: State, c: Command, key: IntegralKey)
    requires IntegralKind(key).Some? && !c.query
    ensures var e := IntegralEffect(w, s, c, key); e.Done? ==>
              ReadsBack(w.host, c, IntegralKind(key).value, e, IntegralEffect(w, e.state, QueryOf(c), key))
  {
    hide NumberAccess, BooleanAccess, KeywordAccess, FunctionListAccess, TimestampEffect, NormalForm, Spellings, Distinct;
    ValuesReadBack(w.host, c);
    QueriesReport(w.host, QueryOf(c));
    TablesAreDistinct();
    MoreTablesAreDistinct();
    KeywordReadsBack(w.host, c, s.integral.startSource, START_SOURCES);
    KeywordReadsBack(w.host, c, s.integral.stopSource, STOP_SOURCES);
  }

  lemma ReferencesReadBack(w: World, s: State, c: Command)
    requires !c.query
    ensures var e := ReferenceEffect(s, c); e.Done? ==> ReadsBack(w.host, c, Pair, e, ReferenceEffect(e.state, QueryOf(c)))
  {
    hide Unquote, Upper, IntText;
  }

  lemma PowerReadsBack(w: World, s: State, c: Command)
    requires !c.query
    ensures var e := HarmonicOrderEffect(s, c); e.Done? ==> ReadsBack(w.host, c, Whole, e, HarmonicOrderEffect(e.state, QueryOf(c)))
    ensures var e := CorrectionEffect(s, c); e.Done? ==>
              ReadsBack(w.host, c, Choice(Spellings(CORRECTIONS)), e, CorrectionEffect(e.state, QueryOf(c)))
  {
    hide IntegerAccess, KeywordAccess, NormalForm, IntText, Spellings, Distinct;
    ValuesReadBack(w.host, c);
    QueriesReport(w.host, QueryOf(c));
    TablesAreDistinct();
    KeywordReadsBack(w.host, c, s.power.correction, CORRECTIONS);
  }

  /** A transfer format with the length given, or the one in force before. */
  lemma TransferReadsBack(w: World, s: State, c: Command, isData: bool)
    requires !c.query
    ensures var e := TransferFormatEffect(s, c, isData); e.Done? ==>
              ReadsBack(w.host, c, Transfer((if isData then s.format.data else s.format.status).length), e,
                        TransferFormatEffect(e.state, QueryOf(c), isData))
  {
    hide ParseNumber, FormatOf, FormatWord, IntText, Unquote, Upper;
  }

  lemma FormatReadsBack(w: World, s: State, c: Command, key: FormatKey)
    requires !c.query
    ensures var e := FormatEffect(s, c, key); e.Done? ==>
              ReadsBack(w.host, c, FormatKind(s.format, key), e, FormatEffect(e.state, QueryOf(c), key))
  {
    hide BooleanAccess, KeywordAccess, TransferFormatEffect, NormalForm, Spellings, Distinct;
    TransferReadsBack(w, s, c, key.DataFormat?);
    ValuesReadBack(w.host, c);
    QueriesReport(w.host, QueryOf(c));
    TablesAreDistinct();
    KeywordReadsBack(w.host, c, s.format.byteOrder, BYTE_ORDERS);
  }

  lemma DisplayReadsBack(w: World, s: State, c: Command, key: DisplayKey)
    requires !c.query
    ensures var e := DisplayEffect(s, c, key); e.Done? ==>
              ReadsBack(w.host, c, DisplayKind(key).value, e, DisplayEffect(e.state, QueryOf(c), key))
  {
    hide BooleanAccess, FunctionListAccess, NormalForm, IntText;
    ValuesReadBack(w.host, c);
    QueriesReport(w.host, QueryOf(c));
  }

  /** Date and time without fractions. */
  lemma ClockReadsBack(w: World, s: State, c: Command)
    requires !c.query
    ensures var e := DateEffect(s, c); e.Done? ==> ReadsBack(w.host, c, Triple, e, DateEffect(e.state, QueryOf(c)))
    ensures var e := TimeEffect(s, c); e.Done? ==> ReadsBack(w.host, c, Triple, e, TimeEffect(e.state, QueryOf(c)))
  {
    hide ParseNumber, ThreeText, Truncate;
  }

  lemma SystemReadsBack(w: World, s: State, c: Command, key: SystemKey, version: string)
    requires SystemKind(key).Some? && !c.query
    ensures var e := SystemEffect(s, c, key, version); e.Done? ==>
              ReadsBack(w.host, c, SystemKind(key).value, e, SystemEffect(e.state, QueryOf(c), key, version))
  {
    hide IntegerAccess, KeywordAccess, TextAccess, DateEffect, TimeEffect, EntryText, Join, NormalForm, IntText, Spellings, Distinct;
    ClockReadsBack(w, s, c);
    TextsReadBack(w.host, c);
    ValuesReadBack(w.host, c);
    QueriesReport(w.host, QueryOf(c));
    TablesAreDistinct();
    KeywordReadsBack(w.host, c, s.system.keyLock, KEY_LOCKS);
  }

  lemma RegisterReadsBack(w: World, s: State, c: Command, r: Register, part: RegisterPart)
    requires !part.Condition? && !part.Event? && !c.query
    ensures var e := StatusEffect(w, s, c, r, part); e.Done? ==>
              ReadsBack(w.host, c, Whole, e, StatusEffect(w, e.state, QueryOf(c), r, part))
  {
    hide IntegerAccess, NormalForm, IntText, ConditionOf, EventEffect, RegisterName, BitsValue;
    ValuesReadBack(w.host, c);
    QueriesReport(w.host, QueryOf(c));
  }

  /** What is set is what is reported, for every setting of the instrument: after an accepted command, the query of the same
      header answers with the normal form of its parameter and changes nothing. */
  lemma SettingsReadBack(w: World, s: State, c: Command)
    requires KindOf(w.options, s.format, c.key).Some? && !c.query
    ensures var e := EffectOf(w, s, c);
            e.Done? ==> ReadsBack(w.host, c, KindOf(w.options, s.format, c.key).value, e, EffectOf(w, e.state, QueryOf(c)))
  {
    hide CommonEffect, AbortEffect, RouteEffect, InputEffect, RangingEffect, ApertureEffect, FunctionEffect, DataEffect, SweepEffect,
         SyncEffect, AcquisitionEffect, TriggerEffect, TransformEffect, SpectrumEffect, IntegralEffect, HarmonicOrderEffect,
         CorrectionEffect, ReferenceEffect, TraceEffect, FormatEffect, DisplayEffect, SystemEffect, StatusEffect, TimerEffect,
         ReadsBack, Spellings;
    match c.key
    case Common(key) => MasksReadBack(w, s, c, key);
    case RouteSystem => WiringReadsBack(w, s, c);
    case Input(key) => InputReadsBack(w, s, c, key);
    case Ranging(voltage, key) => RangingReadsBack(w, s, c, voltage, key);
    case Aperture => SenseReadsBack(w, s, c);
    case Functions(_) => SenseReadsBack(w, s, c);
    case Sweep(key) => SweepReadsBack(w, s, c, key);
    case Sync(key) => SyncReadsBack(w, s, c, key);
    case Initiate(_) => ContinuousReadsBack(w, s, c);
    case Trigger(start, key) => TriggerReadsBack(w, s, c, start, key);
    case Transform(key) => TransformReadsBack(w, s, c, key);
    case Integral(key) => IntegralReadsBack(w, s, c, key);
    case HarmonicOrder => PowerReadsBack(w, s, c);
    case PowerCorrection => PowerReadsBack(w, s, c);
    case EfficiencyReference => ReferencesReadBack(w, s, c);
    case Format(key) => FormatReadsBack(w, s, c, key);
    case Display(key) => DisplayReadsBack(w, s, c, key);
    case System(key) => SystemReadsBack(w, s, c, key, w.options.scpiVersion);
    case Status(r, part) => RegisterReadsBack(w, s, c, r, part);
  }
}
