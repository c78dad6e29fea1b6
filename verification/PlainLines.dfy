/** The simulator answers every line with at most one line: no text it stores or prints holds a line terminator
    as long as none of the lines it is given does. */
module PlainLines {
  import opened Wrappers
  import opened Text
  import opened Decimal
  import opened Pattern
  import opened Commands
  import opened Headers
  import opened Instrument
  import opened Measurement
  import opened Effects
  import opened CommandLine

  predicate Plain(text: string) { !HasLineTerminator(text) }

  ghost predicate AllPlain(texts: seq<string>) {
    forall i :: 0 <= i < |texts| ==> Plain(texts[i])
  }

  // ------------------------------------------------------------------------- texts

  lemma UpperIsPlain(s: string)
    requires Plain(s)
    ensures Plain(Upper(s))
  {
    assert forall i :: 0 <= i < |s| ==> s[i] in s;
  }

  lemma SliceIsPlain(s: string, i: nat, j: nat)
    requires Plain(s) && i <= j <= |s|
    ensures Plain(s[i..j])
  {
    assert forall k :: 0 <= k < |s[i..j]| ==> s[i..j][k] in s;
  }

  lemma {:induction false} TrimLeftIsPlain(s: string)
    requires Plain(s)
    ensures Plain(TrimLeft(s))
  {
    if s != "" && IsSpace(s[0]) {
      SliceIsPlain(s, 1, |s|);
      TrimLeftIsPlain(s[1..]);
    }
  }

  lemma TrimIsPlain(s: string)
    requires Plain(s)
    ensures Plain(Trim(s))
  {
    TrimLeftIsPlain(s);
    var t := TrimLeft(s);
    SliceIsPlain(t, 0, |TrimRight(t)|);
    assert t[0..|TrimRight(t)|] == TrimRight(t);
  }

  lemma UnquoteIsPlain(s: string)
    requires Plain(s)
    ensures Plain(Unquote(s))
  {
    hide Trim;
    TrimIsPlain(s);
    var t := Trim(s);
    if |t| >= 2 { SliceIsPlain(t, 1, |t| - 1); }
  }

  lemma {:induction false} SplitIsPlain(q: Quote, s: string, separator: char)
    requires Plain(s)
    ensures AllPlain(Split(q, s, separator))
    decreases s
  {
    if s != "" {
      SliceIsPlain(s, 1, |s|);
      if Separates(q, s[0], separator) {
        SplitIsPlain(Outside, s[1..], separator);
      } else {
        SplitIsPlain(Advance(q, s[0]), s[1..], separator);
        assert s[0] in s;
      }
    }
  }

  lemma {:induction false} JoinIsPlain(texts: seq<string>, separator: char)
    requires AllPlain(texts) && separator != '\n' && separator != '\r'
    ensures Plain(Join(texts, separator))
  {
    if |texts| > 1 { JoinIsPlain(texts[1..], separator); }
  }

  lemma ConcatIsAllPlain(a: seq<string>, b: seq<string>)
    requires AllPlain(a) && AllPlain(b)
    ensures AllPlain(a + b)
  {
    hide HasLineTerminator;
  }

  lemma IntIsPlain(n: int)
    ensures Plain(IntText(n))
  {
    IntTextShape(n);
  }

  lemma IntsArePlain()
    ensures forall n: int :: Plain(IntText(n))
  {
    forall n: int ensures Plain(IntText(n)) { IntIsPlain(n); }
  }

  lemma QuoteJoinIsPlain(names: seq<string>)
    requires AllPlain(names)
    ensures Plain(QuoteJoin(names))
  {
    JoinIsPlain(QuotedAll(names), ',');
  }

  // --------------------------------------------------------------- state, world and commands

  ghost predicate PlainErrors(errors: seq<ErrorInfo>) {
    forall i :: 0 <= i < |errors| ==> Plain(errors[i].message)
  }

  /** No text of the state holds a line terminator. */
  ghost predicate PlainState(s: State) {
    && AllPlain(s.sense.functions) && AllPlain(s.sweep[1].functions) && AllPlain(s.sweep[2].functions)
    && AllPlain(s.transform.functions) && AllPlain(s.integral.functions) && AllPlain(s.display.functions)
    && Plain(s.sync.source) && Plain(s.triggerStart.source) && Plain(s.triggerStop.source) && Plain(s.system.language)
    && Plain(s.power.efficiencyInput) && Plain(s.power.efficiencyOutput)
    && PlainErrors(s.errors)
  }

  ghost predicate PlainHost(h: Host) {
    && (forall r :: Plain(h.formatSetting(r)))
    && (forall precision, r :: Plain(h.formatExponent(precision, r)))
  }

  ghost predicate PlainWorld(w: World) {
    && PlainHost(w.host)
    && Plain(w.options.identification) && Plain(w.options.scpiVersion) && Plain(w.options.optionsResponse)
  }

  ghost predicate PlainEffect(e: Effect) {
    && (e.Done? ==> PlainState(e.state) && (e.response.Some? ==> Plain(e.response.value)))
    && (e.Reject? ==> Plain(e.message))
  }

  ghost predicate PlainAccess<T(!new)>(a: Access<T>) {
    && (a.Report? ==> Plain(a.text))
    && (a.Refuse? ==> Plain(a.message))
  }

  lemma ArgumentIsPlain(c: Command)
    requires AllPlain(c.args)
    ensures c.Argument().Some? ==> Plain(c.Argument().value)
  {
    hide Unquote;
    if |c.args| > 0 { UnquoteIsPlain(c.args[0]); }
  }

  lemma ConcatIsPlain(a: string, b: string)
    requires Plain(a) && Plain(b)
    ensures Plain(a + b)
  {}

  lemma IllegalWordsArePlain() ensures Plain("Illegal parameter value;") {}

  lemma OutOfRangeWordsArePlain() ensures Plain("Data out of range;") {}

  lemma UndefinedWordsArePlain() ensures Plain("Undefined header;") {}

  lemma ConflictWordsArePlain() ensures Plain("Settings conflict;") {}

  lemma MissingWordsArePlain() ensures Plain("Missing parameter;expected ") {}

  lemma IllegalIsPlain(text: string)
    requires Plain(text)
    ensures Plain(Illegal(text).message) && PlainEffect(Illegal(text))
  {
    hide HasLineTerminator;
    IllegalWordsArePlain();
    ConcatIsPlain("Illegal parameter value;", text);
  }

  lemma OutOfRangeIsPlain(text: string)
    requires Plain(text)
    ensures Plain(OutOfRange(text).message) && PlainEffect(OutOfRange(text))
  {
    hide HasLineTerminator;
    OutOfRangeWordsArePlain();
    ConcatIsPlain("Data out of range;", text);
  }

  lemma UndefinedIsPlain(text: string)
    requires Plain(text)
    ensures Plain(Undefined(text).message) && PlainEffect(Undefined(text))
  {
    hide HasLineTerminator;
    UndefinedWordsArePlain();
    ConcatIsPlain("Undefined header;", text);
  }

  lemma ConflictIsPlain(text: string)
    requires Plain(text)
    ensures Plain(Conflict(text).message) && PlainEffect(Conflict(text))
  {
    hide HasLineTerminator;
    ConflictWordsArePlain();
    ConcatIsPlain("Settings conflict;", text);
  }

  lemma MissingIsPlain()
    ensures Plain(Missing().message) && PlainEffect(Missing())
  {}

  lemma ExpectedIsPlain(text: string)
    requires Plain(text)
    ensures Plain(Expected(text).message) && PlainEffect(Expected(text))
  {
    hide HasLineTerminator;
    MissingWordsArePlain();
    ConcatIsPlain("Missing parameter;expected ", text);
  }

  lemma ExpectedWordsArePlain() ensures Plain("<block>") && Plain("<function1>,<function2>") {}

  lemma ClockWordsArePlain() ensures Plain("year,month,day") && Plain("hours,minutes,seconds") {}

  lemma TimestampIsPlainText() ensures Plain(TIMESTAMP) { assert Plain("yyyy,MM,dd,hh,mm,ss"); }

  lemma ExpectationsArePlain()
    ensures PlainEffect(Expected(TIMESTAMP)) && PlainEffect(Expected("<block>")) && PlainEffect(Expected("<function1>,<function2>"))
    ensures PlainEffect(Expected("year,month,day")) && PlainEffect(Expected("hours,minutes,seconds"))
  {
    hide HasLineTerminator;
    ExpectedWordsArePlain();
    ClockWordsArePlain();
    TimestampIsPlainText();
    ExpectedIsPlain(TIMESTAMP);
    ExpectedIsPlain("<block>");
    ExpectedIsPlain("<function1>,<function2>");
    ExpectedIsPlain("year,month,day");
    ExpectedIsPlain("hours,minutes,seconds");
  }

  /** The ways a parameter is refused. */
  lemma RefusalsArePlain(c: Command)
    requires AllPlain(c.args)
    ensures Plain(Missing().message) && PlainEffect(Missing())
    ensures c.Argument().Some? ==>
              var text := c.Argument().value;
              && Plain(text) && Plain(Illegal(text).message) && Plain(OutOfRange(text).message)
              && PlainEffect(Illegal(text)) && PlainEffect(OutOfRange(text))
  {
    hide HasLineTerminator, Unquote, Illegal, OutOfRange;
    MissingIsPlain();
    ArgumentIsPlain(c);
    if c.Argument().Some? {
      IllegalIsPlain(c.Argument().value);
      OutOfRangeIsPlain(c.Argument().value);
    }
  }

  lemma NumbersArePlain(h: Host, c: Command)
    requires PlainHost(h) && AllPlain(c.args)
    ensures forall field, min, max :: PlainAccess(NumberAccess(h, c, field, min, max))
  {
    hide ParseNumber, Unquote, HasLineTerminator, Illegal, OutOfRange, Missing;
    RefusalsArePlain(c);
  }

  lemma IntegersArePlain(c: Command)
    requires AllPlain(c.args)
    ensures forall field, min, max :: PlainAccess(IntegerAccess(c, field, min, max))
  {
    hide ParseNumber, Unquote, HasLineTerminator, IntText, Illegal, OutOfRange, Missing;
    RefusalsArePlain(c);
    IntsArePlain();
  }

  lemma BooleansArePlain(c: Command)
    requires AllPlain(c.args)
    ensures forall field :: PlainAccess(BooleanAccess(c, field))
  {
    hide ParseBoolean, Unquote, HasLineTerminator, Illegal, Missing;
    RefusalsArePlain(c);
    assert Plain("1") && Plain("0") by { DigitsArePlain(); }
  }

  lemma DigitsArePlain() ensures Plain("1") && Plain("0") && Plain("") {}

  /** Keywords report one of their short forms, or nothing. */
  lemma {:induction false} SpellingIsPlain<T>(words: seq<Keyword<T>>, value: T)
    requires forall i :: 0 <= i < |words| ==> Plain(words[i].short)
    ensures Plain(SpellingOf(words, value))
  {
    if words != [] { SpellingIsPlain(words[1..], value); }
  }

  lemma KeywordIsPlain<T(!new)>(c: Command, field: T, words: seq<Keyword<T>>)
    requires AllPlain(c.args) && forall i :: 0 <= i < |words| ==> Plain(words[i].short)
    ensures PlainAccess(KeywordAccess(c, field, words))
  {
    hide Unquote, HasLineTerminator, Illegal, Missing, FindKeyword, SpellingOf, Upper;
    RefusalsArePlain(c);
    SpellingIsPlain(words, field);
  }

  lemma TextIsPlain(c: Command, report: string)
    requires AllPlain(c.args) && Plain(report)
    ensures PlainAccess(TextAccess(c, report))
    ensures TextAccess(c, report).Store? ==> Plain(TextAccess(c, report).value)
  {
    hide Unquote, HasLineTerminator, Missing;
    RefusalsArePlain(c);
  }

  lemma {:induction false} FirstUnquotedIsPlain(args: seq<string>)
    requires AllPlain(args)
    ensures FirstUnquoted(args).Some? ==> Plain(FirstUnquoted(args).value)
  {
    hide HasLineTerminator, Trim;
    if args != [] {
      TrimIsPlain(args[0]);
      FirstUnquotedIsPlain(args[1..]);
    }
  }

  lemma NamesArePlain(args: seq<string>)
    requires AllPlain(args)
    ensures AllPlain(FunctionNames(args))
  {
    hide HasLineTerminator, Trim, Unquote, Upper;
    forall i | 0 <= i < |args| ensures Plain(FunctionNames(args)[i]) {
      TrimIsPlain(args[i]);
      UnquoteIsPlain(Trim(args[i]));
      UpperIsPlain(Unquote(Trim(args[i])));
    }
  }

  lemma ListIsPlain(c: Command)
    requires AllPlain(c.args)
    ensures PlainAccess(ListParameter(c))
    ensures ListParameter(c).Store? ==> AllPlain(ListParameter(c).value)
  {
    hide HasLineTerminator, FirstUnquoted, FunctionNames, Illegal, Missing;
    MissingIsPlain();
    NamesArePlain(c.args);
    FirstUnquotedIsPlain(c.args);
    if FirstUnquoted(c.args).Some? { IllegalIsPlain(FirstUnquoted(c.args).value); }
  }

  lemma FunctionListIsPlain(c: Command, field: seq<string>)
    requires AllPlain(c.args) && AllPlain(field)
    ensures PlainAccess(FunctionListAccess(c, field))
    ensures FunctionListAccess(c, field).Store? ==> AllPlain(FunctionListAccess(c, field).value)
  {
    hide HasLineTerminator, ListParameter, QuoteJoin;
    ListIsPlain(c);
    QuoteJoinIsPlain(field);
  }

  // ------------------------------------------------------------------------------ commands

  lemma OnlyIsPlain(c: Command, name: string, e: Effect)
    requires Plain(name) && PlainEffect(e)
    ensures PlainEffect(QueryOnly(c, name, e)) && PlainEffect(CommandOnly(c, name, e))
  {
    hide PlainState, Undefined;
    UndefinedIsPlain(name);
    assert Plain(name + "?");
    UndefinedIsPlain(name + "?");
  }

  lemma CommitIsPlain<T(!new)>(a: Access<T>, s: State, after: State)
    requires PlainAccess(a) && PlainState(s) && PlainState(after)
    ensures PlainEffect(Commit(a, s, after))
  {
    hide PlainState, HasLineTerminator;
  }

  lemma CommonNamesArePlain()
    ensures Plain("*IDN") && Plain("*RST") && Plain("*CLS") && Plain("*OPT") && Plain("*LRN") && Plain("*WAI")
    ensures Plain("*TRG") && Plain("*ESR") && Plain("*STB") && Plain("*SAV") && Plain("*RCL") && Plain("IMM")
    ensures Plain("VOLT1") && Plain("DEFault")
  {}

  lemma LearnIsPlain(functions: string, aperture: string)
    requires Plain(functions) && Plain(aperture)
    ensures Plain("\"FUNC " + functions + ";APER " + aperture + "\"")
  {
    ConcatIsPlain("\"FUNC ", functions);
    ConcatIsPlain("\"FUNC " + functions, ";APER ");
    ConcatIsPlain("\"FUNC " + functions + ";APER ", aperture);
    ConcatIsPlain("\"FUNC " + functions + ";APER " + aperture, "\"");
  }

  lemma ResetIsPlain(o: Options, errors: seq<ErrorInfo>)
    requires PlainErrors(errors)
    ensures PlainState(ResetState(o, errors))
  {
    hide HasLineTerminator;
    CommonNamesArePlain();
    DigitsArePlain();
  }

  lemma CommonIsPlain(w: World, s: State, c: Command, key: CommonKey)
    requires PlainWorld(w) && PlainState(s) && AllPlain(c.args)
    ensures PlainEffect(CommonEffect(w, s, c, key))
  {
    hide HasLineTerminator, IntegerAccess, ConditionOf, StatusByte, Mask, BitsValue, IntText, QuoteJoin, Latch, OutOfRange,
         Undefined, ResetState;
    CommonNamesArePlain();
    IntsArePlain();
    IntegersArePlain(c);
    DigitsArePlain();
    match key
    case Idn => OnlyIsPlain(c, "*IDN", Respond(s, w.options.identification));
    case Rst =>
      ResetIsPlain(w.options, s.errors);
      OnlyIsPlain(c, "*RST", Done(ResetState(w.options, s.errors), None));
    case Cls => OnlyIsPlain(c, "*CLS", Done(ClearedStatus(s), None));
    case Opt => OnlyIsPlain(c, "*OPT", Respond(s, w.options.optionsResponse));
    case Lrn =>
      QuoteJoinIsPlain(s.sense.functions);
      LearnIsPlain(QuoteJoin(s.sense.functions), w.host.formatSetting(s.sense.aperture));
      OnlyIsPlain(c, "*LRN", Respond(s, "\"FUNC " + QuoteJoin(s.sense.functions) + ";APER " + w.host.formatSetting(s.sense.aperture) + "\""));
    case Opc =>
    case Wai => OnlyIsPlain(c, "*WAI", Done(s, None));
    case Trg => OnlyIsPlain(c, "*TRG", Done(s.(initiated := true), None));
    case Ese =>
    case Esr =>
      OnlyIsPlain(c, "*ESR", Done(s.(status := s.status.(eventStatus := {})), Some(IntText(BitsValue(s.status.eventStatus)))));
    case Sre =>
    case Stb =>
      var latched := Latched(w, s, Questionable);
      OnlyIsPlain(c, "*STB", Respond(latched, IntText(BitsValue(StatusByte(latched)))));
    case Sav =>
      var a := IntegerAccess(c, 0, 10, 24);
      CommitIsPlain(a, s, s.(savedSetups := s.savedSetups + {a.Or(0)}));
      OnlyIsPlain(c, "*SAV", Commit(a, s, s.(savedSetups := s.savedSetups + {a.Or(0)})));
    case Rcl =>
      var a := IntegerAccess(c, 0, 1, 24);
      OutOfRangeIsPlain("*RCL");
      CommitIsPlain(a, s, s);
      OnlyIsPlain(c, "*RCL", if a.Store? && 2 < a.value < 10 then OutOfRange("*RCL") else Commit(a, s, s));
  }

  lemma WiringIsPlain() ensures Plain("\"2W\"") && Plain("\"3W\"") {}

  lemma RouteIsPlain(s: State, c: Command)
    requires PlainState(s) && AllPlain(c.args)
    ensures PlainEffect(RouteEffect(s, c))
  {
    hide HasLineTerminator, Illegal, Missing, Unquote, Upper;
    RefusalsArePlain(c);
    WiringIsPlain();
  }

  lemma InputNamesArePlain()
    ensures Plain("INP#:FILT:FREQ")
    ensures Plain("AC") && Plain("DC") && Plain("INT") && Plain("EXT")
  {}

  lemma ChannelIsPlain(n: int)
    ensures Plain("input channel " + IntText(n))
  {
    hide IntText;
    IntIsPlain(n);
    ConcatIsPlain("input channel ", IntText(n));
  }

  lemma GainMessageIsPlain() ensures Plain("GAIN applies to current channels only") {}

  lemma ShuntMessageIsPlain() ensures Plain("SHUNt applies to current channels only") {}

  lemma InputIsPlain(w: World, s: State, c: Command, key: InputKey)
    requires PlainWorld(w) && PlainState(s) && AllPlain(c.args)
    ensures PlainEffect(InputEffect(w, s, c, key))
  {
    hide HasLineTerminator, NumberAccess, BooleanAccess, KeywordAccess, IntText, OutOfRange, Conflict, Undefined;
    InputNamesArePlain();
    GainMessageIsPlain();
    ShuntMessageIsPlain();
    ConflictIsPlain("GAIN applies to current channels only");
    ConflictIsPlain("SHUNt applies to current channels only");
    ChannelIsPlain(c.Suffix());
    OutOfRangeIsPlain("input channel " + IntText(c.Suffix()));
    NumbersArePlain(w.host, c);
    BooleansArePlain(c);
    if 1 <= c.Suffix() <= w.options.channels {
      KeywordIsPlain(c, s.inputs[c.Suffix()].coupling, COUPLINGS);
      KeywordIsPlain(c, s.inputs[c.Suffix()].shunt, SHUNTS);
    }
    OnlyIsPlain(c, "INP#:FILT:FREQ", Respond(s, w.host.formatSetting(s.filterFrequency)));
  }

  // ------------------------------------------------------------------------- printed values

  lemma ValueTextIsPlain(h: Host, s: State, v: Value)
    requires PlainHost(h)
    ensures Plain(FormatValue(h, s, v))
  {
    NaNTextIsPlain();
  }

  lemma NaNTextIsPlain() ensures Plain(NAN_TEXT) {}

  lemma ValuesArePlain(h: Host, s: State, values: seq<Value>)
    requires PlainHost(h)
    ensures AllPlain(FormatValues(h, s, values)) && Plain(Join(FormatValues(h, s, values), ','))
  {
    hide HasLineTerminator, FormatValue, Join;
    forall i | 0 <= i < |values| ensures Plain(FormatValues(h, s, values)[i]) { ValueTextIsPlain(h, s, values[i]); }
    JoinIsPlain(FormatValues(h, s, values), ',');
  }

  lemma SettingTextIsPlain(h: Host, r: real)
    requires PlainHost(h)
    ensures Plain(h.formatSetting(r))
  {}

  lemma SettingsArePlain(h: Host, values: seq<real>)
    requires PlainHost(h)
    ensures AllPlain(FormatSettings(h, values)) && Plain(Join(FormatSettings(h, values), ','))
  {
    hide HasLineTerminator, Join;
    forall i | 0 <= i < |values| ensures Plain(FormatSettings(h, values)[i]) {
      SettingTextIsPlain(h, values[i]);
      assert FormatSettings(h, values)[i] == h.formatSetting(values[i]);
    }
    JoinIsPlain(FormatSettings(h, values), ',');
  }

  lemma MeasuredTextsArePlain(h: Host, s: State, ms: seq<Measured>)
    requires PlainHost(h)
    ensures AllPlain(ValueTexts(h, s, ms)) && AllPlain(StatusTexts(ms))
  {
    hide HasLineTerminator, FormatValue, IntText, BitsValue;
    IntsArePlain();
    forall i | 0 <= i < |ms| ensures Plain(ValueTexts(h, s, ms)[i]) { ValueTextIsPlain(h, s, ms[i].value); }
  }

  lemma BlockIsPlain(count: nat)
    ensures Plain(BinaryBlock(count))
  {
    hide IntText;
    IntIsPlain(count * 8);
    IntIsPlain(|IntText(count * 8)|);
  }

  lemma MeasurementIsPlain(w: World, s: State, functions: seq<string>, withStatus: bool)
    requires PlainWorld(w)
    ensures var r := MeasurementResponse(w, s, functions, withStatus);
            r.Some? ==> Plain(r.value)
  {
    hide HasLineTerminator, BinaryBlock, MeasureAll, Join, ValueTexts, StatusTexts;
    DigitsArePlain();
    BlockIsPlain(|functions|);
    var measured := MeasureAll(w, s, functions);
    if measured.Some? {
      var values, status := ValueTexts(w.host, s, measured.value), StatusTexts(measured.value);
      MeasuredTextsArePlain(w.host, s, measured.value);
      var tail := if withStatus then status else [];
      ConcatIsAllPlain(values, tail);
      JoinIsPlain(values + tail, ',');
    }
  }

  // ---------------------------------------------------------------------------------- SENSe

  lemma RangingTextsArePlain(phase: int)
    ensures Plain(RangingName(true, ":RANG:LIST")) && Plain(RangingName(false, ":RANG:LIST"))
    ensures Plain("phase " + IntText(phase))
  {
    hide IntText;
    IntIsPlain(phase);
    ConcatIsPlain("phase ", IntText(phase));
  }

  lemma SetRangeIsPlain(w: World, s: State, c: Command, voltage: bool, phase: int)
    requires PlainWorld(w) && PlainState(s) && AllPlain(c.args) && 1 <= phase <= MAX_PHASE
    ensures PlainEffect(SetRangeEffect(w, s, c, voltage, phase))
  {
    hide HasLineTerminator, ParseNumber, SnapRange, Illegal, OutOfRange, Missing, Unquote;
    RefusalsArePlain(c);
  }

  lemma RangingIsPlain(w: World, s: State, c: Command, voltage: bool, key: RangingKey)
    requires PlainWorld(w) && PlainState(s) && AllPlain(c.args)
    ensures PlainEffect(RangingEffect(w, s, c, voltage, key))
  {
    hide HasLineTerminator, NumberAccess, BooleanAccess, SetRangeEffect, RangingName, FormatSettings, Join, IntText, OutOfRange,
         Undefined;
    RangingTextsArePlain(c.Suffix());
    OutOfRangeIsPlain("phase " + IntText(c.Suffix()));
    NumbersArePlain(w.host, c);
    BooleansArePlain(c);
    SettingsArePlain(w.host, RangesOf(w.options, voltage));
    OnlyIsPlain(c, RangingName(voltage, ":RANG:LIST"), Respond(s, Join(FormatSettings(w.host, RangesOf(w.options, voltage)), ',')));
    if 1 <= c.Suffix() <= MAX_PHASE { SetRangeIsPlain(w, s, c, voltage, c.Suffix()); }
  }

  lemma ApertureIsPlain(w: World, s: State, c: Command)
    requires PlainWorld(w) && PlainState(s) && AllPlain(c.args)
    ensures PlainEffect(ApertureEffect(w, s, c))
  {
    hide HasLineTerminator, NumberAccess;
    NumbersArePlain(w.host, c);
  }

  lemma SenseNamesArePlain()
    ensures Plain("SWE:FREQ") && Plain("FUNC:ALL") && Plain("FUNC:OFF:ALL") && Plain("FUNC:COUN")
    ensures Plain("DATA:STAT") && Plain("DATA")
  {}

  lemma ConcurrentMessageIsPlain() ensures Plain("FUNCtion:CONCurrent is OFF") {}

  lemma AllFunctionsArePlain() ensures AllPlain(ALL_FUNCTIONS) {}

  lemma FunctionIsPlain(s: State, c: Command, key: FunctionKey)
    requires PlainState(s) && AllPlain(c.args)
    ensures PlainEffect(FunctionEffect(s, c, key))
  {
    hide HasLineTerminator, BooleanAccess, ListParameter, QuoteJoin, IntText, Conflict, Undefined;
    SenseNamesArePlain();
    ConcurrentMessageIsPlain();
    ConflictIsPlain("FUNCtion:CONCurrent is OFF");
    AllFunctionsArePlain();
    IntsArePlain();
    BooleansArePlain(c);
    ListIsPlain(c);
    QuoteJoinIsPlain(s.sense.functions);
    OnlyIsPlain(c, "FUNC:ALL", Done(WithFunctions(s, ALL_FUNCTIONS), None));
    OnlyIsPlain(c, "FUNC:OFF:ALL", Done(WithFunctions(s, []), None));
    OnlyIsPlain(c, "FUNC:COUN", Respond(s, IntText(|s.sense.functions|)));
  }

  lemma DataIsPlain(w: World, s: State, c: Command, withStatus: bool)
    requires PlainWorld(w) && PlainState(s) && AllPlain(c.args)
    ensures PlainEffect(DataEffect(w, s, c, withStatus))
  {
    hide HasLineTerminator, ListParameter, MeasurementResponse, Undefined;
    SenseNamesArePlain();
    UndefinedIsPlain("DATA:STAT");
    UndefinedIsPlain("DATA");
    ListIsPlain(c);
    MeasurementIsPlain(w, s, s.sense.functions, withStatus);
    var a := ListParameter(c);
    if a.Store? { MeasurementIsPlain(w, WithFunctions(s, a.value), a.value, withStatus); }
  }

  lemma SweepTextsArePlain(block: int)
    ensures Plain("SWE#:POINTS") && Plain("SWE#:OFFS:POINTS") && Plain("sweep block " + IntText(block))
  {
    hide IntText;
    IntIsPlain(block);
    ConcatIsPlain("sweep block ", IntText(block));
  }

  lemma SweepIsPlain(w: World, s: State, c: Command, key: SweepKey)
    requires PlainWorld(w) && PlainState(s) && AllPlain(c.args)
    ensures PlainEffect(SweepEffect(w, s, c, key))
  {
    hide HasLineTerminator, NumberAccess, IntegerAccess, BooleanAccess, FunctionListAccess, IntText, OutOfRange, Undefined,
         Effects.Aperture, AsInt, Upper, Unquote;
    SweepTextsArePlain(c.Suffix());
    OutOfRangeIsPlain("sweep block " + IntText(c.Suffix()));
    IntsArePlain();
    NumbersArePlain(w.host, c);
    IntegersArePlain(c);
    BooleansArePlain(c);
    if 1 <= c.Suffix() <= 2 {
      var x := s.sweep[c.Suffix()];
      FunctionListIsPlain(c, x.functions);
      OnlyIsPlain(c, "SWE#:POINTS", Respond(s, IntText(AsInt(x.time, Effects.Aperture(s)))));
      OnlyIsPlain(c, "SWE#:OFFS:POINTS", Respond(s, IntText(AsInt(x.offsetTime, Effects.Aperture(s)))));
    }
  }

  // ------------------------------------------------------------------- synchronization, triggers

  lemma SyncTextsArePlain()
    ensures Plain("EXT") && Plain("VOLT1") && Plain("CURR1") && Plain("VOLT") && Plain("CURR")
    ensures Plain("ABS") && Plain("PCT") && Plain("POS") && Plain("NEG")
  {}

  lemma SourceIsPlain(text: string)
    ensures SyncSourceOf(text).Some? ==> Plain(SyncSourceOf(text).value)
  {
    hide TokenOf, IntText;
    SyncTextsArePlain();
    var token := TokenOf(text);
    IntIsPlain(token.suffix);
    ConcatIsPlain("VOLT", IntText(token.suffix));
    ConcatIsPlain("CURR", IntText(token.suffix));
    ConcatIsPlain("VOLT", "1");
    ConcatIsPlain("CURR", "1");
  }

  lemma SyncIsPlain(w: World, s: State, c: Command, key: SyncKey)
    requires PlainWorld(w) && PlainState(s) && AllPlain(c.args)
    ensures PlainEffect(SyncEffect(w, s, c, key))
  {
    hide HasLineTerminator, NumberAccess, BooleanAccess, KeywordAccess, ParseNumber, SyncSourceOf, CutOff, Illegal, Missing, Unquote;
    RefusalsArePlain(c);
    SyncTextsArePlain();
    NumbersArePlain(w.host, c);
    BooleansArePlain(c);
    KeywordIsPlain(c, s.sync.unit, LEVEL_UNITS);
    KeywordIsPlain(c, s.sync.slope, SLOPES);
    if c.Argument().Some? { SourceIsPlain(c.Argument().value); }
  }

  lemma AcquisitionTextsArePlain(block: int)
    ensures Plain("INIT") && Plain("INIT:SEQ#") && Plain("INIT:NAME") && Plain("ABOR") && Plain("sequence " + IntText(block))
  {
    hide IntText;
    IntIsPlain(block);
    ConcatIsPlain("sequence ", IntText(block));
  }

  lemma AcquisitionIsPlain(s: State, c: Command, key: InitiateKey)
    requires PlainState(s) && AllPlain(c.args)
    ensures PlainEffect(AcquisitionEffect(s, c, key))
  {
    hide HasLineTerminator, BooleanAccess, IntText, OutOfRange, Undefined;
    var block := c.Suffix();
    AcquisitionTextsArePlain(block);
    OutOfRangeIsPlain("sequence " + IntText(block));
    BooleansArePlain(c);
    OnlyIsPlain(c, "INIT", Done(s.(initiated := true), None));
    OnlyIsPlain(c, "INIT:SEQ#",
      if block < 1 || block > 2 then OutOfRange("sequence " + IntText(block))
      else Done(WithSweep(s, block, s.sweep[block].(enabled := true)), None));
    OnlyIsPlain(c, "INIT:NAME", Done(WithSweep(s, 1, s.sweep[1].(enabled := true)), None));
  }

  lemma AbortIsPlain(s: State, c: Command)
    requires PlainState(s)
    ensures PlainEffect(AbortEffect(s, c))
  {
    hide HasLineTerminator, Undefined;
    AcquisitionTextsArePlain(0);
    OnlyIsPlain(c, "ABOR", Done(SweepsOff(s).(initiated := false), None));
  }

  lemma TimestampIsPlain(s: State, c: Command, name: string)
    requires PlainState(s) && Plain(name)
    ensures PlainEffect(TimestampEffect(s, c, name))
  {
    hide HasLineTerminator, Undefined;
    ExpectationsArePlain();
    OnlyIsPlain(c, name, if |c.args| < 6 then Expected(TIMESTAMP) else Done(s, None));
  }

  lemma TriggerNamesArePlain() ensures Plain("TRIG:STAR:TIME") && Plain("TRIG:STOP:TIME") {}

  lemma TriggerIsPlain(w: World, s: State, c: Command, start: bool, key: TriggerKey)
    requires PlainWorld(w) && PlainState(s) && AllPlain(c.args)
    ensures PlainEffect(TriggerEffect(w, s, c, start, key))
  {
    hide HasLineTerminator, NumberAccess, KeywordAccess, TextAccess, TimestampEffect, Upper;
    var x := TriggerOf(s, start);
    TriggerNamesArePlain();
    TimestampIsPlain(s, c, if start then "TRIG:STAR:TIME" else "TRIG:STOP:TIME");
    SyncTextsArePlain();
    DigitsArePlain();
    NumbersArePlain(w.host, c);
    KeywordIsPlain(c, x.slope, SLOPES);
    TextIsPlain(c, x.source);
    UpperIsPlain(TextAccess(c, x.source).Or(""));
  }

  // ------------------------------------------------------------------------------ CALCulate

  lemma TransformTextsArePlain()
    ensures Plain("CALC:TRAN:FREQ:STAT") && Plain("FFT") && Plain("DFT") && Plain("STD") && Plain("COMP") && Plain("HARM")
    ensures Plain("HGR") && Plain("HSGR") && Plain("ISGR") && Plain("SGR")
  {}

  lemma CyclesArePlain(s: State, c: Command)
    requires PlainState(s) && AllPlain(c.args)
    ensures PlainEffect(CyclesEffect(s, c))
  {
    hide HasLineTerminator, IntegerAccess, IntText, Illegal;
    IntegersArePlain(c);
    var a := IntegerAccess(c, s.transform.cycles, 4, 12);
    if a.Store? {
      IntIsPlain(a.value);
      IllegalIsPlain(IntText(a.value));
    }
  }

  lemma TransformIsPlain(w: World, s: State, c: Command, key: TransformKey)
    requires PlainWorld(w) && PlainState(s) && AllPlain(c.args)
    ensures PlainEffect(TransformEffect(w, s, c, key))
  {
    hide HasLineTerminator, NumberAccess, KeywordAccess, FunctionListAccess, CyclesEffect, Illegal, Undefined, Missing, Unquote, Upper;
    TransformTextsArePlain();
    UndefinedIsPlain("CALC:TRAN:FREQ:STAT");
    RefusalsArePlain(c);
    NumbersArePlain(w.host, c);
    CyclesArePlain(s, c);
    KeywordIsPlain(c, s.transform.mode, TRANSFORM_MODES);
    KeywordIsPlain(c, s.transform.grouping, GROUPINGS);
    FunctionListIsPlain(c, s.transform.functions);
  }

  lemma SpectrumTextsArePlain()
    ensures Plain("CALC:DATA") && Plain("CALC:DATA:PRE") && Plain("CALC:DATA:THD")
  {}

  lemma ThdMessageIsPlain() ensures Plain("THD requires TRANsform:FREQuency:MODE STD") {}

  lemma PreambleIsPlain(a: string, b: string, c: string, d: string)
    requires Plain(a) && Plain(b) && Plain(c) && Plain(d)
    ensures Plain(a + "," + b + "," + c + "," + d)
  {}

  lemma {:induction false} WindowIsPlain(args: seq<string>, first: nat, i: nat, x: WindowArguments)
    requires AllPlain(args) && i <= 3
    ensures PlainAccess(ReadWindowFrom(args, first, i, x))
    decreases 3 - i
  {
    hide HasLineTerminator, ParseNumber, Illegal;
    if i < 3 {
      if first + i < |args| { IllegalIsPlain(args[first + i]); }
      match PositionalAt(args, first + i)
      case Number(n) => WindowIsPlain(args, first, i + 1, WithArgument(x, i, n));
      case _ =>
    }
  }

  lemma SpectrumIsPlain(w: World, s: State, c: Command, key: SpectrumKey)
    requires PlainWorld(w) && PlainState(s) && AllPlain(c.args)
    ensures PlainEffect(SpectrumEffect(w, s, c, key))
  {
    hide HasLineTerminator, ReadWindowFrom, FormatValues, FormatSettings, Join, Window, Effects.Spectrum, IntText, Conflict, Undefined,
         Missing;
    SpectrumTextsArePlain();
    ThdMessageIsPlain();
    ConflictIsPlain("THD requires TRANsform:FREQuency:MODE STD");
    UndefinedIsPlain("CALC:DATA");
    MissingIsPlain();
    IntsArePlain();
    WindowIsPlain(c.args, 0, 0, WindowArguments(0, 0, 0));
    match key
    case SpectrumData =>
      var x := ReadWindow(c.args, 0);
      var fundamental := if w.signal.present then w.signal.phases[0].voltageRms else 0.0;
      if x.Store? {
        ValuesArePlain(w.host, s, Window(Effects.Spectrum(fundamental), x.value.count, x.value.offset, x.value.sparsing));
      }
    case SpectrumPreamble =>
      PreambleIsPlain(IntText(SPECTRUM_LINES), IntText(MaxInt(|s.transform.functions|, 1)),
                      w.host.formatSetting(w.signal.frequency), w.host.formatSetting(s.transform.start));
      OnlyIsPlain(c, "CALC:DATA:PRE", Respond(s,
        IntText(SPECTRUM_LINES) + "," + IntText(MaxInt(|s.transform.functions|, 1)) + ","
        + w.host.formatSetting(w.signal.frequency) + "," + w.host.formatSetting(s.transform.start)));
    case SpectrumThd =>
      var thd := [w.signal.phases[0].voltageThd, w.signal.phases[1].voltageThd, w.signal.phases[2].voltageThd];
      SettingsArePlain(w.host, thd);
      OnlyIsPlain(c, "CALC:DATA:THD",
        if !s.transform.mode.Std? then Conflict("THD requires TRANsform:FREQuency:MODE STD")
        else Respond(s, Join(FormatSettings(w.host, thd), ',')));
  }

  lemma IntegralTextsArePlain()
    ensures Plain("CALC:INT:CLE") && Plain("CALC:INT:STAR") && Plain("CALC:INT:STOP") && Plain("CALC:INT:STAR:TIME")
    ensures Plain("CALC:INT:STOP:TIME") && Plain("CMD") && Plain("TIME") && Plain("MAN") && Plain("TINT")
  {}

  lemma IntegralMessageIsPlain() ensures Plain("CALCulate:INTegral:STATe is OFF") {}

  lemma IntegralIsPlain(w: World, s: State, c: Command, key: IntegralKey)
    requires PlainWorld(w) && PlainState(s) && AllPlain(c.args)
    ensures PlainEffect(IntegralEffect(w, s, c, key))
  {
    hide HasLineTerminator, NumberAccess, BooleanAccess, KeywordAccess, FunctionListAccess, TimestampEffect, Conflict, Undefined;
    IntegralTextsArePlain();
    IntegralMessageIsPlain();
    ConflictIsPlain("CALCulate:INTegral:STATe is OFF");
    NumbersArePlain(w.host, c);
    BooleansArePlain(c);
    KeywordIsPlain(c, s.integral.startSource, START_SOURCES);
    KeywordIsPlain(c, s.integral.stopSource, STOP_SOURCES);
    FunctionListIsPlain(c, s.integral.functions);
    TimestampIsPlain(s, c, "CALC:INT:STAR:TIME");
    TimestampIsPlain(s, c, "CALC:INT:STOP:TIME");
    var x := s.integral;
    OnlyIsPlain(c, "CALC:INT:CLE", Done(s.(system := s.system.(timerSeconds := 0.0)), None));
    OnlyIsPlain(c, "CALC:INT:STAR",
      if !x.enabled then Conflict("CALCulate:INTegral:STATe is OFF") else Done(s.(integral := x.(running := true)), None));
    OnlyIsPlain(c, "CALC:INT:STOP", Done(s.(integral := x.(running := false)), None));
  }

  lemma PowerTextsArePlain(suffix: int)
    ensures Plain("STAR") && Plain("DELT") && Plain("CALCulate:POWer" + IntText(suffix))
  {
    hide IntText;
    IntIsPlain(suffix);
    ConcatIsPlain("CALCulate:POWer", IntText(suffix));
  }

  lemma HarmonicOrderIsPlain(s: State, c: Command)
    requires PlainState(s) && AllPlain(c.args)
    ensures PlainEffect(HarmonicOrderEffect(s, c))
  {
    hide HasLineTerminator, IntegerAccess;
    IntegersArePlain(c);
  }

  lemma CorrectionIsPlain(s: State, c: Command)
    requires PlainState(s) && AllPlain(c.args)
    ensures PlainEffect(CorrectionEffect(s, c))
  {
    hide HasLineTerminator, KeywordAccess;
    PowerTextsArePlain(0);
    KeywordIsPlain(c, s.power.correction, CORRECTIONS);
  }

  lemma ReferencesArePlain(a: string, b: string)
    requires Plain(a) && Plain(b)
    ensures Plain("\"" + a + "\",\"" + b + "\"")
  {}

  lemma ReferenceIsPlain(s: State, c: Command)
    requires PlainState(s) && AllPlain(c.args)
    ensures PlainEffect(ReferenceEffect(s, c))
  {
    hide HasLineTerminator, IntText, Upper, Unquote, Undefined;
    PowerTextsArePlain(c.AggregateSuffix());
    ExpectationsArePlain();
    UndefinedIsPlain("CALCulate:POWer" + IntText(c.AggregateSuffix()));
    ReferencesArePlain(s.power.efficiencyInput, s.power.efficiencyOutput);
    if |c.args| >= 2 {
      UnquoteIsPlain(c.args[0]);
      UnquoteIsPlain(c.args[1]);
      UpperIsPlain(Unquote(c.args[0]));
      UpperIsPlain(Unquote(c.args[1]));
    }
  }

  // ---------------------------------------------------------------------------------- TRACe

  lemma TraceNamesArePlain(key: TraceKey)
    ensures Plain(TraceName(key))
  {}


  lemma BlockParameterIsPlain(c: Command)
    requires AllPlain(c.args)
    ensures PlainAccess(BlockParameter(c))
  {
    hide HasLineTerminator, ParseNumber, Illegal;
    ExpectationsArePlain();
    if c.args != [] { IllegalIsPlain(c.args[0]); }
  }

  lemma TraceResponseIsPlain(w: World, s: State, x: SweepConfig, statuses: bool, window: WindowArguments)
    requires PlainWorld(w)
    ensures var r := TraceResponse(w, s, x, statuses, window);
            r.Some? ==> Plain(r.value)
  {
    hide HasLineTerminator, MeasureAll, Join, FormatValues, FormatSettings, AllTraceValues, AllTraceStatuses, Window, TracePoints;
    var measured := MeasureAll(w, s, if x.functions == [] then s.sense.functions else x.functions);
    if measured.Some? {
      var points := MaxInt(TracePoints(s), 0);
      ValuesArePlain(w.host, s, Window(AllTraceValues(measured.value, points), window.count, window.offset, window.sparsing));
      SettingsArePlain(w.host, Window(AllTraceStatuses(measured.value, points), window.count, window.offset, window.sparsing));
    }
  }

  lemma RecordingIsPlain(w: World, s: State, c: Command, key: TraceKey)
    requires PlainWorld(w) && PlainState(s) && AllPlain(c.args)
    ensures PlainEffect(RecordingEffect(w, s, c, key))
  {
    hide HasLineTerminator, BlockParameter, ReadWindowFrom, TraceResponse, TraceName, IntText, Undefined, Missing, TracePoints;
    TraceNamesArePlain(key);
    UndefinedIsPlain(TraceName(key));
    MissingIsPlain();
    BlockParameterIsPlain(c);
    WindowIsPlain(c.args, 1, 0, WindowArguments(0, 0, 0));
    var block, window := BlockParameter(c), ReadWindow(c.args, 1);
    if block.Store? {
      var x := if block.value == 1 then s.sweep[1] else s.sweep[2];
      IntIsPlain(TracePoints(s));
      IntIsPlain(MaxInt(|x.functions|, 1));
      PreambleIsPlain(IntText(TracePoints(s)), IntText(MaxInt(|x.functions|, 1)),
                      w.host.formatSetting(s.sense.aperture), w.host.formatSetting(x.offsetTime));
      if window.Store? { TraceResponseIsPlain(w, s, x, key.TraceStatus?, window.value); }
    }
  }

  lemma TraceIsPlain(w: World, s: State, c: Command, key: TraceKey)
    requires PlainWorld(w) && PlainState(s) && AllPlain(c.args)
    ensures PlainEffect(TraceEffect(w, s, c, key))
  {
    hide HasLineTerminator, RecordingEffect, TraceName, IntText, TracePoints, Undefined;
    TraceNamesArePlain(key);
    IntsArePlain();
    RecordingIsPlain(w, s, c, key);
    OnlyIsPlain(c, TraceName(key), Respond(s, IntText(TRACE_CAPACITY - TracePoints(s))));
    OnlyIsPlain(c, TraceName(key), Respond(s, IntText(TracePoints(s))));
    OnlyIsPlain(c, TraceName(key), Done(SweepsOff(s), None));
  }

  // ------------------------------------------------- FORMat, DISPlay, SYSTem, STATus, TIMer

  lemma FormatTextsArePlain()
    ensures Plain("NORM") && Plain("SWAP") && Plain("ASC") && Plain("INT") && Plain("REAL")
  {}

  lemma SettingIsPlain(f: NumberFormat, length: int)
    ensures Plain(FormatWord(f) + "," + IntText(length))
  {
    hide IntText;
    IntIsPlain(length);
    FormatTextsArePlain();
    ConcatIsPlain(FormatWord(f), ",");
    ConcatIsPlain(FormatWord(f) + ",", IntText(length));
  }

  lemma TransferFormatIsPlain(s: State, c: Command, isData: bool)
    requires PlainState(s) && AllPlain(c.args)
    ensures PlainEffect(TransferFormatEffect(s, c, isData))
  {
    hide HasLineTerminator, ParseNumber, FormatOf, FormatWord, IntText, Unquote, Upper, Illegal, Missing;
    RefusalsArePlain(c);
    SettingIsPlain(s.format.data.format, s.format.data.length);
    SettingIsPlain(s.format.status.format, s.format.status.length);
    if |c.args| > 1 { IllegalIsPlain(c.args[1]); }
  }

  lemma FormatIsPlain(s: State, c: Command, key: FormatKey)
    requires PlainState(s) && AllPlain(c.args)
    ensures PlainEffect(FormatEffect(s, c, key))
  {
    hide HasLineTerminator, KeywordAccess, BooleanAccess, TransferFormatEffect;
    FormatTextsArePlain();
    TransferFormatIsPlain(s, c, true);
    TransferFormatIsPlain(s, c, false);
    KeywordIsPlain(c, s.format.byteOrder, BYTE_ORDERS);
    BooleansArePlain(c);
  }

  lemma OutputWordIsPlain() ensures Plain("OUTPut") {}

  lemma DisplayIsPlain(s: State, c: Command, key: DisplayKey)
    requires PlainState(s) && AllPlain(c.args)
    ensures PlainEffect(DisplayEffect(s, c, key))
  {
    hide HasLineTerminator, BooleanAccess, FunctionListAccess, IntText, Undefined;
    BooleansArePlain(c);
    FunctionListIsPlain(c, s.display.functions);
    IntIsPlain(c.Suffix());
    OutputWordIsPlain();
    ConcatIsPlain("OUTPut", IntText(c.Suffix()));
    UndefinedIsPlain("OUTPut" + IntText(c.Suffix()));
  }

  lemma EntryIsPlain(e: ErrorInfo)
    requires Plain(e.message)
    ensures Plain(EntryText(e))
  {
    hide IntText;
    IntIsPlain(e.code);
    ConcatIsPlain(IntText(e.code), ",\"");
    ConcatIsPlain(IntText(e.code) + ",\"", e.message);
  }

  lemma EntriesArePlain(errors: seq<ErrorInfo>)
    requires PlainErrors(errors)
    ensures Plain(Join(EntryTexts(errors), ','))
  {
    hide HasLineTerminator, EntryText, Join;
    forall i | 0 <= i < |errors| ensures Plain(EntryTexts(errors)[i]) { EntryIsPlain(errors[i]); }
    JoinIsPlain(EntryTexts(errors), ',');
  }

  lemma SystemTextsArePlain()
    ensures Plain("SYST:VERS") && Plain("SYST:ERR") && Plain("SYST:ERR:ALL") && Plain(NO_ERROR)
    ensures Plain("OFF") && Plain("ON") && Plain("REM") && Plain("SYSTem:DATE") && Plain("SYSTem:TIME")
  {}

  lemma ThreeArePlain(a: int, b: int, c: int)
    ensures Plain(ThreeText(a, b, c))
  {
    hide IntText;
    IntIsPlain(a);
    IntIsPlain(b);
    IntIsPlain(c);
  }

  lemma ClockIsPlain(s: State, c: Command)
    requires PlainState(s) && AllPlain(c.args)
    ensures PlainEffect(DateEffect(s, c)) && PlainEffect(TimeEffect(s, c))
  {
    hide HasLineTerminator, ParseNumber, ThreeText, Illegal, OutOfRange, Expected;
    SystemTextsArePlain();
    ExpectationsArePlain();
    IllegalIsPlain("SYSTem:DATE");
    IllegalIsPlain("SYSTem:TIME");
    OutOfRangeIsPlain("SYSTem:DATE");
    OutOfRangeIsPlain("SYSTem:TIME");
    ThreeArePlain(s.system.date.year, s.system.date.month, s.system.date.day);
    ThreeArePlain(s.system.time.hours, s.system.time.minutes, s.system.time.seconds);
  }

  lemma SystemIsPlain(s: State, c: Command, key: SystemKey, version: string)
    requires PlainState(s) && AllPlain(c.args) && Plain(version)
    ensures PlainEffect(SystemEffect(s, c, key, version))
  {
    hide HasLineTerminator, IntegerAccess, KeywordAccess, TextAccess, DateEffect, TimeEffect, EntryText, Join, Undefined;
    SystemTextsArePlain();
    ClockIsPlain(s, c);
    IntegersArePlain(c);
    KeywordIsPlain(c, s.system.keyLock, KEY_LOCKS);
    QuotedLanguageIsPlain(s.system.language);
    TextIsPlain(c, "\"" + s.system.language + "\"");
    OnlyIsPlain(c, "SYST:VERS", Respond(s, version));
    EntriesArePlain(s.errors);
    if s.errors != [] { EntryIsPlain(s.errors[0]); }
    OnlyIsPlain(c, "SYST:ERR",
      if s.errors == [] then Respond(s, NO_ERROR) else Respond(s.(errors := s.errors[1..]), EntryText(s.errors[0])));
    OnlyIsPlain(c, "SYST:ERR:ALL",
      if s.errors == [] then Respond(s, NO_ERROR) else Respond(s.(errors := []), Join(EntryTexts(s.errors), ',')));
  }

  lemma QuotedLanguageIsPlain(language: string)
    requires Plain(language)
    ensures Plain("\"" + language + "\"")
  {}

  lemma RegisterWordsArePlain() ensures Plain("OPER") && Plain("QUES") && Plain("QUES:VOLT") && Plain("QUES:CURR") {}

  lemma RegisterNameIsPlain(r: Register)
    ensures Plain(RegisterName(r))
  {
    hide HasLineTerminator;
    RegisterWordsArePlain();
  }

  lemma RegisterTextsArePlain(r: Register)
    ensures Plain("STAT:" + RegisterName(r) + ":COND") && Plain("STAT:" + RegisterName(r) + ":EVEN")
  {
    RegisterNameIsPlain(r);
    ConcatIsPlain("STAT:", RegisterName(r));
    ConcatIsPlain("STAT:" + RegisterName(r), ":COND");
    ConcatIsPlain("STAT:" + RegisterName(r), ":EVEN");
  }

  lemma StatusIsPlain(w: World, s: State, c: Command, r: Register, part: RegisterPart)
    requires PlainState(s) && AllPlain(c.args)
    ensures PlainEffect(StatusEffect(w, s, c, r, part))
  {
    hide HasLineTerminator, IntegerAccess, ConditionOf, Latch, BitsValue, IntText, RegisterName, Undefined;
    RegisterTextsArePlain(r);
    IntsArePlain();
    IntegersArePlain(c);
    OnlyIsPlain(c, "STAT:" + RegisterName(r) + ":COND", Respond(s, IntText(BitsValue(ConditionOf(w, s, r)))));
    var latched := Latch(s.status.Get(r), ConditionOf(w, s, r));
    OnlyIsPlain(c, "STAT:" + RegisterName(r) + ":EVEN",
                Done(WithRegister(s, r, latched.(event := {})), Some(IntText(BitsValue(latched.event)))));
  }

  lemma TimerTextsArePlain() ensures Plain("TIM:RES") && Plain("TIM:RES:TIME") && Plain("TIMer:RESet:AUTO") {}

  lemma TimerIsPlain(w: World, s: State, c: Command, key: TimerKey)
    requires PlainWorld(w) && PlainState(s)
    ensures PlainEffect(TimerEffect(w, s, c, key))
  {
    hide HasLineTerminator, Undefined;
    TimerTextsArePlain();
    UndefinedIsPlain("TIMer:RESet:AUTO");
    OnlyIsPlain(c, "TIM:RES", Done(s.(system := s.system.(timerSeconds := 0.0)), None));
    OnlyIsPlain(c, "TIM:RES:TIME", Respond(s, w.host.formatSetting(s.system.timerSeconds)));
  }

  // --------------------------------------------------------------------------- every command

  lemma SamplingIsPlain(w: World, s: State, c: Command)
    requires PlainWorld(w) && PlainState(s)
    ensures PlainEffect(QueryOnly(c, "SWE:FREQ", Respond(s, w.host.formatSetting(s.sense.samplingFrequency))))
  {
    hide HasLineTerminator, QueryOnly;
    SenseNamesArePlain();
    OnlyIsPlain(c, "SWE:FREQ", Respond(s, w.host.formatSetting(s.sense.samplingFrequency)));
  }

  /** No command stores, prints or reports a line terminator it was not given. */
  lemma EffectIsPlain(w: World, s: State, c: Command)
    requires PlainWorld(w) && PlainState(s) && AllPlain(c.args)
    ensures PlainEffect(EffectOf(w, s, c))
  {
    hide HasLineTerminator, PlainState, PlainWorld, PlainEffect, AllPlain, CommonEffect, AbortEffect, RouteEffect, InputEffect,
         RangingEffect, ApertureEffect, FunctionEffect, DataEffect, SweepEffect, SyncEffect, AcquisitionEffect, TriggerEffect,
         TransformEffect, SpectrumEffect, IntegralEffect, HarmonicOrderEffect, CorrectionEffect, ReferenceEffect, TraceEffect,
         FormatEffect, DisplayEffect, SystemEffect, StatusEffect, TimerEffect, QueryOnly;
    match c.key
    case Common(key) => CommonIsPlain(w, s, c, key);
    case Abort => AbortIsPlain(s, c);
    case RouteSystem => RouteIsPlain(s, c);
    case Input(key) => InputIsPlain(w, s, c, key);
    case Ranging(voltage, key) => RangingIsPlain(w, s, c, voltage, key);
    case Aperture => ApertureIsPlain(w, s, c);
    case SamplingFrequency => SamplingIsPlain(w, s, c);
    case Functions(key) => FunctionIsPlain(s, c, key);
    case Data(withStatus) => DataIsPlain(w, s, c, withStatus);
    case Sweep(key) => SweepIsPlain(w, s, c, key);
    case Sync(key) => SyncIsPlain(w, s, c, key);
    case Initiate(key) => AcquisitionIsPlain(s, c, key);
    case Trigger(start, key) => TriggerIsPlain(w, s, c, start, key);
    case Transform(key) => TransformIsPlain(w, s, c, key);
    case Spectrum(key) => SpectrumIsPlain(w, s, c, key);
    case Integral(key) => IntegralIsPlain(w, s, c, key);
    case HarmonicOrder => HarmonicOrderIsPlain(s, c);
    case PowerCorrection => CorrectionIsPlain(s, c);
    case EfficiencyReference => ReferenceIsPlain(s, c);
    case Trace(key) => TraceIsPlain(w, s, c, key);
    case Format(key) => FormatIsPlain(s, c, key);
    case Display(key) => DisplayIsPlain(s, c, key);
    case System(key) => VersionIsPlain(w); SystemIsPlain(s, c, key, w.options.scpiVersion);
    case Status(r, part) => StatusIsPlain(w, s, c, r, part);
    case Timer(key) => TimerIsPlain(w, s, c, key);
  }

  lemma VersionIsPlain(w: World)
    requires PlainWorld(w)
    ensures Plain(w.options.scpiVersion)
  {}

  // ------------------------------------------------------------------------------ whole lines

  ghost predicate PlainRequest(r: Request) {
    match r
    case Known(command) => AllPlain(command.args)
    case Unknown(echo) => Plain(echo)
  }

  lemma TrimmedArePlain(texts: seq<string>)
    requires AllPlain(texts)
    ensures AllPlain(TrimAll(texts))
  {
    hide HasLineTerminator, Trim;
    forall i | 0 <= i < |texts| ensures Plain(TrimAll(texts)[i]) { TrimIsPlain(texts[i]); }
  }

  lemma PieceIsPlain(text: string)
    requires Plain(text)
    ensures AllPlain(PieceOf(text).args)
  {
    hide HasLineTerminator, HeaderEnd, Trim, Split, TrimAll;
    var n := HeaderEnd(Outside, text);
    if n < |text| {
      SliceIsPlain(text, n + 1, |text|);
      assert text[n + 1..|text|] == text[n + 1..];
      TrimIsPlain(text[n + 1..]);
      SplitIsPlain(Outside, Trim(text[n + 1..]), ',');
      TrimmedArePlain(Split(Outside, Trim(text[n + 1..]), ','));
    }
  }

  lemma RequestIsPlain(specs: seq<CommandSpec>, text: string, path: seq<Token>)
    requires Plain(text)
    ensures PlainRequest(RequestFor(specs, text, path))
  {
    hide HasLineTerminator, PieceOf, Dispatch, CommonKeyOf, HeaderTokens, Upper;
    PieceIsPlain(text);
  }

  lemma PerformIsPlain(w: World, s: State, r: Request)
    requires PlainWorld(w) && PlainState(s) && PlainRequest(r)
    ensures PlainEffect(Perform(w, s, r))
  {
    hide HasLineTerminator, PlainState, PlainWorld, EffectOf, Undefined, AllPlain;
    match r
    case Known(command) => EffectIsPlain(w, s, command);
    case Unknown(echo) => UndefinedIsPlain(echo);
  }

  lemma OverflowIsPlain() ensures Plain(OVERFLOW.message) {}

  lemma PushIsPlain(s: State, code: int, message: string)
    requires PlainState(s) && Plain(message)
    ensures PlainState(PushError(s, code, message))
  {
    hide HasLineTerminator;
    OverflowIsPlain();
  }

  lemma {:induction false} PiecesArePlain(w: World, s: State, pieces: seq<string>, path: seq<Token>)
    requires PlainWorld(w) && PlainState(s) && AllPlain(pieces)
    ensures var o := RunPieces(Simulator(w), s, pieces, path);
            PlainState(o.state) && AllPlain(o.responses)
    decreases |pieces|
  {
    hide HasLineTerminator, PlainState, PlainWorld, EffectOf, RequestFor, NextPath, PushError, Perform, Trim;
    if pieces != [] {
      var text := Trim(pieces[0]);
      if text == "" {
        PiecesArePlain(w, s, pieces[1..], path);
      } else {
        TrimIsPlain(pieces[0]);
        var request := RequestFor(w.specs, text, path);
        RequestIsPlain(w.specs, text, path);
        var effect := Perform(w, s, request);
        PerformIsPlain(w, s, request);
        if effect.Done? {
          PiecesArePlain(w, effect.state, pieces[1..], NextPath(text, path));
        } else if effect.Reject? {
          PushIsPlain(s, effect.code, effect.message);
        }
      }
    }
  }

  /** A line without terminators leaves a state without them, and its response is a line of its own. */
  lemma LineIsPlain(w: World, s: State, line: string)
    requires PlainWorld(w) && PlainState(s) && Plain(line)
    ensures var o := RunLine(Simulator(w), s, line);
            PlainState(o.state) && (Response(o).Some? ==> Plain(Response(o).value))
  {
    hide HasLineTerminator, PlainState, PlainWorld, RunPieces, Split, Join;
    SplitIsPlain(Outside, line, ';');
    PiecesArePlain(w, s, Split(Outside, line, ';'), []);
    var o := RunLine(Simulator(w), s, line);
    JoinIsPlain(o.responses, ';');
  }
}
