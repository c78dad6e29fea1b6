/** Which parameters each setting takes, what it stores for them and which error it answers the others with. */
module Acceptance {
  import opened Wrappers
  import opened Text
  import opened Decimal
  import opened Pattern
  import opened Commands
  import opened Instrument
  import opened Effects

  // --------------------------------------------------------------- the parameters of a command

  predicate NoParameter(c: Command) { c.args == [] || c.args[0] == "" }

  function TextGiven(c: Command): string { if NoParameter(c) then "" else Unquote(c.args[0]) }

  predicate GivesNumber(c: Command) { ParseNumber(TextGiven(c)).Some? }

  function NumberGiven(c: Command): real { if GivesNumber(c) then ParseNumber(TextGiven(c)).value else 0.0 }

  /** Numbers are rounded where the setting is an integer. */
  function IntegerGiven(c: Command): int { Lround(NumberGiven(c)) }

  predicate SaysOn(c: Command) { Upper(Trim(TextGiven(c))) == "ON" }
  predicate SaysOff(c: Command) { Upper(Trim(TextGiven(c))) == "OFF" }

  function SwitchGiven(c: Command): bool { SaysOn(c) || (!SaysOff(c) && NumberGiven(c) != 0.0) }

  predicate SpelledAs<T>(word: Keyword<T>, text: string) { text == word.short || text == word.long }

  predicate NoneIsSpelled<T>(words: seq<Keyword<T>>, text: string) {
    forall i :: 0 <= i < |words| ==> !SpelledAs(words[i], text)
  }

  predicate FirstSpelled<T>(words: seq<Keyword<T>>, i: nat, text: string) {
    i < |words| && SpelledAs(words[i], text) && forall k :: 0 <= k < i ==> !SpelledAs(words[k], text)
  }

  /** The word that is given, or the one in force when none of them is. */
  ghost function WordGiven<T(!new)>(c: Command, words: seq<Keyword<T>>, field: T): T {
    if i: nat :| FirstSpelled(words, i, Upper(TextGiven(c))) then words[i].value else field
  }

  predicate InQuotes(argument: string) {
    |Trim(argument)| >= 2 && (Trim(argument)[0] == '"' || Trim(argument)[0] == '\'')
  }

  /** The first parameter that is not in quotes. */
  predicate FirstBare(args: seq<string>, i: nat) {
    i < |args| && !InQuotes(args[i]) && forall k :: 0 <= k < i ==> InQuotes(args[k])
  }

  /** The parameters without their quotes, in upper case. */
  function NamesGiven(c: Command): (names: seq<string>) {
    seq(|c.args|, i requires 0 <= i < |c.args| => Upper(Unquote(Trim(c.args[i]))))
  }

  // --------------------------------------------- which of them are taken, and how the others fail

  function Stored(s: State): Effect { Done(s, None) }
  function LeftOut(): Effect { Reject(-109, "Missing parameter") }
  function Wrong(text: string): Effect { Reject(-224, "Illegal parameter value;" + text) }
  function Beyond(text: string): Effect { Reject(-222, "Data out of range;" + text) }
  function Clash(text: string): Effect { Reject(-221, "Settings conflict;" + text) }
  function Wanting(text: string): Effect { Reject(-109, "Missing parameter;expected " + text) }
  function Unknown(text: string): Effect { Reject(-113, "Undefined header;" + text) }

  /** Any text is taken. */
  function TakesText(c: Command, after: State): Effect { if NoParameter(c) then LeftOut() else Stored(after) }

  /** A number is taken from `lo` to `hi`. */
  function TakesNumber(c: Command, lo: real, hi: real, after: State): Effect {
    if NoParameter(c) then LeftOut()
    else if !GivesNumber(c) then Wrong(TextGiven(c))
    else if lo <= NumberGiven(c) <= hi then Stored(after)
    else Beyond(TextGiven(c))
  }

  /** A number is rounded, and the integer is taken from `lo` to `hi`. */
  function TakesInteger(c: Command, lo: int, hi: int, after: State): Effect {
    if NoParameter(c) then LeftOut()
    else if !GivesNumber(c) then Wrong(TextGiven(c))
    else if lo <= IntegerGiven(c) <= hi then Stored(after)
    else Beyond(TextGiven(c))
  }

  /** ON, OFF and numbers are taken. */
  function TakesSwitch(c: Command, after: State): Effect {
    if NoParameter(c) then LeftOut()
    else if SaysOn(c) || SaysOff(c) || GivesNumber(c) then Stored(after)
    else Wrong(TextGiven(c))
  }

  /** The words are taken in both spellings and in either case. */
  function TakesWord<T>(c: Command, words: seq<Keyword<T>>, after: State): Effect {
    if NoParameter(c) then LeftOut()
    else if NoneIsSpelled(words, Upper(TextGiven(c))) then Wrong(TextGiven(c))
    else Stored(after)
  }

  /** Any number of names is taken, all in quotes; the error names the first that is not. */
  ghost function TakesNames(c: Command, after: State): Effect {
    if c.args == [] then LeftOut()
    else if i: nat :| FirstBare(c.args, i) then Wrong(Trim(c.args[i]))
    else Stored(after)
  }

  // ------------------------------------------------------------- that is how settings are read

  lemma {:induction false} KeywordIsFirst<T(!new)>(words: seq<Keyword<T>>, text: string)
    ensures FindKeyword(words, text).None? <==> NoneIsSpelled(words, text)
    ensures FindKeyword(words, text).Some? ==>
              exists i: nat :: FirstSpelled(words, i, text) && FindKeyword(words, text) == Some(words[i].value)
  {
    if words != [] {
      var rest := words[1..];
      KeywordIsFirst(rest, text);
      assert forall i :: 0 <= i < |rest| ==> rest[i] == words[i + 1];
      assert forall i :: 1 <= i < |words| ==> words[i] == rest[i - 1];
      if SpelledAs(words[0], text) {
        assert FirstSpelled(words, 0, text);
      } else if FindKeyword(words, text).Some? {
        var i: nat :| FirstSpelled(rest, i, text) && FindKeyword(rest, text) == Some(rest[i].value);
        assert FirstSpelled(words, i + 1, text);
      }
    }
  }

  lemma WordIsFound<T(!new)>(c: Command, words: seq<Keyword<T>>, field: T)
    ensures var found := FindKeyword(words, Upper(TextGiven(c)));
            && (found.None? <==> NoneIsSpelled(words, Upper(TextGiven(c))))
            && (found.Some? ==> WordGiven(c, words, field) == found.value)
  {
    hide Unquote, Upper, FindKeyword, NoneIsSpelled, SpelledAs;
    KeywordIsFirst(words, Upper(TextGiven(c)));
  }

  lemma {:induction false} FirstUnquotedIsBare(args: seq<string>)
    ensures FirstUnquoted(args).None? ==> forall i: nat :: !FirstBare(args, i)
    ensures FirstUnquoted(args).Some? ==> exists i: nat :: FirstBare(args, i) && FirstUnquoted(args).value == Trim(args[i])
  {
    hide Trim;
    if args != [] {
      var rest := args[1..];
      FirstUnquotedIsBare(rest);
      assert forall i :: 0 <= i < |rest| ==> rest[i] == args[i + 1];
      if !InQuotes(args[0]) {
        assert FirstBare(args, 0);
      } else if FirstUnquoted(args).Some? {
        var i: nat :| FirstBare(rest, i) && FirstUnquoted(rest).value == Trim(rest[i]);
        assert forall k :: 1 <= k < |args| ==> args[k] == rest[k - 1];
        assert FirstBare(args, i + 1);
      } else {
        assert forall i: nat :: FirstBare(args, i) ==> i > 0 && FirstBare(rest, i - 1);
      }
    }
  }

  lemma NamesAreRead(c: Command)
    ensures FunctionNames(c.args) == NamesGiven(c)
    ensures forall after :: TakesNames(c, after) ==
              if c.args == [] then LeftOut()
              else if FirstUnquoted(c.args).Some? then Wrong(FirstUnquoted(c.args).value) else Stored(after)
  {
    hide Trim, Unquote, Upper, InQuotes, FirstUnquoted;
    FirstUnquotedIsBare(c.args);
  }

  // ------------------------------------------------------------- what each command takes and does

  /** The suffix of a header; left out or 0, it means 1. */
  function SuffixOf(c: Command): int { if c.suffixes == [] || c.suffixes[0] == 0 then 1 else c.suffixes[0] }

  /** How the common commands are written. */
  function CommonHeader(key: CommonKey): string {
    match key
    case Idn => "*IDN"
    case Rst => "*RST"
    case Cls => "*CLS"
    case Opt => "*OPT"
    case Lrn => "*LRN"
    case Opc => "*OPC"
    case Wai => "*WAI"
    case Trg => "*TRG"
    case Ese => "*ESE"
    case Esr => "*ESR"
    case Sre => "*SRE"
    case Stb => "*STB"
    case Sav => "*SAV"
    case Rcl => "*RCL"
  }

  lemma CommonHeadersDiffer()
    ensures forall k: CommonKey, m: CommonKey :: CommonHeader(k) == CommonHeader(m) ==> k == m
  {
    forall k: CommonKey, m: CommonKey | CommonHeader(k) == CommonHeader(m) ensures k == m {
      var a, b := CommonHeader(k), CommonHeader(m);
      assert a[1] == b[1] && a[2] == b[2] && a[3] == b[3];
    }
  }

  lemma KnownHeader(header: string)
    ensures CommonKeyOf(header).Some? ==> header == CommonHeader(CommonKeyOf(header).value)
  {}

  lemma CommonHeaderIsKnown(key: CommonKey)
    ensures CommonKeyOf(CommonHeader(key)) == Some(key)
  {
    KnownHeader(CommonHeader(key));
    CommonHeadersDiffer();
    hide CommonKeyOf;
    CommonHeaderIsSome(key);
  }

  lemma CommonHeaderIsSome(key: CommonKey)
    ensures CommonKeyOf(CommonHeader(key)).Some?
  {}

  /** A header is a common command exactly when it is written so. */
  lemma CommonHeadersAreKnown(header: string, key: CommonKey)
    ensures CommonKeyOf(header) == Some(key) <==> header == CommonHeader(key)
  {
    hide CommonHeader, CommonKeyOf;
    CommonHeadersDiffer();
    KnownHeader(header);
    CommonHeaderIsKnown(key);
  }

  ghost function CommonOutcome(w: World, s: State, c: Command, key: CommonKey): Effect {
    match key
    case Idn => Unknown("*IDN")
    case Rst => Stored(ResetState(w.options, s.errors))
    case Cls => Stored(ClearedStatus(s))
    case Opt => Unknown("*OPT")
    case Lrn => Unknown("*LRN")
    case Opc => Stored(s.(status := s.status.(eventStatus := s.status.eventStatus + {0})))
    case Wai => Stored(s)
    case Trg => Stored(s.(initiated := true))
    case Ese => TakesInteger(c, 0, 255, s.(status := s.status.(eventStatusEnable := IntegerGiven(c))))
    case Esr => Unknown("*ESR")
    case Sre => TakesInteger(c, 0, 255, s.(status := s.status.(serviceRequestEnable := IntegerGiven(c))))
    case Stb => Unknown("*STB")
    case Sav => TakesInteger(c, 10, 24, s.(savedSetups := s.savedSetups + {IntegerGiven(c)}))
    case Rcl =>
      if !NoParameter(c) && GivesNumber(c) && 3 <= IntegerGiven(c) <= 9 then Beyond("*RCL") else TakesInteger(c, 1, 24, s)
  }

  lemma CommonCommands(w: World, s: State, c: Command, key: CommonKey)
    requires !c.query
    ensures CommonEffect(w, s, c, key) == CommonOutcome(w, s, c, key)
  {
    hide ParseNumber, Unquote, Lround, ResetState, ClearedStatus, StatusByte, BitsValue, IntText, QuoteJoin;
  }

  ghost function RouteOutcome(s: State, c: Command): Effect {
    var words := [Keyword(ThreeWattmeter, "3W", "3W"), Keyword(TwoWattmeter, "2W", "2W")];
    TakesWord(c, words, s.(wiring := WordGiven(c, words, s.wiring)))
  }

  lemma RouteCommands(s: State, c: Command)
    requires !c.query
    ensures RouteEffect(s, c) == RouteOutcome(s, c)
  {
    hide WordGiven, NoneIsSpelled, Unquote, Upper;
    var words := [Keyword(ThreeWattmeter, "3W", "3W"), Keyword(TwoWattmeter, "2W", "2W")];
    WordIsFound(c, words, s.wiring);
    var text, rest := Upper(TextGiven(c)), words[1..];
    assert rest == [words[1]] && rest[1..] == [];
    assert FindKeyword(rest, text) == if text == "2W" then Some(TwoWattmeter) else None;
  }

  ghost function InputOutcome(w: World, s: State, c: Command, key: InputKey): Effect {
    var n := SuffixOf(c);
    if n < 1 || n > w.options.channels then Beyond("input channel " + IntText(n))
    else
      var x := s.inputs[n];
      match key
      case Coupling =>
        var words := [Keyword(CouplingAC, "AC", "AC"), Keyword(CouplingDC, "DC", "DC")];
        TakesWord(c, words, s.(inputs := s.inputs[n := x.(coupling := WordGiven(c, words, x.coupling))]))
      case FilterState => TakesSwitch(c, s.(inputs := s.inputs[n := x.(filter := SwitchGiven(c))]))
      case Gain =>
        if n % 2 == 0 then Clash("GAIN applies to current channels only")
        else TakesNumber(c, 0.0, 1000000000000.0, s.(inputs := s.inputs[n := x.(gain := NumberGiven(c))]))
      case Shunt =>
        var words := [Keyword(Internal, "INT", "INTERNAL"), Keyword(External, "EXT", "EXTERNAL")];
        if n % 2 == 0 then Clash("SHUNt applies to current channels only")
        else TakesWord(c, words, s.(inputs := s.inputs[n := x.(shunt := WordGiven(c, words, x.shunt))]))
      case FilterFrequency => Unknown("INP#:FILT:FREQ")
  }

  lemma InputWordCommands(w: World, s: State, c: Command, key: InputKey)
    requires !c.query && (key.Coupling? || key.Shunt?)
    ensures InputEffect(w, s, c, key) == InputOutcome(w, s, c, key)
  {
    hide WordGiven, FindKeyword, NoneIsSpelled, IntText, ParseNumber, Unquote, Upper, Trim, BooleanAccess, NumberAccess;
    if 1 <= c.Suffix() <= w.options.channels {
      var x := s.inputs[c.Suffix()];
      WordIsFound(c, COUPLINGS, x.coupling);
      WordIsFound(c, SHUNTS, x.shunt);
    }
  }

  lemma InputCommands(w: World, s: State, c: Command, key: InputKey)
    requires !c.query
    ensures InputEffect(w, s, c, key) == InputOutcome(w, s, c, key)
  {
    hide WordGiven, KeywordAccess, IntText, ParseNumber, Unquote, Upper, Trim;
    if key.Coupling? || key.Shunt? {
      InputWordCommands(w, s, c, key);
    } else {
      assert "ON" != "OFF";
    }
  }

  /** The first range that holds 99.9 % of the request, or the last range. */
  predicate Suffices(ranges: RangeSet, i: nat, wanted: real) {
    && i < |ranges|
    && (ranges[i] >= wanted * 0.999 || i == |ranges| - 1)
    && forall k :: 0 <= k < i ==> ranges[k] < wanted * 0.999
  }

  ghost function RangeFor(ranges: RangeSet, wanted: real): real {
    if i: nat :| Suffices(ranges, i, wanted) then ranges[i] else ranges[0]
  }

  lemma {:induction false} SnapSuffices(ranges: RangeSet, wanted: real)
    ensures exists i: nat :: Suffices(ranges, i, wanted) && SnapRange(ranges, wanted) == ranges[i]
  {
    if |ranges| == 1 || ranges[0] >= wanted * 0.999 {
      assert Suffices(ranges, 0, wanted);
    } else {
      var rest: RangeSet := ranges[1..];
      SnapSuffices(rest, wanted);
      var i: nat :| Suffices(rest, i, wanted) && SnapRange(rest, wanted) == rest[i];
      assert forall k :: 1 <= k < |ranges| ==> ranges[k] == rest[k - 1];
      assert Suffices(ranges, i + 1, wanted) && ranges[i + 1] == rest[i];
    }
  }

  lemma SnapIsRangeFor(ranges: RangeSet, wanted: real)
    ensures SnapRange(ranges, wanted) == RangeFor(ranges, wanted)
  {
    SnapSuffices(ranges, wanted);
    var i: nat :| Suffices(ranges, i, wanted) && SnapRange(ranges, wanted) == ranges[i];
    assert forall j: nat :: Suffices(ranges, j, wanted) ==> j == i;
  }

  /** A number up to 0.1 % outside the ranges selects the first range that suffices, and turns autoranging off. */
  ghost function RangeOutcome(c: Command, ranges: RangeSet, after: State): Effect {
    if NoParameter(c) then LeftOut()
    else if !GivesNumber(c) then Wrong(TextGiven(c))
    else if ranges[0] * 0.999 <= NumberGiven(c) <= ranges[|ranges| - 1] * 1.001 then Stored(after)
    else Beyond(TextGiven(c))
  }

  ghost function VoltageOutcome(w: World, s: State, c: Command, key: RangingKey): Effect {
    var n := SuffixOf(c);
    if n < 1 || n > 6 then Beyond("phase " + IntText(n))
    else
      var x, ranges := s.sense.voltage[n], w.options.voltageRanges;
      match key
      case Range =>
        var config := x.(range := RangeFor(ranges, NumberGiven(c)), autorange := false);
        RangeOutcome(c, ranges, s.(sense := s.sense.(voltage := s.sense.voltage[n := config])))
      case RangeAuto => TakesSwitch(c, s.(sense := s.sense.(voltage := s.sense.voltage[n := x.(autorange := SwitchGiven(c))])))
      case RangeList => Unknown("VOLT#" + ":RANG:LIST")
      case Scale =>
        TakesNumber(c, 0.9, 10000000.0, s.(sense := s.sense.(voltage := s.sense.voltage[n := x.(scale := NumberGiven(c))])))
  }

  ghost function CurrentOutcome(w: World, s: State, c: Command, key: RangingKey): Effect {
    var n := SuffixOf(c);
    if n < 1 || n > 6 then Beyond("phase " + IntText(n))
    else
      var x, ranges := s.sense.current[n], w.options.currentRanges;
      match key
      case Range =>
        var config := x.(range := RangeFor(ranges, NumberGiven(c)), autorange := false);
        RangeOutcome(c, ranges, s.(sense := s.sense.(current := s.sense.current[n := config])))
      case RangeAuto => TakesSwitch(c, s.(sense := s.sense.(current := s.sense.current[n := x.(autorange := SwitchGiven(c))])))
      case RangeList => Unknown("CURR#" + ":RANG:LIST")
      case Scale =>
        TakesNumber(c, 0.9, 10000000.0, s.(sense := s.sense.(current := s.sense.current[n := x.(scale := NumberGiven(c))])))
  }

  lemma RangingCommands(w: World, s: State, c: Command, voltage: bool, key: RangingKey)
    requires !c.query
    ensures RangingEffect(w, s, c, voltage, key) == if voltage then VoltageOutcome(w, s, c, key) else CurrentOutcome(w, s, c, key)
  {
    hide IntText, ParseNumber, Unquote, Upper, Trim, SnapRange, RangeFor, FormatSettings, Join;
    assert "ON" != "OFF";
    SnapIsRangeFor(RangesOf(w.options, voltage), NumberGiven(c));
  }

  ghost function SenseOutcome(s: State, c: Command, key: FunctionKey): Effect {
    match key
    case FunctionList =>
      if !s.sense.concurrent && |c.args| > 1 && (forall i: nat :: !FirstBare(c.args, i)) then Clash("FUNCtion:CONCurrent is OFF")
      else TakesNames(c, s.(sense := s.sense.(functions := NamesGiven(c))))
    case FunctionsAll =>
      Stored(s.(sense := s.sense.(functions :=
        ["VOLT1", "VOLT2", "VOLT3", "CURR1", "CURR2", "CURR3", "POW1:ACT", "POW2:ACT", "POW3:ACT", "FREQ", "TIME"])))
    case FunctionsOff => Stored(s.(sense := s.sense.(functions := [])))
    case Concurrent =>
      var invalid := s.sense.concurrent && !SwitchGiven(c) && |s.sense.functions| > 1;
      TakesSwitch(c, s.(sense := s.sense.(
        concurrent := SwitchGiven(c),
        functions := if invalid then [s.sense.functions[0]] else s.sense.functions)))
    case FunctionCount => Unknown("FUNC:COUN")
  }

  lemma SenseCommands(w: World, s: State, c: Command, key: FunctionKey)
    requires !c.query
    ensures FunctionEffect(s, c, key) == SenseOutcome(s, c, key)
  {
    hide TakesNames, NamesGiven, FunctionNames, FirstUnquoted, FirstBare, ParseNumber, Unquote, Upper, Trim, QuoteJoin, IntText;
    assert "ON" != "OFF";
    NamesAreRead(c);
    FirstUnquotedIsBare(c.args);
    if |s.sense.functions| > 1 { assert s.sense.functions[..1] == [s.sense.functions[0]]; }
  }

  lemma ApertureCommands(w: World, s: State, c: Command)
    requires !c.query
    ensures ApertureEffect(w, s, c) == TakesNumber(c, 0.015, 3600.0, s.(sense := s.sense.(aperture := NumberGiven(c))))
  {
    hide ParseNumber, Unquote;
  }

  ghost function SweepOutcome(s: State, c: Command, key: SweepKey): Effect {
    var n := SuffixOf(c);
    if n < 1 || n > 2 then Beyond("sweep block " + IntText(n))
    else
      var x := s.sweep[n];
      match key
      case SweepState => TakesSwitch(c, s.(sweep := s.sweep[n := x.(enabled := SwitchGiven(c))]))
      case SweepTime =>
        if !NoParameter(c) && Upper(TextGiven(c)) == "MAX" then Stored(s.(sweep := s.sweep[n := x.(time := 3600.0)]))
        else TakesNumber(c, 0.001, 3600.0, s.(sweep := s.sweep[n := x.(time := NumberGiven(c))]))
      case OffsetTime => TakesNumber(c, -3600.0, 3600.0, s.(sweep := s.sweep[n := x.(offsetTime := NumberGiven(c))]))
      case SweepCount => TakesInteger(c, 1, 1000000, s.(sweep := s.sweep[n := x.(count := IntegerGiven(c))]))
      case Sparsing => TakesInteger(c, 1, 65535, s.(sweep := s.sweep[n := x.(sparsing := IntegerGiven(c))]))
      case SweepFunctions => TakesNames(c, s.(sweep := s.sweep[n := x.(functions := NamesGiven(c))]))
      case SweepPoints => Unknown("SWE#:POINTS")
      case OffsetPoints => Unknown("SWE#:OFFS:POINTS")
  }

  lemma SweepCommands(w: World, s: State, c: Command, key: SweepKey)
    requires !c.query
    ensures SweepEffect(w, s, c, key) == SweepOutcome(s, c, key)
  {
    hide TakesNames, NamesGiven, FunctionNames, FirstUnquoted, ParseNumber, Unquote, Upper, Trim, QuoteJoin, IntText, Lround, AsInt;
    assert "ON" != "OFF";
    NamesAreRead(c);
  }

  /** The name of a synchronization source: EXT, or an input with its number, which may be left out. */
  function SourceGiven(c: Command): Option<string> {
    var token := TokenOf(TextGiven(c));
    if token.text == "EXT" || token.text == "EXTERNAL" then Some("EXT")
    else if token.hasSuffix && (token.suffix < 1 || token.suffix > 6) then None
    else
      var number := if token.hasSuffix then IntText(token.suffix) else "1";
      if token.text == "VOLT" || token.text == "VOLTAGE" then Some("VOLT" + number)
      else if token.text == "CURR" || token.text == "CURRENT" then Some("CURR" + number)
      else None
  }

  /** The cut-off frequency that a number is within a millionth of. */
  function CutOffGiven(c: Command): Option<real> {
    var v := NumberGiven(c);
    if 99.9999 <= v <= 100.0001 then Some(100.0)
    else if 999.999 <= v <= 1000.001 then Some(1000.0)
    else if 9999.99 <= v <= 10000.01 then Some(10000.0)
    else None
  }

  ghost function SyncOutcome(s: State, c: Command, key: SyncKey): Effect {
    match key
    case SyncState => TakesSwitch(c, s.(sync := s.sync.(enabled := SwitchGiven(c))))
    case LevelUnit =>
      var words := [Keyword(Absolute, "ABS", "ABSOLUTE"), Keyword(Percent, "PCT", "PERCENT")];
      TakesWord(c, words, s.(sync := s.sync.(unit := WordGiven(c, words, s.sync.unit))))
    case SyncTimeout => TakesNumber(c, 0.015, 3600.0, s.(sync := s.sync.(timeout := NumberGiven(c))))
    case SyncLevel =>
      var after := s.(sync := s.sync.(level := NumberGiven(c)));
      if s.sync.unit == Percent then TakesNumber(c, -150.0, 150.0, after) else TakesNumber(c, -1000.0, 1000.0, after)
    case SyncSlope =>
      var words := [Keyword(SlopeMode.Positive, "POS", "POSITIVE"), Keyword(SlopeMode.Negative, "NEG", "NEGATIVE")];
      TakesWord(c, words, s.(sync := s.sync.(slope := WordGiven(c, words, s.sync.slope))))
    case SyncFilterState => TakesSwitch(c, s.(sync := s.sync.(filter := SwitchGiven(c))))
    case SyncFilterFrequency =>
      if NoParameter(c) then LeftOut()
      else if !GivesNumber(c) || CutOffGiven(c).None? then Wrong(TextGiven(c))
      else Stored(s.(sync := s.sync.(filterFrequency := CutOffGiven(c).value)))
    case SyncSource =>
      if NoParameter(c) then LeftOut()
      else if SourceGiven(c).None? then Wrong(TextGiven(c))
      else Stored(s.(sync := s.sync.(source := SourceGiven(c).value)))
  }

  lemma SourceIsRead(c: Command)
    ensures SyncSourceOf(TextGiven(c)) == SourceGiven(c)
  {
    hide Unquote, TokenOf, IntText;
    SuffixCounts(TextGiven(c));
    assert "VOLT" + "1" == "VOLT1" && "CURR" + "1" == "CURR1";
  }

  lemma SuffixCounts(text: string)
    ensures !TokenOf(text).hasSuffix ==> TokenOf(text).suffix == 0
  {
    hide Upper, Trim, DigitStart, NatValue;
  }

  lemma SyncWordCommands(w: World, s: State, c: Command, key: SyncKey)
    requires !c.query && (key.LevelUnit? || key.SyncSlope?)
    ensures SyncEffect(w, s, c, key) == SyncOutcome(s, c, key)
  {
    hide WordGiven, FindKeyword, NoneIsSpelled, Unquote, Upper, BooleanAccess, NumberAccess;
    WordIsFound(c, LEVEL_UNITS, s.sync.unit);
    WordIsFound(c, SLOPES, s.sync.slope);
  }

  lemma SyncCommands(w: World, s: State, c: Command, key: SyncKey)
    requires !c.query
    ensures SyncEffect(w, s, c, key) == SyncOutcome(s, c, key)
  {
    hide WordGiven, KeywordAccess, NoneIsSpelled, Unquote, Upper, Trim, ParseNumber, SyncSourceOf, SourceGiven;
    if key.LevelUnit? || key.SyncSlope? {
      SyncWordCommands(w, s, c, key);
    } else {
      assert "ON" != "OFF";
      SourceIsRead(c);
    }
  }

  ghost function InitiateOutcome(s: State, c: Command, key: InitiateKey): Effect {
    match key
    case Continuous => TakesSwitch(c, s.(continuous := SwitchGiven(c)))
    case Immediate => Stored(s.(initiated := true))
    case Sequence =>
      var n := SuffixOf(c);
      if n < 1 || n > 2 then Beyond("sequence " + IntText(n)) else Stored(s.(sweep := s.sweep[n := s.sweep[n].(enabled := true)]))
    case SequenceName => Stored(s.(sweep := s.sweep[1 := s.sweep[1].(enabled := true)]))
  }

  lemma InitiateCommands(s: State, c: Command, key: InitiateKey)
    requires !c.query
    ensures AcquisitionEffect(s, c, key) == InitiateOutcome(s, c, key)
  {
    hide Unquote, Upper, Trim, ParseNumber, IntText;
    assert "ON" != "OFF";
  }

  /** Both blocks of the trace memory stop recording. */
  function NotRecording(s: State): State {
    s.(sweep := [s.sweep[0], s.sweep[1].(enabled := false), s.sweep[2].(enabled := false)])
  }

  lemma AbortCommands(s: State, c: Command)
    requires !c.query
    ensures SweepsOff(s) == NotRecording(s)
    ensures AbortEffect(s, c) == Stored(NotRecording(s).(initiated := false))
  {
    assert SweepsOff(s).sweep == NotRecording(s).sweep;
  }

  /** A time stamp has six parts, which are not looked at. */
  function TakesStamp(c: Command, s: State): Effect {
    if |c.args| < 6 then Wanting("yyyy,MM,dd,hh,mm,ss") else Stored(s)
  }

  ghost function StartTriggerOutcome(s: State, c: Command, key: TriggerKey): Effect {
    var x := s.triggerStart;
    match key
    case TriggerSource => TakesText(c, s.(triggerStart := x.(source := Upper(TextGiven(c)))))
    case TriggerTime => TakesStamp(c, s)
    case TriggerLevel => TakesNumber(c, -10000000.0, 10000000.0, s.(triggerStart := x.(level := NumberGiven(c))))
    case TriggerSlope =>
      var words := [Keyword(SlopeMode.Positive, "POS", "POSITIVE"), Keyword(SlopeMode.Negative, "NEG", "NEGATIVE")];
      TakesWord(c, words, s.(triggerStart := x.(slope := WordGiven(c, words, x.slope))))
  }

  ghost function StopTriggerOutcome(s: State, c: Command, key: TriggerKey): Effect {
    var x := s.triggerStop;
    match key
    case TriggerSource => TakesText(c, s.(triggerStop := x.(source := Upper(TextGiven(c)))))
    case TriggerTime => TakesStamp(c, s)
    case TriggerLevel => TakesNumber(c, -10000000.0, 10000000.0, s.(triggerStop := x.(level := NumberGiven(c))))
    case TriggerSlope =>
      var words := [Keyword(SlopeMode.Positive, "POS", "POSITIVE"), Keyword(SlopeMode.Negative, "NEG", "NEGATIVE")];
      TakesWord(c, words, s.(triggerStop := x.(slope := WordGiven(c, words, x.slope))))
  }

  lemma TriggerCommands(w: World, s: State, c: Command, start: bool, key: TriggerKey)
    requires !c.query
    ensures TriggerEffect(w, s, c, start, key) == if start then StartTriggerOutcome(s, c, key) else StopTriggerOutcome(s, c, key)
  {
    hide WordGiven, FindKeyword, NoneIsSpelled, Unquote, Upper, ParseNumber;
    WordIsFound(c, SLOPES, TriggerOf(s, start).slope);
  }

  ghost function TransformOutcome(s: State, c: Command, key: TransformKey): Effect {
    var x := s.transform;
    match key
    case TransformMode =>
      var words := [Keyword(Fft, "FFT", "FFT"), Keyword(Dft, "DFT", "DFT"), Keyword(Std, "STD", "STD")];
      TakesWord(c, words, s.(transform := x.(mode := WordGiven(c, words, x.mode))))
    case TransformFunctions => TakesNames(c, s.(transform := x.(functions := NamesGiven(c))))
    case TransformStart => TakesNumber(c, 0.0, 1000000.0, s.(transform := x.(start := NumberGiven(c))))
    case TransformStop => TakesNumber(c, 0.0, 1000000.0, s.(transform := x.(stop := NumberGiven(c))))
    case TransformCycles =>
      if !NoParameter(c) && GivesNumber(c) && IntegerGiven(c) in {5, 7, 9, 11} then Wrong(IntText(IntegerGiven(c)))
      else TakesInteger(c, 4, 12, s.(transform := x.(cycles := IntegerGiven(c))))
    case TransformGrouping =>
      var words := [
        Keyword(Component, "COMP", "COMPONENT"), Keyword(Harmonic, "HARM", "HARMONIC"), Keyword(HGroup, "HGR", "HGROUP"),
        Keyword(HSGroup, "HSGR", "HSGROUP"), Keyword(ISGroup, "ISGR", "ISGROUP"), Keyword(SGroup, "SGR", "SGROUP")];
      TakesWord(c, words, s.(transform := x.(grouping := WordGiven(c, words, x.grouping))))
    case TransformOnce =>
      if NoParameter(c) then LeftOut() else if Upper(TextGiven(c)) == "ONCE" then Stored(s) else Wrong(TextGiven(c))
  }

  lemma TransformWordCommands(w: World, s: State, c: Command, key: TransformKey)
    requires !c.query && (key.TransformMode? || key.TransformGrouping? || key.TransformFunctions?)
    ensures TransformEffect(w, s, c, key) == TransformOutcome(s, c, key)
  {
    hide WordGiven, FindKeyword, NoneIsSpelled, Unquote, Upper, NumberAccess, CyclesEffect, NamesGiven, FunctionNames, FirstUnquoted,
         TakesNames, Trim, QuoteJoin;
    WordIsFound(c, TRANSFORM_MODES, s.transform.mode);
    WordIsFound(c, GROUPINGS, s.transform.grouping);
    NamesAreRead(c);
  }

  lemma TransformCommands(w: World, s: State, c: Command, key: TransformKey)
    requires !c.query
    ensures TransformEffect(w, s, c, key) == TransformOutcome(s, c, key)
  {
    hide WordGiven, KeywordAccess, FunctionListAccess, Unquote, Upper, ParseNumber, Lround, IntText;
    if key.TransformMode? || key.TransformGrouping? || key.TransformFunctions? {
      TransformWordCommands(w, s, c, key);
    }
  }

  ghost function IntegralOutcome(s: State, c: Command, key: IntegralKey): Effect {
    var x := s.integral;
    match key
    case ClearAuto => TakesSwitch(c, s.(integral := x.(autoClear := SwitchGiven(c))))
    case ClearNow => Stored(s.(system := s.system.(timerSeconds := 0.0)))
    case IntegralFunctions => TakesNames(c, s.(integral := x.(functions := NamesGiven(c))))
    case StartSource =>
      var words := [
        Keyword(StartOnCommand, "CMD", "CMD"), Keyword(StartOnTime, "TIME", "TIME"), Keyword(StartManually, "MAN", "MANUAL")];
      TakesWord(c, words, s.(integral := x.(startSource := WordGiven(c, words, x.startSource))))
    case StartTime => TakesStamp(c, s)
    case StartNow =>
      if x.enabled then Stored(s.(integral := x.(running := true))) else Clash("CALCulate:INTegral:STATe is OFF")
    case StopSource =>
      var words := [
        Keyword(StopOnCommand, "CMD", "CMD"), Keyword(StopOnTime, "TIME", "TIME"), Keyword(StopManually, "MAN", "MANUAL"),
        Keyword(StopOnInterval, "TINT", "TINTERVAL")];
      TakesWord(c, words, s.(integral := x.(stopSource := WordGiven(c, words, x.stopSource))))
    case StopTime => TakesStamp(c, s)
    case StopInterval => TakesNumber(c, 0.001, 9990000.0, s.(integral := x.(stopInterval := NumberGiven(c))))
    case StopNow => Stored(s.(integral := x.(running := false)))
    case IntegralState => TakesSwitch(c, s.(integral := x.(enabled := SwitchGiven(c))))
  }

  lemma IntegralWordCommands(w: World, s: State, c: Command, key: IntegralKey)
    requires !c.query && (key.StartSource? || key.StopSource? || key.IntegralFunctions?)
    ensures IntegralEffect(w, s, c, key) == IntegralOutcome(s, c, key)
  {
    hide WordGiven, FindKeyword, NoneIsSpelled, Unquote, Upper, NumberAccess, BooleanAccess, NamesGiven, FunctionNames, FirstUnquoted,
         TakesNames, Trim, QuoteJoin;
    WordIsFound(c, START_SOURCES, s.integral.startSource);
    WordIsFound(c, STOP_SOURCES, s.integral.stopSource);
    NamesAreRead(c);
  }

  lemma IntegralCommands(w: World, s: State, c: Command, key: IntegralKey)
    requires !c.query
    ensures IntegralEffect(w, s, c, key) == IntegralOutcome(s, c, key)
  {
    hide WordGiven, KeywordAccess, FunctionListAccess, Unquote, Upper, Trim, ParseNumber;
    if key.StartSource? || key.StopSource? || key.IntegralFunctions? {
      IntegralWordCommands(w, s, c, key);
    } else {
      assert "ON" != "OFF";
    }
  }

  ghost function CorrectionOutcome(s: State, c: Command): Effect {
    var words := [Keyword(Star, "STAR", "STAR"), Keyword(Delta, "DELT", "DELTA")];
    TakesWord(c, words, s.(power := s.power.(correction := WordGiven(c, words, s.power.correction))))
  }

  /** Two names, in upper case. Only POWer and POWer460 have such a reference. */
  function ReferenceOutcome(s: State, c: Command): Effect {
    var n := if c.suffixes == [] then 0 else c.suffixes[0];
    if n != 0 && n != 460 then Unknown("CALCulate:POWer" + IntText(n))
    else if |c.args| < 2 then Wanting("<function1>,<function2>")
    else Stored(s.(power := s.power.(
      efficiencyInput := Upper(Unquote(c.args[0])), efficiencyOutput := Upper(Unquote(c.args[1])))))
  }

  lemma PowerCommands(s: State, c: Command)
    requires !c.query
    ensures HarmonicOrderEffect(s, c) == TakesInteger(c, 0, 100, s.(power := s.power.(harmonicOrder := IntegerGiven(c))))
    ensures CorrectionEffect(s, c) == CorrectionOutcome(s, c)
    ensures ReferenceEffect(s, c) == ReferenceOutcome(s, c)
  {
    hide WordGiven, FindKeyword, NoneIsSpelled, Unquote, Upper, ParseNumber, Lround, IntText;
    WordIsFound(c, CORRECTIONS, s.power.correction);
  }

  function TraceOutcome(s: State, c: Command, key: TraceKey): Effect {
    match key
    case TracePreamble => Unknown("TRAC:PRE")
    case TraceStatus => Unknown("TRAC:STAT")
    case TraceFree => Unknown("TRAC:FREE")
    case TraceLength => Unknown("TRAC:CAT:LEN")
    case TraceDelete => Stored(NotRecording(s))
    case TraceData => Unknown("TRAC")
  }

  lemma TraceCommands(w: World, s: State, c: Command, key: TraceKey)
    requires !c.query
    ensures TraceEffect(w, s, c, key) == TraceOutcome(s, c, key)
  {
    hide TracePoints, IntText, ReadWindow, TraceResponse, Preamble, BlockParameter, SweepsOff, NotRecording;
    AbortCommands(s, c);
  }

  /** The format given, and the length given behind it or the one in force. */
  ghost function SettingGiven(c: Command, words: seq<Keyword<NumberFormat>>, x: FormatSetting): FormatSetting {
    FormatSetting(WordGiven(c, words, x.format),
                  if |c.args| > 1 && ParseNumber(c.args[1]).Some? then Lround(ParseNumber(c.args[1]).value) else x.length)
  }

  /** The other format stays, unless one of the two is text and the other is binary. */
  function Follows(x: FormatSetting, format: NumberFormat, binary: NumberFormat): FormatSetting {
    if format == Ascii then x.(format := Ascii) else if x.format == Ascii then x.(format := binary) else x
  }

  ghost function TransferOutcome(s: State, c: Command, isData: bool): Effect {
    var words := [Keyword(Ascii, "ASC", "ASCII"), Keyword(Integer, "INT", "INTEGER"), Keyword(Real, "REAL", "REAL")];
    if NoParameter(c) || NoneIsSpelled(words, Upper(TextGiven(c))) then TakesWord(c, words, s)
    else if |c.args| > 1 && ParseNumber(c.args[1]).None? then Wrong(c.args[1])
    else if isData then
      var mine := SettingGiven(c, words, s.format.data);
      Stored(s.(format := s.format.(data := mine, status := Follows(s.format.status, mine.format, Integer))))
    else
      var mine := SettingGiven(c, words, s.format.status);
      Stored(s.(format := s.format.(status := mine, data := Follows(s.format.data, mine.format, Real))))
  }

  lemma FormatIsFound(c: Command, field: NumberFormat)
    ensures var words := [Keyword(Ascii, "ASC", "ASCII"), Keyword(Integer, "INT", "INTEGER"), Keyword(Real, "REAL", "REAL")];
            var text := Upper(TextGiven(c));
            && (FormatOf(text).None? <==> NoneIsSpelled(words, text))
            && (FormatOf(text).Some? ==> WordGiven(c, words, field) == FormatOf(text).value)
  {
    hide WordGiven, NoneIsSpelled, Unquote, Upper;
    var words := [Keyword(Ascii, "ASC", "ASCII"), Keyword(Integer, "INT", "INTEGER"), Keyword(Real, "REAL", "REAL")];
    WordIsFound(c, words, field);
    var text, two, one := Upper(TextGiven(c)), words[1..], words[2..];
    assert two[1..] == one && one[1..] == [];
    assert FindKeyword(one, text) == if text == "REAL" then Some(Real) else None;
    assert FindKeyword(two, text) == if text == "INT" || text == "INTEGER" then Some(Integer) else FindKeyword(one, text);
  }

  lemma TransferCommands(s: State, c: Command, isData: bool)
    requires !c.query
    ensures TransferFormatEffect(s, c, isData) == TransferOutcome(s, c, isData)
  {
    hide WordGiven, NoneIsSpelled, Unquote, Upper, ParseNumber, Lround, FormatOf;
    FormatIsFound(c, s.format.data.format);
    FormatIsFound(c, s.format.status.format);
  }

  ghost function FormatOutcome(s: State, c: Command, key: FormatKey): Effect {
    match key
    case DataFormat => TransferOutcome(s, c, true)
    case StatusFormat => TransferOutcome(s, c, false)
    case ByteOrder =>
      var words := [Keyword(NormalOrder, "NORM", "NORMAL"), Keyword(SwappedOrder, "SWAP", "SWAPPED")];
      TakesWord(c, words, s.(format := s.format.(byteOrder := WordGiven(c, words, s.format.byteOrder))))
    case Transpose => TakesSwitch(c, s.(format := s.format.(transpose := SwitchGiven(c))))
  }

  lemma FormatCommands(s: State, c: Command, key: FormatKey)
    requires !c.query
    ensures FormatEffect(s, c, key) == FormatOutcome(s, c, key)
  {
    hide WordGiven, FindKeyword, NoneIsSpelled, Unquote, Upper, Trim, ParseNumber, TransferFormatEffect, TransferOutcome;
    assert "ON" != "OFF";
    WordIsFound(c, BYTE_ORDERS, s.format.byteOrder);
    TransferCommands(s, c, key.DataFormat?);
  }

  ghost function DisplayOutcome(s: State, c: Command, key: DisplayKey): Effect {
    match key
    case DisplayFunctions => TakesNames(c, s.(display := s.display.(functions := NamesGiven(c))))
    case DisplayState => TakesSwitch(c, s.(display := s.display.(enabled := SwitchGiven(c))))
    case OutputState =>
      if SuffixOf(c) != 9 then Unknown("OUTPut" + IntText(SuffixOf(c)))
      else TakesSwitch(c, s.(display := s.display.(output := SwitchGiven(c))))
  }

  lemma DisplayCommands(s: State, c: Command, key: DisplayKey)
    requires !c.query
    ensures DisplayEffect(s, c, key) == DisplayOutcome(s, c, key)
  {
    hide TakesNames, NamesGiven, FunctionNames, FirstUnquoted, Unquote, Upper, Trim, ParseNumber, QuoteJoin, IntText;
    assert "ON" != "OFF";
    NamesAreRead(c);
  }

  predicate GiveNumbers(args: seq<string>) {
    |args| >= 3 && ParseNumber(args[0]).Some? && ParseNumber(args[1]).Some? && ParseNumber(args[2]).Some?
  }

  function DateOutcome(s: State, c: Command): Effect {
    if |c.args| < 3 then Wanting("year,month,day")
    else if !GiveNumbers(c.args) then Wrong("SYSTem:DATE")
    else
      var year, month, day := ParseNumber(c.args[0]).value, ParseNumber(c.args[1]).value, ParseNumber(c.args[2]).value;
      if 1.0 <= month <= 12.0 && 1.0 <= day <= 31.0
      then Stored(s.(system := s.system.(date := Date(Truncate(year), Truncate(month), Truncate(day)))))
      else Beyond("SYSTem:DATE")
  }

  function TimeOutcome(s: State, c: Command): Effect {
    if |c.args| < 3 then Wanting("hours,minutes,seconds")
    else if !GiveNumbers(c.args) then Wrong("SYSTem:TIME")
    else
      var hours, minutes, seconds := ParseNumber(c.args[0]).value, ParseNumber(c.args[1]).value, ParseNumber(c.args[2]).value;
      if 0.0 <= hours <= 23.0 && 0.0 <= minutes <= 59.0 && 0.0 <= seconds <= 59.0
      then Stored(s.(system := s.system.(time := Time(Truncate(hours), Truncate(minutes), Truncate(seconds)))))
      else Beyond("SYSTem:TIME")
  }

  lemma ClockCommands(s: State, c: Command)
    requires !c.query
    ensures DateEffect(s, c) == DateOutcome(s, c) && TimeEffect(s, c) == TimeOutcome(s, c)
  {
    hide ParseNumber, Truncate, ThreeText;
  }

  ghost function SystemOutcome(s: State, c: Command, key: SystemKey): Effect {
    match key
    case ScpiVersion => Unknown("SYST:VERS")
    case ErrorNext => Unknown("SYST:ERR")
    case ErrorAll => Unknown("SYST:ERR:ALL")
    case KeyLock =>
      var words := [Keyword(Unlocked, "OFF", "0"), Keyword(Locked, "ON", "1"), Keyword(Remote, "REM", "REMOTE")];
      TakesWord(c, words, s.(system := s.system.(keyLock := WordGiven(c, words, s.system.keyLock))))
    case Language => TakesText(c, s.(system := s.system.(language := TextGiven(c))))
    case SystemDate => DateOutcome(s, c)
    case SystemTime => TimeOutcome(s, c)
    case GpibAddress => TakesInteger(c, 1, 30, s.(system := s.system.(gpibAddress := IntegerGiven(c))))
    case SerialBaud => TakesInteger(c, 1200, 115200, s.(system := s.system.(serialBaud := IntegerGiven(c))))
  }

  lemma SystemCommands(s: State, c: Command, key: SystemKey, version: string)
    requires !c.query
    ensures SystemEffect(s, c, key, version) == SystemOutcome(s, c, key)
  {
    hide WordGiven, FindKeyword, NoneIsSpelled, Unquote, Upper, ParseNumber, Lround, DateEffect, TimeEffect, DateOutcome, TimeOutcome,
         EntryText, EntryTexts, Join;
    WordIsFound(c, KEY_LOCKS, s.system.keyLock);
    ClockCommands(s, c);
  }

  function RegisterOutcome(s: State, c: Command, r: Register, part: RegisterPart): Effect {
    var x := s.status.Get(r);
    match part
    case Condition => Unknown("STAT:" + RegisterName(r) + ":COND")
    case Event => Unknown("STAT:" + RegisterName(r) + ":EVEN")
    case Enable => TakesInteger(c, 0, 65535, s.(status := s.status.Set(r, x.(enable := IntegerGiven(c)))))
    case PositiveTransition => TakesInteger(c, 0, 65535, s.(status := s.status.Set(r, x.(ptransition := IntegerGiven(c)))))
    case NegativeTransition => TakesInteger(c, 0, 65535, s.(status := s.status.Set(r, x.(ntransition := IntegerGiven(c)))))
  }

  lemma RegisterCommands(w: World, s: State, c: Command, r: Register, part: RegisterPart)
    requires !c.query
    ensures StatusEffect(w, s, c, r, part) == RegisterOutcome(s, c, r, part)
  {
    hide Unquote, ParseNumber, Lround, ConditionOf, Latch, BitsValue, IntText, RegisterName, EventEffect;
    if part.Event? { EventIsNoCommand(w, s, c, r); }
  }

  lemma EventIsNoCommand(w: World, s: State, c: Command, r: Register)
    requires !c.query
    ensures EventEffect(w, s, c, r) == Unknown("STAT:" + RegisterName(r) + ":EVEN")
  {
    hide ConditionOf, Latch, BitsValue, IntText, RegisterName;
  }

  function TimerOutcome(s: State, key: TimerKey): Effect {
    match key
    case ResetNow => Stored(s.(system := s.system.(timerSeconds := 0.0)))
    case ResetTime => Unknown("TIM:RES:TIME")
    case ResetAuto => Unknown("TIMer:RESet:AUTO")
  }

  function SpectrumOutcome(key: SpectrumKey): Effect {
    match key
    case SpectrumPreamble => Unknown("CALC:DATA:PRE")
    case SpectrumThd => Unknown("CALC:DATA:THD")
    case SpectrumData => Unknown("CALC:DATA")
  }

  lemma OtherCommands(w: World, s: State, c: Command)
    requires !c.query
    ensures forall key :: TimerEffect(w, s, c, key) == TimerOutcome(s, key)
    ensures forall key :: SpectrumEffect(w, s, c, key) == SpectrumOutcome(key)
    ensures DataEffect(w, s, c, true) == Unknown("DATA:STAT") && DataEffect(w, s, c, false) == Unknown("DATA")
  {
    hide Join, Window, ReadWindow, MeasurementResponse, ListParameter;
  }

  // ------------------------------------------------------------------------------ all of them

  /** What each command does: the parameters it takes, with their limits and words, the one field it stores them in, all other
      fields left alone, and the error it answers every other parameter with. */
  ghost function Outcome(w: World, s: State, c: Command): Effect {
    match c.key
    case Abort => Stored(NotRecording(s).(initiated := false))
    case RouteSystem => RouteOutcome(s, c)
    case Input(key) => InputOutcome(w, s, c, key)
    case Ranging(voltage, key) => if voltage then VoltageOutcome(w, s, c, key) else CurrentOutcome(w, s, c, key)
    case Aperture => TakesNumber(c, 0.015, 3600.0, s.(sense := s.sense.(aperture := NumberGiven(c))))
    case SamplingFrequency => Unknown("SWE:FREQ")
    case Functions(key) => SenseOutcome(s, c, key)
    case Data(withStatus) => Unknown(if withStatus then "DATA:STAT" else "DATA")
    case Sweep(key) => SweepOutcome(s, c, key)
    case HarmonicOrder => TakesInteger(c, 0, 100, s.(power := s.power.(harmonicOrder := IntegerGiven(c))))
    case PowerCorrection => CorrectionOutcome(s, c)
    case EfficiencyReference => ReferenceOutcome(s, c)
    case Common(key) => CommonOutcome(w, s, c, key)
    case Sync(key) => SyncOutcome(s, c, key)
    case Initiate(key) => InitiateOutcome(s, c, key)
    case Trigger(start, key) => if start then StartTriggerOutcome(s, c, key) else StopTriggerOutcome(s, c, key)
    case Transform(key) => TransformOutcome(s, c, key)
    case Spectrum(key) => SpectrumOutcome(key)
    case Integral(key) => IntegralOutcome(s, c, key)
    case Trace(key) => TraceOutcome(s, c, key)
    case Format(key) => FormatOutcome(s, c, key)
    case Display(key) => DisplayOutcome(s, c, key)
    case System(key) => SystemOutcome(s, c, key)
    case Status(r, part) => RegisterOutcome(s, c, r, part)
    case Timer(key) => TimerOutcome(s, key)
  }

  /** For every command of the instrument, every state and every list of parameters. */
  lemma CommandsAreTaken(w: World, s: State, c: Command)
    requires !c.query
    ensures EffectOf(w, s, c) == Outcome(w, s, c)
  {
    hide CommonEffect, AbortEffect, RouteEffect, InputEffect, RangingEffect, ApertureEffect, FunctionEffect, DataEffect, SweepEffect,
         SyncEffect, AcquisitionEffect, TriggerEffect, TransformEffect, SpectrumEffect, IntegralEffect, HarmonicOrderEffect,
         CorrectionEffect, ReferenceEffect, TraceEffect, FormatEffect, DisplayEffect, SystemEffect, StatusEffect, TimerEffect,
         CommonOutcome, RouteOutcome, InputOutcome, VoltageOutcome, CurrentOutcome, SenseOutcome, SweepOutcome, SyncOutcome,
         InitiateOutcome, StartTriggerOutcome, StopTriggerOutcome, TransformOutcome, IntegralOutcome, CorrectionOutcome,
         ReferenceOutcome, TraceOutcome, FormatOutcome, DisplayOutcome, SystemOutcome, RegisterOutcome, TimerOutcome,
         SpectrumOutcome, NotRecording, NumberGiven, IntegerGiven, TakesNumber, TakesInteger;
    match c.key
    case Common(key) => CommonCommands(w, s, c, key);
    case Abort => AbortCommands(s, c);
    case RouteSystem => RouteCommands(s, c);
    case Input(key) => InputCommands(w, s, c, key);
    case Ranging(voltage, key) => RangingCommands(w, s, c, voltage, key);
    case Aperture => ApertureCommands(w, s, c);
    case SamplingFrequency =>
    case Functions(key) => SenseCommands(w, s, c, key);
    case Data(withStatus) => OtherCommands(w, s, c);
    case Sweep(key) => SweepCommands(w, s, c, key);
    case Sync(key) => SyncCommands(w, s, c, key);
    case Initiate(key) => InitiateCommands(s, c, key);
    case Trigger(start, key) => TriggerCommands(w, s, c, start, key);
    case Transform(key) => TransformCommands(w, s, c, key);
    case Spectrum(_) => OtherCommands(w, s, c);
    case Integral(key) => IntegralCommands(w, s, c, key);
    case HarmonicOrder => PowerCommands(s, c);
    case PowerCorrection => PowerCommands(s, c);
    case EfficiencyReference => PowerCommands(s, c);
    case Trace(key) => TraceCommands(w, s, c, key);
    case Format(key) => FormatCommands(s, c, key);
    case Display(key) => DisplayCommands(s, c, key);
    case System(key) => SystemCommands(s, c, key, w.options.scpiVersion);
    case Status(r, part) => RegisterCommands(w, s, c, r, part);
    case Timer(_) => OtherCommands(w, s, c);
  }
}
