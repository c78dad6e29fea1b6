/** Which commands answer: an accepted command responds just when it is a query, so a line of commands alone is never
    answered, and a query reads settings without changing them. */
module Queries {
  import opened Text
  import opened Decimal
  import opened Pattern
  import opened Commands
  import opened Headers
  import opened Instrument
  import opened Effects
  import opened CommandLine
  import NameLists
  import Quantities

  // ----------------------------------------------------------------------- one command

  /** What a register shows after being read: its event part and the condition it last saw may have changed. */
  predicate RegisterRead(a: RegisterState, b: RegisterState) {
    b == a.(event := b.event, previousCondition := b.previousCondition)
  }

  predicate StatusRead(a: StatusConfig, b: StatusConfig) {
    && RegisterRead(a.operation, b.operation) && RegisterRead(a.questionable, b.questionable)
    && RegisterRead(a.voltage, b.voltage) && RegisterRead(a.current, b.current)
    && b == a.(eventStatus := b.eventStatus, operation := b.operation, questionable := b.questionable, voltage := b.voltage,
               current := b.current)
  }

  /** Everything but what reading uses up: queued errors, the event status and the event parts. */
  predicate SettingsKept(a: State, b: State) {
    b == a.(errors := b.errors, status := b.status) && StatusRead(a.status, b.status)
  }

  /** An accepted command responds just when it is a query, and a query keeps the settings. */
  predicate Answers(s: State, c: Command, e: Effect) {
    e.Done? ==> (e.response.Some? <==> c.query) && (c.query ==> SettingsKept(s, e.state))
  }

  /** The same for every command: DATA? with a list also selects the functions of the list. */
  predicate AnswersOrActs(s: State, c: Command, e: Effect) {
    e.Done? ==>
      && (e.response.Some? <==> c.query)
      && (c.query ==>
            SettingsKept(if c.key.Data? && c.args != [] then WithFunctions(s, e.state.sense.functions) else s, e.state))
  }

  lemma CommonAnswers(w: World, s: State, c: Command, key: CommonKey)
    ensures Answers(s, c, CommonEffect(w, s, c, key))
  {
    hide ConditionOf, StatusByte, Mask, BitsValue, IntText, QuoteJoin, Latch, ResetState, ClearedStatus,
         IntegerAccess;
    LatchingReads(w, s, Questionable);
  }

  lemma LatchingReads(w: World, s: State, r: Register)
    ensures SettingsKept(s, Latched(w, s, r))
    ensures SettingsKept(s, WithRegister(s, r, Latch(s.status.Get(r), ConditionOf(w, s, r)).(event := {})))
  {
    hide ConditionOf, Mask;
  }

  lemma RouteAnswers(s: State, c: Command)
    ensures Answers(s, c, RouteEffect(s, c))
  {
    hide Unquote, Upper;
  }

  lemma InputAnswers(w: World, s: State, c: Command, key: InputKey)
    ensures Answers(s, c, InputEffect(w, s, c, key))
  {
    hide NumberAccess, BooleanAccess, KeywordAccess, IntText;
  }

  lemma RangingAnswers(w: World, s: State, c: Command, voltage: bool, key: RangingKey)
    ensures Answers(s, c, RangingEffect(w, s, c, voltage, key))
  {
    hide NumberAccess, BooleanAccess, FormatSettings, Join, IntText, ParseNumber, SnapRange, Unquote;
  }

  lemma SweepAnswers(w: World, s: State, c: Command, key: SweepKey)
    ensures Answers(s, c, SweepEffect(w, s, c, key))
  {
    hide NumberAccess, IntegerAccess, BooleanAccess, FunctionListAccess, IntText, Unquote, Upper, AsInt;
  }

  lemma FunctionAnswers(w: World, s: State, c: Command, key: FunctionKey)
    ensures Answers(s, c, ApertureEffect(w, s, c)) && Answers(s, c, FunctionEffect(s, c, key))
  {
    hide NumberAccess, BooleanAccess, ListParameter, QuoteJoin, IntText;
  }

  /** DATA? with a list is the one query that changes a setting: the list of functions measured. */
  lemma DataAnswers(w: World, s: State, c: Command, withStatus: bool)
    requires c.key.Data?
    ensures AnswersOrActs(s, c, DataEffect(w, s, c, withStatus))
  {
    hide ListParameter, MeasurementResponse;
  }

  lemma SyncAnswers(w: World, s: State, c: Command, key: SyncKey)
    ensures Answers(s, c, SyncEffect(w, s, c, key))
  {
    hide NumberAccess, BooleanAccess, KeywordAccess, ParseNumber, SyncSourceOf, CutOff, Unquote;
  }

  lemma AcquisitionAnswers(s: State, c: Command, key: InitiateKey)
    ensures Answers(s, c, AcquisitionEffect(s, c, key)) && Answers(s, c, AbortEffect(s, c))
  {
    hide BooleanAccess, IntText;
  }

  lemma TriggerAnswers(w: World, s: State, c: Command, start: bool, key: TriggerKey)
    ensures Answers(s, c, TriggerEffect(w, s, c, start, key))
  {
    hide NumberAccess, KeywordAccess, TextAccess, Upper;
  }

  lemma TransformAnswers(w: World, s: State, c: Command, key: TransformKey)
    ensures Answers(s, c, TransformEffect(w, s, c, key))
  {
    hide NumberAccess, IntegerAccess, KeywordAccess, FunctionListAccess, IntText, Unquote, Upper;
  }

  lemma SpectrumAnswers(w: World, s: State, c: Command, key: SpectrumKey)
    ensures Answers(s, c, SpectrumEffect(w, s, c, key))
  {
    hide ReadWindowFrom, FormatValues, FormatSettings, Join, Window, Effects.Spectrum, IntText;
  }

  lemma IntegralAnswers(w: World, s: State, c: Command, key: IntegralKey)
    ensures Answers(s, c, IntegralEffect(w, s, c, key))
  {
    hide NumberAccess, BooleanAccess, KeywordAccess, FunctionListAccess;
  }

  lemma PowerAnswers(s: State, c: Command)
    ensures Answers(s, c, HarmonicOrderEffect(s, c)) && Answers(s, c, CorrectionEffect(s, c)) && Answers(s, c, ReferenceEffect(s, c))
  {
    hide IntegerAccess, KeywordAccess, IntText, Unquote, Upper;
  }

  lemma TraceAnswers(w: World, s: State, c: Command, key: TraceKey)
    ensures Answers(s, c, TraceEffect(w, s, c, key))
  {
    hide BlockParameter, ReadWindowFrom, TraceResponse, TracePoints, Preamble, IntText, TraceName;
  }

  lemma FormatAnswers(s: State, c: Command, key: FormatKey)
    ensures Answers(s, c, FormatEffect(s, c, key))
  {
    hide BooleanAccess, KeywordAccess, LengthParameter, FormatOf, FormatWord, IntText, Unquote, Upper;
  }

  lemma DisplayAnswers(s: State, c: Command, key: DisplayKey)
    ensures Answers(s, c, DisplayEffect(s, c, key))
  {
    hide BooleanAccess, FunctionListAccess, IntText;
  }

  lemma SystemAnswers(s: State, c: Command, key: SystemKey, version: string)
    ensures Answers(s, c, SystemEffect(s, c, key, version))
  {
    hide IntegerAccess, KeywordAccess, TextAccess, EntryText, Join, ThreeText, ThreeNumbers;
  }

  lemma TimerAnswers(w: World, s: State, c: Command, key: TimerKey)
    ensures Answers(s, c, TimerEffect(w, s, c, key))
  {}

  lemma StatusAnswers(w: World, s: State, c: Command, r: Register, part: RegisterPart)
    ensures Answers(s, c, StatusEffect(w, s, c, r, part))
  {
    hide IntegerAccess, ConditionOf, Latch, BitsValue, IntText, RegisterName;
    LatchingReads(w, s, r);
  }

  /** Over the whole command set: an accepted command responds if and only if it is a query, and a query leaves every
      setting alone, except that DATA? with a list also selects it. */
  lemma OnlyQueriesAnswer(w: World, s: State, c: Command)
    ensures AnswersOrActs(s, c, EffectOf(w, s, c))
  {
    hide CommonEffect, AbortEffect, RouteEffect, InputEffect, RangingEffect, ApertureEffect, FunctionEffect, DataEffect, SweepEffect,
         SyncEffect, AcquisitionEffect, TriggerEffect, TransformEffect, SpectrumEffect, IntegralEffect, HarmonicOrderEffect,
         CorrectionEffect, ReferenceEffect, TraceEffect, FormatEffect, DisplayEffect, SystemEffect, StatusEffect, TimerEffect;
    match c.key
    case Common(key) => CommonAnswers(w, s, c, key);
    case Abort => AcquisitionAnswers(s, c, Immediate);
    case RouteSystem => RouteAnswers(s, c);
    case Input(key) => InputAnswers(w, s, c, key);
    case Ranging(voltage, key) => RangingAnswers(w, s, c, voltage, key);
    case Aperture => FunctionAnswers(w, s, c, FunctionList);
    case SamplingFrequency =>
    case Functions(key) => FunctionAnswers(w, s, c, key);
    case Data(withStatus) => DataAnswers(w, s, c, withStatus);
    case Sweep(key) => SweepAnswers(w, s, c, key);
    case Sync(key) => SyncAnswers(w, s, c, key);
    case Initiate(key) => AcquisitionAnswers(s, c, key);
    case Trigger(start, key) => TriggerAnswers(w, s, c, start, key);
    case Transform(key) => TransformAnswers(w, s, c, key);
    case Spectrum(key) => SpectrumAnswers(w, s, c, key);
    case Integral(key) => IntegralAnswers(w, s, c, key);
    case HarmonicOrder => PowerAnswers(s, c);
    case PowerCorrection => PowerAnswers(s, c);
    case EfficiencyReference => PowerAnswers(s, c);
    case Trace(key) => TraceAnswers(w, s, c, key);
    case Format(key) => FormatAnswers(s, c, key);
    case Display(key) => DisplayAnswers(s, c, key);
    case System(key) => SystemAnswers(s, c, key, w.options.scpiVersion);
    case Status(r, part) => StatusAnswers(w, s, c, r, part);
    case Timer(key) => TimerAnswers(w, s, c, key);
  }

  // ------------------------------------------------------------------------- whole lines

  predicate AsksFor(text: string) { PieceOf(text).query }

  /** The pieces of a line that are queries. */
  function Queries(pieces: seq<string>): nat {
    if pieces == [] then 0
    else (if Trim(pieces[0]) != "" && AsksFor(Trim(pieces[0])) then 1 else 0) + Queries(pieces[1..])
  }

  lemma RequestAsks(specs: seq<CommandSpec>, text: string, path: seq<Token>)
    ensures RequestFor(specs, text, path).Known? ==> RequestFor(specs, text, path).command.query == AsksFor(text)
  {
    hide Dispatch, CommonKeyOf, HeaderTokens, Upper, PieceOf;
  }

  /** A line that runs to its end gives one response a query; a line that stops gives no more than that. */
  lemma {:induction false} OneResponseEach(w: World, s: State, pieces: seq<string>, path: seq<Token>)
    ensures var o := RunPieces(Simulator(w), s, pieces, path);
            |o.responses| <= Queries(pieces) && (o.ending.Completed? ==> |o.responses| == Queries(pieces))
    decreases |pieces|
  {
    hide EffectOf, RequestFor, NextPath, PushError, AsksFor, Trim;
    if pieces != [] {
      var text := Trim(pieces[0]);
      if text == "" {
        OneResponseEach(w, s, pieces[1..], path);
      } else {
        var request := RequestFor(w.specs, text, path);
        var effect := Perform(w, s, request);
        RequestAsks(w.specs, text, path);
        if effect.Done? {
          if request.Known? { OnlyQueriesAnswer(w, s, request.command); }
          OneResponseEach(w, effect.state, pieces[1..], NextPath(text, path));
        }
      }
    }
  }

  /** A line without queries is never answered; one that runs to its end is answered just when it holds a query. */
  lemma LinesOfCommandsAreSilent(w: World, s: State, line: string)
    ensures var o, queries := RunLine(Simulator(w), s, line), Queries(Split(Outside, line, ';'));
            && (queries == 0 ==> Response(o).None?)
            && (o.ending.Completed? ==> (Response(o).Some? <==> queries > 0))
  {
    hide RunPieces, Split, Join;
    OneResponseEach(w, s, Split(Outside, line, ';'), []);
  }

  /** The answers to several queries of a line come in their order, and are told apart again by their semicolons. */
  lemma ResponsesAreSeparated(w: World, s: State, line: string)
    ensures var o := RunLine(Simulator(w), s, line);
            SeparatePieces(o.responses, ';') ==> Response(o).Some? && Split(Outside, Response(o).value, ';') == o.responses
  {
    hide RunLine, Split, Join;
    var o := RunLine(Simulator(w), s, line);
    if SeparatePieces(o.responses, ';') { SplitOfJoin(o.responses, ';'); }
  }

  /** The answers that no setting gives: identity and options, completion, the counts and the timer, and the learn string of
      the settings a client can check. */
  lemma FixedAnswers(w: World, s: State)
    ensures CommonEffect(w, s, Command(Common(Idn), [], true, []), Idn) == Respond(s, w.options.identification)
    ensures CommonEffect(w, s, Command(Common(Opt), [], true, []), Opt) == Respond(s, w.options.optionsResponse)
    ensures CommonEffect(w, s, Command(Common(Opc), [], true, []), Opc) == Respond(s, "1")
    ensures FunctionEffect(s, Command(Functions(FunctionCount), [], true, []), FunctionCount) ==
            Respond(s, IntText(|s.sense.functions|))
    ensures TimerEffect(w, s, Command(Timer(ResetTime), [], true, []), ResetTime) ==
            Respond(s, w.host.formatSetting(s.system.timerSeconds))
    ensures CommonEffect(w, s, Command(Common(Lrn), [], true, []), Lrn) ==
            Respond(s, Quoted("FUNC " + QuoteJoin(s.sense.functions) + ";APER " + w.host.formatSetting(s.sense.aperture)))
  {
    hide IntText, BitsValue, QuoteJoin, StatusByteEffect, ResetState, ClearedStatus;
    var a, b, c := QuoteJoin(s.sense.functions), ";APER ", w.host.formatSetting(s.sense.aperture);
    assert "\"FUNC " == ['"'] + "FUNC ";
    assert ['"'] + "FUNC " + a + b + c + "\"" == ['"'] + ("FUNC " + a + b + c) + ['"'];
  }

  /** Headers that differ in case only. */
  predicate SameButCase(a: string, b: string) {
    var p, q := PieceOf(a), PieceOf(b);
    Upper(p.header) == Upper(q.header) && p.query == q.query && p.args == q.args
  }

  lemma FirstIgnoresCase(a: string, b: string)
    requires Upper(a) == Upper(b)
    ensures |a| == |b| && IsCommon(a) == IsCommon(b) && IsAbsolute(a) == IsAbsolute(b)
  {
    assert |Upper(a)| == |a| && |Upper(b)| == |b|;
    if a != "" { assert Upper(a)[0] == ToUpper(a[0]) && Upper(b)[0] == ToUpper(b[0]); }
  }

  lemma TailIgnoresCase(a: string, b: string)
    requires Upper(a) == Upper(b) && a != "" && b != ""
    ensures Upper(a[1..]) == Upper(b[1..])
  {
    assert Upper(a[1..]) == Upper(a)[1..];
    assert Upper(b[1..]) == Upper(b)[1..];
  }

  lemma NodesIgnoreCase(x: string, y: string)
    requires Upper(x) == Upper(y)
    ensures TokensOf(Split(Outside, x, ':')) == TokensOf(Split(Outside, y, ':'))
  {
    hide Split, TokenOf, Upper;
    NameLists.UpperSplit(Outside, x, ':');
    NameLists.UpperSplit(Outside, y, ':');
    var s, t := Split(Outside, x, ':'), Split(Outside, y, ':');
    assert |s| == |UpperAll(s)| && |t| == |UpperAll(t)|;
    forall i | 0 <= i < |s| ensures TokenOf(s[i]) == TokenOf(t[i]) {
      assert Upper(s[i]) == UpperAll(s)[i] && Upper(t[i]) == UpperAll(t)[i];
      Quantities.TokenOfUpper(s[i]);
      Quantities.TokenOfUpper(t[i]);
    }
  }

  lemma TokensIgnoreCase(a: string, b: string, path: seq<Token>)
    requires Upper(a) == Upper(b)
    ensures HeaderTokens(a, path) == HeaderTokens(b, path)
  {
    hide Split, TokensOf, Upper;
    FirstIgnoresCase(a, b);
    if IsAbsolute(a) {
      TailIgnoresCase(a, b);
      NodesIgnoreCase(a[1..], b[1..]);
    } else {
      NodesIgnoreCase(a, b);
    }
  }

  /** Pieces whose headers differ in case only ask for the same command, or for none. */
  lemma CaseDoesNotMatter(specs: seq<CommandSpec>, a: string, b: string, path: seq<Token>)
    requires SameButCase(a, b)
    ensures var r, t := RequestFor(specs, a, path), RequestFor(specs, b, path);
            (r.Known? <==> t.Known?) && (r.Known? ==> r == t)
  {
    hide HeaderTokens, Dispatch, PieceOf, Upper, CommonKeyOf;
    FirstIgnoresCase(PieceOf(a).header, PieceOf(b).header);
    TokensIgnoreCase(PieceOf(a).header, PieceOf(b).header, path);
  }
}
