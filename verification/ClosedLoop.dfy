/** Client calls and what they do to the simulated instrument, through the command line and back. */
module ClosedLoop {
  import opened Wrappers
  import opened Text
  import opened Decimal
  import opened Commands
  import opened Headers
  import opened Instrument
  import opened Effects
  import opened CommandLine
  import opened Client
  import opened ClientLines
  import opened ErrorLoop
  import opened NameLists

  // ------------------------------------------------------------------------- error queue lines

  lemma NextErrorLine()
    ensures Words(["SYST", "ERR"]) && LineText(Join(["SYST", "ERR"], ':'), true, "") == "SYST:ERR?"
  {
    assert ["SYST", "ERR"][1..] == ["ERR"];
  }

  lemma AllErrorsLine()
    ensures Words(["SYST", "ERR", "ALL"]) && LineText(Join(["SYST", "ERR", "ALL"], ':'), true, "") == "SYST:ERR:ALL?"
  {
    assert ["SYST", "ERR", "ALL"][1..] == ["ERR", "ALL"] && ["ERR", "ALL"][1..] == ["ALL"];
  }

  lemma ErrorEffects(w: World, s: State)
    ensures EffectOf(w, s, Command(System(ErrorNext), [], true, [])) ==
            if s.errors == [] then Respond(s, NO_ERROR)
            else Respond(s.(errors := s.errors[1..]), EntryText(s.errors[0]))
    ensures EffectOf(w, s, Command(System(ErrorAll), [], true, [])) ==
            if s.errors == [] then Respond(s, NO_ERROR) else Respond(s.(errors := []), AllText(s.errors))
  {
    hide EntryText, Join,
         CommonEffect, AbortEffect, RouteEffect, InputEffect, RangingEffect, ApertureEffect, FunctionEffect, DataEffect,
         SweepEffect, SyncEffect, AcquisitionEffect, TriggerEffect, TransformEffect, SpectrumEffect, IntegralEffect,
         HarmonicOrderEffect, CorrectionEffect, ReferenceEffect, TraceEffect, FormatEffect, DisplayEffect,
         StatusEffect, TimerEffect;
  }

  /** SYST:ERR? takes the oldest entry. */
  lemma NextErrorRuns(w: World, s: State)
    requires ClientTable(w.specs)
    ensures RunLine(Simulator(w), s, "SYST:ERR?") ==
            if s.errors == [] then Outcome(s, [NO_ERROR], Completed)
            else Outcome(s.(errors := s.errors[1..]), [EntryText(s.errors[0])], Completed)
  {
    hide RunLine, EntryText, Join, LineText, EffectOf, Dispatch;
    NextErrorLine();
    ErrorEffects(w, s);
    KnownLine(w, s, ["SYST", "ERR"], System(ErrorNext), true, "");
  }

  /** SYST:ERR:ALL? takes them all. */
  lemma AllErrorsRun(w: World, s: State)
    requires ClientTable(w.specs)
    ensures RunLine(Simulator(w), s, "SYST:ERR:ALL?") ==
            if s.errors == [] then Outcome(s, [NO_ERROR], Completed)
            else Outcome(s.(errors := []), [AllText(s.errors)], Completed)
  {
    hide RunLine, EntryText, AllText, Join, LineText, EffectOf, Dispatch;
    AllErrorsLine();
    ErrorEffects(w, s);
    KnownLine(w, s, ["SYST", "ERR", "ALL"], System(ErrorAll), true, "");
  }

  const NO_ENTRY := ErrorInfo(0, "No error")

  lemma NoErrorIsClosed()
    ensures NO_ERROR == EntryText(NO_ENTRY) && FreeOf(Outside, Quoted(NO_ENTRY.message), ',')
  {
    QuotedIsClosed(NO_ENTRY.message, ',');
  }

  lemma NoErrorIsRead()
    ensures ParsedError(NO_ERROR) == Success(NO_ENTRY)
  {
    hide Fields, FreeOf, EntryText, Quoted, Strtol;
    NoErrorIsClosed();
    EntryIsRead(NO_ENTRY);
    MessageComesBack(NO_ENTRY.message);
  }

  lemma NoErrorFields()
    ensures Fields(NO_ERROR, ',') == [IntText(0), Quoted(NO_ENTRY.message)]
  {
    hide Fields, FreeOf, EntryText, Quoted, Strtol, IntText;
    NoErrorIsClosed();
    FirstOfClosed(NO_ENTRY.message, "");
    FieldsAndRest([NO_ENTRY]);
    assert EntryTexts([NO_ENTRY]) == [EntryText(NO_ENTRY)];
  }

  lemma NoErrorsAreRead()
    ensures ParsedErrors(NO_ERROR) == Success([])
  {
    hide Fields, FreeOf, EntryText, Quoted, Strtol, IntText;
    NoErrorFields();
    CodeField(0, "");
    var fields := [IntText(0), Quoted(NO_ENTRY.message)];
    assert fields[2..] == [];
  }

  // -------------------------------------------------------------------------------- prepare()

  lemma ClearLine()
    ensures LineText("*CLS", false, "") == "*CLS" && HeaderText("*CLS") && IsCommon("*CLS")
    ensures CommonKeyOf(Upper("*CLS")) == Some(Cls)
  {
    assert Upper("*CLS") == "*CLS";
  }

  lemma ClearRuns(w: World, s: State)
    ensures RunLine(Simulator(w), s, "*CLS") == Outcome(ClearedStatus(s), [], Completed)
  {
    hide RunLine, LineText, CommonKeyOf, EffectOf, ClearedStatus;
    ClearLine();
    CommonLine(w, s, "*CLS", Cls, false, "");
    ClearEffect(w, s);
  }

  lemma ClearEffect(w: World, s: State)
    ensures EffectOf(w, s, Command(Common(Cls), [], false, [])) == Done(ClearedStatus(s), None)
  {
    hide ClearedStatus, AbortEffect, RouteEffect, InputEffect, RangingEffect, ApertureEffect, FunctionEffect, DataEffect,
         SweepEffect, SyncEffect, AcquisitionEffect, TriggerEffect, TransformEffect, SpectrumEffect, IntegralEffect,
         HarmonicOrderEffect, CorrectionEffect, ReferenceEffect, TraceEffect, FormatEffect, DisplayEffect, SystemEffect,
         StatusEffect, TimerEffect;
  }

  function WithTextFormats(s: State): State {
    s.(format := s.format.(data := FormatSetting(Ascii, 6), status := s.format.status.(format := Ascii)))
  }

  lemma AsciiLine()
    ensures Words(["FORM"]) && LineText(Join(["FORM"], ':'), false, "ASC,6") == "FORM ASC,6"
    ensures Trimmed("ASC,6") && FreeOf(Outside, "ASC,6", ';') && ArgsOf("ASC,6") == ["ASC", "6"]
  {
    PlainText("ASC,6", ';');
    PlainText("ASC", ',');
    SplitOff("ASC", "6", ',');
    PlainText("6", ',');
    SplitFree("6", ',');
    assert "ASC" + [','] + "6" == "ASC,6";
    TrimOfTrimmed("ASC");
    TrimOfTrimmed("6");
    assert TrimAll(["ASC", "6"]) == ["ASC", "6"];
  }

  lemma AsciiParameters()
    ensures Unquote("ASC") == "ASC" && Upper("ASC") == "ASC"
    ensures ParseNumber("6") == Some(6.0) && Lround(6.0) == 6
  {
    TrimOfTrimmed("ASC");
    ParseNumberOfIntText(6);
    assert IntText(6) == "6";
  }

  lemma AsciiEffect(w: World, s: State)
    ensures EffectOf(w, s, Command(Format(DataFormat), [], false, ["ASC", "6"])) == Done(WithTextFormats(s), None)
  {
    hide ParseNumber, Unquote, Lround,
         CommonEffect, AbortEffect, RouteEffect, InputEffect, RangingEffect, ApertureEffect, FunctionEffect, DataEffect,
         SweepEffect, SyncEffect, AcquisitionEffect, TriggerEffect, TransformEffect, SpectrumEffect, IntegralEffect,
         HarmonicOrderEffect, CorrectionEffect, ReferenceEffect, TraceEffect, DisplayEffect, SystemEffect,
         StatusEffect, TimerEffect;
    AsciiParameters();
  }

  lemma AsciiRuns(w: World, s: State)
    requires ClientTable(w.specs)
    ensures RunLine(Simulator(w), s, "FORM ASC,6") == Outcome(WithTextFormats(s), [], Completed)
  {
    hide RunLine, LineText, Join, EffectOf, WithTextFormats, ArgsOf, Dispatch;
    AsciiLine();
    KnownLine(w, s, ["FORM"], Format(DataFormat), false, "ASC,6");
    AsciiEffect(w, s);
  }

  lemma ConcurrentLine()
    ensures Words(["FUNC", "CONC"]) && LineText(Join(["FUNC", "CONC"], ':'), false, "ON") == "FUNC:CONC ON"
    ensures Trimmed("ON") && FreeOf(Outside, "ON", ';') && ArgsOf("ON") == ["ON"]
  {
    assert ["FUNC", "CONC"][1..] == ["CONC"];
    PlainText("ON", ';');
    PlainText("ON", ',');
    OneArgument("ON");
  }

  function WithConcurrent(s: State): State { s.(sense := s.sense.(concurrent := true)) }

  lemma ConcurrentEffect(w: World, s: State)
    ensures EffectOf(w, s, Command(Functions(Concurrent), [], false, ["ON"])) == Done(WithConcurrent(s), None)
  {
    hide ParseNumber, Unquote, CommonEffect, AbortEffect, RouteEffect, InputEffect, RangingEffect, ApertureEffect, DataEffect,
         SweepEffect, SyncEffect, AcquisitionEffect, TriggerEffect, TransformEffect, SpectrumEffect, IntegralEffect,
         HarmonicOrderEffect, CorrectionEffect, ReferenceEffect, TraceEffect, FormatEffect, DisplayEffect, SystemEffect,
         StatusEffect, TimerEffect;
    TrimOfTrimmed("ON");
    UnquoteOn();
  }

  lemma UnquoteOn()
    ensures Unquote("ON") == "ON" && Trim("ON") == "ON" && Upper("ON") == "ON"
  {
    TrimOfTrimmed("ON");
  }

  lemma ConcurrentRuns(w: World, s: State)
    requires ClientTable(w.specs)
    ensures RunLine(Simulator(w), s, "FUNC:CONC ON") == Outcome(WithConcurrent(s), [], Completed)
  {
    hide RunLine, LineText, Join, EffectOf, WithConcurrent, ArgsOf, Dispatch;
    ConcurrentLine();
    KnownLine(w, s, ["FUNC", "CONC"], Functions(Concurrent), false, "ON");
    ConcurrentEffect(w, s);
  }

  /** The state prepare() leaves: text formats, six digits, concurrent measurement, nothing queued or latched,
      and everything else as it was. */
  function Prepared(s: State): State { WithConcurrent(WithTextFormats(ClearedStatus(s))) }

  /** Nothing latched, with masks, enables and the conditions last seen kept. */
  predicate Quiet(before: RegisterState, after: RegisterState) {
    after.event == {} && after == before.(event := after.event)
  }

  /** What a session may count on after prepare(), and what it leaves alone. */
  lemma PreparedIsReady(s: State)
    ensures var p := Prepared(s);
            && p.format.data == FormatSetting(Ascii, 6) && p.format.status == FormatSetting(Ascii, s.format.status.length)
            && p.sense.concurrent && p.errors == [] && p.status.eventStatus == {}
            && (forall r :: Quiet(s.status.Get(r), p.status.Get(r)))
            && p.sense == s.sense.(concurrent := true)
            && p.(format := s.format, sense := s.sense, status := s.status, errors := s.errors) == s
            && p.format.byteOrder == s.format.byteOrder && p.format.transpose == s.format.transpose
            && p.status.eventStatusEnable == s.status.eventStatusEnable
            && p.status.serviceRequestEnable == s.status.serviceRequestEnable
  {}

  // ------------------------------------------------------------------------ the function list

  lemma FunctionsLine(parameters: string, query: bool)
    ensures Words(["FUNC"])
    ensures LineText(Join(["FUNC"], ':'), query, parameters) ==
            "FUNC" + (if query then "?" else "") + (if parameters == "" then "" else " " + parameters)
  {}

  /** The list is one parameter text of one command: no semicolon stands outside the quotes a splitter sees. */
  predicate OneCommand(names: seq<string>) { names != [] && FreeOf(Outside, QuoteJoin(names), ';') }

  lemma QuoteFreeIsOneCommand(names: seq<string>)
    requires names != [] && forall i :: 0 <= i < |names| ==> '"' !in names[i]
    ensures OneCommand(names) && SeparateNames(names)
  {
    QuoteJoinIsClosed(names, ';');
    QuoteFreeAreSeparate(names);
  }

  /** The client's list of names as the simulator's arguments. */
  lemma FunctionArguments(names: seq<string>)
    requires OneCommand(names)
    ensures QuoteJoin(names) != "" && Trimmed(QuoteJoin(names)) && FreeOf(Outside, QuoteJoin(names), ';')
    ensures ArgsOf(QuoteJoin(names)) == TrimAll(Split(Outside, QuoteJoin(names), ','))
    ensures SeparateNames(names) ==> ArgsOf(QuoteJoin(names)) == QuotedAll(names)
  {
    hide FreeOf, Split;
    QuoteJoinEnds(names);
    if SeparateNames(names) { SplitOfJoin(QuotedAll(names), ','); }
    TrimAllQuoted(names);
  }

  lemma TrimAllQuoted(names: seq<string>)
    ensures TrimAll(QuotedAll(names)) == QuotedAll(names)
    ensures UnquoteAll(QuotedAll(names)) == names
  {
    hide Trim, Unquote, Quoted;
    forall i | 0 <= i < |names|
      ensures TrimAll(QuotedAll(names))[i] == QuotedAll(names)[i] && UnquoteAll(QuotedAll(names))[i] == names[i]
    {
      UnquoteOfQuoted(names[i]);
    }
  }

  lemma {:induction false} QuotedAreParameters(names: seq<string>)
    ensures FirstUnquoted(QuotedAll(names)) == None
  {
    if names != [] {
      UnquoteOfQuoted(names[0]);
      assert QuotedAll(names)[1..] == QuotedAll(names[1..]);
      QuotedAreParameters(names[1..]);
    }
  }

  lemma QuotedAreNames(names: seq<string>)
    ensures FunctionNames(QuotedAll(names)) == UpperAll(names)
  {
    hide Trim, Unquote, Quoted, Upper;
    forall i | 0 <= i < |names| ensures FunctionNames(QuotedAll(names))[i] == UpperAll(names)[i] {
      UnquoteOfQuoted(names[i]);
    }
  }

  lemma SetFunctionsEffect(w: World, s: State, names: seq<string>)
    requires names != []
    ensures EffectOf(w, s, Command(Functions(FunctionList), [], false, QuotedAll(names))) ==
            if s.sense.concurrent || |names| == 1 then Done(WithFunctions(s, UpperAll(names)), None)
            else Conflict("FUNCtion:CONCurrent is OFF")
  {
    hide FirstUnquoted, FunctionNames, WithFunctions,
         CommonEffect, AbortEffect, RouteEffect, InputEffect, RangingEffect, ApertureEffect, DataEffect,
         SweepEffect, SyncEffect, AcquisitionEffect, TriggerEffect, TransformEffect, SpectrumEffect, IntegralEffect,
         HarmonicOrderEffect, CorrectionEffect, ReferenceEffect, TraceEffect, FormatEffect, DisplayEffect, SystemEffect,
         StatusEffect, TimerEffect;
    QuotedAreParameters(names);
    QuotedAreNames(names);
  }

  /** The command as it arrives, whatever the names: its parameters are the pieces of the list. */
  lemma SetFunctionsArrives(w: World, s: State, names: seq<string>)
    requires ClientTable(w.specs) && OneCommand(names)
    ensures RunLine(Simulator(w), s, "FUNC " + QuoteJoin(names)) ==
            EffectOutcome(s, EffectOf(w, s, Command(Functions(FunctionList), [], false, ArgsOf(QuoteJoin(names)))))
  {
    hide RunLine, LineText, Join, EffectOf, ArgsOf, Dispatch, QuoteJoin, EffectOutcome;
    FunctionArguments(names);
    FunctionsLine(QuoteJoin(names), false);
    assert "FUNC" + "" + (" " + QuoteJoin(names)) == "FUNC " + QuoteJoin(names);
    KnownLine(w, s, ["FUNC"], Functions(FunctionList), false, QuoteJoin(names));
  }

  /** set_functions: separate names are stored upper-cased, or refused when only one function is allowed. */
  lemma SetFunctionsRuns(w: World, s: State, names: seq<string>)
    requires ClientTable(w.specs) && OneCommand(names) && SeparateNames(names)
    ensures RunLine(Simulator(w), s, "FUNC " + QuoteJoin(names)) ==
            EffectOutcome(s, if s.sense.concurrent || |names| == 1 then Done(WithFunctions(s, UpperAll(names)), None)
                             else Conflict("FUNCtion:CONCurrent is OFF"))
  {
    hide RunLine, EffectOf, ArgsOf, QuoteJoin, WithFunctions, EffectOutcome, SeparateNames;
    FunctionArguments(names);
    SetFunctionsArrives(w, s, names);
    SetFunctionsEffect(w, s, names);
  }

  /** What is stored of an accepted list, whatever its parameters. */
  lemma AcceptedList(w: World, s: State, args: seq<string>)
    ensures var e := EffectOf(w, s, Command(Functions(FunctionList), [], false, args));
            && !e.Hang? && (e.Done? ==> e == Done(WithFunctions(s, FunctionNames(args)), None))
  {
    hide FirstUnquoted, FunctionNames, WithFunctions,
         CommonEffect, AbortEffect, RouteEffect, InputEffect, RangingEffect, ApertureEffect, DataEffect,
         SweepEffect, SyncEffect, AcquisitionEffect, TriggerEffect, TransformEffect, SpectrumEffect, IntegralEffect,
         HarmonicOrderEffect, CorrectionEffect, ReferenceEffect, TraceEffect, FormatEffect, DisplayEffect, SystemEffect,
         StatusEffect, TimerEffect;
  }

  /** A list that is one command is never answered, and never hangs. */
  lemma SetFunctionsIsSilent(w: World, s: State, names: seq<string>)
    requires ClientTable(w.specs) && OneCommand(names)
    ensures var o := RunLine(Simulator(w), s, "FUNC " + QuoteJoin(names)); o.responses == [] && !o.ending.Hung?
  {
    hide RunLine, EffectOf, ArgsOf, QuoteJoin, OneCommand, PushError;
    SetFunctionsArrives(w, s, names);
    AcceptedList(w, s, ArgsOf(QuoteJoin(names)));
  }

  lemma NamesOfArguments(pieces: seq<string>)
    ensures FunctionNames(TrimAll(pieces)) == UpperAll(NamesOf(pieces))
  {
    hide Trim, Unquote, Upper;
    forall i | 0 <= i < |pieces| ensures FunctionNames(TrimAll(pieces))[i] == UpperAll(NamesOf(pieces))[i] {
      TrimTwice(pieces[i]);
    }
  }

  /** Of a list that is one command, the names asked for are what is stored if and only if they are separate and may all be
      measured at once. */
  lemma OneCommandExactly(w: World, s: State, names: seq<string>)
    requires ClientTable(w.specs) && OneCommand(names)
    ensures RunLine(Simulator(w), s, "FUNC " + QuoteJoin(names)) == Outcome(WithFunctions(s, UpperAll(names)), [], Completed)
            <==> SeparateNames(names) && (s.sense.concurrent || |names| == 1)
  {
    hide RunLine, EffectOf, ArgsOf, QuoteJoin, SeparateNames, Split, FreeOf;
    SetFunctionsArrives(w, s, names);
    if SeparateNames(names) {
      SetFunctionsRuns(w, s, names);
    } else {
      FunctionArguments(names);
      var pieces := Split(Outside, QuoteJoin(names), ',');
      AcceptedList(w, s, TrimAll(pieces));
      NamesOfArguments(pieces);
      UpperNamesComeBack(names);
    }
  }

  lemma FunctionsEffect(w: World, s: State)
    ensures EffectOf(w, s, Command(Functions(FunctionList), [], true, [])) == Respond(s, QuoteJoin(s.sense.functions))
  {
    hide QuoteJoin, CommonEffect, AbortEffect, RouteEffect, InputEffect, RangingEffect, ApertureEffect, DataEffect,
         SweepEffect, SyncEffect, AcquisitionEffect, TriggerEffect, TransformEffect, SpectrumEffect, IntegralEffect,
         HarmonicOrderEffect, CorrectionEffect, ReferenceEffect, TraceEffect, FormatEffect, DisplayEffect, SystemEffect,
         StatusEffect, TimerEffect;
  }

  lemma FunctionsRuns(w: World, s: State)
    requires ClientTable(w.specs)
    ensures RunLine(Simulator(w), s, "FUNC?") == Outcome(s, [QuoteJoin(s.sense.functions)], Completed)
  {
    hide RunLine, LineText, Join, EffectOf, Dispatch, QuoteJoin;
    FunctionsLine("", true);
    assert "FUNC" + "?" + "" == "FUNC?";
    KnownLine(w, s, ["FUNC"], Functions(FunctionList), true, "");
    FunctionsEffect(w, s);
  }

  /** functions() gives the configured list back if and only if its names are separate. */
  lemma FunctionsAreRead(w: World, s: State)
    requires ClientTable(w.specs)
    ensures var answer := RunLine(Simulator(w), s, "FUNC?");
            && answer.state == s && |answer.responses| == 1
            && (UnquoteAll(Fields(answer.responses[0], ',')) == s.sense.functions <==> SeparateNames(s.sense.functions))
  {
    hide RunLine, QuoteJoin, Fields, SeparateNames;
    FunctionsRuns(w, s);
    NamesAreRead(s.sense.functions);
  }
}
