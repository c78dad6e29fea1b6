/** An input on which measuring never ends: an efficiency whose references are that efficiency again. */
module EndlessMeasurement {
  import opened Wrappers
  import opened Text
  import opened Pattern
  import opened Commands
  import opened Headers
  import opened CommandTable
  import opened ClientHeaders
  import opened Instrument
  import opened Measurement
  import opened Effects
  import opened CommandLine
  import opened ClientLines
  import opened ClosedLoop
  import opened NameLists
  import opened DataLoop

  const EFFICIENCY_NAME := "POW:EFF"

  const REFERENCE_LINE := "CALC:POW:EFF:REF \"POW:EFF\",\"POW:EFF\""

  const DATA_LINE := "DATA:STAT? \"POW:EFF\""

  // --------------------------------------------------------------------------- the function name

  lemma TokenOfPower()
    ensures TokenOf("POW") == Token("POW", 0, false)
  {
    TokenOfWord("POW");
  }

  lemma NodesOfName()
    ensures Split(Outside, EFFICIENCY_NAME, ':') == ["POW", "EFF"]
  {
    PlainText("POW", ':');
    SplitOff("POW", "EFF", ':');
    PlainText("EFF", ':');
    SplitFree("EFF", ':');
    assert "POW" + [':'] + "EFF" == EFFICIENCY_NAME;
  }

  lemma TailOfName()
    ensures UpperAll(TrimAll(["EFF"])) == ["EFF"]
  {
    TrimOfTrimmed("EFF");
    assert Upper("EFF") == "EFF";
  }

  lemma EfficiencyName()
    ensures NameOf(EFFICIENCY_NAME) == FunctionName("POW", 0, ["EFF"])
  {
    hide Split, TokenOf, TrimAll, UpperAll;
    NodesOfName();
    TokenOfPower();
    TailOfName();
    assert ["POW", "EFF"][1..] == ["EFF"];
  }

  /** Measuring is under way on a synchronized signal. */
  predicate Live(w: World, s: State) { Synchronized(w, s) && Measuring(s) }

  lemma NoEarlyAnswer(w: World, s: State)
    requires Live(w, s)
    ensures EarlyAnswer(w, s, FunctionName("POW", 0, ["EFF"])) == None
  {
    assert ["EFF"][|["EFF"]| - 1] == "EFF";
  }

  lemma EfficiencyTail()
    ensures CoreTail(["EFF"]) == ["EFF"]
  {}

  /** The name asks for a ratio as soon as both references are set. */
  lemma IsEfficiency(w: World, s: State)
    requires Live(w, s) && s.power.efficiencyInput != "" && s.power.efficiencyOutput != ""
    ensures Efficiency(w, s, EFFICIENCY_NAME)
  {
    hide NameOf, EarlyAnswer, CoreTail, Finish;
    EfficiencyName();
    NoEarlyAnswer(w, s);
    EfficiencyTail();
  }

  // ------------------------------------------------------------------------- the two lines

  function WithReferences(s: State): State {
    s.(power := s.power.(efficiencyInput := EFFICIENCY_NAME, efficiencyOutput := EFFICIENCY_NAME))
  }

  lemma Names()
    ensures QuoteJoin([EFFICIENCY_NAME, EFFICIENCY_NAME]) == "\"POW:EFF\",\"POW:EFF\""
    ensures QuotedAll([EFFICIENCY_NAME, EFFICIENCY_NAME]) == ["\"POW:EFF\"", "\"POW:EFF\""]
    ensures QuoteJoin([EFFICIENCY_NAME]) == "\"POW:EFF\""
    ensures UpperAll([EFFICIENCY_NAME]) == [EFFICIENCY_NAME] && Upper(EFFICIENCY_NAME) == EFFICIENCY_NAME
  {
    var one := "\"POW:EFF\"";
    assert Quoted(EFFICIENCY_NAME) == one;
    assert QuotedAll([EFFICIENCY_NAME, EFFICIENCY_NAME]) == [one, one] && [one, one][1..] == [one];
    assert QuotedAll([EFFICIENCY_NAME]) == [one];
    assert Join([one, one], ',') == one + [','] + one;
    assert Upper(EFFICIENCY_NAME) == EFFICIENCY_NAME;
  }

  lemma ReferenceHeaderText()
    ensures Join(["CALC", "POW", "EFF", "REF"], ':') == "CALC:POW:EFF:REF"
  {
    assert ["EFF", "REF"][1..] == ["REF"] && Join(["REF"], ':') == "REF";
    assert Join(["EFF", "REF"], ':') == "EFF:REF";
    assert ["POW", "EFF", "REF"][1..] == ["EFF", "REF"];
    assert Join(["POW", "EFF", "REF"], ':') == "POW:EFF:REF";
    assert ["CALC", "POW", "EFF", "REF"][1..] == ["POW", "EFF", "REF"];
  }

  lemma ReferenceWords() ensures Words(["CALC", "POW", "EFF", "REF"]) {}

  lemma ReferenceLineText()
    ensures LineText("CALC:POW:EFF:REF", false, "\"POW:EFF\",\"POW:EFF\"") == REFERENCE_LINE
  {
    assert "CALC:POW:EFF:REF" + "" + (" " + "\"POW:EFF\",\"POW:EFF\"") == REFERENCE_LINE;
  }

  lemma ReferencesStored(w: World, s: State)
    ensures EffectOf(w, s, Command(EfficiencyReference, [0], false, ["\"POW:EFF\"", "\"POW:EFF\""])) == Done(WithReferences(s), None)
  {
    hide Unquote, Upper, CommonEffect, AbortEffect, RouteEffect, InputEffect, RangingEffect, ApertureEffect, FunctionEffect, DataEffect,
         SweepEffect, SyncEffect, AcquisitionEffect, TriggerEffect, TransformEffect, SpectrumEffect, IntegralEffect,
         HarmonicOrderEffect, CorrectionEffect, TraceEffect, FormatEffect, DisplayEffect, SystemEffect, StatusEffect, TimerEffect;
    UnquoteOfQuoted(EFFICIENCY_NAME);
    Names();
    assert Quoted(EFFICIENCY_NAME) == "\"POW:EFF\"";
  }

  lemma ReferenceLineRuns(w: World, s: State)
    requires KnowsReferences(w.specs)
    ensures RunLine(Simulator(w), s, REFERENCE_LINE) == Outcome(WithReferences(s), [], Completed)
  {
    hide RunLine, LineText, Join, EffectOf, ArgsOf, Dispatch, QuoteJoin, WithReferences;
    var names := [EFFICIENCY_NAME, EFFICIENCY_NAME];
    Names();
    NameHasNoQuote();
    QuoteFreeIsOneCommand(names);
    FunctionArguments(names);
    ReferenceHeaderText();
    ReferenceWords();
    ReferenceLineText();
    SelectedLine(w, s, ["CALC", "POW", "EFF", "REF"], Selected(EfficiencyReference, [0]), false, QuoteJoin(names));
    ReferencesStored(w, s);
  }

  lemma NameHasNoQuote()
    ensures '"' !in EFFICIENCY_NAME
  {}

  lemma DataLineText()
    ensures DataStatusCommand([EFFICIENCY_NAME]) == DATA_LINE
  {
    Names();
    assert "DATA:STAT?" + (" " + "\"POW:EFF\"") == DATA_LINE;
  }

  lemma NeverMeasured(w: World, s: State)
    requires Live(w, s) && s.format.data.format.Ascii?
    requires s.power.efficiencyInput == s.power.efficiencyOutput == EFFICIENCY_NAME
    ensures MeasurementResponse(w, s, [EFFICIENCY_NAME], true) == None
  {
    hide Measure, Plans, MeasureWithin;
    IsEfficiency(w, s);
    RecursionIsOneLevelOrEndless(w, s, EFFICIENCY_NAME, 2);
  }

  lemma DataLineHangs(w: World, s: State)
    requires ClientTable(w.specs) && Live(w, s) && s.format.data.format.Ascii?
    requires s.power.efficiencyInput == s.power.efficiencyOutput == EFFICIENCY_NAME
    ensures RunLine(Simulator(w), s, DATA_LINE).ending.Hung?
  {
    hide RunLine, MeasurementResponse, DataStatusCommand, ClientTable, OneCommand, SeparateNames, QuoteJoin;
    var names := [EFFICIENCY_NAME];
    NameHasNoQuote();
    QuoteFreeIsOneCommand(names);
    Names();
    DataLineText();
    DataStatusRuns(w, s, names);
    NeverMeasured(w, WithFunctions(s, names));
  }

  lemma StillLive(w: World, s: State)
    requires Live(w, s)
    ensures Live(w, WithReferences(s))
  {}

  /** On a live signal in text format, storing the efficiency as both its references and then measuring it never ends. */
  lemma EndlessLine(w: World, s: State)
    requires ClientTable(w.specs) && KnowsReferences(w.specs)
    requires Live(w, s) && s.format.data.format.Ascii?
    ensures var stored := RunLine(Simulator(w), s, REFERENCE_LINE);
            && stored.ending.Completed?
            && RunLine(Simulator(w), stored.state, DATA_LINE).ending.Hung?
  {
    hide RunLine, ClientTable, KnowsReferences, Live;
    ReferenceLineRuns(w, s);
    StillLive(w, s);
    DataLineHangs(w, WithReferences(s));
  }

  /** Sent to a freshly started simulator, the first line is carried out and the second never answered. */
  predicate NeverEnds(w: World) {
    var stored := RunLine(Simulator(w), InitialState(w.options), REFERENCE_LINE);
    && stored.ending.Completed?
    && RunLine(Simulator(w), stored.state, DATA_LINE).ending.Hung?
  }

  lemma EndlessFromStart(w: World)
    requires ClientTable(w.specs) && KnowsReferences(w.specs) && w.signal.present
    ensures NeverEnds(w)
  {
    hide RunLine, Dispatch, ClientTable, KnowsReferences;
    EndlessLine(w, InitialState(w.options));
  }

  /** The simulator with its own table gets there in these two lines, as soon as a signal is connected. */
  lemma TwoLinesToEndlessness(w: World)
    requires w.specs == TABLE && w.signal.present
    ensures NeverEnds(w)
  {
    hide NeverEnds, Specs, Concat, ClientTable, KnowsReferences;
    TableServesClients();
    ReferenceIsKnown();
    EndlessFromStart(w);
  }
}
