/** The command table knows every header the client library sends in these proofs. */
module ClientHeaders {
  import opened Wrappers
  import opened Pattern
  import opened Commands
  import opened Headers
  import opened CommandTable

  function T(name: string): Token { Token(name, 0, false) }

  lemma EmptyMatch(m: Mnemonic)
    ensures Match(Nodes(End), []) == Some([])
    ensures Match(Nodes(May(m, End)), []) == Some([])
  {
    MatchMay(Name(m, NoNames), false, End, []);
  }

  lemma LeafRows()
    ensures Holds(FUNCTION_LEAF, Functions(FunctionList), [], [])
    ensures Holds(FORMAT_LEAF, Format(DataFormat), [], [])
    ensures Holds(TRACE_DATA_LEAF, Trace(TraceData), [], [])
    ensures Holds(ERROR_LEAF, System(ErrorNext), [], [])
    ensures Holds(DATA_LEAF, Data(false), [], [])
    ensures Holds(SPECTRUM_LEAF, Spectrum(SpectrumData), [], [])
  {
    EmptyMatch(ON);
    EmptyMatch(DATA);
    EmptyMatch(NEXT);
    HoldsAt(FUNCTION_LEAF, 4, [], []);
    HoldsAt(FORMAT_LEAF, 3, [], []);
    HoldsAt(TRACE_DATA_LEAF, 0, [], []);
    HoldsAt(ERROR_LEAF, 1, [], []);
    HoldsAt(DATA_LEAF, 1, [], []);
    HoldsAt(SPECTRUM_LEAF, 2, [], []);
  }

  lemma OneWordRows()
    ensures Holds(FUNCTION_LEAF, Functions(Concurrent), [T("CONC")], [])
    ensures Holds(DATA_LEAF, Data(true), [T("STAT")], [])
    ensures Holds(ERROR_LEAF, System(ErrorAll), [T("ALL")], [])
  {
    EmptyMatch(ON);
    MatchMust(CONCURRENT, End, [], []);
    MatchMust(STATUS, End, [], []);
    MatchMust(ALL, End, [], []);
    assert [T("CONC")] + [] == [T("CONC")];
    assert [T("STAT")] + [] == [T("STAT")];
    assert [T("ALL")] + [] == [T("ALL")];
    HoldsAt(FUNCTION_LEAF, 1, [T("CONC")], []);
    HoldsAt(DATA_LEAF, 0, [T("STAT")], []);
    HoldsAt(ERROR_LEAF, 0, [T("ALL")], []);
  }

  lemma TraceStatusRow()
    ensures Holds(TRACE_POINTS_LEAF, Trace(TraceStatus), [T("STAT")], [])
  {
    EmptyMatch(DATA);
    MatchMust(STATUS, End, [], []);
    assert [T("STAT")] + [] == [T("STAT")];
    MatchMay(Just(DATA), false, Must(STATUS, End), [T("STAT")]);
    HoldsAt(TRACE_POINTS_LEAF, 1, [T("STAT")], []);
  }

  /** A row of the SENSe branch is found without writing SENSe out. */
  lemma InSense(key: Key, ts: seq<Token>)
    requires Holds(SENSE_DATA, key, ts, []) && !FirstIn(ts, Just(SENSE))
    ensures Holds(ALL_ROWS, key, ts, [])
  {
    HoldsConcat(SENSE_DATA, SENSE_MEMORY, key, ts, []);
    HoldsConcat(Below(SWEEP, FREQUENCY_LEAF), Concat(SENSE_DATA, SENSE_MEMORY), key, ts, []);
    HoldsConcat(SENSE_RANGES, Concat(Below(SWEEP, FREQUENCY_LEAF), Concat(SENSE_DATA, SENSE_MEMORY)), key, ts, []);
    HoldsBeyond(Just(SENSE), false, SENSE_BRANCH, key, ts, []);
    HoldsConcat(SENSE_ROWS, Concat(MIDDLE_ROWS, TAIL_ROWS), key, ts, []);
    HoldsConcat(HEAD_ROWS, Concat(SENSE_ROWS, Concat(MIDDLE_ROWS, TAIL_ROWS)), key, ts, []);
  }

  lemma InMiddle(key: Key, ts: seq<Token>, suffixes: seq<int>)
    requires Holds(MIDDLE_ROWS, key, ts, suffixes)
    ensures Holds(ALL_ROWS, key, ts, suffixes)
  {
    HoldsConcat(MIDDLE_ROWS, TAIL_ROWS, key, ts, suffixes);
    HoldsConcat(SENSE_ROWS, Concat(MIDDLE_ROWS, TAIL_ROWS), key, ts, suffixes);
    HoldsConcat(HEAD_ROWS, Concat(SENSE_ROWS, Concat(MIDDLE_ROWS, TAIL_ROWS)), key, ts, suffixes);
  }

  lemma InTail(key: Key, ts: seq<Token>)
    requires Holds(TAIL_ROWS, key, ts, [])
    ensures Holds(ALL_ROWS, key, ts, [])
  {
    HoldsConcat(MIDDLE_ROWS, TAIL_ROWS, key, ts, []);
    HoldsConcat(SENSE_ROWS, Concat(MIDDLE_ROWS, TAIL_ROWS), key, ts, []);
    HoldsConcat(HEAD_ROWS, Concat(SENSE_ROWS, Concat(MIDDLE_ROWS, TAIL_ROWS)), key, ts, []);
  }

  lemma InFunction(key: Key, ts: seq<Token>)
    requires Holds(FUNCTION_LEAF, key, ts, [])
    ensures Holds(ALL_ROWS, key, [T("FUNC")] + ts, [])
  {
    HoldsBelow(FUNCTION, FUNCTION_LEAF, key, ts, []);
    HoldsConcat(Below(FUNCTION, FUNCTION_LEAF), Below(DATA, DATA_LEAF), key, [T("FUNC")] + ts, []);
    InSense(key, [T("FUNC")] + ts);
  }

  lemma InData(key: Key, ts: seq<Token>)
    requires Holds(DATA_LEAF, key, ts, [])
    ensures Holds(ALL_ROWS, key, [T("DATA")] + ts, [])
  {
    HoldsBelow(DATA, DATA_LEAF, key, ts, []);
    HoldsConcat(Below(FUNCTION, FUNCTION_LEAF), Below(DATA, DATA_LEAF), key, [T("DATA")] + ts, []);
    InSense(key, [T("DATA")] + ts);
  }

  lemma InError(key: Key, ts: seq<Token>)
    requires Holds(ERROR_LEAF, key, ts, [])
    ensures Holds(ALL_ROWS, key, [T("SYST")] + ([T("ERR")] + ts), [])
  {
    var error := [T("ERR")] + ts;
    HoldsBelow(ERROR, ERROR_LEAF, key, ts, []);
    HoldsConcat(Below(ERROR, ERROR_LEAF), IDENTITY_LEAF, key, error, []);
    HoldsConcat(CLOCK_LEAF, Concat(Below(ERROR, ERROR_LEAF), IDENTITY_LEAF), key, error, []);
    HoldsConcat(Below(COMMUNICATE, COMMUNICATE_LEAF), Concat(CLOCK_LEAF, Concat(Below(ERROR, ERROR_LEAF), IDENTITY_LEAF)),
                key, error, []);
    HoldsBelow(SYSTEM, SYSTEM_BRANCH, key, error, []);
    var r4 := Concat(Below(STATUS, STATUS_BRANCH), Below(TIMER, Below(RESET, TIMER_LEAF)));
    var r3 := Concat(Below(SYSTEM, SYSTEM_BRANCH), r4);
    var r2 := Concat(Under(Just(OUTPUT), false, true, OUTPUT_LEAF), r3);
    HoldsConcat(Below(SYSTEM, SYSTEM_BRANCH), r4, key, [T("SYST")] + error, []);
    HoldsConcat(Under(Just(OUTPUT), false, true, OUTPUT_LEAF), r3, key, [T("SYST")] + error, []);
    HoldsConcat(Below(DISPLAY, DISPLAY_LEAF), r2, key, [T("SYST")] + error, []);
    HoldsConcat(Below(FORMAT, FORMAT_LEAF), Concat(Below(DISPLAY, DISPLAY_LEAF), r2), key, [T("SYST")] + error, []);
    InTail(key, [T("SYST")] + error);
  }

  lemma InTrace(key: Key, ts: seq<Token>)
    requires Holds(TRACE_BRANCH, key, ts, [])
    ensures Holds(ALL_ROWS, key, [T("TRAC")] + ts, [])
  {
    var own := [T("TRAC")] + ts;
    HoldsBelow(TRACE, TRACE_BRANCH, key, ts, []);
    var r4 := Concat(Below(CALCULATE, CALCULATE_BRANCH), Below(TRACE, TRACE_BRANCH));
    var r3 := Concat(Below(TRIGGER, TRIGGER_BRANCH), r4);
    HoldsConcat(Below(CALCULATE, CALCULATE_BRANCH), Below(TRACE, TRACE_BRANCH), key, own, []);
    HoldsConcat(Below(TRIGGER, TRIGGER_BRANCH), r4, key, own, []);
    HoldsConcat(Below(INITIATE, INITIATE_LEAF), r3, key, own, []);
    HoldsConcat(Below(SYNC, SYNC_BRANCH), Concat(Below(INITIATE, INITIATE_LEAF), r3), key, own, []);
    InMiddle(key, own, []);
  }

  lemma SpectrumHeader()
    ensures Holds(ALL_ROWS, Spectrum(SpectrumData), [T("CALC")] + ([T("DATA")] + []), [])
  {
    var key, data := Spectrum(SpectrumData), [T("DATA")] + [];
    LeafRows();
    HoldsBelow(DATA, SPECTRUM_LEAF, key, [], []);
    var r2 := Concat(Below(INTEGRAL, INTEGRAL_BRANCH), POWER_LEAF);
    HoldsConcat(Below(DATA, SPECTRUM_LEAF), r2, key, data, []);
    HoldsConcat(Below(TRANSFORM, Below(FREQUENCY, TRANSFORM_LEAF)), Concat(Below(DATA, SPECTRUM_LEAF), r2), key, data, []);
    InCalculate(key, data, []);
  }

  lemma ReferenceRow()
    ensures Holds(POWER_LEAF, EfficiencyReference, [T("POW")] + ([T("EFF")] + ([T("REF")] + [])), [0])
  {
    EmptyMatch(ON);
    MatchMust(REFERENCE, End, [], []);
    MatchMust(EFFICIENCY, Must(REFERENCE, End), [T("REF")] + [], []);
    MatchNumbered(POWER, Must(EFFICIENCY, Must(REFERENCE, End)), [T("EFF")] + ([T("REF")] + []), []);
    assert [0] + [] == [0];
    HoldsAt(POWER_LEAF, 2, [T("POW")] + ([T("EFF")] + ([T("REF")] + [])), [0]);
  }

  lemma InCalculate(key: Key, ts: seq<Token>, suffixes: seq<int>)
    requires Holds(CALCULATE_BRANCH, key, ts, suffixes)
    ensures Holds(ALL_ROWS, key, [T("CALC")] + ts, suffixes)
  {
    HoldsBelow(CALCULATE, CALCULATE_BRANCH, key, ts, suffixes);
    var own := [T("CALC")] + ts;
    var r4 := Concat(Below(CALCULATE, CALCULATE_BRANCH), Below(TRACE, TRACE_BRANCH));
    var r3 := Concat(Below(TRIGGER, TRIGGER_BRANCH), r4);
    HoldsConcat(Below(CALCULATE, CALCULATE_BRANCH), Below(TRACE, TRACE_BRANCH), key, own, suffixes);
    HoldsConcat(Below(TRIGGER, TRIGGER_BRANCH), r4, key, own, suffixes);
    HoldsConcat(Below(INITIATE, INITIATE_LEAF), r3, key, own, suffixes);
    HoldsConcat(Below(SYNC, SYNC_BRANCH), Concat(Below(INITIATE, INITIATE_LEAF), r3), key, own, suffixes);
    InMiddle(key, own, suffixes);
  }

  lemma ReferenceHeader()
    ensures Holds(ALL_ROWS, EfficiencyReference, [T("CALC")] + ([T("POW")] + ([T("EFF")] + ([T("REF")] + []))), [0])
  {
    var key, own := EfficiencyReference, [T("POW")] + ([T("EFF")] + ([T("REF")] + []));
    ReferenceRow();
    HoldsConcat(Below(INTEGRAL, INTEGRAL_BRANCH), POWER_LEAF, key, own, [0]);
    var r2 := Concat(Below(INTEGRAL, INTEGRAL_BRANCH), POWER_LEAF);
    HoldsConcat(Below(DATA, SPECTRUM_LEAF), r2, key, own, [0]);
    HoldsConcat(Below(TRANSFORM, Below(FREQUENCY, TRANSFORM_LEAF)), Concat(Below(DATA, SPECTRUM_LEAF), r2), key, own, [0]);
    InCalculate(key, own, [0]);
  }

  lemma ReferenceIsKnown()
    ensures KnowsReferences(TABLE)
  {
    hide Specs, Concat, Holds, Dispatch;
    ReferenceHeader();
    assert Plain(["CALC", "POW", "EFF", "REF"]) == [T("CALC")] + ([T("POW")] + ([T("EFF")] + ([T("REF")] + [])));
    SelectsWith(EfficiencyReference, [T("CALC")] + ([T("POW")] + ([T("EFF")] + ([T("REF")] + []))), [0]);
  }

  lemma FormatHeader()
    ensures Holds(ALL_ROWS, Format(DataFormat), [T("FORM")] + [], [])
  {
    LeafRows();
    HoldsBelow(FORMAT, FORMAT_LEAF, Format(DataFormat), [], []);
    var r4 := Concat(Below(STATUS, STATUS_BRANCH), Below(TIMER, Below(RESET, TIMER_LEAF)));
    var r2 := Concat(Under(Just(OUTPUT), false, true, OUTPUT_LEAF), Concat(Below(SYSTEM, SYSTEM_BRANCH), r4));
    HoldsConcat(Below(FORMAT, FORMAT_LEAF), Concat(Below(DISPLAY, DISPLAY_LEAF), r2), Format(DataFormat), [T("FORM")] + [], []);
    InTail(Format(DataFormat), [T("FORM")] + []);
  }

  lemma TraceHeaders()
    ensures Holds(ALL_ROWS, Trace(TraceData), [T("TRAC")] + [], [])
    ensures Holds(ALL_ROWS, Trace(TraceStatus), [T("TRAC")] + [T("STAT")], [])
  {
    LeafRows();
    TraceStatusRow();
    var r2 := Concat(TRACE_MEMORY_LEAF, TRACE_DATA_LEAF);
    HoldsConcat(TRACE_MEMORY_LEAF, TRACE_DATA_LEAF, Trace(TraceData), [], []);
    HoldsConcat(TRACE_POINTS_LEAF, r2, Trace(TraceData), [], []);
    HoldsConcat(TRACE_POINTS_LEAF, r2, Trace(TraceStatus), [T("STAT")], []);
    InTrace(Trace(TraceData), []);
    InTrace(Trace(TraceStatus), [T("STAT")]);
  }

  lemma SelectsWith(key: Key, ts: seq<Token>, suffixes: seq<int>)
    requires Holds(ALL_ROWS, key, ts, suffixes)
    ensures Dispatch(TABLE, ts) == Some(Selected(key, suffixes))
  {
    hide Specs, Concat, Holds;
    TableIsUnambiguous();
    HoldsSelects(ALL_ROWS, key, ts, suffixes);
  }

  lemma Selects(key: Key, ts: seq<Token>)
    requires Holds(ALL_ROWS, key, ts, [])
    ensures Dispatch(TABLE, ts) == Some(Selected(key, []))
  {
    hide Specs, Concat, Holds, Dispatch;
    SelectsWith(key, ts, []);
  }

  lemma SenseHeaders()
    ensures Dispatch(TABLE, Plain(["FUNC"])) == Some(Selected(Functions(FunctionList), []))
    ensures Dispatch(TABLE, Plain(["FUNC", "CONC"])) == Some(Selected(Functions(Concurrent), []))
    ensures Dispatch(TABLE, Plain(["DATA"])) == Some(Selected(Data(false), []))
    ensures Dispatch(TABLE, Plain(["DATA", "STAT"])) == Some(Selected(Data(true), []))
  {
    hide Specs, Concat, Holds, Dispatch;
    LeafRows();
    OneWordRows();
    InFunction(Functions(FunctionList), []);
    InFunction(Functions(Concurrent), [T("CONC")]);
    InData(Data(false), []);
    InData(Data(true), [T("STAT")]);
    assert Plain(["FUNC"]) == [T("FUNC")] + [];
    assert Plain(["FUNC", "CONC"]) == [T("FUNC")] + [T("CONC")];
    assert Plain(["DATA"]) == [T("DATA")] + [];
    assert Plain(["DATA", "STAT"]) == [T("DATA")] + [T("STAT")];
    Selects(Functions(FunctionList), [T("FUNC")] + []);
    Selects(Functions(Concurrent), [T("FUNC")] + [T("CONC")]);
    Selects(Data(false), [T("DATA")] + []);
    Selects(Data(true), [T("DATA")] + [T("STAT")]);
  }

  lemma ErrorHeaders()
    ensures Dispatch(TABLE, Plain(["SYST", "ERR"])) == Some(Selected(System(ErrorNext), []))
    ensures Dispatch(TABLE, Plain(["SYST", "ERR", "ALL"])) == Some(Selected(System(ErrorAll), []))
  {
    hide Specs, Concat, Holds, Dispatch;
    LeafRows();
    OneWordRows();
    InError(System(ErrorNext), []);
    InError(System(ErrorAll), [T("ALL")]);
    assert Plain(["SYST", "ERR"]) == [T("SYST")] + ([T("ERR")] + []);
    assert Plain(["SYST", "ERR", "ALL"]) == [T("SYST")] + ([T("ERR")] + [T("ALL")]);
    Selects(System(ErrorNext), [T("SYST")] + ([T("ERR")] + []));
    Selects(System(ErrorAll), [T("SYST")] + ([T("ERR")] + [T("ALL")]));
  }

  lemma OtherHeaders()
    ensures Dispatch(TABLE, Plain(["FORM"])) == Some(Selected(Format(DataFormat), []))
    ensures Dispatch(TABLE, Plain(["CALC", "DATA"])) == Some(Selected(Spectrum(SpectrumData), []))
    ensures Dispatch(TABLE, Plain(["TRAC"])) == Some(Selected(Trace(TraceData), []))
    ensures Dispatch(TABLE, Plain(["TRAC", "STAT"])) == Some(Selected(Trace(TraceStatus), []))
  {
    hide Specs, Concat, Holds, Dispatch;
    FormatHeader();
    SpectrumHeader();
    TraceHeaders();
    assert Plain(["FORM"]) == [T("FORM")] + [];
    assert Plain(["CALC", "DATA"]) == [T("CALC")] + ([T("DATA")] + []);
    assert Plain(["TRAC"]) == [T("TRAC")] + [];
    assert Plain(["TRAC", "STAT"]) == [T("TRAC")] + [T("STAT")];
    Selects(Format(DataFormat), [T("FORM")] + []);
    Selects(Spectrum(SpectrumData), [T("CALC")] + ([T("DATA")] + []));
    Selects(Trace(TraceData), [T("TRAC")] + []);
    Selects(Trace(TraceStatus), [T("TRAC")] + [T("STAT")]);
  }

  /** The table of the simulator is one the client can work with. */
  lemma TableServesClients()
    ensures ClientTable(TABLE)
  {
    hide Specs, Concat, Holds, Dispatch;
    SenseHeaders();
    ErrorHeaders();
    OtherHeaders();
  }
}
