/** The command table written out row by row, and the proof that the dispatcher scans its compiled form. */
module TableText {
  import opened Wrappers
  import opened Text
  import opened Pattern
  import opened PatternText
  import opened Commands
  import opened Headers
  import opened CommandTable

  // ------------------------------------------------------------------------ the table as text

  /** One row of the table: its key, and its pattern as the texts of the nodes. */
  datatype Line = Line(key: Key, nodes: seq<string>)

  function TextOf(line: Line): string { Join(line.nodes, ':') }

  /** The rows of a table are the compiled texts of the lines. */
  predicate CompiledFrom(specs: seq<CommandSpec>, lines: seq<Line>) {
    |specs| == |lines| && forall i :: 0 <= i < |lines| ==> specs[i] == CommandSpec(lines[i].key, Compile(TextOf(lines[i])))
  }

  /** One of the lines with this key matches the header with these suffixes. */
  predicate Written(lines: seq<Line>, key: Key, ts: seq<Token>, suffixes: seq<int>) {
    exists i :: 0 <= i < |lines| && lines[i].key == key && Match(Compile(TextOf(lines[i])), ts) == Some(suffixes)
  }

  const HEAD_LINES: seq<Line> := [
    Line(Abort, ["ABORt"]),
    Line(RouteSystem, ["ROUTe", "SYSTem"]),
    Line(Input(Coupling), ["INPut#", "COUPling"]),
    Line(Input(Gain), ["INPut#", "GAIN"]),
    Line(Input(FilterFrequency), ["INPut#", "FILTer", "[LPASs]", "FREQuency"]),
    Line(Input(FilterState), ["INPut#", "FILTer", "[STATe]"]),
    Line(Input(Shunt), ["INPut#", "SHUNt"])
  ]

  const VOLTAGE_RANGING_LINES: seq<Line> := [
    Line(Ranging(true, RangeList), ["[SENSe]", "VOLTage#", "[AC|DC]", "RANGe", "[UPPer]", "LIST"]),
    Line(Ranging(true, RangeAuto), ["[SENSe]", "VOLTage#", "[AC|DC]", "RANGe", "[UPPer]", "AUTO"]),
    Line(Ranging(true, Range), ["[SENSe]", "VOLTage#", "[AC|DC]", "RANGe", "[UPPer]"]),
    Line(Ranging(true, Scale), ["[SENSe]", "VOLTage#", "[AC|DC]", "SCALe"])
  ]

  const CURRENT_RANGING_LINES: seq<Line> := [
    Line(Ranging(false, RangeList), ["[SENSe]", "CURRent#", "[AC|DC]", "RANGe", "[UPPer]", "LIST"]),
    Line(Ranging(false, RangeAuto), ["[SENSe]", "CURRent#", "[AC|DC]", "RANGe", "[UPPer]", "AUTO"]),
    Line(Ranging(false, Range), ["[SENSe]", "CURRent#", "[AC|DC]", "RANGe", "[UPPer]"]),
    Line(Ranging(false, Scale), ["[SENSe]", "CURRent#", "[AC|DC]", "SCALe"])
  ]

  const APERTURE_LINES: seq<Line> := [
    Line(Aperture, ["[SENSe]", "[VOLTage#|CURRent#|POWer#]", "[AC|DC]", "APERture"])
  ]

  const FREQUENCY_LINES: seq<Line> := [
    Line(SamplingFrequency, ["[SENSe]", "SWEep", "FREQuency"])
  ]

  const FUNCTION_LINES: seq<Line> := [
    Line(Functions(FunctionsOff), ["[SENSe]", "FUNCtion", "OFF", "ALL"]),
    Line(Functions(Concurrent), ["[SENSe]", "FUNCtion", "CONCurrent"]),
    Line(Functions(FunctionCount), ["[SENSe]", "FUNCtion", "[ON]", "COUNt"]),
    Line(Functions(FunctionsAll), ["[SENSe]", "FUNCtion", "[ON]", "ALL"]),
    Line(Functions(FunctionList), ["[SENSe]", "FUNCtion", "[ON]"])
  ]

  const DATA_LINES: seq<Line> := [
    Line(Data(true), ["[SENSe]", "DATA", "STATus"]),
    Line(Data(false), ["[SENSe]", "DATA"])
  ]

  const SWEEP_LINES: seq<Line> := [
    Line(Sweep(OffsetPoints), ["[SENSe]", "SWEep#", "OFFSet", "POINTS"]),
    Line(Sweep(OffsetTime), ["[SENSe]", "SWEep#", "OFFSet", "TIME"]),
    Line(Sweep(SweepPoints), ["[SENSe]", "SWEep#", "POINTS"]),
    Line(Sweep(SweepTime), ["[SENSe]", "SWEep#", "TIME"]),
    Line(Sweep(SweepCount), ["[SENSe]", "SWEep#", "COUNt"]),
    Line(Sweep(Sparsing), ["[SENSe]", "SWEep#", "SFACtor"]),
    Line(Sweep(SweepFunctions), ["[SENSe]", "SWEep#", "FUNCtion"]),
    Line(Sweep(SweepState), ["[SENSe]", "SWEep#", "[STATe]"])
  ]

  const SYNC_LINES: seq<Line> := [
    Line(Sync(SyncState), ["SYNC", "STATe"]),
    Line(Sync(LevelUnit), ["SYNC", "LEVel", "UNIT"]),
    Line(Sync(SyncTimeout), ["SYNC", "TIMeout"]),
    Line(Sync(SyncLevel), ["SYNC", "[SOURce|VOLTage#|CURRent#]", "LEVel"]),
    Line(Sync(SyncSlope), ["SYNC", "[SOURce|VOLTage#|CURRent#]", "SLOPe"]),
    Line(Sync(SyncFilterFrequency), ["SYNC", "[SOURce|VOLTage#|CURRent#]", "FILTer", "[LPASs]", "FREQuency"]),
    Line(Sync(SyncFilterState), ["SYNC", "[SOURce|VOLTage#|CURRent#]", "FILTer", "[LPASs]", "[STATe]"]),
    Line(Sync(SyncSource), ["SYNC", "[SOURce]"])
  ]

  const INITIATE_LINES: seq<Line> := [
    Line(Initiate(Continuous), ["INITiate", "CONTinuous"]),
    Line(Initiate(Sequence), ["INITiate", "[IMMediate]", "SEQuence#"]),
    Line(Initiate(SequenceName), ["INITiate", "[IMMediate]", "NAME"]),
    Line(Initiate(Immediate), ["INITiate", "[IMMediate]"])
  ]

  const TRIGGER_LINES: seq<Line> := [
    Line(Trigger(true, TriggerSource), ["TRIGger", "STARt", "SOURce"]),
    Line(Trigger(true, TriggerTime), ["TRIGger", "STARt", "TIME"]),
    Line(Trigger(true, TriggerLevel), ["TRIGger", "STARt", "LEVel"]),
    Line(Trigger(true, TriggerSlope), ["TRIGger", "STARt", "SLOPe"]),
    Line(Trigger(false, TriggerSource), ["TRIGger", "STOP", "SOURce"]),
    Line(Trigger(false, TriggerTime), ["TRIGger", "STOP", "TIME"]),
    Line(Trigger(false, TriggerLevel), ["TRIGger", "STOP", "LEVel"]),
    Line(Trigger(false, TriggerSlope), ["TRIGger", "STOP", "SLOPe"])
  ]

  const TRANSFORM_LINES: seq<Line> := [
    Line(Transform(TransformMode), ["CALCulate", "TRANsform", "FREQuency", "MODE"]),
    Line(Transform(TransformFunctions), ["CALCulate", "TRANsform", "FREQuency", "FUNCtion"]),
    Line(Transform(TransformStart), ["CALCulate", "TRANsform", "FREQuency", "STARt"]),
    Line(Transform(TransformStop), ["CALCulate", "TRANsform", "FREQuency", "STOP"]),
    Line(Transform(TransformCycles), ["CALCulate", "TRANsform", "FREQuency", "CYCLes"]),
    Line(Transform(TransformGrouping), ["CALCulate", "TRANsform", "FREQuency", "GROuping"]),
    Line(Transform(TransformOnce), ["CALCulate", "TRANsform", "FREQuency", "[STATe]"])
  ]

  const SPECTRUM_LINES: seq<Line> := [
    Line(Spectrum(SpectrumPreamble), ["CALCulate", "DATA", "PREamble"]),
    Line(Spectrum(SpectrumThd), ["CALCulate", "DATA", "THD"]),
    Line(Spectrum(SpectrumData), ["CALCulate", "DATA"])
  ]

  const INTEGRAL_LINES: seq<Line> := [
    Line(Integral(ClearAuto), ["CALCulate", "INTegral", "CLEar", "AUTO"]),
    Line(Integral(ClearNow), ["CALCulate", "INTegral", "CLEar", "[IMMediate]"]),
    Line(Integral(IntegralFunctions), ["CALCulate", "INTegral", "FUNCtion"]),
    Line(Integral(StartSource), ["CALCulate", "INTegral", "STARt", "SOURce"]),
    Line(Integral(StartTime), ["CALCulate", "INTegral", "STARt", "TIME"]),
    Line(Integral(StartNow), ["CALCulate", "INTegral", "STARt", "[IMMediate]"]),
    Line(Integral(StopSource), ["CALCulate", "INTegral", "STOP", "SOURce"]),
    Line(Integral(StopTime), ["CALCulate", "INTegral", "STOP", "TIME"]),
    Line(Integral(StopInterval), ["CALCulate", "INTegral", "STOP", "TINTerval"]),
    Line(Integral(StopNow), ["CALCulate", "INTegral", "STOP", "[IMMediate]"]),
    Line(Integral(IntegralState), ["CALCulate", "INTegral", "[STATe]"])
  ]

  const POWER_LINES: seq<Line> := [
    Line(HarmonicOrder, ["CALCulate", "HARMonic", "ORDer"]),
    Line(PowerCorrection, ["CALCulate", "POWer", "CORRected"]),
    Line(EfficiencyReference, ["CALCulate", "POWer#", "EFFiciency", "REFerence"])
  ]

  const TRACE_LINES: seq<Line> := [
    Line(Trace(TracePreamble), ["TRACe", "[DATA]", "PREamble"]),
    Line(Trace(TraceStatus), ["TRACe", "[DATA]", "STATus"]),
    Line(Trace(TraceFree), ["TRACe", "FREE"]),
    Line(Trace(TraceLength), ["TRACe", "CATalog", "LENgth"]),
    Line(Trace(TraceDelete), ["TRACe", "DELete", "ALL"]),
    Line(Trace(TraceData), ["TRACe", "[DATA]"])
  ]

  const FORMAT_LINES: seq<Line> := [
    Line(Format(StatusFormat), ["FORMat", "[DATA]", "STATus"]),
    Line(Format(ByteOrder), ["FORMat", "BORDer"]),
    Line(Format(Transpose), ["FORMat", "TRANspose"]),
    Line(Format(DataFormat), ["FORMat", "[DATA]"])
  ]

  const DISPLAY_LINES: seq<Line> := [
    Line(Display(DisplayFunctions), ["DISPlay", "USER", "FUNCtion"]),
    Line(Display(DisplayState), ["DISPlay", "[WINDow]", "[STATe]"])
  ]

  const OUTPUT_LINES: seq<Line> := [
    Line(Display(OutputState), ["OUTPut#", "[STATe]"])
  ]

  const SYSTEM_LINES: seq<Line> := [
    Line(System(GpibAddress), ["SYSTem", "COMMunicate", "GPIB", "[SELF]", "ADDRess"]),
    Line(System(SerialBaud), ["SYSTem", "COMMunicate", "SERial", "BAUD"]),
    Line(System(SystemDate), ["SYSTem", "DATE"]),
    Line(System(SystemTime), ["SYSTem", "TIME"]),
    Line(System(ErrorAll), ["SYSTem", "ERRor", "ALL"]),
    Line(System(ErrorNext), ["SYSTem", "ERRor", "[NEXT]"]),
    Line(System(KeyLock), ["SYSTem", "KLOCk"]),
    Line(System(Language), ["SYSTem", "LANGuage"]),
    Line(System(ScpiVersion), ["SYSTem", "VERSion"])
  ]

  const OPERATION_LINES: seq<Line> := [
    Line(Status(Operation, Condition), ["STATus", "OPERation", "CONDition"]),
    Line(Status(Operation, Enable), ["STATus", "OPERation", "ENABle"]),
    Line(Status(Operation, PositiveTransition), ["STATus", "OPERation", "PTRansition"]),
    Line(Status(Operation, NegativeTransition), ["STATus", "OPERation", "NTRansition"]),
    Line(Status(Operation, Event), ["STATus", "OPERation", "[EVENt]"])
  ]

  const VOLTAGE_STATUS_LINES: seq<Line> := [
    Line(Status(QuestionableVoltage, Condition), ["STATus", "QUEStionable", "VOLTage", "CONDition"]),
    Line(Status(QuestionableVoltage, Enable), ["STATus", "QUEStionable", "VOLTage", "ENABle"]),
    Line(Status(QuestionableVoltage, PositiveTransition), ["STATus", "QUEStionable", "VOLTage", "PTRansition"]),
    Line(Status(QuestionableVoltage, NegativeTransition), ["STATus", "QUEStionable", "VOLTage", "NTRansition"]),
    Line(Status(QuestionableVoltage, Event), ["STATus", "QUEStionable", "VOLTage", "[EVENt]"])
  ]

  const CURRENT_STATUS_LINES: seq<Line> := [
    Line(Status(QuestionableCurrent, Condition), ["STATus", "QUEStionable", "CURRent", "CONDition"]),
    Line(Status(QuestionableCurrent, Enable), ["STATus", "QUEStionable", "CURRent", "ENABle"]),
    Line(Status(QuestionableCurrent, PositiveTransition), ["STATus", "QUEStionable", "CURRent", "PTRansition"]),
    Line(Status(QuestionableCurrent, NegativeTransition), ["STATus", "QUEStionable", "CURRent", "NTRansition"]),
    Line(Status(QuestionableCurrent, Event), ["STATus", "QUEStionable", "CURRent", "[EVENt]"])
  ]

  const QUESTIONABLE_LINES: seq<Line> := [
    Line(Status(Questionable, Condition), ["STATus", "QUEStionable", "CONDition"]),
    Line(Status(Questionable, Enable), ["STATus", "QUEStionable", "ENABle"]),
    Line(Status(Questionable, PositiveTransition), ["STATus", "QUEStionable", "PTRansition"]),
    Line(Status(Questionable, NegativeTransition), ["STATus", "QUEStionable", "NTRansition"]),
    Line(Status(Questionable, Event), ["STATus", "QUEStionable", "[EVENt]"])
  ]

  const TIMER_LINES: seq<Line> := [
    Line(Timer(ResetAuto), ["TIMer", "RESet", "AUTO"]),
    Line(Timer(ResetTime), ["TIMer", "RESet", "TIME"]),
    Line(Timer(ResetNow), ["TIMer", "RESet"])
  ]

  const SENSE_LINES: seq<Line> :=
    ((VOLTAGE_RANGING_LINES + CURRENT_RANGING_LINES) + APERTURE_LINES)
    + (FREQUENCY_LINES + ((FUNCTION_LINES + DATA_LINES) + SWEEP_LINES))

  const CALCULATE_LINES: seq<Line> := TRANSFORM_LINES + (SPECTRUM_LINES + (INTEGRAL_LINES + POWER_LINES))

  const STATUS_LINES: seq<Line> := OPERATION_LINES + (VOLTAGE_STATUS_LINES + (CURRENT_STATUS_LINES + QUESTIONABLE_LINES))

  const MIDDLE_LINES: seq<Line> := SYNC_LINES + (INITIATE_LINES + (TRIGGER_LINES + (CALCULATE_LINES + TRACE_LINES)))

  const TAIL_LINES: seq<Line> := FORMAT_LINES + (DISPLAY_LINES + (OUTPUT_LINES + (SYSTEM_LINES + (STATUS_LINES + TIMER_LINES))))

  /** All rows, in the order they are searched. */
  const LINES: seq<Line> := HEAD_LINES + (SENSE_LINES + (MIDDLE_LINES + TAIL_LINES))

  // ------------------------------------------------------------------------ headers as text

  /** The alternatives of a level. All but SOURce are marked when the level carries a suffix. */
  function Alternatives(names: Names, suffixed: bool): seq<Alternative> {
    match names
    case NoNames => []
    case Name(m, tail) => [Alternative(Notation(m), suffixed && m != SOURCE)] + Alternatives(tail, suffixed)
  }

  predicate HasMark(names: Names) {
    match names
    case NoNames => false
    case Name(m, tail) => m != SOURCE || HasMark(tail)
  }

  function LevelText(names: Names, optional: bool, suffixed: bool): string {
    WriteNode(WrittenNode(Alternatives(names, suffixed), optional))
  }

  /** The levels of a header are written as the texts from position `d` on. Every level has a name,
      and one that can be marked where it carries a suffix. */
  predicate Spelled(h: Header, texts: seq<string>, d: nat) {
    match h
    case End => d == |texts|
    case Level(names, optional, suffixed, rest) =>
      && d < |texts| && texts[d] == LevelText(names, optional, suffixed)
      && names.Name? && (suffixed ==> HasMark(names))
      && Spelled(rest, texts, d + 1)
  }

  /** The rows are lines `i` to `j`, where a branch of the tree leaves out the first `d` nodes. */
  predicate InLines(rows: Rows, lines: seq<Line>, d: nat, i: nat, j: nat) {
    match rows
    case NoRows => i == j
    case Row(key, header, rest) =>
      && i < |lines| && key == lines[i].key && lines[i].nodes != [] && Spelled(header, lines[i].nodes, d)
      && InLines(rest, lines, d, i + 1, j)
  }

  predicate SameNode(lines: seq<Line>, d: nat, i: nat, j: nat, text: string) {
    forall k :: i <= k < j && k < |lines| ==> d < |lines[k].nodes| && lines[k].nodes[d] == text
  }

  lemma NotationIsWord(m: Mnemonic)
    ensures IsWord(Notation(m))
  {}

  lemma {:induction false} AlternativesOf(names: Names, suffixed: bool)
    ensures var xs := Alternatives(names, suffixed);
            && |xs| == |Notations(names)| && (names.Name? ==> |xs| >= 1)
            && (forall i :: 0 <= i < |xs| ==> xs[i].mnemonic == Notations(names)[i] && IsWord(xs[i].mnemonic))
            && ((exists i :: 0 <= i < |xs| && xs[i].marked) <==> suffixed && HasMark(names))
  {
    match names
    case NoNames =>
    case Name(m, tail) =>
      NotationIsWord(m);
      AlternativesOf(tail, suffixed);
      var xs, ys := Alternatives(names, suffixed), Alternatives(tail, suffixed);
      assert xs == [xs[0]] + ys && (xs[0].marked <==> suffixed && m != SOURCE);
      MarkedBehind(xs[0], ys);
  }

  lemma MarkedBehind(x: Alternative, ys: seq<Alternative>)
    ensures var xs := [x] + ys;
            && (forall i :: 1 <= i < |xs| ==> xs[i] == ys[i - 1])
            && ((exists i :: 0 <= i < |xs| && xs[i].marked) <==> x.marked || exists i :: 0 <= i < |ys| && ys[i].marked)
  {
    var xs := [x] + ys;
    assert xs[0] == x;
    if i :| 0 <= i < |ys| && ys[i].marked { assert xs[i + 1] == ys[i]; }
    if i :| 0 <= i < |xs| && xs[i].marked { assert i > 0 ==> ys[i - 1] == xs[i]; }
  }

  lemma LevelMeaning(names: Names, optional: bool, suffixed: bool)
    requires names.Name? && (suffixed ==> HasMark(names))
    ensures var node := WrittenNode(Alternatives(names, suffixed), optional);
            WellWritten(node) && Meaning(node) == PatternNode(Notations(names), optional, suffixed)
  {
    hide IsWord;
    AlternativesOf(names, suffixed);
    assert Meaning(WrittenNode(Alternatives(names, suffixed), optional)).mnemonics == Notations(names);
  }

  function LevelsOf(h: Header): seq<WrittenNode> {
    match h
    case End => []
    case Level(names, optional, suffixed, rest) => [WrittenNode(Alternatives(names, suffixed), optional)] + LevelsOf(rest)
  }

  lemma {:induction false} SpelledIsWritten(h: Header, texts: seq<string>, d: nat)
    requires Spelled(h, texts, d)
    ensures d <= |texts| && WriteNodes(LevelsOf(h)) == texts[d..]
  {
    hide Alternatives, HasMark, WriteNode;
    match h
    case End =>
    case Level(names, optional, suffixed, rest) =>
      SpelledIsWritten(rest, texts, d + 1);
      WrittenBehind(WrittenNode(Alternatives(names, suffixed), optional), LevelsOf(rest));
      assert texts[d..] == [texts[d]] + texts[d + 1..];
  }

  lemma WrittenBehind(node: WrittenNode, nodes: seq<WrittenNode>)
    ensures WriteNodes([node] + nodes) == [WriteNode(node)] + WriteNodes(nodes)
  {
    hide WriteNode;
  }

  lemma {:induction false} SpelledMeans(h: Header, texts: seq<string>, d: nat)
    requires Spelled(h, texts, d)
    ensures var nodes := LevelsOf(h);
            && |nodes| == |Nodes(h)|
            && forall i :: 0 <= i < |nodes| ==> WellWritten(nodes[i]) && Meaning(nodes[i]) == Nodes(h)[i]
  {
    hide WellWritten, Meaning, Alternatives, Notations, HasMark, LevelText;
    match h
    case End =>
    case Level(names, optional, suffixed, rest) =>
      LevelMeaning(names, optional, suffixed);
      SpelledMeans(rest, texts, d + 1);
  }

  /** The texts of a header compile to its nodes. */
  lemma CompileOfTexts(h: Header, texts: seq<string>)
    requires Spelled(h, texts, 0) && texts != []
    ensures Compile(Join(texts, ':')) == Nodes(h)
  {
    hide WellWritten, Meaning, Alternatives, Notations, Compile, WriteNodes, HasMark;
    SpelledMeans(h, texts, 0);
    SpelledIsWritten(h, texts, 0);
    assert |LevelsOf(h)| >= 1;
    CompileUndoesWrite(LevelsOf(h));
  }

  // ----------------------------------------------------------------- putting rows together

  lemma {:induction false} InLinesConcat(a: Rows, b: Rows, lines: seq<Line>, d: nat, i: nat, k: nat, j: nat)
    requires InLines(a, lines, d, i, k) && InLines(b, lines, d, k, j)
    ensures InLines(Concat(a, b), lines, d, i, j)
  {
    hide Spelled;
    match a
    case NoRows =>
    case Row(key, header, rest) => InLinesConcat(rest, b, lines, d, i + 1, k, j);
  }

  lemma {:induction false} InLinesUnder(names: Names, optional: bool, suffixed: bool, text: string, rows: Rows,
                                       lines: seq<Line>, d: nat, i: nat, j: nat)
    requires InLines(rows, lines, d + 1, i, j) && SameNode(lines, d, i, j, text)
    requires text == LevelText(names, optional, suffixed) && names.Name? && (suffixed ==> HasMark(names))
    ensures InLines(Under(names, optional, suffixed, rows), lines, d, i, j)
  {
    hide LevelText, HasMark;
    match rows
    case NoRows =>
    case Row(key, header, rest) =>
      InLinesLength(rest, lines, d + 1, i + 1, j);
      InLinesUnder(names, optional, suffixed, text, rest, lines, d, i + 1, j);
  }

  lemma {:induction false} InLinesLength(rows: Rows, lines: seq<Line>, d: nat, i: nat, j: nat)
    requires InLines(rows, lines, d, i, j)
    ensures i + Count(rows) == j && (i <= |lines| ==> j <= |lines|)
  {
    hide Spelled;
    match rows
    case NoRows =>
    case Row(key, header, rest) => InLinesLength(rest, lines, d, i + 1, j);
  }

  lemma InLinesBelow(m: Mnemonic, text: string, rows: Rows, lines: seq<Line>, d: nat, i: nat, j: nat)
    requires InLines(rows, lines, d + 1, i, j) && SameNode(lines, d, i, j, text) && LevelText(Just(m), false, false) == text
    ensures InLines(Below(m, rows), lines, d, i, j)
  {
    hide InLines, SameNode, LevelText;
    InLinesUnder(Just(m), false, false, text, rows, lines, d, i, j);
  }

  /** Lists may be put behind each other like the rows they list. */
  lemma {:induction false} InLinesWithin(rows: Rows, lines: seq<Line>, d: nat, i: nat, j: nat, before: seq<Line>, after: seq<Line>)
    requires InLines(rows, lines, d, i, j)
    ensures InLines(rows, before + lines + after, d, |before| + i, |before| + j)
  {
    hide Spelled;
    match rows
    case NoRows =>
    case Row(key, header, rest) =>
      InLinesWithin(rest, lines, d, i + 1, j, before, after);
      assert (before + lines + after)[|before| + i] == lines[i];
  }

  lemma InLinesAppend(a: Rows, xs: seq<Line>, b: Rows, ys: seq<Line>, d: nat)
    requires InLines(a, xs, d, 0, |xs|) && InLines(b, ys, d, 0, |ys|)
    ensures InLines(Concat(a, b), xs + ys, d, 0, |xs + ys|)
  {
    hide InLines;
    InLinesWithin(a, xs, d, 0, |xs|, [], ys);
    InLinesWithin(b, ys, d, 0, |ys|, xs, []);
    assert [] + xs + ys == xs + ys && xs + ys + [] == xs + ys;
    InLinesConcat(a, b, xs + ys, d, 0, |xs|, |xs + ys|);
  }

  lemma {:induction false} InLinesAt(rows: Rows, lines: seq<Line>, i: nat, j: nat, k: nat)
    requires InLines(rows, lines, 0, i, j) && i <= k < j
    ensures |Specs(rows)| == j - i && k < |lines|
    ensures Specs(rows)[k - i] == CommandSpec(lines[k].key, Compile(TextOf(lines[k])))
  {
    hide Spelled, Nodes, Compile;
    InLinesLength(rows, lines, 0, i, j);
    SpecsAt(rows, k - i);
    match rows
    case Row(key, header, rest) =>
      if k == i {
        CompileOfTexts(header, lines[i].nodes);
      } else {
        InLinesAt(rest, lines, i + 1, j, k);
      }
  }

  lemma InLinesAreCompiled(rows: Rows, lines: seq<Line>)
    requires InLines(rows, lines, 0, 0, |lines|)
    ensures CompiledFrom(Specs(rows), lines)
  {
    hide InLines, Compile, Specs, TextOf;
    InLinesLength(rows, lines, 0, 0, |lines|);
    SpecsAt(rows, 0);
    forall i | 0 <= i < |lines| ensures Specs(rows)[i] == CommandSpec(lines[i].key, Compile(TextOf(lines[i]))) {
      InLinesAt(rows, lines, 0, |lines|, i);
    }
  }

  lemma CompiledDispatch(specs: seq<CommandSpec>, lines: seq<Line>, ts: seq<Token>, key: Key, suffixes: seq<int>)
    requires Unambiguous(specs) && CompiledFrom(specs, lines)
    ensures Dispatch(specs, ts) == Some(Selected(key, suffixes)) <==> Written(lines, key, ts, suffixes)
    ensures Dispatch(specs, ts).None? <==> forall k, xs :: !Written(lines, k, ts, xs)
  {
    hide Compile, TextOf, Match;
    DispatchFinds(specs, ts);
    forall k, xs | Written(lines, k, ts, xs) ensures Dispatch(specs, ts) == Some(Selected(k, xs)) {
      var i :| 0 <= i < |lines| && lines[i].key == k && Match(Compile(TextOf(lines[i])), ts) == Some(xs);
      DispatchSelects(specs, ts, i);
    }
    if Dispatch(specs, ts).Some? {
      var selected := Dispatch(specs, ts).value;
      assert Written(lines, selected.key, ts, selected.suffixes);
    }
  }

  // ------------------------------------------------------------------------- the nodes' texts

  function Inner(names: Names, suffixed: bool): string {
    Join(WriteAlternatives(Alternatives(names, suffixed)), '|')
  }

  lemma LastName(m: Mnemonic, suffixed: bool)
    requires suffixed ==> m != SOURCE
    ensures Inner(Just(m), suffixed) == if suffixed then Notation(m) + "#" else Notation(m)
  {
    hide Notation;
    var xs := Alternatives(Just(m), suffixed);
    assert Alternatives(NoNames, suffixed) == [];
    assert xs == [Alternative(Notation(m), suffixed)];
    assert WriteAlternatives(xs) == [WriteAlternative(xs[0])];
  }

  lemma NextName(m: Mnemonic, tail: Names, suffixed: bool)
    requires tail.Name?
    ensures Inner(Name(m, tail), suffixed) ==
            (if suffixed && m != SOURCE then Notation(m) + "#" else Notation(m)) + "|" + Inner(tail, suffixed)
  {
    hide Notation;
    var xs, ys := Alternatives(Name(m, tail), suffixed), Alternatives(tail, suffixed);
    assert |xs| == 1 + |ys| && |ys| >= 1 && xs[0] == Alternative(Notation(m), suffixed && m != SOURCE);
    assert WriteAlternatives(xs) == [WriteAlternative(xs[0])] + WriteAlternatives(ys);
  }

  lemma InBrackets(names: Names, suffixed: bool)
    ensures LevelText(names, true, suffixed) == "[" + Inner(names, suffixed) + "]"
  {}

  function MarkedText(m: Mnemonic): string { if m != SOURCE then Notation(m) + "#" else Notation(m) }

  lemma InnerOfThree(a: Mnemonic, b: Mnemonic, c: Mnemonic, first: string, second: string, third: string)
    requires first == MarkedText(a) && second == MarkedText(b) && third == MarkedText(c) && c != SOURCE
    ensures Inner(Name(a, Name(b, Just(c))), true) == first + "|" + (second + "|" + third)
  {
    hide Notation, Inner;
    LastName(c, true);
    NextName(b, Just(c), true);
    NextName(a, Name(b, Just(c)), true);
  }

  lemma Numberable()
    ensures INPUT != SOURCE && VOLTAGE != SOURCE && CURRENT != SOURCE && POWER != SOURCE
    ensures SWEEP != SOURCE && SEQUENCE != SOURCE && OUTPUT != SOURCE
  {
    assert INPUT.short[0] == 'I' && VOLTAGE.short[0] == 'V' && CURRENT.short[0] == 'C' && POWER.short[0] == 'P';
    assert SWEEP.short[1] == 'W' && SEQUENCE.short[1] == 'E' && OUTPUT.short[1] == 'U';
  }

  /** A mnemonic is written as a word whose letters behind the short form are small. */
  lemma NotationIs(m: Mnemonic, word: string)
    requires |word| == |m.long| && word[..|m.short|] == m.short
    requires forall i :: |m.short| <= i < |word| ==> word[i] as int == m.long[i] as int + 32
    ensures Notation(m) == word
  {}

  lemma MarkedIs(m: Mnemonic, word: string)
    requires |word| == |m.long| && word[..|m.short|] == m.short
    requires forall i :: |m.short| <= i < |word| ==> word[i] as int == m.long[i] as int + 32
    ensures MarkedText(m) == if m != SOURCE then word + "#" else word
  {
    hide Notation;
    NotationIs(m, word);
  }

  lemma NodeIs(m: Mnemonic, optional: bool, suffixed: bool, word: string)
    requires |word| == |m.long| && word[..|m.short|] == m.short
    requires forall i :: |m.short| <= i < |word| ==> word[i] as int == m.long[i] as int + 32
    requires suffixed ==> m != SOURCE
    ensures var inner := if suffixed then word + "#" else word;
            LevelText(Just(m), optional, suffixed) == if optional then "[" + inner + "]" else inner
  {
    hide Notation;
    NotationIs(m, word);
    LastName(m, suffixed);
  }

  lemma QuantityString()
    ensures "[" + ("VOLTage#" + "|" + ("CURRent#" + "|" + "POWer#")) + "]" == "[VOLTage#|CURRent#|POWer#]"
  {}

  lemma SyncInputString()
    ensures "[" + ("SOURce" + "|" + ("VOLTage#" + "|" + "CURRent#")) + "]" == "[SOURce|VOLTage#|CURRent#]"
  {}

  lemma HeadTexts()
    ensures LevelText(Just(ABORT), false, false) == "ABORt"
    ensures LevelText(Just(ROUTE), false, false) == "ROUTe"
    ensures LevelText(Just(SYSTEM), false, false) == "SYSTem"
  {
    hide LevelText;
    NodeIs(ABORT, false, false, "ABORt");
    NodeIs(ROUTE, false, false, "ROUTe");
    NodeIs(SYSTEM, false, false, "SYSTem");
  }

  lemma InputTexts()
    ensures LevelText(Just(COUPLING), false, false) == "COUPling"
    ensures LevelText(Just(GAIN), false, false) == "GAIN"
    ensures LevelText(Just(SHUNT), false, false) == "SHUNt"
  {
    hide LevelText;
    NodeIs(COUPLING, false, false, "COUPling");
    NodeIs(GAIN, false, false, "GAIN");
    NodeIs(SHUNT, false, false, "SHUNt");
  }

  lemma InputNumber()
    ensures LevelText(Just(INPUT), false, true) == "INPut#"
  {
    hide LevelText;
    Numberable();
    NodeIs(INPUT, false, true, "INPut");
  }

  lemma FilterTexts()
    ensures LevelText(Just(FILTER), false, false) == "FILTer"
    ensures LevelText(Just(LPASS), true, false) == "[LPASs]"
    ensures LevelText(Just(FREQUENCY), false, false) == "FREQuency"
    ensures LevelText(Just(STATE), true, false) == "[STATe]"
  {
    hide LevelText;
    NodeIs(FILTER, false, false, "FILTer");
    NodeIs(LPASS, true, false, "LPASs");
    NodeIs(FREQUENCY, false, false, "FREQuency");
    NodeIs(STATE, true, false, "STATe");
  }

  lemma SenseTexts()
    ensures LevelText(Just(SENSE), true, false) == "[SENSe]"
    ensures LevelText(Just(APERTURE), false, false) == "APERture"
    ensures LevelText(Just(SWEEP), false, false) == "SWEep"
  {
    hide LevelText;
    NodeIs(SENSE, true, false, "SENSe");
    NodeIs(APERTURE, false, false, "APERture");
    NodeIs(SWEEP, false, false, "SWEep");
  }

  lemma VoltageNumber()
    ensures LevelText(Just(VOLTAGE), false, true) == "VOLTage#"
  {
    hide LevelText;
    Numberable();
    NodeIs(VOLTAGE, false, true, "VOLTage");
  }

  lemma CurrentNumber()
    ensures LevelText(Just(CURRENT), false, true) == "CURRent#"
  {
    hide LevelText;
    Numberable();
    NodeIs(CURRENT, false, true, "CURRent");
  }

  lemma SweepNumber()
    ensures LevelText(Just(SWEEP), false, true) == "SWEep#"
  {
    hide LevelText;
    Numberable();
    NodeIs(SWEEP, false, true, "SWEep");
  }

  lemma RangingTexts()
    ensures LevelText(Just(RANGE), false, false) == "RANGe"
    ensures LevelText(Just(UPPER), true, false) == "[UPPer]"
    ensures LevelText(Just(LIST), false, false) == "LIST"
  {
    hide LevelText;
    NodeIs(RANGE, false, false, "RANGe");
    NodeIs(UPPER, true, false, "UPPer");
    NodeIs(LIST, false, false, "LIST");
  }

  lemma ScaleTexts()
    ensures LevelText(Just(AUTO), false, false) == "AUTO"
    ensures LevelText(Just(SCALE), false, false) == "SCALe"
  {
    hide LevelText;
    NodeIs(AUTO, false, false, "AUTO");
    NodeIs(SCALE, false, false, "SCALe");
  }

  lemma CouplingTexts()
    ensures LevelText(AC_OR_DC, true, false) == "[AC|DC]"
  {
    hide Notation, Inner, LevelText, MarkedText;
    NotationIs(AC, "AC");
    NotationIs(DC, "DC");
    LastName(DC, false);
    NextName(AC, Just(DC), false);
    InBrackets(AC_OR_DC, false);
  }

  lemma QuantityTexts()
    ensures LevelText(QUANTITY, true, true) == "[VOLTage#|CURRent#|POWer#]"
  {
    hide Notation, Inner, LevelText, MarkedText;
    Numberable();
    MarkedIs(VOLTAGE, "VOLTage");
    MarkedIs(CURRENT, "CURRent");
    MarkedIs(POWER, "POWer");
    QuantityString();
    InnerOfThree(VOLTAGE, CURRENT, POWER, "VOLTage#", "CURRent#", "POWer#");
    InBrackets(QUANTITY, true);
  }

  lemma FunctionTexts()
    ensures LevelText(Just(FUNCTION), false, false) == "FUNCtion"
    ensures LevelText(Just(OFF), false, false) == "OFF"
    ensures LevelText(Just(ALL), false, false) == "ALL"
    ensures LevelText(Just(CONCURRENT), false, false) == "CONCurrent"
  {
    hide LevelText;
    NodeIs(FUNCTION, false, false, "FUNCtion");
    NodeIs(OFF, false, false, "OFF");
    NodeIs(ALL, false, false, "ALL");
    NodeIs(CONCURRENT, false, false, "CONCurrent");
  }

  lemma CountTexts()
    ensures LevelText(Just(ON), true, false) == "[ON]"
    ensures LevelText(Just(COUNT), false, false) == "COUNt"
  {
    hide LevelText;
    NodeIs(ON, true, false, "ON");
    NodeIs(COUNT, false, false, "COUNt");
  }

  lemma DataTexts()
    ensures LevelText(Just(DATA), false, false) == "DATA"
    ensures LevelText(Just(STATUS), false, false) == "STATus"
    ensures LevelText(Just(DATA), true, false) == "[DATA]"
  {
    hide LevelText;
    NodeIs(DATA, false, false, "DATA");
    NodeIs(STATUS, false, false, "STATus");
    NodeIs(DATA, true, false, "DATA");
  }

  lemma SweepTexts()
    ensures LevelText(Just(OFFSET), false, false) == "OFFSet"
    ensures LevelText(Just(POINTS), false, false) == "POINTS"
    ensures LevelText(Just(TIME), false, false) == "TIME"
    ensures LevelText(Just(SFACTOR), false, false) == "SFACtor"
  {
    hide LevelText;
    NodeIs(OFFSET, false, false, "OFFSet");
    NodeIs(POINTS, false, false, "POINTS");
    NodeIs(TIME, false, false, "TIME");
    NodeIs(SFACTOR, false, false, "SFACtor");
  }

  lemma SyncTexts()
    ensures LevelText(Just(STATE), false, false) == "STATe"
    ensures LevelText(Just(LEVEL), false, false) == "LEVel"
    ensures LevelText(Just(UNIT), false, false) == "UNIT"
    ensures LevelText(Just(TIMEOUT), false, false) == "TIMeout"
  {
    hide LevelText;
    NodeIs(STATE, false, false, "STATe");
    NodeIs(LEVEL, false, false, "LEVel");
    NodeIs(UNIT, false, false, "UNIT");
    NodeIs(TIMEOUT, false, false, "TIMeout");
  }

  lemma SourceTexts()
    ensures LevelText(Just(SLOPE), false, false) == "SLOPe"
    ensures LevelText(Just(SOURCE), true, false) == "[SOURce]"
    ensures LevelText(Just(SYNC), false, false) == "SYNC"
  {
    hide LevelText;
    NodeIs(SLOPE, false, false, "SLOPe");
    NodeIs(SOURCE, true, false, "SOURce");
    NodeIs(SYNC, false, false, "SYNC");
  }

  lemma SyncInputTexts()
    ensures LevelText(SYNC_INPUT, true, true) == "[SOURce|VOLTage#|CURRent#]"
  {
    hide Notation, Inner, LevelText, MarkedText;
    Numberable();
    MarkedIs(SOURCE, "SOURce");
    MarkedIs(VOLTAGE, "VOLTage");
    MarkedIs(CURRENT, "CURRent");
    SyncInputString();
    InnerOfThree(SOURCE, VOLTAGE, CURRENT, "SOURce", "VOLTage#", "CURRent#");
    InBrackets(SYNC_INPUT, true);
  }

  lemma InitiateTexts()
    ensures LevelText(Just(CONTINUOUS), false, false) == "CONTinuous"
    ensures LevelText(Just(IMMEDIATE), true, false) == "[IMMediate]"
  {
    hide LevelText;
    NodeIs(CONTINUOUS, false, false, "CONTinuous");
    NodeIs(IMMEDIATE, true, false, "IMMediate");
  }

  lemma SequenceNumber()
    ensures LevelText(Just(SEQUENCE), false, true) == "SEQuence#"
  {
    hide LevelText;
    Numberable();
    NodeIs(SEQUENCE, false, true, "SEQuence");
  }

  lemma NameTexts()
    ensures LevelText(Just(NAME), false, false) == "NAME"
    ensures LevelText(Just(INITIATE), false, false) == "INITiate"
  {
    hide LevelText;
    NodeIs(NAME, false, false, "NAME");
    NodeIs(INITIATE, false, false, "INITiate");
  }

  lemma TriggerTexts()
    ensures LevelText(Just(SOURCE), false, false) == "SOURce"
    ensures LevelText(Just(START), false, false) == "STARt"
    ensures LevelText(Just(STOP), false, false) == "STOP"
    ensures LevelText(Just(TRIGGER), false, false) == "TRIGger"
  {
    hide LevelText;
    NodeIs(SOURCE, false, false, "SOURce");
    NodeIs(START, false, false, "STARt");
    NodeIs(STOP, false, false, "STOP");
    NodeIs(TRIGGER, false, false, "TRIGger");
  }

  lemma TransformTexts()
    ensures LevelText(Just(MODE), false, false) == "MODE"
    ensures LevelText(Just(CYCLES), false, false) == "CYCLes"
    ensures LevelText(Just(GROUPING), false, false) == "GROuping"
  {
    hide LevelText;
    NodeIs(MODE, false, false, "MODE");
    NodeIs(CYCLES, false, false, "CYCLes");
    NodeIs(GROUPING, false, false, "GROuping");
  }

  lemma CalculateTexts()
    ensures LevelText(Just(TRANSFORM), false, false) == "TRANsform"
    ensures LevelText(Just(CALCULATE), false, false) == "CALCulate"
  {
    hide LevelText;
    NodeIs(TRANSFORM, false, false, "TRANsform");
    NodeIs(CALCULATE, false, false, "CALCulate");
  }

  lemma IntegralTexts()
    ensures LevelText(Just(CLEAR), false, false) == "CLEar"
    ensures LevelText(Just(TINTERVAL), false, false) == "TINTerval"
    ensures LevelText(Just(INTEGRAL), false, false) == "INTegral"
  {
    hide LevelText;
    NodeIs(CLEAR, false, false, "CLEar");
    NodeIs(TINTERVAL, false, false, "TINTerval");
    NodeIs(INTEGRAL, false, false, "INTegral");
  }

  lemma SpectrumTexts()
    ensures LevelText(Just(PREAMBLE), false, false) == "PREamble"
    ensures LevelText(Just(THD), false, false) == "THD"
  {
    hide LevelText;
    NodeIs(PREAMBLE, false, false, "PREamble");
    NodeIs(THD, false, false, "THD");
  }

  lemma PowerTexts()
    ensures LevelText(Just(HARMONIC), false, false) == "HARMonic"
    ensures LevelText(Just(ORDER), false, false) == "ORDer"
    ensures LevelText(Just(POWER), false, false) == "POWer"
    ensures LevelText(Just(CORRECTED), false, false) == "CORRected"
  {
    hide LevelText;
    NodeIs(HARMONIC, false, false, "HARMonic");
    NodeIs(ORDER, false, false, "ORDer");
    NodeIs(POWER, false, false, "POWer");
    NodeIs(CORRECTED, false, false, "CORRected");
  }

  lemma PowerNumber()
    ensures LevelText(Just(POWER), false, true) == "POWer#"
  {
    hide LevelText;
    Numberable();
    NodeIs(POWER, false, true, "POWer");
  }

  lemma ReferenceTexts()
    ensures LevelText(Just(EFFICIENCY), false, false) == "EFFiciency"
    ensures LevelText(Just(REFERENCE), false, false) == "REFerence"
  {
    hide LevelText;
    NodeIs(EFFICIENCY, false, false, "EFFiciency");
    NodeIs(REFERENCE, false, false, "REFerence");
  }

  lemma TraceTexts()
    ensures LevelText(Just(FREE), false, false) == "FREE"
    ensures LevelText(Just(CATALOG), false, false) == "CATalog"
    ensures LevelText(Just(LENGTH), false, false) == "LENgth"
  {
    hide LevelText;
    NodeIs(FREE, false, false, "FREE");
    NodeIs(CATALOG, false, false, "CATalog");
    NodeIs(LENGTH, false, false, "LENgth");
  }

  lemma DeleteTexts()
    ensures LevelText(Just(DELETE), false, false) == "DELete"
    ensures LevelText(Just(TRACE), false, false) == "TRACe"
  {
    hide LevelText;
    NodeIs(DELETE, false, false, "DELete");
    NodeIs(TRACE, false, false, "TRACe");
  }

  lemma FormatTexts()
    ensures LevelText(Just(BORDER), false, false) == "BORDer"
    ensures LevelText(Just(TRANSPOSE), false, false) == "TRANspose"
    ensures LevelText(Just(FORMAT), false, false) == "FORMat"
  {
    hide LevelText;
    NodeIs(BORDER, false, false, "BORDer");
    NodeIs(TRANSPOSE, false, false, "TRANspose");
    NodeIs(FORMAT, false, false, "FORMat");
  }

  lemma DisplayTexts()
    ensures LevelText(Just(USER), false, false) == "USER"
    ensures LevelText(Just(WINDOW), true, false) == "[WINDow]"
    ensures LevelText(Just(DISPLAY), false, false) == "DISPlay"
  {
    hide LevelText;
    NodeIs(USER, false, false, "USER");
    NodeIs(WINDOW, true, false, "WINDow");
    NodeIs(DISPLAY, false, false, "DISPlay");
  }

  lemma OutputNumber()
    ensures LevelText(Just(OUTPUT), false, true) == "OUTPut#"
  {
    hide LevelText;
    Numberable();
    NodeIs(OUTPUT, false, true, "OUTPut");
  }

  lemma CommunicateTexts()
    ensures LevelText(Just(COMMUNICATE), false, false) == "COMMunicate"
    ensures LevelText(Just(GPIB), false, false) == "GPIB"
    ensures LevelText(Just(SELF), true, false) == "[SELF]"
  {
    hide LevelText;
    NodeIs(COMMUNICATE, false, false, "COMMunicate");
    NodeIs(GPIB, false, false, "GPIB");
    NodeIs(SELF, true, false, "SELF");
  }

  lemma AddressTexts()
    ensures LevelText(Just(ADDRESS), false, false) == "ADDRess"
    ensures LevelText(Just(SERIAL), false, false) == "SERial"
    ensures LevelText(Just(BAUD), false, false) == "BAUD"
    ensures LevelText(Just(DATE), false, false) == "DATE"
  {
    hide LevelText;
    NodeIs(ADDRESS, false, false, "ADDRess");
    NodeIs(SERIAL, false, false, "SERial");
    NodeIs(BAUD, false, false, "BAUD");
    NodeIs(DATE, false, false, "DATE");
  }

  lemma ErrorTexts()
    ensures LevelText(Just(ERROR), false, false) == "ERRor"
    ensures LevelText(Just(NEXT), true, false) == "[NEXT]"
  {
    hide LevelText;
    NodeIs(ERROR, false, false, "ERRor");
    NodeIs(NEXT, true, false, "NEXT");
  }

  lemma IdentityTexts()
    ensures LevelText(Just(KLOCK), false, false) == "KLOCk"
    ensures LevelText(Just(LANGUAGE), false, false) == "LANGuage"
    ensures LevelText(Just(VERSION), false, false) == "VERSion"
  {
    hide LevelText;
    NodeIs(KLOCK, false, false, "KLOCk");
    NodeIs(LANGUAGE, false, false, "LANGuage");
    NodeIs(VERSION, false, false, "VERSion");
  }

  lemma RegisterTexts()
    ensures LevelText(Just(CONDITION), false, false) == "CONDition"
    ensures LevelText(Just(ENABLE), false, false) == "ENABle"
    ensures LevelText(Just(PTRANSITION), false, false) == "PTRansition"
  {
    hide LevelText;
    NodeIs(CONDITION, false, false, "CONDition");
    NodeIs(ENABLE, false, false, "ENABle");
    NodeIs(PTRANSITION, false, false, "PTRansition");
  }

  lemma EventTexts()
    ensures LevelText(Just(NTRANSITION), false, false) == "NTRansition"
    ensures LevelText(Just(EVENT), true, false) == "[EVENt]"
  {
    hide LevelText;
    NodeIs(NTRANSITION, false, false, "NTRansition");
    NodeIs(EVENT, true, false, "EVENt");
  }

  lemma StatusTexts()
    ensures LevelText(Just(OPERATION), false, false) == "OPERation"
    ensures LevelText(Just(QUESTIONABLE), false, false) == "QUEStionable"
  {
    hide LevelText;
    NodeIs(OPERATION, false, false, "OPERation");
    NodeIs(QUESTIONABLE, false, false, "QUEStionable");
  }

  lemma ChannelTexts()
    ensures LevelText(Just(VOLTAGE), false, false) == "VOLTage"
    ensures LevelText(Just(CURRENT), false, false) == "CURRent"
  {
    hide LevelText;
    NodeIs(VOLTAGE, false, false, "VOLTage");
    NodeIs(CURRENT, false, false, "CURRent");
  }

  lemma TimerTexts()
    ensures LevelText(Just(TIMER), false, false) == "TIMer"
    ensures LevelText(Just(RESET), false, false) == "RESet"
  {
    hide LevelText;
    NodeIs(TIMER, false, false, "TIMer");
    NodeIs(RESET, false, false, "RESet");
  }

  // ------------------------------------------------------------------------------ the leaves

  lemma AbortLines()
    ensures InLines(Row(Abort, Must(ABORT, End), NoRows), HEAD_LINES, 0, 0, 1)
  {
    hide LevelText;
    HeadTexts();
  }

  lemma RouteLines()
    ensures InLines(Row(RouteSystem, Must(SYSTEM, End), NoRows), HEAD_LINES, 1, 1, 2)
  {
    hide LevelText;
    HeadTexts();
  }

  lemma InputLines()
    ensures InLines(INPUT_LEAF, HEAD_LINES, 1, 2, 7)
  {
    hide LevelText;
    InputTexts();
    FilterTexts();
  }

  lemma VoltageRangingLines()
    ensures InLines(RangingRows(true), VOLTAGE_RANGING_LINES, 3, 0, 4)
  {
    hide LevelText;
    RangingTexts();
    ScaleTexts();
  }

  lemma CurrentRangingLines()
    ensures InLines(RangingRows(false), CURRENT_RANGING_LINES, 3, 0, 4)
  {
    hide LevelText;
    RangingTexts();
    ScaleTexts();
  }

  lemma ApertureLeafLines()
    ensures InLines(APERTURE_LEAF, APERTURE_LINES, 1, 0, 1)
  {
    hide LevelText;
    QuantityTexts();
    CouplingTexts();
    SenseTexts();
  }

  lemma FrequencyLeafLines()
    ensures InLines(FREQUENCY_LEAF, FREQUENCY_LINES, 2, 0, 1)
  {
    hide LevelText;
    FilterTexts();
  }

  lemma FunctionLeafLines()
    ensures InLines(FUNCTION_LEAF, FUNCTION_LINES, 2, 0, 5)
  {
    hide LevelText;
    FunctionTexts();
    CountTexts();
  }

  lemma DataLeafLines()
    ensures InLines(DATA_LEAF, DATA_LINES, 2, 0, 2)
  {
    hide LevelText;
    DataTexts();
  }

  lemma SweepOffsetLines()
    ensures InLines(SWEEP_OFFSET_LEAF, SWEEP_LINES, 2, 0, 2)
  {
    hide LevelText;
    SweepTexts();
  }

  lemma SweepSizeLines()
    ensures InLines(SWEEP_SIZE_LEAF, SWEEP_LINES, 2, 2, 5)
  {
    hide LevelText;
    SweepTexts();
    CountTexts();
  }

  lemma SweepFunctionLines()
    ensures InLines(SWEEP_FUNCTION_LEAF, SWEEP_LINES, 2, 5, 7)
  {
    hide LevelText;
    SweepTexts();
    FunctionTexts();
  }

  lemma SweepStateLines()
    ensures InLines(SWEEP_STATE_LEAF, SWEEP_LINES, 2, 7, 8)
  {
    hide LevelText;
    FilterTexts();
  }

  lemma SyncFixedLines()
    ensures InLines(SYNC_FIXED_LEAF, SYNC_LINES, 1, 0, 3)
  {
    hide LevelText;
    SyncTexts();
  }

  lemma SyncInputLines()
    ensures InLines(SYNC_INPUT_LEAF, SYNC_LINES, 2, 3, 7)
  {
    hide LevelText;
    SyncTexts();
    SourceTexts();
    FilterTexts();
  }

  lemma SyncSourceLines()
    ensures InLines(SYNC_SOURCE_LEAF, SYNC_LINES, 1, 7, 8)
  {
    hide LevelText;
    SourceTexts();
  }

  lemma InitiateLeafLines()
    ensures InLines(INITIATE_LEAF, INITIATE_LINES, 1, 0, 4)
  {
    hide LevelText;
    InitiateTexts();
    SequenceNumber();
    NameTexts();
  }

  lemma StartTriggerLines()
    ensures InLines(TriggerRows(true), TRIGGER_LINES, 2, 0, 4)
  {
    hide LevelText;
    TriggerTexts();
    SweepTexts();
    SyncTexts();
    SourceTexts();
  }

  lemma StopTriggerLines()
    ensures InLines(TriggerRows(false), TRIGGER_LINES, 2, 4, 8)
  {
    hide LevelText;
    TriggerTexts();
    SweepTexts();
    SyncTexts();
    SourceTexts();
  }

  lemma TransformRangeLines()
    ensures InLines(TRANSFORM_RANGE_LEAF, TRANSFORM_LINES, 3, 0, 4)
  {
    hide LevelText;
    TransformTexts();
    FunctionTexts();
    TriggerTexts();
  }

  lemma TransformShapeLines()
    ensures InLines(TRANSFORM_SHAPE_LEAF, TRANSFORM_LINES, 3, 4, 6)
  {
    hide LevelText;
    TransformTexts();
  }

  lemma TransformOnceLines()
    ensures InLines(TRANSFORM_ONCE_LEAF, TRANSFORM_LINES, 3, 6, 7)
  {
    hide LevelText;
    FilterTexts();
  }

  lemma SpectrumLeafLines()
    ensures InLines(SPECTRUM_LEAF, SPECTRUM_LINES, 2, 0, 3)
  {
    hide LevelText;
    SpectrumTexts();
  }

  lemma ClearLines()
    ensures InLines(CLEAR_LEAF, INTEGRAL_LINES, 3, 0, 2)
  {
    hide LevelText;
    ScaleTexts();
    InitiateTexts();
  }

  lemma IntegralFunctionLines()
    ensures InLines(INTEGRAL_FUNCTION_LEAF, INTEGRAL_LINES, 2, 2, 3)
  {
    hide LevelText;
    FunctionTexts();
  }

  lemma StartLines()
    ensures InLines(START_LEAF, INTEGRAL_LINES, 3, 3, 6)
  {
    hide LevelText;
    TriggerTexts();
    SweepTexts();
    InitiateTexts();
  }

  lemma StopLines()
    ensures InLines(STOP_LEAF, INTEGRAL_LINES, 3, 6, 10)
  {
    hide LevelText;
    TriggerTexts();
    SweepTexts();
    IntegralTexts();
    InitiateTexts();
  }

  lemma IntegralStateLines()
    ensures InLines(INTEGRAL_STATE_LEAF, INTEGRAL_LINES, 2, 10, 11)
  {
    hide LevelText;
    FilterTexts();
  }

  lemma PowerLeafLines()
    ensures InLines(POWER_LEAF, POWER_LINES, 1, 0, 3)
  {
    hide LevelText;
    PowerTexts();
    PowerNumber();
    ReferenceTexts();
  }

  lemma TracePointsLines()
    ensures InLines(TRACE_POINTS_LEAF, TRACE_LINES, 1, 0, 2)
  {
    hide LevelText;
    DataTexts();
    SpectrumTexts();
  }

  lemma TraceMemoryLines()
    ensures InLines(TRACE_MEMORY_LEAF, TRACE_LINES, 1, 2, 5)
  {
    hide LevelText;
    TraceTexts();
    DeleteTexts();
    FunctionTexts();
  }

  lemma TraceDataLines()
    ensures InLines(TRACE_DATA_LEAF, TRACE_LINES, 1, 5, 6)
  {
    hide LevelText;
    DataTexts();
  }

  lemma FormatLeafLines()
    ensures InLines(FORMAT_LEAF, FORMAT_LINES, 1, 0, 4)
  {
    hide LevelText;
    DataTexts();
    FormatTexts();
  }

  lemma DisplayLeafLines()
    ensures InLines(DISPLAY_LEAF, DISPLAY_LINES, 1, 0, 2)
  {
    hide LevelText;
    DisplayTexts();
    FunctionTexts();
    FilterTexts();
  }

  lemma OutputLeafLines()
    ensures InLines(OUTPUT_LEAF, OUTPUT_LINES, 1, 0, 1)
  {
    hide LevelText;
    FilterTexts();
  }

  lemma CommunicateLines()
    ensures InLines(COMMUNICATE_LEAF, SYSTEM_LINES, 2, 0, 2)
  {
    hide LevelText;
    CommunicateTexts();
    AddressTexts();
  }

  lemma ClockLines()
    ensures InLines(CLOCK_LEAF, SYSTEM_LINES, 1, 2, 4)
  {
    hide LevelText;
    AddressTexts();
    SweepTexts();
  }

  lemma ErrorLines()
    ensures InLines(ERROR_LEAF, SYSTEM_LINES, 2, 4, 6)
  {
    hide LevelText;
    FunctionTexts();
    ErrorTexts();
  }

  lemma IdentityLines()
    ensures InLines(IDENTITY_LEAF, SYSTEM_LINES, 1, 6, 9)
  {
    hide LevelText;
    IdentityTexts();
  }

  lemma OperationRegisterLines()
    ensures InLines(StatusRows(Operation), OPERATION_LINES, 2, 0, 5)
  {
    hide LevelText;
    RegisterTexts();
    EventTexts();
  }

  lemma VoltageRegisterLines()
    ensures InLines(StatusRows(QuestionableVoltage), VOLTAGE_STATUS_LINES, 3, 0, 5)
  {
    hide LevelText;
    RegisterTexts();
    EventTexts();
  }

  lemma CurrentRegisterLines()
    ensures InLines(StatusRows(QuestionableCurrent), CURRENT_STATUS_LINES, 3, 0, 5)
  {
    hide LevelText;
    RegisterTexts();
    EventTexts();
  }

  lemma QuestionableRegisterLines()
    ensures InLines(StatusRows(Questionable), QUESTIONABLE_LINES, 2, 0, 5)
  {
    hide LevelText;
    RegisterTexts();
    EventTexts();
  }

  lemma TimerLeafLines()
    ensures InLines(TIMER_LEAF, TIMER_LINES, 2, 0, 3)
  {
    hide LevelText;
    ScaleTexts();
    SweepTexts();
  }

  // ---------------------------------------------------------------------------- the branches

  lemma HeadInLines()
    ensures InLines(HEAD_ROWS, HEAD_LINES, 0, 0, 7)
  {
    hide InLines, LevelText, Concat, Under, Below;
    HeadTexts();
    InputNumber();
    AbortLines();
    RouteLines();
    InLinesBelow(ROUTE, "ROUTe", Row(RouteSystem, Must(SYSTEM, End), NoRows), HEAD_LINES, 0, 1, 2);
    InputLines();
    Numberable();
    InLinesUnder(Just(INPUT), false, true, "INPut#", INPUT_LEAF, HEAD_LINES, 0, 2, 7);
    InLinesConcat(Below(ROUTE, Row(RouteSystem, Must(SYSTEM, End), NoRows)), Under(Just(INPUT), false, true,
                  INPUT_LEAF), HEAD_LINES, 0, 1, 2, 7);
    InLinesConcat(Row(Abort, Must(ABORT, End), NoRows), Concat(Below(ROUTE, Row(RouteSystem, Must(SYSTEM, End),
                  NoRows)), Under(Just(INPUT), false, true, INPUT_LEAF)), HEAD_LINES, 0, 0, 1, 7);
  }

  lemma VoltageBranchInLines()
    ensures InLines(RangingBranch(VOLTAGE, true), VOLTAGE_RANGING_LINES, 1, 0, 4)
  {
    hide InLines, LevelText, Concat, Under, Below;
    CouplingTexts();
    VoltageNumber();
    VoltageRangingLines();
    InLinesUnder(AC_OR_DC, true, false, "[AC|DC]", RangingRows(true), VOLTAGE_RANGING_LINES, 2, 0, 4);
    Numberable();
    InLinesUnder(Just(VOLTAGE), false, true, "VOLTage#", Under(AC_OR_DC, true, false, RangingRows(true)),
                 VOLTAGE_RANGING_LINES, 1, 0, 4);
  }

  lemma CurrentBranchInLines()
    ensures InLines(RangingBranch(CURRENT, false), CURRENT_RANGING_LINES, 1, 0, 4)
  {
    hide InLines, LevelText, Concat, Under, Below;
    CouplingTexts();
    CurrentNumber();
    CurrentRangingLines();
    InLinesUnder(AC_OR_DC, true, false, "[AC|DC]", RangingRows(false), CURRENT_RANGING_LINES, 2, 0, 4);
    Numberable();
    InLinesUnder(Just(CURRENT), false, true, "CURRent#", Under(AC_OR_DC, true, false, RangingRows(false)),
                 CURRENT_RANGING_LINES, 1, 0, 4);
  }

  lemma FrequencyInLines()
    ensures InLines(Below(SWEEP, FREQUENCY_LEAF), FREQUENCY_LINES, 1, 0, 1)
  {
    hide InLines, LevelText, Concat, Under, Below;
    SenseTexts();
    FrequencyLeafLines();
    InLinesBelow(SWEEP, "SWEep", FREQUENCY_LEAF, FREQUENCY_LINES, 1, 0, 1);
  }

  lemma FunctionInLines()
    ensures InLines(Below(FUNCTION, FUNCTION_LEAF), FUNCTION_LINES, 1, 0, 5)
  {
    hide InLines, LevelText, Concat, Under, Below;
    FunctionTexts();
    FunctionLeafLines();
    InLinesBelow(FUNCTION, "FUNCtion", FUNCTION_LEAF, FUNCTION_LINES, 1, 0, 5);
  }

  lemma DataInLines()
    ensures InLines(Below(DATA, DATA_LEAF), DATA_LINES, 1, 0, 2)
  {
    hide InLines, LevelText, Concat, Under, Below;
    DataTexts();
    DataLeafLines();
    InLinesBelow(DATA, "DATA", DATA_LEAF, DATA_LINES, 1, 0, 2);
  }

  lemma SweepInLines()
    ensures InLines(Under(Just(SWEEP), false, true, SWEEP_LEAF), SWEEP_LINES, 1, 0, 8)
  {
    hide InLines, LevelText, Concat, Under, Below;
    SweepNumber();
    SweepOffsetLines();
    SweepSizeLines();
    SweepFunctionLines();
    SweepStateLines();
    InLinesConcat(SWEEP_FUNCTION_LEAF, SWEEP_STATE_LEAF, SWEEP_LINES, 2, 5, 7, 8);
    InLinesConcat(SWEEP_SIZE_LEAF, Concat(SWEEP_FUNCTION_LEAF, SWEEP_STATE_LEAF), SWEEP_LINES, 2, 2, 5, 8);
    InLinesConcat(SWEEP_OFFSET_LEAF, Concat(SWEEP_SIZE_LEAF, Concat(SWEEP_FUNCTION_LEAF, SWEEP_STATE_LEAF)),
                  SWEEP_LINES, 2, 0, 2, 8);
    Numberable();
    InLinesUnder(Just(SWEEP), false, true, "SWEep#", SWEEP_LEAF, SWEEP_LINES, 1, 0, 8);
  }

  lemma SyncInLines()
    ensures InLines(Below(SYNC, SYNC_BRANCH), SYNC_LINES, 0, 0, 8)
  {
    hide InLines, LevelText, Concat, Under, Below;
    SyncInputTexts();
    SourceTexts();
    SyncFixedLines();
    SyncInputLines();
    InLinesUnder(SYNC_INPUT, true, true, "[SOURce|VOLTage#|CURRent#]", SYNC_INPUT_LEAF, SYNC_LINES, 1, 3, 7);
    SyncSourceLines();
    InLinesConcat(Under(SYNC_INPUT, true, true, SYNC_INPUT_LEAF), SYNC_SOURCE_LEAF, SYNC_LINES, 1, 3, 7, 8);
    InLinesConcat(SYNC_FIXED_LEAF, Concat(Under(SYNC_INPUT, true, true, SYNC_INPUT_LEAF), SYNC_SOURCE_LEAF),
                  SYNC_LINES, 1, 0, 3, 8);
    InLinesBelow(SYNC, "SYNC", SYNC_BRANCH, SYNC_LINES, 0, 0, 8);
  }

  lemma InitiateInLines()
    ensures InLines(Below(INITIATE, INITIATE_LEAF), INITIATE_LINES, 0, 0, 4)
  {
    hide InLines, LevelText, Concat, Under, Below;
    NameTexts();
    InitiateLeafLines();
    InLinesBelow(INITIATE, "INITiate", INITIATE_LEAF, INITIATE_LINES, 0, 0, 4);
  }

  lemma TriggerInLines()
    ensures InLines(Below(TRIGGER, TRIGGER_BRANCH), TRIGGER_LINES, 0, 0, 8)
  {
    hide InLines, LevelText, Concat, Under, Below;
    TriggerTexts();
    StartTriggerLines();
    InLinesBelow(START, "STARt", TriggerRows(true), TRIGGER_LINES, 1, 0, 4);
    StopTriggerLines();
    InLinesBelow(STOP, "STOP", TriggerRows(false), TRIGGER_LINES, 1, 4, 8);
    InLinesConcat(Below(START, TriggerRows(true)), Below(STOP, TriggerRows(false)), TRIGGER_LINES, 1, 0, 4, 8);
    InLinesBelow(TRIGGER, "TRIGger", TRIGGER_BRANCH, TRIGGER_LINES, 0, 0, 8);
  }

  lemma TransformInLines()
    ensures InLines(Below(TRANSFORM, Below(FREQUENCY, TRANSFORM_LEAF)), TRANSFORM_LINES, 1, 0, 7)
  {
    hide InLines, LevelText, Concat, Under, Below;
    FilterTexts();
    CalculateTexts();
    TransformRangeLines();
    TransformShapeLines();
    TransformOnceLines();
    InLinesConcat(TRANSFORM_SHAPE_LEAF, TRANSFORM_ONCE_LEAF, TRANSFORM_LINES, 3, 4, 6, 7);
    InLinesConcat(TRANSFORM_RANGE_LEAF, Concat(TRANSFORM_SHAPE_LEAF, TRANSFORM_ONCE_LEAF), TRANSFORM_LINES, 3, 0, 4, 7);
    InLinesBelow(FREQUENCY, "FREQuency", TRANSFORM_LEAF, TRANSFORM_LINES, 2, 0, 7);
    InLinesBelow(TRANSFORM, "TRANsform", Below(FREQUENCY, TRANSFORM_LEAF), TRANSFORM_LINES, 1, 0, 7);
  }

  lemma SpectrumInLines()
    ensures InLines(Below(DATA, SPECTRUM_LEAF), SPECTRUM_LINES, 1, 0, 3)
  {
    hide InLines, LevelText, Concat, Under, Below;
    DataTexts();
    SpectrumLeafLines();
    InLinesBelow(DATA, "DATA", SPECTRUM_LEAF, SPECTRUM_LINES, 1, 0, 3);
  }

  lemma IntegralInLines()
    ensures InLines(Below(INTEGRAL, INTEGRAL_BRANCH), INTEGRAL_LINES, 1, 0, 11)
  {
    hide InLines, LevelText, Concat, Under, Below;
    IntegralTexts();
    TriggerTexts();
    ClearLines();
    InLinesBelow(CLEAR, "CLEar", CLEAR_LEAF, INTEGRAL_LINES, 2, 0, 2);
    IntegralFunctionLines();
    StartLines();
    InLinesBelow(START, "STARt", START_LEAF, INTEGRAL_LINES, 2, 3, 6);
    StopLines();
    InLinesBelow(STOP, "STOP", STOP_LEAF, INTEGRAL_LINES, 2, 6, 10);
    IntegralStateLines();
    InLinesConcat(Below(STOP, STOP_LEAF), INTEGRAL_STATE_LEAF, INTEGRAL_LINES, 2, 6, 10, 11);
    InLinesConcat(Below(START, START_LEAF), Concat(Below(STOP, STOP_LEAF), INTEGRAL_STATE_LEAF), INTEGRAL_LINES, 2,
                  3, 6, 11);
    InLinesConcat(INTEGRAL_FUNCTION_LEAF, Concat(Below(START, START_LEAF), Concat(Below(STOP, STOP_LEAF),
                  INTEGRAL_STATE_LEAF)), INTEGRAL_LINES, 2, 2, 3, 11);
    InLinesConcat(Below(CLEAR, CLEAR_LEAF), Concat(INTEGRAL_FUNCTION_LEAF, Concat(Below(START, START_LEAF),
                  Concat(Below(STOP, STOP_LEAF), INTEGRAL_STATE_LEAF))), INTEGRAL_LINES, 2, 0, 2, 11);
    InLinesBelow(INTEGRAL, "INTegral", INTEGRAL_BRANCH, INTEGRAL_LINES, 1, 0, 11);
  }

  lemma TraceInLines()
    ensures InLines(Below(TRACE, TRACE_BRANCH), TRACE_LINES, 0, 0, 6)
  {
    hide InLines, LevelText, Concat, Under, Below;
    DeleteTexts();
    TracePointsLines();
    TraceMemoryLines();
    TraceDataLines();
    InLinesConcat(TRACE_MEMORY_LEAF, TRACE_DATA_LEAF, TRACE_LINES, 1, 2, 5, 6);
    InLinesConcat(TRACE_POINTS_LEAF, Concat(TRACE_MEMORY_LEAF, TRACE_DATA_LEAF), TRACE_LINES, 1, 0, 2, 6);
    InLinesBelow(TRACE, "TRACe", TRACE_BRANCH, TRACE_LINES, 0, 0, 6);
  }

  lemma FormatInLines()
    ensures InLines(Below(FORMAT, FORMAT_LEAF), FORMAT_LINES, 0, 0, 4)
  {
    hide InLines, LevelText, Concat, Under, Below;
    FormatTexts();
    FormatLeafLines();
    InLinesBelow(FORMAT, "FORMat", FORMAT_LEAF, FORMAT_LINES, 0, 0, 4);
  }

  lemma DisplayInLines()
    ensures InLines(Below(DISPLAY, DISPLAY_LEAF), DISPLAY_LINES, 0, 0, 2)
  {
    hide InLines, LevelText, Concat, Under, Below;
    DisplayTexts();
    DisplayLeafLines();
    InLinesBelow(DISPLAY, "DISPlay", DISPLAY_LEAF, DISPLAY_LINES, 0, 0, 2);
  }

  lemma OutputInLines()
    ensures InLines(Under(Just(OUTPUT), false, true, OUTPUT_LEAF), OUTPUT_LINES, 0, 0, 1)
  {
    hide InLines, LevelText, Concat, Under, Below;
    OutputNumber();
    OutputLeafLines();
    Numberable();
    InLinesUnder(Just(OUTPUT), false, true, "OUTPut#", OUTPUT_LEAF, OUTPUT_LINES, 0, 0, 1);
  }

  lemma SystemInLines()
    ensures InLines(Below(SYSTEM, SYSTEM_BRANCH), SYSTEM_LINES, 0, 0, 9)
  {
    hide InLines, LevelText, Concat, Under, Below;
    CommunicateTexts();
    ErrorTexts();
    HeadTexts();
    CommunicateLines();
    InLinesBelow(COMMUNICATE, "COMMunicate", COMMUNICATE_LEAF, SYSTEM_LINES, 1, 0, 2);
    ClockLines();
    ErrorLines();
    InLinesBelow(ERROR, "ERRor", ERROR_LEAF, SYSTEM_LINES, 1, 4, 6);
    IdentityLines();
    InLinesConcat(Below(ERROR, ERROR_LEAF), IDENTITY_LEAF, SYSTEM_LINES, 1, 4, 6, 9);
    InLinesConcat(CLOCK_LEAF, Concat(Below(ERROR, ERROR_LEAF), IDENTITY_LEAF), SYSTEM_LINES, 1, 2, 4, 9);
    InLinesConcat(Below(COMMUNICATE, COMMUNICATE_LEAF), Concat(CLOCK_LEAF, Concat(Below(ERROR, ERROR_LEAF),
                  IDENTITY_LEAF)), SYSTEM_LINES, 1, 0, 2, 9);
    InLinesBelow(SYSTEM, "SYSTem", SYSTEM_BRANCH, SYSTEM_LINES, 0, 0, 9);
  }

  lemma OperationInLines()
    ensures InLines(Below(OPERATION, StatusRows(Operation)), OPERATION_LINES, 1, 0, 5)
  {
    hide InLines, LevelText, Concat, Under, Below;
    StatusTexts();
    OperationRegisterLines();
    InLinesBelow(OPERATION, "OPERation", StatusRows(Operation), OPERATION_LINES, 1, 0, 5);
  }

  lemma VoltageStatusInLines()
    ensures InLines(Below(VOLTAGE, StatusRows(QuestionableVoltage)), VOLTAGE_STATUS_LINES, 2, 0, 5)
  {
    hide InLines, LevelText, Concat, Under, Below;
    ChannelTexts();
    VoltageRegisterLines();
    InLinesBelow(VOLTAGE, "VOLTage", StatusRows(QuestionableVoltage), VOLTAGE_STATUS_LINES, 2, 0, 5);
  }

  lemma CurrentStatusInLines()
    ensures InLines(Below(CURRENT, StatusRows(QuestionableCurrent)), CURRENT_STATUS_LINES, 2, 0, 5)
  {
    hide InLines, LevelText, Concat, Under, Below;
    ChannelTexts();
    CurrentRegisterLines();
    InLinesBelow(CURRENT, "CURRent", StatusRows(QuestionableCurrent), CURRENT_STATUS_LINES, 2, 0, 5);
  }

  lemma TimerInLines()
    ensures InLines(Below(TIMER, Below(RESET, TIMER_LEAF)), TIMER_LINES, 0, 0, 3)
  {
    hide InLines, LevelText, Concat, Under, Below;
    TimerTexts();
    TimerLeafLines();
    InLinesBelow(RESET, "RESet", TIMER_LEAF, TIMER_LINES, 1, 0, 3);
    InLinesBelow(TIMER, "TIMer", Below(RESET, TIMER_LEAF), TIMER_LINES, 0, 0, 3);
  }

  lemma RangesInLines()
    ensures var xs := (VOLTAGE_RANGING_LINES + CURRENT_RANGING_LINES) + APERTURE_LINES;
            InLines(SENSE_RANGES, xs, 1, 0, |xs|)
  {
    hide InLines, Concat, Under;
    VoltageBranchInLines();
    CurrentBranchInLines();
    ApertureLeafLines();
    InLinesAppend(RangingBranch(VOLTAGE, true), VOLTAGE_RANGING_LINES, RangingBranch(CURRENT, false), CURRENT_RANGING_LINES, 1);
    InLinesAppend(Concat(RangingBranch(VOLTAGE, true), RangingBranch(CURRENT, false)),
                  VOLTAGE_RANGING_LINES + CURRENT_RANGING_LINES, APERTURE_LEAF, APERTURE_LINES, 1);
  }

  lemma SenseDataInLines()
    ensures var xs := FREQUENCY_LINES + ((FUNCTION_LINES + DATA_LINES) + SWEEP_LINES);
            InLines(Concat(Below(SWEEP, FREQUENCY_LEAF), Concat(SENSE_DATA, SENSE_MEMORY)), xs, 1, 0, |xs|)
  {
    hide InLines, Concat, Under, Below;
    FrequencyInLines();
    FunctionInLines();
    DataInLines();
    SweepInLines();
    InLinesAppend(Below(FUNCTION, FUNCTION_LEAF), FUNCTION_LINES, Below(DATA, DATA_LEAF), DATA_LINES, 1);
    InLinesAppend(SENSE_DATA, FUNCTION_LINES + DATA_LINES, SENSE_MEMORY, SWEEP_LINES, 1);
    InLinesAppend(Below(SWEEP, FREQUENCY_LEAF), FREQUENCY_LINES, Concat(SENSE_DATA, SENSE_MEMORY),
                  (FUNCTION_LINES + DATA_LINES) + SWEEP_LINES, 1);
  }

  lemma SameNodeAppend(xs: seq<Line>, ys: seq<Line>, d: nat, text: string)
    requires SameNode(xs, d, 0, |xs|, text) && SameNode(ys, d, 0, |ys|, text)
    ensures SameNode(xs + ys, d, 0, |xs + ys|, text)
  {
    forall k | 0 <= k < |xs + ys| ensures d < |(xs + ys)[k].nodes| && (xs + ys)[k].nodes[d] == text {
      if k < |xs| {
        assert (xs + ys)[k] == xs[k];
      } else {
        assert (xs + ys)[k] == ys[k - |xs|];
      }
    }
  }

  lemma SenseNodes()
    ensures SameNode(VOLTAGE_RANGING_LINES, 0, 0, 4, "[SENSe]") && SameNode(CURRENT_RANGING_LINES, 0, 0, 4, "[SENSe]")
    ensures SameNode(APERTURE_LINES, 0, 0, 1, "[SENSe]") && SameNode(FREQUENCY_LINES, 0, 0, 1, "[SENSe]")
    ensures SameNode(FUNCTION_LINES, 0, 0, 5, "[SENSe]") && SameNode(DATA_LINES, 0, 0, 2, "[SENSe]")
    ensures SameNode(SWEEP_LINES, 0, 0, 8, "[SENSe]")
  {}

  /** All rows of the SENSe branch start with its optional node. */
  lemma SenseIsShared()
    ensures SameNode(SENSE_LINES, 0, 0, |SENSE_LINES|, "[SENSe]")
  {
    hide SameNode;
    SenseNodes();
    var ranging, data := VOLTAGE_RANGING_LINES + CURRENT_RANGING_LINES, FUNCTION_LINES + DATA_LINES;
    SameNodeAppend(VOLTAGE_RANGING_LINES, CURRENT_RANGING_LINES, 0, "[SENSe]");
    SameNodeAppend(ranging, APERTURE_LINES, 0, "[SENSe]");
    SameNodeAppend(FUNCTION_LINES, DATA_LINES, 0, "[SENSe]");
    SameNodeAppend(data, SWEEP_LINES, 0, "[SENSe]");
    SameNodeAppend(FREQUENCY_LINES, data + SWEEP_LINES, 0, "[SENSe]");
    SameNodeAppend(ranging + APERTURE_LINES, FREQUENCY_LINES + (data + SWEEP_LINES), 0, "[SENSe]");
  }

  lemma SenseInLines()
    ensures InLines(SENSE_ROWS, SENSE_LINES, 0, 0, |SENSE_LINES|)
  {
    hide InLines, Concat, Under, Below, LevelText, SameNode;
    RangesInLines();
    SenseDataInLines();
    InLinesAppend(SENSE_RANGES, (VOLTAGE_RANGING_LINES + CURRENT_RANGING_LINES) + APERTURE_LINES,
                  Concat(Below(SWEEP, FREQUENCY_LEAF), Concat(SENSE_DATA, SENSE_MEMORY)),
                  FREQUENCY_LINES + ((FUNCTION_LINES + DATA_LINES) + SWEEP_LINES), 1);
    SenseIsShared();
    SenseTexts();
    InLinesUnder(Just(SENSE), true, false, "[SENSe]", SENSE_BRANCH, SENSE_LINES, 0, 0, |SENSE_LINES|);
  }

  lemma CalculateNodes()
    ensures SameNode(TRANSFORM_LINES, 0, 0, 7, "CALCulate") && SameNode(SPECTRUM_LINES, 0, 0, 3, "CALCulate")
    ensures SameNode(INTEGRAL_LINES, 0, 0, 11, "CALCulate") && SameNode(POWER_LINES, 0, 0, 3, "CALCulate")
  {}

  lemma CalculateInLines()
    ensures InLines(Below(CALCULATE, CALCULATE_BRANCH), CALCULATE_LINES, 0, 0, |CALCULATE_LINES|)
  {
    hide InLines, Concat, Under, Below, LevelText, SameNode;
    TransformInLines();
    SpectrumInLines();
    IntegralInLines();
    PowerLeafLines();
    var r2 := Concat(Below(INTEGRAL, INTEGRAL_BRANCH), POWER_LEAF);
    InLinesAppend(Below(INTEGRAL, INTEGRAL_BRANCH), INTEGRAL_LINES, POWER_LEAF, POWER_LINES, 1);
    InLinesAppend(Below(DATA, SPECTRUM_LEAF), SPECTRUM_LINES, r2, INTEGRAL_LINES + POWER_LINES, 1);
    InLinesAppend(Below(TRANSFORM, Below(FREQUENCY, TRANSFORM_LEAF)), TRANSFORM_LINES,
                  Concat(Below(DATA, SPECTRUM_LEAF), r2), SPECTRUM_LINES + (INTEGRAL_LINES + POWER_LINES), 1);
    CalculateNodes();
    SameNodeAppend(INTEGRAL_LINES, POWER_LINES, 0, "CALCulate");
    SameNodeAppend(SPECTRUM_LINES, INTEGRAL_LINES + POWER_LINES, 0, "CALCulate");
    SameNodeAppend(TRANSFORM_LINES, SPECTRUM_LINES + (INTEGRAL_LINES + POWER_LINES), 0, "CALCulate");
    CalculateTexts();
    InLinesBelow(CALCULATE, "CALCulate", CALCULATE_BRANCH, CALCULATE_LINES, 0, 0, |CALCULATE_LINES|);
  }

  lemma MiddleInLines()
    ensures InLines(MIDDLE_ROWS, MIDDLE_LINES, 0, 0, |MIDDLE_LINES|)
  {
    hide InLines, Concat, Under, Below;
    SyncInLines();
    InitiateInLines();
    TriggerInLines();
    CalculateInLines();
    TraceInLines();
    var r3, xs3 := Concat(Below(CALCULATE, CALCULATE_BRANCH), Below(TRACE, TRACE_BRANCH)), CALCULATE_LINES + TRACE_LINES;
    var r2, xs2 := Concat(Below(TRIGGER, TRIGGER_BRANCH), r3), TRIGGER_LINES + xs3;
    InLinesAppend(Below(CALCULATE, CALCULATE_BRANCH), CALCULATE_LINES, Below(TRACE, TRACE_BRANCH), TRACE_LINES, 0);
    InLinesAppend(Below(TRIGGER, TRIGGER_BRANCH), TRIGGER_LINES, r3, xs3, 0);
    InLinesAppend(Below(INITIATE, INITIATE_LEAF), INITIATE_LINES, r2, xs2, 0);
    InLinesAppend(Below(SYNC, SYNC_BRANCH), SYNC_LINES, Concat(Below(INITIATE, INITIATE_LEAF), r2), INITIATE_LINES + xs2, 0);
  }

  lemma StatusNodes()
    ensures SameNode(OPERATION_LINES, 0, 0, 5, "STATus") && SameNode(VOLTAGE_STATUS_LINES, 0, 0, 5, "STATus")
    ensures SameNode(CURRENT_STATUS_LINES, 0, 0, 5, "STATus") && SameNode(QUESTIONABLE_LINES, 0, 0, 5, "STATus")
  {}

  lemma QuestionableNodes()
    ensures SameNode(VOLTAGE_STATUS_LINES, 1, 0, 5, "QUEStionable") && SameNode(CURRENT_STATUS_LINES, 1, 0, 5, "QUEStionable")
    ensures SameNode(QUESTIONABLE_LINES, 1, 0, 5, "QUEStionable")
  {}

  lemma StatusInLines()
    ensures InLines(Below(STATUS, STATUS_BRANCH), STATUS_LINES, 0, 0, |STATUS_LINES|)
  {
    hide InLines, Concat, Under, Below, LevelText, SameNode, StatusRows;
    OperationInLines();
    VoltageStatusInLines();
    CurrentStatusInLines();
    QuestionableRegisterLines();
    StatusNodes();
    QuestionableNodes();
    StatusTexts();
    DataTexts();
    var xs3 := CURRENT_STATUS_LINES + QUESTIONABLE_LINES;
    var xs2 := VOLTAGE_STATUS_LINES + xs3;
    var r3 := Concat(Below(CURRENT, StatusRows(QuestionableCurrent)), StatusRows(Questionable));
    InLinesAppend(Below(CURRENT, StatusRows(QuestionableCurrent)), CURRENT_STATUS_LINES, StatusRows(Questionable), QUESTIONABLE_LINES, 2);
    InLinesAppend(Below(VOLTAGE, StatusRows(QuestionableVoltage)), VOLTAGE_STATUS_LINES, r3, xs3, 2);
    SameNodeAppend(CURRENT_STATUS_LINES, QUESTIONABLE_LINES, 1, "QUEStionable");
    SameNodeAppend(VOLTAGE_STATUS_LINES, xs3, 1, "QUEStionable");
    InLinesBelow(QUESTIONABLE, "QUEStionable", QUESTIONABLE_BRANCH, xs2, 1, 0, |xs2|);
    InLinesAppend(Below(OPERATION, StatusRows(Operation)), OPERATION_LINES, Below(QUESTIONABLE, QUESTIONABLE_BRANCH), xs2, 1);
    SameNodeAppend(CURRENT_STATUS_LINES, QUESTIONABLE_LINES, 0, "STATus");
    SameNodeAppend(VOLTAGE_STATUS_LINES, xs3, 0, "STATus");
    SameNodeAppend(OPERATION_LINES, xs2, 0, "STATus");
    InLinesBelow(STATUS, "STATus", STATUS_BRANCH, STATUS_LINES, 0, 0, |STATUS_LINES|);
  }

  lemma TailInLines()
    ensures InLines(TAIL_ROWS, TAIL_LINES, 0, 0, |TAIL_LINES|)
  {
    hide InLines, Concat, Under, Below;
    FormatInLines();
    DisplayInLines();
    OutputInLines();
    SystemInLines();
    StatusInLines();
    TimerInLines();
    var timer := Below(TIMER, Below(RESET, TIMER_LEAF));
    var r3, xs3 := Concat(Below(STATUS, STATUS_BRANCH), timer), STATUS_LINES + TIMER_LINES;
    var r2, xs2 := Concat(Below(SYSTEM, SYSTEM_BRANCH), r3), SYSTEM_LINES + xs3;
    InLinesAppend(Below(STATUS, STATUS_BRANCH), STATUS_LINES, timer, TIMER_LINES, 0);
    InLinesAppend(Below(SYSTEM, SYSTEM_BRANCH), SYSTEM_LINES, r3, xs3, 0);
    InLinesAppend(Under(Just(OUTPUT), false, true, OUTPUT_LEAF), OUTPUT_LINES, r2, xs2, 0);
    InLinesAppend(Below(DISPLAY, DISPLAY_LEAF), DISPLAY_LINES, Concat(Under(Just(OUTPUT), false, true, OUTPUT_LEAF), r2),
                  OUTPUT_LINES + xs2, 0);
    InLinesAppend(Below(FORMAT, FORMAT_LEAF), FORMAT_LINES,
                  Concat(Below(DISPLAY, DISPLAY_LEAF), Concat(Under(Just(OUTPUT), false, true, OUTPUT_LEAF), r2)),
                  DISPLAY_LINES + (OUTPUT_LINES + xs2), 0);
  }

  lemma TableInLines()
    ensures InLines(ALL_ROWS, LINES, 0, 0, |LINES|)
  {
    hide InLines, Concat, Under, Below;
    HeadInLines();
    SenseInLines();
    MiddleInLines();
    TailInLines();
    InLinesAppend(MIDDLE_ROWS, MIDDLE_LINES, TAIL_ROWS, TAIL_LINES, 0);
    InLinesAppend(SENSE_ROWS, SENSE_LINES, Concat(MIDDLE_ROWS, TAIL_ROWS), MIDDLE_LINES + TAIL_LINES, 0);
    InLinesAppend(HEAD_ROWS, HEAD_LINES, Concat(SENSE_ROWS, Concat(MIDDLE_ROWS, TAIL_ROWS)), SENSE_LINES + (MIDDLE_LINES + TAIL_LINES), 0);
  }

  lemma LinesAreCounted()
    ensures |LINES| == 121
  {
    assert |SENSE_LINES| == 25 && |CALCULATE_LINES| == 24 && |STATUS_LINES| == 20;
    assert |MIDDLE_LINES| == 50 && |TAIL_LINES| == 39;
  }

  /** The table the dispatcher scans is the compiled form of the rows written out above, one by one and in their order. */
  lemma TableIsWritten()
    ensures |LINES| == 121 && CompiledFrom(TABLE, LINES)
  {
    hide InLines, CompiledFrom, Specs;
    TableInLines();
    LinesAreCounted();
    InLinesAreCompiled(ALL_ROWS, LINES);
  }

  /** A header selects a key exactly when the text of one of that key's rows matches it, with the same suffixes,
      and it is unknown exactly when it matches none of the texts. */
  lemma HeadersAreDispatched(ts: seq<Token>, key: Key, suffixes: seq<int>)
    ensures Dispatch(TABLE, ts) == Some(Selected(key, suffixes)) <==> Written(LINES, key, ts, suffixes)
    ensures Dispatch(TABLE, ts).None? <==> forall k, xs :: !Written(LINES, k, ts, xs)
  {
    hide InLines, Specs, CompiledFrom, Written;
    TableIsWritten();
    TableIsUnambiguous();
    CompiledDispatch(TABLE, LINES, ts, key, suffixes);
  }
}
