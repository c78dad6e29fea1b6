/** The command table as the command tree it is, and the proof that no header selects two of its rows. */
module CommandTable {
  import opened Pattern
  import opened Commands
  import opened Headers

  // ----------------------------------------------------------------- mnemonics

  const ABORT: Mnemonic := Spelling("ABOR", "ABORT")
  const AC: Mnemonic := Spelling("AC", "AC")
  const ADDRESS: Mnemonic := Spelling("ADDR", "ADDRESS")
  const ALL: Mnemonic := Spelling("ALL", "ALL")
  const APERTURE: Mnemonic := Spelling("APER", "APERTURE")
  const AUTO: Mnemonic := Spelling("AUTO", "AUTO")
  const BAUD: Mnemonic := Spelling("BAUD", "BAUD")
  const BORDER: Mnemonic := Spelling("BORD", "BORDER")
  const CALCULATE: Mnemonic := Spelling("CALC", "CALCULATE")
  const CATALOG: Mnemonic := Spelling("CAT", "CATALOG")
  const CLEAR: Mnemonic := Spelling("CLE", "CLEAR")
  const COMMUNICATE: Mnemonic := Spelling("COMM", "COMMUNICATE")
  const CONCURRENT: Mnemonic := Spelling("CONC", "CONCURRENT")
  const CONDITION: Mnemonic := Spelling("COND", "CONDITION")
  const CONTINUOUS: Mnemonic := Spelling("CONT", "CONTINUOUS")
  const CORRECTED: Mnemonic := Spelling("CORR", "CORRECTED")
  const COUNT: Mnemonic := Spelling("COUN", "COUNT")
  const COUPLING: Mnemonic := Spelling("COUP", "COUPLING")
  const CURRENT: Mnemonic := Spelling("CURR", "CURRENT")
  const CYCLES: Mnemonic := Spelling("CYCL", "CYCLES")
  const DATA: Mnemonic := Spelling("DATA", "DATA")
  const DATE: Mnemonic := Spelling("DATE", "DATE")
  const DC: Mnemonic := Spelling("DC", "DC")
  const DELETE: Mnemonic := Spelling("DEL", "DELETE")
  const DISPLAY: Mnemonic := Spelling("DISP", "DISPLAY")
  const EFFICIENCY: Mnemonic := Spelling("EFF", "EFFICIENCY")
  const ENABLE: Mnemonic := Spelling("ENAB", "ENABLE")
  const ERROR: Mnemonic := Spelling("ERR", "ERROR")
  const EVENT: Mnemonic := Spelling("EVEN", "EVENT")
  const FILTER: Mnemonic := Spelling("FILT", "FILTER")
  const FORMAT: Mnemonic := Spelling("FORM", "FORMAT")
  const FREE: Mnemonic := Spelling("FREE", "FREE")
  const FREQUENCY: Mnemonic := Spelling("FREQ", "FREQUENCY")
  const FUNCTION: Mnemonic := Spelling("FUNC", "FUNCTION")
  const GAIN: Mnemonic := Spelling("GAIN", "GAIN")
  const GPIB: Mnemonic := Spelling("GPIB", "GPIB")
  const GROUPING: Mnemonic := Spelling("GRO", "GROUPING")
  const HARMONIC: Mnemonic := Spelling("HARM", "HARMONIC")
  const IMMEDIATE: Mnemonic := Spelling("IMM", "IMMEDIATE")
  const INITIATE: Mnemonic := Spelling("INIT", "INITIATE")
  const INPUT: Mnemonic := Spelling("INP", "INPUT")
  const INTEGRAL: Mnemonic := Spelling("INT", "INTEGRAL")
  const KLOCK: Mnemonic := Spelling("KLOC", "KLOCK")
  const LANGUAGE: Mnemonic := Spelling("LANG", "LANGUAGE")
  const LENGTH: Mnemonic := Spelling("LEN", "LENGTH")
  const LEVEL: Mnemonic := Spelling("LEV", "LEVEL")
  const LIST: Mnemonic := Spelling("LIST", "LIST")
  const LPASS: Mnemonic := Spelling("LPAS", "LPASS")
  const MODE: Mnemonic := Spelling("MODE", "MODE")
  const NAME: Mnemonic := Spelling("NAME", "NAME")
  const NEXT: Mnemonic := Spelling("NEXT", "NEXT")
  const NTRANSITION: Mnemonic := Spelling("NTR", "NTRANSITION")
  const OFF: Mnemonic := Spelling("OFF", "OFF")
  const OFFSET: Mnemonic := Spelling("OFFS", "OFFSET")
  const ON: Mnemonic := Spelling("ON", "ON")
  const OPERATION: Mnemonic := Spelling("OPER", "OPERATION")
  const ORDER: Mnemonic := Spelling("ORD", "ORDER")
  const OUTPUT: Mnemonic := Spelling("OUTP", "OUTPUT")
  const POINTS: Mnemonic := Spelling("POINTS", "POINTS")
  const POWER: Mnemonic := Spelling("POW", "POWER")
  const PREAMBLE: Mnemonic := Spelling("PRE", "PREAMBLE")
  const PTRANSITION: Mnemonic := Spelling("PTR", "PTRANSITION")
  const QUESTIONABLE: Mnemonic := Spelling("QUES", "QUESTIONABLE")
  const RANGE: Mnemonic := Spelling("RANG", "RANGE")
  const REFERENCE: Mnemonic := Spelling("REF", "REFERENCE")
  const RESET: Mnemonic := Spelling("RES", "RESET")
  const ROUTE: Mnemonic := Spelling("ROUT", "ROUTE")
  const SCALE: Mnemonic := Spelling("SCAL", "SCALE")
  const SELF: Mnemonic := Spelling("SELF", "SELF")
  const SENSE: Mnemonic := Spelling("SENS", "SENSE")
  const SEQUENCE: Mnemonic := Spelling("SEQ", "SEQUENCE")
  const SERIAL: Mnemonic := Spelling("SER", "SERIAL")
  const SFACTOR: Mnemonic := Spelling("SFAC", "SFACTOR")
  const SHUNT: Mnemonic := Spelling("SHUN", "SHUNT")
  const SLOPE: Mnemonic := Spelling("SLOP", "SLOPE")
  const SOURCE: Mnemonic := Spelling("SOUR", "SOURCE")
  const START: Mnemonic := Spelling("STAR", "START")
  const STATE: Mnemonic := Spelling("STAT", "STATE")
  const STATUS: Mnemonic := Spelling("STAT", "STATUS")
  const STOP: Mnemonic := Spelling("STOP", "STOP")
  const SWEEP: Mnemonic := Spelling("SWE", "SWEEP")
  const SYNC: Mnemonic := Spelling("SYNC", "SYNC")
  const SYSTEM: Mnemonic := Spelling("SYST", "SYSTEM")
  const THD: Mnemonic := Spelling("THD", "THD")
  const TIME: Mnemonic := Spelling("TIME", "TIME")
  const TIMEOUT: Mnemonic := Spelling("TIM", "TIMEOUT")
  const TIMER: Mnemonic := Spelling("TIM", "TIMER")
  const TINTERVAL: Mnemonic := Spelling("TINT", "TINTERVAL")
  const TRACE: Mnemonic := Spelling("TRAC", "TRACE")
  const TRANSFORM: Mnemonic := Spelling("TRAN", "TRANSFORM")
  const TRANSPOSE: Mnemonic := Spelling("TRAN", "TRANSPOSE")
  const TRIGGER: Mnemonic := Spelling("TRIG", "TRIGGER")
  const UNIT: Mnemonic := Spelling("UNIT", "UNIT")
  const UPPER: Mnemonic := Spelling("UPP", "UPPER")
  const USER: Mnemonic := Spelling("USER", "USER")
  const VERSION: Mnemonic := Spelling("VERS", "VERSION")
  const VOLTAGE: Mnemonic := Spelling("VOLT", "VOLTAGE")
  const WINDOW: Mnemonic := Spelling("WIND", "WINDOW")

  const AC_OR_DC := Name(AC, Name(DC, NoNames))
  const QUANTITY := Name(VOLTAGE, Name(CURRENT, Name(POWER, NoNames)))
  const SYNC_INPUT := Name(SOURCE, Name(VOLTAGE, Name(CURRENT, NoNames)))

  function Just(m: Mnemonic): Names { Name(m, NoNames) }

  // ---------------------------------------------------- leaves of the command tree

  const INPUT_LEAF: Rows :=
    Row(Input(Coupling), Must(COUPLING, End),
    Row(Input(Gain), Must(GAIN, End),
    Row(Input(FilterFrequency), Must(FILTER, May(LPASS, Must(FREQUENCY, End))),
    Row(Input(FilterState), Must(FILTER, May(STATE, End)),
    Row(Input(Shunt), Must(SHUNT, End),
    NoRows)))))

  function RangingRows(voltage: bool): Rows {
    Row(Ranging(voltage, RangeList), Must(RANGE, May(UPPER, Must(LIST, End))),
    Row(Ranging(voltage, RangeAuto), Must(RANGE, May(UPPER, Must(AUTO, End))),
    Row(Ranging(voltage, Range), Must(RANGE, May(UPPER, End)),
    Row(Ranging(voltage, Scale), Must(SCALE, End),
    NoRows))))
  }

  const APERTURE_LEAF: Rows :=
    Row(Aperture, Level(QUANTITY, true, true, Level(AC_OR_DC, true, false, Must(APERTURE, End))),
    NoRows)

  const FREQUENCY_LEAF: Rows :=
    Row(SamplingFrequency, Must(FREQUENCY, End),
    NoRows)

  const FUNCTION_LEAF: Rows :=
    Row(Functions(FunctionsOff), Must(OFF, Must(ALL, End)),
    Row(Functions(Concurrent), Must(CONCURRENT, End),
    Row(Functions(FunctionCount), May(ON, Must(COUNT, End)),
    Row(Functions(FunctionsAll), May(ON, Must(ALL, End)),
    Row(Functions(FunctionList), May(ON, End),
    NoRows)))))

  const DATA_LEAF: Rows :=
    Row(Data(true), Must(STATUS, End),
    Row(Data(false), End,
    NoRows))

  const SWEEP_OFFSET_LEAF: Rows :=
    Row(Sweep(OffsetPoints), Must(OFFSET, Must(POINTS, End)),
    Row(Sweep(OffsetTime), Must(OFFSET, Must(TIME, End)),
    NoRows))

  const SWEEP_SIZE_LEAF: Rows :=
    Row(Sweep(SweepPoints), Must(POINTS, End),
    Row(Sweep(SweepTime), Must(TIME, End),
    Row(Sweep(SweepCount), Must(COUNT, End),
    NoRows)))

  const SWEEP_FUNCTION_LEAF: Rows :=
    Row(Sweep(Sparsing), Must(SFACTOR, End),
    Row(Sweep(SweepFunctions), Must(FUNCTION, End),
    NoRows))

  const SWEEP_STATE_LEAF: Rows :=
    Row(Sweep(SweepState), May(STATE, End),
    NoRows)

  const SYNC_FIXED_LEAF: Rows :=
    Row(Sync(SyncState), Must(STATE, End),
    Row(Sync(LevelUnit), Must(LEVEL, Must(UNIT, End)),
    Row(Sync(SyncTimeout), Must(TIMEOUT, End),
    NoRows)))

  const SYNC_INPUT_LEAF: Rows :=
    Row(Sync(SyncLevel), Must(LEVEL, End),
    Row(Sync(SyncSlope), Must(SLOPE, End),
    Row(Sync(SyncFilterFrequency), Must(FILTER, May(LPASS, Must(FREQUENCY, End))),
    Row(Sync(SyncFilterState), Must(FILTER, May(LPASS, May(STATE, End))),
    NoRows))))

  const SYNC_SOURCE_LEAF: Rows :=
    Row(Sync(SyncSource), May(SOURCE, End),
    NoRows)

  const INITIATE_LEAF: Rows :=
    Row(Initiate(Continuous), Must(CONTINUOUS, End),
    Row(Initiate(Sequence), May(IMMEDIATE, Numbered(SEQUENCE, End)),
    Row(Initiate(SequenceName), May(IMMEDIATE, Must(NAME, End)),
    Row(Initiate(Immediate), May(IMMEDIATE, End),
    NoRows))))

  function TriggerRows(start: bool): Rows {
    Row(Trigger(start, TriggerSource), Must(SOURCE, End),
    Row(Trigger(start, TriggerTime), Must(TIME, End),
    Row(Trigger(start, TriggerLevel), Must(LEVEL, End),
    Row(Trigger(start, TriggerSlope), Must(SLOPE, End),
    NoRows))))
  }

  const TRANSFORM_RANGE_LEAF: Rows :=
    Row(Transform(TransformMode), Must(MODE, End),
    Row(Transform(TransformFunctions), Must(FUNCTION, End),
    Row(Transform(TransformStart), Must(START, End),
    Row(Transform(TransformStop), Must(STOP, End),
    NoRows))))

  const TRANSFORM_SHAPE_LEAF: Rows :=
    Row(Transform(TransformCycles), Must(CYCLES, End),
    Row(Transform(TransformGrouping), Must(GROUPING, End),
    NoRows))

  const TRANSFORM_ONCE_LEAF: Rows :=
    Row(Transform(TransformOnce), May(STATE, End),
    NoRows)

  const SPECTRUM_LEAF: Rows :=
    Row(Spectrum(SpectrumPreamble), Must(PREAMBLE, End),
    Row(Spectrum(SpectrumThd), Must(THD, End),
    Row(Spectrum(SpectrumData), End,
    NoRows)))

  const CLEAR_LEAF: Rows :=
    Row(Integral(ClearAuto), Must(AUTO, End),
    Row(Integral(ClearNow), May(IMMEDIATE, End),
    NoRows))

  const INTEGRAL_FUNCTION_LEAF: Rows :=
    Row(Integral(IntegralFunctions), Must(FUNCTION, End),
    NoRows)

  const START_LEAF: Rows :=
    Row(Integral(StartSource), Must(SOURCE, End),
    Row(Integral(StartTime), Must(TIME, End),
    Row(Integral(StartNow), May(IMMEDIATE, End),
    NoRows)))

  const STOP_LEAF: Rows :=
    Row(Integral(StopSource), Must(SOURCE, End),
    Row(Integral(StopTime), Must(TIME, End),
    Row(Integral(StopInterval), Must(TINTERVAL, End),
    Row(Integral(StopNow), May(IMMEDIATE, End),
    NoRows))))

  const INTEGRAL_STATE_LEAF: Rows :=
    Row(Integral(IntegralState), May(STATE, End),
    NoRows)

  const POWER_LEAF: Rows :=
    Row(HarmonicOrder, Must(HARMONIC, Must(ORDER, End)),
    Row(PowerCorrection, Must(POWER, Must(CORRECTED, End)),
    Row(EfficiencyReference, Numbered(POWER, Must(EFFICIENCY, Must(REFERENCE, End))),
    NoRows)))

  const TRACE_POINTS_LEAF: Rows :=
    Row(Trace(TracePreamble), May(DATA, Must(PREAMBLE, End)),
    Row(Trace(TraceStatus), May(DATA, Must(STATUS, End)),
    NoRows))

  const TRACE_MEMORY_LEAF: Rows :=
    Row(Trace(TraceFree), Must(FREE, End),
    Row(Trace(TraceLength), Must(CATALOG, Must(LENGTH, End)),
    Row(Trace(TraceDelete), Must(DELETE, Must(ALL, End)),
    NoRows)))

  const TRACE_DATA_LEAF: Rows :=
    Row(Trace(TraceData), May(DATA, End),
    NoRows)

  const FORMAT_LEAF: Rows :=
    Row(Format(StatusFormat), May(DATA, Must(STATUS, End)),
    Row(Format(ByteOrder), Must(BORDER, End),
    Row(Format(Transpose), Must(TRANSPOSE, End),
    Row(Format(DataFormat), May(DATA, End),
    NoRows))))

  const DISPLAY_LEAF: Rows :=
    Row(Display(DisplayFunctions), Must(USER, Must(FUNCTION, End)),
    Row(Display(DisplayState), May(WINDOW, May(STATE, End)),
    NoRows))

  const OUTPUT_LEAF: Rows :=
    Row(Display(OutputState), May(STATE, End),
    NoRows)

  const COMMUNICATE_LEAF: Rows :=
    Row(System(GpibAddress), Must(GPIB, May(SELF, Must(ADDRESS, End))),
    Row(System(SerialBaud), Must(SERIAL, Must(BAUD, End)),
    NoRows))

  const CLOCK_LEAF: Rows :=
    Row(System(SystemDate), Must(DATE, End),
    Row(System(SystemTime), Must(TIME, End),
    NoRows))

  const ERROR_LEAF: Rows :=
    Row(System(ErrorAll), Must(ALL, End),
    Row(System(ErrorNext), May(NEXT, End),
    NoRows))

  const IDENTITY_LEAF: Rows :=
    Row(System(KeyLock), Must(KLOCK, End),
    Row(System(Language), Must(LANGUAGE, End),
    Row(System(ScpiVersion), Must(VERSION, End),
    NoRows)))

  function StatusRows(register: Register): Rows {
    Row(Status(register, Condition), Must(CONDITION, End),
    Row(Status(register, Enable), Must(ENABLE, End),
    Row(Status(register, PositiveTransition), Must(PTRANSITION, End),
    Row(Status(register, NegativeTransition), Must(NTRANSITION, End),
    Row(Status(register, Event), May(EVENT, End),
    NoRows)))))
  }

  const REGISTER_WORDS :=
    Name(CONDITION, Name(ENABLE, Name(PTRANSITION, Name(NTRANSITION, Just(EVENT)))))

  const TIMER_LEAF: Rows :=
    Row(Timer(ResetAuto), Must(AUTO, End),
    Row(Timer(ResetTime), Must(TIME, End),
    Row(Timer(ResetNow), End,
    NoRows)))

  // -------------------------------------------------- branches of the command tree

  function RangingBranch(m: Mnemonic, voltage: bool): Rows {
    Under(Just(m), false, true, Under(AC_OR_DC, true, false, RangingRows(voltage)))
  }

  const SWEEP_LEAF := Concat(SWEEP_OFFSET_LEAF, Concat(SWEEP_SIZE_LEAF, Concat(SWEEP_FUNCTION_LEAF, SWEEP_STATE_LEAF)))

  const SENSE_RANGES := Concat(Concat(RangingBranch(VOLTAGE, true), RangingBranch(CURRENT, false)), APERTURE_LEAF)

  const SENSE_DATA := Concat(Below(FUNCTION, FUNCTION_LEAF), Below(DATA, DATA_LEAF))

  const SENSE_MEMORY := Under(Just(SWEEP), false, true, SWEEP_LEAF)

  const SENSE_BRANCH := Concat(SENSE_RANGES, Concat(Below(SWEEP, FREQUENCY_LEAF), Concat(SENSE_DATA, SENSE_MEMORY)))

  const SYNC_BRANCH :=
    Concat(SYNC_FIXED_LEAF, Concat(Under(SYNC_INPUT, true, true, SYNC_INPUT_LEAF), SYNC_SOURCE_LEAF))

  const TRIGGER_BRANCH := Concat(Below(START, TriggerRows(true)), Below(STOP, TriggerRows(false)))

  const TRANSFORM_LEAF := Concat(TRANSFORM_RANGE_LEAF, Concat(TRANSFORM_SHAPE_LEAF, TRANSFORM_ONCE_LEAF))

  const INTEGRAL_BRANCH :=
    Concat(Below(CLEAR, CLEAR_LEAF), Concat(INTEGRAL_FUNCTION_LEAF, Concat(Below(START, START_LEAF),
    Concat(Below(STOP, STOP_LEAF), INTEGRAL_STATE_LEAF))))

  const CALCULATE_BRANCH :=
    Concat(Below(TRANSFORM, Below(FREQUENCY, TRANSFORM_LEAF)), Concat(Below(DATA, SPECTRUM_LEAF),
    Concat(Below(INTEGRAL, INTEGRAL_BRANCH), POWER_LEAF)))

  const TRACE_BRANCH := Concat(TRACE_POINTS_LEAF, Concat(TRACE_MEMORY_LEAF, TRACE_DATA_LEAF))

  const SYSTEM_BRANCH :=
    Concat(Below(COMMUNICATE, COMMUNICATE_LEAF), Concat(CLOCK_LEAF, Concat(Below(ERROR, ERROR_LEAF), IDENTITY_LEAF)))

  const QUESTIONABLE_BRANCH :=
    Concat(Below(VOLTAGE, StatusRows(QuestionableVoltage)), Concat(Below(CURRENT, StatusRows(QuestionableCurrent)),
    StatusRows(Questionable)))

  const STATUS_BRANCH := Concat(Below(OPERATION, StatusRows(Operation)), Below(QUESTIONABLE, QUESTIONABLE_BRANCH))

  // --------------------------------------------------------------------- the table

  const HEAD_ROWS: Rows :=
    Concat(Row(Abort, Must(ABORT, End), NoRows),
    Concat(Below(ROUTE, Row(RouteSystem, Must(SYSTEM, End), NoRows)),
    Under(Just(INPUT), false, true, INPUT_LEAF)))

  const SENSE_ROWS: Rows := Under(Just(SENSE), true, false, SENSE_BRANCH)

  const MIDDLE_ROWS: Rows :=
    Concat(Below(SYNC, SYNC_BRANCH),
    Concat(Below(INITIATE, INITIATE_LEAF),
    Concat(Below(TRIGGER, TRIGGER_BRANCH),
    Concat(Below(CALCULATE, CALCULATE_BRANCH),
    Below(TRACE, TRACE_BRANCH)))))

  const TAIL_ROWS: Rows :=
    Concat(Below(FORMAT, FORMAT_LEAF),
    Concat(Below(DISPLAY, DISPLAY_LEAF),
    Concat(Under(Just(OUTPUT), false, true, OUTPUT_LEAF),
    Concat(Below(SYSTEM, SYSTEM_BRANCH),
    Concat(Below(STATUS, STATUS_BRANCH),
    Below(TIMER, Below(RESET, TIMER_LEAF)))))))

  const ALL_ROWS: Rows := Concat(HEAD_ROWS, Concat(SENSE_ROWS, Concat(MIDDLE_ROWS, TAIL_ROWS)))

  /** The compiled table the dispatcher scans, in the order the rows are listed. */
  const TABLE: seq<CommandSpec> := Specs(ALL_ROWS)

  // ------------------------------------------------------- no two rows share a header

  const APERTURE_WORDS := Name(VOLTAGE, Name(CURRENT, Name(POWER, Name(AC, Name(DC, Just(APERTURE))))))

  const RANGE_WORDS := Name(VOLTAGE, Name(CURRENT, APERTURE_WORDS))
  const REST_WORDS := Name(SWEEP, Name(FUNCTION, Name(DATA, Just(SWEEP))))

  lemma RangingInOrder(m: Mnemonic, voltage: bool)
    ensures Branch(RangingBranch(m, voltage), Just(m))
  {
    var words := Name(RANGE, Just(SCALE));
    RangingWords(voltage);
    BranchUnderOptional(AC_OR_DC, false, RangingRows(voltage), words);
    BranchUnder(Just(m), true, Under(AC_OR_DC, true, false, RangingRows(voltage)));
  }

  const APERTURE_ROW: Rows := Row(Aperture, Must(APERTURE, End), NoRows)

  lemma RangingWords(voltage: bool)
    ensures Branch(RangingRows(voltage), Name(RANGE, Just(SCALE)))
  {
    LeafIsBranch(RangingRows(voltage), Name(RANGE, Just(SCALE)));
  }

  lemma ApertureRowInOrder()
    ensures Branch(APERTURE_ROW, Just(APERTURE))
    ensures Branch(Under(AC_OR_DC, true, false, APERTURE_ROW), ConcatNames(AC_OR_DC, Just(APERTURE)))
  {
    LeafIsBranch(APERTURE_ROW, Just(APERTURE));
    BranchUnderOptional(AC_OR_DC, false, APERTURE_ROW, Just(APERTURE));
  }

  lemma ApertureIsNoRangeRow(voltage: bool)
    ensures Separate(Under(AC_OR_DC, true, false, RangingRows(voltage)), Under(AC_OR_DC, true, false, APERTURE_ROW))
  {
    var ranging, words := RangingRows(voltage), Name(RANGE, Just(SCALE));
    RangingWords(voltage);
    ApertureRowInOrder();
    DifferentWords(ranging, words, APERTURE_ROW, Just(APERTURE));
    SeparateUnderOptional(AC_OR_DC, false, ranging, words, APERTURE_ROW, Just(APERTURE));
  }

  lemma ApertureIsNoRange(m: Mnemonic, voltage: bool)
    requires !Share(Just(m), ConcatNames(AC_OR_DC, Just(APERTURE)))
    ensures Separate(RangingBranch(m, voltage), APERTURE_LEAF)
  {
    var ranging, row := Under(AC_OR_DC, true, false, RangingRows(voltage)), Under(AC_OR_DC, true, false, APERTURE_ROW);
    ApertureIsNoRangeRow(voltage);
    ApertureRowInOrder();
    SeparateUnderEither(Just(m), true, ranging, QUANTITY, true, row, ConcatNames(AC_OR_DC, Just(APERTURE)));
    assert Under(QUANTITY, true, true, row) == APERTURE_LEAF;
  }

  lemma ApertureInOrder()
    ensures Branch(APERTURE_LEAF, APERTURE_WORDS)
  {
    LeafIsBranch(APERTURE_LEAF, APERTURE_WORDS);
  }

  lemma SenseRangesInOrder()
    ensures Branch(SENSE_RANGES, RANGE_WORDS)
  {
    var v, c := RangingBranch(VOLTAGE, true), RangingBranch(CURRENT, false);
    RangingInOrder(VOLTAGE, true);
    RangingInOrder(CURRENT, false);
    Chain(v, Just(VOLTAGE), c, Just(CURRENT));
    ApertureInOrder();
    ApertureIsNoRange(VOLTAGE, true);
    ApertureIsNoRange(CURRENT, false);
    SeparateConcat(v, c, APERTURE_LEAF);
    DistinctConcat(Concat(v, c), APERTURE_LEAF);
    StartsConcat(Concat(v, c), Name(VOLTAGE, Just(CURRENT)), APERTURE_LEAF, APERTURE_WORDS);
  }

  lemma SweepLeafInOrder()
    ensures Distinct(SWEEP_LEAF)
  {
    SweepPartsInOrder();
    SweepPartsAreApart();
    SweepStateIsApart();
    var r2 := Concat(SWEEP_FUNCTION_LEAF, SWEEP_STATE_LEAF);
    DistinctConcat(SWEEP_FUNCTION_LEAF, SWEEP_STATE_LEAF);
    SeparateConcat(SWEEP_SIZE_LEAF, SWEEP_FUNCTION_LEAF, SWEEP_STATE_LEAF);
    DistinctConcat(SWEEP_SIZE_LEAF, r2);
    SeparateConcat(SWEEP_OFFSET_LEAF, SWEEP_FUNCTION_LEAF, SWEEP_STATE_LEAF);
    SeparateConcat(SWEEP_OFFSET_LEAF, SWEEP_SIZE_LEAF, r2);
    DistinctConcat(SWEEP_OFFSET_LEAF, Concat(SWEEP_SIZE_LEAF, r2));
  }

  const SWEEP_SIZE_WORDS := Name(POINTS, Name(TIME, Just(COUNT)))
  const SWEEP_FUNCTION_WORDS := Name(SFACTOR, Just(FUNCTION))

  lemma SweepPartsInOrder()
    ensures Branch(SWEEP_OFFSET_LEAF, Just(OFFSET)) && Branch(SWEEP_SIZE_LEAF, SWEEP_SIZE_WORDS)
    ensures Branch(SWEEP_FUNCTION_LEAF, SWEEP_FUNCTION_WORDS) && Distinct(SWEEP_STATE_LEAF)
  {
    LeafIsBranch(SWEEP_OFFSET_LEAF, Just(OFFSET));
    LeafIsBranch(SWEEP_SIZE_LEAF, SWEEP_SIZE_WORDS);
    LeafIsBranch(SWEEP_FUNCTION_LEAF, SWEEP_FUNCTION_WORDS);
    ApartIsDistinct(SWEEP_STATE_LEAF);
  }

  lemma SweepPartsAreApart()
    ensures Separate(SWEEP_OFFSET_LEAF, SWEEP_SIZE_LEAF) && Separate(SWEEP_OFFSET_LEAF, SWEEP_FUNCTION_LEAF)
    ensures Separate(SWEEP_SIZE_LEAF, SWEEP_FUNCTION_LEAF)
  {
    SweepPartsInOrder();
    DifferentWords(SWEEP_OFFSET_LEAF, Just(OFFSET), SWEEP_SIZE_LEAF, SWEEP_SIZE_WORDS);
    DifferentWords(SWEEP_OFFSET_LEAF, Just(OFFSET), SWEEP_FUNCTION_LEAF, SWEEP_FUNCTION_WORDS);
    DifferentWords(SWEEP_SIZE_LEAF, SWEEP_SIZE_WORDS, SWEEP_FUNCTION_LEAF, SWEEP_FUNCTION_WORDS);
  }

  lemma SweepStateIsApart()
    ensures Separate(SWEEP_OFFSET_LEAF, SWEEP_STATE_LEAF) && Separate(SWEEP_SIZE_LEAF, SWEEP_STATE_LEAF)
    ensures Separate(SWEEP_FUNCTION_LEAF, SWEEP_STATE_LEAF)
  {
    SweepPartsInOrder();
    LeafOpens(SWEEP_STATE_LEAF, Just(STATE));
    DifferentOpening(SWEEP_OFFSET_LEAF, Just(OFFSET), SWEEP_STATE_LEAF, Just(STATE));
    DifferentOpening(SWEEP_SIZE_LEAF, SWEEP_SIZE_WORDS, SWEEP_STATE_LEAF, Just(STATE));
    DifferentOpening(SWEEP_FUNCTION_LEAF, SWEEP_FUNCTION_WORDS, SWEEP_STATE_LEAF, Just(STATE));
  }

  lemma FunctionRowsInOrder() ensures Distinct(FUNCTION_LEAF) { ApartIsDistinct(FUNCTION_LEAF); }

  lemma SenseDataInOrder()
    ensures Branch(SENSE_DATA, Name(FUNCTION, Just(DATA)))
  {
    FunctionRowsInOrder();
    ApartIsDistinct(DATA_LEAF);
    BranchUnder(Just(FUNCTION), false, FUNCTION_LEAF);
    BranchUnder(Just(DATA), false, DATA_LEAF);
    Chain(Below(FUNCTION, FUNCTION_LEAF), Just(FUNCTION), Below(DATA, DATA_LEAF), Just(DATA));
  }

  lemma FrequencyIsNoSweep()
    ensures Separate(Below(SWEEP, FREQUENCY_LEAF), SENSE_MEMORY)
  {
    CrossApartIsSeparate(FREQUENCY_LEAF, SWEEP_OFFSET_LEAF);
    CrossApartIsSeparate(FREQUENCY_LEAF, SWEEP_SIZE_LEAF);
    CrossApartIsSeparate(FREQUENCY_LEAF, SWEEP_FUNCTION_LEAF);
    CrossApartIsSeparate(FREQUENCY_LEAF, SWEEP_STATE_LEAF);
    var r2 := Concat(SWEEP_FUNCTION_LEAF, SWEEP_STATE_LEAF);
    SeparateConcat(FREQUENCY_LEAF, SWEEP_FUNCTION_LEAF, SWEEP_STATE_LEAF);
    SeparateConcat(FREQUENCY_LEAF, SWEEP_SIZE_LEAF, r2);
    SeparateConcat(FREQUENCY_LEAF, SWEEP_OFFSET_LEAF, Concat(SWEEP_SIZE_LEAF, r2));
    SeparateUnder(Just(SWEEP), FREQUENCY_LEAF, false, SWEEP_LEAF, true);
  }

  lemma FrequencyInOrder()
    ensures Branch(Below(SWEEP, FREQUENCY_LEAF), Just(SWEEP))
  {
    ApartIsDistinct(FREQUENCY_LEAF);
    BranchUnder(Just(SWEEP), false, FREQUENCY_LEAF);
  }

  lemma SenseRestInOrder()
    ensures Branch(Concat(Below(SWEEP, FREQUENCY_LEAF), Concat(SENSE_DATA, SENSE_MEMORY)), REST_WORDS)
  {
    var frequency := Below(SWEEP, FREQUENCY_LEAF);
    SenseDataInOrder();
    SweepLeafInOrder();
    BranchUnder(Just(SWEEP), true, SWEEP_LEAF);
    FrequencyInOrder();
    FrequencyIsNoSweep();
    var words := Name(FUNCTION, Just(DATA));
    Chain(SENSE_DATA, words, SENSE_MEMORY, Just(SWEEP));
    DifferentWords(frequency, Just(SWEEP), SENSE_DATA, words);
    SeparateConcat(frequency, SENSE_DATA, SENSE_MEMORY);
    DistinctConcat(frequency, Concat(SENSE_DATA, SENSE_MEMORY));
    StartsConcat(frequency, Just(SWEEP), Concat(SENSE_DATA, SENSE_MEMORY), ConcatNames(words, Just(SWEEP)));
  }

  lemma RangesAreNotTheRest()
    ensures !Share(RANGE_WORDS, REST_WORDS)
  {}

  lemma SenseIsAnotherWord()
    ensures !Share(RANGE_WORDS, Just(SENSE)) && !Share(REST_WORDS, Just(SENSE))
  {}

  lemma SenseInOrder()
    ensures Branch(SENSE_ROWS, ConcatNames(Just(SENSE), ConcatNames(RANGE_WORDS, REST_WORDS)))
  {
    SenseRangesInOrder();
    SenseRestInOrder();
    RangesAreNotTheRest();
    SenseIsAnotherWord();
    Chain(SENSE_RANGES, RANGE_WORDS, Concat(Below(SWEEP, FREQUENCY_LEAF), Concat(SENSE_DATA, SENSE_MEMORY)), REST_WORDS);
    ShareConcatLeft(RANGE_WORDS, REST_WORDS, Just(SENSE));
    BranchUnderOptional(Just(SENSE), false, SENSE_BRANCH, ConcatNames(RANGE_WORDS, REST_WORDS));
  }

  lemma SyncPartsInOrder()
    ensures Distinct(SYNC_FIXED_LEAF) && Distinct(SYNC_SOURCE_LEAF) && Separate(SYNC_FIXED_LEAF, SYNC_SOURCE_LEAF)
  {
    ApartIsDistinct(SYNC_FIXED_LEAF);
    ApartIsDistinct(SYNC_SOURCE_LEAF);
    CrossApartIsSeparate(SYNC_FIXED_LEAF, SYNC_SOURCE_LEAF);
  }

  lemma SyncInputIsNoSource()
    ensures Separate(Under(SYNC_INPUT, true, true, SYNC_INPUT_LEAF), SYNC_SOURCE_LEAF)
  {
    CrossApartIsSeparate(Under(SYNC_INPUT, true, true, SYNC_INPUT_LEAF), SYNC_SOURCE_LEAF);
  }

  const SYNC_FIXED_WORDS := Name(STATE, Name(LEVEL, Just(TIMEOUT)))
  const SYNC_INPUT_WORDS := Name(LEVEL, Name(SLOPE, Just(FILTER)))

  lemma SyncFixedWords()
    ensures Branch(SYNC_FIXED_LEAF, SYNC_FIXED_WORDS)
  {
    LeafIsBranch(SYNC_FIXED_LEAF, SYNC_FIXED_WORDS);
  }

  lemma SyncLevelsAreApart()
    ensures Separate(SYNC_FIXED_LEAF, SYNC_INPUT_LEAF)
  {
    CrossApartIsSeparate(SYNC_FIXED_LEAF, SYNC_INPUT_LEAF);
  }

  lemma SyncInputIsNotFixed()
    ensures Separate(SYNC_FIXED_LEAF, Under(SYNC_INPUT, true, true, SYNC_INPUT_LEAF))
  {
    SyncFixedWords();
    SyncLevelsAreApart();
    SeparateFromOptional(SYNC_FIXED_LEAF, SYNC_FIXED_WORDS, SYNC_INPUT, true, SYNC_INPUT_LEAF);
  }

  lemma SyncInputWords()
    ensures Branch(SYNC_INPUT_LEAF, SYNC_INPUT_WORDS)
  {
    LeafIsBranch(SYNC_INPUT_LEAF, SYNC_INPUT_WORDS);
  }

  lemma SyncInputInOrder()
    ensures Distinct(Under(SYNC_INPUT, true, true, SYNC_INPUT_LEAF))
  {
    SyncInputWords();
    BranchUnderOptional(SYNC_INPUT, true, SYNC_INPUT_LEAF, SYNC_INPUT_WORDS);
  }

  lemma SyncInOrder()
    ensures Branch(Below(SYNC, SYNC_BRANCH), Just(SYNC))
  {
    var input := Under(SYNC_INPUT, true, true, SYNC_INPUT_LEAF);
    SyncPartsInOrder();
    SyncInputIsNoSource();
    SyncInputIsNotFixed();
    SyncInputInOrder();
    DistinctConcat(input, SYNC_SOURCE_LEAF);
    SeparateConcat(SYNC_FIXED_LEAF, input, SYNC_SOURCE_LEAF);
    DistinctConcat(SYNC_FIXED_LEAF, Concat(input, SYNC_SOURCE_LEAF));
    BranchUnder(Just(SYNC), false, SYNC_BRANCH);
  }

  lemma TriggerRowsInOrder(start: bool)
    ensures Distinct(TriggerRows(start))
  {
    ApartIsDistinct(TriggerRows(start));
  }

  lemma TriggerInOrder()
    ensures Branch(Below(TRIGGER, TRIGGER_BRANCH), Just(TRIGGER))
  {
    TriggerRowsInOrder(true);
    TriggerRowsInOrder(false);
    BranchUnder(Just(START), false, TriggerRows(true));
    BranchUnder(Just(STOP), false, TriggerRows(false));
    Chain(Below(START, TriggerRows(true)), Just(START), Below(STOP, TriggerRows(false)), Just(STOP));
    BranchUnder(Just(TRIGGER), false, TRIGGER_BRANCH);
  }

  lemma TransformPartsInOrder()
    ensures Distinct(TRANSFORM_RANGE_LEAF) && Distinct(TRANSFORM_SHAPE_LEAF) && Distinct(TRANSFORM_ONCE_LEAF)
  {
    ApartIsDistinct(TRANSFORM_RANGE_LEAF);
    ApartIsDistinct(TRANSFORM_SHAPE_LEAF);
    ApartIsDistinct(TRANSFORM_ONCE_LEAF);
  }

  lemma TransformPartsAreApart()
    ensures Separate(TRANSFORM_RANGE_LEAF, TRANSFORM_SHAPE_LEAF) && Separate(TRANSFORM_RANGE_LEAF, TRANSFORM_ONCE_LEAF)
    ensures Separate(TRANSFORM_SHAPE_LEAF, TRANSFORM_ONCE_LEAF)
  {
    CrossApartIsSeparate(TRANSFORM_RANGE_LEAF, TRANSFORM_SHAPE_LEAF);
    CrossApartIsSeparate(TRANSFORM_RANGE_LEAF, TRANSFORM_ONCE_LEAF);
    CrossApartIsSeparate(TRANSFORM_SHAPE_LEAF, TRANSFORM_ONCE_LEAF);
  }

  lemma TransformInOrder()
    ensures Branch(Below(TRANSFORM, Below(FREQUENCY, TRANSFORM_LEAF)), Just(TRANSFORM))
  {
    TransformPartsInOrder();
    TransformPartsAreApart();
    DistinctConcat(TRANSFORM_SHAPE_LEAF, TRANSFORM_ONCE_LEAF);
    SeparateConcat(TRANSFORM_RANGE_LEAF, TRANSFORM_SHAPE_LEAF, TRANSFORM_ONCE_LEAF);
    DistinctConcat(TRANSFORM_RANGE_LEAF, Concat(TRANSFORM_SHAPE_LEAF, TRANSFORM_ONCE_LEAF));
    BranchUnder(Just(FREQUENCY), false, TRANSFORM_LEAF);
    BranchUnder(Just(TRANSFORM), false, Below(FREQUENCY, TRANSFORM_LEAF));
  }

  lemma IntegralLeavesInOrder()
    ensures Branch(Below(CLEAR, CLEAR_LEAF), Just(CLEAR)) && Branch(INTEGRAL_FUNCTION_LEAF, Just(FUNCTION))
    ensures Branch(Below(START, START_LEAF), Just(START)) && Branch(Below(STOP, STOP_LEAF), Just(STOP))
    ensures Distinct(INTEGRAL_STATE_LEAF)
  {
    ApartIsDistinct(CLEAR_LEAF);
    ApartIsDistinct(START_LEAF);
    ApartIsDistinct(STOP_LEAF);
    ApartIsDistinct(INTEGRAL_STATE_LEAF);
    LeafIsBranch(INTEGRAL_FUNCTION_LEAF, Just(FUNCTION));
    BranchUnder(Just(CLEAR), false, CLEAR_LEAF);
    BranchUnder(Just(START), false, START_LEAF);
    BranchUnder(Just(STOP), false, STOP_LEAF);
  }

  lemma IntegralStateIsApart()
    ensures Separate(Below(CLEAR, CLEAR_LEAF), INTEGRAL_STATE_LEAF)
    ensures Separate(INTEGRAL_FUNCTION_LEAF, INTEGRAL_STATE_LEAF)
    ensures Separate(Below(START, START_LEAF), INTEGRAL_STATE_LEAF)
    ensures Separate(Below(STOP, STOP_LEAF), INTEGRAL_STATE_LEAF)
  {
    IntegralLeavesInOrder();
    LeafOpens(INTEGRAL_STATE_LEAF, Just(STATE));
    DifferentOpening(Below(CLEAR, CLEAR_LEAF), Just(CLEAR), INTEGRAL_STATE_LEAF, Just(STATE));
    DifferentOpening(INTEGRAL_FUNCTION_LEAF, Just(FUNCTION), INTEGRAL_STATE_LEAF, Just(STATE));
    DifferentOpening(Below(START, START_LEAF), Just(START), INTEGRAL_STATE_LEAF, Just(STATE));
    DifferentOpening(Below(STOP, STOP_LEAF), Just(STOP), INTEGRAL_STATE_LEAF, Just(STATE));
  }

  lemma IntegralInOrder()
    ensures Branch(Below(INTEGRAL, INTEGRAL_BRANCH), Just(INTEGRAL))
  {
    IntegralLeavesInOrder();
    IntegralStateIsApart();
    var clear, start, stop := Below(CLEAR, CLEAR_LEAF), Below(START, START_LEAF), Below(STOP, STOP_LEAF);
    var r2 := Concat(start, stop);
    var r3 := Concat(INTEGRAL_FUNCTION_LEAF, r2);
    Chain(start, Just(START), stop, Just(STOP));
    Chain(INTEGRAL_FUNCTION_LEAF, Just(FUNCTION), r2, Name(START, Just(STOP)));
    Chain(clear, Just(CLEAR), r3, Name(FUNCTION, Name(START, Just(STOP))));
    SeparateConcat(start, stop, INTEGRAL_STATE_LEAF);
    SeparateConcat(INTEGRAL_FUNCTION_LEAF, r2, INTEGRAL_STATE_LEAF);
    SeparateConcat(clear, r3, INTEGRAL_STATE_LEAF);
    DistinctConcat(Concat(clear, r3), INTEGRAL_STATE_LEAF);
    BranchUnder(Just(INTEGRAL), false, INTEGRAL_BRANCH);
  }

  lemma PowerInOrder()
    ensures Branch(POWER_LEAF, Name(HARMONIC, Just(POWER)))
  {
    LeafIsBranch(POWER_LEAF, Name(HARMONIC, Just(POWER)));
  }

  lemma SpectrumInOrder()
    ensures Branch(Below(DATA, SPECTRUM_LEAF), Just(DATA))
  {
    ApartIsDistinct(SPECTRUM_LEAF);
    BranchUnder(Just(DATA), false, SPECTRUM_LEAF);
  }

  lemma CalculateInOrder()
    ensures Branch(Below(CALCULATE, CALCULATE_BRANCH), Just(CALCULATE))
  {
    TransformInOrder();
    SpectrumInOrder();
    IntegralInOrder();
    PowerInOrder();
    var powers := Name(HARMONIC, Just(POWER));
    var r2 := Concat(Below(INTEGRAL, INTEGRAL_BRANCH), POWER_LEAF);
    Chain(Below(INTEGRAL, INTEGRAL_BRANCH), Just(INTEGRAL), POWER_LEAF, powers);
    Chain(Below(DATA, SPECTRUM_LEAF), Just(DATA), r2, Name(INTEGRAL, powers));
    Chain(Below(TRANSFORM, Below(FREQUENCY, TRANSFORM_LEAF)), Just(TRANSFORM),
          Concat(Below(DATA, SPECTRUM_LEAF), r2), Name(DATA, Name(INTEGRAL, powers)));
    BranchUnder(Just(CALCULATE), false, CALCULATE_BRANCH);
  }

  lemma TracePartsInOrder()
    ensures Distinct(TRACE_POINTS_LEAF) && Distinct(TRACE_MEMORY_LEAF) && Distinct(TRACE_DATA_LEAF)
  {
    ApartIsDistinct(TRACE_POINTS_LEAF);
    ApartIsDistinct(TRACE_MEMORY_LEAF);
    ApartIsDistinct(TRACE_DATA_LEAF);
  }

  lemma TracePartsAreApart()
    ensures Separate(TRACE_POINTS_LEAF, TRACE_MEMORY_LEAF) && Separate(TRACE_POINTS_LEAF, TRACE_DATA_LEAF)
    ensures Separate(TRACE_MEMORY_LEAF, TRACE_DATA_LEAF)
  {
    CrossApartIsSeparate(TRACE_POINTS_LEAF, TRACE_MEMORY_LEAF);
    CrossApartIsSeparate(TRACE_POINTS_LEAF, TRACE_DATA_LEAF);
    CrossApartIsSeparate(TRACE_MEMORY_LEAF, TRACE_DATA_LEAF);
  }

  lemma TraceInOrder()
    ensures Branch(Below(TRACE, TRACE_BRANCH), Just(TRACE))
  {
    TracePartsInOrder();
    TracePartsAreApart();
    DistinctConcat(TRACE_MEMORY_LEAF, TRACE_DATA_LEAF);
    SeparateConcat(TRACE_POINTS_LEAF, TRACE_MEMORY_LEAF, TRACE_DATA_LEAF);
    DistinctConcat(TRACE_POINTS_LEAF, Concat(TRACE_MEMORY_LEAF, TRACE_DATA_LEAF));
    BranchUnder(Just(TRACE), false, TRACE_BRANCH);
  }

  lemma SystemPartsInOrder()
    ensures Branch(Below(COMMUNICATE, COMMUNICATE_LEAF), Just(COMMUNICATE)) && Branch(CLOCK_LEAF, Name(DATE, Just(TIME)))
    ensures Branch(Below(ERROR, ERROR_LEAF), Just(ERROR)) && Branch(IDENTITY_LEAF, Name(KLOCK, Name(LANGUAGE, Just(VERSION))))
  {
    ApartIsDistinct(COMMUNICATE_LEAF);
    ApartIsDistinct(ERROR_LEAF);
    LeafIsBranch(CLOCK_LEAF, Name(DATE, Just(TIME)));
    LeafIsBranch(IDENTITY_LEAF, Name(KLOCK, Name(LANGUAGE, Just(VERSION))));
    BranchUnder(Just(COMMUNICATE), false, COMMUNICATE_LEAF);
    BranchUnder(Just(ERROR), false, ERROR_LEAF);
  }

  lemma SystemInOrder()
    ensures Branch(Below(SYSTEM, SYSTEM_BRANCH), Just(SYSTEM))
  {
    SystemPartsInOrder();
    var identity := Name(KLOCK, Name(LANGUAGE, Just(VERSION)));
    var r2 := Concat(Below(ERROR, ERROR_LEAF), IDENTITY_LEAF);
    Chain(Below(ERROR, ERROR_LEAF), Just(ERROR), IDENTITY_LEAF, identity);
    Chain(CLOCK_LEAF, Name(DATE, Just(TIME)), r2, Name(ERROR, identity));
    Chain(Below(COMMUNICATE, COMMUNICATE_LEAF), Just(COMMUNICATE),
          Concat(CLOCK_LEAF, r2), Name(DATE, Name(TIME, Name(ERROR, identity))));
    BranchUnder(Just(SYSTEM), false, SYSTEM_BRANCH);
  }

  lemma StatusRowsInOrder(register: Register)
    ensures Distinct(StatusRows(register))
  {
    ApartIsDistinct(StatusRows(register));
  }

  /** The registers of a further level do not clash with the parts of this one. */
  lemma InnerRegisterIsApart(m: Mnemonic, inner: Register, outer: Register)
    requires !SharesWord(m, REGISTER_WORDS)
    ensures Separate(Below(m, StatusRows(inner)), StatusRows(outer))
  {
    StatusRowsInOrder(inner);
    BranchUnder(Just(m), false, StatusRows(inner));
    LeafOpens(StatusRows(outer), REGISTER_WORDS);
    DifferentOpening(Below(m, StatusRows(inner)), Just(m), StatusRows(outer), REGISTER_WORDS);
  }

  lemma QuestionableInOrder()
    ensures Branch(Below(QUESTIONABLE, QUESTIONABLE_BRANCH), Just(QUESTIONABLE))
  {
    var v, c := Below(VOLTAGE, StatusRows(QuestionableVoltage)), Below(CURRENT, StatusRows(QuestionableCurrent));
    StatusRowsInOrder(QuestionableVoltage);
    StatusRowsInOrder(QuestionableCurrent);
    StatusRowsInOrder(Questionable);
    BranchUnder(Just(VOLTAGE), false, StatusRows(QuestionableVoltage));
    BranchUnder(Just(CURRENT), false, StatusRows(QuestionableCurrent));
    InnerRegisterIsApart(VOLTAGE, QuestionableVoltage, Questionable);
    InnerRegisterIsApart(CURRENT, QuestionableCurrent, Questionable);
    DifferentWords(v, Just(VOLTAGE), c, Just(CURRENT));
    DistinctConcat(c, StatusRows(Questionable));
    SeparateConcat(v, c, StatusRows(Questionable));
    DistinctConcat(v, Concat(c, StatusRows(Questionable)));
    BranchUnder(Just(QUESTIONABLE), false, QUESTIONABLE_BRANCH);
  }

  lemma StatusInOrder()
    ensures Branch(Below(STATUS, STATUS_BRANCH), Just(STATUS))
  {
    StatusRowsInOrder(Operation);
    QuestionableInOrder();
    BranchUnder(Just(OPERATION), false, StatusRows(Operation));
    Chain(Below(OPERATION, StatusRows(Operation)), Just(OPERATION),
          Below(QUESTIONABLE, QUESTIONABLE_BRANCH), Just(QUESTIONABLE));
    BranchUnder(Just(STATUS), false, STATUS_BRANCH);
  }

  lemma RouteInOrder()
    ensures Branch(Row(Abort, Must(ABORT, End), NoRows), Just(ABORT))
    ensures Branch(Below(ROUTE, Row(RouteSystem, Must(SYSTEM, End), NoRows)), Just(ROUTE))
  {
    LeafIsBranch(Row(Abort, Must(ABORT, End), NoRows), Just(ABORT));
    ApartIsDistinct(Row(RouteSystem, Must(SYSTEM, End), NoRows));
    BranchUnder(Just(ROUTE), false, Row(RouteSystem, Must(SYSTEM, End), NoRows));
  }

  lemma InputInOrder()
    ensures Branch(Under(Just(INPUT), false, true, INPUT_LEAF), Just(INPUT))
  {
    ApartIsDistinct(INPUT_LEAF);
    BranchUnder(Just(INPUT), true, INPUT_LEAF);
  }

  lemma InitiateInOrder()
    ensures Branch(Below(INITIATE, INITIATE_LEAF), Just(INITIATE))
  {
    ApartIsDistinct(INITIATE_LEAF);
    BranchUnder(Just(INITIATE), false, INITIATE_LEAF);
  }

  lemma FormatInOrder()
    ensures Branch(Below(FORMAT, FORMAT_LEAF), Just(FORMAT))
  {
    ApartIsDistinct(FORMAT_LEAF);
    BranchUnder(Just(FORMAT), false, FORMAT_LEAF);
  }

  lemma DisplayInOrder()
    ensures Branch(Below(DISPLAY, DISPLAY_LEAF), Just(DISPLAY))
    ensures Branch(Under(Just(OUTPUT), false, true, OUTPUT_LEAF), Just(OUTPUT))
  {
    ApartIsDistinct(DISPLAY_LEAF);
    BranchUnder(Just(DISPLAY), false, DISPLAY_LEAF);
    ApartIsDistinct(OUTPUT_LEAF);
    BranchUnder(Just(OUTPUT), true, OUTPUT_LEAF);
  }

  lemma TimerInOrder()
    ensures Branch(Below(TIMER, Below(RESET, TIMER_LEAF)), Just(TIMER))
  {
    ApartIsDistinct(TIMER_LEAF);
    BranchUnder(Just(RESET), false, TIMER_LEAF);
    BranchUnder(Just(TIMER), false, Below(RESET, TIMER_LEAF));
  }

  lemma TailInOrder()
    ensures Branch(TAIL_ROWS, TAIL_WORDS)
  {
    FormatInOrder();
    DisplayInOrder();
    SystemInOrder();
    StatusInOrder();
    TimerInOrder();
    TailWords();
    var timer := Below(TIMER, Below(RESET, TIMER_LEAF));
    var r4 := Concat(Below(STATUS, STATUS_BRANCH), timer);
    var r3 := Concat(Below(SYSTEM, SYSTEM_BRANCH), r4);
    var r2 := Concat(Under(Just(OUTPUT), false, true, OUTPUT_LEAF), r3);
    ChainOne(STATUS, Below(STATUS, STATUS_BRANCH), timer, Just(TIMER));
    ChainOne(SYSTEM, Below(SYSTEM, SYSTEM_BRANCH), r4, STATUS_WORDS);
    ChainOne(OUTPUT, Under(Just(OUTPUT), false, true, OUTPUT_LEAF), r3, SYSTEM_WORDS);
    ChainOne(DISPLAY, Below(DISPLAY, DISPLAY_LEAF), r2, OUTPUT_WORDS);
    ChainOne(FORMAT, Below(FORMAT, FORMAT_LEAF), Concat(Below(DISPLAY, DISPLAY_LEAF), r2), DISPLAY_WORDS);
  }

  const STATUS_WORDS := Name(STATUS, Just(TIMER))
  const SYSTEM_WORDS := Name(SYSTEM, STATUS_WORDS)
  const OUTPUT_WORDS := Name(OUTPUT, SYSTEM_WORDS)
  const DISPLAY_WORDS := Name(DISPLAY, OUTPUT_WORDS)
  const TAIL_WORDS := Name(FORMAT, DISPLAY_WORDS)

  lemma TailWords()
    ensures !SharesWord(STATUS, Just(TIMER)) && !SharesWord(SYSTEM, STATUS_WORDS) && !SharesWord(OUTPUT, SYSTEM_WORDS)
    ensures !SharesWord(DISPLAY, OUTPUT_WORDS) && !SharesWord(FORMAT, DISPLAY_WORDS)
  {}

  const CALCULATE_WORDS := Name(CALCULATE, Just(TRACE))
  const TRIGGER_WORDS := Name(TRIGGER, CALCULATE_WORDS)
  const INITIATE_WORDS := Name(INITIATE, TRIGGER_WORDS)
  const MIDDLE_WORDS := Name(SYNC, INITIATE_WORDS)

  lemma MiddleWords()
    ensures !SharesWord(CALCULATE, Just(TRACE)) && !SharesWord(TRIGGER, CALCULATE_WORDS)
    ensures !SharesWord(INITIATE, TRIGGER_WORDS) && !SharesWord(SYNC, INITIATE_WORDS)
  {}

  lemma MiddleInOrder()
    ensures Branch(MIDDLE_ROWS, MIDDLE_WORDS)
  {
    SyncInOrder();
    InitiateInOrder();
    TriggerInOrder();
    CalculateInOrder();
    TraceInOrder();
    MiddleWords();
    var trace := Below(TRACE, TRACE_BRANCH);
    var r3 := Concat(Below(CALCULATE, CALCULATE_BRANCH), trace);
    var r2 := Concat(Below(TRIGGER, TRIGGER_BRANCH), r3);
    ChainOne(CALCULATE, Below(CALCULATE, CALCULATE_BRANCH), trace, Just(TRACE));
    ChainOne(TRIGGER, Below(TRIGGER, TRIGGER_BRANCH), r3, CALCULATE_WORDS);
    ChainOne(INITIATE, Below(INITIATE, INITIATE_LEAF), r2, TRIGGER_WORDS);
    ChainOne(SYNC, Below(SYNC, SYNC_BRANCH), Concat(Below(INITIATE, INITIATE_LEAF), r2), INITIATE_WORDS);
  }

  const HEAD_WORDS := Name(ABORT, Name(ROUTE, Just(INPUT)))

  lemma HeadInOrder()
    ensures Branch(HEAD_ROWS, HEAD_WORDS)
  {
    RouteInOrder();
    InputInOrder();
    var input := Under(Just(INPUT), false, true, INPUT_LEAF);
    var route := Below(ROUTE, Row(RouteSystem, Must(SYSTEM, End), NoRows));
    ChainOne(ROUTE, route, input, Just(INPUT));
    ChainOne(ABORT, Row(Abort, Must(ABORT, End), NoRows), Concat(route, input), Name(ROUTE, Just(INPUT)));
  }

  lemma HeadIsNotMiddle() ensures !Share(HEAD_WORDS, MIDDLE_WORDS) {}

  lemma HeadIsNotTail() ensures !Share(HEAD_WORDS, TAIL_WORDS) {}

  lemma MiddleIsNotTail() ensures !Share(MIDDLE_WORDS, TAIL_WORDS) {}

  lemma HeadIsNotSense() ensures !Share(HEAD_WORDS, Just(SENSE)) {}

  lemma HeadIsNoRange() ensures !Share(HEAD_WORDS, RANGE_WORDS) {}

  lemma HeadIsNoData() ensures !Share(HEAD_WORDS, REST_WORDS) {}

  lemma SenseIsNotMiddle() ensures !Share(Just(SENSE), MIDDLE_WORDS) {}

  lemma ApertureIsNotMiddle() ensures !Share(APERTURE_WORDS, MIDDLE_WORDS) {}

  lemma RangeIsNotMiddle()
    ensures !Share(RANGE_WORDS, MIDDLE_WORDS)
  {
    ApertureIsNotMiddle();
  }

  lemma DataIsNotMiddle() ensures !Share(REST_WORDS, MIDDLE_WORDS) {}

  lemma SenseIsNotTail() ensures !Share(Just(SENSE), TAIL_WORDS) {}

  lemma ApertureIsNotTail() ensures !Share(APERTURE_WORDS, TAIL_WORDS) {}

  lemma RangeIsNotTail()
    ensures !Share(RANGE_WORDS, TAIL_WORDS)
  {
    ApertureIsNotTail();
  }

  lemma DataIsNotTail() ensures !Share(REST_WORDS, TAIL_WORDS) {}

  lemma SenseWordsDiffer()
    ensures var sense := ConcatNames(Just(SENSE), ConcatNames(RANGE_WORDS, REST_WORDS));
            !Share(HEAD_WORDS, sense) && !Share(sense, MIDDLE_WORDS) && !Share(sense, TAIL_WORDS)
  {
    var words := ConcatNames(RANGE_WORDS, REST_WORDS);
    HeadIsNotSense();
    HeadIsNoRange();
    HeadIsNoData();
    SenseIsNotMiddle();
    RangeIsNotMiddle();
    DataIsNotMiddle();
    SenseIsNotTail();
    RangeIsNotTail();
    DataIsNotTail();
    ShareConcat(HEAD_WORDS, RANGE_WORDS, REST_WORDS);
    ShareConcat(HEAD_WORDS, Just(SENSE), words);
    ShareConcatLeft(RANGE_WORDS, REST_WORDS, MIDDLE_WORDS);
    ShareConcatLeft(Just(SENSE), words, MIDDLE_WORDS);
    ShareConcatLeft(RANGE_WORDS, REST_WORDS, TAIL_WORDS);
    ShareConcatLeft(Just(SENSE), words, TAIL_WORDS);
  }

  /** No received header matches two rows of the table. */
  lemma TableIsUnambiguous()
    ensures Unambiguous(TABLE)
  {
    HeadInOrder();
    SenseInOrder();
    MiddleInOrder();
    TailInOrder();
    HeadIsNotMiddle();
    HeadIsNotTail();
    MiddleIsNotTail();
    SenseWordsDiffer();
    ChainFour(HEAD_ROWS, HEAD_WORDS, SENSE_ROWS, ConcatNames(Just(SENSE), ConcatNames(RANGE_WORDS, REST_WORDS)),
              MIDDLE_ROWS, MIDDLE_WORDS, TAIL_ROWS, TAIL_WORDS);
    DistinctIsUnambiguous(ALL_ROWS);
  }

  /** So the order in which the table is searched does not matter. */
  lemma TableOrderDoesNotMatter(permuted: seq<CommandSpec>, ts: seq<Token>)
    requires multiset(permuted) == multiset(TABLE)
    ensures Dispatch(permuted, ts) == Dispatch(TABLE, ts)
  {
    TableIsUnambiguous();
    OrderDoesNotMatter(TABLE, permuted, ts);
  }
}
