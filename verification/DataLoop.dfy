/** Measured data through the wire: values line up with their statuses, and windows select what was asked for. */
module DataLoop {
  import opened Wrappers
  import opened Text
  import opened Decimal
  import opened Numbers
  import opened Commands
  import opened Headers
  import opened Instrument
  import opened Measurement
  import opened Effects
  import opened CommandLine
  import opened Client
  import opened ClientLines
  import opened ClosedLoop
  import opened FunctionLists
  import opened NameLists

  // ------------------------------------------------------------------------- printed numbers

  /** A number printed without quotes, blanks or commas. */
  predicate PlainNumber(text: string) {
    && text != ""
    && (forall i :: 0 <= i < |text| ==> !IsQuote(text[i]) && !IsSpace(text[i]) && text[i] != ',')
    && Strtod(text).Some?
  }

  /** What counts as NaN starts at 9.90009E37. */
  const NAN_LIMIT := 99000900000000000000000000000000000000.0

  /** All that is asked of the C library's way of printing a measured value: the digits asked for, rounded. */
  ghost predicate PrintsNumbers(h: Host) {
    forall precision: nat, r :: PrintedAs(h.formatExponent(precision, r), precision, r)
  }

  lemma DecimalIsPlain(x: Written)
    requires Valid(x)
    ensures PlainNumber(TextOf(x)) && Trim(TextOf(x)) == TextOf(x)
    ensures Strtod(TextOf(x)) == Some(Scanned(ValueOf(x), ""))
  {
    hide Strtod, ValueOf;
    assert "" + TextOf(x) + "" == TextOf(x);
    StrtodReads("", x, "");
    DecimalCharacters(x);
    TrimOfTrimmed(TextOf(x));
  }

  lemma DecimalCharacters(x: Written)
    requires Valid(x)
    ensures TextOf(x) != ""
    ensures forall i :: 0 <= i < |TextOf(x)| ==> !IsQuote(TextOf(x)[i]) && !IsSpace(TextOf(x)[i]) && TextOf(x)[i] != ','
  {
    assert forall i :: 0 <= i < |MantissaText(x)| ==> IsDigit(MantissaText(x)[i]) || MantissaText(x)[i] == '.';
    assert MantissaText(x) != "";
  }

  /** What the client makes of a decimal. */
  lemma DecimalIsRead(x: Written)
    requires Valid(x)
    ensures ToDouble(TextOf(x)) == Success(if Abs(ValueOf(x)) >= NAN_LIMIT then NaN else Num(ValueOf(x)))
  {
    hide Strtod, ValueOf, TextOf, Trim, PlainNumber;
    DecimalIsPlain(x);
  }

  // ------------------------------------------------------------- how close the client gets

  lemma {:induction false} ShiftGrows(m: nat, n: nat, places: nat)
    requires m <= n
    ensures Shift(m, places) <= Shift(n, places)
  {
    if places > 0 { ShiftGrows(m, n, places - 1); }
  }

  /** The digits of a number that does not start with zero. */
  lemma LeadingDigit(whole: string, fraction: string)
    requires AllDigits(whole) && AllDigits(fraction) && |whole| == 1 && whole != "0"
    ensures NatValue(whole + fraction) as real >= Pow10(|fraction|)
  {
    hide Pow10, Shift;
    assert NatValue(whole) >= 1 by { FirstDigit(whole); }
    NatValueOfConcat(whole, fraction);
    ShiftGrows(1, NatValue(whole), |fraction|);
    ShiftIsPower(1, |fraction|);
  }

  lemma FirstDigit(whole: string)
    requires AllDigits(whole) && |whole| == 1 && whole != "0"
    ensures NatValue(whole) >= 1
  {
    assert whole[..0] == "" && whole == [whole[0]];
    assert whole[0] != '0';
  }

  lemma ScaledUp(a: real, b: real, u: real)
    requires a >= b && u >= 0.0
    ensures a * u >= b * u
  {}

  lemma UnitIsSmall(digits: real, unit: real, p: real, inverse: real, size: real)
    requires digits >= p > 0.0 && unit > 0.0 && inverse > 0.0 && inverse * p == 1.0 && size == digits * unit
    ensures unit <= size * inverse
  {
    ScaledUp(digits, p, inverse);
    ScaledUp(digits * inverse, 1.0, unit);
    assert size * inverse == (digits * inverse) * unit;
  }

  /** A rounded scientific decimal is near the value printed. */
  lemma RoundedIsNear(x: Written, precision: nat, r: real)
    requires Scientific(x, precision) && Rounded(x, r)
    ensures NearTo(precision, ValueOf(x), r)
  {
    hide Pow10, NatValue;
    if x.whole != "0" {
      var digits, unit := NatValue(x.whole + x.fraction) as real, Pow10(PowerOf(x.power) - precision);
      LeadingDigit(x.whole, x.fraction);
      Pow10OfNothing();
      Pow10Sum(0 - precision, precision);
      assert Pow10(0 - precision) * Pow10(precision) == 1.0;
      SizeOf(x, digits, unit);
      UnitIsSmall(digits, unit, Pow10(precision), Pow10(0 - precision), Abs(ValueOf(x)));
      HalfAUnit(Abs(ValueOf(x)), Abs(ValueOf(x) - r), unit, Pow10(0 - precision));
    }
  }

  lemma SizeOf(x: Written, digits: real, unit: real)
    requires Valid(x) && digits == NatValue(x.whole + x.fraction) as real && unit == Pow10(PowerOf(x.power) - |x.fraction|)
    ensures Abs(ValueOf(x)) == digits * unit
  {
    hide Pow10, NatValue;
    ScaledUp(digits, 0.0, unit);
  }

  /** What a client may read for a measured value: NaN for NaN, and otherwise the value rounded to the digits that are printed,
      which is within half a unit of the last of them, as long as it is not so large that it counts as NaN. */
  ghost predicate ReadAs(precision: nat, measured: Value, read: Value) {
    match measured
    case NaN => read == NaN
    case Num(r) => exists v: real :: RoundedTo(precision, v, r) && read == if Abs(v) >= NAN_LIMIT then NaN else Num(v)
  }

  /** The digits behind the point: one less than the length of the data format, five when that is not positive. */
  function Precision(s: State): nat { if s.format.data.length > 0 then s.format.data.length - 1 else 5 }

  lemma PrintedIsRead(text: string, precision: nat, r: real)
    requires PrintedAs(text, precision, r)
    ensures PlainNumber(text) && ToDouble(text).Success? && ReadAs(precision, Num(r), ToDouble(text).value)
  {
    hide ToDouble, PlainNumber, Rounded, ValueOf, TextOf;
    var x: Written :| Scientific(x, precision) && TextOf(x) == text && Rounded(x, r);
    DecimalIsPlain(x);
    DecimalIsRead(x);
  }

  lemma {:induction false} NegativePowers(n: nat)
    ensures Pow10(0 - n) <= 1.0
  {
    if n > 0 { NegativePowers(n - 1); }
  }

  lemma NearIsNotFar(precision: nat, v: real, r: real)
    requires NearTo(precision, v, r)
    ensures Abs(v) <= 2.0 * Abs(r)
  {
    NegativePowers(precision);
    WithinHalf(Abs(v), Abs(v - r), Pow10(0 - precision));
  }

  lemma WithinHalf(size: real, distance: real, f: real)
    requires size >= 0.0 && f <= 1.0 && distance <= size * f / 2.0
    ensures distance <= size / 2.0
  {
    ScaledUp(1.0, f, size);
    assert size * f == f * size;
  }

  lemma HalfAUnit(size: real, distance: real, unit: real, f: real)
    requires distance <= unit / 2.0 && unit <= size * f
    ensures distance <= size * f / 2.0
  {}

  /** Ordinary values are read as numbers, rounded to the digits printed and so close in proportion to their size. */
  lemma OrdinaryIsNumber(precision: nat, r: real, read: Value)
    requires ReadAs(precision, Num(r), read) && Abs(r) < 10000000000000000000000000000000000000.0
    ensures read.Num? && RoundedTo(precision, read.r, r) && NearTo(precision, read.r, r)
  {
    hide NearTo, Rounded, ValueOf;
    var v: real :| RoundedTo(precision, v, r) && read == if Abs(v) >= NAN_LIMIT then NaN else Num(v);
    var x: Written :| Scientific(x, precision) && Rounded(x, r) && ValueOf(x) == v;
    RoundedIsNear(x, precision, r);
    NearIsNotFar(precision, v, r);
  }

  // ----------------------------------------------------------------------- the encoding of NaN

  const NAN_WRITTEN := Written("+", "9", true, "91000", Power('E', "+", "37"))

  lemma DigitsOfNaN()
    ensures NatValue("9" + "91000") == 991000 && NatValue("37") == 37
  {
    assert "9" + "91000" == "991000";
    assert "991000"[..5] == "99100";
    assert "99100"[..4] == "9910";
    assert "9910"[..3] == "991";
    assert "991"[..2] == "99";
    assert "99"[..1] == "9";
    assert "37"[..1] == "3" && NatValue("3") == 3;
    assert NatValue("9") == 9;
    assert NatValue("99") == 99;
    assert NatValue("991") == 991;
    assert NatValue("9910") == 9910;
    assert NatValue("99100") == 99100;
  }

  lemma NaNText()
    ensures Valid(NAN_WRITTEN) && TextOf(NAN_WRITTEN) == NAN_TEXT
  {
    assert MantissaText(NAN_WRITTEN) == "9.91000" && PowerText(NAN_WRITTEN.power) == "E+37";
    assert "+" + "9.91000" + "E+37" == NAN_TEXT;
  }

  lemma NaNValue()
    requires Valid(NAN_WRITTEN)
    ensures ValueOf(NAN_WRITTEN) == SCPI_NAN
  {
    hide Pow10, NatValue;
    DigitsOfNaN();
    Pow10Of32();
  }

  /** The encoding is read as NaN. */
  lemma NaNIsPlain()
    ensures PlainNumber(NAN_TEXT) && ToDouble(NAN_TEXT) == Success(NaN)
  {
    hide ToDouble, PlainNumber, ValueOf, TextOf;
    NaNText();
    NaNValue();
    DecimalIsPlain(NAN_WRITTEN);
    DecimalIsRead(NAN_WRITTEN);
  }

  /** A status word is read back exactly. */
  lemma StatusIsPlain(bits: Bits)
    ensures PlainNumber(IntText(BitsValue(bits)))
    ensures ToDouble(IntText(BitsValue(bits))) == Success(Num(BitsValue(bits) as real))
    ensures AsStatus(Num(BitsValue(bits) as real)) == BitsValue(bits)
  {
    hide BitsValue, IntText, PlainNumber;
    BitsBelow(bits, 16);
    Pow2Of16();
    WholeIsPlain(BitsValue(bits));
    WholeIsRead(BitsValue(bits));
  }

  lemma WholeIsPlain(n: nat)
    ensures PlainNumber(IntText(n)) && Strtod(Trim(IntText(n))).Some? && Strtod(Trim(IntText(n))).value.value == n as real
  {
    hide Strtod, IntText, Trim;
    IntTextShape(n);
    ParseNumberOfIntText(n);
  }

  lemma WholeIsRead(n: nat)
    requires n < 65536
    ensures ToDouble(IntText(n)) == Success(Num(n as real)) && AsStatus(Num(n as real)) == n
  {
    hide Strtod, IntText, Trim, PlainNumber;
    WholeIsPlain(n);
  }

  /** What the client makes of a printed value. */
  function Reread(h: Host, s: State, v: Value): Value {
    match ToDouble(FormatValue(h, s, v))
    case Success(value) => value
    case Failure(_) => NaN
  }

  lemma ValueIsPlain(h: Host, s: State, v: Value)
    requires PrintsNumbers(h)
    ensures PlainNumber(FormatValue(h, s, v))
    ensures ToDouble(FormatValue(h, s, v)) == Success(Reread(h, s, v))
    ensures ReadAs(Precision(s), v, Reread(h, s, v))
  {
    hide ToDouble, PlainNumber, PrintedAs, ReadAs;
    match v
    case NaN =>
      NaNIsPlain();
      assert ReadAs(Precision(s), NaN, NaN) by { NaNReadsAsNaN(Precision(s)); }
    case Num(r) => PrintedIsRead(h.formatExponent(Precision(s), r), Precision(s), r);
  }

  lemma NaNReadsAsNaN(precision: nat) ensures ReadAs(precision, NaN, NaN) {}

  // --------------------------------------------------------------------- a line of plain numbers

  ghost predicate PlainNumbers(texts: seq<string>) {
    forall i :: 0 <= i < |texts| ==> PlainNumber(texts[i])
  }

  /** A line of plain numbers has these numbers as its fields. */
  lemma FieldsOfNumbers(texts: seq<string>)
    requires texts != [] && PlainNumbers(texts)
    ensures Fields(Join(texts, ','), ',') == texts
  {
    hide Strtod, Trim;
    forall i | 0 <= i < |texts|
      ensures FreeOf(Outside, texts[i], ',') && Scan(Outside, texts[i]) == Outside && Trim(texts[i]) == texts[i]
    {
      assert PlainNumber(texts[i]);
      PlainText(texts[i], ',');
      TrimOfTrimmed(texts[i]);
    }
    SplitOfJoin(texts, ',');
    assert TrimAll(texts) == texts;
    JoinIsNotBlank(texts);
  }

  lemma JoinIsNotBlank(texts: seq<string>)
    requires texts != [] && PlainNumber(texts[0])
    ensures Trim(Join(texts, ',')) != ""
  {
    ErrorLoop.TrimKeepsMark(Join(texts, ','), 0);
  }

  /** DATA:STAT? as the client reads it. */
  function ReadingFrom(line: string): Result<Reading> {
    match ToDoubles(Fields(line, ','))
    case Failure(error) => Failure(error)
    case Success(raw) => ReadingOf(raw)
  }

  /** One value and one status per measurement, in order: each value as near as it was printed, each status exactly. */
  ghost predicate Aligned(s: State, ms: seq<Measured>, r: Reading) {
    && |r.values| == |ms| == |r.status|
    && (forall i :: 0 <= i < |ms| ==> ReadAs(Precision(s), ms[i].value, r.values[i]))
    && (forall i :: 0 <= i < |ms| ==> r.status[i] == BitsValue(ms[i].status))
  }

  lemma ToDoublesOf(fields: seq<string>, values: seq<Value>)
    requires |fields| == |values| && forall i :: 0 <= i < |fields| ==> ToDouble(fields[i]) == Success(values[i])
    ensures ToDoubles(fields) == Success(values)
  {
    hide ToDouble;
    var r := ToDoubles(fields);
    if r.Failure? {
      SomeFieldFails(fields);
    } else {
      EveryFieldIsRead(fields);
      assert forall i :: 0 <= i < |fields| ==> Success(r.value[i]) == Success(values[i]);
      assert r.value == values;
    }
  }

  /** What the client makes of the values and of the statuses. */
  function Rereads(h: Host, s: State, ms: seq<Measured>): (r: seq<Value>)
    ensures |r| == |ms|
    ensures forall i :: 0 <= i < |ms| ==> r[i] == Reread(h, s, ms[i].value)
  {
    seq(|ms|, i requires 0 <= i < |ms| => Reread(h, s, ms[i].value))
  }

  function StatusReals(ms: seq<Measured>): (r: seq<Value>)
    ensures |r| == |ms|
    ensures forall i :: 0 <= i < |ms| ==> r[i] == Num(BitsValue(ms[i].status) as real)
  {
    seq(|ms|, i requires 0 <= i < |ms| => Num(BitsValue(ms[i].status) as real))
  }

  lemma TextsAreRead(h: Host, s: State, ms: seq<Measured>)
    requires PrintsNumbers(h)
    ensures PlainNumbers(ValueTexts(h, s, ms)) && PlainNumbers(StatusTexts(ms))
    ensures ToDoubles(ValueTexts(h, s, ms)) == Success(Rereads(h, s, ms))
    ensures ToDoubles(StatusTexts(ms)) == Success(StatusReals(ms))
    ensures forall i :: 0 <= i < |ms| ==> ReadAs(Precision(s), ms[i].value, Rereads(h, s, ms)[i])
  {
    hide Strtod, FormatValue, BitsValue, ToDouble, IntText, PlainNumber, Reread, ReadAs, PrintsNumbers;
    forall i | 0 <= i < |ms|
      ensures ReadAs(Precision(s), ms[i].value, Rereads(h, s, ms)[i])
      ensures PlainNumber(ValueTexts(h, s, ms)[i]) && ToDouble(ValueTexts(h, s, ms)[i]) == Success(Rereads(h, s, ms)[i])
      ensures PlainNumber(StatusTexts(ms)[i]) && ToDouble(StatusTexts(ms)[i]) == Success(StatusReals(ms)[i])
    {
      ValueIsPlain(h, s, ms[i].value);
      StatusIsPlain(ms[i].status);
    }
    ToDoublesOf(ValueTexts(h, s, ms), Rereads(h, s, ms));
    ToDoublesOf(StatusTexts(ms), StatusReals(ms));
  }

  lemma ToDoublesConcat(a: seq<string>, x: seq<Value>, b: seq<string>, y: seq<Value>)
    requires ToDoubles(a) == Success(x) && ToDoubles(b) == Success(y)
    ensures ToDoubles(a + b) == Success(x + y)
  {
    hide ToDouble, ToDoubles;
    EveryFieldIsRead(a);
    EveryFieldIsRead(b);
    ToDoublesOf(a + b, x + y);
  }

  lemma StatusesAreRead(ms: seq<Measured>)
    ensures forall i :: 0 <= i < |ms| ==> AsStatuses(StatusReals(ms))[i] == BitsValue(ms[i].status)
  {
    hide BitsValue, AsStatus;
    forall i | 0 <= i < |ms| ensures AsStatuses(StatusReals(ms))[i] == BitsValue(ms[i].status) {
      StatusIsPlain(ms[i].status);
    }
  }

  lemma MeasuredLine(h: Host, s: State, ms: seq<Measured>)
    requires PrintsNumbers(h) && ms != []
    ensures var r := ReadingFrom(Join(ValueTexts(h, s, ms) + StatusTexts(ms), ','));
            r.Success? && Aligned(s, ms, r.value)
  {
    hide Strtod, FormatValue, BitsValue, ToDouble, ToDoubles, IntText, Fields, PlainNumber, Reread, Join, ReadAs, PrintsNumbers;
    var values, status := Rereads(h, s, ms), StatusReals(ms);
    TextsAreRead(h, s, ms);
    FieldsOfNumbers(ValueTexts(h, s, ms) + StatusTexts(ms));
    ToDoublesConcat(ValueTexts(h, s, ms), values, StatusTexts(ms), status);
    StatusesAreRead(ms);
    assert (values + status)[..|ms|] == values && (values + status)[|ms|..] == status;
  }

  /** With text formats, whatever list is measured, the reading has exactly one value and one status per function,
      the i-th of each from the measurement of the i-th function; the odd field count never happens. */
  lemma DataStatusAligns(w: World, s: State, functions: seq<string>)
    requires PrintsNumbers(w.host) && (s.format.data.format.Ascii? || functions == [])
    requires MeasurementResponse(w, s, functions, true).Some?
    ensures var r := ReadingFrom(MeasurementResponse(w, s, functions, true).value);
            exists ms: seq<Measured> ::
              && |ms| == |functions| && (forall i :: 0 <= i < |ms| ==> Measure(w, s, functions[i]) == Some(ms[i]))
              && r.Success? && Aligned(s, ms, r.value)
  {
    hide Measure, Aligned, FormatValue, BitsValue, Strtod, ReadingFrom;
    if functions == [] {
      EmptyReading(w.host, s);
    } else {
      var ms := MeasureAll(w, s, functions).value;
      forall i | 0 <= i < |ms| ensures Measure(w, s, functions[i]) == Some(ms[i]) {
        MeasureAllAt(w, s, functions, i);
      }
      MeasuredLine(w.host, s, ms);
    }
  }

  lemma EmptyReading(h: Host, s: State)
    ensures ReadingFrom("") == Success(Reading([], [])) && Aligned(s, [], Reading([], []))
  {
    assert Fields("", ',') == [];
  }

  /** In a binary format the client cannot read the block at all, which is why prepare() asks for text. */
  lemma BinaryIsNotRead(count: nat)
    requires count > 0
    ensures ReadingFrom(BinaryBlock(count)) == Failure(Protocol)
  {
    hide Strtod, IntText, NatText;
    var block := BinaryBlock(count);
    IntTextShape(count * 8);
    IntTextShape(|IntText(count * 8)|);
    assert block[0] == '#';
    PlainText(block, ',');
    SplitFree(block, ',');
    ErrorLoop.TrimKeepsMark(block, 0);
    assert Trim(block)[0] == '#';
    HashIsNoNumber(Trim(block));
    assert Fields(block, ',') == [Trim(block)];
    ErrorLoop.TrimTwice(block);
    assert ToDouble(Trim(block)) == Failure(Protocol);
  }

  lemma HashIsNoNumber(text: string)
    requires text != "" && text[0] == '#'
    ensures Strtod(text) == None
  {}

  // --------------------------------------------------------------------------- DATA:STATus?

  lemma DataStatusLine(parameters: string)
    ensures Words(["DATA", "STAT"])
    ensures LineText(Join(["DATA", "STAT"], ':'), true, parameters) ==
            "DATA:STAT?" + (if parameters == "" then "" else " " + parameters)
  {
    assert ["DATA", "STAT"][1..] == ["STAT"];
    assert Join(["DATA", "STAT"], ':') + "?" == "DATA:STAT?";
  }

  /** The functions measured, and the state they are measured in: a list given replaces the configured one. */
  function StateFor(s: State, names: seq<string>): State {
    if names == [] then s else WithFunctions(s, UpperAll(names))
  }

  lemma DataStatusEffect(w: World, s: State, names: seq<string>)
    ensures EffectOf(w, s, Command(Data(true), [], true, QuotedAll(names))) ==
            Answered(StateFor(s, names), MeasurementResponse(w, StateFor(s, names), StateFor(s, names).sense.functions, true))
  {
    hide MeasurementResponse, FirstUnquoted, FunctionNames,
         CommonEffect, AbortEffect, RouteEffect, InputEffect, RangingEffect, ApertureEffect, FunctionEffect,
         SweepEffect, SyncEffect, AcquisitionEffect, TriggerEffect, TransformEffect, SpectrumEffect, IntegralEffect,
         HarmonicOrderEffect, CorrectionEffect, ReferenceEffect, TraceEffect, FormatEffect, DisplayEffect, SystemEffect,
         StatusEffect, TimerEffect;
    QuotedAreParameters(names);
    QuotedAreNames(names);
  }

  function DataStatusCommand(names: seq<string>): string {
    "DATA:STAT?" + (if names == [] then "" else " " + QuoteJoin(names))
  }

  /** The list is read by the simulator as it was given. */
  predicate ReadAsGiven(names: seq<string>) { names == [] || (OneCommand(names) && SeparateNames(names)) }

  lemma DataStatusArrives(w: World, s: State, names: seq<string>)
    requires ClientTable(w.specs) && (names == [] || OneCommand(names))
    ensures RunLine(Simulator(w), s, DataStatusCommand(names)) ==
            EffectOutcome(s, EffectOf(w, s, Command(Data(true), [], true, if names == [] then [] else ArgsOf(QuoteJoin(names)))))
  {
    hide RunLine, LineText, Join, EffectOf, Dispatch, EffectOutcome, QuoteJoin, ArgsOf;
    var parameters := if names == [] then "" else QuoteJoin(names);
    if names == [] {
      NoArguments();
    } else {
      FunctionArguments(names);
    }
    DataStatusLine(parameters);
    KnownLine(w, s, ["DATA", "STAT"], Data(true), true, parameters);
  }

  lemma DataStatusRuns(w: World, s: State, names: seq<string>)
    requires ClientTable(w.specs) && ReadAsGiven(names)
    ensures RunLine(Simulator(w), s, DataStatusCommand(names)) ==
            EffectOutcome(s, Answered(StateFor(s, names),
              MeasurementResponse(w, StateFor(s, names), StateFor(s, names).sense.functions, true)))
  {
    hide RunLine, DataStatusCommand, EffectOf, EffectOutcome, MeasurementResponse, StateFor, QuoteJoin, ArgsOf;
    if names == [] { NoArguments(); } else { FunctionArguments(names); }
    DataStatusArrives(w, s, names);
    DataStatusEffect(w, s, names);
  }

  lemma NoArguments()
    ensures ArgsOf("") == [] && QuotedAll([]) == []
  {}

  /** What the client makes of a measured response: with text formats or an empty list, one value and one status for
      every function, in the order of the list; otherwise a protocol error. */
  ghost predicate DataIsRead(w: World, s: State, line: string) {
    if s.format.data.format.Ascii? || s.sense.functions == [] then
      exists ms: seq<Measured> ::
        && |ms| == |s.sense.functions|
        && (forall i :: 0 <= i < |ms| ==> Measure(w, s, s.sense.functions[i]) == Some(ms[i]))
        && ReadingFrom(line).Success? && Aligned(s, ms, ReadingFrom(line).value)
    else ReadingFrom(line) == Failure(Protocol)
  }

  lemma MeasuredIsRead(w: World, s: State)
    requires PrintsNumbers(w.host) && MeasurementResponse(w, s, s.sense.functions, true).Some?
    ensures DataIsRead(w, s, MeasurementResponse(w, s, s.sense.functions, true).value)
  {
    hide Measure, Aligned, ReadingFrom, MeasureAll, BinaryBlock, PrintsNumbers;
    if s.format.data.format.Ascii? || s.sense.functions == [] {
      DataStatusAligns(w, s, s.sense.functions);
    } else {
      BinaryIsNotRead(|s.sense.functions|);
    }
  }

  /** The list measured, and what is answered for it, whatever the parameters of an accepted command are. */
  lemma AcceptedMeasurement(w: World, s: State, args: seq<string>)
    ensures var e := EffectOf(w, s, Command(Data(true), [], true, args));
            var after := if args == [] then s else WithFunctions(s, FunctionNames(args));
            e.Done? ==> e == Answered(after, MeasurementResponse(w, after, after.sense.functions, true))
  {
    hide MeasurementResponse, FirstUnquoted, FunctionNames,
         CommonEffect, AbortEffect, RouteEffect, InputEffect, RangingEffect, ApertureEffect, FunctionEffect,
         SweepEffect, SyncEffect, AcquisitionEffect, TriggerEffect, TransformEffect, SpectrumEffect, IntegralEffect,
         HarmonicOrderEffect, CorrectionEffect, ReferenceEffect, TraceEffect, FormatEffect, DisplayEffect, SystemEffect,
         StatusEffect, TimerEffect;
  }

  /** Of a list that is one command: the client gets one value and one status for every function of the list that is then
      configured, in its order, or a protocol error in a binary format. */
  lemma MeasuredListAligns(w: World, s: State, names: seq<string>)
    requires ClientTable(w.specs) && PrintsNumbers(w.host) && (names == [] || OneCommand(names))
    ensures var o := RunLine(Simulator(w), s, DataStatusCommand(names));
            o.ending.Completed? ==>
              && |o.responses| == 1 && DataIsRead(w, o.state, o.responses[0])
              && (o.state == StateFor(s, names) <==> ReadAsGiven(names))
  {
    hide RunLine, MeasurementResponse, DataIsRead, DataStatusCommand, EffectOf, OneCommand, SeparateNames, PrintsNumbers, QuoteJoin,
         ArgsOf, FunctionNames, Split, UpperAll;
    var args := if names == [] then [] else ArgsOf(QuoteJoin(names));
    var after := if args == [] then s else WithFunctions(s, FunctionNames(args));
    DataStatusArrives(w, s, names);
    AcceptedMeasurement(w, s, args);
    if MeasurementResponse(w, after, after.sense.functions, true).Some? { MeasuredIsRead(w, after); }
    if names != [] {
      var pieces := Split(Outside, QuoteJoin(names), ',');
      FunctionArguments(names);
      NamesOfArguments(pieces);
      UpperNamesComeBack(names);
      assert args == TrimAll(pieces) != [];
    }
  }

  /** data_with_status through the wire, for every list of names: when the line is carried out, the instrument measures the
      list that was asked for if and only if it is one command and its names are separate; a list that is one command
      comes back with one value and one status a function, in the order of the list measured, or as a protocol error in a
      binary format. */
  lemma DataWithStatusAligns(w: World, s: State, names: seq<string>)
    requires ClientTable(w.specs) && PrintsNumbers(w.host)
    ensures var o := RunLine(Simulator(w), s, DataStatusCommand(names));
            && (ReadAsGiven(names) ==> !o.ending.Stopped?)
            && (o.ending.Completed? ==>
                  && (o.state == StateFor(s, names) <==> ReadAsGiven(names))
                  && (names == [] || OneCommand(names) ==> |o.responses| == 1 && DataIsRead(w, o.state, o.responses[0])))
  {
    hide RunLine, MeasurementResponse, DataIsRead, DataStatusCommand, EffectOf, OneCommand, SeparateNames, PrintsNumbers;
    if ReadAsGiven(names) { DataStatusRuns(w, s, names); }
    if names == [] || OneCommand(names) {
      MeasuredListAligns(w, s, names);
    } else {
      ListOfCommandsIsNotMeasured(w, s, names);
    }
  }

  lemma ListOfCommandsIsNotMeasured(w: World, s: State, names: seq<string>)
    requires ClientTable(w.specs) && names != [] && !OneCommand(names)
    ensures var o := RunLine(Simulator(w), s, DataStatusCommand(names));
            o.ending.Completed? ==> o.state != StateFor(s, names)
  {
    hide RunLine, OneCommand, QuoteJoin, LineText, Join, Dispatch;
    DataStatusLine(QuoteJoin(names));
    QuoteJoinEnds(names);
    assert "DATA:STAT?" + (" " + QuoteJoin(names)) == DataStatusCommand(names);
    AskedForIsOneCommand(w, s, ["DATA", "STAT"], Data(true), true, names);
  }
}
