/** What every function name measures, in terms of the signal: the name's text on one side, voltages, currents and phase
    shifts on the other. */
module Quantities {
  import opened Wrappers
  import opened Text
  import opened Decimal
  import opened Pattern
  import opened Headers
  import opened Instrument
  import opened Measurement
  import opened ClientLines
  import opened NameLists

  // ------------------------------------------------------------------------------ reading names

  /** The name consists, in any case, of this word with this number behind it and these words behind colons. */
  predicate Says(function_: string, word: string, number: string, tail: seq<string>) {
    && Word(word) && AllDigits(number) && (forall i :: 0 <= i < |tail| ==> Word(tail[i]))
    && Upper(function_) == Join([word + number] + tail, ':')
  }

  lemma UpperTwice(s: string)
    ensures Upper(Upper(s)) == Upper(s)
  {}

  lemma TokenOfUpper(node: string)
    ensures TokenOf(Upper(node)) == TokenOf(node)
  {
    hide Trim, Upper, DigitStart, NatValue;
    UpperTrim(node);
    UpperTwice(Trim(node));
  }

  /** Names are read without regard to case. */
  lemma NameOfUpper(function_: string)
    ensures NameOf(Upper(function_)) == NameOf(function_)
  {
    hide TokenOf, Split, Upper, Trim;
    var nodes := Split(Outside, function_, ':');
    UpperSplit(Outside, function_, ':');
    TokenOfUpper(nodes[0]);
    var a, b := UpperAll(TrimAll(UpperAll(nodes)[1..])), UpperAll(TrimAll(nodes[1..]));
    forall i | 0 <= i < |b| ensures a[i] == b[i] {
      UpperTrim(nodes[i + 1]);
      UpperTwice(Trim(nodes[i + 1]));
    }
    assert a == b;
  }

  lemma WordIsTrimmed(word: string)
    requires Word(word)
    ensures Trim(word) == word && Upper(word) == word
    ensures FreeOf(Outside, word, ':') && Scan(Outside, word) == Outside
  {
    TrimOfTrimmed(word);
    PlainText(word, ':');
  }

  lemma WordWithNumber(word: string, number: string)
    requires Word(word) && AllDigits(number)
    ensures FreeOf(Outside, word + number, ':') && Scan(Outside, word + number) == Outside
    ensures TokenOf(word + number).text == word && TokenOf(word + number).suffix == NatValue(number)
  {
    hide NatValue;
    var node := word + number;
    PlainText(node, ':');
    TrimOfTrimmed(node);
    assert Upper(node) == node;
    DigitStartOf(word, number);
    assert node[..|word|] == word && node[|word|..] == number;
    if number == "" {
      assert node == word;
      NothingIsZero();
    }
  }

  lemma NothingIsZero() ensures NatValue("") == 0 {}

  /** The parts of a name. */
  lemma SaysName(function_: string, word: string, number: string, tail: seq<string>)
    requires Says(function_, word, number, tail)
    ensures NameOf(function_) == FunctionName(word, NatValue(number), tail)
  {
    hide Split, TokenOf, Trim, Upper, FreeOf, Scan, Word, NatValue, Join;
    var nodes := [word + number] + tail;
    NameOfUpper(function_);
    WordWithNumber(word, number);
    forall i | 0 <= i < |nodes| ensures FreeOf(Outside, nodes[i], ':') && Scan(Outside, nodes[i]) == Outside {
      if i > 0 { WordIsTrimmed(tail[i - 1]); }
    }
    SplitOfJoin(nodes, ':');
    assert nodes[1..] == tail;
    forall i | 0 <= i < |tail| ensures UpperAll(TrimAll(tail))[i] == tail[i] { WordIsTrimmed(tail[i]); }
    assert UpperAll(TrimAll(tail)) == tail;
  }

  // ----------------------------------------------------------------------- phases and their sums

  /** A signal is connected and synchronized on, and measuring is under way. */
  predicate Ready(w: World, s: State) { w.signal.present && s.sync.enabled && (s.continuous || s.initiated) }

  /** The phases a number stands for: itself, or three for the sums over the first and the second system. */
  predicate Covers(suffix: nat, phases: seq<int>) {
    || (1 <= suffix <= 6 && phases == [suffix])
    || (suffix == 0 && phases == [1, 2, 3])
    || (suffix == 460 && phases == [4, 5, 6])
  }

  predicate OneOrThree(phases: seq<int>) {
    (|phases| == 1 || |phases| == 3) && forall i :: 0 <= i < |phases| ==> 1 <= phases[i] <= MAX_PHASE
  }

  /** A quantity of a phase summed over the phases. */
  function Over(w: World, phases: seq<int>, f: PhaseSignal -> real): real
    requires OneOrThree(phases)
  {
    var p := w.signal.phases;
    if |phases| == 1 then f(p[phases[0] - 1]) else f(p[phases[0] - 1]) + f(p[phases[1] - 1]) + f(p[phases[2] - 1])
  }

  /** Of a voltage or a current, the sum. */
  function VoltageSum(w: World, phases: seq<int>): real requires OneOrThree(phases) {
    Over(w, phases, (p: PhaseSignal) => p.voltageRms)
  }

  function CurrentSum(w: World, phases: seq<int>): real requires OneOrThree(phases) {
    Over(w, phases, (p: PhaseSignal) => p.currentRms)
  }

  function VoltageDcSum(w: World, phases: seq<int>): real requires OneOrThree(phases) {
    Over(w, phases, (p: PhaseSignal) => p.voltageDc)
  }

  function CurrentDcSum(w: World, phases: seq<int>): real requires OneOrThree(phases) {
    Over(w, phases, (p: PhaseSignal) => p.currentDc)
  }

  function VoltageThdSum(w: World, phases: seq<int>): real requires OneOrThree(phases) {
    Over(w, phases, (p: PhaseSignal) => p.voltageThd)
  }

  function CurrentThdSum(w: World, phases: seq<int>): real requires OneOrThree(phases) {
    Over(w, phases, (p: PhaseSignal) => p.currentThd)
  }

  /** Voltages and currents are averaged over the phases; powers add up. */
  function Voltage(w: World, phases: seq<int>): real requires OneOrThree(phases) { VoltageSum(w, phases) / |phases| as real }
  function Current(w: World, phases: seq<int>): real requires OneOrThree(phases) { CurrentSum(w, phases) / |phases| as real }
  function VoltageDc(w: World, phases: seq<int>): real requires OneOrThree(phases) { VoltageDcSum(w, phases) / |phases| as real }
  function CurrentDc(w: World, phases: seq<int>): real requires OneOrThree(phases) { CurrentDcSum(w, phases) / |phases| as real }
  function VoltageThd(w: World, phases: seq<int>): real requires OneOrThree(phases) { VoltageThdSum(w, phases) / |phases| as real }
  function CurrentThd(w: World, phases: seq<int>): real requires OneOrThree(phases) { CurrentThdSum(w, phases) / |phases| as real }

  /** One phase: volts times amperes, and the parts of it in phase and out of phase by the angle in degrees. */
  function Apparent(p: PhaseSignal): real { p.voltageRms * p.currentRms }
  function Active(h: Host, p: PhaseSignal): real { Apparent(p) * h.cos(p.phaseShift * 3.14159265358979323846 / 180.0) }
  function Reactive(h: Host, p: PhaseSignal): real { Apparent(p) * h.sin(p.phaseShift * 3.14159265358979323846 / 180.0) }

  function ApparentPower(w: World, phases: seq<int>): real requires OneOrThree(phases) {
    Over(w, phases, (p: PhaseSignal) => Apparent(p))
  }

  function ActivePower(w: World, phases: seq<int>): real requires OneOrThree(phases) {
    Over(w, phases, (p: PhaseSignal) => Active(w.host, p))
  }

  function ReactivePower(w: World, phases: seq<int>): real requires OneOrThree(phases) {
    Over(w, phases, (p: PhaseSignal) => Reactive(w.host, p))
  }

  function Shifts(w: World, phases: seq<int>): (r: seq<real>)
    requires OneOrThree(phases)
    ensures |r| == |phases| && forall k :: 0 <= k < |r| ==> r[k] == w.signal.phases[phases[k] - 1].phaseShift
  {
    seq(|phases|, k requires 0 <= k < |phases| => w.signal.phases[phases[k] - 1].phaseShift)
  }

  /** Of some angles, the first of the largest. */
  predicate FirstLargest(shifts: seq<real>, shift: real) {
    exists k :: 0 <= k < |shifts| && shifts[k] == shift
      && (forall j :: 0 <= j < |shifts| ==> Abs(shifts[j]) <= Abs(shift))
      && (forall j :: 0 <= j < k ==> Abs(shifts[j]) < Abs(shift))
  }

  /** What three phases add up to. */
  lemma ThreeSums(h: Host, a: PhaseSignal, b: PhaseSignal, c: PhaseSignal)
    ensures var t := AddPhase(h, AddPhase(h, AddPhase(h, ZERO_TOTALS, a), b), c);
            && t.voltageRms == a.voltageRms + b.voltageRms + c.voltageRms
            && t.currentRms == a.currentRms + b.currentRms + c.currentRms
            && t.voltageDc == a.voltageDc + b.voltageDc + c.voltageDc
            && t.currentDc == a.currentDc + b.currentDc + c.currentDc
            && t.voltageThd == a.voltageThd + b.voltageThd + c.voltageThd
            && t.currentThd == a.currentThd + b.currentThd + c.currentThd
  {}

  lemma PhaseAdds(h: Host, t: Totals, p: PhaseSignal)
    ensures var u := AddPhase(h, t, p);
            && u.apparent == t.apparent + Apparent(p)
            && u.active == t.active + Active(h, p) && u.reactive == t.reactive + Reactive(h, p)
  {}

  lemma ThreePowers(h: Host, a: PhaseSignal, b: PhaseSignal, c: PhaseSignal)
    ensures var t := AddPhase(h, AddPhase(h, AddPhase(h, ZERO_TOTALS, a), b), c);
            && t.apparent == Apparent(a) + Apparent(b) + Apparent(c)
            && t.active == Active(h, a) + Active(h, b) + Active(h, c)
            && t.reactive == Reactive(h, a) + Reactive(h, b) + Reactive(h, c)
  {
    hide AddPhase, Apparent, Active, Reactive;
    PhaseAdds(h, ZERO_TOTALS, a);
    PhaseAdds(h, AddPhase(h, ZERO_TOTALS, a), b);
    PhaseAdds(h, AddPhase(h, AddPhase(h, ZERO_TOTALS, a), b), c);
  }

  lemma ThreeShifts(h: Host, a: PhaseSignal, b: PhaseSignal, c: PhaseSignal)
    ensures var t := AddPhase(h, AddPhase(h, AddPhase(h, ZERO_TOTALS, a), b), c);
            FirstLargest([a.phaseShift, b.phaseShift, c.phaseShift], t.worstShift)
  {
    hide Radians;
    var worst, shifts := AddPhase(h, AddPhase(h, AddPhase(h, ZERO_TOTALS, a), b), c).worstShift,
                         [a.phaseShift, b.phaseShift, c.phaseShift];
    var k := if worst == shifts[0] then 0 else if worst == shifts[1] then 1 else 2;
    assert shifts[k] == worst;
  }

  lemma OneTotal(w: World, a: int)
    requires 1 <= a <= MAX_PHASE
    ensures TotalsOf(w, [a]) == AddPhase(w.host, ZERO_TOTALS, w.signal.phases[a - 1])
  {
    hide AddPhase;
    assert [a][..0] == [];
  }

  lemma ThreeTotals(w: World, a: int, b: int, c: int)
    requires 1 <= a <= MAX_PHASE && 1 <= b <= MAX_PHASE && 1 <= c <= MAX_PHASE
    ensures TotalsOf(w, [a, b, c]) ==
            AddPhase(w.host, AddPhase(w.host, AddPhase(w.host, ZERO_TOTALS, w.signal.phases[a - 1]), w.signal.phases[b - 1]),
                     w.signal.phases[c - 1])
  {
    hide AddPhase;
    OneTotal(w, a);
    assert [a, b, c][..2] == [a, b] && [a, b][..1] == [a];
  }

  /** The sums the simulator forms are these. */
  lemma SumsOfRms(w: World, phases: seq<int>)
    requires OneOrThree(phases)
    ensures var t := TotalsOf(w, phases);
            && t.voltageRms == VoltageSum(w, phases) && t.currentRms == CurrentSum(w, phases)
            && t.voltageDc == VoltageDcSum(w, phases) && t.currentDc == CurrentDcSum(w, phases)
            && t.voltageThd == VoltageThdSum(w, phases) && t.currentThd == CurrentThdSum(w, phases)
  {
    hide TotalsOf;
    var p := w.signal.phases;
    if |phases| == 1 {
      assert phases == [phases[0]];
      OneTotal(w, phases[0]);
    } else {
      assert phases == [phases[0], phases[1], phases[2]];
      ThreeTotals(w, phases[0], phases[1], phases[2]);
      hide AddPhase, Radians;
      ThreeSums(w.host, p[phases[0] - 1], p[phases[1] - 1], p[phases[2] - 1]);
    }
  }

  lemma SumsOfPower(w: World, phases: seq<int>)
    requires OneOrThree(phases)
    ensures var t := TotalsOf(w, phases);
            && t.apparent == ApparentPower(w, phases) && t.active == ActivePower(w, phases)
            && t.reactive == ReactivePower(w, phases)
  {
    hide TotalsOf;
    var p := w.signal.phases;
    if |phases| == 1 {
      assert phases == [phases[0]];
      OneTotal(w, phases[0]);
      hide AddPhase, Apparent, Active, Reactive;
      PhaseAdds(w.host, ZERO_TOTALS, p[phases[0] - 1]);
    } else {
      assert phases == [phases[0], phases[1], phases[2]];
      ThreeTotals(w, phases[0], phases[1], phases[2]);
      hide AddPhase, Apparent, Active, Reactive;
      ThreePowers(w.host, p[phases[0] - 1], p[phases[1] - 1], p[phases[2] - 1]);
    }
  }

  lemma WorstIsLargest(w: World, phases: seq<int>)
    requires OneOrThree(phases)
    ensures FirstLargest(Shifts(w, phases), TotalsOf(w, phases).worstShift)
  {
    hide TotalsOf;
    var p := w.signal.phases;
    if |phases| == 1 {
      assert phases == [phases[0]];
      OneTotal(w, phases[0]);
      assert Shifts(w, phases)[0] == TotalsOf(w, phases).worstShift;
    } else {
      assert phases == [phases[0], phases[1], phases[2]];
      ThreeTotals(w, phases[0], phases[1], phases[2]);
      hide AddPhase, FirstLargest;
      ThreeShifts(w.host, p[phases[0] - 1], p[phases[1] - 1], p[phases[2] - 1]);
      assert Shifts(w, phases) == [p[phases[0] - 1].phaseShift, p[phases[1] - 1].phaseShift, p[phases[2] - 1].phaseShift];
    }
  }

  // ------------------------------------------------------------------------ from name to quantity

  const MINIMUM_WORDS: set<string> := {"MIN", "MINIMUM", "MAX", "MAXIMUM"}
  const INTEGRAL_WORDS: set<string> := {"IPOS", "IPOSITIVE", "INEG", "INEGATIVE", "INT", "INTEGRAL"}

  /** The name does not end in a word that modifies the quantity. */
  predicate Untrailed(tail: seq<string>) {
    tail != [] ==> var last := tail[|tail| - 1]; last !in MINIMUM_WORDS && last !in INTEGRAL_WORDS && last != "HAR"
  }

  predicate Timeless(word: string, tail: seq<string>) {
    word != "TIME" && (word == "FREQ" || word == "FREQUENCY" ==> tail != [])
  }

  lemma UntrailedIsCore(s: State, tail: seq<string>)
    requires Untrailed(tail)
    ensures AccumulatorOf(tail).NoAccumulator? && CoreTail(tail) == tail && HarmonicFactor(s, tail) == 1.0
    ensures !EndsWith(tail, "MIN", "MINIMUM") && !EndsWith(tail, "MAX", "MAXIMUM")
  {}

  lemma CoveredIsAggregated(suffix: nat, phases: seq<int>)
    requires Covers(suffix, phases)
    ensures AggregatedPhases(suffix) == phases && OneOrThree(phases)
  {}

  lemma NoEarlyAnswer(w: World, s: State, name: FunctionName)
    requires Ready(w, s) && Timeless(name.quantity, name.tail) && AggregatedPhases(name.suffix) != []
    requires !EndsWith(name.tail, "MIN", "MINIMUM") && !EndsWith(name.tail, "MAX", "MAXIMUM")
    requires AccumulatorOf(name.tail).NoAccumulator? || s.integral.enabled
    ensures EarlyAnswer(w, s, name) == None
  {
    hide EndsWith, AccumulatorOf, TimeMeasured;
  }

  predicate IsEfficiency(word: string, tail: seq<string>) {
    (word == "POW" || word == "POWER") && (tail == ["EFF"] || tail == ["EFFICIENCY"])
  }

  lemma EfficiencyTail(tail: seq<string>)
    ensures TailIs(tail, "EFF", "EFFICIENCY") <==> tail == ["EFF"] || tail == ["EFFICIENCY"]
  {
    if |tail| == 1 { assert tail == [tail[0]]; }
  }

  /** What a name measures, up to the value of its quantity. */
  lemma QuantityIsMeasured(w: World, s: State, f: string, word: string, number: string, tail: seq<string>, phases: seq<int>)
    requires Ready(w, s) && Says(f, word, number, tail) && Covers(NatValue(number), phases)
    requires Untrailed(tail) && Timeless(word, tail) && !IsEfficiency(word, tail)
    ensures OneOrThree(phases)
    ensures var name, x := FunctionName(word, NatValue(number), tail), InputsOf(w, s, phases);
            Measure(w, s, f) == Some(match QuantityValue(w, s, name, x)
                                     case None => Measured(NaN, {4})
                                     case Some(v) => Finish(s, name, x, phases[0], v))
  {
    hide NameOf, EarlyAnswer, CoreTail, Finish, QuantityValue, InputsOf, NatValue, AggregatedPhases, Join, Untrailed, Covers, AccumulatorOf,
         HarmonicFactor, EndsWith, TailIs;
    SaysName(f, word, number, tail);
    CoveredIsAggregated(NatValue(number), phases);
    UntrailedIsCore(s, tail);
    NoEarlyAnswer(w, s, FunctionName(word, NatValue(number), tail));
    EfficiencyTail(tail);
  }

  /** The inputs of a quantity are the sums over the phases and the scales of the first of them. */
  lemma InputsAreSums(w: World, s: State, phases: seq<int>)
    requires OneOrThree(phases)
    ensures var x := InputsOf(w, s, phases);
            && MeanVoltage(x) == Voltage(w, phases) && MeanCurrent(x) == Current(w, phases)
            && x.totals.voltageDc / x.count == VoltageDc(w, phases) && x.totals.currentDc / x.count == CurrentDc(w, phases)
            && x.totals.voltageThd / x.count == VoltageThd(w, phases) && x.totals.currentThd / x.count == CurrentThd(w, phases)
            && x.totals.apparent == ApparentPower(w, phases) && x.totals.active == ActivePower(w, phases)
            && x.totals.reactive == ReactivePower(w, phases) && FirstLargest(Shifts(w, phases), x.totals.worstShift)
            && x.voltageScale == s.sense.voltage[phases[0]].scale && x.currentScale == s.sense.current[phases[0]].scale
  {
    hide TotalsOf, VoltageSum, CurrentSum, VoltageDcSum, CurrentDcSum, VoltageThdSum, CurrentThdSum, ApparentPower, ActivePower,
         ReactivePower, Shifts, FirstLargest;
    SumsOfRms(w, phases);
    SumsOfPower(w, phases);
    WorstIsLargest(w, phases);
  }

  /** A quantity without modifiers is reported as it is. */
  lemma FinishPlainly(s: State, name: FunctionName, x: Measurement.Inputs, index: int, v: Value)
    requires Measurement.Positive(x) && 1 <= index <= MAX_PHASE && Untrailed(name.tail)
    ensures Finish(s, name, x, index, v) ==
            match v
            case NaN => Measured(NaN, OwnStatus(name, x) + {3})
            case Num(r) => Measured(Num(r), OwnStatus(name, x) + OwnRangeStatus(s, name, x, index))
  {
    hide OwnStatus, OwnRangeStatus, HarmonicFactor, AccumulatorOf, CoreTail, EndsWith;
    UntrailedIsCore(s, name.tail);
  }

  // -------------------------------------------------------------------------- the quantities

  /** The tail is one word, in one of its two spellings. */
  predicate Is(tail: seq<string>, short: string, long: string) { tail == [short] || tail == [long] }

  lemma IsTail(tail: seq<string>, short: string, long: string)
    ensures TailIs(tail, short, long) <==> Is(tail, short, long)
  {
    if |tail| == 1 { assert tail == [tail[0]]; }
  }

  /** Autorange off: bit 1 above the range in use, bit 0 below 5 % of it. */
  function RangeBits(config: ChannelConfig, input: real): Bits {
    if config.autorange then {} else if input > config.range then {1} else if input < config.range * 0.05 then {0} else {}
  }

  /** What is left of an RMS value without its direct part. */
  function WithoutDirect(h: Host, rms: real, dc: real): real {
    var squared := rms * rms - dc * dc;
    h.sqrt(if squared < 0.0 then 0.0 else squared)
  }

  function Product(a: real, b: real): real { a * b }

  lemma RescaledIsProduct()
    ensures forall v, scale :: Rescaled(v, scale) == Product(v, scale)
  {}

  /** The forms a voltage or a current is measured in: from its RMS value, its direct part and its distortion. */
  function FormOf(h: Host, tail: seq<string>, rms: real, dc: real, thd: real, scale: real): Option<real> {
    if tail == [] || Is(tail, "DC", "DC") then Some(Product(rms, scale))
    else if Is(tail, "AC", "AC") then Some(Product(WithoutDirect(h, rms, dc), scale))
    else if Is(tail, "MEAN", "MEAN") then Some(Product(dc, scale))
    else if Is(tail, "RMEAN", "RMEAN") || Is(tail, "RMCORR", "RMCORR") then Some(Product(rms * 0.900316316, scale))
    else if Is(tail, "THD", "THD") then Some(thd)
    else if Is(tail, "CFAC", "CFACTOR") then Some(1.41421356237)
    else if Is(tail, "FFAC", "FFACTOR") then Some(1.11072073454)
    else if Is(tail, "PTP", "PTP") then Some(Product(2.0 * 1.41421356237 * rms, scale))
    else if Is(tail, "PHIGH", "PHIGH") then Some(Product(1.41421356237 * rms, scale))
    else if Is(tail, "PLOW", "PLOW") then Some(Product(-1.41421356237 * rms, scale))
    else None
  }

  lemma TailWords(tail: seq<string>)
    ensures forall short, long :: TailIs(tail, short, long) <==> Is(tail, short, long)
  {
    forall short, long ensures TailIs(tail, short, long) <==> Is(tail, short, long) { IsTail(tail, short, long); }
  }

  lemma PhaseWordsApart(tail: seq<string>)
    ensures Is(tail, "PHAS", "PHASE") || Is(tail, "PHIG", "PHIGH") ==>
              tail != [] && !Is(tail, "DC", "DC") && !Is(tail, "AC", "AC") && !Is(tail, "MEAN", "MEAN") && !Is(tail, "RMEAN", "RMEAN")
              && !Is(tail, "RMCORR", "RMCORR") && !Is(tail, "THD", "THD") && !Is(tail, "CFAC", "CFACTOR") && !Is(tail, "FFAC", "FFACTOR")
              && !Is(tail, "PTP", "PTP") && !Is(tail, "PLOW", "PLOW")
    ensures Is(tail, "PHAS", "PHASE") ==> !Is(tail, "PHIG", "PHIGH") && !Is(tail, "PHIGH", "PHIGH")
  {
    assert |"PHAS"| == 4 && |"PHASE"| == 5 && "PHAS"[1] == 'H' && "PHASE"[1] == 'H' && "PHAS"[2] == 'A' && "PHASE"[2] == 'A';
    assert "PHIG"[1] == 'H' && "PHIGH"[1] == 'H' && "PHIG"[2] == 'I' && "PHIGH"[2] == 'I';
    assert "DC"[1] == 'C' && "AC"[1] == 'C' && "MEAN"[1] == 'E' && "RMEAN"[1] == 'M' && "RMCORR"[1] == 'M';
    assert |"THD"| == 3 && |"PTP"| == 3 && "CFAC"[1] == 'F' && "CFACTOR"[1] == 'F' && "FFAC"[1] == 'F' && "FFACTOR"[1] == 'F';
    assert "PLOW"[1] == 'L';
  }

  lemma AlternatingIsWithoutDirect(h: Host, rms: real, dc: real)
    ensures AlternatingPart(h, rms, dc) == WithoutDirect(h, rms, dc)
  {
    var squared := rms * rms - dc * dc;
    assert MaxReal(squared, 0.0) == if squared < 0.0 then 0.0 else squared;
  }

  lemma VoltageForms(h: Host, tail: seq<string>, mean: real, dc: real, thd: real, scale: real)
    ensures VoltageForm(h, tail, mean, dc, thd, scale) ==
            if Is(tail, "PHAS", "PHASE") then Some(Num(0.0))
            else if Is(tail, "PHIG", "PHIGH") then Some(Num(Product(1.41421356237 * mean, scale)))
            else match FormOf(h, tail, mean, dc, thd, scale) case None => None case Some(v) => Some(Num(v))
  {
    hide TailIs, Is, AlternatingPart, WithoutDirect, Rescaled, Product;
    RescaledIsProduct();
    TailWords(tail);
    PhaseWordsApart(tail);
    AlternatingIsWithoutDirect(h, mean, dc);
  }

  lemma CurrentForms(h: Host, tail: seq<string>, mean: real, dc: real, thd: real, scale: real, shift: real)
    ensures CurrentForm(h, tail, mean, dc, thd, scale, shift) ==
            if Is(tail, "PHAS", "PHASE") then Some(Num(shift))
            else match FormOf(h, tail, mean, dc, thd, scale) case None => None case Some(v) => Some(Num(v))
  {
    hide TailIs, Is, AlternatingPart, WithoutDirect, Rescaled, Product;
    RescaledIsProduct();
    TailWords(tail);
    PhaseWordsApart(tail);
    AlternatingIsWithoutDirect(h, mean, dc);
  }

  lemma QuantityWords(word: string)
    ensures word == "VOLT" || word == "VOLTAGE" || word == "CURR" || word == "CURRENT" || word == "POW" || word == "POWER"
            || word == "PHAS" || word == "PHASE" || word == "IMP" || word == "IMPEDANCE" || word == "RES" || word == "RESISTANCE"
            || word == "REACT" || word == "REACTANCE" ==>
              word != "TIME" && word != "FREQ" && word != "FREQUENCY"
  {
    assert "TIME"[0] == 'T' && "FREQ"[0] == 'F' && "FREQUENCY"[0] == 'F';
    assert "VOLT"[0] == 'V' && "VOLTAGE"[0] == 'V' && "CURR"[0] == 'C' && "CURRENT"[0] == 'C' && "POW"[0] == 'P' && "POWER"[0] == 'P';
    assert "PHAS"[0] == 'P' && "PHASE"[0] == 'P' && "IMP"[0] == 'I' && "IMPEDANCE"[0] == 'I' && "RES"[0] == 'R';
    assert "RESISTANCE"[0] == 'R' && "REACT"[0] == 'R' && "REACTANCE"[0] == 'R';
  }

  /** A division that has no result for a zero divisor. */
  function Ratio(a: Value, b: real): Value {
    match a
    case NaN => NaN
    case Num(n) => if b == 0.0 then NaN else Num(n / b)
  }

  function ProductOf(a: Value, f: real): Value {
    match a
    case NaN => NaN
    case Num(n) => Num(n * f)
  }

  lemma RatiosAreQuotients()
    ensures forall a, b :: Quotient(a, Num(b)) == Ratio(a, b)
    ensures forall a, f :: Times(a, f) == ProductOf(a, f)
  {}

  /** Active over apparent power; 1 without any. */
  function Factor(active: real, apparent: real): real { if apparent != 0.0 then active / apparent else 1.0 }

  lemma FactorIsPowerFactor(x: Measurement.Inputs)
    ensures PowerFactor(x) == Factor(x.totals.active, x.totals.apparent)
  {}

  function Sine(h: Host, cosine: real): real {
    h.sqrt(if 1.0 - cosine * cosine < 0.0 then 0.0 else 1.0 - cosine * cosine)
  }

  /** The angle whose cosine is the power factor, in degrees, with the sign of the phase shift. */
  function Angle(h: Host, factor: real, shift: real): real {
    var clamped := if factor < -1.0 then -1.0 else if factor > 1.0 then 1.0 else factor;
    var degrees := h.acos(clamped) * 180.0 / 3.14159265358979323846;
    if shift < 0.0 then -degrees else degrees
  }

  /** A value with its status: NaN adds Undefined. */
  function Reported(v: Value, bits: Bits): Measured { if v.NaN? then Measured(NaN, bits + {3}) else Measured(v, bits) }

  const UNKNOWN := Measured(NaN, {4})

  lemma FirstLargestIsOne(shifts: seq<real>, a: real, b: real)
    requires FirstLargest(shifts, a) && FirstLargest(shifts, b)
    ensures a == b
  {
    var i :| 0 <= i < |shifts| && shifts[i] == a
      && (forall j :: 0 <= j < |shifts| ==> Abs(shifts[j]) <= Abs(a)) && (forall j :: 0 <= j < i ==> Abs(shifts[j]) < Abs(a));
    var k :| 0 <= k < |shifts| && shifts[k] == b
      && (forall j :: 0 <= j < |shifts| ==> Abs(shifts[j]) <= Abs(b)) && (forall j :: 0 <= j < k ==> Abs(shifts[j]) < Abs(b));
    assert Abs(shifts[i]) <= Abs(b) && Abs(shifts[k]) <= Abs(a);
  }

  lemma RangeStatusIsBits(config: ChannelConfig, input: real)
    ensures RangeStatus(config, input) == RangeBits(config, input)
  {}

  /** VOLTage: averaged over the phases and rescaled; the status compares the input itself with the range in use. */
  lemma VoltageIsMeasured(w: World, s: State, f: string, word: string, number: string, tail: seq<string>, phases: seq<int>)
    requires Ready(w, s) && Says(f, word, number, tail) && Covers(NatValue(number), phases) && Untrailed(tail)
    requires word == "VOLT" || word == "VOLTAGE"
    ensures OneOrThree(phases)
    ensures var u, config := Voltage(w, phases), s.sense.voltage[phases[0]];
            var bits := RangeBits(config, u);
            Measure(w, s, f) == Some(
              if Is(tail, "PHAS", "PHASE") then Reported(Num(0.0), bits)
              else if Is(tail, "PHIG", "PHIGH") then Reported(Num(Product(1.41421356237 * u, config.scale)), bits)
              else match FormOf(w.host, tail, u, VoltageDc(w, phases), VoltageThd(w, phases), config.scale)
                case None => UNKNOWN
                case Some(v) => Reported(Num(v), bits))
  {
    hide Measure, Join, Word, Covers, NatValue, Voltage, VoltageDc, VoltageThd, Finish, VoltageForm, FormOf, MeanVoltage, InputsOf, Product,
         RangeStatus, RangeBits, Is, Untrailed, TotalsOf, FirstLargest, Shifts, ApparentPower, ActivePower, ReactivePower;
    QuantityWords(word);
    PowerWordsApart(word, tail);
    CoveredIsAggregated(NatValue(number), phases);
    QuantityIsMeasured(w, s, f, word, number, tail, phases);
    InputsAreSums(w, s, phases);
    UntrailedIsCore(s, tail);
    var name, x := FunctionName(word, NatValue(number), tail), InputsOf(w, s, phases);
    VoltageForms(w.host, tail, Voltage(w, phases), VoltageDc(w, phases), VoltageThd(w, phases), x.voltageScale);
    RangeStatusIsBits(s.sense.voltage[phases[0]], Voltage(w, phases));
    var v, bits := QuantityValue(w, s, name, x), RangeBits(s.sense.voltage[phases[0]], Voltage(w, phases));
    if v.Some? { FinishPlainly(s, name, x, phases[0], v.value); }
    assert {} + bits == bits;
  }

  lemma PowerWordsApart(word: string, tail: seq<string>)
    ensures word == "VOLT" || word == "VOLTAGE" || word == "CURR" || word == "CURRENT" || word == "IMP" || word == "IMPEDANCE"
            || word == "RES" || word == "RESISTANCE" || word == "REACT" || word == "REACTANCE" || word == "PHAS" || word == "PHASE" ==>
              word != "POW" && word != "POWER" && !IsEfficiency(word, tail)
    ensures word == "VOLT" || word == "VOLTAGE" ==> word != "CURR" && word != "CURRENT"
    ensures word == "CURR" || word == "CURRENT" ==> word != "VOLT" && word != "VOLTAGE"
  {
    assert "VOLT"[0] == 'V' && "VOLTAGE"[0] == 'V' && "CURR"[0] == 'C' && "CURRENT"[0] == 'C' && "IMP"[0] == 'I' && "IMPEDANCE"[0] == 'I';
    assert "RES"[0] == 'R' && "RESISTANCE"[0] == 'R' && "REACT"[0] == 'R' && "REACTANCE"[0] == 'R';
    assert "POW"[1] == 'O' && "POWER"[1] == 'O' && "PHAS"[1] == 'H' && "PHASE"[1] == 'H' && "POW"[0] == 'P' && "POWER"[0] == 'P';
  }

  function NoBits(): Bits { {} }

  /** CURRent: the same, and its PHASe is the largest phase shift. */
  lemma CurrentIsMeasured(w: World, s: State, f: string, word: string, number: string, tail: seq<string>, phases: seq<int>, shift: real)
    requires Ready(w, s) && Says(f, word, number, tail) && Covers(NatValue(number), phases) && Untrailed(tail)
    requires word == "CURR" || word == "CURRENT"
    ensures OneOrThree(phases)
    ensures var i, config := Current(w, phases), s.sense.current[phases[0]];
            var bits := RangeBits(config, i);
            FirstLargest(Shifts(w, phases), shift) ==> Measure(w, s, f) == Some(
              if Is(tail, "PHAS", "PHASE") then Reported(Num(shift), bits)
              else match FormOf(w.host, tail, i, CurrentDc(w, phases), CurrentThd(w, phases), config.scale)
                case None => UNKNOWN
                case Some(v) => Reported(Num(v), bits))
  {
    hide Measure, Join, Word, Covers, NatValue, Voltage, Current, VoltageDc, CurrentDc, VoltageThd, CurrentThd, Finish, MeanVoltage,
         MeanCurrent, InputsOf, Product, RangeStatus, RangeBits, Is, Untrailed, TotalsOf, FirstLargest, Shifts, ApparentPower,
         ActivePower, ReactivePower, CurrentForm, FormOf;
    QuantityWords(word);
    PowerWordsApart(word, tail);
    CoveredIsAggregated(NatValue(number), phases);
    QuantityIsMeasured(w, s, f, word, number, tail, phases);
    InputsAreSums(w, s, phases);
    UntrailedIsCore(s, tail);
    var name, x := FunctionName(word, NatValue(number), tail), InputsOf(w, s, phases);
    if FirstLargest(Shifts(w, phases), shift) { FirstLargestIsOne(Shifts(w, phases), shift, x.totals.worstShift); }
    CurrentForms(w.host, tail, Current(w, phases), CurrentDc(w, phases), CurrentThd(w, phases), x.currentScale, x.totals.worstShift);
    RangeStatusIsBits(s.sense.current[phases[0]], Current(w, phases));
    var v, bits := QuantityValue(w, s, name, x), RangeBits(s.sense.current[phases[0]], Current(w, phases));
    if v.Some? { FinishPlainly(s, name, x, phases[0], v.value); }
    assert {} + bits == bits;
  }

  /** What a power is measured as: active, apparent or reactive power rescaled by both ratios, or the power factor. */
  function PowerForm(tail: seq<string>, active: real, apparent: real, reactive: real, scale: real): Option<Value> {
    if tail == [] || Is(tail, "ACT", "ACTIVE") || Is(tail, "CORR", "CORRECTED") then Some(Num(Product(active, scale)))
    else if Is(tail, "APP", "APPARENT") then Some(Num(Product(apparent, scale)))
    else if Is(tail, "REAC", "REACTIVE") then Some(Num(Product(reactive, scale)))
    else if Is(tail, "FACT", "FACTOR") then Some(Ratio(Num(active), apparent))
    else None
  }

  lemma CorrectedApart(tail: seq<string>)
    ensures Is(tail, "CORR", "CORRECTED") ==>
              !Is(tail, "APP", "APPARENT") && !Is(tail, "REAC", "REACTIVE") && !Is(tail, "FACT", "FACTOR")
  {
    assert "CORR"[0] == 'C' && "CORRECTED"[0] == 'C' && "APP"[0] == 'A' && "APPARENT"[0] == 'A' && "REAC"[0] == 'R';
    assert "REACTIVE"[0] == 'R' && "FACT"[0] == 'F' && "FACTOR"[0] == 'F';
  }

  lemma PowerForms(tail: seq<string>, x: Measurement.Inputs)
    ensures PowerValue(tail, x) ==
            PowerForm(tail, x.totals.active, x.totals.apparent, x.totals.reactive, Product(x.voltageScale, x.currentScale))
  {
    hide TailIs, Is, Rescaled, Product, Ratio, Quotient;
    RescaledIsProduct();
    RatiosAreQuotients();
    TailWords(tail);
    CorrectedApart(tail);
  }

  /** POWer: of one phase, or summed over three. A capacitive power factor sets bit 7. */
  lemma PowerIsMeasured(w: World, s: State, f: string, word: string, number: string, tail: seq<string>, phases: seq<int>, shift: real)
    requires Ready(w, s) && Says(f, word, number, tail) && Covers(NatValue(number), phases) && Untrailed(tail)
    requires word == "POW" || word == "POWER"
    requires !IsEfficiency(word, tail)
    ensures OneOrThree(phases)
    ensures FirstLargest(Shifts(w, phases), shift) ==> Measure(w, s, f) == Some(
              match PowerForm(tail, ActivePower(w, phases), ApparentPower(w, phases), ReactivePower(w, phases),
                              Product(s.sense.voltage[phases[0]].scale, s.sense.current[phases[0]].scale))
              case None => UNKNOWN
              case Some(v) => Reported(v, if Is(tail, "FACT", "FACTOR") && shift < 0.0 then {7} else {}))
  {
    hide Measure, Join, Word, Covers, NatValue, Voltage, Current, VoltageDc, CurrentDc, VoltageThd, CurrentThd, Finish, MeanVoltage,
         MeanCurrent, InputsOf, Product, RangeStatus, RangeBits, Is, Untrailed, TotalsOf, FirstLargest, Shifts, ApparentPower,
         ActivePower, ReactivePower, PowerForm, PowerValue;
    QuantityWords(word);
    PowerWordsApart(word, tail);
    CoveredIsAggregated(NatValue(number), phases);
    QuantityIsMeasured(w, s, f, word, number, tail, phases);
    InputsAreSums(w, s, phases);
    UntrailedIsCore(s, tail);
    var name, x := FunctionName(word, NatValue(number), tail), InputsOf(w, s, phases);
    if FirstLargest(Shifts(w, phases), shift) { FirstLargestIsOne(Shifts(w, phases), shift, x.totals.worstShift); }
    PowerForms(tail, x);
    TailWords(tail);
    PowerIsNoOther(word);
    var v := QuantityValue(w, s, name, x);
    if v.Some? { FinishPlainly(s, name, x, phases[0], v.value); }
    assert NoBits() + NoBits() == NoBits() && {7} + NoBits() == {7};
  }

  lemma PowerIsNoOther(word: string)
    ensures word == "POW" || word == "POWER" ==> word != "VOLT" && word != "VOLTAGE" && word != "CURR" && word != "CURRENT"
  {
    assert "VOLT"[0] == 'V' && "VOLTAGE"[0] == 'V' && "CURR"[0] == 'C' && "CURRENT"[0] == 'C' && "POW"[0] == 'P' && "POWER"[0] == 'P';
  }

  /** The name of a power of one phase, such as POW1 or POW1:APP. */
  function PowerName(p: nat, tail: seq<string>): string { Join(["POW" + IntText(p)] + tail, ':') }

  lemma PowerNameSays(p: nat, tail: seq<string>)
    requires 1 <= p <= 6 && (tail == [] || tail == ["ACT"] || tail == ["APP"] || tail == ["REAC"])
    ensures Says(PowerName(p, tail), "POW", IntText(p), tail) && NatValue(IntText(p)) == p
  {
    NatRoundTrip(p);
    var head := "POW" + IntText(p);
    assert Word("POW") && (tail != [] ==> Word(tail[0]));
    if tail == [] {
      assert [head] + tail == [head];
    } else {
      assert [head] + tail == [head, tail[0]] && [head, tail[0]][1..] == [tail[0]];
      assert Join([tail[0]], ':') == tail[0];
      assert PowerName(p, tail) == head + [':'] + tail[0];
    }
    assert Upper(PowerName(p, tail)) == PowerName(p, tail);
  }

  lemma PowerTails(tail: seq<string>)
    requires tail == [] || tail == ["ACT"] || tail == ["APP"] || tail == ["REAC"]
    ensures Untrailed(tail) && !IsEfficiency("POW", tail) && !Is(tail, "FACT", "FACTOR")
    ensures tail == ["APP"] || tail == ["REAC"] ==> !Is(tail, "ACT", "ACTIVE") && !Is(tail, "CORR", "CORRECTED")
    ensures tail == ["REAC"] ==> !Is(tail, "APP", "APPARENT")
  {
    assert "MIN"[0] == 'M' && "MINIMUM"[0] == 'M' && "MAX"[0] == 'M' && "MAXIMUM"[0] == 'M' && "HAR"[0] == 'H' && "INT"[0] == 'I';
    assert "IPOS"[0] == 'I' && "IPOSITIVE"[0] == 'I' && "INEG"[0] == 'I' && "INEGATIVE"[0] == 'I' && "INTEGRAL"[0] == 'I';
    assert "ACT"[0] == 'A' && "ACT"[1] == 'C' && "APP"[0] == 'A' && "APP"[1] == 'P' && "REAC"[0] == 'R' && "EFF"[0] == 'E';
    assert "EFFICIENCY"[0] == 'E' && "FACT"[0] == 'F' && "FACTOR"[0] == 'F' && "ACTIVE"[1] == 'C' && "CORR"[0] == 'C';
    assert "CORRECTED"[0] == 'C' && "APPARENT"[0] == 'A';
  }

  /** The powers of one phase: POWp and POWp:ACT are volts times amperes times the cosine of the angle, POWp:APP is volts times
      amperes, POWp:REAC takes the sine; each is rescaled by both ratios. */
  lemma PhasePowers(w: World, s: State, p: nat, tail: seq<string>)
    requires Ready(w, s) && 1 <= p <= 6 && (tail == [] || tail == ["ACT"] || tail == ["APP"] || tail == ["REAC"])
    ensures var x := w.signal.phases[p - 1];
            var ui, angle := x.voltageRms * x.currentRms, x.phaseShift * 3.14159265358979323846 / 180.0;
            var power := if tail == ["APP"] then ui else if tail == ["REAC"] then ui * w.host.sin(angle) else ui * w.host.cos(angle);
            Measure(w, s, PowerName(p, tail)) ==
              Some(Measured(Num(Product(power, Product(s.sense.voltage[p].scale, s.sense.current[p].scale))), {}))
  {
    hide Measure, PowerName, Product, Untrailed, Is, NatValue, IntText, FirstLargest, Shifts, ActivePower, ApparentPower, ReactivePower;
    PowerNameSays(p, tail);
    PowerTails(tail);
    var x := w.signal.phases[p - 1];
    OneShift(w, p);
    OnePower(w, p);
    PowerIsMeasured(w, s, PowerName(p, tail), "POW", IntText(p), tail, [p], x.phaseShift);
    if tail != [] { TailOfOne(tail); }
  }

  lemma TailOfOne(tail: seq<string>)
    requires tail == ["ACT"] || tail == ["APP"] || tail == ["REAC"]
    ensures tail == ["ACT"] ==> Is(tail, "ACT", "ACTIVE")
    ensures tail == ["APP"] ==> Is(tail, "APP", "APPARENT")
    ensures tail == ["REAC"] ==> Is(tail, "REAC", "REACTIVE")
  {}

  lemma OnePower(w: World, p: nat)
    requires 1 <= p <= 6
    ensures OneOrThree([p])
    ensures var x := w.signal.phases[p - 1];
            var ui, angle := x.voltageRms * x.currentRms, x.phaseShift * 3.14159265358979323846 / 180.0;
            && ApparentPower(w, [p]) == ui && ActivePower(w, [p]) == ui * w.host.cos(angle)
            && ReactivePower(w, [p]) == ui * w.host.sin(angle)
  {}

  lemma OneShift(w: World, p: nat)
    requires 1 <= p <= 6
    ensures OneOrThree([p]) && FirstLargest(Shifts(w, [p]), w.signal.phases[p - 1].phaseShift)
  {
    assert Shifts(w, [p])[0] == w.signal.phases[p - 1].phaseShift;
  }

  /** PHASe: the angle of the power factor. */
  lemma AngleIsMeasured(w: World, s: State, f: string, word: string, number: string, tail: seq<string>, phases: seq<int>, shift: real)
    requires Ready(w, s) && Says(f, word, number, tail) && Covers(NatValue(number), phases) && Untrailed(tail)
    requires word == "PHAS" || word == "PHASE"
    ensures OneOrThree(phases)
    ensures FirstLargest(Shifts(w, phases), shift) ==> Measure(w, s, f) == Some(
              if tail != [] then UNKNOWN
              else Reported(Num(Angle(w.host, Factor(ActivePower(w, phases), ApparentPower(w, phases)), shift)), {}))
  {
    hide Measure, Join, Word, Covers, NatValue, Voltage, Current, VoltageDc, CurrentDc, VoltageThd, CurrentThd, Finish, MeanVoltage,
         MeanCurrent, InputsOf, Product, RangeStatus, RangeBits, Is, Untrailed, TotalsOf, FirstLargest, Shifts, ApparentPower,
         ActivePower, ReactivePower, PhaseAngle, Angle, Factor;
    QuantityWords(word);
    PowerWordsApart(word, tail);
    CoveredIsAggregated(NatValue(number), phases);
    QuantityIsMeasured(w, s, f, word, number, tail, phases);
    InputsAreSums(w, s, phases);
    UntrailedIsCore(s, tail);
    var name, x := FunctionName(word, NatValue(number), tail), InputsOf(w, s, phases);
    if FirstLargest(Shifts(w, phases), shift) { FirstLargestIsOne(Shifts(w, phases), shift, x.totals.worstShift); }
    AngleIsPhaseAngle(w.host, x);
    OtherWordsApart(word);
    var v := QuantityValue(w, s, name, x);
    if v.Some? { FinishPlainly(s, name, x, phases[0], v.value); }
    assert NoBits() + NoBits() == NoBits();
  }

  lemma AngleIsPhaseAngle(h: Host, x: Measurement.Inputs)
    ensures PhaseAngle(h, x) == Angle(h, Factor(x.totals.active, x.totals.apparent), x.totals.worstShift)
  {
    hide PowerFactor, Factor;
    FactorIsPowerFactor(x);
  }

  lemma OtherWordsApart(word: string)
    ensures word == "PHAS" || word == "PHASE" || word == "IMP" || word == "IMPEDANCE" || word == "RES" || word == "RESISTANCE"
            || word == "REACT" || word == "REACTANCE" ==>
              word != "VOLT" && word != "VOLTAGE" && word != "CURR" && word != "CURRENT" && word != "POW" && word != "POWER"
    ensures word == "IMP" || word == "IMPEDANCE" || word == "RES" || word == "RESISTANCE" || word == "REACT" || word == "REACTANCE" ==>
              word != "PHAS" && word != "PHASE"
    ensures word == "RES" || word == "RESISTANCE" || word == "REACT" || word == "REACTANCE" ==> word != "IMP" && word != "IMPEDANCE"
    ensures word == "REACT" || word == "REACTANCE" ==> word != "RES" && word != "RESISTANCE"
  {
    assert "VOLT"[0] == 'V' && "VOLTAGE"[0] == 'V' && "CURR"[0] == 'C' && "CURRENT"[0] == 'C' && "POW"[1] == 'O' && "POWER"[1] == 'O';
    assert "PHAS"[1] == 'H' && "PHASE"[1] == 'H' && "PHAS"[0] == 'P' && "PHASE"[0] == 'P' && "POW"[0] == 'P' && "POWER"[0] == 'P';
    assert "IMP"[0] == 'I' && "IMPEDANCE"[0] == 'I' && "RES"[0] == 'R' && "RESISTANCE"[0] == 'R';
    assert "REACT"[0] == 'R' && "REACTANCE"[0] == 'R' && "RES"[2] == 'S' && "RESISTANCE"[2] == 'S';
    assert "REACT"[2] == 'A' && "REACTANCE"[2] == 'A';
  }

  /** IMPedance: voltage over current. */
  lemma ImpedanceIsMeasured(w: World, s: State, f: string, word: string, number: string, tail: seq<string>, phases: seq<int>)
    requires Ready(w, s) && Says(f, word, number, tail) && Covers(NatValue(number), phases) && Untrailed(tail)
    requires word == "IMP" || word == "IMPEDANCE"
    ensures OneOrThree(phases)
    ensures Measure(w, s, f) == Some(
              if tail == [] || Is(tail, "APP", "APPARENT") then Reported(Ratio(Num(Voltage(w, phases)), Current(w, phases)), {})
              else UNKNOWN)
  {
    hide Measure, Join, Word, Covers, NatValue, Voltage, Current, VoltageDc, CurrentDc, VoltageThd, CurrentThd, Finish, MeanVoltage,
         MeanCurrent, InputsOf, Product, RangeStatus, RangeBits, Is, Untrailed, TotalsOf, FirstLargest, Shifts, ApparentPower,
         ActivePower, ReactivePower, Quotient, Ratio;
    QuantityWords(word);
    PowerWordsApart(word, tail);
    CoveredIsAggregated(NatValue(number), phases);
    QuantityIsMeasured(w, s, f, word, number, tail, phases);
    InputsAreSums(w, s, phases);
    UntrailedIsCore(s, tail);
    var name, x := FunctionName(word, NatValue(number), tail), InputsOf(w, s, phases);
    RatiosAreQuotients();
    TailWords(tail);
    OtherWordsApart(word);
    var v := QuantityValue(w, s, name, x);
    if v.Some? { FinishPlainly(s, name, x, phases[0], v.value); }
    assert NoBits() + NoBits() == NoBits();
  }

  /** RESistance: the impedance times the power factor in series, divided by it in parallel. */
  lemma ResistanceIsMeasured(w: World, s: State, f: string, word: string, number: string, tail: seq<string>, phases: seq<int>)
    requires Ready(w, s) && Says(f, word, number, tail) && Covers(NatValue(number), phases) && Untrailed(tail)
    requires word == "RES" || word == "RESISTANCE"
    ensures OneOrThree(phases)
    ensures var z, factor := Ratio(Num(Voltage(w, phases)), Current(w, phases)), Factor(ActivePower(w, phases), ApparentPower(w, phases));
            Measure(w, s, f) == Some(
              if Is(tail, "SER", "SERIAL") then Reported(ProductOf(z, factor), {})
              else if Is(tail, "PAR", "PARALLEL") then Reported(Ratio(z, factor), {})
              else UNKNOWN)
  {
    hide Measure, Join, Word, Covers, NatValue, Voltage, Current, VoltageDc, CurrentDc, VoltageThd, CurrentThd, Finish, MeanVoltage,
         MeanCurrent, InputsOf, Product, RangeStatus, RangeBits, Is, Untrailed, TotalsOf, FirstLargest, Shifts, ApparentPower,
         ActivePower, ReactivePower, Quotient, Ratio, Times, ProductOf, Factor, PowerFactor;
    QuantityWords(word);
    PowerWordsApart(word, tail);
    CoveredIsAggregated(NatValue(number), phases);
    QuantityIsMeasured(w, s, f, word, number, tail, phases);
    InputsAreSums(w, s, phases);
    UntrailedIsCore(s, tail);
    var name, x := FunctionName(word, NatValue(number), tail), InputsOf(w, s, phases);
    RatiosAreQuotients();
    FactorIsPowerFactor(x);
    TailWords(tail);
    OtherWordsApart(word);
    var v := QuantityValue(w, s, name, x);
    if v.Some? { FinishPlainly(s, name, x, phases[0], v.value); }
    assert NoBits() + NoBits() == NoBits();
  }

  /** REACTance: the same with the sine that belongs to the power factor. */
  lemma ReactanceIsMeasured(w: World, s: State, f: string, word: string, number: string, tail: seq<string>, phases: seq<int>)
    requires Ready(w, s) && Says(f, word, number, tail) && Covers(NatValue(number), phases) && Untrailed(tail)
    requires word == "REACT" || word == "REACTANCE"
    ensures OneOrThree(phases)
    ensures var z, factor := Ratio(Num(Voltage(w, phases)), Current(w, phases)), Factor(ActivePower(w, phases), ApparentPower(w, phases));
            Measure(w, s, f) == Some(
              if Is(tail, "SER", "SERIAL") then Reported(ProductOf(z, Sine(w.host, factor)), {})
              else if Is(tail, "PAR", "PARALLEL") then Reported(Ratio(z, Sine(w.host, factor)), {})
              else UNKNOWN)
  {
    hide Measure, Join, Word, Covers, NatValue, Voltage, Current, VoltageDc, CurrentDc, VoltageThd, CurrentThd, Finish, MeanVoltage,
         MeanCurrent, InputsOf, Product, RangeStatus, RangeBits, Is, Untrailed, TotalsOf, FirstLargest, Shifts, ApparentPower,
         ActivePower, ReactivePower, Quotient, Ratio, Times, ProductOf, Factor, PowerFactor, Sine, ReactanceValue;
    QuantityWords(word);
    PowerWordsApart(word, tail);
    CoveredIsAggregated(NatValue(number), phases);
    QuantityIsMeasured(w, s, f, word, number, tail, phases);
    InputsAreSums(w, s, phases);
    UntrailedIsCore(s, tail);
    var name, x := FunctionName(word, NatValue(number), tail), InputsOf(w, s, phases);
    FactorIsPowerFactor(x);
    ReactanceForms(w.host, tail, Impedance(x), PowerFactor(x));
    ImpedanceIsRatio(x);
    OtherWordsApart(word);
    var v := QuantityValue(w, s, name, x);
    if v.Some? { FinishPlainly(s, name, x, phases[0], v.value); }
    assert NoBits() + NoBits() == NoBits();
  }

  lemma ImpedanceIsRatio(x: Measurement.Inputs)
    requires Measurement.Positive(x)
    ensures Impedance(x) == Ratio(Num(MeanVoltage(x)), MeanCurrent(x))
  {
    hide Quotient, Ratio, MeanVoltage, MeanCurrent;
    RatiosAreQuotients();
  }

  lemma ReactanceForms(h: Host, tail: seq<string>, z: Value, factor: real)
    ensures ReactanceValue(h, tail, z, factor) ==
            if Is(tail, "SER", "SERIAL") then Some(ProductOf(z, Sine(h, factor)))
            else if Is(tail, "PAR", "PARALLEL") then Some(Ratio(z, Sine(h, factor)))
            else None
  {
    hide Is, TailIs, Quotient, Ratio, Times, ProductOf;
    var rest := 1.0 - factor * factor;
    assert MaxReal(rest, 0.0) == if rest < 0.0 then 0.0 else rest;
    RatiosAreQuotients();
    TailWords(tail);
  }

  // ------------------------------------------------------------------------ efficiency and times

  lemma AnswerIsMeasured(w: World, s: State, f: string)
    requires !Efficiency(w, s, f)
    ensures Measure(w, s, f) == Some(PlanOf(w, s, f).measured)
  {
    hide PlanOf;
  }

  lemma RatioIsConcluded(w: World, s: State, f: string)
    requires var input, output := s.power.efficiencyInput, s.power.efficiencyOutput;
             Efficiency(w, s, f) && !Efficiency(w, s, input) && !Efficiency(w, s, output)
    ensures var i, o := Measure(w, s, s.power.efficiencyInput), Measure(w, s, s.power.efficiencyOutput);
            && i.Some? && o.Some?
            && Measure(w, s, f) == Some(PlanOf(w, s, f).conclude(Quotient(o.value.value, i.value.value)))
  {
    hide PlanOf, Quotient;
  }

  /** POWer:EFFiciency: the stored output function over the stored input function; not available until both are stored. */
  lemma EfficiencyIsMeasured(w: World, s: State, f: string, word: string, number: string, tail: seq<string>, phases: seq<int>)
    requires Ready(w, s) && Says(f, word, number, tail) && Covers(NatValue(number), phases) && IsEfficiency(word, tail)
    ensures var input, output := s.power.efficiencyInput, s.power.efficiencyOutput;
            if input == "" || output == "" then Measure(w, s, f) == Some(UNKNOWN)
            else
              && Efficiency(w, s, f)
              && (!Efficiency(w, s, input) && !Efficiency(w, s, output) ==>
                    var i, o := Measure(w, s, input), Measure(w, s, output);
                    && i.Some? && o.Some?
                    && Measure(w, s, f) ==
                       Some(Reported(if i.value.value.NaN? then NaN else Ratio(o.value.value, i.value.value.r), {})))
  {
    hide NameOf, EarlyAnswer, NatValue, AggregatedPhases, Join, Word, Covers, InputsOf, Finish, TotalsOf, Ratio, Quotient, HarmonicFactor,
         AccumulatorOf, EndsWith, Ready, Measure, Reported;
    var input, output := s.power.efficiencyInput, s.power.efficiencyOutput;
    SaysName(f, word, number, tail);
    CoveredIsAggregated(NatValue(number), phases);
    EfficiencyIsUntrailed(tail);
    UntrailedIsCore(s, tail);
    NoEarlyAnswer(w, s, FunctionName(word, NatValue(number), tail));
    EfficiencyTail(tail);
    PowerHasNoEfficiency(tail, InputsOf(w, s, phases));
    PowerIsNoOther(word);
    if input == "" || output == "" { AnswerIsMeasured(w, s, f); }
    if input != "" && output != "" && !Efficiency(w, s, input) && !Efficiency(w, s, output) {
      RatioIsConcluded(w, s, f);
      var name, x := FunctionName(word, NatValue(number), tail), InputsOf(w, s, phases);
      var i, o := Measure(w, s, input).value.value, Measure(w, s, output).value.value;
      var q := Quotient(o, i);
      assert PlanOf(w, s, f).conclude(q) == Finish(s, name, x, phases[0], q);
      FinishEfficiency(s, name, x, phases[0], q);
      QuotientIsRatio(o, i);
    }
  }

  lemma QuotientIsRatio(a: Value, b: Value)
    ensures Quotient(a, b) == if b.NaN? then NaN else Ratio(a, b.r)
  {}

  lemma EfficiencyIsUntrailed(tail: seq<string>)
    requires tail == ["EFF"] || tail == ["EFFICIENCY"]
    ensures Untrailed(tail)
  {
    assert "EFF"[0] == 'E' && "EFFICIENCY"[0] == 'E';
    assert "MIN"[0] == 'M' && "MINIMUM"[0] == 'M' && "MAX"[0] == 'M' && "MAXIMUM"[0] == 'M' && "HAR"[0] == 'H' && "INT"[0] == 'I';
    assert "IPOS"[0] == 'I' && "IPOSITIVE"[0] == 'I' && "INEG"[0] == 'I' && "INEGATIVE"[0] == 'I' && "INTEGRAL"[0] == 'I';
  }

  lemma PowerHasNoEfficiency(tail: seq<string>, x: Measurement.Inputs)
    requires tail == ["EFF"] || tail == ["EFFICIENCY"]
    ensures PowerValue(tail, x) == None && !TailIs(tail, "FACT", "FACTOR")
  {
    assert "EFF"[0] == 'E' && "EFFICIENCY"[0] == 'E' && "ACT"[0] == 'A' && "ACTIVE"[0] == 'A' && "APP"[0] == 'A';
    assert "APPARENT"[0] == 'A' && "REAC"[0] == 'R' && "REACTIVE"[0] == 'R' && "FACT"[0] == 'F' && "FACTOR"[0] == 'F';
    assert "CORR"[0] == 'C' && "CORRECTED"[0] == 'C';
  }

  lemma FinishEfficiency(s: State, name: FunctionName, x: Measurement.Inputs, index: int, v: Value)
    requires Measurement.Positive(x) && 1 <= index <= MAX_PHASE && IsEfficiency(name.quantity, name.tail)
    ensures Finish(s, name, x, index, v) == Reported(v, {})
  {
    hide HarmonicFactor, AccumulatorOf, CoreTail, EndsWith;
    EfficiencyIsUntrailed(name.tail);
    UntrailedIsCore(s, name.tail);
    FinishPlainly(s, name, x, index, v);
    PowerHasNoEfficiency(name.tail, x);
    PowerIsNoOther(name.quantity);
    assert NoBits() + NoBits() == NoBits();
  }

  /** FREQuency: that of the signal, as soon as it is synchronized on. */
  lemma FrequencyIsMeasured(w: World, s: State, f: string, word: string, number: string)
    requires Says(f, word, number, []) && (word == "FREQ" || word == "FREQUENCY")
    ensures Measure(w, s, f) == Some(if Ready(w, s) then Measured(Num(w.signal.frequency), {}) else Measured(NaN, {3}))
  {
    hide NameOf, NatValue, Join, Word;
    SaysName(f, word, number, []);
  }

  /** The least number of whole periods that covers the aperture. */
  ghost predicate WholePeriods(v: real, aperture: real, period: real) {
    aperture <= v < aperture + period && exists n: int :: Multiple(v, n, period)
  }

  predicate Multiple(v: real, n: int, period: real) { v == n as real * period }

  lemma StretchedToPeriods(aperture: real, frequency: real)
    requires frequency > 0.0
    ensures WholePeriods(Stretched(aperture, frequency), aperture, 1.0 / frequency)
  {
    var period := 1.0 / frequency;
    assert period > 0.0;
    var q := aperture / period;
    var n := Ceiling(q);
    assert q <= n as real < q + 1.0;
    ScaleBounds(q, n as real, period);
    assert q * period == aperture;
    assert Multiple(Stretched(aperture, frequency), n, period);
  }

  lemma ScaleBounds(q: real, n: real, period: real)
    requires q <= n < q + 1.0 && period > 0.0
    ensures q * period <= n * period < q * period + period
  {
    assert (n - q) * period >= 0.0;
    assert (q + 1.0 - n) * period > 0.0;
  }

  /** TIME: the averaging interval, stretched to whole signal periods when there is a signal to synchronize on; and the time
      counted since the timer was reset. */
  lemma TimeIsMeasured(w: World, s: State, f: string, number: string, tail: seq<string>)
    requires Says(f, "TIME", number, tail) && (s.continuous || s.initiated)
    requires tail == [] || tail == ["REL"] || tail == ["RELATIVE"]
    ensures var m := Measure(w, s, f);
            && m.Some? && m.value.status == {} && m.value.value.Num?
            && (tail != [] ==> m.value.value.r == s.system.timerSeconds)
            && (tail == [] ==>
                  if w.signal.present && s.sync.enabled && w.signal.frequency > 0.0 then
                    WholePeriods(m.value.value.r, s.sense.aperture, 1.0 / w.signal.frequency)
                  else m.value.value.r == s.sense.aperture)
  {
    hide NameOf, NatValue, Join, Word, WholePeriods, Stretched;
    SaysName(f, "TIME", number, tail);
    if w.signal.frequency > 0.0 { StretchedToPeriods(s.sense.aperture, w.signal.frequency); }
    RelativeIsUntrailed(tail);
    UntrailedIsCore(s, tail);
    assert "TIME"[0] == 'T' && "FREQ"[0] == 'F' && "FREQUENCY"[0] == 'F';
  }

  lemma RelativeIsUntrailed(tail: seq<string>)
    requires tail == [] || tail == ["REL"] || tail == ["RELATIVE"]
    ensures Untrailed(tail)
  {
    assert "REL"[0] == 'R' && "RELATIVE"[0] == 'R';
    assert "MIN"[0] == 'M' && "MINIMUM"[0] == 'M' && "MAX"[0] == 'M' && "MAXIMUM"[0] == 'M' && "HAR"[0] == 'H' && "INT"[0] == 'I';
    assert "IPOS"[0] == 'I' && "IPOSITIVE"[0] == 'I' && "INEG"[0] == 'I' && "INEGATIVE"[0] == 'I' && "INTEGRAL"[0] == 'I';
  }

  // ---------------------------------------------------------------------------- trailing words

  /** HAR takes the chosen harmonic, whose share falls with the square of its order. */
  function Harmonic(s: State, v: Value): Value {
    var order := if s.power.harmonicOrder < 1 then 1 else s.power.harmonicOrder;
    ProductOf(v, 1.0 / (order * order) as real)
  }

  /** IPOSitive keeps a positive value, INEGative a negative one, INTegral either. */
  function Part(word: string, v: Value): Value {
    match v
    case NaN => NaN
    case Num(r) =>
      if word == "IPOS" || word == "IPOSITIVE" then Num(if r < 0.0 then 0.0 else r)
      else if word == "INEG" || word == "INEGATIVE" then Num(if r > 0.0 then 0.0 else r)
      else v
  }

  lemma NothingTrails(s: State, last: string)
    ensures Part(last, NaN) == NaN && Harmonic(s, NaN) == NaN
  {}

  function Trailed(name: FunctionName, last: string): FunctionName { name.(tail := name.tail + [last]) }

  lemma LastWords(last: string)
    ensures last in MINIMUM_WORDS ==> last !in INTEGRAL_WORDS && last != "HAR"
    ensures last in INTEGRAL_WORDS ==> last != "HAR"
  {
    assert "MIN"[0] == 'M' && "MINIMUM"[0] == 'M' && "MAX"[0] == 'M' && "MAXIMUM"[0] == 'M' && "HAR"[0] == 'H' && "INT"[0] == 'I';
    assert "IPOS"[0] == 'I' && "IPOSITIVE"[0] == 'I' && "INEG"[0] == 'I' && "INEGATIVE"[0] == 'I' && "INTEGRAL"[0] == 'I';
  }

  lemma SignWords(last: string)
    ensures last == "IPOS" || last == "IPOSITIVE" ==> last != "INEG" && last != "INEGATIVE" && last != "INT" && last != "INTEGRAL"
    ensures last == "INEG" || last == "INEGATIVE" ==> last != "INT" && last != "INTEGRAL"
  {
    assert "IPOS"[1] == 'P' && "IPOSITIVE"[1] == 'P' && "INEG"[1] == 'N' && "INEGATIVE"[1] == 'N' && "INT"[1] == 'N';
    assert "INTEGRAL"[1] == 'N' && "INEG"[2] == 'E' && "INEGATIVE"[2] == 'E' && "INT"[2] == 'T' && "INTEGRAL"[2] == 'T';
  }

  lemma TrailedTail(tail: seq<string>, last: string)
    requires Untrailed(tail)
    ensures var t := tail + [last];
            && t[..|t| - 1] == tail && t[|t| - 1] == last
            && (last in MINIMUM_WORDS <==> EndsWith(t, "MIN", "MINIMUM") || EndsWith(t, "MAX", "MAXIMUM"))
            && (AccumulatorOf(t).NoAccumulator? <==> last !in INTEGRAL_WORDS)
            && (last in INTEGRAL_WORDS || last == "HAR" ==> CoreTail(t) == tail)
            && (last in INTEGRAL_WORDS ==> WithoutAccumulator(t) == tail)
            && (last == "HAR" ==> WithoutAccumulator(t) == t && EndsWith(t, "HAR", "HAR"))
  {
    var t := tail + [last];
    assert t[..|t| - 1] == tail;
    LastWords(last);
    UntrailedIsCore2(tail);
  }

  lemma UntrailedIsCore2(tail: seq<string>)
    requires Untrailed(tail)
    ensures !EndsWith(tail, "HAR", "HAR")
  {}

  lemma TrailedEarly(w: World, s: State, name: FunctionName, last: string)
    requires Ready(w, s) && Untrailed(name.tail) && Timeless(name.quantity, name.tail) && AggregatedPhases(name.suffix) != []
    ensures last in MINIMUM_WORDS || (last in INTEGRAL_WORDS && !s.integral.enabled) ==>
              EarlyAnswer(w, s, Trailed(name, last)) == Some(UNKNOWN)
    ensures (last in INTEGRAL_WORDS && s.integral.enabled) || last == "HAR" ==> EarlyAnswer(w, s, Trailed(name, last)) == None
  {
    hide AccumulatorOf, EndsWith, CoreTail, WithoutAccumulator, TimeMeasured, AggregatedPhases, Untrailed;
    LastWords(last);
    TrailedTail(name.tail, last);
  }

  lemma TrailedMeasure(w: World, s: State, g: string, name: FunctionName, last: string, phases: seq<int>)
    requires NameOf(g) == Trailed(name, last) && AggregatedPhases(name.suffix) == phases && OneOrThree(phases) && Untrailed(name.tail)
    requires !IsEfficiency(name.quantity, name.tail)
    ensures var early := EarlyAnswer(w, s, Trailed(name, last));
            && (early.Some? ==> Measure(w, s, g) == early)
            && (early.None? && (last in INTEGRAL_WORDS || last == "HAR") ==>
                  Measure(w, s, g) == Some(match QuantityValue(w, s, name, InputsOf(w, s, phases))
                                           case None => UNKNOWN
                                           case Some(v) => Finish(s, Trailed(name, last), InputsOf(w, s, phases), phases[0], v)))
  {
    hide NameOf, EarlyAnswer, CoreTail, Finish, InputsOf, AggregatedPhases, AccumulatorOf, HarmonicFactor, EndsWith, TailIs, Untrailed,
         VoltageValue, CurrentValue, PowerValue, ResistanceValue, ReactanceValue, Impedance, PhaseAngle;
    TrailedTail(name.tail, last);
    UntrailedIsCore(s, name.tail);
    EfficiencyTail(name.tail);
  }

  lemma FinishTrailed(s: State, name: FunctionName, last: string, x: Measurement.Inputs, index: int, v: Value)
    requires Measurement.Positive(x) && 1 <= index <= MAX_PHASE && Untrailed(name.tail)
    ensures last in INTEGRAL_WORDS ==> Finish(s, Trailed(name, last), x, index, v).value == Part(last, v)
    ensures last == "HAR" ==> Finish(s, Trailed(name, last), x, index, v).value == Harmonic(s, v)
  {
    hide OwnStatus, OwnRangeStatus, CoreTail, Untrailed;
    LastWords(last);
    SignWords(last);
    TrailedTail(name.tail, last);
    UntrailedIsCore2(name.tail);
  }

  /** What one more word does to the value of a name. */
  lemma TrailingWord(w: World, s: State, f: string, g: string, word: string, number: string, tail: seq<string>, last: string,
                     phases: seq<int>)
    requires Ready(w, s) && Says(f, word, number, tail) && Says(g, word, number, tail + [last]) && Covers(NatValue(number), phases)
    requires Untrailed(tail) && Timeless(word, tail) && !IsEfficiency(word, tail)
    ensures Measure(w, s, f).Some?
    ensures last in MINIMUM_WORDS ==> Measure(w, s, g) == Some(UNKNOWN)
    ensures last in INTEGRAL_WORDS ==>
              if s.integral.enabled then
                Measure(w, s, g).Some? && Measure(w, s, g).value.value == Part(last, Measure(w, s, f).value.value)
              else Measure(w, s, g) == Some(UNKNOWN)
    ensures last == "HAR" ==>
              Measure(w, s, g).Some? && Measure(w, s, g).value.value == Harmonic(s, Measure(w, s, f).value.value)
  {
    hide NameOf, QuantityValue, InputsOf, NatValue, AggregatedPhases, Join, Untrailed, Covers, Word, TotalsOf, Harmonic, Part, Measure,
         EarlyAnswer, CoreTail;
    QuantityIsMeasured(w, s, f, word, number, tail, phases);
    CoveredIsAggregated(NatValue(number), phases);
    SaysName(g, word, number, tail + [last]);
    var name, x := FunctionName(word, NatValue(number), tail), InputsOf(w, s, phases);
    TrailedMeasure(w, s, g, name, last, phases);
    TrailedEarly(w, s, name, last);
    var v := QuantityValue(w, s, name, x);
    NothingTrails(s, last);
    if v.Some? {
      FinishPlainly(s, name, x, phases[0], v.value);
      FinishTrailed(s, name, last, x, phases[0], v.value);
    }
  }
}
