/** The signal model: what a <function> measures, and the live CONDition parts of the status registers. */
module Measurement {
  import opened Wrappers
  import opened Text
  import opened Decimal
  import opened Pattern
  import opened Instrument

  /** A double that is either NaN or a real number. */
  datatype Value = NaN | Num(r: real)

  const UNDERRANGE := 0
  const OVERRANGE := 1
  const UNDEFINED := 3
  const NOT_AVAILABLE := 4
  const CAPACITIVE := 7

  /** A measured value with its status bits. */
  datatype Measured = Measured(value: Value, status: Bits)

  const UNAVAILABLE := Measured(NaN, {NOT_AVAILABLE})
  const UNDEFINED_RESULT := Measured(NaN, {UNDEFINED})

  // ------------------------------------------------------------------ function names

  /** A <function> name in its parts: first node, its suffix, and the upper-cased rest. */
  datatype FunctionName = FunctionName(quantity: string, suffix: int, tail: seq<string>)

  function NameOf(function_: string): FunctionName {
    var nodes := Split(Outside, function_, ':');
    var head := TokenOf(nodes[0]);
    FunctionName(head.text, head.suffix, UpperAll(TrimAll(nodes[1..])))
  }

  /** The two spellings `MnemonicMatches` accepts, given directly. */
  predicate Spelled(text: string, short: string, long: string) {
    text == short || text == long
  }

  /** The tail consists of exactly this mnemonic. */
  predicate TailIs(tail: seq<string>, short: string, long: string) {
    |tail| == 1 && Spelled(tail[0], short, long)
  }

  predicate EndsWith(tail: seq<string>, short: string, long: string) {
    tail != [] && Spelled(tail[|tail| - 1], short, long)
  }

  /** The phases a suffix aggregates over; none for a suffix the model does not cover. */
  function AggregatedPhases(suffix: int): (phases: seq<int>)
    ensures forall i :: 0 <= i < |phases| ==> 1 <= phases[i] <= MAX_PHASE
  {
    if 1 <= suffix <= MAX_PHASE then [suffix]
    else if suffix == 0 then [1, 2, 3]
    else if suffix == 460 then [4, 5, 6]
    else []
  }

  // -------------------------------------------------------------------- accumulation

  function MaxReal(a: real, b: real): real { if a < b then b else a }
  function MinReal(a: real, b: real): real { if b < a then b else a }

  /** What the loop over the phases adds up. */
  datatype Totals = Totals(
    voltageRms: real,
    currentRms: real,
    voltageDc: real,
    currentDc: real,
    apparent: real,
    active: real,
    reactive: real,
    voltageThd: real,
    currentThd: real,
    worstShift: real)

  const ZERO_TOTALS := Totals(0.0, 0.0, 0.0, 0.0, 0.0, 0.0, 0.0, 0.0, 0.0, 0.0)
  const PI := 3.14159265358979323846

  function Radians(degrees: real): real { degrees * PI / 180.0 }

  function AddPhase(h: Host, t: Totals, s: PhaseSignal): Totals {
    var volume := s.voltageRms * s.currentRms;
    Totals(
      t.voltageRms + s.voltageRms,
      t.currentRms + s.currentRms,
      t.voltageDc + s.voltageDc,
      t.currentDc + s.currentDc,
      t.apparent + volume,
      t.active + volume * h.cos(Radians(s.phaseShift)),
      t.reactive + volume * h.sin(Radians(s.phaseShift)),
      t.voltageThd + s.voltageThd,
      t.currentThd + s.currentThd,
      if Abs(s.phaseShift) > Abs(t.worstShift) then s.phaseShift else t.worstShift)
  }

  function TotalsOf(w: World, phases: seq<int>): Totals
    requires forall i :: 0 <= i < |phases| ==> 1 <= phases[i] <= MAX_PHASE
  {
    if phases == [] then ZERO_TOTALS
    else AddPhase(w.host, TotalsOf(w, phases[..|phases| - 1]), w.signal.phases[phases[|phases| - 1] - 1])
  }

  method SumPhases(w: World, phases: seq<int>) returns (t: Totals)
    requires forall i :: 0 <= i < |phases| ==> 1 <= phases[i] <= MAX_PHASE
    ensures t == TotalsOf(w, phases)
  {
    t := ZERO_TOTALS;
    for i := 0 to |phases|
      invariant t == TotalsOf(w, phases[..i])
    {
      assert phases[..i + 1][..i] == phases[..i];
      t := AddPhase(w.host, t, w.signal.phases[phases[i] - 1]);
    }
    assert phases[..|phases|] == phases;
  }

  // ---------------------------------------------------------------------- quantities

  /** The means, sums and scales of the phases a function covers. */
  datatype Inputs = Inputs(totals: Totals, count: real, voltageScale: real, currentScale: real)

  predicate Positive(x: Inputs) { x.count > 0.0 }

  function MeanVoltage(x: Inputs): real requires Positive(x) { x.totals.voltageRms / x.count }
  function MeanCurrent(x: Inputs): real requires Positive(x) { x.totals.currentRms / x.count }

  /** The part of an RMS value that is not direct. */
  function AlternatingPart(h: Host, mean: real, dc: real): real {
    h.sqrt(MaxReal(mean * mean - dc * dc, 0.0))
  }

  /** A transducer ratio multiplies the measured quantity. */
  function Rescaled(v: real, scale: real): real { v * scale }

  function VoltageForm(h: Host, tail: seq<string>, mean: real, dc: real, thd: real, scale: real): Option<Value> {
    if tail == [] || TailIs(tail, "DC", "DC") then Some(Num(Rescaled(mean, scale)))
    else if TailIs(tail, "AC", "AC") then Some(Num(Rescaled(AlternatingPart(h, mean, dc), scale)))
    else if TailIs(tail, "MEAN", "MEAN") then Some(Num(Rescaled(dc, scale)))
    else if TailIs(tail, "RMEAN", "RMEAN") || TailIs(tail, "RMCORR", "RMCORR") then Some(Num(Rescaled(mean * 0.900316316, scale)))
    else if TailIs(tail, "THD", "THD") then Some(Num(thd))
    else if TailIs(tail, "CFAC", "CFACTOR") then Some(Num(1.41421356237))
    else if TailIs(tail, "FFAC", "FFACTOR") then Some(Num(1.11072073454))
    else if TailIs(tail, "PTP", "PTP") then Some(Num(Rescaled(2.0 * 1.41421356237 * mean, scale)))
    else if TailIs(tail, "PHIG", "PHIGH") || TailIs(tail, "PHIGH", "PHIGH") then Some(Num(Rescaled(1.41421356237 * mean, scale)))
    else if TailIs(tail, "PLOW", "PLOW") then Some(Num(Rescaled(-1.41421356237 * mean, scale)))
    else if TailIs(tail, "PHAS", "PHASE") then Some(Num(0.0))
    else None
  }

  function CurrentForm(h: Host, tail: seq<string>, mean: real, dc: real, thd: real, scale: real, shift: real): Option<Value> {
    if tail == [] || TailIs(tail, "DC", "DC") then Some(Num(Rescaled(mean, scale)))
    else if TailIs(tail, "AC", "AC") then Some(Num(Rescaled(AlternatingPart(h, mean, dc), scale)))
    else if TailIs(tail, "MEAN", "MEAN") then Some(Num(Rescaled(dc, scale)))
    else if TailIs(tail, "RMEAN", "RMEAN") || TailIs(tail, "RMCORR", "RMCORR") then Some(Num(Rescaled(mean * 0.900316316, scale)))
    else if TailIs(tail, "THD", "THD") then Some(Num(thd))
    else if TailIs(tail, "CFAC", "CFACTOR") then Some(Num(1.41421356237))
    else if TailIs(tail, "FFAC", "FFACTOR") then Some(Num(1.11072073454))
    else if TailIs(tail, "PTP", "PTP") then Some(Num(Rescaled(2.0 * 1.41421356237 * mean, scale)))
    else if TailIs(tail, "PHIGH", "PHIGH") then Some(Num(Rescaled(1.41421356237 * mean, scale)))
    else if TailIs(tail, "PLOW", "PLOW") then Some(Num(Rescaled(-1.41421356237 * mean, scale)))
    else if TailIs(tail, "PHAS", "PHASE") then Some(Num(shift))
    else None
  }

  function VoltageValue(h: Host, tail: seq<string>, x: Inputs): Option<Value>
    requires Positive(x)
  {
    VoltageForm(h, tail, MeanVoltage(x), x.totals.voltageDc / x.count, x.totals.voltageThd / x.count, x.voltageScale)
  }

  function CurrentValue(h: Host, tail: seq<string>, x: Inputs): Option<Value>
    requires Positive(x)
  {
    CurrentForm(h, tail, MeanCurrent(x), x.totals.currentDc / x.count, x.totals.currentThd / x.count, x.currentScale,
                x.totals.worstShift)
  }

  /** Division as the source guards it: NaN for a zero divisor. */
  function Quotient(a: Value, b: Value): Value {
    match b
    case NaN => NaN
    case Num(d) => if d == 0.0 then NaN else match a case NaN => NaN case Num(n) => Num(n / d)
  }

  function Times(a: Value, f: real): Value {
    match a
    case NaN => NaN
    case Num(n) => Num(n * f)
  }

  function PowerFactor(x: Inputs): real {
    if x.totals.apparent != 0.0 then x.totals.active / x.totals.apparent else 1.0
  }

  function Clamp(x: real): real {
    if x < -1.0 then -1.0 else if 1.0 < x then 1.0 else x
  }

  function PhaseAngle(h: Host, x: Inputs): real {
    var angle := h.acos(Clamp(PowerFactor(x))) * 180.0 / PI;
    if x.totals.worstShift < 0.0 then -angle else angle
  }

  function Impedance(x: Inputs): Value
    requires Positive(x)
  {
    Quotient(Num(MeanVoltage(x)), Num(MeanCurrent(x)))
  }

  function ResistanceValue(tail: seq<string>, impedance: Value, factor: real): Option<Value> {
    if TailIs(tail, "SER", "SERIAL") then Some(Times(impedance, factor))
    else if TailIs(tail, "PAR", "PARALLEL") then Some(Quotient(impedance, Num(factor)))
    else None
  }

  function ReactanceValue(h: Host, tail: seq<string>, impedance: Value, factor: real): Option<Value> {
    var sine := h.sqrt(MaxReal(1.0 - factor * factor, 0.0));
    if TailIs(tail, "SER", "SERIAL") then Some(Times(impedance, sine))
    else if TailIs(tail, "PAR", "PARALLEL") then Some(Quotient(impedance, Num(sine)))
    else None
  }

  /** The POWer quantities other than EFFiciency. */
  function PowerValue(tail: seq<string>, x: Inputs): Option<Value> {
    var scale := Rescaled(x.voltageScale, x.currentScale);
    if tail == [] || TailIs(tail, "ACT", "ACTIVE") then Some(Num(Rescaled(x.totals.active, scale)))
    else if TailIs(tail, "APP", "APPARENT") then Some(Num(Rescaled(x.totals.apparent, scale)))
    else if TailIs(tail, "REAC", "REACTIVE") then Some(Num(Rescaled(x.totals.reactive, scale)))
    else if TailIs(tail, "FACT", "FACTOR") then Some(Quotient(Num(x.totals.active), Num(x.totals.apparent)))
    else if TailIs(tail, "CORR", "CORRECTED") then Some(Num(Rescaled(x.totals.active, scale)))
    else None
  }

  // ------------------------------------------------------------------------- measure

  datatype Accumulator = NoAccumulator | PositivePart | NegativePart | BothParts

  function AccumulatorOf(tail: seq<string>): Accumulator {
    if EndsWith(tail, "IPOS", "IPOSITIVE") then PositivePart
    else if EndsWith(tail, "INEG", "INEGATIVE") then NegativePart
    else if EndsWith(tail, "INT", "INTEGRAL") then BothParts
    else NoAccumulator
  }

  /** The tail without its accumulator node. */
  function WithoutAccumulator(tail: seq<string>): seq<string> {
    if AccumulatorOf(tail).NoAccumulator? then tail else tail[..|tail| - 1]
  }

  function WithoutHarmonic(tail: seq<string>): seq<string> {
    if EndsWith(tail, "HAR", "HAR") then tail[..|tail| - 1] else tail
  }

  function CoreTail(tail: seq<string>): seq<string> {
    WithoutHarmonic(WithoutAccumulator(tail))
  }

  function HarmonicFactor(s: State, tail: seq<string>): real {
    if EndsWith(WithoutAccumulator(tail), "HAR", "HAR") then
      var order := if s.power.harmonicOrder < 1 then 1.0 else s.power.harmonicOrder as real;
      1.0 / (order * order)
    else 1.0
  }

  function Accumulate(a: Accumulator, v: Value): Value {
    match v
    case NaN => NaN
    case Num(x) =>
      match a
      case PositivePart => Num(MaxReal(x, 0.0))
      case NegativePart => Num(MinReal(x, 0.0))
      case _ => v
  }

  predicate Synchronized(w: World, s: State) { w.signal.present && s.sync.enabled }

  predicate Measuring(s: State) { s.continuous || s.initiated }

  /** The averaging interval stretched to whole signal periods. */
  function Stretched(aperture: real, frequency: real): real
    requires frequency > 0.0
  {
    var period := 1.0 / frequency;
    Ceiling(aperture / period) as real * period
  }

  function TimeMeasured(w: World, s: State, tail: seq<string>): Measured {
    if tail == [] then
      if Synchronized(w, s) && w.signal.frequency > 0.0 then
        Measured(Num(Stretched(s.sense.aperture, w.signal.frequency)), {})
      else Measured(Num(s.sense.aperture), {})
    else if TailIs(tail, "REL", "RELATIVE") then Measured(Num(s.system.timerSeconds), {})
    else UNAVAILABLE
  }

  /** The answers that need no sum over phases, in the order the checks are made; None when the sums are needed. */
  function EarlyAnswer(w: World, s: State, name: FunctionName): (answer: Option<Measured>)
    ensures answer.None? ==> AggregatedPhases(name.suffix) != []
    ensures answer.Some? ==> Coherent(answer.value)
  {
    if EndsWith(name.tail, "MIN", "MINIMUM") || EndsWith(name.tail, "MAX", "MAXIMUM") then Some(UNAVAILABLE)
    else if !AccumulatorOf(name.tail).NoAccumulator? && !s.integral.enabled then Some(UNAVAILABLE)
    else if !Measuring(s) then Some(UNDEFINED_RESULT)
    else if Spelled(name.quantity, "FREQ", "FREQUENCY") && name.tail == [] then
      Some(if Synchronized(w, s) then Measured(Num(w.signal.frequency), {}) else UNDEFINED_RESULT)
    else if Spelled(name.quantity, "TIME", "TIME") then Some(TimeMeasured(w, s, name.tail))
    else if AggregatedPhases(name.suffix) == [] then Some(UNAVAILABLE)
    else if !Synchronized(w, s) then Some(UNDEFINED_RESULT)
    else None
  }

  function InputsOf(w: World, s: State, phases: seq<int>): (x: Inputs)
    requires phases != [] && forall i :: 0 <= i < |phases| ==> 1 <= phases[i] <= MAX_PHASE
    ensures Positive(x)
  {
    Inputs(TotalsOf(w, phases), |phases| as real, s.sense.voltage[phases[0]].scale, s.sense.current[phases[0]].scale)
  }

  /** What the quantity itself is worth before the trailing nodes are applied; None when it is not available. */
  function QuantityValue(w: World, s: State, name: FunctionName, x: Inputs): Option<Value>
    requires Positive(x)
  {
    var tail := CoreTail(name.tail);
    if Spelled(name.quantity, "VOLT", "VOLTAGE") then VoltageValue(w.host, tail, x)
    else if Spelled(name.quantity, "CURR", "CURRENT") then CurrentValue(w.host, tail, x)
    else if Spelled(name.quantity, "POW", "POWER") then PowerValue(tail, x)
    else if Spelled(name.quantity, "PHAS", "PHASE") && tail == [] then Some(Num(PhaseAngle(w.host, x)))
    else if Spelled(name.quantity, "IMP", "IMPEDANCE") && (tail == [] || TailIs(tail, "APP", "APPARENT")) then Some(Impedance(x))
    else if Spelled(name.quantity, "RES", "RESISTANCE") then ResistanceValue(tail, Impedance(x), PowerFactor(x))
    else if Spelled(name.quantity, "REACT", "REACTANCE") then ReactanceValue(w.host, tail, Impedance(x), PowerFactor(x))
    else None
  }

  /** Over- and underrange of the raw input, when autorange is off. */
  function RangeStatus(config: ChannelConfig, raw: real): Bits {
    if config.autorange then {}
    else if raw > config.range then {OVERRANGE}
    else if raw < config.range * 0.05 then {UNDERRANGE}
    else {}
  }

  function OwnStatus(name: FunctionName, x: Inputs): Bits {
    if Spelled(name.quantity, "POW", "POWER") && TailIs(CoreTail(name.tail), "FACT", "FACTOR") && x.totals.worstShift < 0.0
    then {CAPACITIVE} else {}
  }

  function OwnRangeStatus(s: State, name: FunctionName, x: Inputs, index: int): Bits
    requires Positive(x) && 1 <= index <= MAX_PHASE
  {
    if Spelled(name.quantity, "VOLT", "VOLTAGE") then RangeStatus(s.sense.voltage[index], MeanVoltage(x))
    else if Spelled(name.quantity, "CURR", "CURRENT") then RangeStatus(s.sense.current[index], MeanCurrent(x))
    else {}
  }

  /** Applies the trailing nodes to the quantity and derives the status. */
  function Finish(s: State, name: FunctionName, x: Inputs, index: int, quantity: Value): (m: Measured)
    requires Positive(x) && 1 <= index <= MAX_PHASE
    ensures Coherent(m)
  {
    var value := Accumulate(AccumulatorOf(name.tail), Times(quantity, HarmonicFactor(s, name.tail)));
    if value.NaN? then Measured(value, OwnStatus(name, x) + {UNDEFINED})
    else Measured(value, OwnStatus(name, x) + OwnRangeStatus(s, name, x, index))
  }

  /** The value is NaN exactly when the status says Undefined or Not available. */
  predicate Coherent(m: Measured) {
    m.value.NaN? <==> UNDEFINED in m.status || NOT_AVAILABLE in m.status
  }

  /** How a function is measured: answered outright, or concluded from the ratio of the two stored references. */
  datatype Plan = Answer(measured: Measured) | Ratio(conclude: Value -> Measured)

  /** `measure` up to the point where it calls itself. */
  function PlanOf(w: World, s: State, function_: string): (plan: Plan)
    ensures plan.Answer? ==> Coherent(plan.measured)
    ensures plan.Ratio? ==> forall v :: Coherent(plan.conclude(v))
  {
    var name := NameOf(function_);
    var early := EarlyAnswer(w, s, name);
    if early.Some? then Answer(early.value)
    else
      var phases := AggregatedPhases(name.suffix);
      var x := InputsOf(w, s, phases);
      var efficiency := Spelled(name.quantity, "POW", "POWER") && TailIs(CoreTail(name.tail), "EFF", "EFFICIENCY");
      if efficiency && s.power.efficiencyInput != "" && s.power.efficiencyOutput != "" then
        Ratio(v => Finish(s, name, x, phases[0], v))
      else
        match QuantityValue(w, s, name, x)
        case None => Answer(UNAVAILABLE)
        case Some(quantity) => Answer(Finish(s, name, x, phases[0], quantity))
  }

  /** `measure` for a given plan of every function, with its recursion cut off below `depth` nested calls;
      None when the cut is reached. */
  function Evaluate(plans: string -> Plan, input: string, output: string, function_: string, depth: nat): Option<Measured>
    decreases depth
  {
    if depth == 0 then None
    else
      match plans(function_)
      case Answer(measured) => Some(measured)
      case Ratio(conclude) =>
        var i := Evaluate(plans, input, output, input, depth - 1);
        var o := Evaluate(plans, input, output, output, depth - 1);
        if i.None? || o.None? then None else Some(conclude(Quotient(o.value.value, i.value.value)))
  }

  function Plans(w: World, s: State): string -> Plan { f => PlanOf(w, s, f) }

  function MeasureWithin(w: World, s: State, function_: string, depth: nat): Option<Measured> {
    Evaluate(Plans(w, s), s.power.efficiencyInput, s.power.efficiencyOutput, function_, depth)
  }

  /** What a function measures; None when the recursion never ends. Two levels are always enough to tell. */
  function Measure(w: World, s: State, function_: string): Option<Measured> {
    MeasureWithin(w, s, function_, 2)
  }

  // ------------------------------------------------------------------------ theorems

  /** `measure` calls itself for this function. */
  predicate Efficiency(w: World, s: State, function_: string) { Plans(w, s)(function_).Ratio? }

  lemma {:induction false} ReferenceDepth(plans: string -> Plan, input: string, output: string, function_: string, depth: nat)
    requires depth >= 1 && (function_ == input || function_ == output)
    ensures if plans(function_).Answer? then Evaluate(plans, input, output, function_, depth) == Some(plans(function_).measured)
            else Evaluate(plans, input, output, function_, depth).None?
    decreases depth
  {
    if plans(function_).Ratio? && depth > 1 {
      ReferenceDepth(plans, input, output, input, depth - 1);
      ReferenceDepth(plans, input, output, output, depth - 1);
    }
  }

  lemma EvaluateDepth(plans: string -> Plan, input: string, output: string, function_: string, depth: nat)
    requires depth >= 2
    ensures Evaluate(plans, input, output, function_, depth) == Evaluate(plans, input, output, function_, 2)
    ensures Evaluate(plans, input, output, function_, depth).None? <==>
            plans(function_).Ratio? && (plans(input).Ratio? || plans(output).Ratio?)
  {
    if plans(function_).Ratio? {
      ReferenceDepth(plans, input, output, input, depth - 1);
      ReferenceDepth(plans, input, output, output, depth - 1);
      ReferenceDepth(plans, input, output, input, 1);
      ReferenceDepth(plans, input, output, output, 1);
    }
  }

  /** The recursion is cut off, at every depth from two on, just when the function is an efficiency and one
      of the references is an efficiency again; otherwise every such depth gives the same answer. So
      `measure` ends, at most one level down, if and only if that is not the case. */
  lemma RecursionIsOneLevelOrEndless(w: World, s: State, function_: string, depth: nat)
    requires depth >= 2
    ensures MeasureWithin(w, s, function_, depth) == Measure(w, s, function_)
    ensures Measure(w, s, function_).None? <==>
            && Efficiency(w, s, function_)
            && (Efficiency(w, s, s.power.efficiencyInput) || Efficiency(w, s, s.power.efficiencyOutput))
  {
    EvaluateDepth(Plans(w, s), s.power.efficiencyInput, s.power.efficiencyOutput, function_, depth);
    EvaluateDepth(Plans(w, s), s.power.efficiencyInput, s.power.efficiencyOutput, function_, 2);
  }

  lemma EvaluateCoherent(plans: string -> Plan, input: string, output: string, function_: string, depth: nat)
    requires forall f :: plans(f).Answer? ==> Coherent(plans(f).measured)
    requires forall f, v :: plans(f).Ratio? ==> Coherent(plans(f).conclude(v))
    ensures Evaluate(plans, input, output, function_, depth).Some? ==>
              Coherent(Evaluate(plans, input, output, function_, depth).value)
  {}

  /** Every measurement that ends reports NaN exactly when its status says Undefined or Not available. */
  lemma NaNMeansUndefined(w: World, s: State, function_: string)
    requires Measure(w, s, function_).Some?
    ensures Measure(w, s, function_).value.value.NaN? <==>
            UNDEFINED in Measure(w, s, function_).value.status || NOT_AVAILABLE in Measure(w, s, function_).value.status
  {
    EvaluateCoherent(Plans(w, s), s.power.efficiencyInput, s.power.efficiencyOutput, function_, 2);
  }

  /** With nothing connected, or with synchronization off, no function reports a value of the signal:
      all that is left are the two times. */
  lemma UnsynchronizedIsUndefined(w: World, s: State, function_: string)
    requires !Synchronized(w, s) && !Spelled(NameOf(function_).quantity, "TIME", "TIME")
    ensures Measure(w, s, function_).Some? && Measure(w, s, function_).value.value.NaN?
  {
    EvaluateDepth(Plans(w, s), s.power.efficiencyInput, s.power.efficiencyOutput, function_, 2);
    assert PlanOf(w, s, function_) == Answer(EarlyAnswer(w, s, NameOf(function_)).value);
  }

  // ------------------------------------------------------------------ power triangle

  /** Cosine and sine lie on the unit circle. */
  ghost predicate OnUnitCircle(h: Host) {
    forall x :: h.cos(x) * h.cos(x) + h.sin(x) * h.sin(x) == 1.0
  }

  lemma SquareStrict(a: real, b: real)
    requires a > b >= 0.0
    ensures a * a > b * b
  {
    assert a * (a - b) > 0.0;
    assert b * (a - b) >= 0.0;
  }

  lemma SquareMonotone(a: real, b: real)
    requires b >= 0.0 && a * a <= b * b
    ensures a <= b
  {
    if a > b { SquareStrict(a, b); }
  }

  /** The projection of (p, q) on a unit vector is no longer than (p, q). */
  lemma Projection(p: real, q: real, s: real, c: real, n: real)
    requires p * p + q * q <= s * s && s >= 0.0 && c * c + n * n == 1.0
    ensures p * c + q * n <= s
  {
    var along, across := p * c + q * n, p * n - q * c;
    assert along * along + across * across == p * p + q * q by {
      Pythagoras(p, q, c, n);
    }
    assert across * across >= 0.0;
    SquareMonotone(along, s);
  }

  lemma Pythagoras(p: real, q: real, c: real, n: real)
    requires c * c + n * n == 1.0
    ensures (p * c + q * n) * (p * c + q * n) + (p * n - q * c) * (p * n - q * c) == p * p + q * q
  {
    var pc, qn, pn, qc := p * c, q * n, p * n, q * c;
    assert (pc + qn) * (pc + qn) == pc * pc + 2.0 * (pc * qn) + qn * qn;
    assert (pn - qc) * (pn - qc) == pn * pn - 2.0 * (pn * qc) + qc * qc;
    assert pc * qn == pn * qc;
    assert pc * pc == p * p * (c * c);
    assert pn * pn == p * p * (n * n);
    assert qn * qn == q * q * (n * n);
    assert qc * qc == q * q * (c * c);
    assert p * p * (c * c) + p * p * (n * n) == p * p * (c * c + n * n);
    assert q * q * (c * c) + q * q * (n * n) == q * q * (c * c + n * n);
  }

  lemma TriangleStep(p: real, q: real, s: real, a: real, c: real, n: real)
    requires p * p + q * q <= s * s && s >= 0.0 && a >= 0.0 && c * c + n * n == 1.0
    ensures (p + a * c) * (p + a * c) + (q + a * n) * (q + a * n) <= (s + a) * (s + a)
  {
    Projection(p, q, s, c, n);
    assert a * (p * c + q * n) <= a * s;
    assert (p + a * c) * (p + a * c) == p * p + 2.0 * (a * (p * c)) + a * a * (c * c);
    assert (q + a * n) * (q + a * n) == q * q + 2.0 * (a * (q * n)) + a * a * (n * n);
    assert a * a * (c * c) + a * a * (n * n) == a * a * (c * c + n * n);
    assert a * (p * c) + a * (q * n) == a * (p * c + q * n);
    assert (s + a) * (s + a) == s * s + 2.0 * (a * s) + a * a;
  }

  /** P^2 + Q^2 <= S^2. */
  predicate InTriangle(t: Totals) {
    t.apparent >= 0.0 && t.active * t.active + t.reactive * t.reactive <= t.apparent * t.apparent
  }

  lemma AddPhaseInTriangle(h: Host, t: Totals, s: PhaseSignal)
    requires OnUnitCircle(h) && InTriangle(t) && s.voltageRms >= 0.0 && s.currentRms >= 0.0
    ensures InTriangle(AddPhase(h, t, s))
  {
    var a := s.voltageRms * s.currentRms;
    assert a >= 0.0;
    TriangleStep(t.active, t.reactive, t.apparent, a, h.cos(Radians(s.phaseShift)), h.sin(Radians(s.phaseShift)));
  }

  /** For every aggregate of phases with non-negative RMS values, P^2 + Q^2 is at most S^2. */
  lemma {:induction false} PowerTriangle(w: World, phases: seq<int>)
    requires OnUnitCircle(w.host)
    requires forall i :: 0 <= i < |phases| ==> 1 <= phases[i] <= MAX_PHASE
    requires forall k :: 0 <= k < MAX_PHASE ==> w.signal.phases[k].voltageRms >= 0.0 && w.signal.phases[k].currentRms >= 0.0
    ensures InTriangle(TotalsOf(w, phases))
  {
    if phases != [] {
      var n := |phases| - 1;
      PowerTriangle(w, phases[..n]);
      AddPhaseInTriangle(w.host, TotalsOf(w, phases[..n]), w.signal.phases[phases[n] - 1]);
    }
  }

  /** A single phase attains the bound. */
  lemma SinglePhaseTriangle(w: World, phase: int)
    requires OnUnitCircle(w.host) && 1 <= phase <= MAX_PHASE
    ensures var t := TotalsOf(w, [phase]);
            t.active * t.active + t.reactive * t.reactive == t.apparent * t.apparent
  {
    assert [phase][..0] == [];
    var p := w.signal.phases[phase - 1];
    var a, c, n := p.voltageRms * p.currentRms, w.host.cos(Radians(p.phaseShift)), w.host.sin(Radians(p.phaseShift));
    assert TotalsOf(w, [phase]).active == a * c && TotalsOf(w, [phase]).reactive == a * n;
    assert (a * c) * (a * c) == a * a * (c * c);
    assert (a * n) * (a * n) == a * a * (n * n);
    assert a * a * (c * c) + a * a * (n * n) == a * a * (c * c + n * n);
  }

  /** So the power factor lies in [-1, 1], and the clamp in front of the arc cosine changes nothing. */
  lemma PowerFactorIsACosine(w: World, s: State, phases: seq<int>)
    requires OnUnitCircle(w.host) && phases != []
    requires forall i :: 0 <= i < |phases| ==> 1 <= phases[i] <= MAX_PHASE
    requires forall k :: 0 <= k < MAX_PHASE ==> w.signal.phases[k].voltageRms >= 0.0 && w.signal.phases[k].currentRms >= 0.0
    ensures var x := InputsOf(w, s, phases);
            -1.0 <= PowerFactor(x) <= 1.0 && Clamp(PowerFactor(x)) == PowerFactor(x)
  {
    PowerTriangle(w, phases);
    var t := TotalsOf(w, phases);
    if t.apparent != 0.0 {
      assert t.reactive * t.reactive >= 0.0;
      SquareMonotone(t.active, t.apparent);
      assert (-t.active) * (-t.active) == t.active * t.active;
      SquareMonotone(-t.active, t.apparent);
      DivisionBound(t.active, t.apparent);
    }
  }

  lemma ProductAbove(q: real, b: real)
    requires b > 0.0 && q > 1.0
    ensures q * b > b
  {}

  lemma DivisionBound(a: real, b: real)
    requires b > 0.0 && -b <= a <= b
    ensures -1.0 <= a / b <= 1.0
  {
    var q := a / b;
    assert q * b == a;
    if q > 1.0 { ProductAbove(q, b); }
    if q < -1.0 { ProductAbove(-q, b); }
  }
}
