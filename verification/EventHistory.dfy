/** The event registers over whole runs: which edges an EVENt part holds, and who gets to read them. */
module EventHistory {
  import opened Wrappers
  import opened Text
  import opened Decimal
  import opened Pattern
  import opened Commands
  import opened Instrument
  import opened Effects
  import opened CommandLine
  import opened Runs

  // --------------------------------------------------------- what a command does to a register

  datatype RegisterOp =
    | Keep
    | LatchAt(condition: Bits)
    | ReadAt(condition: Bits)
    | Clear
    | Reset
    | SetEnable(mask: int)
    | SetPositive(mask: int)
    | SetNegative(mask: int)

  function Apply(x: RegisterState, op: RegisterOp): RegisterState {
    match op
    case Keep => x
    case LatchAt(condition) => Latch(x, condition)
    case ReadAt(condition) => Latch(x, condition).(event := {})
    case Clear => x.(event := {})
    case Reset => DEFAULT_REGISTER
    case SetEnable(mask) => x.(enable := mask)
    case SetPositive(mask) => x.(ptransition := mask)
    case SetNegative(mask) => x.(ntransition := mask)
  }

  /** The value a mask command stores, if it stores one. */
  function MaskParameter(c: Command): Option<int> {
    match IntegerAccess(c, 0, 0, 65535)
    case Store(value) => Some(value)
    case _ => None
  }

  /** What a command that was carried out did to register `r`. */
  function OpOf(w: World, s: State, c: Command, r: Register): RegisterOp {
    match c.key
    case Common(Rst) => Reset
    case Common(Cls) => Clear
    case Common(Stb) => if r.Questionable? then LatchAt(ConditionOf(w, s, r)) else Keep
    case Status(addressed, part) =>
      if addressed != r then Keep
      else if part.Event? then ReadAt(ConditionOf(w, s, r))
      else if c.query || MaskParameter(c).None? then Keep
      else if part.Enable? then SetEnable(MaskParameter(c).value)
      else if part.PositiveTransition? then SetPositive(MaskParameter(c).value)
      else if part.NegativeTransition? then SetNegative(MaskParameter(c).value)
      else Keep
    case _ => Keep
  }

  ghost predicate StatusKept(s: State, effect: Effect) {
    effect.Done? ==> effect.state.status == s.status
  }

  lemma RangesKeepStatus(w: World, s: State, c: Command, voltage: bool, key: RangingKey)
    ensures StatusKept(s, RangingEffect(w, s, c, voltage, key)) && StatusKept(s, ApertureEffect(w, s, c))
  {
    hide NumberAccess, BooleanAccess, ParseNumber, SnapRange, RangingName, FormatSettings, Join, IntText, Unquote;
  }

  lemma RangingKeepsStatus(w: World, s: State, c: Command)
    requires c.key.Ranging? || c.key.Aperture? || c.key.SamplingFrequency?
    ensures StatusKept(s, EffectOf(w, s, c))
  {
    hide CommonEffect, RangingEffect, ApertureEffect,
         AbortEffect, RouteEffect, InputEffect, FunctionEffect, DataEffect, SweepEffect, SyncEffect, AcquisitionEffect,
         TriggerEffect, TransformEffect, SpectrumEffect, IntegralEffect,
         HarmonicOrderEffect, CorrectionEffect, ReferenceEffect, TraceEffect, FormatEffect, DisplayEffect, SystemEffect,
         StatusEffect, TimerEffect;
    RangesKeepStatus(w, s, c, c.key.Ranging? && c.key.voltage, if c.key.Ranging? then c.key.ranging else Scale);
  }

  lemma SenseKeepsStatus(w: World, s: State, c: Command)
    requires c.key.Functions? || c.key.Data? || c.key.Sweep?
    ensures StatusKept(s, EffectOf(w, s, c))
  {
    hide NumberAccess, IntegerAccess, BooleanAccess, FunctionListAccess, ListParameter, QuoteJoin, AsInt, IntText, Upper,
         MeasurementResponse, CommonEffect, AbortEffect, RouteEffect, InputEffect, RangingEffect, ApertureEffect,
         SyncEffect, AcquisitionEffect, TriggerEffect, TransformEffect, SpectrumEffect, IntegralEffect,
         HarmonicOrderEffect, CorrectionEffect, ReferenceEffect, TraceEffect, FormatEffect, DisplayEffect, SystemEffect,
         StatusEffect, TimerEffect;
  }

  lemma SpectrumKeepsStatus(w: World, s: State, c: Command)
    requires c.key.Transform? || c.key.Spectrum? || c.key.Trace?
    ensures StatusKept(s, EffectOf(w, s, c))
  {
    hide NumberAccess, IntegerAccess, BooleanAccess, KeywordAccess, FunctionListAccess, ReadWindow, BlockParameter,
         TraceResponse, Preamble, IntText, Join, FormatValues, FormatSettings, Window, Effects.Spectrum, Upper, Unquote,
         CommonEffect, AbortEffect, RouteEffect, InputEffect, RangingEffect, ApertureEffect, FunctionEffect,
         DataEffect, SweepEffect, SyncEffect, AcquisitionEffect, TriggerEffect, FormatEffect, DisplayEffect, SystemEffect,
         StatusEffect, IntegralEffect, HarmonicOrderEffect, CorrectionEffect, ReferenceEffect, TimerEffect;
  }

  lemma CalculateKeepsStatus(w: World, s: State, c: Command)
    requires c.key.Integral? || c.key.HarmonicOrder? || c.key.PowerCorrection? || c.key.EfficiencyReference? || c.key.Timer?
    ensures StatusKept(s, EffectOf(w, s, c))
  {
    hide NumberAccess, IntegerAccess, BooleanAccess, KeywordAccess, FunctionListAccess, ReadWindow, BlockParameter,
         TraceResponse, Preamble, IntText, Join, FormatValues, FormatSettings, Window, Effects.Spectrum, Upper, Unquote,
         CommonEffect, AbortEffect, RouteEffect, InputEffect, RangingEffect, ApertureEffect, FunctionEffect,
         DataEffect, SweepEffect, SyncEffect, AcquisitionEffect, TriggerEffect, FormatEffect, DisplayEffect, SystemEffect,
         StatusEffect, TransformEffect, SpectrumEffect, TraceEffect;
  }

  lemma InputKeepsStatus(w: World, s: State, c: Command)
    requires c.key.Abort? || c.key.RouteSystem? || c.key.Input?
    ensures StatusKept(s, EffectOf(w, s, c))
  {
    hide NumberAccess, IntegerAccess, BooleanAccess, KeywordAccess, ParseNumber, SyncSourceOf, CutOff, IntText,
         Upper, Unquote, CommonEffect, RangingEffect, ApertureEffect, FunctionEffect, DataEffect, SweepEffect, TriggerEffect,
         TransformEffect, SpectrumEffect, IntegralEffect, HarmonicOrderEffect, CorrectionEffect, ReferenceEffect,
         TraceEffect, FormatEffect, DisplayEffect, SystemEffect, StatusEffect, TimerEffect, SyncEffect, AcquisitionEffect;
  }

  lemma SyncKeepsStatus(w: World, s: State, c: Command)
    requires c.key.Sync? || c.key.Initiate?
    ensures StatusKept(s, EffectOf(w, s, c))
  {
    hide NumberAccess, IntegerAccess, BooleanAccess, KeywordAccess, ParseNumber, SyncSourceOf, CutOff, IntText,
         Upper, Unquote, CommonEffect, RangingEffect, ApertureEffect, FunctionEffect, DataEffect, SweepEffect, TriggerEffect,
         TransformEffect, SpectrumEffect, IntegralEffect, HarmonicOrderEffect, CorrectionEffect, ReferenceEffect,
         TraceEffect, FormatEffect, DisplayEffect, SystemEffect, StatusEffect, TimerEffect, AbortEffect, RouteEffect, InputEffect;
  }

  lemma OthersKeepStatus(w: World, s: State, c: Command)
    requires c.key.Trigger? || c.key.Format? || c.key.Display? || c.key.System?
    ensures StatusKept(s, EffectOf(w, s, c))
  {
    hide NumberAccess, IntegerAccess, BooleanAccess, KeywordAccess, FunctionListAccess, TextAccess, LengthParameter, ParseNumber,
         Upper, Unquote, CommonEffect, AbortEffect, RouteEffect, InputEffect, SyncEffect, AcquisitionEffect,
         RangingEffect, ApertureEffect, FunctionEffect, DataEffect, SweepEffect,
         TransformEffect, SpectrumEffect, IntegralEffect, HarmonicOrderEffect, CorrectionEffect, ReferenceEffect,
         TraceEffect, StatusEffect, TimerEffect;
  }

  /** A command that is carried out acts on a register as `OpOf` says, and an EVENt query answers what was latched. */
  ghost predicate Acts(w: World, s: State, c: Command, r: Register, effect: Effect) {
    effect.Done? ==>
      var x, op := s.status.Get(r), OpOf(w, s, c, r);
      && effect.state.status.Get(r) == Apply(x, op)
      && (op.ReadAt? ==> effect.response == Some(IntText(BitsValue(Latch(x, op.condition).event))))
  }

  lemma MaskedActs(w: World, s: State, c: Command, r: Register)
    requires c.key.Common? && (c.key.common.Ese? || c.key.common.Sre? || c.key.common.Sav? || c.key.common.Rcl?)
    ensures Acts(w, s, c, r, CommonEffect(w, s, c, c.key.common))
  {
    hide IntegerAccess, ConditionOf, BitsValue, QuoteJoin, IntText, Latch, StatusByteEffect, MaskParameter, ResetState, ClearedStatus;
  }

  lemma PlainActs(w: World, s: State, c: Command, r: Register)
    requires c.key.Common? && !(c.key.common.Ese? || c.key.common.Sre? || c.key.common.Sav? || c.key.common.Rcl?)
    ensures Acts(w, s, c, r, CommonEffect(w, s, c, c.key.common))
  {
    hide IntegerAccess, ConditionOf, BitsValue, QuoteJoin, IntText, Latch, StatusByte, MaskParameter;
  }

  lemma CommonActs(w: World, s: State, c: Command, r: Register)
    requires c.key.Common?
    ensures Acts(w, s, c, r, CommonEffect(w, s, c, c.key.common))
  {
    hide CommonEffect, OpOf, ConditionOf, Latch, BitsValue, IntText;
    if c.key.common.Ese? || c.key.common.Sre? || c.key.common.Sav? || c.key.common.Rcl? {
      MaskedActs(w, s, c, r);
    } else {
      PlainActs(w, s, c, r);
    }
  }

  /** The access of a mask command does not depend on the value it may replace. */
  lemma MaskAccess(c: Command, field: int)
    ensures var a := IntegerAccess(c, field, 0, 65535);
            && (a.Store? <==> MaskParameter(c).Some? && !c.query)
            && (a.Store? ==> a.value == MaskParameter(c).value)
            && (a.Report? <==> c.query)
  {
    hide ParseNumber, IntText, Unquote;
  }

  lemma EventPartActs(w: World, s: State, c: Command, r: Register, part: RegisterPart)
    requires c.key == Status(r, part) && (part.Condition? || part.Event?)
    ensures Acts(w, s, c, r, StatusEffect(w, s, c, r, part))
  {
    hide ConditionOf, BitsValue, IntText, Latch, IntegerAccess, RegisterName, MaskParameter;
  }

  lemma MaskPartActs(w: World, s: State, c: Command, r: Register, part: RegisterPart)
    requires c.key == Status(r, part) && !part.Condition? && !part.Event?
    ensures Acts(w, s, c, r, StatusEffect(w, s, c, r, part))
  {
    hide ConditionOf, BitsValue, IntText, Latch, IntegerAccess, RegisterName, MaskParameter;
    var x := s.status.Get(r);
    MaskAccess(c, x.enable);
    MaskAccess(c, x.ptransition);
    MaskAccess(c, x.ntransition);
  }

  /** A register that is not addressed is left alone. */
  lemma OtherRegisterKept(w: World, s: State, c: Command, addressed: Register, part: RegisterPart, r: Register)
    requires addressed != r
    ensures var e := StatusEffect(w, s, c, addressed, part); e.Done? ==> e.state.status.Get(r) == s.status.Get(r)
  {
    hide ConditionOf, BitsValue, IntText, Latch, IntegerAccess, RegisterName;
  }

  lemma StatusActs(w: World, s: State, c: Command, r: Register)
    requires c.key.Status?
    ensures Acts(w, s, c, r, StatusEffect(w, s, c, c.key.register, c.key.part))
  {
    hide ConditionOf, BitsValue, IntText, Latch, IntegerAccess, RegisterName, MaskParameter, StatusEffect;
    if c.key.register != r {
      OtherRegisterKept(w, s, c, c.key.register, c.key.part, r);
    } else if c.key.part.Condition? || c.key.part.Event? {
      EventPartActs(w, s, c, r, c.key.part);
    } else {
      MaskPartActs(w, s, c, r, c.key.part);
    }
  }

  lemma CommandActs(w: World, s: State, c: Command, r: Register)
    ensures Acts(w, s, c, r, EffectOf(w, s, c))
  {
    hide CommonEffect, AbortEffect, RouteEffect, InputEffect, RangingEffect, ApertureEffect, FunctionEffect, DataEffect,
         SweepEffect, SyncEffect, AcquisitionEffect, TriggerEffect, TransformEffect, SpectrumEffect, IntegralEffect,
         HarmonicOrderEffect, CorrectionEffect, ReferenceEffect, TraceEffect, FormatEffect, DisplayEffect, SystemEffect,
         StatusEffect, TimerEffect, ConditionOf, Latch, IntegerAccess;
    match c.key
    case Common(_) => CommonActs(w, s, c, r);
    case Status(_, _) => StatusActs(w, s, c, r);
    case _ =>
      if c.key.Ranging? || c.key.Aperture? || c.key.SamplingFrequency? {
        RangingKeepsStatus(w, s, c);
      } else if c.key.Functions? || c.key.Data? || c.key.Sweep? {
        SenseKeepsStatus(w, s, c);
      } else if c.key.Abort? || c.key.RouteSystem? || c.key.Input? {
        InputKeepsStatus(w, s, c);
      } else if c.key.Sync? || c.key.Initiate? {
        SyncKeepsStatus(w, s, c);
      } else if c.key.Trigger? || c.key.Format? || c.key.Display? || c.key.System? {
        OthersKeepStatus(w, s, c);
      } else if c.key.Transform? || c.key.Spectrum? || c.key.Trace? {
        SpectrumKeepsStatus(w, s, c);
      } else {
        CalculateKeepsStatus(w, s, c);
      }
  }

  // ------------------------------------------------------------------- the history of a register

  function ApplyAll(x: RegisterState, ops: seq<RegisterOp>): RegisterState
    decreases |ops|
  {
    if ops == [] then x else ApplyAll(Apply(x, ops[0]), ops[1..])
  }

  /** What the commands of a line did to register `r`, in order. */
  function LineOps(w: World, s: State, pieces: seq<string>, path: seq<Token>, r: Register): seq<RegisterOp>
    decreases |pieces|
  {
    if pieces == [] then []
    else
      var text := Trim(pieces[0]);
      if text == "" then LineOps(w, s, pieces[1..], path, r)
      else
        var request := RequestFor(w.specs, text, path);
        match Perform(w, s, request)
        case Done(after, _) =>
          [if request.Known? then OpOf(w, s, request.command, r) else Keep]
          + LineOps(w, after, pieces[1..], NextPath(text, path), r)
        case _ => []
  }

  function StepOps(w: World, s: State, step: Step, r: Register): seq<RegisterOp> {
    LineOps(w.(signal := step.signal), s, Split(Outside, step.line, ';'), [], r)
  }

  function History(w: World, s: State, steps: seq<Step>, r: Register): seq<RegisterOp>
    decreases |steps|
  {
    if steps == [] then [] else StepOps(w, s, steps[0], r) + History(w, After(w, s, steps[0]), steps[1..], r)
  }

  lemma {:induction false} ApplyConcat(x: RegisterState, a: seq<RegisterOp>, b: seq<RegisterOp>)
    ensures ApplyAll(x, a + b) == ApplyAll(ApplyAll(x, a), b)
    decreases |a|
  {
    hide Apply;
    if a == [] {
      assert a + b == b;
    } else {
      assert (a + b)[0] == a[0] && (a + b)[1..] == a[1..] + b;
      ApplyConcat(Apply(x, a[0]), a[1..], b);
    }
  }

  lemma {:induction false} PiecesAct(w: World, s: State, pieces: seq<string>, path: seq<Token>, r: Register)
    ensures RunPieces(Simulator(w), s, pieces, path).state.status.Get(r)
            == ApplyAll(s.status.Get(r), LineOps(w, s, pieces, path, r))
    decreases |pieces|
  {
    hide EffectOf, OpOf, Apply, RequestFor, NextPath;
    if pieces != [] {
      var text := Trim(pieces[0]);
      if text == "" {
        PiecesAct(w, s, pieces[1..], path, r);
      } else {
        var request := RequestFor(w.specs, text, path);
        var effect := Perform(w, s, request);
        if effect.Done? {
          CommandActs(w, s, request.command, r);
          PiecesAct(w, effect.state, pieces[1..], NextPath(text, path), r);
          var rest := LineOps(w, effect.state, pieces[1..], NextPath(text, path), r);
          assert ([OpOf(w, s, request.command, r)] + rest)[1..] == rest;
        }
      }
    }
  }

  /** In every run a register is what its history makes of it. */
  lemma {:induction false} RunActs(w: World, s: State, steps: seq<Step>, r: Register)
    ensures Run(w, s, steps).status.Get(r) == ApplyAll(s.status.Get(r), History(w, s, steps, r))
    decreases |steps|
  {
    hide EffectOf, RunPieces, LineOps, Apply;
    if steps != [] {
      PiecesAct(w.(signal := steps[0].signal), s, Split(Outside, steps[0].line, ';'), [], r);
      RunActs(w, After(w, s, steps[0]), steps[1..], r);
      ApplyConcat(s.status.Get(r), StepOps(w, s, steps[0], r), History(w, After(w, s, steps[0]), steps[1..], r));
    }
  }

  // ----------------------------------------------------------------------- edges and their readers

  predicate Latches(op: RegisterOp) { op.LatchAt? || op.ReadAt? }

  predicate Clears(op: RegisterOp) { op.ReadAt? || op.Clear? || op.Reset? }

  /** The condition seen at the last latch point before the n-th operation. */
  function PreviousAt(x: RegisterState, ops: seq<RegisterOp>, n: nat): Bits
    requires n <= |ops|
  {
    if n == 0 then x.previousCondition
    else if Latches(ops[n - 1]) then ops[n - 1].condition
    else if ops[n - 1].Reset? then {}
    else PreviousAt(x, ops, n - 1)
  }

  /** The transition masks in force at the n-th operation. */
  function PositiveAt(x: RegisterState, ops: seq<RegisterOp>, n: nat): int
    requires n <= |ops|
  {
    if n == 0 then x.ptransition
    else if ops[n - 1].SetPositive? then ops[n - 1].mask
    else if ops[n - 1].Reset? then 0xFFFF
    else PositiveAt(x, ops, n - 1)
  }

  function NegativeAt(x: RegisterState, ops: seq<RegisterOp>, n: nat): int
    requires n <= |ops|
  {
    if n == 0 then x.ntransition
    else if ops[n - 1].SetNegative? then ops[n - 1].mask
    else if ops[n - 1].Reset? then 0
    else NegativeAt(x, ops, n - 1)
  }

  /** The edges the i-th operation saw and its masks selected: a mask selects the bits its number has. */
  function EdgesAt(x: RegisterState, ops: seq<RegisterOp>, i: nat): Bits
    requires i < |ops| && Latches(ops[i])
  {
    var previous, condition := PreviousAt(x, ops, i), ops[i].condition;
    (set b: nat | b in condition && b !in previous && b < 16 && Bit(PositiveAt(x, ops, i), b))
    + (set b: nat | b in previous && b !in condition && b < 16 && Bit(NegativeAt(x, ops, i), b))
  }

  lemma EdgesAreMasked(x: RegisterState, ops: seq<RegisterOp>, i: nat)
    requires i < |ops| && Latches(ops[i])
    ensures var previous, condition := PreviousAt(x, ops, i), ops[i].condition;
            EdgesAt(x, ops, i) ==
            (condition - previous) * Mask(PositiveAt(x, ops, i)) + (previous - condition) * Mask(NegativeAt(x, ops, i))
  {
    hide Mask, Bit, PreviousAt, PositiveAt, NegativeAt;
    forall b: nat
      ensures b in Mask(PositiveAt(x, ops, i)) <==> b < 16 && Bit(PositiveAt(x, ops, i), b)
      ensures b in Mask(NegativeAt(x, ops, i)) <==> b < 16 && Bit(NegativeAt(x, ops, i), b)
    {
      MaskHasBit(PositiveAt(x, ops, i), b);
      MaskHasBit(NegativeAt(x, ops, i), b);
    }
  }

  predicate Uncleared(ops: seq<RegisterOp>, i: nat, j: nat)
    requires j <= |ops|
  {
    forall k :: i <= k < j ==> !Clears(ops[k])
  }

  /** The edges of latch point `i` are still held when the j-th operation is reached. */
  predicate Held(ops: seq<RegisterOp>, i: nat, j: nat)
    requires j <= |ops|
  {
    i < j && Latches(ops[i]) && Uncleared(ops, i, j)
  }

  /** A bit of the history: latched since the last clear, or set from the start. */
  ghost predicate InHistory(x: RegisterState, ops: seq<RegisterOp>, n: nat, b: nat)
    requires n <= |ops|
  {
    || (exists i: nat :: Held(ops, i, n) && b in EdgesAt(x, ops, i))
    || (b in x.event && Uncleared(ops, 0, n))
  }

  lemma {:induction false} MasksAt(x: RegisterState, ops: seq<RegisterOp>, n: nat)
    requires n <= |ops|
    ensures var y := ApplyAll(x, ops[..n]);
            && y.previousCondition == PreviousAt(x, ops, n)
            && y.ptransition == PositiveAt(x, ops, n)
            && y.ntransition == NegativeAt(x, ops, n)
  {
    hide Mask;
    if n > 0 {
      MasksAt(x, ops, n - 1);
      ApplyOneMore(x, ops, n - 1);
    }
  }

  lemma ApplyOneMore(x: RegisterState, ops: seq<RegisterOp>, n: nat)
    requires n < |ops|
    ensures ApplyAll(x, ops[..n + 1]) == Apply(ApplyAll(x, ops[..n]), ops[n])
  {
    hide Apply;
    assert ops[..n + 1] == ops[..n] + [ops[n]];
    ApplyConcat(x, ops[..n], [ops[n]]);
    assert [ops[n]][1..] == [];
  }

  /** Every EVENt part is the union, over the latch points since it was last cleared, of the edges selected
      by the transition masks in force at each of them. */
  lemma {:induction false} EventIsUnionOfEdges(x: RegisterState, ops: seq<RegisterOp>, n: nat, b: nat)
    requires n <= |ops|
    ensures b in ApplyAll(x, ops[..n]).event <==> InHistory(x, ops, n, b)
  {
    hide Mask, EdgesAt;
    if n > 0 {
      EventIsUnionOfEdges(x, ops, n - 1, b);
      ApplyOneMore(x, ops, n - 1);
      MasksAt(x, ops, n - 1);
      if Latches(ops[n - 1]) { EdgesAreMasked(x, ops, n - 1); }
      HistoryStep(x, ops, n - 1, b);
    }
  }

  /** The history grows by the edges of one more operation, or starts over. */
  lemma HistoryStep(x: RegisterState, ops: seq<RegisterOp>, n: nat, b: nat)
    requires n < |ops|
    ensures InHistory(x, ops, n + 1, b) <==>
            !Clears(ops[n]) && (InHistory(x, ops, n, b) || (Latches(ops[n]) && b in EdgesAt(x, ops, n)))
  {
    hide EdgesAt;
    if !Clears(ops[n]) {
      assert Uncleared(ops, 0, n + 1) <==> Uncleared(ops, 0, n);
      assert forall i: nat :: i < n ==> (Held(ops, i, n + 1) <==> Held(ops, i, n));
      assert Held(ops, n, n + 1) <==> Latches(ops[n]);
    } else {
      assert forall i: nat {:trigger Held(ops, i, n + 1)} :: !Held(ops, i, n + 1);
    }
  }

  /** What the EVENt query at position `j` answers. */
  function Answer(x: RegisterState, ops: seq<RegisterOp>, j: nat): Bits
    requires j < |ops| && ops[j].ReadAt?
  {
    Latch(ApplyAll(x, ops[..j]), ops[j].condition).event
  }

  /** The edges of latch point `i` are in the answer of the EVENt query at `j`. */
  predicate ReportedBy(ops: seq<RegisterOp>, i: nat, j: nat)
    requires j < |ops|
  {
    ops[j].ReadAt? && (i == j || Held(ops, i, j))
  }

  /** An EVENt query answers exactly the edges latched since the clear before it, its own latch included. */
  lemma AnswerIsUnionOfEdges(x: RegisterState, ops: seq<RegisterOp>, j: nat, b: nat)
    requires j < |ops| && ops[j].ReadAt?
    ensures b in Answer(x, ops, j) <==>
            || (exists i: nat :: i < |ops| && ReportedBy(ops, i, j) && b in EdgesAt(x, ops, i))
            || (b in x.event && Uncleared(ops, 0, j))
  {
    hide Mask, EdgesAt;
    EventIsUnionOfEdges(x, ops, j, b);
    MasksAt(x, ops, j);
    EdgesAreMasked(x, ops, j);
    assert ReportedBy(ops, j, j);
    assert forall i: nat :: i < j ==> (ReportedBy(ops, i, j) <==> Held(ops, i, j));
  }

  /** Every edge is reported by exactly one EVENt query - the first clearing operation at or after its latch
      point, unless that is a *CLS or *RST - and a *STB? in between loses none. */
  lemma EdgeIsReportedOnce(x: RegisterState, ops: seq<RegisterOp>, i: nat, j: nat, b: nat)
    requires i <= j < |ops| && Latches(ops[i]) && b in EdgesAt(x, ops, i)
    requires Uncleared(ops, i, j) && Clears(ops[j])
    ensures ops[j].ReadAt? ==> b in Answer(x, ops, j)
    ensures forall k: nat :: k < |ops| && ReportedBy(ops, i, k) ==> k == j
  {
    hide EdgesAt, Latch;
    if ops[j].ReadAt? {
      assert ReportedBy(ops, i, j);
      AnswerIsUnionOfEdges(x, ops, j, b);
    }
  }

  /** The theorem for runs: from any state, after any lines and signals. */
  lemma EventInEveryRun(w: World, s: State, steps: seq<Step>, r: Register, b: nat)
    ensures var ops := History(w, s, steps, r);
            b in Run(w, s, steps).status.Get(r).event <==> InHistory(s.status.Get(r), ops, |ops|, b)
  {
    hide Run, History, InHistory;
    var ops := History(w, s, steps, r);
    RunActs(w, s, steps, r);
    EventIsUnionOfEdges(s.status.Get(r), ops, |ops|, b);
    assert ops[..|ops|] == ops;
  }

  // ------------------------------------------------------------------------ what the queries print

  /** What each command of a line that was carried out responded, in step with `LineOps`. */
  function LineAnswers(w: World, s: State, pieces: seq<string>, path: seq<Token>): seq<Option<string>>
    decreases |pieces|
  {
    if pieces == [] then []
    else
      var text := Trim(pieces[0]);
      if text == "" then LineAnswers(w, s, pieces[1..], path)
      else
        match Perform(w, s, RequestFor(w.specs, text, path))
        case Done(after, response) => [response] + LineAnswers(w, after, pieces[1..], NextPath(text, path))
        case _ => []
  }

  function StepAnswers(w: World, s: State, step: Step): seq<Option<string>> {
    LineAnswers(w.(signal := step.signal), s, Split(Outside, step.line, ';'), [])
  }

  /** The same for a run, in step with `History`. */
  function RunAnswers(w: World, s: State, steps: seq<Step>): seq<Option<string>>
    decreases |steps|
  {
    if steps == [] then [] else StepAnswers(w, s, steps[0]) + RunAnswers(w, After(w, s, steps[0]), steps[1..])
  }

  function Gathered(answers: seq<Option<string>>): seq<string> {
    if answers == [] then [] else Listed(answers[0]) + Gathered(answers[1..])
  }

  /** These are the responses the line prints. */
  lemma {:induction false} AnswersArePrinted(w: World, s: State, pieces: seq<string>, path: seq<Token>)
    ensures Gathered(LineAnswers(w, s, pieces, path)) == RunPieces(Simulator(w), s, pieces, path).responses
    decreases |pieces|
  {
    hide EffectOf, RequestFor, NextPath, PushError, Perform, Trim;
    if pieces != [] {
      var text := Trim(pieces[0]);
      if text == "" {
        AnswersArePrinted(w, s, pieces[1..], path);
      } else {
        var effect := Perform(w, s, RequestFor(w.specs, text, path));
        if effect.Done? {
          AnswersArePrinted(w, effect.state, pieces[1..], NextPath(text, path));
          var rest := LineAnswers(w, effect.state, pieces[1..], NextPath(text, path));
          assert ([effect.response] + rest)[1..] == rest;
        }
      }
    }
  }

  /** The text of an EVENt answer. */
  function Printed(x: RegisterState, ops: seq<RegisterOp>, j: nat): string
    requires j < |ops| && ops[j].ReadAt?
  {
    IntText(BitsValue(Answer(x, ops, j)))
  }

  /** Every EVENt query among the operations was answered with the text of its answer. */
  ghost predicate Prints(x: RegisterState, ops: seq<RegisterOp>, answers: seq<Option<string>>) {
    |answers| == |ops| && forall j :: 0 <= j < |ops| && ops[j].ReadAt? ==> answers[j] == Some(Printed(x, ops, j))
  }

  lemma AnswerBehind(x: RegisterState, a: seq<RegisterOp>, b: seq<RegisterOp>, j: nat)
    requires j < |b| && b[j].ReadAt?
    ensures (a + b)[|a| + j] == b[j] && Answer(x, a + b, |a| + j) == Answer(ApplyAll(x, a), b, j)
  {
    hide Apply, Latch;
    assert (a + b)[..|a| + j] == a + b[..j];
    ApplyConcat(x, a, b[..j]);
  }

  lemma AnswerBefore(x: RegisterState, a: seq<RegisterOp>, b: seq<RegisterOp>, j: nat)
    requires j < |a| && a[j].ReadAt?
    ensures (a + b)[j] == a[j] && Answer(x, a + b, j) == Answer(x, a, j)
  {
    assert (a + b)[..j] == a[..j];
  }

  lemma PrintsConcat(x: RegisterState, a: seq<RegisterOp>, p: seq<Option<string>>, b: seq<RegisterOp>, q: seq<Option<string>>)
    requires Prints(x, a, p) && Prints(ApplyAll(x, a), b, q)
    ensures Prints(x, a + b, p + q)
  {
    hide Answer, ApplyAll, IntText, BitsValue;
    var ops, answers := a + b, p + q;
    forall j | 0 <= j < |ops| && ops[j].ReadAt? ensures answers[j] == Some(Printed(x, ops, j)) {
      if j < |a| {
        AnswerBefore(x, a, b, j);
        assert answers[j] == p[j];
      } else {
        AnswerBehind(x, a, b, j - |a|);
        assert answers[j] == q[j - |a|];
      }
    }
  }

  /** One command that was carried out. */
  lemma CommandPrints(w: World, s: State, c: Command, r: Register)
    requires EffectOf(w, s, c).Done?
    ensures Prints(s.status.Get(r), [OpOf(w, s, c, r)], [EffectOf(w, s, c).response])
    ensures ApplyAll(s.status.Get(r), [OpOf(w, s, c, r)]) == EffectOf(w, s, c).state.status.Get(r)
  {
    hide EffectOf, OpOf, Latch, Apply, IntText, BitsValue;
    CommandActs(w, s, c, r);
    var x, ops := s.status.Get(r), [OpOf(w, s, c, r)];
    assert ops[1..] == [] && ops[..0] == [];
    assert ApplyAll(x, ops[..0]) == x;
  }

  lemma {:induction false} LinePrints(w: World, s: State, pieces: seq<string>, path: seq<Token>, r: Register)
    ensures Prints(s.status.Get(r), LineOps(w, s, pieces, path, r), LineAnswers(w, s, pieces, path))
    decreases |pieces|
  {
    hide EffectOf, OpOf, Apply, RequestFor, NextPath, Prints, Trim, ApplyAll, Answer;
    if pieces == [] {
      NothingPrints(s.status.Get(r));
    } else {
      var text := Trim(pieces[0]);
      if text == "" {
        LinePrints(w, s, pieces[1..], path, r);
      } else {
        var request := RequestFor(w.specs, text, path);
        var effect := Perform(w, s, request);
        if effect.Done? {
          CommandPrints(w, s, request.command, r);
          LinePrints(w, effect.state, pieces[1..], NextPath(text, path), r);
          PrintsConcat(s.status.Get(r), [OpOf(w, s, request.command, r)], [effect.response],
                       LineOps(w, effect.state, pieces[1..], NextPath(text, path), r),
                       LineAnswers(w, effect.state, pieces[1..], NextPath(text, path)));
        } else {
          NothingPrints(s.status.Get(r));
        }
      }
    }
  }

  lemma NothingPrints(x: RegisterState) ensures Prints(x, [], []) {}

  /** In every run, each EVENt query prints the number of exactly the edges its history gives it. */
  lemma {:induction false} EventQueriesPrint(w: World, s: State, steps: seq<Step>, r: Register)
    ensures Prints(s.status.Get(r), History(w, s, steps, r), RunAnswers(w, s, steps))
    decreases |steps|
  {
    hide EffectOf, LineOps, LineAnswers, Apply, Prints, ApplyAll, RunPieces;
    if steps == [] {
      NothingPrints(s.status.Get(r));
    } else {
      var at, pieces := w.(signal := steps[0].signal), Split(Outside, steps[0].line, ';');
      LinePrints(at, s, pieces, [], r);
      PiecesAct(at, s, pieces, [], r);
      EventQueriesPrint(w, After(w, s, steps[0]), steps[1..], r);
      PrintsConcat(s.status.Get(r), StepOps(w, s, steps[0], r), StepAnswers(w, s, steps[0]),
                   History(w, After(w, s, steps[0]), steps[1..], r), RunAnswers(w, After(w, s, steps[0]), steps[1..]));
    }
  }

  /** A printed number tells the bits below 16, where all edges are. */
  lemma PrintedDetermines(a: Bits, b: Bits)
    ensures IntText(BitsValue(a)) == IntText(BitsValue(b)) ==> forall i :: 0 <= i < 16 ==> (i in a <==> i in b)
  {
    hide IntText, BitsValue, Strtol;
    StrtolOfIntText(BitsValue(a), "");
    StrtolOfIntText(BitsValue(b), "");
    if BitsValue(a) == BitsValue(b) { ValueDeterminesBits(a, b, 16); }
  }

  lemma EdgesAreBelow16(x: RegisterState, ops: seq<RegisterOp>, i: nat, b: nat)
    requires i < |ops| && Latches(ops[i]) && b in EdgesAt(x, ops, i)
    ensures b < 16
  {}

  /** So in every run an edge is printed exactly once: by the EVENt query that is the first clearing operation at or
      after its latch point, in a number only sets with that bit print as, and by no other. */
  lemma EdgeIsPrintedOnce(w: World, s: State, steps: seq<Step>, r: Register, i: nat, j: nat, b: nat)
    requires var x, ops := s.status.Get(r), History(w, s, steps, r);
             && i <= j < |ops| && Latches(ops[i]) && b in EdgesAt(x, ops, i) && Uncleared(ops, i, j) && Clears(ops[j])
    ensures var ops, answers := History(w, s, steps, r), RunAnswers(w, s, steps);
            && |answers| == |ops|
            && (ops[j].ReadAt? ==> answers[j].Some? && forall bits: Bits :: answers[j].value == IntText(BitsValue(bits)) ==> b in bits)
            && forall k: nat :: k < |ops| && ReportedBy(ops, i, k) ==> k == j
  {
    hide History, RunAnswers, EdgesAt, Answer, IntText, BitsValue;
    var x, ops := s.status.Get(r), History(w, s, steps, r);
    EventQueriesPrint(w, s, steps, r);
    EdgesAreBelow16(x, ops, i, b);
    EdgeIsReportedOnce(x, ops, i, j, b);
    if ops[j].ReadAt? {
      forall bits: Bits | IntText(BitsValue(Answer(x, ops, j))) == IntText(BitsValue(bits)) ensures b in bits {
        PrintedDetermines(Answer(x, ops, j), bits);
      }
    }
  }
}
