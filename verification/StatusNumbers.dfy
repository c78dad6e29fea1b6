/** The status system in the numbers its queries print: which bits are set, in terms of the bits of the masks and
    registers that can be read, the signal and the settings. */
module StatusNumbers {
  import opened Wrappers
  import opened Text
  import opened Decimal
  import opened Commands
  import opened Instrument
  import opened Measurement
  import opened Effects
  import opened CommandLine
  import opened Rejections
  import opened Runs
  import opened EventHistory

  /** The query answers with this number. */
  predicate Answers(w: World, s: State, key: Key, n: nat) {
    var e := EffectOf(w, s, Command(key, [], true, []));
    e.Done? && e.response == Some(IntText(n))
  }

  lemma PrintedOnce(a: int, b: int)
    requires IntText(a) == IntText(b)
    ensures a == b
  {
    hide IntText, Strtol;
    assert IntText(a) + "" == IntText(a);
    StrtolOfIntText(a, "");
    StrtolOfIntText(b, "");
  }

  // ------------------------------------------------------------------------- masks and registers

  lemma RegisterQuery(w: World, s: State, r: Register, part: RegisterPart)
    ensures EffectOf(w, s, Command(Status(r, part), [], true, [])) == StatusEffect(w, s, Command(Status(r, part), [], true, []), r, part)
  {
    hide StatusEffect;
  }

  /** What the mask queries of a register print is what is stored. */
  lemma MasksArePrinted(w: World, s: State, r: Register, n: nat)
    ensures Answers(w, s, Status(r, Enable), n) ==> s.status.Get(r).enable == n
    ensures Answers(w, s, Status(r, PositiveTransition), n) ==> s.status.Get(r).ptransition == n
    ensures Answers(w, s, Status(r, NegativeTransition), n) ==> s.status.Get(r).ntransition == n
  {
    hide EffectOf, IntText;
    var x := s.status.Get(r);
    RegisterQuery(w, s, r, Enable);
    RegisterQuery(w, s, r, PositiveTransition);
    RegisterQuery(w, s, r, NegativeTransition);
    if Answers(w, s, Status(r, Enable), n) { PrintedOnce(n, x.enable); }
    if Answers(w, s, Status(r, PositiveTransition), n) { PrintedOnce(n, x.ptransition); }
    if Answers(w, s, Status(r, NegativeTransition), n) { PrintedOnce(n, x.ntransition); }
  }

  /** In every run, the masks by which the history selects edges are the numbers their queries print. */
  lemma HistoryMasksArePrinted(w: World, s: State, steps: seq<Step>, r: Register, n: nat)
    ensures var x, ops, after := s.status.Get(r), History(w, s, steps, r), Run(w, s, steps);
            && (Answers(w, after, Status(r, PositiveTransition), n) ==> PositiveAt(x, ops, |ops|) == n)
            && (Answers(w, after, Status(r, NegativeTransition), n) ==> NegativeAt(x, ops, |ops|) == n)
  {
    hide Run, History, Answers, Apply;
    var x, ops := s.status.Get(r), History(w, s, steps, r);
    RunActs(w, s, steps, r);
    MasksAt(x, ops, |ops|);
    assert ops[..|ops|] == ops;
    MasksArePrinted(w, Run(w, s, steps), r, n);
  }

  /** A printed set of bits has just these bits. */
  lemma PrintedBits(n: nat, bits: Bits, i: nat)
    requires IntText(n) == IntText(BitsValue(bits))
    ensures Bit(n, i) <==> i in bits && i < 16
  {
    hide IntText, BitsValue, Bit;
    PrintedOnce(n, BitsValue(bits));
    ValueHasBit(bits, i);
  }

  lemma LatchedBit(x: RegisterState, current: Bits, i: nat)
    requires i < 16
    ensures i in Latch(x, current).event <==>
            || i in x.event
            || (i in current && i !in x.previousCondition && Bit(x.ptransition, i))
            || (i !in current && i in x.previousCondition && Bit(x.ntransition, i))
  {
    hide Mask, Bit;
    MaskHasBit(x.ptransition, i);
    MaskHasBit(x.ntransition, i);
  }

  /** The EVENt query in printed numbers: a bit of its answer is one held before, or an edge since the condition was last
      seen that the transition mask has the bit of. */
  lemma EventBits(w: World, s: State, r: Register, n: nat, condition: nat, positive: nat, negative: nat, i: nat)
    requires Answers(w, s, Status(r, Event), n) && Answers(w, s, Status(r, Condition), condition)
    requires Answers(w, s, Status(r, PositiveTransition), positive) && Answers(w, s, Status(r, NegativeTransition), negative)
    requires i < 16
    ensures var x := s.status.Get(r);
            Bit(n, i) <==>
            || i in x.event
            || (Bit(condition, i) && i !in x.previousCondition && Bit(positive, i))
            || (!Bit(condition, i) && i in x.previousCondition && Bit(negative, i))
  {
    hide EffectOf, IntText, BitsValue, Bit, ConditionOf, Latch;
    var x, current := s.status.Get(r), ConditionOf(w, s, r);
    RegisterQuery(w, s, r, Event);
    RegisterQuery(w, s, r, Condition);
    assert Answers(w, s, Status(r, PositiveTransition), positive) && Answers(w, s, Status(r, NegativeTransition), negative);
    MasksArePrinted(w, s, r, positive);
    MasksArePrinted(w, s, r, negative);
    PrintedBits(n, Latch(x, current).event, i);
    PrintedBits(condition, current, i);
    LatchedBit(x, current, i);
  }

  // ------------------------------------------------------------------------------ the conditions

  /** The CONDition part of the operation register, from the signal and the settings. */
  lemma OperationBits(w: World, s: State, n: nat, i: nat)
    requires Answers(w, s, Status(Operation, Condition), n)
    ensures Bit(n, i) <==>
            || (i == 3 && (s.sweep[1].enabled || s.sweep[2].enabled))
            || (i in {8, 9} && w.signal.present && s.sync.enabled)
            || (i == 10 && (s.continuous || s.initiated))
  {
    hide EffectOf, IntText, BitsValue, Bit;
    RegisterQuery(w, s, Operation, Condition);
    PrintedBits(n, ConditionOf(w, s, Operation), i);
  }

  /** Autorange is off, and the input is above the range in use. */
  predicate Above(config: ChannelConfig, raw: real) { !config.autorange && raw > config.range }

  /** Autorange is off, and the input is below 5 % of the range in use, but not above it. */
  predicate Beneath(config: ChannelConfig, raw: real) { !config.autorange && raw <= config.range && raw < config.range * 0.05 }

  lemma ChannelBit(w: World, s: State, voltage: bool, i: nat)
    ensures i in ChannelBits(w, s, voltage) <==>
            || (i < 6 && (if voltage then Above(s.sense.voltage[i + 1], w.signal.phases[i].voltageRms)
                          else Above(s.sense.current[i + 1], w.signal.phases[i].currentRms)))
            || (8 <= i < 14 && (if voltage then Beneath(s.sense.voltage[i - 7], w.signal.phases[i - 8].voltageRms)
                                else Beneath(s.sense.current[i - 7], w.signal.phases[i - 8].currentRms)))
  {
    if i < 6 { ChannelStatus(ConfigOf(s, voltage, i + 1), RawOf(w, voltage, i + 1)); }
    if 8 <= i < 14 { ChannelStatus(ConfigOf(s, voltage, i - 7), RawOf(w, voltage, i - 7)); }
  }

  lemma ChannelStatus(config: ChannelConfig, raw: real)
    ensures RangeStatus(config, raw) == {OVERRANGE} <==> Above(config, raw)
    ensures RangeStatus(config, raw) == {UNDERRANGE} <==> Beneath(config, raw)
  {
    assert OVERRANGE in {OVERRANGE} && OVERRANGE !in {UNDERRANGE};
  }

  /** The CONDition parts of the voltage and current registers: bit p-1 for phase p overranged, bit p+7 underranged. */
  lemma ChannelConditionBits(w: World, s: State, voltage: bool, n: nat, i: nat)
    requires Answers(w, s, Status(if voltage then QuestionableVoltage else QuestionableCurrent, Condition), n)
    ensures Bit(n, i) <==>
            || (i < 6 && (if voltage then Above(s.sense.voltage[i + 1], w.signal.phases[i].voltageRms)
                          else Above(s.sense.current[i + 1], w.signal.phases[i].currentRms)))
            || (8 <= i < 14 && (if voltage then Beneath(s.sense.voltage[i - 7], w.signal.phases[i - 8].voltageRms)
                                else Beneath(s.sense.current[i - 7], w.signal.phases[i - 8].currentRms)))
  {
    hide EffectOf, IntText, BitsValue, Bit, ChannelBits, Above, Beneath;
    var r := if voltage then QuestionableVoltage else QuestionableCurrent;
    RegisterQuery(w, s, r, Condition);
    PrintedBits(n, ConditionOf(w, s, r), i);
    ChannelBit(w, s, voltage, i);
  }

  /** The CONDition part of the questionable register sums up: bit 0 the voltages, bit 1 the currents, bit 5 no
      synchronization. */
  lemma QuestionableBits(w: World, s: State, n: nat, voltages: nat, currents: nat, i: nat)
    requires Answers(w, s, Status(Questionable, Condition), n)
    requires Answers(w, s, Status(QuestionableVoltage, Condition), voltages)
    requires Answers(w, s, Status(QuestionableCurrent, Condition), currents)
    ensures Bit(n, i) <==>
            || (i == 0 && voltages != 0)
            || (i == 1 && currents != 0)
            || (i == 5 && !(w.signal.present && s.sync.enabled))
  {
    hide EffectOf, IntText, BitsValue, Bit, ChannelBits;
    RegisterQuery(w, s, Questionable, Condition);
    RegisterQuery(w, s, QuestionableVoltage, Condition);
    RegisterQuery(w, s, QuestionableCurrent, Condition);
    PrintedBits(n, ConditionOf(w, s, Questionable), i);
    PrintedOnce(voltages, BitsValue(ChannelBits(w, s, true)));
    PrintedOnce(currents, BitsValue(ChannelBits(w, s, false)));
    ChannelsAreBelow16(w, s, true);
    ChannelsAreBelow16(w, s, false);
    NonzeroBits(ChannelBits(w, s, true));
    NonzeroBits(ChannelBits(w, s, false));
  }

  lemma ChannelsAreBelow16(w: World, s: State, voltage: bool)
    ensures forall i :: i in ChannelBits(w, s, voltage) ==> i < 16
  {}

  lemma NonzeroBits(bits: Bits)
    requires forall i :: i in bits ==> i < 16
    ensures BitsValue(bits) != 0 <==> bits != {}
  {
    hide BitsValue;
    if bits != {} {
      var i :| i in bits;
      ValueHasBit(bits, i);
      ZeroHasNoBit(i);
    } else {
      NoBitsAreZero(16);
    }
  }

  lemma {:induction false} ZeroHasNoBit(i: nat)
    ensures !Bit(0, i)
  {
    if i > 0 { ZeroHasNoBit(i - 1); }
  }

  lemma {:induction false} NoBitsAreZero(width: nat)
    ensures BitsValue({}, width) == 0
  {
    if width > 0 { NoBitsAreZero(width - 1); }
  }

  // ----------------------------------------------------------------------------- the status byte

  /** A bit both numbers have. */
  ghost predicate Share(a: nat, b: nat) { exists i: nat :: Bit(a, i) && Bit(b, i) }

  lemma SharedBits(n: nat, bits: Bits, mask: nat)
    requires IntText(n) == IntText(BitsValue(bits))
    ensures bits * Mask(mask) != {} <==> Share(n, mask)
  {
    hide IntText, BitsValue, Bit, Mask;
    if Share(n, mask) {
      var i: nat :| Bit(n, i) && Bit(mask, i);
      PrintedBits(n, bits, i);
      MaskHasBit(mask, i);
      assert i in bits * Mask(mask);
    }
    if bits * Mask(mask) != {} {
      var i: nat :| i in bits * Mask(mask);
      MaskHasBit(mask, i);
      PrintedBits(n, bits, i);
    }
  }

  lemma StatusQueries(w: World, s: State)
    ensures CommonEffect(w, s, Command(Common(Stb), [], true, []), Stb) ==
            Done(Latched(w, s, Questionable), Some(IntText(BitsValue(StatusByte(Latched(w, s, Questionable))))))
    ensures CommonEffect(w, s, Command(Common(Esr), [], true, []), Esr) ==
            Done(s.(status := s.status.(eventStatus := {})), Some(IntText(BitsValue(s.status.eventStatus))))
  {
    hide IntText, BitsValue, StatusByte, Latched, QuoteJoin, ResetState, ClearedStatus;
  }

  lemma MaskQueries(w: World, s: State)
    ensures CommonEffect(w, s, Command(Common(Ese), [], true, []), Ese) == Done(s, Some(IntText(s.status.eventStatusEnable)))
    ensures CommonEffect(w, s, Command(Common(Sre), [], true, []), Sre) == Done(s, Some(IntText(s.status.serviceRequestEnable)))
  {
    hide IntText, BitsValue, StatusByte, Latched, QuoteJoin, ResetState, ClearedStatus;
  }

  lemma StatusByteQuery(w: World, s: State)
    ensures EffectOf(w, s, Command(Common(Stb), [], true, [])) ==
            Done(Latched(w, s, Questionable), Some(IntText(BitsValue(StatusByte(Latched(w, s, Questionable))))))
  {
    hide IntText, BitsValue, StatusByte, Latched, AbortEffect, RouteEffect, InputEffect, RangingEffect, ApertureEffect, FunctionEffect,
         DataEffect, SweepEffect, SyncEffect, AcquisitionEffect, TriggerEffect, TransformEffect, SpectrumEffect, IntegralEffect,
         HarmonicOrderEffect, CorrectionEffect, ReferenceEffect, TraceEffect, FormatEffect, DisplayEffect, SystemEffect,
         StatusEffect, TimerEffect, CommonEffect;
    StatusQueries(w, s);
  }

  lemma EventStatusQuery(w: World, s: State)
    ensures EffectOf(w, s, Command(Common(Esr), [], true, [])).response == Some(IntText(BitsValue(s.status.eventStatus)))
  {
    hide IntText, BitsValue, StatusByte, Latched, AbortEffect, RouteEffect, InputEffect, RangingEffect, ApertureEffect, FunctionEffect,
         DataEffect, SweepEffect, SyncEffect, AcquisitionEffect, TriggerEffect, TransformEffect, SpectrumEffect, IntegralEffect,
         HarmonicOrderEffect, CorrectionEffect, ReferenceEffect, TraceEffect, FormatEffect, DisplayEffect, SystemEffect,
         StatusEffect, TimerEffect, CommonEffect;
    StatusQueries(w, s);
  }

  lemma EventMaskQuery(w: World, s: State)
    ensures EffectOf(w, s, Command(Common(Ese), [], true, [])) == Done(s, Some(IntText(s.status.eventStatusEnable)))
  {
    hide IntText, BitsValue, StatusByte, Latched, AbortEffect, RouteEffect, InputEffect, RangingEffect, ApertureEffect, FunctionEffect,
         DataEffect, SweepEffect, SyncEffect, AcquisitionEffect, TriggerEffect, TransformEffect, SpectrumEffect, IntegralEffect,
         HarmonicOrderEffect, CorrectionEffect, ReferenceEffect, TraceEffect, FormatEffect, DisplayEffect, SystemEffect,
         StatusEffect, TimerEffect, CommonEffect;
    MaskQueries(w, s);
  }

  lemma ServiceMaskQuery(w: World, s: State)
    ensures EffectOf(w, s, Command(Common(Sre), [], true, [])) == Done(s, Some(IntText(s.status.serviceRequestEnable)))
  {
    hide IntText, BitsValue, StatusByte, Latched, AbortEffect, RouteEffect, InputEffect, RangingEffect, ApertureEffect, FunctionEffect,
         DataEffect, SweepEffect, SyncEffect, AcquisitionEffect, TriggerEffect, TransformEffect, SpectrumEffect, IntegralEffect,
         HarmonicOrderEffect, CorrectionEffect, ReferenceEffect, TraceEffect, FormatEffect, DisplayEffect, SystemEffect,
         StatusEffect, TimerEffect, CommonEffect;
    MaskQueries(w, s);
  }

  /** Latching again under the same condition adds nothing. */
  lemma LatchedTwice(w: World, s: State, r: Register)
    ensures var after := Latched(w, s, r);
            && ConditionOf(w, after, r) == ConditionOf(w, s, r)
            && Latch(after.status.Get(r), ConditionOf(w, s, r)).event == after.status.Get(r).event
  {
    hide Mask, ConditionOf;
    var after := Latched(w, s, r);
    ConditionIsKept(w, s, after, r);
    LatchedAgain(s.status.Get(r), ConditionOf(w, s, r));
  }

  lemma LatchedAgain(x: RegisterState, current: Bits)
    ensures Latch(Latch(x, current), current).event == Latch(x, current).event
  {
    hide Mask;
    var y := Latch(x, current);
    assert current - y.previousCondition == {} && y.previousCondition - current == {};
  }

  /** Conditions do not depend on what registers hold. */
  lemma ConditionIsKept(w: World, s: State, t: State, r: Register)
    requires t == s.(status := t.status)
    ensures ConditionOf(w, t, r) == ConditionOf(w, s, r)
  {
    hide RangeStatus;
    assert ChannelBits(w, t, true) == ChannelBits(w, s, true) && ChannelBits(w, t, false) == ChannelBits(w, s, false);
  }

  /** What the bits of the status byte say, with the state `after` the query. */
  ghost predicate StatusByteHas(w: World, after: State, i: nat, event: nat, enable: nat, esr: nat, ese: nat) {
    || (i == 2 && after.errors != [])
    || (i == 3 && Share(event, enable))
    || (i == 5 && Share(esr, ese))
  }

  /** The status byte in printed numbers: bit 2 for queued errors, bit 3 and bit 5 for a bit shared by an event register
      and its enable mask, bit 6 for one of these that *SRE selects, and no other. */
  lemma StatusByteBits(w: World, s: State, n: nat, event: nat, enable: nat, esr: nat, ese: nat, sre: nat, i: nat)
    requires Answers(w, s, Common(Stb), n)
    requires var after := Latched(w, s, Questionable);
             && Answers(w, after, Status(Questionable, Event), event) && Answers(w, after, Status(Questionable, Enable), enable)
             && Answers(w, after, Common(Esr), esr) && Answers(w, after, Common(Ese), ese) && Answers(w, after, Common(Sre), sre)
    ensures var after := Latched(w, s, Questionable);
            Bit(n, i) <==>
            || StatusByteHas(w, after, i, event, enable, esr, ese)
            || (i == 6 && exists k: nat :: StatusByteHas(w, after, k, event, enable, esr, ese) && Bit(sre, k))
  {
    hide EffectOf, IntText, BitsValue, Bit, Mask, Latched, Latch, Share, ConditionOf, StatusByte;
    var after := Latched(w, s, Questionable);
    StatusByteQuery(w, s);
    EventStatusQuery(w, after);
    EventMaskQuery(w, after);
    ServiceMaskQuery(w, after);
    RegisterQuery(w, after, Questionable, Event);
    LatchedTwice(w, s, Questionable);
    MasksArePrinted(w, after, Questionable, enable);
    PrintedOnce(ese, after.status.eventStatusEnable);
    PrintedOnce(sre, after.status.serviceRequestEnable);
    SharedBits(event, after.status.questionable.event, enable);
    SharedBits(esr, after.status.eventStatus, ese);
    PrintedBits(n, StatusByte(after), i);
    SummaryBits(w, after, event, enable, esr, ese, sre, i);
  }

  lemma SummaryBits(w: World, s: State, event: nat, enable: nat, esr: nat, ese: nat, sre: nat, i: nat)
    requires s.status.questionable.enable == enable && s.status.eventStatusEnable == ese && s.status.serviceRequestEnable == sre
    requires s.status.questionable.event * Mask(enable) != {} <==> Share(event, enable)
    requires s.status.eventStatus * Mask(ese) != {} <==> Share(esr, ese)
    ensures i in StatusByte(s) <==>
            || StatusByteHas(w, s, i, event, enable, esr, ese)
            || (i == 6 && exists k: nat :: StatusByteHas(w, s, k, event, enable, esr, ese) && Bit(sre, k))
    ensures i in StatusByte(s) ==> i < 16
  {
    hide Bit, Mask, Share;
    var summary := When(s.errors != [], {2}) + When(Share(event, enable), {3}) + When(Share(esr, ese), {5});
    forall k: nat ensures k in summary <==> StatusByteHas(w, s, k, event, enable, esr, ese) {}
    forall k: nat ensures k in Mask(sre) <==> k < 16 && Bit(sre, k) { MaskHasBit(sre, k); }
    assert StatusByte(s) == summary + When(summary * Mask(sre) != {}, {6});
    if summary * Mask(sre) != {} {
      var k: nat :| k in summary * Mask(sre);
      assert StatusByteHas(w, s, k, event, enable, esr, ese) && Bit(sre, k);
    }
    if exists k: nat :: StatusByteHas(w, s, k, event, enable, esr, ese) && Bit(sre, k) {
      var k: nat :| StatusByteHas(w, s, k, event, enable, esr, ese) && Bit(sre, k);
      assert k in summary * Mask(sre);
    }
  }

  /** A line that is stopped by an error leaves bit 5 of *ESR? set, unless the queue was already full. */
  lemma RejectionShows(w: World, s: State, line: string, n: nat)
    requires var o := RunLine(Simulator(w), s, line);
             && o.ending.Stopped? && o.state.errors != [] && Answers(w, o.state, Common(Esr), n)
             && (|o.state.errors| < 32 || Last(o.state.errors) != ErrorInfo(-350, "Queue overflow"))
    ensures Bit(n, 5)
  {
    hide EffectOf, RunPieces, IntText, BitsValue, Bit;
    var o, pieces := RunLine(Simulator(w), s, line), Split(Outside, line, ';');
    var k, code, message := StoppedAt(Simulator(w), s, pieces, []);
    EventStatusQuery(w, o.state);
    PrintedBits(n, o.state.status.eventStatus, 5);
  }
}
