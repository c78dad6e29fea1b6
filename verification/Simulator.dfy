/** The simulated instrument as an object: a command line is parsed and each command updates the state in
    place. Every method is proved against what `Effects` and `CommandLine` say the command does. */
module Simulator {
  import opened Wrappers
  import opened Text
  import opened Decimal
  import opened Pattern
  import opened Commands
  import opened Headers
  import opened Instrument
  import opened Measurement
  import opened Effects
  import CommandLine
  import Queries
  import Rejections

  /** One command being executed: what was parsed, and what the handlers make of it. */
  class Execution {
    const c: Command
    var response: Option<string>
    var failed: bool

    constructor (c: Command)
      ensures this.c == c && Fresh()
    {
      this.c := c;
      response, failed := None, false;
    }

    predicate Fresh()
      reads this
    {
      response == None && !failed
    }
  }

  class NormaSimulator {
    const options: Options
    const host: Host
    const specs: seq<CommandSpec>
    var state: State
    var signal: Signal
    var handledLines: nat

    constructor (options: Options, host: Host, specs: seq<CommandSpec>, signal: Signal)
      ensures this.options == options && this.host == host && this.specs == specs && this.signal == signal
      ensures state == InitialState(options) && handledLines == 0
    {
      this.options, this.host, this.specs, this.signal := options, host, specs, signal;
      state := ResetState(options, []);
      handledLines := 0;
    }

    function W(): World
      reads this
    {
      World(options, signal, host, specs)
    }

    // ------------------------------------------------------------- what a handler achieves

    /** The effect took place: in full, or not at all but for the one error that was queued. */
    ghost predicate Realized(effect: Effect, before: State, e: Execution)
      reads this, e
    {
      match effect
      case Done(after, response) => state == after && e.response == response && !e.failed
      case Reject(code, message) => state == PushError(before, code, message) && e.response == None && e.failed
      case Hang => false
    }

    /** A setting was reported, or `v` is its new value; a refused one keeps its value. */
    ghost predicate Accessed<T>(a: Access<T>, field: T, v: T, before: State, e: Execution)
      reads this, e
    {
      match a
      case Report(text) => state == before && e.response == Some(text) && !e.failed && v == field
      case Store(x) => state == before && e.Fresh() && v == x
      case Refuse(code, message) => state == PushError(before, code, message) && e.response == None && e.failed && v == field
    }

    /** What holds of every command, whatever it is: a failed one has changed nothing but the error queue, by one entry, and
        the event status; any other has responded just when it was a query, and a query has kept the settings. */
    ghost predicate Atomic(before: State, e: Execution)
      reads this, e
    {
      && (e.failed ==>
            && e.response == None && Rejections.SameSettings(before, state)
            && Rejections.OneMoreError(before.errors, state.errors))
      && (!e.failed ==>
            && (e.response.Some? <==> e.c.query)
            && (e.c.query && !(e.c.key.Data? && e.c.args != []) ==> Queries.SettingsKept(before, state)))
    }

    // ------------------------------------------------------------------------------ access

    method PushErrorEntry(code: int, message: string)
      modifies this`state
      ensures state == PushError(old(state), code, message)
    {
      if |state.errors| >= QUEUE_CAPACITY {
        state := state.(errors := state.errors[|state.errors| - 1 := OVERFLOW]);
        assert state.errors == old(state.errors)[..|state.errors| - 1] + [OVERFLOW];
        return;
      }
      state := state.(errors := state.errors + [ErrorInfo(code, message)]);
      state := state.(status := state.status.(eventStatus := state.status.eventStatus + {COMMAND_ERROR_BIT}));
    }

    method Reset()
      modifies this`state
      ensures state == ResetState(options, old(state).errors)
    {
      var fresh_ := ResetState(options, []);
      state := fresh_.(errors := state.errors);
    }

    method ClearStatus()
      modifies this`state
      ensures state == ClearedStatus(old(state))
    {
      state := state.(errors := []);
      var x := state.status.(eventStatus := {});
      x := x.(operation := x.operation.(event := {}));
      x := x.(questionable := x.questionable.(event := {}));
      x := x.(voltage := x.voltage.(event := {}));
      x := x.(current := x.current.(event := {}));
      state := state.(status := x);
    }

    method Fail(e: Execution, effect: Effect)
      requires effect.Reject?
      modifies this`state, e`failed
      ensures state == PushError(old(state), effect.code, effect.message) && e.failed
    {
      PushErrorEntry(effect.code, effect.message);
      e.failed := true;
    }

    method Parameter(e: Execution) returns (text: Option<string>)
      requires e.Fresh()
      modifies this`state, e`failed
      ensures text == e.c.Argument()
      ensures text.None? ==> Realized(Missing(), old(state), e)
      ensures text.Some? ==> state == old(state) && e.Fresh()
    {
      text := e.c.Argument();
      if text.None? {
        Fail(e, Missing());
      }
    }

    method RequireQuery(e: Execution, name: string) returns (ok: bool)
      requires e.Fresh()
      modifies this`state, e`failed
      ensures ok == e.c.query
      ensures ok ==> state == old(state) && e.Fresh()
      ensures !ok ==> Realized(Undefined(name), old(state), e)
    {
      ok := e.c.query;
      if !ok {
        Fail(e, Undefined(name));
      }
    }

    method RequireCommand(e: Execution, name: string) returns (ok: bool)
      requires e.Fresh()
      modifies this`state, e`failed
      ensures ok == !e.c.query
      ensures ok ==> state == old(state) && e.Fresh()
      ensures !ok ==> Realized(Undefined(name + "?"), old(state), e)
    {
      ok := !e.c.query;
      if !ok {
        Fail(e, Undefined(name + "?"));
      }
    }

    method AccessNumber(e: Execution, field: real, min: real, max: real) returns (v: real)
      requires e.Fresh()
      modifies this`state, e
      ensures Accessed(NumberAccess(host, e.c, field, min, max), field, v, old(state), e)
    {
      v := field;
      if e.c.query {
        e.response := Some(host.formatSetting(field));
        return;
      }
      var text := Parameter(e);
      if text.None? { return; }
      var value := ParseNumber(text.value);
      if value.None? {
        Fail(e, Illegal(text.value));
        return;
      }
      if value.value < min || value.value > max {
        Fail(e, OutOfRange(text.value));
        return;
      }
      v := value.value;
    }

    method AccessInteger(e: Execution, field: int, min: int, max: int) returns (v: int)
      requires e.Fresh()
      modifies this`state, e
      ensures Accessed(IntegerAccess(e.c, field, min, max), field, v, old(state), e)
    {
      v := field;
      if e.c.query {
        e.response := Some(IntText(field));
        return;
      }
      var text := Parameter(e);
      if text.None? { return; }
      var value := ParseNumber(text.value);
      if value.None? {
        Fail(e, Illegal(text.value));
        return;
      }
      var rounded := Lround(value.value);
      if rounded < min || rounded > max {
        Fail(e, OutOfRange(text.value));
        return;
      }
      v := rounded;
    }

    method AccessBoolean(e: Execution, field: bool) returns (v: bool)
      requires e.Fresh()
      modifies this`state, e
      ensures Accessed(BooleanAccess(e.c, field), field, v, old(state), e)
    {
      v := field;
      if e.c.query {
        e.response := Some(BoolText(field));
        return;
      }
      var text := Parameter(e);
      if text.None? { return; }
      var value := ParseBoolean(text.value);
      if value.None? {
        Fail(e, Illegal(text.value));
        return;
      }
      v := value.value;
    }

    method AccessKeyword<T(==)>(e: Execution, field: T, words: seq<Keyword<T>>) returns (v: T)
      requires e.Fresh()
      modifies this`state, e
      ensures Accessed(KeywordAccess(e.c, field, words), field, v, old(state), e)
    {
      v := field;
      if e.c.query {
        for i := 0 to |words|
          invariant SpellingOf(words, field) == SpellingOf(words[i..], field)
          invariant state == old(state) && e.Fresh()
        {
          assert words[i..][0] == words[i] && words[i..][1..] == words[i + 1..];
          if words[i].value == field {
            e.response := Some(words[i].short);
            return;
          }
        }
        e.response := Some("");
        return;
      }
      var text := Parameter(e);
      if text.None? { return; }
      var wanted := Upper(text.value);
      for i := 0 to |words|
        invariant FindKeyword(words, wanted) == FindKeyword(words[i..], wanted)
        invariant state == old(state) && e.Fresh()
      {
        assert words[i..][0] == words[i] && words[i..][1..] == words[i + 1..];
        if wanted == words[i].short || wanted == words[i].long {
          v := words[i].value;
          return;
        }
      }
      Fail(e, Illegal(text.value));
    }

    method AccessText(e: Execution, report: string, field: string) returns (v: string)
      requires e.Fresh()
      modifies this`state, e
      ensures Accessed(TextAccess(e.c, report), field, v, old(state), e)
    {
      v := field;
      if e.c.query {
        e.response := Some(report);
        return;
      }
      var text := Parameter(e);
      if text.Some? {
        v := text.value;
      }
    }

    method ReadFunctionList(e: Execution, field: seq<string>) returns (v: seq<string>)
      requires e.Fresh()
      modifies this`state, e
      ensures Accessed(ListParameter(e.c), field, v, old(state), e)
    {
      hide Trim, Unquote, Upper;
      v := field;
      var args := e.c.args;
      if args == [] {
        Fail(e, Missing());
        return;
      }
      var functions := [];
      for i := 0 to |args|
        invariant FirstUnquoted(args) == FirstUnquoted(args[i..])
        invariant functions == FunctionNames(args[..i])
        invariant state == old(state) && e.Fresh()
      {
        var raw := Trim(args[i]);
        assert args[i..][0] == args[i] && args[i..][1..] == args[i + 1..];
        if |raw| < 2 || !IsQuote(raw[0]) {
          Fail(e, Illegal(raw));
          return;
        }
        FunctionNamesAppend(args, i);
        functions := functions + [Upper(Unquote(raw))];
      }
      assert args[..|args|] == args;
      v := functions;
    }

    method AccessFunctionList(e: Execution, field: seq<string>) returns (v: seq<string>)
      requires e.Fresh()
      modifies this`state, e
      ensures Accessed(FunctionListAccess(e.c, field), field, v, old(state), e)
    {
      if e.c.query {
        v := field;
        var text := JoinQuoted(field);
        e.response := Some(text);
        return;
      }
      v := ReadFunctionList(e, field);
    }

    // ------------------------------------------------------------ measurements and registers

    method MeasureEach(functions: seq<string>) returns (measured: seq<Measured>)
      requires MeasureAll(W(), state, functions).Some?
      ensures MeasureAll(W(), state, functions) == Some(measured)
    {
      hide Measure;
      measured := [];
      for i := 0 to |functions|
        invariant MeasureAll(W(), state, functions[..i]) == Some(measured)
      {
        MeasureAllPrefix(W(), state, functions, i + 1);
        assert functions[..i + 1][..i] == functions[..i];
        measured := measured + [Measure(W(), state, functions[i]).value];
      }
      assert functions[..|functions|] == functions;
    }

    method PrintValues(measured: seq<Measured>) returns (text: string)
      ensures text == Join(ValueTexts(host, state, measured), ',')
    {
      text := "";
      for i := 0 to |measured|
        invariant text == Join(ValueTexts(host, state, measured[..i]), ',')
      {
        var value := FormatValue(host, state, measured[i].value);
        ghost var before := ValueTexts(host, state, measured[..i]);
        assert ValueTexts(host, state, measured[..i + 1]) == before + [value];
        if i != 0 {
          JoinAppend(before, value, ',');
          text := text + [','];
        } else {
          assert before == [] && text + value == value;
        }
        text := text + value;
      }
      assert measured[..|measured|] == measured;
    }

    method AppendStatuses(measured: seq<Measured>, ghost values: seq<string>, printed: string) returns (text: string)
      requires |values| == |measured| > 0 && printed == Join(values, ',')
      ensures text == Join(values + StatusTexts(measured), ',')
    {
      text := printed;
      assert values + StatusTexts(measured[..0]) == values;
      for i := 0 to |measured|
        invariant text == Join(values + StatusTexts(measured[..i]), ',')
      {
        var status := IntText(BitsValue(measured[i].status));
        assert StatusTexts(measured[..i + 1]) == StatusTexts(measured[..i]) + [status];
        assert values + StatusTexts(measured[..i + 1]) == (values + StatusTexts(measured[..i])) + [status];
        JoinAppend(values + StatusTexts(measured[..i]), status, ',');
        text := text + [','] + status;
      }
      assert measured[..|measured|] == measured;
    }

    /** The measured data of a list of functions, one value after another and then, if asked for, the statuses. */
    method Measurements(functions: seq<string>, withStatus: bool) returns (text: string)
      requires MeasurementResponse(W(), state, functions, withStatus).Some?
      ensures Some(text) == MeasurementResponse(W(), state, functions, withStatus)
    {
      if functions == [] { return ""; }
      if !state.format.data.format.Ascii? { return BinaryBlock(|functions|); }
      var measured := MeasureEach(functions);
      text := PrintValues(measured);
      ghost var values := ValueTexts(host, state, measured);
      assert values + [] == values;
      if withStatus {
        text := AppendStatuses(measured, values, text);
      }
    }

    /** The condition bits of the six phases, collected one phase at a time. */
    method CollectChannelBits(voltage: bool) returns (bits: Bits)
      ensures bits == ChannelBits(W(), state, voltage)
    {
      bits := {};
      for phase := 1 to MAX_PHASE + 1
        invariant forall b :: b in bits <==> b in ChannelBits(W(), state, voltage) && (b < phase - 1 || 8 <= b < phase + 7)
      {
        var status := RangeStatus(ConfigOf(state, voltage, phase), RawOf(W(), voltage, phase));
        if OVERRANGE in status {
          bits := bits + {phase - 1};
        } else if UNDERRANGE in status {
          bits := bits + {phase + 7};
        }
        ChannelBit(W(), state, voltage, phase);
      }
      assert forall b :: b in ChannelBits(W(), state, voltage) ==> b < 6 || 8 <= b < 14;
    }

    method Condition_(r: Register) returns (bits: Bits)
      ensures bits == ConditionOf(W(), state, r)
    {
      bits := {};
      match r
      case Operation =>
        if Synchronized(W(), state) { bits := bits + {8, 9}; }
        if state.continuous || state.initiated { bits := bits + {10}; }
        if state.sweep[1].enabled || state.sweep[2].enabled { bits := bits + {3}; }
      case QuestionableVoltage => bits := CollectChannelBits(true);
      case QuestionableCurrent => bits := CollectChannelBits(false);
      case Questionable =>
        if !Synchronized(W(), state) { bits := bits + {5}; }
        var v := CollectChannelBits(true);
        if v != {} { bits := bits + {0}; }
        var i := CollectChannelBits(false);
        if i != {} { bits := bits + {1}; }
    }

    /** Latches the register's edges since it was last looked at, and returns its EVENt part. */
    method LatchEvent(r: Register) returns (event: Bits)
      modifies this`state
      ensures state == Latched(old(W()), old(state), r) && event == state.status.Get(r).event
    {
      var x := state.status.Get(r);
      var current := Condition_(r);
      var rose := current - x.previousCondition;
      var fell := x.previousCondition - current;
      x := x.(event := x.event + (rose * Mask(x.ptransition) + fell * Mask(x.ntransition)));
      x := x.(previousCondition := current);
      assert x == Latch(old(state).status.Get(r), current);
      state := state.(status := state.status.Set(r, x));
      event := x.event;
    }

    // ------------------------------------------------------------------- common commands

    method HandleCommon(e: Execution, key: CommonKey)
      requires e.Fresh()
      modifies this`state, e
      ensures Realized(CommonEffect(old(W()), old(state), e.c, key), old(state), e)
    {
      hide NumberAccess, IntegerAccess, BooleanAccess, KeywordAccess, FunctionListAccess, ListParameter;
      match key
      case Idn =>
        var ok := RequireQuery(e, "*IDN");
        if ok { e.response := Some(options.identification); }
      case Rst =>
        var ok := RequireCommand(e, "*RST");
        if ok { Reset(); }
      case Cls =>
        var ok := RequireCommand(e, "*CLS");
        if ok { ClearStatus(); }
      case Opt =>
        var ok := RequireQuery(e, "*OPT");
        if ok { e.response := Some(options.optionsResponse); }
      case Lrn =>
        var ok := RequireQuery(e, "*LRN");
        if ok {
          var functions := JoinQuoted(state.sense.functions);
          e.response := Some("\"FUNC " + functions + ";APER " + host.formatSetting(state.sense.aperture) + "\"");
        }
      case Opc =>
        if e.c.query {
          e.response := Some("1");
        } else {
          state := state.(status := state.status.(eventStatus := state.status.eventStatus + {0}));
        }
      case Wai =>
        var ok := RequireCommand(e, "*WAI");
      case Trg =>
        var ok := RequireCommand(e, "*TRG");
        if ok { state := state.(initiated := true); }
      case Ese =>
        var v := AccessInteger(e, state.status.eventStatusEnable, 0, 255);
        state := state.(status := state.status.(eventStatusEnable := v));
      case Esr =>
        var ok := RequireQuery(e, "*ESR");
        if ok {
          e.response := Some(IntText(BitsValue(state.status.eventStatus)));
          state := state.(status := state.status.(eventStatus := {}));
        }
      case Sre =>
        var v := AccessInteger(e, state.status.serviceRequestEnable, 0, 255);
        state := state.(status := state.status.(serviceRequestEnable := v));
      case Stb => HandleStatusByte(e);
      case Sav =>
        var ok := RequireCommand(e, "*SAV");
        if ok {
          var slot := AccessInteger(e, 0, 10, 24);
          if !e.failed { state := state.(savedSetups := state.savedSetups + {slot}); }
        }
      case Rcl =>
        var ok := RequireCommand(e, "*RCL");
        if ok {
          var slot := AccessInteger(e, 0, 1, 24);
          if !e.failed && slot > 2 && slot < 10 { Fail(e, OutOfRange("*RCL")); }
        }
    }

    method SummarizeStatus(event: Bits) returns (stb: Bits)
      requires event == state.status.questionable.event
      ensures stb == StatusByte(state)
    {
      stb := {};
      if state.errors != [] { stb := stb + {2}; }
      if event * Mask(state.status.questionable.enable) != {} { stb := stb + {3}; }
      if state.status.eventStatus * Mask(state.status.eventStatusEnable) != {} { stb := stb + {5}; }
      if stb * Mask(state.status.serviceRequestEnable) != {} { stb := stb + {6}; }
    }

    method HandleStatusByte(e: Execution)
      requires e.Fresh()
      modifies this`state, e
      ensures Realized(StatusByteEffect(old(W()), old(state), e.c), old(state), e)
    {
      var ok := RequireQuery(e, "*STB");
      if !ok { return; }
      var event := LatchEvent(Questionable);
      var stb := SummarizeStatus(event);
      e.response := Some(IntText(BitsValue(stb)));
    }

    // ------------------------------------------------------------------------ subsystems

    method HandleRoute(e: Execution)
      requires e.Fresh()
      modifies this`state, e
      ensures Realized(RouteEffect(old(state), e.c), old(state), e)
    {
      if e.c.query {
        e.response := Some(if state.wiring.TwoWattmeter? then "\"2W\"" else "\"3W\"");
        return;
      }
      var text := Parameter(e);
      if text.None? { return; }
      var value := Upper(text.value);
      if value == "3W" {
        state := state.(wiring := ThreeWattmeter);
      } else if value == "2W" {
        state := state.(wiring := TwoWattmeter);
      } else {
        Fail(e, Illegal(text.value));
      }
    }

    /** GAIN and SHUNt exist on the current channels, which are the odd ones. */
    method HandleCurrentInput(e: Execution, key: InputKey)
      requires e.Fresh() && 1 <= e.c.Suffix() <= options.channels && (key.Gain? || key.Shunt?)
      modifies this`state, e
      ensures Realized(InputEffect(old(W()), old(state), e.c, key), old(state), e)
    {
      hide NumberAccess, BooleanAccess, KeywordAccess, IntText;
      var channel := e.c.Suffix();
      var i := state.inputs[channel];
      if key.Gain? {
        if channel % 2 == 0 {
          Fail(e, Conflict("GAIN applies to current channels only"));
        } else {
          var v := AccessNumber(e, i.gain, 0.0, 1000000000000.0);
          state := state.(inputs := state.inputs[channel := i.(gain := v)]);
        }
      } else {
        if channel % 2 == 0 {
          Fail(e, Conflict("SHUNt applies to current channels only"));
        } else {
          var v := AccessKeyword(e, i.shunt, SHUNTS);
          state := state.(inputs := state.inputs[channel := i.(shunt := v)]);
        }
      }
    }

    method HandleInput(e: Execution, key: InputKey)
      requires e.Fresh()
      modifies this`state, e
      ensures Realized(InputEffect(old(W()), old(state), e.c, key), old(state), e)
    {
      hide NumberAccess, BooleanAccess, KeywordAccess, IntText;
      var channel := e.c.Suffix();
      if channel < 1 || channel > options.channels {
        Fail(e, OutOfRange("input channel " + IntText(channel)));
        return;
      }
      var i := state.inputs[channel];
      match key
      case Coupling =>
        var v := AccessKeyword(e, i.coupling, COUPLINGS);
        state := state.(inputs := state.inputs[channel := i.(coupling := v)]);
      case Gain => HandleCurrentInput(e, key);
      case Shunt => HandleCurrentInput(e, key);
      case FilterState =>
        var v := AccessBoolean(e, i.filter);
        state := state.(inputs := state.inputs[channel := i.(filter := v)]);
      case FilterFrequency =>
        var ok := RequireQuery(e, "INP#:FILT:FREQ");
        if ok { e.response := Some(host.formatSetting(state.filterFrequency)); }
    }

    method StoreConfig(voltage: bool, phase: int, config: ChannelConfig)
      requires 1 <= phase <= MAX_PHASE
      modifies this`state
      ensures state == WithConfig(old(state), voltage, phase, config)
    {
      if voltage {
        state := state.(sense := state.sense.(voltage := state.sense.voltage[phase := config]));
      } else {
        state := state.(sense := state.sense.(current := state.sense.current[phase := config]));
      }
    }

    method HandleSetRange(e: Execution, voltage: bool, phase: int)
      requires e.Fresh() && 1 <= phase <= MAX_PHASE
      modifies this`state, e
      ensures Realized(SetRangeEffect(old(W()), old(state), e.c, voltage, phase), old(state), e)
    {
      hide ParseNumber;
      var ranges := RangesOf(options, voltage);
      var config := ConfigOf(state, voltage, phase);
      if e.c.query {
        e.response := Some(host.formatSetting(config.range));
        return;
      }
      var text := Parameter(e);
      if text.None? { return; }
      var value := ParseNumber(text.value);
      if value.None? {
        Fail(e, Illegal(text.value));
        return;
      }
      if value.value < ranges[0] * 0.999 || value.value > Last(ranges) * 1.001 {
        Fail(e, OutOfRange(text.value));
        return;
      }
      var range := Last(ranges);
      var found := false;
      for i := 0 to |ranges|
        invariant !found && range == Last(ranges)
        invariant i < |ranges| ==> SnapRange(ranges, value.value) == SnapRange(ranges[i..], value.value)
        invariant i == |ranges| ==> SnapRange(ranges, value.value) == Last(ranges)
      {
        assert ranges[i..][0] == ranges[i] && ranges[i..][1..] == ranges[i + 1..];
        if ranges[i] >= value.value * 0.999 {
          range := ranges[i];
          break;
        }
      }
      StoreConfig(voltage, phase, config.(range := range, autorange := false));
    }

    method HandleAutorange(e: Execution, voltage: bool, phase: int)
      requires e.Fresh() && 1 <= phase <= MAX_PHASE && phase == e.c.Suffix()
      modifies this`state, e
      ensures Realized(RangingEffect(old(W()), old(state), e.c, voltage, RangeAuto), old(state), e)
    {
      hide BooleanAccess;
      var config := ConfigOf(state, voltage, phase);
      var v := AccessBoolean(e, config.autorange);
      KeepConfig(state, voltage, phase);
      StoreConfig(voltage, phase, config.(autorange := v));
    }

    method HandleScale(e: Execution, voltage: bool, phase: int)
      requires e.Fresh() && 1 <= phase <= MAX_PHASE && phase == e.c.Suffix()
      modifies this`state, e
      ensures Realized(RangingEffect(old(W()), old(state), e.c, voltage, Scale), old(state), e)
    {
      hide NumberAccess;
      var config := ConfigOf(state, voltage, phase);
      var v := AccessNumber(e, config.scale, 0.9, 10000000.0);
      KeepConfig(state, voltage, phase);
      StoreConfig(voltage, phase, config.(scale := v));
    }

    method HandleRanging(e: Execution, voltage: bool, key: RangingKey)
      requires e.Fresh()
      modifies this`state, e
      ensures Realized(RangingEffect(old(W()), old(state), e.c, voltage, key), old(state), e)
    {
      hide SetRangeEffect, BooleanAccess, NumberAccess;
      var phase := e.c.Suffix();
      if phase < 1 || phase > MAX_PHASE {
        Fail(e, OutOfRange("phase " + IntText(phase)));
        return;
      }
      match key
      case Range => HandleSetRange(e, voltage, phase);
      case RangeAuto => HandleAutorange(e, voltage, phase);
      case RangeList =>
        var ok := RequireQuery(e, RangingName(voltage, ":RANG:LIST"));
        if ok { e.response := Some(Join(FormatSettings(host, RangesOf(options, voltage)), ',')); }
      case Scale => HandleScale(e, voltage, phase);
    }

    method HandleAperture(e: Execution)
      requires e.Fresh()
      modifies this`state, e
      ensures Realized(ApertureEffect(old(W()), old(state), e.c), old(state), e)
    {
      hide NumberAccess;
      var v := AccessNumber(e, state.sense.aperture, MIN_APERTURE, MAX_APERTURE);
      state := state.(sense := state.sense.(aperture := v));
    }

    method HandleFunctions(e: Execution, key: FunctionKey)
      requires e.Fresh()
      modifies this`state, e
      ensures Realized(FunctionEffect(old(state), e.c, key), old(state), e)
    {
      hide BooleanAccess, ListParameter, QuoteJoin;
      match key
      case FunctionList =>
        if e.c.query {
          var text := JoinQuoted(state.sense.functions);
          e.response := Some(text);
          return;
        }
        var functions := ReadFunctionList(e, []);
        if e.failed { return; }
        if !state.sense.concurrent && |functions| > 1 {
          Fail(e, Conflict("FUNCtion:CONCurrent is OFF"));
          return;
        }
        state := state.(sense := state.sense.(functions := functions));
      case FunctionsAll =>
        var ok := RequireCommand(e, "FUNC:ALL");
        if ok { state := state.(sense := state.sense.(functions := ALL_FUNCTIONS)); }
      case FunctionsOff =>
        var ok := RequireCommand(e, "FUNC:OFF:ALL");
        if ok { state := state.(sense := state.sense.(functions := [])); }
      case Concurrent =>
        var was := state.sense.concurrent;
        var v := AccessBoolean(e, state.sense.concurrent);
        state := state.(sense := state.sense.(concurrent := v));
        if !e.c.query && was && !state.sense.concurrent && |state.sense.functions| > 1 {
          state := state.(sense := state.sense.(functions := state.sense.functions[..1]));
        }
      case FunctionCount =>
        var ok := RequireQuery(e, "FUNC:COUN");
        if ok { e.response := Some(IntText(|state.sense.functions|)); }
    }

    method HandleData(e: Execution, withStatus: bool)
      requires e.Fresh() && !DataEffect(W(), state, e.c, withStatus).Hang?
      modifies this`state, e
      ensures Realized(DataEffect(old(W()), old(state), e.c, withStatus), old(state), e)
    {
      hide ListParameter, MeasurementResponse;
      var ok := RequireQuery(e, if withStatus then "DATA:STAT" else "DATA");
      if !ok { return; }
      if e.c.args != [] {
        var requested := ReadFunctionList(e, []);
        if e.failed { return; }
        state := state.(sense := state.sense.(functions := requested));
      }
      var text := Measurements(state.sense.functions, withStatus);
      e.response := Some(text);
    }

    method StoreSweep(block: int, x: SweepConfig)
      requires 1 <= block <= 2
      modifies this`state
      ensures state == WithSweep(old(state), block, x)
      ensures x == old(state).sweep[block] ==> state == old(state)
    {
      state := state.(sweep := state.sweep[block := x]);
    }

    method HandleSweepTime(e: Execution, block: int)
      requires e.Fresh() && 1 <= block <= 2 && block == e.c.Suffix()
      modifies this`state, e
      ensures Realized(SweepEffect(old(W()), old(state), e.c, SweepTime), old(state), e)
    {
      hide NumberAccess;
      var x := state.sweep[block];
      if !e.c.query && e.c.Argument().Some? && Upper(e.c.Argument().value) == "MAX" {
        StoreSweep(block, x.(time := 3600.0));
        return;
      }
      var v := AccessNumber(e, x.time, 0.001, 3600.0);
      StoreSweep(block, x.(time := v));
    }

    method HandleSweepSize(e: Execution, block: int, key: SweepKey)
      requires e.Fresh() && 1 <= block <= 2 && block == e.c.Suffix()
      requires key.OffsetTime? || key.SweepCount? || key.Sparsing?
      modifies this`state, e
      ensures Realized(SweepEffect(old(W()), old(state), e.c, key), old(state), e)
    {
      hide NumberAccess, IntegerAccess;
      var x := state.sweep[block];
      if key.OffsetTime? {
        var v := AccessNumber(e, x.offsetTime, -3600.0, 3600.0);
        StoreSweep(block, x.(offsetTime := v));
      } else if key.SweepCount? {
        var v := AccessInteger(e, x.count, 1, 1000000);
        StoreSweep(block, x.(count := v));
      } else {
        var v := AccessInteger(e, x.sparsing, 1, 65535);
        StoreSweep(block, x.(sparsing := v));
      }
    }

    method HandleSweep(e: Execution, key: SweepKey)
      requires e.Fresh()
      modifies this`state, e
      ensures Realized(SweepEffect(old(W()), old(state), e.c, key), old(state), e)
    {
      hide NumberAccess, IntegerAccess, BooleanAccess, KeywordAccess, FunctionListAccess, ListParameter;
      var block := e.c.Suffix();
      if block < 1 || block > 2 {
        Fail(e, OutOfRange("sweep block " + IntText(block)));
        return;
      }
      var x := state.sweep[block];
      match key
      case SweepState =>
        var v := AccessBoolean(e, x.enabled);
        StoreSweep(block, x.(enabled := v));
      case SweepTime => HandleSweepTime(e, block);
      case OffsetTime => HandleSweepSize(e, block, key);
      case SweepCount => HandleSweepSize(e, block, key);
      case Sparsing => HandleSweepSize(e, block, key);
      case SweepFunctions =>
        var v := AccessFunctionList(e, x.functions);
        StoreSweep(block, x.(functions := v));
      case SweepPoints =>
        var ok := RequireQuery(e, "SWE#:POINTS");
        if ok { e.response := Some(IntText(AsInt(x.time, Effects.Aperture(state)))); }
      case OffsetPoints =>
        var ok := RequireQuery(e, "SWE#:OFFS:POINTS");
        if ok { e.response := Some(IntText(AsInt(x.offsetTime, Effects.Aperture(state)))); }
    }

    method HandleSyncLevel(e: Execution)
      requires e.Fresh()
      modifies this`state, e
      ensures Realized(SyncEffect(old(W()), old(state), e.c, SyncLevel), old(state), e)
    {
      hide NumberAccess, BooleanAccess, KeywordAccess, SyncSourceEffect, CutOffEffect;
      var limit := if state.sync.unit.Percent? then 150.0 else 1000.0;
      var v := AccessNumber(e, state.sync.level, -limit, limit);
      state := state.(sync := state.sync.(level := v));
    }

    method HandleSyncTimeout(e: Execution)
      requires e.Fresh()
      modifies this`state, e
      ensures Realized(SyncEffect(old(W()), old(state), e.c, SyncTimeout), old(state), e)
    {
      hide NumberAccess, BooleanAccess, KeywordAccess, SyncSourceEffect, CutOffEffect;
      var v := AccessNumber(e, state.sync.timeout, 0.015, 3600.0);
      state := state.(sync := state.sync.(timeout := v));
    }

    method HandleSync(e: Execution, key: SyncKey)
      requires e.Fresh()
      modifies this`state, e
      ensures Realized(SyncEffect(old(W()), old(state), e.c, key), old(state), e)
    {
      hide NumberAccess, IntegerAccess, BooleanAccess, KeywordAccess, FunctionListAccess, ListParameter, SyncSourceEffect, CutOffEffect;
      match key
      case SyncState => HandleSyncState(e);
      case SyncSource => HandleSyncSource(e);
      case SyncLevel => HandleSyncLevel(e);
      case LevelUnit =>
        var v := AccessKeyword(e, state.sync.unit, LEVEL_UNITS);
        state := state.(sync := state.sync.(unit := v));
      case SyncSlope =>
        var v := AccessKeyword(e, state.sync.slope, SLOPES);
        state := state.(sync := state.sync.(slope := v));
      case SyncFilterState => HandleSyncFilter(e);
      case SyncFilterFrequency => HandleSyncCutOff(e);
      case SyncTimeout => HandleSyncTimeout(e);
    }

    method HandleSyncState(e: Execution)
      requires e.Fresh()
      modifies this`state, e
      ensures Realized(SyncEffect(old(W()), old(state), e.c, SyncState), old(state), e)
    {
      hide NumberAccess, BooleanAccess, KeywordAccess, SyncSourceEffect, CutOffEffect;
      var v := AccessBoolean(e, state.sync.enabled);
      state := state.(sync := state.sync.(enabled := v));
    }

    method HandleSyncFilter(e: Execution)
      requires e.Fresh()
      modifies this`state, e
      ensures Realized(SyncEffect(old(W()), old(state), e.c, SyncFilterState), old(state), e)
    {
      hide NumberAccess, BooleanAccess, KeywordAccess, SyncSourceEffect, CutOffEffect;
      var v := AccessBoolean(e, state.sync.filter);
      state := state.(sync := state.sync.(filter := v));
    }

    method HandleSyncSource(e: Execution)
      requires e.Fresh()
      modifies this`state, e
      ensures Realized(SyncSourceEffect(old(state), e.c), old(state), e)
    {
      if e.c.query {
        e.response := Some(state.sync.source);
        return;
      }
      var text := Parameter(e);
      if text.None? { return; }
      var source := SyncSourceOf(text.value);
      if source.None? {
        Fail(e, Illegal(text.value));
      } else {
        state := state.(sync := state.sync.(source := source.value));
      }
    }

    method HandleSyncCutOff(e: Execution)
      requires e.Fresh()
      modifies this`state, e
      ensures Realized(CutOffEffect(old(W()), old(state), e.c), old(state), e)
    {
      hide ParseNumber;
      if e.c.query {
        e.response := Some(host.formatSetting(state.sync.filterFrequency));
        return;
      }
      var text := Parameter(e);
      if text.None? { return; }
      var value := ParseNumber(text.value);
      if value.None? {
        Fail(e, Illegal(text.value));
        return;
      }
      var allowed := [100.0, 1000.0, 10000.0];
      for i := 0 to 3
        invariant state == old(state) && e.Fresh()
        invariant forall k :: 0 <= k < i ==> !Near(value.value, allowed[k])
      {
        if Near(value.value, allowed[i]) {
          state := state.(sync := state.sync.(filterFrequency := allowed[i]));
          assert allowed[0] == 100.0 && allowed[1] == 1000.0 && allowed[2] == 10000.0;
          return;
        }
      }
      assert allowed[0] == 100.0 && allowed[1] == 1000.0 && allowed[2] == 10000.0;
      Fail(e, Illegal(text.value));
    }

    method HandleInitiate(e: Execution, key: InitiateKey)
      requires e.Fresh()
      modifies this`state, e
      ensures Realized(AcquisitionEffect(old(state), e.c, key), old(state), e)
    {
      hide NumberAccess, IntegerAccess, BooleanAccess, KeywordAccess, FunctionListAccess, ListParameter;
      match key
      case Continuous =>
        var v := AccessBoolean(e, state.continuous);
        state := state.(continuous := v);
      case Immediate =>
        var ok := RequireCommand(e, "INIT");
        if ok { state := state.(initiated := true); }
      case Sequence =>
        var ok := RequireCommand(e, "INIT:SEQ#");
        if ok {
          var block := e.c.Suffix();
          if block < 1 || block > 2 {
            Fail(e, OutOfRange("sequence " + IntText(block)));
            return;
          }
          state := state.(sweep := state.sweep[block := state.sweep[block].(enabled := true)]);
        }
      case SequenceName =>
        var ok := RequireCommand(e, "INIT:NAME");
        if ok { state := state.(sweep := state.sweep[1 := state.sweep[1].(enabled := true)]); }
    }

    method SwitchSweepsOff()
      modifies this`state
      ensures state == SweepsOff(old(state))
    {
      state := state.(sweep := state.sweep[1 := state.sweep[1].(enabled := false)]);
      state := state.(sweep := state.sweep[2 := state.sweep[2].(enabled := false)]);
    }

    method HandleAbort(e: Execution)
      requires e.Fresh()
      modifies this`state, e
      ensures Realized(AbortEffect(old(state), e.c), old(state), e)
    {
      var ok := RequireCommand(e, "ABOR");
      if ok {
        state := state.(initiated := false);
        SwitchSweepsOff();
      }
    }

    method HandleTimestamp(e: Execution, name: string)
      requires e.Fresh()
      modifies this`state, e
      ensures Realized(TimestampEffect(old(state), e.c, name), old(state), e)
    {
      var ok := RequireCommand(e, name);
      if ok && |e.c.args| < 6 { Fail(e, Expected(TIMESTAMP)); }
    }

    method StoreTrigger(start: bool, x: TriggerConfig)
      modifies this`state
      ensures state == WithTrigger(old(state), start, x)
    {
      if start { state := state.(triggerStart := x); } else { state := state.(triggerStop := x); }
    }

    method HandleTrigger(e: Execution, start: bool, key: TriggerKey)
      requires e.Fresh()
      modifies this`state, e
      ensures Realized(TriggerEffect(old(W()), old(state), e.c, start, key), old(state), e)
    {
      hide NumberAccess, IntegerAccess, BooleanAccess, KeywordAccess, FunctionListAccess, ListParameter;
      var x := TriggerOf(state, start);
      match key
      case TriggerSource =>
        var v := AccessText(e, x.source, "");
        if !e.c.query && !e.failed { StoreTrigger(start, x.(source := Upper(v))); }
      case TriggerLevel =>
        var v := AccessNumber(e, x.level, -10000000.0, 10000000.0);
        StoreTrigger(start, x.(level := v));
      case TriggerSlope =>
        var v := AccessKeyword(e, x.slope, SLOPES);
        StoreTrigger(start, x.(slope := v));
      case TriggerTime => HandleTimestamp(e, if start then "TRIG:STAR:TIME" else "TRIG:STOP:TIME");
    }

    method HandleTransferFormat(e: Execution, isData: bool)
      requires e.Fresh()
      modifies this`state, e
      ensures Realized(TransferFormatEffect(old(state), e.c, isData), old(state), e)
    {
      hide ParseNumber;
      var setting := if isData then state.format.data else state.format.status;
      if e.c.query {
        e.response := Some(FormatWord(setting.format) + "," + IntText(setting.length));
        return;
      }
      var text := Parameter(e);
      if text.None? { return; }
      var format := FormatOf(Upper(text.value));
      if format.None? {
        Fail(e, Illegal(text.value));
        return;
      }
      var length := setting.length;
      if |e.c.args| > 1 {
        var parsed := ParseNumber(e.c.args[1]);
        if parsed.None? {
          Fail(e, Illegal(e.c.args[1]));
          return;
        }
        length := Lround(parsed.value);
      }
      var binary := format.value != Ascii;
      var mine := FormatSetting(format.value, length);
      if isData {
        state := state.(format := state.format.(data := mine));
        var other := state.format.status;
        if (other.format != Ascii) != binary {
          other := other.(format := if binary then Integer else Ascii);
          state := state.(format := state.format.(status := other));
        }
      } else {
        state := state.(format := state.format.(status := mine));
        var other := state.format.data;
        if (other.format != Ascii) != binary {
          other := other.(format := if binary then Real else Ascii);
          state := state.(format := state.format.(data := other));
        }
      }
    }

    method HandleFormat(e: Execution, key: FormatKey)
      requires e.Fresh()
      modifies this`state, e
      ensures Realized(FormatEffect(old(state), e.c, key), old(state), e)
    {
      hide NumberAccess, IntegerAccess, BooleanAccess, KeywordAccess, FunctionListAccess, ListParameter;
      match key
      case DataFormat => HandleTransferFormat(e, true);
      case StatusFormat => HandleTransferFormat(e, false);
      case ByteOrder =>
        var v := AccessKeyword(e, state.format.byteOrder, BYTE_ORDERS);
        state := state.(format := state.format.(byteOrder := v));
      case Transpose =>
        var v := AccessBoolean(e, state.format.transpose);
        state := state.(format := state.format.(transpose := v));
    }

    method HandleDisplay(e: Execution, key: DisplayKey)
      requires e.Fresh()
      modifies this`state, e
      ensures Realized(DisplayEffect(old(state), e.c, key), old(state), e)
    {
      hide NumberAccess, IntegerAccess, BooleanAccess, KeywordAccess, FunctionListAccess, ListParameter;
      match key
      case DisplayState =>
        var v := AccessBoolean(e, state.display.enabled);
        state := state.(display := state.display.(enabled := v));
      case DisplayFunctions =>
        var v := AccessFunctionList(e, state.display.functions);
        state := state.(display := state.display.(functions := v));
      case OutputState =>
        if e.c.Suffix() != 9 {
          Fail(e, Undefined("OUTPut" + IntText(e.c.Suffix())));
          return;
        }
        var v := AccessBoolean(e, state.display.output);
        state := state.(display := state.display.(output := v));
    }

    /** SYST:ERR? takes the oldest entry out of the queue. */
    method HandleErrorNext(e: Execution)
      requires e.Fresh()
      modifies this`state, e
      ensures Realized(SystemEffect(old(state), e.c, ErrorNext, options.scpiVersion), old(state), e)
    {
      var ok := RequireQuery(e, "SYST:ERR");
      if !ok { return; }
      if state.errors == [] {
        e.response := Some(NO_ERROR);
      } else {
        var entry := state.errors[0];
        state := state.(errors := state.errors[1..]);
        e.response := Some(EntryText(entry));
      }
    }

    /** SYST:ERR:ALL? takes the entries out one by one and lists them on one line. */
    method HandleErrorAll(e: Execution)
      requires e.Fresh()
      modifies this`state, e
      ensures Realized(SystemEffect(old(state), e.c, ErrorAll, options.scpiVersion), old(state), e)
    {
      hide EntryText;
      var ok := RequireQuery(e, "SYST:ERR:ALL");
      if !ok { return; }
      if state.errors == [] {
        e.response := Some(NO_ERROR);
        return;
      }
      var text := "";
      ghost var queue := state.errors;
      ghost var taken := 0;
      while state.errors != []
        invariant taken <= |queue| && state == old(state).(errors := queue[taken..]) && e.Fresh()
        invariant text == Join(EntryTexts(queue[..taken]), ',')
        invariant taken > 0 ==> text != ""
        decreases |state.errors|
      {
        var entry := state.errors[0];
        ghost var before := EntryTexts(queue[..taken]);
        assert EntryTexts(queue[..taken + 1]) == before + [EntryText(entry)];
        if text != "" {
          JoinAppend(before, EntryText(entry), ',');
          text := text + [','];
        } else {
          assert taken == 0 && before == [];
        }
        state := state.(errors := state.errors[1..]);
        text := text + EntryText(entry);
        taken := taken + 1;
      }
      assert queue[..taken] == queue;
      e.response := Some(text);
    }

    method HandleSystem(e: Execution, key: SystemKey)
      requires e.Fresh()
      modifies this`state, e
      ensures Realized(SystemEffect(old(state), e.c, key, options.scpiVersion), old(state), e)
    {
      hide NumberAccess, IntegerAccess, BooleanAccess, KeywordAccess, FunctionListAccess, ListParameter;
      match key
      case ScpiVersion =>
        var ok := RequireQuery(e, "SYST:VERS");
        if ok { e.response := Some(options.scpiVersion); }
      case ErrorNext => HandleErrorNext(e);
      case ErrorAll => HandleErrorAll(e);
      case KeyLock =>
        var v := AccessKeyword(e, state.system.keyLock, KEY_LOCKS);
        state := state.(system := state.system.(keyLock := v));
      case Language =>
        var v := AccessText(e, "\"" + state.system.language + "\"", state.system.language);
        state := state.(system := state.system.(language := v));
      case SystemDate => HandleDate(e);
      case SystemTime => HandleTime(e);
      case GpibAddress =>
        var v := AccessInteger(e, state.system.gpibAddress, 1, 30);
        state := state.(system := state.system.(gpibAddress := v));
      case SerialBaud =>
        var v := AccessInteger(e, state.system.serialBaud, 1200, 115200);
        state := state.(system := state.system.(serialBaud := v));
    }

    method HandleDate(e: Execution)
      requires e.Fresh()
      modifies this`state, e
      ensures Realized(DateEffect(old(state), e.c), old(state), e)
    {
      var d := state.system.date;
      if e.c.query {
        e.response := Some(ThreeText(d.year, d.month, d.day));
        return;
      }
      if |e.c.args| < 3 {
        Fail(e, Expected("year,month,day"));
        return;
      }
      var year, month, day := ParseNumber(e.c.args[0]), ParseNumber(e.c.args[1]), ParseNumber(e.c.args[2]);
      if year.None? || month.None? || day.None? {
        Fail(e, Illegal("SYSTem:DATE"));
        return;
      }
      if month.value < 1.0 || month.value > 12.0 || day.value < 1.0 || day.value > 31.0 {
        Fail(e, OutOfRange("SYSTem:DATE"));
        return;
      }
      state := state.(system := state.system.(date := Date(Truncate(year.value), Truncate(month.value), Truncate(day.value))));
    }

    method HandleTime(e: Execution)
      requires e.Fresh()
      modifies this`state, e
      ensures Realized(TimeEffect(old(state), e.c), old(state), e)
    {
      var t := state.system.time;
      if e.c.query {
        e.response := Some(ThreeText(t.hours, t.minutes, t.seconds));
        return;
      }
      if |e.c.args| < 3 {
        Fail(e, Expected("hours,minutes,seconds"));
        return;
      }
      var h, m, x := ParseNumber(e.c.args[0]), ParseNumber(e.c.args[1]), ParseNumber(e.c.args[2]);
      if h.None? || m.None? || x.None? {
        Fail(e, Illegal("SYSTem:TIME"));
        return;
      }
      if h.value < 0.0 || h.value > 23.0 || m.value < 0.0 || m.value > 59.0 || x.value < 0.0 || x.value > 59.0 {
        Fail(e, OutOfRange("SYSTem:TIME"));
        return;
      }
      state := state.(system := state.system.(time := Time(Truncate(h.value), Truncate(m.value), Truncate(x.value))));
    }

    // ------------------------------------------------------------------------ CALCulate

    method HandleTransformCycles(e: Execution)
      requires e.Fresh()
      modifies this`state, e
      ensures Realized(CyclesEffect(old(state), e.c), old(state), e)
    {
      hide ParseNumber, IntText;
      if e.c.query {
        e.response := Some(IntText(state.transform.cycles));
        return;
      }
      var cycles := AccessInteger(e, state.transform.cycles, 4, 12);
      if e.failed { return; }
      if cycles != 4 && cycles != 6 && cycles != 8 && cycles != 10 && cycles != 12 {
        Fail(e, Illegal(IntText(cycles)));
        return;
      }
      state := state.(transform := state.transform.(cycles := cycles));
    }

    method HandleTransform(e: Execution, key: TransformKey)
      requires e.Fresh()
      modifies this`state, e
      ensures Realized(TransformEffect(old(W()), old(state), e.c, key), old(state), e)
    {
      hide NumberAccess, IntegerAccess, BooleanAccess, KeywordAccess, FunctionListAccess, ListParameter;
      match key
      case TransformOnce =>
        if e.c.query {
          Fail(e, Undefined("CALC:TRAN:FREQ:STAT"));
          return;
        }
        var text := Parameter(e);
        if text.Some? && !Spelled(Upper(text.value), "ONCE", "ONCE") { Fail(e, Illegal(text.value)); }
      case TransformMode =>
        var v := AccessKeyword(e, state.transform.mode, TRANSFORM_MODES);
        state := state.(transform := state.transform.(mode := v));
      case TransformFunctions =>
        var v := AccessFunctionList(e, state.transform.functions);
        state := state.(transform := state.transform.(functions := v));
      case TransformStart =>
        var v := AccessNumber(e, state.transform.start, 0.0, 1000000.0);
        state := state.(transform := state.transform.(start := v));
      case TransformStop =>
        var v := AccessNumber(e, state.transform.stop, 0.0, 1000000.0);
        state := state.(transform := state.transform.(stop := v));
      case TransformCycles => HandleTransformCycles(e);
      case TransformGrouping =>
        var v := AccessKeyword(e, state.transform.grouping, GROUPINGS);
        state := state.(transform := state.transform.(grouping := v));
    }

    /** Reads the optional <count>[,<offset>[,<sparsing>]] of a data query. */
    method ReadWindowArguments(e: Execution, first: nat) returns (x: WindowArguments)
      requires e.Fresh()
      modifies this`state, e`failed
      ensures Accessed(ReadWindow(e.c.args, first), x, x, old(state), e)
    {
      hide ParseNumber;
      x := WindowArguments(0, 0, 0);
      var args := e.c.args;
      var i := 0;
      while i < 3
        invariant 0 <= i <= 3 && state == old(state) && e.Fresh()
        invariant ReadWindow(args, first) == ReadWindowFrom(args, first, i, x)
      {
        var index := first + i;
        if index >= |args| || args[index] == "" {
          break;
        }
        var value := ParseNumber(args[index]);
        if value.None? || value.value < 0.0 {
          Fail(e, Illegal(args[index]));
          return;
        }
        x := WithArgument(x, i, Lround(value.value));
        i := i + 1;
      }
    }

    method HandleSpectrum(e: Execution, key: SpectrumKey)
      requires e.Fresh()
      modifies this`state, e
      ensures Realized(SpectrumEffect(old(W()), old(state), e.c, key), old(state), e)
    {
      match key
      case SpectrumData =>
        var ok := RequireQuery(e, "CALC:DATA");
        if !ok { return; }
        var x := ReadWindowArguments(e, 0);
        if e.failed { return; }
        var fundamental := if signal.present then signal.phases[0].voltageRms else 0.0;
        var window := ApplyWindow(Effects.Spectrum(fundamental), x.count, x.offset, x.sparsing);
        e.response := Some(Join(FormatValues(host, state, window), ','));
      case SpectrumPreamble =>
        var ok := RequireQuery(e, "CALC:DATA:PRE");
        if ok {
          e.response := Some(IntText(SPECTRUM_LINES) + "," + IntText(MaxInt(|state.transform.functions|, 1)) + ","
                             + host.formatSetting(signal.frequency) + "," + host.formatSetting(state.transform.start));
        }
      case SpectrumThd =>
        var ok := RequireQuery(e, "CALC:DATA:THD");
        if !ok { return; }
        if state.transform.mode != Std {
          Fail(e, Conflict("THD requires TRANsform:FREQuency:MODE STD"));
          return;
        }
        e.response := Some(Join(FormatSettings(host,
          [signal.phases[0].voltageThd, signal.phases[1].voltageThd, signal.phases[2].voltageThd]), ','));
    }

    method HandleIntegralRun(e: Execution, key: IntegralKey)
      requires e.Fresh() && (key.ClearNow? || key.StartNow? || key.StopNow? || key.StartTime? || key.StopTime?)
      modifies this`state, e
      ensures Realized(IntegralEffect(old(W()), old(state), e.c, key), old(state), e)
    {
      hide NumberAccess, BooleanAccess, KeywordAccess, FunctionListAccess;
      match key
      case ClearNow =>
        var ok := RequireCommand(e, "CALC:INT:CLE");
        if ok { state := state.(system := state.system.(timerSeconds := 0.0)); }
      case StartNow =>
        var ok := RequireCommand(e, "CALC:INT:STAR");
        if !ok { return; }
        if !state.integral.enabled {
          Fail(e, Conflict("CALCulate:INTegral:STATe is OFF"));
          return;
        }
        state := state.(integral := state.integral.(running := true));
      case StopNow =>
        var ok := RequireCommand(e, "CALC:INT:STOP");
        if ok { state := state.(integral := state.integral.(running := false)); }
      case StartTime => HandleTimestamp(e, "CALC:INT:STAR:TIME");
      case StopTime => HandleTimestamp(e, "CALC:INT:STOP:TIME");
    }

    method HandleIntegralSource(e: Execution, key: IntegralKey)
      requires e.Fresh() && (key.StartSource? || key.StopSource? || key.StopInterval?)
      modifies this`state, e
      ensures Realized(IntegralEffect(old(W()), old(state), e.c, key), old(state), e)
    {
      hide NumberAccess, BooleanAccess, KeywordAccess, FunctionListAccess, TimestampEffect;
      if key.StartSource? {
        var v := AccessKeyword(e, state.integral.startSource, START_SOURCES);
        state := state.(integral := state.integral.(startSource := v));
      } else if key.StopSource? {
        var v := AccessKeyword(e, state.integral.stopSource, STOP_SOURCES);
        state := state.(integral := state.integral.(stopSource := v));
      } else {
        var v := AccessNumber(e, state.integral.stopInterval, 0.001, 9990000.0);
        state := state.(integral := state.integral.(stopInterval := v));
      }
    }

    method HandleIntegralState(e: Execution)
      requires e.Fresh()
      modifies this`state, e
      ensures Realized(IntegralEffect(old(W()), old(state), e.c, IntegralState), old(state), e)
    {
      hide NumberAccess, BooleanAccess, KeywordAccess, FunctionListAccess, TimestampEffect;
      var v := AccessBoolean(e, state.integral.enabled);
      state := state.(integral := state.integral.(enabled := v));
    }

    method HandleAutoClear(e: Execution)
      requires e.Fresh()
      modifies this`state, e
      ensures Realized(IntegralEffect(old(W()), old(state), e.c, ClearAuto), old(state), e)
    {
      hide NumberAccess, BooleanAccess, KeywordAccess, FunctionListAccess, TimestampEffect;
      var v := AccessBoolean(e, state.integral.autoClear);
      state := state.(integral := state.integral.(autoClear := v));
    }

    method HandleIntegral(e: Execution, key: IntegralKey)
      requires e.Fresh()
      modifies this`state, e
      ensures Realized(IntegralEffect(old(W()), old(state), e.c, key), old(state), e)
    {
      hide NumberAccess, BooleanAccess, KeywordAccess, FunctionListAccess, TimestampEffect;
      match key
      case IntegralState => HandleIntegralState(e);
      case IntegralFunctions =>
        var v := AccessFunctionList(e, state.integral.functions);
        state := state.(integral := state.integral.(functions := v));
      case ClearAuto => HandleAutoClear(e);
      case StartSource => HandleIntegralSource(e, key);
      case StopSource => HandleIntegralSource(e, key);
      case StopInterval => HandleIntegralSource(e, key);
      case _ => HandleIntegralRun(e, key);
    }

    method HandleHarmonicOrder(e: Execution)
      requires e.Fresh()
      modifies this`state, e
      ensures Realized(HarmonicOrderEffect(old(state), e.c), old(state), e)
    {
      hide IntegerAccess;
      var v := AccessInteger(e, state.power.harmonicOrder, 0, 100);
      state := state.(power := state.power.(harmonicOrder := v));
    }

    method HandleCorrection(e: Execution)
      requires e.Fresh()
      modifies this`state, e
      ensures Realized(CorrectionEffect(old(state), e.c), old(state), e)
    {
      hide KeywordAccess;
      var v := AccessKeyword(e, state.power.correction, CORRECTIONS);
      state := state.(power := state.power.(correction := v));
    }

    method HandleReference(e: Execution)
      requires e.Fresh()
      modifies this`state, e
      ensures Realized(ReferenceEffect(old(state), e.c), old(state), e)
    {
      var suffix := e.c.AggregateSuffix();
      if suffix != 0 && suffix != 460 {
        Fail(e, Undefined("CALCulate:POWer" + IntText(suffix)));
        return;
      }
      if e.c.query {
        e.response := Some("\"" + state.power.efficiencyInput + "\",\"" + state.power.efficiencyOutput + "\"");
        return;
      }
      if |e.c.args| < 2 {
        Fail(e, Expected("<function1>,<function2>"));
        return;
      }
      state := state.(power := state.power.(efficiencyInput := Upper(Unquote(e.c.args[0]))));
      state := state.(power := state.power.(efficiencyOutput := Upper(Unquote(e.c.args[1]))));
    }

    // ---------------------------------------------------------------------------- TRACe

    /** The recording: every function's points one after another, and their statuses alike. */
    method Record(functions: seq<string>, points: nat) returns (values: seq<Value>, status: seq<real>)
      requires MeasureAll(W(), state, functions).Some?
      ensures values == AllTraceValues(MeasureAll(W(), state, functions).value, points)
      ensures status == AllTraceStatuses(MeasureAll(W(), state, functions).value, points)
    {
      var measured := MeasureEach(functions);
      values, status := RepeatPoints(measured, points);
    }

    /** The recording of one block, cut to the window. */
    method Recording(x: SweepConfig, statuses: bool, window: WindowArguments) returns (text: string)
      requires TraceResponse(W(), state, x, statuses, window).Some?
      ensures Some(text) == TraceResponse(W(), state, x, statuses, window)
    {
      var functions := if x.functions == [] then state.sense.functions else x.functions;
      var values, status := Record(functions, MaxInt(TracePoints(state), 0));
      if statuses {
        var cut := ApplyWindow(status, window.count, window.offset, window.sparsing);
        text := Join(FormatSettings(host, cut), ',');
      } else {
        var cut := ApplyWindow(values, window.count, window.offset, window.sparsing);
        text := Join(FormatValues(host, state, cut), ',');
      }
    }

    method HandleRecording(e: Execution, key: TraceKey)
      requires e.Fresh() && !RecordingEffect(W(), state, e.c, key).Hang?
      modifies this`state, e
      ensures Realized(RecordingEffect(old(W()), old(state), e.c, key), old(state), e)
    {
      hide BlockParameter, ReadWindow, TraceResponse;
      var ok := RequireQuery(e, TraceName(key));
      if !ok { return; }
      var block := ReadBlock(e);
      if e.failed { return; }
      var x := if block == 1 then state.sweep[1] else state.sweep[2];
      if key.TracePreamble? {
        e.response := Some(Preamble(W(), state, x));
        return;
      }
      var window := ReadWindowArguments(e, 1);
      if e.failed { return; }
      var text := Recording(x, key.TraceStatus?, window);
      e.response := Some(text);
    }

    method ReadBlock(e: Execution) returns (block: int)
      requires e.Fresh()
      modifies this`state, e`failed
      ensures Accessed(BlockParameter(e.c), block, block, old(state), e)
    {
      block := 0;
      if e.c.args == [] {
        Fail(e, Expected("<block>"));
        return;
      }
      var number := ParseNumber(e.c.args[0]);
      if number.None? || (number.value != 1.0 && number.value != 2.0) {
        Fail(e, Illegal(e.c.args[0]));
        return;
      }
      block := if number.value == 1.0 then 1 else 2;
    }

    method HandleTrace(e: Execution, key: TraceKey)
      requires e.Fresh() && !TraceEffect(W(), state, e.c, key).Hang?
      modifies this`state, e
      ensures Realized(TraceEffect(old(W()), old(state), e.c, key), old(state), e)
    {
      hide RecordingEffect;
      if key.TraceFree? {
        var ok := RequireQuery(e, TraceName(key));
        if ok { e.response := Some(IntText(TRACE_CAPACITY - TracePoints(state))); }
      } else if key.TraceLength? {
        var ok := RequireQuery(e, TraceName(key));
        if ok { e.response := Some(IntText(TracePoints(state))); }
      } else if key.TraceDelete? {
        var ok := RequireCommand(e, TraceName(key));
        if ok { SwitchSweepsOff(); }
      } else {
        HandleRecording(e, key);
      }
    }

    method HandleEvent(e: Execution, r: Register)
      requires e.Fresh()
      modifies this`state, e
      ensures Realized(EventEffect(old(W()), old(state), e.c, r), old(state), e)
    {
      var ok := RequireQuery(e, "STAT:" + RegisterName(r) + ":EVEN");
      if ok {
        var event := LatchEvent(r);
        e.response := Some(IntText(BitsValue(event)));
        StoreRegister(r, state.status.Get(r).(event := {}));
      }
    }

    method StoreRegister(r: Register, x: RegisterState)
      modifies this`state
      ensures state == WithRegister(old(state), r, x)
      ensures x == old(state).status.Get(r) ==> state == old(state)
    {
      state := state.(status := state.status.Set(r, x));
    }

    method HandleTransition(e: Execution, r: Register, part: RegisterPart)
      requires e.Fresh() && (part.PositiveTransition? || part.NegativeTransition?)
      modifies this`state, e
      ensures Realized(StatusEffect(old(W()), old(state), e.c, r, part), old(state), e)
    {
      hide IntegerAccess, EventEffect, ConditionOf, RegisterName;
      var x := state.status.Get(r);
      if part.PositiveTransition? {
        var v := AccessInteger(e, x.ptransition, 0, 65535);
        StoreRegister(r, x.(ptransition := v));
      } else {
        var v := AccessInteger(e, x.ntransition, 0, 65535);
        StoreRegister(r, x.(ntransition := v));
      }
    }

    method HandleStatus(e: Execution, r: Register, part: RegisterPart)
      requires e.Fresh()
      modifies this`state, e
      ensures Realized(StatusEffect(old(W()), old(state), e.c, r, part), old(state), e)
    {
      hide IntegerAccess, EventEffect, ConditionOf, RegisterName, BitsValue, IntText;
      var x := state.status.Get(r);
      match part
      case Condition =>
        var ok := RequireQuery(e, "STAT:" + RegisterName(r) + ":COND");
        if ok {
          var bits := Condition_(r);
          e.response := Some(IntText(BitsValue(bits)));
        }
      case Event => HandleEvent(e, r);
      case Enable =>
        var v := AccessInteger(e, x.enable, 0, 65535);
        StoreRegister(r, x.(enable := v));
      case PositiveTransition => HandleTransition(e, r, part);
      case NegativeTransition => HandleTransition(e, r, part);
    }

    method HandleTimer(e: Execution, key: TimerKey)
      requires e.Fresh()
      modifies this`state, e
      ensures Realized(TimerEffect(old(W()), old(state), e.c, key), old(state), e)
    {
      match key
      case ResetNow =>
        var ok := RequireCommand(e, "TIM:RES");
        if ok { state := state.(system := state.system.(timerSeconds := 0.0)); }
      case ResetTime =>
        var ok := RequireQuery(e, "TIM:RES:TIME");
        if ok { e.response := Some(host.formatSetting(state.system.timerSeconds)); }
      case ResetAuto => Fail(e, Undefined("TIMer:RESet:AUTO"));
    }

    // -------------------------------------------------------------------- the command line

    /** The measuring part of the command tree. */
    method HandleSense(e: Execution)
      requires e.Fresh() && !EffectOf(W(), state, e.c).Hang?
      requires e.c.key.Ranging? || e.c.key.Aperture? || e.c.key.SamplingFrequency? || e.c.key.Functions? || e.c.key.Data? || e.c.key.Sweep?
      modifies this`state, e
      ensures Realized(EffectOf(old(W()), old(state), e.c), old(state), e)
    {
      hide CommonEffect, AbortEffect, RouteEffect, InputEffect, RangingEffect, ApertureEffect, FunctionEffect, DataEffect,
           SweepEffect, SyncEffect, AcquisitionEffect, TriggerEffect, TransformEffect, SpectrumEffect, IntegralEffect,
           HarmonicOrderEffect, CorrectionEffect, ReferenceEffect, TraceEffect, FormatEffect, DisplayEffect, SystemEffect,
           StatusEffect, TimerEffect;
      match e.c.key
      case Ranging(voltage, key) => HandleRanging(e, voltage, key);
      case Aperture => HandleAperture(e);
      case SamplingFrequency =>
        var ok := RequireQuery(e, "SWE:FREQ");
        if ok { e.response := Some(host.formatSetting(state.sense.samplingFrequency)); }
      case Functions(key) => HandleFunctions(e, key);
      case Data(withStatus) => HandleData(e, withStatus);
      case Sweep(key) => HandleSweep(e, key);
    }

    method HandleCalculate(e: Execution)
      requires e.Fresh()
      requires e.c.key.Transform? || e.c.key.Spectrum? || e.c.key.Integral? || e.c.key.HarmonicOrder? || e.c.key.PowerCorrection?
            || e.c.key.EfficiencyReference?
      modifies this`state, e
      ensures Realized(EffectOf(old(W()), old(state), e.c), old(state), e)
    {
      hide CommonEffect, AbortEffect, RouteEffect, InputEffect, RangingEffect, ApertureEffect, FunctionEffect, DataEffect,
           SweepEffect, SyncEffect, AcquisitionEffect, TriggerEffect, TransformEffect, SpectrumEffect, IntegralEffect,
           HarmonicOrderEffect, CorrectionEffect, ReferenceEffect, TraceEffect, FormatEffect, DisplayEffect, SystemEffect,
           StatusEffect, TimerEffect;
      match e.c.key
      case Transform(key) => HandleTransform(e, key);
      case Spectrum(key) => HandleSpectrum(e, key);
      case Integral(key) => HandleIntegral(e, key);
      case HarmonicOrder => HandleHarmonicOrder(e);
      case PowerCorrection => HandleCorrection(e);
      case EfficiencyReference => HandleReference(e);
    }

    /** What is realized is atomic. */
    lemma RealizedIsAtomic(w: World, before: State, e: Execution)
      requires Realized(EffectOf(w, before, e.c), before, e)
      ensures Atomic(before, e)
    {
      hide EffectOf, PushError;
      Queries.OnlyQueriesAnswer(w, before, e.c);
      var effect := EffectOf(w, before, e.c);
      if effect.Reject? {
        Rejections.PushErrorKeepsSettings(before, effect.code, effect.message);
        Rejections.PushErrorIsOneMore(before, effect.code, effect.message);
      }
    }

    /** Hands the command to its subsystem. Every key of the table has a handler. */
    method Execute(e: Execution)
      requires e.Fresh() && !EffectOf(W(), state, e.c).Hang?
      modifies this`state, e
      ensures Realized(EffectOf(old(W()), old(state), e.c), old(state), e)
      ensures Atomic(old(state), e)
    {
      ExecuteRealizes(e);
      RealizedIsAtomic(old(W()), old(state), e);
    }

    method ExecuteRealizes(e: Execution)
      requires e.Fresh() && !EffectOf(W(), state, e.c).Hang?
      modifies this`state, e
      ensures Realized(EffectOf(old(W()), old(state), e.c), old(state), e)
    {
      hide CommonEffect, AbortEffect, RouteEffect, InputEffect, RangingEffect, ApertureEffect, FunctionEffect, DataEffect,
           SweepEffect, SyncEffect, AcquisitionEffect, TriggerEffect, TransformEffect, SpectrumEffect, IntegralEffect,
           HarmonicOrderEffect, CorrectionEffect, ReferenceEffect, TraceEffect, FormatEffect, DisplayEffect, SystemEffect,
           StatusEffect, TimerEffect;
      match e.c.key
      case Common(key) => HandleCommon(e, key);
      case Abort => HandleAbort(e);
      case RouteSystem => HandleRoute(e);
      case Input(key) => HandleInput(e, key);
      case Sync(key) => HandleSync(e, key);
      case Initiate(key) => HandleInitiate(e, key);
      case Trigger(start, key) => HandleTrigger(e, start, key);
      case Trace(key) => HandleTrace(e, key);
      case Format(key) => HandleFormat(e, key);
      case Display(key) => HandleDisplay(e, key);
      case System(key) => HandleSystem(e, key);
      case Status(r, part) => HandleStatus(e, r, part);
      case Timer(key) => HandleTimer(e, key);
      case Ranging(_, _) => HandleSense(e);
      case Aperture => HandleSense(e);
      case SamplingFrequency => HandleSense(e);
      case Functions(_) => HandleSense(e);
      case Data(_) => HandleSense(e);
      case Sweep(_) => HandleSense(e);
      case Transform(_) => HandleCalculate(e);
      case Spectrum(_) => HandleCalculate(e);
      case Integral(_) => HandleCalculate(e);
      case HarmonicOrder => HandleCalculate(e);
      case PowerCorrection => HandleCalculate(e);
      case EfficiencyReference => HandleCalculate(e);
    }

    /** One piece: its request is looked up and carried out, and the shared path moves on. */
    method RunPiece(text: string, path: seq<Token>) returns (next: seq<Token>, response: Option<string>, failed: bool)
      requires !CommandLine.Perform(W(), state, CommandLine.RequestFor(specs, text, path)).Hang?
      modifies this`state
      ensures next == CommandLine.NextPath(text, path)
      ensures var effect := CommandLine.Perform(old(W()), old(state), CommandLine.RequestFor(specs, text, path));
              match effect
              case Done(after, answer) => state == after && response == answer && !failed
              case Reject(code, message) => state == PushError(old(state), code, message) && response == None && failed
              case Hang => false
    {
      hide EffectOf, CommandLine.RequestFor, CommandLine.NextPath;
      var request;
      request, next := Interpret(text, path);
      response, failed := None, true;
      match request
      case Unknown(echo) => PushErrorEntry(UNDEFINED_HEADER, "Undefined header;" + echo);
      case Known(command) =>
        var e := new Execution(command);
        Execute(e);
        response, failed := e.response, e.failed;
    }

    /** Looks the header of a piece up, on the shared path unless it is absolute or common. */
    method Interpret(text: string, path: seq<Token>) returns (request: CommandLine.Request, next: seq<Token>)
      ensures request == CommandLine.RequestFor(specs, text, path) && next == CommandLine.NextPath(text, path)
    {
      hide Dispatch, CommandLine.PieceOf, CommandLine.HeaderTokens, CommonKeyOf;
      var piece := CutPiece(text);
      if CommandLine.IsCommon(piece.header) {
        next := path;
        var key := CommonKeyOf(Upper(piece.header));
        request := if key.None? then CommandLine.Unknown(text)
                   else CommandLine.Known(Command(Common(key.value), [], piece.query, piece.args));
        return;
      }
      var tokens := ReadTokens(piece.header, path);
      next := tokens[..|tokens| - 1];
      var selected := Select(specs, tokens);
      request := if selected.None? then CommandLine.Unknown(text)
                 else CommandLine.Known(Command(selected.value.key, selected.value.suffixes, piece.query, piece.args));
    }

    /** One command line, piece by piece, until a piece fails. The response line holds the responses of its queries. */
    method HandleLine(line: string) returns (response: Option<string>)
      requires !CommandLine.RunLine(CommandLine.Simulator(W()), state, line).ending.Hung?
      modifies this`state, this`handledLines
      ensures CommandLine.RunLine(CommandLine.Simulator(old(W())), old(state), line).ending.Stopped? ==>
                Rejections.PrefixAndError(CommandLine.Simulator(old(W())), old(state), line, state, response)
      ensures state == CommandLine.RunLine(CommandLine.Simulator(old(W())), old(state), line).state
      ensures response == CommandLine.Response(CommandLine.RunLine(CommandLine.Simulator(old(W())), old(state), line))
      ensures handledLines == old(handledLines) + 1
    {
      hide EffectOf, CommandLine.RequestFor, CommandLine.NextPath, CommandLine.RunPieces, PushError, Trim, Join,
           Rejections.PrefixAndError;
      handledLines := handledLines + 1;
      ghost var w, m := W(), CommandLine.Simulator(W());
      ghost var total := CommandLine.RunLine(m, state, line);
      var pieces := SplitUnquoted(line, ';');
      var responses: seq<string> := [];
      var path: seq<Token> := [];
      var stopped := false;
      var i := 0;
      assert pieces[0..] == pieces;
      while i < |pieces| && !stopped
        invariant i <= |pieces| && W() == w && handledLines == old(handledLines) + 1
        invariant !stopped ==> total == CommandLine.Prepend(responses, CommandLine.RunPieces(m, state, pieces[i..], path))
        invariant stopped ==> total.state == state && total.responses == responses
        decreases |pieces| - i, !stopped
      {
        var text := Trim(pieces[i]);
        ghost var rest, before, walked := pieces[i..], state, path;
        assert rest[0] == pieces[i] && rest[1..] == pieces[i + 1..];
        if text == "" {
          CommandLine.PrependNothing(m, before, rest, walked, responses);
        } else {
          ghost var effect := CommandLine.Perform(w, before, CommandLine.RequestFor(w.specs, text, walked));
          CommandLine.PrependStep(m, before, rest, walked, responses, effect);
          var next, answer, failed := RunPiece(text, path);
          path := next;
          responses := responses + CommandLine.Listed(answer);
          stopped := failed;
        }
        i := i + 1;
      }
      if !stopped {
        assert pieces[i..] == [];
        CommandLine.PrependNothing(m, state, [], path, responses);
      }
      response := if responses == [] then None else Some(Join(responses, ';'));
      Rejections.RejectionIsAtomic(w, old(state), line);
    }
  }

  // --------------------------------------------------------------------- reading a piece

  /** Separates the header from its parameters at the first white space outside a quoted string. */
  method CutPiece(text: string) returns (piece: CommandLine.Piece)
    ensures piece == CommandLine.PieceOf(text)
  {
    hide CommandLine.HeaderEnd, Split, Trim;
    var split := CommandLine.FindHeaderEnd(text);
    var header := text[..split];
    var parameters := if split < |text| then Trim(text[split + 1..]) else "";
    var query := false;
    if header != "" && header[|header| - 1] == '?' {
      query := true;
      header := header[..|header| - 1];
    }
    var args := [];
    if parameters != "" {
      var raw := SplitUnquoted(parameters, ',');
      for i := 0 to |raw|
        invariant args == TrimAll(raw[..i])
      {
        TrimAllAppend(raw[..i], raw[i]);
        assert raw[..i + 1] == raw[..i] + [raw[i]];
        args := args + [Trim(raw[i])];
      }
      assert raw[..|raw|] == raw;
    }
    piece := CommandLine.Piece(header, query, args);
  }

  /** The tokens of a header, after those of the shared path when it is relative. */
  method ReadTokens(header: string, path: seq<Token>) returns (tokens: seq<Token>)
    ensures tokens == CommandLine.HeaderTokens(header, path)
  {
    tokens := if CommandLine.IsAbsolute(header) then [] else path;
    hide TokenOf, Split;
    var nodes := SplitUnquoted(if CommandLine.IsAbsolute(header) then header[1..] else header, ':');
    ghost var front := tokens;
    for i := 0 to |nodes|
      invariant tokens == front + TokensOf(nodes[..i])
    {
      var token := MakeToken(nodes[i]);
      assert TokensOf(nodes[..i + 1]) == TokensOf(nodes[..i]) + [token];
      tokens := tokens + [token];
    }
    assert nodes[..|nodes|] == nodes;
  }

  // ------------------------------------------------------------------------ small facts

  lemma {:induction false} MeasureAllPrefix(w: World, s: State, functions: seq<string>, n: nat)
    requires MeasureAll(w, s, functions).Some? && n <= |functions|
    ensures MeasureAll(w, s, functions[..n]).Some?
    decreases |functions| - n
  {
    hide Measure;
    if n < |functions| {
      MeasureAllPrefix(w, s, functions, n + 1);
      assert functions[..n + 1][..n] == functions[..n];
    } else {
      assert functions[..n] == functions;
    }
  }

  lemma KeepConfig(s: State, voltage: bool, phase: int)
    requires 1 <= phase <= MAX_PHASE
    ensures WithConfig(s, voltage, phase, ConfigOf(s, voltage, phase)) == s
  {}

  lemma ChannelBit(w: World, s: State, voltage: bool, phase: int)
    requires 1 <= phase <= MAX_PHASE
    ensures phase - 1 in ChannelBits(w, s, voltage) <==> OVERRANGE in RangeStatus(ConfigOf(s, voltage, phase), RawOf(w, voltage, phase))
    ensures phase + 7 in ChannelBits(w, s, voltage) <==> UNDERRANGE in RangeStatus(ConfigOf(s, voltage, phase), RawOf(w, voltage, phase))
  {}

  lemma {:induction false} AllTraceAppend(ms: seq<Measured>, m: Measured, points: nat)
    ensures AllTraceValues(ms + [m], points) == AllTraceValues(ms, points) + TraceValues(m, points)
    ensures AllTraceStatuses(ms + [m], points) == AllTraceStatuses(ms, points) + TraceStatuses(m, points)
  {
    if ms == [] {
      assert [m][1..] == [];
      assert ms + [m] == [m];
    } else {
      assert (ms + [m])[1..] == ms[1..] + [m];
      AllTraceAppend(ms[1..], m, points);
    }
  }

  /** `points` points of every measurement, walking downwards from the measured value. */
  method RepeatPoints(measured: seq<Measured>, points: nat) returns (values: seq<Value>, status: seq<real>)
    ensures values == AllTraceValues(measured, points) && status == AllTraceStatuses(measured, points)
  {
    values, status := [], [];
    for i := 0 to |measured|
      invariant values == AllTraceValues(measured[..i], points) && status == AllTraceStatuses(measured[..i], points)
    {
      AllTraceAppend(measured[..i], measured[i], points);
      assert measured[..i + 1] == measured[..i] + [measured[i]];
      ghost var v0, s0 := values, status;
      for point := 0 to points
        invariant values == v0 + TraceValues(measured[i], points)[..point]
        invariant status == s0 + TraceStatuses(measured[i], points)[..point]
      {
        values := values + [Times(measured[i].value, 1.0 - 0.001 * point as real)];
        status := status + [BitsValue(measured[i].status) as real];
      }
      assert TraceValues(measured[i], points)[..points] == TraceValues(measured[i], points);
      assert TraceStatuses(measured[i], points)[..points] == TraceStatuses(measured[i], points);
    }
    assert measured[..|measured|] == measured;
  }

  /** Cuts the requested window out of a series. */
  method ApplyWindow<T>(source: seq<T>, count: int, offset: int, sparsing: int) returns (out: seq<T>)
    ensures out == Window(source, count, offset, sparsing)
  {
    out := [];
    var step := MaxInt(sparsing, 1);
    var i := MaxInt(offset, 0);
    while i < |source|
      invariant i >= 0
      invariant Window(source, count, offset, sparsing) == out + WindowFrom(source, i, step, count, |out|)
      decreases |source| - i
    {
      if count > 0 && |out| >= count {
        return;
      }
      out := out + [source[i]];
      i := i + step;
    }
  }
}
