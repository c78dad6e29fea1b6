/** Windows over a recorded series: which elements they hold, how a client asks for them, and how they join up. */
module Windows {
  import opened Wrappers
  import opened Text
  import opened Decimal
  import opened Commands
  import opened Headers
  import opened Instrument
  import opened Measurement
  import opened Effects
  import opened CommandLine
  import opened Client
  import opened ClientLines
  import opened DataLoop

  // ------------------------------------------------------------------------- exact elements

  /** How many elements lie at `first`, `first + step`, ... below `n`. */
  function Reachable(n: nat, first: nat, step: nat): (k: nat)
    requires step >= 1
    ensures k == 0 <==> n <= first
    ensures k > 0 ==> first + (k - 1) * step < n <= first + k * step
  {
    if n <= first then 0
    else
      assert (n - first + step - 1) / step >= 1;
      (n - first + step - 1) / step
  }

  lemma Scale(a: int, b: int, step: nat)
    ensures a <= b ==> a * step <= b * step
  {}

  /** The bounds determine the number. */
  lemma ReachableIs(n: nat, first: nat, step: nat, k: nat)
    requires step >= 1 && k > 0 && first + (k - 1) * step < n <= first + k * step
    ensures Reachable(n, first, step) == k
  {
    var r := Reachable(n, first, step);
    Scale(0, k - 1, step);
    Scale(r, k - 1, step);
    Scale(k, r - 1, step);
  }

  lemma ReachableStep(n: nat, first: nat, step: nat)
    requires step >= 1 && first < n
    ensures Reachable(n, first, step) == 1 + Reachable(n, first + step, step)
  {
    var m := Reachable(n, first + step, step);
    assert first + step + (m - 1) * step == first + m * step;
    assert first + step + m * step == first + (m + 1) * step;
    ReachableIs(n, first, step, m + 1);
  }

  /** The number of elements of a window: as many as asked for, as far as they reach. */
  function WindowSize(n: nat, first: nat, step: nat, count: int, taken: nat): nat
    requires step >= 1
  {
    if count > 0 then
      (if taken >= count then 0 else if Reachable(n, first, step) < count - taken then Reachable(n, first, step) else count - taken)
    else Reachable(n, first, step)
  }

  lemma {:induction false} WindowFromElements<T>(source: seq<T>, first: nat, step: nat, count: int, taken: nat)
    requires step >= 1
    ensures var out := WindowFrom(source, first, step, count, taken);
            && |out| == WindowSize(|source|, first, step, count, taken)
            && forall k :: 0 <= k < |out| ==> first + k * step < |source| && out[k] == source[first + k * step]
    decreases |source| - first
  {
    var out := WindowFrom(source, first, step, count, taken);
    if first < |source| && !(count > 0 && taken >= count) {
      var rest := WindowFrom(source, first + step, step, count, taken + 1);
      WindowFromElements(source, first + step, step, count, taken + 1);
      ReachableStep(|source|, first, step);
      assert out == [source[first]] + rest;
      forall k | 0 <= k < |out| ensures first + k * step < |source| && out[k] == source[first + k * step] {
        if k > 0 { assert first + step + (k - 1) * step == first + k * step; }
      }
    }
  }

  /** A window holds exactly source[first + k * step], for k below both the count asked for and what is reached. */
  lemma WindowElements<T>(source: seq<T>, count: int, offset: int, sparsing: int)
    ensures var first, step := MaxInt(offset, 0), MaxInt(sparsing, 1);
            var out := Window(source, count, offset, sparsing);
            && |out| == (if count > 0 && count < Reachable(|source|, first, step) then count else Reachable(|source|, first, step))
            && forall k :: 0 <= k < |out| ==> first + k * step < |source| && out[k] == source[first + k * step]
  {
    WindowFromElements(source, MaxInt(offset, 0), MaxInt(sparsing, 1), count, 0);
  }

  // --------------------------------------------------------------------- what a client asks for

  lemma NumberArgument(args: seq<string>, index: nat, n: int)
    requires index < |args| && args[index] == IntText(n)
    ensures PositionalAt(args, index) == if n < 0 then Unusable else Positional.Number(n)
  {
    hide ParseNumber, IntText;
    ParseNumberOfIntText(n);
    LroundOfInt(n);
  }

  /** What the simulator decodes from up to three numbers that are not negative. */
  lemma {:induction false} NumbersAreDecoded(args: seq<string>, ns: seq<int>, first: nat, i: nat, x: WindowArguments)
    requires i <= |ns| <= 3 && |args| == first + |ns|
    requires forall k :: 0 <= k < |ns| ==> args[first + k] == IntText(ns[k]) && ns[k] >= 0
    ensures ReadWindowFrom(args, first, i, x) == Store(Decoded(ns, i, x))
    decreases 3 - i
  {
    hide PositionalAt, IntText;
    if i < |ns| {
      NumberArgument(args, first + i, ns[i]);
      NumbersAreDecoded(args, ns, first, i + 1, WithArgument(x, i, ns[i]));
    } else if i < 3 {
      NothingAt(args, first + i);
    }
  }

  lemma NothingAt(args: seq<string>, index: nat)
    requires index >= |args|
    ensures PositionalAt(args, index) == Absent
  {}

  function Decoded(ns: seq<int>, i: nat, x: WindowArguments): WindowArguments
    requires i <= |ns|
    decreases |ns| - i
  {
    if i == |ns| then x else Decoded(ns, i + 1, WithArgument(x, i, ns[i]))
  }

  /** The argument texts of the numbers a client writes. */
  lemma ArgumentsOfNumbers(ns: seq<int>)
    requires ns != []
    ensures TrimAll(Split(Outside, Join(IntTexts(ns), ','), ',')) == IntTexts(ns)
  {
    hide Trim, IntText;
    var texts := IntTexts(ns);
    forall i | 0 <= i < |texts|
      ensures FreeOf(Outside, texts[i], ',') && Scan(Outside, texts[i]) == Outside && Trim(texts[i]) == texts[i]
    {
      IntTextShape(ns[i]);
      PlainText(texts[i], ',');
    }
    SplitOfJoin(texts, ',');
  }

  /** The one request the simulator refuses: a negative offset, written out because a sparsing factor follows it. */
  predicate Refused(count: int, offset: int, sparsing: int) { count > 0 && offset < 0 && sparsing > 0 }

  /** The arguments of any other request; without a count, everything is asked for. */
  function Arguments(count: int, offset: int, sparsing: int): WindowArguments {
    if count <= 0 then WindowArguments(0, 0, 0) else WindowArguments(count, MaxInt(offset, 0), MaxInt(sparsing, 0))
  }

  /** The numbers written decode to those arguments. */
  lemma DecodedWindow(count: int, offset: int, sparsing: int)
    requires !Refused(count, offset, sparsing)
    ensures var ns := WindowNumbers(count, offset, sparsing);
            && |ns| <= 3 && (forall k :: 0 <= k < |ns| ==> ns[k] >= 0)
            && Decoded(ns, 0, WindowArguments(0, 0, 0)) == Arguments(count, offset, sparsing)
  {
    var ns := WindowNumbers(count, offset, sparsing);
    var one := WindowArguments(count, 0, 0);
    if count <= 0 {
      assert ns == [];
    } else if sparsing > 0 {
      assert ns == [count, offset, sparsing];
      assert Decoded(ns, 2, one.(offset := offset)) == WindowArguments(count, offset, sparsing);
      assert Decoded(ns, 1, one) == WindowArguments(count, offset, sparsing);
    } else if offset > 0 {
      assert ns == [count, offset];
      assert Decoded(ns, 1, one) == WindowArguments(count, offset, 0);
    } else {
      assert ns == [count];
    }
  }

  /** The arguments of the numbers a client writes, when there are any. */
  lemma ArgsOfNumbers(ns: seq<int>)
    ensures ArgsOf(Join(IntTexts(ns), ',')) == IntTexts(ns)
  {
    hide Join, IntText;
    if ns == [] {
      NothingJoined();
    } else {
      NumbersAreParameters(ns);
      ArgumentsOfNumbers(ns);
    }
  }

  lemma NothingJoined()
    ensures Join(IntTexts([]), ',') == ""
  {}

  lemma RefusedArguments(args: seq<string>, first: nat, count: int, offset: int, sparsing: int)
    requires Refused(count, offset, sparsing) && |args| == first + 3
    requires args[first] == IntText(count) && args[first + 1] == IntText(offset)
    ensures ReadWindow(args, first) == Refuse(ILLEGAL_PARAMETER, "Illegal parameter value;" + IntText(offset))
  {
    hide PositionalAt, IntText;
    NumberArgument(args, first, count);
    NumberArgument(args, first + 1, offset);
  }

  /** The window decoded selects what the client asked for, from a series of any length. */
  predicate Selects(a: Access<WindowArguments>, count: int, offset: int, sparsing: int) {
    && a.Store? && MaxInt(a.value.count, 0) == MaxInt(count, 0) && MaxInt(a.value.offset, 0) == MaxInt(offset, 0)
    && MaxInt(a.value.sparsing, 1) == MaxInt(sparsing, 1)
  }

  /** The positional encoding of the client, wherever it starts in the line, is decoded to the window asked for if and
      only if no negative offset stands in front of a sparsing factor; without a count, if and only if no window was
      asked for at all. */
  lemma WindowIsUnderstood(lead: seq<int>, count: int, offset: int, sparsing: int)
    ensures var a := ReadWindow(ArgsOf(Join(IntTexts(lead + WindowNumbers(count, offset, sparsing)), ',')), |lead|);
            && (Selects(a, count, offset, sparsing) <==>
                  if count > 0 then !(offset < 0 && sparsing > 0) else offset <= 0 && sparsing <= 1)
            && a == if Refused(count, offset, sparsing)
                    then Refuse(ILLEGAL_PARAMETER, "Illegal parameter value;" + IntText(offset))
                    else Store(Arguments(count, offset, sparsing))
  {
    hide ReadWindow, IntText, Decoded, ArgsOf, WindowNumbers;
    var ns := WindowNumbers(count, offset, sparsing);
    ArgsOfNumbers(lead + ns);
    var args := IntTexts(lead + ns);
    if Refused(count, offset, sparsing) {
      RefusedNumbers(count, offset, sparsing);
      assert (lead + ns)[|lead|] == ns[0] && (lead + ns)[|lead| + 1] == ns[1];
      RefusedArguments(args, |lead|, count, offset, sparsing);
    } else {
      DecodedWindow(count, offset, sparsing);
      ReadNumbers(args, lead, ns);
    }
  }

  lemma RefusedNumbers(count: int, offset: int, sparsing: int)
    requires Refused(count, offset, sparsing)
    ensures WindowNumbers(count, offset, sparsing) == [count, offset, sparsing]
  {}

  lemma ReadNumbers(args: seq<string>, lead: seq<int>, ns: seq<int>)
    requires |ns| <= 3 && args == IntTexts(lead + ns) && forall k :: 0 <= k < |ns| ==> ns[k] >= 0
    ensures ReadWindow(args, |lead|) == Store(Decoded(ns, 0, WindowArguments(0, 0, 0)))
  {
    hide ReadWindowFrom, IntText, Decoded;
    forall k | 0 <= k < |ns| ensures args[|lead| + k] == IntText(ns[k]) {
      assert (lead + ns)[|lead| + k] == ns[k];
    }
    NumbersAreDecoded(args, ns, |lead|, 0, WindowArguments(0, 0, 0));
  }

  // --------------------------------------------------------------------------- consecutive windows

  lemma UnitReachable(n: nat, first: nat)
    ensures Reachable(n, first, 1) == if n <= first then 0 else n - first
  {}

  /** A window of unit steps is a slice. */
  lemma UnitWindow<T>(source: seq<T>, count: int, offset: nat)
    ensures var from := MinInt(offset, |source|);
            var to := if count > 0 then MinInt(offset + count, |source|) else |source|;
            Window(source, count, offset, 1) == source[from..MaxInt(from, to)]
  {
    WindowElements(source, count, offset, 1);
    UnitReachable(|source|, offset);
    var out := Window(source, count, offset, 1);
    var from := MinInt(offset, |source|);
    var to := if count > 0 then MinInt(offset + count, |source|) else |source|;
    forall k | 0 <= k < |out| ensures out[k] == source[from..MaxInt(from, to)][k] {
      assert offset + k * 1 == from + k;
    }
  }

  /** Windows read one after another, each from where the last one stopped. */
  function Paged<T>(source: seq<T>, page: int, offset: nat): seq<T>
    requires page > 0
    decreases |source| - offset
  {
    if offset >= |source| then [] else Window(source, page, offset, 1) + Paged(source, page, offset + page)
  }

  /** Page by page, the whole series is read exactly once. */
  lemma {:induction false} PagesJoinUp<T>(source: seq<T>, page: int, offset: nat)
    requires page > 0 && offset <= |source|
    ensures Paged(source, page, offset) == source[offset..]
    decreases |source| - offset
  {
    if offset < |source| {
      UnitWindow(source, page, offset);
      if offset + page <= |source| {
        PagesJoinUp(source, page, offset + page);
        assert source[offset..offset + page] + source[offset + page..] == source[offset..];
      } else {
        assert Paged(source, page, offset + page) == [];
      }
    }
  }

  // ------------------------------------------------------------------------- through the wire

  lemma {:induction false} NumbersAreParameters(ns: seq<int>)
    requires ns != []
    ensures var text := Join(IntTexts(ns), ',');
            && text != "" && (forall i :: 0 <= i < |text| ==> !IsQuote(text[i]) && !IsSpace(text[i]) && text[i] != ';')
  {
    hide IntText;
    IntTextShape(ns[0]);
    assert IntTexts(ns)[0] == IntText(ns[0]);
    if |ns| > 1 {
      assert IntTexts(ns)[1..] == IntTexts(ns[1..]);
      NumbersAreParameters(ns[1..]);
    }
  }

  lemma NumbersAreArguments(ns: seq<int>)
    requires ns != []
    ensures var text := Join(IntTexts(ns), ',');
            && Trimmed(text) && FreeOf(Outside, text, ';') && ArgsOf(text) == IntTexts(ns)
  {
    hide Join, IntText, FreeOf;
    NumbersAreParameters(ns);
    PlainText(Join(IntTexts(ns), ','), ';');
    ArgumentsOfNumbers(ns);
  }

  lemma TraceLines(text: string)
    requires text != ""
    ensures Words(["TRAC"]) && LineText(Join(["TRAC"], ':'), true, text) == "TRAC? " + text
    ensures Words(["TRAC", "STAT"]) && LineText(Join(["TRAC", "STAT"], ':'), true, text) == "TRAC:STAT? " + text
  {
    assert ["TRAC", "STAT"][1..] == ["STAT"];
    assert "TRAC" + "?" + (" " + text) == "TRAC? " + text;
    assert "TRAC:STAT" + "?" + (" " + text) == "TRAC:STAT? " + text;
  }

  lemma SpectrumLine(text: string)
    ensures Words(["CALC", "DATA"])
    ensures LineText(Join(["CALC", "DATA"], ':'), true, text) == "CALC:DATA?" + (if text == "" then "" else " " + text)
  {
    assert ["CALC", "DATA"][1..] == ["DATA"];
    assert "CALC:DATA" + "?" + (" " + text) == "CALC:DATA?" + (" " + text);
    assert "CALC:DATA" + "?" + "" == "CALC:DATA?" + "";
  }

  lemma BlockIsRead(c: Command, block: int)
    requires c.args != [] && c.args[0] == IntText(block) && 1 <= block <= 2
    ensures BlockParameter(c) == Store(block)
  {
    hide ParseNumber, IntText;
    ParseNumberOfIntText(block);
  }

  /** What a query of a recording does, given how its window is read. */
  lemma TraceQueryEffect(w: World, s: State, args: seq<string>, block: int, statuses: bool)
    requires 1 <= block <= 2 && args != [] && args[0] == IntText(block)
    ensures EffectOf(w, s, Command(Trace(if statuses then TraceStatus else TraceData), [], true, args)) ==
            match ReadWindow(args, 1)
            case Refuse(code, message) => Reject(code, message)
            case Report(_) => Missing()
            case Store(x) => Answered(s, TraceResponse(w, s, s.sweep[block], statuses, x))
  {
    hide BlockParameter, ReadWindow, TraceResponse, IntText,
         CommonEffect, AbortEffect, RouteEffect, InputEffect, RangingEffect, ApertureEffect, FunctionEffect, DataEffect,
         SweepEffect, SyncEffect, AcquisitionEffect, TriggerEffect, TransformEffect, SpectrumEffect, IntegralEffect,
         HarmonicOrderEffect, CorrectionEffect, ReferenceEffect, FormatEffect, DisplayEffect, SystemEffect,
         StatusEffect, TimerEffect;
    BlockIsRead(Command(Trace(if statuses then TraceStatus else TraceData), [], true, args), block);
  }

  function TraceQuery(block: int, statuses: bool, count: int, offset: int, sparsing: int): string {
    (if statuses then "TRAC:STAT? " else "TRAC? ") + Join(IntTexts([block] + WindowNumbers(count, offset, sparsing)), ',')
  }

  /** What the refused request leaves: nothing read, and one error that names the offset. */
  function RefusedOutcome(s: State, offset: int): Outcome {
    Outcome(PushError(s, ILLEGAL_PARAMETER, "Illegal parameter value;" + IntText(offset)), [], Stopped)
  }

  /** The query of a recording through the wire, for whatever window. */
  lemma TraceQueryRuns(w: World, s: State, block: int, statuses: bool, count: int, offset: int, sparsing: int)
    requires ClientTable(w.specs) && 1 <= block <= 2
    ensures RunLine(Simulator(w), s, TraceQuery(block, statuses, count, offset, sparsing)) ==
            if Refused(count, offset, sparsing) then RefusedOutcome(s, offset)
            else EffectOutcome(s, Answered(s, TraceResponse(w, s, s.sweep[block], statuses, Arguments(count, offset, sparsing))))
  {
    hide RunLine, LineText, Join, EffectOf, Dispatch, TraceResponse, ArgsOf, ReadWindow, IntText, Split, WindowNumbers, PushError,
         Selects;
    var ns := [block] + WindowNumbers(count, offset, sparsing);
    var text := Join(IntTexts(ns), ',');
    NumbersAreParameters(ns);
    NumbersAreArguments(ns);
    WindowIsUnderstood([block], count, offset, sparsing);
    TraceLines(text);
    if statuses {
      KnownLine(w, s, ["TRAC", "STAT"], Trace(TraceStatus), true, text);
    } else {
      KnownLine(w, s, ["TRAC"], Trace(TraceData), true, text);
    }
    TraceQueryEffect(w, s, IntTexts(ns), block, statuses);
  }

  /** A negative offset in front of a sparsing factor is written all the same, and the line is refused. */
  lemma NegativeOffsetIsRefused(w: World, s: State, block: int, statuses: bool, count: int, offset: int, sparsing: int)
    requires ClientTable(w.specs) && 1 <= block <= 2
    ensures RunLine(Simulator(w), s, TraceQuery(block, statuses, count, offset, sparsing)).ending.Stopped?
            <==> count > 0 && offset < 0 && sparsing > 0
    ensures count > 0 && offset < 0 && sparsing > 0 ==>
              RunLine(Simulator(w), s, TraceQuery(block, statuses, count, offset, sparsing)) == RefusedOutcome(s, offset)
  {
    hide RunLine, TraceQuery, TraceResponse, PushError, IntText;
    TraceQueryRuns(w, s, block, statuses, count, offset, sparsing);
  }

  // ------------------------------------------------------------------------ what the client gets

  /** The part of a series the client asked for: without a count, all of it. */
  function Part<T>(series: seq<T>, count: int, offset: int, sparsing: int): seq<T> {
    if count <= 0 then series else Window(series, count, offset, sparsing)
  }

  lemma WindowOfArguments<T>(series: seq<T>, count: int, offset: int, sparsing: int)
    ensures var x := Arguments(count, offset, sparsing);
            Window(series, x.count, x.offset, x.sparsing) == Part(series, count, offset, sparsing)
  {
    hide WindowFrom;
    if count <= 0 {
      UnitWindow(series, 0, 0);
      assert Window(series, 0, 0, 0) == Window(series, 0, 0, 1);
      assert series[0..|series|] == series;
    }
  }

  /** What the client makes of printed values. */
  function RereadAll(h: Host, s: State, values: seq<Value>): (r: seq<Value>)
    ensures |r| == |values|
    ensures forall i :: 0 <= i < |values| ==> r[i] == Reread(h, s, values[i])
  {
    seq(|values|, i requires 0 <= i < |values| => Reread(h, s, values[i]))
  }

  lemma NumbersAreRead(texts: seq<string>, values: seq<Value>)
    requires |texts| == |values| && forall i :: 0 <= i < |texts| ==> PlainNumber(texts[i]) && ToDouble(texts[i]) == Success(values[i])
    ensures ToDoubles(Fields(Join(texts, ','), ',')) == Success(values)
  {
    hide ToDouble, PlainNumber, ToDoubles;
    if texts == [] {
      EmptyFields();
      assert values == [];
    } else {
      FieldsOfNumbers(texts);
    }
    ToDoublesOf(texts, values);
  }

  lemma EmptyFields()
    ensures Fields(Join([], ','), ',') == []
  {}

  /** The client reads as many numbers off the line as there are values, each as near to its value as it was printed. */
  ghost predicate ReadsValues(s: State, line: string, values: seq<Value>) {
    var r := ToDoubles(Fields(line, ','));
    && r.Success? && |r.value| == |values|
    && forall i :: 0 <= i < |values| ==> ReadAs(Precision(s), values[i], r.value[i])
  }

  lemma ValuesAreRead(h: Host, s: State, values: seq<Value>)
    requires PrintsNumbers(h)
    ensures ReadsValues(s, Join(FormatValues(h, s, values), ','), values)
  {
    hide ToDouble, PlainNumber, ToDoubles, FormatValue, Reread, PrintsNumbers, ReadAs, Join, Fields;
    forall i | 0 <= i < |values| ensures ReadAs(Precision(s), values[i], RereadAll(h, s, values)[i]) { ValueIsPlain(h, s, values[i]); }
    forall i | 0 <= i < |values|
      ensures PlainNumber(FormatValues(h, s, values)[i]) && ToDouble(FormatValues(h, s, values)[i]) == Success(RereadAll(h, s, values)[i])
    {
      ValueIsPlain(h, s, values[i]);
    }
    NumbersAreRead(FormatValues(h, s, values), RereadAll(h, s, values));
  }

  /** The series a recording holds: the values of every function of its block, one after another. */
  function Recorded(w: World, s: State, block: int): Option<seq<Measured>>
    requires 1 <= block <= 2
  {
    MeasureAll(w, s, if s.sweep[block].functions == [] then s.sense.functions else s.sweep[block].functions)
  }

  /** All that is asked of printing status words: whole numbers below 65536 as their digits. */
  ghost predicate PrintsWords(h: Host) {
    forall n: int :: 0 <= n < 65536 ==> h.formatSetting(n as real) == IntText(n)
  }

  function Words16(words: seq<real>): (r: seq<Value>)
    ensures |r| == |words|
    ensures forall i :: 0 <= i < |words| ==> r[i] == Num(words[i])
  {
    seq(|words|, i requires 0 <= i < |words| => Num(words[i]))
  }

  /** The client reads the part of the recording it asked for; the state is as it was. */
  ghost predicate PartIsRead(w: World, s: State, block: int, count: int, offset: int, sparsing: int, o: Outcome)
    requires 1 <= block <= 2
  {
    && o.state == s
    && (Recorded(w, s, block).None? <==> o.ending.Hung?)
    && (Recorded(w, s, block).Some? ==>
          var series := AllTraceValues(Recorded(w, s, block).value, MaxInt(TracePoints(s), 0));
          && o.ending.Completed? && |o.responses| == 1
          && ReadsValues(s, o.responses[0], Part(series, count, offset, sparsing)))
  }

  /** The same for the status words. */
  predicate StatusPartIsRead(w: World, s: State, block: int, count: int, offset: int, sparsing: int, o: Outcome)
    requires 1 <= block <= 2
  {
    && o.state == s
    && (Recorded(w, s, block).None? <==> o.ending.Hung?)
    && (Recorded(w, s, block).Some? ==>
          var series := AllTraceStatuses(Recorded(w, s, block).value, MaxInt(TracePoints(s), 0));
          && o.ending.Completed? && |o.responses| == 1
          && ToDoubles(Fields(o.responses[0], ',')) == Success(Words16(Part(series, count, offset, sparsing))))
  }

  predicate StatusWord(r: real) { 0.0 <= r < 65536.0 && r.Floor as real == r }

  lemma WordIsRead(h: Host, r: real)
    requires PrintsWords(h) && StatusWord(r)
    ensures PlainNumber(h.formatSetting(r)) && ToDouble(h.formatSetting(r)) == Success(Num(r))
  {
    hide IntText, PlainNumber, ToDouble;
    var n := r.Floor;
    assert h.formatSetting(n as real) == IntText(n);
    WholeIsPlain(n);
    WholeIsRead(n);
  }

  lemma WordsAreRead(h: Host, words: seq<real>)
    requires PrintsWords(h) && forall i :: 0 <= i < |words| ==> StatusWord(words[i])
    ensures ToDoubles(Fields(Join(FormatSettings(h, words), ','), ',')) == Success(Words16(words))
  {
    hide ToDouble, PlainNumber, ToDoubles, PrintsWords, StatusWord;
    forall i | 0 <= i < |words|
      ensures PlainNumber(FormatSettings(h, words)[i]) && ToDouble(FormatSettings(h, words)[i]) == Success(Words16(words)[i])
    {
      WordIsRead(h, words[i]);
    }
    NumbersAreRead(FormatSettings(h, words), Words16(words));
  }

  lemma {:induction false} StatusesAreWords(ms: seq<Measured>, points: nat)
    ensures forall i :: 0 <= i < |AllTraceStatuses(ms, points)| ==> StatusWord(AllTraceStatuses(ms, points)[i])
  {
    hide BitsValue;
    if ms != [] {
      BitsBelow(ms[0].status, 16);
      Pow2Of16();
      StatusesAreWords(ms[1..], points);
    }
  }

  lemma PartOfWords(words: seq<real>, count: int, offset: int, sparsing: int)
    requires forall i :: 0 <= i < |words| ==> StatusWord(words[i])
    ensures var part := Part(words, count, offset, sparsing); forall i :: 0 <= i < |part| ==> StatusWord(part[i])
  {
    hide StatusWord, Window;
    if count > 0 { WindowElements(words, count, offset, sparsing); }
  }

  /** trace_data(): for every request but the refused one, the client gets exactly the part of the recording it asked for. */
  lemma TraceDataReads(w: World, s: State, block: int, count: int, offset: int, sparsing: int)
    requires ClientTable(w.specs) && 1 <= block <= 2 && PrintsNumbers(w.host) && !Refused(count, offset, sparsing)
    ensures PartIsRead(w, s, block, count, offset, sparsing, RunLine(Simulator(w), s, TraceQuery(block, false, count, offset, sparsing)))
  {
    hide RunLine, TraceQuery, TraceResponse, PartIsRead, PrintsNumbers, EffectOf;
    TraceQueryRuns(w, s, block, false, count, offset, sparsing);
    RecordingIsRead(w, s, block, count, offset, sparsing);
  }

  lemma RecordingIsRead(w: World, s: State, block: int, count: int, offset: int, sparsing: int)
    requires 1 <= block <= 2 && PrintsNumbers(w.host)
    ensures PartIsRead(w, s, block, count, offset, sparsing,
                       EffectOutcome(s, Answered(s, TraceResponse(w, s, s.sweep[block], false, Arguments(count, offset, sparsing)))))
  {
    hide MeasureAll, AllTraceValues, FormatValues, ReadsValues, Join, Part, PrintsNumbers, Window, TracePoints,
         Arguments;
    if Recorded(w, s, block).Some? {
      var series := AllTraceValues(Recorded(w, s, block).value, MaxInt(TracePoints(s), 0));
      WindowOfArguments(series, count, offset, sparsing);
      ValuesAreRead(w.host, s, Part(series, count, offset, sparsing));
    }
  }

  /** trace_status(): the same for the status words, which come back exactly. */
  lemma TraceStatusReads(w: World, s: State, block: int, count: int, offset: int, sparsing: int)
    requires ClientTable(w.specs) && 1 <= block <= 2 && PrintsWords(w.host) && !Refused(count, offset, sparsing)
    ensures StatusPartIsRead(w, s, block, count, offset, sparsing, RunLine(Simulator(w), s, TraceQuery(block, true, count, offset, sparsing)))
  {
    hide RunLine, TraceQuery, TraceResponse, StatusPartIsRead, PrintsWords, EffectOf;
    TraceQueryRuns(w, s, block, true, count, offset, sparsing);
    RecordedStatusIsRead(w, s, block, count, offset, sparsing);
  }

  lemma RecordedStatusIsRead(w: World, s: State, block: int, count: int, offset: int, sparsing: int)
    requires 1 <= block <= 2 && PrintsWords(w.host)
    ensures StatusPartIsRead(w, s, block, count, offset, sparsing,
                         EffectOutcome(s, Answered(s, TraceResponse(w, s, s.sweep[block], true, Arguments(count, offset, sparsing)))))
  {
    hide MeasureAll, AllTraceStatuses, FormatSettings, Words16, Join, Fields, ToDoubles, Part, PrintsWords, Window, TracePoints,
         StatusWord, Arguments;
    if Recorded(w, s, block).Some? {
      var ms, points := Recorded(w, s, block).value, MaxInt(TracePoints(s), 0);
      var series := AllTraceStatuses(ms, points);
      WindowOfArguments(series, count, offset, sparsing);
      StatusesAreWords(ms, points);
      PartOfWords(series, count, offset, sparsing);
      WordsAreRead(w.host, Part(series, count, offset, sparsing));
    }
  }

  // ----------------------------------------------------------------------------- the spectrum

  function Fundamental(w: World): real { if w.signal.present then w.signal.phases[0].voltageRms else 0.0 }

  lemma SpectrumQueryEffect(w: World, s: State, args: seq<string>, x: WindowArguments)
    requires ReadWindow(args, 0) == Store(x)
    ensures EffectOf(w, s, Command(Spectrum(SpectrumData), [], true, args)) ==
            Respond(s, Join(FormatValues(w.host, s, Window(Effects.Spectrum(Fundamental(w)), x.count, x.offset, x.sparsing)), ','))
  {
    hide ReadWindow, Join, FormatValues, Window, Effects.Spectrum,
         CommonEffect, AbortEffect, RouteEffect, InputEffect, RangingEffect, ApertureEffect, FunctionEffect, DataEffect,
         SweepEffect, SyncEffect, AcquisitionEffect, TriggerEffect, TransformEffect, IntegralEffect,
         HarmonicOrderEffect, CorrectionEffect, ReferenceEffect, TraceEffect, FormatEffect, DisplayEffect, SystemEffect,
         StatusEffect, TimerEffect;
  }

  function SpectrumQuery(count: int, offset: int): string {
    "CALC:DATA?" + (if count <= 0 then "" else " " + Join(IntTexts(WindowNumbers(count, offset, 0)), ','))
  }

  lemma SpectrumArguments(count: int, offset: int)
    ensures var text := Join(IntTexts(WindowNumbers(count, offset, 0)), ',');
            && (text == "" <==> count <= 0) && Trimmed(text) && FreeOf(Outside, text, ';')
  {
    hide Join, IntText, FreeOf;
    var ns := WindowNumbers(count, offset, 0);
    if count <= 0 {
      NothingJoined();
      EmptyIsFree();
    } else {
      NumbersAreParameters(ns);
      NumbersAreArguments(ns);
    }
  }

  lemma EmptyIsFree() ensures FreeOf(Outside, "", ';') && Trimmed("") {}

  /** transform_data(), which never writes a sparsing factor, gets the part of the spectrum it asked for, whatever it asks. */
  lemma SpectrumDataReads(w: World, s: State, count: int, offset: int)
    requires ClientTable(w.specs) && PrintsNumbers(w.host)
    ensures var o := RunLine(Simulator(w), s, SpectrumQuery(count, offset));
            && o.state == s && o.ending.Completed? && |o.responses| == 1
            && ReadsValues(s, o.responses[0], Part(Effects.Spectrum(Fundamental(w)), count, offset, 0))
  {
    hide RunLine, LineText, Join, EffectOf, Dispatch, ArgsOf, ReadWindow, IntText, Split, FormatValues, Window, Fields, ToDoubles,
         ReadsValues, Part, PrintsNumbers, WindowNumbers, Selects, Effects.Spectrum, Fundamental;
    var ns := WindowNumbers(count, offset, 0);
    var text := Join(IntTexts(ns), ',');
    SpectrumArguments(count, offset);
    assert [] + ns == ns;
    WindowIsUnderstood([], count, offset, 0);
    SpectrumLine(text);
    KnownLine(w, s, ["CALC", "DATA"], Spectrum(SpectrumData), true, text);
    SpectrumQueryEffect(w, s, ArgsOf(text), Arguments(count, offset, 0));
    var series := Effects.Spectrum(Fundamental(w));
    WindowOfArguments(series, count, offset, 0);
    ValuesAreRead(w.host, s, Part(series, count, offset, 0));
  }
}
