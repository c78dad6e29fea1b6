/** The trace memory and the spectrum: how much is recorded, and what each element is. */
module Recordings {
  import opened Wrappers
  import opened Text
  import opened Decimal
  import opened Commands
  import opened Instrument
  import opened Measurement
  import opened Effects

  // ------------------------------------------------------------------------- how much

  /** As many whole steps as fit between 0 and `x`, on the side of `x`. */
  predicate WholeSteps(n: int, x: real, step: real) {
    if x >= 0.0 then n >= 0 && n as real * step <= x < (n + 1) as real * step
    else n <= 0 && (n - 1) as real * step < x <= n as real * step
  }

  lemma ScaledUp(a: real, b: real, step: real)
    requires step > 0.0
    ensures a <= b ==> a * step <= b * step
    ensures a < b ==> a * step < b * step
  {}

  lemma StepsAreWhole(x: real, step: real)
    requires step > 0.0
    ensures WholeSteps(AsInt(x, step), x, step)
  {
    var q, n := x / step, Truncate(x / step);
    assert q * step == x;
    if x >= 0.0 {
      assert q >= 0.0 by { if q < 0.0 { ScaledUp(q, 0.0, step); } }
      ScaledUp(n as real, q, step);
      ScaledUp(q, (n + 1) as real, step);
    } else {
      assert q < 0.0 by { if q >= 0.0 { ScaledUp(0.0, q, step); } }
      ScaledUp((n - 1) as real, q, step);
      ScaledUp(q, n as real, step);
    }
  }

  /** The averaging interval in force. */
  function Interval(s: State): real { if s.sense.aperture < 0.015 then 0.015 else s.sense.aperture }

  /** SWEep:POINTS? and SWEep:OFFSet:POINTS? answer with the times of the block in whole averaging intervals. */
  lemma SweepPointsAnswer(w: World, s: State, block: int, offset: bool)
    requires 1 <= block <= 2
    ensures exists n :: WholeSteps(n, if offset then s.sweep[block].offsetTime else s.sweep[block].time, Interval(s))
              && SweepEffect(w, s, Command(Sweep(if offset then OffsetPoints else SweepPoints), [block], true, []),
                               if offset then OffsetPoints else SweepPoints)
                 == Respond(s, IntText(n))
  {
    hide IntText, WholeSteps, AsInt, NumberAccess, IntegerAccess, BooleanAccess, FunctionListAccess, QuoteJoin;
    var x := if offset then s.sweep[block].offsetTime else s.sweep[block].time;
    StepsAreWhole(x, Interval(s));
    var n := AsInt(x, Interval(s));
    assert SweepEffect(w, s, Command(Sweep(if offset then OffsetPoints else SweepPoints), [block], true, []),
                               if offset then OffsetPoints else SweepPoints) == Respond(s, IntText(n));
  }

  /** A block that is on records its sweep time, the first block before the second, up to 4096 points. */
  predicate Records(s: State, n: int) {
    if s.sweep[1].enabled then Fills(s, s.sweep[1].time, n)
    else if s.sweep[2].enabled then Fills(s, s.sweep[2].time, n)
    else n == 0
  }

  predicate Fills(s: State, time: real, n: int) {
    || (n < 4096 && WholeSteps(n, time, Interval(s)))
    || (n == 4096 && time >= 4096.0 * Interval(s))
  }

  lemma StepsReach(n: int, x: real, step: real)
    requires WholeSteps(n, x, step) && step > 0.0 && n >= 4096
    ensures x >= 4096.0 * step
  {
    ScaledUp(4096.0, n as real, step);
  }

  lemma RecordingFills(s: State, time: real)
    ensures Fills(s, time, MinInt(AsInt(time, Interval(s)), 4096))
  {
    hide AsInt, WholeSteps;
    var n, step := AsInt(time, Interval(s)), Interval(s);
    StepsAreWhole(time, step);
    if n >= 4096 { StepsReach(n, time, step); }
  }

  /** TRACe:CATalog:LENgth? and TRACe:FREE? answer with what is recorded and with the rest of the 4096 points. */
  lemma TraceLengthAnswers(w: World, s: State)
    ensures exists n :: Records(s, n)
              && TraceEffect(w, s, Command(Trace(TraceLength), [], true, []), TraceLength) == Respond(s, IntText(n))
              && TraceEffect(w, s, Command(Trace(TraceFree), [], true, []), TraceFree) == Respond(s, IntText(4096 - n))
  {
    hide IntText, AsInt, Fills;
    RecordingFills(s, s.sweep[1].time);
    RecordingFills(s, s.sweep[2].time);
    var n := TracePoints(s);
    assert Records(s, n);
    assert TraceEffect(w, s, Command(Trace(TraceLength), [], true, []), TraceLength) == Respond(s, IntText(n));
    assert TraceEffect(w, s, Command(Trace(TraceFree), [], true, []), TraceFree) == Respond(s, IntText(4096 - n));
  }

  // ---------------------------------------------------------------------- what is recorded

  function LessThousandths(x: Value, k: nat): Value {
    match x
    case NaN => NaN
    case Num(v) => Num(v * ((1000 - k) as real / 1000.0))
  }

  lemma PointValue(x: Value, k: nat)
    ensures Times(x, 1.0 - 0.001 * k as real) == LessThousandths(x, k)
  {
    assert 1.0 - 0.001 * k as real == (1000 - k) as real / 1000.0;
  }

  /** Point `k` of the `j`-th function is its measurement less 0.1 % for each point before. */
  lemma {:induction false} PointIsRecorded(ms: seq<Measured>, points: nat, j: nat, k: nat)
    requires j < |ms| && k < points
    ensures |AllTraceValues(ms, points)| == |ms| * points && j * points + k < |ms| * points
    ensures AllTraceValues(ms, points)[j * points + k] == LessThousandths(ms[j].value, k)
  {
    hide LessThousandths;
    PointValue(ms[0].value, k);
    var rest := ms[1..];
    SeriesLength(rest, points);
    SeriesLength(ms, points);
    if j == 0 {
      RowsFit(|ms|, points, 1);
    } else {
      PointIsRecorded(rest, points, j - 1, k);
      assert rest[j - 1] == ms[j];
      RowBefore(j, points);
      RowsFit(|ms|, points, j + 1);
      assert AllTraceValues(ms, points)[points + ((j - 1) * points + k)] == AllTraceValues(rest, points)[(j - 1) * points + k];
    }
  }

  /** The status words of a recording are those of the measurement, over and over. */
  lemma {:induction false} StatusIsRecorded(ms: seq<Measured>, points: nat, j: nat, k: nat)
    requires j < |ms| && k < points
    ensures |AllTraceStatuses(ms, points)| == |ms| * points && j * points + k < |ms| * points
    ensures AllTraceStatuses(ms, points)[j * points + k] == BitsValue(ms[j].status) as real
  {
    var rest := ms[1..];
    SeriesLength(rest, points);
    SeriesLength(ms, points);
    if j == 0 {
      RowsFit(|ms|, points, 1);
    } else {
      StatusIsRecorded(rest, points, j - 1, k);
      assert rest[j - 1] == ms[j];
      RowBefore(j, points);
      RowsFit(|ms|, points, j + 1);
      assert AllTraceStatuses(ms, points)[points + ((j - 1) * points + k)] == AllTraceStatuses(rest, points)[(j - 1) * points + k];
    }
  }

  lemma RowBefore(j: int, points: nat)
    ensures j * points == points + (j - 1) * points
  {}

  lemma RowsFit(rows: nat, points: nat, j: nat)
    requires j <= rows
    ensures j * points <= rows * points
  {}

  lemma {:induction false} SeriesLength(ms: seq<Measured>, points: nat)
    ensures |AllTraceValues(ms, points)| == |ms| * points
    ensures |AllTraceStatuses(ms, points)| == |ms| * points
  {
    if ms != [] {
      SeriesLength(ms[1..], points);
      RowBefore(|ms|, points);
    }
  }

  /** Line `n` of the spectrum, counted from 1, carries the fundamental over n squared, for 32 lines. */
  lemma SpectrumLine(fundamental: real, n: nat)
    requires 1 <= n <= 32
    ensures |Effects.Spectrum(fundamental)| == 32
    ensures exists v :: Effects.Spectrum(fundamental)[n - 1] == Num(v) && v * n as real * n as real == fundamental
  {
    var square := n as real * n as real;
    assert (n * n) as real == square;
    var v := fundamental / square;
    assert Effects.Spectrum(fundamental)[n - 1] == Num(v);
  }

  // ------------------------------------------------------------------------ binary answers

  /** The bytes of a definite-length block: '#', how many digits follow, the number of bytes, and as many bytes. */
  function BlockBytes(text: string): Option<string> {
    if |text| < 2 || text[0] != '#' || text[1] < '1' || text[1] > '9' then None
    else
      var start := 2 + (text[1] as int - '0' as int);
      if |text| < start || !AllDigits(text[2..start]) || NatValue(text[2..start]) != |text| - start then None
      else Some(text[start..])
  }

  /** A binary answer is such a block of eight zeros a function, as long as nine digits can say how long it is. */
  lemma BinaryBlockIsDefinite(count: nat)
    requires 8 * count < 1000000000
    ensures BlockBytes(BinaryBlock(count)) == Some(seq(8 * count, _ => '\0'))
  {
    var length, bytes := IntText(count * 8), seq(8 * count, _ => '\0');
    var text, digits := BinaryBlock(count), |length|;
    LengthIsShort(count * 8, 9);
    NatRoundTrip(count * 8);
    assert text == "#" + IntText(digits) + length + bytes;
    assert IntText(digits) == [('0' as int + digits) as char];
    assert text[2..2 + digits] == length && text[2 + digits..] == bytes;
  }

  lemma {:induction false} LengthIsShort(n: nat, width: nat)
    requires width >= 1 && n < Power(width)
    ensures 1 <= |NatText(n)| <= width
  {
    if n >= 10 { LengthIsShort(n / 10, width - 1); }
  }

  function Power(width: nat): nat { if width == 0 then 1 else 10 * Power(width - 1) }

  // ------------------------------------------------------------------------------ headers

  /** TRACe:PREamble? answers with points, functions, averaging interval and offset of the block. */
  lemma TracePreambleAnswers(w: World, s: State, block: int, argument: string)
    requires 1 <= block <= 2 && ParseNumber(argument) == Some(block as real)
    ensures exists n :: Records(s, n)
              && TraceEffect(w, s, Command(Trace(TracePreamble), [], true, [argument]), TracePreamble) == Respond(s, Join([
                   IntText(n), IntText(if s.sweep[block].functions == [] then 1 else |s.sweep[block].functions|),
                   w.host.formatSetting(s.sense.aperture), w.host.formatSetting(s.sweep[block].offsetTime)], ','))
  {
    hide IntText, AsInt, Fills, ParseNumber, ReadWindow, TraceResponse;
    RecordingFills(s, s.sweep[1].time);
    RecordingFills(s, s.sweep[2].time);
    assert Records(s, TracePoints(s));
    JoinOfFour(IntText(TracePoints(s)), IntText(MaxInt(|s.sweep[block].functions|, 1)),
               w.host.formatSetting(s.sense.aperture), w.host.formatSetting(s.sweep[block].offsetTime));
  }

  /** CALCulate:DATA:PREamble? answers with lines, functions, fundamental and start frequency. */
  lemma SpectrumPreambleAnswers(w: World, s: State)
    ensures SpectrumEffect(w, s, Command(Key.Spectrum(SpectrumPreamble), [], true, []), SpectrumPreamble) == Respond(s, Join([
              IntText(32), IntText(if s.transform.functions == [] then 1 else |s.transform.functions|),
              w.host.formatSetting(w.signal.frequency), w.host.formatSetting(s.transform.start)], ','))
  {
    hide IntText, ReadWindow, Window;
    JoinOfFour(IntText(32), IntText(MaxInt(|s.transform.functions|, 1)),
               w.host.formatSetting(w.signal.frequency), w.host.formatSetting(s.transform.start));
  }

  /** CALCulate:DATA:THD? answers with the distortion of the first three voltages, and only in mode STD. */
  lemma DistortionAnswers(w: World, s: State)
    ensures SpectrumEffect(w, s, Command(Key.Spectrum(SpectrumThd), [], true, []), SpectrumThd) ==
              if s.transform.mode != Std then Reject(-221, "Settings conflict;" + "THD requires TRANsform:FREQuency:MODE STD")
              else
                var p, f := w.signal.phases, w.host.formatSetting;
                Respond(s, Join([f(p[0].voltageThd), f(p[1].voltageThd), f(p[2].voltageThd)], ','))
  {
    hide IntText, ReadWindow, Window, Join;
    var p := w.signal.phases;
    var values := [p[0].voltageThd, p[1].voltageThd, p[2].voltageThd];
    var f := w.host.formatSetting;
    assert FormatSettings(w.host, values) == [f(p[0].voltageThd), f(p[1].voltageThd), f(p[2].voltageThd)];
  }

  lemma JoinOfFour(a: string, b: string, c: string, d: string)
    ensures Join([a, b, c, d], ',') == a + "," + b + "," + c + "," + d
  {
    assert [a, b, c, d][1..] == [b, c, d] && [b, c, d][1..] == [c, d] && [c, d][1..] == [d];
    assert Join([c, d], ',') == c + "," + d;
    assert Join([b, c, d], ',') == b + "," + (c + "," + d);
    assert a + "," + (b + "," + (c + "," + d)) == a + "," + b + "," + c + "," + d;
  }
}
