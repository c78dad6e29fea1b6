/** Which list is configured after a line the client wrote to configure one: for every list of names, also one that the
    simulator reads as several commands, exactly when it is the list asked for. */
module FunctionLists {
  import opened Wrappers
  import opened Text
  import opened Decimal
  import opened Pattern
  import opened Commands
  import opened Headers
  import opened Instrument
  import opened Effects
  import opened CommandLine
  import opened Client
  import opened ClientLines
  import opened ErrorLoop
  import opened NameLists
  import opened ClosedLoop

  // ------------------------------------------------------- what one command does to the list

  predicate KeepsList(s: State, e: Effect) { e.Done? ==> e.state.sense.functions == s.sense.functions }

  /** The list after an accepted command: a front part of the one before, the built-in one, or the command's parameters. */
  predicate LeavesList(s: State, c: Command, e: Effect) {
    e.Done? ==>
      var list := e.state.sense.functions;
      || list <= s.sense.functions
      || list == ALL_FUNCTIONS
      || (FirstUnquoted(c.args) == None && list == FunctionNames(c.args))
  }

  lemma CommonLeavesList(w: World, s: State, c: Command, key: CommonKey)
    ensures LeavesList(s, c, CommonEffect(w, s, c, key))
  {
    hide ConditionOf, StatusByte, Mask, BitsValue, IntText, QuoteJoin, Latch, IntegerAccess, FunctionNames, FirstUnquoted;
  }

  lemma FunctionLeavesList(s: State, c: Command, key: FunctionKey)
    ensures LeavesList(s, c, FunctionEffect(s, c, key))
  {
    hide BooleanAccess, QuoteJoin, IntText, FunctionNames, FirstUnquoted;
  }

  lemma DataLeavesList(w: World, s: State, c: Command, withStatus: bool)
    ensures LeavesList(s, c, DataEffect(w, s, c, withStatus))
  {
    hide MeasurementResponse, FunctionNames, FirstUnquoted;
  }

  lemma InputKeepsList(w: World, s: State, c: Command, key: InputKey)
    ensures KeepsList(s, InputEffect(w, s, c, key)) && KeepsList(s, RouteEffect(s, c))
  {
    hide NumberAccess, BooleanAccess, KeywordAccess, IntText, Unquote, Upper;
  }

  lemma RangingKeepsList(w: World, s: State, c: Command, voltage: bool, key: RangingKey)
    ensures KeepsList(s, RangingEffect(w, s, c, voltage, key)) && KeepsList(s, ApertureEffect(w, s, c))
  {
    hide NumberAccess, BooleanAccess, FormatSettings, Join, IntText, ParseNumber, SnapRange, Unquote;
  }

  lemma SweepKeepsList(w: World, s: State, c: Command, key: SweepKey)
    ensures KeepsList(s, SweepEffect(w, s, c, key))
  {
    hide NumberAccess, IntegerAccess, BooleanAccess, FunctionListAccess, IntText, Unquote, Upper, AsInt;
  }

  lemma SyncKeepsList(w: World, s: State, c: Command, key: SyncKey)
    ensures KeepsList(s, SyncEffect(w, s, c, key))
  {
    hide NumberAccess, BooleanAccess, KeywordAccess, ParseNumber, SyncSourceOf, CutOff, Unquote;
  }

  lemma AcquisitionKeepsList(s: State, c: Command, key: InitiateKey)
    ensures KeepsList(s, AcquisitionEffect(s, c, key)) && KeepsList(s, AbortEffect(s, c))
  {
    hide BooleanAccess, IntText;
  }

  lemma TriggerKeepsList(w: World, s: State, c: Command, start: bool, key: TriggerKey)
    ensures KeepsList(s, TriggerEffect(w, s, c, start, key))
  {
    hide NumberAccess, KeywordAccess, TextAccess, Upper;
  }

  lemma TransformKeepsList(w: World, s: State, c: Command, key: TransformKey)
    ensures KeepsList(s, TransformEffect(w, s, c, key))
  {
    hide NumberAccess, IntegerAccess, KeywordAccess, FunctionListAccess, IntText, Unquote, Upper;
  }

  lemma SpectrumKeepsList(w: World, s: State, c: Command, key: SpectrumKey)
    ensures KeepsList(s, SpectrumEffect(w, s, c, key))
  {
    hide ReadWindowFrom, FormatValues, FormatSettings, Join, Window, Effects.Spectrum, IntText;
  }

  lemma IntegralKeepsList(w: World, s: State, c: Command, key: IntegralKey)
    ensures KeepsList(s, IntegralEffect(w, s, c, key))
  {
    hide NumberAccess, BooleanAccess, KeywordAccess, FunctionListAccess;
  }

  lemma PowerKeepsList(s: State, c: Command)
    ensures KeepsList(s, HarmonicOrderEffect(s, c)) && KeepsList(s, CorrectionEffect(s, c)) && KeepsList(s, ReferenceEffect(s, c))
  {
    hide IntegerAccess, KeywordAccess, IntText, Unquote, Upper;
  }

  lemma TraceKeepsList(w: World, s: State, c: Command, key: TraceKey)
    ensures KeepsList(s, TraceEffect(w, s, c, key))
  {
    hide BlockParameter, ReadWindowFrom, TraceResponse, TracePoints, Preamble, IntText, TraceName;
  }

  lemma FormatKeepsList(s: State, c: Command, key: FormatKey)
    ensures KeepsList(s, FormatEffect(s, c, key))
  {
    hide BooleanAccess, KeywordAccess, LengthParameter, FormatOf, FormatWord, IntText, Unquote, Upper;
  }

  lemma DisplayKeepsList(s: State, c: Command, key: DisplayKey)
    ensures KeepsList(s, DisplayEffect(s, c, key))
  {
    hide BooleanAccess, FunctionListAccess, IntText;
  }

  lemma SystemKeepsList(s: State, c: Command, key: SystemKey, version: string)
    ensures KeepsList(s, SystemEffect(s, c, key, version))
  {
    hide IntegerAccess, KeywordAccess, TextAccess, EntryText, Join, ThreeText, ThreeNumbers;
  }

  lemma StatusKeepsList(w: World, s: State, c: Command, r: Register, part: RegisterPart, key: TimerKey)
    ensures KeepsList(s, StatusEffect(w, s, c, r, part)) && KeepsList(s, TimerEffect(w, s, c, key))
  {
    hide IntegerAccess, ConditionOf, Latch, BitsValue, IntText, RegisterName;
  }

  /** Over the whole command set: the configured list only ever comes from a command's own parameters, the list of FUNC:ALL,
      or the front of what was configured before. */
  lemma CommandLeavesList(w: World, s: State, c: Command)
    ensures LeavesList(s, c, EffectOf(w, s, c))
  {
    hide CommonEffect, AbortEffect, RouteEffect, InputEffect, RangingEffect, ApertureEffect, FunctionEffect, DataEffect, SweepEffect,
         SyncEffect, AcquisitionEffect, TriggerEffect, TransformEffect, SpectrumEffect, IntegralEffect, HarmonicOrderEffect,
         CorrectionEffect, ReferenceEffect, TraceEffect, FormatEffect, DisplayEffect, SystemEffect, StatusEffect, TimerEffect,
         FirstUnquoted, FunctionNames;
    match c.key
    case Common(key) => CommonLeavesList(w, s, c, key);
    case Functions(key) => FunctionLeavesList(s, c, key);
    case Data(withStatus) => DataLeavesList(w, s, c, withStatus);
    case SamplingFrequency =>
    case Abort => AcquisitionKeepsList(s, c, Immediate);
    case RouteSystem => InputKeepsList(w, s, c, Gain);
    case Input(key) => InputKeepsList(w, s, c, key);
    case Ranging(voltage, key) => RangingKeepsList(w, s, c, voltage, key);
    case Aperture => RangingKeepsList(w, s, c, true, Scale);
    case Sweep(key) => SweepKeepsList(w, s, c, key);
    case Sync(key) => SyncKeepsList(w, s, c, key);
    case Initiate(key) => AcquisitionKeepsList(s, c, key);
    case Trigger(start, key) => TriggerKeepsList(w, s, c, start, key);
    case Transform(key) => TransformKeepsList(w, s, c, key);
    case Spectrum(key) => SpectrumKeepsList(w, s, c, key);
    case Integral(key) => IntegralKeepsList(w, s, c, key);
    case HarmonicOrder => PowerKeepsList(s, c);
    case PowerCorrection => PowerKeepsList(s, c);
    case EfficiencyReference => PowerKeepsList(s, c);
    case Trace(key) => TraceKeepsList(w, s, c, key);
    case Format(key) => FormatKeepsList(s, c, key);
    case Display(key) => DisplayKeepsList(s, c, key);
    case System(key) => SystemKeepsList(s, c, key, w.options.scpiVersion);
    case Status(r, part) => StatusKeepsList(w, s, c, r, part, ResetNow);
    case Timer(key) => StatusKeepsList(w, s, c, Operation, Condition, key);
  }

  // ------------------------------------------------------- where in a line a list can stand

  /** What can follow a parameter text on a line. */
  predicate Stop(c: char) { c == ';' || c == ',' || IsSpace(c) }

  /** `part` is what `text` reads from `i` on, up to its end or a stop. */
  predicate StandsAt(part: string, text: string, i: nat) {
    && i + |part| <= |text| && text[i..i + |part|] == part
    && (i + |part| < |text| ==> Stop(text[i + |part|]))
  }

  lemma StandsWithin(a: string, b: string, c: string, i: nat, j: nat)
    requires StandsAt(a, b, i) && StandsAt(b, c, j)
    ensures StandsAt(a, c, j + i)
  {
    SliceOfSlice(c, j, j + |b|, i, i + |a|);
    if i + |a| < |b| { assert c[j..j + |b|][i + |a|] == c[j + i + |a|]; }
  }

  lemma SliceOfSlice(c: string, j: nat, k: nat, m: nat, n: nat)
    requires j <= k <= |c| && m <= n <= k - j
    ensures c[j..k][m..n] == c[j + m..j + n]
  {
    forall x | 0 <= x < n - m ensures c[j..k][m..n][x] == c[j + m..j + n][x] {}
  }

  lemma {:induction false} TrimLeftIsRest(s: string)
    ensures TrimLeft(s) == s[|s| - |TrimLeft(s)|..]
  {
    if s != "" && IsSpace(s[0]) { TrimLeftIsRest(s[1..]); }
  }

  lemma {:induction false} TrimRightStops(s: string)
    ensures |TrimRight(s)| < |s| ==> IsSpace(s[|TrimRight(s)|])
  {
    if s != "" && IsSpace(s[|s| - 1]) {
      TrimRightStops(s[..|s| - 1]);
    }
  }

  lemma TrimStands(s: string)
    ensures StandsAt(Trim(s), s, |s| - |TrimLeft(s)|)
  {
    hide TrimLeft, TrimRight;
    TrimLeftIsRest(s);
    TrimRightStops(TrimLeft(s));
    StandsWithin(Trim(s), TrimLeft(s), s, 0, |s| - |TrimLeft(s)|);
  }

  /** The parameter text of a piece that has one. */
  function ParametersOf(text: string): string {
    var n := HeaderEnd(Outside, text);
    if n < |text| then Trim(text[n + 1..]) else ""
  }

  lemma {:induction false} HeaderEndsOutside(q: Quote, s: string)
    ensures HeaderEnd(q, s) < |s| ==> Scan(q, s[..HeaderEnd(q, s)]) == Outside && IsSpace(s[HeaderEnd(q, s)])
    decreases s
  {
    var n := HeaderEnd(q, s);
    if n > 0 {
      HeaderEndsOutside(Advance(q, s[0]), s[1..]);
      if n < |s| { assert s[..n][1..] == s[1..][..n - 1]; }
    }
  }

  /** The parameters of a piece stand in it, and hold no more unquoted semicolons than it does. */
  lemma ParametersStandInText(text: string) returns (i: nat)
    requires FreeOf(Outside, text, ';')
    ensures StandsAt(ParametersOf(text), text, i) && FreeOf(Outside, ParametersOf(text), ';')
  {
    hide Trim, FreeOf, HeaderEnd, Scan, StandsAt;
    var n := HeaderEnd(Outside, text);
    if n < |text| {
      var rest := text[n + 1..];
      HeaderEndsOutside(Outside, text);
      BlankKeepsFree(text, n);
      TrimStands(rest);
      TrimKeepsFree(Outside, rest, ';');
      RestStands(text, n + 1);
      StandsWithin(Trim(rest), rest, text, |rest| - |TrimLeft(rest)|, n + 1);
      i := n + 1 + (|rest| - |TrimLeft(rest)|);
    } else {
      NothingIsFree();
      NothingStands(text);
      i := |text|;
    }
  }

  lemma RestStands(text: string, n: nat)
    requires n <= |text|
    ensures StandsAt(text[n..], text, n)
  {}

  lemma NothingStands(text: string) ensures StandsAt("", text, |text|) {}

  lemma ParametersStand(piece: string) returns (i: nat)
    requires FreeOf(Outside, piece, ';')
    ensures StandsAt(ParametersOf(Trim(piece)), piece, i) && FreeOf(Outside, ParametersOf(Trim(piece)), ';')
  {
    hide Trim, FreeOf, ParametersOf, StandsAt;
    TrimStands(piece);
    TrimKeepsFree(Outside, piece, ';');
    var j := ParametersStandInText(Trim(piece));
    StandsWithin(ParametersOf(Trim(piece)), Trim(piece), piece, j, |piece| - |TrimLeft(piece)|);
    i := |piece| - |TrimLeft(piece)| + j;
  }

  lemma NothingIsFree() ensures FreeOf(Outside, "", ';') {}

  lemma BlankKeepsFree(text: string, n: nat)
    requires n < |text| && FreeOf(Outside, text, ';') && Scan(Outside, text[..n]) == Outside && IsSpace(text[n])
    ensures FreeOf(Outside, text[n + 1..], ';')
  {
    assert text == text[..n] + text[n..];
    FreeOfConcat(Outside, text[..n], text[n..], ';');
    assert text[n..][1..] == text[n + 1..];
  }

  /** The list is one a parameter text gives, or the front of it. */
  ghost predicate GivenBy(list: seq<string>, parameters: string) {
    var args := TrimAll(Split(Outside, parameters, ','));
    FreeOf(Outside, parameters, ';') && FirstUnquoted(args) == None && list <= FunctionNames(args)
  }

  /** Some parameter text on the line, from a place on, gives the list. */
  ghost predicate GivenIn(list: seq<string>, line: string, from: nat) {
    exists parameters: string, i: nat :: from <= i && StandsAt(parameters, line, i) && GivenBy(list, parameters)
  }

  predicate QuoteFree(names: seq<string>) { forall i :: 0 <= i < |names| ==> '"' !in names[i] }

  lemma AllFunctionsAreQuoteFree()
    ensures QuoteFree(ALL_FUNCTIONS)
  {}

  lemma FrontIsGiven(front: seq<string>, list: seq<string>, line: string, from: nat, later: nat)
    requires front <= list && from <= later
    ensures QuoteFree(list) ==> QuoteFree(front)
    ensures GivenIn(list, line, later) ==> GivenIn(front, line, from)
  {
    hide StandsAt, FreeOf, FirstUnquoted, FunctionNames, Split;
    if GivenIn(list, line, later) {
      var parameters: string, i: nat :| later <= i && StandsAt(parameters, line, i) && GivenBy(list, parameters);
      assert GivenBy(front, parameters);
    }
  }

  // ------------------------------------------------------------- the list after a whole line

  /** After the rest of a line the list is the front of what it was, free of quotes, or given on the rest of the line. */
  ghost predicate Traced(before: seq<string>, list: seq<string>, line: string, from: nat) {
    list <= before || QuoteFree(list) || GivenIn(list, line, from)
  }

  lemma TracedOn(before: seq<string>, middle: seq<string>, list: seq<string>, line: string, from: nat, later: nat)
    requires Traced(before, middle, line, from) && Traced(middle, list, line, later) && from <= later
    ensures Traced(before, list, line, from)
  {
    hide QuoteFree, GivenIn;
    if list <= middle {
      FrontIsGiven(list, middle, line, from, from);
    } else {
      FrontIsGiven(list, list, line, from, later);
    }
  }

  /** One piece on a line. */
  lemma PieceLeavesList(w: World, s: State, piece: string, path: seq<Token>, line: string, from: nat)
    requires StandsAt(piece, line, from) && FreeOf(Outside, piece, ';') && Trim(piece) != ""
    ensures var e := Perform(w, s, RequestFor(w.specs, Trim(piece), path));
            e.Done? ==> Traced(s.sense.functions, e.state.sense.functions, line, from)
  {
    hide EffectOf, Trim, Split, FreeOf, FirstUnquoted, FunctionNames, StandsAt, QuoteFree, HeaderEnd, Dispatch, CommonKeyOf,
         HeaderTokens, Upper;
    var request := RequestFor(w.specs, Trim(piece), path);
    var parameters := ParametersOf(Trim(piece));
    var i := ParametersStand(piece);
    StandsWithin(parameters, piece, line, i, from);
    if request.Known? {
      CommandLeavesList(w, s, request.command);
      AllFunctionsAreQuoteFree();
      assert request.command.args == PieceOf(Trim(piece)).args;
      var e := EffectOf(w, s, request.command);
      if e.Done? && FirstUnquoted(request.command.args) == None && e.state.sense.functions == FunctionNames(request.command.args) {
        if parameters == "" {
          NoParametersNoQuotes();
        } else {
          assert GivenBy(e.state.sense.functions, parameters);
        }
      }
    }
  }

  lemma NoParametersNoQuotes()
    ensures QuoteFree(FunctionNames([]))
  {}

  /** The next piece starts behind this one and its semicolon. */
  lemma NextPieceStands(pieces: seq<string>, line: string, from: nat)
    requires pieces != [] && from <= |line| && line[from..] == Join(pieces, ';')
    ensures StandsAt(pieces[0], line, from)
    ensures |pieces| > 1 ==> from + |pieces[0]| + 1 <= |line| && line[from + |pieces[0]| + 1..] == Join(pieces[1..], ';')
  {
    var rest := line[from..];
    if |pieces| > 1 {
      assert rest == pieces[0] + ([';'] + Join(pieces[1..], ';'));
      assert rest[|pieces[0]|..] == [';'] + Join(pieces[1..], ';');
      assert rest[|pieces[0]|..][1..] == line[from + |pieces[0]| + 1..];
      assert line[from + |pieces[0]|] == rest[|pieces[0]|..][0];
    }
    assert line[from..from + |pieces[0]|] == rest[..|pieces[0]|];
  }

  /** The rest of a line, from a piece on. */
  lemma {:induction false} PiecesLeaveList(w: World, s: State, pieces: seq<string>, path: seq<Token>, line: string, from: nat)
    requires forall i :: 0 <= i < |pieces| ==> FreeOf(Outside, pieces[i], ';')
    requires pieces != [] ==> from <= |line| && line[from..] == Join(pieces, ';')
    ensures var o := RunPieces(Simulator(w), s, pieces, path);
            o.ending.Completed? ==> Traced(s.sense.functions, o.state.sense.functions, line, from)
    decreases |pieces|
  {
    hide Perform, RequestFor, NextPath, Trim, FreeOf, QuoteFree, GivenIn, StandsAt, Join, PushError;
    if pieces != [] {
      NextPieceStands(pieces, line, from);
      var text, next := Trim(pieces[0]), from + |pieces[0]| + 1;
      if text == "" {
        PiecesLeaveList(w, s, pieces[1..], path, line, next);
        var o := RunPieces(Simulator(w), s, pieces[1..], path);
        if o.ending.Completed? { TracedOn(s.sense.functions, s.sense.functions, o.state.sense.functions, line, from, next); }
      } else {
        var e := Perform(w, s, RequestFor(w.specs, text, path));
        PieceLeavesList(w, s, pieces[0], path, line, from);
        if e.Done? {
          var o := RunPieces(Simulator(w), e.state, pieces[1..], NextPath(text, path));
          PiecesLeaveList(w, e.state, pieces[1..], NextPath(text, path), line, next);
          if o.ending.Completed? { TracedOn(s.sense.functions, e.state.sense.functions, o.state.sense.functions, line, from, next); }
        }
      }
    }
  }

  // ------------------------------------------------- a printed list inside its own print

  /** A parameter that a list takes, and the name it gives. */
  predicate Gives(raw: string, name: string) {
    |Trim(raw)| >= 2 && IsQuote(Trim(raw)[0]) && Unquote(raw) == name
  }

  /** The name of a parameter is what stands in its quotes, or the parameter itself when it does not close them. */
  lemma GivenName(raw: string, name: string)
    requires Gives(raw, name)
    ensures var a := Trim(raw);
            && StandsAt(a, raw, |raw| - |TrimLeft(raw)|)
            && ((|a| == |name| + 2) || (a == name && a[|a| - 1] != a[0]))
  {
    hide TrimLeft, TrimRight;
    TrimStands(raw);
  }

  lemma {:induction false} AllTheSame(a: string)
    requires a != "" && forall j :: 0 <= j < |a| - 1 ==> a[j] == a[j + 1]
    ensures a[|a| - 1] == a[0]
  {
    if |a| > 1 { AllTheSame(a[1..]); }
  }

  /** A text that opens a quote without closing it does not stand at the first three places of its own print. */
  lemma UnclosedStandsFarther(a: string, text: string, d: nat)
    requires |a| >= 2 && a[|a| - 1] != a[0]
    requires Quoted(a) <= text && StandsAt(a, text, d)
    ensures d >= 3
  {
    hide Quoted, Stop;
    PrintedAt(a, text);
    if d < 3 {
      forall j | 0 <= j < |a| ensures text[d + j] == a[j] { assert text[d..d + |a|][j] == a[j]; }
      if d == 1 {
        assert Stop(text[1 + |a|]);
        QuoteIsNoStop();
      } else {
        forall j | 0 <= j < |a| - 1 ensures a[j] == a[j + 1] {
          assert d == 0 ==> text[0 + (j + 1)] == a[j + 1] && text[1 + j] == a[j];
          assert d == 2 ==> text[2 + j] == a[j] && text[1 + (j + 1)] == a[j + 1];
        }
        AllTheSame(a);
      }
    }
  }

  /** Where the characters of a printed name stand. */
  lemma PrintedAt(a: string, text: string)
    requires Quoted(a) <= text
    ensures |text| >= |a| + 2 && text[0] == '"' && text[1 + |a|] == '"'
    ensures forall j :: 0 <= j < |a| ==> text[1 + j] == a[j]
  {
    forall j | 0 <= j < |a| ensures text[1 + j] == a[j] { assert Quoted(a)[1 + j] == a[j]; }
    assert Quoted(a)[0] == '"' && Quoted(a)[1 + |a|] == '"';
  }

  lemma QuoteIsNoStop() ensures !Stop('"') {}

  lemma FirstStands(raws: seq<string>)
    requires raws != []
    ensures StandsAt(raws[0], Join(raws, ','), 0)
    ensures |raws| > 1 ==> StandsAt(Join(raws[1..], ','), Join(raws, ','), |raws[0]| + 1)
  {
    if |raws| > 1 {
      var rest := [','] + Join(raws[1..], ',');
      assert Join(raws, ',') == raws[0] + rest;
      assert Join(raws, ',')[|raws[0]|..] == rest && rest[1..] == Join(raws[1..], ',');
    }
  }

  lemma StandsInRest(part: string, text: string, i: nat, k: nat)
    requires StandsAt(part, text, i) && k <= i
    ensures StandsAt(part, text[k..], i - k)
  {
    assert text[k..][i - k..i - k + |part|] == text[i..i + |part|];
  }

  lemma StandsFits(part: string, text: string, i: nat)
    requires StandsAt(part, text, i)
    ensures i + |part| <= |text| && text[i..i + |part|] == part
  {}

  /** Where the first parameter of a list that stands in a text starts and ends there. */
  lemma FirstParameter(raws: seq<string>, name: string, text: string, i: nat)
    requires raws != [] && Gives(raws[0], name) && Quoted(name) <= text && StandsAt(Join(raws, ','), text, i)
    ensures var a, left := Trim(raws[0]), |raws[0]| - |TrimLeft(raws[0])|;
            && left >= 0 && left + |a| <= |raws[0]| && i + left + |a| <= |text|
            && (|a| == |name| + 2 || (|a| == |name| && i + left >= 3))
  {
    hide Trim, TrimLeft, Gives, StandsAt, Join;
    var a, left := Trim(raws[0]), |raws[0]| - |TrimLeft(raws[0])|;
    GivenName(raws[0], name);
    FirstStands(raws);
    StandsWithin(a, raws[0], Join(raws, ','), left, 0);
    StandsWithin(a, Join(raws, ','), text, left, i);
    StandsFits(a, raws[0], left);
    StandsFits(a, text, i + left);
    if |a| != |name| + 2 { UnclosedFarther(raws[0], name, text, i + left); }
  }

  lemma UnclosedFarther(raw: string, name: string, text: string, d: nat)
    requires Gives(raw, name) && |Trim(raw)| != |name| + 2
    requires Quoted(name) <= text && StandsAt(Trim(raw), text, d)
    ensures d >= 3
  {
    hide TrimLeft, Trim, StandsAt;
    GivenName(raw, name);
    UnclosedStandsFarther(Trim(raw), text, d);
  }

  /** What stands in a text at its beginning and is as long is the text. */
  lemma StandsWhole(part: string, text: string)
    requires StandsAt(part, text, 0) && |part| >= |text|
    ensures part == text
  {
    assert text[0..|text|] == text;
  }

  lemma BehindStands(names: seq<string>, raws: seq<string>, i: nat)
    requires 1 < |names| && 1 < |raws| && i + |raws[0]| + 1 >= |names[0]| + 3
    requires StandsAt(Join(raws, ','), QuoteJoin(names), i)
    ensures StandsAt(Join(raws[1..], ','), QuoteJoin(names[1..]), i + |raws[0]| + 1 - (|names[0]| + 3))
    ensures |Join(raws, ',')| == |raws[0]| + 1 + |Join(raws[1..], ',')|
    ensures |QuoteJoin(names)| == |names[0]| + 3 + |QuoteJoin(names[1..])|
  {
    hide StandsAt, QuoteJoin;
    QuoteJoinStep(names);
    FirstStands(raws);
    StandsWithin(Join(raws[1..], ','), Join(raws, ','), QuoteJoin(names), |raws[0]| + 1, i);
    StandsInRest(Join(raws[1..], ','), QuoteJoin(names), i + |raws[0]| + 1, |names[0]| + 3);
    assert QuoteJoin(names)[|names[0]| + 3..] == QuoteJoin(names[1..]);
  }

  /** A list of parameters that gives a list of names does not stand inside the print of these names: where it stands, it
      is the whole print. */
  lemma {:induction false} PrintHoldsItselfOnce(names: seq<string>, raws: seq<string>, i: nat)
    requires 0 < |names| <= |raws| && forall j :: 0 <= j < |names| ==> Gives(raws[j], names[j])
    requires StandsAt(Join(raws, ','), QuoteJoin(names), i)
    ensures i == 0 && Join(raws, ',') == QuoteJoin(names)
  {
    hide Trim, TrimLeft, Gives, StandsAt, QuoteJoin, Join;
    QuoteJoinStep(names);
    FirstParameter(raws, names[0], QuoteJoin(names), i);
    if |names| > 1 {
      BehindStands(names, raws, i);
      PrintHoldsItselfOnce(names[1..], raws[1..], i + |raws[0]| + 1 - (|names[0]| + 3));
    } else {
      FirstFits(raws);
    }
    StandsWhole(Join(raws, ','), QuoteJoin(names));
  }

  lemma FirstFits(raws: seq<string>)
    requires raws != []
    ensures |raws[0]| <= |Join(raws, ',')|
  {}

  // -------------------------------------------------------------- the list that was asked for

  lemma {:induction false} AllAreQuoted(args: seq<string>, j: nat)
    requires FirstUnquoted(args) == None && j < |args|
    ensures QuotedParameter(args[j])
  {
    if j > 0 { AllAreQuoted(args[1..], j - 1); }
  }

  lemma UpperStands(part: string, text: string, i: nat)
    requires StandsAt(part, text, i)
    ensures StandsAt(Upper(part), Upper(text), i)
  {
    forall k | 0 <= k < |part| ensures Upper(text)[i..i + |part|][k] == Upper(part)[k] {
      assert text[i..i + |part|][k] == part[k];
    }
  }

  /** In upper case, the parameters of an accepted list give its names. */
  lemma UpperGives(raws: seq<string>, j: nat)
    requires FirstUnquoted(TrimAll(raws)) == None && j < |raws|
    ensures Gives(UpperAll(raws)[j], FunctionNames(TrimAll(raws))[j])
  {
    hide Trim, Unquote, Upper, FirstUnquoted;
    AllAreQuoted(TrimAll(raws), j);
    TrimTwice(raws[j]);
    UpperTrim(raws[j]);
    UpperUnquote(raws[j]);
    UpperOfQuote(Trim(raws[j]));
  }

  lemma UpperOfQuote(a: string)
    requires |a| >= 2 && IsQuote(a[0])
    ensures |Upper(a)| >= 2 && IsQuote(Upper(a)[0])
  {}

  /** When the list asked for is given anywhere among the parameters on the line, it is one command. */
  lemma GivenAsAsked(names: seq<string>, line: string, from: nat)
    requires names != [] && from <= |line| && line[from..] == QuoteJoin(names) && GivenIn(UpperAll(names), line, from)
    ensures OneCommand(names)
  {
    hide Trim, Upper, FreeOf, StandsAt, Split, QuoteJoin, Join, FirstUnquoted, FunctionNames, Gives;
    var p: string, i: nat :| from <= i && StandsAt(p, line, i) && GivenBy(UpperAll(names), p);
    var raws := Split(Outside, p, ',');
    JoinOfSplit(Outside, p, ',');
    StandsInRest(p, line, i, from);
    UpperStands(p, QuoteJoin(names), i - from);
    UpperJoin(raws);
    UpperQuoteJoin(names);
    forall j | 0 <= j < |names| ensures Gives(UpperAll(raws)[j], UpperAll(names)[j]) { UpperGives(raws, j); }
    PrintHoldsItselfOnce(UpperAll(names), UpperAll(raws), i - from);
    assert |p| == |Upper(p)| && |QuoteJoin(names)| == |Upper(QuoteJoin(names))|;
    StandsWhole(p, QuoteJoin(names));
  }

  // ------------------------------------------------------------------ the line the client writes

  /** The commands whose parameters are the list to configure: FUNC, DATA? and DATA:STAT?. */
  predicate Configures(key: Key, query: bool) { if query then key.Data? else key == Functions(FunctionList) }

  lemma ConfiguresList(w: World, s: State, key: Key, query: bool, args: seq<string>)
    requires Configures(key, query) && args != []
    ensures var e := EffectOf(w, s, Command(key, [], query, args));
            e.Done? ==> FirstUnquoted(args) == None && e.state.sense.functions == FunctionNames(args)
  {
    hide FirstUnquoted, FunctionNames, MeasurementResponse,
         CommonEffect, AbortEffect, RouteEffect, InputEffect, RangingEffect, ApertureEffect,
         SweepEffect, SyncEffect, AcquisitionEffect, TriggerEffect, TransformEffect, SpectrumEffect, IntegralEffect,
         HarmonicOrderEffect, CorrectionEffect, ReferenceEffect, TraceEffect, FormatEffect, DisplayEffect, SystemEffect,
         StatusEffect, TimerEffect;
  }

  function Front(header: string, query: bool): string { header + (if query then "?" else "") + " " }

  lemma FrontIsClosed(header: string, query: bool)
    requires HeaderText(header)
    ensures FreeOf(Outside, Front(header, query), ';') && Scan(Outside, Front(header, query)) == Outside
    ensures !IsSpace(Front(header, query)[0])
  {
    PlainText(Front(header, query), ';');
  }

  lemma {:induction false} TrimRightBehind(a: string, b: string)
    requires TrimRight(b) != ""
    ensures TrimRight(a + b) == a + TrimRight(b)
  {
    if b != "" && IsSpace(b[|b| - 1]) {
      assert (a + b)[..|a + b| - 1] == a + b[..|b| - 1];
      TrimRightBehind(a, b[..|b| - 1]);
    }
  }

  /** The first command's part of a printed list. */
  function FirstPart(list: string): string { TrimRight(Split(Outside, list, ';')[0]) }

  lemma FirstPartShape(list: string)
    requires list != "" && list[0] == '"'
    ensures var y, x := Split(Outside, list, ';')[0], FirstPart(list);
            x != "" && x[0] == '"' && Trimmed(x) && FreeOf(Outside, x, ';') && StandsAt(x, y, 0)
  {
    hide FreeOf;
    var y := Split(Outside, list, ';')[0];
    assert Split(Outside, list, ';') == Glue(['"'], Split(Inside('"'), list[1..], ';'));
    assert y[0] == '"';
    SplitSeparates(list, ';');
    TrimRightKeepsFree(y, ';');
    TrimRightStops(y);
    MarkIsKept(y);
  }

  lemma {:induction false} MarkIsKept(y: string)
    requires y != "" && y[0] == '"'
    ensures TrimRight(y) != "" && TrimRight(y)[0] == '"'
  {
    if IsSpace(y[|y| - 1]) { MarkIsKept(y[..|y| - 1]); }
  }

  /** The line is the header, a blank and the list, and its first piece ends inside the list. */
  lemma FirstPieceOfLine(header: string, query: bool, list: string)
    requires HeaderText(header) && list != "" && list[0] == '"'
    ensures var front, line := Front(header, query), LineText(header, query, list);
            var pieces := Split(Outside, line, ';');
            && line == front + list
            && |front| <= |pieces[0]|
            && Trim(pieces[0]) == LineText(header, query, FirstPart(list)) != ""
            && StandsAt(FirstPart(list), line, |front|)
  {
    hide FreeOf, Split, Trim, TrimRight, StandsAt, Front, FirstPart, LineText;
    var front, line := Front(header, query), LineText(header, query, list);
    FirstPartShape(list);
    FrontAndList(header, query, list);
    FrontAndList(header, query, FirstPart(list));
    FrontIsClosed(header, query);
    FrontBlank(header, query);
    FirstPieceBehind(front, list);
  }

  lemma FrontBlank(header: string, query: bool)
    requires header != ""
    ensures Front(header, query) != ""
  {}

  lemma FrontAndList(header: string, query: bool, list: string)
    requires list != ""
    ensures LineText(header, query, list) == Front(header, query) + list
  {}

  /** The first piece of a list behind a closed front. */
  lemma FirstPieceBehind(front: string, list: string)
    requires front != "" && FreeOf(Outside, front, ';') && Scan(Outside, front) == Outside && !IsSpace(front[0])
    requires list != "" && list[0] == '"'
    ensures var pieces := Split(Outside, front + list, ';');
            && |front| <= |pieces[0]|
            && Trim(pieces[0]) == front + FirstPart(list)
            && StandsAt(FirstPart(list), front + list, |front|)
  {
    hide FreeOf, Split, Scan, Trim, TrimRight, StandsAt;
    var line := front + list;
    var pieces, y, x := Split(Outside, line, ';'), Split(Outside, list, ';')[0], FirstPart(list);
    SplitPrefix(Outside, front, list, ';');
    assert pieces[0] == front + y;
    FirstPartShape(list);
    TrimBehind(front, y);
    JoinOfSplit(Outside, line, ';');
    assert line[0..] == line;
    NextPieceStands(pieces, line, 0);
    BehindFront(front, y);
    StandsWithin(x, y, pieces[0], 0, |front|);
    StandsWithin(x, pieces[0], line, |front|, 0);
  }

  lemma TrimBehind(front: string, y: string)
    requires front != "" && !IsSpace(front[0]) && TrimRight(y) != ""
    ensures Trim(front + y) == front + TrimRight(y)
  {
    TrimRightBehind(front, y);
    assert TrimLeft(front + y) == front + y;
  }

  lemma BehindFront(front: string, y: string)
    ensures StandsAt(y, front + y, |front|)
  {}

  lemma FirstRequest(w: World, hs: seq<string>, key: Key, query: bool, parameters: string)
    requires Words(hs) && Knows(w.specs, hs, key) && Trimmed(parameters)
    ensures RequestFor(w.specs, LineText(Join(hs, ':'), query, parameters), []) ==
            Known(Command(key, [], query, ArgsOf(parameters)))
  {
    hide PieceOf, LineText, HeaderTokens, ArgsOf, Join, Dispatch;
    JoinOfWords(hs);
    TokensOfWords(hs);
    PieceOfLine(Join(hs, ':'), query, parameters);
  }

  lemma QuoteFreeUpper(names: seq<string>)
    requires QuoteFree(UpperAll(names))
    ensures QuoteFree(names)
  {
    forall i | 0 <= i < |names| ensures '"' !in names[i] {
      forall k | 0 <= k < |names[i]| ensures names[i][k] != '"' {
        assert UpperAll(names)[i][k] == ToUpper(names[i][k]) && UpperAll(names)[i][k] in UpperAll(names)[i];
      }
    }
  }

  /** The list after the first command is the one its parameters give, and the rest of the line goes on from there. */
  lemma LineLeavesList(w: World, s: State, hs: seq<string>, key: Key, query: bool, names: seq<string>)
    requires Words(hs) && Knows(w.specs, hs, key) && Configures(key, query) && names != []
    ensures var line := LineText(Join(hs, ':'), query, QuoteJoin(names));
            var o := RunLine(Simulator(w), s, line);
            o.ending.Completed? ==> Traced([], o.state.sense.functions, line, |Front(Join(hs, ':'), query)|)
  {
    hide RequestFor, NextPath, Trim, FreeOf, QuoteFree, StandsAt, Join, PushError, LineText, Front, QuoteJoin, EffectOf,
         Configures, FirstUnquoted, FunctionNames, Dispatch, FirstPart, Split;
    var header, list := Join(hs, ':'), QuoteJoin(names);
    var line := LineText(header, query, list);
    var pieces, x := Split(Outside, line, ';'), FirstPart(list);
    JoinOfWords(hs);
    QuoteJoinEnds(names);
    FirstPieceOfLine(header, query, list);
    FirstPartShape(list);
    FirstRequest(w, hs, key, query, x);
    ConfiguresList(w, s, key, query, ArgsOf(x));
    var e := EffectOf(w, s, Command(key, [], query, ArgsOf(x)));
    FirstOfLine(Simulator(w), s, pieces, e);
    if e.Done? {
      RestLeavesList(w, e.state, line, x, |Front(header, query)|, NextPath(Trim(pieces[0]), []));
    }
  }

  lemma FirstOfLine(m: Machine, s: State, pieces: seq<string>, effect: Effect)
    requires pieces != [] && Trim(pieces[0]) != "" && effect == m.perform(s, RequestFor(m.specs, Trim(pieces[0]), []))
    ensures var o := RunPieces(m, s, pieces, []);
            if effect.Done? then
              var rest := RunPieces(m, effect.state, pieces[1..], NextPath(Trim(pieces[0]), []));
              o.state == rest.state && o.ending == rest.ending
            else !o.ending.Completed?
  {
    hide RequestFor, NextPath, Trim, PushError;
  }

  /** The rest of the line, after a first command whose parameters `x` gave the list. */
  lemma RestLeavesList(w: World, s: State, line: string, x: string, from: nat, path: seq<Token>)
    requires var pieces := Split(Outside, line, ';'); from <= |pieces[0]|
    requires StandsAt(x, line, from) && GivenBy(s.sense.functions, x)
    ensures var o := RunPieces(Simulator(w), s, Split(Outside, line, ';')[1..], path);
            o.ending.Completed? ==> Traced([], o.state.sense.functions, line, from)
  {
    hide RunPieces, FreeOf, QuoteFree, StandsAt, Join, Split, GivenBy;
    var pieces := Split(Outside, line, ';');
    SplitSeparates(line, ';');
    JoinOfSplit(Outside, line, ';');
    assert line[0..] == line;
    NextPieceStands(pieces, line, 0);
    PiecesLeaveList(w, s, pieces[1..], path, line, |pieces[0]| + 1);
    var o := RunPieces(Simulator(w), s, pieces[1..], path);
    if o.ending.Completed? { TracedOn([], s.sense.functions, o.state.sense.functions, line, from, |pieces[0]| + 1); }
  }

  /** However many commands the list turns out to be, when all of them are accepted and the list configured in the end is
      the one asked for, then it was one command. */
  lemma AskedForIsOneCommand(w: World, s: State, hs: seq<string>, key: Key, query: bool, names: seq<string>)
    requires Words(hs) && Knows(w.specs, hs, key) && Configures(key, query) && names != []
    ensures var o := RunLine(Simulator(w), s, LineText(Join(hs, ':'), query, QuoteJoin(names)));
            o.ending.Completed? && o.state.sense.functions == UpperAll(names) ==> OneCommand(names)
  {
    hide RunLine, QuoteFree, GivenIn, OneCommand, LineText, Join, Front, QuoteJoin, Dispatch, Configures, FirstPart, Split;
    var header, list := Join(hs, ':'), QuoteJoin(names);
    var line := LineText(header, query, list);
    var o := RunLine(Simulator(w), s, line);
    LineLeavesList(w, s, hs, key, query, names);
    JoinOfWords(hs);
    QuoteJoinEnds(names);
    FirstPieceOfLine(header, query, list);
    if o.ending.Completed? && o.state.sense.functions == UpperAll(names) {
      assert line[|Front(header, query)|..] == list;
      if QuoteFree(UpperAll(names)) {
        QuoteFreeUpper(names);
        QuoteFreeNames(names);
      } else {
        GivenAsAsked(names, line, |Front(header, query)|);
      }
    }
  }

  lemma QuoteFreeNames(names: seq<string>)
    requires names != [] && QuoteFree(names)
    ensures OneCommand(names)
  {
    QuoteFreeIsOneCommand(names);
  }

  // --------------------------------------------------------------------------- set_functions()

  /** The names asked for are what is stored if and only if they are one command, separate, and may all be measured at
      once. */
  lemma SetFunctionsExactly(w: World, s: State, names: seq<string>)
    requires ClientTable(w.specs) && names != []
    ensures RunLine(Simulator(w), s, "FUNC " + QuoteJoin(names)) == Outcome(WithFunctions(s, UpperAll(names)), [], Completed)
            <==> OneCommand(names) && SeparateNames(names) && (s.sense.concurrent || |names| == 1)
  {
    hide RunLine, QuoteJoin, SeparateNames, OneCommand, LineText, Join, Dispatch;
    QuoteJoinEnds(names);
    FunctionsLine(QuoteJoin(names), false);
    assert "FUNC" + "" + (" " + QuoteJoin(names)) == "FUNC " + QuoteJoin(names);
    AskedForIsOneCommand(w, s, ["FUNC"], Functions(FunctionList), false, names);
    if OneCommand(names) { OneCommandExactly(w, s, names); }
  }

  /** When every command of the line is accepted, the list configured is the one asked for if and only if it is one command
      and its names are separate. */
  lemma SetFunctionsLeaves(w: World, s: State, names: seq<string>)
    requires ClientTable(w.specs) && names != []
    ensures var o := RunLine(Simulator(w), s, "FUNC " + QuoteJoin(names));
            o.ending.Completed? ==> (o.state.sense.functions == UpperAll(names) <==> OneCommand(names) && SeparateNames(names))
  {
    hide RunLine, QuoteJoin, SeparateNames, OneCommand, LineText, Join, Dispatch, UpperAll, EffectOf, Split, ArgsOf, FunctionNames;
    QuoteJoinEnds(names);
    FunctionsLine(QuoteJoin(names), false);
    assert "FUNC" + "" + (" " + QuoteJoin(names)) == "FUNC " + QuoteJoin(names);
    AskedForIsOneCommand(w, s, ["FUNC"], Functions(FunctionList), false, names);
    if OneCommand(names) {
      var pieces := Split(Outside, QuoteJoin(names), ',');
      SetFunctionsArrives(w, s, names);
      FunctionArguments(names);
      AcceptedList(w, s, TrimAll(pieces));
      NamesOfArguments(pieces);
      UpperNamesComeBack(names);
    }
  }

  /** The function list round trip: through both splitters, the cut between header and parameters and both
      unquoters, `set_functions` stores the names and `functions` gives them back in upper case if and only if the names
      are one command and separate, which names without a double quote always are. */
  lemma FunctionListRoundTrip(w: World, s: State, names: seq<string>)
    requires ClientTable(w.specs) && names != []
    requires s.sense.concurrent || |names| == 1
    ensures var after := RunLine(Simulator(w), s, "FUNC " + QuoteJoin(names));
            after == Outcome(WithFunctions(s, UpperAll(names)), [], Completed) <==> OneCommand(names) && SeparateNames(names)
    ensures SeparateNames(names) ==>
              var after := WithFunctions(s, UpperAll(names));
              var answer := RunLine(Simulator(w), after, "FUNC?");
              && answer.state == after && |answer.responses| == 1
              && UnquoteAll(Fields(answer.responses[0], ',')) == UpperAll(names)
  {
    hide RunLine, RunPieces, EffectOf, QuoteJoin, Fields, SeparateNames, OneCommand;
    SetFunctionsExactly(w, s, names);
    FunctionsRuns(w, WithFunctions(s, UpperAll(names)));
    UpperKeepsSeparate(names);
    NamesAreRead(UpperAll(names));
  }

  // ------------------------------------------------------- a semicolon outside the quotes

  /** A name with quotes of its own around a semicolon: the list is read as three commands. */
  const BROKEN_NAME := "a\";*RST;*WAI \"b"

  const PIECES: seq<string> :=
    [LineText("FUNC", false, "\"a\""), LineText("*RST", false, ""), LineText("*WAI", false, "\"b\"")]

  lemma BrokenLine()
    ensures "FUNC " + QuoteJoin([BROKEN_NAME]) == PIECES[0] + [';'] + (PIECES[1] + [';'] + PIECES[2])
  {
    assert QuotedAll([BROKEN_NAME]) == [Quoted(BROKEN_NAME)];
    assert Quoted(BROKEN_NAME) == "\"a\"" + [';'] + ("*RST" + [';'] + "*WAI \"b\"");
  }

  lemma QuotedWord(word: string)
    requires '"' !in word
    ensures Trimmed(Quoted(word)) && FreeOf(Outside, Quoted(word), ';') && Scan(Outside, Quoted(word)) == Outside
    ensures ArgsOf(Quoted(word)) == [Quoted(word)] == QuotedAll([word])
  {
    QuotedIsClosed(word, ';');
    QuotedIsClosed(word, ',');
    OneArgument(Quoted(word));
  }

  lemma ClosedLine(header: string, parameters: string)
    requires HeaderText(header) && FreeOf(Outside, parameters, ';') && Scan(Outside, parameters) == Outside
    ensures FreeOf(Outside, LineText(header, false, parameters), ';') && Scan(Outside, LineText(header, false, parameters)) == Outside
  {
    PlainText(header, ';');
    if parameters == "" {
      assert LineText(header, false, "") == header;
    } else {
      FrontIsClosed(header, false);
      assert LineText(header, false, parameters) == Front(header, false) + parameters;
      FreeOfConcat(Outside, Front(header, false), parameters, ';');
      ScanConcat(Outside, Front(header, false), parameters);
    }
  }

  lemma BrokenHeaders()
    ensures HeaderText("FUNC") && HeaderText("*RST") && HeaderText("*WAI")
    ensures "\"a\"" == Quoted("a") && "\"b\"" == Quoted("b")
  {}

  lemma BrokenPieces()
    ensures Split(Outside, "FUNC " + QuoteJoin([BROKEN_NAME]), ';') == PIECES
  {
    hide Split, FreeOf, Scan, LineText, HeaderText, Quoted, QuoteJoin;
    BrokenLine();
    BrokenHeaders();
    QuotedWord("a");
    QuotedWord("b");
    assert FreeOf(Outside, "", ';') && Scan(Outside, "") == Outside by { NothingIsClosed(); }
    ClosedLine("FUNC", "\"a\"");
    ClosedLine("*RST", "");
    ClosedLine("*WAI", "\"b\"");
    SplitOff(PIECES[0], PIECES[1] + [';'] + PIECES[2], ';');
    SplitOff(PIECES[1], PIECES[2], ';');
    SplitFree(PIECES[2], ';');
  }

  lemma NothingIsClosed() ensures FreeOf(Outside, "", ';') && Scan(Outside, "") == Outside {}

  /** What a common command selects, wherever the path stands. */
  lemma CommonPiece(specs: seq<CommandSpec>, path: seq<Token>, header: string, key: CommonKey, parameters: string)
    requires HeaderText(header) && IsCommon(header) && CommonKeyOf(Upper(header)) == Some(key) && Trimmed(parameters)
    ensures RequestFor(specs, LineText(header, false, parameters), path) == Known(Command(Common(key), [], false, ArgsOf(parameters)))
  {
    hide PieceOf, LineText, ArgsOf, CommonKeyOf, Dispatch;
    PieceOfLine(header, false, parameters);
  }

  lemma BrokenEffects(w: World, s: State, after: State, args: seq<string>)
    ensures EffectOf(w, s, Command(Functions(FunctionList), [], false, QuotedAll(["a"]))) == Done(WithFunctions(s, UpperAll(["a"])), None)
    ensures EffectOf(w, after, Command(Common(Rst), [], false, [])) == Done(ResetState(w.options, after.errors), None)
    ensures EffectOf(w, after, Command(Common(Wai), [], false, args)) == Done(after, None)
  {
    hide ResetState, WithFunctions,
         AbortEffect, RouteEffect, InputEffect, RangingEffect, ApertureEffect, DataEffect, FunctionEffect,
         SweepEffect, SyncEffect, AcquisitionEffect, TriggerEffect, TransformEffect, SpectrumEffect, IntegralEffect,
         HarmonicOrderEffect, CorrectionEffect, ReferenceEffect, TraceEffect, FormatEffect, DisplayEffect, SystemEffect,
         StatusEffect, TimerEffect;
    SetFunctionsEffect(w, s, ["a"]);
  }

  lemma BrokenCommons()
    ensures CommonKeyOf(Upper("*RST")) == Some(Rst) && IsCommon("*RST")
    ensures CommonKeyOf(Upper("*WAI")) == Some(Wai) && IsCommon("*WAI")
  {
    assert Upper("*RST") == "*RST" && Upper("*WAI") == "*WAI";
  }

  lemma SilentStep(m: Machine, s: State, pieces: seq<string>, path: seq<Token>, text: string, after: State)
    requires pieces != [] && Trim(pieces[0]) == text != "" && m.perform(s, RequestFor(m.specs, text, path)) == Done(after, None)
    ensures RunPieces(m, s, pieces, path) == RunPieces(m, after, pieces[1..], NextPath(text, path))
  {
    hide RequestFor, NextPath, Trim;
    var rest := RunPieces(m, after, pieces[1..], NextPath(text, path));
    assert CommandLine.Listed(None) + rest.responses == rest.responses;
  }

  lemma PiecesAreTrimmed()
    ensures |PIECES| == 3 && forall i :: 0 <= i < 3 ==> Trim(PIECES[i]) == PIECES[i] != ""
  {
    hide LineText, HeaderText, Quoted, Split;
    BrokenHeaders();
    QuotedWord("a");
    QuotedWord("b");
    LineIsOnePiece("FUNC", false, "\"a\"");
    LineIsOnePiece("*WAI", false, "\"b\"");
    assert FreeOf(Outside, "", ';') by { NothingIsClosed(); }
    LineIsOnePiece("*RST", false, "");
  }

  lemma NoMorePieces(m: Machine, s: State, path: seq<Token>)
    ensures RunPieces(m, s, [], path) == Outcome(s, [], Completed)
  {}

  /** The first of the three commands stores a list of its own. */
  lemma FirstStores(w: World, s: State)
    requires ClientTable(w.specs)
    ensures RunPieces(Simulator(w), s, PIECES, []) ==
            RunPieces(Simulator(w), WithFunctions(s, UpperAll(["a"])), PIECES[1..], NextPath(PIECES[0], []))
  {
    hide RunPieces, RequestFor, NextPath, EffectOf, LineText, Trim, Quoted, Dispatch, UpperAll;
    PiecesAreTrimmed();
    BrokenHeaders();
    QuotedWord("a");
    BrokenEffects(w, s, s, []);
    assert Join(["FUNC"], ':') == "FUNC";
    FirstRequest(w, ["FUNC"], Functions(FunctionList), false, "\"a\"");
    SilentStep(Simulator(w), s, PIECES, [], PIECES[0], WithFunctions(s, UpperAll(["a"])));
  }

  /** The other two reset it. */
  lemma RestResets(w: World, s: State, path: seq<Token>)
    ensures RunPieces(Simulator(w), s, PIECES[1..], path) == Outcome(ResetState(w.options, s.errors), [], Completed)
  {
    hide RunPieces, RequestFor, NextPath, EffectOf, LineText, Trim, Quoted, ResetState, ArgsOf, HeaderText, CommonKeyOf;
    var reset := ResetState(w.options, s.errors);
    PiecesAreTrimmed();
    BrokenHeaders();
    BrokenCommons();
    QuotedWord("b");
    assert ArgsOf("") == [] by { NothingGiven(); }
    BrokenEffects(w, s, s, []);
    BrokenEffects(w, s, reset, ArgsOf("\"b\""));
    CommonPiece(w.specs, path, "*RST", Rst, "");
    CommonPiece(w.specs, NextPath(PIECES[1], path), "*WAI", Wai, "\"b\"");
    SilentStep(Simulator(w), s, PIECES[1..], path, PIECES[1], reset);
    assert PIECES[1..][1..] == [PIECES[2]] && [PIECES[2]][1..] == [];
    SilentStep(Simulator(w), reset, [PIECES[2]], NextPath(PIECES[1], path), PIECES[2], reset);
    NoMorePieces(Simulator(w), reset, NextPath(PIECES[2], NextPath(PIECES[1], path)));
  }

  lemma NothingGiven() ensures ArgsOf("") == [] {}

  /** Such a list is not stored: this one resets the instrument, with every command on the line accepted. */
  lemma SemicolonOutsideQuotes(w: World, s: State)
    requires ClientTable(w.specs)
    ensures RunLine(Simulator(w), s, "FUNC " + QuoteJoin([BROKEN_NAME])) == Outcome(ResetState(w.options, s.errors), [], Completed)
    ensures !OneCommand([BROKEN_NAME])
  {
    hide RunPieces, NextPath, QuoteJoin, Split, ResetState, OneCommand, UpperAll;
    BrokenPieces();
    FirstStores(w, s);
    RestResets(w, WithFunctions(s, UpperAll(["a"])), NextPath(PIECES[0], []));
    BrokenIsNotOne();
  }

  lemma BrokenIsNotOne()
    ensures !OneCommand([BROKEN_NAME])
  {
    hide Split, FreeOf, LineText, QuoteJoin;
    if OneCommand([BROKEN_NAME]) {
      BrokenPieces();
      FrontIsClosed("FUNC", false);
      assert Front("FUNC", false) == "FUNC ";
      FreeOfConcat(Outside, "FUNC ", QuoteJoin([BROKEN_NAME]), ';');
      SplitFree("FUNC " + QuoteJoin([BROKEN_NAME]), ';');
    }
  }
}
