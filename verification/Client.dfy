/** The client's codec: how it writes parameters and what it makes of a response line. */
module Client {
  import opened Wrappers
  import opened Text
  import opened Decimal
  import opened Instrument
  import opened Measurement

  // ------------------------------------------------------------------------ numeric fields

  /** Anything from 0.1 % below the SCPI encoding of NaN on counts as NaN. */
  const SCPI_NAN := 99100000000000000000000000000000000000.0
  const SCPI_NAN_THRESHOLD := SCPI_NAN * 0.999

  function ToDouble(field: string): Result<Value> {
    match Strtod(Trim(field))
    case None => Failure(Protocol)
    case Some(scanned) => Success(if Abs(scanned.value) >= SCPI_NAN_THRESHOLD then NaN else Num(scanned.value))
  }

  function ToDoubles(fields: seq<string>): (r: Result<seq<Value>>)
    ensures r.Success? ==> |r.value| == |fields|
    ensures r.Failure? ==> r.error == Protocol
  {
    if fields == [] then Success([])
    else
      var n := |fields| - 1;
      match ToDoubles(fields[..n])
      case Failure(error) => Failure(error)
      case Success(values) => OneMore(values, ToDouble(fields[n]))
  }

  function OneMore(values: seq<Value>, last: Result<Value>): Result<seq<Value>> {
    match last
    case Failure(error) => Failure(error)
    case Success(value) => Success(values + [value])
  }

  /** Each value is that of its field. */
  lemma {:induction false} EveryFieldIsRead(fields: seq<string>)
    requires ToDoubles(fields).Success?
    ensures forall i :: 0 <= i < |fields| ==> ToDouble(fields[i]) == Success(ToDoubles(fields).value[i])
  {
    hide ToDouble;
    if fields != [] {
      var n := |fields| - 1;
      EveryFieldIsRead(fields[..n]);
      forall i | 0 <= i < n ensures ToDouble(fields[i]) == Success(ToDoubles(fields).value[i]) {
        assert fields[i] == fields[..n][i];
      }
    }
  }

  /** A line of numbers is refused only when one of its fields is no number. */
  lemma {:induction false} SomeFieldFails(fields: seq<string>)
    requires ToDoubles(fields).Failure?
    ensures exists i :: 0 <= i < |fields| && ToDouble(fields[i]).Failure?
  {
    hide ToDouble;
    var n := |fields| - 1;
    if ToDoubles(fields[..n]).Failure? {
      SomeFieldFails(fields[..n]);
      var i :| 0 <= i < n && ToDouble(fields[..n][i]).Failure?;
      assert fields[i] == fields[..n][i];
    } else {
      assert ToDouble(fields[n]).Failure?;
    }
  }

  /** A response line of comma-separated numbers. */
  method ParseValues(line: string) returns (r: Result<seq<Value>>)
    ensures r == ToDoubles(Fields(line, ','))
  {
    hide ToDouble, Fields;
    var fields := SplitFields(line, ',');
    var values := [];
    for i := 0 to |fields|
      invariant ToDoubles(fields[..i]) == Success(values)
    {
      assert fields[..i + 1][..i] == fields[..i];
      var value := ToDouble(fields[i]);
      if value.Failure? {
        FirstFailure(fields, i);
        return Failure(value.error);
      }
      values := values + [value.value];
    }
    assert fields[..|fields|] == fields;
    return Success(values);
  }

  /** Every failing field is a protocol error, so it does not matter which one is reported. */
  lemma FirstFailure(fields: seq<string>, i: nat)
    requires i < |fields| && ToDouble(fields[i]).Failure?
    ensures ToDouble(fields[i]) == Failure(Protocol) && ToDoubles(fields) == Failure(Protocol)
  {
    if ToDoubles(fields).Success? { EveryFieldIsRead(fields); }
  }

  // ------------------------------------------------------------------------ error entries

  /** A SYST:ERR? response. */
  function ParsedError(line: string): Result<ErrorInfo> {
    var fields := Fields(line, ',');
    if fields == [] then Failure(Protocol)
    else
      match Strtol(fields[0])
      case None => Failure(Protocol)
      case Some(code) => Success(ErrorInfo(code, if |fields| > 1 then Unquote(fields[1]) else ""))
  }

  method ParseError(line: string) returns (r: Result<ErrorInfo>)
    ensures r == ParsedError(line)
  {
    var fields := SplitFields(line, ',');
    if fields == [] { return Failure(Protocol); }
    var code := Strtol(fields[0]);
    if code.None? { return Failure(Protocol); }
    var info := ErrorInfo(code.value, "");
    if |fields| > 1 { info := info.(message := Unquote(fields[1])); }
    return Success(info);
  }

  /** The entries of a list of <code>,<message> fields; code 0 is no entry. */
  function Entries(fields: seq<string>): Result<seq<ErrorInfo>>
    decreases |fields|
  {
    if |fields| < 2 then Success([])
    else
      match Strtol(fields[0])
      case None => Failure(Protocol)
      case Some(code) =>
        match Entries(fields[2..])
        case Failure(error) => Failure(error)
        case Success(rest) => Success(if code == 0 then rest else [ErrorInfo(code, Unquote(fields[1]))] + rest)
  }

  /** A SYST:ERR:ALL? response. */
  function ParsedErrors(line: string): Result<seq<ErrorInfo>> {
    var fields := Fields(line, ',');
    match Entries(fields)
    case Failure(error) => Failure(error)
    case Success(errors) => if errors == [] && |fields| % 2 != 0 then Failure(Protocol) else Success(errors)
  }

  /** Entries in front of those of the remaining fields. */
  function Onto(errors: seq<ErrorInfo>, rest: Result<seq<ErrorInfo>>): Result<seq<ErrorInfo>> {
    match rest
    case Failure(error) => Failure(error)
    case Success(more) => Success(errors + more)
  }

  method ParseErrors(line: string) returns (r: Result<seq<ErrorInfo>>)
    ensures r == ParsedErrors(line)
  {
    hide Fields, Strtol, Unquote;
    var fields := SplitFields(line, ',');
    var errors: seq<ErrorInfo> := [];
    var i := 0;
    OntoNothing(Entries(fields));
    while i + 1 < |fields|
      invariant i <= |fields| && Entries(fields) == Onto(errors, Entries(fields[i..]))
    {
      ghost var rest := fields[i..];
      assert rest[0] == fields[i] && rest[1] == fields[i + 1] && rest[2..] == fields[i + 2..];
      var code := Strtol(fields[i]);
      if code.None? { return Failure(Protocol); }
      if code.value != 0 {
        OntoOneMore(errors, ErrorInfo(code.value, Unquote(fields[i + 1])), Entries(fields[i + 2..]));
        errors := errors + [ErrorInfo(code.value, Unquote(fields[i + 1]))];
      }
      i := i + 2;
    }
    assert errors + [] == errors;
    if errors == [] && |fields| % 2 != 0 { return Failure(Protocol); }
    return Success(errors);
  }

  lemma OntoNothing(rest: Result<seq<ErrorInfo>>)
    ensures Onto([], rest) == rest
  {
    if rest.Success? { assert [] + rest.value == rest.value; }
  }

  lemma OntoOneMore(errors: seq<ErrorInfo>, entry: ErrorInfo, rest: Result<seq<ErrorInfo>>)
    ensures Onto(errors + [entry], rest) == Onto(errors, Onto([entry], rest))
  {
    if rest.Success? { assert errors + [entry] + rest.value == errors + ([entry] + rest.value); }
  }

  // --------------------------------------------------------------------- strings and readings

  function UnquoteAll(fields: seq<string>): (r: seq<string>)
    ensures |r| == |fields|
    ensures forall i :: 0 <= i < |fields| ==> r[i] == Unquote(fields[i])
  {
    seq(|fields|, i requires 0 <= i < |fields| => Unquote(fields[i]))
  }

  /** A response line of quoted strings. */
  method ParseStrings(line: string) returns (values: seq<string>)
    ensures values == UnquoteAll(Fields(line, ','))
  {
    var fields := SplitFields(line, ',');
    values := [];
    for i := 0 to |fields|
      invariant values == UnquoteAll(fields[..i])
    {
      assert UnquoteAll(fields[..i + 1]) == UnquoteAll(fields[..i]) + [Unquote(fields[i])];
      values := values + [Unquote(fields[i])];
    }
    assert fields[..|fields|] == fields;
  }

  /** Measured values with one status word each. */
  datatype Reading = Reading(values: seq<Value>, status: seq<int>)

  const MIN_INT := -0x8000_0000

  /** The conversion of a double to an int; of NaN it is what the usual processors give. */
  function AsStatus(v: Value): int { if v.Num? then Truncate(v.r) else MIN_INT }

  function AsStatuses(values: seq<Value>): (r: seq<int>)
    ensures |r| == |values|
    ensures forall i :: 0 <= i < |values| ==> r[i] == AsStatus(values[i])
  {
    seq(|values|, i requires 0 <= i < |values| => AsStatus(values[i]))
  }

  /** The first half of the fields are values, the second half their statuses. */
  function ReadingOf(raw: seq<Value>): Result<Reading> {
    if |raw| % 2 != 0 then Failure(Protocol)
    else Success(Reading(raw[..|raw| / 2], AsStatuses(raw[|raw| / 2..])))
  }

  method SplitReading(raw: seq<Value>) returns (r: Result<Reading>)
    ensures r == ReadingOf(raw)
  {
    if |raw| % 2 != 0 { return Failure(Protocol); }
    var count := |raw| / 2;
    var status := [];
    for i := count to |raw|
      invariant status == AsStatuses(raw[count..i])
    {
      assert AsStatuses(raw[count..i + 1]) == AsStatuses(raw[count..i]) + [AsStatus(raw[i])];
      status := status + [AsStatus(raw[i])];
    }
    assert raw[count..|raw|] == raw[count..];
    return Success(Reading(raw[..count], status));
  }

  // --------------------------------------------------------------------------- parameters

  function BoolWord(value: bool): string { if value then "ON" else "OFF" }

  /** The numbers of a positional window; an argument is only written when those before it are. */
  function WindowNumbers(count: int, offset: int, sparsing: int): seq<int> {
    if count <= 0 then []
    else [count] + (if offset > 0 || sparsing > 0 then [offset] else []) + (if sparsing > 0 then [sparsing] else [])
  }

  function IntTexts(ns: seq<int>): (r: seq<string>)
    ensures |r| == |ns|
    ensures forall i :: 0 <= i < |ns| ==> r[i] == IntText(ns[i])
  {
    seq(|ns|, i requires 0 <= i < |ns| => IntText(ns[i]))
  }

  lemma JoinIntText(ns: seq<int>, n: int)
    ensures Join(IntTexts([n]), ',') == IntText(n)
    ensures ns != [] ==> Join(IntTexts(ns + [n]), ',') == Join(IntTexts(ns), ',') + "," + IntText(n)
  {
    if ns != [] {
      assert IntTexts(ns + [n]) == IntTexts(ns) + [IntText(n)];
      JoinAppend(IntTexts(ns), IntText(n), ',');
    }
  }

  /** Appends <offset> and <sparsing> to the arguments before them. */
  method AppendWindow(args: string, ghost before: seq<int>, offset: int, sparsing: int) returns (all: string)
    requires before != [] && args == Join(IntTexts(before), ',')
    ensures all == Join(IntTexts(before + (if offset > 0 || sparsing > 0 then [offset] else [])
                                        + (if sparsing > 0 then [sparsing] else [])), ',')
  {
    all := args;
    ghost var ns := before;
    if offset > 0 || sparsing > 0 {
      JoinIntText(ns, offset);
      all := all + "," + IntText(offset);
      ns := ns + [offset];
    }
    if sparsing > 0 {
      JoinIntText(ns, sparsing);
      all := all + "," + IntText(sparsing);
      ns := ns + [sparsing];
    }
    assert ns == before + (if offset > 0 || sparsing > 0 then [offset] else []) + (if sparsing > 0 then [sparsing] else []);
  }

  /** The arguments of CALC:DATA?. */
  method DataArguments(count: int, offset: int, sparsing: int) returns (args: string)
    ensures args == Join(IntTexts(WindowNumbers(count, offset, sparsing)), ',')
  {
    if count <= 0 { return ""; }
    JoinIntText([], count);
    args := AppendWindow(IntText(count), [count], offset, sparsing);
  }

  /** The arguments of the TRACe queries, the block first. */
  method TraceArguments(block: int, count: int, offset: int, sparsing: int) returns (args: string)
    ensures args == Join(IntTexts([block] + WindowNumbers(count, offset, sparsing)), ',')
  {
    JoinIntText([], block);
    args := IntText(block);
    if count <= 0 {
      assert [block] + WindowNumbers(count, offset, sparsing) == [block];
      return;
    }
    JoinIntText([block], count);
    assert [block] + [count] == [block, count];
    args := AppendWindow(args + "," + IntText(count), [block, count], offset, sparsing);
    assert [block] + WindowNumbers(count, offset, sparsing)
        == [block, count] + (if offset > 0 || sparsing > 0 then [offset] else []) + (if sparsing > 0 then [sparsing] else []);
  }
}
