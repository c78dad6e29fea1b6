/** The error queue through the wire: what the client reads back, one by one and all at once, and exactly
    when that is what was queued. */
module ErrorLoop {
  import opened Wrappers
  import opened Text
  import opened Decimal
  import opened Headers
  import opened Instrument
  import opened Effects
  import opened CommandLine
  import opened Client

  // ------------------------------------------------------------------------- single entries

  /** The field the client takes for the message: the first piece of the quoted message. */
  function MessageField(message: string, rest: string): string {
    Split(Outside, Quoted(message) + rest, ',')[0]
  }

  /** The message the client reads out of an entry. */
  function MessageRead(message: string): string { Unquote(MessageField(message, "")) }

  function EntryRead(e: ErrorInfo): ErrorInfo { ErrorInfo(e.code, MessageRead(e.message)) }

  lemma CodeField(code: int, rest: string)
    ensures Split(Outside, IntText(code) + "," + rest, ',') == [IntText(code)] + Split(Outside, rest, ',')
    ensures Trim(IntText(code)) == IntText(code) && Strtol(IntText(code)) == Some(code)
  {
    IntTextShape(code);
    PlainText(IntText(code), ',');
    SplitOff(IntText(code), rest, ',');
    StrtolOfIntText(code, "");
    assert IntText(code) + "" == IntText(code);
  }

  lemma {:induction false} TrimTwice(s: string)
    ensures Trim(Trim(s)) == Trim(s) && Unquote(Trim(s)) == Unquote(s)
  {
    TrimOfTrimmed(Trim(s));
  }

  lemma {:induction false} TrimKeepsMark(s: string, i: nat)
    requires i < |s| && !IsSpace(s[0]) && !IsSpace(s[i])
    ensures i < |Trim(s)| && Trim(s) <= s
  {
    assert TrimLeft(s) == s;
    TrimRightKeepsMark(s, i);
  }

  lemma {:induction false} TrimRightKeepsMark(s: string, i: nat)
    requires i < |s| && !IsSpace(s[i])
    ensures i < |TrimRight(s)|
  {
    if IsSpace(s[|s| - 1]) { TrimRightKeepsMark(s[..|s| - 1], i); }
  }

  /** A line that starts with a code is not blank, and its fields are the code and those of the rest. */
  lemma CodeAndRest(code: int, rest: string)
    ensures Fields(IntText(code) + "," + rest, ',') == [IntText(code)] + TrimAll(Split(Outside, rest, ','))
  {
    var line := IntText(code) + "," + rest;
    IntTextShape(code);
    CodeField(code, rest);
    TrimKeepsMark(line, 0);
    var pieces := Split(Outside, rest, ',');
    assert TrimAll([IntText(code)] + pieces) == [IntText(code)] + TrimAll(pieces);
  }

  lemma EntryTextShape(e: ErrorInfo)
    ensures EntryText(e) == IntText(e.code) + "," + Quoted(e.message)
  {}

  /** The code of an entry always comes back. */
  lemma EntryIsRead(e: ErrorInfo)
    ensures ParsedError(EntryText(e)) == Success(EntryRead(e))
  {
    hide Strtol, IntText, Split, Fields;
    EntryTextShape(e);
    CodeAndRest(e.code, Quoted(e.message));
    CodeField(e.code, "");
    assert Quoted(e.message) + "" == Quoted(e.message);
    TrimTwice(Split(Outside, Quoted(e.message), ',')[0]);
  }

  // --------------------------------------------------------- when a message comes back unchanged

  /** The field the client takes for a message ends at the first separating comma. */
  lemma {:induction false} FirstPiece(q: Quote, s: string)
    ensures var p := Split(q, s, ',')[0];
            && p <= s && FreeOf(q, p, ',')
            && (|p| < |s| ==> s[|p|] == ',' && Scan(q, p) == Outside)
            && (|p| == |s| ==> p == s && Split(q, s, ',') == [s])
            && (|p| < |s| ==> Split(q, s, ',') == [p] + Split(Outside, s[|p| + 1..], ','))
    decreases s
  {
    if s != "" {
      if Separates(q, s[0], ',') {
        assert s[1..] == s[|""| + 1..];
      } else {
        FirstPiece(Advance(q, s[0]), s[1..]);
        var rest := Split(Advance(q, s[0]), s[1..], ',');
        var p := [s[0]] + rest[0];
        assert Split(q, s, ',')[0] == p && p[1..] == rest[0];
        assert s == [s[0]] + s[1..];
        if |p| < |s| { assert s[|p| + 1..] == s[1..][|rest[0]| + 1..]; }
      }
    }
  }

  /** A text of quotes only, shifted by one, is never cut at a comma. */
  lemma {:induction false} OnlyQuotes(m: string, k: nat)
    requires k < |m| && ['"'] + m[..k] == m[..k + 1]
    ensures m[k] == '"'
  {
    assert (['"'] + m[..k])[k] == m[..k + 1][k] == m[k];
    if k > 0 {
      assert m[..k][k - 1] == m[k - 1];
      assert ['"'] + m[..k - 1] == m[..k] by {
        forall i | 0 <= i < k ensures (['"'] + m[..k - 1])[i] == m[..k][i] {
          assert (['"'] + m[..k])[i] == m[..k + 1][i];
        }
      }
      OnlyQuotes(m, k - 1);
    }
  }

  lemma UnquoteShortens(s: string)
    ensures |Unquote(s)| <= |s|
    ensures |Unquote(s)| == |s| ==> Unquote(s) == s
  {
    TrimIsShorter(s);
  }

  lemma TrimIsShorter(s: string)
    ensures |Trim(s)| == |s| ==> Trim(s) == s
  {
    if s != "" && IsSpace(s[0]) { assert |TrimLeft(s)| <= |s[1..]|; }
  }

  /** A field that was cut short does not read as the message. */
  lemma CutFieldDiffers(m: string, p: string)
    requires p <= Quoted(m) && |p| < |Quoted(m)| && Quoted(m)[|p|] == ',' && p != ""
    ensures Unquote(p) != m
  {
    var k := |p| - 1;
    assert p == ['"'] + m[..k] by { assert p == Quoted(m)[..|p|]; }
    assert Quoted(m)[|p|] == if k < |m| then m[k] else '"';
    UnquoteShortens(p);
    if Unquote(p) == m {
      assert |m| == k + 1;
      assert m[..k + 1] == m;
      OnlyQuotes(m, k);
    }
  }

  /** A field that ran on past its message does not read as the message. */
  lemma LongFieldDiffers(m: string, p: string)
    requires Quoted(m) <= p && |Quoted(m)| < |p| && p[|Quoted(m)|] == ','
    ensures Unquote(p) != m
  {
    TrimKeepsMark(p, |Quoted(m)|);
    assert p[0] == Quoted(m)[0];
  }

  lemma FirstFieldIsNotEmpty(m: string, rest: string)
    ensures MessageField(m, rest) != "" && MessageField(m, rest) <= Quoted(m) + rest
  {
    var s := Quoted(m) + rest;
    FirstPiece(Outside, s);
    assert s[0] == '"';
  }

  /** A message comes back unchanged just when it holds no comma outside the quotes the client sees. */
  lemma MessageComesBack(message: string)
    ensures MessageRead(message) == message <==> FreeOf(Outside, Quoted(message), ',')
  {
    hide Unquote, FreeOf;
    var s := Quoted(message);
    assert s + "" == s;
    FirstPiece(Outside, s);
    FirstFieldIsNotEmpty(message, "");
    var p := MessageField(message, "");
    if |p| == |s| {
      UnquoteOfQuoted(message);
    } else {
      CutFieldDiffers(message, p);
      if FreeOf(Outside, s, ',') { SplitFree(s, ','); }
    }
  }

  // ------------------------------------------------------------------------ the whole queue

  function Messages(errors: seq<ErrorInfo>): (r: seq<string>)
    ensures |r| == |errors|
    ensures forall i :: 0 <= i < |errors| ==> r[i] == errors[i].message
  {
    seq(|errors|, i requires 0 <= i < |errors| => errors[i].message)
  }

  /** What draining the queue entry by entry reads. */
  function EntriesRead(errors: seq<ErrorInfo>): (r: seq<ErrorInfo>)
    ensures |r| == |errors|
    ensures forall i :: 0 <= i < |errors| ==> r[i] == EntryRead(errors[i])
  {
    seq(|errors|, i requires 0 <= i < |errors| => EntryRead(errors[i]))
  }

  /** Draining entry by entry gives the queue back just when every single message comes back. */
  lemma OneByOneIsFaithful(errors: seq<ErrorInfo>)
    ensures EntriesRead(errors) == errors
            <==> forall i :: 0 <= i < |errors| ==> FreeOf(Outside, Quoted(errors[i].message), ',')
  {
    hide FreeOf, MessageRead;
    forall i | 0 <= i < |errors|
      ensures EntryRead(errors[i]) == errors[i] <==> FreeOf(Outside, Quoted(errors[i].message), ',')
    {
      MessageComesBack(errors[i].message);
      assert errors[i] == ErrorInfo(errors[i].code, errors[i].message);
    }
  }

  function AllText(errors: seq<ErrorInfo>): string { Join(EntryTexts(errors), ',') }

  /** What follows the first entry on the line. */
  function Tail(errors: seq<ErrorInfo>): string
    requires errors != []
  {
    if |errors| == 1 then "" else "," + AllText(errors[1..])
  }

  lemma AllTextShape(errors: seq<ErrorInfo>)
    requires errors != []
    ensures AllText(errors) == IntText(errors[0].code) + "," + (Quoted(errors[0].message) + Tail(errors))
  {
    EntryTextShape(errors[0]);
    assert EntryTexts(errors)[1..] == EntryTexts(errors[1..]);
    var code, quoted := IntText(errors[0].code) + ",", Quoted(errors[0].message);
    if |errors| == 1 {
      assert quoted + "" == quoted;
    } else {
      assert code + quoted + "," + AllText(errors[1..]) == code + (quoted + ("," + AllText(errors[1..])));
    }
  }

  /** The fields of the line: a code, its message field, and those of the text after it. */
  lemma AllFields(errors: seq<ErrorInfo>)
    requires errors != []
    ensures var rest := Quoted(errors[0].message) + Tail(errors);
            && Fields(AllText(errors), ',') == [IntText(errors[0].code)] + TrimAll(Split(Outside, rest, ','))
            && Strtol(IntText(errors[0].code)) == Some(errors[0].code)
  {
    AllTextShape(errors);
    CodeAndRest(errors[0].code, Quoted(errors[0].message) + Tail(errors));
    CodeField(errors[0].code, "");
  }

  lemma TextIsNotBlank(errors: seq<ErrorInfo>)
    requires errors != []
    ensures Trim(AllText(errors)) != ""
  {
    AllTextShape(errors);
    IntTextShape(errors[0].code);
    TrimKeepsMark(AllText(errors), 0);
  }

  /** The fields of the line, given that the first message field ends where the message does. */
  lemma FieldsAndRest(errors: seq<ErrorInfo>)
    requires errors != [] && MessageField(errors[0].message, Tail(errors)) == Quoted(errors[0].message)
    ensures Fields(AllText(errors), ',') == [IntText(errors[0].code), Quoted(errors[0].message)]
            + (if |errors| == 1 then [] else Fields(AllText(errors[1..]), ','))
  {
    hide Strtol, IntText, Unquote, AllText, Split, Trim, FreeOf, Scan;
    var quoted, tail := Quoted(errors[0].message), Tail(errors);
    AllFields(errors);
    UnquoteOfQuoted(errors[0].message);
    if |errors| == 1 {
      PiecesWhole(quoted, tail);
      assert TrimAll([quoted]) == [quoted];
    } else {
      TextIsNotBlank(errors[1..]);
      PiecesBehind(quoted, AllText(errors[1..]));
      var more := Split(Outside, AllText(errors[1..]), ',');
      assert TrimAll([quoted] + more) == [quoted] + TrimAll(more);
    }
  }

  lemma PiecesWhole(quoted: string, tail: string)
    requires tail == "" && Split(Outside, quoted + tail, ',')[0] == quoted
    ensures Split(Outside, quoted + tail, ',') == [quoted]
  {
    hide Split;
    assert quoted + tail == quoted;
    FirstPiece(Outside, quoted);
  }

  lemma PiecesBehind(quoted: string, rest: string)
    requires Split(Outside, quoted + ("," + rest), ',')[0] == quoted
    ensures Split(Outside, quoted + ("," + rest), ',') == [quoted] + Split(Outside, rest, ',')
  {
    hide Split;
    var s := quoted + ("," + rest);
    FirstPiece(Outside, s);
    assert s[|quoted| + 1..] == rest;
  }

  lemma EntriesStep(fields: seq<string>, code: int)
    requires |fields| >= 2 && Strtol(fields[0]) == Some(code) && code != 0
    ensures Entries(fields) == Onto([ErrorInfo(code, Unquote(fields[1]))], Entries(fields[2..]))
  {}

  /** One entry of the line read off. */
  lemma EntryAndRest(errors: seq<ErrorInfo>)
    requires errors != [] && errors[0].code != 0
    requires MessageField(errors[0].message, Tail(errors)) == Quoted(errors[0].message)
    ensures Entries(Fields(AllText(errors), ','))
            == Onto([errors[0]], if |errors| == 1 then Success([]) else Entries(Fields(AllText(errors[1..]), ',')))
  {
    hide Strtol, IntText, Unquote, AllText, Fields;
    AllFields(errors);
    FieldsAndRest(errors);
    UnquoteOfQuoted(errors[0].message);
    var fields := Fields(AllText(errors), ',');
    EntriesStep(fields, errors[0].code);
    assert fields[2..] == if |errors| == 1 then [] else Fields(AllText(errors[1..]), ',');
    assert errors[0] == ErrorInfo(errors[0].code, errors[0].message);
  }

  /** The first entry the client makes of the line has the first code and whatever its message field reads as. */
  lemma FirstEntry(errors: seq<ErrorInfo>)
    requires errors != [] && errors[0].code != 0
    ensures var r := Entries(Fields(AllText(errors), ','));
            r.Success? ==>
              && r.value != []
              && r.value[0] == ErrorInfo(errors[0].code, Unquote(MessageField(errors[0].message, Tail(errors))))
  {
    hide Strtol, IntText, Unquote, AllText, Split, Fields;
    AllFields(errors);
    var fields := Fields(AllText(errors), ',');
    var pieces := Split(Outside, Quoted(errors[0].message) + Tail(errors), ',');
    assert fields[1] == Trim(pieces[0]);
    TrimTwice(pieces[0]);
    EntriesStep(fields, errors[0].code);
  }

  /** If the first message field reads as the first message, it ends where the message does. */
  lemma FieldIsWholeMessage(m: string, tail: string)
    requires tail == "" || tail[0] == ','
    ensures Unquote(MessageField(m, tail)) == m <==> MessageField(m, tail) == Quoted(m)
    ensures MessageField(m, tail) == Quoted(m)
            <==> FreeOf(Outside, Quoted(m), ',') && (tail != "" ==> Scan(Outside, Quoted(m)) == Outside)
  {
    hide Unquote, FreeOf;
    var quoted := Quoted(m);
    var s := quoted + tail;
    var p := MessageField(m, tail);
    FirstPiece(Outside, s);
    FirstFieldIsNotEmpty(m, tail);
    assert s[..|quoted|] == quoted;
    assert p == s[..|p|];
    if |p| < |quoted| {
      assert p <= quoted && quoted[|p|] == s[|p|];
      CutFieldDiffers(m, p);
      if FreeOf(Outside, quoted, ',') && (tail != "" ==> Scan(Outside, quoted) == Outside) { FirstOfClosed(m, tail); }
    } else if |p| == |quoted| {
      UnquoteOfQuoted(m);
      assert p == quoted;
    } else {
      assert quoted == p[..|quoted|] && p[|quoted|] == s[|quoted|] == tail[0];
      LongFieldDiffers(m, p);
      if FreeOf(Outside, quoted, ',') && Scan(Outside, quoted) == Outside { FirstOfClosed(m, tail); }
    }
  }

  lemma FirstOfClosed(m: string, tail: string)
    requires tail == "" || tail[0] == ','
    requires FreeOf(Outside, Quoted(m), ',') && (tail != "" ==> Scan(Outside, Quoted(m)) == Outside)
    ensures MessageField(m, tail) == Quoted(m)
  {
    if tail == "" {
      assert Quoted(m) + tail == Quoted(m);
      SplitFree(Quoted(m), ',');
    } else {
      assert Quoted(m) + tail == Quoted(m) + [','] + tail[1..];
      SplitOff(Quoted(m), tail[1..], ',');
    }
  }

  predicate RealErrors(errors: seq<ErrorInfo>) { forall i :: 0 <= i < |errors| ==> errors[i].code != 0 }

  /** The messages can be put on one line: none holds an unquoted comma, and all but the last close their quotes. */
  predicate Separable(errors: seq<ErrorInfo>) {
    && (forall i :: 0 <= i < |errors| ==> FreeOf(Outside, Quoted(errors[i].message), ','))
    && (forall i :: 0 <= i < |errors| - 1 ==> Scan(Outside, Quoted(errors[i].message)) == Outside)
  }

  lemma SeparableStep(errors: seq<ErrorInfo>)
    requires errors != []
    ensures Separable(errors) <==> Separable(errors[1..]) && FreeOf(Outside, Quoted(errors[0].message), ',')
                                   && (|errors| > 1 ==> Scan(Outside, Quoted(errors[0].message)) == Outside)
  {
    hide FreeOf, Scan;
    assert forall i :: 1 <= i < |errors| ==> errors[i] == errors[1..][i - 1];
    assert forall i :: 0 <= i < |errors| - 1 ==> errors[1..][i] == errors[i + 1];
  }

  lemma {:induction false} EntriesAreQueue(errors: seq<ErrorInfo>)
    requires errors != [] && RealErrors(errors)
    ensures Entries(Fields(AllText(errors), ',')) == Success(errors) <==> Separable(errors)
  {
    hide Fields, AllText, FreeOf, Scan, Unquote, Separable, Entries;
    var tail := Tail(errors);
    FieldIsWholeMessage(errors[0].message, tail);
    SeparableStep(errors);
    FirstEntry(errors);
    if MessageField(errors[0].message, tail) == Quoted(errors[0].message) {
      EntryAndRest(errors);
      assert errors == [errors[0]] + errors[1..];
      if |errors| == 1 {
        NothingIsSeparable();
        assert [errors[0]] + [] == errors;
      } else {
        EntriesAreQueue(errors[1..]);
        if Entries(Fields(AllText(errors[1..]), ',')).Success? {
          assert ([errors[0]] + Entries(Fields(AllText(errors[1..]), ',')).value)[1..] == Entries(Fields(AllText(errors[1..]), ',')).value;
        }
      }
    }
  }

  lemma NothingIsSeparable() ensures Separable([]) {}

  /** Reading the whole queue on one line gives the queue back just when its messages are separable. */
  lemma AllAtOnceIsFaithful(errors: seq<ErrorInfo>)
    requires errors != [] && RealErrors(errors)
    ensures ParsedErrors(AllText(errors)) == Success(errors) <==> Separable(errors)
  {
    hide Fields, AllText, Separable, Entries;
    EntriesAreQueue(errors);
  }

  /** Messages without `"` are separable, whatever commas and semicolons they hold. */
  lemma QuoteFreeIsSeparable(errors: seq<ErrorInfo>)
    requires forall i :: 0 <= i < |errors| ==> '"' !in errors[i].message
    ensures Separable(errors)
  {
    forall i | 0 <= i < |errors|
      ensures FreeOf(Outside, Quoted(errors[i].message), ',') && Scan(Outside, Quoted(errors[i].message)) == Outside
    {
      QuotedIsClosed(errors[i].message, ',');
    }
  }

  /** For such queues both ways of reading agree: each gives the queue itself. */
  lemma BothWaysAgree(errors: seq<ErrorInfo>)
    requires errors != [] && RealErrors(errors)
    requires forall i :: 0 <= i < |errors| ==> '"' !in errors[i].message
    ensures EntriesRead(errors) == errors && ParsedErrors(AllText(errors)) == Success(errors)
  {
    hide FreeOf, Scan, EntriesRead, ParsedErrors;
    QuoteFreeIsSeparable(errors);
    OneByOneIsFaithful(errors);
    AllAtOnceIsFaithful(errors);
  }

  /** As long as every message comes back on its own, both ways agree if and only if the queue is separable. */
  lemma WaysAgreeExactly(errors: seq<ErrorInfo>)
    requires errors != [] && RealErrors(errors)
    requires forall i :: 0 <= i < |errors| ==> MessageRead(errors[i].message) == errors[i].message
    ensures ParsedErrors(AllText(errors)) == Success(EntriesRead(errors)) <==> Separable(errors)
  {
    hide ParsedErrors, Separable, MessageRead, AllText;
    forall i | 0 <= i < |errors| ensures EntriesRead(errors)[i] == errors[i] {
      assert errors[i] == ErrorInfo(errors[i].code, errors[i].message);
    }
    assert EntriesRead(errors) == errors;
    AllAtOnceIsFaithful(errors);
  }

  // ---------------------------------------------------------------- a queue for which they do not

  /** A command line of two characters, and the message it queues. */
  const QUOTE_LINE := "*\""
  const QUOTE_ENTRY := ErrorInfo(UNDEFINED_HEADER, "Undefined header;" + QUOTE_LINE)

  lemma QuoteLineIsOnePiece()
    ensures Trim(QUOTE_LINE) == QUOTE_LINE && Split(Outside, QUOTE_LINE, ';') == [QUOTE_LINE]
    ensures PieceOf(QUOTE_LINE) == Piece(QUOTE_LINE, false, [])
  {
    TrimOfTrimmed(QUOTE_LINE);
    assert QUOTE_LINE[1..] == "\"" && "\""[1..] == "";
    assert FreeOf(Inside('"'), "", ';') && HeaderEnd(Inside('"'), "") == 0;
    assert FreeOf(Outside, "\"", ';') && HeaderEnd(Outside, "\"") == 1;
    SplitFree(QUOTE_LINE, ';');
    assert HeaderEnd(Outside, QUOTE_LINE) == 2;
    assert QUOTE_LINE[..2] == QUOTE_LINE;
  }

  lemma QuoteLineIsUnknown(specs: seq<CommandSpec>)
    ensures RequestFor(specs, QUOTE_LINE, []) == Unknown(QUOTE_LINE)
  {
    hide PieceOf, Dispatch;
    QuoteLineIsOnePiece();
    assert Upper(QUOTE_LINE) == QUOTE_LINE;
  }

  /** The line is rejected, and its echo puts a quote into the message. */
  lemma QuoteLineRuns(w: World, s: State)
    ensures RunLine(Simulator(w), s, QUOTE_LINE) == Outcome(PushError(s, UNDEFINED_HEADER, QUOTE_ENTRY.message), [], Stopped)
  {
    hide RequestFor, PushError, RunPieces, EffectOf, PieceOf;
    QuoteLineIsOnePiece();
    QuoteLineIsUnknown(w.specs);
    OnePieceOutcome(Simulator(w), s, QUOTE_LINE);
  }

  lemma QuoteStaysOpen()
    ensures FreeOf(Outside, Quoted(QUOTE_ENTRY.message), ',') && Scan(Outside, Quoted(QUOTE_ENTRY.message)) == Inside('"')
  {
    var q, words := '"', "Undefined header;*";
    assert Quoted(QUOTE_ENTRY.message) == Quoted(words) + [q];
    QuotedIsClosed(words, ',');
    ScanConcat(Outside, Quoted(words), [q]);
    FreeOfConcat(Outside, Quoted(words), [q], ',');
    assert [q][1..] == [];
  }

  /** Its message comes back on its own but not in front of another entry, because the simulator does not double the
      quotes inside a message. */
  lemma QuoteInMessage(next: ErrorInfo)
    requires next.code != 0
    ensures var errors := [QUOTE_ENTRY, next];
            EntryRead(QUOTE_ENTRY) == QUOTE_ENTRY && ParsedErrors(AllText(errors)) != Success(errors)
  {
    hide FreeOf, Scan, ParsedErrors, AllText, Quoted;
    var errors := [QUOTE_ENTRY, next];
    QuoteStaysOpen();
    MessageComesBack(QUOTE_ENTRY.message);
    assert errors[0] == QUOTE_ENTRY;
    assert !Separable(errors);
    AllAtOnceIsFaithful(errors);
  }

  /** Given twice to a fresh simulator, that line leaves a queue on which the two ways of reading disagree. */
  lemma TwoLinesToDisagreement(w: World)
    ensures var first := RunLine(Simulator(w), InitialState(w.options), QUOTE_LINE).state;
            var errors := RunLine(Simulator(w), first, QUOTE_LINE).state.errors;
            && errors == [QUOTE_ENTRY, QUOTE_ENTRY]
            && EntriesRead(errors) == errors && ParsedErrors(AllText(errors)) != Success(errors)
  {
    hide RunLine, ParsedErrors, AllText, MessageRead;
    var start := InitialState(w.options);
    QuoteLineRuns(w, start);
    QuoteLineRuns(w, PushError(start, UNDEFINED_HEADER, QUOTE_ENTRY.message));
    QuoteInMessage(QUOTE_ENTRY);
  }
}
