/** A command line as the client writes it, and how the simulator reads it. */
module ClientLines {
  import opened Wrappers
  import opened Text
  import opened Pattern
  import opened Commands
  import opened Headers
  import opened Instrument
  import opened Effects
  import opened CommandLine

  /** A header node the client writes: capital letters only. */
  predicate Word(name: string) { name != "" && Uppercase(name) }

  predicate Words(names: seq<string>) {
    names != [] && forall i :: 0 <= i < |names| ==> Word(names[i])
  }

  /** Characters that neither quote, blank, separate nor end a header. */
  predicate HeaderText(header: string) {
    header != "" && forall i :: 0 <= i < |header| ==> !IsQuote(header[i]) && !IsSpace(header[i]) && header[i] !in {';', '?'}
  }

  /** `<header>[?][ <parameters>]` */
  function LineText(header: string, query: bool, parameters: string): string {
    header + (if query then "?" else "") + (if parameters == "" then "" else " " + parameters)
  }

  function ArgsOf(parameters: string): seq<string> {
    if parameters == "" then [] else TrimAll(Split(Outside, parameters, ','))
  }

  lemma {:induction false} HeaderEndsAtBlank(header: string, rest: string)
    requires forall i :: 0 <= i < |header| ==> !IsQuote(header[i]) && !IsSpace(header[i])
    requires rest == "" || IsSpace(rest[0])
    ensures HeaderEnd(Outside, header + rest) == |header|
    ensures Scan(Outside, header) == Outside
  {
    if header == "" {
      assert header + rest == rest;
    } else {
      assert (header + rest)[1..] == header[1..] + rest;
      HeaderEndsAtBlank(header[1..], rest);
    }
  }

  /** The simulator cuts a line where the client put it together. */
  lemma PieceOfLine(header: string, query: bool, parameters: string)
    requires HeaderText(header) && Trimmed(parameters)
    ensures PieceOf(LineText(header, query, parameters)) == Piece(header, query, ArgsOf(parameters))
  {
    hide Split, Trim, HeaderEnd;
    var head := header + (if query then "?" else "");
    HeadOfLine(head, parameters);
    assert head + (if parameters == "" then "" else " " + parameters) == LineText(header, query, parameters);
    if parameters != "" { TrimOfTrimmed(parameters); }
    HeadIsTaken(header, query, parameters);
  }

  /** Where the header of a line ends, and what follows it. */
  lemma HeadOfLine(head: string, parameters: string)
    requires forall i :: 0 <= i < |head| ==> !IsQuote(head[i]) && !IsSpace(head[i])
    ensures var line := head + (if parameters == "" then "" else " " + parameters);
            && HeaderEnd(Outside, line) == |head| && line[..|head|] == head
            && (if parameters == "" then |head| == |line| else |head| < |line| && line[|head| + 1..] == parameters)
  {
    HeaderEndsAtBlank(head, if parameters == "" then "" else " " + parameters);
  }

  lemma HeadIsTaken(header: string, query: bool, parameters: string)
    requires HeaderText(header)
    ensures Assembled(header + (if query then "?" else ""), parameters) == Piece(header, query, ArgsOf(parameters))
  {
    hide Split;
    var head := header + (if query then "?" else "");
    assert head[..|header|] == header;
    if !query { assert head == header; }
  }

  lemma LineIsOnePiece(header: string, query: bool, parameters: string)
    requires HeaderText(header) && Trimmed(parameters) && FreeOf(Outside, parameters, ';')
    ensures var line := LineText(header, query, parameters);
            && line != "" && Trim(line) == line && Split(Outside, line, ';') == [line]
  {
    hide FreeOf, Split, Trim, LineText;
    var line := LineText(header, query, parameters);
    LineIsTrimmed(header, query, parameters);
    TrimOfTrimmed(line);
    LineIsFree(header, query, parameters);
    SplitFree(line, ';');
  }

  lemma LineIsTrimmed(header: string, query: bool, parameters: string)
    requires HeaderText(header) && Trimmed(parameters)
    ensures LineText(header, query, parameters) != "" && Trimmed(LineText(header, query, parameters))
  {
    var head := header + (if query then "?" else "");
    var line := LineText(header, query, parameters);
    assert line[0] == header[0];
    assert line[|line| - 1] == if parameters == "" then head[|head| - 1] else parameters[|parameters| - 1];
  }

  lemma LineIsFree(header: string, query: bool, parameters: string)
    requires HeaderText(header) && FreeOf(Outside, parameters, ';')
    ensures FreeOf(Outside, LineText(header, query, parameters), ';')
  {
    hide FreeOf, Scan;
    var head := header + (if query then "?" else "");
    PlainText(head, ';');
    if parameters == "" {
      assert LineText(header, query, parameters) == head;
    } else {
      PlainText(" ", ';');
      FreeOfConcat(Outside, " ", parameters, ';');
      FreeOfConcat(Outside, head, " " + parameters, ';');
      assert LineText(header, query, parameters) == head + (" " + parameters);
    }
  }

  /** What a line of one command does, given the request it makes. */
  lemma LineRuns(m: Machine, s: State, header: string, query: bool, parameters: string)
    requires HeaderText(header) && Trimmed(parameters) && FreeOf(Outside, parameters, ';')
    ensures var line := LineText(header, query, parameters);
            RunLine(m, s, line) == EffectOutcome(s, m.perform(s, RequestFor(m.specs, line, [])))
  {
    hide RequestFor, NextPath, PushError, LineText, EffectOutcome, RunPieces;
    LineIsOnePiece(header, query, parameters);
    OnePieceOutcome(m, s, LineText(header, query, parameters));
  }

  lemma TokenOfWord(name: string)
    requires Word(name)
    ensures TokenOf(name) == Token(name, 0, false)
  {
    TrimOfTrimmed(name);
    assert Upper(name) == name;
  }

  lemma {:induction false} JoinOfWords(names: seq<string>)
    requires Words(names)
    ensures var header := Join(names, ':');
            && HeaderText(header) && !IsCommon(header) && !IsAbsolute(header)
  {
    if |names| > 1 { JoinOfWords(names[1..]); }
  }

  lemma TokensOfWords(names: seq<string>)
    requires Words(names)
    ensures HeaderTokens(Join(names, ':'), []) == Plain(names)
  {
    var header := Join(names, ':');
    JoinOfWords(names);
    forall i | 0 <= i < |names|
      ensures FreeOf(Outside, names[i], ':') && Scan(Outside, names[i]) == Outside && TokenOf(names[i]) == Token(names[i], 0, false)
    {
      PlainText(names[i], ':');
      TokenOfWord(names[i]);
    }
    SplitOfJoin(names, ':');
    assert [] + TokensOf(names) == Plain(names);
  }

  /** A client's line with a header the table knows performs just that command. */
  lemma SelectedLine(w: World, s: State, names: seq<string>, selected: Selected, query: bool, parameters: string)
    requires Words(names) && Dispatch(w.specs, Plain(names)) == Some(selected)
    requires Trimmed(parameters) && FreeOf(Outside, parameters, ';')
    ensures RunLine(Simulator(w), s, LineText(Join(names, ':'), query, parameters))
            == EffectOutcome(s, EffectOf(w, s, Command(selected.key, selected.suffixes, query, ArgsOf(parameters))))
  {
    hide EffectOf, EffectOutcome, RunPieces, RunLine, PieceOf, LineText, HeaderTokens, ArgsOf, Join, Dispatch;
    var header := Join(names, ':');
    JoinOfWords(names);
    TokensOfWords(names);
    PieceOfLine(header, query, parameters);
    LineRuns(Simulator(w), s, header, query, parameters);
  }

  /** The same for a header without numbers. */
  lemma KnownLine(w: World, s: State, names: seq<string>, key: Key, query: bool, parameters: string)
    requires Words(names) && Knows(w.specs, names, key)
    requires Trimmed(parameters) && FreeOf(Outside, parameters, ';')
    ensures RunLine(Simulator(w), s, LineText(Join(names, ':'), query, parameters))
            == EffectOutcome(s, EffectOf(w, s, Command(key, [], query, ArgsOf(parameters))))
  {
    hide EffectOf, EffectOutcome, RunLine, LineText, ArgsOf, Join, Dispatch;
    SelectedLine(w, s, names, Selected(key, []), query, parameters);
  }

  /** The same for a common command. */
  lemma CommonLine(w: World, s: State, header: string, key: CommonKey, query: bool, parameters: string)
    requires HeaderText(header) && IsCommon(header) && CommonKeyOf(Upper(header)) == Some(key)
    requires Trimmed(parameters) && FreeOf(Outside, parameters, ';')
    ensures RunLine(Simulator(w), s, LineText(header, query, parameters))
            == EffectOutcome(s, EffectOf(w, s, Command(Common(key), [], query, ArgsOf(parameters))))
  {
    hide EffectOf, EffectOutcome, RunPieces, RunLine, PieceOf, LineText, ArgsOf, CommonKeyOf;
    PieceOfLine(header, query, parameters);
    LineRuns(Simulator(w), s, header, query, parameters);
  }

  /** A parameter text without blanks at its ends, quotes or separators is one argument. */
  lemma OneArgument(parameters: string)
    requires parameters != "" && Trimmed(parameters) && FreeOf(Outside, parameters, ',')
    ensures ArgsOf(parameters) == [parameters]
  {
    SplitFree(parameters, ',');
    TrimOfTrimmed(parameters);
    assert TrimAll([parameters]) == [parameters];
  }
}
