/** Character-level helpers: trimming, upper-casing and the quote-aware splitter
    that the simulator and the client each implement on their own. */
module Text {

  // ---------------------------------------------------------------- characters

  /** The white space of the C locale. */
  predicate IsSpace(c: char) {
    c == ' ' || c == '\t' || c == '\n' || c == '\r' || c == '\U{0B}' || c == '\U{0C}'
  }

  predicate IsDigit(c: char) { '0' <= c <= '9' }

  predicate IsUpper(c: char) { 'A' <= c <= 'Z' }

  predicate IsQuote(c: char) { c == '"' || c == '\'' }

  function ToUpper(c: char): char {
    if 'a' <= c <= 'z' then (c as int - 32) as char else c
  }

  /** The characters by their codes. */
  lemma CharacterCodes(c: char)
    ensures IsSpace(c) <==> c as int == 32 || 9 <= c as int <= 13
    ensures IsDigit(c) <==> 48 <= c as int <= 57
    ensures IsUpper(c) <==> 65 <= c as int <= 90
    ensures IsQuote(c) <==> c as int == 34 || c as int == 39
    ensures ToUpper(c) as int == if 97 <= c as int <= 122 then c as int - 32 else c as int
  {}

  function Upper(s: string): (r: string)
    ensures |r| == |s|
    ensures forall i :: 0 <= i < |s| ==> r[i] == ToUpper(s[i])
  {
    seq(|s|, i requires 0 <= i < |s| => ToUpper(s[i]))
  }

  lemma UpperConcat(a: string, b: string)
    ensures Upper(a + b) == Upper(a) + Upper(b)
  {}

  function UpperAll(xs: seq<string>): (r: seq<string>)
    ensures |r| == |xs|
    ensures forall i :: 0 <= i < |xs| ==> r[i] == Upper(xs[i])
  {
    seq(|xs|, i requires 0 <= i < |xs| => Upper(xs[i]))
  }

  /** Names that upper-casing leaves alone. */
  ghost predicate AllUpper(xs: seq<string>) {
    forall i :: 0 <= i < |xs| ==> Upper(xs[i]) == xs[i]
  }

  /** Text that would put more than one line on the wire. */
  predicate HasLineTerminator(s: string) { '\n' in s || '\r' in s }

  // ------------------------------------------------------------------ trimming

  function TrimLeft(s: string): (r: string)
    ensures r != "" ==> !IsSpace(r[0])
    ensures |r| <= |s|
  {
    if s != "" && IsSpace(s[0]) then TrimLeft(s[1..]) else s
  }

  function TrimRight(s: string): (r: string)
    ensures r != "" ==> !IsSpace(r[|r| - 1])
    ensures r <= s
  {
    if s != "" && IsSpace(s[|s| - 1]) then TrimRight(s[..|s| - 1]) else s
  }

  function Trim(s: string): (r: string)
    ensures r != "" ==> !IsSpace(r[0]) && !IsSpace(r[|r| - 1])
    ensures |r| <= |s|
  {
    TrimRight(TrimLeft(s))
  }

  /** Text that trimming leaves alone. */
  predicate Trimmed(s: string) {
    s == "" || (!IsSpace(s[0]) && !IsSpace(s[|s| - 1]))
  }

  lemma TrimOfTrimmed(s: string)
    requires Trimmed(s)
    ensures Trim(s) == s
  {}

  predicate Blank(s: string) { forall i :: 0 <= i < |s| ==> IsSpace(s[i]) }

  lemma {:induction false} BlankIsTrimmed(blank: string, s: string)
    requires Blank(blank) && (s == "" || !IsSpace(s[0]))
    ensures TrimLeft(blank + s) == s
  {
    if blank == "" {
      assert blank + s == s;
    } else {
      assert (blank + s)[1..] == blank[1..] + s;
      BlankIsTrimmed(blank[1..], s);
    }
  }

  lemma {:induction false} BlankBehindIsTrimmed(s: string, blank: string)
    requires Blank(blank) && (s == "" || !IsSpace(s[|s| - 1]))
    ensures TrimRight(s + blank) == s
  {
    if blank == "" {
      assert s + blank == s;
    } else {
      var n := |blank| - 1;
      assert (s + blank)[..|s + blank| - 1] == s + blank[..n];
      BlankBehindIsTrimmed(s, blank[..n]);
    }
  }

  /** Trimming drops the blanks around a text, and nothing else. */
  lemma TrimDropsBlanks(a: string, s: string, b: string)
    requires Blank(a) && Blank(b) && Trimmed(s)
    ensures Trim(a + s + b) == s
  {
    if s == "" {
      assert Blank(a + s + b) && a + s + b + "" == a + s + b;
      BlankIsTrimmed(a + s + b, "");
    } else {
      assert a + s + b == a + (s + b);
      BlankIsTrimmed(a, s + b);
      BlankBehindIsTrimmed(s, b);
    }
  }

  lemma BlankIsNothing(s: string)
    requires Blank(s)
    ensures Trim(s) == ""
  {
    TrimDropsBlanks("", "", s);
    assert "" + "" + s == s;
  }

  function TrimAll(xs: seq<string>): (r: seq<string>)
    ensures |r| == |xs|
    ensures forall i :: 0 <= i < |xs| ==> r[i] == Trim(xs[i])
  {
    seq(|xs|, i requires 0 <= i < |xs| => Trim(xs[i]))
  }

  lemma TrimAllAppend(xs: seq<string>, x: string)
    ensures TrimAll(xs + [x]) == TrimAll(xs) + [Trim(x)]
  {}

  // -------------------------------------------------------------- quote states

  /** Where a scan stands: outside any string, or inside one opened by `mark`. */
  datatype Quote = Outside | Inside(mark: char)

  function Advance(q: Quote, c: char): Quote {
    match q
    case Inside(mark) => if c == mark then Outside else q
    case Outside => if IsQuote(c) then Inside(c) else Outside
  }

  /** The state after reading all of `s`. */
  function Scan(q: Quote, s: string): Quote
    decreases s
  {
    if s == "" then q else Scan(Advance(q, s[0]), s[1..])
  }

  /** A separator that really separates: read outside every quoted string. */
  predicate Separates(q: Quote, c: char, separator: char) {
    q.Outside? && !IsQuote(c) && c == separator
  }

  /** No unquoted occurrence of `separator`. */
  predicate FreeOf(q: Quote, s: string, separator: char)
    decreases s
  {
    s == "" || (!Separates(q, s[0], separator) && FreeOf(Advance(q, s[0]), s[1..], separator))
  }

  lemma {:induction false} ScanConcat(q: Quote, a: string, b: string)
    ensures Scan(q, a + b) == Scan(Scan(q, a), b)
    decreases a
  {
    if a == "" {
      assert a + b == b;
    } else {
      assert (a + b)[1..] == a[1..] + b;
      ScanConcat(Advance(q, a[0]), a[1..], b);
    }
  }

  lemma {:induction false} FreeOfConcat(q: Quote, a: string, b: string, separator: char)
    ensures FreeOf(q, a + b, separator) <==> FreeOf(q, a, separator) && FreeOf(Scan(q, a), b, separator)
    decreases a
  {
    if a == "" {
      assert a + b == b;
    } else {
      assert (a + b)[1..] == a[1..] + b;
      FreeOfConcat(Advance(q, a[0]), a[1..], b, separator);
    }
  }

  /** Text between two `"` that holds no further `"` is opaque to every scan. */
  lemma {:induction false} InsideDoubleQuotes(s: string, separator: char)
    requires '"' !in s
    ensures Scan(Inside('"'), s) == Inside('"') && FreeOf(Inside('"'), s, separator)
  {
    if s != "" {
      assert s[0] in s;
      assert '"' !in s[1..];
      InsideDoubleQuotes(s[1..], separator);
    }
  }

  /** Text without quote characters leaves an outside scan outside. */
  lemma {:induction false} PlainText(s: string, separator: char)
    requires forall i :: 0 <= i < |s| ==> !IsQuote(s[i]) && s[i] != separator
    ensures Scan(Outside, s) == Outside && FreeOf(Outside, s, separator)
  {
    if s != "" {
      PlainText(s[1..], separator);
    }
  }

  // ----------------------------------------------------------------- splitting

  /** The pieces of `s` between its unquoted separators. */
  function Split(q: Quote, s: string, separator: char): (parts: seq<string>)
    ensures |parts| >= 1
    decreases s
  {
    if s == "" then [""]
    else if Separates(q, s[0], separator) then [""] + Split(Outside, s[1..], separator)
    else Glue([s[0]], Split(Advance(q, s[0]), s[1..], separator))
  }

  /** Puts `head` in front of the first piece. */
  function Glue(head: string, parts: seq<string>): (r: seq<string>)
    requires |parts| >= 1
    ensures |r| == |parts|
  {
    [head + parts[0]] + parts[1..]
  }

  /** The pieces with one separator between each two of them. */
  function Join(parts: seq<string>, separator: char): string {
    if |parts| == 0 then ""
    else if |parts| == 1 then parts[0]
    else parts[0] + [separator] + Join(parts[1..], separator)
  }

  /** Pieces that can be put next to each other without their quotes interfering:
      none holds an unquoted separator, and all but the last close their quotes. */
  predicate SeparatePieces(parts: seq<string>, separator: char) {
    && |parts| >= 1
    && (forall i :: 0 <= i < |parts| ==> FreeOf(Outside, parts[i], separator))
    && (forall i :: 0 <= i < |parts| - 1 ==> Scan(Outside, parts[i]) == Outside)
  }

  lemma GlueTwice(a: string, b: string, parts: seq<string>)
    requires |parts| >= 1
    ensures Glue(a, Glue(b, parts)) == Glue(a + b, parts)
  {
    assert a + (b + parts[0]) == a + b + parts[0];
  }

  lemma GlueNothing(parts: seq<string>)
    requires |parts| >= 1
    ensures Glue("", parts) == parts
  {
    assert "" + parts[0] == parts[0];
  }

  /** A prefix without unquoted separators ends up in the first piece. */
  lemma {:induction false} SplitPrefix(q: Quote, a: string, b: string, separator: char)
    requires FreeOf(q, a, separator)
    ensures Split(q, a + b, separator) == Glue(a, Split(Scan(q, a), b, separator))
    decreases a
  {
    if a == "" {
      assert a + b == b;
      GlueNothing(Split(q, b, separator));
    } else {
      assert (a + b)[1..] == a[1..] + b;
      SplitPrefix(Advance(q, a[0]), a[1..], b, separator);
      GlueTwice([a[0]], a[1..], Split(Scan(q, a), b, separator));
      assert [a[0]] + a[1..] == a;
    }
  }

  /** A closed prefix followed by a separator is split off as one piece. */
  lemma SplitOff(a: string, b: string, separator: char)
    requires !IsQuote(separator) && FreeOf(Outside, a, separator) && Scan(Outside, a) == Outside
    ensures Split(Outside, a + [separator] + b, separator) == [a] + Split(Outside, b, separator)
  {
    assert a + [separator] + b == a + ([separator] + b);
    SplitPrefix(Outside, a, [separator] + b, separator);
    assert ([separator] + b)[1..] == b;
    assert a + "" == a;
  }

  lemma SplitFree(a: string, separator: char)
    requires FreeOf(Outside, a, separator)
    ensures Split(Outside, a, separator) == [a]
  {
    SplitPrefix(Outside, a, "", separator);
    assert a + "" == a;
  }

  lemma JoinOfGlue(head: string, parts: seq<string>, separator: char)
    requires |parts| >= 1
    ensures Join(Glue(head, parts), separator) == head + Join(parts, separator)
  {
    var glued := Glue(head, parts);
    if |parts| > 1 {
      assert glued[1..] == parts[1..];
      var rest := [separator] + Join(parts[1..], separator);
      assert head + parts[0] + rest == head + (parts[0] + rest);
    }
  }

  lemma JoinOfEmptyPiece(parts: seq<string>, separator: char)
    requires |parts| >= 1
    ensures Join([""] + parts, separator) == [separator] + Join(parts, separator)
  {
    assert ([""] + parts)[1..] == parts;
    assert "" + [separator] + Join(parts, separator) == [separator] + Join(parts, separator);
  }

  /** Splitting loses nothing: joining the pieces gives the text back. */
  lemma {:induction false} JoinOfSplit(q: Quote, s: string, separator: char)
    ensures Join(Split(q, s, separator), separator) == s
    decreases s
  {
    if s != "" {
      hide Join;
      assert s == [s[0]] + s[1..];
      if Separates(q, s[0], separator) {
        JoinOfSplit(Outside, s[1..], separator);
        JoinOfEmptyPiece(Split(Outside, s[1..], separator), separator);
      } else {
        JoinOfSplit(Advance(q, s[0]), s[1..], separator);
        JoinOfGlue([s[0]], Split(Advance(q, s[0]), s[1..], separator), separator);
      }
    }
  }

  /** A first piece glued onto a scan that started in state `q`. */
  predicate SeparatePiecesFrom(q: Quote, parts: seq<string>, separator: char) {
    && |parts| >= 1
    && FreeOf(q, parts[0], separator)
    && (|parts| > 1 ==> Scan(q, parts[0]) == Outside && SeparatePieces(parts[1..], separator))
  }

  lemma {:induction false} SplitSeparatesFrom(q: Quote, s: string, separator: char)
    ensures SeparatePiecesFrom(q, Split(q, s, separator), separator)
    decreases s
  {
    if s != "" {
      if Separates(q, s[0], separator) {
        var rest := Split(Outside, s[1..], separator);
        SplitSeparatesFrom(Outside, s[1..], separator);
        SeparateFromOutside(rest, separator);
        assert ([""] + rest)[1..] == rest;
      } else {
        var rest := Split(Advance(q, s[0]), s[1..], separator);
        SplitSeparatesFrom(Advance(q, s[0]), s[1..], separator);
        assert ([s[0]] + rest[0])[1..] == rest[0];
        assert Glue([s[0]], rest)[1..] == rest[1..];
      }
    }
  }

  lemma SeparateFromOutside(parts: seq<string>, separator: char)
    requires |parts| >= 1
    ensures SeparatePiecesFrom(Outside, parts, separator) <==> SeparatePieces(parts, separator)
  {
    if SeparatePiecesFrom(Outside, parts, separator) && |parts| > 1 {
      forall i | 0 <= i < |parts| ensures FreeOf(Outside, parts[i], separator) {
        if i > 0 { assert parts[i] == parts[1..][i - 1]; }
      }
      forall i | 0 <= i < |parts| - 1 ensures Scan(Outside, parts[i]) == Outside {
        if i > 0 { assert parts[i] == parts[1..][i - 1]; }
      }
    }
  }

  /** Every piece of a split is free of unquoted separators, and all but the last close their quotes. */
  lemma SplitSeparates(s: string, separator: char)
    ensures SeparatePieces(Split(Outside, s, separator), separator)
  {
    SplitSeparatesFrom(Outside, s, separator);
    SeparateFromOutside(Split(Outside, s, separator), separator);
  }

  /** The other direction of `JoinOfSplit`: splitting undoes joining. With `SplitSeparates` this
      makes `Split` the only way to cut a text into separate pieces. */
  lemma {:induction false} SplitOfJoin(parts: seq<string>, separator: char)
    requires !IsQuote(separator) && SeparatePieces(parts, separator)
    ensures Split(Outside, Join(parts, separator), separator) == parts
  {
    if |parts| == 1 {
      SplitFree(parts[0], separator);
    } else {
      assert SeparatePieces(parts[1..], separator);
      SplitOfJoin(parts[1..], separator);
      SplitOff(parts[0], Join(parts[1..], separator), separator);
    }
  }

  /** One character of the scan: it ends the current piece, or becomes a part of it. */
  lemma SplitAt(q: Quote, text: string, i: nat, separator: char, current: string)
    requires i < |text|
    ensures Glue(current, Split(q, text[i..], separator)) ==
            if Separates(q, text[i], separator) then [current] + Split(Outside, text[i + 1..], separator)
            else Glue(current + [text[i]], Split(Advance(q, text[i]), text[i + 1..], separator))
  {
    hide Separates, Advance;
    var rest := text[i..];
    assert rest[0] == text[i] && rest[1..] == text[i + 1..];
    if Separates(q, text[i], separator) {
      assert current + "" == current;
    } else {
      GlueTwice(current, [text[i]], Split(Advance(q, text[i]), text[i + 1..], separator));
    }
  }

  lemma SplitEnds(q: Quote, text: string, separator: char, current: string)
    ensures Glue(current, Split(q, text[|text|..], separator)) == [current]
  {
    assert text[|text|..] == "" && current + "" == current;
  }

  /** The simulator's splitter: pieces are kept as they are, and there is always at least one. */
  method SplitUnquoted(text: string, separator: char) returns (parts: seq<string>)
    ensures parts == Split(Outside, text, separator)
  {
    hide Split, Glue;
    parts := [];
    var current := "";
    var quote := Outside;
    GlueNothing(Split(quote, text, separator));
    assert text[0..] == text;
    for i := 0 to |text|
      invariant Split(Outside, text, separator) == parts + Glue(current, Split(quote, text[i..], separator))
    {
      var c := text[i];
      SplitAt(quote, text, i, separator, current);
      if quote.Inside? {
        current := current + [c];
        if c == quote.mark {
          quote := Outside;
        }
      } else if IsQuote(c) {
        quote := Inside(c);
        current := current + [c];
      } else if c == separator {
        GlueNothing(Split(Outside, text[i + 1..], separator));
        parts := parts + [current];
        current := "";
      } else {
        current := current + [c];
      }
    }
    SplitEnds(quote, text, separator, current);
    parts := parts + [current];
  }

  // ------------------------------------------------------- the client's splitter

  /** The client trims every field, and a blank line has none. */
  function Fields(line: string, separator: char): seq<string> {
    if Trim(line) == "" then [] else TrimAll(Split(Outside, line, separator))
  }

  method SplitFields(line: string, separator: char) returns (fields: seq<string>)
    ensures fields == Fields(line, separator)
  {
    hide Trim, Split, Glue, TrimAll;
    fields := [];
    if Trim(line) == "" {
      return;
    }
    var current := "";
    var quote := Outside;
    ghost var parts := [];
    GlueNothing(Split(quote, line, separator));
    assert line[0..] == line;
    for i := 0 to |line|
      invariant fields == TrimAll(parts)
      invariant Split(Outside, line, separator) == parts + Glue(current, Split(quote, line[i..], separator))
    {
      var c := line[i];
      SplitAt(quote, line, i, separator, current);
      if quote.Inside? {
        current := current + [c];
        if c == quote.mark {
          quote := Outside;
        }
      } else if IsQuote(c) {
        quote := Inside(c);
        current := current + [c];
      } else if c == separator {
        GlueNothing(Split(Outside, line[i + 1..], separator));
        TrimAllAppend(parts, current);
        fields := fields + [Trim(current)];
        parts := parts + [current];
        current := "";
      } else {
        current := current + [c];
      }
    }
    SplitEnds(quote, line, separator, current);
    TrimAllAppend(parts, current);
    fields := fields + [Trim(current)];
    parts := parts + [current];
  }

  // -------------------------------------------------------------------- quoting

  /** Strips one pair of surrounding quotes, if present; both sides do it alike. */
  function Unquote(text: string): string {
    var s := Trim(text);
    if |s| >= 2 && IsQuote(s[0]) && s[|s| - 1] == s[0] then s[1..|s| - 1] else s
  }

  function Quoted(s: string): string {
    ['"'] + s + ['"']
  }

  function QuotedAll(xs: seq<string>): (r: seq<string>)
    ensures |r| == |xs|
    ensures forall i :: 0 <= i < |xs| ==> r[i] == Quoted(xs[i])
  {
    seq(|xs|, i requires 0 <= i < |xs| => Quoted(xs[i]))
  }

  lemma UnquoteOfQuoted(s: string)
    ensures Trim(Quoted(s)) == Quoted(s) && Unquote(Quoted(s)) == s
  {
    var q := Quoted(s);
    assert |q| == |s| + 2 && q[0] == '"' && q[|q| - 1] == '"';
    TrimOfTrimmed(q);
    assert q[1..|q| - 1] == s;
  }

  /** A pair of equal quotes is dropped, of either kind, with the blanks around it. */
  lemma UnquoteDropsPair(a: string, mark: char, inner: string, b: string)
    requires Blank(a) && Blank(b) && IsQuote(mark)
    ensures Unquote(a + ([mark] + inner + [mark]) + b) == inner
  {
    var q := [mark] + inner + [mark];
    TrimDropsBlanks(a, q, b);
    assert q[1..|q| - 1] == inner;
  }

  /** Nothing else is dropped but such a pair. */
  lemma UnquoteKeepsOthers(text: string)
    ensures Unquote(text) == Trim(text)
            || exists mark :: IsQuote(mark) && Trim(text) == [mark] + Unquote(text) + [mark]
  {
    hide Trim;
    var s := Trim(text);
    if Unquote(text) != s { assert s == [s[0]] + Unquote(text) + [s[0]]; }
  }

  /** A quoted name is closed and opaque as long as it holds no `"`. */
  lemma QuotedIsClosed(s: string, separator: char)
    requires '"' !in s && !IsQuote(separator)
    ensures Scan(Outside, Quoted(s)) == Outside && FreeOf(Outside, Quoted(s), separator)
  {
    assert Quoted(s) == ['"'] + (s + ['"']);
    assert (['"'] + (s + ['"']))[1..] == s + ['"'];
    InsideDoubleQuotes(s, separator);
    ScanConcat(Inside('"'), s, ['"']);
    FreeOfConcat(Inside('"'), s, ['"'], separator);
    assert Scan(Inside('"'), ['"']) == Outside;
  }

  /** The comma-joined quoted list both sides print for a list of function names. */
  function QuoteJoin(values: seq<string>): string {
    Join(QuotedAll(values), ',')
  }

  lemma {:induction false} JoinAppend(parts: seq<string>, last: string, separator: char)
    requires |parts| >= 1
    ensures Join(parts + [last], separator) == Join(parts, separator) + [separator] + last
  {
    if |parts| == 1 {
      assert (parts + [last])[1..] == [last];
    } else {
      assert (parts + [last])[1..] == parts[1..] + [last];
      JoinAppend(parts[1..], last, separator);
      assert parts[0] + [separator] + (Join(parts[1..], separator) + [separator] + last)
          == parts[0] + [separator] + Join(parts[1..], separator) + [separator] + last;
    }
  }

  method JoinQuoted(values: seq<string>) returns (out: string)
    ensures out == QuoteJoin(values)
  {
    out := "";
    for i := 0 to |values|
      invariant out == Join(QuotedAll(values[..i]), ',')
    {
      ghost var done := QuotedAll(values[..i]);
      assert QuotedAll(values[..i + 1]) == done + [Quoted(values[i])];
      if i != 0 {
        JoinAppend(done, Quoted(values[i]), ',');
        out := out + [','];
      }
      out := out + Quoted(values[i]);
    }
    assert values[..|values|] == values;
  }

  /** Quoting and joining names without `"` is undone by splitting and unquoting. */
  lemma QuoteJoinRoundTrip(names: seq<string>)
    requires |names| >= 1 && forall i :: 0 <= i < |names| ==> '"' !in names[i]
    ensures Split(Outside, QuoteJoin(names), ',') == QuotedAll(names)
    ensures Trim(QuoteJoin(names)) == QuoteJoin(names) != ""
  {
    var quoted := QuotedAll(names);
    forall i | 0 <= i < |quoted|
      ensures FreeOf(Outside, quoted[i], ',') && Scan(Outside, quoted[i]) == Outside
    {
      QuotedIsClosed(names[i], ',');
    }
    SplitOfJoin(quoted, ',');
    QuoteJoinEnds(names);
    TrimOfTrimmed(QuoteJoin(names));
  }

  lemma {:induction false} QuoteJoinEnds(names: seq<string>)
    requires |names| >= 1
    ensures |QuoteJoin(names)| >= 2 && QuoteJoin(names)[0] == '"' && QuoteJoin(names)[|QuoteJoin(names)| - 1] == '"'
  {
    if |names| > 1 {
      assert QuotedAll(names)[1..] == QuotedAll(names[1..]);
      QuoteJoinEnds(names[1..]);
    }
  }

  /** Names without `"` stay opaque to a scan for any other separator too. */
  lemma {:induction false} QuoteJoinIsClosed(names: seq<string>, separator: char)
    requires forall i :: 0 <= i < |names| ==> '"' !in names[i]
    requires !IsQuote(separator) && separator != ','
    ensures Scan(Outside, QuoteJoin(names)) == Outside && FreeOf(Outside, QuoteJoin(names), separator)
  {
    if |names| == 1 {
      QuotedIsClosed(names[0], separator);
    } else if |names| > 1 {
      var head := Quoted(names[0]) + [','];
      assert QuotedAll(names)[1..] == QuotedAll(names[1..]);
      QuotedIsClosed(names[0], separator);
      ScanConcat(Outside, Quoted(names[0]), [',']);
      FreeOfConcat(Outside, Quoted(names[0]), [','], separator);
      assert Scan(Outside, [',']) == Outside && FreeOf(Outside, [','], separator);
      QuoteJoinIsClosed(names[1..], separator);
      assert QuoteJoin(names) == head + QuoteJoin(names[1..]);
      ScanConcat(Outside, head, QuoteJoin(names[1..]));
      FreeOfConcat(Outside, head, QuoteJoin(names[1..]), separator);
    }
  }
}
