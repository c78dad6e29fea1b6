/** Quoted lists of names as they are printed, split and unquoted again: exactly when they come back. */
module NameLists {
  import opened Text
  import opened Client
  import opened ErrorLoop

  /** Names that can be put next to each other: none holds a comma outside the quotes a splitter sees, and all but the
      last close their quotes. */
  predicate SeparateNames(names: seq<string>) { names == [] || SeparatePieces(QuotedAll(names), ',') }

  lemma SeparateNamesStep(names: seq<string>)
    requires names != []
    ensures SeparateNames(names) <==>
              && SeparateNames(names[1..]) && FreeOf(Outside, Quoted(names[0]), ',')
              && (|names| > 1 ==> Scan(Outside, Quoted(names[0])) == Outside)
  {
    hide FreeOf, Scan, Quoted;
    var all, rest := QuotedAll(names), QuotedAll(names[1..]);
    assert forall i :: 1 <= i < |names| ==> all[i] == rest[i - 1];
    assert forall i :: 0 <= i < |names| - 1 ==> rest[i] == all[i + 1];
  }

  /** Names without a double quote always are, whatever else they hold. */
  lemma QuoteFreeAreSeparate(names: seq<string>)
    requires forall i :: 0 <= i < |names| ==> '"' !in names[i]
    ensures SeparateNames(names)
  {
    forall i | 0 <= i < |names|
      ensures FreeOf(Outside, QuotedAll(names)[i], ',') && Scan(Outside, QuotedAll(names)[i]) == Outside
    {
      QuotedIsClosed(names[i], ',');
    }
  }

  // ------------------------------------------------------------------------ reading a list back

  /** What follows the first name on the line. */
  function Behind(names: seq<string>): string
    requires names != []
  {
    if |names| == 1 then "" else "," + QuoteJoin(names[1..])
  }

  lemma QuoteJoinStep(names: seq<string>)
    requires names != []
    ensures QuoteJoin(names) == Quoted(names[0]) + Behind(names)
  {
    assert QuotedAll(names)[1..] == QuotedAll(names[1..]);
    assert Quoted(names[0]) + "" == Quoted(names[0]);
    assert Quoted(names[0]) + [','] + QuoteJoin(names[1..]) == Quoted(names[0]) + ("," + QuoteJoin(names[1..]));
  }

  /** The names a list of fields is read as. */
  function NamesOf(pieces: seq<string>): seq<string> { UnquoteAll(TrimAll(pieces)) }

  lemma NamesOfBehind(first: string, rest: seq<string>)
    ensures NamesOf([first] + rest) == [Unquote(first)] + NamesOf(rest)
  {
    hide Trim, Unquote;
    TrimTwice(first);
    assert TrimAll([first] + rest) == [Trim(first)] + TrimAll(rest);
  }

  /** A printed list is read back as it was if and only if its names are separate. */
  lemma {:induction false} NamesComeBack(names: seq<string>)
    requires names != []
    ensures NamesOf(Split(Outside, QuoteJoin(names), ',')) == names <==> SeparateNames(names)
  {
    hide FreeOf, Scan, Unquote, Split, Trim, SeparateNames, QuoteJoin, Quoted;
    var tail := Behind(names);
    var pieces := Split(Outside, Quoted(names[0]) + tail, ',');
    QuoteJoinStep(names);
    SeparateNamesStep(names);
    FieldIsWholeMessage(names[0], tail);
    TrimTwice(pieces[0]);
    assert NamesOf(pieces)[0] == Unquote(pieces[0]);
    if pieces[0] == Quoted(names[0]) {
      if |names| == 1 {
        PiecesWhole(Quoted(names[0]), tail);
        NamesOfBehind(Quoted(names[0]), []);
        assert [Quoted(names[0])] + [] == [Quoted(names[0])] && NamesOf([]) == [];
        assert names == [names[0]] + [];
        NoNames();
      } else {
        PiecesBehind(Quoted(names[0]), QuoteJoin(names[1..]));
        var rest := Split(Outside, QuoteJoin(names[1..]), ',');
        NamesOfBehind(Quoted(names[0]), rest);
        NamesComeBack(names[1..]);
        assert names == [names[0]] + names[1..];
        assert ([names[0]] + NamesOf(rest))[1..] == NamesOf(rest);
      }
    }
  }

  lemma NoNames() ensures SeparateNames([]) {}

  /** The client reads a printed list back as it was if and only if its names are separate. */
  lemma NamesAreRead(names: seq<string>)
    ensures UnquoteAll(Fields(QuoteJoin(names), ',')) == names <==> SeparateNames(names)
  {
    if names == [] {
      assert QuoteJoin(names) == "";
    } else {
      hide QuoteJoin, Split, SeparateNames;
      NamesComeBack(names);
      QuoteJoinEnds(names);
      TrimOfTrimmed(QuoteJoin(names));
    }
  }

  // ---------------------------------------------------------------------------- upper-casing

  /** A state a scan can be in. */
  predicate Real(q: Quote) { q.Inside? ==> IsQuote(q.mark) }

  lemma {:induction false} UpperScan(q: Quote, s: string, separator: char)
    requires Real(q) && ToUpper(separator) == separator && !IsUpper(separator)
    ensures Scan(q, Upper(s)) == Scan(q, s)
    ensures FreeOf(q, Upper(s), separator) <==> FreeOf(q, s, separator)
    decreases s
  {
    if s != "" {
      assert Upper(s)[1..] == Upper(s[1..]);
      UpperScan(Advance(q, s[0]), s[1..], separator);
    }
  }

  lemma UpperOfCons(s: string)
    requires s != ""
    ensures Upper(s) != "" && Upper(s)[0] == ToUpper(s[0]) && Upper(s)[1..] == Upper(s[1..])
  {}

  lemma UpperGlue(c: char, parts: seq<string>)
    requires |parts| >= 1
    ensures UpperAll(Glue([c], parts)) == Glue([ToUpper(c)], UpperAll(parts))
  {
    UpperConcat([c], parts[0]);
    assert Upper([c]) == [ToUpper(c)];
    assert Glue([c], parts)[1..] == parts[1..];
  }

  lemma UpperBehind(parts: seq<string>)
    ensures UpperAll([""] + parts) == [""] + UpperAll(parts)
  {
    assert Upper("") == "";
  }

  lemma SeparatesUpper(q: Quote, c: char, separator: char)
    requires Real(q) && ToUpper(separator) == separator && !IsUpper(separator)
    ensures Separates(q, ToUpper(c), separator) == Separates(q, c, separator)
    ensures Advance(q, ToUpper(c)) == Advance(q, c) && Real(Advance(q, c))
  {}

  lemma {:induction false} UpperSplit(q: Quote, s: string, separator: char)
    requires Real(q) && ToUpper(separator) == separator && !IsUpper(separator)
    ensures Split(q, Upper(s), separator) == UpperAll(Split(q, s, separator))
    decreases s
  {
    hide Upper, ToUpper, Separates, Advance, Glue, UpperAll;
    if s == "" {
      UpperBehind([]);
      assert [""] + [] == [""] && UpperAll([]) == [];
    } else {
      UpperOfCons(s);
      SeparatesUpper(q, s[0], separator);
      if Separates(q, s[0], separator) {
        SeparatesUpper(Outside, s[0], separator);
        UpperSplit(Outside, s[1..], separator);
        UpperBehind(Split(Outside, s[1..], separator));
      } else {
        UpperSplit(Advance(q, s[0]), s[1..], separator);
        UpperGlue(s[0], Split(Advance(q, s[0]), s[1..], separator));
      }
    }
  }

  lemma {:induction false} UpperTrimLeft(s: string)
    ensures TrimLeft(Upper(s)) == Upper(TrimLeft(s))
  {
    if s != "" && IsSpace(s[0]) {
      assert Upper(s)[1..] == Upper(s[1..]);
      UpperTrimLeft(s[1..]);
    }
  }

  lemma {:induction false} UpperTrimRight(s: string)
    ensures TrimRight(Upper(s)) == Upper(TrimRight(s))
  {
    if s != "" && IsSpace(s[|s| - 1]) {
      assert Upper(s)[..|s| - 1] == Upper(s[..|s| - 1]);
      UpperTrimRight(s[..|s| - 1]);
    }
  }

  lemma UpperTrim(s: string)
    ensures Trim(Upper(s)) == Upper(Trim(s))
  {
    UpperTrimLeft(s);
    UpperTrimRight(TrimLeft(s));
  }

  lemma UpperUnquote(s: string)
    ensures Unquote(Upper(s)) == Upper(Unquote(s))
  {
    hide Trim;
    UpperTrim(s);
    var t := Trim(s);
    if |t| >= 2 { assert Upper(t)[1..|t| - 1] == Upper(t[1..|t| - 1]); }
  }

  lemma UpperQuoted(s: string)
    ensures Quoted(Upper(s)) == Upper(Quoted(s))
  {}

  lemma UpperQuotedAll(names: seq<string>)
    ensures QuotedAll(UpperAll(names)) == UpperAll(QuotedAll(names))
  {
    hide Upper, Quoted;
    forall i | 0 <= i < |names| ensures QuotedAll(UpperAll(names))[i] == UpperAll(QuotedAll(names))[i] { UpperQuoted(names[i]); }
  }

  lemma {:induction false} UpperJoin(texts: seq<string>)
    ensures Join(UpperAll(texts), ',') == Upper(Join(texts, ','))
  {
    if |texts| > 1 {
      UpperJoin(texts[1..]);
      assert UpperAll(texts)[1..] == UpperAll(texts[1..]);
      UpperConcat(texts[0] + [','], Join(texts[1..], ','));
      UpperConcat(texts[0], [',']);
      assert Upper([',']) == [','];
    }
  }

  lemma UpperQuoteJoin(names: seq<string>)
    ensures QuoteJoin(UpperAll(names)) == Upper(QuoteJoin(names))
  {
    UpperQuotedAll(names);
    UpperJoin(QuotedAll(names));
  }

  lemma UpperKeepsSeparate(names: seq<string>)
    ensures SeparateNames(UpperAll(names)) <==> SeparateNames(names)
  {
    hide FreeOf, Scan, Quoted, Upper;
    UpperQuotedAll(names);
    forall i | 0 <= i < |names|
      ensures FreeOf(Outside, QuotedAll(UpperAll(names))[i], ',') <==> FreeOf(Outside, QuotedAll(names)[i], ',')
      ensures Scan(Outside, QuotedAll(UpperAll(names))[i]) == Scan(Outside, QuotedAll(names)[i])
    {
      UpperScan(Outside, QuotedAll(names)[i], ',');
    }
  }

  lemma UpperNamesOf(pieces: seq<string>)
    ensures NamesOf(UpperAll(pieces)) == UpperAll(NamesOf(pieces))
  {
    hide Trim, Unquote, Upper;
    forall i | 0 <= i < |pieces| ensures NamesOf(UpperAll(pieces))[i] == UpperAll(NamesOf(pieces))[i] {
      UpperTrim(pieces[i]);
      UpperUnquote(Trim(pieces[i]));
    }
  }

  /** Upper-casing on the way does not change when a list comes back. */
  lemma UpperNamesComeBack(names: seq<string>)
    requires names != []
    ensures UpperAll(NamesOf(Split(Outside, QuoteJoin(names), ','))) == UpperAll(names) <==> SeparateNames(names)
  {
    hide Split, QuoteJoin, SeparateNames, Unquote, Upper;
    var pieces := Split(Outside, QuoteJoin(names), ',');
    UpperQuoteJoin(names);
    UpperSplit(Outside, QuoteJoin(names), ',');
    UpperNamesOf(pieces);
    NamesComeBack(UpperAll(names));
    UpperKeepsSeparate(names);
  }
}
