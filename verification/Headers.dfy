/** Deciding whether two header patterns can match the same header, and what that means for
    a dispatcher that takes the first pattern that matches. */
module Headers {
  import opened Wrappers
  import opened Text
  import opened Pattern
  import opened Commands

  // ------------------------------------------------------------ mnemonics in a table

  /** A mnemonic by its two accepted spellings, such as VOLT and VOLTAGE. */
  datatype Spelling = Spelling(short: string, long: string)

  predicate Uppercase(s: string) {
    forall i :: 0 <= i < |s| ==> IsUpper(s[i])
  }

  predicate Proper(m: Spelling) {
    && Uppercase(m.short) && Uppercase(m.long)
    && 1 <= |m.short| <= |m.long| && m.long[..|m.short|] == m.short
  }

  type Mnemonic = m: Spelling | Proper(m) witness Spelling("A", "A")

  function Lower(s: string): (r: string)
    requires Uppercase(s)
    ensures |r| == |s| && forall i :: 0 <= i < |s| ==> 'a' <= r[i] <= 'z' && ToUpper(r[i]) == s[i]
  {
    seq(|s|, i requires 0 <= i < |s| => (s[i] as int + 32) as char)
  }

  /** The way the manual writes it: the short form in upper case, the rest in lower case. */
  function Notation(m: Mnemonic): string
  {
    m.short + Lower(m.long[|m.short|..])
  }

  lemma {:induction false} ShortFormOf(short: string, rest: string)
    requires Uppercase(short) && (rest == "" || 'a' <= rest[0] <= 'z')
    ensures ShortForm(short + rest) == short
  {
    if short == "" {
      assert short + rest == rest;
    } else {
      assert (short + rest)[1..] == short[1..] + rest;
      ShortFormOf(short[1..], rest);
      assert short == [short[0]] + short[1..];
    }
  }

  /** A notation is matched by exactly its two spellings. */
  lemma NotationMatches(m: Mnemonic, token: string)
    ensures MnemonicMatches(token, Notation(m)) <==> token == m.short || token == m.long
  {
    var rest := m.long[|m.short|..];
    ShortFormOf(m.short, Lower(rest));
    assert Upper(m.short) == m.short;
    assert Upper(Lower(rest)) == rest;
    UpperConcat(m.short, Lower(rest));
    assert m.short + rest == m.long;
  }

  // ------------------------------------------------------------------ table headers

  datatype Names = NoNames | Name(head: Mnemonic, tail: Names)

  /** A compiled pattern as the table lists it, one level per node. */
  datatype Header = End | Level(names: Names, optional: bool, suffixed: bool, rest: Header)

  function Must(m: Mnemonic, rest: Header): Header { Level(Name(m, NoNames), false, false, rest) }
  function May(m: Mnemonic, rest: Header): Header { Level(Name(m, NoNames), true, false, rest) }
  function Numbered(m: Mnemonic, rest: Header): Header { Level(Name(m, NoNames), false, true, rest) }

  function Notations(ns: Names): seq<string>
  {
    match ns
    case NoNames => []
    case Name(m, tail) => [Notation(m)] + Notations(tail)
  }

  /** The nodes the matcher works on. */
  function Nodes(h: Header): seq<PatternNode>
  {
    match h
    case End => []
    case Level(names, optional, suffixed, rest) => [PatternNode(Notations(names), optional, suffixed)] + Nodes(rest)
  }

  predicate Spells(ns: Names, text: string) {
    match ns
    case NoNames => false
    case Name(m, tail) => text == m.short || text == m.long || Spells(tail, text)
  }

  lemma {:induction false} NotationsMatch(ns: Names, text: string)
    ensures (exists i :: 0 <= i < |Notations(ns)| && MnemonicMatches(text, Notations(ns)[i])) <==> Spells(ns, text)
  {
    match ns
    case NoNames =>
    case Name(m, tail) =>
      NotationMatches(m, text);
      NotationsMatch(tail, text);
      assert Notations(ns)[0] == Notation(m);
      assert forall i :: 0 <= i < |Notations(tail)| ==> Notations(ns)[i + 1] == Notations(tail)[i];
      assert forall i :: 1 <= i < |Notations(ns)| ==> Notations(ns)[i] == Notations(tail)[i - 1];
  }

  predicate Matches(h: Header, ts: seq<Token>)
  {
    Match(Nodes(h), ts).Some?
  }

  /** One step of the matcher, in the terms of the table. */
  lemma MatchesStep(h: Header, ts: seq<Token>)
    ensures h.End? ==> (Matches(h, ts) <==> ts == [])
    ensures h.Level? ==> (Matches(h, ts) <==>
              || (ts != [] && (ts[0].hasSuffix ==> h.suffixed) && Spells(h.names, ts[0].text) && Matches(h.rest, ts[1..]))
              || (h.optional && Matches(h.rest, ts)))
  {
    if h.Level? {
      MatchStep(Nodes(h), ts);
      assert Nodes(h)[0] == PatternNode(Notations(h.names), h.optional, h.suffixed);
      assert Nodes(h)[1..] == Nodes(h.rest);
      if ts != [] {
        NotationsMatch(h.names, ts[0].text);
      }
    }
  }

  // ---------------------------------------------------------- the intersection check

  /** Both spellings of a mnemonic start with the same letter, which settles most comparisons. */
  predicate SameWord(a: Mnemonic, b: Mnemonic) {
    && a.short[0] == b.short[0]
    && (a.short == b.short || a.short == b.long || a.long == b.short || a.long == b.long)
  }

  predicate SharesWord(a: Mnemonic, ns: Names) {
    match ns
    case NoNames => false
    case Name(b, tail) => SameWord(a, b) || SharesWord(a, tail)
  }

  predicate Share(ns: Names, ms: Names) {
    match ns
    case NoNames => false
    case Name(a, tail) => SharesWord(a, ms) || Share(tail, ms)
  }

  /** Whether some header is matched by both. */
  predicate Meet(p: Header, q: Header) {
    || (p.End? && q.End?)
    || (p.Level? && q.Level? && Share(p.names, q.names) && Meet(p.rest, q.rest))
    || (p.Level? && p.optional && Meet(p.rest, q))
    || (q.Level? && q.optional && Meet(p, q.rest))
  }

  lemma {:induction false} SharesWordOf(a: Mnemonic, ns: Names, text: string)
    requires (text == a.short || text == a.long) && Spells(ns, text)
    ensures SharesWord(a, ns)
  {
    match ns
    case Name(b, tail) =>
      if text != b.short && text != b.long {
        SharesWordOf(a, tail, text);
      }
  }

  lemma {:induction false} ShareOf(ns: Names, ms: Names, text: string)
    requires Spells(ns, text) && Spells(ms, text)
    ensures Share(ns, ms)
  {
    match ns
    case Name(a, tail) =>
      if text == a.short || text == a.long {
        SharesWordOf(a, ms, text);
      } else {
        ShareOf(tail, ms, text);
      }
  }

  lemma {:induction false} CommonWord(a: Mnemonic, ns: Names) returns (text: string)
    requires SharesWord(a, ns)
    ensures (text == a.short || text == a.long) && Spells(ns, text)
  {
    match ns
    case Name(b, tail) =>
      if SameWord(a, b) {
        text := if a.short == b.short || a.short == b.long then a.short else a.long;
      } else {
        text := CommonWord(a, tail);
      }
  }

  lemma {:induction false} CommonSpelling(ns: Names, ms: Names) returns (text: string)
    requires Share(ns, ms)
    ensures Spells(ns, text) && Spells(ms, text)
  {
    match ns
    case Name(a, tail) =>
      if SharesWord(a, ms) {
        text := CommonWord(a, ms);
      } else {
        text := CommonSpelling(tail, ms);
      }
  }

  lemma {:induction false} MeetFinds(p: Header, q: Header, ts: seq<Token>)
    requires Matches(p, ts) && Matches(q, ts)
    ensures Meet(p, q)
    decreases p, q
  {
    MatchesStep(p, ts);
    MatchesStep(q, ts);
    if p.Level? && p.optional && Matches(p.rest, ts) {
      MeetFinds(p.rest, q, ts);
    } else if q.Level? && q.optional && Matches(q.rest, ts) {
      MeetFinds(p, q.rest, ts);
    } else if p.Level? && q.Level? {
      ShareOf(p.names, q.names, ts[0].text);
      MeetFinds(p.rest, q.rest, ts[1..]);
    }
  }

  lemma {:induction false} CommonHeader(p: Header, q: Header) returns (ts: seq<Token>)
    requires Meet(p, q)
    ensures Matches(p, ts) && Matches(q, ts)
    decreases p, q
  {
    if p.End? && q.End? {
      ts := [];
    } else if p.Level? && q.Level? && Share(p.names, q.names) && Meet(p.rest, q.rest) {
      var text := CommonSpelling(p.names, q.names);
      var tail := CommonHeader(p.rest, q.rest);
      ts := [Token(text, 0, false)] + tail;
      assert ts[1..] == tail;
    } else if p.Level? && p.optional && Meet(p.rest, q) {
      ts := CommonHeader(p.rest, q);
    } else {
      ts := CommonHeader(p, q.rest);
    }
    MatchesStep(p, ts);
    MatchesStep(q, ts);
  }

  /** The check is exact: it holds of two headers just when some received header is matched by both. */
  lemma MeetIsExact(p: Header, q: Header)
    ensures Meet(p, q) <==> exists ts :: Matches(p, ts) && Matches(q, ts)
  {
    if Meet(p, q) {
      var ts := CommonHeader(p, q);
    }
    if ts :| Matches(p, ts) && Matches(q, ts) {
      MeetFinds(p, q, ts);
    }
  }

  // --------------------------------------------------------------------------- rows

  /** A part of the table. */
  datatype Rows = NoRows | Row(key: Key, header: Header, rest: Rows)

  function Count(rows: Rows): nat {
    match rows
    case NoRows => 0
    case Row(_, _, rest) => 1 + Count(rest)
  }

  function At(rows: Rows, i: nat): Header
    requires i < Count(rows)
  {
    if i == 0 then rows.header else At(rows.rest, i - 1)
  }

  function KeyAt(rows: Rows, i: nat): Key
    requires i < Count(rows)
  {
    if i == 0 then rows.key else KeyAt(rows.rest, i - 1)
  }

  function Concat(a: Rows, b: Rows): Rows {
    match a
    case NoRows => b
    case Row(key, header, rest) => Row(key, header, Concat(rest, b))
  }

  /** The rows of a branch of the command tree: each header continues below the given node. */
  function Under(names: Names, optional: bool, suffixed: bool, rows: Rows): Rows {
    match rows
    case NoRows => NoRows
    case Row(key, header, rest) => Row(key, Level(names, optional, suffixed, header), Under(names, optional, suffixed, rest))
  }

  function Below(m: Mnemonic, rows: Rows): Rows { Under(Name(m, NoNames), false, false, rows) }

  function ConcatNames(a: Names, b: Names): Names {
    match a
    case NoNames => b
    case Name(m, tail) => Name(m, ConcatNames(tail, b))
  }

  // ------------------------------------------------- what the check says about small parts

  predicate ApartFrom(h: Header, rows: Rows) {
    match rows
    case NoRows => true
    case Row(_, header, rest) => !Meet(h, header) && ApartFrom(h, rest)
  }

  /** The intersection check on every two rows. */
  predicate Apart(rows: Rows) {
    match rows
    case NoRows => true
    case Row(_, header, rest) => ApartFrom(header, rest) && Apart(rest)
  }

  predicate CrossApart(a: Rows, b: Rows) {
    match a
    case NoRows => true
    case Row(_, header, rest) => ApartFrom(header, b) && CrossApart(rest, b)
  }

  predicate Listed(m: Mnemonic, ns: Names) {
    match ns
    case NoNames => false
    case Name(b, tail) => m == b || Listed(m, tail)
  }

  predicate AllListed(ns: Names, words: Names) {
    match ns
    case NoNames => true
    case Name(m, tail) => Listed(m, words) && AllListed(tail, words)
  }

  predicate StartsWith(h: Header, words: Names) {
    h.Level? && AllListed(h.names, words) && (h.optional ==> StartsWith(h.rest, words))
  }

  predicate AllStartWith(rows: Rows, words: Names) {
    match rows
    case NoRows => true
    case Row(_, header, rest) => StartsWith(header, words) && AllStartWith(rest, words)
  }

  /** Like `StartsWith` for a header that may also be left out altogether. */
  predicate OpensWith(h: Header, words: Names) {
    h.End? || (AllListed(h.names, words) && (h.optional ==> OpensWith(h.rest, words)))
  }

  predicate AllOpenWith(rows: Rows, words: Names) {
    match rows
    case NoRows => true
    case Row(_, header, rest) => OpensWith(header, words) && AllOpenWith(rest, words)
  }

  // --------------------------------------------- what holds of the headers they match

  /** No header is matched by two of the rows. */
  ghost predicate Distinct(rows: Rows) {
    forall i: nat, j: nat, ts: seq<Token> | i < j < Count(rows) && Matches(At(rows, i), ts) :: !Matches(At(rows, j), ts)
  }

  /** No header is matched by a row of each. */
  ghost predicate Separate(a: Rows, b: Rows) {
    forall i: nat, j: nat, ts: seq<Token> | i < Count(a) && j < Count(b) && Matches(At(a, i), ts) :: !Matches(At(b, j), ts)
  }

  predicate FirstIn(ts: seq<Token>, words: Names) {
    ts != [] && Spells(words, ts[0].text)
  }

  /** Every header the rows match starts with one of the words. */
  ghost predicate Starts(rows: Rows, words: Names) {
    forall i: nat, ts: seq<Token> | i < Count(rows) && Matches(At(rows, i), ts) :: FirstIn(ts, words)
  }

  /** Every header the rows match is empty or starts with one of the words. */
  ghost predicate Opens(rows: Rows, words: Names) {
    forall i: nat, ts: seq<Token> | i < Count(rows) && Matches(At(rows, i), ts) :: ts == [] || FirstIn(ts, words)
  }

  ghost predicate Branch(rows: Rows, words: Names) {
    Distinct(rows) && Starts(rows, words)
  }

  lemma {:induction false} ApartFromAt(h: Header, rows: Rows, j: nat, ts: seq<Token>)
    requires ApartFrom(h, rows) && j < Count(rows) && Matches(h, ts)
    ensures !Matches(At(rows, j), ts)
  {
    if j > 0 {
      ApartFromAt(h, rows.rest, j - 1, ts);
    } else if Matches(rows.header, ts) {
      MeetFinds(h, rows.header, ts);
    }
  }

  lemma {:induction false} ApartAt(rows: Rows, i: nat, j: nat, ts: seq<Token>)
    requires Apart(rows) && i < j < Count(rows) && Matches(At(rows, i), ts)
    ensures !Matches(At(rows, j), ts)
  {
    if i == 0 { ApartFromAt(rows.header, rows.rest, j - 1, ts); } else { ApartAt(rows.rest, i - 1, j - 1, ts); }
  }

  lemma {:induction false} CrossApartAt(a: Rows, b: Rows, i: nat, j: nat, ts: seq<Token>)
    requires CrossApart(a, b) && i < Count(a) && j < Count(b) && Matches(At(a, i), ts)
    ensures !Matches(At(b, j), ts)
  {
    if i == 0 { ApartFromAt(a.header, b, j, ts); } else { CrossApartAt(a.rest, b, i - 1, j, ts); }
  }

  lemma {:induction false} ListedSpells(m: Mnemonic, words: Names, text: string)
    requires Listed(m, words) && (text == m.short || text == m.long)
    ensures Spells(words, text)
  {
    match words
    case Name(b, tail) => if m != b { ListedSpells(m, tail, text); }
  }

  lemma {:induction false} AllListedSpells(ns: Names, words: Names, text: string)
    requires AllListed(ns, words) && Spells(ns, text)
    ensures Spells(words, text)
  {
    match ns
    case Name(m, tail) =>
      if text == m.short || text == m.long { ListedSpells(m, words, text); } else { AllListedSpells(tail, words, text); }
  }

  lemma {:induction false} StartsWithSpells(h: Header, words: Names, ts: seq<Token>)
    requires StartsWith(h, words) && Matches(h, ts)
    ensures FirstIn(ts, words)
  {
    MatchesStep(h, ts);
    if h.optional && Matches(h.rest, ts) {
      StartsWithSpells(h.rest, words, ts);
    } else {
      AllListedSpells(h.names, words, ts[0].text);
    }
  }

  lemma {:induction false} AllStartWithAt(rows: Rows, words: Names, i: nat, ts: seq<Token>)
    requires AllStartWith(rows, words) && i < Count(rows) && Matches(At(rows, i), ts)
    ensures FirstIn(ts, words)
  {
    if i == 0 { StartsWithSpells(rows.header, words, ts); } else { AllStartWithAt(rows.rest, words, i - 1, ts); }
  }

  lemma {:induction false} OpensWithSpells(h: Header, words: Names, ts: seq<Token>)
    requires OpensWith(h, words) && Matches(h, ts)
    ensures ts == [] || FirstIn(ts, words)
  {
    MatchesStep(h, ts);
    if h.Level? {
      if h.optional && Matches(h.rest, ts) {
        OpensWithSpells(h.rest, words, ts);
      } else {
        AllListedSpells(h.names, words, ts[0].text);
      }
    }
  }

  lemma {:induction false} AllOpenWithAt(rows: Rows, words: Names, i: nat, ts: seq<Token>)
    requires AllOpenWith(rows, words) && i < Count(rows) && Matches(At(rows, i), ts)
    ensures ts == [] || FirstIn(ts, words)
  {
    if i == 0 { OpensWithSpells(rows.header, words, ts); } else { AllOpenWithAt(rows.rest, words, i - 1, ts); }
  }

  lemma LeafOpens(rows: Rows, words: Names)
    requires AllOpenWith(rows, words)
    ensures Opens(rows, words)
  {
    forall i: nat, ts: seq<Token> | i < Count(rows) && Matches(At(rows, i), ts) ensures ts == [] || FirstIn(ts, words) {
      AllOpenWithAt(rows, words, i, ts);
    }
  }

  /** The intersection check is sound for rows ... */
  lemma ApartIsDistinct(rows: Rows)
    requires Apart(rows)
    ensures Distinct(rows)
  {
    forall i: nat, j: nat, ts: seq<Token> | i < j < Count(rows) && Matches(At(rows, i), ts) ensures !Matches(At(rows, j), ts) {
      ApartAt(rows, i, j, ts);
    }
  }

  /** ... and across two parts. */
  lemma CrossApartIsSeparate(a: Rows, b: Rows)
    requires CrossApart(a, b)
    ensures Separate(a, b)
  {
    forall i: nat, j: nat, ts: seq<Token> | i < Count(a) && j < Count(b) && Matches(At(a, i), ts) ensures !Matches(At(b, j), ts) {
      CrossApartAt(a, b, i, j, ts);
    }
  }

  lemma LeafIsBranch(rows: Rows, words: Names)
    requires Apart(rows) && AllStartWith(rows, words)
    ensures Branch(rows, words)
  {
    ApartIsDistinct(rows);
    forall i: nat, ts: seq<Token> | i < Count(rows) && Matches(At(rows, i), ts) ensures FirstIn(ts, words) {
      AllStartWithAt(rows, words, i, ts);
    }
  }

  // ------------------------------------------------------------------- composing parts

  lemma {:induction false} ConcatAt(a: Rows, b: Rows, i: nat)
    ensures Count(Concat(a, b)) == Count(a) + Count(b)
    ensures i < Count(a) ==> At(Concat(a, b), i) == At(a, i) && KeyAt(Concat(a, b), i) == KeyAt(a, i)
    ensures Count(a) <= i < Count(a) + Count(b) ==>
              At(Concat(a, b), i) == At(b, i - Count(a)) && KeyAt(Concat(a, b), i) == KeyAt(b, i - Count(a))
  {
    match a
    case NoRows =>
    case Row(_, _, rest) => if i > 0 { ConcatAt(rest, b, i - 1); } else { ConcatAt(rest, b, 0); }
  }

  lemma {:induction false} UnderAt(names: Names, optional: bool, suffixed: bool, rows: Rows, i: nat)
    ensures Count(Under(names, optional, suffixed, rows)) == Count(rows)
    ensures i < Count(rows) ==>
              && At(Under(names, optional, suffixed, rows), i) == Level(names, optional, suffixed, At(rows, i))
              && KeyAt(Under(names, optional, suffixed, rows), i) == KeyAt(rows, i)
  {
    match rows
    case NoRows =>
    case Row(_, _, rest) => UnderAt(names, optional, suffixed, rest, if i > 0 then i - 1 else 0);
  }

  lemma {:induction false} SpellsConcat(a: Names, b: Names, text: string)
    ensures Spells(ConcatNames(a, b), text) <==> Spells(a, text) || Spells(b, text)
  {
    match a
    case NoNames =>
    case Name(_, tail) => SpellsConcat(tail, b, text);
  }

  lemma DistinctConcat(a: Rows, b: Rows)
    requires Distinct(a) && Distinct(b) && Separate(a, b)
    ensures Distinct(Concat(a, b))
  {
    var c := Concat(a, b);
    forall i: nat, j: nat, ts: seq<Token> | i < j < Count(c) && Matches(At(c, i), ts) ensures !Matches(At(c, j), ts) {
      ConcatAt(a, b, i);
      ConcatAt(a, b, j);
    }
  }

  lemma StartsConcat(a: Rows, words: Names, b: Rows, others: Names)
    requires Starts(a, words) && Starts(b, others)
    ensures Starts(Concat(a, b), ConcatNames(words, others))
  {
    var c := Concat(a, b);
    ConcatAt(a, b, 0);
    forall i: nat, ts: seq<Token> | i < Count(c) && Matches(At(c, i), ts)
      ensures FirstIn(ts, ConcatNames(words, others))
    {
      ConcatAt(a, b, i);
      assert FirstIn(ts, words) || FirstIn(ts, others);
      SpellsConcat(words, others, ts[0].text);
    }
  }

  lemma SeparateConcat(a: Rows, b: Rows, c: Rows)
    ensures Separate(a, b) && Separate(a, c) ==> Separate(a, Concat(b, c))
    ensures Separate(a, c) && Separate(b, c) ==> Separate(Concat(a, b), c)
  {
    if Separate(a, b) && Separate(a, c) {
      forall i: nat, j: nat, ts: seq<Token> | i < Count(a) && j < Count(Concat(b, c)) && Matches(At(a, i), ts)
        ensures !Matches(At(Concat(b, c), j), ts)
      {
        ConcatAt(b, c, j);
      }
    }
    if Separate(a, c) && Separate(b, c) {
      forall i: nat, j: nat, ts: seq<Token> | i < Count(Concat(a, b)) && j < Count(c) && Matches(At(Concat(a, b), i), ts)
        ensures !Matches(At(c, j), ts)
      {
        ConcatAt(a, b, i);
      }
    }
  }

  /** Parts that start with different words are separate. */
  lemma DifferentWords(a: Rows, words: Names, b: Rows, others: Names)
    requires Starts(a, words) && Starts(b, others) && !Share(words, others)
    ensures Separate(a, b)
  {
    forall i: nat, j: nat, ts: seq<Token> | i < Count(a) && j < Count(b) && Matches(At(a, i), ts)
      ensures !Matches(At(b, j), ts)
    {
      if Matches(At(b, j), ts) {
        assert FirstIn(ts, words) && FirstIn(ts, others);
        ShareOf(words, others, ts[0].text);
      }
    }
  }

  /** The same when the second part can also be left out altogether. */
  lemma DifferentOpening(a: Rows, words: Names, b: Rows, others: Names)
    requires Starts(a, words) && Opens(b, others) && !Share(words, others)
    ensures Separate(a, b)
  {
    forall i: nat, j: nat, ts: seq<Token> | i < Count(a) && j < Count(b) && Matches(At(a, i), ts)
      ensures !Matches(At(b, j), ts)
    {
      if Matches(At(b, j), ts) {
        assert FirstIn(ts, words) && FirstIn(ts, others);
        ShareOf(words, others, ts[0].text);
      }
    }
  }

  lemma Chain(a: Rows, words: Names, b: Rows, others: Names)
    requires Branch(a, words) && Branch(b, others) && !Share(words, others)
    ensures Branch(Concat(a, b), ConcatNames(words, others))
  {
    DifferentWords(a, words, b, others);
    DistinctConcat(a, b);
    StartsConcat(a, words, b, others);
  }

  lemma UnderMatches(names: Names, suffixed: bool, rows: Rows, i: nat, ts: seq<Token>)
    requires i < Count(rows)
    requires Matches(Level(names, false, suffixed, At(rows, i)), ts)
    ensures FirstIn(ts, names) && Matches(At(rows, i), ts[1..])
  {
    MatchesStep(Level(names, false, suffixed, At(rows, i)), ts);
  }

  /** The same for one more branch in front, under a single mnemonic. */
  lemma ChainOne(m: Mnemonic, a: Rows, b: Rows, others: Names)
    requires Branch(a, Name(m, NoNames)) && Branch(b, others) && !SharesWord(m, others)
    ensures Branch(Concat(a, b), Name(m, others))
  {
    assert ConcatNames(Name(m, NoNames), others) == Name(m, others);
    assert Share(Name(m, NoNames), others) == SharesWord(m, others);
    Chain(a, Name(m, NoNames), b, others);
  }

  lemma {:induction false} ShareConcat(a: Names, b: Names, c: Names)
    ensures Share(a, ConcatNames(b, c)) <==> Share(a, b) || Share(a, c)
  {
    match a
    case NoNames =>
    case Name(m, tail) =>
      SharesWordConcat(m, b, c);
      ShareConcat(tail, b, c);
  }

  lemma {:induction false} ShareConcatLeft(a: Names, b: Names, c: Names)
    ensures Share(ConcatNames(a, b), c) <==> Share(a, c) || Share(b, c)
  {
    match a
    case NoNames =>
    case Name(_, tail) => ShareConcatLeft(tail, b, c);
  }

  lemma {:induction false} SharesWordConcat(m: Mnemonic, b: Names, c: Names)
    ensures SharesWord(m, ConcatNames(b, c)) <==> SharesWord(m, b) || SharesWord(m, c)
  {
    match b
    case NoNames =>
    case Name(_, tail) => SharesWordConcat(m, tail, c);
  }

  /** Four branches in a row whose words are pairwise different. */
  lemma ChainFour(a: Rows, wa: Names, b: Rows, wb: Names, c: Rows, wc: Names, d: Rows, wd: Names)
    requires Branch(a, wa) && Branch(b, wb) && Branch(c, wc) && Branch(d, wd)
    requires !Share(wa, wb) && !Share(wa, wc) && !Share(wa, wd) && !Share(wb, wc) && !Share(wb, wd) && !Share(wc, wd)
    ensures Distinct(Concat(a, Concat(b, Concat(c, d))))
  {
    Chain(c, wc, d, wd);
    ShareConcat(wb, wc, wd);
    Chain(b, wb, Concat(c, d), ConcatNames(wc, wd));
    ShareConcat(wa, wc, wd);
    ShareConcat(wa, wb, ConcatNames(wc, wd));
    Chain(a, wa, Concat(b, Concat(c, d)), ConcatNames(wb, ConcatNames(wc, wd)));
  }

  /** Rows that are distinct stay distinct below a mandatory node. */
  lemma BranchUnder(names: Names, suffixed: bool, rows: Rows)
    requires Distinct(rows)
    ensures Branch(Under(names, false, suffixed, rows), names)
  {
    var u := Under(names, false, suffixed, rows);
    UnderAt(names, false, suffixed, rows, 0);
    forall i: nat, ts: seq<Token> | i < Count(u) && Matches(At(u, i), ts) ensures FirstIn(ts, names) {
      UnderAt(names, false, suffixed, rows, i);
      UnderMatches(names, suffixed, rows, i, ts);
    }
    forall i: nat, j: nat, ts: seq<Token> | i < j < Count(u) && Matches(At(u, i), ts) ensures !Matches(At(u, j), ts) {
      UnderAt(names, false, suffixed, rows, i);
      UnderAt(names, false, suffixed, rows, j);
      UnderMatches(names, suffixed, rows, i, ts);
      if Matches(At(u, j), ts) {
        UnderMatches(names, suffixed, rows, j, ts);
      }
    }
  }

  /** Parts that are separate stay separate below the same mandatory mnemonic, with or without a suffix. */
  lemma SeparateUnder(names: Names, a: Rows, suffixedA: bool, b: Rows, suffixedB: bool)
    requires Separate(a, b)
    ensures Separate(Under(names, false, suffixedA, a), Under(names, false, suffixedB, b))
  {
    var u, w := Under(names, false, suffixedA, a), Under(names, false, suffixedB, b);
    UnderAt(names, false, suffixedA, a, 0);
    UnderAt(names, false, suffixedB, b, 0);
    forall i: nat, j: nat, ts: seq<Token> | i < Count(u) && j < Count(w) && Matches(At(u, i), ts)
      ensures !Matches(At(w, j), ts)
    {
      UnderAt(names, false, suffixedA, a, i);
      UnderAt(names, false, suffixedB, b, j);
      UnderMatches(names, suffixedA, a, i, ts);
      if Matches(At(w, j), ts) {
        UnderMatches(names, suffixedB, b, j, ts);
      }
    }
  }

  /** What is left of a header once an optional first node has had its chance. */
  function Beyond(ts: seq<Token>, names: Names): seq<Token> {
    if FirstIn(ts, names) then ts[1..] else ts
  }

  lemma UnderOptionalAt(names: Names, suffixed: bool, rows: Rows, words: Names, i: nat, ts: seq<Token>)
    requires Starts(rows, words) && !Share(words, names) && i < Count(rows)
    requires Matches(Level(names, true, suffixed, At(rows, i)), ts)
    ensures FirstIn(ts, ConcatNames(names, words)) && Matches(At(rows, i), Beyond(ts, names))
  {
    var h := At(rows, i);
    MatchesStep(Level(names, true, suffixed, h), ts);
    if Matches(h, ts) {
      assert FirstIn(ts, words);
      if Spells(names, ts[0].text) {
        ShareOf(words, names, ts[0].text);
      }
    }
    SpellsConcat(names, words, ts[0].text);
  }

  /** Rows that are distinct stay distinct below an optional node they cannot start with. */
  lemma BranchUnderOptional(names: Names, suffixed: bool, rows: Rows, words: Names)
    requires Branch(rows, words) && !Share(words, names)
    ensures Branch(Under(names, true, suffixed, rows), ConcatNames(names, words))
  {
    var u := Under(names, true, suffixed, rows);
    UnderAt(names, true, suffixed, rows, 0);
    forall i: nat, ts: seq<Token> | i < Count(u) && Matches(At(u, i), ts) ensures FirstIn(ts, ConcatNames(names, words)) {
      UnderAt(names, true, suffixed, rows, i);
      UnderOptionalAt(names, suffixed, rows, words, i, ts);
    }
    forall i: nat, j: nat, ts: seq<Token> | i < j < Count(u) && Matches(At(u, i), ts) ensures !Matches(At(u, j), ts) {
      UnderAt(names, true, suffixed, rows, i);
      UnderAt(names, true, suffixed, rows, j);
      UnderOptionalAt(names, suffixed, rows, words, i, ts);
      if Matches(At(u, j), ts) {
        UnderOptionalAt(names, suffixed, rows, words, j, ts);
      }
    }
  }

  /** Rows that do not start with the optional node are separate from a branch when they are separate from its rows. */
  lemma SeparateFromOptional(a: Rows, words: Names, names: Names, suffixed: bool, b: Rows)
    requires Starts(a, words) && !Share(words, names) && Separate(a, b)
    ensures Separate(a, Under(names, true, suffixed, b))
  {
    var u := Under(names, true, suffixed, b);
    UnderAt(names, true, suffixed, b, 0);
    forall i: nat, j: nat, ts: seq<Token> | i < Count(a) && j < Count(u) && Matches(At(a, i), ts)
      ensures !Matches(At(u, j), ts)
    {
      UnderAt(names, true, suffixed, b, j);
      MatchesStep(At(u, j), ts);
      assert FirstIn(ts, words);
      if Spells(names, ts[0].text) {
        ShareOf(words, names, ts[0].text);
      }
    }
  }

  /** Separate parts stay separate below a mandatory node and an optional one. */
  lemma SeparateUnderEither(names: Names, suffixed: bool, a: Rows, others: Names, suffixedToo: bool, b: Rows, words: Names)
    requires Separate(a, b) && Starts(b, words) && !Share(names, words)
    ensures Separate(Under(names, false, suffixed, a), Under(others, true, suffixedToo, b))
  {
    var u, w := Under(names, false, suffixed, a), Under(others, true, suffixedToo, b);
    UnderAt(names, false, suffixed, a, 0);
    UnderAt(others, true, suffixedToo, b, 0);
    forall i: nat, j: nat, ts: seq<Token> | i < Count(u) && j < Count(w) && Matches(At(u, i), ts)
      ensures !Matches(At(w, j), ts)
    {
      UnderAt(names, false, suffixed, a, i);
      UnderAt(others, true, suffixedToo, b, j);
      UnderMatches(names, suffixed, a, i, ts);
      MatchesStep(At(w, j), ts);
      if Matches(At(b, j), ts) {
        assert FirstIn(ts, words);
        ShareOf(names, words, ts[0].text);
      }
    }
  }

  /** Separate parts stay separate below the same optional node they cannot start with. */
  lemma SeparateUnderOptional(names: Names, suffixed: bool, a: Rows, words: Names, b: Rows, others: Names)
    requires Separate(a, b) && Starts(a, words) && Starts(b, others) && !Share(words, names) && !Share(others, names)
    ensures Separate(Under(names, true, suffixed, a), Under(names, true, suffixed, b))
  {
    var u, w := Under(names, true, suffixed, a), Under(names, true, suffixed, b);
    UnderAt(names, true, suffixed, a, 0);
    UnderAt(names, true, suffixed, b, 0);
    forall i: nat, j: nat, ts: seq<Token> | i < Count(u) && j < Count(w) && Matches(At(u, i), ts)
      ensures !Matches(At(w, j), ts)
    {
      UnderAt(names, true, suffixed, a, i);
      UnderAt(names, true, suffixed, b, j);
      UnderOptionalAt(names, suffixed, a, words, i, ts);
      if Matches(At(w, j), ts) {
        UnderOptionalAt(names, suffixed, b, others, j, ts);
      }
    }
  }

  // ----------------------------------------------------------------------- dispatch

  /** A row of the compiled table. */
  datatype CommandSpec = CommandSpec(key: Key, pattern: seq<PatternNode>)

  datatype Selected = Selected(key: Key, suffixes: seq<int>)

  /** The first row whose pattern matches. */
  function Dispatch(specs: seq<CommandSpec>, ts: seq<Token>): Option<Selected> {
    if specs == [] then None
    else
      match Match(specs[0].pattern, ts)
      case Some(suffixes) => Some(Selected(specs[0].key, suffixes))
      case None => Dispatch(specs[1..], ts)
  }

  /** The dispatcher's loop. */
  method Select(specs: seq<CommandSpec>, ts: seq<Token>) returns (selected: Option<Selected>)
    ensures selected == Dispatch(specs, ts)
  {
    for i := 0 to |specs|
      invariant Dispatch(specs, ts) == Dispatch(specs[i..], ts)
    {
      var suffixes := new IntVector();
      var matched := MatchPattern(specs[i].pattern, 0, ts, 0, suffixes);
      assert specs[i].pattern[0..] == specs[i].pattern && ts[0..] == ts;
      assert specs[i..][0] == specs[i] && specs[i..][1..] == specs[i + 1..];
      if matched {
        assert suffixes.items == Match(specs[i].pattern, ts).value;
        return Some(Selected(specs[i].key, suffixes.items));
      }
    }
    return None;
  }

  function Specs(rows: Rows): seq<CommandSpec>
  {
    match rows
    case NoRows => []
    case Row(key, header, rest) => [CommandSpec(key, Nodes(header))] + Specs(rest)
  }

  /** At most one row matches, whatever the header. */
  ghost predicate Unambiguous(specs: seq<CommandSpec>) {
    forall i, j, ts |
      0 <= i < |specs| && 0 <= j < |specs| && Match(specs[i].pattern, ts).Some? && Match(specs[j].pattern, ts).Some?
      :: i == j
  }

  lemma {:induction false} SpecsAt(rows: Rows, i: nat)
    ensures |Specs(rows)| == Count(rows)
    ensures i < Count(rows) ==> Specs(rows)[i] == CommandSpec(KeyAt(rows, i), Nodes(At(rows, i)))
  {
    match rows
    case NoRows =>
    case Row(_, _, rest) => SpecsAt(rest, if i > 0 then i - 1 else 0);
  }

  /** Distinct rows make an unambiguous table. */
  lemma DistinctIsUnambiguous(rows: Rows)
    requires Distinct(rows)
    ensures Unambiguous(Specs(rows))
  {
    var specs := Specs(rows);
    SpecsAt(rows, 0);
    forall i, j, ts | 0 <= i < |specs| && 0 <= j < |specs|
        && Match(specs[i].pattern, ts).Some? && Match(specs[j].pattern, ts).Some?
      ensures i == j
    {
      SpecsAt(rows, i);
      SpecsAt(rows, j);
      assert Matches(At(rows, i), ts) && Matches(At(rows, j), ts);
    }
  }

  /** The dispatcher answers with a row that matches, and with none only when no row does. */
  lemma {:induction false} DispatchFinds(specs: seq<CommandSpec>, ts: seq<Token>)
    ensures Dispatch(specs, ts).None? ==> forall i :: 0 <= i < |specs| ==> Match(specs[i].pattern, ts).None?
    ensures Dispatch(specs, ts).Some? ==>
              exists i :: 0 <= i < |specs| && Match(specs[i].pattern, ts).Some?
                && Dispatch(specs, ts).value == Selected(specs[i].key, Match(specs[i].pattern, ts).value)
  {
    if specs != [] {
      if Match(specs[0].pattern, ts).Some? {
      } else {
        DispatchFinds(specs[1..], ts);
        if Dispatch(specs, ts).Some? {
          var i :| 0 <= i < |specs[1..]| && Match(specs[1..][i].pattern, ts).Some?
            && Dispatch(specs[1..], ts).value == Selected(specs[1..][i].key, Match(specs[1..][i].pattern, ts).value);
          assert specs[i + 1] == specs[1..][i];
        } else {
          assert forall i :: 1 <= i < |specs| ==> specs[i] == specs[1..][i - 1];
        }
      }
    }
  }

  /** In an unambiguous table, the row that matches is the row selected. */
  lemma DispatchSelects(specs: seq<CommandSpec>, ts: seq<Token>, i: nat)
    requires Unambiguous(specs) && i < |specs| && Match(specs[i].pattern, ts).Some?
    ensures Dispatch(specs, ts) == Some(Selected(specs[i].key, Match(specs[i].pattern, ts).value))
  {
    DispatchFinds(specs, ts);
  }

  /** The order of an unambiguous table does not matter. */
  lemma OrderDoesNotMatter(specs: seq<CommandSpec>, permuted: seq<CommandSpec>, ts: seq<Token>)
    requires Unambiguous(specs) && multiset(permuted) == multiset(specs)
    ensures Dispatch(permuted, ts) == Dispatch(specs, ts)
  {
    DispatchFinds(permuted, ts);
    if Dispatch(permuted, ts).Some? {
      var i :| 0 <= i < |permuted| && Match(permuted[i].pattern, ts).Some?
        && Dispatch(permuted, ts).value == Selected(permuted[i].key, Match(permuted[i].pattern, ts).value);
      assert permuted[i] in multiset(permuted);
      assert permuted[i] in specs;
      var k :| 0 <= k < |specs| && specs[k] == permuted[i];
      DispatchSelects(specs, ts, k);
    } else {
      forall k | 0 <= k < |specs| ensures Match(specs[k].pattern, ts).None? {
        assert specs[k] in multiset(permuted);
        assert specs[k] in permuted;
        var i :| 0 <= i < |permuted| && permuted[i] == specs[k];
      }
      DispatchFinds(specs, ts);
    }
  }

  // --------------------------------------------------------------- finding a row in its branch

  /** Some row has this key and matches the header with these suffixes. */
  ghost predicate Holds(rows: Rows, key: Key, ts: seq<Token>, suffixes: seq<int>) {
    exists i: nat :: i < Count(rows) && KeyAt(rows, i) == key && Match(Nodes(At(rows, i)), ts) == Some(suffixes)
  }

  lemma HoldsAt(rows: Rows, i: nat, ts: seq<Token>, suffixes: seq<int>)
    requires i < Count(rows) && Match(Nodes(At(rows, i)), ts) == Some(suffixes)
    ensures Holds(rows, KeyAt(rows, i), ts, suffixes)
  {}

  lemma HoldsConcat(a: Rows, b: Rows, key: Key, ts: seq<Token>, suffixes: seq<int>)
    requires Holds(a, key, ts, suffixes) || Holds(b, key, ts, suffixes)
    ensures Holds(Concat(a, b), key, ts, suffixes)
  {
    ConcatAt(a, b, 0);
    if Holds(a, key, ts, suffixes) {
      var i: nat :| i < Count(a) && KeyAt(a, i) == key && Match(Nodes(At(a, i)), ts) == Some(suffixes);
      ConcatAt(a, b, i);
    } else {
      var i: nat :| i < Count(b) && KeyAt(b, i) == key && Match(Nodes(At(b, i)), ts) == Some(suffixes);
      ConcatAt(a, b, Count(a) + i);
    }
  }

  /** A header without suffix continues below a mandatory node by its short form. */
  lemma HoldsBelow(m: Mnemonic, rows: Rows, key: Key, ts: seq<Token>, suffixes: seq<int>)
    requires Holds(rows, key, ts, suffixes)
    ensures Holds(Below(m, rows), key, [Token(m.short, 0, false)] + ts, suffixes)
  {
    var i: nat :| i < Count(rows) && KeyAt(rows, i) == key && Match(Nodes(At(rows, i)), ts) == Some(suffixes);
    var names := Name(m, NoNames);
    UnderAt(names, false, false, rows, i);
    MatchMust(m, At(rows, i), ts, suffixes);
  }

  lemma MatchMust(m: Mnemonic, rest: Header, ts: seq<Token>, suffixes: seq<int>)
    requires Match(Nodes(rest), ts) == Some(suffixes)
    ensures Match(Nodes(Must(m, rest)), [Token(m.short, 0, false)] + ts) == Some(suffixes)
  {
    var all := [Token(m.short, 0, false)] + ts;
    var nodes := Nodes(Must(m, rest));
    MatchStep(nodes, all);
    NotationsMatch(Name(m, NoNames), m.short);
    assert nodes[0] == PatternNode(Notations(Name(m, NoNames)), false, false) && nodes[1..] == Nodes(rest);
    assert all[1..] == ts;
    assert [] + suffixes == suffixes;
  }

  /** A numbered node written without its number collects 0. */
  lemma MatchNumbered(m: Mnemonic, rest: Header, ts: seq<Token>, suffixes: seq<int>)
    requires Match(Nodes(rest), ts) == Some(suffixes)
    ensures Match(Nodes(Numbered(m, rest)), [Token(m.short, 0, false)] + ts) == Some([0] + suffixes)
  {
    hide Match, Nodes;
    var token := Token(m.short, 0, false);
    var all, nodes := [token] + ts, Nodes(Numbered(m, rest));
    var own := PatternNode(Notations(Name(m, NoNames)), false, true);
    NodesStep(Name(m, NoNames), false, true, rest);
    assert all[0] == token && all[1..] == ts && nodes[0] == own && nodes[1..] == Nodes(rest);
    NotationsMatch(Name(m, NoNames), m.short);
    assert Accepts(own, token);
    MatchStep(nodes, all);
  }

  lemma NodesStep(names: Names, optional: bool, suffixed: bool, rest: Header)
    ensures var nodes := Nodes(Level(names, optional, suffixed, rest));
            nodes != [] && nodes[0] == PatternNode(Notations(names), optional, suffixed) && nodes[1..] == Nodes(rest)
  {}

  /** An optional node is passed over by a header that does not start with it. */
  lemma HoldsBeyond(names: Names, suffixed: bool, rows: Rows, key: Key, ts: seq<Token>, suffixes: seq<int>)
    requires Holds(rows, key, ts, suffixes) && !FirstIn(ts, names)
    ensures Holds(Under(names, true, suffixed, rows), key, ts, suffixes)
  {
    var i: nat :| i < Count(rows) && KeyAt(rows, i) == key && Match(Nodes(At(rows, i)), ts) == Some(suffixes);
    UnderAt(names, true, suffixed, rows, i);
    MatchMay(names, suffixed, At(rows, i), ts);
  }

  lemma MatchMay(names: Names, suffixed: bool, rest: Header, ts: seq<Token>)
    requires !FirstIn(ts, names)
    ensures Match(Nodes(Level(names, true, suffixed, rest)), ts) == Match(Nodes(rest), ts)
  {
    hide Match, Nodes;
    var nodes := Nodes(Level(names, true, suffixed, rest));
    NodesStep(names, true, suffixed, rest);
    MatchStep(nodes, ts);
    if ts != [] {
      NotationsMatch(names, ts[0].text);
      assert !Accepts(nodes[0], ts[0]);
    }
  }

  /** In an unambiguous table a row that holds is the one selected. */
  lemma HoldsSelects(rows: Rows, key: Key, ts: seq<Token>, suffixes: seq<int>)
    requires Unambiguous(Specs(rows)) && Holds(rows, key, ts, suffixes)
    ensures Dispatch(Specs(rows), ts) == Some(Selected(key, suffixes))
  {
    var i: nat :| i < Count(rows) && KeyAt(rows, i) == key && Match(Nodes(At(rows, i)), ts) == Some(suffixes);
    SpecsAt(rows, i);
    DispatchSelects(Specs(rows), ts, i);
  }

  // ------------------------------------------------------------------ the headers a client sends

  /** A header written in short forms without suffixes. */
  function Plain(names: seq<string>): (ts: seq<Token>)
    ensures |ts| == |names|
    ensures forall i :: 0 <= i < |names| ==> ts[i] == Token(names[i], 0, false)
  {
    seq(|names|, i requires 0 <= i < |names| => Token(names[i], 0, false))
  }

  ghost predicate Knows(specs: seq<CommandSpec>, names: seq<string>, key: Key) {
    Dispatch(specs, Plain(names)) == Some(Selected(key, []))
  }

  /** The header that stores the efficiency references, its number left out. */
  ghost predicate KnowsReferences(specs: seq<CommandSpec>) {
    Dispatch(specs, Plain(["CALC", "POW", "EFF", "REF"])) == Some(Selected(EfficiencyReference, [0]))
  }

  /** What the client library counts on: the headers it sends select these commands. */
  ghost predicate ClientTable(specs: seq<CommandSpec>) {
    && Knows(specs, ["FUNC"], Functions(FunctionList))
    && Knows(specs, ["FUNC", "CONC"], Functions(Concurrent))
    && Knows(specs, ["FORM"], Format(DataFormat))
    && Knows(specs, ["SYST", "ERR"], System(ErrorNext))
    && Knows(specs, ["SYST", "ERR", "ALL"], System(ErrorAll))
    && Knows(specs, ["DATA"], Data(false))
    && Knows(specs, ["DATA", "STAT"], Data(true))
    && Knows(specs, ["CALC", "DATA"], Spectrum(SpectrumData))
    && Knows(specs, ["TRAC"], Trace(TraceData))
    && Knows(specs, ["TRAC", "STAT"], Trace(TraceStatus))
  }
}
