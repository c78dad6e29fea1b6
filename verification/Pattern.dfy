/** Header patterns: how a received header node becomes a token, how a pattern text is compiled,
    and the backtracking matcher with the language it decides. */
module Pattern {
  import opened Wrappers
  import opened Text
  import opened Decimal

  // -------------------------------------------------------------------- tokens

  /** One node of a received header: the upper-cased mnemonic and its numeric suffix. */
  datatype Token = Token(text: string, suffix: int, hasSuffix: bool)

  /** Where the trailing digits of `s` start. */
  function DigitStart(s: string): (n: nat)
    ensures n <= |s| && AllDigits(s[n..])
    ensures n > 0 ==> !IsDigit(s[n - 1])
  {
    if s == "" || !IsDigit(s[|s| - 1]) then |s|
    else
      var n := DigitStart(s[..|s| - 1]);
      assert forall i :: n <= i < |s| - 1 ==> s[i] == s[..|s| - 1][n..][i - n];
      n
  }

  /** Digits only count as a suffix when something precedes them. */
  function TokenOf(node: string): Token {
    var text := Upper(Trim(node));
    var end := DigitStart(text);
    if 0 < end < |text| then Token(text[..end], NatValue(text[end..]), true) else Token(text, 0, false)
  }

  function TokensOf(nodes: seq<string>): (r: seq<Token>)
    ensures |r| == |nodes|
    ensures forall i :: 0 <= i < |nodes| ==> r[i] == TokenOf(nodes[i])
  {
    seq(|nodes|, i requires 0 <= i < |nodes| => TokenOf(nodes[i]))
  }

  method FindDigits(text: string) returns (end: nat)
    ensures end == DigitStart(text)
  {
    end := |text|;
    assert text[..end] == text;
    while end > 0 && IsDigit(text[end - 1])
      invariant 0 <= end <= |text|
      invariant DigitStart(text[..end]) == DigitStart(text)
    {
      assert text[..end][..end - 1] == text[..end - 1];
      end := end - 1;
    }
    assert DigitStart(text[..end]) == end;
  }

  method MakeToken(node: string) returns (token: Token)
    ensures token == TokenOf(node)
  {
    hide NatValue, Trim, Upper, DigitStart;
    var text := Upper(Trim(node));
    var end := FindDigits(text);
    token := Token(text, 0, false);
    if end < |text| && end > 0 {
      token := Token(text[..end], NatValue(text[end..]), true);
    }
  }

  /** A name followed by a printed number is read back as that name and suffix. */
  lemma TokenOfNumbered(name: string, n: nat)
    requires name != "" && Trimmed(name) && !IsDigit(name[|name| - 1]) && Upper(name) == name
    ensures TokenOf(name + NatText(n)) == Token(name, n, true)
  {
    var digits := NatText(n);
    var node := name + digits;
    assert Trimmed(node) by { assert node[0] == name[0]; assert node[|node| - 1] == digits[|digits| - 1]; }
    TrimOfTrimmed(node);
    assert Upper(digits) == digits;
    UpperConcat(name, digits);
    DigitStartOf(name, digits);
    NatRoundTrip(n);
    assert node[..|name|] == name;
    assert node[|name|..] == digits;
  }

  lemma {:induction false} DigitStartOf(name: string, digits: string)
    requires name != "" && !IsDigit(name[|name| - 1]) && AllDigits(digits)
    ensures DigitStart(name + digits) == |name|
  {
    var s := name + digits;
    if digits == "" {
      assert s == name;
    } else {
      assert s[|s| - 1] == digits[|digits| - 1];
      assert s[..|s| - 1] == name + digits[..|digits| - 1];
      DigitStartOf(name, digits[..|digits| - 1]);
    }
  }

  /** A name without a number has no suffix, and digits on their own are no suffix but a name. */
  lemma TokenWithoutSuffix(name: string)
    requires (name != "" && Trimmed(name) && !IsDigit(name[|name| - 1]) && Upper(name) == name) || AllDigits(name)
    ensures TokenOf(name) == Token(name, 0, false)
  {
    TrimOfTrimmed(name);
    if AllDigits(name) { OnlyDigits(name); }
  }

  lemma {:induction false} OnlyDigits(digits: string)
    requires AllDigits(digits)
    ensures DigitStart(digits) == 0 && Upper(digits) == digits
  {
    if digits != "" { OnlyDigits(digits[..|digits| - 1]); }
  }

  // ----------------------------------------------------------------- mnemonics

  /** The leading upper-case letters and digits of a mnemonic such as "VOLTage". */
  function ShortForm(mnemonic: string): string {
    if mnemonic == "" || !(IsUpper(mnemonic[0]) || IsDigit(mnemonic[0])) then ""
    else [mnemonic[0]] + ShortForm(mnemonic[1..])
  }

  /** Exactly the short form or the whole long form, nothing in between. */
  predicate MnemonicMatches(token: string, mnemonic: string) {
    token == ShortForm(mnemonic) || token == Upper(mnemonic)
  }

  // ------------------------------------------------------------------ patterns

  datatype PatternNode = PatternNode(mnemonics: seq<string>, optional: bool, suffixed: bool)

  predicate Accepts(node: PatternNode, token: Token) {
    && (token.hasSuffix ==> node.suffixed)
    && exists i :: 0 <= i < |node.mnemonics| && MnemonicMatches(token.text, node.mnemonics[i])
  }

  method NodeAccepts(node: PatternNode, token: Token) returns (accepts: bool)
    ensures accepts <==> Accepts(node, token)
  {
    if token.hasSuffix && !node.suffixed {
      return false;
    }
    for i := 0 to |node.mnemonics|
      invariant forall k :: 0 <= k < i ==> !MnemonicMatches(token.text, node.mnemonics[k])
    {
      if MnemonicMatches(token.text, node.mnemonics[i]) {
        return true;
      }
    }
    return false;
  }

  // ----------------------------------------------------- the language of a pattern

  /** How many nodes an embedding uses. */
  function Used(e: seq<bool>): (n: nat)
    ensures n <= |e|
  {
    if |e| == 0 then 0 else Used(e[..|e| - 1]) + (if e[|e| - 1] then 1 else 0)
  }

  /** `e` says which nodes of the pattern are present. Together the present nodes accept the tokens
      one by one and in order, and only optional nodes are absent. */
  ghost predicate Embeds(p: seq<PatternNode>, ts: seq<Token>, e: seq<bool>) {
    && |e| == |p|
    && Used(e) == |ts|
    && forall i :: 0 <= i < |p| ==> Fits(p, ts, e, i)
  }

  /** Node `i` is present and accepts the next unused token, or is absent and optional. */
  ghost predicate Fits(p: seq<PatternNode>, ts: seq<Token>, e: seq<bool>, i: nat)
    requires |e| == |p| && i < |p|
  {
    if e[i] then Used(e[..i]) < |ts| && Accepts(p[i], ts[Used(e[..i])]) else p[i].optional
  }

  /** `a` is preferred to `b`: at the first difference `a` has the node present. */
  ghost predicate Before(a: seq<bool>, b: seq<bool>) {
    exists k :: 0 <= k < |a| && k < |b| && a[..k] == b[..k] && a[k] && !b[k]
  }

  /** The suffixes of the suffixable nodes that are present, in pattern order; an omitted one reads 0. */
  ghost function SuffixesOf(p: seq<PatternNode>, ts: seq<Token>, e: seq<bool>): seq<int>
    requires Embeds(p, ts, e)
    decreases |p|
  {
    if p == [] then []
    else
      var n := |p| - 1;
      EmbedsInit(p, ts, e);
      if !e[n] then SuffixesOf(p[..n], ts, e[..n])
      else SuffixesOf(p[..n], ts[..|ts| - 1], e[..n]) + (if p[n].suffixed then [ts[|ts| - 1].suffix] else [])
  }

  lemma EmbedsInit(p: seq<PatternNode>, ts: seq<Token>, e: seq<bool>)
    requires Embeds(p, ts, e) && p != []
    ensures !e[|p| - 1] ==> Embeds(p[..|p| - 1], ts, e[..|p| - 1])
    ensures e[|p| - 1] ==> ts != [] && Embeds(p[..|p| - 1], ts[..|ts| - 1], e[..|p| - 1])
  {
    var n := |p| - 1;
    assert e[..n + 1] == e;
    var ts' := if e[n] then ts[..|ts| - 1] else ts;
    forall i | 0 <= i < n ensures Fits(p[..n], ts', e[..n], i) {
      assert Fits(p, ts, e, i);
      assert e[..n][..i] == e[..i];
      if e[i] {
        UsedMonotone(e, i + 1, n);
        assert e[..i + 1][..i] == e[..i];
      }
    }
  }

  lemma {:induction false} UsedMonotone(e: seq<bool>, i: nat, j: nat)
    requires i <= j <= |e|
    ensures Used(e[..i]) <= Used(e[..j])
    decreases j - i
  {
    if i < j {
      UsedMonotone(e, i, j - 1);
      assert e[..j][..j - 1] == e[..j - 1];
    }
  }

  // --------------------------------------------------- the matcher, front to back

  /** The embedding a present-first search finds. */
  function Search(p: seq<PatternNode>, ts: seq<Token>): (r: Option<seq<bool>>)
    ensures r.Some? ==> |r.value| == |p|
  {
    if p == [] then if ts == [] then Some([]) else None
    else
      var present := if ts != [] && Accepts(p[0], ts[0]) then Search(p[1..], ts[1..]) else None;
      if present.Some? then Some([true] + present.value)
      else if !p[0].optional then None
      else
        var absent := Search(p[1..], ts);
        if absent.Some? then Some([false] + absent.value) else None
  }

  /** The suffixes that search collects on its way. */
  function Collected(p: seq<PatternNode>, ts: seq<Token>): seq<int>
    requires Search(p, ts).Some?
  {
    if p == [] then []
    else if ts != [] && Accepts(p[0], ts[0]) && Search(p[1..], ts[1..]).Some? then
      (if p[0].suffixed then [ts[0].suffix] else []) + Collected(p[1..], ts[1..])
    else Collected(p[1..], ts)
  }

  /** A match yields the suffixes collected. */
  function Match(p: seq<PatternNode>, ts: seq<Token>): Option<seq<int>> {
    if Search(p, ts).Some? then Some(Collected(p, ts)) else None
  }

  lemma {:induction false} UsedCons(b: bool, e: seq<bool>)
    ensures Used([b] + e) == (if b then 1 else 0) + Used(e)
  {
    if |e| == 0 {
      assert ([b] + e)[..0] == [];
      assert [b] + e == [b];
    } else {
      assert ([b] + e)[..|e|] == [b] + e[..|e| - 1];
      UsedCons(b, e[..|e| - 1]);
    }
  }

  lemma FitsCons(p: seq<PatternNode>, ts: seq<Token>, e: seq<bool>, i: nat)
    requires |e| == |p| && i + 1 < |p| && (e[0] ==> ts != [])
    ensures Fits(p, ts, e, i + 1) <==> Fits(p[1..], if e[0] then ts[1..] else ts, e[1..], i)
  {
    assert e[..i + 1] == [e[0]] + e[1..][..i];
    UsedCons(e[0], e[1..][..i]);
  }

  /** An embedding of a non-empty pattern is a decision for the first node and an embedding of the rest. */
  lemma EmbedsCons(p: seq<PatternNode>, ts: seq<Token>, e: seq<bool>)
    requires p != [] && |e| == |p|
    ensures Embeds(p, ts, e) <==>
            if e[0] then ts != [] && Accepts(p[0], ts[0]) && Embeds(p[1..], ts[1..], e[1..])
            else p[0].optional && Embeds(p[1..], ts, e[1..])
  {
    assert e == [e[0]] + e[1..];
    UsedCons(e[0], e[1..]);
    assert e[..0] == [];
    assert Fits(p, ts, e, 0) <==> if e[0] then ts != [] && Accepts(p[0], ts[0]) else p[0].optional;
    if e[0] ==> ts != [] {
      var ts' := if e[0] then ts[1..] else ts;
      forall i | 0 <= i < |p| - 1 ensures Fits(p, ts, e, i + 1) <==> Fits(p[1..], ts', e[1..], i) {
        FitsCons(p, ts, e, i);
      }
      if Embeds(p[1..], ts', e[1..]) {
        forall i | 1 <= i < |p| ensures Fits(p, ts, e, i) { FitsCons(p, ts, e, i - 1); }
      }
    }
  }

  /** Soundness: what the search finds is an embedding. */
  lemma {:induction false} SearchSound(p: seq<PatternNode>, ts: seq<Token>)
    requires Search(p, ts).Some?
    ensures Embeds(p, ts, Search(p, ts).value)
  {
    if p != [] {
      var e := Search(p, ts).value;
      assert e[0] ==> e[1..] == Search(p[1..], ts[1..]).value;
      assert !e[0] ==> e[1..] == Search(p[1..], ts).value;
      if e[0] { SearchSound(p[1..], ts[1..]); } else { SearchSound(p[1..], ts); }
      EmbedsCons(p, ts, e);
    }
  }

  /** Completeness and preference: any embedding makes the search succeed, with that embedding or a preferred one. */
  lemma {:induction false} SearchComplete(p: seq<PatternNode>, ts: seq<Token>, e: seq<bool>)
    requires Embeds(p, ts, e)
    ensures Search(p, ts).Some?
    ensures Search(p, ts).value == e || Before(Search(p, ts).value, e)
    decreases |p|
  {
    if p != [] {
      EmbedsCons(p, ts, e);
      if e[0] {
        SearchComplete(p[1..], ts[1..], e[1..]);
      } else {
        SearchComplete(p[1..], ts, e[1..]);
      }
      var found := Search(p, ts).value;
      assert e == [e[0]] + e[1..];
      if found[0] == e[0] {
        assert found == [e[0]] + found[1..];
        if found[1..] != e[1..] {
          BeforeCons(e[0], found[1..], e[1..]);
        }
      } else {
        assert found[..0] == e[..0];
      }
    }
  }

  lemma BeforeCons(b: bool, x: seq<bool>, y: seq<bool>)
    requires Before(x, y)
    ensures Before([b] + x, [b] + y)
  {
    var k :| 0 <= k < |x| && k < |y| && x[..k] == y[..k] && x[k] && !y[k];
    assert ([b] + x)[..k + 1] == [b] + x[..k];
    assert ([b] + y)[..k + 1] == [b] + y[..k];
  }

  lemma {:induction false} SuffixesCons(p: seq<PatternNode>, ts: seq<Token>, e: seq<bool>)
    requires Embeds(p, ts, e) && p != []
    ensures e[0] ==> ts != [] && Embeds(p[1..], ts[1..], e[1..])
    ensures !e[0] ==> Embeds(p[1..], ts, e[1..])
    ensures SuffixesOf(p, ts, e) ==
            if e[0] then (if p[0].suffixed then [ts[0].suffix] else []) + SuffixesOf(p[1..], ts[1..], e[1..])
            else SuffixesOf(p[1..], ts, e[1..])
    decreases |p|
  {
    EmbedsCons(p, ts, e);
    EmbedsInit(p, ts, e);
    var n := |p| - 1;
    if n == 0 {
      assert e == [e[0]] && p[..0] == [] && p[1..] == [];
      UsedCons(e[0], []);
      assert [e[0]] + [] == [e[0]];
    } else {
      SuffixesInitCons(p, ts, e);
    }
  }

  lemma EmbedsLength(p: seq<PatternNode>, ts: seq<Token>, e: seq<bool>)
    requires Embeds(p, ts, e)
    ensures |e| == |p|
  {}

  /** The tokens left without the last node, and the suffix that node adds. */
  ghost function TokensInit(ts: seq<Token>, used: bool): seq<Token>
    requires used ==> ts != []
  {
    if used then ts[..|ts| - 1] else ts
  }

  ghost function LastSuffix(node: PatternNode, ts: seq<Token>, used: bool): seq<int>
    requires used ==> ts != []
  {
    if used && node.suffixed then [ts[|ts| - 1].suffix] else []
  }

  lemma SuffixesLast(p: seq<PatternNode>, ts: seq<Token>, e: seq<bool>)
    requires Embeds(p, ts, e) && p != []
    ensures |e| == |p| && (e[|p| - 1] ==> ts != [])
    ensures var n := |p| - 1;
            && Embeds(p[..n], TokensInit(ts, e[n]), e[..n])
            && SuffixesOf(p, ts, e) == SuffixesOf(p[..n], TokensInit(ts, e[n]), e[..n]) + LastSuffix(p[n], ts, e[n])
  {
    EmbedsLength(p, ts, e);
    EmbedsInit(p, ts, e);
  }

  /** Taking the last node off and taking the first one off commute. */
  lemma {:induction false} SuffixesInitCons(p: seq<PatternNode>, ts: seq<Token>, e: seq<bool>)
    requires Embeds(p, ts, e) && |p| > 1
    requires e[0] ==> ts != [] && Embeds(p[1..], ts[1..], e[1..])
    requires !e[0] ==> Embeds(p[1..], ts, e[1..])
    ensures SuffixesOf(p, ts, e) ==
            if e[0] then (if p[0].suffixed then [ts[0].suffix] else []) + SuffixesOf(p[1..], ts[1..], e[1..])
            else SuffixesOf(p[1..], ts, e[1..])
    decreases |p|, 0
  {
    hide Embeds, Accepts, SuffixesOf;
    EmbedsLength(p, ts, e);
    var n, rest := |p| - 1, if e[0] then ts[1..] else ts;
    SuffixesLast(p, ts, e);
    SuffixesLast(p[1..], rest, e[1..]);
    SuffixesCons(p[..n], TokensInit(ts, e[n]), e[..n]);
    assert p[..n][1..] == p[1..][..n - 1] && e[..n][1..] == e[1..][..n - 1];
    assert e[1..][n - 1] == e[n] && p[1..][n - 1] == p[n];
    var own := if e[0] && p[0].suffixed then [ts[0].suffix] else [];
    var middle, last := SuffixesOf(p[1..][..n - 1], TokensInit(rest, e[n]), e[1..][..n - 1]), LastSuffix(p[n], ts, e[n]);
    if e[0] {
      assert e[n] ==> TokensInit(ts, e[n])[1..] == TokensInit(rest, e[n]) && rest[|rest| - 1] == ts[|ts| - 1];
    }
    assert own + middle + last == own + (middle + last);
  }

  /** The suffixes collected are those of the embedding found. */
  lemma {:induction false} CollectedIsSuffixes(p: seq<PatternNode>, ts: seq<Token>)
    requires Search(p, ts).Some?
    ensures Embeds(p, ts, Search(p, ts).value)
    ensures Collected(p, ts) == SuffixesOf(p, ts, Search(p, ts).value)
  {
    SearchSound(p, ts);
    if p != [] {
      var e := Search(p, ts).value;
      assert e[0] ==> e[1..] == Search(p[1..], ts[1..]).value;
      assert !e[0] ==> e[1..] == Search(p[1..], ts).value;
      if e[0] { CollectedIsSuffixes(p[1..], ts[1..]); } else { CollectedIsSuffixes(p[1..], ts); }
      SuffixesCons(p, ts, e);
    }
  }

  /** The matcher decides the language of the pattern, and reports the suffixes of the embedding
      that keeps every node present as early as possible. */
  lemma MatcherDecidesTheLanguage(p: seq<PatternNode>, ts: seq<Token>)
    ensures Match(p, ts).Some? <==> exists e :: Embeds(p, ts, e)
    ensures Match(p, ts).Some? ==>
              exists best :: Embeds(p, ts, best) && Match(p, ts).value == SuffixesOf(p, ts, best)
                && forall e :: Embeds(p, ts, e) ==> e == best || Before(best, e)
  {
    if Match(p, ts).Some? {
      CollectedIsSuffixes(p, ts);
      var best := Search(p, ts).value;
      forall e | Embeds(p, ts, e) ensures e == best || Before(best, e) {
        SearchComplete(p, ts, e);
      }
    }
    if e :| Embeds(p, ts, e) {
      SearchComplete(p, ts, e);
    }
  }

  lemma MatchStep(p: seq<PatternNode>, ts: seq<Token>)
    requires p != []
    ensures Match(p, ts) ==
            if ts != [] && Accepts(p[0], ts[0]) && Match(p[1..], ts[1..]).Some?
            then Some((if p[0].suffixed then [ts[0].suffix] else []) + Match(p[1..], ts[1..]).value)
            else if p[0].optional then Match(p[1..], ts)
            else None
  {}

  lemma MatchNothing(ts: seq<Token>)
    ensures Match([], ts) == if ts == [] then Some([]) else None
  {}

  /** A growable vector of suffixes, shared by all levels of the recursion. */
  class IntVector {
    var items: seq<int>

    constructor ()
      ensures items == []
    {
      items := [];
    }

    method PushBack(x: int)
      modifies this
      ensures items == old(items) + [x]
    {
      items := items + [x];
    }

    method Resize(n: nat)
      requires n <= |items|
      modifies this
      ensures items == old(items)[..n]
    {
      items := items[..n];
    }
  }

  /** Matches the tokens from `ti` on against the pattern from `pi` on. On failure the vector is as it was. */
  method MatchPattern(pattern: seq<PatternNode>, pi: nat, tokens: seq<Token>, ti: nat, suffixes: IntVector)
    returns (matched: bool)
    requires pi <= |pattern| && ti <= |tokens|
    modifies suffixes
    ensures matched <==> Match(pattern[pi..], tokens[ti..]).Some?
    ensures suffixes.items == old(suffixes.items) + (if matched then Match(pattern[pi..], tokens[ti..]).value else [])
    decreases |pattern| - pi
  {
    hide Match, Accepts;
    if pi == |pattern| {
      MatchNothing(tokens[ti..]);
      return ti == |tokens|;
    }
    var node := pattern[pi];
    MatchStep(pattern[pi..], tokens[ti..]);
    assert pattern[pi..][1..] == pattern[pi + 1..];
    if ti < |tokens| {
      assert tokens[ti..][0] == tokens[ti] && tokens[ti..][1..] == tokens[ti + 1..];
      var accepts := NodeAccepts(node, tokens[ti]);
      if accepts {
        var depth := |suffixes.items|;
        ghost var own := if node.suffixed then [tokens[ti].suffix] else [];
        if node.suffixed {
          suffixes.PushBack(tokens[ti].suffix);
        }
        assert suffixes.items == old(suffixes.items) + own;
        matched := MatchPattern(pattern, pi + 1, tokens, ti + 1, suffixes);
        if matched {
          return true;
        }
        suffixes.Resize(depth);
        assert suffixes.items == old(suffixes.items);
      }
    }
    if node.optional {
      matched := MatchPattern(pattern, pi + 1, tokens, ti, suffixes);
      return;
    }
    return false;
  }
}
