/** The textual form of a header pattern, such as "[SENSe]:VOLTage#:[AC|DC]:RANGe:[UPPer]", and its compilation. */
module PatternText {
  import opened Text
  import opened Pattern

  // --------------------------------------------------------------- compilation

  predicate Marked(alternative: string) {
    alternative != "" && alternative[|alternative| - 1] == '#'
  }

  function Unmarked(alternative: string): string {
    if Marked(alternative) then alternative[..|alternative| - 1] else alternative
  }

  function UnmarkedAll(xs: seq<string>): (r: seq<string>)
    ensures |r| == |xs|
    ensures forall i :: 0 <= i < |xs| ==> r[i] == Unmarked(xs[i])
  {
    seq(|xs|, i requires 0 <= i < |xs| => Unmarked(xs[i]))
  }

  predicate Bracketed(node: string) {
    node != "" && node[0] == '[' && node[|node| - 1] == ']'
  }

  function Unbracketed(node: string): string {
    if Bracketed(node) then node[1..|node| - 1] else node
  }

  function CompileNode(node: string): PatternNode {
    var alternatives := Split(Outside, Unbracketed(node), '|');
    PatternNode(UnmarkedAll(alternatives), Bracketed(node), exists i :: 0 <= i < |alternatives| && Marked(alternatives[i]))
  }

  function CompileNodes(raw: seq<string>): (r: seq<PatternNode>)
    ensures |r| == |raw|
    ensures forall i :: 0 <= i < |raw| ==> r[i] == CompileNode(Trim(raw[i]))
  {
    seq(|raw|, i requires 0 <= i < |raw| => CompileNode(Trim(raw[i])))
  }

  function Compile(pattern: string): seq<PatternNode> {
    CompileNodes(Split(Outside, pattern, ':'))
  }

  lemma UnmarkedAppend(xs: seq<string>, k: nat)
    requires k < |xs|
    ensures UnmarkedAll(xs[..k + 1]) == UnmarkedAll(xs[..k]) + [Unmarked(xs[k])]
  {}

  lemma CompileNodesAppend(raw: seq<string>, i: nat)
    requires i < |raw|
    ensures CompileNodes(raw[..i + 1]) == CompileNodes(raw[..i]) + [CompileNode(Trim(raw[i]))]
  {}

  /** The body of the outer loop: one node between colons. */
  method CompileOne(text: string) returns (compiled: PatternNode)
    ensures compiled == CompileNode(text)
  {
    hide Split;
    var node := text;
    var optional := false;
    if node != "" && node[0] == '[' && node[|node| - 1] == ']' {
      optional := true;
      node := node[1..|node| - 1];
    }
    assert node == Unbracketed(text);
    var mnemonics, suffixed := [], false;
    var alternatives := SplitUnquoted(node, '|');
    for k := 0 to |alternatives|
      invariant mnemonics == UnmarkedAll(alternatives[..k])
      invariant suffixed <==> exists m :: 0 <= m < k && Marked(alternatives[m])
    {
      var alternative := alternatives[k];
      UnmarkedAppend(alternatives, k);
      if alternative != "" && alternative[|alternative| - 1] == '#' {
        suffixed := true;
        alternative := alternative[..|alternative| - 1];
      }
      mnemonics := mnemonics + [alternative];
    }
    assert alternatives[..|alternatives|] == alternatives;
    compiled := PatternNode(mnemonics, optional, suffixed);
  }

  method CompilePattern(pattern: string) returns (nodes: seq<PatternNode>)
    ensures nodes == Compile(pattern)
  {
    nodes := [];
    var raw := SplitUnquoted(pattern, ':');
    for i := 0 to |raw|
      invariant nodes == CompileNodes(raw[..i])
    {
      CompileNodesAppend(raw, i);
      var compiled := CompileOne(Trim(raw[i]));
      nodes := nodes + [compiled];
    }
    assert raw[..|raw|] == raw;
  }

  // ------------------------------------------------------------------- writing

  /** One alternative as it is written: the mnemonic, and whether it is followed by '#'. */
  datatype Alternative = Alternative(mnemonic: string, marked: bool)

  datatype WrittenNode = WrittenNode(alternatives: seq<Alternative>, optional: bool)

  predicate IsWord(s: string) {
    forall i :: 0 <= i < |s| ==> IsDigit(s[i]) || IsUpper(ToUpper(s[i]))
  }

  predicate WellWritten(node: WrittenNode) {
    |node.alternatives| >= 1 && forall i :: 0 <= i < |node.alternatives| ==> IsWord(node.alternatives[i].mnemonic)
  }

  /** What a written node means: the marks of its alternatives add up. */
  function Meaning(node: WrittenNode): PatternNode {
    PatternNode(seq(|node.alternatives|, i requires 0 <= i < |node.alternatives| => node.alternatives[i].mnemonic),
                node.optional,
                exists i :: 0 <= i < |node.alternatives| && node.alternatives[i].marked)
  }

  function WriteAlternative(a: Alternative): string {
    if a.marked then a.mnemonic + ['#'] else a.mnemonic
  }

  function WriteAlternatives(xs: seq<Alternative>): (r: seq<string>)
    ensures |r| == |xs|
    ensures forall i :: 0 <= i < |xs| ==> r[i] == WriteAlternative(xs[i])
  {
    seq(|xs|, i requires 0 <= i < |xs| => WriteAlternative(xs[i]))
  }

  function WriteNode(node: WrittenNode): string {
    var inner := Join(WriteAlternatives(node.alternatives), '|');
    if node.optional then ['['] + inner + [']'] else inner
  }

  function WriteNodes(nodes: seq<WrittenNode>): (r: seq<string>)
    ensures |r| == |nodes|
    ensures forall i :: 0 <= i < |nodes| ==> r[i] == WriteNode(nodes[i])
  {
    seq(|nodes|, i requires 0 <= i < |nodes| => WriteNode(nodes[i]))
  }

  function Write(nodes: seq<WrittenNode>): string {
    Join(WriteNodes(nodes), ':')
  }

  /** A character that occurs inside a written node. */
  predicate NodeChar(c: char) {
    IsDigit(c) || IsUpper(ToUpper(c)) || c == '#' || c == '|' || c == '[' || c == ']'
  }

  predicate NodeText(s: string) {
    forall i :: 0 <= i < |s| ==> NodeChar(s[i])
  }

  lemma {:induction false} JoinIsNodeText(parts: seq<string>)
    requires forall i :: 0 <= i < |parts| ==> NodeText(parts[i])
    ensures NodeText(Join(parts, '|'))
  {
    if |parts| > 1 {
      JoinIsNodeText(parts[1..]);
    }
  }

  lemma {:induction false} JoinStart(parts: seq<string>, c: char)
    requires |parts| >= 1 && c != '|'
    requires forall i :: 0 <= i < |parts| ==> parts[i] == "" || parts[i][0] != c
    ensures Join(parts, '|') == "" || Join(parts, '|')[0] != c
  {}

  lemma AlternativeText(a: Alternative)
    requires IsWord(a.mnemonic)
    ensures FreeOf(Outside, WriteAlternative(a), '|') && Scan(Outside, WriteAlternative(a)) == Outside
    ensures NodeText(WriteAlternative(a)) && (WriteAlternative(a) == "" || WriteAlternative(a)[0] != '[')
    ensures Unmarked(WriteAlternative(a)) == a.mnemonic && Marked(WriteAlternative(a)) == a.marked
  {
    PlainText(WriteAlternative(a), '|');
  }

  lemma AlternativesRoundTrip(node: WrittenNode)
    requires WellWritten(node)
    ensures var parts := WriteAlternatives(node.alternatives);
            var inner := Join(parts, '|');
            && NodeText(inner) && (inner == "" || inner[0] != '[')
            && Split(Outside, inner, '|') == parts
            && UnmarkedAll(parts) == Meaning(node).mnemonics
            && forall i :: 0 <= i < |parts| ==> Marked(parts[i]) == node.alternatives[i].marked
  {
    var parts := WriteAlternatives(node.alternatives);
    forall i | 0 <= i < |parts|
      ensures FreeOf(Outside, parts[i], '|') && Scan(Outside, parts[i]) == Outside && NodeText(parts[i])
      ensures parts[i] == "" || parts[i][0] != '['
      ensures Unmarked(parts[i]) == node.alternatives[i].mnemonic && Marked(parts[i]) == node.alternatives[i].marked
    {
      AlternativeText(node.alternatives[i]);
    }
    SplitOfJoin(parts, '|');
    JoinIsNodeText(parts);
    JoinStart(parts, '[');
  }

  lemma NodeTextIsTrimmed(text: string)
    requires NodeText(text)
    ensures Trim(text) == text
  {
    TrimOfTrimmed(text);
  }

  lemma NodeRoundTrip(node: WrittenNode)
    requires WellWritten(node)
    ensures NodeText(WriteNode(node)) && Trim(WriteNode(node)) == WriteNode(node)
    ensures CompileNode(WriteNode(node)) == Meaning(node)
  {
    AlternativesRoundTrip(node);
    var text := WriteNode(node);
    NodeTextIsTrimmed(text);
    assert Bracketed(text) == node.optional;
    assert Unbracketed(text) == Join(WriteAlternatives(node.alternatives), '|');
  }

  /** Compiling a written pattern gives back exactly the nodes that were written. */
  lemma CompileUndoesWrite(nodes: seq<WrittenNode>)
    requires |nodes| >= 1 && forall i :: 0 <= i < |nodes| ==> WellWritten(nodes[i])
    ensures |Compile(Write(nodes))| == |nodes|
    ensures forall i :: 0 <= i < |nodes| ==> Compile(Write(nodes))[i] == Meaning(nodes[i])
  {
    var texts := WriteNodes(nodes);
    forall i | 0 <= i < |nodes|
      ensures FreeOf(Outside, texts[i], ':') && Scan(Outside, texts[i]) == Outside
      ensures CompileNode(Trim(texts[i])) == Meaning(nodes[i])
    {
      NodeRoundTrip(nodes[i]);
      PlainText(texts[i], ':');
    }
    SplitOfJoin(texts, ':');
  }
}
