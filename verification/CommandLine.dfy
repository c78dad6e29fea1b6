/** What one command line does: its pieces in order, each header continuing on the shared path
    the piece before it left, until a piece fails. */
module CommandLine {
  import opened Wrappers
  import opened Text
  import opened Pattern
  import opened Commands
  import opened Headers
  import opened Instrument
  import opened Effects

  // ---------------------------------------------------------------------- one piece

  /** Where the header ends: at the first white space outside a quoted string. */
  function HeaderEnd(q: Quote, s: string): (n: nat)
    ensures n <= |s|
    decreases s
  {
    if s == "" || (q.Outside? && IsSpace(s[0])) then 0 else 1 + HeaderEnd(Advance(q, s[0]), s[1..])
  }

  method FindHeaderEnd(text: string) returns (split: nat)
    ensures split == HeaderEnd(Outside, text)
  {
    var quote := Outside;
    split := 0;
    while split < |text|
      invariant split <= |text|
      invariant HeaderEnd(Outside, text) == split + HeaderEnd(quote, text[split..])
    {
      var c := text[split];
      assert text[split..][0] == c && text[split..][1..] == text[split + 1..];
      if quote.Inside? {
        if c == quote.mark { quote := Outside; }
      } else if IsQuote(c) {
        quote := Inside(c);
      } else if IsSpace(c) {
        return;
      }
      split := split + 1;
    }
  }

  /** A piece as written: its header without the question mark, and its trimmed parameters. */
  datatype Piece = Piece(header: string, query: bool, args: seq<string>)

  function PieceOf(text: string): Piece {
    var n := HeaderEnd(Outside, text);
    Assembled(text[..n], if n < |text| then Trim(text[n + 1..]) else "")
  }

  function Assembled(header: string, parameters: string): Piece {
    var query := header != "" && header[|header| - 1] == '?';
    Piece(if query then header[..|header| - 1] else header, query,
          if parameters == "" then [] else TrimAll(Split(Outside, parameters, ',')))
  }

  predicate IsCommon(header: string) { header != "" && header[0] == '*' }

  predicate IsAbsolute(header: string) { header != "" && header[0] == ':' }

  function HeaderNodes(header: string): (nodes: seq<string>)
    ensures |nodes| >= 1
  {
    Split(Outside, if IsAbsolute(header) then header[1..] else header, ':')
  }

  /** A piece that selects a command, or one whose header is not known. */
  datatype Request = Known(command: Command) | Unknown(echo: string)

  function CommonRequest(text: string): Request {
    var p := PieceOf(text);
    match CommonKeyOf(Upper(p.header))
    case None => Unknown(text)
    case Some(key) => Known(Command(Common(key), [], p.query, p.args))
  }

  function HeaderTokens(header: string, path: seq<Token>): (ts: seq<Token>)
    ensures |ts| >= 1
  {
    (if IsAbsolute(header) then [] else path) + TokensOf(HeaderNodes(header))
  }

  function RequestFor(specs: seq<CommandSpec>, text: string, path: seq<Token>): Request {
    var p := PieceOf(text);
    if IsCommon(p.header) then CommonRequest(text)
    else
      match Dispatch(specs, HeaderTokens(p.header, path))
      case None => Unknown(text)
      case Some(selected) => Known(Command(selected.key, selected.suffixes, p.query, p.args))
  }

  /** The level the next piece continues at: one above this one. Common commands leave it alone. */
  function NextPath(text: string, path: seq<Token>): seq<Token> {
    PathAfter(PieceOf(text).header, path)
  }

  function PathAfter(header: string, path: seq<Token>): seq<Token> {
    if IsCommon(header) then path
    else WithoutLast(HeaderTokens(header, path))
  }

  function WithoutLast<T>(s: seq<T>): seq<T>
    requires |s| >= 1
  {
    s[..|s| - 1]
  }

  function Perform(w: World, s: State, r: Request): Effect {
    match r
    case Known(command) => EffectOf(w, s, command)
    case Unknown(echo) => Undefined(echo)
  }

  /** Anything that answers requests the way an instrument does: what the reading of a line depends on. */
  datatype Machine = Machine(specs: seq<CommandSpec>, perform: (State, Request) -> Effect)

  function Simulator(w: World): Machine { Machine(w.specs, (s, r) => Perform(w, s, r)) }

  // ----------------------------------------------------------------------- one line

  datatype Ending = Completed | Stopped | Hung

  datatype Outcome = Outcome(state: State, responses: seq<string>, ending: Ending)

  function Listed(response: Option<string>): seq<string> {
    match response
    case None => []
    case Some(text) => [text]
  }

  function RunPieces(m: Machine, s: State, pieces: seq<string>, path: seq<Token>): Outcome
    decreases |pieces|
  {
    if pieces == [] then Outcome(s, [], Completed)
    else
      var text := Trim(pieces[0]);
      if text == "" then RunPieces(m, s, pieces[1..], path)
      else
        match m.perform(s, RequestFor(m.specs, text, path))
        case Hang => Outcome(s, [], Hung)
        case Reject(code, message) => Outcome(PushError(s, code, message), [], Stopped)
        case Done(after, response) =>
          var rest := RunPieces(m, after, pieces[1..], NextPath(text, path));
          rest.(responses := Listed(response) + rest.responses)
  }

  function RunLine(m: Machine, s: State, line: string): Outcome {
    RunPieces(m, s, Split(Outside, line, ';'), [])
  }

  /** The responses of a line's queries in order, separated by semicolons; none when there are none. */
  function Response(o: Outcome): Option<string> {
    if o.responses == [] then None else Some(Join(o.responses, ';'))
  }

  /** An outcome with responses given before it. */
  function Prepend(responses: seq<string>, o: Outcome): Outcome {
    o.(responses := responses + o.responses)
  }

  /** What the first of the remaining pieces contributes. */
  lemma PrependStep(m: Machine, s: State, pieces: seq<string>, path: seq<Token>, given: seq<string>, effect: Effect)
    requires pieces != [] && Trim(pieces[0]) != ""
    requires effect == m.perform(s, RequestFor(m.specs, Trim(pieces[0]), path))
    ensures var whole := Prepend(given, RunPieces(m, s, pieces, path));
            && (effect.Hang? ==> whole.ending.Hung?)
            && (effect.Reject? ==> whole == Outcome(PushError(s, effect.code, effect.message), given, Stopped))
            && (effect.Done? ==> whole == Prepend(given + Listed(effect.response),
                                                  RunPieces(m, effect.state, pieces[1..], NextPath(Trim(pieces[0]), path))))
  {
    hide RequestFor, NextPath, PushError;
    if effect.Done? {
      var rest := RunPieces(m, effect.state, pieces[1..], NextPath(Trim(pieces[0]), path));
      assert given + (Listed(effect.response) + rest.responses) == given + Listed(effect.response) + rest.responses;
    } else {
      assert given + [] == given;
    }
  }

  /** Blank pieces contribute nothing, and no pieces leave what was given. */
  lemma PrependNothing(m: Machine, s: State, pieces: seq<string>, path: seq<Token>, given: seq<string>)
    ensures pieces == [] ==> Prepend(given, RunPieces(m, s, pieces, path)) == Outcome(s, given, Completed)
    ensures pieces != [] && Trim(pieces[0]) == "" ==> RunPieces(m, s, pieces, path) == RunPieces(m, s, pieces[1..], path)
  {
    assert given + [] == given;
  }

  // ----------------------------------------------------- several lines, one after another

  /** Runs lines until one fails. */
  function RunLines(m: Machine, s: State, lines: seq<string>): Outcome
    decreases |lines|
  {
    if lines == [] then Outcome(s, [], Completed)
    else
      var first := RunLine(m, s, lines[0]);
      if !first.ending.Completed? then first.(responses := Listed(Response(first)))
      else
        var rest := RunLines(m, first.state, lines[1..]);
        rest.(responses := Listed(Response(first)) + rest.responses)
  }

  /** The same piece with its header written out from the root, given the nodes of the shared path. */
  function Absolute(text: string, nodes: seq<string>): string {
    var header := PieceOf(text).header;
    if IsCommon(header) || IsAbsolute(header) then text else Rooted(nodes) + text
  }

  function Rooted(nodes: seq<string>): string { [':'] + Prefix(nodes) }

  function Prefix(nodes: seq<string>): string {
    if nodes == [] then "" else nodes[0] + [':'] + Prefix(nodes[1..])
  }

  function NextNodes(text: string, nodes: seq<string>): seq<string> {
    NodesAfter(PieceOf(text).header, nodes)
  }

  function NodesAfter(header: string, nodes: seq<string>): seq<string> {
    if IsCommon(header) then nodes
    else if IsAbsolute(header) then WithoutLast(HeaderNodes(header))
    else WithoutLast(nodes + HeaderNodes(header))
  }

  /** One line per piece, every header absolute. */
  function Expand(pieces: seq<string>, nodes: seq<string>): seq<string> {
    if pieces == [] then []
    else
      var text := Trim(pieces[0]);
      if text == "" then Expand(pieces[1..], nodes)
      else [Absolute(text, nodes)] + Expand(pieces[1..], NextNodes(text, nodes))
  }

  /** Equal, or equal but for the text echoed in the message of a final "Undefined header" entry. */
  ghost predicate SameButEcho(a: State, b: State) {
    || a == b
    || (&& |a.errors| == |b.errors| > 0
        && a.(errors := b.errors) == b
        && a.errors[..|a.errors| - 1] == b.errors[..|b.errors| - 1]
        && Last(a.errors).code == Last(b.errors).code == UNDEFINED_HEADER)
  }

  // -------------------------------------------------------------- unquoted characters

  /** No character of `stops` occurs outside the quoted strings. */
  predicate Free(q: Quote, s: string, stops: set<char>)
    decreases s
  {
    s == "" || (!(q.Outside? && !IsQuote(s[0]) && s[0] in stops) && Free(Advance(q, s[0]), s[1..], stops))
  }

  const SPACES: set<char> := {' ', '\t', '\n', '\r', '\U{0B}', '\U{0C}'}

  lemma {:induction false} FreeIsFreeOf(q: Quote, s: string, separator: char)
    ensures Free(q, s, {separator}) <==> FreeOf(q, s, separator)
    decreases s
  {
    if s != "" { FreeIsFreeOf(Advance(q, s[0]), s[1..], separator); }
  }

  lemma {:induction false} FreeConcat(q: Quote, a: string, b: string, stops: set<char>)
    ensures Free(q, a + b, stops) <==> Free(q, a, stops) && Free(Scan(q, a), b, stops)
    decreases a
  {
    if a == "" {
      assert a + b == b;
    } else {
      assert (a + b)[1..] == a[1..] + b;
      FreeConcat(Advance(q, a[0]), a[1..], b, stops);
    }
  }

  /** The pieces of a split hold no stops that the whole did not hold. */
  lemma {:induction false} SplitKeepsFree(q: Quote, s: string, separator: char, stops: set<char>)
    requires Free(q, s, stops)
    ensures var parts := Split(q, s, separator);
            Free(q, parts[0], stops) && forall i :: 1 <= i < |parts| ==> Free(Outside, parts[i], stops)
    decreases s
  {
    if s != "" {
      if Separates(q, s[0], separator) {
        var rest := Split(Outside, s[1..], separator);
        SplitKeepsFree(Outside, s[1..], separator, stops);
        assert Split(q, s, separator) == [""] + rest;
      } else {
        var rest := Split(Advance(q, s[0]), s[1..], separator);
        SplitKeepsFree(Advance(q, s[0]), s[1..], separator, stops);
        assert Split(q, s, separator) == Glue([s[0]], rest);
        assert ([s[0]] + rest[0])[1..] == rest[0];
      }
    }
  }

  lemma {:induction false} HeaderIsSpaceless(q: Quote, s: string)
    ensures Free(q, s[..HeaderEnd(q, s)], SPACES)
    decreases s
  {
    var n := HeaderEnd(q, s);
    if n > 0 {
      HeaderIsSpaceless(Advance(q, s[0]), s[1..]);
      assert s[..n][1..] == s[1..][..n - 1];
    }
  }

  /** A closed prefix without unquoted white space shifts the end of the header. */
  lemma {:induction false} HeaderEndShift(q: Quote, a: string, b: string)
    requires Free(q, a, SPACES)
    ensures HeaderEnd(q, a + b) == |a| + HeaderEnd(Scan(q, a), b)
    decreases a
  {
    if a == "" {
      assert a + b == b;
    } else {
      assert (a + b)[1..] == a[1..] + b;
      HeaderEndShift(Advance(q, a[0]), a[1..], b);
    }
  }

  // ------------------------------------------------------------------- shared paths

  /** Nodes that can be written in front of a header without changing how it is read. */
  ghost predicate PathNode(node: string) {
    && FreeOf(Outside, node, ':') && FreeOf(Outside, node, ';') && Free(Outside, node, SPACES)
    && Scan(Outside, node) == Outside
  }

  ghost predicate PathNodes(nodes: seq<string>) {
    forall i :: 0 <= i < |nodes| ==> PathNode(nodes[i])
  }

  lemma {:induction false} PrefixIsClosed(nodes: seq<string>)
    requires PathNodes(nodes)
    ensures Scan(Outside, Prefix(nodes)) == Outside
    ensures FreeOf(Outside, Prefix(nodes), ';') && Free(Outside, Prefix(nodes), SPACES)
  {
    if nodes != [] {
      PrefixIsClosed(nodes[1..]);
      var head := nodes[0] + [':'];
      assert Prefix(nodes) == head + Prefix(nodes[1..]);
      ScanConcat(Outside, nodes[0], [':']);
      ScanConcat(Outside, head, Prefix(nodes[1..]));
      FreeOfConcat(Outside, nodes[0], [':'], ';');
      FreeOfConcat(Outside, head, Prefix(nodes[1..]), ';');
      FreeConcat(Outside, nodes[0], [':'], SPACES);
      FreeConcat(Outside, head, Prefix(nodes[1..]), SPACES);
    }
  }

  lemma {:induction false} SplitPrefixNodes(nodes: seq<string>, header: string)
    requires PathNodes(nodes)
    ensures Split(Outside, Prefix(nodes) + header, ':') == nodes + Split(Outside, header, ':')
  {
    if nodes == [] {
      assert Prefix(nodes) + header == header;
    } else {
      SplitPrefixNodes(nodes[1..], header);
      assert Prefix(nodes) + header == nodes[0] + [':'] + (Prefix(nodes[1..]) + header);
      SplitOff(nodes[0], Prefix(nodes[1..]) + header, ':');
    }
  }

  lemma TokensOfConcat(a: seq<string>, b: seq<string>)
    ensures TokensOf(a + b) == TokensOf(a) + TokensOf(b)
  {}

  lemma RootedIsClosed(nodes: seq<string>)
    requires PathNodes(nodes)
    ensures Scan(Outside, Rooted(nodes)) == Outside
    ensures FreeOf(Outside, Rooted(nodes), ';') && Free(Outside, Rooted(nodes), SPACES)
  {
    PrefixIsClosed(nodes);
    ScanConcat(Outside, [':'], Prefix(nodes));
    FreeOfConcat(Outside, [':'], Prefix(nodes), ';');
    FreeConcat(Outside, [':'], Prefix(nodes), SPACES);
  }

  /** Moving a prefix in front of a text moves the cut at `n` along. */
  lemma CutShift(prefix: string, text: string, n: nat)
    requires 1 <= n <= |text|
    ensures (prefix + text)[..|prefix| + n] == prefix + text[..n]
    ensures n < |text| ==> (prefix + text)[|prefix| + n + 1..] == text[n + 1..]
  {}

  lemma DropLastOfConcat(prefix: string, header: string)
    requires header != ""
    ensures (prefix + header)[|prefix + header| - 1] == header[|header| - 1]
    ensures (prefix + header)[..|prefix + header| - 1] == prefix + header[..|header| - 1]
  {}

  /** Writing a relative header out from the root leaves the piece the same otherwise. */
  lemma AbsolutePiece(text: string, nodes: seq<string>)
    requires text != "" && !IsSpace(text[0]) && PathNodes(nodes)
    ensures PieceOf(Rooted(nodes) + text) == PieceOf(text).(header := Rooted(nodes) + PieceOf(text).header)
  {
    RootedIsClosed(nodes);
    ShiftedPiece(Rooted(nodes), text);
  }

  lemma HeaderIsNotEmpty(text: string)
    requires text != "" && !IsSpace(text[0])
    ensures HeaderEnd(Outside, text) >= 1
  {}

  lemma ShiftedHeader(prefix: string, header: string, parameters: string)
    requires header != ""
    ensures Assembled(prefix + header, parameters) ==
            Assembled(header, parameters).(header := prefix + Assembled(header, parameters).header)
  {
    hide Split, TrimAll;
    DropLastOfConcat(prefix, header);
  }

  lemma ShiftedPiece(prefix: string, text: string)
    requires text != "" && !IsSpace(text[0])
    requires Scan(Outside, prefix) == Outside && Free(Outside, prefix, SPACES)
    ensures PieceOf(prefix + text) == PieceOf(text).(header := prefix + PieceOf(text).header)
  {
    hide HeaderEnd, Trim, Scan, Free, Assembled;
    HeaderEndShift(Outside, prefix, text);
    HeaderIsNotEmpty(text);
    var n := HeaderEnd(Outside, text);
    CutShift(prefix, text, n);
    ShiftedHeader(prefix, text[..n], if n < |text| then Trim(text[n + 1..]) else "");
  }

  lemma RootedTokens(header: string, nodes: seq<string>)
    requires PathNodes(nodes) && !IsAbsolute(header)
    ensures HeaderTokens(Rooted(nodes) + header, []) == HeaderTokens(header, TokensOf(nodes))
    ensures !IsCommon(Rooted(nodes) + header)
  {
    var rooted := Rooted(nodes) + header;
    assert Rooted(nodes)[0] == ':';
    assert rooted[0] == ':' && !IsCommon(rooted);
    assert rooted[1..] == Prefix(nodes) + header;
    SplitPrefixNodes(nodes, header);
    TokensOfConcat(nodes, HeaderNodes(header));
  }

  lemma AbsoluteRequest(specs: seq<CommandSpec>, text: string, nodes: seq<string>)
    requires text != "" && !IsSpace(text[0]) && PathNodes(nodes)
    ensures var here, there := RequestFor(specs, text, TokensOf(nodes)), RequestFor(specs, Absolute(text, nodes), []);
            here == there || (here == Unknown(text) && there == Unknown(Absolute(text, nodes)))
  {
    var header := PieceOf(text).header;
    if !IsCommon(header) {
      if !IsAbsolute(header) {
        AbsolutePiece(text, nodes);
        RootedTokens(header, nodes);
      }
    }
  }

  lemma {:induction false} FreePrefix(q: Quote, s: string, n: nat, stops: set<char>)
    requires Free(q, s, stops) && n <= |s|
    ensures Free(q, s[..n], stops)
    decreases s
  {
    if n > 0 {
      FreePrefix(Advance(q, s[0]), s[1..], n - 1, stops);
      assert s[..n][1..] == s[1..][..n - 1];
    }
  }

  /** The nodes of a header, all but the last, can serve as a shared path. */
  lemma HeaderNodesArePathNodes(text: string)
    requires FreeOf(Outside, text, ';')
    ensures PathNodes(WithoutLast(HeaderNodes(PieceOf(text).header)))
  {
    var n := HeaderEnd(Outside, text);
    var header := PieceOf(text).header;
    HeaderIsSpaceless(Outside, text);
    FreeIsFreeOf(Outside, text, ';');
    FreePrefix(Outside, text, n, {';'});
    FreePrefix(Outside, text[..n], |header|, {';'});
    FreePrefix(Outside, text[..n], |header|, SPACES);
    assert text[..n][..|header|] == header;
    var body := if IsAbsolute(header) then header[1..] else header;
    assert Free(Outside, body, {';'}) && Free(Outside, body, SPACES);
    SplitKeepsFree(Outside, body, ':', {';'});
    SplitKeepsFree(Outside, body, ':', SPACES);
    SplitSeparates(body, ':');
    var nodes := HeaderNodes(header);
    forall i | 0 <= i < |nodes| - 1 ensures PathNode(nodes[i]) {
      FreeIsFreeOf(Outside, nodes[i], ';');
    }
  }

  lemma NextNodesArePathNodes(text: string, nodes: seq<string>)
    requires FreeOf(Outside, text, ';') && PathNodes(nodes)
    ensures PathNodes(NextNodes(text, nodes))
    ensures TokensOf(NextNodes(text, nodes)) == NextPath(text, TokensOf(nodes))
  {
    HeaderNodesArePathNodes(text);
    NodesAfterArePathNodes(PieceOf(text).header, nodes);
  }

  lemma NodesAfterArePathNodes(header: string, nodes: seq<string>)
    requires PathNodes(nodes) && PathNodes(WithoutLast(HeaderNodes(header)))
    ensures PathNodes(NodesAfter(header, nodes))
    ensures TokensOf(NodesAfter(header, nodes)) == PathAfter(header, TokensOf(nodes))
  {
    var own := HeaderNodes(header);
    ClimbFrom([], own);
    ClimbFrom(nodes, own);
    assert [] + own == own && [] + TokensOf(own) == TokensOf(own);
  }

  lemma ClimbFrom(front: seq<string>, own: seq<string>)
    requires |own| >= 1
    ensures PathNodes(front) && PathNodes(WithoutLast(own)) ==> PathNodes(WithoutLast(front + own))
    ensures TokensOf(WithoutLast(front + own)) == WithoutLast(TokensOf(front) + TokensOf(own))
  {
    assert WithoutLast(front + own) == front + WithoutLast(own);
    TokensOfConcat(front, own);
  }

  lemma {:induction false} TrimKeepsFree(q: Quote, s: string, separator: char)
    requires q.Outside? && FreeOf(q, s, separator)
    ensures FreeOf(q, Trim(s), separator)
  {
    TrimLeftKeepsFree(s, separator);
    TrimRightKeepsFree(TrimLeft(s), separator);
  }

  lemma {:induction false} TrimLeftKeepsFree(s: string, separator: char)
    requires FreeOf(Outside, s, separator)
    ensures FreeOf(Outside, TrimLeft(s), separator)
  {
    if s != "" && IsSpace(s[0]) { TrimLeftKeepsFree(s[1..], separator); }
  }

  lemma {:induction false} TrimRightKeepsFree(s: string, separator: char)
    requires FreeOf(Outside, s, separator)
    ensures FreeOf(Outside, TrimRight(s), separator)
  {
    FreeIsFreeOf(Outside, s, separator);
    FreePrefix(Outside, s, |TrimRight(s)|, {separator});
    assert s[..|TrimRight(s)|] == TrimRight(s);
    FreeIsFreeOf(Outside, TrimRight(s), separator);
  }

  /** A line of one absolute piece runs just that piece. */
  lemma SinglePiece(m: Machine, s: State, text: string, nodes: seq<string>)
    requires text != "" && Trimmed(text) && FreeOf(Outside, text, ';') && PathNodes(nodes)
    ensures var line := Absolute(text, nodes);
            RunLine(m, s, line) == RunPieces(m, s, [line], []) && Trim(line) == line != ""
  {
    var line := Absolute(text, nodes);
    if line != text {
      RootedIsClosed(nodes);
      assert line[0] == ':' && line[|line| - 1] == text[|text| - 1];
      FreeOfConcat(Outside, Rooted(nodes), text, ';');
    }
    TrimOfTrimmed(line);
    SplitFree(line, ';');
  }

  lemma PushErrorEcho(s: State, a: string, b: string)
    ensures SameButEcho(PushError(s, UNDEFINED_HEADER, a), PushError(s, UNDEFINED_HEADER, b))
  {
    var x, y := PushError(s, UNDEFINED_HEADER, a), PushError(s, UNDEFINED_HEADER, b);
    if |s.errors| < QUEUE_CAPACITY {
      assert x.errors[..|x.errors| - 1] == s.errors == y.errors[..|y.errors| - 1];
    }
  }

  function EffectOutcome(s: State, effect: Effect): Outcome {
    match effect
    case Hang => Outcome(s, [], Hung)
    case Reject(code, message) => Outcome(PushError(s, code, message), [], Stopped)
    case Done(after, response) => Outcome(after, Listed(response), Completed)
  }

  /** What a line of one piece does, as the effect of its request. */
  lemma OnePieceOutcome(m: Machine, s: State, line: string)
    requires Trim(line) == line != ""
    ensures RunPieces(m, s, [line], []) ==
            EffectOutcome(s, m.perform(s, RequestFor(m.specs, line, [])))
  {
    var effect := m.perform(s, RequestFor(m.specs, line, []));
    assert [line][1..] == [];
    if effect.Done? {
      assert Listed(effect.response) + [] == Listed(effect.response);
    }
  }

  lemma ListedResponse(s: State, response: Option<string>, ending: Ending)
    ensures Listed(Response(Outcome(s, Listed(response), ending))) == Listed(response)
  {}

  /** A machine that rejects a header it does not know, as the source does. */
  ghost predicate RejectsUnknown(m: Machine) {
    forall s, echo :: m.perform(s, Unknown(echo)) == Undefined(echo)
  }

  ghost predicate Agree(together: Outcome, apart: Outcome) {
    && together.responses == apart.responses
    && together.ending == apart.ending
    && SameButEcho(together.state, apart.state)
  }

  /** The first piece of a line against the first of the expanded lines. */
  lemma FirstPieceAgrees(m: Machine, s: State, pieces: seq<string>, nodes: seq<string>)
    requires RejectsUnknown(m) && PathNodes(nodes) && pieces != []
    requires FreeOf(Outside, pieces[0], ';') && Trim(pieces[0]) != ""
    ensures var text := Trim(pieces[0]);
            var effect := m.perform(s, RequestFor(m.specs, text, TokensOf(nodes)));
            var apart := RunLine(m, s, Absolute(text, nodes));
            && Agree(EffectOutcome(s, effect), apart)
            && Listed(Response(apart)) == apart.responses
            && (effect.Done? ==> apart == EffectOutcome(s, effect))
  {
    hide RequestFor, PushError, FreeOf, PathNodes, Absolute, Trim, RunPieces;
    var text := Trim(pieces[0]);
    TrimKeepsFree(Outside, pieces[0], ';');
    AbsoluteRequest(m.specs, text, nodes);
    SinglePiece(m, s, text, nodes);
    OnePieceOutcome(m, s, Absolute(text, nodes));
    var effect := m.perform(s, RequestFor(m.specs, Absolute(text, nodes), []));
    if effect.Done? {
      ListedResponse(effect.state, effect.response, Completed);
    } else {
      PushErrorEcho(s, Undefined(text).message, Undefined(Absolute(text, nodes)).message);
    }
  }

  /** The pieces left of a line against the expanded lines left of it. */
  lemma {:induction false} ExpansionRuns(m: Machine, s: State, pieces: seq<string>, nodes: seq<string>)
    requires RejectsUnknown(m) && PathNodes(nodes)
    requires forall i :: 0 <= i < |pieces| ==> FreeOf(Outside, pieces[i], ';')
    ensures Agree(RunPieces(m, s, pieces, TokensOf(nodes)), RunLines(m, s, Expand(pieces, nodes)))
    decreases |pieces|
  {
    if pieces != [] {
      var text := Trim(pieces[0]);
      if text == "" {
        ExpansionRuns(m, s, pieces[1..], nodes);
      } else {
        FirstPieceAgrees(m, s, pieces, nodes);
        TrimKeepsFree(Outside, pieces[0], ';');
        NextNodesArePathNodes(text, nodes);
        var effect := m.perform(s, RequestFor(m.specs, text, TokensOf(nodes)));
        var lines, next := Expand(pieces, nodes), NextNodes(text, nodes);
        assert lines[0] == Absolute(text, nodes) && lines[1..] == Expand(pieces[1..], next);
        if effect.Done? {
          ExpansionRuns(m, effect.state, pieces[1..], next);
        }
      }
    }
  }

  /** Shared-path expansion preserves meaning: running the pieces of a line one per line, each header written
      out from the root, gives the same responses, stops at the same piece, and leaves the same state up to
      the text echoed for an undefined header. */
  lemma SharedPathsPreserveMeaning(w: World, s: State, line: string)
    ensures var together, apart := RunLine(Simulator(w), s, line),
                                   RunLines(Simulator(w), s, Expand(Split(Outside, line, ';'), []));
            && Response(together) == Response(apart)
            && together.ending == apart.ending
            && SameButEcho(together.state, apart.state)
  {
    SplitSeparates(line, ';');
    assert TokensOf([]) == [];
    ExpansionRuns(Simulator(w), s, Split(Outside, line, ';'), []);
  }
}
