/** The TCP session as a step system: client threads taking turns under the mutex, two byte streams cut into
    arbitrary chunks, an instrument behind them, timeouts and lost connections. */
module Session {
  import opened Wrappers
  import opened Text
  import opened Transport

  // ---------------------------------------------------------------------- what the state is

  /** A command line given to the client, and whether its caller waits for a response. */
  datatype Call = Call(command: string, query: bool)

  /** A call that holds the mutex: the bytes it has yet to write, or it waits for its line. */
  datatype Progress = Writing(call: Call, unsent: string) | Reading(call: Call)

  /** A line the instrument made out of the bytes it got, and the response it sent for it. */
  datatype Served = Served(line: string, response: Option<string>)

  /** `rx` holds the client's received bytes, `toServer` and `toClient` those on their way, `serverRx` the
      instrument's. `asked` and `served` are the two sides' histories on the present connection. */
  datatype Session<S> = Session(
    socketOpen: bool,
    alive: bool,
    rx: string,
    toServer: string,
    toClient: string,
    serverRx: string,
    instrument: S,
    current: Option<Progress>,
    asked: seq<Call>,
    served: seq<Served>)

  datatype Step<S> =
    | Begin(call: Call)
    | PutBytes(n: nat)
    | Written
    | ToServer(n: nat)
    | ServeLine(silent: bool)
    | ToClient(n: nat)
    | ReturnLine
    | TimeOut
    | LoseConnection
    | Fail
    | Close
    | Open
    | Drift(instrument: S)

  /** What is behind the link: the state each line leaves with the response it gets, and the states it may be in. */
  datatype Device<!S> = Device(reply: (S, string) -> (S, Option<string>), good: S -> bool)

  function Fresh<S>(instrument: S): Session<S> {
    Session(false, false, "", "", "", "", instrument, None, [], [])
  }

  function CallOf(p: Progress): Call { p.call }

  /** A line without its terminators. */
  function Chomp(line: string): string
    decreases |line|
  {
    if line != "" && (line[|line| - 1] == '\n' || line[|line| - 1] == '\r') then Chomp(line[..|line| - 1]) else line
  }

  // ---------------------------------------------------------------------------- what can happen

  /** Calls start when the mutex is free and the socket open; sessions are opened and closed between calls.
      The client only takes bytes off the socket while it waits for a line. */
  predicate Enabled<S>(x: Session<S>, step: Step<S>) {
    match step
    case Begin(call) => x.current.None? && x.socketOpen && !HasLineTerminator(call.command)
    case PutBytes(n) => x.current.Some? && x.current.value.Writing? && n <= |x.current.value.unsent|
    case Written => x.current.Some? && x.current.value.Writing? && x.current.value.unsent == ""
    case ToServer(n) => x.alive && n <= |x.toServer|
    case ServeLine(_) => x.alive && '\n' in x.serverRx
    case ToClient(n) => x.alive && n <= |x.toClient| && x.current.Some? && x.current.value.Reading?
    case ReturnLine => x.current.Some? && x.current.value.Reading? && '\n' in x.rx
    case TimeOut => x.current.Some?
    case LoseConnection => x.alive
    case Fail => x.current.Some? && !x.alive && (x.current.value.Reading? ==> '\n' !in x.rx)
    case Close => x.current.None?
    case Open => x.current.None? && !x.socketOpen
    case Drift(_) => true
  }

  /** What it does. A timeout closes the socket but keeps the bytes received; only `Close` forgets those. */
  function Apply<S>(device: Device<S>, x: Session<S>, step: Step<S>): Session<S>
    requires Enabled(x, step)
  {
    match step
    case Begin(call) => x.(current := Some(Writing(call, call.command + "\n")), asked := x.asked + [call])
    case PutBytes(n) =>
      var p := x.current.value;
      x.(current := Some(p.(unsent := p.unsent[n..])), toServer := if x.alive then x.toServer + p.unsent[..n] else x.toServer)
    case Written =>
      x.(current := if x.current.value.call.query then Some(Reading(x.current.value.call)) else None)
    case ToServer(n) => x.(toServer := x.toServer[n..], serverRx := x.serverRx + x.toServer[..n])
    case ServeLine(silent) =>
      var n := NewlineAt(x.serverRx);
      FoundNewline(x.serverRx);
      var line := Chomp(x.serverRx[..n + 1]);
      var (after, answer) := device.reply(x.instrument, line);
      var response := if silent then None else answer;
      x.(serverRx := x.serverRx[n + 1..], instrument := after, served := x.served + [Served(line, response)],
         toClient := match response case None => x.toClient case Some(text) => x.toClient + text + "\n")
    case ToClient(n) => x.(toClient := x.toClient[n..], rx := x.rx + x.toClient[..n])
    case ReturnLine => x.(rx := AfterLine(x.rx), current := None)
    case TimeOut => Disconnected(x).(socketOpen := false, current := None)
    case LoseConnection => Disconnected(x)
    case Fail => x.(current := None)
    case Close => Disconnected(x).(socketOpen := false, rx := "")
    case Open => x.(socketOpen := true, alive := true, toServer := "", toClient := "", serverRx := "", asked := [], served := [])
    case Drift(instrument) => x.(instrument := instrument)
  }

  function Disconnected<S>(x: Session<S>): Session<S> {
    x.(alive := false, toServer := "", toClient := "", serverRx := "")
  }

  lemma {:induction false} FoundNewline(s: string)
    requires '\n' in s
    ensures NewlineAt(s) < |s|
  {
    if s[0] != '\n' { FoundNewline(s[1..]); }
  }

  /** The line at the front of the received bytes, and what is left behind it. */
  function LineOf(rx: string): string
    requires '\n' in rx
  {
    FoundNewline(rx);
    Chomp(rx[..NewlineAt(rx) + 1])
  }

  function AfterLine(rx: string): string
    requires '\n' in rx
  {
    FoundNewline(rx);
    rx[NewlineAt(rx) + 1..]
  }

  // ---------------------------------------------------------------------------- the assumptions

  /** A response that is a line of its own. */
  predicate SingleLine(text: string) {
    '\n' !in text && (text == "" || text[|text| - 1] != '\r')
  }

  ghost predicate SingleLines<S(!new)>(device: Device<S>) {
    forall s, line :: device.good(s) && !HasLineTerminator(line) ==>
      && device.good(device.reply(s, line).0)
      && (device.reply(s, line).1.Some? ==> SingleLine(device.reply(s, line).1.value))
  }

  /** A command that never gets a response. */
  ghost predicate Quiet<S(!new)>(device: Device<S>, command: string) {
    forall s :: device.good(s) ==> device.reply(s, command).1.None?
  }

  /** How the client is used: commands that respond are not given to send(), and a session is only opened when no
      received bytes are left, which close() sees to. Nothing is asked of the commands given to query(). Whatever else
      happens to the instrument, it stays in a good state. */
  ghost predicate Disciplined<S(!new)>(device: Device<S>, x: Session<S>, step: Step<S>) {
    && (step.Begin? && !step.call.query ==> Quiet(device, step.call.command))
    && (step.Open? ==> x.rx == "")
    && (step.Drift? ==> device.good(step.instrument))
  }

  // ------------------------------------------------------------------------------- the invariant

  function Lines(calls: seq<Call>): string {
    if calls == [] then "" else calls[0].command + "\n" + Lines(calls[1..])
  }

  function Unsent(p: Option<Progress>): string {
    if p.Some? && p.value.Writing? then p.value.unsent else ""
  }

  /** The response bytes a waiting query has coming, once it is served. */
  function Due<S>(x: Session<S>): string {
    if x.current.Some? && x.served != [] && |x.served| == |x.asked| && Last(x.served).response.Some?
    then Last(x.served).response.value + "\n" else ""
  }

  function Last<T>(s: seq<T>): T
    requires s != []
  {
    s[|s| - 1]
  }

  /** The current call is the last one asked. */
  predicate Latest<S>(x: Session<S>) {
    x.current.Some? ==> x.asked != [] && Last(x.asked) == CallOf(x.current.value)
  }

  /** The two histories agree as far as the instrument has come. */
  predicate InOrder<S>(x: Session<S>) {
    && |x.served| <= |x.asked|
    && (forall i :: 0 <= i < |x.served| ==> x.served[i].line == x.asked[i].command)
    && (forall i :: 0 <= i < |x.served| && !x.asked[i].query ==> x.served[i].response.None?)
  }

  ghost predicate QuietBehind<S(!new)>(device: Device<S>, x: Session<S>) {
    forall i | |x.served| <= i < |x.asked| && !(i == |x.asked| - 1 && x.current.Some? && x.asked[i].query) ::
      Quiet(device, x.asked[i].command)
  }

  ghost predicate Connected<S(!new)>(device: Device<S>, x: Session<S>) {
    && InOrder(x)
    && x.serverRx + x.toServer + Unsent(x.current) == Lines(x.asked[|x.served|..])
    && QuietBehind(device, x)
    && x.rx + x.toClient == Due(x)
  }

  /** Without a connection, the bytes left are a part of what the waiting query has coming, or no line at all. */
  predicate CutOff<S>(x: Session<S>) {
    InOrder(x) && ('\n' !in x.rx || x.rx <= Due(x))
  }

  ghost predicate Inv<S(!new)>(device: Device<S>, x: Session<S>) {
    && (forall i :: 0 <= i < |x.asked| ==> !HasLineTerminator(x.asked[i].command))
    && (forall i :: 0 <= i < |x.served| && x.served[i].response.Some? ==> SingleLine(x.served[i].response.value))
    && device.good(x.instrument)
    && (x.alive ==> x.socketOpen)
    && (x.current.Some? ==> x.socketOpen)
    && (x.current.Some? && x.current.value.Reading? ==> x.current.value.call.query)
    && (x.current.Some? && x.current.value.Writing? ==> '\n' !in x.rx)
    && Latest(x)
    && (if x.alive then Connected(device, x) else x.socketOpen ==> CutOff(x))
  }

  // -------------------------------------------------------------------------- kept by every step

  lemma {:induction false} LinesAppend(calls: seq<Call>, call: Call)
    ensures Lines(calls + [call]) == Lines(calls) + (call.command + "\n")
  {
    if calls == [] {
      assert calls + [call] == [call];
      assert call.command + "\n" + "" == "" + (call.command + "\n");
    } else {
      assert (calls + [call])[1..] == calls[1..] + [call];
      LinesAppend(calls[1..], call);
      var head := calls[0].command + "\n";
      assert head + (Lines(calls[1..]) + (call.command + "\n")) == head + Lines(calls[1..]) + (call.command + "\n");
    }
  }

  lemma ChompOfLine(text: string)
    requires SingleLine(text)
    ensures Chomp(text + "\n") == text
  {
    assert (text + "\n")[..|text|] == text;
    if text != "" { assert text[|text| - 1] in text; }
  }

  lemma UnterminatedIsSingle(command: string)
    requires !HasLineTerminator(command)
    ensures SingleLine(command)
  {
    if command != "" { assert command[|command| - 1] in command; }
  }

  /** A prefix of one line that contains its end is the line. */
  lemma WholeLine(part: string, text: string)
    requires SingleLine(text) && part <= text + "\n" && '\n' in part
    ensures part == text + "\n" && LineOf(part) == text && AfterLine(part) == ""
  {
    assert forall j :: 0 <= j < |text| ==> (text + "\n")[j] == text[j] && text[j] in text;
    var i :| 0 <= i < |part| && part[i] == '\n';
    assert (text + "\n")[i] == '\n';
    assert i == |text|;
    assert part == text + "\n";
    FoundNewline(part);
    NewlineOf(text);
    ChompOfLine(text);
    assert part[..|text| + 1] == part;
  }

  lemma {:induction false} NewlineOf(text: string)
    requires '\n' !in text
    ensures NewlineAt(text + "\n") == |text|
  {
    if text != "" {
      assert (text + "\n")[1..] == text[1..] + "\n";
      assert text[0] in text;
      NewlineOf(text[1..]);
    }
  }

  lemma CutAfter(front: string, rest: string, head: string, tail: string)
    requires front + rest == head + tail && |head| <= |front|
    ensures front[..|head|] == head && front[|head|..] + rest == tail
  {
    assert (front + rest)[..|head|] == (head + tail)[..|head|];
    assert (front + rest)[|head|..] == (head + tail)[|head|..];
  }

  lemma NewlineOfStream(front: string, rest: string, command: string, tail: string)
    requires front + rest == (command + "\n") + tail && '\n' in front && SingleLine(command)
    ensures NewlineAt(front) == |command| < |front|
  {
    hide NewlineAt, SingleLine;
    FoundNewline(front);
    assert '\n' !in command by { SingleHasNoNewline(command); }
    NewlineOf(command);
    NewlineOfConcat(command + "\n", tail);
    NewlineOfConcat(front, rest);
  }

  lemma SingleHasNoNewline(text: string)
    requires SingleLine(text)
    ensures '\n' !in text
  {}

  lemma LinesHead(calls: seq<Call>)
    ensures calls == [] ==> Lines(calls) == ""
    ensures calls != [] ==> Lines(calls) == (calls[0].command + "\n") + Lines(calls[1..])
  {}

  lemma CutBehind(front: string, rest: string, command: string, tail: string, n: nat)
    requires front + rest == (command + "\n") + tail && n == |command| < |front|
    ensures front[..n + 1] == command + "\n" && front[n + 1..] + rest == tail
  {
    CutAfter(front, rest, command + "\n", tail);
  }

  lemma LineTaken(front: string, rest: string, command: string, tail: string)
    requires front + rest == (command + "\n") + tail && '\n' in front && SingleLine(command)
    ensures NewlineAt(front) < |front| && Chomp(front[..NewlineAt(front) + 1]) == command
    ensures front[NewlineAt(front) + 1..] + rest == tail
  {
    hide NewlineAt, Chomp, SingleLine;
    NewlineOfStream(front, rest, command, tail);
    CutBehind(front, rest, command, tail, NewlineAt(front));
    ChompOfLine(command);
  }

  /** The line the instrument reads is the oldest one it has not served. */
  lemma NextLine(serverRx: string, rest: string, calls: seq<Call>)
    requires serverRx + rest == Lines(calls) && '\n' in serverRx
    requires forall i :: 0 <= i < |calls| ==> !HasLineTerminator(calls[i].command)
    ensures calls != []
    ensures var n := NewlineAt(serverRx);
            && n < |serverRx| && Chomp(serverRx[..n + 1]) == calls[0].command
            && serverRx[n + 1..] + rest == Lines(calls[1..])
  {
    hide NewlineAt, Chomp, HasLineTerminator, SingleLine, Lines;
    LinesHead(calls);
    assert |Lines(calls)| == |serverRx| + |rest| > 0;
    UnterminatedIsSingle(calls[0].command);
    LineTaken(serverRx, rest, calls[0].command, Lines(calls[1..]));
  }

  lemma BeginKeepsInv<S(!new)>(device: Device<S>, x: Session<S>, call: Call)
    requires Inv(device, x) && Enabled(x, Begin(call)) && Disciplined(device, x, Begin(call))
    ensures Inv(device, Apply(device, x, Begin(call)))
  {
    hide Lines, Quiet;
    var y := Apply(device, x, Begin(call));
    if x.alive {
      LinesAppend(x.asked[|x.served|..], call);
      assert y.asked[|y.served|..] == x.asked[|x.served|..] + [call];
      var stream := x.serverRx + x.toServer;
      assert stream + "" == stream;
      assert y.serverRx + y.toServer + Unsent(y.current) == stream + (call.command + "\n");
      assert x.rx == "" && y.rx + y.toClient == "";
    } else {
      assert '\n' !in x.rx;
    }
  }

  lemma Moved(a: string, b: string, n: nat, c: string)
    requires n <= |b|
    ensures a + b[..n] + b[n..] + c == a + b + c
    ensures a + (b[..n] + b[n..]) + c == a + b + c
  {
    assert b[..n] + b[n..] == b;
    assert a + b[..n] + b[n..] == a + (b[..n] + b[n..]);
  }

  lemma PutKeepsInv<S(!new)>(device: Device<S>, x: Session<S>, n: nat)
    requires Inv(device, x) && Enabled(x, PutBytes(n))
    ensures Inv(device, Apply(device, x, PutBytes(n)))
  {
    hide Lines, Quiet;
    Moved(x.serverRx + x.toServer, x.current.value.unsent, n, "");
    var stream := x.serverRx + x.toServer + x.current.value.unsent;
    assert stream + "" == stream;
    var y := Apply(device, x, PutBytes(n));
    if x.alive {
      assert y.serverRx + y.toServer == x.serverRx + x.toServer + x.current.value.unsent[..n];
      var moved := x.serverRx + x.toServer + x.current.value.unsent[..n] + x.current.value.unsent[n..];
      assert moved + "" == moved;
      assert y.serverRx + y.toServer + Unsent(y.current) == moved;
    }
  }

  lemma WrittenKeepsInv<S(!new)>(device: Device<S>, x: Session<S>)
    requires Inv(device, x) && Enabled(x, Written)
    ensures Inv(device, Apply(device, x, Written))
  {
    hide Lines, Quiet;
  }

  lemma ToServerKeepsInv<S(!new)>(device: Device<S>, x: Session<S>, n: nat)
    requires Inv(device, x) && Enabled(x, ToServer(n))
    ensures Inv(device, Apply(device, x, ToServer(n)))
  {
    hide Lines, Quiet;
    Moved(x.serverRx, x.toServer, n, Unsent(x.current));
  }

  lemma ToClientKeepsInv<S(!new)>(device: Device<S>, x: Session<S>, n: nat)
    requires Inv(device, x) && Enabled(x, ToClient(n))
    ensures Inv(device, Apply(device, x, ToClient(n)))
  {
    hide Lines, Quiet;
    Moved(x.rx, x.toClient, n, "");
    var y := Apply(device, x, ToClient(n));
    var before, after := x.rx + x.toClient, y.rx + y.toClient;
    assert before + "" == before && after + "" == after;
  }

  /** The line in front, the response given to it, and what else changes when it is served. */
  lemma Serving<S(!new)>(device: Device<S>, x: Session<S>, silent: bool)
    requires Enabled(x, ServeLine(silent))
    ensures NewlineAt(x.serverRx) < |x.serverRx|
    ensures var y, n := Apply(device, x, ServeLine(silent)), NewlineAt(x.serverRx);
            var line := Chomp(x.serverRx[..n + 1]);
            var (after, answer) := device.reply(x.instrument, line);
            var response := if silent then None else answer;
            && y.served == x.served + [Served(line, response)] && y.instrument == after
            && y.serverRx == x.serverRx[n + 1..] && y.toServer == x.toServer && y.rx == x.rx
            && y.current == x.current && y.asked == x.asked && y.alive == x.alive && y.socketOpen == x.socketOpen
            && y.toClient == (match response case None => x.toClient case Some(text) => x.toClient + text + "\n")
  {
    hide NewlineAt, Chomp;
    FoundNewline(x.serverRx);
  }

  /** The oldest line not served yet is the one in front, and nothing has come back for it. */
  lemma OldestLine<S(!new)>(device: Device<S>, x: Session<S>)
    requires Inv(device, x) && x.alive && '\n' in x.serverRx
    ensures |x.served| < |x.asked| && NewlineAt(x.serverRx) < |x.serverRx|
    ensures var n, command := NewlineAt(x.serverRx), x.asked[|x.served|].command;
            && Chomp(x.serverRx[..n + 1]) == command && !HasLineTerminator(command)
            && x.serverRx[n + 1..] + x.toServer + Unsent(x.current) == Lines(x.asked[|x.served| + 1..])
    ensures x.rx == "" && x.toClient == "" && device.good(x.instrument)
  {
    hide Lines, Chomp, QuietBehind, NewlineAt, HasLineTerminator, SingleLine;
    var k, rest := |x.served|, x.toServer + Unsent(x.current);
    assert x.serverRx + rest == x.serverRx + x.toServer + Unsent(x.current);
    NextLine(x.serverRx, rest, x.asked[k..]);
    assert x.asked[k..][0] == x.asked[k] && x.asked[k..][1..] == x.asked[k + 1..];
    var n := NewlineAt(x.serverRx);
    assert x.serverRx[n + 1..] + x.toServer + Unsent(x.current) == x.serverRx[n + 1..] + rest;
    assert Due(x) == "";
    assert |x.rx + x.toClient| == 0;
  }

  /** What serving a line does to both histories and both streams. */
  lemma ServeStep<S(!new)>(device: Device<S>, x: Session<S>, silent: bool)
    requires SingleLines(device) && Inv(device, x) && Enabled(x, ServeLine(silent))
    ensures var y, k := Apply(device, x, ServeLine(silent)), |x.served|;
            && k < |x.asked| && |y.served| == k + 1 && y.served[..k] == x.served
            && y.served[k].line == x.asked[k].command
            && (y.served[k].response.Some? ==> SingleLine(y.served[k].response.value))
            && (Quiet(device, x.asked[k].command) ==> y.served[k].response.None?)
            && y.serverRx + y.toServer + Unsent(y.current) == Lines(x.asked[k + 1..])
            && x.rx == "" && y.rx == ""
            && y.toClient == (match y.served[k].response case None => "" case Some(text) => text + "\n")
  {
    hide Lines, Chomp, NewlineAt, Inv, Apply, HasLineTerminator, SingleLine;
    OldestLine(device, x);
    Serving(device, x, silent);
    var y := Apply(device, x, ServeLine(silent));
    assert y.served[|x.served|].line == x.asked[|x.served|].command;
    if y.served[|x.served|].response.Some? {
      var text := y.served[|x.served|].response.value;
      assert "" + text + "\n" == text + "\n";
    }
  }

  lemma ServeKeepsOrder<S(!new)>(device: Device<S>, x: Session<S>, silent: bool)
    requires SingleLines(device) && Inv(device, x) && Enabled(x, ServeLine(silent))
    ensures var y := Apply(device, x, ServeLine(silent));
            && InOrder(y) && QuietBehind(device, y)
            && (forall i :: 0 <= i < |y.served| && y.served[i].response.Some? ==> SingleLine(y.served[i].response.value))
  {
    hide Lines, Chomp, Quiet, SingleLine, NewlineAt, Due, SingleLines, HasLineTerminator;
    ServeStep(device, x, silent);
    QuietServed(device, x);
    var y, k := Apply(device, x, ServeLine(silent)), |x.served|;
    assert y.asked == x.asked && y.current == x.current;
    assert forall i :: 0 <= i < k ==> y.served[i] == y.served[..k][i];
    OneServedMore(x, y);
  }

  /** Serving the oldest line keeps the histories in order. */
  lemma OneServedMore<S>(x: Session<S>, y: Session<S>)
    requires InOrder(x) && y.asked == x.asked && |y.served| == |x.served| + 1 <= |y.asked|
    requires forall i :: 0 <= i < |x.served| ==> y.served[i] == x.served[i]
    requires var k := |x.served|;
             y.served[k].line == x.asked[k].command && (!x.asked[k].query ==> y.served[k].response.None?)
    ensures InOrder(y)
  {}

  lemma ServeKeepsDue<S(!new)>(device: Device<S>, x: Session<S>, silent: bool)
    requires SingleLines(device) && Inv(device, x) && Enabled(x, ServeLine(silent))
    ensures var y := Apply(device, x, ServeLine(silent));
            y.rx + y.toClient == Due(y)
  {
    hide Lines, Chomp, Quiet, SingleLine, NewlineAt, InOrder;
    ServeStep(device, x, silent);
    QuietServed(device, x);
    var y := Apply(device, x, ServeLine(silent));
    assert Last(y.served) == y.served[|x.served|];
    assert "" + y.toClient == y.toClient;
  }

  lemma ServeKeepsInv<S(!new)>(device: Device<S>, x: Session<S>, silent: bool)
    requires SingleLines(device) && Inv(device, x) && Enabled(x, ServeLine(silent))
    ensures Inv(device, Apply(device, x, ServeLine(silent)))
  {
    hide Lines, Chomp, Quiet, SingleLine, NewlineAt, InOrder, QuietBehind, Due;
    ServeStep(device, x, silent);
    ServeKeepsOrder(device, x, silent);
    ServeKeepsDue(device, x, silent);
  }

  /** Whatever is served next is quiet, unless it is the query that waits for it. */
  lemma QuietServed<S(!new)>(device: Device<S>, x: Session<S>)
    requires QuietBehind(device, x) && |x.served| < |x.asked|
    ensures var k := |x.served|;
            k < |x.asked| - 1 || x.current.None? || !x.asked[k].query ==> Quiet(device, x.asked[k].command)
  {
    hide Quiet;
  }

  /** A waiting query that finds a line has found its own response, whole and alone. */
  lemma OwnResponse<S(!new)>(device: Device<S>, x: Session<S>)
    requires Inv(device, x) && Enabled(x, ReturnLine)
    ensures var call := CallOf(x.current.value);
            && x.served != [] && |x.served| == |x.asked|
            && Last(x.asked) == call && Last(x.served) == Served(call.command, Some(LineOf(x.rx)))
            && AfterLine(x.rx) == "" && (x.alive ==> x.toClient == "")
  {
    hide Lines, Quiet, LineOf, AfterLine;
    if x.alive {
      assert x.rx <= Due(x);
    }
    assert x.rx <= Due(x);
    var i :| 0 <= i < |x.rx| && x.rx[i] == '\n';
    assert Due(x) != "";
    var text := Last(x.served).response.value;
    assert Last(x.served) == x.served[|x.served| - 1];
    WholeLine(x.rx, text);
  }

  lemma ReturnKeepsInv<S(!new)>(device: Device<S>, x: Session<S>)
    requires Inv(device, x) && Enabled(x, ReturnLine)
    ensures Inv(device, Apply(device, x, ReturnLine))
  {
    hide Lines, Quiet, LineOf, AfterLine;
    OwnResponse(device, x);
  }

  lemma TimeOutKeepsInv<S(!new)>(device: Device<S>, x: Session<S>)
    requires Inv(device, x) && Enabled(x, TimeOut)
    ensures Inv(device, Apply(device, x, TimeOut))
  {
    hide Quiet, QuietBehind, Due, Lines, InOrder, SingleLine, HasLineTerminator;
  }

  /** Bytes received of a response that is due are a part of it. */
  lemma CutOffKeepsDue<S(!new)>(device: Device<S>, x: Session<S>)
    requires Connected(device, x)
    ensures CutOff(x)
  {
    hide Quiet, QuietBehind, Due, Lines, InOrder;
    assert x.rx <= x.rx + x.toClient;
  }

  lemma LossKeepsInv<S(!new)>(device: Device<S>, x: Session<S>)
    requires Inv(device, x) && Enabled(x, LoseConnection)
    ensures Inv(device, Apply(device, x, LoseConnection))
  {
    hide Quiet, Lines, SingleLine, HasLineTerminator, Connected;
    CutOffKeepsDue(device, x);
  }

  lemma FailKeepsInv<S(!new)>(device: Device<S>, x: Session<S>)
    requires Inv(device, x) && Enabled(x, Fail)
    ensures Inv(device, Apply(device, x, Fail))
  {
    hide Quiet, Lines, SingleLine, HasLineTerminator;
  }

  lemma CloseKeepsInv<S(!new)>(device: Device<S>, x: Session<S>)
    requires Inv(device, x) && Enabled(x, Close)
    ensures Inv(device, Apply(device, x, Close))
  {
    hide Quiet, QuietBehind, Due, Lines, InOrder, SingleLine, HasLineTerminator;
  }

  lemma OpenKeepsInv<S(!new)>(device: Device<S>, x: Session<S>)
    requires Inv(device, x) && Enabled(x, Open) && x.rx == ""
    ensures Inv(device, Apply(device, x, Open))
  {
    hide Quiet, SingleLine, HasLineTerminator;
  }

  lemma DriftKeepsInv<S(!new)>(device: Device<S>, x: Session<S>, instrument: S)
    requires Inv(device, x) && device.good(instrument)
    ensures Inv(device, Apply(device, x, Drift(instrument)))
  {
    hide Quiet, Lines, SingleLine, HasLineTerminator;
  }

  lemma StepKeepsInv<S(!new)>(device: Device<S>, x: Session<S>, step: Step<S>)
    requires SingleLines(device) && Inv(device, x) && Enabled(x, step) && Disciplined(device, x, step)
    ensures Inv(device, Apply(device, x, step))
  {
    hide Inv, Apply, Enabled, SingleLines;
    match step
    case Begin(call) => BeginKeepsInv(device, x, call);
    case PutBytes(n) => PutKeepsInv(device, x, n);
    case Written => WrittenKeepsInv(device, x);
    case ToServer(n) => ToServerKeepsInv(device, x, n);
    case ServeLine(silent) => ServeKeepsInv(device, x, silent);
    case ToClient(n) => ToClientKeepsInv(device, x, n);
    case ReturnLine => ReturnKeepsInv(device, x);
    case TimeOut => TimeOutKeepsInv(device, x);
    case LoseConnection => LossKeepsInv(device, x);
    case Fail => FailKeepsInv(device, x);
    case Close => CloseKeepsInv(device, x);
    case Open => OpenKeepsInv(device, x);
    case Drift(instrument) => DriftKeepsInv(device, x, instrument);
  }

  // ---------------------------------------------------------------------------------- whole runs

  /** States in a row, each the next by an enabled step, whether or not the client is well used. */
  ghost predicate Follows<S(!new)>(device: Device<S>, xs: seq<Session<S>>, steps: seq<Step<S>>) {
    && |xs| == |steps| + 1
    && (forall i :: 0 <= i < |steps| ==> Enabled(xs[i], steps[i]) && xs[i + 1] == Apply(device, xs[i], steps[i]))
  }

  /** The same for a well-used client. */
  ghost predicate IsRun<S(!new)>(device: Device<S>, xs: seq<Session<S>>, steps: seq<Step<S>>) {
    Follows(device, xs, steps) && forall i :: 0 <= i < |steps| ==> Disciplined(device, xs[i], steps[i])
  }

  lemma FreshIsInv<S(!new)>(device: Device<S>, instrument: S)
    requires device.good(instrument)
    ensures Inv(device, Fresh(instrument))
  {}

  /** Every state of a run is in order when its first state is. */
  lemma {:induction false} RunKeepsInv<S(!new)>(device: Device<S>, xs: seq<Session<S>>, steps: seq<Step<S>>, k: nat)
    requires SingleLines(device) && IsRun(device, xs, steps) && k < |xs| && Inv(device, xs[0])
    ensures Inv(device, xs[k])
  {
    hide Inv, Apply, Enabled, Disciplined, SingleLines;
    if k > 0 {
      RunKeepsInv(device, xs, steps, k - 1);
      StepKeepsInv(device, xs[k - 1], steps[k - 1]);
    }
  }

  lemma FreshRun<S(!new)>(device: Device<S>, xs: seq<Session<S>>)
    requires |xs| > 0 && exists instrument :: xs[0] == Fresh(instrument) && device.good(instrument)
    ensures Inv(device, xs[0]) && !xs[0].socketOpen && xs[0].served == []
  {
    var instrument :| xs[0] == Fresh(instrument) && device.good(instrument);
    FreshIsInv(device, instrument);
  }

  /** A step under which a call stays in progress and the line it got served stays the last one. */
  lemma StillServed<S(!new)>(device: Device<S>, x: Session<S>, step: Step<S>)
    requires Inv(device, x) && Enabled(x, step) && !step.ServeLine?
    requires var y := Apply(device, x, step); y.current.Some? && y.served != [] && |y.served| == |y.asked|
    ensures var y := Apply(device, x, step);
            && x.served == y.served && x.asked == y.asked
            && x.current.Some? && CallOf(x.current.value) == CallOf(y.current.value)
  {
    hide Inv, Apply, InOrder, NewlineAt, Chomp, SingleLine;
    if step.Begin? {
      ServedWereAsked(device, x);
      BeginAsks(device, x, step.call);
    } else {
      KeepsServed(device, x, step);
    }
  }

  lemma ServedWereAsked<S(!new)>(device: Device<S>, x: Session<S>)
    requires Inv(device, x) && x.socketOpen
    ensures |x.served| <= |x.asked|
  {
    hide Quiet, QuietBehind, Due, Lines, SingleLine;
  }

  lemma BeginAsks<S>(device: Device<S>, x: Session<S>, call: Call)
    requires Enabled(x, Begin(call))
    ensures var y := Apply(device, x, Begin(call)); y.served == x.served && |y.asked| == |x.asked| + 1
  {
    hide NewlineAt, Chomp;
  }

  lemma KeepsServed<S>(device: Device<S>, x: Session<S>, step: Step<S>)
    requires Enabled(x, step) && !step.ServeLine? && !step.Begin?
    requires var y := Apply(device, x, step); y.current.Some? && y.served != []
    ensures var y := Apply(device, x, step);
            && x.served == y.served && x.asked == y.asked
            && x.current.Some? && CallOf(x.current.value) == CallOf(y.current.value)
  {
    hide NewlineAt, Chomp;
  }

  lemma ServedNow<S(!new)>(device: Device<S>, x: Session<S>, silent: bool)
    requires Enabled(x, ServeLine(silent))
    ensures var y := Apply(device, x, ServeLine(silent));
            && y.current == x.current && y.asked == x.asked && |y.served| == |x.served| + 1
            && Last(y.served).response == if silent then None else device.reply(x.instrument, Last(y.served).line).1
  {
    hide NewlineAt, Chomp;
  }

  /** The step that served the line of the call in progress, taken while that call was already in progress. */
  lemma {:induction false} ServedDuringCall<S(!new)>(device: Device<S>, xs: seq<Session<S>>, steps: seq<Step<S>>, k: nat)
    returns (j: nat)
    requires SingleLines(device) && IsRun(device, xs, steps) && k < |xs|
    requires exists instrument :: xs[0] == Fresh(instrument) && device.good(instrument)
    requires xs[k].current.Some? && xs[k].served != [] && |xs[k].served| == |xs[k].asked|
    ensures j < k && steps[j].ServeLine?
    ensures xs[j].asked == xs[k].asked
    ensures xs[j].current.Some? && CallOf(xs[j].current.value) == CallOf(xs[k].current.value)
    ensures Last(xs[k].served).response ==
              if steps[j].silent then None else device.reply(xs[j].instrument, Last(xs[k].served).line).1
  {
    hide Inv, Apply, Enabled, Disciplined, SingleLines;
    FreshRun(device, xs);
    assert k > 0;
    RunKeepsInv(device, xs, steps, k - 1);
    if steps[k - 1].ServeLine? {
      ServedNow(device, xs[k - 1], steps[k - 1].silent);
      j := k - 1;
    } else {
      StillServed(device, xs[k - 1], steps[k - 1]);
      j := ServedDuringCall(device, xs, steps, k - 1);
    }
  }

  /** Session safety: in every run, over every interleaving of the calls and every chunking of both streams, a query
      that returns gets what the instrument answered to that query's own line, at a moment when that query was under
      way and in the state the instrument then was in. */
  lemma QueriesGetTheirOwnResponse<S(!new)>(device: Device<S>, xs: seq<Session<S>>, steps: seq<Step<S>>, k: nat)
    requires SingleLines(device) && IsRun(device, xs, steps) && k < |steps| && steps[k].ReturnLine?
    requires exists instrument :: xs[0] == Fresh(instrument) && device.good(instrument)
    ensures Enabled(xs[k], ReturnLine)
    ensures var x := xs[k];
            var call := CallOf(x.current.value);
            && call.query
            && x.asked != [] && Last(x.asked) == call
            && |x.served| == |x.asked| && Last(x.served) == Served(call.command, Some(LineOf(x.rx)))
    ensures var call, line := CallOf(xs[k].current.value), LineOf(xs[k].rx);
            exists j: nat :: j < k && steps[j] == ServeLine(false) && xs[j].asked == xs[k].asked
                          && xs[j].current.Some? && CallOf(xs[j].current.value) == call
                          && device.reply(xs[j].instrument, call.command).1 == Some(line)
  {
    hide Inv, Apply, Disciplined, SingleLines, LineOf, AfterLine;
    FreshRun(device, xs);
    RunKeepsInv(device, xs, steps, k);
    OwnResponse(device, xs[k]);
    WaitingIsQuery(device, xs[k]);
    var j := ServedDuringCall(device, xs, steps, k);
    assert steps[j] == ServeLine(false);
  }

  lemma WaitingIsQuery<S(!new)>(device: Device<S>, x: Session<S>)
    requires Inv(device, x) && Enabled(x, ReturnLine)
    ensures CallOf(x.current.value).query
  {}

  // ------------------------------------------------------------- what ends a session, and what starts one

  /** Calls and connections need an open socket. */
  predicate Tied<S>(x: Session<S>) { (x.alive ==> x.socketOpen) && (x.current.Some? ==> x.socketOpen) }

  lemma StepKeepsTied<S>(device: Device<S>, x: Session<S>, step: Step<S>)
    requires Tied(x) && Enabled(x, step)
    ensures Tied(Apply(device, x, step))
  {
    hide NewlineAt, Chomp;
  }

  lemma {:induction false} RunKeepsTied<S(!new)>(device: Device<S>, xs: seq<Session<S>>, steps: seq<Step<S>>, k: nat)
    requires Follows(device, xs, steps) && k < |xs| && Tied(xs[0])
    ensures Tied(xs[k])
  {
    hide Apply, Enabled, Tied;
    if k > 0 {
      RunKeepsTied(device, xs, steps, k - 1);
      StepKeepsTied(device, xs[k - 1], steps[k - 1]);
    }
  }

  /** While the socket is closed nothing is received, and only close() forgets what was. */
  lemma ClosedStep<S>(device: Device<S>, x: Session<S>, step: Step<S>)
    requires Tied(x) && !x.socketOpen && Enabled(x, step) && !step.Open?
    ensures var y := Apply(device, x, step); !y.socketOpen && y.rx == if step.Close? then "" else x.rx
  {}

  predicate NoOpening<S>(steps: seq<Step<S>>, i: nat, l: nat)
    requires l <= |steps|
  {
    forall k :: i <= k < l ==> !steps[k].Open?
  }

  lemma {:induction false} StaysClosed<S(!new)>(device: Device<S>, xs: seq<Session<S>>, steps: seq<Step<S>>, i: nat, l: nat)
    requires Follows(device, xs, steps) && Tied(xs[0]) && i <= l < |xs| && !xs[i].socketOpen && NoOpening(steps, i, l)
    ensures !xs[l].socketOpen
    ensures xs[l].rx == xs[i].rx || exists k :: i <= k < l && steps[k].Close?
    ensures xs[i].rx == "" ==> xs[l].rx == ""
  {
    hide Apply, Enabled, Tied;
    if i < l {
      StaysClosed(device, xs, steps, i, l - 1);
      RunKeepsTied(device, xs, steps, l - 1);
      ClosedStep(device, xs[l - 1], steps[l - 1]);
    }
  }

  /** The first opening, if the socket is found open later. */
  lemma {:induction false} FirstOpening<S(!new)>(device: Device<S>, xs: seq<Session<S>>, steps: seq<Step<S>>, i: nat, j: nat)
    returns (l: nat)
    requires Follows(device, xs, steps) && Tied(xs[0]) && i <= j < |xs| && !xs[i].socketOpen && xs[j].socketOpen
    ensures i <= l < j && steps[l].Open? && NoOpening(steps, i, l)
    decreases j - i
  {
    hide Apply, Enabled, Tied;
    assert i < j;
    if steps[i].Open? {
      l := i;
    } else {
      RunKeepsTied(device, xs, steps, i);
      ClosedStep(device, xs[i], steps[i]);
      l := FirstOpening(device, xs, steps, i + 1, j);
    }
  }

  /** Something a call does on the wire. */
  predicate OnTheWire<S>(step: Step<S>) {
    step.Begin? || step.PutBytes? || step.Written? || step.ToClient? || step.ReturnLine?
  }

  lemma WireNeedsSocket<S>(x: Session<S>, step: Step<S>)
    requires Tied(x) && Enabled(x, step) && OnTheWire(step)
    ensures x.socketOpen
  {}

  lemma TimeOutCloses<S>(device: Device<S>, x: Session<S>)
    requires Enabled(x, TimeOut)
    ensures !Apply(device, x, TimeOut).socketOpen && Apply(device, x, TimeOut).rx == x.rx
  {}

  /** After a timeout the session is over, however the client is used: nothing is written or read before an open(). */
  lemma TimeoutEndsTheSession<S(!new)>(device: Device<S>, xs: seq<Session<S>>, steps: seq<Step<S>>, i: nat, j: nat)
    returns (l: nat)
    requires Follows(device, xs, steps) && i < j < |steps| && Tied(xs[0])
    requires steps[i].TimeOut? && OnTheWire(steps[j])
    ensures i < l < j && steps[l].Open? && NoOpening(steps, i, l)
    ensures xs[l].rx == xs[i].rx || exists k :: i < k < l && steps[k].Close?
  {
    hide Apply, Tied, Enabled;
    RunKeepsTied(device, xs, steps, j);
    WireNeedsSocket(xs[j], steps[j]);
    TimeOutCloses(device, xs[i]);
    l := FirstOpening(device, xs, steps, i + 1, j);
    StaysClosed(device, xs, steps, i + 1, l);
  }

  /** So a well-used client that was left with received bytes has called close() in between. */
  lemma LeftoversNeedClose<S(!new)>(device: Device<S>, xs: seq<Session<S>>, steps: seq<Step<S>>, i: nat, j: nat)
    requires IsRun(device, xs, steps) && i < j < |steps| && Tied(xs[0])
    requires steps[i].TimeOut? && xs[i].rx != "" && OnTheWire(steps[j])
    ensures exists k: nat, l: nat :: i < k < l < j && steps[k].Close? && steps[l].Open?
  {
    hide Apply, Tied, Enabled;
    var l := TimeoutEndsTheSession(device, xs, steps, i, j);
    assert Disciplined(device, xs[l], steps[l]);
    var k :| i < k < l && steps[k].Close?;
  }

  /** After close() the next opening finds no received bytes, whatever else happens before it. */
  lemma CloseThenOpen<S(!new)>(device: Device<S>, xs: seq<Session<S>>, steps: seq<Step<S>>, k: nat, l: nat)
    requires Follows(device, xs, steps) && k < l < |steps| && Tied(xs[0])
    requires steps[k].Close? && steps[l].Open? && NoOpening(steps, k, l)
    ensures xs[l].rx == ""
  {
    hide Enabled, Tied;
    assert !xs[k + 1].socketOpen && xs[k + 1].rx == "";
    StaysClosed(device, xs, steps, k + 1, l);
  }

  // ------------------------------------------------------------------- when opening again is safe

  /** The bytes received are the response to the call that waits for them: all of it, and nothing else. */
  predicate HoldsOwnResponse<S>(x: Session<S>) {
    && x.current.Some? && x.served != [] && |x.served| == |x.asked|
    && Last(x.asked) == CallOf(x.current.value) && Last(x.served).line == CallOf(x.current.value).command
    && Last(x.served).response.Some? && x.rx == Last(x.served).response.value + "\n"
  }

  ghost predicate RunsFrom<S(!new)>(device: Device<S>, x: Session<S>, xs: seq<Session<S>>, steps: seq<Step<S>>) {
    |xs| > 0 && xs[0] == x && IsRun(device, xs, steps)
  }

  /** However a well-used client goes on from here, every query that returns finds its own response. */
  ghost predicate Safe<S(!new)>(device: Device<S>, x: Session<S>) {
    forall xs: seq<Session<S>>, steps: seq<Step<S>>, k: nat | RunsFrom(device, x, xs, steps) && k < |steps| && steps[k].ReturnLine? ::
      HoldsOwnResponse(xs[k])
  }

  lemma OwnBytes<S(!new)>(device: Device<S>, x: Session<S>)
    requires Inv(device, x) && Enabled(x, ReturnLine)
    ensures HoldsOwnResponse(x)
  {
    hide Lines, Quiet, LineOf, AfterLine;
    OwnResponse(device, x);
    assert x.rx <= Due(x);
    WholeLine(x.rx, Last(x.served).response.value);
  }

  lemma InvIsSafe<S(!new)>(device: Device<S>, x: Session<S>)
    requires SingleLines(device) && Inv(device, x)
    ensures Safe(device, x)
  {
    hide Inv, Apply, Disciplined, SingleLines, HoldsOwnResponse;
    forall xs: seq<Session<S>>, steps: seq<Step<S>>, k: nat | RunsFrom(device, x, xs, steps) && k < |steps| && steps[k].ReturnLine?
      ensures HoldsOwnResponse(xs[k])
    {
      RunKeepsInv(device, xs, steps, k);
      OwnBytes(device, xs[k]);
    }
  }

  /** A link that is open and idle, with nothing on its way. */
  predicate Idle<S>(x: Session<S>) {
    x.socketOpen && x.alive && x.current.None? && x.toServer == "" && x.serverRx == "" && x.toClient == ""
  }

  /** The state after a query was sent, served with `text` and its response received. */
  function Asked<S>(device: Device<S>, x: Session<S>, command: string, text: string): Session<S> {
    var call := Call(command, true);
    x.(current := Some(Reading(call)), asked := x.asked + [call], served := x.served + [Served(command, Some(text))],
       rx := x.rx + (text + "\n"), instrument := device.reply(x.instrument, command).0)
  }

  lemma NewlineIn(text: string)
    ensures '\n' in text + "\n"
  {
    assert (text + "\n")[|text|] == '\n';
  }

  lemma OneLineBuffered(command: string)
    requires SingleLine(command)
    ensures var text := command + "\n";
            && '\n' in text && NewlineAt(text) == |command| && Chomp(text[..|command| + 1]) == command
            && text[|command| + 1..] == ""
  {
    hide Chomp, NewlineAt;
    NewlineIn(command);
    NewlineOf(command);
    ChompOfLine(command);
    assert (command + "\n")[..|command| + 1] == command + "\n";
  }

  lemma AllOf(text: string)
    ensures text[..|text|] == text && text[|text|..] == "" && "" + text == text
  {}

  /** Sending: the whole line reaches the instrument. */
  lemma Sending<S(!new)>(device: Device<S>, x: Session<S>, command: string) returns (xs: seq<Session<S>>)
    requires Idle(x) && !HasLineTerminator(command)
    ensures var call := Call(command, true);
            && |xs| == 5 && xs[0] == x
            && Enabled(xs[0], Begin(call)) && xs[1] == Apply(device, xs[0], Begin(call))
            && Enabled(xs[1], PutBytes(|command| + 1)) && xs[2] == Apply(device, xs[1], PutBytes(|command| + 1))
            && Enabled(xs[2], Written) && xs[3] == Apply(device, xs[2], Written)
            && Enabled(xs[3], ToServer(|command| + 1)) && xs[4] == Apply(device, xs[3], ToServer(|command| + 1))
            && xs[4] == x.(current := Some(Reading(call)), asked := x.asked + [call], serverRx := command + "\n")
  {
    AllOf(command + "\n");
    var begun := Apply(device, x, Begin(Call(command, true)));
    var put := Apply(device, begun, PutBytes(|command| + 1));
    var waiting := Apply(device, put, Written);
    xs := [x, begun, put, waiting, Apply(device, waiting, ToServer(|command| + 1))];
  }

  lemma Answering<S(!new)>(device: Device<S>, x: Session<S>, command: string)
    requires x.alive && SingleLine(command) && x.serverRx == command + "\n" && x.toClient == ""
    requires device.reply(x.instrument, command).1.Some?
    ensures Enabled(x, ServeLine(false))
    ensures var (after, response) := device.reply(x.instrument, command);
            Apply(device, x, ServeLine(false)) ==
            x.(serverRx := "", instrument := after, served := x.served + [Served(command, response)], toClient := response.value + "\n")
  {
    hide Chomp, NewlineAt, SingleLine;
    OneLineBuffered(command);
    var text := device.reply(x.instrument, command).1.value;
    assert "" + text + "\n" == text + "\n";
  }

  lemma Receiving<S(!new)>(device: Device<S>, x: Session<S>, text: string)
    requires x.alive && x.current.Some? && x.current.value.Reading? && x.toClient == text
    ensures Enabled(x, ToClient(|text|)) && Apply(device, x, ToClient(|text|)) == x.(toClient := "", rx := x.rx + text)
  {
    AllOf(text);
  }

  function AskingSteps<S>(command: string, text: string): seq<Step<S>> {
    [Begin(Call(command, true)), PutBytes(|command| + 1), Written, ToServer(|command| + 1), ServeLine(false), ToClient(|text| + 1)]
  }

  /** A query up to the moment when its response has been received. */
  lemma Asking<S(!new)>(device: Device<S>, x: Session<S>, command: string) returns (xs: seq<Session<S>>)
    requires Idle(x) && !HasLineTerminator(command) && device.reply(x.instrument, command).1.Some?
    ensures var text := device.reply(x.instrument, command).1.value;
            && IsRun(device, xs, AskingSteps(command, text)) && xs[0] == x && xs[6] == Asked(device, x, command, text)
  {
    hide Apply, Enabled, HasLineTerminator;
    UnterminatedIsSingle(command);
    var text := device.reply(x.instrument, command).1.value;
    var sent := Sending(device, x, command);
    Answering(device, sent[4], command);
    var served := Apply(device, sent[4], ServeLine(false));
    Receiving(device, served, text + "\n");
    assert |text + "\n"| == |text| + 1;
    xs := sent + [served, Apply(device, served, ToClient(|text| + 1))];
  }

  lemma FollowsConcat<S(!new)>(device: Device<S>, xs: seq<Session<S>>, steps: seq<Step<S>>, ys: seq<Session<S>>, more: seq<Step<S>>)
    requires Follows(device, xs, steps) && Follows(device, ys, more) && xs[|xs| - 1] == ys[0]
    ensures Follows(device, xs + ys[1..], steps + more)
  {
    hide Apply, Enabled;
    var zs, all := xs + ys[1..], steps + more;
    forall i | 0 <= i < |all| ensures Enabled(zs[i], all[i]) && zs[i + 1] == Apply(device, zs[i], all[i]) {
      if i >= |steps| {
        var k := i - |steps|;
        assert zs[i + 1] == ys[k + 1];
        assert zs[i] == ys[k] by { if k > 0 { assert zs[i] == ys[1..][k - 1]; } }
      }
    }
  }

  lemma OneStep<S(!new)>(device: Device<S>, x: Session<S>, step: Step<S>)
    requires Enabled(x, step)
    ensures Follows(device, [x, Apply(device, x, step)], [step])
  {}

  lemma OpenedIdle<S>(device: Device<S>, x: Session<S>)
    requires Enabled(x, Open)
    ensures var y := Apply(device, x, Open);
            Idle(y) && y.rx == x.rx && y.instrument == x.instrument && y.asked == [] && y.served == []
  {}

  lemma Disturbed<S(!new)>(device: Device<S>, x: Session<S>, command: string, text: string)
    requires x.rx != ""
    ensures !HoldsOwnResponse(Asked(device, x, command, text)) && Enabled(Asked(device, x, command, text), ReturnLine)
  {
    NewlineIn(text);
    var y := Asked(device, x, command, text);
    assert Last(y.served) == Served(command, Some(text));
    assert |y.rx| > |text + "\n"|;
    assert y.rx[|y.rx| - 1] == '\n';
  }

  /** Opening again is safe if and only if no received bytes are left over: any byte, a whole line or not, ends up in
      front of the next response. */
  lemma ReopeningIsSafe<S(!new)>(device: Device<S>, x: Session<S>, command: string)
    requires SingleLines(device) && Inv(device, x) && Enabled(x, Open)
    requires !HasLineTerminator(command) && device.reply(x.instrument, command).1.Some?
    ensures Safe(device, Apply(device, x, Open)) <==> x.rx == ""
  {
    hide Inv, Apply, Disciplined, SingleLines, HoldsOwnResponse, HasLineTerminator, Idle, Enabled, Follows, Asked;
    var y := Apply(device, x, Open);
    OpenedIdle(device, x);
    if x.rx == "" {
      OpenKeepsInv(device, x);
      InvIsSafe(device, y);
    } else {
      var text := device.reply(x.instrument, command).1.value;
      var xs := Asking(device, y, command);
      Disturbed(device, y, command, text);
      var steps := AskingSteps(command, text) + [ReturnLine];
      RunLength(device, xs, AskingSteps(command, text));
      QueriesAreDisciplined(device, xs[6], ReturnLine);
      var zs := xs + [Apply(device, xs[6], ReturnLine)];
      RunOnce(device, xs, AskingSteps(command, text), ReturnLine);
      assert RunsFrom(device, y, zs, steps) && steps[6].ReturnLine?;
      assert zs[6] == xs[6];
    }
  }

  lemma RunLength<S(!new)>(device: Device<S>, xs: seq<Session<S>>, steps: seq<Step<S>>)
    requires IsRun(device, xs, steps)
    ensures |xs| == |steps| + 1
  {}

  lemma QueriesAreDisciplined<S(!new)>(device: Device<S>, x: Session<S>, step: Step<S>)
    requires !step.Begin? && !step.Open? && !step.Drift?
    ensures Disciplined(device, x, step)
  {}

  /** One more step of a run. */
  lemma RunOnce<S(!new)>(device: Device<S>, xs: seq<Session<S>>, steps: seq<Step<S>>, step: Step<S>)
    requires IsRun(device, xs, steps) && Enabled(xs[|steps|], step) && Disciplined(device, xs[|steps|], step)
    ensures IsRun(device, xs + [Apply(device, xs[|steps|], step)], steps + [step])
  {
    hide Apply, Enabled, Disciplined;
  }

  /** The line at the front of the bytes received is the one that came late. */
  lemma LateLineFirst(late: string, rest: string)
    requires SingleLine(late)
    ensures '\n' in (late + "\n") + rest && LineOf((late + "\n") + rest) == late
  {
    hide NewlineAt, Chomp, SingleLine;
    NewlineIn(late);
    OneLineBuffered(late);
    assert (late + "\n" + rest)[|late|] == '\n';
    NewlineOfConcat(late + "\n", rest);
    FoundNewline(late + "\n" + rest);
    assert (late + "\n" + rest)[..|late| + 1] == late + "\n" == (late + "\n")[..|late| + 1];
  }

  /** A run to a session whose caller gave up just before its line was returned. */
  lemma LateLine<S(!new)>(device: Device<S>, instrument: S, late: string) returns (xs: seq<Session<S>>, steps: seq<Step<S>>)
    requires !HasLineTerminator(late) && device.reply(instrument, late).1.Some?
    ensures Follows(device, xs, steps) && xs[0] == Fresh(instrument)
    ensures var x, (after, answer) := xs[|xs| - 1], device.reply(instrument, late);
            !x.socketOpen && x.rx == answer.value + "\n" && x.current.None? && x.instrument == after
    ensures forall i :: 0 <= i < |steps| && steps[i].Begin? ==> steps[i].call.query
  {
    hide Follows, HasLineTerminator;
    var text := device.reply(instrument, late).1.value;
    var opening := [Fresh(instrument), Apply(device, Fresh(instrument), Open)];
    OneStep(device, Fresh(instrument), Open);
    var asking := Asking(device, opening[1], late);
    FollowsEnd(device, asking, AskingSteps(late, text));
    OneStep(device, asking[6], TimeOut);
    FollowsConcat(device, opening, [Open], asking, AskingSteps(late, text));
    FollowsConcat(device, opening + asking[1..], [Open] + AskingSteps(late, text), [asking[6], Apply(device, asking[6], TimeOut)], [TimeOut]);
    xs := opening + asking[1..] + [asking[6], Apply(device, asking[6], TimeOut)][1..];
    steps := [Open] + AskingSteps(late, text) + [TimeOut];
    assert "" + (text + "\n") == text + "\n";
  }

  lemma FollowsEnd<S(!new)>(device: Device<S>, xs: seq<Session<S>>, steps: seq<Step<S>>)
    requires Follows(device, xs, steps)
    ensures |xs| == |steps| + 1
  {}

  /** What reopening without close() does, with any instrument: a line that came in while its caller gave up is kept by
      the timeout and by open(), and the next query returns it as its own. Every other rule is kept in this run. */
  lemma ReopeningWithoutClose<S(!new)>(device: Device<S>, instrument: S, late: string, command: string)
    returns (xs: seq<Session<S>>, steps: seq<Step<S>>)
    requires !HasLineTerminator(late) && !HasLineTerminator(command)
    requires device.reply(instrument, late).1.Some? && SingleLine(device.reply(instrument, late).1.value)
    requires device.reply(device.reply(instrument, late).0, command).1.Some?
    ensures Follows(device, xs, steps) && xs[0] == Fresh(instrument) && Enabled(xs[|xs| - 1], ReturnLine)
    ensures var x, answer := xs[|xs| - 1], device.reply(device.reply(instrument, late).0, command).1;
            && CallOf(x.current.value) == Call(command, true) && x.served != [] && Last(x.served) == Served(command, answer)
            && LineOf(x.rx) == device.reply(instrument, late).1.value
    ensures forall i :: 0 <= i < |steps| && steps[i].Begin? ==> steps[i].call.query
  {
    hide LineOf, Follows, HasLineTerminator, SingleLine, Apply;
    var first := device.reply(instrument, late).1.value;
    var second := device.reply(device.reply(instrument, late).0, command).1.value;
    var before, begun := LateLine(device, instrument, late);
    FollowsEnd(device, before, begun);
    var stale := before[|before| - 1];
    OneStep(device, stale, Open);
    OpenedIdle(device, stale);
    var again := Apply(device, stale, Open);
    var asking := Asking(device, again, command);
    FollowsEnd(device, asking, AskingSteps(command, second));
    FollowsConcat(device, before, begun, [stale, again], [Open]);
    FollowsConcat(device, before + [stale, again][1..], begun + [Open], asking, AskingSteps(command, second));
    xs, steps := before + [stale, again][1..] + asking[1..], begun + [Open] + AskingSteps(command, second);
    assert xs[|xs| - 1] == asking[6];
    LateLineFirst(first, second + "\n");
  }
}
