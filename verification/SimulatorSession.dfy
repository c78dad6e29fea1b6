/** The session with the simulator behind it. */
module SimulatorSession {
  import opened Wrappers
  import opened Text
  import opened Instrument
  import opened Effects
  import opened CommandLine
  import opened Commands
  import opened ClientLines
  import opened PlainLines
  import Queries
  import Session

  /** The instrument as a session sees it: the signal at its inputs, and its state. */
  type Remote = (Signal, State)

  /** One line: the state it leaves, and its response; none for a measurement that never ends. */
  function LineReply(w: World, s: State, line: string): (State, Option<string>) {
    var o := RunLine(Simulator(w), s, line);
    (o.state, if o.ending.Hung? then None else Response(o))
  }

  function Reply(w: World, x: Remote, line: string): (Remote, Option<string>) {
    var (after, response) := LineReply(w.(signal := x.0), x.1, line);
    ((x.0, after), response)
  }

  /** The simulator as the device of a session. Its state holds no line terminators; its signal is any. */
  ghost function DeviceOf(w: World): Session.Device<Remote> {
    Session.Device((x: Remote, line: string) => Reply(w, x, line), (x: Remote) => PlainState(x.1))
  }

  lemma PlainIsSingle(text: string)
    requires Plain(text)
    ensures Session.SingleLine(text)
  {
    Session.UnterminatedIsSingle(text);
  }

  lemma ReplyIsPlain(w: World, s: State, line: string)
    requires PlainWorld(w) && PlainState(s) && Plain(line)
    ensures var (after, response) := LineReply(w, s, line);
            PlainState(after) && (response.Some? ==> Plain(response.value))
  {
    hide HasLineTerminator, PlainState, PlainWorld, RunLine, Response;
    LineIsPlain(w, s, line);
  }

  lemma SignalKeepsPlain(w: World, signal: Signal)
    requires PlainWorld(w)
    ensures PlainWorld(w.(signal := signal))
  {}

  /** What the session asks of its instrument, the simulator does: given single lines, it answers in single lines. */
  lemma SimulatorAnswersInLines(w: World)
    requires PlainWorld(w)
    ensures Session.SingleLines(DeviceOf(w))
  {
    hide HasLineTerminator, PlainState, PlainWorld, LineReply, Session.SingleLine;
    forall x: Remote, line: string | PlainState(x.1) && !HasLineTerminator(line)
      ensures PlainState(Reply(w, x, line).0.1)
      ensures Reply(w, x, line).1.Some? ==> Session.SingleLine(Reply(w, x, line).1.value)
    {
      SignalKeepsPlain(w, x.0);
      ReplyIsPlain(w.(signal := x.0), x.1, line);
      var response := Reply(w, x, line).1;
      if response.Some? { PlainIsSingle(response.value); }
    }
  }

  lemma InitialIsPlain(w: World)
    ensures PlainState(InitialState(w.options))
  {
    hide PlainState, ResetState;
    ResetIsPlain(w.options, []);
  }

  // ------------------------------------------------------------------------------- whole runs

  /** How the client is used: lines given to send() hold no query, and a session is only opened when no received bytes
      are left, which close() sees to. The signal and the instrument's settings may change at any time, as they do when
      a line still in flight at a timeout is served after all, or another client was there between two sessions. */
  ghost predicate WellUsed(x: Session.Session<Remote>, step: Session.Step<Remote>) {
    && (step.Begin? && !step.call.query ==> Queries.Queries(Split(Outside, step.call.command, ';')) == 0)
    && (step.Open? ==> x.rx == "")
    && (step.Drift? ==> PlainState(step.instrument.1))
  }

  /** States in a row, from a link never used to a simulator just made. */
  ghost predicate IsRun(w: World, xs: seq<Session.Session<Remote>>, steps: seq<Session.Step<Remote>>) {
    && |xs| == |steps| + 1
    && (exists signal :: xs[0] == Session.Fresh((signal, InitialState(w.options))))
    && (forall i :: 0 <= i < |steps| ==>
          && Session.Enabled(xs[i], steps[i]) && WellUsed(xs[i], steps[i])
          && xs[i + 1] == Session.Apply(DeviceOf(w), xs[i], steps[i]))
  }

  lemma LineWithoutQueries(w: World, s: State, line: string)
    requires Queries.Queries(Split(Outside, line, ';')) == 0
    ensures LineReply(w, s, line).1.None?
  {
    hide RunLine, Response, Split, Queries.Queries;
    Queries.LinesOfCommandsAreSilent(w, s, line);
  }

  lemma CommandsAreQuiet(w: World, line: string)
    requires Queries.Queries(Split(Outside, line, ';')) == 0
    ensures Session.Quiet(DeviceOf(w), line)
  {
    hide LineReply, Split, Queries.Queries, PlainState;
    forall x: Remote ensures Reply(w, x, line).1.None? { LineWithoutQueries(w.(signal := x.0), x.1, line); }
  }

  /** A well-used link is disciplined in the sense of the session, as long as the state holds no line terminator. */
  lemma WellUsedIsDisciplined(w: World, x: Session.Session<Remote>, step: Session.Step<Remote>)
    requires WellUsed(x, step) && PlainState(x.instrument.1)
    ensures Session.Disciplined(DeviceOf(w), x, step)
  {
    hide LineReply, Split, Queries.Queries, PlainState, Session.Quiet;
    if step.Begin? && !step.call.query { CommandsAreQuiet(w, step.call.command); }
  }

  lemma GoodIsPlain(w: World, x: Session.Session<Remote>)
    requires Session.Inv(DeviceOf(w), x)
    ensures PlainState(x.instrument.1)
  {
    hide PlainState, LineReply;
  }

  lemma {:induction false} RunIsDisciplined(w: World, xs: seq<Session.Session<Remote>>, steps: seq<Session.Step<Remote>>, n: nat)
    requires PlainWorld(w) && IsRun(w, xs, steps) && n <= |steps|
    ensures Session.IsRun(DeviceOf(w), xs[..n + 1], steps[..n])
    ensures Session.Inv(DeviceOf(w), xs[n])
  {
    hide PlainState, PlainWorld, LineReply, Session.Inv, Session.Apply, Session.Enabled, Session.Disciplined, WellUsed, ResetState,
         Session.SingleLines;
    if n == 0 {
      var signal :| xs[0] == Session.Fresh((signal, InitialState(w.options)));
      InitialIsPlain(w);
      assert DeviceOf(w).good((signal, InitialState(w.options)));
      Session.FreshIsInv(DeviceOf(w), (signal, InitialState(w.options)));
    } else {
      RunIsDisciplined(w, xs, steps, n - 1);
      SimulatorAnswersInLines(w);
      GoodIsPlain(w, xs[n - 1]);
      WellUsedIsDisciplined(w, xs[n - 1], steps[n - 1]);
      Session.StepKeepsInv(DeviceOf(w), xs[n - 1], steps[n - 1]);
    }
  }

  /** Session safety for the simulator: a query that returns gets the response to its own line, as the path rule
      computes it from the state and the signal when that line was served, in the course of the call. */
  lemma SimulatorQueriesGetTheirOwnResponse(w: World, xs: seq<Session.Session<Remote>>, steps: seq<Session.Step<Remote>>, k: nat)
    requires PlainWorld(w) && IsRun(w, xs, steps) && k < |steps| && steps[k].ReturnLine?
    ensures Session.Enabled(xs[k], Session.ReturnLine)
    ensures var call, line := Session.CallOf(xs[k].current.value), Session.LineOf(xs[k].rx);
            exists j: nat :: j < k && steps[j] == Session.ServeLine(false) && xs[j].asked == xs[k].asked
                          && xs[j].current.Some? && Session.CallOf(xs[j].current.value) == call
                          && Reply(w, xs[j].instrument, call.command).1 == Some(line)
  {
    hide HasLineTerminator, PlainState, PlainWorld, LineReply, Session.SingleLines, Session.LineOf, Session.Apply,
         Session.Disciplined, ResetState, WellUsed;
    SimulatorAnswersInLines(w);
    InitialIsPlain(w);
    RunIsDisciplined(w, xs, steps, |steps|);
    assert xs[..|steps| + 1] == xs && steps[..|steps|] == steps;
    var signal :| xs[0] == Session.Fresh((signal, InitialState(w.options)));
    assert DeviceOf(w).good((signal, InitialState(w.options)));
    Session.QueriesGetTheirOwnResponse(DeviceOf(w), xs, steps, k);
  }

  // ------------------------------------------------------------------- reopening without close()

  lemma IdentificationLine()
    ensures LineText("*IDN", true, "") == "*IDN?" && HeaderText("*IDN") && IsCommon("*IDN")
    ensures CommonKeyOf(Upper("*IDN")) == Some(Idn)
    ensures !HasLineTerminator("*IDN?")
  {
    assert Upper("*IDN") == "*IDN";
  }

  lemma OptionsLine()
    ensures LineText("*OPT", true, "") == "*OPT?" && HeaderText("*OPT") && IsCommon("*OPT")
    ensures CommonKeyOf(Upper("*OPT")) == Some(Opt)
    ensures !HasLineTerminator("*OPT?")
  {
    assert Upper("*OPT") == "*OPT";
  }

  lemma CommonEffects(w: World, s: State)
    ensures CommonEffect(w, s, Command(Common(Idn), [], true, []), Idn) == Respond(s, w.options.identification)
    ensures CommonEffect(w, s, Command(Common(Opt), [], true, []), Opt) == Respond(s, w.options.optionsResponse)
  {}

  lemma IdentificationRuns(w: World, s: State)
    ensures LineReply(w, s, "*IDN?") == (s, Some(w.options.identification))
    ensures LineReply(w, s, "*OPT?") == (s, Some(w.options.optionsResponse))
  {
    hide RunLine, LineText, CommonKeyOf, CommonEffect;
    IdentificationLine();
    OptionsLine();
    CommonEffects(w, s);
    CommonLine(w, s, "*IDN", Idn, true, "");
    CommonLine(w, s, "*OPT", Opt, true, "");
  }

  /** What happens with the simulator when a session is reopened without close(): a *IDN? whose caller gave up just
      before its line was returned, and the *OPT? after it returns the identification. */
  lemma IdentificationAnswersOptions(w: World, signal: Signal)
    returns (xs: seq<Session.Session<Remote>>, steps: seq<Session.Step<Remote>>)
    requires Plain(w.options.identification)
    ensures Session.Follows(DeviceOf(w), xs, steps) && xs[0] == Session.Fresh((signal, InitialState(w.options)))
    ensures Session.Enabled(xs[|xs| - 1], Session.ReturnLine)
    ensures var x := xs[|xs| - 1];
            && Session.CallOf(x.current.value) == Session.Call("*OPT?", true)
            && x.served != [] && Session.Last(x.served) == Session.Served("*OPT?", Some(w.options.optionsResponse))
            && Session.LineOf(x.rx) == w.options.identification
    ensures forall i :: 0 <= i < |steps| && steps[i].Begin? ==> steps[i].call.query
  {
    hide HasLineTerminator, LineReply, Session.Follows, Session.LineOf, PlainState, ResetState, Session.SingleLine;
    var start := InitialState(w.options);
    IdentificationLine();
    OptionsLine();
    IdentificationRuns(w.(signal := signal), start);
    PlainIsSingle(w.options.identification);
    xs, steps := Session.ReopeningWithoutClose(DeviceOf(w), (signal, start), "*IDN?", "*OPT?");
  }

  /** Reopening a link to the simulator is safe if and only if no received bytes are left over. */
  lemma ReopeningIsSafe(w: World, x: Session.Session<Remote>)
    requires PlainWorld(w) && Session.Inv(DeviceOf(w), x) && Session.Enabled(x, Session.Open)
    ensures Session.Safe(DeviceOf(w), Session.Apply(DeviceOf(w), x, Session.Open)) <==> x.rx == ""
  {
    hide HasLineTerminator, LineReply, PlainState, PlainWorld, Session.Inv, Session.Apply, Session.Safe, Session.SingleLines,
         Session.Enabled;
    SimulatorAnswersInLines(w);
    IdentificationLine();
    IdentificationRuns(w.(signal := x.instrument.0), x.instrument.1);
    Session.ReopeningIsSafe(DeviceOf(w), x, "*IDN?");
  }
}
