/** The client library's objects on top of the in-process transport: calls that go through the wire and back. */
module Instrumentation {
  import opened Wrappers
  import opened Text
  import opened Headers
  import opened Instrument
  import opened Measurement
  import opened Effects
  import opened CommandLine
  import opened Client
  import opened ErrorLoop
  import opened ClosedLoop
  import opened DataLoop
  import opened FunctionLists
  import opened NameLists
  import opened Transport
  import opened Runs
  import Invariants

  lemma NewlineAtEnd(command: string)
    requires '\n' !in command
    ensures NewlineAt(command + "\n") == |command|
  {
    NewlineIsLast(command);
    NewlineOfConcat(command, "\n");
  }

  lemma {:induction false} NewlineIsLast(command: string)
    requires '\n' !in command
    ensures NewlineAt(command) == |command|
  {
    if command != "" { NewlineIsLast(command[1..]); }
  }

  /** A command without line terminators is received as that one line. */
  lemma OneLineReceived(m: Machine, x: Wire, command: string)
    requires x.pending == "" && !x.hung && !HasLineTerminator(command)
    ensures Receive(m, x, command + "\n") == Handle(m, x, command)
  {
    hide Handle, Perform;
    var text := command + "\n";
    NewlineAtEnd(command);
    assert "" + text == text;
    assert text[..|command|] == command && text[|command| + 1..] == "";
    assert WithoutReturn(command) == command by {
      if command != "" { assert command[|command| - 1] in command; }
    }
    ReassembleStep(m, x, text);
    assert x.(pending := "") == x;
    EmptyTextDoesNothing(m, Handle(m, x, command));
    HandleKeepsTail(m, x, "", command);
  }

  lemma EmptyTextDoesNothing(m: Machine, x: Wire)
    ensures x.pending == "" ==> Reassemble(m, x, "") == x
  {}

  class ScpiClient {
    const transport: SimulatorTransport

    /** The most reads a drain of the error queue performs. */
    const MAX_DRAIN := 64

    constructor (transport: SimulatorTransport)
      ensures this.transport == transport
    {
      this.transport := transport;
    }

    /** The link is up, no fault is injected and nothing waits on it in either direction. */
    predicate InStep()
      reads this, transport
    {
      && transport.isOpen && !transport.failWrites && !transport.failReads && !transport.stallReads
      && transport.pending == "" && transport.responses == []
    }

    function Remote(): State
      reads this, transport, transport.simulator
    {
      transport.simulator.state
    }

    function Setting(): World
      reads this, transport, transport.simulator
    {
      transport.simulator.W()
    }

    /** What the simulator makes of a command line now. */
    ghost function Reply(command: string): Outcome
      reads this, transport, transport.simulator
    {
      RunLine(CommandLine.Simulator(Setting()), Remote(), command)
    }

    method Send(command: string) returns (r: Result<()>)
      requires InStep() && !Reply(command).ending.Hung?
      modifies transport`pending, transport`responses, transport`writes
      modifies transport.simulator`state, transport.simulator`handledLines
      ensures Setting() == old(Setting())
      ensures HasLineTerminator(command) ==> r == Failure(InvalidArgument) && Remote() == old(Remote()) && InStep()
      ensures !HasLineTerminator(command) ==>
                && r == Success(()) && Remote() == old(Reply(command)).state
                && transport.responses == CommandLine.Listed(Response(old(Reply(command))))
                && transport.pending == "" && transport.writes == old(transport.writes) + [command]
    {
      hide RunLine, Response, Perform, Receive;
      if HasLineTerminator(command) {
        return Failure(InvalidArgument);
      }
      OneLineReceived(transport.Reader(), transport.Link(), command);
      r := transport.Write(command + "\n");
    }

    method Query(command: string) returns (r: Result<string>)
      requires InStep() && !Reply(command).ending.Hung?
      modifies transport`pending, transport`responses, transport`writes
      modifies transport.simulator`state, transport.simulator`handledLines
      ensures Setting() == old(Setting()) && InStep()
      ensures HasLineTerminator(command) ==> r == Failure(InvalidArgument) && Remote() == old(Remote())
      ensures !HasLineTerminator(command) ==>
                && Remote() == old(Reply(command)).state && transport.writes == old(transport.writes) + [command]
                && r == match Response(old(Reply(command))) case None => Failure(Timeout) case Some(text) => Success(text)
    {
      hide RunLine, Response, Perform, Receive;
      var sent := Send(command);
      if sent.Failure? {
        return Failure(sent.error);
      }
      r := transport.ReadLine();
    }

    /** One SYST:ERR? read. */
    method ReadNextError() returns (r: Result<ErrorInfo>)
      requires InStep() && ClientTable(Setting().specs)
      modifies transport`pending, transport`responses, transport`writes
      modifies transport.simulator`state, transport.simulator`handledLines
      ensures Setting() == old(Setting()) && InStep() && |transport.writes| == |old(transport.writes)| + 1
      ensures old(Remote()).errors == [] ==> r == Success(NO_ENTRY) && Remote() == old(Remote())
      ensures old(Remote()).errors != [] ==>
                && r == Success(EntryRead(old(Remote()).errors[0]))
                && Remote() == old(Remote()).(errors := old(Remote()).errors[1..])
    {
      hide RunLine, Perform, Receive, ParsedError, EntryText, EntryRead, ClientTable, NewlineAt;
      ghost var before := Remote();
      NextErrorRuns(Setting(), before);
      var answer := Query("SYST:ERR?");
      if before.errors == [] {
        assert answer == Success(NO_ERROR);
        NoErrorIsRead();
      } else {
        assert answer == Success(EntryText(before.errors[0]));
        EntryIsRead(before.errors[0]);
      }
      r := ParseError(answer.value);
    }

    /** Drains the error queue with SYST:ERR?, giving up after 64 reads. */
    method ReadAllErrors() returns (r: Result<seq<ErrorInfo>>)
      requires InStep() && ClientTable(Setting().specs) && RealErrors(Remote().errors)
      modifies transport`pending, transport`responses, transport`writes
      modifies transport.simulator`state, transport.simulator`handledLines
      ensures Setting() == old(Setting()) && InStep()
      ensures |old(Remote()).errors| < MAX_DRAIN ==>
                && r == Success(EntriesRead(old(Remote()).errors)) && Remote() == old(Remote()).(errors := [])
                && |transport.writes| == |old(transport.writes)| + |old(Remote()).errors| + 1
      ensures |old(Remote()).errors| >= MAX_DRAIN ==>
                r == Failure(Protocol) && Remote() == old(Remote()).(errors := old(Remote()).errors[MAX_DRAIN..])
    {
      hide RunLine, Perform, Receive, MessageRead, ClientTable;
      ghost var queue := Remote().errors;
      var errors := [];
      for i := 0 to MAX_DRAIN
        invariant Setting() == old(Setting()) && InStep() && i <= |queue|
        invariant Remote() == old(Remote()).(errors := queue[i..])
        invariant errors == EntriesRead(queue[..i])
        invariant |transport.writes| == |old(transport.writes)| + i
      {
        var entry := ReadNextError();
        if entry.value.code == 0 {
          assert i == |queue| && queue[..i] == queue;
          return Success(errors);
        }
        assert queue[i..][1..] == queue[i + 1..];
        assert EntriesRead(queue[..i + 1]) == EntriesRead(queue[..i]) + [EntryRead(queue[i])];
        errors := errors + [entry.value];
      }
      return Failure(Protocol);
    }
  }

  class NormaInstrument {
    const scpi: ScpiClient

    constructor (scpi: ScpiClient)
      ensures this.scpi == scpi
    {
      this.scpi := scpi;
    }

    /** Puts an instrument of unknown history into the state the library works in. */
    method Prepare() returns (r: Result<()>)
      requires scpi.InStep() && ClientTable(scpi.Setting().specs)
      modifies scpi.transport`pending, scpi.transport`responses, scpi.transport`writes
      modifies scpi.transport.simulator`state, scpi.transport.simulator`handledLines
      ensures r == Success(()) && scpi.Remote() == Prepared(old(scpi.Remote())) && scpi.InStep()
      ensures scpi.Setting() == old(scpi.Setting())
    {
      hide RunLine, Perform, ClientTable, ClearedStatus, WithTextFormats, WithConcurrent, HasLineTerminator;
      PrepareIsOneLineEach();
      ghost var s0 := scpi.Remote();
      ClearRuns(scpi.Setting(), s0);
      var cleared := scpi.Send("*CLS");
      ghost var s1 := scpi.Remote();
      AsciiRuns(scpi.Setting(), s1);
      var formatted := scpi.Send("FORM ASC,6");
      ghost var s2 := scpi.Remote();
      ConcurrentRuns(scpi.Setting(), s2);
      assert "FUNC:CONC " + BoolWord(true) == "FUNC:CONC ON";
      var switched := scpi.Send("FUNC:CONC " + BoolWord(true));
      PreparedIsReady(s0);
      var drained := scpi.ReadAllErrors();
      PreparedDrains(s0);
      return Success(());
    }

    /** Replaces the list of measured functions. Separate names are stored, or conflict when only one is allowed. */
    method SetFunctions(names: seq<string>) returns (r: Result<()>)
      requires scpi.InStep() && ClientTable(scpi.Setting().specs) && !scpi.Reply("FUNC " + QuoteJoin(names)).ending.Hung?
      modifies scpi.transport`pending, scpi.transport`responses, scpi.transport`writes
      modifies scpi.transport.simulator`state, scpi.transport.simulator`handledLines
      ensures scpi.Setting() == old(scpi.Setting())
      ensures r.Success? <==> names != [] && forall i :: 0 <= i < |names| ==> !HasLineTerminator(names[i])
      ensures r.Failure? ==> r == Failure(InvalidArgument) && scpi.Remote() == old(scpi.Remote()) && scpi.InStep()
      ensures r.Success? ==> scpi.Remote() == old(scpi.Reply("FUNC " + QuoteJoin(names))).state
      ensures r.Success? && OneCommand(names) ==> scpi.InStep()
      ensures r.Success? && OneCommand(names) && SeparateNames(names) && (old(scpi.Remote()).sense.concurrent || |names| == 1) ==>
                scpi.Remote() == WithFunctions(old(scpi.Remote()), UpperAll(names))
      ensures r.Success? && OneCommand(names) && SeparateNames(names) && !old(scpi.Remote()).sense.concurrent && |names| > 1 ==>
                scpi.Remote() == PushError(old(scpi.Remote()), SETTINGS_CONFLICT, "Settings conflict;" + "FUNCtion:CONCurrent is OFF")
      ensures r.Success? && old(scpi.Reply("FUNC " + QuoteJoin(names))).ending.Completed? ==>
                (scpi.Remote().sense.functions == UpperAll(names) <==> OneCommand(names) && SeparateNames(names))
    {
      hide RunLine, Perform, ClientTable, WithFunctions, PushError, QuoteJoin, HasLineTerminator, OneCommand, SeparateNames;
      if names == [] { return Failure(InvalidArgument); }
      var list := JoinQuoted(names);
      CommandTerminators(names);
      SetFunctionsLeaves(scpi.Setting(), scpi.Remote(), names);
      if OneCommand(names) {
        SetFunctionsIsSilent(scpi.Setting(), scpi.Remote(), names);
        if SeparateNames(names) { SetFunctionsRuns(scpi.Setting(), scpi.Remote(), names); }
      }
      r := scpi.Send("FUNC " + list);
    }

    /** The configured list as the client reads it, which is that list if and only if its names are separate. */
    method Functions() returns (r: Result<seq<string>>)
      requires scpi.InStep() && ClientTable(scpi.Setting().specs)
      modifies scpi.transport`pending, scpi.transport`responses, scpi.transport`writes
      modifies scpi.transport.simulator`state, scpi.transport.simulator`handledLines
      ensures scpi.InStep() && scpi.Setting() == old(scpi.Setting()) && scpi.Remote() == old(scpi.Remote())
      ensures r.Success?
      ensures r == Success(scpi.Remote().sense.functions) <==> SeparateNames(scpi.Remote().sense.functions)
    {
      hide RunLine, Perform, ClientTable, QuoteJoin, Fields, SeparateNames;
      FunctionsRuns(scpi.Setting(), scpi.Remote());
      var answer := scpi.Query("FUNC?");
      var names := ParseStrings(answer.value);
      NamesAreRead(scpi.Remote().sense.functions);
      return Success(names);
    }

    /** Measures the given functions, or the configured ones when none are given, with their statuses. */
    method DataWithStatus(names: seq<string>) returns (r: Result<Reading>)
      requires scpi.InStep() && ClientTable(scpi.Setting().specs) && PrintsNumbers(scpi.Setting().host)
      requires !scpi.Reply(DataStatusCommand(names)).ending.Hung?
      modifies scpi.transport`pending, scpi.transport`responses, scpi.transport`writes
      modifies scpi.transport.simulator`state, scpi.transport.simulator`handledLines
      ensures scpi.InStep() && scpi.Setting() == old(scpi.Setting())
      ensures HasLineTerminator(DataStatusCommand(names)) ==> r == Failure(InvalidArgument) && scpi.Remote() == old(scpi.Remote())
      ensures !HasLineTerminator(DataStatusCommand(names)) ==> scpi.Remote() == old(scpi.Reply(DataStatusCommand(names))).state
      ensures ReadAsGiven(names) ==> old(scpi.Reply(DataStatusCommand(names))).ending.Completed?
      ensures !HasLineTerminator(DataStatusCommand(names)) && old(scpi.Reply(DataStatusCommand(names))).ending.Completed? ==>
                && (scpi.Remote() == StateFor(old(scpi.Remote()), names) <==> ReadAsGiven(names))
                && (names == [] || OneCommand(names) ==> ReadsFunctions(scpi.Setting(), scpi.Remote(), r))
    {
      hide RunLine, Perform, ClientTable, PrintsNumbers, DataStatusCommand, StateFor, ReadingOf, HasLineTerminator,
           OneCommand, ReadAsGiven, Fields, ToDoubles, ReadsFunctions;
      DataWithStatusAligns(scpi.Setting(), scpi.Remote(), names);
      var list := JoinQuoted(names);
      DataCommandText(names);
      ghost var w, reply := scpi.Setting(), scpi.Reply(DataStatusCommand(names));
      var answer := scpi.Query(if names == [] then "DATA:STAT?" else "DATA:STAT? " + list);
      if answer.Failure? { return Failure(answer.error); }
      var raw := ParseValues(answer.value);
      if raw.Failure? {
        r := Failure(raw.error);
      } else {
        r := SplitReading(raw.value);
      }
      assert r == ReadingFrom(answer.value);
      if reply.ending.Completed? && (names == [] || OneCommand(names)) {
        OneResponse(reply);
        ReadFromWire(w, reply.state, answer.value, r);
      }
    }

    method ReadErrorsAtOnce() returns (r: Result<seq<ErrorInfo>>)
      requires scpi.InStep() && ClientTable(scpi.Setting().specs) && RealErrors(scpi.Remote().errors)
      modifies scpi.transport`pending, scpi.transport`responses, scpi.transport`writes
      modifies scpi.transport.simulator`state, scpi.transport.simulator`handledLines
      ensures scpi.InStep() && scpi.Setting() == old(scpi.Setting()) && scpi.Remote() == old(scpi.Remote()).(errors := [])
      ensures r == Success(old(scpi.Remote()).errors) <==> Separable(old(scpi.Remote()).errors)
    {
      hide RunLine, Perform, ClientTable, ParsedErrors, AllText, Separable;
      ghost var before := scpi.Remote();
      AllErrorsRun(scpi.Setting(), before);
      var answer := scpi.Query("SYST:ERR:ALL?");
      r := ParseErrors(answer.value);
      if before.errors == [] {
        NoErrorsAreRead();
        NothingIsSeparable();
      } else {
        AllAtOnceIsFaithful(before.errors);
      }
    }
  }

  /** In every run the queue can be drained: its entries are real errors, and at most 33 reads empty it. */
  lemma EveryRunCanBeDrained(w: World, steps: seq<Step>)
    ensures var errors := Run(w, InitialState(w.options), steps).errors;
            RealErrors(errors) && |errors| + 1 <= 33
  {
    hide Run;
    Invariants.EveryRunIsSound(w, steps);
  }

  lemma PrepareIsOneLineEach()
    ensures !HasLineTerminator("*CLS") && !HasLineTerminator("FORM ASC,6") && !HasLineTerminator("FUNC:CONC ON")
  {}

  lemma PreparedDrains(s: State)
    ensures Prepared(s).(errors := []) == Prepared(s)
  {}

  /** A reading with exactly one value and one status for every configured function, each from its measurement, when the
      format is text or the list is empty; a protocol error otherwise. */
  ghost predicate ReadsFunctions(w: World, s: State, r: Result<Reading>) {
    if s.format.data.format.Ascii? || s.sense.functions == [] then
      r.Success? && exists ms: seq<Measured> ::
        && |ms| == |s.sense.functions|
        && (forall i :: 0 <= i < |ms| ==> Measure(w, s, s.sense.functions[i]) == Some(ms[i]))
        && Aligned(s, ms, r.value)
    else r == Failure(Protocol)
  }

  lemma ReadFromWire(w: World, s: State, line: string, r: Result<Reading>)
    requires DataIsRead(w, s, line) && r == ReadingFrom(line)
    ensures ReadsFunctions(w, s, r)
  {
    hide ReadingFrom, Measure, Aligned;
  }

  /** A single response is the response line. */
  lemma OneResponse(o: Outcome)
    ensures |o.responses| == 1 ==> Response(o) == Some(o.responses[0])
  {}

  lemma DataCommandText(names: seq<string>)
    ensures DataStatusCommand(names) == if names == [] then "DATA:STAT?" else "DATA:STAT? " + QuoteJoin(names)
  {
    hide QuoteJoin;
    assert "DATA:STAT?" + "" == "DATA:STAT?";
    assert "DATA:STAT?" + (" " + QuoteJoin(names)) == "DATA:STAT? " + QuoteJoin(names);
  }

  lemma CommandTerminators(names: seq<string>)
    ensures HasLineTerminator("FUNC " + QuoteJoin(names)) <==> exists i :: 0 <= i < |names| && HasLineTerminator(names[i])
  {
    hide QuoteJoin;
    ListTerminators(names);
  }

  lemma {:induction false} ListTerminators(names: seq<string>)
    ensures HasLineTerminator(QuoteJoin(names)) <==> exists i :: 0 <= i < |names| && HasLineTerminator(names[i])
  {
    if |names| == 1 {
      assert HasLineTerminator(Quoted(names[0])) <==> HasLineTerminator(names[0]);
    } else if |names| > 1 {
      ListTerminators(names[1..]);
      assert QuotedAll(names)[1..] == QuotedAll(names[1..]);
      assert HasLineTerminator(Quoted(names[0])) <==> HasLineTerminator(names[0]);
      assert forall i :: 1 <= i < |names| ==> names[i] == names[1..][i - 1];
      assert forall i :: 0 <= i < |names| - 1 ==> names[1..][i] == names[i + 1];
    }
  }
}
