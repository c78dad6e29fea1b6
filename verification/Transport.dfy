/** The in-process transport: written bytes are put together into lines, every complete line is handled at once,
    and the responses wait to be read. */
module Transport {
  import opened Wrappers
  import opened Instrument
  import opened CommandLine
  import opened Simulator

  // -------------------------------------------------------------------- what a byte stream does

  /** The instrument and both directions of the link. */
  datatype Wire = Wire(state: State, lines: seq<string>, responses: seq<string>, pending: string, hung: bool)

  function NewlineAt(s: string): (n: nat)
    ensures n <= |s| && '\n' !in s[..n]
    ensures n < |s| ==> s[n] == '\n'
  {
    if s == "" || s[0] == '\n' then 0
    else
      var n := 1 + NewlineAt(s[1..]);
      assert s[..n] == [s[0]] + s[1..][..n - 1];
      n
  }

  /** A line without the carriage return some clients put in front of the line feed. */
  function WithoutReturn(line: string): string {
    if line != "" && line[|line| - 1] == '\r' then line[..|line| - 1] else line
  }

  /** One complete line is handled. A line whose measurement never ends leaves the link hung. */
  function Handle(m: Machine, x: Wire, line: string): Wire {
    var o := RunLine(m, x.state, line);
    if o.ending.Hung? then x.(hung := true)
    else x.(state := o.state, lines := x.lines + [line], responses := x.responses + Listed(Response(o)))
  }

  /** All complete lines of `text` are handled, the rest stays pending. */
  function Reassemble(m: Machine, x: Wire, text: string): Wire
    decreases |text|
  {
    var n := NewlineAt(text);
    if x.hung then x
    else if n == |text| then x.(pending := text)
    else Reassemble(m, Handle(m, x.(pending := text[n + 1..]), WithoutReturn(text[..n])), text[n + 1..])
  }

  function Receive(m: Machine, x: Wire, data: string): Wire {
    Reassemble(m, x, x.pending + data)
  }

  lemma {:induction false} NewlineOfConcat(a: string, b: string)
    ensures NewlineAt(a) < |a| ==> NewlineAt(a + b) == NewlineAt(a)
    ensures NewlineAt(a) == |a| ==> NewlineAt(a + b) == |a| + NewlineAt(b)
  {
    if a == "" {
      assert a + b == b;
    } else if a[0] != '\n' {
      assert (a + b)[1..] == a[1..] + b;
      NewlineOfConcat(a[1..], b);
    }
  }

  /** What the tail was before makes no difference once the text is put together. */
  lemma TailIsReplaced(m: Machine, x: Wire, p: string, text: string)
    requires !x.hung
    ensures Reassemble(m, x.(pending := p), text) == Reassemble(m, x, text)
  {
    hide Handle;
    if NewlineAt(text) < |text| {
      var rest := text[NewlineAt(text) + 1..];
      assert x.(pending := p).(pending := rest) == x.(pending := rest);
    }
  }

  /** The link after the first line of `text` and all that follows it. */
  function AfterFirstLine(m: Machine, x: Wire, text: string): Wire
    requires NewlineAt(text) < |text|
  {
    var n := NewlineAt(text);
    Reassemble(m, Handle(m, x.(pending := text[n + 1..]), WithoutReturn(text[..n])), text[n + 1..])
  }

  lemma ReassembleStep(m: Machine, x: Wire, text: string)
    requires !x.hung
    ensures NewlineAt(text) == |text| ==> Reassemble(m, x, text) == x.(pending := text)
    ensures NewlineAt(text) < |text| ==> Reassemble(m, x, text) == AfterFirstLine(m, x, text)
  {
    hide Handle;
  }

  lemma HungIsKept(m: Machine, x: Wire, text: string)
    requires x.hung
    ensures Reassemble(m, x, text) == x
  {}

  /** Handing text over in two parts is handing it over at once. */
  lemma {:induction false} ReassembleInParts(m: Machine, x: Wire, a: string, b: string)
    ensures var first := Reassemble(m, x, a);
            !first.hung ==> Reassemble(m, x, a + b) == Reassemble(m, first, first.pending + b)
    decreases |a|
  {
    hide Handle, NewlineAt, Reassemble, WithoutReturn;
    if x.hung {
      HungIsKept(m, x, a);
    } else {
      ReassembleStep(m, x, a);
      ReassembleStep(m, x, a + b);
      NewlineOfConcat(a, b);
      var n := NewlineAt(a);
      if n == |a| {
        TailIsReplaced(m, x, a, a + b);
      } else {
        LineInFront(m, x, a, b);
      }
    }
  }

  lemma LineInFront(m: Machine, x: Wire, a: string, b: string)
    requires !x.hung && NewlineAt(a) < |a| && NewlineAt(a + b) == NewlineAt(a)
    requires Reassemble(m, x, a) == AfterFirstLine(m, x, a) && Reassemble(m, x, a + b) == AfterFirstLine(m, x, a + b)
    ensures var first := Reassemble(m, x, a);
            !first.hung ==> Reassemble(m, x, a + b) == Reassemble(m, first, first.pending + b)
    decreases |a|, 0
  {
    hide Handle, NewlineAt, Reassemble, WithoutReturn;
    var n := NewlineAt(a);
    assert (a + b)[..n] == a[..n] && (a + b)[n + 1..] == a[n + 1..] + b;
    var line, rest, all := WithoutReturn(a[..n]), a[n + 1..], (a + b)[n + 1..];
    var y := Handle(m, x.(pending := rest), line);
    ReassembleInParts(m, y, rest, b);
    HandleKeepsTail(m, x.(pending := rest), all, line);
    assert x.(pending := rest).(pending := all) == x.(pending := all);
    if y.hung { HungIsKept(m, y, rest); } else { TailIsReplaced(m, y, all, all); }
  }

  lemma HandleKeepsTail(m: Machine, x: Wire, p: string, line: string)
    ensures Handle(m, x.(pending := p), line) == Handle(m, x, line).(pending := p)
  {
    hide RunLine, Response;
  }

  /** Chunking independence: however a stream is cut into writes, the same lines are handled, with the same
      responses and the same tail left pending. */
  lemma WritesJoinUp(m: Machine, x: Wire, a: string, b: string)
    requires !Receive(m, x, a).hung
    ensures Receive(m, Receive(m, x, a), b) == Receive(m, x, a + b)
  {
    hide Reassemble;
    assert x.pending + (a + b) == (x.pending + a) + b;
    ReassembleInParts(m, x, x.pending + a, b);
  }

  function ReceiveAll(m: Machine, x: Wire, chunks: seq<string>): Wire
    decreases |chunks|
  {
    if chunks == [] then x else ReceiveAll(m, Receive(m, x, chunks[0]), chunks[1..])
  }

  function Joined(chunks: seq<string>): string {
    if chunks == [] then "" else chunks[0] + Joined(chunks[1..])
  }

  lemma {:induction false} HungStaysHung(m: Machine, x: Wire, chunks: seq<string>)
    requires x.hung
    ensures ReceiveAll(m, x, chunks) == x
    decreases |chunks|
  {
    if chunks != [] { HungStaysHung(m, x, chunks[1..]); }
  }

  /** The same for any number of writes of a stream that is handled to its end. */
  lemma {:induction false} StreamDecides(m: Machine, x: Wire, chunks: seq<string>)
    requires chunks != [] && !ReceiveAll(m, x, chunks).hung
    ensures ReceiveAll(m, x, chunks) == Receive(m, x, Joined(chunks))
    decreases |chunks|
  {
    hide Receive;
    var first := Receive(m, x, chunks[0]);
    if first.hung { FirstWriteHangs(m, x, chunks); }
    if |chunks| == 1 {
      assert chunks[1..] == [];
      assert Joined(chunks) == chunks[0] + "" == chunks[0];
    } else {
      StreamDecides(m, first, chunks[1..]);
      WritesJoinUp(m, x, chunks[0], Joined(chunks[1..]));
    }
  }

  lemma FirstWriteHangs(m: Machine, x: Wire, chunks: seq<string>)
    requires chunks != [] && Receive(m, x, chunks[0]).hung
    ensures ReceiveAll(m, x, chunks).hung
  {
    hide Receive;
    HungStaysHung(m, Receive(m, x, chunks[0]), chunks[1..]);
  }

  // -------------------------------------------------------------------------------- the transport

  method FindNewline(text: string) returns (n: nat)
    ensures n == NewlineAt(text)
  {
    n := 0;
    while n < |text| && text[n] != '\n'
      invariant n <= |text| && NewlineAt(text) == n + NewlineAt(text[n..])
    {
      assert text[n..][1..] == text[n + 1..];
      n := n + 1;
    }
  }

  class SimulatorTransport {
    const simulator: NormaSimulator
    var pending: string
    var responses: seq<string>
    var isOpen: bool
    var writes: seq<string>
    var failWrites: bool
    var failReads: bool
    var stallReads: bool

    constructor (simulator: NormaSimulator)
      ensures this.simulator == simulator && !isOpen && pending == "" && responses == [] && writes == []
      ensures !failWrites && !failReads && !stallReads
    {
      this.simulator := simulator;
      pending, responses, isOpen, writes := "", [], false, [];
      failWrites, failReads, stallReads := false, false, false;
    }

    function Link(): Wire
      reads this, simulator
    {
      Wire(simulator.state, writes, responses, pending, false)
    }

    function Reader(): Machine
      reads simulator
    {
      CommandLine.Simulator(simulator.W())
    }

    method Open()
      modifies this`isOpen
      ensures isOpen
    {
      isOpen := true;
    }

    /** Closing forgets the unread responses, but not the bytes of an unfinished line. */
    method Close()
      modifies this`isOpen, this`responses
      ensures !isOpen && Link() == old(Link()).(responses := [])
    {
      isOpen := false;
      responses := [];
    }

    /** Handles one complete line. */
    method HandleNext(line: string)
      requires !RunLine(Reader(), simulator.state, line).ending.Hung?
      modifies this`responses, this`writes, simulator`state, simulator`handledLines
      ensures Link() == Handle(old(Reader()), old(Link()), line) && simulator.W() == old(simulator.W())
    {
      hide RunLine, Response, Perform;
      writes := writes + [line];
      var response := simulator.HandleLine(line);
      if response.Some? { responses := responses + [response.value]; }
      assert responses == old(responses) + Listed(response);
    }

    /** Takes the first complete line off the pending bytes and handles it. */
    method TakeLine(newline: nat)
      requires newline == NewlineAt(pending) < |pending| && !Reassemble(Reader(), Link(), pending).hung
      modifies this`pending, this`responses, this`writes, simulator`state, simulator`handledLines
      ensures |pending| < |old(pending)| && simulator.W() == old(simulator.W())
      ensures Reassemble(old(Reader()), Link(), pending) == Reassemble(old(Reader()), old(Link()), old(pending))
    {
      hide Handle, Reassemble, RunLine, Response, Perform, NewlineAt;
      ghost var m, before, text := Reader(), Link(), pending;
      var line := pending[..newline];
      pending := pending[newline + 1..];
      if line != "" && line[|line| - 1] == '\r' {
        line := line[..|line| - 1];
      }
      ReassembleStep(m, before, text);
      HandledIsNotHung(m, Link(), line, pending);
      HandleNext(line);
    }

    /** Appends to the pending bytes and handles every line they complete. */
    method Write(data: string) returns (r: Result<()>)
      requires !Receive(Reader(), Link(), data).hung
      modifies this`pending, this`responses, this`writes, simulator`state, simulator`handledLines
      ensures !isOpen || failWrites ==> r == Failure(Connection) && Link() == old(Link())
      ensures isOpen && !failWrites ==> r == Success(()) && Link() == Receive(old(Reader()), old(Link()), data)
      ensures simulator.W() == old(simulator.W())
    {
      hide Handle, Reassemble, RunLine, Response, Perform, NewlineAt;
      if !isOpen { return Failure(Connection); }
      if failWrites { return Failure(Connection); }
      ghost var m, goal := Reader(), Receive(Reader(), Link(), data);
      pending := pending + data;
      TailIsReplaced(m, old(Link()), pending, pending);
      var newline := FindNewline(pending);
      while newline < |pending|
        invariant newline == NewlineAt(pending) && simulator.W() == old(simulator.W())
        invariant Reassemble(m, Link(), pending) == goal
        decreases |pending|
      {
        TakeLine(newline);
        newline := FindNewline(pending);
      }
      ReassembleStep(m, Link(), pending);
      return Success(());
    }

    method ReadLine() returns (r: Result<string>)
      modifies this`responses
      ensures !isOpen || failReads ==> r == Failure(Connection) && Link() == old(Link())
      ensures isOpen && !failReads && (stallReads || old(responses) == []) ==> r == Failure(Timeout) && Link() == old(Link())
      ensures isOpen && !failReads && !stallReads && old(responses) != [] ==>
                r == Success(old(responses)[0]) && Link() == old(Link()).(responses := old(responses)[1..])
    {
      if !isOpen || failReads { return Failure(Connection); }
      if stallReads || responses == [] { return Failure(Timeout); }
      r := Success(responses[0]);
      responses := responses[1..];
    }
  }

  /** One turn of the loop in `Write`. */
  lemma HandledIsNotHung(m: Machine, x: Wire, line: string, rest: string)
    requires !x.hung && !Reassemble(m, Handle(m, x, line), rest).hung
    ensures !RunLine(m, x.state, line).ending.Hung?
  {
    hide RunLine, Response;
    HungStopsReassembly(m, Handle(m, x, line), rest);
  }

  lemma HungStopsReassembly(m: Machine, x: Wire, rest: string)
    ensures x.hung ==> Reassemble(m, x, rest) == x
  {}
}
