/** The TCP transport's methods on their two pieces of state, for whatever the network does meanwhile. */
module TcpTransport {
  import opened Wrappers
  import opened Session
  import Transport

  /** How an asynchronous operation ended, with the bytes a read took off the socket before. */
  datatype Event = Completed(data: string) | Failed(data: string) | Stalled(data: string)

  /** The transport's state: the socket, and the bytes received beyond the last line returned. */
  datatype Endpoint = Endpoint(isOpen: bool, rx: string)

  /** How an operation that did not complete is reported. */
  function NotDone<T>(event: Event): Result<T>
    requires !event.Completed?
  {
    Failure(if event.Failed? then Connection else Timeout)
  }

  /** Connecting: an open transport is left alone, and the bytes of an earlier session stay where they are. */
  predicate OpenDoes(before: Endpoint, resolved: bool, event: Event, after: Endpoint, r: Result<()>) {
    && after.rx == before.rx
    && (before.isOpen ==> r == Success(()) && after.isOpen)
    && (!before.isOpen && !resolved ==> r == Failure(Connection) && !after.isOpen)
    && (!before.isOpen && resolved ==>
          after.isOpen == event.Completed? && r == if event.Completed? then Success(()) else NotDone(event))
  }

  /** Writing: a timeout closes the socket, an error does not. */
  predicate WriteDoes(before: Endpoint, event: Event, after: Endpoint, r: Result<()>) {
    && after.rx == before.rx
    && (!before.isOpen ==> r == Failure(Connection) && !after.isOpen)
    && (before.isOpen ==> after.isOpen == !event.Stalled? && r == if event.Completed? then Success(()) else NotDone(event))
  }

  /** Reading: a line is taken off the bytes received, and what arrived before a timeout or an error is kept. */
  predicate ReadLineDoes(before: Endpoint, event: Event, after: Endpoint, r: Result<string>) {
    var received := before.rx + event.data;
    && (!before.isOpen ==> r == Failure(Connection) && after == before)
    && (before.isOpen && event.Completed? ==>
          '\n' in received && r == Success(LineOf(received)) && after == Endpoint(true, AfterLine(received)))
    && (before.isOpen && !event.Completed? ==> r == NotDone(event) && after == Endpoint(event.Failed?, received))
  }

  class TcpTransport {
    var isOpen: bool
    var rx: string

    constructor ()
      ensures !isOpen && rx == ""
    {
      isOpen, rx := false, "";
    }

    function Now(): Endpoint
      reads this
    {
      Endpoint(isOpen, rx)
    }

    /** Runs the operation to its end or to the timeout; a timeout closes the socket. */
    method RunOperation(event: Event) returns (timedOut: bool)
      modifies this`isOpen
      ensures timedOut == event.Stalled?
      ensures isOpen == (old(isOpen) && !timedOut)
    {
      timedOut := event.Stalled?;
      if timedOut { isOpen := false; }
    }

    method Open(resolved: bool, event: Event) returns (r: Result<()>)
      modifies this`isOpen
      ensures OpenDoes(old(Now()), resolved, event, Now(), r)
    {
      if isOpen { return Success(()); }
      if !resolved { return Failure(Connection); }
      isOpen := true;
      var timedOut := RunOperation(event);
      if timedOut { return Failure(Timeout); }
      if event.Failed? {
        isOpen := false;
        return Failure(Connection);
      }
      return Success(());
    }

    method Close()
      modifies this
      ensures Now() == Endpoint(false, "")
    {
      isOpen, rx := false, "";
    }

    method Write(event: Event) returns (r: Result<()>)
      modifies this`isOpen
      ensures WriteDoes(old(Now()), event, Now(), r)
    {
      if !isOpen { return Failure(Connection); }
      var timedOut := RunOperation(event);
      if timedOut { return Failure(Timeout); }
      if event.Failed? { return Failure(Connection); }
      return Success(());
    }

    method ReadLine(event: Event) returns (r: Result<string>)
      requires event.Completed? ==> '\n' in rx + event.data
      modifies this
      ensures ReadLineDoes(old(Now()), event, Now(), r)
    {
      if !isOpen { return Failure(Connection); }
      rx := rx + event.data;
      var timedOut := RunOperation(event);
      if timedOut { return Failure(Timeout); }
      if event.Failed? { return Failure(Connection); }
      FoundNewline(rx);
      var newline := Transport.FindNewline(rx);
      var length := newline + 1;
      var line := rx[..length];
      rx := rx[length..];
      line := StripTerminators(line);
      return Success(line);
    }
  }

  method StripTerminators(text: string) returns (line: string)
    ensures line == Chomp(text)
  {
    line := text;
    while line != "" && (line[|line| - 1] == '\n' || line[|line| - 1] == '\r')
      invariant Chomp(text) == Chomp(line)
      decreases |line|
    {
      line := line[..|line| - 1];
    }
  }

  // ------------------------------------------------------------- the transport inside a session

  /** What a session shows of the transport. */
  function EndpointOf<S>(x: Session<S>): Endpoint { Endpoint(x.socketOpen, x.rx) }

  /** Steps from one session state to another, each enabled when it is taken. */
  ghost predicate Leads<S(!new)>(device: Device<S>, xs: seq<Session<S>>, steps: seq<Step<S>>, x: Session<S>, after: Endpoint) {
    Follows(device, xs, steps) && xs[0] == x && EndpointOf(xs[|steps|]) == after
  }

  lemma NoSteps<S(!new)>(device: Device<S>, x: Session<S>)
    ensures Leads(device, [x], [], x, EndpointOf(x))
  {}

  lemma OneMore<S(!new)>(device: Device<S>, xs: seq<Session<S>>, steps: seq<Step<S>>, x: Session<S>, before: Endpoint, step: Step<S>)
    requires Leads(device, xs, steps, x, before) && Enabled(xs[|steps|], step)
    ensures var y := Apply(device, xs[|steps|], step);
            Leads(device, xs + [y], steps + [step], x, EndpointOf(y)) && (xs + [y])[|steps| + 1] == y
  {
    hide Apply, Enabled;
  }

  /** open() is the opening step of a session when it connects, and no step at all otherwise. */
  lemma OpenIsARun<S(!new)>(device: Device<S>, x: Session<S>, resolved: bool, event: Event, after: Endpoint, r: Result<()>)
    returns (xs: seq<Session<S>>, steps: seq<Step<S>>)
    requires x.current.None? && OpenDoes(EndpointOf(x), resolved, event, after, r)
    ensures Leads(device, xs, steps, x, after)
    ensures r.Success? <==> xs[|steps|].socketOpen
  {
    xs, steps := [x], [];
    NoSteps(device, x);
    if !x.socketOpen && resolved && event.Completed? {
      OneMore(device, xs, steps, x, EndpointOf(x), Open);
      xs, steps := xs + [Apply(device, x, Open)], steps + [Open];
    }
  }

  lemma CloseIsARun<S(!new)>(device: Device<S>, x: Session<S>)
    requires x.current.None?
    ensures Leads(device, [x, Apply(device, x, Close)], [Close], x, Endpoint(false, ""))
  {}

  /** write() puts its bytes on the wire and is done with them, or ends the call after some of them. */
  lemma WriteIsARun<S(!new)>(device: Device<S>, x: Session<S>, event: Event, put: nat, after: Endpoint, r: Result<()>)
    returns (xs: seq<Session<S>>, steps: seq<Step<S>>)
    requires Tied(x) && x.current.Some? && x.current.value.Writing? && WriteDoes(EndpointOf(x), event, after, r)
    requires put <= |x.current.value.unsent| && (event.Completed? ==> put == |x.current.value.unsent|)
    ensures Leads(device, xs, steps, x, after)
    ensures r.Success? ==> Unsent(xs[|steps|].current) == ""
    ensures steps != [] && steps[0] == PutBytes(put)
    ensures r.Failure? ==> xs[|steps|].current.None?
  {
    NoSteps(device, x);
    OneMore(device, [x], [], x, EndpointOf(x), PutBytes(put));
    var y := Apply(device, x, PutBytes(put));
    xs, steps := [x, y], [PutBytes(put)];
    assert [x] + [y] == xs && [] + [PutBytes(put)] == steps;
    var last: Step<S> := if event.Completed? then Written else if event.Stalled? then TimeOut else Fail;
    if event.Failed? && y.alive {
      OneMore(device, xs, steps, x, EndpointOf(y), LoseConnection);
      y := Apply(device, y, LoseConnection);
      xs, steps := xs + [y], steps + [LoseConnection];
    }
    OneMore(device, xs, steps, x, EndpointOf(y), last);
    xs, steps := xs + [Apply(device, y, last)], steps + [last];
  }

  /** read_line() takes bytes off the wire and then returns the line in front, times out, or finds the connection lost. */
  lemma ReadLineIsARun<S(!new)>(device: Device<S>, x: Session<S>, event: Event, after: Endpoint, r: Result<string>)
    returns (xs: seq<Session<S>>, steps: seq<Step<S>>)
    requires Tied(x) && x.current.Some? && x.current.value.Reading? && ReadLineDoes(EndpointOf(x), event, after, r)
    requires event.data <= if x.alive then x.toClient else ""
    requires event.Failed? ==> '\n' !in x.rx + event.data
    ensures Leads(device, xs, steps, x, after) && xs[|steps|].current.None? && steps != []
    ensures r.Success? ==> steps[|steps| - 1] == ReturnLine && '\n' in xs[|steps| - 1].rx && r.value == LineOf(xs[|steps| - 1].rx)
    ensures r == Failure(Timeout) <==> steps[|steps| - 1] == TimeOut
  {
    hide LineOf, AfterLine, Follows;
    NoSteps(device, x);
    xs, steps := [x], [];
    var y := x;
    if x.alive {
      OneMore(device, xs, steps, x, EndpointOf(x), ToClient(|event.data|));
      y := Apply(device, x, ToClient(|event.data|));
      xs, steps := xs + [y], steps + [ToClient(|event.data|)];
    }
    assert y.rx == x.rx + event.data;
    if event.Failed? && y.alive {
      OneMore(device, xs, steps, x, EndpointOf(y), LoseConnection);
      y := Apply(device, y, LoseConnection);
      xs, steps := xs + [y], steps + [LoseConnection];
    }
    var last: Step<S> := if event.Completed? then ReturnLine else if event.Stalled? then TimeOut else Fail;
    OneMore(device, xs, steps, x, EndpointOf(y), last);
    xs, steps := xs + [Apply(device, y, last)], steps + [last];
  }
}
