/** The loopback server: one event loop that accepts a client, reads it line by line and accepts the next one. */
module Server {
  import opened Wrappers
  import opened CommandLine
  import opened Simulator
  import opened Session
  import opened TcpTransport
  import Transport

  class SimulatorServer {
    const simulator: NormaSimulator
    var client: bool
    var rx: string
    var sent: string
    var stalled: bool
    var stopping: bool
    var acceptorOpen: bool
    var connections: nat
    var pendingAccepts: nat
    var pendingReads: nat

    /** Listening starts with one accept under way. */
    constructor (simulator: NormaSimulator)
      ensures this.simulator == simulator && Valid() && !stopping && acceptorOpen && Outstanding() == 1
    {
      this.simulator := simulator;
      client, rx, sent, stalled, stopping, acceptorOpen, connections := false, "", "", false, false, true, 0;
      pendingAccepts, pendingReads := 1, 0;
    }

    function Outstanding(): nat
      reads this
    {
      pendingAccepts + pendingReads
    }

    /** Until stop() there is always exactly one operation under way, an accept or a read; after it at most one. */
    predicate Valid()
      reads this
    {
      && Outstanding() <= 1
      && (!stopping ==> Outstanding() == 1 && acceptorOpen)
      && (!acceptorOpen ==> stopping)
      && (pendingReads == 1 && acceptorOpen ==> client)
      && (pendingAccepts == 1 ==> !client)
    }

    /** The work left once acceptor and client are closed: a read can still lead to one more accept, which then fails. */
    function Remaining(): nat
      reads this
    {
      2 * pendingReads + pendingAccepts
    }

    method AcceptNext()
      requires Outstanding() == 0
      modifies this`pendingAccepts
      ensures pendingAccepts == 1
    {
      pendingAccepts := 1;
    }

    method ReadNext()
      requires Outstanding() == 0
      modifies this`pendingAccepts, this`pendingReads
      ensures Outstanding() == 1 && (pendingReads == 1 <==> client)
    {
      if !client {
        AcceptNext();
      } else {
        pendingReads := 1;
      }
    }

    /** The accept completed. It only fails when the acceptor was closed, but it may have succeeded just before that;
        then the server goes on reading from the client it accepted. */
    method OnAccept(failed: bool)
      requires Valid() && pendingAccepts == 1 && (failed ==> !acceptorOpen)
      modifies this`client, this`rx, this`connections, this`pendingAccepts, this`pendingReads
      ensures Valid()
      ensures !failed ==> client && rx == "" && connections == old(connections) + 1 && pendingReads == 1
      ensures failed ==> Outstanding() == 0 && client == old(client) && rx == old(rx) && connections == old(connections)
      ensures Remaining() < old(Remaining()) <==> failed
    {
      pendingAccepts := 0;
      if failed { return; }
      client, rx := true, "";
      connections := connections + 1;
      ReadNext();
    }

    /** Takes the line off the received bytes and lets the simulator handle it. */
    method HandleFront() returns (response: Option<string>)
      requires '\n' in rx && !RunLine(CommandLine.Simulator(simulator.W()), simulator.state, LineOf(rx)).ending.Hung?
      modifies this`rx, simulator`state, simulator`handledLines
      ensures rx == AfterLine(old(rx))
      ensures simulator.state == old(RunLine(CommandLine.Simulator(simulator.W()), simulator.state, LineOf(rx)).state)
      ensures response == old(Response(RunLine(CommandLine.Simulator(simulator.W()), simulator.state, LineOf(rx))))
    {
      hide RunLine, Response, Perform;
      FoundNewline(rx);
      var newline := Transport.FindNewline(rx);
      var length := newline + 1;
      var line := rx[..length];
      rx := rx[length..];
      line := StripTerminators(line);
      response := simulator.HandleLine(line);
    }

    /** The read completed: the client is gone, or a line arrived; its response is sent unless the server is stalled,
        and the loop goes on. */
    method OnLine(failed: bool, writeFails: bool)
      requires Valid() && pendingReads == 1
      requires !failed ==> '\n' in rx && !RunLine(CommandLine.Simulator(simulator.W()), simulator.state, LineOf(rx)).ending.Hung?
      modifies this`client, this`rx, this`sent, this`pendingAccepts, this`pendingReads, simulator`state, simulator`handledLines
      ensures Valid()
      ensures failed ==> !client && rx == "" && sent == old(sent) && simulator.state == old(simulator.state)
      ensures !failed ==> simulator.state == old(RunLine(CommandLine.Simulator(simulator.W()), simulator.state, LineOf(rx)).state)
      ensures !failed ==>
                var response := old(Response(RunLine(CommandLine.Simulator(simulator.W()), simulator.state, LineOf(rx))));
                && sent == (if response.Some? && !stalled && old(client) && !writeFails then old(sent) + response.value + "\n" else old(sent))
                && client == (old(client) && !(response.Some? && !stalled && writeFails))
      ensures Remaining() < old(Remaining()) <==> !client
    {
      hide RunLine, Response, Perform;
      pendingReads := 0;
      if failed {
        client, rx := false, "";
        if !stopping { AcceptNext(); }
        return;
      }
      var response := HandleFront();
      if response.Some? && !stalled && client {
        if writeFails {
          client := false;
          if !stopping { AcceptNext(); }
          return;
        }
        sent := sent + response.value + "\n";
      }
      ReadNext();
    }

    /** stop() marks the server; the rest happens on the event loop. */
    method Stop()
      requires Valid()
      modifies this`stopping
      ensures Valid() && stopping
    {
      stopping := true;
    }

    /** The part of stop() that runs on the event loop: nothing can be accepted or read any more. */
    method OnStop()
      requires Valid() && stopping
      modifies this`acceptorOpen, this`client
      ensures Valid() && !acceptorOpen && !client && rx == old(rx) && Outstanding() == old(Outstanding())
    {
      acceptorOpen := false;
      client := false;
    }
  }
}
