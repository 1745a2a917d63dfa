/**
 * The other side of the coordinator: the goroutines of dispatchNext (internal/orchestrator/orchestrator.go),
 * DispatchTask (internal/worker/manager.go) and the servers of internal/workerserver/server.go.
 */
module World {
  import opened Workers
  import opened Protocol

  class World {
    var flights: map<string, Flight>
    var channel: seq<Message>
    const hosts: seq<Server>
    /** For each server the requests whose caller has given up but which may still arrive. */
    var late: seq<multiset<string>>

    constructor (hosts: seq<Server>)
      ensures this.hosts == hosts && flights == map[] && channel == [] && late == seq(|hosts|, _ => multiset{})
    {
      this.hosts := hosts;
      flights, channel, late := map[], [], seq(|hosts|, _ => multiset{});
    }

    /** Different servers, each with the gate and the late requests of the protocol state. */
    ghost predicate ShowsServers(servers: seq<ServerState>)
      reads this, hosts
    {
      && |hosts| == |late| == |servers|
      && (forall v, w :: 0 <= v < w < |hosts| ==> hosts[v] != hosts[w])
      && forall w :: 0 <= w < |hosts| ==> servers[w] == ServerState(hosts[w].State(), late[w])
    }

    ghost predicate Shows(s: State)
      reads this, hosts
    {
      flights == s.flights && channel == s.channel && ShowsServers(s.servers)
    }

    method Go(id: string, worker: nat)
      modifies this`flights
      ensures flights == old(flights)[id := Flight(worker, Calling)]
    {
      flights := flights[id := Flight(worker, Calling)];
    }

    method Answer(id: string, phase: Phase)
      requires id in flights
      modifies this`flights
      ensures flights == old(flights)[id := old(flights)[id].(phase := phase)]
    {
      flights := flights[id := flights[id].(phase := phase)];
    }

    /** The request reaches the server: rejected while busy, admitted otherwise. */
    method Arrive(id: string, ghost s: State)
      requires Shows(s) && Sane(s) && id in flights
      modifies this, hosts
      ensures var w := old(flights)[id].worker;
              flights == old(flights)[id := Flight(w, if old(hosts[w].busy) then Answered(RpcError("worker is busy"))
                                                       else Serving)]
      ensures Shows(DoArrive(s, id))
    {
      var admitted := hosts[flights[id].worker].Admit(id);
      Answer(id, if admitted then Serving else Answered(RpcError("worker is busy")));
    }

    /** vmctl ends: the deferred reset runs and the reply gets back. */
    method Reply(id: string, outcome: Outcome, ghost s: State)
      requires Shows(s) && Sane(s) && id in flights
      modifies this, hosts
      ensures flights == old(flights)[id := Flight(old(flights)[id].worker, Answered(outcome))]
      ensures Shows(DoReply(s, id, outcome))
    {
      hosts[flights[id].worker].Reset();
      Answer(id, Answered(outcome));
    }

    /** The call fails under the coordinator; a request not yet delivered may still arrive. */
    method Lose(id: string, ghost s: State)
      requires Shows(s) && Sane(s) && id in flights
      modifies this
      ensures Shows(DoLose(s, id))
    {
      var w := flights[id].worker;
      if flights[id].phase == Calling {
        late := late[w := late[w] + multiset{id}];
      }
      Answer(id, Answered(RpcError("unavailable")));
    }

    method Release(id: string, ghost s: State)
      requires Shows(s) && Sane(s) && id in flights && flights[id].phase.Answered?
      modifies this
      ensures flights == old(flights)[id := Flight(old(flights)[id].worker, Released(old(flights)[id].phase.outcome))]
      ensures Shows(DoRelease(s, id))
    {
      Answer(id, Released(flights[id].phase.outcome));
    }

    method Send(id: string, ghost s: State)
      requires Shows(s) && id in flights && flights[id].phase.Released?
      modifies this
      ensures channel == old(channel) + [Message(id, old(flights)[id].phase.outcome)] && flights == old(flights) - {id}
      ensures Shows(DoSend(s, id))
    {
      channel := channel + [Message(id, flights[id].phase.outcome)];
      flights := flights - {id};
    }

    method LateArrive(w: nat, id: string, ghost s: State)
      requires Shows(s) && w < |hosts|
      modifies this, hosts
      ensures Shows(DoLateArrive(s, w, id))
    {
      var _ := hosts[w].Admit(id);
      late := late[w := late[w] - multiset{id}];
    }

    method Vanish(w: nat, id: string, ghost s: State)
      requires Shows(s) && w < |hosts|
      modifies this
      ensures Shows(DoVanish(s, w, id))
    {
      late := late[w := late[w] - multiset{id}];
    }

    method LateDone(w: nat, ghost s: State)
      requires Shows(s) && w < |hosts|
      modifies hosts
      ensures Shows(DoLateDone(s, w))
    {
      hosts[w].Reset();
    }

    /** The coordinator takes the first result from the channel. */
    method Receive() returns (m: Message)
      requires channel != []
      modifies this`channel
      ensures m == old(channel)[0] && channel == old(channel)[1..]
    {
      m := channel[0];
      channel := channel[1..];
    }
  }

  /** Idle servers with nothing under way. */
  method StartServers(count: nat) returns (world: World, ghost servers: seq<ServerState>)
    ensures fresh(world) && fresh(world.hosts) && world.flights == map[] && world.channel == []
    ensures servers == seq(count, _ => ServerState(IDLE, multiset{})) && world.ShowsServers(servers)
  {
    var hosts: seq<Server> := [];
    for i := 0 to count
      invariant |hosts| == i && forall k :: 0 <= k < i ==> fresh(hosts[k]) && hosts[k].State() == IDLE
      invariant forall v, w :: 0 <= v < w < i ==> hosts[v] != hosts[w]
    {
      var host := new Server();
      hosts := hosts + [host];
    }
    world := new World(hosts);
    servers := seq(count, _ => ServerState(IDLE, multiset{}));
  }
}
