/**
 * Worker ownership on both sides: the coordinator's busy flags (internal/worker/manager.go) and the
 * worker's one-task-at-a-time gate (internal/workerserver/server.go).
 */
module Workers {

  // ---------- the coordinator's side ----------

  function FirstIdle(busy: seq<bool>): (i: nat)
    ensures i <= |busy| && (forall k :: 0 <= k < i ==> busy[k]) && (i < |busy| ==> !busy[i])
  {
    if busy == [] || !busy[0] then 0 else 1 + FirstIdle(busy[1..])
  }

  function IdleCount(busy: seq<bool>): nat {
    if busy == [] then 0 else (if busy[0] then 0 else 1) + IdleCount(busy[1..])
  }

  /** Acquiring takes away one idle worker, exactly when there is one. */
  lemma {:induction false} AcquireTakesOne(busy: seq<bool>)
    ensures var i := FirstIdle(busy);
            if i < |busy| then IdleCount(busy[i := true]) + 1 == IdleCount(busy) else IdleCount(busy) == 0
  {
    if busy != [] && busy[0] {
      AcquireTakesOne(busy[1..]);
      var i := FirstIdle(busy);
      if i < |busy| {
        assert busy[i := true][1..] == busy[1..][i - 1 := true];
      }
    }
  }

  /** A connection; its address is its place in the pool. */
  class WorkerConn {
    const addr: nat
    var busy: bool

    constructor (addr: nat)
      ensures this.addr == addr && !busy
    {
      this.addr, busy := addr, false;
    }
  }

  class Manager {
    const workers: seq<WorkerConn>

    ghost predicate Valid() {
      forall i :: 0 <= i < |workers| ==> workers[i].addr == i
    }

    constructor (workers: seq<WorkerConn>)
      ensures this.workers == workers
    {
      this.workers := workers;
    }

    ghost function Flags(): (flags: seq<bool>)
      reads workers
      ensures |flags| == |workers| && forall i :: 0 <= i < |workers| ==> flags[i] == workers[i].busy
    {
      seq(|workers|, i requires 0 <= i < |workers| reads workers => workers[i].busy)
    }

    method AcquireWorker() returns (w: WorkerConn?)
      requires Valid()
      modifies workers
      ensures var i := FirstIdle(old(Flags()));
              if i == |workers| then w == null && Flags() == old(Flags())
              else w == workers[i] && Flags() == old(Flags())[i := true]
    {
      for n := 0 to |workers|
        invariant Flags() == old(Flags())
        invariant forall k :: 0 <= k < n ==> workers[k].busy
      {
        if !workers[n].busy {
          workers[n].busy := true;
          assert FirstIdle(old(Flags())) == n;
          return workers[n];
        }
      }
      assert FirstIdle(old(Flags())) == |workers|;
      return null;
    }

    method ReleaseWorker(w: WorkerConn)
      requires Valid()
      modifies w
      ensures forall i :: 0 <= i < |workers| && workers[i] == w ==> Flags() == old(Flags())[i := false]
    {
      w.busy := false;
    }

    method IdleWorkerCount() returns (count: nat)
      ensures count == IdleCount(Flags())
    {
      count := 0;
      for n := 0 to |workers|
        invariant count + IdleCount(Flags()[n..]) == IdleCount(Flags())
      {
        assert Flags()[n..][1..] == Flags()[n + 1..];
        if !workers[n].busy {
          count := count + 1;
        }
      }
    }
  }

  /** A pool of idle workers. */
  method Connect(count: nat) returns (m: Manager)
    ensures fresh(m) && m.Valid() && fresh(m.workers) && m.Flags() == seq(count, _ => false)
  {
    var workers: seq<WorkerConn> := [];
    for i := 0 to count
      invariant |workers| == i
      invariant forall k :: 0 <= k < i ==> fresh(workers[k]) && workers[k].addr == k && !workers[k].busy
    {
      var w := new WorkerConn(i);
      workers := workers + [w];
    }
    m := new Manager(workers);
  }

  // ---------- the worker's side ----------

  /** The busy flag, and the tasks whose vmctl processes are really running. */
  datatype Gate = Gate(busy: bool, active: seq<string>)

  const IDLE := Gate(false, [])

  /** A request arrives: rejected while busy, admitted otherwise. */
  function Enter(g: Gate, id: string): Gate {
    if g.busy then g else Gate(true, g.active + [id])
  }

  /** A vmctl process ends and the deferred reset runs. */
  function Leave(g: Gate): Gate {
    Gate(false, if g.active == [] then [] else g.active[1..])
  }

  datatype Event = Arrives(id: string) | Ends

  /** Any stream of requests and process ends; a process can only end if one is running. */
  function Stream(g: Gate, events: seq<Event>): Gate {
    if events == [] then g
    else
      var before := Stream(g, events[..|events| - 1]);
      match events[|events| - 1]
      case Arrives(id) => Enter(before, id)
      case Ends => if before.active == [] then before else Leave(before)
  }

  /** At most one vmctl runs at any time, and the flag says whether one does. */
  lemma {:induction false} MutualExclusion(events: seq<Event>)
    ensures var g := Stream(IDLE, events); |g.active| <= 1 && (g.busy <==> |g.active| == 1)
  {
    if events != [] {
      MutualExclusion(events[..|events| - 1]);
    }
  }

  class Server {
    var busy: bool
    ghost var active: seq<string>

    ghost function State(): Gate
      reads this
    {
      Gate(busy, active)
    }

    constructor ()
      ensures State() == IDLE
    {
      busy, active := false, [];
    }

    /** The locked section at the start of ExecuteTask. */
    method Admit(id: string) returns (admitted: bool)
      modifies this
      ensures admitted == !old(busy) && busy && active == old(active) + if admitted then [id] else []
      ensures State() == Enter(old(State()), id)
    {
      if busy {
        return false;
      }
      busy := true;
      active := active + [id];
      return true;
    }

    /** The deferred reset. */
    method Reset()
      modifies this
      ensures !busy && active == (if old(active) == [] then [] else old(active)[1..])
      ensures State() == Leave(old(State()))
    {
      busy := false;
      active := if active == [] then [] else active[1..];
    }
  }
}
