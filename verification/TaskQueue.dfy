/** The task queue object of internal/scheduler/task.go, against the value-level queue. */
module TaskQueues {
  import opened Collections
  import opened Tasks

  class MigrationTask {
    const id: string
    const metric: string
    const selector: string
    const start: int
    const end: int
    const estSeriesCount: int
    const maxRetries: int
    const splitAttempted: bool
    var status: Status
    var attempts: nat
    var bytes: int
    var error: string

    constructor (id: string, metric: string, selector: string, start: int, end: int, estSeriesCount: int,
                 maxRetries: int, splitAttempted: bool)
      ensures this.id == id
      ensures Record() == Task(metric, selector, start, end, estSeriesCount, maxRetries, splitAttempted,
                               Pending, 0, 0, "")
    {
      this.id, this.metric, this.selector := id, metric, selector;
      this.start, this.end, this.estSeriesCount := start, end, estSeriesCount;
      this.maxRetries, this.splitAttempted := maxRetries, splitAttempted;
      status, attempts, bytes, error := Pending, 0, 0, "";
    }

    /** A failure is counted; the status says whether the task goes back to the queue. */
    method CountFailure(error: string) returns (retrying: bool)
      modifies this
      ensures retrying == (old(attempts) + 1 < maxRetries)
      ensures Record() == old(Record()).(attempts := old(attempts) + 1, error := error,
                                         status := if retrying then Retrying else Abandoned)
    {
      attempts := attempts + 1;
      this.error := error;
      retrying := attempts < maxRetries;
      status := if retrying then Retrying else Abandoned;
    }

    method MarkSucceeded(bytes: int)
      modifies this
      ensures Record() == old(Record()).(status := Succeeded, bytes := bytes)
    {
      status := Succeeded;
      this.bytes := bytes;
    }

    method MarkRunning()
      modifies this
      ensures Record() == old(Record()).(status := Running)
    {
      status := Running;
    }

    ghost function Record(): Task
      reads this
    {
      Task(metric, selector, start, end, estSeriesCount, maxRetries, splitAttempted, status, attempts, bytes, error)
    }
  }

  ghost function Ids(ts: seq<MigrationTask>): (ids: seq<string>)
    ensures |ids| == |ts| && forall i :: 0 <= i < |ts| ==> ids[i] == ts[i].id
  {
    seq(|ts|, i requires 0 <= i < |ts| => ts[i].id)
  }

  lemma IdsAppend(a: seq<MigrationTask>, b: seq<MigrationTask>)
    ensures Ids(a + b) == Ids(a) + Ids(b)
  {
  }

  lemma IdsOfOne(t: MigrationTask)
    ensures Ids([t]) == [t.id]
  {
  }

  class TaskQueue {
    var tasks: seq<MigrationTask>
    var pending: seq<MigrationTask>
    var running: map<string, MigrationTask>
    var done: seq<MigrationTask>
    var failed: seq<MigrationTask>

    /** The known task objects, and the queue as a value. */
    ghost var objects: set<MigrationTask>
    ghost var view: Queue

    /** The objects carry different ids and the records the view has under them. */
    ghost predicate Recorded()
      reads this, objects
    {
      && (forall t :: t in objects ==> t.id in view.info && view.info[t.id] == t.Record())
      && forall t, u :: t in objects && u in objects && t.id == u.id ==> t == u
    }

    ghost predicate Knows(ts: seq<MigrationTask>)
      reads this
    {
      forall i :: 0 <= i < |ts| ==> ts[i] in objects
    }

    /** The lists and the map hold known objects, and are what the view says. */
    ghost predicate Listed()
      reads this
    {
      && Knows(tasks) && Knows(pending) && Knows(done) && Knows(failed)
      && (forall id :: id in running ==> running[id] in objects && running[id].id == id)
      && view.tasks == Ids(tasks) && view.pending == Ids(pending) && view.running == running.Keys
      && view.done == Ids(done) && view.failed == Ids(failed)
    }

    ghost predicate Valid()
      reads this, objects
    {
      Recorded() && Listed()
    }

    constructor ()
      ensures Valid() && view == EMPTY && objects == {}
    {
      tasks, pending, running, done, failed := [], [], map[], [], [];
      objects, view := {}, EMPTY;
    }

    /** Tasks that carry new ids, different from one another. */
    ghost predicate AreNew(ts: seq<MigrationTask>)
      reads this
    {
      NoDuplicates(Ids(ts)) && forall id :: id in Ids(ts) ==> id !in view.info
    }

    /** The records of new tasks by id. */
    ghost function Records(ts: seq<MigrationTask>): (m: map<string, Task>)
      requires NoDuplicates(Ids(ts))
      reads ts
      ensures forall id :: id in m <==> id in Ids(ts)
      ensures forall i :: 0 <= i < |ts| ==> ts[i].id in m && m[ts[i].id] == ts[i].Record()
    {
      LookupIsMember(ts);
      assert forall i :: 0 <= i < |ts| ==> Ids(ts)[i] == ts[i].id;
      map id | id in Ids(ts) :: Lookup(ts, id).Record()
    }

    static ghost function Lookup(ts: seq<MigrationTask>, id: string): (t: MigrationTask)
      requires id in Ids(ts)
      ensures t in ts && t.id == id
    {
      var i :| 0 <= i < |ts| && Ids(ts)[i] == id;
      ts[i]
    }

    /** Old and new objects together still carry different ids and the records under them. */
    lemma NewRecords(ts: seq<MigrationTask>)
      requires Valid() && AreNew(ts)
      ensures var all, info := objects + Elements(ts), view.info + Records(ts);
              && (forall t :: t in all ==> t.id in info && info[t.id] == t.Record())
              && forall t, u :: t in all && u in all && t.id == u.id ==> t == u
    {
      forall t | t in ts ensures t.id in Ids(ts) && Lookup(ts, t.id) == t {
        var i :| 0 <= i < |ts| && ts[i] == t;
        assert Ids(ts)[i] == t.id;
        LookupIsMember(ts);
      }
    }

    method AddTasks(ts: seq<MigrationTask>)
      requires Valid() && AreNew(ts)
      modifies this
      ensures Valid() && objects == old(objects) + Elements(ts)
      ensures tasks == old(tasks) + ts && pending == old(pending) + ts
      ensures running == old(running) && done == old(done) && failed == old(failed)
      ensures view == Add(old(view), Ids(ts), old(Records(ts)))
    {
      IdsAppend(tasks, ts);
      IdsAppend(pending, ts);
      NewRecords(ts);
      view := Add(view, Ids(ts), Records(ts));
      objects := objects + Elements(ts);
      tasks := tasks + ts;
      pending := pending + ts;
    }

    lemma LookupIsMember(ts: seq<MigrationTask>)
      requires NoDuplicates(Ids(ts))
      ensures forall i :: 0 <= i < |ts| ==> Lookup(ts, ts[i].id) == ts[i]
    {
      forall i | 0 <= i < |ts| ensures Lookup(ts, ts[i].id) == ts[i] {
        assert Ids(ts)[i] == ts[i].id;
        var t := Lookup(ts, ts[i].id);
        var j :| 0 <= j < |ts| && ts[j] == t;
        assert Ids(ts)[j] == Ids(ts)[i];
      }
    }

    method NextTask() returns (task: MigrationTask?)
      requires Valid()
      modifies this, objects
      ensures Valid() && objects == old(objects)
      ensures task == null <==> old(pending) == []
      ensures task != null ==>
                && task == old(pending)[0] && pending == old(pending)[1..] && task.status == Running
                && running == old(running)[task.id := task]
      ensures task == null ==> pending == old(pending) && running == old(running)
      ensures tasks == old(tasks) && done == old(done) && failed == old(failed)
      ensures view == Next(old(view))
    {
      if |pending| == 0 {
        return null;
      }
      task := pending[0];
      view := Next(view);
      pending := pending[1..];
      task.MarkRunning();
      running := running[task.id := task];
    }

    method GetTask(id: string) returns (task: MigrationTask?)
      requires Valid()
      ensures task != null <==> id in view.pending + view.done + view.failed || id in view.running
      ensures task != null ==> task in objects && task.id == id
    {
      if id in running {
        return running[id];
      }
      task := Find(pending, id);
      if task != null {
        assert id in view.pending;
        return;
      }
      task := Find(done, id);
      if task != null {
        assert id in view.done;
        return;
      }
      task := Find(failed, id);
    }

    static method Find(ts: seq<MigrationTask>, id: string) returns (task: MigrationTask?)
      ensures task != null <==> id in Ids(ts)
      ensures task != null ==> task in ts && task.id == id
    {
      for i := 0 to |ts|
        invariant forall k :: 0 <= k < i ==> ts[k].id != id
      {
        if ts[i].id == id {
          assert Ids(ts)[i] == id;
          return ts[i];
        }
      }
      return null;
    }

    method CompleteTask(id: string, bytes: int)
      requires Valid()
      modifies this, objects
      ensures Valid() && objects == old(objects)
      ensures id in old(running) ==>
                var task := old(running)[id];
                && task.status == Succeeded && task.bytes == bytes && task.attempts == old(task.attempts)
                && done == old(done) + [task] && running == old(running) - {id}
      ensures id !in old(running) ==> done == old(done) && running == old(running)
      ensures tasks == old(tasks) && pending == old(pending) && failed == old(failed)
      ensures view == Complete(old(view), id, bytes)
    {
      if id !in running {
        return;
      }
      view := Complete(view, id, bytes);
      var task := running[id];
      IdsAppend(done, [task]);
      IdsOfOne(task);
      task.MarkSucceeded(bytes);
      running := running - {id};
      done := done + [task];
    }

    /** A running task leaves the running ones with one more failure counted. */
    method TakeOut(id: string, error: string) returns (task: MigrationTask, retrying: bool)
      requires Valid() && id in running
      modifies this, objects
      ensures Valid() && objects == old(objects) && task in objects && task.id == id
      ensures task == old(running)[id] && retrying == (old(task.attempts) + 1 < task.maxRetries)
      ensures task.attempts == old(task.attempts) + 1 && task.error == error && task.bytes == old(task.bytes)
      ensures task.status == (if retrying then Retrying else Abandoned) && running == old(running) - {id}
      ensures tasks == old(tasks) && pending == old(pending) && done == old(done) && failed == old(failed)
      ensures retrying == Retries(old(view), id)
      ensures view == old(view).(info := view.info, running := old(view).running - {id})
      ensures view.info == old(view).info[id := CountedFailure(old(view), id, error)]
    {
      task := running[id];
      view := view.(info := view.info[id := CountedFailure(view, id, error)], running := view.running - {id});
      running := running - {id};
      retrying := task.CountFailure(error);
      assert task.Record() == view.info[id];
    }

    method PutPending(task: MigrationTask)
      requires Valid() && task in objects
      modifies this`pending, this`view
      ensures Valid() && view == old(view).(pending := old(view).pending + [task.id])
      ensures pending == old(pending) + [task]
    {
      IdsAppend(pending, [task]);
      IdsOfOne(task);
      view := view.(pending := view.pending + [task.id]);
      pending := pending + [task];
    }

    method PutFailed(task: MigrationTask)
      requires Valid() && task in objects
      modifies this`failed, this`view
      ensures Valid() && view == old(view).(failed := old(view).failed + [task.id])
      ensures failed == old(failed) + [task]
    {
      IdsAppend(failed, [task]);
      IdsOfOne(task);
      view := view.(failed := view.failed + [task.id]);
      failed := failed + [task];
    }

    method FailTask(id: string, error: string) returns (retrying: bool)
      requires Valid()
      modifies this, objects
      ensures Valid() && objects == old(objects)
      ensures id in old(running) ==>
                var task := old(running)[id];
                && retrying == (old(task.attempts) + 1 < task.maxRetries)
                && task.attempts == old(task.attempts) + 1 && task.error == error && task.bytes == old(task.bytes)
                && task.status == (if retrying then Retrying else Abandoned) && running == old(running) - {id}
                && pending == old(pending) + (if retrying then [task] else [])
                && failed == old(failed) + (if retrying then [] else [task])
      ensures id !in old(running) ==>
                !retrying && running == old(running) && pending == old(pending) && failed == old(failed)
      ensures tasks == old(tasks) && done == old(done)
      ensures view == Fail(old(view), id, error)
    {
      if id !in running {
        return false;
      }
      var task;
      task, retrying := TakeOut(id, error);
      if retrying {
        PutPending(task);
      } else {
        PutFailed(task);
      }
    }

    method ReplaceTasks(id: string, ts: seq<MigrationTask>)
      requires Valid() && AreNew(ts)
      modifies this
      ensures Valid() && objects == old(objects) + Elements(ts)
      ensures running == old(running) - {id} && tasks == old(tasks) + ts && pending == old(pending) + ts
      ensures done == old(done) && failed == old(failed)
      ensures view == Replace(old(view), id, Ids(ts), old(Records(ts)))
    {
      IdsAppend(tasks, ts);
      IdsAppend(pending, ts);
      NewRecords(ts);
      view := Replace(view, id, Ids(ts), Records(ts));
      running := running - {id};
      objects := objects + Elements(ts);
      tasks := tasks + ts;
      pending := pending + ts;
    }

    predicate QueueIsComplete(): (complete: bool)
      requires Valid()
      reads this, objects
      ensures complete == IsComplete(view)
    {
      |pending| == 0 && |running| == 0
    }

    /** The bytes the succeeded tasks transferred. */
    method TotalBytes() returns (total: int)
      requires Valid()
      ensures (forall id :: id in view.done ==> id in view.info) && total == DoneBytes(view, view.done)
    {
      assert forall i :: 0 <= i < |done| ==> view.done[i] == done[i].id;
      total := 0;
      for i := 0 to |done|
        invariant total == DoneBytes(view, view.done[..i])
      {
        assert view.done[..i + 1][..i] == view.done[..i];
        total := total + done[i].bytes;
      }
      assert view.done[..|done|] == view.done;
    }

    /** total, pending, running, succeeded, failed and abandoned tasks. */
    method Stats() returns (total: nat, waiting: nat, active: nat, succeeded: nat, failures: nat, abandoned: nat)
      requires Valid()
      ensures total == |view.tasks| && waiting == |view.pending| && active == |view.running|
      ensures succeeded == |view.done| && failures == |view.failed|
      ensures Accounting(view) ==> abandoned == failures
    {
      abandoned := 0;
      for i := 0 to |failed|
        invariant Accounting(view) ==> abandoned == i
      {
        if failed[i].status == Abandoned {
          abandoned := abandoned + 1;
        } else {
          assert view.failed[i] in view.failed && IdOk(view, failed[i].id) <==> IdOk(view, failed[i].id);
          assert Accounting(view) ==> IdOk(view, failed[i].id);
        }
      }
      total, waiting, active, succeeded, failures := |tasks|, |pending|, |running|, |done|, |failed|;
    }
  }
}
