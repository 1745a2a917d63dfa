/** Migration tasks and the bookkeeping of the task queue, on values (internal/scheduler/task.go). */
module Tasks {
  import opened Collections

  datatype Status = Pending | Running | Retrying | Succeeded | Abandoned

  datatype Task = Task(metric: string, selector: string, start: int, end: int, estSeriesCount: int,
                       maxRetries: int, splitAttempted: bool,
                       status: Status, attempts: nat, bytes: int, error: string)

  /** A task is given up on its max(1, MaxRetries)-th failure. */
  function Limit(t: Task): int {
    if t.maxRetries < 1 then 1 else t.maxRetries
  }

  /**
   * What the queue knows: every task by id, the ids in the source's lists in order, and two history
   * variables, the tasks replaced by sub-tasks and the number of dispatches so far.
   */
  datatype Queue = Queue(info: map<string, Task>, tasks: seq<string>, pending: seq<string>, running: set<string>,
                         done: seq<string>, failed: seq<string>, replaced: set<string>, dispatches: nat)

  const EMPTY := Queue(map[], [], [], {}, [], [], {}, 0)

  function Add(q: Queue, ids: seq<string>, batch: map<string, Task>): Queue {
    q.(info := q.info + batch, tasks := q.tasks + ids, pending := q.pending + ids)
  }

  /** The queue after NextTask, whose result is the id of the first pending task if there is one. */
  function Next(q: Queue): Queue
    requires q.pending != [] ==> q.pending[0] in q.info
  {
    if q.pending == [] then q
    else
      var id := q.pending[0];
      q.(info := q.info[id := q.info[id].(status := Running)], pending := q.pending[1..],
         running := q.running + {id}, dispatches := q.dispatches + 1)
  }

  function Complete(q: Queue, id: string, bytes: int): Queue
    requires q.running <= q.info.Keys
  {
    if id !in q.running then q
    else
      q.(info := q.info[id := q.info[id].(status := Succeeded, bytes := bytes)],
         running := q.running - {id}, done := q.done + [id])
  }

  predicate Retries(q: Queue, id: string)
    requires q.running <= q.info.Keys
  {
    id in q.running && q.info[id].attempts + 1 < q.info[id].maxRetries
  }

  /** The record of a running task after one more failure. */
  function CountedFailure(q: Queue, id: string, error: string): Task
    requires q.running <= q.info.Keys && id in q.running
  {
    q.info[id].(attempts := q.info[id].attempts + 1, error := error,
                status := if Retries(q, id) then Retrying else Abandoned)
  }

  function Fail(q: Queue, id: string, error: string): Queue
    requires q.running <= q.info.Keys
  {
    if id !in q.running then q
    else
      var out := q.(info := q.info[id := CountedFailure(q, id, error)], running := q.running - {id});
      if Retries(q, id) then out.(pending := q.pending + [id]) else out.(failed := q.failed + [id])
  }

  function Replace(q: Queue, id: string, ids: seq<string>, batch: map<string, Task>): Queue {
    q.(info := q.info + batch, tasks := q.tasks + ids, pending := q.pending + ids,
       running := q.running - {id}, replaced := q.replaced + (if id in q.running then {id} else {}))
  }

  /** The bytes transferred by the listed tasks. */
  function DoneBytes(q: Queue, ids: seq<string>): int
    requires forall id :: id in ids ==> id in q.info
  {
    if ids == [] then 0
    else
      var n := |ids| - 1;
      DoneBytes(q, ids[..n]) + q.info[ids[n]].bytes
  }

  predicate IsComplete(q: Queue) {
    q.pending == [] && q.running == {}
  }

  /** The tasks that still have to be finished. */
  function Live(q: Queue): set<string> {
    Elements(q.pending) + q.running
  }

  /** The tasks that account for the work: all but those replaced by their sub-tasks. */
  function Accounted(q: Queue): set<string> {
    Live(q) + Elements(q.done) + Elements(q.failed)
  }

  // ---------- the accounting invariant ----------

  /** In how many of the queue's places a task is. */
  function Places(q: Queue, id: string): nat {
    (if id in q.pending then 1 else 0) + (if id in q.running then 1 else 0) + (if id in q.done then 1 else 0)
    + (if id in q.failed then 1 else 0) + (if id in q.replaced then 1 else 0)
  }

  predicate PendingOk(t: Task) {
    (t.status == Pending && t.attempts == 0) || (t.status == Retrying && 1 <= t.attempts < t.maxRetries)
  }

  /** A known task is in exactly one place, with the status and the attempts of that place. */
  predicate IdOk(q: Queue, id: string) {
    && Places(q, id) == (if id in q.info then 1 else 0)
    && (id in q.info ==>
          var t := q.info[id];
          && (id in q.pending ==> PendingOk(t))
          && (id in q.running ==> t.status == Running && t.attempts < Limit(t))
          && (id in q.done ==> t.status == Succeeded && t.attempts < Limit(t))
          && (id in q.failed ==> t.status == Abandoned && t.attempts == Limit(t))
          && (id in q.replaced ==> t.attempts < Limit(t)))
  }

  ghost predicate Tracked(q: Queue) {
    && (forall id :: IdOk(q, id))
    && (forall id :: id in q.tasks <==> id in q.info)
  }

  ghost predicate Listed(q: Queue) {
    NoDuplicates(q.tasks) && NoDuplicates(q.pending) && NoDuplicates(q.done) && NoDuplicates(q.failed)
  }

  function AttemptsOf(q: Queue): map<string, nat> {
    map id | id in q.info :: q.info[id].attempts
  }

  ghost function TotalAttempts(q: Queue): nat {
    Total(q.info.Keys, AttemptsOf(q))
  }

  /** Every dispatch is accounted for: it failed, it succeeded, it was replaced or it is running. */
  ghost predicate Counted(q: Queue) {
    q.dispatches == TotalAttempts(q) + |q.done| + |q.replaced| + |q.running|
  }

  ghost predicate Accounting(q: Queue) {
    Tracked(q) && Listed(q) && Counted(q)
  }

  /** New tasks: fresh ids, nothing attempted yet. */
  ghost predicate IsBatch(q: Queue, ids: seq<string>, batch: map<string, Task>) {
    && NoDuplicates(ids)
    && (forall id :: id in ids <==> id in batch)
    && forall id :: id in batch ==> id !in q.info && batch[id].status == Pending && batch[id].attempts == 0
  }

  /** A task is given up after max(1, MaxRetries) attempts, and never has more. */
  lemma GivenUpAfterAll(q: Queue, id: string)
    requires Tracked(q) && id in q.info
    ensures var all := if q.info[id].maxRetries < 1 then 1 else q.info[id].maxRetries;
            q.info[id].attempts <= all && (id in q.failed ==> q.info[id].attempts == all)
    ensures id !in q.failed ==> q.info[id].attempts == 0 || q.info[id].attempts < q.info[id].maxRetries
  {
    assert IdOk(q, id);
  }

  // ---------- every operation keeps the accounting ----------

  lemma EmptyAccounting()
    ensures Accounting(EMPTY)
  {
  }

  lemma NoDuplicatesAppend<T>(a: seq<T>, b: seq<T>)
    requires NoDuplicates(a) && NoDuplicates(b) && forall x :: x in a ==> x !in b
    ensures NoDuplicates(a + b)
  {
    assert forall i :: 0 <= i < |a| ==> a[i] in a;
    assert forall i :: 0 <= i < |b| ==> b[i] in b;
  }

  /** Attempts of the tasks that are not touched stay what they are. */
  lemma AttemptsAfterUpdate(q: Queue, q': Queue, id: string, more: nat)
    requires id in q.info && q'.info.Keys == q.info.Keys
    requires forall k :: k in q.info && k != id ==> q'.info[k] == q.info[k]
    requires q'.info[id].attempts == q.info[id].attempts + more
    ensures TotalAttempts(q') == TotalAttempts(q) + more
  {
    TotalRemove(q.info.Keys, AttemptsOf(q), id);
    TotalRemove(q.info.Keys, AttemptsOf(q'), id);
    TotalAgrees(q.info.Keys - {id}, AttemptsOf(q), AttemptsOf(q'));
  }

  lemma AttemptsAfterBatch(q: Queue, q': Queue, ids: seq<string>, batch: map<string, Task>)
    requires IsBatch(q, ids, batch) && q'.info == q.info + batch
    ensures TotalAttempts(q') == TotalAttempts(q)
  {
    TotalUnion(q.info.Keys, batch.Keys, AttemptsOf(q'));
    TotalZero(batch.Keys, AttemptsOf(q'));
    TotalAgrees(q.info.Keys, AttemptsOf(q), AttemptsOf(q'));
    assert q'.info.Keys == q.info.Keys + batch.Keys;
  }

  lemma AddKeepsAccounting(q: Queue, ids: seq<string>, batch: map<string, Task>)
    requires Accounting(q) && IsBatch(q, ids, batch)
    ensures Accounting(Add(q, ids, batch))
  {
    var q' := Add(q, ids, batch);
    AttemptsAfterBatch(q, q', ids, batch);
    forall id ensures IdOk(q', id) && (id in q.info ==> id !in batch) {
      assert IdOk(q, id);
    }
    NoDuplicatesAppend(q.tasks, ids);
    forall id | id in q.pending ensures id in q.info {
      assert IdOk(q, id);
    }
    NoDuplicatesAppend(q.pending, ids);
  }

  lemma NextKeepsPlaces(q: Queue)
    requires Tracked(q) && Listed(q) && q.pending != []
    ensures q.pending[0] in q.info && Tracked(Next(q)) && Listed(Next(q))
  {
    var id := q.pending[0];
    assert IdOk(q, id);
    var q' := Next(q);
    assert q.pending == [id] + q'.pending;
    assert id !in q'.pending;
    forall k ensures IdOk(q', k) {
      assert IdOk(q, k);
    }
  }

  lemma NextKeepsAccounting(q: Queue)
    requires Accounting(q) && q.pending != []
    ensures q.pending[0] in q.info && Accounting(Next(q))
  {
    assert IdOk(q, q.pending[0]);
    NextKeepsPlaces(q);
    AttemptsAfterUpdate(q, Next(q), q.pending[0], 0);
  }

  lemma CompleteKeepsAccounting(q: Queue, id: string, bytes: int)
    requires Accounting(q) && id in q.running && id in q.info
    ensures q.running <= q.info.Keys && Accounting(Complete(q, id, bytes))
  {
    RunningIsKnown(q);
    var q' := Complete(q, id, bytes);
    assert IdOk(q, id);
    AttemptsAfterUpdate(q, q', id, 0);
    NoDuplicatesAppend(q.done, [id]);
    forall k ensures IdOk(q', k) {
      assert IdOk(q, k);
    }
  }

  lemma RunningIsKnown(q: Queue)
    requires Tracked(q)
    ensures q.running <= q.info.Keys
  {
    forall id | id in q.running ensures id in q.info {
      assert IdOk(q, id);
    }
  }

  lemma FailKeepsPlaces(q: Queue, id: string, error: string)
    requires Tracked(q) && Listed(q) && id in q.running && q.running <= q.info.Keys
    ensures Tracked(Fail(q, id, error)) && Listed(Fail(q, id, error))
  {
    var q' := Fail(q, id, error);
    assert IdOk(q, id);
    NoDuplicatesAppend(q.pending, [id]);
    NoDuplicatesAppend(q.failed, [id]);
    forall k ensures IdOk(q', k) {
      assert IdOk(q, k);
    }
  }

  lemma FailKeepsAccounting(q: Queue, id: string, error: string)
    requires Accounting(q) && id in q.running
    ensures q.running <= q.info.Keys && Accounting(Fail(q, id, error))
  {
    RunningIsKnown(q);
    FailKeepsPlaces(q, id, error);
    AttemptsAfterUpdate(q, Fail(q, id, error), id, 1);
  }

  /**
   * A replaced task leaves the queue exactly when it was not pending: a pending one stays and runs beside its
   * own pieces.
   */
  lemma ReplaceLeavesPending(q: Queue, id: string, ids: seq<string>, batch: map<string, Task>)
    requires id !in ids
    ensures var after := Replace(q, id, ids, batch);
            id !in Live(after) <==> id !in q.pending
  {
    ElementsAppend(q.pending, ids);
  }

  lemma ReplaceKeepsAccounting(q: Queue, id: string, ids: seq<string>, batch: map<string, Task>)
    requires Accounting(q) && id in q.running && IsBatch(q, ids, batch)
    ensures Accounting(Replace(q, id, ids, batch))
  {
    var q1 := Add(q, ids, batch);
    AddKeepsAccounting(q, ids, batch);
    var q' := Replace(q, id, ids, batch);
    assert AttemptsOf(q') == AttemptsOf(q1);
    assert IdOk(q1, id) && id !in q.replaced;
    forall k ensures IdOk(q', k) {
      assert IdOk(q1, k);
    }
  }

  lemma {:induction false} SameBytes(q: Queue, q': Queue, ids: seq<string>)
    requires forall id :: id in ids ==> id in q.info && id in q'.info && q'.info[id].bytes == q.info[id].bytes
    ensures DoneBytes(q', ids) == DoneBytes(q, ids)
  {
    if ids != [] {
      SameBytes(q, q', ids[..|ids| - 1]);
    }
  }

  /** Completing a task adds exactly its bytes to the total; nothing else does. */
  lemma BytesAddUp(q: Queue, id: string, bytes: int, error: string)
    requires Accounting(q) && id in q.running
    ensures q.running <= q.info.Keys && forall k :: k in q.done ==> k in q.info
    ensures var q' := Complete(q, id, bytes);
            (forall k :: k in q'.done ==> k in q'.info) && DoneBytes(q', q'.done) == DoneBytes(q, q.done) + bytes
    ensures var q' := Fail(q, id, error);
            (forall k :: k in q'.done ==> k in q'.info) && DoneBytes(q', q'.done) == DoneBytes(q, q.done)
  {
    RunningIsKnown(q);
    assert IdOk(q, id);
    forall k | k in q.done ensures k in q.info && k != id {
      assert IdOk(q, k);
    }
    var q' := Complete(q, id, bytes);
    assert q'.done[..|q'.done| - 1] == q.done;
    SameBytes(q, q', q.done);
    SameBytes(q, Fail(q, id, error), q.done);
  }

  // ---------- what the operations leave alone ----------

  /** The same piece of work: what a task migrates, whether it came from a split and how often it may be tried. */
  predicate SameWork(t: Task, u: Task) {
    && t.metric == u.metric && t.selector == u.selector && t.start == u.start && t.end == u.end
    && t.splitAttempted == u.splitAttempted && t.maxRetries == u.maxRetries
  }

  /** No work appears or disappears. */
  ghost predicate KeepsWork(q: Queue, q': Queue) {
    && q'.info.Keys == q.info.Keys
    && (forall id :: id in Accounted(q') <==> id in Accounted(q))
    && forall id :: id in q.info ==> SameWork(q.info[id], q'.info[id])
  }

  lemma NextKeepsWork(q: Queue)
    requires q.pending != [] && q.pending[0] in q.info
    ensures KeepsWork(q, Next(q))
  {
    var q' := Next(q);
    assert q.pending == [q.pending[0]] + q'.pending;
    assert forall k :: k in q.pending <==> k == q.pending[0] || k in q'.pending;
  }

  lemma CompleteKeepsWork(q: Queue, id: string, bytes: int)
    requires id in q.running && q.running <= q.info.Keys
    ensures KeepsWork(q, Complete(q, id, bytes))
  {
  }

  lemma FailKeepsWork(q: Queue, id: string, error: string)
    requires id in q.running && q.running <= q.info.Keys
    ensures KeepsWork(q, Fail(q, id, error))
  {
  }

  /** Replacing a running task takes it out of the account and puts the new tasks in. */
  lemma ReplaceAccounts(q: Queue, id: string, ids: seq<string>, batch: map<string, Task>)
    requires Tracked(q) && id in q.running
    ensures forall k :: k in Accounted(Replace(q, id, ids, batch)) <==> (k in Accounted(q) && k != id) || k in ids
    ensures id in Accounted(q)
  {
    assert IdOk(q, id);
  }

  lemma AddAccounts(q: Queue, ids: seq<string>, batch: map<string, Task>)
    ensures forall k :: k in Accounted(Add(q, ids, batch)) <==> k in Accounted(q) || k in ids
  {
  }
}
