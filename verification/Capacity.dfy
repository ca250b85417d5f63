/** Submitting a task to a bounded local queue: the new task is stored first, then older backlog is shed. */
module Capacity {
  import opened QueueTables
  import opened LocalQueue

  /** `dropped` lists, oldest first, rows that are no younger than any sheddable row left behind. */
  ghost predicate OldestFirst(before: map<string, Row>, after: map<string, Row>, newId: string, dropped: seq<string>) {
    && (forall i :: 0 <= i < |dropped| ==> Sheddable(before, newId, dropped[i]))
    && (forall i, j :: 0 <= i < j < |dropped| ==>
          dropped[i] != dropped[j] && before[dropped[i]].createdAt <= before[dropped[j]].createdAt)
    && after == before - (set d | d in dropped)
    && (forall d, x :: d in dropped && Sheddable(after, newId, x) ==> before[d].createdAt <= after[x].createdAt)
  }

  /** Every dropped upload is recorded for abort unless the store has confirmed the abort. */
  ghost predicate Traceable(before: map<string, Row>, outbox: map<string, AbortEntry>, dropped: seq<string>,
                            aborted: set<string>) {
    forall d :: d in dropped && d in before && before[d].uploadId != "" ==>
      before[d].uploadId in outbox || before[d].uploadId in aborted
  }

  lemma DroppingOne(before: map<string, Row>, after: map<string, Row>, newId: string, dropped: seq<string>,
                    victim: string)
    requires OldestFirst(before, after, newId, dropped) && Sheddable(after, newId, victim)
    requires forall x :: Sheddable(after, newId, x) ==> after[victim].createdAt <= after[x].createdAt
    ensures OldestFirst(before, after - {victim}, newId, dropped + [victim])
  {
    var dropped' := dropped + [victim];
    assert forall d :: d in dropped' <==> d in dropped || d == victim;
    assert (set d | d in dropped') == (set d | d in dropped) + {victim};
    assert forall x :: Sheddable(after - {victim}, newId, x) ==> Sheddable(after, newId, x);
  }

  lemma OneFewer(tasks: map<string, Row>, victim: string)
    requires victim in tasks && Evictable(tasks[victim].status)
    ensures |ActiveIds(tasks - {victim})| == |ActiveIds(tasks)| - 1
  {
    assert victim in ActiveIds(tasks);
    assert ActiveIds(tasks - {victim}) == ActiveIds(tasks) - {victim};
  }

  /** What the store says to an abort, given the upload and whether the outbox has it by then. */
  type Answers = (string, bool) -> bool

  /** A record left the outbox only for an upload whose abort the store confirmed. */
  ghost predicate Confirmed(before: map<string, AbortEntry>, after: map<string, AbortEntry>, aborted: set<string>,
                            accepts: Answers) {
    (forall u :: u in aborted ==> accepts(u, true)) && (forall u :: u in before ==> u in after || u in aborted)
  }

  lemma RecordedTwice(outbox: map<string, AbortEntry>, id: string, task: Row)
    ensures Recorded(Recorded(outbox, id, task), id, task) == Recorded(outbox, id, task)
  {
  }

  lemma TracingOne(before: map<string, Row>, row: Row, outbox: map<string, AbortEntry>, dropped: seq<string>,
                   aborted: set<string>, victim: string, gone: set<string>)
    requires Traceable(before, outbox, dropped, aborted) && victim in before && before[victim] == row
    ensures Traceable(before, Recorded(outbox, victim, row) - gone, dropped + [victim], aborted + gone)
  {
  }

  class Executor {
    const queue: Queue
    const queueMaxSize: int

    constructor (queue: Queue, queueMaxSize: int)
      ensures this.queue == queue && this.queueMaxSize == queueMaxSize
    {
      this.queue, this.queueMaxSize := queue, queueMaxSize;
    }

    /** Records the abort, asks the store once, and removes the record only if the store confirms. The store may
        answer by whether the upload is on record when it is asked. A failed record does not stop the abort. */
    method AbandonTaskUpload(id: string, task: Row, accepts: Answers, recordFails: bool, deleteFails: bool)
      returns (aborted: set<string>)
      modifies queue`outbox
      ensures var records := if recordFails then old(queue.outbox) else Recorded(old(queue.outbox), id, task);
              && aborted == (if task.uploadId != "" && accepts(task.uploadId, task.uploadId in records)
                             then {task.uploadId} else {})
              && queue.outbox == if deleteFails then records else records - aborted
      ensures !recordFails && task.uploadId in aborted ==> accepts(task.uploadId, true)
    {
      if task.uploadId == "" { return {}; }
      var _ := queue.EnqueueMultipartAbort(id, task, recordFails);
      if !accepts(task.uploadId, task.uploadId in queue.outbox) { return {}; }
      var _ := queue.DeleteMultipartAbort(task.uploadId, deleteFails);
      return {task.uploadId};
    }

    /** Sheds the oldest row there is to shed. */
    method ShedOne(newId: string, accepts: Answers) returns (victim: string, found: bool, gone: set<string>)
      modifies queue
      ensures !found ==> queue.Db() == old(queue.Db()) && NoneEvictable(queue.Db(), newId)
      ensures found ==> OldestEvictable(old(queue.Db()), victim, newId) && queue.tasks == old(queue.tasks) - {victim}
      ensures found ==> queue.outbox == Recorded(old(queue.outbox), victim, old(queue.tasks)[victim]) - gone
      ensures found ==> forall u :: u in gone ==> u == old(queue.tasks)[victim].uploadId && accepts(u, true)
      ensures queue.reports == old(queue.reports) && queue.processed == old(queue.processed)
    {
      gone := {};
      var rows, records := queue.tasks, queue.outbox;
      var raced: nat -> bool := _ => false;
      var oldest, any, _, _ := queue.DeleteOldestEvictable(newId, raced, _ => 4);
      assert !raced(0);
      victim, found := oldest, any;
      NonePassed(old(queue.Db()), newId);
      if found {
        gone := AbandonTaskUpload(victim, rows[victim], accepts, false, false);
        RecordedTwice(records, victim, rows[victim]);
      }
    }

    method EnforceCapacity(newId: string, accepts: Answers) returns (dropped: seq<string>, aborted: set<string>)
      modifies queue
      ensures queue.reports == old(queue.reports) && queue.processed == old(queue.processed)
      ensures OldestFirst(old(queue.tasks), queue.tasks, newId, dropped)
      ensures Traceable(old(queue.tasks), queue.outbox, dropped, aborted)
      ensures Confirmed(old(queue.outbox), queue.outbox, aborted, accepts)
      ensures queueMaxSize <= 0 ==> dropped == []
      ensures queueMaxSize > 0 ==> |ActiveIds(queue.tasks)| <= queueMaxSize || NoneEvictable(queue.Db(), newId)
      ensures dropped != [] ==> |ActiveIds(queue.tasks)| >= queueMaxSize
      ensures forall d :: d in dropped ==> old(queue.tasks)[d].status in {Pending, Failed}
    {
      dropped, aborted := [], {};
      if queueMaxSize <= 0 { return; }
      while true
        invariant queue.reports == old(queue.reports) && queue.processed == old(queue.processed)
        invariant OldestFirst(old(queue.tasks), queue.tasks, newId, dropped)
        invariant Traceable(old(queue.tasks), queue.outbox, dropped, aborted)
        invariant Confirmed(old(queue.outbox), queue.outbox, aborted, accepts)
        invariant dropped != [] ==> |ActiveIds(queue.tasks)| >= queueMaxSize
        decreases |ActiveIds(queue.tasks)|
      {
        var n := queue.CountActive();
        if n <= queueMaxSize { return; }
        ghost var tasks, records := queue.tasks, queue.outbox;
        var victim, found, gone := ShedOne(newId, accepts);
        if !found { return; }
        DroppingOne(old(queue.tasks), tasks, newId, dropped, victim);
        OneFewer(tasks, victim);
        TracingOne(old(queue.tasks), tasks[victim], records, dropped, aborted, victim, gone);
        dropped, aborted := dropped + [victim], aborted + gone;
      }
    }

    /** The new task survives its own submission, whatever had to be shed for it. */
    method Submit(id: string, row: Row, accepts: Answers)
      returns (inserted: bool, dropped: seq<string>, aborted: set<string>)
      modifies queue
      ensures inserted <==>
                && id !in old(queue.tasks)
                && forall x :: x in old(queue.tasks) && old(queue.tasks)[x].status in {Pending, Running, Reported} ==>
                     var other := old(queue.tasks)[x];
                     || (other.ruleId, other.localPath) != (row.ruleId, row.localPath)
                     || (other.fileMtime, other.fileSize) != (row.fileMtime, row.fileSize)
      ensures inserted ==> id in queue.tasks && queue.tasks[id] == row.(status := Pending)
      ensures inserted ==> OldestFirst(old(queue.tasks)[id := row.(status := Pending)], queue.tasks, id, dropped)
      ensures Traceable(old(queue.tasks), queue.outbox, dropped, aborted)
      ensures Confirmed(old(queue.outbox), queue.outbox, aborted, accepts)
      ensures inserted && queueMaxSize > 0 ==> |ActiveIds(queue.tasks)| <= queueMaxSize || NoneEvictable(queue.Db(), id)
      ensures !inserted ==> queue.Db() == old(queue.Db()) && dropped == []
      ensures forall d :: d in dropped ==> old(queue.tasks)[d].status in {Pending, Failed}
    {
      var stored, _ := queue.EnqueueIfNoActive(id, row, 1);
      inserted := stored;
      dropped, aborted := [], {};
      if inserted {
        dropped, aborted := EnforceCapacity(id, accepts);
        assert id !in dropped;
      }
    }
  }
}
