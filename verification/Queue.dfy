/** The queue as the object the agent holds: mutable tables, and the transactions that run over them.

    `failAt` chooses the statement of a transaction at which SQLite reports an error (none, if it is
    past the last one). Every method either commits what `QueueTables` says or leaves the tables alone. */
module LocalQueue {
  import opened QueueTables
  import T = QueueTables

  datatype Outcome = Done | NotFound | Fault

  datatype Attempt = Broken | Empty | Lost(id: string) | Evicted(id: string)

  /** A row before and after the refresh that precedes the status flip. */
  predicate Refreshed(row: Row, row': Row, done: bool, stat: string -> Stat) {
    if done then row'.status == Running && row'.(status := Pending) == ResetRow(row, stat) else row' == row
  }

  /** Workers claimed the evictable rows `claimed`, oldest first, and nothing else changed. */
  ghost predicate PassedOver(before: Tables, now: Tables, exclude: string, claimed: set<string>) {
    && now == Claimed(before, claimed)
    && (forall c :: c in claimed ==> Sheddable(before.tasks, exclude, c))
    && (forall c, x :: c in claimed && Sheddable(now.tasks, exclude, x) ==>
          before.tasks[c].createdAt <= now.tasks[x].createdAt)
  }

  lemma NonePassed(db: Tables, exclude: string)
    ensures PassedOver(db, db, exclude, {})
  {
    assert Claimed(db, {}).tasks == db.tasks;
  }

  lemma OneMorePassed(before: Tables, now: Tables, exclude: string, claimed: set<string>, id: string)
    requires PassedOver(before, now, exclude, claimed) && OldestEvictable(now, id, exclude)
    ensures PassedOver(before, ClaimedOne(now, id), exclude, claimed + {id})
  {
    var now' := ClaimedOne(now, id);
    assert now'.tasks == Claimed(before, claimed + {id}).tasks;
    forall x | Sheddable(now'.tasks, exclude, x)
      ensures Sheddable(now.tasks, exclude, x) && now'.tasks[x] == now.tasks[x]
    {
    }
  }

  /** Pending rows, oldest first, and none left out is older than one listed. */
  ghost predicate OldestListed(tasks: map<string, Row>, ids: seq<string>) {
    && (forall i :: 0 <= i < |ids| ==> ids[i] in tasks && tasks[ids[i]].status == Pending)
    && (forall i, j :: 0 <= i < j < |ids| ==>
          ids[i] != ids[j] && tasks[ids[i]].createdAt <= tasks[ids[j]].createdAt)
    && (forall i, x :: 0 <= i < |ids| && x in tasks && tasks[x].status == Pending && x !in ids ==>
          tasks[ids[i]].createdAt <= tasks[x].createdAt)
  }

  lemma FirstIsOldest(db: Tables, ids: seq<string>)
    requires OldestListed(db.tasks, ids)
    ensures ids != [] ==> OldestPending(db, ids[0])
  {
    forall x | ids != [] && x in db.tasks && db.tasks[x].status == Pending
      ensures db.tasks[ids[0]].createdAt <= db.tasks[x].createdAt
    {
      if x in ids { var j :| 0 <= j < |ids| && ids[j] == x; }
    }
  }

  lemma OneMoreClaimed(db: Tables, ids: set<string>, id: string)
    requires id in db.tasks
    ensures Claimed(db, ids + {id}).tasks ==
            Claimed(db, ids).tasks[id := Claimed(db, ids).tasks[id].(status := Running)]
  {
  }

  lemma OneMoreListed(tasks: map<string, Row>, ids: seq<string>, id: string)
    requires OldestListed(tasks, ids) && id in tasks && tasks[id].status == Pending && id !in ids
    requires forall x :: x in tasks && tasks[x].status == Pending && x !in ids ==>
               tasks[id].createdAt <= tasks[x].createdAt
    ensures OldestListed(tasks, ids + [id])
  {
    var ids' := ids + [id];
    forall i, x | 0 <= i < |ids'| && x in tasks && tasks[x].status == Pending && x !in ids'
      ensures tasks[ids'[i]].createdAt <= tasks[x].createdAt
    {
      assert x !in ids;
    }
  }

  class Queue {
    var tasks: map<string, Row>
    var outbox: map<string, AbortEntry>
    var reports: map<string, Report>
    var processed: map<(string, string), Processed>

    constructor ()
      ensures Db() == Tables(map[], map[], map[], map[])
    {
      tasks, outbox, reports, processed := map[], map[], map[], map[];
    }

    function Db(): (db: Tables)
      reads this
    {
      Tables(tasks, outbox, reports, processed)
    }

    method EnqueueIfNoActive(id: string, row: Row, failAt: nat) returns (inserted: bool, r: Outcome)
      modifies this
      ensures r != NotFound
      ensures r == Fault <==> failAt == 0 || old(id in tasks && !HasActiveTwin(Db(), row))
      ensures inserted <==> r == Done && id !in old(tasks) && !old(HasActiveTwin(Db(), row))
      ensures failAt > 0 ==>
                (inserted <==>
                   && id !in old(tasks)
                   && forall x :: x in old(tasks) && old(tasks)[x].status in {Pending, Running, Reported} ==>
                        || (old(tasks)[x].ruleId, old(tasks)[x].localPath) != (row.ruleId, row.localPath)
                        || (old(tasks)[x].fileMtime, old(tasks)[x].fileSize) != (row.fileMtime, row.fileSize))
      ensures Db() == if r == Fault then old(Db()) else T.EnqueueIfNoActive(old(Db()), id, row)
    {
      if failAt == 0 { return false, Fault; }
      var blocked := exists x :: x in tasks && Blocks(tasks[x], row);
      if blocked { return false, Done; }
      if id in tasks { return false, Fault; }          // primary key violation
      tasks := tasks[id := row.(status := Pending)];
      return true, Done;
    }

    method MarkFailedAbandoned(id: string, task: Row, failAt: nat) returns (r: Outcome)
      modifies this
      ensures r == Done <==> failAt > 3 && id in old(tasks)
      ensures r == NotFound <==> failAt > 1 && id !in old(tasks)
      ensures Db() == if r == Done then T.MarkFailedAbandoned(old(Db()), id, task) else old(Db())
    {
      if failAt == 0 { return Fault; }                 // begin
      var txTasks, txOutbox := tasks, outbox;
      if failAt == 1 { return Fault; }                 // update
      if id !in txTasks { return NotFound; }
      var row := txTasks[id];
      txTasks := txTasks[id := row.(status := Failed, retryCount := row.retryCount + 1, nextRetryAt := NEVER)];
      if failAt == 2 { return Fault; }                 // insert
      if task.uploadId != "" && task.uploadId !in txOutbox {
        txOutbox := txOutbox[task.uploadId := AbortEntry(id, task.target, 0, 0)];
      }
      if failAt == 3 { return Fault; }                 // commit
      tasks, outbox := txTasks, txOutbox;
      return Done;
    }

    method MarkCompletedAbandoningUpload(id: string, task: Row, failAt: nat) returns (r: Outcome)
      modifies this
      ensures r == Done <==> failAt > 3 && id in old(tasks)
      ensures r == NotFound <==> failAt > 1 && id !in old(tasks)
      ensures Db() == if r == Done then T.MarkCompletedAbandoningUpload(old(Db()), id, task) else old(Db())
    {
      if failAt == 0 { return Fault; }
      var txTasks, txOutbox := tasks, outbox;
      if failAt == 1 { return Fault; }
      if id !in txTasks { return NotFound; }
      txTasks := txTasks[id := txTasks[id].(status := Completed)];
      if failAt == 2 { return Fault; }
      if task.uploadId != "" && task.uploadId !in txOutbox {
        txOutbox := txOutbox[task.uploadId := AbortEntry(id, task.target, 0, 0)];
      }
      if failAt == 3 { return Fault; }
      tasks, outbox := txTasks, txOutbox;
      return Done;
    }

    method SaveReport(id: string, report: Report, failAt: nat) returns (r: Outcome)
      modifies this
      ensures r == Done <==> failAt > 3 && old(Reportable(Db(), id))
      ensures r == NotFound <==> failAt > 1 && !old(Reportable(Db(), id))
      ensures Db() == if r == Done then T.SaveReport(old(Db()), id, report) else old(Db())
    {
      if failAt == 0 { return Fault; }
      var txTasks, txReports := tasks, reports;
      if failAt == 1 { return Fault; }
      if id !in txTasks || (txTasks[id].status != Running && txTasks[id].status != Failed) { return NotFound; }
      txTasks := txTasks[id := txTasks[id].(status := Reported)];
      if failAt == 2 { return Fault; }
      txReports := txReports[id := report];
      if failAt == 3 { return Fault; }
      tasks, reports := txTasks, txReports;
      return Done;
    }

    method CompleteReported(id: string, report: Report, failAt: nat) returns (r: Outcome)
      modifies this
      ensures r != NotFound
      ensures r == Done <==> failAt > 4 || (failAt > 1 && !old(id in tasks && tasks[id].status == Reported))
      ensures Db() == if r == Done then T.CompleteReported(old(Db()), id, report) else old(Db())
    {
      if failAt == 0 { return Fault; }
      var txTasks, txReports, txProcessed := tasks, reports, processed;
      if failAt == 1 { return Fault; }
      if id !in txTasks || txTasks[id].status != Reported { return Done; }
      var row := txTasks[id].(status := Completed, sha256 := report.sha256);
      txTasks := txTasks[id := row];
      if failAt == 2 { return Fault; }
      if report.success {
        txProcessed := txProcessed[(row.ruleId, row.localPath) := Processed(row.fileSize, row.fileMtime, row.sha256)];
      }
      if failAt == 3 { return Fault; }
      txReports := txReports - {id};
      if failAt == 4 { return Fault; }
      tasks, reports, processed := txTasks, txReports, txProcessed;
      return Done;
    }

    /** One transaction of an eviction. `raced` says that a worker claims the row before its delete. */
    method TryEvict(exclude: string, raced: bool, failAt: nat) returns (r: Attempt)
      modifies this
      ensures r.Broken? ==> failAt < 4 && Db() == old(Db())
      ensures r.Empty? ==> NoneEvictable(Db(), exclude) && Db() == old(Db())
      ensures r.Lost? ==> raced && OldestEvictable(old(Db()), r.id, exclude) && Db() == ClaimedOne(old(Db()), r.id)
      ensures r.Evicted? ==> !raced && OldestEvictable(old(Db()), r.id, exclude) && Db() == Evict(old(Db()), r.id)
    {
      if failAt == 0 { return Broken; }                // begin
      var any, oldest := SelectOldest(exclude);
      if !any { return Empty; }
      if failAt == 1 { return Broken; }                // insert
      var row, txOutbox := tasks[oldest], outbox;
      if row.uploadId != "" && row.uploadId !in txOutbox {
        txOutbox := txOutbox[row.uploadId := AbortEntry(oldest, row.target, 0, 0)];
      }
      if failAt == 2 { return Broken; }                // delete
      if raced {
        tasks := tasks[oldest := row.(status := Running)];
        return Lost(oldest);
      }
      if failAt == 3 { return Broken; }                // commit
      tasks, outbox := tasks - {oldest}, txOutbox;
      return Evicted(oldest);
    }

    /** Oldest first; `raced(k)` says that attempt `k` loses its row to a worker, so that the next attempt meets
        another row. `claimed` are the rows lost that way. */
    method DeleteOldestEvictable(exclude: string, raced: nat -> bool, failAt: nat -> nat)
      returns (victim: string, found: bool, claimed: set<string>, r: Outcome)
      modifies this
      ensures r != NotFound && (r == Fault ==> !found && exists k :: 0 <= k < 8 && failAt(k) < 4)
      ensures claimed != {} ==> raced(0)
      ensures PassedOver(old(Db()), Claimed(old(Db()), claimed), exclude, claimed)
      ensures found ==> OldestEvictable(Claimed(old(Db()), claimed), victim, exclude)
      ensures Db() == if found then Evict(Claimed(old(Db()), claimed), victim) else Claimed(old(Db()), claimed)
      ensures !found && r == Done ==> NoneEvictable(Db(), exclude) || (forall k :: 0 <= k < 8 ==> raced(k))
    {
      claimed := {};
      ghost var before := Db();
      NonePassed(before, exclude);
      for attempt := 0 to 8
        invariant PassedOver(before, Db(), exclude, claimed)
        invariant (forall k :: 0 <= k < attempt ==> raced(k)) && (claimed != {} ==> raced(0))
      {
        ghost var now := Db();
        var step := TryEvict(exclude, raced(attempt), failAt(attempt));
        match step {
          case Broken => return "", false, claimed, Fault;
          case Empty => return "", false, claimed, Done;
          case Evicted(id) => return id, true, claimed, Done;
          case Lost(id) =>
            OneMorePassed(before, now, exclude, claimed, id);
            claimed := claimed + {id};
        }
      }
      return "", false, claimed, Done;
    }

    method SelectOldest(exclude: string) returns (any: bool, oldest: string)
      ensures any ==> OldestEvictable(Db(), oldest, exclude)
      ensures !any ==> NoneEvictable(Db(), exclude)
      ensures any ==> oldest in tasks && oldest != exclude && tasks[oldest].status in {Pending, Failed}
      ensures any ==> forall x :: x in tasks && x != exclude && tasks[x].status in {Pending, Failed} ==>
                        tasks[oldest].createdAt <= tasks[x].createdAt
      ensures !any ==> forall x :: x in tasks && x != exclude ==> tasks[x].status in {Running, Reported, Completed}
    {
      oldest := "";
      var ids := set id | id in tasks && Sheddable(tasks, exclude, id);
      assert forall id :: Sheddable(tasks, exclude, id) ==> id in ids;
      if ids == {} { return false, ""; }
      oldest := OldestOf(ids);
      any := true;
    }

    /** The rows a worker may take, oldest first, up to a limit. */
    method ListPending(limit: nat) returns (ids: seq<string>)
      ensures OldestListed(tasks, ids) && |ids| <= limit
      ensures |ids| < limit ==> forall x :: x in tasks && tasks[x].status == Pending ==> x in ids
    {
      ids := [];
      var rest := set id | id in tasks && tasks[id].status == Pending;
      while rest != {} && |ids| < limit
        invariant OldestListed(tasks, ids) && |ids| <= limit
        invariant forall x :: x in rest <==> x in tasks && tasks[x].status == Pending && x !in ids
        decreases |rest|
      {
        var oldest := OldestOf(rest);
        OneMoreListed(tasks, ids, oldest);
        ids, rest := ids + [oldest], rest - {oldest};
      }
    }

    method OldestOf(ids: set<string>) returns (oldest: string)
      requires ids != {} && ids <= tasks.Keys
      ensures oldest in ids && forall id :: id in ids ==> tasks[oldest].createdAt <= tasks[id].createdAt
    {
      oldest :| oldest in ids;
      var rest := ids - {oldest};
      while rest != {}
        invariant rest <= ids && oldest in ids
        invariant forall id :: id in ids - rest ==> tasks[oldest].createdAt <= tasks[id].createdAt
        decreases |rest|
      {
        var id :| id in rest;
        if tasks[id].createdAt < tasks[oldest].createdAt { oldest := id; }
        rest := rest - {id};
      }
    }

    /** Single statements, one row each; a fault keeps those before it. */
    method MarkRunning(list: seq<string>, failAt: nat) returns (taken: set<string>, r: Outcome)
      requires forall i :: 0 <= i < |list| ==> list[i] in tasks
      modifies this`tasks
      ensures r == if failAt < |list| then Fault else Done
      ensures r == Fault ==> taken == set id | id in list[..failAt]
      ensures r == Done ==> taken == set id | id in list
      ensures Db() == Claimed(old(Db()), taken)
    {
      taken := {};
      NonePassed(Db(), "");
      for i := 0 to |list|
        invariant i <= failAt && taken == (set id | id in list[..i]) && Db() == Claimed(old(Db()), taken)
      {
        assert list[..i + 1] == list[..i] + [list[i]];
        if failAt == i { return taken, Fault; }
        OneMoreClaimed(old(Db()), taken, list[i]);
        tasks, taken := tasks[list[i] := tasks[list[i]].(status := Running)], taken + {list[i]};
      }
      assert list[..|list|] == list;
      return taken, Done;
    }

    /** Hands out the oldest pending rows as running; after a fault nothing is handed out. */
    method DequeuePending(limit: nat, failAt: nat) returns (ids: seq<string>, taken: set<string>, r: Outcome)
      modifies this`tasks
      ensures r != NotFound && (r == Fault ==> ids == [])
      ensures r == Done ==> OldestListed(old(tasks), ids) && |ids| <= limit && taken == set id | id in ids
      ensures r == Done && |ids| < limit ==> forall x :: x in tasks ==> tasks[x].status != Pending
      ensures r == Done && ids != [] ==> OldestPending(old(Db()), ids[0])
      ensures Db() == Claimed(old(Db()), taken)
      ensures forall x :: x in taken ==> x in old(tasks) && old(tasks)[x].status == Pending
    {
      NonePassed(Db(), "");
      if failAt == 0 { return [], {}, Fault; }
      var list := ListPending(limit);
      FirstIsOldest(Db(), list);
      taken, r := MarkRunning(list, failAt - 1);
      ids := if r == Done then list else [];
    }

    method CountActive() returns (n: nat)
      ensures n == |ActiveIds(tasks)| == |set id | id in tasks && tasks[id].status != Completed|
    {
      assert ActiveIds(tasks) == set id | id in tasks && tasks[id].status != Completed;
      n := |ActiveIds(tasks)|;
    }

    /** Refreshes every running row from the filesystem, then flips the status, all in one transaction. */
    method ResetRunningToPending(stat: string -> Stat, fails: string -> bool, commitFails: bool)
      returns (n: nat, r: Outcome)
      modifies this
      ensures r == Done ==> Db() == T.ResetRunningToPending(old(Db()), stat)
      ensures r == Done ==> n == old(|set id | id in tasks && tasks[id].status == Running|)
      ensures r != Done ==> Db() == old(Db()) && n == 0
    {
      var running := set id | id in tasks && tasks[id].status == Running;
      var todo, tx := running, tasks;
      while todo != {}
        invariant todo <= running && tx.Keys == tasks.Keys && Db() == old(Db())
        invariant forall id :: id in tasks ==> Refreshed(tasks[id], tx[id], id in running - todo, stat)
        decreases |todo|
      {
        var id :| id in todo;
        todo := todo - {id};
        match stat(tx[id].localPath) {
          case Gone =>
          case Found(size, mtime) =>
            if fails(id) { return 0, Fault; }
            tx := tx[id := tx[id].(fileSize := size, fileMtime := mtime)];
        }
      }
      if commitFails { return 0, Fault; }
      tasks := map id | id in tx :: if tx[id].status == Running then tx[id].(status := Pending) else tx[id];
      return |running|, Done;
    }

    method EnqueueMultipartAbort(id: string, task: Row, fault: bool) returns (r: Outcome)
      requires task.uploadId != ""
      modifies this`outbox
      ensures outbox == if fault then old(outbox) else Recorded(old(outbox), id, task)
      ensures r == if fault then Fault else Done
    {
      if fault { return Fault; }
      if task.uploadId !in outbox { outbox := outbox[task.uploadId := AbortEntry(id, task.target, 0, 0)]; }
      return Done;
    }

    method DeleteMultipartAbort(uploadId: string, fault: bool) returns (r: Outcome)
      modifies this`outbox
      ensures outbox == if fault then old(outbox) else old(outbox) - {uploadId}
      ensures r == if fault then Fault else Done
    {
      if fault { return Fault; }
      outbox := outbox - {uploadId};
      return Done;
    }
  }

  function ActiveIds(tasks: map<string, Row>): set<string> {
    set id | id in tasks && Active(tasks[id].status)
  }
}
