/** Which submissions the queue takes, told by the fields of the rows. */
module Submission {
  import opened QueueTables
  import opened UploadLifecycle
  import opened UploadIdentity

  /** In every run, a new task is taken exactly if no pending, running or reported row has its rule, path, time and
      size, and no other row changes. */
  lemma TakenIffNew(retryMax: nat, es: seq<Event>, id: string, row: Row)
    requires Enabled(Run(FirstStart(retryMax), es), Submit(id, row))
    ensures var s := Run(FirstStart(retryMax), es);
            var tasks := Apply(s, Submit(id, row)).db.tasks;
            && (id in tasks <==>
                  forall x :: x in s.db.tasks && s.db.tasks[x].status in {Pending, Running, Reported} ==>
                    || (s.db.tasks[x].ruleId, s.db.tasks[x].localPath) != (row.ruleId, row.localPath)
                    || (s.db.tasks[x].fileMtime, s.db.tasks[x].fileSize) != (row.fileMtime, row.fileSize))
            && tasks == if id in tasks then s.db.tasks[id := row] else s.db.tasks
  {
    FirstStartKeeps(retryMax);
    RunKeeps(FirstStart(retryMax), es);
    UnusedIsAbsent(Run(FirstStart(retryMax), es), id);
    TakenByFields(Run(FirstStart(retryMax), es).db, id, row);
  }

  lemma UnusedIsAbsent(s: Sys, id: string)
    requires Inv(s) && id !in s.used
    ensures id !in s.db.tasks
  {
    assert id in s.db.tasks ==> RowOk(s, id, s.db.tasks[id]);
  }

  lemma TakenByFields(db: Tables, id: string, row: Row)
    requires id !in db.tasks && row.status == Pending
    ensures var tasks := EnqueueIfNoActive(db, id, row).tasks;
            && (id in tasks <==>
                  forall x :: x in db.tasks && db.tasks[x].status in {Pending, Running, Reported} ==>
                    || (db.tasks[x].ruleId, db.tasks[x].localPath) != (row.ruleId, row.localPath)
                    || (db.tasks[x].fileMtime, db.tasks[x].fileSize) != (row.fileMtime, row.fileSize))
            && tasks == if id in tasks then db.tasks[id := row] else db.tasks
  {
    assert row.(status := Pending) == row;
    if id !in EnqueueIfNoActive(db, id, row).tasks {
      var x :| x in db.tasks && Blocks(db.tasks[x], row);
      assert db.tasks[x].status in {Pending, Running, Reported};
    }
  }

  /** Versions of one file do not stand in each other's way: whether the second is taken does not depend on the
      first. */
  lemma VersionsDoNotBlock(retryMax: nat, es: seq<Event>, id: string, row: Row, id': string, row': Row)
    requires Enabled(Run(FirstStart(retryMax), es), Submit(id, row)) && id != id'
    requires Enabled(Run(FirstStart(retryMax), es), Submit(id', row'))
    requires row.fileMtime != row'.fileMtime || row.fileSize != row'.fileSize
    ensures var s := Run(FirstStart(retryMax), es);
            id' in Apply(Apply(s, Submit(id, row)), Submit(id', row')).db.tasks <==>
            id' in Apply(s, Submit(id', row')).db.tasks
  {
    FirstStartKeeps(retryMax);
    RunKeeps(FirstStart(retryMax), es);
    UnusedIsAbsent(Run(FirstStart(retryMax), es), id);
    UnusedIsAbsent(Run(FirstStart(retryMax), es), id');
    SecondIsTaken(Run(FirstStart(retryMax), es).db, id, row, id', row');
  }

  lemma SecondIsTaken(db: Tables, id: string, row: Row, id': string, row': Row)
    requires id !in db.tasks && id' !in db.tasks && id != id' && row.status == Pending && row'.status == Pending
    requires row.fileMtime != row'.fileMtime || row.fileSize != row'.fileSize
    ensures id' in EnqueueIfNoActive(EnqueueIfNoActive(db, id, row), id', row').tasks <==>
            id' in EnqueueIfNoActive(db, id', row').tasks
  {
    var db' := EnqueueIfNoActive(db, id, row);
    TakenByFields(db, id, row);
    TakenByFields(db, id', row');
    TakenByFields(db', id', row');
    SecondAsBefore(db.tasks, db'.tasks, id, row, row');
  }

  /** The first row is no obstacle to the second. */
  lemma SecondAsBefore(before: map<string, Row>, after: map<string, Row>, id: string, row: Row, row': Row)
    requires after == before || (id !in before && after == before[id := row])
    requires row.fileMtime != row'.fileMtime || row.fileSize != row'.fileSize
    ensures (forall x :: x in after && after[x].status in {Pending, Running, Reported} ==>
               || (after[x].ruleId, after[x].localPath) != (row'.ruleId, row'.localPath)
               || (after[x].fileMtime, after[x].fileSize) != (row'.fileMtime, row'.fileSize)) <==>
            (forall x :: x in before && before[x].status in {Pending, Running, Reported} ==>
               || (before[x].ruleId, before[x].localPath) != (row'.ruleId, row'.localPath)
               || (before[x].fileMtime, before[x].fileSize) != (row'.fileMtime, row'.fileSize))
  {
    assert forall x :: x in before ==> x in after && after[x] == before[x];
  }
}
