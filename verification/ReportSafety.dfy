/** Reports, acknowledgements and abandonment, over every run of the upload machine. */
module ReportSafety {
  import opened QueueTables
  import opened UploadLifecycle
  import opened UploadIdentity

  // ---- reports ----

  /** In every run a report is stored for exactly the rows in status reported. */
  lemma ReportsMatchReportedRows(retryMax: nat, es: seq<Event>, id: string)
    ensures var db := Run(FirstStart(retryMax), es).db;
            id in db.reports <==> id in db.tasks && db.tasks[id].status == Reported
  {
    FirstStartKeeps(retryMax);
    RunKeeps(FirstStart(retryMax), es);
    var t := Run(FirstStart(retryMax), es);
    if id in t.db.tasks { assert RowOk(t, id, t.db.tasks[id]); }
  }

  /** The step is an acknowledgement of a success report that is stored at that moment. */
  ghost predicate AcksStoredSuccess(s: Sys, e: Event) {
    && e.Step? && e.p in s.procs && s.procs[e.p].pc.AckRead?
    && var id := s.procs[e.p].id;
       && id in s.db.reports && s.db.reports[id].success
       && id in s.db.tasks && s.db.tasks[id].status == Reported
  }

  lemma OnlyAcksWriteProcessed(s: Sys, e: Event)
    requires Inv(s) && !(e.Step? && e.p in s.procs && s.procs[e.p].pc.AckRead?)
    ensures Apply(s, e).db.processed == s.db.processed
  {
    if e.Step? && e.p in s.procs {
      assert Ready(s, e.p);
      StepMoves(s, e.p, e.choice);
    }
  }

  /** The task is completed, its report is gone, and its own version is recorded with the stored digest. */
  ghost predicate RecordsAcked(s: Sys, db': Tables, id: string)
    requires id in s.db.tasks && id in s.db.reports
  {
    var row := s.db.tasks[id];
    && id in db'.tasks && db'.tasks[id].status == Completed && id !in db'.reports
    && db'.processed == s.db.processed[(row.ruleId, row.localPath) :=
         Processed(row.fileSize, row.fileMtime, s.db.reports[id].sha256)]
  }

  /** The processed files change only when a stored success report is acknowledged, and in that same step. */
  lemma ProcessedOnlyByAck(s: Sys, e: Event)
    requires Inv(s)
    ensures Apply(s, e).db.processed != s.db.processed ==>
              AcksStoredSuccess(s, e) && RecordsAcked(s, Apply(s, e).db, s.procs[e.p].id)
  {
    if e.Step? && e.p in s.procs && s.procs[e.p].pc.AckRead? {
      assert ProcOk(s, s.procs[e.p]);
    } else {
      OnlyAcksWriteProcessed(s, e);
    }
  }

  lemma StepKeepsCompleted(s: Sys, p: nat, c: Choice, id: string)
    requires Inv(s) && p in s.procs && id in s.db.tasks && s.db.tasks[id].status == Completed
    ensures id in ProcStep(s, p, c).db.tasks && ProcStep(s, p, c).db.tasks[id] == s.db.tasks[id]
  {
    assert Ready(s, p);
    if !s.procs[p].pc.AckRead? { StepMoves(s, p, c); }
  }

  lemma RestartKeepsCompleted(s: Sys, e: Event, id: string)
    requires e.Restart? && ListsFailed(s, e.listed) && id in s.db.tasks && s.db.tasks[id].status == Completed
    ensures id in Restarted(s, e.stat, e.listed).db.tasks
            && Restarted(s, e.stat, e.listed).db.tasks[id] == s.db.tasks[id]
  {
  }

  lemma ApplyKeepsCompleted(s: Sys, e: Event, id: string)
    requires Inv(s) && id in s.db.tasks && s.db.tasks[id].status == Completed
    ensures id in Apply(s, e).db.tasks && Apply(s, e).db.tasks[id] == s.db.tasks[id]
  {
    assert RowOk(s, id, s.db.tasks[id]);
    if Enabled(s, e) {
      if e.Step? { StepKeepsCompleted(s, e.p, e.choice, id); }
      else if e.Restart? { RestartKeepsCompleted(s, e, id); }
    }
  }

  /** A completed row never changes again, so every later acknowledgement of it finds nothing to do. */
  lemma {:induction false} CompletedForGood(s: Sys, es: seq<Event>, id: string)
    requires Inv(s) && id in s.db.tasks && s.db.tasks[id].status == Completed
    ensures id in Run(s, es).db.tasks && Run(s, es).db.tasks[id] == s.db.tasks[id]
    ensures forall report :: CompleteReported(Run(s, es).db, id, report) == Run(s, es).db
    decreases |es|
  {
    if es != [] {
      ApplyKeeps(s, es[0]);
      ApplyKeepsCompleted(s, es[0], id);
      CompletedForGood(Apply(s, es[0]), es[1..], id);
    }
  }

  // ---- abandonment ----

  /** Gone, or stamped never-retry and neither pending nor running. */
  ghost predicate Given(s: Sys, id: string) {
    && id in s.used
    && (id in s.db.tasks ==>
          && s.db.tasks[id].nextRetryAt == NEVER
          && s.db.tasks[id].status != Pending && s.db.tasks[id].status != Running)
  }

  lemma MovesKeepGiven(s: Sys, s': Sys, p: nat, id: string)
    requires Inv(s) && Inv(s') && Moves(s, s', p) && Given(s, id)
    ensures Given(s', id)
  {
    if id in s'.db.tasks { assert RowOk(s', id, s'.db.tasks[id]); }
  }

  lemma AckKeepsGiven(s: Sys, p: nat, q: Proc, c: Choice, id: string)
    requires q.pc.AckRead? && Given(s, id)
    ensures Given(AckStep(s, p, q, c), id)
  {
  }

  lemma StepKeepsGiven(s: Sys, p: nat, c: Choice, id: string)
    requires Inv(s) && p in s.procs && Given(s, id)
    ensures Given(ProcStep(s, p, c), id)
  {
    if s.procs[p].pc.AckRead? {
      AckKeepsGiven(s, p, s.procs[p], c, id);
    } else {
      StepKeeps(s, p, c);
      StepMoves(s, p, c);
      MovesKeepGiven(s, ProcStep(s, p, c), p, id);
    }
  }

  lemma ApplyKeepsGiven(s: Sys, e: Event, id: string)
    requires Inv(s) && Given(s, id)
    ensures Given(Apply(s, e), id)
  {
    if e.Step? && e.p in s.procs { StepKeepsGiven(s, e.p, e.choice, id); }
  }

  /** A row once stamped never-retry is never pending or running again, across any number of restarts. */
  lemma {:induction false} AbandonedForGood(s: Sys, es: seq<Event>, id: string)
    requires Inv(s) && Given(s, id)
    ensures Given(Run(s, es), id)
    decreases |es|
  {
    if es != [] {
      ApplyKeepsGiven(s, es[0], id);
      ApplyKeeps(s, es[0]);
      AbandonedForGood(Apply(s, es[0]), es[1..], id);
    }
  }

  /** The stamp alone is enough: no reachable state has a stamped row that is pending or running. */
  lemma StampedIsGiven(s: Sys, id: string)
    requires Inv(s) && id in s.db.tasks && s.db.tasks[id].nextRetryAt == NEVER
    ensures Given(s, id)
  {
    assert RowOk(s, id, s.db.tasks[id]);
  }
}
