/** What the reports say is what the object store said, over every run of the upload machine. */
module Acceptance {
  import opened QueueTables
  import opened UploadLifecycle
  import opened UploadIdentity

  /** One version of a file, as a rule sees it: rule, path, size and time. */
  type Version = (string, string, int, int)

  function VersionOf(row: Row): Version { (row.ruleId, row.localPath, row.fileSize, row.fileMtime) }

  /** What an observer of the store writes down: the tasks whose current attempt it has accepted, counted from the
      claim, and every version it has ever accepted. */
  datatype Past = Past(accepted: set<string>, stored: set<Version>)

  const NOTHING := Past({}, {})

  /** The store says yes to the completion of a multipart upload, or to a single put. */
  predicate Accepts(s: Sys, e: Event) {
    e.Step? && e.p in s.procs && (s.procs[e.p].pc.Finish? || s.procs[e.p].pc.PutSingle?) && e.choice.yes
  }

  function Observe(s: Sys, h: Past, e: Event): Past {
    if Accepts(s, e) then Past(h.accepted + {s.procs[e.p].id}, h.stored + {VersionOf(s.procs[e.p].task)})
    else if e.Claim? && Enabled(s, e) then h.(accepted := h.accepted - {e.id})
    else h
  }

  function Observed(s: Sys, h: Past, es: seq<Event>): Past
    decreases |es|
  {
    if es == [] then h else Observed(Apply(s, es[0]), Observe(s, h, es[0]), es[1..])
  }

  // ---- invariant ----

  /** A report succeeds exactly if the store accepted, a row failed or given up on was not accepted, and a finished
      row was accepted or given up on. */
  ghost predicate RowTrue(h: Past, id: string, row: Row, reports: map<string, Report>) {
    && (id in reports ==> (reports[id].success <==> id in h.accepted))
    && (row.status == Failed || row.nextRetryAt == NEVER ==> id !in h.accepted)
    && (row.status == Reported ==> if id in h.accepted then VersionOf(row) in h.stored else row.nextRetryAt == NEVER)
    && (row.status == Completed ==> row.nextRetryAt == NEVER || VersionOf(row) in h.stored)
  }

  /** Between claim and report, the one point that knows of an acceptance is the one that reports success. */
  ghost predicate ProcTrue(h: Past, q: Proc, tasks: map<string, Row>) {
    Owns(q.pc) && q.id in tasks ==>
      && (q.id in h.accepted <==> q.pc.ReportSuccess?)
      && (Working(q.pc) ==> VersionOf(tasks[q.id]) == VersionOf(q.task))
      && (q.pc.ReportSuccess? || q.pc.CompleteDuplicate? ==> VersionOf(q.task) in h.stored)
  }

  ghost predicate ProcessedTrue(h: Past, processed: map<(string, string), Processed>) {
    forall k :: k in processed ==> (k.0, k.1, processed[k].fileSize, processed[k].fileMtime) in h.stored
  }

  ghost predicate Truthful(s: Sys, h: Past) {
    && (forall id :: id in s.db.tasks ==> RowTrue(h, id, s.db.tasks[id], s.db.reports))
    && (forall p :: p in s.procs ==> ProcTrue(h, s.procs[p], s.db.tasks))
    && ProcessedTrue(h, s.db.processed)
  }

  // ---- one step of a process ----

  /** What the step has to show: its own row and itself. */
  ghost predicate OwnTrue(t: Sys, h: Past, p: nat, id: string) {
    && (id in t.db.tasks ==> RowTrue(h, id, t.db.tasks[id], t.db.reports))
    && (p in t.procs ==> ProcTrue(h, t.procs[p], t.db.tasks))
  }

  lemma ActiveIsTrue(t: Sys, h: Past, id: string)
    requires id in t.db.tasks && RowOk(t, id, t.db.tasks[id])
    requires t.db.tasks[id].status == Pending || t.db.tasks[id].status == Running
    ensures RowTrue(h, id, t.db.tasks[id], t.db.reports)
  {
  }

  /** How a step of the uploader leaves its task. */
  ghost predicate Carries(s: Sys, t: Sys, p: nat, q: Proc, accepts: bool) {
    && p in t.procs && t.procs[p].id == q.id && VersionOf(t.procs[p].task) == VersionOf(q.task)
    && (t.procs[p].pc.ReportSuccess? <==> accepts) && !t.procs[p].pc.CompleteDuplicate?
    && t.db.reports == s.db.reports && t.db.processed == s.db.processed
    && (q.id in s.db.tasks ==> q.id in t.db.tasks && t.db.tasks[q.id].status == s.db.tasks[q.id].status
                               && VersionOf(t.db.tasks[q.id]) == VersionOf(s.db.tasks[q.id]))
  }

  lemma DiscardCarries(s: Sys, p: nat, q: Proc, c: Choice)
    requires p in s.procs && (q.pc.Plan? || q.pc.DiscardRecord? || q.pc.DiscardAbort? || q.pc.DiscardDelete?)
    ensures Carries(s, UploaderStep(s, p, q, c), p, q, false)
  {
  }

  lemma StartCarries(s: Sys, p: nat, q: Proc, c: Choice)
    requires p in s.procs && (q.pc.ListParts? || q.pc.Initiate?)
    ensures Carries(s, UploaderStep(s, p, q, c), p, q, false)
  {
  }

  lemma FirstCarries(s: Sys, p: nat, q: Proc, c: Choice)
    requires p in s.procs && (q.pc.FirstPersist? || q.pc.FreshAbort?)
    ensures Carries(s, UploaderStep(s, p, q, c), p, q, false)
  {
  }

  lemma PutCarries(s: Sys, p: nat, q: Proc, c: Choice)
    requires p in s.procs && s.procs[p] == q && (q.pc.PutParts? || q.pc.UploadFailed?)
    ensures Carries(s, UploaderStep(s, p, q, c), p, q, false)
  {
  }

  lemma EndCarries(s: Sys, p: nat, q: Proc, c: Choice)
    requires p in s.procs && (q.pc.Finish? || q.pc.PutSingle?)
    ensures Carries(s, UploaderStep(s, p, q, c), p, q, c.yes)
  {
  }

  lemma UploaderCarries(s: Sys, p: nat, q: Proc, c: Choice)
    requires p in s.procs && s.procs[p] == q && Uploading(q.pc)
    ensures Carries(s, UploaderStep(s, p, q, c), p, q, Accepts(s, Step(p, c)))
  {
    match q.pc {
      case Finish => EndCarries(s, p, q, c);
      case PutSingle => EndCarries(s, p, q, c);
      case PutParts => PutCarries(s, p, q, c);
      case UploadFailed => PutCarries(s, p, q, c);
      case ListParts => StartCarries(s, p, q, c);
      case Initiate => StartCarries(s, p, q, c);
      case FirstPersist => FirstCarries(s, p, q, c);
      case FreshAbort => FirstCarries(s, p, q, c);
      case _ => DiscardCarries(s, p, q, c);
    }
  }

  lemma CarriedIsTrue(s: Sys, t: Sys, h: Past, h': Past, p: nat, q: Proc, accepts: bool)
    requires Carries(s, t, p, q, accepts) && ProcTrue(h, q, s.db.tasks) && Uploading(q.pc)
    requires q.id in s.db.tasks && s.db.tasks[q.id].status == Running && RowOk(t, q.id, t.db.tasks[q.id])
    requires h' == if accepts then Past(h.accepted + {q.id}, h.stored + {VersionOf(q.task)}) else h
    ensures OwnTrue(t, h', p, q.id)
  {
    ActiveIsTrue(t, h', q.id);
  }

  lemma DedupIsTrue(s: Sys, h: Past, p: nat, q: Proc, c: Choice)
    requires q.pc.CheckDedup? && p in s.procs && s.procs[p] == q && ProcTrue(h, q, s.db.tasks)
    requires q.id in s.db.tasks && s.db.tasks[q.id].status == Running && RowOk(s, q.id, s.db.tasks[q.id])
    requires ProcessedTrue(h, s.db.processed)
    ensures OwnTrue(CheckDedupStep(s, p, q, c), h, p, q.id)
  {
    ActiveIsTrue(s, h, q.id);
  }

  lemma DuplicateIsTrue(s: Sys, h: Past, p: nat, q: Proc, c: Choice)
    requires q.pc.CompleteDuplicate? && p in s.procs && s.procs[p] == q && ProcTrue(h, q, s.db.tasks)
    requires q.id in s.db.tasks && s.db.tasks[q.id].status == Running && RowOk(s, q.id, s.db.tasks[q.id])
    ensures OwnTrue(CompleteDuplicateStep(s, p, q, c), h, p, q.id)
  {
    ActiveIsTrue(s, h, q.id);
  }

  lemma AbandonedIsTrue(s: Sys, h: Past, p: nat, q: Proc)
    requires (q.pc.Terminal? || q.pc.GiveUp?) && p in s.procs && s.procs[p] == q && ProcTrue(h, q, s.db.tasks)
    requires q.id in s.db.tasks && q.id !in s.db.reports
    ensures OwnTrue(Abandoned(s, p, q), h, p, q.id)
  {
  }

  lemma BackoffIsTrue(s: Sys, h: Past, p: nat, q: Proc, c: Choice)
    requires q.pc.Backoff? && p in s.procs && s.procs[p] == q && ProcTrue(h, q, s.db.tasks)
    requires q.id in s.db.tasks && s.db.tasks[q.id].status == Running && RowOk(s, q.id, s.db.tasks[q.id])
    ensures OwnTrue(BackoffStep(s, p, q, c), h, p, q.id)
  {
    ActiveIsTrue(s, h, q.id);
  }

  lemma GotoIsTrue(s: Sys, h: Past, p: nat, q: Proc, pc: Pc)
    requires p in s.procs && s.procs[p] == q && ProcTrue(h, q, s.db.tasks) && (pc.GiveUp? || pc.Backoff?)
    requires Working(q.pc) && !q.pc.ReportSuccess?
    requires q.id in s.db.tasks && s.db.tasks[q.id].status == Running && RowOk(s, q.id, s.db.tasks[q.id])
    ensures OwnTrue(Goto(s, p, q, pc), h, p, q.id)
  {
    ActiveIsTrue(s, h, q.id);
  }

  lemma FailureIsTrue(s: Sys, h: Past, p: nat, q: Proc, c: Choice)
    requires (q.pc.Terminal? || q.pc.GiveUp? || q.pc.Backoff?) && p in s.procs && s.procs[p] == q
    requires ProcTrue(h, q, s.db.tasks)
    requires q.id in s.db.tasks && s.db.tasks[q.id].status == Running && RowOk(s, q.id, s.db.tasks[q.id])
    ensures OwnTrue(ExecutorStep(s, p, q, c), h, p, q.id)
  {
    match q.pc {
      case Backoff => BackoffIsTrue(s, h, p, q, c);
      case Terminal => if c.fault { GotoIsTrue(s, h, p, q, GiveUp); } else { AbandonedIsTrue(s, h, p, q); }
      case GiveUp =>
        if !Exhausted(s, q) || c.fault { GotoIsTrue(s, h, p, q, Backoff); } else { AbandonedIsTrue(s, h, p, q); }
    }
  }

  lemma ReportIsTrue(s: Sys, h: Past, p: nat, q: Proc, c: Choice)
    requires (q.pc.ReportSuccess? || q.pc.ReportFailure?) && p in s.procs && s.procs[p] == q
    requires ProcTrue(h, q, s.db.tasks) && ProcOk(s, q)
    requires q.id in s.db.tasks ==> RowTrue(h, q.id, s.db.tasks[q.id], s.db.reports)
    ensures OwnTrue(ReportStep(s, p, q, c), h, p, q.id)
  {
  }

  /** What a step between failure and report does to the row: nothing, or it requeues it. */
  ghost predicate Idles(s: Sys, t: Sys, p: nat, q: Proc) {
    && t.db.reports == s.db.reports && (q.id in t.db.tasks ==> q.id in s.db.tasks)
    && (q.id in t.db.tasks ==> t.db.tasks[q.id] == s.db.tasks[q.id] || t.db.tasks[q.id].status == Pending)
    && (p in t.procs ==> t.procs[p].id == q.id && !Working(t.procs[p].pc) && (Owns(t.procs[p].pc) ==> Owns(q.pc)))
  }

  lemma WakeIdles(s: Sys, p: nat, q: Proc, c: Choice)
    requires q.pc.Sleeping?
    ensures Idles(s, WakeStep(s, p, q, c), p, q)
  {
  }

  lemma RecoverIdles(s: Sys, p: nat, q: Proc, c: Choice)
    requires q.pc.Recover?
    ensures Idles(s, RecoverStep(s, p, q, c), p, q)
  {
  }

  lemma AfterIdles(s: Sys, p: nat, q: Proc)
    requires q.pc.AbandonRecord? || q.pc.AbandonAbort? || q.pc.AbandonDelete?
    ensures Idles(s, AfterAbandon(s, p, q, q.pc.after), p, q)
  {
  }

  lemma RecordIdles(s: Sys, p: nat, q: Proc, c: Choice)
    requires q.pc.AbandonRecord?
    ensures Idles(s, AbandonRecordStep(s, p, q, c), p, q)
  {
    AfterIdles(s, p, q);
  }

  lemma AbortIdles(s: Sys, p: nat, q: Proc, c: Choice)
    requires q.pc.AbandonAbort?
    ensures Idles(s, AbandonAbortStep(s, p, q, c), p, q)
  {
    AfterIdles(s, p, q);
  }

  lemma DeleteIdles(s: Sys, p: nat, q: Proc, c: Choice)
    requires q.pc.AbandonDelete?
    ensures Idles(s, AbandonDeleteStep(s, p, q, c), p, q)
  {
    AfterIdles(s, p, q);
  }

  ghost predicate Waits(pc: Pc) {
    pc.Sleeping? || pc.Recover? || pc.AbandonRecord? || pc.AbandonAbort? || pc.AbandonDelete?
  }

  lemma WaiterIdles(s: Sys, p: nat, q: Proc, c: Choice)
    requires Waits(q.pc)
    ensures Idles(s, ExecutorStep(s, p, q, c), p, q)
  {
    match q.pc {
      case Sleeping(_) => WakeIdles(s, p, q, c);
      case Recover => RecoverIdles(s, p, q, c);
      case AbandonRecord(_) => RecordIdles(s, p, q, c);
      case AbandonAbort(_) => AbortIdles(s, p, q, c);
      case AbandonDelete(_) => DeleteIdles(s, p, q, c);
    }
  }

  lemma IdleIsTrue(s: Sys, t: Sys, h: Past, p: nat, q: Proc)
    requires Idles(s, t, p, q) && ProcTrue(h, q, s.db.tasks) && !q.pc.ReportSuccess?
    requires q.id in s.db.tasks ==> RowTrue(h, q.id, s.db.tasks[q.id], s.db.reports)
    requires q.id in t.db.tasks ==> RowOk(t, q.id, t.db.tasks[q.id])
    ensures OwnTrue(t, h, p, q.id)
  {
    if q.id in t.db.tasks && t.db.tasks[q.id].status == Pending { ActiveIsTrue(t, h, q.id); }
  }

  lemma ExecutorIsTrue(s: Sys, h: Past, p: nat, q: Proc, c: Choice)
    requires Inv(s) && Truthful(s, h) && p in s.procs && s.procs[p] == q && !Uploading(q.pc) && !q.pc.AckRead?
    requires Inv(ExecutorStep(s, p, q, c))
    ensures OwnTrue(ExecutorStep(s, p, q, c), h, p, q.id)
  {
    assert ProcOk(s, q) && ProcTrue(h, q, s.db.tasks);
    if Waits(q.pc) {
      WaiterIdles(s, p, q, c);
      IdleIsTrue(s, ExecutorStep(s, p, q, c), h, p, q);
    } else if q.pc.CheckDedup? {
      DedupIsTrue(s, h, p, q, c);
    } else if q.pc.CompleteDuplicate? {
      DuplicateIsTrue(s, h, p, q, c);
    } else if q.pc.ReportSuccess? || q.pc.ReportFailure? {
      ReportIsTrue(s, h, p, q, c);
    } else {
      FailureIsTrue(s, h, p, q, c);
    }
  }

  lemma UploaderIsTrue(s: Sys, h: Past, p: nat, q: Proc, c: Choice)
    requires p in s.procs && s.procs[p] == q && Uploading(q.pc) && ProcOk(s, q) && ProcTrue(h, q, s.db.tasks)
    requires var t := UploaderStep(s, p, q, c); q.id in t.db.tasks ==> RowOk(t, q.id, t.db.tasks[q.id])
    ensures OwnTrue(UploaderStep(s, p, q, c), Observe(s, h, Step(p, c)), p, q.id)
  {
    UploaderCarries(s, p, q, c);
    CarriedIsTrue(s, UploaderStep(s, p, q, c), h, Observe(s, h, Step(p, c)), p, q, Accepts(s, Step(p, c)));
  }

  // ---- every event ----

  /** The observation concerns one task. */
  ghost predicate OnlyPast(h: Past, h': Past, id: string) {
    h.stored <= h'.stored && forall x :: x != id ==> (x in h.accepted <==> x in h'.accepted)
  }

  lemma OthersTrue(s: Sys, t: Sys, h: Past, h': Past, p: nat, id: string)
    requires Truthful(s, h) && OnlyTask(s, t, id) && OnlyProc(s, t, p) && OnlyPast(h, h', id) && OwnTrue(t, h', p, id)
    requires forall x :: x in s.procs && x != p && Owns(s.procs[x].pc) ==> s.procs[x].id != id
    requires t.db.processed == s.db.processed
    ensures Truthful(t, h')
  {
    forall x | x in t.db.tasks && x != id ensures RowTrue(h', x, t.db.tasks[x], t.db.reports) {
      assert RowTrue(h, x, s.db.tasks[x], s.db.reports);
    }
    forall x | x in t.procs && x != p ensures ProcTrue(h', t.procs[x], t.db.tasks) {
      assert ProcTrue(h, s.procs[x], s.db.tasks);
    }
  }

  /** A process that owns nothing leaves the rows alone. */
  lemma RowlessTrue(s: Sys, t: Sys, h: Past, p: nat)
    requires p in s.procs && Truthful(s, h) && RowlessMove(s, t, p) && OwnTrue(t, h, p, s.procs[p].id)
    ensures Truthful(t, h)
  {
    forall x | x in t.procs && x != p ensures ProcTrue(h, t.procs[x], t.db.tasks) {
      assert ProcTrue(h, s.procs[x], s.db.tasks);
    }
  }

  lemma StepIsTrue(s: Sys, h: Past, p: nat, c: Choice)
    requires Inv(s) && Truthful(s, h) && p in s.procs && !s.procs[p].pc.AckRead?
    ensures Truthful(ProcStep(s, p, c), Observe(s, h, Step(p, c)))
  {
    var q, t := s.procs[p], ProcStep(s, p, c);
    StepKeeps(s, p, c);
    StepMoves(s, p, c);
    if Uploading(q.pc) { UploaderIsTrue(s, h, p, q, c); } else { ExecutorIsTrue(s, h, p, q, c); }
    MovedIsTrue(s, t, h, Observe(s, h, Step(p, c)), p);
  }

  lemma MovedIsTrue(s: Sys, t: Sys, h: Past, h': Past, p: nat)
    requires Exclusive(s) && s.db.reports.Keys <= s.db.tasks.Keys
    requires Truthful(s, h) && Moves(s, t, p) && OwnTrue(t, h', p, s.procs[p].id)
    requires if Owns(s.procs[p].pc) then OnlyPast(h, h', s.procs[p].id) else h' == h
    ensures Truthful(t, h')
  {
    if Owns(s.procs[p].pc) {
      OwnerMovesOnly(s, t, p);
      OthersTrue(s, t, h, h', p, s.procs[p].id);
    } else {
      RowlessTrue(s, t, h, p);
    }
  }

  lemma OwnerMovesOnly(s: Sys, t: Sys, p: nat)
    requires Moves(s, t, p) && s.db.reports.Keys <= s.db.tasks.Keys
    ensures OnlyProc(s, t, p) && t.db.processed == s.db.processed && OnlyTask(s, t, s.procs[p].id)
  {
  }

  /** An acknowledgement completes a reported row and records the version of a success. */
  lemma AckIsTrue(s: Sys, h: Past, p: nat, q: Proc, c: Choice)
    requires Inv(s) && Truthful(s, h) && p in s.procs && s.procs[p] == q && q.pc.AckRead?
    ensures Truthful(AckStep(s, p, q, c), h)
  {
    var t := AckStep(s, p, q, c);
    assert ProcOk(s, q);
    if c.fault || q.id !in s.db.tasks || s.db.tasks[q.id].status != Reported {
      assert t.db == s.db && t.procs == s.procs - {p};
    } else {
      AckedRowIsTrue(s, h, q);
      AckedProcsAreTrue(s, t, h, p, q.id);
    }
  }

  lemma AckedRowIsTrue(s: Sys, h: Past, q: Proc)
    requires Truthful(s, h) && q.pc.AckRead? && q.id in s.db.tasks && s.db.tasks[q.id].status == Reported
    requires q.id in s.db.reports && s.db.reports[q.id] == q.pc.report
    ensures var db := CompleteReported(s.db, q.id, q.pc.report);
            && (forall x :: x in db.tasks ==> RowTrue(h, x, db.tasks[x], db.reports)) && ProcessedTrue(h, db.processed)
  {
    var db := CompleteReported(s.db, q.id, q.pc.report);
    assert RowTrue(h, q.id, s.db.tasks[q.id], s.db.reports);
    forall x | x in db.tasks ensures RowTrue(h, x, db.tasks[x], db.reports) {
      if x != q.id { assert RowTrue(h, x, s.db.tasks[x], s.db.reports); }
    }
  }

  lemma AckedProcsAreTrue(s: Sys, t: Sys, h: Past, p: nat, id: string)
    requires Inv(s) && Truthful(s, h) && t.procs == s.procs - {p}
    requires id in s.db.tasks && s.db.tasks[id].status == Reported
    requires id in t.db.tasks && t.db.tasks == s.db.tasks[id := t.db.tasks[id]]
    ensures forall x :: x in t.procs ==> ProcTrue(h, t.procs[x], t.db.tasks)
  {
    forall x | x in t.procs ensures ProcTrue(h, t.procs[x], t.db.tasks) {
      assert ProcOk(s, s.procs[x]) && ProcTrue(h, s.procs[x], s.db.tasks);
    }
  }

  lemma ClaimIsTrue(s: Sys, h: Past, p: nat, id: string)
    requires Inv(s) && Truthful(s, h) && Enabled(s, Claim(p, id))
    ensures Truthful(Apply(s, Claim(p, id)), Observe(s, h, Claim(p, id)))
  {
    var t, h' := Apply(s, Claim(p, id)), Observe(s, h, Claim(p, id));
    CalmAsIs(s, t);
    ClaimKeeps(s, p, id);
    ActiveIsTrue(t, h', id);
    PendingIsFree(s, t, id);
    ClaimedOnly(s, t, p, id, s.db.tasks[id].(status := Running));
    OthersTrue(s, t, h, h', p, id);
  }

  /** Requests that add a process that owns nothing, and rows that come or go. */
  lemma NewcomerIsTrue(s: Sys, t: Sys, h: Past, id: string)
    requires Inv(s) && Inv(t) && Truthful(s, h) && OnlyTask(s, t, id) && t.db.processed == s.db.processed
    requires id in t.db.tasks ==> RowTrue(h, id, t.db.tasks[id], t.db.reports)
    requires forall x :: x in t.procs && Owns(t.procs[x].pc) ==> x in s.procs && s.procs[x] == t.procs[x]
    requires id in t.db.tasks ==>
               || (id in s.db.tasks && s.db.tasks[id] == t.db.tasks[id])
               || (id !in s.used && t.db.tasks[id].status == Pending)
    ensures Truthful(t, h)
  {
    forall x | x in t.db.tasks && x != id ensures RowTrue(h, x, t.db.tasks[x], t.db.reports) {
      assert RowTrue(h, x, s.db.tasks[x], s.db.reports);
    }
    forall x | x in t.procs ensures ProcTrue(h, t.procs[x], t.db.tasks) {
      if Owns(t.procs[x].pc) {
        assert ProcTrue(h, s.procs[x], s.db.tasks) && ProcOk(s, s.procs[x]);
      }
    }
  }

  lemma SubmitIsTrue(s: Sys, h: Past, id: string, row: Row)
    requires Inv(s) && Truthful(s, h) && Enabled(s, Submit(id, row))
    ensures Truthful(Apply(s, Submit(id, row)), h)
  {
    var t := Apply(s, Submit(id, row));
    SubmitKeeps(s, id, row);
    SubmitCalm(s, t, id);
    UnusedIsFree(s, t, id);
    SubmittedOnly(s.db, id, row);
    if id in t.db.tasks { ActiveIsTrue(t, h, id); }
    NewcomerIsTrue(s, t, h, id);
  }

  lemma SubmittedOnly(db: Tables, id: string, row: Row)
    requires id !in db.tasks
    ensures var db' := EnqueueIfNoActive(db, id, row);
            && db'.reports == db.reports && db'.processed == db.processed && db'.outbox == db.outbox
            && (db'.tasks == db.tasks || db'.tasks == db.tasks[id := row.(status := Pending)])
  {
  }

  lemma EvictIsTrue(s: Sys, h: Past, p: nat, victim: string, exclude: string)
    requires Inv(s) && Truthful(s, h) && Enabled(s, EvictOldest(p, victim, exclude))
    ensures Truthful(Apply(s, EvictOldest(p, victim, exclude)), h)
  {
    var t := Apply(s, EvictOldest(p, victim, exclude));
    EvictKeeps(s, p, victim, exclude);
    assert RowOk(s, victim, s.db.tasks[victim]);
    EvictedOnly(s, t, p, victim);
    NewcomerIsTrue(s, t, h, victim);
  }

  lemma AddedIsTrue(s: Sys, h: Past, p: nat, q: Proc)
    requires Truthful(s, h) && !Owns(q.pc)
    ensures Truthful(s.(procs := s.procs[p := q]), h)
  {
  }

  lemma RestartIsTrue(s: Sys, h: Past, stat: string -> Stat, listed: map<nat, string>)
    requires Inv(s) && Truthful(s, h) && ListsFailed(s, listed)
    ensures Truthful(Restarted(s, stat, listed), h)
  {
    var t := Restarted(s, stat, listed);
    RestartKeeps(s, stat, listed);
    forall x | x in t.db.tasks ensures RowTrue(h, x, t.db.tasks[x], t.db.reports) {
      assert RowTrue(h, x, s.db.tasks[x], s.db.reports);
      if s.db.tasks[x].status == Running { ActiveIsTrue(t, h, x); }
    }
    forall x | x in t.procs ensures ProcTrue(h, t.procs[x], t.db.tasks) {
      assert RowTrue(h, listed[x], s.db.tasks[listed[x]], s.db.reports);
    }
  }

  lemma ApplyIsTrue(s: Sys, h: Past, e: Event)
    requires Inv(s) && Truthful(s, h)
    ensures Truthful(Apply(s, e), Observe(s, h, e))
  {
    if Enabled(s, e) {
      if e.Step? { AnyStepIsTrue(s, h, e.p, e.choice); }
      else if e.Restart? { RestartIsTrue(s, h, e.stat, e.listed); }
      else { RequestIsTrue(s, h, e); }
    }
  }

  lemma AnyStepIsTrue(s: Sys, h: Past, p: nat, c: Choice)
    requires Inv(s) && Truthful(s, h) && p in s.procs
    ensures Truthful(ProcStep(s, p, c), Observe(s, h, Step(p, c)))
  {
    if s.procs[p].pc.AckRead? { AckIsTrue(s, h, p, s.procs[p], c); } else { StepIsTrue(s, h, p, c); }
  }

  lemma RequestIsTrue(s: Sys, h: Past, e: Event)
    requires Inv(s) && Truthful(s, h) && Enabled(s, e) && !e.Step? && !e.Restart?
    ensures Truthful(Apply(s, e), Observe(s, h, e))
  {
    match e {
      case Submit(id, row) => SubmitIsTrue(s, h, id, row);
      case EvictOldest(p, victim, exclude) => EvictIsTrue(s, h, p, victim, exclude);
      case Claim(p, id) => ClaimIsTrue(s, h, p, id);
      case DrainAbort(p, _) => AddedIsTrue(s, h, p, Apply(s, e).procs[p]);
      case Acknowledge(p, _) => AddedIsTrue(s, h, p, Apply(s, e).procs[p]);
    }
  }

  lemma {:induction false} RunIsTrue(s: Sys, h: Past, es: seq<Event>)
    requires Inv(s) && Truthful(s, h)
    ensures Truthful(Run(s, es), Observed(s, h, es))
    decreases |es|
  {
    if es != [] {
      ApplyKeeps(s, es[0]);
      ApplyIsTrue(s, h, es[0]);
      RunIsTrue(Apply(s, es[0]), Observe(s, h, es[0]), es[1..]);
    }
  }

  // ---- what the Control Plane and the next scan may rely on ----

  /** In every run, a stored report says success exactly if the store accepted the task's last attempt. */
  lemma ReportsTellTheTruth(retryMax: nat, es: seq<Event>, id: string)
    requires id in Run(FirstStart(retryMax), es).db.reports
    ensures Run(FirstStart(retryMax), es).db.reports[id].success <==>
            id in Observed(FirstStart(retryMax), NOTHING, es).accepted
  {
    FirstStartKeeps(retryMax);
    RunKeeps(FirstStart(retryMax), es);
    RunIsTrue(FirstStart(retryMax), NOTHING, es);
    var s := Run(FirstStart(retryMax), es);
    assert RowTrue(Observed(FirstStart(retryMax), NOTHING, es), id, s.db.tasks[id], s.db.reports);
  }

  /** A row given up on reports a failure. */
  lemma AbandonedReportsFailure(retryMax: nat, es: seq<Event>, id: string)
    requires var db := Run(FirstStart(retryMax), es).db;
             id in db.reports && id in db.tasks && db.tasks[id].nextRetryAt == NEVER
    ensures !Run(FirstStart(retryMax), es).db.reports[id].success
  {
    FirstStartKeeps(retryMax);
    RunIsTrue(FirstStart(retryMax), NOTHING, es);
    var s := Run(FirstStart(retryMax), es);
    assert RowTrue(Observed(FirstStart(retryMax), NOTHING, es), id, s.db.tasks[id], s.db.reports);
  }

  /** A version of a file counts as processed only if the store accepted that version. */
  lemma ProcessedWasAccepted(retryMax: nat, es: seq<Event>, ruleId: string, path: string)
    requires (ruleId, path) in Run(FirstStart(retryMax), es).db.processed
    ensures var done := Run(FirstStart(retryMax), es).db.processed[(ruleId, path)];
            (ruleId, path, done.fileSize, done.fileMtime) in Observed(FirstStart(retryMax), NOTHING, es).stored
  {
    FirstStartKeeps(retryMax);
    RunIsTrue(FirstStart(retryMax), NOTHING, es);
  }

  /** A task is completed, as uploaded or as a duplicate, only if the store accepted its version, or it was given up
      on. */
  lemma CompletedWasAccepted(retryMax: nat, es: seq<Event>, id: string)
    requires var db := Run(FirstStart(retryMax), es).db; id in db.tasks && db.tasks[id].status == Completed
    ensures var row := Run(FirstStart(retryMax), es).db.tasks[id];
            || row.nextRetryAt == NEVER
            || (row.ruleId, row.localPath, row.fileSize, row.fileMtime)
                 in Observed(FirstStart(retryMax), NOTHING, es).stored
  {
    FirstStartKeeps(retryMax);
    RunIsTrue(FirstStart(retryMax), NOTHING, es);
    var s := Run(FirstStart(retryMax), es);
    assert RowTrue(Observed(FirstStart(retryMax), NOTHING, es), id, s.db.tasks[id], s.db.reports);
  }

  // ---- and a task can get there ----

  function Said(yes: bool, route: Route, text: string): Choice { Choice(false, yes, route, text, 1) }

  /** From its claim to the acknowledgement of its report, if nothing fails. */
  function WholeUpload(p: nat, id: string, digest: string): seq<Event> {
    [Claim(p, id), Step(p, Said(false, Fresh, "")), Step(p, Said(false, Single, "")), Step(p, Said(true, Fresh, "")),
     Step(p, Said(false, Fresh, digest)), Acknowledge(p, id), Step(p, Said(false, Fresh, ""))]
  }

  /** The states on the way: `row` is the claimed row and `tallies` count the attempt. */
  ghost predicate OnTheWay(s: Sys, t: Sys, p: nat, id: string, row: Row, pc: Pc) {
    && t.procs == s.procs[p := Proc(pc, id, row)] && t.db == SetRow(s.db, id, row)
  }

  lemma ClaimedGoesOn(s: Sys, p: nat, id: string, row: Row)
    requires Enabled(s, Claim(p, id)) && row == s.db.tasks[id].(status := Running)
    requires !IsProcessed(s.db, row) && !row.tail && row.uploadId == ""
    ensures OnTheWay(s, Apply(Apply(s, Claim(p, id)), Step(p, Said(false, Fresh, ""))), p, id, row, Plan)
  {
    var a := Apply(s, Claim(p, id));
    assert a.procs[p] == Proc(CheckDedup, id, row);
    assert Apply(a, Step(p, Said(false, Fresh, ""))) == CheckDedupStep(a, p, a.procs[p], Said(false, Fresh, ""));
  }

  lemma PlannedGoesOn(s: Sys, t: Sys, p: nat, id: string, row: Row)
    requires OnTheWay(s, t, p, id, row, Plan) && row.uploadId == ""
    ensures var u := Apply(Apply(t, Step(p, Said(false, Single, ""))), Step(p, Said(true, Fresh, "")));
            OnTheWay(s, u, p, id, row, ReportSuccess)
  {
    var q := t.procs[p];
    var a := Apply(t, Step(p, Said(false, Single, "")));
    assert a == PlanStep(t, p, q, Said(false, Single, "")) == Goto(t, p, q, PutSingle);
    assert Apply(a, Step(p, Said(true, Fresh, ""))) == PutSingleStep(a, p, a.procs[p], Said(true, Fresh, ""));
  }

  lemma ReportedGoesOn(s: Sys, t: Sys, p: nat, id: string, row: Row, digest: string)
    requires OnTheWay(s, t, p, id, row, ReportSuccess) && row.status == Running && p !in s.procs
    ensures var u := Apply(t, Step(p, Said(false, Fresh, digest)));
            && u.procs == s.procs && id in u.db.tasks && u.db.tasks[id] == row.(status := Reported)
            && id in u.db.reports && u.db.reports[id] == Report(true, digest)
  {
    var u := Apply(t, Step(p, Said(false, Fresh, digest)));
    assert u == ReportStep(t, p, t.procs[p], Said(false, Fresh, digest));
    assert u.procs == s.procs;
  }

  lemma AcknowledgedEnds(u: Sys, p: nat, id: string, row: Row, digest: string)
    requires p !in u.procs && id in u.db.tasks && u.db.tasks[id] == row.(status := Reported)
    requires id in u.db.reports && u.db.reports[id] == Report(true, digest)
    ensures var t := Apply(Apply(u, Acknowledge(p, id)), Step(p, Said(false, Fresh, "")));
            && id in t.db.tasks && t.db.tasks[id].status == Completed && id !in t.db.reports
            && (row.ruleId, row.localPath) in t.db.processed
            && t.db.processed[(row.ruleId, row.localPath)] == Processed(row.fileSize, row.fileMtime, digest)
  {
    var a := Apply(u, Acknowledge(p, id));
    assert a.procs[p].pc == AckRead(Report(true, digest)) && a.db == u.db;
    assert Apply(a, Step(p, Said(false, Fresh, ""))) == AckStep(a, p, a.procs[p], Said(false, Fresh, ""));
  }

  lemma RunSeven(s: Sys, es: seq<Event>)
    requires |es| == 7
    ensures var planned := Apply(Apply(s, es[0]), es[1]);
            var uploaded := Apply(Apply(planned, es[2]), es[3]);
            Run(s, es) == Apply(Apply(Apply(uploaded, es[4]), es[5]), es[6])
  {
    var a, b, c := Apply(s, es[0]), Apply(Apply(s, es[0]), es[1]), Apply(Apply(Apply(s, es[0]), es[1]), es[2]);
    assert es[1..][0] == es[1] && es[1..][1..] == es[2..] && es[2..][0] == es[2] && es[2..][1..] == es[3..];
    assert Run(s, es) == Run(a, es[1..]) == Run(b, es[2..]) == Run(c, es[3..]);
    var d, e, f := Apply(c, es[3]), Apply(Apply(c, es[3]), es[4]), Apply(Apply(Apply(c, es[3]), es[4]), es[5]);
    assert es[3..][0] == es[3] && es[3..][1..] == es[4..] && es[4..][0] == es[4] && es[4..][1..] == es[5..];
    assert es[5..][0] == es[5] && es[5..][1..] == es[6..] && es[6..][0] == es[6] && es[6..][1..] == [];
    assert Run(c, es[3..]) == Run(d, es[4..]) == Run(e, es[5..]) == Run(f, es[6..]) == Apply(f, es[6]);
  }

  /** The oldest pending task of a small file that has not been processed can be uploaded, reported and acknowledged:
      its version then counts as processed, with the digest that was reported. */
  lemma UploadCanFinish(s: Sys, p: nat, id: string, digest: string)
    requires Enabled(s, Claim(p, id)) && !IsProcessed(s.db, s.db.tasks[id])
    requires !s.db.tasks[id].tail && s.db.tasks[id].uploadId == ""
    ensures var db, row := Run(s, WholeUpload(p, id, digest)).db, s.db.tasks[id];
            && id in db.tasks && db.tasks[id].status == Completed && id !in db.reports
            && (row.ruleId, row.localPath) in db.processed
            && db.processed[(row.ruleId, row.localPath)] == Processed(row.fileSize, row.fileMtime, digest)
  {
    var es, row := WholeUpload(p, id, digest), s.db.tasks[id].(status := Running);
    RunSeven(s, es);
    ClaimedGoesOn(s, p, id, row);
    var planned := Apply(Apply(s, es[0]), es[1]);
    PlannedGoesOn(s, planned, p, id, row);
    var uploaded := Apply(Apply(planned, es[2]), es[3]);
    ReportedGoesOn(s, uploaded, p, id, row, digest);
    AcknowledgedEnds(Apply(uploaded, es[4]), p, id, row, digest);
  }

  lemma DuplicateIsFound(s: Sys, p: nat, id: string, row: Row)
    requires Enabled(s, Claim(p, id)) && row == s.db.tasks[id].(status := Running) && IsProcessed(s.db, row)
    ensures var b := Apply(Apply(s, Claim(p, id)), Step(p, Said(false, Fresh, "")));
            && b.procs == s.procs[p := Proc(CompleteDuplicate, id, row)] && b.db == SetRow(s.db, id, row)
            && b.live == s.live && b.tallies == s.tallies
  {
    var c, a := Said(false, Fresh, ""), Apply(s, Claim(p, id));
    assert a == s.(db := SetRow(s.db, id, row), procs := s.procs[p := Proc(CheckDedup, id, row)]);
    assert Apply(a, Step(p, c)) == CheckDedupStep(a, p, Proc(CheckDedup, id, row), c);
  }

  lemma DuplicateEnds(b: Sys, p: nat, id: string, row: Row)
    requires p in b.procs && b.procs[p] == Proc(CompleteDuplicate, id, row)
    requires id in b.db.tasks && b.db.tasks[id] == row
    ensures var t := Apply(b, Step(p, Said(false, Fresh, "")));
            && id in t.db.tasks && t.db.tasks[id].status == Completed && t.live == b.live && t.tallies == b.tallies
            && (row.uploadId != "" ==> row.uploadId in t.db.outbox)
  {
    var c := Said(false, Fresh, "");
    assert Apply(b, Step(p, c)) == CompleteDuplicateStep(b, p, Proc(CompleteDuplicate, id, row), c);
  }

  /** A task whose very version was processed before is completed without another upload: the store is not touched,
      no attempt is counted, and an upload it still has is recorded for abort. */
  lemma DuplicateIsSkipped(s: Sys, p: nat, id: string)
    requires Enabled(s, Claim(p, id))
    requires var row := s.db.tasks[id];
             && (row.ruleId, row.localPath) in s.db.processed
             && s.db.processed[(row.ruleId, row.localPath)].fileSize == row.fileSize
             && s.db.processed[(row.ruleId, row.localPath)].fileMtime == row.fileMtime
    ensures var quiet := Step(p, Said(false, Fresh, ""));
            var t, row := Apply(Apply(Apply(s, Claim(p, id)), quiet), quiet), s.db.tasks[id];
            && id in t.db.tasks && t.db.tasks[id].status == Completed && t.live == s.live && t.tallies == s.tallies
            && (row.uploadId != "" ==> row.uploadId in t.db.outbox)
  {
    var row := s.db.tasks[id].(status := Running);
    DuplicateIsFound(s, p, id, row);
    DuplicateEnds(Apply(Apply(s, Claim(p, id)), Step(p, Said(false, Fresh, ""))), p, id, row);
  }
}
