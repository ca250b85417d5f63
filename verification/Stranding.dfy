/** A row that names a live upload is not enough: will anybody take it up again? */
module Stranding {
  import opened QueueTables
  import opened UploadLifecycle
  import opened UploadIdentity

  /** A retry timer waits to requeue the task. */
  ghost predicate Asleep(s: Sys, id: string) {
    exists p :: p in s.procs && s.procs[p].pc.Sleeping? && s.procs[p].id == id
  }

  /** Failed with no retry left, and not stamped as given up on. */
  predicate Overspent(s: Sys, id: string) {
    && id in s.db.tasks && s.db.tasks[id].status == Failed && s.db.tasks[id].nextRetryAt != NEVER
    && s.db.tasks[id].retryCount >= s.retryMax
  }

  /** Moreover no timer is left; a start-up recovery that has listed the row will skip it. */
  ghost predicate Stranded(s: Sys, id: string) { Overspent(s, id) && !Asleep(s, id) }

  /** The task waits to be uploaded again, with the parts that `u` already holds. */
  ghost predicate Requeued(s: Sys, id: string, u: string) {
    id in s.db.tasks && s.db.tasks[id].status == Pending && s.db.tasks[id].uploadId == u
  }

  /** Some run from here brings the task of `u` back. */
  ghost predicate ComesBack(s: Sys, id: string, u: string) { exists rest :: Requeued(Run(s, rest), id, u) }

  // ---- a stranded row stays as it is until it is evicted ----

  /** Gone for good, and its upload is recorded for abort or gone as well. */
  ghost predicate Shed(s: Sys, id: string, u: string) {
    id !in s.db.tasks && id in s.used && Known(s, u) && Safe(s, u)
  }

  lemma RestartCalm(s: Sys, stat: string -> Stat, listed: map<nat, string>)
    requires Inv(s) && ListsFailed(s, listed)
    ensures Calm(s, Restarted(s, stat, listed))
  {
    forall id | id in s.db.tasks ensures id in s.used { assert RowOk(s, id, s.db.tasks[id]); }
    ResetCalm(s, Restarted(s, stat, listed));
  }

  lemma ResetCalm(s: Sys, t: Sys)
    requires Inv(s) && s.db.tasks.Keys <= s.used && t.tallies == Reset(s) && t.db.outbox == s.db.outbox
    requires t.live == s.live && t.issued == s.issued && t.home == s.home && t.used == s.used
    requires t.retryMax == s.retryMax
    ensures Calm(s, t)
  {
    CalmAsIs(s, t);
  }

  lemma ApplyCalm(s: Sys, e: Event)
    requires Inv(s)
    ensures Calm(s, Apply(s, e))
  {
    var t := Apply(s, e);
    if !Enabled(s, e) {
      CalmAsIs(s, s);
    } else {
      match e {
        case Submit(id, _) => SubmitCalm(s, t, id);
        case EvictOldest(_, victim, _) => EvictCalm(s, t, victim);
        case Step(p, c) => StepCalm(s, p, c);
        case Restart(stat, listed) => RestartCalm(s, stat, listed);
        case _ => CalmAsIs(s, t);
      }
    }
  }

  lemma StepCalm(s: Sys, p: nat, c: Choice)
    requires Inv(s) && p in s.procs
    ensures Calm(s, ProcStep(s, p, c))
  {
    if s.procs[p].pc.AckRead? {
      CalmAsIs(s, AckStep(s, p, s.procs[p], c));
    } else {
      StepMoves(s, p, c);
    }
  }

  lemma StepKeepsShed(s: Sys, p: nat, c: Choice, id: string)
    requires Inv(s) && p in s.procs && id !in s.db.tasks
    ensures id !in ProcStep(s, p, c).db.tasks
  {
    if !s.procs[p].pc.AckRead? { StepMoves(s, p, c); }
  }

  lemma ApplyKeepsShed(s: Sys, e: Event, id: string, u: string)
    requires Inv(s) && Shed(s, id, u)
    ensures Shed(Apply(s, e), id, u)
  {
    ApplyCalm(s, e);
    if e.Step? && e.p in s.procs { StepKeepsShed(s, e.p, e.choice, id); }
  }

  /** No process but a recovery is at a stranded row, and recovery skips it. */
  lemma StepKeepsStranded(s: Sys, p: nat, c: Choice, id: string)
    requires Inv(s) && p in s.procs && Stranded(s, id)
    ensures var t := ProcStep(s, p, c); Stranded(t, id) && t.db.tasks[id] == s.db.tasks[id]
  {
    var q := s.procs[p];
    assert ProcOk(s, q);
    if q.pc.AckRead? {
      AckKeepsStranded(s, p, q, c, id);
    } else if q.id == id && Owns(q.pc) {
      RecoverSkips(s, p, q, c);
    } else {
      StepMoves(s, p, c);
      MovesKeepStranded(s, ProcStep(s, p, c), p, id);
    }
  }

  lemma RecoverSkips(s: Sys, p: nat, q: Proc, c: Choice)
    requires p in s.procs && s.procs[p] == q && q.pc.Recover? && q.task.retryCount >= s.retryMax
    ensures ProcStep(s, p, c) == Finished(s, p)
  {
    assert ExecutorStep(s, p, q, c) == RecoverStep(s, p, q, c);
  }

  lemma AckKeepsStranded(s: Sys, p: nat, q: Proc, c: Choice, id: string)
    requires p in s.procs && q == s.procs[p] && q.pc.AckRead? && Stranded(s, id)
    ensures var t := AckStep(s, p, q, c); Stranded(t, id) && t.db.tasks[id] == s.db.tasks[id]
  {
  }

  lemma MovesKeepStranded(s: Sys, t: Sys, p: nat, id: string)
    requires Inv(s) && Moves(s, t, p) && Stranded(s, id) && !(s.procs[p].id == id && Owns(s.procs[p].pc))
    ensures Stranded(t, id) && t.db.tasks[id] == s.db.tasks[id]
  {
    forall x | x in t.procs && t.procs[x].pc.Sleeping? ensures t.procs[x].id != id {
      assert x != p ==> x in s.procs && s.procs[x] == t.procs[x];
    }
  }

  /** Requests and workers take up other rows; an eviction records the upload. */
  lemma NewcomersKeepStranded(s: Sys, e: Event, id: string)
    requires Enabled(s, e) && !e.Step? && !e.Restart? && Stranded(s, id) && id in s.used && id !in s.db.reports
    ensures var t := Apply(s, e);
            if e.EvictOldest? && e.victim == id then id !in t.db.tasks
            else Stranded(t, id) && t.db.tasks[id] == s.db.tasks[id]
  {
    var t := Apply(s, e);
    forall x | x in t.procs && t.procs[x].pc.Sleeping? ensures t.procs[x].id != id {
      assert x in s.procs && s.procs[x] == t.procs[x];
    }
  }

  lemma RestartKeepsStranded(s: Sys, stat: string -> Stat, listed: map<nat, string>, id: string)
    requires ListsFailed(s, listed) && Overspent(s, id)
    ensures var t := Restarted(s, stat, listed); Stranded(t, id) && t.db.tasks[id] == s.db.tasks[id]
  {
  }

  lemma ApplyKeepsStranded(s: Sys, e: Event, id: string)
    requires Inv(s) && Stranded(s, id)
    ensures var t := Apply(s, e);
            (Stranded(t, id) && t.db.tasks[id] == s.db.tasks[id]) || Shed(t, id, s.db.tasks[id].uploadId)
  {
    assert RowOk(s, id, s.db.tasks[id]);
    if Enabled(s, e) {
      match e {
        case Step(p, c) => StepKeepsStranded(s, p, c, id);
        case Restart(stat, listed) => RestartKeepsStranded(s, stat, listed, id);
        case EvictOldest(_, victim, _) =>
          NewcomersKeepStranded(s, e, id);
          EvictCalm(s, Apply(s, e), victim);
        case _ => NewcomersKeepStranded(s, e, id);
      }
    }
  }

  lemma {:induction false} RunKeepsShed(s: Sys, es: seq<Event>, id: string, u: string)
    requires Inv(s) && Shed(s, id, u)
    ensures Shed(Run(s, es), id, u)
    decreases |es|
  {
    if es != [] {
      ApplyKeeps(s, es[0]);
      ApplyKeepsShed(s, es[0], id, u);
      RunKeepsShed(Apply(s, es[0]), es[1..], id, u);
    }
  }

  /** Whatever happens next, restarts included, a stranded row is not touched, or it is evicted and its upload is
      then recorded or gone. */
  lemma {:induction false} StrandedForGood(s: Sys, es: seq<Event>, id: string)
    requires Inv(s) && Stranded(s, id)
    ensures var t := Run(s, es);
            (Stranded(t, id) && t.db.tasks[id] == s.db.tasks[id]) || Shed(t, id, s.db.tasks[id].uploadId)
    decreases |es|
  {
    if es != [] {
      var t := Apply(s, es[0]);
      ApplyKeeps(s, es[0]);
      ApplyKeepsStranded(s, es[0], id);
      if Stranded(t, id) { StrandedForGood(t, es[1..], id); }
      else { RunKeepsShed(t, es[1..], id, s.db.tasks[id].uploadId); }
    }
  }

  // ---- any other row can come back ----

  lemma RunOne(s: Sys, e: Event)
    ensures Run(s, [e]) == Apply(s, e)
  {
    assert [e][1..] == [];
  }

  /** The timer of a failed row goes off. */
  lemma WakesUp(s: Sys, p: nat, id: string)
    requires p in s.procs && s.procs[p].pc.Sleeping? && s.procs[p].id == id && id in s.db.tasks
    ensures ComesBack(s, id, s.db.tasks[id].uploadId)
  {
    var e := Step(p, Pick(false, false, Fresh, ""));
    assert Apply(s, e) == WakeStep(s, p, s.procs[p], e.choice);
    RunOne(s, e);
    assert Requeued(Run(s, [e]), id, s.db.tasks[id].uploadId);
  }

  /** The next start resets a running row. */
  lemma ResetByRestart(s: Sys, id: string)
    requires id in s.db.tasks && s.db.tasks[id].status == Running
    ensures ComesBack(s, id, s.db.tasks[id].uploadId)
  {
    var e := Restart(_ => Gone, map[]);
    RunOne(s, e);
    assert Requeued(Run(s, [e]), id, s.db.tasks[id].uploadId);
  }

  lemma RecoverTakes(s: Sys, q: Proc, c: Choice)
    requires 0 in s.procs && s.procs[0] == q && q.pc.Recover? && !c.fault && c.yes
    requires q.task.retryCount < s.retryMax && q.task.nextRetryAt != NEVER
    ensures var t := Apply(s, Step(0, c));
            t.live == s.live && t.db == if q.task.nextRetryAt == 0 then EnqueueAbort(s.db, q.id, q.task)
                                        else UpdateStatus(s.db, q.id, Pending)
  {
    assert ExecutorStep(s, 0, q, c) == RecoverStep(s, 0, q, c);
  }

  /** The next start lists a failed row that has retries left, and its recovery requeues it, or records the upload of
      a row that never had a schedule. */
  lemma RecoveredByRestart(s: Sys, id: string) returns (rest: seq<Event>)
    requires id in s.db.tasks && s.db.tasks[id].status == Failed
    requires s.db.tasks[id].retryCount < s.retryMax && s.db.tasks[id].nextRetryAt != NEVER
    ensures var t, row := Run(s, rest), s.db.tasks[id];
            t.live == s.live && if row.nextRetryAt == 0 then t.db.outbox == Recorded(s.db.outbox, id, row)
                                else Requeued(t, id, row.uploadId)
  {
    var stat: string -> Stat := _ => Gone;
    var a := Apply(s, Restart(stat, map[0 := id]));
    var e := Step(0, Pick(false, true, Fresh, ""));
    RestartLists(s, id, stat);
    RecoverTakes(a, Proc(Recover, id, s.db.tasks[id]), e.choice);
    RunCons(a, e, []);
    RunCons(s, Restart(stat, map[0 := id]), [e] + []);
    return [Restart(stat, map[0 := id])] + ([e] + []);
  }

  /** From any failed row that is not stranded, some run requeues the task or records its upload for abort. */
  lemma TakenUpAgain(s: Sys, id: string) returns (rest: seq<Event>)
    requires Inv(s) && id in s.db.tasks && s.db.tasks[id].status == Failed && !Stranded(s, id)
    requires var u := s.db.tasks[id].uploadId; u in s.live && !InOutbox(s, u)
    ensures var t, u := Run(s, rest), s.db.tasks[id].uploadId;
            Requeued(t, id, u) || (u in t.live && InOutbox(t, u))
  {
    var u := s.db.tasks[id].uploadId;
    assert RowOk(s, id, s.db.tasks[id]);
    if Asleep(s, id) {
      var p :| p in s.procs && s.procs[p].pc.Sleeping? && s.procs[p].id == id;
      WakesUp(s, p, id);
      rest :| Requeued(Run(s, rest), id, u);
    } else {
      rest := RecoveredByRestart(s, id);
    }
  }

  /** A recorded upload can be got rid of: the abort worker asks the store, and the store agrees. */
  lemma RecordedCanBeAborted(s: Sys, p: nat, u: string)
    requires Inv(s) && u in s.db.outbox && p !in s.procs
    ensures var yes := Step(p, Pick(false, true, Fresh, ""));
            var t := Run(s, [DrainAbort(p, u)] + ([yes] + ([yes] + [])));
            u !in t.live && u !in t.db.outbox && t.db.tasks == s.db.tasks
  {
    var yes := Step(p, Pick(false, true, Fresh, ""));
    var a := Apply(s, DrainAbort(p, u));
    var b := Apply(a, yes);
    DrainAborts(s, p, u);
    RunCons(b, yes, []);
    RunCons(a, yes, [yes] + []);
    RunCons(s, DrainAbort(p, u), [yes] + ([yes] + []));
  }

  lemma DrainAborts(s: Sys, p: nat, u: string)
    requires u in s.db.outbox && p !in s.procs && (u in s.live ==> s.live[u] == s.db.outbox[u].target)
    ensures var yes := Step(p, Pick(false, true, Fresh, ""));
            var t := Apply(Apply(Apply(s, DrainAbort(p, u)), yes), yes);
            u !in t.live && u !in t.db.outbox && t.db.tasks == s.db.tasks
  {
    var c := Pick(false, true, Fresh, "");
    var a := Apply(s, DrainAbort(p, u));
    AbortAgreed(a, p, a.procs[p], u);
    var b := Apply(a, Step(p, c));
    assert Apply(b, Step(p, c)) == AbandonDeleteStep(b, p, b.procs[p], c);
  }

  lemma AbortAgreed(a: Sys, p: nat, q: Proc, u: string)
    requires p in a.procs && a.procs[p] == q && q.pc == AbandonAbort(ThenReschedule) && q.task.uploadId == u
    requires u in a.live ==> a.live[u] == q.task.target
    ensures var b := Apply(a, Step(p, Pick(false, true, Fresh, "")));
            && u !in b.live && b.db == a.db
            && p in b.procs && b.procs[p] == q.(pc := AbandonDelete(ThenReschedule))
  {
    var c := Pick(false, true, Fresh, "");
    assert Apply(a, Step(p, c)) == AbandonAbortStep(a, p, q, c);
  }

  // ---- every failed row of a run has a schedule ----

  predicate Scheduled(row: Row) { row.status == Failed ==> row.nextRetryAt != 0 }

  ghost predicate AllScheduled(db: Tables) { forall id :: id in db.tasks ==> Scheduled(db.tasks[id]) }

  predicate SameStamp(row: Row, row': Row) {
    row'.status == row.status && row'.nextRetryAt == row.nextRetryAt && row'.retryCount == row.retryCount
  }

  /** How a step rewrites the row of its task. */
  predicate Rewrites(pc: Pc, row: Row, row': Row) {
    match row'.status
    case Pending => pc.Sleeping? || pc.Recover? || row.status == Pending
    case Failed => if pc.Backoff? then row'.nextRetryAt > 0 else row'.nextRetryAt == NEVER || SameStamp(row, row')
    case _ => true
  }

  ghost predicate Writes(s: Sys, t: Sys, q: Proc) {
    || t.db.tasks == s.db.tasks
    || (q.id in s.db.tasks && q.id in t.db.tasks && t.db.tasks == s.db.tasks[q.id := t.db.tasks[q.id]]
        && Rewrites(q.pc, s.db.tasks[q.id], t.db.tasks[q.id]))
  }

  lemma PersistWrites(s: Sys, p: nat, q: Proc, c: Choice)
    requires q.pc.FirstPersist? || q.pc.PutParts?
    ensures Writes(s, UploaderStep(s, p, q, c), q)
  {
  }

  lemma UploaderWrites(s: Sys, p: nat, q: Proc, c: Choice)
    requires Uploading(q.pc)
    ensures Writes(s, UploaderStep(s, p, q, c), q)
  {
    if q.pc.FirstPersist? || q.pc.PutParts? { PersistWrites(s, p, q, c); }
    else { assert UploaderStep(s, p, q, c).db.tasks == s.db.tasks; }
  }

  lemma AbandonWrites(s: Sys, p: nat, q: Proc, c: Choice)
    requires q.pc.AbandonRecord? || q.pc.AbandonAbort? || q.pc.AbandonDelete?
    ensures ExecutorStep(s, p, q, c).db.tasks == s.db.tasks
  {
  }

  lemma DuplicateWrites(s: Sys, p: nat, q: Proc, c: Choice)
    requires q.pc.CompleteDuplicate?
    ensures Writes(s, CompleteDuplicateStep(s, p, q, c), q)
  {
  }

  lemma AbandonedWrites(s: Sys, p: nat, q: Proc)
    requires q.pc.Terminal? || q.pc.GiveUp?
    ensures Writes(s, Abandoned(s, p, q), q)
  {
  }

  lemma BackoffWrites(s: Sys, p: nat, q: Proc, c: Choice)
    requires q.pc.Backoff?
    ensures Writes(s, BackoffStep(s, p, q, c), q)
  {
  }

  lemma WakeWrites(s: Sys, p: nat, q: Proc, c: Choice)
    requires q.pc.Sleeping?
    ensures Writes(s, WakeStep(s, p, q, c), q)
  {
  }

  lemma ReportWrites(s: Sys, p: nat, q: Proc, c: Choice)
    requires q.pc.ReportSuccess? || q.pc.ReportFailure?
    ensures Writes(s, ReportStep(s, p, q, c), q)
  {
  }

  lemma AckWrites(s: Sys, p: nat, q: Proc, c: Choice)
    requires q.pc.AckRead?
    ensures Writes(s, AckStep(s, p, q, c), q)
  {
  }

  lemma RecoverWrites(s: Sys, p: nat, q: Proc, c: Choice)
    requires q.pc.Recover?
    ensures Writes(s, RecoverStep(s, p, q, c), q)
  {
  }

  lemma ExecutorWrites(s: Sys, p: nat, q: Proc, c: Choice)
    requires !Uploading(q.pc)
    ensures Writes(s, ExecutorStep(s, p, q, c), q)
  {
    match q.pc {
      case CheckDedup => {}
      case CompleteDuplicate => DuplicateWrites(s, p, q, c);
      case Terminal => if !c.fault { AbandonedWrites(s, p, q); }
      case GiveUp => if Exhausted(s, q) && !c.fault { AbandonedWrites(s, p, q); }
      case Backoff => BackoffWrites(s, p, q, c);
      case Sleeping(_) => WakeWrites(s, p, q, c);
      case ReportSuccess => ReportWrites(s, p, q, c);
      case ReportFailure => ReportWrites(s, p, q, c);
      case AckRead(_) => AckWrites(s, p, q, c);
      case Recover => RecoverWrites(s, p, q, c);
      case _ => AbandonWrites(s, p, q, c);
    }
  }

  lemma StepWrites(s: Sys, p: nat, c: Choice)
    requires p in s.procs
    ensures Writes(s, ProcStep(s, p, c), s.procs[p])
  {
    if Uploading(s.procs[p].pc) { UploaderWrites(s, p, s.procs[p], c); } else { ExecutorWrites(s, p, s.procs[p], c); }
  }

  lemma SetScheduled(db: Tables, id: string, row: Row)
    requires AllScheduled(db) && Scheduled(row)
    ensures AllScheduled(SetRow(db, id, row))
  {
  }

  lemma StepSchedules(s: Sys, p: nat, c: Choice)
    requires AllScheduled(s.db) && p in s.procs
    ensures AllScheduled(ProcStep(s, p, c).db)
  {
    var t, id := ProcStep(s, p, c), s.procs[p].id;
    StepWrites(s, p, c);
    if t.db.tasks != s.db.tasks { SetScheduled(s.db, id, t.db.tasks[id]); }
  }

  lemma ApplySchedules(s: Sys, e: Event)
    requires AllScheduled(s.db)
    ensures AllScheduled(Apply(s, e).db)
  {
    if Enabled(s, e) {
      match e {
        case Step(p, c) => StepSchedules(s, p, c);
        case _ => {}
      }
    }
  }

  lemma {:induction false} RunSchedules(s: Sys, es: seq<Event>)
    requires AllScheduled(s.db)
    ensures AllScheduled(Run(s, es).db)
    decreases |es|
  {
    if es != [] {
      ApplySchedules(s, es[0]);
      RunSchedules(Apply(s, es[0]), es[1..]);
    }
  }

  // ---- the two halves together ----

  /** In every run, a persisted upload that the store still holds is in the outbox, or its task can come back with
      it, exactly unless the row is stranded. */
  lemma ComesBackUnlessStranded(retryMax: nat, es: seq<Event>, u: string)
    requires u in Run(FirstStart(retryMax), es).home && u in Run(FirstStart(retryMax), es).live
    requires !InOutbox(Run(FirstStart(retryMax), es), u)
    ensures var s := Run(FirstStart(retryMax), es); ComesBack(s, s.home[u], u) <==> !Stranded(s, s.home[u])
  {
    FirstStartKeeps(retryMax);
    RunKeeps(FirstStart(retryMax), es);
    RunSchedules(FirstStart(retryMax), es);
    var s := Run(FirstStart(retryMax), es);
    var id := s.home[u];
    assert Kept(s, u, id) && RowOk(s, id, s.db.tasks[id]);
    if Stranded(s, id) {
      forall rest ensures !Requeued(Run(s, rest), id, u) { StrandedForGood(s, rest, id); }
    } else {
      CanComeBack(s, id, u);
    }
  }

  lemma CanComeBack(s: Sys, id: string, u: string)
    requires Inv(s) && AllScheduled(s.db) && u in s.live && !InOutbox(s, u) && !Stranded(s, id)
    requires id in s.db.tasks && s.db.tasks[id].uploadId == u && Resumable(s.db.tasks[id].status)
    ensures ComesBack(s, id, u)
  {
    assert RowOk(s, id, s.db.tasks[id]) && Scheduled(s.db.tasks[id]);
    match s.db.tasks[id].status {
      case Pending => assert Requeued(Run(s, []), id, u);
      case Running => ResetByRestart(s, id);
      case Failed =>
        if Asleep(s, id) {
          var p :| p in s.procs && s.procs[p].pc.Sleeping? && s.procs[p].id == id;
          WakesUp(s, p, id);
        } else {
          var rest := RecoveredByRestart(s, id);
          assert Requeued(Run(s, rest), id, u);
        }
    }
  }

  // ---- what strands a row ----

  /** The event that lets go of the last timer: a crash, or a timer whose requeue fails. */
  ghost predicate LetsGo(s: Sys, e: Event, id: string) {
    && Enabled(s, e)
    && (e.Restart? || (e.Step? && s.procs[e.p].pc.Sleeping? && s.procs[e.p].id == id && e.choice.fault))
  }

  lemma OwnerIsOnly(s: Sys, p: nat)
    requires Exclusive(s) && p in s.procs && Owns(s.procs[p].pc)
    ensures forall x :: x in s.procs && x != p && s.procs[x].pc.Sleeping? ==> s.procs[x].id != s.procs[p].id
  {
  }

  lemma LettingGoStrands(s: Sys, e: Event, id: string)
    requires Exclusive(s) && Overspent(s, id) && LetsGo(s, e, id)
    ensures Stranded(Apply(s, e), id)
  {
    if e.Step? {
      assert Apply(s, e) == WakeStep(s, e.p, s.procs[e.p], e.choice) == Finished(s, e.p);
      OwnerIsOnly(s, e.p);
    } else {
      RestartKeepsStranded(s, e.stat, e.listed, id);
    }
  }

  /** Nothing else strands a row: whatever fails a task leaves a timer. */
  lemma StepStrands(s: Sys, p: nat, c: Choice, id: string)
    requires Inv(s) && p in s.procs && Stranded(ProcStep(s, p, c), id)
    ensures Stranded(s, id) || (Overspent(s, id) && LetsGo(s, Step(p, c), id))
  {
    var q := s.procs[p];
    assert ProcOk(s, q);
    StepWrites(s, p, c);
    if !(q.id == id && Owns(q.pc)) { OthersDoNotStrand(s, p, c, id); }
    else if q.pc.Recover? { RecoverDoesNotStrand(s, p, q, c); }
    else if q.pc.Backoff? { BackoffSleeps(s, p, q, c); }
  }

  lemma BackoffSleeps(s: Sys, p: nat, q: Proc, c: Choice)
    requires p in s.procs && s.procs[p] == q && q.pc.Backoff?
    ensures Asleep(ProcStep(s, p, c), q.id)
  {
    var t := BackoffStep(s, p, q, c);
    assert ProcStep(s, p, c) == t && p in t.procs && t.procs[p].pc.Sleeping? && t.procs[p].id == q.id;
  }

  lemma RecoverDoesNotStrand(s: Sys, p: nat, q: Proc, c: Choice)
    requires Exclusive(s) && p in s.procs && s.procs[p] == q && q.pc.Recover? && ProcOk(s, q)
    requires Overspent(ProcStep(s, p, c), q.id)
    ensures Stranded(s, q.id)
  {
    OwnerIsOnly(s, p);
    RecoverOverspends(s, p, q, c);
  }

  lemma RecoverOverspends(s: Sys, p: nat, q: Proc, c: Choice)
    requires q.pc.Recover? && p in s.procs && s.procs[p] == q && Overspent(ProcStep(s, p, c), q.id)
    requires q.id in s.db.tasks ==> s.db.tasks[q.id] == q.task && q.task.status == Failed
    ensures Overspent(s, q.id)
  {
    assert ProcStep(s, p, c) == RecoverStep(s, p, q, c);
  }

  lemma OthersDoNotStrand(s: Sys, p: nat, c: Choice, id: string)
    requires Inv(s) && p in s.procs && !(s.procs[p].id == id && Owns(s.procs[p].pc)) && Stranded(ProcStep(s, p, c), id)
    ensures Stranded(s, id)
  {
    if s.procs[p].pc.AckRead? {
      AckDoesNotStrand(s, p, s.procs[p], c, id);
    } else {
      StepMoves(s, p, c);
      MovesDoNotStrand(s, ProcStep(s, p, c), p, id);
    }
  }

  lemma AckDoesNotStrand(s: Sys, p: nat, q: Proc, c: Choice, id: string)
    requires p in s.procs && s.procs[p] == q && q.pc.AckRead? && Stranded(AckStep(s, p, q, c), id)
    ensures Stranded(s, id)
  {
    var t := AckStep(s, p, q, c);
    forall x | x in s.procs && s.procs[x].pc.Sleeping? ensures s.procs[x].id != id { assert x in t.procs; }
  }

  lemma MovesDoNotStrand(s: Sys, t: Sys, p: nat, id: string)
    requires Moves(s, t, p) && Stranded(t, id) && !(s.procs[p].id == id && Owns(s.procs[p].pc))
    ensures Stranded(s, id)
  {
    forall x | x in s.procs && s.procs[x].pc.Sleeping? ensures s.procs[x].id != id {
      assert x != p ==> x in t.procs && t.procs[x] == s.procs[x];
    }
  }

  /** A row is stranded exactly by a crash, or by a timer that fails to requeue it, once it is out of retries. */
  lemma StrandsIff(s: Sys, e: Event, id: string)
    requires Inv(s) && !Stranded(s, id)
    ensures Stranded(Apply(s, e), id) <==> Overspent(s, id) && LetsGo(s, e, id)
  {
    if Overspent(s, id) && LetsGo(s, e, id) { LettingGoStrands(s, e, id); }
    if Stranded(Apply(s, e), id) { OnlyLettingGoStrands(s, e, id); }
  }

  lemma RestartStrands(s: Sys, stat: string -> Stat, listed: map<nat, string>, id: string)
    requires ListsFailed(s, listed) && Overspent(Restarted(s, stat, listed), id)
    ensures Overspent(s, id)
  {
  }

  lemma OnlyLettingGoStrands(s: Sys, e: Event, id: string)
    requires Inv(s) && Stranded(Apply(s, e), id)
    ensures Stranded(s, id) || (Overspent(s, id) && LetsGo(s, e, id))
  {
    if Enabled(s, e) {
      if e.Step? { StepStrands(s, e.p, e.choice, id); }
      else if e.Restart? { RestartStrands(s, e.stat, e.listed, id); }
      else { NewcomersDoNotStrand(s, e, id); }
    }
  }

  lemma NewcomersDoNotStrand(s: Sys, e: Event, id: string)
    requires Enabled(s, e) && !e.Step? && !e.Restart? && Stranded(Apply(s, e), id)
    ensures Stranded(s, id)
  {
    var t := Apply(s, e);
    forall x | x in s.procs && s.procs[x].pc.Sleeping? ensures s.procs[x].id != id {
      assert x in t.procs && t.procs[x] == s.procs[x];
    }
  }

  // ---- how an upload gets stranded ----

  function Pick(fault: bool, yes: bool, route: Route, text: string): Choice { Choice(fault, yes, route, text, 1) }

  lemma GiveUpFaults(s: Sys, p: nat, q: Proc)
    requires p in s.procs && s.procs[p] == q && q.pc.GiveUp?
    ensures Apply(s, Step(p, Pick(true, false, Fresh, ""))) == Goto(s, p, q, Backoff)
  {
    assert ExecutorStep(s, p, q, Pick(true, false, Fresh, "")) == GiveUpStep(s, p, q, Pick(true, false, Fresh, ""));
  }

  lemma BackoffStamps(s: Sys, p: nat, q: Proc)
    requires p in s.procs && s.procs[p] == q && q.pc.Backoff?
    ensures var t := Apply(s, Step(p, Pick(false, false, Fresh, "")));
            t.db == MarkFailed(s.db, q.id, 1) && t.live == s.live && t.home == s.home && t.retryMax == s.retryMax
  {
    assert ExecutorStep(s, p, q, Pick(false, false, Fresh, "")) == BackoffStep(s, p, q, Pick(false, false, Fresh, ""));
  }

  /** Two stamps decide: the give-up stamp fails and the backoff stamp does not. */
  lemma StampsSplit(s: Sys, p: nat, id: string)
    requires p in s.procs && s.procs[p].pc.GiveUp? && s.procs[p].id == id
    ensures var t := Apply(Apply(s, Step(p, Pick(true, false, Fresh, ""))), Step(p, Pick(false, false, Fresh, "")));
            t.db == MarkFailed(s.db, id, 1) && t.live == s.live && t.home == s.home && t.retryMax == s.retryMax
  {
    var q := s.procs[p];
    GiveUpFaults(s, p, q);
    BackoffStamps(Goto(s, p, q, Backoff), p, q.(pc := Backoff));
  }

  lemma ListsOne(s: Sys, id: string)
    requires id in s.db.tasks && s.db.tasks[id].status == Failed
    ensures ListsFailed(s, map[0 := id])
  {
  }

  lemma RestartedOne(s: Sys, id: string, stat: string -> Stat, listed: map<nat, string>)
    requires id in s.db.tasks && s.db.tasks[id].status == Failed && listed == map[0 := id] && ListsFailed(s, listed)
    ensures var a := Restarted(s, stat, listed);
            && a.procs == map[0 := Proc(Recover, id, s.db.tasks[id])]
            && id in a.db.tasks && a.db.tasks[id] == s.db.tasks[id]
            && a.db.outbox == s.db.outbox && a.live == s.live && a.home == s.home && a.retryMax == s.retryMax
  {
  }

  lemma RestartLists(s: Sys, id: string, stat: string -> Stat)
    requires id in s.db.tasks && s.db.tasks[id].status == Failed
    ensures var a := Apply(s, Restart(stat, map[0 := id]));
            && a.procs == map[0 := Proc(Recover, id, s.db.tasks[id])]
            && id in a.db.tasks && a.db.tasks[id] == s.db.tasks[id]
            && a.db.outbox == s.db.outbox && a.live == s.live && a.home == s.home && a.retryMax == s.retryMax
  {
    ListsOne(s, id);
    RestartedOne(s, id, stat, map[0 := id]);
  }

  /** So in any state where a task out of retries is being given up on, two stamps and a restart strand its upload,
      though recovery lists the row. */
  lemma GiveUpStrands(s: Sys, p: nat, id: string, stat: string -> Stat)
    requires Inv(s) && p in s.procs && s.procs[p].pc.GiveUp? && s.procs[p].id == id && Exhausted(s, s.procs[p])
    ensures var es := [Step(p, Pick(true, false, Fresh, ""))] + ([Step(p, Pick(false, false, Fresh, ""))] +
                      ([Restart(stat, map[0 := id])] + []));
            var t := Run(s, es);
            && id in s.db.tasks && Stranded(t, id) && t.db.tasks[id].uploadId == s.db.tasks[id].uploadId
            && t.live == s.live && t.db.outbox == s.db.outbox && t.home == s.home
  {
    var fault, fine := Pick(true, false, Fresh, ""), Pick(false, false, Fresh, "");
    var a := Apply(s, Step(p, fault));
    var b := Apply(a, Step(p, fine));
    StampsSplit(s, p, id);
    assert ProcOk(s, s.procs[p]);
    RestartLists(b, id, stat);
    RunCons(b, Restart(stat, map[0 := id]), []);
    RunCons(a, Step(p, fine), [Restart(stat, map[0 := id])] + []);
    RunCons(s, Step(p, fault), [Step(p, fine)] + ([Restart(stat, map[0 := id])] + []));
  }

  lemma RunCons(s: Sys, e: Event, rest: seq<Event>)
    ensures Run(s, [e] + rest) == Run(Apply(s, e), rest)
  {
    assert ([e] + rest)[1..] == rest;
  }

  // ---- a first run that does it ----

  const TASK := "task"

  /** One task, one process, one upload. */
  function With(row: Row, proc: Proc, live: map<string, Target>, issued: set<string>, home: map<string, string>,
                tally: Tally): Sys {
    Sys(Tables(map[TASK := row], map[], map[], map[]), live, issued, map[0 := proc], 1, home, {TASK},
        map[TASK := tally])
  }

  lemma ReplaceOnly<K, V>(k: K, v: V, v': V)
    ensures map[k := v][k := v'] == map[k := v']
  {
  }

  /** The task is submitted, claimed and handed to the uploader. */
  lemma ReachesPlan(row: Row)
    requires IsNewRow(row) && !row.tail
    ensures var busy := row.(status := Running);
            Apply(Apply(Apply(FirstStart(1), Submit(TASK, row)), Claim(0, TASK)),
                  Step(0, Pick(false, false, Fresh, "")))
              == With(busy, Proc(Plan, TASK, busy), map[], {}, map[], Tally(1, 0, 0))
  {
    var busy := row.(status := Running);
    var a := Apply(FirstStart(1), Submit(TASK, row));
    assert row.(status := Pending) == row;
    assert a.db == Tables(map[TASK := row], map[], map[], map[]) && a.used == {TASK};
    var b := Apply(a, Claim(0, TASK));
    ReplaceOnly(TASK, row, busy);
    assert b.db.tasks == map[TASK := busy] && b.procs == map[0 := Proc(CheckDedup, TASK, busy)];
    var d := Apply(b, Step(0, Pick(false, false, Fresh, "")));
    ReplaceOnly(0, Proc(CheckDedup, TASK, busy), Proc(Plan, TASK, busy));
    assert d.tallies == map[TASK := Tally(1, 0, 0)];
  }

  /** The uploader starts an upload and persists its ID. */
  lemma ReachesFirstPersist(row: Row, u: string)
    requires row.uploadId == "" && row.status == Running && u != ""
    ensures var s := With(row, Proc(Plan, TASK, row), map[], {}, map[], Tally(1, 0, 0));
            Apply(Apply(s, Step(0, Pick(false, false, Fresh, ""))), Step(0, Pick(false, true, Fresh, u)))
              == With(row, Proc(FirstPersist, TASK, row.(uploadId := u)), map[u := row.target], {u}, map[],
                      Tally(1, 0, 0))
  {
    var s := With(row, Proc(Plan, TASK, row), map[], {}, map[], Tally(1, 0, 0));
    var a := Apply(s, Step(0, Pick(false, false, Fresh, "")));
    ReplaceOnly(0, Proc(Plan, TASK, row), Proc(Initiate, TASK, row));
    assert a == With(row, Proc(Initiate, TASK, row), map[], {}, map[], Tally(1, 0, 0));
    ReplaceOnly(0, Proc(Initiate, TASK, row), Proc(FirstPersist, TASK, row.(uploadId := u)));
  }

  lemma ReachesPutParts(row: Row, u: string)
    requires row.uploadId == "" && row.status == Running && u != ""
    ensures var b := With(row, Proc(FirstPersist, TASK, row.(uploadId := u)), map[u := row.target], {u}, map[],
                          Tally(1, 0, 0));
            Apply(b, Step(0, Pick(false, false, Fresh, "")))
              == With(row.(uploadId := u, partsMtime := 1, partsSize := 1), Proc(PutParts, TASK, row.(uploadId := u)),
                      map[u := row.target], {u}, map[u := TASK], Tally(1, 0, 0))
  {
    var task := row.(uploadId := u);
    ReplaceOnly(0, Proc(FirstPersist, TASK, task), Proc(PutParts, TASK, task));
    ReplaceOnly(TASK, row, row.(uploadId := u, partsMtime := 1, partsSize := 1));
  }

  /** A part fails, and the failure is the task's last. */
  lemma ReachesGiveUp(row: Row, task: Row, live: map<string, Target>, issued: set<string>, home: map<string, string>)
    ensures var s := With(row, Proc(PutParts, TASK, task), live, issued, home, Tally(1, 0, 0));
            Apply(Apply(s, Step(0, Pick(false, false, Fails, ""))), Step(0, Pick(false, false, Fresh, "")))
              == With(row, Proc(GiveUp, TASK, task), live, issued, home, Tally(1, 0, 0))
  {
    var s := With(row, Proc(PutParts, TASK, task), live, issued, home, Tally(1, 0, 0));
    ReplaceOnly(0, Proc(PutParts, TASK, task), Proc(UploadFailed, TASK, task));
    assert Apply(s, Step(0, Pick(false, false, Fails, "")))
        == With(row, Proc(UploadFailed, TASK, task), live, issued, home, Tally(1, 0, 0));
    ReplaceOnly(0, Proc(UploadFailed, TASK, task), Proc(GiveUp, TASK, task));
  }

  /** From an empty start with one retry: submitted, claimed, uploading, failing for good. */
  function FirstFailure(row: Row, u: string): seq<Event> {
    [Submit(TASK, row), Claim(0, TASK), Step(0, Pick(false, false, Fresh, "")), Step(0, Pick(false, false, Fresh, "")),
     Step(0, Pick(false, true, Fresh, u)), Step(0, Pick(false, false, Fresh, "")),
     Step(0, Pick(false, false, Fails, "")),
     Step(0, Pick(false, false, Fresh, ""))]
  }

  lemma RunFirstFailure(row: Row, u: string)
    requires IsNewRow(row) && !row.tail && u != ""
    ensures var s := Run(FirstStart(1), FirstFailure(row, u));
            && 0 in s.procs && s.procs[0].pc.GiveUp? && s.procs[0].id == TASK && Exhausted(s, s.procs[0])
            && s.live == map[u := row.target] && s.home == map[u := TASK] && s.db.outbox == map[]
            && TASK in s.db.tasks && s.db.tasks[TASK].uploadId == u
  {
    var busy, es := row.(status := Running), FirstFailure(row, u);
    ReachesPlan(row);
    ReachesFirstPersist(busy, u);
    ReachesPutParts(busy, u);
    ReachesGiveUp(busy.(uploadId := u, partsMtime := 1, partsSize := 1), busy.(uploadId := u), map[u := row.target],
                  {u}, map[u := TASK]);
    RunThree(FirstStart(1), es);
    RunThree(With(busy, Proc(Plan, TASK, busy), map[], {}, map[], Tally(1, 0, 0)), es[3..]);
    assert es[3..][3..] == es[6..];
    assert es[6..] == [es[6]] + ([es[7]] + []);
    var m := With(busy.(uploadId := u, partsMtime := 1, partsSize := 1), Proc(PutParts, TASK, busy.(uploadId := u)),
                  map[u := row.target], {u}, map[u := TASK], Tally(1, 0, 0));
    RunCons(m, es[6], [es[7]] + []);
    RunCons(Apply(m, es[6]), es[7], []);
  }

  lemma RunThree(s: Sys, es: seq<Event>)
    requires |es| >= 3
    ensures Run(s, es) == Run(Apply(Apply(Apply(s, es[0]), es[1]), es[2]), es[3..])
  {
    assert es == [es[0]] + ([es[1]] + ([es[2]] + es[3..]));
    RunCons(s, es[0], [es[1]] + ([es[2]] + es[3..]));
    RunCons(Apply(s, es[0]), es[1], [es[2]] + es[3..]);
    RunCons(Apply(Apply(s, es[0]), es[1]), es[2], es[3..]);
  }

  /** The upload is live, persisted and in no outbox, and its row is stranded. */
  lemma UploadIsStranded(row: Row, u: string, stat: string -> Stat) returns (es: seq<Event>)
    requires IsNewRow(row) && !row.tail && u != ""
    ensures var s := Run(FirstStart(1), es);
            u in s.live && u in s.home && s.home[u] == TASK && !InOutbox(s, u) && Stranded(s, TASK)
            && s.db.tasks[TASK].uploadId == u
  {
    var before := FirstFailure(row, u);
    RunFirstFailure(row, u);
    var s := Run(FirstStart(1), before);
    FirstStartKeeps(1);
    RunKeeps(FirstStart(1), before);
    GiveUpStrands(s, 0, TASK, stat);
    var after := [Step(0, Pick(true, false, Fresh, ""))] + ([Step(0, Pick(false, false, Fresh, ""))] +
                 ([Restart(stat, map[0 := TASK])] + []));
    es := before + after;
    RunJoin(FirstStart(1), before, after);
  }

  lemma {:induction false} RunJoin(s: Sys, a: seq<Event>, b: seq<Event>)
    ensures Run(s, a + b) == Run(Run(s, a), b)
    decreases |a|
  {
    if a == [] {
      assert a + b == b;
    } else {
      assert (a + b)[1..] == a[1..] + b;
      RunJoin(Apply(s, a[0]), a[1..], b);
    }
  }
}
