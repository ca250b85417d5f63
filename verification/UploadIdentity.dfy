/** No run of the upload machine, crashes and failed calls included, loses a multipart upload. */
module UploadIdentity {
  import opened QueueTables
  import opened UploadLifecycle

  /** If the upload is still there, the outbox can find it. */
  ghost predicate Safe(s: Sys, u: string) {
    u in s.live ==> u in s.db.outbox && s.db.outbox[u].target == s.live[u]
  }

  ghost predicate Known(s: Sys, u: string) { u == "" || u in s.issued }

  ghost predicate Located(s: Sys, u: string, target: Target) { u in s.live ==> s.live[u] == target }

  /** The process is the only one entitled to move its task's row. */
  ghost predicate Owns(pc: Pc) {
    !pc.AckRead? && ((pc.AbandonRecord? || pc.AbandonAbort? || pc.AbandonDelete?) ==> pc.after == ThenReport)
  }

  ghost predicate Abandoning(pc: Pc) {
    pc.ReportFailure? || pc.AbandonRecord? || pc.AbandonAbort? || pc.AbandonDelete?
  }

  ghost predicate Working(pc: Pc) { Owns(pc) && !Abandoning(pc) && !pc.Sleeping? && !pc.Recover? }

  /** Uploader calls not paid for by a restart or by a failure that could not be stamped. */
  ghost function Spent(s: Sys, id: string): int {
    TallyOf(s, id).attempts - TallyOf(s, id).restarts - TallyOf(s, id).unmarked
  }

  ghost function MaxAttempts(s: Sys): nat { if s.retryMax < 1 then 1 else s.retryMax }

  /** The uploader calls that `retries` stamped failures account for, one call being left. */
  ghost function Quota(s: Sys, retries: nat): int {
    if retries < MaxAttempts(s) then retries else MaxAttempts(s) - 1
  }

  ghost function RowQuota(s: Sys, row: Row): int {
    match row.status
    case Pending => Quota(s, row.retryCount)
    case Running => Quota(s, row.retryCount) + 1
    case Failed => if row.nextRetryAt == NEVER then MaxAttempts(s) else Quota(s, row.retryCount)
    case _ => MaxAttempts(s)
  }

  /** What an owner knows about its row. */
  ghost predicate RowFits(s: Sys, q: Proc, row: Row) {
    if Abandoning(q.pc) then row.status == Failed && row.nextRetryAt == NEVER && Safe(s, row.uploadId)
    else if q.pc.Sleeping? then
      || (row.status == Running && Spent(s, q.id) <= Quota(s, row.retryCount))
      || (row.status == Failed && row.nextRetryAt != NEVER)
    else if q.pc.Recover? then row.status == Failed && row == q.task
    else
      && row.status == Running && row.target == q.task.target && row.retryCount == q.task.retryCount
      && (row.uploadId == q.task.uploadId || Safe(s, row.uploadId))
      && (q.pc.FirstPersist? || q.pc.FreshAbort? ==> Safe(s, row.uploadId))
      && (q.pc.CheckDedup? || q.pc.CompleteDuplicate? ==> Spent(s, q.id) <= Quota(s, row.retryCount))
  }

  /** What a process knows about the upload ID it carries. */
  ghost predicate UploadFits(s: Sys, q: Proc) {
    var u := q.task.uploadId;
    && Known(s, u) && Located(s, u, q.task.target)
    && (q.pc.DiscardAbort? ==> Safe(s, u))
    && (q.pc.DiscardDelete? || q.pc.AbandonDelete? || q.pc.Initiate? || q.pc.ReportSuccess? ==> u !in s.live)
    && (q.pc.PutSingle? ==> u == "")
    && (q.pc.FirstPersist? || q.pc.PutParts? ==> u != "")
  }

  ghost predicate ProcOk(s: Sys, q: Proc) {
    && UploadFits(s, q)
    && (Owns(q.pc) || q.pc.AckRead? ==> q.id in s.used)
    && (Working(q.pc) ==> q.id in s.db.tasks)
    && (Owns(q.pc) && q.id in s.db.tasks ==> RowFits(s, q, s.db.tasks[q.id]))
    && (q.pc.AckRead? && q.id in s.db.tasks ==>
          s.db.tasks[q.id].status == Completed ||
          (s.db.tasks[q.id].status == Reported && q.id in s.db.reports && s.db.reports[q.id] == q.pc.report))
  }

  ghost predicate RowOk(s: Sys, id: string, row: Row) {
    && id in s.used
    && Known(s, row.uploadId) && Located(s, row.uploadId, row.target)
    && (row.nextRetryAt == NEVER ==> row.status != Pending && row.status != Running && Safe(s, row.uploadId))
    && (row.status == Reported <==> id in s.db.reports)
    && Spent(s, id) <= RowQuota(s, row)
  }

  /** The upload is on a row that is not finished, or in the abort outbox. */
  ghost predicate Kept(s: Sys, u: string, id: string) {
    || (id in s.db.tasks && s.db.tasks[id].uploadId == u && Resumable(s.db.tasks[id].status))
    || Safe(s, u)
  }

  ghost predicate ProcsOk(s: Sys) { forall p :: p in s.procs ==> ProcOk(s, s.procs[p]) }

  ghost predicate Exclusive(s: Sys) {
    forall p, p' :: p in s.procs && p' in s.procs && p != p' && Owns(s.procs[p].pc) && Owns(s.procs[p'].pc)
      ==> s.procs[p].id != s.procs[p'].id
  }

  ghost predicate RowsOk(s: Sys) { forall id :: id in s.db.tasks ==> RowOk(s, id, s.db.tasks[id]) }

  ghost predicate OutboxOk(s: Sys) {
    forall u :: u in s.db.outbox ==> Known(s, u) && Located(s, u, s.db.outbox[u].target)
  }

  ghost predicate HomesOk(s: Sys) { forall u :: u in s.home ==> Kept(s, u, s.home[u]) }

  ghost predicate BudgetOk(s: Sys) { forall id :: Spent(s, id) <= MaxAttempts(s) }

  ghost predicate Inv(s: Sys) {
    && "" !in s.issued && s.live.Keys <= s.issued && s.home.Keys <= s.issued
    && s.db.reports.Keys <= s.db.tasks.Keys && s.tallies.Keys <= s.used
    && ProcsOk(s) && Exclusive(s) && RowsOk(s) && OutboxOk(s) && HomesOk(s) && BudgetOk(s)
  }

  // ---- what every step has in common ----

  /** Uploads only disappear, new ones have new IDs, and a record is dropped only for an upload that is gone. */
  ghost predicate Calm(s: Sys, s': Sys) {
    && s'.retryMax == s.retryMax && s'.tallies.Keys <= s'.used
    && s.issued <= s'.issued && s.used <= s'.used && "" !in s'.issued
    && s'.live.Keys <= s'.issued && s'.home.Keys <= s'.issued && OutboxOk(s')
    && (forall u :: Known(s, u) && u in s'.live ==> u in s.live && s'.live[u] == s.live[u])
    && (forall u :: Known(s, u) && Safe(s, u) ==> Safe(s', u))
  }

  ghost predicate OnlyTask(s: Sys, s': Sys, id: string) {
    && s'.db.reports.Keys <= s'.db.tasks.Keys
    && (forall x :: x != id ==> (x in s.db.tasks <==> x in s'.db.tasks))
    && (forall x :: x != id && x in s.db.tasks ==> s.db.tasks[x] == s'.db.tasks[x])
    && (forall x :: x != id ==> (x in s.db.reports <==> x in s'.db.reports))
    && (forall x :: x != id && x in s.db.reports ==> s.db.reports[x] == s'.db.reports[x])
    && (forall x :: x != id ==> TallyOf(s', x) == TallyOf(s, x))
  }

  ghost predicate OnlyProc(s: Sys, s': Sys, p: int) {
    && (forall x :: x != p ==> (x in s.procs <==> x in s'.procs))
    && (forall x :: x != p && x in s.procs ==> s.procs[x] == s'.procs[x])
  }

  /** Every other process that names `id` still fits. */
  ghost predicate OthersFit(s: Sys, s': Sys, p: int, id: string) {
    forall x :: x in s.procs && x != p && s.procs[x].id == id ==> ProcOk(s', s.procs[x])
  }

  lemma UploadFitsStable(s: Sys, s': Sys, q: Proc)
    requires Calm(s, s') && UploadFits(s, q)
    ensures UploadFits(s', q)
  {
  }

  lemma ElsewhereFits(s: Sys, s': Sys, q: Proc, id: string)
    requires Inv(s) && Calm(s, s') && OnlyTask(s, s', id) && ProcOk(s, q) && q.id != id
    ensures ProcOk(s', q)
  {
    UploadFitsStable(s, s', q);
    if q.id in s.db.tasks { assert RowOk(s, q.id, s.db.tasks[q.id]); }
  }

  /** The owner of a row is alone with it, so it may move the row freely. */
  lemma OwnerIsAlone(s: Sys, s': Sys, p: nat)
    requires Inv(s) && Calm(s, s') && p in s.procs && Owns(s.procs[p].pc)
    requires s.procs[p].id !in s.db.tasks ==> s.procs[p].id !in s'.db.tasks
    ensures OthersFit(s, s', p, s.procs[p].id)
  {
    forall x | x in s.procs && x != p && s.procs[x].id == s.procs[p].id
      ensures ProcOk(s', s.procs[x])
    {
      assert ProcOk(s, s.procs[x]) && ProcOk(s, s.procs[p]);
      UploadFitsStable(s, s', s.procs[x]);
    }
  }

  lemma ProcsKept(s: Sys, s': Sys, p: int, id: string)
    requires Inv(s) && Calm(s, s') && OnlyTask(s, s', id) && OnlyProc(s, s', p) && OthersFit(s, s', p, id)
    requires p in s'.procs ==> ProcOk(s', s'.procs[p])
    ensures ProcsOk(s')
  {
    forall x | x in s'.procs ensures ProcOk(s', s'.procs[x]) {
      if x != p && s.procs[x].id != id { ElsewhereFits(s, s', s.procs[x], id); }
    }
  }

  lemma RowKept(s: Sys, s': Sys, x: string)
    requires Calm(s, s') && x in s.db.tasks && RowOk(s, x, s.db.tasks[x])
    requires x in s.db.reports <==> x in s'.db.reports
    requires TallyOf(s', x) == TallyOf(s, x)
    ensures RowOk(s', x, s.db.tasks[x])
  {
  }

  lemma RowsKept(s: Sys, s': Sys, id: string)
    requires Inv(s) && Calm(s, s') && OnlyTask(s, s', id)
    requires id in s'.db.tasks ==> RowOk(s', id, s'.db.tasks[id])
    ensures RowsOk(s')
  {
    forall x | x in s'.db.tasks ensures RowOk(s', x, s'.db.tasks[x]) {
      if x != id { RowKept(s, s', x); }
    }
  }

  /** An upload that leaves the row of `id` must be safe already. */
  ghost predicate LeavesSafely(s: Sys, s': Sys, id: string) {
    id in s.db.tasks ==>
      || (id in s'.db.tasks && s'.db.tasks[id].uploadId == s.db.tasks[id].uploadId
          && (Resumable(s.db.tasks[id].status) ==> Resumable(s'.db.tasks[id].status)))
      || Safe(s', s.db.tasks[id].uploadId)
  }

  lemma HomesKept(s: Sys, s': Sys, id: string)
    requires Inv(s) && Calm(s, s') && OnlyTask(s, s', id) && LeavesSafely(s, s', id)
    requires forall u :: u in s'.home ==> (u in s.home && s'.home[u] == s.home[u]) || Kept(s', u, s'.home[u])
    ensures HomesOk(s')
  {
    forall u | u in s'.home ensures Kept(s', u, s'.home[u]) {
      if u in s.home && s'.home[u] == s.home[u] { assert Kept(s, u, s.home[u]); }
    }
  }

  /** The common frame: a step touches one process, one task and, calmly, the uploads. */
  lemma Frame(s: Sys, s': Sys, p: int, id: string)
    requires Inv(s) && Calm(s, s') && OnlyTask(s, s', id) && OnlyProc(s, s', p) && OthersFit(s, s', p, id)
    requires p in s'.procs ==> ProcOk(s', s'.procs[p])
    requires p in s'.procs && Owns(s'.procs[p].pc) ==>
               forall x :: x in s.procs && x != p && Owns(s.procs[x].pc) ==> s.procs[x].id != s'.procs[p].id
    requires id in s'.db.tasks ==> RowOk(s', id, s'.db.tasks[id])
    requires LeavesSafely(s, s', id) && Spent(s', id) <= MaxAttempts(s)
    requires forall u :: u in s'.home ==> (u in s.home && s'.home[u] == s.home[u]) || Kept(s', u, s'.home[u])
    ensures Inv(s')
  {
    ProcsKept(s, s', p, id);
    RowsKept(s, s', id);
    HomesKept(s, s', id);
    BudgetKept(s, s', id);
  }

  lemma BudgetKept(s: Sys, s': Sys, id: string)
    requires Inv(s) && Calm(s, s') && OnlyTask(s, s', id) && Spent(s', id) <= MaxAttempts(s)
    ensures BudgetOk(s')
  {
    forall x ensures Spent(s', x) <= MaxAttempts(s') {
      assert Spent(s, x) <= MaxAttempts(s);
    }
  }

  /** A row's retry stamp changes only while the row is running. */
  ghost predicate StampHolds(s: Sys, s': Sys, id: string) {
    id in s.db.tasks && id in s'.db.tasks && s.db.tasks[id].status != Running ==>
      s'.db.tasks[id].nextRetryAt == s.db.tasks[id].nextRetryAt
  }

  /** Everything an owner has to show of its step. */
  ghost predicate OwnerMove(s: Sys, s': Sys, p: nat)
    requires p in s.procs
  {
    var id := s.procs[p].id;
    && Calm(s, s') && OnlyTask(s, s', id) && OnlyProc(s, s', p)
    && (id !in s.db.tasks ==> id !in s'.db.tasks)
    && (p in s'.procs ==> s'.procs[p].id == id && ProcOk(s', s'.procs[p]))
    && (id in s'.db.tasks ==> RowOk(s', id, s'.db.tasks[id]))
    && LeavesSafely(s, s', id) && Spent(s', id) <= MaxAttempts(s)
    && s'.db.processed == s.db.processed && StampHolds(s, s', id)
    && (forall u :: u in s'.home ==> (u in s.home && s'.home[u] == s.home[u]) || Kept(s', u, s'.home[u]))
  }

  lemma OwnerStep(s: Sys, s': Sys, p: nat)
    requires Inv(s) && p in s.procs && Owns(s.procs[p].pc) && OwnerMove(s, s', p)
    ensures Inv(s')
  {
    OwnerIsAlone(s, s', p);
    Frame(s, s', p, s.procs[p].id);
  }

  /** What a process has to show of a step that leaves every row alone. */
  ghost predicate RowlessMove(s: Sys, s': Sys, p: nat) {
    && Calm(s, s') && s'.db.tasks == s.db.tasks && s'.db.reports == s.db.reports && s'.home == s.home
    && s'.db.processed == s.db.processed && s'.tallies == s.tallies && OnlyProc(s, s', p)
    && (p in s'.procs ==> ProcOk(s', s'.procs[p]))
    && (p in s'.procs && Owns(s'.procs[p].pc) ==>
          p in s.procs && Owns(s.procs[p].pc) && s.procs[p].id == s'.procs[p].id)
  }

  lemma RowlessStep(s: Sys, s': Sys, p: nat)
    requires Inv(s) && RowlessMove(s, s', p)
    ensures Inv(s')
  {
    forall x | x in s.procs && x != p ensures ProcOk(s', s.procs[x]) {
      RowlessFits(s, s', s.procs[x]);
    }
    assert Spent(s, "") <= MaxAttempts(s);
    Frame(s, s', p, "");
  }

  lemma RowlessFits(s: Sys, s': Sys, q: Proc)
    requires Inv(s) && Calm(s, s') && s'.db.tasks == s.db.tasks && s'.db.reports == s.db.reports && ProcOk(s, q)
    requires s'.tallies == s.tallies
    ensures ProcOk(s', q)
  {
    UploadFitsStable(s, s', q);
    if q.id in s.db.tasks { assert RowOk(s, q.id, s.db.tasks[q.id]); }
  }

  ghost predicate Moves(s: Sys, s': Sys, p: nat) {
    p in s.procs && (RowlessMove(s, s', p) || (Owns(s.procs[p].pc) && OwnerMove(s, s', p)))
  }

  lemma MovesKeep(s: Sys, s': Sys, p: nat)
    requires Inv(s) && Moves(s, s', p)
    ensures Inv(s')
  {
    if RowlessMove(s, s', p) { RowlessStep(s, s', p); } else { OwnerStep(s, s', p); }
  }

  /** The part of the invariant that a single process's step looks at. */
  ghost predicate Ready(s: Sys, p: nat) {
    && "" !in s.issued && s.live.Keys <= s.issued && s.home.Keys <= s.issued
    && s.db.reports.Keys <= s.db.tasks.Keys && s.tallies.Keys <= s.used && OutboxOk(s)
    && p in s.procs && ProcOk(s, s.procs[p]) && Spent(s, s.procs[p].id) <= MaxAttempts(s)
    && (s.procs[p].id in s.db.tasks ==> RowOk(s, s.procs[p].id, s.db.tasks[s.procs[p].id]))
  }

  // ---- the ways uploads and abort records change ----

  ghost predicate SameUploads(s: Sys, s': Sys) {
    && s'.live == s.live && s'.issued == s.issued && s'.home == s.home && s'.used == s.used
    && s'.retryMax == s.retryMax && s'.tallies.Keys <= s'.used
  }

  lemma CalmSame(s: Sys, s': Sys, p: nat)
    requires Ready(s, p) && SameUploads(s, s') && s'.db.outbox == s.db.outbox
    ensures Calm(s, s')
  {
  }

  lemma CalmRecord(s: Sys, s': Sys, p: nat, id: string, task: Row)
    requires Ready(s, p) && SameUploads(s, s') && s'.db.outbox == Recorded(s.db.outbox, id, task)
    requires Known(s, task.uploadId) && Located(s, task.uploadId, task.target)
    ensures Calm(s, s') && Safe(s', task.uploadId)
  {
  }

  lemma CalmAbort(s: Sys, s': Sys, p: nat, task: Row)
    requires Ready(s, p) && SameUploads(s.(live := s'.live), s') && s'.db.outbox == s.db.outbox
    requires s'.live == Aborted(s.live, task) && Located(s, task.uploadId, task.target)
    ensures Calm(s, s') && task.uploadId !in s'.live
  {
  }

  lemma CalmDelete(s: Sys, s': Sys, p: nat, u: string)
    requires Ready(s, p) && SameUploads(s, s') && s'.db.outbox == s.db.outbox - {u} && u !in s.live
    ensures Calm(s, s')
  {
  }

  lemma CalmNew(s: Sys, s': Sys, p: nat, u: string, target: Target)
    requires Ready(s, p) && u != "" && u !in s.issued
    requires s'.live == s.live[u := target] && s'.issued == s.issued + {u} && s'.home == s.home && s'.used == s.used
    requires s'.db == s.db && s'.retryMax == s.retryMax && s'.tallies == s.tallies
    ensures Calm(s, s')
  {
  }

  /** A step that only moves the process. */
  lemma QuietMove(s: Sys, s': Sys, p: nat, q: Proc)
    requires Ready(s, p) && SameUploads(s, s') && s'.db == s.db && s'.procs == s.procs[p := q]
    requires s'.tallies == s.tallies && q.id == s.procs[p].id && ProcOk(s, q) && (Owns(q.pc) ==> Owns(s.procs[p].pc))
    ensures Moves(s, s', p)
  {
    CalmSame(s, s', p);
  }

  /** A step after which the process is gone and only its row has changed. */
  lemma LastMove(s: Sys, s': Sys, p: nat)
    requires Ready(s, p) && Owns(s.procs[p].pc) && SameUploads(s, s') && s'.db.outbox == s.db.outbox
             && s'.procs == s.procs - {p}
    requires s'.tallies == s.tallies && s'.db.processed == s.db.processed && StampHolds(s, s', s.procs[p].id)
    requires OnlyTask(s, s', s.procs[p].id) && LeavesSafely(s, s', s.procs[p].id)
    requires s.procs[p].id in s'.db.tasks ==>
               s.procs[p].id in s.db.tasks && RowOk(s', s.procs[p].id, s'.db.tasks[s.procs[p].id])
    ensures Moves(s, s', p)
  {
    CalmSame(s, s', p);
  }

  /** A step that rewrites the row, without making it reported, and moves on. */
  lemma RowMove(s: Sys, s': Sys, p: nat, q: Proc, row: Row)
    requires Ready(s, p) && Owns(s.procs[p].pc) && q.id == s.procs[p].id && q.id in s.db.tasks
    requires Calm(s, s') && s'.db.tasks == s.db.tasks[q.id := row] && s'.db.reports == s.db.reports
    requires s'.db.processed == s.db.processed && s'.procs == s.procs[p := q]
    requires s'.tallies == s.tallies || s'.tallies == s.tallies[q.id := TallyOf(s', q.id)]
    requires ProcOk(s', q) && RowOk(s', q.id, row) && StampHolds(s, s', q.id) && Spent(s', q.id) <= MaxAttempts(s)
    requires Safe(s', s.db.tasks[q.id].uploadId)
             || (row.uploadId == s.db.tasks[q.id].uploadId && Resumable(row.status))
    requires forall u :: u in s'.home ==> (u in s.home && s'.home[u] == s.home[u]) || Kept(s', u, s'.home[u])
    ensures Moves(s, s', p)
  {
  }

  lemma GotoMove(s: Sys, p: nat, q: Proc, pc: Pc)
    requires Ready(s, p) && q == s.procs[p] && ProcOk(s, q.(pc := pc)) && (Owns(pc) ==> Owns(q.pc))
    ensures Moves(s, Goto(s, p, q, pc), p)
  {
    QuietMove(s, Goto(s, p, q, pc), p, q.(pc := pc));
  }

  lemma PlanMoves(s: Sys, p: nat, q: Proc, c: Choice)
    requires Ready(s, p) && q == s.procs[p] && q.pc.Plan?
    ensures Moves(s, PlanStep(s, p, q, c), p)
  {
    if c.route == Fails { GotoMove(s, p, q, UploadFailed); }
    else if q.task.uploadId == "" && c.route == Single { GotoMove(s, p, q, PutSingle); }
    else if q.task.uploadId == "" { GotoMove(s, p, q, Initiate); }
    else if c.route == Resume { GotoMove(s, p, q, ListParts); }
    else if c.route == Single { GotoMove(s, p, q, DiscardRecord(ThenSingle)); }
    else { GotoMove(s, p, q, DiscardRecord(ThenInitiate)); }
  }

  lemma CheckDedupMoves(s: Sys, p: nat, q: Proc, c: Choice)
    requires Ready(s, p) && q == s.procs[p] && q.pc.CheckDedup?
    ensures Moves(s, CheckDedupStep(s, p, q, c), p)
  {
    if !c.fault && IsProcessed(s.db, q.task) { GotoMove(s, p, q, CompleteDuplicate); }
    else if q.task.tail { GotoMove(s, p, q, Terminal); }
    else { AttemptMoves(s, p, q); }
  }

  lemma AttemptMoves(s: Sys, p: nat, q: Proc)
    requires Ready(s, p) && q == s.procs[p] && q.pc.CheckDedup?
    ensures Moves(s, Goto(s, p, q, Plan).(tallies := Attempted(s, q.id)), p)
  {
    var s' := Goto(s, p, q, Plan).(tallies := Attempted(s, q.id));
    CalmSame(s, s', p);
    RowMove(s, s', p, q.(pc := Plan), s.db.tasks[q.id]);
  }

  lemma CompleteDuplicateMoves(s: Sys, p: nat, q: Proc, c: Choice)
    requires Ready(s, p) && q == s.procs[p] && q.pc.CompleteDuplicate?
    ensures Moves(s, CompleteDuplicateStep(s, p, q, c), p)
  {
    if q.task.uploadId != "" && c.fault { GotoMove(s, p, q, GiveUp); }
    else if c.fault { FinishedMoves(s, p); }
    else if q.task.uploadId == "" { LastMove(s, CompleteDuplicateStep(s, p, q, c), p); }
    else { CompletedAbandoningMoves(s, p, q); }
  }

  lemma CompletedAbandoningMoves(s: Sys, p: nat, q: Proc)
    requires Ready(s, p) && q == s.procs[p] && q.pc.CompleteDuplicate?
    ensures Moves(s, Goto(s, p, q, AbandonRecord(Exit)).(db := MarkCompletedAbandoningUpload(s.db, q.id, q.task)), p)
  {
    var s' := Goto(s, p, q, AbandonRecord(Exit)).(db := MarkCompletedAbandoningUpload(s.db, q.id, q.task));
    CalmRecord(s, s', p, q.id, q.task);
    RowMove(s, s', p, s'.procs[p], s'.db.tasks[q.id]);
  }

  lemma DiscardRecordMoves(s: Sys, p: nat, q: Proc, c: Choice)
    requires Ready(s, p) && q == s.procs[p] && q.pc.DiscardRecord?
    ensures Moves(s, DiscardRecordStep(s, p, q, c), p)
  {
    var s' := DiscardRecordStep(s, p, q, c);
    if c.fault { GotoMove(s, p, q, UploadFailed); }
    else { CalmRecord(s, s', p, q.id, q.task); }
  }

  lemma DiscardAbortMoves(s: Sys, p: nat, q: Proc, c: Choice)
    requires Ready(s, p) && q == s.procs[p] && q.pc.DiscardAbort?
    ensures Moves(s, DiscardAbortStep(s, p, q, c), p)
  {
    var s' := DiscardAbortStep(s, p, q, c);
    if c.yes { CalmAbort(s, s', p, q.task); }
    else { QuietMove(s, s', p, s'.procs[p]); }
  }

  lemma DiscardDeleteMoves(s: Sys, p: nat, q: Proc, c: Choice)
    requires Ready(s, p) && q == s.procs[p] && q.pc.DiscardDelete?
    ensures Moves(s, DiscardDeleteStep(s, p, q, c), p)
  {
    var s' := DiscardDeleteStep(s, p, q, c);
    if c.fault { QuietMove(s, s', p, s'.procs[p]); }
    else { CalmDelete(s, s', p, q.task.uploadId); }
  }

  lemma ListPartsMoves(s: Sys, p: nat, q: Proc, c: Choice)
    requires Ready(s, p) && q == s.procs[p] && q.pc.ListParts?
    ensures Moves(s, ListStep(s, p, q, c), p)
  {
    if c.route == Fails { GotoMove(s, p, q, UploadFailed); }
    else if q.task.uploadId !in s.live { GotoMove(s, p, q, Initiate); }
    else if c.route == Fresh { GotoMove(s, p, q, DiscardRecord(ThenInitiate)); }
    else { GotoMove(s, p, q, PutParts); }
  }

  lemma InitiateMoves(s: Sys, p: nat, q: Proc, c: Choice)
    requires Ready(s, p) && q == s.procs[p] && q.pc.Initiate?
    ensures Moves(s, InitiateStep(s, p, q, c), p)
  {
    if !c.yes || c.text == "" || c.text in s.issued {
      GotoMove(s, p, q, UploadFailed);
    } else {
      InitiatedMoves(s, InitiateStep(s, p, q, c), p, c.text);
    }
  }

  lemma InitiatedMoves(s: Sys, s': Sys, p: nat, u: string)
    requires Ready(s, p) && s.procs[p].pc.Initiate? && u != "" && u !in s.issued
    requires s' == s.(procs := s.procs[p := Proc(FirstPersist, s.procs[p].id, s.procs[p].task.(uploadId := u))],
                      live := s.live[u := s.procs[p].task.target], issued := s.issued + {u})
    ensures Moves(s, s', p)
  {
    CalmNew(s, s', p, u, s.procs[p].task.target);
  }

  /** Writing the upload ID on the row gives the upload its home. */
  lemma PersistedMoves(s: Sys, p: nat, q: Proc, c: Choice)
    requires Ready(s, p) && q == s.procs[p] && (q.pc.FirstPersist? || q.pc.PutParts?) && q.id in s.db.tasks
    ensures Moves(s, Persisted(Goto(s, p, q, PutParts), q, c), p)
  {
    var s' := Persisted(Goto(s, p, q, PutParts), q, c);
    var row, row' := s.db.tasks[q.id], s'.db.tasks[q.id];
    CalmHome(s, s', p, q);
    assert RowFits(s, q, row) && RowOk(s, q.id, row);
    RowMove(s, s', p, s'.procs[p], row');
  }

  lemma CalmHome(s: Sys, s': Sys, p: nat, q: Proc)
    requires Ready(s, p) && q == s.procs[p] && (q.pc.FirstPersist? || q.pc.PutParts?)
    requires s'.live == s.live && s'.issued == s.issued && s'.used == s.used && s'.db.outbox == s.db.outbox
    requires s'.retryMax == s.retryMax && s'.tallies == s.tallies && s'.home == s.home[q.task.uploadId := q.id]
    ensures Calm(s, s')
  {
  }

  lemma FirstPersistMoves(s: Sys, p: nat, q: Proc, c: Choice)
    requires Ready(s, p) && q == s.procs[p] && q.pc.FirstPersist?
    ensures Moves(s, FirstPersistStep(s, p, q, c), p)
  {
    if c.fault || q.id !in s.db.tasks { GotoMove(s, p, q, FreshAbort); }
    else { PersistedMoves(s, p, q, c); }
  }

  lemma FreshAbortMoves(s: Sys, p: nat, q: Proc, c: Choice)
    requires Ready(s, p) && q == s.procs[p] && q.pc.FreshAbort?
    ensures Moves(s, FreshAbortStep(s, p, q, c), p)
  {
    var s' := FreshAbortStep(s, p, q, c);
    if c.yes { CalmAbort(s, s', p, q.task); }
    else { QuietMove(s, s', p, s'.procs[p]); }
  }

  lemma PutPartsMoves(s: Sys, p: nat, q: Proc, c: Choice)
    requires Ready(s, p) && q == s.procs[p] && q.pc.PutParts?
    ensures Moves(s, PutPartsStep(s, p, q, c), p)
  {
    if c.route == Fails { GotoMove(s, p, q, UploadFailed); }
    else if c.route == Fresh { GotoMove(s, p, q, DiscardRecord(ThenInitiate)); }
    else if c.route == Single { GotoMove(s, p, q, Finish); }
    else if c.fault || q.id !in s.db.tasks { QuietMove(s, s, p, q); }
    else { PersistedMoves(s, p, q, c); }
  }

  lemma FinishMoves(s: Sys, p: nat, q: Proc, c: Choice)
    requires Ready(s, p) && q == s.procs[p] && q.pc.Finish?
    ensures Moves(s, FinishStep(s, p, q, c), p)
  {
    if c.yes { EndedMoves(s, p, q, ReportSuccess); }
    else if c.route == Single { EndedMoves(s, p, q, UploadFailed); }
    else { GotoMove(s, p, q, UploadFailed); }
  }

  /** The upload ended with its completion, whether or not the answer arrived. */
  lemma EndedMoves(s: Sys, p: nat, q: Proc, pc: Pc)
    requires Ready(s, p) && q == s.procs[p] && q.pc.Finish? && (pc == ReportSuccess || pc == UploadFailed)
    ensures Moves(s, Goto(s, p, q, pc).(live := Aborted(s.live, q.task)), p)
  {
    CalmAbort(s, Goto(s, p, q, pc).(live := Aborted(s.live, q.task)), p, q.task);
  }

  lemma PutSingleMoves(s: Sys, p: nat, q: Proc, c: Choice)
    requires Ready(s, p) && q == s.procs[p] && q.pc.PutSingle?
    ensures Moves(s, PutSingleStep(s, p, q, c), p)
  {
    GotoMove(s, p, q, if c.yes then ReportSuccess else UploadFailed);
  }

  lemma UploadFailedMoves(s: Sys, p: nat, q: Proc, c: Choice)
    requires Ready(s, p) && q == s.procs[p] && q.pc.UploadFailed?
    ensures Moves(s, UploadFailedStep(s, p, q, c), p)
  {
    GotoMove(s, p, q, match c.route case Resume => Plan case Fails => Terminal case _ => GiveUp);
  }

  lemma AbandonedMoves(s: Sys, p: nat, q: Proc)
    requires Ready(s, p) && q == s.procs[p] && (q.pc.Terminal? || q.pc.GiveUp?)
    ensures Moves(s, Abandoned(s, p, q), p)
  {
    var s' := Abandoned(s, p, q);
    CalmRecord(s, s', p, q.id, q.task);
    RowMove(s, s', p, s'.procs[p], s'.db.tasks[q.id]);
  }

  lemma TerminalMoves(s: Sys, p: nat, q: Proc, c: Choice)
    requires Ready(s, p) && q == s.procs[p] && q.pc.Terminal?
    ensures Moves(s, TerminalStep(s, p, q, c), p)
  {
    if c.fault { GotoMove(s, p, q, GiveUp); }
    else { AbandonedMoves(s, p, q); }
  }

  lemma GiveUpMoves(s: Sys, p: nat, q: Proc, c: Choice)
    requires Ready(s, p) && q == s.procs[p] && q.pc.GiveUp?
    ensures Moves(s, GiveUpStep(s, p, q, c), p)
  {
    if !Exhausted(s, q) || c.fault { GotoMove(s, p, q, Backoff); }
    else { AbandonedMoves(s, p, q); }
  }

  lemma BackoffMoves(s: Sys, p: nat, q: Proc, c: Choice)
    requires Ready(s, p) && q == s.procs[p] && q.pc.Backoff?
    ensures Moves(s, BackoffStep(s, p, q, c), p)
  {
    var at := if c.at > 0 then c.at else 1;
    if c.fault { UnmarkedMoves(s, p, q); }
    else if Exhausted(s, q) { OverdueMoves(s, p, q, at); }
    else { ScheduledMoves(s, p, q, at); }
  }

  /** A failed stamp pays for the uploader call that the retry will make. */
  lemma UnmarkedMoves(s: Sys, p: nat, q: Proc)
    requires Ready(s, p) && q == s.procs[p] && q.pc.Backoff?
    ensures Moves(s, Goto(s, p, q, Sleeping(true)).(tallies := Unmarked(s, q.id)), p)
  {
    var s' := Goto(s, p, q, Sleeping(true)).(tallies := Unmarked(s, q.id));
    CalmSame(s, s', p);
    RowMove(s, s', p, q.(pc := Sleeping(true)), s.db.tasks[q.id]);
  }

  /** So does a failed give-up stamp, even if the backoff stamp that follows it is written. */
  lemma OverdueMoves(s: Sys, p: nat, q: Proc, at: int)
    requires Ready(s, p) && q == s.procs[p] && q.pc.Backoff? && at > 0
    ensures Moves(s, Goto(s, p, q, Sleeping(true)).(tallies := Unmarked(s, q.id), db := MarkFailed(s.db, q.id, at)), p)
  {
    var s' := Goto(s, p, q, Sleeping(true)).(tallies := Unmarked(s, q.id), db := MarkFailed(s.db, q.id, at));
    CalmSame(s, s', p);
    RowMove(s, s', p, q.(pc := Sleeping(true)), s'.db.tasks[q.id]);
  }

  lemma ScheduledMoves(s: Sys, p: nat, q: Proc, at: int)
    requires Ready(s, p) && q == s.procs[p] && q.pc.Backoff? && at > 0 && !Exhausted(s, q)
    ensures Moves(s, Goto(s, p, q, Sleeping(true)).(db := MarkFailed(s.db, q.id, at)), p)
  {
    var s' := Goto(s, p, q, Sleeping(true)).(db := MarkFailed(s.db, q.id, at));
    CalmSame(s, s', p);
    RowMove(s, s', p, q.(pc := Sleeping(true)), s'.db.tasks[q.id]);
  }

  lemma SleepingMoves(s: Sys, p: nat, q: Proc, c: Choice)
    requires Ready(s, p) && q == s.procs[p] && q.pc.Sleeping?
    ensures Moves(s, WakeStep(s, p, q, c), p)
  {
    if c.fault { FinishedMoves(s, p); }
    else if q.id in s.db.tasks { RequeueMoves(s, p, q); }
    else if q.pc.abandonIfGone { GotoMove(s, p, q, AbandonRecord(Exit)); }
    else { FinishedMoves(s, p); }
  }

  lemma RecoverMoves(s: Sys, p: nat, q: Proc, c: Choice)
    requires Ready(s, p) && q == s.procs[p] && q.pc.Recover?
    ensures Moves(s, RecoverStep(s, p, q, c), p)
  {
    if q.task.retryCount >= s.retryMax || q.task.nextRetryAt == NEVER { FinishedMoves(s, p); }
    else if q.task.nextRetryAt != 0 && !c.yes { GotoMove(s, p, q, Sleeping(false)); }
    else if c.fault { FinishedMoves(s, p); }
    else if q.task.nextRetryAt == 0 { RecoverLegacy(s, p, q); }
    else { RequeueMoves(s, p, q); }
  }

  lemma FinishedMoves(s: Sys, p: nat)
    requires Ready(s, p)
    ensures Moves(s, Finished(s, p), p)
  {
    CalmSame(s, Finished(s, p), p);
  }

  lemma RecoverLegacy(s: Sys, p: nat, q: Proc)
    requires Ready(s, p) && q == s.procs[p]
    ensures Moves(s, Finished(s, p).(db := EnqueueAbort(s.db, q.id, q.task)), p)
  {
    CalmRecord(s, Finished(s, p).(db := EnqueueAbort(s.db, q.id, q.task)), p, q.id, q.task);
  }

  /** A row goes back to pending only if it was not abandoned. */
  lemma RequeueMoves(s: Sys, p: nat, q: Proc)
    requires Ready(s, p) && q == s.procs[p] && (q.pc.Sleeping? || (q.pc.Recover? && q.task.nextRetryAt != NEVER))
    ensures Moves(s, Finished(s, p).(db := UpdateStatus(s.db, q.id, Pending)), p)
  {
    LastMove(s, Finished(s, p).(db := UpdateStatus(s.db, q.id, Pending)), p);
  }

  lemma ReportMoves(s: Sys, p: nat, q: Proc, c: Choice)
    requires Ready(s, p) && q == s.procs[p] && (q.pc.ReportSuccess? || q.pc.ReportFailure?)
    ensures Moves(s, ReportStep(s, p, q, c), p)
  {
    if c.fault { FinishedMoves(s, p); }
    else { SavedMoves(s, p, q, if q.pc.ReportSuccess? then Report(true, c.text) else Report(false, "")); }
  }

  lemma SavedMoves(s: Sys, p: nat, q: Proc, report: Report)
    requires Ready(s, p) && q == s.procs[p] && (q.pc.ReportSuccess? || q.pc.ReportFailure?)
    ensures Moves(s, Finished(s, p).(db := SaveReport(s.db, q.id, report)), p)
  {
    LastMove(s, Finished(s, p).(db := SaveReport(s.db, q.id, report)), p);
  }

  ghost predicate AbandonPc(pc: Pc) { pc.AbandonRecord? || pc.AbandonAbort? || pc.AbandonDelete? }

  lemma AfterAbandonMoves(s: Sys, p: nat, q: Proc, after: After)
    requires Ready(s, p) && q == s.procs[p] && AbandonPc(q.pc) && after == q.pc.after
    ensures Moves(s, AfterAbandon(s, p, q, after), p)
  {
    CalmSame(s, AfterAbandon(s, p, q, after), p);
  }

  lemma AbandonRecordMoves(s: Sys, p: nat, q: Proc, c: Choice)
    requires Ready(s, p) && q == s.procs[p] && q.pc.AbandonRecord?
    ensures Moves(s, AbandonRecordStep(s, p, q, c), p)
  {
    var s' := AbandonRecordStep(s, p, q, c);
    if q.task.uploadId == "" { AfterAbandonMoves(s, p, q, q.pc.after); }
    else if c.fault { CalmSame(s, s', p); }
    else { CalmRecord(s, s', p, q.id, q.task); }
  }

  lemma AbandonAbortMoves(s: Sys, p: nat, q: Proc, c: Choice)
    requires Ready(s, p) && q == s.procs[p] && q.pc.AbandonAbort?
    ensures Moves(s, AbandonAbortStep(s, p, q, c), p)
  {
    var s' := AbandonAbortStep(s, p, q, c);
    if c.yes { CalmAbort(s, s', p, q.task); }
    else if q.pc.after == ThenReschedule && !c.fault { assert Calm(s, s'); }
    else { AfterAbandonMoves(s, p, q, q.pc.after); }
  }

  lemma AbandonDeleteMoves(s: Sys, p: nat, q: Proc, c: Choice)
    requires Ready(s, p) && q == s.procs[p] && q.pc.AbandonDelete?
    ensures Moves(s, AbandonDeleteStep(s, p, q, c), p)
  {
    if c.fault { AfterAbandonMoves(s, p, q, q.pc.after); }
    else if q.pc.after == ThenReport { DeletedMoves(s, p, q, s.procs[p := q.(pc := ReportFailure)]); }
    else { DeletedMoves(s, p, q, s.procs - {p}); }
  }

  lemma DeletedMoves(s: Sys, p: nat, q: Proc, procs: map<nat, Proc>)
    requires Ready(s, p) && q == s.procs[p] && q.pc.AbandonDelete?
    requires if q.pc.after == ThenReport then procs == s.procs[p := q.(pc := ReportFailure)] else procs == s.procs - {p}
    ensures Moves(s, s.(procs := procs, db := DeleteAbort(s.db, q.task.uploadId)), p)
  {
    CalmDelete(s, s.(procs := procs, db := DeleteAbort(s.db, q.task.uploadId)), p, q.task.uploadId);
  }

  /** Applying an acknowledgement: nobody owns a reported row. */
  lemma AckFits(s: Sys, s': Sys, p: nat, q: Proc)
    requires Inv(s) && Calm(s, s') && p in s.procs && q == s.procs[p] && q.pc.AckRead?
    requires s'.db == CompleteReported(s.db, q.id, q.pc.report)
    ensures OthersFit(s, s', p, q.id)
  {
    forall x | x in s.procs && x != p && s.procs[x].id == q.id ensures ProcOk(s', s.procs[x]) {
      assert ProcOk(s, s.procs[x]) && ProcOk(s, q);
      UploadFitsStable(s, s', s.procs[x]);
    }
  }

  lemma AckedRow(s: Sys, s': Sys, id: string, report: Report)
    requires id in s.db.tasks && s.db.tasks[id].status == Reported && s'.db == CompleteReported(s.db, id, report)
    requires s.db.reports.Keys <= s.db.tasks.Keys && Calm(s, s') && s'.tallies == s.tallies
    requires RowOk(s, id, s.db.tasks[id]) && Spent(s, id) <= MaxAttempts(s)
    ensures OnlyTask(s, s', id) && LeavesSafely(s, s', id) && RowOk(s', id, s'.db.tasks[id])
  {
  }

  lemma AckApplied(s: Sys, s': Sys, p: nat, q: Proc)
    requires Inv(s) && p in s.procs && q == s.procs[p] && q.pc.AckRead?
    requires q.id in s.db.tasks && s.db.tasks[q.id].status == Reported
    requires s' == Finished(s, p).(db := CompleteReported(s.db, q.id, q.pc.report))
    ensures Inv(s')
  {
    CalmAsIs(s, s');
    AckFits(s, s', p, q);
    assert RowOk(s, q.id, s.db.tasks[q.id]) && Spent(s, q.id) <= MaxAttempts(s);
    AckedRow(s, s', q.id, q.pc.report);
    Frame(s, s', p, q.id);
  }

  lemma AckKeeps(s: Sys, p: nat, q: Proc, c: Choice)
    requires Inv(s) && p in s.procs && q == s.procs[p] && q.pc.AckRead?
    ensures Inv(AckStep(s, p, q, c))
  {
    if c.fault || q.id !in s.db.tasks || s.db.tasks[q.id].status != Reported {
      assert Ready(s, p);
      FinishedMoves(s, p);
      MovesKeep(s, Finished(s, p), p);
    } else {
      AckApplied(s, AckStep(s, p, q, c), p, q);
    }
  }

  lemma UploaderMoves(s: Sys, p: nat, q: Proc, c: Choice)
    requires Ready(s, p) && q == s.procs[p] && Uploading(q.pc)
    ensures Moves(s, UploaderStep(s, p, q, c), p)
  {
    match q.pc {
      case Plan => PlanMoves(s, p, q, c);
      case DiscardRecord(_) => DiscardRecordMoves(s, p, q, c);
      case DiscardAbort(_) => DiscardAbortMoves(s, p, q, c);
      case DiscardDelete(_) => DiscardDeleteMoves(s, p, q, c);
      case ListParts => ListPartsMoves(s, p, q, c);
      case Initiate => InitiateMoves(s, p, q, c);
      case FirstPersist => FirstPersistMoves(s, p, q, c);
      case FreshAbort => FreshAbortMoves(s, p, q, c);
      case PutParts => PutPartsMoves(s, p, q, c);
      case Finish => FinishMoves(s, p, q, c);
      case PutSingle => PutSingleMoves(s, p, q, c);
      case UploadFailed => UploadFailedMoves(s, p, q, c);
    }
  }

  lemma ExecutorMoves(s: Sys, p: nat, q: Proc, c: Choice)
    requires Ready(s, p) && q == s.procs[p] && !Uploading(q.pc) && !q.pc.AckRead?
    ensures Moves(s, ExecutorStep(s, p, q, c), p)
  {
    match q.pc {
      case CheckDedup => CheckDedupMoves(s, p, q, c);
      case CompleteDuplicate => CompleteDuplicateMoves(s, p, q, c);
      case Terminal => TerminalMoves(s, p, q, c);
      case GiveUp => GiveUpMoves(s, p, q, c);
      case Backoff => BackoffMoves(s, p, q, c);
      case Sleeping(_) => SleepingMoves(s, p, q, c);
      case AbandonRecord(_) => AbandonRecordMoves(s, p, q, c);
      case AbandonAbort(_) => AbandonAbortMoves(s, p, q, c);
      case AbandonDelete(_) => AbandonDeleteMoves(s, p, q, c);
      case ReportSuccess => ReportMoves(s, p, q, c);
      case ReportFailure => ReportMoves(s, p, q, c);
      case Recover => RecoverMoves(s, p, q, c);
    }
  }

  lemma StepMoves(s: Sys, p: nat, c: Choice)
    requires Ready(s, p) && !s.procs[p].pc.AckRead?
    ensures Moves(s, ProcStep(s, p, c), p)
  {
    if Uploading(s.procs[p].pc) { UploaderMoves(s, p, s.procs[p], c); } else { ExecutorMoves(s, p, s.procs[p], c); }
  }

  lemma StepKeeps(s: Sys, p: nat, c: Choice)
    requires Inv(s) && p in s.procs
    ensures Inv(ProcStep(s, p, c))
  {
    if s.procs[p].pc.AckRead? {
      AckKeeps(s, p, s.procs[p], c);
    } else {
      StepMoves(s, p, c);
      MovesKeep(s, ProcStep(s, p, c), p);
    }
  }

  // ---- whole-agent events ----

  /** Nobody has heard of a task ID that was never used. */
  lemma UnusedIsFree(s: Sys, s': Sys, id: string)
    requires Inv(s) && Calm(s, s') && id !in s.used
    ensures id !in s.db.tasks && id !in s.db.reports && Spent(s, id) == 0
    ensures forall x :: x in s.procs && s.procs[x].id == id ==> ProcOk(s', s.procs[x])
  {
    assert id in s.db.tasks ==> RowOk(s, id, s.db.tasks[id]);
    forall x | x in s.procs && s.procs[x].id == id ensures ProcOk(s', s.procs[x]) {
      assert ProcOk(s, s.procs[x]);
      UploadFitsStable(s, s', s.procs[x]);
    }
  }

  lemma SubmitCalm(s: Sys, s': Sys, id: string)
    requires Inv(s) && s' == s.(db := s'.db, used := s.used + {id}) && s'.db.outbox == s.db.outbox
    ensures Calm(s, s')
  {
  }

  lemma SubmitKeeps(s: Sys, id: string, row: Row)
    requires Inv(s) && Enabled(s, Submit(id, row))
    ensures Inv(Apply(s, Submit(id, row)))
  {
    SubmittedKeeps(s, Apply(s, Submit(id, row)), id, row);
  }

  lemma SubmittedKeeps(s: Sys, s': Sys, id: string, row: Row)
    requires Inv(s) && id !in s.used && IsNewRow(row)
    requires s' == s.(db := EnqueueIfNoActive(s.db, id, row), used := s.used + {id})
    ensures Inv(s')
  {
    SubmitCalm(s, s', id);
    UnusedIsFree(s, s', id);
    Frame(s, s', -1, id);
  }

  lemma EvictKeeps(s: Sys, p: nat, victim: string, exclude: string)
    requires Inv(s) && Enabled(s, EvictOldest(p, victim, exclude))
    ensures Inv(Apply(s, EvictOldest(p, victim, exclude)))
  {
    EvictedKeeps(s, Apply(s, EvictOldest(p, victim, exclude)), p, victim);
  }

  lemma EvictedKeeps(s: Sys, s': Sys, p: nat, victim: string)
    requires Inv(s) && p !in s.procs && victim in s.db.tasks && Evictable(s.db.tasks[victim].status)
    requires s'.db == Evict(s.db, victim) && SameUploads(s, s') && s'.tallies == s.tallies
    requires s'.procs == s.procs[p := Proc(AbandonRecord(Exit), victim, s.db.tasks[victim])]
    ensures Inv(s')
  {
    EvictCalm(s, s', victim);
    EvictedFits(s, s', p, victim);
    GoneIsFree(s, s', victim);
    EvictedOnly(s, s', p, victim);
    Frame(s, s', p, victim);
  }

  lemma EvictedOnly(s: Sys, s': Sys, p: nat, victim: string)
    requires victim in s.db.tasks && victim !in s.db.reports && s'.db == Evict(s.db, victim) && s'.tallies == s.tallies
    requires s.db.reports.Keys <= s.db.tasks.Keys && p in s'.procs && s'.procs == s.procs[p := s'.procs[p]]
    ensures OnlyTask(s, s', victim) && OnlyProc(s, s', p)
  {
  }

  lemma EvictedFits(s: Sys, s': Sys, p: nat, victim: string)
    requires victim in s.db.tasks && RowOk(s, victim, s.db.tasks[victim]) && Calm(s, s') && SameUploads(s, s')
    requires p in s'.procs && s'.procs[p] == Proc(AbandonRecord(Exit), victim, s.db.tasks[victim])
    requires victim !in s'.db.tasks
    ensures ProcOk(s', s'.procs[p])
  {
  }

  /** Whoever names a row that is gone has nothing to show of it. */
  lemma GoneIsFree(s: Sys, s': Sys, id: string)
    requires Inv(s) && Calm(s, s') && id in s.db.tasks && Evictable(s.db.tasks[id].status) && id !in s'.db.tasks
    ensures forall x :: x in s.procs && s.procs[x].id == id ==> ProcOk(s', s.procs[x])
  {
    forall x | x in s.procs && s.procs[x].id == id ensures ProcOk(s', s.procs[x]) {
      assert ProcOk(s, s.procs[x]);
      UploadFitsStable(s, s', s.procs[x]);
    }
  }

  lemma EvictCalm(s: Sys, s': Sys, victim: string)
    requires Inv(s) && SameUploads(s, s') && victim in s.db.tasks
    requires s'.db.outbox == Recorded(s.db.outbox, victim, s.db.tasks[victim])
    ensures Calm(s, s') && Safe(s', s.db.tasks[victim].uploadId)
    ensures RowOk(s, victim, s.db.tasks[victim])
  {
  }

  /** Nobody owns a pending row. */
  lemma PendingIsFree(s: Sys, s': Sys, id: string)
    requires Inv(s) && Calm(s, s') && id in s.db.tasks && s.db.tasks[id].status == Pending
    ensures forall x :: x in s.procs && s.procs[x].id == id ==> !Owns(s.procs[x].pc) && ProcOk(s', s.procs[x])
  {
    forall x | x in s.procs && s.procs[x].id == id ensures !Owns(s.procs[x].pc) && ProcOk(s', s.procs[x]) {
      assert ProcOk(s, s.procs[x]);
      UploadFitsStable(s, s', s.procs[x]);
    }
  }

  lemma ClaimedFits(s: Sys, s': Sys, p: nat, id: string, row: Row)
    requires id in s.db.tasks && RowOk(s, id, s.db.tasks[id]) && s.db.tasks[id].status == Pending
    requires Calm(s, s') && s'.live == s.live && s'.issued == s.issued && s'.tallies == s.tallies
    requires row == s.db.tasks[id].(status := Running) && id in s'.db.tasks && s'.db.tasks[id] == row
    requires s'.db.reports == s.db.reports
    ensures ProcOk(s', Proc(CheckDedup, id, row)) && RowOk(s', id, row)
  {
  }

  lemma ClaimKeeps(s: Sys, p: nat, id: string)
    requires Inv(s) && Enabled(s, Claim(p, id))
    ensures Inv(Apply(s, Claim(p, id)))
  {
    ClaimedKeeps(s, Apply(s, Claim(p, id)), p, id, s.db.tasks[id].(status := Running));
  }

  lemma ClaimedKeeps(s: Sys, s': Sys, p: nat, id: string, row: Row)
    requires Inv(s) && p !in s.procs && id in s.db.tasks && s.db.tasks[id].status == Pending
    requires row == s.db.tasks[id].(status := Running)
    requires s'.db == SetRow(s.db, id, row) && SameUploads(s, s') && s'.tallies == s.tallies
    requires s'.procs == s.procs[p := Proc(CheckDedup, id, row)]
    ensures Inv(s')
  {
    CalmAsIs(s, s');
    assert RowOk(s, id, s.db.tasks[id]) && Spent(s, id) <= MaxAttempts(s);
    ClaimedFits(s, s', p, id, row);
    PendingIsFree(s, s', id);
    ClaimedOnly(s, s', p, id, row);
    Frame(s, s', p, id);
  }

  lemma ClaimedOnly(s: Sys, s': Sys, p: nat, id: string, row: Row)
    requires id in s.db.tasks && s'.db == SetRow(s.db, id, row) && s'.tallies == s.tallies
    requires s.db.reports.Keys <= s.db.tasks.Keys && p in s'.procs && s'.procs == s.procs[p := s'.procs[p]]
    ensures OnlyTask(s, s', id) && OnlyProc(s, s', p)
  {
  }

  lemma CalmAsIs(s: Sys, s': Sys)
    requires Inv(s) && SameUploads(s, s') && s'.db.outbox == s.db.outbox
    ensures Calm(s, s')
  {
  }

  /** A new process that owns nothing. */
  lemma NewcomerKeeps(s: Sys, p: nat, q: Proc)
    requires Inv(s) && p !in s.procs && ProcOk(s, q) && !Owns(q.pc)
    ensures Inv(s.(procs := s.procs[p := q]))
  {
    var s' := s.(procs := s.procs[p := q]);
    CalmAsIs(s, s');
    UploadFitsStable(s, s', q);
    RowlessStep(s, s', p);
  }

  lemma DrainKeeps(s: Sys, p: nat, u: string)
    requires Inv(s) && Enabled(s, DrainAbort(p, u))
    ensures Inv(Apply(s, DrainAbort(p, u)))
  {
    var e := s.db.outbox[u];
    NewcomerKeeps(s, p, Proc(AbandonAbort(ThenReschedule), e.taskId, DrainTask(u, e)));
  }

  lemma AcknowledgeKeeps(s: Sys, p: nat, id: string)
    requires Inv(s) && Enabled(s, Acknowledge(p, id))
    ensures Inv(Apply(s, Acknowledge(p, id)))
  {
    assert RowOk(s, id, s.db.tasks[id]);
    NewcomerKeeps(s, p, Proc(AckRead(s.db.reports[id]), id, DrainTask("", AbortEntry(id, Target("", ""), 0, 0))));
  }

  lemma RestartedRow(s: Sys, s': Sys, id: string, stat: string -> Stat)
    requires id in s.db.tasks && RowOk(s, id, s.db.tasks[id]) && s'.tallies == Reset(s)
    requires s'.used == s.used && s'.issued == s.issued && s'.live == s.live && s'.retryMax == s.retryMax
    requires s'.db.reports == s.db.reports && s'.db.outbox == s.db.outbox
    ensures RowOk(s', id, ResetRow(s.db.tasks[id], stat))
  {
  }

  lemma RestartedRows(s: Sys, stat: string -> Stat, listed: map<nat, string>)
    requires Inv(s) && ListsFailed(s, listed)
    ensures RowsOk(Restarted(s, stat, listed)) && HomesOk(Restarted(s, stat, listed))
  {
    var s' := Restarted(s, stat, listed);
    forall id | id in s'.db.tasks ensures RowOk(s', id, s'.db.tasks[id]) {
      RestartedRow(s, s', id, stat);
    }
    forall u | u in s'.home ensures Kept(s', u, s'.home[u]) {
      assert Kept(s, u, s.home[u]);
    }
  }

  lemma RestartedBudget(s: Sys, stat: string -> Stat, listed: map<nat, string>)
    requires Inv(s) && ListsFailed(s, listed)
    ensures BudgetOk(Restarted(s, stat, listed)) && Restarted(s, stat, listed).tallies.Keys <= s.used
  {
    var s' := Restarted(s, stat, listed);
    forall id ensures Spent(s', id) <= MaxAttempts(s') {
      assert Spent(s, id) <= MaxAttempts(s);
    }
    forall id | id in s'.tallies ensures id in s.used {
      if id in s.db.tasks { assert RowOk(s, id, s.db.tasks[id]); }
    }
  }

  lemma RestartedProcs(s: Sys, stat: string -> Stat, listed: map<nat, string>)
    requires Inv(s) && ListsFailed(s, listed)
    ensures ProcsOk(Restarted(s, stat, listed)) && Exclusive(Restarted(s, stat, listed))
  {
    var s' := Restarted(s, stat, listed);
    forall p | p in s'.procs ensures ProcOk(s', s'.procs[p]) {
      assert RowOk(s, listed[p], s.db.tasks[listed[p]]);
    }
  }

  lemma RestartKeeps(s: Sys, stat: string -> Stat, listed: map<nat, string>)
    requires Inv(s) && ListsFailed(s, listed)
    ensures Inv(Restarted(s, stat, listed))
  {
    RestartedRows(s, stat, listed);
    RestartedProcs(s, stat, listed);
    RestartedBudget(s, stat, listed);
  }

  lemma ApplyKeeps(s: Sys, e: Event)
    requires Inv(s)
    ensures Inv(Apply(s, e))
  {
    if Enabled(s, e) {
      match e {
        case Submit(id, row) => SubmitKeeps(s, id, row);
        case EvictOldest(p, victim, exclude) => EvictKeeps(s, p, victim, exclude);
        case Claim(p, id) => ClaimKeeps(s, p, id);
        case DrainAbort(p, u) => DrainKeeps(s, p, u);
        case Acknowledge(p, id) => AcknowledgeKeeps(s, p, id);
        case Step(p, c) => StepKeeps(s, p, c);
        case Restart(stat, listed) => RestartKeeps(s, stat, listed);
      }
    }
  }

  lemma {:induction false} RunKeeps(s: Sys, es: seq<Event>)
    requires Inv(s)
    ensures Inv(Run(s, es))
    decreases |es|
  {
    if es != [] {
      ApplyKeeps(s, es[0]);
      RunKeeps(Apply(s, es[0]), es[1..]);
    }
  }

  // ---- what the machine promises ----

  /** A first start: empty tables, no upload anywhere. */
  function FirstStart(retryMax: nat): Sys {
    Sys(Tables(map[], map[], map[], map[]), map[], {}, map[], retryMax, map[], {}, map[])
  }

  /** The local record that leads back to a live upload. */
  ghost predicate OnResumableRow(s: Sys, u: string)
    requires u in s.live
  {
    exists id :: id in s.db.tasks && s.db.tasks[id].uploadId == u && Resumable(s.db.tasks[id].status)
      && s.db.tasks[id].target == s.live[u]
  }

  ghost predicate InOutbox(s: Sys, u: string)
    requires u in s.live
  {
    u in s.db.outbox && s.db.outbox[u].target == s.live[u]
  }

  /** In every run, whatever crashes, fails or is refused, an upload whose ID was once persisted and
      that the store still holds is on a pending, running or failed row or in the abort outbox, each
      time with the bucket and key under which the store knows it. */
  lemma UploadNeverLost(retryMax: nat, es: seq<Event>, u: string)
    requires u in Run(FirstStart(retryMax), es).home && u in Run(FirstStart(retryMax), es).live
    ensures OnResumableRow(Run(FirstStart(retryMax), es), u) || InOutbox(Run(FirstStart(retryMax), es), u)
  {
    FirstStartKeeps(retryMax);
    RunKeeps(FirstStart(retryMax), es);
    var t := Run(FirstStart(retryMax), es);
    assert Kept(t, u, t.home[u]);
    if !Safe(t, u) { assert RowOk(t, t.home[u], t.db.tasks[t.home[u]]); }
  }

  lemma FirstStartKeeps(retryMax: nat)
    ensures Inv(FirstStart(retryMax))
  {
  }

  /** However often it crashes, the agent hands one task to the uploader at most `max(1, retryMax)`
      times, plus once per restart that found the task running and once per failure of which the queue
      refused to write the give-up or the backoff stamp. */
  lemma BoundedAttempts(retryMax: nat, es: seq<Event>, id: string)
    ensures var t := TallyOf(Run(FirstStart(retryMax), es), id);
            t.attempts <= (if retryMax < 1 then 1 else retryMax) + t.restarts + t.unmarked
  {
    var s := FirstStart(retryMax);
    FirstStartKeeps(retryMax);
    RunKeeps(s, es);
    RunKeepsLimit(s, es);
    assert Spent(Run(s, es), id) <= MaxAttempts(Run(s, es));
  }

  lemma ApplyKeepsLimit(s: Sys, e: Event)
    requires Inv(s)
    ensures Apply(s, e).retryMax == s.retryMax
  {
    if Enabled(s, e) && e.Step? && !s.procs[e.p].pc.AckRead? { StepMoves(s, e.p, e.choice); }
  }

  lemma {:induction false} RunKeepsLimit(s: Sys, es: seq<Event>)
    requires Inv(s)
    ensures Run(s, es).retryMax == s.retryMax
    decreases |es|
  {
    if es != [] {
      ApplyKeeps(s, es[0]);
      ApplyKeepsLimit(s, es[0]);
      RunKeepsLimit(Apply(s, es[0]), es[1..]);
    }
  }
}
