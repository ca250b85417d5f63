/** The upload path of a running agent as a machine of interleaved atomic steps.

    A process is one goroutine's hold on one task: a worker between two durable or remote
    calls, a sleeping retry timer, a row listed by start-up recovery, an abort in progress,
    or an acknowledgement being applied. Each step performs at most one database statement
    (or transaction) or one call to the object store, so a crash between any two calls is a
    crash between two steps. Claiming a pending row is a single step. */
module UploadLifecycle {
  import opened QueueTables

  datatype After = Exit | ThenReport | ThenReschedule

  datatype Next = ThenInitiate | ThenSingle

  /** The program point of a process. */
  datatype Pc =
      // executor.processTask
    | CheckDedup | CompleteDuplicate
      // uploader.UploadFile, discardStaleUpload, multipartUpload, singlePartUpload
    | Plan | DiscardRecord(next: Next) | DiscardAbort(next: Next) | DiscardDelete(next: Next)
    | ListParts | Initiate | FirstPersist | FreshAbort | PutParts | Finish | PutSingle | UploadFailed
      // executor.persistResult after a success
    | ReportSuccess
      // executor.handleFailure and its retry timer
    | Terminal | GiveUp | Backoff | Sleeping(abandonIfGone: bool)
      // executor.abandonTaskUpload and drainAbortOutbox
    | AbandonRecord(after: After) | AbandonAbort(after: After) | AbandonDelete(after: After)
      // executor.persistResult after an abandonment
    | ReportFailure
      // executor.recoverFailedTasks
    | Recover
      // executor.HandleAcknowledgement between its read and its transaction
    | AckRead(report: Report)

  /** `task` is the in-memory copy of the row; only its upload ID and retry count change. */
  datatype Proc = Proc(pc: Pc, id: string, task: Row)

  /** Per task: uploader calls, restarts that found it running, and failures of which the give-up or the
      backoff stamp could not be written. */
  datatype Tally = Tally(attempts: nat, restarts: nat, unmarked: nat)

  /** `issued` and `live` describe the object store. The last three fields are history: which task
      persisted an upload ID, which task IDs were ever inserted, and the tallies. */
  datatype Sys = Sys(
    db: Tables, live: map<string, Target>, issued: set<string>,
    procs: map<nat, Proc>, retryMax: nat,
    home: map<string, string>, used: set<string>, tallies: map<string, Tally>)

  datatype Route = Resume | Fresh | Single | Fails

  /** What the environment decides in one step: whether the queue call fails, whether the
      object store accepts, which way the uploader goes, a new upload ID or digest, and a time. */
  datatype Choice = Choice(fault: bool, yes: bool, route: Route, text: string, at: int)

  datatype Event =
    | Submit(id: string, row: Row)
    | EvictOldest(p: nat, victim: string, exclude: string)
    | Claim(p: nat, id: string)
    | DrainAbort(p: nat, uploadId: string)
    | Acknowledge(p: nat, id: string)
    | Step(p: nat, choice: Choice)
    | Restart(stat: string -> Stat, listed: map<nat, string>)

  function TallyOf(s: Sys, id: string): Tally { if id in s.tallies then s.tallies[id] else Tally(0, 0, 0) }

  function Attempted(s: Sys, id: string): map<string, Tally> {
    s.tallies[id := TallyOf(s, id).(attempts := TallyOf(s, id).attempts + 1)]
  }

  function Unmarked(s: Sys, id: string): map<string, Tally> {
    s.tallies[id := TallyOf(s, id).(unmarked := TallyOf(s, id).unmarked + 1)]
  }

  function Reset(s: Sys): map<string, Tally> {
    map id | id in s.tallies.Keys + s.db.tasks.Keys ::
      if id in s.db.tasks && s.db.tasks[id].status == Running
      then TallyOf(s, id).(restarts := TallyOf(s, id).restarts + 1) else TallyOf(s, id)
  }

  function Goto(s: Sys, p: nat, q: Proc, pc: Pc): Sys { s.(procs := s.procs[p := q.(pc := pc)]) }

  function Finished(s: Sys, p: nat): Sys { s.(procs := s.procs - {p}) }

  function AfterAbandon(s: Sys, p: nat, q: Proc, after: After): Sys {
    if after == ThenReport then Goto(s, p, q, ReportFailure) else Finished(s, p)
  }

  function AfterDiscard(s: Sys, p: nat, q: Proc, next: Next): Sys {
    s.(procs := s.procs[p := Proc(if next == ThenInitiate then Initiate else PutSingle, q.id, q.task.(uploadId := ""))])
  }

  /** The store's AbortMultipartUpload: an upload is found only under its own target, and
      looking for it elsewhere answers NoSuchUpload, which callers take for success. */
  function Aborted(live: map<string, Target>, task: Row): map<string, Target> {
    if task.uploadId in live && live[task.uploadId] == task.target then live - {task.uploadId} else live
  }

  // ---- one step of each goroutine ----

  function CheckDedupStep(s: Sys, p: nat, q: Proc, c: Choice): Sys {
    if !c.fault && IsProcessed(s.db, q.task) then Goto(s, p, q, CompleteDuplicate)
    else if q.task.tail then Goto(s, p, q, Terminal)
    else Goto(s, p, q, Plan).(tallies := Attempted(s, q.id))
  }

  function CompleteDuplicateStep(s: Sys, p: nat, q: Proc, c: Choice): Sys {
    if q.task.uploadId == "" then
      if c.fault then Finished(s, p) else Finished(s, p).(db := UpdateStatus(s.db, q.id, Completed))
    else if c.fault then Goto(s, p, q, GiveUp)
    else Goto(s, p, q, AbandonRecord(Exit)).(db := MarkCompletedAbandoningUpload(s.db, q.id, q.task))
  }

  /** The fail-closed gate of UploadFile: recorded parts are resumed, or discarded first. */
  function PlanStep(s: Sys, p: nat, q: Proc, c: Choice): Sys {
    if c.route == Fails then Goto(s, p, q, UploadFailed)
    else if q.task.uploadId == "" then Goto(s, p, q, if c.route == Single then PutSingle else Initiate)
    else if c.route == Resume then Goto(s, p, q, ListParts)
    else Goto(s, p, q, DiscardRecord(if c.route == Single then ThenSingle else ThenInitiate))
  }

  function DiscardRecordStep(s: Sys, p: nat, q: Proc, c: Choice): Sys
    requires q.pc.DiscardRecord?
  {
    if c.fault then Goto(s, p, q, UploadFailed)
    else Goto(s, p, q, DiscardAbort(q.pc.next)).(db := EnqueueAbort(s.db, q.id, q.task))
  }

  function DiscardAbortStep(s: Sys, p: nat, q: Proc, c: Choice): Sys
    requires q.pc.DiscardAbort?
  {
    if c.yes then Goto(s, p, q, DiscardDelete(q.pc.next)).(live := Aborted(s.live, q.task))
    else AfterDiscard(s, p, q, q.pc.next)
  }

  function DiscardDeleteStep(s: Sys, p: nat, q: Proc, c: Choice): Sys
    requires q.pc.DiscardDelete?
  {
    var s' := AfterDiscard(s, p, q, q.pc.next);
    if c.fault then s' else s'.(db := DeleteAbort(s.db, q.task.uploadId))
  }

  function ListStep(s: Sys, p: nat, q: Proc, c: Choice): Sys {
    if c.route == Fails then Goto(s, p, q, UploadFailed)
    else if q.task.uploadId !in s.live then Goto(s, p, q, Initiate)        // NoSuchUpload
    else if c.route == Fresh then Goto(s, p, q, DiscardRecord(ThenInitiate)) // stale remote parts
    else Goto(s, p, q, PutParts)
  }

  function InitiateStep(s: Sys, p: nat, q: Proc, c: Choice): Sys {
    if !c.yes || c.text == "" || c.text in s.issued then Goto(s, p, q, UploadFailed)
    else s.(procs := s.procs[p := Proc(FirstPersist, q.id, q.task.(uploadId := c.text))],
            live := s.live[c.text := q.task.target], issued := s.issued + {c.text})
  }

  function FirstPersistStep(s: Sys, p: nat, q: Proc, c: Choice): Sys {
    if c.fault || q.id !in s.db.tasks then Goto(s, p, q, FreshAbort)
    else Persisted(Goto(s, p, q, PutParts), q, c)
  }

  function FreshAbortStep(s: Sys, p: nat, q: Proc, c: Choice): Sys {
    s.(procs := s.procs[p := Proc(UploadFailed, q.id, q.task.(uploadId := ""))],
       live := if c.yes then Aborted(s.live, q.task) else s.live)
  }

  function PutPartsStep(s: Sys, p: nat, q: Proc, c: Choice): Sys {
    match c.route
    case Fails => Goto(s, p, q, UploadFailed)
    case Fresh => Goto(s, p, q, DiscardRecord(ThenInitiate))               // stale remote parts
    case Single => Goto(s, p, q, Finish)
    case Resume => if c.fault || q.id !in s.db.tasks then s else Persisted(Goto(s, p, q, PutParts), q, c)
  }

  /** A failed CompleteMultipartUpload may still have completed the upload. */
  function FinishStep(s: Sys, p: nat, q: Proc, c: Choice): Sys {
    if c.yes then Goto(s, p, q, ReportSuccess).(live := Aborted(s.live, q.task))
    else if c.route == Single then Goto(s, p, q, UploadFailed).(live := Aborted(s.live, q.task))
    else Goto(s, p, q, UploadFailed)
  }

  function PutSingleStep(s: Sys, p: nat, q: Proc, c: Choice): Sys {
    Goto(s, p, q, if c.yes then ReportSuccess else UploadFailed)
  }

  /** An access-denied wrapper may call the uploader again, or call the failure terminal. */
  function UploadFailedStep(s: Sys, p: nat, q: Proc, c: Choice): Sys {
    Goto(s, p, q, match c.route case Resume => Plan case Fails => Terminal case _ => GiveUp)
  }

  function Persisted(s: Sys, q: Proc, c: Choice): Sys {
    s.(db := SaveMultipartProgress(s.db, q.id, q.task.uploadId, c.at, c.at), home := s.home[q.task.uploadId := q.id])
  }

  function Abandoned(s: Sys, p: nat, q: Proc): Sys {
    s.(db := MarkFailedAbandoned(s.db, q.id, q.task),
       procs := s.procs[p := Proc(AbandonRecord(ThenReport), q.id, q.task.(retryCount := q.task.retryCount + 1))])
  }

  function TerminalStep(s: Sys, p: nat, q: Proc, c: Choice): Sys {
    if c.fault then Goto(s, p, q, GiveUp) else Abandoned(s, p, q)
  }

  /** The retry budget is used up: the failure is to be stamped as given up on. */
  predicate Exhausted(s: Sys, q: Proc) { q.task.retryCount + 1 >= s.retryMax }

  function GiveUpStep(s: Sys, p: nat, q: Proc, c: Choice): Sys {
    if !Exhausted(s, q) || c.fault then Goto(s, p, q, Backoff) else Abandoned(s, p, q)
  }

  /** A failure counts as unmarked, once, if this stamp fails or the give-up stamp did. */
  function BackoffStep(s: Sys, p: nat, q: Proc, c: Choice): Sys {
    var s' := if c.fault || Exhausted(s, q) then Goto(s, p, q, Sleeping(true)).(tallies := Unmarked(s, q.id))
              else Goto(s, p, q, Sleeping(true));
    if c.fault then s' else s'.(db := MarkFailed(s.db, q.id, if c.at > 0 then c.at else 1))
  }

  function WakeStep(s: Sys, p: nat, q: Proc, c: Choice): Sys
    requires q.pc.Sleeping?
  {
    if c.fault then Finished(s, p)
    else if q.id in s.db.tasks then Finished(s, p).(db := UpdateStatus(s.db, q.id, Pending))
    else if q.pc.abandonIfGone then Goto(s, p, q, AbandonRecord(Exit))
    else Finished(s, p)
  }

  function AbandonRecordStep(s: Sys, p: nat, q: Proc, c: Choice): Sys
    requires q.pc.AbandonRecord?
  {
    if q.task.uploadId == "" then AfterAbandon(s, p, q, q.pc.after)
    else if c.fault then Goto(s, p, q, AbandonAbort(q.pc.after))
    else Goto(s, p, q, AbandonAbort(q.pc.after)).(db := EnqueueAbort(s.db, q.id, q.task))
  }

  function AbandonAbortStep(s: Sys, p: nat, q: Proc, c: Choice): Sys
    requires q.pc.AbandonAbort?
  {
    if c.yes then Goto(s, p, q, AbandonDelete(q.pc.after)).(live := Aborted(s.live, q.task))
    else if q.pc.after == ThenReschedule && !c.fault then
      Finished(s, p).(db := RecordAbortAttempt(s.db, q.task.uploadId, c.at))
    else AfterAbandon(s, p, q, q.pc.after)
  }

  function AbandonDeleteStep(s: Sys, p: nat, q: Proc, c: Choice): Sys
    requires q.pc.AbandonDelete?
  {
    var s' := AfterAbandon(s, p, q, q.pc.after);
    if c.fault then s' else s'.(db := DeleteAbort(s.db, q.task.uploadId))
  }

  function ReportStep(s: Sys, p: nat, q: Proc, c: Choice): Sys {
    var report := if q.pc.ReportSuccess? then Report(true, c.text) else Report(false, "");
    if c.fault then Finished(s, p) else Finished(s, p).(db := SaveReport(s.db, q.id, report))
  }

  function AckStep(s: Sys, p: nat, q: Proc, c: Choice): Sys
    requires q.pc.AckRead?
  {
    if c.fault then Finished(s, p) else Finished(s, p).(db := CompleteReported(s.db, q.id, q.pc.report))
  }

  /** Recovery of one row that was `failed` when the process started. */
  function RecoverStep(s: Sys, p: nat, q: Proc, c: Choice): Sys {
    if q.task.retryCount >= s.retryMax || q.task.nextRetryAt == NEVER then Finished(s, p)
    else if q.task.nextRetryAt != 0 && !c.yes then Goto(s, p, q, Sleeping(false))
    else if c.fault then Finished(s, p)
    else if q.task.nextRetryAt == 0 then Finished(s, p).(db := EnqueueAbort(s.db, q.id, q.task))
    else Finished(s, p).(db := UpdateStatus(s.db, q.id, Pending))
  }

  /** The steps taken inside the uploader. */
  predicate Uploading(pc: Pc) {
    || pc.Plan? || pc.DiscardRecord? || pc.DiscardAbort? || pc.DiscardDelete? || pc.ListParts? || pc.Initiate?
    || pc.FirstPersist? || pc.FreshAbort? || pc.PutParts? || pc.Finish? || pc.PutSingle? || pc.UploadFailed?
  }

  function UploaderStep(s: Sys, p: nat, q: Proc, c: Choice): Sys
    requires Uploading(q.pc)
  {
    match q.pc
    case Plan => PlanStep(s, p, q, c)
    case DiscardRecord(_) => DiscardRecordStep(s, p, q, c)
    case DiscardAbort(_) => DiscardAbortStep(s, p, q, c)
    case DiscardDelete(_) => DiscardDeleteStep(s, p, q, c)
    case ListParts => ListStep(s, p, q, c)
    case Initiate => InitiateStep(s, p, q, c)
    case FirstPersist => FirstPersistStep(s, p, q, c)
    case FreshAbort => FreshAbortStep(s, p, q, c)
    case PutParts => PutPartsStep(s, p, q, c)
    case Finish => FinishStep(s, p, q, c)
    case PutSingle => PutSingleStep(s, p, q, c)
    case UploadFailed => UploadFailedStep(s, p, q, c)
  }

  function ExecutorStep(s: Sys, p: nat, q: Proc, c: Choice): Sys
    requires !Uploading(q.pc)
  {
    match q.pc
    case CheckDedup => CheckDedupStep(s, p, q, c)
    case CompleteDuplicate => CompleteDuplicateStep(s, p, q, c)
    case Terminal => TerminalStep(s, p, q, c)
    case GiveUp => GiveUpStep(s, p, q, c)
    case Backoff => BackoffStep(s, p, q, c)
    case Sleeping(_) => WakeStep(s, p, q, c)
    case AbandonRecord(_) => AbandonRecordStep(s, p, q, c)
    case AbandonAbort(_) => AbandonAbortStep(s, p, q, c)
    case AbandonDelete(_) => AbandonDeleteStep(s, p, q, c)
    case ReportSuccess => ReportStep(s, p, q, c)
    case ReportFailure => ReportStep(s, p, q, c)
    case AckRead(_) => AckStep(s, p, q, c)
    case Recover => RecoverStep(s, p, q, c)
  }

  function ProcStep(s: Sys, p: nat, c: Choice): Sys
    requires p in s.procs
  {
    var q := s.procs[p];
    if Uploading(q.pc) then UploaderStep(s, p, q, c) else ExecutorStep(s, p, q, c)
  }

  // ---- whole-agent events ----

  predicate IsNewRow(row: Row) {
    row.uploadId == "" && row.retryCount == 0 && row.nextRetryAt == 0 && row.status == Pending
  }

  function DrainTask(uploadId: string, e: AbortEntry): Row {
    Row("", "", 0, 0, e.target, uploadId, 0, 0, Failed, 0, 0, 0, false, "")
  }

  predicate ListsFailed(s: Sys, listed: map<nat, string>) {
    && (forall p :: p in listed ==> listed[p] in s.db.tasks && s.db.tasks[listed[p]].status == Failed)
    && (forall p, p' :: p in listed && p' in listed && p != p' ==> listed[p] != listed[p'])
  }

  predicate Enabled(s: Sys, e: Event) {
    match e
    case Submit(id, row) => id !in s.used && IsNewRow(row)
    case EvictOldest(p, victim, exclude) => p !in s.procs && OldestEvictable(s.db, victim, exclude)
    case Claim(p, id) => p !in s.procs && OldestPending(s.db, id)
    case DrainAbort(p, u) => p !in s.procs && u in s.db.outbox
    case Acknowledge(p, id) => p !in s.procs && id in s.db.reports
    case Step(p, _) => p in s.procs
    case Restart(_, listed) => ListsFailed(s, listed)
  }

  /** A crash drops every process; the next start resets running rows and lists failed ones. */
  function Restarted(s: Sys, stat: string -> Stat, listed: map<nat, string>): Sys
    requires ListsFailed(s, listed)
  {
    s.(db := ResetRunningToPending(s.db, stat),
       procs := map p | p in listed :: Proc(Recover, listed[p], s.db.tasks[listed[p]]),
       tallies := Reset(s))
  }

  function Apply(s: Sys, e: Event): Sys {
    if !Enabled(s, e) then s else
    match e
    case Submit(id, row) => s.(db := EnqueueIfNoActive(s.db, id, row), used := s.used + {id})
    case EvictOldest(p, victim, _) =>
      s.(db := Evict(s.db, victim), procs := s.procs[p := Proc(AbandonRecord(Exit), victim, s.db.tasks[victim])])
    case Claim(p, id) =>
      var row := s.db.tasks[id].(status := Running);
      s.(db := SetRow(s.db, id, row), procs := s.procs[p := Proc(CheckDedup, id, row)])
    case DrainAbort(p, u) =>
      var e := s.db.outbox[u];
      s.(procs := s.procs[p := Proc(AbandonAbort(ThenReschedule), e.taskId, DrainTask(u, e))])
    case Acknowledge(p, id) =>
      var none := DrainTask("", AbortEntry(id, Target("", ""), 0, 0));
      s.(procs := s.procs[p := Proc(AckRead(s.db.reports[id]), id, none)])
    case Step(p, c) => ProcStep(s, p, c)
    case Restart(stat, listed) => Restarted(s, stat, listed)
  }

  function Run(s: Sys, es: seq<Event>): Sys
    decreases |es|
  {
    if es == [] then s else Run(Apply(s, es[0]), es[1..])
  }
}
