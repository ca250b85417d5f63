/** The agent's durable queue: the four SQLite tables and, for every statement or
    transaction the queue package commits, the table contents it commits.

    A transaction that fails part way is rolled back, so its effect is either the
    function given here or nothing; `Queue.dfy` proves that of the imperative form. */
module QueueTables {

  datatype Status = Pending | Running | Reported | Completed | Failed

  /** Where an object lives: a multipart upload is only found under its own target. */
  datatype Target = Target(bucket: string, storagePath: string)

  /** A row of `upload_tasks`. An empty `uploadId` means that no multipart upload is recorded. */
  datatype Row = Row(
    ruleId: string, localPath: string, fileSize: int, fileMtime: int,
    target: Target, uploadId: string, partsMtime: int, partsSize: int,
    status: Status, retryCount: nat, nextRetryAt: int, createdAt: int,
    tail: bool, sha256: string)

  datatype AbortEntry = AbortEntry(taskId: string, target: Target, attempts: nat, nextAttemptAt: int)

  datatype Report = Report(success: bool, sha256: string)

  datatype Processed = Processed(fileSize: int, fileMtime: int, sha256: string)

  datatype Tables = Tables(
    tasks: map<string, Row>,
    outbox: map<string, AbortEntry>,
    reports: map<string, Report>,
    processed: map<(string, string), Processed>)

  /** The `next_retry_at` stamp of an abandoned task. */
  const NEVER: int := -1

  predicate Active(st: Status) { st != Completed }

  predicate Evictable(st: Status) { st == Pending || st == Failed }

  /** A row in one of these statuses still names its upload; `Stranding` says which of them can come back. */
  predicate Resumable(st: Status) { st == Pending || st == Running || st == Failed }

  predicate Blocks(row: Row, other: Row) {
    && row.ruleId == other.ruleId && row.localPath == other.localPath
    && row.fileMtime == other.fileMtime && row.fileSize == other.fileSize
    && (row.status == Pending || row.status == Running || row.status == Reported)
  }

  predicate HasActiveTwin(db: Tables, row: Row) {
    exists id :: id in db.tasks && Blocks(db.tasks[id], row)
  }

  /** `INSERT ... ON CONFLICT(upload_id) DO NOTHING`: the first record is kept. */
  function Recorded(outbox: map<string, AbortEntry>, id: string, row: Row): map<string, AbortEntry> {
    if row.uploadId == "" || row.uploadId in outbox then outbox
    else outbox[row.uploadId := AbortEntry(id, row.target, 0, 0)]
  }

  function SetRow(db: Tables, id: string, row: Row): Tables {
    db.(tasks := db.tasks[id := row])
  }

  function EnqueueIfNoActive(db: Tables, id: string, row: Row): Tables {
    if id in db.tasks || HasActiveTwin(db, row) then db
    else SetRow(db, id, row.(status := Pending))
  }

  function UpdateStatus(db: Tables, id: string, status: Status): Tables {
    if id !in db.tasks then db else SetRow(db, id, db.tasks[id].(status := status))
  }

  function MarkFailed(db: Tables, id: string, nextRetryAt: int): Tables {
    if id !in db.tasks then db else
    var row := db.tasks[id];
    SetRow(db, id, row.(status := Failed, retryCount := row.retryCount + 1, nextRetryAt := nextRetryAt))
  }

  /** `task` is the caller's in-memory copy; its upload ID is the one recorded for abort. */
  function MarkFailedAbandoned(db: Tables, id: string, task: Row): Tables {
    if id !in db.tasks then db else
    MarkFailed(db, id, NEVER).(outbox := Recorded(db.outbox, id, task))
  }

  function MarkCompletedAbandoningUpload(db: Tables, id: string, task: Row): Tables {
    if id !in db.tasks then db else
    UpdateStatus(db, id, Completed).(outbox := Recorded(db.outbox, id, task))
  }

  function SaveMultipartProgress(db: Tables, id: string, uploadId: string, mtime: int, size: int): Tables {
    if id !in db.tasks then db else
    SetRow(db, id, db.tasks[id].(uploadId := uploadId, partsMtime := mtime, partsSize := size))
  }

  function EnqueueAbort(db: Tables, id: string, task: Row): Tables {
    db.(outbox := Recorded(db.outbox, id, task))
  }

  function DeleteAbort(db: Tables, uploadId: string): Tables {
    db.(outbox := db.outbox - {uploadId})
  }

  function RecordAbortAttempt(db: Tables, uploadId: string, next: int): Tables {
    if uploadId !in db.outbox then db else
    var e := db.outbox[uploadId];
    db.(outbox := db.outbox[uploadId := e.(attempts := e.attempts + 1, nextAttemptAt := next)])
  }

  /** The rows that eviction may drop on behalf of `newId`. */
  predicate Sheddable(tasks: map<string, Row>, newId: string, id: string) {
    id in tasks && id != newId && Evictable(tasks[id].status)
  }

  /** The row `SELECT ... WHERE status IN (pending, failed) AND id != ? ORDER BY created_at LIMIT 1` may pick. */
  predicate OldestEvictable(db: Tables, id: string, exclude: string) {
    && id in db.tasks && id != exclude && Evictable(db.tasks[id].status)
    && forall other :: other in db.tasks && other != exclude && Evictable(db.tasks[other].status)
         ==> db.tasks[id].createdAt <= db.tasks[other].createdAt
  }

  predicate NoneEvictable(db: Tables, exclude: string) {
    forall id :: id in db.tasks ==> !Sheddable(db.tasks, exclude, id)
  }

  function ClaimedOne(db: Tables, id: string): Tables
    requires id in db.tasks
  {
    SetRow(db, id, db.tasks[id].(status := Running))
  }

  /** The tables once workers have claimed the rows `ids`. */
  function Claimed(db: Tables, ids: set<string>): Tables {
    db.(tasks := map id | id in db.tasks :: if id in ids then db.tasks[id].(status := Running) else db.tasks[id])
  }

  /** One committed eviction: the abort record and the delete together. */
  function Evict(db: Tables, id: string): Tables
    requires id in db.tasks
  {
    db.(tasks := db.tasks - {id}, outbox := Recorded(db.outbox, id, db.tasks[id]))
  }

  predicate OldestPending(db: Tables, id: string) {
    && id in db.tasks && db.tasks[id].status == Pending
    && forall other :: other in db.tasks && db.tasks[other].status == Pending
         ==> db.tasks[id].createdAt <= db.tasks[other].createdAt
  }

  predicate Reportable(db: Tables, id: string) {
    id in db.tasks && (db.tasks[id].status == Running || db.tasks[id].status == Failed)
  }

  function SaveReport(db: Tables, id: string, report: Report): Tables {
    if !Reportable(db, id) then db else
    UpdateStatus(db, id, Reported).(reports := db.reports[id := report])
  }

  function CompleteReported(db: Tables, id: string, report: Report): Tables {
    if id !in db.tasks || db.tasks[id].status != Reported then db else
    var row := db.tasks[id].(status := Completed, sha256 := report.sha256);
    Tables(db.tasks[id := row], db.outbox, db.reports - {id},
           if report.success
           then db.processed[(row.ruleId, row.localPath) := Processed(row.fileSize, row.fileMtime, row.sha256)]
           else db.processed)
  }

  predicate IsProcessed(db: Tables, row: Row) {
    var key := (row.ruleId, row.localPath);
    && key in db.processed
    && db.processed[key].fileMtime == row.fileMtime && db.processed[key].fileSize == row.fileSize
  }

  /** What a stat of each local path returns while the agent starts: size and mtime, if the file is there. */
  datatype Stat = Gone | Found(size: int, mtime: int)

  function ResetRow(row: Row, stat: string -> Stat): Row {
    if row.status != Running then row else
    match stat(row.localPath)
    case Gone => row.(status := Pending)
    case Found(size, mtime) => row.(status := Pending, fileSize := size, fileMtime := mtime)
  }

  function ResetRunningToPending(db: Tables, stat: string -> Stat): Tables {
    db.(tasks := map id | id in db.tasks :: ResetRow(db.tasks[id], stat))
  }
}
