/** Rule traffic to one agent: incremental pushes and cancels, each caused by a database write, and full snapshots,
    serialised by a lock per agent that is reclaimed when the agent goes. */
module Dispatch {

  datatype Kind = Push(write: nat) | Sync

  /** Waiting to take the agent's lock entry, heading for its mutex, holding it, having listed the rules as of a
      write number, past the send, past the unlock, or finished. */
  datatype Stage = Waiting | Acquired | Locked | Listed(version: nat) | Sent | Unlocked | Done

  /** `clean`: the agent has not been released since this caller took its lock entry. */
  datatype Proc = Proc(agent: string, kind: Kind, stage: Stage, entry: nat, clean: bool)

  datatype Holder = Nobody | By(proc: nat)

  /** `holding` records who is using the entry; the code keeps only the count. */
  datatype LockEntry = LockEntry(agent: string, users: int, dead: bool, holder: Holder, holding: set<nat>)

  datatype Msg = Traffic(write: nat) | Snapshot(version: nat, clean: bool)

  datatype Sys = Sys(entries: map<string, nat>, table: map<nat, LockEntry>, procs: map<nat, Proc>, next: nat, db: nat,
                     logs: map<string, seq<Msg>>)

  function Start(): Sys { Sys(map[], map[], map[], 0, 0, map[]) }

  datatype Event =
    | WriteRule(agent: string) | Connect(agent: string) | Retire(agent: string)
    | Acquire(p: nat) | Lock(p: nat) | List(p: nat) | Send(p: nat, ok: bool)
    | Unlock(p: nat) | Release(p: nat) | Quit(p: nat)

  predicate InUse(stage: Stage) { !stage.Waiting? && !stage.Done? }

  predicate HasLock(stage: Stage) { stage.Locked? || stage.Listed? || stage.Sent? }

  function LogOf(logs: map<string, seq<Msg>>, agent: string): seq<Msg> { if agent in logs then logs[agent] else [] }

  // ---- the lock table ----

  /** A retired entry is replaced, never reused. */
  function AcquireEntry(s: Sys, agent: string): nat {
    if agent in s.entries && s.entries[agent] in s.table && !s.table[s.entries[agent]].dead then s.entries[agent]
    else s.next
  }

  function Opened(s: Sys, agent: string): LockEntry {
    var e := AcquireEntry(s, agent);
    if e in s.table then s.table[e] else LockEntry(agent, 0, false, Nobody, {})
  }

  function Joined(le: LockEntry, p: nat): LockEntry { le.(users := le.users + 1, holding := le.holding + {p}) }

  function Left(le: LockEntry, p: nat): LockEntry { le.(users := le.users - 1, holding := le.holding - {p}) }

  function At(s: Sys, p: nat, stage: Stage): Sys
    requires p in s.procs
  {
    s.(procs := s.procs[p := s.procs[p].(stage := stage)])
  }

  function Entered(c: Proc, e: nat): Proc { c.(stage := Acquired, entry := e, clean := true) }

  function AcquireStep(s: Sys, p: nat): Sys
    requires p in s.procs
  {
    var a := s.procs[p].agent;
    var e := AcquireEntry(s, a);
    s.(entries := s.entries[a := e], table := s.table[e := Joined(Opened(s, a), p)],
       procs := s.procs[p := Entered(s.procs[p], e)],
       next := if e == s.next then s.next + 1 else s.next)
  }

  function Without<E>(entries: map<string, E>, agent: string, gone: bool): map<string, E> {
    if gone then entries - {agent} else entries
  }

  /** The last user of a retired entry removes it, unless it has been replaced. */
  function ReleaseStep(s: Sys, p: nat): Sys
    requires p in s.procs && s.procs[p].entry in s.table
  {
    var a, e := s.procs[p].agent, s.procs[p].entry;
    var le := Left(s.table[e], p);
    At(s, p, Done).(table := s.table[e := le],
                    entries := Without(s.entries, a, le.dead && le.users == 0 && a in s.entries && s.entries[a] == e))
  }

  function Tainted(procs: map<nat, Proc>, agent: string): map<nat, Proc> {
    map p | p in procs :: if procs[p].agent == agent then procs[p].(clean := false) else procs[p]
  }

  function RetireStep(s: Sys, agent: string): Sys {
    var t := s.(procs := Tainted(s.procs, agent));
    if agent !in s.entries || s.entries[agent] !in s.table then t
    else
      var e := s.entries[agent];
      t.(table := s.table[e := s.table[e].(dead := true)], entries := Without(s.entries, agent, s.table[e].users == 0))
  }

  function SetHolder(s: Sys, e: nat, holder: Holder): Sys
    requires e in s.table
  {
    s.(table := s.table[e := s.table[e].(holder := holder)])
  }

  // ---- steps ----

  predicate Enabled(s: Sys, ev: Event) {
    if ev.WriteRule? || ev.Connect? || ev.Retire? then true
    else
      ev.p in s.procs &&
      var c := s.procs[ev.p];
      match ev
      case Acquire(_) => c.stage.Waiting?
      case Lock(_) => c.stage.Acquired? && c.entry in s.table && s.table[c.entry].holder.Nobody?
      case List(_) => c.stage.Locked? && c.kind.Sync?
      // A push sends under the lock, a sync sends what it listed; a list that failed sends nothing.
      case Send(_, ok) => (c.stage.Locked? && (c.kind.Push? || !ok)) || c.stage.Listed?
      case Unlock(_) => c.stage.Sent? && c.entry in s.table
      case Release(_) => c.stage.Unlocked? && c.entry in s.table
      case Quit(_) => c.stage.Waiting?
  }

  function NewProc(s: Sys, agent: string, kind: Kind): Sys {
    s.(procs := s.procs[s.next := Proc(agent, kind, Waiting, 0, false)], next := s.next + 1)
  }

  function MsgOf(c: Proc): Msg {
    if c.stage.Listed? then Snapshot(c.stage.version, c.clean) else Traffic(if c.kind.Push? then c.kind.write else 0)
  }

  function SendStep(s: Sys, p: nat, ok: bool): Sys
    requires p in s.procs
  {
    var c := s.procs[p];
    var t := At(s, p, Sent);
    if ok then t.(logs := s.logs[c.agent := LogOf(s.logs, c.agent) + [MsgOf(c)]]) else t
  }

  function Apply(s: Sys, ev: Event): Sys {
    if !Enabled(s, ev) then s else
    match ev
    case WriteRule(agent) => NewProc(s, agent, Push(s.db + 1)).(db := s.db + 1)
    case Connect(agent) => NewProc(s, agent, Sync)
    case Retire(agent) => RetireStep(s, agent)
    case Acquire(p) => AcquireStep(s, p)
    case Lock(p) => SetHolder(At(s, p, Locked), s.procs[p].entry, By(p))
    case List(p) => At(s, p, Listed(s.db))
    case Send(p, ok) => SendStep(s, p, ok)
    case Unlock(p) => SetHolder(At(s, p, Unlocked), s.procs[p].entry, Nobody)
    case Release(p) => ReleaseStep(s, p)
    case Quit(p) => At(s, p, Done)
  }

  function Run(s: Sys, events: seq<Event>): Sys
    decreases |events|
  {
    if events == [] then s else Run(Apply(s, events[0]), events[1..])
  }

  // ---- invariant ----

  type Entries = map<string, nat>
  type Table = map<nat, LockEntry>
  type Procs = map<nat, Proc>

  /** The map holds the agent's own entry, and a retired one only while somebody uses it. */
  ghost predicate EntriesOk(entries: Entries, table: Table) {
    forall a :: a in entries ==>
      entries[a] in table && table[entries[a]].agent == a && (table[entries[a]].dead ==> table[entries[a]].users > 0)
  }

  /** The count is the number of callers between acquire and release. */
  ghost predicate CountOk(le: LockEntry, e: nat, procs: Procs) {
    && le.users == |le.holding|
    && (forall p :: p in le.holding ==> p in procs && InUse(procs[p].stage) && procs[p].entry == e)
  }

  ghost predicate CountsOk(table: Table, procs: Procs, next: nat) {
    forall e :: e in table ==> e < next && CountOk(table[e], e, procs)
  }

  ghost predicate ProcOk(c: Proc, p: nat, table: Table) {
    && (InUse(c.stage) ==> c.entry in table && table[c.entry].agent == c.agent && p in table[c.entry].holding)
    && (HasLock(c.stage) ==> c.entry in table && table[c.entry].holder == By(p))
    && (c.stage.Listed? ==> c.kind.Sync?)
  }

  ghost predicate ProcsOk(procs: Procs, table: Table, next: nat) {
    forall p :: p in procs ==> p < next && ProcOk(procs[p], p, table)
  }

  /** A caller whose agent was not released since it acquired still has the agent's one live entry. */
  ghost predicate CleanOk(entries: Entries, table: Table, procs: Procs) {
    forall p :: p in procs && InUse(procs[p].stage) && procs[p].clean ==>
      procs[p].agent in entries && entries[procs[p].agent] == procs[p].entry && procs[p].entry in table
      && !table[procs[p].entry].dead
  }

  ghost predicate WritesOk(procs: Procs, db: nat, logs: map<string, seq<Msg>>) {
    && (forall p :: p in procs && procs[p].kind.Push? ==> procs[p].kind.write <= db)
    && (forall p :: p in procs && procs[p].stage.Listed? ==> procs[p].stage.version <= db)
    && (forall a, i :: a in logs && 0 <= i < |logs[a]| && logs[a][i].Traffic? ==> logs[a][i].write <= db)
  }

  ghost predicate IsOpenSync(c: Proc) { c.kind.Sync? && c.clean && c.stage.Listed? }

  /** A push of a later write waits behind a snapshot that has been listed. */
  ghost predicate Behind(q: Proc, c: Proc) {
    q.stage.Listed? && c.kind.Push? && c.agent == q.agent && c.kind.write > q.stage.version ==>
      c.stage.Waiting? || c.stage.Done? || (c.stage.Acquired? && c.entry == q.entry)
  }

  ghost predicate BehindOk(procs: Procs) {
    forall q, p :: q in procs && p in procs && IsOpenSync(procs[q]) ==> Behind(procs[q], procs[p])
  }

  ghost predicate NoneLater(log: seq<Msg>, version: nat) {
    forall i :: 0 <= i < |log| && log[i].Traffic? ==> log[i].write <= version
  }

  ghost predicate UnsentOk(procs: Procs, logs: map<string, seq<Msg>>) {
    forall q :: q in procs && IsOpenSync(procs[q]) ==> NoneLater(LogOf(logs, procs[q].agent), procs[q].stage.version)
  }

  /** Before a clean snapshot there is no traffic of a later write. */
  ghost predicate Ordered(log: seq<Msg>) {
    forall i, j :: 0 <= i < j < |log| && log[i].Traffic? && log[j].Snapshot? && log[j].clean ==>
      log[i].write <= log[j].version
  }

  ghost predicate LogsOk(logs: map<string, seq<Msg>>) { forall a :: a in logs ==> Ordered(logs[a]) }

  ghost predicate TableOk(entries: Entries, table: Table, procs: Procs, next: nat) {
    EntriesOk(entries, table) && CountsOk(table, procs, next) && ProcsOk(procs, table, next)
    && CleanOk(entries, table, procs)
  }

  ghost predicate LocksOk(s: Sys) { TableOk(s.entries, s.table, s.procs, s.next) }

  ghost predicate TrafficOk(s: Sys) {
    WritesOk(s.procs, s.db, s.logs) && BehindOk(s.procs) && UnsentOk(s.procs, s.logs) && LogsOk(s.logs)
  }

  ghost predicate Inv(s: Sys) { LocksOk(s) && TrafficOk(s) }
}
