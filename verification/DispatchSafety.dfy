/** What every interleaving of rule traffic keeps: the use counts are exact, retired lock entries do not pile up, and
    no snapshot is queued after traffic it does not know about. */
module DispatchSafety {
  import opened Dispatch

  // ---- the lock table ----

  lemma NewProcLocks(s: Sys, agent: string, kind: Kind)
    requires LocksOk(s)
    ensures LocksOk(NewProc(s, agent, kind))
  {
    var t := NewProc(s, agent, kind);
    assert CountsOk(t.table, t.procs, t.next);
    assert ProcsOk(t.procs, t.table, t.next);
    assert CleanOk(t.entries, t.table, t.procs);
  }

  /** A caller moves on without touching the table. */
  lemma StageLocks(s: Sys, p: nat, stage: Stage)
    requires LocksOk(s) && p in s.procs && InUse(stage) == InUse(s.procs[p].stage)
    requires HasLock(stage) ==> HasLock(s.procs[p].stage)
    requires stage.Listed? ==> s.procs[p].kind.Sync?
    ensures LocksOk(At(s, p, stage))
  {
    var t := At(s, p, stage);
    assert CountsOk(t.table, t.procs, t.next);
    assert ProcsOk(t.procs, t.table, t.next);
    assert CleanOk(t.entries, t.table, t.procs);
  }

  function Held(table: Table, e: nat, holder: Holder): Table
    requires e in table
  {
    table[e := table[e].(holder := holder)]
  }

  lemma HolderProcs(table: Table, procs: Procs, next: nat, p: nat, stage: Stage, holder: Holder)
    requires ProcsOk(procs, table, next) && p in procs && InUse(procs[p].stage) && InUse(stage) && !stage.Listed?
    requires table[procs[p].entry].holder == Nobody || table[procs[p].entry].holder == By(p)
    requires if HasLock(stage) then holder == By(p) else holder == Nobody
    ensures ProcsOk(procs[p := procs[p].(stage := stage)], Held(table, procs[p].entry, holder), next)
  {
  }

  lemma HolderRest(entries: Entries, table: Table, procs: Procs, next: nat, p: nat, stage: Stage, holder: Holder)
    requires EntriesOk(entries, table) && CountsOk(table, procs, next) && CleanOk(entries, table, procs)
    requires p in procs && InUse(procs[p].stage) && InUse(stage) && procs[p].entry in table
    ensures var table', procs' := Held(table, procs[p].entry, holder), procs[p := procs[p].(stage := stage)];
            EntriesOk(entries, table') && CountsOk(table', procs', next) && CleanOk(entries, table', procs')
  {
  }

  lemma LockLocks(s: Sys, p: nat)
    requires LocksOk(s) && Enabled(s, Lock(p))
    ensures LocksOk(Apply(s, Lock(p)))
  {
    HolderProcs(s.table, s.procs, s.next, p, Locked, By(p));
    HolderRest(s.entries, s.table, s.procs, s.next, p, Locked, By(p));
  }

  lemma UnlockLocks(s: Sys, p: nat)
    requires LocksOk(s) && Enabled(s, Unlock(p))
    ensures LocksOk(Apply(s, Unlock(p)))
  {
    HolderProcs(s.table, s.procs, s.next, p, Unlocked, Nobody);
    HolderRest(s.entries, s.table, s.procs, s.next, p, Unlocked, Nobody);
  }

  /** Joining an entry that is alive. */
  lemma JoinTable(entries: Entries, table: Table, procs: Procs, next: nat, p: nat)
    requires TableOk(entries, table, procs, next) && p in procs && procs[p].stage.Waiting?
    requires procs[p].agent in entries && !table[entries[procs[p].agent]].dead
    ensures var e := entries[procs[p].agent];
            TableOk(entries, table[e := Joined(table[e], p)], procs[p := Entered(procs[p], e)], next)
  {
    var e := entries[procs[p].agent];
    var table', procs' := table[e := Joined(table[e], p)], procs[p := Entered(procs[p], e)];
    assert EntriesOk(entries, table') && CleanOk(entries, table', procs');
    JoinCounts(table, procs, next, p, e);
    assert ProcsOk(procs', table', next);
  }

  lemma JoinCounts(table: Table, procs: Procs, next: nat, p: nat, e: nat)
    requires CountsOk(table, procs, next) && p in procs && procs[p].stage.Waiting? && e in table
    ensures CountsOk(table[e := Joined(table[e], p)], procs[p := Entered(procs[p], e)], next)
  {
    assert p !in table[e].holding;
  }

  /** Opening an entry where there is none, or none alive. */
  lemma OpenTable(entries: Entries, table: Table, procs: Procs, next: nat, p: nat)
    requires TableOk(entries, table, procs, next) && p in procs && procs[p].stage.Waiting?
    requires procs[p].agent in entries ==> table[entries[procs[p].agent]].dead
    ensures TableOk(entries[procs[p].agent := next],
                    table[next := Joined(LockEntry(procs[p].agent, 0, false, Nobody, {}), p)],
                    procs[p := Entered(procs[p], next)], next + 1)
  {
    var entries' := entries[procs[p].agent := next];
    var table' := table[next := Joined(LockEntry(procs[p].agent, 0, false, Nobody, {}), p)];
    var procs' := procs[p := Entered(procs[p], next)];
    assert EntriesOk(entries', table') && CleanOk(entries', table', procs');
    assert CountsOk(table', procs', next + 1);
  }

  lemma LeaveTable(entries: Entries, table: Table, procs: Procs, next: nat, p: nat)
    requires TableOk(entries, table, procs, next) && p in procs && procs[p].stage.Unlocked?
    ensures var e, a := procs[p].entry, procs[p].agent;
            var le := Left(table[e], p);
            TableOk(Without(entries, a, le.dead && le.users == 0 && a in entries && entries[a] == e), table[e := le],
                    procs[p := procs[p].(stage := Done)], next)
  {
    assert ProcOk(procs[p], p, table);
    LeaveEntries(entries, table, procs, p);
    LeaveClean(entries, table, procs, p);
    LeaveCounts(table, procs, next, p);
    LeaveProcs(table, procs, next, p);
  }

  lemma LeaveEntries(entries: Entries, table: Table, procs: Procs, p: nat)
    requires EntriesOk(entries, table) && p in procs
    requires procs[p].entry in table && table[procs[p].entry].agent == procs[p].agent
    ensures var e, a := procs[p].entry, procs[p].agent;
            var le := Left(table[e], p);
            EntriesOk(Without(entries, a, le.dead && le.users == 0 && a in entries && entries[a] == e), table[e := le])
  {
  }

  lemma LeaveClean(entries: Entries, table: Table, procs: Procs, p: nat)
    requires CleanOk(entries, table, procs) && p in procs && procs[p].entry in table
    ensures var e, a := procs[p].entry, procs[p].agent;
            var le := Left(table[e], p);
            CleanOk(Without(entries, a, le.dead && le.users == 0 && a in entries && entries[a] == e), table[e := le],
                    procs[p := procs[p].(stage := Done)])
  {
  }

  lemma LeaveCounts(table: Table, procs: Procs, next: nat, p: nat)
    requires CountsOk(table, procs, next) && p in procs && procs[p].entry in table
    requires p in table[procs[p].entry].holding
    ensures CountsOk(table[procs[p].entry := Left(table[procs[p].entry], p)], procs[p := procs[p].(stage := Done)],
                     next)
  {
  }

  lemma LeaveProcs(table: Table, procs: Procs, next: nat, p: nat)
    requires ProcsOk(procs, table, next) && p in procs && procs[p].entry in table
    ensures ProcsOk(procs[p := procs[p].(stage := Done)], table[procs[p].entry := Left(table[procs[p].entry], p)], next)
  {
  }

  lemma TaintTable(entries: Entries, table: Table, procs: Procs, next: nat, agent: string)
    requires TableOk(entries, table, procs, next)
    ensures TableOk(entries, table, Tainted(procs, agent), next)
  {
    var procs' := Tainted(procs, agent);
    assert CleanOk(entries, table, procs') && CountsOk(table, procs', next);
  }

  lemma DeadTable(entries: Entries, table: Table, procs: Procs, next: nat, agent: string)
    requires TableOk(entries, table, procs, next) && agent in entries
    requires forall p :: p in procs && procs[p].agent == agent ==> !procs[p].clean
    ensures var e := entries[agent];
            TableOk(Without(entries, agent, table[e].users == 0), table[e := table[e].(dead := true)], procs, next)
  {
    DeadEntries(entries, table, procs, agent);
    DeadCounts(table, procs, next, entries[agent]);
  }

  lemma DeadEntries(entries: Entries, table: Table, procs: Procs, agent: string)
    requires EntriesOk(entries, table) && CleanOk(entries, table, procs) && agent in entries
    requires forall p :: p in procs && procs[p].agent == agent ==> !procs[p].clean
    requires table[entries[agent]].users >= 0
    ensures var e := entries[agent];
            var entries', table' := Without(entries, agent, table[e].users == 0), table[e := table[e].(dead := true)];
            EntriesOk(entries', table') && CleanOk(entries', table', procs)
  {
  }

  lemma DeadCounts(table: Table, procs: Procs, next: nat, e: nat)
    requires e in table && CountsOk(table, procs, next) && ProcsOk(procs, table, next)
    ensures CountsOk(table[e := table[e].(dead := true)], procs, next)
    ensures ProcsOk(procs, table[e := table[e].(dead := true)], next)
  {
  }

  lemma AcquireLocks(s: Sys, p: nat)
    requires LocksOk(s) && p in s.procs && s.procs[p].stage.Waiting?
    ensures LocksOk(AcquireStep(s, p))
  {
    var a := s.procs[p].agent;
    if a in s.entries && !s.table[s.entries[a]].dead {
      JoinTable(s.entries, s.table, s.procs, s.next, p);
      assert s.entries[a := s.entries[a]] == s.entries && s.entries[a] < s.next;
    } else {
      OpenTable(s.entries, s.table, s.procs, s.next, p);
      assert s.next !in s.table;
    }
  }

  lemma ReleaseLocks(s: Sys, p: nat)
    requires LocksOk(s) && Enabled(s, Release(p))
    ensures LocksOk(ReleaseStep(s, p))
  {
    LeaveTable(s.entries, s.table, s.procs, s.next, p);
  }

  lemma RetireLocks(s: Sys, agent: string)
    requires LocksOk(s)
    ensures LocksOk(RetireStep(s, agent))
  {
    TaintTable(s.entries, s.table, s.procs, s.next, agent);
    if agent in s.entries { DeadTable(s.entries, s.table, Tainted(s.procs, agent), s.next, agent); }
  }

  lemma CallerLocks(s: Sys, ev: Event)
    requires LocksOk(s) && Enabled(s, ev) && !(ev.WriteRule? || ev.Connect? || ev.Retire?)
    ensures LocksOk(Apply(s, ev))
  {
    match ev {
      case Acquire(p) => AcquireLocks(s, p);
      case Lock(p) => LockLocks(s, p);
      case List(p) => StageLocks(s, p, Listed(s.db));
      case Send(p, _) => StageLocks(s, p, Sent);
      case Unlock(p) => UnlockLocks(s, p);
      case Release(p) => ReleaseLocks(s, p);
      case Quit(p) => StageLocks(s, p, Done);
    }
  }

  lemma OpenerLocks(s: Sys, ev: Event)
    requires LocksOk(s) && (ev.WriteRule? || ev.Connect? || ev.Retire?)
    ensures LocksOk(Apply(s, ev))
  {
    match ev {
      case WriteRule(agent) => NewProcLocks(s, agent, Push(s.db + 1));
      case Connect(agent) => NewProcLocks(s, agent, Sync);
      case Retire(agent) => RetireLocks(s, agent);
    }
  }

  lemma ApplyLocks(s: Sys, ev: Event)
    requires LocksOk(s)
    ensures LocksOk(Apply(s, ev))
  {
    if ev.WriteRule? || ev.Connect? || ev.Retire? {
      OpenerLocks(s, ev);
    } else if Enabled(s, ev) {
      CallerLocks(s, ev);
    }
  }

  // ---- traffic ----

  /** A caller that is no open sync, new or moved: nothing is listed or sent. */
  lemma MoveTraffic(procs: Procs, db: nat, logs: map<string, seq<Msg>>, p: nat, c: Proc)
    requires WritesOk(procs, db, logs) && BehindOk(procs) && UnsentOk(procs, logs)
    requires !IsOpenSync(c) && !c.stage.Listed? && (c.kind.Push? ==> c.kind.write <= db)
    requires forall q :: q in procs && q != p && IsOpenSync(procs[q]) ==> Behind(procs[q], c)
    ensures WritesOk(procs[p := c], db, logs) && BehindOk(procs[p := c]) && UnsentOk(procs[p := c], logs)
  {
  }

  lemma WriteTraffic(s: Sys, agent: string)
    requires Inv(s)
    ensures TrafficOk(NewProc(s, agent, Push(s.db + 1)).(db := s.db + 1))
  {
    assert WritesOk(s.procs, s.db + 1, s.logs);
    MoveTraffic(s.procs, s.db + 1, s.logs, s.next, Proc(agent, Push(s.db + 1), Waiting, 0, false));
  }

  lemma RetireTraffic(s: Sys, agent: string)
    requires TrafficOk(s)
    ensures TrafficOk(RetireStep(s, agent))
  {
    var t := RetireStep(s, agent);
    assert WritesOk(t.procs, t.db, t.logs);
    assert BehindOk(t.procs);
    assert UnsentOk(t.procs, t.logs);
  }

  /** Whoever acquires while a snapshot is listed gets the entry whose lock the snapshot holds. */
  lemma AcquireTraffic(s: Sys, p: nat)
    requires Inv(s) && p in s.procs && s.procs[p].stage.Waiting?
    ensures TrafficOk(AcquireStep(s, p))
  {
    var c := s.procs[p].(stage := Acquired, entry := AcquireEntry(s, s.procs[p].agent), clean := true);
    forall q | q in s.procs && q != p && IsOpenSync(s.procs[q]) ensures Behind(s.procs[q], c) {
      assert s.procs[q].agent == c.agent ==> c.entry == s.procs[q].entry;
    }
    MoveTraffic(s.procs, s.db, s.logs, p, c);
  }

  /** And so it cannot lock before the snapshot is sent. */
  lemma LockTraffic(s: Sys, p: nat)
    requires Inv(s) && Enabled(s, Lock(p))
    ensures TrafficOk(SetHolder(At(s, p, Locked), s.procs[p].entry, By(p)))
  {
    var c := s.procs[p].(stage := Locked);
    forall q | q in s.procs && q != p && IsOpenSync(s.procs[q]) ensures Behind(s.procs[q], c) {
      assert Behind(s.procs[q], s.procs[p]) && s.table[s.procs[q].entry].holder == By(q);
    }
    MoveTraffic(s.procs, s.db, s.logs, p, c);
  }

  lemma ListTraffic(s: Sys, p: nat)
    requires Inv(s) && Enabled(s, List(p))
    ensures TrafficOk(At(s, p, Listed(s.db)))
  {
    var t := At(s, p, Listed(s.db));
    assert NoneLater(LogOf(s.logs, s.procs[p].agent), s.db);
    assert WritesOk(t.procs, t.db, t.logs);
    assert BehindOk(t.procs);
    assert UnsentOk(t.procs, t.logs);
  }

  /** Past the lock, a caller is behind no open snapshot. */
  lemma PastTraffic(s: Sys, p: nat, stage: Stage)
    requires Inv(s) && p in s.procs
             && (s.procs[p].stage.Sent? || s.procs[p].stage.Unlocked? || s.procs[p].stage.Waiting?)
    requires stage.Unlocked? || stage.Done?
    requires s.procs[p].stage.Waiting? ==> stage.Done?
    ensures TrafficOk(At(s, p, stage))
  {
    var c := s.procs[p].(stage := stage);
    forall q | q in s.procs && q != p && IsOpenSync(s.procs[q]) ensures Behind(s.procs[q], c) {
      assert Behind(s.procs[q], s.procs[p]);
    }
    MoveTraffic(s.procs, s.db, s.logs, p, c);
  }

  lemma QuietSend(s: Sys, p: nat)
    requires Inv(s) && Enabled(s, Send(p, false))
    ensures TrafficOk(At(s, p, Sent))
  {
    var c := s.procs[p].(stage := Sent);
    forall q | q in s.procs && q != p && IsOpenSync(s.procs[q]) ensures Behind(s.procs[q], c) {
      assert Behind(s.procs[q], s.procs[p]);
      assert s.table[s.procs[q].entry].holder == By(q);
    }
    MoveTraffic(s.procs, s.db, s.logs, p, c);
  }

  lemma LogTraffic(procs: Procs, db: nat, logs: map<string, seq<Msg>>, agent: string, m: Msg)
    requires WritesOk(procs, db, logs) && UnsentOk(procs, logs) && LogsOk(logs)
    requires m.Traffic? ==> m.write <= db
    requires m.Traffic? ==>
               forall q :: q in procs && IsOpenSync(procs[q]) && procs[q].agent == agent ==>
                 m.write <= procs[q].stage.version
    requires m.Snapshot? && m.clean ==> NoneLater(LogOf(logs, agent), m.version)
    ensures var logs' := logs[agent := LogOf(logs, agent) + [m]];
            WritesOk(procs, db, logs') && UnsentOk(procs, logs') && LogsOk(logs')
  {
    var logs' := logs[agent := LogOf(logs, agent) + [m]];
    assert Ordered(LogOf(logs, agent));
    assert Ordered(logs'[agent]);
    assert WritesOk(procs, db, logs');
    forall q | q in procs && IsOpenSync(procs[q])
      ensures NoneLater(LogOf(logs', procs[q].agent), procs[q].stage.version)
    {
      assert NoneLater(LogOf(logs, procs[q].agent), procs[q].stage.version);
    }
  }

  lemma SendTraffic(s: Sys, p: nat)
    requires Inv(s) && Enabled(s, Send(p, true))
    ensures TrafficOk(SendStep(s, p, true))
  {
    var c, m := s.procs[p], MsgOf(s.procs[p]);
    QuietSend(s, p);
    var t := At(s, p, Sent);
    forall q | m.Traffic? && q in t.procs && IsOpenSync(t.procs[q]) && t.procs[q].agent == c.agent
      ensures m.write <= t.procs[q].stage.version
    {
      assert Behind(s.procs[q], c);
    }
    assert c.stage.Listed? && c.clean ==> NoneLater(LogOf(s.logs, c.agent), c.stage.version);
    LogTraffic(t.procs, t.db, t.logs, c.agent, m);
  }

  lemma ApplyTraffic(s: Sys, ev: Event)
    requires Inv(s)
    ensures TrafficOk(Apply(s, ev))
  {
    if Enabled(s, ev) {
      match ev {
        case WriteRule(agent) => WriteTraffic(s, agent);
        case Connect(agent) => MoveTraffic(s.procs, s.db, s.logs, s.next, Proc(agent, Sync, Waiting, 0, false));
        case Retire(agent) => RetireTraffic(s, agent);
        case Acquire(p) => AcquireTraffic(s, p);
        case Lock(p) => LockTraffic(s, p);
        case List(p) => ListTraffic(s, p);
        case Send(p, ok) => if ok { SendTraffic(s, p); } else { QuietSend(s, p); }
        case Unlock(p) => PastTraffic(s, p, Unlocked);
        case Release(p) => PastTraffic(s, p, Done);
        case Quit(p) => PastTraffic(s, p, Done);
      }
    }
  }

  lemma {:induction false} RunKeeps(s: Sys, events: seq<Event>)
    requires Inv(s)
    ensures Inv(Run(s, events))
    decreases |events|
  {
    if events != [] {
      ApplyLocks(s, events[0]);
      ApplyTraffic(s, events[0]);
      RunKeeps(Apply(s, events[0]), events[1..]);
    }
  }

  // ---- what follows ----

  /** An older snapshot never overrides newer traffic: what was queued before a snapshot, whose agent was not
      released during its sync, was caused by a write the snapshot has seen. */
  lemma SnapshotKnowsEarlierTraffic(events: seq<Event>, agent: string, i: nat, j: nat)
    requires var log := LogOf(Run(Start(), events).logs, agent);
             i < j < |log| && log[i].Traffic? && log[j].Snapshot? && log[j].clean
    ensures var log := LogOf(Run(Start(), events).logs, agent); log[i].write <= log[j].version
  {
    RunKeeps(Start(), events);
    assert Ordered(LogOf(Run(Start(), events).logs, agent));
  }

  /** The use count of an entry is the number of callers between acquire and release, and a retired entry that
      nobody uses is not in the map. */
  lemma CountsAreExact(events: seq<Event>, e: nat)
    requires e in Run(Start(), events).table
    ensures var s := Run(Start(), events);
            && s.table[e].users == |set p | p in s.procs && InUse(s.procs[p].stage) && s.procs[p].entry == e|
            && (s.table[e].dead && s.table[e].users == 0 ==> forall a :: a in s.entries ==> s.entries[a] != e)
  {
    RunKeeps(Start(), events);
    var s := Run(Start(), events);
    var users := set p | p in s.procs && InUse(s.procs[p].stage) && s.procs[p].entry == e;
    assert CountOk(s.table[e], e, s.procs);
    assert forall p :: p in users ==> ProcOk(s.procs[p], p, s.table);
    assert users == s.table[e].holding;
  }

  lemma RunCons(s: Sys, ev: Event, rest: seq<Event>)
    ensures Run(s, [ev] + rest) == Run(Apply(s, ev), rest)
  {
    assert ([ev] + rest)[1..] == rest;
  }

  // ---- exactly when a snapshot can be overtaken ----

  /** Who is recorded as holding a lock does. */
  ghost predicate HoldersOk(table: Table, procs: Procs) {
    forall e :: e in table && table[e].holder.By? ==>
      table[e].holder.proc in procs && HasLock(procs[table[e].holder.proc].stage)
      && procs[table[e].holder.proc].entry == e
  }

  /** A caller whose agent was released has a retired entry. */
  ghost predicate RetiredOk(table: Table, procs: Procs) {
    forall p :: p in procs && InUse(procs[p].stage) && !procs[p].clean ==>
      procs[p].entry in table && table[procs[p].entry].dead
  }

  ghost predicate Sharp(s: Sys) { Inv(s) && HoldersOk(s.table, s.procs) && RetiredOk(s.table, s.procs) }

  lemma StageSharp(s: Sys, p: nat, stage: Stage)
    requires Sharp(s) && p in s.procs && HasLock(stage) == HasLock(s.procs[p].stage)
    requires InUse(stage) ==> InUse(s.procs[p].stage)
    ensures HoldersOk(s.table, At(s, p, stage).procs) && RetiredOk(s.table, At(s, p, stage).procs)
  {
  }

  lemma AcquireSharp(s: Sys, p: nat)
    requires Sharp(s) && p in s.procs && s.procs[p].stage.Waiting?
    ensures HoldersOk(AcquireStep(s, p).table, AcquireStep(s, p).procs)
    ensures RetiredOk(AcquireStep(s, p).table, AcquireStep(s, p).procs)
  {
    assert s.next !in s.table;
    var a := s.procs[p].agent;
    JoinSharp(s.table, s.procs, p, AcquireEntry(s, a), Opened(s, a));
  }

  lemma JoinSharp(table: Table, procs: Procs, p: nat, e: nat, le: LockEntry)
    requires HoldersOk(table, procs) && RetiredOk(table, procs) && p in procs && procs[p].stage.Waiting?
    requires if e in table then le == table[e] else le.holder == Nobody
    ensures HoldersOk(table[e := Joined(le, p)], procs[p := Entered(procs[p], e)])
    ensures RetiredOk(table[e := Joined(le, p)], procs[p := Entered(procs[p], e)])
  {
  }

  lemma LockSharp(s: Sys, p: nat)
    requires Sharp(s) && Enabled(s, Lock(p))
    ensures HoldersOk(Apply(s, Lock(p)).table, Apply(s, Lock(p)).procs)
    ensures RetiredOk(Apply(s, Lock(p)).table, Apply(s, Lock(p)).procs)
  {
    HolderSharp(s.table, s.procs, p, Locked, By(p));
  }

  lemma UnlockSharp(s: Sys, p: nat)
    requires Sharp(s) && Enabled(s, Unlock(p))
    ensures HoldersOk(Apply(s, Unlock(p)).table, Apply(s, Unlock(p)).procs)
    ensures RetiredOk(Apply(s, Unlock(p)).table, Apply(s, Unlock(p)).procs)
  {
    assert ProcOk(s.procs[p], p, s.table);
    HolderSharp(s.table, s.procs, p, Unlocked, Nobody);
  }

  lemma HolderSharp(table: Table, procs: Procs, p: nat, stage: Stage, holder: Holder)
    requires HoldersOk(table, procs) && RetiredOk(table, procs)
    requires p in procs && InUse(procs[p].stage) && InUse(stage) && procs[p].entry in table
    requires table[procs[p].entry].holder == (if HasLock(procs[p].stage) then By(p) else Nobody)
    requires holder == if HasLock(stage) then By(p) else Nobody
    ensures var e := procs[p].entry;
            var table', procs' := table[e := table[e].(holder := holder)], procs[p := procs[p].(stage := stage)];
            HoldersOk(table', procs') && RetiredOk(table', procs')
  {
  }

  lemma ReleaseSharp(s: Sys, p: nat)
    requires Sharp(s) && Enabled(s, Release(p))
    ensures HoldersOk(Apply(s, Release(p)).table, Apply(s, Release(p)).procs)
    ensures RetiredOk(Apply(s, Release(p)).table, Apply(s, Release(p)).procs)
  {
    LeaveSharp(s.table, s.procs, p);
  }

  lemma LeaveSharp(table: Table, procs: Procs, p: nat)
    requires HoldersOk(table, procs) && RetiredOk(table, procs)
    requires p in procs && procs[p].stage.Unlocked? && procs[p].entry in table
    ensures var e := procs[p].entry;
            var table', procs' := table[e := Left(table[e], p)], procs[p := procs[p].(stage := Done)];
            HoldersOk(table', procs') && RetiredOk(table', procs')
  {
  }

  lemma RetireHolders(table: Table, procs: Procs, agent: string, e: nat)
    requires HoldersOk(table, procs)
    ensures HoldersOk(table, Tainted(procs, agent))
    ensures e in table ==> HoldersOk(table[e := table[e].(dead := true)], Tainted(procs, agent))
  {
  }

  lemma RetireRetired(entries: Entries, table: Table, procs: Procs, agent: string)
    requires RetiredOk(table, procs) && CleanOk(entries, table, procs) && EntriesOk(entries, table)
    ensures agent !in entries ==> RetiredOk(table, Tainted(procs, agent))
    ensures agent in entries ==>
              RetiredOk(table[entries[agent] := table[entries[agent]].(dead := true)], Tainted(procs, agent))
  {
  }

  lemma RetireSharp(s: Sys, agent: string)
    requires Sharp(s)
    ensures HoldersOk(RetireStep(s, agent).table, RetireStep(s, agent).procs)
    ensures RetiredOk(RetireStep(s, agent).table, RetireStep(s, agent).procs)
  {
    RetireHolders(s.table, s.procs, agent, if agent in s.entries then s.entries[agent] else 0);
    RetireRetired(s.entries, s.table, s.procs, agent);
  }

  lemma ApplySharp(s: Sys, ev: Event)
    requires Sharp(s)
    ensures Sharp(Apply(s, ev))
  {
    ApplyLocks(s, ev);
    ApplyTraffic(s, ev);
    if Enabled(s, ev) {
      match ev {
        case WriteRule(agent) => assert s.next !in s.procs;
        case Connect(agent) => assert s.next !in s.procs;
        case Retire(agent) => RetireSharp(s, agent);
        case Acquire(p) => AcquireSharp(s, p);
        case List(p) => StageSharp(s, p, Listed(s.db));
        case Send(p, _) => StageSharp(s, p, Sent);
        case Quit(p) => StageSharp(s, p, Done);
        case Lock(p) => LockSharp(s, p);
        case Unlock(p) => UnlockSharp(s, p);
        case Release(p) => ReleaseSharp(s, p);
      }
    }
  }

  lemma {:induction false} RunSharp(s: Sys, events: seq<Event>)
    requires Sharp(s)
    ensures Sharp(Run(s, events))
    decreases |events|
  {
    if events != [] {
      ApplySharp(s, events[0]);
      RunSharp(Apply(s, events[0]), events[1..]);
    }
  }

  lemma {:induction false} RunJoin(s: Sys, a: seq<Event>, b: seq<Event>)
    ensures Run(s, a + b) == Run(Run(s, a), b)
    decreases |a|
  {
    if a == [] {
      assert a + b == b;
    } else {
      assert (a + b)[1..] == a[1..] + b;
      RunJoin(Apply(s, a[0]), a[1..], b);
    }
  }

  /** A sync that has listed its rules stays as it is while nobody releases its agent and it is not its turn. */
  ghost predicate Pending(s: Sys, q: nat, c: Proc) {
    q in s.procs && s.procs[q] == c && c.kind.Sync? && c.stage.Listed?
  }

  /** Traffic of a later write is already queued, and the snapshot is not. */
  ghost predicate Overtaken(s: Sys, q: nat, c: Proc) {
    Pending(s, q, c) && exists i :: 0 <= i < |LogOf(s.logs, c.agent)| && LogOf(s.logs, c.agent)[i].Traffic?
                              && LogOf(s.logs, c.agent)[i].write > c.stage.version
  }

  ghost predicate Overtakes(s: Sys, q: nat, c: Proc, rest: seq<Event>) {
    Retire(c.agent) !in rest && Overtaken(Run(s, rest), q, c)
  }

  /** The holder of another entry's lock unlocks it, once it is past its send. */
  lemma UnlockOther(s: Sys, q: nat, c: Proc, h: nat)
    requires Sharp(s) && Pending(s, q, c) && h in s.procs && s.procs[h].stage.Sent?
    ensures var t, e := Apply(s, Unlock(h)), s.procs[h].entry;
            Pending(t, q, c) && t.entries == s.entries && e in t.table && t.table[e] == s.table[e].(holder := Nobody)
  {
    assert ProcOk(s.procs[h], h, s.table);
  }

  /** Whoever holds the lock of another entry can run off it. */
  /** The holder of another entry's lock that has not sent gives its send up. */
  lemma SkipSend(s: Sys, q: nat, c: Proc, e: nat, h: nat)
    requires Sharp(s) && Pending(s, q, c) && e in s.table && e != c.entry
    requires s.table[e].holder == By(h) && !s.procs[h].stage.Sent?
    ensures var t := Apply(s, Send(h, false));
            && Sharp(t) && Pending(t, q, c) && t.entries == s.entries && t.table == s.table
            && h in t.procs && t.procs[h].stage.Sent? && t.procs[h].entry == e
  {
    assert Apply(s, Send(h, false)) == At(s, h, Sent);
    ApplySharp(s, Send(h, false));
  }

  lemma ClearSent(s: Sys, q: nat, c: Proc, e: nat, h: nat)
    requires Sharp(s) && Pending(s, q, c) && h in s.procs && s.procs[h].stage.Sent? && s.procs[h].entry == e
    ensures var t := Run(s, [Unlock(h)] + []);
            Pending(t, q, c) && t.entries == s.entries && e in t.table && t.table[e] == s.table[e].(holder := Nobody)
  {
    UnlockOther(s, q, c, h);
    RunCons(s, Unlock(h), []);
  }

  lemma ClearLock(s: Sys, q: nat, c: Proc, e: nat) returns (rest: seq<Event>)
    requires Sharp(s) && Pending(s, q, c) && e in s.table && e != c.entry
    ensures Retire(c.agent) !in rest && Pending(Run(s, rest), q, c) && Run(s, rest).entries == s.entries
    ensures e in Run(s, rest).table && Run(s, rest).table[e] == s.table[e].(holder := Nobody)
  {
    if s.table[e].holder == Nobody { return []; }
    var h := s.table[e].holder.proc;
    if s.procs[h].stage.Sent? {
      ClearSent(s, q, c, e, h);
      return [Unlock(h)] + [];
    }
    SkipSend(s, q, c, e, h);
    ClearSent(Apply(s, Send(h, false)), q, c, e, h);
    RunCons(s, Send(h, false), [Unlock(h)] + []);
    return [Send(h, false)] + ([Unlock(h)] + []);
  }

  /** Halfway: a push of a new write has acquired its entry. */
  function PushAcquired(s: Sys, agent: string): Sys {
    AcquireStep(NewProc(s, agent, Push(s.db + 1)).(db := s.db + 1), s.next)
  }

  lemma PushAcquires(s: Sys, q: nat, c: Proc)
    requires Sharp(s) && Pending(s, q, c)
    requires AcquireEntry(s, c.agent) in s.table ==> s.table[AcquireEntry(s, c.agent)].holder == Nobody
    ensures var b, p := PushAcquired(s, c.agent), s.next;
            && b == Apply(Apply(s, WriteRule(c.agent)), Acquire(p)) && Pending(b, q, c) && b.logs == s.logs
            && p in b.procs && b.procs[p].agent == c.agent
            && b.procs[p].kind == Push(s.db + 1) && b.procs[p].stage.Acquired?
            && b.procs[p].entry in b.table && b.table[b.procs[p].entry].holder == Nobody && p != q
  {
    assert s.next !in s.procs && s.next !in s.table;
    AcquiredNew(NewProc(s, c.agent, Push(s.db + 1)).(db := s.db + 1), q, c, s.next);
  }

  lemma AcquiredNew(s: Sys, q: nat, c: Proc, p: nat)
    requires Pending(s, q, c) && p in s.procs && p != q && s.procs[p].agent == c.agent && s.next !in s.table
    requires AcquireEntry(s, c.agent) in s.table ==> s.table[AcquireEntry(s, c.agent)].holder == Nobody
    ensures var b := AcquireStep(s, p);
            && Pending(b, q, c) && b.logs == s.logs
            && p in b.procs && b.procs[p] == Entered(s.procs[p], b.procs[p].entry)
            && b.procs[p].entry in b.table && b.table[b.procs[p].entry].holder == Nobody
  {
  }

  lemma PushSends(b: Sys, q: nat, c: Proc, p: nat)
    requires Pending(b, q, c) && p in b.procs && p != q && b.procs[p].agent == c.agent && b.procs[p].kind.Push?
    requires b.procs[p].stage.Acquired? && b.procs[p].entry in b.table && b.table[b.procs[p].entry].holder == Nobody
    requires b.procs[p].kind.write > c.stage.version
    ensures Overtaken(Apply(Apply(b, Lock(p)), Send(p, true)), q, c)
  {
    var d := Apply(b, Lock(p));
    assert d.procs == b.procs[p := b.procs[p].(stage := Locked)];
    var t := Apply(d, Send(p, true));
    var log := LogOf(t.logs, c.agent);
    assert t.procs[q] == c && log[|log| - 1] == Traffic(b.procs[p].kind.write);
  }

  /** Through a free lock, a push of a new write gets ahead of a snapshot that holds another. */
  lemma PushAhead(s: Sys, q: nat, c: Proc) returns (rest: seq<Event>)
    requires Sharp(s) && Pending(s, q, c)
    requires AcquireEntry(s, c.agent) in s.table ==> s.table[AcquireEntry(s, c.agent)].holder == Nobody
    ensures Overtakes(s, q, c, rest)
  {
    var p, b := s.next, PushAcquired(s, c.agent);
    PushAcquires(s, q, c);
    assert c.stage.version <= s.db;
    PushSends(b, q, c, p);
    RunCons(Apply(b, Lock(p)), Send(p, true), []);
    RunCons(b, Lock(p), [Send(p, true)] + []);
    RunCons(Apply(s, WriteRule(c.agent)), Acquire(p), [Lock(p)] + ([Send(p, true)] + []));
    RunCons(s, WriteRule(c.agent), [Acquire(p)] + ([Lock(p)] + ([Send(p, true)] + [])));
    rest := [WriteRule(c.agent)] + ([Acquire(p)] + ([Lock(p)] + ([Send(p, true)] + [])));
  }

  lemma UncleanIsOvertaken(s: Sys, q: nat, c: Proc) returns (rest: seq<Event>)
    requires Sharp(s) && Pending(s, q, c) && !c.clean
    ensures Overtakes(s, q, c, rest)
  {
    assert s.table[c.entry].dead;
    var e := AcquireEntry(s, c.agent);
    if e in s.table {
      var clear := ClearLock(s, q, c, e);
      var t := Run(s, clear);
      RunSharp(s, clear);
      assert AcquireEntry(t, c.agent) == e;
      var ahead := PushAhead(t, q, c);
      RunJoin(s, clear, ahead);
      rest := clear + ahead;
    } else {
      rest := PushAhead(s, q, c);
    }
  }

  /** Once past its list, a caller never comes back to it. */
  ghost predicate Over(stage: Stage) { stage.Sent? || stage.Unlocked? || stage.Done? }

  lemma ApplyOver(s: Sys, q: nat, ev: Event)
    requires Inv(s) && q in s.procs && Over(s.procs[q].stage)
    ensures q in Apply(s, ev).procs && Over(Apply(s, ev).procs[q].stage)
  {
    assert q < s.next;
    match ev {
      case WriteRule(_) => {}
      case Connect(_) => {}
      case Retire(_) => {}
      case _ => CallerOver(s, q, ev);
    }
  }

  lemma CallerOver(s: Sys, q: nat, ev: Event)
    requires q in s.procs && Over(s.procs[q].stage) && !(ev.WriteRule? || ev.Connect? || ev.Retire?)
    ensures q in Apply(s, ev).procs && Over(Apply(s, ev).procs[q].stage)
  {
  }

  lemma ListedMoves(s: Sys, q: nat, c: Proc, ev: Event)
    requires Inv(s) && Pending(s, q, c) && c.clean && ev != Retire(c.agent)
    ensures Pending(Apply(s, ev), q, c) || (q in Apply(s, ev).procs && Over(Apply(s, ev).procs[q].stage))
  {
    assert q < s.next;
    match ev {
      case WriteRule(_) => {}
      case Connect(_) => {}
      case Retire(_) => {}
      case _ => ListedCallerMoves(s, q, c, ev);
    }
  }

  lemma ListedCallerMoves(s: Sys, q: nat, c: Proc, ev: Event)
    requires Pending(s, q, c) && !(ev.WriteRule? || ev.Connect? || ev.Retire?)
    ensures Pending(Apply(s, ev), q, c) || (q in Apply(s, ev).procs && Over(Apply(s, ev).procs[q].stage))
  {
  }

  lemma {:induction false} CleanIsNotOvertaken(s: Sys, q: nat, c: Proc, rest: seq<Event>)
    requires Sharp(s) && c.clean && Retire(c.agent) !in rest
    requires Pending(s, q, c) || (q in s.procs && Over(s.procs[q].stage))
    ensures !Overtaken(Run(s, rest), q, c)
    decreases |rest|
  {
    if rest == [] {
      if Pending(s, q, c) { assert NoneLater(LogOf(s.logs, c.agent), c.stage.version); }
    } else {
      assert rest[0] in rest && forall ev :: ev in rest[1..] ==> ev in rest;
      ApplySharp(s, rest[0]);
      if Pending(s, q, c) { ListedMoves(s, q, c, rest[0]); } else { ApplyOver(s, q, rest[0]); }
      CleanIsNotOvertaken(Apply(s, rest[0]), q, c, rest[1..]);
    }
  }

  /** In every reachable state, for a sync that has listed its rules: without a further release of its agent, traffic
      of a later write can get ahead of its snapshot if and only if the agent was released since the sync began. */
  lemma OvertakenIffReleased(events: seq<Event>, q: nat)
    requires var s := Run(Start(), events); q in s.procs && s.procs[q].kind.Sync? && s.procs[q].stage.Listed?
    ensures var s := Run(Start(), events);
            (exists rest :: Overtakes(s, q, s.procs[q], rest)) <==> !s.procs[q].clean
  {
    RunSharp(Start(), events);
    var s := Run(Start(), events);
    var c := s.procs[q];
    if c.clean {
      forall rest | Retire(c.agent) !in rest ensures !Overtaken(Run(s, rest), q, c) {
        CleanIsNotOvertaken(s, q, c, rest);
      }
    } else {
      var rest := UncleanIsOvertaken(s, q, c);
    }
  }

  /** From there the snapshot itself may still go out, after the traffic it does not know. */
  lemma OvertakenIsSent(s: Sys, q: nat, c: Proc)
    requires Overtaken(s, q, c)
    ensures var log := LogOf(Apply(s, Send(q, true)).logs, c.agent);
            log == LogOf(s.logs, c.agent) + [Snapshot(c.stage.version, c.clean)]
  {
  }

  /** Such a sync is five events away. */
  lemma ReleasedMidSync(agent: string)
    ensures var s := Apply(Apply(Apply(Apply(Apply(Start(), Connect(agent)), Acquire(0)), Lock(0)), List(0)),
                           Retire(agent));
            0 in s.procs && s.procs[0] == Proc(agent, Sync, Listed(0), 1, false)
  {
    var b := Apply(Apply(Start(), Connect(agent)), Acquire(0));
    assert b.procs[0] == Proc(agent, Sync, Acquired, 1, true) && b.table[1].holder == Nobody;
    var d := Apply(Apply(b, Lock(0)), List(0));
    assert d.procs[0] == Proc(agent, Sync, Listed(0), 1, true);
  }
}
