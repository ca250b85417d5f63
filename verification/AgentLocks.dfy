/** The table of per-agent locks as the dispatcher changes it, under its own mutex. Each entry has the value that
    `Dispatch` gives it, of which the program keeps the count and the mark. */
module AgentLocks {
  import opened Dispatch

  class AgentLockEntry {
    var users: int
    var dead: bool
    ghost const agent: string
    ghost var holder: Holder
    ghost var holding: set<nat>

    ghost function Value(): LockEntry
      reads this
    {
      LockEntry(agent, users, dead, holder, holding)
    }

    constructor (ghost agent: string)
      ensures Value() == LockEntry(agent, 0, false, Nobody, {})
    {
      this.agent, holder, holding := agent, Nobody, {};
      users, dead := 0, false;
    }
  }

  class Locks {
    var entries: map<string, AgentLockEntry>

    /** An entry is its agent's own, counts its users, and stays in the map retired only while it is used. */
    ghost predicate Valid()
      reads this, entries.Values
    {
      forall a :: a in entries ==>
        entries[a].agent == a && entries[a].users == |entries[a].holding| && (entries[a].dead ==> entries[a].users > 0)
    }

    constructor ()
      ensures Valid() && entries == map[]
    {
      entries := map[];
    }

    /** A live entry is shared; a retired one is replaced, never reused. */
    method Acquire(agentId: string, ghost p: nat) returns (e: AgentLockEntry)
      requires Valid() && forall a :: a in entries ==> p !in entries[a].holding
      modifies this, entries.Values
      ensures Valid() && entries == old(entries)[agentId := e]
      ensures if agentId in old(entries) && !old(entries[agentId].dead)
              then e == old(entries)[agentId] && e.Value() == Joined(old(entries[agentId].Value()), p)
              else fresh(e) && e.Value() == Joined(LockEntry(agentId, 0, false, Nobody, {}), p)
      ensures forall x :: x in old(entries.Values) && x != e ==> x.Value() == old(x.Value())
    {
      if agentId in entries && !entries[agentId].dead {
        e := entries[agentId];
      } else {
        e := new AgentLockEntry(agentId);
        entries := entries[agentId := e];
      }
      e.users, e.holding := e.users + 1, e.holding + {p};
    }

    /** The last user of a retired entry removes it, but never its replacement. */
    method Release(agentId: string, e: AgentLockEntry, ghost p: nat)
      requires Valid() && e.agent == agentId && p in e.holding && e.users == |e.holding|
      modifies this, e
      ensures Valid() && e.Value() == Left(old(e.Value()), p) && e.users == |e.holding|
      ensures var mine := agentId in old(entries) && old(entries)[agentId] == e;
              entries == Without(old(entries), agentId, e.dead && e.users == 0 && mine)
    {
      e.users, e.holding := e.users - 1, e.holding - {p};
      if e.dead && e.users == 0 && agentId in entries && entries[agentId] == e { entries := entries - {agentId}; }
    }

    /** Afterwards the agent has no live entry: it is gone, or retired and left to its last user. */
    method Retire(agentId: string)
      requires Valid()
      modifies this, entries.Values
      ensures Valid() && (agentId in entries ==> entries[agentId].dead)
      ensures agentId in old(entries) ==> old(entries)[agentId].Value() == old(entries[agentId].Value()).(dead := true)
      ensures entries == Without(old(entries), agentId, agentId in old(entries) && old(entries[agentId].users) == 0)
      ensures forall x :: x in old(entries.Values) && x.agent != agentId ==> x.Value() == old(x.Value())
    {
      if agentId in entries {
        entries[agentId].dead := true;
        if entries[agentId].users == 0 { entries := entries - {agentId}; }
      }
    }
  }
}
