/** Who delivers a file version: flush, recheck and scan claim it, send it outside the lock, and settle the claim. */
module Delivery {

  datatype Claim = Claim(path: string, mtime: int, sent: bool)

  type Version = (string, int)

  /** `live` are the claims not yet settled. `log` counts what went out, and `owner` remembers the last claim on
      each version. */
  datatype Sys = Sys(seen: map<string, int>, inflight: map<string, int>, live: map<nat, Claim>, next: nat,
                     log: multiset<Version>, owner: map<Version, nat>)

  function Start(): Sys { Sys(map[], map[], map[], 0, multiset{}, map[]) }

  datatype Event = TryClaim(path: string, mtime: int) | Send(id: nat) | Settle(id: nat)

  predicate AtLeast(m: map<string, int>, path: string, mtime: int) { path in m && mtime <= m[path] }

  predicate Claimable(seen: map<string, int>, inflight: map<string, int>, path: string, mtime: int) {
    !AtLeast(seen, path, mtime) && !AtLeast(inflight, path, mtime)
  }

  /** The cursor only moves forward. */
  function Advanced(seen: map<string, int>, path: string, mtime: int): map<string, int> {
    if AtLeast(seen, path, mtime) then seen else seen[path := mtime]
  }

  /** The placeholder goes only if it is this claim's. */
  function Released(inflight: map<string, int>, path: string, mtime: int): map<string, int> {
    if path in inflight && inflight[path] == mtime then inflight - {path} else inflight
  }

  function Apply(s: Sys, ev: Event): Sys {
    match ev
    case TryClaim(path, mtime) =>
      if !Claimable(s.seen, s.inflight, path, mtime) then s
      else s.(inflight := s.inflight[path := mtime], live := s.live[s.next := Claim(path, mtime, false)],
              next := s.next + 1,
              owner := s.owner[(path, mtime) := s.next])
    case Send(id) =>
      if id !in s.live || s.live[id].sent then s
      else s.(live := s.live[id := s.live[id].(sent := true)],
              log := s.log + multiset{(s.live[id].path, s.live[id].mtime)})
    case Settle(id) =>
      if id !in s.live then s
      else
        var c := s.live[id];
        s.(seen := if c.sent then Advanced(s.seen, c.path, c.mtime) else s.seen,
           inflight := Released(s.inflight, c.path, c.mtime), live := s.live - {id})
  }

  function Run(s: Sys, events: seq<Event>): Sys
    decreases |events|
  {
    if events == [] then s else Run(Apply(s, events[0]), events[1..])
  }

  /** The two shared maps, changed in place under the lock. */
  class Watcher {
    var seen: map<string, int>
    var inflight: map<string, int>

    method ClaimDelivery(path: string, modTime: int) returns (ok: bool)
      modifies this`inflight
      ensures ok <==> Claimable(seen, old(inflight), path, modTime)
      ensures ok <==>
                (path in seen ==> seen[path] < modTime) && (path in old(inflight) ==> old(inflight)[path] < modTime)
      ensures inflight == if ok then old(inflight)[path := modTime] else old(inflight)
    {
      if path in seen && modTime <= seen[path] { return false; }
      if path in inflight && modTime <= inflight[path] { return false; }
      inflight := inflight[path := modTime];
      return true;
    }

    method CompleteDelivery(path: string, modTime: int, delivered: bool)
      modifies this
      ensures seen == if delivered then Advanced(old(seen), path, modTime) else old(seen)
      ensures delivered ==> path in seen && modTime <= seen[path] && seen - {path} == old(seen) - {path}
      ensures delivered && path in old(seen) ==>
                seen[path] == if modTime > old(seen)[path] then modTime else old(seen)[path]
      ensures inflight - {path} == old(inflight) - {path}
      ensures path in inflight <==> path in old(inflight) && old(inflight)[path] != modTime
      ensures inflight == Released(old(inflight), path, modTime)
    {
      if delivered {
        if path !in seen || modTime > seen[path] { seen := seen[path := modTime]; }
      }
      if path in inflight && inflight[path] == modTime { inflight := inflight - {path}; }
    }
  }

  // ---- what holds of every run ----

  /** A placeholder belongs to a live claim. */
  ghost predicate Owned(s: Sys) {
    && (forall id :: id in s.live ==> id < s.next)
    && (forall p :: p in s.inflight ==>
          exists id :: id in s.live && s.live[id].path == p && s.live[id].mtime == s.inflight[p])
  }

  ghost predicate Forward(seen: map<string, int>, seen': map<string, int>) {
    forall p :: p in seen ==> p in seen' && seen[p] <= seen'[p]
  }

  lemma ApplyOwned(s: Sys, ev: Event)
    requires Owned(s)
    ensures Owned(Apply(s, ev)) && Forward(s.seen, Apply(s, ev).seen)
  {
    var t := Apply(s, ev);
    forall p | p in t.inflight
      ensures exists id :: id in t.live && t.live[id].path == p && t.live[id].mtime == t.inflight[p]
    {
      if ev.TryClaim? && t != s && p == ev.path {
        assert t.live[s.next].path == p;
      } else {
        var id :| id in s.live && s.live[id].path == p && s.live[id].mtime == s.inflight[p];
        assert t.live[id].path == p;
      }
    }
  }

  /** In every run the cursor never goes back, and every placeholder belongs to a live claim. */
  lemma {:induction false} RunOwned(s: Sys, events: seq<Event>)
    requires Owned(s)
    ensures Owned(Run(s, events)) && Forward(s.seen, Run(s, events).seen)
    decreases |events|
  {
    if events != [] {
      ApplyOwned(s, events[0]);
      RunOwned(Apply(s, events[0]), events[1..]);
    }
  }

  // ---- at most one delivery per version ----

  predicate Covered(seen: map<string, int>, inflight: map<string, int>, v: Version) {
    AtLeast(seen, v.0, v.1) || AtLeast(inflight, v.0, v.1)
  }

  function VersionOf(c: Claim): Version { (c.path, c.mtime) }

  /** A live claim owns its version, which nobody can claim again. */
  ghost predicate LiveOk(seen: map<string, int>, inflight: map<string, int>, live: map<nat, Claim>, next: nat,
                         owner: map<Version, nat>) {
    forall id :: id in live ==>
      && id < next && Covered(seen, inflight, VersionOf(live[id]))
      && VersionOf(live[id]) in owner && owner[VersionOf(live[id])] == id
  }

  ghost predicate CountsOk(live: map<nat, Claim>, log: multiset<Version>) {
    forall id :: id in live ==> log[VersionOf(live[id])] == if live[id].sent then 1 else 0
  }

  /** A version sent is recorded, or its claim is still to be settled. */
  ghost predicate LogOk(seen: map<string, int>, live: map<nat, Claim>, log: multiset<Version>,
                        owner: map<Version, nat>) {
    forall v :: v in log ==>
      && log[v] == 1 && (AtLeast(seen, v.0, v.1) || (v in owner && owner[v] in live && VersionOf(live[owner[v]]) == v))
  }

  ghost predicate Once(s: Sys) {
    LiveOk(s.seen, s.inflight, s.live, s.next, s.owner) && CountsOk(s.live, s.log)
    && LogOk(s.seen, s.live, s.log, s.owner)
  }

  /** Another live claim on the path is for a version that is not yet recorded as delivered. */
  ghost predicate OtherPending(s: Sys, id: nat, other: nat) {
    id in s.live && other in s.live && other != id && s.live[other].path == s.live[id].path
    && !AtLeast(s.seen, s.live[other].path, s.live[other].mtime)
  }

  /** Giving this claim back uncovers a version that another live claim stands for. */
  ghost predicate Harmful(s: Sys, id: nat) {
    && id in s.live && !s.live[id].sent
    && s.live[id].path in s.inflight && s.inflight[s.live[id].path] == s.live[id].mtime
    && exists other :: OtherPending(s, id, other)
  }

  /** No step of the run gives a claim back harmfully. */
  ghost predicate Clean(s: Sys, events: seq<Event>)
    decreases |events|
  {
    events != [] ==> (events[0].Settle? ==> !Harmful(s, events[0].id)) && Clean(Apply(s, events[0]), events[1..])
  }

  /** A version that can be claimed has neither been sent nor is it somebody's. */
  lemma ClaimableIsNew(s: Sys, path: string, mtime: int)
    requires Once(s) && Claimable(s.seen, s.inflight, path, mtime)
    ensures (path, mtime) !in s.log && forall id :: id in s.live ==> VersionOf(s.live[id]) != (path, mtime)
  {
  }

  lemma ClaimLive(seen: map<string, int>, inflight: map<string, int>, live: map<nat, Claim>, next: nat,
                  owner: map<Version, nat>, path: string, mtime: int)
    requires LiveOk(seen, inflight, live, next, owner) && Claimable(seen, inflight, path, mtime)
    requires forall id :: id in live ==> VersionOf(live[id]) != (path, mtime)
    ensures LiveOk(seen, inflight[path := mtime], live[next := Claim(path, mtime, false)], next + 1,
                   owner[(path, mtime) := next])
  {
  }

  lemma ClaimLog(seen: map<string, int>, live: map<nat, Claim>, log: multiset<Version>, next: nat,
                 owner: map<Version, nat>, path: string, mtime: int)
    requires CountsOk(live, log) && LogOk(seen, live, log, owner) && (path, mtime) !in log
    requires next !in live
    ensures CountsOk(live[next := Claim(path, mtime, false)], log)
    ensures LogOk(seen, live[next := Claim(path, mtime, false)], log, owner[(path, mtime) := next])
  {
  }

  lemma ClaimOnce(s: Sys, path: string, mtime: int)
    requires Once(s) && Claimable(s.seen, s.inflight, path, mtime)
    ensures Once(Apply(s, TryClaim(path, mtime)))
  {
    ClaimableIsNew(s, path, mtime);
    ClaimLive(s.seen, s.inflight, s.live, s.next, s.owner, path, mtime);
    ClaimLog(s.seen, s.live, s.log, s.next, s.owner, path, mtime);
  }

  lemma SendOnce(s: Sys, id: nat)
    requires Once(s) && id in s.live && !s.live[id].sent
    ensures Once(Apply(s, Send(id)))
  {
    var v := VersionOf(s.live[id]);
    assert v !in s.log;
    assert forall i :: i in s.live && i != id ==> VersionOf(s.live[i]) != v;
    var t := Apply(s, Send(id));
    assert LiveOk(t.seen, t.inflight, t.live, t.next, t.owner);
    assert CountsOk(t.live, t.log);
    assert LogOk(t.seen, t.live, t.log, t.owner);
  }

  lemma SettleCovers(s: Sys, id: nat, v: Version)
    requires Once(s) && !Harmful(s, id) && id in s.live
    requires exists i :: i in s.live && i != id && VersionOf(s.live[i]) == v
    ensures var t := Apply(s, Settle(id)); Covered(t.seen, t.inflight, v)
  {
    var i :| i in s.live && i != id && VersionOf(s.live[i]) == v;
    assert Covered(s.seen, s.inflight, VersionOf(s.live[i]));
    assert v.0 == s.live[id].path && !AtLeast(s.seen, v.0, v.1) ==> OtherPending(s, id, i);
  }

  lemma SettleOnce(s: Sys, id: nat)
    requires Once(s) && !Harmful(s, id) && id in s.live
    ensures Once(Apply(s, Settle(id)))
  {
    var t := Apply(s, Settle(id));
    forall i | i in t.live ensures Covered(t.seen, t.inflight, VersionOf(t.live[i])) {
      assert t.live[i] == s.live[i];
      SettleCovers(s, id, VersionOf(s.live[i]));
    }
    assert LiveOk(t.seen, t.inflight, t.live, t.next, t.owner);
    forall v | v in t.log
      ensures AtLeast(t.seen, v.0, v.1) || (v in t.owner && t.owner[v] in t.live && VersionOf(t.live[t.owner[v]]) == v)
    {
      assert s.log[v] == 1;
    }
    assert LogOk(t.seen, t.live, t.log, t.owner);
  }

  lemma ApplyOnce(s: Sys, ev: Event)
    requires Once(s) && (ev.Settle? ==> !Harmful(s, ev.id))
    ensures Once(Apply(s, ev))
  {
    match ev {
      case TryClaim(path, mtime) => if Claimable(s.seen, s.inflight, path, mtime) { ClaimOnce(s, path, mtime); }
      case Send(id) => if id in s.live && !s.live[id].sent { SendOnce(s, id); }
      case Settle(id) => if id in s.live { SettleOnce(s, id); }
    }
  }

  lemma {:induction false} RunOnce(s: Sys, events: seq<Event>)
    requires Once(s) && Clean(s, events)
    ensures Once(Run(s, events))
    decreases |events|
  {
    if events != [] {
      ApplyOnce(s, events[0]);
      RunOnce(Apply(s, events[0]), events[1..]);
    }
  }

  /** In a run without harmful rollbacks each version is delivered at most once. */
  lemma AtMostOnce(events: seq<Event>, path: string, mtime: int)
    requires Clean(Start(), events)
    ensures Run(Start(), events).log[(path, mtime)] <= 1
  {
    RunOnce(Start(), events);
    var log := Run(Start(), events).log;
    assert (path, mtime) !in log || log[(path, mtime)] == 1;
  }

  /** A rollback is harmful only to an older claim on the same path. */
  lemma HarmsOlderOnly(s: Sys, id: nat, other: nat)
    requires Once(s) && Harmful(s, id) && OtherPending(s, id, other)
    ensures s.live[other].mtime < s.live[id].mtime
  {
    assert Covered(s.seen, s.inflight, VersionOf(s.live[other]));
    assert VersionOf(s.live[other]) != VersionOf(s.live[id]);
  }

  /** No claim is given back while an older claim on its path is in flight. */
  ghost predicate OlderFree(s: Sys, events: seq<Event>)
    decreases |events|
  {
    events != [] ==>
      && (events[0].Settle? && events[0].id in s.live && !s.live[events[0].id].sent ==>
            forall other :: other in s.live && s.live[other].path == s.live[events[0].id].path ==>
              s.live[other].mtime >= s.live[events[0].id].mtime)
      && OlderFree(Apply(s, events[0]), events[1..])
  }

  lemma {:induction false} OlderFreeIsClean(s: Sys, events: seq<Event>)
    requires Once(s) && OlderFree(s, events)
    ensures Clean(s, events)
    decreases |events|
  {
    if events != [] {
      if events[0].Settle? && Harmful(s, events[0].id) {
        var other :| OtherPending(s, events[0].id, other);
        HarmsOlderOnly(s, events[0].id, other);
        assert false;
      }
      ApplyOnce(s, events[0]);
      OlderFreeIsClean(Apply(s, events[0]), events[1..]);
    }
  }

  /** In particular, runs that never give a claim back under an older one deliver each version at most once. */
  lemma AtMostOnceWithoutOlder(events: seq<Event>, path: string, mtime: int)
    requires OlderFree(Start(), events)
    ensures Run(Start(), events).log[(path, mtime)] <= 1
  {
    OlderFreeIsClean(Start(), events);
    AtMostOnce(events, path, mtime);
  }

  lemma RunCons(s: Sys, ev: Event, rest: seq<Event>)
    ensures Run(s, [ev] + rest) == Run(Apply(s, ev), rest)
    ensures Clean(s, [ev] + rest) <==> (ev.Settle? ==> !Harmful(s, ev.id)) && Clean(Apply(s, ev), rest)
  {
    assert ([ev] + rest)[1..] == rest;
  }

  /** And then it is: the older version can be claimed again, and both claims deliver it. */
  lemma HarmDelivers(s: Sys, id: nat, other: nat) returns (rest: seq<Event>)
    requires Once(s) && Harmful(s, id) && OtherPending(s, id, other)
    ensures Clean(Apply(s, Settle(id)), rest) && Run(Apply(s, Settle(id)), rest).log[VersionOf(s.live[other])] == 2
  {
    HarmsOlderOnly(s, id, other);
    var v := VersionOf(s.live[other]);
    var a := Apply(s, Settle(id));
    assert Claimable(a.seen, a.inflight, v.0, v.1) && a.live[other] == s.live[other];
    var b := Apply(a, TryClaim(v.0, v.1));
    assert b.live[s.next] == Claim(v.0, v.1, false) && b.live[other] == s.live[other];
    assert b.log[v] == if b.live[other].sent then 1 else 0;
    var c := Apply(b, Send(other));
    assert c.log[v] == 1 && c.live[s.next] == Claim(v.0, v.1, false);
    assert Apply(c, Send(s.next)).log[v] == 2;
    var last := [Send(s.next)] + [];
    RunCons(c, Send(s.next), []);
    RunCons(b, Send(other), last);
    rest := [TryClaim(v.0, v.1)] + ([Send(other)] + last);
    RunCons(a, TryClaim(v.0, v.1), [Send(other)] + last);
  }

  ghost predicate Doubles(s: Sys, rest: seq<Event>) { Clean(s, rest) && exists v :: Run(s, rest).log[v] > 1 }

  /** Exactly the harmful rollbacks make a double delivery possible. */
  lemma DoubleIffHarmful(s: Sys, id: nat)
    requires Once(s)
    ensures Harmful(s, id) <==> exists rest :: Doubles(Apply(s, Settle(id)), rest)
  {
    if Harmful(s, id) {
      var other :| OtherPending(s, id, other);
      var rest := HarmDelivers(s, id, other);
      assert Doubles(Apply(s, Settle(id)), rest);
    } else {
      ApplyOnce(s, Settle(id));
      forall rest | Clean(Apply(s, Settle(id)), rest) ensures !Doubles(Apply(s, Settle(id)), rest) {
        RunOnce(Apply(s, Settle(id)), rest);
      }
    }
  }

  /** Such a rollback is two claims away: a newer version supersedes an older one still in flight. */
  lemma HarmIsReachable(path: string)
    ensures var s := Run(Start(), [TryClaim(path, 1), TryClaim(path, 2)]); Once(s) && Harmful(s, 1)
  {
    var a := Apply(Start(), TryClaim(path, 1));
    var s := Apply(a, TryClaim(path, 2));
    RunCons(a, TryClaim(path, 2), []);
    RunCons(Start(), TryClaim(path, 1), [TryClaim(path, 2)] + []);
    assert [TryClaim(path, 1)] + ([TryClaim(path, 2)] + []) == [TryClaim(path, 1), TryClaim(path, 2)];
    ApplyOnce(Start(), TryClaim(path, 1));
    ApplyOnce(a, TryClaim(path, 2));
    assert OtherPending(s, 1, 0);
  }
}
