/** What every interleaving of the debounced loop keeps: an entry marked as fired is quiet, an invalidated
    generation is not delivered, no channel is closed twice, and the map of entries stays bounded. */
module DebounceSafety {
  import opened Debounce

  type Entries = map<nat, Entry>
  type Callbacks = map<nat, Callback>

  // ---- invariant ----

  /** An entry belongs to one path, and has left the map for good once it was removed or swept. */
  ghost predicate PathsOk(pending: map<string, nat>, entries: Entries, removed: set<nat>, swept: set<nat>) {
    && (forall p :: p in pending ==> pending[p] in entries && pending[p] !in removed && pending[p] !in swept)
    && (forall p, q :: p in pending && q in pending && pending[p] == pending[q] ==> p == q)
    && removed <= entries.Keys && swept <= entries.Keys
  }

  /** The timer of an entry is a callback of its current generation. */
  ghost predicate TimersOk(entries: Entries, callbacks: Callbacks, next: nat) {
    forall e :: e in entries ==>
      && e < next && entries[e].cancel < next && entries[e].timer in callbacks
      && callbacks[entries[e].timer].entry == e && callbacks[entries[e].timer].gen == entries[e].gen
  }

  /** A callback has the generation it was armed with; the current generation has no callback but the timer's. */
  ghost predicate CallbacksOk(entries: Entries, callbacks: Callbacks, next: nat) {
    forall c :: c in callbacks ==>
      && c < next && callbacks[c].entry in entries && callbacks[c].gen <= entries[callbacks[c].entry].gen
      && (callbacks[c].gen == entries[callbacks[c].entry].gen ==> c == entries[callbacks[c].entry].timer)
  }

  ghost predicate ChansDistinct(entries: Entries) {
    forall e, f :: e in entries && f in entries && entries[e].cancel == entries[f].cancel ==> e == f
  }

  /** Only a removed entry's current channel is closed. */
  ghost predicate ClosedOk(entries: Entries, closed: set<nat>, removed: set<nat>, next: nat) {
    && (forall ch :: ch in closed ==> ch < next)
    && (forall e :: e in entries ==> (entries[e].cancel in closed <==> e in removed))
  }

  predicate Sending(stage: Stage) { stage.Flushing? || stage.Checked? || stage.Parked? }

  /** A send holds its generation's channel, an older generation's is closed, and nobody is parked on a closed one. */
  ghost predicate SendOk(entries: Entries, cb: Callback, closed: set<nat>) {
    cb.entry in entries && Sending(cb.stage) ==>
      && (if cb.gen == entries[cb.entry].gen then cb.chan == entries[cb.entry].cancel else cb.chan in closed)
      && (cb.stage.Parked? ==> cb.chan !in closed)
  }

  ghost predicate SendsOk(entries: Entries, callbacks: Callbacks, closed: set<nat>) {
    forall c :: c in callbacks ==> SendOk(entries, callbacks[c], closed)
  }

  /** A fired entry's callback has returned, and every swept entry had fired. */
  ghost predicate FiredOk(entries: Entries, callbacks: Callbacks, swept: set<nat>) {
    && (forall e :: e in entries && entries[e].fired && entries[e].timer in callbacks ==>
          callbacks[entries[e].timer].stage.Finished?)
    && (forall e :: e in swept && e in entries ==> entries[e].fired)
  }

  ghost predicate DeliveredOk(callbacks: Callbacks, delivered: set<nat>) {
    forall c :: c in delivered ==> c in callbacks && (callbacks[c].stage.Flushed? || callbacks[c].stage.Finished?)
  }

  /** The links between entries and callbacks. */
  ghost predicate Linked(entries: Entries, callbacks: Callbacks, next: nat) {
    TimersOk(entries, callbacks, next) && CallbacksOk(entries, callbacks, next)
  }

  /** Paths and channels. */
  ghost predicate Placed(pending: map<string, nat>, entries: Entries, closed: set<nat>, removed: set<nat>,
                         swept: set<nat>, next: nat) {
    PathsOk(pending, entries, removed, swept) && ChansDistinct(entries) && ClosedOk(entries, closed, removed, next)
  }

  /** Entries and callbacks. */
  ghost predicate Sound(entries: Entries, callbacks: Callbacks, next: nat, closed: set<nat>, swept: set<nat>,
                        delivered: set<nat>) {
    && Linked(entries, callbacks, next) && SendsOk(entries, callbacks, closed)
    && FiredOk(entries, callbacks, swept) && DeliveredOk(callbacks, delivered)
  }

  ghost predicate SoundState(s: Sys) { Sound(s.entries, s.callbacks, s.next, s.closed, s.swept, s.delivered) }

  ghost predicate PlacedState(s: Sys) {
    Placed(s.pending, s.entries, s.closed, s.removed, s.swept, s.next) && !s.panicked
  }

  ghost predicate Inv(s: Sys) { PlacedState(s) && SoundState(s) }

  // ---- moves of a callback ----

  lemma SetCallback(entries: Entries, callbacks: Callbacks, next: nat, closed: set<nat>, swept: set<nat>, id: nat,
                    cb: Callback)
    requires Linked(entries, callbacks, next) && SendsOk(entries, callbacks, closed)
             && FiredOk(entries, callbacks, swept)
    requires id in callbacks && cb.entry == callbacks[id].entry && cb.gen == callbacks[id].gen
    requires !callbacks[id].stage.Finished? && SendOk(entries, cb, closed)
    ensures Linked(entries, callbacks[id := cb], next) && SendsOk(entries, callbacks[id := cb], closed)
    ensures FiredOk(entries, callbacks[id := cb], swept)
  {
  }

  lemma SetFired(entries: Entries, callbacks: Callbacks, next: nat, closed: set<nat>, swept: set<nat>, e: nat)
    requires Linked(entries, callbacks, next) && SendsOk(entries, callbacks, closed)
             && FiredOk(entries, callbacks, swept)
    requires e in entries && callbacks[entries[e].timer].stage.Finished?
    ensures var entries' := entries[e := entries[e].(fired := true)];
            Linked(entries', callbacks, next) && SendsOk(entries', callbacks, closed)
            && FiredOk(entries', callbacks, swept)
  {
  }

  lemma MoveKeeps(s: Sys, t: Sys, id: nat, cb: Callback)
    requires Inv(s) && id in s.callbacks && cb.entry == s.callbacks[id].entry && cb.gen == s.callbacks[id].gen
    requires !s.callbacks[id].stage.Finished? && SendOk(s.entries, cb, s.closed)
    requires t == s.(callbacks := s.callbacks[id := cb], delivered := t.delivered)
    requires t.delivered == s.delivered || (t.delivered == s.delivered + {id} && cb.stage.Flushed?)
    requires id in s.delivered ==> cb.stage.Flushed? || cb.stage.Finished?
    ensures Inv(t)
  {
    SetCallback(s.entries, s.callbacks, s.next, s.closed, s.swept, id, cb);
  }

  lemma FinishKeeps(s: Sys, id: nat)
    requires Inv(s) && Ready(s, id, Flushed)
    ensures Inv(FinishFlush(s, id))
  {
    var c := s.callbacks[id];
    var t := At(s, id, Finished);
    MoveKeeps(s, t, id, c.(stage := Finished));
    if c.gen == s.entries[c.entry].gen { MarkKeeps(t, c.entry); }
  }

  lemma MarkKeeps(s: Sys, e: nat)
    requires Inv(s) && e in s.entries && s.callbacks[s.entries[e].timer].stage.Finished?
    ensures Inv(s.(entries := s.entries[e := s.entries[e].(fired := true)]))
  {
    SetFired(s.entries, s.callbacks, s.next, s.closed, s.swept, e);
    SetFiredRest(s.pending, s.entries, s.closed, s.removed, s.swept, s.next, e);
  }

  lemma SetFiredRest(pending: map<string, nat>, entries: Entries, closed: set<nat>, removed: set<nat>, swept: set<nat>,
                     next: nat, e: nat)
    requires PathsOk(pending, entries, removed, swept) && ChansDistinct(entries)
             && ClosedOk(entries, closed, removed, next) && e in entries
    ensures var entries' := entries[e := entries[e].(fired := true)];
            PathsOk(pending, entries', removed, swept) && ChansDistinct(entries')
            && ClosedOk(entries', closed, removed, next)
  {
  }

  lemma CallbackKeeps(s: Sys, ev: Event)
    requires Inv(s) && Enabled(s, ev) && !(ev.Write? || ev.Remove? || ev.Other? || ev.SweepOne?)
    ensures Inv(CallbackStep(s, ev))
  {
    var t := CallbackStep(s, ev);
    if ev.Finish? {
      FinishKeeps(s, ev.id);
    } else {
      MoveKeeps(s, t, ev.id, t.callbacks[ev.id]);
    }
  }

  // ---- moves of the loop ----

  lemma StopKeeps(entries: Entries, callbacks: Callbacks, next: nat, closed: set<nat>, swept: set<nat>,
                  delivered: set<nat>, id: nat)
    requires Sound(entries, callbacks, next, closed, swept, delivered) && id in callbacks
    ensures Sound(entries, StopTimer(callbacks, id), next, closed, swept, delivered)
  {
    if callbacks[id].stage.Armed? {
      SetCallback(entries, callbacks, next, closed, swept, id, callbacks[id].(stage := Finished));
    }
  }

  lemma WakeKeeps(entries: Entries, callbacks: Callbacks, next: nat, closed: set<nat>, swept: set<nat>,
                  delivered: set<nat>, chan: nat)
    requires Sound(entries, callbacks, next, closed, swept, delivered)
    ensures Sound(entries, Wake(callbacks, chan), next, closed + {chan}, swept, delivered)
  {
  }

  lemma SilenceKeeps(entries: Entries, callbacks: Callbacks, next: nat, closed: set<nat>, swept: set<nat>,
                     delivered: set<nat>, e: nat)
    requires Sound(entries, callbacks, next, closed, swept, delivered) && e in entries
    ensures Sound(entries, Silenced(callbacks, entries[e]), next, closed + {entries[e].cancel}, swept, delivered)
  {
    StopKeeps(entries, callbacks, next, closed, swept, delivered, entries[e].timer);
    WakeKeeps(entries, StopTimer(callbacks, entries[e].timer), next, closed, swept, delivered, entries[e].cancel);
  }

  /** A new generation for entry `e`, whose old channel has been closed. */
  lemma NewGeneration(entries: Entries, callbacks: Callbacks, next: nat, closed: set<nat>, swept: set<nat>,
                      delivered: set<nat>, e: nat)
    requires Sound(entries, callbacks, next, closed, swept, delivered)
    requires e in entries && e !in swept && entries[e].cancel in closed
    ensures Sound(entries[e := NextGen(entries[e], next)],
                  callbacks[next := Callback(e, entries[e].gen + 1, Armed, 0)], next + 1, closed, swept, delivered)
  {
  }

  lemma RearmSound(entries: Entries, callbacks: Callbacks, next: nat, closed: set<nat>, swept: set<nat>,
                   delivered: set<nat>, e: nat)
    requires Sound(entries, callbacks, next, closed, swept, delivered) && e in entries && e !in swept
    ensures Sound(entries[e := NextGen(entries[e], next)], Rearmed(callbacks, e, entries[e], next),
                  next + 1, closed + {entries[e].cancel}, swept, delivered)
  {
    SilenceKeeps(entries, callbacks, next, closed, swept, delivered, e);
    NewGeneration(entries, Silenced(callbacks, entries[e]), next, closed + {entries[e].cancel}, swept, delivered, e);
  }

  lemma NewEntry(entries: Entries, callbacks: Callbacks, next: nat, closed: set<nat>, swept: set<nat>,
                 delivered: set<nat>)
    requires Sound(entries, callbacks, next, closed, swept, delivered) && next !in swept
    ensures Sound(entries[next := Entry(1, false, next, next)],
                  callbacks[next := Callback(next, 1, Armed, 0)], next + 1, closed, swept, delivered)
  {
  }

  lemma RearmPlaced(pending: map<string, nat>, entries: Entries, closed: set<nat>, removed: set<nat>, swept: set<nat>,
                    next: nat, e: nat)
    requires Placed(pending, entries, closed, removed, swept, next) && e in entries && e !in removed
    requires forall x :: x in entries ==> entries[x].cancel < next
    ensures Placed(pending, entries[e := NextGen(entries[e], next)], closed + {entries[e].cancel}, removed, swept,
                   next + 1)
  {
  }

  lemma FirstPlaced(pending: map<string, nat>, entries: Entries, closed: set<nat>, removed: set<nat>, swept: set<nat>,
                    next: nat, path: string)
    requires Placed(pending, entries, closed, removed, swept, next) && path !in pending
    requires forall x :: x in entries ==> x < next && entries[x].cancel < next
    ensures Placed(pending[path := next], entries[next := Entry(1, false, next, next)], closed, removed, swept,
                   next + 1)
  {
  }

  lemma DropPlaced(pending: map<string, nat>, entries: Entries, closed: set<nat>, removed: set<nat>, swept: set<nat>,
                   next: nat, path: string)
    requires Placed(pending, entries, closed, removed, swept, next) && path in pending
    requires forall x :: x in entries ==> entries[x].cancel < next
    ensures Placed(pending - {path}, entries, closed + {entries[pending[path]].cancel}, removed + {pending[path]},
                   swept, next)
  {
  }

  lemma SweepPlaced(pending: map<string, nat>, entries: Entries, closed: set<nat>, removed: set<nat>, swept: set<nat>,
                    next: nat, path: string)
    requires Placed(pending, entries, closed, removed, swept, next) && path in pending
    ensures Placed(pending - {path}, entries, closed, removed, swept + {pending[path]}, next)
  {
  }

  lemma RearmIsSound(s: Sys, path: string)
    requires path in s.pending && s.pending[path] in s.entries && s.pending[path] !in s.swept && SoundState(s)
    ensures SoundState(Rearm(s, path))
  {
    RearmSound(s.entries, s.callbacks, s.next, s.closed, s.swept, s.delivered, s.pending[path]);
  }

  lemma RearmIsPlaced(s: Sys, path: string)
    requires path in s.pending && PlacedState(s) && forall x :: x in s.entries ==> s.entries[x].cancel < s.next
    ensures PlacedState(Rearm(s, path))
  {
    RearmPlaced(s.pending, s.entries, s.closed, s.removed, s.swept, s.next, s.pending[path]);
  }

  lemma RearmKeeps(s: Sys, path: string)
    requires Inv(s) && path in s.pending
    ensures Inv(Rearm(s, path))
  {
    RearmIsSound(s, path);
    RearmIsPlaced(s, path);
  }

  lemma FirstArmKeeps(s: Sys, path: string)
    requires Inv(s) && path !in s.pending
    ensures Inv(FirstArm(s, path))
  {
    assert s.next !in s.swept;
    NewEntry(s.entries, s.callbacks, s.next, s.closed, s.swept, s.delivered);
    FirstPlaced(s.pending, s.entries, s.closed, s.removed, s.swept, s.next, path);
  }

  lemma DropKeeps(s: Sys, path: string)
    requires Inv(s) && path in s.pending
    ensures Inv(Drop(s, path))
  {
    SilenceKeeps(s.entries, s.callbacks, s.next, s.closed, s.swept, s.delivered, s.pending[path]);
    DropPlaced(s.pending, s.entries, s.closed, s.removed, s.swept, s.next, path);
  }

  lemma SweepKeeps(s: Sys, path: string)
    requires Inv(s) && s.loop.Sweeping?
    ensures Inv(SweepNext(s, path))
  {
    if Fired(s, path) { SweepPlaced(s.pending, s.entries, s.closed, s.removed, s.swept, s.next, path); }
  }

  lemma ChargeKeeps(s: Sys)
    requires Inv(s)
    ensures Inv(Charge(s)) && Inv(Noted(s))
  {
  }

  lemma LoopKeeps(s: Sys, ev: Event)
    requires Inv(s) && Enabled(s, ev) && (ev.Write? || ev.Remove? || ev.Other? || ev.SweepOne?)
    ensures Inv(LoopStep(s, ev))
  {
    match ev {
      case Write(path) =>
        if path in s.pending {
          RearmKeeps(s, path);
          ChargeKeeps(Rearm(s, path));
        } else {
          FirstArmKeeps(s, path);
          ChargeKeeps(FirstArm(s, path));
        }
      case Remove(path) =>
        if path in s.pending {
          DropKeeps(s, path);
          ChargeKeeps(Drop(s, path));
        } else {
          ChargeKeeps(s);
        }
      case Other => ChargeKeeps(s);
      case SweepOne(path) => SweepKeeps(s, path);
    }
  }

  lemma ApplyKeeps(s: Sys, ev: Event)
    requires Inv(s)
    ensures Inv(Apply(s, ev))
  {
    if Enabled(s, ev) {
      if ev.Write? || ev.Remove? || ev.Other? || ev.SweepOne? {
        LoopKeeps(s, ev);
        ChargeKeeps(LoopStep(s, ev));
      } else {
        CallbackKeeps(s, ev);
        ChargeKeeps(CallbackStep(s, ev));
      }
    }
  }

  lemma {:induction false} RunKeeps(s: Sys, events: seq<Event>)
    requires Inv(s)
    ensures Inv(Run(s, events))
    decreases |events|
  {
    if events != [] {
      ApplyKeeps(s, events[0]);
      RunKeeps(Apply(s, events[0]), events[1..]);
    }
  }

  // ---- generations ----

  predicate IsCurrent(cb: Callback, e: nat, gen: nat) { cb.entry == e && cb.gen == gen }

  /** In every interleaving: an entry marked as fired has no timer armed, no callback waiting for its check and no
      flush running for its current generation; and no channel was ever closed twice. */
  lemma FiredMeansQuiet(sweepEvery: nat, events: seq<Event>)
    ensures var s := Run(Start(sweepEvery), events);
            && !s.panicked
            && forall e, c :: e in s.entries && c in s.callbacks && s.entries[e].fired ==>
                 IsCurrent(s.callbacks[c], e, s.entries[e].gen) ==> s.callbacks[c].stage.Finished?
  {
    RunKeeps(Start(sweepEvery), events);
  }

  /** An entry that has not fired and was not removed is waited for: its timer's callback has yet to return. */
  ghost predicate Awaited(entries: Entries, callbacks: Callbacks, removed: set<nat>) {
    forall e :: e in entries && e !in removed && !entries[e].fired && entries[e].timer in callbacks ==>
      !callbacks[entries[e].timer].stage.Finished?
  }

  ghost predicate AwaitedState(s: Sys) { Awaited(s.entries, s.callbacks, s.removed) }

  lemma MoveAwaited(entries: Entries, callbacks: Callbacks, removed: set<nat>, id: nat, cb: Callback)
    requires Awaited(entries, callbacks, removed) && id in callbacks && callbacks[id].entry in entries
    requires forall e :: e in entries && entries[e].timer == id ==> e == cb.entry && cb.gen == entries[e].gen
    requires cb.entry == callbacks[id].entry && (cb.stage.Finished? ==> cb.gen != entries[cb.entry].gen)
    ensures Awaited(entries, callbacks[id := cb], removed)
  {
  }

  lemma FinishAwaited(s: Sys, id: nat)
    requires Inv(s) && AwaitedState(s) && Ready(s, id, Flushed)
    ensures AwaitedState(FinishFlush(s, id))
  {
    var c := s.callbacks[id];
    assert forall e :: e in s.entries && s.entries[e].timer == id ==> e == c.entry && c.gen == s.entries[e].gen;
  }

  lemma CallbackAwaited(s: Sys, ev: Event)
    requires Inv(s) && AwaitedState(s) && Enabled(s, ev)
    requires !(ev.Write? || ev.Remove? || ev.Other? || ev.SweepOne?)
    ensures AwaitedState(CallbackStep(s, ev))
  {
    if ev.Finish? {
      FinishAwaited(s, ev.id);
    } else {
      MoveAwaited(s.entries, s.callbacks, s.removed, ev.id, CallbackStep(s, ev).callbacks[ev.id]);
    }
  }

  /** Stopping one entry's timer and closing its channel ends no other entry's callback. */
  lemma SilenceEndsOwn(entries: Entries, callbacks: Callbacks, next: nat, e: nat, f: nat)
    requires TimersOk(entries, callbacks, next) && e in entries && f in entries && f != e
    ensures entries[f].timer in Silenced(callbacks, entries[e])
    ensures Silenced(callbacks, entries[e])[entries[f].timer].stage.Finished? ==>
              callbacks[entries[f].timer].stage.Finished?
  {
    assert callbacks[entries[f].timer].entry == f && callbacks[entries[e].timer].entry == e;
  }

  lemma RearmAwaited(s: Sys, path: string)
    requires Inv(s) && AwaitedState(s) && path in s.pending
    ensures AwaitedState(Rearm(s, path))
  {
    var e, t := s.pending[path], Rearm(s, path);
    forall f | f in t.entries && f !in t.removed && !t.entries[f].fired && t.entries[f].timer in t.callbacks
      ensures !t.callbacks[t.entries[f].timer].stage.Finished?
    {
      if f != e { SilenceEndsOwn(s.entries, s.callbacks, s.next, e, f); }
    }
  }

  lemma DropAwaited(s: Sys, path: string)
    requires Inv(s) && AwaitedState(s) && path in s.pending
    ensures AwaitedState(Drop(s, path))
  {
    var e, t := s.pending[path], Drop(s, path);
    forall f | f in t.entries && f !in t.removed && !t.entries[f].fired && t.entries[f].timer in t.callbacks
      ensures !t.callbacks[t.entries[f].timer].stage.Finished?
    {
      SilenceEndsOwn(s.entries, s.callbacks, s.next, e, f);
    }
  }

  lemma FirstArmAwaited(s: Sys, path: string)
    requires Inv(s) && AwaitedState(s)
    ensures AwaitedState(FirstArm(s, path))
  {
    assert forall e :: e in s.entries ==> s.entries[e].timer in s.callbacks && s.entries[e].timer < s.next;
  }

  lemma ChargeAwaited(s: Sys)
    ensures AwaitedState(Charge(s)) <==> AwaitedState(s)
    ensures AwaitedState(Noted(s)) <==> AwaitedState(s)
  {
  }

  lemma LoopAwaited(s: Sys, ev: Event)
    requires Inv(s) && AwaitedState(s) && Enabled(s, ev) && (ev.Write? || ev.Remove? || ev.Other? || ev.SweepOne?)
    ensures AwaitedState(LoopStep(s, ev))
  {
    match ev {
      case Write(path) =>
        if path in s.pending {
          RearmAwaited(s, path);
          ChargeAwaited(Rearm(s, path));
        } else {
          FirstArmAwaited(s, path);
          ChargeAwaited(FirstArm(s, path));
        }
      case Remove(path) =>
        if path in s.pending {
          DropAwaited(s, path);
          ChargeAwaited(Drop(s, path));
        } else {
          ChargeAwaited(s);
        }
      case Other => ChargeAwaited(s);
      case SweepOne(_) => {}
    }
  }

  lemma {:induction false} RunAwaited(s: Sys, events: seq<Event>)
    requires Inv(s) && AwaitedState(s)
    ensures AwaitedState(Run(s, events))
    decreases |events|
  {
    if events != [] {
      var ev := events[0];
      if Enabled(s, ev) {
        if ev.Write? || ev.Remove? || ev.Other? || ev.SweepOne? {
          LoopAwaited(s, ev);
          ChargeAwaited(LoopStep(s, ev));
        } else {
          CallbackAwaited(s, ev);
          ChargeAwaited(CallbackStep(s, ev));
        }
      }
      ApplyKeeps(s, ev);
      RunAwaited(Apply(s, ev), events[1..]);
    }
  }

  /** Some callback of the entry's current generation has yet to return. */
  ghost predicate Busy(s: Sys, e: nat)
    requires e in s.entries
  {
    exists c :: c in s.callbacks && IsCurrent(s.callbacks[c], e, s.entries[e].gen) && !s.callbacks[c].stage.Finished?
  }

  lemma BusyIffUnfired(s: Sys, path: string)
    requires Inv(s) && AwaitedState(s) && path in s.pending
    ensures s.pending[path] in s.entries && (Fired(s, path) <==> !Busy(s, s.pending[path]))
  {
    var e := s.pending[path];
    assert e !in s.removed && IsCurrent(s.callbacks[s.entries[e].timer], e, s.entries[e].gen);
  }

  lemma StartAwaited(sweepEvery: nat)
    ensures Inv(Start(sweepEvery)) && AwaitedState(Start(sweepEvery))
  {
  }

  /** In every interleaving: an entry of the map has fired exactly when its current generation is done, so a file is
      never left unfired with nobody coming back to it, nor swept while somebody is. */
  lemma FiredIffQuiet(sweepEvery: nat, events: seq<Event>, path: string)
    requires path in Run(Start(sweepEvery), events).pending
    ensures var s := Run(Start(sweepEvery), events);
            s.pending[path] in s.entries && (Fired(s, path) <==> !Busy(s, s.pending[path]))
  {
    StartAwaited(sweepEvery);
    RunKeeps(Start(sweepEvery), events);
    RunAwaited(Start(sweepEvery), events);
    BusyIffUnfired(Run(Start(sweepEvery), events), path);
  }

  /** An entry that was swept stays out of the map, and the callbacks it may still have fail their check. */
  lemma SweptNeverFlushes(s: Sys, e: nat, events: seq<Event>, id: nat)
    requires Inv(s) && e in s.swept
    ensures var t := Run(s, events);
            && e in t.swept && (forall p :: p in t.pending ==> t.pending[p] != e)
            && (Ready(t, id, Started) && t.callbacks[id].entry == e ==> CheckGen(t, id).callbacks[id].stage.Finished?)
  {
    RunKeeps(s, events);
    RunSwept(s, e, events);
  }

  ghost predicate Frame(s: Sys, t: Sys) { s.swept <= t.swept && t.sweepEvery == s.sweepEvery }

  lemma LoopFrame(s: Sys, ev: Event)
    requires Enabled(s, ev) && (ev.Write? || ev.Remove? || ev.Other? || ev.SweepOne?)
    ensures Frame(s, LoopStep(s, ev))
  {
    match ev {
      case Write(path) =>
        if path in s.pending { assert Frame(s, Charge(Rearm(s, path))); }
        else { assert Frame(s, Charge(FirstArm(s, path))); }
      case Remove(path) =>
        if path in s.pending { assert Frame(s, Charge(Drop(s, path))); } else { assert Frame(s, Charge(s)); }
      case Other => assert Frame(s, Charge(s));
      case SweepOne(path) => assert Frame(s, SweepNext(s, path));
    }
  }

  lemma ApplyFrame(s: Sys, ev: Event)
    ensures Frame(s, Apply(s, ev))
  {
    if Enabled(s, ev) && (ev.Write? || ev.Remove? || ev.Other? || ev.SweepOne?) { LoopFrame(s, ev); }
  }

  lemma {:induction false} RunSwept(s: Sys, e: nat, events: seq<Event>)
    requires e in s.swept
    ensures e in Run(s, events).swept
    decreases |events|
  {
    if events != [] {
      ApplyFrame(s, events[0]);
      RunSwept(Apply(s, events[0]), e, events[1..]);
    }
  }

  /** A later event superseded the callback's generation, or removed its file. */
  predicate Invalidated(s: Sys, c: nat) {
    c in s.callbacks && s.callbacks[c].entry in s.entries &&
    (s.callbacks[c].gen < s.entries[s.callbacks[c].entry].gen || s.callbacks[c].entry in s.removed)
  }

  ghost predicate Doomed(s: Sys, c: nat) { Invalidated(s, c) && c !in s.delivered && !s.callbacks[c].stage.Checked? }

  lemma InvalidatedIsClosed(s: Sys, c: nat)
    requires Inv(s) && Invalidated(s, c)
    ensures Sending(s.callbacks[c].stage) ==> s.callbacks[c].chan in s.closed && !s.callbacks[c].stage.Parked?
  {
    assert SendOk(s.entries, s.callbacks[c], s.closed);
  }

  lemma CallbackDooms(s: Sys, ev: Event, c: nat)
    requires Inv(s) && Doomed(s, c) && Enabled(s, ev) && !(ev.Write? || ev.Remove? || ev.Other? || ev.SweepOne?)
    ensures Doomed(CallbackStep(s, ev), c)
  {
    InvalidatedIsClosed(s, c);
  }

  /** Silencing an entry ends callbacks or leaves them where they are. */
  lemma SilencedStage(callbacks: Callbacks, p: Entry, c: nat)
    requires c in callbacks
    ensures c in Silenced(callbacks, p) && Silenced(callbacks, p)[c].entry == callbacks[c].entry
    ensures Silenced(callbacks, p)[c].gen == callbacks[c].gen
    ensures Silenced(callbacks, p)[c].stage in {callbacks[c].stage, Finished, Flushed}
  {
  }

  lemma RearmDooms(s: Sys, path: string, c: nat)
    requires Inv(s) && Doomed(s, c) && path in s.pending
    ensures Doomed(Rearm(s, path), c)
  {
    SilencedStage(s.callbacks, s.entries[s.pending[path]], c);
    assert c < s.next;
  }

  lemma DropDooms(s: Sys, path: string, c: nat)
    requires Inv(s) && Doomed(s, c) && path in s.pending
    ensures Doomed(Drop(s, path), c)
  {
    SilencedStage(s.callbacks, s.entries[s.pending[path]], c);
  }

  lemma ChargeDooms(s: Sys, c: nat)
    requires Doomed(s, c)
    ensures Doomed(Charge(s), c) && Doomed(Noted(s), c)
  {
  }

  lemma LoopDooms(s: Sys, ev: Event, c: nat)
    requires Inv(s) && Doomed(s, c) && Enabled(s, ev) && (ev.Write? || ev.Remove? || ev.Other? || ev.SweepOne?)
    ensures Doomed(LoopStep(s, ev), c)
  {
    match ev {
      case Write(path) =>
        if path in s.pending {
          RearmDooms(s, path, c);
          ChargeDooms(Rearm(s, path), c);
        } else {
          assert c < s.next;
          ChargeDooms(FirstArm(s, path), c);
        }
      case Remove(path) =>
        if path in s.pending {
          DropDooms(s, path, c);
          ChargeDooms(Drop(s, path), c);
        } else {
          ChargeDooms(s, c);
        }
      case Other => ChargeDooms(s, c);
      case SweepOne(_) =>
    }
  }

  lemma {:induction false} RunDooms(s: Sys, events: seq<Event>, c: nat)
    requires Inv(s) && Doomed(s, c)
    ensures Doomed(Run(s, events), c)
    decreases |events|
  {
    if events != [] {
      var ev := events[0];
      if Enabled(s, ev) {
        if ev.Write? || ev.Remove? || ev.Other? || ev.SweepOne? {
          LoopDooms(s, ev, c);
          ChargeDooms(LoopStep(s, ev), c);
        } else {
          CallbackDooms(s, ev, c);
          ChargeDooms(CallbackStep(s, ev), c);
        }
      }
      ApplyKeeps(s, ev);
      RunDooms(Apply(s, ev), events[1..], c);
    }
  }

  /** A generation invalidated before its flush passed the send's entry check, or while it was parked, is never
      delivered, whatever happens later. */
  lemma InvalidatedNeverDelivered(sweepEvery: nat, before: seq<Event>, after: seq<Event>, c: nat)
    requires var s := Run(Start(sweepEvery), before);
             Invalidated(s, c) && c !in s.delivered && !s.callbacks[c].stage.Checked?
    ensures c !in Run(Run(Start(sweepEvery), before), after).delivered
  {
    RunKeeps(Start(sweepEvery), before);
    RunDooms(Run(Start(sweepEvery), before), after, c);
  }

  // ---- a write is followed up ----

  /** A callback of the entry that stands for `path`. */
  predicate Concerns(s: Sys, path: string, c: nat) {
    path in s.pending && c in s.callbacks && s.callbacks[c].entry == s.pending[path]
  }

  /** The path waits for callback `c`, whose timer runs for the current generation. */
  ghost predicate Waiting(t: Sys, path: string, c: nat) {
    && path in t.pending && t.pending[path] in t.entries && !Fired(t, path) && Running(t, c)
    && t.callbacks[c].entry == t.pending[path]
  }

  /** A running timer whose generation is current and not cancelled. */
  ghost predicate Running(t: Sys, c: nat) {
    && Ready(t, c, Armed) && t.callbacks[c].gen == t.entries[t.callbacks[c].entry].gen
    && t.entries[t.callbacks[c].entry].cancel !in t.closed
  }

  lemma SilencedSame(callbacks: Callbacks, p: Entry, b: nat)
    requires b in callbacks
    ensures b in Silenced(callbacks, p) && Silenced(callbacks, p)[b].entry == callbacks[b].entry
    ensures Silenced(callbacks, p)[b].gen == callbacks[b].gen
  {
  }

  lemma RearmInvalidates(s: Sys, path: string, b: nat)
    requires path in s.pending && s.pending[path] in s.entries && Concerns(s, path, b) && b != s.next
    requires s.callbacks[b].gen <= s.entries[s.pending[path]].gen
    ensures Invalidated(Rearm(s, path), b)
  {
    SilencedSame(s.callbacks, s.entries[s.pending[path]], b);
  }

  lemma RearmWaits(s: Sys, path: string)
    requires path in s.pending && s.pending[path] in s.entries && s.next !in s.closed
    requires s.entries[s.pending[path]].cancel != s.next
    ensures Waiting(Rearm(s, path), path, s.next)
  {
  }

  lemma RearmFollows(s: Sys, path: string)
    requires Inv(s) && path in s.pending
    ensures Waiting(Rearm(s, path), path, s.next) && s.next !in s.callbacks
    ensures forall b :: Concerns(s, path, b) ==> Invalidated(Rearm(s, path), b)
  {
    RearmWaits(s, path);
    forall b | Concerns(s, path, b) ensures Invalidated(Rearm(s, path), b) { RearmInvalidates(s, path, b); }
  }

  lemma FirstArmFollows(s: Sys, path: string)
    requires Inv(s) && path !in s.pending
    ensures Waiting(FirstArm(s, path), path, s.next) && s.next !in s.callbacks
  {
    FirstArmKeeps(s, path);
  }

  lemma ChargeWaits(t: Sys, path: string, c: nat)
    requires Waiting(t, path, c)
    ensures Waiting(Noted(Charge(t)), path, c)
  {
  }

  lemma ChargeInvalidates(t: Sys, b: nat)
    ensures Invalidated(Noted(Charge(t)), b) <==> Invalidated(t, b)
  {
  }

  /** What the timer's callback does if nothing intervenes. */
  function Flush(c: nat): seq<Event> { [Fire(c), Check(c), EntryCheck(c), Deliver(c)] }

  lemma ArmedIsChecked(t: Sys, c: nat)
    requires Running(t, c)
    ensures var u := Apply(Apply(t, Fire(c)), Check(c));
            Ready(u, c, Flushing) && u.callbacks[c].chan !in u.closed
  {
  }

  lemma CheckedIsDelivered(u: Sys, c: nat)
    requires Ready(u, c, Flushing) && u.callbacks[c].chan !in u.closed
    ensures c in Apply(Apply(u, EntryCheck(c)), Deliver(c)).delivered
  {
  }

  lemma FlushDelivers(t: Sys, c: nat)
    requires Running(t, c)
    ensures c in Run(t, Flush(c)).delivered
  {
    var es := Flush(c);
    ArmedIsChecked(t, c);
    CheckedIsDelivered(Apply(Apply(t, Fire(c)), Check(c)), c);
    assert es[1..] == [Check(c), EntryCheck(c), Deliver(c)] && es[1..][1..] == [EntryCheck(c), Deliver(c)];
    assert es[1..][1..][1..] == [Deliver(c)] && es[1..][1..][1..][1..] == [];
    var a := Apply(t, Fire(c));
    var b := Apply(a, Check(c));
    assert Run(t, es) == Run(a, es[1..]) == Run(b, es[1..][1..]);
    assert Run(b, es[1..][1..]) == Run(Apply(b, EntryCheck(c)), [Deliver(c)]);
  }

  /** In every reachable state between two sweeps, a write to a file, known or not, leaves it unfired with a new timer
      for a new generation; every callback there was for it is superseded; and the new one, left alone, delivers. */
  lemma WriteIsFollowedUp(sweepEvery: nat, events: seq<Event>, path: string)
    requires Run(Start(sweepEvery), events).loop.Idle?
    ensures var s := Run(Start(sweepEvery), events);
            var t, c := Apply(s, Write(path)), s.next;
            && Waiting(t, path, c) && c !in s.callbacks && (forall b :: Concerns(s, path, b) ==> Invalidated(t, b))
            && c in Run(t, Flush(c)).delivered
  {
    var s := Run(Start(sweepEvery), events);
    RunKeeps(Start(sweepEvery), events);
    WriteFollows(s, path);
    FlushDelivers(Apply(s, Write(path)), s.next);
  }

  lemma WriteFollows(s: Sys, path: string)
    requires Inv(s) && s.loop.Idle?
    ensures var t := Apply(s, Write(path));
            && Waiting(t, path, s.next) && s.next !in s.callbacks
            && (forall b :: Concerns(s, path, b) ==> Invalidated(t, b))
  {
    var armed := if path in s.pending then Rearm(s, path) else FirstArm(s, path);
    assert Apply(s, Write(path)) == Noted(Charge(armed));
    if path in s.pending { RearmFollows(s, path); } else { FirstArmFollows(s, path); }
    ChargeWaits(armed, path, s.next);
    forall b | Concerns(s, path, b) ensures Invalidated(Noted(Charge(armed)), b) { ChargeInvalidates(armed, b); }
  }

  /** A removal takes the file off the map, and every callback there was for it is superseded. */
  lemma RemoveForgets(sweepEvery: nat, events: seq<Event>, path: string)
    requires Run(Start(sweepEvery), events).loop.Idle?
    ensures var s := Run(Start(sweepEvery), events);
            var t := Apply(s, Remove(path));
            path !in t.pending && (forall b :: Concerns(s, path, b) ==> Invalidated(t, b))
  {
    var s := Run(Start(sweepEvery), events);
    RunKeeps(Start(sweepEvery), events);
    DropForgets(s, path);
  }

  lemma DropForgets(s: Sys, path: string)
    requires Inv(s) && s.loop.Idle?
    ensures path !in Apply(s, Remove(path)).pending
    ensures forall b :: Concerns(s, path, b) ==> Invalidated(Apply(s, Remove(path)), b)
  {
    if path in s.pending {
      var t := Drop(s, path);
      forall b | Concerns(s, path, b) ensures Invalidated(Noted(Charge(t)), b) {
        SilencedSame(s.callbacks, s.entries[s.pending[path]], b);
        ChargeInvalidates(t, b);
      }
    }
  }

  // ---- the size of the map ----

  /** What the sweep guarantees: at most what it found unfired remains, and each event since added at most one. */
  ghost predicate Bounded(s: Sys) {
    && s.sweepEvery > 0 && |Unfired(s)| <= s.peak && s.base <= s.peak && s.tick < s.sweepEvery
    && match s.loop
       case Idle => |s.pending| <= s.base + s.tick
       case Sweeping(todo, keep) =>
         && s.tick == 0 && |s.pending| <= s.base + s.sweepEvery && |keep| <= s.peak
         && s.pending.Keys <= keep + todo && Unfired(s) <= keep
  }

  lemma NotedSame(s: Sys)
    ensures Unfired(Noted(s)) == Unfired(s) && |Unfired(s)| <= Noted(s).peak && s.peak <= Noted(s).peak
  {
  }

  lemma SweepStarts(s: Sys)
    requires s.sweepEvery > 0 && s.base <= s.peak && |s.pending| <= s.base + s.sweepEvery
    ensures Bounded(Noted(s.(tick := 0, loop := Sweeping(s.pending.Keys, Unfired(s)))))
  {
    var u := s.(tick := 0, loop := Sweeping(s.pending.Keys, Unfired(s)));
    assert Unfired(u) == Unfired(s);
    NotedSame(u);
  }

  /** Between two sweeps an event adds at most one entry, and the last one of the budget starts the next sweep. */
  lemma ChargeBounded(s: Sys, t: Sys)
    requires Bounded(s) && s.loop.Idle? && |t.pending| <= |s.pending| + 1
    requires t.tick == s.tick && t.sweepEvery == s.sweepEvery && t.loop == s.loop && t.base == s.base
             && t.peak == s.peak
    ensures Bounded(Noted(Charge(t)))
  {
    if t.tick + 1 >= t.sweepEvery && t.pending != map[] {
      SweepStarts(t);
    } else {
      NotedSame(Charge(t));
    }
  }

  lemma SubsetSize<T>(a: set<T>, b: set<T>)
    requires a <= b
    ensures |a| <= |b|
  {
    assert b == a + (b - a);
  }

  /** When the last key is visited, what is left was to be kept. */
  lemma SweptKeep(after: set<string>, before: set<string>, keep: set<string>, todo: set<string>, path: string)
    requires after <= before <= keep + todo && todo - {path} == {} && (path in after ==> path in keep)
    ensures after <= keep && |after| <= |keep|
  {
    forall p | p in after ensures p in keep {
      assert p in keep + todo && p !in todo - {path};
    }
    SubsetSize(after, keep);
  }

  lemma SweepShrinks(s: Sys, path: string)
    requires s.loop.Sweeping?
    ensures SweepNext(s, path).pending.Keys <= s.pending.Keys && Unfired(SweepNext(s, path)) <= Unfired(s)
    ensures path in SweepNext(s, path).pending ==> path in Unfired(s)
  {
  }

  lemma SweepBounded(s: Sys, path: string)
    requires Bounded(s) && s.loop.Sweeping? && path in s.loop.todo
    ensures Bounded(Noted(SweepNext(s, path)))
  {
    var t := SweepNext(s, path);
    SweepShrinks(s, path);
    SubsetSize(t.pending.Keys, s.pending.Keys);
    assert |t.pending| == |t.pending.Keys| && |s.pending| == |s.pending.Keys|;
    SubsetSize(Unfired(t), Unfired(s));
    NotedSame(t);
    if t.loop.Idle? {
      SweptKeep(t.pending.Keys, s.pending.Keys, s.loop.keep, s.loop.todo, path);
    }
  }

  /** A callback takes nothing out of the map and makes nothing unfired. */
  lemma CallbackShrinks(s: Sys, ev: Event)
    requires Enabled(s, ev) && !(ev.Write? || ev.Remove? || ev.Other? || ev.SweepOne?)
    ensures var t := CallbackStep(s, ev);
            && t.pending == s.pending && t.tick == s.tick && t.sweepEvery == s.sweepEvery && t.loop == s.loop
            && t.base == s.base && t.peak == s.peak && Unfired(t) <= Unfired(s)
  {
  }

  lemma CallbackBounded(s: Sys, ev: Event)
    requires Bounded(s) && Enabled(s, ev) && !(ev.Write? || ev.Remove? || ev.Other? || ev.SweepOne?)
    ensures Bounded(Noted(CallbackStep(s, ev)))
  {
    var t := CallbackStep(s, ev);
    CallbackShrinks(s, ev);
    SubsetSize(Unfired(t), Unfired(s));
    NotedSame(t);
  }

  lemma ApplyBounded(s: Sys, ev: Event)
    requires Bounded(s)
    ensures Bounded(Apply(s, ev))
  {
    if Enabled(s, ev) {
      match ev {
        case Write(path) => ChargeBounded(s, if path in s.pending then Rearm(s, path) else FirstArm(s, path));
        case Remove(path) =>
          if path in s.pending {
            SubsetSize((s.pending - {path}).Keys, s.pending.Keys);
            ChargeBounded(s, Drop(s, path));
          } else {
            ChargeBounded(s, s);
          }
        case Other => ChargeBounded(s, s);
        case SweepOne(path) => SweepBounded(s, path);
        case _ => CallbackBounded(s, ev);
      }
    }
  }

  lemma {:induction false} RunBounded(s: Sys, events: seq<Event>)
    requires Bounded(s)
    ensures Bounded(Run(s, events))
    decreases |events|
  {
    if events != [] {
      ApplyBounded(s, events[0]);
      RunBounded(Apply(s, events[0]), events[1..]);
    }
  }

  lemma {:induction false} RunLast(s: Sys, events: seq<Event>, last: Event)
    ensures Run(s, events + [last]) == Apply(Run(s, events), last)
    decreases |events|
  {
    if events == [] {
      assert events + [last] == [last] && [last][1..] == [];
    } else {
      assert (events + [last])[1..] == events[1..] + [last];
      RunLast(Apply(s, events[0]), events[1..], last);
    }
  }

  lemma PeakMoves(s: Sys, ev: Event)
    ensures Apply(s, ev).peak == s.peak || Apply(s, ev).peak == |Unfired(Apply(s, ev))|
  {
    if Enabled(s, ev) {
      if ev.Write? || ev.Remove? || ev.Other? || ev.SweepOne? { NotedSame(LoopStep(s, ev)); }
      else { NotedSame(CallbackStep(s, ev)); }
    }
  }

  /** The recorded peak is the number of unfired entries at some moment of the run. */
  lemma {:induction false} PeakWasReached(s: Sys, events: seq<Event>) returns (k: nat)
    requires s.peak == |Unfired(s)|
    ensures k <= |events| && Run(s, events).peak == |Unfired(Run(s, events[..k]))|
    decreases |events|
  {
    if events == [] { return 0; }
    var init, last := events[..|events| - 1], events[|events| - 1];
    assert events == init + [last] && events[..|events|] == events;
    RunLast(s, init, last);
    PeakMoves(Run(s, init), last);
    if Run(s, events).peak == |Unfired(Run(s, events))| { return |events|; }
    k := PeakWasReached(s, init);
    assert init[..k] == events[..k];
  }

  /** The map never holds more entries than were unfired at some moment so far, plus one budget of events. */
  lemma PendingBounded(sweepEvery: nat, events: seq<Event>)
    requires sweepEvery > 0
    ensures exists k :: 0 <= k <= |events| &&
              |Run(Start(sweepEvery), events).pending| <= |Unfired(Run(Start(sweepEvery), events[..k]))| + sweepEvery
  {
    assert Unfired(Start(sweepEvery)) == {};
    RunBounded(Start(sweepEvery), events);
    SameBudget(Start(sweepEvery), events);
    var k := PeakWasReached(Start(sweepEvery), events);
  }

  lemma {:induction false} SameBudget(s: Sys, events: seq<Event>)
    ensures Run(s, events).sweepEvery == s.sweepEvery
    decreases |events|
  {
    if events != [] {
      ApplyFrame(s, events[0]);
      SameBudget(Apply(s, events[0]), events[1..]);
    }
  }
}
