/** The debounced event loop of the watcher: one entry per hot file, a one-shot timer per generation, a
    cancellation channel per generation, and an amortised sweep of idle entries. Loop, timers and callbacks
    interleave freely; each step below runs under the locks that make it atomic. */
module Debounce {

  /** Where the callback of one armed timer stands. */
  datatype Stage =
    | Armed     // the timer has not fired
    | Started   // the callback runs, before its generation check
    | Flushing  // check passed, before the send's entry check
    | Checked   // entry check passed, the send not yet decided
    | Parked    // blocked in the send
    | Flushed   // the flush returned, before the callback's last step
    | Finished  // returned, or its timer was stopped

  datatype Callback = Callback(entry: nat, gen: nat, stage: Stage, chan: nat)

  datatype Entry = Entry(gen: nat, fired: bool, cancel: nat, timer: nat)

  /** The loop between two events, or in the middle of a sweep; `keep` remembers what the sweep found unfired. */
  datatype Loop = Idle | Sweeping(todo: set<string>, keep: set<string>)

  /** `removed`, `swept`, `delivered`, `base` and `peak` only record history: why an entry left the map, which
      callbacks delivered, what the last sweep kept, and the most unfired entries there ever were. */
  datatype Sys = Sys(pending: map<string, nat>, entries: map<nat, Entry>, callbacks: map<nat, Callback>,
                     closed: set<nat>, panicked: bool, next: nat, tick: nat, sweepEvery: nat, loop: Loop,
                     removed: set<nat>, swept: set<nat>, delivered: set<nat>, base: nat, peak: nat)

  function Start(sweepEvery: nat): Sys {
    Sys(map[], map[], map[], {}, false, 0, 0, sweepEvery, Idle, {}, {}, {}, 0, 0)
  }

  datatype Event =
    | Write(path: string) | Remove(path: string) | Other
    | SweepOne(path: string)
    | Fire(id: nat) | Check(id: nat) | GiveUp(id: nat) | EntryCheck(id: nat)
    | Park(id: nat) | Deliver(id: nat) | Abandon(id: nat) | Finish(id: nat)

  // ---- moves of the loop ----

  /** Stopping a timer has an effect only before it fires. */
  function StopTimer(callbacks: map<nat, Callback>, id: nat): map<nat, Callback> {
    if id in callbacks && callbacks[id].stage.Armed? then callbacks[id := callbacks[id].(stage := Finished)]
    else callbacks
  }

  /** Closing a channel releases whoever is parked on it. */
  function Wake(callbacks: map<nat, Callback>, chan: nat): map<nat, Callback> {
    map c | c in callbacks ::
      if callbacks[c].stage.Parked? && callbacks[c].chan == chan then callbacks[c].(stage := Flushed) else callbacks[c]
  }

  /** The callbacks after an entry's timer was stopped and its channel closed. */
  function Silenced(callbacks: map<nat, Callback>, p: Entry): map<nat, Callback> {
    Wake(StopTimer(callbacks, p.timer), p.cancel)
  }

  function NextGen(p: Entry, next: nat): Entry { Entry(p.gen + 1, false, next, next) }

  function Rearmed(callbacks: map<nat, Callback>, e: nat, p: Entry, next: nat): map<nat, Callback> {
    Silenced(callbacks, p)[next := Callback(e, p.gen + 1, Armed, 0)]
  }

  /** A later write to a pending file: a new generation, a new channel, a new timer. */
  function Rearm(s: Sys, path: string): Sys
    requires path in s.pending && s.pending[path] in s.entries
  {
    var e := s.pending[path];
    var p := s.entries[e];
    s.(entries := s.entries[e := NextGen(p, s.next)], callbacks := Rearmed(s.callbacks, e, p, s.next),
       closed := s.closed + {p.cancel}, panicked := s.panicked || p.cancel in s.closed, next := s.next + 1)
  }

  function FirstArm(s: Sys, path: string): Sys {
    s.(pending := s.pending[path := s.next],
       entries := s.entries[s.next := Entry(1, false, s.next, s.next)],
       callbacks := s.callbacks[s.next := Callback(s.next, 1, Armed, 0)],
       next := s.next + 1)
  }

  function Drop(s: Sys, path: string): Sys
    requires path in s.pending && s.pending[path] in s.entries
  {
    var e := s.pending[path];
    var p := s.entries[e];
    s.(pending := s.pending - {path}, callbacks := Silenced(s.callbacks, p), closed := s.closed + {p.cancel},
       panicked := s.panicked || p.cancel in s.closed, removed := s.removed + {e})
  }

  predicate Fired(s: Sys, path: string) {
    path in s.pending && s.pending[path] in s.entries && s.entries[s.pending[path]].fired
  }

  function Unfired(s: Sys): set<string> { set p | p in s.pending && !Fired(s, p) }

  /** Every event costs one tick; the last of a budget starts a sweep. */
  function Charge(s: Sys): Sys {
    if s.tick + 1 < s.sweepEvery then s.(tick := s.tick + 1)
    else if s.pending == map[] then s.(tick := 0, base := 0)
    else s.(tick := 0, loop := Sweeping(s.pending.Keys, Unfired(s)))
  }

  function SweepNext(s: Sys, path: string): Sys
    requires s.loop.Sweeping?
  {
    var t := if Fired(s, path) then s.(pending := s.pending - {path}, swept := s.swept + {s.pending[path]}) else s;
    var todo := s.loop.todo - {path};
    if todo == {} then t.(loop := Idle, base := |s.loop.keep|) else t.(loop := Sweeping(todo, s.loop.keep))
  }

  // ---- moves of a callback ----

  function At(s: Sys, id: nat, stage: Stage): Sys
    requires id in s.callbacks
  {
    s.(callbacks := s.callbacks[id := s.callbacks[id].(stage := stage)])
  }

  function CheckGen(s: Sys, id: nat): Sys
    requires id in s.callbacks && s.callbacks[id].entry in s.entries
  {
    var c := s.callbacks[id];
    var p := s.entries[c.entry];
    if c.gen != p.gen then At(s, id, Finished)
    else s.(callbacks := s.callbacks[id := c.(stage := Flushing, chan := p.cancel)])
  }

  function FinishFlush(s: Sys, id: nat): Sys
    requires id in s.callbacks && s.callbacks[id].entry in s.entries
  {
    var c := s.callbacks[id];
    var t := At(s, id, Finished);
    if c.gen == s.entries[c.entry].gen then t.(entries := s.entries[c.entry := s.entries[c.entry].(fired := true)])
    else t
  }

  // ---- steps ----

  predicate Ready(s: Sys, id: nat, stage: Stage) {
    id in s.callbacks && s.callbacks[id].entry in s.entries && s.callbacks[id].stage == stage
  }

  predicate Enabled(s: Sys, ev: Event) {
    match ev
    case Write(path) => s.loop.Idle? && (path in s.pending ==> s.pending[path] in s.entries)
    case Remove(path) => s.loop.Idle? && (path in s.pending ==> s.pending[path] in s.entries)
    case Other => s.loop.Idle?
    case SweepOne(path) => s.loop.Sweeping? && path in s.loop.todo
    case Fire(id) => Ready(s, id, Armed)
    case Check(id) => Ready(s, id, Started)
    // The file is gone or hot again, or another path claimed this version.
    case GiveUp(id) => Ready(s, id, Flushing)
    case EntryCheck(id) => Ready(s, id, Flushing)
    // No consumer is waiting and the channel is open.
    case Park(id) => Ready(s, id, Checked) && s.callbacks[id].chan !in s.closed
    case Deliver(id) => Ready(s, id, Checked) || Ready(s, id, Parked)
    // The context ends, or the channel was closed since the entry check.
    case Abandon(id) => Ready(s, id, Checked) || Ready(s, id, Parked)
    case Finish(id) => Ready(s, id, Flushed)
  }

  function LoopStep(s: Sys, ev: Event): Sys
    requires Enabled(s, ev) && (ev.Write? || ev.Remove? || ev.Other? || ev.SweepOne?)
  {
    match ev
    case Write(path) => Charge(if path in s.pending then Rearm(s, path) else FirstArm(s, path))
    case Remove(path) => Charge(if path in s.pending then Drop(s, path) else s)
    case Other => Charge(s)
    case SweepOne(path) => SweepNext(s, path)
  }

  function CallbackStep(s: Sys, ev: Event): Sys
    requires Enabled(s, ev) && !(ev.Write? || ev.Remove? || ev.Other? || ev.SweepOne?)
  {
    match ev
    case Fire(id) => At(s, id, Started)
    case Check(id) => CheckGen(s, id)
    case GiveUp(id) => At(s, id, Flushed)
    case EntryCheck(id) => At(s, id, if s.callbacks[id].chan in s.closed then Flushed else Checked)
    case Park(id) => At(s, id, Parked)
    case Deliver(id) => At(s, id, Flushed).(delivered := s.delivered + {id})
    case Abandon(id) => At(s, id, Flushed)
    case Finish(id) => FinishFlush(s, id)
  }

  function Noted(s: Sys): Sys { s.(peak := if |Unfired(s)| > s.peak then |Unfired(s)| else s.peak) }

  function Apply(s: Sys, ev: Event): Sys {
    if !Enabled(s, ev) then s
    else if ev.Write? || ev.Remove? || ev.Other? || ev.SweepOne? then Noted(LoopStep(s, ev))
    else Noted(CallbackStep(s, ev))
  }

  function Run(s: Sys, events: seq<Event>): Sys
    decreases |events|
  {
    if events == [] then s else Run(Apply(s, events[0]), events[1..])
  }
}
