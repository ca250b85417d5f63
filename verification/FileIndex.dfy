/** The last-writer guard of the file index: a row keeps the newest observation, by time and then by padded
    sequence, whatever order the notifications arrive in. */
module FileIndex {
  import opened Options

  /** The ordered part of a row. */
  datatype Row = Row(status: string, observedAt: int, seqNo: Option<string>, source: string)

  /** `now` is the database clock when the statement runs. */
  datatype Event =
    | Upsert(status: string, source: string, observed: int, seqNo: Option<string>, now: int)
    | Delete(source: string, observed: int, seqNo: Option<string>)

  // ---- ordering ----

  /** Padding with zeros on the left, or cutting on the right, to 32 characters. */
  function Lpad(s: string): (r: string)
    ensures |r| == 32
  {
    if |s| >= 32 then s[..32] else seq(32 - |s|, _ => '0') + s
  }

  predicate LexLe(a: string, b: string) {
    a == "" || (b != "" && (a[0] < b[0] || (a[0] == b[0] && LexLe(a[1..], b[1..]))))
  }

  lemma {:induction false} LexTotal(a: string, b: string)
    ensures LexLe(a, b) || LexLe(b, a)
    ensures LexLe(a, b) && LexLe(b, a) ==> a == b
  {
    if a != "" && b != "" {
      LexTotal(a[1..], b[1..]);
      assert a == [a[0]] + a[1..] && b == [b[0]] + b[1..];
    }
  }

  lemma {:induction false} LexTrans(a: string, b: string, c: string)
    requires LexLe(a, b) && LexLe(b, c)
    ensures LexLe(a, c)
  {
    if a != "" && b != "" && c != "" && a[0] == b[0] == c[0] { LexTrans(a[1..], b[1..], c[1..]); }
  }

  // ---- the statements ----

  predicate ServerTimed(source: string) { source == "agent" || source == "api" }

  /** The row a statement would write. */
  function Written(e: Event): Row {
    match e
    case Upsert(status, source, observed, seqNo, now) =>
      Row(status, if ServerTimed(source) then now else observed, seqNo, source)
    case Delete(source, observed, seqNo) => Row("deleted", observed, seqNo, source)
  }

  /** The guard both statements share. */
  predicate Passes(w: Row, row: Row) {
    w.observedAt > row.observedAt
    || (w.observedAt == row.observedAt
        && (w.seqNo.None? || row.seqNo.None? || LexLe(Lpad(row.seqNo.value), Lpad(w.seqNo.value))))
  }

  function Apply(row: Option<Row>, e: Event): Option<Row> {
    if row.None? then (if e.Upsert? then Some(Written(e)) else None)
    else if Passes(Written(e), row.value) then Some(Written(e))
    else row
  }

  function Run(row: Option<Row>, events: seq<Event>): Option<Row>
    decreases |events|
  {
    if events == [] then row else Run(Apply(row, events[0]), events[1..])
  }

  type Key = (string, string)

  /** The index table, one row per bucket and path. */
  class Index {
    var rows: map<Key, Row>

    function At(key: Key): Option<Row>
      reads this
    {
      if key in rows then Some(rows[key]) else None
    }

    /** Inserts, or updates under the guard; no row comes back when the guard refuses. */
    method UpsertIndexedFile(key: Key, e: Event) returns (r: Option<Row>)
      requires e.Upsert?
      modifies this
      ensures At(key) == Apply(old(At(key)), e) && rows - {key} == old(rows) - {key}
      ensures r == if old(At(key)).None? || Passes(Written(e), old(At(key)).value) then Some(Written(e)) else None
      ensures key in rows && (r.Some? ==> r.value.status == e.status && r.value.source == e.source)
      ensures r.Some? ==> r.value.seqNo == e.seqNo
      ensures r.Some? ==> r.value.observedAt == if e.source == "agent" || e.source == "api" then e.now else e.observed
    {
      if key in rows && !Passes(Written(e), rows[key]) { return None; }
      rows := rows[key := Written(e)];
      return Some(Written(e));
    }

    method DeleteIndexedFile(key: Key, e: Event) returns (r: Option<Row>)
      requires e.Delete?
      modifies this
      ensures At(key) == Apply(old(At(key)), e) && rows - {key} == old(rows) - {key}
      ensures r == if old(At(key)).Some? && Passes(Written(e), old(At(key)).value) then Some(Written(e)) else None
      ensures key in rows <==> key in old(rows)
      ensures r.Some? ==> r.value == Row("deleted", e.observed, e.seqNo, e.source)
    {
      if key !in rows || !Passes(Written(e), rows[key]) { return None; }
      rows := rows[key := Written(e)];
      return Some(Written(e));
    }

    /** Returns the current row, and whether the write was suppressed as stale. */
    method UpsertObservedFile(key: Key, e: Event) returns (entry: Option<Row>, suppressed: bool)
      requires e.Upsert?
      modifies this
      ensures At(key) == Apply(old(At(key)), e) && rows - {key} == old(rows) - {key}
      ensures entry == At(key) && entry.Some?
      ensures suppressed <==> old(At(key)).Some? && !Passes(Written(e), old(At(key)).value)
      ensures suppressed ==> At(key) == old(At(key))
    {
      entry := UpsertIndexedFile(key, e);
      if entry.Some? { return entry, false; }
      return At(key), true;
    }

    /** Tells a stale deletion from one of an absent file; only the third case changed anything. */
    method MarkObservedFileDeleted(key: Key, e: Event) returns (entry: Option<Row>, suppressed: bool, exists': bool)
      requires e.Delete?
      modifies this
      ensures At(key) == Apply(old(At(key)), e) && rows - {key} == old(rows) - {key}
      ensures entry == At(key) && (exists' <==> old(At(key)).Some?)
      ensures suppressed <==> old(At(key)).Some? && !Passes(Written(e), old(At(key)).value)
      ensures if suppressed || !exists' then At(key) == old(At(key)) else entry.Some? && entry.value.status == "deleted"
    {
      entry := DeleteIndexedFile(key, e);
      if entry.Some? { return entry, false, true; }
      entry := At(key);
      if entry.None? { return None, false, false; }
      return entry, true, true;
    }
  }

  // ---- convergence ----

  function Writes(events: seq<Event>): set<Row> { set i | 0 <= i < |events| :: Written(events[i]) }

  /** The same notifications, in any order and any number of times; the database clock may differ where it is not
      used. */
  predicate SameSet(events: seq<Event>, events': seq<Event>) { Writes(events) == Writes(events') }

  lemma WritesNext(events: seq<Event>, e: Event)
    ensures Writes(events + [e]) == Writes(events) + {Written(e)}
  {
    forall w | w in Writes(events) + {Written(e)} ensures w in Writes(events + [e]) {
      if w in Writes(events) {
        var i :| 0 <= i < |events| && Written(events[i]) == w;
        assert (events + [e])[i] == events[i];
      } else {
        assert (events + [e])[|events|] == e;
      }
    }
  }

  /** The padded sequence of `v` is not after that of `w`; both are present. */
  predicate SeqLe(v: Row, w: Row) { v.seqNo.Some? && w.seqNo.Some? && LexLe(Lpad(v.seqNo.value), Lpad(w.seqNo.value)) }

  lemma SeqLeTrans(u: Row, v: Row, w: Row)
    requires SeqLe(u, v) && SeqLe(v, w)
    ensures SeqLe(u, w)
  {
    LexTrans(Lpad(u.seqNo.value), Lpad(v.seqNo.value), Lpad(w.seqNo.value));
  }

  lemma SeqLeTotal(v: Row, w: Row)
    requires v.seqNo.Some? && w.seqNo.Some?
    ensures SeqLe(v, w) || SeqLe(w, v)
  {
    LexTotal(Lpad(v.seqNo.value), Lpad(w.seqNo.value));
  }

  /** Written at the latest time of all, which is not before the row's. */
  ghost predicate Latest(row: Row, writes: set<Row>, w: Row) {
    w in writes && w.observedAt >= row.observedAt && forall v :: v in writes ==> v.observedAt <= w.observedAt
  }

  ghost predicate AllNumbered(row: Row, writes: set<Row>) { forall w :: Latest(row, writes, w) ==> w.seqNo.Some? }

  /** The last of the latest by sequence, if the row lets it through. */
  ghost predicate Top(row: Row, writes: set<Row>, w: Row) {
    Latest(row, writes, w) && Passes(w, row) && forall v :: Latest(row, writes, v) ==> SeqLe(v, w)
  }

  /** What a run can end in: the old row if no event gets past it; otherwise one of the latest, and a top if all of
      those have a sequence. */
  ghost predicate Outcome(row: Row, writes: set<Row>, r: Row) {
    || (r == row && forall w :: w in writes ==> !Passes(w, row))
    || (Latest(row, writes, r) && (AllNumbered(row, writes) ==> Top(row, writes, r)))
  }

  lemma FirstPasses(row: Row, writes: set<Row>, w: Row)
    requires forall v :: v in writes ==> !Passes(v, row)
    requires Passes(w, row)
    ensures Outcome(row, writes + {w}, w)
  {
    var all := writes + {w};
    assert Latest(row, all, w);
    if AllNumbered(row, all) {
      forall v | Latest(row, all, v) ensures SeqLe(v, w) {
        SeqLeTotal(v, w);
        if v != w && !SeqLe(v, w) {
          SeqLeTotal(v, row);
          SeqLeTrans(row, w, v);
        }
      }
    }
  }

  lemma LaterPasses(row: Row, writes: set<Row>, r: Row, w: Row)
    requires Latest(row, writes, r) && (AllNumbered(row, writes) ==> Top(row, writes, r)) && Passes(w, r)
    ensures Outcome(row, writes + {w}, w)
  {
    var all := writes + {w};
    assert Latest(row, all, w);
    if AllNumbered(row, all) {
      SeqLeTotal(w, w);
      if w.observedAt == r.observedAt {
        assert forall v :: Latest(row, writes, v) ==> Latest(row, all, v);
        forall v | Latest(row, all, v) ensures SeqLe(v, w) { if v != w { SeqLeTrans(v, r, w); } }
        if row.seqNo.Some? && row.observedAt == w.observedAt { SeqLeTrans(row, r, w); }
      } else {
        assert forall v :: Latest(row, all, v) ==> v == w;
      }
    }
  }

  lemma LaterRefused(row: Row, writes: set<Row>, r: Row, w: Row)
    requires Latest(row, writes, r) && (AllNumbered(row, writes) ==> Top(row, writes, r)) && !Passes(w, r)
    ensures Outcome(row, writes + {w}, r)
  {
    var all := writes + {w};
    assert Latest(row, all, r);
    if AllNumbered(row, all) {
      assert forall v :: Latest(row, writes, v) ==> Latest(row, all, v);
      forall v | Latest(row, all, v) ensures SeqLe(v, r) { if v == w { SeqLeTotal(w, r); } }
    }
  }

  lemma {:induction false} RunLast(row: Option<Row>, events: seq<Event>, e: Event)
    ensures Run(row, events + [e]) == Apply(Run(row, events), e)
    decreases |events|
  {
    if events == [] {
      assert events + [e] == [e] && [e][1..] == [];
    } else {
      assert (events + [e])[1..] == events[1..] + [e];
      RunLast(Apply(row, events[0]), events[1..], e);
    }
  }

  /** Every run ends in such an outcome of what was written, whatever sequences are missing. */
  lemma {:induction false} RunOutcome(row: Row, events: seq<Event>)
    ensures Run(Some(row), events).Some? && Outcome(row, Writes(events), Run(Some(row), events).value)
    decreases |events|
  {
    if events != [] {
      var init, e := events[..|events| - 1], events[|events| - 1];
      assert events == init + [e];
      RunOutcome(row, init);
      RunLast(Some(row), init, e);
      WritesNext(init, e);
      var r, w := Run(Some(row), init).value, Written(e);
      if Latest(row, Writes(init), r) && (AllNumbered(row, Writes(init)) ==> Top(row, Writes(init), r)) {
        if Passes(w, r) { LaterPasses(row, Writes(init), r, w); } else { LaterRefused(row, Writes(init), r, w); }
      } else if Passes(w, row) {
        FirstPasses(row, Writes(init), w);
      }
    }
  }

  /** The latest writes are one and the same if one of them lacks a sequence; otherwise the tops are. */
  ghost predicate Agree(row: Row, writes: set<Row>) {
    if AllNumbered(row, writes)
    then forall v, w :: Top(row, writes, v) && Top(row, writes, w) ==> v == w
    else forall v, w :: Latest(row, writes, v) && Latest(row, writes, w) ==> v == w
  }

  lemma OutcomeIsUnique(row: Row, writes: set<Row>, r: Row, r': Row)
    requires Agree(row, writes) && Outcome(row, writes, r) && Outcome(row, writes, r')
    ensures r == r'
  {
    if !AllNumbered(row, writes) {
      var u :| Latest(row, writes, u) && u.seqNo.None?;
      assert Passes(u, row);
    }
  }

  /** Any order, with any redelivery, ends in the same row. */
  lemma Converges(row: Row, events: seq<Event>, events': seq<Event>)
    requires SameSet(events, events') && Agree(row, Writes(events))
    ensures Run(Some(row), events') == Run(Some(row), events)
  {
    RunOutcome(row, events);
    RunOutcome(row, events');
    OutcomeIsUnique(row, Writes(events), Run(Some(row), events).value, Run(Some(row), events').value);
  }

  // ---- the same events in another order ----

  predicate Reordered(events: seq<Event>, other: seq<Event>) { multiset(other) == multiset(events) }

  lemma ReorderedWrites(events: seq<Event>, other: seq<Event>)
    requires Reordered(events, other)
    ensures Writes(events) <= Writes(other)
  {
    forall w | w in Writes(events) ensures w in Writes(other) {
      var i :| 0 <= i < |events| && Written(events[i]) == w;
      assert events[i] in multiset(other);
      var j :| 0 <= j < |other| && other[j] == events[i];
    }
  }

  lemma ReorderedIsSame(events: seq<Event>, other: seq<Event>)
    requires Reordered(events, other)
    ensures SameSet(events, other)
  {
    ReorderedWrites(events, other);
    ReorderedWrites(other, events);
  }

  /** Takes out one event that writes `w`. */
  lemma TakeOut(events: seq<Event>, w: Row) returns (rest: seq<Event>, e: Event)
    requires w in Writes(events)
    ensures Written(e) == w && Reordered(events, rest + [e])
    ensures Writes(events) == Writes(rest) + {w}
  {
    var i :| 0 <= i < |events| && Written(events[i]) == w;
    rest, e := events[..i] + events[i + 1..], events[i];
    assert events == events[..i] + [e] + events[i + 1..];
    ReorderedIsSame(events, rest + [e]);
    WritesNext(rest, e);
  }

  /** What was left out last gets past whatever the others end in. */
  lemma PassesLast(row: Row, events: seq<Event>, rest: seq<Event>, w: Row)
    requires Writes(rest) <= Writes(events) && Latest(row, Writes(events), w)
    requires w.seqNo.None? || (AllNumbered(row, Writes(events)) && Top(row, Writes(events), w))
    ensures Run(Some(row), rest).Some? && Passes(w, Run(Some(row), rest).value)
  {
    RunOutcome(row, rest);
    var r := Run(Some(row), rest).value;
    if r != row && r.observedAt == w.observedAt { assert Latest(row, Writes(events), r); }
  }

  /** A top, or an unnumbered one of the latest, is what remains if it comes last. */
  lemma ComesLast(row: Row, events: seq<Event>, w: Row) returns (other: seq<Event>)
    requires Latest(row, Writes(events), w)
    requires w.seqNo.None? || (AllNumbered(row, Writes(events)) && Top(row, Writes(events), w))
    ensures Reordered(events, other) && Run(Some(row), other) == Some(w)
  {
    var rest, e := TakeOut(events, w);
    PassesLast(row, events, rest, w);
    RunLast(Some(row), rest, e);
    other := rest + [e];
  }

  /** Right after an unnumbered one of the latest, any other of the latest is what remains. */
  lemma ComesAfterUnnumbered(row: Row, events: seq<Event>, u: Row, w: Row) returns (other: seq<Event>)
    requires Latest(row, Writes(events), u) && u.seqNo.None? && Latest(row, Writes(events), w) && u != w
    ensures Reordered(events, other) && Run(Some(row), other) == Some(w)
  {
    var some, e := TakeOut(events, w);
    var rest, d := TakeOut(some, u);
    PassesLast(row, events, rest, u);
    RunLast(Some(row), rest, d);
    RunLast(Some(row), rest + [d], e);
    assert Passes(w, u);
    assert multiset(rest + [d] + [e]) == multiset(rest + [d]) + multiset{e} == multiset(some) + multiset{e};
    assert multiset(some + [e]) == multiset(some) + multiset{e};
    other := rest + [d] + [e];
  }

  /** Any of the latest can be the one that remains, if one of them is unnumbered. */
  lemma AnyLatestRemains(row: Row, events: seq<Event>, u: Row, w: Row) returns (other: seq<Event>)
    requires Latest(row, Writes(events), u) && u.seqNo.None? && Latest(row, Writes(events), w)
    ensures Reordered(events, other) && Run(Some(row), other) == Some(w)
  {
    if u == w { other := ComesLast(row, events, w); } else { other := ComesAfterUnnumbered(row, events, u, w); }
  }

  ghost predicate OrderIsIdle(row: Row, events: seq<Event>) {
    forall other :: Reordered(events, other) ==> Run(Some(row), other) == Run(Some(row), events)
  }

  ghost predicate RedeliveryIsIdle(row: Row, events: seq<Event>) {
    forall other :: SameSet(events, other) ==> Run(Some(row), other) == Run(Some(row), events)
  }

  lemma IdleAgrees(row: Row, events: seq<Event>)
    requires OrderIsIdle(row, events)
    ensures Agree(row, Writes(events))
  {
    if AllNumbered(row, Writes(events)) {
      forall v, w | Top(row, Writes(events), v) && Top(row, Writes(events), w) ensures v == w {
        var _ := ComesLast(row, events, v);
        var _ := ComesLast(row, events, w);
      }
    } else {
      var u :| Latest(row, Writes(events), u) && u.seqNo.None?;
      forall v, w | Latest(row, Writes(events), v) && Latest(row, Writes(events), w) ensures v == w {
        var _ := AnyLatestRemains(row, events, u, v);
        var _ := AnyLatestRemains(row, events, u, w);
      }
    }
  }

  /** For all events and every starting row: the order of the events does not matter exactly when the latest agree,
      and then redelivery does not matter either. */
  lemma ConvergesIffAgree(row: Row, events: seq<Event>)
    ensures Agree(row, Writes(events)) <==> OrderIsIdle(row, events)
    ensures Agree(row, Writes(events)) <==> RedeliveryIsIdle(row, events)
  {
    if Agree(row, Writes(events)) {
      forall other | SameSet(events, other) ensures Run(Some(row), other) == Run(Some(row), events) {
        Converges(row, events, other);
      }
    }
    if Agree(row, Writes(events)) || RedeliveryIsIdle(row, events) {
      forall other | Reordered(events, other) ensures Run(Some(row), other) == Run(Some(row), events) {
        ReorderedIsSame(events, other);
      }
    }
    if OrderIsIdle(row, events) { IdleAgrees(row, events); }
  }

  /** Sequences present, and distinct observation times or padded sequences, are enough. */
  lemma DistinctAgree(row: Row, writes: set<Row>)
    requires forall w :: w in writes ==> w.seqNo.Some?
    requires forall v, w :: v in writes && w in writes && v != w ==>
               v.observedAt != w.observedAt || Lpad(v.seqNo.value) != Lpad(w.seqNo.value)
    ensures Agree(row, writes)
  {
    forall v, w | Top(row, writes, v) && Top(row, writes, w) ensures v == w {
      LexTotal(Lpad(v.seqNo.value), Lpad(w.seqNo.value));
    }
  }

  /** An unnumbered event among the latest makes the order matter unless it is the only one of them. */
  lemma UnnumberedDependsOnOrder(row: Row, events: seq<Event>, u: Row, w: Row)
    requires Latest(row, Writes(events), u) && u.seqNo.None? && Latest(row, Writes(events), w) && u != w
    ensures exists other :: Reordered(events, other) && Run(Some(row), other) != Run(Some(row), events)
  {
    var a := AnyLatestRemains(row, events, u, u);
    var b := AnyLatestRemains(row, events, u, w);
  }

  /** The observation time never goes back, whatever the sequences are. */
  lemma {:induction false} ObservedNeverDecreases(row: Row, events: seq<Event>)
    ensures Run(Some(row), events).Some? && Run(Some(row), events).value.observedAt >= row.observedAt
    decreases |events|
  {
    if events != [] { ObservedNeverDecreases(Apply(Some(row), events[0]).value, events[1..]); }
  }
}
