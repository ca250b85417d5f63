/** The padded text order of event sequences is their numeric order. */
module SequenceOrder {
  import opened Options
  import opened Decimal
  import opened FileIndex

  /** A digit below `base`, with `ten` as the first letter: '0' to '9', then `ten` onwards. */
  predicate DigitBelow(c: char, ten: char, base: nat) {
    if c <= '9' then '0' <= c && c as int - '0' as int < base else ten <= c && c as int - ten as int + 10 < base
  }

  function DigitOf(c: char, ten: char, base: nat): nat
    requires DigitBelow(c, ten, base)
  {
    if c <= '9' then c as int - '0' as int else c as int - ten as int + 10
  }

  predicate Numeral(s: string, ten: char, base: nat) { forall i :: 0 <= i < |s| ==> DigitBelow(s[i], ten, base) }

  /** The number a numeral stands for. */
  function NumberOf(s: string, ten: char, base: nat): nat
    requires Numeral(s, ten, base)
  {
    if s == "" then 0 else base * NumberOf(s[..|s| - 1], ten, base) + DigitOf(s[|s| - 1], ten, base)
  }

  // ---- zeros in front ----

  function NoughtsBefore(n: nat, s: string): string { seq(n, _ => '0') + s }

  lemma {:induction false} NoughtsCount(n: nat, ten: char, base: nat)
    requires base > 0
    ensures Numeral(NoughtsBefore(n, ""), ten, base) && NumberOf(NoughtsBefore(n, ""), ten, base) == 0
  {
    var z := NoughtsBefore(n, "");
    if n > 0 {
      assert z[..|z| - 1] == NoughtsBefore(n - 1, "");
      NoughtsCount(n - 1, ten, base);
    }
  }

  lemma {:induction false} NoughtsAddNothing(n: nat, s: string, ten: char, base: nat)
    requires base > 0 && Numeral(s, ten, base)
    ensures Numeral(NoughtsBefore(n, s), ten, base)
    ensures NumberOf(NoughtsBefore(n, s), ten, base) == NumberOf(s, ten, base)
  {
    var z := NoughtsBefore(n, s);
    assert forall i :: 0 <= i < |z| ==> z[i] == '0' || (i >= n && z[i] == s[i - n]);
    if s == "" {
      NoughtsCount(n, ten, base);
    } else {
      assert z[..|z| - 1] == NoughtsBefore(n, s[..|s| - 1]) && z[|z| - 1] == s[|s| - 1];
      NoughtsAddNothing(n, s[..|s| - 1], ten, base);
    }
  }

  // ---- text order and numeric order ----

  lemma {:induction false} LexLast(a: string, b: string, c: char, d: char)
    requires |a| == |b|
    ensures LexLe(a + [c], b + [d]) <==> if a == b then c <= d else LexLe(a, b)
  {
    if a != "" {
      assert (a + [c])[1..] == a[1..] + [c] && (b + [d])[1..] == b[1..] + [d];
      assert a == [a[0]] + a[1..] && b == [b[0]] + b[1..];
      LexLast(a[1..], b[1..], c, d);
    }
  }

  lemma Carry(x: nat, y: nat, c: nat, d: nat, base: nat)
    requires c < base && d < base
    ensures base * x + c <= base * y + d <==> if x == y then c <= d else x < y
  {
    if x < y { assert base * (x + 1) <= base * y; }
    if y < x { assert base * (y + 1) <= base * x; }
  }

  lemma {:induction false} EqualLengths(a: string, b: string, ten: char, base: nat)
    requires '9' < ten && |a| == |b| && Numeral(a, ten, base) && Numeral(b, ten, base)
    ensures LexLe(a, b) <==> NumberOf(a, ten, base) <= NumberOf(b, ten, base)
    decreases |a|
  {
    if a != "" {
      var x, y, c, d := a[..|a| - 1], b[..|b| - 1], a[|a| - 1], b[|b| - 1];
      assert a == x + [c] && b == y + [d];
      LexLast(x, y, c, d);
      EqualLengths(x, y, ten, base);
      EqualLengths(y, x, ten, base);
      LexTotal(x, y);
      Carry(NumberOf(x, ten, base), NumberOf(y, ten, base), DigitOf(c, ten, base), DigitOf(d, ten, base), base);
    }
  }

  /** Numerals of up to 32 digits, in any base up to 36 and either case, are ordered by their padding as by their
      numbers. */
  lemma PaddingIsNumeric(a: string, b: string, ten: char, base: nat)
    requires '9' < ten && base > 0 && |a| <= 32 && |b| <= 32 && Numeral(a, ten, base) && Numeral(b, ten, base)
    ensures LexLe(Lpad(a), Lpad(b)) <==> NumberOf(a, ten, base) <= NumberOf(b, ten, base)
  {
    NoughtsAddNothing(32 - |a|, a, ten, base);
    NoughtsAddNothing(32 - |b|, b, ten, base);
    assert Lpad(a) == NoughtsBefore(32 - |a|, a) && Lpad(b) == NoughtsBefore(32 - |b|, b);
    EqualLengths(Lpad(a), Lpad(b), ten, base);
  }

  lemma {:induction false} DecimalNumber(s: string)
    requires AllDigits(s)
    ensures Numeral(s, 'A', 10) && NumberOf(s, 'A', 10) == ToNat(s)
  {
    if s != "" { DecimalNumber(s[..|s| - 1]); }
  }

  /** In particular decimal numerals. */
  lemma DecimalOrder(a: string, b: string)
    requires AllDigits(a) && AllDigits(b) && |a| <= 32 && |b| <= 32
    ensures LexLe(Lpad(a), Lpad(b)) <==> ToNat(a) <= ToNat(b)
  {
    DecimalNumber(a);
    DecimalNumber(b);
    PaddingIsNumeric(a, b, 'A', 10);
  }

  // ---- what remains in the index ----

  ghost predicate Numbered(w: Row, ten: char, base: nat) {
    w.seqNo.Some? && |w.seqNo.value| <= 32 && Numeral(w.seqNo.value, ten, base)
  }

  /** Not after: by time, and at the same time by number. */
  ghost predicate NotAfter(v: Row, w: Row, ten: char, base: nat)
    requires Numbered(v, ten, base) && Numbered(w, ten, base)
  {
    || v.observedAt < w.observedAt
    || (v.observedAt == w.observedAt && NumberOf(v.seqNo.value, ten, base) <= NumberOf(w.seqNo.value, ten, base))
  }

  lemma PassesIffNotAfter(w: Row, row: Row, ten: char, base: nat)
    requires '9' < ten && base > 0 && Numbered(w, ten, base) && Numbered(row, ten, base)
    ensures Passes(w, row) <==> NotAfter(row, w, ten, base)
  {
    PaddingIsNumeric(row.seqNo.value, w.seqNo.value, ten, base);
  }

  /** However numbered events arrive, what remains is the old row or something that was written, and nothing of the
      two is after it: it has the latest time, and among those the numerically largest sequence. */
  lemma LargestRemains(row: Row, events: seq<Event>, ten: char, base: nat)
    requires '9' < ten && base > 0 && Numbered(row, ten, base)
    requires forall w :: w in Writes(events) ==> Numbered(w, ten, base)
    ensures Run(Some(row), events).Some?
    ensures var r := Run(Some(row), events).value;
            && (r == row || r in Writes(events)) && NotAfter(row, r, ten, base)
            && (forall w :: w in Writes(events) ==> NotAfter(w, r, ten, base))
  {
    RunOutcome(row, events);
    var writes, r := Writes(events), Run(Some(row), events).value;
    if r == row && forall w :: w in writes ==> !Passes(w, row) {
      forall w | w in writes ensures NotAfter(w, r, ten, base) { PassesIffNotAfter(w, row, ten, base); }
    } else {
      TopIsLargest(row, writes, r, ten, base);
    }
  }

  lemma TopIsLargest(row: Row, writes: set<Row>, r: Row, ten: char, base: nat)
    requires '9' < ten && base > 0 && Numbered(row, ten, base) && Top(row, writes, r)
    requires forall w :: w in writes ==> Numbered(w, ten, base)
    ensures NotAfter(row, r, ten, base) && forall w :: w in writes ==> NotAfter(w, r, ten, base)
  {
    PassesIffNotAfter(r, row, ten, base);
    forall w | w in writes ensures NotAfter(w, r, ten, base) {
      if w.observedAt == r.observedAt {
        assert Latest(row, writes, w);
        PaddingIsNumeric(w.seqNo.value, r.seqNo.value, ten, base);
      }
    }
  }
}
