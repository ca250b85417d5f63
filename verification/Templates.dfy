/** Which patterns are templates, and which values a template can be filled with. */
module Templates {
  import opened Decimal
  import opened Fields
  import opened Patterns
  import opened PartialComposition

  /** The pattern is the segments one after another: a text without braces, never two in a row, or a field between
      its braces, read by `parse`. */
  ghost predicate Spells(parse: FieldReader, p: string, segs: seq<Segment>)
    decreases |segs|
  {
    if segs == [] then p == "" else
    match segs[0]
    case Literal(t) =>
      && t != "" && BraceFree(t) && t <= p && (|segs| > 1 ==> segs[1].Field?) && Spells(parse, p[|t|..], segs[1..])
    case Field(f) => exists end :: FieldEndsAt(parse, p, f, end) && Spells(parse, p[end + 1..], segs[1..])
  }

  ghost predicate FieldEndsAt(parse: FieldReader, p: string, f: FieldSpec, end: nat) {
    0 < end < |p| && p[0] == '{' && p[end] == '}' && '}' !in p[1..end] && parse(p[1..end]) == Ok(f)
  }

  lemma TailStarts(parse: FieldReader, p: string, segs: seq<Segment>)
    requires Spells(parse, p, segs) && (segs == [] || segs[0].Field?)
    ensures p == "" || p[0] == '{'
  {
  }

  /** A text without braces up to the end or to a field is cut off as it stands. */
  lemma TextParses(parse: FieldReader, p: string, i: nat, end: nat, rest: seq<Segment>)
    requires i < end <= |p| && PlainRange(p, i, end) && (end < |p| ==> p[end] == '{')
    requires Yields(parse, p, end, Ok(rest))
    ensures Yields(parse, p, i, Ok([Literal(p[i..end])] + rest))
  {
    FindSkips(p, '{', i, end);
    FindSkips(p, '}', i, end);
    if end < |p| {
      assert Find(p, '{', end) == end;
      CutsText(parse, p, i, end);
    } else {
      assert p[i..end] == p[i..] && [Literal(p[i..])] + rest == [Literal(p[i..])];
    }
  }

  /** Where the first segment ends: a text before a field, or the brace of a field. */
  ghost predicate Heads(parse: FieldReader, p: string, i: nat, seg: Segment, next: nat) {
    i < next <= |p| &&
    match seg
    case Literal(t) => PlainRange(p, i, next) && t == p[i..next] && (next < |p| ==> p[next] == '{')
    case Field(f) =>
      i + 2 <= next && var content := p[i + 1..next - 1];
      p[i..next] == "{" + content + "}" && '}' !in content && parse(content) == Ok(f)
  }

  lemma SpelledText(parse: FieldReader, p: string, i: nat, segs: seq<Segment>, next: nat)
    requires i < |p| && segs != [] && segs[0].Literal? && Spells(parse, p[i..], segs) && next == i + |segs[0].text|
    ensures Heads(parse, p, i, segs[0], next) && Spells(parse, p[next..], segs[1..])
  {
    var t := segs[0].text;
    assert t == p[i..][..|t|] == p[i..next] && p[i..][|t|..] == p[next..];
    forall k | i <= k < next ensures p[k] != '{' && p[k] != '}' { assert p[k] == t[k - i]; }
    TailStarts(parse, p[next..], segs[1..]);
    assert next < |p| ==> p[next..][0] == p[next];
  }

  lemma SpelledField(parse: FieldReader, p: string, i: nat, segs: seq<Segment>) returns (next: nat)
    requires i < |p| && segs != [] && segs[0].Field? && Spells(parse, p[i..], segs)
    ensures Heads(parse, p, i, segs[0], next) && Spells(parse, p[next..], segs[1..])
  {
    var q := p[i..];
    var end: nat :| FieldEndsAt(parse, q, segs[0].field, end) && Spells(parse, q[end + 1..], segs[1..]);
    next := i + end + 1;
    assert q[end + 1..] == p[next..];
    FieldHeads(parse, p, i, segs[0].field, end);
  }

  lemma FieldHeads(parse: FieldReader, p: string, i: nat, f: FieldSpec, end: nat)
    requires i <= |p| && FieldEndsAt(parse, p[i..], f, end)
    ensures Heads(parse, p, i, Field(f), i + end + 1)
  {
    var q := p[i..];
    assert q[1..end] == p[i + 1..i + end] && q[..end + 1] == p[i..i + end + 1];
    assert q[..end + 1] == [q[0]] + q[1..end] + [q[end]];
  }

  lemma SpelledIsLong(parse: FieldReader, p: string, segs: seq<Segment>)
    requires Spells(parse, p, segs) && segs != []
    ensures p != ""
  {
  }

  lemma HeadAndTail(segs: seq<Segment>)
    requires segs != []
    ensures [segs[0]] + segs[1..] == segs
  {
  }

  lemma {:induction false} SpelledIsParsed(parse: FieldReader, p: string, i: nat, segs: seq<Segment>)
    requires i <= |p| && Spells(parse, p[i..], segs)
    ensures Yields(parse, p, i, Ok(segs))
    decreases |segs|
  {
    if segs == [] {
      EndYields(parse, p);
    } else {
      SpelledIsLong(parse, p[i..], segs);
      var next, rest := SpelledHead(parse, p, i, segs);
      SpelledIsParsed(parse, p, next, rest);
      HeadParses(parse, p, i, segs, next, rest);
    }
  }

  lemma SpelledHead(parse: FieldReader, p: string, i: nat, segs: seq<Segment>) returns (next: nat, rest: seq<Segment>)
    requires i < |p| && segs != [] && Spells(parse, p[i..], segs)
    ensures rest == segs[1..] && Heads(parse, p, i, segs[0], next) && Spells(parse, p[next..], rest)
  {
    rest := segs[1..];
    if segs[0].Literal? {
      next := i + |segs[0].text|;
      SpelledText(parse, p, i, segs, next);
    } else {
      next := SpelledField(parse, p, i, segs);
    }
  }

  lemma HeadParses(parse: FieldReader, p: string, i: nat, segs: seq<Segment>, next: nat, rest: seq<Segment>)
    requires segs != [] && rest == segs[1..] && Heads(parse, p, i, segs[0], next) && Yields(parse, p, next, Ok(rest))
    ensures Yields(parse, p, i, Ok(segs))
  {
    HeadAndTail(segs);
    match segs[0] {
      case Literal(_) => TextParses(parse, p, i, next, rest);
      case Field(_) => FieldStep(parse, p, i, p[i + 1..next - 1], Ok(rest));
    }
  }

  /** What the parser cut off in front. */
  lemma ParsedText(parse: FieldReader, p: string, i: nat, open: nat, segs: seq<Segment>) returns (rest: seq<Segment>)
    requires i < open < |p| && open == Find(p, '{', i) && Yields(parse, p, i, Ok(segs))
    ensures segs == [Literal(p[i..open])] + rest && Yields(parse, p, open, Ok(rest)) && rest != [] && rest[0].Field?
  {
    CutsText(parse, p, i, open);
    rest := ParseFrom(parse, p, open).value;
    FieldFirst(parse, p, open);
  }

  lemma ParsedField(parse: FieldReader, p: string, i: nat, segs: seq<Segment>)
    returns (end: nat, f: FieldSpec, rest: seq<Segment>)
    requires i < |p| && p[i] == '{' && Yields(parse, p, i, Ok(segs))
    ensures end == Find(p, '}', i + 1) && parse(p[i + 1..end]) == Ok(f)
    ensures segs == [Field(f)] + rest && Yields(parse, p, end + 1, Ok(rest))
  {
    assert Find(p, '{', i) == i;
    end := Find(p, '}', i + 1);
    f := parse(p[i + 1..end]).value;
    rest := ParseFrom(parse, p, end + 1).value;
  }

  lemma TextSpells(parse: FieldReader, p: string, i: nat, end: nat, rest: seq<Segment>)
    requires i < end <= |p| && BraceFree(p[i..end]) && Spells(parse, p[end..], rest) && (rest != [] ==> rest[0].Field?)
    ensures Spells(parse, p[i..], [Literal(p[i..end])] + rest)
  {
    var segs, t := [Literal(p[i..end])] + rest, p[i..end];
    assert p[i..] == t + p[end..] && p[i..][|t|..] == p[end..] && segs[1..] == rest;
  }

  lemma FieldSpells(parse: FieldReader, p: string, i: nat, end: nat, f: FieldSpec, rest: seq<Segment>)
    requires i < |p| && p[i] == '{' && end == Find(p, '}', i + 1) && parse(p[i + 1..end]) == Ok(f)
    requires Spells(parse, p[end + 1..], rest)
    ensures Spells(parse, p[i..], [Field(f)] + rest)
  {
    var q, n, segs := p[i..], end - i, [Field(f)] + rest;
    assert q[0] == '{' && q[n] == '}' && q[1..n] == p[i + 1..end] && q[n + 1..] == p[end + 1..] && segs[1..] == rest;
    assert '}' !in q[1..n] by { assert forall k :: 0 <= k < n - 1 ==> q[1..n][k] == p[i + 1 + k]; }
    assert FieldEndsAt(parse, q, f, n);
  }

  lemma RestSpells(parse: FieldReader, p: string, i: nat, segs: seq<Segment>)
    requires i < |p| && Find(p, '{', i) < 0 && Yields(parse, p, i, Ok(segs))
    ensures Spells(parse, p[i..], segs)
  {
    assert p[|p|..] == "" && p[i..|p|] == p[i..] && [Literal(p[i..])] + [] == [Literal(p[i..])] == segs;
    assert BraceFree(p[i..]);
    TextSpells(parse, p, i, |p|, []);
  }

  lemma {:induction false} ParsedIsSpelled(parse: FieldReader, p: string, i: nat, segs: seq<Segment>)
    requires Yields(parse, p, i, Ok(segs))
    ensures Spells(parse, p[i..], segs)
    decreases |p| - i
  {
    if i == |p| {
      assert p[i..] == "";
    } else {
      var open := Find(p, '{', i);
      if open < 0 {
        RestSpells(parse, p, i, segs);
      } else if open > i {
        var rest := ParsedText(parse, p, i, open, segs);
        ParsedIsSpelled(parse, p, open, rest);
        TextSpells(parse, p, i, open, rest);
      } else {
        var end, f, rest := ParsedField(parse, p, i, segs);
        ParsedIsSpelled(parse, p, end + 1, rest);
        FieldSpells(parse, p, i, end, f, rest);
      }
    }
  }

  /** A pattern is accepted with exactly the segments that spell it: stray, missing and nested braces are refused, and
      nothing is dropped. */
  lemma ParsedIffSpelled(parse: FieldReader, p: string, segs: seq<Segment>)
    ensures ParseFrom(parse, p, 0) == Ok(segs) <==> Spells(parse, p, segs)
  {
    assert p[0..] == p;
    if ParseFrom(parse, p, 0) == Ok(segs) { ParsedIsSpelled(parse, p, 0, segs); }
    if Spells(parse, p, segs) { SpelledIsParsed(parse, p, 0, segs); }
  }

  // ---- filling a template ----

  predicate Suits(v: Value, kind: Kind) {
    match kind case Str => v.StrValue? case Int => v.IntValue? case Time => v.TimeValue?
  }

  /** A template is filled exactly if every field has a value of its kind; a partial filling may leave fields out. */
  lemma {:induction false} FilledIffSuited(env: Env, segs: seq<Segment>, vals: map<string, Value>, partial: bool)
    ensures Compose(env, segs, vals, partial).Ok? <==>
            forall i :: 0 <= i < |segs| && segs[i].Field? ==>
              if segs[i].field.name in vals then Suits(vals[segs[i].field.name], segs[i].field.kind) else partial
  {
    if segs != [] {
      FilledIffSuited(env, segs[1..], vals, partial);
      assert forall i :: 0 < i < |segs| ==> segs[i] == segs[1..][i - 1];
    }
  }

  /** A number is shown by a numeral of its value, filled with zeros up to the field's width and never cut. */
  lemma NumberIsShown(env: Env, n: nat, f: FieldSpec)
    requires f.kind.Int? && f.width <= 1_000_000
    ensures var t := FormatValue(env, IntValue(n), f);
            && t.Ok? && AllDigits(t.value) && ToNat(t.value) == n && |t.value| >= f.width
            && (|t.value| > f.width ==> Canonical(t.value))
  {
    PrintedNat(n);
    PaddedNumber(f.width - |ItoaNat(n)|, ItoaNat(n));
  }

  lemma {:induction false} PaddedNumber(zeros: int, s: string)
    requires AllDigits(s)
    ensures AllDigits(Zeros(zeros) + s) && ToNat(Zeros(zeros) + s) == ToNat(s)
    decreases |s|, zeros
  {
    var t := Zeros(zeros) + s;
    if s != "" {
      assert t[..|t| - 1] == Zeros(zeros) + s[..|s| - 1] && t[|t| - 1] == s[|s| - 1];
      PaddedNumber(zeros, s[..|s| - 1]);
    } else if zeros > 0 {
      assert t[..|t| - 1] == Zeros(zeros - 1) + s;
      PaddedNumber(zeros - 1, s);
    }
  }
}
