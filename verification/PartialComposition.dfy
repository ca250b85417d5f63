/** Filling in some fields of a template and parsing the outcome is filling in those fields first. */
module PartialComposition {
  import opened Fields
  import opened Patterns

  predicate BraceFree(t: string) { forall k :: 0 <= k < |t| ==> t[k] != '{' && t[k] != '}' }

  /** Literals without braces, and fields of the kind `good`. */
  ghost predicate WellFormed(good: FieldSpec -> bool, segs: seq<Segment>) {
    forall i :: 0 <= i < |segs| ==> WellFormedSegment(good, segs[i])
  }

  predicate WellFormedSegment(good: FieldSpec -> bool, seg: Segment) {
    match seg case Literal(t) => BraceFree(t) case Field(f) => good(f)
  }

  ghost predicate Fine(good: FieldSpec -> bool, segs: seq<Segment>) { WellFormed(good, segs) && Alternating(segs) }

  function Good(env: Env): FieldSpec -> bool { f => Parsed(env, f) }

  /** No literal is empty, and no two stand side by side. */
  predicate Alternating(segs: seq<Segment>) {
    && (forall i :: 0 <= i < |segs| && segs[i].Literal? ==> segs[i].text != "")
    && (forall i :: 0 < i < |segs| && segs[i].Literal? ==> segs[i - 1].Field?)
  }

  /** Text in front of segments, joined to the literal it touches. */
  function Glue(t: string, segs: seq<Segment>): seq<Segment> {
    if t == "" then segs
    else if segs != [] && segs[0].Literal? then [Literal(t + segs[0].text)] + segs[1..]
    else [Literal(t)] + segs
  }

  function GlueResult(t: string, r: Result<seq<Segment>>): Result<seq<Segment>> {
    match r case Ok(segs) => Ok(Glue(t, segs)) case Err(e) => Err(e)
  }

  /** The segments a parser makes of the printed form. */
  function Merge(segs: seq<Segment>): seq<Segment> {
    if segs == [] then []
    else match segs[0]
      case Literal(t) => Glue(t, Merge(segs[1..]))
      case Field(f) => [Field(Canon(f))] + Merge(segs[1..])
  }

  // ---- what the parser returns ----

  lemma FieldIsParsed(env: Env, content: string)
    requires '}' !in content && ParseField(env, content).Ok?
    ensures Parsed(env, ParseField(env, content).value)
  {
    var i := Find(content, ':', 0);
    if i >= 0 { ParsedFieldIsParsed(env, content[..i], content[i + 1..]); }
    else { ParsedFieldIsParsed(env, content, ""); }
  }

  /** The parser makes `r` of what follows position `i`. */
  ghost predicate Yields(parse: FieldReader, q: string, i: nat, r: Result<seq<Segment>>) {
    i <= |q| && ParseFrom(parse, q, i) == r
  }

  /** The reader only makes good fields. */
  ghost predicate Makes(parse: FieldReader, good: FieldSpec -> bool) {
    forall content :: '}' !in content && parse(content).Ok? ==> good(parse(content).value)
  }

  lemma ConsIsWellFormed(good: FieldSpec -> bool, seg: Segment, rest: seq<Segment>)
    requires WellFormedSegment(good, seg) && Fine(good, rest)
    requires seg.Literal? ==> seg.text != "" && (rest == [] || rest[0].Field?)
    ensures Fine(good, [seg] + rest)
  {
  }

  lemma LiteralCase(parse: FieldReader, good: FieldSpec -> bool, p: string, i: nat, open: nat, segs: seq<Segment>)
    returns (rest: seq<Segment>)
    requires i < open < |p| && open == Find(p, '{', i) && Yields(parse, p, i, Ok(segs))
    ensures Yields(parse, p, open, Ok(rest))
    ensures Fine(good, rest) ==> Fine(good, segs)
  {
    rest := ParseFrom(parse, p, open).value;
    assert segs == [Literal(p[i..open])] + rest && rest[0].Field? && BraceFree(p[i..open]);
    if Fine(good, rest) { ConsIsWellFormed(good, Literal(p[i..open]), rest); }
  }

  lemma FieldCase(parse: FieldReader, good: FieldSpec -> bool, p: string, i: nat, end: int, segs: seq<Segment>)
    returns (rest: seq<Segment>)
    requires i < |p| && p[i] == '{' && end == Find(p, '}', i + 1) && Yields(parse, p, i, Ok(segs)) && Makes(parse, good)
    ensures i < end && Yields(parse, p, end + 1, Ok(rest))
    ensures Fine(good, rest) ==> Fine(good, segs)
  {
    assert Find(p, '{', i) == i;
    rest := ParseFrom(parse, p, end + 1).value;
    var content := p[i + 1..end];
    assert '}' !in content && parse(content).Ok? && segs == [Field(parse(content).value)] + rest;
    if Fine(good, rest) { ConsIsWellFormed(good, Field(parse(content).value), rest); }
  }

  lemma TextCase(parse: FieldReader, good: FieldSpec -> bool, p: string, i: nat, segs: seq<Segment>)
    requires i < |p| && Find(p, '{', i) < 0 && Yields(parse, p, i, Ok(segs))
    ensures Fine(good, segs)
  {
    assert BraceFree(p[i..]);
  }

  lemma {:induction false} PatternIsWellFormed(parse: FieldReader, good: FieldSpec -> bool, p: string, i: nat,
                                               segs: seq<Segment>)
    requires i <= |p| && Makes(parse, good) && Yields(parse, p, i, Ok(segs))
    ensures Fine(good, segs)
    decreases |p| - i
  {
    if i < |p| {
      var open := Find(p, '{', i);
      if open > i {
        var rest := LiteralCase(parse, good, p, i, open, segs);
        PatternIsWellFormed(parse, good, p, open, rest);
      } else if open == i {
        var end := Find(p, '}', i + 1);
        var rest := FieldCase(parse, good, p, i, end, segs);
        PatternIsWellFormed(parse, good, p, end + 1, rest);
      } else {
        TextCase(parse, good, p, i, segs);
      }
    }
  }

  /** Validation never rejects what the parser accepted. */
  lemma NewIsParse(env: Env, p: string)
    ensures New(env, p) == ParseFrom(Reader(env), p, 0)
    ensures New(env, p).Ok? ==> WellFormed(Good(env), New(env, p).value) && Alternating(New(env, p).value)
  {
    var r := ParseFrom(Reader(env), p, 0);
    if r.Ok? {
      forall content | '}' !in content && Reader(env)(content).Ok? ensures Good(env)(Reader(env)(content).value) {
        FieldIsParsed(env, content);
      }
      PatternIsWellFormed(Reader(env), Good(env), p, 0, r.value);
      forall i | 0 <= i < |r.value| ensures !EmptyTime(r.value[i]) {
        assert WellFormedSegment(Good(env), r.value[i]);
      }
    }
  }

  // ---- parsing what was printed ----

  lemma EndYields(parse: FieldReader, q: string)
    ensures Yields(parse, q, |q|, Ok([]))
  {
  }

  lemma GlueLiteral(t: string, u: string, rest: seq<Segment>)
    requires t != ""
    ensures Glue(t, [Literal(u)] + rest) == [Literal(t + u)] + rest && Glue(t, [Literal(u)]) == [Literal(t + u)]
  {
    assert ([Literal(u)] + rest)[1..] == rest;
    assert [Literal(u)][1..] == [];
  }

  ghost predicate PlainRange(q: string, i: nat, j: nat) {
    i <= j <= |q| && forall k :: i <= k < j ==> q[k] != '{' && q[k] != '}'
  }

  lemma SkipText(parse: FieldReader, q: string, i: nat, j: nat, t: string, r: Result<seq<Segment>>)
    requires PlainRange(q, i, j) && t == q[i..j] && Yields(parse, q, j, r)
    ensures Yields(parse, q, i, GlueResult(t, r))
  {
    if i == j {
      assert t == "";
    } else if j == |q| {
      assert t == q[i..] && Find(q, '{', i) < 0 && Find(q, '}', i) < 0;
      assert Glue(t, []) == [Literal(t)];
    } else if Find(q, '{', j) < 0 && Find(q, '}', j) < 0 {
      assert Find(q, '{', i) < 0 && Find(q, '}', i) < 0;
      assert q[i..] == t + q[j..];
      GlueLiteral(t, q[j..], []);
    } else if Find(q, '{', j) < 0 || 0 <= Find(q, '}', j) < Find(q, '{', j) {
      assert Find(q, '{', i) == Find(q, '{', j) && Find(q, '}', i) == Find(q, '}', j);
    } else {
      SkipToField(parse, q, i, j, t, r);
    }
  }

  lemma FindSkips(q: string, c: char, i: nat, j: nat)
    requires i <= j <= |q| && forall k :: i <= k < j ==> q[k] != c
    ensures Find(q, c, i) == Find(q, c, j)
  {
  }

  /** The parser cuts off the text in front of the next field. */
  lemma CutsText(parse: FieldReader, q: string, i: nat, open: nat)
    requires i < open < |q| && Find(q, '{', i) == open && (Find(q, '}', i) < 0 || open < Find(q, '}', i))
    ensures ParseFrom(parse, q, i) == Prepend([Literal(q[i..open])], ParseFrom(parse, q, open))
  {
  }

  lemma FieldFirst(parse: FieldReader, q: string, i: nat)
    requires i < |q| && q[i] == '{' && ParseFrom(parse, q, i).Ok?
    ensures var r := ParseFrom(parse, q, i).value; r != [] && r[0].Field?
  {
  }

  lemma GlueText(t: string, u: string, rest: Result<seq<Segment>>)
    requires t != ""
    ensures GlueResult(t, Prepend([Literal(u)], rest)) == Prepend([Literal(t + u)], rest)
  {
    if rest.Ok? { GlueLiteral(t, u, rest.value); }
  }

  lemma SkipToField(parse: FieldReader, q: string, i: nat, j: nat, t: string, r: Result<seq<Segment>>)
    requires i < j < |q| && PlainRange(q, i, j) && t == q[i..j] && Yields(parse, q, j, r)
    requires j <= Find(q, '{', j) && (Find(q, '}', j) < 0 || Find(q, '{', j) < Find(q, '}', j))
    ensures Yields(parse, q, i, GlueResult(t, r))
  {
    var open := Find(q, '{', j);
    FindSkips(q, '{', i, j);
    FindSkips(q, '}', i, j);
    CutsText(parse, q, i, open);
    if open > j {
      CutsText(parse, q, j, open);
      assert q[i..open] == t + q[j..open];
      GlueText(t, q[j..open], ParseFrom(parse, q, open));
    } else if r.Ok? {
      FieldFirst(parse, q, open);
    }
  }

  /** The text between the braces of a printed field. */
  function Content(f: FieldSpec): string {
    if !f.kind.Str? || f.width != 0 then f.name + ":" + FieldSpecString(f) else f.name
  }

  lemma ColonSplits(name: string, spec: string)
    requires ':' !in name
    ensures Find(name + ":" + spec, ':', 0) == |name|
    ensures (name + ":" + spec)[..|name|] == name && (name + ":" + spec)[|name| + 1..] == spec
  {
    var c := name + ":" + spec;
    assert c[|name|] == ':';
    assert forall k :: 0 <= k < |name| ==> c[k] == name[k] && name[k] in name;
  }

  lemma ContentReadsBack(env: Env, f: FieldSpec)
    requires Parsed(env, f)
    ensures ParseField(env, Content(f)) == Ok(Canon(f))
  {
    if !f.kind.Str? || f.width != 0 {
      ColonSplits(f.name, FieldSpecString(f));
      SpecRoundTrip(env, f);
    } else {
      assert forall k :: 0 <= k < |f.name| ==> f.name[k] in f.name;
      assert Find(f.name, ':', 0) < 0 && FindTz("") == -1;
      assert ParseFieldSpec(env, f.name, "") == ParseTyped(env, f.name, "", "");
    }
  }

  lemma ContentIsBraced(env: Env, f: FieldSpec)
    requires Parsed(env, f)
    ensures PrintField(f) == "{" + Content(f) + "}" && '}' !in Content(f)
  {
    SpecHasNoBrace(env, f);
  }

  lemma FieldEnds(q: string, i: nat, content: string)
    requires i + |content| + 2 <= |q| && q[i..i + |content| + 2] == "{" + content + "}" && '}' !in content
    ensures q[i] == '{' && Find(q, '}', i + 1) == i + |content| + 1 && q[i + 1..i + |content| + 1] == content
  {
    var end := i + |content| + 1;
    forall k | i <= k <= end ensures q[k] == ("{" + content + "}")[k - i] { assert q[k] == q[i..end + 1][k - i]; }
    forall k | i < k < end ensures q[k] != '}' { assert q[k] == content[k - i - 1] && content[k - i - 1] in content; }
    assert q[end] == '}';
  }

  lemma FieldStep(parse: FieldReader, q: string, i: nat, content: string, r: Result<seq<Segment>>)
    requires i + |content| + 2 <= |q| && q[i..i + |content| + 2] == "{" + content + "}"
    requires '}' !in content && parse(content).Ok? && Yields(parse, q, i + |content| + 2, r)
    ensures Yields(parse, q, i, Prepend([Field(parse(content).value)], r))
  {
    FieldEnds(q, i, content);
    assert Find(q, '{', i) == i;
  }

  function MergeOne(seg: Segment, r: Result<seq<Segment>>): Result<seq<Segment>> {
    match seg case Literal(t) => GlueResult(t, r) case Field(f) => Prepend([Field(Canon(f))], r)
  }

  lemma LiteralStep(parse: FieldReader, q: string, i: nat, j: nat, t: string, r: Result<seq<Segment>>)
    requires BraceFree(t) && i <= j <= |q| && q[i..j] == t && Yields(parse, q, j, r)
    ensures Yields(parse, q, i, GlueResult(t, r))
  {
    forall k | i <= k < j ensures q[k] != '{' && q[k] != '}' { assert q[k] == t[k - i]; }
    SkipText(parse, q, i, j, t, r);
  }

  /** Good fields, once printed, are read back. */
  ghost predicate Undoes(parse: FieldReader, show: FieldSpec -> string, good: FieldSpec -> bool) {
    forall f :: good(f) ==> ReadsBack(parse, show, f)
  }

  ghost predicate ReadsBack(parse: FieldReader, show: FieldSpec -> string, f: FieldSpec) {
    exists content :: show(f) == "{" + content + "}" && '}' !in content && parse(content) == Ok(Canon(f))
  }

  lemma SegmentStep(parse: FieldReader, show: FieldSpec -> string, good: FieldSpec -> bool, q: string, i: nat, j: nat,
                    seg: Segment, rest: seq<Segment>, merged: seq<Segment>)
    requires Undoes(parse, show, good) && WellFormedSegment(good, seg)
    requires i <= j <= |q| && q[i..j] == Text(show, seg) && MergeOne(seg, Ok(rest)) == Ok(merged)
    requires Yields(parse, q, j, Ok(rest))
    ensures Yields(parse, q, i, Ok(merged))
  {
    match seg {
      case Literal(t) => LiteralStep(parse, q, i, j, t, Ok(rest));
      case Field(f) =>
        assert ReadsBack(parse, show, f);
        var content :| show(f) == "{" + content + "}" && '}' !in content && parse(content) == Ok(Canon(f));
        FieldStep(parse, q, i, content, Ok(rest));
    }
  }

  lemma SplitText(q: string, i: nat, t: string, rest: string)
    requires i <= |q| && q[i..] == t + rest
    ensures i + |t| <= |q| && q[i..i + |t|] == t && q[i + |t|..] == rest
  {
    assert q[i..i + |t|] == q[i..][..|t|] && q[i + |t|..] == q[i..][|t|..];
  }

  lemma HeadFits(show: FieldSpec -> string, good: FieldSpec -> bool, q: string, i: nat, j: nat, segs: seq<Segment>)
    requires segs != [] && WellFormed(good, segs) && i <= |q| && q[i..] == Print(show, segs)
    requires j == i + |Text(show, segs[0])|
    ensures j <= |q| && q[i..j] == Text(show, segs[0]) && q[j..] == Print(show, segs[1..])
    ensures WellFormedSegment(good, segs[0]) && WellFormed(good, segs[1..])
    ensures MergeOne(segs[0], Ok(Merge(segs[1..]))) == Ok(Merge(segs))
  {
    SplitText(q, i, Text(show, segs[0]), Print(show, segs[1..]));
  }

  lemma {:induction false} PrintedIsParsed(parse: FieldReader, show: FieldSpec -> string, good: FieldSpec -> bool,
                                           q: string, i: nat, segs: seq<Segment>, merged: seq<Segment>)
    requires Undoes(parse, show, good) && WellFormed(good, segs)
    requires i <= |q| && q[i..] == Print(show, segs) && merged == Merge(segs)
    ensures Yields(parse, q, i, Ok(merged))
    decreases |segs|
  {
    if segs == [] {
      EndYields(parse, q);
    } else {
      var j, rest := i + |Text(show, segs[0])|, Merge(segs[1..]);
      HeadFits(show, good, q, i, j, segs);
      PrintedIsParsed(parse, show, good, q, j, segs[1..], rest);
      SegmentStep(parse, show, good, q, i, j, segs[0], rest, merged);
    }
  }

  lemma {:induction false} AlternatingIsMerged(segs: seq<Segment>)
    requires Alternating(segs)
    ensures |Merge(segs)| == |segs|
    ensures forall i :: 0 <= i < |segs| ==>
              Merge(segs)[i] == if segs[i].Literal? then segs[i] else Field(Canon(segs[i].field))
  {
    if segs != [] {
      assert forall i :: 0 <= i < |segs[1..]| ==> segs[1..][i] == segs[i + 1];
      AlternatingIsMerged(segs[1..]);
    }
  }

  // ---- composing merged and filled segments ----

  lemma ComposeGlue(env: Env, t: string, segs: seq<Segment>, v: map<string, Value>, partial: bool)
    ensures Compose(env, Glue(t, segs), v, partial) == Prepend(t, Compose(env, segs, v, partial))
  {
    PrependLaws(t, "", Compose(env, segs, v, partial));
    if t != "" {
      if segs != [] && segs[0].Literal? {
        assert Glue(t, segs)[1..] == segs[1..];
        PrependLaws(t, segs[0].text, Compose(env, segs[1..], v, partial));
      } else {
        assert Glue(t, segs)[1..] == segs;
      }
    }
  }

  lemma {:induction false} ComposeMerged(env: Env, segs: seq<Segment>, v: map<string, Value>, partial: bool)
    ensures Compose(env, Merge(segs), v, partial) == Compose(env, segs, v, partial)
  {
    if segs != [] {
      ComposeMerged(env, segs[1..], v, partial);
      match segs[0] {
        case Literal(t) => ComposeGlue(env, t, Merge(segs[1..]), v, partial);
        case Field(f) =>
          assert Merge(segs)[1..] == Merge(segs[1..]);
          assert FieldSpecString(Canon(f)) == FieldSpecString(f);
          assert ComposeSegment(env, Field(Canon(f)), v, partial) == ComposeSegment(env, segs[0], v, partial);
      }
    }
  }

  /** Every given value has the right kind, and its text has no braces. */
  predicate Fits(env: Env, segs: seq<Segment>, v: map<string, Value>) {
    forall i :: 0 <= i < |segs| ==> FitsSegment(env, segs[i], v)
  }

  predicate FitsSegment(env: Env, seg: Segment, v: map<string, Value>) {
    seg.Field? && seg.field.name in v ==>
      FormatValue(env, v[seg.field.name], seg.field).Ok?
      && BraceFree(FormatValue(env, v[seg.field.name], seg.field).value)
  }

  function Fill(env: Env, segs: seq<Segment>, v: map<string, Value>): seq<Segment>
    requires Fits(env, segs, v)
  {
    seq(|segs|, i requires 0 <= i < |segs| => FillSegment(env, segs[i], v))
  }

  function FillSegment(env: Env, seg: Segment, v: map<string, Value>): Segment {
    if seg.Field? && seg.field.name in v && FormatValue(env, v[seg.field.name], seg.field).Ok?
    then Literal(FormatValue(env, v[seg.field.name], seg.field).value) else seg
  }

  lemma {:induction false} ComposePrintsFilled(env: Env, segs: seq<Segment>, v: map<string, Value>)
    requires Fits(env, segs, v)
    ensures Compose(env, segs, v, true) == Ok(Print(Printer(), Fill(env, segs, v)))
  {
    if segs != [] {
      ComposePrintsFilled(env, segs[1..], v);
      assert Fill(env, segs, v)[1..] == Fill(env, segs[1..], v);
      assert FitsSegment(env, segs[0], v);
    }
  }

  lemma {:induction false} ComposeFilled(env: Env, segs: seq<Segment>, v1: map<string, Value>, v2: map<string, Value>,
                                         partial: bool)
    requires Fits(env, segs, v1)
    ensures Compose(env, Fill(env, segs, v1), v2, partial) == Compose(env, segs, v2 + v1, partial)
  {
    if segs != [] {
      ComposeFilled(env, segs[1..], v1, v2, partial);
      assert Fill(env, segs, v1)[1..] == Fill(env, segs[1..], v1);
      assert FitsSegment(env, segs[0], v1);
    }
  }

  /** The template that is left: it parses, whatever was filled in. */
  lemma PartialParses(env: Env, p: string, v: map<string, Value>)
    requires New(env, p).Ok? && Fits(env, New(env, p).value, v)
    ensures Compose(env, New(env, p).value, v, true).Ok?
    ensures New(env, Compose(env, New(env, p).value, v, true).value) == Ok(Merge(Fill(env, New(env, p).value, v)))
  {
    NewIsParse(env, p);
    var segs := New(env, p).value;
    ComposePrintsFilled(env, segs, v);
    var left := Print(Printer(), Fill(env, segs, v));
    NewIsParse(env, left);
    forall i | 0 <= i < |segs| ensures WellFormedSegment(Good(env), Fill(env, segs, v)[i]) {
      assert WellFormedSegment(Good(env), segs[i]) && FitsSegment(env, segs[i], v);
    }
    assert left[0..] == left;
    forall f | Good(env)(f) ensures ReadsBack(Reader(env), Printer(), f) {
      ContentReadsBack(env, f);
      ContentIsBraced(env, f);
      assert Reader(env)(Content(f)) == Ok(Canon(f));
    }
    PrintedIsParsed(Reader(env), Printer(), Good(env), left, 0, Fill(env, segs, v), Merge(Fill(env, segs, v)));
  }

  /** Partial composition preserves meaning: composing what is left with `v2` is composing the template with
      both, the first values winning, down to the error that is reported. */
  lemma PartialMeaning(env: Env, p: string, v1: map<string, Value>, v2: map<string, Value>, partial: bool)
    requires New(env, p).Ok? && Fits(env, New(env, p).value, v1)
    ensures var left := Compose(env, New(env, p).value, v1, true);
            && left.Ok? && New(env, left.value).Ok?
            && Compose(env, New(env, left.value).value, v2, partial)
                 == Compose(env, New(env, p).value, v2 + v1, partial)
  {
    PartialParses(env, p, v1);
    var segs := New(env, p).value;
    ComposeMerged(env, Fill(env, segs, v1), v2, partial);
    ComposeFilled(env, segs, v1, v2, partial);
  }

  /** Printer and parser undo each other, up to the pad flag of fields without width. */
  lemma PrintedAndReadAgain(env: Env, p: string)
    requires New(env, p).Ok?
    ensures var segs := New(env, p).value;
            var printed := Compose(env, segs, map[], true);
            && printed.Ok? && New(env, printed.value).Ok?
            && |New(env, printed.value).value| == |segs|
            && forall i :: 0 <= i < |segs| ==>
                 New(env, printed.value).value[i] == if segs[i].Literal? then segs[i] else Field(Canon(segs[i].field))
  {
    PartialParses(env, p, map[]);
    NewIsParse(env, p);
    var segs := New(env, p).value;
    assert Fill(env, segs, map[]) == segs;
    AlternatingIsMerged(segs);
  }
}
