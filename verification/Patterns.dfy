/** Path templates: the parser, the printer, and what filling in some of the fields leaves. */
module Patterns {
  import opened Decimal
  import opened Fields

  datatype Segment = Literal(text: string) | Field(field: FieldSpec)

  datatype Value = StrValue(str: string) | IntValue(number: int) | TimeValue(time: int)

  // ---- parser ----

  /** The first `c` at or after `i`, or -1. */
  function Find(s: string, c: char, i: nat): (k: int)
    requires i <= |s|
    ensures k == -1 || (i <= k < |s| && s[k] == c)
    ensures forall j :: i <= j < |s| && (k < 0 || j < k) ==> s[j] != c
    decreases |s| - i
  {
    if i == |s| then -1 else if s[i] == c then i else Find(s, c, i + 1)
  }

  /** How the text between two braces is read; the parser around it is the same for any such reader. */
  type FieldReader = string -> Result<FieldSpec>

  function Reader(env: Env): FieldReader { content => ParseField(env, content) }

  function ParseField(env: Env, content: string): Result<FieldSpec> {
    var i := Find(content, ':', 0);
    if i >= 0 then ParseFieldSpec(env, content[..i], content[i + 1..]) else ParseFieldSpec(env, content, "")
  }

  function Prepend<T>(front: seq<T>, r: Result<seq<T>>): Result<seq<T>> {
    match r case Ok(rest) => Ok(front + rest) case Err(e) => Err(e)
  }

  lemma PrependLaws<T>(a: seq<T>, b: seq<T>, r: Result<seq<T>>)
    ensures Prepend([], r) == r
    ensures Prepend(a, Prepend(b, r)) == Prepend(a + b, r)
    ensures Prepend(a, Ok([])) == Ok(a)
  {
    if r.Ok? {
      assert [] + r.value == r.value;
      assert a + (b + r.value) == a + b + r.value;
    }
    assert a + [] == a;
  }

  function ParseFrom(parse: FieldReader, p: string, i: nat): Result<seq<Segment>>
    requires i <= |p|
    decreases |p| - i
  {
    if i == |p| then Ok([]) else
    var open, close := Find(p, '{', i), Find(p, '}', i);
    if open < 0 && close < 0 then Ok([Literal(p[i..])])
    else if close >= 0 && (open < 0 || close < open) then Err(Unbalanced)
    else if open > i then Prepend([Literal(p[i..open])], ParseFrom(parse, p, open))
    else
      var end := Find(p, '}', i + 1);
      if end < 0 then Err(Unbalanced) else
      match parse(p[i + 1..end])
      case Err(e) => Err(e)
      case Ok(f) => Prepend([Field(f)], ParseFrom(parse, p, end + 1))
  }

  /** Every pattern the parser accepts is valid: a time field's format is never empty. */
  function New(env: Env, pattern: string): Result<seq<Segment>> {
    var r := ParseFrom(Reader(env), pattern, 0);
    if r.Ok? && exists i :: 0 <= i < |r.value| && EmptyTime(r.value[i]) then Err(EmptyFormat) else r
  }

  predicate EmptyTime(seg: Segment) { seg.Field? && seg.field.kind.Time? && seg.field.ldml == "" }

  // ---- printer ----

  function PrintField(f: FieldSpec): string {
    "{" + f.name + (if !f.kind.Str? || f.width != 0 then ":" + FieldSpecString(f) else "") + "}"
  }

  function Printer(): FieldSpec -> string { f => PrintField(f) }

  function Text(show: FieldSpec -> string, seg: Segment): string {
    match seg case Literal(t) => t case Field(f) => show(f)
  }

  function Print(show: FieldSpec -> string, segs: seq<Segment>): string {
    if segs == [] then "" else Text(show, segs[0]) + Print(show, segs[1..])
  }

  function FormatValue(env: Env, v: Value, f: FieldSpec): Result<string> {
    match f.kind
    case Str => if v.StrValue? then Ok(v.str) else Err(WrongKind(f.name))
    case Int =>
      if !v.IntValue? then Err(WrongKind(f.name))
      else if f.width > 0 then Ok(PadInt(v.number, f.width))
      else Ok(Itoa(v.number))
    case Time => if v.TimeValue? then Ok(env.formatTime(v.time, f.ldml, f.rawTz)) else Err(WrongKind(f.name))
  }

  function ComposeSegment(env: Env, seg: Segment, vals: map<string, Value>, partial: bool): Result<string> {
    if seg.Literal? then Ok(seg.text)
    else if seg.field.name in vals then FormatValue(env, vals[seg.field.name], seg.field)
    else if partial then Ok(PrintField(seg.field))
    else Err(MissingField(seg.field.name))
  }

  function Compose(env: Env, segs: seq<Segment>, vals: map<string, Value>, partial: bool): Result<string> {
    if segs == [] then Ok("") else
    match ComposeSegment(env, segs[0], vals, partial)
    case Err(e) => Err(e)
    case Ok(t) => Prepend(t, Compose(env, segs[1..], vals, partial))
  }

  // ---- the loops that compute them ----

  /** What is still to parse, put after `segs`, is the whole result. */
  ghost predicate Ahead(parse: FieldReader, p: string, whole: Result<seq<Segment>>, segs: seq<Segment>, i: nat) {
    i <= |p| && whole == Prepend(segs, ParseFrom(parse, p, i))
  }

  lemma LiteralAhead(parse: FieldReader, p: string, whole: Result<seq<Segment>>, segs: seq<Segment>, i: nat, open: nat)
    requires Ahead(parse, p, whole, segs, i) && i < |p| && open == Find(p, '{', i) > i
    requires Find(p, '}', i) < 0 || open < Find(p, '}', i)
    ensures Ahead(parse, p, whole, segs + [Literal(p[i..open])], open)
  {
    PrependLaws(segs, [Literal(p[i..open])], ParseFrom(parse, p, open));
  }

  lemma FieldAhead(parse: FieldReader, p: string, whole: Result<seq<Segment>>, segs: seq<Segment>, open: nat, end: nat,
                   f: FieldSpec)
    requires Ahead(parse, p, whole, segs, open) && open < |p| && p[open] == '{' && end == Find(p, '}', open + 1)
    requires parse(p[open + 1..end]) == Ok(f)
    ensures Ahead(parse, p, whole, segs + [Field(f)], end + 1)
  {
    assert Find(p, '{', open) == open;
    PrependLaws(segs, [Field(f)], ParseFrom(parse, p, end + 1));
  }

  lemma BadFieldAhead(parse: FieldReader, p: string, whole: Result<seq<Segment>>, segs: seq<Segment>, open: nat,
                      end: int)
    requires Ahead(parse, p, whole, segs, open) && open < |p| && p[open] == '{' && end == Find(p, '}', open + 1)
    requires end < 0 || parse(p[open + 1..end]).Err?
    ensures whole == Err(if end < 0 then Unbalanced else parse(p[open + 1..end]).error)
  {
    assert Find(p, '{', open) == open;
  }

  lemma TextAhead(parse: FieldReader, p: string, whole: Result<seq<Segment>>, segs: seq<Segment>, i: nat)
    requires Ahead(parse, p, whole, segs, i) && i < |p| && Find(p, '{', i) < 0 && Find(p, '}', i) < 0
    ensures Ahead(parse, p, whole, segs + [Literal(p[i..])], |p|)
  {
    PrependLaws(segs + [Literal(p[i..])], [], Ok([]));
  }

  lemma StrayAhead(parse: FieldReader, p: string, whole: Result<seq<Segment>>, segs: seq<Segment>, i: nat)
    requires Ahead(parse, p, whole, segs, i) && i < |p|
    requires Find(p, '}', i) >= 0 && (Find(p, '{', i) < 0 || Find(p, '}', i) < Find(p, '{', i))
    ensures whole == Err(Unbalanced)
  {
  }

  /** The second half of the loop's body: the field whose brace is at `open`. */
  method ParseFieldAt(parse: FieldReader, p: string, ghost whole: Result<seq<Segment>>, segs: seq<Segment>, open: nat)
    returns (r: Result<seq<Segment>>, next: nat)
    requires Ahead(parse, p, whole, segs, open) && open < |p| && p[open] == '{'
    ensures r.Err? ==> r == whole
    ensures r.Ok? ==> open < next <= |p| && Ahead(parse, p, whole, r.value, next)
  {
    next := |p|;
    var end := Find(p, '}', open + 1);
    if end < 0 {
      BadFieldAhead(parse, p, whole, segs, open, end);
      return Err(Unbalanced), next;
    }
    var f := parse(p[open + 1..end]);
    if f.Err? {
      BadFieldAhead(parse, p, whole, segs, open, end);
      return Err(f.error), next;
    }
    FieldAhead(parse, p, whole, segs, open, end, f.value);
    return Ok(segs + [Field(f.value)]), end + 1;
  }

  /** The loop's body, up to the field. */
  method ParseTurn(parse: FieldReader, p: string, ghost whole: Result<seq<Segment>>, segs: seq<Segment>, i: nat)
    returns (r: Result<seq<Segment>>, next: nat)
    requires Ahead(parse, p, whole, segs, i) && i < |p|
    ensures r.Err? ==> r == whole
    ensures r.Ok? ==> i < next <= |p| && Ahead(parse, p, whole, r.value, next)
  {
    next := |p|;
    var open, close := Find(p, '{', i), Find(p, '}', i);
    if open < 0 && close < 0 {
      TextAhead(parse, p, whole, segs, i);
      return Ok(segs + [Literal(p[i..])]), next;
    }
    if close >= 0 && (open < 0 || close < open) {
      StrayAhead(parse, p, whole, segs, i);
      return Err(Unbalanced), next;
    }
    if open > i {
      LiteralAhead(parse, p, whole, segs, i, open);
      r, next := ParseFieldAt(parse, p, whole, segs + [Literal(p[i..open])], open);
    } else {
      r, next := ParseFieldAt(parse, p, whole, segs, open);
    }
  }

  method ParsePattern(parse: FieldReader, pattern: string) returns (r: Result<seq<Segment>>)
    ensures r == ParseFrom(parse, pattern, 0)
  {
    var i := 0;
    r := Ok([]);
    ghost var whole := ParseFrom(parse, pattern, 0);
    PrependLaws([], r.value, whole);
    while i < |pattern|
      invariant 0 <= i <= |pattern| && r.Ok? && Ahead(parse, pattern, whole, r.value, i)
    {
      r, i := ParseTurn(parse, pattern, whole, r.value, i);
      if r.Err? { return; }
    }
    PrependLaws(r.value, [], Ok([]));
  }

  /** Parses and then validates, segment by segment. */
  method NewParser(env: Env, pattern: string) returns (r: Result<seq<Segment>>)
    ensures r == New(env, pattern)
  {
    r := ParsePattern(Reader(env), pattern);
    if r.Err? { return; }
    for i := 0 to |r.value|
      invariant forall j :: 0 <= j < i ==> !EmptyTime(r.value[j])
    {
      if EmptyTime(r.value[i]) { return Err(EmptyFormat); }
    }
  }

  method ComposePattern(env: Env, segs: seq<Segment>, vals: map<string, Value>, partial: bool)
    returns (r: Result<string>)
    ensures r == Compose(env, segs, vals, partial)
  {
    var sb := "";
    assert segs[0..] == segs;
    PrependLaws("", sb, Compose(env, segs, vals, partial));
    for i := 0 to |segs|
      invariant Compose(env, segs, vals, partial) == Prepend(sb, Compose(env, segs[i..], vals, partial))
    {
      assert segs[i..][1..] == segs[i + 1..];
      var t := ComposeSegment(env, segs[i], vals, partial);
      if t.Err? { return Err(t.error); }
      PrependLaws(sb, t.value, Compose(env, segs[i + 1..], vals, partial));
      sb := sb + t.value;
    }
    PrependLaws(sb, "", Ok(""));
    return Ok(sb);
  }
}
