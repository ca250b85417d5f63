/** Reading a path with a template, and the glob that stands for the template. */
module Matching {
  import opened Decimal
  import opened Fields
  import opened Patterns

  // ---- time symbols ----

  datatype Entry = Entry(symbol: string, digits: nat, globWidth: nat)

  datatype Lookup = NotFound | Found(entry: Entry)

  /** Every symbol stands for as many digits, and as many wildcards, as it has letters. */
  predicate Balanced(table: seq<Entry>) {
    forall k :: 0 <= k < |table| ==> 0 < |table[k].symbol| == table[k].digits == table[k].globWidth
  }

  type Table = t: seq<Entry> | Balanced(t) witness []

  const LDML_TABLE: Table := [
    Entry("yyyy", 4, 4), Entry("MM", 2, 2), Entry("dd", 2, 2), Entry("HH", 2, 2),
    Entry("mm", 2, 2), Entry("ss", 2, 2), Entry("yy", 2, 2)
  ]

  predicate StartsAt(s: string, i: nat, symbol: string) {
    i + |symbol| <= |s| && s[i..i + |symbol|] == symbol
  }

  /** The first symbol of the table, from entry `k` on, that starts at position `i`. */
  function FirstMatch(table: Table, k: nat, s: string, i: nat): (r: Lookup)
    requires k <= |table|
    ensures r.Found? ==> StartsAt(s, i, r.entry.symbol) && 0 < |r.entry.symbol| == r.entry.digits == r.entry.globWidth
    ensures r.NotFound? ==> forall j :: k <= j < |table| ==> !StartsAt(s, i, table[j].symbol)
    decreases |table| - k
  {
    if k == |table| then NotFound
    else if StartsAt(s, i, table[k].symbol) then Found(table[k])
    else FirstMatch(table, k + 1, s, i)
  }

  method MatchLdml(table: Table, s: string, i: nat) returns (r: Lookup)
    ensures r == FirstMatch(table, 0, s, i)
  {
    for k := 0 to |table|
      invariant FirstMatch(table, 0, s, i) == FirstMatch(table, k, s, i)
    {
      if StartsAt(s, i, table[k].symbol) { return Found(table[k]); }
    }
    return NotFound;
  }

  datatype Sym = Num(n: nat) | Lit(c: char)

  function LdmlRegex(table: Table, ldml: string, i: nat): seq<Sym>
    requires i <= |ldml|
    decreases |ldml| - i
  {
    if i == |ldml| then [] else
    match FirstMatch(table, 0, ldml, i)
    case Found(e) => [Num(e.digits)] + LdmlRegex(table, ldml, i + |e.symbol|)
    case NotFound => [Lit(ldml[i])] + LdmlRegex(table, ldml, i + 1)
  }

  function Marks(n: nat): string { seq(n, _ => '?') }

  function LdmlGlob(table: Table, ldml: string, i: nat): string
    requires i <= |ldml|
    decreases |ldml| - i
  {
    if i == |ldml| then "" else
    match FirstMatch(table, 0, ldml, i)
    case Found(e) => Marks(e.globWidth) + LdmlGlob(table, ldml, i + |e.symbol|)
    case NotFound => [ldml[i]] + LdmlGlob(table, ldml, i + 1)
  }

  // ---- the regular expression, one group a segment ----

  datatype Group = Quoted(text: string) | Chars(n: nat) | CharRun | Digits(n: nat) | DigitRun | Stamp(syms: seq<Sym>)

  function GroupOf(seg: Segment): Group {
    match seg
    case Literal(t) => Quoted(t)
    case Field(f) =>
      match f.kind
      case Str => if f.width > 0 then Chars(f.width) else CharRun
      case Int => if f.width > 0 then Digits(f.width) else DigitRun
      case Time => Stamp(LdmlRegex(LDML_TABLE, f.ldml, 0))
  }

  function Groups(segs: seq<Segment>): seq<Group> { seq(|segs|, i requires 0 <= i < |segs| => GroupOf(segs[i])) }

  /** The regular-expression package refuses repeat counts above a thousand. */
  predicate Compiles(groups: seq<Group>) {
    forall i :: 0 <= i < |groups| && (groups[i].Chars? || groups[i].Digits?) ==> groups[i].n <= 1000
  }

  /** Only a text or number field wider than a thousand is too much for it. */
  lemma CompilesIff(segs: seq<Segment>)
    ensures Compiles(Groups(segs)) <==>
            forall i :: 0 <= i < |segs| && segs[i].Field? && !segs[i].field.kind.Time? ==> segs[i].field.width <= 1000
  {
    assert forall i :: 0 <= i < |segs| ==> Groups(segs)[i] == GroupOf(segs[i]);
    if Compiles(Groups(segs)) {
      forall i | 0 <= i < |segs| && segs[i].Field? && !segs[i].field.kind.Time? ensures segs[i].field.width <= 1000 {
        assert segs[i].field.width > 0 ==> Groups(segs)[i].Chars? || Groups(segs)[i].Digits?;
      }
    }
  }

  predicate SymsMatch(syms: seq<Sym>, piece: string) {
    if syms == [] then piece == "" else
    match syms[0]
    case Num(n) => n <= |piece| && AllDigits(piece[..n]) && SymsMatch(syms[1..], piece[n..])
    case Lit(c) => piece != "" && piece[0] == c && SymsMatch(syms[1..], piece[1..])
  }

  predicate GroupMatches(g: Group, piece: string) {
    match g
    case Quoted(t) => piece == t
    case Chars(n) => |piece| == n && '\n' !in piece
    case CharRun => |piece| > 0 && '\n' !in piece
    case Digits(n) => |piece| == n && AllDigits(piece)
    case DigitRun => |piece| > 0 && AllDigits(piece)
    case Stamp(syms) => SymsMatch(syms, piece)
  }

  function Concat(pieces: seq<string>): string { if pieces == [] then "" else pieces[0] + Concat(pieces[1..]) }

  /** One way of cutting a path up so that each piece matches its group. */
  predicate Splits(groups: seq<Group>, pieces: seq<string>) {
    |pieces| == |groups| && forall i :: 0 <= i < |groups| ==> GroupMatches(groups[i], pieces[i])
  }

  // ---- the glob ----

  function GlobOf(seg: Segment): string {
    match seg
    case Literal(t) => t
    case Field(f) =>
      if f.kind.Time? then LdmlGlob(LDML_TABLE, f.ldml, 0) else if f.width > 0 then Marks(f.width) else "*"
  }

  function Globify(segs: seq<Segment>): string { if segs == [] then "" else GlobOf(segs[0]) + Globify(segs[1..]) }

  const META := {'*', '?', '[', ']', '{', '}', '\\'}

  predicate MetaFree(t: string) { forall k :: 0 <= k < |t| ==> t[k] !in META }

  /** A component of exactly two stars, seen from its first star. */
  predicate WholeStars(pat: string) { pat == "**" || "**/" <= pat }

  /** Whether the glob matches. `?` is any one character and `*` any run of them, but never a slash. A component of
      two stars crosses directories: at the end it is any rest, elsewhere any number of components. A name that ends
      where only such a component is left matches too. Classes, alternatives and escapes are not given a meaning.
      `start` says whether the pattern stands at the start of a component. */
  predicate Doublestar(pat: string, s: string, start: bool)
    decreases |pat| + |s|
  {
    if pat == "" then s == ""
    else if s == "" && pat in {"/**", "**/", "/**/"} then true
    else if start && WholeStars(pat) then
      || |pat| == 2 || Doublestar(pat[3..], s, true)
      || exists k :: 0 <= k < |s| && s[k] == '/' && Doublestar(pat[3..], s[k + 1..], true)
    else if pat[0] == '*' then
      Doublestar(pat[1..], s, false) || (s != "" && s[0] != '/' && Doublestar(pat, s[1..], false))
    else if pat[0] == '?' then s != "" && s[0] != '/' && Doublestar(pat[1..], s[1..], false)
    else pat[0] !in META && s != "" && s[0] == pat[0] && Doublestar(pat[1..], s[1..], pat[0] == '/')
  }

  predicate GlobMatch(pat: string, s: string) { Doublestar(pat, s, true) }

  // ---- reading the captured pieces ----

  function Capture(env: Env, f: FieldSpec, piece: string): Result<Value> {
    match f.kind
    case Str => Ok(StrValue(piece))
    case Int =>
      if piece != "" && AllDigits(piece) && ToNat(piece) <= MAX_INT then Ok(IntValue(ToNat(piece)))
      else Err(BadInt(f.name))
    case Time =>
      match env.parseTime(f.ldml, piece, f.rawTz)
      case Ok(t) => Ok(TimeValue(t))
      case Err(_) => Err(BadTime(f.name))
  }

  function Overlay(v: map<string, Value>, r: Result<map<string, Value>>): Result<map<string, Value>> {
    match r case Ok(m) => Ok(v + m) case Err(e) => Err(e)
  }

  /** The values of the fields, a later field overriding an earlier one of the same name. */
  function Values(env: Env, segs: seq<Segment>, pieces: seq<string>): Result<map<string, Value>>
    requires |segs| == |pieces|
  {
    if segs == [] then Ok(map[])
    else if segs[0].Literal? then Values(env, segs[1..], pieces[1..])
    else
      match Capture(env, segs[0].field, pieces[0])
      case Err(e) => Err(e)
      case Ok(v) => Overlay(map[segs[0].field.name := v], Values(env, segs[1..], pieces[1..]))
  }

  // ---- the loops ----

  lemma JoinAssoc<T>(a: seq<T>, b: seq<T>, c: seq<T>)
    ensures a + (b + c) == a + b + c
  {
  }

  method LdmlToRegex(table: Table, ldml: string) returns (r: seq<Sym>)
    ensures r == LdmlRegex(table, ldml, 0)
  {
    r := [];
    var i := 0;
    ghost var whole := LdmlRegex(table, ldml, 0);
    while i < |ldml|
      invariant 0 <= i <= |ldml| && whole == r + LdmlRegex(table, ldml, i)
    {
      var m := MatchLdml(table, ldml, i);
      if m.Found? {
        var sym, next := Num(m.entry.digits), i + |m.entry.symbol|;
        JoinAssoc(r, [sym], LdmlRegex(table, ldml, next));
        r, i := r + [sym], next;
      } else {
        JoinAssoc(r, [Lit(ldml[i])], LdmlRegex(table, ldml, i + 1));
        r, i := r + [Lit(ldml[i])], i + 1;
      }
    }
  }

  method WriteMarks(n: nat) returns (r: string)
    ensures r == Marks(n)
  {
    r := "";
    for j := 0 to n
      invariant r == Marks(j)
    {
      r := r + "?";
    }
  }

  method LdmlToGlob(table: Table, ldml: string) returns (r: string)
    ensures r == LdmlGlob(table, ldml, 0)
  {
    r := "";
    var i := 0;
    ghost var whole := LdmlGlob(table, ldml, 0);
    while i < |ldml|
      invariant 0 <= i <= |ldml| && whole == r + LdmlGlob(table, ldml, i)
    {
      var m := MatchLdml(table, ldml, i);
      if m.Found? {
        var marks := WriteMarks(m.entry.globWidth);
        var next := i + |m.entry.symbol|;
        JoinAssoc(r, marks, LdmlGlob(table, ldml, next));
        r, i := r + marks, next;
      } else {
        JoinAssoc(r, [ldml[i]], LdmlGlob(table, ldml, i + 1));
        r, i := r + [ldml[i]], i + 1;
      }
    }
  }

  method GlobifyPattern(segs: seq<Segment>) returns (r: string)
    ensures r == Globify(segs)
  {
    r := "";
    assert segs[0..] == segs;
    for i := 0 to |segs|
      invariant Globify(segs) == r + Globify(segs[i..])
    {
      assert segs[i..][1..] == segs[i + 1..];
      JoinAssoc(r, GlobOf(segs[i]), Globify(segs[i + 1..]));
      match segs[i] {
        case Literal(t) => r := r + t;
        case Field(f) =>
          if f.kind.Time? {
            var g := LdmlToGlob(LDML_TABLE, f.ldml);
            r := r + g;
          } else if f.width > 0 {
            var marks := WriteMarks(f.width);
            r := r + marks;
          } else {
            r := r + "*";
          }
      }
    }
  }

  /** The fields of the template, in the order of their capturing groups. */
  function FieldsOf(segs: seq<Segment>): seq<FieldSpec> {
    if segs == [] then [] else (if segs[0].Field? then [segs[0].field] else []) + FieldsOf(segs[1..])
  }

  method BuildGroup(seg: Segment) returns (g: Group)
    ensures g == GroupOf(seg)
  {
    match seg {
      case Literal(t) => return Quoted(t);
      case Field(f) =>
        match f.kind {
          case Str => return if f.width > 0 then Chars(f.width) else CharRun;
          case Int => return if f.width > 0 then Digits(f.width) else DigitRun;
          case Time =>
            var syms := LdmlToRegex(LDML_TABLE, f.ldml);
            return Stamp(syms);
        }
    }
  }

  lemma GroupsNext(segs: seq<Segment>, i: nat)
    requires i < |segs|
    ensures Groups(segs[..i + 1]) == Groups(segs[..i]) + [GroupOf(segs[i])]
    ensures FieldsOf(segs[i..]) == (if segs[i].Field? then [segs[i].field] else []) + FieldsOf(segs[i + 1..])
  {
    assert segs[..i + 1] == segs[..i] + [segs[i]] && segs[i..][1..] == segs[i + 1..];
  }

  method BuildParseRegex(segs: seq<Segment>) returns (groups: seq<Group>, fields: seq<FieldSpec>)
    ensures groups == Groups(segs) && fields == FieldsOf(segs)
  {
    groups, fields := [], [];
    assert segs[0..] == segs;
    for i := 0 to |segs|
      invariant groups == Groups(segs[..i])
      invariant fields + FieldsOf(segs[i..]) == FieldsOf(segs)
    {
      GroupsNext(segs, i);
      var g := BuildGroup(segs[i]);
      groups := groups + [g];
      if segs[i].Field? {
        JoinAssoc(fields, [segs[i].field], FieldsOf(segs[i + 1..]));
        fields := fields + [segs[i].field];
      }
    }
    assert segs[..|segs|] == segs;
  }

  /** The regular-expression engine: whatever cut it picks fits. */
  type Engine = (seq<Group>, string) -> Result<seq<string>>

  ghost predicate Sound(engine: Engine) {
    forall groups, s :: engine(groups, s).Ok? ==>
      Splits(groups, engine(groups, s).value) && Concat(engine(groups, s).value) == s
  }

  /** It finds a cut whenever there is one. */
  ghost predicate Complete(engine: Engine) {
    forall groups, pieces :: Splits(groups, pieces) ==> engine(groups, Concat(pieces)).Ok?
  }

  /** The path can be cut up as the template demands. */
  ghost predicate Fits(segs: seq<Segment>, s: string) {
    exists pieces :: Splits(Groups(segs), pieces) && Concat(pieces) == s
  }

  /** What the capturing groups caught: a quoted literal is no group. */
  function Submatches(groups: seq<Group>, pieces: seq<string>): (caught: seq<string>)
    requires |groups| == |pieces|
  {
    if groups == [] then []
    else (if groups[0].Quoted? then [] else [pieces[0]]) + Submatches(groups[1..], pieces[1..])
  }

  /** Reads a path: the values are those of some cut of it, whichever the engine chose. */
  method Parse(env: Env, segs: seq<Segment>, s: string, engine: Engine)
    returns (r: Result<map<string, Value>>, pieces: seq<string>)
    requires Sound(engine)
    ensures r.Ok? ==> Compiles(Groups(segs)) && Splits(Groups(segs), pieces) && Concat(pieces) == s
    ensures r.Ok? ==> r == Values(env, segs, pieces)
    ensures !Compiles(Groups(segs)) ==> r == Err(BadRegex)
    ensures Compiles(Groups(segs)) && !Fits(segs, s) ==> r == Err(NoMatch)
    ensures Compiles(Groups(segs)) && Fits(segs, s) && Complete(engine) ==>
              Splits(Groups(segs), pieces) && Concat(pieces) == s && r == Values(env, segs, pieces)
  {
    pieces := [];
    var groups, fields := BuildParseRegex(segs);
    if !Compiles(groups) { return Err(BadRegex), pieces; }
    var cut := engine(groups, s);
    if cut.Err? { return Err(NoMatch), pieces; }
    pieces := cut.value;
    assert Fits(segs, s);
    CaughtIsField(env, segs, pieces);
    r := ReadCaptures(env, fields, Submatches(groups, pieces));
  }

  /** The values of the fields, the i-th from the i-th capture. */
  function Captures(env: Env, fields: seq<FieldSpec>, caught: seq<string>): Result<map<string, Value>>
    requires |fields| == |caught|
  {
    if fields == [] then Ok(map[]) else
    match Capture(env, fields[0], caught[0])
    case Err(e) => Err(e)
    case Ok(v) => Overlay(map[fields[0].name := v], Captures(env, fields[1..], caught[1..]))
  }

  /** The i-th capture is the piece of the i-th field, wherever the literals stand. */
  lemma {:induction false} CaughtIsField(env: Env, segs: seq<Segment>, pieces: seq<string>)
    requires |segs| == |pieces|
    ensures |FieldsOf(segs)| == |Submatches(Groups(segs), pieces)|
    ensures Captures(env, FieldsOf(segs), Submatches(Groups(segs), pieces)) == Values(env, segs, pieces)
  {
    if segs != [] {
      assert Groups(segs)[1..] == Groups(segs[1..]);
      CaughtIsField(env, segs[1..], pieces[1..]);
      var fields, caught := FieldsOf(segs), Submatches(Groups(segs), pieces);
      if segs[0].Field? {
        assert fields[1..] == FieldsOf(segs[1..]) && caught[1..] == Submatches(Groups(segs[1..]), pieces[1..]);
      } else {
        assert fields == FieldsOf(segs[1..]) && caught == Submatches(Groups(segs[1..]), pieces[1..]);
      }
    }
  }

  method ReadCaptures(env: Env, fields: seq<FieldSpec>, caught: seq<string>) returns (r: Result<map<string, Value>>)
    requires |fields| == |caught|
    ensures r == Captures(env, fields, caught)
  {
    var vals: map<string, Value> := map[];
    ghost var whole := Captures(env, fields, caught);
    assert fields[0..] == fields && caught[0..] == caught;
    OverlayLaws(vals, map[], whole);
    for i := 0 to |fields|
      invariant whole == Overlay(vals, Captures(env, fields[i..], caught[i..]))
    {
      assert fields[i..][1..] == fields[i + 1..] && caught[i..][1..] == caught[i + 1..];
      var name, v := fields[i].name, Capture(env, fields[i], caught[i]);
      if v.Err? { return Err(v.error); }
      OverlayLaws(vals, map[name := v.value], Captures(env, fields[i + 1..], caught[i + 1..]));
      assert vals[name := v.value] == vals + map[name := v.value];
      vals := vals[name := v.value];
    }
    OverlayLaws(vals, map[], Ok(map[]));
    return Ok(vals);
  }

  lemma OverlayLaws(a: map<string, Value>, b: map<string, Value>, r: Result<map<string, Value>>)
    ensures Overlay(a, Overlay(b, r)) == Overlay(a + b, r) && Overlay(map[], r) == r && Overlay(a, Ok(map[])) == Ok(a)
  {
    if r.Ok? {
      assert a + (b + r.value) == a + b + r.value;
      assert map[] + r.value == r.value;
    }
    assert a + map[] == a;
  }
}
