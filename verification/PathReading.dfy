/** What reading a path says about the glob and about putting the path together again. */
module PathReading {
  import opened Decimal
  import opened Fields
  import opened Patterns
  import opened Matching

  // ---- time symbols: both translations are as long as the format ----

  function Width(syms: seq<Sym>): nat {
    if syms == [] then 0 else (if syms[0].Num? then syms[0].n else 1) + Width(syms[1..])
  }

  /** Position by position: the expression takes as many characters as the glob writes, and as the format has. */
  lemma {:induction false} LdmlWidths(table: Table, ldml: string, i: nat)
    requires i <= |ldml|
    ensures Width(LdmlRegex(table, ldml, i)) == |LdmlGlob(table, ldml, i)| == |ldml| - i
    decreases |ldml| - i
  {
    if i < |ldml| {
      var m := FirstMatch(table, 0, ldml, i);
      LdmlWidths(table, ldml, if m.Found? then i + |m.entry.symbol| else i + 1);
    }
  }

  // ---- globs ----

  /** The glob with every star standing for itself, so that pieces can be matched one by one. */
  predicate StarMatch(pat: string, s: string)
    decreases |pat| + |s|
  {
    if pat == "" then s == ""
    else if pat[0] == '*' then StarMatch(pat[1..], s) || (s != "" && s[0] != '/' && StarMatch(pat, s[1..]))
    else if pat[0] == '?' then s != "" && s[0] != '/' && StarMatch(pat[1..], s[1..])
    else pat[0] !in META && s != "" && s[0] == pat[0] && StarMatch(pat[1..], s[1..])
  }

  lemma {:induction false} StarJoin(p: string, s: string, q: string, t: string)
    requires StarMatch(p, s) && StarMatch(q, t)
    ensures StarMatch(p + q, s + t)
    decreases |p| + |s|
  {
    if p == "" {
      assert p + q == q && s + t == t;
    } else {
      assert (p + q)[1..] == p[1..] + q;
      if p[0] == '*' && StarMatch(p[1..], s) {
        StarJoin(p[1..], s, q, t);
      } else {
        assert (s + t)[1..] == s[1..] + t;
        StarJoin(if p[0] == '*' then p else p[1..], s[1..], q, t);
      }
    }
  }

  /** A star by itself leaves a rest that its pattern matches, without crossing a slash. */
  lemma {:induction false} StarSplits(p: string, s: string) returns (k: nat)
    requires p != "" && p[0] == '*' && StarMatch(p, s)
    ensures k <= |s| && '/' !in s[..k] && StarMatch(p[1..], s[k..])
    decreases |s|
  {
    if StarMatch(p[1..], s) {
      assert s[0..] == s;
      return 0;
    }
    var l := StarSplits(p, s[1..]);
    assert s[..l + 1] == [s[0]] + s[1..][..l] && s[l + 1..] == s[1..][l..];
    return l + 1;
  }

  /** Two stars in a row match no more than one slash-free run, after which the slash is their own. */
  lemma WholeStarsSplit(p: string, s: string) returns (k: nat)
    requires "**/" <= p && StarMatch(p, s)
    ensures k < |s| && s[k] == '/' && StarMatch(p[3..], s[k + 1..])
  {
    var i := StarSplits(p, s);
    var j := StarSplits(p[1..], s[i..]);
    assert p[1..][1..] == p[2..] && s[i..][j..] == s[i + j..];
    assert p[2..][1..] == p[3..] && s[i + j..][1..] == s[i + j + 1..];
    return i + j;
  }

  /** Giving a component of two stars its own meaning loses nothing. */
  lemma {:induction false} StarIsDoublestar(p: string, s: string, start: bool)
    requires StarMatch(p, s)
    ensures Doublestar(p, s, start)
    decreases |p| + |s|
  {
    if p != "" && !(s == "" && p in {"/**", "**/", "/**/"}) {
      if start && WholeStars(p) {
        if |p| > 2 {
          var k := WholeStarsSplit(p, s);
          StarIsDoublestar(p[3..], s[k + 1..], true);
        }
      } else if p[0] == '*' && StarMatch(p[1..], s) {
        StarIsDoublestar(p[1..], s, false);
      } else if p[0] == '*' {
        StarIsDoublestar(p, s[1..], false);
      } else {
        StarIsDoublestar(p[1..], s[1..], p[0] == '/');
      }
    }
  }

  /** No component of the glob is exactly two stars. */
  predicate NoWholeStars(p: string, start: bool) {
    p != "" ==> !(start && WholeStars(p)) && NoWholeStars(p[1..], p[0] == '/')
  }

  function Slashes(s: string): nat { if s == "" then 0 else (if s[0] == '/' then 1 else 0) + Slashes(s[1..]) }

  lemma {:induction false} SlashesJoin(s: string, t: string)
    ensures Slashes(s + t) == Slashes(s) + Slashes(t)
  {
    if s == "" {
      assert s + t == t;
    } else {
      assert (s + t)[1..] == s[1..] + t;
      SlashesJoin(s[1..], t);
    }
  }

  lemma {:induction false} NoSlashes(s: string)
    ensures Slashes(s) == 0 <==> '/' !in s
  {
    if s != "" {
      NoSlashes(s[1..]);
      assert s == [s[0]] + s[1..];
    }
  }

  /** Only a slash matches a slash, except in a component of two stars. */
  lemma {:induction false} GlobBoundsSlashes(p: string, s: string, start: bool)
    requires Doublestar(p, s, start) && NoWholeStars(p, start)
    ensures Slashes(s) <= Slashes(p)
    decreases |p| + |s|
  {
    if p != "" && s != "" {
      if p[0] == '*' && Doublestar(p[1..], s, false) {
        GlobBoundsSlashes(p[1..], s, false);
      } else if p[0] == '*' {
        GlobBoundsSlashes(p, s[1..], false);
      } else {
        GlobBoundsSlashes(p[1..], s[1..], p[0] == '/');
      }
    }
  }

  lemma {:induction false} StarKeepsSlashes(p: string, s: string)
    requires StarMatch(p, s)
    ensures Slashes(p) == Slashes(s)
    decreases |p| + |s|
  {
    if p != "" {
      if p[0] == '*' && StarMatch(p[1..], s) {
        StarKeepsSlashes(p[1..], s);
      } else {
        StarKeepsSlashes(if p[0] == '*' then p else p[1..], s[1..]);
      }
    }
  }

  lemma {:induction false} TextMatchesItself(t: string)
    requires MetaFree(t)
    ensures StarMatch(t, t)
  {
    if t != "" { TextMatchesItself(t[1..]); }
  }

  lemma {:induction false} MarksMatch(s: string)
    requires '/' !in s
    ensures StarMatch(Marks(|s|), s) && StarMatch("*", s)
  {
    if s != "" {
      assert Marks(|s|)[1..] == Marks(|s[1..]|);
      MarksMatch(s[1..]);
    }
  }

  lemma DigitsHaveNoSlash(s: string)
    requires AllDigits(s)
    ensures '/' !in s
  {
  }

  /** No character of a format that is copied as it stands is a glob metacharacter. */
  predicate PlainSyms(syms: seq<Sym>) { forall k :: 0 <= k < |syms| && syms[k].Lit? ==> syms[k].c !in META }

  lemma {:induction false} StampMatches(table: Table, ldml: string, i: nat, piece: string)
    requires i <= |ldml| && PlainSyms(LdmlRegex(table, ldml, i)) && SymsMatch(LdmlRegex(table, ldml, i), piece)
    ensures StarMatch(LdmlGlob(table, ldml, i), piece)
    decreases |ldml| - i
  {
    if i < |ldml| {
      var syms := LdmlRegex(table, ldml, i);
      var m := FirstMatch(table, 0, ldml, i);
      var n, next := if m.Found? then m.entry.digits else 1, if m.Found? then i + |m.entry.symbol| else i + 1;
      assert syms[1..] == LdmlRegex(table, ldml, next);
      StampMatches(table, ldml, next, piece[n..]);
      assert piece == piece[..n] + piece[n..];
      if m.Found? {
        DigitsHaveNoSlash(piece[..n]);
        MarksMatch(piece[..n]);
        StarJoin(Marks(n), piece[..n], LdmlGlob(table, ldml, next), piece[n..]);
      } else {
        assert syms[0] == Lit(ldml[i]) && piece[..1] == [ldml[i]];
        TextMatchesItself([ldml[i]]);
        StarJoin([ldml[i]], piece[..1], LdmlGlob(table, ldml, next), piece[n..]);
      }
    }
  }

  predicate PlainSegment(seg: Segment) {
    match seg
    case Literal(t) => MetaFree(t)
    case Field(f) => f.kind.Time? ==> PlainSyms(LdmlRegex(LDML_TABLE, f.ldml, 0))
  }

  predicate IsTime(seg: Segment) { seg.Field? && seg.field.kind.Time? }

  predicate IsStr(seg: Segment) { seg.Field? && seg.field.kind.Str? }

  /** One segment: its glob matches its piece exactly when no string was captured with a slash in it. */
  lemma PieceMatchesGlob(seg: Segment, piece: string)
    requires PlainSegment(seg) && GroupMatches(GroupOf(seg), piece)
    requires IsStr(seg) ==> '/' !in piece
    ensures StarMatch(GlobOf(seg), piece)
  {
    match seg {
      case Literal(t) => TextMatchesItself(t);
      case Field(f) =>
        match f.kind {
          case Time => StampMatches(LDML_TABLE, f.ldml, 0, piece);
          case Int => DigitsHaveNoSlash(piece); MarksMatch(piece);
          case Str => MarksMatch(piece);
        }
    }
  }

  lemma PieceSlashes(seg: Segment, piece: string)
    requires PlainSegment(seg) && GroupMatches(GroupOf(seg), piece)
    ensures Slashes(GlobOf(seg)) <= Slashes(piece)
    ensures IsStr(seg) && '/' in piece ==> Slashes(GlobOf(seg)) < Slashes(piece)
  {
    if IsStr(seg) {
      NoSlashes(piece);
      NoSlashes(GlobOf(seg));
    } else {
      PieceMatchesGlob(seg, piece);
      StarKeepsSlashes(GlobOf(seg), piece);
    }
  }

  lemma {:induction false} PathSlashes(segs: seq<Segment>, pieces: seq<string>)
    requires |segs| == |pieces|
    requires forall i :: 0 <= i < |segs| ==> PlainSegment(segs[i]) && GroupMatches(GroupOf(segs[i]), pieces[i])
    ensures Slashes(Globify(segs)) <= Slashes(Concat(pieces))
    ensures (exists i :: 0 <= i < |segs| && IsStr(segs[i]) && '/' in pieces[i]) ==>
              Slashes(Globify(segs)) < Slashes(Concat(pieces))
  {
    if segs != [] {
      PieceSlashes(segs[0], pieces[0]);
      PathSlashes(segs[1..], pieces[1..]);
      SlashesJoin(GlobOf(segs[0]), Globify(segs[1..]));
      SlashesJoin(pieces[0], Concat(pieces[1..]));
      forall i | 0 < i < |segs| && IsStr(segs[i]) && '/' in pieces[i]
        ensures IsStr(segs[1..][i - 1]) && '/' in pieces[1..][i - 1]
      {
      }
    }
  }

  lemma {:induction false} PathMatchesGlob(segs: seq<Segment>, pieces: seq<string>)
    requires |segs| == |pieces|
    requires forall i :: 0 <= i < |segs| ==> PlainSegment(segs[i]) && GroupMatches(GroupOf(segs[i]), pieces[i])
    requires forall i :: 0 <= i < |segs| && IsStr(segs[i]) ==> '/' !in pieces[i]
    ensures StarMatch(Globify(segs), Concat(pieces))
  {
    if segs != [] {
      PieceMatchesGlob(segs[0], pieces[0]);
      PathMatchesGlob(segs[1..], pieces[1..]);
      StarJoin(GlobOf(segs[0]), pieces[0], Globify(segs[1..]), Concat(pieces[1..]));
    }
  }

  /** No captured string crosses a directory. */
  predicate NoSlashCaptured(segs: seq<Segment>, pieces: seq<string>)
    requires |segs| == |pieces|
  {
    forall i :: 0 <= i < |segs| && IsStr(segs[i]) ==> '/' !in pieces[i]
  }

  /** The glob finds every path the parser accepts without a captured string crossing a directory, however the
      parser cut it; and where no component of the glob is exactly two stars, it finds no other. */
  lemma GlobFindsPath(segs: seq<Segment>, pieces: seq<string>)
    requires Splits(Groups(segs), pieces) && forall i :: 0 <= i < |segs| ==> PlainSegment(segs[i])
    ensures NoSlashCaptured(segs, pieces) ==> GlobMatch(Globify(segs), Concat(pieces))
    ensures NoWholeStars(Globify(segs), true) ==>
              (GlobMatch(Globify(segs), Concat(pieces)) <==> NoSlashCaptured(segs, pieces))
  {
    forall i | 0 <= i < |segs| ensures GroupMatches(GroupOf(segs[i]), pieces[i]) {
      assert GroupMatches(Groups(segs)[i], pieces[i]);
    }
    if NoSlashCaptured(segs, pieces) {
      PathMatchesGlob(segs, pieces);
      StarIsDoublestar(Globify(segs), Concat(pieces), true);
    } else {
      PathSlashes(segs, pieces);
      if GlobMatch(Globify(segs), Concat(pieces)) && NoWholeStars(Globify(segs), true) {
        GlobBoundsSlashes(Globify(segs), Concat(pieces), true);
      }
    }
  }

  /** One step of the glob over a component of two stars, over another star, and over any other character. */
  lemma WholeStarsStep(pat: string, name: string, k: nat)
    requires "**/" <= pat && k < |name| && name[k] == '/' && Doublestar(pat[3..], name[k + 1..], true)
    ensures Doublestar(pat, name, true)
  {
  }

  lemma StarStep(pat: string, name: string, start: bool)
    requires pat != "" && pat[0] == '*' && !(start && WholeStars(pat))
    requires Doublestar(pat[1..], name, false) || (name != "" && name[0] != '/' && Doublestar(pat, name[1..], false))
    ensures Doublestar(pat, name, start)
  {
  }

  lemma CharStep(pat: string, name: string, start: bool)
    requires pat != "" && pat[0] != '*' && name != ""
    requires if pat[0] == '?' then name[0] != '/' else pat[0] !in META && name[0] == pat[0]
    requires Doublestar(pat[1..], name[1..], pat[0] == '/')
    ensures Doublestar(pat, name, start)
  {
  }

  lemma WholeStarsLead(t: string, r: string, u: string)
    requires StarMatch(r, u) && (r == "" || r[0] == '/')
    ensures Doublestar("**" + r, t + u, true)
  {
    var pat, name := "**" + r, t + u;
    if r != "" {
      assert pat[3..] == r[1..] && name[|t|] == '/' && name[|t| + 1..] == u[1..];
      StarIsDoublestar(r[1..], u[1..], true);
      WholeStarsStep(pat, name, |t|);
    }
  }

  /** Two stars that fill a component match any text there, slashes and all. */
  lemma {:induction false} WholeStarsCross(p: string, s: string, t: string, r: string, u: string, start: bool)
    requires StarMatch(p, s) && StarMatch(r, u)
    requires (if p == "" then start else p[|p| - 1] == '/') && (r == "" || r[0] == '/')
    ensures Doublestar(p + "**" + r, s + t + u, start)
    decreases |p| + |s|
  {
    var pat, name := p + "**" + r, s + t + u;
    if p == "" {
      assert pat == "**" + r && name == t + u;
      WholeStarsLead(t, r, u);
    } else if start && "**/" <= p {
      var k := WholeStarsSplit(p, s);
      assert pat[3..] == p[3..] + "**" + r && name[k + 1..] == s[k + 1..] + t + u && name[k] == '/';
      assert p[3..] != "" ==> p[3..][|p[3..]| - 1] == p[|p| - 1];
      WholeStarsCross(p[3..], s[k + 1..], t, r, u, true);
      WholeStarsStep(pat, name, k);
    } else {
      StepCrosses(p, s, t, r, u, start);
    }
  }

  lemma {:induction false} StepCrosses(p: string, s: string, t: string, r: string, u: string, start: bool)
    requires StarMatch(p, s) && StarMatch(r, u) && p != "" && p[|p| - 1] == '/' && (r == "" || r[0] == '/')
    requires !(start && "**/" <= p)
    ensures Doublestar(p + "**" + r, s + t + u, start)
    decreases |p| + |s|, 0
  {
    var pat, name := p + "**" + r, s + t + u;
    assert pat[0] == p[0] && pat[1..] == p[1..] + "**" + r
           && (s != "" ==> name[0] == s[0] && name[1..] == s[1..] + t + u);
    assert p[1..] != "" ==> p[1..][|p[1..]| - 1] == p[|p| - 1];
    assert |p| < 3 ==> !("**/" <= pat) by { assert pat[|p| - 1] == '/'; }
    if p[0] == '*' && StarMatch(p[1..], s) {
      WholeStarsCross(p[1..], s, t, r, u, false);
      StarStep(pat, name, start);
    } else if p[0] == '*' {
      WholeStarsCross(p, s[1..], t, r, u, false);
      StarStep(pat, name, start);
    } else {
      WholeStarsCross(p[1..], s[1..], t, r, u, p[0] == '/');
      CharStep(pat, name, start);
    }
  }

  predicate IsFree(seg: Segment) { seg.Field? && !seg.field.kind.Time? && seg.field.width == 0 }

  lemma {:induction false} GlobifyJoin(a: seq<Segment>, b: seq<Segment>)
    ensures Globify(a + b) == Globify(a) + Globify(b)
  {
    if a == [] {
      assert a + b == b;
    } else {
      assert (a + b)[1..] == a[1..] + b;
      GlobifyJoin(a[1..], b);
    }
  }

  /** The condition on stars is needed: where two fields without width fill a component between them, the glob finds
      the path whatever they captured. */
  lemma AdjacentFieldsCross(pre: seq<Segment>, f: Segment, g: Segment, post: seq<Segment>,
                            before: seq<string>, x: string, y: string, after: seq<string>)
    requires IsFree(f) && IsFree(g) && |pre| == |before| && |post| == |after|
    requires Globify(pre) == "" || Globify(pre)[|Globify(pre)| - 1] == '/'
    requires Globify(post) == "" || Globify(post)[0] == '/'
    requires StarMatch(Globify(pre), Concat(before)) && StarMatch(Globify(post), Concat(after))
    ensures GlobMatch(Globify(pre + [f, g] + post), Concat(before) + (x + y) + Concat(after))
  {
    GlobifyJoin(pre + [f, g], post);
    GlobifyJoin(pre, [f, g]);
    assert [f, g][1..] == [g] && [g][1..] == [] && Globify([g]) == "*";
    assert Globify([f, g]) == "**";
    WholeStarsCross(Globify(pre), Concat(before), x + y, Globify(post), Concat(after), true);
  }

  /** No two fields without width stand side by side. */
  predicate FieldsApart(segs: seq<Segment>) { forall i :: 0 < i < |segs| && IsFree(segs[i]) ==> !IsFree(segs[i - 1]) }

  predicate NoTwoStars(p: string) { forall i :: 0 < i < |p| && p[i] == '*' ==> p[i - 1] != '*' }

  lemma {:induction false} NoTwoStarsNoWhole(p: string, start: bool)
    requires NoTwoStars(p)
    ensures NoWholeStars(p, start)
  {
    if p != "" {
      assert |p| >= 2 && p[0] == '*' ==> p[1] != '*';
      assert forall i :: 0 <= i < |p[1..]| ==> p[1..][i] == p[i + 1];
      NoTwoStarsNoWhole(p[1..], p[0] == '/');
    }
  }

  lemma {:induction false} StampHasNoStar(table: Table, ldml: string, i: nat)
    requires i <= |ldml| && PlainSyms(LdmlRegex(table, ldml, i))
    ensures '*' !in LdmlGlob(table, ldml, i)
    decreases |ldml| - i
  {
    if i < |ldml| {
      var syms := LdmlRegex(table, ldml, i);
      var m := FirstMatch(table, 0, ldml, i);
      var next := if m.Found? then i + |m.entry.symbol| else i + 1;
      assert syms[1..] == LdmlRegex(table, ldml, next);
      assert m.NotFound? ==> syms[0].c !in META;
      StampHasNoStar(table, ldml, next);
    }
  }

  lemma StarsOnlyFromFree(seg: Segment)
    requires PlainSegment(seg)
    ensures if IsFree(seg) then GlobOf(seg) == "*" else '*' !in GlobOf(seg)
  {
    if seg.Field? && seg.field.kind.Time? { StampHasNoStar(LDML_TABLE, seg.field.ldml, 0); }
  }

  /** As in every accepted template: no empty text and no empty time format. */
  predicate NonEmpty(seg: Segment) {
    match seg case Literal(t) => t != "" case Field(f) => f.kind.Time? ==> f.ldml != ""
  }

  lemma GlobOfNonEmpty(seg: Segment)
    requires NonEmpty(seg)
    ensures GlobOf(seg) != ""
  {
    if IsTime(seg) { LdmlWidths(LDML_TABLE, seg.field.ldml, 0); }
  }

  lemma {:induction false} ApartHasNoTwoStars(segs: seq<Segment>)
    requires FieldsApart(segs) && forall i :: 0 <= i < |segs| ==> PlainSegment(segs[i]) && NonEmpty(segs[i])
    ensures NoTwoStars(Globify(segs)) && (segs == [] <==> Globify(segs) == "")
    ensures segs != [] && Globify(segs)[0] == '*' ==> IsFree(segs[0])
  {
    if segs != [] {
      var g, rest := GlobOf(segs[0]), Globify(segs[1..]);
      StarsOnlyFromFree(segs[0]);
      GlobOfNonEmpty(segs[0]);
      assert forall i :: 0 <= i < |segs[1..]| ==> segs[1..][i] == segs[i + 1];
      ApartHasNoTwoStars(segs[1..]);
      assert forall i :: 0 <= i < |g| ==> g[i] in g;
      forall i | 0 < i < |g + rest| && (g + rest)[i] == '*' ensures (g + rest)[i - 1] != '*' {
        assert i >= |g| && rest[i - |g|] == '*';
      }
    }
  }

  /** Where no two fields without width are neighbours, the glob finds exactly the paths whose captured strings stay
      within their directory. */
  lemma GlobFindsExactly(segs: seq<Segment>, pieces: seq<string>)
    requires Splits(Groups(segs), pieces) && FieldsApart(segs)
    requires forall i :: 0 <= i < |segs| ==> PlainSegment(segs[i]) && NonEmpty(segs[i])
    ensures GlobMatch(Globify(segs), Concat(pieces)) <==> NoSlashCaptured(segs, pieces)
  {
    ApartHasNoTwoStars(segs);
    NoTwoStarsNoWhole(Globify(segs), true);
    GlobFindsPath(segs, pieces);
  }

  // ---- putting a path together again ----

  predicate DistinctNames(segs: seq<Segment>) {
    forall i, j :: 0 <= i < j < |segs| && segs[i].Field? && segs[j].Field? ==> segs[i].field.name != segs[j].field.name
  }

  /** A number read without a fixed width. */
  predicate IsFreeInt(seg: Segment) { seg.Field? && seg.field.kind.Int? && seg.field.width == 0 }

  /** The value of each field is what its own piece was read as. */
  ghost predicate Hold(env: Env, segs: seq<Segment>, pieces: seq<string>, vals: map<string, Value>) {
    |segs| == |pieces| && forall i :: 0 <= i < |segs| && segs[i].Field? ==>
      segs[i].field.name in vals && Capture(env, segs[i].field, pieces[i]) == Ok(vals[segs[i].field.name])
  }

  lemma {:induction false} ValuesNames(env: Env, segs: seq<Segment>, pieces: seq<string>, name: string)
    requires |segs| == |pieces| && Values(env, segs, pieces).Ok? && name in Values(env, segs, pieces).value
    ensures exists i :: 0 <= i < |segs| && segs[i].Field? && segs[i].field.name == name
  {
    if segs[0].Literal? || segs[0].field.name != name {
      ValuesNames(env, segs[1..], pieces[1..], name);
      var i :| 0 <= i < |segs[1..]| && segs[1..][i].Field? && segs[1..][i].field.name == name;
      assert segs[i + 1].Field? && segs[i + 1].field.name == name;
    }
  }

  lemma {:induction false} ValuesHold(env: Env, segs: seq<Segment>, pieces: seq<string>)
    requires |segs| == |pieces| && Values(env, segs, pieces).Ok? && DistinctNames(segs)
    ensures Hold(env, segs, pieces, Values(env, segs, pieces).value)
  {
    if segs != [] {
      assert forall i :: 0 <= i < |segs[1..]| ==> segs[1..][i] == segs[i + 1] && pieces[1..][i] == pieces[i + 1];
      ValuesHold(env, segs[1..], pieces[1..]);
      var rest := Values(env, segs[1..], pieces[1..]).value;
      if segs[0].Field? && segs[0].field.name in rest {
        ValuesNames(env, segs[1..], pieces[1..], segs[0].field.name);
        assert false;
      }
      forall i | 0 < i < |segs| && segs[i].Field?
        ensures segs[i].field.name in rest && Capture(env, segs[i].field, pieces[i]) == Ok(rest[segs[i].field.name])
      {
        assert segs[1..][i - 1].Field?;
      }
    }
  }

  /** The host prints a time it has read, in the field's own zone, at the width of what it read. */
  ghost predicate KeepsWidth(env: Env, seg: Segment, piece: string) {
    IsTime(seg) && env.parseTime(seg.field.ldml, piece, seg.field.rawTz).Ok? ==>
      var time := env.parseTime(seg.field.ldml, piece, seg.field.rawTz).value;
      |env.formatTime(time, seg.field.ldml, seg.field.rawTz)| == |piece|
  }

  /** What is lost in reading and printing: zeros in front of a number without width, and times that the host prints
      in another way than they were written in that zone. */
  ghost predicate Regular(env: Env, seg: Segment, piece: string) {
    && (IsFreeInt(seg) ==> Canonical(piece))
    && (IsTime(seg) ==>
          var time := env.parseTime(seg.field.ldml, piece, seg.field.rawTz);
          time.Ok? && env.formatTime(time.value, seg.field.ldml, seg.field.rawTz) == piece)
  }

  /** One field printed again: its piece if that was regular, and never longer. */
  lemma PieceAgain(env: Env, seg: Segment, piece: string, vals: map<string, Value>)
    requires GroupMatches(GroupOf(seg), piece) && Compiles([GroupOf(seg)]) && KeepsWidth(env, seg, piece)
    requires Hold(env, [seg], [piece], vals)
    ensures var t := ComposeSegment(env, seg, vals, false);
            && t.Ok? && |t.value| <= |piece| && (t.value == piece <==> Regular(env, seg, piece))
            && (IsFreeInt(seg) && !Canonical(piece) ==> |t.value| < |piece|)
  {
    assert [seg][0] == seg && [piece][0] == piece && [GroupOf(seg)][0] == GroupOf(seg);
    if seg.Field? && seg.field.kind.Int? {
      PaddedReadsBack(piece);
      ReadsBackIffCanonical(piece);
    }
  }

  ghost predicate AllRegular(env: Env, segs: seq<Segment>, pieces: seq<string>)
    requires |segs| == |pieces|
  {
    forall i :: 0 <= i < |segs| ==> Regular(env, segs[i], pieces[i])
  }

  lemma RegularSplit(env: Env, segs: seq<Segment>, pieces: seq<string>)
    requires |segs| == |pieces| && segs != []
    ensures AllRegular(env, segs, pieces) <==>
              Regular(env, segs[0], pieces[0]) && AllRegular(env, segs[1..], pieces[1..])
  {
    if AllRegular(env, segs[1..], pieces[1..]) {
      forall i | 0 < i < |segs| ensures Regular(env, segs[i], pieces[i]) {
        assert Regular(env, segs[1..][i - 1], pieces[1..][i - 1]);
      }
    }
  }

  lemma {:induction false} PathAgain(env: Env, segs: seq<Segment>, pieces: seq<string>, vals: map<string, Value>)
    requires Splits(Groups(segs), pieces) && Compiles(Groups(segs)) && Hold(env, segs, pieces, vals)
    requires forall i :: 0 <= i < |segs| ==> KeepsWidth(env, segs[i], pieces[i])
    ensures Compose(env, segs, vals, false).Ok? && |Compose(env, segs, vals, false).value| <= |Concat(pieces)|
    ensures Compose(env, segs, vals, false).value == Concat(pieces) <==> AllRegular(env, segs, pieces)
  {
    if segs != [] {
      assert GroupMatches(Groups(segs)[0], pieces[0]) && Groups(segs)[0] == GroupOf(segs[0]);
      assert Hold(env, [segs[0]], [pieces[0]], vals);
      PieceAgain(env, segs[0], pieces[0], vals);
      assert Groups(segs)[1..] == Groups(segs[1..]);
      PathAgain(env, segs[1..], pieces[1..], vals);
      RegularSplit(env, segs, pieces);
      JoinedEqual(ComposeSegment(env, segs[0], vals, false).value, pieces[0],
                  Compose(env, segs[1..], vals, false).value, Concat(pieces[1..]));
    }
  }

  lemma JoinedEqual(a: string, b: string, x: string, y: string)
    requires |a| <= |b| && |x| <= |y|
    ensures a + x == b + y <==> a == b && x == y
  {
    if a + x == b + y {
      assert |a| == |b|;
      assert a == (a + x)[..|a|] && b == (b + y)[..|b|];
      assert (a + x)[|a|..] == x && (b + y)[|b|..] == y;
    }
  }

  /** Composing what was parsed gives the path back exactly when no number without width was written with zeros in
      front and the host prints every time as it was written, in the zone of its field, whichever cut the parser
      chose. */
  lemma Reassembly(env: Env, segs: seq<Segment>, pieces: seq<string>)
    requires Splits(Groups(segs), pieces) && Compiles(Groups(segs)) && DistinctNames(segs)
    requires forall i :: 0 <= i < |segs| ==> KeepsWidth(env, segs[i], pieces[i])
    requires Values(env, segs, pieces).Ok?
    ensures Compose(env, segs, Values(env, segs, pieces).value, false) == Ok(Concat(pieces)) <==>
            forall i :: 0 <= i < |segs| ==> Regular(env, segs[i], pieces[i])
  {
    ValuesHold(env, segs, pieces);
    PathAgain(env, segs, pieces, Values(env, segs, pieces).value);
  }

  // ---- when a cut can be read ----

  /** A 64-bit number, or a time the host can read in the field's zone. */
  ghost predicate Readable(env: Env, seg: Segment, piece: string) {
    seg.Field? ==>
      && (seg.field.kind.Int? ==> piece != "" && AllDigits(piece) && ToNat(piece) < 0x8000_0000_0000_0000)
      && (seg.field.kind.Time? ==> env.parseTime(seg.field.ldml, piece, seg.field.rawTz).Ok?)
  }

  /** Reading a cut fails only on a number that does not fit or a time the host refuses. */
  lemma {:induction false} ReadIffReadable(env: Env, segs: seq<Segment>, pieces: seq<string>)
    requires |segs| == |pieces|
    ensures Values(env, segs, pieces).Ok? <==> forall i :: 0 <= i < |segs| ==> Readable(env, segs[i], pieces[i])
  {
    if segs != [] {
      ReadIffReadable(env, segs[1..], pieces[1..]);
      if Values(env, segs[1..], pieces[1..]).Ok? {
        forall i | 0 < i < |segs| ensures Readable(env, segs[i], pieces[i]) {
          assert Readable(env, segs[1..][i - 1], pieces[1..][i - 1]);
        }
      }
      if forall i :: 0 <= i < |segs| ==> Readable(env, segs[i], pieces[i]) {
        forall i | 0 <= i < |segs| - 1 ensures Readable(env, segs[1..][i], pieces[1..][i]) {
          assert Readable(env, segs[i + 1], pieces[i + 1]);
        }
      }
    }
  }
}
