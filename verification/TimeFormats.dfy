/** What a time format of a template stands for, symbol by symbol, in the expression and in the glob. */
module TimeFormats {
  import opened Decimal
  import opened Fields
  import opened Patterns
  import opened Matching

  /** The seven time symbols, and text between them. */
  datatype TimePart = Year | Month | Day | Hour | Minute | Second | ShortYear | Text(text: string)

  function Spelled(part: TimePart): string {
    match part
    case Year => "yyyy"
    case Month => "MM"
    case Day => "dd"
    case Hour => "HH"
    case Minute => "mm"
    case Second => "ss"
    case ShortYear => "yy"
    case Text(t) => t
  }

  function Format(parts: seq<TimePart>): string {
    if parts == [] then "" else Spelled(parts[0]) + Format(parts[1..])
  }

  predicate SymbolLetter(c: char) { c == 'y' || c == 'M' || c == 'd' || c == 'H' || c == 'm' || c == 's' }

  predicate LetterFree(t: string) { forall i :: 0 <= i < |t| ==> !SymbolLetter(t[i]) }

  predicate Plain(parts: seq<TimePart>) { forall i :: 0 <= i < |parts| && parts[i].Text? ==> LetterFree(parts[i].text) }

  /** The piece is the parts one after another: four digits for a year, two for the other symbols, and each text. */
  predicate CutAs(parts: seq<TimePart>, piece: string) {
    if parts == [] then piece == "" else
    match parts[0]
    case Year => |piece| >= 4 && AllDigits(piece[..4]) && CutAs(parts[1..], piece[4..])
    case Text(t) => t <= piece && CutAs(parts[1..], piece[|t|..])
    case _ => |piece| >= 2 && AllDigits(piece[..2]) && CutAs(parts[1..], piece[2..])
  }

  /** The glob of the parts: a mark for every digit, and each text. */
  function Marked(parts: seq<TimePart>): string {
    if parts == [] then "" else
    (match parts[0] case Year => "????" case Text(t) => t case _ => "??") + Marked(parts[1..])
  }

  // ---- position by position ----

  /** Symbol letters come in pairs. */
  predicate Paired(f: string) {
    f == "" || (if SymbolLetter(f[0]) then |f| >= 2 && f[1] == f[0] && Paired(f[2..]) else Paired(f[1..]))
  }

  /** A digit for every symbol letter, and everything else as it is. */
  ghost predicate Fits(f: string, piece: string) {
    |piece| == |f| && forall i :: 0 <= i < |f| ==> if SymbolLetter(f[i]) then IsDigit(piece[i]) else piece[i] == f[i]
  }

  function Marks1(c: char): char { if SymbolLetter(c) then '?' else c }

  ghost predicate FitsGlob(f: string, glob: string) {
    |glob| == |f| && forall i :: 0 <= i < |f| ==> glob[i] == Marks1(f[i])
  }

  /** The table's entry at a position of a paired format: two letters, or four of them for the long year. */
  lemma EntryAt(f: string, i: nat)
    requires i < |f| && Paired(f[i..])
    ensures var m := FirstMatch(LDML_TABLE, 0, f, i);
            if SymbolLetter(f[i])
            then m.Found? && (|m.entry.symbol| == 2 || |m.entry.symbol| == 4) && i + |m.entry.symbol| <= |f|
                 && (forall k :: i <= k < i + |m.entry.symbol| ==> SymbolLetter(f[k]))
                 && Paired(f[i + |m.entry.symbol|..])
            else m.NotFound?
  {
    var t := LDML_TABLE;
    assert f[i..][0] == f[i];
    if !SymbolLetter(f[i]) {
      NoSymbol(f, i);
    } else {
      assert f[i + 1] == f[i] && f[i..][2..] == f[i + 2..];
      PairIsSymbol(f, i);
      var m := FirstMatch(t, 0, f, i);
      if |m.entry.symbol| == 4 { assert f[i + 2..][2..] == f[i + 4..] && f[i + 2..][0] == f[i + 2]; }
    }
  }

  lemma NoSymbol(f: string, i: nat)
    requires i < |f| && !SymbolLetter(f[i])
    ensures FirstMatch(LDML_TABLE, 0, f, i).NotFound?
  {
    if FirstMatch(LDML_TABLE, 0, f, i).Found? { FoundIsLetter(f, i); }
  }

  lemma FoundIsLetter(f: string, i: nat)
    requires i < |f| && FirstMatch(LDML_TABLE, 0, f, i).Found?
    ensures SymbolLetter(f[i])
  {
    var symbol := FirstMatch(LDML_TABLE, 0, f, i).entry.symbol;
    FoundIsEntry(f, i, 0);
    assert symbol[0] == f[i..i + |symbol|][0] == f[i];
  }

  lemma {:induction false} FoundIsEntry(f: string, i: nat, k: nat)
    requires k <= |LDML_TABLE| && FirstMatch(LDML_TABLE, k, f, i).Found?
    ensures FirstMatch(LDML_TABLE, k, f, i).entry in LDML_TABLE
    decreases |LDML_TABLE| - k
  {
    if !StartsAt(f, i, LDML_TABLE[k].symbol) { FoundIsEntry(f, i, k + 1); }
  }

  /** Every doubled letter is a symbol of the table, or half of one. */
  lemma PairIsSymbol(f: string, i: nat)
    requires i + 1 < |f| && SymbolLetter(f[i]) && f[i + 1] == f[i]
    ensures var m := FirstMatch(LDML_TABLE, 0, f, i);
            && m.Found? && m.entry in LDML_TABLE && StartsAt(f, i, m.entry.symbol)
            && (|m.entry.symbol| == 2 || m.entry.symbol == "yyyy")
  {
    assert f[i..i + 2] == [f[i], f[i]];
    var symbol := [f[i], f[i]];
    var k := if symbol == "MM" then 1 else if symbol == "dd" then 2 else if symbol == "HH" then 3
             else if symbol == "mm" then 4 else if symbol == "ss" then 5 else 6;
    assert LDML_TABLE[k].symbol == symbol && StartsAt(f, i, LDML_TABLE[k].symbol);
    FoundIsEntry(f, i, 0);
  }

  lemma DigitsFit(f: string, n: nat, piece: string)
    requires n <= |f| && forall k :: 0 <= k < n ==> SymbolLetter(f[k])
    ensures Fits(f, piece) <==> n <= |piece| && AllDigits(piece[..n]) && Fits(f[n..], piece[n..])
  {
    if n <= |piece| && AllDigits(piece[..n]) && Fits(f[n..], piece[n..]) {
      forall k | 0 <= k < |f| ensures if SymbolLetter(f[k]) then IsDigit(piece[k]) else piece[k] == f[k] {
        if k < n { assert piece[..n][k] == piece[k]; }
        else { assert f[n..][k - n] == f[k] && piece[n..][k - n] == piece[k]; }
      }
    }
    if Fits(f, piece) {
      forall k | 0 <= k < |f| - n
        ensures if SymbolLetter(f[n..][k]) then IsDigit(piece[n..][k]) else piece[n..][k] == f[n..][k]
      {
        assert f[n..][k] == f[n + k] && piece[n..][k] == piece[n + k];
      }
    }
  }

  lemma CharFits(f: string, piece: string)
    requires f != "" && !SymbolLetter(f[0])
    ensures Fits(f, piece) <==> piece != "" && piece[0] == f[0] && Fits(f[1..], piece[1..])
  {
    if piece != "" && piece[0] == f[0] && Fits(f[1..], piece[1..]) {
      forall k | 0 < k < |f| ensures if SymbolLetter(f[k]) then IsDigit(piece[k]) else piece[k] == f[k] {
        assert f[1..][k - 1] == f[k] && piece[1..][k - 1] == piece[k];
      }
    }
    if Fits(f, piece) {
      forall k | 0 <= k < |f| - 1
        ensures if SymbolLetter(f[1..][k]) then IsDigit(piece[1..][k]) else piece[1..][k] == f[1..][k]
      {
        assert f[1..][k] == f[1 + k] && piece[1..][k] == piece[1 + k];
      }
    }
  }

  /** The expression of a paired format matches exactly the pieces that fit it. */
  lemma {:induction false} PairedReads(f: string, i: nat, piece: string)
    requires i <= |f| && Paired(f[i..])
    ensures SymsMatch(LdmlRegex(LDML_TABLE, f, i), piece) <==> Fits(f[i..], piece)
    decreases |f| - i
  {
    if i < |f| {
      EntryAt(f, i);
      var syms, m := LdmlRegex(LDML_TABLE, f, i), FirstMatch(LDML_TABLE, 0, f, i);
      var n := if m.Found? then |m.entry.symbol| else 1;
      assert syms[1..] == LdmlRegex(LDML_TABLE, f, i + n) && f[i..][n..] == f[i + n..] && f[i..][0] == f[i];
      if m.Found? {
        assert forall k :: 0 <= k < n ==> f[i..][k] == f[i + k];
        DigitsFit(f[i..], n, piece);
      } else {
        CharFits(f[i..], piece);
      }
      if n <= |piece| { PairedReads(f, i + n, piece[n..]); }
    }
  }

  /** And its glob has a mark for every letter. */
  lemma {:induction false} PairedGlobs(f: string, i: nat)
    requires i <= |f| && Paired(f[i..])
    ensures FitsGlob(f[i..], LdmlGlob(LDML_TABLE, f, i))
    decreases |f| - i
  {
    if i < |f| {
      EntryAt(f, i);
      var m := FirstMatch(LDML_TABLE, 0, f, i);
      var n := if m.Found? then |m.entry.symbol| else 1;
      PairedGlobs(f, i + n);
      var rest := LdmlGlob(LDML_TABLE, f, i + n);
      forall k | 0 <= k < |f| - i ensures LdmlGlob(LDML_TABLE, f, i)[k] == Marks1(f[i..][k]) {
        if k >= n { assert rest[k - n] == Marks1(f[i + n..][k - n]); }
      }
    }
  }

  // ---- formats made of symbols and texts ----

  lemma {:induction false} PairedJoin(a: string, b: string)
    requires Paired(a) && Paired(b)
    ensures Paired(a + b)
    decreases |a|
  {
    if a == "" {
      assert a + b == b;
    } else if SymbolLetter(a[0]) {
      assert (a + b)[2..] == a[2..] + b;
      PairedJoin(a[2..], b);
    } else {
      assert (a + b)[1..] == a[1..] + b;
      PairedJoin(a[1..], b);
    }
  }

  lemma {:induction false} TextIsPaired(t: string)
    requires LetterFree(t)
    ensures Paired(t)
  {
    if t != "" { TextIsPaired(t[1..]); }
  }

  lemma SymbolIsPaired(part: TimePart)
    requires !part.Text?
    ensures Paired(Spelled(part)) && forall k :: 0 <= k < |Spelled(part)| ==> SymbolLetter(Spelled(part)[k])
  {
    var f := Spelled(part);
    assert f[2..] == if part.Year? then "yy" else "";
    assert part.Year? ==> f[2..][2..] == "";
  }

  lemma {:induction false} FormatIsPaired(parts: seq<TimePart>)
    requires Plain(parts)
    ensures Paired(Format(parts))
  {
    if parts != [] {
      if parts[0].Text? { TextIsPaired(parts[0].text); } else { SymbolIsPaired(parts[0]); }
      FormatIsPaired(parts[1..]);
      PairedJoin(Spelled(parts[0]), Format(parts[1..]));
    }
  }

  lemma {:induction false} TextFits(t: string, f: string, piece: string)
    requires LetterFree(t)
    ensures Fits(t + f, piece) <==> t <= piece && Fits(f, piece[|t|..])
    decreases |t|
  {
    if t == "" {
      assert t + f == f && piece[0..] == piece;
    } else {
      assert (t + f)[1..] == t[1..] + f;
      CharFits(t + f, piece);
      if piece != "" {
        TextFits(t[1..], f, piece[1..]);
        assert piece == [piece[0]] + piece[1..] && t == [t[0]] + t[1..];
        assert t <= piece ==> piece[1..][|t| - 1..] == piece[|t|..];
      }
    }
  }

  lemma {:induction false} CutIsFit(parts: seq<TimePart>, piece: string)
    requires Plain(parts)
    ensures CutAs(parts, piece) <==> Fits(Format(parts), piece)
  {
    if parts != [] {
      var f, n := Format(parts), |Spelled(parts[0])|;
      assert f[n..] == Format(parts[1..]);
      if parts[0].Text? {
        TextFits(parts[0].text, Format(parts[1..]), piece);
      } else {
        SymbolIsPaired(parts[0]);
        assert forall k :: 0 <= k < n ==> f[k] == Spelled(parts[0])[k];
        DigitsFit(f, n, piece);
      }
      if n <= |piece| { CutIsFit(parts[1..], piece[n..]); }
    }
  }

  lemma {:induction false} MarkedFits(parts: seq<TimePart>)
    requires Plain(parts)
    ensures FitsGlob(Format(parts), Marked(parts))
  {
    if parts != [] {
      MarkedFits(parts[1..]);
      if !parts[0].Text? { SymbolIsPaired(parts[0]); }
    }
  }

  /** A time format is read as its symbols say: four digits for `yyyy`, two for each of `MM`, `dd`, `HH`, `mm`, `ss`
      and `yy`, and any text between them as it stands. */
  lemma FormatIsRead(parts: seq<TimePart>, piece: string)
    requires Plain(parts)
    ensures SymsMatch(LdmlRegex(LDML_TABLE, Format(parts), 0), piece) <==> CutAs(parts, piece)
  {
    FormatIsPaired(parts);
    assert Format(parts)[0..] == Format(parts);
    PairedReads(Format(parts), 0, piece);
    CutIsFit(parts, piece);
  }

  /** Its glob has a mark for each of those digits, and the text. */
  lemma FormatIsMarked(parts: seq<TimePart>)
    requires Plain(parts)
    ensures LdmlGlob(LDML_TABLE, Format(parts), 0) == Marked(parts)
  {
    FormatIsPaired(parts);
    assert Format(parts)[0..] == Format(parts);
    PairedGlobs(Format(parts), 0);
    MarkedFits(parts);
  }

  /** So a time field of a template captures exactly the pieces that are cut like its format. */
  lemma TimeFieldMatches(f: FieldSpec, parts: seq<TimePart>, piece: string)
    requires f.kind.Time? && f.ldml == Format(parts) && Plain(parts)
    ensures GroupMatches(GroupOf(Field(f)), piece) <==> CutAs(parts, piece)
    ensures GlobOf(Field(f)) == Marked(parts)
  {
    FormatIsRead(parts, piece);
    FormatIsMarked(parts);
  }
}
