/** Field specifications of the path-template language: `name`, `name:spec` and `name:spec|tz=zone`. */
module Fields {
  import opened Decimal

  datatype Kind = Str | Int | Time

  datatype FieldSpec = FieldSpec(name: string, kind: Kind, width: nat, zeroPad: bool, ldml: string, rawTz: string)

  datatype Error =
    | Unbalanced | EmptyName | EmptyTz(name: string) | TzNotAllowed(name: string) | BadTz(name: string) | EmptyFormat
    | MissingField(name: string) | WrongKind(name: string) | BadRegex | NoMatch
    | BadInt(name: string) | BadTime(name: string)

  datatype Result<T> = Ok(value: T) | Err(error: Error)

  /** Time zones and time texts are the host's business. */
  datatype Env = Env(tzOk: string -> bool,
                     formatTime: (int, string, string) -> string,
                     parseTime: (string, string, string) -> Result<int>)

  const TZ := "|tz="

  predicate TzAt(spec: string, i: int) {
    0 <= i && i + 4 <= |spec| && spec[i] == '|' && spec[i + 1] == 't' && spec[i + 2] == 'z' && spec[i + 3] == '='
  }

  /** Where the first time-zone suffix starts, or -1. */
  function FindTz(spec: string): (i: int)
    ensures i == -1 || TzAt(spec, i)
    ensures forall j :: TzAt(spec, j) ==> 0 <= i <= j
  {
    if spec == "" then -1
    else if TzAt(spec, 0) then 0
    else
      var rest := FindTz(spec[1..]);
      assert forall j :: TzAt(spec, j) && j > 0 ==> TzAt(spec[1..], j - 1);
      if rest < 0 then -1 else rest + 1
  }

  /** Digits followed by one letter. */
  predicate Numbered(spec: string, letter: char) {
    |spec| >= 2 && spec[|spec| - 1] == letter && AllDigits(spec[..|spec| - 1])
  }

  function Saturated(n: nat): nat { if n > MAX_INT then MAX_INT else n }

  function ParseFieldSpec(env: Env, name: string, spec: string): Result<FieldSpec> {
    if name == "" then Err(EmptyName) else
    var i := FindTz(spec);
    var tz := if i >= 0 then spec[i + 4..] else "";
    if i >= 0 && tz == "" then Err(EmptyTz(name)) else
    ParseTyped(env, name, if i >= 0 then spec[..i] else spec, tz)
  }

  function ParseTyped(env: Env, name: string, spec: string, tz: string): Result<FieldSpec> {
    if spec == "d" then
      if tz != "" then Err(TzNotAllowed(name)) else Ok(FieldSpec(name, Int, 0, false, "", ""))
    else if Numbered(spec, 'd') && |spec| >= 3 && spec[0] == '0' then
      if tz != "" then Err(TzNotAllowed(name))
      else
        assert spec[1..|spec| - 1] == spec[..|spec| - 1][1..];
        Ok(FieldSpec(name, Int, Saturated(ToNat(spec[1..|spec| - 1])), true, "", ""))
    else if Numbered(spec, 'd') then
      if tz != "" then Err(TzNotAllowed(name))
      else Ok(FieldSpec(name, Int, Saturated(ToNat(spec[..|spec| - 1])), false, "", ""))
    else if spec == "" || spec == "s" then
      if tz != "" then Err(TzNotAllowed(name)) else Ok(FieldSpec(name, Str, 0, false, "", ""))
    else if Numbered(spec, 's') then
      if tz != "" then Err(TzNotAllowed(name))
      else Ok(FieldSpec(name, Str, Saturated(ToNat(spec[..|spec| - 1])), false, "", ""))
    else if tz != "" && !env.tzOk(tz) then Err(BadTz(name))
    else Ok(FieldSpec(name, Time, 0, false, spec, tz))
  }

  function FieldSpecString(f: FieldSpec): string {
    match f.kind
    case Str => if f.width > 0 then ItoaNat(f.width) + "s" else "s"
    case Int =>
      if f.width == 0 then "d"
      else if f.zeroPad then "0" + ItoaNat(f.width) + "d"
      else ItoaNat(f.width) + "d"
    case Time => if f.rawTz != "" then f.ldml + TZ + f.rawTz else f.ldml
  }

  // ---- what a parsed field looks like ----

  predicate IsTimeSpec(spec: string) {
    spec != "" && spec != "d" && spec != "s" && !Numbered(spec, 'd') && !Numbered(spec, 's')
  }

  /** A field the pattern parser can have produced. */
  predicate Parsed(env: Env, f: FieldSpec) {
    && f.name != "" && ':' !in f.name && '}' !in f.name && f.width <= MAX_INT
    && (f.kind.Time? ==>
          && f.width == 0 && IsTimeSpec(f.ldml) && FindTz(f.ldml) < 0 && '}' !in f.ldml
          && '}' !in f.rawTz && (f.rawTz != "" ==> env.tzOk(f.rawTz)))
    && (!f.kind.Time? ==> f.ldml == "" && f.rawTz == "")
    && (f.zeroPad ==> f.kind.Int?)
  }

  /** The pad flag of a field without width has no meaning and is not printed. */
  function Canon(f: FieldSpec): FieldSpec { if f.width == 0 then f.(zeroPad := false) else f }

  /** Exactly these specifications are accepted: a zone must be non-empty, known, and on a time format. */
  lemma AcceptedIff(env: Env, name: string, spec: string)
    ensures var i := FindTz(spec);
            ParseFieldSpec(env, name, spec).Ok? <==>
              name != "" && (i >= 0 ==> spec[i + 4..] != "" && IsTimeSpec(spec[..i]) && env.tzOk(spec[i + 4..]))
  {
  }

  lemma ParsedFieldIsParsed(env: Env, name: string, spec: string)
    requires ':' !in name && '}' !in name && '}' !in spec && ParseFieldSpec(env, name, spec).Ok?
    ensures Parsed(env, ParseFieldSpec(env, name, spec).value)
  {
    var i := FindTz(spec);
    if i >= 0 {
      assert forall j :: TzAt(spec[..i], j) ==> TzAt(spec, j);
      assert forall c :: c in spec[..i] || c in spec[i + 4..] ==> c in spec;
      TypedIsParsed(env, name, spec[..i], spec[i + 4..]);
    } else {
      TypedIsParsed(env, name, spec, "");
    }
  }

  /** What an accepted specification becomes. */
  lemma TypedShape(env: Env, name: string, spec: string, tz: string)
    requires ParseTyped(env, name, spec, tz).Ok?
    ensures var f := ParseTyped(env, name, spec, tz).value;
            if IsTimeSpec(spec) then f == FieldSpec(name, Time, 0, false, spec, tz) && (tz != "" ==> env.tzOk(tz))
            else f == FieldSpec(name, f.kind, f.width, f.zeroPad, "", "") && !f.kind.Time? && f.width <= MAX_INT
                 && (f.zeroPad ==> f.kind.Int?)
  {
  }

  lemma TypedIsParsed(env: Env, name: string, spec: string, tz: string)
    requires name != "" && ':' !in name && '}' !in name && '}' !in spec && '}' !in tz && FindTz(spec) < 0
    requires ParseTyped(env, name, spec, tz).Ok?
    ensures Parsed(env, ParseTyped(env, name, spec, tz).value)
  {
    TypedShape(env, name, spec, tz);
  }

  // ---- printing a specification and reading it again ----

  lemma NumberedPrint(n: nat, letter: char)
    ensures Numbered(ItoaNat(n) + [letter], letter)
    ensures (ItoaNat(n) + [letter])[..|ItoaNat(n)|] == ItoaNat(n)
    ensures AllDigits(ItoaNat(n)) && ToNat(ItoaNat(n)) == n && (n > 0 ==> ItoaNat(n)[0] != '0')
  {
    PrintedNat(n);
  }

  lemma NumberHasNoTz(n: nat, front: string, letter: char)
    requires '|' !in front && letter != '|'
    ensures FindTz(front + ItoaNat(n) + [letter]) < 0
  {
    PrintedNat(n);
    var spec := front + ItoaNat(n) + [letter];
    forall k | 0 <= k < |spec| ensures spec[k] != '|' {
      if k < |front| { assert spec[k] == front[k]; }
      else if k < |spec| - 1 { assert spec[k] == ItoaNat(n)[k - |front|]; }
    }
  }

  /** The suffix cannot start earlier than where it was put: its letters never begin it. */
  lemma TzIsFound(ldml: string, tz: string)
    requires FindTz(ldml) < 0
    ensures FindTz(ldml + TZ + tz) == |ldml|
  {
    var spec := ldml + TZ + tz;
    assert TzAt(spec, |ldml|);
    var i := FindTz(spec);
    assert i + 4 <= |ldml| ==> TzAt(ldml, i);
  }

  lemma PaddedSpec(n: nat, spec: string)
    requires n > 0 && spec == "0" + ItoaNat(n) + "d"
    ensures Numbered(spec, 'd') && |spec| >= 3 && spec[0] == '0' && spec != "d" && FindTz(spec) < 0
    ensures spec[1..|spec| - 1] == ItoaNat(n) && AllDigits(ItoaNat(n)) && ToNat(ItoaNat(n)) == n
  {
    NumberedPrint(n, 'd');
    NumberHasNoTz(n, "0", 'd');
    assert spec[..|spec| - 1] == "0" + ItoaNat(n);
  }

  lemma PlainSpec(n: nat, letter: char, spec: string)
    requires n > 0 && letter != '|' && spec == ItoaNat(n) + [letter]
    ensures Numbered(spec, letter) && spec[0] != '0' && |spec| >= 2 && spec[|spec| - 1] == letter && FindTz(spec) < 0
    ensures spec[..|spec| - 1] == ItoaNat(n) && AllDigits(ItoaNat(n)) && ToNat(ItoaNat(n)) == n
  {
    NumberedPrint(n, letter);
    NumberHasNoTz(n, "", letter);
    assert "" + ItoaNat(n) + [letter] == spec;
  }

  lemma StrRoundTrip(env: Env, f: FieldSpec)
    requires Parsed(env, f) && f.kind.Str?
    ensures ParseFieldSpec(env, f.name, FieldSpecString(f)) == Ok(f)
  {
    var spec := FieldSpecString(f);
    if f.width > 0 { PlainSpec(f.width, 's', spec); }
    assert ParseFieldSpec(env, f.name, spec) == ParseTyped(env, f.name, spec, "");
  }

  lemma IntRoundTrip(env: Env, f: FieldSpec)
    requires Parsed(env, f) && f.kind.Int?
    ensures ParseFieldSpec(env, f.name, FieldSpecString(f)) == Ok(Canon(f))
  {
    var spec := FieldSpecString(f);
    if f.width > 0 && f.zeroPad {
      PaddedSpec(f.width, spec);
    } else if f.width > 0 {
      PlainSpec(f.width, 'd', spec);
    }
    assert ParseFieldSpec(env, f.name, spec) == ParseTyped(env, f.name, spec, "");
  }

  lemma TimeRoundTrip(env: Env, f: FieldSpec)
    requires Parsed(env, f) && f.kind.Time?
    ensures ParseFieldSpec(env, f.name, FieldSpecString(f)) == Ok(f)
  {
    var spec := FieldSpecString(f);
    if f.rawTz != "" {
      TzIsFound(f.ldml, f.rawTz);
      assert spec[..|f.ldml|] == f.ldml && spec[|f.ldml| + 4..] == f.rawTz;
    }
    assert ParseFieldSpec(env, f.name, spec) == ParseTyped(env, f.name, f.ldml, f.rawTz);
  }

  lemma SpecHasNoBrace(env: Env, f: FieldSpec)
    requires Parsed(env, f)
    ensures '}' !in FieldSpecString(f)
  {
    PrintedNat(f.width);
  }

  lemma SpecRoundTrip(env: Env, f: FieldSpec)
    requires Parsed(env, f)
    ensures ParseFieldSpec(env, f.name, FieldSpecString(f)) == Ok(Canon(f))
  {
    match f.kind {
      case Str => StrRoundTrip(env, f);
      case Int => IntRoundTrip(env, f);
      case Time => TimeRoundTrip(env, f);
    }
  }
}
