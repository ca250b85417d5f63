/** Decimal numerals, as `strconv` and `fmt` read and print them. */
module Decimal {

  const MAX_INT: nat := 0x7FFF_FFFF_FFFF_FFFF

  predicate IsDigit(c: char) { '0' <= c <= '9' }

  predicate AllDigits(s: string) { forall i :: 0 <= i < |s| ==> IsDigit(s[i]) }

  function DigitValue(c: char): nat
    requires IsDigit(c)
  {
    c as int - '0' as int
  }

  function DigitChar(d: nat): char
    requires d < 10
  {
    (d + '0' as int) as char
  }

  function ToNat(s: string): nat
    requires AllDigits(s)
  {
    if s == "" then 0 else 10 * ToNat(s[..|s| - 1]) + DigitValue(s[|s| - 1])
  }

  function ItoaNat(n: nat): string {
    if n < 10 then [DigitChar(n)] else ItoaNat(n / 10) + [DigitChar(n % 10)]
  }

  function Itoa(n: int): string { if n < 0 then "-" + ItoaNat(-n) else ItoaNat(n) }

  function Zeros(n: int): string { seq(if n < 0 then 0 else n, _ => '0') }

  /** The `%0*d` verb: the sign counts towards the width, and a width above a million is refused. */
  function PadInt(n: int, width: nat): string {
    if width > 1_000_000 then "%!(BADWIDTH)" + Itoa(n)
    else if n < 0 then "-" + PadNat(-n, width - 1)
    else PadNat(n, width)
  }

  function PadNat(n: nat, width: int): string { Zeros(width - |ItoaNat(n)|) + ItoaNat(n) }

  /** A numeral without a superfluous zero in front. */
  predicate Canonical(s: string) { |s| == 1 || (|s| > 1 && s[0] != '0') }

  lemma {:induction false} PrintedNat(n: nat)
    ensures AllDigits(ItoaNat(n)) && Canonical(ItoaNat(n)) && ToNat(ItoaNat(n)) == n
    ensures n > 0 ==> ItoaNat(n)[0] != '0'
  {
    if n >= 10 {
      PrintedNat(n / 10);
      var s := ItoaNat(n);
      assert s[..|s| - 1] == ItoaNat(n / 10);
    }
  }

  lemma PrintedNext(n: nat, c: char)
    requires n > 0 && IsDigit(c)
    ensures ItoaNat(10 * n + DigitValue(c)) == ItoaNat(n) + [c]
  {
    var m := 10 * n + DigitValue(c);
    assert m / 10 == n && m % 10 == DigitValue(c);
  }

  lemma PaddedNext(n: nat, c: char, width: nat)
    requires n > 0 && IsDigit(c) && |ItoaNat(n)| <= width
    ensures PadNat(10 * n + DigitValue(c), width + 1) == PadNat(n, width) + [c]
  {
    PrintedNext(n, c);
    assert Zeros(width - |ItoaNat(n)|) + (ItoaNat(n) + [c]) == Zeros(width - |ItoaNat(n)|) + ItoaNat(n) + [c];
  }

  lemma PaddedZero(d: nat, width: nat)
    requires d < 10 && width > 0
    ensures PadNat(d, width + 1) == PadNat(0, width) + [DigitChar(d)]
  {
    assert PadNat(0, width) == Zeros(width);
  }

  ghost predicate ReadsBack(s: string) {
    AllDigits(s) && |ItoaNat(ToNat(s))| <= |s| && PadNat(ToNat(s), |s|) == s
  }

  lemma ReadsBackNext(init: string, c: char)
    requires init != "" && ReadsBack(init) && IsDigit(c)
    ensures ReadsBack(init + [c])
  {
    var s, n := init + [c], ToNat(init);
    assert s[..|s| - 1] == init;
    assert ToNat(s) == 10 * n + DigitValue(c);
    if n > 0 {
      PaddedNext(n, c, |init|);
      PrintedNext(n, c);
    } else {
      PaddedZero(DigitValue(c), |init|);
    }
  }

  /** Reading a numeral and printing it at its old width gives it back. */
  lemma {:induction false} PaddedReadsBack(s: string)
    requires AllDigits(s) && s != ""
    ensures ReadsBack(s)
  {
    if |s| == 1 {
      assert s == [s[0]] && ToNat(s) == DigitValue(s[0]);
    } else {
      var init, c := s[..|s| - 1], s[|s| - 1];
      assert AllDigits(init);
      PaddedReadsBack(init);
      ReadsBackNext(init, c);
      assert s == init + [c];
    }
  }

  /** Printing without a width loses exactly the zeros in front. */
  lemma ReadsBackIffCanonical(s: string)
    requires AllDigits(s) && s != ""
    ensures ItoaNat(ToNat(s)) == s <==> Canonical(s)
    ensures !Canonical(s) ==> |ItoaNat(ToNat(s))| < |s|
  {
    var t := ItoaNat(ToNat(s));
    PaddedReadsBack(s);
    PrintedNat(ToNat(s));
    assert s == Zeros(|s| - |t|) + t;
    if |t| < |s| { assert s[0] == '0'; }
  }
}
