/** What the label plugins draw: text placed at a point of the canvas. */
module Canvas {
  import opened Values

  /** The rendered geometry of one bar, supplied by the renderer: its centre `x`,
      the `y` of its top and the `y` of its `base` (canvas y grows downwards). */
  datatype Bar = Bar(x: real, y: real, base: real)

  /** The first argument of `fillText`: a string, or a number the canvas turns into text. */
  datatype Caption = Text(s: string) | Number(v: real)

  /** One `fillText(caption, x, y)` call. */
  datatype Draw = Draw(caption: Caption, x: real, y: real)

  /** `Math.round`: the integer nearest to `v`, halves going up. */
  function Round(v: real): (r: int)
    ensures (r as real) - 0.5 <= v < (r as real) + 0.5
  {
    (v + 0.5).Floor
  }

  function DigitChar(d: int): (c: char)
    requires 0 <= d < 10
    ensures '0' <= c <= '9'
  {
    ('0' as int + d) as char
  }

  function DigitValue(c: char): (d: nat)
    requires '0' <= c <= '9'
    ensures d < 10
  {
    c as int - '0' as int
  }

  /** The decimal digits of `n`, most significant first, without leading zeros. */
  function Digits(n: nat): (s: string)
    ensures |s| >= 1
    ensures forall i :: 0 <= i < |s| ==> '0' <= s[i] <= '9'
    ensures |s| == 1 || s[0] != '0'
    decreases n
  {
    if n < 10 then [DigitChar(n)] else Digits(n / 10) + [DigitChar(n % 10)]
  }

  /** Reads a non-empty run of decimal digits; anything else is rejected. */
  function ParseDigits(s: string): (r: Option<nat>)
    ensures r.Some? ==> |s| >= 1
    decreases |s|
  {
    if |s| == 0 || !('0' <= s[|s| - 1] <= '9') then None
    else if |s| == 1 then Some(DigitValue(s[0]))
    else match ParseDigits(s[..|s| - 1])
      case None => None
      case Some(m) => Some(m * 10 + DigitValue(s[|s| - 1]))
  }

  /** How a template literal writes an integer: an optional minus sign, then its digits. */
  function IntText(n: int): string {
    if n < 0 then "-" + Digits(-n) else Digits(n)
  }

  function ParseInt(s: string): Option<int> {
    if |s| >= 1 && s[0] == '-' then
      match ParseDigits(s[1..])
      case None => None
      case Some(m) => if m == 0 then None else Some(-(m as int))
    else
      match ParseDigits(s)
      case None => None
      case Some(m) => Some(m)
  }

  lemma {:induction false} DigitsRoundTrip(n: nat)
    ensures ParseDigits(Digits(n)) == Some(n)
    decreases n
  {
    if n >= 10 {
      var s := Digits(n);
      assert s == Digits(n / 10) + [DigitChar(n % 10)];
      assert s[..|s| - 1] == Digits(n / 10);
      DigitsRoundTrip(n / 10);
    }
  }

  lemma ParseNegative(t: string, m: nat)
    requires ParseDigits(t) == Some(m) && m > 0
    ensures ParseInt("-" + t) == Some(-(m as int))
  {
    assert ("-" + t)[1..] == t;
  }

  lemma ParseNonNegative(s: string, m: nat)
    requires ParseDigits(s) == Some(m) && s[0] != '-'
    ensures ParseInt(s) == Some(m)
  {
  }

  /** The text of an integer reads back as that integer, so distinct amounts get distinct texts. */
  lemma {:induction false} IntTextRoundTrip(n: int)
    ensures ParseInt(IntText(n)) == Some(n)
  {
    if n < 0 {
      DigitsRoundTrip(-n);
      ParseNegative(Digits(-n), -n);
    } else {
      DigitsRoundTrip(n);
      assert '0' <= Digits(n)[0] <= '9';
      ParseNonNegative(Digits(n), n);
    }
  }

  lemma DigitRoundTrip(c: char)
    requires '0' <= c <= '9'
    ensures DigitChar(DigitValue(c)) == c
  {
  }

  /** Digits that do not start with a zero denote a positive number. */
  lemma {:induction false} LeadingDigitPositive(t: string, m: nat)
    requires ParseDigits(t) == Some(m) && t[0] != '0'
    ensures m > 0
    decreases |t|
  {
    if |t| > 1 {
      var m' :| ParseDigits(t[..|t| - 1]) == Some(m') && m == m' * 10 + DigitValue(t[|t| - 1]);
      LeadingDigitPositive(t[..|t| - 1], m');
    }
  }

  /** `Digits(n)` is the only digit string without leading zeros that denotes `n`,
      so a label's text is fixed by its amount. */
  lemma {:induction false} DigitsCanonical(s: string, n: nat)
    requires ParseDigits(s) == Some(n)
    requires |s| == 1 || s[0] != '0'
    ensures s == Digits(n)
    decreases |s|
  {
    var last := s[|s| - 1];
    DigitRoundTrip(last);
    if |s| > 1 {
      var t := s[..|s| - 1];
      var m :| ParseDigits(t) == Some(m) && n == m * 10 + DigitValue(last);
      LeadingDigitPositive(t, m);
      DigitsCanonical(t, m);
      assert n / 10 == m && n % 10 == DigitValue(last);
      assert s == t + [last];
    }
  }

  const Euro: char := '€'

  /** The template literal `€${n}` of a currency label. */
  function EuroText(n: int): string {
    [Euro] + IntText(n)
  }

  /** Reads a currency label back into its amount. */
  function ParseEuro(s: string): Option<int> {
    if |s| >= 1 && s[0] == Euro then ParseInt(s[1..]) else None
  }

  lemma EuroTextRoundTrip(n: int)
    ensures ParseEuro(EuroText(n)) == Some(n)
  {
    assert EuroText(n)[1..] == IntText(n);
    IntTextRoundTrip(n);
  }

  /** Two concrete labels: a half rounds up, and a positive amount under one half
      passes the `value > 0` guard yet reads "€0". */
  lemma EuroTextExamples()
    ensures EuroText(Round(12.5)) == "€13"
    ensures IsPositive(Num(0.4)) && EuroText(Round(0.4)) == "€0"
  {
    assert Digits(13) == Digits(1) + [DigitChar(3)];
  }
}
