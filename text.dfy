/** Decimal text of integers (Python's `str(int)` and `int(str)`) and the fixed
    `"Mean: … - Standard Deviation: …"` description every distribution renders. */
module Text {
  import opened Options

  predicate IsDigit(c: char) {
    '0' <= c <= '9'
  }

  predicate AllDigits(s: string) {
    forall k :: 0 <= k < |s| ==> IsDigit(s[k])
  }

  predicate NoSpace(s: string) {
    forall k :: 0 <= k < |s| ==> s[k] != ' '
  }

  function DigitChar(d: nat): (c: char)
    requires d < 10
    ensures IsDigit(c) && DigitValue(c) == d
  {
    ('0' as int + d) as char
  }

  function DigitValue(c: char): nat
    requires IsDigit(c)
  {
    c as int - '0' as int
  }

  /** The digits of `n`, most significant first, with no leading zero. */
  function DigitsOf(n: nat): (s: string)
    ensures |s| > 0 && AllDigits(s)
    ensures |s| > 1 ==> s[0] != '0'
    decreases n
  {
    if n < 10 then [DigitChar(n)] else DigitsOf(n / 10) + [DigitChar(n % 10)]
  }

  /** The number a string of digits spells. */
  function ValueOf(s: string): nat
    requires AllDigits(s)
  {
    if s == [] then 0 else ValueOf(s[..|s| - 1]) * 10 + DigitValue(s[|s| - 1])
  }

  /** Python's `str(i)` for an int: an optional minus sign, then the digits. */
  function DecimalOf(i: int): (s: string)
    ensures |s| > 0 && NoSpace(s)
    ensures s[0] == '-' <==> i < 0
  {
    if i < 0 then "-" + DigitsOf(-i) else DigitsOf(i)
  }

  /** Python's `int(s)` on a string, for literals made of an optional sign and at least one
      digit; anything else is not an int literal. */
  function ParseInt(s: string): (r: Option<int>)
    ensures r.Some? ==> |s| > 0
  {
    if |s| > 1 && (s[0] == '-' || s[0] == '+') && AllDigits(s[1..]) then
      var magnitude: int := ValueOf(s[1..]);
      Some(if s[0] == '-' then -magnitude else magnitude)
    else if |s| > 0 && AllDigits(s) then
      Some(ValueOf(s))
    else
      None
  }

  lemma {:induction false} DigitsRoundTrip(n: nat)
    ensures ValueOf(DigitsOf(n)) == n
  {
    if n >= 10 {
      DigitsRoundTrip(n / 10);
      var s := DigitsOf(n);
      assert s[..|s| - 1] == DigitsOf(n / 10);
    }
  }

  /** `int(str(i)) == i` for every int. */
  lemma ParseDecimal(i: int)
    ensures ParseInt(DecimalOf(i)) == Some(i)
  {
    if i < 0 {
      DigitsRoundTrip(-i);
      assert DecimalOf(i)[1..] == DigitsOf(-i);
    } else {
      DigitsRoundTrip(i);
    }
  }

  const MeanLabel := "Mean: "
  const StdLabel := " - Standard Deviation: "

  /** `f"Mean: {mean} - Standard Deviation: {std}"` once both numbers are formatted. */
  function Describe(meanText: string, stdText: string): string {
    MeanLabel + meanText + StdLabel + stdText
  }

  predicate LabelAt(s: string, j: nat) {
    j + |StdLabel| <= |s| && s[j..j + |StdLabel|] == StdLabel
  }

  /** The first position at or after `j` where the standard-deviation label starts. */
  function FindLabel(s: string, j: nat): (r: Option<nat>)
    ensures r.Some? ==> j <= r.value && LabelAt(s, r.value)
    decreases |s| - j
  {
    if j + |StdLabel| > |s| then None
    else if LabelAt(s, j) then Some(j)
    else FindLabel(s, j + 1)
  }

  /** Reads a description back into its mean text and standard-deviation text. */
  function ParseDescription(s: string): (r: Option<(string, string)>)
    ensures r.Some? ==> Describe(r.value.0, r.value.1) == s
  {
    if |s| >= |MeanLabel| && s[..|MeanLabel|] == MeanLabel then
      match FindLabel(s, |MeanLabel|)
      case Some(j) =>
        assert s == MeanLabel + s[|MeanLabel|..j] + StdLabel + s[j + |StdLabel|..];
        Some((s[|MeanLabel|..j], s[j + |StdLabel|..]))
      case None => None
    else
      None
  }

  lemma {:induction false} FindLabelSkips(s: string, j: nat, k: nat)
    requires j <= k && LabelAt(s, k)
    requires forall m :: j <= m < k ==> s[m] != ' '
    ensures FindLabel(s, j) == Some(k)
    decreases k - j
  {
    if j < k {
      assert s[j] != ' ';
      assert StdLabel[0] == ' ';
      FindLabelSkips(s, j + 1, k);
    }
  }

  /** A description whose mean text has no space splits back into exactly its two texts. */
  lemma DescriptionRoundTrip(meanText: string, stdText: string)
    requires NoSpace(meanText)
    ensures ParseDescription(Describe(meanText, stdText)) == Some((meanText, stdText))
  {
    var s := Describe(meanText, stdText);
    var k := |MeanLabel| + |meanText|;
    assert s[..|MeanLabel|] == MeanLabel;
    assert s[k..k + |StdLabel|] == StdLabel;
    forall m | |MeanLabel| <= m < k
      ensures s[m] != ' '
    {
      assert s[m] == meanText[m - |MeanLabel|];
    }
    FindLabelSkips(s, |MeanLabel|, k);
    assert s[|MeanLabel|..k] == meanText;
    assert s[k + |StdLabel|..] == stdText;
  }
}
