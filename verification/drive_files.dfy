/** Rendering helpers shared by the Drive commands: the size column. */
module DriveFiles {
  import opened Wrappers
  import opened Text

  /** `Math.round(n / 1024)` for a non-negative integer `n`: the nearest whole
      number of kilobytes, halves rounded up. */
  function RoundedKilobytes(n: nat): (k: nat)
    ensures 1024 * k <= n + 512 < 1024 * (k + 1)
  {
    (n + 512) / 1024
  }

  /** The size column: `'N/A'` for an absent or empty size, otherwise
      `Math.round(parseInt(size, 10) / 1024)` followed by ` KB`. `parseInt`
      reads the leading digits; a size with none prints `NaN`. */
  function SizeText(size: Option<string>): (r: string)
    ensures size.None? || size == Some("") ==> r == "N/A"
  {
    if size.None? || size.value == "" then "N/A"
    else
      var digits := LeadingDigits(size.value);
      if digits == "" then "NaN KB"
      else NatToString(RoundedKilobytes(DigitsValue(digits))) + " KB"
  }

  /** A size that is a digit string shows its value in kilobytes, rounded half up. */
  lemma SizeTextOfDigits(size: string)
    requires size != "" && AllDigits(size)
    ensures SizeText(Some(size)) == NatToString(RoundedKilobytes(DigitsValue(size))) + " KB"
  {
    AllLeadingDigits(size);
  }

  lemma {:induction false} AllLeadingDigits(s: string)
    requires AllDigits(s)
    ensures LeadingDigits(s) == s
  {
    if |s| > 0 {
      AllLeadingDigits(s[1..]);
      assert [s[0]] + s[1..] == s;
    }
  }
}
