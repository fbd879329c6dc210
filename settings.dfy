/**
  Validation of a submitted alert window. Each field has already been parsed as an
  integer; None stands for a field whose text is not an integer.
*/
module Settings {
  import opened Wrappers

  /** The three outcomes of a submission, each shown to the user as one message. */
  datatype Message =
    | InvalidValue
    | MinNotLessThanMax
    | Updated(min: int, max: int)
  {
    /**
      The text shown on the page. The three outcomes start with different letters,
      so the kind of outcome can be read off the text.
    */
    function Text(): (s: string)
      ensures |s| > 0
      ensures s[0] == 'I' <==> this.InvalidValue?
      ensures s[0] == 'M' <==> this.MinNotLessThanMax?
      ensures s[0] == 'U' <==> this.Updated?
    {
      // Each text is split after its first word so that its first letter is evident.
      match this
      case InvalidValue => "Invalid" + " distance value entered. Please enter valid integers."
      case MinNotLessThanMax => "Minimum" + " distance must be less than maximum distance."
      case Updated(lo, hi) =>
        "Updated" + " alert distances: Min = " + IntText(lo) + " cm, Max = " + IntText(hi) + " cm"
    }
  }

  predicate IsDigit(c: char)
  {
    '0' <= c <= '9'
  }

  /**
    Decimal text of an integer, as an f-string renders it: digits only for n >= 0,
    with no leading zero except for 0 itself, and a minus sign before the digits of -n
    for n < 0.
  */
  function IntText(n: int): (s: string)
    ensures |s| > 0
    ensures n >= 0 ==> (forall i :: 0 <= i < |s| ==> IsDigit(s[i])) && (s[0] == '0' ==> n == 0)
    ensures n < 0 ==> s[0] == '-' && s[1..] == IntText(-n)
    decreases if n < 0 then 1 - n else n
  {
    if n < 0 then "-" + IntText(-n)
    else if n < 10 then [(48 + n) as char]
    else IntText(n / 10) + IntText(n % 10)
  }

  /** The value of a string of decimal digits, most significant first. */
  function DigitsValue(s: string): int
    decreases |s|
  {
    if s == [] then 0 else 10 * DigitsValue(s[..|s| - 1]) + (s[|s| - 1] as int - 48)
  }

  /** Reading the rendered digits back gives the number: the text shows the bound exactly. */
  lemma {:induction false} IntTextReadsBack(n: nat)
    ensures DigitsValue(IntText(n)) == n
    decreases n
  {
    if n >= 10 {
      IntTextReadsBack(n / 10);
      var t := IntText(n);
      var hd := IntText(n / 10);
      assert t == hd + [(48 + n % 10) as char];
      assert t[..|t| - 1] == hd;
    }
  }

  /**
    The decision on a submission: a parse failure in either field wins, then an
    inverted or empty window is refused, otherwise the window is accepted as given.
  */
  function CheckSetting(minField: Option<int>, maxField: Option<int>): (m: Message)
    ensures m.InvalidValue? <==> minField.None? || maxField.None?
    ensures m.MinNotLessThanMax? <==>
      minField.Some? && maxField.Some? && minField.value >= maxField.value
    ensures m.Updated? ==> minField == Some(m.min) && maxField == Some(m.max) && m.min < m.max
  {
    match (minField, maxField)
    case (Some(lo), Some(hi)) => if lo >= hi then MinNotLessThanMax else Updated(lo, hi)
    case _ => InvalidValue
  }

  /** Sample submissions: inverted bounds, an empty window, a non-integer field, an accepted window. */
  lemma CheckSettingExamples()
    ensures CheckSetting(Some(80), Some(50)) == MinNotLessThanMax
    ensures CheckSetting(Some(60), Some(60)) == MinNotLessThanMax
    ensures CheckSetting(None, Some(50)) == InvalidValue
    ensures CheckSetting(Some(60), None) == InvalidValue
    ensures CheckSetting(Some(40), Some(90)) == Updated(40, 90)
  {
  }
}
