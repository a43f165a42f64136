/**
 * The comment excerpt of the weekly-digest notification renderer
 * (worker/cron-jobs/weekly-digest/weekly-digest-utility.js): the first 70
 * characters of a comment, and when those are longer than 50 characters, a
 * cut at the first stop character at or after index 50, followed by "...".
 */
module CommentExcerpt {

  const WindowLength: nat := 70
  const CutFrom: nat := 50

  /** The stop characters: space, comma, period, colon, question and exclamation mark. */
  predicate IsStop(c: char) {
    c == ' ' || c == ',' || c == '.' || c == ':' || c == '?' || c == '!'
  }

  /** The first index at or after `i` holding a stop character, or the length. */
  function StopAt(s: string, i: nat): (j: nat)
    requires i <= |s|
    ensures i <= j <= |s|
    ensures j < |s| ==> IsStop(s[j])
    ensures forall k :: i <= k < j ==> !IsStop(s[k])
    decreases |s| - i
  {
    if i == |s| || IsStop(s[i]) then i else StopAt(s, i + 1)
  }

  /** The specification of the excerpt. */
  function Excerpt(text: string): (r: string)
  {
    var s := if |text| <= WindowLength then text else text[..WindowLength];
    if |s| > CutFrom then s[..StopAt(s, CutFrom)] + "..." else s
  }

  /**
   * The excerpt loop: `substring(0, 70)`, then when longer than 50, advance
   * `i` from 50 while the character is present and not a stop character.
   */
  method ExcerptOf(text: string) returns (r: string)
    ensures r == Excerpt(text)
  {
    var s := if |text| <= WindowLength then text else text[..WindowLength];
    if |s| > CutFrom {
      var i := CutFrom;
      while i < |s| && !IsStop(s[i])
        invariant CutFrom <= i <= |s|
        invariant StopAt(s, i) == StopAt(s, CutFrom)
        decreases |s| - i
      {
        i := i + 1;
      }
      r := s[..i] + "...";
    } else {
      r := s;
    }
  }

  /**
   * What the excerpt is: a text of at most 50 characters is kept whole;
   * otherwise the result is a prefix of the first 70 characters that keeps at
   * least the first 50, ends just before a stop character or at the
   * 70-character window, contains no stop character past index 50, and
   * is followed by "...".
   */
  lemma ExcerptShape(text: string)
    ensures |text| <= CutFrom ==> Excerpt(text) == text
    ensures |text| > CutFrom ==>
              exists n :: CutFrom <= n <= WindowLength && n <= |text|
                && Excerpt(text) == text[..n] + "..."
                && (n < |text| && n < WindowLength ==> IsStop(text[n]))
                && (forall k :: CutFrom <= k < n ==> !IsStop(text[k]))
    ensures |Excerpt(text)| <= WindowLength + 3
  {
    if |text| > CutFrom {
      var s := if |text| <= WindowLength then text else text[..WindowLength];
      var n := StopAt(s, CutFrom);
      assert s[..n] == text[..n];
      assert Excerpt(text) == text[..n] + "...";
    }
  }

  /** A comment that has a stop character at index 50 is cut right there. */
  lemma ExcerptStopAtFifty(text: string)
    requires |text| > CutFrom && IsStop(text[CutFrom])
    ensures Excerpt(text) == text[..CutFrom] + "..."
  {
    var s := if |text| <= WindowLength then text else text[..WindowLength];
    assert s[CutFrom] == text[CutFrom];
    assert s[..CutFrom] == text[..CutFrom];
  }
}
