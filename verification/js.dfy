/**
 * The few JavaScript value semantics the worker relies on: truthiness of
 * possibly-undefined strings, how `undefined` prints inside a template
 * literal, number-to-string conversion, `trim`, lodash's `unescape` and the
 * word-boundary truncation done with `replace(/^(.{n}[^\s]*).*\/, '$1')`.
 */
module Js {
  import opened Wrappers

  /** `!!s` for a string-valued field: undefined, null and "" are falsy. */
  predicate Truthy(s: Option<string>) {
    s.Some? && s.value != ""
  }

  /** What a possibly-undefined string prints as inside `${...}` or after `+`. */
  function Show(s: Option<string>): (r: string)
    ensures s.Some? ==> r == s.value
    ensures s.None? ==> r == "undefined"
  {
    match s
    case Some(v) => v
    case None => "undefined"
  }

  /** `a || b` on possibly-undefined strings. */
  function Or(a: Option<string>, b: Option<string>): (r: Option<string>)
    ensures Truthy(a) ==> r == a
    ensures !Truthy(a) ==> r == b
  {
    if Truthy(a) then a else b
  }

  function Digit(d: nat): (c: char)
    requires d < 10
    ensures '0' <= c <= '9'
  {
    ('0' as int + d) as char
  }

  predicate IsDigits(s: string) {
    forall i :: 0 <= i < |s| ==> '0' <= s[i] <= '9'
  }

  /** The number a string of decimal digits denotes, most significant digit first. */
  function DecimalValue(s: string): nat
    requires IsDigits(s)
  {
    if s == [] then 0 else DecimalValue(s[..|s| - 1]) * 10 + (s[|s| - 1] as int - '0' as int)
  }

  /** `String(n)` for a non-negative integer: the shortest decimal numeral of `n`. */
  function NatToString(n: nat): (s: string)
    ensures 1 <= |s| && IsDigits(s)
    ensures DecimalValue(s) == n
    ensures |s| > 1 ==> s[0] != '0'
    ensures n < 10 <==> |s| == 1
    decreases n
  {
    if n < 10 then [Digit(n)]
    else
      var init := NatToString(n / 10);
      var s := init + [Digit(n % 10)];
      assert s[..|s| - 1] == init;
      s
  }

  /** `String(i)` for any integer. */
  function IntToString(i: int): string {
    if i < 0 then "-" + NatToString(-i) else NatToString(i)
  }

  /** The line terminators that `.` in a regular expression does not match. */
  predicate IsLineTerminator(c: char) {
    c == '\n' || c == '\r' || c == '\U{2028}' || c == '\U{2029}'
  }

  /** The characters matched by `\s` and removed by `String.prototype.trim`. */
  predicate IsSpace(c: char) {
    || IsLineTerminator(c)
    || c == ' ' || c == '\t' || c == '\U{000B}' || c == '\U{000C}'
    || c == '\U{00A0}' || c == '\U{FEFF}' || c == '\U{1680}'
    || ('\U{2000}' <= c <= '\U{200A}')
    || c == '\U{202F}' || c == '\U{205F}' || c == '\U{3000}'
  }

  predicate AllSpace(s: string) {
    forall i :: 0 <= i < |s| ==> IsSpace(s[i])
  }

  function TrimStart(s: string): (r: string)
    ensures |r| <= |s| && r == s[|s| - |r|..]
    ensures r == "" || !IsSpace(r[0])
  {
    if s != "" && IsSpace(s[0]) then TrimStart(s[1..]) else s
  }

  function TrimEnd(s: string): (r: string)
    ensures |r| <= |s| && r == s[..|r|]
    ensures r == "" || !IsSpace(r[|r| - 1])
  {
    if s != "" && IsSpace(s[|s| - 1]) then TrimEnd(s[..|s| - 1]) else s
  }

  /** `s.trim()`. */
  function Trim(s: string): string {
    TrimEnd(TrimStart(s))
  }

  lemma AllSpaceFront(s: string)
    requires s != ""
    ensures AllSpace(s) <==> IsSpace(s[0]) && AllSpace(s[1..])
  {
    if IsSpace(s[0]) && AllSpace(s[1..]) {
      forall i | 0 <= i < |s| ensures IsSpace(s[i]) {
        if i > 0 { assert s[i] == s[1..][i - 1]; }
      }
    }
  }

  lemma AllSpaceBack(s: string)
    requires s != ""
    ensures AllSpace(s) <==> IsSpace(s[|s| - 1]) && AllSpace(s[..|s| - 1])
  {
    if IsSpace(s[|s| - 1]) && AllSpace(s[..|s| - 1]) {
      forall i | 0 <= i < |s| ensures IsSpace(s[i]) {
        if i < |s| - 1 { assert s[i] == s[..|s| - 1][i]; }
      }
    }
  }

  lemma {:induction false} TrimStartEmpty(s: string)
    ensures TrimStart(s) == "" <==> AllSpace(s)
  {
    if s != "" {
      AllSpaceFront(s);
      if IsSpace(s[0]) {
        TrimStartEmpty(s[1..]);
      }
    }
  }

  lemma {:induction false} TrimEndEmpty(s: string)
    ensures TrimEnd(s) == "" <==> AllSpace(s)
  {
    if s != "" {
      AllSpaceBack(s);
      if IsSpace(s[|s| - 1]) {
        TrimEndEmpty(s[..|s| - 1]);
      }
    }
  }

  /** A string is blank after `trim()` exactly when every character is whitespace. */
  lemma TrimEmpty(s: string)
    ensures Trim(s) == "" <==> AllSpace(s)
  {
    TrimStartEmpty(s);
    var t := TrimStart(s);
    TrimEndEmpty(t);
    if t != "" {
      assert !IsSpace(t[0]);
      assert !AllSpace(t);
    }
  }

  /** Does `s` start, at index `i`, with `p`? */
  predicate At(s: string, i: nat, p: string) {
    i + |p| <= |s| && s[i..i + |p|] == p
  }

  /**
   * lodash `_.unescape`: the entities `&amp;`, `&lt;`, `&gt;`, `&quot;` and
   * `&#39;` become the characters they stand for, scanning left to right.
   */
  function Unescape(s: string): (r: string)
    ensures |r| <= |s|
    decreases |s|
  {
    if s == "" then ""
    else if s[0] != '&' then [s[0]] + Unescape(s[1..])
    else if At(s, 0, "&amp;") then "&" + Unescape(s[5..])
    else if At(s, 0, "&lt;") then "<" + Unescape(s[4..])
    else if At(s, 0, "&gt;") then ">" + Unescape(s[4..])
    else if At(s, 0, "&quot;") then "\"" + Unescape(s[6..])
    else if At(s, 0, "&#39;") then "'" + Unescape(s[5..])
    else [s[0]] + Unescape(s[1..])
  }

  /** A string with no `&` is left unchanged by `Unescape`. */
  lemma {:induction false} UnescapePlain(s: string)
    requires forall i :: 0 <= i < |s| ==> s[i] != '&'
    ensures Unescape(s) == s
  {
    if s != "" {
      assert s[0] != '&';
      UnescapePlain(s[1..]);
    }
  }

  /** The first index at or after `i` that holds a whitespace character, or `|s|`. */
  function WordEnd(s: string, i: nat): (j: nat)
    requires i <= |s|
    ensures i <= j <= |s|
    ensures forall k :: i <= k < j ==> !IsSpace(s[k])
    ensures j == |s| || IsSpace(s[j])
    decreases |s| - i
  {
    if i == |s| || IsSpace(s[i]) then i else WordEnd(s, i + 1)
  }

  /** The first index at or after `i` that holds a line terminator, or `|s|`. */
  function LineEnd(s: string, i: nat): (j: nat)
    requires i <= |s|
    ensures i <= j <= |s|
    ensures forall k :: i <= k < j ==> !IsLineTerminator(s[k])
    ensures j == |s| || IsLineTerminator(s[j])
    decreases |s| - i
  {
    if i == |s| || IsLineTerminator(s[i]) then i else LineEnd(s, i + 1)
  }

  /**
   * `s.replace(/^(.{n}[^\s]*).*\/, '$1')`: when the first `n` characters hold
   * no line terminator, keep them and the rest of the word they end in, and
   * drop what follows up to the end of that line; otherwise `s` is unchanged.
   */
  function TruncateAtWord(s: string, n: nat): (r: string)
    ensures |r| <= |s|
    ensures n <= |s| && (forall k :: 0 <= k < n ==> !IsLineTerminator(s[k])) ==>
      && WordEnd(s, n) <= |r|
      && r[..WordEnd(s, n)] == s[..WordEnd(s, n)]
      && r[WordEnd(s, n)..] == s[LineEnd(s, WordEnd(s, n))..]
    ensures (|s| < n || exists k :: 0 <= k < n && IsLineTerminator(s[k])) ==> r == s
  {
    if |s| < n || exists k :: 0 <= k < n && IsLineTerminator(s[k]) then s
    else
      var i := WordEnd(s, n);
      var e := LineEnd(s, i);
      s[..i] + s[e..]
  }

  /** On a single-line string the truncation keeps exactly the text up to the end of the word at position `n`. */
  lemma TruncateSingleLine(s: string, n: nat)
    requires n <= |s|
    requires forall k :: 0 <= k < |s| ==> !IsLineTerminator(s[k])
    ensures TruncateAtWord(s, n) == s[..WordEnd(s, n)]
  {
    var i := WordEnd(s, n);
    assert !(exists k :: 0 <= k < n && IsLineTerminator(s[k]));
    assert LineEnd(s, i) == |s|;
    assert s[..i] + s[|s|..] == s[..i];
  }

  /** Concatenation is associative; stated once so that proofs can name the step. */
  lemma AppendAssoc<T>(a: seq<T>, b: seq<T>, c: seq<T>)
    ensures (a + b) + c == a + (b + c)
  {
  }
}
