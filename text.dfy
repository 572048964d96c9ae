/**
 * The few Python string operations the bot relies on:
 *   - `str(n)` / f-string interpolation of an integer,
 *   - `int(word)` on a word of callback data,
 *   - `s.split()` (split at runs of whitespace),
 *   - `s.split("\n\n")` (split at blank lines).
 */
module Text {
  import opened Wrappers

  // ---------------------------------------------------------------------------
  // Decimal integers

  predicate IsDigit(c: char) {
    '0' <= c <= '9'
  }

  predicate AllDigits(s: string) {
    forall i :: 0 <= i < |s| ==> IsDigit(s[i])
  }

  function DigitChar(d: nat): (c: char)
    requires d < 10
    ensures IsDigit(c) && c as int - '0' as int == d
  {
    ('0' as int + d) as char
  }

  /** `str(n)` for a non-negative integer: its decimal digits, no leading zero. */
  function NatToString(n: nat): (s: string)
    ensures |s| >= 1 && AllDigits(s)
    ensures |s| > 1 ==> s[0] != '0'
    decreases n
  {
    if n < 10 then [DigitChar(n)] else NatToString(n / 10) + [DigitChar(n % 10)]
  }

  /** `str(i)` for any integer: a minus sign exactly when `i` is negative. */
  function IntToString(i: int): (s: string)
    ensures |s| >= 1
    ensures s[0] == '-' <==> i < 0
    ensures i >= 0 ==> AllDigits(s)
    ensures forall k :: 0 <= k < |s| ==> IsDigit(s[k]) || (k == 0 && s[k] == '-')
  {
    if i < 0 then "-" + NatToString(-i) else NatToString(i)
  }

  /** The value of a string of decimal digits, leading zeros allowed. */
  function DigitsValue(s: string): nat
    requires AllDigits(s)
  {
    if s == [] then 0 else DigitsValue(s[..|s| - 1]) * 10 + (s[|s| - 1] as int - '0' as int)
  }

  /**
   * `int(w)` on a word: an optional sign followed by at least one decimal digit;
   * anything else is the ValueError that `int` raises, here `None`.
   */
  function ParseInt(w: string): (r: Option<int>)
    ensures r.Some? ==> |w| >= 1 && (AllDigits(w) || (|w| >= 2 && AllDigits(w[1..])))
    ensures AllDigits(w) && |w| >= 1 ==> r == Some(DigitsValue(w))
    ensures r.Some? && !AllDigits(w) ==>
      && (w[0] == '-' || w[0] == '+')
      && r.value == (if w[0] == '-' then -(DigitsValue(w[1..]) as int) else DigitsValue(w[1..]) as int)
    ensures |w| >= 2 && (w[0] == '-' || w[0] == '+') && AllDigits(w[1..]) ==> r.Some?
  {
    if |w| >= 2 && (w[0] == '-' || w[0] == '+') && AllDigits(w[1..]) then
      var v: int := DigitsValue(w[1..]);
      Some(if w[0] == '-' then -v else v)
    else if |w| >= 1 && AllDigits(w) then
      Some(DigitsValue(w))
    else
      None
  }

  lemma {:induction false} NatToStringValue(n: nat)
    ensures DigitsValue(NatToString(n)) == n
    decreases n
  {
    if n >= 10 {
      var p := NatToString(n / 10);
      var s := p + [DigitChar(n % 10)];
      assert s[..|s| - 1] == p;
      NatToStringValue(n / 10);
    }
  }

  /** Reading back what `str` printed gives the same integer. */
  lemma IntRoundTrip(i: int)
    ensures ParseInt(IntToString(i)) == Some(i)
  {
    if i < 0 {
      var s := IntToString(i);
      assert s[1..] == NatToString(-i);
      NatToStringValue(-i);
    } else {
      NatToStringValue(i);
    }
  }

  predicate StartsWith(s: string, prefix: string) {
    |prefix| <= |s| && s[..|prefix|] == prefix
  }

  // ---------------------------------------------------------------------------
  // `s.split()`: words separated by runs of whitespace

  /** The ASCII characters for which Python's `str.isspace` holds. */
  predicate IsSpace(c: char) {
    (9 <= c as int <= 13) || (28 <= c as int <= 32)
  }

  predicate IsWord(w: string) {
    |w| >= 1 && forall i :: 0 <= i < |w| ==> !IsSpace(w[i])
  }

  /** Length of the longest whitespace-free prefix of `s`. */
  function WordLength(s: string): (n: nat)
    ensures n <= |s|
    ensures forall i :: 0 <= i < n ==> !IsSpace(s[i])
    ensures n < |s| ==> IsSpace(s[n])
  {
    if s == [] || IsSpace(s[0]) then 0 else 1 + WordLength(s[1..])
  }

  /** `s.split()`: never yields an empty word, and no word contains whitespace. */
  function Words(s: string): (r: seq<string>)
    ensures forall k :: 0 <= k < |r| ==> IsWord(r[k])
    decreases |s|
  {
    if s == [] then []
    else if IsSpace(s[0]) then Words(s[1..])
    else
      var n := WordLength(s);
      [s[..n]] + Words(s[n..])
  }

  /** Python's `s.split()[k]`, or `None` for the IndexError. */
  function WordAt(s: string, k: nat): (r: Option<string>)
    ensures r.Some? <==> k < |Words(s)|
  {
    var ws := Words(s);
    if k < |ws| then Some(ws[k]) else None
  }

  lemma {:induction false} WordLengthOfWord(w: string, rest: string)
    requires IsWord(w)
    requires rest == [] || IsSpace(rest[0])
    ensures WordLength(w + rest) == |w|
    decreases |w|
  {
    if |w| > 1 {
      assert (w + rest)[1..] == w[1..] + rest;
      WordLengthOfWord(w[1..], rest);
    }
  }

  /** A word followed by a space and more text splits off as the first word. */
  lemma WordsCons(w: string, rest: string)
    requires IsWord(w)
    ensures Words(w + " " + rest) == [w] + Words(rest)
  {
    var s := w + " " + rest;
    WordLengthOfWord(w, " " + rest);
    assert s[..|w|] == w;
    assert s[|w|..] == " " + rest;
    assert (" " + rest)[1..] == rest;
  }

  /** A single word is split into itself. */
  lemma WordsSingle(w: string)
    requires IsWord(w)
    ensures Words(w) == [w]
  {
    WordLengthOfWord(w, []);
    assert w + [] == w;
    assert w[|w|..] == [];
  }

  // ---------------------------------------------------------------------------
  // `s.split("\n\n")`: paragraphs separated by blank lines

  /** A blank-line separator "\n\n" starts at index `i` of `s`. */
  predicate BreakAt(s: string, i: int) {
    0 <= i && i + 1 < |s| && s[i] == '\n' && s[i + 1] == '\n'
  }

  predicate NoBreak(s: string) {
    forall i :: 0 <= i < |s| ==> !BreakAt(s, i)
  }

  predicate EndsInNewline(s: string) {
    |s| >= 1 && s[|s| - 1] == '\n'
  }

  /** Index of the leftmost separator, or `|s|` when there is none. */
  function FirstBreak(s: string): (r: nat)
    ensures r <= |s|
    ensures r < |s| ==> BreakAt(s, r)
    ensures forall j :: 0 <= j < r ==> !BreakAt(s, j)
  {
    if |s| < 2 then |s|
    else if s[0] == '\n' && s[1] == '\n' then 0
    else
      var r' := FirstBreak(s[1..]);
      assert forall j :: 1 <= j < 1 + r' ==> BreakAt(s, j) == BreakAt(s[1..], j - 1);
      1 + r'
  }

  /** `s.split("\n\n")`, scanning left to right for non-overlapping separators. */
  function Paragraphs(s: string): (r: seq<string>)
    ensures |r| >= 1
    decreases |s|
  {
    var i := FirstBreak(s);
    if i == |s| then [s] else [s[..i]] + Paragraphs(s[i + 2..])
  }

  /** Python's `s.split("\n\n")[k]`, or `None` for the IndexError. */
  function ParagraphAt(s: string, k: nat): (r: Option<string>)
    ensures r.Some? <==> k < |Paragraphs(s)|
  {
    var ps := Paragraphs(s);
    if k < |ps| then Some(ps[k]) else None
  }

  lemma NoBreakFirst(s: string)
    requires NoBreak(s)
    ensures FirstBreak(s) == |s|
  {
  }

  /** Gluing two separator-free strings makes one unless a newline meets a newline. */
  lemma NoBreakConcat(a: string, b: string)
    requires NoBreak(a) && NoBreak(b)
    requires !EndsInNewline(a) || b == [] || b[0] != '\n'
    ensures NoBreak(a + b)
  {
    var s := a + b;
    forall i | BreakAt(s, i) ensures false {
      if i + 1 < |a| {
        assert BreakAt(a, i);
      } else if i >= |a| {
        assert BreakAt(b, i - |a|);
      }
    }
  }

  /** A string without a newline has no separator. */
  lemma NoNewlineNoBreak(s: string)
    requires forall i :: 0 <= i < |s| ==> s[i] != '\n'
    ensures NoBreak(s) && !EndsInNewline(s)
  {
  }

  /** A first paragraph that does not end in a newline splits off at the separator after it. */
  lemma ParagraphsCons(a: string, b: string)
    requires NoBreak(a) && !EndsInNewline(a)
    ensures Paragraphs(a + "\n\n" + b) == [a] + Paragraphs(b)
  {
    var s := a + "\n\n" + b;
    var i := FirstBreak(s);
    assert BreakAt(s, |a|);
    forall j | 0 <= j < |a| ensures !BreakAt(s, j) {
      if j + 1 < |a| {
        assert !BreakAt(a, j);
      }
    }
    assert i == |a|;
    assert s[..i] == a;
    assert s[i + 2..] == b;
  }

  /** A string with no separator is a single paragraph. */
  lemma ParagraphsSingle(a: string)
    requires NoBreak(a)
    ensures Paragraphs(a) == [a]
  {
    NoBreakFirst(a);
  }
}
