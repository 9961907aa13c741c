/**
 * The Python string built-ins the workflow relies on, over `seq<char>`:
 * `str.isspace` (also the class `\s` of the regular expressions),
 * `strip`, `upper`, `split()` with no separator, `startswith` and `endswith`.
 */
module Text {

  /** `str.isspace` for one character (the same set is `\s` in Python's `re`). */
  predicate IsSpace(c: char)
  {
    c == ' ' || ('\t' <= c <= '\r') || ('\U{1C}' <= c <= '\U{1F}')
    || c == '\U{85}' || c == '\U{A0}' || c == '\U{1680}'
    || ('\U{2000}' <= c <= '\U{200A}') || c == '\U{2028}' || c == '\U{2029}'
    || c == '\U{202F}' || c == '\U{205F}' || c == '\U{3000}'
  }

  predicate IsAsciiUpper(c: char) { 'A' <= c <= 'Z' }

  predicate IsAsciiLower(c: char) { 'a' <= c <= 'z' }

  predicate IsAsciiLetter(c: char) { IsAsciiUpper(c) || IsAsciiLower(c) }

  predicate IsDigit(c: char) { '0' <= c <= '9' }

  predicate AllSpace(s: string)
  {
    forall i | 0 <= i < |s| :: IsSpace(s[i])
  }

  predicate StartsWith(s: string, prefix: string)
  {
    |prefix| <= |s| && s[..|prefix|] == prefix
  }

  predicate EndsWith(s: string, suffix: string)
  {
    |suffix| <= |s| && s[|s| - |suffix|..] == suffix
  }

  /** `str.lstrip()`: drops white space from the front. */
  function TrimStart(s: string): (r: string)
    ensures |r| <= |s|
  {
    if |s| > 0 && IsSpace(s[0]) then TrimStart(s[1..]) else s
  }

  /** `lstrip` keeps the longest suffix that does not start with white space, cutting only white space. */
  lemma {:induction false} TrimStartSpec(s: string)
    ensures var r := TrimStart(s);
      r == s[|s| - |r|..] && (r == [] || !IsSpace(r[0])) && AllSpace(s[..|s| - |r|])
    decreases |s|
  {
    if |s| > 0 && IsSpace(s[0]) {
      TrimStartSpec(s[1..]);
      var n := |s| - |TrimStart(s)|;
      assert s[..n] == [s[0]] + s[1..][..n - 1];
      assert s[n..] == s[1..][n - 1..];
    }
  }

  /** `str.rstrip()`: drops white space from the back. */
  function TrimEnd(s: string): (r: string)
    ensures |r| <= |s|
  {
    if |s| > 0 && IsSpace(s[|s| - 1]) then TrimEnd(s[..|s| - 1]) else s
  }

  /** `rstrip` keeps the longest prefix that does not end with white space, cutting only white space. */
  lemma {:induction false} TrimEndSpec(s: string)
    ensures var r := TrimEnd(s);
      r == s[..|r|] && (r == [] || !IsSpace(r[|r| - 1])) && AllSpace(s[|r|..])
    decreases |s|
  {
    if |s| > 0 && IsSpace(s[|s| - 1]) {
      var shorter := s[..|s| - 1];
      TrimEndSpec(shorter);
      var n := |TrimEnd(s)|;
      assert s[n..] == shorter[n..] + [s[|s| - 1]];
      assert s[..n] == shorter[..n];
    }
  }

  /** `rstrip` keeps every position up to the last character that is not white space. */
  lemma {:induction false} TrimEndKeepsNonSpace(s: string, k: nat)
    requires k < |s| && !IsSpace(s[k])
    ensures k < |TrimEnd(s)|
    decreases |s|
  {
    if IsSpace(s[|s| - 1]) {
      TrimEndKeepsNonSpace(s[..|s| - 1], k);
    }
  }

  /** `str.strip()` with no argument. */
  function Strip(s: string): string
  {
    TrimEnd(TrimStart(s))
  }

  /** The stripped text neither starts nor ends with white space. */
  lemma StripEnds(s: string)
    ensures Strip(s) == [] || (!IsSpace(Strip(s)[0]) && !IsSpace(Strip(s)[|Strip(s)| - 1]))
  {
    var t := TrimStart(s);
    TrimStartSpec(s);
    var r := TrimEnd(t);
    TrimEndSpec(t);
    if r != [] {
      assert r[0] == t[0];
    }
  }

  /** A text with no white space at either end is its own strip. */
  lemma StripUnpadded(s: string)
    requires s == [] || (!IsSpace(s[0]) && !IsSpace(s[|s| - 1]))
    ensures Strip(s) == s
  {
  }

  /** Stripping twice is stripping once. */
  lemma StripIdempotent(s: string)
    ensures Strip(Strip(s)) == Strip(s)
  {
    StripEnds(s);
    StripUnpadded(Strip(s));
  }

  lemma TrimStartPadded(pad: string, s: string)
    requires AllSpace(pad)
    ensures TrimStart(pad + s) == TrimStart(s)
    decreases |pad|
  {
    if pad != [] {
      assert (pad + s)[1..] == pad[1..] + s;
      TrimStartPadded(pad[1..], s);
    } else {
      assert pad + s == s;
    }
  }

  lemma TrimEndPadded(s: string, pad: string)
    requires AllSpace(pad)
    ensures TrimEnd(s + pad) == TrimEnd(s)
    decreases |pad|
  {
    if pad != [] {
      var shorter := pad[..|pad| - 1];
      assert (s + pad)[..|s + pad| - 1] == s + shorter;
      TrimEndPadded(s, shorter);
    } else {
      assert s + pad == s;
    }
  }

  /** A text of white space only strips to nothing. */
  lemma TrimStartOfBlank(s: string)
    requires AllSpace(s)
    ensures TrimStart(s) == []
  {
  }

  /** Left-stripping `s + right` keeps `right` whole after the first non-space character. */
  lemma TrimStartThenPad(s: string, right: string)
    requires AllSpace(right)
    ensures TrimStart(s) == [] ==> TrimStart(s + right) == []
    ensures TrimStart(s) != [] ==> TrimStart(s + right) == TrimStart(s) + right
  {
    var t := TrimStart(s);
    var i := |s| - |t|;
    TrimStartSpec(s);
    assert s == s[..i] + t;
    assert s + right == s[..i] + (t + right);
    TrimStartPadded(s[..i], t + right);
    if t == [] {
      assert t + right == right;
      TrimStartOfBlank(right);
    } else {
      assert (t + right)[0] == t[0];
    }
  }

  /** White space added at either end of a text makes no difference to its strip. */
  lemma StripIgnoresPadding(left: string, s: string, right: string)
    requires AllSpace(left) && AllSpace(right)
    ensures Strip(left + s + right) == Strip(s)
  {
    assert left + s + right == left + (s + right);
    TrimStartPadded(left, s + right);
    TrimStartThenPad(s, right);
    if TrimStart(s) != [] {
      TrimEndPadded(TrimStart(s), right);
    }
  }

  /**
   * The upper case of one character as Python's `str.upper` produces it, for
   * every character whose upper case contains an ASCII letter: the ASCII
   * letters themselves, the dotless i, the long s, the sharp s and the
   * characters that expand to several letters. Every other character is kept
   * as it is (its upper case, if any, is again outside ASCII).
   */
  function UpperChar(c: char): (r: string)
    ensures |r| >= 1
  {
    if IsAsciiLower(c) then [(c as int - 32) as char]
    else if c == '\U{131}' then "I"      // dotless i
    else if c == '\U{17F}' then "S"      // long s
    else if c == '\U{DF}' then "SS"      // sharp s
    else if c == '\U{149}' then "\U{2BC}N"
    else if c == '\U{1F0}' then "J\U{30C}"
    else if c == '\U{1E96}' then "H\U{331}"
    else if c == '\U{1E97}' then "T\U{308}"
    else if c == '\U{1E98}' then "W\U{30A}"
    else if c == '\U{1E99}' then "Y\U{30A}"
    else if c == '\U{1E9A}' then "A\U{2BE}"
    else if c == '\U{FB00}' then "FF"
    else if c == '\U{FB01}' then "FI"
    else if c == '\U{FB02}' then "FL"
    else if c == '\U{FB03}' then "FFI"
    else if c == '\U{FB04}' then "FFL"
    else if c == '\U{FB05}' || c == '\U{FB06}' then "ST"
    else [c]
  }

  /** `str.upper()`, character by character. */
  function Upper(s: string): (r: string)
    ensures |r| >= |s|
  {
    if s == [] then [] else UpperChar(s[0]) + Upper(s[1..])
  }

  lemma {:induction false} UpperAppend(a: string, b: string)
    ensures Upper(a + b) == Upper(a) + Upper(b)
  {
    if a != [] {
      assert (a + b)[1..] == a[1..] + b;
      UpperAppend(a[1..], b);
    } else {
      assert a + b == b;
    }
  }

  /** No lower-case ASCII letter survives upper-casing. */
  lemma {:induction false} UpperHasNoAsciiLower(s: string)
    ensures forall i | 0 <= i < |Upper(s)| :: !IsAsciiLower(Upper(s)[i])
  {
    if s != [] {
      UpperHasNoAsciiLower(s[1..]);
      var head := UpperChar(s[0]);
      assert forall i | 0 <= i < |head| :: !IsAsciiLower(head[i]);
      assert Upper(s) == head + Upper(s[1..]);
    }
  }

  /** Upper-casing maps white space to itself, one character each. */
  lemma {:induction false} UpperOfSpace(s: string)
    requires AllSpace(s)
    ensures Upper(s) == s
  {
    if s != [] {
      UpperOfSpace(s[1..]);
      assert s == [s[0]] + s[1..];
    }
  }

  /** `re.sub(r'[^a-zA-Z\s]', '', s)`: keep the ASCII letters and the white space. */
  function KeepLettersAndSpaces(s: string): (r: string)
    ensures |r| <= |s|
    ensures forall i | 0 <= i < |r| :: IsAsciiLetter(r[i]) || IsSpace(r[i])
  {
    if s == [] then []
    else if IsAsciiLetter(s[0]) || IsSpace(s[0]) then [s[0]] + KeepLettersAndSpaces(s[1..])
    else KeepLettersAndSpaces(s[1..])
  }

  /** The length of the run of non-space characters at the head of `t`. */
  function WordLength(t: string): (n: nat)
    ensures n <= |t|
    ensures forall i | 0 <= i < n :: !IsSpace(t[i])
    ensures n == |t| || IsSpace(t[n])
  {
    if t == [] || IsSpace(t[0]) then 0 else 1 + WordLength(t[1..])
  }

  /** `str.split()` with no separator: the maximal runs of non-space characters, in order. */
  function Words(s: string): (ws: seq<string>)
    ensures forall i | 0 <= i < |ws| :: ws[i] != []
    ensures forall i, k | 0 <= i < |ws| && 0 <= k < |ws[i]| :: !IsSpace(ws[i][k])
    decreases |s|
  {
    var t := TrimStart(s);
    TrimStartSpec(s);
    if t == [] then []
    else
      var n := WordLength(t);
      [t[..n]] + Words(t[n..])
  }

  function WordSet(s: string): set<string>
  {
    set w | w in Words(s)
  }

  /** A text of white space only has no words. */
  lemma BlankHasNoWords(s: string)
    requires AllSpace(s)
    ensures Words(s) == []
  {
    TrimStartOfBlank(s);
  }
}
