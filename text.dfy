/**
 * The string primitives the Python and JavaScript code relies on: whitespace
 * stripping (Python's str.strip, and JavaScript's blank test with
 * String.prototype.trim, which disagree on what whitespace is), splitting,
 * substring search, ASCII case folding and digit filtering.
 */
module Text {

  /** Python's str.isspace() for a single character. */
  predicate IsPySpace(c: char) {
    || ('\t' <= c <= '\r')
    || ('\U{1C}' <= c <= ' ')
    || c == '\U{85}' || c == '\U{A0}' || c == '\U{1680}'
    || ('\U{2000}' <= c <= '\U{200A}')
    || c == '\U{2028}' || c == '\U{2029}' || c == '\U{202F}' || c == '\U{205F}' || c == '\U{3000}'
  }

  /** ECMAScript WhiteSpace and LineTerminator, the characters String.prototype.trim removes. */
  predicate IsJsSpace(c: char) {
    || ('\t' <= c <= '\r')
    || c == ' ' || c == '\U{A0}' || c == '\U{1680}'
    || ('\U{2000}' <= c <= '\U{200A}')
    || c == '\U{2028}' || c == '\U{2029}' || c == '\U{202F}' || c == '\U{205F}' || c == '\U{3000}'
    || c == '\U{FEFF}'
  }

  predicate IsDigit(c: char) {
    '0' <= c <= '9'
  }

  predicate AllDigits(s: string) {
    forall i :: 0 <= i < |s| ==> IsDigit(s[i])
  }

  predicate HasDigit(s: string) {
    exists i :: 0 <= i < |s| && IsDigit(s[i])
  }

  // ---------------------------------------------------------------------------
  // Stripping (Python's str.lstrip, str.rstrip and str.strip with no argument)

  /** The number of whitespace characters `s` starts with. */
  function LeadingSpace(s: string): (n: nat)
    ensures n <= |s|
    ensures n < |s| ==> !IsPySpace(s[n])
  {
    if |s| > 0 && IsPySpace(s[0]) then 1 + LeadingSpace(s[1..]) else 0
  }

  /** Every character counted by LeadingSpace is whitespace. */
  lemma {:induction false} LeadingAreSpace(s: string, i: nat)
    requires i < LeadingSpace(s)
    ensures IsPySpace(s[i])
  {
    if i > 0 {
      LeadingAreSpace(s[1..], i - 1);
    }
  }

  /** The number of whitespace characters `s` ends with. */
  function TrailingSpace(s: string): (n: nat)
    ensures n <= |s|
    ensures n < |s| ==> !IsPySpace(s[|s| - 1 - n])
  {
    if |s| > 0 && IsPySpace(s[|s| - 1]) then 1 + TrailingSpace(s[..|s| - 1]) else 0
  }

  /** Every character counted by TrailingSpace is whitespace. */
  lemma {:induction false} TrailingAreSpace(s: string, i: nat)
    requires |s| - TrailingSpace(s) <= i < |s|
    ensures IsPySpace(s[i])
  {
    if i < |s| - 1 {
      TrailingAreSpace(s[..|s| - 1], i);
    }
  }

  /** str.lstrip(): drops the leading whitespace. */
  function StripLeft(s: string): string {
    s[LeadingSpace(s)..]
  }

  /** str.rstrip(): drops the trailing whitespace. */
  function StripRight(s: string): string {
    s[..|s| - TrailingSpace(s)]
  }

  /** str.strip(): neither end of the result is whitespace. */
  function PyStrip(s: string): (r: string)
    ensures r == [] || (!IsPySpace(r[0]) && !IsPySpace(r[|r| - 1]))
  {
    StripRight(StripLeft(s))
  }

  /** Stripping returns a contiguous piece of its argument. */
  lemma StripIsSlice(s: string) returns (a: nat, b: nat)
    ensures a <= b <= |s| && PyStrip(s) == s[a..b]
    ensures a == LeadingSpace(s) && b == a + |PyStrip(s)|
  {
    var l := StripLeft(s);
    a := LeadingSpace(s);
    b := a + |StripRight(l)|;
    assert l[..b - a] == s[a..b];
  }

  /** A string that neither starts nor ends with whitespace is left alone. */
  lemma StripUnchanged(s: string)
    requires s == [] || (!IsPySpace(s[0]) && !IsPySpace(s[|s| - 1]))
    ensures PyStrip(s) == s
  {
  }

  lemma StripIdempotent(s: string)
    ensures PyStrip(PyStrip(s)) == PyStrip(s)
  {
    StripUnchanged(PyStrip(s));
  }

  /** Stripping keeps every character that is not whitespace. */
  lemma StripKeeps(s: string, c: char)
    requires !IsPySpace(c)
    ensures c in PyStrip(s) <==> c in s
  {
    var a, b := StripIsSlice(s);
    if c in s {
      var i :| 0 <= i < |s| && s[i] == c;
      assert a <= i by {
        if i < a { LeadingAreSpace(s, i); }
      }
      var l := StripLeft(s);
      var j := i - a;
      assert l[j] == c;
      assert j < |l| - TrailingSpace(l) by {
        if |l| - TrailingSpace(l) <= j { TrailingAreSpace(l, j); }
      }
      assert PyStrip(s)[j] == c;
    }
  }

  /** JavaScript's `s.trim() === ''`: the string is empty or all whitespace. */
  predicate JsBlank(s: string) {
    forall i :: 0 <= i < |s| ==> IsJsSpace(s[i])
  }

  // ---------------------------------------------------------------------------
  // Substrings

  /** `t` occurs in `s` starting at index `i`. */
  predicate OccursAt(s: string, t: string, i: int) {
    0 <= i && i + |t| <= |s| && s[i..i + |t|] == t
  }

  /** Python's `t in s` and JavaScript's `s.includes(t)` for strings. */
  predicate Contains(s: string, t: string) {
    exists i | 0 <= i <= |s| :: OccursAt(s, t, i)
  }

  /** An occurrence inside a slice is an occurrence in the whole string. */
  lemma ContainsInSlice(s: string, a: nat, b: nat, t: string)
    requires a <= b <= |s|
    requires Contains(s[a..b], t)
    ensures Contains(s, t)
  {
    var i :| 0 <= i <= b - a && OccursAt(s[a..b], t, i);
    var u := s[a..b];
    forall k | 0 <= k < |t| ensures t[k] == s[a + i + k] {
      assert t[k] == u[i..i + |t|][k] == u[i + k];
    }
    assert s[a + i..a + i + |t|] == t;
    assert OccursAt(s, t, a + i);
  }

  /** Whatever the stripped string contains, the original contains. */
  lemma ContainsInStrip(s: string, t: string)
    requires Contains(PyStrip(s), t)
    ensures Contains(s, t)
  {
    var a, b := StripIsSlice(s);
    ContainsInSlice(s, a, b, t);
  }

  /** A needle without whitespace found in `s` is still found once `s` is stripped. */
  lemma ContainsWordInStrip(s: string, t: string)
    requires IsWord(t) && Contains(s, t)
    ensures Contains(PyStrip(s), t)
  {
    var i :| 0 <= i <= |s| && OccursAt(s, t, i);
    var a, b := StripIsSlice(s);
    WordInsideStrip(s, t, i);
    OccursInSlice(s, t, i, a, b);
  }

  /** An occurrence of a whitespace-free needle lies between the stripped ends. */
  lemma WordInsideStrip(s: string, t: string, i: nat)
    requires IsWord(t) && OccursAt(s, t, i)
    ensures LeadingSpace(s) <= i && i + |t| <= LeadingSpace(s) + |PyStrip(s)|
  {
    assert !IsPySpace(s[i]) by {
      assert s[i] == s[i..i + |t|][0] == t[0];
    }
    var a := LeadingSpace(s);
    if i < a {
      LeadingAreSpace(s, i);
    }
    var e := i + |t| - 1;
    assert !IsPySpace(s[e]) by {
      assert s[e] == s[i..i + |t|][|t| - 1] == t[|t| - 1];
    }
    NotTrailing(s, e);
  }

  /** A non-space character after the leading whitespace is kept by stripping. */
  lemma NotTrailing(s: string, e: nat)
    requires LeadingSpace(s) <= e < |s| && !IsPySpace(s[e])
    ensures e < LeadingSpace(s) + |PyStrip(s)|
  {
    var a := LeadingSpace(s);
    var l := StripLeft(s);
    assert l[e - a] == s[e];
    if e - a >= |l| - TrailingSpace(l) {
      TrailingAreSpace(l, e - a);
    }
  }

  /** An occurrence within the bounds of a slice is an occurrence in the slice. */
  lemma OccursInSlice(s: string, t: string, i: nat, a: nat, b: nat)
    requires a <= i && i + |t| <= b <= |s| && OccursAt(s, t, i)
    ensures OccursAt(s[a..b], t, i - a)
  {
    var u := s[a..b];
    forall k | 0 <= k < |t| ensures u[i - a + k] == t[k] {
      assert t[k] == s[i..i + |t|][k] == s[i + k];
    }
    assert u[i - a..i - a + |t|] == t;
  }

  // ---------------------------------------------------------------------------
  // Case folding

  function LowerChar(c: char): char {
    if 'A' <= c <= 'Z' then (c as int + 32) as char else c
  }

  /** str.lower() restricted to ASCII letters. */
  function ToLower(s: string): (r: string)
    ensures |r| == |s|
    ensures forall i :: 0 <= i < |s| ==> r[i] == LowerChar(s[i])
  {
    seq(|s|, i requires 0 <= i < |s| => LowerChar(s[i]))
  }

  lemma ToLowerIdempotent(s: string)
    ensures ToLower(ToLower(s)) == ToLower(s)
  {
  }

  // ---------------------------------------------------------------------------
  // Digits

  /** re.sub(r'[^\d]', '', s): the digits of `s`, in order. */
  function DigitsOf(s: string): (r: string)
    ensures |r| <= |s| && AllDigits(r)
  {
    if s == [] then []
    else (if IsDigit(s[0]) then [s[0]] else []) + DigitsOf(s[1..])
  }

  lemma {:induction false} DigitsOfConcat(a: string, b: string)
    ensures DigitsOf(a + b) == DigitsOf(a) + DigitsOf(b)
  {
    if a != [] {
      var head := if IsDigit(a[0]) then [a[0]] else [];
      assert (a + b)[0] == a[0];
      assert (a + b)[1..] == a[1..] + b;
      calc {
        DigitsOf(a + b);
        head + DigitsOf(a[1..] + b);
        { DigitsOfConcat(a[1..], b); }
        head + (DigitsOf(a[1..]) + DigitsOf(b));
        (head + DigitsOf(a[1..])) + DigitsOf(b);
      }
    } else {
      assert a + b == b;
    }
  }

  lemma {:induction false} DigitsOfDigits(s: string)
    requires AllDigits(s)
    ensures DigitsOf(s) == s
  {
    if s != [] {
      DigitsOfDigits(s[1..]);
    }
  }

  /** A string without any digit keeps none. */
  lemma {:induction false} DigitsOfNoDigits(s: string)
    requires forall i :: 0 <= i < |s| ==> !IsDigit(s[i])
    ensures DigitsOf(s) == []
  {
    if s != [] {
      DigitsOfNoDigits(s[1..]);
    }
  }

  function Pow10(n: nat): (r: nat)
    ensures r >= 1
  {
    if n == 0 then 1 else 10 * Pow10(n - 1)
  }

  function DigitValue(c: char): nat
    requires IsDigit(c)
  {
    c as int - '0' as int
  }

  /** The base-10 value of a string of ASCII digits, read left to right. */
  function DecimalValue(d: string): (r: nat)
    requires AllDigits(d)
    ensures r < Pow10(|d|)
  {
    if d == [] then 0 else 10 * DecimalValue(d[..|d| - 1]) + DigitValue(d[|d| - 1])
  }

  /** The shortest decimal spelling of `n`, as Python's str() writes it. */
  function Decimal(n: nat): (r: string)
    ensures r != [] && AllDigits(r)
  {
    var last := ['0' + (n % 10) as char];
    if n < 10 then last else Decimal(n / 10) + last
  }

  lemma {:induction false} DecimalValueOfDecimal(n: nat)
    ensures DecimalValue(Decimal(n)) == n
  {
    if n >= 10 {
      var d := Decimal(n);
      assert d[..|d| - 1] == Decimal(n / 10);
      DecimalValueOfDecimal(n / 10);
    }
  }

  // ---------------------------------------------------------------------------
  // Splitting

  /** The index of the first `sep` in `s`, or `|s|` when there is none. */
  function IndexOf(s: string, sep: char): (n: nat)
    ensures n <= |s| && sep !in s[..n]
    ensures n < |s| ==> s[n] == sep
  {
    if s == [] || s[0] == sep then 0
    else
      var n := 1 + IndexOf(s[1..], sep);
      assert s[..n] == [s[0]] + s[1..][..n - 1];
      n
  }

  /** The text before the first `sep`, or all of `s` when there is none: `s.split(sep)[0]`. */
  function Before(s: string, sep: char): string {
    s[..IndexOf(s, sep)]
  }

  /** Python's `s.split(sep)` for a one-character separator: never empty, pieces free of `sep`. */
  function Split(s: string, sep: char): (r: seq<string>)
    ensures |r| >= 1
    ensures forall k :: 0 <= k < |r| ==> sep !in r[k]
    decreases |s|
  {
    var n := IndexOf(s, sep);
    if n == |s| then
      assert s[..n] == s;
      [s]
    else [s[..n]] + Split(s[n + 1..], sep)
  }

  /** `sep.join(pieces)`. */
  function Join(pieces: seq<string>, sep: char): string {
    if |pieces| <= 1 then (if pieces == [] then [] else pieces[0])
    else pieces[0] + [sep] + Join(pieces[1..], sep)
  }

  /** Splitting loses nothing: joining the pieces gives back the input. */
  lemma {:induction false} JoinSplit(s: string, sep: char)
    ensures Join(Split(s, sep), sep) == s
    decreases |s|
  {
    var n := IndexOf(s, sep);
    if n < |s| {
      var rest := s[n + 1..];
      JoinSplit(rest, sep);
      var pieces := Split(s, sep);
      assert pieces == [s[..n]] + Split(rest, sep);
      assert pieces[1..] == Split(rest, sep);
      assert Join(pieces, sep) == s[..n] + [sep] + Join(Split(rest, sep), sep);
      assert s == s[..n] + [sep] + rest;
    } else {
      assert s[..n] == s;
    }
  }

  predicate NoSpace(w: string) {
    forall i :: 0 <= i < |w| ==> !IsPySpace(w[i])
  }

  /** A non-empty run of characters none of which is Python whitespace. */
  predicate IsWord(w: string) {
    w != [] && NoSpace(w)
  }

  /** The length of the text up to the first whitespace character. */
  function WordLength(s: string): (n: nat)
    ensures n <= |s| && NoSpace(s[..n])
    ensures n < |s| ==> IsPySpace(s[n])
  {
    if s == [] || IsPySpace(s[0]) then 0
    else
      var n := 1 + WordLength(s[1..]);
      assert s[..n] == [s[0]] + s[1..][..n - 1];
      n
  }

  /** Python's `s.split()` with no argument: the maximal runs of non-whitespace. */
  function Words(s: string): seq<string>
    decreases |s|
  {
    var t := StripLeft(s);
    if t == [] then []
    else
      var n := WordLength(t);
      assert t[0] == s[LeadingSpace(s)];
      [t[..n]] + Words(t[n..])
  }

  /** Every piece `split()` returns is a word. */
  lemma {:induction false} WordsAreWords(s: string)
    ensures forall k :: 0 <= k < |Words(s)| ==> IsWord(Words(s)[k])
    decreases |s|
  {
    var t := StripLeft(s);
    if t != [] {
      var n := WordLength(t);
      assert t[0] == s[LeadingSpace(s)];
      WordsAreWords(t[n..]);
      var rest := Words(t[n..]);
      var r := Words(s);
      assert r == [t[..n]] + rest;
      forall k | 0 <= k < |r| ensures IsWord(r[k]) {
        if k > 0 {
          assert r[k] == rest[k - 1];
        }
      }
    }
  }
}
