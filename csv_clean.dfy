/**
 * Cell cleaning for the tenant spreadsheet (parse_tenant_csv.py): phone,
 * e-mail and number normalisation, splitting of suite cells, and the
 * classification tags given to a tenant's contacts.
 */
module CsvClean {
  import opened Wrappers
  import opened Text

  /**
   * The guard shared by clean_phone, clean_email and clean_number: an empty
   * cell, or one whose stripped text is '-', 'TBD' or empty.
   */
  predicate IsPlaceholder(s: string) {
    s == "" || PyStrip(s) in {"-", "TBD", ""}
  }

  // ---------------------------------------------------------------------------
  // clean_phone

  /** "(AAA) BBB-CCCC" for ten digits. */
  function UsFormat(d: string): (r: string)
    requires |d| == 10
    ensures |r| == 14 && r[0] == '(' && r[4] == ')' && r[5] == ' ' && r[9] == '-'
  {
    "(" + d[..3] + ") " + d[3..6] + "-" + d[6..]
  }

  /** "+1 (AAA) BBB-CCCC" for eleven digits starting with the country code 1. */
  function IntlFormat(d: string): (r: string)
    requires |d| == 11
    ensures |r| == 17 && r[..4] == "+1 (" && r[7] == ')' && r[8] == ' ' && r[12] == '-'
  {
    "+1 (" + d[1..4] + ") " + d[4..7] + "-" + d[7..]
  }

  /**
   * clean_phone: placeholders give None; otherwise the digits are kept and
   * laid out as a North American number when there are 10 of them (or 11
   * starting with 1); any other count gives the bare digits, possibly none.
   */
  function CleanPhone(phone: string): (r: Option<string>)
    ensures r.None? <==> IsPlaceholder(phone)
    ensures r.Some? && |DigitsOf(phone)| == 10 ==>
      |r.value| == 14 && r.value[0] == '(' && r.value[4] == ')' && r.value[5] == ' ' && r.value[9] == '-'
    ensures r.Some? && |DigitsOf(phone)| == 11 && DigitsOf(phone)[0] == '1' ==>
      |r.value| == 17 && r.value[..4] == "+1 (" && r.value[7] == ')' && r.value[8] == ' ' && r.value[12] == '-'
    ensures r.Some? && |DigitsOf(phone)| != 10 && !(|DigitsOf(phone)| == 11 && DigitsOf(phone)[0] == '1') ==>
      r.value == DigitsOf(phone)
  {
    if IsPlaceholder(phone) then None
    else
      var d := DigitsOf(phone);
      if |d| == 10 then Some(UsFormat(d))
      else if |d| == 11 && d[0] == '1' then Some(IntlFormat(d))
      else
        // `phone.strip()` on a string of digits changes nothing
        StripUnchanged(d);
        Some(PyStrip(d))
  }

  /** Punctuation around digit groups contributes no digit. */
  lemma DigitsAround(x: string, p: string, y: string)
    requires forall i :: 0 <= i < |p| ==> !IsDigit(p[i])
    ensures DigitsOf(x + p + y) == DigitsOf(x) + DigitsOf(y)
  {
    DigitsOfNoDigits(p);
    DigitsOfConcat(x, p);
    DigitsOfConcat(x + p, y);
    var dx := DigitsOf(x);
    assert DigitsOf(x + p) == dx + [] == dx;
  }

  lemma UsFormatDigits(d: string)
    requires |d| == 10 && AllDigits(d)
    ensures DigitsOf(UsFormat(d)) == d
  {
    var a, b, c := d[..3], d[3..6], d[6..];
    DigitsOfDigits(a);
    DigitsOfDigits(b);
    DigitsOfDigits(c);
    var s1 := "(" + a;
    assert DigitsOf(s1) == a by { DigitsAround([], "(", a); assert [] + "(" + a == s1; }
    var s3 := s1 + ") " + b;
    DigitsAround(s1, ") ", b);
    var s5 := s3 + "-" + c;
    DigitsAround(s3, "-", c);
    assert UsFormat(d) == s5;
    assert a + b + c == d;
  }

  lemma IntlFormatDigits(d: string)
    requires |d| == 11 && AllDigits(d) && d[0] == '1'
    ensures DigitsOf(IntlFormat(d)) == d
  {
    var a, b, c := d[1..4], d[4..7], d[7..];
    var s1 := "+1 (" + a;
    assert DigitsOf(s1) == "1" + a by {
      assert DigitsOf("+1") == "1" by {
        DigitsOfConcat("+", "1");
        assert "+" + "1" == "+1";
      }
      DigitsOfDigits(a);
      DigitsAround("+1", " (", a);
      assert "+1" + " (" + a == s1;
    }
    var s3 := s1 + ") " + b;
    assert DigitsOf(s3) == "1" + a + b by {
      DigitsOfDigits(b);
      DigitsAround(s1, ") ", b);
    }
    var s5 := s3 + "-" + c;
    assert DigitsOf(s5) == "1" + a + b + c by {
      DigitsOfDigits(c);
      DigitsAround(s3, "-", c);
    }
    assert IntlFormat(d) == s5;
    assert "1" + a + b + c == d;
  }

  /** Formatting only adds punctuation: the digits of the cleaned number are the digits typed. */
  lemma CleanPhoneKeepsDigits(phone: string)
    requires CleanPhone(phone).Some?
    ensures DigitsOf(CleanPhone(phone).value) == DigitsOf(phone)
  {
    var d := DigitsOf(phone);
    if |d| == 10 {
      UsFormatDigits(d);
    } else if |d| == 11 && d[0] == '1' {
      IntlFormatDigits(d);
    } else {
      DigitsOfDigits(d);
    }
  }

  // ---------------------------------------------------------------------------
  // clean_email

  /** Lower-casing leaves '@' where it was. */
  lemma AtSurvivesLower(s: string)
    ensures '@' in ToLower(s) <==> '@' in s
  {
    if '@' in s {
      var i :| 0 <= i < |s| && s[i] == '@';
      assert ToLower(s)[i] == '@';
    }
  }

  /**
   * clean_email: placeholders and strings without '@' give None; otherwise
   * the stripped, lower-cased text, which keeps its '@'.
   */
  function CleanEmail(email: string): (r: Option<string>)
    ensures r.Some? <==> !IsPlaceholder(email) && '@' in email
    ensures r.Some? ==> '@' in r.value && r.value == ToLower(PyStrip(email))
  {
    if IsPlaceholder(email) then None
    else
      var e := ToLower(PyStrip(email));
      StripKeeps(email, '@');
      AtSurvivesLower(PyStrip(email));
      if '@' in e then Some(e) else None
  }

  /** Lower-casing never turns a non-space into a space or back. */
  lemma LowerKeepsSpace(c: char)
    ensures IsPySpace(LowerChar(c)) <==> IsPySpace(c)
  {
  }

  /** Cleaning an already cleaned address changes nothing. */
  lemma CleanEmailIdempotent(email: string)
    requires CleanEmail(email).Some?
    ensures CleanEmail(CleanEmail(email).value) == CleanEmail(email)
  {
    var t := PyStrip(email);
    var e := ToLower(t);
    assert e == CleanEmail(email).value;
    assert e != [];
    LowerKeepsSpace(t[0]);
    LowerKeepsSpace(t[|t| - 1]);
    StripUnchanged(e);
    assert PyStrip(e) == e;
    assert !IsPlaceholder(e) by {
      assert '@' in e;
      assert '@' !in "-" && '@' !in "TBD";
    }
    ToLowerIdempotent(t);
  }

  // ---------------------------------------------------------------------------
  // clean_number

  /**
   * CPython's default limit on the digits int() accepts from a string
   * (sys.int_info.default_max_str_digits); a longer string raises ValueError.
   */
  const IntMaxStrDigits: nat := 4300

  /**
   * clean_number: placeholders give None; otherwise every non-digit is
   * dropped and the remaining digits are read as a decimal number, or None
   * when int() raises ValueError: no digit remains, or more digits remain
   * than int() accepts.
   */
  function CleanNumber(value: string): (r: Option<nat>)
    ensures r.Some? <==>
      !IsPlaceholder(value) && DigitsOf(value) != [] && |DigitsOf(value)| <= IntMaxStrDigits
    ensures r.Some? ==> r.value < Pow10(|DigitsOf(value)|)
  {
    if IsPlaceholder(value) then None
    else
      var d := DigitsOf(value);
      if d == [] || |d| > IntMaxStrDigits then None else Some(DecimalValue(d))
  }

  /** A cell that starts and ends with a digit is no placeholder. */
  lemma DigitEndsNotPlaceholder(s: string)
    requires s != [] && IsDigit(s[0]) && IsDigit(s[|s| - 1])
    ensures !IsPlaceholder(s) && PyStrip(s) == s
  {
    StripUnchanged(s);
    assert !IsDigit("-"[0]) && !IsDigit("TBD"[0]);
  }

  /**
   * A number written out in decimal reads back as itself, unless it has
   * more digits than int() accepts.
   */
  lemma CleanNumberOfDecimal(n: nat)
    ensures |Decimal(n)| <= IntMaxStrDigits ==> CleanNumber(Decimal(n)) == Some(n)
    ensures |Decimal(n)| > IntMaxStrDigits ==> CleanNumber(Decimal(n)) == None
  {
    var d := Decimal(n);
    DigitEndsNotPlaceholder(d);
    DigitsOfDigits(d);
    DecimalValueOfDecimal(n);
  }

  /**
   * Separators such as thousands commas are ignored: "1,400" reads as 1400;
   * only the digits count towards int()'s limit.
   */
  lemma CleanNumberIgnoresSeparators(n: nat, m: nat)
    requires m < 1000
    ensures |Decimal(n)| + 3 <= IntMaxStrDigits ==>
      CleanNumber(Decimal(n) + "," + Decimal3(m)) == Some(1000 * n + m)
    ensures |Decimal(n)| + 3 > IntMaxStrDigits ==>
      CleanNumber(Decimal(n) + "," + Decimal3(m)) == None
  {
    var a, b := Decimal(n), Decimal3(m);
    var s := a + "," + b;
    SeparatedDigits(a, b);
    assert |DigitsOf(s)| == |a| + 3;
    if |a| + 3 <= IntMaxStrDigits {
      SeparatedValue(n, m);
    }
  }

  /** The digits of "n,mmm" are those of n followed by those of mmm. */
  lemma SeparatedDigits(a: string, b: string)
    requires a != [] && AllDigits(a) && |b| == 3 && AllDigits(b)
    ensures !IsPlaceholder(a + "," + b) && DigitsOf(a + "," + b) == a + b
  {
    var s := a + "," + b;
    assert s[0] == a[0] && s[|s| - 1] == b[2];
    DigitEndsNotPlaceholder(s);
    DigitsAround(a, ",", b);
    DigitsOfDigits(a);
    DigitsOfDigits(b);
  }

  /** Read together, the digits of n and of the group m give 1000·n + m. */
  lemma SeparatedValue(n: nat, m: nat)
    requires m < 1000
    ensures DecimalValue(Decimal(n) + Decimal3(m)) == 1000 * n + m
  {
    var a, b := Decimal(n), Decimal3(m);
    DecimalValueAppend(a, b);
    DecimalValueOfDecimal(n);
    assert Pow10(|b|) == 1000;
  }

  /** Three digits, zero-padded: the group after a thousands separator. */
  function Decimal3(m: nat): (r: string)
    requires m < 1000
    ensures |r| == 3 && AllDigits(r) && DecimalValue(r) == m
  {
    var h, t, u := m / 100, m / 10 % 10, m % 10;
    ThreeDigits(h, t, u);
    SplitThousand(m);
    [DigitChar(h), DigitChar(t), DigitChar(u)]
  }

  function DigitChar(x: nat): (c: char)
    requires x < 10
    ensures IsDigit(c) && DigitValue(c) == x
  {
    '0' + x as char
  }

  lemma ThreeDigits(h: nat, t: nat, u: nat)
    requires h < 10 && t < 10 && u < 10
    ensures var r := [DigitChar(h), DigitChar(t), DigitChar(u)];
      AllDigits(r) && DecimalValue(r) == 100 * h + 10 * t + u
  {
    var r := [DigitChar(h), DigitChar(t), DigitChar(u)];
    assert r[..2][..1] == r[..1] && r[..1][..0] == [];
    assert DecimalValue(r[..1]) == h;
    assert DecimalValue(r[..2]) == 10 * h + t;
  }

  lemma SplitThousand(m: nat)
    requires m < 1000
    ensures m / 100 < 10 && m == 100 * (m / 100) + 10 * (m / 10 % 10) + m % 10
  {
  }

  lemma {:induction false} DecimalValueAppend(a: string, b: string)
    requires AllDigits(a) && AllDigits(b)
    ensures DecimalValue(a + b) == DecimalValue(a) * Pow10(|b|) + DecimalValue(b)
    decreases |b|
  {
    if b == [] {
      assert a + b == a;
    } else {
      var b' := b[..|b| - 1];
      var v := DigitValue(b[|b| - 1]);
      DecimalValueAppend(a, b');
      var x, p, y := DecimalValue(a), Pow10(|b'|), DecimalValue(b');
      assert DecimalValue(a + b) == 10 * DecimalValue(a + b') + v by {
        assert (a + b)[..|a + b| - 1] == a + b';
        assert (a + b)[|a + b| - 1] == b[|b| - 1];
      }
      assert DecimalValue(b) == 10 * y + v;
      assert Pow10(|b|) == 10 * p;
      ShiftByTen(x, p, y, v);
    }
  }

  lemma ShiftByTen(x: int, p: int, y: int, v: int)
    ensures 10 * (x * p + y) + v == x * (10 * p) + (10 * y + v)
  {
    calc {
      10 * (x * p + y) + v;
      10 * (x * p) + 10 * y + v;
      { assert 10 * (x * p) == x * (10 * p); }
      x * (10 * p) + (10 * y + v);
    }
  }

  // ---------------------------------------------------------------------------
  // parse_suite_numbers

  /** The IndexError Python raises when `split()[1]` has no second word. */
  const IndexError := "IndexError"

  function StripAll(parts: seq<string>): (r: seq<string>)
    ensures |r| == |parts|
    ensures forall k :: 0 <= k < |r| ==> r[k] == PyStrip(parts[k])
  {
    seq(|parts|, k requires 0 <= k < |parts| => PyStrip(parts[k]))
  }

  /** The suite named on one line of a multi-line cell: the stripped text before its first '-'. */
  function LineSuite(line: string): string {
    PyStrip(Before(line, '-'))
  }

  /** The multi-line form: one suite per line whose suite text is not empty, in order. */
  function LineSuites(lines: seq<string>): (r: seq<string>)
    ensures |r| <= |lines|
    ensures forall k :: 0 <= k < |r| ==> r[k] != ""
  {
    if lines == [] then []
    else
      var part := LineSuite(lines[0]);
      (if part != "" then [part] else []) + LineSuites(lines[1..])
  }

  /**
   * parse_suite_numbers, case by case: '' or '-' gives no suite; a
   * multi-line cell gives one suite per line; "302 + 303" gives one suite
   * per '+'-separated part; "302A 303" (second word without a digit) gives
   * the words; anything else is a single suite. A cell with a space but only
   * one word (possible only with surrounding whitespace) makes Python raise.
   */
  function SuiteNumbers(s: string): Result<seq<string>, string> {
    if s == "" || PyStrip(s) in {"-", ""} then Success([])
    else if '\n' in s then Success(LineSuites(Split(s, '\n')))
    else if '+' in s then Success(StripAll(Split(s, '+')))
    else if ' ' in s && |Words(s)| < 2 then Failure(IndexError)
    else if ' ' in s && !HasDigit(Words(s)[1]) then Success(StripAll(Words(s)))
    else Success([PyStrip(s)])
  }

  /** The loop over the lines of a multi-line suite cell. */
  method CollectLineSuites(lines: seq<string>) returns (suites: seq<string>)
    ensures suites == LineSuites(lines)
  {
    suites := [];
    var i := 0;
    while i < |lines|
      invariant 0 <= i <= |lines|
      invariant LineSuites(lines) == suites + LineSuites(lines[i..])
    {
      var part := LineSuite(lines[i]);
      var head := if part != "" then [part] else [];
      LineSuitesStep(lines, i, suites);
      suites := suites + head;
      i := i + 1;
    }
    assert lines[i..] == [];
  }

  lemma LineSuitesStep(lines: seq<string>, i: nat, done: seq<string>)
    requires i < |lines|
    ensures var part := LineSuite(lines[i]);
      done + LineSuites(lines[i..]) == (done + if part != "" then [part] else []) + LineSuites(lines[i + 1..])
  {
    assert lines[i..][1..] == lines[i + 1..];
  }

  /** parse_suite_numbers, with its loop over the lines of a multi-line cell. */
  method ParseSuiteNumbers(s: string) returns (r: Result<seq<string>, string>)
    ensures r == SuiteNumbers(s)
  {
    if s != "" && PyStrip(s) !in {"-", ""} && '\n' in s {
      var suites := CollectLineSuites(Split(s, '\n'));
      return Success(suites);
    }
    r := SuiteNumbers(s);
  }

  /** A word has no surrounding whitespace to strip. */
  lemma WordStripped(w: string)
    requires IsWord(w)
    ensures PyStrip(w) == w
  {
    StripUnchanged(w);
  }

  /**
   * The only caller strips the cell first; on stripped text the space form
   * always has a second word, so the IndexError cannot happen there.
   */
  lemma SuiteNumbersOfStripped(s: string)
    requires PyStrip(s) == s
    ensures SuiteNumbers(s).Success?
  {
    if s != "" && ' ' in s {
      var k :| 0 <= k < |s| && s[k] == ' ';
      assert !IsPySpace(s[0]) && !IsPySpace(s[|s| - 1]);
      SecondWord(s, k);
    }
  }

  /** A space strictly inside a string that starts and ends with non-spaces separates two words. */
  lemma SecondWord(s: string, k: nat)
    requires 0 <= k < |s| && IsPySpace(s[k])
    requires !IsPySpace(s[0]) && !IsPySpace(s[|s| - 1])
    ensures |Words(s)| >= 2
  {
    assert StripLeft(s) == s;
    var n := WordLength(s);
    assert n <= k;
    var w := s[..n];
    var rest := s[n..];
    assert rest[|rest| - 1] == s[|s| - 1];
    var t := StripLeft(rest);
    assert t != [] by {
      if t == [] { LeadingAreSpace(rest, |rest| - 1); }
    }
    assert Words(s) == [w] + Words(rest);
  }

  /** Every suite the parser returns is already stripped; outside the '+' form none is empty. */
  lemma SuiteNumbersStripped(s: string)
    requires SuiteNumbers(s).Success?
    ensures forall k :: 0 <= k < |SuiteNumbers(s).value| ==> PyStrip(SuiteNumbers(s).value[k]) == SuiteNumbers(s).value[k]
    ensures '\n' in s || '+' !in s ==> forall k :: 0 <= k < |SuiteNumbers(s).value| ==> SuiteNumbers(s).value[k] != ""
  {
    var r := SuiteNumbers(s).value;
    if s == "" || PyStrip(s) in {"-", ""} {
    } else if '\n' in s {
      LineSuitesStripped(Split(s, '\n'));
    } else if '+' in s {
      forall k | 0 <= k < |r| ensures PyStrip(r[k]) == r[k] {
        StripIdempotent(Split(s, '+')[k]);
      }
    } else if ' ' in s && !HasDigit(Words(s)[1]) {
      WordsAreWords(s);
      forall k | 0 <= k < |r| ensures PyStrip(r[k]) == r[k] && r[k] != "" {
        WordStripped(Words(s)[k]);
      }
    } else {
      StripIdempotent(s);
    }
  }

  /** A suite text with nothing left to strip and no '-' in it. */
  predicate CleanSuite(x: string) {
    PyStrip(x) == x && '-' !in x
  }

  lemma {:induction false} LineSuitesStripped(lines: seq<string>)
    ensures forall k :: 0 <= k < |LineSuites(lines)| ==> CleanSuite(LineSuites(lines)[k])
  {
    if lines != [] {
      var part := LineSuite(lines[0]);
      StripIdempotent(Before(lines[0], '-'));
      StripKeeps(Before(lines[0], '-'), '-');
      assert CleanSuite(part);
      LineSuitesStripped(lines[1..]);
      var head := if part != "" then [part] else [];
      var rest := LineSuites(lines[1..]);
      var r := LineSuites(lines);
      assert r == head + rest;
      forall k | 0 <= k < |r| ensures CleanSuite(r[k]) {
        if k >= |head| {
          assert r[k] == rest[k - |head|];
        }
      }
    }
  }

  // ---------------------------------------------------------------------------
  // determine_contact_classifications

  const BillingTerms: seq<string> := ["cfo", "accounting", "finance", "billing"]

  /** The lower-cased name mentions one of the billing terms. */
  predicate MentionsBilling(contactName: string) {
    var nameLower := if contactName != "" then ToLower(contactName) else "";
    exists k | 0 <= k < |BillingTerms| :: Contains(nameLower, BillingTerms[k])
  }

  /**
   * determine_contact_classifications: exactly one role first (Leasing for
   * an agent, Primary for the first contact, Secondary otherwise), then
   * Billing when the name mentions a billing term. The result is never empty,
   * so the source's final fallback to ['Secondary'] never applies.
   */
  function DetermineContactClassifications(contactName: string, contactIndex: int, isAgent: bool): (r: seq<string>)
    ensures |r| == (if MentionsBilling(contactName) then 2 else 1)
    ensures r[0] == (if isAgent then "Leasing" else if contactIndex == 0 then "Primary" else "Secondary")
    ensures "Billing" in r <==> MentionsBilling(contactName)
  {
    var role :=
      if isAgent then "Leasing"
      else if contactIndex == 0 then "Primary"
      else if contactIndex == 1 then "Secondary"
      else "Secondary";
    var classifications := [role] + (if MentionsBilling(contactName) then ["Billing"] else []);
    if classifications != [] then classifications else ["Secondary"]
  }
}
