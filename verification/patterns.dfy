/** Character classes and recognisers for the regular expressions attached to
    the wizard's input fields. Every expression in the source is anchored at
    both ends and built from simple character classes, so each becomes a small
    recursive recogniser over `seq<char>`, checked against a declarative
    reading of the expression. */
module Patterns {

  predicate IsUpper(c: char) { 'A' <= c <= 'Z' }

  predicate IsLower(c: char) { 'a' <= c <= 'z' }

  /** `[a-zA-Z]`; also `[A-Z]` under the `i` flag, which folds ASCII only. */
  predicate IsLetter(c: char) { IsUpper(c) || IsLower(c) }

  /** `\d` and `[0-9]`. */
  predicate IsDigit(c: char) { '0' <= c <= '9' }

  /** `[1-9]`. */
  predicate IsNonZeroDigit(c: char) { '1' <= c <= '9' }

  /** ECMAScript `\s`: the WhiteSpace and LineTerminator code points, which
      is also the set `String.prototype.trim` strips. */
  predicate IsSpace(c: char) {
    || c == '\t' || c == '\n' || c == '\U{000B}' || c == '\U{000C}' || c == '\r'
    || c == ' ' || c == '\U{00A0}' || c == '\U{1680}'
    || ('\U{2000}' <= c <= '\U{200A}')
    || c == '\U{2028}' || c == '\U{2029}' || c == '\U{202F}' || c == '\U{205F}'
    || c == '\U{3000}' || c == '\U{FEFF}'
  }

  /** `\s` holds no letter or digit; on ASCII it is exactly space, tab and
      the four line-format controls; NEL and the zero-width space are not in
      it. */
  lemma SpaceFacts(c: char)
    ensures IsSpace(c) ==> !IsLetter(c) && !IsDigit(c)
    ensures c < '\U{0080}' ==> (IsSpace(c) <==> c in " \t\n\U{000B}\U{000C}\r")
    ensures !IsSpace('\U{0085}') && !IsSpace('\U{200B}')
  {}

  /** The bracketed classes that occur in the field patterns. */
  datatype CharClass =
    | LetterOrSpace   // [a-zA-Z\s]
    | LetterOrDigit   // [A-Za-z0-9]
    | Digit           // [\d]
    | Letter          // [A-Z] with the i flag
    | EmailLocal      // [A-Z0-9._%+-] with the i flag
    | EmailDomain     // [A-Z0-9.-] with the i flag

  predicate InClass(c: char, k: CharClass) {
    match k
    case LetterOrSpace => IsLetter(c) || IsSpace(c)
    case LetterOrDigit => IsLetter(c) || IsDigit(c)
    case Digit => IsDigit(c)
    case Letter => IsLetter(c)
    case EmailLocal => IsLetter(c) || IsDigit(c) || c in "._%+-"
    case EmailDomain => IsLetter(c) || IsDigit(c) || c in ".-"
  }

  /** `^[k]*$`, recognised one character at a time. */
  predicate Star(s: string, k: CharClass): (b: bool)
    ensures b <==> forall i | 0 <= i < |s| :: InClass(s[i], k)
  {
    if |s| == 0 then true
    else InClass(s[0], k) && Star(s[1..], k)
  }

  /** `^[k]+$`. */
  predicate Plus(s: string, k: CharClass) {
    |s| > 0 && Star(s, k)
  }

  // ---------------------------------------------------------------------
  // Phone: ^[\+]?[1-9][\d]{0,15}$

  /** `[1-9][\d]{0,15}`, the part after the optional plus sign. */
  predicate DigitRun(t: string) {
    1 <= |t| <= 16 && IsNonZeroDigit(t[0]) && Star(t[1..], Digit)
  }

  /** Deterministic recogniser: strip one leading '+', then a digit run. */
  predicate PhonePattern(s: string): (b: bool)
    ensures b ==> 1 <= |s| <= 17 && forall i | 0 < i < |s| :: IsDigit(s[i])
    ensures b && s[0] != '+' ==> IsNonZeroDigit(s[0]) && |s| <= 16
    ensures b && s[0] == '+' ==> |s| >= 2 && IsNonZeroDigit(s[1])
  {
    if |s| > 0 && s[0] == '+' then DigitRun(s[1..]) else DigitRun(s)
  }

  /** The expression read declaratively: some choice of the optional sign
      (empty or "+") is a prefix of `s` and a digit run follows it. */
  ghost predicate PhoneRegex(s: string) {
    exists sign: string | sign in {"", "+"} ::
      |sign| <= |s| && s[..|sign|] == sign && DigitRun(s[|sign|..])
  }

  lemma PhonePatternIsRegex(s: string)
    ensures PhonePattern(s) <==> PhoneRegex(s)
  {}

  // ---------------------------------------------------------------------
  // Email: ^[A-Z0-9._%+-]+@[A-Z0-9.-]+\.[A-Z]{2,}$ with the i flag

  /** Index of the first `c` in `s`, or `|s|` when there is none. */
  function IndexOf(s: string, c: char): (i: nat)
    ensures i <= |s|
    ensures i < |s| ==> s[i] == c
    ensures forall j | 0 <= j < i :: s[j] != c
  {
    if |s| == 0 then 0
    else if s[0] == c then 0
    else 1 + IndexOf(s[1..], c)
  }

  /** Index of the last `c` in `s`, or -1 when there is none. */
  function LastIndexOf(s: string, c: char): (i: int)
    ensures -1 <= i < |s|
    ensures i >= 0 ==> s[i] == c
    ensures forall j | i < j < |s| :: s[j] != c
  {
    if |s| == 0 then -1
    else if s[|s| - 1] == c then |s| - 1
    else LastIndexOf(s[..|s| - 1], c)
  }

  /** `[A-Z0-9.-]+\.[A-Z]{2,}`: the top-level label cannot contain a dot, so
      the dot before it is the last dot of the host. */
  predicate HostPattern(r: string) {
    var d := LastIndexOf(r, '.');
    d >= 0 && Plus(r[..d], EmailDomain) && |r| - d - 1 >= 2 && Star(r[d + 1..], Letter)
  }

  /** Deterministic recogniser: no class admits '@', so the split point is
      the first '@'. */
  predicate EmailPattern(s: string): (b: bool)
    ensures b ==> |s| >= 6 && s[0] != '@' && '@' in s
    ensures b ==> IsLetter(s[|s| - 1]) && IsLetter(s[|s| - 2])
  {
    var a := IndexOf(s, '@');
    a < |s| && Plus(s[..a], EmailLocal) && HostPattern(s[a + 1..])
  }

  /** `s` splits as local "@" domain "." tld at positions `a` and `d`. */
  ghost predicate EmailSplit(s: string, a: int, d: int) {
    && 0 < a < d < |s|
    && s[a] == '@' && s[d] == '.'
    && Plus(s[..a], EmailLocal)
    && Plus(s[a + 1..d], EmailDomain)
    && |s| - d - 1 >= 2 && Star(s[d + 1..], Letter)
  }

  /** The expression read declaratively: some split matches it. */
  ghost predicate EmailRegex(s: string) {
    exists a, d :: EmailSplit(s, a, d)
  }

  lemma EmailPatternIsRegex(s: string)
    ensures EmailPattern(s) <==> EmailRegex(s)
  {
    if EmailPattern(s) {
      var a := IndexOf(s, '@');
      var r := s[a + 1..];
      var d := LastIndexOf(r, '.');
      assert r[..d] == s[a + 1..a + 1 + d];
      assert r[d + 1..] == s[a + 1 + d + 1..];
      assert EmailSplit(s, a, a + 1 + d);
    }
    if EmailRegex(s) {
      var a, d :| EmailSplit(s, a, d);
      EmailSplitIsCanonical(s, a, d);
    }
  }

  /** Any matching split uses the first '@' and the last '.' after it. */
  lemma EmailSplitIsCanonical(s: string, a: int, d: int)
    requires EmailSplit(s, a, d)
    ensures IndexOf(s, '@') == a
    ensures LastIndexOf(s[a + 1..], '.') == d - a - 1
    ensures EmailPattern(s)
  {
    var r := s[a + 1..];
    var e := LastIndexOf(r, '.');
    assert r[d - a - 1] == '.';
    assert r[..e] == s[a + 1..d];
    assert r[e + 1..] == s[d + 1..];
  }

  /** A matching address has exactly one '@'. */
  lemma EmailHasOneAt(s: string)
    ensures EmailPattern(s) ==> exists a :: 0 <= a < |s| && s[a] == '@'
    ensures EmailPattern(s) ==>
      forall i, j | 0 <= i < |s| && 0 <= j < |s| && s[i] == '@' && s[j] == '@' :: i == j
  {}
}
