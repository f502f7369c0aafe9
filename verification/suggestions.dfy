/** The text-suggestion service: the prompt chosen for each narrative field,
    the canned suggestion picked by substring tests on the prompt, trimming
    of the remote reply, and the decision to fall back to the canned text.
    The remote call itself is an abstract input. */
module Suggestions {
  import opened Wrappers
  import opened Patterns

  /** The three narrative fields of the last step. */
  datatype Field = FinancialSituation | EmploymentCircumstances | ReasonForApplying

  function FieldName(f: Field): string {
    match f
    case FinancialSituation => "financialSituation"
    case EmploymentCircumstances => "employmentCircumstances"
    case ReasonForApplying => "reasonForApplying"
  }

  // Each prompt is one sentence. It is written as a concatenation of short
  // literals only so that the lemmas below can name a piece that holds the
  // one occurrence of a character: the verifier does not unfold a long
  // literal character by character.
  const FinancialPrompt := "Help me describe my current " + "financial situation " + "in a respectful, clear way."
  const EmploymentPrompt := "Help me describe my current " + "employment circumstances " + "in a respect" + "ful, clear way."
  const ReasonPrompt := "Help me explain my reason for applying for " + "financial assistance."
  const GenericPrompt := "Help " + "me write this descripti" + "on clearly."

  const FinancialMock :=
    "I am currently experiencing financial difficulties due to unexpected circumstances. "
    + "My monthly expenses exceed my available income, making it challenging to meet basic needs "
    + "such as housing, utilities, and food. I am seeking assistance to help bridge this gap and "
    + "stabilize my financial situation."
  const EmploymentMock :=
    "I am currently unemployed and actively seeking employment opportunities. I have been applying "
    + "to various positions but have not yet secured a job that matches my skills and experience. "
    + "The job search process has been challenging due to the competitive market and my need for "
    + "flexible arrangements."
  const ReasonMock :=
    "I am applying for financial assistance because I am facing temporary financial hardship that "
    + "affects my ability to meet essential living expenses. This support would help me maintain "
    + "stability while I work to improve my financial situation through employment or other means."
  const GenericMock :=
    "This is a mock suggestion to help you get started. Please replace this with your actual "
    + "description. The AI assistance feature requires an OpenAI API key to be configured in your "
    + ".env file."

  predicate IsFieldName(field: string) {
    || field == FieldName(FinancialSituation)
    || field == FieldName(EmploymentCircumstances)
    || field == FieldName(ReasonForApplying)
  }

  /** `buildPrompt`: a fixed prompt per field name, a generic one otherwise. */
  function BuildPrompt(field: string): (p: string)
    ensures field == FieldName(FinancialSituation) ==> p == FinancialPrompt
    ensures field == FieldName(EmploymentCircumstances) ==> p == EmploymentPrompt
    ensures field == FieldName(ReasonForApplying) ==> p == ReasonPrompt
    ensures !IsFieldName(field) ==> p == GenericPrompt
  {
    if field == "financialSituation" then FinancialPrompt
    else if field == "employmentCircumstances" then EmploymentPrompt
    else if field == "reasonForApplying" then ReasonPrompt
    else GenericPrompt
  }

  // ---------------------------------------------------------------------
  // Substrings

  predicate ContainsAt(s: string, sub: string, i: int) {
    0 <= i && i + |sub| <= |s| && s[i..i + |sub|] == sub
  }

  /** `s.includes(sub)`. */
  predicate Contains(s: string, sub: string) {
    exists i | 0 <= i <= |s| :: ContainsAt(s, sub, i)
  }

  /** A found substring fits in the text; the empty string and the text
      itself are always found. */
  lemma ContainsBasics(s: string, sub: string)
    ensures Contains(s, sub) ==> |sub| <= |s|
    ensures |sub| == 0 ==> Contains(s, sub)
    ensures Contains(s, s)
  {
    assert ContainsAt(s, s, 0);
    if |sub| == 0 {
      assert ContainsAt(s, sub, 0);
    }
  }

  /** A string containing `sub` contains every prefix of it. */
  lemma ContainsPrefix(s: string, sub: string, n: nat)
    requires n <= |sub| && Contains(s, sub)
    ensures Contains(s, sub[..n])
  {
    var i :| 0 <= i <= |s| && ContainsAt(s, sub, i);
    assert s[i..i + n] == s[i..i + |sub|][..n];
    assert ContainsAt(s, sub[..n], i);
  }

  /** A character of `sub` that does not occur in `s` rules out every
      occurrence. */
  lemma MissingChar(s: string, sub: string, k: nat)
    requires k < |sub| && sub[k] !in s
    ensures !Contains(s, sub)
  {}

  /** When character `k` of `sub` occurs exactly once in `s`, an occurrence
      of `sub` can only start `k` places before it. */
  lemma UniqueChar(s: string, a: string, b: string, sub: string, k: nat)
    requires k < |sub| && s == a + [sub[k]] + b
    requires sub[k] !in a && sub[k] !in b
    ensures forall i | 0 <= i <= |s| && ContainsAt(s, sub, i) :: i + k == |a|
  {}

  // ---------------------------------------------------------------------
  // Canned suggestions

  /** `getMockSuggestion`: the first matching test, in source order, picks
      the text. */
  function MockSuggestion(prompt: string): (t: string)
    ensures t in {FinancialMock, EmploymentMock, ReasonMock, GenericMock}
    ensures |t| > 0
  {
    if Contains(prompt, "financial situation") || Contains(prompt, "financial") then FinancialMock
    else if Contains(prompt, "employment") || Contains(prompt, "job") then EmploymentMock
    else if Contains(prompt, "reason") || Contains(prompt, "applying") then ReasonMock
    else GenericMock
  }

  /** The "financial situation" test adds nothing to the "financial" one. */
  lemma FinancialTestIsOneSubstring(prompt: string)
    ensures (Contains(prompt, "financial situation") || Contains(prompt, "financial"))
        <==> Contains(prompt, "financial")
  {
    if Contains(prompt, "financial situation") {
      ContainsPrefix(prompt, "financial situation", 9);
      assert "financial situation"[..9] == "financial";
    }
  }

  lemma MockForFinancialPrompt()
    ensures MockSuggestion(BuildPrompt(FieldName(FinancialSituation))) == FinancialMock
  {
    // "financial situation" is the second piece, after 28 characters
    assert ContainsAt(FinancialPrompt, "financial situation", 28);
  }

  /** The reason prompt mentions "financial", so it draws the financial
      text, never the reason text. */
  lemma MockForReasonPrompt()
    ensures MockSuggestion(BuildPrompt(FieldName(ReasonForApplying))) == FinancialMock
    ensures FinancialMock != ReasonMock
  {
    // "financial assistance." is the second piece, after 43 characters
    assert ContainsAt(ReasonPrompt, "financial", 43);
    assert |FinancialMock| != |ReasonMock|;
  }

  lemma EmploymentPromptLacksFinancial()
    ensures !Contains(EmploymentPrompt, "financial situation")
    ensures !Contains(EmploymentPrompt, "financial")
  {
    // The only 'f' is the one of "respectful", at index |a| == 65; the
    // character after it (index 66) is 'u', not the 'i' of "financial".
    var a := "Help me describe my current " + "employment circumstances " + "in a respect";
    var b := "ul, clear way.";
    assert EmploymentPrompt == a + ['f'] + b;
    UniqueChar(EmploymentPrompt, a, b, "financial", 0);
    UniqueChar(EmploymentPrompt, a, b, "financial situation", 0);
    assert !ContainsAt(EmploymentPrompt, "financial", 65) by {
      assert EmploymentPrompt[66] != "financial"[1];
      assert EmploymentPrompt[65..74][1] == EmploymentPrompt[66];
    }
  }

  lemma MockForEmploymentPrompt()
    ensures MockSuggestion(BuildPrompt(FieldName(EmploymentCircumstances))) == EmploymentMock
  {
    EmploymentPromptLacksFinancial();
    assert ContainsAt(EmploymentPrompt, "employment", 28);
  }

  lemma GenericPromptLacksFinancial()
    ensures !Contains(GenericPrompt, "financial situation")
    ensures !Contains(GenericPrompt, "financial")
  {
    MissingChar(GenericPrompt, "financial situation", 0);
    MissingChar(GenericPrompt, "financial", 0);
  }

  lemma GenericPromptLacksEmployment()
    ensures !Contains(GenericPrompt, "employment")
    ensures !Contains(GenericPrompt, "job")
  {
    MissingChar(GenericPrompt, "job", 0);
    // The only 'm' is the one of "me", at index 5, so "employment" could
    // only start at index 4, which holds a space.
    var b := "e write this descripti" + "on clearly.";
    assert GenericPrompt == "Help " + ['m'] + b;
    UniqueChar(GenericPrompt, "Help ", b, "employment", 1);
    assert GenericPrompt[4] == ' ';
    assert !ContainsAt(GenericPrompt, "employment", 4) by {
      assert GenericPrompt[4..14][0] == GenericPrompt[4];
    }
  }

  lemma GenericPromptLacksReason()
    ensures !Contains(GenericPrompt, "reason")
    ensures !Contains(GenericPrompt, "applying")
  {
    var s := GenericPrompt;
    // "applying" has a 'g' (its index 7) and the prompt has none. The only
    // 'o' is the one of "on", at index 28, so "reason" (whose 'o' is its
    // index 4) could only start at index 24, which holds 'i', not 'r'.
    MissingChar(s, "applying", 7);
    var a := "Help " + "me write this descripti";
    assert s == a + ['o'] + "n clearly.";
    UniqueChar(s, a, "n clearly.", "reason", 4);
    assert !ContainsAt(s, "reason", 24) by {
      assert s[24..30][0] == s[24];
    }
  }

  /** Any other field name gets the generic prompt, whose text passes none
      of the substring tests. */
  lemma MockForOtherField(field: string)
    requires !IsFieldName(field)
    ensures MockSuggestion(BuildPrompt(field)) == GenericMock
  {
    GenericPromptLacksFinancial();
    GenericPromptLacksEmployment();
    GenericPromptLacksReason();
  }

  // ---------------------------------------------------------------------
  // Trimming the remote reply

  /** Every character of `s` is white space. */
  predicate Blank(s: string) {
    forall i | 0 <= i < |s| :: IsSpace(s[i])
  }

  function TrimStart(s: string): (r: string)
    ensures exists i | 0 <= i <= |s| :: r == s[i..] && Blank(s[..i])
    ensures r == "" || !IsSpace(r[0])
    decreases |s|
  {
    if |s| > 0 && IsSpace(s[0]) then
      var r := TrimStart(s[1..]);
      var i :| 0 <= i <= |s[1..]| && r == s[1..][i..] && Blank(s[1..][..i]);
      assert r == s[i + 1..];
      assert Blank(s[..i + 1]) by {
        forall j | 0 < j < i + 1 ensures IsSpace(s[j]) {
          assert s[j] == s[1..][..i][j - 1];
        }
      }
      r
    else
      assert s == s[0..] && Blank(s[..0]);
      s
  }

  function TrimEnd(s: string): (r: string)
    ensures exists j | 0 <= j <= |s| :: r == s[..j] && Blank(s[j..])
    ensures r == "" || !IsSpace(r[|r| - 1])
    decreases |s|
  {
    if |s| > 0 && IsSpace(s[|s| - 1]) then
      var init := s[..|s| - 1];
      var r := TrimEnd(init);
      var j :| 0 <= j <= |init| && r == init[..j] && Blank(init[j..]);
      assert r == s[..j];
      assert Blank(s[j..]) by {
        forall m | j <= m < |s| ensures IsSpace(s[m]) {
          if m < |s| - 1 { assert s[m] == init[j..][m - j]; }
        }
      }
      r
    else
      assert s == s[..|s|] && Blank(s[|s|..]);
      s
  }

  /** `String.prototype.trim`: the longest slice between white-space ends. */
  function Trim(s: string): (r: string)
    ensures exists i, j | 0 <= i <= j <= |s| :: r == s[i..j] && Blank(s[..i]) && Blank(s[j..])
    ensures r == "" || (!IsSpace(r[0]) && !IsSpace(r[|r| - 1]))
    ensures r == "" <==> Blank(s)
  {
    var t := TrimStart(s);
    var r := TrimEnd(t);
    TrimComposes(s, t, r);
    r
  }

  lemma TrimComposes(s: string, t: string, r: string)
    requires exists i | 0 <= i <= |s| :: t == s[i..] && Blank(s[..i])
    requires t == "" || !IsSpace(t[0])
    requires exists j | 0 <= j <= |t| :: r == t[..j] && Blank(t[j..])
    requires r == "" || !IsSpace(r[|r| - 1])
    ensures exists i, j | 0 <= i <= j <= |s| :: r == s[i..j] && Blank(s[..i]) && Blank(s[j..])
    ensures r == "" || (!IsSpace(r[0]) && !IsSpace(r[|r| - 1]))
    ensures r == "" <==> Blank(s)
  {}

  // ---------------------------------------------------------------------
  // The fallback decision

  /** What the remote call produced: no key configured (no call is made),
      an error (network, HTTP status, timeout, abort), or a reply whose
      first choice may or may not carry message content. */
  datatype Remote = NoKey | Failed | Replied(content: Option<string>)

  /** A suggestion from the service, or the canned text standing in for it. */
  datatype Suggestion = Fetched(text: string) | Fallback(text: string)

  /** `getSuggestion`: the trimmed reply when it is non-empty, otherwise the
      canned suggestion for the prompt. It never fails. */
  function GetSuggestion(prompt: string, remote: Remote): (r: Suggestion)
    ensures |r.text| > 0
    ensures r.Fallback? ==> r.text == MockSuggestion(prompt)
    ensures r.Fallback? <==>
      || remote.NoKey? || remote.Failed?
      || (remote.Replied? && (remote.content.None? || Blank(remote.content.value)))
    ensures r.Fetched? ==>
      (remote.Replied? && remote.content.Some? && r.text == Trim(remote.content.value))
  {
    match remote
    case NoKey => Fallback(MockSuggestion(prompt))
    case Failed => Fallback(MockSuggestion(prompt))
    case Replied(content) =>
      var trimmed := if content.Some? then Trim(content.value) else "";
      if trimmed == "" then Fallback(MockSuggestion(prompt)) else Fetched(trimmed)
  }

  /** With no key configured, the suggestion for a field is the canned text
      for its prompt. */
  lemma NoKeySuggestions()
    ensures GetSuggestion(BuildPrompt(FieldName(FinancialSituation)), NoKey) == Fallback(FinancialMock)
    ensures GetSuggestion(BuildPrompt(FieldName(EmploymentCircumstances)), NoKey) == Fallback(EmploymentMock)
    ensures GetSuggestion(BuildPrompt(FieldName(ReasonForApplying)), NoKey) == Fallback(FinancialMock)
  {
    MockForFinancialPrompt();
    MockForEmploymentPrompt();
    MockForReasonPrompt();
  }
}
