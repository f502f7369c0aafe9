/** The declarative rule sets attached to the wizard's inputs. A field is
    accepted exactly when every rule of its set holds; each field validator
    is stated as the character-level property it amounts to. */
module Validation {
  import opened Patterns
  import opened FormContext

  datatype Pattern = LettersAndSpaces | Alphanumeric | PhoneNumber | EmailAddress

  /** Rules on a text input: `required`, `pattern`, `minLength`,
      `maxLength`, and the `noNumbers` custom check. */
  datatype TextRule =
    | Required
    | Matches(pattern: Pattern)
    | MinLength(min: nat)
    | MaxLength(max: nat)
    | NoDigits

  /** Rules on a numeric input: `min` and `max`, both inclusive. */
  datatype NumberRule = AtLeast(lo: real) | AtMost(hi: real)

  predicate PatternMatches(p: Pattern, v: string) {
    match p
    case LettersAndSpaces => Plus(v, LetterOrSpace)      // /^[a-zA-Z\s]+$/
    case Alphanumeric => Plus(v, LetterOrDigit)          // /^[A-Za-z0-9]+$/
    case PhoneNumber => PhonePattern(v)                  // /^[\+]?[1-9][\d]{0,15}$/
    case EmailAddress => EmailPattern(v)                 // /^[A-Z0-9._%+-]+@[A-Z0-9.-]+\.[A-Z]{2,}$/i
  }

  /** `/\d/.test(v)`. */
  predicate HasDigit(v: string) {
    exists i | 0 <= i < |v| :: IsDigit(v[i])
  }

  predicate TextRuleHolds(r: TextRule, v: string) {
    match r
    case Required => v != ""
    case Matches(p) => PatternMatches(p, v)
    case MinLength(n) => |v| >= n
    case MaxLength(n) => |v| <= n
    case NoDigits => !HasDigit(v)
  }

  predicate NumberRuleHolds(r: NumberRule, v: real) {
    match r
    case AtLeast(lo) => v >= lo
    case AtMost(hi) => v <= hi
  }

  predicate TextAccepted(rules: seq<TextRule>, v: string) {
    forall r | r in rules :: TextRuleHolds(r, v)
  }

  predicate NumberAccepted(rules: seq<NumberRule>, v: real) {
    forall r | r in rules :: NumberRuleHolds(r, v)
  }

  // ---------------------------------------------------------------------
  // Rule sets, as declared on each input

  const NameRules := [Required, Matches(LettersAndSpaces), MinLength(2)]
  const NationalIdRules := [Required, Matches(Alphanumeric), MinLength(5)]
  const DateOfBirthRules := [Required]
  /** gender, city, state and country in step 1; maritalStatus,
      employmentStatus and housingStatus in step 2. */
  const WordRules := [Required, Matches(LettersAndSpaces)]
  const AddressRules := [Required, MinLength(10)]
  const PhoneRules := [Required, Matches(PhoneNumber), MinLength(10)]
  const EmailRules := [Required, Matches(EmailAddress)]
  const DependentsRules := [AtLeast(0.0), AtMost(20.0)]
  const MonthlyIncomeRules := [AtLeast(0.0), AtMost(1000000.0)]
  /** financialSituation, employmentCircumstances and reasonForApplying. */
  const NarrativeRules := [Required, MinLength(20), MaxLength(1000), NoDigits]

  // ---------------------------------------------------------------------
  // Field validators

  predicate LetterOrSpaceOnly(v: string) {
    forall i | 0 <= i < |v| :: IsLetter(v[i]) || IsSpace(v[i])
  }

  function NameValid(v: string): (ok: bool)
    ensures ok <==> |v| >= 2 && LetterOrSpaceOnly(v)
  {
    assert NameRules[0] in NameRules && NameRules[1] in NameRules && NameRules[2] in NameRules;
    TextAccepted(NameRules, v)
  }

  function NationalIdValid(v: string): (ok: bool)
    ensures ok <==> |v| >= 5 && forall i | 0 <= i < |v| :: IsLetter(v[i]) || IsDigit(v[i])
  {
    assert NationalIdRules[0] in NationalIdRules && NationalIdRules[1] in NationalIdRules && NationalIdRules[2] in NationalIdRules;
    TextAccepted(NationalIdRules, v)
  }

  /** The `validDate` check: the age is the difference of calendar years,
      month and day play no part. */
  function AgeValid(birthYear: int, currentYear: int): (ok: bool)
    ensures ok <==> birthYear + 16 <= currentYear <= birthYear + 120
  {
    var age := currentYear - birthYear;
    if age < 16 then false
    else if age > 120 then false
    else true
  }

  function DateOfBirthValid(v: string, birthYear: int, currentYear: int): (ok: bool)
    ensures ok <==> v != "" && 16 <= currentYear - birthYear <= 120
  {
    assert DateOfBirthRules[0] in DateOfBirthRules;
    TextAccepted(DateOfBirthRules, v) && AgeValid(birthYear, currentYear)
  }

  function WordValid(v: string): (ok: bool)
    ensures ok <==> v != "" && LetterOrSpaceOnly(v)
  {
    assert WordRules[0] in WordRules && WordRules[1] in WordRules;
    TextAccepted(WordRules, v)
  }

  function AddressValid(v: string): (ok: bool)
    ensures ok <==> |v| >= 10
  {
    assert AddressRules[0] in AddressRules && AddressRules[1] in AddressRules;
    TextAccepted(AddressRules, v)
  }

  function PhoneValid(v: string): (ok: bool)
    ensures ok <==>
      || (|v| > 0 && v[0] == '+' && 10 <= |v| <= 17 && IsNonZeroDigit(v[1])
          && forall i | 2 <= i < |v| :: IsDigit(v[i]))
      || (|v| > 0 && 10 <= |v| <= 16 && IsNonZeroDigit(v[0])
          && forall i | 1 <= i < |v| :: IsDigit(v[i]))
  {
    assert |v| > 1 ==> v[1..][1..] == v[2..];
    assert PhoneRules[0] in PhoneRules && PhoneRules[1] in PhoneRules && PhoneRules[2] in PhoneRules;
    TextAccepted(PhoneRules, v)
  }

  function EmailValid(v: string): (ok: bool)
    ensures ok <==> EmailRegex(v)
    ensures ok ==> forall i, j | 0 <= i < |v| && 0 <= j < |v| && v[i] == '@' && v[j] == '@' :: i == j
  {
    EmailPatternIsRegex(v);
    EmailHasOneAt(v);
    assert EmailRules[0] in EmailRules && EmailRules[1] in EmailRules;
    TextAccepted(EmailRules, v)
  }

  function DependentsValid(v: real): (ok: bool)
    ensures ok <==> 0.0 <= v <= 20.0
  {
    assert DependentsRules[0] in DependentsRules && DependentsRules[1] in DependentsRules;
    NumberAccepted(DependentsRules, v)
  }

  function MonthlyIncomeValid(v: real): (ok: bool)
    ensures ok <==> 0.0 <= v <= 1000000.0
  {
    assert MonthlyIncomeRules[0] in MonthlyIncomeRules && MonthlyIncomeRules[1] in MonthlyIncomeRules;
    NumberAccepted(MonthlyIncomeRules, v)
  }

  function NarrativeValid(v: string): (ok: bool)
    ensures ok <==> 20 <= |v| <= 1000 && forall i | 0 <= i < |v| :: !IsDigit(v[i])
  {
    assert NarrativeRules[0] in NarrativeRules && NarrativeRules[1] in NarrativeRules && NarrativeRules[2] in NarrativeRules && NarrativeRules[3] in NarrativeRules;
    TextAccepted(NarrativeRules, v)
  }

  lemma NumericBoundaries()
    ensures !DependentsValid(-1.0) && DependentsValid(0.0)
    ensures DependentsValid(20.0) && !DependentsValid(21.0)
    ensures DependentsValid(2.5)
    ensures !MonthlyIncomeValid(-1.0) && MonthlyIncomeValid(0.0)
    ensures MonthlyIncomeValid(1000000.0) && !MonthlyIncomeValid(1000001.0)
  {}

  // ---------------------------------------------------------------------
  // Whole steps: `handleSubmit` calls `onSubmit` only when every field passes

  predicate PersonalValid(p: PersonalInfo, birthYear: int, currentYear: int): (ok: bool)
    ensures ok ==> p.name != "" && p.nationalId != "" && p.dateOfBirth != "" && p.gender != ""
    ensures ok ==> p.address != "" && p.city != "" && p.state != "" && p.country != ""
    ensures ok ==> |p.phone| >= 10 && '@' in p.email
    ensures ok ==> 16 <= currentYear - birthYear <= 120
  {
    && NameValid(p.name)
    && NationalIdValid(p.nationalId)
    && DateOfBirthValid(p.dateOfBirth, birthYear, currentYear)
    && WordValid(p.gender)
    && AddressValid(p.address)
    && WordValid(p.city)
    && WordValid(p.state)
    && WordValid(p.country)
    && PhoneValid(p.phone)
    && EmailValid(p.email)
  }

  predicate FamilyValid(f: FamilyFinancial): (ok: bool)
    ensures ok ==> f.maritalStatus != "" && f.employmentStatus != "" && f.housingStatus != ""
    ensures ok ==> 0.0 <= f.dependents <= 20.0 && 0.0 <= f.monthlyIncome <= 1000000.0
  {
    && WordValid(f.maritalStatus)
    && DependentsValid(f.dependents)
    && WordValid(f.employmentStatus)
    && MonthlyIncomeValid(f.monthlyIncome)
    && WordValid(f.housingStatus)
  }

  predicate SituationsValid(s: Situations): (ok: bool)
    ensures ok ==> 20 <= |s.financialSituation| <= 1000
    ensures ok ==> 20 <= |s.employmentCircumstances| <= 1000
    ensures ok ==> 20 <= |s.reasonForApplying| <= 1000
  {
    && NarrativeValid(s.financialSituation)
    && NarrativeValid(s.employmentCircumstances)
    && NarrativeValid(s.reasonForApplying)
  }

  /** The default record passes no step: every required text is empty. */
  lemma DefaultsAreIncomplete(birthYear: int, currentYear: int)
    ensures !PersonalValid(DefaultData.personal, birthYear, currentYear)
    ensures !FamilyValid(DefaultData.family)
    ensures !SituationsValid(DefaultData.situations)
  {}

  /** Sample inputs. */
  lemma SampleName()
    ensures !NameValid("123") && NameValid("Ann Lee")
  {
    assert "123"[0] == '1';
    var good := "Ann Lee";
    assert good[3] == ' ';
    assert forall i | 0 <= i < |good| && i != 3 :: IsLetter(good[i]);
  }

  lemma SamplePhone()
    ensures PhoneValid("+971501234567") && !PhoneValid("0501234567")
  {
    var good := "+971501234567";
    assert good[0] == '+' && good[1] == '9';
    assert forall i | 2 <= i < |good| :: IsDigit(good[i]);
    assert "0501234567"[0] == '0';
  }
}
