# Social-support intake wizard — Dafny model

A model of the logic of a three-step application wizard. Step 1 collects
personal details, step 2 family and financial details, and step 3 three
narrative descriptions. An optional suggestion service can help write the
narratives. The pieces modelled:

- **Field validation** (`Patterns`, `Validation`). Each input's rules are a
  declared rule set: required, pattern, minimum and maximum length, an
  inclusive numeric range, no digits, and an age check. Each regular
  expression is a recursive recogniser over `seq<char>`, proved equal to a
  declarative reading of the expression. A field is accepted exactly when
  every rule in its set holds, and every field validator is stated as the
  character-level property it comes to.
- **The application record store** (`FormContext`). It holds the three
  record sections and their defaults. `update` is a shallow merge that
  replaces whole sections, and `reset` restores the defaults. The initial
  load falls back to the defaults. After every change the record is written
  under the key `ssa_application_data_v1`, and a failed write is ignored.
- **Step navigation** (`Wizard`). The active step is the first step path
  the current path starts with, or the first step. Back and Next move one
  step and stay put at either end.
- **The suggestion service** (`Suggestions`). It picks a prompt per field,
  picks a canned text by substring tests in a fixed order, trims the remote
  reply, and falls back to the canned text when there is no key, the call
  fails, or the reply is empty. The remote call is an abstract input. In
  the source, the reason-for-applying prompt contains "financial", so it
  draws the financial canned text. The model keeps this behaviour.
- **The suggestion dialog of step 3** (`AssistDialog`). It covers request
  success and failure, edit, accept and discard.
- **The step controller** (`Steps`). Each step's submit runs only when the
  whole step validates. It merges the step's section into the store and
  moves on. Back only navigates. The last step submits the assembled record.

Notes on the source's rules:

- The form library's rule set for `dependents` has no integer rule. It is a
  `real` in the range 0 to 20. The browser's own number check is not
  modelled (see "Left out").
- `required` means "not the empty string". Text is not trimmed first.
- The phone pattern also limits the number to at most 16 digits after an
  optional `+`.
- The service never rejects, so the dialog's error path cannot be reached
  through it. `FinishRequest` models that path, and `RequestHelp` shows it
  never fires.
- `getSuggestion` has only two outcomes: the fetched text or the canned
  fallback.
- The step index comes from the path alone. A path below a step path, such
  as `/apply/step-2/review`, takes that step's index (1). The catch-all route
  of `src/pages/Wizard.tsx` then renders the step 1 form, whose Next goes to
  index 2. The `Wizard` lemmas are about the index, not about which form is
  shown.

Modelling choices:

- `\s` and `trim()` use the exact ECMAScript white-space set:
  WhiteSpace plus LineTerminator code points.
- Lengths count Dafny characters, not UTF-16 code units. The two agree
  outside the astral planes.
- Storage is a map from keys to blobs. A stored record reads back as itself.

## Model

| member | source | states |
|---|---|---|
| Patterns.Star | src/pages/wizard/Step1.tsx:50 | the recogniser for `^[class]*$` accepts exactly the strings whose every character is in the class |
| Patterns.SpaceFacts | src/pages/wizard/Step1.tsx:50 | `\s` (the predicate `IsSpace`) holds no letter or digit, on ASCII is exactly space, tab, line feed, vertical tab, form feed and carriage return, and excludes U+0085 and U+200B |
| Patterns.PhonePatternIsRegex | src/pages/wizard/Step1.tsx:186 | the deterministic phone recogniser (strip one leading `+`, then `[1-9]` and at most 15 digits) accepts exactly what the pattern with an optional sign matches under some choice of the sign |
| Patterns.PhonePattern | src/pages/wizard/Step1.tsx:186 | an accepted phone has 1 to 17 characters, digits after the first; without a sign it starts with 1-9 and has at most 16 characters; with a sign a 1-9 follows it |
| Patterns.EmailPatternIsRegex | src/pages/wizard/Step1.tsx:206 | the recogniser splitting at the first `@` and the host's last `.` accepts exactly the strings that split as local `@` domain `.` tld for some positions |
| Patterns.EmailPattern | src/pages/wizard/Step1.tsx:206 | an accepted address has at least 6 characters, contains `@` but does not start with it, and ends in two letters |
| Patterns.EmailSplitIsCanonical | src/pages/wizard/Step1.tsx:206 | any matching split of an address uses its first `@` and the last `.` after it |
| Patterns.EmailHasOneAt | src/pages/wizard/Step1.tsx:206 | an accepted address contains exactly one `@` |
| Validation.NameValid | src/pages/wizard/Step1.tsx:47-57 | name accepted iff it has at least 2 characters, each an ASCII letter or white space |
| Validation.NationalIdValid | src/pages/wizard/Step1.tsx:66-76 | national ID accepted iff it has at least 5 characters, each an ASCII letter or digit |
| Validation.AgeValid | src/pages/wizard/Step1.tsx:90-97 | with age = current year − birth year, rejected when age < 16 or age > 120, accepted otherwise |
| Validation.DateOfBirthValid | src/pages/wizard/Step1.tsx:87-98 | date of birth accepted iff it is non-empty and the year difference lies in 16..120; month and day play no part |
| Validation.WordValid | src/pages/wizard/Step1.tsx:108-114 | gender (and city, state, country, marital, employment and housing status, which carry the same rules) accepted iff non-empty and only letters and white space |
| Validation.AddressValid | src/pages/wizard/Step1.tsx:123-129 | address accepted iff its length is at least 10 |
| Validation.PhoneValid | src/pages/wizard/Step1.tsx:183-193 | phone accepted iff an optional `+`, then 1-9, then only digits, with total length 10..17 with the sign and 10..16 without |
| Validation.EmailValid | src/pages/wizard/Step1.tsx:203-209 | email accepted iff it splits as local@D.T over the case-insensitive classes; an accepted email has a single `@` |
| Validation.DependentsValid | src/pages/wizard/Step2.tsx:58-69 | dependents accepted iff 0 ≤ v ≤ 20, inclusive at both ends, with no integer requirement |
| Validation.MonthlyIncomeValid | src/pages/wizard/Step2.tsx:94-105 | monthly income accepted iff 0 ≤ v ≤ 1000000, inclusive at both ends |
| Validation.NarrativeValid | src/pages/wizard/Step3.tsx:72-89 | a narrative accepted iff 20 ≤ length ≤ 1000 and no character is a digit 0-9 |
| Validation.NumericBoundaries | src/pages/wizard/Step2.tsx:60-66 | under the form library's rules, −1, 21 and 1000001 are rejected; 0, 20, 1000000 and the non-integer 2.5 are accepted |
| Validation.PersonalValid | src/pages/wizard/Step1.tsx:40-211 | when every step 1 rule passes, every required text is non-empty, the phone has at least 10 characters, the email contains `@`, and the age is 16 to 120 |
| Validation.FamilyValid | src/pages/wizard/Step2.tsx:35-123 | when every step 2 rule passes, the three required texts are non-empty, dependents lie in 0..20 and income in 0..1000000 |
| Validation.SituationsValid | src/pages/wizard/Step3.tsx:63-148 | when every step 3 rule passes, each of the three narratives has 20 to 1000 characters |
| Validation.DefaultsAreIncomplete | src/context/FormContext.tsx:27-31 | the default record passes none of the three steps |
| Validation.SampleName | src/pages/wizard/Step1.tsx:47-57 | "123" is rejected as a name, "Ann Lee" accepted |
| Validation.SamplePhone | src/pages/wizard/Step1.tsx:183-193 | "+971501234567" accepted, "0501234567" rejected for its leading zero |
| FormContext.Merge | src/context/FormContext.tsx:57 | each section present in the partial replaces the record's section wholesale; absent sections are unchanged |
| FormContext.MergeNothing | src/context/FormContext.tsx:57 | merging the empty partial is the identity |
| FormContext.MergeIdempotent | src/context/FormContext.tsx:57 | merging the same partial twice equals merging it once |
| FormContext.MergeTwice | src/context/FormContext.tsx:57 | two merges equal one merge of the combined partial, the later one winning per section |
| FormContext.MergeCommutesOnDisjoint | src/context/FormContext.tsx:57 | merges of partials naming no common section commute |
| FormContext.Load | src/context/FormContext.tsx:38-45 | the initial record is the stored record when one parses, else the default record (absent key, empty text, parse failure) |
| FormContext.Persist | src/context/FormContext.tsx:47-53 | a successful write leaves the record readable under the key; a failed write leaves storage unchanged; other keys are never touched |
| FormContext.Mount | src/context/FormContext.tsx:38-53 | the initial state is the loaded record, written back when the write succeeds |
| FormContext.Update | src/context/FormContext.tsx:47-57 | the new record is the merge; with a successful write storage mirrors it, with a failed one storage is unchanged |
| FormContext.Reset | src/context/FormContext.tsx:47-58 | reset yields the default record from any state, mirrored when the write succeeds |
| FormContext.WriteFailureInvisible | src/context/FormContext.tsx:47-53 | a failed write never changes the in-memory record |
| FormContext.ReloadRestores | src/context/FormContext.tsx:38-53 | after a successful write, reloading yields the record that was in memory |
| FormContext.UpdateUpdateReload | src/context/FormContext.tsx:38-57 | two updates then a reload give each merged section its last value and keep the untouched section |
| FormContext.ResetReloadsDefault | src/context/FormContext.tsx:38-58 | after reset, reloading yields the default record |
| Wizard.FindIndex | src/pages/Wizard.tsx:19 | `findIndex` returns the first index whose path is a prefix, or −1 exactly when none is |
| Wizard.GetStepIndex | src/pages/Wizard.tsx:18-21 | the step index is always 0..2: the first step path the path starts with, or 0 when none matches |
| Wizard.StepPathIndex | src/pages/Wizard.tsx:17-21 | each step path maps to its own index |
| Wizard.GoPrev | src/pages/Wizard.tsx:26-28 | `goPrev` asks to navigate exactly when the step index is above 0, and its target is the step path one index lower |
| Wizard.GoNext | src/pages/Wizard.tsx:29-31 | `goNext` asks to navigate exactly when the step index is below the last, and its target is the step path one index higher |
| Wizard.BackMovesOneStep | src/pages/Wizard.tsx:26-28 | Back at step 0 does nothing; otherwise it moves to the previous step |
| Wizard.NextMovesOneStep | src/pages/Wizard.tsx:29-31 | Next at the last step does nothing; otherwise it moves to the next step |
| Wizard.BackUndoesNext | src/pages/Wizard.tsx:26-31 | Back after Next returns to the same step below the last, so no step is skipped |
| Wizard.UnknownPathIsFirstStep | src/pages/Wizard.tsx:20 | sample paths: `/apply` and `/` map to index 0, and `/apply/step-2/review` maps to index 1 (the general no-match case is the third ensures of `GetStepIndex`) |
| Suggestions.BuildPrompt | src/services/openai.ts:49-60 | each of the three field names gets its own fixed prompt; any other input gets the generic prompt |
| Suggestions.ContainsBasics | src/services/openai.ts:69-74 | `includes` (the predicate `Contains`): a found substring is no longer than the text; the empty string and the text itself are always found |
| Suggestions.MockSuggestion | src/services/openai.ts:65-80 | the canned suggestion is one of the four fixed, non-empty texts |
| Suggestions.FinancialTestIsOneSubstring | src/services/openai.ts:69 | the first test ("financial situation" or "financial") is the same as testing for "financial" |
| Suggestions.MockForFinancialPrompt | src/services/openai.ts:51-52 | the financial-situation prompt draws the financial text |
| Suggestions.MockForReasonPrompt | src/services/openai.ts:56 | the reason-for-applying prompt contains "financial" and so draws the financial text, which differs from the reason text |
| Suggestions.MockForEmploymentPrompt | src/services/openai.ts:53-54 | the employment prompt contains no "financial" and contains "employment", so it draws the employment text |
| Suggestions.MockForOtherField | src/services/openai.ts:57-58 | a non-field input gets the generic prompt, which passes none of the substring tests and draws the generic text |
| Suggestions.Trim | src/services/openai.ts:34 | the trimmed reply is a slice of it with white space only outside it, no white space at its ends, and empty exactly when the reply is all white space |
| Suggestions.GetSuggestion | src/services/openai.ts:9-44 | the result is never empty; it falls back to the canned text exactly when there is no key, the call fails, or the content is missing or blank; otherwise it is the trimmed content |
| Suggestions.NoKeySuggestions | src/services/openai.ts:14-16 | with no key each field's suggestion is the canned text for its prompt |
| AssistDialog.SetField | src/pages/wizard/Step3.tsx:187 | setting one field gives it the text and keeps the other two |
| AssistDialog.BeginRequest | src/pages/wizard/Step3.tsx:34 | while a request is in flight the loading field is the requested one, all else unchanged |
| AssistDialog.FinishRequest | src/pages/wizard/Step3.tsx:33-50 | success stages the text, targets the field and opens the dialog; failure clears text and target, closes the dialog and raises the error flag; loading is cleared either way |
| AssistDialog.RequestHelp | src/pages/wizard/Step3.tsx:33-41 | a request through the service always opens the dialog on a non-empty text for the field and leaves the error flag alone |
| AssistDialog.Edit | src/pages/wizard/Step3.tsx:181 | editing replaces the staged text and nothing else |
| AssistDialog.Discard | src/pages/wizard/Step3.tsx:186 | discard only closes the dialog; form values and store are unchanged |
| AssistDialog.Accept | src/pages/wizard/Step3.tsx:187 | accept closes the dialog; with a target it sets that field to the staged text, keeps the other two, and stores all three values as the situations section; without a target nothing else changes |
| AssistDialog.DismissError | src/pages/wizard/Step3.tsx:191-192 | closing the notice clears the error flag only |
| AssistDialog.RequestEditAccept | src/pages/wizard/Step3.tsx:181-187 | request, optional edit and accept leave the field holding the (edited) suggestion and the store's situations equal to the form |
| AssistDialog.RequestDiscard | src/pages/wizard/Step3.tsx:186 | request then discard leaves form and store unchanged |
| AssistDialog.NoKeyFinancialAccept | src/pages/wizard/Step3.tsx:33-41 | with no key, accepting help for the financial situation stores the canned financial text |
| Steps.SubmitPersonal | src/pages/wizard/Step1.tsx:33-36 | a valid step 1 replaces exactly the personal section and moves to the next step; an invalid one changes nothing |
| Steps.SubmitFamily | src/pages/wizard/Step2.tsx:28-31 | a valid step 2 replaces exactly the family section and moves on; an invalid one changes nothing |
| Steps.SubmitSituations | src/pages/wizard/Step3.tsx:55-59 | a valid step 3 stores the situations and submits the current personal and family sections with the new situations; the path stays |
| Steps.GoBack | src/pages/wizard/Step2.tsx:127 | Back moves one step back and never touches the store |
| Steps.EndToEnd | src/pages/wizard/Step3.tsx:55-57 | from step 1, three valid submits deliver exactly the entered sections and leave the store synced |
| Steps.BackAndForthKeepsPersonal | src/pages/wizard/Step1.tsx:24-28 | going back to step 1 shows the stored personal values, and resubmitting them leaves the record unchanged |

## Left out

- Styling, the language toggle and the translation tables: they do not
  change what is stored or submitted.
- The browser's built-in form checks. The number inputs of step 2 have no
  `step` attribute and the email input has `type="email"`, and the forms do
  not set `noValidate`, so the browser can block a submit before the form
  library's rules run. The model has only the form library's rules.
- Steps.SubmitFamily: advances on a non-integer `dependents` (such as 2.5)
  or a `monthlyIncome` with a fractional part, which the browser's number
  check rejects before submitting.
- Steps.SubmitPersonal: advances on addresses the email pattern accepts but
  the browser's email check rejects, such as `a@b..cc` or `a@-b.cc`.
- The HTTP request to the suggestion service: headers, model, timeout and
  abort signal. Its result is the abstract `Remote` input. The API-key read
  and console logging are left out too.
- The submission service: it is a fixed-delay acknowledgement that always
  succeeds. It is represented by the payload it receives.
- Timers and asynchrony. This includes overlapping help requests that share
  the single loading slot. Requests are taken one at a time.
- JSON encoding, and records in storage that parse but have the wrong
  shape. The source never checks the shape.
- A `getItem` that throws is handled by the same catch as a parse failure,
  so it is modelled as `Malformed`.
- React runs the write effect only when the record object changes. A reset
  while already holding the default object therefore skips a write, and the
  model writes anyway.
- Date parsing and time zones. The birth year and the current year are
  integer inputs, and invalid dates are not modelled.
- Form-library internals: which error message is shown, the order rules run
  in, blur timing, and empty numeric input, which becomes NaN.
- Floating point. The numeric fields are mathematical reals.
