# Job application form — Dafny model

A model of a small React job-application form and of the summary it shows
after a successful submission. Four pieces of logic sit under the JSX, and
each is modelled here:

- **The validation schema** (`jobSchema`). A pure function `Validate` takes
  an application and gives a map from field to error message. The selected
  position decides whether relevant experience, a portfolio URL or
  management experience is required. At least one skill is required for
  every position.
- **The skill checkboxes** (`handleSkillChange`). Checking a box pushes the
  skill onto a copy of the list. Unchecking filters out every copy of it.
  The result is stored twice: as the selected list and as the form's
  `additionalSkills` value.
- **The view switch** (`submittedData`). It is `None` while editing. Only a
  submission the schema accepts sets it, and nothing clears it. While it is
  set, the summary replaces the form.
- **The summary** (`Summary`). A pure choice of labelled paragraphs for the
  submitted position, with the skills joined by `", "`.

Modules:

- `Wrappers`: `Option`.
- `ApplicationData`: the application record and the three position values.
  A number field is `Absent`, `NotANumber` or `Num(real)`, so that the type
  check, `positive()` and `min(1)` can be told apart. `Formats` holds the
  library's e-mail, URL and date tests as parameters.
- `Summary`: `Summary.js`.
- `JobApplicationForm`: the schema, the skill-list update and the `Form`
  class. The class has the component's state: `selectedSkills`, the form
  store's `values` and `submittedData`.

How the validation library evaluates the schema, and how the model follows it:

- Each field reports the first test it fails.
- A number's type check runs first. A value that fails it (NaN) is not
  tested further.
- An absent value skips every test except `required()`.
- A string's `required()` fails on an absent value and on `""`. `email()`
  and `url()` let `""` through.
- `positive()` and `min(1)` are both the library's exclusive test named
  "min". For developers and designers, the `then` branch's `min(1)` therefore
  replaces `positive()`: any value below 1, including 0, gets "Experience
  must be greater than 0". For the other positions `positive()` stays.

Consequences of the schema as written:

- The type check, `url()` and `positive()` stand outside the `when` clauses.
  So a present value is checked for every position, even a stale one left
  over from another position. See `PortfolioRequiredOnlyForDesigner`,
  `ManagementRequiredOnlyForManager` and `RelevantExperienceWhenOptional`.
- The schema only requires a non-empty position (`AnyPositionTextPasses`);
  any other text passes. The three values come from the `<select>`.
- A developer's or designer's relevant experience must be at least 1
  (`min(1)`), although the message says "greater than 0".

## Model

| member | source | states |
|---|---|---|
| JobApplicationForm.FullNameRule | src/components/JobApplicationForm.js:8 | the name passes exactly when it is present and not empty, otherwise "Full Name is required" |
| JobApplicationForm.EmailRule | src/components/JobApplicationForm.js:9 | the e-mail passes exactly when it is non-empty and has the e-mail shape; "Email is required" exactly when it is absent or empty; otherwise "Invalid email format" |
| JobApplicationForm.PhoneNumberRule | src/components/JobApplicationForm.js:10 | the phone number passes exactly when it is a number above 0; "Phone Number is required" exactly when absent; a value that is not a number gets "Phone Number must be a number" and a number at most 0 gets "Phone Number is invalid" |
| JobApplicationForm.PositionRule | src/components/JobApplicationForm.js:11 | the position passes exactly when it is present and not empty, otherwise "Position is required" |
| JobApplicationForm.RelevantExperienceRule | src/components/JobApplicationForm.js:12-20 | passes exactly when it is a number of at least 1 for developers and designers, or absent or a number above 0 for the rest; "Relevant Experience is required" exactly when absent for a developer or designer; a value that is not a number gets "Relevant Experience must be a number"; for developers and designers every number below 1, 0 included, gets the `min(1)` message "Experience must be greater than 0", which replaced `positive()`; for the rest a number at most 0 gets "Experience should be greater than 0" |
| JobApplicationForm.PortfolioUrlRule | src/components/JobApplicationForm.js:21-28 | an absent or empty URL passes exactly when the position is not designer; a non-empty one passes exactly when it has the URL shape; "Portfolio URL is required" exactly for an absent or empty URL of a designer |
| JobApplicationForm.ManagementExperienceRule | src/components/JobApplicationForm.js:29-36 | passes exactly when it is a number above 0, or absent for a position other than manager; "Management Experience is required" exactly when absent for a manager; a value that is not a number gets the library's type message, and a number at most 0 gets "Experience should be greater than 0", for every position |
| JobApplicationForm.AdditionalSkillsRule | src/components/JobApplicationForm.js:37 | the skills pass exactly when at least one is selected, otherwise "At least one skill must be selected" |
| JobApplicationForm.PreferredInterviewTimeRule | src/components/JobApplicationForm.js:38 | the time passes exactly when it is present and a date; "Preferred Interview Time is required" exactly when absent; otherwise the library's date type message |
| JobApplicationForm.FieldError | src/components/JobApplicationForm.js:7-39 | each field only ever reports one of the messages declared for it (or the library's type message for a field without its own) |
| JobApplicationForm.Validate | src/components/JobApplicationForm.js:7-39 | every field is checked on its own; a field is reported exactly when its rule fails, with that rule's first message, and all failing fields are reported together |
| JobApplicationForm.ValidateAcceptsExactlyAcceptable | src/components/JobApplicationForm.js:7-39 | the schema reports nothing exactly when the application meets every rule (stated as plain conditions without messages): name, e-mail shape, positive phone, a position, experience by position, URL shape, at least one skill, a date |
| JobApplicationForm.AnyPositionTextPasses | src/components/JobApplicationForm.js:11 | the position is reported, as "Position is required", exactly when it is absent or empty; any other text passes |
| JobApplicationForm.NoSkillAlwaysRejected | src/components/JobApplicationForm.js:37 | skills are reported exactly when the list is empty, whatever the position, with "At least one skill must be selected" |
| JobApplicationForm.RelevantExperienceWhenRequired | src/components/JobApplicationForm.js:12-20 | for a developer or designer, relevant experience is reported unless it is a number of at least 1; absent gives "Relevant Experience is required"; 0.5 gives "Experience must be greater than 0" |
| JobApplicationForm.RelevantExperienceWhenOptional | src/components/JobApplicationForm.js:12-20 | for any other position, relevant experience is reported exactly when it is present and either not a number or at most 0; absent passes |
| JobApplicationForm.PortfolioRequiredOnlyForDesigner | src/components/JobApplicationForm.js:21-28 | a missing portfolio URL is reported exactly for designers; a non-empty value is reported, for every position, exactly when it is not a URL |
| JobApplicationForm.ManagementRequiredOnlyForManager | src/components/JobApplicationForm.js:29-36 | an absent management experience is reported exactly for managers; a present number is reported for every position exactly when it is at most 0, with "Experience should be greater than 0" |
| JobApplicationForm.DeveloperExampleAccepted | src/components/JobApplicationForm.js:7-39 | a sample developer application passes; its summary contains the relevant-experience paragraph showing 3 with " years" and shows neither portfolio nor management experience |
| JobApplicationForm.ManagerExampleRejectedOnManagementOnly | src/components/JobApplicationForm.js:29-36 | the same application with the position changed to manager (its relevant experience of 3 kept, no management experience) fails on management experience alone, with "Management Experience is required" |
| JobApplicationForm.AcceptedSummaryShowsValues | src/components/Summary.js:7-20 | the summary of an accepted application shows a non-empty name, a positive phone number, a skills text starting with the first skill, and a number of at least 1, a URL or a positive number in each position paragraph it shows |
| JobApplicationForm.Without | src/components/JobApplicationForm.js:59 | filtering out a skill keeps exactly the other skills and never lengthens the list |
| JobApplicationForm.WithoutKeepsOrder | src/components/JobApplicationForm.js:59 | filtering works element by element, so the remaining skills keep their relative order |
| JobApplicationForm.WithoutCounts | src/components/JobApplicationForm.js:59 | unchecking leaves no copy of the skill and the same number of copies of every other skill |
| JobApplicationForm.WithoutAbsent | src/components/JobApplicationForm.js:59 | unchecking a skill that is not selected leaves the list unchanged |
| JobApplicationForm.Toggled | src/components/JobApplicationForm.js:55-60 | checking appends the skill at the end, every earlier entry keeping its value and place; unchecking leaves no copy of the skill and keeps every other skill |
| JobApplicationForm.UncheckUndoesCheck | src/components/JobApplicationForm.js:53-63 | unchecking right after checking a skill that was not selected restores the list |
| JobApplicationForm.WithoutKeepsDistinct | src/components/JobApplicationForm.js:58-59 | filtering a list without duplicates leaves a list without duplicates |
| JobApplicationForm.ToggleKeepsDistinct | src/components/JobApplicationForm.js:160-170 | when a box is checked exactly when its skill is absent, as its `checked` attribute makes it, a toggle never lists a skill twice |
| JobApplicationForm.Form.constructor | src/components/JobApplicationForm.js:42-49 | the component starts editing, with no selected skill and the default values (an empty skill list) |
| JobApplicationForm.Form.Edit | src/components/JobApplicationForm.js:75-180 | any of the input `Controller`s in these lines (name, e-mail, phone, the position select, relevant experience, portfolio URL, management experience, interview time), which exist only while the form is shown, changes the fields it controls, and leaves the skill list and the submission unchanged |
| JobApplicationForm.Form.ToggleSkill | src/components/JobApplicationForm.js:53-63 | a checkbox, shown only while nothing is submitted, makes the selected list the toggled list and sets the form's skill value to the same list; the submission is untouched |
| JobApplicationForm.Form.Submit | src/components/JobApplicationForm.js:65-72 | available only while nothing is submitted; the form's values are validated; when no field is reported they become the submission and the view switches to their summary, otherwise nothing is submitted and the form stays; a submission is always one the schema accepted |
| JobApplicationForm.Form.View | src/components/JobApplicationForm.js:71-188 | the form is shown exactly while nothing is submitted; any summary shown is the summary of an application the schema accepts |
| Summary.CaptionsDistinct | src/components/Summary.js:7-21 | the nine bold labels are pairwise different texts |
| Summary.ExpectedTitles | src/components/Summary.js:7-21 | six to eight paragraphs: name, e-mail, phone and position first, skills and time last; relevant experience exactly for developers and designers, portfolio exactly for designers, management exactly for managers |
| Summary.LineFor | src/components/Summary.js:7-21 | the paragraph for a title carries that title, and " years" follows the value only for relevant experience |
| Summary.Render | src/components/Summary.js:3-24 | the paragraph titles are exactly the expected titles for the position, in order, and each paragraph is the one `LineFor` gives for its title |
| Summary.PositionDecidesLines | src/components/Summary.js:7-19 | name, e-mail, phone and position always open the summary in that order; relevant experience appears exactly for developers and designers, portfolio exactly for designers, management exactly for managers, and never with either of the others |
| Summary.UnknownPositionShowsUniversalLinesOnly | src/components/Summary.js:11-19 | for a position outside the three values, only the six unconditional paragraphs appear |
| Summary.JoinSnoc | src/components/Summary.js:20 | joining one more skill adds one separator and that skill at the end |
| Summary.JoinMatchesReference | src/components/Summary.js:20 | the join equals the left-to-right accumulation that defines `Array.prototype.join` |
| Summary.JoinLength | src/components/Summary.js:20 | n skills give a text as long as the skills plus n - 1 separators |
| Summary.Join | src/components/Summary.js:20 | a single skill is shown without separator; the text starts with the first skill |
| Summary.JoinEnds | src/components/Summary.js:20 | the text ends with the last skill |

## Left out

- JSX rendering, the `Controller` wiring and the `watch`-driven showing and hiding of inputs. `Form.Edit` stands for any input change.
- The form library's internals: the resolver plumbing, how errors are stored and shown, re-validation while typing after a failed submit, and whether hidden inputs keep their values. `Form.Submit` validates whatever the form store holds.
- The validation library's e-mail pattern, URL pattern and date parser. They are the uninterpreted parameters `Formats.isEmail`, `Formats.isUrl` and `Formats.isDate`.
- The string-to-number cast. The application holds the cast's outcome: absent, not a number, or a number.
- JavaScript number precision: numbers are mathematical reals, not 64-bit floats.
- NotTypeMessage: the library's default type message also quotes the rejected value and the value it was cast from; the model keeps only the fixed opening "`<field>` must be a `` `<type>` `` type".
- `new Date(...).toLocaleString()`: the time paragraph is present with an uninterpreted formatted value (`LocaleTime`).
- The summary's heading "Application Summary" is fixed text and is not a paragraph of the model.
