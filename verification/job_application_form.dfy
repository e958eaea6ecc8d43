/**
 * The job application form: the position-dependent validation rules, the
 * skill checkboxes' list update, and the switch from the form to the summary
 * once a submission passes validation.
 */
module JobApplicationForm {

  import opened Wrappers
  import opened ApplicationData
  import Summary

  // ---------------------------------------------------------------------------
  // The validation schema
  // ---------------------------------------------------------------------------

  datatype Field =
    | FullName | Email | PhoneNumber | Position
    | RelevantExperience | PortfolioUrl | ManagementExperience
    | AdditionalSkills | PreferredInterviewTime

  const AllFields: set<Field> :=
    {FullName, Email, PhoneNumber, Position, RelevantExperience, PortfolioUrl,
     ManagementExperience, AdditionalSkills, PreferredInterviewTime}

  const FullNameRequired := "Full Name is required"
  const EmailRequired := "Email is required"
  const InvalidEmail := "Invalid email format"
  const PhoneNotANumber := "Phone Number must be a number"
  const PhoneRequired := "Phone Number is required"
  const PhoneInvalid := "Phone Number is invalid"
  const PositionRequired := "Position is required"
  const ExperienceNotPositive := "Experience should be greater than 0"
  const RelevantNotANumber := "Relevant Experience must be a number"
  const ExperienceBelowOne := "Experience must be greater than 0"
  const RelevantRequired := "Relevant Experience is required"
  const InvalidUrl := "Invalid URL format"
  const PortfolioRequired := "Portfolio URL is required"
  const ManagementRequired := "Management Experience is required"
  const NoSkill := "At least one skill must be selected"
  const InterviewTimeRequired := "Preferred Interview Time is required"

  /** The validation library's own message for a value of the wrong type
      (a field without a `typeError` message of its own). */
  function NotTypeMessage(path: string, typeName: string): string
  {
    path + " must be a `" + typeName + "` type"
  }

  /** A string-typed `required()` fails on an absent value and on "". */
  predicate Missing(v: Option<string>)
  {
    v.None? || v == Some("")
  }

  // Each rule gives the first message its field fails with, if any. The
  // number type check runs before every other test of a number field and a
  // value that fails it is tested no further; an absent value skips every
  // test except `required()`; `email()` and `url()` let "" through. Each
  // rule's contract says when the field passes and which of its messages
  // it can give.

  function FullNameRule(v: Option<string>): (r: Option<string>)
    ensures r.None? <==> !Missing(v)
    ensures r.Some? ==> r.value == FullNameRequired
  {
    if Missing(v) then Some(FullNameRequired) else None
  }

  function EmailRule(v: Option<string>, isEmail: string -> bool): (r: Option<string>)
    ensures r.None? <==> !Missing(v) && isEmail(v.value)
    ensures r == Some(EmailRequired) <==> Missing(v)
    ensures r.Some? ==> r.value in {EmailRequired, InvalidEmail}
  {
    if Missing(v) then Some(EmailRequired)
    else if !isEmail(v.value) then Some(InvalidEmail)
    else None
  }

  function PhoneNumberRule(n: Number): (r: Option<string>)
    ensures r.None? <==> n.Num? && n.value > 0.0
    ensures r == Some(PhoneRequired) <==> n == Absent
    ensures n == NotANumber ==> r == Some(PhoneNotANumber)
    ensures n.Num? && n.value <= 0.0 ==> r == Some(PhoneInvalid)
    ensures r.Some? ==> r.value in {PhoneNotANumber, PhoneRequired, PhoneInvalid}
  {
    match n
    case Absent => Some(PhoneRequired)
    case NotANumber => Some(PhoneNotANumber)
    case Num(v) => if v <= 0.0 then Some(PhoneInvalid) else None
  }

  function PositionRule(v: Option<string>): (r: Option<string>)
    ensures r.None? <==> !Missing(v)
    ensures r.Some? ==> r.value == PositionRequired
  {
    if Missing(v) then Some(PositionRequired) else None
  }

  /** `positive()` and `min(1)` are both the library's test named "min",
      which is exclusive: the `then` branch's `min(1)` replaces `positive()`
      for developers and designers, and `positive()` stays for the rest. */
  function RelevantExperienceRule(position: Option<string>, n: Number): (r: Option<string>)
    ensures r.None? <==>
              if DeveloperOrDesigner(position) then n.Num? && n.value >= 1.0
              else n != NotANumber && (n.Num? ==> n.value > 0.0)
    ensures r == Some(RelevantRequired) <==> n == Absent && DeveloperOrDesigner(position)
    ensures n == NotANumber ==> r == Some(RelevantNotANumber)
    ensures DeveloperOrDesigner(position) && n.Num? && n.value < 1.0 ==> r == Some(ExperienceBelowOne)
    ensures !DeveloperOrDesigner(position) && n.Num? && n.value <= 0.0 ==> r == Some(ExperienceNotPositive)
    ensures r.Some? ==>
              r.value in {ExperienceNotPositive, RelevantNotANumber, ExperienceBelowOne, RelevantRequired}
  {
    match n
    case Absent =>
      if DeveloperOrDesigner(position) then Some(RelevantRequired) else None
    case NotANumber => Some(RelevantNotANumber)
    case Num(v) =>
      if DeveloperOrDesigner(position) then
        (if v < 1.0 then Some(ExperienceBelowOne) else None)
      else
        (if v <= 0.0 then Some(ExperienceNotPositive) else None)
  }

  function PortfolioUrlRule(position: Option<string>, v: Option<string>, isUrl: string -> bool): (r: Option<string>)
    ensures r.None? <==> if Missing(v) then position != Some(Designer) else isUrl(v.value)
    ensures r == Some(PortfolioRequired) <==> Missing(v) && position == Some(Designer)
    ensures r.Some? ==> r.value in {InvalidUrl, PortfolioRequired}
  {
    if Missing(v) then
      (if position == Some(Designer) then Some(PortfolioRequired) else None)
    else if !isUrl(v.value) then Some(InvalidUrl)
    else None
  }

  function ManagementExperienceRule(position: Option<string>, n: Number): (r: Option<string>)
    ensures r.None? <==>
              (n == Absent ==> position != Some(Manager))
              && n != NotANumber && (n.Num? ==> n.value > 0.0)
    ensures r == Some(ManagementRequired) <==> n == Absent && position == Some(Manager)
    ensures n == NotANumber ==> r == Some(NotTypeMessage("managementExperience", "number"))
    ensures n.Num? && n.value <= 0.0 ==> r == Some(ExperienceNotPositive)
    ensures r.Some? ==>
              r.value in {ExperienceNotPositive, NotTypeMessage("managementExperience", "number"), ManagementRequired}
  {
    match n
    case Absent => if position == Some(Manager) then Some(ManagementRequired) else None
    case NotANumber => Some(NotTypeMessage("managementExperience", "number"))
    case Num(v) => if v <= 0.0 then Some(ExperienceNotPositive) else None
  }

  function AdditionalSkillsRule(skills: seq<string>): (r: Option<string>)
    ensures r.None? <==> skills != []
    ensures r.Some? ==> r.value == NoSkill
  {
    if |skills| < 1 then Some(NoSkill) else None
  }

  function PreferredInterviewTimeRule(v: Option<string>, isDate: string -> bool): (r: Option<string>)
    ensures r.None? <==> v.Some? && isDate(v.value)
    ensures r == Some(InterviewTimeRequired) <==> v.None?
    ensures r.Some? ==> r.value in {InterviewTimeRequired, NotTypeMessage("preferredInterviewTime", "date")}
  {
    match v
    case None => Some(InterviewTimeRequired)
    case Some(s) => if isDate(s) then None else Some(NotTypeMessage("preferredInterviewTime", "date"))
  }

  /** The messages the schema declares for a field, and the library's type
      message for the fields without one of their own. */
  function Messages(k: Field): set<string>
  {
    match k
    case FullName => {FullNameRequired}
    case Email => {EmailRequired, InvalidEmail}
    case PhoneNumber => {PhoneNotANumber, PhoneRequired, PhoneInvalid}
    case Position => {PositionRequired}
    case RelevantExperience => {ExperienceNotPositive, RelevantNotANumber, ExperienceBelowOne, RelevantRequired}
    case PortfolioUrl => {InvalidUrl, PortfolioRequired}
    case ManagementExperience => {ExperienceNotPositive, NotTypeMessage("managementExperience", "number"), ManagementRequired}
    case AdditionalSkills => {NoSkill}
    case PreferredInterviewTime => {InterviewTimeRequired, NotTypeMessage("preferredInterviewTime", "date")}
  }

  /** The rule of one field, applied to the whole application: a field
      only ever reports one of its own messages. */
  function FieldError(d: Application, f: Formats, k: Field): (r: Option<string>)
    ensures r.Some? ==> r.value in Messages(k)
  {
    match k
    case FullName => FullNameRule(d.fullName)
    case Email => EmailRule(d.email, f.isEmail)
    case PhoneNumber => PhoneNumberRule(d.phoneNumber)
    case Position => PositionRule(d.position)
    case RelevantExperience => RelevantExperienceRule(d.position, d.relevantExperience)
    case PortfolioUrl => PortfolioUrlRule(d.position, d.portfolioUrl, f.isUrl)
    case ManagementExperience => ManagementExperienceRule(d.position, d.managementExperience)
    case AdditionalSkills => AdditionalSkillsRule(d.additionalSkills)
    case PreferredInterviewTime => PreferredInterviewTimeRule(d.preferredInterviewTime, f.isDate)
  }

  lemma EveryFieldIsChecked(k: Field)
    ensures k in AllFields
  {
  }

  /** The whole schema: every field is checked on its own and every failing
      field is reported, each with the first message its rule gives. */
  function Validate(d: Application, f: Formats): (errors: map<Field, string>)
    ensures forall k :: k in errors <==> FieldError(d, f, k).Some?
    ensures forall k :: k in errors ==> errors[k] == FieldError(d, f, k).value
  {
    forall k ensures k in AllFields { EveryFieldIsChecked(k); }
    map k | k in AllFields && FieldError(d, f, k).Some? :: FieldError(d, f, k).value
  }

  /** What an accepted application looks like, field by field, stated
      without the rules' messages. */
  predicate Acceptable(d: Application, f: Formats)
  {
    && !Missing(d.fullName)
    && !Missing(d.email) && f.isEmail(d.email.value)
    && d.phoneNumber.Num? && d.phoneNumber.value > 0.0
    && !Missing(d.position)
    && (if DeveloperOrDesigner(d.position)
        then d.relevantExperience.Num? && d.relevantExperience.value >= 1.0
        else d.relevantExperience != NotANumber
             && (d.relevantExperience.Num? ==> d.relevantExperience.value > 0.0))
    && (d.position == Some(Designer) ==> !Missing(d.portfolioUrl))
    && (!Missing(d.portfolioUrl) ==> f.isUrl(d.portfolioUrl.value))
    && (d.position == Some(Manager) ==> d.managementExperience != Absent)
    && d.managementExperience != NotANumber
    && (d.managementExperience.Num? ==> d.managementExperience.value > 0.0)
    && |d.additionalSkills| >= 1
    && d.preferredInterviewTime.Some? && f.isDate(d.preferredInterviewTime.value)
  }

  /** The schema accepts an application exactly when it is acceptable. */
  lemma ValidateAcceptsExactlyAcceptable(d: Application, f: Formats)
    ensures Validate(d, f) == map[] <==> Acceptable(d, f)
  {
    var errors := Validate(d, f);
    if errors == map[] {
      forall k ensures FieldError(d, f, k).None? { assert k !in errors; }
      assert FieldError(d, f, FullName).None?;
      assert FieldError(d, f, Email).None?;
      assert FieldError(d, f, PhoneNumber).None?;
      assert FieldError(d, f, Position).None?;
      assert FieldError(d, f, RelevantExperience).None?;
      assert FieldError(d, f, PortfolioUrl).None?;
      assert FieldError(d, f, ManagementExperience).None?;
      assert FieldError(d, f, AdditionalSkills).None?;
      assert FieldError(d, f, PreferredInterviewTime).None?;
    }
    if Acceptable(d, f) {
      forall k ensures k !in errors {
        match k
        case FullName =>
        case Email =>
        case PhoneNumber =>
        case Position =>
        case RelevantExperience =>
        case PortfolioUrl =>
        case ManagementExperience =>
        case AdditionalSkills =>
        case PreferredInterviewTime =>
      }
      assert errors.Keys == {};
    }
  }

  /** The schema only asks for some position: any non-empty text passes,
      not only the three values the select offers. */
  lemma AnyPositionTextPasses(d: Application, f: Formats)
    ensures Position in Validate(d, f) <==> Missing(d.position)
    ensures Position in Validate(d, f) ==> Validate(d, f)[Position] == PositionRequired
  {
  }

  /** An empty skill list is always reported, whatever the position; a
      non-empty one never is. */
  lemma NoSkillAlwaysRejected(d: Application, f: Formats)
    ensures AdditionalSkills in Validate(d, f) <==> d.additionalSkills == []
    ensures d.additionalSkills == [] ==> Validate(d, f)[AdditionalSkills] == NoSkill
  {
  }

  /** For a developer or a designer the relevant experience is required and
      must be at least 1, so 0.5 is refused although it is positive. */
  lemma RelevantExperienceWhenRequired(d: Application, f: Formats)
    requires d.position == Some(Developer) || d.position == Some(Designer)
    ensures RelevantExperience in Validate(d, f) <==>
              !(d.relevantExperience.Num? && d.relevantExperience.value >= 1.0)
    ensures d.relevantExperience == Absent ==>
              Validate(d, f)[RelevantExperience] == RelevantRequired
    ensures d.relevantExperience == Num(0.5) ==>
              Validate(d, f)[RelevantExperience] == ExperienceBelowOne
  {
  }

  /** For any other position an absent relevant experience passes; a value
      that is present must still be a positive number. */
  lemma RelevantExperienceWhenOptional(d: Application, f: Formats)
    requires d.position != Some(Developer) && d.position != Some(Designer)
    ensures RelevantExperience in Validate(d, f) <==>
              d.relevantExperience == NotANumber
              || (d.relevantExperience.Num? && d.relevantExperience.value <= 0.0)
    ensures d.relevantExperience.Num? && d.relevantExperience.value <= 0.0 ==>
              Validate(d, f)[RelevantExperience] == ExperienceNotPositive
  {
  }

  /** A missing portfolio URL is reported exactly for designers; a non-empty
      value that is not a URL is reported for every position. */
  lemma PortfolioRequiredOnlyForDesigner(d: Application, f: Formats)
    ensures Missing(d.portfolioUrl) ==>
              (PortfolioUrl in Validate(d, f) <==> d.position == Some(Designer))
    ensures !Missing(d.portfolioUrl) ==>
              (PortfolioUrl in Validate(d, f) <==> !f.isUrl(d.portfolioUrl.value))
    ensures PortfolioUrl in Validate(d, f) ==>
              Validate(d, f)[PortfolioUrl] ==
                (if Missing(d.portfolioUrl) then PortfolioRequired else InvalidUrl)
  {
  }

  /** An absent management experience is reported exactly for managers; a
      present value of at most 0 is reported for every position. */
  lemma ManagementRequiredOnlyForManager(d: Application, f: Formats)
    ensures d.managementExperience == Absent ==>
              (ManagementExperience in Validate(d, f) <==> d.position == Some(Manager))
    ensures d.managementExperience.Num? ==>
              (ManagementExperience in Validate(d, f) <==> d.managementExperience.value <= 0.0)
    ensures d.managementExperience.Num? && d.managementExperience.value <= 0.0 ==>
              Validate(d, f)[ManagementExperience] == ExperienceNotPositive
  {
  }

  /** A sample developer application: a developer with
      three years of experience. */
  const JaneAsDeveloper := Application(
    Some("Jane Doe"), Some("jane@x.com"), Num(5551234.0), Some(Developer), Num(3.0),
    None, Absent, ["JavaScript"], Some("2024-05-01T10:00"))

  /** The example is accepted, and its summary shows "Relevant Experience:
      3 years" but neither the portfolio nor the management paragraph. */
  lemma DeveloperExampleAccepted(f: Formats)
    requires f.isEmail("jane@x.com") && f.isDate("2024-05-01T10:00")
    ensures Validate(JaneAsDeveloper, f) == map[]
    ensures Summary.Line(Summary.RelevantLabel, Summary.Amount(Num(3.0)), " years")
              in Summary.Render(JaneAsDeveloper)
    ensures !Summary.HasLine(Summary.Render(JaneAsDeveloper), Summary.PortfolioLabel)
    ensures !Summary.HasLine(Summary.Render(JaneAsDeveloper), Summary.ManagementLabel)
  {
    ValidateAcceptsExactlyAcceptable(JaneAsDeveloper, f);
    assert Acceptable(JaneAsDeveloper, f);
    var lines := Summary.Render(JaneAsDeveloper);
    assert DeveloperOrDesigner(JaneAsDeveloper.position);
    Summary.PositionDecidesLines(JaneAsDeveloper);
    var i :| 0 <= i < |lines| && Summary.Titles(lines)[i] == Summary.RelevantLabel;
    assert lines[i] == Summary.LineFor(JaneAsDeveloper, Summary.RelevantLabel);
  }

  /** The same application for a manager, without management experience
      (the relevant experience of 3 stays, as a hidden input keeps its value),
      fails on that field and on no other. */
  lemma ManagerExampleRejectedOnManagementOnly(f: Formats)
    requires f.isEmail("jane@x.com") && f.isDate("2024-05-01T10:00")
    ensures Validate(JaneAsDeveloper.(position := Some(Manager)), f)
              == map[ManagementExperience := ManagementRequired]
  {
    var d := JaneAsDeveloper.(position := Some(Manager));
    var errors := Validate(d, f);
    forall k ensures k in errors <==> k == ManagementExperience {
      match k
      case FullName =>
      case Email =>
      case PhoneNumber =>
      case Position =>
      case RelevantExperience =>
      case PortfolioUrl =>
      case ManagementExperience =>
      case AdditionalSkills =>
      case PreferredInterviewTime =>
    }
    assert errors.Keys == {ManagementExperience};
  }

  /** What the summary of an accepted application shows: a non-empty name, a positive
      phone number, a skills text that starts with the first skill, and in
      each position paragraph (shown for exactly the positions that
      `Summary.PositionDecidesLines` names) a real value: relevant
      experience of at least 1 year, a URL, a positive management
      experience; never a blank. */
  lemma AcceptedSummaryShowsValues(d: Application, f: Formats)
    requires Validate(d, f) == map[]
    ensures !Missing(Summary.LineFor(d, Summary.FullNameLabel).value.text)
    ensures Summary.LineFor(d, Summary.PhoneLabel).value.amount.Num?
            && Summary.LineFor(d, Summary.PhoneLabel).value.amount.value > 0.0
    ensures d.additionalSkills != []
            && d.additionalSkills[0] <= Summary.LineFor(d, Summary.SkillsLabel).value.text.value
    ensures DeveloperOrDesigner(d.position) ==>
              Summary.LineFor(d, Summary.RelevantLabel).value.amount.Num?
              && Summary.LineFor(d, Summary.RelevantLabel).value.amount.value >= 1.0
    ensures d.position == Some(Designer) ==>
              !Missing(Summary.LineFor(d, Summary.PortfolioLabel).value.text)
              && f.isUrl(Summary.LineFor(d, Summary.PortfolioLabel).value.text.value)
    ensures d.position == Some(Manager) ==>
              Summary.LineFor(d, Summary.ManagementLabel).value.amount.Num?
              && Summary.LineFor(d, Summary.ManagementLabel).value.amount.value > 0.0
  {
    ValidateAcceptsExactlyAcceptable(d, f);
  }

  // ---------------------------------------------------------------------------
  // The skill checkboxes
  // ---------------------------------------------------------------------------

  /** `skills.filter((skill) => skill !== value)`. */
  function Without(skills: seq<string>, value: string): (r: seq<string>)
    ensures |r| <= |skills|
    ensures forall s :: s in r <==> s in skills && s != value
  {
    if skills == [] then []
    else (if skills[0] == value then [] else [skills[0]]) + Without(skills[1..], value)
  }

  /** The list a checkbox change leaves: the skill pushed on the end when
      checked, every copy of it filtered out when unchecked. */
  function Toggled(skills: seq<string>, value: string, checked: bool): (r: seq<string>)
    ensures checked ==> |r| == |skills| + 1 && r[..|skills|] == skills && r[|skills|] == value
    ensures !checked ==> value !in r && forall s :: s in r <==> s in skills && s != value
  {
    if checked then skills + [value] else Without(skills, value)
  }

  /** Filtering works element by element: it keeps the remaining skills in
      their original relative order. */
  lemma {:induction false} WithoutKeepsOrder(a: seq<string>, b: seq<string>, value: string)
    ensures Without(a + b, value) == Without(a, value) + Without(b, value)
  {
    if a == [] {
      assert a + b == b;
    } else {
      assert (a + b)[1..] == a[1..] + b;
      WithoutKeepsOrder(a[1..], b, value);
    }
  }

  /** Unchecking removes every copy of the skill and no copy of any other. */
  lemma {:induction false} WithoutCounts(skills: seq<string>, value: string)
    ensures multiset(Without(skills, value))[value] == 0
    ensures forall s :: s != value ==>
              multiset(Without(skills, value))[s] == multiset(skills)[s]
  {
    if skills != [] {
      WithoutCounts(skills[1..], value);
      assert skills == [skills[0]] + skills[1..];
    }
  }

  /** Unchecking a skill that is not in the list changes nothing. */
  lemma {:induction false} WithoutAbsent(skills: seq<string>, value: string)
    requires value !in skills
    ensures Without(skills, value) == skills
  {
    if skills != [] {
      WithoutAbsent(skills[1..], value);
      assert skills == [skills[0]] + skills[1..];
    }
  }

  /** Unchecking undoes checking a skill that was not selected. */
  lemma UncheckUndoesCheck(skills: seq<string>, value: string)
    requires value !in skills
    ensures Toggled(Toggled(skills, value, true), value, false) == skills
  {
    WithoutKeepsOrder(skills, [value], value);
    WithoutAbsent(skills, value);
    assert Without([value], value) == [];
  }

  predicate Distinct(skills: seq<string>)
  {
    forall i, j :: 0 <= i < j < |skills| ==> skills[i] != skills[j]
  }

  lemma {:induction false} WithoutKeepsDistinct(skills: seq<string>, value: string)
    requires Distinct(skills)
    ensures Distinct(Without(skills, value))
  {
    if skills != [] {
      var rest := Without(skills[1..], value);
      WithoutKeepsDistinct(skills[1..], value);
      assert skills[0] !in skills[1..];
      assert skills[0] !in rest;
    }
  }

  /** A checkbox is rendered checked exactly when its skill is selected, so
      a click checks it only when the skill is absent and unchecks it only
      when present; under that discipline no skill is ever listed twice. */
  lemma ToggleKeepsDistinct(skills: seq<string>, value: string, checked: bool)
    requires Distinct(skills)
    requires checked <==> value !in skills
    ensures Distinct(Toggled(skills, value, checked))
  {
    if !checked {
      WithoutKeepsDistinct(skills, value);
    }
  }

  // ---------------------------------------------------------------------------
  // The component
  // ---------------------------------------------------------------------------

  /** What the component shows: the form while nothing is submitted, the
      summary of the submitted application afterwards. */
  datatype Screen = FormScreen | SummaryScreen(lines: seq<Summary.Line>)

  /** The component's state: the skills list, the form's field values and
      the submitted application (`None` while editing). */
  class Form {
    const formats: Formats
    var selectedSkills: seq<string>
    var values: Application
    var submittedData: Option<Application>

    /** The form's skill value mirrors the selected list, and only an
        application the schema accepted is ever submitted. */
    ghost predicate Valid()
      reads this
    {
      && values.additionalSkills == selectedSkills
      && (submittedData.Some? ==> Validate(submittedData.value, formats) == map[])
    }

    constructor (formats: Formats)
      ensures Valid() && this.formats == formats
      ensures selectedSkills == [] && values == EmptyApplication && submittedData == None
    {
      this.formats := formats;
      selectedSkills := [];
      values := EmptyApplication;
      submittedData := None;
    }

    /** A text, number, select or date input changes the fields it controls;
        the skill list is written only by the checkboxes. Inputs exist only
        while the form is shown, that is while nothing is submitted. */
    method Edit(edited: Application)
      requires Valid() && submittedData.None?
      modifies this`values
      ensures Valid()
      ensures values == edited.(additionalSkills := old(values).additionalSkills)
    {
      values := edited.(additionalSkills := values.additionalSkills);
    }

    /** A checkbox change: copy the list, push the skill or filter out every
        copy of it, then store the result both as the selected list and as
        the form's skill value. The checkboxes exist only while the form is
        shown. */
    method ToggleSkill(value: string, checked: bool)
      requires Valid() && submittedData.None?
      modifies this`selectedSkills, this`values
      ensures Valid()
      ensures selectedSkills == Toggled(old(selectedSkills), value, checked)
      ensures values == old(values).(additionalSkills := selectedSkills)
    {
      var updated := selectedSkills;
      if checked {
        updated := updated + [value];
      } else {
        updated := Without(updated, value);
      }
      selectedSkills := updated;
      values := values.(additionalSkills := updated);
    }

    /** The submit button, which exists only while the form is shown: the
        schema checks the form's values; when it reports nothing they become
        the submitted application and the summary replaces the form for good
        (no handler is left that could change the state), otherwise the form
        stays. */
    method Submit() returns (errors: map<Field, string>)
      requires Valid() && submittedData.None?
      modifies this`submittedData
      ensures Valid()
      ensures errors == Validate(values, formats)
      ensures submittedData == if errors == map[] then Some(values) else None
      ensures View() == if errors == map[] then SummaryScreen(Summary.Render(values)) else FormScreen
    {
      errors := Validate(values, formats);
      if errors == map[] {
        submittedData := Some(values);
      }
    }

    /** The form while nothing is submitted, otherwise the summary of the
        submitted application; a summary is only ever shown for an
        application the schema accepted. */
    function View(): (s: Screen)
      reads this
      requires Valid()
      ensures s.FormScreen? <==> submittedData.None?
      ensures s.SummaryScreen? ==>
                exists d :: Validate(d, formats) == map[] && s.lines == Summary.Render(d)
    {
      if submittedData.None? then FormScreen else SummaryScreen(Summary.Render(submittedData.value))
    }
  }

}
