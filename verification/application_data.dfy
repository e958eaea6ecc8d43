/**
 * The application record shared by the form and the summary: the values the
 * form store holds for each field, after the validator's casts.
 */
module ApplicationData {

  import opened Wrappers

  /** A number-typed field: not entered at all, entered but not a number
      (the cast produced NaN), or a number. Reals, so that 0.5 years exists. */
  datatype Number = Absent | NotANumber | Num(value: real)

  /** One application. A text field is `None` until the user types in it;
      clearing an input leaves `Some("")`. Skills start as the empty list. */
  datatype Application = Application(
    fullName: Option<string>,
    email: Option<string>,
    phoneNumber: Number,
    position: Option<string>,
    relevantExperience: Number,
    portfolioUrl: Option<string>,
    managementExperience: Number,
    additionalSkills: seq<string>,
    preferredInterviewTime: Option<string>)

  /** The well-formedness tests the validation library applies to strings:
      its e-mail pattern, its URL pattern and its date parser. They are not
      modelled; the validator receives them as parameters. */
  datatype Formats = Formats(
    isEmail: string -> bool,
    isUrl: string -> bool,
    isDate: string -> bool)

  /** The three values the position `<select>` offers besides "Select...". */
  const Developer := "Developer"
  const Designer := "Designer"
  const Manager := "Manager"

  /** The positions that have a relevant-experience field: the condition
      both of the schema's `when` and of the summary's paragraph. */
  predicate DeveloperOrDesigner(position: Option<string>)
  {
    position == Some(Developer) || position == Some(Designer)
  }

  /** The form's default values: only the skill list is initialised. */
  const EmptyApplication := Application(None, None, Absent, None, Absent, None, Absent, [], None)

}
