/**
 * The read-only summary shown after a successful submission: a fixed list of
 * labelled paragraphs, three of which depend on the position applied for.
 */
module Summary {

  import opened Wrappers
  import opened ApplicationData

  /** What the value slot of one paragraph renders. */
  datatype Shown =
    | Text(text: Option<string>)        // a string; `undefined` renders nothing
    | Amount(amount: Number)            // a number as the validator cast it
    | LocaleTime(raw: Option<string>)   // the locale-formatted date, not modelled further

  /** One paragraph: a bold title, the value, and text after the value. */
  datatype Line = Line(title: Title, value: Shown, suffix: string)
  // The bold title renders as `title.Caption()` followed by a colon.

  /** The bold titles of the paragraphs, in the order the summary shows them. */
  datatype Title =
    | FullNameLabel | EmailLabel | PhoneLabel | PositionLabel
    | RelevantLabel | PortfolioLabel | ManagementLabel
    | SkillsLabel | TimeLabel
  {
    /** The text the title renders as. */
    function Caption(): string
    {
      match this
      case FullNameLabel => "Full Name"
      case EmailLabel => "Email"
      case PhoneLabel => "Phone Number"
      case PositionLabel => "Position Applied"
      case RelevantLabel => "Relevant Experience"
      case PortfolioLabel => "Portfolio URL"
      case ManagementLabel => "Management Experience"
      case SkillsLabel => "Additional Skills"
      case TimeLabel => "Preferred Interview Time"
    }
  }

  /** Different titles render as different text, so a reader of the page
      tells the paragraphs apart by their bold labels alone. */
  lemma CaptionsDistinct(t: Title, u: Title)
    requires t != u
    ensures t.Caption() != u.Caption()
  {
    assert |t.Caption()| != |u.Caption()|;
  }

  /** The separator the skills are joined with. */
  const SkillSeparator := ", "

  /** The titles of the paragraphs, in order. */
  function Titles(lines: seq<Line>): (ts: seq<Title>)
    ensures |ts| == |lines|
    ensures forall i :: 0 <= i < |lines| ==> ts[i] == lines[i].title
  {
    seq(|lines|, i requires 0 <= i < |lines| => lines[i].title)
  }

  predicate HasLine(lines: seq<Line>, title: Title)
  {
    title in Titles(lines)
  }

  /** `xs.join(sep)`: the elements with `sep` between neighbours. A single
      element is shown as it is, and the first element starts the text. */
  function Join(xs: seq<string>, sep: string): (s: string)
    ensures |xs| == 1 ==> s == xs[0]
    ensures xs != [] ==> xs[0] <= s
  {
    if |xs| == 0 then ""
    else if |xs| == 1 then xs[0]
    else xs[0] + sep + Join(xs[1..], sep)
  }

  /** The reference reading of `Array.prototype.join` in ECMAScript: start
      from the empty string and, element by element from the left, append
      the separator (except before the first) and then the element. */
  function JoinFromLeft(xs: seq<string>, sep: string): string
  {
    if |xs| == 0 then ""
    else if |xs| == 1 then xs[0]
    else JoinFromLeft(xs[..|xs| - 1], sep) + sep + xs[|xs| - 1]
  }

  /** Total length of the joined strings. */
  function TotalLength(xs: seq<string>): nat
  {
    if xs == [] then 0 else |xs[0]| + TotalLength(xs[1..])
  }

  /** Appending one more element adds one separator and the element. */
  lemma {:induction false} JoinSnoc(xs: seq<string>, y: string, sep: string)
    requires xs != []
    ensures Join(xs + [y], sep) == Join(xs, sep) + sep + y
  {
    if |xs| == 1 {
      assert xs + [y] == [xs[0], y];
      assert [xs[0], y][1..] == [y];
    } else {
      assert (xs + [y])[1..] == xs[1..] + [y];
      JoinSnoc(xs[1..], y, sep);
    }
  }

  /** The recursive join agrees with the left-to-right reference. */
  lemma {:induction false} JoinMatchesReference(xs: seq<string>, sep: string)
    ensures Join(xs, sep) == JoinFromLeft(xs, sep)
    decreases |xs|
  {
    if |xs| > 1 {
      var init := xs[..|xs| - 1];
      JoinMatchesReference(init, sep);
      JoinSnoc(init, xs[|xs| - 1], sep);
      assert init + [xs[|xs| - 1]] == xs;
    }
  }

  /** n skills produce n - 1 separators and nothing else besides the skills. */
  lemma {:induction false} JoinLength(xs: seq<string>, sep: string)
    requires xs != []
    ensures |Join(xs, sep)| == TotalLength(xs) + (|xs| - 1) * |sep|
  {
    if |xs| > 1 {
      JoinLength(xs[1..], sep);
    } else {
      assert xs[1..] == [];
    }
  }

  /** The last skill ends the text. */
  lemma {:induction false} JoinEnds(xs: seq<string>, sep: string)
    requires xs != []
    ensures |xs[|xs| - 1]| <= |Join(xs, sep)|
    ensures Join(xs, sep)[|Join(xs, sep)| - |xs[|xs| - 1]|..] == xs[|xs| - 1]
  {
    if |xs| > 1 {
      JoinEnds(xs[1..], sep);
      var rest := Join(xs[1..], sep);
      assert Join(xs, sep) == (xs[0] + sep) + rest;
    }
  }

  /** The titles the summary shows for a position, in order: four always,
      then Relevant Experience for developers and designers, Portfolio URL
      for designers, Management Experience for managers, then two more. */
  function ExpectedTitles(position: Option<string>): (ts: seq<Title>)
    ensures 6 <= |ts| <= 8
    ensures ts[..4] == [FullNameLabel, EmailLabel, PhoneLabel, PositionLabel]
    ensures ts[|ts| - 2..] == [SkillsLabel, TimeLabel]
    ensures RelevantLabel in ts <==> DeveloperOrDesigner(position)
    ensures PortfolioLabel in ts <==> position == Some(Designer)
    ensures ManagementLabel in ts <==> position == Some(Manager)
  {
    [FullNameLabel, EmailLabel, PhoneLabel, PositionLabel]
    + (if DeveloperOrDesigner(position) then [RelevantLabel] else [])
    + (if position == Some(Designer) then [PortfolioLabel] else [])
    + (if position == Some(Manager) then [ManagementLabel] else [])
    + [SkillsLabel, TimeLabel]
  }

  /** What the paragraph with a given title shows for an application: that
      title, and " years" after the value only for relevant experience. */
  function LineFor(d: Application, t: Title): (l: Line)
    ensures l.title == t
    ensures l.suffix == if t == RelevantLabel then " years" else ""
  {
    match t
    case FullNameLabel => Line(t, Text(d.fullName), "")
    case EmailLabel => Line(t, Text(d.email), "")
    case PhoneLabel => Line(t, Amount(d.phoneNumber), "")
    case PositionLabel => Line(t, Text(d.position), "")
    case RelevantLabel => Line(t, Amount(d.relevantExperience), " years")
    case PortfolioLabel => Line(t, Text(d.portfolioUrl), "")
    case ManagementLabel => Line(t, Amount(d.managementExperience), "")
    case SkillsLabel => Line(t, Text(Some(Join(d.additionalSkills, SkillSeparator))), "")
    case TimeLabel => Line(t, LocaleTime(d.preferredInterviewTime), "")
  }

  /** `{show && <p>...</p>}`: the paragraph when its condition holds, nothing otherwise. */
  function When(show: bool, line: Line): seq<Line>
  {
    if show then [line] else []
  }

  /** Every paragraph shows the field its title names. */
  predicate ShowsOwnField(d: Application, lines: seq<Line>)
  {
    forall i :: 0 <= i < |lines| ==> lines[i] == LineFor(d, lines[i].title)
  }

  lemma TitlesConcat(a: seq<Line>, b: seq<Line>)
    ensures Titles(a + b) == Titles(a) + Titles(b)
  {
  }

  lemma ShowsOwnFieldConcat(d: Application, a: seq<Line>, b: seq<Line>)
    requires ShowsOwnField(d, a) && ShowsOwnField(d, b)
    ensures ShowsOwnField(d, a + b)
  {
    forall i | 0 <= i < |a + b| ensures (a + b)[i] == LineFor(d, (a + b)[i].title) {
      if i >= |a| { assert (a + b)[i] == b[i - |a|]; }
    }
  }

  /** The summary's paragraphs, in the order the component writes them. */
  function Render(d: Application): (lines: seq<Line>)
    ensures Titles(lines) == ExpectedTitles(d.position)
    ensures ShowsOwnField(d, lines)
  {
    var head := [LineFor(d, FullNameLabel), LineFor(d, EmailLabel),
                 LineFor(d, PhoneLabel), LineFor(d, PositionLabel)];
    var relevant := When(DeveloperOrDesigner(d.position), LineFor(d, RelevantLabel));
    var portfolio := When(d.position == Some(Designer), LineFor(d, PortfolioLabel));
    var management := When(d.position == Some(Manager), LineFor(d, ManagementLabel));
    var tail := [LineFor(d, SkillsLabel), LineFor(d, TimeLabel)];
    assert Titles(head) == [FullNameLabel, EmailLabel, PhoneLabel, PositionLabel];
    assert Titles(relevant) == if DeveloperOrDesigner(d.position) then [RelevantLabel] else [];
    assert Titles(portfolio) == if d.position == Some(Designer) then [PortfolioLabel] else [];
    assert Titles(management) == if d.position == Some(Manager) then [ManagementLabel] else [];
    assert Titles(tail) == [SkillsLabel, TimeLabel];
    TitlesConcat(head, relevant);
    TitlesConcat(head + relevant, portfolio);
    TitlesConcat(head + relevant + portfolio, management);
    TitlesConcat(head + relevant + portfolio + management, tail);
    ShowsOwnFieldConcat(d, head, relevant);
    ShowsOwnFieldConcat(d, head + relevant, portfolio);
    ShowsOwnFieldConcat(d, head + relevant + portfolio, management);
    ShowsOwnFieldConcat(d, head + relevant + portfolio + management, tail);
    head + relevant + portfolio + management + tail
  }

  /** Full Name, Email, Phone Number and Position Applied always open the
      summary in that order; the Relevant Experience paragraph is there
      exactly for developers and designers, Portfolio URL exactly for
      designers and Management Experience exactly for managers, so the
      last never appears with either of the other two. */
  lemma PositionDecidesLines(d: Application)
    ensures Render(d)[..4] == [LineFor(d, FullNameLabel), LineFor(d, EmailLabel),
                               LineFor(d, PhoneLabel), LineFor(d, PositionLabel)]
    ensures HasLine(Render(d), RelevantLabel) <==> DeveloperOrDesigner(d.position)
    ensures HasLine(Render(d), PortfolioLabel) <==> d.position == Some(Designer)
    ensures HasLine(Render(d), ManagementLabel) <==> d.position == Some(Manager)
    ensures HasLine(Render(d), ManagementLabel) ==>
              !HasLine(Render(d), PortfolioLabel) && !HasLine(Render(d), RelevantLabel)
  {
  }

  /** A position outside the three known values shows none of the three
      conditional paragraphs. */
  lemma UnknownPositionShowsUniversalLinesOnly(d: Application)
    requires d.position !in {Some(Developer), Some(Designer), Some(Manager)}
    ensures Titles(Render(d)) == [FullNameLabel, EmailLabel, PhoneLabel, PositionLabel, SkillsLabel, TimeLabel]
  {
  }

}
