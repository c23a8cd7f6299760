/** Normalisation of one feed entry before ingestion. The parser reads the
    title, the link, the description and the publication time, in that
    order, and fails with an attribute error at the first one that is
    missing; only the description has a fallback (the Atom `summary`, then
    the empty string). Markup stripping and the conversion of a time tuple
    to a time stamp are library calls and arrive as parameters. */
module PostParser {
  import opened Common

  /** A feed entry as the feed library delivers it; an absent attribute is `None`. */
  datatype Entry = Entry(title: Option<string>, link: Option<string>, description: Option<string>,
                         summary: Option<string>, published: Option<seq<int>>)

  /** The parser's only failure: an attribute error with its message. */
  datatype ParseError = AttributeError(message: string)

  /** A normalised entry; `published` is in minutes. */
  datatype Parsed = Parsed(title: string, link: string, description: string, published: int)

  /** The message of the error raised when the time tuple is missing (spelled as in the source). */
  const NoDatetime: string := "No pubished datetime provided"

  /** The message of the error raised when the time tuple cannot be converted. */
  const BadDatetime: string := "Unable to parse datetime"

  /** The time-tuple converter accepts exactly the nine-field tuples; any
      other shape is the type error the parser turns into an attribute error. */
  predicate WellFormedTime(t: seq<int>) {
    |t| == 9
  }

  /** A present, non-empty attribute (Python truthiness of a string). */
  predicate Given(a: Option<string>) {
    a.Some? && a.value != ""
  }

  /** The title, which must be present and non-empty. */
  function GetTitle(e: Entry): (r: Result<string, ParseError>)
    ensures r.Ok? <==> Given(e.title)
    ensures r.Ok? ==> r.value == e.title.value
    ensures r.Err? ==> r.error == AttributeError("")
  {
    if Given(e.title) then Ok(e.title.value) else Err(AttributeError(""))
  }

  /** The link, which must be present and non-empty. */
  function GetLink(e: Entry): (r: Result<string, ParseError>)
    ensures r.Ok? <==> Given(e.link)
    ensures r.Ok? ==> r.value == e.link.value
    ensures r.Err? ==> r.error == AttributeError("")
  {
    if Given(e.link) then Ok(e.link.value) else Err(AttributeError(""))
  }

  /** The text of the RSS description, else of the Atom summary, else "". */
  function GetDescription(e: Entry, getText: string -> string): (d: string)
    ensures Given(e.description) ==> d == getText(e.description.value)
    ensures !Given(e.description) && Given(e.summary) ==> d == getText(e.summary.value)
    ensures !Given(e.description) && !Given(e.summary) ==> d == ""
  {
    if Given(e.description) then getText(e.description.value)
    else if Given(e.summary) then getText(e.summary.value)
    else ""
  }

  /** The publication time; missing and malformed tuples are distinct errors of the same kind. */
  function GetDatetime(e: Entry, mktime: seq<int> -> int): (r: Result<int, ParseError>)
    ensures r.Ok? <==> e.published.Some? && WellFormedTime(e.published.value)
    ensures r.Ok? ==> r.value == mktime(e.published.value)
    ensures e.published.None? ==> r == Err(AttributeError(NoDatetime))
    ensures e.published.Some? && !WellFormedTime(e.published.value) ==> r == Err(AttributeError(BadDatetime))
  {
    match e.published
    case None => Err(AttributeError(NoDatetime))
    case Some(t) => if WellFormedTime(t) then Ok(mktime(t)) else Err(AttributeError(BadDatetime))
  }

  /** The parser's constructor: every getter in order, the first failure wins. */
  function Parse(e: Entry, getText: string -> string, mktime: seq<int> -> int): (r: Result<Parsed, ParseError>)
    ensures r.Ok? <==> Given(e.title) && Given(e.link) && e.published.Some? && WellFormedTime(e.published.value)
    ensures r.Ok? ==> r.value.title == e.title.value && r.value.link == e.link.value
    ensures r.Ok? ==> r.value.description == GetDescription(e, getText)
    ensures r.Ok? ==> r.value.published == mktime(e.published.value)
    ensures !Given(e.title) ==> r == Err(AttributeError(""))
    ensures Given(e.title) && !Given(e.link) ==> r == Err(AttributeError(""))
    ensures Given(e.title) && Given(e.link) && e.published.None? ==> r == Err(AttributeError(NoDatetime))
  {
    match GetTitle(e)
    case Err(err) => Err(err)
    case Ok(title) =>
      match GetLink(e)
      case Err(err) => Err(err)
      case Ok(link) =>
        var description := GetDescription(e, getText);
        match GetDatetime(e, mktime)
        case Err(err) => Err(err)
        case Ok(published) => Ok(Parsed(title, link, description, published))
  }

  /** Whatever the description and summary hold, they never decide whether an entry parses. */
  lemma DescriptionNeverFails(e: Entry, d: Option<string>, s: Option<string>,
                              getText: string -> string, mktime: seq<int> -> int)
    ensures Parse(e, getText, mktime).Ok? == Parse(e.(description := d, summary := s), getText, mktime).Ok?
  {
  }

  /** An RSS description takes precedence over an Atom summary. */
  lemma DescriptionBeforeSummary(e: Entry, getText: string -> string)
    requires Given(e.description)
    ensures GetDescription(e, getText) == GetDescription(e.(summary := None), getText)
  {
  }
}
