/** The two line formatters (formaters.ts). `toISOString` and `JSON.stringify`
    are library calls: they are parameters (`isoDate`, `stringify`). */
module Formaters {
  import opened Common
  import opened Text
  import Loggers

  const RED := "\U{1B}[31m"
  const GREY := "\U{1B}[90m"
  const RESET := "\U{1B}[0m"
  const ORANGE := "\U{1B}[38;5;208m"
  const LIGHT_BLUE := "\U{1B}[96m"

  /** Width of the title column. */
  const TITLE_WIDTH := 50

  /** The level column of the plain format. */
  function Tag(l: LogLevel): (r: string)
    ensures |r| == 5
  {
    match l
    case Error => "ERROR"
    case Warn => "WARN "
    case Info => "INFO "
    case Spam => "SPAM "
  }

  /** Reads a level back from its plain tag. */
  function LevelOfTag(s: string): Option<LogLevel> {
    if s == "ERROR" then Some(Error)
    else if s == "WARN " then Some(Warn)
    else if s == "INFO " then Some(Info)
    else if s == "SPAM " then Some(Spam)
    else None
  }

  /** Every tag is the level's name padded to five columns, and can be read
      back: the four tags are distinct and equally wide. */
  lemma TagsAreAlignedNames(l: LogLevel)
    ensures Tag(l) == PadEnd(Loggers.LevelName(l), 5, ' ')
    ensures LevelOfTag(Tag(l)) == Some(l)
  {
    var n := Loggers.LevelName(l);
    if |n| < 5 {
      assert PadEnd(n, 5, ' ') == n + [' '];
    }
  }

  /** `(entry.title || "").padEnd(50, " ")`. */
  function TitleColumn(title: Option<string>): (r: string)
    ensures |r| == Max(|title.GetOr("")|, TITLE_WIDTH)
    ensures r[..|title.GetOr("")|] == title.GetOr("")
    ensures forall i :: |title.GetOr("")| <= i < |r| ==> r[i] == ' '
  {
    PadEnd(title.GetOr(""), TITLE_WIDTH, ' ')
  }

  /** A missing title is a column of fifty spaces. */
  lemma MissingTitleIsBlank()
    ensures TitleColumn(None) == Repeat(' ', TITLE_WIDTH)
  {
    assert TitleColumn(None) == "" + Repeat(' ', TITLE_WIDTH);
  }

  /** `entry.data ? JSON.stringify(entry.data) : ""`. */
  function DataText(d: Option<Data>, stringify: Data -> string): (r: string)
    ensures !Truthy(d) ==> r == ""
    ensures Truthy(d) ==> r == stringify(d.value)
  {
    if Truthy(d) then stringify(d.value) else ""
  }

  /** `formater_dateTypeTitleSourceData`. */
  function DateTypeTitleSourceData(e: LogEntry, isoDate: int -> string, stringify: Data -> string): string {
    isoDate(e.date) + " - " + Tag(e.level) + " - " + TitleColumn(e.title)
      + e.logger + " |>" + DataText(e.data, stringify)
  }

  /** The layout of a plain line: the date, the five-wide tag at a fixed
      offset after it, the title column starting at the same offset for every
      level and at least fifty wide, then the logger name, `" |>"` and the
      data text. The level can be read back from the line. */
  lemma PlainLineLayout(e: LogEntry, isoDate: int -> string, stringify: Data -> string)
    ensures var line := DateTypeTitleSourceData(e, isoDate, stringify);
      var d := |isoDate(e.date)|;
      var t := TitleColumn(e.title);
      && |line| == d + 11 + |t| + |e.logger| + 3 + |DataText(e.data, stringify)|
      && line[..d] == isoDate(e.date)
      && line[d..d + 3] == " - " && line[d + 8..d + 11] == " - "
      && LevelOfTag(line[d + 3..d + 8]) == Some(e.level)
      && line[d + 11..d + 11 + |t|] == t && |t| >= TITLE_WIDTH
      && line[d + 11 + |t|..] == e.logger + " |>" + DataText(e.data, stringify)
  {
    var date := isoDate(e.date);
    var t := TitleColumn(e.title);
    var rest := e.logger + " |>" + DataText(e.data, stringify);
    var line := DateTypeTitleSourceData(e, isoDate, stringify);
    var d := |date|;
    assert line == date + " - " + Tag(e.level) + " - " + t + rest;
    assert line[d + 3..d + 8] == Tag(e.level);
    TagsAreAlignedNames(e.level);
  }

  /** The lower-case level column of the coloured format. */
  function ColoredTag(l: LogLevel): (r: string)
    ensures |r| == 5
  {
    match l
    case Error => "error"
    case Warn => "warn "
    case Info => "info "
    case Spam => "spam "
  }

  function Color(l: LogLevel): string {
    match l
    case Error => RED
    case Warn => ORANGE
    case Info => LIGHT_BLUE
    case Spam => GREY
  }

  function LowerChar(c: char): char {
    if 'A' <= c <= 'Z' then (c as int + 32) as char else c
  }

  function LowerCase(s: string): (r: string)
    ensures |r| == |s|
  {
    seq(|s|, i requires 0 <= i < |s| => LowerChar(s[i]))
  }

  /** The coloured tag is the plain tag in lower case, and each level has its
      own colour. */
  lemma ColoredTagsFollowPlainTags(a: LogLevel, b: LogLevel)
    ensures ColoredTag(a) == LowerCase(Tag(a))
    ensures a != b ==> Color(a) != Color(b)
  {
  }

  /** `formater_typeTitleSourceData_colored`. */
  function TypeTitleSourceDataColored(e: LogEntry, stringify: Data -> string): string {
    Color(e.level) + ColoredTag(e.level) + RESET + " - " + TitleColumn(e.title)
      + GREY + e.logger + " " + DataText(e.data, stringify) + RESET
  }

  /** The layout of a coloured line: the level's colour, its tag and a
      reset, the title column, then the logger name and the data text joined
      by one space, in grey, closed by a reset. */
  lemma ColoredLineLayout(e: LogEntry, stringify: Data -> string)
    ensures var line := TypeTitleSourceDataColored(e, stringify);
      var c := |Color(e.level)|;
      var t := TitleColumn(e.title);
      var body := e.logger + " " + DataText(e.data, stringify);
      && line[..c] == Color(e.level)
      && line[c..c + 5] == ColoredTag(e.level)
      && line[c + 5..c + 9] == RESET && line[c + 9..c + 12] == " - "
      && line[c + 12..c + 12 + |t|] == t
      && line[c + 12 + |t|..] == GREY + body + RESET
      && line[|line| - |RESET|..] == RESET
  {
    var t := TitleColumn(e.title);
    var body := e.logger + " " + DataText(e.data, stringify);
    var line := TypeTitleSourceDataColored(e, stringify);
    assert line == Color(e.level) + ColoredTag(e.level) + RESET + " - " + t + (GREY + body + RESET);
  }
}
