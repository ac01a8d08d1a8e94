/**
  The launcher's entry point: the optional command-line argument is
  classified as a numeric `CHAPTER.SECTION` id or as a name, the id is
  launched, and the program prints either a completion banner or the help
  text with the listing of available exercises.
 */
module Cli {
  import opened Prelude
  import opened Text
  import opened Lister

  /** Which `expect` aborted the program while reading a numeric id. */
  datatype ParseError = InvalidChapter | InvalidSection

  datatype Classified = Id(id: RunId) | Abort(error: ParseError)

  const ChapterMessage := "Period included in input with invalid Chapter ID before period."
  const SectionMessage := "Period included in input with invalid Section ID after period."

  function Message(e: ParseError): string {
    match e
    case InvalidChapter => ChapterMessage
    case InvalidSection => SectionMessage
  }

  /**
    Turns the argument into a run id. Without a `.` it is a name, kept as
    written. With one, the text before the first `.` is the chapter and the
    text between the first and second `.` the section, both parsed as
    `i32`; the chapter is checked first, and anything after a second `.` is
    ignored.
   */
  function Classify(arg: string): (r: Classified)
    ensures '.' !in arg ==> r == Id(Named(arg))
    ensures '.' in arg ==> !(r.Id? && r.id.Named?)
    ensures r == Abort(InvalidChapter) <==> '.' in arg && ParseI32(Split(arg, '.')[0]).None?
    ensures r.Id? && r.id.Numeric? ==>
      ParseI32(Split(arg, '.')[0]) == Some(r.id.chapter) && ParseI32(Split(arg, '.')[1]) == Some(r.id.section)
  {
    if '.' in arg then
      var segments := Split(arg, '.');
      match ParseI32(segments[0])
      case None => Abort(InvalidChapter)
      case Some(chapter) =>
        match ParseI32(segments[1])
        case None => Abort(InvalidSection)
        case Some(section) => Id(Numeric(chapter, section))
    else
      Id(Named(arg))
  }

  /** The first two pieces of `a.b` and of `a.b.rest` are `a` and `b`. */
  lemma LeadingSegments(a: string, b: string, rest: string)
    requires '.' !in a && '.' !in b
    ensures Split(a + "." + b, '.') == [a, b]
    ensures Split(a + "." + b + "." + rest, '.')[..2] == [a, b]
  {
    TwoSegments(a, b);
    ThreeSegments(a, b, rest);
  }

  lemma TwoSegments(a: string, b: string)
    requires '.' !in a && '.' !in b
    ensures Split(a + "." + b, '.') == [a, b]
  {
    assert a + "." + b == a + ['.'] + b;
    SplitCons(a, '.', b);
    assert Split(b, '.') == [b];
  }

  lemma ThreeSegments(a: string, b: string, rest: string)
    requires '.' !in a && '.' !in b
    ensures Split(a + "." + b + "." + rest, '.')[..2] == [a, b]
  {
    var tail := b + ['.'] + rest;
    assert a + "." + b + "." + rest == a + ['.'] + tail;
    SplitCons(a, '.', tail);
    SplitCons(b, '.', rest);
    assert Split(a + "." + b + "." + rest, '.') == [a] + ([b] + Split(rest, '.'));
  }

  /**
    The two leading segments decide the classification: `a.b` and
    `a.b.rest` classify alike, and the result is the pair of parsed segments.
   */
  lemma ClassifySegments(a: string, b: string, rest: string)
    requires '.' !in a && '.' !in b
    ensures Classify(a + "." + b) == Classify(a + "." + b + "." + rest)
    ensures Classify(a + "." + b) ==
      match (ParseI32(a), ParseI32(b))
      case (None, _) => Abort(InvalidChapter)
      case (Some(_), None) => Abort(InvalidSection)
      case (Some(c), Some(s)) => Id(Numeric(c, s))
  {
    var short := a + "." + b;
    var long := a + "." + b + "." + rest;
    assert short[|a|] == '.';
    assert long[|a|] == '.';
    LeadingSegments(a, b, rest);
    var parts := Split(long, '.');
    assert parts[0] == parts[..2][0] && parts[1] == parts[..2][1];
  }

  /** A number printed as `chapter.section` classifies back to that numeric id. */
  lemma ClassifyFormatted(c: i32, s: i32)
    ensures Classify(FormatInt(c as int) + "." + FormatInt(s as int)) == Id(Numeric(c, s))
  {
    FormatParseRoundTrip(c);
    FormatParseRoundTrip(s);
    ClassifySegments(FormatInt(c as int), FormatInt(s as int), "");
  }

  /** An empty segment on either side of the `.` aborts, the chapter side first. */
  lemma ClassifyEmptySegments()
    ensures Classify("1.") == Abort(InvalidSection)
    ensures Classify(".3") == Abort(InvalidChapter)
    ensures Classify(".") == Abort(InvalidChapter)
  {
    MissingSection();
    MissingChapter();
    BarePeriod();
  }

  lemma MissingSection()
    ensures Classify("1.") == Abort(InvalidSection)
  {
    assert ParseI32("1") == Some(1);
    ClassifySegments("1", "", "");
    assert "1" + "." + "" == "1.";
  }

  lemma MissingChapter()
    ensures Classify(".3") == Abort(InvalidChapter)
  {
    ClassifySegments("", "3", "");
    assert "" + "." + "3" == ".3";
  }

  lemma BarePeriod()
    ensures Classify(".") == Abort(InvalidChapter)
  {
    ClassifySegments("", "", "");
    assert "" + "." + "" == ".";
  }

  /** What the program leaves behind: its standard output and the exercises it ran, or an abort. */
  datatype Exit =
    | Completed(stdout: string, ran: seq<Exercise>)
    | Panicked(message: string)

  const Done := "========= DONE ==========\n"

  const NotFoundLine := "ID not found\n"
  const UsageLines := "usage: <arg>\n" + "arg: CHAPTER.SECTION or NAME\n" + "\n" + "Available Options:\n"

  /** The help text: a fixed preamble, then the registry listing, each `println!` ending a line. */
  function Help(reg: Registry): (text: string)
    ensures |text| > |Listing(reg)| + 13
    ensures text[..13] == "ID not found\n"
    ensures text[|text| - |Listing(reg)| - 1..] == Listing(reg) + "\n"
  {
    HelpAround(Listing(reg))
  }

  /** The help preamble followed by the given listing and its line end. */
  function HelpAround(listing: string): (text: string)
    ensures |text| > |listing| + 13
    ensures text[..13] == "ID not found\n"
    ensures text[|text| - |listing| - 1..] == listing + "\n"
  {
    var tail := listing + "\n";
    var text := NotFoundLine + (UsageLines + tail);
    assert |NotFoundLine| == 13;
    assert text[..13] == NotFoundLine;
    assert text[|text| - |tail|..] == tail;
    text
  }

  /**
    The whole program for an optional argument against the start-up
    registry. No argument prints the help and launches nothing; an id that
    cannot be read aborts before anything is launched; otherwise the launch
    happens once, followed by the banner when it succeeded or the help when
    the id was not found.
   */
  function Run(arg: Option<string>): (r: Exit)
    ensures arg.None? ==> r == Completed(Help(New()), [])
    ensures arg.Some? && Classify(arg.value).Abort? ==>
      r == Panicked(Message(Classify(arg.value).error))
    ensures arg.Some? && Classify(arg.value).Id? ==>
      var launch := LaunchId(New(), Classify(arg.value).id);
      r.Completed? && r.ran == launch.ran
      && (launch.result == Ok ==> r.stdout == Done)
      && (launch.result == RunIdNotFound ==> r.stdout == Help(New()))
  {
    var reg := New();
    match arg
    case None => Completed(Help(reg), [])
    case Some(a) =>
      match Classify(a)
      case Abort(e) => Panicked(Message(e))
      case Id(id) =>
        var launch := LaunchId(reg, id);
        match launch.result
        case Ok => Completed(Done, launch.ran)
        case RunIdNotFound => Completed(Help(reg), launch.ran)
  }

  /**
    Every run that completes prints exactly one of the banner and the help,
    and it prints the banner exactly when it ran an exercise.
   */
  lemma BannerOrHelp(arg: Option<string>)
    ensures Run(arg).Completed? ==>
      (Run(arg).stdout == Done) != (Run(arg).stdout == Help(New()))
    ensures Run(arg).Completed? ==>
      (Run(arg).stdout == Done <==> |Run(arg).ran| == 1)
  {
    HelpIsNotDone(New());
    if arg.Some? && Classify(arg.value).Id? {
      var launch := LaunchId(New(), Classify(arg.value).id);
      assert launch.result == Ok ==> |launch.ran| == 1;
      assert launch.result == RunIdNotFound ==> |launch.ran| == 0;
    }
  }

  /** The help text and the banner differ already in their first character. */
  lemma HelpIsNotDone(reg: Registry)
    ensures Help(reg) != Done
  {
    var help := Help(reg);
    assert help[..13][0] == 'I';
    assert help[0] != Done[0];
  }

  /** Each registered exercise runs, alone, from its `chapter.section` argument. */
  lemma RunRegisteredByNumber(k: nat)
    requires k < 5
    ensures Run(Some(FormatInt(New()[k].chapter as int) + "." + FormatInt(New()[k].section as int)))
      == Completed(Done, [New()[k]])
  {
    var e := New()[k];
    ClassifyFormatted(e.chapter, e.section);
    LaunchNewByEitherId(k);
  }

  /** Each registered exercise runs, alone, from its name. */
  lemma RunRegisteredByName(k: nat)
    requires k < 5
    ensures Run(Some(New()[k].name)) == Completed(Done, [New()[k]])
  {
    var e := New()[k];
    NamesArePlain(k);
    LaunchNewByEitherId(k);
  }

  /** The camera exercise cannot be run: both `1.8` and `camera` print the help. */
  lemma CameraPrintsHelp()
    ensures Run(Some("1.8")) == Completed(Help(New()), [])
    ensures Run(Some("camera")) == Completed(Help(New()), [])
  {
    ClassifyCameraIds();
    CameraNotLaunchable();
  }

  /** Both ways of naming the camera exercise read as well-formed ids. */
  lemma ClassifyCameraIds()
    ensures Classify("1.8") == Id(Numeric(1, 8))
    ensures Classify("camera") == Id(Named("camera"))
  {
    ClassifyCameraNumber();
    ClassifyCameraName();
  }

  lemma ClassifyCameraNumber()
    ensures Classify("1.8") == Id(Numeric(1, 8))
  {
    ClassifyTwoDigits('1', '8');
    assert ['1'] + "." + ['8'] == "1.8";
  }

  /** `c.s` for two digits is the numeric id of their values. */
  lemma ClassifyTwoDigits(c: char, s: char)
    requires IsDigit(c) && IsDigit(s)
    ensures Classify([c] + "." + [s]) == Id(Numeric(DigitValue(c) as i32, DigitValue(s) as i32))
  {
    OneDigitParses(c);
    OneDigitParses(s);
    ClassifySegments([c], [s], "");
  }

  lemma ClassifyCameraName()
    ensures Classify("camera") == Id(Named("camera"))
  {
    CameraNameIsPlain();
  }

  lemma CameraNameIsPlain()
    ensures '.' !in "camera"
  {
    var name := "camera";
    forall i | 0 <= i < |name|
      ensures name[i] != '.'
    {
      assert 'a' <= name[i] <= 'r';
    }
  }

  /** A single ASCII digit parses to its value. */
  lemma OneDigitParses(ch: char)
    requires IsDigit(ch)
    ensures ParseI32([ch]) == Some(DigitValue(ch) as i32)
  {
    assert [ch][..0] == "";
    assert AllDigits([ch]) && DigitsValue([ch]) == DigitValue(ch);
  }

}
