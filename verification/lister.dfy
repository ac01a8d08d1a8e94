/**
  The exercise registry of the launcher: each exercise exposes a chapter, a
  section and a name (the `Runner` capability set), the registry is an
  ordered list of them, and an exercise is launched by numeric id or by
  exact name. Running an exercise opens a window and draws; here a run is
  only recorded, in the run log of the launch.
 */
module Lister {
  import opened Prelude
  import opened Text

  /** One runnable exercise, identified by its chapter, section and name. */
  datatype Exercise = Exercise(chapter: i32, section: i32, name: string)

  /** The ways a user can identify the exercise to launch. */
  datatype RunId =
    | Numeric(chapter: i32, section: i32)
    | Named(name: string)

  /** Whether the error `RunIDNotFound` was returned. */
  datatype LaunchResult = Ok | RunIdNotFound

  /** The result of a launch together with the exercises it ran, in order. */
  datatype Launch = Launch(result: LaunchResult, ran: seq<Exercise>)

  type Registry = seq<Exercise>

  // The exercises defined in the repository, with their metadata.
  const CreatingAWindow := Exercise(1, 1, "creating a window")
  const HelloWindow := Exercise(1, 2, "hello window")
  const HelloTriangle := Exercise(1, 3, "hello triangle")
  const ShaderExercise := Exercise(1, 4, "shader")
  const Textures := Exercise(1, 5, "textures")
  /** Defined, but left out of the registry. */
  const CameraExercise := Exercise(1, 8, "camera")

  /** The registry the launcher builds at start-up. */
  function New(): (reg: Registry)
    ensures |reg| == 5
    ensures forall i :: 0 <= i < |reg| ==> reg[i].chapter == 1 && reg[i].section as int == i + 1
  {
    [CreatingAWindow, HelloWindow, HelloTriangle, ShaderExercise, Textures]
  }

  /** Whether exercise `e` is the one `id` designates: same chapter and section, or exactly the same name. */
  predicate Matches(e: Exercise, id: RunId) {
    match id
    case Numeric(c, s) => e.chapter == c && e.section == s
    case Named(n) => e.name == n
  }

  /**
    Launches the first exercise in registry order that `id` designates and
    reports Ok, or runs nothing and reports RunIdNotFound.
   */
  function LaunchId(reg: Registry, id: RunId): (r: Launch)
    ensures r.result == Ok <==> exists i :: 0 <= i < |reg| && Matches(reg[i], id)
    ensures r.result == Ok ==>
      exists k :: 0 <= k < |reg| && Matches(reg[k], id) && r.ran == [reg[k]]
        && forall j :: 0 <= j < k ==> !Matches(reg[j], id)
    ensures r.result == RunIdNotFound ==> r.ran == []
  {
    match FindFirst(reg, (e: Exercise) => Matches(e, id))
    case Some(k) => Launch(Ok, [reg[k]])
    case None => Launch(RunIdNotFound, [])
  }

  /** Every launch runs at most one exercise, and runs one exactly when it reports Ok. */
  lemma LaunchRunsAtMostOnce(reg: Registry, id: RunId)
    ensures |LaunchId(reg, id).ran| <= 1
    ensures |LaunchId(reg, id).ran| == 1 <==> LaunchId(reg, id).result == Ok
  {
  }

  /** No two registered exercises share a numeric id, and no two share a name. */
  predicate Distinct(reg: Registry) {
    forall i, j :: 0 <= i < j < |reg| ==>
      (reg[i].chapter, reg[i].section) != (reg[j].chapter, reg[j].section) && reg[i].name != reg[j].name
  }

  /** In the start-up registry the ids and names are pairwise distinct. */
  lemma NewIsDistinct()
    ensures Distinct(New())
  {
  }

  /** No registered name contains a `.` or a line break. */
  lemma NamesArePlain(k: nat)
    requires k < |New()|
    ensures '.' !in New()[k].name && '\n' !in New()[k].name
  {
    var n := New()[k].name;
    forall i | 0 <= i < |n|
      ensures n[i] != '.' && n[i] != '\n'
    {
      assert ' ' <= n[i] <= 'z' && n[i] != '.' by {
        if k == 0 {
          assert n == "creating a window";
        }
      }
    }
  }

  /** With distinct ids and names, any exercise the id designates is the one launched. */
  lemma LaunchDistinct(reg: Registry, id: RunId, k: nat)
    requires Distinct(reg)
    requires k < |reg| && Matches(reg[k], id)
    ensures LaunchId(reg, id) == Launch(Ok, [reg[k]])
  {
    var p := (e: Exercise) => Matches(e, id);
    forall i, j | 0 <= i < j < |reg| && p(reg[i])
      ensures !p(reg[j])
    {
      match id
      case Numeric(c, s) =>
        assert (reg[i].chapter, reg[i].section) != (reg[j].chapter, reg[j].section);
      case Named(n) =>
        assert reg[i].name != reg[j].name;
    }
    FindFirstUnique(reg, p, k);
  }

  /** Every registered exercise is launched by its numeric id and by its name. */
  lemma LaunchNewByEitherId(k: nat)
    requires k < |New()|
    ensures LaunchId(New(), Numeric(New()[k].chapter, New()[k].section)) == Launch(Ok, [New()[k]])
    ensures LaunchId(New(), Named(New()[k].name)) == Launch(Ok, [New()[k]])
  {
    NewIsDistinct();
    LaunchDistinct(New(), Numeric(New()[k].chapter, New()[k].section), k);
    LaunchDistinct(New(), Named(New()[k].name), k);
  }

  /** The camera exercise is not registered, so neither of its ids launches anything. */
  lemma CameraNotLaunchable()
    ensures LaunchId(New(), Numeric(1, 8)) == Launch(RunIdNotFound, [])
    ensures LaunchId(New(), Named("camera")) == Launch(RunIdNotFound, [])
  {
    var reg := New();
    forall i | 0 <= i < |reg|
      ensures !Matches(reg[i], Named("camera"))
    {
      assert reg[i].name != "camera" by {
        assert |reg[i].name| != 6 || reg[i].name[0] != 'c';
      }
    }
  }

  /** Name lookup is exact: a name differing only in letter case is not found. */
  lemma NameLookupIsCaseSensitive()
    ensures LaunchId(New(), Named("Shader")).result == RunIdNotFound
    ensures LaunchId(New(), Named("shader")).result == Ok
  {
    var reg := New();
    forall i | 0 <= i < |reg|
      ensures !Matches(reg[i], Named("Shader"))
    {
      assert reg[i].name != "Shader" by {
        assert |reg[i].name| != 6 || reg[i].name[0] != 'S';
      }
    }
    assert Matches(reg[3], Named("shader"));
  }

  /** The three comma-separated fields of a listing line. */
  function ChapterField(e: Exercise): string {
    "Ch: " + FormatInt(e.chapter as int)
  }

  function SectionField(e: Exercise): string {
    " S: " + FormatInt(e.section as int)
  }

  function NameField(e: Exercise): string {
    " Name: \"" + e.name + "\""
  }

  /** One line of the listing: `Ch: {chapter}, S: {section}, Name: "{name}"`. */
  function Describe(e: Exercise): (line: string)
    ensures '\n' !in e.name ==> '\n' !in line
  {
    LineHasNoBreak(e);
    ChapterField(e) + "," + (SectionField(e) + "," + NameField(e))
  }

  /** A line break absent from the name is absent from the whole line. */
  lemma LineHasNoBreak(e: Exercise)
    ensures '\n' !in e.name ==> '\n' !in ChapterField(e) + "," + (SectionField(e) + "," + NameField(e))
  {
    if '\n' !in e.name {
      FieldsFree(e, '\n');
      var c := '\n';
      FreeConcat(SectionField(e), ",", c);
      FreeConcat(SectionField(e) + ",", NameField(e), c);
      FreeConcat(ChapterField(e), ",", c);
      FreeConcat(ChapterField(e) + ",", SectionField(e) + "," + NameField(e), c);
    }
  }

  /** A character absent from the name and from the fixed text is absent from every field. */
  lemma FieldsFree(e: Exercise, c: char)
    requires c !in e.name && c !in "Ch: " && c !in " S: " && c !in " Name: \"" && c !in FormatInt(e.chapter as int)
      && c !in FormatInt(e.section as int)
    ensures c !in ChapterField(e) && c !in SectionField(e) && c !in NameField(e)
  {
    FreeConcat("Ch: ", FormatInt(e.chapter as int), c);
    FreeConcat(" S: ", FormatInt(e.section as int), c);
    FreeConcat(" Name: \"", e.name, c);
    FreeConcat(" Name: \"" + e.name, "\"", c);
  }

  function DescribeAll(reg: Registry): (lines: seq<string>)
    ensures |lines| == |reg|
    ensures forall i :: 0 <= i < |reg| ==> lines[i] == Describe(reg[i])
  {
    seq(|reg|, i requires 0 <= i < |reg| => Describe(reg[i]))
  }

  /**
    The registry's `Display`: one description per exercise, joined by
    newlines, none trailing. Read back line by line it gives, in registry
    order, one description per exercise, provided no name spans lines.
   */
  function Listing(reg: Registry): (text: string)
    ensures |reg| == 0 ==> text == ""
    ensures |reg| >= 1 && (forall i :: 0 <= i < |reg| ==> '\n' !in reg[i].name) ==>
      Split(text, '\n') == DescribeAll(reg)
  {
    JoinReadsBack(DescribeAll(reg), '\n');
    Join(DescribeAll(reg), "\n")
  }

  lemma FieldsHaveNoComma(e: Exercise)
    requires ',' !in e.name
    ensures ',' !in ChapterField(e) && ',' !in SectionField(e) && ',' !in NameField(e)
  {
    FieldsFree(e, ',');
  }

  /** Split at its commas, a description of an exercise whose name has no comma gives its three fields. */
  lemma DescribeSplit(e: Exercise)
    requires ',' !in e.name
    ensures Split(Describe(e), ',') == [ChapterField(e), SectionField(e), NameField(e)]
  {
    FieldsHaveNoComma(e);
    var chapter, section, name := ChapterField(e), SectionField(e), NameField(e);
    DescribeIsFields(e);
    SplitThree(chapter, section, name, ',');
  }

  lemma DescribeIsFields(e: Exercise)
    ensures Describe(e) == ChapterField(e) + [','] + (SectionField(e) + [','] + NameField(e))
  {
  }

  /**
    The fields of a description: split at its commas it gives the chapter
    part, the section part and the quoted name, and the numbers read back
    from the chapter and section parts are the exercise's own.
   */
  lemma DescribeFields(e: Exercise)
    requires ',' !in e.name
    ensures Split(Describe(e), ',') == [
      "Ch: " + FormatInt(e.chapter as int),
      " S: " + FormatInt(e.section as int),
      " Name: \"" + e.name + "\""]
    ensures ParseI32(Split(Describe(e), ',')[0][4..]) == Some(e.chapter)
    ensures ParseI32(Split(Describe(e), ',')[1][4..]) == Some(e.section)
  {
    DescribeSplit(e);
    assert ChapterField(e)[4..] == FormatInt(e.chapter as int);
    assert SectionField(e)[4..] == FormatInt(e.section as int);
    FormatParseRoundTrip(e.chapter);
    FormatParseRoundTrip(e.section);
  }

  /** The description of an exercise numbered 1.k, for the one-digit sections used. */
  lemma DescribeOneDigit(e: Exercise, k: nat)
    requires e.chapter == 1 && 1 <= k <= 9 && e.section as int == k
    ensures Describe(e) == "Ch: 1, S: " + [DigitChar(k)] + ", Name: \"" + e.name + "\""
  {
    assert FormatInt(1) == "1";
    assert FormatInt(k) == [DigitChar(k)];
  }

  /**
    The listing of the start-up registry has five lines, the k-th reading
    `Ch: 1, S: k, Name: "<name of the k-th exercise>"`.
   */
  lemma NewListing()
    ensures |Split(Listing(New()), '\n')| == 5
    ensures forall k :: 0 <= k < 5 ==>
      Split(Listing(New()), '\n')[k] == "Ch: 1, S: " + [DigitChar(k + 1)] + ", Name: \"" + New()[k].name + "\""
  {
    var reg := New();
    forall k | 0 <= k < |reg|
      ensures '\n' !in reg[k].name
    {
      NamesArePlain(k);
    }
    forall k | 0 <= k < 5
      ensures Describe(reg[k]) == "Ch: 1, S: " + [DigitChar(k + 1)] + ", Name: \"" + reg[k].name + "\""
    {
      DescribeOneDigit(reg[k], k + 1);
    }
  }
}
