/** The helpers the chat page publishes as `window.ChatbotUtils`: a job
    description detector and a line sorter that files the lines of a text
    under skills, experience, education and requirements. */
module ChatbotUtils {
  import opened Common
  import RagEngine

  // ------------------------------------------------------------------
  // isJobDescription

  const JobKeywords: seq<string> :=
    ["requirements", "qualifications", "responsibilities", "duties",
     "experience required", "skills needed", "job description",
     "position", "role", "candidate", "apply", "salary", "benefits"]

  /** The shortest text, plus one, that counts as a job description. */
  const JobDescriptionMinLength: nat := 100

  /** `isJobDescription(text)`: a job keyword in the lower-case text, and more
      than 100 characters. */
  predicate IsJobDescription(text: string) {
    ContainsAny(Lower(text), JobKeywords) && |text| > JobDescriptionMinLength
  }

  /** The detector and the answer engine's job analysis disagree: seven of
      the job keywords hold a question keyword of the engine ("qualifications"
      holds "qualification", "experience required" and "job description" and
      "position" and "role" hold work words, "skills needed" holds "skills",
      "apply" holds "app"), so a text that names one of them is answered as a
      topic question and never analysed as a job description. */
  lemma JobWordsDivertEngine(text: string, k: nat)
    requires k in {1, 4, 5, 6, 7, 8, 10}
    requires Contains(Lower(text), JobKeywords[k])
    ensures RagEngine.Classify(text) != RagEngine.AnalyzeJob
  {
    var (t, j) :=
      if k == 1 then (0, 13)
      else if k == 5 then (2, 0)
      else if k == 10 then (3, 10)
      else if k == 4 then (1, 2)
      else if k == 6 then (1, 1)
      else if k == 7 then (1, 5)
      else (1, 6);
    assert RagEngine.TopicKeywords[0] == RagEngine.EducationQuestionKeywords;
    assert RagEngine.TopicKeywords[1] == RagEngine.WorkQuestionKeywords;
    assert RagEngine.TopicKeywords[2] == RagEngine.SkillsQuestionKeywords;
    assert RagEngine.TopicKeywords[3] == RagEngine.ProjectsQuestionKeywords;
    var word := RagEngine.TopicKeywords[t][j];
    assert OccursAt(JobKeywords[k], word, 0);
    OccursContains(JobKeywords[k], word, 0);
    ContainsTransitive(Lower(text), JobKeywords[k], word);
    assert ContainsAny(Lower(text), RagEngine.TopicKeywords[t]);
    RagEngine.ClassifyFallback(text);
  }

  // ------------------------------------------------------------------
  // extractKeyInfo

  datatype Category = SkillLine | ExperienceLine | EducationLine | RequirementLine

  /** The first test of the `if` chain a line passes, if any. */
  function CategoryOf(line: string): Option<Category> {
    var lowerLine := Lower(line);
    if Contains(lowerLine, "skill") || Contains(lowerLine, "technology") then Some(SkillLine)
    else if Contains(lowerLine, "experience") || Contains(lowerLine, "year") then Some(ExperienceLine)
    else if Contains(lowerLine, "degree") || Contains(lowerLine, "education") then Some(EducationLine)
    else if Contains(lowerLine, "require") || Contains(lowerLine, "must") then Some(RequirementLine)
    else None
  }

  /** The trimmed lines of one category, in order. */
  function Collect(c: Category, lines: seq<string>): seq<string> {
    MapSeq(Trim, Filter((line: string) => CategoryOf(line) == Some(c), lines))
  }

  /** The `info` object `extractKeyInfo` returns. */
  datatype KeyInfo = KeyInfo(skills: seq<string>, experience: seq<string>,
                             education: seq<string>, requirements: seq<string>)
  {
    function Bucket(c: Category): seq<string> {
      match c
      case SkillLine => skills
      case ExperienceLine => experience
      case EducationLine => education
      case RequirementLine => requirements
    }

    function Size(): nat {
      |skills| + |experience| + |education| + |requirements|
    }

    /** `info[c].push(x)` */
    function Push(c: Category, x: string): KeyInfo {
      match c
      case SkillLine => this.(skills := skills + [x])
      case ExperienceLine => this.(experience := experience + [x])
      case EducationLine => this.(education := education + [x])
      case RequirementLine => this.(requirements := requirements + [x])
    }
  }

  /** What sorting `lines` in order gives. */
  function SortLines(lines: seq<string>): KeyInfo {
    KeyInfo(Collect(SkillLine, lines), Collect(ExperienceLine, lines),
            Collect(EducationLine, lines), Collect(RequirementLine, lines))
  }

  /** One category's list after one more line. */
  lemma CollectSnoc(c: Category, lines: seq<string>, line: string)
    ensures Collect(c, lines + [line]) ==
              Collect(c, lines) + (if CategoryOf(line) == Some(c) then [Trim(line)] else [])
  {
    var p := (l: string) => CategoryOf(l) == Some(c);
    FilterAppend(p, lines, line);
    if p(line) {
      MapSeqSnoc(Trim, Filter(p, lines), line);
    }
  }

  /** Sorting one more line pushes it, trimmed, onto its category's list
      only. */
  lemma SortLinesSnoc(lines: seq<string>, line: string)
    ensures SortLines(lines + [line]) ==
              match CategoryOf(line)
              case None => SortLines(lines)
              case Some(c) => SortLines(lines).Push(c, Trim(line))
  {
    CollectSnoc(SkillLine, lines, line);
    CollectSnoc(ExperienceLine, lines, line);
    CollectSnoc(EducationLine, lines, line);
    CollectSnoc(RequirementLine, lines, line);
  }

  /** The loop step of `extractKeyInfo`, on a prefix of the lines, in the
      shape of its `if` chain. */
  lemma SortLinesStep(lines: seq<string>, i: nat)
    requires i < |lines|
    ensures var before, lowerLine, x := SortLines(lines[..i]), Lower(lines[i]), Trim(lines[i]);
      SortLines(lines[..i + 1]) ==
        if Contains(lowerLine, "skill") || Contains(lowerLine, "technology") then before.(skills := before.skills + [x])
        else if Contains(lowerLine, "experience") || Contains(lowerLine, "year") then before.(experience := before.experience + [x])
        else if Contains(lowerLine, "degree") || Contains(lowerLine, "education") then before.(education := before.education + [x])
        else if Contains(lowerLine, "require") || Contains(lowerLine, "must") then before.(requirements := before.requirements + [x])
        else before
  {
    assert lines[..i + 1] == lines[..i] + [lines[i]];
    SortLinesSnoc(lines[..i], lines[i]);
  }

  /** `extractKeyInfo(text)`: split into lines, file each line under the
      first category it matches. */
  method ExtractKeyInfo(text: string) returns (info: KeyInfo)
    ensures info == SortLines(SplitOn(text, '\n'))
  {
    var lines := SplitOn(text, '\n');
    info := KeyInfo([], [], [], []);
    for i := 0 to |lines|
      invariant info == SortLines(lines[..i])
    {
      SortLinesStep(lines, i);
      var line := lines[i];
      var lowerLine := Lower(line);
      if Contains(lowerLine, "skill") || Contains(lowerLine, "technology") {
        info := info.(skills := info.skills + [Trim(line)]);
      } else if Contains(lowerLine, "experience") || Contains(lowerLine, "year") {
        info := info.(experience := info.experience + [Trim(line)]);
      } else if Contains(lowerLine, "degree") || Contains(lowerLine, "education") {
        info := info.(education := info.education + [Trim(line)]);
      } else if Contains(lowerLine, "require") || Contains(lowerLine, "must") {
        info := info.(requirements := info.requirements + [Trim(line)]);
      }
    }
    assert lines[..|lines|] == lines;
  }

  /** A category's list holds exactly the trimmed lines of that category. */
  lemma CollectMembers(c: Category, lines: seq<string>, x: string)
    ensures x in Collect(c, lines) <==>
              exists k :: 0 <= k < |lines| && CategoryOf(lines[k]) == Some(c) && Trim(lines[k]) == x
  {
    MapFilterMembers(Trim, (line: string) => CategoryOf(line) == Some(c), lines, x);
  }

  lemma PushSize(info: KeyInfo, c: Category, x: string)
    ensures info.Push(c, x).Size() == info.Size() + 1
  {
  }

  /** The lines that match some category. */
  function Sorted(lines: seq<string>): seq<string> {
    Filter((line: string) => CategoryOf(line).Some?, lines)
  }

  /** Every matching line lands in exactly one list: the four lists together
      hold as many entries as there are matching lines, never more than
      there are lines. */
  lemma {:induction false} SortLinesCount(lines: seq<string>)
    ensures SortLines(lines).Size() == |Sorted(lines)|
    ensures |Sorted(lines)| <= |lines|
    decreases |lines|
  {
    if lines != [] {
      var init, last := lines[..|lines| - 1], lines[|lines| - 1];
      assert lines == init + [last];
      SortLinesCount(init);
      SortLinesSnoc(init, last);
      FilterAppend((line: string) => CategoryOf(line).Some?, init, last);
      if CategoryOf(last).Some? {
        PushSize(SortLines(init), CategoryOf(last).value, Trim(last));
      }
    }
  }
}
