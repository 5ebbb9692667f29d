/** The resume section parser (rag-chatbot/rag-system/resume-parser.js).
    The parser owns one `ResumeData` object; `parseStructuredData` splits the
    raw text into non-blank lines and runs one scanner per section, each of
    which appends to its list in that object. The regular expressions for
    contacts, degrees, institutions, date ranges and companies are
    uninterpreted extractor functions; `/(\d{4})/g` is written out. */
module ResumeParser {
  import opened Common
  import opened Resume

  // ------------------------------------------------------------------
  // Keyword lists

  const EducationKeywords: seq<string> :=
    ["education", "academic", "university", "college", "school", "degree", "bachelor", "master", "phd", "diploma"]
  const DegreeKeywords: seq<string> :=
    ["bachelor", "master", "phd", "doctorate", "associate", "diploma", "certificate"]
  const ExperienceKeywords: seq<string> := ["experience", "employment", "work", "career", "professional"]
  const JobTitleKeywords: seq<string> :=
    ["developer", "engineer", "manager", "analyst", "consultant", "specialist", "lead", "senior", "junior"]
  const SkillsKeywords: seq<string> := ["skills", "technologies", "technical", "programming", "languages", "tools"]
  const CommonSkills: seq<string> :=
    ["javascript", "python", "java", "react", "node", "angular", "vue", "html", "css",
     "sql", "mongodb", "postgresql", "mysql", "aws", "azure", "docker", "kubernetes",
     "git", "linux", "windows", "mac", "photoshop", "figma", "sketch"]
  const ProjectKeywords: seq<string> := ["projects", "portfolio", "built", "developed", "created"]
  const CertificationKeywords: seq<string> := ["certification", "certificate", "certified", "license"]
  const SectionHeaders: seq<string> :=
    ["experience", "education", "skills", "projects", "certifications", "achievements", "summary", "objective"]

  /** Lines this long or longer are never section headings. */
  const HeadingLimit: nat := 50

  // ------------------------------------------------------------------
  // Regular expressions

  /** Groups 0 and 3 of the degree expression: the whole match and the field. */
  datatype DegreeMatch = DegreeMatch(whole: string, field: string)

  /** Groups 1 and 2 of the date-range expression. */
  datatype DateRange = DateRange(start: string, end: string)

  /** What each regular expression of the parser captures in a line, or
      `None` where it does not match: group 1 for the contacts, the whole
      match for the institution, group 2 for the company. */
  datatype Regexes = Regexes(
    email: string -> Option<string>,
    phone: string -> Option<string>,
    linkedin: string -> Option<string>,
    github: string -> Option<string>,
    degree: string -> Option<DegreeMatch>,
    institution: string -> Option<string>,
    dateRange: string -> Option<DateRange>,
    company: string -> Option<string>)

  predicate IsYearAt(s: string, i: nat) {
    i + 4 <= |s| && IsDigit(s[i]) && IsDigit(s[i + 1]) && IsDigit(s[i + 2]) && IsDigit(s[i + 3])
  }

  /** `s.match(/(\d{4})/g) || []`: the runs of four digits, left to right and
      without overlap. */
  function FourDigitRuns(s: string): seq<string>
    decreases |s|
  {
    if IsYearAt(s, 0) then [s[..4]] + FourDigitRuns(s[4..])
    else if s == [] then []
    else FourDigitRuns(s[1..])
  }

  /** Every run the global match returns is four digits. */
  lemma {:induction false} FourDigitRunsAreYears(s: string)
    ensures forall k :: 0 <= k < |FourDigitRuns(s)| ==>
              |FourDigitRuns(s)[k]| == 4 && forall j :: 0 <= j < 4 ==> IsDigit(FourDigitRuns(s)[k][j])
    decreases |s|
  {
    if IsYearAt(s, 0) {
      FourDigitRunsAreYears(s[4..]);
      var r := FourDigitRuns(s);
      forall k | 0 <= k < |r|
        ensures |r[k]| == 4 && forall j :: 0 <= j < 4 ==> IsDigit(r[k][j])
      {
        if k > 0 {
          assert r[k] == FourDigitRuns(s[4..])[k - 1];
        }
      }
    } else if s != [] {
      FourDigitRunsAreYears(s[1..]);
    }
  }

  /** The global match is empty exactly when no four digits stand together. */
  lemma {:induction false} FourDigitRunsEmpty(s: string)
    ensures FourDigitRuns(s) == [] <==> forall i :: 0 <= i < |s| ==> !IsYearAt(s, i)
    decreases |s|
  {
    if IsYearAt(s, 0) {
    } else if s != [] {
      FourDigitRunsEmpty(s[1..]);
      forall i | 0 <= i < |s| - 1
        ensures IsYearAt(s[1..], i) <==> IsYearAt(s, i + 1)
      {
      }
      if forall i :: 0 <= i < |s| - 1 ==> !IsYearAt(s[1..], i) {
        forall i | 0 <= i < |s|
          ensures !IsYearAt(s, i)
        {
          if i > 0 {
            assert !IsYearAt(s[1..], i - 1);
          }
        }
      }
    }
  }

  // ------------------------------------------------------------------
  // Lines

  /** `rawText.split('\n').filter(line => line.trim())` */
  function ResumeLines(rawText: string): (lines: seq<string>)
    ensures forall k :: 0 <= k < |lines| ==> !IsBlank(lines[k])
  {
    var r := Filter((line: string) => !IsBlank(line), SplitOn(rawText, '\n'));
    FilterSpec((line: string) => !IsBlank(line), SplitOn(rawText, '\n'));
    assert forall k :: 0 <= k < |r| ==> r[k] in r;
    r
  }

  /** `isSectionHeader(line)`, for a line already in lower case. */
  predicate IsSectionHeader(line: string) {
    ContainsAny(line, SectionHeaders) && |line| < HeadingLimit
  }

  // ------------------------------------------------------------------
  // The two-state section scanner shared by the `extract*` methods

  /** A short line naming one of the section's own keywords opens the section. */
  predicate Opens(keys: seq<string>, line: string) {
    ContainsAny(Lower(line), keys) && |line| < HeadingLimit
  }

  /** A heading that does not open the section closes it. */
  predicate Closes(keys: seq<string>, line: string) {
    !Opens(keys, line) && IsSectionHeader(Lower(line))
  }

  /** What a scanner does with one line: the opening test runs first, the
      closing test only inside the section, and only lines that pass neither
      reach the entry test, with the flag as it stands. */
  datatype Step = Open | Close | Visit(inSection: bool)

  function ScanStep(keys: seq<string>, inSection: bool, line: string): Step {
    if Opens(keys, line) then Open
    else if inSection && IsSectionHeader(Lower(line)) then Close
    else Visit(inSection)
  }

  /** The in-section flag after the first `n` lines. */
  function InSection(keys: seq<string>, lines: seq<string>, n: nat): bool
    requires n <= |lines|
    decreases n
  {
    if n == 0 then false
    else
      match ScanStep(keys, InSection(keys, lines, n - 1), lines[n - 1])
      case Open => true
      case Close => false
      case Visit(b) => b
  }

  /** A short line naming one of the section's keywords sets the flag. */
  lemma ScanOpens(keys: seq<string>, lines: seq<string>, i: nat)
    requires i < |lines| && Opens(keys, lines[i])
    ensures InSection(keys, lines, i + 1)
  {
  }

  /** Another heading met inside the section clears the flag. */
  lemma ScanCloses(keys: seq<string>, lines: seq<string>, i: nat)
    requires i < |lines| && !Opens(keys, lines[i])
    requires InSection(keys, lines, i) && IsSectionHeader(Lower(lines[i]))
    ensures !InSection(keys, lines, i + 1)
  {
  }

  /** Any other line leaves the flag as it stands. */
  lemma ScanVisits(keys: seq<string>, lines: seq<string>, i: nat)
    requires i < |lines| && !Opens(keys, lines[i])
    requires !(InSection(keys, lines, i) && IsSectionHeader(Lower(lines[i])))
    ensures InSection(keys, lines, i + 1) == InSection(keys, lines, i)
  {
  }

  /** Whether line `i` is a heading the scanner acts on rather than a line it visits. */
  predicate IsHeadingStep(keys: seq<string>, lines: seq<string>, i: nat)
    requires i < |lines|
  {
    Opens(keys, lines[i]) || (InSection(keys, lines, i) && IsSectionHeader(Lower(lines[i])))
  }

  /** The scanner is inside its section after `n` lines exactly when some
      earlier line opened it and no line since has closed it. */
  lemma {:induction false} InSectionIff(keys: seq<string>, lines: seq<string>, n: nat)
    requires n <= |lines|
    ensures InSection(keys, lines, n) <==>
              exists j :: 0 <= j < n && Opens(keys, lines[j]) && forall m :: j < m < n ==> !Closes(keys, lines[m])
    decreases n
  {
    if n > 0 {
      var i := n - 1;
      InSectionIff(keys, lines, i);
      if Opens(keys, lines[i]) {
      } else if InSection(keys, lines, i) && IsSectionHeader(Lower(lines[i])) {
        assert Closes(keys, lines[i]);
        forall j | 0 <= j < n && Opens(keys, lines[j])
          ensures exists m :: j < m < n && Closes(keys, lines[m])
        {
          assert j < i;
        }
      } else if InSection(keys, lines, i) {
        var j :| 0 <= j < i && Opens(keys, lines[j]) && forall m :: j < m < i ==> !Closes(keys, lines[m]);
        assert forall m :: j < m < n ==> !Closes(keys, lines[m]);
      } else {
        forall j | 0 <= j < n && Opens(keys, lines[j])
          ensures exists m :: j < m < n && Closes(keys, lines[m])
        {
          assert j < i;
          assert exists m :: j < m < i && Closes(keys, lines[m]);
        }
      }
    }
  }

  // ------------------------------------------------------------------
  // Entries

  function OptionToSeq<T>(o: Option<T>): seq<T> {
    if o.Some? then [o.value] else []
  }

  /** `parseEducationEntry(line)` */
  function ParseEducationEntry(rx: Regexes, line: string): Option<Education> {
    var degree, years, institution := rx.degree(line), FourDigitRuns(line), rx.institution(line);
    if degree.Some? || institution.Some? || years != [] then
      Some(Education(
        if degree.Some? then degree.value.whole else "",
        if degree.Some? then degree.value.field else "",
        institution.GetOr(""),
        if years != [] then years[|years| - 1] else "",
        line))
    else None
  }

  /** A line yields an education entry unless it names no degree, no
      institution and no year; the entry keeps the line and the last year. */
  lemma EducationEntrySpec(rx: Regexes, line: string)
    ensures var r := ParseEducationEntry(rx, line);
            && (r.None? <==> rx.degree(line).None? && rx.institution(line).None? && FourDigitRuns(line) == [])
            && (r.Some? ==> r.value.raw == line)
            && (r.Some? && FourDigitRuns(line) != [] ==> r.value.year == FourDigitRuns(line)[|FourDigitRuns(line)| - 1])
  {
  }

  /** `parseExperienceEntry(line, context)`; `context` is the line and the
      ones after it, and the description joins all of them but the first. */
  function ParseExperienceEntry(rx: Regexes, line: string, context: seq<string>): Option<Experience> {
    var years, dateRange, company := FourDigitRuns(line), rx.dateRange(line), rx.company(line);
    var hasJobTitle := ContainsAny(Lower(line), JobTitleKeywords);
    if hasJobTitle || years != [] || company.Some? then
      Some(Experience(
        Trim(line),
        if company.Some? then Trim(company.value) else "",
        if dateRange.Some? then dateRange.value.start else if years != [] then years[0] else "",
        if dateRange.Some? then dateRange.value.end else if |years| > 1 then years[1] else "",
        Trim(Join(Slice(context, 1, |context|), " ")),
        line))
    else None
  }

  /** A line yields a job unless it names no job title, no year and no
      company; the job's title is the trimmed line and its description the
      trimmed lines after it. */
  lemma ExperienceEntrySpec(rx: Regexes, line: string, context: seq<string>)
    ensures var r := ParseExperienceEntry(rx, line, context);
            && (r.None? <==> !ContainsAny(Lower(line), JobTitleKeywords) && FourDigitRuns(line) == [] && rx.company(line).None?)
            && (r.Some? ==> r.value.raw == line && r.value.title == Trim(line))
            && (r.Some? ==> r.value.description == Trim(Join(Slice(context, 1, |context|), " ")))
  {
  }

  /** A date range wins over the bare years: the start is the range's start,
      else the first four-digit run, else empty; the end is the range's end,
      else the second run, else empty. */
  lemma ExperienceYears(rx: Regexes, line: string, context: seq<string>)
    requires ParseExperienceEntry(rx, line, context).Some?
    ensures var e := ParseExperienceEntry(rx, line, context).value;
            var years := FourDigitRuns(line);
            && (rx.dateRange(line).Some? ==>
                  e.startYear == rx.dateRange(line).value.start && e.endYear == rx.dateRange(line).value.end)
            && (rx.dateRange(line).None? && years != [] ==> e.startYear == years[0])
            && (rx.dateRange(line).None? && |years| > 1 ==> e.endYear == years[1])
            && (rx.dateRange(line).None? && years == [] ==> e.startYear == "" && e.endYear == "")
  {
  }

  /** The education entries of the first `n` lines. Inside the section every
      visited line is parsed; outside it, only lines naming a degree are. */
  function EducationEntries(rx: Regexes, lines: seq<string>, n: nat): seq<Education>
    requires n <= |lines|
    decreases n
  {
    if n == 0 then []
    else
      var i := n - 1;
      var prev := EducationEntries(rx, lines, i);
      match ScanStep(EducationKeywords, InSection(EducationKeywords, lines, i), lines[i])
      case Visit(inSection) =>
        if inSection || ContainsAny(Lower(lines[i]), DegreeKeywords) then prev + OptionToSeq(ParseEducationEntry(rx, lines[i]))
        else prev
      case _ => prev
  }

  /** The experience entries of the first `n` lines; each sees the line and up
      to four lines after it. */
  function ExperienceEntries(rx: Regexes, lines: seq<string>, n: nat): seq<Experience>
    requires n <= |lines|
    decreases n
  {
    if n == 0 then []
    else
      var i := n - 1;
      var prev := ExperienceEntries(rx, lines, i);
      match ScanStep(ExperienceKeywords, InSection(ExperienceKeywords, lines, i), lines[i])
      case Visit(inSection) =>
        if inSection || ContainsAny(Lower(lines[i]), JobTitleKeywords) then
          prev + OptionToSeq(ParseExperienceEntry(rx, lines[i], Slice(lines, i, i + 5)))
        else prev
      case _ => prev
  }

  /** A heading line adds no education. */
  lemma EducationSkip(rx: Regexes, lines: seq<string>, i: nat)
    requires i < |lines|
    requires IsHeadingStep(EducationKeywords, lines, i)
    ensures EducationEntries(rx, lines, i + 1) == EducationEntries(rx, lines, i)
  {
  }

  /** One visited line of the education scan, as the loop sees it. */
  lemma EducationVisit(rx: Regexes, lines: seq<string>, i: nat)
    requires i < |lines|
    requires !IsHeadingStep(EducationKeywords, lines, i)
    ensures EducationEntries(rx, lines, i + 1) ==
              if InSection(EducationKeywords, lines, i) || ContainsAny(Lower(lines[i]), DegreeKeywords)
              then EducationEntries(rx, lines, i) + OptionToSeq(ParseEducationEntry(rx, lines[i]))
              else EducationEntries(rx, lines, i)
  {
  }

  /** A heading line adds no experience. */
  lemma ExperienceSkip(rx: Regexes, lines: seq<string>, i: nat)
    requires i < |lines|
    requires IsHeadingStep(ExperienceKeywords, lines, i)
    ensures ExperienceEntries(rx, lines, i + 1) == ExperienceEntries(rx, lines, i)
  {
  }

  /** One visited line of the experience scan, as the loop sees it. */
  lemma ExperienceVisit(rx: Regexes, lines: seq<string>, i: nat)
    requires i < |lines|
    requires !IsHeadingStep(ExperienceKeywords, lines, i)
    ensures ExperienceEntries(rx, lines, i + 1) ==
              if InSection(ExperienceKeywords, lines, i) || ContainsAny(Lower(lines[i]), JobTitleKeywords)
              then ExperienceEntries(rx, lines, i) + OptionToSeq(ParseExperienceEntry(rx, lines[i], Slice(lines, i, i + 5)))
              else ExperienceEntries(rx, lines, i)
  {
  }

  /** `commonSkills.filter(skill => lowerLine.includes(skill))` */
  function SkillsIn(lowerLine: string): seq<string> {
    Filter((skill: string) => Contains(lowerLine, skill), CommonSkills)
  }

  /** A line yields exactly the common skills it names. */
  lemma SkillsInSpec(lowerLine: string)
    ensures forall s :: s in SkillsIn(lowerLine) <==> s in CommonSkills && Contains(lowerLine, s)
  {
    FilterSpec((skill: string) => Contains(lowerLine, skill), CommonSkills);
  }

  /** The skills the first `n` lines contribute, before duplicates go: every
      visited line adds the common skills it names, and a non-blank line
      inside the section adds itself, trimmed. */
  function SkillEntries(lines: seq<string>, n: nat): seq<string>
    requires n <= |lines|
    decreases n
  {
    if n == 0 then []
    else
      var i := n - 1;
      var prev := SkillEntries(lines, i);
      match ScanStep(SkillsKeywords, InSection(SkillsKeywords, lines, i), lines[i])
      case Visit(inSection) =>
        prev + SkillsIn(Lower(lines[i])) + (if inSection && Trim(lines[i]) != "" then [Trim(lines[i])] else [])
      case _ => prev
  }

  /** A heading line adds no skills. */
  lemma SkillsSkip(lines: seq<string>, i: nat)
    requires i < |lines|
    requires IsHeadingStep(SkillsKeywords, lines, i)
    ensures SkillEntries(lines, i + 1) == SkillEntries(lines, i)
  {
  }

  /** One visited line of the skills scan, as the loop sees it: the line's
      common skills go in when there are some or the section is open, and
      the line itself follows when the section is open and it is not blank. */
  lemma SkillsVisit(lines: seq<string>, i: nat)
    requires i < |lines|
    requires !IsHeadingStep(SkillsKeywords, lines, i)
    ensures var prev, found, inSection := SkillEntries(lines, i), SkillsIn(Lower(lines[i])), InSection(SkillsKeywords, lines, i);
            SkillEntries(lines, i + 1) ==
              if |found| > 0 || inSection then
                if inSection && Trim(lines[i]) != "" then prev + found + [Trim(lines[i])] else prev + found
              else prev
  {
    var prev, found := SkillEntries(lines, i), SkillsIn(Lower(lines[i]));
    assert prev + found + [] == prev + found;
    assert prev + [] + [] == prev;
  }

  /** The project line `i` names: its own text, trimmed, described by the
      next two lines joined by a space. */
  function ProjectAt(lines: seq<string>, i: nat): Project
    requires i < |lines|
  {
    Project(Trim(lines[i]), Trim(Join(Slice(lines, i + 1, i + 3), " ")))
  }

  /** The projects of the first `n` lines: every non-blank line inside the
      section, described by the next two lines. */
  function ProjectEntries(lines: seq<string>, n: nat): seq<Project>
    requires n <= |lines|
    decreases n
  {
    if n == 0 then []
    else
      var i := n - 1;
      var prev := ProjectEntries(lines, i);
      match ScanStep(ProjectKeywords, InSection(ProjectKeywords, lines, i), lines[i])
      case Visit(inSection) =>
        if inSection && Trim(lines[i]) != "" then
          prev + [ProjectAt(lines, i)]
        else prev
      case _ => prev
  }

  /** A heading line adds no project. */
  lemma ProjectsSkip(lines: seq<string>, i: nat)
    requires i < |lines|
    requires IsHeadingStep(ProjectKeywords, lines, i)
    ensures ProjectEntries(lines, i + 1) == ProjectEntries(lines, i)
  {
  }

  /** One visited line of the projects scan, as the loop sees it. */
  lemma ProjectsVisit(lines: seq<string>, i: nat)
    requires i < |lines|
    requires !IsHeadingStep(ProjectKeywords, lines, i)
    ensures ProjectEntries(lines, i + 1) ==
              if InSection(ProjectKeywords, lines, i) && Trim(lines[i]) != ""
              then ProjectEntries(lines, i) + [ProjectAt(lines, i)]
              else ProjectEntries(lines, i)
  {
  }

  predicate IsCertificationLine(line: string) {
    ContainsAny(Lower(line), CertificationKeywords)
  }

  /** Every line naming a certification or licence, trimmed, in order. */
  function Certifications(lines: seq<string>): seq<string> {
    MapSeq(Trim, Filter(IsCertificationLine, lines))
  }

  /** The collection runs line by line: the certifications of a text are
      those of its first part followed by those of the rest. */
  lemma {:induction false} CertificationsAppend(a: seq<string>, b: seq<string>)
    ensures Certifications(a + b) == Certifications(a) + Certifications(b)
    decreases |b|
  {
    if b == [] {
      assert a + b == a;
    } else {
      var init, last := b[..|b| - 1], b[|b| - 1];
      assert a + b == (a + init) + [last];
      assert b == init + [last];
      CertificationsAppend(a, init);
      FilterAppend(IsCertificationLine, a + init, last);
      FilterAppend(IsCertificationLine, init, last);
      var fa, fi := Filter(IsCertificationLine, a), Filter(IsCertificationLine, init);
      assert Filter(IsCertificationLine, a + init) == fa + fi by {
        assert Certifications(a + init) == Certifications(a) + Certifications(init);
        FilterOfConcat(a, init);
      }
      var tail := if IsCertificationLine(last) then [last] else [];
      assert MapSeq(Trim, fa + fi + tail) == MapSeq(Trim, fa) + MapSeq(Trim, fi + tail);
      assert MapSeq(Trim, fi + tail) == MapSeq(Trim, Filter(IsCertificationLine, b));
    }
  }

  /** One line of the certifications loop. */
  lemma CertificationsStep(lines: seq<string>, i: nat)
    requires i < |lines|
    ensures Certifications(lines[..i + 1]) ==
              Certifications(lines[..i]) + if IsCertificationLine(lines[i]) then [Trim(lines[i])] else []
  {
    assert lines[..i + 1] == lines[..i] + [lines[i]];
    CertificationsAppend(lines[..i], [lines[i]]);
    assert Filter(IsCertificationLine, [lines[i]]) == if IsCertificationLine(lines[i]) then [lines[i]] else [] by {
      FilterAppend(IsCertificationLine, [], lines[i]);
      assert [] + [lines[i]] == [lines[i]];
    }
  }

  lemma {:induction false} FilterOfConcat(a: seq<string>, b: seq<string>)
    ensures Filter(IsCertificationLine, a + b) == Filter(IsCertificationLine, a) + Filter(IsCertificationLine, b)
    decreases |b|
  {
    if b == [] {
      assert a + b == a;
    } else {
      var init, last := b[..|b| - 1], b[|b| - 1];
      assert a + b == (a + init) + [last];
      assert b == init + [last];
      FilterOfConcat(a, init);
      FilterAppend(IsCertificationLine, a + init, last);
      FilterAppend(IsCertificationLine, init, last);
    }
  }

  // ------------------------------------------------------------------
  // Contacts

  /** Last match wins: the capture of the last line that matches, else `prior`. */
  function LastMatch(f: string -> Option<string>, prior: Option<string>, lines: seq<string>): Option<string>
    decreases |lines|
  {
    if lines == [] then prior
    else
      var m := f(lines[|lines| - 1]);
      if m.Some? then m else LastMatch(f, prior, lines[..|lines| - 1])
  }

  /** First truthy match wins: a match replaces the value only while that is
      still empty or missing. */
  function FirstMatch(f: string -> Option<string>, prior: Option<string>, lines: seq<string>): Option<string>
    decreases |lines|
  {
    if lines == [] then prior
    else
      var prev := FirstMatch(f, prior, lines[..|lines| - 1]);
      var m := f(lines[|lines| - 1]);
      if m.Some? && !Truthy(prev) then m else prev
  }

  lemma {:induction false} LastMatchIsLast(f: string -> Option<string>, prior: Option<string>, lines: seq<string>, k: nat)
    requires k < |lines| && f(lines[k]).Some?
    requires forall m :: k < m < |lines| ==> f(lines[m]).None?
    ensures LastMatch(f, prior, lines) == f(lines[k])
    decreases |lines|
  {
    var n := |lines| - 1;
    if k < n {
      LastMatchIsLast(f, prior, lines[..n], k);
    }
  }

  lemma {:induction false} NoMatchKeepsPrior(f: string -> Option<string>, prior: Option<string>, lines: seq<string>)
    requires forall m :: 0 <= m < |lines| ==> f(lines[m]).None?
    ensures LastMatch(f, prior, lines) == prior && FirstMatch(f, prior, lines) == prior
    decreases |lines|
  {
    if lines != [] {
      NoMatchKeepsPrior(f, prior, lines[..|lines| - 1]);
    }
  }

  lemma {:induction false} FirstMatchKeepsTruthy(f: string -> Option<string>, prior: Option<string>, lines: seq<string>)
    requires Truthy(prior)
    ensures FirstMatch(f, prior, lines) == prior
    decreases |lines|
  {
    if lines != [] {
      FirstMatchKeepsTruthy(f, prior, lines[..|lines| - 1]);
    }
  }

  lemma {:induction false} FirstMatchIsFirst(f: string -> Option<string>, lines: seq<string>, k: nat)
    requires k < |lines| && Truthy(f(lines[k]))
    requires forall m :: 0 <= m < k ==> f(lines[m]).None?
    ensures FirstMatch(f, None, lines) == f(lines[k])
    decreases |lines|
  {
    var n := |lines| - 1;
    if k < n {
      FirstMatchIsFirst(f, lines[..n], k);
    } else {
      NoMatchKeepsPrior(f, None, lines[..n]);
    }
  }

  /** The contacts after a pass over `lines`, the name aside. */
  function ContactsAfter(rx: Regexes, p: PersonalInfo, lines: seq<string>): PersonalInfo {
    p.(email := LastMatch(rx.email, p.email, lines),
       phone := FirstMatch(rx.phone, p.phone, lines),
       linkedin := LastMatch(rx.linkedin, p.linkedin, lines),
       github := LastMatch(rx.github, p.github, lines))
  }

  /** `extractPersonalInfo(lines)` applied to `p`: the name becomes the first
      line, trimmed, when there is one. */
  function PersonalInfoAfter(rx: Regexes, p: PersonalInfo, lines: seq<string>): PersonalInfo {
    var c := ContactsAfter(rx, p, lines);
    if |lines| > 0 then c.(name := Some(Trim(lines[0]))) else c
  }

  /** Contact policy of one parse into an empty record: email, LinkedIn and
      GitHub come from the last line that matches, the phone number from the
      first, and the name is the first non-blank line, trimmed. */
  lemma ContactPolicy(rx: Regexes, lines: seq<string>, k: nat)
    requires k < |lines|
    ensures var info := PersonalInfoAfter(rx, NoPersonalInfo, lines);
            && info.name == Some(Trim(lines[0]))
            && (rx.email(lines[k]).Some? && (forall m :: k < m < |lines| ==> rx.email(lines[m]).None?) ==>
                  info.email == rx.email(lines[k]))
            && (Truthy(rx.phone(lines[k])) && (forall m :: 0 <= m < k ==> rx.phone(lines[m]).None?) ==>
                  info.phone == rx.phone(lines[k]))
  {
    if rx.email(lines[k]).Some? && (forall m :: k < m < |lines| ==> rx.email(lines[m]).None?) {
      LastMatchIsLast(rx.email, None, lines, k);
    }
    if Truthy(rx.phone(lines[k])) && (forall m :: 0 <= m < k ==> rx.phone(lines[m]).None?) {
      FirstMatchIsFirst(rx.phone, lines, k);
    }
  }

  // ------------------------------------------------------------------
  // A whole parse

  /** `parseStructuredData()` applied to the sections `s` and the text
      `rawText`: every list keeps what it held and gains the new entries;
      the skills list then loses its repeats. */
  function ParseSections(rx: Regexes, s: Sections, rawText: string): Sections {
    var lines := ResumeLines(rawText);
    s.(personalInfo := PersonalInfoAfter(rx, s.personalInfo, lines),
       education := s.education + EducationEntries(rx, lines, |lines|),
       experience := s.experience + ExperienceEntries(rx, lines, |lines|),
       skills := Dedup(s.skills + SkillEntries(lines, |lines|)),
       projects := s.projects + ProjectEntries(lines, |lines|),
       certifications := s.certifications + Certifications(lines))
  }

  /** After a parse the skills hold no repeats, they are exactly the old
      skills and the new entries, and they stand in the order of their first
      occurrences: de-duplicating any prefix of the old skills followed by
      the entries gives a prefix of the result. */
  lemma ParsedSkillsDistinct(rx: Regexes, s: Sections, rawText: string)
    ensures var r := ParseSections(rx, s, rawText);
            var lines := ResumeLines(rawText);
            var all := s.skills + SkillEntries(lines, |lines|);
            && NoDuplicates(r.skills)
            && (forall x :: x in r.skills <==> x in s.skills || x in SkillEntries(lines, |lines|))
            && forall k :: 0 <= k <= |all| ==> IsPrefixOf(Dedup(all[..k]), r.skills)
  {
    var lines := ResumeLines(rawText);
    var all := s.skills + SkillEntries(lines, |lines|);
    DedupSpec(all);
    forall k | 0 <= k <= |all|
      ensures IsPrefixOf(Dedup(all[..k]), Dedup(all))
    {
      DedupPrefix(all, k);
    }
  }

  /** Nothing is ever cleared: parsing the same text again on the same parser
      appends every list a second time, while the skills, being
      de-duplicated, stay as they were. */
  lemma ReparseAppends(rx: Regexes, rawText: string)
    ensures var once := ParseSections(rx, EmptySections, rawText);
            var twice := ParseSections(rx, once, rawText);
            && twice.education == once.education + once.education
            && twice.experience == once.experience + once.experience
            && twice.projects == once.projects + once.projects
            && twice.certifications == once.certifications + once.certifications
            && twice.skills == once.skills
  {
    var lines := ResumeLines(rawText);
    var education, experience := EducationEntries(rx, lines, |lines|), ExperienceEntries(rx, lines, |lines|);
    var entries, projects := SkillEntries(lines, |lines|), ProjectEntries(lines, |lines|);
    var certifications := Certifications(lines);
    var once := ParseSections(rx, EmptySections, rawText);
    assert once.education == education && once.experience == experience by {
      assert [] + education == education && [] + experience == experience;
    }
    assert once.projects == projects && once.certifications == certifications by {
      assert [] + projects == projects && [] + certifications == certifications;
    }
    assert once.skills == Dedup(entries) by {
      assert [] + entries == entries;
    }
    var twice := ParseSections(rx, once, rawText);
    assert twice.education == once.education + education;
    assert twice.experience == once.experience + experience;
    assert twice.projects == once.projects + projects;
    assert twice.certifications == once.certifications + certifications;
    DedupSpec(entries);
    DedupAbsorbs(once.skills, entries);
    DedupOfDistinct(once.skills);
  }

  // ------------------------------------------------------------------
  // Summaries for the answer engine

  const NoEducationInfo := "No specific education information found in the resume."
  const NoCurrentJobInfo := "Current employment information not clearly specified in resume."
  const NoWorkInfo := "No work experience information found in the resume."
  const NoSkillsInfo := "No specific skills information found in the resume."
  const NoProjectsInfo := "No specific projects information found in the resume."

  /** The largest number of skills the skills summary lists. */
  const SummarySkillLimit: nat := 10

  function EducationLine(e: Education): string {
    Trim(e.degree + " " + (if e.field != "" then "in " + e.field else "") + " from " + e.institution + " "
         + (if e.year != "" then "(" + e.year + ")" else ""))
  }

  /** `getEducationInfo()` */
  function EducationInfo(s: Sections): string {
    if s.education == [] then NoEducationInfo else Join(MapSeq(EducationLine, s.education), "; ")
  }

  /** `getCurrentWorkExperience()`, with the current year as a parameter. */
  function CurrentWorkExperience(s: Sections, currentYear: int): string {
    match FindCurrentJob(s.experience, currentYear)
    case None => NoCurrentJobInfo
    case Some(k) =>
      var job := s.experience[k];
      "Currently working as " + job.title + " " + (if job.company != "" then "at " + job.company else "") + " "
      + (if job.startYear != "" then "since " + job.startYear else "")
  }

  function WorkLine(e: Experience): string {
    var duration := if e.startYear != "" && e.endYear != "" then "(" + e.startYear + " - " + e.endYear + ")" else "";
    e.title + " " + (if e.company != "" then "at " + e.company else "") + " " + duration
  }

  /** `getAllWorkExperience()` */
  function AllWorkExperience(s: Sections): string {
    if s.experience == [] then NoWorkInfo else Join(MapSeq(WorkLine, s.experience), "; ")
  }

  /** `getSkillsSummary()` */
  function SkillsSummary(s: Sections): string {
    if s.skills == [] then NoSkillsInfo else Join(Take(s.skills, SummarySkillLimit), ", ")
  }

  /** `getProjectsSummary()` */
  function ProjectsSummary(s: Sections): string {
    if s.projects == [] then NoProjectsInfo else Join(MapSeq((p: Project) => p.name, s.projects), ", ")
  }

  /** Each summary is its fixed message when its list is empty, and otherwise
      lists every entry (the skills summary, the first ten). */
  lemma SummariesListEntries(s: Sections, k: nat)
    ensures s.education == [] ==> EducationInfo(s) == NoEducationInfo
    ensures s.experience == [] ==> AllWorkExperience(s) == NoWorkInfo
    ensures s.skills == [] ==> SkillsSummary(s) == NoSkillsInfo
    ensures s.projects == [] ==> ProjectsSummary(s) == NoProjectsInfo
    ensures k < |s.education| ==> Contains(EducationInfo(s), EducationLine(s.education[k]))
    ensures k < |s.experience| ==> Contains(AllWorkExperience(s), WorkLine(s.experience[k]))
    ensures k < |s.skills| && k < SummarySkillLimit ==> Contains(SkillsSummary(s), s.skills[k])
    ensures k < |s.projects| ==> Contains(ProjectsSummary(s), s.projects[k].name)
  {
    if k < |s.education| {
      JoinContains(MapSeq(EducationLine, s.education), "; ", k);
    }
    if k < |s.experience| {
      JoinContains(MapSeq(WorkLine, s.experience), "; ", k);
    }
    if k < |s.skills| && k < SummarySkillLimit {
      JoinContains(Take(s.skills, SummarySkillLimit), ", ", k);
    }
    if k < |s.projects| {
      JoinContains(MapSeq((p: Project) => p.name, s.projects), ", ", k);
    }
  }

  /** The current-work summary names the first entry that counts as current. */
  lemma CurrentWorkNamesFirstCurrentJob(s: Sections, currentYear: int)
    ensures FindCurrentJob(s.experience, currentYear).None? ==> CurrentWorkExperience(s, currentYear) == NoCurrentJobInfo
    ensures FindCurrentJob(s.experience, currentYear).Some? ==>
              IsPrefix("Currently working as " + s.experience[FindCurrentJob(s.experience, currentYear).value].title,
                       CurrentWorkExperience(s, currentYear))
  {
  }

  // ------------------------------------------------------------------
  // Search

  predicate IsSentenceEnd(c: char) {
    c == '.' || c == '!' || c == '?'
  }

  /** At most this many sentences come back from a search. */
  const SearchLimit: nat := 3

  /** `rawText.split(/[.!?]+/)` */
  function Sentences(rawText: string): seq<string> {
    SplitOnRuns(rawText, IsSentenceEnd, 1, "")
  }

  /** The sentence filter of `searchResume`: the sentence holds the
      lower-cased query, ignoring case. */
  function HoldsQuery(lowerQuery: string): string -> bool {
    (sentence: string) => Contains(Lower(sentence), lowerQuery)
  }

  /** The sentences `searchResume` keeps: `.filter(...).slice(0, 3)`. */
  function SearchHits(rawText: string, lowerQuery: string): seq<string> {
    Take(Filter(HoldsQuery(lowerQuery), Sentences(rawText)), SearchLimit)
  }

  /** `searchResume(query)` on the raw text. */
  function SearchResume(rawText: string, query: string): string {
    var lowerQuery := Lower(query);
    if Contains(Lower(rawText), lowerQuery) then Join(SearchHits(rawText, lowerQuery), " ") else ""
  }

  /** The sentences kept are the first three of the text that hold the
      query (all of them when there are fewer), in text order: the k-th one
      comes from the k-th of the increasing positions whose sentence holds
      the query; none carries a sentence end. */
  lemma SearchHitsInOrder(rawText: string, lowerQuery: string)
    ensures var all := Sentences(rawText);
            var ix := FilterPositions(HoldsQuery(lowerQuery), all);
            var found := SearchHits(rawText, lowerQuery);
            && |found| == (if |ix| < SearchLimit then |ix| else SearchLimit)
            && (forall k :: 0 <= k < |found| ==> ix[k] < |all| && found[k] == all[ix[k]])
            && (forall k, l :: 0 <= k < l < |ix| ==> ix[k] < ix[l])
            && (forall j :: 0 <= j < |all| ==> (Contains(Lower(all[j]), lowerQuery) <==> j in ix))
            && (forall k, j :: 0 <= k < |found| && 0 <= j < |found[k]| ==> !IsSentenceEnd(found[k][j]))
  {
    var all := Sentences(rawText);
    var p := HoldsQuery(lowerQuery);
    var matching := Filter(p, all);
    var found := SearchHits(rawText, lowerQuery);
    FilterInOrder(p, all);
    assert forall j :: 0 <= j < |all| ==> p(all[j]) == Contains(Lower(all[j]), lowerQuery);
    assert forall k :: 0 <= k < |found| ==> found[k] == matching[k];
    SplitOnRunsPiecesFree(rawText, IsSentenceEnd, "");
  }

  /** The search finds nothing unless the text holds the query, ignoring
      case; otherwise it joins by spaces the first three sentences that hold
      the query, in text order. */
  lemma SearchResumeSpec(rawText: string, query: string)
    ensures !Contains(Lower(rawText), Lower(query)) ==> SearchResume(rawText, query) == ""
    ensures Contains(Lower(rawText), Lower(query)) ==>
              var all := Sentences(rawText);
              var ix := FilterPositions(HoldsQuery(Lower(query)), all);
              var found := SearchHits(rawText, Lower(query));
              && SearchResume(rawText, query) == Join(found, " ")
              && |found| == (if |ix| < SearchLimit then |ix| else SearchLimit)
              && (forall k :: 0 <= k < |found| ==> ix[k] < |all| && found[k] == all[ix[k]])
              && (forall k, l :: 0 <= k < l < |ix| ==> ix[k] < ix[l])
              && (forall j :: 0 <= j < |all| ==> (Contains(Lower(all[j]), Lower(query)) <==> j in ix))
  {
    SearchHitsInOrder(rawText, Lower(query));
  }

  // ------------------------------------------------------------------
  // The parser object

  /** How `parseResume` picks an extractor for a file. */
  datatype FileKind = Pdf | Word

  function FileKindOf(fileType: string, fileName: string): Option<FileKind> {
    var name := Lower(fileName);
    if fileType == "application/pdf" || EndsWith(name, ".pdf") then Some(Pdf)
    else if EndsWith(name, ".docx") || EndsWith(name, ".doc") then Some(Word)
    else None
  }

  const UnsupportedFormat := "Unsupported file format"

  class ResumeParser {
    const resumeData: ResumeData
    const rx: Regexes

    constructor (rx: Regexes)
      ensures this.rx == rx && fresh(resumeData) && fresh(resumeData.sections)
      ensures resumeData.rawText == "" && resumeData.sections.Value() == EmptySections
    {
      this.rx := rx;
      resumeData := new ResumeData();
    }

    /** `parseResume(file)`: `extract` stands for the PDF and Word text
        extractors, which can fail. */
    method ParseResume(fileType: string, fileName: string, extract: FileKind -> Result<string>)
      returns (r: Result<ResumeData>)
      modifies resumeData, resumeData.sections
      ensures FileKindOf(fileType, fileName).None? ==>
                r == Err(UnsupportedFormat) && unchanged(resumeData, resumeData.sections)
      ensures FileKindOf(fileType, fileName).Some? && extract(FileKindOf(fileType, fileName).value).Err? ==>
                r == Err(extract(FileKindOf(fileType, fileName).value).error) && unchanged(resumeData, resumeData.sections)
      ensures FileKindOf(fileType, fileName).Some? && extract(FileKindOf(fileType, fileName).value).Ok? ==>
                var text := extract(FileKindOf(fileType, fileName).value).value;
                && r == Ok(resumeData)
                && resumeData.rawText == text
                && resumeData.sections.Value() == ParseSections(rx, old(resumeData.sections.Value()), text)
    {
      var kind := FileKindOf(fileType, fileName);
      if kind.None? {
        return Err(UnsupportedFormat);
      }
      var text := extract(kind.value);
      if text.Err? {
        return Err(text.error);
      }
      resumeData.rawText := text.value;
      ParseStructuredData();
      r := Ok(resumeData);
    }

    /** `parseStructuredData()` */
    method ParseStructuredData()
      modifies resumeData.sections
      ensures resumeData.sections.Value() == ParseSections(rx, old(resumeData.sections.Value()), resumeData.rawText)
    {
      var lines := ResumeLines(resumeData.rawText);
      ExtractPersonalInfo(lines);
      ExtractEducation(lines);
      ExtractExperience(lines);
      ExtractSkills(lines);
      ExtractProjects(lines);
      ExtractCertifications(lines);
    }

    /** `extractPersonalInfo(lines)` */
    method ExtractPersonalInfo(lines: seq<string>)
      modifies resumeData.sections`personalInfo
      ensures resumeData.sections.personalInfo == PersonalInfoAfter(rx, old(resumeData.sections.personalInfo), lines)
    {
      var sections := resumeData.sections;
      ghost var start := sections.personalInfo;
      for i := 0 to |lines|
        invariant sections.personalInfo == ContactsAfter(rx, start, lines[..i])
      {
        assert lines[..i + 1][..i] == lines[..i];
        var line := lines[i];
        var email := rx.email(line);
        if email.Some? {
          sections.personalInfo := sections.personalInfo.(email := email);
        }
        var phone := rx.phone(line);
        if phone.Some? && !Truthy(sections.personalInfo.phone) {
          sections.personalInfo := sections.personalInfo.(phone := phone);
        }
        var linkedin := rx.linkedin(line);
        if linkedin.Some? {
          sections.personalInfo := sections.personalInfo.(linkedin := linkedin);
        }
        var github := rx.github(line);
        if github.Some? {
          sections.personalInfo := sections.personalInfo.(github := github);
        }
      }
      assert lines[..|lines|] == lines;
      if |lines| > 0 {
        sections.personalInfo := sections.personalInfo.(name := Some(Trim(lines[0])));
      }
    }

    /** `extractEducation(lines)` */
    method ExtractEducation(lines: seq<string>)
      modifies resumeData.sections`education
      ensures resumeData.sections.education == old(resumeData.sections.education) + EducationEntries(rx, lines, |lines|)
    {
      var sections := resumeData.sections;
      ghost var start := sections.education;
      var inEducationSection := false;
      for i := 0 to |lines|
        invariant inEducationSection == InSection(EducationKeywords, lines, i)
        invariant sections.education == start + EducationEntries(rx, lines, i)
      {
        var line := Lower(lines[i]);
        if Opens(EducationKeywords, lines[i]) {
          ScanOpens(EducationKeywords, lines, i);
          EducationSkip(rx, lines, i);
          inEducationSection := true;
        } else if inEducationSection && IsSectionHeader(line) {
          ScanCloses(EducationKeywords, lines, i);
          EducationSkip(rx, lines, i);
          inEducationSection := false;
        } else {
          ScanVisits(EducationKeywords, lines, i);
          EducationVisit(rx, lines, i);
          if inEducationSection || ContainsAny(line, DegreeKeywords) {
            var education := ParseEducationEntry(rx, lines[i]);
            if education.Some? {
              AppendAssoc(start, EducationEntries(rx, lines, i), [education.value]);
              sections.education := sections.education + [education.value];
            }
          }
        }
      }
    }

    /** `extractExperience(lines)` */
    method ExtractExperience(lines: seq<string>)
      modifies resumeData.sections`experience
      ensures resumeData.sections.experience == old(resumeData.sections.experience) + ExperienceEntries(rx, lines, |lines|)
    {
      var sections, regexes := resumeData.sections, rx;
      ghost var start := sections.experience;
      var inExperienceSection := false;
      for i := 0 to |lines|
        invariant inExperienceSection == InSection(ExperienceKeywords, lines, i)
        invariant sections.experience == start + ExperienceEntries(regexes, lines, i)
      {
        var line := Lower(lines[i]);
        if Opens(ExperienceKeywords, lines[i]) {
          ScanOpens(ExperienceKeywords, lines, i);
          ExperienceSkip(regexes, lines, i);
          inExperienceSection := true;
        } else if inExperienceSection && IsSectionHeader(line) {
          ScanCloses(ExperienceKeywords, lines, i);
          ExperienceSkip(regexes, lines, i);
          inExperienceSection := false;
        } else {
          ScanVisits(ExperienceKeywords, lines, i);
          ExperienceVisit(regexes, lines, i);
          if inExperienceSection || ContainsAny(line, JobTitleKeywords) {
            var experience := ParseExperienceEntry(regexes, lines[i], Slice(lines, i, i + 5));
            if experience.Some? {
              AppendAssoc(start, ExperienceEntries(regexes, lines, i), [experience.value]);
              sections.experience := sections.experience + [experience.value];
            }
          }
        }
      }
    }

    /** `extractSkills(lines)`: the collected skills, then the repeats removed
        from the whole list. */
    method ExtractSkills(lines: seq<string>)
      modifies resumeData.sections`skills
      ensures resumeData.sections.skills == Dedup(old(resumeData.sections.skills) + SkillEntries(lines, |lines|))
    {
      var sections := resumeData.sections;
      ghost var start := sections.skills;
      var inSkillsSection := false;
      for i := 0 to |lines|
        invariant inSkillsSection == InSection(SkillsKeywords, lines, i)
        invariant sections.skills == start + SkillEntries(lines, i)
      {
        var line := lines[i];
        var lowerLine := Lower(line);
        if Opens(SkillsKeywords, line) {
          ScanOpens(SkillsKeywords, lines, i);
          SkillsSkip(lines, i);
          inSkillsSection := true;
        } else if inSkillsSection && IsSectionHeader(lowerLine) {
          ScanCloses(SkillsKeywords, lines, i);
          SkillsSkip(lines, i);
          inSkillsSection := false;
        } else {
          ScanVisits(SkillsKeywords, lines, i);
          SkillsVisit(lines, i);
          var foundSkills := SkillsIn(lowerLine);
          if |foundSkills| > 0 || inSkillsSection {
            AppendAssoc(start, SkillEntries(lines, i), foundSkills);
            sections.skills := sections.skills + foundSkills;
            if inSkillsSection && Trim(line) != "" {
              AppendAssoc(start, SkillEntries(lines, i) + foundSkills, [Trim(line)]);
              sections.skills := sections.skills + [Trim(line)];
            }
          }
        }
      }
      sections.skills := Dedup(sections.skills);
    }

    /** `extractProjects(lines)` */
    method ExtractProjects(lines: seq<string>)
      modifies resumeData.sections`projects
      ensures resumeData.sections.projects == old(resumeData.sections.projects) + ProjectEntries(lines, |lines|)
    {
      var sections := resumeData.sections;
      ghost var start := sections.projects;
      var inProjectsSection := false;
      for i := 0 to |lines|
        invariant inProjectsSection == InSection(ProjectKeywords, lines, i)
        invariant sections.projects == start + ProjectEntries(lines, i)
      {
        var line := Lower(lines[i]);
        if Opens(ProjectKeywords, lines[i]) {
          ScanOpens(ProjectKeywords, lines, i);
          ProjectsSkip(lines, i);
          inProjectsSection := true;
        } else if inProjectsSection && IsSectionHeader(line) {
          ScanCloses(ProjectKeywords, lines, i);
          ProjectsSkip(lines, i);
          inProjectsSection := false;
        } else {
          ScanVisits(ProjectKeywords, lines, i);
          ProjectsVisit(lines, i);
          if inProjectsSection && Trim(lines[i]) != "" {
            var project := ProjectAt(lines, i);
            AppendAssoc(start, ProjectEntries(lines, i), [project]);
            sections.projects := sections.projects + [project];
          }
        }
      }
    }

    /** `extractCertifications(lines)` */
    method ExtractCertifications(lines: seq<string>)
      modifies resumeData.sections`certifications
      ensures resumeData.sections.certifications == old(resumeData.sections.certifications) + Certifications(lines)
    {
      var sections := resumeData.sections;
      ghost var start := sections.certifications;
      for i := 0 to |lines|
        invariant sections.certifications == start + Certifications(lines[..i])
      {
        CertificationsStep(lines, i);
        if ContainsAny(Lower(lines[i]), CertificationKeywords) {
          sections.certifications := sections.certifications + [Trim(lines[i])];
        }
      }
      assert lines[..|lines|] == lines;
    }
  }
}
