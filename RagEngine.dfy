/** The rule-based answer engine (rag-chatbot/rag-system/rag-engine.js): a
    question is classified by keyword tests on its lower-case text, first
    match wins, and a templated answer is built from the parsed resume. */
module RagEngine {
  import opened Common
  import opened Resume
  import ResumeParser

  // ------------------------------------------------------------------
  // Keyword lists of the `is*Question` tests

  const EducationQuestionKeywords: seq<string> :=
    ["education", "degree", "university", "college", "school", "study", "studied",
     "bachelor", "master", "phd", "graduation", "graduated", "academic", "qualification"]
  const WorkQuestionKeywords: seq<string> :=
    ["work", "job", "experience", "employment", "career", "position", "role",
     "worked", "employed", "company", "companies", "employer", "professional"]
  const CurrentJobQuestionKeywords: seq<string> :=
    ["current", "currently", "now", "present", "today", "working at",
     "current job", "current position", "current role", "current company"]
  const SkillsQuestionKeywords: seq<string> :=
    ["skills", "skill", "technology", "technologies", "programming", "languages",
     "tools", "software", "technical", "expertise", "proficient", "know"]
  const ProjectsQuestionKeywords: seq<string> :=
    ["project", "projects", "built", "build", "developed", "created", "made",
     "portfolio", "work", "application", "app", "website", "system"]
  const PersonalQuestionKeywords: seq<string> :=
    ["name", "email", "phone", "contact", "linkedin", "github", "profile",
     "reach", "connect", "who are you", "about you"]

  /** Questions longer than this, matching no topic, are read as job postings. */
  const JobDescriptionLength: nat := 200

  // ------------------------------------------------------------------
  // Dispatch

  datatype Intent =
    | AskEducation | AskWork | AskSkills | AskProjects | AskCurrentJob | AskPersonalInfo
    | AnalyzeJob | SearchGeneral

  /** The topic tests in the order `answerQuestion` runs them. */
  const TopicKeywords: seq<seq<string>> :=
    [EducationQuestionKeywords, WorkQuestionKeywords, SkillsQuestionKeywords,
     ProjectsQuestionKeywords, CurrentJobQuestionKeywords, PersonalQuestionKeywords]
  const TopicIntents: seq<Intent> :=
    [AskEducation, AskWork, AskSkills, AskProjects, AskCurrentJob, AskPersonalInfo]

  /** `isEducationQuestion(q)` and its siblings, on the lower-case question. */
  predicate IsEducationQuestion(q: string) { ContainsAny(q, EducationQuestionKeywords) }
  predicate IsWorkQuestion(q: string) { ContainsAny(q, WorkQuestionKeywords) }
  predicate IsSkillsQuestion(q: string) { ContainsAny(q, SkillsQuestionKeywords) }
  predicate IsProjectsQuestion(q: string) { ContainsAny(q, ProjectsQuestionKeywords) }
  predicate IsCurrentJobQuestion(q: string) { ContainsAny(q, CurrentJobQuestionKeywords) }
  predicate IsPersonalQuestion(q: string) { ContainsAny(q, PersonalQuestionKeywords) }

  /** Which branch of `answerQuestion` a question takes. */
  function Classify(question: string): Intent {
    var q := Lower(question);
    if IsEducationQuestion(q) then AskEducation
    else if IsWorkQuestion(q) then AskWork
    else if IsSkillsQuestion(q) then AskSkills
    else if IsProjectsQuestion(q) then AskProjects
    else if IsCurrentJobQuestion(q) then AskCurrentJob
    else if IsPersonalQuestion(q) then AskPersonalInfo
    else if |question| > JobDescriptionLength then AnalyzeJob
    else SearchGeneral
  }

  /** A question goes to topic `k` exactly when it names one of that topic's
      keywords and none of an earlier topic's. */
  lemma ClassifyFirstMatch(question: string, k: nat)
    requires k < |TopicKeywords|
    ensures Classify(question) == TopicIntents[k] <==>
              ContainsAny(Lower(question), TopicKeywords[k])
              && forall j :: 0 <= j < k ==> !ContainsAny(Lower(question), TopicKeywords[j])
  {
    var q := Lower(question);
    assert TopicKeywords[0] == EducationQuestionKeywords && TopicKeywords[1] == WorkQuestionKeywords;
    assert TopicKeywords[2] == SkillsQuestionKeywords && TopicKeywords[3] == ProjectsQuestionKeywords;
    assert TopicKeywords[4] == CurrentJobQuestionKeywords && TopicKeywords[5] == PersonalQuestionKeywords;
    if forall j :: 0 <= j < k ==> !ContainsAny(q, TopicKeywords[j]) {
      assert k > 0 ==> !IsEducationQuestion(q);
      assert k > 1 ==> !IsWorkQuestion(q);
      assert k > 2 ==> !IsSkillsQuestion(q);
      assert k > 3 ==> !IsProjectsQuestion(q);
      assert k > 4 ==> !IsCurrentJobQuestion(q);
    }
  }

  /** A question naming no topic is a job posting when longer than 200
      characters, and a search otherwise. */
  lemma ClassifyFallback(question: string)
    ensures (Classify(question) == AnalyzeJob || Classify(question) == SearchGeneral) <==>
              forall k :: 0 <= k < |TopicKeywords| ==> !ContainsAny(Lower(question), TopicKeywords[k])
    ensures Classify(question) == AnalyzeJob <==>
              (forall k :: 0 <= k < |TopicKeywords| ==> !ContainsAny(Lower(question), TopicKeywords[k]))
              && |question| > JobDescriptionLength
  {
    var q := Lower(question);
    assert TopicKeywords[0] == EducationQuestionKeywords && TopicKeywords[1] == WorkQuestionKeywords;
    assert TopicKeywords[2] == SkillsQuestionKeywords && TopicKeywords[3] == ProjectsQuestionKeywords;
    assert TopicKeywords[4] == CurrentJobQuestionKeywords && TopicKeywords[5] == PersonalQuestionKeywords;
    if forall k :: 0 <= k < |TopicKeywords| ==> !ContainsAny(q, TopicKeywords[k]) {
      assert !ContainsAny(q, TopicKeywords[0]) && !ContainsAny(q, TopicKeywords[1]);
      assert !ContainsAny(q, TopicKeywords[2]) && !ContainsAny(q, TopicKeywords[3]);
      assert !ContainsAny(q, TopicKeywords[4]) && !ContainsAny(q, TopicKeywords[5]);
    }
  }

  /** "work" and "job" are work keywords, tested second: a question naming
      either never reaches the skills, projects, current-job or contact
      branches. */
  lemma WorkWordsWin(question: string)
    requires Contains(Lower(question), "work") || Contains(Lower(question), "job")
    ensures Classify(question) == AskEducation || Classify(question) == AskWork
  {
    assert WorkQuestionKeywords[0] == "work" && WorkQuestionKeywords[1] == "job";
    if Contains(Lower(question), "work") {
      assert Contains(Lower(question), WorkQuestionKeywords[0]);
    } else {
      assert Contains(Lower(question), WorkQuestionKeywords[1]);
    }
  }

  /** A question that includes a phrase holding a work keyword is a work
      question. */
  lemma PhraseWithWorkWord(question: string, phrase: string, j: nat, at: nat)
    requires j < |WorkQuestionKeywords| && Contains(Lower(question), phrase)
    requires at + |WorkQuestionKeywords[j]| <= |phrase| && phrase[at..at + |WorkQuestionKeywords[j]|] == WorkQuestionKeywords[j]
    ensures Classify(question) == AskEducation || Classify(question) == AskWork
  {
    OccursContains(phrase, WorkQuestionKeywords[j], at);
    ContainsTransitive(Lower(question), phrase, WorkQuestionKeywords[j]);
    assert IsWorkQuestion(Lower(question));
  }

  /** Half of the current-job phrases hold a work keyword ("working at",
      "current job", "current position", "current role", "current company"),
      so a question naming one of them is answered from the work history. */
  lemma CurrentJobPhrasesGoToWork(question: string, k: nat)
    requires 5 <= k < |CurrentJobQuestionKeywords|
    requires Contains(Lower(question), CurrentJobQuestionKeywords[k])
    ensures Classify(question) == AskEducation || Classify(question) == AskWork
  {
    var phrase := CurrentJobQuestionKeywords[k];
    if k == 5 {
      assert phrase == "working at" && phrase[0..4] == "work";
      PhraseWithWorkWord(question, phrase, 0, 0);
    } else if k == 6 {
      assert phrase == "current " + "job";
      PhraseWithWorkWord(question, phrase, 1, 8);
    } else if k == 7 {
      assert phrase == "current " + "position";
      PhraseWithWorkWord(question, phrase, 5, 8);
    } else if k == 8 {
      assert phrase == "current " + "role";
      PhraseWithWorkWord(question, phrase, 6, 8);
    } else {
      assert phrase == "current " + "company";
      PhraseWithWorkWord(question, phrase, 9, 8);
    }
  }

  // ------------------------------------------------------------------
  // Fixed texts

  const NoResumeAnswer := "Please upload your resume first so I can answer questions about your background."
  const NoEducationAnswer :=
    "I couldn't find specific education information in your resume. You might want to add more details about your educational background."
  const EducationHeader := "Based on your resume, here's your educational background:\n\n"
  const NoWorkAnswer :=
    "I couldn't find specific work experience information in your resume. You might want to add more details about your professional background."
  const WorkHeader := "Here's your work experience based on your resume:\n\n"
  const NoCurrentJobAnswer := "I couldn't find clear information " + "about your current employment in your resume."
  const NoSkillsAnswer :=
    "I couldn't find a specific skills section in your resume. You might want to add more details about your technical skills and expertise."
  const SkillsHeader := "Based on your resume, your skills include:\n\n"
  const NoProjectsAnswer :=
    "I couldn't find specific project information in your resume. You might want to add more details about projects you've worked on."
  const ProjectsHeader := "Based on your resume, here are your projects:\n\n"
  const PersonalHeader := "Here's your contact information from your resume:\n\n"
  const NoPersonalAnswer :=
    "I couldn't extract specific contact information from your resume. Make sure your name, email, and other contact details are clearly visible."
  const FoundHeader := "Based on your resume, here's what I found related to your question:\n\n"
  const SummaryHeader :=
    "I couldn't find specific information about that in your resume. Here's a summary of what I know about you:\n\n"
  const RephraseRequest :=
    "\n\nCould you please rephrase your question or ask about something more specific like your education, work experience, or skills?"

  predicate Present(s: string) {
    s != ""
  }

  /** `${index + 1}. `, the number in front of every listed entry. */
  function Numbered(i: nat): string {
    NatToString(i + 1) + ". "
  }

  // ------------------------------------------------------------------
  // Education

  /** One line of the education answer; an empty degree adds nothing. */
  function EducationItem(i: nat, e: Education): string {
    Numbered(i) + e.degree
    + (if e.field != "" then " in " + e.field else "")
    + (if e.institution != "" then " from " + e.institution else "")
    + (if e.year != "" then " (" + e.year + ")" else "")
    + "\n"
  }

  /** The institutions named, when the question asks where. */
  function StudiedAt(education: seq<Education>, question: string): string {
    var institutions := Filter(Present, MapSeq((e: Education) => e.institution, education));
    if (Contains(question, "where") || Contains(question, "which university") || Contains(question, "which college"))
       && institutions != []
    then "\nYou studied at: " + Join(institutions, ", ")
    else ""
  }

  /** The years named, when the question asks when. */
  function GraduationYears(education: seq<Education>, question: string): string {
    var years := Filter(Present, MapSeq((e: Education) => e.year, education));
    if (Contains(question, "when") || Contains(question, "year")) && years != []
    then "\nGraduation years: " + Join(years, ", ")
    else ""
  }

  /** `getEducationAnswer(question)`, for the lower-case question. */
  function EducationAnswer(education: seq<Education>, question: string): string {
    if education == [] then NoEducationAnswer
    else EducationHeader + Enumerate(education, EducationItem) + StudiedAt(education, question) + GraduationYears(education, question)
  }

  /** Every education entry is listed, numbered from 1. */
  lemma EducationAnswerListsEntries(education: seq<Education>, question: string, k: nat)
    requires k < |education|
    ensures Contains(EducationAnswer(education, question), EducationItem(k, education[k]))
  {
    var item := EducationItem(k, education[k]);
    var listed := Enumerate(education, EducationItem);
    EnumerateContains(education, EducationItem, k);
    ContainsConcat(EducationHeader, listed, item);
    ContainsConcat(EducationHeader + listed, StudiedAt(education, question), item);
    ContainsConcat(EducationHeader + listed + StudiedAt(education, question), GraduationYears(education, question), item);
  }

  /** A question asking where names every institution the resume gives. */
  lemma EducationAnswerNamesInstitutions(education: seq<Education>, question: string, k: nat)
    requires k < |education| && education[k].institution != "" && Contains(question, "where")
    ensures Contains(EducationAnswer(education, question), education[k].institution)
  {
    var names := MapSeq((e: Education) => e.institution, education);
    var institutions := Filter(Present, names);
    var name := education[k].institution;
    FilterSpec(Present, names);
    assert names[k] == name;
    assert name in institutions;
    var j :| 0 <= j < |institutions| && institutions[j] == name;
    JoinContains(institutions, ", ", j);
    ContainsConcat("\nYou studied at: ", Join(institutions, ", "), name);
    var head := EducationHeader + Enumerate(education, EducationItem);
    ContainsConcat(head, StudiedAt(education, question), name);
    ContainsConcat(head + StudiedAt(education, question), GraduationYears(education, question), name);
  }

  // ------------------------------------------------------------------
  // Work experience

  /** `d.substring(0, limit)` followed by "..." when something was cut. */
  function Shorten(d: string, limit: nat): string {
    Take(d, limit) + (if |d| > limit then "..." else "")
  }

  /** A short text is kept whole; a long one keeps its first `limit`
      characters and gains "...". */
  lemma ShortenSpec(d: string, limit: nat)
    ensures |d| <= limit ==> Shorten(d, limit) == d
    ensures |d| > limit ==> Shorten(d, limit) == d[..limit] + "..." && |Shorten(d, limit)| == limit + 3
  {
  }

  /** ` (start - end)` when either year is known, "?" and "Present" standing in. */
  function YearRange(e: Experience): string {
    if e.startYear != "" || e.endYear != "" then
      " (" + (if e.startYear != "" then e.startYear else "?") + " - " + (if e.endYear != "" then e.endYear else "Present") + ")"
    else ""
  }

  lemma YearRangeSpec(e: Experience)
    ensures YearRange(e) == "" <==> e.startYear == "" && e.endYear == ""
    ensures e.startYear == "" && e.endYear != "" ==> YearRange(e) == " (? - " + e.endYear + ")"
    ensures e.startYear != "" && e.endYear == "" ==> YearRange(e) == " (" + e.startYear + " - Present)"
    ensures e.startYear != "" && e.endYear != "" ==> YearRange(e) == " (" + e.startYear + " - " + e.endYear + ")"
  {
  }

  /** The description cut to 200 characters, under the title line. */
  const WorkDescriptionLimit: nat := 200

  function WorkItem(i: nat, e: Experience): string {
    Numbered(i) + e.title
    + (if e.company != "" then " at " + e.company else "")
    + YearRange(e)
    + (if e.description != "" && Trim(e.description) != "" then "\n   " + Shorten(e.description, WorkDescriptionLimit) else "")
    + "\n\n"
  }

  /** `getWorkExperienceAnswer()` */
  function WorkAnswer(experience: seq<Experience>): string {
    if experience == [] then NoWorkAnswer else Trim(WorkHeader + Enumerate(experience, WorkItem))
  }

  // ------------------------------------------------------------------
  // The current job

  /** `parseInt(startYear)` ordered: a number beats no number, and a larger
      number beats a smaller one. */
  predicate StartsLater(a: Experience, b: Experience) {
    var x, y := ParseInt(a.startYear), ParseInt(b.startYear);
    x.Some? && (y.None? || x.value > y.value)
  }

  predicate Dated(e: Experience) {
    e.startYear != ""
  }

  /** `experience.filter(exp => exp.startYear).sort(byStartDescending)[0]`, as
      an index: the earliest of the dated entries that no other starts later
      than, since the sort is stable. */
  function MostRecent(exps: seq<Experience>): (r: Option<nat>)
    ensures r.Some? ==> r.value < |exps| && Dated(exps[r.value])
    decreases |exps|
  {
    if exps == [] then None
    else
      var k := |exps| - 1;
      var prev := MostRecent(exps[..k]);
      if !Dated(exps[k]) then prev
      else if prev.None? || StartsLater(exps[k], exps[prev.value]) then Some(k)
      else prev
  }

  /** The fallback picks a dated entry no dated entry starts later than, and
      every dated entry before it starts strictly earlier; with no dated
      entry there is no pick. */
  lemma {:induction false} MostRecentIsLatest(exps: seq<Experience>)
    ensures MostRecent(exps).None? <==> forall k :: 0 <= k < |exps| ==> !Dated(exps[k])
    ensures MostRecent(exps).Some? ==>
              var r := MostRecent(exps).value;
              && r < |exps| && Dated(exps[r])
              && (forall k :: 0 <= k < |exps| && Dated(exps[k]) ==> !StartsLater(exps[k], exps[r]))
              && (forall k :: 0 <= k < r && Dated(exps[k]) ==> StartsLater(exps[r], exps[k]))
    decreases |exps|
  {
    if exps != [] {
      var k := |exps| - 1;
      var init := exps[..k];
      MostRecentIsLatest(init);
      assert forall j :: 0 <= j < k ==> init[j] == exps[j];
      var prev := MostRecent(init);
      if Dated(exps[k]) && prev.Some? && StartsLater(exps[k], exps[prev.value]) {
        forall j | 0 <= j < k && Dated(exps[j])
          ensures StartsLater(exps[k], exps[j])
        {
          assert !StartsLater(init[j], init[prev.value]);
        }
      }
    }
  }

  /** What `getCurrentJobAnswer` says about a job it found current. */
  function CurrentJobText(job: Experience): string {
    "Currently, you are working as " + job.title
    + (if job.company != "" then " at " + job.company else "")
    + (if job.startYear != "" then " since " + job.startYear else "")
    + (if job.description != "" && Trim(job.description) != "" then ".\n\nYour role involves: " + job.description else "")
  }

  /** What it says about the most recent job when none is current. */
  function MostRecentText(job: Experience): string {
    "Based on your resume, " + "your most recent position was " + job.title
    + (if job.company != "" then " at " + job.company else "")
    + (if job.startYear != "" then " starting in " + job.startYear else "")
    + ". " + job.description
  }

  /** `getCurrentJobAnswer()`, with the current year as a parameter. */
  function CurrentJobAnswer(experience: seq<Experience>, currentYear: int): string {
    match FindCurrentJob(experience, currentYear)
    case Some(k) => CurrentJobText(experience[k])
    case None =>
      match MostRecent(experience)
      case Some(k) => MostRecentText(experience[k])
      case None => NoCurrentJobAnswer
  }

  /** The answer walks three steps: the first current job; when there is
      none, the dated job no other dated job starts later than (the earliest
      such one in the list); when no job is dated either, the fixed message.
      The fixed message comes back exactly in that last case. */
  lemma CurrentJobFallsBack(experience: seq<Experience>, currentYear: int)
    ensures (exists k :: 0 <= k < |experience| && IsCurrentJob(experience[k], currentYear))
            ==> CurrentJobAnswer(experience, currentYear) == CurrentJobText(experience[FindCurrentJob(experience, currentYear).value])
    ensures (forall k :: 0 <= k < |experience| ==> !IsCurrentJob(experience[k], currentYear))
            && (exists k :: 0 <= k < |experience| && Dated(experience[k]))
            ==> exists r :: && 0 <= r < |experience| && Dated(experience[r])
                            && (forall k :: 0 <= k < |experience| && Dated(experience[k]) ==> !StartsLater(experience[k], experience[r]))
                            && (forall k :: 0 <= k < r && Dated(experience[k]) ==> StartsLater(experience[r], experience[k]))
                            && CurrentJobAnswer(experience, currentYear) == MostRecentText(experience[r])
    ensures CurrentJobAnswer(experience, currentYear) == NoCurrentJobAnswer
            <==> forall k :: 0 <= k < |experience| ==> !IsCurrentJob(experience[k], currentYear) && !Dated(experience[k])
  {
    MostRecentIsLatest(experience);
    var current := FindCurrentJob(experience, currentYear);
    if current.Some? {
      CurrentJobTextIsNotFallback(experience[current.value]);
    } else if MostRecent(experience).Some? {
      MostRecentTextIsNotFallback(experience[MostRecent(experience).value]);
    }
  }

  lemma CurrentJobTextIsNotFallback(job: Experience)
    ensures CurrentJobText(job) != NoCurrentJobAnswer
  {
    assert CurrentJobText(job)[0] == 'C';
    assert NoCurrentJobAnswer[0] == 'I';
  }

  lemma MostRecentTextIsNotFallback(job: Experience)
    ensures MostRecentText(job) != NoCurrentJobAnswer
  {
    assert MostRecentText(job)[0] == 'B';
    assert NoCurrentJobAnswer[0] == 'I';
  }

  // ------------------------------------------------------------------
  // Skills

  const TechnicalSkillKeywords: seq<string> := ["javascript", "python", "java", "react", "node", "angular", "vue", "html", "css"]
  const DatabaseSkillKeywords: seq<string> := ["sql", "mongodb", "postgresql", "mysql", "database"]
  const CloudSkillKeywords: seq<string> := ["aws", "azure", "cloud", "docker", "kubernetes"]

  /** The most "Other Skills" lists. */
  const OtherSkillLimit: nat := 10

  predicate IsTechnical(skill: string) {
    ContainsAny(Lower(skill), TechnicalSkillKeywords)
  }

  predicate IsDatabase(skill: string) {
    ContainsAny(Lower(skill), DatabaseSkillKeywords)
  }

  predicate IsCloud(skill: string) {
    ContainsAny(Lower(skill), CloudSkillKeywords)
  }

  /** `skills.filter(skill => !technicalSkills.includes(skill) && ...)` */
  function OtherSkills(skills: seq<string>): seq<string> {
    var technical, database, cloud := Filter(IsTechnical, skills), Filter(IsDatabase, skills), Filter(IsCloud, skills);
    Filter((s: string) => s !in technical && s !in database && s !in cloud, skills)
  }

  /** One labelled group of skills, present only when the group is not empty. */
  function SkillGroup(heading: string, group: seq<string>, tail: string): string {
    if group != [] then heading + Join(group, ", ") + tail else ""
  }

  /** `getSkillsAnswer()` */
  function SkillsAnswer(skills: seq<string>): string {
    if skills == [] then NoSkillsAnswer
    else
      SkillsHeader
      + SkillGroup("**Programming & Development:** ", Filter(IsTechnical, skills), "\n\n")
      + SkillGroup("**Databases:** ", Filter(IsDatabase, skills), "\n\n")
      + SkillGroup("**Cloud & DevOps:** ", Filter(IsCloud, skills), "\n\n")
      + SkillGroup("**Other Skills:** ", Take(OtherSkills(skills), OtherSkillLimit), "")
  }

  /** Each named group holds exactly the skills that mention one of its
      keywords, and "Other" exactly those that mention none. */
  lemma SkillGroups(skills: seq<string>, s: string)
    ensures s in Filter(IsTechnical, skills) <==> s in skills && IsTechnical(s)
    ensures s in Filter(IsDatabase, skills) <==> s in skills && IsDatabase(s)
    ensures s in Filter(IsCloud, skills) <==> s in skills && IsCloud(s)
    ensures s in OtherSkills(skills) <==> s in skills && !IsTechnical(s) && !IsDatabase(s) && !IsCloud(s)
  {
    FilterSpec(IsTechnical, skills);
    FilterSpec(IsDatabase, skills);
    FilterSpec(IsCloud, skills);
    var technical, database, cloud := Filter(IsTechnical, skills), Filter(IsDatabase, skills), Filter(IsCloud, skills);
    FilterSpec((x: string) => x !in technical && x !in database && x !in cloud, skills);
  }

  /** The groups are filtered independently: "Java SQL" is listed both under
      programming and under databases. */
  lemma SkillGroupsOverlap()
    ensures "Java SQL" in Filter(IsTechnical, ["Java SQL"]) && "Java SQL" in Filter(IsDatabase, ["Java SQL"])
  {
    var s := "Java SQL";
    assert Lower(s) == "java sql";
    OccursContains("java sql", "java", 0);
    OccursContains("java sql", "sql", 5);
    assert Contains(Lower(s), TechnicalSkillKeywords[2]);
    assert Contains(Lower(s), DatabaseSkillKeywords[0]);
    SkillGroups([s], s);
  }

  // ------------------------------------------------------------------
  // Projects

  function ProjectItem(i: nat, p: Project): string {
    Numbered(i) + "**" + p.name + "**"
    + (if p.description != "" && Trim(p.description) != "" then "\n   " + p.description else "")
    + "\n\n"
  }

  /** `getProjectsAnswer()` */
  function ProjectsAnswer(projects: seq<Project>): string {
    if projects == [] then NoProjectsAnswer else Trim(ProjectsHeader + Enumerate(projects, ProjectItem))
  }

  // ------------------------------------------------------------------
  // Contact details

  /** One `**Label:** value` line, for a field that is present and not empty. */
  function ContactLine(heading: string, field: Option<string>): string {
    if Truthy(field) then heading + field.value + "\n" else ""
  }

  /** `getPersonalInfoAnswer()`: the fixed message when no field was ever
      set, the lines of the non-empty fields otherwise. */
  function PersonalAnswer(p: PersonalInfo): string {
    if p.IsEmpty() then NoPersonalAnswer
    else
      PersonalHeader
      + ContactLine("**Name:** ", p.name)
      + ContactLine("**Email:** ", p.email)
      + ContactLine("**Phone:** ", p.phone)
      + ContactLine("**LinkedIn:** ", p.linkedin)
      + ContactLine("**GitHub:** ", p.github)
  }

  /** The emptiness test counts keys, not values: fields that were set to
      empty text leave the header alone rather than the fixed message. */
  lemma PersonalAnswerCountsKeys(p: PersonalInfo)
    ensures p.IsEmpty() ==> PersonalAnswer(p) == NoPersonalAnswer
    ensures (!p.IsEmpty() && !Truthy(p.name) && !Truthy(p.email) && !Truthy(p.phone)
             && !Truthy(p.linkedin) && !Truthy(p.github)) ==> PersonalAnswer(p) == PersonalHeader
    ensures Truthy(p.email) ==> Contains(PersonalAnswer(p), "**Email:** " + p.email.value + "\n")
  {
    if Truthy(p.email) {
      var line := "**Email:** " + p.email.value + "\n";
      var before := PersonalHeader + ContactLine("**Name:** ", p.name);
      ContainsItself(line);
      ContainsConcat(before, line, line);
      ContainsConcat(before + line, ContactLine("**Phone:** ", p.phone), line);
      ContainsConcat(before + line + ContactLine("**Phone:** ", p.phone), ContactLine("**LinkedIn:** ", p.linkedin), line);
      ContainsConcat(before + line + ContactLine("**Phone:** ", p.phone) + ContactLine("**LinkedIn:** ", p.linkedin),
                     ContactLine("**GitHub:** ", p.github), line);
    }
  }

  // ------------------------------------------------------------------
  // General search

  /** The resume summary given when the search finds nothing. */
  function ResumeSummary(s: Sections): string {
    SummaryHeader
    + (if Truthy(s.personalInfo.name) then "You are " + s.personalInfo.name.value + ". " else "")
    + (if s.experience != [] then
         "You work as " + s.experience[0].title + (if s.experience[0].company != "" then " at " + s.experience[0].company else "") + ". "
       else "")
    + (if s.education != [] then
         "You have " + s.education[0].degree + (if s.education[0].field != "" then " in " + s.education[0].field else "") + ". "
       else "")
    + RephraseRequest
  }

  /** `performGeneralSearch(question)`: the parser's search on the raw text. */
  function GeneralSearchAnswer(s: Sections, rawText: string, question: string): string {
    var results := ResumeParser.SearchResume(rawText, question);
    if results != "" && Trim(results) != "" then FoundHeader + results else ResumeSummary(s)
  }

  /** A question the text does not contain, ignoring case, gets the summary. */
  lemma SearchMissGivesSummary(s: Sections, rawText: string, question: string)
    requires !Contains(Lower(rawText), Lower(question))
    ensures GeneralSearchAnswer(s, rawText, question) == ResumeSummary(s)
  {
    ResumeParser.SearchResumeSpec(rawText, question);
  }

  /** When the search finds sentences that are not all white space, they
      follow the found header; a blank search result falls back to the
      summary. */
  lemma SearchHitGivesSentences(s: Sections, rawText: string, question: string)
    ensures Contains(Lower(rawText), Lower(question)) && Trim(ResumeParser.SearchResume(rawText, question)) != ""
            ==> GeneralSearchAnswer(s, rawText, question)
                == FoundHeader + Join(ResumeParser.SearchHits(rawText, Lower(question)), " ")
    ensures Trim(ResumeParser.SearchResume(rawText, question)) == ""
            ==> GeneralSearchAnswer(s, rawText, question) == ResumeSummary(s)
  {
    ResumeParser.SearchResumeSpec(rawText, question);
    assert Trim("") == "";
  }


  // ------------------------------------------------------------------
  // Job-description analysis

  /** A lower-case skill matches a posting that contains it or any of its
      space-separated words. */
  predicate SkillMatches(job: string, skill: string) {
    Contains(job, skill) || ContainsAny(job, SplitOn(skill, ' '))
  }

  /** A job is relevant when the posting names its title or company, or any
      word of its description. */
  predicate IsRelevant(job: string, e: Experience) {
    || Contains(job, Lower(e.title))
    || (e.company != "" && Contains(job, Lower(e.company)))
    || (e.description != "" && ContainsAny(job, SplitOn(Lower(e.description), ' ')))
  }

  function MatchingSkills(skills: seq<string>, job: string): seq<string> {
    Filter((skill: string) => SkillMatches(job, skill), MapSeq(Lower, skills))
  }

  function RelevantExperience(experience: seq<Experience>, job: string): seq<Experience> {
    Filter((e: Experience) => IsRelevant(job, e), experience)
  }

  /** The matched skills are the lower-cased skills that match the posting. */
  lemma MatchingSkillsSpec(skills: seq<string>, job: string, m: string)
    ensures m in MatchingSkills(skills, job) <==>
              (exists k :: 0 <= k < |skills| && m == Lower(skills[k])) && SkillMatches(job, m)
  {
    var lowered := MapSeq(Lower, skills);
    FilterSpec((skill: string) => SkillMatches(job, skill), lowered);
    if m in lowered {
      var k :| 0 <= k < |lowered| && lowered[k] == m;
      assert m == Lower(skills[k]);
    }
    if exists k :: 0 <= k < |skills| && m == Lower(skills[k]) {
      var k :| 0 <= k < |skills| && m == Lower(skills[k]);
      assert lowered[k] == m;
    }
  }

  /** A skill with an empty word (two spaces in a row, or a space at either
      end) matches every posting, since every text includes "". */
  lemma EmptyWordMatchesAnything(job: string, skill: string)
    requires "" in SplitOn(skill, ' ')
    ensures SkillMatches(job, skill)
  {
    var words := SplitOn(skill, ' ');
    var k :| 0 <= k < |words| && words[k] == "";
    assert OccursAt(job, words[k], 0);
    OccursContains(job, words[k], 0);
  }

  /** A job with an empty title is relevant to every posting. */
  lemma UntitledJobIsRelevant(job: string, e: Experience)
    requires e.title == ""
    ensures IsRelevant(job, e)
  {
    assert Lower(e.title) == "";
    assert OccursAt(job, "", 0);
    OccursContains(job, "", 0);
  }

  const Checked := "\U{2705} "
  const Warning := "\U{26A0}\U{FE0F} "
  const Bullet := "\U{2022} "

  function RelevantItem(i: nat, e: Experience): string {
    Checked + e.title + (if e.company != "" then " at " + e.company else "") + "\n"
  }

  /** The analysis up to the relevant experience. */
  function SkillsPart(skills: seq<string>, job: string): string {
    var matching := MatchingSkills(skills, job);
    "## Job Fit Analysis\n\n" + "**Your Matching Skills:**\n"
    + (if matching != [] then Checked + Join(matching, ", ") + "\n\n"
       else Warning + "No direct skill matches found, but you may have transferable skills.\n\n")
    + "**Relevant Experience:**\n"
  }

  const CandidateHeading := "\n**Why You're a Strong Candidate:**\n"

  function RolesLine(count: nat): string {
    Bullet + NatToString(count) + " professional roles showing career progression\n"
  }

  function SkillCountLine(count: nat): string {
    Bullet + NatToString(count) + " technical skills demonstrating versatility\n"
  }

  /** The first degree, when there is education at all. */
  function EducationLine(education: seq<Education>): string {
    if education != [] then Bullet + "Strong educational foundation with " + education[0].degree + "\n" else ""
  }

  /** The closing bullets: the counts, then the first degree when there is one. */
  function CandidatePart(s: Sections): string {
    CandidateHeading + RolesLine(|s.experience|) + SkillCountLine(|s.skills|) + EducationLine(s.education)
  }

  const NoRelevantExperience := Warning + "No directly matching experience, but your background may still be relevant.\n"

  /** The relevant jobs, or the warning that there are none. */
  function ExperiencePart(relevant: seq<Experience>): string {
    if relevant != [] then Enumerate(relevant, RelevantItem) else NoRelevantExperience
  }

  /** `analyzeJobDescription(jobDescription)` */
  function JobAnalysis(s: Sections, jobDescription: string): string {
    var job := Lower(jobDescription);
    SkillsPart(s.skills, job) + ExperiencePart(RelevantExperience(s.experience, job)) + CandidatePart(s)
  }

  /** The analysis closes with the education bullet when there is education,
      and with the skills count otherwise. */
  lemma JobAnalysisEnding(s: Sections, jobDescription: string)
    ensures s.education != [] ==>
              EndsWith(JobAnalysis(s, jobDescription), Bullet + "Strong educational foundation with " + s.education[0].degree + "\n")
    ensures s.education == [] ==> EndsWith(JobAnalysis(s, jobDescription), SkillCountLine(|s.skills|))
  {
    var job := Lower(jobDescription);
    var head := SkillsPart(s.skills, job) + ExperiencePart(RelevantExperience(s.experience, job));
    var counts := CandidateHeading + RolesLine(|s.experience|) + SkillCountLine(|s.skills|);
    var last := if s.education != [] then EducationLine(s.education) else SkillCountLine(|s.skills|);
    var before := if s.education != [] then counts else CandidateHeading + RolesLine(|s.experience|);
    assert CandidatePart(s) == before + last;
    EndsWithConcat(before, last, last);
    EndsWithConcat(head, CandidatePart(s), last);
  }

  /** The analysis states how many jobs and skills the resume lists. */
  lemma JobAnalysisCounts(s: Sections, jobDescription: string)
    ensures Contains(JobAnalysis(s, jobDescription), RolesLine(|s.experience|))
    ensures Contains(JobAnalysis(s, jobDescription), SkillCountLine(|s.skills|))
  {
    var job := Lower(jobDescription);
    var head := SkillsPart(s.skills, job) + ExperiencePart(RelevantExperience(s.experience, job));
    var roles, skillLine := RolesLine(|s.experience|), SkillCountLine(|s.skills|);
    var edu := EducationLine(s.education);
    ContainsItself(roles);
    ContainsItself(skillLine);
    ContainsConcat(CandidateHeading, roles, roles);
    ContainsConcat(CandidateHeading + roles, skillLine, roles);
    ContainsConcat(CandidateHeading + roles, skillLine, skillLine);
    ContainsConcat(CandidateHeading + roles + skillLine, edu, roles);
    ContainsConcat(CandidateHeading + roles + skillLine, edu, skillLine);
    ContainsConcat(head, CandidatePart(s), roles);
    ContainsConcat(head, CandidatePart(s), skillLine);
  }

  // ------------------------------------------------------------------
  // The answer to any question

  /** `answerQuestion(question)` once a resume is loaded. */
  function Answer(s: Sections, rawText: string, question: string, currentYear: int): string {
    var q := Lower(question);
    match Classify(question)
    case AskEducation => EducationAnswer(s.education, q)
    case AskWork => WorkAnswer(s.experience)
    case AskSkills => SkillsAnswer(s.skills)
    case AskProjects => ProjectsAnswer(s.projects)
    case AskCurrentJob => CurrentJobAnswer(s.experience, currentYear)
    case AskPersonalInfo => PersonalAnswer(s.personalInfo)
    case AnalyzeJob => JobAnalysis(s, question)
    case SearchGeneral => GeneralSearchAnswer(s, rawText, question)
  }

  /** Every builder gives its fixed message when it has nothing to list. */
  lemma EmptyAnswers(s: Sections, question: string, currentYear: int)
    ensures s.education == [] ==> EducationAnswer(s.education, question) == NoEducationAnswer
    ensures s.experience == [] ==> WorkAnswer(s.experience) == NoWorkAnswer
    ensures s.experience == [] ==> CurrentJobAnswer(s.experience, currentYear) == NoCurrentJobAnswer
    ensures s.skills == [] ==> SkillsAnswer(s.skills) == NoSkillsAnswer
    ensures s.projects == [] ==> ProjectsAnswer(s.projects) == NoProjectsAnswer
    ensures s.personalInfo.IsEmpty() ==> PersonalAnswer(s.personalInfo) == NoPersonalAnswer
  {
  }

  class RagEngine {
    var resumeParser: ResumeParser.ResumeParser?
    var resumeData: ResumeData?

    /** Both links are set together, and the record is the parser's own. */
    predicate Valid()
      reads this
    {
      && (resumeParser == null <==> resumeData == null)
      && (resumeParser != null ==> resumeData == resumeParser.resumeData)
    }

    constructor ()
      ensures Valid() && resumeParser == null && resumeData == null
    {
      resumeParser := null;
      resumeData := null;
    }

    /** `initialize(resumeParser)`: the engine shares the parser's record. */
    method Initialize(parser: ResumeParser.ResumeParser)
      modifies this
      ensures Valid() && resumeParser == parser && resumeData == parser.resumeData
    {
      resumeParser := parser;
      resumeData := parser.resumeData;
    }

    /** `answerQuestion(question)`; the current year is a parameter. */
    method AnswerQuestion(question: string, currentYear: int) returns (answer: string)
      requires Valid()
      ensures resumeData == null ==> answer == NoResumeAnswer
      ensures resumeData != null ==>
                answer == Answer(resumeData.sections.Value(), resumeData.rawText, question, currentYear)
    {
      if resumeData == null {
        return NoResumeAnswer;
      }
      // The chain of `is*Question` tests, first match wins.
      var lowerQuestion := Lower(question);
      match Classify(question)
      case AskEducation => answer := GetEducationAnswer(lowerQuestion);
      case AskWork => answer := GetWorkExperienceAnswer();
      case AskSkills => answer := SkillsAnswer(resumeData.sections.skills);
      case AskProjects => answer := GetProjectsAnswer();
      case AskCurrentJob => answer := CurrentJobAnswer(resumeData.sections.experience, currentYear);
      case AskPersonalInfo => answer := PersonalAnswer(resumeData.sections.personalInfo);
      case AnalyzeJob => answer := AnalyzeJobDescription(question);
      case SearchGeneral =>
        answer := GeneralSearchAnswer(resumeData.sections.Value(), resumeParser.resumeData.rawText, question);
    }

    /** `getEducationAnswer(question)`: one numbered line per entry. */
    method GetEducationAnswer(question: string) returns (answer: string)
      requires resumeData != null
      ensures answer == EducationAnswer(resumeData.sections.education, question)
    {
      var education := resumeData.sections.education;
      if |education| == 0 {
        return NoEducationAnswer;
      }
      answer := EducationHeader;
      for i := 0 to |education|
        invariant answer == EducationHeader + Enumerate(education[..i], EducationItem)
      {
        EnumerateStep(education, i, EducationItem);
        AppendAssoc(EducationHeader, Enumerate(education[..i], EducationItem), EducationItem(i, education[i]));
        answer := answer + EducationItem(i, education[i]);
      }
      assert education[..|education|] == education;
      answer := answer + StudiedAt(education, question);
      answer := answer + GraduationYears(education, question);
    }

    /** `getWorkExperienceAnswer()`: one numbered block per job, trimmed at the end. */
    method GetWorkExperienceAnswer() returns (answer: string)
      requires resumeData != null
      ensures answer == WorkAnswer(resumeData.sections.experience)
    {
      var experience := resumeData.sections.experience;
      if |experience| == 0 {
        return NoWorkAnswer;
      }
      answer := WorkHeader;
      for i := 0 to |experience|
        invariant answer == WorkHeader + Enumerate(experience[..i], WorkItem)
      {
        EnumerateStep(experience, i, WorkItem);
        AppendAssoc(WorkHeader, Enumerate(experience[..i], WorkItem), WorkItem(i, experience[i]));
        answer := answer + WorkItem(i, experience[i]);
      }
      assert experience[..|experience|] == experience;
      answer := Trim(answer);
    }

    /** `getProjectsAnswer()`: one numbered block per project, trimmed at the end. */
    method GetProjectsAnswer() returns (answer: string)
      requires resumeData != null
      ensures answer == ProjectsAnswer(resumeData.sections.projects)
    {
      var projects := resumeData.sections.projects;
      if |projects| == 0 {
        return NoProjectsAnswer;
      }
      answer := ProjectsHeader;
      for i := 0 to |projects|
        invariant answer == ProjectsHeader + Enumerate(projects[..i], ProjectItem)
      {
        EnumerateStep(projects, i, ProjectItem);
        AppendAssoc(ProjectsHeader, Enumerate(projects[..i], ProjectItem), ProjectItem(i, projects[i]));
        answer := answer + ProjectItem(i, projects[i]);
      }
      assert projects[..|projects|] == projects;
      answer := Trim(answer);
    }

    /** `analyzeJobDescription(jobDescription)`. Its own no-resume guard is
        unreachable from `answerQuestion`, which tests first. */
    method AnalyzeJobDescription(jobDescription: string) returns (analysis: string)
      requires resumeData != null
      ensures analysis == JobAnalysis(resumeData.sections.Value(), jobDescription)
    {
      var s := resumeData.sections.Value();
      var job := Lower(jobDescription);
      var relevant := RelevantExperience(s.experience, job);
      analysis := SkillsPart(s.skills, job);
      ghost var head := analysis;
      if |relevant| > 0 {
        for i := 0 to |relevant|
          invariant analysis == head + Enumerate(relevant[..i], RelevantItem)
        {
          EnumerateStep(relevant, i, RelevantItem);
          AppendAssoc(head, Enumerate(relevant[..i], RelevantItem), RelevantItem(i, relevant[i]));
          analysis := analysis + RelevantItem(i, relevant[i]);
        }
        assert relevant[..|relevant|] == relevant;
      } else {
        analysis := analysis + NoRelevantExperience;
      }
      analysis := analysis + CandidatePart(s);
    }
  }
}
