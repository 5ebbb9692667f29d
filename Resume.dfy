/** The resume record (rag-chatbot/rag-system/resume-parser.js): the object
    the parser fills and that the answer engine, the chat controller and the
    OpenRouter client read. */
module Resume {
  import opened Common

  /** `sections.personalInfo`: a JavaScript object whose keys appear only once
      a value for them was found. */
  datatype PersonalInfo = PersonalInfo(
    name: Option<string>,
    email: Option<string>,
    phone: Option<string>,
    linkedin: Option<string>,
    github: Option<string>)
  {
    /** `Object.keys(personalInfo).length === 0` */
    predicate IsEmpty() {
      name.None? && email.None? && phone.None? && linkedin.None? && github.None?
    }
  }

  /** JavaScript truthiness of an optional string field: present and not empty. */
  predicate Truthy(o: Option<string>) {
    o.Some? && o.value != ""
  }

  datatype Education = Education(degree: string, field: string, institution: string, year: string, raw: string)

  datatype Experience = Experience(
    title: string,
    company: string,
    startYear: string,
    endYear: string,
    description: string,
    raw: string)

  datatype Project = Project(name: string, description: string)

  datatype Sections = Sections(
    personalInfo: PersonalInfo,
    education: seq<Education>,
    experience: seq<Experience>,
    skills: seq<string>,
    projects: seq<Project>,
    certifications: seq<string>,
    achievements: seq<string>)

  const NoPersonalInfo := PersonalInfo(None, None, None, None, None)

  const EmptySections := Sections(NoPersonalInfo, [], [], [], [], [], [])

  /** `resumeData.sections`: one object whose lists the parser's scanners
      push to in place. */
  class ResumeSections {
    var personalInfo: PersonalInfo
    var education: seq<Education>
    var experience: seq<Experience>
    var skills: seq<string>
    var projects: seq<Project>
    var certifications: seq<string>
    var achievements: seq<string>

    constructor ()
      ensures Value() == EmptySections
    {
      personalInfo := NoPersonalInfo;
      education, experience, skills, projects, certifications, achievements := [], [], [], [], [], [];
    }

    /** The contents of the object as a value. */
    function Value(): Sections
      reads this
    {
      Sections(personalInfo, education, experience, skills, projects, certifications, achievements)
    }
  }

  /** `resumeData`: one object, created by the parser and shared by reference
      with the answer engine and the chat controller. */
  class ResumeData {
    var rawText: string
    const sections: ResumeSections

    constructor ()
      ensures rawText == "" && sections.Value() == EmptySections && fresh(sections)
    {
      rawText := "";
      sections := new ResumeSections();
    }
  }

  // ------------------------------------------------------------------
  // The current job, as both the parser's summary and the engine's answer find it

  /** An entry counts as the current job when its end year mentions "present"
      or "current", is empty, or is a number no older than last year. */
  predicate IsCurrentJob(e: Experience, currentYear: int) {
    var end := Lower(e.endYear);
    || Contains(end, "present")
    || Contains(end, "current")
    || e.endYear == ""
    || (ParseInt(e.endYear).Some? && ParseInt(e.endYear).value >= currentYear - 1)
  }

  /** `experience.find(IsCurrentJob)`, as the index of the entry found. */
  function FindCurrentJob(exps: seq<Experience>, currentYear: int): (r: Option<nat>)
    ensures r.Some? ==> r.value < |exps| && IsCurrentJob(exps[r.value], currentYear)
    ensures r.Some? ==> forall k :: 0 <= k < r.value ==> !IsCurrentJob(exps[k], currentYear)
    ensures r.None? ==> forall k :: 0 <= k < |exps| ==> !IsCurrentJob(exps[k], currentYear)
    decreases |exps|
  {
    if exps == [] then None
    else if IsCurrentJob(exps[0], currentYear) then Some(0)
    else
      match FindCurrentJob(exps[1..], currentYear)
      case None => None
      case Some(k) => Some(k + 1)
  }
}
