/** The OpenRouter chat client (rag-chatbot/rag-system/openrouter-api.js): a
    key check, a system prompt carrying the resume, and a loop that tries the
    current model and then the fallback models until one answers. Each HTTP
    exchange is an oracle `send` from the request to the reply it got. */
module OpenRouter {
  import opened Common
  import opened Resume
  import RagEngine

  const DefaultModel := "microsoft/phi-3-mini-128k-instruct:free"
  const FallbackModels: seq<string> :=
    ["microsoft/phi-3-mini-128k-instruct:free", "google/gemma-2-9b-it:free",
     "meta-llama/llama-3.1-8b-instruct:free", "mistralai/mistral-7b-instruct:free",
     "huggingfaceh4/zephyr-7b-beta:free"]
  const MaxTokens: nat := 1000
  const Temperature: real := 0.7
  const TestMaxTokens: nat := 50
  const TestTemperature: real := 0.1
  const TestPrompt := "Respond with exactly: \"Connection test successful\""

  const NotConfiguredError := "OpenRouter API key not configured"
  const TestNotConfiguredError := "API key not configured"
  const InvalidFormatError := "Invalid response format from API"
  /** `testConnection()` rethrows whatever it caught behind this prefix. */
  const TestFailedPrefix := "Connection test failed: "
  const NoWorkingModels := "No working models found"
  const NoWorkingModelsError := TestFailedPrefix + NoWorkingModels

  /** The five fallback models are distinct. */
  lemma FallbackModelsDistinct()
    ensures NoDuplicates(FallbackModels)
  {
    var m := FallbackModels;
    assert m[0][0] == 'm' && m[1][0] == 'g' && m[2][0] == 'm' && m[3][0] == 'm' && m[4][0] == 'h';
    assert m[0][1] == 'i' && m[2][1] == 'e' && m[3][1] == 'i';
    assert m[0][2] == 'c' && m[3][2] == 's';
  }

  // ------------------------------------------------------------------
  // Requests and replies

  datatype ChatMessage = ChatMessage(role: string, content: string)

  /** The fields of the JSON body that vary; `top_p`, `frequency_penalty` and
      `presence_penalty` are the constants 1, 0 and 0. */
  datatype Request = Request(model: string, messages: seq<ChatMessage>, maxTokens: nat, temperature: real)

  /** What one `fetch` came back with: an answer, an ok response without
      `choices[0].message`, a non-ok status with the body's optional
      `error.message`, or a thrown error. */
  datatype Reply =
    | Delivered(content: string)
    | Malformed
    | HttpFailure(status: nat, message: Option<string>)
    | Thrown(error: string)

  function ChatRequest(model: string, systemPrompt: string, prompt: string): Request {
    Request(model, [ChatMessage("system", systemPrompt), ChatMessage("user", prompt)], MaxTokens, Temperature)
  }

  function TestRequest(model: string): Request {
    Request(model, [ChatMessage("user", TestPrompt)], TestMaxTokens, TestTemperature)
  }

  /** The message of the error a failed attempt throws. */
  function FailureMessage(reply: Reply): string
    requires !reply.Delivered?
  {
    match reply
    case HttpFailure(status, message) =>
      "API Error: " + NatToString(status) + " - "
      + (if message.Some? && message.value != "" then message.value else "Unknown error")
    case Malformed => InvalidFormatError
    case Thrown(error) => error
  }

  // ------------------------------------------------------------------
  // The try order and the fallback loop

  /** `[this.model, ...this.fallbackModels.filter(m => m !== this.model)]` */
  function TryOrder(model: string, fallbacks: seq<string>): (order: seq<string>)
    ensures |order| >= 1 && order[0] == model
  {
    [model] + Filter((m: string) => m != model, fallbacks)
  }

  /** The order holds the current model and every fallback, and, the
      fallbacks being distinct, none twice. */
  lemma TryOrderSpec(model: string, fallbacks: seq<string>)
    ensures forall m :: m in TryOrder(model, fallbacks) <==> m == model || m in fallbacks
    ensures NoDuplicates(fallbacks) ==> NoDuplicates(TryOrder(model, fallbacks))
  {
    var rest := Filter((m: string) => m != model, fallbacks);
    FilterSpec((m: string) => m != model, fallbacks);
    assert forall m :: m in TryOrder(model, fallbacks) <==> m == model || m in rest;
    if NoDuplicates(fallbacks) {
      FilterNoDuplicates((m: string) => m != model, fallbacks);
      forall i, j | 0 <= i < j < |TryOrder(model, fallbacks)|
        ensures TryOrder(model, fallbacks)[i] != TryOrder(model, fallbacks)[j]
      {
        if i == 0 {
          assert TryOrder(model, fallbacks)[j] == rest[j - 1];
          assert rest[j - 1] in rest;
        } else {
          assert TryOrder(model, fallbacks)[i] == rest[i - 1];
        }
      }
    }
  }

  datatype Outcome = Success(model: string, content: string) | Failure(error: string)

  /** The `generateResponse` loop over `order`: the first model that answers
      wins; otherwise the last model's error is the call's error. */
  function FallbackOutcome(order: seq<string>, systemPrompt: string, prompt: string, send: Request -> Reply): Outcome
    requires |order| >= 1
    decreases |order|
  {
    var reply := send(ChatRequest(order[0], systemPrompt, prompt));
    if reply.Delivered? then Success(order[0], reply.content)
    else if |order| == 1 then Failure(FailureMessage(reply))
    else FallbackOutcome(order[1..], systemPrompt, prompt, send)
  }

  /** The `for` loop of `generateResponse` over `modelsToTry`: each model is
      asked in turn, the first answer ends the loop, and the last model's
      error is kept to be thrown. */
  method TryModels(modelsToTry: seq<string>, systemPrompt: string, prompt: string, send: Request -> Reply)
    returns (outcome: Outcome)
    requires |modelsToTry| >= 1
    ensures outcome == FallbackOutcome(modelsToTry, systemPrompt, prompt, send)
  {
    ghost var expected := FallbackOutcome(modelsToTry, systemPrompt, prompt, send);
    outcome := Failure(InvalidFormatError);
    for i := 0 to |modelsToTry|
      invariant i < |modelsToTry| ==> expected == FallbackOutcome(modelsToTry[i..], systemPrompt, prompt, send)
      invariant i == |modelsToTry| ==> outcome == expected
    {
      var currentModel := modelsToTry[i];
      var reply := send(ChatRequest(currentModel, systemPrompt, prompt));
      if reply.Delivered? {
        return Success(currentModel, reply.content);
      }
      if i == |modelsToTry| - 1 {
        outcome := Failure(FailureMessage(reply));
      } else {
        assert modelsToTry[i..][1..] == modelsToTry[i + 1..];
      }
    }
  }

  /** Success comes from the first model that answered, every model before it
      having failed; failure means every model failed, and carries the last
      one's error. */
  lemma {:induction false} FallbackOutcomeSpec(order: seq<string>, systemPrompt: string, prompt: string, send: Request -> Reply)
    requires |order| >= 1
    ensures var o := FallbackOutcome(order, systemPrompt, prompt, send);
      && (o.Success? ==>
            exists i :: 0 <= i < |order| && order[i] == o.model
              && send(ChatRequest(order[i], systemPrompt, prompt)) == Delivered(o.content)
              && forall j :: 0 <= j < i ==> !send(ChatRequest(order[j], systemPrompt, prompt)).Delivered?)
      && (o.Failure? <==> forall j :: 0 <= j < |order| ==> !send(ChatRequest(order[j], systemPrompt, prompt)).Delivered?)
      && (o.Failure? ==> o.error == FailureMessage(send(ChatRequest(order[|order| - 1], systemPrompt, prompt))))
    decreases |order|
  {
    var reply := send(ChatRequest(order[0], systemPrompt, prompt));
    var o := FallbackOutcome(order, systemPrompt, prompt, send);
    if reply.Delivered? {
      assert o == Success(order[0], reply.content);
    } else if |order| > 1 {
      var rest := order[1..];
      FallbackOutcomeSpec(rest, systemPrompt, prompt, send);
      assert o == FallbackOutcome(rest, systemPrompt, prompt, send);
      if o.Success? {
        var i :| 0 <= i < |rest| && rest[i] == o.model
                 && send(ChatRequest(rest[i], systemPrompt, prompt)) == Delivered(o.content)
                 && forall j :: 0 <= j < i ==> !send(ChatRequest(rest[j], systemPrompt, prompt)).Delivered?;
        assert order[i + 1] == o.model;
        forall j | 0 <= j < i + 1
          ensures !send(ChatRequest(order[j], systemPrompt, prompt)).Delivered?
        {
          if j > 0 {
            assert order[j] == rest[j - 1];
          }
        }
      } else {
        forall j | 0 <= j < |order|
          ensures !send(ChatRequest(order[j], systemPrompt, prompt)).Delivered?
        {
          if j > 0 {
            assert order[j] == rest[j - 1];
          }
        }
      }
      if forall j :: 0 <= j < |order| ==> !send(ChatRequest(order[j], systemPrompt, prompt)).Delivered? {
        assert forall j :: 0 <= j < |rest| ==> rest[j] == order[j + 1];
      }
    }
  }

  /** What `generateResponse` returns or throws for a configured key. */
  function GenerateResult(model: string, fallbacks: seq<string>, prompt: string, resumeContext: Option<ResumeView>,
                          send: Request -> Reply): Result<string>
  {
    match FallbackOutcome(TryOrder(model, fallbacks), SystemPrompt(resumeContext), prompt, send)
    case Success(_, content) => Ok(content)
    case Failure(error) => Err(error)
  }

  /** The model `generateResponse` leaves set: the one that answered, or the
      old one when all failed. */
  function ModelAfter(model: string, fallbacks: seq<string>, prompt: string, resumeContext: Option<ResumeView>,
                      send: Request -> Reply): string
  {
    match FallbackOutcome(TryOrder(model, fallbacks), SystemPrompt(resumeContext), prompt, send)
    case Success(m, _) => m
    case Failure(_) => model
  }

  /** The `testConnection` loop: the first fallback model whose test request
      gets an answer. */
  function FirstWorking(models: seq<string>, send: Request -> Reply): (r: Option<string>)
    ensures r.Some? ==> r.value in models && send(TestRequest(r.value)).Delivered?
    ensures r.Some? ==> exists i :: 0 <= i < |models| && models[i] == r.value
                                    && forall j :: 0 <= j < i ==> !send(TestRequest(models[j])).Delivered?
    ensures r.None? <==> forall m :: m in models ==> !send(TestRequest(m)).Delivered?
    decreases |models|
  {
    if models == [] then None
    else if send(TestRequest(models[0])).Delivered? then
      Some(models[0])
    else
      var r := FirstWorking(models[1..], send);
      if r.Some? then
        var i :| 0 <= i < |models[1..]| && models[1..][i] == r.value
                 && forall j :: 0 <= j < i ==> !send(TestRequest(models[1..][j])).Delivered?;
        assert models[i + 1] == r.value;
        assert forall j :: 0 <= j < i + 1 ==> !send(TestRequest(models[j])).Delivered? by {
          forall j | 0 <= j < i + 1
            ensures !send(TestRequest(models[j])).Delivered?
          {
            if j > 0 { assert models[j] == models[1..][j - 1]; }
          }
        }
        r
      else r
  }

  // ------------------------------------------------------------------
  // The system prompt

  const Guidelines :=
    "You are a personal resume assistant AI. Your job is to help answer questions about a specific person's background, experience, and qualifications based on their resume data.\n\n"
    + "IMPORTANT GUIDELINES:\n"
    + "1. Always speak in first person as if you ARE the person whose resume this is\n"
    + "2. Only provide information that can be found in or reasonably inferred from the resume data\n"
    + "3. Be specific and detailed when the resume data supports it\n"
    + "4. If asked about something not in the resume, politely say you don't have that information\n"
    + "5. For job description analysis, compare the requirements against the actual resume data\n"
    + "6. Be professional but conversational in tone\n"
    + "7. Highlight strengths and relevant experience clearly\n\n"
  const ContextHeading := "RESUME DATA CONTEXT:\n"
  const ContextClosing := "\n\nUse this information to answer questions accurately and personally."
  const NoResumeLine := "No resume has been uploaded yet. Ask the user to upload their resume first."

  /** What `formatResumeContext` reads of `resumeData`. */
  datatype ResumeView = ResumeView(sections: Sections, rawText: string)

  /** `createSystemPrompt(resumeContext)` */
  function SystemPrompt(resumeContext: Option<ResumeView>): string {
    Guidelines
    + (if resumeContext.Some? then ContextHeading + ResumeContextText(resumeContext.value) + ContextClosing
       else NoResumeLine)
  }

  /** Both prompts open with the guidelines; without a resume the prompt
      closes with the request to upload one, and with one it carries the
      formatted resume. */
  lemma SystemPromptSpec(resumeContext: Option<ResumeView>)
    ensures IsPrefix(Guidelines, SystemPrompt(resumeContext))
    ensures resumeContext.None? ==> EndsWith(SystemPrompt(resumeContext), NoResumeLine)
    ensures resumeContext.Some? ==> Contains(SystemPrompt(resumeContext), ResumeContextText(resumeContext.value))
  {
    var tail := if resumeContext.Some? then ContextHeading + ResumeContextText(resumeContext.value) + ContextClosing
                else NoResumeLine;
    assert SystemPrompt(resumeContext)[..|Guidelines|] == Guidelines;
    if resumeContext.None? {
      assert SystemPrompt(resumeContext)[|Guidelines|..] == NoResumeLine;
    } else {
      var text := ResumeContextText(resumeContext.value);
      ContainsItself(text);
      ContainsConcat(ContextHeading, text, text);
      ContainsConcat(ContextHeading + text, ContextClosing, text);
      ContainsConcat(Guidelines, tail, text);
    }
  }

  // ------------------------------------------------------------------
  // formatResumeContext

  /** The most experience-description, project-description and raw-text
      characters the context carries, and the most skills. */
  const DescriptionLimit: nat := 300
  const ProjectDescriptionLimit: nat := 200
  const RawExcerptLimit: nat := 500
  const SkillLimit: nat := 20

  function ContactField(heading: string, field: Option<string>): string {
    if Truthy(field) then heading + field.value + "\n" else ""
  }

  function PersonalContext(p: PersonalInfo): string {
    if p.IsEmpty() then ""
    else
      "\nPERSONAL INFORMATION:\n"
      + ContactField("Name: ", p.name) + ContactField("Email: ", p.email) + ContactField("Phone: ", p.phone)
      + ContactField("LinkedIn: ", p.linkedin) + ContactField("GitHub: ", p.github)
  }

  /** An education line is printed as the answer engine prints it. */
  function EducationContext(education: seq<Education>): string {
    if education == [] then "" else "\nEDUCATION:\n" + Enumerate(education, RagEngine.EducationItem)
  }

  function ExperienceContextItem(i: nat, e: Experience): string {
    RagEngine.Numbered(i) + e.title
    + (if e.company != "" then " at " + e.company else "")
    + RagEngine.YearRange(e)
    + (if e.description != "" && Trim(e.description) != "" then "\n   Description: " + Take(e.description, DescriptionLimit) else "")
    + "\n"
  }

  function ExperienceContext(experience: seq<Experience>): string {
    if experience == [] then "" else "\nWORK EXPERIENCE:\n" + Enumerate(experience, ExperienceContextItem)
  }

  function SkillsContext(skills: seq<string>): string {
    if skills == [] then "" else "\nSKILLS:\n" + Join(Take(skills, SkillLimit), ", ") + "\n"
  }

  function ProjectContextItem(i: nat, p: Project): string {
    RagEngine.Numbered(i) + p.name
    + (if p.description != "" then " - " + Take(p.description, ProjectDescriptionLimit) else "")
    + "\n"
  }

  function ProjectsContext(projects: seq<Project>): string {
    if projects == [] then "" else "\nPROJECTS:\n" + Enumerate(projects, ProjectContextItem)
  }

  function CertificationItem(i: nat, c: string): string {
    RagEngine.Numbered(i) + c + "\n"
  }

  function CertificationsContext(certifications: seq<string>): string {
    if certifications == [] then "" else "\nCERTIFICATIONS:\n" + Enumerate(certifications, CertificationItem)
  }

  function RawExcerpt(rawText: string): string {
    if rawText == "" then "" else "\nADDITIONAL CONTEXT (first 500 chars):\n" + Take(rawText, RawExcerptLimit) + "...\n"
  }

  /** `formatResumeContext(resumeData)` */
  function ResumeContextText(v: ResumeView): string {
    PersonalContext(v.sections.personalInfo)
    + EducationContext(v.sections.education)
    + ExperienceContext(v.sections.experience)
    + SkillsContext(v.sections.skills)
    + ProjectsContext(v.sections.projects)
    + CertificationsContext(v.sections.certifications)
    + RawExcerpt(v.rawText)
  }

  /** A section is emitted only for data that is there: the context is empty
      exactly when the resume has no contact keys, no entries of any kind
      and no text. */
  lemma ResumeContextEmpty(v: ResumeView)
    ensures ResumeContextText(v) == "" <==>
              && v.sections.personalInfo.IsEmpty()
              && v.sections.education == [] && v.sections.experience == [] && v.sections.skills == []
              && v.sections.projects == [] && v.sections.certifications == [] && v.rawText == ""
  {
    var s := v.sections;
    assert |ResumeContextText(v)| ==
      |PersonalContext(s.personalInfo)| + |EducationContext(s.education)| + |ExperienceContext(s.experience)|
      + |SkillsContext(s.skills)| + |ProjectsContext(s.projects)| + |CertificationsContext(s.certifications)|
      + |RawExcerpt(v.rawText)|;
  }

  /** The context closes with at most the first 500 characters of the text,
      followed by "...". */
  lemma ResumeContextExcerpt(v: ResumeView)
    requires v.rawText != ""
    ensures EndsWith(ResumeContextText(v), Take(v.rawText, RawExcerptLimit) + "...\n")
    ensures IsPrefix(Take(v.rawText, RawExcerptLimit), v.rawText) && |Take(v.rawText, RawExcerptLimit)| <= RawExcerptLimit
  {
    var s := v.sections;
    var before := PersonalContext(s.personalInfo) + EducationContext(s.education) + ExperienceContext(s.experience)
                  + SkillsContext(s.skills) + ProjectsContext(s.projects) + CertificationsContext(s.certifications);
    var excerpt := Take(v.rawText, RawExcerptLimit) + "...\n";
    assert RawExcerpt(v.rawText) == "\nADDITIONAL CONTEXT (first 500 chars):\n" + excerpt;
    EndsWithConcat("\nADDITIONAL CONTEXT (first 500 chars):\n", excerpt, excerpt);
    EndsWithConcat(before, RawExcerpt(v.rawText), excerpt);
  }

  /** Each of the first 20 skills is named in the context. */
  lemma ResumeContextSkills(v: ResumeView, k: nat)
    requires k < |v.sections.skills| && k < SkillLimit
    ensures Contains(ResumeContextText(v), v.sections.skills[k])
  {
    var s := v.sections;
    var shown := Take(s.skills, SkillLimit);
    assert shown[k] == s.skills[k];
    JoinContains(shown, ", ", k);
    ContainsConcat("\nSKILLS:\n", Join(shown, ", "), s.skills[k]);
    ContainsConcat("\nSKILLS:\n" + Join(shown, ", "), "\n", s.skills[k]);
    var before := PersonalContext(s.personalInfo) + EducationContext(s.education) + ExperienceContext(s.experience);
    ContainsConcat(before, SkillsContext(s.skills), s.skills[k]);
    var upTo := before + SkillsContext(s.skills);
    ContainsConcat(upTo, ProjectsContext(s.projects), s.skills[k]);
    ContainsConcat(upTo + ProjectsContext(s.projects), CertificationsContext(s.certifications), s.skills[k]);
    ContainsConcat(upTo + ProjectsContext(s.projects) + CertificationsContext(s.certifications), RawExcerpt(v.rawText), s.skills[k]);
  }

  /** An experience line opens with its number and title; a description
      that is not blank closes it, cut to its first 300 characters, and
      otherwise the line closes with the years. */
  lemma ExperienceLineShape(k: nat, e: Experience)
    ensures var line := ExperienceContextItem(k, e);
            && IsPrefix(RagEngine.Numbered(k) + e.title, line)
            && (Trim(e.description) != "" ==>
                  EndsWith(line, "\n   Description: " + Take(e.description, DescriptionLimit) + "\n"))
            && (Trim(e.description) == "" ==> EndsWith(line, RagEngine.YearRange(e) + "\n"))
  {
    var line := ExperienceContextItem(k, e);
    var head := RagEngine.Numbered(k) + e.title;
    var company := if e.company != "" then " at " + e.company else "";
    var years := RagEngine.YearRange(e);
    var desc := if e.description != "" && Trim(e.description) != "" then "\n   Description: " + Take(e.description, DescriptionLimit) else "";
    assert line == head + company + years + desc + "\n";
    assert IsPrefix(head, line) by {
      assert line[..|head|] == head;
    }
    if Trim(e.description) != "" {
      assert e.description != "";
      assert line == (head + company + years) + (desc + "\n");
      EndsWithConcat(head + company + years, desc + "\n", desc + "\n");
    } else {
      assert desc == "";
      assert line == (head + company) + (years + "\n");
      EndsWithConcat(head + company, years + "\n", years + "\n");
    }
  }

  /** Every experience entry has its numbered line in the context. */
  lemma ResumeContextExperience(v: ResumeView, k: nat)
    requires k < |v.sections.experience|
    ensures Contains(ResumeContextText(v), ExperienceContextItem(k, v.sections.experience[k]))
  {
    var s := v.sections;
    var line := ExperienceContextItem(k, s.experience[k]);
    EnumerateContains(s.experience, ExperienceContextItem, k);
    ContainsConcat("\nWORK EXPERIENCE:\n", Enumerate(s.experience, ExperienceContextItem), line);
    var before := PersonalContext(s.personalInfo) + EducationContext(s.education);
    ContainsConcat(before, ExperienceContext(s.experience), line);
    var upTo := before + ExperienceContext(s.experience);
    ContainsConcat(upTo, SkillsContext(s.skills), line);
    ContainsConcat(upTo + SkillsContext(s.skills), ProjectsContext(s.projects), line);
    var upToProjects := upTo + SkillsContext(s.skills) + ProjectsContext(s.projects);
    ContainsConcat(upToProjects, CertificationsContext(s.certifications), line);
    ContainsConcat(upToProjects + CertificationsContext(s.certifications), RawExcerpt(v.rawText), line);
  }

  /** Every project has its numbered line in the context, and a description
      appears cut to its first 200 characters. */
  lemma ResumeContextProject(v: ResumeView, k: nat)
    requires k < |v.sections.projects|
    ensures var p := v.sections.projects[k];
            var line := ProjectContextItem(k, p);
            && Contains(ResumeContextText(v), line)
            && IsPrefix(RagEngine.Numbered(k) + p.name, line)
            && (p.description != "" ==> EndsWith(line, " - " + Take(p.description, ProjectDescriptionLimit) + "\n"))
            && (p.description == "" ==> line == RagEngine.Numbered(k) + p.name + "\n")
  {
    var s := v.sections;
    var p := s.projects[k];
    var line := ProjectContextItem(k, p);
    var head := RagEngine.Numbered(k) + p.name;
    var desc := if p.description != "" then " - " + Take(p.description, ProjectDescriptionLimit) else "";
    assert line == head + desc + "\n";
    assert line[..|head|] == head;
    EndsWithConcat(head, desc + "\n", desc + "\n");
    EnumerateContains(s.projects, ProjectContextItem, k);
    ContainsConcat("\nPROJECTS:\n", Enumerate(s.projects, ProjectContextItem), line);
    var before := PersonalContext(s.personalInfo) + EducationContext(s.education) + ExperienceContext(s.experience)
                  + SkillsContext(s.skills);
    ContainsConcat(before, ProjectsContext(s.projects), line);
    var upTo := before + ProjectsContext(s.projects);
    ContainsConcat(upTo, CertificationsContext(s.certifications), line);
    ContainsConcat(upTo + CertificationsContext(s.certifications), RawExcerpt(v.rawText), line);
  }

  /** One list section of `formatResumeContext`: nothing for an empty list,
      else the heading and one numbered line per entry, in a `forEach`. */
  method AppendSection<T>(context: string, heading: string, xs: seq<T>, item: (nat, T) -> string)
    returns (r: string)
    ensures r == context + (if xs == [] then "" else heading + Enumerate(xs, item))
  {
    r := context;
    if |xs| > 0 {
      r := r + heading;
      for i := 0 to |xs|
        invariant r == context + heading + Enumerate(xs[..i], item)
      {
        EnumerateStep(xs, i, item);
        AppendAssoc(context + heading, Enumerate(xs[..i], item), item(i, xs[i]));
        r := r + item(i, xs[i]);
      }
      assert xs[..|xs|] == xs;
      AppendAssoc(context, heading, Enumerate(xs, item));
    }
  }

  // ------------------------------------------------------------------
  // The client

  class OpenRouterApi {
    var apiKey: Option<string>
    var model: string
    const fallbackModels: seq<string>

    constructor ()
      ensures apiKey == None && model == DefaultModel && fallbackModels == FallbackModels
    {
      apiKey := None;
      model := DefaultModel;
      fallbackModels := FallbackModels;
    }

    /** `isConfigured()`: a key is set and is not blank. */
    predicate IsConfigured()
      reads this
    {
      apiKey.Some? && Trim(apiKey.value) != ""
    }

    /** `setApiKey(apiKey)`; saving it to local storage is not modelled. */
    method SetApiKey(key: string)
      modifies this
      ensures apiKey == Some(key) && model == old(model)
    {
      apiKey := Some(key);
    }

    /** `formatResumeContext(resumeData)`: one section after another. */
    method FormatResumeContext(v: ResumeView) returns (context: string)
      ensures context == ResumeContextText(v)
    {
      var s := v.sections;
      context := PersonalContext(s.personalInfo);
      context := AppendSection(context, "\nEDUCATION:\n", s.education, RagEngine.EducationItem);
      context := AppendSection(context, "\nWORK EXPERIENCE:\n", s.experience, ExperienceContextItem);
      context := context + SkillsContext(s.skills);
      context := AppendSection(context, "\nPROJECTS:\n", s.projects, ProjectContextItem);
      context := AppendSection(context, "\nCERTIFICATIONS:\n", s.certifications, CertificationItem);
      context := context + RawExcerpt(v.rawText);
    }

    /** `createSystemPrompt(resumeContext)` */
    method CreateSystemPrompt(resumeContext: Option<ResumeView>) returns (prompt: string)
      ensures prompt == SystemPrompt(resumeContext)
    {
      prompt := Guidelines;
      if resumeContext.Some? {
        var context := FormatResumeContext(resumeContext.value);
        prompt := prompt + (ContextHeading + context + ContextClosing);
      } else {
        prompt := prompt + NoResumeLine;
      }
    }

    /** `generateResponse(prompt, resumeContext)`: nothing is sent without a
        key; otherwise the models are tried in order, the first answer is
        returned and its model kept for later calls, and when all fail the
        last error is thrown and the model is left as it was. */
    method GenerateResponse(prompt: string, resumeContext: Option<ResumeView>, send: Request -> Reply)
      returns (r: Result<string>)
      modifies this
      ensures apiKey == old(apiKey)
      ensures !old(IsConfigured()) ==> r == Err(NotConfiguredError) && model == old(model)
      ensures old(IsConfigured()) ==>
                && r == GenerateResult(old(model), fallbackModels, prompt, resumeContext, send)
                && model == ModelAfter(old(model), fallbackModels, prompt, resumeContext, send)
    {
      if !IsConfigured() {
        return Err(NotConfiguredError);
      }
      var systemPrompt := CreateSystemPrompt(resumeContext);
      var outcome := TryModels(TryOrder(model, fallbackModels), systemPrompt, prompt, send);
      match outcome
      case Success(currentModel, content) =>
        if currentModel != model {
          model := currentModel;
        }
        r := Ok(content);
      case Failure(error) =>
        r := Err(error);
    }

    /** `testConnection()`: the fallback models alone are tried, with a short
        test prompt; the first that answers becomes the model. */
    method TestConnection(send: Request -> Reply) returns (r: Result<bool>)
      modifies this
      ensures apiKey == old(apiKey)
      ensures !old(IsConfigured()) ==> r == Err(TestNotConfiguredError) && model == old(model)
      ensures old(IsConfigured()) ==>
                match FirstWorking(fallbackModels, send)
                case Some(m) => r == Ok(true) && model == m
                case None => r == Err(NoWorkingModelsError) && model == old(model)
    {
      if !IsConfigured() {
        return Err(TestNotConfiguredError);
      }
      for i := 0 to |fallbackModels|
        invariant model == old(model)
        invariant FirstWorking(fallbackModels, send) == FirstWorking(fallbackModels[i..], send)
      {
        var candidate := fallbackModels[i];
        var reply := send(TestRequest(candidate));
        if reply.Delivered? {
          model := candidate;
          return Ok(true);
        }
        assert fallbackModels[i..][1..] == fallbackModels[i + 1..];
      }
      assert fallbackModels[|fallbackModels|..] == [];
      r := Err(NoWorkingModelsError);
    }
  }

  /** After a successful call the model that answered heads the next try
      order, so a working fallback is tried first from then on; after a
      failed call the order is the same as before. */
  lemma StickyModel(model: string, fallbacks: seq<string>, prompt: string, resumeContext: Option<ResumeView>,
                    send: Request -> Reply)
    ensures var next := ModelAfter(model, fallbacks, prompt, resumeContext, send);
      && (next == model || next in fallbacks)
      && (GenerateResult(model, fallbacks, prompt, resumeContext, send).Err? ==> next == model)
      && (GenerateResult(model, fallbacks, prompt, resumeContext, send).Ok? ==>
            send(ChatRequest(next, SystemPrompt(resumeContext), prompt))
              == Delivered(GenerateResult(model, fallbacks, prompt, resumeContext, send).value))
  {
    var order := TryOrder(model, fallbacks);
    FallbackOutcomeSpec(order, SystemPrompt(resumeContext), prompt, send);
    TryOrderSpec(model, fallbacks);
  }
}
