/** The chat page controller (`ChatbotApp`): it keeps the message log, loads
    a resume through the parser, hands each question either to the
    OpenRouter client (AI mode) or to the rule-based answer engine (basic
    mode), and manages the API key dialog. The DOM, `localStorage` and the
    clock are not modelled; a message's timestamp is a parameter. */
module ChatbotApp {
  import opened Common
  import opened Resume
  import ResumeParser
  import RagEngine
  import OpenRouter

  // ------------------------------------------------------------------
  // formatMessage: the markdown-like rendering of a message

  /** The characters JavaScript's regex `.` does not match. */
  predicate IsLineTerminator(c: char) {
    c == '\n' || c == '\r' || c == '\U{2028}' || c == '\U{2029}'
  }

  /** Where the lazy `(.*?)mark` that starts at `from` closes: the first
      occurrence of `mark` at or after `from` with no line terminator before
      it. */
  function CloseAt(s: string, mark: string, from: nat): (r: Option<nat>)
    requires from <= |s|
    ensures r.Some? ==> && from <= r.value && r.value + |mark| <= |s|
                        && s[r.value..r.value + |mark|] == mark
                        && forall k :: from <= k < r.value ==> !IsLineTerminator(s[k])
    ensures r.Some? ==> forall k :: from <= k < r.value ==> !IsPrefix(mark, s[k..])
    ensures r.None? ==> forall k :: from <= k <= |s| && (forall m :: from <= m < k ==> !IsLineTerminator(s[m]))
                                    ==> !IsPrefix(mark, s[k..])
    decreases |s| - from
  {
    if IsPrefix(mark, s[from..]) then Some(from)
    else if from == |s| || IsLineTerminator(s[from]) then None
    else CloseAt(s, mark, from + 1)
  }

  /** `s.replace(/mark(.*?)mark/g, open + '$1' + close)`: scanning from the
      left, every `mark` that is closed by a later `mark` on the same line
      becomes a pair of tags around the text between them. */
  function ReplacePairs(s: string, mark: string, open: string, close: string): string
    requires |mark| > 0
    decreases |s|
  {
    if s == [] then ""
    else if IsPrefix(mark, s) && CloseAt(s, mark, |mark|).Some? then
      var j := CloseAt(s, mark, |mark|).value;
      open + s[|mark|..j] + close + ReplacePairs(s[j + |mark|..], mark, open, close)
    else [s[0]] + ReplacePairs(s[1..], mark, open, close)
  }

  /** `s.replace(/•\s/g, '• ')` */
  function SpaceBullets(s: string): string
    decreases |s|
  {
    if |s| < 2 then s
    else if s[0] == '•' && IsSpace(s[1]) then "• " + SpaceBullets(s[2..])
    else [s[0]] + SpaceBullets(s[1..])
  }

  /** `s.replace(/\n/g, '<br>')` */
  function Breaks(s: string): string
    decreases |s|
  {
    if s == [] then ""
    else (if s[0] == '\n' then "<br>" else [s[0]]) + Breaks(s[1..])
  }

  /** `formatMessage(content)`: bold, then italics, then bullets, then line breaks. */
  function FormatMessage(content: string): string {
    var bold := ReplacePairs(content, "**", "<strong>", "</strong>");
    var em := ReplacePairs(bold, "*", "<em>", "</em>");
    Breaks(SpaceBullets(em))
  }

  lemma {:induction false} ReplacePairsPlain(s: string, mark: string, open: string, close: string)
    requires |mark| > 0 && mark[0] !in s
    ensures ReplacePairs(s, mark, open, close) == s
    decreases |s|
  {
    if s != [] {
      assert !IsPrefix(mark, s) by { assert s[0] in s; }
      ReplacePairsPlain(s[1..], mark, open, close);
    }
  }

  lemma {:induction false} SpaceBulletsPlain(s: string)
    requires '•' !in s
    ensures SpaceBullets(s) == s
    decreases |s|
  {
    if |s| >= 2 {
      assert s[0] in s;
      SpaceBulletsPlain(s[1..]);
    }
  }

  lemma {:induction false} BreaksPlain(s: string)
    requires '\n' !in s
    ensures Breaks(s) == s
    decreases |s|
  {
    if s != [] {
      assert s[0] in s;
      BreaksPlain(s[1..]);
    }
  }

  lemma {:induction false} BreaksRemoveNewlines(s: string)
    ensures '\n' !in Breaks(s)
    decreases |s|
  {
    if s != [] {
      BreaksRemoveNewlines(s[1..]);
    }
  }

  /** Text without asterisks, bullets or new lines is shown as it is. */
  lemma FormatMessagePlain(content: string)
    requires '*' !in content && '•' !in content && '\n' !in content
    ensures FormatMessage(content) == content
  {
    ReplacePairsPlain(content, "**", "<strong>", "</strong>");
    ReplacePairsPlain(content, "*", "<em>", "</em>");
    SpaceBulletsPlain(content);
    BreaksPlain(content);
  }

  /** Every new line of a message becomes a `<br>`. */
  lemma FormatMessageOneLine(content: string)
    ensures '\n' !in FormatMessage(content)
  {
    var bold := ReplacePairs(content, "**", "<strong>", "</strong>");
    var em := ReplacePairs(bold, "*", "<em>", "</em>");
    BreaksRemoveNewlines(SpaceBullets(em));
  }

  /** The lazy match runs over characters that neither start the mark nor
      end the line. */
  lemma {:induction false} CloseAtSkips(s: string, mark: string, from: nat, to: nat)
    requires from <= to <= |s| && |mark| > 0
    requires forall k :: from <= k < to ==> s[k] != mark[0] && !IsLineTerminator(s[k])
    ensures CloseAt(s, mark, from) == CloseAt(s, mark, to)
    decreases |s| - from
  {
    if from < to {
      assert !IsPrefix(mark, s[from..]) by { assert s[from..][0] == s[from]; }
      CloseAtSkips(s, mark, from + 1, to);
    }
  }

  /** The engine's section headers, written `**Heading**`, come out bold:
      a one-line heading without asterisks or bullets is wrapped in
      `<strong>` and otherwise left as it is. */
  lemma FormatMessageBold(heading: string)
    requires '*' !in heading && '•' !in heading
    requires forall k :: 0 <= k < |heading| ==> !IsLineTerminator(heading[k])
    ensures FormatMessage("**" + heading + "**") == "<strong>" + heading + "</strong>"
  {
    ReplacePairsSpan(heading, "**", "<strong>", "</strong>");
    var bold := "<strong>" + heading + "</strong>";
    assert '*' !in "<strong>" && '*' !in "</strong>";
    ReplacePairsPlain(bold, "*", "<em>", "</em>");
    assert '•' !in "<strong>" && '•' !in "</strong>";
    SpaceBulletsPlain(bold);
    assert '\n' !in "<strong>" && '\n' !in "</strong>";
    assert '\n' !in heading by {
      forall k | 0 <= k < |heading| ensures heading[k] != '\n' { assert !IsLineTerminator(heading[k]); }
    }
    BreaksPlain(bold);
  }

  /** A marked span on one line, free of the mark's first character, is
      replaced by its opening and closing tags. */
  lemma ReplacePairsSpan(text: string, mark: string, open: string, close: string)
    requires |mark| > 0 && mark[0] !in text
    requires forall k :: 0 <= k < |text| ==> !IsLineTerminator(text[k])
    ensures ReplacePairs(mark + text + mark, mark, open, close) == open + text + close
  {
    var s, m, n := mark + text + mark, |mark|, |text|;
    assert s[..m] == mark;
    assert s[m + n..] == mark;
    forall k | m <= k < m + n
      ensures s[k] != mark[0] && !IsLineTerminator(s[k])
    {
      assert s[k] == text[k - m];
    }
    CloseAtSkips(s, mark, m, m + n);
    assert s[m..m + n] == text;
    assert s[m + n + m..] == [];
  }

  // ------------------------------------------------------------------
  // The message log

  datatype Sender = User | Bot

  /** One entry of `messages`: `{ content, sender, timestamp }`. */
  datatype Message = Message(content: string, sender: Sender, timestamp: string)

  // ------------------------------------------------------------------
  // Fixed texts

  const AiFailureNote := "\n\n*Note: AI response failed, using basic mode.*"
  const Apology := "Sorry, I encountered an error. Please try again."
  const AiModeActive := "\U{1F680} AI mode is now active! I can provide more detailed and natural responses about your background using advanced language models."
  const BasicModeActive := "\U{1F4DD} Using basic mode. I can still answer questions about your resume using the built-in RAG system. You can configure AI later for enhanced responses."

  const KeyPrefix := "sk-or-v1-"
  const EnterKeyFirst := "Please enter an API key first."
  const EnterKey := "Please enter an API key."
  const BadKeyPrefix := "API key should start with \"sk-or-v1-\". Please check your key."
  const ConnectedPrefix := "\U{2705} Connection successful! Using model: "
  const FailedPrefix := "\U{274C} "
  const InvalidKeyHint := "Invalid API key. Please check your OpenRouter API key."
  const NoPermissionHint := "API key doesn't have permission. Make sure it's active."
  const NoFreeModelsHint := "No free models are currently available. Try again later or check OpenRouter status."

  /** The file types the upload area accepts. */
  const UploadTypes: seq<string> :=
    ["application/pdf", "application/vnd.openxmlformats-officedocument.wordprocessingml.document",
     "application/msword"]

  // ------------------------------------------------------------------
  // Replies

  /** What the engine answers in basic mode, from the resume as loaded. */
  function BasicReply(view: Option<OpenRouter.ResumeView>, question: string, currentYear: int): string {
    match view
    case None => RagEngine.NoResumeAnswer
    case Some(v) => RagEngine.Answer(v.sections, v.rawText, question, currentYear)
  }

  /** The bot message `sendMessage` adds: the AI text in AI mode; when the AI
      call throws, the basic answer with a note if a resume is loaded, and an
      apology if not; the basic answer in basic mode. */
  function BotReply(aiMode: bool, ai: Result<string>, basic: string, hasResume: bool): string {
    if !aiMode then basic
    else if ai.Ok? then ai.value
    else if hasResume then basic + AiFailureNote
    else Apology
  }

  /** When the AI call fails and a resume is loaded, the user still gets the
      basic answer, marked with the note; the apology is left for the case
      where there is nothing to fall back on. */
  lemma AiFailureFallsBack(ai: Result<string>, basic: string, hasResume: bool)
    requires ai.Err?
    ensures hasResume ==> IsPrefix(basic, BotReply(true, ai, basic, hasResume))
                          && EndsWith(BotReply(true, ai, basic, hasResume), AiFailureNote)
    ensures !hasResume ==> BotReply(true, ai, basic, hasResume) == Apology
  {
    if hasResume {
      var r := basic + AiFailureNote;
      assert r[..|basic|] == basic;
      assert r[|r| - |AiFailureNote|..] == AiFailureNote;
    }
  }

  /** The bot message `sendMessage` logs for `message`, given whether AI
      mode is on, the client's model and fallbacks, and the loaded resume. */
  function ReplyTo(aiMode: bool, model: string, fallbacks: seq<string>, view: Option<OpenRouter.ResumeView>,
                   message: string, currentYear: int, send: OpenRouter.Request -> OpenRouter.Reply): string
  {
    var ai := OpenRouter.GenerateResult(model, fallbacks, message, view, send);
    BotReply(aiMode, ai, BasicReply(view, message, currentYear), view.Some?)
  }

  /** The model the client has set after `sendMessage` asked about `message`. */
  function ModelAfterReply(aiMode: bool, model: string, fallbacks: seq<string>, view: Option<OpenRouter.ResumeView>,
                           message: string, send: OpenRouter.Request -> OpenRouter.Reply): string
  {
    if aiMode then OpenRouter.ModelAfter(model, fallbacks, message, view, send) else model
  }

  /** The message shown for a failed connection test. */
  function FriendlyError(message: string): string {
    if Contains(message, "401") then InvalidKeyHint
    else if Contains(message, "403") then NoPermissionHint
    else if Contains(message, "No working models found") then NoFreeModelsHint
    else message
  }

  /** A text that includes `sub` holds each of `sub`'s characters. */
  lemma ContainsChar(s: string, sub: string, i: nat)
    requires i < |sub|
    ensures Contains(s, sub) ==> sub[i] in s
  {
    ContainsIffOccurs(s, sub);
    if Contains(s, sub) {
      var j :| OccursAt(s, sub, j);
      assert s[j + i] == s[j..j + |sub|][i];
    }
  }

  /** The connection test only ever fails with "No working models found"
      (it swallows each model's own error), so a failed test always shows
      the no-free-models hint, even for a key the service rejects with 401. */
  lemma TestFailureHint()
    ensures FriendlyError(OpenRouter.NoWorkingModelsError) == NoFreeModelsHint
  {
    var head, tail := OpenRouter.TestFailedPrefix, OpenRouter.NoWorkingModels;
    var e := head + tail;
    assert '4' !in "Connection test failed: ";
    assert '4' !in "No working models found";
    ContainsChar(e, "401", 0);
    ContainsChar(e, "403", 0);
    ContainsItself(tail);
    ContainsConcat(head, tail, tail);
  }

  /** The upload area's check: an accepted MIME type, or a name ending in
      `.pdf`, `.docx` or `.doc` in any case. */
  predicate AcceptedUpload(fileType: string, fileName: string) {
    var name := Lower(fileName);
    fileType in UploadTypes || EndsWith(name, ".pdf") || EndsWith(name, ".docx") || EndsWith(name, ".doc")
  }

  /** Every file the parser can read passes the upload check ... */
  lemma ParserReadsOnlyUploads(fileType: string, fileName: string)
    requires ResumeParser.FileKindOf(fileType, fileName).Some?
    ensures AcceptedUpload(fileType, fileName)
  {
  }

  /** ... but not the other way round: the parser picks the Word extractor
      by name only, so a Word file whose name lacks the extension passes the
      upload check and is then refused. */
  lemma WordTypeNeedsExtension()
    ensures AcceptedUpload("application/msword", "resume")
    ensures ResumeParser.FileKindOf("application/msword", "resume").None?
  {
    assert UploadTypes[2] == "application/msword";
    assert Lower("resume") == "resume";
  }

  /** The status line of the API key dialog. */
  datatype ApiStatus = ApiStatus(text: string, isError: bool)

  // ------------------------------------------------------------------
  // The controller

  class ChatbotApp {
    var messages: seq<Message>
    var isProcessing: bool
    var resumeData: ResumeData?
    var resumeText: string
    var resumeFileName: string
    const resumeParser: ResumeParser.ResumeParser
    const ragEngine: RagEngine.RagEngine
    const openRouterApi: OpenRouter.OpenRouterApi
    var useAI: bool

    /** The engine answers from the resume the controller holds, which is
        the parser's record. */
    predicate Valid()
      reads this, ragEngine
    {
      && ragEngine.Valid()
      && ragEngine.resumeData == resumeData
      && (resumeData != null ==> ragEngine.resumeParser == resumeParser)
    }

    /** The loaded resume as the OpenRouter client formats it. */
    function View(): Option<OpenRouter.ResumeView>
      reads this`resumeData, resumeData, if resumeData == null then {} else {resumeData.sections}
    {
      if resumeData == null then None
      else Some(OpenRouter.ResumeView(resumeData.sections.Value(), resumeData.rawText))
    }

    /** `constructor()`; restoring the log, the resume and the key from
        `localStorage` is not modelled. */
    constructor (rx: ResumeParser.Regexes)
      ensures Valid()
      ensures messages == [] && !isProcessing && !useAI
      ensures resumeData == null && resumeText == "" && resumeFileName == ""
      ensures fresh(resumeParser) && fresh(resumeParser.resumeData) && fresh(resumeParser.resumeData.sections)
      ensures fresh(ragEngine) && fresh(openRouterApi) && resumeParser.rx == rx
      ensures openRouterApi.apiKey == None && openRouterApi.model == OpenRouter.DefaultModel
    {
      messages := [];
      isProcessing := false;
      resumeData := null;
      resumeText := "";
      resumeFileName := "";
      resumeParser := new ResumeParser.ResumeParser(rx);
      ragEngine := new RagEngine.RagEngine();
      openRouterApi := new OpenRouter.OpenRouterApi();
      useAI := false;
    }

    /** `addMessage(content, sender)`: the message joins the end of the log. */
    method AddMessage(content: string, sender: Sender, timestamp: string)
      modifies this`messages
      ensures messages == old(messages) + [Message(content, sender, timestamp)]
    {
      messages := messages + [Message(content, sender, timestamp)];
    }

    /** `clearChat()`; `confirmed` is the user's answer to the dialog. */
    method ClearChat(confirmed: bool)
      modifies this`messages
      ensures messages == if confirmed then [] else old(messages)
    {
      if confirmed {
        messages := [];
      }
    }

    /** `sendMessage()` up to its `await`: ignore a blank input or one sent
        while busy; otherwise log the question and mark the chat busy. The
        question to answer comes back; `FinishMessage` is the rest. */
    method SendMessage(input: string, timestamp: string) returns (question: Option<string>)
      modifies this`messages, this`isProcessing
      ensures var message := Trim(input);
        if message == "" || old(isProcessing) then
          question == None && messages == old(messages) && isProcessing == old(isProcessing)
        else
          && question == Some(message) && isProcessing
          && messages == old(messages) + [Message(message, User, timestamp)]
    {
      var message := Trim(input);
      if message == "" || isProcessing {
        return None;
      }
      AddMessage(message, User, timestamp);
      isProcessing := true;
      question := Some(message);
    }

    /** `sendMessage()` from its `await` on: log the reply to `message` and
        clear the busy mark (the `finally`). */
    method FinishMessage(message: string, timestamp: string, currentYear: int,
                         send: OpenRouter.Request -> OpenRouter.Reply)
      requires Valid()
      modifies this`messages, this`isProcessing, openRouterApi
      ensures Valid() && openRouterApi.apiKey == old(openRouterApi.apiKey) && !isProcessing
      ensures messages == old(messages) + [Message(old(ReplyTo(AiMode(), openRouterApi.model, openRouterApi.fallbackModels,
                                                             View(), message, currentYear, send)), Bot, timestamp)]
      ensures openRouterApi.model == old(ModelAfterReply(AiMode(), openRouterApi.model, openRouterApi.fallbackModels,
                                                          View(), message, send))
    {
      var reply := Respond(message, View(), currentYear, send);
      AddMessage(reply, Bot, timestamp);
      isProcessing := false;
    }

    /** Whether `sendMessage` asks the AI: AI mode is on and a key is set. */
    predicate AiMode()
      reads this`useAI, openRouterApi
    {
      useAI && openRouterApi.IsConfigured()
    }

    /** The `try`/`catch` of `sendMessage`: the AI answer in AI mode, with
        the engine as the fallback when the call throws; the engine's answer
        in basic mode. `view` is the resume as loaded. */
    method Respond(message: string, view: Option<OpenRouter.ResumeView>, currentYear: int,
                   send: OpenRouter.Request -> OpenRouter.Reply) returns (reply: string)
      requires Valid() && view == View()
      modifies openRouterApi
      ensures openRouterApi.apiKey == old(openRouterApi.apiKey)
      ensures reply == ReplyTo(old(AiMode()), old(openRouterApi.model), openRouterApi.fallbackModels,
                               view, message, currentYear, send)
      ensures openRouterApi.model == ModelAfterReply(old(AiMode()), old(openRouterApi.model),
                                                     openRouterApi.fallbackModels, view, message, send)
    {
      var response: Result<string>;
      if useAI && openRouterApi.IsConfigured() {
        response := openRouterApi.GenerateResponse(message, view, send);
      } else {
        var answer := ragEngine.AnswerQuestion(message, currentYear);
        response := Ok(answer);
      }
      if response.Ok? {
        reply := response.value;
      } else if useAI && resumeData != null {
        var fallback := ragEngine.AnswerQuestion(message, currentYear);
        reply := fallback + AiFailureNote;
      } else {
        reply := Apology;
      }
    }

    /** `processFile(file)`: check the type, parse, and hand the parsed
        record to the engine. `extract` stands for the text extractors. */
    method ProcessFile(fileType: string, fileName: string, extract: ResumeParser.FileKind -> Result<string>)
      returns (loaded: bool)
      requires Valid()
      modifies this`resumeData, this`resumeText, this`resumeFileName, ragEngine
      modifies resumeParser.resumeData, resumeParser.resumeData.sections
      ensures Valid()
      ensures loaded <==> && AcceptedUpload(fileType, fileName)
                          && ResumeParser.FileKindOf(fileType, fileName).Some?
                          && extract(ResumeParser.FileKindOf(fileType, fileName).value).Ok?
      ensures resumeFileName == if AcceptedUpload(fileType, fileName) then fileName else old(resumeFileName)
      ensures !loaded ==> && resumeData == old(resumeData) && resumeText == old(resumeText)
                          && unchanged(ragEngine, resumeParser.resumeData, resumeParser.resumeData.sections)
      ensures loaded ==>
                var text := extract(ResumeParser.FileKindOf(fileType, fileName).value).value;
                && resumeData == resumeParser.resumeData
                && resumeText == text && resumeData.rawText == text
                && resumeData.sections.Value()
                     == ResumeParser.ParseSections(resumeParser.rx, old(resumeParser.resumeData.sections.Value()), text)
    {
      if !AcceptedUpload(fileType, fileName) {
        return false;
      }
      resumeFileName := fileName;
      var parsed := resumeParser.ParseResume(fileType, fileName, extract);
      if parsed.Err? {
        return false;
      }
      resumeData := parsed.value;
      resumeText := resumeData.rawText;
      ragEngine.Initialize(resumeParser);
      loaded := true;
    }

    /** `testApiConnection()`: check the key's form, then try it on the
        fallback models. The key under test stays set afterwards: the
        restore in the error handler names a variable of the `try` block,
        which is out of scope there. */
    method TestApiConnection(input: string, send: OpenRouter.Request -> OpenRouter.Reply)
      returns (status: ApiStatus)
      modifies openRouterApi
      ensures var key := Trim(input);
        if key == "" then status == ApiStatus(EnterKeyFirst, true) && unchanged(openRouterApi)
        else if !IsPrefix(KeyPrefix, key) then status == ApiStatus(BadKeyPrefix, true) && unchanged(openRouterApi)
        else
          && openRouterApi.apiKey == Some(key)
          && match OpenRouter.FirstWorking(openRouterApi.fallbackModels, send)
             case Some(m) => openRouterApi.model == m && status == ApiStatus(ConnectedPrefix + m, false)
             case None => openRouterApi.model == old(openRouterApi.model)
                          && status == ApiStatus(FailedPrefix + NoFreeModelsHint, true)
    {
      var key := Trim(input);
      if key == "" {
        return ApiStatus(EnterKeyFirst, true);
      }
      if !IsPrefix(KeyPrefix, key) {
        return ApiStatus(BadKeyPrefix, true);
      }
      openRouterApi.apiKey := Some(key);
      assert openRouterApi.IsConfigured() by {
        assert !IsSpace(key[0]);
        TrimSpec(key);
      }
      var tested := openRouterApi.TestConnection(send);
      if tested.Ok? {
        status := ApiStatus(ConnectedPrefix + openRouterApi.model, false);
      } else {
        TestFailureHint();
        status := ApiStatus(FailedPrefix + FriendlyError(tested.error), true);
      }
    }

    /** `saveApiConfiguration()`: any non-blank key is kept and switches AI
        mode on; its form is not checked here. */
    method SaveApiConfiguration(input: string, timestamp: string) returns (status: Option<ApiStatus>)
      modifies openRouterApi, this`useAI, this`messages
      ensures var key := Trim(input);
        if key == "" then
          && status == Some(ApiStatus(EnterKey, true))
          && unchanged(openRouterApi) && useAI == old(useAI) && messages == old(messages)
        else
          && status == None && useAI
          && openRouterApi.apiKey == Some(key) && openRouterApi.IsConfigured()
          && openRouterApi.model == old(openRouterApi.model)
          && messages == old(messages) + [Message(AiModeActive, Bot, timestamp)]
    {
      var key := Trim(input);
      if key == "" {
        return Some(ApiStatus(EnterKey, true));
      }
      TrimSpec(input);
      TrimSpec(key);
      openRouterApi.SetApiKey(key);
      useAI := true;
      AddMessage(AiModeActive, Bot, timestamp);
      status := None;
    }

    /** `skipApiConfiguration()`: basic mode, announced in the log. */
    method SkipApiConfiguration(timestamp: string)
      modifies this`useAI, this`messages
      ensures !useAI && messages == old(messages) + [Message(BasicModeActive, Bot, timestamp)]
    {
      useAI := false;
      AddMessage(BasicModeActive, Bot, timestamp);
    }
  }

  /** The dialog's two buttons disagree on what a key looks like: "Save"
      takes a key that "Test" refuses for its form. */
  lemma SaveIsLaxerThanTest()
    ensures Trim("my-key") != "" && !IsPrefix(KeyPrefix, Trim("my-key"))
  {
    assert Trim("my-key") == "my-key" by {
      assert !IsSpace('m') && !IsSpace('y');
    }
  }
}
