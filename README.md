# Resume assistant chatbot and knowledge endpoint, modelled in Dafny

This project models the two question-answering paths of a personal portfolio site.

- **The serverless endpoint** (`netlify/functions/ask.js`) handles a chat request in these steps:
  - It answers a CORS preflight on its own.
  - It parses the JSON body and takes the last user message as the question.
  - It splits a markdown knowledge file into chunks of at most 1200 characters, where paragraphs allow.
  - It embeds the chunks together with the question.
  - It ranks the chunks by cosine similarity to the question.
  - It asks a chat model, giving it the five best chunks as context.
- **The in-browser resume chatbot** (`rag-chatbot/`) is built from four parts:
  - A resume parser. It splits the text of an uploaded resume into lines and fills a shared `resumeData` record. Each section scanner (contacts, education, experience, skills, projects, certifications) appends to its own list.
  - A rule-based answer engine. It classifies a question by keyword tests (first match wins) and builds a templated answer from the record.
  - An OpenRouter client. It tries the current model and then each fallback model until one answers, and keeps the model that worked.
  - The page controller. It keeps the message log, loads files, switches between AI mode and basic mode, and tests and saves the API key.

The Dafny modules follow the source files:

| module | source |
|---|---|
| `Chunker`, `Similarity`, `Ranking`, `AskHandler` | `netlify/functions/ask.js` |
| `Resume`, `ResumeParser` | `rag-chatbot/rag-system/resume-parser.js` |
| `RagEngine` | `rag-chatbot/rag-system/rag-engine.js` |
| `OpenRouter` | `rag-chatbot/rag-system/openrouter-api.js` |
| `ChatbotApp`, `ChatbotUtils` | `rag-chatbot/script.js` |

`Common` holds the JavaScript string operations everything is built from, written out over `seq<char>`: `includes`, `trim`, `toLowerCase`, `split`, `join`, `substring` and `parseInt`.

Objects that the source updates in place are classes:
- `ResumeParser`;
- `ResumeData` and `ResumeSections`, the record the parser fills and the engine reads through the same reference;
- `RagEngine`;
- `OpenRouterApi`;
- `ChatbotApp`.

Each of their methods is proved against a specification function of the old state. Loops are kept where the source has them. The endpoint's sort is a stable in-place insertion sort on an array of `{ i, s }` records, proved equal to the unique ranking of those records.

Services and the environment are parameters:
- the embedding and chat services;
- `fetch` to OpenRouter (one `Request -> Reply` function);
- the PDF/DOCX text extractors;
- `Math.sqrt`;
- the current year;
- timestamps;
- the user's answer to `confirm`.

The regular expressions of the resume parser are uninterpreted extractor functions, except `/(\d{4})/g`, which is written out.

Facts about the code a reader may not expect:
- **Empty question.** An empty question is not refused with a 400. The handler passes `''` on to the embedding and chat services.
- **Keyword order.** The work keywords are tested before the current-job keywords (rag-engine.js line 25). So "what is my current job" is answered from the work history (`RagEngine.CurrentJobPhrasesGoToWork`).
- **Skill groups.** The skill groups of the skills answer are filtered independently and can overlap (`RagEngine.SkillGroupsOverlap`).

Further facts about the code as written, each proved:
- **Lax save.** The "Save" button of the key dialog accepts keys that "Test" rejects for their form (`ChatbotApp.SaveIsLaxerThanTest`).
- **Unreachable hints.** A failed connection test always reports "No working models found". So the 401/403 hints of the test dialog are never chosen (`ChatbotApp.TestFailureHint`).
- **Job descriptions.** Seven of the job-description keywords of `ChatbotUtils` hold a question keyword of the engine. A text naming one of them is never analysed as a job posting (`ChatbotUtils.JobWordsDivertEngine`).

## Model

| member | source | states |
|---|---|---|
| Similarity.CosineSim | netlify/functions/ask.js:4-13 | the loop computes the cosine of the two vectors (dot product over the product of the norms' roots), and 0 when either vector is all zeros |
| Similarity.CosineSymmetric | netlify/functions/ask.js:4-13 | the similarity does not depend on the order of its arguments |
| Similarity.CosineWithZero | netlify/functions/ask.js:11 | a zero vector scores 0 against anything, in either position |
| Similarity.DotSymmetric | netlify/functions/ask.js:7 | the accumulated dot product is symmetric |
| Similarity.SquaredNormNonNegative | netlify/functions/ask.js:8-9 | a squared norm is never negative |
| Similarity.DotWithZero | netlify/functions/ask.js:7-11 | a vector of zeros has dot product 0 with any vector |
| Similarity.NormRootPositive | netlify/functions/ask.js:12 | the square root of a positive squared norm is positive, so the division is defined |
| Chunker.Paragraphs | netlify/functions/ask.js:16 | the paragraphs are non-empty and trimmed at both ends |
| Chunker.ChunkMarkdown | netlify/functions/ask.js:15-29 | the packing loop yields the chunks of the reference packing: none empty, rejoined they give the paragraphs back, and a chunk over 1200 characters is a single paragraph |
| Chunker.ChunksOfText | netlify/functions/ask.js:15-29 | the same three facts about the chunks of any text |
| Chunker.PackPreservesText | netlify/functions/ask.js:20-27 | joining the chunks with blank lines gives the paragraphs joined the same way: nothing is lost, reordered or duplicated |
| Chunker.PackChunkBounds | netlify/functions/ask.js:20-27 | no chunk is empty, and only a single paragraph may exceed the 1200-character limit |
| Chunker.PackIsGrouping | netlify/functions/ask.js:19-27 | the chunks are the groups of a partition of the paragraphs into non-empty runs, in order, each joined with blank lines |
| Chunker.PackFoldIsGrouping | netlify/functions/ask.js:19-26 | after any prefix, the pushed chunks and `cur` are the closed groups and the open group of that partition |
| Chunker.PackGroupBound | netlify/functions/ask.js:20 | a chunk of two or more paragraphs is at most 1200 characters long |
| Chunker.GroupingCovers | netlify/functions/ask.js:19-26 | the closed groups followed by the open one are exactly the paragraphs read so far |
| Chunker.GroupingNonEmpty | netlify/functions/ask.js:21-24 | no group is empty, and the open group is empty only before the first paragraph |
| Chunker.GroupingBound | netlify/functions/ask.js:20-24 | a group of two or more paragraphs is joined within the limit |
| Ranking.ScoredInOrder | netlify/functions/ask.js:124 | record k carries index k and the k-th score |
| Ranking.SortByScore | netlify/functions/ask.js:125 | the in-place sort leaves the array equal to the ranking of its old contents: best score first, ties in original order, a permutation |
| Ranking.InsertLast | netlify/functions/ask.js:125 | one insertion step keeps the array a permutation, keeps the tail unchanged and makes the prefix ranked |
| Ranking.Rank | netlify/functions/ask.js:125 | the ranking is a permutation of its input |
| Ranking.RankRanked | netlify/functions/ask.js:125 | the ranking is ordered by descending score, ties by ascending index |
| Ranking.RankIsRanking | netlify/functions/ask.js:125 | the ranking is the only ordered permutation of its input, so any stable descending sort gives it |
| Ranking.RankedUnique | netlify/functions/ask.js:125 | two ordered permutations of one list of distinct indices are equal |
| Ranking.RankFirstIsBest | netlify/functions/ask.js:125-126 | the first record has the highest score |
| Ranking.RankOfScores | netlify/functions/ask.js:124-125 | the ranked records are exactly the (index, score) pairs of the input, ordered |
| Ranking.TopIndices | netlify/functions/ask.js:126 | `slice(0, 5)` takes min(5, n) indices, all in range |
| Ranking.TopIndicesOfRank | netlify/functions/ask.js:126 | the chosen indices are those of the first records of the ranking |
| Ranking.TopIndicesAreBest | netlify/functions/ask.js:125-126 | the chosen indices are distinct, best score first with ties in chunk order, and no chunk left out scores higher than a chosen one |
| Ranking.TopIndicesDominate | netlify/functions/ask.js:125-126 | every chosen chunk scores at least as high as every chunk left out |
| Ranking.TopIndicesOrdered | netlify/functions/ask.js:125-126 | the chosen indices are distinct and in descending score order, ties in chunk order |
| AskHandler.LastUserContentSpec | netlify/functions/ask.js:93 | the question is the content of the last message whose role is user, and `''` when there is none |
| AskHandler.Scores | netlify/functions/ask.js:124 | one cosine score per chunk vector, against the question's vector |
| AskHandler.ChunkScores | netlify/functions/ask.js:119-124 | one score per chunk, the question being the last embedded text |
| AskHandler.TopChunks | netlify/functions/ask.js:126 | the chunks at the five (or fewer) best-ranked indices, in rank order |
| AskHandler.ContextHoldsBestChunks | netlify/functions/ask.js:124-127 | the context chunks are those at the chosen indices, best first with ties in chunk order, and no chunk left out scores higher than one taken |
| AskHandler.Handler | netlify/functions/ask.js:77-147 | the handler returns the response of the reference definition for every event |
| AskHandler.AnswerFromChunks | netlify/functions/ask.js:118-137 | embedding, ranking and asking give the reference retrieval response |
| AskHandler.BuildContext | netlify/functions/ask.js:121-127 | the context is the five best chunks joined with the `---` separator |
| AskHandler.ScoreChunks | netlify/functions/ask.js:124 | the fresh array holds one `{ i, s }` record per chunk vector, in order |
| AskHandler.JoinBest | netlify/functions/ask.js:125-127 | sorting and taking five gives the top chunks joined by the separator, whatever the scores |
| AskHandler.PreflightIgnoresEverythingElse | netlify/functions/ask.js:78-88 | an OPTIONS request gets the CORS preflight response, whatever the knowledge or key |
| AskHandler.MalformedBodyFails | netlify/functions/ask.js:90-146 | a body that is not JSON gives status 500 carrying the parse error, even with no knowledge |
| AskHandler.RequestRouting | netlify/functions/ask.js:103-122 | blank knowledge gives the fixed answer; otherwise a missing or empty key gives the 500 "Missing OPENAI_API_KEY"; otherwise the services are used |
| AskHandler.RetrieveWellFormed | netlify/functions/ask.js:118-146 | once the services are reached, the response is 200 with a JSON answer or 500 with the error, with the allow-origin header |
| AskHandler.ResponseShape | netlify/functions/ask.js:77-147 | every response is 200 with an empty or JSON body, or 500 with a text; all but the missing-key response carry the allow-origin header |
| AskHandler.RetrieveAsks | netlify/functions/ask.js:118-137 | the chat service is asked the question with the context of the best chunks, and its answer comes back as `{ answer }` |
| Resume.ResumeSections.constructor | rag-chatbot/rag-system/resume-parser.js:5-13 | a fresh record has no contact keys and empty lists |
| Resume.ResumeData.constructor | rag-chatbot/rag-system/resume-parser.js:3-14 | a fresh resume has no text and empty sections |
| Resume.FindCurrentJob | rag-chatbot/rag-system/resume-parser.js:338-343 | `find` returns the first entry whose end year says present or current, is empty, or is a year no older than last year; and none when no entry does |
| ResumeParser.ResumeParser.constructor | rag-chatbot/rag-system/resume-parser.js:2-15 | the parser starts with a fresh, empty record |
| ResumeParser.ResumeParser.ParseResume | rag-chatbot/rag-system/resume-parser.js:17-36 | a file that is neither PDF (by type or name) nor Word (by name) is refused with "Unsupported file format" and a failed extraction passes its error on, both leaving the record untouched; otherwise the text is stored and the sections become the parse of that text appended to the old ones |
| ResumeParser.ResumeParser.ParseStructuredData | rag-chatbot/rag-system/resume-parser.js:86-107 | the sections become the reference parse of the non-blank lines, appended to what was there |
| ResumeParser.ResumeLines | rag-chatbot/rag-system/resume-parser.js:88 | no line kept is blank |
| ResumeParser.ResumeParser.ExtractPersonalInfo | rag-chatbot/rag-system/resume-parser.js:109-135 | the contact fields become those of the reference contact scan |
| ResumeParser.ContactPolicy | rag-chatbot/rag-system/resume-parser.js:115-134 | parsing into an empty record, the name is the first line trimmed, the email comes from the last line that matches and the phone from the first |
| ResumeParser.LastMatchIsLast | rag-chatbot/rag-system/resume-parser.js:115-117 | an overwriting scan keeps the match of the last matching line |
| ResumeParser.FirstMatchIsFirst | rag-chatbot/rag-system/resume-parser.js:115-122 | a guarded scan from no value keeps the match of the first matching line |
| ResumeParser.FirstMatchKeepsTruthy | rag-chatbot/rag-system/resume-parser.js:120 | a phone already set is never replaced |
| ResumeParser.NoMatchKeepsPrior | rag-chatbot/rag-system/resume-parser.js:115-129 | with no matching line, the field keeps its earlier value |
| ResumeParser.InSectionIff | rag-chatbot/rag-system/resume-parser.js:141-157 | a scanner is inside its section exactly when some earlier line opened it and no later heading closed it |
| ResumeParser.ScanOpens | rag-chatbot/rag-system/resume-parser.js:148-151 | a line under 50 characters naming a section keyword opens the section |
| ResumeParser.ScanCloses | rag-chatbot/rag-system/resume-parser.js:154-157 | another section heading met inside the section closes it |
| ResumeParser.ScanVisits | rag-chatbot/rag-system/resume-parser.js:144-157 | any other line leaves the flag as it was |
| ResumeParser.ResumeParser.ExtractEducation | rag-chatbot/rag-system/resume-parser.js:137-166 | the education list gains exactly the reference entries of the lines |
| ResumeParser.EducationEntrySpec | rag-chatbot/rag-system/resume-parser.js:168-187 | a line yields an entry unless it has no degree, no institution and no four-digit year; the entry keeps the line and its last year |
| ResumeParser.EducationSkip | rag-chatbot/rag-system/resume-parser.js:148-157 | a line that opens or closes the section adds no entry |
| ResumeParser.EducationVisit | rag-chatbot/rag-system/resume-parser.js:159-164 | any other line inside the section, or naming a degree keyword, adds its parsed entry if it has one |
| ResumeParser.FourDigitRunsAreYears | rag-chatbot/rag-system/resume-parser.js:170-174 | every match of the global year expression is four digits |
| ResumeParser.FourDigitRunsEmpty | rag-chatbot/rag-system/resume-parser.js:170-174 | the match list is empty exactly when no four digits stand together |
| ResumeParser.ResumeParser.ExtractExperience | rag-chatbot/rag-system/resume-parser.js:189-217 | the experience list gains exactly the reference entries of the lines |
| ResumeParser.ExperienceEntrySpec | rag-chatbot/rag-system/resume-parser.js:219-243 | a line yields a job unless it has no job-title keyword, no year and no company; the title is the trimmed line and the description the following context lines, joined and trimmed |
| ResumeParser.ExperienceYears | rag-chatbot/rag-system/resume-parser.js:236-237 | a date range wins over bare years: start and end are the range's groups, else the first and second four-digit runs, else empty |
| ResumeParser.ExperienceSkip | rag-chatbot/rag-system/resume-parser.js:199-208 | a line that opens or closes the section adds no entry |
| ResumeParser.ExperienceVisit | rag-chatbot/rag-system/resume-parser.js:210-215 | any other line inside the section, or naming a job-title keyword, adds its parsed entry (seeing it and the four lines after) if it has one |
| ResumeParser.ResumeParser.ExtractSkills | rag-chatbot/rag-system/resume-parser.js:245-283 | the skills list becomes the old list plus the skills found, with duplicates removed |
| ResumeParser.SkillsInSpec | rag-chatbot/rag-system/resume-parser.js:270 | a line yields exactly the common skills it contains |
| ResumeParser.SkillsSkip | rag-chatbot/rag-system/resume-parser.js:259-267 | a line that opens or closes the section adds no skill |
| ResumeParser.SkillsVisit | rag-chatbot/rag-system/resume-parser.js:270-278 | any other line adds its common skills when it has some or the section is open, followed by the trimmed line itself when the section is open and it is not blank |
| ResumeParser.ParsedSkillsDistinct | rag-chatbot/rag-system/resume-parser.js:282 | after a parse the skills hold no repeats, are exactly the old skills and the new entries, and keep the order of first occurrence |
| ResumeParser.ResumeParser.ExtractProjects | rag-chatbot/rag-system/resume-parser.js:285-309 | the projects list gains exactly the reference entries of the lines |
| ResumeParser.ProjectsSkip | rag-chatbot/rag-system/resume-parser.js:292-300 | a line that opens or closes the section adds no project |
| ResumeParser.ProjectsVisit | rag-chatbot/rag-system/resume-parser.js:302-307 | any non-blank line inside the section adds a project named by the trimmed line and described by the next two lines |
| ResumeParser.ResumeParser.ExtractCertifications | rag-chatbot/rag-system/resume-parser.js:311-319 | the certifications list gains the trimmed lines that name a certification keyword |
| ResumeParser.CertificationsAppend | rag-chatbot/rag-system/resume-parser.js:311-319 | certifications of two runs of lines are those of each, in order |
| ResumeParser.CertificationsStep | rag-chatbot/rag-system/resume-parser.js:314-318 | one more line adds itself, trimmed, exactly when it names a certification keyword |
| ResumeParser.ReparseAppends | rag-chatbot/rag-system/resume-parser.js:86-107 | parsing the same text a second time duplicates the entry lists but keeps the skills, since the record is not reset |
| ResumeParser.SummariesListEntries | rag-chatbot/rag-system/resume-parser.js:327-377 | each summary gives its fixed text for an empty list and otherwise names every entry (skills: the first ten) |
| ResumeParser.CurrentWorkNamesFirstCurrentJob | rag-chatbot/rag-system/resume-parser.js:337-350 | the current-work summary describes the first current job, and gives the fixed text when there is none |
| ResumeParser.SearchResumeSpec | rag-chatbot/rag-system/resume-parser.js:379-393 | a query absent from the text, ignoring case, finds nothing; otherwise the result joins by spaces the first min(3, n) of the n sentences holding the query, in text order |
| ResumeParser.SearchHitsInOrder | rag-chatbot/rag-system/resume-parser.js:385-389 | the kept sentences sit at the first increasing positions whose sentence holds the query, and none carries a sentence end |
| RagEngine.RagEngine.constructor | rag-chatbot/rag-system/rag-engine.js:2-5 | a fresh engine has neither parser nor resume |
| RagEngine.RagEngine.Initialize | rag-chatbot/rag-system/rag-engine.js:7-10 | the engine shares the parser's own record |
| RagEngine.RagEngine.AnswerQuestion | rag-chatbot/rag-system/rag-engine.js:12-56 | with no resume the upload request; otherwise the reference answer for the question's class |
| RagEngine.ClassifyFirstMatch | rag-chatbot/rag-system/rag-engine.js:17-47 | a question goes to a topic exactly when it names one of that topic's keywords and none of an earlier topic's |
| RagEngine.ClassifyFallback | rag-chatbot/rag-system/rag-engine.js:49-55 | a question naming no topic is a job posting exactly when longer than 200 characters, and a search otherwise |
| RagEngine.WorkWordsWin | rag-chatbot/rag-system/rag-engine.js:20-27 | a question naming "work" or "job" is answered by the education or work branch |
| RagEngine.PhraseWithWorkWord | rag-chatbot/rag-system/rag-engine.js:25-27 | a phrase containing a work keyword makes a work question |
| RagEngine.CurrentJobPhrasesGoToWork | rag-chatbot/rag-system/rag-engine.js:25-42 | "working at", "current job/position/role/company" never reach the current-job branch |
| RagEngine.RagEngine.GetEducationAnswer | rag-chatbot/rag-system/rag-engine.js:66-100 | the loop builds the reference education answer |
| RagEngine.EducationAnswerListsEntries | rag-chatbot/rag-system/rag-engine.js:75-82 | every education entry is listed, numbered from 1 |
| RagEngine.EducationAnswerNamesInstitutions | rag-chatbot/rag-system/rag-engine.js:85-90 | a "where" question names every institution given |
| RagEngine.RagEngine.GetWorkExperienceAnswer | rag-chatbot/rag-system/rag-engine.js:110-135 | the loop builds the reference work answer, trimmed |
| RagEngine.ShortenSpec | rag-chatbot/rag-system/rag-engine.js:129 | a description of at most 200 characters is kept whole; a longer one keeps 200 and gains "..." |
| RagEngine.YearRangeSpec | rag-chatbot/rag-system/rag-engine.js:124-126 | the range appears exactly when a year is known, with "?" and "Present" standing in |
| RagEngine.MostRecent | rag-chatbot/rag-system/rag-engine.js:155-160 | the fallback pick, if any, is a dated entry |
| RagEngine.MostRecentIsLatest | rag-chatbot/rag-system/rag-engine.js:155-160 | the stable sort's head: no dated entry starts later, earlier dated entries start strictly earlier, and none exists exactly when no entry is dated |
| RagEngine.CurrentJobFallsBack | rag-chatbot/rag-system/rag-engine.js:145-176 | the first current job is described; without one, the dated job no dated job starts later than; the fixed text comes exactly when no job is current or dated |
| RagEngine.SkillGroups | rag-chatbot/rag-system/rag-engine.js:196-231 | each group holds exactly the skills naming one of its keywords, and "Other" exactly those naming none |
| RagEngine.SkillGroupsOverlap | rag-chatbot/rag-system/rag-engine.js:196-206 | "Java SQL" is listed under both programming and databases |
| RagEngine.RagEngine.GetProjectsAnswer | rag-chatbot/rag-system/rag-engine.js:248-266 | the loop builds the reference projects answer, trimmed |
| RagEngine.PersonalAnswerCountsKeys | rag-chatbot/rag-system/rag-engine.js:276-292 | the fixed text only when no key was ever set; set-but-empty fields leave the bare header; a non-empty email is listed |
| RagEngine.SearchMissGivesSummary | rag-chatbot/rag-system/rag-engine.js:294-322 | a question the resume text does not contain gets the resume summary |
| RagEngine.SearchHitGivesSentences | rag-chatbot/rag-system/rag-engine.js:294-300 | a non-blank search result follows the found header, as the first three matching sentences joined by spaces; a blank one gives the summary |
| RagEngine.RagEngine.AnalyzeJobDescription | rag-chatbot/rag-system/rag-engine.js:324-371 | the loop builds the reference job analysis |
| RagEngine.MatchingSkillsSpec | rag-chatbot/rag-system/rag-engine.js:330-336 | the matches are the lower-cased skills that the posting contains whole or by one of their words |
| RagEngine.EmptyWordMatchesAnything | rag-chatbot/rag-system/rag-engine.js:335 | a skill with an empty word matches every posting |
| RagEngine.UntitledJobIsRelevant | rag-chatbot/rag-system/rag-engine.js:340 | a job with an empty title is relevant to every posting |
| RagEngine.JobAnalysisEnding | rag-chatbot/rag-system/rag-engine.js:363-370 | the analysis ends with the first degree when there is education, and with the skills count otherwise |
| RagEngine.JobAnalysisCounts | rag-chatbot/rag-system/rag-engine.js:364-365 | the analysis states the number of roles and of skills |
| RagEngine.EmptyAnswers | rag-chatbot/rag-system/rag-engine.js:66-292 | every builder gives its fixed message when it has nothing to list |
| OpenRouter.FallbackModelsDistinct | rag-chatbot/rag-system/openrouter-api.js:8-14 | the five fallback models are distinct |
| OpenRouter.TryOrder | rag-chatbot/rag-system/openrouter-api.js:52 | the current model is tried first |
| OpenRouter.TryOrderSpec | rag-chatbot/rag-system/openrouter-api.js:52 | the order holds the current model and every fallback, each once |
| OpenRouter.TryModels | rag-chatbot/rag-system/openrouter-api.js:54-127 | the loop's outcome is that of the reference fallback definition |
| OpenRouter.FallbackOutcomeSpec | rag-chatbot/rag-system/openrouter-api.js:54-127 | success comes from the first model that answered, all before it having failed; failure means all failed and carries the last one's error |
| OpenRouter.OpenRouterApi.constructor | rag-chatbot/rag-system/openrouter-api.js:2-15 | no key, the default model and the five fallbacks |
| OpenRouter.OpenRouterApi.SetApiKey | rag-chatbot/rag-system/openrouter-api.js:17-25 | the key is set and nothing else changes |
| OpenRouter.OpenRouterApi.GenerateResponse | rag-chatbot/rag-system/openrouter-api.js:44-128 | without a key nothing is sent; otherwise the reference result, and the model that answered is kept |
| OpenRouter.StickyModel | rag-chatbot/rag-system/openrouter-api.js:112-116 | after success the model kept is the one that answered; after failure the model is unchanged |
| OpenRouter.OpenRouterApi.CreateSystemPrompt | rag-chatbot/rag-system/openrouter-api.js:130-154 | the prompt is the reference system prompt |
| OpenRouter.SystemPromptSpec | rag-chatbot/rag-system/openrouter-api.js:130-154 | every prompt opens with the guidelines; it holds the resume context when there is one, and ends with the upload request otherwise |
| OpenRouter.OpenRouterApi.FormatResumeContext | rag-chatbot/rag-system/openrouter-api.js:156-231 | the sections are appended in order as the reference context |
| OpenRouter.AppendSection | rag-chatbot/rag-system/openrouter-api.js:171-222 | one list section adds nothing for an empty list, else its heading and numbered items |
| OpenRouter.ResumeContextEmpty | rag-chatbot/rag-system/openrouter-api.js:156-231 | the context is empty exactly when the resume has no contact keys, no entries and no text |
| OpenRouter.ResumeContextExcerpt | rag-chatbot/rag-system/openrouter-api.js:225-228 | the context ends with at most the first 500 characters of the text and "..." |
| OpenRouter.ResumeContextSkills | rag-chatbot/rag-system/openrouter-api.js:201-204 | each of the first 20 skills is named |
| OpenRouter.ExperienceLineShape | rag-chatbot/rag-system/openrouter-api.js:187-196 | an experience line opens with its number and title and closes with the description cut to 300 characters when it is not blank, else with the years |
| OpenRouter.ResumeContextExperience | rag-chatbot/rag-system/openrouter-api.js:184-198 | every experience entry's line is in the context |
| OpenRouter.ResumeContextProject | rag-chatbot/rag-system/openrouter-api.js:207-214 | every project's line is in the context, with its description cut to 200 characters, or without one when it is empty |
| OpenRouter.FirstWorking | rag-chatbot/rag-system/openrouter-api.js:243-281 | the pick is the first fallback in list order whose test succeeded, and none exactly when every test failed |
| OpenRouter.OpenRouterApi.TestConnection | rag-chatbot/rag-system/openrouter-api.js:234-287 | without a key the error; otherwise the first working fallback becomes the model, or "Connection test failed: No working models found" |
| ChatbotApp.ChatbotApp.constructor | rag-chatbot/script.js:2-17 | an empty log, not processing, basic mode, no resume, fresh parser, engine and client |
| ChatbotApp.ChatbotApp.AddMessage | rag-chatbot/script.js:141-167 | the message joins the end of the log |
| ChatbotApp.ChatbotApp.ClearChat | rag-chatbot/script.js:229-244 | the log is emptied when confirmed and kept otherwise |
| ChatbotApp.ChatbotApp.SendMessage | rag-chatbot/script.js:95-105 | a blank input, or one sent while busy, changes nothing; otherwise the trimmed message is logged and processing starts |
| ChatbotApp.ChatbotApp.FinishMessage | rag-chatbot/script.js:107-137 | the reference reply is logged, the model advances as the client's does, and processing ends |
| ChatbotApp.ChatbotApp.Respond | rag-chatbot/script.js:107-134 | AI answer in AI mode, the engine's otherwise; an AI failure falls back to the engine with a note when a resume is loaded |
| ChatbotApp.AiFailureFallsBack | rag-chatbot/script.js:119-132 | after an AI failure the user gets the basic answer plus the note with a resume, and the apology without one |
| ChatbotApp.FormatMessagePlain | rag-chatbot/script.js:169-176 | text without asterisks, bullets or new lines is shown unchanged |
| ChatbotApp.FormatMessageOneLine | rag-chatbot/script.js:175 | no new line survives formatting |
| ChatbotApp.FormatMessageBold | rag-chatbot/script.js:172-175 | a `**heading**` on one line becomes `<strong>heading</strong>` |
| ChatbotApp.ReplacePairsSpan | rag-chatbot/script.js:172-173 | a marked span on one line, free of the mark, is wrapped in the replacement tags |
| ChatbotApp.ReplacePairsPlain | rag-chatbot/script.js:172-173 | text without the mark is left alone |
| ChatbotApp.CloseAt | rag-chatbot/script.js:172-173 | the lazy match closes at the first occurrence of the mark with no line terminator before it, and finds none exactly when no occurrence precedes the line end |
| ChatbotApp.CloseAtSkips | rag-chatbot/script.js:172-173 | the lazy match runs over characters that are neither the mark nor line ends |
| ChatbotApp.SpaceBulletsPlain | rag-chatbot/script.js:174 | text without bullets is left alone |
| ChatbotApp.BreaksPlain | rag-chatbot/script.js:175 | text without new lines is left alone |
| ChatbotApp.BreaksRemoveNewlines | rag-chatbot/script.js:175 | every new line becomes `<br>` |
| ChatbotApp.ChatbotApp.ProcessFile | rag-chatbot/script.js:347-380 | the file loads exactly when it passes the upload check, the parser reads it and extraction succeeds; then the text and sections are the parsed ones, and otherwise the resume is unchanged |
| ChatbotApp.ParserReadsOnlyUploads | rag-chatbot/script.js:349-350 | every file the parser can read passes the upload check |
| ChatbotApp.WordTypeNeedsExtension | rag-chatbot/script.js:349-350 | a Word MIME type without an extension passes the check but the parser refuses it |
| ChatbotApp.ChatbotApp.TestApiConnection | rag-chatbot/script.js:481-524 | a blank key or one without the `sk-or-v1-` prefix is refused; otherwise the key stays set and the first working model is reported, or the no-free-models hint |
| ChatbotApp.ContainsChar | rag-chatbot/script.js:510-514 | a text that includes a string holds each of its characters |
| ChatbotApp.TestFailureHint | rag-chatbot/script.js:507-516 | the only failure message of a configured test maps to the no-free-models hint |
| ChatbotApp.ChatbotApp.SaveApiConfiguration | rag-chatbot/script.js:526-546 | a blank key is refused; any other switches AI mode on, sets the key and logs the announcement |
| ChatbotApp.SaveIsLaxerThanTest | rag-chatbot/script.js:489-529 | "Save" accepts a key that "Test" rejects for its prefix |
| ChatbotApp.ChatbotApp.SkipApiConfiguration | rag-chatbot/script.js:548-555 | basic mode, announced in the log |
| ChatbotUtils.ExtractKeyInfo | rag-chatbot/script.js:599-623 | the lines are filed under the first category they match, each trimmed |
| ChatbotUtils.SortLinesSnoc | rag-chatbot/script.js:609-620 | one more line is pushed onto its category's list only |
| ChatbotUtils.CollectMembers | rag-chatbot/script.js:609-620 | a list holds exactly the trimmed lines of its category |
| ChatbotUtils.SortLinesCount | rag-chatbot/script.js:609-620 | each matching line lands in exactly one list |
| ChatbotUtils.JobWordsDivertEngine | rag-chatbot/script.js:588-596 | a text naming one of seven job keywords is never analysed as a job posting by the engine |
| Common.TrimSpec | rag-chatbot/script.js:96 | `trim()` returns a contiguous slice of the text with only white space cut off either side, starting and ending with a non-space, and is empty only for blank text |
| Common.FilterInOrder | rag-chatbot/rag-system/resume-parser.js:386-388 | `filter` keeps exactly the elements satisfying the test, at strictly increasing positions |
| Common.SplitJoinRoundTrip | rag-chatbot/rag-system/resume-parser.js:88 | splitting on a character and joining with it gives the text back |
| Common.DedupSpec | rag-chatbot/rag-system/resume-parser.js:282 | `[...new Set(xs)]` keeps every element once |
| Common.ParseIntOfNatToString | rag-chatbot/rag-system/resume-parser.js:342 | `parseInt` reads back a printed number |

## Left out

- Reading the knowledge file, `process.env` and the HTTP exchange are left out. The file's content and the key are parameters of the handler.
- `embedTexts` and `chatAnswer` (ask.js:31-75) are service parameters. Their successes and failures are results of those parameters. The JSON shapes they read are not modelled.
- AskHandler.Handler: modelled only for an embedding service that returns one vector per text, all of one length (`EmbedsWell`, also required by `AnswerFromChunks` and the handler lemmas). The handler does not check this; a short or ragged reply (an undefined question vector, `NaN` scores) is not modelled.
- `JSON.parse` is modelled as a body that is either parsed messages or a parse error. The messages array and its `role`/`content` fields are taken as given.
- `Math.sqrt` is a parameter, assumed positive on positive input. Floating point is modelled with reals.
- Similarity.CosineSim: rounding and NaN are not modelled. A NaN score would make the sort's comparator inconsistent; that case is left out.
- `toLowerCase` is modelled on ASCII letters only.
- `length` and `substring` count Unicode scalar values here, not UTF-16 code units as JavaScript does. Text with characters outside the Basic Multilingual Plane (emoji) may therefore be chunked, taken for a heading, classified or cut differently. This touches `Chunker.Pack` and `Chunker.ChunkMarkdown` (the 1200 limit), `ResumeParser.IsSectionHeader` and `ResumeParser.Opens` (the 50 limit), `RagEngine.Classify` and `RagEngine.Shorten` (the 200 limit), `ChatbotUtils.IsJobDescription` (the 100 limit) and the `substring` cuts of the OpenRouter context.
- The parser's regular expressions for email, phone, LinkedIn, GitHub, degree, institution, date range and company are uninterpreted extractor functions. Only `/(\d{4})/g` is written out.
- PDF and DOCX text extraction (`extractTextFromPDF`, `extractTextFromDOCX`, resume-parser.js:38-84) is a parameter, because it runs third-party libraries.
- The DOM, local storage and browser dialogs are left out. This covers:
  - `loadChatHistory`, `saveChatHistory`, `loadResumeData`, `saveResumeData`;
  - `checkAPIConfiguration`, `loadApiKey`;
  - `exportChat`, `changeResume`;
  - the typing indicator, `setStatus`, `alert`.
- The clock is a parameter. It gives the current year and one timestamp per logged message.
- ChatbotApp.ChatbotApp.SendMessage: `sendMessage` is split at its `await`. SendMessage runs up to the await and FinishMessage runs after it. The event loop's interleaving of other handlers between the two is not modelled.
- ChatbotApp.ChatbotApp.Respond: the inner `catch` around the fallback engine call (script.js:127-129) is not modelled. The engine never throws once a resume is loaded.
- ChatbotApp.ChatbotApp.TestApiConnection: the restoring line `this.openRouterAPI.apiKey = originalKey` in the `catch` names a constant declared inside the `try`. So it throws rather than restoring the key. The model keeps the key under test, which is the same observable effect. The thrown `ReferenceError` itself is not modelled.
- ChatbotApp.ChatbotApp.SaveApiConfiguration: the "Error saving API key" branch is not modelled. `setApiKey` already swallows local-storage errors, so that branch cannot be taken.
- OpenRouter.TryModels: the model switch happens after the loop rather than inside it, in `GenerateResponse`. Nothing observes the difference. The console logging is left out.
- OpenRouter.OpenRouterApi.GenerateResponse: the request's temperature, token limit and headers are fixed values of the request and are not part of the model.
- The JSON errors of a failed OpenRouter response are carried as the reply's message. The response status and body are not parsed.
- RagEngine.MostRecent: the sort `parseInt(b) - parseInt(a)` is modelled as a comparison where a number beats no number. In JavaScript a `NaN` from the comparator counts as 0 (equal), which makes the comparator inconsistent when a start year does not parse, so the resulting order is left to the engine; the model fixes one order for that case.
- `performGeneralSearch` reads `this.resumeParser.searchResume`. The model searches the raw text of the same shared record.
- `Resume.ResumeSections` has an `achievements` list that no scanner fills. It is kept empty.
