// The serverless question-answering endpoint (netlify/functions/ask.js,
// `exports.handler`).
//
// The request body, the knowledge file, the API key, the embedding and chat
// services and the square root are all inputs: the JSON text is taken as
// already parsed (or as the text of the error its parsing threw), and each
// service call is a function from its arguments to an answer or to the text
// of the error it threw.

module AskHandler {
  import opened Common
  import opened Chunker
  import opened Similarity
  import opened Ranking

  datatype Message = Message(role: string, content: string)

  /** `JSON.parse(event.body || '{}')`: either the error it threw, or the
      `messages` field when that is an array (`None` otherwise). */
  datatype Payload = Malformed(error: string) | Json(messages: Option<seq<Message>>)

  datatype Event = Event(httpMethod: string, body: Payload)

  datatype Header = Header(name: string, value: string)

  /** `''`, `JSON.stringify({ answer })` or a plain text. */
  datatype Body = EmptyBody | AnswerJson(answer: string) | Text(text: string)

  datatype Response = Response(statusCode: nat, headers: seq<Header>, body: Body)

  const AllowOrigin := Header("Access-Control-Allow-Origin", "*")
  const PreflightHeaders := [
    AllowOrigin,
    Header("Access-Control-Allow-Headers", "*"),
    Header("Access-Control-Allow-Methods", "GET, POST, OPTIONS")
  ]
  const NoKnowledgeAnswer := "No knowledge added yet. Please add content to public/data/knowledge.md and redeploy."
  const MissingKeyText := "Missing OPENAI_API_KEY"
  /** How many chunks go into the context. */
  const TopK: nat := 5
  const ContextSeparator := "\n\n---\n\n"

  const Preflight := Response(200, PreflightHeaders, EmptyBody)
  const MissingKey := Response(500, [], Text(MissingKeyText))

  /** The `catch (e)` branch: status 500 with `String(e)` as the body. */
  function Failure(error: string): Response {
    Response(500, [AllowOrigin], Text(error))
  }

  function Answer(answer: string): Response {
    Response(200, [AllowOrigin], AnswerJson(answer))
  }

  // ------------------------------------------------------------------
  // The question

  /** `messages.filter(m => m.role === 'user').slice(-1)[0]?.content || ''`:
      the content of the last user message, or `""` when there is none. */
  function LastUserContent(ms: seq<Message>): string
    decreases |ms|
  {
    if ms == [] then ""
    else if ms[|ms| - 1].role == "user" then ms[|ms| - 1].content
    else LastUserContent(ms[..|ms| - 1])
  }

  predicate NoUserMessage(ms: seq<Message>) {
    forall k :: 0 <= k < |ms| ==> ms[k].role != "user"
  }

  /** `ms[k]` is the last message with the user role. */
  predicate IsLastUserMessage(ms: seq<Message>, k: int) {
    0 <= k < |ms| && ms[k].role == "user" && NoUserMessage(ms[k + 1..])
  }

  /** The question is the last user message's content, and empty when no
      message comes from the user. */
  lemma {:induction false} LastUserContentSpec(ms: seq<Message>)
    ensures NoUserMessage(ms) ==> LastUserContent(ms) == ""
    ensures forall k :: IsLastUserMessage(ms, k) ==> LastUserContent(ms) == ms[k].content
    decreases |ms|
  {
    if ms != [] {
      var n := |ms| - 1;
      var init := ms[..n];
      LastUserContentSpec(init);
      if ms[n].role == "user" {
        forall k | IsLastUserMessage(ms, k)
          ensures k == n
        {
          if k < n {
            assert false;
          }
        }
      } else {
        assert NoUserMessage(ms) ==> NoUserMessage(init) by {
          assert forall k :: 0 <= k < n ==> init[k] == ms[k];
        }
        forall k | IsLastUserMessage(ms, k)
          ensures IsLastUserMessage(init, k)
        {
          assert k != n;
          assert init[k + 1..] == ms[k + 1..n];
        }
      }
    }
  }

  function Question(messages: Option<seq<Message>>): string {
    LastUserContent(messages.GetOr([]))
  }

  // ------------------------------------------------------------------
  // The services

  /** The embedding service returns one vector per text, all of one
      dimension. */
  ghost predicate EmbedsWell(embed: seq<string> -> Result<seq<seq<real>>>) {
    forall texts :: embed(texts).Ok? ==> WellShaped(texts, embed(texts).value)
  }

  predicate WellShaped(texts: seq<string>, vecs: seq<seq<real>>) {
    |vecs| == |texts| && forall k :: 0 <= k < |vecs| ==> |vecs[k]| == |vecs[0]|
  }

  /** `cVecs.map((vec, i) => cosineSim(vec, qVec))`, the scores alone. */
  function Scores(cVecs: seq<seq<real>>, qVec: seq<real>, sqrt: real -> real): (r: seq<real>)
    requires IsSqrt(sqrt) && forall k :: 0 <= k < |cVecs| ==> |cVecs[k]| == |qVec|
    ensures |r| == |cVecs|
    ensures forall k :: 0 <= k < |r| ==> r[k] == Cosine(cVecs[k], qVec, sqrt)
  {
    seq(|cVecs|, k requires 0 <= k < |cVecs| => Cosine(cVecs[k], qVec, sqrt))
  }

  /** `scored.slice(0, 5).map(({ i }) => chunks[i])` after the sort. */
  function TopChunks(chunks: seq<string>, scores: seq<real>): (top: seq<string>)
    requires |scores| == |chunks|
    ensures |top| == |TopIndices(scores, TopK)| == if |chunks| < TopK then |chunks| else TopK
    ensures forall p :: 0 <= p < |top| ==> top[p] == chunks[TopIndices(scores, TopK)[p]]
  {
    var idx := TopIndices(scores, TopK);
    seq(|idx|, p requires 0 <= p < |idx| => chunks[idx[p]])
  }

  // ------------------------------------------------------------------
  // The handler as a function of its inputs

  function Respond(event: Event, corpus: string, apiKey: Option<string>,
                   embed: seq<string> -> Result<seq<seq<real>>>,
                   chat: (string, string) -> Result<string>,
                   sqrt: real -> real): Response
    requires EmbedsWell(embed) && IsSqrt(sqrt)
  {
    if event.httpMethod == "OPTIONS" then Preflight
    else match event.body
      case Malformed(e) => Failure(e)
      case Json(messages) => RespondTo(Question(messages), corpus, apiKey, embed, chat, sqrt)
  }

  /** The handler once the question is known. */
  function RespondTo(question: string, corpus: string, apiKey: Option<string>,
                     embed: seq<string> -> Result<seq<seq<real>>>,
                     chat: (string, string) -> Result<string>,
                     sqrt: real -> real): Response
    requires EmbedsWell(embed) && IsSqrt(sqrt)
  {
    if IsBlank(corpus) then Answer(NoKnowledgeAnswer)
    else if apiKey.None? || apiKey.value == "" then MissingKey
    else Retrieve(question, Pack(Paragraphs(corpus)), embed, chat, sqrt)
  }

  /** Embedding, ranking and asking, once the chunks are known. */
  function Retrieve(question: string, chunks: seq<string>,
                    embed: seq<string> -> Result<seq<seq<real>>>,
                    chat: (string, string) -> Result<string>,
                    sqrt: real -> real): Response
    requires EmbedsWell(embed) && IsSqrt(sqrt)
  {
    var embedded := embed(chunks + [question]);
    if embedded.Err? then Failure(embedded.error)
    else
      assert WellShaped(chunks + [question], embedded.value);
      var answered := chat(question, Context(chunks, embedded.value, sqrt));
      if answered.Err? then Failure(answered.error) else Answer(answered.value)
  }

  /** The chunk scores against the question, the last of the vectors. */
  function ChunkScores(chunks: seq<string>, vecs: seq<seq<real>>, sqrt: real -> real): (r: seq<real>)
    requires IsSqrt(sqrt) && WellShaped(chunks + [""], vecs)
    ensures |r| == |chunks|
  {
    Scores(vecs[..|chunks|], vecs[|chunks|], sqrt)
  }

  /** `top.join('\n\n---\n\n')`: the five best chunks. */
  function Context(chunks: seq<string>, vecs: seq<seq<real>>, sqrt: real -> real): string
    requires IsSqrt(sqrt) && WellShaped(chunks + [""], vecs)
  {
    Join(TopChunks(chunks, ChunkScores(chunks, vecs, sqrt)), ContextSeparator)
  }

  // ------------------------------------------------------------------
  // What the endpoint promises

  /** A preflight request is answered with the CORS headers alone, whatever
      the knowledge, the key and the services. */
  lemma PreflightIgnoresEverythingElse(event: Event, corpus: string, corpus': string,
                                       apiKey: Option<string>, apiKey': Option<string>,
                                       embed: seq<string> -> Result<seq<seq<real>>>,
                                       chat: (string, string) -> Result<string>,
                                       sqrt: real -> real)
    requires EmbedsWell(embed) && IsSqrt(sqrt) && event.httpMethod == "OPTIONS"
    ensures Respond(event, corpus, apiKey, embed, chat, sqrt) == Preflight
    ensures Respond(event, corpus, apiKey, embed, chat, sqrt) == Respond(event, corpus', apiKey', embed, chat, sqrt)
  {
  }

  /** A body that is not JSON is an error even when there is no knowledge:
      the body is parsed first. */
  lemma MalformedBodyFails(event: Event, corpus: string, apiKey: Option<string>,
                           embed: seq<string> -> Result<seq<seq<real>>>,
                           chat: (string, string) -> Result<string>,
                           sqrt: real -> real)
    requires EmbedsWell(embed) && IsSqrt(sqrt)
    requires event.httpMethod != "OPTIONS" && event.body.Malformed?
    ensures Respond(event, corpus, apiKey, embed, chat, sqrt).statusCode == 500
    ensures Respond(event, corpus, apiKey, embed, chat, sqrt).body == Text(event.body.error)
  {
  }

  /** Without knowledge the endpoint answers a fixed sentence, before it
      looks at the key; with knowledge and a key, it asks the services about
      the chunks of the knowledge and the last user question. */
  lemma RequestRouting(event: Event, corpus: string, apiKey: Option<string>,
                             embed: seq<string> -> Result<seq<seq<real>>>,
                             chat: (string, string) -> Result<string>,
                             sqrt: real -> real)
    requires EmbedsWell(embed) && IsSqrt(sqrt)
    requires event.httpMethod != "OPTIONS" && event.body.Json?
    ensures IsBlank(corpus) ==> Respond(event, corpus, apiKey, embed, chat, sqrt) == Answer(NoKnowledgeAnswer)
    ensures !IsBlank(corpus) && (apiKey.None? || apiKey == Some("")) ==>
              Respond(event, corpus, apiKey, embed, chat, sqrt) == MissingKey
    ensures !IsBlank(corpus) && apiKey.Some? && apiKey.value != "" ==>
              Respond(event, corpus, apiKey, embed, chat, sqrt) ==
              Retrieve(Question(event.body.messages), Pack(Paragraphs(corpus)), embed, chat, sqrt)
  {
  }

  predicate WellFormed(r: Response) {
    && (r.statusCode == 200 <==> !r.body.Text?)
    && (r.statusCode == 200 || r.statusCode == 500)
    && (AllowOrigin in r.headers <==> r != MissingKey)
  }

  lemma RetrieveWellFormed(question: string, chunks: seq<string>,
                           embed: seq<string> -> Result<seq<seq<real>>>,
                           chat: (string, string) -> Result<string>,
                           sqrt: real -> real)
    requires EmbedsWell(embed) && IsSqrt(sqrt)
    ensures WellFormed(Retrieve(question, chunks, embed, chat, sqrt))
    ensures Retrieve(question, chunks, embed, chat, sqrt).headers == [AllowOrigin]
  {
  }

  /** Every response is either a success (200, with an empty body or an
      answer) or a failure (500, with a text), and every response but the
      missing-key one carries the CORS origin header. */
  lemma ResponseShape(event: Event, corpus: string, apiKey: Option<string>,
                      embed: seq<string> -> Result<seq<seq<real>>>,
                      chat: (string, string) -> Result<string>,
                      sqrt: real -> real)
    requires EmbedsWell(embed) && IsSqrt(sqrt)
    ensures WellFormed(Respond(event, corpus, apiKey, embed, chat, sqrt))
  {
    if event.httpMethod != "OPTIONS" && event.body.Json? {
      var question := Question(event.body.messages);
      if !IsBlank(corpus) && !(apiKey.None? || apiKey.value == "") {
        RetrieveWellFormed(question, Pack(Paragraphs(corpus)), embed, chat, sqrt);
      }
    }
  }

  /** The chunks given to the chat service are the five (or fewer) best
      scoring, best first with ties in chunk order, and no chunk left out
      scores higher than a chunk taken. */
  lemma ContextHoldsBestChunks(chunks: seq<string>, scores: seq<real>)
    requires |scores| == |chunks|
    ensures var top := TopIndices(scores, TopK);
      && TopChunks(chunks, scores) == seq(|top|, p requires 0 <= p < |top| => chunks[top[p]])
      && (forall p, q :: 0 <= p < q < |top| ==>
            scores[top[p]] > scores[top[q]] || (scores[top[p]] == scores[top[q]] && top[p] < top[q]))
      && (forall p, k :: 0 <= p < |top| && 0 <= k < |chunks| && k !in top ==> scores[top[p]] >= scores[k])
  {
    TopIndicesAreBest(scores, TopK);
  }

  /** Once the services are reached, the chat service is asked the last user
      question with the best chunks as context, and its answer or its error
      becomes the response. */
  lemma RetrieveAsks(question: string, chunks: seq<string>,
                     embed: seq<string> -> Result<seq<seq<real>>>,
                     chat: (string, string) -> Result<string>,
                     sqrt: real -> real)
    requires EmbedsWell(embed) && IsSqrt(sqrt) && embed(chunks + [question]).Ok?
    ensures var vecs := embed(chunks + [question]).value;
      && WellShaped(chunks + [""], vecs)
      && var context := Join(TopChunks(chunks, ChunkScores(chunks, vecs, sqrt)), ContextSeparator);
      Retrieve(question, chunks, embed, chat, sqrt) ==
        if chat(question, context).Err? then Failure(chat(question, context).error)
        else Answer(chat(question, context).value)
  {
    assert WellShaped(chunks + [question], embed(chunks + [question]).value);
  }

  // ------------------------------------------------------------------
  // The handler

  /** `exports.handler(event)` */
  method Handler(event: Event, corpus: string, apiKey: Option<string>,
                 embed: seq<string> -> Result<seq<seq<real>>>,
                 chat: (string, string) -> Result<string>,
                 sqrt: real -> real) returns (resp: Response)
    requires EmbedsWell(embed) && IsSqrt(sqrt)
    ensures resp == Respond(event, corpus, apiKey, embed, chat, sqrt)
  {
    if event.httpMethod == "OPTIONS" {
      return Preflight;
    }
    if event.body.Malformed? {
      return Failure(event.body.error);
    }
    var question := Question(event.body.messages);
    if IsBlank(corpus) {
      return Answer(NoKnowledgeAnswer);
    }
    if apiKey.None? || apiKey.value == "" {
      return MissingKey;
    }
    var chunks := ChunkMarkdown(corpus);
    resp := AnswerFromChunks(question, chunks, embed, chat, sqrt);
  }

  /** Embeds the chunks and the question together, builds the context and
      asks the chat service. */
  method AnswerFromChunks(question: string, chunks: seq<string>,
                          embed: seq<string> -> Result<seq<seq<real>>>,
                          chat: (string, string) -> Result<string>,
                          sqrt: real -> real) returns (resp: Response)
    requires EmbedsWell(embed) && IsSqrt(sqrt)
    ensures resp == Retrieve(question, chunks, embed, chat, sqrt)
  {
    var embedded := embed(chunks + [question]);
    if embedded.Err? {
      return Failure(embedded.error);
    }
    assert WellShaped(chunks + [question], embedded.value);
    var context := BuildContext(chunks, embedded.value, sqrt);
    var answered := chat(question, context);
    if answered.Err? {
      return Failure(answered.error);
    }
    return Answer(answered.value);
  }

  /** `cVecs.map((vec, i) => ({ i, s: cosineSim(vec, qVec) }))`, into a
      fresh array ready to be sorted in place. */
  method ScoreChunks(cVecs: seq<seq<real>>, qVec: seq<real>, sqrt: real -> real) returns (scored: array<Scored>)
    requires IsSqrt(sqrt) && forall k :: 0 <= k < |cVecs| ==> |cVecs[k]| == |qVec|
    ensures fresh(scored)
    ensures scored[..] == ScoredInOrder(Scores(cVecs, qVec, sqrt))
  {
    ghost var scores := Scores(cVecs, qVec, sqrt);
    scored := new Scored[|cVecs|](k => Scored(0, 0.0));
    for i := 0 to |cVecs|
      invariant forall k :: 0 <= k < i ==> scored[k] == Scored(k, scores[k])
    {
      var s := CosineSim(cVecs[i], qVec, sqrt);
      scored[i] := Scored(i, s);
    }
  }

  /** Scores every chunk against the question (the last vector), sorts the
      scores and joins the five best chunks. */
  method BuildContext(chunks: seq<string>, embeddings: seq<seq<real>>, sqrt: real -> real)
    returns (context: string)
    requires IsSqrt(sqrt) && WellShaped(chunks + [""], embeddings)
    ensures context == Context(chunks, embeddings, sqrt)
  {
    var qVec := embeddings[|embeddings| - 1];
    var cVecs := embeddings[..|embeddings| - 1];
    ghost var scores := ChunkScores(chunks, embeddings, sqrt);
    assert cVecs == embeddings[..|chunks|];
    var scored := ScoreChunks(cVecs, qVec, sqrt);
    context := JoinBest(chunks, scored, scores);
  }

  /** The rest of `buildContext`, whatever the scores: sort the records best
      first, keep the five best and join their chunks. */
  method JoinBest(chunks: seq<string>, scored: array<Scored>, ghost scores: seq<real>) returns (context: string)
    requires |scores| == |chunks| && scored[..] == ScoredInOrder(scores)
    modifies scored
    ensures context == Join(TopChunks(chunks, scores), ContextSeparator)
  {
    SortByScore(scored);
    var ranked := scored[..];
    TopIndicesOfRank(scores, TopK);
    var n := if |ranked| < TopK then |ranked| else TopK;
    var top := seq(n, p requires 0 <= p < n => chunks[ranked[p].index]);
    assert forall p :: 0 <= p < n ==> top[p] == TopChunks(chunks, scores)[p];
    assert top == TopChunks(chunks, scores);
    context := Join(top, ContextSeparator);
  }
}
