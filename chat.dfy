/** The chat route of src/app/api/chat/route.ts: `retrieveContext`, `POST`
    and `GET`, and the two module-level variables that `POST` fills in and
    `GET` reports. The embeddings service, the store and the language model
    are parameters; what each of them answers is an input. */
module Chat {
  import opened Wrappers
  import opened Strings
  import opened Fusion

  /** A chat message as the client sends it. */
  datatype Message = Message(role: string, content: string)

  /** What `await req.json()` gives: a body that is not JSON (the call
      throws), a falsy JSON value, or a truthy one, whose `messages` field
      may be missing (`undefined`) or `null`. */
  datatype RequestBody = NotJson | Falsy | Truthy(messages: Option<seq<Message>>)

  /** What the route answers: a plain-text response with a status, the
      data stream of the language model's answer to a prompt, the JSON
      report of `GET`, or a rejected promise (the framework's error). */
  datatype Response =
    | Text(status: nat, body: string)
    | Stream(prompt: string)
    | Json(status: nat, results: Slot<SearchOutput>, hybridSearchQuery: Slot<Pipeline>)
    | Rejected

  /** A module-level variable that starts as `[]` and is later overwritten
      with one value. */
  datatype Slot<T> = Initial | Stored(value: T)

  /** The outside services the route calls: the embeddings service (given the
      model name and the text; `None` when `embedQuery` throws), the store,
      and the language model (`false` when `streamText` throws). */
  datatype Services = Services(embed: (string, string) -> Option<Vector>,
                               store: Store,
                               stream: string -> bool)

  const PromptRequired: string := "Prompt is required"
  const GenerationError: string := "Error generating text"

  // ---------------------------------------------------------------------
  // The chat history

  /** `'User'` for the role `'user'`, `'Assistant'` for every other role. */
  function RoleLabel(role: string): string {
    if role == "user" then "User" else "Assistant"
  }

  /** One line of the history: the role's label, a colon and the content. */
  function HistoryLine(m: Message): string {
    RoleLabel(m.role) + ": " + m.content
  }

  function HistoryLines(messages: seq<Message>): (lines: seq<string>)
    ensures |lines| == |messages|
    ensures forall i :: 0 <= i < |messages| ==> lines[i] == HistoryLine(messages[i])
  {
    seq(|messages|, i requires 0 <= i < |messages| => HistoryLine(messages[i]))
  }

  /** The messages' lines, joined by newlines. */
  function ChatHistory(messages: seq<Message>): string {
    Join(HistoryLines(messages), "\n")
  }

  /** A line starts with "User: " exactly when the message is the user's;
      otherwise it starts with "Assistant: ". Either way it ends with the
      content, and nothing else sits between the label and the content. */
  lemma HistoryLineShape(m: Message)
    ensures var line := HistoryLine(m);
      && (m.role == "user" <==> |line| >= 6 && line[..6] == "User: ")
      && (m.role != "user" ==> |line| >= 11 && line[..11] == "Assistant: ")
      && |line| >= |m.content| && line[|line| - |m.content|..] == m.content
      && |line| == |RoleLabel(m.role)| + 2 + |m.content|
  {
    var line := HistoryLine(m);
    if m.role != "user" {
      assert line[0] == 'A';
    }
    assert line == RoleLabel(m.role) + ": " + m.content;
  }

  /** When no content holds a newline, splitting the history on newlines
      gives back one line per message, in order. */
  lemma HistorySplits(messages: seq<Message>)
    requires |messages| > 0
    requires forall i :: 0 <= i < |messages| ==> '\n' !in messages[i].content
    ensures var lines := Split(ChatHistory(messages), "\n");
      && |lines| == |messages|
      && forall i :: 0 <= i < |messages| ==> lines[i] == HistoryLine(messages[i])
  {
    var lines := HistoryLines(messages);
    forall k | 0 <= k < |lines| ensures '\n' !in lines[k] {
      LineHasNoNewline(messages[k]);
    }
    SplitJoin(lines, '\n');
  }

  lemma LineHasNoNewline(m: Message)
    requires '\n' !in m.content
    ensures '\n' !in HistoryLine(m)
  {
    var tag := RoleLabel(m.role);
    assert '\n' !in tag;
    assert HistoryLine(m) == tag + ": " + m.content;
  }

  /** A new message adds a newline and its line to the end of the history. */
  lemma HistoryAppend(messages: seq<Message>, m: Message)
    requires |messages| > 0
    ensures ChatHistory(messages + [m]) == ChatHistory(messages) + "\n" + HistoryLine(m)
  {
    assert HistoryLines(messages + [m]) == HistoryLines(messages) + [HistoryLine(m)];
    JoinAppend(HistoryLines(messages), HistoryLine(m), "\n");
  }

  // ---------------------------------------------------------------------
  // The context

  /** How `join` writes a description: a missing one is the empty string. */
  function DescriptionText(d: FusedDoc): string {
    d.description.GetOr("")
  }

  function Descriptions(docs: seq<FusedDoc>): (texts: seq<string>)
    ensures |texts| == |docs|
    ensures forall i :: 0 <= i < |docs| ==> texts[i] == DescriptionText(docs[i])
  {
    seq(|docs|, i requires 0 <= i < |docs| => DescriptionText(docs[i]))
  }

  /** The documents' descriptions, in ranking order, separated by ", ". */
  function Context(docs: seq<FusedDoc>): string {
    Join(Descriptions(docs), ", ")
  }

  /** No documents give an empty context; one document gives its
      description; each further document adds ", " and its description. */
  lemma ContextShape(docs: seq<FusedDoc>, d: FusedDoc)
    ensures Context([]) == ""
    ensures Context([d]) == DescriptionText(d)
    ensures docs != [] ==> Context(docs + [d]) == Context(docs) + ", " + DescriptionText(d)
  {
    assert Descriptions([d]) == [DescriptionText(d)];
    if docs != [] {
      assert Descriptions(docs + [d]) == Descriptions(docs) + [DescriptionText(d)];
      JoinAppend(Descriptions(docs), DescriptionText(d), ", ");
    }
  }

  /** In the fused example of `FuseExample` the context is the vector
      document's `combined_data` `c`, or "" when it has none, although the
      vector hit is described "Paris" and the text hit reads "Paris City". */
  lemma FusedExampleContext(c: Option<string>)
    ensures Context(Fuse([VectorHit(1, Some("Paris"), c, 0.9)],
                         [TextHit(1, Some("Paris City"), None, Some("Paris City"), 8.0)])) == c.GetOr("")
  {
    FuseExample(c);
    ContextShape([], FusedDoc(1, c, 0.85, 0.9, 0.8));
  }

  /** Two documents described "A" and "B" give "A, B". */
  lemma ContextExamples()
    ensures Context([FusedDoc(1, Some("A"), 0.5, 0.5, 0.5), FusedDoc(2, Some("B"), 0.4, 0.4, 0.4)]) == "A, B"
  {
    var a, b := FusedDoc(1, Some("A"), 0.5, 0.5, 0.5), FusedDoc(2, Some("B"), 0.4, 0.4, 0.4);
    ContextShape([a], b);
  }

  // ---------------------------------------------------------------------
  // The prompt

  const InstructionsLabel: string := "Instructions : "
  const ContextLabel: string := "        \n\nContext: "
  const QueryLabel: string := "        \n\nUser Query: "
  const HistoryLabel: string := "        \n\nChat History: "

  /** The template literal of `fullPrompt`. Each line of it ends in a
      backslash, which joins it to the next line together with that line's
      indentation of eight spaces. */
  function BuildPrompt(instructions: string, context: string, question: string,
                       history: string, closing: string): string {
    InstructionsLabel + instructions + " " + ContextLabel + context + QueryLabel + question
      + HistoryLabel + history + " " + closing
  }

  /** Where each part lands in the prompt. */
  function QuestionOffset(instructions: string, context: string): nat {
    |InstructionsLabel| + |instructions| + 1 + |ContextLabel| + |context| + |QueryLabel|
  }

  /** The prompt starts with the instructions, then holds the context, the
      question and the history, in that order, at the positions their
      labels leave, and ends with the closing text. */
  lemma PromptParts(instructions: string, context: string, question: string,
                    history: string, closing: string)
    ensures var p := BuildPrompt(instructions, context, question, history, closing);
      var a := |InstructionsLabel|;
      var b := a + |instructions| + 1 + |ContextLabel|;
      var c := QuestionOffset(instructions, context);
      var d := c + |question| + |HistoryLabel|;
      && p[..a] == InstructionsLabel
      && OccursAt(p, instructions, a)
      && OccursAt(p, context, b)
      && OccursAt(p, question, c)
      && OccursAt(p, history, d)
      && |p| == d + |history| + 1 + |closing|
      && p[|p| - |closing|..] == closing
  {
    var p := BuildPrompt(instructions, context, question, history, closing);
    var p1 := InstructionsLabel + instructions;
    var p2 := p1 + " " + ContextLabel + context;
    var p3 := p2 + QueryLabel + question;
    var p4 := p3 + HistoryLabel + history;
    EndsWith(InstructionsLabel, instructions);
    EndsWith(p1 + " " + ContextLabel, context);
    EndsWith(p2 + QueryLabel, question);
    EndsWith(p3 + HistoryLabel, history);
    EndsWith(p4 + " ", closing);
    PrefixOccurs(p, p4, history, |p3 + HistoryLabel|);
    PrefixOccurs(p, p3, question, |p2 + QueryLabel|);
    PrefixOccurs(p, p2, context, |p1 + " " + ContextLabel|);
    PrefixOccurs(p, p1, instructions, |InstructionsLabel|);
    assert p[..|InstructionsLabel|] == p1[..|InstructionsLabel|];
  }

  /** `x + y` starts with `x` and ends with `y`. */
  lemma EndsWith(x: string, y: string)
    ensures (x + y)[..|x|] == x && (x + y)[|x|..] == y
  {
  }

  /** An occurrence in a prefix of `p` is one in `p`. */
  lemma PrefixOccurs(p: string, q: string, x: string, i: nat)
    requires |q| <= |p| && p[..|q|] == q
    requires i + |x| == |q| && q[i..] == x
    ensures OccursAt(p, x, i) && p[..i] == q[..i]
  {
    assert p[i..i + |x|] == q[i..];
  }

  // ---------------------------------------------------------------------
  // `POST`, as a function of the request and the services

  /** `body.messages ?? []`. */
  function MessagesOf(messages: Option<seq<Message>>): seq<Message> {
    messages.GetOr([])
  }

  /** `messages[messages.length - 1].content`, or `None` when there is no
      message and reading `content` of `undefined` throws. */
  function Question(messages: seq<Message>): (q: Option<string>)
    ensures q.None? <==> messages == []
    ensures q.Some? ==> q.value == messages[|messages| - 1].content
  {
    if messages == [] then None else Some(messages[|messages| - 1].content)
  }

  /** `retrieveContext`: the question's embedding, then the hybrid search
      with that vector and the question; `None` when either throws. */
  function Retrieve(modelName: string, question: string, services: Services): Option<SearchOutput> {
    match services.embed(modelName, question)
    case None => None
    case Some(v) => SearchResult(v, question, services.store)
  }

  /** The search a `POST` runs to completion, if any: the last message's
      content is embedded and searched for. */
  function PostSearch(body: RequestBody, modelName: string, services: Services): Option<SearchOutput> {
    if body.Truthy? then
      match Question(MessagesOf(body.messages))
      case None => None
      case Some(q) => Retrieve(modelName, q, services)
    else
      None
  }

  /** A completed search is the hybrid search of the last message's
      content under that content's embedding, so what `SearchResultFacts`
      proves of it holds: a ranking of the branches' hits, searched with
      the lexical query of the content. */
  lemma PostSearchIsHybridSearch(body: RequestBody, modelName: string, services: Services)
    requires PostSearch(body, modelName, services).Some?
    ensures body.Truthy? && MessagesOf(body.messages) != []
    ensures var ms := MessagesOf(body.messages);
      var q := ms[|ms| - 1].content;
      && services.embed(modelName, q).Some?
      && PostSearch(body, modelName, services)
           == SearchResult(services.embed(modelName, q).value, q, services.store)
  {
  }

  /** The response of `POST`, given the body, the outcome of the search
      (`None` when the embedding or the search throws) and whether the
      language model starts. */
  function PostResponse(body: RequestBody, instructions: string, closing: string,
                        search: Option<SearchOutput>, stream: string -> bool): Response {
    match body
    case NotJson => Rejected
    case Falsy => Text(400, PromptRequired)
    case Truthy(messages) =>
      var ms := MessagesOf(messages);
      if ms == [] then Text(500, GenerationError)
      else match search
        case None => Text(500, GenerationError)
        case Some(out) =>
          var prompt := PostPrompt(instructions, closing, ms, out);
          if stream(prompt) then Stream(prompt) else Text(500, GenerationError)
  }

  /** The prompt of a `POST`: the search's context, the last message's
      content as the question, and the history of all the messages. */
  function PostPrompt(instructions: string, closing: string, ms: seq<Message>, out: SearchOutput): string
    requires ms != []
  {
    BuildPrompt(instructions, Context(out.documents), ms[|ms| - 1].content, ChatHistory(ms), closing)
  }

  /** A body that is not JSON rejects the call; a falsy body is answered
      400; from then on every failure (no message, the embedding or the
      search, starting the model) is answered 500; otherwise the model's
      answer is streamed, for the prompt built from the search's context,
      the last message's content and the whole history. */
  lemma PostOutcomes(body: RequestBody, instructions: string, closing: string,
                     search: Option<SearchOutput>, stream: string -> bool)
    ensures var r := PostResponse(body, instructions, closing, search, stream);
      && (r.Rejected? <==> body.NotJson?)
      && (r == Text(400, PromptRequired) <==> body.Falsy?)
      && (r.Text? && r.status != 400 ==> r == Text(500, GenerationError))
      && (body.Truthy? && MessagesOf(body.messages) == [] ==> r == Text(500, GenerationError))
      && (body.Truthy? && search.None? ==> r == Text(500, GenerationError))
      && (body.Truthy? && MessagesOf(body.messages) != [] && search.Some? ==>
            var p := PostPrompt(instructions, closing, MessagesOf(body.messages), search.value);
            r == if stream(p) then Stream(p) else Text(500, GenerationError))
  {
  }

  // ---------------------------------------------------------------------
  // The route and its module-level state

  class ChatRoute {
    /** The module-level `results` (`[documents, pipeline]` of the last
        search) and `hybridSearchQuery` (its pipeline). */
    var results: Slot<SearchOutput>
    var hybridSearchQuery: Slot<Pipeline>
    const embeddings: EmbeddingsHolder
    /** The system prompt and the closing text of the prompt template. */
    const instructions: string
    const closing: string

    /** The two variables are both `[]`, or both come from the same search. */
    ghost predicate Valid()
      reads this, embeddings
    {
      && embeddings.Valid()
      && (results.Initial? <==> hybridSearchQuery.Initial?)
      && (results.Stored? ==> hybridSearchQuery.value == results.value.pipeline)
    }

    constructor (embedModelName: string, instructions: string, closing: string)
      ensures Valid() && fresh(embeddings)
      ensures results == Initial && hybridSearchQuery == Initial
      ensures embeddings.embedModelName == embedModelName && embeddings.embeddingsInstance == null
      ensures this.instructions == instructions && this.closing == closing
    {
      results := Initial;
      hybridSearchQuery := Initial;
      embeddings := new EmbeddingsHolder(embedModelName);
      this.instructions := instructions;
      this.closing := closing;
    }

    /** `retrieveContext`: gets the embeddings client (creating it on first
        use), embeds the query and runs the hybrid search. The variables are
        overwritten only when the search completes. */
    method RetrieveContext(query: string, services: Services) returns (context: Option<string>)
      requires Valid()
      modifies this, embeddings
      ensures Valid()
      ensures embeddings.embeddingsInstance != null
      ensures old(embeddings.embeddingsInstance) != null ==>
                embeddings.embeddingsInstance == old(embeddings.embeddingsInstance)
      ensures old(embeddings.embeddingsInstance) == null ==> fresh(embeddings.embeddingsInstance)
      ensures var out := Retrieve(embeddings.embedModelName, query, services);
        && context == (if out.Some? then Some(Context(out.value.documents)) else None)
        && results == (if out.Some? then Stored(out.value) else old(results))
        && hybridSearchQuery == (if out.Some? then Stored(out.value.pipeline) else old(hybridSearchQuery))
    {
      var e := embeddings.GetEmbeddingsTransformer();
      var queryVector := services.embed(e.modelName, query);
      context := None;
      if queryVector.Some? {
        var r := HybridSearch(queryVector.value, query, services.store);
        if r.Some? {
          results := Stored(r.value);
          context := Some(Context(r.value.documents));
          hybridSearchQuery := Stored(r.value.pipeline);
        }
      }
    }

    /** `POST`: answers as `PostResponse` says and keeps the search it
        completed, if any. The embeddings client is created only once a
        question has been found. */
    method Post(body: RequestBody, services: Services) returns (resp: Response)
      requires Valid()
      modifies this, embeddings
      ensures Valid()
      ensures resp == PostResponse(body, instructions, closing,
                                   PostSearch(body, embeddings.embedModelName, services), services.stream)
      ensures var out := PostSearch(body, embeddings.embedModelName, services);
        && results == (if out.Some? then Stored(out.value) else old(results))
        && hybridSearchQuery == (if out.Some? then Stored(out.value.pipeline) else old(hybridSearchQuery))
      ensures body.Truthy? && MessagesOf(body.messages) != [] ==> embeddings.embeddingsInstance != null
      ensures old(embeddings.embeddingsInstance) != null ==>
                embeddings.embeddingsInstance == old(embeddings.embeddingsInstance)
      ensures old(embeddings.embeddingsInstance) == null && embeddings.embeddingsInstance != null ==>
                fresh(embeddings.embeddingsInstance)
      ensures !(body.Truthy? && MessagesOf(body.messages) != []) ==>
                embeddings.embeddingsInstance == old(embeddings.embeddingsInstance)
    {
      match body
      case NotJson =>
        resp := Rejected;
      case Falsy =>
        resp := Text(400, PromptRequired);
      case Truthy(messages) =>
        var ms := MessagesOf(messages);
        if ms == [] {
          resp := Text(500, GenerationError);
        } else {
          resp := Answer(ms, services);
        }
    }

    /** The part of `POST` after a question was found. */
    method Answer(ms: seq<Message>, services: Services) returns (resp: Response)
      requires Valid() && ms != []
      modifies this, embeddings
      ensures Valid()
      ensures var out := Retrieve(embeddings.embedModelName, ms[|ms| - 1].content, services);
        && resp == PostResponse(Truthy(Some(ms)), instructions, closing, out, services.stream)
        && results == (if out.Some? then Stored(out.value) else old(results))
        && hybridSearchQuery == (if out.Some? then Stored(out.value.pipeline) else old(hybridSearchQuery))
      ensures embeddings.embeddingsInstance != null
      ensures old(embeddings.embeddingsInstance) != null ==>
                embeddings.embeddingsInstance == old(embeddings.embeddingsInstance)
      ensures old(embeddings.embeddingsInstance) == null ==> fresh(embeddings.embeddingsInstance)
    {
      var question := ms[|ms| - 1].content;
      var chatHistory := ChatHistory(ms);
      ghost var search := Retrieve(embeddings.embedModelName, question, services);
      var context := RetrieveContext(question, services);
      if context.None? {
        resp := Text(500, GenerationError);
      } else {
        var prompt := BuildPrompt(instructions, context.value, question, chatHistory, closing);
        assert prompt == PostPrompt(instructions, closing, ms, search.value);
        resp := if services.stream(prompt) then Stream(prompt) else Text(500, GenerationError);
      }
    }

    /** `GET`: reports both variables as they are. */
    method Get() returns (resp: Response)
      ensures resp.Json? && resp.status == 200
      ensures resp.results == results && resp.hybridSearchQuery == hybridSearchQuery
    {
      resp := Json(200, results, hybridSearchQuery);
    }
  }

  /** A `GET` reports the last search that completed, and nothing before
      the first `POST` that completed one: two posts in a row, where only
      the first search completes, leave that first search in place. */
  method LastSearchReported(route: ChatRoute, first: RequestBody, second: RequestBody, services: Services)
    returns (before: Response, after: Response)
    requires route.Valid() && route.results == Initial
    requires PostSearch(first, route.embeddings.embedModelName, services).Some?
    requires PostSearch(second, route.embeddings.embedModelName, services).None?
    modifies route, route.embeddings
    ensures before == Json(200, Initial, Initial)
    ensures var out := PostSearch(first, route.embeddings.embedModelName, services).value;
      after == Json(200, Stored(out), Stored(out.pipeline))
  {
    before := route.Get();
    var _ := route.Post(first, services);
    var _ := route.Post(second, services);
    after := route.Get();
  }

  /** The embeddings client is built once: after a `POST` that found a
      question, later `POST`s use the same instance, and it is a new one
      exactly when none existed before. */
  method EmbeddingsBuiltOnce(route: ChatRoute, first: RequestBody, second: RequestBody, services: Services)
    returns (client: FireworksEmbeddings)
    requires route.Valid()
    requires first.Truthy? && MessagesOf(first.messages) != []
    modifies route, route.embeddings
    ensures route.embeddings.embeddingsInstance == client
    ensures old(route.embeddings.embeddingsInstance) != null ==> client == old(route.embeddings.embeddingsInstance)
    ensures old(route.embeddings.embeddingsInstance) == null ==> fresh(client)
  {
    var _ := route.Post(first, services);
    client := route.embeddings.embeddingsInstance;
    var _ := route.Post(second, services);
  }
}
