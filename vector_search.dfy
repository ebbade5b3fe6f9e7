/**
 * The `serve` handler of supabase/functions/vector-search/index.ts: request
 * intake, the embedding and section-matching failure points, context
 * assembly, the chat completion, and the mapping of thrown errors to HTTP
 * responses. The OpenAI and Supabase clients are parameters (`Services`);
 * every call the handler makes on them is recorded in order.
 */
module VectorSearch {
  import opened Wrappers
  import opened JsText
  import opened ContextBudget

  const MissingQueryMessage: string := "Missing query in request data"
  const EmbeddingFailedMessage: string := "Failed to create embedding for question"
  const MatchFailedMessage: string := "Failed to match page sections"
  const GenericErrorMessage: string := "There was an error processing your request"

  /** An incoming request: its HTTP method (`req.method`) and its `query` search parameter, `None` when absent. */
  datatype Request = Request(httpMethod: string, query: Option<string>)

  /** What `createEmbedding` produced: it threw, or it replied with a status and some embeddings. */
  datatype EmbeddingReply = EmbeddingThrew | EmbeddingReplied(status: int, embeddings: nat)

  /** What the `match_page_sections` RPC produced: an error, or the matched sections' contents in store order. */
  datatype MatchReply = MatchFailed(detail: string) | Matched(sections: seq<string>)

  /** What the chat completion produced: it threw, or it replied with the contents of its choices. */
  datatype CompletionReply = CompletionThrew | Completed(choices: seq<string>)

  /**
   * The external collaborators. The match RPC is keyed by the text that was
   * embedded, since the embedding vector is a function of it; `prompt` stands
   * for the `codeBlock` template over the context text and the sanitized query.
   */
  datatype Services = Services(
    tokenLen: string -> nat,
    embed: string -> EmbeddingReply,
    matchSections: string -> MatchReply,
    prompt: (string, string) -> string,
    complete: (string, string) -> CompletionReply)

  /** One external call, with what was sent. */
  datatype Call =
    | Embedding(input: string)
    | MatchPageSections(embedded: string)
    | ChatCompletion(system: string, user: string)

  /** The diagnostic payload an `ApplicationError` carries (logged, never sent). */
  datatype ErrorData = EmbeddingStatus(status: int) | MatchErrorDetail(detail: string)

  /** What the `try` block can throw. */
  datatype HandlerError =
    | UserError(message: string, data: Option<string>)
    | ApplicationError(message: string, diagnostic: ErrorData)
    | UnexpectedError

  datatype Body = Text(text: string) | ErrorJson(error: string, data: Option<string>)

  /** An HTTP response; `cors` records that the CORS headers are attached. */
  datatype Response = Response(status: int, body: Body, cors: bool)

  /** The response together with every external call made, in order. */
  datatype Exchange = Exchange(response: Response, calls: seq<Call>)

  /** The outcome of the `try` block before the `catch` maps a thrown error. */
  datatype Attempt = Attempt(result: Result<Response, HandlerError>, calls: seq<Call>)

  /** The validated request: a CORS preflight, or a query with its sanitized and embedding forms. */
  datatype Intake = Preflight | Question(query: string, sanitized: string, embeddingInput: string)

  const PreflightResponse: Response := Response(200, Text("ok"), true)

  /** What every error other than a `UserError` becomes. */
  const ServerErrorResponse: Response := Response(500, ErrorJson(GenericErrorMessage, None), true)

  /** Intake and sanitisation (index.ts:34-48). */
  function ReadRequest(req: Request): (r: Result<Intake, HandlerError>)
    ensures r == Ok(Preflight) <==> req.httpMethod == "OPTIONS"
    ensures r.Err? <==> req.httpMethod != "OPTIONS" && req.query in {None, Some("")}
    ensures r.Err? ==> r.error == UserError(MissingQueryMessage, None)
    ensures r.Ok? && r.value.Question? ==>
      && req.query == Some(r.value.query)
      && r.value.sanitized == Trim(r.value.query)
      && r.value.embeddingInput == ReplaceAll(r.value.sanitized, '\n', ' ')
      && '\n' !in r.value.embeddingInput
  {
    if req.httpMethod == "OPTIONS" then Ok(Preflight)
    else match req.query
      case None => Err(UserError(MissingQueryMessage, None))
      case Some(q) =>
        if q == "" then Err(UserError(MissingQueryMessage, None))
        else
          var sanitized := Trim(q);
          Ok(Question(q, sanitized, ReplaceAll(sanitized, '\n', ' ')))
  }

  /** The `catch` block (index.ts:119-148). */
  function ErrorResponse(e: HandlerError): (r: Response)
    ensures r.cors
    ensures r.status == 400 <==> e.UserError?
    ensures r.status == 500 <==> !e.UserError?
    ensures e.UserError? ==> r.body == ErrorJson(e.message, e.data)
    ensures !e.UserError? ==> r.body == ErrorJson(GenericErrorMessage, None)
  {
    match e
    case UserError(message, data) => Response(400, ErrorJson(message, data), true)
    case _ => Response(500, ErrorJson(GenericErrorMessage, None), true)
  }

  /** Errors thrown after intake are never user errors, and a success is a 200 with CORS headers. */
  predicate AfterIntake(a: Attempt) {
    match a.result
    case Ok(response) => response.status == 200 && response.cors
    case Err(e) => !e.UserError?
  }

  /** The calls and outcome from the matched sections onwards (index.ts:74-118). */
  function Answer(q: Intake, sections: seq<string>, svc: Services, calls: seq<Call>): (a: Attempt)
    requires q.Question?
    ensures AfterIntake(a)
    ensures var system := svc.prompt(ContextOf(sections, svc.tokenLen), q.sanitized);
      a.calls == calls + [ChatCompletion(system, q.query)]
    ensures var reply := svc.complete(svc.prompt(ContextOf(sections, svc.tokenLen), q.sanitized), q.query);
      && (a.result.Ok? <==> reply.Completed? && reply.choices != [])
      && (a.result.Ok? ==> a.result.value == Response(200, Text(reply.choices[0]), true))
      && (a.result.Err? ==> a.result.error == UnexpectedError)
  {
    var system := svc.prompt(ContextOf(sections, svc.tokenLen), q.sanitized);
    var calls := calls + [ChatCompletion(system, q.query)];
    match svc.complete(system, q.query)
    case CompletionThrew => Attempt(Err(UnexpectedError), calls)
    case Completed(choices) =>
      if choices == [] then Attempt(Err(UnexpectedError), calls)
      else Attempt(Ok(Response(200, Text(choices[0]), true)), calls)
  }

  /** The section match and what follows it (index.ts:60-118). */
  function MatchAndAnswer(q: Intake, svc: Services, calls: seq<Call>): (a: Attempt)
    requires q.Question?
    ensures AfterIntake(a)
    ensures |a.calls| > |calls| && a.calls[..|calls|] == calls
    ensures a.calls[|calls|] == MatchPageSections(q.embeddingInput)
    ensures svc.matchSections(q.embeddingInput).MatchFailed? ==>
      var detail := svc.matchSections(q.embeddingInput).detail;
      a == Attempt(Err(ApplicationError(MatchFailedMessage, MatchErrorDetail(detail))), calls + [MatchPageSections(q.embeddingInput)])
  {
    var calls' := calls + [MatchPageSections(q.embeddingInput)];
    match svc.matchSections(q.embeddingInput)
    case MatchFailed(detail) =>
      Attempt(Err(ApplicationError(MatchFailedMessage, MatchErrorDetail(detail))), calls')
    case Matched(sections) =>
      var a := Answer(q, sections, svc, calls');
      assert a.calls[..|calls|] == a.calls[..|calls'|][..|calls|];
      assert a.calls[|calls|] == a.calls[..|calls'|][|calls|];
      a
  }

  /** The embedding call and what follows it (index.ts:46-118). */
  function EmbedAndAnswer(q: Intake, svc: Services): (a: Attempt)
    requires q.Question?
    ensures AfterIntake(a)
    ensures a.calls != [] && a.calls[0] == Embedding(q.embeddingInput)
    ensures var reply := svc.embed(q.embeddingInput);
      reply.EmbeddingReplied? && reply.status != 200 ==>
        a == Attempt(Err(ApplicationError(EmbeddingFailedMessage, EmbeddingStatus(reply.status))), [Embedding(q.embeddingInput)])
    ensures var reply := svc.embed(q.embeddingInput);
      reply == EmbeddingThrew || reply == EmbeddingReplied(200, 0) ==>
        a == Attempt(Err(UnexpectedError), [Embedding(q.embeddingInput)])
  {
    var calls := [Embedding(q.embeddingInput)];
    match svc.embed(q.embeddingInput)
    case EmbeddingThrew => Attempt(Err(UnexpectedError), calls)
    case EmbeddingReplied(status, embeddings) =>
      if status != 200 then
        Attempt(Err(ApplicationError(EmbeddingFailedMessage, EmbeddingStatus(status))), calls)
      else if embeddings == 0 then
        Attempt(Err(UnexpectedError), calls)
      else
        var a := MatchAndAnswer(q, svc, calls);
        assert a.calls[0] == a.calls[..1][0];
        a
  }

  /** The `try` block (index.ts:32-118). */
  function Try(req: Request, svc: Services): (a: Attempt)
    ensures a.result.Ok? ==> a.result.value.status == 200 && a.result.value.cors
    ensures a.result.Err? && a.result.error.UserError? <==> ReadRequest(req).Err?
    ensures a.calls == [] <==> ReadRequest(req).Err? || ReadRequest(req) == Ok(Preflight)
    ensures a.calls != [] ==> a.calls[0] == Embedding(ReadRequest(req).value.embeddingInput)
  {
    match ReadRequest(req)
    case Err(e) => Attempt(Err(e), [])
    case Ok(Preflight) => Attempt(Ok(PreflightResponse), [])
    case Ok(q) => EmbedAndAnswer(q, svc)
  }

  /** The whole handler: the `try` block, with a thrown error mapped by the `catch` block. */
  function Handle(req: Request, svc: Services): (x: Exchange)
    ensures x.response.cors
    ensures x.response.status in {200, 400, 500}
    ensures x.response.status == 400 <==> ReadRequest(req).Err?
    ensures x.response.status == 400 ==> x.calls == []
    ensures x.response.status == 500 ==> x.calls != [] && x.response.body == ErrorJson(GenericErrorMessage, None)
  {
    var attempt := Try(req, svc);
    match attempt.result
    case Ok(response) => Exchange(response, attempt.calls)
    case Err(e) => Exchange(ErrorResponse(e), attempt.calls)
  }

  /** A preflight request is answered "ok" with CORS headers, whatever its query, without any external call. */
  lemma PreflightMakesNoCalls(req: Request, svc: Services)
    requires req.httpMethod == "OPTIONS"
    ensures Handle(req, svc) == Exchange(PreflightResponse, [])
  {
  }

  /** A missing or empty query is a 400 carrying the user-facing message, raised before any external call. */
  lemma MissingQueryRejected(req: Request, svc: Services)
    requires req.httpMethod != "OPTIONS" && req.query in {None, Some("")}
    ensures Handle(req, svc) == Exchange(Response(400, ErrorJson(MissingQueryMessage, None), true), [])
  {
  }

  /** The first external call is the embedding of the trimmed query with newlines turned into spaces. */
  lemma EmbeddingInputSanitized(req: Request, svc: Services)
    requires Handle(req, svc).calls != []
    ensures req.query.Some?
    ensures Handle(req, svc).calls[0] == Embedding(ReplaceAll(Trim(req.query.value), '\n', ' '))
    ensures '\n' !in Handle(req, svc).calls[0].input
  {
  }

  /**
   * The emptiness check comes before the trim, so a query of only whitespace
   * is not rejected: the empty string is sent for embedding.
   */
  lemma WhitespaceQueryIsEmbedded(req: Request, svc: Services)
    requires req.httpMethod != "OPTIONS" && req.query.Some?
    requires req.query.value != "" && AllWhitespace(req.query.value)
    ensures Handle(req, svc).response.status != 400
    ensures Handle(req, svc).calls[0] == Embedding("")
  {
    TrimEmptyIff(req.query.value);
  }

  /** A non-200 embedding status is a generic 500 that leaks nothing of the provider's reply; nothing else is called. */
  lemma EmbeddingFailureIsServerError(req: Request, svc: Services, q: Intake)
    requires ReadRequest(req) == Ok(q) && q.Question?
    requires svc.embed(q.embeddingInput).EmbeddingReplied? && svc.embed(q.embeddingInput).status != 200
    ensures Handle(req, svc) == Exchange(ServerErrorResponse, [Embedding(q.embeddingInput)])
  {
  }

  /** A match-RPC error is a generic 500 after exactly the embedding and the match calls. */
  lemma MatchFailureIsServerError(req: Request, svc: Services, q: Intake)
    requires ReadRequest(req) == Ok(q) && q.Question?
    requires svc.embed(q.embeddingInput).EmbeddingReplied?
    requires svc.embed(q.embeddingInput).status == 200 && svc.embed(q.embeddingInput).embeddings > 0
    requires svc.matchSections(q.embeddingInput).MatchFailed?
    ensures Handle(req, svc) == Exchange(ServerErrorResponse, [Embedding(q.embeddingInput), MatchPageSections(q.embeddingInput)])
  {
  }

  /**
   * When the embedding and the match succeed, the completion is asked once,
   * with the prompt built from the budgeted context and the sanitized query,
   * and with the raw query as the user message; its first choice is the answer.
   */
  lemma CompletionSeesBudgetedContext(req: Request, svc: Services, q: Intake, sections: seq<string>)
    requires ReadRequest(req) == Ok(q) && q.Question?
    requires svc.embed(q.embeddingInput).EmbeddingReplied?
    requires svc.embed(q.embeddingInput).status == 200 && svc.embed(q.embeddingInput).embeddings > 0
    requires svc.matchSections(q.embeddingInput) == Matched(sections)
    ensures var system := svc.prompt(ContextOf(sections, svc.tokenLen), q.sanitized);
      && Handle(req, svc).calls == [Embedding(q.embeddingInput), MatchPageSections(q.embeddingInput), ChatCompletion(system, q.query)]
      && (Handle(req, svc).response.status == 200 <==> svc.complete(system, q.query).Completed? && svc.complete(system, q.query).choices != [])
      && (svc.complete(system, q.query).Completed? && svc.complete(system, q.query).choices != [] ==>
            Handle(req, svc).response == Response(200, Text(svc.complete(system, q.query).choices[0]), true))
  {
    // The try block reaches the completion step with the embedding and match calls made.
    assert Try(req, svc) == Answer(q, sections, svc, [Embedding(q.embeddingInput), MatchPageSections(q.embeddingInput)]);
  }

  /**
   * The handler as it runs: each step in turn, returning at the first
   * thrown error, with the context built by the token-budget loop.
   */
  method Serve(req: Request, svc: Services) returns (x: Exchange)
    ensures x == Handle(req, svc)
  {
    var intake := ReadRequest(req);
    if intake.Err? {
      return Exchange(ErrorResponse(intake.error), []);
    }
    var q := intake.value;
    if q.Preflight? {
      return Exchange(PreflightResponse, []);
    }
    var calls := [Embedding(q.embeddingInput)];
    var embedding := svc.embed(q.embeddingInput);
    if embedding.EmbeddingThrew? {
      return Exchange(ErrorResponse(UnexpectedError), calls);
    }
    if embedding.status != 200 {
      var e := ApplicationError(EmbeddingFailedMessage, EmbeddingStatus(embedding.status));
      return Exchange(ErrorResponse(e), calls);
    }
    if embedding.embeddings == 0 {
      return Exchange(ErrorResponse(UnexpectedError), calls);
    }
    calls := calls + [MatchPageSections(q.embeddingInput)];
    var matched := svc.matchSections(q.embeddingInput);
    if matched.MatchFailed? {
      var e := ApplicationError(MatchFailedMessage, MatchErrorDetail(matched.detail));
      return Exchange(ErrorResponse(e), calls);
    }
    var contextText := AssembleContext(matched.sections, svc.tokenLen);
    var system := svc.prompt(contextText, q.sanitized);
    calls := calls + [ChatCompletion(system, q.query)];
    var completion := svc.complete(system, q.query);
    if completion.CompletionThrew? || completion.choices == [] {
      return Exchange(ErrorResponse(UnexpectedError), calls);
    }
    return Exchange(Response(200, Text(completion.choices[0]), true), calls);
  }
}
