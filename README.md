# vector-search edge function: a Dafny model

This project models the decision logic of the `vector-search` edge function
(`supabase/functions/vector-search/index.ts`). The function answers a question
passed as the `query` search parameter:

1. It answers a CORS preflight (`OPTIONS`) with `"ok"`.
2. It rejects a missing or empty query with a `UserError`.
3. It trims the query and asks OpenAI to embed it, with every newline
   replaced by a space.
4. It asks the Supabase RPC `match_page_sections` for the page sections
   most similar to that embedding.
5. It builds a context text from those sections under a budget of 1500
   GPT-3 tokens.
6. It asks the chat completion to answer from that context.
7. It maps every thrown error to a 400 or 500 JSON response.

The project has four modules:

- `Wrappers` (`wrappers.dfy`): `Option` (JavaScript `null`) and `Result`
  (a value, or the error a step threw).
- `JsText` (`js_text.dfy`): JavaScript's `trim` over the ECMAScript
  whitespace and line-terminator characters, and `replaceAll` with a
  one-character pattern. Trim is specified by its decomposition. The input is
  whitespace, then a trimmed middle, then whitespace. `TrimSplits` proves such
  a decomposition exists and `TrimUnique` proves the middle is unique.
- `ContextBudget` (`context_budget.dfy`): the token-budget loop.
  - `TokenSum` is the token count of a run of sections, measured on the
    untrimmed content.
  - `Joined` concatenates each section's trimmed content followed by
    `"\n---\n"`.
  - `AcceptedCount` is the number of sections taken.
  - `ContextOf` is `Joined` over the first `AcceptedCount` sections.
  - `IsBudgetPrefix` is the independent statement of the prefix law: the
    longest prefix whose running count stays below 1500.
  - `AssembleContext` is the source's `for` loop with its early `break`,
    proved equal to `ContextOf`.
- `VectorSearch` (`vector_search.dfy`): the handler.
  - The OpenAI and Supabase clients, the tokenizer and the prompt template
    are the function-valued fields of a `Services` value.
  - Each external call is recorded in order in the `calls` of an `Exchange`.
    This is how "no external call" can be stated.
  - `ReadRequest` is the intake, `Try` the `try` block, `ErrorResponse` the
    `catch` block and `Handle` the composition of the three.
  - `Serve` is the same handler written step by step with early returns. It
    calls the `AssembleContext` loop and is proved equal to `Handle`.

Some behaviours of the code are easy to miss; the model follows them:

- A query made only of whitespace is not rejected. `!query` is checked before
  the trim, so such a query is embedded as `""` (`WhitespaceQueryIsEmbedded`).
- An empty match result gives the context `""`, and the prompt is built from
  it all the same.
- The budget test is `tokenCount >= 1500`. A section is accepted only while
  the running count stays strictly below 1500.
- The budget is measured on the untrimmed content, but the trimmed content is
  what gets appended.
- The completion's user message is the raw query, not the trimmed one
  (index.ts:107). `CompletionSeesBudgetedContext` states this.

## Model

| member | source | states |
|---|---|---|
| `JsText.TrimStart` | supabase/functions/vector-search/index.ts:44 | the result is a suffix of the input, everything dropped is whitespace, and the result does not start with whitespace |
| `JsText.TrimEnd` | supabase/functions/vector-search/index.ts:44 | the result is a prefix of the input, everything dropped is whitespace, and the result does not end with whitespace |
| `JsText.Trim` | supabase/functions/vector-search/index.ts:44 | `trim()` returns a string that neither starts nor ends with whitespace and is no longer than its input |
| `JsText.TrimSplits` | supabase/functions/vector-search/index.ts:44 | every string is its trim with a whitespace run before it and one after it |
| `JsText.TrimUnique` | supabase/functions/vector-search/index.ts:44 | any split into whitespace, a trimmed middle and whitespace has `trim()` as its middle |
| `JsText.TrimIdempotent` | supabase/functions/vector-search/index.ts:44 | a fact about `trim()`: trimming a trimmed string changes nothing |
| `JsText.TrimEmptyIff` | supabase/functions/vector-search/index.ts:40-44 | a string trims to `""` exactly when it is all whitespace |
| `JsText.ReplaceAll` | supabase/functions/vector-search/index.ts:48 | `replaceAll("\n", " ")` keeps the length, replaces exactly the newline characters, leaves every other character, and leaves no newline |
| `ContextBudget.Accepted` | supabase/functions/vector-search/index.ts:78-85 | the loop never accepts more sections than the store returned |
| `ContextBudget.TokenSumAppend` | supabase/functions/vector-search/index.ts:81 | the running token count of two runs of sections is the sum of their counts |
| `ContextBudget.JoinedAppend` | supabase/functions/vector-search/index.ts:87 | the context text of two runs of sections is their texts concatenated in order |
| `ContextBudget.AcceptedFits` | supabase/functions/vector-search/index.ts:78-88 | with `used` tokens already counted, the accepted sections keep the count below 1500, and the next section, if any, brings it to 1500 or more |
| `ContextBudget.BudgetPrefixUnique` | supabase/functions/vector-search/index.ts:83-85 | at most one prefix length satisfies the prefix law |
| `ContextBudget.AcceptedCountIsBudgetPrefix` | supabase/functions/vector-search/index.ts:78-88 | prefix law, both directions: a prefix length is the longest one whose cumulative token count stays below 1500 exactly when it is the number of sections accepted |
| `ContextBudget.ContextWithinBudget` | supabase/functions/vector-search/index.ts:75-88 | budget invariant: the sections whose text is appended total fewer than 1500 tokens |
| `ContextBudget.AcceptedSectionAt` | supabase/functions/vector-search/index.ts:78-88 | every accepted section appears whole, trimmed, followed by the separator, right after the sections before it, so order is the store's and nothing is truncated |
| `ContextBudget.SectionsAfterCutIgnored` | supabase/functions/vector-search/index.ts:83-85 | the section that reaches the budget and every section after it are excluded entirely, so appending more sections after it gives the same context |
| `ContextBudget.ContextGrowsWithMatches` | supabase/functions/vector-search/index.ts:78-88 | more sections from the store can only extend the context, never change what it already holds |
| `ContextBudget.AssembleContext` | supabase/functions/vector-search/index.ts:74-88 | the loop produces the trimmed sections with separators over exactly the longest prefix within budget, that prefix totals fewer than 1500 tokens, and zero sections give `""` |
| `VectorSearch.ReadRequest` | supabase/functions/vector-search/index.ts:34-48 | it is a preflight exactly for `OPTIONS`; it fails exactly for a missing or empty query of a non-`OPTIONS` request, with `UserError("Missing query in request data")`; otherwise the sanitized query is the trimmed query and the embedding input is that with newlines replaced by spaces and contains no newline |
| `VectorSearch.ErrorResponse` | supabase/functions/vector-search/index.ts:119-148 | total error mapping: a `UserError` becomes 400 with its message and data; every other error becomes 500 with the fixed generic message and no data; CORS headers always attached |
| `VectorSearch.Answer` | supabase/functions/vector-search/index.ts:106-118 | exactly one call is appended, the chat completion with the prompt built from the budgeted context and the sanitized query as system message and the raw query as user message; the result is a 200 with CORS headers whose body is the first choice exactly when the completion returned a choice, and otherwise an unexpected error |
| `VectorSearch.MatchAndAnswer` | supabase/functions/vector-search/index.ts:60-72 | the match call is appended right after the calls made so far; a match error raises `ApplicationError("Failed to match page sections", detail)` with no further call; no error is a `UserError`, and a success is a 200 with CORS headers |
| `VectorSearch.EmbedAndAnswer` | supabase/functions/vector-search/index.ts:46-58 | the first call is the embedding of the sanitized input; a non-200 status raises `ApplicationError("Failed to create embedding for question", status)` with no further call; a thrown call or a reply without embeddings is an unexpected error; no error is a `UserError`, and a success is a 200 with CORS headers |
| `VectorSearch.Try` | supabase/functions/vector-search/index.ts:32-118 | a successful try block ends in a 200 with CORS headers; it throws a `UserError` exactly when intake rejects the request; no external call is made exactly when the request is a preflight or is rejected at intake; otherwise the first call is the embedding of the sanitized input |
| `VectorSearch.Handle` | supabase/functions/vector-search/index.ts:31-150 | every response has CORS headers and status 200, 400 or 500; it is 400 exactly when intake rejected the request, and then no external call was made; a 500 comes only after some external call and carries only the generic message |
| `VectorSearch.PreflightMakesNoCalls` | supabase/functions/vector-search/index.ts:34-36 | an `OPTIONS` request returns `"ok"` with CORS headers, whatever its query and whatever the services do, and makes no external call |
| `VectorSearch.MissingQueryRejected` | supabase/functions/vector-search/index.ts:38-42 | a missing or empty query gives a 400 with `{error: "Missing query in request data"}` and makes no external call |
| `VectorSearch.EmbeddingInputSanitized` | supabase/functions/vector-search/index.ts:44-49 | whenever an external call is made, the first is the embedding of `trim(query)` with every newline replaced by a space, and that text holds no newline |
| `VectorSearch.WhitespaceQueryIsEmbedded` | supabase/functions/vector-search/index.ts:40-48 | a non-empty query made only of whitespace is not rejected; the empty string is embedded |
| `VectorSearch.EmbeddingFailureIsServerError` | supabase/functions/vector-search/index.ts:51-56 | a non-200 embedding status gives the generic 500 with no provider data, and nothing but the embedding was called |
| `VectorSearch.MatchFailureIsServerError` | supabase/functions/vector-search/index.ts:60-72 | a match-RPC error gives the generic 500 with no store data, after exactly the embedding and the match calls |
| `VectorSearch.CompletionSeesBudgetedContext` | supabase/functions/vector-search/index.ts:74-118 | after a successful embedding and match, the calls are exactly embedding, match, and one completion whose system prompt is built from the budgeted context and the sanitized query and whose user message is the raw query; the response is 200 exactly when the completion returned a choice, and then its body is the first choice |
| `VectorSearch.Serve` | supabase/functions/vector-search/index.ts:31-150 | the step-by-step handler, with the imperative context loop, gives exactly the response and call sequence of `Handle` |

## Left out

- The HTTP server loop (`serve`) and the `Request` and `Response` objects are not modelled. A request is its method and its `query` parameter. A response is a status, a body and a flag saying the CORS headers are attached.
- The literal CORS header values are left out. So is the `Content-Type: text/plain` header of the success response, and the JSON content type `Response.json` adds.
- The OpenAI embedding and chat-completion clients and the Supabase client are network calls. Their results are values returned by the function-valued fields of `Services`.
- The embedding vector is floating point and is not modelled. The match RPC is keyed by the text that was embedded. The similarity threshold, match count and minimum content length (0.78, 10, 50) are applied by the store and are not modelled.
- The GPT-3 tokenizer is not modelled. `tokenizer.encode(content).text.length` is the parameter `tokenLen`.
- The prompt text built with `codeBlock` and `oneLine` (index.ts:90-104) is not modelled. It is the opaque parameter `prompt` applied to the context text and the sanitized query.
- Environment loading (`ensureGetEnv`) and `console.error` logging are not modelled. The diagnostic data of an `ApplicationError` is kept in the error value but never reaches a response.
- `supabase/functions/_utils/errors.ts` is not part of this model. `UserError` and `ApplicationError` are constructors carrying the message and data that index.ts gives them.
- Any exception other than the two thrown explicitly is the single kind `UnexpectedError`. This covers a thrown client call, an embedding reply with an empty `data` array (index.ts:58) and a completion with no choice (index.ts:113).
- A `null` message content from the completion is not modelled; a choice is a string.
- The embedding reply's status is whatever the client returns. The model does not say which statuses the OpenAI client turns into exceptions instead.
- Fallback to the whole corpus, conversation history, persistence of turns, time-outs and retries are not in this code and are not modelled.
