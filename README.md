# Hybrid retrieval for a travel chat assistant, modelled in Dafny

The system answers a travel question by retrieving travel snippets and asking
a language model for an itinerary grounded in them. This project models the
two files that carry the logic:

- `src/utils/mongodb.ts`.
  - `hybridSearch` runs one MongoDB aggregation pipeline. A vector-similarity
    branch (`$vectorSearch`, limit 20) is unioned with a full-text branch
    (`$search` on the part of the question after "Other specifications:",
    score divided by 10, limit 20).
  - The union is grouped by `_id`: the first record's `combined_data` becomes
    the description, and each branch score is the maximum over the group.
    Missing scores become 0.
  - Each group is scored `fts_score * 0.5 + vs_score * 0.5`. The groups are
    sorted by score, highest first, and cut to 20.
  - `getEmbeddingsTransformer` creates the embeddings client once and hands
    out the same instance afterwards.
- `src/app/api/chat/route.ts`.
  - `POST` reads the chat messages and takes the last one's content as the
    question.
  - `retrieveContext` embeds the question, runs the hybrid search, and records
    the result in the module-level variables `results` and
    `hybridSearchQuery`. It joins the descriptions with ", " to form the
    context.
  - `POST` then fills the prompt template with the context, the question and
    the newline-joined history, and streams the model's answer.
  - Errors map to 400 and 500 responses.
  - `GET` reports the two variables as JSON.

The project has four modules.

- `Wrappers` (`wrappers.dfy`): the `Option` type.
- `Strings` (`strings.dfy`): the JavaScript string operations the code relies
  on. These are `indexOf`, `split` on a non-empty separator, `join` and
  `trim`, with ECMAScript's white-space set.
- `Fusion` (`fusion.dfy`): the pipeline.
  - Each stage is a function over the hits the two search stages return, and
    the hits are inputs.
  - `hybridSearch` is a method: it drains the cursor with a loop and returns
    `SearchResult` of its inputs.
  - The embeddings singleton is a class with a nullable field.
- `Chat` (`chat.dfy`): the route.
  - The history, context and prompt are functions.
  - `POST`'s answer is the function `PostResponse`.
  - The module-level variables are the fields of the class `ChatRoute`, whose
    methods `RetrieveContext`, `Post` and `Get` update and report them.
  - The embeddings service, the store and the language model are parameters:
    `Services` and `Store`.

MongoDB does not fix the order of `$group`'s output or of equal scores after
`$sort`. The model therefore has two parts:

- `Fuse` computes one permitted outcome: groups in order of first appearance,
  then a stable sort.
- `IsRanking` states what every permitted outcome satisfies. `FuseIsRanking`
  proves that `Fuse` is one.

Two consequences of the code deserve a note.

- For an id both branches found, `$first` (mongodb.ts:116-118) takes the
  vector hit's `combined_data`: the vector records come first in the union.
  The text branch's `$project` (mongodb.ts:104-109) drops `combined_data`, so
  an id that only the text branch found has no description. `$group` reads
  `combined_data`, not the `description` field the vector branch also
  projects (mongodb.ts:76-77).
  - `DescriptionOfGroup` proves this for every input.
  - Take one vector hit (id 1, description "Paris", score 0.9) and one text
    hit (id 1, text "Paris City", score 8.0). `FuseExample` and
    `FusedExampleContext` show that they fuse into one document whose context is
    the vector document's `combined_data`. That context is "Paris" when that
    field holds "Paris", and "" when the document has none.
- `join` writes a missing description as the empty string. So the context
  can be empty, or hold empty entries, even when documents were found.

## Model

| member | source | states |
|---|---|---|
| `Strings.Trim` | src/utils/mongodb.ts:54 | the result is the part of the input strictly between its leading and trailing white space; it is empty exactly when the input is all white space |
| `Strings.IndexOf` | src/utils/mongodb.ts:54 | a found position is an occurrence with none before it; `None` means the pattern occurs nowhere |
| `Strings.Split` | src/utils/mongodb.ts:54 | at least one piece, no piece contains the separator, and joining the pieces with the separator gives the input back; there is one piece exactly when the separator does not occur, and otherwise the first piece ends at its first occurrence |
| `Strings.SplitJoin` | src/app/api/chat/route.ts:39-42 | splitting the join of parts on a one-character separator that no part contains gives the parts back |
| `Strings.JoinAppend` | src/app/api/chat/route.ts:22 | `Join` models `Array.prototype.join` (also route.ts:42); joining one more part appends the separator and the part |
| `Fusion.LexicalQueryCases` | src/utils/mongodb.ts:54 | `LexicalQuery` models this line, and the lemma states it in full: the lexical query is the trimmed text between the first marker and the next marker or the end; it is the whole query when there is no marker or that text is only white space |
| `Fusion.LexicalQueryExample` | src/utils/mongodb.ts:54 | "plan a trip. Other specifications: quiet beaches" is searched for "quiet beaches"; a query without the marker is searched as it is |
| `Fusion.Take` | src/utils/mongodb.ts:171 | `$limit`: the first `n` elements, or all of them when there are fewer |
| `Fusion.UnionShape` | src/utils/mongodb.ts:57-112 | `UnionRecords`, `VectorRecords`/`TextRecords` and `FromVectorHit`/`FromTextHit` model the two branches and `$unionWith`: at most 20 vector records come first, each from the vector hit at the same position, followed by one text record for each of the first min(n, 20) text hits, in order |
| `Fusion.GroupKeys` | src/utils/mongodb.ts:114-115 | the group keys are distinct and are exactly the union's ids, one per id |
| `Fusion.FirstIndex` | src/utils/mongodb.ts:116-118 | the position of the first record with the key, with none before it, or `None` when no record has it |
| `Fusion.MaxScore` | src/utils/mongodb.ts:119-124 | `$max` is missing exactly when no record of the group has the field; otherwise it is one of the group's values and none is larger |
| `Fusion.SortByScore` | src/utils/mongodb.ts:166-169 | the result is a permutation of the input, sorted by score from highest to lowest |
| `Fusion.SortTakeIsTop` | src/utils/mongodb.ts:166-172 | sorting and keeping 20 gives min(n, 20) documents with distinct keys, all from the input and sorted, and no document left out scores above one kept |
| `Fusion.FuseIsRanking` | src/utils/mongodb.ts:114-172 | `Fuse` and `FuseRecords` model the stages from `$group` to `$limit`, with `Grouped` and `GroupOf` for the groups: the output has one document per key up to 20, sorted by score, each equal to its key's group, and no key left out outscores a kept one |
| `Fusion.RankingKeepsEveryKey` | src/utils/mongodb.ts:114-172 | with no more than 20 keys, every id of the union appears in the output |
| `Fusion.VectorMax` | src/utils/mongodb.ts:119-121 | the group's `vs_score` maximum is missing exactly when no kept vector hit has the id; otherwise it is the largest score among those hits |
| `Fusion.VectorScoreOfGroup` | src/utils/mongodb.ts:119-138 | `vs_score` is the largest score among the kept vector hits with the id, or 0 when there is none, and `doc_id` is the id |
| `Fusion.TextMax` | src/utils/mongodb.ts:92-124 | the group's `fts_score` maximum is missing exactly when no kept text hit has the id; otherwise it is the largest `searchScore / 10` among those hits |
| `Fusion.TextScoreOfGroup` | src/utils/mongodb.ts:92-143 | `fts_score` is the largest `searchScore / 10` among the kept text hits with the id, or 0 when there is none |
| `Fusion.DescriptionOfGroup` | src/utils/mongodb.ts:104-118 | the description is the `combined_data` of the first kept vector hit with the id, and missing when only the text branch found the id |
| `Fusion.ScoreIsMean` | src/utils/mongodb.ts:149-160 | `FusedScore` models this `$project`, and `GroupOf` applies it: the code weights `fts_score` by `vectorWeight` and `vs_score` by `fullTextWeight`; both weights are 0.5, so the score equals the intended weighting (`vs_score * vectorWeight + fts_score * fullTextWeight`) and is the mean of the two scores |
| `Fusion.ScoresNonNegative` | src/utils/mongodb.ts:130-161 | with non-negative branch scores, both scores and the fused score are non-negative |
| `Fusion.FuseExample` | src/utils/mongodb.ts:114-172 | a vector hit (id 1, description "Paris", `combined_data` c, score 0.9) and a text hit (id 1, text "Paris City", score 8.0) give one document scored 0.85, with branch scores 0.9 and 0.8 and description c; the text is never used |
| `Fusion.SearchResultFacts` | src/utils/mongodb.ts:50-183 | `SearchResult` models the whole call, and `BuildPipeline` the pipeline it returns: a search that resolves had both branches answer, returns the pipeline built from the query vector and the lexical query, and its documents are a ranking of the branches' hits |
| `Fusion.HybridSearch` | src/utils/mongodb.ts:175-183 | collects the cursor in order and returns `SearchResult`; it fails exactly when one of the branches fails; the pipeline carries the query vector and the lexical query |
| `Fusion.EmbeddingsHolder.constructor` | src/utils/mongodb.ts:8 | the holder starts without an instance |
| `Fusion.EmbeddingsHolder.GetEmbeddingsTransformer` | src/utils/mongodb.ts:18-28 | creates an instance with the configured model name on the first call and returns the stored instance on every later call |
| `Fusion.EmbeddingsCreatedOnce` | src/utils/mongodb.ts:18-28 | two calls return the same fresh instance |
| `Chat.HistoryLineShape` | src/app/api/chat/route.ts:39-41 | a line starts with "User: " exactly when the role is "user", with "Assistant: " otherwise, and ends with the content; its length is the label's, plus two for ": ", plus the content's, so nothing else is in it |
| `Chat.HistorySplits` | src/app/api/chat/route.ts:39-42 | `ChatHistory` models these lines: when no content holds a newline, splitting the history on newlines gives one line per message, in order |
| `Chat.HistoryAppend` | src/app/api/chat/route.ts:39-42 | a further message appends a newline and its line to the history |
| `Chat.ContextShape` | src/app/api/chat/route.ts:22 | `Context` models this line: no documents give "", one gives its description, and each further one appends ", " and its description |
| `Chat.ContextExamples` | src/app/api/chat/route.ts:22 | descriptions "A" and "B" give "A, B" |
| `Chat.FusedExampleContext` | src/app/api/chat/route.ts:21-22 | in the fused example of `FuseExample`, the context is the vector document's `combined_data` c, or "" when it is missing: "Paris" when it holds "Paris", although the text hit reads "Paris City" |
| `Chat.PromptParts` | src/app/api/chat/route.ts:65-71 | `BuildPrompt` models the template literal: the prompt starts with "Instructions : " and holds the instructions, context, question and history at the offsets their labels leave, in that order, ending with the closing text |
| `Chat.Question` | src/app/api/chat/route.ts:37-38 | there is a question exactly when there is a message, and it is the last message's content |
| `Chat.PostSearchIsHybridSearch` | src/app/api/chat/route.ts:17-25 | `Retrieve` models the embedding and the search, and `PostSearch` the search a POST runs: a completed search means the body had messages and the last content was embedded; the search is the hybrid search of that content with its embedding |
| `Chat.PostOutcomes` | src/app/api/chat/route.ts:27-93 | `PostResponse` models the response, with `PostPrompt` for the prompt it sends: a non-JSON body rejects; 400 exactly for a falsy body; every other failure is 500; with a question and a search the model is asked with the prompt from the search's context, the last content and the full history |
| `Chat.ChatRoute.constructor` | src/app/api/chat/route.ts:5-6 | both module-level variables start as `[]` and no embeddings instance exists |
| `Chat.ChatRoute.RetrieveContext` | src/app/api/chat/route.ts:17-25 | returns the descriptions joined by ", " and overwrites both variables only when the search completes; the embeddings instance then exists; it is the stored one if one already existed, and a new one otherwise |
| `Chat.ChatRoute.Post` | src/app/api/chat/route.ts:27-93 | answers as `PostResponse`; keeps the completed search, even when the model then fails; creates the embeddings instance only once a question exists and keeps an existing one |
| `Chat.ChatRoute.Answer` | src/app/api/chat/route.ts:38-87 | after a question is found: 500 when retrieval fails, otherwise the prompt is streamed or 500, with the variables updated by the completed search; the embeddings instance exists afterwards, and an existing one is kept |
| `Chat.ChatRoute.Get` | src/app/api/chat/route.ts:95-100 | status 200 with both variables as they are |
| `Chat.LastSearchReported` | src/app/api/chat/route.ts:5-6 | `GET` reports `[]` before any search and the last completed search afterwards; a later failed search leaves it in place |
| `Chat.EmbeddingsBuiltOnce` | src/utils/mongodb.ts:20-25 | after a POST that found a question, a second POST leaves the same embeddings instance in place; it is new exactly when none existed before |

## Left out

- I/O and runtime setup are not modelled. This covers `client.connect`/`client.close`, `console.log`, `dotenv` and the environment variables, `vectorStore` and `searchArgs` (not called by the core), and the Bedrock configuration. The model name for embeddings is a constructor parameter.
- The store's `$vectorSearch` and `$search` are inputs (`Store`). `Pipeline` keeps the parts that depend on the call and the numeric constants (`numCandidates`, the limits, the divisor, the weights). Index names, paths, the `travel` collection and the stage layout are not recorded, so `GET`'s `hybridSearchQuery` is this summary, not the pipeline array.
- The embeddings service's `embedQuery` and the language model's `streamText` are inputs (`Services`). What the model streams, the data-stream framing, and errors raised during the stream are not modelled.
- `FireworksEmbeddings` is an opaque object holding its model name. A failing constructor is not modelled.
- Numbers are exact reals: floating-point rounding in scores and in the division by 10 is not modelled.
- `$group` output order and the order of equal scores are not fixed by MongoDB. `Fuse` fixes one order, and `IsRanking` covers every order.
- Concurrency is not modelled. Requests run one at a time, so the interleaving of concurrent `POST`s writing the module-level variables is out of scope.
- `GET`'s 500 branch is not modelled: `JSON.stringify` of these values cannot throw in the model. `GET`'s JSON is the pair of variables, not its serialised text.
- The system prompt and the closing sentences of the prompt template are constructor parameters of `ChatRoute`. They are fixed wording, not logic.
- Request bodies are limited to three shapes: not JSON, falsy, or truthy with a `messages` field that is missing, null or a list of `{role, content}` string pairs. A `messages` value of another shape, and non-string contents, are not modelled.
- `HybridSearch` does not restate `IsRanking`: it returns `SearchResult`, and `SearchResultFacts` proves the ranking for every resolved search.
- JavaScript strings are sequences of UTF-16 code units; the model's strings are sequences of Unicode characters. Lengths and `PromptParts` offsets count characters, which differs from code units outside the Basic Multilingual Plane.
- The 400 response ("Prompt is required") is reached only by a body that parses to a falsy JSON value (`null`, `false`, `0`, `""`). An absent or empty body makes `req.json()` reject before that check and outside the `try`, so the model treats it as `NotJson` (`Rejected`), not as a 400.
- The rejected promise of a non-JSON body is the framework's response (`Rejected`), with no status.
