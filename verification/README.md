# Multi-model RAG orchestrator, modelled in Dafny

This project models the decision logic of a retrieval-augmented generation
gateway. The gateway has four parts:

- a per-provider **circuit breaker** (`Breaker/index.ts`);
- a **multi-model router** (`Router/Router.ts`). It chooses a chat
  provider under one of four strategies (failover, round-robin, weighted,
  smart), retries across the eligible providers with a growing backoff, and
  dispatches embedding calls;
- an **in-memory vector store** (`Database/InMemory.ts`). It upserts chunks
  by id, drops vectors of the wrong dimension, and answers top-k
  dot-product searches;
- the **RAG pipeline** (`Pipeline/index.ts`). It retrieves context, builds a
  two-message prompt, hands it to the router and attaches references.

Files and modules:

| file | module | contents |
|---|---|---|
| `wrappers.dfy` | `Wrappers` | `Option`, `Result` |
| `seqs.dfy` | `Seqs` | `Filter`, `SubsequenceOf`, `slice(0, k)` |
| `interface.dfy` | `Interface` | the records exchanged (configs, options, chunks) |
| `breaker.dfy` | `Breaker` | breaker transitions on values, and the `CircuitBreaker` class |
| `router_selection.dfy` | `RouterSelection` | config lookup and defaults, eligibility, the four strategies |
| `router.dfy` | `Router` | the `MultiModelRouter` class: `pick`, `generate`, `embed` |
| `vector_store.dfy` | `VectorStore` | ranking on values, and the `InMemoryVectorStore` class |
| `pipeline.dfy` | `Pipeline` | prompt construction, and the `RAGPipeline` class |

Inputs the code reads from outside become parameters:

- **Clock.** `Date.now()` is an explicit `now: int`.
- **Provider replies.** What the providers answer is a script. `replies[k]`
  is the reply to the k-th invocation of a call; past its end every
  invocation throws.
- **Random draws.** `Math.random()` is a script `draws`; the k-th pick of a
  call uses entry k. Past the end of the script, or for an entry outside
  [0, 1), the draw is 0.
- **Ids and square roots.** `crypto.randomUUID()` is a function `newId` of
  the item's position, and `Math.sqrt` is a function `sqrt`. Both are
  arguments of `Upsert`.
- **Embedder.** The embedder is a function given to the store's constructor.

Breakers are objects updated in place. The router keeps one per provider id,
plus a ghost map `breakers` of their states. Its contracts describe the
effect of a call as `AfterAttempts(old(breakers), calls, now)`: one
`recordSuccess`/`recordFailure` per invocation, in order, on the invoked
provider's breaker only.

## Model

| member | source | states |
|---|---|---|
| Breaker.Passes | Breaker/index.ts:6 | `canPass` on a state: traffic passes exactly when `now > openUntil`, so once the cooldown has elapsed, with no reset call (a definition; no contract) |
| Breaker.AfterSuccess | Breaker/index.ts:7 | a success zeroes the counter, leaves both timestamps alone, and lets traffic through at exactly the same times as before, so it does not close a circuit that is cooling down |
| Breaker.AfterFailure | Breaker/index.ts:8-12 | a failure adds exactly one to the counter and stamps `now`; below the threshold `openUntil` is unchanged, at or above it `openUntil` becomes `now + coolDownMs` (again on every further failure) and nothing passes up to that time |
| Breaker.FailuresCount | Breaker/index.ts:9 | a run of failures raises the counter by exactly its length |
| Breaker.ConsecutiveFailuresOpen | Breaker/index.ts:8-12 | after consecutive failures reaching the threshold, the last at `t`, the circuit is open until `t + coolDownMs` and refuses every `now <= t + coolDownMs` |
| Breaker.OpenUntilNeverDecreases | Breaker/index.ts:7-12 | under a clock that does not run backwards, no sequence of successes and failures moves `openUntil` earlier, and it stays within one cooldown of the last failure |
| Breaker.CircuitBreaker.constructor | Breaker/index.ts:2-5 | counters start at 0, defaults 3 failures and 30000 ms, and the breaker passes at every positive time |
| Breaker.CircuitBreaker.CanPass | Breaker/index.ts:6 | the object answers exactly as `Passes` does on its current state |
| Breaker.CircuitBreaker.RecordSuccess | Breaker/index.ts:7 | the counter becomes 0; `lastFailureAt` and `openUntil` are unchanged |
| Breaker.CircuitBreaker.RecordFailure | Breaker/index.ts:8-12 | counter + 1, `lastFailureAt = now`, and `openUntil = now + coolDownMs` exactly when the threshold is reached |
| RouterSelection.FindConfig | Router/Router.ts:45 | a config found for an id is in the table and carries that id |
| RouterSelection.FindConfigFirst | Router/Router.ts:45 | the lookup finds nothing exactly when no entry has the id, and otherwise returns the first entry that has it |
| RouterSelection.Weight | Router/Router.ts:61 | `weight` of the provider's first config, 1 when absent (a definition; `ConfigDefaults` states the defaults) |
| RouterSelection.LatencySLA | Router/Router.ts:69-70 | `latencySLAms` of the provider's first config, 2000 when absent (a definition; `ConfigDefaults` states the defaults) |
| RouterSelection.Enabled | Router/Router.ts:45-46 | `enabled` of the provider's first config, true when absent (a definition; `ConfigDefaults` states when it is false) |
| RouterSelection.ConfigDefaults | Router/Router.ts:45-46 | without a config, weight 1, SLA 2000 and enabled apply; a provider is disabled exactly when its first config says `enabled: false` |
| RouterSelection.Eligible | Router/Router.ts:42-49 | in registration order, exactly the providers that are not excluded, not disabled, and whose breaker passes |
| RouterSelection.ChatCandidates | Router/Router.ts:51 | exactly the eligible providers that implement `generate`, in registration order |
| RouterSelection.ChatCandidatesFilter | Router/Router.ts:51 | the candidate list is the eligible list filtered by `hasGenerate` |
| RouterSelection.EmbedCandidates | Router/Router.ts:128 | exactly the eligible providers (nothing excluded) that implement `embed`, in registration order |
| RouterSelection.SmartIndex | Router/Router.ts:66-74 | the stable sort's first element: every earlier entry sorts strictly after it, and no later entry sorts strictly before it |
| RouterSelection.SmartPick | Router/Router.ts:66-75 | the smart choice is one of the candidates; `SmartPickIsBest` states which |
| RouterSelection.SmartPickIsBest | Router/Router.ts:66-75 | the smart choice has the lowest latency SLA, and the highest weight among the providers with that SLA |
| RouterSelection.SmartPicksOllama | Provider/index.ts:27-38 | under the deployed config table, smart selection returns `ollama` (SLA 25 ms) whenever it is a candidate |
| RouterSelection.Copies | Router/Router.ts:61-62 | a provider gets `max(1, weight)` copies in the weighted pool |
| RouterSelection.WeightedPool | Router/Router.ts:60-63 | the pool holds exactly the providers of the list, and is at least as long |
| RouterSelection.WeightedPoolCount | Router/Router.ts:60-63 | each provider occurs in the pool `max(1, weight)` times for every time it occurs in the list |
| RouterSelection.DrawIndex | Router/Router.ts:64 | the index drawn for a value in [0, 1) is a valid index of the pool |
| RouterSelection.DrawIndexIsFloor | Router/Router.ts:64 | the index drawn is `Math.floor(random * n)` |
| RouterSelection.Cycle | Router/Router.ts:58 | the round-robin position is a valid index of the list |
| RouterSelection.CycleIsMod | Router/Router.ts:58 | the round-robin position is `rrIdx % length` |
| RouterSelection.Choose | Router/Router.ts:54-76 | the choice is in the list, and failover takes the first entry |
| RouterSelection.ChooseRoundRobin | Router/Router.ts:57-58 | round-robin takes the entry at `rrIdx % length` |
| Router.HasGenerate | Router/Router.ts:15-17 | a provider is present and implements `generate` (a definition; no contract) |
| Router.HasEmbed | Router/Router.ts:18-20 | a provider is present and implements `embed` (a definition; no contract) |
| Router.Pinned | Router/Router.ts:80 | a provider id is pinned when given and not the empty string (a definition; no contract) |
| Router.DrawAt | Router/Router.ts:64 | every draw used lies in [0, 1), and is the script's entry whenever that entry is in range |
| Router.PickLogSnoc | Router/Router.ts:99-102 | the log of strategy picks grows by one attempt on the provider the strategy picks after the attempts already made |
| Router.PickedAfter | Router/Router.ts:100 | the pick from the breaker states, tried ids, cursor and draw the loop has reached after some attempts is the strategy's pick after those attempts |
| Router.PickLogFailover | Router/Router.ts:55-56 | under failover, every loop attempt goes to the first chat candidate left at that point |
| Router.PickLogRoundRobin | Router/Router.ts:57-58 | under round-robin, the i-th loop attempt goes to the candidate at `(cursor + i) % length` of the candidates left at that point |
| Router.SentOptions | Router/Router.ts:89 | every chat invocation receives the caller's options with `maxTokens` defaulted to 512 and nothing else changed |
| Router.Backoff | Router/Router.ts:109 | every backoff is at least 100 ms |
| Router.BackoffSchedule | Router/Router.ts:109 | one backoff per failed attempt, the i-th being `100 + 200 i`, each strictly longer than the one before |
| Router.AfterAttemptsElsewhere | Router/Router.ts:90-93 | recording outcomes leaves the breaker of every provider not invoked unchanged |
| Router.AfterAttemptsOnce | Router/Router.ts:103-108 | when no provider is invoked twice, each invoked provider's breaker has seen exactly one success or one failure |
| Router.MultiModelRouter.constructor | Router/Router.ts:26-34 | one fresh breaker per provider id, all in the initial state; strategy defaults to smart, cursor 0 |
| Router.MultiModelRouter.SetStrategy | Router/Router.ts:35-37 | the strategy becomes `s` |
| Router.MultiModelRouter.GetProvider | Router/Router.ts:38-40 | a provider found is registered and has the id |
| Router.MultiModelRouter.FindFirst | Router/Router.ts:39 | nothing is found exactly when no provider has the id, and otherwise the first provider with it |
| Router.MultiModelRouter.RecordOutcome | Router/Router.ts:105-108 | `recordSuccess` or `recordFailure` on the invoked provider's breaker, every other breaker unchanged |
| Router.MultiModelRouter.Pick | Router/Router.ts:50-77 | none exactly when no eligible chat provider is left; otherwise an eligible, chat-capable, not excluded provider chosen by the strategy; the cursor advances by one only for round-robin with a non-empty list |
| Router.MultiModelRouter.FallbackPick | Router/Router.ts:100-101 | the loop's pick is an eligible chat provider not yet tried, none exactly when no candidate is left; it is the strategy's pick after the attempts already made, so (for every outcome of its invocation) it extends the log of strategy picks; the cursor advances only for round-robin |
| Router.MultiModelRouter.FallbackStep | Router/Router.ts:100-111 | one round of the loop: no candidate leaves everything unchanged; otherwise the strategy's pick is invoked with the next scripted reply, its outcome recorded, the loop state (or the final log) updated, and the log of strategy picks extended by this attempt |
| Router.MultiModelRouter.Fallback | Router/Router.ts:99-113 | at most one attempt per provider, each on the provider the strategy picks among the eligible chat providers not yet tried (breaker states, tried ids, round-robin cursor and random draw of that round), all but the last failed, one growing backoff per failure; the result is the last reply, or "no available providers" once none is eligible, or "all providers failed" after one attempt per provider, with the ids tried; the cursor advances once per round-robin attempt |
| Router.MultiModelRouter.PinnedStep | Router/Router.ts:80-98 | an unknown or non-chat pinned id fails with nothing invoked; an open pinned breaker fails a strict call and is skipped otherwise; a passing pinned provider is invoked once, its answer returned, its failure rethrown when strict |
| Router.MultiModelRouter.Generate | Router/Router.ts:78-114 | its invocations all carry the same request, follow the reply script, never repeat a provider and all fail but the last; it succeeds with the last reply exactly when that one answered; breakers see one outcome per invocation; every invocation after the pinned one goes to the provider the strategy picks (from the cursor and draws the call starts with) among the chat providers that are enabled, not tried before, and whose breaker passes after the outcomes recorded so far; a call that reaches the loop (no pinned id, or a chat-capable pinned provider on a call that is not strict) fails only with "no available providers" or "all providers failed"; plus the pinned cases above and the cursor advance |
| Router.MultiModelRouter.EmbedLoop | Router/Router.ts:130-139 | the candidates are invoked in order until one answers, with no backoff; the first answer is returned, and "all embedding providers failed" only after every candidate failed |
| Router.MultiModelRouter.EmbedPinnedStep | Router/Router.ts:117-127 | a pinned id without `embed` fails with nothing invoked; a pinned embedding provider is invoked once without consulting its breaker and its answer ends the call |
| Router.MultiModelRouter.Embed | Router/Router.ts:116-140 | the pinned provider first, then the candidate list computed once after it, in order; no candidates gives "no embedding providers", exhausting them "all embedding providers failed"; success exactly when the last invocation answered |
| VectorStore.Normalize | Database/InMemory.ts:4-7 | length preserved; the vector is unchanged when its norm is 0, otherwise each component times the norm gives back the input |
| VectorStore.Dot | Database/InMemory.ts:77-80 | the score `sum of q[i] * v[i]` over the query's components (a definition; the lemmas below state its properties) |
| VectorStore.DotSelf | Database/InMemory.ts:77-80 | a vector's score against itself is its squared norm |
| VectorStore.NormalizedScoresOne | Database/InMemory.ts:4-7 | a non-zero embedding, once normalised and stored, scores exactly 1 against a query with the same embedding (for an exact square root) |
| VectorStore.DotPrefix | Database/InMemory.ts:77-80 | components of a stored vector beyond the query's length do not affect the score |
| VectorStore.FindIndex | Database/InMemory.ts:38 | -1 exactly when no chunk has the id, otherwise the first position holding it |
| VectorStore.Texts | Database/InMemory.ts:14 | the embedder receives every text, in input order |
| VectorStore.UpsertOne | Database/InMemory.ts:18-40 | an empty or wrongly sized vector leaves the store unchanged; an existing id is replaced at its position with the rest unchanged; a new id is appended |
| VectorStore.ChunkOf | Database/InMemory.ts:16-37 | the stored chunk copies the item's text and meta, and its vector has the embedding's length |
| VectorStore.UpsertOneValid | Database/InMemory.ts:18-40 | one item keeps ids unique and all vectors non-empty and of one dimension |
| VectorStore.UpsertOneFinds | Database/InMemory.ts:38-40 | after an item that is not dropped, looking up its id finds the new chunk |
| VectorStore.UpsertAllValid | Database/InMemory.ts:16-41 | a whole batch keeps the invariant, and the store grows by at most one chunk per item and never shrinks |
| VectorStore.Without | Database/InMemory.ts:95 | exactly the chunks with another id remain, in their order |
| VectorStore.WithoutUnique | Database/InMemory.ts:95 | removal keeps ids unique |
| VectorStore.WithoutCount | Database/InMemory.ts:95 | with unique ids, removal shrinks the store by one exactly when the id is present |
| VectorStore.WithoutDims | Database/InMemory.ts:95 | removal keeps vector dimensions uniform |
| VectorStore.Pool | Database/InMemory.ts:70-72 | exactly the chunks with a non-empty vector, in store order |
| VectorStore.ScoreAll | Database/InMemory.ts:74-81 | each pool chunk paired with its dot-product score against the query |
| VectorStore.RankingSpec | Database/InMemory.ts:82 | the sorted list is a permutation of the scored pool, in descending score with ties in store order (a stable sort) |
| VectorStore.TopBest | Database/InMemory.ts:82-83 | every pool chunk left out of the first n scores no higher than each of them |
| VectorStore.Annotated | Database/InMemory.ts:84-87 | the chunk is unchanged except that its meta gains `score`, every other meta key kept |
| VectorStore.TopK | Database/InMemory.ts:70-87 | empty for an empty query vector or pool; otherwise `slice(0, k)` of the ranking, each entry annotated with its score |
| VectorStore.TopKFromStore | Database/InMemory.ts:83-87 | for `k >= 0` the result has `min(k, pool size)` chunks, each a stored chunk annotated with its own score |
| VectorStore.TopKOrdered | Database/InMemory.ts:82-87 | the scores in the results' meta are non-increasing |
| VectorStore.InMemoryVectorStore.constructor | Database/InMemory.ts:9-10 | an empty store with the given embedder |
| VectorStore.InMemoryVectorStore.Upsert | Database/InMemory.ts:11-42 | one embedder call on all texts, then each item in order as `UpsertOne`; the invariant is kept and the size grows by at most the batch size |
| VectorStore.InMemoryVectorStore.Search | Database/InMemory.ts:44-46 | always fails with "Call searchWithVector" |
| VectorStore.InMemoryVectorStore.GetStats | Database/InMemory.ts:47-53 | count is the size, dim the first vector's length or 0, and the sample the first min(10, size) ids in order |
| VectorStore.InMemoryVectorStore.QueryVector | Database/InMemory.ts:59-61 | the query's embedding, empty when the embedder's first entry is not an array, as for upserted texts (a definition; no contract) |
| VectorStore.InMemoryVectorStore.SearchWithVector | Database/InMemory.ts:54-90 | the top-k of the store for the query's embedding |
| VectorStore.InMemoryVectorStore.Clear | Database/InMemory.ts:91-93 | the store is empty and its size is 0 |
| VectorStore.InMemoryVectorStore.Remove | Database/InMemory.ts:94-96 | exactly the chunks with the id go, the rest keep their order, the size drops by one exactly when the id was present, and the invariant is kept |
| VectorStore.InMemoryVectorStore.Size | Database/InMemory.ts:97-99 | the size is the count `stats` reports |
| Pipeline.Contains | Pipeline/index.ts:26 | `includes`, computed by scanning the suffixes (a definition; `ContainsSpec` states its meaning) |
| Pipeline.ContainsSpec | Pipeline/index.ts:26 | `includes` holds exactly when the substring occurs at some position |
| Pipeline.NoContextMessage | Pipeline/index.ts:25-28 | the Arabic message exactly when a system prompt is given and contains "أجب", the English one otherwise |
| Pipeline.NatToString | Pipeline/index.ts:32 | the entry number is a non-empty string of decimal digits |
| Pipeline.NatToStringRoundTrip | Pipeline/index.ts:32 | the printed entry number reads back as the number, so entries get distinct labels |
| Pipeline.Entries | Pipeline/index.ts:32 | one entry per retrieved chunk, the i-th labelled `[i+1]`, in retrieval order |
| Pipeline.ContextBlock | Pipeline/index.ts:32 | the entries joined by newlines (a definition; `ContextBlockLines` states what can be read back) |
| Pipeline.ContextBlockLines | Pipeline/index.ts:32 | when no chunk text holds a newline, splitting the context block at newlines gives back the entries one per line |
| Pipeline.UserContent | Pipeline/index.ts:41-43 | the question, the context block and the instructions in one text (a definition; `PromptMessages` states the offsets) |
| Pipeline.PromptMessages | Pipeline/index.ts:33-45 | exactly two messages, system then user; the system content is the caller's or the default; the user content holds the question, the context block and the instructions at fixed offsets |
| Pipeline.GenOptions | Pipeline/index.ts:47-52 | `generate` gets `maxTokens` defaulted to 512, `temperature` to 0.2, the caller's provider and model, and never `strictProvider` |
| Pipeline.References | Pipeline/index.ts:56 | one `{id, meta}` per retrieved chunk, same length and order |
| Pipeline.WithReferences | Pipeline/index.ts:54-57 | the router's answer with the references attached, or the router's error unchanged |
| Pipeline.RAGPipeline.constructor | Pipeline/index.ts:5-8 | keeps the router and the store |
| Pipeline.RAGPipeline.GetIndexStats | Pipeline/index.ts:9-11 | the store's `stats`: count the size, dim the first vector's length or 0, and the sample the first min(10, size) ids in order |
| Pipeline.RAGPipeline.Answer | Pipeline/index.ts:12-58 | retrieves `k ?? 5` chunks; with none, the n/a answer in the right language and no router call; otherwise exactly one `generate` call on the two-message prompt, from the router's breaker states, cursor and strategy at the call, whose outcome is described by `GenerateOutcome` (strategy picks and loop errors included), with the references attached |

## Left out

- Provider bindings (HTTP, API keys, JSON) are not part of this model. A provider is its id and two capability flags, and each call's outcome is read from the reply script.
- `isHealthy`, `finishReason` and `usage` in responses, and the options `topP`, `system`, `stop`, `timeoutMs` and `metadata` are forwarded or ignored by the code and are not modelled. `maxRPS` and `maxCostPer1K` are carried in the config and never read.
- Timeouts and concurrency are not modelled. A timeout is a failed reply, and calls are verified one at a time; races between in-flight requests on a breaker or the round-robin cursor are not considered.
- The backoff `delay` is not awaited. The model returns the sequence of backoff lengths instead.
- Router.MultiModelRouter.Generate: one `now` serves a whole call, while the code reads the clock at each breaker check and update. With a moving clock a breaker could reopen or expire in the middle of a call, and the model does not capture that.
- Router.MultiModelRouter.Embed: one `now` serves a whole call as well. In the code each `recordFailure` reads the clock (Breaker/index.ts:9-12), so later failures in one `embed` call stamp later `openUntil` times; the model stamps them all with the same time.
- Router.MultiModelRouter.Embed: a pinned embedding provider that fails falls through to the candidate loop, as the code does.
- Console logging (the dimension-mismatch warning, the search diagnostics) is left out.
- Floating point is not modelled. Vectors are exact `real` sequences, `Math.sqrt` is an uninterpreted argument, and `normalize`'s `|| 1` is modelled for a zero norm only, not for NaN.
- VectorStore.InMemoryVectorStore.SearchWithVector: requires the query vector to be no longer than any stored vector. In the code a longer query reads `undefined` and every score becomes NaN, which has no counterpart over the reals.
- VectorStore.InMemoryVectorStore.SearchWithVector: the code calls the embedder twice on the query and scores with the second result. The embedder is a function here, so both calls give the same vector.
- `searchWithVector`'s `filter` option is accepted by the code but never applied, and it is not modelled.
- The embedder's result is taken as one entry per text, `None` for an entry that is not an array; a rejected embedder promise is not modelled.
- RouterSelection.Copies: weights are integers here. A JavaScript number may be fractional, and then `Array(Math.max(1, w))` throws a `RangeError` out of `pick` and so out of `generate`; that error path is not modelled.
- RouterSelection.Choose: its weighted case inherits the integer weights of `Copies`, so the `RangeError` of a fractional weight is not modelled there either.
- VectorStore.TopK: `k` is an integer here. A fractional `k` is truncated by `slice` in the code, which the model does not capture; a negative `k` counts from the end, as `slice` treats it. `Pipeline.AnswerOptions.k` is an integer for the same reason.
- Pipeline.RAGPipeline.Answer: the embedder is a pure function here. In the deployed wiring it is the router's `embed` (Router/index.ts:6-17), which records breaker outcomes while the store searches. So "breakers unchanged" in the no-hits branch, and the caller's breaker states as the states `generate` starts from, hold only under this abstraction.
- Pipeline.RAGPipeline.Answer: inherits the requirement of `SearchWithVector` on the query vector. A router error is returned as a `Result` error, where the code throws.
