# Verification of the router core

The router picks a model under policy, scrubs what may leave the appliance, runs the call through
retries, a breaker, a semaphore and a fallback chain, verifies the answer, translates and relays
streams, and books the cost. This project models that core in Dafny and proves what it promises:

* **Data boundary** (`Policy`, `Luhn`, `Scrub`, `Redaction` and their laws, `Pipeline`, `Boundary`):
  whatever a run does, every adapter call goes to a model the policy admits, every text of a cloud
  call is rewritten in redact mode, and none is made in block mode when the scrubber found something.
* **Resilient execution** (`Executor`, `ExecutorLaws`, `Fallback`, `Streaming`, `StreamingLaws`,
  `StreamFallback`, `Breaker`, `BreakerOpens`, `Shed`, `Limiter` and their laws): a protocol every run
  follows event by event, who serves and when a run may fail, bounded calls, justified retries, the
  error that surfaces, no splicing of streams, slots always given back; when the circuit opens, when a
  request is shed and when it is rate limited, exactly.
* **Response verification** (`Schema`, `SchemaLaws`, `SchemaMeaning`, `SchemaFindings`, `ErasureLaws`,
  `Validator`, `VerifyResponse`, `Answers`): what acceptance means keyword by keyword, the two modes,
  the two-pass union rule, what it does not depend on, and what it means for the answers a run returns.
* **Streaming forms against simple forms** (`Sse`, `SseBlocks`, `SseRelay`, `Anthropic`,
  `AnthropicLaws`, `AnthropicMeaning`).
* **Catalog** (`Feed`, `Sync`, `SyncLaws`, `SyncOutcome`), **ledger and budgets** (`Ledger`,
  `LedgerLaws`, `Cost`, `Runner`) and **credentials** (`Vault`, `VaultLaws`).

Where the source updates state step by step, a class or a method with loops does the same and is
proved against a specification function; the laws are lemmas about those functions. What the outside
world decides (provider replies, chunks, aborts, clocks, database failures, regular-expression
matches) is an input, so a law for all inputs is a law for all runs. `dafny verify dfyconfig.toml`
checks everything.

Five properties one might expect do not hold of the code as it is. For each there is a failing input
and the exact condition under which the property holds:

* The Anthropic stream and batch forms disagree on the finish reason in one family of cases
  (`AnthropicLaws.EmptyToolUseDisagrees`, `AnthropicLaws.StreamEqualsBatch`).
* Structural validation rejects some values that fit a schema with its enums erased, once the schema
  has unions (`SchemaLaws.ErasureIsNotExactOnUnions`, `ErasureLaws.ErasureIsExactlyClear`).
* A credential added under the old master key while a rotation is running keeps the new key alone
  from being enough (`VaultLaws.AddedTooLate`, `VaultLaws.NewKeySufficesExactlyWhen`).
* A stream that is lost between the pipeline and the relay leaves no ledger row
  (`Runner.LostStreamLeavesNoRow`, `Runner.ExactlyOneRow`).
* With an idle limit shorter than a refill, pruning a bucket admits more than the limiter's bound;
  the defaults are long enough (`LimiterLaws.BoundSurvivesPruningExactlyWhen`).

## Model

| member | source | states |
|---|---|---|
| Boundary.EveryCallIsAdmitted | src/resilience/executor.ts:252-308 | On every run from scrub to last fallback, each adapter call passes the policy's checks; in redact mode a cloud call carries exactly the redacted request clamped to the model; in block mode a cloud call implies no match; a local-only class never reaches a cloud kind. |
| Boundary.EveryStreamIsAdmitted | src/resilience/executor.ts:326-391 | The same for every upstream stream a streaming run opens. |
| Boundary.BoundaryHolds | src/gateway/pipeline.ts:261-418 | Call by call, in terms of the request's own texts: the model may serve, local-only stays on a local kind, only messages and max_tokens may differ; a cloud call carries every text rewritten in redact mode, the messages untouched in the other modes, and in block mode no text holds a match. |
| Boundary.StreamBoundaryHolds | src/gateway/pipeline.ts:261-418 | The same promises for every upstream stream a run opens. |
| Boundary.BrokenScrubberKeepsInside | src/gateway/pipeline.ts:269-304 | With a scrubber that throws, whatever the run, every call goes to a local model and carries the original request. |
| Boundary.RunStages | src/gateway/pipeline.ts:648-650 | Scrub, route and execute on one context produce exactly the run the boundary theorem is about. |
| Boundary.RunStreamStages | src/gateway/pipeline.ts:648-650 | The same for the streaming path. |
| Pipeline.PipelineCtx.StageScrub | src/gateway/pipeline.ts:261-337 | The stage leaves the request, the cloud copy or the cloud bar that the firm's mode, the primary's tier and the chain call for, or fails with the right error. |
| Pipeline.PipelineCtx.RouteForModel | src/gateway/pipeline.ts:346-418 | A hop is routed exactly when its model may serve the request, the scrub verdict does not bar it and its provider resolves; a policy-side refusal outranks the bar, which outranks the provider lookup's error. |
| Pipeline.PipelineCtx.StageRoute | src/gateway/pipeline.ts:420-451 | A failed selection is final; an unroutable primary is left to the chain. |
| Pipeline.PipelineCtx.CandidateModels | src/resilience/executor.ts:135-141 | The selected model first, then the chain without it, repeats kept. |
| Pipeline.HopIsAdmitted | src/resilience/executor.ts:147-152 | Whatever the scrub stage decided, a routed hop is sent an envelope the boundary admits. |
| Pipeline.HopIsExactly | src/gateway/pipeline.ts:346-418 | A reachable hop is routed exactly when its model may serve, its provider resolves and it is not a cloud one barred by findings in block mode; it is sent the redacted request exactly in redact mode when it or the selected model is a cloud one. |
| Pipeline.ScrubFailsExactlyWhen | src/gateway/pipeline.ts:261-337 | The stage turns a request away exactly when selection fails, the scrubber throws although a hop could be cloud, or block mode finds something with a cloud model selected. |
| Pipeline.ScrubKeepsSelection | src/gateway/pipeline.ts:268-285 | Selection before and after the scrub stage agrees. |
| Pipeline.LocalPrimarySeesOriginal | src/gateway/pipeline.ts:287-290 | With a local primary every local hop is sent the original, never the redacted copy. |
| Policy.SelectModel | src/policy/engine.ts:241-295 | The loops (request match, deduplicated candidates, two tiers, narrowing of what is missing) compute the selection the laws below describe. |
| Policy.NoViolationIsMayServe | src/policy/engine.ts:101-129 | No violation means exactly: not sunset, local if local-only, not banned, every needed capability present. |
| Policy.SelectionIsValid | src/policy/engine.ts:241-295 | Only a violation-free catalog row is ever selected. |
| Policy.RequestHonoured | src/policy/engine.ts:246-253 | A requested model is selected when it is the default or among the allowed ids and may serve; otherwise the request makes no difference. |
| Policy.SubstituteFound | src/policy/engine.ts:257-284 | When the default fails on capabilities, selection succeeds exactly when a valid configured candidate exists, and picks one. |
| Policy.LocalSubstituteFirst | src/policy/engine.ts:264-267 | A cloud substitute is never picked while a local candidate would do. |
| Policy.SubstituteInOrder | src/policy/engine.ts:257-284 | Among the valid candidates of its tier the substitute stands first in the operator's order: allowed ids before the fallback chain. |
| Policy.NeedsAre | src/policy/engine.ts:54-93 | A request needs exactly: tools when it carries tools, json_schema for that format, vision when a message shows an image, and what its class requires of the three. |
| Policy.CapabilitiesAre | src/catalog/service.ts:63-77 | An override decides either way; without one an OCR kind has neither tools nor schemas; otherwise the catalog decides. |
| Policy.NoVisionExactly | src/policy/engine.ts:271-292 | no_vision_provider is reported exactly when the default failed on capabilities, no candidate is valid, and vision is missing on the default and on every candidate that failed on capabilities. |
| Policy.SelectionFailsExactlyWhen | src/policy/engine.ts:254-294 | A valid default serves without an honoured request; selection fails exactly when the default may not serve and is barred by policy or no configured model may serve; policy_blocked exactly when it is barred, never substituted. |
| Policy.RedactionKeepsSelection | src/policy/engine.ts:54-93 | Needs and selection are the same on a request and on its redaction. |
| Policy.EffectiveCapabilities | src/catalog/service.ts:63-77 | Every capability key gets its override, else false under the kind's ceiling, else the catalog's value, else false. |
| Policy.ClampToModel | src/policy/engine.ts:310-315 | Only max_tokens may change, and only to the model's ceiling; a known positive ceiling is never exceeded; nothing changes exactly when no clamp applies. |
| Scrub.ScanText | src/protect/scrub.ts:95-155 | The passes run in order with their overlap and nearness rules and give the scan the laws below describe. |
| Scrub.ScanTiles | src/protect/scrub.ts:95-155 | The spans are sorted, pairwise disjoint and inside the text, and are exactly the matches of the passes. |
| Scrub.TilesPairwise | src/protect/scrub.ts:154-155 | Tiled spans are pairwise ordered: each ends before the next starts. |
| ScrubLaws.ScanIsExactly | src/protect/scrub.ts:95-155 | The scan keeps exactly: valid cards; of routing numbers, separated and bare social security numbers and employer numbers those apart from everything of an earlier kind; account numbers by keyword or within 120 characters of a kept routing number, apart from all of these. |
| Scrub.RedactText | src/protect/scrub.ts:165-174 | The cursor loop computes the redaction, for overlapping input too. |
| Scrub.RedactionReplacesSpans | src/protect/scrub.ts:165-174 | The text is its gaps woven with the spans' originals; its redaction is the same gaps woven with the tags, so every span is replaced and every gap copied verbatim. |
| Redaction.ScanEnvelope | src/protect/scrub.ts:192-202 | Counts and total over every text field of the request. |
| Redaction.RedactEnvelope | src/protect/scrub.ts:208-232 | The loops compute the redacted copy and the counts scanEnvelope reports; what the copy holds is stated by RedactionLaws. |
| RedactionLaws.RedactionRewritesEveryText | src/protect/scrub.ts:208-232 | In the copy every plain content, every text part and every tool argument is the rewriting of the one in its place; roles, images, tool names, ids and all other fields are unchanged. |
| RedactionLaws.FieldsAreRewritten | src/protect/scrub.ts:184-232 | The text fields of the copy are as many as the original's and each is the rewriting of the field at its index. |
| RedactionLaws.FieldsAreTheTexts | src/protect/scrub.ts:184-190 | The scanner visits exactly the texts of the messages. |
| RedactionLaws.ReportsNothingExactlyWhen | src/protect/scrub.ts:192-202 | Nothing is reported exactly when no text of the request holds a match. |
| RedactionLaws.ScrubberTags | src/protect/scrub.ts:165-218 | Every span of a text is replaced by the tag of its kind, and what lies between the spans is copied. |
| RedactionLaws.ScrubberCounts | src/protect/scrub.ts:192-218 | The count of a text holds the kind of each span, as often as it occurs. |
| RedactionLaws.SpansAreExactly | src/protect/scrub.ts:95-155 | The spans replaced and counted are exactly what the scan keeps. |
| RedactionLaws.TagsCarryNoDigit | src/protect/scrub.ts:157-163 | A tag carries no digit, and different kinds have different tags. |
| Redaction.ScrubberIsQuiet | src/protect/scrub.ts:211-218 | A text in which nothing is counted is returned as it is; the boundary theorems ask no more of a scrubber. |
| Redaction.NothingFoundNothingChanged | src/protect/scrub.ts:211-218 | A request without matches is its own redaction. |
| Redaction.RewritingKeepsImages | src/protect/scrub.ts:220-229 | Rewriting text never adds or removes an image. |
| Luhn.LuhnValid | src/protect/scrub.ts:60-73 | The loop from the right computes the weighted sum test of Annex B of ISO/IEC 7812-1. |
| Luhn.ValidIsTheRule | src/protect/scrub.ts:60-73 | A number is accepted exactly when its digits add up to a multiple of ten, counted from the right, every second one doubled and cast out over nine, the last one not. |
| Luhn.SingleErrorCaught | src/protect/scrub.ts:60-73 | Changing one digit of an accepted number, of any length, is always rejected. |
| Luhn.TranspositionCaught | src/protect/scrub.ts:60-73 | Swapping two unequal neighbours is rejected exactly when they are not 0 and 9. |
| Executor.ExecuteHopWithRetries | src/resilience/executor.ts:179-231 | The retry loop of one hop yields the specified events and result. |
| Executor.ExecuteResilient | src/resilience/executor.ts:252-319 | The loop over candidates yields the run that the laws of ExecutorLaws and Fallback describe, and the context names the route of the last granted hop. |
| Executor.VisitCandidate | src/resilience/executor.ts:262-308 | One candidate: skipped, refused by breaker or semaphore, or run under a slot that is released on every exit. |
| ExecutorLaws.RunFollowsProtocol | src/resilience/executor.ts:262-308 | Every run follows one protocol to its end: a slot before any call, calls numbered 0, 1, 2, at most one breaker record per call with the call's own outcome, a failure then a release, never two slots at once. |
| ExecutorLaws.RepeatsAreJustified | src/resilience/executor.ts:206-227 | A repeated call, at most the second repeat, directly follows, on the same hop, a recorded failure with code rate_limited, provider_unavailable or invalid_response that is not a truncation. |
| ExecutorLaws.EveryGrantIsReleased | src/resilience/executor.ts:287-307 | A finished run released each provider's slots exactly as often as it was granted them. |
| ExecutorLaws.CallsAreBounded | src/resilience/executor.ts:187-227 | At most three calls for each of the primary and the chain entries. |
| ExecutorLaws.MeaningfulErrorSurfaces | src/resilience/executor.ts:239-319 | Without a timeout, a run that fails throws the last hop error that is not policy-side, or the last of all if every one is, or the no-usable-model error if there was none. |
| ExecutorLaws.TimeoutSurfaces | src/resilience/executor.ts:309-314 | A timed-out run that fails throws the total timeout. |
| ExecutorLaws.FirstGoodReplyAnswers | src/resilience/executor.ts:187-205 | The first acceptable reply after transient faults, within the limit, is the hop's answer. |
| Fallback.HopAnswersExactlyWhen | src/resilience/executor.ts:187-231 | A hop answers exactly when one of its three attempts is acceptable and every one before it failed in a way worth another, and with that attempt's reply. |
| Fallback.FirstAnswerServes | src/resilience/executor.ts:262-308 | Past candidates that are missing, unroutable, refused or fail, with nobody leaving, the first candidate that answers serves the request with its reply. |
| Fallback.SelectedModelServes | src/resilience/executor.ts:135-141 | The selected model is asked before any fallback: if it answers, the run returns its reply. |
| Fallback.ServesExactlyWhen | src/resilience/executor.ts:252-319 | A run nobody aborts succeeds exactly when some candidate would answer. |
| Fallback.FailedRunsVisitEveryone | src/resilience/executor.ts:262-319 | A run nobody aborts visits candidates in order, each skipped, refused or granted as its own circumstances call for; one that fails has visited every candidate that has a row. |
| Fallback.CandidatesAre | src/resilience/executor.ts:135-141 | The selected model comes first and never again; after it come exactly the chain's other ids, the whole chain as it stands when the model is not in it. |
| Fallback.OthersKeepOrder | src/resilience/executor.ts:135-141 | Leaving the selected model out keeps the order and the repeats of the chain. |
| Fallback.EveryCallIsRecorded | src/resilience/executor.ts:204-216 | Without aborts every call of a run is directly followed by its own breaker record. |
| Fallback.AbortsAreNotBlamed | src/resilience/executor.ts:207-227 | A failed call that an abort may have caused ends the hop's calls without a record against the provider. |
| ExecutorLaws.AnswerIsTheLastCalls | src/resilience/executor.ts:296-300 | A successful run returns what its last call returned, that reply passed the verifier for the envelope sent, and the context names the route that served it. |
| Answers.ServedAnswersAreUsable | src/resilience/executor.ts:190-208 | With the verifier as judge, a returned answer is there at all, reports no error finish, carries JSON tool arguments, and under a forced-JSON format is untruncated JSON that conforms to the schema, with enums erased in structural mode. |
| Answers.AcceptedExactlyWhen | src/gateway/verify.ts:223-303 | The verifier finds nothing exactly in a usable answer: text, a tool call or a refusal; arguments that parse; for forced JSON no cut-off and a value that parses, and that conforms to the schema in the mode that was asked for, hinted at or deployed. |
| Answers.TruncatedExactlyWhen | src/gateway/verify.ts:235-277 | Truncation is found exactly in a forced-JSON answer that is there, with arguments that parse, and ended at its token limit. |
| Answers.TruncationIsNotRetried | src/resilience/executor.ts:219-224 | A forced-JSON reply cut off at its limit becomes an error that is not worth a retry. |
| Streaming.RelayChunks | src/resilience/executor.ts:390-416 | Holding back, flushing and passing on yields all of a hop's chunks up to where the consumer leaves, or nothing without content. |
| Streaming.RelayHop | src/resilience/executor.ts:389-450 | One granted hop: the context names it first, its chunks are relayed, its fault is blamed on the provider or not, and is final or not. |
| Streaming.ExecuteResilientStream | src/resilience/executor.ts:326-461 | The nested loops yield the specified run, and the context names the route of the last granted hop. |
| StreamingLaws.StreamComesFromOneHop | src/resilience/executor.ts:326-461 | Everything yielded is a prefix, in order, of one hop's chunks, all of it on completion; that hop produced content; every chunk was yielded under that hop's route, which the context still names at the end. |
| StreamingLaws.ReplacedExactlyWhen | src/resilience/executor.ts:417-447 | A granted hop ends the run exactly when it produced content, was aborted or stalled, and completes exactly when its content ended normally with the consumer there. |
| StreamFallback.FirstOutputServes | src/resilience/executor.ts:346-456 | Past candidates that are missing, unroutable, refused or fail without content, the first candidate with content is the stream, all of it unless the consumer walks away, and its end is the run's. |
| StreamFallback.SilentRunsVisitEveryone | src/resilience/executor.ts:346-461 | A streaming run in which every candidate comes to nothing has visited each that has a row, in order, and throws. |
| StreamFallback.StreamsAreRecorded | src/resilience/executor.ts:417-447 | A stream counts for its provider exactly when it completes, and against it exactly when it fails or ends empty with neither an abort nor a stall to explain it. |
| StreamFallback.ProducingIsContent | src/resilience/executor.ts:395-416 | Content is exactly a text delta, a tool start or a tool delta; a finish alone is none. |
| StreamingLaws.StreamFollowsProtocol | src/resilience/executor.ts:357-450 | Streaming runs follow the protocol too and give back every slot, also when the consumer walks away. |
| StreamingLaws.MeaningfulStreamErrorSurfaces | src/resilience/executor.ts:346-456 | A streaming run that throws without a timeout, by a final fault or by exhaustion, throws the last hop error that is not policy-side, or the last of all if every one is. |
| Shed.LoadShedGuard.Acquire | src/resilience/shed.ts:15-42 | Grants below the limit, queues below the cap, refuses otherwise; other providers untouched. |
| Shed.LoadShedGuard.Abort | src/resilience/shed.ts:30-40 | Refuses a waiter exactly when it is still queued, and removes only it. |
| Shed.LoadShedGuard.Release | src/resilience/shed.ts:44-52 | Hands the slot to the head of the queue or frees it. |
| ShedLaws.LimitsHold | src/resilience/shed.ts:15-52 | On every interleaving: in-flight within the maximum, queue within the cap, a non-empty queue only at the maximum, in-flight equal to grants minus releases. |
| ShedLaws.NoOvertaking | src/resilience/shed.ts:23-52 | If a later arrival was granted, every earlier one that was not refused was granted, and granted before it. |
| ShedLaws.ResolvedExactlyOnce | src/resilience/shed.ts:15-52 | Every arrival is in exactly one place: granted, refused or still queued, and no one twice. |
| ShedLaws.AnsweredExactlyWhen | src/resilience/shed.ts:15-42 | On every run a newcomer is granted exactly while fewer than the maximum of grants are out, refused exactly when all are out and the queue is full, and otherwise waits last in line. |
| ShedLaws.ReleaseServesLongestWaiting | src/resilience/shed.ts:44-52 | A release hands the slot to whoever waits longest; with nobody waiting it frees the slot. |
| ShedLaws.GivingUpLeavesTheLine | src/resilience/shed.ts:30-40 | Giving up refuses a waiter and takes it out of the line, and changes nothing for anyone else. |
| ShedLaws.EveryoneIsAnswered | src/resilience/shed.ts:15-52 | Once every grant has been released nobody is left waiting. |
| Breaker.CircuitBreaker.Allow | src/resilience/breaker.ts:68-85 | The answer and the new window of the provider; others untouched. |
| Breaker.CircuitBreaker.Record | src/resilience/breaker.ts:87-111 | The new window of the provider after an outcome, as the laws of BreakerLaws and BreakerOpens describe it; others untouched. |
| BreakerLaws.ProbeFlagIsHalfOpen | src/resilience/breaker.ts:68-101 | The probe flag is set exactly in half-open. |
| BreakerLaws.HalfOpenAdmitsOne | src/resilience/breaker.ts:71-84 | A half-open episode admits the request that starts it and no other. |
| BreakerLaws.NothingAdmittedWhileOpen | src/resilience/breaker.ts:71-78 | Nothing is admitted within the open duration after opening, whatever is recorded meanwhile. |
| BreakerLaws.OpensOnlyOnEnoughFailures | src/resilience/breaker.ts:54-111 | Closed turns open only on a failure, and then at least threshold times minimum samples failures were recorded in this closed episode and within the window. |
| BreakerOpens.OpensExactlyWhen | src/resilience/breaker.ts:54-111 | A failure recorded in a closed episode opens the circuit at that moment exactly when the outcomes of the last window, counted on the events with what survived the last close, are at least the minimum and the failed among them at least the threshold times as many; otherwise it stays closed. |
| BreakerOpens.FirstEpisodeCounts | src/resilience/breaker.ts:54-66 | The first episode begins with nothing counted, so there the count is of recorded events alone. |
| BreakerOpens.SuccessesNeverOpen | src/resilience/breaker.ts:103-111 | A success never opens the circuit. |
| BreakerOpens.HalfOpenEnds | src/resilience/breaker.ts:92-101 | In half-open a failure reopens at that moment; a success closes, and the new episode begins with the successes that still count and no failure. |
| BreakerOpens.ClosedAdmitsAll | src/resilience/breaker.ts:68-71 | A closed circuit lets every request through. |
| BreakerOpens.OpenAdmitsWhenDue | src/resilience/breaker.ts:71-78 | The first request once the open duration is over is let through as the probe. |
| Limiter.RateLimiter.Take | src/resilience/limiter.ts:21-36 | The answer and the new bucket of the key; others untouched. |
| Limiter.RateLimiter.Prune | src/resilience/limiter.ts:39-41 | Exactly the buckets idle longer than the limit are dropped. |
| LimiterLaws.AdmissionsAreBounded | src/resilience/limiter.ts:21-41 | On every run with takes and prunes, admissions between any two moments T milliseconds apart are at most burst + rpm * T / 60000, whenever being idle past the limit refills a bucket. |
| LimiterLaws.DefaultAdmissionsAreBounded | src/resilience/limiter.ts:13-41 | The bound for the limiter as the router builds and prunes it: a quarter of the rate, at least five, plus rpm * T / 60000. |
| LimiterLaws.RefusedExactlyWhen | src/resilience/limiter.ts:21-41 | A request is refused exactly when admitting it would put some stretch of the run that ends with it over burst + rpm * T / 60000. |
| LimiterLaws.DefaultRefusedExactlyWhen | src/resilience/limiter.ts:13-41 | The same for the limiter as the router builds and prunes it, with a burst of a quarter of the rate, at least five. |
| LimiterLaws.BoundSurvivesPruningExactlyWhen | src/resilience/limiter.ts:39-41 | For a whole-number burst the bound holds on all runs exactly when being idle past the limit refills a bucket; otherwise two bursts around a prune break it. |
| LimiterLaws.WaitIsLeast | src/resilience/limiter.ts:35-35 | A retry after s undisturbed seconds is admitted exactly when s is at least the returned wait. |
| LimiterLaws.PruneChangesNoAnswer | src/resilience/limiter.ts:39-41 | Pruning changes no later answer whenever the idle limit refills a bucket. |
| LimiterLaws.DefaultPruneChangesNoAnswer | src/resilience/limiter.ts:17-41 | With the default burst and idle limit pruning never changes an answer. |
| Validator.Check | src/gateway/verify.ts:110-201 | The validator with its in-place collectors returns the first violation and appends exactly the soft findings and hits that the laws of SchemaLaws, SchemaMeaning and SchemaFindings describe. |
| Validator.CheckProperties | src/gateway/verify.ts:178-191 | Present properties in order up to the first violation, with the collectors advanced by exactly their findings. |
| Validator.CheckItems | src/gateway/verify.ts:193-198 | Elements in order up to the first violation, likewise. |
| Validator.CheckUnion | src/gateway/verify.ts:133-168 | The strict pass, then in structural mode the soft pass, with only the winner's findings kept. |
| SchemaMeaning.StrictMeansConforms | src/gateway/verify.ts:110-201 | Strict mode accepts exactly the values that conform, at any depth: an enum member when enums are given; some branch when there are branches; else a listed type or null when nullable, every required name a key, every present property and every element conforming in turn. |
| SchemaMeaning.TypeNamesMean | src/gateway/verify.ts:80-91 | integer takes exactly the whole numbers, number every number, and each other name its own kind of value. |
| SchemaMeaning.RequiredMeans | src/gateway/verify.ts:188-190 | No name is missing exactly when every required name is a key of the object. |
| SchemaFindings.FindingsAreMisses | src/gateway/verify.ts:123-131 | In an accepted value without unions the soft findings are exactly the paths of its enum misses. |
| SchemaFindings.DiscriminatorIsAuthoritative | src/gateway/verify.ts:143-160 | An object whose present properties conform to a variant, one of them its discriminator, and that lacks a required key, is held to that variant. |
| SchemaFindings.RejectionsAreReal | src/gateway/verify.ts:110-201 | Whatever is rejected is rejected for a fault at the reported place. |
| SchemaLaws.StrictIsCleanStructural | src/gateway/verify.ts:110-201 | Strict mode accepts exactly when structural mode accepts and adds no soft finding. |
| SchemaLaws.UnionVerdict | src/gateway/verify.ts:133-168 | A union accepts exactly when some branch matches strictly, or some branch matches structurally and no branch is authoritative against it. |
| SchemaLaws.AuthoritativeBranchRejects | src/gateway/verify.ts:143-160 | With no strict match, a branch with an enum hit, no miss and a structural failure forces rejection whatever its siblings accept. |
| SchemaLaws.OrderIrrelevant | src/gateway/verify.ts:133-168 | Permuting anyOf or oneOf branches at any depth changes neither the verdict nor what a surrounding union sees of it. |
| SchemaLaws.PermutedAnyOfIsReordered | src/gateway/verify.ts:133-134 | Any permutation of a schema's branches is such a reordering. |
| SchemaLaws.ErasureAccepts | src/gateway/verify.ts:123-131 | Structural acceptance implies acceptance with all enums erased, and without unions the two coincide. |
| SchemaLaws.ErasureIsNotExactOnUnions | src/gateway/verify.ts:143-160 | With unions the converse fails: inputs that are rejected although the erased schema accepts them. |
| ErasureLaws.ErasureIsExactlyClear | src/gateway/verify.ts:133-168 | At any depth, structural acceptance is acceptance with enums erased exactly when no union the value reaches turns it away: there a branch matches strictly, or no branch the value names through its enum fails and some branch it fits is clear in turn. |
| ErasureLaws.FlatUnionErasure | src/gateway/verify.ts:143-167 | For branches without unions the condition is the guard of the second pass: a strict match, or no authoritative branch. |
| ErasureLaws.ErasedModesAgree | src/gateway/verify.ts:123-131 | Without enums the two modes agree. |
| VerifyResponse.StrictRejectsSoftFindings | src/gateway/verify.ts:223-303 | Over whole responses, choosing strict instead of structural turns exactly the soft findings into rejections. |
| VerifyResponse.CheckSchema | src/gateway/verify.ts:286-303 | The schema step collects soft findings in structural mode only. |
| Sse.PostSse | src/adapters/http.ts:82-112 | The buffer loop emits the payloads of the whole text, however it was cut into reads. |
| Sse.CutsDoNotMatter | src/adapters/http.ts:93-111 | Incremental splitting over any cuts, inside a separator too, equals splitting the whole text. |
| Sse.SearchStable | src/adapters/http.ts:106-106 | Once a blank line is found with text after it, more text neither moves nor lengthens it. |
| SseBlocks.StreamIsRead | src/adapters/http.ts:82-112 | A stream written as events of lines, with LF or CRLF in any mixture, comments, several data lines to an event and a last event left open, is read as what each event says: its data texts, one a line. |
| SseBlocks.SdkReadsLines | packages/sdk/src/index.ts:415-457 | The SDK hands on each data line of an event by itself, without white space around it. |
| SseRelay.Relay | src/gateway/routes.ts:93-119 | The relay writes every chunk's frames in order between heartbeats, the error of a fault after them, and [DONE] last unless the client has left by then. |
| SseRelay.DoneExactlyWhen | src/gateway/routes.ts:93-119 | [DONE] closes the text exactly when the client is there to the end and the response is still open. |
| SseRelay.SdkRead | packages/sdk/src/index.ts:415-457 | The SDK loop reads the data lines of all events up to [DONE], however the text was cut. |
| SseRelay.RelayRoundTrip | packages/sdk/src/index.ts:415-457 | Frames written by the relay, heartbeats anywhere and cuts anywhere, come back from the SDK in order up to [DONE]. |
| SseRelay.RelayToSdk | src/gateway/routes.ts:93-119 | Relay and SDK composed: however the turns go and the text is cut, the SDK reads exactly the objects of the turns before the client was found gone, in order, then the error of a fault the client was there for. |
| SseRelay.SdkDeliver | packages/sdk/src/index.ts:415-493 | The SDK's generator: events of each decoded line in order, unreadable lines passed over, an error object thrown. |
| SseRelay.RelayToCaller | packages/sdk/src/index.ts:415-493 | End to end, the caller gets the events of every object relayed before the client was found gone, in order, unreadable ones passed over, and the relay's error object as a thrown error. |
| SseRelay.ProviderReaderRoundTrip | src/adapters/http.ts:82-112 | The provider-side reader recovers the same payloads. |
| Anthropic.TranslateResponse | src/adapters/anthropic/translate.ts:237-276 | The block loop computes the batch translation that the laws of AnthropicMeaning describe. |
| AnthropicMeaning.BatchFinishMeans | src/adapters/anthropic/translate.ts:188-276 | From the raw reason: length exactly for max_tokens, content_filter exactly for refusal, tool_calls exactly for tool_use unless every tool block is the schema tool's, stop otherwise. |
| AnthropicMeaning.BatchUsageMeans | src/adapters/anthropic/translate.ts:227-235 | Usage field by field from the raw usage, absent cache counts as zero. |
| AnthropicMeaning.OneBlockMeans | src/adapters/anthropic/translate.ts:237-276 | Text is content, thinking is dropped, the schema tool's input is content and any other tool block a call with its id, name and input. |
| AnthropicMeaning.BlocksAreReadInOrder | src/adapters/anthropic/translate.ts:237-276 | Content and calls of a message are those of its blocks, one after the other. |
| AnthropicMeaning.StreamEndMeans | src/adapters/anthropic/translate.ts:346-404 | The same finish, from the raw reason, and the usage, from the start and the last delta, of an assembled stream with any pings and any cuts. |
| AnthropicMeaning.StreamErrorsMean | src/adapters/anthropic/translate.ts:408-424 | An error event throws the router's code for its type: auth, rate limit, context or, for every other, provider unavailable. |
| Anthropic.StreamState.Handle | src/adapters/anthropic/translate.ts:346-404 | One event changes the state and emits chunks as specified, or throws the mapped error. |
| AnthropicLaws.AllBlocksFold | src/adapters/anthropic/translate.ts:346-404 | Block by block, the folded stream adds the batch text and the batch tool calls, however each block is cut into deltas. |
| AnthropicLaws.StreamEqualsBatch | src/adapters/anthropic/translate.ts:237-404 | For any split into deltas and any pings the stream assembles to the batch content, tool calls and usage; the finish reasons agree exactly unless a schema tool was asked for and tool_use came without a tool block. |
| AnthropicLaws.EmptyToolUseDisagrees | src/adapters/anthropic/translate.ts:266-267 | A response without blocks that stops for tool_use, with a schema tool asked for: the stream ends in tool_calls, the batch form in stop. |
| AnthropicLaws.ToolsAreNumberedInOrder | src/adapters/anthropic/translate.ts:346-404 | On any events, tool starts are numbered 0, 1, 2 and every tool delta names a started index. |
| AnthropicLaws.PingsDoNotMatter | src/adapters/anthropic/translate.ts:346-404 | Pings change neither state nor output. |
| Feed.ParseFeed | src/catalog/sync.ts:113-192 | The loop keeps and reports exactly what the laws below describe. |
| Feed.SurvivorsAre | src/catalog/sync.ts:157-168 | An entry survives exactly when it was offered and no namespaced key for its id outranks it. |
| Feed.KeyOrderIrrelevant | src/catalog/sync.ts:113-192 | Ids are unique, and what is kept does not depend on the order of the keys. |
| Feed.EveryKeyAccounted | src/catalog/sync.ts:116-192 | For any rules, kept entries and reports together name every key exactly as often as it occurs. |
| Feed.FeedIsAccounted | src/catalog/sync.ts:113-192 | With the router's rules every key other than sample_spec is kept once or reported once, and no other key is named. |
| Feed.RouterRulesKeepKeys | src/catalog/sync.ts:54-62 | With the router's provider table every accepted key can be read back from its canonical id. |
| SyncOutcome.UsedExactlyWhen | src/catalog/sync.ts:113-192 | A key is used exactly when it is a chat model of a known provider, not hosted elsewhere, with a window, a price or a capability to state; the entry then says what the feed says, under the namespaced id and the last segment as its name. |
| Sync.CatalogDb.SyncOneModel | src/catalog/sync.ts:352-434 | One entry's effect on the table and the report, with a failure before or after the upsert. |
| Sync.CatalogDb.SyncCatalog | src/catalog/sync.ts:297-349 | The whole run: entries in order against the snapshot, then the vanished rows flagged. |
| SyncLaws.RunById | src/catalog/sync.ts:319-346 | Each id is changed by its own entry only; without one it is flagged if it vanished and otherwise left alone. |
| SyncLaws.SyncPreserves | src/catalog/sync.ts:263-349 | Any sync, however it fails, deletes no row, leaves custom rows and overrides alone, only appends to histories, and changes pricingAt for no earlier time. |
| SyncLaws.AllSettled | src/catalog/sync.ts:352-434 | After a sync each entry agrees with its row: specs, capabilities, date and latest price, unless the row is the operator's. |
| SyncLaws.SecondSyncIsFixpoint | src/catalog/sync.ts:296-349 | A second sync of the same feed changes nothing and reports no addition, update, price change or deprecation. |
| SyncOutcome.RowsFollowTheFeed | src/catalog/sync.ts:352-434 | A served entry leaves the operator's row alone, makes a row only with a context window, and otherwise leaves a row with the feed's specs, capabilities and date, not deprecated, with its prices in force from the run on. |
| SyncOutcome.ReportIsExact | src/catalog/sync.ts:297-434 | The report names exactly the rows added, updated, repriced and flagged, and counts exactly those left as they were. |
| SyncOutcome.PricingAtIs | src/catalog/service.ts:218-224 | The row in force is one that has taken effect, with none after it that has; there is none exactly when none has. |
| SyncLaws.PastPricesStay | src/catalog/service.ts:218-224 | Appending a price at a time changes pricingAt at no earlier time. |
| Ledger.DbLedger.Write | src/ledger/writer.ts:70-104 | The first write of a request id inserts its row and books it; any other changes nothing. |
| Cost.WriteAnswer | src/ledger/writer.ts:60-104 | The write with its cost computed: nothing without a response or from the cache, and unknown exactly when a kind of token in use has no rate. |
| Cost.KnownExactlyWhenPriced | src/ledger/cost.ts:25-50 | The cost is known exactly when every kind of token in use has a rate, cached tokens falling back to the input rate. |
| Cost.CostIsAdditive | src/ledger/cost.ts:34-60 | Costs of two parts of a usage add up to the cost of the whole. |
| Cost.CostIsTokensTimesRate | src/ledger/cost.ts:34-60 | The amount is each kind of token times its rate, cached tokens at the input rate for want of their own. |
| Cost.BookedAmount | src/ledger/writer.ts:60-104 | Nothing is booked for no response, a cached one or an unpriced one; any other at that amount. |
| Ledger.DbLedger.RecordSpend | src/ledger/budget.ts:138-159 | The cost is added to the firm, app and, if any, user totals of the month. |
| Ledger.DbLedger.CheckBudgets | src/ledger/budget.ts:61-135 | A request is refused exactly when some scope it falls under has reached its limit; otherwise the warnings are exactly the scopes at their soft percentage. |
| LedgerLaws.RefusedExactlyWhen | src/ledger/budget.ts:61-135 | In every reachable state a request is refused exactly when the month's rows of a firm, app, user or task class it falls under come to that scope's limit. |
| LedgerLaws.ScopeKeyInjective | src/ledger/budget.ts:42-44 | Different firms, apps or users never share a stored total. |
| LedgerLaws.WriteConserves | src/ledger/writer.ts:70-104 | Every stored total stays equal to the sum of the rows it stands for. |
| LedgerLaws.FirmSpendIsConserved | src/ledger/budget.ts:138-159 | A firm's month equals the sum of its apps' months and of its first-written rows. |
| LedgerLaws.RunsKeepInv | src/ledger/writer.ts:55-105 | On every run of arrivals and writes, first or repeated, rows are unique per request, pending requests have none, and totals are conserved. |
| LedgerLaws.StartIsInv | src/ledger/budget.ts:46-55 | Empty books satisfy the invariant that runs keep. |
| LedgerLaws.NeverLost | src/ledger/writer.ts:70-104 | An arrived request stays pending or booked; its first write books it and every further write leaves the books as they are. |
| Runner.RunPipeline | src/gateway/pipeline.ts:637-665 | The runner with its success write, terminal audit and catch write, for any way the stages end. |
| Runner.HandleRequest | src/gateway/routes.ts:66-174 | The handler: the runner, then for a stream the relay with the write in its finally. |
| Runner.ExactlyOneRow | src/gateway/pipeline.ts:643-664 | However the stages, the audit and the relay end, a request past authentication has exactly one row, that of its first write, and its cost is added once, except exactly when a stream is lost between runner and relay; before authentication nothing is written. |
| Runner.CostOfTheRow | src/gateway/pipeline.ts:643-664 | The row carries the relay's cost for a stream, the response's cost for an answer, and nothing for a request that failed before the provider answered. |
| Runner.LostStreamLeavesNoRow | src/gateway/routes.ts:77-101 | A stream whose hand-over throws leaves no row although nothing failed in the pipeline. |
| Runner.RunnerIsARun | src/gateway/pipeline.ts:643-664 | What the runner does to the books is a legal run of the ledger's events, so the laws about those runs hold of requests carried through. |
| LedgerLaws.OvershootIsBounded | src/ledger/budget.ts:61-159 | Once a scope's month has reached its limit it grows by no more than the cost of the requests then under way. |
| LedgerLaws.OvershootAtCrossing | src/ledger/budget.ts:61-159 | Counted from before the booking that crosses the limit, the final month is below limit plus what was under way. |
| LedgerLaws.NoLaterAdmission | src/ledger/budget.ts:78-133 | After that no request of the scope is admitted in the month. |
| Vault.EncryptRoundTrip | src/vault/crypto.ts:70-103 | Decrypting what was encrypted under a ring gives the plaintext back. |
| Vault.RewrapKeepsPlaintext | src/vault/crypto.ts:106-121 | A re-wrapped credential reads as before, under the ring and under the new key alone. |
| Vault.CredentialVault.Add | src/vault/service.ts:51-85 | The first credential of a provider is active, others staged; bad input changes nothing. |
| Vault.CredentialVault.Promote | src/vault/service.ts:88-127 | A staged credential becomes the one active, the former active enters timed grace; revoked or unknown ones change nothing. |
| Vault.CredentialVault.Revoke | src/vault/service.ts:129-147 | A known credential becomes revoked. |
| Vault.CredentialVault.AutoRevokeExpired | src/vault/service.ts:150-169 | Exactly the expired grace credentials become revoked, and their number is returned. |
| Vault.CredentialVault.StartupCheck | src/vault/service.ts:267-287 | No failure is reported exactly when every credential that is not revoked decrypts. |
| Vault.CredentialTable.RotateMasterKey | scripts/rotate-master-key.ts:50-70 | The loop re-wraps row by row up to the first row it cannot open, and counts what it re-wrapped and skipped. |
| VaultLaws.RunsKeepInv | src/vault/service.ts:51-169 | At every point of every interleaving of vault operations, rotation steps, crashes and re-runs: at most one active credential per provider, and every unrevoked one of a known version decrypts to its original under both keys. |
| VaultLaws.EmptyVaultIsInv | src/vault/service.ts:42-48 | The empty vault satisfies the invariant that runs keep. |
| VaultLaws.RevokedForGood | src/vault/service.ts:129-169 | A revoked credential never changes status again. |
| VaultLaws.MovesExactlySo | src/vault/service.ts:51-169 | Each step moves a credential exactly so: to active when it is promoted, from active to timed grace when another of its provider is, to revoked when it is revoked or its grace has run out, and otherwise not at all. |
| VaultLaws.NewcomersServeExactlyWhen | src/vault/service.ts:51-85 | A new credential is active exactly when its provider has no active one, reads as its text, and leaves all others as they were. |
| VaultLaws.ServingContinues | src/vault/service.ts:88-169 | A provider that has an active credential has one after every run that does not revoke the active one. |
| VaultLaws.CompletedReadsAlone | scripts/rotate-master-key.ts:50-70 | When a rotation completes, every credential it read that is not revoked decrypts under the new key alone. |
| VaultLaws.NewKeySufficesExactlyWhen | src/vault/service.ts:267-287 | The startup check under the new key alone passes exactly when no unrevoked credential of another version was added after the rotation read its rows. |
| VaultLaws.AddedTooLate | scripts/rotate-master-key.ts:50-70 | A run in which a credential is added under the old key after the rows were read: the rotation completes and the new key alone does not open the store. |
| VaultLaws.OnlyForeignVersionsStopIt | scripts/rotate-master-key.ts:59-63 | A rotation is stopped only by a credential of a version it has no key for. |
| VaultLaws.UndisturbedRotationSuffices | scripts/rotate-master-key.ts:50-70 | A rotation left alone that gets through leaves a store the new key alone opens. |

## Left out

- HTTP routes, admin sessions, the console, metrics, logging and audit rows: presentation and I/O; among the pipeline's stages, authentication, rate-limit keys and role gating are not modelled.
- Regular expressions (scrubber candidates, ban patterns, the hosted-name pattern) and keyword tests: taken as inputs; candidates of one expression are ordered and disjoint.
- Issuer, checksum and prefix tests of scrubber candidates other than Luhn: taken as flags on the candidate.
- Floating point, toFixed, toPrecision and database rounding: rates are exact reals, prices and costs exact whole numbers.
- Database execution: each operation is one atomic step with one clock; concurrent writers of one row, ties between pricing rows of one instant (the first stored wins here) and a month change in the middle of a write are not modelled.
- AES-GCM, hashing and randomness: sealing is symbolic and nothing is claimed about it.
- UTF-8 decoding: streams are sequences of characters.
- JSON text itself: reading a data line, a response or tool arguments as JSON is a parameter.
- Thinking blocks and the reasoning text of Anthropic responses: neither form's use of them is compared.
- The OpenAI-compatible stream state, the response cache and the policy caches: not part of this model.
- The path without a resilience layer, used in test wiring only: not part of this model.
- applyLimits and checkRole: clamping temperature and role lookup would only add easy members.
- Object keys that hit the JavaScript prototype chain (a property or provider named like an Object method): objects are finite lists of their own keys.
- Breaker recovery, breaker reset and snapshot: recovery is not guaranteed by the code, since a probe that is shed, aborted or stalled records nothing.
- Cleanliness of redacted text on a second scan: not guaranteed by the code.
- Discovery, provider refresh, task-class registration and policy import: not part of this model.
- SchemaLaws.OrderIrrelevant: states the verdict, not the violation path or the soft findings reported, both of which may depend on branch order.
- Pipeline.PipelineCtx.StageScrub: the audit fields of the context are not modelled.
- ExecutorLaws.MeaningfulErrorSurfaces: assumes that adapters report no policy-side code, as the adapters of the repository do.
- Ledger.DbLedger.Write: takes the cost as given; Cost.WriteAnswer is the write with its cost computed. The pricing cache and the cache-savings figure are not modelled.
- Boundary.RunStreamStages: the wrapper that pulls the first chunk before the response starts is not modelled; it passes the same chunks on.
- SseRelay.SdkRead: reads lines; SseRelay.SdkDeliver decodes them after the reading, in the same order as the source does line by line.
- Runner.ExactlyOneRow: assumes that storage does not fail.
- StreamingLaws.MeaningfulStreamErrorSurfaces: assumes that streams fail with no policy-side code.
- Ledger.DbLedger.RecordSpend: the stored row keeps no user id; the model's row remembers it so that user totals can be compared.
- LedgerLaws.OvershootIsBounded: assumes limits that stay fixed, a clock that does not go back and firm ids without a colon.
- BreakerOpens.OpensExactlyWhen: assumes a clock that does not go back and a window that is not negative.
- LedgerLaws.RefusedExactlyWhen: assumes firm ids without a colon and a clock that does not go back.
- SyncOutcome.RowsFollowTheFeed: assumes no pricing row dated at or after the run.
- SyncLaws.SecondSyncIsFixpoint: assumes no pricing row dated at or after the first run, and that the first run's entries did not fail.
- Sync.CatalogDb.SyncCatalog: the conflict clause of the insert, which matters only to concurrent writers, is not modelled.
