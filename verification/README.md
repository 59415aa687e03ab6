# CHORUS: a verified model

CHORUS turns residents' reports into cases, compiles privacy-safe views of them, lets agents propose
actions, and sends approved messages. This project models the parts of it whose correctness is a
claim over every input or every run, and proves those claims with Dafny 4.11.
`dafny verify dfyconfig.toml` checks everything.

| module | what it models |
|---|---|
| `Text` | substring search, `join`, `str(n)` |
| `Fencing`, `FenceDerivation` | fence tokens, the markers, a reader that knows only the format, and the search for a token that no untrusted value holds |
| `PromptDocument` | a rendered prompt as program text, unfenced free text and fenced values, and reading it back |
| `PromptText` | what the prompts say in the text itself: under which label each value stands, and on which line a reader finds it |
| `MonitorPrompt`, `InvestigatorPrompt`, `ActionPrompt`, `CommitmentPrompt` | the four renderers, their collision checks, and the commitment offsets |
| `UnfencedText` | what each runtime accepts, and accepted inputs whose unfenced text forges a marker |
| `Iam`, `PartitionKeys`, `TrustMatrix` | policy evaluation, the partition-key grammar, and the six roles' DynamoDB statements |
| `Identifiers`, `Wire`, `Jobs` | canonical UUIDs, digests, namespaces and instants; JSON; the worker-job contract |
| `Dispatch`, `Handlers` | the envelope, the dispatcher, and the four Lambda handlers with their clock scope |
| `RuntimeServer` | the runtimes' ASGI server |
| `ValidationProblems` | the reduction of a validation report to a safe answer |
| `Paths`, `Artifacts` | POSIX paths and the texts that name them; the Lambda artifact build and its secret gate |
| `SendProtocol` | the send of one approved execution, over every interleaving of deliveries |

## What the proofs found

* **Prompt round trip.** For every token-free set of values, reading a rendered prompt back gives
  exactly the fenced values *if and only if* no unfenced free text holds the opening marker
  (`MessageReadsBack`). The renderers do print free text outside the markers: sender and reporter
  pseudonyms, attachment media types, the correspondent label of the commitment prompt and the
  organisation a management statement is attributed to. None of it is in the collision check. For
  each of the four prompts `UnfencedText` gives inputs the runtime accepts, bounds and
  cross-references included, whose check passes and whose prompt does not read back
  (`MonitorForgery`, `InvestigatorForgery`, `ActionForgery`, `CommitmentForgery`), for every token
  the derivations yield (`TokensFit`).
* **Jobs that encode and never decode.** The job constructors accept a Monitor batch of any size and
  an investigation with an empty idempotency key; the decoder refuses both. A job round-trips exactly
  when neither applies (`JobRoundTrip`, with `OversizedBatchRefused` and `EmptyKeyRefused` for the two
  families), and a handover of any other job is answered as malformed and
  never retried (`HandoverReachesRunner`).
* **A refusal that is not one.** The decoder promises `WorkerJobError` for every malformed event. It
  raises an uncaught `TypeError` exactly when the declared schema version is a list or an object
  (`FaultsExactly`, `EscapesExactly`).
* **The envelope's operation chooses nothing in the worker**: any of the five names admits any of the
  five job kinds (`OperationIsNotCrossChecked`).
* **Silence from the runtime server** is kept exactly when the request never ends, the caller has gone,
  or the handler raises something that is not an `Exception` (`ExactlyOneAnswer`).
* **Batches are not pointwise.** A role allowed on a batch is allowed on each key (`NoKeyHides`); the
  converse fails, and `PointwiseIsNotEnough` says where.
* **The artifact gate compares texts, and staging writes paths.** The first-party set keeps a file
  entry as the manifest spells it; the archive prints the path it names. The two agree on every staged
  file *if and only if* each file entry is, once remapped, spelled the way it prints, or another entry
  puts that text into the set (`StagingAgrees`). Every copied file is read in full under the
  manifest's text (`GateHolds`); under the name it ships with only when the set holds that name or the
  scan reads the two alike. With the entry `src/chorus/x.py/` neither is so: the build returns, and
  ships a module whose declared encoding hides a credential (`RespelledSlips`).
* **The ownership check is needed.** With it, no run makes two SES calls (`AtMostOneCall`); without it,
  `WithoutOwnershipTwoCalls` gives a run that does.

## How things are represented

* SHA-256 is any function to 64 lower-case hexadecimal digits; the regular-expression engines, the
  Python decoders, `UUID(...)` and `datetime.fromisoformat` are function parameters. The only law asked
  of the last two is that they read what the library itself prints (`Identifiers.Lawful`).
* Identifiers, enum values, instants and numbers that a prompt prints are program text, which cannot
  hold `<` (`PromptDocument.Plain`).
* JSON member names and DynamoDB actions are enumerations with an `Other` case, and `Wire.KeyName` spells
  the members; key families are an
  enumeration with an `OtherFamily(name)` case, so every `NS#ns#FAMILY#id` is covered.
* An exception is the set of classes it is an instance of. Use cases, the clock store and SES are
  inputs of each step: every behaviour of theirs is covered because nothing is assumed about them.
* The source's mutable objects are classes (`Role`, `Process`, `Connection`); its loops are methods
  with loops, each proved equal to a specification function that the lemmas are about.
* Where a document and the code differ, the code is modelled: the worker-job module says every
  malformed event is refused the same way, and the code lets one kind escape.

## Model

| member | source | states |
|---|---|---|
| Fencing.FenceTokenShape | runtimes/monitor/prompt.py:65-75 | every derived token is its prefix and 24 upper-case hexadecimal digits, of one fixed length |
| Fencing.OccurrencesApart | runtimes/monitor/prompt.py:50-58 | two occurrences of equally long tokens in one text start at least the token length minus one apart |
| Fencing.MarkersUnbordered | runtimes/monitor/prompt.py:235-243 | neither marker overlaps itself, although the bare token may by one character |
| Fencing.ReadsBack | runtimes/monitor/prompt.py:235-243 | the reader recovers exactly the fenced values in order when the values lack the token and no other text holds the opening marker |
| Fencing.ForgeryShows | runtimes/monitor/prompt.py:235-243 | if other text holds the opening marker, the reader and the values read back lack the token as the fenced ones do, the reader returns no fewer values, and not the ones that were fenced |
| Fencing.ReadsBackExactly | runtimes/monitor/prompt.py:235-243 | for token-free values the round trip holds if and only if no other text holds the opening marker |
| FenceDerivation.DeriveFence | runtimes/monitor/prompt.py:95-108 | the token of the least attempt that occurs in no value, or a refusal exactly when all 64 collide |
| FenceDerivation.RefusalNeedsLongText | runtimes/investigator/commitment_prompt.py:69-81 | with distinct derivations a refusal needs 64*35+1 characters of values for data markers and 64*36+1 for reply markers |
| FenceDerivation.BoundAttained | runtimes/monitor/prompt.py:95-108 | that bound is sharp for tokens ending in the character they start with |
| FenceDerivation.TokensSeparate | runtimes/action/prompt.py:62-70 | for any two different pairs of invocation and attempt, or two different prompts, some digest gives different tokens |
| FenceDerivation.TokensIndependent | runtimes/investigator/prompt.py:59-67 | whatever digits are wanted for every prompt, invocation and attempt, one digest yields exactly those tokens under the prompts' own prefixes, because the seed can be read back |
| FenceDerivation.TokensTellDigests | runtimes/investigator/commitment_prompt.py:56-66 | under one prefix two tokens are equal if and only if the first 24 digits of their seeds' digests are |
| PromptDocument.OnlyOpenTextsForge | runtimes/monitor/prompt.py:182-232 | an opening marker outside the fences can only lie inside one unfenced free text, never across two pieces |
| PromptDocument.MessageReadsBack | runtimes/monitor/prompt.py:182-243 | a reader that takes the token from the DATA MARKERS line recovers token and values if and only if no unfenced free text holds the opening marker |
| MonitorPrompt.PayloadValues | runtimes/monitor/prompt.py:78-92 | the loops collect exactly the strings the collision check is made on, in order |
| MonitorPrompt.RenderMonitorUserMessage | runtimes/monitor/prompt.py:182-211 | the line-by-line render is the message of the document the lemmas are about |
| MonitorPrompt.RenderMessage | runtimes/monitor/prompt.py:214-232 | one message block with its attachments and optional captions, verbatim |
| MonitorPrompt.CheckCoversRender | runtimes/monitor/prompt.py:78-92 | the multiset of strings that are fenced equals the multiset that is checked |
| MonitorPrompt.MonitorRoundTrip | runtimes/monitor/prompt.py:182-243 | with a collision-free token the message reads back as its fenced values if and only if no pseudonym and no media type holds the opening marker |
| InvestigatorPrompt.PayloadValues | runtimes/investigator/prompt.py:70-83 | the strings the collision check is made on, from reports, facts and evidence |
| InvestigatorPrompt.ValueLines | runtimes/investigator/prompt.py:161-175 | the free-text members of a fact value, looked up in the order of the listed names |
| InvestigatorPrompt.StructuredValueLines | runtimes/investigator/prompt.py:248-267 | one line per member in the value's own order, fenced exactly when it is free text under a listed name |
| InvestigatorPrompt.FactValuesAgree | runtimes/investigator/prompt.py:161-175 | for every typed fact value the two traversals agree on what is free text, as multisets |
| InvestigatorPrompt.RenderInvestigationUserMessage | runtimes/investigator/prompt.py:178-219 | the render is the message of the document the lemmas are about |
| InvestigatorPrompt.CheckCoversRender | runtimes/investigator/prompt.py:70-83 | the multiset of strings that are fenced equals the multiset that is checked, optional captions and every fact value included |
| InvestigatorPrompt.InvestigatorRoundTrip | runtimes/investigator/prompt.py:178-286 | with a collision-free token the message reads back if and only if no pseudonym, media type or attributed organisation holds the opening marker |
| ActionPrompt.PayloadValues | runtimes/action/prompt.py:73-79 | the strings the collision check is made on |
| ActionPrompt.RenderActionUserMessage | runtimes/action/prompt.py:170-217 | the render, with its unfenced binding block, is the message of the document the lemmas are about |
| ActionPrompt.CheckCoversRender | runtimes/action/prompt.py:73-79 | what is fenced is exactly what is checked, in the same order |
| ActionPrompt.ActionRoundTrip | runtimes/action/prompt.py:170-255 | with a collision-free token the message reads back if and only if no media type holds the opening marker |
| CommitmentPrompt.RendersAsMessage | runtimes/investigator/commitment_prompt.py:157-182 | the single expression equals the document of header line, body and one fence |
| CommitmentPrompt.CommitmentRoundTrip | runtimes/investigator/commitment_prompt.py:157-182 | the reply is recovered whole and alone if and only if the correspondent label holds no opening marker |
| CommitmentPrompt.OffsetsPreserved | runtimes/investigator/commitment_prompt.py:157-182 | every span of the reply is the same span of the message shifted by one offset, found from the first opening marker past the header exactly when the label holds none |
| PromptText.IntroReads | runtimes/monitor/prompt.py:182-205 | what the monitor may answer with, the heading of the cases it may extend, and the order of the sections |
| PromptText.SummaryReads | runtimes/monitor/prompt.py:196-205 | each case with its own title and facts |
| PromptText.MessageReads | runtimes/monitor/prompt.py:214-232 | each message's own sender, instant, attachments and text, in that order |
| PromptText.InvestigationReads | runtimes/investigator/prompt.py:178-219 | the sections in order, `- none` exactly when there is no evidence |
| PromptText.CaseReads | runtimes/investigator/prompt.py:182-191 | the corroboration minimum and the case line |
| PromptText.ReportReads | runtimes/investigator/prompt.py:222-231 | each report's own reporter, instant, sources and summary |
| PromptText.FactHeaderReads | runtimes/investigator/prompt.py:234-245 | each fact's own report, reporter, type, sensitivity, status and evidence |
| PromptText.MembersRead | runtimes/investigator/prompt.py:248-267 | for each of the eight value shapes, the members shown, in order, and which are quoted |
| PromptText.EvidenceReads | runtimes/investigator/prompt.py:270-286 | each piece of evidence with its root, submitter, media type and digest, then caption and text |
| PromptText.PriorReads | runtimes/investigator/prompt.py:210-219 | the previous assessment and its findings, when there is one |
| PromptText.BindingReads | runtimes/action/prompt.py:186-194 | the five binding values, each under its own name |
| PromptText.BindingFound | runtimes/action/prompt.py:220-232 | each binding value is found alone on a fixed line of the message, whatever the payload holds besides |
| PromptText.ViewReads | runtimes/action/prompt.py:195-200 | the two labels quoted, purpose and instant not |
| PromptText.SafeFactReads | runtimes/action/prompt.py:203-208 | each safe fact's own identifier, type, status, contributors and text |
| PromptText.ReferenceReads | runtimes/action/prompt.py:209-215 | each attachment's own identifier, media type and caption |
| PromptText.ActionReads | runtimes/action/prompt.py:170-217 | the sections in order, attachments only when there are some |
| PromptText.ExtractionFound | runtimes/investigator/commitment_prompt.py:157-182 | case, evidence and correspondent are found on lines of their own before the reply |
| UnfencedText.MonitorForgery | runtimes/monitor/prompt.py:214-232 | for every token, a pseudonym or media type equal to the opening marker gives an accepted monitor input that passes the check and does not read back |
| UnfencedText.InvestigatorForgery | runtimes/investigator/prompt.py:222-286 | the same for a contributor's pseudonym, a media type and the organisation of a management statement, with one report, its fact and its evidence |
| UnfencedText.ActionForgery | runtimes/action/prompt.py:170-217 | the same for an attachment's media type in the action prompt |
| UnfencedText.CommitmentForgery | runtimes/investigator/commitment_prompt.py:157-182 | the same for the correspondent label, for any reply: the reply is not recovered and its offset is misplaced |
| UnfencedText.TokensFit | runtimes/monitor/prompt.py:65-75 | the opening marker of every derived token is at most 40 long, so it fits each of those fields |
| Iam.GlobLiteral | infra/cdk/stacks/application.py:69-80 | a literal prefix of a StringLike pattern matches exactly itself |
| Iam.GlobStar | infra/cdk/stacks/application.py:69-80 | `*` matches any run of characters, the separator included |
| Iam.NoKeyHides | infra/cdk/stacks/application.py:129-134 | with ForAllValues allows and ForAnyValue denies, a request allowed on a key set is allowed on each key alone |
| Iam.BatchAllowed | infra/cdk/stacks/sender.py:87-103 | exactly when a non-empty batch is allowed: one statement allows every key, and no statement denies any |
| PartitionKeys.FamilyPatternMeans | infra/cdk/stacks/compiler.py:55-81 | `NS#*#F#*` matches exactly the texts that hold `#F#` after the prefix |
| PartitionKeys.FamilyPatternMatches | infra/cdk/stacks/compiler.py:63-81 | on well-formed keys it matches exactly the family F |
| PartitionKeys.KeyTextInjective | src/chorus/infrastructure/dynamodb/keys.py:44-57 | no two keys of the grammar print alike, because segments hold no separator |
| TrustMatrix.GrantSharedDataPlane | infra/cdk/stacks/application.py:509-606 | appends the shared boundary's DynamoDB statements in order |
| TrustMatrix.ApplicationRoles | infra/cdk/stacks/application.py:408-409 | both application roles get the shared boundary and then their own statements |
| TrustMatrix.CompilerRole | infra/cdk/stacks/compiler.py:302-485 | the compiler's whole DynamoDB policy |
| TrustMatrix.SenderRole | infra/cdk/stacks/sender.py:284-405 | the sender's whole DynamoDB policy, the NotAction deny included |
| TrustMatrix.WatcherRole | infra/cdk/stacks/watcher.py:338-420 | the watcher's whole DynamoDB policy |
| TrustMatrix.ResetRole | infra/cdk/stacks/reset.py:251-273 | one DEMO-scoped statement a table, then the destructive deny |
| TrustMatrix.GrantDemoResetCondition | infra/cdk/reset_support.py:6-27 | the condition-only grant and, when asked for, its deny half |
| TrustMatrix.PolicyRefinesMatrix | infra/cdk/stacks/application.py:509-606 | for all six roles, every action, table, well-formed key and enclosing operation, policy evaluation equals the trust matrix, which lists each role's families and actions itself |
| TrustMatrix.ApiDecides | infra/cdk/stacks/application.py:626-728 | the request path's row of the matrix |
| TrustMatrix.WorkerDecides | infra/cdk/stacks/application.py:790-857 | the worker's row of the matrix |
| TrustMatrix.CompilerDecides | infra/cdk/stacks/compiler.py:302-485 | the compiler's row of the matrix |
| TrustMatrix.SenderDecides | infra/cdk/stacks/sender.py:299-405 | the sender's row of the matrix |
| TrustMatrix.WatcherDecides | infra/cdk/stacks/watcher.py:341-420 | the watcher's row of the matrix |
| TrustMatrix.ResetDecides | infra/cdk/stacks/reset.py:256-273 | the reset role's row of the matrix |
| TrustMatrix.RolesFailClosed | infra/cdk/stacks/application.py:129-134 | every statement of every role allows by all keys, denies by any, tests the keys at most once, and allows only on tables |
| TrustMatrix.BatchObeysMatrix | infra/cdk/stacks/sender.py:87-103 | every well-formed key of a batch any role is allowed obeys the role's row |
| TrustMatrix.ViewsHaveOneWriter | infra/cdk/stacks/application.py:596-606 | in a batch of any size, a view key is written only by the compiler's put, or by the reset inside DEMO |
| TrustMatrix.LocatorsHaveOneWriter | infra/cdk/stacks/application.py:170-189 | in a batch of any size, a correlation locator is written only by the worker, or by the reset inside DEMO |
| TrustMatrix.ApiWritesExactly | infra/cdk/stacks/application.py:170-186 | for keys of any shape and number, an API write on Shareable is allowed if and only if every key names ACTION, ACTION_CURRENT, EXECUTION or CASE and none a view, or it is a put of the demo clock alone |
| TrustMatrix.WorkerWritesExactly | infra/cdk/stacks/application.py:790-857 | the worker's Shareable writes, exactly: those four and OUTBOUND_MESSAGE, no view, never the clock |
| TrustMatrix.SenderWritesExactly | infra/cdk/stacks/sender.py:308-395 | the sender's Shareable writes, exactly: puts of executions that name none of its six forbidden partitions, nor the clock |
| TrustMatrix.WatcherWritesExactly | infra/cdk/stacks/watcher.py:341-420 | the watcher's Shareable writes, exactly: puts of cases that name none of its six forbidden partitions, nor the clock |
| TrustMatrix.CompilerWritesViewsOnly | infra/cdk/stacks/compiler.py:361-485 | the compiler's Shareable writes, exactly: puts of views, never the clock |
| TrustMatrix.CompilerReadsExactly | infra/cdk/stacks/compiler.py:361-408 | the compiler's Shareable reads, exactly: every key is in VIEW, VIEW_CURRENT, ACTION or ACTION_CURRENT, or it is a get of nothing but the demo clock |
| TrustMatrix.ViewKeyRefusesBatch | infra/cdk/stacks/application.py:596-606 | one key that names a view, well-formed or not, refuses any write batch of API, worker, sender and watcher |
| TrustMatrix.ClockHasOneAdvancer | infra/cdk/stacks/application.py:718-728 | only the request path's put, and the reset, can ever write the demo clock |
| TrustMatrix.CompilerWritesFencesOnly | infra/cdk/stacks/compiler.py:348-360 | a compiler write on Core is allowed if and only if it is a put or delete whose every key names the fence family and none the case family, for keys of any shape |
| TrustMatrix.CoreIsConditionOnly | infra/cdk/stacks/sender.py:395-405 | sender and watcher are allowed on Core exactly ConditionCheckItem on `NS#DEMO` and no other key |
| TrustMatrix.DemoNamespaceExact | infra/cdk/stacks/reset.py:69-79 | the DEMO grammar holds of a well-formed key exactly when its namespace is DEMO, never a longer name |
| TrustMatrix.ResetConfined | infra/cdk/stacks/reset.py:256-273 | reset is allowed on a batch if and only if the action is one of its own and every key is `NS#DEMO` or starts `NS#DEMO#` |
| TrustMatrix.IndexesAreClosed | infra/cdk/stacks/application.py:521-560 | no role is ever allowed anything on an index |
| TrustMatrix.PointwiseIsNotEnough | infra/cdk/stacks/compiler.py:322-347 | the compiler may condition-check a case key and a fence key in a transaction, and not both in one request |
| Identifiers.UuidGrammar | src/chorus/application/jobs.py:110-119 | the printed UUIDs are exactly the texts of the lower-case 8-4-4-4-12 grammar of section 4 of RFC 9562, and printing loses nothing |
| Identifiers.ParseUuidExact | src/chorus/application/jobs.py:110-119 | however liberal the library parser, an identifier is accepted exactly in its printed form |
| Identifiers.ParseUtcExact | src/chorus/domain/time.py:24-35 | an instant is accepted exactly in its six-digit, Z-suffixed form |
| Identifiers.FormatUtcInjective | src/chorus/domain/time.py:18-21 | two instants that print alike are equal |
| Jobs.DecodeLocators | src/chorus/application/jobs.py:163-178 | the loop's result on any JSON value: 1 to 500 well-formed locators in order, or a refusal |
| Jobs.LocatorsFieldExact | src/chorus/application/jobs.py:163-178 | locators are read exactly when there are 1 to 500 and the field carries their encoding |
| Jobs.DecodesExactly | src/chorus/application/jobs.py:269-372 | a payload decodes to a kind and a job if and only if the kind is the job's, the job can be read back at all, and the payload carries its encoding at every depth |
| Jobs.EncodingDetermines | src/chorus/application/jobs.py:181-266 | no job's encoding carries another's, so encoding is injective across all kinds |
| Jobs.JobRoundTrip | src/chorus/application/jobs.py:181-372 | every job decodes from its encoding to itself exactly when it has 1 to 500 distinct messages, or the version, reason and key its kind needs, and is refused otherwise |
| Jobs.JobOnTheWire | src/chorus/application/jobs.py:181-266 | every member of the envelope and of each kind of job, by name and value, and no other |
| Jobs.LocatorsOnTheWire | src/chorus/application/jobs.py:156-160 | each locator is its message and instant, by name |
| Wire.KeyNamesDiffer | src/chorus/application/jobs.py:181-266 | no two declared members share a name, so members can be told apart by them |
| Jobs.OversizedBatchRefused | src/chorus/application/jobs.py:163-178 | for every binding and size, a constructible batch of distinct messages decodes to itself up to 500 and is refused from 501 on |
| Jobs.EmptyKeyRefused | src/chorus/application/jobs.py:308-321 | every constructible investigation decodes to itself unless its idempotency key is empty, and then is refused |
| Jobs.FaultsExactly | src/chorus/application/jobs.py:278-280 | decoding escapes with a TypeError exactly when the declared schema is a list or an object |
| Dispatch.EnvelopeExact | functions/envelope.py:75-94 | an envelope is read exactly when it declares an accepted operation of 1 to 64 characters and its payload is an object |
| Dispatch.HandoverParses | src/chorus/application/dispatch.py:44-64 | what the dispatcher hands over parses to the job itself, or is refused when it cannot be read back |
| Dispatch.ParsedIsCarried | functions/worker/handler.py:157-162 | whatever the worker parses is a job that can be read back and whose whole encoding the event carries |
| Dispatch.OperationIsNotCrossChecked | functions/worker/handler.py:157-159 | any of the five operation names admits any job: the payload's own kind decides |
| Handlers.Process.RunWorker | functions/worker/handler.py:154-189 | reply, trace, warm composition and clock scope of one delivery, on every path |
| Handlers.Process.RunCompiler | functions/compiler/handler.py:196-243 | the same for the compiler, which reads the clock before it decodes a request |
| Handlers.Process.Dispatch | functions/compiler/handler.py:213-243 | inside the clock scope, the call and the reply for a declared operation |
| Handlers.Process.RunSender | functions/sender/handler.py:178-206 | the same for the sender, whose recognised failures become answers |
| Handlers.Process.RunWatcher | functions/commitment_watcher/handler.py:127-147 | the same for the watcher |
| Handlers.Process.Serve | src/chorus/infrastructure/persistent_clock.py:57-71 | over any events the trace and replies are those of the specification and the clock scope is as it was |
| Handlers.CompilerAsksExactly | functions/compiler/handler.py:196-243 | for every event: which operation text and which decoder's approval ask for a compile, a send authorization and a fence release, when the compiler refuses under the clock, and when outright |
| Handlers.SenderAsksExactly | functions/sender/handler.py:178-206 | the sender is asked to send exactly by SendAction with a payload its decoder accepts |
| Handlers.WatcherAsksExactly | functions/commitment_watcher/handler.py:127-147 | the watcher is asked to record exactly by RecordCommitmentDue with a payload its decoder accepts |
| Handlers.PlansExactly | functions/worker/handler.py:157-168 | for every handler, event and call: the call is planned if and only if the event asks that handler for it |
| Handlers.CallsWereAsked | functions/compiler/handler.py:196-243 | over any run, a call is made if and only if some delivered event asked for it, with the graph built by then and under that event's own reading |
| Handlers.CallsExactly | functions/sender/handler.py:178-206 | the calls of a run are exactly the planned ones whose graph was built and whose clock was read |
| Handlers.RepliesExactly | functions/sender/handler.py:178-206 | how each invocation of a run is answered: refused, failed for retry, answered or answered with an encoded failure, each exactly when |
| Handlers.ClockProtocol | functions/worker/handler.py:171-182 | over any run each use-case call follows its own invocation's reading and sees exactly it, and no invocation reads twice |
| Handlers.RunsAddUp | functions/worker/handler.py:157-189 | over any run, invocations are failed for retry exactly as often as a reading failed, and answers other than refusals are no more than the calls, which are no more than the invocations |
| Handlers.RefusalsLeaveNoTrace | functions/commitment_watcher/handler.py:130-136 | a refused event leaves a whole run as if it had not been delivered |
| Handlers.HandoverReachesRunner | functions/worker/handler.py:163-168 | a job's handover reaches the runner registered for its kind with an equal job, or is refused when it cannot be read back |
| Handlers.RepeatedDelivery | src/chorus/application/dispatch.py:61-64 | any number of deliveries of one handover, the first builds failing or not: each one that finds or builds the graph takes its own reading and runs the job exactly once under it, or not at all when the reading fails |
| Handlers.AttemptsAreJobs | functions/worker/handler.py:163-168 | no accepted event falls through to no runner or to another kind's runner |
| Handlers.EscapesExactly | functions/worker/handler.py:157-162 | the one event that is neither refused nor run has an unhashable schema version |
| RuntimeServer.Connection.ReadBody | runtimes/server.py:162-180 | stops at the first deciding message with its decision, or waits for ever when none decides |
| RuntimeServer.DecidedStays | runtimes/server.py:162-180 | once a message decides, later ones change nothing and none of them is taken |
| RuntimeServer.DecidesNext | runtimes/server.py:162-180 | what one more message decides and which bytes it adds, at the literal bound, silence about more included |
| RuntimeServer.BufferBounded | runtimes/server.py:162-180 | at every point of every stream the retained bytes are within the bound |
| RuntimeServer.ChunkingDoesNotMatter | runtimes/server.py:162-180 | two whole requests with the same bytes are decided alike, whatever their chunks, interleavings and what follows |
| RuntimeServer.Connection.Invoke | runtimes/server.py:136-159 | sends, handler calls and messages taken for one invocation |
| RuntimeServer.Connection.Respond | runtimes/server.py:119-134 | routing by path and method, and what each route sends |
| RuntimeServer.Connection.RunLifespan | runtimes/server.py:197-212 | startups acknowledged up to the first shutdown, which is acknowledged last |
| RuntimeServer.Connection.Serve | runtimes/server.py:107-117 | HTTP, lifespan, or one close with code 1008 |
| RuntimeServer.ExactlyOneAnswer | runtimes/server.py:119-194 | silence or one start and one body whose content-length (section 8.6 of RFC 9110) reads back as its length; silence exactly in three cases |
| RuntimeServer.RoutesExactly | runtimes/server.py:107-134 | status and body of every route but an accepted invocation, and the close of any other protocol |
| RuntimeServer.LifespanAcknowledges | runtimes/server.py:197-212 | one acknowledgement for each startup and one for the first shutdown, then nothing |
| RuntimeServer.HandlerSeesWholeBodies | runtimes/server.py:136-159 | the handler runs at most once, only for a POST to /invocations, on the complete body within the bound |
| RuntimeServer.AnswersWholeRequests | runtimes/server.py:136-159 | what the caller is told for a whole request, status and body, whatever its chunks and whatever follows: 413 over the bound, 200, 504 for a budget error even when it is also a contract error, 400, 500 for any other Exception, and otherwise nothing |
| ValidationProblems.Categorise | apps/api/chorus_api/problem_details.py:470-474 | the loop computes the category function |
| ValidationProblems.FirstMatchDecides | apps/api/chorus_api/problem_details.py:440-474 | the first rule whose token occurs in the error type decides |
| ValidationProblems.CategoriesExactly | apps/api/chorus_api/problem_details.py:440-474 | which category each kind of error type gets, in the order they are tried |
| ValidationProblems.CodesAreClosed | apps/api/chorus_api/problem_details.py:477-487 | a code is 1 to 64 capitals, digits and underscores whatever was reported |
| ValidationProblems.CodesExactly | apps/api/chorus_api/problem_details.py:477-487 | which error types are printed, and each character of the code |
| ValidationProblems.SafePath | apps/api/chorus_api/problem_details.py:490-509 | the loop renders the path function |
| ValidationProblems.PathsAreClosed | apps/api/chorus_api/problem_details.py:490-509 | a path is a non-empty prefix, at most 200 long, of a dot-join of words: a declared name or bounded index for itself, `?` for any other of the first twelve elements, `...` for more, `body` for none |
| ValidationProblems.NamesExactly | apps/api/chorus_api/problem_details.py:363-407 | the names that may be said out loud |
| ValidationProblems.ValidationProblem | apps/api/chorus_api/problem_details.py:678-696 | the answer for a readable or unreadable report |
| ValidationProblems.AnswersDoNotInterfere | apps/api/chorus_api/problem_details.py:524-547 | reports alike once everything but error types, declared names and bounded indices is redacted are answered alike |
| ValidationProblems.NothingUncounted | apps/api/chorus_api/problem_details.py:678-696 | the first twenty errors in order, each with its own code, path and category, and the rest counted; an unreadable report gives none |
| Paths.PartsOfPosix | tools/build_lambda_artifacts.py:319-341 | a path read back from the text it prints is the path, so texts that print alike name one file |
| Artifacts.RemapWalked | tools/build_lambda_artifacts.py:261-270 | a file found by walking a directory is remapped to a text that again prints as it is spelled |
| Artifacts.RemapExactly | tools/build_lambda_artifacts.py:261-270 | the three source roots that are stripped, and nothing else |
| Artifacts.ArchiveFirstParty | tools/build_lambda_artifacts.py:204-222 | the remapped texts of everything the manifest picks: a file entry as it is spelled, a walked file as it prints |
| Artifacts.StageFirstParty | tools/build_lambda_artifacts.py:319-341 | the staged tree: picked files over the vendored ones at the paths their texts name, later over earlier, or an error exactly when an entry names neither file nor directory |
| Artifacts.CopiesExactly | tools/build_lambda_artifacts.py:319-341 | what is copied, exactly: the file an entry names, or, when it names a directory, the files below it that are not bytecode, under which text |
| Artifacts.NamesExactly | tools/build_runtime_artifacts.py:454-465 | a name is let pass exactly when no component is a credential directory and the last is neither a credential nor an environment file |
| Artifacts.FirstPartyExactly | tools/build_runtime_artifacts.py:522-562 | first-party content is let pass exactly when it was read in full, or pinned, and no pattern matched |
| Artifacts.VendoredExactly | tools/build_lambda_artifacts.py:399-433 | vendored content is let pass exactly when it is one of four named documents, no UTF-8 text, or holds no match but the pinned pair in the pinned file |
| Artifacts.VendoredReasons | tools/build_lambda_artifacts.py:427-432 | the first match that is not excused decides what is reported |
| Artifacts.PlacementExactly | tools/build_lambda_artifacts.py:384-395 | a name is let pass exactly when it has no forbidden part, root or suffix |
| Artifacts.NativeExactly | tools/build_runtime_artifacts.py:625-644 | a shared object is let pass exactly when it starts as an ELF file for the right machine |
| Artifacts.SecretProblems | tools/build_lambda_artifacts.py:436-455 | one entry's findings after another's, under the name the archive prints, first-party names without exceptions |
| Artifacts.SecretsTold | tools/build_lambda_artifacts.py:436-455 | every content finding is about some entry, under the name it ships with and for the reason its class gives |
| Artifacts.ScanStagedFirstParty | tools/build_lambda_artifacts.py:458-480 | no findings exactly when what stands where each first-party text points is clean under that text |
| Artifacts.InspectLambdaArchive | tools/build_lambda_artifacts.py:365-396 | no problems exactly when handler and package are present and every entry is clean under its archive name |
| Artifacts.BuildLambda | tools/build_lambda_artifacts.py:483-523 | the build returns if and only if every entry exists, the staged scan and the archive scan find nothing, and handler and package are listed, and then ships the overlaid tree |
| Artifacts.ReturnsExactly | tools/build_lambda_artifacts.py:483-523 | a build returns if and only if every entry exists, every first-party text points at content read as first-party, handler and package are listed, and every entry is cleared of every name, placement, native and content rule |
| Artifacts.VendoredGate | tools/build_lambda_artifacts.py:399-433 | if a build returns, whatever ships under a name outside the first-party set and the four documents has no UTF-8 reading, or no match but the pinned pair in the pinned file |
| Artifacts.VendoredMatchRefuses | tools/build_lambda_artifacts.py:399-433 | one other match in an installed file that nothing overwrites, and the build does not return |
| Artifacts.StagingAgrees | tools/build_lambda_artifacts.py:204-222 | every staged file is first-party by its archive name if and only if each file entry prints, once remapped, as it is spelled or another entry adds that text |
| Artifacts.RespelledAlone | tools/build_lambda_artifacts.py:204-222 | any other spelling of a file, in a manifest of its own, ships that file under a name the first-party set lacks |
| Artifacts.StagingSkipsOnlyBytecode | tools/build_lambda_artifacts.py:319-341 | everything an entry picks is staged, but bytecode found by walking a directory |
| Artifacts.VendoredUntouched | tools/build_lambda_artifacts.py:319-341 | what no first-party text points to ships exactly as installed, however the entries are spelled |
| Artifacts.VendoredUntouchedByName | tools/build_lambda_artifacts.py:436-455 | where the texts agree, what the archive scan takes for vendored by its name is exactly as installed |
| Artifacts.GateHolds | tools/build_lambda_artifacts.py:458-523 | if a build returns, every copied file's entry holds a repository file's bytes, read in full as first-party under the manifest's text, and under its archive name whenever the set holds that or the scan reads the two alike, also where it overwrote a vendored file; both names keep the name rules |
| Artifacts.RespelledSlips | tools/build_lambda_artifacts.py:458-523 | with the entry `src/chorus/x.py/` a build returns and ships a module that is not clean as first-party source, for every scanner and every file that is clean as UTF-8 and not in the encoding it declares |
| SendProtocol.StepSafe | src/chorus/application/commands/send_action.py:332-462 | every step of every delivery, and of everybody else, keeps the protocol's invariant |
| SendProtocol.AtMostOneCall | src/chorus/application/commands/send_action.py:369-462 | in every run of any number of deliveries at most one SES call is made, by the delivery whose claim the row carries |
| SendProtocol.OutcomesAreHonest | src/chorus/application/commands/send_action.py:571-817 | by what last moved the row, its state and the calls made: SENT for an accepted send, FAILED for a refused one, SEND_UNKNOWN for neither, each with that one call; FAILED with no call when the sender gave up first; what the sweep and later evidence leave |
| SendProtocol.RowTellsCalls | src/chorus/application/commands/send_action.py:557-702 | over every run, a row SENT without later evidence means its owner's one call was accepted, a row FAILED means no call or one SES refused, an unclaimed row none |
| SendProtocol.ApprovedCanBeSent | src/chorus/application/commands/send_action.py:332-462 | after any run that leaves the row APPROVED, a new delivery can claim it, answered, lost, late or on a second try, make the one call and record each outcome |
| SendProtocol.BeginsExactly | src/chorus/application/commands/send_action.py:332-368 | a delivery proceeds exactly when it finds the row APPROVED |
| SendProtocol.ClaimsExactly | src/chorus/application/commands/send_action.py:571-650 | an answered claim commits exactly when the row has not moved since it was read, and otherwise leaves it as it was |
| SendProtocol.ResolvesExactly | src/chorus/infrastructure/dynamodb/unit_of_work.py:71-111 | a lost answer is resolved by the commit proof when it can be read, and tried again at most once |
| SendProtocol.OwnershipExactly | src/chorus/application/commands/send_action.py:470-492 | over every run the ownership check passes exactly for the owner of a row still SENDING, and then nobody has called |
| SendProtocol.LostAfterCall | src/chorus/domain/state.py:83-95 | a delivery that dies after its call leaves SENDING to the sweep and SEND_UNKNOWN to the evidence, the call on record |
| SendProtocol.RowMovesAlongEdges | src/chorus/domain/state.py:83-95 | in every run the row moves only along the declared edges, one version a time, and never changes its owner |
| SendProtocol.EveryEdgeIsTaken | src/chorus/domain/state.py:83-95 | each declared edge is taken by some run |
| SendProtocol.VerifySafe | src/chorus/application/commands/send_action.py:470-492 | a delivery that passes the ownership check holds the claim and nobody has called |
| SendProtocol.WithoutOwnershipTwoCalls | src/chorus/infrastructure/dynamodb/unit_of_work.py:71-111 | without the check, resolving a lost claim by the shared commit proof leads to two calls |

## Left out

- Prompt system text, schema validation of payloads and model calls: constants and calls outside the modelled code.
- Length and pattern limits of payload contracts: the for-all prompt results hold without them; only the accepted inputs of `UnfencedText` are checked against them.
- UnfencedText.ActionForgery: the members of an action payload that its prompt does not print are not modelled, so acceptance speaks of the printed ones.
- UnfencedText.MonitorForgery: instants are printed texts here, so the order of a batch and its time zone are not checked.
- The sentences of error messages and log events: only which refusal is raised is modelled.
- Policy statements on S3, KMS, Lambda, SES, the scheduler and Secrets Manager, the inbound-mail role, and CDK resource creation: single-resource grants with no key grammar.
- Key segment length and control characters: the key results hold for every separator-free segment.
- Text serialisation of JSON between dispatcher and worker: events are JSON values on both sides.
- `str.isdigit` beyond ASCII: the comparison with the printed instant refuses such digits either way.
- The bodies of use cases, repositories and the privacy compiler: every behaviour of a call is admitted, its inside is not modelled.
- An ASGI `send` or `receive` that raises: the caller is then gone in a way the code does not handle.
- The content type of the runtime server's answers, the same for all of them.
- `instance`, `correlation_id` and the other members of a problem document: built from fixed values.
- Artifacts.BuildLambda: manifests with an absolute entry, a `..` part, or a file entry whose remapped text is absolute or names no file are excluded (`Contained`), because what they reach depends on the machine; paths are POSIX paths.
- Dependency export, installation and the purge of host artifacts: the vendored tree is whatever they leave.
- Archive compression, timestamps, entry order and digests, symbolic links, and a file that stands where a directory must be made: file-system detail; staging is a map from paths to bytes.
- SendProtocol.AtMostOneCall: the local verification, the fence and the clock of the send are one nondeterministic choice between failing and going on, so when the code fails early is not stated; conflicts of the outcome's own commit proof are not modelled, because they can only drop an outcome.
- Handlers.Process.RunWorker: one event loop runs one invocation at a time, so invocations do not interleave within a process.
