# Senda: verified models of the send, event, resolution and sharing cores

Senda is a multi-tenant email orchestrator. This project models the six cores in
which its correctness is decided and proves properties of them with Dafny 4.11.
`dafny verify dfyconfig.toml` checks everything.

| file | core |
|---|---|
| `EventProcessor.dfy` | provider events: interleaved calls with stale reads, a compare-and-set, event log and suppression rows |
| `InjectorContext.dfy`, `CodeInjectors.dfy`, `InjectorMerger.dfy` | injectors: dependency search, scope chain, precedence merge |
| `Suppression.dfy`, `SendPersistence.dfy`, `Send.dfy`, `SendBatch.dfy`, `SendBatchRun.dfy` | sending one message and a batch |
| `BounceSuppression.dfy` | from a bounce or complaint to later sends, across the event and the send core |
| `AdapterAccess.dfy` (over `Workspaces.dfy`) | sharing grants for adapters and sender identities |
| `Onboarding.dfy` | first-use setup: lock, transaction, savepoint |
| `ChainCache.dfy` (over `Workspaces.dfy`) | chain cache and its invalidation |
| `Common.dfy` | options, results, counting |

Code that changes things step by step is modelled by classes and methods with loops,
each proved against a specification function or predicate; the theorems are lemmas
about those. Concurrency is modelled by state machines (`Next`, `Run`) whose runs are
arbitrary interleavings with arbitrary failures, and the methods are tied to them
(`Solo`, `After`). Automatic induction is switched off on every lemma, so each proof is
the one written down. Store calls that may fail take a flag saying whether they do, and
everything chance contributes (fresh ids, which statements fail) is a parameter.
Domain functions outside these files (canonical addresses, address normalisation,
JSON parsing, the blank test for locales, the uncached template resolver, injector
callbacks) are function parameters about which nothing is assumed, except that the
empty string is blank.

## Where code and documentation disagree

The model follows the code. The lemmas named at each point say when the code does what is
promised, and give an input on which it does not.

- `injector_merger.go` promises overrides on top of the resolved base value; line 269
  replaces the stored value of an overwriteable field nobody overrides by the field
  default (`OverridesSitOnStoredValuesIff`, `StoredValueIsDropped`). The global path
  ignores stored values of locked fields too (`GlobalAgreesIff`, `GlobalDropsLockedValue`).
- `docs/EMAIL_FLOWS.md:85-88` calls a send accepted when all recipients were queued and
  partial when some were suppressed or failed; the code says partial only when one
  failed (`SendStatusIsDocumentedIff`, `SuppressedSendIsCalledAccepted`). A response
  that is neither an error nor wholly queued is read as partial.
- `docs/EMAIL_FLOWS.md:511-512` exempts transactional types from per-type opt-outs; the
  evaluator has no such case (`OptOutsAreBulkOnlyIff`, `TransactionalSendIsBlocked`).
- A hard bounce or complaint is meant to keep later sends away, but the row holds the
  recipient as it was written (`event_processor.go:274-289`) and lookups ask for the
  canonical form, trimmed and in lower case (`HardBounceBlocksIff`,
  `ComplaintBlocksIff`, `BobIsWrittenToAgain`).
- `Send` compares a locale with the empty string where the batch trims it
  (`LocalesAgreeIff`, `BlankLocaleDiffers`).
- A batch item reports the tracking id of its first recipient, which leads to no email
  when that recipient's write failed (`ReportedIdIsTrackableIff`,
  `PartialItemLeadsNowhere`).
- `event_processor.go:91-97` claims deduplication without a table. It holds of `Process`
  under every interleaving (`ProcessDeduplicates`), at the price that an event whose
  insertion fails is lost for ever (`LostEventIsNeverRecovered`, `EnteredIsLoggedIff`,
  `BounceCanBeLost`). With `ProcessDirect` there are duplicates, but only by pixel hits
  that change no status (`DuplicatesAreIdlePixelHits`, `PixelOpensAreLoggedAgain`).
- The audit row of onboarding is called best effort, but the error of ROLLBACK TO
  SAVEPOINT is ignored and a failed SAVEPOINT dooms the commit (`AuditIsBestEffortIff`,
  `FailedRollbackLosesTheSet`, `SavepointFailureLosesTheSet`).
- `ListByTenant` is called with a limit of 1000, which `pagination.go:43-45` clamps to
  100. Invalidation pages through; `validWorkspaceTargets` reads one page, so some
  workspaces of a large tenant cannot be granted anything (`AllTargetsAllowedIff`,
  `LargeTenantIsCut`).
- Invalidation ignores failed deletions (`CoherentAfterDeletesIff`,
  `FailedDeletesMatterIff`, `FailedDeleteLeavesStale`).
- `CacheIsCoherent` assumes that changes are followed by their invalidation. In the
  repository only `cache_invalidator.go` itself calls `InvalidateWorkspace`; nothing calls
  `InvalidateTenantWorkspaces`, and the handlers use the resolved-template invalidations
  only. So a changed chain is stale until its entry expires.

## Model

| member | source | states |
|---|---|---|
| EventProcessing.Conservation | internal/service/event_processor.go:98-186 | In every reachable state of any interleaving, statuses entered by the processor equal events logged plus events between the compare-and-set and AddEvent plus events lost; logged hard bounces and complaints equal rows written plus pending plus missed. |
| EventProcessing.ProcessDeduplicates | internal/service/event_processor.go:91-161 | Two events logged by Process for one email are never of one type, and never a bounce and a complaint, for every schedule of stale readers, pixel hits and the worker. |
| EventProcessing.DuplicatesAreIdlePixelHits | internal/service/event_processor.go:191-238 | Of two events of one type logged for one email in any run, one is a pixel hit that changed no status. |
| EventProcessing.OneWritePerRank | internal/service/event_processor.go:14-33 | Among climbing writes, an email enters at most one status of any rank, so at most one of bounced and complained. |
| EventProcessing.OneEventPerRank | internal/service/event_processor.go:132-161 | Logged and lost events of one email and type together are at most one, and so are logged events of two types of equal rank. |
| EventProcessing.LostEventIsNeverRecovered | internal/service/event_processor.go:120-161 | If AddEvent failed after the status was written, no run ever logs that event, and a bounce or complaint lost so never suppresses anyone. |
| EventProcessing.EnteredIsLoggedIff | internal/service/event_processor.go:132-161 | When no call is about to log it, a status the processor entered has exactly one event iff its AddEvent did not fail. |
| EventProcessing.OwedIsSuppressedIff | internal/service/event_processor.go:159-167 | When no call is about to write it, a logged hard bounce or complaint has exactly one row iff the insertion did not fail. |
| EventProcessing.BounceCanBeLost | internal/service/event_processor.go:120-167 | For any sent email, a hard bounce whose AddEvent fails marks it bounced, logs and suppresses nothing, and its redelivery changes nothing. |
| EventProcessing.StatusNeverRegresses | internal/service/event_processor.go:14-33 | In all continuations of all runs an email's status is the same or of higher rank, and a terminal status stays. |
| EventProcessing.AtMostThreeWritesAfterSent | internal/service/event_processor.go:201-223 | In mixed runs, each write after sent raises the rank, so there are at most three. |
| EventProcessing.RowsStayJustified | internal/service/event_processor.go:268-295 | A suppression row points, in all later states, to an email with its address that is still bounced (global) or complained (same workspace). |
| EventProcessing.AtMostOneRowPerEmail | internal/service/event_processor.go:268-295 | One email is the source of at most one suppression row in any run. |
| EventProcessing.PixelOpensAreLoggedAgain | internal/service/event_processor.go:201-238 | From any opened email there is a run that changes nothing but logging a further open. |
| EventProcessing.SoloIsARun | internal/service/event_processor.go:98-186 | A call run alone is one schedule of the interleaved machine. |
| EventProcessing.TransitionsAre | internal/service/event_processor.go:14-33 | A transition is valid iff it is the worker's out of processing, or raises the rank from sent, delivered or opened to an event's status, opened from delivered only. |
| EventProcessing.ProcessDoes | internal/service/event_processor.go:98-167 | What one webhook call achieves for every status, event and failure: an event the status takes (delivered from sent, opened from delivered, bounced and complained from sent, delivered, opened) enters its status, is logged once and writes the row it calls for, up to the first failure; any other changes nothing. |
| EventProcessing.UnknownMessageDoesNothing | internal/service/event_processor.go:99-108 | A message id nobody has is an error and changes nothing. |
| EventProcessing.EventProcessor.Process | internal/service/event_processor.go:98-186 | The method leaves the store and the result of the machine's call run alone, for every combination of store failures. |
| EventProcessing.EventProcessor.ProcessDirect | internal/service/event_processor.go:191-265 | Likewise for the tracking pixel, including opens that do not change the status. |
| EventProcessing.ProcessDirectDoes | internal/service/event_processor.go:191-265 | What one pixel call achieves for every status, event and failure: opens are written from sent and delivered and always logged, other events are as for the webhook, no suppression row is written. |
| EventProcessing.EventProcessor.HandleSuppression | internal/service/event_processor.go:268-295 | Adds a global row for a hard bounce, a workspace row for a complaint, and nothing otherwise or on failure. |
| EventProcessing.EventProcessor.UpdateStatus | internal/adapter/postgres/email_repo.go:259-273 | Compare-and-set: succeeds iff reachable and the stored status is the expected one, and then changes only that status. |
| BounceSuppression.RowBlocksIff | internal/service/send_suppression.go:288-317 | One more suppression row keeps sends exactly from the addresses whose canonical form is its text, where it applies. |
| BounceSuppression.HardBounceBlocksIff | internal/service/event_processor.go:268-280 | After a hard bounce handled without failure, sends of any workspace to its recipient are blocked iff they were before or the recipient was in canonical form. |
| BounceSuppression.ComplaintBlocksIff | internal/service/event_processor.go:282-290 | After a complaint likewise, in the email's own workspace only. |
| BounceSuppression.WrittenRowBlocksIff | internal/service/event_processor.go:268-295 | In every run a written row on its own blocks its email's recipient iff that was in canonical form. |
| BounceSuppression.BobIsWrittenToAgain | internal/service/event_processor.go:274-280 | A concrete recipient with capitals bounces hard and is not blocked. |
| InjectorContexts.CopyInjectors | internal/port/code_injector.go:135-148 | The two-level copy holds the same names, fields and values, whatever the iteration order. |
| InjectorContexts.InjectorContext.MergeDBInjectors | internal/port/code_injector.go:205-212 | Names of the argument replace earlier ones whole, all others stay. |
| InjectorContexts.InjectorContext.SetRequestInjectors | internal/port/code_injector.go:191-203 | The request data is exactly what was given, and nothing else changes. |
| InjectorContexts.InjectorContext.AllResolved | internal/port/code_injector.go:214-222 | Returns exactly what has been resolved so far. |
| CodeInjectors.RunsExactlyOnce | internal/resolution/injector_merger.go:362-429 | For any graph, cyclic or naming unknown codes: no callback runs twice, all registered ones run unless a critical one fails, and an error comes from the last one run, which is critical. |
| CodeInjectors.DependenciesRunFirst | internal/resolution/injector_merger.go:379-426 | In an acyclic graph every callback runs after all its registered dependencies, for every iteration order. |
| CodeInjectors.ResolveComputesMeaning | internal/resolution/injector_merger.go:362-429 | For acyclic graphs of callbacks reading only their dependencies: an error iff some critical injector fails under the recursive meaning, else exactly the values of those that have one, failed ones keeping the stored context entry. |
| CodeInjectors.OrderIsIrrelevant | internal/resolution/injector_merger.go:422-426 | Two iteration orders agree on failure, result and context. |
| CodeInjectors.RegistryKeepsLast | internal/resolution/injector_merger.go:367-376 | The registered injector of a code is the last one the filter admits; other codes have none. |
| CodeInjectors.BuildRegistry | internal/resolution/injector_merger.go:367-376 | The loop computes that registry. |
| CodeInjectors.Resolver.ResolveOne | internal/resolution/injector_merger.go:381-420 | The recursive closure, updating its state in place, performs the depth-first search function, and terminates on any graph. |
| CodeInjectors.ResolveCodeInjectors | internal/resolution/injector_merger.go:362-429 | The whole resolution equals the search over some order of the registered codes, in result and context. |
| InjectorMerging.ScopeIndex | internal/resolution/injector_merger.go:658-665 | The first position of a scope in the chain, or its length if absent. |
| InjectorMerging.ChosenIsFirstNearest | internal/resolution/injector_merger.go:307-319 | Of the definitions sharing a name the first listed one with least scope index wins; a name without definitions has none. |
| InjectorMerging.BestByName | internal/resolution/injector_merger.go:307-319 | The loop keeps exactly that definition per name. |
| InjectorMerging.BuildValueIndex | internal/resolution/injector_merger.go:594-608 | For each definition, field and scope the index holds the value stored last. |
| InjectorMerging.IndexedLookupIsScan | internal/resolution/injector_merger.go:632-646 | The indexed lookup answers what a naive scan of the chain answers. |
| InjectorMerging.NearestStoredIsNearest | internal/resolution/injector_merger.go:632-646 | The scan finds a value at the first scope that stores one, and nothing iff no scope does. |
| InjectorMerging.ResolveDBForScopes | internal/resolution/injector_merger.go:301-359 | Values and rules are, name by name and field by field, those of the declarative reading of the catalog, and nothing else. |
| InjectorMerging.RuleIs | internal/resolution/injector_merger.go:351-354 | Default and overwrite flag are those of the field listed last under its name in the first nearest definition. |
| InjectorMerging.StoredValueAnswers | internal/resolution/injector_merger.go:345-350 | A field has the parsed value stored last at the nearest scope that stores one, or its default if that is null. |
| InjectorMerging.SomeValueDecides | internal/resolution/injector_merger.go:632-646 | Where anything is stored for a field in the chain, some stored value decides it. |
| InjectorMerging.DefaultAnswers | internal/resolution/injector_merger.go:345-350 | With nothing stored for it in the chain a field has its default. |
| InjectorMerging.UndefinedIsAbsent | internal/resolution/injector_merger.go:339-356 | A name or field the catalog does not define has neither value nor rule. |
| InjectorMerging.DbResolutionIsDetermined | internal/resolution/injector_merger.go:301-359 | That reading determines both maps, so map iteration order is irrelevant. |
| InjectorMerging.ApplyFieldRules | internal/resolution/injector_merger.go:250-271 | Locked fields keep the stored value, overwriteable ones take request, else code, else field default; global sends put the default in locked fields. |
| InjectorMerging.MergeCodeOnlyFields | internal/resolution/injector_merger.go:574-590 | Code fields the schema does not define pass through; defined ones are left alone. |
| InjectorMerging.Merge | internal/resolution/injector_merger.go:226-290 | Every field of the result is what the precedence says, and there is no other name or field. |
| InjectorMerging.MergeIsDetermined | internal/resolution/injector_merger.go:226-290 | The precedence determines the whole map. |
| InjectorMerging.RequestOnlyOverwrites | internal/resolution/injector_merger.go:248-271 | Changing the request adds and removes no name or field and changes only overwriteable ones. |
| InjectorMerging.OverridesSitOnStoredValuesIff | internal/resolution/injector_merger.go:254-269 | The code meets its doc comment iff every overwriteable field nobody overrides stores its default. |
| InjectorMerging.StoredValueIsDropped | internal/resolution/injector_merger.go:269 | A concrete stored value of an overwriteable field is replaced by the field default. |
| InjectorMerging.GlobalAgreesIff | internal/resolution/injector_merger.go:539-572 | Global and workspace resolution of the same data agree iff every locked field stores its default. |
| InjectorMerging.GlobalDropsLockedValue | internal/resolution/injector_merger.go:539-572 | A concrete locked field: the global path answers its default, the workspace path its stored value. |
| InjectorMerging.InjectorMerger.ResolveWithContext | internal/resolution/injector_merger.go:192-290 | Success, failure, result and context of the whole resolution; on success the context ends as before plus the result. |
| InjectorMerging.InjectorMerger.EveryInjectorTakesPart | internal/resolution/injector_merger.go:245-247 | Every configured code injector takes part in a resolution, the last one of its code. |
| InjectorMerging.InjectorMerger.NothingElseTakesPart | internal/resolution/injector_merger.go:245-247 | Every code that takes part is that of a configured injector. |
| Suppression.TwoPassesDecide | internal/service/send_suppression.go:60-134 | Asking first the table and then the opt-outs of what remains gives the pointwise verdict, the table's reason winning. |
| Suppression.VerdictMeans | internal/service/send_suppression.go:288-317 | Each To recipient is flagged iff its canonical form is suppressed or opted out, with the first reason there is. |
| Suppression.OptOutsAreBulkOnlyIff | internal/service/send_suppression.go:60-134 | A message is judged as if opt-outs bound bulk types only iff its type is bulk or no recipient has nothing but a type opt-out against it. |
| Suppression.TransactionalSendIsBlocked | internal/service/send_suppression.go:114-130 | A concrete opted-out recipient of a transactional type is suppressed, against the documentation. |
| Suppression.KeptMember | internal/service/send_suppression.go:288-317 | An address survives in CC or BCC iff it was there and is not suppressed. |
| Suppression.KeptMeans | internal/service/send_suppression.go:288-317 | The kept copies, order and multiplicity included, are determined address by address. |
| Suppression.AppendUniqueCanonicalRecipients | internal/service/send_suppression.go:273-286 | The query grows by exactly the new non-empty canonical addresses, each once. |
| Suppression.CollectUnsuppressedCanonical | internal/service/send_suppression.go:202-231 | The second query asks for exactly the canonical addresses still reachable, each once. |
| Suppression.AllRemainingIsUnsuppressed | internal/service/send_suppression.go:169-231 | Those are exactly the canonical recipients the first level did not suppress. |
| Suppression.ProjectSuppressionBatch | internal/service/send_suppression.go:288-317 | The projection is the first-level verdict, To with order and multiplicity, CC and BCC as subsequences. |
| Suppression.Evaluation.ApplyTypeOptOuts | internal/service/send_suppression.go:233-247 | In place, flags exactly the unsuppressed opted-out recipients and filters the copies, touching nothing else. |
| Suppression.SuppressionBatchEvaluator.EvaluateMany | internal/service/send_suppression.go:249-271 | One query for exactly the canonical recipients of all inputs, and the first-level verdict of every input. |
| Suppression.SuppressionBatchEvaluator.EvaluateManyForType | internal/service/send_suppression.go:169-200 | Two exact queries and, for every input, the pointwise verdict; fails iff a store fails. |
| Suppression.SuppressionBatchEvaluator.EvaluateForType | internal/service/send_suppression.go:60-134 | The same verdict and queries for one input, by its own pass. |
| SendPersistence.QueueKeepsInStep | internal/service/send_persistence.go:45-66 | A queued email leaves emails, jobs and events one to one, job and email sharing the tracking id. |
| SendPersistence.SuppressKeepsInStep | internal/service/send_persistence.go:90-107 | Likewise for a suppressed email, which has an event and no job. |
| SendPersistence.SendPersistenceWriter.CreateQueued | internal/service/send_persistence.go:29-66 | Email, job and event together, or nothing if any statement fails. |
| SendPersistence.SendPersistenceWriter.CreateSuppressed | internal/service/send_persistence.go:80-107 | Email and event together, or nothing. |
| Sending.SendKeepsInStep | internal/service/send.go:293-371 | Every send keeps emails, jobs and events in step, whatever fails. |
| Sending.SendConserves | internal/service/send.go:293-371 | The store gains one email and event per entry that did not fail and one job per accepted one; failures leave nothing, and nothing stored changes. |
| Sending.EntriesAreRows | internal/service/send.go:293-371 | The new emails are, one by one, those of the entries that did not fail, with their recipient, copies, status and tracking id. |
| Sending.EntriesAreLogged | internal/service/send.go:293-371 | Every new job is that of an accepted entry and carries the message's adapter, every new event that of a written entry and the reason of its verdict. |
| Sending.TrackableIff | internal/service/send.go:337-368 | A reported tracking id leads to an email iff its entry did not fail. |
| Sending.EntriesReportRecipients | internal/service/send.go:337-368 | Entry k reports recipient k with the outcome its verdict calls for or a failure. |
| Sending.OutcomesAreForetold | internal/service/send.go:293-371 | With fresh ids each outcome is known beforehand from the verdict and the statements that fail. |
| Sending.SendToRecipients | internal/service/send.go:278-383 | An error iff nothing was persisted; partial iff some entry failed. |
| Sending.StatusIsDocumentedIff | internal/service/send.go:373-381 | The response status is the documented one iff no entry was suppressed or some entry failed. |
| Sending.SendStatusIsDocumentedIff | internal/service/send.go:278-383 | Said before the loop: iff no recipient is suppressed or the statements of some recipient fail. |
| Sending.SuppressedSendIsCalledAccepted | internal/service/send.go:373-381 | A concrete send with one recipient queued and one suppressed is called accepted, and documented as partial. |
| Sending.Send | internal/service/send.go:203-383 | Template by its own locale rule, rendering, policy, verdicts, then the loop, with the exact store and entries; nothing is written when anything before the loop fails. |
| Sending.PolicySparesLiveWorkspaces | internal/service/send.go:400-402 | Outside a test workspace the policy changes nothing. |
| Sending.PolicyInTestWorkspace | internal/service/send.go:393-427 | In a test workspace a message is refused iff the configured recipients normalise to nothing; otherwise they replace all its recipients, or are appended to its normalised To, as the type's policy says if it has one, else the workspace's. |
| Sending.ReplacementIgnoresTheRequest | internal/service/send.go:393-427 | Where the policy replaces, what a request asks for makes no difference. |
| Sending.SendDeliversTheRequest | internal/service/send.go:281-329 | Outside a test workspace every new email goes to a recipient of the request, with the unsuppressed of its CC as CC and of its BCC as BCC, its body and its own tracking id, queued unless something stands against the recipient. |
| Sending.TestMailStaysInside | internal/service/send.go:281-329 | In a test workspace that does not append, every new email goes to a configured recipient and has no copies. |
| Sending.SendPrepared | internal/service/send.go:281-383 | Evaluation and loop of one effective message are that message judged on its own and persisted. |
| SendingBatch.EffectiveInputs | internal/service/send_batch.go:233-245 | The policy is applied to every item, and fails as a whole iff it fails for one. |
| SendingBatch.MarkCopies | internal/service/send_batch.go:269-298 | The CC/BCC pass keeps every address flagged exactly as its own verdict says, even when it is To elsewhere. |
| SendingBatch.PrimeStatuses | internal/service/send_batch.go:233-302 | The primed table covers exactly the addresses of all items and flags each iff its verdict does. |
| SendingBatch.UnflaggedIsKept | internal/service/send_batch.go:508-523 | Filtering by the primed table keeps what the single evaluator keeps. |
| SendingBatch.BatchRefinesSingle | internal/service/send_batch.go:304-411 | For every message whose recipients were primed the batch reports the entries of a single send and leaves its store, body included, up to suppression reasons. |
| SendingBatchRun.TemplateCache.TemplateForLocale | internal/service/send_batch.go:139-166 | Always the answer of the uncached resolver for the effective locale; the pre-seeded entry is never read when it came from a default. |
| SendingBatchRun.LocalesAgreeIff | internal/service/send_batch.go:139-166 | Exactly when the batch resolves the locale that Send resolves, as a condition on the two locale strings. |
| SendingBatchRun.BlankLocaleDiffers | internal/service/send_batch.go:158-166 | A locale of one space is no locale to the batch and a locale to Send. |
| SendingBatchRun.FinalizeReports | internal/service/send_batch.go:480-506 | What each item status says of the work, failed iff nothing was persisted, and the tracking id is the first recipient's. |
| SendingBatchRun.ReportedIdIsTrackableIff | internal/service/send_batch.go:472-506 | A reported id leads to an email iff the guard of the item's first write holds in the store before it. |
| SendingBatchRun.PartialItemLeadsNowhere | internal/service/send_batch.go:472-506 | A concrete item of two recipients whose first commit fails is partial and reports an id of no email. |
| SendingBatchRun.ProcessRecipients | internal/service/send_batch.go:396-478 | The loop sends from the table and counts failures and the first entry. |
| SendingBatchRun.ExecuteSendPlan | internal/service/send_batch.go:304-361 | The item is handled as a single send with its effective locale, and as Send itself, template included, wherever both resolve the same locale; it keeps the store in step and reports truthfully. |
| SendingBatchRun.ItemIsDelivered | internal/service/send_batch.go:304-478 | Outside a test workspace an item's email goes to its recipient, with the unsuppressed of its CC as CC and of its BCC as BCC, the body rendered from the template of its locale and the tracking id drawn for it. |
| SendingBatchRun.TestItemStaysInside | internal/service/send_batch.go:339-361 | In a test workspace that does not append, an item's emails go to configured recipients and have no copies. |
| SendingBatchRun.OverallIsRight | internal/service/send_batch.go:220-228 | Failed iff there are items and none persisted anything, accepted iff nothing failed, partial otherwise. |
| SendingBatchRun.SendBatch | internal/service/send_batch.go:168-231 | Every item in turn as ExecuteSendPlan says, in the store it finds; results in order, counters partitioning the items, overall status as above; no write on error. |
| Workspaces.PageIsComplete | internal/adapter/postgres/workspace_repo.go:91-134 | A page and the rest after its cursor are exactly what was left, and there is a cursor iff more than the clamped limit is left. |
| AdapterAccess.SelectableIsVisible | internal/service/adapter_access.go:144-192 | Every selection accepted for an ordinary workspace is visible to it. |
| AdapterAccess.SystemSelectsFreely | internal/service/adapter_access.go:144-152 | System workspaces and global types may select anything. |
| AdapterAccess.OrdinarySelectsIff | internal/service/adapter_access.go:144-192 | What an ordinary workspace may select, both ways: own and global adapters with a fitting identity, shared ones with the grant their type asks for, nothing else. |
| AdapterAccess.RefusalsAre | internal/service/adapter_access.go:144-192 | An identity is asked for iff a shared SES or SMTP adapter is selected without one; not found iff adapter, owner or an identity looked at does not exist. |
| AdapterAccess.VisibleIsSelectableIff | internal/service/adapter_access.go:68-125 | A visible shared SES or SMTP adapter is selectable iff with one of its granted email identities. |
| AdapterAccess.WorkspaceSeesIff | internal/service/adapter_access.go:68-125 | What a workspace sees of an adapter, both ways, and whether as shared or editable. |
| AdapterAccess.GlobalSeesIff | internal/service/adapter_access.go:68-85 | The global view sees global adapters only, and may edit them. |
| AdapterAccess.AllTargetsAllowedIff | internal/service/adapter_access.go:343-371 | All ordinary workspaces can be granted iff they fit on one page. |
| AdapterAccess.SmallTenantIsGrantable | internal/service/adapter_access.go:343-371 | With at most 100 workspaces in the environment exactly its ordinary workspaces can be granted. |
| AdapterAccess.LargeTenantIsCut | internal/service/adapter_access.go:347-364 | In a tenant of 101 ordinary workspaces one is refused as a target. |
| AdapterAccess.FirstOccurrencesAreFirst | internal/service/adapter_access.go:355-370 | The accepted ids are the requested ones, each once, in order of first occurrence. |
| AdapterAccess.ValidWorkspaceTargets | internal/service/adapter_access.go:343-371 | The two loops accept exactly the allowed requests and deduplicate them. |
| AdapterAccess.SubtractMember | internal/service/adapter_access.go:417-433 | An id is revoked iff it was granted and is no longer requested. |
| AdapterAccess.ReplaceGrantsExactly | internal/service/adapter_access.go:195-226 | A successful Replace grants exactly the requested ids once, touches no other grant, and drops no workspace in use. |
| AdapterAccess.ReplaceAdapterSucceedsIff | internal/service/adapter_access.go:195-226 | A Replace succeeds iff the adapter's own system workspace asks, for a Gmail adapter, for allowed targets, and no workspace that loses its grant uses it. |
| AdapterAccess.GrantInUseIff | internal/service/adapter_access.go:213-222 | Refused as in use iff usage by a workspace that loses its grant is all that is wrong. |
| AdapterAccess.ReplaceIdentityGrantsExactly | internal/service/adapter_access.go:229-267 | Likewise for sender identities. |
| AdapterAccess.ReplaceIdentitySucceedsIff | internal/service/adapter_access.go:229-267 | Likewise for email identities of SES and SMTP adapters. |
| AdapterAccess.RunKeepsInv | internal/service/adapter_access.go:144-267 | Every stored selection still passes validation, and all grants are well targeted, over every run. |
| AdapterAccess.SharedUseIsGranted | internal/service/adapter_access.go:144-192 | In every run an ordinary workspace using a shared adapter holds the adapter's or its identity's grant. |
| AdapterAccess.SharedUseStaysInEnvironment | internal/service/adapter_access.go:195-267 | In every run users of a shared adapter share tenant and environment with its owner, though validation checks the tenant only. |
| AdapterAccess.GrantsStayInTenant | internal/service/adapter_access.go:343-371 | In every run grants target only ordinary workspaces of the owning system workspace's tenant and environment. |
| AdapterAccess.AdapterAccessService.ReplaceAdapterWorkspaceAccess | internal/service/adapter_access.go:195-226 | The method is the machine's step, with the source's error for each rejected case. |
| AdapterAccess.AdapterAccessService.ReplaceIdentityWorkspaceAccess | internal/service/adapter_access.go:229-267 | Likewise for sender identities. |
| Onboarding.AtMostOneSetupCommits | internal/service/onboarding.go:78-292 | Over every interleaving with every failure: at most one call commits, success is reported by exactly that one, and the database is the starting one or that plus one complete set, the latter only if it had no member. |
| Onboarding.CompleteSetMeans | internal/service/onboarding.go:104-250 | One member, superadmin everywhere and admin of the one tenant, whose production and test system workspaces share a logical id. |
| Onboarding.SetupIsFirstUseOnly | internal/service/onboarding.go:91-99 | Once there is a member no later statement of any call writes anything. |
| Onboarding.LockHolderIsUndisturbed | internal/service/onboarding.go:84-87 | While a call holds the lock no others change the database or the call. |
| Onboarding.AuditIsBestEffortIff | internal/service/onboarding.go:257-286 | With other calls interleaved, a failed audit row loses nothing iff the rollback to the savepoint and the commit succeed, and otherwise everything is lost. |
| Onboarding.FailedRollbackLosesTheSet | internal/service/onboarding.go:257-286 | A run whose audit INSERT and ROLLBACK TO SAVEPOINT fail, and nothing else, loses the six inserted rows. |
| Onboarding.SavepointFailureLosesTheSet | internal/service/onboarding.go:257-286 | A failed SAVEPOINT always makes the call fail with nothing written. |
| Onboarding.OnboardingService.Setup | internal/service/onboarding.go:78-292 | Success, conflict and failure as conditions on the failures and the members, the exact new database, and a trace showing it to be a run of the machine. |
| Onboarding.OnboardingService.InsertPair | internal/service/onboarding.go:219-250 | The loop inserts the production and test system workspaces under one logical id, or stops at a failure. |
| ChainCaching.CacheIsCoherent | internal/resolution/cache_invalidator.go:34-75 | In every run in which each change is followed by an invalidation removing at least the chains it affects, a cached chain of a live workspace equals the fresh one. |
| ChainCaching.FreshChainIs | internal/resolution/chain.go:52-83 | A system workspace's chain is itself, an ordinary one's goes on to the one system workspace of its tenant and environment and does not exist without it. |
| ChainCaching.CoherentAfterDeletesIff | internal/resolution/cache_invalidator.go:34-36 | After a tenant change and any deletions, coherent iff no workspace whose chain is left changed its kind or, if ordinary, its system workspace. |
| ChainCaching.FailedDeletesMatterIff | internal/resolution/cache_invalidator.go:52-75 | After the listed invalidation, coherent iff no chain whose Delete failed belongs to an affected workspace. |
| ChainCaching.InvalidationIsAStep | internal/resolution/cache_invalidator.go:52-75 | A tenant change and whatever its invalidation left are one step of the runs, if no affected chain is left. |
| ChainCaching.FailedDeleteLeavesStale | internal/resolution/cache_invalidator.go:34-36 | A concrete tenant change whose deletion of one chain fails leaves that chain stale. |
| ChainCaching.ResolutionCache.Resolve | internal/resolution/chain.go:41-91 | With a coherent cache the answer is the fresh one whatever the cache does, and coherence is kept. |
| ChainCaching.PageAdvances | internal/resolution/cache_invalidator.go:55-73 | Each page moves the cursor past exactly its own rows, the last past all. |
| ChainCaching.ResolutionCache.InvalidateEnvironment | internal/resolution/cache_invalidator.go:53-74 | The loop terminates and removes exactly the environment's chains whose deletion succeeds. |
| ChainCaching.ResolutionCache.InvalidateTenantWorkspaces | internal/resolution/cache_invalidator.go:52-75 | Over any number of pages exactly the tenant's chains go; if a listing fails midway the fallback removes every chain; and from a cache coherent before a change confined to the tenant, whatever listings fail, it ends coherent when no cached chain is undeletable and the fallback works. |
| ChainCaching.ResolutionCache.InvalidateGlobal | internal/resolution/cache_invalidator.go:99-103 | Three independent deletions, each ignored when it fails. |

## Left out

- HTTP routing, handlers, providers, encryption, MJML, metrics, logging, webhooks: plumbing around the cores.
- Time: TTLs (expiry is a step that drops an entry), timeouts, timestamps, identifiers beyond being fresh.
- EventProcessing.WorkerTransition: the queue worker appears only as the status writes it makes (internal/adapter/river/send_worker.go); its retries and provider calls would add no status.
- EventProcessing.RowsStayJustified: `rows` lists the accepted insertions; that the table keeps one row per address, a later insertion replacing reason and source, is not modelled.
- EventProcessing.Run: emails are never deleted and provider message ids are fixed; PurgeWorkspaceRuntime is not part of this model.
- CodeInjectors.ResolveCodeInjectors: a callback is a function of the context entries, so one that writes the context itself, panics or times out (as opposed to failing) is not modelled, nor is the cache for static injectors.
- InjectorMerging.InjectorMerger.ResolveWithContext: the chain and the three store queries are one parameter that succeeds or fails; the init callback does not write resolved entries.
- InjectorContexts.InjectorContext: maps are values, so inner maps that Go copies share with their originals are not modelled as aliases, nor is the read-write lock.
- StaticCatalog and ResolveStaticPreview: catalogue views that would add easy members.
- Sending.Send: starts once tenant, workspace and adapter are settled; injectors and rendering are one function of the template that may fail, and the opt-out table is that of the template's type.
- SendPersistence.SendPersistenceWriter.CreateQueued: only the transactional path; the fallback without a pool, which has weaker guarantees, is not part of this model.
- SendingBatchRun.ExecuteSendPlan: injector merge and rendering of an item are one function of the template that may fail; error texts and external ids are not modelled.
- SendingBatchRun.SendBatch: template resolution is a fixed function during one batch, and its type does not depend on the locale, as in internal/resolution/template_resolver.go:73-82; a stale template cache entry with another type is not modelled, which could give an item recipients that were never primed.
- SendingBatch.BatchRefinesSingle: reasons of suppression events are excluded, because the CC/BCC pass overwrites them.
- AdapterAccess.RunKeepsInv: each operation is one atomic step and store failures are left out, so races between a grant check and its write are not modelled; workspaces, adapters and identities are fixed.
- ListAdaptersForWorkspace and the other listing views of adapter access: easy members.
- ChainCaching.CacheIsCoherent: a change and its invalidation are one step, so a read between them is not modelled.
- ChainCaching.CoherentAfterDeletesIff: workspace ids are never reused, so a cached chain of a workspace that was not live before the change is not one of a live workspace after it.
- BounceSuppression.HardBounceBlocksIff: rows removed by an administrator, and reasons other than a bounce or complaint, are not modelled.
- Onboarding.AtMostOneSetupCommits: unique constraints make an INSERT fail like any other reason; a COMMIT that reports an error wrote nothing; the signing keys, names and policies of the rows are not modelled.
- `SendContextBuilder` in internal/service/send_context.go: a second copy of the batch resolution.
