# Verification of the conversion gateway

The gateway takes CRM webhooks, keeps one ledger row per event, hashes personal data, and uploads
conversions in batches to an ad platform. This project models that pipeline in Dafny and proves what
its parts promise each other when they run side by side.

## How the model is built

- **Values first.** `Ledger` holds the three tables as one value, the effect of each ledger call as a
  function, and a transaction as a list of calls of which one that raises undoes all. `Transactions`
  and `Delivery` do the same for the upload stage.
- **Objects that change state.** `Store.LedgerStore`, `Queue.MemoryQueue`, `Batcher.Batcher`,
  `Uploader.Uploader` and `Platform.MockPlatform` are classes with the fields and methods of the
  source, and `Stages` holds the ingest, worker, reconcile and replay procedures. Every method is
  proved to do exactly what the value functions say, and says besides, column by column, what it wrote.
- **What the functions mean.** `Fields`, `NormalForms`, `Decisions`, `Outcomes`, `Claims`, `RequestRows`,
  `ErrorDetails` and `PlatformRules` describe results by the inputs alone, without the functions that
  compute them, and prove that these meet the description on every input.
- **The whole system.** `Pipeline` is a state machine over the shared ledger and queue with any number
  of uploaders. One action is one atomic step: a `session_factory.begin()` block, a queue call, a
  request, a clock tick or a crash. Time, the platform's verdicts, lost responses, redelivery, lock
  sets and the interleaving are all free, and no step is ruled out for raising. `SoloDelivery` shows
  that what an uploader left alone with its batch can bring about, step by step, is exactly what its
  one-call form does. Runs are lists of actions; theorems that end in `InEveryRun` or `InTimelyRuns`
  hold after every one of them. `StageRuns` shows that one call of a stage procedure is a run of the
  machine, so that these theorems hold for the procedures too.

## What is proved

- *Audit trail.* In every run each log is a legal path from RECEIVED to the row's status, both counters
  and the status reason can be read off it, nothing leaves SUPPRESSED, and an event has exactly one
  open dead-letter record when it is DEAD_LETTERED and none otherwise. The past never changes.
- *No silent loss.* A step leaves a QUEUED event with nothing that would ever move it exactly when it
  loses the publish of a lead, or commits a replay whose message has already been consumed. The second
  accident is real: `dlq_replay` publishes inside its transaction. `ReplayRaceStrands` builds the losing
  end of a run from any replayable state with an idle queue, `ReplayLosesEvent` a whole run.
- *Books.* The platform's acceptances of an event are one if its row is UPLOADED, plus those whose
  response or settlement was lost, plus those still being settled.
- *Exceptions.* A claim never raises in any run. `RaisesExactlyWhen` names the only steps that do: a
  retry, a giving up or a settlement of a batch whose rows another holder has moved on, or that holds
  an event twice.
- *Lease.* While each claimed row has one holder no transaction of any process raises, and a step ends
  that state exactly when it claims a row that is still held. In a reachable state with an uploader
  ready to claim, no possible claim does so if and only if every held row was claimed or renewed less
  than `stale_after` ago; "timely" below means that this holds whenever somebody claims.
- *Straight paths.* A step dead-letters an event from FAILED_RETRYABLE exactly when it gives up or
  settles, without raising, a batch with such a row, or settles one that holds an event twice; a run
  does so exactly when one of its actions is such a step, and a timely run never.
- *Budget.* In timely runs attempts and requests per event are bounded, and an explicit measure falls
  by one with every row sent until something is ingested or replayed.
- *From the webhook to the row.* In every run a row shows, column by column, what its own lead said, and
  digests are only there when that lead granted both of its signals. Handling a lead's first message
  suppresses it exactly without both consents, processes it with its own digests exactly when it is
  usable, and otherwise rejects it with exactly what is wrong with it.
- *From the row to the platform.* In every run each row that an uploader holds, and each dead-letter
  payload, is the request row of its own lead, every value under its own key.
- *Verdicts.* An answered row ends by its own answer, a refused or given-up request with all of its rows;
  records, classes, codes and the counts of the report follow.
- *Provenance and acceptability.* Stored digests are those of the identifiers the lead arrived with, or
  for a click-id event those of the empty record; no row that an uploader holds can be refused over
  identifiers or consent.
- *One batch.* Whatever sequence of outcomes it meets, each row's log gains one pair of lines per
  retry and one final line decided by its own answer or by the verdict on the request. In every timely
  run, whatever other processes do meanwhile, a row on attempt k shows its claim and k - 1 such pairs.
- *Round trip.* Parsing the platform's rendered answer gives back its verdicts, row by row.
- *Normal forms.* Two accepted e-mails normalise alike exactly when they reach the same inbox, and the
  exact inputs on which e-mail and name normalisation are not stable under repetition are given.

## Where the code differs from what one might state

- `normalise_email` and `normalise_name` are not idempotent; `EmailIsStableIff` and `NameIsStableIff`
  say exactly when a second pass changes the result. `". a@gmail.com"` and the name `"d r"` are inputs
  on which it does (`EmailChangesAgain`, `NameDisappears`).
- One illegal transition in `apply_result` undoes the settlement of the whole batch.
  `SettlementCommitsIff` says exactly when that happens, for any batch and any rows: if all rows are
  UPLOADING, each event must be in the batch once, or twice with a retryable verdict and then a
  permanent one. `NothingRaisesInTimelyRuns` says that it does not happen in timely runs.
- The table allows leaving SUPPRESSED, and the comment above it calls the state replayable, but no code
  does that; `IsExplained` carries the fact through every run.
- The table allows FAILED_RETRYABLE to DEAD_LETTERED. `StraightExactlyUntil` gives the exact steps that
  take this edge. `Counterexamples` holds runs from the empty system in which two uploaders do so after
  one lost its lease, in which a single uploader does so after claiming again a row that waits in its
  own batcher, and in which either way the platform accepts one event twice.
- A click-id event that `reconcile` republishes is hashed from empty identifiers, hence the second case
  of `ComeFrom`.
- A response whose error objects are not JSON objects escapes `upload` as an exception that is neither
  transient nor permanent; the parser's `Uncaught` outcome stands for it.

## Model

| member | source | states |
|---|---|---|
| Normalise.DotsAndCutCommute | src/gateway/normalise/email.py:30-32 | dropping the dots first or cutting at the plus first gives the same mailbox |
| Normalise.SameEmailIffSameInbox | src/gateway/normalise/email.py:13-37 | two accepted addresses have one normal form iff domain and mailbox agree, with the dot and plus rules at Google domains only |
| Normalise.EmailIsStableIff | src/gateway/normalise/email.py:13-37 | normalising a normal form returns it, except exactly at Google domains when the dotless local part starts with a blank |
| Normalise.EmailChangesAgain | src/gateway/normalise/email.py:13-37 | ". a@gmail.com" takes two passes to settle |
| Normalise.NamesConcatenate | src/gateway/normalise/name.py:39-55 | the form of two names joined by a blank is the concatenation of both forms, an empty one counting as no text |
| Normalise.NameIsStableIff | src/gateway/normalise/name.py:39-55 | the form is what the words of the input that are neither titles nor suffixes spell together; a second pass returns it iff that text is no title or suffix itself, and rejects it otherwise |
| Normalise.NameDisappears | src/gateway/normalise/name.py:39-55 | "d r" becomes "dr", and "dr" is rejected |
| Normalise.StreetIsStable | src/gateway/normalise/address.py:13-26 | street normalisation is idempotent |
| NormalForms.EmailFormIff | src/gateway/normalise/email.py:13-37 | the exact addresses accepted and the form of each: one `@` with text on both sides, dots and plus parts ignored at gmail.com and googlemail.com only |
| NormalForms.WordOfName | src/gateway/normalise/name.py:16-55 | exactly the listed titles and suffixes drop out of a name; every other word stays, joined without a blank |
| NormalForms.CityFormIff | src/gateway/normalise/address.py:29-43 | a city or region becomes its lower-cased words with single blanks, and is refused exactly when it has none |
| NormalForms.StreetFormIff | src/gateway/normalise/address.py:13-26 | a street becomes its words without case and punctuation, and is refused exactly when it has none |
| NormalForms.PostalFormIff | src/gateway/normalise/address.py:46-54 | a postal code is exactly the text between its blank margins |
| NormalForms.CountryFormIff | src/gateway/normalise/address.py:57-68 | a country is accepted exactly when two letters are left, and comes out in upper case |
| NormalForms.PunctuationIsTheRest | src/gateway/normalise/name.py:29-36 | of ASCII, punctuation is every visible character that is no letter, digit or symbol |
| Fields.StoredFields | src/gateway/normalise/identifiers.py:107-173 | each digest is that of its own field's normal form and each plain field its own normal form, or absent when the field fails; no other set of identifiers fits |
| Fields.ReportedFields | src/gateway/normalise/identifiers.py:153-171 | the rejections are exactly the failing fields with their reasons, country first, and last a record that identifies nobody |
| Fields.PhoneIsParsed | src/gateway/normalise/phone.py:9-47 | which number and region the phone library is asked about, and when it is not asked |
| Fields.SameDigestIffSameInbox | src/gateway/normalise/email.py:13-37 | with a hash that tells texts apart, two e-mail digests agree exactly when both addresses reach one inbox |
| Identifiers.AcceptedIff | src/gateway/normalise/identifiers.py:115-173 | no rejection is reported iff every present field normalises and the record holds a match key |
| Identifiers.BuildUserIdentifiers | src/gateway/normalise/identifiers.py:115-173 | the builder attempts every field in order and reports all rejections; it accepts under the condition above |
| Identifiers.CollectRejections | src/gateway/normalise/identifiers.py:153-155 | one rejection per present field that failed, in the order of the attempts, none for an absent field |
| ConversionRows.MatchKeyIffIdentifiersSent | src/gateway/upload/conversion.py:53-80 | a hashed record has a match key iff its request row sends at least one identifier |
| ConversionRows.BuildUserIdentifierList | src/gateway/upload/conversion.py:53-80 | the list built field by field: e-mail, phone, and the address only when complete |
| RequestRows.DigestsAreCarried | src/gateway/upload/conversion.py:53-80 | e-mail, phone and a complete address in this order, each only when there, each value under its own key |
| RequestRows.RequestRowsInEveryRun | src/gateway/upload/conversion.py:23-50 | in every run, each held row and each dead-letter payload is the request row of its own lead: action, time, order id, value, currency, click id, digests and consent; each record has that lead's source and action and the class and code of its reason |
| Platform.IdentifierRefusalIff | mock_ads_api/app.py:77-110 | the exact condition under which the platform refuses a gateway row over identifiers or consent |
| PlatformRules.AcceptedIff | mock_ads_api/app.py:77-110 | the platform takes a row exactly when nothing is wrong with its action, time, identifiers, hex digests or consent |
| PlatformRules.ActionReadsBack | mock_ads_api/app.py:73-74 | the platform reads the gateway's conversion action back out of its resource name |
| PlatformRules.DateTimeByPosition | mock_ads_api/app.py:31-32 | the accepted time texts, position by position |
| Platform.MockPlatform.Upload | mock_ads_api/app.py:120-197 | exactly the rows without an error are kept, in order, and the answer shows every verdict |
| Platform.MockPlatform.Report | mock_ads_api/app.py:159-183 | the pass over the rows: one result each, one error per refused row with its index |
| Client.RenderThenParse | src/gateway/upload/client.py:87-122 | parsing the answer rendered for any verdicts gives back these verdicts, with code and index of every row |
| Client.ParseBatchResponse | src/gateway/upload/client.py:87-115 | the parser, loop by loop, on any JSON body: later details override earlier ones and errors without an index are skipped |
| Client.WrongLengthIsRefused | src/gateway/upload/client.py:95-97 | a body whose results are not a list of the length sent is refused |
| ErrorDetails.RowsOfResponse | src/gateway/upload/client.py:87-115 | for any body that can be read: a row is accepted iff its result is not empty, and a refused one has code and message of the last error about it, or the standard ones |
| ErrorDetails.FirstPointerDecides | src/gateway/upload/client.py:118-122 | the first path element that names a row of the request decides which row an error is about |
| Status.EntersFrom | src/gateway/models/status.py:43-58 | which states each state is entered from; exactly REJECTED and UPLOADED are never left |
| Status.MovesOn | src/gateway/models/status.py:43-58 | an event only moves on, but for a retry and the two returns to the queue |
| Store.LedgerStore.MoveTo | src/gateway/ledger.py:37-60 | the move is made iff the table allows it, with status, reason and log line together; otherwise nothing changes |
| Store.LedgerStore.RecordValidated | src/gateway/ledger.py:80-131 | a new id gets a row that shows the lead's own columns, with three log lines; a known id changes nothing |
| Store.LedgerStore.RecordRejected | src/gateway/ledger.py:134-166 | a new id gets a REJECTED row, a known id changes nothing |
| Store.LedgerStore.RecordProcessed | src/gateway/ledger.py:169-175 | digests and PROCESSED together, or the exception |
| Store.LedgerStore.ClaimRow | src/gateway/ledger.py:223-239 | one claim: move to UPLOADING or the stale-claim line, and one more attempt, now |
| Store.LedgerStore.RecordRetryAttempt | src/gateway/ledger.py:243-249 | two log lines and one attempt, or the exception |
| Store.LedgerStore.SelectForUpload | src/gateway/ledger.py:207-222 | the claimable unlocked rows received first, up to the limit, and no others |
| Store.LedgerStore.ClaimForUpload | src/gateway/ledger.py:191-240 | every selected row is claimed, and the claim never raises |
| Store.SelectionIsLegal | src/gateway/ledger.py:207-240 | claiming what the query selected is always permitted, row by row |
| Store.Ordered | src/gateway/ledger.py:218-219 | the first rows in key order, up to the limit, each once |
| Store.LedgerStore.FindStuckQueued | src/gateway/ledger.py:178-188 | exactly the QUEUED rows received before the threshold, oldest first |
| Store.LedgerStore.DeadLetterEvent | src/gateway/dlq/store.py:24-58 | the move and the record with the whole history happen together, or neither does |
| Store.LedgerStore.ReplayRecord | src/gateway/dlq/store.py:109-142 | replays iff the record is open and its event DEAD_LETTERED; then row and record change together |
| Store.LedgerStore.ListDeadLetters | src/gateway/dlq/store.py:77-93 | the latest records the filter selects, latest first, up to the limit, none left out for an older one |
| Store.OwnColumnsSelect | src/gateway/dlq/store.py:61-93 | every criterion of a filter counts, and times from `since` on, before `until` |
| LedgerInvariants.ChangeKeepsSound | src/gateway/ledger.py:37-60 | every ledger call keeps the log a legal path to the status, counters and status reason its functions, and the promised columns filled |
| LedgerInvariants.StepKeepsSound | src/gateway/dlq/store.py:24-58 | every call keeps all rows sound, each record a prefix of its log ending in the dead-lettering it records, histories growing, and one open record iff DEAD_LETTERED |
| LedgerInvariants.RunKeepsSound | src/gateway/ledger.py:37-249 | so does every transaction, which moreover only ever continues what was there |
| Settlement.RowsRunApart | src/gateway/ledger.py:37-60 | a transaction of updates commits iff for each row the calls on it, in order, are legal on that row alone; then each row is what these calls make of it, repeated rows included |
| Settlement.SettlementCommitsIff | src/gateway/upload/uploader.py:201-252 | any settlement commits iff there is one result per row and each event takes its verdicts: one on an UPLOADING row, a retryable then a permanent one, or one permanent one on a FAILED_RETRYABLE row |
| Settlement.UploadingBatchSettlesIff | src/gateway/upload/uploader.py:122-134 | a batch of UPLOADING rows settles iff each event is in it once, or exactly twice with a retryable and then a permanent verdict |
| Settlement.RetryCommitsIff | src/gateway/upload/uploader.py:155-162 | recording a retry commits iff every existing row of the batch is UPLOADING, repeated or not |
| Settlement.GivingUpCommitsIff | src/gateway/upload/uploader.py:256-279 | giving up commits iff every existing row of the batch is UPLOADING or FAILED_RETRYABLE |
| Delivery.OwnedBatchIsSettled | src/gateway/upload/uploader.py:148-279 | a batch of distinct UPLOADING rows never raises; each row ends with its retries and the change its own answer calls for; the report counts the rows by the status they ended in; other rows are untouched |
| Outcomes.EveryRowIsAnswered | src/gateway/upload/uploader.py:201-252 | accepted rows end UPLOADED, TOO_RECENT_CONVERSION ends FAILED_RETRYABLE, every other code, a missing one as UNKNOWN, ends DEAD_LETTERED and recorded as partial with the row that was sent; exactly these are recorded and counted |
| Outcomes.EveryRowIsCondemned | src/gateway/upload/uploader.py:256-279 | a verdict on the request dead-letters every row under its class, reason and code, each recorded with its own row, all counted as dead-lettered |
| Outcomes.DeliveryConcludes | src/gateway/upload/uploader.py:148-199 | whatever its requests meet, a batch ends as the last one says, and the report and the records with it |
| FlightLogs.SettledInTimelyRuns | src/gateway/upload/uploader.py:201-252 | in every timely run, the settling step answers every row of the batch on its own |
| FlightLogs.GivenUpInTimelyRuns | src/gateway/upload/uploader.py:180-197 | in every timely run, giving up condemns every row under the verdict on the request |
| Delivery.BatchLogsAreExact | src/gateway/upload/backoff.py:44-77 | a row's log gains one pair of lines per request but the last, then one final line; requests stay within the policy |
| Delivery.RetriesAddPairs | src/gateway/ledger.py:243-249 | k retries add exactly k pairs of lines and k attempts and leave the row in UPLOADING |
| FlightLogs.HeldLogsInTimelyRuns | src/gateway/ledger.py:223-249 | in every timely run, the log of a held row after n recorded retries is the log its claim left and n pairs of lines, whatever other processes did |
| FlightLogs.FlightLogsInTimelyRuns | src/gateway/upload/uploader.py:148-199 | so for every row in flight: on attempt k there are k - 1 pairs |
| FlightLogs.EndingAddsOneLine | src/gateway/upload/uploader.py:201-279 | the step that ends an owned flight commits and adds one line to each row, to the status its own answer or the verdict on the request calls for |
| Claims.EveryRowIsClaimedOrBuried | src/gateway/upload/uploader.py:88-118 | each selected row with fewer attempts than the ceiling is taken with its request row; every other is dead-lettered as poison with the attempts it had |
| Uploader.Uploader.ClaimRows | src/gateway/upload/uploader.py:88-118 | the claim transaction: claimed rows with the request rows described above, or an exception that leaves the tables as they were |
| Uploader.Uploader.KeepOrBury | src/gateway/upload/uploader.py:93-118 | rows above the attempt ceiling are dead-lettered, all others returned in order |
| Uploader.Uploader.ApplyResult | src/gateway/upload/uploader.py:201-254 | the settling loop equals the settling transaction, answers every row of an owned batch, reports the counts, and leaves nothing behind when it raises |
| Uploader.Uploader.RecordRetries | src/gateway/upload/uploader.py:155-162 | the retry transaction over the batch, or nothing |
| Uploader.Uploader.DeadLetterBatch | src/gateway/upload/uploader.py:256-279 | every loaded row dead-lettered with its own request row, and all rows counted as dead-lettered, or nothing |
| Uploader.Uploader.UploadBatch | src/gateway/upload/uploader.py:148-199 | the retry loop delivers exactly as the recursive specification of one batch |
| Uploader.Uploader.ClaimAndBatch | src/gateway/upload/uploader.py:122-134 | what waited and what was claimed waits on or leaves as one batch, in order, when full or due |
| Uploader.Uploader.RunOnce | src/gateway/upload/uploader.py:122-137 | over any cycles, sent plus waiting equals claimed, in order; nothing overdue waits on; the tables change as claim and delivery say |
| Batcher.Batcher.Add | src/gateway/upload/batcher.py:25-32 | the batch comes back exactly when it is full; the time is that of the oldest item |
| Batcher.Batcher.FlushIfDue | src/gateway/upload/batcher.py:34-40 | everything comes back exactly when the oldest item waited long enough |
| Decisions.DecisionIsRight | src/gateway/processor.py:65-102 | for every event and record: suppressed iff a consent is missing, over the first such signal; processed with stored digests for an empty record; else processed with the record's own digests iff it is usable, else rejected with exactly the obstacles |
| Decisions.ConsentIsRead | src/gateway/consent/gate.py:65-108 | which signal blocks and why, user data first |
| Decisions.MessageIsHandled | src/gateway/processor.py:55-102 | the row after its message: status, reason, digests and log line of that decision, and no other row changed |
| Processor.ProcessingMoves | src/gateway/processor.py:55-102 | a delivered message never raises; a QUEUED event always leaves QUEUED, to the state the outcome names, and no other row changes |
| Processor.ProcessingIsJustified | src/gateway/processor.py:65-100 | digests are stored only with both consents granted and a usable match key |
| Processor.EmptyMessageRejectedIff | src/gateway/processor.py:73-98 | an identifier-free message is rejected iff consent is given and the event is not recoverable; a recoverable event always ends PROCESSED or SUPPRESSED |
| Queue.QueueConserves | src/gateway/queue/memory.py:28-54 | receive and nack neither lose nor copy a message, ack removes exactly one, unknown acks nothing |
| Queue.ReceivedInOrder | src/gateway/queue/memory.py:28-40 | messages are handed out from the front, in order, and nothing else moves |
| Queue.PublishedGoesLast | src/gateway/queue/memory.py:23-26 | a new message comes after all that were ready, as its first attempt |
| Queue.NackedGoesLast | src/gateway/queue/memory.py:46-54 | a message given back comes after all that were ready, with one attempt more |
| Queue.MemoryQueue.Receive | src/gateway/queue/memory.py:28-40 | the oldest messages in order, as many as asked for and there, under ack ids never used before |
| Queue.MemoryQueue.NackDelivery | src/gateway/queue/memory.py:46-54 | back of the line with one more attempt, or nothing when not in flight |
| Stages.Ingest | src/gateway/api/routes.py:181-224 | row first, then one message with the lead's id and identifiers; a duplicate gets the stored status and publishes nothing |
| StageRuns.IngestIsRun | src/gateway/api/routes.py:181-224 | one call is the machine's ingest, then its publish or its lost publish |
| Stages.ProcessMessage | src/gateway/processor.py:55-102 | the worker's branches carry out the right decision and report it |
| Stages.HandleDelivery | src/gateway/worker.py:24-45 | commit then ack; an exception undoes what was processed and gives the message back |
| StageRuns.HandlingIsRun | src/gateway/worker.py:24-45 | one call is processing and acking, or giving back |
| Stages.Reconcile | src/gateway/cli.py:107-160 | lists exactly the rows queued longer than the threshold, and publishes, in list order, one empty message for each that has a click id or digests |
| StageRuns.ReconcileIsRun | src/gateway/cli.py:107-160 | one call is one republishing action per message |
| Stages.DlqReplay | src/gateway/cli.py:211-242 | the latest matching records, at most 1000, are replayed one transaction after the other, with one message per replay |
| StageRuns.DlqReplayIsRun | src/gateway/cli.py:211-242 | one call is a publish and a commit for each candidate that can be replayed in turn |
| DeadLetters.DepthIsDeadLetteredCount | src/gateway/dlq/store.py:100-106 | the open depth of a source is the number of its DEAD_LETTERED events |
| DeadLetters.ReplayAllOpen | src/gateway/cli.py:229-242 | distinct open records are all replayed, whatever their order |
| DeadLetters.ReplayByFilterIsComplete | src/gateway/cli.py:222-242 | with at most 1000 matches, a second run of the same filter finds nothing to replay |
| AuditTrail.TablesSoundInEveryRun | src/gateway/ledger.py:37-60 | all of the ledger invariants hold in every reachable state |
| AuditTrail.PastNeverChanges | src/gateway/dlq/store.py:35-51 | first columns, log lines and records are never altered; a replayed record stays replayed |
| AuditTrail.NullTimeIffNoAttempt | src/gateway/ledger.py:238-239 | the attempt counter is zero iff the attempt time is null |
| AuditTrail.NoRowIsStranded | src/gateway/ledger.py:207-217 | over all states: a PROCESSED row is claimable at any time, UPLOADING and FAILED_RETRYABLE ones exactly when their delay has passed since the latest attempt in the log, others never |
| Leads.LeadColumnsInEveryRun | src/gateway/ledger.py:80-131 | in every run, a row that was not rejected shows its own lead's columns, and a hashed one a lead that granted both signals and can be matched |
| Leads.FirstMessageDecides | src/gateway/processor.py:55-102 | in every run, a lead's first message leaves its row suppressed, processed or rejected exactly as the lead calls for |
| Leads.NewLeadIsDecided | src/gateway/api/routes.py:181-224 | any new lead, once ingested, published, received and handled, shows that decision |
| Provenance.ProvenanceInEveryRun | src/gateway/api/routes.py:209-218 | every message names an ingested event and carries its identifiers or none |
| Provenance.DigestsInEveryRun | src/gateway/processor.py:73-100 | stored digests come from the lead's identifiers, or with a click id from the empty record; hashed events have digests and both consents |
| Provenance.NoOrphanMessages | src/gateway/processor.py:56-59 | the unknown-event branch is never taken |
| Provenance.RepublishedNeverRejected | src/gateway/cli.py:107-160 | once reconcile or a replay published for an event, no delivery of an identifier-free message ever rejects it |
| NoSilentLoss.StrandedExactlyBy | src/gateway/api/routes.py:204-222 | a step strands a queued event iff it is a lost publish or a replay committed after its message was consumed |
| NoSilentLoss.NoSilentLossInEveryRun | src/gateway/worker.py:34-45 | in every run, a queued event with nothing under way was struck by one of these two |
| Counterexamples.ReplayLosesEvent | src/gateway/cli.py:230-236 | publish before commit loses an event: a whole run, from the empty system and with no failed publish, that ends with an orphan |
| FirstDelivery.RepeatChangesNothing | src/gateway/ledger.py:63-77 | a later delivery of a known id, valid or not, leaves the whole state as it was |
| FirstDelivery.FirstDeliveryWins | src/gateway/ledger.py:80-166 | the first delivery's columns, log lines and identifiers last through every run; a first rejection is final |
| FirstDelivery.PublishedAtMostOnce | src/gateway/api/routes.py:209-222 | each ingested lead is published once, lost once or still to be published; other ids never |
| Acceptance.BooksBalanceInEveryRun | src/gateway/upload/uploader.py:148-254 | acceptances = UPLOADED + lost + not yet settled, for every event in every run |
| Acceptance.UploadedWasAccepted | src/gateway/upload/uploader.py:214-215 | UPLOADED was accepted; with nothing lost or pending, accepted once iff UPLOADED |
| Acceptance.RunCountsUploads | src/gateway/models/status.py:43-58 | UPLOADED is entered by its own change only and never left |
| Acceptance.AnswerIsFaithful | src/gateway/upload/client.py:108-115 | what the client reads as accepted is what the platform accepted |
| AcceptableRows.HashedRowIsAcceptable | src/gateway/upload/conversion.py:23-50 | the row of a sound hashed event is not refused over identifiers or consent, whatever actions are known |
| AcceptableRows.AcceptableInEveryRun | src/gateway/upload/uploader.py:111-117 | so is every row any uploader holds, in every run |
| StageRuns.CycleIsStep | src/gateway/upload/uploader.py:122-134 | one call of the claiming half of a cycle is one step of the machine |
| LeaseExclusivity.ExclusiveUntilHeldRowTaken | src/gateway/ledger.py:207-240 | with one holder per row nothing raises, and a step ends that iff it claims a held row |
| LeaseExclusivity.SafeExactlyWhenTimely | src/gateway/ledger.py:214-215 | no possible claim takes a held row iff every held row was attempted less than stale_after ago |
| LeaseExclusivity.OneHolderInTimelyRuns | src/gateway/upload/uploader.py:122-137 | in timely runs every held row is UPLOADING and held once, by one uploader |
| LeaseExclusivity.NothingRaisesInTimelyRuns | src/gateway/upload/uploader.py:206-208 | in timely runs no batch holds an event twice and no transaction is rolled back |
| LeaseExclusivity.ClaimAlwaysCommits | src/gateway/upload/uploader.py:88-118 | on sound tables no claim raises, whatever the query selects: every selected row is claimed and has what its request row needs |
| Raising.RaisesExactlyWhen | src/gateway/upload/uploader.py:206-208 | of all steps of all processes, exactly these raise: a retry, a giving up or a settlement of a batch with a row that cannot take it |
| Straightness.RunStraightIff | src/gateway/models/status.py:54 | a committed transaction dead-letters no event from FAILED_RETRYABLE iff none of its calls does when it is reached |
| Straightness.StraightExactlyUntil | src/gateway/models/status.py:54 | a step does so iff it settles or gives up, without raising, a batch with a FAILED_RETRYABLE row, or settles one with an event in it twice |
| Straightness.StraightRunIff | src/gateway/models/status.py:54 | a run does so iff one of its actions is such a step |
| Straightness.StraightInTimelyRuns | src/gateway/models/status.py:54 | so no timely run does |
| Counterexamples.TwoUploadersSkipRetry | src/gateway/upload/uploader.py:256-279 | a run of two uploaders, from the empty system, that dead-letters an event from FAILED_RETRYABLE after a lost lease |
| Counterexamples.OneUploaderSkipsRetry | src/gateway/upload/uploader.py:122-134 | a run of a single uploader that does, with both copies of a row it claimed twice in one batch |
| Counterexamples.TwoUploadersAcceptTwice | src/gateway/upload/uploader.py:206-215 | a run of two uploaders in which the platform accepts an event twice and one acceptance is never settled |
| Counterexamples.OneUploaderAcceptsTwice | src/gateway/upload/uploader.py:206-208 | a run of a single uploader in which it does, the settlement raises, and the row is left UPLOADING |
| AttemptBudget.AttemptsAreBounded | src/gateway/upload/uploader.py:94-110 | in timely runs attempts stay within row ceiling plus one batch's attempts, requests one below that |
| AttemptBudget.SendingIsFinite | src/gateway/upload/backoff.py:54-61 | in timely runs without new work, the rows sent equal the fall of a measure that stays non-negative |
| SoloDelivery.StepsDeliver | src/gateway/upload/uploader.py:148-199 | whatever one call of the upload loop does, some run of this uploader's own steps and the clock does too |
| SoloDelivery.StepsAreDelivery | src/gateway/upload/uploader.py:148-199 | and every run of them that ends the batch, wherever in the flight it starts, leaves what one call leaves, for some outcomes and times the world can bring |

## Left out

- HTTP, FastAPI routes, Pydantic validation, SQLAlchemy, Alembic, Pub/Sub and the worker and uploader polling loops: plumbing around the atomic steps that are modelled.
- Webhook signatures, logging, metrics, correlation ids, configuration, seeding and the `dlq list`, `dlq show` and `queue-init` commands: no state the theorems speak of.
- SHA-256 and the phone-number library are parameters: any function to 64 lowercase hex characters, any outcome of parsing.
- Text is ASCII: accent stripping, compatibility folding and Unicode categories beyond ASCII are not part of this model.
- Status reasons are structured values; the formatted, 512-character texts, and with them the prefix test of the dead-letter filter (here any test on reasons), are not modelled.
- Dead-letter error messages and the ids of log lines are not kept; log lines of one row are in the order written.
- Conversion time, value and currency are opaque texts; how they are formatted is not modelled.
- The wait between attempts and its jitter: only the recorded times of the retries, and whether the elapsed-time ceiling has passed, are inputs.
- Ledger rows are values in a map field of the store, replaced on update; object identity and aliasing inside one session are not captured.
- Each database transaction is one atomic step; isolation below that, other than the skipped locks of the claim query, is assumed.
- Store.LedgerStore.DeadLetterEvent: the error message column of a record is not kept.
- Store.LedgerStore.ReplayRecord: changes the tables only; the publish inside the same call belongs to Stages.ReplayOne and to the machine's ReplayPublish.
- ReplayCommit asks at the commit whether the record can still be replayed; src/gateway/dlq/store.py:121-132 asks only when its transaction begins. That two replays of one record do not overlap is assumed.
- The classification of HTTP status codes: a request simply fails, is refused or is answered.
- Stages.DlqReplay: runs each replay as one step with its publish; the machine's ReplayPublish, ReplayCommit and ReplayAbort split it and model a failing publish.
- Stages.Ingest: the answer to an invalid webhook, which is REJECTED even when the id is a duplicate, is not modelled, only its effect on the ledger.
- Platform.IdentifierRefusalIff: speaks of rows the gateway builds; the platform's answers to rows of the wrong JSON type are not modelled.
- Platform.MockPlatform.Upload: starts where row validation starts; the injected failure modes are the machine's nondeterministic outcomes.
- Batcher.Batcher.constructor: the ValueError for a size below one is a precondition.
- Queue messages travel as values; their byte encoding is not modelled. Pub/Sub redelivery is the machine's ReturnDelivery, possible at any time.
