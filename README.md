# Agreement monitoring and lifecycle — a Dafny model

This project models the backend of a "dynamic agreements" service. An
agreement is created from a template. The template's dynamic fields are
bound to external data sources: a market price, an IoT device or the
weather. The backend keeps each agreement's `currentValues` fresh and
raises a `threshold-breach` notification job when a value crosses its
configured threshold. Agreements move through their lifecycle (draft, sent,
signed, voided) under route handlers, DocuSign and Stripe webhooks and
queue workers. Every change is recorded in an audit log.

The model keeps the program's own structure, one Dafny module per source
file:

- The state the program mutates is held in classes:
  - `Store.Db`: the agreements table, the templates table and the
    audit-log table, with the two unique indexes;
  - `Redis.Cache`: the key → (payload, expiry) map;
  - `Queues.JobQueue`: a BullMQ queue's job list;
  - `TemplateService.ObjectStore`: the object bucket.
- Services, workers and route handlers are methods that take those objects.
  Each method is tied by its `ensures` to a specification function of the
  old state, or to a two-state predicate. The behaviour the source promises
  is proved about those functions as lemmas.
- External SDKs are inputs to the methods: results, request-taking functions
  or booleans. That covers the Alpha Vantage and Losant HTTP responses, the
  DocuSign JWT, envelope and recipients calls, Stripe, Twilio, SendGrid,
  MinIO and the HMAC.
- A concurrent writer to the shared cache is also an input
  (`DataSync.Remote.concurrentWrite`). It is what makes the IoT fallback
  re-read meaningful.
- Timestamps are an `int` parameter `now`. Redis expiry is the
  `Redis.Live` lookup.

JavaScript values, as they flow through JSONB columns and job payloads, are
the `Values.Value` datatype. It models truthiness, member access, object
spread and `String(v)`.

## Model

| member | source | states |
|---|---|---|
| Models.DefaultAgreement | backend/src/models/Agreement.ts:63-87 | a new row is `draft`, with empty `currentValues`, `signers` and `metadata`, no envelope id, and `lastChecked` set to now |
| Models.DraftViolatesDeclaredNotNull | backend/src/models/Agreement.ts:59-62 | as declared (NOT NULL), the column refuses every draft that `createAgreement` builds (finding 2, as written) |
| Models.DraftAdmitted | backend/src/models/Agreement.ts:59-104 | with a nullable envelope id, inserting any number of drafts keeps envelope ids unique across agreements (finding 2, corrected) |
| Models.OperatorText | backend/src/models/Template.ts:9-15 | every declared operator `>`, `<`, `==`, `>=`, `<=` has a non-empty, hence truthy, spelling |
| Models.Audit | backend/src/models/AuditLog.ts:4-57 | an audit entry carries exactly the given entity type, id, action and changes, with empty metadata and only a creation time |
| Store.StorableKeepsEnvelopeIdsUnique | backend/src/models/Agreement.ts:101-104 | a save the unique index admits keeps envelope ids unique across agreements |
| Store.StorableKeepsTemplateRefsUnique | backend/src/models/Template.ts:72-76 | a save the unique index admits keeps DocuSign template ids unique across templates |
| Store.ResaveStorable | backend/src/models/Agreement.ts:101-104 | re-saving a stored agreement without changing its envelope id never violates the index |
| Store.Db.constructor | backend/src/models/Agreement.ts:97-112 | the store starts with no agreements, templates or audit entries, and its invariant holds |
| Store.Db.SaveAgreement | backend/src/models/Agreement.ts:101-104 | a save succeeds exactly when the envelope-id index admits the row; it then replaces the row, otherwise nothing changes |
| Store.Db.SaveTemplate | backend/src/models/Template.ts:72-76 | a save succeeds exactly when the template-id index admits the row; it then replaces the row, otherwise nothing changes |
| Store.Db.DestroyTemplate | backend/src/services/TemplateService.ts:88 | removes exactly that template and nothing else |
| Store.Db.AppendAudit | backend/src/models/AuditLog.ts:30-67 | appends exactly one entry to the audit log and leaves the tables unchanged |
| Redis.SetThenGet | backend/src/services/DataSyncService.ts:36-102 | a value stored with a TTL is read back until the TTL runs out and is gone after it; other keys are unaffected |
| Redis.Cache.constructor | backend/src/config/redis.ts:4-13 | the cache starts empty |
| Redis.Cache.Get | backend/src/services/DataSyncService.ts:20 | a read returns the payload only while its entry is live |
| Redis.Cache.Set | backend/src/services/DataSyncService.ts:36 | a `SET … EX` stores the payload with an expiry of now + TTL under that key only |
| Redis.Cache.Put | backend/src/services/DataSyncService.ts:70 | another client's write replaces exactly that key |
| Redis.RetryDelay | backend/src/config/redis.ts:9-12 | the delay never exceeds 2000 or times·50; it equals times·50 exactly when times ≤ 40 and is 2000 for every later attempt |
| Redis.RetryDelayMonotone | backend/src/config/redis.ts:10 | the delay is non-decreasing in the number of attempts |
| Queues.QueueNamesDistinct | backend/src/config/queues.ts:9-57 | there are exactly four configured queues, their names are pairwise distinct, and every queue name is configured |
| Queues.DefaultJobOptions | backend/src/config/queues.ts:17-57 | every queue backs off exponentially with at least 3 attempts and at least 1000 ms, and only data-sync repeats |
| Queues.PolicyTable | backend/src/config/queues.ts:17-57 | attempts/delay are 3/1000, 3/1000, 5/2000 and 3/1000; data-sync repeats every 300000 ms |
| Queues.SetupQueues | backend/src/config/queues.ts:59-76 | the loop creates one queue per configuration entry, in order, with that entry's name and default job options |
| Queues.Workers | backend/src/config/queues.ts:83-122 | one worker per queue, in order, each with positive concurrency |
| Queues.WorkerTable | backend/src/config/queues.ts:85-122 | concurrency is 5, 3, 2 and 5; agreement-update runs the data-sync processor; notification runs the notification processor |
| Queues.JobQueue.constructor | backend/src/config/queues.ts:65-68 | a new queue has the given name and no jobs |
| Queues.JobQueue.Add | backend/src/services/AgreementService.ts:81-87 | adding a job appends exactly that job |
| DataSync.ReadThrough | backend/src/services/DataSyncService.ts:17-102 | for every kind: a live entry is served whatever the source would answer; a fetched value is stored under the kind's prefix with TTL 300/60/1800; a failure stores nothing itself |
| DataSync.MarketFailurePolicy | backend/src/services/DataSyncService.ts:30-42 | a price lookup succeeds iff the response has a truthy `Global Quote`; otherwise it fails with the invalid-response error or the fetch error, with no fallback |
| DataSync.IotFallback | backend/src/services/DataSyncService.ts:64-81 | after an IoT failure, the value is served iff another writer left an entry that is still live; otherwise, including when that entry has already expired, the invalid-response or fetch error is rethrown |
| DataSync.WeatherMiss | backend/src/services/DataSyncService.ts:93-104 | a weather miss returns and caches for 1800 s the fixed reading: temperature 25, humidity 60, conditions `sunny`, timestamp now |
| DataSync.UnsupportedKind | backend/src/services/DataSyncService.ts:120-122 | any undeclared kind fails with `Unsupported data type: <kind>` and leaves the cache unchanged |
| DataSync.AwaitRemote | backend/src/services/DataSyncService.ts:26-28 | while the request is in flight, only a concurrent writer's entry for that key lands in the cache |
| DataSync.SyncMarketData | backend/src/services/DataSyncService.ts:16-43 | the result and the new cache are those of the market read-through function |
| DataSync.SyncIoTData | backend/src/services/DataSyncService.ts:45-82 | the result and the new cache are those of the IoT read-through function, including the re-read after a failure |
| DataSync.SyncWeatherData | backend/src/services/DataSyncService.ts:84-109 | the result and the new cache are those of the weather read-through function |
| DataSync.GetData | backend/src/services/DataSyncService.ts:112-123 | dispatches price, iot and weather to their read-through and rejects any other kind |
| AgreementService.EvaluateThreshold | backend/src/services/AgreementService.ts:117-136 | the result is `value > t`, `< t`, `== t`, `>= t` or `<= t` for the five operators, and false for any other operator |
| AgreementService.OperatorAlgebra | backend/src/services/AgreementService.ts:117-136 | `>=` is `>` or `==`, `<=` is `<` or `==`, `>` is `<` with the operands swapped, `>=` negates `<`, and at most one of `>`, `<` holds |
| AgreementService.CompareWith | backend/src/services/AgreementService.ts:72-136 | a number compares as in `evaluateThreshold`; `==` is strict equality; a value with no numeric reading never breaches |
| AgreementService.ZeroThresholdUnchecked | backend/src/services/AgreementService.ts:72 | a missing threshold, or a threshold of 0, is never evaluated |
| AgreementService.BreachDataAsWritten | backend/src/services/AgreementService.ts:81-87 | the job data the source builds carries agreementId and field but no `type` member (finding 1, as written) |
| AgreementService.BreachData | backend/src/services/AgreementService.ts:81-87 | the corrected job data is the source's data plus `type: threshold-breach`, and removing `type` gives back exactly the source's data; it carries agreementId, field, currentValue, threshold and operator |
| AgreementService.FailedFieldSkipped | backend/src/services/AgreementService.ts:63-92 | a field whose fetch fails adds no update and no job and does not change the breach flag; only the cache may change |
| AgreementService.FetchedFieldRecorded | backend/src/services/AgreementService.ts:63-92 | a fetched field records its extracted value under its name, and enqueues one breach job exactly when its threshold is configured and crossed |
| AgreementService.BreachedIffJobs | backend/src/services/AgreementService.ts:59-114 | after the loop the breach flag is set iff at least one job was enqueued |
| AgreementService.JobsAreBreaches | backend/src/services/AgreementService.ts:72-88 | every enqueued job is a `threshold-breach` for this agreement, naming a field with a configured threshold |
| AgreementService.UpdatesNameFields | backend/src/services/AgreementService.ts:63-70 | every updated key is the name of one of the template's fields |
| AgreementService.ScanExtends | backend/src/services/AgreementService.ts:63-93 | later fields never remove an earlier field's update, job or breach |
| AgreementService.UnconfiguredNeverBreaches | backend/src/services/AgreementService.ts:72 | with no configured threshold, the loop enqueues nothing and reports no breach |
| AgreementService.PriceAboveThreshold | backend/src/services/AgreementService.ts:63-93 | an AAPL price of 155 against `> 150` records the price, enqueues one breach job, and caches the quote for 300 s |
| AgreementService.RefreshFields | backend/src/services/AgreementService.ts:59-93 | the loop leaves `updates`, `thresholdBreached`, the cache and the queued jobs exactly as the field-by-field specification computes them |
| AgreementService.CheckAgreementThresholds | backend/src/services/AgreementService.ts:50-115 | a missing agreement or template gives 404 and changes nothing. Otherwise the result is whether any field breached and the breach jobs are appended. When at least one field was fetched, the row gets `currentValues` merged with the new values and `lastChecked`, and one update audit records the old and merged values; otherwise the row and the audit log are unchanged |
| AgreementService.NewDraft | backend/src/services/AgreementService.ts:31-36 | a new agreement is a draft with the given template and signers, empty values and metadata, and no envelope id |
| AgreementService.CreateAgreement | backend/src/services/AgreementService.ts:25-47 | a missing template gives 404 and changes nothing; otherwise the draft is inserted and exactly one create audit with after = the draft is appended (under the nullable envelope-id column of finding 2) |
| AgreementService.ApplyPatch | backend/src/services/AgreementService.ts:145 | a partial update changes only the columns it names and keeps every other column |
| AgreementService.PatchOnlyNamedColumns | backend/src/services/AgreementService.ts:145 | a status-only patch changes only the status; a metadata patch replaces the metadata; an empty patch is the identity |
| AgreementService.UpdateOutcome | backend/src/services/AgreementService.ts:138-158 | a missing id gives 404 `Agreement not found`; success returns the patched row; a patch the index admits succeeds, and one that clashes with another envelope id gives the unique-index error |
| AgreementService.UpdateAgreement | backend/src/services/AgreementService.ts:138-158 | the result is the update outcome; on success the row is replaced and one update audit with before = old row and after = new row is appended; otherwise nothing changes |
| AgreementService.PatchWithoutEnvelopeSucceeds | backend/src/services/AgreementService.ts:138-158 | a patch that leaves the envelope id alone always succeeds on an existing agreement |
| AgreementService.GetAgreement | backend/src/services/AgreementService.ts:160-170 | gives the stored row iff it exists, and 404 `Agreement not found` otherwise |
| DocuSignService.TokenCachePolicy | backend/src/services/DocuSignService.ts:34-63 | a cached token is returned without use of the JWT answer, leaving the cache alone; on a miss the new token is returned and cached for 3000 s; a failed JWT stores nothing |
| DocuSignService.GetAccessToken | backend/src/services/DocuSignService.ts:34-63 | the result and the new cache are those of the token-cache function |
| DocuSignService.TokenReused | backend/src/services/DocuSignService.ts:35-56 | a token stored now is served from the cache at any time before now + 3000 |
| DocuSignService.TextTabs | backend/src/services/DocuSignService.ts:93-98 | one text tab per value key, with label the key and value `String(value)` |
| DocuSignService.Roles | backend/src/services/DocuSignService.ts:89-99 | one template role per signer, in order, with that signer's email, name and role; tabs are present iff the signer has tabs, and are then one text tab per entry with label the key and value `String(value)` |
| DocuSignService.Definition | backend/src/services/DocuSignService.ts:86-103 | the envelope is created from the template with status `sent`, and its roles are the per-signer roles above |
| DocuSignService.CreateEnvelope | backend/src/services/DocuSignService.ts:71-114 | the token is obtained through the cache, and the result is the envelope call on the built definition, or the token error |
| DocuSignService.StatusReport | backend/src/services/DocuSignService.ts:131-139 | the status defaults to `unknown` and the signers to `[]` when the provider omits them; the status is never empty |
| DocuSignService.GetEnvelopeStatus | backend/src/services/DocuSignService.ts:116-144 | the token goes through the cache, and the result is the recipients report with defaults, or the error |
| DocuSignService.ValidateWebhookSignature | backend/src/services/DocuSignService.ts:164-179 | accepted iff a signature is present and equals the HMAC of the payload under the secret (or `''`) |
| DocuSignService.SignatureRejections | backend/src/services/DocuSignService.ts:164-179 | a missing header is rejected; an HMAC that throws rejects every signature; a missing secret is the empty secret |
| DocuSignWorker.WorkerRoles | backend/src/workers/DocuSignWorker.ts:35-45 | one role per signer, in order, with its email, name and role, and tabs equal to the agreement's `currentValues` as text tabs |
| DocuSignWorker.AsEnvelopeSigners | backend/src/workers/DocuSignWorker.ts:35-45 | each signer is passed with the agreement's `currentValues` as tabs |
| DocuSignWorker.WorkerRolesMatchService | backend/src/workers/DocuSignWorker.ts:35-45 | the worker's role list equals what the service builds for signers carrying `currentValues` |
| DocuSignWorker.ProcessDocuSignJob | backend/src/workers/DocuSignWorker.ts:8-86 | a missing agreement or template fails before any change; an API error propagates; otherwise the row becomes `sent` with the returned envelope id, whatever its prior status; one send audit with metadata `{envelopeId}` is appended; the result echoes the id with success true |
| NotificationWorker.KindOf | backend/src/workers/NotificationWorker.ts:29-46 | the threshold sender is selected iff type is `threshold-breach`, the signed sender iff `envelope-signed`; any other type has no sender |
| NotificationWorker.ThresholdMessageMentions | backend/src/workers/NotificationWorker.ts:65-70 | the threshold message contains the agreement id, field, current value, operator and threshold |
| NotificationWorker.SignerDeliveries | backend/src/workers/NotificationWorker.ts:73-147 | a signer with a phone gets an SMS then an email; a signer without one gets only the email |
| NotificationWorker.PlannedLength | backend/src/workers/NotificationWorker.ts:73-110 | the number of deliveries is the number of signers plus the number with a phone |
| NotificationWorker.EveryoneEmailed | backend/src/workers/NotificationWorker.ts:88-147 | every signer is emailed |
| NotificationWorker.SmsOnlyToPhones | backend/src/workers/NotificationWorker.ts:73-131 | every SMS goes to the phone of a signer who has one |
| NotificationWorker.DeliveriesCarryText | backend/src/workers/NotificationWorker.ts:73-147 | every delivery carries the job's message text |
| NotificationWorker.FanOut | backend/src/workers/NotificationWorker.ts:73-147 | the loop attempts every planned delivery in order, whatever earlier attempts returned |
| NotificationWorker.ProcessNotificationJob | backend/src/workers/NotificationWorker.ts:15-56 | a missing agreement or template fails before any delivery; an unknown type fails; otherwise every planned delivery is attempted and the job reports success even if all of them failed |
| NotificationWorker.BreachDataAsWrittenRejected | backend/src/workers/NotificationWorker.ts:29-46 | the job data as built by the threshold check has no type, so the worker rejects it (finding 1, as written) |
| NotificationWorker.BreachDataDispatched | backend/src/workers/NotificationWorker.ts:29-111 | the corrected job data reaches the threshold sender with the threshold subject and message |
| PaymentService.PaidMetadata | backend/src/services/PaymentService.ts:137-145 | success adds `paymentStatus: paid`, paymentIntentId, paidAmount, paidCurrency and paidAt, and keeps every other key |
| PaymentService.FailedMetadata | backend/src/services/PaymentService.ts:177-183 | failure adds `paymentStatus: failed`, paymentIntentId and lastError, and keeps every other key |
| PaymentService.PaymentLeavesStatus | backend/src/services/PaymentService.ts:128-203 | the payment handlers change no agreement except in its metadata, never the status, and append at most one audit |
| PaymentService.CreatePaymentIntent | backend/src/services/PaymentService.ts:15-50 | the result is Stripe's answer; on success exactly one create audit with after = {paymentIntentId} is appended; no agreement changes |
| PaymentService.ConfirmPayment | backend/src/services/PaymentService.ts:52-96 | the result is Stripe's answer; with an agreementId, one audit is always appended, and the metadata is updated only when the status is `succeeded` |
| PaymentService.HandlePaymentSuccess | backend/src/services/PaymentService.ts:128-166 | with a known agreement, its metadata gets the paid keys and one update audit follows; otherwise nothing changes |
| PaymentService.HandlePaymentFailure | backend/src/services/PaymentService.ts:168-203 | with a known agreement, its metadata gets the failed keys and one update audit follows; otherwise nothing changes |
| PaymentService.HandleWebhookEvent | backend/src/services/PaymentService.ts:98-126 | a signature error propagates with no change; succeeded and payment_failed run their handler; every other event is acknowledged with no change |
| Webhooks.EventOf | backend/src/routes/webhooks.ts:43-98 | each of the three event names selects its own branch, and every other name selects none |
| Webhooks.SignedPatch | backend/src/routes/webhooks.ts:54-60 | sets status `signed` and metadata = the payload's metadata plus `signedAt` |
| Webhooks.DeclinedPatch | backend/src/routes/webhooks.ts:73-83 | sets status `voided` and metadata = the payload's metadata, every other key's value passed through unchanged, plus declinedAt, declinedBy = recipientEmail and declineReason |
| Webhooks.VoidedPatch | backend/src/routes/webhooks.ts:85-95 | sets status `voided` and metadata = the payload's metadata, every other key's value passed through unchanged, plus voidedAt, voidedBy = senderEmail and voidReason |
| Webhooks.InvalidSignatureRejected | backend/src/routes/webhooks.ts:29-37 | an invalid signature yields 401, whatever the payload |
| Webhooks.SignedOnlyWhenCompleted | backend/src/routes/webhooks.ts:44-71 | an update sets `signed` iff the event is envelope-signed, and a notification is planned only then, when the provider reports `completed` and the download succeeded |
| Webhooks.OtherEventsAcknowledged | backend/src/routes/webhooks.ts:43-98 | any other event is acknowledged with `{received: true}` and plans no change |
| Webhooks.PayloadDecidesMetadata | backend/src/routes/webhooks.ts:54-93 | the new status and metadata depend only on the payload, not on the stored agreement or its current status |
| Webhooks.DocuSignWebhook | backend/src/routes/webhooks.ts:27-103 | an invalid signature gives 401 with no change; a planned update goes through `updateAgreement`, and a signed one enqueues one envelope-signed job; a processing error gives 500 |
| Webhooks.ApplyEnvelopeEvent | backend/src/routes/webhooks.ts:54-95 | without an agreementId the update fails with no change; otherwise `updateAgreement` runs, and on success the signed notification is enqueued when due |
| Webhooks.StripeWebhook | backend/src/routes/webhooks.ts:106-120 | a construction error gives 500 with no change; otherwise the payment handler runs and the reply is `{received: true}` |
| AgreementRoutes.PendingMetadata | backend/src/routes/agreements.ts:46-53 | adds paymentIntentId, paymentAmount and `paymentStatus: pending`, and keeps every other key |
| AgreementRoutes.CreateRoute | backend/src/routes/agreements.ts:31-68 | creates the draft (under the nullable envelope-id column of finding 2); with a truthy amount, creates a `usd` intent and stores the pending metadata through an update; the reply carries the agreement as created |
| AgreementRoutes.AttachPayment | backend/src/routes/agreements.ts:39-62 | reached once the draft is inserted (under the nullable envelope-id column of finding 2); a Stripe failure leaves the new row in place; otherwise the create audit of the intent and the pending-metadata update follow, and the reply carries the intent id and client secret |
| AgreementRoutes.SendPatch | backend/src/routes/agreements.ts:116-123 | sets status `sent`, the envelope id, and metadata = old metadata plus `sentAt` |
| AgreementRoutes.PaymentGatesSend | backend/src/routes/agreements.ts:100-102 | pending metadata blocks sending iff the amount is truthy; paid metadata never blocks; failed metadata blocks iff an amount was recorded |
| AgreementRoutes.SendRoute | backend/src/routes/agreements.ts:95-129 | a missing agreement gives 404; an unpaid required payment gives 400; a missing template makes the `docusignTemplateId` access throw a TypeError, which reaches the error handler as a server error, not a 404; each leaves everything unchanged. Otherwise the envelope is created with the `currentValues` tabs and the send patch is applied through `updateAgreement` |
| AgreementRoutes.ConfirmPaymentRoute | backend/src/routes/agreements.ts:132-150 | a missing agreement gives 404; an intent id different from the stored one gives 400 with no change; otherwise the payment is confirmed |
| AgreementRoutes.VoidPatch | backend/src/routes/agreements.ts:156-162 | sets status `voided` and replaces the metadata with exactly {voidedAt, voidReason} |
| AgreementRoutes.VoidFromAnyState | backend/src/routes/agreements.ts:153-168 | voiding succeeds from every status, drops all earlier metadata keys, and keeps every other column |
| AgreementRoutes.VoidRoute | backend/src/routes/agreements.ts:153-168 | the result and the new state are those of `updateAgreement` with the void patch |
| TemplateService.NewTemplate | backend/src/services/TemplateService.ts:14-25 | a new template has the supplied columns, and fields default to empty |
| TemplateService.CreateTemplate | backend/src/services/TemplateService.ts:14-38 | inserts the template and appends one create audit with entity type template and after = the record, or fails on a duplicate DocuSign template id with no change |
| TemplateService.ApplyTemplatePatch | backend/src/services/TemplateService.ts:50 | a partial update changes only the columns it names |
| TemplateService.UpdateTemplate | backend/src/services/TemplateService.ts:40-63 | a missing id gives 404; otherwise the row is replaced and one update audit with before = old and after = new record is appended |
| TemplateService.GetTemplate | backend/src/services/TemplateService.ts:65-71 | gives the stored template iff it exists, and 404 otherwise |
| TemplateService.DeleteTemplate | backend/src/services/TemplateService.ts:79-99 | a missing id gives 404; otherwise the template is removed and one delete audit with only a before snapshot is appended |
| TemplateService.BucketName | backend/src/services/TemplateService.ts:11 | the bucket is the configured name, with `ddae-documents` as the default, and is never empty |
| TemplateService.ObjectName | backend/src/services/TemplateService.ts:111-129 | the object name is `templates/`, then the template id, then `/`, then the file name |
| TemplateService.ObjectNamesSeparate | backend/src/services/TemplateService.ts:111-129 | for template ids without `/`, distinct (template, file) pairs never share an object name |
| TemplateService.ObjectStore.constructor | backend/src/config/minio.ts:12-22 | the bucket starts with no objects |
| TemplateService.UploadTemplateFile | backend/src/services/TemplateService.ts:101-121 | a missing template gives 404 before storage is touched; a storage failure gives 500; otherwise the bytes are stored under the object name, which is returned |
| TemplateService.GetTemplateFile | backend/src/services/TemplateService.ts:123-144 | a missing template gives 404; an unreadable object gives 500; otherwise the stored bytes are returned |

## Left out

- Numbers are modelled as `int`. JavaScript floating point is not modelled. A field's current value is whatever the source returns.
- String-to-number coercion in the comparisons is not modelled. A string current value has no numeric reading and never breaches, where JavaScript would coerce `"155"`.
- Dates are `Time(now)`. A `Date` object and its ISO string are not distinguished.
- lodash `get` with a dotted path is modelled as one member lookup on the fetched object.
- Text tabs are a map, so the order of the tabs within a role is not modelled.
- `Values.Spread`: spreading a non-object (a string, say) gives `{}` here. JavaScript spreads a string's characters.
- JSONB keys whose value is `undefined` are kept as `Undef`, not dropped by serialisation.
- The database's foreign key from `templateId` to templates is not enforced. This keeps the missing-template branches reachable, as in the source, which checks for them.
- Fresh UUIDs are a `newId` parameter, with the precondition that the id is unused.
- The cache is the `Live` lookup over a map with expiry. The JSON round-trip of cached payloads is the identity.
- **The network and other processes are inputs:**
  - `remotes` / `Remote` stand for the external responses and for another worker's write to the same key;
  - `jwt`, `createApi`, `listRecipients`, `download`, `create`, `confirm` and `construct` stand for the DocuSign and Stripe SDK calls;
  - `deliver` stands for Twilio and SendGrid;
  - `stored` / `readable` stand for MinIO's answer;
  - `hmac` stands for HMAC-SHA256, which is not modelled itself.
- Webhooks.DocuSignWebhook: the document download is an outcome parameter. It is not routed through the token cache.
- The private-key file read, logging, and the HTML bodies of the emails are not modelled.
- BullMQ scheduling is reduced to the configuration constants and an append-only job list per queue. Backoff timing, repeat timers and concurrency semantics are not modelled.
- The SQL listing operations (`listAgreements`, `listTemplates`) are not modelled.
- A failure of the queue `add` call is not modelled, neither inside the threshold loop nor for the `envelope-signed` job in `Webhooks.DocuSignWebhook`, where it would give a 500 after the update. Adding a job always succeeds.
- The threshold loop enqueues the corrected breach data of finding 1, with `type: 'threshold-breach'`. The source's job data is that data without `type` (`AgreementService.BreachData`). The members below state this corrected loop:
- FieldStep: appends `BreachJob`, whose data is the corrected `BreachData`, not the source's `BreachDataAsWritten`.
- Scan: the jobs it accumulates carry `type`, which the source's jobs lack.
- RefreshFields: the jobs it adds to the notification queue carry `type`, which the source's jobs lack.
- CheckAgreementThresholds: the breach jobs it appends carry `type`, which the source's jobs lack.
- FetchedFieldRecorded: the one job it proves enqueued is the corrected `BreachJob`.
- JobsAreBreaches: its `type == 'threshold-breach'` conjunct holds of the corrected data only; the source's data has no `type` (`BreachDataAsWrittenRejected`).
- PriceAboveThreshold: the expected job is the corrected `BreachJob`.
- The agreement inserts use the corrected nullable `docusignEnvelopeId` column of finding 2. As written, the column is NOT NULL, so the source's insert fails for every draft (`Models.DraftViolatesDeclaredNotNull`). The members below state the corrected program:
- CreateAgreement: inserts the draft and appends its create audit. The source's `Agreement.create` raises a not-null violation there, and no audit is written.
- CreateRoute: its create step succeeds under the corrected column. In the source it fails with the same violation, and no payment intent is created.
- AttachPayment: reachable only under the corrected column. In the source the route fails before the payment step.
- `createdAt` and `updatedAt` of agreements and templates are not modelled. The source's `toJSON()` audit snapshots include them; the model's snapshots do not.
- A template's `dynamicFields` is a sequence of named fields, where the source has an object keyed by field name. Duplicate names can be represented, and the key order of `Object.entries` (integer-like keys first) is not modelled.
- `UnknownOp` and `UnknownKind` carry any text, including text that spells a declared operator or kind. They are not constrained to exclude those spellings.
- DataSync.MarketStep: a `null` response body makes the source throw a TypeError when reading `Global Quote`. The model reports the invalid-response error instead.
- `String(v)` of a `Time(t)` gives the digits of `t`. JavaScript's `String(Date)` gives a date string.
- backend/src/index.ts, backend/src/config/database.ts, backend/src/routes/templates.ts, backend/src/workers/DataSyncWorker.ts and the frontend are not part of this model. They are wiring or thin pass-throughs.
- The wiring defects in `routes/agreements.ts` (the data-sync service passed to `AgreementService` is never imported) and `routes/webhooks.ts` (the Redis client is passed where the data-sync service is expected) are not modelled. Each service is given a working collaborator.

## Findings

| source | as written | input that shows it | evidently intended | confidence | as-written member | corrected member |
|---|---|---|---|---|---|---|
| backend/src/services/AgreementService.ts:81-87 against backend/src/workers/NotificationWorker.ts:29-46 | the threshold job's data has no `type` member, and the worker dispatches on `data.type` | any field that breaches, e.g. AAPL at 155 against `> 150`: the worker throws `Unknown notification type` | the job data carries `type: 'threshold-breach'` and reaches the threshold sender | not executed | AgreementService.BreachDataAsWritten, NotificationWorker.BreachDataAsWrittenRejected | AgreementService.BreachData, NotificationWorker.BreachDataDispatched |
| backend/src/models/Agreement.ts:59-62 against backend/src/services/AgreementService.ts:31-36 | `docusignEnvelopeId` is declared NOT NULL, but `createAgreement` inserts a draft without it | any call to `createAgreement` with an existing template: the insert violates the NOT NULL constraint | the column is nullable until the envelope is sent | not executed | Models.DraftViolatesDeclaredNotNull | Models.DraftAdmitted |
