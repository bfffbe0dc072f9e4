# whatsapp-api gateway: a verified model in Dafny

This project models the core of the lunosat/whatsapp-api gateway, a multi-session HTTP service
in front of the WhatsApp protocol engine Baileys. It covers:

- **`WhatsAppService`** (`WhatsAppService.Service`). It keeps a registry of live sockets, keyed
  by the lowercased session id. It writes the session record on every connection event, and
  ingests `messages.upsert` batches into the message collection with a keyed upsert. It also
  issues pairing codes, sends text messages with one audit record per attempt, and deletes
  sessions.
- **The two Mongoose schemas** (`SessionModel`, `MessageModel`). Each collection is a sequence of
  documents. Session ids are unique and stored through the `lowercase` and `trim` setters.
  Messages are unique on `(sessionId, whatsappMessageId)`, with `sessionId` lowercased.
- **The three controllers** (`SessionController`, `MessageController`, `MetricsController`). These
  cover id normalisation, the existence and duplicate guards, the QR projection, the list limit
  and filter, the `toSummary` fold and the dashboard counts.
- **`HttpError`, `createHttpError`, `notFound` and `errorHandler`** (`HttpErrors`,
  `ErrorHandling`).

The two MongoDB collections live in one object, `Database.Store`. The service and the
controllers share it. The engine is not modelled. Each answer it can give is a parameter of the
method that receives it:

- a connect failure, and the account restored from saved credentials;
- the outcome of the number lookup;
- the outcome of the send;
- the pairing code;
- the close status code.

The service's uninterpreted `normalizeJid` function stands in for `jidNormalizedUser`. The clock
(`now`), `randomUUID` (`fallbackId`) and `nanoid` (`generatedId`) are parameters too.

Each async method runs as one atomic step. A connection event reaches a handler only while that
handler's socket is still the one registered under its id; teardown removes both together. A
reconnect timer is an entry in `pendingRetries`, and `FireRetry` serves the oldest entry.

The properties below are all proved:

- `sanitizePhone`, `jidToPhone` and `extractMessageText` agree with independent characterisations.
- The upserts keep the unique keys.
- Replaying an ingested batch changes nothing.
- Every handler write that sets one challenge (a QR code or a pairing code) is preceded in its
  handler by a write that clears the other. Under the atomic-step model above, no record holds
  both at once: this is part of `Service.Valid`, and every modelled operation preserves it. The
  code itself does not guarantee this under interleaving (see "## Left out").
- The validation chain of `sendTextMessage` fails on its first failing check, and every call
  inserts exactly the audit record it promises.
- The metrics counts are nested as the filters are.

Three facts about the code shape the model:

- A reconnect scheduled by a close (src/whatsapp/index.js:142-146) is a bare `setTimeout` that
  nothing cancels; `deleteSession` (src/whatsapp/index.js:341-357) does not touch it. So
  `FireRetry` after `DeleteSession` runs `ensureSocket` with `forceNew`, which registers a
  socket again and upserts a `connecting` record (src/whatsapp/index.js:92-94).
- The pairing-code lifetime `PAIRING_CODE_TTL` (src/whatsapp/index.js:18) is added to
  `Date.now()` at src/whatsapp/index.js:243, so it is in milliseconds: two minutes by default.
- `ensureSocket` is not safe under concurrent calls. This gap is listed below.

## Model

| member | source | states |
|---|---|---|
| WhatsAppText.Digits | src/whatsapp/index.js:27 | the result holds only digit characters and is no longer than the input |
| WhatsAppText.DigitsAppend | src/whatsapp/index.js:27 | filtering digits distributes over concatenation, so each digit is kept in its place and order |
| WhatsAppText.DigitsOfChar | src/whatsapp/index.js:27 | a single digit survives; any other character disappears |
| WhatsAppText.DigitsOfDigitString | src/whatsapp/index.js:27 | a string made of digits only is returned unchanged |
| WhatsAppText.SanitizeMissing | src/whatsapp/index.js:27 | `sanitizePhone(null/undefined)` is `''` |
| WhatsAppText.SanitizeIdempotent | src/whatsapp/index.js:27 | `sanitizePhone` is idempotent |
| WhatsAppText.DigitsEmptyIff | src/whatsapp/index.js:27 | the sanitised phone is empty exactly when the input holds no digit, in both directions |
| WhatsAppText.JidToPhoneEmpty | src/whatsapp/index.js:29-30 | `jidToPhone('')` and `jidToPhone(undefined)` are `''` |
| WhatsAppText.JidToPhoneOfJid | src/whatsapp/index.js:29-34 | for `user@server` the result is `sanitizePhone(user)` |
| WhatsAppText.JidToPhoneOfDeviceJid | src/whatsapp/index.js:29-34 | for `user:device@server` both the device suffix and the server are dropped |
| WhatsAppText.TextCandidates | src/whatsapp/index.js:38-45 | there are exactly six text fields, listed in the order the extractor tries them |
| WhatsAppText.FirstTruthy | src/whatsapp/index.js:36-47 | the result is `''` or one of the candidates |
| WhatsAppText.ExtractMissing | src/whatsapp/index.js:37 | a missing payload has text `''` |
| WhatsAppText.ExtractIsFirstTruthy | src/whatsapp/index.js:36-47 | `extractMessageText` equals the first truthy candidate in the fixed priority order |
| WhatsAppText.FirstTruthyChoice | src/whatsapp/index.js:36-47 | `''` exactly when no candidate is truthy; otherwise the result is a candidate and every earlier candidate was falsy |
| JsStrings.Lower | src/whatsapp/index.js:56 | each ASCII letter is lowercased in place and every other character is kept (non-ASCII letters are listed under Left out) |
| JsStrings.TrimStart | src/controllers/session.controller.js:9 | leading whitespace is removed and nothing is added |
| JsStrings.TrimEnd | src/controllers/session.controller.js:9 | trailing whitespace is removed and nothing is added |
| JsStrings.TrimStartShape | src/controllers/session.controller.js:9 | the result is a suffix of the input that starts with no whitespace, and only whitespace was dropped |
| JsStrings.TrimEndShape | src/controllers/session.controller.js:9 | the result is a prefix of the input that ends with no whitespace, and only whitespace was dropped |
| JsStrings.Trim | src/controllers/session.controller.js:9 | the result neither starts nor ends with whitespace |
| JsStrings.TakeUntil | src/whatsapp/index.js:31-32 | `split(c)[0]` is a prefix that holds no `c`, and it stops exactly at the first `c` |
| JsStrings.LowerIdempotent | src/whatsapp/index.js:56 | lowercasing twice is lowercasing once |
| JsStrings.TrimLowerCommute | src/controllers/session.controller.js:9 | trimming and lowercasing commute |
| JsStrings.TrimmedIsFixed | src/controllers/session.controller.js:9 | a string with no whitespace at either end is its own trim |
| JsStrings.TrimIdempotent | src/controllers/session.controller.js:9 | trimming is idempotent |
| JsStrings.TakeUntilSplit | src/whatsapp/index.js:31-32 | the first piece of `a + c + b` is `a` when `a` holds no `c` |
| JsStrings.TakeUntilAbsent | src/whatsapp/index.js:31-32 | without any `c`, the first piece is the whole string |
| HttpErrors.NewHttpError | src/utils/http-error.js:1-7 | the constructor keeps its status, message and details exactly, and names the error `'HttpError'` |
| HttpErrors.CreateHttpError | src/utils/http-error.js:9-10 | `createHttpError` builds exactly the error the constructor builds |
| HttpErrors.CreatedErrorsAreNamed | src/utils/http-error.js:2-6 | an error created without details has the name `'HttpError'` and undefined details |
| ErrorHandling.NotFound | src/middleware/error-handler.js:3-5 | `notFound` forwards a 404 `HttpError` with the message `'Recurso não encontrado'` and no details |
| ErrorHandling.ErrorHandler | src/middleware/error-handler.js:7-22 | the status is the error's own for an `HttpError` and 500 otherwise. The message falls back to `'Erro interno do servidor'`. `details` appears exactly when it is truthy, and `stack` exactly outside production for an error that is not an `HttpError` |
| SessionModel.StatusOfName | src/models/session.model.js:18-21 | a string the enum accepts names the status it decodes to |
| SessionModel.StatusNameRoundTrip | src/models/session.model.js:18-21 | decoding a status's stored name gives the status back |
| SessionModel.StatusNameInjective | src/models/session.model.js:18-21 | distinct statuses have distinct stored names |
| SessionModel.CanonIdempotent | src/models/session.model.js:11-12 | the stored id form (lowercase, then trim) is idempotent |
| SessionModel.CanonOfLower | src/models/session.model.js:11-12 | an id lowercased before storing is stored as the id itself would be |
| SessionModel.NewSession | src/models/session.model.js:18-30 | a fresh document has its id and the default status `idle`, with no label, challenge or error |
| SessionModel.Get | src/models/session.model.js:7-13 | the document returned is stored under the key; `None` means no document has that key |
| SessionModel.Upsert | src/whatsapp/index.js:55-65 | the key's document becomes the existing or new one with the `$set` applied; every other key keeps its document; ids stay unique |
| SessionModel.UpsertMembers | src/whatsapp/index.js:55-65 | every document after an upsert is either an old one or the patched one |
| SessionModel.UpsertCanonical | src/models/session.model.js:11-12 | an upsert under a normalised key keeps every stored id normalised |
| SessionModel.Insert | src/models/session.model.js:7-10 | a create that passes validation appends the record, and the record is then found under its key; other keys are unchanged and ids stay unique |
| SessionModel.Remove | src/whatsapp/index.js:356 | after `deleteOne` nothing is stored under the key; every other key keeps its document and ids stay unique |
| SessionModel.RemoveCanonical | src/models/session.model.js:11-12 | deleting keeps every stored id normalised |
| MessageModel.DirectionOfName | src/models/message.model.js:17-21 | a string is a direction exactly when it is `incoming` or `outgoing`, and then it decodes to that direction |
| MessageModel.DirectionNameRoundTrip | src/models/message.model.js:17-21 | decoding a direction's name gives the direction back |
| MessageModel.MessageStatusNameInjective | src/models/message.model.js:22-26 | distinct message statuses have distinct names |
| MessageModel.Get | src/models/message.model.js:43 | the document returned has the key; `None` means no document has it |
| MessageModel.UpsertSpec | src/whatsapp/index.js:170-185 | after a keyed upsert, the key holds the merged or inserted record; every other key keeps its document; keys stay unique |
| MessageModel.UpsertLowered | src/models/message.model.js:7-12 | an upsert of a lowercased record keeps every stored session id lowercased |
| MessageModel.AbsorbedUpsertIsNoOp | src/whatsapp/index.js:170-185 | upserting a record the collection already holds changes nothing |
| MessageModel.UpsertAbsorbs | src/whatsapp/index.js:170-185 | after an upsert the collection holds the record's fields under its key |
| MessageModel.UpsertIdempotent | src/whatsapp/index.js:170-185 | two upserts of the same record leave what one leaves |
| MessageModel.AbsorbsAfterOtherUpsert | src/models/message.model.js:43 | an upsert under another key does not disturb a record that is already stored |
| MessageModel.AbsorbsMeansStored | src/models/message.model.js:43 | a record the collection absorbs is stored under its key, up to `createdAt` and `errorMessage` |
| MessageModel.Create | src/models/message.model.js:7-43 | `create` appends the record when both ids are present and the key is free; otherwise the collection is unchanged; keys stay unique |
| MessageModel.DeleteBySession | src/controllers/session.controller.js:99 | `deleteMany` leaves no message of that id, only old messages, and every message of any other id |
| MessageModel.DeleteBySessionKeeps | src/controllers/session.controller.js:99 | `deleteMany` keeps, in order, exactly the messages outside the session |
| MessageModel.DeleteBySessionProps | src/models/message.model.js:7-43 | `deleteMany` keeps the keys unique and the ids lowercased |
| MessageModel.Select | src/controllers/message.controller.js:21 | `find` returns exactly the stored documents that pass the filter, and no more of them than are stored |
| MessageModel.SelectSubsequence | src/models/message.model.js:43 | a query's result inherits unique keys and lowercased ids |
| MessageModel.CountNarrower | src/controllers/metrics.controller.js:29-34 | a count over a narrower filter is never larger |
| MessageModel.CountDirections | src/controllers/metrics.controller.js:30-31 | the incoming count and the outgoing count add up to the total |
| MessageModel.InsertDescSpec | src/controllers/message.controller.js:22 | inserting into a newest-first sequence keeps it newest first and adds exactly one element |
| MessageModel.SortDesc | src/controllers/message.controller.js:22 | `.sort({ key: -1 })` is newest first and a permutation of its input |
| MessageModel.Take | src/controllers/message.controller.js:23 | `.limit(n)` is the first `min(n, size)` documents |
| MessageModel.TopOfSorted | src/controllers/message.controller.js:22-23 | a prefix of a newest-first order is newest first, and nothing left out is newer than anything kept |
| MessageModel.NewestSpec | src/controllers/metrics.controller.js:35-37 | `find(q).sort(-key).limit(n)` returns exactly `min(n, count(q))` documents, none more often than it is stored among those passing `q`, newest first, and no passing document left out is newer than one kept |
| Database.Store.constructor | src/models/session.model.js:5-35 | both collections start empty and valid |
| Database.Store.UpsertSession | src/whatsapp/index.js:57-64 | the session collection becomes the upsert under the stored form of the id; messages are unchanged |
| Database.Store.CreateSession | src/models/session.model.js:7-13 | `create` is refused for an empty or taken id and appends the normalised record otherwise |
| Database.Store.DeleteSession | src/whatsapp/index.js:356 | `deleteOne` removes the record stored under the normalised id |
| Database.Store.FindSession | src/controllers/session.controller.js:38 | `findOne` casts the filter through the setters and returns the stored document |
| Database.Store.UpsertMessage | src/whatsapp/index.js:170-185 | the message is upserted with its lowercased session id; keys stay unique |
| Database.Store.CreateMessage | src/whatsapp/index.js:266-278 | the message is created with its lowercased session id when validation and the index allow it; `created` says whether they did |
| Database.Store.DeleteMessagesOf | src/controllers/session.controller.js:99 | every message of the lowercased id is deleted |
| ServiceRules.ConnectionUpdateEffects | src/whatsapp/index.js:99-157 | a `connection.update` changes only its own session's record |
| ServiceRules.QrUpdateEffect | src/whatsapp/index.js:102-109 | a `qr` update stores the code and its time and clears both pairing fields. The status is `waiting-qr`; a `close` or `connecting` in the same event overrides it |
| ServiceRules.OpenUpdateEffect | src/whatsapp/index.js:117-130 | `open` sets `connected`, the normalised WhatsApp id, `phoneNumber = jidToPhone(user)` and the connection time, and clears every challenge and the error |
| ServiceRules.LogoutUpdateEffect | src/whatsapp/index.js:210-221 | a logout close sets `logged-out` and clears the account and every challenge |
| ServiceRules.UpsertExclusive | src/whatsapp/index.js:55-65 | an upsert whose own result is exclusive keeps every record exclusive |
| ServiceRules.RemoveExclusive | src/whatsapp/index.js:356 | deleting keeps every record exclusive |
| ServiceRules.InsertExclusive | src/controllers/session.controller.js:20-24 | creating an exclusive record keeps every record exclusive |
| ServiceRules.WritesClearTheOther | src/whatsapp/index.js:235-248 | a QR write clears the pairing code; the pairing code is written over the QR code that `waiting-code` just cleared |
| ServiceRules.NeutralPatchesKeepExclusive | src/whatsapp/index.js:117-156 | the writes that set no challenge keep an exclusive record exclusive |
| ServiceRules.ConnectionUpdateExclusive | src/whatsapp/index.js:99-157 | the whole `connection.update` handler keeps every record exclusive |
| ServiceRules.InboundRecord | src/whatsapp/index.js:162-183 | the record is keyed on the session and `key.id`, with the extracted text and the engine payload, and no error message |
| ServiceRules.InboundRoles | src/whatsapp/index.js:163-176 | a `fromMe` message is `outgoing`/`sent` from the account to the chat; any other is `incoming`/`received` from the participant or chat to the account |
| ServiceRules.InboundRecords | src/whatsapp/index.js:160-161 | there is one record per batch entry, in batch order |
| ServiceRules.InboundDistinct | src/whatsapp/index.js:171 | a batch with distinct `key.id`s yields records with distinct keys |
| ServiceRules.IngestKeepsStore | src/whatsapp/index.js:160-190 | ingestion keeps the keys unique and the ids lowercased |
| ServiceRules.IngestAbsorbsWrites | src/whatsapp/index.js:160-190 | after a batch, every write that went through is held by the collection, whichever others failed |
| ServiceRules.IngestAbsorbed | src/whatsapp/index.js:170-185 | writes the collection already holds change nothing |
| ServiceRules.IngestReplay | src/whatsapp/index.js:159-191 | replaying a batch of distinct keys leaves the collection as the first ingestion left it, so there is one record per key |
| ServiceRules.IngestStoresWrites | src/whatsapp/index.js:169-188 | a failed write does not stop the others: each write that went through is stored under its key |
| ServiceRules.InputCheck | src/whatsapp/index.js:285-299 | the checks pass exactly when `to` is truthy, has digits, and the message is truthy and not blank; a failure is a 400 `HttpError` with no details |
| ServiceRules.InputCheckOrder | src/whatsapp/index.js:285-299 | the first failing check decides the message, in the order: `to` missing, no digits, message missing, message blank |
| ServiceRules.FailureText | src/whatsapp/index.js:329 | the stored error text is never empty, and it is the error's message when that is non-empty |
| ServiceRules.Rethrown | src/whatsapp/index.js:332-337 | an `HttpError` is rethrown as it is; anything else becomes a 500 with the original message as details |
| ServiceRules.AuditRecord | src/whatsapp/index.js:264-278 | the audit record is outgoing, of type `conversation`, with payload `{ text }`, the message id, the status, the text, the destination and the time |
| ServiceRules.BaseForExclusive | src/whatsapp/index.js:55-65 | the record an upsert starts from is exclusive |
| ServiceRules.HandlerPatchesAreSafe | src/whatsapp/index.js:102-156 | every handler write except the pairing code either clears a challenge or touches neither |
| ServiceRules.SafeUpsertExclusive | src/whatsapp/index.js:55-65 | a safe write keeps every record exclusive |
| ServiceRules.PairingCodeExclusive | src/whatsapp/index.js:245-248 | writing the code over a record whose QR code is cleared keeps every record exclusive |
| ServiceRules.SendFailure | src/whatsapp/index.js:284-327 | a send succeeds exactly when the inputs pass, the socket exists and is authenticated, the lookup answers with a usable JID, and the send returns. Input failures come first; a plain error is the engine's own |
| ServiceRules.SentId | src/whatsapp/index.js:317 | the message id is the engine's `key.id` when that is truthy, and the fallback otherwise |
| WhatsAppService.Service.constructor | src/whatsapp/index.js:50-53 | a service starts with an empty registry and no pending retries |
| WhatsAppService.Service.EnsureSessionDocument | src/whatsapp/index.js:55-65 | the session collection becomes the upsert of the lowercased id; nothing else changes |
| WhatsAppService.Service.Teardown | src/whatsapp/index.js:196-208 | the id is dropped from the registry whether or not ending the socket throws; an absent id is a no-op; no other entry or record changes |
| WhatsAppService.Service.Bump | src/whatsapp/index.js:81-93 | a new socket, distinct from every registered one, is registered under the id |
| WhatsAppService.Service.OpenSocket | src/whatsapp/index.js:77-95 | on failure nothing changes; otherwise the new socket is registered and its record is set to `connecting` with no error |
| WhatsAppService.Service.EnsureSocket | src/whatsapp/index.js:67-96 | without `forceNew`, a registered socket is returned and nothing is written. Otherwise the old entry is dropped; a new one is registered and the record set to `connecting` with no error, or the failure is returned |
| WhatsAppService.Service.WriteSafe | src/whatsapp/index.js:55-65 | a safe write is the upsert of the lowercased id |
| WhatsAppService.Service.HandleLoggedOut | src/whatsapp/index.js:210-221 | the entry is dropped, and the record is set to `logged-out` with the account and every challenge cleared |
| WhatsAppService.Service.ScheduleRetry | src/whatsapp/index.js:142-146 | exactly one reconnect is queued; nothing else changes |
| WhatsAppService.Service.OnClose | src/whatsapp/index.js:135-152 | a non-logout close writes `reconnecting` and queues exactly one retry; a logout drops the entry, writes the logged-out fields and queues none |
| WhatsAppService.Service.ApplyConnection | src/whatsapp/index.js:117-156 | the `connection` part writes at most once, with the write its state names, and queues a retry only for a non-logout close |
| WhatsAppService.Service.OnConnectionUpdate | src/whatsapp/index.js:99-157 | a torn-down socket's event changes nothing. Otherwise the record follows the `qr` and `connection` parts, the entry goes on a logout, and a retry is queued only when the close should reconnect |
| WhatsAppService.Service.UpsertMessage | src/whatsapp/index.js:170-185 | one keyed upsert of a message record |
| WhatsAppService.Service.Ingest | src/whatsapp/index.js:160-190 | one upsert per record, in batch order, skipping the refused writes |
| WhatsAppService.Service.OnMessagesUpsert | src/whatsapp/index.js:159-191 | a live socket's batch is ingested as its records, and the refused writes are only skipped; a torn-down socket's batch writes nothing |
| WhatsAppService.Service.FireRetry | src/whatsapp/index.js:142-146 | the oldest pending id gets a new socket with `forceNew`. A failure is returned (logged), not thrown, and leaves the entry dropped. The retry is not cancelled by a deletion |
| WhatsAppService.Service.DeleteSession | src/whatsapp/index.js:341-357 | afterwards the id is absent from the registry and no record is found under it, even if logout threw |
| WhatsAppService.Service.Ensure | src/whatsapp/index.js:67-96 | `ensureSocket` without `forceNew`: the existing handle, else a new socket, else the failure, with the matching registry and records |
| WhatsAppService.Service.WritePairingCode | src/whatsapp/index.js:245-248 | the code and its expiry are written over a record whose QR code the `waiting-code` write cleared, which holds only because no `qr` event runs in between in the atomic-step model |
| WhatsAppService.Service.StartPairing | src/whatsapp/index.js:235-250 | the record is set to `waiting-code` with both challenges cleared. Then the engine's error is passed on, or the code is stored with expiry `now + TTL` and returned |
| WhatsAppService.Service.RequestPairingCode | src/whatsapp/index.js:223-251 | a phone with no digits gives a 400 and changes nothing; a socket failure passes through; an authenticated socket gives a 409 with no record write. Otherwise `waiting-code` is written, then the code with expiry `now + TTL` |
| WhatsAppService.Service.Attempt | src/whatsapp/index.js:284-327 | the `try` block ends with the failure `SendFailure` names (if any), the message id, the account's phone once authenticated, and the resolved destination |
| WhatsAppService.Service.SendTextMessage | src/whatsapp/index.js:253-339 | every call attempts exactly one outgoing audit record with the message's text. It is `sent` with the engine or fallback id on success, and `failed` with the fallback id and the error text otherwise. The failure is rethrown as an `HttpError` |
| Requests.NormalizeIdIsCanon | src/controllers/session.controller.js:9 | the controllers' `normalizeId` is the session schema's stored form, and it is lowercase |
| Requests.NormalizeIdIdempotent | src/controllers/message.controller.js:5 | `normalizeId` is idempotent |
| SessionController.LabelOf | src/controllers/session.controller.js:22 | the label is stored trimmed, or as null exactly when the label is absent or blank |
| SessionController.NewRecord | src/controllers/session.controller.js:20-24 | the created record has the id, the label and status `idle`, and nothing else set |
| SessionController.CreateSession | src/controllers/session.controller.js:11-29 | a taken id gives a 409 and changes nothing; an id that normalises to nothing is refused by validation and changes nothing. Otherwise the `idle` record is created and a socket is opened for it |
| SessionController.GetSession | src/controllers/session.controller.js:36-44 | a 404 exactly when no record has the normalised id; otherwise the stored record |
| SessionController.RequestPairingCode | src/controllers/session.controller.js:46-62 | a missing phone gives a 400 before the lookup, and an unknown session a 404, both changing nothing. A reply carries the code and the re-read record: `waiting-code`, the code, its expiry, no QR |
| SessionController.QrProjection | src/controllers/session.controller.js:71-77 | `available` exactly when a non-empty QR code is stored, which is then the returned code; otherwise the code is null |
| SessionController.GetSessionQr | src/controllers/session.controller.js:64-78 | a 404 exactly when no record has the id; otherwise the QR projection of the stored record |
| SessionController.DeleteSession | src/controllers/session.controller.js:80-90 | an unknown id gives a 404 and changes nothing; otherwise the socket and the record are gone |
| SessionController.PurgeSessionMessages | src/controllers/session.controller.js:92-101 | an unknown id gives a 404 and changes nothing; otherwise exactly that session's messages are deleted and others kept |
| MessageController.ListLimit | src/controllers/message.controller.js:9 | the limit is at most 200. Absent, zero or NaN gives 50; other values up to 200 pass through; above 200 gives 200 |
| MessageController.BuildFilter | src/controllers/message.controller.js:13-19 | a message passes the built filter exactly when it is the session's and before `before` (when valid). Its direction must match only when the query names `incoming` or `outgoing` |
| MessageController.ListMessages | src/controllers/message.controller.js:7-26 | the page holds exactly `min(limit, n)` of the `n` stored messages of the normalised session that pass the filter, none more often than it is stored, newest `messageTimestamp` first, and no passing message left out is newer than a kept one |
| MessageController.Listed | src/controllers/message.controller.js:13-21 | a document is listed exactly when it is stored and passes the list filter |
| MessageController.SelectIsListed | src/controllers/message.controller.js:13-21 | `find` with the built filter selects exactly the listed documents, in collection order |
| MessageController.SendMessage | src/controllers/message.controller.js:28-38 | the answer is 201, the message id and `sent` exactly when the send succeeded; otherwise an `HttpError` with a `failed` audit under the fallback id |
| MetricsController.ToSummary | src/controllers/metrics.controller.js:6-11 | the loop computes the `reduce` fold, and an empty list gives `{}` |
| MetricsController.SummaryKeys | src/controllers/metrics.controller.js:6-11 | the summary's keys are the buckets' ids, `'unknown'` for a missing one |
| MetricsController.SummaryUntouched | src/controllers/metrics.controller.js:6-11 | a key no bucket names keeps its earlier value |
| MetricsController.SummaryLastWins | src/controllers/metrics.controller.js:6-11 | a later duplicate overwrites an earlier one: the key holds the last bucket's count (0 when missing) |
| MetricsController.Present | src/controllers/metrics.controller.js:28 | a `$group` result holds only groups that occur, each with an id and a positive count |
| MetricsController.PresentSummary | src/controllers/metrics.controller.js:42-50 | folding a `$group` result gives each group's size, and the default 0 for a group with no documents |
| MetricsController.StatusGroups | src/controllers/metrics.controller.js:28 | there is one group per status, with that status's record count |
| MetricsController.ByStatusCounts | src/controllers/metrics.controller.js:42-50 | each status maps to its record count; `active` counts the connected records and `waiting` the `waiting-code` plus `waiting-qr` records |
| MetricsController.CountsNest | src/controllers/metrics.controller.js:29-34 | failed ≤ total, last-24h ≤ total, last-24h failed ≤ last-24h total, and last-24h failed ≤ failed |
| MetricsController.GetOverviewMetrics | src/controllers/metrics.controller.js:13-64 | gives the session total, the status summary with active and waiting, and each message count over its filter. Incoming plus outgoing is the total, and the counts nest. `latest` is the ten newest by `createdAt` |
| MetricsController.SessionSummaries | src/controllers/metrics.controller.js:85-92 | the direction summary adds up to the session's total, and its `failed` status entry is the failed count |
| MetricsController.GetSessionMetrics | src/controllers/metrics.controller.js:66-119 | the id is lowercased without trimming; an unknown session gives a 404. The counts, summaries and nesting are for exactly that id, and the twenty newest by `createdAt` all belong to it |

## Left out

- The protocol engine (Baileys) is outside the model. Creating sockets, the version fetch, the
  credential store, `onWhatsApp`, `sendMessage`, `requestPairingCode`, `logout`, `end` and the
  event emitter are foreign calls. Their outcomes are parameters, and `jidNormalizedUser` is
  uninterpreted.
- The file-system work is I/O and is not modelled: `mkdir` of the credential folder
  (src/whatsapp/index.js:77) and its `rm` on deletion (src/whatsapp/index.js:355). So is
  `creds.update` saving credentials.
- Logging (pino) and `qrcode-terminal` rendering are output only. A caught error that is only
  logged becomes "no change".
- Concurrency is not modelled. Each async method is one atomic step, and `Promise.all` runs its
  writes in batch order. `ensureSocket` awaits between its `has` and its `set`, so concurrent
  callers can open two sockets; the model does not assert at-most-one connection under
  concurrency.
- WhatsAppService.Service.WritePairingCode: the interleaving in which a `qr` event is handled
  while `requestPairingCode` awaits the engine's code is not modelled. The `waiting-code` write
  (src/whatsapp/index.js:235-241) clears the QR code, the `qr` handler may then set it
  (src/whatsapp/index.js:102-109), and the code write (src/whatsapp/index.js:245-248) keeps it.
  The record would then hold both challenges, so the exclusivity in `Service.Valid` holds only
  under the atomic-step model.
- Timers: the 2000 ms reconnect delay is not measured. A scheduled reconnect is a queue entry
  that `FireRetry` serves.
- `Number(query.limit)`, `new Date(query.before)` and the seconds-to-milliseconds conversion are
  JavaScript number parsing. They are inputs (`Option<int>`, `None` for NaN or an invalid date)
  or integers.
- `listSessions` (src/controllers/session.controller.js:31-34) is left out. It sorts by the
  `updatedAt` timestamp, and the record in this model carries no timestamps.
- The `timestamps: true` fields `updatedAt` are not modelled. A message's `createdAt` is the
  time of the call.
- `.select(...)` and `.lean()` projections are not modelled: listed documents are whole records.
- `generatedAt` in the overview is clock output and is left out.
- `$group` output order is not modelled: the buckets come in enum order. The summary does not
  depend on the order, because the group ids are distinct.
- MessageController.LimitCount: a negative `limit` passes through `ListLimit` unchanged, as
  `Math.min` lets it. `.limit` of a negative number is taken as its absolute value, which is how
  the driver reads it (a single batch).
- MessageModel.Merge: an upsert keeps an existing document's `createdAt` and `errorMessage` and
  replaces every other field. Mongoose defaults applied on insert (`setDefaultsOnInsert`) are
  not modelled separately.
- WhatsAppService.Service.SendTextMessage: a non-string `message` (coerced with `String()`) is not
  modelled, because message bodies are strings in this model. The response object itself is
  reduced to its message id.
- A failure to store the audit record is not surfaced, as in the source. This covers a
  duplicate key or an empty id, and `MessageModel.Create` then leaves the collection unchanged.
- JsStrings.Lower: only the ASCII letters `A`-`Z` are lowercased; every other character is kept
  as it is. JavaScript's `toLowerCase` lowercases every Unicode letter and can change the length
  (`'İ'` becomes two code units). For a session id with non-ASCII letters, the stored key,
  `normalizeId`, the schema's stored form and the registry key therefore differ from the code's.
  Strings are sequences of Unicode scalar values, not UTF-16 code units.
- SessionController.CreateSession: the session id is modelled as an optional string only. The
  code coerces a non-string `sessionId` with `String(value)`
  (src/controllers/session.controller.js:9), so a JSON body such as `{"sessionId": 123}` is
  accepted there and creates the session `123`; the model has no such input.
- WhatsAppText.SanitizePhone: a non-string phone is not modelled. The code coerces it with
  `String(value ?? '')` (src/whatsapp/index.js:27), so `{"to": 5511999}` is accepted there.
- SessionController.LabelOf: a non-string label is not modelled. `label?.trim()`
  (src/controllers/session.controller.js:22) throws a `TypeError` for one, which becomes a 500.
- SessionController.CreateSession: the Mongoose `ValidationError` raised for an id that
  normalises to nothing is the `validationError` parameter.
- ErrorHandling.ErrorHandler: an error that is not an `HttpError` is modelled without a
  `details` field. So `details` appears only for an `HttpError` with truthy details (the code
  would also copy a foreign error's `details`).
- MetricsController.GetSessionMetrics: `findOne` casts the filter through the schema's `trim` setter, but the
  message queries only lowercase. So an id padded with spaces finds its session and counts
  none of its messages. The model states exactly this.
