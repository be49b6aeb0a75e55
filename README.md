# phonemasking — a Dafny model of the message-relay core

phonemasking connects a pet-sitting business's Airtable base to Twilio Proxy.
Sitters and clients text each other through masked proxy numbers. The service:

- relays each message and logs it to the Messages table (`POST /intercept`);
- keeps the sitter's proxy participant in sync with the number stored in Airtable;
- tracks each client's activity and closes sessions idle for more than 14 days;
- hands sitters numbers from a pool and rotates them (`POST /attach-number`);
- has two workers: one releases the numbers of clients idle for 14 days, the other re-sends messages left pending.

This project models that core in Dafny and proves properties of the model.

Layout, one module per source file plus three shared modules:

| file | module | models |
|---|---|---|
| `wrappers.dfy` | `Wrappers` | `Option`, `Result`, `Outcome` (a call that may fail), `Call` (a call that may raise), `First` (Python's `next(...)` over a generator) |
| `values.dfy` | `Values` | Airtable field values with Python truthiness and `str()`, records, audit events, `table.update` |
| `pystr.dfy` | `PyStr` | the `str` built-ins the core uses: `strip`, `split`, `lower`, `upper`, `in`, `startswith`, `join` |
| `formatters.dfy` | `Formatters` | `utils/formatters.py` |
| `request_parser.dfy` | `RequestParser` | `utils/request_parser.py` |
| `airtable_client.dfy` | `AirtableClient` | `services/airtable_client.py` (class `Base`: the tables) |
| `twilio_proxy.dfy` | `TwilioProxy` | the Twilio Proxy calls the core makes (class `Proxy`: the requests sent) |
| `number_pool.dfy` | `NumberPool` | `services/number_pool.py` |
| `numbers_router.dfy` | `NumbersRouter` | `routers/numbers.py`, `/attach-number` |
| `ttl_manager.dfy` | `TtlManager` | `services/ttl_manager.py` |
| `deallocate_worker.dfy` | `DeallocateWorker` | `services/deallocate_worker.py`, one pass |
| `fallback_worker.dfy` | `FallbackWorker` | `services/fallback_worker.py`, one message |
| `intercept.dfy` | `Intercept` | `routers/intercept.py` |

Modelling conventions:

- The Airtable tables are fields of class `Base`, and the proxy service is class `Proxy`. Operations that change them are methods with `modifies` frames.
- Every store or Twilio call takes its outcome as a parameter (`ok`, `Call<T>`), so each failure path is modelled. Nothing is chosen nondeterministically.
- The two request handlers and the deallocation pass are first written as pure functions of the state before the call: `Attach`, `Handle` and `Sweep`. Each method is proved to produce exactly that function's response and new state. The properties are then proved as lemmas about the function.
- Airtable formulas become predicates on a record:
  - `SEARCH` is substring search;
  - `=` is equality;
  - `FIND` on a linked-record field is substring search in the ids joined by `", "`.
- A lookup returns the first matching record in table order.
- Timestamps carry their ISO parse, already computed: aware, naive or unparseable, in UTC epoch seconds. The clock is a parameter.
- `datetime.utcnow().isoformat()`, which the code writes for "now", is naive.

## Model

| member | source | states |
|---|---|---|
| Wrappers.First | routers/intercept.py:88 | `next(generator, None)`: None exactly when no element satisfies the condition; otherwise the first element that does, every element before it failing the condition |
| Values.Patch | services/airtable_client.py:277-279 | `table.update(id, patch)` merges the patch into the record with that id, keeps every record's id, and leaves every other record unchanged |
| Values.TextOf | routers/intercept.py:71-72 | only text values have a string reading (`startswith` and comparison with a string); the reading is what `str()` renders |
| Formatters.FormatDisplayName | utils/formatters.py:2-19 | "Unknown" for an empty name or one that strips to "Unknown"; IndexError exactly for a non-empty all-blank name; a one-word name is that word stripped; two or more words give the first word, a space, the upper-cased initial of the last word and a dot |
| Formatters.MiddleWordsIgnored | utils/formatters.py:11-19 | two names that agree on their first and last words format the same |
| Formatters.AbbreviatedShape | utils/formatters.py:16-19 | the abbreviated form is the first word, one space, the upper-cased initial of the last word, then '.', three characters longer than the first word |
| Formatters.TwoWordName | utils/formatters.py:4-5 | "First Last" formats as "First L." for any two blank-free words |
| Formatters.ExampleOneWord | utils/formatters.py:6 | "John" formats as "John" |
| RequestParser.Texts | utils/request_parser.py:31-32 | the form's items become text values under the same keys |
| RequestParser.Merged | utils/request_parser.py:36-38 | body keys plus query keys; a body value is never overwritten; a query value fills only keys the body lacks |
| RequestParser.Missing | utils/request_parser.py:40 | exactly the required fields that are absent or falsy, never more than were required |
| RequestParser.Restrict | utils/request_parser.py:48-50 | the keys kept are the data's keys that are allowed, with their values |
| RequestParser.Allowed | utils/request_parser.py:49 | the allowed keys are the required ones and the optional ones |
| RequestParser.SetDefaults | utils/request_parser.py:36-38 | the `setdefault` loop yields the merged map (loop invariants over the keys still pending) |
| RequestParser.ParseIncomingPayload | utils/request_parser.py:5-52 | the method computes `Normalized`: JSON body when the content type asks for JSON and it is a non-empty object, else the form, then query defaults, the 422 check, the optional restriction |
| RequestParser.NormalizedContract | utils/request_parser.py:40-52 | 422 exactly when some required field is absent or falsy; the 422's detail is "Missing required field(s): " followed by the missing fields in required order, joined by ", "; on success every required field is present and truthy; without optional fields the merged map is returned whole, with them its restriction to required and optional keys |
| RequestParser.QueryNeverOverwrites | utils/request_parser.py:36-38 | on success every body value survives and every query key is present |
| RequestParser.NoRequiredNeverFails | utils/request_parser.py:40-45 | with no required fields the parse always succeeds |
| RequestParser.JsonBodyWins | utils/request_parser.py:21-26 | a non-empty JSON object sent as JSON is the body |
| RequestParser.FormFallback | utils/request_parser.py:28-34 | without JSON content, or with an empty or unreadable JSON body, the body is the form, or empty when the form cannot be read |
| RequestParser.MissingInOrder | utils/request_parser.py:40 | the missing fields keep the order of the required list |
| AirtableClient.CleanNumber | services/airtable_client.py:38 | the cleaned number holds only digits and is no longer than the input |
| AirtableClient.CleanNumberOfChar | services/airtable_client.py:38 | a single digit is kept and a single non-digit is dropped |
| AirtableClient.CleanNumberExample | services/airtable_client.py:38 | "+1 (555) 010-0000" cleans to "15550100000" |
| AirtableClient.CleanNumberConcat | services/airtable_client.py:38 | cleaning keeps the digits in order: cleaning a concatenation is the concatenation of the cleanings |
| AirtableClient.CleanNumberOfDigits | services/airtable_client.py:38 | cleaning a string of digits changes nothing |
| AirtableClient.TenDigitKey | services/airtable_client.py:40 | the key is the last ten digits of the cleaned number, or all of them when there are fewer |
| AirtableClient.TenDigitKeyDropsPrefix | services/airtable_client.py:39-40 | a country code or punctuation in front of a number with ten or more digits does not change its key |
| AirtableClient.FindSitterByTwilioNumber | services/airtable_client.py:30-57 | None for an empty number or a failed query; a sitter returned is in the table and matches on Twilio Number or Phone Number; None from a successful query means no sitter matches |
| AirtableClient.FindClientByPhone | services/airtable_client.py:74-96 | the same three facts for clients matched on Phone Number |
| AirtableClient.Available | services/airtable_client.py:217-225 | a record is in the available list exactly when it is in the table with a phone number and no assigned sitter |
| AirtableClient.AvailableConcat | services/airtable_client.py:218-225 | the filter keeps table order |
| AirtableClient.AvailableHead | services/airtable_client.py:218-225 | the head of the available list is the first available record of the table |
| AirtableClient.FindNumberAssignedToSitter | services/airtable_client.py:241-259 | None without a query for an id that strips to empty; a failed query raises; a record returned is in the inventory and linked to the stripped id; None from a successful query means no record is linked to it |
| AirtableClient.AssignedIsNotAvailable | services/airtable_client.py:221-224 | a record linked to a sitter is never available |
| AirtableClient.ReservedIsTaken | services/airtable_client.py:277-279 | after a reservation the record is linked to the sitter, not available, and every other field is unchanged |
| AirtableClient.ReleasedIsFree | services/airtable_client.py:290-292 | after a release a record with a phone number is available again, and every other field is unchanged |
| AirtableClient.Base.LogEvent | services/airtable_client.py:185-201 | one audit row is appended when the store accepts the write; otherwise nothing is appended and the failure is raised, since the write is not guarded |
| AirtableClient.Base.SaveMessage | services/airtable_client.py:167-183 | one message row with the session, numbers, body and a naive timestamp is appended when the store accepts it |
| AirtableClient.Base.UpdateClientSession | services/airtable_client.py:154-165 | the client's Session SID and Last Active are set; an unknown id or a store failure raises and changes nothing |
| AirtableClient.Base.CreateOrUpdateClient | services/airtable_client.py:98-136 | an existing client (first phone match) gets Name, Last Active and the extra fields and `(record, False)`; otherwise a new record with Phone Number, Name, Created At and the extra fields, and `(record, True)` |
| AirtableClient.Base.GetAvailableNumbers | services/airtable_client.py:203-239 | the loop returns exactly `Available(inventory)`; a failed read raises |
| AirtableClient.Base.ReserveNumber | services/airtable_client.py:261-279 | an id that strips to empty raises ValueError before any update; otherwise the record is linked to the stripped id, or the store failure raises and nothing changes |
| AirtableClient.Base.ReleaseNumber | services/airtable_client.py:281-292 | Assigned Sitter is cleared on that record alone, or the store failure raises and nothing changes |
| TwilioProxy.Proxy.CloseSession | services/twilio_proxy.py:77-92 | the close request is recorded, and a failure is raised again |
| TwilioProxy.Proxy.AddParticipant | services/twilio_proxy.py:50-75 | the add request is recorded, and a failure is raised again |
| TwilioProxy.Proxy.RemoveParticipant | routers/intercept.py:102 | the remove request is recorded, and a failure raises |
| TwilioProxy.Proxy.SendSessionMessage | services/fallback_worker.py:61 | the send request is recorded, and a failure raises |
| NumberPool.Head | services/number_pool.py:26-29 | None exactly for an empty list, otherwise its first element |
| NumberPool.NextAvailableIsFirst | services/number_pool.py:18-29 | the number handed out is the first available record of the inventory; there is none exactly when no record is available |
| NumberPool.GetNextAvailableNumber | services/number_pool.py:18-29 | returns `NextAvailable(inventory)`, which is in the inventory and available; a failed read raises |
| NumberPool.AssignNumberToSitter | services/number_pool.py:31-50 | True and the reservation exactly when `reserve_number` completes; otherwise False, or the exception when `raise_on_error` is set, and nothing changes |
| NumberPool.MoveOldNumberToStandby | services/number_pool.py:52-68 | True and the release exactly when `release_number` completes; never raises |
| NumberPool.AssignedLeavesPool | services/number_pool.py:31-50 | after an assignment the number has left the available list, and every other available number is still in it |
| NumbersRouter.RequestedSitterId | routers/numbers.py:53-59 | a non-empty body value wins over a non-empty query value; neither gives None (422) |
| NumbersRouter.AttachNumber | routers/numbers.py:30-122 | the endpoint's response, inventory and audit log are those of `Attach` on the inventory before the call |
| NumbersRouter.RotateNumbers | routers/numbers.py:100-122 | steps 3 to 5 give the response, inventory and audit log of `Rotate` |
| NumbersRouter.AttachFailureChangesNothing | routers/numbers.py:59-120 | every error response records no NUMBER_ROTATION event; every error other than a failed audit write leaves the inventory unchanged; an error changes the inventory only when the audit write fails after a rotation that would otherwise have succeeded |
| NumbersRouter.ReleaseFailureKeepsResponse | routers/numbers.py:112-122 | a failed release of the old number is only logged: the response is the same as when the release succeeds |
| NumbersRouter.AuditFailureAfterCommit | routers/numbers.py:100-120 | when the NUMBER_ROTATION write fails after a rotation that would have succeeded, the answer is a 500, the reservation and release stay made, and no event is recorded |
| NumbersRouter.AttachRecordsRotation | routers/numbers.py:120 | success records exactly one NUMBER_ROTATION event, for the requested sitter id |
| NumbersRouter.NeverPhoneFieldMissing | routers/numbers.py:84-90 | the "phone number field not found" error cannot happen: the pool only hands out records with a phone number |
| NumbersRouter.EmptyPoolRejects | routers/numbers.py:66-82 | with no available record the answer is 500, the inventory is unchanged and no NUMBER_ROTATION event is recorded |
| NumbersRouter.RotateReserves | routers/numbers.py:100-105 | success answers with the new record's number, and that record is linked to the stripped sitter id and out of the pool |
| NumbersRouter.RotateReleasesPrevious | routers/numbers.py:107-115 | the sitter's old record is never the new one; it is released when the release succeeds and unchanged otherwise; no other record changes |
| NumbersRouter.AttachRotates | routers/numbers.py:62-97 | on success the new record is the first available one, and the old record is the sitter's current, unavailable one |
| TtlManager.IsTtlExpired | services/ttl_manager.py:21-44 | expired exactly when Last Active is set, parses to an aware time, and lies strictly more than 14 days before now |
| TtlManager.ExpiryIsStrict | services/ttl_manager.py:38 | exactly 14 days is not expired; one second more is |
| TtlManager.ExpiryIsMonotone | services/ttl_manager.py:38 | once expired, a client stays expired as time passes |
| TtlManager.TouchedNeverExpires | services/ttl_manager.py:36-38 | a Last Active as `update_client_session` writes it (naive) never reads as expired |
| TtlManager.UpdateLastActive | services/ttl_manager.py:46-60 | the client is touched when the store accepts it; a failure is swallowed and nothing changes |
| TtlManager.ExpiryRequests | services/ttl_manager.py:77-79 | at most one request: a close of the client's session, exactly when it has one |
| TtlManager.HandleTtlExpiry | services/ttl_manager.py:62-83 | closes the session when there is one, swallowing a failure, then records one TTL_EXPIRY event; a failed audit write raises out of it and records nothing |
| DeallocateWorker.Age | services/deallocate_worker.py:48-55 | an age exactly when Last Active parses; a naive time counts as UTC |
| DeallocateWorker.VisitClient | services/deallocate_worker.py:35-74 | a deallocation is requested only for an expired client, under its own id; it succeeds only when requested; the client is logged only when it is released |
| DeallocateWorker.Sweep | services/deallocate_worker.py:34-74 | no more events than deallocation calls, and no more calls than clients |
| DeallocateWorker.CheckAndDeallocate | services/deallocate_worker.py:19-76 | a failed client listing raises; an empty one does nothing; otherwise the calls, `deallocated_count` and the audit log are those of `Sweep` over the clients in order |
| DeallocateWorker.CheckClient | services/deallocate_worker.py:35-74 | one iteration of the loop is `VisitClient` and logs one event exactly when the client is released and the audit write succeeds |
| DeallocateWorker.SweepSplit | services/deallocate_worker.py:34 | clients are handled independently: a pass over two lists is the pass over the first followed by the pass over the second |
| DeallocateWorker.FailingClientIsSkipped | services/deallocate_worker.py:73-74 | a client whose inventory lookup raises contributes nothing and does not stop the clients after it |
| DeallocateWorker.UndatedIsSkipped | services/deallocate_worker.py:41-43 | a client without Last Active is never deallocated |
| DeallocateWorker.ThresholdIsStrict | services/deallocate_worker.py:52-57 | expired exactly when the age is strictly more than 14 days, with a naive time read as UTC |
| DeallocateWorker.ReleasedIff | services/deallocate_worker.py:57-67 | released exactly when expired, the inventory record is found and `deallocate_client` reports success; the call is made exactly when expired and found; the event is recorded and counted exactly when released and the audit write succeeds |
| DeallocateWorker.ThreeClientScenario | tests/test_deallocation.py:20-55 | one client idle 15 days, one 5 days, one undated: only the first is deallocated, with its inventory record, and, when its audit write succeeds, one event is recorded |
| FallbackWorker.StatusBoard.UpdateMessageStatus | services/fallback_worker.py:43 | the write is recorded; the status changes when the store accepts it, and the failure raises otherwise |
| FallbackWorker.RetryPlan | services/fallback_worker.py:33-71 | aborted exactly when a field is missing; a failed participant listing gives "Retry Error" and no send; for a complete message, a send exactly when some participant is on the sender's number and some is on another, to the first of the latter; without a send the status is "Retry Failed (No Participants)"; after a send it is "Sent (via Fallback)" when the send succeeds and "Retry Error" when it raises |
| FallbackWorker.RetryMessage | services/fallback_worker.py:33-71 | the requests sent, the status writes (a failed write in the `try` is followed by "Retry Error"), the final status and whether an exception escapes |
| FallbackWorker.TryResend | services/fallback_worker.py:46-65 | the `try` block: the send, the status written in it, and whether it raised |
| FallbackWorker.IncompleteIsAborted | services/fallback_worker.py:41-44 | a message without session, sender or body is not sent and gets one "Retry Aborted (Missing Fields)" write |
| FallbackWorker.OneStatusWrite | services/fallback_worker.py:43-71 | when the store accepts the write, exactly one status is written |
| FallbackWorker.LastWrite | services/fallback_worker.py:55-71 | the last status written is the planned one, or "Retry Error" when the write in the `try` failed |
| FallbackWorker.NoSendWithoutBothParticipants | services/fallback_worker.py:50-56 | when no participant, or every participant, has the sender's number, nothing is sent and the status is "Retry Failed (No Participants)" |
| Intercept.SessionId | routers/intercept.py:41 | `interactionSessionSid` when it is truthy, else `SessionSid` |
| Intercept.MessageBody | routers/intercept.py:44-51 | `Body` when it is truthy; else the decoded `interactionData` body when it decodes; a decoding failure keeps `Body` |
| Intercept.Received | routers/intercept.py:53-63 | the participant lookup runs only when From is missing and a participant sid and a session are present; then a raising lookup raises, a participant found sets From to its identifier and To to its proxy identifier, and none found leaves the message as extracted; otherwise the message is as extracted; session and body are never touched |
| Intercept.EnsurePlus | routers/intercept.py:71-72 | the result starts with "+"; a number that has one is unchanged, any other gets one prepended |
| Intercept.HandleIntercept | routers/intercept.py:27-134 | the response and the changes to clients, messages, audit log and proxy requests are those of `Handle` on the state before the call |
| Intercept.RelayMessage | routers/intercept.py:76-134 | steps 2 to 4 as `Relay` |
| Intercept.DeliverMessage | routers/intercept.py:106-134 | steps 3 and 4 as `Deliver` |
| Intercept.TrackSender | routers/intercept.py:109-117 | the client looked up is `ClientOf` (none for the sitter's own number) and is tracked as `Track`; it raises exactly when tracking raises |
| Intercept.TrackClient | routers/intercept.py:113-117 | Last Active is updated, then an expired client (judged on the record as read) has its session closed and one TTL_EXPIRY event recorded; a failed audit write raises; messages are untouched |
| Intercept.TrackTouchesAndLogs | routers/intercept.py:113-117 | for a client in the table that does not raise: messages untouched, its record refreshed when the store accepts it, one TTL_EXPIRY event exactly when it has expired |
| Intercept.DigitIds | routers/intercept.py:97 | the digits kept from a list of linked-record ids are digits only |
| Intercept.DigitIdsOfOne | routers/intercept.py:97 | a single id is kept whole exactly when it is non-empty and all digits, and dropped otherwise |
| Intercept.DigitIdsConcat | routers/intercept.py:97 | the ids are filtered one by one in order: the digits of a concatenation are the concatenation of the digits |
| Intercept.PhoneDigits | routers/intercept.py:94-97 | the digits of the stored Phone Number: the cleaned text, or for a linked-record list the ids made only of digits, joined; no reading exactly for a missing value or one that is neither text nor a list, where the comparison raises |
| Intercept.SyncSitter | routers/intercept.py:82-104 | the participant sync sends the requests of `SitterSync` and raises when it does |
| Intercept.MissingFieldsChangesNothing | routers/intercept.py:65-68 | the "Missing critical fields" answer comes exactly when the parsed message lacks From, To, Body or the session, and it changes nothing |
| Intercept.TrackKeepsMessages | routers/intercept.py:107-117 | client tracking never touches the Messages table |
| Intercept.DeliverSavesOneMessage | routers/intercept.py:119-134 | steps 3 and 4 save exactly one message when they answer, and none otherwise |
| Intercept.ReplySavesOneMessage | routers/intercept.py:119-134 | an answered request saved exactly one message (session, normalised numbers, original body); any other outcome saved none |
| Intercept.SitterSenderIsNotTracked | routers/intercept.py:109-129 | a message from the sitter's own number touches no client, records no TTL_EXPIRY event, and its body is relayed unchanged |
| Intercept.DeliverFromSitter | routers/intercept.py:109-129 | at the level of steps 3 and 4: the sitter's own message touches no client, records no TTL_EXPIRY event and is answered with the body unchanged |
| Intercept.DeliverFromClient | routers/intercept.py:109-134 | at the level of steps 3 and 4: a matched client's message is answered as "[Name]: body", with its record refreshed and one TTL_EXPIRY event when expired |
| Intercept.UnknownSenderIsPrefixed | routers/intercept.py:124-134 | a sender who is neither the sitter nor a known client is answered as "[Unknown Client]: body", and no client record or TTL_EXPIRY event changes |
| Intercept.ClientMessageIsPrefixed | routers/intercept.py:109-134 | a matched client's message is relayed as "[Name]: body"; Last Active is refreshed when the store accepts it; an expired client adds one TTL_EXPIRY event |
| Intercept.ResyncOnlyOnMismatch | routers/intercept.py:94-104 | the sitter's participant is replaced exactly when the digits of its number differ from the digits of the stored Phone Number: a remove, then an add of the stored number on the proxy number |
| Intercept.FormattingNeverResyncs | routers/intercept.py:94-99 | a participant "+1 (555) 010-0000" against a stored "15550100000" triggers no request and no error |
| Intercept.NormaliseIsIdempotent | routers/intercept.py:71-72 | normalising a normalised number changes nothing |

## Left out

- Twilio and Airtable themselves are not modelled. Each call's outcome is a parameter: a success flag, a returned value or a raise.
- These helpers are called by the core but are not defined in the files modelled, so they appear only through their outcomes:
  - `get_assigned_clients`, `find_inventory_record_by_number`, `deallocate_client`;
  - `get_pending_messages`, `update_message_status`;
  - `list_participants`, `get_participant`, `remove_participant`, `send_session_message`.
- The Airtable formula language is approximated by predicates on a record (see above). Airtable's own matching rules are not modelled: case handling, record order beyond table order, and the effect of quotes inside a formula string.
- Logging is not modelled, and neither is the free-text description of an audit event. `log_info`, `log_error` and `log_success` (utils/logger.py) also append INFO, ERROR and SUCCESS rows to the Audit Log, on almost every path, and swallow a failure to do so. The model's `audit` holds only the core's own NUMBER_ROTATION, TTL_EXPIRY and NUMBER_DEALLOCATED rows. Every statement that a path records no event, or leaves the audit log unchanged, is about those rows only.
- An audit event records its type and the record or sitter it concerns. A failure of `log_event` is modelled as an outcome flag.
- The clock and ISO-8601 parsing are parameters. A timestamp carries its parse as epoch seconds, so sub-second precision and timezone offsets other than UTC are not modelled. A text value in a timestamp field is represented as a `Stamp`, and any other value reads as unparseable.
- JSON decoding of `interactionData` is a parameter. A request body that is JSON but not an object is not modelled.
- Unicode is only partly modelled: `strip` and `split` know the ASCII and Latin-1 whitespace characters, and `isdigit`, `lower` and `upper` know ASCII only. Other Unicode whitespace, digits and case are not modelled.
- The record id of a newly created client is a parameter.
- Intercept.PhoneDigits: a stored Phone Number that is neither text nor a list of linked-record ids (a number, a dictionary) is taken to raise in the digit comparison. Python raises on a number but not on every iterable, and Airtable does not return such values for a phone field.
- `/numbers/debug`, `create_session`, `update_proxy_number`, `find_sitter_by_id`, `create_client` and `find_active_sessions_for_sitter` are outside the core.
- `routers/sessions.py`, the background loops of both workers, and the thread and asyncio plumbing are not modelled. Each worker is modelled as one pass, or one message.
- The diagnostic text of the empty-pool 500 in `attach_number` is not modelled; the model keeps only the status and the reason.
- TtlManager.TouchedNeverExpires: the model assumes a stored value is read back as written. If Airtable reformats a naive Last Active as an aware time, this lemma does not describe the deployed behaviour.
