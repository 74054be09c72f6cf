# FinFlux control protocols, verified

FinFlux lets a team of agents work on financial evidence under a hard model
budget, and lets nothing be released without a Human decision. Between the web
pages and the reports sit a few deterministic protocols that carry those
promises. This project models them in Dafny and proves the promises for every
input, every run and every place where the process may stop.

| files | what they model |
|---|---|
| `Gateway`, `GatewayService`, `GatewayRuns`, `GatewayAudit`, `GatewayUsage`, `GatewayAnswers` | the model-budget gateway: reservations made before a model call, settled when the provider answers, with seven control calls that may come in between |
| `ChunkExtensions`, `ChunkedBody`, `ChunkWriter` | the bounded reader of HTTP/1.1 chunked request bodies (section 7.1 of RFC 9112), and an independent writer for it |
| `RunCreation` | idempotent Run creation in three files, with a stop allowed before each write |
| `BoundedRecall` | the packer that cuts recalled memory to a character, token and item budget |
| `MemoryStore`, `MemoryService`, `MemoryAnswers` | the content-addressed memory store, its ranked index and its cache |
| `StopLedger`, `StopAcceptance` | the append-only emergency-stop ledger |
| `UsageAttribution`, `UsageRows` | the difference of two provider-usage snapshots, attributed to one Run |
| `RunLifecycle`, `HumanGate`, `HumanGateDecisions`, `HumanGateEffects`, `HumanGateService` | the lifecycle of a Run and the Human Gate under every call that rewrites a Run file |
| `ContextCapsule`, `CapsuleContents` | content-addressed, role-isolated context slices |
| `Basics` | options, outcomes, digests, sums over maps |

How things are modelled:

- Files are fields of a class (`ControlRoot`, `LiveIntake`, `ContextMemory`,
  `EmergencyStopLedger`, `RunFile`, `CapsuleStore`); the calls are its methods.
  Each method's contract ties the new files and the answer to a function on
  values, and what the protocol promises is proved about those functions, mostly
  over histories: sequences of states in which any call follows any other.
- SHA-256 over canonical JSON is injective: the digest of a record is the record
  under a constructor. A digest read from a file may also match no record.
- Clocks, uuids and provider answers are inputs. An id that the source draws
  fresh is one that was never used before in the history.
- A raised exception is an `Err`. What was written before it was raised stays.
- A crash is a call that stops before one of its writes: the parameter `writes`
  or `stages` counts the writes that still happen.
- Ids and roles that the source trims are taken as already trimmed, except where
  trimming matters (memory summaries, roles and queries).

What the proofs found out about the code:

- A settling call compares the new total with the cap in the binding it was let
  through under, not with the cap in force when it returns
  (`GatewayRuns.AfterCallFuseExactly`), so a cap raised while a call is in flight
  does not save that call from the fuse: `GatewayUsage.RaiseInFlightDoesNotSave`
  is such a Run.
- A reservation is made for `max_tokens` when both output limits are present, and
  a larger `max_completion_tokens` is forwarded unreserved
  (app/model_budget_gateway.py:345-406). `GatewayUsage.ReservationCoversExactly`
  says when the reservation covers what is forwarded,
  `GatewayUsage.SecondLimitIsNotReserved` is an input at which it does not. A
  negative `max_completion_tokens` beside a readable `max_tokens` is refused only
  after the reservation was made, exactly then
  (`GatewayUsage.RefusedAfterReservationExactly`). Nothing settles that reservation:
  it stays open until a re-arm or the next Run's preparation, and no rotation goes
  through beside it (`GatewayUsage.UnsettledBlocksRotation`);
  `GatewayUsage.LateRefusalStrands` is such a Run.
- Usage that comes back to a call whose reservation is gone, or to a tripped fuse,
  never reaches a ledger. Over every history `GatewayUsage.LossIsExact` balances what
  providers reported to a Run against what its ledgers count, in place or archived;
  `GatewayUsage.UsageMayBeLost` is a Run that loses 21 tokens.
- A Human decision that a poll brings is persisted exactly when the Run file
  already waits for a Human, has the decision's own phase, or is only routed and the
  decision is not an approval (`HumanGateDecisions.PolledDecisionExactly`; the poll
  must be bound to the Run and must not bring a plan whose DataPass cannot be
  built). From every other phase the poll is refused and the file stays as it is,
  however often the poll is repeated. Two such inputs are given as histories: a
  decision over a drafted DataPass whose open gate no poll has reported
  (`HumanGateDecisions.DecisionOnDraftIsRefused`), and a decision that comes together
  with the complete plan in one poll
  (`HumanGateDecisions.DecisionWithThePlanIsRefused`). The source means to record
  `AWAITING_HUMAN` first (app/live_intake.py:5123-5129), but the gate is already
  decided by then, so the phase asked for is the decision's own and the transition
  table forbids it.
- A persisted decision is taken back by a poll that reports `AWAITING_HUMAN` again
  (app/live_intake.py:5096-5098 overwrites the gate unconditionally) and by the
  recovery of a decided Run without DataPass, and by no other call
  (`HumanGateDecisions.DecisionTakenBackExactly`). The lifecycle keeps saying that
  the Run was decided; `HumanGateDecisions.StalePollTakesApprovalBack` is such a Run.
- "A gate waiting for a Human has a DataPass" holds for every Run of protocol V0.2
  and fails for a legacy Run. A call opens a gate without a DataPass exactly when it
  is a poll that reports `AWAITING_HUMAN` for a legacy Run which has no DataPass and
  for which the poll brings no complete plan (`HumanGateDecisions.OpensBareExactly`,
  and over histories `HumanGateDecisions.BareWaitHasItsPoll`);
  `HumanGateDecisions.LegacyGateMayWaitWithoutDatapass` is such a Run.
- A memory reference whose role has a blank around it is committed as given, while
  every lookup trims the role it asks for. The commit is answered as stored and no
  lookup ever finds the reference (`MemoryStore.PaddedRoleIsNeverFound`,
  `MemoryStore.PaddedRoleIsCommitted`).
- Binding files are named by Run and role segments, in which every run of unsafe
  characters is one dash. A valid, approved reference is refused as a collision when
  another record, of another Run id or role with the same segment or with another
  approval, stands at its path; `MemoryStore.CommitExactly` says exactly when, and
  `MemoryStore.OtherRoleCollides` commits for "a b" and is refused for "a-b".
- A Content-Length of more than 4300 digits, leading zeros included, makes Python's
  `int()` raise; `read_request_body` does not catch it, so the request ends with
  that error and not with one of the reader's own refusals
  (`ChunkedBody.ReadRequestBody`, `ChunkedBody.LongLengthIsNotConvertible`).
- Repeating an emergency stop is idempotent, repeating a usage reconciliation
  never is: it is refused as no longer superseding the newest record
  (`StopLedger.RepeatedReconciliationIsRefused`, and as a history
  `StopLedger.RetriedReconciliationFails`).
- A lifecycle projected for an old Run may contain an edge outside the transition
  table; `RunLifecycle.BootstrapExactly` says when, and
  `RunLifecycle.ProjectedWaitIsNoPath` is one that waited for a Human already.
- Packing a packed list again may trim blanks that a cut left behind; it is the
  identity exactly when there are none (`BoundedRecall.RepackMayTrim` is a list with
  one), and from the second packing on always.

## Model

| member | source | states |
|---|---|---|
| `GatewayService.ControlRoot.TotalExposure` | app/model_budget_gateway.py:598-602 | the loop over the open reservations answers their exact sum, in whatever order they come |
| `GatewayService.ControlRoot.Authorize` | app/model_budget_gateway.py:555-639 | a request changes the ledger file exactly as `Gateway.Authorize` says, for each of the refusals and for the grant, and touches no other file |
| `GatewayService.ControlRoot.ReleaseReservation` | app/model_budget_gateway.py:642-663 | taking a reservation back needs the call's own id and exposure and leaves the in-flight sum of the rest |
| `GatewayService.ControlRoot.RecordProviderResult` | app/model_budget_gateway.py:665-741 | settling writes record, counters and fuse before it raises, exactly as `Gateway.RecordResult` |
| `GatewayService.ControlRoot.RecordTransportFailure` | app/model_budget_gateway.py:743-776 | a failed call writes its record and trips the transport fuse |
| `GatewayService.ControlRoot.PrepareRun` | app/model_gateway_control.py:82-202 | publication in order, stopped after any stage, leaves exactly the files of `Gateway.PrepareRun` |
| `GatewayService.ControlRoot.CloseRun` | app/model_gateway_control.py:205-237 | closing writes the receipt once and answers repetitions with it |
| `GatewayService.ControlRoot.RearmAfterTransportFailure` | app/model_gateway_control.py:240-341 | re-arming writes binding then ledger and may stop in between |
| `GatewayService.ControlRoot.RearmExpiredBeforeFirstCall` | app/model_gateway_control.py:344-414 | renewing an expired, unused binding changes the binding alone |
| `GatewayService.ControlRoot.RotateActorIdentities` | app/model_gateway_control.py:417-470 | rotation needs the same actors and nothing in flight |
| `GatewayService.ControlRoot.ExtendRecoveryWindow` | app/model_gateway_control.py:473-519 | an extension needs fewer than three windows, a running ledger and budget left |
| `GatewayService.ControlRoot.RaiseBudget` | app/model_gateway_control.py:522-569 | limits of a live Run never decrease |
| `Gateway.ParseUsage` | app/model_budget_gateway.py:321-339 | a usage that is accepted is non-negative, adds up and counts one call |
| `Gateway.ParsesExactly` | app/model_budget_gateway.py:321-339 | a usage is accepted if and only if the last usage object says it under one of the two names of each field, it adds up and nothing is negative; everything else is unreadable |
| `GatewayRuns.AccountingHolds` | app/model_budget_gateway.py:555-776 | in every interleaving of requests, results and control calls: in-flight equals the open reservations, attempts equal records plus open plus re-arm-released reservations, counters equal the sums over the usage records, calls counted are as many as the usage records, cumulative usage equals baseline plus Run |
| `GatewayRuns.CapNeverExceededWhileRunning` | app/model_budget_gateway.py:590-639 | while the ledger is ACTIVE the total is within the current cap and attempts within the call limit; in any state the total less the last recorded usage is within the cap |
| `GatewayRuns.AuthorizeExactly` | app/model_budget_gateway.py:555-639 | a request of a sound world is let through if and only if it names the Run, actor, identity and task bound, the binding is live, and the total with all promises and its own exposure fits the cap |
| `GatewayRuns.ReservationsBoundTheRun` | app/model_budget_gateway.py:590-639 | if every usage stays within its reservation and no cap raise lands while a call is in flight, total plus in-flight never passes the cap and the after-call fuse never trips |
| `GatewayRuns.AfterCallFuseExactly` | app/model_budget_gateway.py:722-741 | a running ledger's after-call fuse trips if and only if the new total passes the cap captured when the call was let through |
| `GatewayAnswers.SettleAnswersExactly` | app/model_budget_gateway.py:722-741 | a returning call is answered with the usage its response says if the new total is within its captured cap, with an exceeded cap if it is above, with unreadable usage if the response says none, each an if and only if; a call without reservation or over a fuse hears which of these it is |
| `GatewayAnswers.FailureAnswersExactly` | app/model_budget_gateway.py:743-776 | a failed call is answered if and only if it holds its reservation on a running ledger |
| `GatewayAnswers.InputTokensExactly` | app/model_budget_gateway.py:360-361 | the estimate is the least positive number of tokens that covers the body at four octets each |
| `GatewayAnswers.ExposureExactly` | app/model_budget_gateway.py:345-368 | the exposure is the estimate plus the first declared limit, or plus the default where none counts |
| `GatewayAnswers.ExposureRefusals` | app/model_budget_gateway.py:353-366 | why a body has no exposure |
| `GatewayAnswers.GrantExactly` | app/model_budget_gateway.py:603-639 | a request let through leaves one more reservation in its own name, one more attempt and no other change, and its call carries the binding in force |
| `GatewayAnswers.BudgetRefusesExactly` | app/model_budget_gateway.py:590-616 | which of fuse, call count, spent total and exposure refuses an authentic request, each an if and only if |
| `GatewayAnswers.AuthenticExactly` | app/model_budget_gateway.py:555-589 | in a sound world which of Run, actor, identity and task refuses a request of a live binding, each an if and only if |
| `GatewayAnswers.ServedOnIntactFiles` | app/model_budget_gateway.py:436-553 | whoever changed the files, a call is let through only over an intact binding, its own intact baseline and an intact ledger whose promises add up |
| `GatewayAnswers.FilesRefusedExactly` | app/model_budget_gateway.py:436-508 | over any files the reason for not serving is a true one, and they serve if and only if there is none |
| `GatewayAnswers.LedgerRefusedExactly` | app/model_budget_gateway.py:509-547 | another Run's, a changed and a fused ledger, each an if and only if |
| `GatewayAnswers.ReservationTotalIsChecked` | app/model_budget_gateway.py:594-608 | a ledger whose promised tokens were changed serves no request |
| `GatewayAnswers.SettledInIntactLedger` | app/model_budget_gateway.py:641-663 | over any files a result or failure is recorded only in an intact running ledger of its Run that holds its reservation |
| `GatewayAnswers.RecordsNameTheirCalls` | app/model_budget_gateway.py:677-718 | over every history each record names Run, actor, task and reservation of a call that was let through |
| `GatewayAnswers.ForwardedIsCapped` | app/model_budget_gateway.py:371-409 | every declared limit is forwarded cut to the cap, one is always there, and the largest is reported |
| `GatewayAnswers.ForwardedRefusals` | app/model_budget_gateway.py:371-398 | why a body is not forwarded |
| `GatewayRuns.PublicationIsOrdered` | app/model_gateway_control.py:136-202 | wherever preparation stopped, an ACTIVE binding stands on its own Run's baseline with the bound digest, and the ledger is absent or its own |
| `GatewayRuns.PrepareResumes` | app/model_gateway_control.py:136-202 | a preparation stopped at any stage is finished by asking again, with the same files as if it had never stopped |
| `GatewayAnswers.RunRequestExactly` | app/model_gateway_control.py:82-135 | which requests for a new Run are sound |
| `GatewayAnswers.PrepareAnswersExactly` | app/model_gateway_control.py:136-202 | a sound request publishes its Run or finds it published unless another Run is active, the same Run is closed, or the ledger was archived before |
| `GatewayAnswers.PrepareRefusals` | app/model_gateway_control.py:136-202 | which refusal a sound request for a new Run meets |
| `GatewayAnswers.RunRequestRefusals` | app/model_gateway_control.py:82-135 | the reason given against a request is a true one, and it is refused if and only if there is one |
| `GatewayAnswers.OwnRefusals` | app/model_gateway_control.py:240-569 | which of its own conditions each control call refuses a live Run for |
| `GatewayAnswers.ControlRefusals` | app/model_gateway_control.py:240-569 | every control call refuses a Run that is not live |
| `GatewayAnswers.RearmedOnIntactFiles` | app/model_gateway_control.py:264-341 | a re-arm writes only over an intact binding and an intact ledger of its Run |
| `GatewayAnswers.WindowRefusals` | app/model_gateway_control.py:473-519 | why a further window is refused |
| `GatewayAnswers.CloseRefusals` | app/model_gateway_control.py:205-237 | why a close is refused, each an if and only if |
| `GatewayAnswers.ChangedBindingIsRefused` | app/model_gateway_control.py:136-569 | no control call touches a binding whose digest does not match |
| `GatewayAnswers.ForeignLedgerIsRefused` | app/model_gateway_control.py:264-519 | a ledger of another Run stops every control call that reads it |
| `GatewayAnswers.PreparedRunServes` | app/model_gateway_control.py:170-202 | a new Run's first request is served if and only if actor, secret and task are those asked for, in time, and its exposure is within the cap asked for |
| `GatewayAnswers.CloseExactly` | app/model_gateway_control.py:205-237 | a close is accepted if and only if it names the Run on file and a terminal state that fits; the binding is then closed with that state and asking again gives the receipt |
| `GatewayAnswers.RenewExactly` | app/model_gateway_control.py:344-414 | an expired binding is renewed by 900 seconds if and only if the Run has made no attempt |
| `GatewayAnswers.ExtendExactly` | app/model_gateway_control.py:473-519 | a window of 900 seconds is granted if and only if there are fewer than three, the ledger runs and both budgets have room |
| `GatewayAnswers.RotateExactly` | app/model_gateway_control.py:417-470 | identities are replaced if and only if the actors are the same and nothing is in flight |
| `GatewayAnswers.RaiseExactly` | app/model_gateway_control.py:522-569 | limits become those asked for if and only if neither falls |
| `GatewayAnswers.RearmOpens` | app/model_gateway_control.py:264-341 | a complete re-arm gives 900 seconds and records exactly the reservations it releases |
| `GatewayRuns.ControlKeepsUsage` | app/model_gateway_control.py:205-569 | no control call on a live Run resets a counter, forgets a record, lowers a limit or shortens a history |
| `GatewayRuns.ClosedReceiptIsFinal` | app/model_gateway_control.py:205-237 | a closed binding stays as it is until another Run is bound |
| `GatewayRuns.RearmExactly` | app/model_gateway_control.py:264-341 | exactly the transport-failure fuse of the active Run can be re-armed, and all counters and records are kept |
| `GatewayRuns.FuseAbsorbs` | app/model_budget_gateway.py:545-547 | after a fuse for unreadable usage or an exceeded cap no sequence of steps lets a call through before another Run is bound, also around a preparation that archived the ledger and stopped |
| `GatewayRuns.FusedLedgerIsKept` | app/model_budget_gateway.py:545-547 | such a ledger never changes again, in place or in the archive, over every history |
| `GatewayService.ControlRoot.EnforceOutputCap` | app/model_budget_gateway.py:371-409 | the two output limits are forwarded, capped or refused exactly as `Gateway.ForwardedBody` |
| `GatewayUsage.ReservationCoversExactly` | app/model_budget_gateway.py:345-406 | the output reserved for covers the largest limit forwarded if and only if no second limit above the first stands beside it below the cap |
| `GatewayUsage.SecondLimitIsNotReserved` | app/model_budget_gateway.py:345-406 | a concrete request reserves one output token and is forwarded with a limit of a thousand |
| `GatewayUsage.RefusedAfterReservationExactly` | app/model_budget_gateway.py:803-812 | a request with a reservation is refused before it is forwarded if and only if its second limit is negative |
| `GatewayUsage.LossIsExact` | app/model_budget_gateway.py:641-741 | over every history, what providers reported to a Run equals what its ledgers count, in place or archived, plus what came back to released, settled or fused calls |
| `GatewayUsage.UsageMayBeLost` | app/model_budget_gateway.py:743-776 | a concrete Run with two calls in flight loses the usage of one when the other fails in transport |
| `GatewayUsage.StaysOpenExactly` | app/model_budget_gateway.py:642-663 | an open reservation is gone after a step if and only if the step is its own result or failure on a running ledger, a complete re-arm, or a preparation that archives the ledger |
| `GatewayUsage.UnsettledBlocksRotation` | app/model_gateway_control.py:417-470 | over every history without such a step the reservation stays open and every rotation is refused |
| `GatewayUsage.HeldBlocksRotation` | app/model_gateway_control.py:417-470 | beside an open reservation a rotation of the active Run's own actors is refused as in flight, and any other rotation is refused too |
| `GatewayUsage.LateRefusalStrands` | app/model_budget_gateway.py:803-812 | a concrete request is reserved for, refused for its second limit and then blocks a rotation |
| `GatewayUsage.RaiseInFlightDoesNotSave` | app/model_budget_gateway.py:733-736 | a concrete Run whose raised cap would hold the total still trips the fuse when the call returns |
| `GatewayRuns.LateResultIsIsolated` | app/model_budget_gateway.py:641-663 | a call whose reservation is gone changes no file, however late and however often it comes back |
| `GatewayRuns.OtherRunsLedgerUntouched` | app/model_budget_gateway.py:509-547 | a result of one Run never changes the ledger of another |
| `GatewayRuns.RecordsAppendOnly` | app/model_budget_gateway.py:677-776 | over every history the record list and the re-arm events only grow, in place or in the archive |
| `GatewayRuns.RecordsAreChained` | app/model_budget_gateway.py:677-718 | records are numbered 1..n and each links to its predecessor's digest from GENESIS, across re-arms |
| `GatewayRuns.ChainCommitsToHistory` | app/model_budget_gateway.py:677-718 | two chains of a Run with the same last digest are equal |
| `GatewayAudit.AuditTrailIsComplete` | app/model_gateway_control.py:288-569 | over every history the recorded windows, raises and rotations lead without a gap to the expiry, limits and identities in force |
| `ChunkExtensions.SkipOws` | app/model_budget_gateway.py:81-84 | skipping stops behind the maximal run of blanks |
| `ChunkExtensions.ConsumeToken` | app/model_budget_gateway.py:87-93 | a token is read greedily and is never empty |
| `ChunkExtensions.ConsumeQuoted` | app/model_budget_gateway.py:119-149 | a quoted-string is read to its closing quote or not at all |
| `ChunkExtensions.DropNameOver` | app/model_budget_gateway.py:87-112 | greedy token reading stops exactly behind the name of any well-formed extension |
| `ChunkExtensions.ValidateChunkExtensions` | app/model_budget_gateway.py:96-150 | the index-walking checker accepts if and only if the text has a chunk-ext parse tree of section 7.1.1 of RFC 9112 followed by optional blanks; it terminates |
| `ChunkExtensions.AcceptsExactly` | app/model_budget_gateway.py:96-150 | acceptance and existence of a parse tree are the same, both directions |
| `ChunkedBody.ParseChunkSize` | app/model_budget_gateway.py:153-167 | the parser answers the chunk size the line stands for, too-large or malformed |
| `ChunkedBody.ChunkSizeIsExact` | app/model_budget_gateway.py:153-167 | for any number of hex digits and leading zeros and any valid extensions the size is the positional value, or too large beyond 8 MiB |
| `ChunkedBody.ShortcutIsSound` | app/model_budget_gateway.py:161-163 | more than six significant digits always exceed 8 MiB, so the shortcut rejects nothing in range |
| `ChunkedBody.ValidateTrailerLine` | app/model_budget_gateway.py:170-183 | a trailer line is accepted if and only if it is a token name that is not forbidden, a colon and a printable value |
| `ChunkedBody.ReadCrlfLine` | app/model_budget_gateway.py:69-78 | for any limit a line is read exactly up to its CRLF when it fits, and the input shrinks |
| `ChunkedBody.ReadTrailers` | app/model_budget_gateway.py:188-206 | the trailer section is read to its empty line within 64 KiB and 100 fields, or refused |
| `ChunkedBody.ReadChunkedRequestBody` | app/model_budget_gateway.py:186-215 | the reader answers what `Decode` says, leaves all following octets unread, and never more than 8 MiB |
| `ChunkedBody.DecodedIsEncoding` | app/model_budget_gateway.py:186-215 | soundness: every accepted input is an encoding of the answered body within all limits |
| `ChunkedBody.EncodingIsDecoded` | app/model_budget_gateway.py:186-215 | completeness and round trip: every encoding within the limits decodes to its data with the rest unread |
| `ChunkedBody.DecodeIsExact` | app/model_budget_gateway.py:186-215 | body and rest are answered if and only if the input is an encoding of that body before that rest |
| `ChunkedBody.EncodingIsUnambiguous` | app/model_budget_gateway.py:186-215 | no octet stream encodes two bodies or ends a body at two places |
| `ChunkWriter.DigitsExactly` | app/model_budget_gateway.py:154-164 | the digits are exactly the characters of two literals, each worth its place there |
| `ChunkWriter.HexTextIsRead` | app/model_budget_gateway.py:154-164 | the hexadecimal text of any number is read as that number |
| `ChunkWriter.WrittenIsReadExactly` | app/model_budget_gateway.py:186-215 | what an independent writer makes of any list of parts is read back if it has at most 8388608 octets, and refused as too large otherwise |
| `ChunkWriter.ShortPartsAreWritable` | app/model_budget_gateway.py:186-215 | every list of non-empty parts of at most 8 MiB can be written |
| `ChunkWriter.TooLargeExactly` | app/model_budget_gateway.py:186-215 | a body is refused as too large if and only if it announces more than the limit behind whole chunks within it; every other refusal is for malformed framing |
| `ChunkWriter.MalformedSizeExactly` | app/model_budget_gateway.py:153-167 | a size line is malformed if and only if it is no hexadecimal number with an extension |
| `ChunkWriter.FramingRefusals` | app/model_budget_gateway.py:218-243 | which framing headers are refused, and for what |
| `ChunkWriter.TrailersExactly` | app/model_budget_gateway.py:191-206 | a section of well-formed trailers is read if and only if it has at most 65536 octets and 100 fields |
| `ChunkWriter.LongLineIsRefused` | app/model_budget_gateway.py:69-78 | a line that does not end within 8192 octets is refused |
| `ChunkWriter.LengthIsReadExactly` | app/model_budget_gateway.py:236-253 | a decimal length frames exactly that many octets |
| `ChunkWriter.WrittenIsFramed` | app/model_budget_gateway.py:218-235 | a written body is framed by the coding chunked in any case, unless it is empty |
| `ChunkWriter.TcharsExactly` | app/model_budget_gateway.py:26-29 | the token characters, spelled out |
| `ChunkWriter.QuotedTextExactly` | app/model_budget_gateway.py:119-149 | what may stand between quotes and behind a backslash |
| `ChunkWriter.FieldValueExactly` | app/model_budget_gateway.py:176-183 | a trailer's value holds tabs and no other control character |
| `ChunkedBody.ReadRequestBody` | app/model_budget_gateway.py:218-253 | exactly one framing is accepted; a body is never empty, never over 8 MiB and exactly the framed octets; every refusal is the first that applies, including the error of `int()` beyond 4300 digits |
| `ChunkedBody.LongLengthIsNotConvertible` | app/model_budget_gateway.py:243 | a length of 4301 zeros meets the error of `int()`, whatever follows |
| `RunCreation.LiveIntake.RunsForCreationBinding` | app/live_intake.py:1935-1965 | the scan over all Run files answers the one Run with the binding's receipt, or which integrity rule is broken |
| `RunCreation.LiveIntake.CreateRun` | app/live_intake.py:3263-3307 | creation stopped before any write leaves exactly the files of `RunCreation.Create` |
| `RunCreation.LiveIntake.ReconcileRunCreation` | app/live_intake.py:2033-2079 | reconciliation leaves exactly the files of `RunCreation.Reconcile` |
| `RunCreation.AtMostOneRunPerKey` | app/live_intake.py:1935-1965 | over every history with stops before any write a client key has at most one Run |
| `RunCreation.CommitImpliesRun` | app/live_intake.py:1967-2018 | a commit implies that its attempt and its Run exist and that the Run is the key's |
| `RunCreation.EveryAnswerIsTheSameRun` | app/live_intake.py:3263-3307 | all creations and reconciliations of a key that answer with a Run answer with the same Run of the same submission, whatever happens in between |
| `RunCreation.CreateExactly` | app/live_intake.py:3263-3307 | a creation left to finish answers if and only if the key is well formed, free or this submission's, and the Run exists or may be made; it is a replay exactly when the Run existed |
| `RunCreation.KeylessExactly` | app/live_intake.py:3274-3275 | over every history a creation without a key answers if and only if the submission is executable and its write happens; the answered Run, under the new id and without receipt, is then the only change |
| `RunCreation.KeyedWritesOneRun` | app/live_intake.py:3277-3307 | a creation with a key writes one Run at most, under the new id and with the key's receipt, and answers with it as new |
| `RunCreation.KeyRefusedExactly` | app/live_intake.py:1885-1918 | which refusal a key, a reuse and a submission that is not executable meet |
| `RunCreation.ReconcileRefusalsExactly` | app/live_intake.py:1885-2018 | over any files the reason reconciliation gives is a true one, and an attempted key with a defect is never answered |
| `RunCreation.ForeignAttemptIsRefused` | app/live_intake.py:1885-1918 | over any files an attempt that is not this submission's refuses creation and reconciliation |
| `RunCreation.KeyExactly` | app/live_intake.py:1853-1862 | which keys are well formed |
| `RunCreation.RetryHeals` | app/live_intake.py:3277-3307 | asking again after a stop before any write answers, and makes no second Run |
| `RunCreation.ReuseIsRefused` | app/live_intake.py:1885-1918 | a key once used for a submission is refused for every other one, ever after, without a write |
| `RunCreation.ReconcileCreatesNothing` | app/live_intake.py:2033-2079 | reconciliation never creates a Run or an attempt |
| `RunCreation.ReconcileKeeps` | app/live_intake.py:2033-2079 | NOT_FOUND, PREPARED and COMMITTED say exactly how far the creation got |
| `RunCreation.UpdateExactly` | app/live_intake.py:1820-1831 | a later mutator rewrites the state of the Run it names and nothing else |
| `BoundedRecall.EstimateMonotone` | app/context_memory.py:110-117 | the token estimate never falls when a text grows at its end |
| `MemoryAnswers.EstimateExactly` | app/context_memory.py:110-117 | the estimate is the number of CJK characters, wherever they stand, plus the started fours of the others |
| `MemoryAnswers.LineHolds` | app/context_memory.py:692-716 | a line holds digest, reference and summary in this order |
| `MemoryAnswers.StripExactly` | app/context_memory.py:691 | stripping takes blanks off both ends and nothing else |
| `BoundedRecall.FitsDownward` | app/context_memory.py:701-711 | a shorter cut fits wherever a longer one does, which makes the binary search right |
| `BoundedRecall.LongestCut` | app/context_memory.py:700-713 | the binary search answers the longest cut that fits |
| `BoundedRecall.BoundedItems` | app/context_memory.py:681-718 | the packing loop answers `Pack` with the exact character and token counts of the injected text |
| `BoundedRecall.PackIsGreedy` | app/context_memory.py:687-716 | a list is the packing if and only if every item is kept with the longest prefix that fits behind the ones before it and left out only when not one character fits or the item limit is reached |
| `BoundedRecall.PackWithinBudget` | app/context_memory.py:687-718 | the injected text is within the character, token and item budget |
| `BoundedRecall.RepackTrims` | app/context_memory.py:681-718 | packing a packing trims each summary and changes nothing else |
| `BoundedRecall.RepackIsIdentityExactly` | app/context_memory.py:691-716 | packing again is the identity if and only if no cut ended in a blank |
| `BoundedRecall.RepackMayTrim` | app/context_memory.py:691-716 | a concrete list and budget whose second packing differs from the first by a blank |
| `BoundedRecall.RepackIsStable` | app/context_memory.py:783-788 | from the second packing on, which every lookup reaches, nothing changes any more |
| `MemoryService.ContextMemory.LocalItems` | app/context_memory.py:624-678 | the loop over the binding files answers the ranked index of the store |
| `MemoryService.ContextMemory.CommitLongTerm` | app/context_memory.py:824-866 | a commit writes object, then binding, then evicts its role's keys; refused or stopped it leaves exactly the files of `MemoryStore.Commit` |
| `MemoryService.ContextMemory.EvictRole` | app/context_memory.py:864-866 | eviction removes the role's keys and no other |
| `MemoryService.ContextMemory.Lookup` | app/context_memory.py:720-788 | a lookup answers and caches exactly as `MemoryStore.Lookup` |
| `MemoryStore.CacheIsTransparent` | app/context_memory.py:738-788 | after every history of commits, lookups and restarts a lookup answers with the same items, characters and tokens as with an empty cache |
| `MemoryStore.CommitChangesOnlyItsRole` | app/context_memory.py:834-866 | a commit changes no other role's index, and no index at all when it is refused |
| `MemoryStore.CommitExactly` | app/context_memory.py:595-622 | a commit left to finish is accepted if and only if reference and approval are valid and nothing else stands at its two paths, a collision otherwise, and new if and only if its binding was not on file |
| `MemoryAnswers.CommitRefusalsExactly` | app/context_memory.py:165-257 | the reason given against a commit is a true one, and it is refused before any write if and only if there is one |
| `MemoryAnswers.LookupRefusalsExactly` | app/context_memory.py:720-732 | which lookups are refused, and why |
| `MemoryAnswers.DigestExactly` | app/context_memory.py:127-131 | digests are 64 lower-case hexadecimal digits |
| `MemoryAnswers.CharactersExactly` | app/context_memory.py:120-124 | which characters a segment keeps and a word is made of |
| `MemoryAnswers.CodePointsExactly` | app/context_memory.py:110-117 | blanks and CJK characters by their code points |
| `MemoryStore.OtherRoleCollides` | app/context_memory.py:120-124 | two roles with one segment: the same reference committed for the second is refused |
| `MemoryStore.EveryBindingHasItsObject` | app/context_memory.py:858-863 | every binding's object is on file, wherever a commit stopped, and the directory stays in path order |
| `MemoryStore.IndexIsExact` | app/context_memory.py:624-678 | an item is in the index if and only if it is what the first binding in path order of its digest says among the intact, Human-approved references of this very role that score; every scoring digest is there once, best score first |
| `MemoryAnswers.IndexIsTrusted` | app/context_memory.py:636-666 | whatever lies in the store, a binding file is used if and only if it is sealed, of this role, approved, signed and scoring with its object sealed on file |
| `MemoryAnswers.IndexIsBestFirst` | app/context_memory.py:677 | the better score stands in front, equal scores in the order of their digests |
| `MemoryAnswers.TermsExactly` | app/context_memory.py:629-632 | the terms are the maximal words of two or more characters, in lower case, and the single CJK characters |
| `MemoryAnswers.ScoreExactly` | app/context_memory.py:667-671 | the score is the number of terms that occur in summary or reference |
| `MemoryAnswers.ContainsExactly` | app/context_memory.py:668 | containing is occurring at some place |
| `MemoryAnswers.LessExactly` | app/context_memory.py:677 | texts are ordered as in a dictionary |
| `MemoryAnswers.AnswersAreCommitted` | app/context_memory.py:624-788 | over every history whatever a lookup answers was committed for its role with a Human's approval: same digest and reference, and a cut of the committed summary |
| `MemoryAnswers.AnswerIsCounted` | app/context_memory.py:783-788 | the answer counts the characters and tokens of its own text, within the budget |
| `MemoryAnswers.RepeatedLookupHits` | app/context_memory.py:731-745 | a lookup asked again is a hit with the same items |
| `MemoryAnswers.CommitForgetsItsRole` | app/context_memory.py:864-866 | an accepted commit turns its own role's hits into misses and no other role's |
| `MemoryAnswers.DashedExactly` | app/context_memory.py:120-124 | in a segment safe characters stay and each run of others is one dash |
| `MemoryAnswers.DropMarksExactly` | app/context_memory.py:120-124 | dashes and dots are cut off both ends of a segment |
| `MemoryStore.CommittedIsFound` | app/context_memory.py:624-788 | at any later time a lookup whose trimmed role is the committed one and whose query scores answers, cached or not, with the packing of an index that holds the reference, and with the reference itself when that index fits the budget |
| `MemoryStore.PaddedRoleIsNeverFound` | app/context_memory.py:624-650 | a reference committed under an untrimmed role stays on file and is relevant for no lookup |
| `MemoryStore.PaddedRoleIsCommitted` | app/context_memory.py:171-178 | a concrete reference with such a role is committed |
| `MemoryStore.PathIndexFinds` | app/context_memory.py:609-622 | an exclusive write finds the file if and only if its path is taken |
| `StopLedger.EmergencyStopLedger.Records` | app/emergency_stop.py:252-269 | the verifying read answers the chain, or the first fault from the front |
| `StopLedger.EmergencyStopLedger.AppendRecord` | app/emergency_stop.py:271-377 | an append changes its own Run's chain exactly as `StopLedger.Append` and no other chain |
| `StopLedger.AppendsVerify` | app/emergency_stop.py:252-269 | every sequence of appends passes the ledger's own verification and holds at most one record per idempotency key |
| `StopAcceptance.AppendExactly` | app/emergency_stop.py:271-377 | a request is answered with a record if and only if it is acceptable: known state and type, actor, reason, sound evidence, and for a reconciliation the newest record and usage that adds up |
| `StopAcceptance.RecordRefusalsExactly` | app/emergency_stop.py:129-178 | the reason given against a stored record is a true one, and it is refused if and only if it has a defect |
| `StopAcceptance.RequestRefusalsExactly` | app/emergency_stop.py:288-324 | why a request is refused before its record is made |
| `StopAcceptance.RunIdExactly` | app/emergency_stop.py:247-250 | which Run ids are well formed |
| `StopAcceptance.ChainExactly` | app/emergency_stop.py:252-269 | a chain verifies if and only if every record is valid, numbered and linked; the first that is not gives the reason |
| `StopAcceptance.BrokenChainRefuses` | app/emergency_stop.py:316 | nothing is answered or appended over a chain that does not verify |
| `StopAcceptance.AppendedSays` | app/emergency_stop.py:328-362 | an appended record says what was asked, behind the newest record |
| `StopAcceptance.SameRequestExactly` | app/emergency_stop.py:300-313 | which requests share an idempotency key |
| `StopLedger.ChainsOnlyGrow` | app/emergency_stop.py:328-377 | what is on file stays where it is |
| `StopLedger.RepeatedStopIsTheStoredRecord` | app/emergency_stop.py:325-327 | repeating a stop request, at any later time, answers with the stored record and appends nothing |
| `StopLedger.ReconciliationNeverReplays` | app/emergency_stop.py:317-324 | a reconciliation is refused or appends a record that supersedes the newest one; it never answers with a stored record |
| `StopLedger.RepeatedReconciliationIsRefused` | app/emergency_stop.py:317-324 | an accepted reconciliation sent again is always refused |
| `StopLedger.RetriedReconciliationFails` | app/emergency_stop.py:317-324 | a concrete stop, its accepted reconciliation and the refused retry of it |
| `StopLedger.EqualDigestsEqualChains` | app/emergency_stop.py:259-268 | two verified chains with the same newest digest are equal |
| `UsageAttribution.Flatten` | app/provider_usage_attribution.py:45-83 | the nested loops answer the flat rows, or the first reason why a snapshot is unreadable |
| `UsageAttribution.DeltaRows` | app/provider_usage_attribution.py:118-161 | the row loop answers the non-zero differences if no row was dropped and no counter fell |
| `UsageAttribution.AddUp` | app/provider_usage_attribution.py:163-200 | the totals and the sums per agent are the sums over the rows, in whatever order they come |
| `UsageAttribution.AttributeExclusiveRunDelta` | app/provider_usage_attribution.py:86-231 | the call answers the attribution, or the first reason to refuse it |
| `UsageAttribution.AttributesExactly` | app/provider_usage_attribution.py:86-161 | a difference is attributed if and only if there is one exclusive Run, one UTC day, two readable snapshots and no counter that fell |
| `UsageRows.FlatExactly` | app/provider_usage_attribution.py:45-83 | a snapshot is readable if and only if agents are named, entries sound and keys distinct, and its rows are then exactly the entries' counters |
| `UsageRows.EntryRefusalsExactly` | app/provider_usage_attribution.py:45-83 | the reason given against an entry is a true one |
| `UsageRows.RefusalsExactly` | app/provider_usage_attribution.py:86-161 | why two snapshots are not attributed |
| `UsageRows.ReportedExactly` | app/provider_usage_attribution.py:118-161 | a row is reported if and only if a call or token was counted, with the differences |
| `UsageRows.StatusExactly` | app/provider_usage_attribution.py:202-231 | no model call is reported if and only if both ledgers count the same calls; Run, day and digests are those asked for |
| `UsageAttribution.AttributionConserves` | app/provider_usage_attribution.py:116-200 | for each counter the total equals the sum by model, the sum by agent, and current minus baseline |
| `UsageAttribution.AttributionTelescopes` | app/provider_usage_attribution.py:86-200 | baseline-to-middle and middle-to-current imply baseline-to-current, whose totals, row differences and sums by agent are their sums |
| `UsageAttribution.DeltaAddsUp` | app/provider_usage_attribution.py:155-159 | the last total check of the source can never fire |
| `RunLifecycle.TrackedRun.BootstrapLifecycle` | app/run_lifecycle.py:121-151 | the projected history is that of `Bootstrap`, and an existing one is left alone |
| `RunLifecycle.TrackedRun.RecordTransition` | app/run_lifecycle.py:154-183 | a transition appends its edge if the table allows it, notes the state if the phase is reached already, and is refused otherwise |
| `RunLifecycle.BootstrapExactly` | app/run_lifecycle.py:121-151 | a projected history is a path of allowed edges if and only if its target is ROUTED or a successor of ROUTED |
| `RunLifecycle.ProjectedWaitIsNoPath` | app/run_lifecycle.py:121-151 | a Run already waiting for a Human is projected onto an edge outside the table |
| `RunLifecycle.LifecycleRuns` | app/run_lifecycle.py:13-52 | over every sequence of transitions the history is a contiguous path of allowed edges ending in the current phase, the terminal flag matches and never clears, and BLOCKED, RETURNED and RELEASED are final |
| `HumanGateEffects.EdgesExactly` | app/run_lifecycle.py:13-52 | the transition table, read from the phases entered |
| `HumanGateEffects.RawStatesExactly` | app/run_lifecycle.py:54-118 | which raw states stand for which phase |
| `RunLifecycle.ApprovalFollowsHumanGate` | app/run_lifecycle.py:37-50 | APPROVED is always immediately preceded by AWAITING_HUMAN |
| `HumanGateService.RunFile.AttachAgentTeams` | app/live_intake.py:3977-4022 | the Run file after attaching is that of `HumanGate.Apply`; a report of another Run is refused |
| `HumanGateService.RunFile.RequestDispatch` | app/live_intake.py:4024-4056 | the Run file after a dispatch request is that of `HumanGate.Apply` |
| `HumanGateService.RunFile.RecordEmergencyStop` | app/live_intake.py:4272-4360 | a stop needs a valid record of this Run and an undecided gate, and fails the Run closed |
| `HumanGateService.RunFile.SyncAgentTeams` | app/live_intake.py:4749-5149 | a poll leaves exactly the Run file of `HumanGate.Apply`, and raising leaves it as it was read |
| `HumanGateService.RunFile.RecoverFromPersistedMatrix` | app/live_intake.py:5151-5350 | a recovery leaves exactly the Run file of `HumanGate.Apply` |
| `HumanGate.GateInvariants` | app/live_intake.py:4749-5149 | over every sequence of calls on a V0.2 Run a persisted gate awaiting a Human has a DataPass, and a persisted decision has its phase |
| `HumanGate.ApprovedWaitedForHuman` | app/live_intake.py:5106-5141 | a persisted approval was reached from AWAITING_HUMAN by its last transition |
| `HumanGateDecisions.DecisionTakenBackExactly` | app/live_intake.py:5096-5098 | a call changes a persisted decision if and only if it is a bound poll that reports the Run waiting again or the recovery of a Run without DataPass; the gate then waits and the lifecycle stays decided |
| `HumanGateDecisions.StalePollTakesApprovalBack` | app/live_intake.py:5096-5098 | a concrete V0.2 Run, followed from its creation, loses its approval to a poll that still reports the open gate |
| `HumanGateDecisions.DecidedGateSticks` | app/live_intake.py:4297-4299 | every other call leaves a decided gate alone, also on a Run from before the lifecycle was kept |
| `HumanGateDecisions.DecidedCannotFailClosed` | app/live_intake.py:4793-4809 | no failure path can shut a decided gate: the transition is refused and nothing is persisted |
| `HumanGate.DecisionLandsExactly` | app/live_intake.py:5106-5141 | at the end of a poll a decision is written if and only if the phase reached is not DATAPASS_DRAFTED and is, or may become, the decision's own |
| `HumanGateDecisions.PolledDecisionExactly` | app/live_intake.py:4749-5149 | a poll persists the decision it brings if and only if it is bound to the Run, the file's phase is AWAITING_HUMAN, the decision's own or ROUTED for a decision that does not approve, and it brings no plan that cannot be built; a bound poll at any other phase raises and leaves the file as it is |
| `HumanGateEffects.DecisionBecomes` | app/live_intake.py:5106-5141 | a persisted APPROVE_PASS is APPROVED, CONFIRM_BLOCK is REJECTED and BLOCKED, REQUEST_EVIDENCE is RETURNED, any other text is REJECTED and BLOCKED |
| `HumanGateEffects.StopExactly` | app/live_intake.py:4272-4360 | a stop is accepted if and only if the record is valid and this Run's, the gate undecided and the phase may close; the Run is then FAILED_CLOSED with the record's digest and state |
| `HumanGateEffects.StopRefusals` | app/live_intake.py:4272-4360 | which stops are refused for the record, the Run, the decision or the phase |
| `HumanGateEffects.PollRefusals` | app/live_intake.py:4749-4775 | which polls raise before they look at the phase |
| `HumanGateEffects.FailedDispatchExactly` | app/live_intake.py:4248-4380 | what a failed and a withheld dispatch leave in the file |
| `HumanGateEffects.FailClosedExactly` | app/live_intake.py:4793-4809 | what failing closed leaves in the file, and the phases that allow it |
| `HumanGateEffects.ForeignEnvelopeExactly` | app/live_intake.py:4775-4812 | an invalid envelope changes nothing, another Run's envelope shuts the Run |
| `HumanGateEffects.MissingDatapassExactly` | app/live_intake.py:5066-5095 | a V0.2 Run that would wait without a DataPass is shut |
| `HumanGateEffects.AttachExactly` | app/live_intake.py:3977-4022 | which Runs are attached, and what they then say |
| `HumanGateEffects.DispatchRequestExactly` | app/live_intake.py:4024-4056 | which Runs an operator's request queues |
| `HumanGateEffects.RecoveryExactly` | app/live_intake.py:5151-5350 | which Runs a recovery opens, with which DataPass, and that every Run under way then waits for a Human |
| `HumanGateEffects.RecoveryRefusals` | app/live_intake.py:5167-5178 | a recovery raises if and only if the formal DataPass on file no longer validates |
| `HumanGateDecisions.DecisionOnDraftIsRefused` | app/live_intake.py:5123-5129 | a concrete V0.2 Run, followed from its creation to a drafted DataPass, refuses the approval a poll brings and stays as it is |
| `HumanGateDecisions.DecisionWithThePlanIsRefused` | app/live_intake.py:5106-5141 | a concrete V0.2 Run with Workers running refuses the approval that comes with the complete plan in one poll and stays as it is |
| `HumanGateDecisions.WaitingPollExactly` | app/live_intake.py:5066-5098 | a bound poll that reports the open gate leaves it waiting without a DataPass if and only if the Run is a legacy one without a DataPass by then |
| `HumanGateDecisions.OpensBareExactly` | app/live_intake.py:5066-5098 | of all calls exactly those polls make a gate wait without a DataPass |
| `HumanGateDecisions.BareWaitHasItsPoll` | app/live_intake.py:5066-5098 | over every history a gate that waits without a DataPass was opened by such a poll of a legacy Run and has waited so ever since |
| `HumanGateDecisions.LegacyGateMayWaitWithoutDatapass` | app/live_intake.py:5066-5098 | a concrete legacy Run, followed from its creation, waits for a Human without a DataPass |
| `HumanGate.RoutesStartOnPath` | app/live_intake.py:3546-3557 | the states creation gives a Run project onto allowed edges |
| `ContextCapsule.CapsuleStore.WriteContentAddressed` | app/context_capsule.py:86-100 | an object is written once under its digest; another object there is a collision |
| `ContextCapsule.CapsuleStore.BuildRunContextCapsule` | app/context_capsule.py:103-214 | building leaves exactly the objects of `ContextCapsule.Build`, also when it raises half way |
| `ContextCapsule.SliceRoundTrips` | app/context_capsule.py:138-268 | a built slice loads if and only if role, case and Run are its own, and gives exactly the payload restricted to the role's keys with protocol, payload digest and context |
| `CapsuleContents.AllowlistExactly` | app/context_capsule.py:27-50 | the allowlist, read key by key |
| `CapsuleContents.IndexHolds` | app/context_capsule.py:171-202 | the index of a built capsule names what it was built for, its workers in order and each one's slice |
| `CapsuleContents.SlicesHold` | app/context_capsule.py:138-170 | each slice the index names is on file and says what it is |
| `CapsuleContents.DistinctExactly` | app/context_capsule.py:115-137 | workers stand once each, in the order of their first places |
| `CapsuleContents.FingerprintExactly` | app/context_capsule.py:127-137 | which requests share a fingerprint |
| `CapsuleContents.RequestExactly` | app/context_capsule.py:112-126 | which requests are well formed |
| `CapsuleContents.BuildRefusalsExactly` | app/context_capsule.py:115-172 | the reason given against a build is a defect of its request, and it is refused if and only if there is one |
| `CapsuleContents.LoadRefusalsExactly` | app/context_capsule.py:227-256 | whatever lies in the store, the reason given against a load is a true one, and it is refused if and only if there is one |
| `ContextCapsule.IndexIsNoSlice` | app/context_capsule.py:237-238 | the digest of the index opens nothing |
| `ContextCapsule.NothingOutsideTheAllowlist` | app/context_capsule.py:227-256 | a corollary of the load's guards: whatever lies in the store, a load gives a role no key outside its allowlist, and only content that hashes to the reference and names role, case and Run |
| `ContextCapsule.ReferenceIsContent` | app/context_capsule.py:239-241 | a corollary of the load's guards: a reference that loads means the same in every store |
| `ContextCapsule.BuildExactly` | app/context_capsule.py:115-191 | in a store that only builds have written a build never collides and succeeds if and only if the request is well formed and the payload names the submission |
| `ContextCapsule.RebuildHits` | app/context_capsule.py:86-100 | building the same capsule again changes nothing and reports a hit |
| `ContextCapsule.HitMeansStored` | app/context_capsule.py:204-208 | a build reports a hit if and only if the index and every slice were on file already |

## Left out

- Gateway.ParseUsage: takes the usage objects of a response in order, with integer or absent fields; UTF-8, JSON and SSE parsing and fields that hold something else are not modelled.
- GatewayService.ControlRoot.PrepareRun: archived ledgers are told apart by their whole content, not by the first twelve hex digits of their digest; reading the route attestation is one boolean.
- GatewayService.ControlRoot.Authorize: protocol strings, request digests, HTTP status codes and unparsable files are not modelled; the in-process lock makes each call one step; an output limit that is no integer is refused as a negative one is, and stands as one.
- ChunkedBody.ReadRequestBody: headers come as trimmed items; read errors of the socket are not modelled.
- RunCreation.LiveIntake.CreateRun: building the Run's content (precheck, route, envelope) is one boolean and one constant state; the index file and the operational memory written beside the Run are not modelled.
- MemoryStore.CacheIsTransparent: covers the local backend from any store whose bindings have their objects; the remote client and its outbox are not modelled, nor are latency fields.
- MemoryService.ContextMemory.LocalItems: letters outside A to Z keep their case, and reference URIs are taken as valid.
- StopLedger.EmergencyStopLedger.AppendRecord: files are listed in order of their number; six-digit file names sort so up to 999,999 records of a Run.
- UsageAttribution.AttributeExclusiveRunDelta: a refusal does not name the offending row; rows and agents are maps without an order, and the role shown beside an agent's sums is not modelled.
- RunLifecycle.TrackedRun.RecordTransition: times, free-text reasons and the digest of each history entry are not modelled.
- HumanGateService.RunFile.SyncAgentTeams: envelope validation, the DataPass builder and the Worker plan are inputs; trace, budget and usage fields copied from the report, and who decided, are not modelled.
- ContextCapsule.CapsuleStore.BuildRunContextCapsule: skill receipts and display paths are not part of the objects.
- The running-guard and progress-watchdog decisions of `app/emergency_stop.py`: one case table each.
- Adding stream options before forwarding (`app/model_budget_gateway.py:412-432`): one field update.
- HTTP serving, forwarding, Matrix and AgentTeams traffic, Docker and command lines: input and output around the protocols.
- Reports, PDF and page projections, evidence verification and financial formulas: no invariants across calls.
- Two processes inside one critical section: the lock is per process.
- Byte-level file system behaviour: an atomic rename is one assignment.
