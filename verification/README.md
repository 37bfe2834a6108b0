# Murray Context Ledger: a verified model

The Context Ledger stores typed facts that AI clients dictate, org by org, and shows them back
through a handful of MCP tools. The server hardly ever filters by org itself: it relies on
Postgres row-level security, on the rule that a caller has exactly one membership, and on two
partial unique indexes. Isolation, idempotency, lifecycle and audit are therefore properties of
tools and schema together, over whole histories. This project models both and proves them.

`dafny verify dfyconfig.toml` checks everything.

## How the model is built

| file | what it holds |
|---|---|
| `Schema.dfy` | the tables, their unique indexes, row-level visibility |
| `Intake.dfy` | validation of an inbound fact, and the values Postgres refuses |
| `Selection.dfy`, `LikePattern.dfy`, `ProfileBudget.dfy`, `DedupeKey.dfy` | ordering with a limit, the search pattern, the profile's token budget, the normative key derivation |
| `Tools.dfy` | every tool call and operator action as a function from state to state and reply; `Run` folds a sequence of them |
| `Ledger.dfy` | the server: a class whose tables are updated in place, request by request and loop by loop, each method proved equal to its function in `Tools`, the search methods to the specification of their result |
| `Interleaving.dfy` | each call as a small program of single database requests; `Exec` runs any number of them under any schedule |
| `Serial.dfy`, `Schedules.dfy` | the link between the two: a call given its turns in a row is the atomic call of `Tools`, and calls scheduled one after the other are a `Run` |
| `ToolAnswers`, `ProfileAnswers`, `WriteAnswers` | what every tool answers and leaves behind, with its constants, role table, order and text spelled out independently of `Tools` |
| `Lifecycle`, `Chains`, `Provenance`, `Audit`, `Isolation`, `Idempotency`, `SplitCalls`, `Revocation`, `Registration`, `Views`, `ProfileOverrun`, `RoundTrip` | theorems about runs of atomic calls |
| `InterleavedAudit`, `InterleavedCreation`, `InterleavedIsolation`, `InterleavedProvenance`, `InterleavedRevocation` | what holds under every schedule |
| `SeatRace`, `Prospects`, `Race`, `Verdicts` | exactly what a race can do that atomic calls cannot |

Ids: the database hands out globally fresh uuids. An `Id` names the call that created a row and
the row's place in that call, so it also orders rows by creation. `Fresh` says that a run's calls
are numbered in order and after everything stored.

Hypotheses, everywhere: database requests do not fail for outside reasons; the parsed full-text
query is an arbitrary predicate on contents; case folding works character by character; the orgs
that operator actions name exist; granted scopes are plain words, which the array literal of
`.overlaps` carries unchanged. `Interleaving` additionally fixes memberships while calls are under
way; `Isolation` does not.

Requests that the database refuses for what they carry are modelled: an id that it cannot read, a
fact that it cannot store (text with a NUL character, a `dedupe_key` too long for its index, a
confidence out of the range of `real`), a search that it cannot answer (a NUL character, a word too
long). NUL characters are recognised; beyond them, whether the database refuses an item or a search
is a property that each item and each search has (`refused`), arbitrary and known to nobody before
the request is sent.

## What the code does that its documentation does not say

Each of these is a theorem below, with the exact condition.

- **A supersede can lose the correction.** `supersede_fact` inserts its replacement through the same
  dedupe path as `remember_facts`. The row it links to carries what was submitted if and only if
  every current holder of the replacement's key already does, and is itself current if and only if
  no holder is retired or is the fact just superseded; otherwise the correction is stored nowhere
  (`CorrectionIsStoredIff`). Under the retired fact's own key the fact ends up superseded by itself
  (`SupersedingWithOwnKeyLosesTheFact`).
- **Supersession chains can close into a cycle.** After a supersede every chain still ends if and
  only if the chain of the key's holder does not lead to the fact retired
  (`SupersedeKeepsEndingsIff`); correcting each of two facts under the other's key makes a cycle of
  two (`TwoCorrectionsMakeACycle`). Links keep pointing to later facts if and only if nobody holds
  the key, or only a fact newer than the retired one (`SupersedeKeepsForwardIff`).
- **`new_status` is computed, not read.** After a deduped supersede it can differ from the stored
  status; `ReportedStatusIsStoredIff` says exactly when it is right.
- **`*` in a search is a wildcard.** PostgREST reads it as `%` after the server has escaped the
  rest. The fallback means "contains, ignoring case" for every content if and only if the query
  has no `*` (`FallbackMeansContainsIffStarFree`), and `FallbackIsGlobAnywhere` says what it means
  otherwise.
- **A profile can exceed its budget.** Joining newlines are not counted: the text can reach 408
  estimated tokens, not the 400 that `tests/test_mcp_tools.py:416-421` bounds it by.
  `ThirtyPeopleOverrun` is a facts table for which it does, `ProfileWithinBudgetIff` the exact
  condition on the candidates, `RenderedBound` the bound.
- **Some calls escape the audit.** An id that Python's `uuid.UUID` accepts and Postgres refuses, and
  an item or a search that passes validation and that Postgres then refuses, make the database
  reject a request after `_begin` and before `_finish`. `CallIsAudited` says that exactly these
  calls do, and what they leave behind: nothing, except that a batch keeps the new items before
  the one that was refused.
- **A review can revive a superseded fact.** The decision checks that the fact is pending in one
  request and overwrites the status in another, without a guard. A system of tool calls has a
  schedule that does it if and only if some call supersedes the fact and some call reviews it, and
  each of the two would succeed alone (`RevivalIff`). This is why "superseded is absorbing" is a
  theorem about atomic calls only, and `ExecDrifts` says what survives every interleaving.
- **A rejected fact can be active.** For the same reason a promotion and a rejection of one pending
  fact can both report success. A system of tool calls has a schedule in which both do and the fact
  ends active if and only if some promotion and some rejection of it would each succeed alone
  (`ContradictionIff`).
- **A revocation binds the calls that have yet to read the seat.** Under every schedule a call is
  turned away if and only if the seat row was revoked when the call read it (`TurnedAwayIff`). Every call that reads it later is shut out (`LaterCallsAreShutOut`);
  a call that has read it before still writes, although the seat is revoked by then
  (`RevocationComesTooLate`).
- **The key derivation keeps underscores.** The contract document says every character that is
  not a letter, digit or whitespace is removed; its reference implementation uses `\w`. The two
  derive the same text if and only if the lower-cased content has no word character that is neither
  letter nor digit (`DocumentedIsNormalizedIff`), and the underscore is one (`UnderscoreSurvives`).
  The model follows the implementation.
- **`register_connector` does not handle losing the race** for the seat: its insert then fails with a
  unique violation. It does so exactly when its check found no seat and another call inserted one
  before its write (`RegistrationFailsIff`). Some schedule of a system makes it fail if and only if
  its source is not blank, the client has no seat in the org at the start, and another call is a
  first contact of the client in the org or another registration of it
  (`RegistrationCanFailIff`).

## Model

| member | source | states |
|---|---|---|
| Isolation.OrgsDoNotInterfere | server/app/mcp_server.py:242-287 | Whole-run noninterference: delete from any run every call whose caller is not a member of the org and of it alone, and every operator action on other orgs' seats; the org's facts, seats, audit rows and every reply to its own events stay the same, membership changes during the run included |
| Isolation.OtherEventsAreInvisible | supabase/migrations/0003_org_tenancy.sql:130-180 | One event that does not concern an org leaves that org's facts, seats and audit rows unchanged |
| Isolation.OwnEventsSeeOwnState | supabase/migrations/0003_org_tenancy.sql:64-74 | An org's own event gives the same reply and the same effects from any two states the org cannot tell apart |
| Isolation.SameAct | server/app/mcp_server.py:384-453 | Every tool, although it names no org in its reads, depends on the rows of the caller's org only |
| Lifecycle.SingleMembership | server/app/mcp_server.py:271-287 | A caller who resolves has exactly the orgs row-level security grants: the one org stamped on everything they write |
| Lifecycle.InsertFactGrows | server/app/mcp_server.py:384-404 | An insert keeps the key index, returns a row of the caller's org with the key asked for, and changes the table only by the new row |
| Lifecycle.WriteBatchGrows | server/app/mcp_server.py:657-670 | The batch loop leaves existing rows alone and adds exactly the created ids: new, owned by the caller, in the caller's org, unlinked, with the status their confidence decides |
| Lifecycle.ActEvolves | server/app/mcp_server.py:650-778 | Every tool keeps the key index; each existing row stays, is retired in favour of a row of its own org, or goes from pending to active or rejected; every change is listed in the audit ids |
| Lifecycle.ResolveSeatGrows | server/app/mcp_server.py:290-322 | Resolving a seat keeps its index, modifies no existing seat and adds at most one |
| Lifecycle.AdminKeepsIndex | server/app/admin.py:102-197 | Operator actions touch neither facts nor the audit log, keep the seat index, and never remove a seat or move it to another org or client |
| Lifecycle.RunKeepsIndexes | supabase/migrations/0004_write_path.sql:24-26 | In every reachable state a key names at most one fact per org and an OAuth client at most one seat per org |
| Lifecycle.RunAdvances | supabase/migrations/0001_init.sql:17-36 | Over any run no fact disappears; owner, org, content, tags and key never change; status stays or climbs from pending through active or rejected to superseded, which is final; a link once set stays |
| Lifecycle.RunStaysHealthy | server/app/mcp_server.py:709-711 | In every reachable state a fact is superseded exactly when it is linked, its link is a fact of its own org, and nothing is archived |
| Chains.ChainEnd | server/app/mcp_server.py:709-711 | With forward links, following supersession from any fact terminates at an unlinked fact of the same org, created no earlier |
| Chains.SupersedeKeepsForwardIff | server/app/mcp_server.py:701-718 | A successful supersede keeps all links forward if and only if nobody in the org holds the replacement's key, or only a fact newer than the one retired |
| Chains.RunKeepsForward | server/app/mcp_server.py:683-718 | In any run whose supersedes each created their replacement, every link points to a later fact of the same org, repeated supersedes of one fact included |
| Chains.SupersedeKeepsEndingsIff | server/app/mcp_server.py:701-718 | After a successful supersede every chain still ends if and only if the chain of the fact already holding the replacement's key, if any, does not lead to the fact retired |
| Chains.StepKeepsEndingsIff | server/app/mcp_server.py:709-711 | Among all tool calls and operator actions, exactly the supersedes in favour of a fact whose chain leads back to the target spoil the ending of chains |
| Chains.RunKeepsEndings | server/app/mcp_server.py:683-718 | In any run without such a supersede every chain ends, deduped and repeated supersedes included |
| Chains.TwoCorrectionsMakeACycle | server/app/mcp_server.py:708-711 | Correcting each of two facts under the other's key makes them supersede each other; neither chain ends |
| Chains.CorrectionIsStoredIff | server/app/mcp_server.py:392-403 | The row a supersede links to carries what was submitted if and only if every holder of the key already does, and is current if and only if the holders are and none is the fact retired; with a holder, no content changes anywhere |
| Chains.SupersedingWithOwnKeyLosesTheFact | server/app/mcp_server.py:708-718 | Correcting a fact under its own key supersedes it by itself, stores the correction nowhere, and leaves no active fact with that key |
| Chains.ReportedStatusIsStoredIff | server/app/mcp_server.py:713-718 | The reply's new_status is the replacement's stored status if and only if the replacement was created, or the key's holder is another fact with that status |
| Provenance.ActMakesActive | server/app/mcp_server.py:360-361 | The only tool that turns a low-confidence fact active is promote_fact, by an owner or office member, on a fact pending in their own view |
| Provenance.BecomingActive | server/app/mcp_server.py:740-768 | If an event turns such a fact active, it is a promotion by a member then holding owner or office, through a live seat whose effective scopes overlap the fact's tags, with one audit row naming exactly that fact |
| Provenance.ActiveFactsWerePromoted | server/app/mcp_server.py:420-429 | In every reachable state, a fact below the threshold that was not active at the start is active only if some event of the run was such a promotion |
| Audit.ActIsExplained | server/app/mcp_server.py:601-778 | A tool changes only rows of its caller's org. It reaches its audit row, and lists there each row it changed, if and only if it does not send the database an unreadable id or an item or search that it refuses; if it does, nothing has changed but for the new items of a batch before the refused one |
| Audit.OnlySingleOrgCallersAreServed | server/app/mcp_server.py:271-287 | A caller is told that they have no org if and only if they have no membership, that they have several if and only if they have two, and in both cases no table changes, the log included |
| Audit.CallIsAudited | server/app/mcp_server.py:336-352 | Every call past membership appends exactly one row with the caller, the org and a seat of that org for the caller's client, on success, tool error and revoked seat alike, and every fact that differs is in its ids; the only other calls are those that send the database an id, item or search that it refuses, and of them it is said what they leave behind |
| Audit.StepNamesChanges | server/app/mcp_server.py:242-268 | After any event the old log is a prefix of the new, and every created or changed fact is named by a new row of its own org, unless it was created by a batch with an item that the database refuses |
| Audit.AuditExplainsRun | supabase/migrations/0001_init.sql:92-94 | Over any run the log only grows, and every fact that was created or differs at the end is named by a row of its own org that the run wrote; the only others are the facts left by a batch of the run with an item that the database refuses |
| Idempotency.BatchRefinesFirstWriteWins | server/app/mcp_server.py:657-670 | The batch loop refines a first-write-wins map from keys to ids: a taken key answers with its holder, a free one with the new id, an item without key always with its own |
| Idempotency.BatchPartitions | server/app/mcp_server.py:661-681 | invalid lists exactly the indices that fail validation, in order; created and deduped together are exactly touched, one per remaining item |
| Idempotency.BatchGrowsByCreated | server/app/mcp_server.py:667-669 | The table grows by exactly the created ids, which are new, distinct and in creation order |
| Idempotency.CreatedLands | server/app/mcp_server.py:667-669 | created lists, in order, the ids of exactly the valid items without a key or with one that nobody in the org holds and no earlier valid item carries |
| Idempotency.DedupedLands | server/app/mcp_server.py:392-403 | deduped lists, in order and for exactly the other valid items, the fact that then holds the item's key |
| Idempotency.BatchSplits | server/app/mcp_server.py:657-681 | Sending xs then ys is sending xs followed by ys: same table, ids concatenated, ys's invalid indices shifted |
| SplitCalls.OneCallIsTwo | server/app/mcp_server.py:651-681 | Sending xs and ys in two calls through one seat is sending them in one: the replies add up, with ys's invalid indices shifted; the two audit rows list, one after the other, what the one lists; the facts are the same, up to the ids the second call hands out |
| SplitCalls.SameFromElsewhere | server/app/mcp_server.py:657-670 | The batch loop does the same wherever its ids are handed out from: same rows, answers, duplicates and invalid indices |
| Idempotency.BatchAnswers | server/app/mcp_server.py:384-404 | The touched ids are, in order, facts of the caller's org holding the keys of the valid items |
| Idempotency.AnsweredBatchIsNoOp | supabase/migrations/0004_write_path.sql:8-14 | A batch whose keys are all taken writes nothing and reports the holders in order as deduped |
| Idempotency.ResendIsNoOp | server/app/mcp_server.py:651-681 | After a fully keyed batch and then any run of tool and operator events, re-sending it from any live seat of the org creates nothing, leaves the facts unchanged, and reports as deduped exactly the ids the first call audited, in order, repeats included |
| Revocation.RunKeepsStamps | server/app/admin.py:123-129 | In every reachable state a seat is revoked exactly when revoked_at is set |
| Revocation.RevokedSeatIsRefused | server/app/mcp_server.py:265-267 | A call through a revoked seat, by any member, fails, changes no fact and no seat, and appends one audit row without fact ids |
| Revocation.StaysRevoked | server/app/mcp_server.py:295-307 | Only re-registering or reinstating that seat brings it back: no request, reconnecting included, and no other operator action |
| Revocation.RevokedUntilReactivated | server/app/admin.py:180-202 | From the revocation to a reactivation, at any point of any run, every call through the seat is refused and does nothing but append its empty audit row |
| Revocation.RevocationSilencesOneSeat | server/app/admin.py:183-184 | Until reactivation a run goes on exactly as the same run without that seat's calls would have gone without the revocation: same facts, other seats, others' log rows and replies |
| Registration.AddedMemberResolves | server/app/admin.py:52-69 | Adding a member makes them served in that role, or refused if they have another org; adding twice is adding once; nobody else's resolution changes |
| Registration.RemovedMemberResolves | server/app/admin.py:72-82 | Removing a member takes that org away only: refused if it was their last, served again as the other org's member if they had two |
| Registration.RegisteringSettlesTheSeat | server/app/admin.py:120-147 | Registering leaves exactly one seat for the client, live and attributed, the existing row if there was one; only given values are overwritten, and no other seat changes |
| Registration.RegisteringTwiceIsOnce | server/app/admin.py:115-117 | Registering again with the same values changes nothing |
| Registration.SourceIsRefusedIff | server/app/admin.py:120-121 | Registering a connector or setting its source is refused, and then changes nothing, if and only if the source has no character but white space, all 29 characters of it listed |
| Registration.RegisteredSeatServes | server/app/admin.py:113-114 | From registration on, through any run without another operator action on that seat, the connector's calls use the registered seat, its scopes and its source, with no first contact |
| Registration.ReinstateUndoesRevoke | server/app/admin.py:200-207 | Revoking marks the seat; reinstating a seat that was live restores the tables exactly |
| Views.FetchableIff | server/app/mcp_server.py:432-441 | Fetching works if and only if the fact is active, in one of the caller's orgs, and has a tag that the seat is granted and the role may see, the role table spelled out; it returns the row as stored |
| ToolAnswers.FetchAnswers | server/app/mcp_server.py:601-635 | fetch for every argument: the row and its id in the log if and only if it is readable, and otherwise the error that belongs to the argument |
| ToolAnswers.ReviewAnswers | server/app/mcp_server.py:740-778 | promote_fact and reject_fact succeed if and only if the caller is owner or office and the fact is pending, in one of their orgs and has a tag they may see; they then change its status to active or rejected and nothing else; every other call changes nothing and has its own answer |
| ToolAnswers.StarFreeTextsAreContained | server/app/mcp_server.py:489-492 | For a text without stars, occurring in a content is being contained in it, ignoring case |
| Views.ViewsAreMonotone | server/app/mcp_server.py:420-453 | Active views and the review queue grow with orgs and grants, and the owner's contain every role's |
| Views.ListedFactsAreFetchable | server/app/mcp_server.py:507-598 | Every id that search, search_context, get_profile or get_recent_activity returns, in any domain, is fetchable by the same seat in the same state |
| ToolAnswers.PingAnswers | server/app/mcp_server.py:637-648 | Ping answers with the number of readable facts, changes nothing and audits no id |
| ToolAnswers.SearchFindsNothingIff | server/app/mcp_server.py:473-498 | Both search tools answer with an empty list if and only if no readable fact matches the full-text query and the text, stars as wildcards, occurs in none |
| ToolAnswers.SearchAnswers | server/app/mcp_server.py:480-498 | Both search tools reply with the ids they audit: at most twelve, all readable; if any readable fact matches the full-text query only such facts, otherwise those in which the text occurs, the surest first; none is left out before there are twelve; a refused text or one with a NUL character ends in the database's error |
| ProfileAnswers.GetProfileAnswers | server/app/mcp_server.py:508-547 | The profile's ids and lines, fact by fact: readable identity facts, oldest first, then preferences and styles, surest first; at most thirty and at most 400 tokens line by line with seven for the header; the next fact would be too many; each line shows its fact's kind, its confidence to the nearest hundredth and its content, cut to 299 characters and an ellipsis beyond 300 |
| Views.ProfileShowsFour | server/app/mcp_server.py:531-547 | At least four profile facts, or all there are, are always shown, and the rendered text comes to at most 408 estimated tokens |
| ToolAnswers.ActivityAnswers | server/app/mcp_server.py:559-580 | Recent activity replies with the ids it audits: the newest state, episodic and behavioral facts of the granted scopes, or of the one granted domain asked for, newest first, ten or all there are; a domain outside the grants is turned away |
| ToolAnswers.QueueAnswers | server/app/mcp_server.py:721-738 | list_pending_facts denies reps; owners and the office get the newest reviewable facts, newest first, exactly as many as the smaller of the queue and max(1, min(limit, 20)) |
| Views.DecisionMovesOneFact | server/app/mcp_server.py:760-768 | A decision by an owner or the office on a fact pending in their scopes takes it, and nothing else, out of every seat's queue; a promotion makes it readable to exactly the seats of its org with a tag they may see, a rejection to nobody |
| Views.ReviewingDrainsQueue | server/app/mcp_server.py:720-768 | Alternating list and decide, whichever listed fact is chosen and however decided, empties the queue in exactly as many decisions as it held facts |
| Intake.ValidateIff | server/app/schemas.py:40-52 | Exactly which payloads are accepted, and as what: unknown, absent, null and ill-typed fields, defaults and the CHECK constraints, for every payload |
| RoundTrip.BatchStoresItems | server/app/mcp_server.py:364-381 | Each created row is the validated item at its index, field by field, with the caller, the org, no link, and the status active exactly from a confidence of 0.9 on, pending review below |
| RoundTrip.RememberedFactComesBack | server/app/mcp_server.py:600-635 | A remembered fact, after any further run, still carries what was submitted under its author and org and comes back whole to whoever may read it; right after the call those are exactly the seats of its org with a tag they may see, and nobody if its confidence is below 0.9 |
| RoundTrip.UnratedFactsWait | server/app/mcp_server.py:360-361 | A fact remembered without a confidence is pending review, and nobody can fetch it right after the call |
| WriteAnswers.RememberAnswers | server/app/mcp_server.py:650-681 | The whole reply, audit ids and table of remember_facts: every item invalid, created or deduped, in order, with the created rows, the seat's source and the touched ids; the database's error exactly if it refuses an item, for a NUL character in one of its texts or otherwise |
| WriteAnswers.SupersedeAnswers | server/app/mcp_server.py:684-718 | Every branch of supersede_fact for every argument: its five errors in their order, and otherwise the holder of the key or a new row, the target's new status and link, nothing else changed, and the reply and ids that say so |
| WriteAnswers.MemberIsServed | server/app/mcp_server.py:242-268 | A call by a member of one org enters through the org's seat of its client, or a new live one with the default scopes, with the membership's role; through a revoked seat it is refused with one empty audit row, otherwise its tool decides, with one audit row of the tool's ids |
| WriteAnswers.AuditNames | server/app/mcp_server.py:336-352 | Each tool is audited under its own name |
| Interleaving.RequestMoveOk | server/app/mcp_server.py:384-404 | Every single request of every tool keeps both indexes and the call's own invariant: the select after a key collision always finds its row, so the re-raise is unreachable, and so is a missing `[0]` after a seat collision |
| Interleaving.OthersStayOk | server/app/mcp_server.py:290-333 | What other calls and operators do in between never breaks a waiting call's invariant, because rows and keys never disappear |
| Interleaving.OperatorMoveOk | server/app/admin.py:135-147 | The check-then-write of register_connector and the one-request seat updates keep the seat index at every step |
| Interleaving.ExecIsSound | server/app/mcp_server.py:242-268 | Under every schedule of any calls the indexes and all calls' invariants hold |
| Interleaving.RacesAreSafe | supabase/migrations/0003_org_tenancy.sql:242-244 | Under every schedule at most one fact per org and key and one seat per org and client exist; a tool call ends in a database error only for an unreadable id or an item or search that the database refuses, and among operator actions only a registration can |
| SeatRace.RegistrationFailsIff | server/app/admin.py:135-147 | Under any schedule a registration, for an existing org, fails if and only if its check finds no seat and another call has inserted one by the time it writes |
| SeatRace.FirstContactMakesRegistrationFail | server/app/admin.py:143-147 | Any first contact of the client being registered, in any system of calls, has a schedule that makes the registration fail |
| SeatRace.RegistrationMakesRegistrationFail | server/app/admin.py:135-147 | Two registrations of one client without a seat have a schedule that makes the first one fail, in any system of calls |
| SeatRace.RegistrationCanFailIff | server/app/admin.py:114-147 | In any system some schedule makes a registration, for an existing org, fail if and only if its source is not blank, the client has no seat in the org at the start, and another call is a first contact of the client in the org or another registration of it |
| Interleaving.RacersAgree | server/app/mcp_server.py:392-403 | All racing remember and supersede calls with one key in one org report the same fact, and it is the only one holding the key |
| Interleaving.RacersShareTheSeat | server/app/mcp_server.py:323-332 | However first contacts and registrations race, all callers of one org with one client run on the same seat row, the only one there is |
| Interleaving.RequestsKeepSeats | server/app/mcp_server.py:295-296 | No request-path step changes an existing seat's status, scopes or anything else |
| Interleaving.ExecDrifts | server/app/mcp_server.py:709-766 | Under every schedule facts persist, org, owner, content, tags and key never change, none returns to pending, no link is cleared, and a superseded fact has its link |
| InterleavedAudit.LogMatchesAnswers | server/app/mcp_server.py:336-352 | Conservation: under every schedule the log is the old log followed by exactly one row per answered call, naming its caller, org, seat, tool and ids; calls under way, refused or crashed have logged nothing |
| InterleavedAudit.LogExplainsFacts | server/app/mcp_server.py:336-352 | Once all calls have finished, under whatever schedule, every fact that was created or differs from the start is named by a row of its org written since, or was created by a batch the database cut short |
| InterleavedCreation.NewFactsHaveOneMaker | server/app/mcp_server.py:657-681 | Conservation: once all calls have finished, under whatever schedule, each new fact is reported as created by exactly one call, or was left by exactly one batch that the database cut short |
| InterleavedCreation.ReportedFactsAreStored | server/app/mcp_server.py:364-381 | Whatever a call reports as created was not there at the start and is there now, in its org, under its caller's name, with the content of the very item the report stands for, and no batch reports an id twice |
| InterleavedProvenance.MoveActivates | server/app/mcp_server.py:765-766 | Of all single requests only the update of a promotion turns a low-confidence fact active |
| InterleavedProvenance.ActiveOnlyByPromotion | server/app/mcp_server.py:749-768 | Under every schedule a fact below the threshold has become active only through a promotion by an owner or office member of its org who, at a turn of the schedule, saw it pending within the scopes of a seat that was live when they came in |
| InterleavedRevocation.CallsRunOnTheRowTheyRead | server/app/mcp_server.py:242-268 | Under every schedule a call runs with its one org and role and with the scopes and source of the seat row as it read it, and is turned away if and only if that row was revoked, whatever happens to the seat afterwards |
| InterleavedRevocation.TurnedAwayIff | server/app/mcp_server.py:265-267 | Under every schedule an answered call was told that its seat is revoked, and logged no fact, if and only if the row was revoked at the turn the call read it |
| InterleavedRevocation.LaterCallsAreShutOut | server/app/mcp_server.py:252-267 | From any reachable state with the seat revoked and nobody reactivating it, a call that has not read the seat yet never gets past `_begin` but to be turned away, and none of its turns changes a fact |
| InterleavedRevocation.RevocationComesTooLate | server/app/mcp_server.py:242-268 | Any call and any revocation of its seat have a schedule on which the seat is revoked before the call has written anything, and the call still has the facts, audit row and answer it would have had first |
| InterleavedIsolation.SchedulesDoNotInterfere | supabase/migrations/0003_org_tenancy.sql:130-180 | Noninterference under every schedule: take away all turns of other orgs' callers and of operator actions on other orgs' seats, and the org's facts, seats, audit rows and its own calls, answers included, stay the same |
| Schedules.EnoughTurnsFinish | server/app/mcp_server.py:242-778 | Under every schedule a tool call is finished after nine turns of its own, plus two per batch item, and an operator action after two |
| Schedules.ConsecutiveTurns | server/app/mcp_server.py:242-268 | Turns in a row, on any schedule, are the call left alone |
| Schedules.OneAfterAnotherIsRun | server/app/mcp_server.py:242-778 | Calls and operator actions scheduled one after the other are the run of atomic events: same database, same answer to each |
| Serial.AloneBatch | server/app/mcp_server.py:657-681 | The request-by-request batch loop, left alone, computes the batch of the atomic model |
| Serial.AloneActs | server/app/mcp_server.py:650-778 | Every tool body, left alone, has the atomic tool's facts, audit row and reply |
| Serial.AloneIsAtomic | server/app/mcp_server.py:242-268 | Refinement: a call that nothing interleaves with is the atomic call, state and reply |
| Prospects.DecidesOnlyIfAlone | server/app/mcp_server.py:758-766 | Among racing tool calls, a review gets to its update of a fact only if it would have succeeded alone at the start |
| Prospects.RetiresOnlyIfAlone | server/app/mcp_server.py:701-711 | Likewise a supersede gets to retiring its target only if it would have succeeded alone |
| Race.ReviewRevivesSupersededFact | server/app/mcp_server.py:758-767 | Lost update: any supersede and any review of a fact that would each succeed alone can be scheduled, in any system of calls, so that the fact ends active or rejected although superseded |
| Race.RevivalTakesBoth | server/app/mcp_server.py:709-766 | If no call of a system reviews the fact, or none supersedes it, no schedule revives it, operator actions included |
| Race.RevivalIff | server/app/mcp_server.py:709-766 | A system of tool calls has a schedule that revives a fact if and only if some call supersedes it, some call reviews it, and each would succeed alone |
| Verdicts.BothReport | server/app/mcp_server.py:758-768 | Any promotion and any rejection of a fact that would each succeed alone can be scheduled, in any system, so that both report success and the fact ends active |
| Verdicts.ContradictionIff | server/app/mcp_server.py:758-768 | A system of tool calls has a schedule under which one call reports a fact promoted, another reports it rejected, and it is active, if and only if some call would promote it alone and some call would reject it alone |
| LikePattern.EscapeChainIsEscape | server/app/mcp_server.py:489 | The three chained replaces equal one character-wise escape for every query |
| LikePattern.EscapedIsGlob | server/app/mcp_server.py:489-492 | An escaped query followed by `%` matches under LIKE exactly what the query matches literally, its stars standing for any run |
| LikePattern.FallbackIsGlobAnywhere | server/app/mcp_server.py:489-492 | For every query, the pattern matches a content if and only if the query, stars as wildcards, matches somewhere in it, ignoring case |
| LikePattern.EscapingIsExact | server/app/mcp_server.py:489-492 | A query without `*` matches exactly the contents that contain it, ignoring case |
| LikePattern.FallbackMeansContainsIffStarFree | server/app/mcp_server.py:489-492 | The fallback means "contains" for every content if and only if the query has no `*` |
| ProfileBudget.FactLine | server/app/mcp_server.py:461-465 | A rendered line is the kind, the confidence to the nearest hundredth and the content, of which more than 300 characters are cut to 299 and an ellipsis |
| ProfileBudget.TakeWithinBudget | server/app/mcp_server.py:531-542 | The loop takes the longest prefix of the candidates whose running estimate stays within the budget |
| ProfileBudget.LongestFitIsUnique | server/app/mcp_server.py:538-539 | The budget admits one length only: stopping at the first line that does not fit loses nothing |
| ProfileBudget.RenderedBound | server/app/mcp_server.py:547 | A profile whose running total is within 400 renders to at most 408 estimated tokens |
| ProfileBudget.RenderedInOrder | server/app/mcp_server.py:528-547 | The text is the header followed by the lines in order, each on a line of its own |
| ProfileBudget.RenderedWithinBudgetIff | tests/test_mcp_tools.py:416-423 | The rendered text is within 400 if and only if lines and their newlines have at most 1573 characters |
| ProfileOverrun.ProfileWithinBudgetIff | tests/test_mcp_tools.py:416-423 | The text get_profile returns is within 400 if and only if every prefix of the rendered candidates that the loop's estimate admits has, with a newline per line, at most 1573 characters |
| ProfileOverrun.ThirtyPeopleOverrun | tests/test_mcp_tools.py:419-420 | Thirty identity facts whose profile is shown in full and comes to 408 estimated tokens: the asserted bound does not hold in general |
| ProfileBudget.FourLinesAlwaysFit | server/app/mcp_server.py:535-542 | Lines of at most 320 characters: the first four always fit |
| DedupeKey.NormalizeIsJoinedWords | tests/test_murray_contract.py:50-54 | The regular-expression pipeline computes the words of the lower-cased, punctuation-free content, joined by single spaces with none at the ends |
| DedupeKey.KeyWordsAreWords | tests/test_murray_contract.py:50-54 | Those words are non-empty and made of lower-case `\w` characters only |
| DedupeKey.NormalizeIsIdempotent | docs/MURRAY_CONTRACT.md:61-80 | Normalising a normalised text changes nothing |
| DedupeKey.NormalizeEqualIffSameWords | docs/MURRAY_CONTRACT.md:61-68 | Two contents normalise alike if and only if they have the same words |
| DedupeKey.BasisIsInjective | tests/test_murray_contract.py:50-54 | Two hashed strings are equal if and only if words, source_ref and source are, even when source_ref contains bars |
| DedupeKey.BasisReads | docs/MURRAY_CONTRACT.md:61-80 | The hashed string is the words joined by single spaces, then the reference, then the source, with one bar between each |
| DedupeKey.KeepIsFilter | docs/MURRAY_CONTRACT.md:65-66 | Punctuation is deleted character by character, not replaced, wherever it stands |
| DedupeKey.DocumentedIsNormalizedIff | docs/MURRAY_CONTRACT.md:61-68 | The derivation as documented and as implemented agree if and only if the lower-cased content has no word character that is neither letter nor digit |
| DedupeKey.UnderscoreSurvives | docs/MURRAY_CONTRACT.md:65-66 | A lone underscore, empty as documented, is kept by the implementation |
| Selection.RankedIsSorted | server/app/mcp_server.py:523-526 | ORDER BY lists rows without repetition in the requested order |
| Selection.RankedListsRows | server/app/mcp_server.py:523-526 | ORDER BY lists exactly the visible rows |
| Selection.PageLeads | server/app/mcp_server.py:493-495 | ORDER BY with LIMIT selects the leading rows: a left-out row means a full page, all of it before that row |
| LedgerServer.Ledger.constructor | supabase/migrations/0001_init.sql:17-56 | The tables start empty, with their indexes intact |
| LedgerServer.Ledger.SelectMemberships | supabase/migrations/0003_org_tenancy.sql:223-225 | An org is among the rows if and only if the caller has a membership in it |
| LedgerServer.Ledger.SelectSeats | supabase/migrations/0003_org_tenancy.sql:151-153 | A select on clients sees the caller's orgs only |
| LedgerServer.Ledger.InsertSeat | supabase/migrations/0003_org_tenancy.sql:155-160 | An insert into clients is refused exactly for a foreign org or another registrant, collides only with a seat of that org and client, and adds just its row |
| LedgerServer.Ledger.InsertRow | supabase/migrations/0003_org_tenancy.sql:134-139 | An insert into facts raises for values that the database refuses and for no others; it passes row-level security only for the caller's own org and name, collides only with a holder of its key in that org, and adds just its row |
| LedgerServer.Ledger.SelectHolders | server/app/mcp_server.py:394-401 | The select after a collision finds the org's holders of the key |
| LedgerServer.Ledger.ResolveMember | server/app/mcp_server.py:271-287 | Resolves exactly the single-org callers, to their org and role |
| LedgerServer.Ledger.ResolveClient | server/app/mcp_server.py:290-333 | Finds or creates the one seat of the org's client |
| LedgerServer.Ledger.Begin | server/app/mcp_server.py:242-268 | Refuses without trace on membership; audits and refuses a revoked seat; otherwise starts in the caller's single-org context |
| LedgerServer.Ledger.InsertOrFind | server/app/mcp_server.py:384-404 | Creates the row or finds the holder of its key; it raises exactly for an item that the database refuses, so neither re-raise is reached for a collision or by row-level security |
| LedgerServer.Ledger.WriteAll | server/app/mcp_server.py:657-681 | The accumulating loop, its early exit and its audit row do what the specification of the batch says |
| LedgerServer.Ledger.ReplaceFact | server/app/mcp_server.py:690-718 | Every branch of superseding after `_begin`, errors included, with its audit row and reply |
| LedgerServer.Ledger.RememberFacts | server/app/mcp_server.py:651-681 | The accumulating loop over in-place tables has exactly the state and reply of the specification the theorems are about |
| LedgerServer.Ledger.SupersedeFact | server/app/mcp_server.py:684-718 | Likewise for every branch of superseding, errors included |
| LedgerServer.Ledger.DecidePending | server/app/mcp_server.py:749-768 | Role check, id check, pending check and unguarded update, with the audit row and reply of every branch |
| LedgerServer.Ledger.ReviewDecision | server/app/mcp_server.py:740-778 | Likewise for promoting and rejecting |
| LedgerServer.Ledger.GetProfile | server/app/mcp_server.py:508-547 | Likewise for the profile, its greedy loop included |
| LedgerServer.Ledger.SelectSome | server/app/mcp_server.py:480-487 | A select with a limit and no order returns that many of the rows, or all of them, each once |
| LedgerServer.Ledger.FindFacts | server/app/mcp_server.py:473-498 | The two requests of a search, the second only if the first finds nothing, have a result as specified |
| LedgerServer.Ledger.SearchOrContext | server/app/mcp_server.py:550-598 | search and search_context: entry, refused texts, and otherwise a result as specified, audited with exactly its ids |
| LedgerServer.Ledger.GetRecentActivity | server/app/mcp_server.py:560-580 | Likewise for recent activity |
| LedgerServer.Ledger.Fetch | server/app/mcp_server.py:601-635 | Likewise for fetching, errors included |
| LedgerServer.Ledger.Ping | server/app/mcp_server.py:638-648 | Likewise for ping |
| LedgerServer.Ledger.ListPendingFacts | server/app/mcp_server.py:721-738 | Likewise for the review queue |
| LedgerServer.Ledger.AddMember | server/app/admin.py:52-69 | A bad role changes nothing; otherwise the member is then served in that role exactly if they are in no other org, refused if they are, and nobody else is affected |
| LedgerServer.Ledger.RemoveMember | server/app/admin.py:72-82 | The user loses exactly that org, is refused if it was the last, and nobody else is affected |
| LedgerServer.Ledger.RegisterConnector | server/app/admin.py:102-147 | Check, then update in place or insert, as the specification has it |
| LedgerServer.Ledger.SetConnectorSource | server/app/admin.py:150-165 | A blank source is refused and changes nothing; otherwise an entry through that seat then reports the source, whoever calls, and nothing else changes in any seat |
| LedgerServer.Ledger.SetSeatStatus | server/app/admin.py:180-207 | An entry through that seat, whoever calls, is then refused exactly if it was revoked; its revocation time is set exactly then, and nothing else changes in any seat |

## Left out

- Interleaving.ExecIsSound: memberships are fixed while calls are under way, so add_member and remove_member are not among the interleaved actions; a membership that changes inside a call can break several of these properties.
- Interleaving.RequestMoveOk: the two selects of get_profile and of a search count as one request, since between them only the caller's reads could differ.
- Schedules.EnoughTurnsFinish: counts those two selects as one request as well.
- LedgerServer.Ledger.ResolveClient: the branch after a seat collision cannot be reached in an atomic call; its behaviour is modelled and proved in Interleaving.
- ToolAnswers.SearchAnswers: the unordered LIMIT of the full-text stage is an unspecified choice that depends on the visible rows alone, and ties in confidence are broken in no promised order.
- Audit.CallIsAudited: a request that fails for outside reasons, a lost connection in the middle of a batch for instance, is excluded by hypothesis.
- SeatRace.RegistrationFailsIff: the orgs table is not modelled; a registration for an org that does not exist fails on its foreign key, and existing orgs are a hypothesis.
- SeatRace.RegistrationCanFailIff: likewise for existing orgs only.
- Verdicts.ContradictionIff: is about systems of tool calls, like RevivalIff; with operator actions among them BothReport states the half that constructs the schedule.
- Race.RevivalIff: is about systems of tool calls; with operator actions among them, which can revoke a seat in between, the two halves are stated apart in ReviewRevivesSupersededFact and RevivalTakesBoth.
- ToolAnswers.ActivityAnswers: last_seen is the creation time, because no tool updates it; the shown date is left out.
- DedupeKey.BasisIsInjective: lower-casing is character by character and idempotent, and no character is both word and whitespace (`Sensible`); SHA-256 itself and the UTF-8 encoding are left out.
- ProfileBudget.FactLine: confidence is an exact real rounded half up to two decimals; the `real` column's storage error and Python's rounding of ties are left out.
- Intake.ValidateIff: JSON types are classified as absent, null, ill-typed or given; pydantic's coercions between types and its error texts are left out.
- Registration.RegisteringSettlesTheSeat: operators' inputs are taken to be storable text.
- Token verification, JWKS, OAuth metadata and client identity (`server/app/auth.py`, `server/app/db.py`, `server/app/config.py`, `server/app/main.py`): the subject and client id are inputs of a call.
- The orgs table and create_org: rows are only ever added, and all that the modelled actions ask of the table is the foreign key on the org they name, an existing org by hypothesis.
- The jobs table and the list_ actions of `server/app/admin.py`: no state logic that the tools depend on.
- Views.FetchableIff: granted scopes are plain words by hypothesis; the array literal that `.overlaps` builds from them without escaping commas, braces or quotes is left out.
- payload_hash, timestamps beyond creation order, urls, titles, snippets and message texts.
- Full-text parsing and ranking, and sorting inside Postgres: an arbitrary predicate and a specified order instead.
- Transport, tool registration, command line, tunnel and stack scripts.
