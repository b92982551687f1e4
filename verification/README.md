# A model of the support desk backend

The backend is a multi-tenant support desk. Customers write in over channels, agents reply to conversations,
escalate them to tickets and close them; every change is logged twice (activity log and outbox), lists are cached in
Redis under version counters, and a worker publishes the outbox. This project models that behaviour in Dafny and
proves what the operations keep over all runs and, where it matters, over all interleavings.

`dafny verify dfyconfig.toml` checks everything.

## How it is put together

- `Model`, `Operations`: the tables, the domain events, and each mutating call as a decision on what its transaction
  reads (`Decide`) followed by a commit with the unique keys checked (`Commit`). `Apply` is the call as one serial
  transaction, `Run` a run of calls, `Outcome` what the caller is told.
- `Repository`, `CacheClient`, `Services`, `ConversationService`, `TicketService`: the same code statement by statement, as
  classes that change a database and a Redis map in place. Every database statement can fail, by a fault script. The
  methods are proved against `Apply` and `Outcome`, rollback included.
- `Effects`: what each call does, told by inputs and tables alone: when it is refused and why, the whole database it
  leaves, and what the caller is shown. `Services.CompletedIsPromised` carries it to the service methods.
- `Invariants`: what a transaction can look like, and the invariants of the tables.
- `Replay`, `Lifecycle`, `Sessions`, `Custody`, `Tenancy`: run-level results about the event log and about tenants.
- `Lists`, `CacheKeys`, `CacheProtocol`, `ListCache`, `CacheStart`, `CachedService`: list queries, cache keys, the concurrent
  cache protocol and its results, the start-up race, and the same protocol with whole calls one after another.
- `Worker`, `RateLimit`, `Migrations`: the outbox worker, the fixed-window limiter, the migration loop.
- `Interleaved`, `Overlaps`: transactions that overlap, each deciding on the snapshot it began with, and what that
  breaks.
- `Text`, `Ordering`: strings, keys and row order.

Main results are marked "Main result" where they are stated. The chief ones:

1. Folding the activity log rebuilds the tables exactly (`Replay.LogRebuildsTables`).
2. Each conversation's events follow one grammar, sessions never overlap, and only the agent in force acts
   (`Lifecycle.TracesAreWellFormed`, `Sessions.SessionsDoNotOverlap`, `Custody.CustodyOverRuns`).
3. A tenant's view of a mixed run is the run of its own calls on its own rows (`Tenancy.TenantsDoNotInterfere`).
4. The list cache is coherent and shows returned writes in every interleaving (`ListCache.QuietCacheIsCoherent`,
   `ListCache.ListsSeeReturnedWrites`), although its keys are not injective (`CacheKeys.SharedKeySharesAnswer`).
5. The outbox is delivered at least once, with exact accounting and an exact drain time (`Worker.DeliveriesAreAccounted`,
   `Worker.DrainBound`).
6. Each service method does exactly what it should, or nothing, under any failing statement
   (`ConversationService.Service.HandleWebhook` and its siblings, `Effects`, `Services.CompletedIsPromised`), and the two logs stay paired (`Worker.LogsStayPaired`).

## What turned out false, and the exact conditions

- Coherence of a list in every interleaving holds if and only if the list's version counter exists at the start, or no
  run of calls can change the list (`CacheStart.CoherentIffCounterExists`). `Version` sets a missing counter to 1 in a
  step of its own and can undo a bump; `CacheStart.EmptyRedisIsExposed` shows it on a new deployment, for conversations
  and for tickets. With whole calls one after another no counter needs to exist
  (`CachedService.SequentialListsAreFresh`).
- Cache keys are not injective. A request shares its key with another exactly when its joined filters can be cut in a
  second place (`CacheKeys.ConversationKeySharedIff`, `CacheKeys.TicketKeySharedIff`); requests that share a key then
  answer alike.
- A closed conversation stays closed if and only if no transaction that concerns it, other than a close, commits after
  the close; any that does began before the close (`Overlaps.StaysClosedIff`, for one pair of calls
  `Overlaps.ReopensIffConcerned`).
- A customer gets two active conversations on a channel from two overlapping webhooks if and only if both would be
  accepted, for the same known customer and channel, with none active (`Overlaps.OverlapStartsTwoIff`). Over whole
  interleavings one active conversation is kept if and only if nothing is started or reopened while another one is
  active (`Overlaps.OneActiveIff`). One ticket per conversation survives any overlap, by the unique key.
- The rate limiter refuses a caller after a minute of silence if and only if some call lost the counter's EXPIRE and at
  least 30 calls from that one on had a working INCR (`RateLimit.RefusedIffExpiryLost`).
- Events the broker keeps refusing hold up everything behind the 50 oldest (`Worker.RefusedHeadBlocksTheRest`).

## Model

| member | source | states |
|---|---|---|
| Text.TrimSpaceTrims | backend/internal/service/conversation_service.go:81-85 | the trimmed input is the input less white space at both ends, and neither end of it is white space |
| Text.SpacesAre | backend/internal/service/conversation_service.go:81-85 | which characters trimming takes for white space, in ASCII, Latin-1 and beyond |
| Text.LessIsFirstDifference | backend/internal/platform/database.go:100 | one text sorts before another if it is a proper beginning of it or has the smaller character where they first differ |
| Text.DecimalReadsBack | backend/internal/service/conversation_service.go:179-181 | the formatted number is decimal digits without a leading zero and stands for the number |
| Text.LeadingParts | backend/internal/cache/cache.go:116-126 | colon-free leading parts can be read back from a joined key |
| Ordering.SortedIsOrdered | backend/internal/repository/store.go:219-226 | the rows of a query come in strict order, newest first, none twice |
| Operations.TextsParseBack | backend/internal/service/ticket_service.go:217-233 | a text is a valid priority or ticket status exactly when it is the stored text of one |
| Invariants.CustomerIsTheTenants | backend/internal/repository/store.go:106-138 | the customer loaded or created belongs to the tenant and is there once its write is done; only its name can change |
| Effects.RefusedExactly | backend/internal/service/ticket_service.go:97-133 | every call is refused with exactly the first reason that applies, stated on inputs and rows, and with none against it and new identifiers it succeeds |
| Effects.WebhookEffect | backend/internal/service/conversation_service.go:94-157 | a webhook stores the text sent as one customer message in the newest active conversation of the customer with that external id on the channel with that key, or in a new open one if there is none, renames or creates only that customer, and changes and reports nothing else |
| Effects.AssignEffect | backend/internal/service/conversation_service.go:236-245 | the conversation goes to the agent asked for, assigned; nothing else changes or is reported |
| Effects.ReplyEffect | backend/internal/service/conversation_service.go:278-302 | the text sent is stored as the agent's message and the agent holds the conversation; nothing else changes or is reported |
| Effects.CloseEffect | backend/internal/service/conversation_service.go:325-338 | the conversation is closed and the closer reported, once; closing again changes nothing |
| Effects.EscalateEffect | backend/internal/service/ticket_service.go:135-166 | one open ticket with the title, description and priority sent (medium if none), for the escalating agent, who holds the conversation; nothing else changes or is reported |
| Effects.UpdateStatusEffect | backend/internal/service/ticket_service.go:200-208 | the ticket gets the status asked for; nothing else changes or is reported |
| Effects.CustomerOfWebhook | backend/internal/repository/store.go:106-138 | a known customer is renamed only if a name is sent; a new one is named after it or the external id |
| Effects.ActiveFound | backend/internal/repository/store.go:141-155 | the conversation found is active and none of its kind is newer; none is found only if there is none |
| Effects.ThreadIsWhole | backend/internal/repository/store.go:184-191 | the messages shown are every message of the conversation, once, oldest first |
| Effects.ConversationShown | backend/internal/repository/store.go:173-202 | a tenant's conversation is shown with its own customer, channel, agent, thread, ticket and ticket's agent; any other is not found |
| Effects.TicketShown | backend/internal/repository/store.go:257-267 | a tenant's ticket is shown with its agent; any other is not found |
| Effects.AnswersShowResult | backend/internal/service/conversation_service.go:162-163 | a call that commits is answered with the record it concerns, as stored after it; a refused one with the refusal |
| Effects.EventTypesAre | backend/internal/service/conversation_service.go:146-151 | which event carries which type and routing key |
| Invariants.WebhookIsIntake | backend/internal/service/conversation_service.go:94-157 | a committed webhook adds one message to an active conversation and logs received, or starts an open unassigned one when there is no active one and logs created, received |
| Invariants.AssignIsAssignment | backend/internal/service/conversation_service.go:206-246 | an assignment gives a conversation that is not closed to some agent-role user of its tenant and logs that user |
| Invariants.ReplyIsReplying | backend/internal/service/conversation_service.go:255-303 | a reply comes from the agent in force or takes over a free conversation, which is not closed |
| Invariants.CloseIsClosing | backend/internal/service/conversation_service.go:312-339 | a close changes the status and logs once, by an agent only on a conversation held by that agent, or writes nothing at all |
| Invariants.EscalateIsEscalation | backend/internal/service/ticket_service.go:97-170 | an escalation inserts the first ticket of the conversation for the agent in force and logs escalated, ticket.created |
| Invariants.UpdateStatusIsStatusChange | backend/internal/service/ticket_service.go:181-209 | a status update changes at most one ticket's status and time, and logs the status it stores |
| Invariants.DecideIsLegal | backend/internal/service/conversation_service.go:80-345 | every transaction has one of these shapes and writes for the caller's tenant |
| Invariants.KeepsSchema | backend/migrations/001_initial_schema.up.sql:36-96 | keys and unique keys hold after every commit |
| Invariants.KeepsReferences | backend/internal/service/conversation_service.go:210-225 | customer, channel, agent and ticket of a conversation stay within its tenant, and agents have the agent role |
| Invariants.KeepsOwnership | backend/internal/service/conversation_service.go:236-237 | open means no agent, assigned means one |
| Invariants.KeepsOneActive | backend/internal/service/conversation_service.go:113-129 | at most one conversation that is not closed per tenant, customer and channel |
| Invariants.KeepsTables | backend/internal/service/conversation_service.go:80-345 | every call keeps all table invariants, whatever its inputs |
| Invariants.RunKeepsTables | backend/internal/service/conversation_service.go:80-345 | the table invariants hold in every run from an empty deployment, and configuration never changes |
| Replay.AfterCommit | backend/internal/service/events.go:11-36 | what the folded log says after a commit follows from what it said before and the appended events |
| Replay.IntakeStaysRecorded | backend/internal/service/conversation_service.go:119-155 | a webhook keeps the folded log equal to the tables |
| Replay.EscalationStaysRecorded | backend/internal/service/ticket_service.go:135-166 | so does an escalation, for the conversation and the ticket |
| Replay.CommitStaysRecorded | backend/internal/service/events.go:11-36 | so does every legal commit |
| Replay.LogRebuildsTables | backend/internal/service/events.go:11-36 | in every run, folding the activity log gives exactly each conversation's status, agent and message sequence and each ticket's status, agent and conversation, and no others |
| Lifecycle.FirstEventTells | backend/internal/service/conversation_service.go:232-245 | a transaction's first event tells what became of the conversation; a closed one gets none |
| Lifecycle.EscalatedOnce | backend/internal/service/ticket_service.go:129-133 | an escalated conversation had no ticket before |
| Lifecycle.KeepsTrace | backend/internal/service/conversation_service.go:145-153 | every call keeps each conversation's trace in the grammar and in step with the tables |
| Lifecycle.TracesAreWellFormed | backend/internal/service/conversation_service.go:113-153 | in every run each conversation's events are created, received, any mix of received, assigned, replied and at most one escalated, then at most one closed, last; closed exactly when the row is, escalated exactly when it has a ticket |
| Sessions.KeepsNoOverlap | backend/internal/service/conversation_service.go:113-129 | a new conversation is only created after the previous one of its triple was closed |
| Sessions.SessionsDoNotOverlap | backend/internal/repository/store.go:141-155 | in every run the created events of one tenant, customer and channel are separated by the earlier one's closed event, and at most one conversation is not closed |
| Custody.FirstEventPermitted | backend/internal/service/conversation_service.go:271-281 | an event is permitted by the state the log gave before it |
| Custody.KeepsEscalator | backend/internal/service/ticket_service.go:143-151 | a ticket's agent stays the one who escalated |
| Custody.CustodyOverRuns | backend/internal/service/conversation_service.go:274-323 | in every run replied and escalated events carry the agent in force just after, who was in force before or took over a free conversation; an agent closes only what that agent holds; nothing follows a close; tickets keep their escalator when conversations are reassigned |
| Tenancy.DecisionSeesView | backend/internal/repository/store.go:106-202 | a decision depends on the rows of the caller's tenant only |
| Tenancy.OwnCommit | backend/internal/repository/store.go:157-170 | a commit seen through the tenant's view is the same commit on the view |
| Tenancy.OthersCommit | backend/internal/repository/store.go:157-170 | no other tenant sees anything of it |
| Tenancy.OthersCall | backend/internal/service/conversation_service.go:210-225 | a call leaves every other tenant's rows and log entries as they are |
| Tenancy.OutcomeSeesView | backend/internal/repository/store.go:173-202 | what the caller is told depends on its tenant's rows only |
| Tenancy.IndistinguishableCalls | backend/internal/repository/store.go:234-267 | databases that agree on a tenant's rows answer its calls alike and go on agreeing |
| Tenancy.TenantsDoNotInterfere | backend/internal/service/conversation_service.go:210-225 | a tenant's rows after a mixed run are those of a run of its own calls on its own rows |
| Lists.PagesPartition | backend/internal/repository/store.go:205-231 | for any requested limit, the requests at offsets 0, L, 2L, ... get pages that concatenate to exactly the tenant's rows that match the filters, updated_at never increasing, none missing or repeated |
| Lists.PageShows | backend/internal/repository/store.go:219-226 | row i of a page is row offset + i of the whole list, with its own associations |
| Lists.PagesAgree | backend/internal/repository/store.go:210-226 | every page reports the same total and has as many rows as are left, up to the limit |
| Lists.LimitsAreClamped | backend/internal/service/conversation_service.go:347-364 | offsets from 0 and limits from 1 to 100 stand as sent; limits above 100 act as 100, limits of zero or below as 20, negative offsets as 0 |
| Lists.ListSeesView | backend/internal/repository/store.go:344-373 | a list depends on its tenant's rows only |
| Lists.BumpsAre | backend/internal/service/ticket_service.go:175-213 | which versions a call bumps, each once |
| Lists.BumpsCoverChanges | backend/internal/service/ticket_service.go:175-176 | a call changes only lists of its own tenant whose resource it bumps |
| CacheKeys.KeysWrittenOut | backend/internal/service/ticket_service.go:66-75 | the list and version keys, part by part |
| CacheKeys.HeadsAgree | backend/internal/service/conversation_service.go:176-184 | equal list keys agree on tenant, resource, version, offset and limit |
| CacheKeys.ConversationFiltersCollide | backend/internal/service/conversation_service.go:182-183 | distinct conversation filters share a key only if both hold a ':' |
| CacheKeys.TicketFiltersCollide | backend/internal/service/ticket_service.go:72-74 | the same for the three ticket filters |
| CacheKeys.ColonSelectsNothing | backend/internal/repository/store.go:344-373 | a filter with a ':' selects nothing on any reachable database |
| CacheKeys.SharedKeySharesAnswer | backend/internal/service/ticket_service.go:66-75 | requests that share a key have the same total and rows on every reachable database |
| CacheKeys.KeysAreNotInjective | backend/internal/cache/cache.go:28-30 | two different requests that do share a key |
| CacheKeys.ConversationKeySharedIff | backend/internal/service/conversation_service.go:176-184 | another conversation request has the same key if and only if ":agent=" occurs at a second place in the joined filters where cutting leaves trimmed filters |
| CacheKeys.TicketKeySharedIff | backend/internal/service/ticket_service.go:66-75 | another ticket request has the same key if and only if the joined filters can be cut at a second pair of ":priority=" and ":agent=" that leaves trimmed filters |
| CacheKeys.VersionKeysAreApart | backend/internal/cache/cache.go:74 | a version counter never shares its key with a page |
| CacheKeys.VersionKeyInjective | backend/internal/cache/cache.go:93 | each tenant's resource has its own counter |
| ListCache.SharedPageAnswers | backend/internal/service/conversation_service.go:186-189 | a page found under a key answers the request even if another request filled it |
| ListCache.NextKeepsReads | backend/internal/service/conversation_service.go:191-197 | in every step, each total was counted on one commit, each page fetched on one and its associations preloaded on one, by call and by cached page |
| ListCache.NextKeepsTimely | backend/internal/cache/cache.go:69-94 | in every step, what a version's calls and pages hold was read no earlier than the version began, and returned calls are older than the present version |
| ListCache.SettledByCommit | backend/internal/service/conversation_service.go:157-162 | a commit leaves lists it does not bump settled, and the others pending a bump |
| ListCache.NextKeepsSettled | backend/internal/service/conversation_service.go:175-197 | in every step, a slot with no call between commit and bump has had the same lists since its version began |
| ListCache.QuietCacheIsCoherent | backend/internal/cache/cache.go:69-94 | in every interleaving from a start with that list's counter, while no call is between commit and bump, a page cached under the current version equals a fresh query |
| ListCache.ListsSeeReturnedWrites | backend/internal/service/conversation_service.go:162-197 | in every interleaving, a list call that begins after a call that bumps its slot has returned counts, fetches and preloads at that call's commit or later |
| ListCache.ReachableStart | backend/internal/service/conversation_service.go:175 | such a start exists on every reachable database, for every list |
| CacheStart.MissingCounterServesStalePage | backend/internal/cache/cache.go:75-79 | a schedule that leaves a stale page current when the list's counter is missing, for every run of calls that changes the list |
| CacheStart.CoherentIffCounterExists | backend/internal/cache/cache.go:75-79 | from any start, whatever other counters exist, all interleavings are coherent for a list if and only if its counter exists at the start or no run of calls can change it |
| CacheStart.EmptyRedisIsExposed | backend/internal/cache/cache.go:75-79 | on a new deployment with an empty Redis, list calls racing the first webhook leave the empty conversation list current, and racing the first webhook and escalation the empty ticket list |
| CachedService.HitIsFresh | backend/internal/service/ticket_service.go:77-80 | a cached page under the current version answers the request like the database |
| CachedService.InitKeepsSound | backend/internal/cache/cache.go:75-79 | between whole calls, creating a missing counter meets no page of that list |
| CachedService.CallKeepsSound | backend/internal/service/conversation_service.go:162 | commit and bump together leave no stale page current |
| CachedService.SequentialListsAreFresh | backend/internal/service/ticket_service.go:65-88 | with whole calls one after another from an empty Redis, every list answers what the database holds |
| CachedService.ListingRefines | backend/internal/service/conversation_service.go:175-197 | a list call run without interruption is a run of the interleaved protocol |
| CachedService.MutationRefines | backend/internal/service/ticket_service.go:175-176 | so is a mutating call with its bumps |
| CacheClient.Join | backend/internal/cache/cache.go:116-126 | the loop builds the ':'-joined text |
| CacheClient.Client.Key | backend/internal/cache/cache.go:28-30 | the namespaced key of the parts |
| CacheClient.Client.Version | backend/internal/cache/cache.go:69-85 | the counter, created as 1 when missing, read as 1 when it is no number |
| CacheClient.Client.BumpVersion | backend/internal/cache/cache.go:88-94 | exactly that counter goes up by one, from 1 if it was missing; every other key stays |
| CacheClient.Client.SetJSON | backend/internal/cache/cache.go:55-66 | exactly that key holds the page |
| Repository.Store.Begin | backend/internal/repository/store.go:46-50 | remembers what a rollback goes back to |
| Repository.Store.End | backend/internal/repository/store.go:46-50 | an error, or a failing COMMIT, restores the old database |
| Repository.Store.GetTenant | backend/internal/repository/store.go:53-60 | the tenant, not found, or a failure |
| Repository.Store.GetUserByIDAndTenant | backend/internal/repository/store.go:73-80 | the tenant's user only |
| Repository.Store.GetChannelByKey | backend/internal/repository/store.go:96-103 | the tenant's channel with the key |
| Repository.Store.GetOrCreateCustomer | backend/internal/repository/store.go:106-138 | finds, renames or inserts exactly one customer, or changes nothing |
| Repository.Store.FindActiveConversation | backend/internal/repository/store.go:141-155 | the newest open or assigned conversation of customer and channel |
| Repository.Store.GetConversationByID | backend/internal/repository/store.go:173-202 | the conversation with customer, channel, agent, messages, ticket and the ticket's agent, from as many statements, each of which can fail; a missing ticket is no error |
| Repository.Store.List | backend/internal/repository/store.go:205-231 | the page and the total, from count, page query and preloads; a limit of zero acts as 20 |
| Lists.PreloadsMakePage | backend/internal/repository/store.go:219-226 | page query and preloads on one database give the page |
| Repository.Store.FindTicketByConversation | backend/internal/repository/store.go:234-244 | the tenant's ticket of the conversation |
| Repository.Store.GetTicketByID | backend/internal/repository/store.go:257-267 | the tenant's ticket with its agent |
| Repository.Store.CreateConversation | backend/internal/repository/store.go:158-160 | inserts one row, or fails and changes nothing |
| Repository.Store.SaveConversation | backend/internal/repository/store.go:163-165 | writes one row, or fails and changes nothing |
| Repository.Store.CreateMessage | backend/internal/repository/store.go:168-170 | appends one message, or fails and changes nothing |
| Repository.Store.CreateTicket | backend/internal/repository/store.go:247-249 | refuses a second ticket of a conversation, else inserts one row |
| Repository.Store.SaveTicket | backend/internal/repository/store.go:252-254 | writes one row, or fails and changes nothing |
| Repository.Store.CreateActivityLog | backend/internal/repository/store.go:297-299 | appends one entry, or fails and changes nothing |
| Repository.Store.CreateOutboxEvent | backend/internal/repository/store.go:302-304 | appends one event, or fails and changes nothing |
| Services.AppendDomainEvent | backend/internal/service/events.go:11-36 | a success has appended the same event to both logs, routed by its type; a failure nothing, or the activity row alone |
| Services.CompletedIsPromised | backend/internal/service/conversation_service.go:80-345 | what Completed, the contract of every mutating service method, means without the operation's definition: done in full or not at all, the stored record shown, refused exactly for the first reason against it |
| Services.CompletedKeepsSound | backend/internal/service/conversation_service.go:162 | a call leaves the cache sound for the database, committed or not |
| Services.ListedIsFresh | backend/internal/service/conversation_service.go:175-197 | a list answer, cached or not, is what the database holds |
| ConversationService.Service.StartOrContinue | backend/internal/service/conversation_service.go:113-129 | the active conversation, or one inserted open and unassigned |
| ConversationService.Service.Receive | backend/internal/service/conversation_service.go:131-153 | message, row and events written together, or an error |
| ConversationService.Service.Deliver | backend/internal/service/conversation_service.go:108-156 | the statements after the lookups commit exactly the decided change |
| ConversationService.Service.Intake | backend/internal/service/conversation_service.go:94-157 | the transaction is the operation, or fails with its error |
| ConversationService.Service.HandleWebhook | backend/internal/service/conversation_service.go:80-164 | all or nothing under any failing statement; a committed call applied the operation and bumped its version once; a healthy database gives the operation's outcome; the cache stays sound |
| ConversationService.Service.AssignTo | backend/internal/service/conversation_service.go:227-246 | the transaction is the operation, or fails with its error |
| ConversationService.Service.AssignConversation | backend/internal/service/conversation_service.go:206-252 | all or nothing, as for HandleWebhook |
| ConversationService.Service.ReplyAs | backend/internal/service/conversation_service.go:266-303 | the transaction is the operation, or fails with its error |
| ConversationService.Service.ReplyToConversation | backend/internal/service/conversation_service.go:255-309 | all or nothing, as for HandleWebhook |
| ConversationService.Service.CloseOnce | backend/internal/service/conversation_service.go:313-339 | the transaction is the operation, or fails with its error; closing twice writes nothing |
| ConversationService.Service.CloseConversation | backend/internal/service/conversation_service.go:312-345 | all or nothing, as for HandleWebhook |
| ConversationService.Service.ListConversations | backend/internal/service/conversation_service.go:167-198 | on a sound cache the page and total the database holds, and a sound cache after |
| TicketService.Service.TakeOver | backend/internal/service/ticket_service.go:135-141 | a free conversation goes to the agent, any other stays as it is |
| TicketService.Service.Open | backend/internal/service/ticket_service.go:143-166 | ticket and both events written together, or an error |
| TicketService.Service.EscalateAs | backend/internal/service/ticket_service.go:117-170 | the transaction is the operation, or fails with its error |
| TicketService.Service.EscalateConversation | backend/internal/service/ticket_service.go:97-178 | all or nothing; a committed call bumped both versions once |
| TicketService.Service.SetStatus | backend/internal/service/ticket_service.go:194-209 | the transaction is the operation, or fails with its error |
| TicketService.Service.UpdateStatus | backend/internal/service/ticket_service.go:181-215 | all or nothing, bumping the ticket version only |
| TicketService.Service.ListTickets | backend/internal/service/ticket_service.go:56-89 | on a sound cache the page and total the database holds, and a sound cache after |
| Worker.HandledKeepsBooks | backend/cmd/worker/main.go:117-137 | handling part of a batch keeps the accounting and leaves the rest unpublished |
| Worker.DeliveriesAreAccounted | backend/cmd/worker/main.go:101-139 | for any failures, accepted deliveries of an event = (1 if marked published) + its failed marks; attempts = its recorded refusals, and it is marked failed while it has some and is not published; published never reverts; no event is lost or altered |
| Worker.OfferedIffAmongOldest | backend/internal/repository/store.go:307-318 | a tick offers an event exactly when it is unpublished and fewer than 50 unpublished ones are older |
| Worker.TickPublishesOldest | backend/cmd/worker/main.go:111-137 | a tick in which nothing fails, stopped after any number of events, has published exactly that many of the oldest |
| Worker.CleanTickPublishesOldest | backend/cmd/worker/main.go:111-137 | a fault-free tick publishes exactly the 50 oldest |
| Worker.DrainBound | backend/cmd/worker/main.go:111-137 | with r older unpublished events, published after exactly r / 50 + 1 fault-free ticks, whatever arrives |
| Worker.BacklogShrinks | backend/internal/repository/store.go:307-318 | without arrivals n unpublished events become max(0, n - 50k) after k fault-free ticks |
| Worker.RefusedHeadBlocksTheRest | backend/cmd/worker/main.go:118-126 | while the 50 oldest are refused, an event behind them is never offered |
| Worker.LogsStayPaired | backend/internal/service/events.go:11-36 | under any mix of calls and ticks the two logs agree entry by entry on tenant and event, routing key = event type, and the books balance |
| Worker.WorkerLeavesTables | backend/internal/repository/store.go:321-342 | the worker changes nothing that a call reads |
| Worker.OutboxWorker.MarkOutboxPublished | backend/internal/repository/store.go:321-330 | marks exactly one event published and clears its failure |
| Worker.OutboxWorker.MarkOutboxFailed | backend/internal/repository/store.go:333-342 | marks exactly one event failed and counts the attempt |
| Worker.OutboxWorker.Deliver | backend/cmd/worker/main.go:117-137 | one pass of the loop body |
| Worker.OutboxWorker.RunTick | backend/cmd/worker/main.go:106-138 | the loop is the tick, and books that balanced still do |
| RateLimit.AdmissionBound | backend/internal/cache/cache.go:97-114 | any interval of a given length admits at most 30 * (ceil(length / 60 s) + 1) calls, from any counter |
| RateLimit.WindowEndsOnTime | backend/internal/cache/cache.go:106-113 | calls inside a window never move its end, and the first call at or after the end is admitted |
| RateLimit.RejectionIsDeserved | backend/internal/service/conversation_service.go:67-76 | a call is rejected only if at least 30 came within the last minute |
| RateLimit.StuckIffExpiryLost | backend/internal/cache/cache.go:106-110 | a counter never expires if and only if some call created it and lost its EXPIRE |
| RateLimit.StuckCountsIncrements | backend/internal/cache/cache.go:100-113 | from the call that lost the expiry on, the counter counts every working INCR for good |
| RateLimit.RefusedIffExpiryLost | backend/internal/cache/cache.go:97-114 | for Redis failing anywhere, a caller is refused after a minute of silence if and only if some call lost the expiry and at least 30 calls from it on had a working INCR |
| RateLimit.Limiter.CheckRateLimit | backend/internal/cache/cache.go:97-114 | answer, error and new counter for each way Redis can fail; other keys untouched |
| RateLimit.Limiter.AllowWebhook | backend/internal/service/conversation_service.go:62-77 | a missing tenant is refused, an error of the limiter admits |
| Migrations.SortedNames | backend/internal/platform/database.go:100 | the sorted files are the files, in increasing order |
| Migrations.Resumes | backend/internal/platform/database.go:102-131 | a run that stops after k files resumes one that stopped after m |
| Migrations.MigrationsResume | backend/internal/platform/database.go:91-131 | aborted runs and one full run execute each non-blank file once, in name order, like one full run; further runs change nothing |
| Migrations.Migrator.SelectFiles | backend/internal/platform/database.go:91-98 | the loop selects the .up.sql files |
| Migrations.Migrator.ApplyMigrations | backend/internal/platform/database.go:76-134 | whatever fails, the run got through a prefix of the files; a healthy run through all, or up to the first that is neither applied nor readable |
| Interleaved.StaleDecisionFits | backend/internal/service/ticket_service.go:129-154 | a decision on an old snapshot that passes the unique keys still fits the current tickets |
| Interleaved.NextKeepsInv | backend/migrations/001_initial_schema.up.sql:93 | every begin and every commit keeps tickets and their events one to one |
| Interleaved.OneTicketHoweverInterleaved | backend/internal/service/ticket_service.go:117-170 | in every interleaving at most one ticket, one escalated and one ticket.created event per conversation |
| Overlaps.WritesWhatItConcerns | backend/internal/service/conversation_service.go:113-157 | a call updates conversation c exactly when it is a webhook joining c, an assign, reply or close of c, or an escalation of a free c |
| Overlaps.ReopensIffConcerned | backend/internal/service/conversation_service.go:266-345 | a call overtaken by a close of c leaves c open if and only if it would succeed alone, concerns c and is no close |
| Overlaps.StepReopensIff | backend/internal/repository/store.go:163-165 | a step of an interleaving reopens a closed conversation if and only if it commits such a transaction, which then began before the close |
| Overlaps.StaysClosedIff | backend/internal/repository/store.go:163-165 | a closed conversation stays closed through the rest of an interleaving if and only if no such transaction commits in the rest |
| Overlaps.ClosedIsFinalUnlessOverlapped | backend/internal/service/conversation_service.go:325-332 | closed is final in every interleaving in which none commits after a close that it began before |
| Overlaps.ReopeningHappens | backend/internal/service/conversation_service.go:266-303 | a reachable database, a reply and a close for which it fails |
| Overlaps.OverlapStartsTwoIff | backend/migrations/001_initial_schema.up.sql:63 | two overlapping webhooks with new ids leave two active conversations if and only if both would be accepted for the same known customer and channel with none active |
| Overlaps.StepCrowdsIff | backend/internal/service/conversation_service.go:113-129 | a step ends the uniqueness of the active conversation if and only if it commits one that is not closed while another of the same customer and channel is active; that is a start or a reopening |
| Overlaps.OneActiveIff | backend/migrations/001_initial_schema.up.sql:63 | one active conversation per customer and channel all through an interleaving if and only if no such commit happens in it |
| Overlaps.DoubleStartHappens | backend/internal/service/conversation_service.go:113-129 | a reachable database and two webhooks for which they do |

## Left out

Assumptions:

- Transactions are serial in `Apply` and `Run`; only `CacheProtocol` (commits against list calls) and `Interleaved` (snapshots against commits) let calls overlap.
- `CacheProtocol` runs the preloads of a page as one step: channels and agents are configuration that no call writes, so only the time of the customers' statement matters. Elsewhere a read is one consistent look at the database, although its statements fail one by one.
- Generated ids are new where a result says `Fresh`; tenant and user ids hold no ':'; text is compared exactly, not by a database collation.
- Equal time stamps are ordered by id; messages and both logs are kept in insertion order.
- A save writes the row's own columns as set. What the ORM does with preloaded associations, such as the former agent loaded with a conversation that is reassigned, is not visible in the source. The `updated_at` it leaves on rows whose time the service does not set is an input (`stamp`).
- Foreign keys are not checked on insert; the invariants show they cannot fail.
- Statuses, priorities and sender types are stored as one of their known values; event payloads are the model's event values, so JSON encoding and fields the API hides are not modelled.
- A failed database statement has no effect; a mark that reached the database but whose reply was lost counts as a failed mark only if the row is unchanged.
- A new outbox event that commits during a tick counts as arriving after it. Its place is last, as `created_at` order has it.
- The 5-minute life of a cached page is modelled as expiry at any time. A Redis key counts as expired from its expiry instant on.
- Redis does not fail in `CacheProtocol` and `CacheClient`, and is not flushed; a process does not die between its commit and its bump.
- Rate-limit counters live apart from list keys: a rate-limit key whose address text looks like a list key is not considered.
- The statements of a migration file and its schema_migrations row are one atomic step; implicit commits of DDL statements in MySQL are not modelled.

Not modelled:

- HTTP routes, handlers, middleware, envelopes, configuration, logging, sign-in, tokens and password hashes.
- The RabbitMQ, Redis and MySQL clients themselves, the heartbeat, and the worker's wait for its publisher.
- Several workers at once.
- The seed data, which bypasses the services, and the frontend.
- The `active` flag of users, which only the listing of users reads; user, channel and settings lists.
- A transition rule for ticket statuses: the code lets any valid status follow any other.
- ListCache.ListsSeeReturnedWrites: total, rows and associations may come from three different commits, as the code asks for them in separate statements.
