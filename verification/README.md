# Verified models of the game server's protocols

The game server runs training missions over a simulated radio network; a browser client watches them. This project
models the server's small state machines, and three of the client's, and proves what they keep over whole runs.

Each component is a specification on values (a `State`, its step functions, and runs as sequences of steps), a set of
lemmas about those runs, and, where the source updates fields in place, a class whose methods are proved to compute
that specification. A run interleaves every operation of the component with whatever the rest of the system may do:
the radio delivers or drops any message it carries at any time, also one the server no longer waits for, simulation and planner answers are arbitrary, and game
status changes are steps of their own. Where a property is about what happened rather than what is stored, the state
carries history that no operation reads.

| files | component |
|---|---|
| `ExecutionAcks`, `AckSafety`, `AckRuns`, `AckDeliveries`, `AckSettlement`, `AckReceipts`, `AckAddresses`, `AckOutcomes`, `AckGame` | acknowledgement of executed orders: from the executor to the issuer's terminal, at most four paced attempts, knowledge exactly by deliveries that were waited for, a settlement bound, and when an unconfirmed order can still be confirmed |
| `ImpactReports`, `ImpactSafety`, `ImpactRuns`, `ImpactDeliveries`, `ImpactSettlement`, `ImpactOutcomes`, `ImpactGame` | impact reports, the second paced protocol, which reads deliveries off the message log: what unsettles it, what recipients learn, a settlement bound |
| `Audit`, `AuditSafety`, `AuditPaging`, `AuditRuntime` | the terminal-local audit log: gapless numbering per role, eviction floors, cursor paging |
| `OrderTraffic`, `OrderRequests` | orders on their way and the authority requests that ask for them: submission, decision, abort, and the chain of command over whole runs |
| `Agents`, `AgentSafety`, `AgentOrders`, `AgentGoals`, `AgentRuns`, `AgentCredentials`, `AgentEffects`, `AgentGame` | external controllers: whose decision a credential makes, assignment generations, observations with deadlines, decisions at most once, how the actions of one decision affect each other, order identifiers, goal assignments |
| `AiPlanning`, `AiPlanningFrame`, `AiPlanningSafety`, `AiPlanningTicks`, `AiPlanningOrders`, `AiPlanningRuns`, `AiPlanningConflicts`, `AiPlanningPolicies`, `AiPlanningPatrol`, `AiPlanningGame` | the server's own planners: exactly which orders a pass gives, one planner per unit, smallest command scope first, no second order while one is on its way, paced repeats |
| `AirspaceImport`, `AirspaceSafety`, `AirspaceReimport`, `AirspaceResult`, `AirspaceGame` | airspace orders imported into a planning draft, all or nothing: exactly which are accepted, and the plan they make |
| `GameClock` | frame pacing without catch-up debt |
| `Samples`, `Diagnostics` | bounded telemetry windows: nearest-rank percentile and committed rate |
| `Polling`, `PollingSafety`, `PollingRuns`, `PollingEffects` | the client's polling hook under every interleaving of its callbacks, and what it shows and waits for, told from the events alone |
| `NetworkLayout` | the client's network diagram: slots and link counts |
| `Throttle` | the sign-in throttle |
| `Ordered` | options, saturating arithmetic and the key order of sorted maps |

`dafny verify dfyconfig.toml` checks everything.

## What turned out different from what one would expect

- An acknowledgement the log shows as delivered need not confirm its order. When a failed write or network step makes the
  server drop its waiting actions, the radio still carries their messages; one that arrives later is marked as delivered
  and nothing else happens. `AckDeliveries.AbortHidesDelivery` gives the run, `AckDeliveries.DeliveryConfirmsUnlessAborted`
  the exact condition. The same happens to impact reports, which then count as delivered and are never sent again although
  the recipient's picture lacks them (`ImpactDeliveries.AbortHidesReport`, `ImpactDeliveries.DeliveryTellsUnlessAborted`).
- The other way round, a failed write of a delivered message's next transition takes the delivery off its record, while
  the order stays confirmed (`AckDeliveries.FailedWriteErasesDelivery`).
- Settled impact reports can become due again without a new impact: an authority edit that moves a route's origin role to
  a unit with impacts of its own does that (`ImpactRuns.EditUnsettles`; `ImpactRuns.EditSettledExactly` says when), and so
  does an erased delivery (`ImpactRuns.EraseSettledExactly`).
- The actions of one decision affect each other. Of two orders to a free unit the second is refused while the first is on
  its way, though alone it would be accepted (`AgentOrders.SecondOrderRefused`); a failed write stops the game for the
  orders after it; and deciding a request can take that decision from a later action or free the request's unit for a later
  order. `AgentOrders.ActsAloneExactly`, `AgentOrders.OrderActsAloneExactly` and `AgentOrders.RequestActsAloneExactly` say
  exactly when an action has the outcome it would have alone.
- A new decision's order can be refused because its identifier was used before: `AiPlanningConflicts.NewDecisionCanConflict`
  is a run in which a policy used it. `AgentOrders.ConflictsExactly` says when an order is refused so, and
  `AgentOrders.ConflictFreeExactly` when no decision under a given identifier can be: if and only if none of its actions'
  identifiers has been used. An identifier the server has not issued is one.
- An order shown as unconfirmed can still be confirmed, for the timeout runs from the delivery of its command and not from
  its execution. `AckReceipts.ConfirmableExactly` gives the exact condition, `AckReceipts.UnconfirmedIsFinal` how soon the
  first attempt must follow for the timeout to be final.
- A reassigned role's generation need not grow. An authority edit that drops a role no AI controls and no player holds, and
  a later one that restores it, starts its lease generation at zero again while its old connection survives, so a later
  assignment can repeat an older number. `AgentRuns.GenerationCanRepeat` gives the run, up to a decision carried out, `AgentRuns.ConfigureRaisesGeneration` the exact
  condition, `AgentRuns.OlderGenerationNeverApplied` the guarantee while edits keep the role. What protects decisions
  in every run is `AgentRuns.WithdrawnWorkIsNeverAnswered`: withdrawn observations are never answered.
- After `advance` an open observation has time left exactly if now is below the largest 64-bit millisecond, where the
  deadline saturates (`AgentRuns.AdvanceAttends`).
- Importing an accepted airspace order a second time changes nothing, but it is accepted again only if the order
  cancelled nothing: the target of a cancellation is gone the second time (`AirspaceReimport.ReimportIsIdempotent`).
- A frame that is a whole period late moves the deadline grid for good (`GameClock.DeadlinesStayOnGrid`).

## Model

| member | source | states |
|---|---|---|
| AckSafety.ReceiveLearnsExactly | crates/server/src/execution_acks.rs:128-151 | in every reachable state, calling receive directly with any message and order teaches something exactly if the log shows the message delivered, as an acknowledgement of that order, when nothing waited for it |
| AckSafety.DeliveryConfirms | crates/server/src/execution_acks.rs:128-151 | delivering any message in flight always passes the match against its record, and sets the order's received tick to the delivery time rounded up to seconds |
| AckSafety.RunKeepsInv | crates/server/src/execution_acks.rs:26-156 | every run keeps the protocol's invariants: entries agree with the sends the log shows, what is in flight is the single undelivered last attempt, an order is confirmed exactly when one of its acknowledgements was delivered while waited for, and abandoned messages are logged and undelivered |
| AckRuns.AttemptsBoundedAndPaced | crates/server/src/execution_acks.rs:61-126 | in every state of every run an order has at most four logged attempts, consecutive ones ten ticks apart or more, and at most one in flight |
| AckRuns.RunContinues | crates/server/src/execution_acks.rs:26-47 | over any run results are never rewritten, logged sends stay, nothing is sent after receipt, and a received tick never changes |
| AckRuns.RunRecords | crates/server/src/execution_acks.rs:26-47 | the execution tick and result kept for an order are the first ones recorded in the run |
| AckAddresses.AcksGoToTheIssuer | crates/server/src/execution_acks.rs:26-47 | in every run an order's issuer and executor are those of the first report of its result and its recipient the terminal the issuer's role had at that report; every logged acknowledgement of the order goes from that executor to that terminal with that tick and result, and without a report there is none |
| AckAddresses.AcksNameTheExecutor | crates/server/src/execution_acks.rs:100-112 | only a send logs an acknowledgement, in the name of the first role then at the executing unit, or of the issuer's if none is there |
| AckOutcomes.SendOutcomes | crates/server/src/execution_acks.rs:89-125 | the k-th due order of a send gets the k-th message, at this tick, and by the outcome of its turn that message is waited for, delivered and confirmed at once in the executor's own terminal, or neither |
| AckOutcomes.MissingProfilePauses | crates/server/src/execution_acks.rs:61-73 | without a profile a send pauses the game exactly if some order is neither received nor exhausted, and otherwise does nothing |
| AckRuns.ConfirmationIsEarned | crates/server/src/execution_acks.rs:153-156 | a confirmation exists exactly if a matching acknowledgement was delivered while its action waited, and shows the first recorded tick and result at that delivery's tick |
| AckDeliveries.DeliveryConfirmsUnlessAborted | crates/server/src/transport.rs:213-228 | whatever happens before the radio delivers an acknowledgement in flight, the log then shows it delivered; it confirms its order, at that tick, if and only if no abort came in between |
| AckDeliveries.AbortHidesDelivery | crates/server/src/transport.rs:418-445 | from any reachable state with an acknowledgement in flight: abort, resume and delivery leave it logged as delivered and its order unconfirmed, and receive would still learn from it |
| AckDeliveries.FailedWriteErasesDelivery | crates/server/src/planning.rs:915-955 | from any such state: delivery and a failed write of the record's next transition leave the order confirmed and the record undelivered |
| AckDeliveries.CalmConfirmationIsLogged | crates/server/src/execution_acks.rs:128-156 | in every run without aborts and such failed writes, an order is confirmed if and only if the log shows one of its acknowledgements delivered |
| AckRuns.SettledIsFinal | crates/server/src/execution_acks.rs:55-67 | once all orders are received or exhausted nothing is sent, in flight or changed at any later step until a new result is recorded |
| AckSettlement.SendReachesDue | crates/server/src/execution_acks.rs:74-126 | a send that leaves the game running attempts every due order once at this tick and touches no other |
| AckSettlement.SettlesInTime | crates/server/src/execution_acks.rs:61-126 | if acknowledgements leave the pending set within E ticks, any order is received or exhausted at most 3 max(10, E) + E ticks plus one per failed tick after its first attempt, in every run |
| AckSettlement.TimeoutCoversWorstCase | crates/server/src/execution_acks.rs:158-165 | so the confirmation timeout 4E + 30 covers the worst case, even with up to 3 min(E, 10) failed ticks |
| AckReceipts.ConfirmableExactly | crates/server/src/intents.rs:318-341 | an order without a confirmation, also one shown as unconfirmed, can be confirmed in some further run if and only if an acknowledgement is in flight, or the profile exists and the order is not executed yet or has attempts left |
| AckReceipts.UnconfirmedIsFinal | crates/server/src/intents.rs:328-341 | if the delay from the command's delivery to the first attempt and the failed ticks together are at most 3 min(E, 10), an order shown as unconfirmed is never confirmed in any further run |
| AckGame.Game.RecordResult | crates/server/src/execution_acks.rs:26-47 | a new order's entry has the given issuer, executor, tick and result and the terminal the issuer's role has now, unsent and unconfirmed; a recorded one keeps its entry; no other order's confirmation changes, and the protocol's invariants and everything sent, known or recorded so far are kept |
| AckGame.Game.Receive | crates/server/src/execution_acks.rs:128-151 | the in-place receipt computes the specified state |
| AckGame.Game.Attempt | crates/server/src/execution_acks.rs:90-124 | one pass of the send loop's body, with transmission and immediate local delivery, computes the specified attempt |
| AckGame.Game.AttemptAll | crates/server/src/execution_acks.rs:89-125 | the loop over due orders, cut short when the game pauses, computes the specified fold |
| AckGame.Game.SendPending | crates/server/src/execution_acks.rs:61-126 | the whole send, with its guards and the pause on a missing profile, computes the specified step |
| ImpactSafety.RunKeepsInv | crates/server/src/impact_reports.rs:28-137 | every run, with authority edits, aborts and late deliveries, keeps the counts per key equal to the sends in the log, at most one report in flight per recipient and intent, each with its undelivered record; neither routes nor reported impacts are lost, and recipients know exactly the reports heard |
| ImpactSafety.SendsBoundedAndPaced | crates/server/src/impact_reports.rs:73-137 | in every run at most four reports per (role, recipient, intent), spaced by the route's interval, none for other keys, and in total at most four times the number of keys |
| ImpactSafety.DeliveryIsSeen | crates/server/src/transport.rs:298-311 | a delivery waited for marks exactly the one logged report it is about, which the log scan then finds and its recipient knows |
| ImpactSafety.PassLeavesNothingDue | crates/server/src/impact_reports.rs:83-136 | after a pass that leaves the game running, of every report at the terminal of any route's origin role that is neither delivered nor on its way, four attempts have been made or the last is less than the route's interval ago, whatever roles other routes lack |
| ImpactSafety.SettledSendsNothing | crates/server/src/impact_reports.rs:49-71 | in a settled game with the profile present, a send changes nothing |
| ImpactReports.Items | crates/server/src/impact_reports.rs:83-88 | what a pass goes through is exactly the reports at the terminal of some route's origin role, for the routes whose role exists |
| ImpactRuns.RoutesInOrder | crates/server/src/impact_reports.rs:83-88 | a pass goes through the routes in their order, whichever of them lack a role |
| ImpactRuns.ReportsInOrder | crates/server/src/impact_reports.rs:86-88 | and through a route's reports in the order they were made, each at most once |
| ImpactOutcomes.PassOutcomes | crates/server/src/impact_reports.rs:90-134 | the k-th message a pass sends is delivered and received at once in the role's own terminal, waited for exactly if the radio took it, or, if it cannot be written, the last one in a game that then waits for nothing |
| ImpactOutcomes.MissingProfilePauses | crates/server/src/impact_reports.rs:73-82 | a game without routes sends nothing, and with routes a missing profile pauses it |
| ImpactRuns.SettledIsFinal | crates/server/src/impact_reports.rs:49-71 | over every run a settled game stays settled at every step if and only if no step unsettles it: a new impact or an authority edit that gives a route a report neither delivered nor exhausted, or the loss of a report's only recorded delivery; while it stays settled every send is a no-op |
| ImpactRuns.EditSettledExactly | crates/server/src/main.rs:1344-1357 | an authority edit keeps a settled game settled if and only if every report it newly makes local to a route is already delivered, or exhausted and not in flight |
| ImpactRuns.EditUnsettles | crates/server/src/main.rs:1344-1357 | a settled game that becomes unsettled, and sends again, when an edit moves the origin role to a unit with an impact of its own |
| ImpactRuns.EraseSettledExactly | crates/server/src/planning.rs:943-952 | a failed write that takes a delivery back keeps a settled game settled if and only if every report carried is exhausted or delivered by another record |
| ImpactRuns.EraseUnsettles | crates/server/src/planning.rs:943-952 | a run from a fresh game: a report gets in flight, is delivered, which settles the game, and a failed write unsettles it |
| ImpactDeliveries.DeliveryTellsUnlessAborted | crates/server/src/transport.rs:298-311 | a report in flight that is delivered after any further steps counts as delivered; by that its recipient learns it if and only if no abort came in between |
| ImpactDeliveries.AbortHidesReport | crates/server/src/transport.rs:418-445 | after an abort, the delivery of any report that was in flight makes it count as delivered while its recipient learns nothing |
| ImpactDeliveries.KnownExactlyIfHeard | crates/server/src/transport.rs:298-311 | in every run a recipient knows a report if and only if some message carrying it was delivered while waited for |
| ImpactDeliveries.CalmDeliveriesAreReceived | crates/server/src/impact_reports.rs:28-40 | in every run without aborts and failed writes, a report the scan counts as delivered was received by its recipient |
| ImpactSettlement.SettlesInTime | crates/server/src/impact_reports.rs:73-137 | in every run, if messages leave the pending set within E ticks, a report that stays to be carried is delivered, or its four attempts are over, at most 3 max(interval, E) + E ticks after its first attempt, plus one per failed tick and E per message of another role about the same order to the same recipient; without such messages it is then settled |
| ImpactSettlement.RivalsBounded | crates/server/src/impact_reports.rs:42-48 | those messages are at most four for each other key that shares recipient and order |
| ImpactGame.Game.LogShowsDelivery | crates/server/src/impact_reports.rs:28-40 | the scan of the message log finds a delivery exactly if there is one for the key |
| ImpactGame.Game.Attempt | crates/server/src/impact_reports.rs:90-134 | one report's attempt computes the specified step, and says whether it was due |
| ImpactGame.Game.Carry | crates/server/src/impact_reports.rs:88-135 | the inner loop over a route's reports computes the specified fold |
| ImpactGame.Game.SendReports | crates/server/src/impact_reports.rs:73-137 | the two loops, passing over routes whose role is gone, compute one fold over everything to carry |
| AuditSafety.SortIsStable | crates/server/src/audit.rs:66-69 | collecting keeps every event, orders them by time and keeps capture order among equal times |
| AuditSafety.StableOrderUnique | crates/server/src/audit.rs:66-69 | these properties determine the order: no other list has them |
| AuditSafety.PrepareSplits | crates/server/src/audit.rs:83-126 | preparing a then b from the heads a left, ordinals shifted, is preparing a followed by b |
| AuditSafety.PreparedForRole | crates/server/src/audit.rs:83-126 | each role gets exactly the events at its own terminal, numbered from its head upward without gaps, and its head ends at head plus count |
| AuditSafety.FlushEvolves | crates/server/src/audit.rs:127-140 | one flush numbers the captured events next for each role that saw them, raises floors only over evicted ones, and changes nothing kept |
| AuditSafety.FlushesEvolve | crates/server/src/audit.rs:127-140 | the same over any sequence of flushes |
| AuditSafety.GaplessAfterAnyFlushes | crates/server/src/audit.rs:127-140 | after any flushes from an empty log, each role's retained events are exactly floor + 1 to head, in order, and the queue is within capacity |
| AuditSafety.EventGoesToItsRoles | crates/server/src/audit.rs:83-126 | a captured event is projected to exactly the roles at its terminal, in their order, each under its next number, and with AuditSafety.PrepareSplits this determines any projection |
| AuditSafety.FlushShows | crates/server/src/audit.rs:83-140 | every number a flush gives a role and retains shows the captured event of that turn among those at its terminal, with all its fields but the hop |
| AuditSafety.EvictKeepsLatest | crates/server/src/audit.rs:135-139 | eviction keeps the latest entries of the whole queue up to the capacity |
| AuditPaging.PageSplits | crates/server/src/audit.rs:223-237 | a page is a first slice of the matches, within the limit, and its cursor leads to exactly the rest |
| AuditPaging.PageAnswers | crates/server/src/audit.rs:46-64 | a page has exactly the role's retained events above the cursor with the asked message, packet and kind, up to the next cursor or all of them if there is none; a next cursor names the last event of a full page that more follow |
| AuditPaging.TruncatedExactly | crates/server/src/audit.rs:243-247 | a page says truncated exactly if some sequence number above its cursor was evicted |
| AuditPaging.FollowingNeverRepeats | crates/server/src/audit.rs:222-248 | from an empty log on, following cursors while any flushes and evictions come before and between pages, under any terminals, returns matches in strictly rising order, so nothing repeats |
| AuditPaging.FollowingMissesNothing | crates/server/src/audit.rs:222-248 | over the same runs, when following ends, every matching event above the start cursor that the last page's log still held has been returned |
| AuditPaging.FollowingStillLog | crates/server/src/audit.rs:223-248 | with no flush in between following ends, for any limits, with exactly the matches |
| AuditRuntime.Runtime.Collect | crates/server/src/audit.rs:66-69 | appending and stable insertion by loops end with all events, in time order, those of equal time in the order of capture, which is the specified pending list |
| AuditRuntime.Runtime.Prepare | crates/server/src/audit.rs:83-126 | the nested loops over events and roles with a local map of heads compute the specified projection, publishing nothing |
| AuditRuntime.Runtime.EvictOldest | crates/server/src/audit.rs:135-139 | the eviction loop ends within capacity with the specified floors |
| AuditRuntime.Runtime.FlushVolatile | crates/server/src/audit.rs:127-140 | collecting, numbering, publishing and evicting compute the specified flush |
| AuditRuntime.Runtime.ListVolatile | crates/server/src/audit.rs:222-248 | the page has exactly the role's events after the flush that are above the cursor and have the asked message, packet and kind, up to the next cursor or all of them; reading it changes nothing but what the flush does |
| AgentSafety.DecideExactly | crates/server/src/agents.rs:447-565 | a decision is carried out if and only if its credential is some role's (AgentCredentials.DecidesForItsRole says whose), protocol, generation, identifier, open observation with time left and size all hold; a replay returns the stored result; everything else changes nothing |
| AgentCredentials.CredentialsAreDistinct | crates/server/src/agents.rs:138-218 | in every run no credential speaks for two roles |
| AgentCredentials.DecidesForItsRole | crates/server/src/agents.rs:113-137 | in every run: a credential no external connection holds is unauthorized and changes nothing; the one a role holds gets that role's decision carried out exactly if protocol, generation, identifier, open observation and size are in order, logged for that role, and otherwise the stored result or the first refusal that applies |
| AgentCredentials.ConfigureGivesCredential | crates/server/src/agents.rs:168-203 | an assignment makes the new credential speak for the role, an external one only, voids the old one and touches no other role's |
| AgentEffects.ConfigureExactly | crates/server/src/agents.rs:138-218 | which assignments are refused and why; otherwise the role loses its holder, has its generation raised and its control set by the mode, and an unused connection, and no other role is touched |
| AgentEffects.AdvanceExactly | crates/server/src/agents.rs:329-366 | overdue work of an external role is withdrawn, and a role with none open that was not asked in the last five ticks is shown its own tracks and the requests there are, with its own deadline |
| AgentEffects.AdvanceNotesTimeouts | crates/server/src/agents.rs:345-354 | the history notes exactly the external roles whose time was up, in ascending order |
| AgentEffects.DecisionCloses | crates/server/src/agents.rs:546-558 | a decision carried out ends its role's observation and fallback and is noted as the role's |
| AgentEffects.EditExactly | crates/server/src/agents.rs:689-703 | an authority edit installs exactly the defined roles with their units; control follows the connection, generations rise for AI roles under one, and connections lose their work and the goals of units their role no longer commands, and no others |
| AgentEffects.SubmitsExactly | crates/server/src/intents.rs:84-179 | an order under a free identifier is handed over exactly if the game runs and the order is sound and let through |
| AgentEffects.RepeatGetsFirstAnswer | crates/server/src/intents.rs:84-114 | whatever happened in between, the same order in the same tick gets its first answer and another order under its identifier conflicts |
| AgentEffects.OrdersFollowTheChain | crates/server/src/agents.rs:367-397 | an order of a controller is, on its way, that order for that unit, or nothing |
| AgentEffects.AcceptedOrdersAreGiven | crates/server/src/agents.rs:398-418 | an accepted order under a free identifier was given on its way, and its identifier is the latest of the role's receipts, of which the last 64 are kept |
| AgentEffects.SeatsExactly | crates/server/src/main.rs:1990-2012 | a role counts as attended exactly if a player holds it or a controller that is not human plays it |
| AgentEffects.DecisionsFollowTheChain | crates/server/src/agents.rs:420-445 | a controller's decision of a request is that decision by its role |
| OrderRequests.OnlyApprovedOrdersExecute | crates/server/src/main.rs:2014-2110 | over every run of submissions, decisions, vacancies, deliveries, losses and aborts, an executed order that had to be asked for is its request's order for its request's unit, every deciding role has approved it in turn, and no request executes twice |
| OrderRequests.RefusedNeverExecutes | crates/server/src/main.rs:2024-2033 | in every run a request one role refused is closed by that, its order is not on its way and never was executed |
| OrderRequests.DecisionsAreRecorded | crates/server/src/main.rs:1484-1516 | a decision is recorded under its role and answer; a refusal closes the request, an approval sends it to the next deciding role or its order to the unit |
| OrderRequests.NoRequestIsStuck | crates/server/src/transport.rs:346-422 | in every run a request in transit is what a message on its way waits for, whose delivery moves it on and whose loss closes it |
| OrderRequests.AbortClosesTransit | crates/server/src/transport.rs:418-422 | in every run an abort closes exactly the requests in transit and executes nothing |
| AgentOrders.ActsAloneExactly | crates/server/src/agents.rs:502-545 | an action has the outcome in its decision that it would have alone if and only if the earlier actions changed neither whether its unit is busy nor whether its request is the role's to decide, and did not stop the game before an order to a free unit under an unused identifier |
| AgentOrders.OrderActsAloneExactly | crates/server/src/agents.rs:382-397 | for a unit with nothing on its way: its order has the outcome it would have alone if and only if no earlier accepted order of the decision is still on its way to it, and the game still runs or its identifier was used before |
| AgentOrders.RequestActsAloneExactly | crates/server/src/main.rs:1484-1516 | a decision about a request has the outcome it would have alone if and only if no earlier action decided that request, or it is again this role's to decide |
| AgentOrders.BusyUntilDecided | crates/server/src/ai_orders.rs:23-42 | a unit busy before the decision stays busy for its later actions until the game stops or an action decides a request for the unit |
| AgentOrders.SecondOrderRefused | crates/server/src/agents.rs:382-397 | of two direct move orders sent by radio to a free unit the second is refused as pending, and alone it is accepted |
| AgentOrders.DecideAllInScope | crates/server/src/agents.rs:502-545 | an action is accepted exactly if, when its turn comes, the observation showed what it refers to, its unit is in scope and not busy or its request is the role's to decide, and its identifier stands for this very order or is free and the order passes in a running game |
| AgentSafety.DecideAllFrame | crates/server/src/agents.rs:367-446 | carrying out actions submits exactly the accepted orders whose identifiers were free, in order, uses up only the decision's own identifiers, and touches no other role |
| AgentSafety.RunKeepsInv | crates/server/src/agents.rs:138-218 | every run of assignment, advance, decisions, authority edits, lease changes, planning, pauses and halts that leave work open keeps the controllers' invariants, and never undoes a decision carried out, an order handed over or an identifier used |
| AgentGoals.LastActionSettlesGoal | crates/server/src/agents.rs:528-540 | the last accepted action of a decision that concerns a unit settles its goal assignment: an order ends it, a selection sets it |
| AgentGoals.UnconcernedKeepsGoal | crates/server/src/agents.rs:502-545 | a unit no accepted action concerns keeps its goal assignment |
| AgentGoals.AssignmentsStayInScope | crates/server/src/agents.rs:699-700 | in every run a role's goal assignments name only units it commands, whatever authority edits take away |
| AgentRuns.DecisionsAppliedAtMostOnce | crates/server/src/agents.rs:447-565 | in every run no decision is carried out twice, no observation answered twice, each under the generation then current, no two orders handed over share an identifier, whether decisions, policies or patrol gave them, and observations between withdrawals are five ticks apart |
| AgentOrders.ConflictsExactly | crates/server/src/intents.rs:84-114 | an order of a decision is refused as a conflict if and only if, when its turn comes, all else allows it but its identifier stands for another order |
| AgentOrders.ConflictFreeExactly | crates/server/src/intents.rs:84-114 | for an open role with a free unit: no decision under an identifier can have an order refused as a conflict if and only if none of its action identifiers has been used, which holds for identifiers the server has not issued |
| AiPlanningConflicts.NewDecisionCanConflict | crates/server/src/agents.rs:447-565 | a run from a fresh game: a real planning pass places an order under its observation's identifier, the role becomes external and is asked, and its new decision of that name is carried out with its order refused as a conflict |
| AgentRuns.ReplayChangesNothing | crates/server/src/agents.rs:468-478 | an identical replay under the current assignment returns the stored result and changes nothing |
| AgentRuns.WithdrawnWorkIsNeverAnswered | crates/server/src/agents.rs:105-112 | after a role's work is withdrawn, or left open in a game that halts, every decision carried out for it answers an observation issued later, in every run |
| AgentRuns.OlderGenerationNeverApplied | crates/server/src/agents.rs:689-703 | while authority edits keep a role, its generation never falls, so no decision of an older generation is carried out |
| AgentRuns.ConfigureRaisesGeneration | crates/server/src/agents.rs:168-189 | a reassignment raises the generation exactly if the lease generation, raised once more for a holder it turns out, has not fallen behind the connection's |
| AgentRuns.GenerationCanRepeat | crates/server/src/agents.rs:689-703 | a run in which a role assigned under generation 2 is released, dropped, restored and reassigned, and a decision is carried out under generation 1 |
| AgentRuns.AdvanceAttends | crates/server/src/agents.rs:329-366 | after advance on a running game each open observation carries the current generation and a deadline ahead, each external role with none was asked under five ticks ago, and fallback is set exactly on overdue work |
| AgentRuns.FallbackLasts | crates/server/src/agents.rs:345-354 | fallback set by a timeout lasts through any run until an accepted decision or a new assignment of the role |
| AgentGame.Game.Event | crates/server/src/agents.rs:98-104 | the history always holds the latest hundred of all notes ever made |
| AgentGame.Game.InvalidateWork | crates/server/src/agents.rs:105-112 | the loop withdraws the work and plan times of every connection and keeps everything else |
| AgentGame.Game.Configure | crates/server/src/agents.rs:138-218 | assignment computes the specified role, connection and note, or refuses without a change |
| AgentGame.Game.Advance | crates/server/src/agents.rs:330-366 | the loop over external roles computes the specified expiry and issue |
| AgentGame.Game.IsBusy | crates/server/src/agents.rs:382-393 | the searches through waiting deliveries and open requests find something exactly if the unit is busy |
| AgentGame.Game.AbortPending | crates/server/src/transport.rs:418-422 | the loop over the waiting deliveries leaves none and blocks exactly the requests that waited for their message |
| AgentGame.Game.Send | crates/server/src/main.rs:1762-1917 | route, transmission, waiting delivery and request in place compute the specified submission |
| AgentGame.Game.DecideRequest | crates/server/src/main.rs:1484-1516 | deciding a request in place, with its next step or its order, computes the specified state, and a request not the role's to decide is left alone |
| AgentGame.Game.Place | crates/server/src/intents.rs:84-179 | every identifier keeps its first order for good; a repeat in the same tick gets that order's answer and any other order a refusal, without a change; an order is handed over exactly if accepted under a free identifier, which stands for it afterwards |
| AgentGame.Game.CarryOut | crates/server/src/agents.rs:503-544 | one action's visibility check, effect and release of its unit compute the specified outcome |
| AgentGame.Game.Decide | crates/server/src/agents.rs:447-565 | the whole decision, guards in order and the loop over actions, computes the state and response that AgentCredentials.DecidesForItsRole and AgentOrders.DecideAllInScope are about |
| AgentGame.Game.AuthorityChanged | crates/server/src/agents.rs:689-703 | the loop over connections gives every connection and role its specified generation, control and remaining assignments |
| AiPlanningSafety.PlannerIsUnique | crates/server/src/agents.rs:90-96 | a unit has exactly one planner if some AI role commands it, and none otherwise |
| AiPlanningSafety.OneRolePlansEachUnit | crates/server/src/agents.rs:567-687 | in one pass all orders to a unit, by policy and patrol together, come from one role, and once agents' state exists that role is the unit's owner |
| AiPlanningSafety.SmallestScopePatrols | crates/server/src/ai_orders.rs:49-118 | without agents' state a patrol order goes to the smallest-scope AI role that sees the unit as an aircraft, and to no unit twice in a pass |
| AiPlanningSafety.ByScopeIsOrdered | crates/server/src/ai_orders.rs:64-66 | planning order is by scope, then identifier, each role once |
| AiPlanningOrders.OneOrderOnItsWay | crates/server/src/ai_orders.rs:44-120 | in one pass, policies and patrol together, a unit given two orders executed the first at once: none follows an order still on its way or asking for approval |
| AiPlanningPolicies.PoliciesOrderExactly | crates/server/src/agents.rs:567-670 | a pass of the policies tries exactly the orders in the plans of the roles that have a policy and whose plan is due, made for the units in their reach, less those repeating what was last tried within ten ticks |
| AiPlanningPolicies.PoliciesStayInReach | crates/server/src/agents.rs:622-635 | every order tried is to a unit whose smallest AI role the policy's is and which a controller in time has not kept to itself |
| AiPlanningPolicies.TriedOrdersAreGiven | crates/server/src/agents.rs:652-675 | a tried order is handed over exactly if its unit is the role's and free, the game runs and the order is sound and let through |
| AiPlanningPolicies.PoliciesMarkExactly | crates/server/src/agents.rs:617-685 | every role with a policy is marked as evaluated, as having planned on what it observed if its plan was due, and the history notes in planning order the roles that tried something |
| AiPlanningPatrol.PatrolsExactly | crates/server/src/ai_orders.rs:44-120 | a pass that leaves the game running gives exactly these patrol orders: to each aircraft what the role that patrols it chose, unless an order for the unit is pending or the role tried the same in the last ten ticks |
| AiPlanningPatrol.PatrolOrdersAreGiven | crates/server/src/ai_orders.rs:95-115 | a patrol order is handed over under a new identifier exactly if it is let through, and is remembered as the unit's last either way |
| AiPlanningTicks.SecondPassIsIdle | crates/server/src/agents.rs:567-621 | a second pass of the policies in the same tick does nothing, whatever the planner would answer |
| AiPlanningRuns.RepeatsWait | crates/server/src/ai_orders.rs:83-103 | in every run from an unused planner, passes interleaved with anything else, a repeat of the unit's last patrol order by the same role and kind, and of a policy's last order to a unit with the same kind, comes ten ticks later or more |
| AiPlanningRuns.ControllersKeepAttempts | crates/server/src/agents.rs:186-203 | of the controllers' own operations only a new assignment forgets a role's attempts |
| AiPlanningFrame.PassStaysInFrame | crates/server/src/ai_orders.rs:44-120 | a planning pass, also one a failed submission halts, touches no decision, observation, credential or generation, submits no external order, and numbers its orders under identifiers not used before |
| AiPlanningGame.Game.Try | crates/server/src/agents.rs:652-670 | one policy action, skipped if it repeats too soon, computes the specified step |
| AiPlanningGame.Game.ProcessPolicies | crates/server/src/agents.rs:567-687 | adoption and the loop over policy roles in scope order compute the specified pass |
| AiPlanningGame.Game.PatrolFor | crates/server/src/ai_orders.rs:71-118 | the loop over a role's units with the set of taken ones computes the specified orders, ending after an order if the game is stopped |
| AiPlanningGame.Game.ProcessAiOrders | crates/server/src/ai_orders.rs:44-120 | policies, then patrol in scope order, compute the specified pass |
| AirspaceSafety.ImportKeepsPlan | crates/server/src/airspace_import.rs:54-188 | the record loop keeps identifiers distinct and at most one airspace per record of an order, never drops an airspace a mission references, keeps the identity and control method of what it changes, and leaves everything no noted change names as it was and in order |
| AirspaceReimport.AcceptedSettlesRecords | crates/server/src/airspace_import.rs:54-202 | an accepted import leaves every record settled: excluded and already installed ones untouched, cancelled ones gone, all others present with the record's controller and volume |
| AirspaceReimport.ApplyIsAtomic | crates/server/src/airspace_import.rs:228-243 | an import is refused without a trace, accepted without a change, or replaces one draft by a validated plan one revision on, not published; drafts stay sound |
| AirspaceReimport.ReimportIsIdempotent | crates/server/src/airspace_import.rs:228-243 | importing an accepted order again never changes anything and is accepted again exactly if the order cancelled nothing |
| AirspaceResult.AcceptedExactly | crates/server/src/airspace_import.rs:36-243 | a parsed order is accepted if and only if the role takes part, its draft has the expected revision, neither order nor record has an issue, changes and cancellations have their target, no cancelled airspace is referenced, records to be written have controller and volume, and the resulting plan is sound; the draft is then that plan |
| AirspaceResult.CreateAddsOne | crates/server/src/airspace_import.rs:163-187 | a create record of an accepted order without a target adds exactly one airspace, new and with the record's fields |
| AirspaceResult.RefusedWithoutDraft | crates/server/src/airspace_import.rs:36-53 | only a participant with a draft can import |
| AirspaceGame.Game.Take | crates/server/src/airspace_import.rs:55-187 | one record's branch on the working copy computes the specified edit, note or objection, a creation without a target among the edits |
| AirspaceGame.Game.Prepare | crates/server/src/airspace_import.rs:36-202 | guards, the record loop and validation compute the specified preview and never touch the draft |
| AirspaceGame.Game.Apply | crates/server/src/airspace_import.rs:228-243 | the commit computes the drafts and response that AirspaceResult.AcceptedExactly determines |
| GameClock.NoCatchUpDebt | crates/server/src/game_clock.rs:22-26 | after a due frame, however late, the next deadline lies in (now, now + period]; only then |
| GameClock.FirstFramesTakePeriods | crates/server/src/game_clock.rs:15-26 | k frames after a fresh scheduler's first take at least k periods |
| GameClock.AnyFramesTakePeriods | crates/server/src/game_clock.rs:15-26 | from any state k + 1 frames take more than k - 1 periods |
| GameClock.DeadlinesStayOnGrid | crates/server/src/game_clock.rs:22-26 | deadlines stay on start + k periods while every frame is less than a period late, and leave it otherwise |
| GameClock.Scheduler.Delay | crates/server/src/game_clock.rs:18-21 | the least wait after which a frame is due |
| GameClock.Scheduler.AdvancedFrame | crates/server/src/game_clock.rs:22-26 | with every frame since the reset due, a frame comes at least a period after the first for each frame between, and the next is due after at most a period but not at once |
| Samples.P95IsNearestRank | crates/server/src/diagnostics.rs:15-24 | the reported percentile is the one sample that at least 95% are at or below and fewer than 95% are below |
| Samples.RankIndex | crates/server/src/diagnostics.rs:21 | the rank index is within bounds and is the least that reaches 95% |
| Samples.Window.Push | crates/server/src/diagnostics.rs:9-14 | the window always holds the latest 120 of all values ever recorded |
| Samples.Window.Summarize | crates/server/src/diagnostics.rs:15-24 | count, latest, nearest-rank percentile and maximum of the latest 120 values recorded, absent exactly if nothing was |
| Diagnostics.IntervalsTelescope | crates/server/src/diagnostics.rs:87-88 | retained intervals sum to the time since the commit before the oldest retained sample |
| Diagnostics.SamplesAddUp | crates/server/src/diagnostics.rs:89 | retained samples sum to the progress made since that commit |
| Diagnostics.Meter.RecordCommit | crates/server/src/diagnostics.rs:66-77 | the three windows stay of equal length and describe the latest commits; a commit without frames leaves no trace |
| Diagnostics.Meter.ResetRate | crates/server/src/diagnostics.rs:54-60 | forgets all commits and keeps the tick samples |
| Diagnostics.Meter.CommittedRate | crates/server/src/diagnostics.rs:82-90 | the rate is progress over elapsed time since the commit before the oldest retained one; reported exactly if there is a sample, the last commit is at most three seconds old and time has passed |
| PollingSafety.RunKeepsInv | web/src/usePollingResource.ts:23-88 | every interleaving of settlements, timeouts, timers, wakes, refreshes and renders keeps the pollers' invariants |
| PollingSafety.AlwaysOneNextStep | web/src/usePollingResource.ts:34-67 | an active poller that was not refused has exactly one of a read in flight and an armed timer, never two reads, at most one poller is active, and the armed wait is the interval or the capped doubling for its failures in a row |
| PollingSafety.ShownDataIsCurrent | web/src/usePollingResource.ts:86-88 | data shown was always loaded for the key being rendered |
| PollingSafety.RetriesBackOff | web/src/usePollingResource.ts:51 | retry waits never shrink, double until the cap, and stay within ten seconds |
| PollingSafety.CancelledIsSilent | web/src/usePollingResource.ts:71-78 | a cancelled poller stays cancelled in every run, and its late settlements change nothing that is shown |
| PollingSafety.OutageKeepsData | web/src/usePollingResource.ts:46-56 | the shown value changes only by a success, a refusal or a new key |
| PollingSafety.LastDataStays | web/src/usePollingResource.ts:46-56 | so it stays over any run without those |
| PollingRuns.PollerExactly | web/src/usePollingResource.ts:34-61 | in every run the active poller reads what the effect last ran for; it has given up exactly if a read was refused before its deadline, and otherwise waits by the failures since its last success |
| PollingRuns.ReadsShow | web/src/usePollingResource.ts:41-56 | in every run a settled read shows its value, or that the resource is unavailable if it was refused in time, or that it is reconnecting with the data shown so far; a cancelled poller's shows nothing |
| PollingRuns.RestartsExactly | web/src/usePollingResource.ts:19-22 | in every run a refresh stops all polling at once and makes the effect run, and otherwise it runs exactly if key or interval changed |
| PollingRuns.EffectStartsOver | web/src/usePollingResource.ts:24-33 | the effect stops the poller before and starts one for the rendered key and interval with one read in flight, and shows nothing of another key |
| PollingRuns.WakesExactly | web/src/usePollingResource.ts:63-67 | in every run waking starts a read at once exactly if the page is visible and the poller neither reads nor was refused |
| PollingEffects.Effects.StartRead | web/src/usePollingResource.ts:34-39 | a poller whose timer is off, neither cancelled nor refused, has exactly one read in flight afterwards, and never a second one |
| PollingEffects.Effects.Finish | web/src/usePollingResource.ts:41-61 | settlement in place computes the specified poller and snapshot and keeps the poller sound |
| PollingEffects.Effects.WakeUp | web/src/usePollingResource.ts:63-67 | waking leaves an active poller with exactly one read in flight and no timer, whether it was waiting or reading; while the page is hidden it changes nothing |
| PollingEffects.Effects.Cancel | web/src/usePollingResource.ts:71-78 | afterwards nothing the poller has in flight publishes, arms a timer or starts a read |
| NetworkLayout.ReconcileNetworkNodes | web/src/networkModel.ts:39-65 | the loops end with every node at its old place or at the first slot free at its turn, and with its own link counts |
| NetworkLayout.NextFree | web/src/networkModel.ts:55 | the search ends at the first slot not in use |
| NetworkLayout.CountLinks | web/src/networkModel.ts:43-51 | the counters hold each node's incoming, outgoing and queued totals over links with both ends known |
| NetworkLayout.CountsBalance | web/src/networkModel.ts:43-51 | total incoming and total outgoing are both the number of links with both ends known, and queues add up |
| NetworkLayout.CountedExactly | web/src/networkModel.ts:43-51 | a node's counts are its links from and to known nodes, and what is queued on those it sends |
| NetworkLayout.ReconciledIsConsistent | web/src/networkModel.ts:53-64 | slots and identifiers are distinct again |
| NetworkLayout.NewSlotsAreSmall | web/src/networkModel.ts:52-57 | a newly placed node's slot is below the number of nodes |
| NetworkLayout.NewSlotsAreFirst | web/src/networkModel.ts:52-57 | every smaller slot belongs to another node that stayed or came before |
| NetworkLayout.LayoutIsStable | web/src/networkModel.ts:38-65 | over any sequence of snapshots a node in all of them never moves, and slots stay below the largest node count |
| NetworkLayout.GridIsInjective | web/src/networkModel.ts:60 | different slots are different places |
| NetworkLayout.GridIsRegular | web/src/networkModel.ts:60 | from the origin on, six places in a row 230 apart, rows 126 apart |
| Throttle.AttemptsAreBounded | crates/server/src/auth.rs:489-510 | in every run with the clock going forward a name has at most ten accepted attempts in a counting window and twenty in any minute, and the table never exceeds 4096 names |
| Throttle.RefusedExactly | crates/server/src/auth.rs:493-507 | an attempt is refused exactly if 4096 windows are open or the name has ten attempts in its own |
| Throttle.CountedExactly | crates/server/src/auth.rs:489-510 | an attempt is counted exactly if it is let through, in the name's open window or in one it opens, and windows that are over are forgotten |
| Throttle.Sessions.Throttle | crates/server/src/auth.rs:489-510 | the in-place table computes the specified entries and answer |

## Left out

- HTTP handlers, JSON, cookies, websockets, SQL and file writes: only the state change is modelled; host rights, lease expiry times and credentials' hashing are checks outside the components. A failed write is a step, or an answer to one, that halts the game; what the store then holds is not modelled.
- Identifiers and tokens are natural numbers; new ones come from counters, and name-based order identifiers (section 5.5 of RFC 9562) are a pair of name space and index, that is, taken as injective and different from issued ones. Orders that players submit under identifiers of their own are not part of the runs, except for what they put on its way.
- The radio, the simulation, the patrol and defence planners, the airspace parser and `plan.validate` are arbitrary answers. For the planners it is assumed that orders go only to units given, and for AiPlanningOrders.OneOrderOnItsWay that policies decide no requests, as the defence planner does not; for the parser, that it reports repeated identifiers and unknown purposes.
- AckGame.Game.RecordResult: requires the issuer's role to exist; the source stops with a panic when an authority edit has dropped it by the time the result arrives (crates/server/src/execution_acks.rs:33).
- Authority requests: in the runs of external controllers everything that others do to requests is one arbitrary step; in OrderRequests it is spelled out, but for vacancy delays and which decision an automatic one takes, which are arbitrary, and satellite requests. Reasons of closed requests are not kept apart.
- AckSettlement.TimeoutCoversWorstCase: assumes a profile lifetime of at least one tick whose product with four, plus thirty, fits 64 bits; beyond that the timeout saturates past every tick the server can hold.
- ImpactSafety.PassLeavesNothingDue: assumes retry intervals of at least one tick, which scenario validation enforces (crates/sim-scenario/src/lib.rs:271-296); with a zero interval an undelivered report would be due again at once.
- ImpactSettlement.SettlesInTime: about runs in which no recorded delivery is taken back after the first attempt and the report stays to be carried at every pass; it assumes a retry interval of at least one tick.
- AuditSafety.GaplessAfterAnyFlushes: sequence numbers are unbounded; the source stops with a panic at the 64-bit limit.
- The durable audit store decides paging and retention in SQL; only the volatile path is modelled. Message transitions that feed the capture, coverage ticks and active-message lists are not.
- Details of agents' notes and observations beyond what a decision consults, and the parts of an authority edit that concern sides, teams and authority policies.
- AiPlanningRuns.RepeatsWait: a planner remembers one attempt per unit, so the bound is about repeats of that last one; an order alternating between kinds is not paced by the source.
- Airspace geometry: name, kind, outline, limits and periods are one opaque value; a volume that cannot be normalised fails the import. Identifiers of new airspaces are taken fresh.
- Diagnostics.Meter.CommittedRate: exact arithmetic in place of floating point; clocks are monotonic.
- The polling hook's renders and effect runs are atomic steps; unmounting is a render without a key. Network requests abort at once or never, which the hook does not depend on.
- NetworkLayout.ReconcileNetworkNodes: requires distinct node identifiers, which the frame decoder guarantees (web/src/networkModel.ts:166-167), and distinct previous slots, which reconciliation itself restores.
- Catalogue status, diagnostics views, session expiry, benchmark options, formatting, filters and weapon endpoints: easy members only.
