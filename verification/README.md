# Verification of Alta's execution, lease, paper, governance and ranking logic

This project models, in Dafny, the parts of Alta where a wrong step costs money or trust, and proves what
they are meant to guarantee.  `dafny verify dfyconfig.toml` checks everything.

## What is modelled

**The broker execution kernel** (`Contracts`, `Ledgers`, `Accounts`, `LedgerSafety`, `PlanSafety`,
`PlanTheorems`, `Revocation`, `HonestBroker`, `TrueExposure`, `Engines`, `Lifecycles`, `Routing`,
`HonestDesk`).  One account is a state machine over its durable writes: ledger rows, plan rows, audit receipts,
the authority file.  The call that may reach the broker is a step of its own, and so is a crash, which loses
only what a process had in memory; whatever the outside world answers is part of a step.  A run is a sequence
of steps, so a theorem about runs covers every broker behaviour and every crash.  `LedgerSafety` proves what holds whatever the broker answers,
`PlanSafety` and `PlanTheorems` what holds when orders go through the plan lifecycle, `HonestBroker` what
follows when nobody else trades the account and reports are truthful, and `TrueExposure` what follows from
both.  `Engines`, `Lifecycles` and `Routing` hold the classes: their methods change fields where Alta's
Python does and log each write as a step of the machine, so the run theorems apply to them; what the adapter
was given is logged beside them.  `HonestDesk` puts the desk of `Routing` beside one honest broker for each
account.

**Two concurrent protocols.**  `RoleRuns` is one run id with its database row, its artifact and any number of
workers.  `Leases` is one lease file with its lock, and processes that die and whose PIDs are used again.  In
both, the class methods run while others move arbitrarily between any two of their statements.

**The paper order session** (`PaperOrders`, `PaperRuns`, `PaperSessions`).  `PaperRuns` is one account as a
state machine: a call reads the history, admits, places, follows and concludes, may die between any two of
these, and leaves its order under way; the broker accepts or drops it later, fills it, and answers positions
and orders from any earlier moment.  `PaperSessions` holds the polling loops, the cancellation and the accounting of fills
and positions; its methods make the moves of that machine.

**Algorithms** (`Ordering`, `Governance`, `AlphaClocks`, `ExitPrices`, `RankSelection`): the one-pass drawdown
and the capital posture, the decaying clock with half-even rounding, the exit price against the sell band, and
the choice of the newest complete ranking.

## What turned out false

Each of these is proved false by a concrete case or by a whole family of them, and the exact condition under
which it holds is proved too.

- A staged plan does not come back after a revoke: it can, if the process dies between the two writes of the
  revoke (`Revocation.RevokedPlanComesBack`, `Revocation.RevokedPlanReturnsIffCrashed`).
- Authority off means a settled ledger: a row can be left working when `reconcile` turns close-only authority
  off (`HonestBroker.OffButUnsettled`, `HonestBroker.OffSettledIffNonePending`).  The real account is flat all
  the same (`HonestBroker.OffMeansTrulyFlat`).
- A validated model turn is stored: not if calls for one run id overlap (`RoleRuns.OverlapLosesAnswer`,
  `RoleRuns.AloneNeverLoses`, `RoleRuns.ValidTurnStoredIffRunning`).
- A recovered role output belongs to the caller's cycle: not if two cycles claim an unclaimed row at once
  (`RoleRuns.TwoCyclesRecoverOneRun`, `RoleRuns.RecoveredForOwnCycleIff`).
- The lease has one owner: not if an identity can be read in two ways (`Leases.FallbackMakesTwoOwners`,
  `Leases.TwoOwnersIffUnstable`).
- One client identity places at most one paper order: not if the history read misses an order that is accepted
  or still under way (`PaperRuns.DeathInFlightDoubles`, `PaperRuns.ForgottenIffNotListed`,
  `PaperRuns.RetryDoublesIffBlind`, `PaperRuns.SecondOrderIffBlind`).  Otherwise it does, over every run
  (`PaperRuns.OneOrderPerIdentity`).
- `execute` and `reconcile` agree, and a result of not filled means an unchanged account: not on a partial fill
  whose position is not visible yet (`PaperRuns.PartialFillDisagrees`, `PaperRuns.NotFilledTruth`,
  `PaperRuns.CurrentPositionIsTrue`).
- Preservation is the deepest cut: an account that is still collecting can get more capital by breaching its
  drawdown limit (`Governance.CollectingBelowPreservation`, `Governance.LossPaysIff`,
  `Governance.WorseNeverPaysIff`).  The default policy is not affected.
- The clock only reduces an edge: rounding can raise it, and a negative one always ends at zero
  (`AlphaClocks.RoundingCanRaise`, `AlphaClocks.NegativeIsRaised`, `AlphaClocks.NeverRaisedIff`).
- The investment leader can be acted on: not if its id is repeated and the last opportunity of that id cannot
  (`RankSelection.RepeatedIdNotActionable`, `RankSelection.LeaderActionableIff`).
- The selected ranking does not depend on the order of the rows: it does when two keys compare equal
  (`RankSelection.LatestAnyOrderIff`).
- A frozen exit is never refused on price: it is, for cheap shares (`ExitPrices.PennyStockExitRefused`,
  `ExitPrices.WholeCentsIff`, `ExitPrices.SafeFromIff`).

## Assumptions

- A file write and a database transaction are atomic and durable; `owner` and the lease guard are mutexes that
  a dead process no longer holds.
- Hashes are injective: a plan hash is the plan, a binding is provider, environment and account, a route
  revision is the route.  Exit ids, which are hashes, differ from entry ids, which planners choose.
- Decimals are exact.  The clock is arbitrary: each reading of the time may be any instant, in any order.
- A broker session, a quote feed and a model client may answer anything that passes the validators.
- In `HonestBroker`, `HonestDesk` and the paper modules nobody else trades the account and an ended order is
  final.
- A paper history shows accepted orders only, at most a hundred of them, each as it was at some earlier moment;
  `PaperRuns` lets it show any of them, and the class shows all of them while they fit one page.  Positions and
  single orders are those of some earlier moment too.
- In `Leases` two processes that ever had the same PID have different start stamps, and `MutualExclusion`
  assumes stable identities.

## Model

| member | source | states |
|---|---|---|
| `Contracts.HoldingsExact` | alta-runtime/broker-python/src/alta_brokers/engine.py:196-197 | The dictionary a snapshot is reduced to for the drift check has exactly the symbols with a non-zero holding, each with that holding. |
| `Ledgers.SameBook` | alta-runtime/broker-python/src/alta_brokers/engine.py:196-197 | The drift comparison of two dictionaries holds if and only if snapshot and ledger agree on every symbol. |
| `Ledgers.Ledger.Prepare` | alta-runtime/broker-python/src/alta_brokers/storage.py:150-169 | A known id is accepted only for the same request and account and writes nothing; an unknown id appends one prepared row and nothing else changes. |
| `Ledgers.Ledger.Record` | alta-runtime/broker-python/src/alta_brokers/storage.py:171-179 | Exactly the row of the id takes the new state, and keeps its old result when none is given. |
| `Ledgers.Ledger.IsFlatAndSettled` | alta-runtime/broker-python/src/alta_brokers/storage.py:132-148 | The accumulating loop answers true if and only if every row has ended with a result and the signed fills of every symbol add up to zero. |
| `Ledgers.Ledger.PositionBook` | alta-runtime/broker-python/src/alta_brokers/engine.py:153-161 | The accumulating loop returns every symbol whose recorded signed fills are not zero, with that sum. |
| `Accounts.Admitted` | alta-runtime/broker-python/src/alta_brokers/engine.py:181-254 | What a request that passed every gate may rely on: authority for its side, nothing pending, no open orders, snapshot equal to the book, notional within the limit, a sell covered by the holding. |
| `LedgerSafety.RowDiscipline` | alta-runtime/broker-python/src/alta_brokers/engine.py:186-192 | Over every run, crashes included: ids are unique, at most one row is prepared, working or unknown, an ended row carries a result with the same state, every result answers its request. |
| `LedgerSafety.RowsOnlyGrow` | alta-runtime/broker-python/src/alta_brokers/engine.py:309-334 | Between any two moments of a run no row is lost or changes its request, ended rows are frozen, a recorded broker id never changes and a recorded fill never falls. |
| `LedgerSafety.AtMostOncePost` | alta-runtime/broker-python/src/alta_brokers/engine.py:255-307 | Over every run, crashes included, there is at most one post per client id, and when it is made the ledger already holds that request for this account as a prepared row. The engine class ties each post to one call of the adapter (`Engines.BrokerEngine.Send`). |
| `LedgerSafety.NeverShort` | alta-runtime/broker-python/src/alta_brokers/engine.py:243-250 | In every reachable state the unfilled part of a pending sell is covered by the book, so the book is never negative, whatever partial fills arrive. |
| `PlanTheorems.NoActivePlanIsFlat` | alta-runtime/broker-python/src/alta_brokers/lifecycle.py:96-111 | Over every run whose orders go through plans: when no plan is active the ledger is flat and settled. |
| `PlanTheorems.AtMostOneActive` | alta-runtime/broker-python/src/alta_brokers/research_rpc.py:134-137 | At most one plan is active, and it is the newest; the refusal of several active plans cannot happen. |
| `PlanTheorems.OneBoundedPosition` | alta-runtime/broker-python/src/alta_brokers/lifecycle.py:161-247 | At any moment the book holds at most one symbol, that of the newest plan, between zero and its entry quantity and worth at the entry limit at most the order limit. |
| `PlanTheorems.PhasesOnlyForward` | alta-runtime/broker-python/src/alta_brokers/lifecycle.py:135-146 | Between any two moments plans are never lost or rewritten, phases never go back, a final plan and a written exit request stay as they are. |
| `PlanTheorems.PostsBelongToPlans` | alta-runtime/broker-python/src/alta_brokers/lifecycle.py:174-247 | Everything ever posted is the audited entry of one plan or its frozen exit for exactly the final fill of its entry, and no intent is posted twice. |
| `PlanTheorems.ClosedNetsToZeroForEver` | alta-runtime/broker-python/src/alta_brokers/lifecycle.py:233-244 | A closed plan keeps its two orders, both ended, and they net to zero in every symbol at every later moment. |
| `PlanTheorems.AuditedBeforeStaging` | alta-runtime/broker-python/src/alta_brokers/research_rpc.py:27-69 | A receipt binding the exact plan was stored before it was staged; receipt and payload are the same at every later moment. |
| `PlanTheorems.EveryBuyHasItsPlan` | alta-runtime/broker-python/src/alta_brokers/lifecycle.py:174-178 | Every buy ever posted is the entry of a stored plan with a receipt. |
| `Revocation.NoBuyUntilAuthorized` | alta-runtime/broker-python/src/alta_brokers/engine.py:71-85 | Between the first write of a revoke and the next successful authorize every dispatch is a sell. |
| `Revocation.RevokedPlanNeverPosted` | alta-runtime/broker-python/src/alta_brokers/engine.py:85-95 | After the second write of a revoke a plan that was staged and not sent is never posted, even after a new authorization. |
| `Revocation.RevokedPlanReturnsIffCrashed` | alta-runtime/broker-python/src/alta_brokers/engine.py:71-95 | Between the two writes the promise that a staged plan does not come back is false: some continuation posts its entry if and only if the next step is a crash. |
| `Revocation.RevokedPlanComesBack` | alta-runtime/broker-python/src/alta_brokers/engine.py:71-95 | The concrete run: authorized, audited, staged, half revoked, dead, and the entry can still be posted. |
| `HonestBroker.LedgerRefinesBroker` | alta-runtime/broker-python/src/alta_brokers/engine.py:309-334 | Beside an honest broker a recorded fill is at most the true fill and equal on an ended row, and every accepted order has its row. |
| `HonestBroker.SettledCannotDrift` | alta-runtime/broker-python/src/alta_brokers/engine.py:193-197 | Once no row is pending the book equals the true positions, so neither the drift check nor the open-orders check can refuse on a truthful snapshot. |
| `HonestBroker.TruePositionNeverShort` | alta-runtime/broker-python/src/alta_brokers/engine.py:243-250 | The real position of every symbol is never negative. |
| `HonestBroker.OffMeansTrulyFlat` | alta-runtime/broker-python/src/alta_brokers/engine.py:343-363 | Whenever the stored authority is off or absent the real account is flat: no position, no live order, and no posted order that could still come alive. |
| `HonestBroker.OffSettledIffNonePending` | alta-runtime/broker-python/src/alta_brokers/engine.py:343-363 | Off does not imply a settled ledger; over every history it does if and only if no row is pending. |
| `HonestBroker.OffButUnsettled` | alta-runtime/broker-python/src/alta_brokers/engine.py:343-363 | The concrete history: the last lookup still sees an order working, it is cancelled unfilled before the snapshot, and authority goes off with the row left working. |
| `HonestBroker.CloseSettledIffNonePending` | alta-runtime/broker-python/src/alta_brokers/engine.py:352-363 | The step that turns close-only authority off leaves a flat and settled ledger if and only if no row is pending. |
| `TrueExposure.RealExposureBounded` | alta-runtime/broker-python/src/alta_brokers/lifecycle.py:161-247 | Lifecycle and honest broker together: the real account never holds anything but the newest audited plan, at most its entry quantity, worth at the entry limit at most the order limit. |
| `Engines.BrokerEngine.ReconcileRow` | alta-runtime/broker-python/src/alta_brokers/engine.py:309-334 | An ended row answers from the ledger; otherwise a matching, non-regressing order is recorded, or the row becomes unknown; every other row is untouched. |
| `Engines.BrokerEngine.ReconcileOrder` | alta-runtime/broker-python/src/alta_brokers/engine.py:336-341 | The same for one owned id, and a refusal with nothing changed for an id the ledger does not know. |
| `Engines.BrokerEngine.Acknowledge` | alta-runtime/broker-python/src/alta_brokers/engine.py:269-290 | A broker-issued id becomes durable on the row of the posted intent, as unknown and unfilled, before anything else can fail. |
| `Engines.BrokerEngine.Send` | alta-runtime/broker-python/src/alta_brokers/engine.py:269-292 | One call of the adapter is one post: the log of what the adapter was given grows by exactly the dispatch that the account is in the middle of, with its deadline. |
| `Engines.BrokerEngine.SentOnce` | alta-runtime/broker-python/src/alta_brokers/engine.py:255-307 | Of a valid engine: the adapter was never given two orders of one client id, and the ledger holds exactly what it was given under that id. |
| `Engines.BrokerEngine.WriteAndPost` | alta-runtime/broker-python/src/alta_brokers/engine.py:255-292 | The row is durable before the adapter is called, and the adapter is called once, with a deadline that is the shorter of the expiry and the quote deadline; rows and posts are extended by exactly that. |
| `Engines.BrokerEngine.Settle` | alta-runtime/broker-python/src/alta_brokers/engine.py:292-307 | The reply is recorded when it proves the posted order and does not regress; otherwise the row is unknown and the call reports an unconfirmed submission. |
| `Engines.BrokerEngine.RecordLookup` | alta-runtime/broker-python/src/alta_brokers/engine.py:318-334 | A lookup is recorded and returned if and only if it matches the request, keeps the broker id and does not lower the fill; otherwise the row becomes unknown. |
| `Engines.BrokerEngine.Answer` | alta-runtime/broker-python/src/alta_brokers/engine.py:269-307 | The outcome is proven if and only if the reply matches the intent and does not contradict the acknowledged id; without proof the row is unknown and still holds the acknowledged id. |
| `Engines.BrokerEngine.SubmitOn` | alta-runtime/broker-python/src/alta_brokers/engine.py:181-307 | On what was read, the first refusing gate is reported with nothing written, and without one the intent is written ahead, posted once and answered. |
| `Engines.BrokerEngine.Submit` | alta-runtime/broker-python/src/alta_brokers/engine.py:173-307 | A known id reconciles or conflicts and never posts; a new id is refused with nothing written and a gate to blame, or written ahead, posted once and answered by its row. |
| `Engines.BrokerEngine.Cancel` | alta-runtime/broker-python/src/alta_brokers/engine.py:366-378 | The row of the id ends with what was proven, or unknown with an unconfirmed error; other rows and the posts are untouched. One cancellation is sent unless the order is proven ended or nothing is proven of it. |
| `Engines.BrokerEngine.Authorize` | alta-runtime/broker-python/src/alta_brokers/engine.py:47-69 | Success needs the confirmation and a flat, settled ledger and changes the authority alone; failure changes nothing. |
| `Engines.BrokerEngine.AuthorizeOn` | alta-runtime/broker-python/src/alta_brokers/engine.py:51-68 | Entries are allowed if and only if the snapshot is fresh, verified, permitted and empty and the ledger is flat and settled; then the authority alone changes. |
| `Engines.BrokerEngine.Revoke` | alta-runtime/broker-python/src/alta_brokers/engine.py:71-95 | Authority becomes off on a flat ledger and close-only otherwise, first; then exactly the staged plans without a sent entry expire. |
| `Engines.BrokerEngine.ReconcileAll` | alta-runtime/broker-python/src/alta_brokers/engine.py:343-363 | Rows only grow; success means a fresh verified snapshot without open orders agreed with the book; authority changes only from close-only to off, on a flat book. |
| `Engines.BrokerEngine.ProveAccount` | alta-runtime/broker-python/src/alta_brokers/engine.py:347-363 | With every row proven, the account is proven if and only if a fresh verified snapshot agrees with the book and lists no open order; close-only authority then ends if and only if nothing is held, and nothing else changes. |
| `Lifecycles.ExecutionLifecycle.PutAudit` | alta-runtime/broker-python/src/alta_brokers/research_rpc.py:27-63 | A receipt is written once, only for the exact plan it names; another receipt under the same plan is a conflict and changes nothing. |
| `Lifecycles.ExecutionLifecycle.Stage` | alta-runtime/broker-python/src/alta_brokers/lifecycle.py:77-111 | Staging the same plan again answers its state, a changed one is refused, and a new one is appended if and only if no gate refuses it. |
| `Lifecycles.ExecutionLifecycle.Save` | alta-runtime/broker-python/src/alta_brokers/lifecycle.py:135-146 | One plan row takes the new state, and keeps its exit request when none is given. |
| `Lifecycles.ExecutionLifecycle.FreezeAndExit` | alta-runtime/broker-python/src/alta_brokers/lifecycle.py:202-221 | The first new write stores the exit with the terms of the quote that made it due, and the only order that may be sent after it is exactly that exit; invalid terms change nothing. |
| `Lifecycles.ExecutionLifecycle.CloseOut` | alta-runtime/broker-python/src/alta_brokers/lifecycle.py:233-244 | A plan is closed only after a snapshot has agreed with the book, and with a flat, settled ledger. |
| `Lifecycles.ExecutionLifecycle.Exit` | alta-runtime/broker-python/src/alta_brokers/lifecycle.py:223-247 | A frozen exit is worked to closed, manual review or working; nothing but that exact request is ever posted for it. |
| `Lifecycles.ExecutionLifecycle.Decide` | alta-runtime/broker-python/src/alta_brokers/lifecycle.py:186-221 | An entry that ended unfilled, and only that, makes the plan unfilled; otherwise it is monitored or its exit is worked. |
| `Lifecycles.ExecutionLifecycle.WatchOrExit` | alta-runtime/broker-python/src/alta_brokers/lifecycle.py:196-221 | A filled entry is monitored or its exit is worked; the only order that may be sent is the exit of the plan. |
| `Lifecycles.ExecutionLifecycle.Tick` | alta-runtime/broker-python/src/alta_brokers/lifecycle.py:161-221 | The answer is the state the plan is stored with afterwards, saved by the last new step, whose guard held; final, foreign and missing plans change nothing; an unsent entry expires once entries are not allowed. |
| `Routing.SelectKeepsRoute` | alta-runtime/broker-python/src/alta_brokers/routing.py:72-103 | When every configured lane is clear, every account there is, configured or not, is off, flat and settled. |
| `Routing.SavedKeepsHistory` | alta-runtime/broker-python/src/alta_brokers/storage.py:251-267 | The writes of a save leave the route, every other account, and the ledger and plans of the saved account alone. |
| `Routing.OnlyTheRoutedAccountTrades` | alta-runtime/broker-python/src/alta_brokers/routing.py:63-104 | Over every interleaving of saves, selections and account steps on all providers, crashes between any two writes included: an account the route does not name has authority off or none and a flat, settled ledger. |
| `HonestDesk.UnroutedIsTrulyFlat` | alta-runtime/broker-python/src/alta_brokers/routing.py:63-104 | Over every interleaving of saves, selections, account steps, fills and crashes on all accounts, each beside its own honest broker: an account the route does not name really holds nothing, has no live order and none on the way. |
| `Routing.TradingDesk.Save` | alta-runtime/broker-python/src/alta_brokers/storage.py:207-267 | The first refusal that applies is reported and nothing changes, or the rotated account is disarmed and the profile replaced, and the desk invariant holds. |
| `Routing.TradingDesk.Select` | alta-runtime/broker-python/src/alta_brokers/routing.py:63-104 | Succeeds if and only if the route is current, the profile revision matches and every configured lane is clear; then every account is dormant and the route names the saved profile. |
| `Routing.TradingDesk.Authorize` | alta-runtime/broker-python/src/alta_brokers/__main__.py:98-128 | Only the account the route names, at its saved revision, with a flat ledger, can be given authority; nothing else changes. |
| `Routing.TradingDesk.Revoke` | alta-runtime/broker-python/src/alta_brokers/__main__.py:106-130 | Any configured lane can be disarmed at its revision; exactly its authority and staged plans change. |
| `Routing.TradingDesk.Reconcile` | alta-runtime/broker-python/src/alta_brokers/__main__.py:106-133 | Only the lane changes, its rows only grow and its authority can only end; success means a snapshot agreed with its book. A dormant lane stays as it is. |
| `Routing.TradingDesk.OpenSelected` | alta-runtime/broker-python/src/alta_brokers/research_rpc.py:108-116 | The pipe opens a lane if and only if provider, revision and route are the selected ones. |
| `Routing.TradingDesk.Stage` | alta-runtime/broker-python/src/alta_brokers/research_rpc.py:125-129 | Only the selected account can change, and after success it stores exactly this plan, in the answered state, with its receipt. |
| `Routing.TradingDesk.Tick` | alta-runtime/broker-python/src/alta_brokers/research_rpc.py:130-133 | Only the selected account can change, its plans only move forward, and the answer is the state the plan is stored with. |
| `RoleRuns.AtMostTwoTurns` | alta-runtime/python/src/alta_asterism/agentic_roles.py:222-270 | However many workers run and die, at most two model turns are begun for one run id, each under its own attempt number. |
| `RoleRuns.EveryReturnIsTheArtifact` | alta-runtime/python/src/alta_asterism/agentic_roles.py:180-208 | Every successful return, fresh or recovered, is the stored artifact of a succeeded row, and at most one of them is fresh. |
| `RoleRuns.SucceededIsAbsorbing` | alta-runtime/python/src/alta_asterism/agentic_roles.py:297-342 | A succeeded row keeps its status, artifact, input, route and attempts for ever; only a missing cycle may be filled in. |
| `RoleRuns.ValidTurnStoredIffRunning` | alta-runtime/python/src/alta_asterism/agentic_roles.py:297-326 | A validated answer is stored and returned if and only if the row is still running when it settles. |
| `RoleRuns.AloneNeverLoses` | alta-runtime/python/src/alta_asterism/agentic_roles.py:138-162 | When calls for one run id never overlap, every validated answer is stored and returned, whatever crashed before. |
| `RoleRuns.OverlapLosesAnswer` | alta-runtime/python/src/alta_asterism/agentic_roles.py:328-342 | Overlapping calls can lose a validated answer for good: a slow failure marks the row another worker restarted, and the attempts are used up. |
| `RoleRuns.SpentForEver` | alta-runtime/python/src/alta_asterism/agentic_roles.py:262-263 | A failed row with no attempts left never gets an artifact. |
| `RoleRuns.RecoveredForOwnCycleIff` | alta-runtime/python/src/alta_asterism/agentic_roles.py:193-207 | A recovered output belongs to the cycle of its caller if and only if no other cycle claimed the row between the read and the claim. |
| `RoleRuns.TwoCyclesRecoverOneRun` | alta-runtime/python/src/alta_asterism/agentic_roles.py:193-207 | The concrete schedule in which two cycles are both given the output of one row. |
| `RoleRuns.StructuredRoleRunner.Existing` | alta-runtime/python/src/alta_asterism/agentic_roles.py:180-208 | Goes on, refuses, or returns the artifact of a succeeded row. |
| `RoleRuns.StructuredRoleRunner.Start` | alta-runtime/python/src/alta_asterism/agentic_roles.py:210-270 | Inserts the row, restarts it with the next attempt number, or raises the first refusal and leaves the row alone. |
| `RoleRuns.StructuredRoleRunner.Complete` | alta-runtime/python/src/alta_asterism/agentic_roles.py:283-326 | Row and artifact change together if and only if the row is running; otherwise neither does. |
| `RoleRuns.StructuredRoleRunner.Fail` | alta-runtime/python/src/alta_asterism/agentic_roles.py:328-342 | Only a running row becomes failed, and the artifact is untouched. |
| `RoleRuns.StructuredRoleRunner.Run` | alta-runtime/python/src/alta_asterism/agentic_roles.py:106-178 | With any interference the loop ends after at most two turns of its own; a returned value is now the stored artifact, and it is recovered exactly when no turn was used. |
| `Leases.MutualExclusion` | alta-runtime/capital-python/src/alta_capitald/boundary.py:275-315 | For every schedule of acquires, releases, deaths and PID reuse with stable identities, at most one object in a live process owns the lease and the file is exactly its payload. |
| `Leases.AcquiresIffAbandoned` | alta-runtime/capital-python/src/alta_capitald/boundary.py:215-295 | With the lock free, an undisturbed acquisition succeeds if and only if there is no file, or its owner is dead, or its PID now has another verifiable identity; otherwise nothing changes. |
| `Leases.TwoOwnersIffUnstable` | alta-runtime/capital-python/src/alta_capitald/boundary.py:179-240 | While the owner lives, a contender takes the lease, so that there are two owners, if and only if the identity of the owner is read but not as recorded. |
| `Leases.FallbackMakesTwoOwners` | alta-runtime/capital-python/src/alta_capitald/boundary.py:195-213 | Mutual exclusion without stable identities is false: a reader that falls back to ps takes over a live lease. |
| `Leases.SingleOwnerLease.RemoveDeadOwner` | alta-runtime/capital-python/src/alta_capitald/boundary.py:215-240 | Inside the lock the way is clear only when no file is left; otherwise the lock is dropped. |
| `Leases.SingleOwnerLease.VerifyIdentity` | alta-runtime/capital-python/src/alta_capitald/boundary.py:226-240 | A lease is judged abandoned only when no live process owns it. |
| `Leases.SingleOwnerLease.PublishLease` | alta-runtime/capital-python/src/alta_capitald/boundary.py:242-273 | The file becomes exactly the new payload; the link never finds another file in its way. |
| `Leases.SingleOwnerLease.Acquire` | alta-runtime/capital-python/src/alta_capitald/boundary.py:275-295 | With any interference: an object that has acquired is the only live owner and the file is its payload; otherwise it holds nothing. |
| `Leases.SingleOwnerLease.AssertOwned` | alta-runtime/capital-python/src/alta_capitald/boundary.py:297-305 | Passes if and only if the object has acquired: nobody else can touch the lease of a live owner. |
| `Leases.SingleOwnerLease.Release` | alta-runtime/capital-python/src/alta_capitald/boundary.py:307-315 | Ends without the lease, or is still waiting for the lock as its owner; both ownership checks always pass. |
| `PaperRuns.OneOrderPerIdentity` | alta-runtime/capital-python/src/alta_capitald/paper_trade.py:404-411 | Over every run - calls for any identities, deaths at any point, orders accepted long after the process that placed them died - no two orders, accepted or under way, carry one identity, as long as no history read misses one that is accepted or under way. |
| `PaperRuns.SecondOrderIffBlind` | alta-runtime/capital-python/src/alta_capitald/paper_trade.py:404-458 | After such a run and a history read that shows nothing, the call can go on to a second accepted order of the identity if and only if the read missed one that is accepted or under way, given that the account once held what the request expects. |
| `PaperRuns.RetryDoublesIffBlind` | alta-runtime/capital-python/src/alta_capitald/paper_trade.py:404-458 | For the retry of the same request the same holds with no condition on the account. |
| `PaperRuns.ForgottenIffNotListed` | alta-runtime/capital-python/src/alta_capitald/paper_trade.py:587-594 | When the read answers with the newest hundred orders of some moment, the retry of an accepted order can be placed and accepted again if and only if the order is older than those or newer than that moment. |
| `PaperRuns.DeathInFlightDoubles` | alta-runtime/capital-python/src/alta_capitald/paper_trade.py:453-458 | The concrete run: the process dies with its order under way, the next one reads a history without it, and both orders are accepted. |
| `PaperRuns.NotFilledTruth` | alta-runtime/capital-python/src/alta_capitald/paper_trade.py:515-530 | With nothing else moving the symbol since the admission, execute answers not filled if and only if the position it reads is older than the first fill or, when it is even older than the admission, shows the same shares as then; the account is really unchanged, and reconcile on current positions says the same, if and only if there was no fill. |
| `PaperRuns.CurrentPositionIsTrue` | alta-runtime/capital-python/src/alta_capitald/paper_trade.py:515-530 | When positions are never behind and nothing else moves the symbol, execute answers not filled if and only if there was no fill. |
| `PaperRuns.PartialFillDisagrees` | alta-runtime/capital-python/src/alta_capitald/paper_trade.py:515-669 | The concrete run of execute and then reconcile: three of five shares are bought, execute answers not filled and reconcile unresolved. |
| `PaperOrders.LaterReconcileAgrees` | alta-runtime/capital-python/src/alta_capitald/paper_trade.py:582-669 | Whatever else the account does, a later reconcile repeats what execute returned if and only if the position still shows it. |
| `PaperOrders.OnlyTheNewOrderMoves` | alta-runtime/capital-python/src/alta_capitald/paper_trade.py:529-531 | While no other order of the symbol is live, the position moves by exactly the signed fill of the new order. |
| `PaperSessions.TigerPaperSession.Position` | alta-runtime/capital-python/src/alta_capitald/paper_trade.py:376-390 | The loop over position rows returns what the account held of the symbol at some moment so far, the present one when positions are current. |
| `PaperSessions.TigerPaperSession.Reconcile` | alta-runtime/capital-python/src/alta_capitald/paper_trade.py:582-669 | Never places or cancels; nothing means the identity is unused in a history that fits one page; a decided result names a finished order of the request and a position the account has shown. |
| `PaperSessions.TigerPaperSession.WaitForPosition` | alta-runtime/capital-python/src/alta_capitald/paper_trade.py:671-677 | Returns a position the account has shown, which may be behind; if not the expected one, only after the deadline. |
| `PaperSessions.TigerPaperSession.Poll` | alta-runtime/capital-python/src/alta_capitald/paper_trade.py:461-479 | Ends early only when some moment so far shows the order complete or ended, with the fill of that moment, and otherwise not before the deadline. |
| `PaperSessions.TigerPaperSession.Follow` | alta-runtime/capital-python/src/alta_capitald/paper_trade.py:457-514 | Without a cancellation the only outcome is the final fill of an order that is complete or has ended; otherwise exactly one cancellation of that order was sent. |
| `PaperSessions.TigerPaperSession.CancelAndPoll` | alta-runtime/capital-python/src/alta_capitald/paper_trade.py:481-514 | A late order is cancelled once and followed again; success gives the final fill of an order that is complete or has ended. |
| `PaperSessions.TigerPaperSession.Conclude` | alta-runtime/capital-python/src/alta_capitald/paper_trade.py:515-541 | The answer is what the fill and the position that was read imply; it names the order that was followed. |
| `PaperSessions.TigerPaperSession.Admit` | alta-runtime/capital-python/src/alta_capitald/paper_trade.py:412-452 | Goes on only when every check passes; with current positions and a quiet symbol the account then really holds what the request expects. |
| `PaperSessions.TigerPaperSession.PlaceAndFollow` | alta-runtime/capital-python/src/alta_capitald/paper_trade.py:453-541 | At most one order is placed, with the terms of the request, and identities stay apart if this one was fresh; a result names a finished order, and with nothing else live on the symbol the account moved by exactly its fill. |
| `PaperSessions.TigerPaperSession.Execute` | alta-runtime/capital-python/src/alta_capitald/paper_trade.py:392-541 | At most one order, only when authorized; while the history fits one page and nothing of the identity is under way, only for an unused identity, so identities stay unique. With nothing else live on the symbol a result accounts for the whole movement of the position, and with current positions not filled means unchanged. |
| `PaperSessions.TigerPaperSession.FlattenWithIdentity` | alta-runtime/capital-python/src/alta_capitald/paper_trade.py:556-580 | Places at most one order, a sell of this identity and symbol; success is an order that did not fill or a position read as zero, which is really zero when positions are current. |
| `Governance.MaximumDrawdown` | alta-runtime/python/src/alta_asterism/alpha_governance.py:96-104 | The one-pass loop returns the deepest fall between any two moments of the cumulative result: an upper bound over all pairs that some pair attains. |
| `Governance.WindowHoldsNewest` | alta-runtime/python/src/alta_asterism/alpha_governance.py:125-128 | The window is in order, has the right length, loses nothing with what is left out, and everything left out is earlier than everything kept. |
| `Governance.ReasonCodes` | alta-runtime/python/src/alta_asterism/alpha_governance.py:184-210 | Each adverse reason is listed if and only if its condition holds, in the order they are looked for. |
| `Governance.Evaluate` | alta-runtime/python/src/alta_asterism/alpha_governance.py:235-292 | The imperative evaluation - validation, window, loops and posture - returns exactly the outcome that the lemmas here are about. |
| `Governance.AnyArrivalOrder` | alta-runtime/python/src/alta_asterism/alpha_governance.py:235-292 | The whole result, refusals included, does not depend on the order of the observations, whatever the evidence summary is. |
| `Governance.NormalIff` | alta-runtime/python/src/alta_asterism/alpha_governance.py:184-232 | The normal posture is reached if and only if there are enough samples, every fall in the window is under the limit, the mean is not negative, the upper bound is not known to be non-positive and the selection-adjusted bound is proven positive. |
| `Governance.NeverLevers` | alta-runtime/python/src/alta_asterism/alpha_governance.py:213-244 | The multiplier is positive and never above one, and, unless the policy gives everything to an unproven window, it is one if and only if the window is proven by those five conditions. |
| `Governance.WorseNeverPaysIff` | alta-runtime/python/src/alta_asterism/alpha_governance.py:50-58 | Over all pairs of accounts of one size, evaluated whole: the one with more found against it never gets more capital if and only if they are empty, or the sample is complete, or preservation and, from the probation sample on, probation are at most the collecting multiplier, which the validator does not check. |
| `Governance.LossPaysIff` | alta-runtime/python/src/alta_asterism/alpha_governance.py:184-232 | For every account and every position whose closing makes it breach its drawdown limit: its capital goes up if and only if its sample was still small, the policy collects with less than it preserves with, and the mean had not already put it on probation. |
| `Governance.BigLossPaysIff` | alta-runtime/python/src/alta_asterism/alpha_governance.py:96-104 | The same for one loss of the whole limit, which is a breach wherever it stands in the window. |
| `Governance.CollectingBelowPreservation` | alta-runtime/python/src/alta_asterism/alpha_governance.py:235-292 | The concrete account, evaluated whole before and after: a gain, then a loss of 150 basis points against a limit of 100, and its multiplier goes from 0.05 to 0.1. |
| `AlphaClocks.HalfEvenIsNearest` | alta-runtime/python/src/alta_asterism/alpha_lifecycle.py:88-90 | Rounding gives the nearest integer, and the even one on a tie. |
| `AlphaClocks.BuildIsValid` | alta-runtime/python/src/alta_asterism/alpha_lifecycle.py:49-103 | A clock is built if and only if the inputs are admissible, and every built clock passes its own validator. |
| `AlphaClocks.ExpiredIffHorizonPassed` | alta-runtime/python/src/alta_asterism/alpha_lifecycle.py:72-90 | The stage is expired if and only if the whole horizon has passed, and then nothing of the edge is left. |
| `AlphaClocks.DecaysOverTime` | alta-runtime/python/src/alta_asterism/alpha_lifecycle.py:72-90 | As time passes retention never rises, a non-negative edge never grows, a negative one never deepens, the stage only moves forward. |
| `AlphaClocks.NeverRaisedIff` | alta-runtime/python/src/alta_asterism/alpha_lifecycle.py:58 | The adjusted edge stays at or below the raw one at all times if and only if the raw edge is not negative and rounding it does not raise it. |
| `AlphaClocks.NegativeIsRaised` | alta-runtime/python/src/alta_asterism/alpha_lifecycle.py:72-90 | Every negative edge is raised: once the horizon has passed the clock reports zero. |
| `AlphaClocks.RoundingCanRaise` | alta-runtime/python/src/alta_asterism/alpha_lifecycle.py:88-90 | The concrete edge that rounding raises. |
| `AlphaClocks.DistinctFacts` | alta-runtime/python/src/alta_asterism/alpha_lifecycle.py:102 | The different facts given, each once, in the order in which they are first given. |
| `AlphaClocks.KeptFacts` | alta-runtime/python/src/alta_asterism/alpha_lifecycle.py:102 | A clock keeps the first four of those, or all of them when there are fewer. |
| `ExitPrices.FromFourDollarsInBand` | alta-runtime/broker-python/src/alta_brokers/lifecycle.py:210-212 | For every bid of at least 4.00 the frozen exit price is inside the sell band for the same quote. |
| `ExitPrices.SafeFromIff` | alta-runtime/broker-python/src/alta_brokers/lifecycle.py:210-212 | The exact threshold for arbitrary bids: every bid from a bound up is safe if and only if the bound is at least 398 / 99.75. |
| `ExitPrices.WholeCentsIff` | alta-runtime/broker-python/src/alta_brokers/lifecycle.py:210-212 | For bids in whole cents the price is inside the band if and only if the bid is at least 2.00. |
| `ExitPrices.FrozenExitRefusedIff` | alta-runtime/broker-python/src/alta_brokers/engine.py:243-254 | For the quote it was frozen on, and with the shares there, the sell gate refuses the exit if and only if rounding 99.75 bids down to whole cents goes below 99.5 bids. |
| `ExitPrices.PennyStockExitRefused` | alta-runtime/broker-python/src/alta_brokers/engine.py:251-254 | A share bid in whole cents under 2.00 cannot be sold on that quote, and only such a share. |
| `RankSelection.CompleteIffBijection` | alta-dashboard/src/lib/opportunity-selection.ts:36-49 | A run is accepted if and only if it is one finished run of its stated length whose opportunities and positions 1 to n correspond one to one. |
| `RankSelection.GroupRuns` | alta-dashboard/src/lib/opportunity-selection.ts:52-61 | The loop groups the ranks by book and run, in order, each run once and complete. |
| `RankSelection.LatestExact` | alta-dashboard/src/lib/opportunity-selection.ts:72-83 | Filtering, sorting and taking the first entry gives the newest complete run whose opportunities are all in the snapshot, the first to appear among those that compare equal, or nothing when there is none. |
| `RankSelection.LatestRankBookMap` | alta-dashboard/src/lib/opportunity-selection.ts:84-101 | The loop keeps exactly the actionable rows of that run. |
| `RankSelection.LeaderUnique` | alta-dashboard/src/lib/opportunity-selection.ts:104-118 | At most one opportunity is the leader. |
| `RankSelection.LatestRankLeader` | alta-dashboard/src/lib/opportunity-selection.ts:104-118 | Returns the last opportunity of the leading id, the lowest-placed actionable one of the newest run, or nothing when there is none; what it returns is actionable when the last of each repeated id is. |
| `RankSelection.LeaderActionableIff` | alta-dashboard/src/lib/opportunity-selection.ts:104-118 | Whatever the ranks are, the opportunity returned for the leader is actionable if and only if, for each id with an actionable opportunity, the last of that id is actionable. |
| `RankSelection.UniqueIdsActionable` | alta-dashboard/src/lib/opportunity-selection.ts:105-107 | Opportunities with unique ids meet that condition. |
| `RankSelection.RepeatedIdNotActionable` | alta-dashboard/src/lib/opportunity-selection.ts:105-107 | The concrete case: one id twice, actionable first and not afterwards, leads and is returned as not actionable. |
| `RankSelection.LatestAnyOrderIff` | alta-dashboard/src/lib/opportunity-selection.ts:72-83 | For any total preorder that compares keys: the chosen run does not depend on the order of the ranks array if and only if no two equally recent newest runs have keys that compare equal. |
| `RankSelection.LeaderAnyOrder` | alta-dashboard/src/lib/opportunity-selection.ts:52-118 | Without such a tie, shuffling the ranks array does not change the leader. |

## Left out

- Broker adapters, HTTP transport and the SDK clients: any answer that passes the validators stands for them.
- File permissions, symbolic links, umask and fsync, and the temporary file of the lease.
- Credential syntax, secrets and hashing; `catalog`, `state` and `verify` views and the redacted verification
  record.  The proof that `Profiles.save` reads from that record is its parameter `freshFlatProof`.
- The `events` table, error texts, reasons and timestamps of rows and plans: nothing reads them back.
- `dispatch_guard` inside the adapters: the shortened deadline that is handed to them is recorded with each
  dispatch.
- A second acknowledgment within one submission: the model allows one, since every adapter sends one.
- `Routing.TradingDesk.Stage`: validation of the JSON payload happens before the lane is opened, so a malformed
  plan is refused earlier than Alta refuses it, with the same durable effect of none.
- Prompt and frozen-input size limits of the role runner, which raise before the database is touched.
- `Leases.SingleOwnerLease.Release`: dropping the lock and forgetting the token are one step, where Alta's code
  takes two (`boundary.py:311-315`); in between two live objects may carry a token, one of them without a file.
- Nested blocking on the lease lock: a call that never gets the lock ends as `Blocked` with its place kept.
- Order history beyond account, terms, fill and status; the authorization file and the quote timestamp of the
  paper session are boolean inputs; `start`, `stop`, `preflight` and `snapshot` of the session.
- The limit price of a paper order as a binary float: it is compared exactly.
- The summary of alpha evidence, which is not part of this model: any function of its inputs stands for it.
- Decimal precision of 28 digits in means, drawdown ratios and retention.
- Scores that are not numbers in the dashboard; opportunity ids, which decide no complete run, are ordered.
- `CapitalMode`, `PaperBoundary` and snapshot validators; prompts, expressions, deliberation, position intents,
  feedback and all user interface code.
