# Execution, replay and governance of the trading bot: a verified model

This project models the stateful core of the trading bot and proves what it
keeps over whole runs, for all inputs. Each module follows one component.

- `Common` — options, results, and the text helpers (`strip`, `upper`) used on
  every identifier.
- `Authority` — a risk decision becomes an execution authorization, an
  authorization becomes an order.
- `OrderProtocol`, `OrderEngine`, `OrderCells`, `OrderSafety`, `OrderAgreement`,
  `OrderNames`, `OrderJournal`, `OrderAnswers` — the order execution engine over
  fifteen order statuses. `OrderProtocol` says
  what each call does as a function, `OrderEngine.ExecutionEngine` is the object
  that updates its dictionaries in place and is proved to take exactly these
  steps. The broker and the audit sink are adversaries: every call of theirs
  may return any snapshot, return nothing, or raise. `OrderCells` says what each
  call does to one order, `OrderAnswers` what each call returns or raises, and the
  other four prove the run properties.
- `ReplayModel`, `ReplayEngine`, `ReplayRows`, `ReplayPolicy`, `ReplayPortfolio`,
  `ReplayRuns`, `ReplayCash`, `ReplayDust` — the historical replay with stops,
  targets, one partial exit, expiry, session-end liquidation and reversal,
  including the paper lifecycle with its 1e-12 tolerance.
  `ReplayEngine.HistoricalBacktestEngine` is the object, `ReplayRows` what one
  row can change, `ReplayPolicy` what it must do, read off prices, levels and
  time alone, `ReplayPortfolio` what the decision is told, `ReplayRuns` and
  `ReplayCash` the theorems about whole runs, `ReplayDust` a run that loses a
  quantity.
- `WalkForward`, `WalkForwardCuts` — purged walk-forward windows: generator,
  evaluator, validator, and how the windows follow from the rows and the ratio.
- `Metadata`, `Registry` — the model registry with its frozen metadata.
- `Champion` — the champion history file and its pointer file, with a crash
  possible at every point of the two writes and after them.
- `Orchestration`, `ConcurrentRuns` — the automation run store and the
  orchestrator, with handlers and event subscribers that may raise, for calls
  one after the other and for interleaved ones.
- `ReviewJournal` — the manual review journal under any interleaving of request
  threads.
- `Metrics`, `Reconciliation` — trade metrics against their definitions, and
  position reconciliation.

Conventions: quantities and prices are exact reals with the source's 1e-12
tolerances kept as constants; timestamps are integers, and the IST day is a
computed function of them; an exception is a value (`Err`), and the order engine,
the champion store and the orchestrator also say what state it left. SHA-256 is an arbitrary function
parameter, or the tuple it is taken of where it is only used as a key. Run ids
are issued once.

Assumptions: strategy and risk together are one arbitrary deterministic function
of the row and the portfolio (its decision is about the row's own symbol and
timestamp, as `trading/strategy/candidate_adapter.py:40-55` and
`trading/risk/engine.py:160-164` make it), or an exception. The replay theorems
start from an engine without open trades; every successful run ends in one.

Findings, each with its exact condition:

- An audit sink that refuses the event of a real change, or a cancel without a
  legal answer, leaves an order whose status has moved past its stored snapshot.
  Exactly when: `OrderAgreement.AgreementIsLostExactlyWhen` and
  `AlwaysSettledExactlyWhen`; an example: `RaisingSinkBreaksAgreement`.
- `rehydrate` moves statuses without journaling them. Exactly when:
  `OrderJournal.RehydrateKeepsThePathExactlyWhen` and
  `JournalAlwaysRebuildsExactlyWhen`; an example:
  `RehydrateLeavesTheJournalBehind`.
- `refresh`, `rehydrate` and `cancel` store a report about another id or of
  another size under the id they asked for, and `submit` takes a new size for an
  id it has met. Exactly when: `OrderNames.SnapshotsAreMisfiledExactlyWhen` and
  `AlwaysFaithfulExactlyWhen`; an example: `RefreshStoresAnything`.
- An order built from an authorization whose symbol is not canonical is never
  accepted (`OrderSafety.BuiltOrdersValidateExactlyWhen`, example
  `LowerCaseSymbolIsNeverAccepted`); what Risk and Safety authorise is canonical
  (`AuthorisedDecisionsBuildValidOrders`).
- The parts of an order identity are joined without escaping, so two decisions
  can share an order id when a decision id or a symbol holds the separator; the
  identity texts coincide in no other case
  (`Authority.IdentitiesCoincideExactlyWhen`, `IdentitiesCollide`).
- A partial exit that would leave at most 1e-12 units closes the trade without
  accounting for that rest (`ReplayRuns.TargetExitConservesExactlyWhen`, example
  `ReplayDust.DustIsLost`).
- `activate` admits a first champion with a parent, a version with surrounding
  blanks, and one with a carriage return, which reading the pointer file turns
  into a newline; each makes the store unreadable for good
  (`Champion.ActivationKeepsReadableExactlyWhen`, examples
  `UnsoundRecordsAreAdmitted`).
- A model whose metadata holds an unsortable set can be registered, but never
  approved or retired (`Registry.UnsortableMetadataIsStuckForever`, example
  `UnsortableMetadataCanBeRegistered`).
- A raising event subscriber makes the returned events differ from the stored
  ones, or makes `run` itself raise (`Orchestration.RunAnswers`, examples
  `RaisingSubscribersAreSeen`).

## Model

| member | source | states |
|---|---|---|
| Authority.AuthorizeExecution | execution/control.py:19-64 | An AUTHORIZED result exists exactly when Risk approved a positive size, the caller repeated it, and Safety allowed it; a blocked one carries no exposure |
| Authority.FromExitAuthorization | execution/engine.py:424-466 | Any fill of an exit order shrinks the observed position by exactly that fill and never flips its sign |
| Authority.IdentitiesCoincideExactlyWhen | execution/engine.py:404-408 | Without the separator in decision ids and symbols, two orders share an identity exactly when decision, symbol, direction, risk version and purpose are the same |
| Authority.IdentitiesCollide | execution/engine.py:404-408 | With the separator in a decision id or a symbol there always is another pair with the same identity |
| Authority.OrdersAreBuiltExactlyWhen | execution/engine.py:383-421 | An order is built exactly from an AUTHORIZED, positive, directed authorization with a named decision, and repeats its size, side and normalised symbol |
| Authority.ExitsAreBuiltExactlyWhen | execution/engine.py:424-466 | An exit order is built exactly against an open position, in its symbol, for exactly the size asked for, at most all of it |
| OrderEngine.ExecutionEngine.JournalTransition | execution/engine.py:592-619 | A status change is refused, or recorded before the audit sink is told, so a raising sink leaves it recorded |
| OrderEngine.ExecutionEngine.SubmitOrder | execution/engine.py:485-590 | The object's submit takes the protocol's step in every branch, with the submission log extended exactly when the broker is called |
| OrderEngine.ExecutionEngine.RefreshOrder | execution/engine.py:643-674 | Refresh, with a missing broker record turned into UNKNOWN |
| OrderEngine.ExecutionEngine.RecoverUnknownOrder | execution/engine.py:676-705 | Recovery of an UNKNOWN order from the broker's record |
| OrderEngine.ExecutionEngine.RehydrateOrders | execution/engine.py:715-747 | The loop over the ids, left at the first exception with the earlier ids done |
| OrderEngine.ExecutionEngine.CancelOrder | execution/engine.py:761-775 | Cancel, with CANCEL_PENDING recorded before the broker is asked |
| OrderEngine.RehydrateStopsAtFirstError | execution/engine.py:715-747 | Ids after the first exception change nothing |
| OrderCells.SubmitCell | execution/engine.py:485-590 | `submit` reaches the broker exactly when the order repeats its authorization, its id is unclaimed and the sink takes the events before the call; other ids are untouched |
| OrderCells.StepCell | execution/engine.py:485-775 | Every call changes only its own ids, by that call's effect, and only `submit` submits |
| OrderSafety.AtMostOnceSubmission | execution/engine.py:491-562 | Over every sequence of calls, with an adversarial broker and sink, no client order id is submitted twice |
| OrderSafety.OneSubmissionPerDecision | execution/engine.py:383-421 | Two submissions built from the same decision, symbol, direction, risk version and purpose are one |
| OrderSafety.EverySubmissionIsAuthorised | execution/engine.py:468-491 | Every order the broker sees repeats an AUTHORIZED authorization: symbol, side, exact quantity |
| OrderSafety.RiskAndSafetyStandBehindEverySubmission | execution/control.py:37-64 | If its authorization came through `authorize_execution`, Risk approved exactly that quantity and Safety allowed it |
| OrderSafety.BuiltOrdersValidateExactlyWhen | execution/engine.py:394-483 | A built order passes `validate` exactly when the authorization's symbol is canonical |
| OrderSafety.LowerCaseSymbolIsNeverAccepted | execution/engine.py:383-483 | A concrete authorization whose order is built and then refused |
| OrderSafety.AuthorisedDecisionsBuildValidOrders | execution/control.py:37-64 | Every order built from what Risk approved and Safety allowed passes `validate` |
| OrderSafety.ExitOrdersThatValidateOnlyClose | execution/engine.py:424-483 | An exit order has the authorised size, closes at most the position, and validates exactly when the symbols agree |
| OrderSafety.LocalStateAgrees | execution/engine.py:557-563 | With a non-raising sink, a stored order and its status agree, except for a CANCEL_PENDING left by a cancel that the broker did not answer properly, untouched since |
| OrderAgreement.AgreementIsLostExactlyWhen | execution/engine.py:592-775 | From agreement, and for any sink and broker, each call leaves status and snapshot apart exactly when its guard holds: a refused event of a real change, or a cancel left without a legal answer; `submit` and `rehydrate` never do |
| OrderAgreement.AlwaysSettledExactlyWhen | execution/engine.py:485-775 | An order agrees at every point of a run if and only if no call of the run meets that guard |
| OrderNames.SnapshotsAreMisfiledExactlyWhen | execution/engine.py:485-775 | A call makes a stored snapshot name another id or another size than its order's exactly when the report it stores has such a field, or `submit` brings a new size under an id already met; `recover_unknown` never does |
| OrderNames.AlwaysFaithfulExactlyWhen | execution/engine.py:485-775 | What is stored under an id names it and carries its size at every point of a run if and only if no call meets that guard |
| OrderNames.RefreshStoresAnything | execution/engine.py:667-674 | One `refresh` stores any reported snapshot under any new id |
| OrderAgreement.RaisingSinkBreaksAgreement | execution/engine.py:606-619 | A concrete run in which a raising sink breaks the agreement |
| OrderSafety.StoredSnapshotsAreConstructible | execution/engine.py:149-173 | Every snapshot stored in any run passes its constructor, under a usable id |
| OrderSafety.BuiltSnapshotsAreConstructible | execution/engine.py:149-173 | No snapshot the engine can build itself, stored or dropped, fails its constructor in a reachable state |
| OrderSafety.FillsAlwaysMatch | execution/engine.py:557-563 | In every run the recorded fills are exactly those of the stored snapshots |
| OrderSafety.SilentRefresh | execution/engine.py:647-665 | Exactly when `refresh` of an order the broker does not know returns, and that it then keeps quantity and fills |
| OrderSafety.BrokerSilenceIsFailClosed | execution/engine.py:643-674 | While the broker reports only broker-side statuses, that refresh never raises and ends in UNKNOWN in both maps |
| OrderAnswers.EveryEdgeBothWays | execution/engine.py:283-350 | The status graph agrees with the same graph written from its targets: from where each status can be entered |
| OrderAnswers.ValidatesExactlyWhen | execution/engine.py:468-483 | `validate` accepts exactly the orders that repeat a positive, directed, AUTHORIZED authorization |
| OrderAnswers.SubmitReturnsExactlyWhen | execution/engine.py:485-590 | `submit` returns exactly when the order is valid and its id is known already, or the broker was reached, its answer believed and every record written |
| OrderAnswers.SubmitAnswers | execution/engine.py:485-590 | For every state and reply: the result is about the order, its snapshot is what is stored, `accepted` fails exactly for the three rejections and a raising submission, and `error` is that exception or the stored report's reason |
| OrderAnswers.ReportsAreBelievedExactlyWhen | execution/engine.py:621-641 | Which quantities a report of each status may carry |
| OrderAnswers.RefreshAnswers | execution/engine.py:643-674 | When `refresh` returns, and that what it returns is then held: the report, or the known order with UNKNOWN |
| OrderAnswers.LateFillsAreTaken | execution/engine.py:283-350 | A fill reported after a cancellation is taken |
| OrderAnswers.RecoverAnswers | execution/engine.py:676-705 | An order is left alone unless it is UNKNOWN and the broker has a believable record of it, in its size |
| OrderAnswers.CancelAnswers | execution/engine.py:761-775 | When `cancel` returns, and that the broker's answer is then held |
| OrderAnswers.RehydrateAnswers | execution/engine.py:715-747 | `rehydrate` answers with exactly the ids it wrote, each as it now holds it, and leaves all others alone |
| OrderAnswers.ErrorsNameTheirCause | execution/engine.py:468-775 | Whatever a call raises, its cause holds of the arguments, the state and the broker's reply |
| OrderAnswers.EventsAlwaysCarryRequests | execution/engine.py:592-619 | In every run each event carries the decision and the purpose of its order's request, or the defaults |
| OrderJournal.JournalHoldsOnlyAllowedEdges | execution/engine.py:283-350 | Every journaled event is an allowed edge, never a self-loop; one without prior status only enters VALIDATED |
| OrderJournal.JournalRebuildsEveryStatus | execution/engine.py:592-619 | Without `rehydrate`, the events of each order chain and end in its current status |
| OrderJournal.RehydrateOneKeepsThePathExactlyWhen | execution/engine.py:722-746 | For one journaled id the journal survives exactly when the id is rejected or skipped, or the status written is already there |
| OrderJournal.RehydrateKeepsThePathExactlyWhen | execution/engine.py:715-747 | For a whole call, exactly when the order was never journaled, is not written, or is left with its status |
| OrderJournal.JournalAlwaysRebuildsExactlyWhen | execution/engine.py:592-747 | The journal rebuilds a status at every point of a run if and only if no `rehydrate` of the run drifts it |
| OrderJournal.RehydrateLeavesTheJournalBehind | execution/engine.py:715-747 | A concrete run with `rehydrate` in which they do not |
| ReplayEngine.HistoricalBacktestEngine.MarkTrade | trading/paper/lifecycle.py:106-131 | Mark updates the extremes of the open trade only |
| ReplayEngine.HistoricalBacktestEngine.ClosePartialTrade | trading/paper/lifecycle.py:133-227 | The outcome and what remains of the trade, closed when the rest is within tolerance |
| ReplayEngine.HistoricalBacktestEngine.ManageTrade | backtesting/engine.py:403-475 | Mark, then stop before target, then the partial exit |
| ReplayEngine.HistoricalBacktestEngine.PortfolioState | backtesting/engine.py:292-362 | Day rollover, then the sums over open trades that the loop accumulates |
| ReplayEngine.HistoricalBacktestEngine.HandleDecision | backtesting/engine.py:364-401 | Reversal closes first, the new trade opens, levels are replaced only when both are given |
| ReplayEngine.HistoricalBacktestEngine.ProcessRow | backtesting/engine.py:187-261 | One loop iteration: exits, decision, authorisation, entry |
| ReplayEngine.HistoricalBacktestEngine.CloseRemainingTrades | backtesting/engine.py:556-567 | The final loop over symbols |
| ReplayEngine.HistoricalBacktestEngine.RunRows | backtesting/engine.py:156-267 | The whole run: result and final state are the model's |
| ReplayRows.ExitPhaseEffect | backtesting/engine.py:403-540 | After the exits of a row the symbol is flat on a session end, and otherwise its trade is younger than the limit; no other symbol changes |
| ReplayRows.RowStepEffect | backtesting/engine.py:187-261 | What one row can do to trades, levels, outcomes and journal |
| ReplayPolicy.StopsAreTaken | backtesting/engine.py:403-443 | In terms of the row's prices and the levels: a trade whose stop is touched is left on that row, whole, priced off the stop with slippage against it, whatever the target says |
| ReplayPolicy.NoTradeSurvivesItsStop | backtesting/engine.py:187-261 | Over runs: no trade survives a row that touches its stop |
| ReplayPolicy.TargetsAreTaken | backtesting/engine.py:441-475 | With the stop untouched and the target touched, the first exit is priced off the target, in as many whole steps as fit the fraction, and the rest is watched with its stop at the entry fill and no target |
| ReplayPolicy.TimeClosesTrades | backtesting/engine.py:172-185 | With neither touched, a trade at the holding limit or at a session end is closed whole at the row's price |
| ReplayPolicy.OtherwiseOnlyReversalsExit | backtesting/engine.py:364-401 | With neither, the row has no exit and the trade stays, unless an authorised opposite decision closes it whole and opens the other way |
| ReplayPolicy.FlatRowsEnterExactlyWhenAuthorised | backtesting/engine.py:187-247 | A flat symbol gets a trade exactly when the assessment is approved and the row neither ends its session nor is the last; entry fill, size and levels are the assessment's |
| ReplayPolicy.AuthorisedDecisionsAreFollowed | backtesting/engine.py:364-401 | Same direction: nothing; opposite: whole exit, then entry; flat: entry |
| ReplayPolicy.AssessmentsAreAuthorisedExactlyWhen | execution/trading_execution.py:54-109 | A row's assessment is refused exactly when its size, or its value at the entry price, is not what risk approved, or a rejection carries exposure |
| ReplayPortfolio.PrepareSucceedsExactlyWhen | backtesting/engine.py:639-717 | Exactly when every row is acceptable and no two share symbol and time; no row is lost or invented |
| ReplayPortfolio.MarkWidensTheExtremes | trading/paper/lifecycle.py:106-131 | The marked extremes contain the move and are either the old ones or the move |
| ReplayPortfolio.ExitsReportTheExtremes | trading/paper/lifecycle.py:190-227 | An exit reports the extremes of its trade, and what is left starts over, unless the rest is dust |
| ReplayPortfolio.PortfolioSays | backtesting/engine.py:292-362 | What the decision is told: equity, the day's exits and entries, and each open trade once in exposure and unrealised result |
| ReplayPortfolio.DayOpensOnce | backtesting/engine.py:298-306 | The opening equity of an IST day is fixed from what is realised when the day is entered, and stays |
| ReplayPortfolio.RowsAreAssessed | backtesting/engine.py:187-224 | The assessment of a row answers the portfolio that its exits left |
| ReplayRuns.PreparedFacts | backtesting/engine.py:639-717 | Prepared rows are ordered by time, then symbol, no two share both, and their symbols are canonical |
| ReplayRuns.RowLeavesYoungTradeOrNone | backtesting/engine.py:237-247 | After each row its symbol is flat at a session end, and never holds a trade as old as the limit |
| ReplayRuns.NoOvernightPosition | backtesting/engine.py:542-567 | Every trade exits on its entry's IST day, the run ends flat, and the final closing loop closes nothing |
| ReplayRuns.EveryEntryIsConserved | backtesting/engine.py:415-475 | The exits of every entry sum to its quantity, or miss it by at most the tolerance in the dust case |
| ReplayRuns.CompleteExitsConserve | backtesting/engine.py:441-475 | At most one partial exit, of whole steps, strictly between nothing and everything |
| ReplayRuns.TargetExitConservesExactlyWhen | trading/paper/lifecycle.py:213-227 | A target exit conserves quantity if and only if the rest is more than dust |
| ReplayDust.DustIsLost | backtesting/engine.py:441-475 | A whole run, of three rows under an admissible configuration, whose only exit is short of its entry |
| ReplayRuns.SessionEndsAreStable | backtesting/engine.py:542-554 | Later days do not change which earlier rows end their session |
| ReplayRuns.NotSessionEndIsNotFinal | backtesting/engine.py:178-185 | A row that does not end its session precedes the final timestamp, so that guard is implied |
| ReplayRuns.PrepareExtends | backtesting/engine.py:639-717 | Preparing an input extended by later days extends the prepared rows |
| ReplayRuns.ReplayIsCausal | backtesting/engine.py:156-267 | Rows of later IST days change nothing about earlier ones: steps and outcomes of the shorter run are a prefix of the longer's |
| ReplayRuns.ReplayAgreesUntilASessionEndMoves | backtesting/engine.py:162-261 | Row by row, also inside a day: added rows leave the replay of the first rows as it was, as long as no session end among them moves |
| ReplayRuns.SessionEndsOnlyMoveLater | backtesting/engine.py:542-554 | Added rows never make an earlier row end its session |
| ReplayCash.SlippageIsAgainstTheTrader | backtesting/fills.py:45-79 | A simulated fill is never better than its reference, and its slippage cost is exactly the distance between the two |
| ReplayCash.ExitIsCash | trading/paper/lifecycle.py:190-211 | Gross on reference prices less both slippages is the move between the two fills: no slippage is counted twice |
| ReplayCash.EveryOutcomeIsCash | trading/paper/lifecycle.py:133-227 | Over every run, each outcome nets the cash between its fills less both fees, also after a partial exit took its share of the entry costs |
| ReplayCash.RealisedEquityIsCash | backtesting/engine.py:357-362 | The realised equity after a run is the opening equity plus the cash of all its trades |
| WalkForward.GenerateWindows | backtesting/walk_forward.py:90-210 | The fold loop computes the windows of the plan, or the first fold's error |
| WalkForward.BlocksTileTheTimestamps | backtesting/walk_forward.py:139-165 | The test blocks tile the distinct timestamps after the initial block and end at the last one |
| WalkForward.GenerationSucceedsExactlyWhen | backtesting/walk_forward.py:166-185 | Accepted arguments succeed exactly when every block outlasts the purge; otherwise the error names the first that does not; the other errors cannot occur |
| WalkForwardCuts.CutFollowsTheRatio | backtesting/walk_forward.py:139 | The distinct timestamps the first fold trains on are the largest whole number within the training ratio of all of them, and at least one |
| WalkForwardCuts.BlocksAreEven | backtesting/walk_forward.py:146-165 | The rest is divided evenly over the folds, the remainder going to the first ones |
| WalkForwardCuts.WindowSays | backtesting/walk_forward.py:118-208 | Each window in terms of the rows: where it trains, what is purged, and the first timestamp it tests |
| WalkForwardCuts.RefusedExactlyWhen | backtesting/walk_forward.py:90-150 | A generation is refused before its folds exactly for these arguments; the "insufficient observations" case through the inequalities of the cut |
| WalkForward.EveryWindow | backtesting/walk_forward.py:166-208 | What each window of a successful run counts and bounds |
| WalkForward.RowsAreConserved | backtesting/walk_forward.py:177-208 | train(k+1) = train(k) + purged(k) + test(k), and together they are all rows, duplicates included |
| WalkForward.TestRowsAreOutOfReach | backtesting/walk_forward.py:166-185 | Every test row lies more than the purge interval after every training row of its fold |
| WalkForward.ValidateReport | backtesting/walk_forward.py:65-87 | The validator's loop accepts exactly the valid reports |
| WalkForward.ValidReportTestsAreDisjoint | backtesting/walk_forward.py:65-87 | In a valid report no two test intervals meet, adjacent or not |
| WalkForward.GeneratedWindowsAreValid | backtesting/walk_forward.py:65-87 | What the generator builds the validator accepts |
| WalkForward.TestingMatchesTheGenerator | backtesting/walk_forward.py:238-255 | The evaluator's "from the first test row" mask selects what the generator counted after the purge boundary |
| WalkForward.PartitionsMatchTheGenerator | backtesting/walk_forward.py:238-255 | Both partitions have the counted sizes, are not empty, and do not leak |
| WalkForward.EvaluateWalkForward | backtesting/walk_forward.py:213-275 | The empty-partition, leakage and report errors are unreachable; success is exactly generation plus a well-behaved evaluator, and otherwise the first fold that is not clean is the error |
| Metadata.CopyKeepsTheCanonicalForm | ml/model_registry.py:48-79 | Canonicalising twice is canonicalising once, and copying a record through its dictionary keeps the form, so the fingerprint |
| Metadata.FreezeIsNeutral | ml/model_registry.py:48-72 | Freezing is idempotent and never changes the canonical form |
| Metadata.CanonicalKeepsTheShape | ml/model_registry.py:61-72 | Canonicalising keeps keys, order and leaves |
| Metadata.SetOrderDoesNotShow | ml/model_registry.py:61-72 | The iteration order of a set does not show in the canonical form |
| Registry.ModelRegistry.LoadRecords | ml/model_registry.py:267-291 | The constructor's loop over the initial records |
| Registry.ModelRegistry.RegisterRecord | ml/model_registry.py:293-317 | Registration, with the same metadata returning the existing record and other metadata refused |
| Registry.ModelRegistry.ApproveVersion | ml/model_registry.py:319-351 | Approval in every branch |
| Registry.ModelRegistry.RetireVersion | ml/model_registry.py:353-369 | Retirement in every branch |
| Registry.LoadsExactlyWhen | ml/model_registry.py:267-291 | Exactly records under their own version, none of them APPROVED |
| Registry.RegistersExactlyWhen | ml/model_registry.py:293-317 | Exactly a record that is not APPROVED, under a new version or with the fingerprint of the one there; only that version grows |
| Registry.ApprovesExactlyWhen | ml/model_registry.py:319-351 | Exactly a ready CANDIDATE on evidence that names its fingerprint; the new entry is it with that evidence |
| Registry.RetiresExactlyWhen | ml/model_registry.py:353-369 | Exactly a known version with a reason; the new entry is it with that reason |
| Registry.EntriesAreComplete | ml/model_registry.py:152-169 | Every APPROVED entry of a history has its full evidence, every RETIRED one its reason |
| Registry.ApproveNeverBuildsAnInvalidRecord | ml/model_registry.py:319-351 | Approval succeeds exactly for a ready candidate whose fingerprint the evidence names, and never trips over the record constructor |
| Registry.RetireNeverBuildsAnInvalidRecord | ml/model_registry.py:353-369 | Retirement succeeds exactly for a known version, a non-blank reason and sortable metadata |
| Registry.EveryRunIsConsistent | ml/model_registry.py:278-369 | In every reachable registry records and histories agree, and the loaded histories are prefixes |
| Registry.HistoriesOnlyGrow | ml/model_registry.py:293-369 | Between any two points of a run every history only grows |
| Registry.RegistryGrammar | ml/model_registry.py:293-369 | Status words are (RESEARCH_ONLY, CANDIDATE, CANDIDATE APPROVED or nothing) then RETIRED any number of times, and an approved entry's evidence names the fingerprint of the entry before it |
| Registry.IdentityIsCarriedOver | ml/model_registry.py:336-363 | Across a history only the approval and retirement fields change |
| Registry.UnsortableMetadataIsStuck | ml/model_registry.py:61-72 | No call changes a version with metadata that cannot be sorted |
| Registry.UnsortableMetadataIsStuckForever | ml/model_registry.py:61-72 | It stays the same for the rest of every run |
| Registry.UnsortableMetadataCanBeRegistered | ml/model_registry.py:61-72 | With any sort that refuses a number and a text, a record that is registered and then can be neither approved nor retired |
| Champion.ChampionStore.ReadHistory | learning/lifecycle.py:160-195 | The line loop returns the chain or the first line's error |
| Champion.ChampionStore.ReadCurrent | learning/lifecycle.py:145-158 | The pointer, with its line ends translated and stripped, after the integrity checks |
| Champion.ChampionStore.ActivateRecord | learning/lifecycle.py:78-143 | All checks in order, then the two writes as far as they get |
| Champion.ReadableMeansAChain | learning/lifecycle.py:145-195 | `current` answers exactly when the log is a fingerprinted parent chain from a root and the pointer reads as its last version |
| Champion.ActivationIsRefusedExactlyWhen | learning/lifecycle.py:91-127 | An activation is refused exactly when the store is unreadable, the record is not PROMOTED by a promoted decision for its version and review fingerprint at an aware time, or it does not succeed the champion |
| Champion.EveryEntryIsAccredited | learning/lifecycle.py:91-127 | Over runs with any crashes, every entry of the log comes from an attempt whose decision was promoted for exactly that version and fingerprint |
| Champion.ActivationKeepsReadableExactlyWhen | learning/lifecycle.py:115-143 | An admitted activation leaves a readable store if and only if it wrote nothing, or completed both writes, returning or not, with a first record without parent and a version without surrounding blanks or carriage returns |
| Champion.UnsoundRecordsAreAdmitted | learning/lifecycle.py:115-143 | Three concrete admitted activations that break the empty store |
| Champion.RepeatedPointerChecksNeverRaise | learning/lifecycle.py:117-125 | The pointer checks that `activate` repeats after `current` never raise |
| Champion.UnreadableForever | learning/lifecycle.py:115-143 | An unreadable store refuses everything and never changes again |
| Champion.CurrentIsTheLastCompletedActivation | learning/lifecycle.py:145-158 | Whatever crashed before, `current` raises or names the last activation that completed both writes, the history lists exactly those, and every activation that returned normally is among them |
| Champion.ReadableExactlyWhen | learning/lifecycle.py:78-143 | A store is readable after a run if and only if every admitted activation wrote nothing, or both files completely with a sound record |
| Orchestration.RunStateStore.CreateRun | automation/state_store.py:27-36 | One record per idempotency key |
| Orchestration.RunStateStore.Update | automation/state_store.py:38-44 | Replaces the context of a known run, and reports an unknown one |
| Orchestration.RunStateStore.Append | automation/state_store.py:46-52 | Extends the events of a known run, and reports an unknown one |
| Orchestration.AutomationOrchestrator.RunStages | automation/orchestrator.py:117-141 | The stage loop, with every event stored before anything can raise |
| Orchestration.AutomationOrchestrator.RunRequest | automation/orchestrator.py:82-166 | The whole call, from idempotency check to result, never reaching the store's KeyError |
| Orchestration.StagesTrace | automation/orchestrator.py:117-141 | The stored trace is a run of SKIPPED or STARTED, COMPLETED stages, with at most one broken stage at its end |
| Orchestration.PayloadHoldsTheOutputs | automation/orchestrator.py:113-141 | The accumulated payload is the inputs overlaid with the outputs so far, and no handler is called unannounced |
| Orchestration.HandlersSeeTheOverlay | automation/orchestrator.py:113-141 | Every output is its handler's answer to the inputs overlaid with the outputs of the stages before it; a handler without an output raised, on that overlay, what the run failed of |
| Orchestration.FailuresHaveACause | automation/orchestrator.py:117-141 | The stages fail of a subscriber, of a handler, or else of the execution stage outside paper mode |
| Orchestration.OutputsAreComputed | automation/orchestrator.py:113-166 | The outputs and the error that a fresh run returns are these, and a run that succeeds has one output of every configured stage |
| Orchestration.RunsAreFiled | automation/contracts.py:77-129 | A fresh run is filed under its normalised symbol, instant, five minutes and mode; two requests are one decision point exactly when these agree |
| Orchestration.OneRunPerDecisionPoint | automation/orchestrator.py:95-141 | Over any sequence of calls, all handler calls for one key belong to one run, no stage runs twice, and they come in canonical order |
| Orchestration.ExecutionOnlyInPaperMode | automation/orchestrator.py:132-138 | Every single call of the execution handler is in paper mode, and only configured handlers are called |
| Orchestration.EveryRecordHasAGoodTrace | automation/orchestrator.py:117-166 | Every stored record is finished with a good trace, ended by RUN_FAILED exactly when it failed |
| Orchestration.RunAnswers | automation/orchestrator.py:95-166 | The result repeats the stored events exactly when no subscriber raised; duplicates are rejected without any effect |
| ConcurrentRuns.EveryScheduleIsSafe | automation/orchestrator.py:95-166 | The invariant over every interleaving of any number of callers: each run under way is as far as it would be alone, and every other record is finished |
| ConcurrentRuns.EndIsSafe | automation/orchestrator.py:143-166 | A run that ends among others leaves the record it would have left alone |
| ConcurrentRuns.OneRunPerDecisionPointUnderEveryInterleaving | automation/state_store.py:27-36 | One run per decision point, no stage twice, canonical order and paper-only execution, however the callers' steps interleave |
| Orchestration.RaisingSubscribersAreSeen | automation/orchestrator.py:150-166 | Concrete runs whose result lacks a stored event, and whose call raises with a failed record left behind |
| ReviewJournal.ManualReviewStore.Read | journal/manual_review.py:373-392 | The line loop, failing on the first invalid line |
| ReviewJournal.ManualReviewStore.AppendRecord | journal/manual_review.py:337-371 | Appends exactly the given record, or refuses and changes nothing; a write that fails within its line leaves a torn one |
| ReviewJournal.ManualReviewStore.OutcomeFor | journal/manual_review.py:400-404 | Reads the log, then answers from it |
| ReviewJournal.ReadsLineByLine | journal/manual_review.py:373-392 | Reading a log is reading its parts: blank lines say nothing, a record says its event, one invalid line spoils all |
| ReviewJournal.RefusesExactlyTheClashes | journal/manual_review.py:345-367 | The two checks of `append` together refuse exactly a second review id and a second outcome of a review |
| ReviewJournal.OutcomeForReviewAnswers | journal/manual_review.py:400-404 | It raises exactly on two outcomes of the review, and otherwise returns the one there is |
| ReviewJournal.EveryScheduleIsSafe | journal/manual_review.py:337-371 | The lock invariant over every interleaving of any number of threads |
| ReviewJournal.JournalUnderEveryInterleaving | dashboard/server.py:126-182 | No duplicate review ids, one outcome per review, `outcome_for_review` never raises, and every dashboard outcome names a review of the log with its signal |
| ReviewJournal.AcknowledgedEventsStay | journal/manual_review.py:343-371 | The log only grows, and a finished request's event stays in it |
| ReviewJournal.OutcomesAreBuiltExactlyWhen | dashboard/server.py:131-181 | The dashboard builds an outcome exactly when it is given a review id, can read the journal and finds the review, whose signal it takes |
| ReviewJournal.JournalHoldsOnlyWhatWasAsked | journal/manual_review.py:343-371 | In every schedule, with the lock or without, each event of the log is what some request asked for |
| ReviewJournal.CriticalSectionIsAppend | journal/manual_review.py:343-371 | The steps under the lock, taken together, are `append` |
| ReviewJournal.WithoutTheLockOutcomesDouble | journal/manual_review.py:340-343 | Without the lock an interleaving leaves two outcomes for one review |
| Metrics.DrawdownIsTheLargestDrop | backtesting/metrics.py:103-112 | The one-pass drawdown is the maximum of E_i - E_j over all i <= j, attained, with E_0 = 0 |
| Metrics.ExpectancyAgrees | backtesting/metrics.py:69-101 | Expectancy is win rate times average win plus loss rate times average loss, and net P&L per trade |
| Metrics.ProfitFactorAgrees | backtesting/metrics.py:91-99 | With losses the profit factor exceeds one exactly when net P&L is positive; it is infinite exactly with wins and no loss |
| Metrics.MetricsOfARunBalance | backtesting/metrics.py:72-75 | For every replay the reported net P&L is gross less fees less slippage, and the cash of all trades |
| Metrics.MetricsOfOneTrade | backtesting/metrics.py:64-159 | Which field of a trade each total is |
| Metrics.MetricsAdd | backtesting/metrics.py:64-159 | Counts and totals of two histories add up to those of both |
| Metrics.RatesAndAverages | backtesting/metrics.py:69-101 | Win rate and averages times their counts give back the wins, the positive and the negative results |
| Metrics.NetPnlIsAboveTheDrawdown | backtesting/metrics.py:72-112 | The reported drawdown bounds every drop of the equity curve |
| Reconciliation.NormalizePositions | execution/reconciliation.py:91-104 | The dictionary loop, with its duplicate error |
| Reconciliation.ReconcilePositions | execution/reconciliation.py:53-89 | The comparison loop builds the report |
| Reconciliation.ComparableExactlyWhenDistinct | execution/reconciliation.py:91-104 | A snapshot is refused exactly when two positions share a normalised symbol |
| Reconciliation.ReportIsExact | execution/reconciliation.py:64-89 | MATCH exactly when all symbols agree within tolerance, and the mismatches are exactly those that do not |
| Reconciliation.AgreeExactlyWhen | execution/reconciliation.py:66-80 | Two holdings agree exactly within 1e-12 in quantity and in price |
| Reconciliation.BlockedExactlyWhen | execution/reconciliation.py:58-63 | BLOCKED exactly when a snapshot is missing |
| Reconciliation.ReconcileIsSymmetric | execution/reconciliation.py:53-89 | Swapping the snapshots swaps the two sides of the same report |
| Reconciliation.ReconcileIgnoresOrder | execution/reconciliation.py:66-104 | The report does not depend on the order of the positions |

## Left out

- Clocks, UUIDs, latency and `updated_at`: dropped or passed in as parameters; run ids are a counter.
- `ExecutionEngine.metrics`, `open_orders`, `unknown_orders`, `reconcile_order` and `reconcile_positions`: read-only views that change nothing.
- The pass-through fields `position_transition`, `approved_projected_quantity`, `reason` and `execution_version` of an authorization: no branch depends on them.
- The audit sink's own records: each call into it is one possible exception.
- OrderSafety.AtMostOnceSubmission: speaks of one engine object, not of a restart; `rehydrate` skips ids that neither the broker nor the engine knows.
- Non-ASCII white space and upper-casing: `strip` and `upper` are modelled on ASCII text.
- Floating-point rounding, NaN and infinities in inputs: quantities are exact reals.
- `holding_minutes`, the paper runtime's position book, and the volume and column checks of row preparation: derived, unread by the loop, or parsing.
- ReplayEngine.HistoricalBacktestEngine.RunRows: after an exception nothing is promised about the fields, because the source leaves a partly updated object.
- ReplayRuns.EveryEntryIsConserved: assumes no trade is open when the run starts, as on a new engine or after any successful run.
- The ISO text inside a risk decision id: any text built from the decision stands for it.
- Iteration order of Python sets: the elements of a set are listed in one order, and `sorted` is an arbitrary permuting function that may raise.
- Metadata keys that are not strings, and two keys with the same text: keys are texts.
- JSON, file paths, HTTP and argument parsing: logs are sequences of lines, a torn line is one that does not parse.
- Orchestration.EveryRecordHasAGoodTrace: handlers and subscribers raise ordinary exceptions; an interrupt or exit request from one of them would leave a RUNNING record without RUN_FAILED.
- WalkForward.EvaluateWalkForward: timestamps are parsed instants; the source compares the raw column for leakage, so texts with mixed UTC offsets can raise that error.
- `LearningLifecycle`, `RollbackRecord` and the promotion contract's own checks: finite tables and constructor checks.
- Orchestration.PayloadHoldsTheOutputs: handlers only read the payload they are given, as their declared type says; one that changes the dictionary in place is not modelled.
- Handlers that call the orchestrator again.
- Two journal objects on the same file: they have two locks; a write that stops after the text but before the newline is not modelled either.
- Sharpe and Sortino ratios and exposure minutes: square roots, and a sum like the others.
- The symbol inside the duplicate-position error message.
