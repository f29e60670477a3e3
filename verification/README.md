# Verified models of the budget ledger, the source closure and the soak monitor

Three parts of the system decide whether other work may go ahead, and each of them claims to fail
closed.  This project models those three and proves what they promise.

1. **The budget ledger** (`src/agentic_os/budgets.py`, files `Amounts` and `Budget*`).  An
   append-only ledger of reservations and usage is authoritative; six counters per run are a cache
   that the same transaction updates; a final settlement splits what a spawn still holds into usage
   and release.  `BudgetSpec` says what each call does, by conditions on the caller's own spawn
   alone.  `BudgetDatabase` is the program: rows inserted in place, guarded `UPDATE` statements,
   whole-ledger queries before `COMMIT`, `ROLLBACK`.  Every call of the class is proved to do
   exactly what its specification says, so the guards and queries that the specification leaves out
   are proved to be implied.  `BudgetInvariant`, `BudgetHistory`, `BudgetTheorems` and
   `BudgetReplay` prove the laws of every history: any interleaving of calls, with any answer of the
   parts outside the model, and any steps of the rest of the system between them.
   `BudgetRefusals` and `BudgetIdentities` say exactly which calls can never return again, and
   `BudgetWitness` plays out a history that ends there.  `BudgetAdmission`, `BudgetReturns` and
   `BudgetWritten` say in rows and numbers which calls return, what they write, and what stood on
   record then.
2. **The source closure** (`scripts/agentic_os_runtime_source_contract.py`).  `SourceClosure` is the
   work list over (file, resolution mode) nodes, with its verdicts in `ClosureRules`; `PackageMaps` the
   `exports` and `imports` patterns, with what they select in `TargetRules`;
   `LexerModel`, `LexerContext` and `Lexer` the fail-closed JavaScript lexer, proved to be the
   machine of `LexerMachine`, with `LexerTheorems` on its tilings, `LexerSlashes` on how it reads a
   slash and `LexerPrefix` on texts that are cut off; `LexerRules` and `TextRules` spell out its marks,
   words, characters and shapes; `ScanView` the texts derived from its tokens,
   with `ScanRules` on what they show of every character and token, `ViewLiterals` and `ViewScans` on what
   becomes of a view that is lexed again.  `Delimiters`
   and `DelimiterLaws` hold the bracket scans over code characters, `ViewDelimiters` the programs that
   walk a view with them, `TokenDelimiters` those that go by tokens; `LexerExamples` and
   `ViewExample` are texts on which they fail.
3. **The soak monitor** (`scripts/heartbeat-shadow-soak-monitor.py` with the receipt functions of
   `src/agentic_os/heartbeat_shadow.py`, files `Soak*`).  `SoakModel` holds the durable files, the
   checks and the list of writes each step makes, `SoakRules` what those checks come to in hours,
   seconds and files; `SoakTheorems` proves what every crash point of
   those writes keeps; `SoakProcess` is the daemon as a state machine over the disk, `SoakProgress`
   what an undisturbed one achieves, and `SoakMonitor` the daemon itself, which may die between any
   two writes and is proved to be a run of that machine.

## How to read the models

- **Atomic calls.**  A budget call runs under `BEGIN IMMEDIATE` with `ROLLBACK`, so it is one step.
  The parts of a transaction outside the model (the schema identity check, the pinned service-level
  queries, insert triggers) are an oracle `Verdicts`; every theorem holds for every oracle.
- **Tables.**  The row of a run joins `runs`, `run_budgets` and the selected registry row.  The
  unique columns are those of `migrations/0001_minimum_contract.sql:1408-1526` and
  `migrations/0008_budget_atomic_final_settlement.sql:1-53` (one settlement per spawn).  An id hashed from a key
  stands for the key.  A clock row is one that already passed every trust condition.
- **Signatures.**  An HMAC and a digest are the payload they cover, so equal ones mean equal
  payloads.  Disks are arbitrary unless a theorem says otherwise: forged, truncated and mixed-up
  files are included as long as they parse.
- **Crashes.**  `power` is the number of writes a process still makes.  `Surviving(d, writes, power)`
  is the disk after the first `power` writes; theorems about it speak of every crash point.
- **Clocks.**  The wall clock may jump either way between two readings.  The monotonic clock never
  goes back within a process and advances during a pause; a new process may start anywhere.
- **Characters.**  What Unicode says beyond ASCII is an arbitrary predicate (`Alphabet`); ASCII
  classes are concrete.

## Findings

- While some run that recorded unknown usage is past its gate, every call of every run fails: the
  unknown-usage query has no run filter (`src/agentic_os/budgets.py:322-336`;
  `BudgetRefusals.ClosedPoisonStopsEveryCall`).  As long as no gate reopens, ledger and settlements
  are frozen for good (`BudgetRefusals.ClosedPoisonFreezesTheLedger`).  The program's own calls lead
  there from an empty ledger: a reserve, the acceptance and dispatch of its spawn, an unknown usage,
  and the run passing its gate (`BudgetWitness.ClosedPoisonIsReachable`).
- A replay of a committed reserve or release is refused once its run recorded unknown usage, because
  admission runs first.  `BudgetReplay.IdenticalRepeatReturnsIff` gives the exact condition, and
  `BudgetWitness.PoisonedReplayIsRefused` the history where one repeat returns and a later one does not.
- The settlement code looks for its own key only; that a spawn settles once rests on the table.  The
  identities derived for linked events are plain concatenations (`src/agentic_os/budgets.py:1468`).
  The block is refused for identities exactly when one that it would write is taken
  (`BudgetIdentities.BlockRefusedIffDerivedTaken`); a direct event may carry such a key like any
  other, and no settlement that has to write it returns ever after
  (`BudgetIdentities.AnyFreshKeyWillDo`, `BudgetIdentities.DerivedKeyCollides`).
- A retry restore is the one call whose local checks do not imply the window query
  (`BudgetTheorems.RestoreWindowIff`): a family of restores passes every local and counter check and
  is refused by nothing but a window query, the ledger's own or the service-level one of the same
  wording (`BudgetTheorems.OverRestoreOnlyWindowRefuses`).
- Lexer tokens are in bounds except in one family: a text that ends inside a `\u` escape of one to
  three digits in an identifier has a last token that ends beyond the text
  (`LexerTheorems.TokensOverrunIff`, `LexerTheorems.TokensInBounds`,
  `LexerTheorems.ShortEscapeTextOverruns`).  If a type alias ends
  there, the scan view fails with an index error (`ScanView.ScanView` returns no view).
- Off well-nested text the bracket matchers can disagree (`Delimiters.MatchersDisagreeUnbalanced`)
  and can agree (`DelimiterLaws.AgreementOffNesting`).  The two single-kind scans never disagree
  (`DelimiterLaws.SingleKindScansAgree`); where the stack ignores no closer in between, the stack and
  the mixed scan name exactly the well-nested pairs (`DelimiterLaws.StackFindsIff`,
  `DelimiterLaws.ForwardFindsIff`).
- The backward token matcher lexes the text up to the closing bracket only
  (`scripts/agentic_os_runtime_source_contract.py:2151-2166`).  On a pair of tokens it fails exactly
  inside a template substitution, and outside it misses the opener of exactly those blocks that hold
  one: it counts the end of a substitution as a closing brace but its start not as an opening one
  (`TokenDelimiters.TokenScansAgreeIff`; `LexerExamples.PairInSubstitutionFails`,
  `LexerExamples.BlockOpenerIsMissed`).  Its callers pass a scan view, which replaces both marks of a
  substitution by round brackets, so on a view that is lexed in step neither case arises
  (`ViewScans.ViewScansAgree`).
- A scan view that is lexed again need not be lexed in step: a blanked piece that ends in a line
  break can leave an arrow `-->` at the start of a line, which is a comment there and swallows a
  quote (`ViewExample.ViewMayHoldSubstitution`).  A view is lexed in step, each of its literals one
  token, exactly when no comment runs into a literal, and then holds no substitution
  (`ViewScans.ViewIsLexedInStep`).
- A passing sample past one of the two deadlines only is refused, neither running nor complete
  (`SoakTheorems.AppendIff`).  The sample-count guard can never fire
  (`SoakTheorems.CountGuardIsImplied`).
- A sample that was chained but not yet in the receipt when the monitor died is never taken up
  again: every restart then fails closed (`SoakTheorems.RestartResumesIffChainMatches`).  Every
  accepted sample has such a crash point (`SoakTheorems.CrashAfterLinkIsFinal`).
- A sample whose row counts cannot be observed after another observation error is not recorded as
  failed but refused (`SoakTheorems.SampledOkIff`); the soak fails closed either way.

## Model

| member | source | states |
|---|---|---|
| Amounts.RoundedUpIsCeiling | src/agentic_os/budgets.py:306-319 | the rounded price is the least integer not below tokens times price over a million |
| Amounts.RoundedUpSubadditive | src/agentic_os/budgets.py:306-319 | pricing two amounts apart never costs less than pricing their sum |
| Amounts.CoversPlus | src/agentic_os/budgets.py:306-319 | paid amounts add up to a paid amount: why reserves keep a spawn funded |
| BudgetDatabase.Database.UpdateCounters | src/agentic_os/budgets.py:548-606 | the guarded update of a reserve or release succeeds exactly when the charged row fits its budget, and writes exactly the charge |
| BudgetDatabase.Database.UpdatePostDispatchCounters | src/agentic_os/budgets.py:830-935 | each post-dispatch update succeeds exactly when the charged row fits, equivalently when nothing goes negative, and writes exactly the charge |
| BudgetDatabase.Database.InsertEvent | src/agentic_os/budgets.py:774-819 | insert plus counter update refuses for a used key, a used dedupe key, a trigger or the guard, in that order, and otherwise is the specified insertion |
| BudgetDatabase.Database.RecordBudgetEvent | src/agentic_os/budgets.py:609-819 | a reserve or release leaves exactly the state and gives exactly the answer of its local specification: guards and whole-ledger queries refuse nothing else |
| BudgetDatabase.Database.RecordPostDispatchEvent | src/agentic_os/budgets.py:938-1195 | the same for consume, retry decrement, retry restore and human attention |
| BudgetDatabase.Database.SettleOnConnection | src/agentic_os/budgets.py:1222-1550 | a settlement inserts its one to four linked events one by one, with a query after each, and answers and commits exactly as specified |
| BudgetDatabase.Database.SettleBudget | src/agentic_os/budgets.py:1553-1603 | a refused settlement rolls back whatever it wrote: state and answer are the specified ones |
| BudgetDatabase.CounterDecision | src/agentic_os/budgets.py:548-606 | for a row its own spawn's reservation allows, the run-wide counter guard adds nothing but the free budget of a reserve and the run's spent retries of a restore |
| BudgetDatabase.CommitDecision | src/agentic_os/budgets.py:322-405 | for such a row the queries before COMMIT refuse exactly a restore beyond its spawn's spent retries and a ledger poisoned by a closed run |
| BudgetQueries.OutstandingQuery | src/agentic_os/budgets.py:408-455 | the CASE sums of the per-spawn query are the spawn's outstanding vector |
| BudgetQueries.LedgerQueriesAreLocal | src/agentic_os/budgets.py:322-405 | on a sound ledger the three queries reduce to prefix nets per spawn and the closed-poison test |
| BudgetSettlement.SettlementBlockPlan | src/agentic_os/budgets.py:1453-1548 | the block of linked rows in the order and with the sequence numbers the inserts give them |
| BudgetHistory.CallKeepsInv | src/agentic_os/budgets.py:609-1603 | every call with every answer keeps the whole invariant |
| BudgetHistory.HistoryKeepsInv | src/agentic_os/budgets.py:609-1603 | the invariant holds in every state of every history |
| BudgetTheorems.EventsPersist | src/agentic_os/budgets.py:774-819 | the ledger is append-only over whole histories |
| BudgetTheorems.CountersAreFolds | src/agentic_os/budgets.py:408-455 | in every reachable state reserved and consumed are the folds of the run's events and the sums of non-negative shares of its spawns, and fit the budget in six dimensions |
| BudgetTheorems.UpperGuardsAreImplied | src/agentic_os/budgets.py:839-935 | in every reachable state the upper guards of post-dispatch updates follow from the lower ones |
| BudgetTheorems.EverySpawnStaysFunded | src/agentic_os/budgets.py:681-773 | in every reachable state outstanding cost covers the rounded price of outstanding tokens, and consumed cost that of consumed tokens |
| BudgetTheorems.RunSumsFitInt64 | src/agentic_os/budgets.py:42-51 | sequences of a run are exactly 1..n, n at most a million, and every prefix sum over the run fits a signed 64-bit integer |
| BudgetTheorems.QuerySumsFitInt64 | src/agentic_os/budgets.py:367-455 | so does every running sum the window query keeps per partition and every sum the outstanding query takes per spawn, in every reachable state |
| BudgetTheorems.SpawnLedgerShape | src/agentic_os/budgets.py:1009-1108 | a spawn's ledger is reserves and releases, then direct usage, then at most one contiguous settlement block of strictly ordered types, last for the spawn |
| BudgetTheorems.SettlementConserves | src/agentic_os/budgets.py:1382-1399 | usage plus released is the prior outstanding amount, nothing is left outstanding, other spawns keep their ledger |
| BudgetTheorems.LinkedEventsAddUp | src/agentic_os/budgets.py:1450-1550 | the one to four linked events are contiguous, record exactly the usage and take out exactly what was outstanding |
| BudgetTheorems.SettlementMovesCounters | src/agentic_os/budgets.py:1453-1548 | consumed grows by the usage, reserved falls by the whole remainder, other runs keep both |
| BudgetTheorems.SettlementCannotHalfFail | src/agentic_os/budgets.py:1389-1548 | once the outstanding check passes and its identities are free, no counter update and no binding or prefix query inside the block can refuse, and the unknown-usage query refuses exactly when some closed run was poisoned before |
| BudgetTheorems.SettlementIsFinal | src/agentic_os/budgets.py:530-545 | whatever happens later, a settled spawn keeps exactly its ledger with nothing outstanding |
| BudgetTheorems.ConfidenceIsJoin | src/agentic_os/budgets.py:273-298 | over any history a run's confidence is the join of its start and of every event since |
| BudgetTheorems.PoisonIsAbsorbing | src/agentic_os/budgets.py:1109-1128 | once unknown is recorded, ledger, counters and confidence of the run never change again |
| BudgetTheorems.LocalCheckRefinesWindow | src/agentic_os/budgets.py:367-405 | for every kind but a retry restore the local outstanding check keeps all seven nets non-negative at every prefix of every partition |
| BudgetTheorems.RestoreWindowIff | src/agentic_os/budgets.py:895-912 | a retry restore passes the window query exactly when its spawn has spent that many retries |
| BudgetTheorems.OverRestoreOnlyWindowRefuses | src/agentic_os/budgets.py:895-912 | the whole family of restores that pass every local and counter check and only a window query refuses: the inline one, after the service-level one of the same wording |
| BudgetReplay.CommittedKeyIsInert | src/agentic_os/budgets.py:722-728 | a call with a committed key changes nothing, and what it returns is the committed result |
| BudgetReplay.ChangedPayloadConflicts | src/agentic_os/budgets.py:488-527 | an admitted call of any kind under a committed key changes nothing, and conflicts exactly when its payload is not the committed one |
| BudgetReplay.ChangedSettlementConflicts | src/agentic_os/budgets.py:1339-1350 | the same for the payload of a settlement key |
| BudgetReplay.DuplicateErasure | src/agentic_os/budgets.py:1339-1367 | repeats inserted anywhere later in any history leave every later state unchanged and return the original ids, sequences and released amounts if they return |
| BudgetReplay.IdenticalRepeatReturnsIff | src/agentic_os/budgets.py:609-728 | exactly when an identical repeat of a reserve or release returns |
| BudgetRefusals.ClosedPoisonStopsEveryCall | src/agentic_os/budgets.py:322-336 | while a run with unknown usage is past its gate no call of any run returns or changes anything |
| BudgetRefusals.ClosedPoisonFreezesTheLedger | src/agentic_os/budgets.py:322-336 | along any history in which no gate reopens, ledger and settlements then stay as they are |
| BudgetWitness.ClosedPoisonIsReachable | src/agentic_os/budgets.py:609-1195 | an empty ledger, a reserve that returns, the acceptance, completion and dispatch of its spawn, an unknown usage that is recorded and the run passing its gate form a history, for any usable names, at whose end no call of any run returns |
| BudgetWitness.ClosedPoisonHappens | src/agentic_os/budgets.py:609-1195 | for every selection without prices there is such a history |
| BudgetWitness.PoisonedReplayIsRefused | src/agentic_os/budgets.py:609-728 | in that history the repeat of the reserve returns before the usage, and after it no repeat does, whatever the rest of the transaction answers |
| BudgetAdmission.ActsOnTerms | src/agentic_os/budgets.py:609-1603 | no call of any kind returns or changes the state unless what it names is on record: run, spawn, transition and selection agree, the run's own clock is in range, texts are present, the price is paid, and what dispatch or settlement needs is there |
| BudgetAdmission.UsageNeedsEndedSession | src/agentic_os/budgets.py:1005-1043 | usage and settlements return or change something only for a completed spawn with a completed session, requested before it was accepted, accepted before the clock of the call |
| BudgetAdmission.AttentionNeedsSession | src/agentic_os/budgets.py:1005-1043 | retries and human attention need the same of an accepted or completed spawn with a session |
| BudgetAdmission.RecordTermsIff | src/agentic_os/budgets.py:627-705 | a reserve or release is admitted exactly on its terms; a reserve without charge has a policy, no other call has one |
| BudgetAdmission.UsageTermsIff | src/agentic_os/budgets.py:962-1043 | post-dispatch events are admitted exactly on theirs, with what each kind may carry |
| BudgetAdmission.SettlementTermsIff | src/agentic_os/budgets.py:1240-1311 | and settlements on theirs |
| BudgetAdmission.PriceRules | src/agentic_os/budgets.py:306-319 | an amount is paid exactly when it splits into one part for input and one for output tokens, each at least the price per million |
| BudgetReturns.RecordReturnsIff | src/agentic_os/budgets.py:609-819 | a reserve or release under a new key returns exactly on its terms, before dispatch, with a new dedupe key and a number left, no unknown usage past a gate, and either within the budget in six dimensions or leaving its spawn funded |
| BudgetReturns.UsageReturnsIff | src/agentic_os/budgets.py:938-1195 | usage, a retry or human attention under a new key is recorded exactly on its terms, for an unsettled spawn of a run between dispatch and aggregation |
| BudgetReturns.SettlementReturnsIff | src/agentic_os/budgets.py:1222-1550 | a settlement under a new key returns exactly on its terms, at the end of the run's work, for an unsettled spawn that holds what it used, with every identity it derives free and numbers left |
| BudgetWritten.RecordWritesOne | src/agentic_os/budgets.py:774-819 | a reserve or release that changes anything appends one event with the request's texts at its clock's instant, numbered next, and moves the run's six reserved counters and confidence by it, nothing else |
| BudgetWritten.UsageWritesOne | src/agentic_os/budgets.py:1150-1195 | the same for post-dispatch events, with reserved and consumed counters |
| BudgetWritten.SettlementWritesLinks | src/agentic_os/budgets.py:1453-1548 | every event a settlement adds is its usage, retry or attention part or the remainder, under the key and dedupe key derived for it |
| BudgetWritten.EveryEventStoodOnRecord | src/agentic_os/budgets.py:609-1603 | along any history, at the step that wrote an event its spawn was pending and unsent for a reserve or release, and for all else dispatched before the event's own clock, with an ended session for usage and for settlements |
| BudgetIdentities.BlockRefusedIffDerivedTaken | src/agentic_os/budgets.py:1453-1548 | a settlement's block is written whole exactly when sequences are left, no trigger rejects it, and none of the keys and dedupe keys derived for the types it writes is taken |
| BudgetIdentities.DerivedKeyBlocksSettlement | src/agentic_os/budgets.py:1468 | once a direct event carries a derived key, no settlement that has to write that type returns in any later state of any history |
| BudgetIdentities.AnyFreshKeyWillDo | src/agentic_os/budgets.py:722-819 | a direct call that returns under one fresh key returns, and is recorded, under any other fresh key |
| BudgetIdentities.DerivedKeyCollides | src/agentic_os/budgets.py:1468 | so every direct call can be sent under a key derived from another key: it returns, and settlements under that other key are refused from then on |
| SourceClosure.NodeModeIffSpawn | scripts/agentic_os_runtime_source_contract.py:7963-7974 | along any path a node has node mode exactly when the path used a spawn edge |
| SourceClosure.NodeModeReachableIff | scripts/agentic_os_runtime_source_contract.py:7963-7974 | a file is reachable in node mode exactly when some path to it uses a spawn edge |
| SourceClosure.Expand | scripts/agentic_os_runtime_source_contract.py:7928-7974 | one step queues exactly the unseen children of a node and its flags, or finds that it cannot be expanded |
| SourceClosure.WorkList | scripts/agentic_os_runtime_source_contract.py:7920-7974 | the loop ends, has seen exactly the reachable nodes, and fails exactly when some reachable node cannot be expanded |
| SourceClosure.RuntimeSourcePaths | scripts/agentic_os_runtime_source_contract.py:7901-7984 | the result is exactly the reachable files, and each refusal holds for a reason of the graph, not of the queue order |
| ClosureRules.ReachableIsLeastClosed | scripts/agentic_os_runtime_source_contract.py:7928-7974 | the reachable nodes are the least set with the entrypoints, the manifests of parsed files and what their specifiers resolve to, in node mode from a spawn on |
| ClosureRules.VerdictRules | scripts/agentic_os_runtime_source_contract.py:7904-7984 | exactly when each refusal is given: a missing entrypoint, a rejected scope, scan or specifier, ambient launch state together with a fork or a spawn, a needed URL together with a risky one; and the closure otherwise |
| PackageMaps.MatchRebuilds | scripts/agentic_os_runtime_source_contract.py:7425-7440 | prefix, replacement and suffix rebuild the requested key |
| PackageMaps.EqualRankSameKey | scripts/agentic_os_runtime_source_contract.py:7425-7440 | two matching keys of equal rank are the same key |
| PackageMaps.WinnerIgnoresOrder | scripts/agentic_os_runtime_source_contract.py:7425-7440 | the winner does not depend on the order of the map |
| PackageMaps.PatternTargetIgnoresOrder | scripts/agentic_os_runtime_source_contract.py:7425-7458 | two orders of a map with distinct keys give the scan the same result |
| PackageMaps.PatternTarget | scripts/agentic_os_runtime_source_contract.py:7425-7458 | the scan returns the substituted target of the winner, or nothing exactly when nothing matches |
| PackageMaps.WinnerIsNodesFirst | scripts/agentic_os_runtime_source_contract.py:7425-7458 | whatever ordinary keys the map holds, as long as its patterns have a single star, the winner is the first match in PATTERN_KEY_COMPARE order |
| PackageMaps.SubstituteCommutes | scripts/agentic_os_runtime_source_contract.py:7372-7422 | substituting and then selecting conditions is selecting and then substituting |
| PackageMaps.ValidTargetStaysInside | scripts/agentic_os_runtime_source_contract.py:7392-7409 | a validated target resolves strictly below the package root without ever popping a directory |
| PackageMaps.AcceptedTargetsStayInside | scripts/agentic_os_runtime_source_contract.py:7412-7502 | every accepted target stays below the package root after any substitution |
| PackageMaps.ExportsMapTarget | scripts/agentic_os_runtime_source_contract.py:7461-7471 | what an exports value offers a subpath: itself, an exact member or the winning pattern, and nothing otherwise |
| PackageMaps.ExportTargets | scripts/agentic_os_runtime_source_contract.py:7486-7502 | the accepted targets of a subpath are those the conditions select from the target the map offers, all valid; there are none without one exactly when nothing is offered |
| TargetRules.SelectionRules | scripts/agentic_os_runtime_source_contract.py:7372-7389 | the selected texts are exactly those at the ends of the paths through list items and active members, each member the first active one from which a non-empty text is reached, in the order of the paths |
| TargetRules.ReplaceRules | scripts/agentic_os_runtime_source_contract.py:7412-7414 | replacing a character puts the replacement at every place where splitting at it cuts |
| TargetRules.SplitRules | scripts/agentic_os_runtime_source_contract.py:7405 | splitting cuts at every such character and at no other place |
| TargetRules.SubstituteRules | scripts/agentic_os_runtime_source_contract.py:7412-7422 | substitution keeps the shape of a target and replaces every star of each text |
| TargetRules.MatchRules | scripts/agentic_os_runtime_source_contract.py:7425-7437 | a key matches exactly when the requested key is the key with something in place of its first star, and that is the replacement |
| TargetRules.WinnerRules | scripts/agentic_os_runtime_source_contract.py:7438-7440 | among matching keys the longest beginning wins, then the longest key |
| TargetRules.ValidTargetRules | scripts/agentic_os_runtime_source_contract.py:7392-7409 | a target is valid exactly when it starts with a dot and a slash, has no percent sign, question mark or hash, and none of its segments is empty, a dot, two dots or node_modules |
| TargetRules.ExportKeyRules | scripts/agentic_os_runtime_source_contract.py:7461-7462 | the package itself is asked for by a dot, a subpath behind a dot and a slash |
| Delimiters.MatchersAgree | scripts/agentic_os_runtime_source_contract.py:3301-3454 | on a bracket pair, whatever surrounds it, the mixed-depth, single-kind forward, single-kind backward and stack matchers name the same pair |
| Delimiters.PairUnique | scripts/agentic_os_runtime_source_contract.py:3365-3436 | an opener has one partner |
| Delimiters.EveryBracketPaired | scripts/agentic_os_runtime_source_contract.py:3365-3436 | in well-nested text every bracket belongs to a pair |
| Delimiters.MatchersDisagreeUnbalanced | scripts/agentic_os_runtime_source_contract.py:3301-3454 | off well-nested text they part ways |
| DelimiterLaws.SingleKindScansAgree | scripts/agentic_os_runtime_source_contract.py:2151-2166 | on any text the single-kind forward and backward scans name the same partners |
| DelimiterLaws.StackFindsIff | scripts/agentic_os_runtime_source_contract.py:3301-3362 | where no closer in between is ignored, the stack before a closer is that before an opener with the opener on top exactly when the two enclose well-nested text |
| DelimiterLaws.ForwardFindsIff | scripts/agentic_os_runtime_source_contract.py:3365-3436 | under the same condition the mixed-depth scan finds the closer exactly when the two enclose well-nested text |
| DelimiterLaws.AgreementOffNesting | scripts/agentic_os_runtime_source_contract.py:3301-3454 | on `(])` all four scans name the round brackets though they enclose no well-nested text, and the closer in between is ignored |
| ViewDelimiters.MatchingDelimiterIndex | scripts/agentic_os_runtime_source_contract.py:3365-3436 | walking a text whose quotes and slashes stand in plain literals, from a bracket of its code, gives what the scan of the code alone gives: the closer of every pair |
| ViewDelimiters.DelimiterStackAt | scripts/agentic_os_runtime_source_contract.py:3301-3362 | the stack is that of the code alone, wherever the walk stops |
| ViewDelimiters.MatchingOpenerIndex | scripts/agentic_os_runtime_source_contract.py:3440-3454 | the stack's top, confirmed by the forward scan, is the opener of every pair of the code; nothing is named for a bracket inside a literal |
| ViewDelimiters.SkipTemplate | scripts/agentic_os_runtime_source_contract.py:3824-3844 | the walk over a template without substitutions ends behind its closing backquote |
| TokenDelimiters.MatchingTokenEnd | scripts/agentic_os_runtime_source_contract.py:5955-5964 | the scan over given tokens is the single-kind forward scan from the token at the index |
| TokenDelimiters.MatchingEnd | scripts/agentic_os_runtime_source_contract.py:5951-5964 | refused as the lexer refuses the text; otherwise it names the end of the partner of every opener that starts at the index |
| TokenDelimiters.MatchingOpenIndex | scripts/agentic_os_runtime_source_contract.py:2151-2166 | nothing for what is no closing bracket; otherwise the text up to the bracket is lexed, refused as the lexer refuses it, and scanned back |
| TokenDelimiters.BackwardFindsOpenerIff | scripts/agentic_os_runtime_source_contract.py:2158-2166 | on a pair of tokens the scan back names the opener exactly when the pair is not a block with the end of a substitution inside, and otherwise only openers further out |
| TokenDelimiters.TokenScansAgreeIff | scripts/agentic_os_runtime_source_contract.py:2151-2166 | for a pair of tokens of an accepted text the backward matcher fails exactly inside a substitution, and names the opener exactly when it is outside and no substitution ends inside a pair of braces |
| TokenDelimiters.PlainTokenScansAgree | scripts/agentic_os_runtime_source_contract.py:2151-2166 | in an accepted text whose tokens end no substitution it names the opener of every pair |
| LexerPrefix.CutLexes | scripts/agentic_os_runtime_source_contract.py:2157 | lexing a text up to a closing bracket gives exactly its tokens up to there, or fails exactly when the bracket stands inside a substitution or ends one |
| LexerExamples.PairInSubstitutionFails | scripts/agentic_os_runtime_source_contract.py:832-833 | the backward matcher fails on the round brackets of `${(a)}` in a template |
| LexerExamples.BlockOpenerIsMissed | scripts/agentic_os_runtime_source_contract.py:2158-2166 | it names nothing for the braces around a template with a substitution |
| Lexer.Scanner.ParseIdentifier | scripts/agentic_os_runtime_source_contract.py:996-1046 | the parsed name is spelled by the text up to the returned index, escapes decoded, and is maximal; none exactly for a digit start |
| Lexer.Scanner.QuotedString | scripts/agentic_os_runtime_source_contract.py:707-724 | accepted exactly when an unescaped quote comes before a line end, with an escaped CRLF as one continuation; then one string token up to that quote is appended |
| Lexer.Scanner.LineComment | scripts/agentic_os_runtime_source_contract.py:654-664 | appends one comment token up to the line terminator or the end of the text |
| Lexer.Scanner.BlockComment | scripts/agentic_os_runtime_source_contract.py:665-674 | refused exactly when the comment is not closed; otherwise one token up to the first close is appended |
| Lexer.Scanner.RegexLiteral | scripts/agentic_os_runtime_source_contract.py:758-781 | accepted exactly when a slash outside classes and escapes comes before a line terminator; then one token up to the end of its flags is appended |
| Lexer.Scanner.WithinForHeader | scripts/agentic_os_runtime_source_contract.py:619-632 | true exactly when the last parenthesis left open heads a `for` or `for await` |
| LexerSlashes.RegexIffOperandWanted | scripts/agentic_os_runtime_source_contract.py:729-757 | a slash token of an accepted text is a regexp exactly when the code tokens before it ask for an operand, and none stands where they leave that in doubt: after `)`, `}` or an angle, after a contextual word, or after a value and a line break |
| Lexer.Scanner.Slash | scripts/agentic_os_runtime_source_contract.py:729-787 | a slash is refused exactly in doubt or for an unterminated regexp, and its token keeps every token in context |
| Lexer.Scanner.Template | scripts/agentic_os_runtime_source_contract.py:599-616 | a template without substitutions is exactly one token; otherwise the first piece stops at the first substitution, every substitution is closed, and the last piece ends with the backquote returned behind; refused when its first piece never ends |
| Lexer.Scanner.Angle | scripts/agentic_os_runtime_source_contract.py:675-706 | an angle bracket is refused, an intrinsic or punctuation exactly as what stands before it, the tag and the type parameters after it say; context is kept |
| Lexer.Scanner.Code | scripts/agentic_os_runtime_source_contract.py:634-834 | code is refused exactly when, and for the error with which, the machine over position, tokens and open frames is; accepted code is tiled by well-formed tokens with only blanks between, each in its context; nested code closes exactly the substitution it was called for |
| Lexer.Scanner.Tokens | scripts/agentic_os_runtime_source_contract.py:586-837 | tokens or refusal are exactly those of the machine `LexerMachine.Lex`; the tokens of an accepted text tile all of it, each spells its own text, each slash and each intrinsic stands in the context it needs, and every substitution is closed |
| LexerRules.MarkRules | scripts/agentic_os_runtime_source_contract.py:809-818 | in every accepted text marks are as long as they can be: two single ones that touch never spell `++`, `--`, `=>` or `?.`, and a longer one is one of these or opens a substitution |
| LexerRules.SlashAfterStepDivides | scripts/agentic_os_runtime_source_contract.py:729-757 | after `++` or `--` a slash is a division |
| LexerRules.SlashRules | scripts/agentic_os_runtime_source_contract.py:729-757 | a slash token is a regexp exactly at the start, behind one of the listed operator marks or the opening of a substitution, or behind one of the listed words that follows no member operator |
| LexerRules.ReadingRules | scripts/agentic_os_runtime_source_contract.py:729-757 | regexp, division or refusal from the two tokens before at the same level, a line end, and whether the innermost open parenthesis heads a `for` |
| LexerRules.TagRules | scripts/agentic_os_runtime_source_contract.py:676-690 | where a tag may come: at the start, behind the listed marks and words, or on a new line |
| LexerRules.AssertionRules | scripts/agentic_os_runtime_source_contract.py:819-828 | when an exclamation mark is an assertion: behind a literal, a closing mark, a step, or a word that is none of the listed ones |
| TextRules.CharacterRules | scripts/agentic_os_runtime_source_contract.py:986-993 | letters, figures, words, hexadecimal digits and line terminators by code point |
| TextRules.BlankRules | scripts/agentic_os_runtime_source_contract.py:642 | white space by code point, and the byte order mark |
| TextRules.StripRules | src/agentic_os/budgets.py:137-141 | stripping cuts white space off both ends until none is left there |
| TextRules.HexRules | scripts/agentic_os_runtime_source_contract.py:1017 | hexadecimal digits stand for a number, the last one worth one and each earlier one sixteen times the next |
| TextRules.EscapeRules | scripts/agentic_os_runtime_source_contract.py:996-1026 | an identifier escape gives exactly the character its hexadecimal digits denote, when that is an ASCII word character |
| TextRules.DecodedIsEscape | scripts/agentic_os_runtime_source_contract.py:996-1026 | and nothing else is decoded |
| TextRules.SelfClosingRules | scripts/agentic_os_runtime_source_contract.py:693 | an intrinsic is exactly an angle bracket, a lowercase tag name, spaces and a self-closing end |
| TextRules.ArrowRules | scripts/agentic_os_runtime_source_contract.py:694-697 | a generic arrow is exactly a list of ASCII names with commas and spaces between, an angle bracket, spaces and an opening parenthesis |
| LexerTheorems.TilesAreOrdered | scripts/agentic_os_runtime_source_contract.py:586-829 | tokens are in order and disjoint, and everything before, between and after them is whitespace or a byte order mark |
| LexerTheorems.EveryCharacterIsOwned | scripts/agentic_os_runtime_source_contract.py:586-829 | every other character lies in a token |
| LexerTheorems.TokensOverrunIff | scripts/agentic_os_runtime_source_contract.py:996-1026 | some token ends beyond the text exactly when the last token is a name and the text stops inside a four-digit escape; only the last token can |
| LexerTheorems.TokensInBounds | scripts/agentic_os_runtime_source_contract.py:996-1026 | a text that does not end inside a four-digit escape has every token in bounds |
| LexerTheorems.ShortEscapeTextOverruns | scripts/agentic_os_runtime_source_contract.py:1009-1011 | every tiling of a text that is one short escape of a letter overruns it |
| LexerTheorems.ShortEscapeExample | scripts/agentic_os_runtime_source_contract.py:1009-1011 | a text of four characters with a token that ends at six |
| LexerTheorems.NoTokenSplitsAWord | scripts/agentic_os_runtime_source_contract.py:586-829 | no token stops between letters, digits or a backslash and a letter or digit |
| ScanView.StripComments | scripts/agentic_os_runtime_source_contract.py:975-983 | comments become blanks, line terminators, offsets and everything else stay |
| ScanView.CanonicalNames | scripts/agentic_os_runtime_source_contract.py:944-955 | identifiers outside ASCII get fresh local names with the lowest free counters in their order, and the search for a free counter ends |
| ScanView.RenamingIsInjective | scripts/agentic_os_runtime_source_contract.py:944-955 | renaming never merges two identifiers |
| ScanView.SpliceNames | scripts/agentic_os_runtime_source_contract.py:969-972 | splicing from the last token to the first gives the text in which every identifier is replaced and nothing else |
| ScanView.ScanView | scripts/agentic_os_runtime_source_contract.py:924-972 | the view is the marked text with names spliced in; there is none exactly when an erased span runs past the text |
| ScanRules.KeptRules | scripts/agentic_os_runtime_source_contract.py:940-942 | erasing drops exactly the tokens that start in a span |
| ScanRules.IdentifierRules | scripts/agentic_os_runtime_source_contract.py:943 | the names to consider are exactly those of the identifier tokens that are kept |
| ScanRules.DecimalRules | scripts/agentic_os_runtime_source_contract.py:950 | a counter is written with the figures that stand for it and without a leading zero |
| ScanRules.HeldCharacterRules | scripts/agentic_os_runtime_source_contract.py:935-968 | each character of a kept token is blanked, replaced or left as its kind says: a division becomes `*`, a literal `0`, a substitution a pair of parentheses |
| ScanRules.FreeCharacterRules | scripts/agentic_os_runtime_source_contract.py:935-939 | any other character is blanked exactly inside a span and unless it ends a line |
| ScanRules.ViewRules | scripts/agentic_os_runtime_source_contract.py:969-972 | the view is the tokens one after another with the marked text between them; an identifier stands there by its value if that is ASCII, else by an ASCII local name that no identifier bears |
| ScanView.ViewShowsNoLoudCode | scripts/agentic_os_runtime_source_contract.py:924-972 | every slash, quote and backquote of the view comes from a string or a static template literal |
| ViewScans.ViewIsPlainlyQuoted | scripts/agentic_os_runtime_source_contract.py:924-972 | the strings and static templates of the text stand in the view as they are, apart from each other, and hold all its quotes, backquotes and slashes |
| ViewLiterals.LiteralsAreTokensIff | scripts/agentic_os_runtime_source_contract.py:586-837 | an accepted text of that kind has each of these literals as one token exactly when no comment runs into one |
| ViewScans.ViewIsLexedInStep | scripts/agentic_os_runtime_source_contract.py:2157 | so a view that is lexed again shows each of its literals as a token exactly when no comment runs into one, and then no substitution is left |
| ViewScans.ViewScansAgree | scripts/agentic_os_runtime_source_contract.py:2144-2166 | over such a view the backward matcher names the opener of every pair of tokens |
| ViewExample.ViewMayHoldSubstitution | scripts/agentic_os_runtime_source_contract.py:924-972 | a text of twenty characters without substitutions whose view, lexed again, has one |
| SoakTheorems.AppendIff | src/agentic_os/heartbeat_shadow.py:1495-1713 | a running receipt takes exactly the valid, spaced samples within the bounded window that do not straddle the deadlines, and becomes failed, complete or running accordingly |
| SoakRules.AppendRules | src/agentic_os/heartbeat_shadow.py:1495-1713 | a running receipt takes exactly the legal samples one to two intervals of so many seconds after the last one and at most one after the promised hours, not past those on one clock alone; it fails with a failing one, completes with a passing one past the hours, and goes on before |
| SoakRules.CompleteIsPastBothEnds | src/agentic_os/heartbeat_shadow.py:1694-1698 | the last sample of a complete receipt lies at least hours times 60 times 60 times 1000 milliseconds after the start on both clocks |
| SoakRules.CompletionMeansThePromisedHours | scripts/heartbeat-shadow-soak-monitor.py:1627-1694 | so does the last sample behind every certified completion envelope |
| SoakRules.CompletedSoakCoversItsHours | src/agentic_os/heartbeat_shadow.py:1693-1700 | every instant of the promised hours lies within one interval of a passing sample, in milliseconds |
| SoakRules.CompletedSoakCoversMonotonicHours | src/agentic_os/heartbeat_shadow.py:1693-1700 | the same on the monotonic clock |
| SoakRules.ReceiptRules | src/agentic_os/heartbeat_shadow.py:1576-1713 | a receipt is valid exactly for 24 to 72 hours, intervals of 60 to 3600 seconds, samples that are legal, in time and before the limit, and a status that fits them |
| SoakRules.DueRules | scripts/heartbeat-shadow-soak-monitor.py:2654-2697 | the wait ends one to two intervals after the last sample on both clocks |
| SoakRules.RecordedSampleRules | src/agentic_os/heartbeat_shadow.py:1335-1377 | a recorded sampling reports the rows it saw, and a violation exactly when it found something |
| SoakRules.UnrecordedSampleRules | scripts/heartbeat-shadow-soak-monitor.py:2373-2406 | a sample without a snapshot fails with one violation, nothing observed and no earlier error |
| SoakRules.LedgerRules | scripts/heartbeat-shadow-soak-monitor.py:2210-2256 | the ledger check with samples accepts exactly backed entries of distinct instants that name the samples one by one, with at most one later entry where allowed |
| SoakRules.BareLedgerRules | scripts/heartbeat-shadow-soak-monitor.py:2210-2256 | and without samples exactly backed entries of distinct instants |
| SoakRules.BindingRules | scripts/heartbeat-shadow-soak-monitor.py:2166-2207 | an unobserved sample is bound to nothing, an observed one to its only entry if that is backed and names it |
| SoakRules.ChainRules | scripts/heartbeat-shadow-soak-monitor.py:812-848 | each link of an exact chain signs its index, sample, binding and the signature before |
| SoakRules.SealRules | scripts/heartbeat-shadow-soak-monitor.py:1627-1694 | the seal signs receipt, ledger and chain as they are |
| SoakRules.EnvelopeCounts | scripts/heartbeat-shadow-soak-monitor.py:1627-1694 | an envelope that does not fail closed counts the receipt's samples and one snapshot for each |
| SoakRules.FailingClosedCounts | scripts/heartbeat-shadow-soak-monitor.py:1627-1694 | failing closed is always possible and counts what is valid |
| SoakRules.StoppingIsSupportedIff | scripts/heartbeat-shadow-soak-monitor.py:1627-1694 | a stop is announced exactly for a valid receipt and a backed ledger that matches it, where there are any |
| SoakTheorems.CountGuardIsImplied | src/agentic_os/heartbeat_shadow.py:1546-1550 | spacing and the bounded deadline already imply the sample-count guard |
| SoakTheorems.CompletedSoakCoversItsWindow | src/agentic_os/heartbeat_shadow.py:1693-1700 | every wall-clock instant of a completed soak lies within one interval of a passing sample |
| SoakTheorems.CompletedSoakCoversMonotonicWindow | src/agentic_os/heartbeat_shadow.py:1693-1700 | the same on the monotonic clock |
| SoakTheorems.LedgerCheckIffRecorded | scripts/heartbeat-shadow-soak-monitor.py:2210-2256 | for any disk the ledger check accepts exactly ledgers that record the samples one to one, with at most one newer entry where allowed |
| SoakTheorems.ChainExactIffLinked | scripts/heartbeat-shadow-soak-monitor.py:940-986 | on recorded samples the chain check is exactly the link-by-link equation of payloads and signatures |
| SoakTheorems.TipDeterminesHistory | scripts/heartbeat-shadow-soak-monitor.py:843-848 | the last signature of a valid chain fixes every sample and link before it |
| SoakTheorems.CompletionIffOneToOne | scripts/heartbeat-shadow-soak-monitor.py:1627-1694 | for any disk the completion envelope is granted exactly when samples, chain and snapshots correspond one to one, sealed, past both deadlines |
| SoakTheorems.AcceptsRunningIff | scripts/heartbeat-shadow-soak-monitor.py:1655-1694 | for any disk a restart goes on with a running receipt exactly when chain and ledger are aligned with it |
| SoakTheorems.RestartResumesIffChainMatches | scripts/heartbeat-shadow-soak-monitor.py:945-973 | after any crash a restart resumes exactly when the chain is as long as the receipt, and otherwise the chain is one longer |
| SoakTheorems.SnapshotStage | scripts/heartbeat-shadow-soak-monitor.py:2333-2370 | every crash point of recording a snapshot keeps the disk resumable, loses no receipt and archives at most the unmatched trailing one |
| SoakTheorems.RecordStage | scripts/heartbeat-shadow-soak-monitor.py:2698-2719 | every crash point of recording a sample keeps alignment, and a completion envelope is never on disk without a one-to-one match |
| SoakTheorems.IterationIsCrashSafe | scripts/heartbeat-shadow-soak-monitor.py:2697-2719 | the same for a whole iteration, cut off anywhere |
| SoakTheorems.CrashAfterLinkIsFinal | scripts/heartbeat-shadow-soak-monitor.py:989-1020 | a process that dies between the link and the receipt of any accepted sample leaves a disk that no restart accepts |
| SoakTheorems.SnapshotSucceedsIff | scripts/heartbeat-shadow-soak-monitor.py:2064-2094 | the snapshot of a due sampling is recorded unless it cannot be made, its epoch is taken, the ledger cannot be written or an orphan cannot be archived |
| SoakTheorems.SampledOkIff | src/agentic_os/heartbeat_shadow.py:1341-1480 | the sample that results is a legal one exactly when unobserved row counts are the first error found, and passes exactly when nothing at all was found |
| SoakTheorems.PassingIterationProgresses | scripts/heartbeat-shadow-soak-monitor.py:2697-2719 | an undisturbed sampling in time always passes and is recorded, and the receipt is complete as soon as both deadlines have passed |
| SoakProcess.RestartsStayAligned | scripts/heartbeat-shadow-soak-monitor.py:2568-2719 | over any number of daemons, crashes and restarts, each step one list of writes cut off anywhere, alignment and certification hold and nothing recorded is lost |
| SoakProcess.StepKeeps | scripts/heartbeat-shadow-soak-monitor.py:2568-2719 | a boot, an iteration, an ending and a death each keep them |
| SoakProgress.TickIsStep | scripts/heartbeat-shadow-soak-monitor.py:2697-2719 | an undisturbed sampling in time is a step of the state machine, which goes on before the deadlines and ends behind them |
| SoakProgress.UndisturbedRunCompletes | scripts/heartbeat-shadow-soak-monitor.py:2568-2719 | a daemon that samples undisturbed from a resumed disk gains one passing sample each time, and past both deadlines its receipt is complete and its envelope a completion |
| SoakMonitor.Monitor.ValidateChain | scripts/heartbeat-shadow-soak-monitor.py:940-986 | accepts exactly an exact chain |
| SoakMonitor.Monitor.ValidateLedger | scripts/heartbeat-shadow-soak-monitor.py:2210-2256 | returns exactly the entries of the ledger check, or nothing |
| SoakMonitor.Monitor.ComposeEnvelope | scripts/heartbeat-shadow-soak-monitor.py:1627-1694 | gives the envelope the files support, or refuses; failing closed is never refused |
| SoakMonitor.Monitor.ArchiveOrphan | scripts/heartbeat-shadow-soak-monitor.py:2265-2315 | archives a snapshot once |
| SoakMonitor.Monitor.AppendSnapshotReceipt | scripts/heartbeat-shadow-soak-monitor.py:2333-2370 | makes exactly the specified writes in order, as many as the process lives to make |
| SoakMonitor.Monitor.AppendSampleAuthentication | scripts/heartbeat-shadow-soak-monitor.py:989-1020 | signs sample, snapshot and previous signature onto the chain, at the right index only |
| SoakMonitor.Monitor.TakeSample | scripts/heartbeat-shadow-soak-monitor.py:2064-2094 | takes a snapshot-bound sample, or a failed one when the snapshot cannot be made or recorded |
| SoakMonitor.Monitor.WaitUntilDue | scripts/heartbeat-shadow-soak-monitor.py:2654-2697 | ends, and every sampling instant is one to two intervals after the last sample on both clocks |
| SoakMonitor.Monitor.Run | scripts/heartbeat-shadow-soak-monitor.py:2568-2719 | started on any disk it ends, and its disks are a run of the state machine: it boots, samples and ends with exactly the writes the files, a stop request or a coverage gap call for; a disk it does not resume keeps all but its envelope, a resumed one is aligned, certified and complete in evidence however the process ends; exit code 2 goes with a failure, 0 with a completion or a stop |
| SoakMonitor.Monitor.FirstSample | scripts/heartbeat-shadow-soak-monitor.py:2413-2454 | a start makes exactly the writes of a snapshot, receipt, sample file and link in that order, cut off where the process dies; a completed one leaves one matched sample, and no other is ever resumed |

## Left out

- SQLite connections, file modes, schema verification, service-level query texts and triggers: other modules; they appear as `Verdicts`.
- Clock trust conditions, hashing and the wording of errors: a clock row is trusted or absent, a hash is its input, an error is its exception class.
- An absent text and an empty text are one case, as every caller treats them.
- JavaScript capability recognizers and specifier resolution: they are the `Tree` oracle of the closure; symlinks and the sorting of the result are left out.
- SourceClosure.RuntimeSourcePaths: returns the paths as a set, because sorting them adds nothing.
- Node refuses an exact match of a key that contains a star; the program does not, and the model follows the program.
- ViewDelimiters.MatchingDelimiterIndex: asks for an opener of the code, and like the scanners beside it takes a text whose quotes and slashes stand in plain literals, as in a scan view; comments, regexps and substitutions, which such a text does not have, are left out.
- Type-alias recognition: a list of token spans given to `ScanView.ScanView`; the order of sorted identifiers is a parameter too.
- The second decoding of identifier escapes that a view goes through before the token matchers (`scripts/agentic_os_runtime_source_contract.py:5269`): a view spells its names out already.
- SoakTheorems.AppendIff: the five violation counters and the five row counts are one number each, and timing is the authenticated one of the config.
- Envelope fields other than status, violation and counts, and files that exist but do not parse: assembly and I/O.
- SoakMonitor.Monitor.WaitUntilDue: the length of each pause is left out; only that the monotonic clock advances during it matters.
- Rollback, signals, git checks, stop-request authentication and the copy of the first sample file: plumbing around the protocol.
