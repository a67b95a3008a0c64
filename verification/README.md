# A verified model of the ledger, the brokerage and their guards

The system keeps customers' money and shares in an append-only double-entry journal. Transfers and trade fills post
to it concurrently; portfolios, statements, reconciliation and live announcements are all read back from it. This
project models those services in Dafny and proves what they promise each other: that concurrent runs are serial runs,
that no schedule overdraws an account or loses a share, that a retry posts once, that derived figures agree with the
journal, and that the checks and repairs around it check and repair what they claim.

Money is an integer count of ten-thousandths and shares an integer count of hundred-millionths; rounding is an
explicit half-even division (section 4.3.1 of IEEE 754-2008). Arithmetic is otherwise exact.

How the files build on each other:

| file | what it holds |
|---|---|
| `Basics.dfy` | options, results, weighted sums, ascending id lists |
| `Money.dfy` | decimals, quantization, half-even rounding |
| `Journal.dfy` | accounts, entries, the line table, balances, the reconciliation scans |
| `Posting.dfy` | `post_entry`'s validation and `conserve_shares` |
| `Trading.dfy` | fill arithmetic; runs of trades on one holding |
| `Serial.dfy` | the ledger one call at a time, and what every serial run keeps |
| `Outcomes.dfy` | what a transfer and a fill come to, said of balances, holdings and entries alone |
| `Protocol.dfy`, `Interleavings.dfy`, `Guarantees.dfy` | concurrent transfers and fills: row locks, key index, commit and roll-back; the invariant; the theorems |
| `Portfolio.dfy` | holdings, cash, realized profit, total value |
| `Orders.dfy`, `Sweep.dfy`, `Placement.dfy`, `Bank.dfy` | orders, the matching sweep, placement, and the services as methods of one class |
| `Runs.dfy` | whole runs of those services over journal and orders |
| `Workers.dfy` | sweep workers, market fills, cancellations and rejections racing over orders |
| `Triggers.dfy`, `Backfill.dfy`, `Fingerprints.dfy` | deferred triggers against full scans; the two migrations that repair history |
| `Statements.dfy` | the calendar and monthly cash statements |
| `Sessions.dfy`, `Client.dfy` | refresh-token families on the server; one browser tab |
| `Races.dfy` | refreshes and placements taken apart into their steps |
| `Decimals.dfy` | decimal strings compared and displayed |

`Execute` in `Serial.dfy` is the pivot. The concurrent machine is proved equal to runs of `Execute`, the methods of
`Bank` are proved to do exactly what `Execute` does, and everything said about money is proved of `Execute` and
carried over.

Results about where a stronger statement fails, each with its exact condition or a concrete run:

- `conserve_shares` applied twice adds a second set of legs (`Posting.WrappedTwice`); one pass conserves an instrument
  exactly when the lines put no quantity on its non-holding accounts beforehand (`Posting.ConservedNet`).
- A holding can lose its whole basis to rounding and keep shares (`Holdings.SharesLeftBehind`), after exactly the
  sells that `Holdings.SellStrands` describes; such shares cannot be sold at any price. `Holdings.SellGoesThrough` says
  exactly which sells go through.
- The triggers queue only the new entry of an updated row, so a row moved between entries can leave its old entry
  broken (`Triggers.MovedRowEscapes`); `Triggers.ExactCheck` says what would have to be checked, a condition on the changes
  alone.
- An entry does not imply that its order reads FILLED, because a rejection is saved without looking
  (`Workers.RejectedAfterFill`); `Workers.WhenStatusLies` says exactly when. For the same reason a market order
  cancelled during its own fill ends FILLED (`Workers.CancelOvertaken`), possible exactly while that fill is under way
  (`Workers.OvertakenExactly`); a resting order never does.
- A page reload in the middle of a token refresh can make the tab present a rotated token and lose its session
  (`SingleTab.ReloadMidRefresh`); `SingleTab.HarmfulExactly` says exactly which reloads can, token expiry included, and
  with a single tab nothing else can (`SingleTab.NeverMistakenForThief`).
- The blacklist alone does not keep a closed session's tokens out: a refresh under way when the session is closed still
  mints a successor (`RacingRefreshes.SuccessorEscapes`, exactly when in `RacingRefreshes.EscapesExactly`). The session
  check does (`RacingRefreshes.FamilyDiesRacing`).
- Two equal keyed placements at once are not both told of the order (`RacingPlacements.EqualsCollide`); who is told what
  is `RacingPlacements.RaceOutcome`.

Where the repository's comments and its code differ the model follows the code. The comment in
`frontend/src/auth/AuthProvider.tsx` says a transient failure keeps the refresh token; `sendWithRefresh` in
`frontend/src/api/client.ts` clears the session on any failure of the refresh or of the retried request, and so does
the model. The comment on `_blacklist_family_refresh_tokens` says the refresh path would stay dead without the session
check; with a refresh under way it would not, as above. The docstring of `AccountQuerySet` says a closed period's answers are stable; that is proved here for
postings stamped at or after its end and for the backfill.

## Model

| member | source | states |
|---|---|---|
| Money.RoundNearest | backend/common/money.py:20-37 | quantization is to a nearest multiple, ties to even |
| Money.QuantizeIgnoresZeros | backend/ledger/fingerprints.py:22-27 | amounts that differ only in trailing zeros quantize alike, so they are one request |
| Money.ProRataWithin | backend/trading/services.py:395-398 | the rounded pro-rata cost of part of a holding is never negative and never exceeds its basis |
| Money.QuantizeNegated | backend/ledger/onboarding.py:94-108 | rounding has no bias of sign: the two legs of a movement still cancel once quantized |
| Money.QuantaAre | backend/common/money.py:10-37 | a numeral quantizes to the nearest ten-thousandth for money and hundred-millionth for shares, ties to even, whatever its own places |
| Posting.CheckLines | backend/ledger/services.py:90-146 | accepts exactly the lines that satisfy every posting rule, returns them quantized, and otherwise names a rule that is really broken |
| Posting.CheckShares | backend/ledger/services.py:131-146 | the running per-instrument totals find an instrument off balance if and only if there is one |
| Posting.ConserveShares | backend/ledger/services.py:200-243 | one zero-amount leg per held instrument whose quantized net is not zero, after the given lines |
| Posting.AccumulateMoved | backend/ledger/services.py:222-231 | the `moved` dictionary holds each held instrument's quantized net, in order of first appearance |
| Posting.ConservedNet | backend/ledger/services.py:200-243 | wrapping keeps the money total and leaves each instrument off by exactly what the given lines put on its non-holdings |
| Posting.WrappedTwice | backend/ledger/services.py:223-226 | wrapping twice leaves each instrument off by exactly what its holdings moved |
| Trading.VerdictEffect | backend/trading/services.py:262-292 | a fill's effect on every account's money and shares: cash against basis, the residual to realized profit, shares against the contra |
| Trading.VerdictPostable | backend/trading/services.py:358-414 | fills are total: whatever the price, holding and balance, an accepted fill is an acceptable, balanced, share-conserving entry, break-even sells included |
| Trading.BuyConserved | backend/trading/services.py:276-292 | the buy builder wrapped by `conserve_shares` and quantized is exactly the three-line posting |
| Trading.SellConserved | backend/trading/services.py:276-292 | the sell builder wrapped and quantized is exactly the three- or four-line posting |
| Holdings.FillKeepsTidy | backend/trading/services.py:358-414 | every fill keeps shares and basis non-negative, closed holdings at zero basis, and basis and profit accounted for by what was paid, removed and received |
| Holdings.NoDust | backend/trading/services.py:376-384 | over any run of trades zero shares means zero basis, and a closed position's realized profit is proceeds minus purchases with nothing left over |
| Holdings.SellGoesThrough | backend/trading/services.py:389-404 | a sell goes through if and only if there are enough shares, the proceeds do not round to zero and the cost does not vanish |
| Holdings.CanClose | backend/trading/services.py:394-404 | a full exit goes through if and only if the proceeds do not round to zero and basis is left |
| Holdings.StuckWithoutBasis | backend/trading/services.py:400-404 | a holding whose basis has been rounded away can never be sold |
| Holdings.SellStrands | backend/trading/services.py:395-398 | an accepted sell leaves shares without basis if and only if what it should leave is under half a quantum, or exactly half with an even basis |
| Holdings.StrandedExactly | backend/trading/services.py:389-414 | after any run, shares are left without basis if and only if the last trade was such a sell |
| Holdings.SharesLeftBehind | backend/trading/services.py:395-404 | a concrete run that keeps shares at zero basis |
| Holdings.DriftBound | backend/trading/services.py:395-398 | after k sells without a buy the basis is within k/2 quanta of the exact pro-rata figure |
| Reconciliation.CleanReport | backend/ledger/reconciliation.py:42-118 | sound entries and non-negative asset accounts give an empty reconciliation report |
| Serial.SerialGood | backend/ledger/reconciliation.py:103-118 | after every serial run of onboarding, transfers and fills the report is empty, closed holdings carry no cost and keys are unique |
| Serial.KeyOrigin | backend/ledger/services.py:404-429 | a key is in the journal exactly when one call was told it created it, with that call's digest |
| Serial.ExactlyOnce | backend/ledger/services.py:278-346 | in a serial run one creator per key; later sound calls replay it if they ask for the same movement and conflict otherwise |
| Outcomes.TransferOutcome | backend/ledger/services.py:262-346 | a transfer is invalid exactly for no amount or one account; with no key or an unused one it goes through exactly when the source covers it, to the last unit, and then only the two balances move, by the amount, in an entry with the call's key, digest and instant; under a used key it replays or conflicts |
| Outcomes.NotionalIs | backend/trading/services.py:263 | the notional is price times quantity to the nearest ten-thousandth, ties to even |
| Outcomes.FillOutcome | backend/trading/services.py:247-414 | a fill with its key unused goes through exactly when the notional is positive and a buy's cash covers it, or a sell has the shares and a cost that does not vanish, each refusal with its one reason; then exactly the ordered shares and that notional change hands, account by account |
| Interleavings.AlwaysInv | backend/ledger/services.py:291-330 | every interleaving keeps the lock, key-index, knowledge, history and report invariants of the protocol |
| Guarantees.Serializable | backend/ledger/services.py:291-346 | every interleaving of transfers and fills, failures included, has the journal and the decisions of running the calls one at a time in commit order |
| Guarantees.RealTime | backend/ledger/services.py:291-346 | the serial order places a call that finished before another arrived ahead of it |
| Guarantees.AlwaysClean | backend/ledger/reconciliation.py:103-118 | in every reachable state the reconciliation report is empty: no imbalance, no overdraft, no short holding |
| Guarantees.OneCreator | backend/ledger/services.py:278-346 | under any race one call per key creates the entry; every other call that did not fail is answered from it if placed after the creator, and was refused for funds if placed before |
| Guarantees.RetryAnswered | backend/ledger/services.py:278-346 | a sound retry that arrives after the creator finished gets the same entry or a conflict, never a refusal, even if the source has been emptied since |
| Guarantees.ReplayHasCreator | backend/ledger/services.py:331-346 | whoever is told of a replay or a conflict is told about an entry some finished call created |
| Guarantees.NeverStuck | backend/ledger/services.py:387-401 | with rows locked in ascending order and the key index last, some unfinished call can always take a step |
| Guarantees.BoundedSteps | backend/ledger/services.py:291-346 | once arrivals stop every schedule ends within the steps the calls in flight have left |
| Guarantees.HonestReports | backend/ledger/services.py:317-369 | each committed entry was posted by an opening deposit or a call; the calls' entries, and only they, have one audit row of the right kind and one batch, naming the locked accounts with their balances at that commit; a call that reported no entry posted none |
| Portfolio.HoldingsFor | backend/trading/portfolio.py:72-115 | an account is listed if and only if it is a position of the user's that is not empty at the instant; each once, in table order, with shares and cost as of then and its value to the nearest quantum |
| Portfolio.PortfolioPage | backend/trading/portfolio.py:177-192 | holdings value, cost basis and unrealized profit are the sums of the listed holdings' own, cash is what the lines on the user's spendable accounts add up to, and total value is cash plus holdings value |
| Portfolio.CashByLine | backend/trading/portfolio.py:118-138 | cash summed by account is cash summed by line over the user's asset accounts without an instrument |
| Portfolio.RealizedCounts | backend/trading/portfolio.py:156-174 | a line counts exactly when it is on a realized-profit account of the user's and since <= at < until, with its sign turned |
| Portfolio.OmittedCarryNothing | backend/trading/portfolio.py:93-96 | skipping fully sold positions loses no cost basis |
| Portfolio.RealizedTiles | backend/trading/portfolio.py:141-174 | realized results of adjoining windows add up |
| Portfolio.WorthExplained | backend/trading/services.py:358-414 | cash plus cost basis plus the realized-profit account equals deposits plus net money received, after any serial run |
| Portfolio.TotalValueExplained | backend/trading/portfolio.py:177-192 | total value is deposits plus net received plus realized plus unrealized profit, after any serial run |
| LivePortfolio.TotalValueAlways | backend/trading/portfolio.py:72-192 | the same in every state any concurrent schedule reaches |
| Banking.Bank.PostEntry | backend/ledger/services.py:61-163 | appends exactly the quantized entry when it is acceptable and its key unused, otherwise changes nothing and says why |
| Banking.Bank.LockAccounts | backend/ledger/services.py:387-401 | takes each row once, in ascending order |
| Banking.Bank.Transfer | backend/ledger/services.py:246-346 | goes through, is refused, replays, conflicts or is invalid exactly as `Transferred` says of balances and entries; does what the serial call does, audits creations and replays, keeps the books in order |
| Banking.Bank.ReplayedEntry | backend/ledger/services.py:404-429 | nothing exactly when no entry bears the key; otherwise the one entry that does, replayed if its digest agrees and a conflict if not |
| Banking.Bank.OpenStarterAccounts | backend/ledger/onboarding.py:53-108 | opens Checking and Savings for the user, and for a positive deposit the equity account with one entry moving the deposit; refuses exactly the positive deposits that round to zero, leaving nothing behind |
| Banking.Bank.ExecuteFill | backend/trading/services.py:247-337 | trades exactly as `Traded` says, writes status, quantity, price and entry on that order alone; a refusal changes nothing |
| Trading.VanishesExactly | backend/trading/services.py:395-404 | the cost of a sell rounds to nothing exactly when twice basis times quantity is at most the holding, and otherwise never exceeds the basis |
| Banking.Bank.SellLines | backend/trading/services.py:373-414 | refuses exactly short holdings and vanishing costs; otherwise money sums to zero, the position loses exactly the shares sold and a cost in (0, basis], and there is a third line exactly when there is a gain or loss |
| Banking.Bank.FillLines | backend/trading/services.py:262-278 | builds exactly the lines the decision on the current journal calls for, or gives its reason |
| Banking.Bank.CheckAsk | backend/trading/services.py:137-156 | the argument checks refuse exactly the inactive instruments and the unacceptable requests |
| Banking.Bank.FindOrder | backend/trading/services.py:176-210 | finds the one order holding a retry token, whoever placed it |
| Banking.Bank.PlaceOrder | backend/trading/services.py:118-244 | comes to exactly what `PlacedAs` says of the request, the orders and the balances, and writes the matching audit rows |
| Banking.Bank.CancelOrder | backend/trading/services.py:417-443 | succeeds exactly on an open order and changes nothing else |
| Banking.Bank.RejectOrder | backend/trading/services.py:446-483 | overwrites the status whatever it was, touching nothing else |
| Banking.Bank.MatchOne | backend/trading/tasks.py:39-80 | skips a candidate untouched exactly when it is not open or the price is worse than its limit; otherwise trades it at the going price or rejects it with the fill's reason |
| Banking.Bank.MatchRestingOrders | backend/trading/tasks.py:23-36 | the pass over every order open at the scan is the fold of their turns |
| OrderBook.FillKeepsOrder | backend/trading/services.py:280-300 | a fill posted under its order's key and marked on it keeps journal and orders in agreement, for every other order too |
| OrderBook.FillsAreTotal | backend/trading/services.py:262-292 | with its order's key unused a fill is refused for one of the three business reasons and changes nothing, or posts one entry that passes validation and both triggers |
| Orders.LimitHonoured | backend/trading/models.py:139-149 | at a crossing price the notional is no worse than at the limit, rounding included |
| Orders.CrossesExactly | backend/trading/models.py:139-149 | an order crosses if and only if, whatever the quantity, the notional at the price is no worse than at its limit, or it has no limit |
| OrderBook.LimitKept | backend/trading/models.py:139-149 | the cash a filled limit order moved is no worse than its limit times its quantity, rounded |
| Placement.PlaceKeepsOrder | backend/trading/services.py:118-244 | placing keeps tokens unique and books in order on every path |
| Placement.PlaceOutcome | backend/trading/services.py:118-244 | placing gives the request's own error, the order already under its token or a conflict, or one new row with the request's user, instrument, accounts, side, quantized quantity and limit, resting if it has a limit and otherwise traded or rejected at once |
| Runs.RunKeepsDesk | backend/trading/services.py:118-483 | every run of deposits, transfers, placements, fills, cancellations and rejections keeps journal, orders and history in agreement, and order rows their ticket, token and digest |
| Runs.StepServes | backend/trading/services.py:118-483 | each step of a run is the service it stands for, in terms of balances, entries and order rows |
| Runs.PlacedOnce | backend/trading/services.py:176-210 | once a keyed request has created its order, after any run the same request returns it, any other acceptable one under its token conflicts, and nothing changes |
| RacingPlacements.RaceOutcome | backend/trading/services.py:182-214 | with lookup and insert apart, in every interleaving a token has one order at most, and each answered request gets its own row, the holder's row exactly when it asks for the same and the row was there at its lookup, or a conflict |
| RacingPlacements.EqualsCollide | backend/trading/services.py:203-214 | a run in which the same request sent twice at once is refused once |
| Sweep.SweepAlone | backend/trading/tasks.py:23-80 | a sweep alone at fixed prices resolves every crossing open order, leaves all others untouched, and its counts are the candidates' final states and add up |
| Sweep.SweepTakes | backend/trading/tasks.py:52-64 | an open order with a limit is resolved if and only if for every quantity the notional at the going price is no worse than at its limit; one without a limit always is |
| Sweep.TurnOutcome | backend/trading/tasks.py:39-80 | one turn leaves an order alone unless it is due, and otherwise trades it at the going price and its own time or rejects it with the fill's reason |
| Sweep.SweptInOrder | backend/trading/tasks.py:52-64 | the books stay in order turn after turn |
| Sweep.SweepHonoursLimits | backend/trading/models.py:139-149 | every limit order a sweep fills paid no more, or received no less, than its limit promised |
| Workers.OneFillEach | backend/trading/tasks.py:39-80 | in every interleaving an order has at most one entry, row and entry name each other, FILLED has an entry, open and cancelled have none |
| Workers.AlwaysInv | backend/trading/tasks.py:39-80 | every interleaving keeps row locks, key claims, order rows and entries in agreement, and a worker past its lock sees its order open |
| Workers.WhenStatusLies | backend/trading/services.py:446-460 | an order with an entry is not FILLED if and only if a rejection was saved after its entry existed |
| Workers.RejectedAfterFill | backend/trading/tasks.py:66-80 | a run in which a rejection lands on a filled order |
| Workers.CancelOvertaken | backend/trading/services.py:294-300 | a run in which a cancelled market order ends FILLED |
| Workers.OvertakenExactly | backend/trading/services.py:294-300 | a cancelled order can still become FILLED if and only if the request that placed it is filling, saving or committing |
| Workers.CancelHolds | backend/trading/services.py:424-428 | a resting order once cancelled is never filled |
| Triggers.CleanMeans | backend/ledger/share_conservation.py:109-131 | both full scans are silent if and only if every entry passes both triggers |
| Triggers.ExactCheck | backend/ledger/migrations/0009_entry_conserves_shares_trigger.py:31-63 | what COMMIT must check for any transaction: the queued entries pass, and from each entry robbed of rows without being queued the rows taken net to zero in money and per instrument |
| Triggers.TriggersRefineScan | backend/ledger/migrations/0002_entry_balanced_trigger.py:11-36 | if updates keep a row's entry, a transaction commits if and only if both full scans stay silent |
| Triggers.MovedRowEscapes | backend/ledger/migrations/0002_entry_balanced_trigger.py:17-21 | moving a row between entries can commit and leave the old entry unbalanced |
| Triggers.SilentMeansClean | backend/ledger/reconciliation.py:42-118 | the report is silent if and only if every entry balances and conserves shares, no asset account is overdrawn and no holding is short |
| Backfill.EnsureShareContras | backend/ledger/share_conservation.py:21-58 | afterwards every traded instrument has a system contra, nothing else changed, and the count is what was missing |
| Backfill.HistoryUnchanged | backend/ledger/share_conservation.py:61-106 | every balance as of every instant, and every holding's shares, are unchanged; each new row is dated like a row its entry already had |
| Backfill.GroupEffect | backend/ledger/share_conservation.py:73-104 | exactly what the backfill does to one group: nothing if it had a contra, otherwise one repayment per contra account |
| Backfill.RepairsExactly | backend/ledger/share_conservation.py:61-131 | afterwards no entry is unconserved if and only if each group was mendable and no cash line carries shares |
| Backfill.SecondRun | backend/ledger/share_conservation.py:93-102 | a second run inserts nothing, whatever the table was |
| Backfill.MigrationRepairs | backend/ledger/share_conservation.py:21-131 | the two steps together leave no unconserved entry |
| Fingerprints.BackfillEntryFingerprints | backend/ledger/fingerprints.py:126-175 | gives each keyed entry without a digest the one recoverable from it, and counts the rows changed |
| Fingerprints.BackfillRestores | backend/ledger/fingerprints.py:126-175 | erase the digests of any entries of a serial history with matching orders and the backfill puts back exactly what was there |
| Fingerprints.BackfillOrderFingerprints | backend/ledger/fingerprints.py:178-198 | gives each keyed order without a digest the one its own fields give, and counts the rows changed |
| Fingerprints.OrdersRestored | backend/ledger/fingerprints.py:178-198 | erase the digests of any orders and that backfill puts back exactly what was there |
| Runs.RunsRestore | backend/ledger/fingerprints.py:126-198 | both round trips after every run of the services, order table and journal matching by construction |
| Calendar.NextFirst | backend/statements/services.py:65-68 | one month's length after a first of the month is the next first, leap Februaries and Decembers included |
| Calendar.ExactlyOneMonth | backend/statements/services.py:37-55 | every instant lies in exactly one month |
| Calendar.PeriodIsMonth | backend/statements/services.py:37-68 | a period's bounds are its month's, and it ends at the instant the next month starts |
| Calendar.MonthLasts | backend/statements/services.py:37-68 | a month lasts its number of days, of twenty-four hours each |
| Calendar.DayBeforeIsOneDay | backend/statements/services.py:71-74 | the day before is the one date numbered one less; only 0001-01-01 has none |
| Calendar.PreviousMonthMeets | backend/statements/services.py:71-74 | the previous month ends at the instant this one starts |
| Statements.PeriodInOrder | backend/statements/services.py:300-312 | the lines selected are in (created_at, id) order, each once |
| Statements.BuildCashStatement | backend/statements/services.py:181-213 | the running total closes at the as-of balance, and each line carries its running balance |
| Statements.StatementAddsUp | backend/statements/services.py:99-121 | opening plus money in plus money out is closing, and the last line agrees |
| Statements.StatementsChain | backend/statements/services.py:292-297 | adjoining statements of any length meet at the as-of balance |
| Statements.MonthsTile | backend/statements/services.py:181-213 | each month opens where the last closed, at the as-of balance, and each line is on exactly one statement |
| Statements.StatementIsFinal | backend/accounts/models.py:34-54 | postings stamped at or after a statement's end never change it |
| Sessions.AuthServer.Refresh | backend/identity/serializers.py:200-231 | granted exactly for a signed, unexpired, unspent refresh token of a live session; then that token is spent for a new pair of the same session and user |
| Sessions.AuthServer.Authenticate | backend/identity/authentication.py:21-34 | lets in exactly signed, unexpired access tokens of live sessions |
| Sessions.AuthServer.IssuePair | backend/identity/serializers.py:108-123 | opens one live session and mints an access token good for fifteen minutes and a refresh token good for a day, bound to it |
| Sessions.AuthServer.Logout | backend/identity/serializers.py:234-265 | an acceptable token is spent and its live session closed, whichever rotation it came from; any other changes nothing |
| Sessions.AuthServer.BlacklistFamily | backend/identity/services.py:105-124 | the scan blacklists exactly the session's live refresh tokens |
| Sessions.AuthServer.RevokeSession | backend/identity/services.py:77-102 | the first revocation wins and takes the family with it; later ones change nothing |
| Sessions.AuthServer.HandlePossibleReuse | backend/identity/services.py:127-170 | reacts exactly to verified, blacklisted tokens of live sessions |
| Sessions.RunKeeps | backend/identity/services.py:105-124 | in every run token ids stay unique, and a closed session's refresh tokens are blacklisted or had expired |
| Sessions.FamilyDies | backend/identity/services.py:127-170 | after a replay no refresh or access token of that session is ever accepted again, whatever happens next |
| Sessions.AcceptanceIs | backend/identity/serializers.py:203-215 | what the theorems mean by accepting a token: signed, of its kind, unexpired, unspent for a refresh, and of a live session |
| Sessions.SignOutEnds | backend/identity/serializers.py:252-265 | after signing out nothing of the session is accepted by any later request, and the token, with a session or without, is accepted no more |
| Sessions.RefreshOutcome | backend/identity/serializers.py:200-231 | when a refresh is granted and what it leaves |
| Sessions.OthersUnaffected | backend/identity/services.py:105-124 | after a replay and any operations that present no token of another session, that session's tokens are accepted exactly as before |
| RacingRefreshes.FamilyDiesRacing | backend/identity/serializers.py:203-231 | the same with checks and rotation apart: in every interleaving a replay ends the session for every later check, refreshes already under way included |
| RacingRefreshes.EscapesExactly | backend/identity/services.py:105-112 | a closed session's token that the blacklist alone would let through, good for longer than the session, is exactly one minted by a refresh under way when the session was closed |
| RacingRefreshes.SpentIsStopped | backend/identity/serializers.py:206-222 | a spent token gets through neither check |
| RacingRefreshes.SuccessorEscapes | backend/identity/services.py:105-112 | a run in which such a token exists |
| RacingRefreshes.TwinSuccessors | backend/identity/serializers.py:217-222 | a run in which one token is spent twice, with two live successors and no alarm |
| SingleTab.NeverMistakenForThief | frontend/src/api/client.ts:76-104 | with any number of concurrent 401s, lost answers and other users, a tab not reloaded mid-refresh never presents a rotated token, and one not reloaded harmfully never trips reuse detection |
| SingleTab.HarmfulExactly | frontend/src/api/client.ts:96-104 | a reload can get the tab accused if and only if a refresh of the stored token is on the wire or served, its session is live and it has not expired, time never running backwards |
| SingleTab.AlwaysCalm | frontend/src/api/client.ts:76-104 | undisturbed, every token the tab holds, has sent or is about to be given is unspent |
| SingleTab.ReloadMidRefresh | frontend/src/api/client.ts:96-104 | a concrete run after which a reload is harmful |
| Decimals.TextComparesTruly | frontend/src/money.ts:86-116 | written numerals compare as the numbers they denote, at any length and any number of places |
| Decimals.PartsOfText | frontend/src/money.ts:42-53 | reading a written numeral finds its sign, its digits and its decimals |
| Decimals.SignOfText | frontend/src/money.ts:86-91 | the sign found is the sign of the number denoted, negative zero included |
| Decimals.TextDisplays | frontend/src/money.ts:61-71 | what is shown for a written numeral is its sign, dollars grouped in threes and two digits of cents, and reads as the number denoted rounded to the nearest cent, ties away from zero |
| Decimals.TextKeepsOrder | frontend/src/money.ts:61-71 | display never reverses an order |

## Left out

- Lazy creation of position, realized-profit and contra accounts (`get_or_create`): the accounts a fill touches are taken as existing and belonging to the right owner.
- Order-row locks in the transfer-and-fill protocol: `NeverStuck` is about account rows and the key index. The market path writes its order row after its account locks and the sweep locks it first, so the full lock graph has no single order. `Workers.dfy` models order rows for safety only.
- Implicit foreign-key share locks, lock timeouts and the database's own deadlock detector; isolation is READ COMMITTED with row locks and unique-index waits.
- Transfers from or to accounts other than spendable ones: both endpoints scope them to spendable accounts (backend/ledger/views.py:101-114, backend/trading/views.py:125-131), and the model's requests do too.
- Banking.Bank.PostEntry: the first broken rule and line are fixed by the contract, but not which of several unbalanced instruments is named.
- Banking.Bank.Transfer: stated for the spendable accounts both endpoints hand it; and its second key check, under the locks, is written out but a single-threaded method never sees it succeed: the race is in `Guarantees.OneCreator`.
- Protocol, Workers, RacingRefreshes, RacingPlacements and SingleTab are state machines over values, one action per database step or JavaScript task; `backfill_contra_lines` is one SQL statement and is modelled as a function on the table. Aliasing and update in place are not captured there.
- Banking.Bank.PlaceOrder: placements run one at a time here; two racing with one new token are in `RacingPlacements`, which follows the token only, not the fill.
- Client transfer keys that start with `order:`; client keys and fill keys are different constructors here.
- SHA-256 and the JSON encoding: a digest is the record of the fields it covers, so equal digests are equal requests.
- The 20-digit column limit and the 28-digit decimal context, which can round a very large `basis * quantity / held` once more: arithmetic is exact.
- `publish_transfer`, `publish_order` and the replay audit rows in the concurrent machine; balances, TRANSFER_POSTED and ORDER_FILLED are there. Delivery after commit can still fail.
- Guarantees.OneCreator: a call that failed on the way is told nothing.
- Brokerage statements, period-end prices and PDF rendering; the as-of holdings and the realized window they read are modelled.
- The user-is-active check inside the token library's own refresh and authentication; users are taken as active.
- Sessions.FamilyDies: requests are atomic here; `RacingRefreshes` takes refreshes apart, with reuse handling and logout still one step each, and "later" means a check made after the replay was handled.
- Several tabs sharing one stored token, signing out with an expired access token, and the blocked-storage fallback of the token store.
- Price simulation, encryption, one-time passwords, account numbers, throttling, views, sockets, seeds and deployment.
- `formatQuantity`, `toChartNumber` and the other members that would only add easy facts.
