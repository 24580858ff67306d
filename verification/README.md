# The market ledger, modelled and proved

fc-markets keeps an append-only ledger of market prices. A run asks a provider for
prices, archives every response unread, validates each quote against three rules, and
stores what held. A replay reads the payloads of one run again and swaps that run's
rows for what they say now. Everything else, from the trusted prices to the claims the
system makes and the scores it gives them, is derived from those rows and an instant.

This project models that system in Dafny and proves what it promises, over every
run, every crash point and every input. Where a promise fails, it says exactly when,
and reaches the input by a short execution.

## How it is laid out

| files | what they hold |
|---|---|
| `Sets`, `Text`, `Sorting`, `Calendar` | cardinality, text order and padded numerals, ORDER BY, the Gregorian calendar |
| `Domain`, `Quotes`, `ObjectKeys`, `Ledger`, `Reading`, `Spend`, `Coverage`, `Catalogue` | the vocabulary, the tables as values, and what each statement makes of them |
| `Machine` | the ledger as one state machine: every action is one atomic effect, and `Crash` may fall between any two |
| `Bookkeeping`, `Provenance`, `Identity`, `DailyBudget`, `PollCache` | what every reachable state keeps |
| `ReplayTheory`, `ReplayFidelity`, `StrandedRows` | what a replay loses, adds, repeats and leaves behind |
| `Scheduler`, `TrustedRounds` | which identifiers are read, how long one can wait over healthy runs of the machine, and why what is read in time stays trusted |
| `Trust`, `Valuation`, `Picks`, `Scores` | the trusted prices as of an instant, the class median, claims and their scores |
| `Database`, `Ingest`, `IngestPrices`, `PriceRounds`, `Replay`, `Discovery` | the server's own code: classes changed in place, loops, and the price loop and the replay as executions of the machine |
| `Trace` | one lemma per action of an ingest run |
| `Examples` | short executions that reach the inputs the failed properties fail on |
| `Events`, `Resumption`, `Backup`, `BackupLoop` | market events, incremental discovery, database dumps and their timer |

The code that changes state is written as it is in the server: classes whose fields
are reassigned, loops with invariants. Each such method is proved against a function
or relation on values, and the theorems are proved about those.

The provider, the bucket and the database's availability are arguments: a fetch
answers, refuses or fails; a put may fail and may have stored its object all the
same; a transaction commits or not. `parse` and the folding of a name are arbitrary
functions that do not change during an execution.

## Where the code and what it says disagree

The model follows the code in each case.

- A comment says a run's claims reason about the prices the run just read
  (`apps/server/src/ingest/predict.rs:7`). They are dated at the run's start, so they
  cannot see them: `Picks.ClaimsIgnoreTheirOwnRun`.
- Ordering by observation time and source is meant to give one answer. Two prices
  stated by one source at one instant tie, because price is part of the key:
  `Trust.TrustedIsDeterminedIff`, reached in `Examples.TwoAnswersAreReachable`.
- Replay is meant to reproduce the verdicts of the original run
  (`apps/server/src/ingest/mod.rs:531-534`). It does so for timestamps and prices, but
  it checks names against the one held today. A quote that named a card X while no name
  was held is stored, the card may then be described as Y, and a replay drops the row:
  `ReplayTheory.OwnedRowSurvivesIff`, reached in `Examples.ARowLostToANameIsReachable`.
  With the folded names as they were when the rows were written, nothing is lost:
  `ReplayFidelity.ReplayLosesNothingUnderTheSameNames`.
- A row that survives a replay keeps every column but its run and its import time:
  `ReplayTheory.ReplayReproducesRows`. The new import time changes what past instants
  answer, and exactly when the replayed run owned a newest known price of a live pair:
  `Trust.ReplayKeepsTheAnswersIff`. The pair may have no price left there, or silently an
  older one: `Examples.AForgottenPastIsReachable`, `Examples.AnOlderPriceIsReachable`.
- A replay records its keys as it closes. Its rows can be replayed again exactly if it
  did: killed after the swap, or unable to close, it leaves rows no replay can reach:
  `StrandedRows.ReplayableIff`, `StrandedRows.KilledBeforeClose`, reached in
  `Examples.AStrandedRowIsReachable`. Until it closes, none of its own recorded payloads
  vouches for its rows either: `Provenance.ProvenanceAtEveryCrashPoint`.
- The budget is daily, but a run that opens before midnight and reads the spend after
  it overspends its day: `DailyBudget.OpeningLeavesRoomIff`,
  `DailyBudget.ARunAcrossMidnightOverspends`.
- The metadata step records itself done when nothing was outstanding, and also when
  the run had no budget left to look: `Discovery.RefreshMetadata`,
  `Discovery.FlaggedWithNothingDone`.
- A name that cannot be read should not count as a fresh dump, and does not. One that
  sorts last hides every other dump, and then no dump is ever recent enough to wait
  for: `BackupLoop.NewestIsReadIff`.
- A corrected event should replace and not duplicate. An event corrected twice is live
  twice: `Events.OneLiveRowIff`, and nothing refuses the second correction:
  `Events.CorrectTwice`.
- A ratio is described as missing when a class is too thin. It is also missing for
  every card without a rating: `Valuation.RatioMissingIff`, `Valuation.FiveUnratedCards`.
- An identifier inserted below the highest one held is said to be invisible to the walks
  after the watermark. That holds of walks begun since: `Resumption.MissedForEver`. One
  already under way counts its pages by position and may still come across it:
  `Resumption.AWalkUnderWayMayFindIt`.
- A provider identifier that is not a number is skipped by the watermark query. One
  that is a number too large for a 64-bit integer fails it: `Catalogue.IsWatermark`,
  met by `Database.Database.HighestExternalId`,
  `Catalogue.OneLargeIdentifierFailsTheWatermark`.

## Model

| member | source | states |
|---|---|---|
| Domain.PollIntervalSeconds | apps/server/src/domain.rs:127-182 | every tier is positive, at most the slowest, and one tier plus a slowest band fits the trust window |
| Domain.Validate | apps/server/src/ingest/mod.rs:721-749 | a quote is accepted exactly when a name it states folds as the one held does, if that one is not empty, its price is positive, and its instant lies between the release and five minutes past the start; then with its own price and instant; the other verdicts are told apart by the name first and the price next |
| Domain.LaterStartAccepts | apps/server/src/domain.rs:271-277 | what one start accepted every later start accepts with the same result, so replaying a replacement rejects nothing its original stored |
| Quotes.IndexQuotes | apps/server/src/ingest/mod.rs:679-692 | the index is the last quote of every key and of no other; the count is the number of quotes that differ from the previous quote of their key |
| Quotes.OtherKeysDoNotMatter | apps/server/src/ingest/mod.rs:679-692 | adding, dropping or moving quotes of other keys cannot change what a key reads |
| Quotes.OrderDoesNotMatter | apps/server/src/ingest/mod.rs:669-692 | a payload that states each key once reads the same in any order and contradicts nothing |
| Reading.ReadingsAre | apps/server/src/ingest/mod.rs:431-478 | a payload yields exactly the rows whose price, instant, bounds and identifier are those of the last quote of some target, when that quote meets all three rules |
| Reading.PollForReports | apps/server/src/ingest/mod.rs:431-478 | a poll is priced exactly when the last quote of its identifier and platform has an agreeing name, a positive price and an instant in range; it reports no price exactly when that quote is absent or only unpriced, a rejection otherwise, and the source's instant always |
| Reading.OnlyAskedKeysMatter | apps/server/src/ingest/mod.rs:431-478 | a batch depends only on the quotes of the keys it asked for |
| Reading.PayloadOrderDoesNotMatter | apps/server/src/ingest/mod.rs:426-478 | permuting the quotes of a payload that states each key once leaves every poll of the batch as it was |
| ObjectKeys.DecimalRoundTrip | apps/server/src/archive.rs:46-64 | a batch number is read back from its numeral |
| ObjectKeys.KeyTextIsInjective | apps/server/src/archive.rs:46-64 | two payloads under one key text came from one run and batch, and from one source and date also from one kind |
| Ledger.InsertAllKeys | apps/server/src/db.rs:474-500 | inserting a list with DO NOTHING adds exactly its keys |
| Ledger.InsertAllRow | apps/server/src/db.rs:474-500 | an old row stays as it is, and the first of the list to carry an absent key gives its row |
| Ledger.StorePollsRecord | apps/server/src/db.rs:409-471 | the coverage record gains exactly one row per pair asked about and never loses or changes one |
| Ledger.StorePollsFrame | apps/server/src/db.rs:409-471 | observations are the plain insert of the batch's prices, and no schedule row outside its pairs moves |
| Ledger.StorePollsEffect | apps/server/src/db.rs:409-471 | each pair of a batch gets the poll row the idempotency index dictates, and a poll state with the new instant and the failure count cleared or raised by one |
| Database.Database.InsertObservation | apps/server/src/db.rs:474-500 | the row is stored exactly when its key was absent |
| Database.Database.WritePoll | apps/server/src/db.rs:420-466 | one poll inserts its observation, its poll row and its poll state, and reports what the index decided |
| Database.Database.WritePolls | apps/server/src/db.rs:409-471 | all of the batch or nothing: it commits exactly when the database answers and every row satisfies the CHECK constraints, and written plus unchanged is the number of prices |
| Database.Database.ReplaceRunObservations | apps/server/src/db.rs:965-1005 | the swap is delete then insert in one transaction; it commits exactly when the rows are storable and it would not erase rows while writing none, and reports both counts |
| Database.Database.RequestsSpentToday | apps/server/src/db.rs:266-279 | the sum of the requests on the runs started since the UTC day began |
| Database.Database.PollTargetsFor | apps/server/src/db.rs:369-391 | every scheduled pair behind the identifiers, once each, and no other |
| Database.Database.ResolveTargets | apps/server/src/db.rs:1013-1033 | every market of every asset behind the identifiers, scheduled or not, once each |
| Database.Database.DueExternalIds | apps/server/src/db.rs:323-362 | due identifiers oldest first, as many as the limit allows, none left out that precedes one taken |
| Bookkeeping.SoundKept | apps/server/src/ingest/mod.rs:346-407 | every action keeps the whole invariant: runs, archive, keys, identities and schedule |
| Bookkeeping.SoundAlways | apps/server/src/ingest/mod.rs:346-407 | the invariant holds after every execution, killed anywhere |
| Bookkeeping.PayloadsArePermanent | apps/server/src/ingest/mod.rs:180-193 | no action overwrites or removes an archived payload of prices |
| Bookkeeping.RunsGrowAlways | apps/server/src/db.rs:201-228 | no run is removed, restarted or stripped of a recorded key |
| Bookkeeping.PayloadsDisjointKept | apps/server/src/ingest/mod.rs:365-407 | the payloads of one run were asked for different identifiers |
| Bookkeeping.ScheduledKept | apps/server/src/db.rs:738-788 | every schedule row follows an asset and a market of the game at the tier of the asset's current version and rating |
| Bookkeeping.DailyIff | apps/server/src/domain.rs:172-182 | after every execution a schedule row is daily exactly when its card is now a promotion or rated 75 or above, and otherwise at three days |
| Bookkeeping.OneToOneKept | apps/server/src/db.rs:525-563 | each identifier maps to one asset of its game and no asset has two |
| Provenance.NewRowsAreTraced | apps/server/src/ingest/mod.rs:373-407 | any row an action adds or rewrites is the validated reading, name included, of a payload recorded on its run or on the run it replaces |
| Provenance.ReachableIsSound | apps/server/src/ingest/mod.rs:234-407 | every reachable state satisfies the invariant and has every row traced |
| Provenance.StoredRowIsItsQuote | apps/server/src/ingest/mod.rs:695-719 | at every crash point each stored row has an archived quote behind it, the last of its identifier and platform there, whose price, instant, floor, ceiling and identifier are the row's; the price is positive and the instant no later than five minutes past the start of the row's run |
| Provenance.NewRowIsItsQuote | apps/server/src/ingest/mod.rs:695-719 | the same columns of every row an ingest adds or a replay rewrites, and the quote's name agrees with the one held |
| Provenance.ProvenanceAtEveryCrashPoint | apps/server/src/ingest/mod.rs:156-194 | wherever a process was killed: a stored row is the reading of an archived payload recorded on its own run, at that run's own start, if and only if its run is not a replacement that has yet to close; for an ingest run it is one the run archived itself, and for such a replacement one of the run it replaces |
| Provenance.RecordedKeysAreArchived | apps/server/src/db.rs:216-228 | every recorded price key names a payload the archive holds |
| Provenance.PayloadsSurviveEveryRun | apps/server/src/archive.rs:46-64 | whatever happens next, a stored payload of prices stays as it was |
| Identity.IdentityAnchor | apps/server/src/ingest/discovery.rs:34-67 | through every write path, for ever, a folded name that is not empty does not change |
| Identity.LaterRowsCarryTheName | apps/server/src/domain.rs:225-262 | any row later written for a named card comes from a payload recorded on its run, or on the run it replaces, read at that run's start, that gives no name or one that folds to the card's |
| ReplayTheory.RewriteIs | apps/server/src/ingest/mod.rs:601-644 | the rewrite is exactly what the run's payloads read now, whatever the order of the targets |
| ReplayTheory.OnePayloadPerRow | apps/server/src/ingest/mod.rs:601-644 | two payloads of one run that both vouch for a key are one payload and agree on every column |
| ReplayTheory.OwnedRowSurvivesIff | apps/server/src/ingest/mod.rs:593-666 | a row comes back from a replay if and only if its payload's name is still consistent with the one held, and then with the columns it had |
| Examples.ARowLostToANameIsReachable | apps/server/src/ingest/mod.rs:617-631 | a reachable replay that goes through and loses a row because its card was given another name since |
| ReplayTheory.ReplayLosesNothing | apps/server/src/db.rs:965-1005 | while names hold, a replay keeps every key, adds only what its payloads read, writes at least what it deletes and is never refused |
| ReplayTheory.ReplayReproducesRows | apps/server/src/db.rs:965-1005 | while names hold, other runs' rows are untouched and a replayed row differs in its run and import time alone |
| ReplayTheory.KeySetUnchangedIff | apps/server/src/ingest/mod.rs:593-666 | while names hold, the key set is unchanged exactly when everything the payloads read was stored |
| ReplayTheory.EveryOpenReplay | apps/server/src/ingest/mod.rs:545-592 | the replay theorems apply to every replay open in a reachable state |
| ReplayTheory.SecondReplayChangesNothing | apps/server/src/ingest/mod.rs:593-666 | right after a replay, replaying the same run again is not refused and changes no row |
| ReplayFidelity.StoredUnderANameSurvives | apps/server/src/ingest/mod.rs:593-666 | a row stored for a named card comes back from every later replay of its run, whatever was ingested, discovered, described or replayed in between |
| ReplayFidelity.WrittenUnderItsName | apps/server/src/ingest/mod.rs:721-749 | a row written since some state, for a card whose folded name is now what it was then, was read under that name, whatever happened in between |
| ReplayFidelity.ReplayLosesNothingUnderTheSameNames | apps/server/src/ingest/mod.rs:531-534 | when the cards of a run's rows have the folded names they had before the rows were written, a replay keeps every key, writes at least what it deletes and is never refused |
| ReplayFidelity.StoringInFull | apps/server/src/ingest/mod.rs:414-516 | storing a batch whose resolved targets are all scheduled stores everything its payload reads |
| ReplayFidelity.ReplayOfAFullRunKeepsTheKeySet | apps/server/src/ingest/mod.rs:593-666 | when every payload of a run was stored in full and its names still hold, replaying it after any later ingest leaves the key set exactly as it was |
| StrandedRows.StrandedForEver | apps/server/src/ingest/mod.rs:634-664 | rows of a run without keys that no process works on are never rewritten by any later ingest or replay |
| StrandedRows.ReplayableIff | apps/server/src/ingest/mod.rs:646-664 | after any later ingest and replay, a swapped replay has price keys, and another can be opened on it, if and only if it closed right after its swap |
| StrandedRows.KilledBeforeClose | apps/server/src/ingest/mod.rs:646-664 | a replay killed between its swap and its close leaves rows that stay for good and that no later replay can reach |
| Examples.AStrandedRowIsReachable | apps/server/src/ingest/mod.rs:634-664 | a reachable state with a row whose run has no recorded payload and no process |
| DailyBudget.OpeningLeavesRoomIff | apps/server/src/ingest/mod.rs:237-251 | a run opens with room for all it may take exactly when it reads its own day's spend or its own day had nothing to count |
| DailyBudget.OpensWithTheRest | apps/server/src/db.rs:266-279 | within budget a run opens with exactly the budget less what was spent on the day it reads |
| DailyBudget.TheCastForgets | apps/server/src/ingest/mod.rs:245-251 | a spend that is a multiple of two to the 32 opens a run with the whole budget |
| Spend.CountedOnItsDay | apps/server/src/db.rs:266-279 | a run's requests count on the day of 86,400 seconds it started in, whole or not at all |
| DailyBudget.DailyBudgetHolds | apps/server/src/db.rs:263-279 | for any number of runs killed anywhere, the requests recorded on the runs of one day fit the budget, provided each reads the spend on the day it opens |
| DailyBudget.SentNeverExceedsRecorded | apps/server/src/ingest/mod.rs:378-390 | no run ever sent a request it had not recorded |
| DailyBudget.ARunAcrossMidnightOverspends | apps/server/src/ingest/mod.rs:237-251 | a run that opens on the last microsecond of a day and reads the spend on the next overspends a budget of one |
| PollCache.CacheIsAlwaysFaithful | apps/server/src/db.rs:450-466 | after every action, the last poll is the newest since the row was created and the failure count is the length of the trailing failing run |
| PollCache.TargetsHaveDistinctPairs | apps/server/src/db.rs:369-391 | under one-to-one identities no two targets of a batch name the same pair |
| Coverage.CoverageIsExact | apps/server/src/ingest/discovery.rs:478-503 | after coverage the game's schedule is exactly its most valuable assets times its markets; surviving rows are unchanged, new ones start unread at their tier, other games are untouched |
| Coverage.CoveredAreTheMostValuable | apps/server/src/db.rs:598-633 | no card left out is worth more than a covered one: a promotion is left out only if all covered are promotions, and of two of one kind the covered one is rated no lower, the unrated lowest, and has the smaller identifier when rated alike |
| Database.Database.MostValuableAssets | apps/server/src/db.rs:598-633 | exactly the covered assets, once each, promotions first, then from the highest rating down with the unrated last, then by identifier |
| Database.Database.EnsurePollState | apps/server/src/db.rs:656-675 | exactly the listed rows are added and rows that exist are left as they are |
| Database.Database.DropPollStateOutside | apps/server/src/db.rs:636-649 | a row is on the schedule afterwards exactly when it was and is not of an uncovered asset of the game; rows that stay are unchanged, and the count is the number that went |
| Database.Database.ApplyCoverage | apps/server/src/ingest/discovery.rs:478-503 | the schedule becomes the ensured and pruned schedule of the covered assets |
| Scheduler.BackoffIsBounded | apps/server/src/db.rs:346-352 | a row is due no sooner than one interval and no later than eight after its last poll, and a failure never makes it due sooner |
| Scheduler.RowDueIff | apps/server/src/db.rs:346-352 | an unread row is always due; with up to seven failures one is due exactly when failures plus one intervals have passed since its last read, and from seven on exactly when eight have |
| Scheduler.DueIdsAre | apps/server/src/db.rs:338-354 | an identifier is due exactly when it maps to an asset of the game with a schedule row that is unread or has waited that long |
| Scheduler.OldestFirst | apps/server/src/db.rs:330-362 | against each due row of a later identifier, or of one left out, every identifier taken before has a due row that is unread or was read no later |
| Scheduler.WaitingIsCounted | apps/server/src/db.rs:323-362 | after m rounds that left its row alone, at least m times k of the identifiers that were ahead of a due one no longer are, also when other rows are read out of turn |
| Scheduler.BoundedRead | apps/server/src/db.rs:323-362 | with room for k of n identifiers a round, a due row is read within n / k rounds rounded up, also when rows are read out of turn |
| Scheduler.BoundedWait | apps/server/src/db.rs:323-362 | with room for k of n identifiers a round, a due one is read within n / k rounds rounded up, whatever ties, backs off or falls due meanwhile |
| TrustedRounds.BoundedWaitOverRuns | apps/server/src/ingest/mod.rs:346-407 | with any number of degraded runs, other requests and crashes between the healthy runs, a due row is read within n / k healthy ones rounded up: a healthy run reads every row behind its identifier, or a degraded one has read it before |
| TrustedRounds.LastReadIsRecent | apps/server/src/domain.rs:127-182 | over runs of the machine under one coverage, degraded ones among them, when a healthy one asks what is due, a pair's last read is no older than its band plus the time the whole roster takes |
| TrustedRounds.AlwaysTrusted | migrations/0008_trust_window.sql:25-52 | over runs of the machine under one coverage, degraded ones among them, if that time and one gap between healthy ones fit in the slowest band, a pair whose polls all succeed is in the trusted table at every instant after its first read |
| Trust.TiesDifferInPriceAlone | migrations/0008_trust_window.sql:40-51 | rows that tie at the top agree on everything but the price |
| Trust.TrustedIff | migrations/0008_trust_window.sql:25-52 | a pair has a trusted price exactly when its newest poll by the instant was inside the window and brought a price and some price of it had been imported |
| Trust.TrustedPriceIsItsQuote | migrations/0008_trust_window.sql:33-51 | in every reachable state a trusted price, its instant and its floor are those of an archived quote, the last of its card and platform; it is at the floor exactly when that quote's price is; and no price of the pair imported by then is newer |
| Trust.TrustedIsDeterminedIff | migrations/0008_trust_window.sql:25-52 | the query has one answer exactly when no pair in it has two prices from one source at its newest instant |
| Examples.TwoAnswersAreReachable | migrations/0008_trust_window.sql:40-51 | a reachable state in which the query may return two different tables for the present instant |
| Trust.AsOfStability | migrations/0008_trust_window.sql:25-52 | whatever is ingested after an instant, by any number of runs killed anywhere, the answers for that instant are the same |
| Trust.ClaimsCannotSeeTheirOwnRun | apps/server/src/ingest/predict.rs:37-54 | nothing a run stores changes the answers for the instant it started at |
| Trust.SwapKeepsThePastIff | apps/server/src/db.rs:965-1005 | a swap keeps the rows known at an earlier instant exactly when its original owned none of them |
| Trust.SwapAnswersWithoutTheOriginal | apps/server/src/db.rs:965-1005 | for an instant before a swap the query answers as if the original had stored nothing |
| Trust.SomeAnswer | migrations/0008_trust_window.sql:25-52 | the query has an answer at every instant |
| Trust.ReachableRowsAreOfOneSource | apps/server/src/ingest/mod.rs:699-719 | every row of a reachable state is of the one source of its ledger |
| Trust.SwapKeepsTheAnswersIff | migrations/0008_trust_window.sql:25-52 | the answers for an instant before a swap stay the same if and only if the original owned no newest known price of a live pair |
| Trust.ReplayKeepsTheAnswersIff | apps/server/src/ingest/mod.rs:593-666 | the same of every replay open in a reachable state |
| Trust.ReplayForgets | apps/server/src/db.rs:965-1005 | where the original had stored all the known prices of a pair, the pair has no trusted price at that instant after the swap |
| Examples.AForgottenPastIsReachable | apps/server/src/db.rs:965-1005 | a reachable replay after which a pair that was trusted at an instant is not trusted at that instant |
| Examples.AnOlderPriceIsReachable | apps/server/src/db.rs:965-1005 | a reachable replay after which every answer for an earlier instant states 100 where every one stated 200 |
| Trust.TrustedPricesArePositive | migrations/0001_foundation.sql:129-150 | in every reachable state every trusted price is positive, and every floor stated with one, as of any instant |
| Trust.ViewAndFunctionAgree | migrations/0005_trusted_prices.sql:8-17 | asked about the present, the view's live pairs are live to the function, and on pairs polled since their row was created the two agree |
| Sorting.TheOrderIsSettled | apps/server/src/analytics/valuation.rs:61-65 | an ORDER BY that settles every tie has exactly one listing to return |
| Valuation.MedianIsTheMiddle | apps/server/src/analytics/valuation.rs:36-38 | PERCENTILE_CONT at one half is the mean of the two middle rows |
| Valuation.HalfOnEachSide | apps/server/src/analytics/valuation.rs:36-43 | at least half of the cards cost the median or less and at least half cost it or more |
| Valuation.MiddleOfTheClass | apps/server/src/analytics/valuation.rs:50-60 | in a class of five or more cards off the floor, at least half have a ratio of one or less and at least half of one or more |
| Valuation.RankingIsComplete | apps/server/src/analytics/valuation.rs:50-66 | rows are strictly ordered, no card twice, floored cards last, and a limit that is not reached leaves no trusted card out |
| Valuation.RankingCoversTheMarket | apps/server/src/analytics/valuation.rs:30-65 | the ranking has a row, with its trusted price and floor, for every card with a trusted price in the market, floored or not, and for no other |
| Valuation.RankingIsByRatio | apps/server/src/analytics/valuation.rs:61-65 | of two rows on one side of the floor the smaller ratio comes first and a missing one last, equal ratios by name and then identifier; a card off the floor comes before every floored one |
| Valuation.ValueIsMeasured | apps/server/src/analytics/valuation.rs:36-60 | a row's price and floor are its card's, its median is the middle of its peers' prices in ascending order, and its ratio times that median is its price |
| Valuation.RankingIsSettled | apps/server/src/analytics/valuation.rs:61-65 | the database may return exactly one ranking |
| Valuation.RatioMissingIff | apps/server/src/analytics/valuation.rs:36-60 | a ratio is missing if and only if the card has no rating or fewer than five trusted cards off the floor share its rarity, version and rating |
| Valuation.FiveUnratedCards | apps/server/src/analytics/valuation.rs:59-60 | five unrated cards of one class, all off the floor, have no ratio |
| Picks.EligiblesAreAPrefix | apps/server/src/analytics/predictions.rs:87-96 | the cards that may be picked come first in the ranking |
| Picks.TheCapCostsNothing | apps/server/src/analytics/predictions.rs:83-96 | asking for twenty rows per pick gives the same picks as asking for all |
| Picks.PicksAreTheCheapest | apps/server/src/analytics/predictions.rs:83-96 | every pick is off the floor, rated and in a class of five; a card of which that holds is left out only when topN are picked, and then no pick costs more than it, each against the median of its own peers |
| Picks.RatingBandIs | migrations/0005_trusted_prices.sql:57-68 | each band is exactly the ratings its name spells |
| Picks.WithClaimsIs | apps/server/src/analytics/predictions.rs:102-125 | an old claim stays, every pick has a claim, and a new claim is the row of a pick |
| Picks.NothingToRecord | migrations/0010_predictions.sql:44-47 | recording changes nothing exactly when every pick has a claim already |
| Picks.Claims.RecordPicks | apps/server/src/analytics/predictions.rs:75-127 | records the picks with DO NOTHING and counts the new ones; it fails exactly when there is a pick and the horizon is not positive, and then writes nothing |
| Picks.NewClaimSays | apps/server/src/analytics/predictions.rs:102-125 | a new claim is filed under the call's market, instant and wording for a card off the floor; it holds the card's trusted price, the middle of its peers' prices, the ratio of the two, and the version and band the card had |
| Picks.EveryAnswerIsReadable | apps/server/src/analytics/valuation.rs:74-87 | in every reachable state a market's trusted prices can be ranked |
| Picks.RetryRecordsNothing | apps/server/src/analytics/predictions.rs:67-75 | without a tie at the top, recording the claims of an instant again after any later ingest writes nothing |
| Picks.ClaimsIgnoreTheirOwnRun | apps/server/src/ingest/predict.rs:37-54 | the claims a run records are those it would have recorded before it read anything |
| Scores.CohortsPartitionTheMarket | apps/server/src/analytics/cohort.rs:51-73 | the cohorts' sizes add up to the market's trusted cards and no card is in two |
| Scores.CohortMedianIs | apps/server/src/analytics/cohort.rs:51-73 | a cohort's median is the middle of the prices of its cards off the floor, and missing exactly when there are none |
| Scores.CohortMove | apps/server/src/analytics/predictions.rs:191-212 | the move takes the earlier median to the later one, and is missing exactly when a median is missing or the earlier is not positive |
| Scores.MoveOf | apps/server/src/analytics/predictions.rs:191-212 | the move of a claim's cohort, found in the snapshots of its market at the claim and at the scoring, is that between the cohort's medians |
| Scores.ScoreOf | apps/server/src/analytics/predictions.rs:177-185 | the return takes the claimed price to the present one; there is an excess exactly when the cohort moved measurably, and the cohort's return plus the excess is the card's own |
| Scores.WinsIff | apps/server/src/analytics/predictions.rs:177-212 | the excess is positive exactly when the price now times the cohort's median at the claim exceeds the claimed price times the median at the scoring, zero exactly when they are equal, and missing exactly when a median is |
| Scores.ScoreMatured | apps/server/src/analytics/predictions.rs:133-188 | exactly the claims of the game made at least their horizon ago, ordered by when they were made and then by number, each scored against the move of its cohort between two snapshots |
| Scores.ScoresAre | apps/server/src/analytics/predictions.rs:133-188 | one score for each claim of the game made at least its horizon ago whose card has a trusted price, no other, and in the order the claims were made |
| Scores.ScoresAreStable | apps/server/src/analytics/predictions.rs:129-188 | without a tie at the top, a claim's score at an instant is not revised by anything ingested later |
| Ingest.Budget.Take | apps/server/src/ingest/mod.rs:116-124 | takes one exactly when one is left |
| Ingest.Tally.Status | apps/server/src/ingest/mod.rs:95-105 | healthy exactly when nothing degraded the run and it did not reject all it saw |
| Ingest.EveryQuoteIsAskedOrNot | apps/server/src/ingest/mod.rs:480-493 | every quote of a payload is of an identifier and platform some target asks about or is counted as unasked, and never both |
| Ingest.ReadPayload | apps/server/src/ingest/mod.rs:426-503 | the polls are the readings of the targets, and seen and rejected also count quotes nobody asked for and contradictions |
| Ingest.IngestBatch | apps/server/src/ingest/mod.rs:414-516 | stores the whole batch or nothing; accounts for every record either way, and for none when the payload does not parse or the query for its targets fails |
| IngestPrices.FetchAndArchive | apps/server/src/ingest/mod.rs:156-194 | the payload is archived before anything parses it; a rate limit stops, any other failure skips, and each degrades the run |
| IngestPrices.FetchOnRecord | apps/server/src/ingest/mod.rs:373-400 | record the request, fetch, archive, record the key: each step is an action of the machine |
| IngestPrices.StoredBatchReadsAll | apps/server/src/ingest/mod.rs:414-516 | a stored batch has a poll row for every pair behind every identifier it asked for |
| IngestPrices.PriceBatch | apps/server/src/ingest/mod.rs:373-405 | what a batch has seen and cannot account for is zero, unless its store failed after its targets were listed, and then the number of prices its archived payload has for them |
| IngestPrices.MoreFailures | apps/server/src/ingest/mod.rs:402-404 | the batches reported as not stored, with their archived payloads and their targets, accumulate over the loop, and so does what they lost |
| IngestPrices.NextBatch | apps/server/src/ingest/mod.rs:373-405 | the list was capped by what the budget can pay for, so taking a request never fails inside the loop |
| IngestPrices.IngestPrices | apps/server/src/ingest/mod.rs:346-407 | the price step is an execution of the machine from its query on; what it may spend times the batch size caps what it selects; if nothing degraded it every selected row was read; the shortfall of the counts is exactly the priced targets, where they were listed, of the batches it reports as not stored |
| PriceRounds.PriceStepMoves | apps/server/src/ingest/mod.rs:346-407 | a price step, however it ends, moves no schedule row but those behind identifiers it asked for |
| PriceRounds.StepIsARound | apps/server/src/ingest/mod.rs:346-407 | a price step that read all it chose, and asked for nothing else, is a round of the schedule |
| PriceRounds.PriceStep | apps/server/src/ingest/mod.rs:95-105 | seen = written + unchanged + rejected + the prices of the batches not stored whose targets were listed; a healthy run has none of those, read every row behind every identifier it chose, and is a round of the schedule asked at its query |
| Replay.ReplayRun | apps/server/src/ingest/mod.rs:545-666 | the rows are swapped exactly when the payloads are on record, archived, answer and parse, the rows are storable, the database commits and the swap is not refused, and no observation changes otherwise; success is reported exactly when the close goes through too, and without it the rows stay swapped and their run has no keys |
| Replay.ReplayIsAnExecution | apps/server/src/ingest/mod.rs:593-666 | a replay that swapped is the actions open, swap and close of the machine, or open, swap and crash when its close failed |
| Catalogue.HarvestKeepsIdentity | apps/server/src/ingest/discovery.rs:34-67 | applying attributes touches no identity, price, poll or run, and never renames a named card to one that folds otherwise |
| Catalogue.DescribedNeedsAgainIff | apps/server/src/db.rs:682-706 | a card described at an instant needs attributes again exactly when more than the cadence has passed since, and no other card is affected |
| Catalogue.DiscoveredNeedsAttributes | apps/server/src/db.rs:682-706 | a card just discovered needs attributes at once |
| Catalogue.LongestUnseenFirst | apps/server/src/db.rs:682-706 | the cards asked about come by when they were last seen, those never seen first, and none left out has gone unseen longer |
| Catalogue.WatermarkIsTheMaximum | apps/server/src/db.rs:842-867 | read back as a number, the watermark is at least every numeric identifier held from the source, and equal to one of them |
| Catalogue.OneLargeIdentifierFailsTheWatermark | apps/server/src/db.rs:853-867 | one identifier beyond 64 bits leaves the query without an answer |
| Database.Database.InsertDiscoveredAsset | apps/server/src/db.rs:525-563 | a new asset and its mapping, and nothing else |
| Database.Database.UpdateAssetAttributes | apps/server/src/db.rs:738-788 | one card's columns take the new values and no other card changes; the rows that follow it take the interval and keep their last poll and failures, and no row is added, removed or otherwise changed |
| Database.Database.ApplyAttributes | apps/server/src/ingest/discovery.rs:34-67 | each card is written exactly when its name is consistent with the one held, and the others are counted |
| Database.Database.AssetsNeedingMetadata | apps/server/src/db.rs:682-706 | cards without attributes or with old ones, longest unseen first, once each, as many as the limit allows |
| Database.Database.HighestExternalId | apps/server/src/db.rs:853-867 | the greatest numeric identifier; fails exactly when one does not fit 64 bits |
| Discovery.InsertListed | apps/server/src/ingest/discovery.rs:269-284 | every listed identifier is on record afterwards, once, and nothing else is added |
| Discovery.Turn | apps/server/src/ingest/discovery.rs:222-317 | one page: the walk goes on from a later page or ends knowing whether it was complete |
| Discovery.Walk | apps/server/src/ingest/discovery.rs:181-335 | terminates; complete exactly when its requests led from page 1 to the provider's last page with every page archived and parsed; holds every identifier listed to it and loses none |
| Discovery.RefreshMetadata | apps/server/src/ingest/discovery.rs:342-470 | the flag is recorded while a card still needs attributes exactly when the run entered with no budget and some card needed them; unless the provider stops it, the requests cover all that was outstanding or use up the budget, and none is sent without a card to ask for |
| Discovery.FlaggedWithNothingDone | apps/server/src/ingest/discovery.rs:342-470 | with no budget and one card never described, the step is flagged and the card still needs its attributes |
| Resumption.NeverAGap | apps/server/src/ingest/discovery.rs:133-178 | incremental walks, each by one watermark and page numbers and cut off at any listing, never leave an identifier missing below the highest held, as long as the provider numbers upwards |
| Resumption.EveryPageAnswers | apps/server/src/ingest/discovery.rs:222-317 | with the watermark fixed at the walk's start and pages counted by position, every page, the first or a later one, starts above everything held by then and leaves nothing out |
| Resumption.MoreIff | apps/server/src/ingest/discovery.rs:222-317 | a page names another exactly when something listed after the watermark is neither held nor on it |
| Resumption.WalksAreOverTheTables | apps/server/src/db.rs:842-867 | the numbers the tables hold begin a walk at the watermark the query prints and move by one listing as discovery records it |
| Resumption.MissedForEver | apps/server/src/ingest/discovery.rs:91-102 | an identifier inserted below the highest held, and below the watermark of a walk under way, is never found by any number of incremental walks |
| Resumption.AWalkUnderWayMayFindIt | apps/server/src/ingest/discovery.rs:222-317 | a walk that began before the insertions reads one of them on a later page, although it is below the highest held |
| Resumption.PublishingKeepsNoGapIff | apps/server/src/ingest/discovery.rs:94-102 | a published identifier leaves no gap exactly when it is held or above all that is held |
| Resumption.TextMaximumIsNoWatermark | apps/server/src/db.rs:849-852 | as texts 9 outranks 56022, so the maximum has to be numeric |
| Events.MarketEvents.Record | apps/server/src/analytics/events.rs:57-96 | refuses a correction of another game's event, exactly, a row without kind or name or with its end before its start, and a second first record of one kind, name and instant; otherwise appends the folded row; no row that breaks these is ever there |
| Events.CorrectTwice | apps/server/src/analytics/events.rs:57-96 | a second correction of one event is accepted, and both corrections are then live |
| Events.PastAnswerUnchangedIff | apps/server/src/analytics/events.rs:98-131 | a new row leaves a past answer unchanged exactly when it belongs to another game or was recorded later |
| Events.LiveHead | apps/server/src/analytics/events.rs:109-131 | every event known at an instant has a live row among its corrections at that instant |
| Events.OneLiveRowIff | apps/server/src/analytics/events.rs:105-108 | an event has exactly one live row if and only if no row of its chain was corrected twice |
| Calendar.StampOf | apps/server/src/backup.rs:49-57 | every second from the year 0 on has a valid civil stamp that names it |
| Calendar.MonthLengths | apps/server/src/backup.rs:49-57 | every month has its length, February 29 days exactly in leap years |
| Calendar.EpochIsTheFirstOf1970 | apps/server/src/backup.rs:78-84 | the first second of 1970 is second zero of the clock |
| Calendar.OrderOfStampsIsOrderOfTime | apps/server/src/backup.rs:72-74 | civil stamps compare as the seconds they name, and name different seconds when they differ |
| Calendar.DaysBeforeYearIs | apps/server/src/backup.rs:49-57 | the days before a year in closed form, leap years included |
| Backup.TakenAtRoundTrip | apps/server/src/backup.rs:78-84 | the second a dump was taken is read back from its name |
| Backup.KeysSortByTime | apps/server/src/backup.rs:72-75 | for years of four digits, names sort as texts exactly as the dumps do in time |
| Backup.SortKeys | apps/server/src/backup.rs:179 | the listing in text order, each key as often as before |
| Backup.StaleKeys | apps/server/src/backup.rs:171-182 | the dumps to drop are exactly those with at least keep later ones and at least one, oldest first; what stays is the newest keep of them, and one when keep is zero |
| Backup.NewestTakenAt | apps/server/src/backup.rs:70-76 | what the name that sorts last says |
| Backup.WaitFor | apps/server/src/backup.rs:96-112 | no wait without a dump; otherwise the wait is zero exactly when an interval has passed since the newest and else ends with it; a dump in the future waits a full interval |
| BackupLoop.EveryMomentHasAName | apps/server/src/backup.rs:49-57 | every moment up to the year 9999 has a name that reads back to its second |
| BackupLoop.OneMoveKeepsSchedule | apps/server/src/main.rs:299-330 | every move of the timer keeps the names, the newest dump and the spacing |
| BackupLoop.SpacingSurvivesRestarts | apps/server/src/main.rs:299-330 | the dumps the loop stores are at least one interval apart under any restarts, failed listings, failed dumps, failed prunes and dumps by hand |
| BackupLoop.NeverSleepsLong | apps/server/src/main.rs:299-330 | whatever the names say and whatever fails, the loop looks again within a day, and within an hour of a failed dump or prune |
| BackupLoop.NewestIsReadIff | apps/server/src/backup.rs:70-84 | the wait runs from the newest dump exactly when the name that sorts last can be read; otherwise a dump is due at once |
| BackupLoop.AForeignNameHidesEveryDump | apps/server/src/backup.rs:286-301 | any name whose first character comes after the digits cannot be read and sorts last among whatever dumps are in the bucket |

## Left out

- One provider source and one game per ledger: rows of other sources do not appear, except that the queries name the source and the game as the server does.
- Time: one clock with strictly increasing stamps; two processes with different clocks are not modelled.
- Integer widths: prices and counts are unbounded; the 32-bit budget and its truncating cast, and the 64-bit watermark, are modelled.
- Text: order is by code point and not by a database collation; the folding of names and event kinds and the parsing of payloads are arbitrary functions.
- Arithmetic: ratios and returns are exact, so floating-point rounding is not modelled.
- The price loop's branch for a budget that runs out part way: IngestPrices.NextBatch shows it cannot be taken.
- A database error in the price loop outside a batch's target query and its transaction ends the run; it is the machine's crash, and the methods do not return it.
- The stamp of one page's attributes is one instant, where the server reads the clock once per card.
- The walks and the coverage step are proved on the tables. Their effects are actions of the machine (`AskList`, `ListAnswered`, `Discover`, `Describe`, `Ensure`, `Drop`), stated with the same functions; that a walk is an execution is stated for the price step and the replay alone.
- Discovery.Walk: takes the provider's answers as they come; what a provider answers to a watermark and a page number is part of `Resumption`.
- What a closing run writes beside its keys: status, counts, and the note on a replacement of which run it replaced, which nothing reads.
- Backup.TakenAt: reads names with every field at its full width, where the server's parser also accepts some shorter ones.
- Attributes of assets are held fixed in the theorems about past instants, because the queries join the attributes of today.
- The run's status, heartbeat and reaper, the sampling of logged rejections, and the players table.
- The reference lists: the same walk with a simpler body.
- HTTP, S3, compression, checksums and `pg_dump` itself, drift checks, notifications, the API, configuration and the web application.
