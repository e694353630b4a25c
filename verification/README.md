# Open Trader: verified models of its protocols

Open Trader keeps trading reports, account snapshots, an installed launcher and a set of watchers
up to date on one machine. Most of what it promises is about whole runs: a killed process must not
leave an installation that nobody may touch, a reader must never pair an account file with the
quotes of another refresh, a notification must not be sent a third time after a restart. This
project models those parts in Dafny and proves what holds of them over every run, every
interleaving and every crash point, or over every input.

`dafny verify dfyconfig.toml` checks everything.

| file | what it models |
|---|---|
| Installer.dfy | the crash-tolerant installer: publish, repair, uninstall and the ownership check |
| RunLock.dfy | the inode-checked file lock, one system call at a time |
| Promotion.dfy | promotion of a run's outputs to the `latest` files, with rollback |
| AccountState.dfy | the accepted account state: accepting a candidate, recording a failure |
| AccountWorker.dfy | the worker that publishes state and portfolio as two files |
| QuoteCache.dfy | quote refreshes, the cache of last good quotes, the reader's row counts |
| AccountSnapshot.dfy | the reader: double collect, pairing check, snapshot |
| AccountParity.dfy | the second implementation that recomputes the reader's answer |
| RuntimePackages.dfy | the dependency worklist of the deployment preflight |
| TestPartition.dfy | the proof that the required test machines cover every test once |
| CatalogReplay.dfy | replay of catalog generations from anchors and deltas |
| YieldBaseline.dfy | accounting of rounds seen through an overlapping ring buffer |
| TrendWatch.dfy | the event log of the protection watcher and what may be sent again |
| Backtest.dfy | the trading-plan simulator as a cash and position ledger |
| Sorting.dfy, Prelude.dfy | Python's `sorted` on strings; `Option` and `Result` |

Where the source updates things in place the model is a class or a method with loops, tied by its
postcondition to a function; what the source promises is then proved about that function. Every lemma
switches automatic induction off, so that its body is the whole proof.

## What turned out to be false, and exactly when it holds

- The ownership check does not succeed on every crash-reachable disk. A kill inside the write of the
  transaction file can strand its temporary file in the payload directory; an uninstall then removes
  everything else, and every later session is refused (`Installer.StrandedFileRefusesForever`). The check
  succeeds exactly when there is no unowned file, or a transaction, or a receipt (`Installer.CrashRecovery`),
  and always if that one write is never torn (`Installer.AlwaysAccepted`).
- `RunLock` excludes in every interleaving exactly when every participant waits or there is at most one
  participant (`RunLock.ExcludesIff`); a process that does not wait can hold the flock of an unlinked file
  (`RunLock.NonWaiterOvertakes`).
- A quote refresh that reaches no market publishes counts that the reader refuses exactly when a cached
  symbol is no longer requested (`QuoteCache.TotalFailureAcceptedIff`, `QuoteCache.ShrunkUniverseRefused`);
  the payload for a refresh that raised is refused exactly when rows are cached and no success is known
  (`QuoteCache.FailurePayloadAcceptedIff`), as after a first refresh that lost one market
  (`QuoteCache.FirstLossRefused`).
- The quote cache does not hold only fresh quoted rows once a service is seeded from the published file: a missing
  row that was published is cached by the next service (`QuoteCache.RestartCachesMissing`). It does exactly when some
  refresh was complete, or every row of the seed was fresh and quoted or has been renewed since
  (`QuoteCache.CacheGoodIff`); when the seed is so at the restart, `QuoteCache.SeedGoodIff` says.
- `accept_candidate` does not check that rows name the candidate's broker, nor that a blank holding
  generation belongs to a statement broker. The state it returns is valid exactly when both are so; if not,
  the next recorded failure or acceptance of another broker silently erases every other source
  (`AccountState.NextFailureKeepsIff`, `AccountState.NextAcceptKeepsIff`, with
  instances in `AccountState.MisnamedErased` and `AccountState.UnfitErased`).
- The parity check passes an available snapshot exactly when the first broker of the fixed order with the latest
  success and the first one of the file's order wrote it the same way (`AccountParity.ParityPassesIff`); one instant written in two ways makes
  it refuse a good snapshot (`AccountParity.TiedTextsFail`, with an instance in `AccountParity.DemoRefused`).
- A sell-side backtest has no date guard on its closing sale: the sale is dated after the run date exactly when
  the last bar is (`Backtest.SellRunLiquidates`, with an instance in `Backtest.SoldOnRunDate`).
- The closing sale overwrites the last equity row but not the peak: the drawdown it reports refers to the highest
  visible equity exactly when the last bar set no new high or the sale costs nothing
  (`Backtest.ClosingPeakVisibleIff`, with an instance in `Backtest.HiddenPeak`).
- A purchase is sized from the initial cash and can overdraw the cash that is left: it does exactly when it costs
  more than that (`Backtest.OverdrawsIff`, with an instance in `Backtest.OverdrawnRun`).
- The conflict check of the dependency worklist can never fire, because both versions have already been compared
  with the installed one (`RuntimePackages.NoConflict`).

## Model

| member | source | states |
|---|---|---|
| `Installer.Retained` | scripts/lp_auto_launcher.py:180-185 | the versions kept are listed ones, at most one per artifact name, and between them they certify every present artifact |
| `Installer.TransactionCertifies` | scripts/lp_auto_launcher.py:177-194 | the transaction lists between 1 and 5 valid versions and certifies every mixture of old and proposed artifacts |
| `Installer.RepairPrefix` | scripts/lp_auto_launcher.py:192-196 | the exact disk after any number of steps of a repair |
| `Installer.FreshPrefix` | scripts/lp_auto_launcher.py:173-176 | the exact disk after any number of steps of a first installation |
| `Installer.UninstallPrefix` | scripts/lp_auto_launcher.py:281-288 | the exact disk after any number of steps of an uninstall; the directory goes only if nothing unowned is left in it |
| `Installer.AcceptedIff` | scripts/lp_auto_launcher.py:124-141 | on a sound disk the ownership check is refused only for unowned files without transaction or receipt |
| `Installer.ForeignTransactionRefused` | scripts/lp_auto_launcher.py:124-129 | a transaction of another installation, or with no or more than five versions, is refused |
| `Installer.ForeignReceiptRefused` | scripts/lp_auto_launcher.py:102-104 | a receipt of another binary or payload is refused wherever it is listed |
| `Installer.UnknownBytesRefused` | scripts/lp_auto_launcher.py:140-141 | bytes that no listed version vouches for are refused |
| `Installer.PublishCutSound` | scripts/lp_auto_launcher.py:162-196 | a publication cut off after any step leaves a sound disk |
| `Installer.UninstallCutSound` | scripts/lp_auto_launcher.py:281-288 | an uninstall cut off after any step leaves a sound disk |
| `Installer.RunSound` | scripts/lp_auto_launcher.py:279-314 | every run of installs, repairs and uninstalls, each killed anywhere, leaves a sound disk |
| `Installer.CrashRecovery` | scripts/lp_auto_launcher.py:116-142 | on every crash-reachable disk every present artifact is certified, a transaction lists 1 to 5 versions, and the check succeeds if and only if there is no unowned file, or a transaction, or a receipt |
| `Installer.AlwaysAccepted` | scripts/lp_auto_launcher.py:116-142 | without a torn transaction write the ownership check succeeds on every crash-reachable disk |
| `Installer.NoMixtureWithoutTransaction` | scripts/lp_auto_launcher.py:130-141 | without a transaction file the receipt on disk alone vouches for every present artifact |
| `Installer.PublishCompletes` | scripts/lp_auto_launcher.py:162-196 | one uninterrupted init or repair ends with exactly the proposed version and no transaction |
| `Installer.UninstallCompletes` | scripts/lp_auto_launcher.py:281-289 | one uninterrupted uninstall ends with no owned file and no transaction |
| `Installer.StrandedFileRefusesForever` | scripts/lp_auto_launcher.py:145-159 | a stranded temporary file followed by an uninstall makes every later session refuse |
| `Installer.LaunchesIff` | scripts/lp_auto_launcher.py:324-330 | on a crash-reachable disk the hash checks of the installed launcher never fail: only presence and the transaction decide |
| `Installer.ForeignPayloadNotLaunched` | scripts/lp_auto_launcher.py:327-330 | a launcher or a configuration that is not the receipt's is not launched |
| `Installer.Installation.TakeSnapshot` | scripts/lp_auto_launcher.py:120-123 | the digests of exactly the present artifacts |
| `Installer.Installation.PublicationState` | scripts/lp_auto_launcher.py:116-142 | returns the listed versions and the digests of all files, the transaction's included, if and only if everything present is certified by valid versions |
| `Installer.Installation.Keep` | scripts/lp_auto_launcher.py:180-185 | the loop computes the retained versions |
| `Installer.Installation.Plan` | scripts/lp_auto_launcher.py:180-191 | the transaction written is the one that certifies every mixture |
| `Installer.Installation.PublishFresh` | scripts/lp_auto_launcher.py:173-176 | goes through exactly the disks of a first installation |
| `Installer.Installation.Replace` | scripts/lp_auto_launcher.py:192-196 | goes through exactly the disks of a repair, in order |
| `Installer.Installation.Publish` | scripts/lp_auto_launcher.py:162-196 | publishes if and only if the disk is accepted and versions and all digests are as they were read; otherwise changes nothing |
| `Installer.Installation.Uninstall` | scripts/lp_auto_launcher.py:280-289 | goes through exactly the disks of an uninstall, or changes nothing when the check refuses |
| `RunLock.BookkeepingStep` | src/open_trader/daily_premarket.py:163-209 | every system call keeps the kernel's lock table and the processes' stages in agreement |
| `RunLock.PathIsHeldStep` | src/open_trader/daily_premarket.py:179-189 | every system call of a waiter keeps the path naming the inode that the process inside holds |
| `RunLock.WaitersExclude` | src/open_trader/daily_premarket.py:163-209 | among waiters at most one process is inside, in every interleaving with kills |
| `RunLock.NonWaiterOvertakes` | src/open_trader/daily_premarket.py:177-178 | a schedule in which a process that does not wait enters beside another |
| `RunLock.ExcludesIff` | src/open_trader/daily_premarket.py:157-209 | mutual exclusion over all interleavings holds if and only if all participants wait or there is at most one |
| `RunLock.HeldLock` | src/open_trader/daily_premarket.py:168-176 | on a held lock a waiter stays and anyone else gives up, and nothing else changes |
| `Promotion.HalfwayStep` | src/open_trader/daily_premarket.py:1829-1839 | one more replacement, successful or not, leaves every promotion undoable |
| `Promotion.Directory.CopyTemp` | src/open_trader/daily_premarket.py:1866-1877 | a staged copy holds the source's content; a failed one changes nothing but its own new file |
| `Promotion.Directory.NameBackup` | src/open_trader/daily_premarket.py:1880-1890 | a new backup name leaves no file, unless its removal fails, and then only that file |
| `Promotion.Directory.ReplaceOne` | src/open_trader/daily_premarket.py:1830-1839 | success puts the source's content in place; failure leaves a backup or the untouched original, and at most one stray backup name |
| `Promotion.Directory.UndoOne` | src/open_trader/daily_premarket.py:1898-1907 | the target is as before, or its original is still in the backup because the restore itself failed |
| `Promotion.Directory.Restore` | src/open_trader/daily_premarket.py:1897-1907 | undoing in reverse settles every target and leaves no backup of a restored one |
| `Promotion.Directory.StageAll` | src/open_trader/daily_premarket.py:1823-1827 | staging touches no existing file and leaves at most one unknown new file |
| `Promotion.Directory.ReplaceAll` | src/open_trader/daily_premarket.py:1829-1839 | all targets replaced, or everything so far undoable and at most one stray file |
| `Promotion.Directory.Settle` | src/open_trader/daily_premarket.py:1840-1850 | commit or rollback followed by the best-effort clean-up |
| `Promotion.Directory.PromoteLatestSet` | src/open_trader/daily_premarket.py:1822-1850 | all or nothing: success gives every target its source's content; failure restores every target whose restore works and never loses a replaced content; no other existing file changes; a working clean-up leaves no scratch file but one partial copy or backup name after a failure |
| `AccountState.AcceptValidIff` | src/open_trader/account_sync_state.py:230-296 | the state after an accept is valid if and only if rows name the broker and the holding generation fits |
| `AccountState.GenerationsValidIff` | src/open_trader/account_sync_state.py:253-296 | an accept changes exactly one source, and keeps the generations valid if and only if the holding generation fits |
| `AccountState.FailValid` | src/open_trader/account_sync_state.py:316-336 | recording a failure keeps a valid state valid |
| `AccountState.NextFailureKeepsIff` | src/open_trader/account_sync_state.py:253-336 | the next failure of another broker keeps the accepted source if and only if the accept left a valid state; otherwise all others are erased |
| `AccountState.NextAcceptKeepsIff` | src/open_trader/account_sync_state.py:253-296 | the same of the next acceptance of another broker |
| `AccountState.MisnamedErased` | src/open_trader/account_sync_state.py:266-296 | a candidate whose row names another broker is accepted, and that broker's next failure erases it |
| `AccountState.UnfitErased` | src/open_trader/account_sync_state.py:247-295 | a live candidate with a blank holding generation is accepted, and the next failure of another broker erases it |
| `AccountState.AcceptedIff` | src/open_trader/account_sync_state.py:239-268 | a candidate is taken if and only if its broker, kind, generations and preserved cash allow it |
| `AccountState.OfferedFacts` | src/open_trader/account_sync_state.py:230-296 | an offer replaces its own broker's source if admitted and touches no other |
| `AccountState.MissedFacts` | src/open_trader/account_sync_state.py:316-336 | a failure keeps the accepted facts of its broker and touches no other source |
| `AccountState.PlayRecordsLatest` | src/open_trader/account_sync_state.py:230-336 | over every sequence of offers and failures whose admitted offers leave a valid state, a source holds the facts of its latest admitted offer, with the cash of the latest one that did not preserve cash |
| `AccountState.LatestTaken` | src/open_trader/account_sync_state.py:268-283 | the kind, dates, positions, rates and success time recorded are those of the latest taken offer |
| `AccountState.LatestCash` | src/open_trader/account_sync_state.py:276-280 | the cash recorded is that of the latest taken offer that brought its own |
| `AccountState.LatestAttempt` | src/open_trader/account_sync_state.py:268-336 | the status, attempt time and message are those of the latest taken offer or failure |
| `AccountState.AcceptRecords` | src/open_trader/account_sync_state.py:284-295 | an accept records its time and exactly the generation that came with it |
| `AccountState.WrongKindRefused` | src/open_trader/account_sync_state.py:241-242 | a live broker's statement and a statement broker's live source are refused |
| `AccountState.BadRowInvalid` | src/open_trader/account_sync_state.py:1255-1279 | one row that does not read back under its broker makes the state invalid |
| `AccountWorker.AcceptedPortfolioRows` | src/open_trader/account_sync_state.py:439-476 | the loop collects exactly the inputs of the four brokers in order and refuses duplicates and a missing month |
| `AccountWorker.CollectsAll` | src/open_trader/account_sync_state.py:447-460 | the builder is given exactly the positions, the cash and the tagged rates of the known sources, broker after broker |
| `AccountWorker.CollectsFirstMonth` | src/open_trader/account_sync_state.py:450-453 | the month is that of the first known source that has one |
| `AccountWorker.PortfolioRefusedIff` | src/open_trader/account_sync_state.py:461-475 | no portfolio if and only if two rows share an identity, or there are rows and no month or the builder fails |
| `AccountWorker.CollectSame` | src/open_trader/account_sync_state.py:447-460 | sources with the same accepted facts give the same portfolio inputs |
| `AccountWorker.FailureKeepsRows` | src/open_trader/account_sync_state.py:316-336 | recording a failure never changes the accepted rows |
| `AccountWorker.SameAcceptedRows` | src/open_trader/account_sync_state.py:230-296 | states with the same facts admit the same candidate and then have the same rows |
| `AccountWorker.MatchesTransfers` | src/open_trader/account_sync_worker.py:132-146 | a portfolio that matches a state still matches it after its attempts are rewritten |
| `AccountWorker.FailureWrite` | src/open_trader/account_sync_worker.py:132-146 | writing a recorded failure keeps the two files consistent |
| `AccountWorker.PortfolioWrite` | src/open_trader/account_sync_worker.py:147-155 | writing the portfolio first leaves the files at most one fetched candidate apart |
| `AccountWorker.AcceptedWrite` | src/open_trader/account_sync_worker.py:156-175 | writing the accepted state after the portfolio makes the files agree |
| `AccountWorker.ProjectionWrite` | src/open_trader/account_sync_worker.py:177-186 | writing a new projection keeps the files consistent |
| `AccountWorker.Worker.WriteState` | src/open_trader/account_sync_state.py:299-313 | an atomic replace happens completely or not at all |
| `AccountWorker.Worker.SyncBroker` | src/open_trader/account_sync_worker.py:113-176 | one broker's turn, stopped at any write, leaves consistent files; when it completes the state is the accepted or the failed one |
| `AccountWorker.Worker.SyncBrokers` | src/open_trader/account_sync_worker.py:112-176 | the four turns in order, with the verdict on each candidate |
| `AccountWorker.Worker.SyncAccountsOnce` | src/open_trader/account_sync_worker.py:103-205 | every pair of files ever on disk is consistent: the portfolio is that of the state or of the state with exactly one further candidate, which was fetched from a broker; a completed cycle ends in the state of the four turns, with the verdict on each; it completes if the writes work and the projection can be built |
| `AccountWorker.Worker.SyncQuotesOnce` | src/open_trader/account_sync_worker.py:225-247 | a quote cycle rewrites only the projection and keeps the files consistent; it does write it when there is one and the write works |
| `QuoteCache.CacheInvariant` | src/open_trader/dashboard_quotes.py:279-295 | over every run of refreshes from any seed the cached rows are fresh and quoted or the seed's own, a complete refresh removes the seed, and the success time is that of the latest complete refresh, else the seed's |
| `QuoteCache.CacheGoodIff` | src/open_trader/account_sync_worker.py:212-224 | over every run the cache of a seeded service holds only fresh quoted rows if and only if some refresh was complete or every other row of the seed was renewed |
| `QuoteCache.SeedRows` | src/open_trader/dashboard_quotes.py:286-295 | without a complete refresh, exactly the renewed rows replace those of the seed and none is dropped |
| `QuoteCache.CacheableIff` | src/open_trader/dashboard_quotes.py:209-279 | a refresh is cached as a whole if and only if it saw every market, price and market state |
| `QuoteCache.PublishedKeys` | src/open_trader/dashboard_quotes.py:174-254 | which symbols are published, whatever is cached: the requested ones, and all cached quotes too when no market was reached |
| `QuoteCache.PublishedRow` | src/open_trader/dashboard_quotes.py:174-254 | for each symbol which row is published: fresh, a stale copy of the cached one, or missing |
| `QuoteCache.CompleteIff` | src/open_trader/dashboard_quotes.py:255-270 | "ok" if and only if everything was seen and every price is of the active session |
| `QuoteCache.StaleIff` | src/open_trader/dashboard_quotes.py:201-304 | a publication is stale if and only if one of its rows is |
| `QuoteCache.FreshRowPriced` | src/open_trader/dashboard_quotes.py:223-233 | a fresh row carries the price of its own snapshot in the session of its own market state, or is missing |
| `QuoteCache.ReusedAllOrNone` | src/open_trader/dashboard_quotes.py:234-238 | US rows are reused for all requested US symbols or for none |
| `QuoteCache.NextCacheGood` | src/open_trader/dashboard_quotes.py:279-295 | one refresh never puts a stale or missing row into the cache that was not there before |
| `QuoteCache.SeedGoodIff` | src/open_trader/dashboard_quotes.py:56-70 | a restart takes over only fresh quoted rows if and only if the file has no rows, or is neither stale nor old and its rows are such |
| `QuoteCache.RestartCachesMissing` | src/open_trader/account_sync_worker.py:212-224 | a published missing row is cached by the next service |
| `QuoteCache.PublicationAccepted` | src/open_trader/account_snapshot.py:201-241 | a refresh that reached some market publishes counts that the reader takes, whatever is cached |
| `QuoteCache.TotalFailureAcceptedIff` | src/open_trader/dashboard_quotes.py:174-204 | a total failure's counts are taken if and only if every cached quote is of a symbol that is still requested |
| `QuoteCache.ShrunkUniverseRefused` | src/open_trader/dashboard_quotes.py:175-188 | a symbol dropped between a complete refresh and a total failure has the publication refused |
| `QuoteCache.FailurePayloadAcceptedIff` | src/open_trader/account_sync_worker.py:276-291 | the payload for a refresh that raised is taken if and only if nothing is cached or some success is known |
| `QuoteCache.FailurePayloadAfter` | src/open_trader/account_sync_worker.py:276-291 | the same read off the history of a service that started empty |
| `QuoteCache.FirstLossRefused` | src/open_trader/account_sync_worker.py:276-291 | after a first refresh that lost the US market the payload is refused |
| `QuoteCache.RequestSnapshots` | src/open_trader/dashboard_quotes.py:157-164 | the loop over markets collects exactly the failed ones and the snapshots of the others |
| `QuoteCache.MarkEachStale` | src/open_trader/dashboard_quotes.py:462-470 | the loop marks every row and changes nothing else |
| `QuoteCache.CollectLastGoodUs` | src/open_trader/dashboard_quotes.py:483-497 | the loop reuses all US rows or, if one is unusable, none |
| `QuoteCache.FailureRows` | src/open_trader/dashboard_quotes.py:174-188 | missing rows for what is not retained, and everything retained on top |
| `QuoteCache.FreshRows` | src/open_trader/dashboard_quotes.py:223-233 | one row for every requested symbol, priced from its snapshot or missing |
| `QuoteCache.RetainedRows` | src/open_trader/dashboard_quotes.py:239-245 | the stale cached quotes of exactly the requested symbols whose market failed |
| `QuoteCache.MergeAnswered` | src/open_trader/dashboard_quotes.py:286-295 | the cache with exactly the quoted rows of the markets that answered replaced |
| `QuoteCache.QuoteService.BuildRows` | src/open_trader/dashboard_quotes.py:223-254 | the dictionary updates, fresh rows, then reused, then retained, give the published rows |
| `QuoteCache.QuoteService.Refresh` | src/open_trader/dashboard_quotes.py:143-313 | the loops publish what the old cache and the answer imply, and keep the cache equal to the one that the seed and the whole history imply |
| `AccountSnapshot.LoadStablePublication` | src/open_trader/account_snapshot.py:122-155 | the retry loop returns the first stable attempt, the first error, or gives up unstable after three |
| `AccountSnapshot.LoadSees` | src/open_trader/account_snapshot.py:126-152 | what a successful load returns was seen twice around the heartbeat and is paired unless the refresh was incomplete |
| `AccountSnapshot.CollectGotIff` | src/open_trader/account_snapshot.py:126-152 | an attempt succeeds if and only if two equal pairs of reads decode to a fitting pair around a readable heartbeat |
| `AccountSnapshot.UnstableAfterThree` | src/open_trader/account_snapshot.py:126-155 | three attempts that saw something move end as unstable |
| `AccountSnapshot.AccountParsedIff` | src/open_trader/account_snapshot.py:158-169 | exactly valid account files of version 1 are parsed |
| `AccountSnapshot.QuotesParsedIff` | src/open_trader/account_snapshot.py:172-242 | exactly quotes files with aware times, valid rows and matching counts are parsed |
| `AccountSnapshot.PairedIff` | src/open_trader/account_snapshot.py:376-410 | a pair fits if and only if the recomputed projection shows the same figures, rows and times |
| `AccountSnapshot.SkippedPairingIsUnavailable` | src/open_trader/account_snapshot.py:439-451 | every branch that skips the pairing check ends unavailable |
| `AccountSnapshot.SkippedIffRefused` | src/open_trader/account_snapshot.py:144-151 | the pairing check is skipped for exactly the failed or partial refreshes that the snapshot refuses |
| `AccountSnapshot.UnpricedIsUnavailable` | src/open_trader/account_snapshot.py:636-658 | one symbol without a valid price of its own leaves no snapshot |
| `AccountSnapshot.AvailableIsPaired` | src/open_trader/account_snapshot.py:61-155 | under every interleaving an available snapshot is built from a pair whose published projection equals the recomputed one |
| `AccountSnapshot.CommonInstant` | src/open_trader/account_snapshot.py:126-135 | if one of the two files is never republished, both were current at one common instant |
| `AccountSnapshot.SnapshotRows` | src/open_trader/account_snapshot.py:423-435 | the rows shown are those of the projection, sorted by their keys |
| `AccountSnapshot.SnapshotGenerations` | src/open_trader/account_snapshot.py:475-492 | accepted generations are shown as they are, missing ones as blank |
| `AccountSnapshot.AlertsExact` | src/open_trader/account_snapshot.py:661-681 | the alerts name exactly the stale brokers and stale quotes, each once and in order |
| `AccountSnapshot.StaleAfter` | src/open_trader/account_sync_state.py:366-382 | an accepted source is stale if and only if it is live and its success is more than 180 seconds old |
| `Sorting.SortRowsStable` | src/open_trader/account_snapshot.py:424-435 | rows come in the order of their keys, and rows with equal keys in their own order |
| `AccountParity.StaleAgrees` | src/open_trader/account_api.py:771-793 | the two staleness rules agree on every accepted source |
| `AccountParity.PositionsAgree` | src/open_trader/account_api.py:796-831 | the two position views, identifiers and orders agree |
| `AccountParity.TableAgrees` | src/open_trader/account_api.py:697-745 | the staleness dictionary gives the same flags, broker sources and alerts |
| `AccountParity.LatestIsLatest` | src/open_trader/account_snapshot.py:607-619 | in any order the chosen text is some broker's and no broker is later |
| `AccountParity.PicksFirstLatest` | src/open_trader/account_snapshot.py:607-619 | the text picked is that of the first broker, in the order given, with the latest instant |
| `AccountParity.FirstLatestExists` | src/open_trader/account_snapshot.py:607-619 | every order of accepted brokers has such a broker |
| `AccountParity.OrderIrrelevant` | src/open_trader/account_api.py:654-657 | if equal instants have equal texts the order of the brokers does not matter |
| `AccountParity.ParityPassesIff` | src/open_trader/account_api.py:854-923 | parity passes an available snapshot if and only if the first broker with the latest success in the fixed order and the first one in the file's order recorded it with the same text |
| `AccountParity.ParityPasses` | src/open_trader/account_api.py:606-923 | parity passes whenever equal instants are written the same way |
| `AccountParity.ParityAcceptsOnly` | src/open_trader/account_api.py:854-923 | of all payloads and tags parity passes exactly the snapshot of the pair and its tag |
| `AccountParity.CompareAccepts` | src/open_trader/account_api.py:854-972 | what is demanded of any payload: every field, both generations, the release and the tag |
| `AccountParity.TiedTextsFail` | src/open_trader/account_api.py:654-657 | one instant written in two ways makes parity refuse an available snapshot |
| `AccountParity.DemoRefused` | src/open_trader/account_api.py:854-923 | a given publication, with a summary for each broker, in the order in which the worker writes it and with one moment spelled in two time zones, is paired and available and parity refuses it |
| `AccountParity.LoadedSnapshotPasses` | src/open_trader/account_api.py:606-923 | under every interleaving parity has an answer for the pair that the snapshot was built from, and passes it if equal instants have equal texts |
| `RuntimePackages.Closure` | scripts/deployment_preflight.py:312-339 | ends on cyclic graphs; succeeds if and only if every reachable edge is good; returns exactly the reachable packages at their installed, locked versions |
| `RuntimePackages.Visit` | scripts/deployment_preflight.py:315-338 | one turn refuses exactly a bad edge; otherwise it keeps the worklist's invariant and gets closer to the end |
| `RuntimePackages.VerifyRuntimePackages` | scripts/deployment_preflight.py:293-339 | the same from the project and the chosen extras, with the Python, project and extra checks |
| `RuntimePackages.ClosureUnique` | scripts/deployment_preflight.py:312-339 | an answer is determined by the lock, so that the worklist, which may pop any pending edge, gives the same one in every order |
| `RuntimePackages.SamePackage` | scripts/deployment_preflight.py:331-338 | an edge whose name and extras were expanded before selects the same package and children, so skipping it loses nothing |
| `RuntimePackages.ChosenFits` | scripts/deployment_preflight.py:319-324 | the one package selected has the edge's name, version and source and a marker that holds, and no other listed package has |
| `RuntimePackages.ExtraEdgesIff` | scripts/deployment_preflight.py:336-338 | the edges added for extras are exactly those that the named extras list |
| `RuntimePackages.NoConflict` | scripts/deployment_preflight.py:326-327 | the conflict check cannot fire |
| `RuntimePackages.PathStaysInside` | scripts/deployment_preflight.py:314-338 | whatever contains the roots and is closed under dependencies contains everything reachable |
| `TestPartition.ShardNodeIds` | scripts/ci_partition.py:61-77 | accepts exactly the valid indexes and duplicate-free lists, and selects the sorted nodes of the bucket |
| `TestPartition.ShardMembers` | scripts/ci_partition.py:68-76 | a node is in the shard of its bucket as often as it was collected, and in no other |
| `TestPartition.ShardsCover` | scripts/ci_partition.py:61-77 | for any hash the shards of either service, three or four, partition its tests |
| `TestPartition.GroupsStayTogether` | scripts/ci_partition.py:70-74 | nodes with one group key always share a shard |
| `TestPartition.ParametersShareKey` | scripts/ci_partition.py:70-72 | all parameters of one test have one group key: the test, or the shared ports |
| `TestPartition.ParametersShareShard` | scripts/ci_partition.py:70-76 | two parameterizations of one test always share a shard |
| `TestPartition.PortsShareShard` | scripts/ci_partition.py:71-76 | all tests of the two files that need the shared ports share a shard |
| `TestPartition.RecoveryInFirstTwo` | scripts/ci_partition.py:73-74 | the recovery tests run only in the first two advisory shards |
| `TestPartition.VerifyFixpoint` | scripts/ci_evidence.py:177-185 | a verified partition proof validates again from its own lists |
| `TestPartition.VerifiedKept` | scripts/ci_partition.py:79-109 | sorting the lists does not change whether they verify |
| `TestPartition.RetiredExactly` | scripts/ci_partition.py:86-109 | in a verified partition the retired tests are exactly those of retired files that are not optional |
| `TestPartition.ProofAddsUp` | scripts/ci_partition.py:110-121 | the counts of a verified proof add up, and what covers the collection has the collection's fingerprint |
| `TestPartition.DescribeSame` | scripts/ci_partition.py:110-121 | the proof depends only on which nodes the lists hold |
| `TestPartition.ValidateRequiredShards` | scripts/ci_evidence.py:399-423 | accepts exactly seven records, one per required machine, of one run, with the expected nodes |
| `TestPartition.RecordsExecute` | scripts/ci_evidence.py:410-423 | what accepted records executed is exactly the executed part of the proof, with multiplicity |
| `TestPartition.CoveredExactlyOnce` | scripts/ci_evidence.py:399-423 | if both checks accept, every collected test is exactly once executed by a backend machine, retired or optional |
| `Sorting.SortOfPermutation` | scripts/ci_partition.py:56-57 | a fingerprint's order depends only on the elements |
| `CatalogReplay.ReadActiveIdentities` | scripts/run_nleg_cutover.py:1036-1066 | reading back to the newest anchor and replaying deltas oldest first gives the active members of the plain fold of the full history |
| `CatalogReplay.FoldFromReset` | scripts/run_nleg_cutover.py:1045-1054 | nothing before a row that replaces the membership matters |
| `CatalogReplay.LatestMentionDecides` | scripts/run_nleg_cutover.py:1045-1061 | the latest row that mentions an identity decides its membership and its entry, a removal over an addition |
| `YieldBaseline.SummarizeSamples` | scripts/lp_yield_baseline.py:87-201 | the counters are those of each round's first showing, and the coverage is that of the sample history |
| `YieldBaseline.CountWindow` | scripts/lp_yield_baseline.py:152-201 | a window feeds the counters only with rounds not seen before |
| `YieldBaseline.ShownOnce` | scripts/lp_yield_baseline.py:154-156 | every round shown is among the first showings exactly once |
| `YieldBaseline.SummaryCounts` | scripts/lp_yield_baseline.py:154-201 | the summary counts each distinct round without a decision once, and once for each of its causes, and has seen each distinct round once |
| `YieldBaseline.ScanCounts` | scripts/lp_yield_baseline.py:169-186 | a round's errors feed the class, retry, capacity and HTTP counters once for each distinct source key, with the first error of that key |
| `YieldBaseline.CausesFound` | scripts/lp_yield_baseline.py:169-201 | a round is put down to the causes of its counted errors, or to none that is known |
| `YieldBaseline.RaisedIsMaximum` | scripts/lp_yield_baseline.py:187-198 | the maxima are the highest values taken in, from zero |
| `YieldBaseline.IdentifiedMembers` | scripts/lp_yield_baseline.py:133-137 | exactly the rounds with a readable identity are looked at |
| `YieldBaseline.CountedIsLater` | scripts/lp_yield_baseline.py:119-122 | a sample counts only if it is later than every one before it |
| `YieldBaseline.NewInWindow` | scripts/lp_yield_baseline.py:142-143 | how many rounds of a ring window are new, whatever the overlap |
| `YieldBaseline.TotalsAddUp` | scripts/lp_yield_baseline.py:144-150 | one more total keeps seen, missed and left-censored rounds adding up to it |
| `YieldBaseline.Conservation` | scripts/lp_yield_baseline.py:129-156 | for one producer instance, the summary's distinct rounds seen plus missed plus left-censored equal the last reported total |
| `YieldBaseline.NoResets` | scripts/lp_yield_baseline.py:129-150 | one producer instance never counts as a reset |
| `YieldBaseline.NewInstanceResets` | scripts/lp_yield_baseline.py:129-131 | a new instance counts as one reset and its total starts over |
| `YieldBaseline.FallenTotalResets` | scripts/lp_yield_baseline.py:146-150 | a total that falls counts as one reset and nothing is missed |
| `TrendWatch.SendsAreAccounted` | src/open_trader/a_share_trend_watch.py:863-964 | across any kills and restarts a group has at most two attempts, the second repeats the first, and the messages sent are, text for text, those of the attempts and those lost before their record, so at most two and the lost ones |
| `TrendWatch.ClosedIsFinal` | src/open_trader/a_share_trend_watch.py:883-890 | nothing is sent after a delivered or exhausted event, whatever follows |
| `TrendWatch.SuccessCloses` | src/open_trader/a_share_trend_watch.py:936-950 | a finished success closes the group with one delivered event per symbol of its first attempt and no exhausted one |
| `TrendWatch.FailureExhausts` | src/open_trader/a_share_trend_watch.py:951-964 | a first failure leaves the group open, a second one exhausts it |
| `TrendWatch.FinishedSends` | src/open_trader/a_share_trend_watch.py:897-935 | a finished turn that may send does, and records what it sent, a first one the request's own text |
| `TrendWatch.OneSuccessSends` | src/open_trader/a_share_trend_watch.py:863-964 | over every run nothing is sent to a group after a finished success |
| `TrendWatch.SendPrefix` | src/open_trader/a_share_trend_watch.py:914-964 | what the records of a group are after any number of effects of one send |
| `TrendWatch.TakeKeeps` | src/open_trader/a_share_trend_watch.py:891-913 | one turn, killed anywhere, keeps the bound on attempts and that the second repeats the first |
| `TrendWatch.TakeChanges` | src/open_trader/a_share_trend_watch.py:914-964 | one turn changes a group by nothing, by a lost send, or by a send and its attempt with the same text |
| `TrendWatch.FlagIsParity` | src/open_trader/a_share_trend_watch.py:1189-1194 | the flag derived from an alternating log is the parity of its monitor events |
| `TrendWatch.ValidPrefix` | src/open_trader/a_share_trend_watch.py:1189-1250 | a log cut off anywhere is still valid |
| `TrendWatch.MonitorRunValid` | src/open_trader/a_share_trend_watch.py:185-265 | over every run with kills and restarts interruptions and recoveries alternate, no symbol triggers twice on a date, and the flag in memory is that of the log |
| `TrendWatch.Watcher.MonitorInterrupted` | src/open_trader/a_share_trend_watch.py:1189-1194 | the backward scan finds the flag that the log implies |
| `TrendWatch.Watcher.LoseQuotes` | src/open_trader/a_share_trend_watch.py:476-481 | an interruption is recorded once |
| `TrendWatch.Watcher.RecoverMonitor` | src/open_trader/a_share_trend_watch.py:218-225 | a recovery is recorded only after an interruption |
| `TrendWatch.Watcher.TriggeredOn` | src/open_trader/a_share_trend_watch.py:348-354 | reads exactly the symbols triggered on the date |
| `TrendWatch.Watcher.Poll` | src/open_trader/a_share_trend_watch.py:505-529 | every breached symbol ends with one trigger on the date and nothing else is recorded |
| `TrendWatch.Watcher.SendGroup` | src/open_trader/a_share_trend_watch.py:863-964 | an uninterrupted send has exactly the effects of a complete turn |
| `Backtest.SimulateTradingPlan` | src/open_trader/backtest.py:369-525 | refuses exactly the unusable setups, and otherwise returns the trades and equity rows of the ledger |
| `Backtest.BuyRunBalances` | src/open_trader/backtest.py:392-525 | a buy-side run alternates BUY and SELL of equal quantity after the run date, ends flat, and every cash balance is the initial cash plus the flow of the trades so far |
| `Backtest.BuyRunLargest` | src/open_trader/backtest.py:552-561 | every purchase is the largest whole number of shares within the weight budget |
| `Backtest.OverdrawsIff` | src/open_trader/backtest.py:394-407 | a purchase leaves non-negative cash if and only if its cost with commission is at most the cash left |
| `Backtest.CoveredPurchase` | src/open_trader/backtest.py:552-561 | cash that covers the weight budget with commission is never overdrawn |
| `Backtest.OverdrawnRun` | src/open_trader/backtest.py:392-440 | buy, stop out, buy again: a run whose cash becomes negative |
| `Backtest.AlwaysBalanced` | src/open_trader/backtest.py:392-485 | the ledger balances after every bar |
| `Backtest.LongRunTrades` | src/open_trader/backtest.py:393-440 | on each bar after the run date a held position is sold at the stop if touched, else at the best target reached, else kept; a flat one is bought at the zone's upper bound exactly when the bar meets the zone and a share is affordable |
| `Backtest.ShortRunTrades` | src/open_trader/backtest.py:443-465 | on each bar after the run date the position is sold at the stop if touched, else at the target if the bar falls to it, else kept |
| `Backtest.RowsMarked` | src/open_trader/backtest.py:467-485 | each row shows its bar and the cash and the position after it, valued at the close |
| `Backtest.EarlierTradesStay` | src/open_trader/backtest.py:392-525 | later bars never change earlier trades; at most the closing sale is added |
| `Backtest.SellRunLiquidates` | src/open_trader/backtest.py:441-525 | a sell-side run makes one sale of the whole position, dated after the run date if and only if the last bar is |
| `Backtest.SoldOnRunDate` | src/open_trader/backtest.py:487-507 | a run whose position is sold on the run date itself |
| `Backtest.PeakIsHighest` | src/open_trader/backtest.py:467-485 | before the closing sale every drawdown is measured from the highest equity so far, the initial cash included |
| `Backtest.RunMeasured` | src/open_trader/backtest.py:467-525 | the same of all rows of a finished run but a rewritten last one |
| `Backtest.ClosingPeakVisibleIff` | src/open_trader/backtest.py:487-525 | the peak that the last drawdown is measured from is the highest visible equity if and only if the last bar set no new high or slippage and commission take nothing of its close |
| `Backtest.HiddenPeak` | src/open_trader/backtest.py:508-525 | a run whose last drawdown refers to an equity that no row shows |
| `Backtest.WinningRoundTrips` | src/open_trader/backtest.py:661-672 | counts exactly the profitable sales that directly follow a purchase, on any list of trades |

## Left out

- Digests, JSON, CSV and message texts are abstract values; a digest may be any function of the content.
- Error texts and most error codes; where only success matters one error stands for several.
- Installer: the format checks of hashes and schema names in a receipt, symbolic-link checks, the two lock files, and stranded temporary files outside the payload directory.
- RunLock: writing the process id into the file; an inode is never used again after it is freed.
- Promotion: which of the nine outputs are promoted (`_should_promote_latest_fact`); source names are not scratch names.
- AccountState: the summary field and redaction of messages; timestamps are texts.
- AccountWorker: `build_portfolio_rows` and the exchange rates are an uninterpreted function; the clock checks, the diagnostic candidate files and the heartbeat; cleaning of the stored projection on load, since the portfolio does not depend on it.
- QuoteCache: how a US price session is chosen is a function parameter; the diagnostic texts; that a published success is too old is a given fact of the seed.
- AccountSnapshot: the projection, the quote universe and row validity are uninterpreted; a quote row is found under its own symbol.
- AccountParity: aware timestamps only, since comparing a naive one with an aware one raises; the retry loop around the check and the envelope field lists.
- RuntimePackages: grouping of the lock's packages by normalized name and the marker language are given.
- TestPartition: how tests are collected; the release-advisory shards are not required machines.
- CatalogReplay: SQLite access and the check that the table exists.
- SummarizeSamples: does not model interval durations, flaps, order latencies and placement estimates, because they summarize order rows and not the rounds that are accounted for.
- TrendWatch: the selection loop of `_retry_pending_callback_feishu_groups` appears as arbitrary requests; other channels, trading calendars, review callbacks and unknown-quote events are plain notes in the log; stored symbol lists that are not lists of texts.
- Backtest: Decimal precision and rendering; prices, cash and quantities are exact reals.
- Uncovered parts of the repository: HTTP servers and clients, reports, dashboards, order execution, relation catalogs and command-line handling.
