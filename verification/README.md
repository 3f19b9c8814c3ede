# Verification of the trade price platform

A model in Dafny of the parts of the platform that move data and tasks, and proofs about them. Run
`dafny verify dfyconfig.toml` to check everything.

**Dataset merge over an object store.** The store is a map from object keys to rows. The sink writes
one folder `{code}_{candle}_{start}_{end}.parquet` per pair; `merge_single` reads all folders of a
pair, writes a `TEMP_` folder, removes the target, copies file by file and deletes the superseded
folders, inside two retry layers and a `finally`. Every call on the store or on DuckDB is answered by
an oracle: it succeeds, or raises after any part of its effect. `Decimals`, `Ordering`,
`Calendar`, `DatasetNames` and `ObjectStore` hold the vocabulary; `MergeSpec` what an undisturbed merge does;
`MergeRun` the run call by call; `MergeErrors` which calls its errors come from. `MergeSafety`,
`MergeOutcome`, `MergeSurvival`, `MergeWindow` and `MergeRetries` prove what runs with failures keep,
`MergeProgress` what they recover from, `MergeFrame` what they leave alone, `MergeTidy` and `MergeLeftovers` what they leave behind,
`MergeCrash` what becomes of that later, and `MergeHazards` what they can lose. `MergeBatch` and
`MergeAll` treat many pairs; `Merger` is the object whose methods update the store in place and refine
`MergeRun`. `Sink` and `Pipeline` feed it.

**Task delivery.** `TaskProtocol` is a transition system over task rows, workers and transactions
left open: messages arrive any number of times, claims are guarded updates, all other writes are
not, any call may raise before, after or long before its effect, workers crash. `TaskSafety` proves
what every run keeps, `TaskOutcome` what runs with answered calls add, `TaskHazards` how little it
takes to lose that. `ConsumerRun` is one worker's loop as a function of what the world answers:
other workers change the table during each of its calls, and each call is logged as the protocol event
it amounts to. `ConsumerSafety` proves that the loop is a run of the protocol, so that its theorems
hold of the program, and that every message is accounted for; `Consumer` is the worker as an object
whose methods refine the loop.

**Shared resources.** `FileLock` is the lock table with its eviction, `ConnectionPool` the DuckDB
pool with loans, deletions, replacements and `close_all`.

**Series and texts.** `MovingAverage` and `Indicators` treat RSI, EMA, MACD and BIAS over the reals;
`ObjectUri` how writer and reader spell the same object; `SeedCodes` the code lists between the seed
generator and the loader.

Some promises turned out to hold only under a condition; the exact condition is proved instead:

- A merge keeps every key if nothing fails between the removal of its target and the copy of the data
  (`MergeWindow.WindowKeepsTimes`). Where that can fail but errors of removing superseded folders are
  final, it does if and only if the keys of a folder that already bears the target name also occur
  elsewhere (`MergeRetries.SurvivalExact`). Where both can fail and be retried, no store with a row is
  safe (`MergeHazards.NoStoreIsSafe`).
- A call leaves no unfinished folder behind if the store raises no auth errors
  (`MergeTidy.NothingLeftBehind`). It can if the clean-up raises one, because `moved` is not reset
  between the two executions of the auth retry (`MergeHazards.StaleMovedLeavesTemp`), and it can if the
  removal of the target raises one, because the second execution may publish under another name:
  exactly if losing objects of the target can change the dates (`MergeLeftovers.NothingLeftExactly`).
- Unfinished folders stay unread, and a later merge destroys those of its own name
  (`MergeCrash.CrashedKeys`).
- `merge_all_available_data` takes two unfinished folders of one code for datasets and merges them,
  across candles; it keeps to real pairs if and only if there are none such
  (`MergeAll.TasksCleanExactly`), but readers of real pairs see its normal form in any case
  (`MergeAll.ReadersReachNormalForm`).
- The second run of `merge_all_available_data` is idle if and only if every pair merged had a row.
- A task interrupted by an exception outside `Exception` is recorded as completed; a redelivery whose
  claim raises overwrites a completed row; a crashed winner's row stays running for good.
- The shutdown signal cuts the wait between attempts short, but the next attempt is still made
  (`ConsumerSafety.SignalCutsNoAttempt`).
- An exception that escapes (a failed acknowledgement, a failed hand-back, an interrupt) ends the
  worker without handing the rest of the batch back.
- Lock holders exclude each other for 1800 seconds only if calls do not overtake each other between
  reading the clock and getting the table; with a delay there, for that much less
  (`FileLock.SafeWindowExactly`).
- After `close_all` with connections on loan, a late return makes the pool hand out a closed one.
- Sink and merger spell an object differently if a non-empty base has an empty first or second segment.

Where `docs/blob_parquet_merger.md` and the code disagree (the glob of the sources, the move of the
unfinished folder), the model follows the code.

## Model

| member | source | states |
|---|---|---|
| `DatasetNames.PairOfFolderUnique` | infra/repo/data_meger/blob_parquet_meger.py:72-73 | a folder matches the glob prefix of at most one (code, candle) |
| `DatasetNames.TempIsNoDataset` | infra/repo/data_meger/blob_parquet_meger.py:153-154 | an unfinished `TEMP_` folder is never read as a dataset of any pair |
| `DatasetNames.FolderNameInjective` | infra/repo/data_meger/blob_parquet_meger.py:152 | the printed folder name determines code, candle and both dates |
| `DatasetNames.ParseInvertsPrint` | infra/repo/data_meger/blob_parquet_meger.py:241-245 | parsing any dataset folder of a clean pair gives its code and candle back |
| `DatasetNames.DatasetOfPart` | infra/repo/data_meger/blob_parquet_meger.py:65-70 | the path of a part file leads to its dataset folder, whatever the part is called |
| `Calendar.DateTextInjective` | infra/repo/data_meger/blob_parquet_meger.py:147-150 | the ten-character date text determines the date |
| `Calendar.DateTextDenotes` | infra/repo/data_meger/blob_parquet_meger.py:147-150 | read as decimal numbers, its four, two and two digits between hyphens are year, month and day |
| `Calendar.DateTextOrder` | infra/repo/data_meger/blob_parquet_meger.py:147-150 | the texts sort like the dates |
| `Calendar.InstantOrder` | infra/repo/data_meger/blob_parquet_meger.py:167 | trade times are ordered by the text of the day, and within a day by the time of day |
| `DatasetNames.FolderNameReads` | infra/repo/data_meger/blob_parquet_meger.py:152 | the folder name spelled out: code, candle, first day, last day, `.parquet`, each day readable in its place |
| `ObjectStore.SourceIsGlob` | infra/repo/data_meger/blob_parquet_meger.py:72-76 | the sources of a pair are the objects whose folder starts with code and candle and whose file starts with `part-`; the two objects of a folder are `part-00000.snappy.parquet` and `_SUCCESS` |
| `MergeSpec.MergedSorted` | infra/repo/data_meger/blob_parquet_meger.py:155-168 | the merged rows have strictly increasing `trade_time`, one for every `trade_time` read, each of them a row that was read |
| `MergeSpec.MergeConserves` | infra/repo/data_meger/blob_parquet_meger.py:143-184 | after a merge the pair has exactly one folder with one part file, named by the exact first and last day; its set of `trade_time` keys is the one before, and every row is an earlier row |
| `MergeSpec.MergedName` | infra/repo/data_meger/blob_parquet_meger.py:143-152 | the dates read from the name of the merged folder, start first, bound every row that was read and are days of such rows |
| `MergeSpec.MergedObjects` | infra/repo/data_meger/blob_parquet_meger.py:155-184 | after a merge the folder holds exactly the data file and the marker; every other folder of the pair with a part file and the unfinished folder are gone, and everything else is as it was |
| `MergeSpec.MergeIsLocal` | infra/repo/data_meger/blob_parquet_meger.py:115-184 | an undisturbed merge reads and writes nothing outside the folders of its pair and their unfinished folders |
| `MergeFrame.CallIsLocal` | infra/repo/data_meger/blob_parquet_meger.py:115-222 | whatever fails and is retried, a call changes nothing there either |
| `MergeFrame.BatchLeavesOthers` | infra/repo/data_meger/blob_parquet_meger.py:224-226 | whatever fails in a batch, and wherever it stops, every pair that is not in it keeps its rows and folders, even if the batch holds pairs made of unfinished folders; if it holds none, also its unfinished folders |
| `MergeSpec.MergeIdempotent` | infra/repo/data_meger/blob_parquet_meger.py:115-184 | a second merge of the pair changes nothing, even if it breaks ties differently |
| `MergeSpec.MergesCommute` | infra/repo/data_meger/blob_parquet_meger.py:115-184 | merges of any two pairs commute |
| `MergeBatch.BatchDependsOnSet` | infra/repo/data_meger/blob_parquet_meger.py:224-226 | the store after a batch depends only on the set of pairs, not on their order or repetition |
| `MergeBatch.BatchReads` | infra/repo/data_meger/blob_parquet_meger.py:224-226 | a pair in the batch ends exactly as if merged alone, any other pair is as before |
| `MergeSafety.PassKeepsKeys` | infra/repo/data_meger/blob_parquet_meger.py:141-184 | wherever one execution of the merge body stops, the first or the second of an auth retry, and whichever part of its effect the raising call still had, every `trade_time` key is in a folder of the pair or in the unfinished folder |
| `MergeSurvival.PassThenFinally` | infra/repo/data_meger/blob_parquet_meger.py:139-219 | with its `finally`, and under errors of any kind, an execution that starts with nothing moved loses no key if the keys under the target name also occur elsewhere, or if nothing fails between the removal of the target and the copy of the data |
| `MergeWindow.WindowKeepsTimes` | infra/repo/data_meger/blob_parquet_meger.py:115-222 | if nothing fails between the removal of the target and the copy of the data, a whole call ends with exactly the keys it found, whatever else fails, in its clean-up too, with whatever errors, and however it is retried |
| `MergeWindow.NothingInvented` | infra/repo/data_meger/blob_parquet_meger.py:115-222 | whatever fails and is retried, every row a reader of the pair sees after a call was there before |
| `MergeRetries.KeysSurvive` | infra/repo/data_meger/blob_parquet_meger.py:129-222 | a call keeps every key through both retry layers in such a quiet window, or, with failures in the window too, if the keys under the target name also occur elsewhere and errors of removing superseded folders are final |
| `MergeSurvival.BrokenCopyKeepsOthers` | infra/repo/data_meger/blob_parquet_meger.py:181-182 | when the copy of the data file fails, no key survives but those of the folders that do not bear the target name |
| `MergeRetries.SurvivalExact` | infra/repo/data_meger/blob_parquet_meger.py:129-222 | if failures in the window are not excluded but errors of removing superseded folders are final, a call keeps every key under all schedules if and only if every key of the folder that already bears the target name also occurs in another folder of the pair |
| `MergeSurvival.AbsentIsCovered` | infra/repo/data_meger/blob_parquet_meger.py:181 | in particular this holds whenever no folder bears the target name yet |
| `MergeHazards.RetryCanLoseEverything` | infra/repo/data_meger/blob_parquet_meger.py:195-219 | why these errors must be final where the window can fail: for every store in which the pair has a row, whether or not a folder bears the target name, there is a schedule of failing removals, none an auth error, under which the call ends with no key of the pair left |
| `MergeHazards.NoStoreIsSafe` | infra/repo/data_meger/blob_parquet_meger.py:115-222 | so a call keeps every key under all schedules of failures if and only if the pair has no row |
| `MergeTidy.NothingLeftBehind` | infra/repo/data_meger/blob_parquet_meger.py:139-219 | if the store raises no auth errors, then whatever else fails and however often it is retried, a call leaves no new or changed object outside the folders of the pair, unless it ends with the exception that kept its `finally` from removing the unfinished folder |
| `MergeLeftovers.NothingLeftExactly` | infra/repo/data_meger/blob_parquet_meger.py:139-219 | if only the clean-up raises no auth error and its removals raise none that is retried, the same holds under every schedule of the other failures if and only if no loss of objects of the target changes the dates the remaining rows span |
| `MergeLeftovers.StableLeavesNothing` | infra/repo/data_meger/blob_parquet_meger.py:139-219 | one half of it also for a store that holds an unfinished folder from an earlier run: what is left of that is as it was or gone |
| `MergeLeftovers.RenamedLeavesTemp` | infra/repo/data_meger/blob_parquet_meger.py:139-219 | where such a loss exists, an auth error of the target's removal lets the second execution publish under another name, and the call returns with the first unfinished folder left behind |
| `MergeHazards.StaleMovedLeavesTemp` | infra/repo/data_meger/blob_parquet_meger.py:139-184 | for every store in which the pair has a row, an auth error in the clean-up re-runs the body with `moved` still set, and a failure of that second run leaves the unfinished folder behind although the call returns |
| `MergeOutcome.AllOrNothing` | infra/repo/data_meger/blob_parquet_meger.py:115-222 | if only DuckDB calls fail, then under every schedule over both retry layers a call ends with the store as it was or fully merged, with no unfinished folder it made, after at most six executions of the body |
| `MergeOutcome.UndisturbedRun` | infra/repo/data_meger/blob_parquet_meger.py:115-222 | a call in which nothing fails returns with exactly the undisturbed merge |
| `MergeOutcome.UndisturbedExactly` | infra/repo/data_meger/blob_parquet_meger.py:115-222 | it ends in that store if and only if the unfinished folder it finds, if any, holds no file but the two it overwrites |
| `MergeProgress.FailuresAreRetried` | infra/repo/data_meger/blob_parquet_meger.py:129-222 | if data calls fail at any two moments with errors that the attempts retry, or at one moment with an auth error, and nothing else fails, the call returns with the undisturbed merge done |
| `MergeProgress.FailureIsRetried` | infra/repo/duckdb/gcs_auth_retry.py:31-43 | if any one call of the first execution fails with an auth error or a retried one, and nothing else fails, the call returns with all keys in one folder after at most one more execution, provided that the keys under the target name also occur elsewhere or the failure is not between the removal of the target and the copy |
| `MergeProgress.PassesExactly` | infra/repo/data_meger/blob_parquet_meger.py:129-212 | if reading never works, the body is executed once for an error that is not retried, twice for an auth error unless the refresh fails, and all that three times if the error that comes out of it, of the refresh if that fails, is retried; then the call gives up with the store as it was |
| `MergeProgress.EscapesFrom` | infra/repo/data_meger/blob_parquet_meger.py:115-222 | only exceptions of the listing, of a cursor, of a new connection or of the `finally` escape from a call |
| `MergeProgress.EscapesAt` | infra/repo/data_meger/blob_parquet_meger.py:115-138 | a failing listing, cursor or new connection ends the call at once with its exception; a pair without sources is left alone after the listing |
| `MergeProgress.FinallyEscapes` | infra/repo/data_meger/blob_parquet_meger.py:214-216 | a failing look of the `finally` escapes |
| `MergeCrash.CrashedKeys` | infra/repo/data_meger/blob_parquet_meger.py:141-222 | a process that dies in an execution of the body leaves each key in a folder of the pair or in its unfinished folder; no later undisturbed call makes the latter readable again, and it destroys keys found only there exactly if the rows still readable span the dates the dead execution named |
| `MergeCrash.StaleFolderFate` | infra/repo/data_meger/blob_parquet_meger.py:115-184 | any later undisturbed merge removes an unfinished folder if it publishes under that name, and leaves it as it is otherwise |
| `MergeBatch.UndisturbedBatch` | infra/repo/data_meger/blob_parquet_meger.py:224-226 | a batch in which nothing fails does the undisturbed merges of its pairs |
| `MergeBatch.BatchStops` | infra/repo/data_meger/blob_parquet_meger.py:224-226 | the pairs of a batch are merged in order, each on what the one before it left, and not all of them only if an exception escapes from the last |
| `MergeAll.CountDatasets` | infra/repo/data_meger/blob_parquet_meger.py:228-246 | the counting loop counts, for each pair, the distinct dataset folders in the listing, however many part files each holds |
| `MergeAll.CountIsFolders` | infra/repo/data_meger/blob_parquet_meger.py:228-246 | over a true listing of a well-named store the count of a pair is the number of its dataset folders; unfinished folders are counted too, under the pair (`TEMP`, code) |
| `MergeAll.UnfinishedIsPair` | infra/repo/data_meger/blob_parquet_meger.py:241-246 | an unfinished folder of any pair is well named, and matched by the glob of (`TEMP`, code), whatever its candle |
| `MergeAll.TasksCleanExactly` | infra/repo/data_meger/blob_parquet_meger.py:248-252 | the pairs to be merged are pairs of the writer if and only if no code has two unfinished folders |
| `MergeAll.UnfinishedAreMixed` | infra/repo/data_meger/blob_parquet_meger.py:248-257 | otherwise the unfinished folders of the code, of whatever candles, are merged into one folder with one row for each time |
| `MergeAll.NormalForm` | infra/repo/data_meger/blob_parquet_meger.py:228-257 | a run keeps the key set of every pair, does not rewrite a pair with one folder, and leaves every pair with rows with at most one |
| `MergeAll.SecondRunIdle` | infra/repo/data_meger/blob_parquet_meger.py:248-257 | the task list of a second run is empty if and only if every pair the first run merged had a row |
| `MergeAll.RunReachesNormalForm` | infra/repo/data_meger/blob_parquet_meger.py:228-257 | the same for the run itself, from listing to listing, with every folder still well named, if no code has two unfinished folders |
| `MergeAll.ReadersReachNormalForm` | infra/repo/data_meger/blob_parquet_meger.py:228-257 | for the readers of a pair the same with any number of unfinished folders: keys are kept, a single folder is not rewritten, a pair with rows ends with at most one |
| `MergeSafety.AbsentIsLeft` | infra/repo/data_meger/blob_parquet_meger.py:85-88 | of a folder that is not there no removal is tried |
| `Merger.BlobParquetMerger.RemoveDatasetFolder` | infra/repo/data_meger/blob_parquet_meger.py:85-88 | looks, then removes the folder if it exists |
| `Merger.BlobParquetMerger.MoveDatasetFolder` | infra/repo/data_meger/blob_parquet_meger.py:90-105 | lists, copies file by file, then removes the source, stopping where a call raises |
| `Merger.BlobParquetMerger.CleanupOldDatasets` | infra/repo/data_meger/blob_parquet_meger.py:106-113 | removes the other folders of the pair in name order |
| `Merger.BlobParquetMerger.MergeWithDuckdb` | infra/repo/data_meger/blob_parquet_meger.py:141-184 | one execution of the merge body, with the variables its `finally` reads, refines the run the theorems are about |
| `Merger.BlobParquetMerger.WithGcsAuthRetry` | infra/repo/duckdb/gcs_auth_retry.py:31-43 | after an auth error the token is refreshed and the body run exactly once more |
| `Merger.BlobParquetMerger.MergeSingle` | infra/repo/data_meger/blob_parquet_meger.py:115-222 | the object as a whole ends in the store and with the exception of that run |
| `Merger.BlobParquetMerger.BatchMerge` | infra/repo/data_meger/blob_parquet_meger.py:224-226 | the pairs in order until an exception escapes |
| `Merger.BlobParquetMerger.MergeAllAvailableData` | infra/repo/data_meger/blob_parquet_meger.py:228-257 | lists its own store, which may raise, then merges exactly the pairs whose count in that listing exceeds one |
| `Sink.PostProcessStamps` | technicals/pattern.py:207-229 | after the post-processing every row carries the exact first and last day of its (code, candle), and the groups are unchanged |
| `Sink.StampsAreRange` | technicals/pattern.py:207-229 | the stage keeps every row in its place; the dates it adds, start first, bound all rows of the same code and candle and are days of such rows |
| `Sink.GroupIsFilter` | infra/repo/pipline_model/pandas_trade_price_datasink.py:71 | the rows written for a pair are its rows in frame order, each as often as the frame has it |
| `Sink.GroupOfOne` | infra/repo/pipline_model/pandas_trade_price_datasink.py:71 | a row is in the group of exactly its own code and candle |
| `Sink.OneGroupPerPair` | infra/repo/pipline_model/pandas_trade_price_datasink.py:50-64 | the distinct grouping has exactly one group for each pair, with the exact first and last day of its rows |
| `Sink.DistinctInOrder` | infra/repo/pipline_model/pandas_trade_price_datasink.py:54 | groups are written in the order in which their first rows stand in the frame |
| `Sink.FoldersDiffer` | infra/repo/pipline_model/pandas_trade_price_datasink.py:65 | different groups go to different folders |
| `Sink.SavedAt` | infra/repo/pipline_model/pandas_trade_price_datasink.py:56-97 | every group ends in its own folder with exactly its rows and marker, and nothing else changes |
| `Sink.SaveFrame` | infra/repo/pipline_model/pandas_trade_price_datasink.py:56-108 | whatever fails, a save writes only the two files of the folders it was asked for, each with the rows of its group |
| `Sink.SaveAllReports` | infra/repo/pipline_model/pandas_trade_price_datasink.py:56-108 | a save that reports no error has written every group; one that reports an error stopped at a group with the error of a call made for it, all groups before it are written, and nothing but its folder is changed besides |
| `Sink.SaveStopsAt` | infra/repo/pipline_model/pandas_trade_price_datasink.py:56-108 | so the files of the groups before hold their rows, and the folders of the groups after are untouched |
| `Sink.SaveGroupAnswers` | infra/repo/duckdb/gcs_auth_retry.py:31-43 | what the save of one group reports, and after how many calls, for every answer of these: an error that is no auth error at once, else that of the refresh or of the second and last try |
| `Sink.MergedAreWritten` | technicals/pd_helper.py:8-31 | the pairs merged after a save are exactly the pairs written |
| `Sink.DistinctPairsSorted` | technicals/pd_helper.py:8-31 | they are merged in the order of their codes and, for one code, of their candles |
| `Sink.TradePriceParquetSink.Save` | infra/repo/pipline_model/pandas_trade_price_datasink.py:39-108 | the sink object refines that save; if it reports no error, every group is written |
| `Pipeline.EffectsRan` | service/pipline/pipline_service.py:70-79 | sink and actions run in order, each on the world the one before it left; all but the last that ran succeeded, not all ran only if the last failed, and its error is reported |
| `Pipeline.RunAllAnswers` | service/pipline/pipline_service.py:51-81 | the stages pass the frame on until one raises, which ends the run with nothing written; if the sink reports an error the run ends with it, in the world the sink left |
| `Pipeline.Pipline.Run` | service/pipline/pipline_service.py:51-81 | the object answers so, and nothing runs unless both data set and sink are set |
| `Pipeline.EndToEnd` | service/pipline/pipline_service.py:51-81 | without failures each pair of the frame ends with one folder, strictly sorted; its keys are the new ones plus those of every earlier folder except one overwritten by name, and every row is an input row |
| `Pipeline.EndToEndFrame` | service/pipline/post_actions.py:9-24 | whatever fails in the sink or in the merges, and wherever the run ends, objects of other pairs are untouched |
| `Pipeline.WholeRun` | service/pipline/pipline_service.py:51-81 | the same from the raw frame on, through the post-processing stage |
| `TaskSafety.AtMostOnce` | service/consumer/gcp_consumer.py:162-244 | over all workers and every interleaving with redelivery, crashes and exceptions: at most one claim per task takes effect, and its handler is called at most three times, again only after a transient failure |
| `TaskSafety.OneOwner` | infra/repo/pg_dao.py:473-502 | no two workers are ever busy with the same won task |
| `TaskSafety.RankNeverFalls` | infra/repo/pg_dao.py:419-502 | between any two moments of any run a row does not go back to pending, nor from an end to anything but an end, and keeps its event |
| `TaskSafety.RunningOnlyFromPending` | infra/repo/pg_dao.py:486-496 | a row starts running only by a claim that takes effect while it is pending and was never won |
| `TaskOutcome.WinnerLeavesByAck` | service/consumer/gcp_consumer.py:210-244 | a worker whose claim took effect and was answered leaves its task only by acknowledging as its winner or by crashing, whatever anyone does and whichever calls raise |
| `TaskOutcome.StatusAgreesAtAck` | service/task/task_coordinator.py:43-85 | when claims and status writes are answered, from the winner's acknowledgement on the row is terminal: completed exactly when some handler call returned after transient failures only (or was interrupted), with the handler's stage; failed otherwise, with the message of the last failure and the stage it was claimed with, or `claim` if that is none of the seven stages |
| `TaskOutcome.OnlyWinnersWrite` | service/consumer/gcp_consumer.py:210-234 | a step that changes an existing row is a claim that wins it or a step of its owner: a delivery that lost the claim changes no row |
| `TaskOutcome.StrandedForGood` | service/consumer/gcp_consumer.py:236-244 | the row of a crashed winner stays running for good, whatever is redelivered |
| `TaskOutcome.CrashStrands` | service/task/task_coordinator.py:59-85 | a crash of the owner of a won task leaves such a row exactly if the row is still running then, in particular whenever the handler or the closing write is under way |
| `TaskHazards.RaisingClaimOverwrites` | service/consumer/gcp_consumer.py:210-221 | why claims must not raise: a redelivery whose claim raises turns even a completed row into a failed one; one whose claim is answered changes nothing |
| `TaskHazards.LateClaimStrands` | infra/repo/pg_dao.py:473-502 | a claim that raised and whose transaction lands later starts the row although nobody works on it, unless the error report took effect before; one that is discarded changes nothing |
| `TaskHazards.CompletedNeedsItsWrite` | service/task/task_coordinator.py:43-56 | the row of a returned task for every reply of its two writes: completed exactly when the closing write is answered, or took effect although it raised and the error report did not; else failed with the text of that exception, or still running |
| `TaskHazards.FailureNeedsOneWrite` | service/taskevent/helper.py:79-97 | the row of a task that failed for good for every reply of its two writes: failed exactly when one of them took effect, with the stage and text of the one that wins |
| `ConsumerSafety.BatchConserves` | service/consumer/gcp_consumer.py:123-150 | the first messages of a batch are received once each in order, the others not at all; the acknowledged ids are a prefix and the ids handed back exactly the rest if and only if nothing escapes, or an interrupt does after the last acknowledgement; a rest is left only if the shutdown signal was seen or something escaped |
| `ConsumerSafety.WorkedEscapesAtLast` | service/consumer/gcp_consumer.py:123-150 | a batch escapes at the last message it took up, after all before it ended normally and the signal was not seen |
| `ConsumerSafety.ProcessedExactly` | service/consumer/gcp_consumer.py:236-244 | a delivery wins its task exactly when its claim takes effect, and escapes exactly when the acknowledgement fails, or the handler was interrupted and the closing write is answered; it ends with the worker idle |
| `ConsumerSafety.StartedSmooth` | service/consumer/gcp_consumer.py:103-154 | if the queue takes every answer and no handler is interrupted, nothing escapes from the worker |
| `ConsumerSafety.StartedConserves` | service/consumer/gcp_consumer.py:103-154 | unless something escapes, what the worker pulled is acknowledged or handed back exactly as often as it was pulled, and it stops pulling only because it saw the signal |
| `ConsumerSafety.StartedEscapesAtLast` | service/consumer/gcp_consumer.py:103-154 | a worker that something escapes from has pulled no batch after the one it escaped from |
| `ConsumerSafety.AttemptsExactly` | service/task/task_coordinator.py:59-85 | the handler is called up to and including its first answer that is not a transient failure, at most three times, and that answer is the outcome |
| `ConsumerSafety.SignalCutsNoAttempt` | service/task/task_coordinator.py:79-83 | under any two schedules of the shutdown signal the attempts and their outcome are the same |
| `ConsumerSafety.WonRowIsSettled` | service/consumer/gcp_consumer.py:236-244 | the status theorem for this program: by the time a delivery that won is acknowledged the row is terminal, completed exactly when a handler call returned or was interrupted |
| `ConsumerSafety.HandledAtMostOnce` | service/consumer/gcp_consumer.py:103-154 | the claim theorem for this program, among any other workers |
| `Consumer.GCPMessageConsumer.DbClaimTask` | infra/repo/pg_dao.py:473-502 | the row if this worker won it, nothing if it is gone or taken, or the exception |
| `Consumer.GCPMessageConsumer.UpdateTaskEvent` | service/taskevent/helper.py:121-143 | an unguarded write, by what `execute` or `handle_error` owes at that point |
| `Consumer.GCPMessageConsumer.HandleError` | service/taskevent/helper.py:79-97 | the error report; a failing write is swallowed |
| `Consumer.GCPMessageConsumer.ExecuteWithRetry` | service/task/task_coordinator.py:59-85 | the loop makes the attempts described by `ConsumerSafety.AttemptsExactly`, with a look at the signal in each wait |
| `Consumer.GCPMessageConsumer.Execute` | service/task/task_coordinator.py:37-56 | the status is written however the attempts end; a failing write is raised instead of what the attempts raised, and an interrupt passes only if it is answered |
| `Consumer.GCPMessageConsumer.ExecuteTaskEvent` | service/consumer/gcp_consumer.py:223-234 | an exception or an unregistered event is reported, an interrupt passes; the in-flight count is back where it was |
| `Consumer.GCPMessageConsumer.PrepareTaskEvent` | service/consumer/gcp_consumer.py:194-221 | a row to execute, or a message that is done with |
| `Consumer.GCPMessageConsumer.ProcessMessage` | service/consumer/gcp_consumer.py:236-244 | received once, acknowledged however the handling ends, as `ConsumerSafety.ProcessedExactly` says; if nothing escapes its id leaves the pending list |
| `Consumer.GCPMessageConsumer.ProcessBatch` | service/consumer/gcp_consumer.py:123-150 | the loop over the batch and the hand-back refine what `ConsumerSafety.BatchConserves` is about; if the queue takes every answer and no handler is interrupted, every id is acknowledged or handed back |
| `Consumer.GCPMessageConsumer.Close` | service/consumer/gcp_consumer.py:156-179 | a second call does nothing; the first lets go of the subscriber |
| `Consumer.GCPMessageConsumer.Start` | service/consumer/gcp_consumer.py:103-154 | the whole life refines what `ConsumerSafety.StartedConserves` is about, and ends closed with nothing in flight; if the queue takes every answer and no handler is interrupted, every message pulled is acknowledged or handed back exactly as often as it was pulled |
| `FileLock.MutualExclusion` | core/file_lock/file_lock_manager.py:18-36 | two clients are never inside for the same path while both are within 1800 seconds of their calls, whatever other calls and evictions happen |
| `FileLock.TimeoutIsSharp` | core/file_lock/file_lock_manager.py:38-52 | a second client gets in beside one that stays `held` seconds exactly when that exceeds 1800 |
| `FileLock.SafeWindowExactly` | core/file_lock/file_lock_manager.py:28-36 | if calls may take up to `delay` seconds between reading the clock and getting the table, two clients are never inside within `window` seconds of their calls, in any run, if and only if `window + delay` is at most 1800 |
| `FileLock.OvertakingBreaksExclusion` | core/file_lock/file_lock_manager.py:28-36 | the run behind that bound: a call that reads the clock first and gets the table last lets a second client in beside one that is in time |
| `FileLock.FileLocker.Cleanup` | core/file_lock/file_lock_manager.py:38-52 | exactly the entries idle for more than the timeout go |
| `FileLock.FileLocker.GetLock` | core/file_lock/file_lock_manager.py:18-36 | one lock for the path, new only if there is none left after the eviction |
| `ConnectionPool.RunConserves` | infra/repo/duckdb_manager.py:44-75 | in every run of clients that return or delete only what they hold, idle and lent connections are disjoint, free of duplicates and together the managed ones, and none is closed |
| `ConnectionPool.HandedIsFree` | infra/repo/duckdb_manager.py:44-49 | `get_conn` never hands out a connection on loan or closed |
| `ConnectionPool.DeletedNeverReturns` | infra/repo/duckdb_manager.py:65-75 | a deleted connection is never idle, lent, managed or handed out again |
| `ConnectionPool.RetriesKeepLoans` | infra/repo/data_meger/blob_parquet_meger.py:195-208 | any number of merge retries whose replacements succeed keeps the number of loans and leaves the merger with an open connection of its own |
| `ConnectionPool.ReplaceConserves` | infra/repo/data_meger/blob_parquet_meger.py:205-208 | one replacement: the old connection is closed, and the loan is lost exactly when no other connection can be had |
| `ConnectionPool.CloseAllExact` | infra/repo/duckdb_manager.py:77-93 | after `close_all` the pool is sound, and never hands out a closed connection, if and only if nothing was on loan |
| `ConnectionPool.AllAreClosed` | infra/repo/duckdb_manager.py:77-93 | it closes the idle connections and those on loan, and no others |
| `ConnectionPool.DuckDBManager.Initialize` | infra/repo/duckdb_manager.py:19-24 | as many idle connections more as asked for, or as could be made |
| `ConnectionPool.DuckDBManager.GetConn` | infra/repo/duckdb_manager.py:44-49 | an idle connection, else a new one, never one on loan or closed |
| `ConnectionPool.DuckDBManager.ReturnConn` | infra/repo/duckdb_manager.py:59-63 | a held connection becomes the last idle one |
| `ConnectionPool.DuckDBManager.ReturnAndDelete` | infra/repo/duckdb_manager.py:65-75 | a held connection is closed and forgotten |
| `ConnectionPool.DuckDBManager.CloseAll` | infra/repo/duckdb_manager.py:77-93 | everything managed is closed and nothing is left idle or managed |
| `ConnectionPool.DuckDBManager.Replace` | infra/repo/data_meger/blob_parquet_meger.py:205-208 | what the merger holds after a retriable error |
| `MovingAverage.AdjustedIsWeightedMean` | util/process.py:186-187 | the running mean equals the sum weighted by powers of `1 - alpha` over the sum of the weights, gaps included |
| `MovingAverage.RecursiveIsWeightedSum` | technicals/indicator.py:312-314 | the recursive average equals its closed weighted sum, and the weights add up to one |
| `MovingAverage.EwmAffine` | util/process.py:186-187 | scaling and shifting a series does the same to its mean |
| `MovingAverage.EwmBetween` | util/process.py:186-187 | the mean lies between the least and the greatest entry |
| `MovingAverage.PositiveExactly` | technicals/indicator.py:312-314 | for `alpha` below one the mean of non-negative entries is positive exactly if some entry is |
| `Indicators.AveragesAreWeightedSums` | technicals/indicator.py:312-314 | both averages behind RSI are such weighted sums of all moves so far |
| `Indicators.WilderWeightsFade` | technicals/indicator.py:312-314 | each move weighs `(n - 1) / n` of the one after it, and the last one `1 / n` |
| `Indicators.RsiInRange` | technicals/indicator.py:316-321 | RSI lies between 0 and 100 where it is defined |
| `Indicators.RsiScales` | technicals/indicator.py:300-321 | RSI ignores positive scaling of the prices |
| `Indicators.RsiReflects` | technicals/indicator.py:300-321 | for prices `c - p` RSI is 100 minus itself, and defined at the same prices |
| `Indicators.RsiAtEnds` | technicals/indicator.py:300-321 | for periods of at least 2: 100 exactly when no price fell and some rose, 0 exactly the other way round, undefined exactly before price `n` and while all prices are equal |
| `Indicators.RsiOfOne` | technicals/indicator.py:300-321 | for a period of 1 RSI only says which way the last price went |
| `Indicators.EmaInRange` | technicals/indicator.py:474-479 | EMA lies between the least and the greatest price seen |
| `Indicators.EmaTransforms` | technicals/indicator.py:474-479 | EMA(c p + b) = c EMA(p) + b |
| `Indicators.EmaIsWeightedMean` | technicals/indicator.py:474-479 | EMA is the weighted mean of all prices so far |
| `Indicators.SpanWeightsFade` | technicals/indicator.py:474-479 | each price weighs `(span - 1) / (span + 1)` of the one after it |
| `Indicators.MacdFamilyTransforms` | technicals/indicator.py:386-396 | MACD, signal and histogram ignore a shift of the prices and follow their scale |
| `Indicators.MacdParts` | technicals/indicator.py:386-396 | MACD and the slow average make the fast one, histogram and signal make MACD, and the signal is the weighted mean of the MACD values so far |
| `Indicators.MacdSign` | technicals/indicator.py:386-392 | with the shorter span first, MACD is not negative while prices never fall, and positive if the last price rose; while they never rise the other way round |
| `Indicators.SignalFrom` | technicals/indicator.py:386-396 | MACD is defined from index max(fast, slow) - 1 on, signal and histogram from (max(fast, slow) - 1) + (signal - 1) on |
| `Indicators.BiasRecoversPrice` | technicals/indicator.py:574-582 | BIAS is the distance of the last price from EMA in percent of EMA |
| `Indicators.BiasSign` | technicals/indicator.py:574-582 | it is positive exactly when the last price is above a positive average or below a negative one; prices that are not negative have a positive average |
| `Indicators.BiasScales` | technicals/indicator.py:574-582 | BIAS ignores the scale of the prices |
| `ObjectUri.StripsAgree` | infra/repo/object_storage.py:29-33 | both versions of `strip_uri_scheme` agree on every string, although they try the prefixes in different orders |
| `ObjectUri.ToUriIdempotent` | infra/repo/duckdb/config.py:29-38 | `to_uri` is idempotent on every string |
| `ObjectUri.SameObjectExactly` | infra/repo/data_meger/blob_parquet_meger.py:54-60 | the sink and the merger address the same object for a key if and only if the base without its scheme is empty, or its first segment is not and neither is its second if it has one |
| `ObjectUri.UrisSpelled` | infra/repo/duckdb/gcs_config.py:72-76 | whatever scheme the base has, the writer prints `gs://`, the base and the key, and the merger the same of a base without empty segments in front |
| `ObjectUri.ToUriSpelled` | infra/repo/duckdb/config.py:29-38 | `to_uri` of bucket and key with any scheme is `gs://bucket/key` |
| `ObjectUri.KeysStayApart` | infra/repo/duckdb/gcs_config.py:72-76 | with such a base, different keys are different objects |
| `SeedCodes.ParseInvertsPrint` | infra/repo/data_loaders/sql_loader.py:20-33 | the loader reads back what the generator printed, for every list of integers |
| `SeedCodes.IntTextDenotes` | script/_gen_seed_all_companies.py:44-45 | a printed code is the decimal text of the integer, a minus sign before negative ones |
| `SeedCodes.JoinedText` | script/_gen_seed_all_companies.py:44-45 | codes are separated by a comma and a space |
| `SeedCodes.PlainCode` | infra/repo/data_loaders/sql_loader.py:20-33 | a code that is no list is one code without the white space around it, or none if it is blank |
| `SeedCodes.ParseJson` | infra/repo/data_loaders/sql_loader.py:22-26 | a printed list with anything but white space behind it is refused |
| `SeedCodes.LeadingZeroRefused` | infra/repo/data_loaders/sql_loader.py:22-26 | so is a number with needless zeros |
| `SeedCodes.SeedRoundTrip` | script/_gen_seed_all_companies.py:38-45 | for every list and every chunk size from 1 on, printing the chunks, reading them and concatenating gives the decimal texts in order; every chunk but the last has exactly n codes and none is empty; smaller sizes are refused |
| `SeedCodes.ChunksFromOk` | script/_gen_seed_all_companies.py:38-41 | the chunks from any index on are exactly the rest of the list |

## Left out

- Assumptions on names: codes and candles contain no `_`, `/`, glob characters or `.parquet`, and no code is `TEMP`, except that the theorems about one merge also cover the pairs (`TEMP`, code) under which unfinished folders are counted; paths are relative to the base path.
- Single-object writes are atomic, dataset folders hold only part files and the marker, and one merger works on a pair at a time, as the class documentation demands.
- The marker is written through DuckDB or through the file system, depending on the configuration; both are one call here, counted with DuckDB, that may raise any error in every theorem about failures.
- `trade_time_date` is taken to be the calendar day of `trade_time`, as the post-processing computes it.
- Ties among rows with equal `trade_time` are broken by an arbitrary but fixed function of the rows read; MergeSpec.MergeIdempotent allows a different one in the second merge.
- MergeOutcome.AllOrNothing: assumes that the unfinished folder of the pair, if one is found, holds nothing but the two files a merge writes; even an undisturbed call that finds another file there moves it into the target, by MergeOutcome.UndisturbedExactly.
- MergeRetries.KeysSurvive: makes the same assumption for errors of the store that are retried, and so do MergeWindow.WindowKeepsTimes, MergeLeftovers.StableLeavesNothing and MergeCrash.CrashedKeys.
- MergeWindow.NothingInvented: makes it for all unfinished folders of the pair.
- MergeProgress.FailureIsRetried: makes it too, and promises the keys but not the rows of the undisturbed merge, since a second execution chooses again among rows with equal `trade_time`; MergeProgress.FailuresAreRetried makes it for the unfinished folder of the coming merge.
- Pipeline.EndToEnd: makes it for the unfinished folders of the pairs of the frame, and so does Pipeline.WholeRun; unfinished folders of other pairs are unrestricted.
- MergeAll.UnfinishedAreMixed: makes it for the unfinished folder of the pair (`TEMP`, code).
- MergeAll.ReadersReachNormalForm: makes it for all unfinished folders, and leaves out two folders `TEMP_TEMP_`, of unfinished folders of unfinished folders.
- MergeHazards.NoStoreIsSafe: makes the same assumption, and so does MergeHazards.StaleMovedLeavesTemp.
- MergeRetries.SurvivalExact: leaves out retried errors of the removal of superseded folders, under which no store with a row is safe by MergeHazards.NoStoreIsSafe unless nothing fails in the window.
- MergeLeftovers.NothingLeftExactly: leaves out stores that already hold an unfinished folder of the pair, whose old objects can be the ones left behind, and retried errors of removing superseded folders, which MergeTidy.NothingLeftBehind covers when the store raises no auth errors.
- MergeAll.RunReachesNormalForm: assumes that every folder with a part file, unfinished or not, bears the name of a pair or a name without a pair, and no code has two unfinished folders; excluded are names such as `a_b.parquet`, which the counting reads but the glob does not match, and nested folders.
- Rows with a missing code or candle, the schema checks around the sink, and the lock the sink takes around each group.
- Opening of cursors in the sink, `PRAGMA shrink_memory`, logging, and the waits between retries and while draining.
- Pub/Sub, PostgreSQL, DuckDB, pandas and JSON internals: they appear as oracles and as the functions they compute.
- `TaskCoordinator` hands enumeration members to text fields; the model stores their values, as intended.
- Failures of building a handler other than an unregistered event name, and handlers that change the task's stage while they run.
- TaskSafety.AtMostOnce: excludes resets of a row to pending from outside the workers, which would void it.
- The row lock a pending transaction holds: a transaction left open may land at any time here, so the theorems cover more runs than the database allows.
- Consumer.GCPMessageConsumer.Execute: its contract names the run of ConsumerRun; the coordinator, the event helper and the database access are methods of the one worker object, so aliasing between the source's objects is not modelled.
- Interrupts (exceptions outside `Exception`) arrive only while the handler runs.
- Threads inside one worker: its loop is sequential, so the drain of `close` always finds nothing in flight at the end of `start`.
- FileLock.MutualExclusion: takes calls that do not overtake each other between the clock and the table; FileLock.SafeWindowExactly says what is left otherwise. The clock never goes back.
- Floating point, infinities other than a zero loss in RSI, rounding to two decimals, and a BIAS column computed from an average column already in the frame.
- Indicators.BiasScales: a BIAS over a zero average counts as missing.
- JSON values other than arrays of integers, and the limit on the digits of an integer in Python.
- `StatusManager`, `Trade`, candle classifiers, Bollinger bands, `BlobParquetDataHelper`, the log and decimal helpers, configuration, command line, credentials and migrations: only easy members.
