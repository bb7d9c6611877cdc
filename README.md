# YouTube ETL pipeline, modelled in Dafny

This project models the YouTube analytics ETL job. The job has four parts:

- **Collector.** It searches YouTube for videos by region and keyword. It classifies each video's sentiment, scores its engagement and assembles one record per video returned. It gathers the channels of those videos, with their ids deduplicated in first-seen order and requested in chunks of 50. It names the day's blobs `raw/<year>/<MM>/<DD>/<kind>_<YYYYmmdd_HHMMSS>.json`.
- **Warehouse loader** (`SnowflakeLoaderService`). It loads the day's files into Snowflake in five phases: staging, channel merge, fact merge, aggregate refresh and staging cleanup. It commits after each phase and rolls back a phase that fails. A failure in one of the first three phases ends the load with False; a failure in the last two is logged and skipped.
- **Older loader** (`SnowflakeLoader`). It runs the same five steps with no commit and no rollback. The first exception ends the run, and the work already done stays. Its fact load is a plain `INSERT`, with no check for ids already loaded. `main` turns the outcome into an exit code.
- **Configuration** (`Config`, `AzureFunctionConfig`). This covers environment settings, the keyword and category lists, the dry-run override and the two `validate` methods.

Modules:

| file | module | models |
|---|---|---|
| wrappers.dfy | `Wrappers` | `Option` and `Result` |
| seqs.dfy | `Seqs` | first-seen deduplication, `range(0, n, 50)` chunking, counting |
| text.dfy | `Text` | ASCII lower-casing, substring test, `join`, zero padding, lexicographic order, SQL `LIKE` |
| settings.dfy | `Settings` | `Config` (a class, since the dry-run block reassigns its fields), `AzureFunctionConfig.validate` |
| classifier.dfy | `Classifier` | `classify_video`, `calculate_engagement` (both copies, configuration as a parameter) |
| blob_naming.dfy | `BlobNaming` | date partition paths and blob names |
| collector.dfy | `Collector` | the search filter, the chunked look-ups, the nested collection loops, the channel dict, `print_summary` counting |
| warehouse.dfy | `Warehouse` | each SQL statement as a function on the tables; a `Database` class with one method per statement, plus commit and rollback |
| loading.dfy | `Loading` | phases, connector handles, injected faults |
| azure_loader.dfy | `AzureLoader` | `SnowflakeLoaderService` and a pure specification of one run |
| legacy_loader.dfy | `LegacyLoader` | `SnowflakeLoader` and `main` |

The YouTube API, the blob store and the connector appear only as parameters. A search, video or channel request is a function that may answer `None`, meaning "raised". The files on the stage are a list of (path, elements). The clock is a parameter. Where an exception is raised is a `Fault` parameter: `RaisesAt(k)` means statement `k` of an operation raises and the statements before it complete. For a warehouse-loader phase, `k` equal to the number of statements means the commit raises.

Behaviour of the code that its comments and design do not suggest:

- The fact merge does not keep one row per video. `SELECT DISTINCT` collapses only rows equal in every column. A video found under two keywords has two staging rows that differ in keyword and `collected_at`, and both are inserted (`Warehouse.MergeFactsKeepsBothRowsOfOneVideo`). What the merge does guarantee is that an id present before the phase is never inserted again and no existing row changes (`Warehouse.MergeFactsSpec`).
- A connect that fails after the connection object exists returns False before the `try`/`finally`, so that connection is never closed. This holds in both loaders (`AzureLoader.SnowflakeLoaderService.LoadTodaysData`, `LegacyLoader.LoaderMain`).
- The two `validate` methods check different keys. The script's checks three (`Settings.Config.Validate`); the function app's checks seven (`Settings.ValidateFunctionConfig`).

## Model

| member | source | states |
|---|---|---|
| Seqs.DedupSpec | src/youtube_collector.py:170-179 | `list(d.keys())` after `d[k] = None` for each id: no duplicates, the same elements as the input, never longer |
| Seqs.DedupFirstSeenOrder | src/youtube_collector.py:171-179 | the distinct ids keep the order of their first occurrences |
| Seqs.FirstIndexOfPrefix | src/youtube_collector.py:171 | the first occurrence of an id within a prefix is its first occurrence in the whole list |
| Seqs.FirstIndexOfNew | src/youtube_collector.py:171 | an id not seen before first occurs where it is appended |
| Seqs.ChunksPartition | src/youtube_collector.py:181-182 | the slices `ids[i:i+50]` cover the list exactly once, in order; each is non-empty and at most 50 long, and all but the last are exactly 50 |
| Seqs.Count | src/youtube_collector.py:249-251 | an occurrence count is at most the length, and positive iff the element occurs |
| Text.Lower | src/youtube_collector.py:72 | `lower()` keeps the length and lower-cases each character |
| Text.Decimal | src/youtube_collector.py:205 | `str(n)` is a non-empty digit string |
| Text.Pad2 | src/youtube_collector.py:205 | `:02d` gives digits, exactly two for numbers below 100 |
| Text.ValueOfDecimal | src/youtube_collector.py:205 | `str(n)` reads back as `n` |
| Text.ValueOfPad2 | src/youtube_collector.py:205 | `:02d` reads back as the number |
| Text.LexLessIrreflexive | azure-functions/function_app.py:608 | file-name order is irreflexive |
| Text.LexLessTransitive | azure-functions/function_app.py:608 | file-name order is transitive |
| Text.LexLessTotal | azure-functions/function_app.py:608 | file-name order is total on distinct names, so the greatest file name is unique |
| Text.LikeAnything | azure-functions/function_app.py:584 | `%` matches every string |
| Text.LikePercentIntro | azure-functions/function_app.py:584 | `%q` matches when `q` matches some suffix |
| Text.LikePercentElim | azure-functions/function_app.py:584 | `%q` matches only when `q` matches some suffix |
| Text.LikeLiteral | azure-functions/function_app.py:584 | a wildcard-free prefix of the pattern must match the string's prefix literally |
| Text.LikeContainsFollowed | azure-functions/function_app.py:584 | `LIKE '%lit_%'` holds iff `lit` occurs with at least one character after it (`_` is a one-character wildcard) |
| Text.LikeBetween | azure-functions/function_app.py:584 | a wildcard-free word with text on both sides and at least one character after it matches `%<word>_%` |
| Text.NotOccursFollowedWithout | azure-functions/function_app.py:584 | a literal cannot occur in a string missing its first character |
| Classifier.KeywordHits | src/youtube_collector.py:77-78 | the hit count is at most the number of configured words |
| Classifier.KeywordHitsCountsDistinctWords | src/youtube_collector.py:74-78 | with no word listed twice, the count is the number of distinct configured words that occur as substrings of the lower-cased text |
| Classifier.Classify | src/youtube_collector.py:66-104 | the counts are the keyword hits, bounded by the list lengths; category precedence is positive, then negative, then mixed (where the sentiment is POSITIVE/NEGATIVE/NEUTRAL as pos >, <, = neg, so 0/0 is NEUTRAL); UNKNOWN iff UNCATEGORIZED iff the category is in no set |
| Classifier.EngagementRate | src/youtube_collector.py:106-116 | 0 when views are 0 (or absent), whatever the likes and comments; otherwise rate × views = (likes + comments) × 100; non-negative for non-negative counts |
| Classifier.EngagementOfTwoHundredViews | src/youtube_collector.py:106-116 | 200 views, 10 likes and 10 comments give 10.0 |
| Settings.CollectorCategoriesDisjoint | src/config.py:37-39 | a check on the configured constants: the positive, negative and mixed category lists are pairwise disjoint |
| Settings.FunctionCategoriesDisjoint | azure-functions/function_app.py:36-38 | a check on the configured constants: the function app's category lists are pairwise disjoint |
| Settings.ConfigErrors | src/config.py:52-60 | each message is present iff its key is unset or empty; no other message; messages in checking order; none iff all three keys are set |
| Settings.Config.constructor | src/config.py:7-44 | every setting is read from the environment, with the source's defaults, and the search lists take their constants |
| Settings.Config.ApplyDryRun | src/config.py:68-71 | with dry run on: regions `['US']`, two keywords and 2 videos per keyword; otherwise nothing changes; no other setting changes |
| Settings.Config.Validate | src/config.py:50-65 | succeeds (with True) iff API key, storage connection string and Snowflake user are all set; no other key is checked; the failure message joins the errors with ", " |
| Settings.Missing | azure-functions/function_app.py:46 | exactly the required keys whose setting is unset or empty, no more of them than keys |
| Settings.ValidateFunctionConfig | azure-functions/function_app.py:40-49 | succeeds iff all seven required settings are set; the failure message lists the missing keys |
| BlobNaming.DatePathRoundTrip | src/youtube_collector.py:205 | a date path reads back as its date (month and day zero-padded) |
| BlobNaming.DatePathInjective | src/youtube_collector.py:205 | two different dates never share a partition path |
| BlobNaming.NonDigitNotIn | src/youtube_collector.py:205-206 | a digit string contains no other character |
| BlobNaming.LettersOfBlobName | src/youtube_collector.py:205-230 | a blob name contains no letter other than those of `raw`, its kind and `.json` |
| Collector.KindFilterSelectsVideos | src/youtube_collector.py:27-30 | an id is returned iff some response item of kind `youtube#video` carries it |
| Collector.SearchVideos | src/youtube_collector.py:13-36 | the loop returns the filtered ids of the response, and `[]` when the request raised |
| Collector.FetchAllFailsIffSomeRequestFails | azure-functions/function_app.py:84-99 | a chunked look-up fails iff one of its requests raises |
| Collector.FetchFailsWithBatch | azure-functions/function_app.py:97-99 | a request that raises makes the whole look-up return `[]` |
| Collector.FetchInChunks | azure-functions/function_app.py:101-116 | the loop over 50-id chunks returns all responses concatenated in chunk order, or `[]` when any request raised |
| Collector.GetVideoDetails | src/youtube_collector.py:38-50 | one request in the script, chunked requests in the function app; `[]` on failure |
| Collector.Tag | src/youtube_collector.py:164-165 | one hit per returned video |
| Collector.TagMembership | src/youtube_collector.py:148-170 | a hit of one search carries that search's region and keyword and one of its videos |
| Collector.RegionHitsMembership | src/youtube_collector.py:135-170 | a hit of a region is tagged with a configured keyword and one of that search's videos |
| Collector.AllHitsMembership | src/youtube_collector.py:132-170 | a hit is a configured (region, keyword) pair with one of its returned videos; a search with no ids contributes none |
| Collector.Records | src/youtube_collector.py:148-170 | one record per hit |
| Collector.RecordsAt | src/youtube_collector.py:152-168 | record i is built from hit i: its id, keyword, region, classification and engagement |
| Collector.ChannelIds | src/youtube_collector.py:171 | one channel id per hit |
| Collector.CollectKeyword | src/youtube_collector.py:138-171 | one search appends the records of its returned videos and marks their channels as seen |
| Collector.CollectRegion | src/youtube_collector.py:135-171 | the keyword loop appends the region's records in keyword order |
| Collector.CollectVideos | src/youtube_collector.py:132-171 | the nested loops leave the records of all hits, region by region, and the seen-channel dict of their channel ids |
| Collector.EveryReturnedVideoRecorded | src/youtube_collector.py:132-170 | every video returned for a configured (region, keyword) has a record tagged with them |
| Collector.SameVideoTwoKeywordsTwoRecords | src/youtube_collector.py:132-170 | no deduplication across keywords: a video found under two keywords gets two records |
| Collector.PutValid | src/youtube_collector.py:171 | dict assignment keeps keys distinct and in step with the entries |
| Collector.SeenTableIsDedup | src/youtube_collector.py:171 | the seen-channel dict has the distinct ids as keys in first-seen order, each mapped to `None` |
| Collector.StoreDetailsKeepsKeys | src/youtube_collector.py:185-192 | storing details of seen ids keeps the key order |
| Collector.StoreDetailsValid | src/youtube_collector.py:185-192 | storing details keeps the dict well formed |
| Collector.StoreDetailsEntry | src/youtube_collector.py:185-192 | an id with no returned details keeps its old entry; an id with details gets a record of one of them |
| Collector.StoreChannels | src/youtube_collector.py:185-192 | the loop over one response stores each channel's record under its id |
| Collector.FetchChannelBatch | src/youtube_collector.py:182-192 | one chunk's request and store |
| Collector.FetchChannelDetails | src/youtube_collector.py:179-192 | the chunk loop leaves the dict holding every returned channel's record under its id |
| Collector.Values | src/youtube_collector.py:196 | `list(d.values())` in key order |
| Collector.ScriptChannelList | src/youtube_collector.py:179-196 | one entry per distinct channel id, in first-seen order; `None` exactly where no details came back, and otherwise `ChannelRecordOf` a returned channel with that id (assuming the look-up answers only ids it was asked for) |
| Collector.CollectData | src/youtube_collector.py:118-196 | the script returns the records of all hits and its channel list |
| Collector.ChannelRecords | azure-functions/function_app.py:217-225 | one channel record per returned channel, in response order |
| Collector.CollectDataFunction | azure-functions/function_app.py:170-227 | the function app returns the records of all hits and the records of one chunked look-up of the distinct channel ids |
| Collector.Tally | src/youtube_collector.py:248-251 | the counting loop has a key for each value seen, with its number of occurrences |
| Collector.Sentiments | src/youtube_collector.py:249-250 | one sentiment per record |
| Collector.SearchRegions | src/youtube_collector.py:260-261 | one region per record |
| Collector.Summary | src/youtube_collector.py:241-268 | the two distributions count, per sentiment and per region, the records carrying it; each count is positive and at most the number of records |
| Warehouse.FileRows | azure-functions/function_app.py:576-586 | one temp row per element of a file |
| Warehouse.VideoSourceMembership | azure-functions/function_app.py:576-586 | `TEMP_VIDEOS` holds exactly the elements of the day's files whose names match `%videos_%`, each with its file name |
| Warehouse.InsertStagingAppends | azure-functions/function_app.py:588-591 | staging only appends: old rows untouched, one new row per temp row with its JSON and file name |
| Warehouse.InsertStagingAt | azure-functions/function_app.py:588-591 | the row inserted for temp row i sits at position old length + i |
| Warehouse.CollectorVideosFileSelected | azure-functions/function_app.py:576-586 | the day's videos file is read by the staging load; the channels and metadata files are not |
| Warehouse.CollectorChannelsFileSelected | azure-functions/function_app.py:596-610 | the day's channels file is read by the channel load; the videos and metadata files are not |
| Warehouse.PartitionOfBlob | azure-functions/function_app.py:233-237 | a blob written on a day lies under that day's stage directory |
| Warehouse.NameHasOwnPattern | azure-functions/function_app.py:237 | a blob name contains its kind followed by `_` |
| Warehouse.NameLacksPattern | azure-functions/function_app.py:584 | a name whose kind lacks the pattern word's first letter does not match |
| Warehouse.BlobNameMatches | azure-functions/function_app.py:584 | a blob name matches `%videos_%` iff it is a videos file, and `%channels_%` iff it is a channels file |
| Warehouse.ChannelCandidatesMembership | azure-functions/function_app.py:596-609 | the rows offered to QUALIFY are exactly the channel elements with non-NULL id from `%channels_%` files |
| Warehouse.FileCandidatesMembership | azure-functions/function_app.py:607 | per file: exactly the elements with a non-NULL channel id |
| Warehouse.LatestChannelsPicksGreatestFile | azure-functions/function_app.py:608 | one source row per channel id offered, taken from an element with that id, from the greatest file name |
| Warehouse.UpsertChannelsSpec | azure-functions/function_app.py:613-631 | matched channels get new columns and `last_updated`, keeping `first_seen_date`; new channels get `first_seen_date` today and `last_updated` NULL (the column's default is taken to be NULL); others unchanged; keys are the union, so ids stay unique |
| Warehouse.UpsertChannelsIdempotent | azure-functions/function_app.py:613-631 | merging the same source again changes nothing but `last_updated` |
| Warehouse.FactSourceMembership | azure-functions/function_app.py:639-660 | the fact source holds exactly the projections of staging rows with non-NULL video id |
| Warehouse.UnmatchedSpec | azure-functions/function_app.py:661-663 | the unmatched source rows are those whose id is not in the target; distinctness is kept |
| Warehouse.UnmatchedNone | azure-functions/function_app.py:661-663 | with every id matched, nothing is inserted |
| Warehouse.MergeFactsSpec | azure-functions/function_app.py:636-679 | the fact merge keeps existing rows unchanged and appends exactly the distinct source rows whose video id was absent before |
| Warehouse.MergeFactsIdempotent | azure-functions/function_app.py:636-679 | merging the same staging rows again inserts nothing |
| Warehouse.MergeFactsAbsorbs | azure-functions/function_app.py:636-679 | merging staging rows that offer no new fact row inserts nothing |
| Warehouse.RestagedFactIsKnown | azure-functions/function_app.py:588-591 | the fact rows of staged rows do not depend on the load time |
| Warehouse.IndexOf | azure-functions/function_app.py:639 | an index at which a row occurs |
| Warehouse.MergeFactsKeepsBothRowsOfOneVideo | azure-functions/function_app.py:639-663 | two staging rows of one new video that differ in any column are both inserted: the fact table can hold a video id twice |
| Warehouse.InsertFacts | src/snowflake_loader.py:107-133 | the plain insert keeps existing rows and appends one row per fact-source row |
| Warehouse.InsertFactsTwice | src/snowflake_loader.py:107-133 | inserting the same staging rows twice appends them twice, and differs from inserting once whenever there is a row |
| Warehouse.Keys | azure-functions/function_app.py:706-720 | one group key per joined row |
| Warehouse.JoinTodayMembership | azure-functions/function_app.py:716-719 | the join holds today's facts whose channel is in the dimension, keyed by (country, sentiment) |
| Warehouse.GroupRowsAt | azure-functions/function_app.py:706-720 | `GROUP BY` gives one row per key, in key order, built from exactly the joined rows with that key |
| Warehouse.GroupRowsFields | azure-functions/function_app.py:706-720 | each grouped row is dated today, carries its key and counts the joined rows with that key |
| Warehouse.GroupSize | azure-functions/function_app.py:712 | a group's size is the number of joined rows with its key |
| Warehouse.AggregateTodaySpec | azure-functions/function_app.py:706-720 | every inserted row is dated today; one row per (country, sentiment) key present in today's join, and no other key; its video count is the group size |
| Warehouse.DeleteDateSpec | azure-functions/function_app.py:700-704 | the delete keeps exactly the rows of other dates |
| Warehouse.DeleteDateAppend | azure-functions/function_app.py:700-704 | the delete distributes over concatenation |
| Warehouse.DeleteDateIdempotent | azure-functions/function_app.py:700-704 | deleting twice equals deleting once |
| Warehouse.RefreshSteps | azure-functions/function_app.py:700-720 | the `DELETE` then the `INSERT` leave every table but the aggregates as they were and refresh today's aggregates |
| Warehouse.DeleteDateOfToday | azure-functions/function_app.py:700-704 | the delete removes all rows dated today |
| Warehouse.RefreshKeepsOtherDates | azure-functions/function_app.py:700-720 | the refresh leaves other dates' rows unchanged, and the rows dated today, read in table order, are exactly the fresh grouping, row for row |
| Warehouse.RefreshIdempotent | azure-functions/function_app.py:700-720 | refreshing twice equals refreshing once |
| Warehouse.ApplyAppend | azure-functions/function_app.py:564-725 | running two statement lists one after the other equals running their concatenation |
| Warehouse.ApplyNext | azure-functions/function_app.py:564-725 | running one more statement |
| Warehouse.FactsOnlyGrow | azure-functions/function_app.py:633-679 | no statement changes or removes a fact row |
| Warehouse.StagingOnlyGrowsUntilTruncated | azure-functions/function_app.py:588-591 | until the truncate, staging only grows at its end |
| Warehouse.Completed | azure-functions/function_app.py:502-510 | under a fault, fewer statements complete than were issued iff one raises |
| Warehouse.Database.constructor | azure-functions/function_app.py:472-484 | a new connection, with nothing uncommitted |
| Warehouse.Database.CreateTempVideos | azure-functions/function_app.py:576-586 | the session's `TEMP_VIDEOS` is replaced; nothing is committed |
| Warehouse.Database.InsertIntoStaging | azure-functions/function_app.py:588-591 | staging gets the temp rows appended |
| Warehouse.Database.CreateTempChannels | azure-functions/function_app.py:596-610 | the session's `TEMP_CHANNELS` is replaced |
| Warehouse.Database.MergeIntoChannels | azure-functions/function_app.py:613-631 | the channel dimension is upserted from `TEMP_CHANNELS` |
| Warehouse.Database.MergeIntoFacts | azure-functions/function_app.py:636-679 | the fact merge |
| Warehouse.Database.InsertIntoFacts | src/snowflake_loader.py:107-133 | the plain fact insert |
| Warehouse.Database.DeleteAggregates | azure-functions/function_app.py:700-704 | today's aggregate rows are deleted |
| Warehouse.Database.InsertAggregates | azure-functions/function_app.py:706-720 | today's grouping is appended |
| Warehouse.Database.TruncateStaging | azure-functions/function_app.py:723-725 | staging is emptied |
| Warehouse.Database.Commit | azure-functions/function_app.py:505 | the current tables become the committed state |
| Warehouse.Database.Rollback | azure-functions/function_app.py:509 | the tables return to the last commit; temporary tables remain |
| AzureLoader.Statements | azure-functions/function_app.py:564-725 | a phase has one step more than its statements: the commit |
| AzureLoader.AttemptSpec | azure-functions/function_app.py:502-510 | a phase fails iff a statement or the commit raises; a failed phase leaves the tables as before it (rollback); a phase that completes leaves all its statements' effects |
| AzureLoader.AttemptFails | azure-functions/function_app.py:502-510 | the attempt of a phase fails exactly under its fault |
| AzureLoader.RunPhasesPass | azure-functions/function_app.py:502-532 | a phase that does not raise runs all its statements, is logged as done, and the run goes on with the next phase |
| AzureLoader.RunPhasesOk | azure-functions/function_app.py:502-555 | the phases return True iff no critical phase fails |
| AzureLoader.LoadSucceedsIff | azure-functions/function_app.py:491-560 | `load_todays_data` returns True iff connect succeeds and staging, channels and facts all succeed |
| AzureLoader.RunPhasesStopsAtCriticalFailure | azure-functions/function_app.py:502-532 | when critical phase i is the first to fail: False, the earlier phases' effects kept, phase i rolled back, nothing later run, log ends with its failure |
| AzureLoader.CriticalFailureEndsLoad | azure-functions/function_app.py:491-532 | the same for a whole load, with the connection and date-path entries logged first |
| AzureLoader.RunPhasesSucceedingPrefix | azure-functions/function_app.py:502-532 | phases that succeed log their success and leave their effects before the rest run |
| AzureLoader.FinishPhases | azure-functions/function_app.py:534-555 | aggregation and cleanup never fail the run: each failure is logged and rolled back, and the next phase still runs |
| AzureLoader.NonCriticalFailuresAreLoggedAndSkipped | azure-functions/function_app.py:491-555 | with the critical phases succeeding, the load returns True whatever aggregation and cleanup do, logs each outcome, and keeps only the successful phases' effects |
| AzureLoader.StagingPhaseEffect | azure-functions/function_app.py:564-591 | the staging phase appends the day's video elements and changes nothing else durable |
| AzureLoader.ChannelsPhaseEffect | azure-functions/function_app.py:593-631 | the channel phase upserts the latest row of each channel and changes nothing else durable |
| AzureLoader.AggregationsPhaseEffect | azure-functions/function_app.py:681-721 | the aggregation phase replaces today's aggregate rows only |
| AzureLoader.CriticalPhasesEffect | azure-functions/function_app.py:502-532 | the three critical phases stage the day's videos, upsert the day's channels and merge the staged facts |
| AzureLoader.CleanLoad | azure-functions/function_app.py:491-555 | with no exception the load returns True and logs every phase as done |
| AzureLoader.FinishTables | azure-functions/function_app.py:681-725 | aggregation then cleanup, both completing: today's aggregates recomputed, staging empty, nothing else changed |
| AzureLoader.CleanLoadTables | azure-functions/function_app.py:491-555 | with no exception: staging empty, channels upserted, facts merged, today's aggregates refreshed from them |
| AzureLoader.SecondLoadAddsNoFacts | azure-functions/function_app.py:636-679 | loading the same day's files a second time adds no fact row |
| AzureLoader.SnowflakeLoaderService.constructor | azure-functions/function_app.py:466-470 | no connection or cursor yet |
| AzureLoader.SnowflakeLoaderService.Connect | azure-functions/function_app.py:472-489 | True iff none of the four connection steps raises; `conn` and `cursor` are assigned as far as the steps got; the outcome is logged |
| AzureLoader.SnowflakeLoaderService.LoadVideosToStaging | azure-functions/function_app.py:564-591 | raises iff one of its statements does; the statements before it take effect, uncommitted |
| AzureLoader.SnowflakeLoaderService.LoadChannels | azure-functions/function_app.py:593-631 | as above, for the channel statements |
| AzureLoader.SnowflakeLoaderService.LoadVideoFacts | azure-functions/function_app.py:633-679 | as above, for the fact merge |
| AzureLoader.SnowflakeLoaderService.RefreshAggregations | azure-functions/function_app.py:681-721 | as above, for the aggregation statements |
| AzureLoader.SnowflakeLoaderService.CleanupStaging | azure-functions/function_app.py:723-725 | as above, for the truncate |
| AzureLoader.SnowflakeLoaderService.TryPhase | azure-functions/function_app.py:502-510 | one phase with commit, or rollback on failure, matches the specification; nothing is left uncommitted; the outcome is logged |
| AzureLoader.SnowflakeLoaderService.RunLoadPhases | azure-functions/function_app.py:501-555 | the five phases with early return match the specification of a run |
| AzureLoader.SnowflakeLoaderService.FinishLoad | azure-functions/function_app.py:534-555 | the two non-critical phases, then the success log |
| AzureLoader.SnowflakeLoaderService.LoadPartition | azure-functions/function_app.py:499-562 | after connecting: logs the partition, runs the phases as the specification of a run says, then closes both handles (the `finally`) |
| AzureLoader.SnowflakeLoaderService.LoadTodaysData | azure-functions/function_app.py:491-562 | matches the specification of a run; leaves nothing uncommitted; after a successful connect both handles end closed (the `finally`); after a failed connect nothing is closed |
| AzureLoader.SnowflakeLoaderService.Close | azure-functions/function_app.py:727-732 | each assigned handle is closed |
| LegacyLoader.StatementsSize | src/snowflake_loader.py:42-160 | the number of statements each step issues |
| LegacyLoader.RunStepsOk | src/snowflake_loader.py:24-40 | the steps return True iff none raises and the summary completes |
| LegacyLoader.LoadSucceedsIff | src/snowflake_loader.py:20-40 | `load_todays_data` returns True iff all five steps and `print_summary` complete |
| LegacyLoader.FirstFailureAborts | src/snowflake_loader.py:24-40 | when step i is the first to raise: False, no later step runs, and the earlier steps and the completed statements of step i all persist |
| LegacyLoader.FailedFactLoadKeepsEarlierSteps | src/snowflake_loader.py:20-40 | a failed fact load leaves the day's rows staged and the day's channels upserted |
| LegacyLoader.PhaseEffect | src/snowflake_loader.py:42-160 | each step, run in full, changes the tables as its SQL says |
| LegacyLoader.CleanRunTables | src/snowflake_loader.py:24-37 | with no exception, the tables are the steps' effects one after another |
| LegacyLoader.CleanRunFacts | src/snowflake_loader.py:107-160 | with no exception, every staged fact row (old staging rows included) is appended without dedup, and staging ends empty |
| LegacyLoader.SecondLoadDuplicatesFacts | src/snowflake_loader.py:107-133 | a second load of the same day appends the day's fact rows again |
| LegacyLoader.SnowflakeLoader.constructor | src/snowflake_loader.py:5-6 | no connection yet |
| LegacyLoader.SnowflakeLoader.Connect | src/snowflake_loader.py:6-18 | `__init__` succeeds iff none of its four steps raises; handles assigned as far as it got |
| LegacyLoader.SnowflakeLoader.LoadVideosToStaging | src/snowflake_loader.py:42-66 | raises iff a statement does; completed statements take effect |
| LegacyLoader.SnowflakeLoader.LoadChannels | src/snowflake_loader.py:69-105 | as above, with the same channel upsert as the function app |
| LegacyLoader.SnowflakeLoader.LoadVideoFacts | src/snowflake_loader.py:107-133 | as above, with the plain insert |
| LegacyLoader.SnowflakeLoader.RefreshAggregations | src/snowflake_loader.py:135-156 | as above: delete today's rows, then insert the grouping |
| LegacyLoader.SnowflakeLoader.CleanupStaging | src/snowflake_loader.py:158-160 | as above: truncate staging |
| LegacyLoader.SnowflakeLoader.PrintSummary | src/snowflake_loader.py:162-193 | raises iff one of its two queries does |
| LegacyLoader.SnowflakeLoader.LoadTodaysData | src/snowflake_loader.py:20-40 | matches the specification of a run: abort on the first exception, nothing rolled back |
| LegacyLoader.SnowflakeLoader.Close | src/snowflake_loader.py:195-197 | closes the cursor, then the connection, stopping where an exception is raised |
| LegacyLoader.LoaderMain | src/snowflake_loader.py:199-208 | exit code as the specification says; no loader without valid configuration; `close` reached exactly after a normal load return; a connection that fails part-way stays open |
| LegacyLoader.MainSucceedsIff | src/snowflake_loader.py:199-208 | `main` returns 0 iff the configuration is valid and connect, all steps, the summary and `close` complete; otherwise 1 |

## Left out

- The YouTube Data API, the blob service and the Snowflake connector. These are network I/O. Their answers are parameters, and "raised" is `None` or a `Fault`.
- Malformed API items (a missing `id`, `snippet` or `categoryId`, which raise `KeyError`) and non-numeric counts. Items are well formed by construction.
- The `publishedAfter` filter of the function app's search. It only shapes the API request.
- Warehouse.UpsertChannelsSpec: states that a channel inserted by the `MERGE` gets `last_updated` NULL. The `INSERT` leaves that column out (azure-functions/function_app.py:622-629), so the value is the column default of `DIM_CHANNELS`; that table's DDL is not part of this model and the default is taken to be NULL.
- Collector.ScriptChannelList: requires that every channel the look-up returns has one of the requested ids. The source stores whatever id comes back (src/youtube_collector.py:186), so an unrequested id would add one more entry at the end of `list(all_channels.values())`; the model does not say where such entries go.
- `json.dumps` formatting, the metadata blob's contents, and the uploads themselves. Only blob names are modelled.
- `Classifier.EngagementRate`: does not model `round(_, 4)` or floating point; the ratio is an exact `real`.
- Python's `lower()` beyond ASCII letters.
- Logging and `print` output, including the percentages `print_summary` prints. `Collector.Summary` gives the counts only.
- `datetime.now()`, `CURRENT_DATE()` and `CURRENT_TIMESTAMP()`. These are parameters. A load uses one reading for its date path and its SQL dates.
- `%Y` is written with `str(year)`, and years are unpadded.
- The `ROW_NUMBER()` tie between two elements of one channel in the same file: the model takes the first one seen.
- SQL `AVG` is exact arithmetic, not floating point (`Warehouse.AverageRate` is a `real` quotient).
- Autocommit and the implicit commits of `CREATE ... TABLE` and `CREATE SCHEMA`. Commit and rollback are taken at face value.
- `rollback()`, logging and `close()` in the function-app loader are assumed not to raise. So its outer `except` (azure-functions/function_app.py:557-560) is never reached.
- `CREATE TABLE/SCHEMA IF NOT EXISTS`: the tables always exist in the model, so these statements change nothing but may raise.
- The stage names (`YOUTUBE_STAGE` and `AZURE_STAGE`), the file formats and the connection parameters. These are not state the model tracks.
- The commented-out loader (azure-functions/function_app.py:268-463) is dead code.
- `YouTubeCollectorFunction` (the timer trigger) and the collector script's `main` are top-level wiring. They are not part of this model.
- `print_summary` of the older loader is only queries and printing. It is modelled as two steps that may raise.
