# SessionLens in Dafny

SessionLens records what Claude Code sessions cost. A hook binary summarises a session's transcript and
posts it to a local server, buffering it on disk when the post fails; the server limits the rate of posts,
stores one row per session, fans new sessions out to live subscribers, and answers dashboard queries: lists
by time range, rollups by hour, day, week and model, and cost spikes. This project models these components
and proves what they promise. `dafny verify dfyconfig.toml` checks all of it.

| file | what it holds |
|---|---|
| `options.dfy`, `sets.dfy`, `sums.dfy`, `text.dfy` | values that may be missing; listing a set and numbers outside it; sums over a sequence; byte strings: lexicographic order, substrings, decimal text |
| `hook_names.dfy` | buffer file names and the claim suffix |
| `hook_protocol.dfy` | the buffer as a protocol of any number of crashing processes, and its invariant |
| `hook_runs.dfy` | building runs: what a process can do from a given state |
| `hook_safety.dfy` | no event lost, no overwriting rename, and a run in which two processes post one event |
| `hook_exclusion.dfy` | exactly when a claim keeps other processes out |
| `hook_table.dfy` | exactly when a session's row on the server is settled, and how it regresses |
| `hook_recovery.dfy` | crashing drains leave no trace once one completes |
| `hook_capacity.dfy` | the 100-file cap, without and with overlap |
| `hook_process.dfy` | the hook's own code as a class whose methods are runs of the protocol |
| `rate_limiter.dfy`, `rate_limiter_theorems.dfy` | the token bucket with lazy pruning, and its theorems |
| `rate_limiter_pruning.dfy` | exactly which configurations make pruning invisible |
| `hub.dfy` | the SSE hub: interleavings, the code as runs of them, streams |
| `medians.dfy`, `spikes.dfy` | order statistics, and the spike detector built on them |
| `calendar.dfy`, `timestamps.dfy` | week numbers and keys; timestamps compared as text |
| `rollups.dfy`, `by_model.dfy` | the four aggregations and their agreement |
| `pricing.dfy`, `transcripts.dfy`, `transcript_theorems.dfy` | the two transcript readers and their agreement |

## How to read it

Code that works by changing things step by step is a method or a class here, proved equal to a function of
its inputs or of the old state; the theorems are lemmas about those functions. Concurrency is a state
machine: in `HookProtocol` every file operation, POST attempt and crash is one step, in `Hub` every send,
receive and change of subscription. `HookProcess.Hook` carries, beside the directory and the table, the run
of `HookProtocol` it has made so far: each of its methods proves that the steps it made are steps the
protocol allows, so the theorems about runs hold of the code. `Hub.Server` does the same for the hub, and
`RateLimiterTheorems.ServeAll` ties the limiter's object to the table its theorems are about.

The hook's comments and its code disagree in four places; the model follows the code.

- The comment at cmd/sessionlens-hook/main.go:206-209 says that only one process owns a claimed file. Lines
  212-218 reclaim claimed files of live processes too. `HookSafety.ClaimsDoNotExclude` is a run in which two
  live processes post one file and both posts are accepted. Nothing is lost by it (`HookSafety.NoEventLost`),
  and claims do exclude as long as no process takes back the claim of a live one
  (`HookExclusion.ExclusionExactly`).
- The header (line 12) and the comment at line 164 say that an event answered with 4xx is dropped. Lines
  155-160 buffer it, and lines 237-241 put a drained file back. `HookSafety.BufferOne` is such a run.
- The header (line 16) says that a drained file is attempted once and line 67 speaks of 3 tries. Line 167
  makes up to 4 attempts in both cases (`HookProcess.Hook.PostWithRetry`).
- The cap of 100 files (line 17) is an invariant exactly if no two processes live at the same time
  (`HookCapacity.CapExactly`). `HookCapacity.TwoBreakCap` leaves 101 files with
  two processes, `HookCapacity.OverlapBreaksCap` any number of files with as many processes.

Assumptions, each stated as a precondition where it is used unless another place is named: only hook
processes touch the buffer directory; a new buffer file's name (nanosecond clock and six random digits) has
not been drawn before; for the cap, names increase with time and the renames and removals that free or
restore files succeed; for the recovery of crashed drains, all file operations succeed; the clock prints with
a fixed number of digits, as it does from September 2001 on, so that listing by name is listing oldest first
(`HookNames.NameOrderIsAgeOrder`; part of what a listing is in `HookProtocol`, and the recovery and the cap
rest on it; `HookNames.NameOrderExactly` says which other names sort by age); the limiter's clock, read under
its lock, does not go back, and a bucket idle for `pruneAfter` has refilled (true of the ingest endpoint's
settings, `RateLimiter.IngestIsSensible`; `RateLimiterPruning.InvisibleExactly` says when this matters); a
2xx answer means that the server stored the event. An answer may also be lost after the server stored it.

## Model

| member | source | states |
|---|---|---|
| HookNames.LastIndex | cmd/sessionlens-hook/main.go:269-276 | the last position at which the substring occurs, or -1 if there is none |
| HookNames.StripProcessingSuffix | cmd/sessionlens-hook/main.go:250-267 | gives the path a claim was made from; gives "" exactly when the path is the claim of no non-empty path |
| HookNames.ClaimOriginUnique | cmd/sessionlens-hook/main.go:250-267 | a path carries at most one claim: its origin is determined, even if the origin itself contains the marker |
| HookNames.ClaimThenStrip | cmd/sessionlens-hook/main.go:224-226 | appending the claim suffix to any path makes a claim of exactly that path |
| HookNames.EmptyPathIsNotRecovered | cmd/sessionlens-hook/main.go:248-267 | the empty path is the one origin that stripping does not give back |
| HookNames.ClaimMeans | cmd/sessionlens-hook/main.go:250-267 | a path is the claim of another exactly if it is that path, ".processing-" and at least one digit |
| HookNames.NamesAsText | cmd/sessionlens-hook/main.go:212-300 | plain files are "<stamp>-<six digits>.json", claimed ones add ".processing-<pid>", temporary ones ".tmp"; what the two globs take, in words |
| HookNames.StripOnBufferNames | cmd/sessionlens-hook/main.go:212-227 | in a buffer directory, stripping a claimed file's name gives that event's plain name and nothing else does |
| HookNames.PlainGlobExact | cmd/sessionlens-hook/main.go:220-220 | the glob for events picks exactly the plain files, neither claimed nor half-written ones |
| HookNames.StaleGlobExact | cmd/sessionlens-hook/main.go:212-212 | the glob for claims picks exactly the claimed files |
| HookNames.RenderInjective | cmd/sessionlens-hook/main.go:296-300 | different names render to different files |
| HookNames.NameOrderIsAgeOrder | cmd/sessionlens-hook/main.go:288-289 | while the clock has a fixed number of digits, sorting names as strings sorts events by age |
| HookNames.NameOrderExactly | cmd/sessionlens-hook/main.go:288-299 | for any clocks, the older event's name sorts first if and only if its stamp is at most the number made of as many leading digits of the newer one's |
| HookNames.ShorterStampsMisorder | cmd/sessionlens-hook/main.go:288-291 | an event buffered at the first instant of 2000 sorts after one buffered at the first instant of 2026 |
| HookProtocol.StepKeepsInv | cmd/sessionlens-hook/main.go:210-246 | every step of every process keeps the invariant: one place per event, its body whole, every attempt with the written body, nothing lost |
| HookProtocol.RunKeepsInv | cmd/sessionlens-hook/main.go:210-305 | every run keeps the invariant |
| HookProtocol.ReclaimKeepsInv | cmd/sessionlens-hook/main.go:212-218 | taking back any claimed file, even a live process's, keeps the invariant |
| HookProtocol.PublishKeepsInv | cmd/sessionlens-hook/main.go:296-304 | renaming the finished temporary file into the buffer keeps the invariant |
| HookProtocol.EvictKeepsInv | cmd/sessionlens-hook/main.go:285-294 | evicting keeps the invariant and is recorded as the only way to lose an undelivered event |
| HookSafety.NoEventLost | cmd/sessionlens-hook/main.go:210-245 | in every interleaved run with crashes, each event ever buffered is in a buffer file, or was sent whole in an attempt answered with a status below 400, or was evicted |
| HookSafety.OneFilePerEvent | cmd/sessionlens-hook/main.go:224-231 | at most one of an event's plain and claimed files exists, and it holds the event written |
| HookSafety.RenamesNeverOverwrite | cmd/sessionlens-hook/main.go:212-240 | no rename in any run has an existing target |
| HookSafety.BufferOne | cmd/sessionlens-hook/main.go:155-160 | a run in which an event answered 404 ends up in the buffer |
| HookSafety.ClaimsDoNotExclude | cmd/sessionlens-hook/main.go:206-218 | a run in which two live processes post the same buffered event and both are accepted |
| HookExclusion.ClaimsExclude | cmd/sessionlens-hook/main.go:206-227 | in every run in which no live process's claim is taken back, at most one live process works on an event's file, and its claimed file is there |
| HookExclusion.TheftLetsAnotherIn | cmd/sessionlens-hook/main.go:212-227 | once a live process's claim is taken back, a new process can come to hold the same event by steps that all succeed |
| HookExclusion.ExclusionExactly | cmd/sessionlens-hook/main.go:206-227 | where every claim is in place, exclusion survives a step and every theft-free way of going on from it if and only if the step does not take back a live process's claim |
| HookTable.RowStays | internal/db/db.go:93-112 | while no event that would replace a session's row is buffered or in a process's hands, the row stays in every run in which no session reports another |
| HookTable.StoredOverwrites | cmd/sessionlens-hook/main.go:220-245 | a buffered event, wherever crashes left its file, can be drained next and its row is then the session's |
| HookTable.RowSettledExactly | internal/db/db.go:93-112 | a row stays in all such runs if and only if no replacing event is buffered or in a process's hands |
| HookTable.RowRegresses | cmd/sessionlens-hook/main.go:237-241 | a run in which the older event of a session, put back after a refused drain, overwrites the newer row that was accepted in between |
| HookRecovery.DrainsRecover | cmd/sessionlens-hook/main.go:211-245 | with one process at a time, succeeding file operations and 2xx answers, drains crashed anywhere followed by one that completes leave the buffer empty and the table with the events upserted oldest first |
| HookRecovery.CrashesLeaveNoTrace | cmd/sessionlens-hook/main.go:206-245 | such drains, their file operations succeeding, end in the same table and buffer as one uninterrupted drain |
| HookRecovery.ReplayTwice | internal/db/db.go:93-112 | upserting an event again right after upserting it changes nothing |
| HookCapacity.CapHolds | cmd/sessionlens-hook/main.go:279-294 | without overlap, and if the renames back to plain names and the removals succeed, plain and claimed files together stay at 100 or fewer, and evicted events are older than every event left |
| HookCapacity.CapIsRestored | cmd/sessionlens-hook/main.go:285-294 | under the same conditions, from an overfull buffer the number never exceeds the larger of 100 and the starting number, and whoever writes next has brought it below 100 first |
| HookCapacity.EvictsJustEnough | cmd/sessionlens-hook/main.go:285-294 | under the same conditions a process evicts only while 100 files or more are there, and goes on to write exactly when 99 are left |
| HookCapacity.TwoBreakCap | cmd/sessionlens-hook/main.go:285-304 | with at most two processes at a time and nothing failing on disk, a run from the empty buffer leaves 101 files |
| HookCapacity.CapExactly | cmd/sessionlens-hook/main.go:279-304 | the cap is kept by all runs with at most m live processes if and only if m is at most 1 |
| HookCapacity.OverlapBreaksCap | cmd/sessionlens-hook/main.go:285-304 | with overlap there is, for every n, a run from the empty buffer that leaves n files |
| HookProcess.GlobPlain | cmd/sessionlens-hook/main.go:220-220 | lists exactly the plain files, in name order |
| HookProcess.Hook.PostWithRetry | cmd/sessionlens-hook/main.go:163-201 | at most 4 attempts, each earlier one a network error or a status of 500 or more; succeeds exactly if the last answer is a status below 400; stops early only at a status below 500; all attempts carry the body and are on record, and a first answer of 2xx stores the event |
| HookProcess.Hook.ReclaimAll | cmd/sessionlens-hook/main.go:211-218 | is a run of the protocol that moves no event in or out; with working renames no claimed file is left |
| HookProcess.Hook.DrainOne | cmd/sessionlens-hook/main.go:225-245 | is a run of the protocol from one file to the next; with a working disk the file is gone if its last attempt was answered with a status below 400, and otherwise the directory is as it was |
| HookProcess.Hook.DrainBuffer | cmd/sessionlens-hook/main.go:210-246 | is a run of the protocol; with a working disk every buffered event is attempted, one refused file not stopping the next, and is gone exactly if an attempt was answered with a status below 400; alone and with everything working it empties the buffer into the table, oldest first |
| HookProcess.Hook.MakeRoom | cmd/sessionlens-hook/main.go:285-294 | with working removals, of the files listed exactly the newest 99 are left; whatever fails, no other file goes or changes |
| HookProcess.WithoutExactly | cmd/sessionlens-hook/main.go:290-293 | what is gone after the evictions is exactly the plain files of the victims |
| HookProcess.Hook.WriteTemp | cmd/sessionlens-hook/main.go:297-303 | the event stands whole under the temporary name, or the process gives up |
| HookProcess.Hook.WriteBuffer | cmd/sessionlens-hook/main.go:280-305 | success means that the event stands whole under its plain name; with a working disk the newest 99 of the others are left and the whole new directory is stated; whatever fails, no file goes but those listed before the newest 99 |
| HookProcess.Hook.Run | cmd/sessionlens-hook/main.go:88-161 | a whole execution is a run of the protocol; with a working disk its event stands in the buffer if and only if its last attempt was not answered with a status below 400, and was delivered otherwise; alone and with everything working the table ends with the buffered events and then its own, and the buffer is empty |
| RateLimiter.Limiter.Allow | internal/server/ratelimit.go:44-70 | the answer and all buckets after it are those of one request on the table of levels, then pruned |
| RateLimiter.Limiter.BucketFor | internal/server/ratelimit.go:48-60 | the bucket of the key, new and full or refilled up to the burst; the others unchanged |
| RateLimiter.Limiter.Spend | internal/server/ratelimit.go:61-69 | takes one token if there is one, and only from this bucket |
| RateLimiter.Limiter.MaybePrune | internal/server/ratelimit.go:73-82 | from 64 buckets on, exactly the idle ones go |
| RateLimiter.ServedExactly | internal/server/ratelimit.go:44-82 | one request read off the table: granted exactly if the burst and the refilled level are at least one token; which level its bucket then has; from 64 buckets on exactly those idle for longer than pruneAfter go |
| RateLimiter.IngestIsSensible | internal/server/server.go:72-75 | the limiter of the endpoint has 10 a second, burst 60 and pruning after 600 seconds; a prunable bucket is full |
| RateLimiterTheorems.ServeAll | internal/server/ratelimit.go:44-82 | a series of calls on the object decides as the table of levels does |
| RateLimiterTheorems.PruningIsTransparent | internal/server/ratelimit.go:49-82 | on any interleaved trace the decisions for a key are those of one never-pruned bucket fed that key's requests alone |
| RateLimiterPruning.PruningShows | internal/server/ratelimit.go:73-82 | if a bucket of at least one token can be dropped before it has refilled, some trace is answered differently because of it |
| RateLimiterPruning.InvisibleExactly | internal/server/ratelimit.go:49-82 | pruning is invisible on all traces if and only if the burst is below one token or rate times pruneAfter is at least the burst |
| RateLimiterTheorems.SolventIffWithinWindows | internal/server/ratelimit.go:53-66 | an admission policy never overdraws the bucket if and only if every stretch of requests keeps within burst plus refill |
| RateLimiterTheorems.LimiterKeepsWindows | internal/server/ratelimit.go:48-82 | every stretch of a key's requests keeps within burst plus refill, across pruning |
| RateLimiterTheorems.LimiterWindowBound | internal/server/ratelimit.go:48-82 | for all instants t1 <= t2 at most burst + rate * (t2 - t1) requests of a key are admitted between them |
| RateLimiterTheorems.LimiterIsOptimal | internal/server/ratelimit.go:44-70 | on every prefix the limiter admits at least as many as any policy that keeps those windows |
| Hub.Server.Subscribe | internal/server/hub.go:26-32 | a new open, empty channel joins the subscribers |
| Hub.Server.Unsubscribe | internal/server/hub.go:35-46 | the channel leaves and is closed if it was registered, and is left alone otherwise |
| Hub.Server.Broadcast | internal/server/hub.go:52-62 | every subscriber's queue gains the item unless 8 are waiting in it; nobody blocks; the sends are a run of the interleaving machine |
| Hub.ServerStream | internal/server/hub.go:26-62 | of every channel the server handed out: received followed by queued is what was kept of the broadcasts made while it was registered, and with the dropped ones they are all of these |
| Hub.NoPanics | internal/server/hub.go:26-62 | in every interleaving no send reaches a closed channel, no registered channel is closed, no queue exceeds 8 |
| Hub.SubscriberStream | internal/server/hub.go:52-62 | received followed by queued is what was kept of the items offered to the subscriber |
| Hub.KeptIsSubsequence | internal/server/hub.go:55-61 | the kept items are an in-order subsequence of the offered ones |
| Hub.MissingWhenFull | internal/server/hub.go:56-60 | an item is missing exactly if 8 kept ones were waiting when it was offered |
| Hub.KeptAndDropped | internal/server/hub.go:55-61 | kept and dropped items add up to the offered ones |
| Hub.EveryBroadcastAccounted | internal/server/hub.go:26-62 | a subscriber is offered exactly the broadcasts made while it was subscribed; received + queued + dropped is their number |
| Hub.SubscribersAreIsolated | internal/server/hub.go:52-62 | a subscriber's stream depends only on its own part of the run, never on others' lag |
| Medians.SortFloat64s | internal/stats/spikes.go:181-183 | sorts the array in place |
| Medians.SortedSorts | internal/stats/spikes.go:183-183 | the sorted values ascend and are the same values, each as often |
| Medians.MedianFloat | internal/stats/spikes.go:177-189 | the median of the values, of which it changes none |
| Medians.MedianIsMiddle | internal/stats/spikes.go:177-189 | whatever ascending arrangement of the values is taken, the median is its middle value or the mean of its two middle ones |
| Medians.RankAtMost | internal/stats/spikes.go:183-188 | the k-th smallest value is at most x exactly if more than k values are |
| Medians.MedianMonotone | internal/stats/spikes.go:177-189 | raising values never lowers the median |
| Medians.MedianRobust | internal/stats/spikes.go:177-189 | replacing fewer than half of the values by anything leaves the median within the range of the others, for odd and even lengths |
| Medians.HalfIsTooMany | internal/stats/spikes.go:184-188 | in a window of any size, replacing half of equal values can move the median anywhere |
| Medians.RobustExactly | internal/stats/spikes.go:177-189 | k replaced values of n never take the median out of the range of the others if and only if 2k < n |
| Medians.MedianScaled | internal/stats/spikes.go:177-189 | the median scales with the values |
| Spikes.DetectSessionSpikes | internal/stats/spikes.go:87-119 | of at least 3 sessions, reports exactly those after the first whose cost is at least sessionRatio times the positive median of the up to N before them, in order, with time, project, cost, that median and their quotient |
| Spikes.DetectTrendSpikes | internal/stats/spikes.go:121-153 | of at least 4 days, reports exactly those with three days or more before them whose tokens are at least trendRatio times the positive median of the up to 7 days before them, in order, with date, tokens, that median and their quotient |
| Spikes.DetectSpikes | internal/stats/spikes.go:66-85 | the result is a newest-first permutation of both detectors' spikes, with 20 sessions and the ratios 3 and 2 for settings that are not positive |
| Spikes.FlagsExact | internal/stats/spikes.go:92-116 | flagged are exactly the indices that meet the ratio test against the median of at most N predecessors, once the history is long enough |
| Spikes.FlagsIncrease | internal/stats/spikes.go:92-116 | flags come in the order of the history, each once |
| Spikes.SessionSpikesAreFlags | internal/stats/spikes.go:87-119 | the n-th session spike reports the n-th flagged session |
| Spikes.TrendSpikesAreFlags | internal/stats/spikes.go:121-153 | the n-th trend spike reports the n-th flagged day |
| Spikes.SessionFigures | internal/stats/spikes.go:105-115 | ratio times baseline is the value, the ratio meets the threshold, and the severity says how far the value exceeds it |
| Spikes.TrendFigures | internal/stats/spikes.go:140-149 | the same for days |
| Spikes.AppendingKeepsVerdicts | internal/stats/spikes.go:87-116 | a longer history has the shorter one's flags as a prefix |
| Spikes.AppendingKeepsVerdict | internal/stats/spikes.go:92-105 | no verdict and no baseline changes when sessions are appended |
| Spikes.ScalingKeepsVerdicts | internal/stats/spikes.go:101-105 | multiplying all values by c > 0 keeps the flags |
| Spikes.ScalingKeepsRatio | internal/stats/spikes.go:106-114 | ... and the ratios |
| Spikes.RaisingOneValue | internal/stats/spikes.go:92-116 | raising one value lowers no later baseline; over a positive baseline it adds no flag and raises no ratio |
| Spikes.RaiseAddsFlagExactly | internal/stats/spikes.go:87-116 | some raise of an earlier value adds a flag on a later one if and only if history and window are long enough, the earlier is in the window, the later is positive, and the window's median is not positive but would be with the earlier value above all others |
| Spikes.RaisingFromZero | internal/stats/spikes.go:102-105 | a history in which one does |
| Spikes.BaselineRobust | internal/stats/spikes.go:92-101 | fewer than half outliers in a window leave the baseline in the range of the others |
| Calendar.WeekIsMondayCount | internal/mock/mock.go:342-359 | the computed week number is the number of Mondays from 1 January through the date (section 7.27.3.5 of ISO/IEC 9899:2011, conversion W), Mondays being the days whole weeks from 3 January 2000 |
| Calendar.MondaysWeeksApart | internal/mock/mock.go:342-355 | a day is a Monday by its weekday exactly if whole weeks lie between it and 3 January 2000 |
| Calendar.DaysOfTheWeek | internal/mock/mock.go:345-349 | days of the week follow each other; three dates and the days they fell on |
| Calendar.CalendarRules | internal/mock/mock.go:308-349 | what follows each day, month and year in the Gregorian calendar the dates are taken from |
| Calendar.KnownWeeks | internal/mock/mock.go:342-364 | Sunday 24 May 2026 is in 2026-W20, the Monday after it in 2026-W21 |
| Calendar.ItoaLoop | internal/mock/mock.go:148-158 | the decimal text of a number that is not negative |
| Calendar.SqliteWeekKey | internal/mock/mock.go:342-364 | the key is the year, "-W" and, in two digits, the number of Mondays from 1 January through the date |
| Calendar.WeekKeyInjective | internal/mock/mock.go:360-364 | equal keys mean equal year and equal week |
| Calendar.SameWeekKey | internal/mock/mock.go:342-364 | two dates share a key if and only if they share the year and no Monday lies after the earlier and up to the later |
| Calendar.WeekKeysSort | internal/mock/mock.go:334-334 | for years of four digits, keys sort in the order of time |
| Calendar.WeekKeysSortExactly | internal/mock/mock.go:334-364 | for any years, keys sort in the order of time if and only if the years are equal or their decimals, each followed by the dash, sort so: if and only if the earlier year is at most the number made of as many leading digits of the later one |
| Calendar.WeekKeysOfShortYearsDoNotSort | internal/mock/mock.go:364-364 | a three-digit year breaks the order |
| Calendar.DateOrder | internal/mock/mock.go:308-313 | comparing dates field by field is comparing day numbers |
| Timestamps.StampOrder | internal/db/db.go:134-137 | second-precision UTC timestamps of four-digit years (section 5.1 of RFC 3339) compare as strings exactly as they do in time |
| Timestamps.StampReadsBack | internal/db/db.go:134-137 | such a timestamp reads "2006-01-02T15:04:05Z", and the instant can be read back from it |
| Timestamps.UnixTime | internal/server/server.go:560-575 | the seconds compared are those of Unix time, shifted |
| Timestamps.FilterByEndedAt | internal/server/server.go:560-575 | keeps, in order, the sessions that pass the text comparison |
| Timestamps.FiltersAgree | internal/db/db.go:152-159 | the mock filter and the SQL condition are the same test on any strings |
| Timestamps.FilterIsTimeInterval | internal/server/server.go:560-575 | filtering by text keeps exactly the sessions that ended in the closed time interval |
| Timestamps.KeepsInterval | internal/db/db.go:134-159 | both tests hold exactly in the closed time interval |
| Timestamps.FractionIsReadAsJustBefore | internal/server/server.go:566-571 | a bound with a fraction of a second acts as if it stood just before its whole second |
| Rollups.Rollup | internal/mock/mock.go:239-262 | one bucket per key that occurs in the window, in key order, each the sum of its sessions |
| Rollups.Daily | internal/mock/mock.go:232-263 | the rollup by date of the sessions of the last n days up to 27 May 2026, n being 30 if the argument is not positive |
| Rollups.Hourly | internal/mock/mock.go:266-297 | the rollup by hour of the sessions of the last n days up to 27 May 2026, n being 7 if the argument is not positive |
| Rollups.Weekly | internal/mock/mock.go:305-336 | the rollup by week key of the sessions of the last 7 * n days up to 27 May 2026, n being 12 if the argument is not positive |
| Rollups.BucketsExactly | internal/mock/mock.go:232-336 | read off the sessions: a bucket for each date, date and hour, or week that a session in the window has, in key order, with the sums of the figures of those sessions field by field |
| Rollups.GroupingUnique | internal/mock/mock.go:257-262 | keys and sums determine the list of buckets |
| Rollups.Regroup | internal/mock/mock.go:232-336 | grouping finely and collapsing the keys is grouping coarsely |
| Rollups.HourlyCollapsesToDaily | internal/mock/mock.go:232-297 | collapsing Hourly(d) by date gives Daily(d) |
| Rollups.DailyCollapsesToWeekly | internal/mock/mock.go:232-336 | collapsing Daily(7 * w) by week key gives Weekly(w) |
| ByModel.AggregateByModel | internal/stats/stats.go:324-373 | one total per family that occurs, costliest first; per day the tokens of exactly the families of that day, in day order |
| ByModel.DatasetByModel | internal/mock/mock.go:402-424 | the aggregation of the sessions of the last n days up to 27 May 2026, n being 14 if the argument is not positive |
| ByModel.ModelRowsExactly | internal/mock/mock.go:402-424 | the rows aggregated are the sessions of the window, in order, with their own timestamp, model and figures |
| ByModel.FamilyExactly | internal/stats/stats.go:376-390 | a family is the first of opus, haiku and sonnet that the model mentions in either case, and "other" without any |
| ByModel.TotalsExactly | internal/stats/stats.go:324-373 | a family's total holds, field by field, the sums over the rows of that family |
| ByModel.CellsExactly | internal/stats/stats.go:324-373 | a day has an entry for a family exactly if a row of both exists, and it holds the tokens of those rows |
| ByModel.DaysMatchDaily | internal/mock/mock.go:402-424 | ByModel(d) has the days of Daily(d), each day's families are among the four known ones, and their tokens add up to the day's total |
| ByModel.FamiliesMatchTotals | internal/stats/stats.go:324-373 | a family's tokens over all days are its total; a family without a total has none |
| Pricing.CostIsScaledBase | internal/transcript/pricing.go:49-58 | every cost is one base cost times 15, 3 or 1: the tables are exact multiples |
| Pricing.CostExactly | internal/transcript/pricing.go:14-58 | the price list per million tokens, by the names the model mentions; the middle prices without any; negative numbers of tokens cost nothing |
| Transcripts.Parse | internal/transcript/transcript.go:64-108 | unless there are times before the zero time, start and end are the first and last time of any line that has one and whose message decodes; turns, tokens, last model and cost are those of the assistant messages that are objects |
| Transcripts.ParseBreakdown | internal/transcript/breakdown.go:83-150 | one turn for each assistant message that decodes, with its position, timestamp, model, tokens, cost and tools; how often each tool was used; the distinct models in order; unless there are times before the zero time, the duration goes from the first to the last time of any line |
| Transcripts.ToolNamesExactly | internal/transcript/breakdown.go:124-129 | a turn's tools are the names of its tool_use blocks that have one, in order |
| Transcripts.ToolCountsAdd | internal/transcript/breakdown.go:124-129 | a tool is counted as often as the turns name it |
| Transcripts.SortBySeen | internal/transcript/breakdown.go:147-149 | the stable sort of the models by the turn they were first seen in: a permutation in which the turns ascend |
| Transcripts.SortedBySeenSorts | internal/transcript/breakdown.go:147-149 | it permutes the models into ascending order |
| Transcripts.SortedBySeenIsStable | internal/transcript/breakdown.go:147-149 | models of one rank keep their order |
| Transcripts.SortMovesNothing | internal/transcript/breakdown.go:146-149 | models that stand in order already, as the loop leaves them, do not move |
| TranscriptTheorems.ReadersAgreeExactly | internal/transcript/transcript.go:85-100 | on any lines, the token totals agree if and only if no assistant message whose content is not a list carries tokens, and the turn counts if and only if as many of those occur as null messages |
| TranscriptTheorems.TokensAccounted | internal/transcript/breakdown.go:105-123 | the summary's tokens are those of the turns plus those of the messages only it accepts |
| TranscriptTheorems.TwoReadersAgree | internal/transcript/breakdown.go:83-145 | on lines both accept (user lines of any content among them), with times after the zero time, turn counts, token totals and duration agree, and start and end are the first and last time of any line |
| TranscriptTheorems.DurationExactly | internal/transcript/breakdown.go:143-145 | where both readers see the same times, the duration is end minus start if and only if, among the times read, one is after Go's zero time when one is before it, and otherwise none is after it or the last one is not it; in terms of the results, if and only if both are set or both are the same |
| TranscriptTheorems.DurationBeforeZeroTime | internal/transcript/breakdown.go:94-99 | a transcript from before Go's zero time in which it is not |
| TranscriptTheorems.CostsAddUp | internal/transcript/pricing.go:35-58 | when all turns with tokens price like the session's model, their costs add up to the session's; only then, if that is the dearest or the cheapest table; under the middle table if and only if the dearer turns make up for the cheaper ones |
| TranscriptTheorems.CostsWithinFifteen | internal/transcript/pricing.go:14-33 | otherwise each is at most 15 times the other, with the sharper bounds for each session price table |
| TranscriptTheorems.FifteenIsReached | internal/transcript/pricing.go:14-33 | the factor 15 is reached both ways, for any tokens |
| TranscriptTheorems.FirstSeenExactly | internal/transcript/breakdown.go:130-135 | the listed models are exactly the non-empty models of the turns |
| TranscriptTheorems.FirstSeenInOrder | internal/transcript/breakdown.go:130-135 | they stand in the order of the turns that introduced them, each once |
| TranscriptTheorems.SummaryModelIsSwitchedTo | internal/transcript/transcript.go:89-91 | the summary's model is one of the breakdown's, and is empty exactly if there are none |

## Left out

- HookRecovery.DrainsRecover: asks that every file operation succeeds; a drain whose removals or renames fail leaves files behind for the next one.
- HookProcess.GlobStale: the order of the claimed files is not modelled, nothing depends on it.
- HookProcess.Hook.Run: how standard input and the transcript become an event is a parameter; every early return is the one input from which no event can be read.
- HookNames.NameOrderIsAgeOrder: asks that the nanosecond clock prints with one number of digits: 19 from September 2001 to April 2262, where `UnixNano` ends. `HookNames.NameOrderExactly` has no such condition.
- HookNames.PlainGlobExact: only the file part of the glob pattern. The directory is part of the pattern too (cmd/sessionlens-hook/main.go:212, 220, 286), so a state directory whose own name contains a glob character such as `[` may never be listed, and then is neither drained nor capped; this is not modelled.
- HookNames.RenderInjective: asks for serial numbers below one million, which is what the code draws.
- HookProtocol.StepKeepsInv: a directory listing is one step; a listing that sees half of a concurrent rename is not modelled.
- RateLimiter.Limiter.Allow: time is a real number of seconds and tokens are real numbers, so rounding of nanoseconds and of float64 is not modelled.
- Text.ToLower: lower-cases ASCII letters only; other letters that fold into ASCII are not modelled.
- Calendar.SqliteWeekKey: years from 1 to 9999.
- Timestamps.StampOrder: years from 1 to 9999, whole seconds, and UTC written as Z.
- Rollups.HourlyCollapsesToDaily: asks for a positive argument, because the defaults for other arguments are 7 days of hours and 30 days.
- Rollups.DailyCollapsesToWeekly: asks for a positive argument, because the defaults for other arguments differ.
- Rollups.Rollup: the three rollups of internal/mock/mock.go repeat one loop and are one method here; session times are whole seconds in UTC.
- ByModel.AggregateByModel: the order of families of equal cost is unspecified, as in the code.
- Spikes.DetectSpikes: the order of spikes with equal timestamps is unspecified, as in the code.
- Money, ratios and medians are real numbers and tokens are unbounded integers: float64 rounding and int64 overflow are not modelled.
- The server's rows leave out created_at and updated_at, which no property here concerns.
- SQL, HTTP routing, JSON, CSV and SSE framing, logging, metrics, environment variables, back-off waits and line-length limits of the scanner are not modelled; a transcript line is what the two decoders make of it.
- The SQL versions of the rollups are not visible as code and are not modelled.
- The random dataset behind the mock is not modelled: the rollups are proved for every dataset.
- Forecasts, month summaries, project lists, list limits, the alerter and the dashboard are left out: short arithmetic or one-branch claims.
