# Cluster coordination and dispatch core, in Dafny

This project models the orchestration core of a sharded chat-gateway client,
written in TypeScript. Five parts are modelled:

- **Startup** (`start()` in `src/app.ts`). In clustered mode the process
  registers with a master service and logs in to receive its shard list. The
  total shard count is the larger of the master's total and the gateway's
  required count. In local mode it runs every shard of the gateway's
  recommended count. An empty assignment ends the startup with a warning.
  Otherwise it creates the sharding manager and the job service, starts the
  manager, starts the API, and in clustered mode tells the master that the
  cluster is ready.
- **Master handshake client** (`MasterApiService`). Three calls, `register`,
  `login` and `ready`. Each sends one request and throws the response when
  the status is not a success. The only state is the cluster id that
  `register` stores.
- **Trigger dispatch** (`TriggerHandler.process`). The handler filters the
  registered triggers for a message; a test that throws ends the call. It charges the author one rate-limit
  unit when any trigger matched. If the author is not limited, it executes
  the matched triggers in order until one throws.
- **Job wrapper** (`JobService.start`). Each job is registered with the
  scheduler. Its callback logs "run" and "completed" around the job's `run`
  when the job is logged, and logs any error that `run` throws.
- **String parsers** (`RegexUtils`). These are the split of a `/source/flags`
  literal, the first 17–20 digit id, and a greedy `username#dddd` tag. Each
  is specified by JavaScript's regular-expression rules and proved to return
  the engine's match.

Every outside effect is an input or a recorded event:

- **HTTP replies**: each reply is an input.
  - `MasterApiService` records the requests it sends.
  - `App.Start` takes an `Environment` that holds the configuration and the
    outcome of every outside call. It returns the trace of actions it
    performs, proved equal to the specification function `App.StartupTrace`.
- **Rate limiter**: an oracle class. It records every `take` and answers with
  a fixed but arbitrary policy over the earlier takes.
- **Trigger execution**: whether a trigger's `execute` completes is an input
  of `Process`.
- **Job runs**: the outcome of a job's `run` is an input of `Fire`.
- **Logging**: the logger is a journal of events. A job's run is one of those
  events, so the order of logging and running can be observed.

Files:

- `wrappers.dfy`: `Option` and `Result`.
- `regex_utils.dfy`: the `RegexUtils` module and its concrete cases in `RegexExamples`.
- `master_api.dfy`: the `MasterApi` module.
- `app.dfy`: the `App` module.
- `trigger_handler.dfy`: the `TriggerHandling` module.
- `job_service.dfy`: the `Jobs` module.

Three behaviours of `start()`, `process` and `JobService.start` worth
stating:

- An empty shard assignment is a warning followed by a normal return, not an
  error.
- A trigger whose `execute` throws ends `process` with that exception. The
  rate-limit unit is not refunded. A `triggered` test that throws ends
  `process` inside the filter, before any unit is taken.
- The job list is processed in list order.

## Model

| member | source | states |
|---|---|---|
| `RegexUtils.SplitRegex` | src/utils/regex-utils.ts:2-10 | a result is a split of the input as `"/" + source + "/" + flags`, with no line terminator in `source` and no `/` in `flags` |
| `RegexUtils.SplitRegexComplete` | src/utils/regex-utils.ts:4-7 | every input of that shape is split, and into exactly those parts (so inputs of any other shape give null) |
| `RegexUtils.SeparatorIsLastSlash` | src/utils/regex-utils.ts:4 | in any `/source/flags` match the separating slash is the last `/` of the input |
| `RegexUtils.LastSlash` | src/utils/regex-utils.ts:4 | finds the last `/`: nothing after it is a `/`, and none means the input has no `/` |
| `RegexUtils.IdAtIsWholeRun` | src/utils/regex-utils.ts:13 | `\b\d{17,20}\b` matches at a start exactly when the whole digit run there has 17–20 digits and both ends are word boundaries |
| `RegexUtils.FindId` | src/utils/regex-utils.ts:13 | the scan returns the first start from `i` at which the id pattern matches, and no earlier start matches |
| `RegexUtils.DiscordId` | src/utils/regex-utils.ts:12-14 | a result is 17–20 ASCII digits and is the leftmost match in the input; no result exactly when the pattern matches nowhere |
| `RegexUtils.LeftmostIdUnique` | src/utils/regex-utils.ts:13 | the leftmost id match is unique, so the reported id is well defined |
| `RegexUtils.DigitRunCovers` | src/utils/regex-utils.ts:13 | any all-digit stretch at a position lies inside the maximal digit run there |
| `RegexUtils.NoStartNoId` | src/utils/regex-utils.ts:13-14 | when the scan finds no start, the id pattern matches nowhere in the input |
| `RegexUtils.FoundStartIsLeftmost` | src/utils/regex-utils.ts:13-14 | the start the scan finds, with the digit run there, is the leftmost id match |
| `RegexUtils.DigitRun` | src/utils/regex-utils.ts:13 | the maximal run of ASCII digits at a position: all digits, ended by a non-digit or the input end |
| `RegexUtils.TagAtByReach` | src/utils/regex-utils.ts:17 | `\b(.+)#(\d{4})\b` matches with the group ending at `e` exactly when `e` is within the reach of `.` and `#dddd\b` follows |
| `RegexUtils.DotRun` | src/utils/regex-utils.ts:17 | how far `.` can reach: no line terminator up to there, and a line terminator or the input end right after |
| `RegexUtils.LastTagEnd` | src/utils/regex-utils.ts:17 | the greatest group end in a range that lets `#dddd\b` follow, or none in that range |
| `RegexUtils.TagEndFrom` | src/utils/regex-utils.ts:17 | at a start, the greedy group end: the pattern matches with it and with no longer group; none exactly when no group end works |
| `RegexUtils.FindTag` | src/utils/regex-utils.ts:17 | the scan returns the first start at which the tag pattern matches |
| `RegexUtils.FindTagIsLeftmost` | src/utils/regex-utils.ts:17 | the start and end found are the engine's match: leftmost start, then greedy group |
| `RegexUtils.ParseTag` | src/utils/regex-utils.ts:16-27 | `tag == username + "#" + discriminator`; the username is non-empty without line terminators; the discriminator is 4 digits; the parts are the leftmost greedy match; null exactly when the pattern matches nowhere |
| `RegexExamples.SplitRegexExamples` | src/utils/regex-utils.ts:4-9 | `/ab+c/gi` splits into `ab+c` and `gi`; `/a/b/` into `a/b` and no flags |
| `RegexExamples.SplitRegexRejectsLineBreak` | src/utils/regex-utils.ts:4-7 | a line break in the source part gives null |
| `RegexExamples.GreedyTagMatch` | src/utils/regex-utils.ts:17 | in `a#1234#5678` the group can extend over the first `#1234` |
| `RegexExamples.ParseTagGreedy` | src/utils/regex-utils.ts:17-26 | `a#1234#5678` gives username `a#1234` and discriminator `5678` |
| `RegexExamples.ParseTagNeedsBoundary` | src/utils/regex-utils.ts:17-20 | `a#12345` gives null: four digits must end at a word boundary |
| `RegexExamples.DiscordIdInMention` | src/utils/regex-utils.ts:13 | for any 17–20 digit id, the mention `<@id>` yields exactly that id |
| `RegexExamples.DiscordIdRejectsLongRun` | src/utils/regex-utils.ts:13 | a run of 21 digits gives no id |
| `RegexExamples.DiscordIdRejectsGluedRun` | src/utils/regex-utils.ts:13 | a digit run glued to a letter gives no id |
| `RegexExamples.GluedRunHasNoId` | src/utils/regex-utils.ts:13 | `x123456789012345678` has no match at any start: the first start has no digit and every later one is inside a word |
| `MasterApi.LoginPathDeterminesId` | src/services/master-api-service.ts:42 | two login paths are equal only for the same id text |
| `MasterApi.ReadyPathDeterminesId` | src/services/master-api-service.ts:55 | two ready paths are equal only for the same id text |
| `MasterApi.PathDeterminesRoute` | src/services/master-api-service.ts:26-57 | the path sent determines the endpoint and the id: `/clusters`, `/clusters/{id}/login` and `/clusters/{id}/ready` never coincide for different routes |
| `MasterApi.RequestsAreDistinct` | src/services/master-api-service.ts:26-57 | the paths of a register, a login and a ready request are pairwise different, whatever the ids |
| `MasterApi.MasterApiService.constructor` | src/services/master-api-service.ts:12-15 | a new client has no cluster id (it is `undefined`) and has sent nothing |
| `MasterApi.MasterApiService.Register` | src/services/master-api-service.ts:17-38 | sends exactly one POST to `/clusters` with the shard count and the callback url and secret; on success stores the returned id; on failure throws the response and keeps the old id |
| `MasterApi.MasterApiService.Login` | src/services/master-api-service.ts:40-51 | sends exactly one PUT to `/clusters/{id}/login` for the stored id; returns the body unchanged on success and throws the response otherwise; the id is unchanged |
| `MasterApi.MasterApiService.Ready` | src/services/master-api-service.ts:53-62 | sends exactly one PUT to `/clusters/{id}/ready` for the stored id; throws the response on failure; the id is unchanged |
| `App.Max` | src/app.ts:40 | the result is at least both arguments and equals one of them |
| `App.Range` | src/app.ts:46 | `range(lo, hi)` holds `lo, lo + 1, …, hi - 1` and is empty when `hi <= lo` |
| `App.ClusteredAllocation` | src/app.ts:36-40 | the master's list unchanged; the total is never below the required count nor the master's total, and is one of them |
| `App.LocalAllocation` | src/app.ts:42-47 | the list is `0 .. recommended - 1` and the total is the recommendation |
| `App.LocalAllocationWellFormed` | src/app.ts:46-47 | a local list is ascending, without duplicates, inside `[0, total)`, and empty exactly when the recommendation is not positive |
| `App.AllocationExamples` | src/app.ts:36-47 | master `[2, 3]` of 8 with 6 required stays total 8 (10 required gives 10); a recommendation of 4 gives `[0, 1, 2, 3]` of 4 |
| `App.SelectJobs` | src/app.ts:70-72 | the server-count job is in the job list exactly when clustering is off, and the list has at most one job |
| `App.Start` | src/app.ts:21-95 | the actions of `start()` are exactly `StartupTrace` of its environment |
| `App.RetrieveShards` | src/app.ts:35-52 | the try block: login then required count (clustered) or recommended count (local); no assignment when a call throws; the client's recorded requests grow by exactly the requests in the steps |
| `App.Conclude` | src/app.ts:49-57 | a failed lookup is logged as a retrieval error, an empty list as a warning, and anything else is launched; the client's recorded requests grow by exactly the requests in the actions |
| `App.LaunchShards` | src/app.ts:59-94 | creates the manager and job service, starts the manager, then the API, then sends `ready` in clustered mode; a throw at any step is logged and ends the startup; the client's recorded requests grow by exactly the requests in the actions |
| `App.SentLaunch` | src/app.ts:59-94 | the only request a launch sends is the clustered `ready`, and only once the manager and the API started |
| `App.ReportReady` | src/app.ts:92-94 | in clustered mode one `ready` request goes out and a failure is logged; in local mode nothing is sent; the client records exactly that request |
| `App.LaunchEndsWithReady` | src/app.ts:89-94 | a clustered launch whose manager and API start ends with manager start, API start and the `ready` request for the cluster's id, then the error when `ready` fails |
| `App.LaunchedTrace` | src/app.ts:54-94 | once the assignment is non-empty, the trace is the steps up to the shard check followed by the launch |
| `App.StoppedTrace` | src/app.ts:28-57 | a failed register, a failed lookup and an empty list each end the trace with exactly their own log line |
| `App.HeadIsQuiet` | src/app.ts:22-48 | nothing is launched and no `ready` request goes out before the shard check |
| `App.StoppedIsQuiet` | src/app.ts:49-57 | a startup that stops before the manager never launches anything and never sends `ready` |
| `App.LaunchContents` | src/app.ts:59-94 | in the launch, the manager gets the computed assignment, the job list depends on the mode, the API starts only after the manager, and `ready` only after both and only in clustered mode |
| `App.ReadyRequiresLaunch` | src/app.ts:90-94 | `ready` is sent only in clustered mode, after a successful register and a non-empty assignment, after the manager and the API started, and only for the registered id |
| `App.ReadyOnlyAfterLaunch` | src/app.ts:89-94 | when `ready` is sent it comes right after the manager start and the API start and is the last request of the startup |
| `App.RegisterFailureStopsStartup` | src/app.ts:28-30 | a failed register ends the startup before login, with the top-level error as the last action |
| `App.RetrievalFailureStopsStartup` | src/app.ts:49-52 | a throw in the try block is logged as the retrieval error, which is the last action: nothing is launched and `ready` is never sent |
| `App.EmptyAssignmentStopsStartup` | src/app.ts:54-57 | an empty shard list ends the startup with the warning: nothing is launched and `ready` is never sent |
| `App.LaunchUsesAssignment` | src/app.ts:59-75 | a created manager gets exactly the computed list and total, with the configured token and mode and respawn on; the job list depends only on the mode; the API starts only after the manager started |
| `App.AssignmentByMode` | src/app.ts:36-47 | in clustered mode the assignment is the clustered allocation of the login body and the required count; in local mode it is the local allocation; none when a lookup throws |
| `TriggerHandling.FilterFrom` | src/events/trigger-handler.ts:19-29 | from `k` on: when no test that runs throws, the kept positions are exactly the admitted ones, in ascending order; otherwise the result is the first position whose test runs and throws |
| `TriggerHandling.Filter` | src/events/trigger-handler.ts:19-29 | the filter succeeds exactly when no test that runs throws; a trigger is then kept exactly when it passes the guild check and its own test accepts the message, in registration order without repeats; otherwise the first throwing test is named |
| `TriggerHandling.GuildOnlyTestsIgnoredWithoutGuild` | src/events/trigger-handler.ts:20-24 | for a message without a guild, the filter's result does not depend on what the tests of guild-only triggers answer or whether they throw |
| `TriggerHandling.Chain` | src/events/trigger-handler.ts:46-50 | the executed triggers are a prefix of the kept ones in which every one but the last completed, and it stops short only after a throw |
| `TriggerHandling.ChainOutcomeThrows` | src/events/trigger-handler.ts:46-50 | `process` throws exactly when some kept trigger throws, and then the exception is that of an executed trigger |
| `TriggerHandling.ChainRunsAllWhenNoneThrows` | src/events/trigger-handler.ts:46-50 | when no kept trigger throws, every kept trigger is executed and `process` completes |
| `TriggerHandling.ChainStopsAtFirstThrow` | src/events/trigger-handler.ts:46-50 | the chain ends with the first trigger that throws, and the outcome is that trigger's throw; later triggers do not run |
| `TriggerHandling.RunsAreExecutions` | src/events/trigger-handler.ts:43-50 | the executions of a chain are one `execute` per executed trigger, in order, all with the same message and event data |
| `TriggerHandling.RunsSnoc` | src/events/trigger-handler.ts:46-50 | executing one more trigger appends exactly its execution |
| `TriggerHandling.RateLimiter.Take` | src/events/trigger-handler.ts:37 | a take is recorded for the actor, and the verdict is the policy's answer on the earlier takes |
| `TriggerHandling.TriggerHandler.constructor` | src/events/trigger-handler.ts:10-15 | a fresh limiter with the configured amount and the configured seconds times 1000 as its interval in milliseconds |
| `TriggerHandling.TriggerHandler.Process` | src/events/trigger-handler.ts:17-51 | a throwing test ends `process` before any take or execution; no match: no take, no execution; otherwise exactly one take keyed by the author; if limited, no execution; otherwise one new event data shared by the executed chain in kept order, and the outcome of the chain; the take is never refunded |
| `TriggerHandling.TriggerHandler.ExecuteAll` | src/events/trigger-handler.ts:45-50 | executes the chain of kept triggers in order with the same data and ends with the chain's outcome |
| `Jobs.ReplaceAllWithoutPattern` | src/services/job-service.ts:17 | a template without the placeholder is logged unchanged |
| `Jobs.ReplaceAllFirstOccurrence` | src/services/job-service.ts:17-30 | `ReplaceAll`, the model of `replaceAll` with a string pattern: the text before the first placeholder is kept, that placeholder becomes the replacement, and the search resumes right after it; with `ReplaceAllWithoutPattern` this determines the result for every non-empty pattern |
| `Jobs.ReplaceAllAtMatch` | src/services/job-service.ts:17-30 | a placeholder at the start is replaced and the rest is searched after it |
| `Jobs.ReplaceAllSkips` | src/services/job-service.ts:17-30 | where no placeholder starts, the first character is kept and the search moves one character on |
| `Jobs.ReplaceAllInserts` | src/services/job-service.ts:26 | a weaker corollary: wherever the placeholder occurs, the replacement appears somewhere in the result |
| `Jobs.ReplaceAllExample` | src/services/job-service.ts:17 | `Ran {JOB}` with job `Sync` reads `Ran Sync` |
| `Jobs.EmptyPatternExample` | src/services/job-service.ts:17 | the empty pattern matches around every character, as `replaceAll` does |
| `Jobs.FiringShape` | src/services/job-service.ts:14-28 | a firing runs the job once; logs "run" before it iff the job is logged; logs "completed" after it iff logged and the run completed; logs the error iff the run threw, whatever `log` says |
| `Jobs.ErrorLineNamesJob` | src/services/job-service.ts:25-27 | when the error template has the placeholder, the logged error names the job |
| `Jobs.Registrations` | src/services/job-service.ts:13-14 | one registration per job, in list order, under the job's own schedule |
| `Jobs.ScheduledLines` | src/services/job-service.ts:29-31 | one "scheduled" line per job, in list order, with the name and then the schedule filled in |
| `Jobs.Scheduler.ScheduleJob` | src/services/job-service.ts:14 | the table only grows, by exactly the new registration |
| `Jobs.JobService.constructor` | src/services/job-service.ts:10 | the service holds the given jobs |
| `Jobs.JobService.Start` | src/services/job-service.ts:12-33 | the table grows by exactly the jobs' registrations and the log by exactly their "scheduled" lines |
| `Jobs.JobService.Fire` | src/services/job-service.ts:14-28 | a firing appends exactly the firing's events, never throws, and leaves the registration table unchanged, so the job fires again on schedule |

## Left out

- HTTP transport: URL resolution against the master's base URL, the bearer header and JSON parsing are not modelled. A request is a record and a reply is an `ok` flag plus a parsed body.
- `DBModel.init`, the controllers and `Api` construction, and the `unhandledRejection` hook in `src/app.ts` are not modelled. Neither are config loading and the content of the log-message catalogue (its entries are `LogLine` values and job templates).
- `new RegExp(source, flags)` in `RegexUtils.regex` is not modelled: the model stops at the split, and an invalid pattern or flag set that makes the constructor throw is not represented.
- The sharding manager, the `Manager` supervisor, node-schedule and the rate-limiter library are external. Their calls are recorded actions or oracle answers. The limiter's clock and sliding window are folded into its policy.
- Asynchronous interleaving is not modelled: overlapping job firings and concurrent `process` calls. Each modelled call runs to completion.
- JavaScript strings are sequences of UTF-16 code units, while the model works on Unicode characters. An astral character counts as one character here and as two code units in JavaScript. This never changes a `\w`, `\d` or line-terminator test.
- `Jobs.ReplaceAll` does not model the `$`-substitution patterns that `replaceAll` recognises in a replacement string. A job name or schedule containing `$&`, `$$` and the like would be logged differently.
- `TriggerHandling.Trigger`: a trigger's `triggered` test is a function of the message alone, and a throw from it carries a string. The completion of `execute` is an input per call rather than a function of the trigger's own state.
- `App.Start`: a shard-count lookup that returns a non-integer or `NaN` is not modelled. Counts are integers.
- `src/middleware/handle-error.ts` and `src/events/guild-leave-handler.ts` are not part of this model.
