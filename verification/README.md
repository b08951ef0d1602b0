# docker-reroll, modelled in Dafny

docker-reroll is a docker CLI plugin that restarts a compose service without
downtime. It scales the service to twice its container count. With a health
check it waits for the new containers to become healthy, and rolls them back
if they are not healthy in time; without one it sleeps the `--wait` time.
Then it runs an optional pre-stop hook on every old container, and stops and
removes the old containers.

This project models the decision layer of `src/app.rs` as pure functions.
Every subprocess the program starts, and every pause it takes, is one
`Command` in a trace:

- `Ps` lists the service's containers;
- `Up` starts the service;
- `Scale(n)` asks for `n` replicas;
- `Inspect(id, query)` inspects a container's health;
- `Stop(ids)` and `Rm(ids)` stop and remove containers;
- `Shell(text)` runs a pre-stop hook;
- `Sleep(s)` is a sleep of `s` seconds.

Each command other than `Sleep` is answered by the next reply of a `Script`, which maps a call number to a reply; a `Sleep` reads no reply and only moves the clock on. A reply is either "could not be started" or an exit code with captured standard output. A run (`Reroll.Run`) returns its exit (`Ok`, `Err(error)` or `Panicked`) and its trace. The properties are stated for every script.

Modules:

- `Text` — Rust's `trim`, `lines`, `contains` and `replace`.
- `PluginArgs` — the argument split of `App::main`.
- `ContainerIds` — id parsing and the new/old id arithmetic.
- `Health` — the two substring classifications.
- `RuntimeCalls` — one function per runtime command.
- `Readiness` — the polling loop `wait_until_healthy_count`.
- `Reroll` — `pre_stop`, the rollback and `main_internal`.
- `FinishProperties` and `RerollProperties` — what a whole run does.

Some behaviours of the code are modelled exactly as written:

- `is_service_running` is true when the listing is **empty** (src/app.rs:210-212). So a service with containers only gets `up --no-recreate`, and the rolling restart happens only after a blank first listing.
- `old_ids[0]` (src/app.rs:189) panics when the second listing is empty. The model's exit for that case is `Panicked`.
- `start_service` fails only when `up` cannot be started; its exit code is ignored.
- The exit code of a pre-stop hook is never looked at.
- `scale`, `stop` and `rm` fail on a non-zero exit as well.
- `has_health_check` passes its start failure up with `?` and ends the run. In the waiter, a failing `is_healthy` counts as "not healthy".
- During a rollback, a failing stop or removal of the new containers ends the run with its own error. That error replaces "weren't healthy after timeout".
- The wait for the old containers to become unhealthy happens only with a pre-stop command and `--pre-stop-wait-until-unhealthy`. Its timeout is only a warning.

## Model

| member | source | states |
|---|---|---|
| PluginArgs.SplitPluginArgs | src/app.rs:79-102 | Without a "reroll" argument the argv is kept and there are no docker options. Otherwise the result is the closed-form split: the docker options are the arguments strictly between the program name and the first "reroll", in order. The new argv is the program name followed by every later argument except "reroll" words. |
| PluginArgs.WalkArgs | src/app.rs:84-99 | The `for` loop over the arguments after the program name yields exactly that closed-form split, for every argv. |
| PluginArgs.SplitOfPluginInvocation | src/app.rs:79-102 | For `program options... reroll arguments...` with no other "reroll", the docker options are `options` and the new argv is `program` followed by `arguments`. |
| ContainerIds.IsServiceRunning | src/app.rs:210-212 | Defines `is_service_running` on the parsed listing: it holds when the listing is empty. What that means for the raw `ps` output is stated by `ContainerIds.RunningIffBlankListing`. |
| ContainerIds.RunningIffBlankListing | src/app.rs:210-212 | `is_service_running` holds exactly when the `ps` output is all whitespace, so that no id is parsed. |
| ContainerIds.ParseIds | src/app.rs:238-244 | Defines the id parsing: the lines of the trimmed standard output. Its behaviour is stated by `ContainerIds.ParsedIdsAreTrimmedLines` and `ContainerIds.ParseIdsOfPsOutput`. |
| ContainerIds.ParsedIdsAreTrimmedLines | src/app.rs:238-244 | Without carriage returns, the parsed ids joined by line feeds give back the trimmed output. |
| ContainerIds.ParseIdsOfPsOutput | src/app.rs:238-244 | Parsing `ps --quiet` output, one valid id per line, gives back the ids in order. |
| ContainerIds.NewIds | src/app.rs:180-184 | The filter never yields more ids than were listed. Which ids it keeps, how often and in what order is stated by `ContainerIds.NewIdsMembers`, `ContainerIds.NewIdsCounts` and `ContainerIds.NewIdsKeepOrder`. |
| ContainerIds.NewIdsMembers | src/app.rs:180-184 | An id is new exactly when `all_ids` holds it and `old_ids` does not. |
| ContainerIds.NewIdsCounts | src/app.rs:180-184 | An id absent from `old_ids` is kept as many times as `all_ids` lists it; an id present in `old_ids` is dropped every time. |
| ContainerIds.NewIdsKeepOrder | src/app.rs:180-184 | The new ids are a subsequence of `all_ids`, in the same order. |
| Text.Trim | src/app.rs:240 | `trim` with Rust's Unicode White_Space set: the result is the slice of the input after its leading whitespace, with only whitespace left behind it. It is empty exactly when the input is all whitespace. |
| Text.Lines | src/app.rs:240 | Defines `lines`: split at each line feed, drop a carriage return just before it, no extra empty line after a final line feed. `Text.JoinLinesOfLines` and `Text.LinesOfJoinLines` state it as a round trip. |
| Text.LinesHoldNoFeed | src/app.rs:240 | No line that `lines` yields holds a line feed. |
| Text.LinesEmptyIff | src/app.rs:240 | `lines` yields no line exactly for the empty text. |
| Text.JoinLinesOfLines | src/app.rs:240 | Without carriage returns, `lines` loses nothing: joining the lines of a text with no final line feed gives the text back. |
| Text.LinesOfJoinLines | src/app.rs:240 | `lines` of lines joined by line feeds gives back those lines, when no line holds a line break and the last is non-empty. |
| Text.Contains | src/app.rs:318 | Defines `contains` for a string pattern (also used at src/app.rs:333) as a scan trying the pattern at each position from the left. `Text.ContainsIffOccurs` states what it finds. |
| Text.ContainsIffOccurs | src/app.rs:333 | The scan reports the pattern exactly when the pattern occurs at some position of the text. |
| Text.Replace | src/app.rs:410 | Defines `replace`: each non-overlapping occurrence, found left to right, is replaced. `Reroll.HookWithoutPlaceholder` and `Reroll.HookFillsEveryPlaceholder` state its effect on hook templates. |
| Text.ReplaceWithoutOccurrence | src/app.rs:410 | `replace` leaves a text in which the pattern never occurs unchanged. |
| Health.IsHealthy | src/app.rs:333 | Defines the health classification: the status contains "healthy" and not "unhealthy". Its consequences are stated by `Health.UnhealthyIsNeverHealthy` and `Health.HealthyOccurrencesStandAlone`. |
| Health.HasHealthCheck | src/app.rs:318 | Defines the health-check test: the health object contains "Status". `Health.HealthObjectExamples` states it on both kinds of object. |
| Health.UnhealthyIsNeverHealthy | src/app.rs:331-333 | A status containing "unhealthy" also contains "healthy" and is classified not healthy. |
| Health.HealthyOccurrencesStandAlone | src/app.rs:331-333 | In a status classified healthy, no "healthy" is preceded by "un". |
| Health.HealthObjectExamples | src/app.rs:308-319 | A health object with a `Status` field counts as a health check; `null` does not. |
| Health.HealthyStatusExample | src/app.rs:321-334 | The status `"healthy"`, as docker prints it in JSON, is classified healthy. |
| Health.UnhealthyStatusExample | src/app.rs:321-334 | The status `"unhealthy"` is classified not healthy. |
| Health.StartingStatusExample | src/app.rs:321-334 | The status `"starting"` is classified not healthy. |
| RuntimeCalls.GetContainerIds | src/app.rs:227-245 | The call issues `Ps` and reads one reply. It fails with the listing error exactly when `ps` cannot be started; otherwise it returns the parsed ids whatever the exit code. |
| RuntimeCalls.StartService | src/app.rs:214-225 | The call issues `Up`. It passes exactly when `up` could be started, with any exit code. |
| RuntimeCalls.ScaleTo | src/app.rs:247-264 | The call issues `Scale(n)`. It passes exactly when the command exits with 0; otherwise it fails with the scale error and the cause. |
| RuntimeCalls.StopContainers | src/app.rs:266-285 | The call issues `Stop(ids)`. It passes exactly on exit code 0; otherwise it fails with the stop error and the cause. |
| RuntimeCalls.RemoveContainers | src/app.rs:287-306 | The call issues `Rm(ids)`. It passes exactly on exit code 0; otherwise it fails with the removal error and the cause. |
| RuntimeCalls.InspectHasHealthCheck | src/app.rs:308-319 | The call issues an inspection of `.State.Health`. It fails only when that cannot be started; otherwise it answers whether the output contains "Status". |
| RuntimeCalls.InspectIsHealthy | src/app.rs:321-334 | The call issues an inspection of `.State.Health.Status`. It answers healthy exactly when the command ran and its output is classified healthy. |
| Readiness.Poll | src/app.rs:374-381 | One round of status inspections takes no time on the clock. Its count and its probes are stated by `Readiness.PollCountsHealthy` and `Readiness.PollIssuesProbes`. |
| Readiness.PollCountsHealthy | src/app.rs:376-382 | The count of one poll is the number of its replies that report healthy. |
| Readiness.PollIssuesProbes | src/app.rs:376-382 | One poll inspects every id once, in order, and reads one reply per id. |
| Readiness.WaitUntilHealthyCount | src/app.rs:369-393 | Defines the waiter: polling until the clock reaches the start time plus the timeout. Its outcome, trace and reads are stated by the `Readiness.Wait…` lemmas below. |
| Readiness.PollUntil | src/app.rs:373-392 | Defines the `while` loop: a poll, a return on an exact count, else a one-second sleep, until the end time; then "timed out". `Readiness.WaitIsLoopOutcome` states it as a loop over the first polls. |
| Readiness.WaitIsLoopOutcome | src/app.rs:369-393 | The waiter is the loop that stops at the first poll whose count equals the target. Each poll that misses is followed by a one-second sleep, within a budget of `timeout` polls. |
| Readiness.WaitSucceedsIff | src/app.rs:369-393 | The wait succeeds exactly when one of the first `timeout` polls counts exactly `target` healthy containers. Otherwise it ends with "timed out". |
| Readiness.WaitIssuesWaitTrace | src/app.rs:369-393 | The wait issues the missed polls, each followed by `Sleep(1)`. If a poll hits, that poll comes last. The clock advances one second per missed poll. |
| Readiness.WaitConsumesReplies | src/app.rs:369-393 | The wait reads exactly one reply per status inspection it issues. |
| Readiness.TargetAboveCountTimesOut | src/app.rs:369-393 | A target above the number of ids always times out. |
| Readiness.ZeroTimeoutDoesNotPoll | src/app.rs:370-373 | A zero timeout times out at once and issues nothing. |
| Readiness.WaitTraceOnlyProbes | src/app.rs:369-393 | A wait issues only status inspections of its own ids and one-second sleeps. |
| Reroll.HookCommand | src/app.rs:410 | Defines the hook of one id: the template with every "{id}" replaced by the id. `Reroll.HookWithoutPlaceholder` and `Reroll.HookFillsEveryPlaceholder` state what it yields. |
| Reroll.HooksRunEachId | src/app.rs:409-410 | Hook `j` is the template with "{id}" replaced by old id `j`. |
| Reroll.HookWithoutPlaceholder | src/app.rs:410 | A template without "{id}" runs unchanged for every id. |
| Reroll.HookFillsEveryPlaceholder | src/app.rs:410 | A template made of pieces joined by "{id}", with no "{id}" inside any piece, runs as the same pieces joined by the id: every placeholder is filled, whatever characters surround it. |
| Reroll.RunHooksIssuesHooks | src/app.rs:409-417 | The hooks are issued in id order, one reply each. Their results are never looked at. |
| Reroll.PreStop | src/app.rs:404-433 | Defines `pre_stop`: nothing without a command; otherwise the hooks, then the wait for zero healthy old containers when asked for. Its behaviour is stated by the `Reroll.PreStop…` lemmas below. |
| Reroll.WaitUntilUnhealthy | src/app.rs:419-431 | Defines the optional wait of `pre_stop` for zero healthy old containers, whose result is dropped. `Reroll.WaitUntilUnhealthySpec` states what it issues and reads. |
| Reroll.WaitUntilUnhealthySpec | src/app.rs:419-431 | The wait issues nothing unless asked for; when asked for, it issues the trace of a wait with target zero and reads one reply per inspection. |
| Reroll.PreStopPasses | src/app.rs:404-433 | `pre_stop` never fails. |
| Reroll.PreStopWithoutTemplate | src/app.rs:405-407 | Without a pre-stop command, `pre_stop` issues nothing. |
| Reroll.PreStopIssues | src/app.rs:404-433 | `pre_stop` issues the hooks and then, when asked for, a wait for zero healthy old containers. A timeout of that wait does not end the run. |
| Reroll.PreStopReads | src/app.rs:404-433 | `pre_stop` reads one reply per hook and per inspection of its wait. |
| Reroll.WaitForHealthyOrRollback | src/app.rs:336-352 | Defines the wait for every new container to be healthy, with the stop and removal of the new containers when it times out. `FinishProperties.AwaitReadyPasses` and `FinishProperties.AwaitReadyRollsBack` state its two ends. |
| Reroll.SettleDown | src/app.rs:354-367 | Defines the settle sleep, skipped for a zero setting. `FinishProperties.AwaitReadyPasses` states its place in the gate. |
| Reroll.WaitFallback | src/app.rs:395-402 | Defines the fallback sleep, zero included. `FinishProperties.AwaitReadyPasses` states its place in the gate. |
| Reroll.Retire | src/app.rs:200-204 | After the stop of the old containers, their removal is issued only if the stop succeeded. The result passes exactly when both succeed; otherwise it fails with the first error. |
| FinishProperties.AwaitReadyPasses | src/app.rs:189-195 | The gate passes exactly when there is no health check or the new containers became ready in time. With a health check it issues the wait and then the settle sleep, which comes only for a non-zero setting. Without one it sleeps the fallback time, zero included. |
| FinishProperties.AwaitReadyRollsBack | src/app.rs:336-352 | If the new containers never all report healthy in time, the gate issues the missed polls, then `Stop(new)`, then `Rm(new)` only if the stop succeeded. It fails with the stop's error, else the removal's, else "not healthy after timeout". |
| FinishProperties.FinishRollsBack | src/app.rs:189-190 | A rollback ends the run with its error before `pre_stop`: the old containers are neither hooked, stopped nor removed. |
| FinishProperties.RollbackTraceTouchesOnlyNew | src/app.rs:346-349 | Every stop and removal of a rollback names exactly the new containers, and the stop is always issued. |
| FinishProperties.FinishAfterGateTrace | src/app.rs:198-204 | Once the gate passes, the run issues the pre-stop commands on the old containers, then `Stop(old)`, then `Rm(old)` only if the stop succeeded. |
| FinishProperties.FinishAfterGateExit | src/app.rs:198-207 | Once the gate passes, the run is `Ok` exactly when both the stop and the removal of the old containers succeed. Otherwise it ends with the error of the first one that failed. |
| FinishProperties.FinishOkNeedsReadiness | src/app.rs:189-191 | With a health check, a retirement that ends `Ok` implies the new containers became ready in time. |
| Reroll.MainInternal | src/app.rs:163-208 | Defines `main_internal` as a chain of steps, each of which ends the run on its error. Its behaviour is stated by the `FinishProperties` and `RerollProperties` lemmas. |
| Reroll.Run | src/app.rs:163-208 | A whole run: `main_internal` from the first reply with an empty trace, returning its exit and trace. The `RerollProperties` lemmas are stated about it. |
| Reroll.RollOver | src/app.rs:171-208 | Defines the rolling restart after the running check: the listing of the old containers, whose failure ends the run, then the scale. `RerollProperties.RunReachesGate` states the whole chain. |
| Reroll.DoubleReplicas | src/app.rs:174-177 | Defines the request for twice the old count, whose failure ends the run. `RerollProperties.ScaleRequestDoublesOldCount` and `RerollProperties.ScaleFailureAborts` state it. |
| Reroll.SpotNewContainers | src/app.rs:179-189 | Defines the third listing, the new ids, and the panic on `old_ids[0]` with no old ids. `RerollProperties.EmptyOldIdsPanics` and `RerollProperties.RunReachesGate` state it. |
| Reroll.ProbeHealthCheck | src/app.rs:189 | Defines the probe of the first old container for a health check, whose start failure ends the run; then the finish. |
| Reroll.Finish | src/app.rs:189-207 | Defines `main_internal` from the readiness gate on: the gate, then `pre_stop`, the stop and the removal of the old containers. The `FinishProperties` lemmas state it. |
| Reroll.AwaitReady | src/app.rs:189-196 | Defines the readiness gate: with a health check, the wait or rollback and then the settle sleep; without one, the fallback sleep. `FinishProperties.AwaitReadyPasses` and `FinishProperties.AwaitReadyRollsBack` state it. |
| RerollProperties.FreshStartOnlyStartsService | src/app.rs:166-169 | A first listing that names containers leads to the trace `[Ps, Up]` and nothing else. The run is `Ok` unless `up` cannot be started. |
| RerollProperties.FirstListingFailureAborts | src/app.rs:166 | A first listing that cannot be started ends the run at once with the listing error. |
| RerollProperties.ScaleRequestDoublesOldCount | src/app.rs:171-177 | After a blank first listing, the third command is the request for twice as many replicas as there are old ids. |
| RerollProperties.ScaleFailureAborts | src/app.rs:174-177 | A failed scale request ends the run with the scale error, and nothing is issued after it. |
| RerollProperties.EmptyOldIdsPanics | src/app.rs:171-189 | With an empty second listing, the run asks for 0 replicas, lists a third time and panics on `old_ids[0]`. |
| RerollProperties.RunReachesGate | src/app.rs:163-190 | A run that reaches the gate has issued two listings, the scale, a third listing and the probe of the first old container. It then continues on the old ids and on the new ids computed from the third listing. |
| RerollProperties.RollbackFailsRun | src/app.rs:189-190 | With a health check and no timely readiness, the run ends with the rollback's error. |
| RerollProperties.RollbackRunTrace | src/app.rs:336-352 | The trace of such a run is the commands up to the gate, followed by those of the rollback. |
| RerollProperties.RollbackSparesOldContainers | src/app.rs:189-190 | Such a run stops the new containers. None of its stops or removals names an old container. |
| RerollProperties.OkRunShape | src/app.rs:163-208 | A run ends `Ok` in one of two ways. Either the first listing named containers, `up` started and the trace is `[Ps, Up]`. Or the run reached the gate, saw the new containers healthy in time if there is a health check, and ended with `Stop(old)`, `Rm(old)`. |
| RerollProperties.OkRunNeedsReadiness | src/app.rs:189-191 | With a health check, a rolling restart that ends `Ok` saw every new container healthy in time. |
| RerollProperties.OkRunEndsRetiring | src/app.rs:198-207 | A rolling restart that ends `Ok` stops and then removes the old containers, as its last two commands. |

## Left out

- Readiness.WaitUntilHealthyCount: polls take no time on the abstract clock, so a timeout of T seconds gives exactly T polls. The program may fit fewer, because inspections take time.
- Readiness.WaitUntilHealthyCount: a timeout so large that `Instant::now() + Duration::from_secs(timeout)` overflows (src/app.rs:370-371) makes the program panic as the wait starts. The model uses an unbounded clock and does not produce that panic. The threshold depends on the machine's monotonic clock, which the model does not have.
- RerollProperties.ScaleRequestDoublesOldCount: `old_ids.len() * 2` is a `usize` product. Its overflow, which needs more than 2^63 containers, is not modelled.
- Process spawning and output capture become the replies of a `Script`. Standard error and `from_utf8_lossy` are not modelled: standard output is already a string.
- `OsString` arguments are modelled as strings.
- The argv builders `compose_command` and `docker_command` (src/app.rs:139-161) are not modelled. This also covers the `-f` and `--env-file` prefixes, the docker options kept by the split, the service name, and the `format!` of the scale argument. Commands in the trace carry only what the decisions depend on, so `App` holds only the options the decisions read.
- `detect_compose_command` (src/app.rs:113-137) is not modelled.
- clap parsing and its defaults (src/app.rs:18-55) are not modelled. `AppArgs` is a plain record of whole seconds.
- The plugin metadata print (src/app.rs:73-77) is not modelled.
- Logging (`debug!`, `info!`, `warn!`) and src/main.rs, which only sets up tracing, are not modelled.
- Real time is not modelled: `Instant`, `Duration` and `thread::sleep` become an abstract clock and `Sleep` commands.
- The JSON of `docker inspect` is kept as an opaque string. It is examined only through the two substring tests.
