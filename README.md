# icie discovery and test control logic, in Dafny

This project models the control logic of two features of icie, an editor plugin for competitive programming.

- **Discovery (stress testing)**, from `src/discover/manage.rs`.
  - A background worker repeats a cycle: generate an input, compute the expected output with a brute-force solution, test the user's solution against it, and report a numbered row with the input's fitness.
  - The user steers the worker with Start, Pause and Reset orders.
  - A manager loop turns view intents (Start, Pause, Reset, Save) and worker reports into orders for the worker and updates for the view. It keeps the best fitness among failing rows and whether the worker is paused.
  - Save stores an input as a new custom test, under the smallest unused numeric id.
- **Batch testing**, from `src/test.rs`.
  - The runner walks the scanned test inputs in order. For each `<stem>.in` it reads the expected output `<stem>.out` and the optional alternate output `<stem>.alt.out`, then runs the solution.
  - `add` writes a new test pair under the smallest positive id that no numeric file stem in the directory takes.

Modules:

- `Ci` (`ci.dfy`): shared values — the `R<T>` result, errors, verdicts, outcomes, discovery rows — and the first error in a sequence of results.
- `Paths` (`paths.dfy`): `file_stem`, `with_extension`, `str::parse::<i64>` and the decimal formatting of an id.
- `Util` (`util.dfy`): the minimum excludant `mex`.
- `TestDir` (`test_dir.dfy`): the ids a directory listing takes, and the file pair of a test.
- `Test` (`test.dfy`): `run`, `run_thread`, `unused_test_id`, `add`.
- `DiscoverComms` (`discover_comms.dfy`): the view's `Note` and `Food` messages.
- `DiscoverWorker` (`discover_worker.dfy`): `worker_thread` and `worker_run`.
- `DiscoverManager` (`discover_manager.dfy`): `webview_manage` and `add_test_input`.

How the outside world is modelled:

- **The worker's order queue** is the sequence of what the worker sees at each `recv`/`try_recv`.
  - `Some(order)` is an order taken off the queue.
  - `None` is a `try_recv` that found the queue empty. A blocking `recv` just skips it.
  - The end of the sequence is the manager dropping its sender.
- **The worker's behaviour** is specified by a step machine (`DiscoverWorker.Step`) with states Idle, Running(n) and Paused(n). `Trace` folds the machine over the queue.
  - The imperative `WorkerThread`/`WorkerRun` methods follow the source's loops, and are proved to send exactly `Trace`.
- **Loop bodies.** `DiscoverWorker.RunIteration` and `Test.TestPath` are the imperative bodies of `worker_run`'s and `run_thread`'s loops, each with its early `?` returns. Each is proved to return its specification function, `Iteration` or `ProcessPath`, whose contracts say what one iteration and one test path do; for `ProcessPath` the outcome, the alternate-file read and the `simple_test` error are stated by the lemma `Test.ProcessPathResults`.
- **External programs.** Builds, the generator, the brute force, `simple_test` and the fitness measure are functions of queue position and input (`DiscoverWorker.Oracles`, `Test.BatchEnv`).
- **The merged message stream of the manager** is an input sequence.
- **Directories** are lists of file names. File writes are returned as values.

## Model

| member | source | states |
|---|---|---|
| Paths.FileStem | src/test.rs:105 | the stem is a prefix of the name, non-empty for a non-empty name; it is shorter than the name exactly when the name is not ".." and its last dot lies past the first character, and then it is cut at that last dot |
| Paths.WithExtension | src/test.rs:49-50 | the directory is kept; a path without a file name is unchanged; otherwise the new name starts with the old stem and what follows is "." and the extension, or nothing for an empty extension |
| Paths.WithExtensionKeepsStem | src/test.rs:49 | for any non-empty dot-free extension, the new name has the same stem as the old one |
| Paths.ExpectedKeepsStem | src/test.rs:49 | the expected-output path is `<stem>.out` and has the same stem as the input path |
| Paths.AlternateStem | src/test.rs:50 | the alternate path is `<stem>.alt.out`; its stem is `<stem>.alt`, which never parses as an id |
| Paths.Companions | src/test.rs:49-50 | for every non-empty stem, the companions of `<stem>.in` are `<stem>.out` and `<stem>.alt.out` |
| Paths.CompanionExample | src/test.rs:49-50 | `1.in` has the companions `1.out` and `1.alt.out` |
| Paths.StemOfExtended | src/test.rs:81-82 | appending "." and a dot-free extension to a non-empty stem gives a name whose stem is that stem |
| Paths.ParseI64 | src/test.rs:105 | a digit string, or one with a single leading '+' or '-', parses to its signed decimal value exactly when that lies in the i64 range; any other string does not parse |
| Paths.DecimalString | src/test.rs:81-82 | the rendering is a non-empty digit string with no leading zero whose decimal value is the number |
| Paths.IdString | src/test.rs:81 | the rendering of an id is non-empty and dot-free; it starts with '-' exactly for a negative id, followed by the decimal digits of its magnitude without a leading zero |
| Paths.ParseIdString | src/test.rs:81-82 | parsing a formatted i64 id gives back the id |
| Paths.IdFileStem | src/test.rs:81-82 | the stem of `<id>.<ext>` is the formatted id |
| Util.Mex | src/discover/manage.rs:173 | the result is at least `start`, not among the used values, and every value from `start` below it is used |
| Util.MexUnique | src/discover/manage.rs:173 | the minimum excludant of a set is unique |
| Util.MexBound | src/test.rs:109-112 | the smallest id from 1 not taken is at most the number of taken ids plus one |
| TestDir.StemId | src/test.rs:105 | a file's id, when it has one, lies in the i64 range |
| TestDir.HiddenTakesNoId | src/discover/manage.rs:167-169 | a name starting with '.' has no id |
| TestDir.UsedIds | src/discover/manage.rs:163-172 | the used ids are exactly the values of the file stems that parse as i64; other names contribute nothing |
| TestDir.TakenIdsAreUsedIds | src/test.rs:102-108 | the set `unused_test_id` collects equals the values `add_test_input` collects |
| TestDir.TestFiles | src/test.rs:81-82 | a test is two files, the first holding the input and the second the desired output |
| TestDir.TestFilesStems | src/test.rs:81-82 | both files of test `id` have the formatted id as their stem, so both take the id that rendering parses to |
| TestDir.PairTakesId | src/test.rs:81-82 | the two files of test `id` take exactly the id `id` |
| TestDir.TestFilesTakeId | src/test.rs:77-82 | writing a freshly allocated test adds exactly its id to the taken ids, so the next allocation picks a different id |
| TestDir.AllocationsAgree | src/discover/manage.rs:173 | `mex(1, used)` in `add_test_input` picks the same id as `unused_test_id` for the same directory |
| Test.SuccessIsAccepted | src/test.rs:15-17 | a test run succeeds exactly when its verdict is Accepted |
| Test.ProcessPath | src/test.rs:49-55 | a run keeps its input path and has the `.out` companion as its output path; it exists only if both files were read; a failed input read is the result |
| Test.ProcessPathResults | src/test.rs:51-55 | a failed read of the expected or the present alternate output is the result; otherwise the outcome is `simple_test` on the input, the expected output and the alternate text exactly when that file is present, and a `simple_test` error is the result |
| Test.RunThread | src/test.rs:45-63 | runs are sent in input order, one per path and each for its own path; the thread stops at the first failing path with its error, or at the first run the consumer refuses, or after the last path |
| Ci.FirstErr | src/test.rs:48-58 | the index of the first failing item at or after a position, or the length; every earlier item succeeds |
| Test.ThreadOutcome | src/test.rs:33-34 | from what the runner thread promises: the runs received all precede the first failing path; an error received is that path's; a thread that stopped early without error was cancelled at the next run |
| Test.Run | src/test.rs:20-43 | a build error is returned; otherwise cancellation before the first failing path gives Cancel, and a failing path gives its error; success yields one run per input, in scan order, each the one for that path |
| Test.CollectTaken | src/test.rs:102-108 | the set collected is exactly the set of ids of the file stems that parse as i64 |
| Test.UnusedTestId | src/test.rs:101-114 | the id is at least 1 and not taken, every id in [1, id) is taken, and it is at most the number of taken ids plus one |
| Test.Add | src/test.rs:77-82 | the id is the smallest unused one, and the files written are `<id>.in` holding the input and `<id>.out` holding the desired output |
| DiscoverWorker.Iteration | src/discover/manage.rs:130-148 | a row exists exactly when the generator, the brute force and `simple_test` all succeed; it carries the iteration's number, the generated input, that input's fitness and the solution's outcome tested against the brute force's output; a failing generator gives "test generator failed", a failing brute force "brut failed", and an error of any of the three programs is the result |
| DiscoverWorker.StepRules | src/discover/manage.rs:86-129 | a Reset always leaves the worker idle; an idle worker reports only a failed build; a row carries the state's counter; a session starts at 1 and each row moves the counter on by one; pausing keeps the counter and sends nothing |
| DiscoverWorker.TraceLength | src/discover/manage.rs:86-101 | the worker sends at most one report per queue entry, plus one when the queue closes during a session |
| DiscoverWorker.StepNumbering | src/discover/manage.rs:112-148 | one step keeps rows numbered consecutively and keeps the next number one past the last row sent |
| DiscoverWorker.PrefixThenTrace | src/discover/manage.rs:86-101 | the reports sent so far, followed by those the rest of the queue brings, are the whole trace |
| DiscoverWorker.ReportsNumbering | src/discover/manage.rs:112-148 | whatever the queue and the programs do, every row is numbered at least 1 and a row numbered n > 1 comes right after the row numbered n - 1 |
| DiscoverWorker.SessionStartsAtOne | src/discover/manage.rs:112 | from the idle state or a session that has sent no row, the first report, if a row, is numbered 1 |
| DiscoverWorker.StartNumbersFromOne | src/discover/manage.rs:93-112 | every Start whose builds succeed opens a session whose first row is 1, also after a silent Reset ended the previous session |
| DiscoverWorker.IdleDiscards | src/discover/manage.rs:88-91 | while idle, Pause, Reset and empty polls are discarded |
| DiscoverWorker.IdleWithoutStart | src/discover/manage.rs:87-92 | an idle worker that never sees Start sends nothing |
| DiscoverWorker.IdleStart | src/discover/manage.rs:89-106 | Start begins a session whose next row is numbered 1; a failing build is reported and leaves the worker idle |
| DiscoverWorker.ResetWhileRunning | src/discover/manage.rs:126 | a Reset seen at an iteration boundary ends the session with no further row and no error |
| DiscoverWorker.ResetWhilePaused | src/discover/manage.rs:121 | a Reset in the pause loop reports a cancellation and ends the session |
| DiscoverWorker.PauseKeepsNumber | src/discover/manage.rs:115-120 | Pause enters the pause loop with the counter kept; a further Pause leaves it there |
| DiscoverWorker.ResumeKeepsNumber | src/discover/manage.rs:119 | Start in the pause loop behaves as the iteration that was not paused: same number, same programs |
| DiscoverWorker.PauseLoop | src/discover/manage.rs:117-123 | the loop ends on Start with the state unchanged, or on Reset or a closed queue with the matching error |
| DiscoverWorker.Suspend | src/discover/manage.rs:115-125 | after a Pause, either a Start resumes iteration `number` in the step the Start was taken from, or the session ends with what was sent plus a cancellation or a disconnection |
| DiscoverWorker.Poll | src/discover/manage.rs:113-129 | the poll either runs the iteration for the entry it consumed, or ends the session as the order or a closed queue says |
| DiscoverWorker.Round | src/discover/manage.rs:113-148 | one round either sends a row numbered `number` and continues in Running(number + 1), or ends the session with what the machine has sent, the iteration's error included |
| DiscoverWorker.WorkerRun | src/discover/manage.rs:103-151 | the rows sent are all rows, and after the last poll the worker is idle holding exactly what it sent, or the queue is closed |
| DiscoverWorker.WorkerThread | src/discover/manage.rs:86-101 | the reports sent are exactly the step machine's trace, and their rows are consecutively numbered |
| DiscoverManager.Step | src/discover/manage.rs:34-80 | a report never orders the worker and never spawns a save; only Save spawns; only a worker error is shown; exactly the rows are posted as rows; the best fitness changes only on a Reset, a worker error or a new best |
| DiscoverManager.EffectsAt | src/discover/manage.rs:31-82 | the effects of message k are those of one step from the state the earlier messages led to |
| DiscoverManager.WebviewManage | src/discover/manage.rs:28-83 | the effects are those of handling every message before the first stream error, and that error, if any, is the result |
| DiscoverManager.NoteRules | src/discover/manage.rs:34-59 | Start unpauses and sends Start; Pause pauses and sends Pause; Reset clears both locals and sends Reset; Save pauses, sends Pause exactly when not already paused and spawns the save; only Reset changes the best fitness; each posts its run state |
| DiscoverManager.OkReportRules | src/discover/manage.rs:61-73 | the row is posted with its number, verdict and fitness; its input travels exactly when it is a new best; only a new best changes the best fitness; the best never decreases; a passing row changes nothing |
| DiscoverManager.ErrReportRules | src/discover/manage.rs:74-79 | a worker error clears both locals, posts a reset state and shows the error |
| DiscoverManager.MaxFailing | src/discover/manage.rs:62-66 | the largest fitness among failing rows, `None` exactly when no row failed |
| DiscoverManager.MaxFailingSnoc | src/discover/manage.rs:62-66 | a new row moves the maximum exactly when it fails with a fitness strictly above it |
| DiscoverManager.BestIsMaxSinceClear | src/discover/manage.rs:45-79 | the best fitness is the largest fitness among failing rows reported since the last Reset or worker error |
| DiscoverManager.InputMarksRecord | src/discover/manage.rs:62-72 | a row's input is posted exactly when the row failed with a fitness above every failing row since the last Reset or worker error |
| DiscoverManager.PausedMeaning | src/discover/manage.rs:35-77 | the paused flag holds exactly while some Pause or Save has not been followed by a Start, a Reset or a worker error |
| DiscoverManager.SessionKeepsBest | src/discover/manage.rs:34-66 | within a session (any messages with no Reset and no worker error, intents and rows alike) the best fitness never falls |
| DiscoverManager.PassingRowsPostNoInput | src/discover/manage.rs:34-71 | for any stream of intents and rows in which the solution passes every row, no best is recorded and no row carries its input |
| DiscoverManager.AddTestInput | src/discover/manage.rs:153-178 | build, run, brute-force failure and listing errors are returned in order; when all succeed the result is `Ok`, writing `<id>.in` with the input and `<id>.out` with the brute force's output for the smallest positive id not taken |

## Left out

- Threads, channels, `LazyFuture`, the `join`/`cancel_on` stream merge and `evscode::spawn` are not modelled. The merged stream and the order queue are input sequences, so the interleaving is whatever the input says.
- `handle.lock()?` and `worker_tx.send(...)?` in `webview_manage` are not modelled. They fail only if the view lock is poisoned or the worker thread is gone, and the worker thread lives as long as the sender.
- The `STATUS` progress indicator pushes and drops, the webview creation and rendering, `post_message` transport and `error_show` are left out. Only the posted `Food` values and the shown error are kept.
- Building and running programs, `FreeWhitespaceChecker` and `ByteLength` are uninterpreted functions. The source of these is not part of this model.
- Error messages of the form `format!("test generator failed {:?}", run)` keep only their fixed text. The `Debug` rendering of a run is outside the model.
- `crate::util::mex` is specified by its contract, since its code is not part of this model.
- The progress percentages and time formatting in `run` are floating point and UI. The `strip_prefix(&test_dir)?` error is also left out, since every scanned path lies in the test directory.
- Test scanning and ordering (`scan_and_order`) is not modelled. The ordered input paths are a parameter.
- The lookup of the test directory, `dir::tests()?` in `run`, is left out: the scanned inputs are a parameter, so a failing lookup is not modelled.
- The lookup of the custom test directory, `dir::custom_tests()?`, is left out of `add` and `add_test_input`: both start from the directory's listing.
- The source lookups `crate::dir::solution()?`, `brut()?` and `gen()?` are not modelled separately from the builds they feed. In `worker_run` and `add_test_input`, one `build` result stands for a failed lookup or a failed build, whichever comes first.
- Filesystem errors from `read_dir`, per-entry errors and `create_dir_all` are left out. The exception is `add_test_input`, where the listing is a `Result`. The directory is a list of file names.
- The error of each `fs::write` is left out. So are the `view()` and `update_all()` calls after writing.
- Test.UnusedTestId: does not model the `unwrap` panics on a file name without a stem or with non-UTF-8 text. Directory entries always have a file name, and strings here are always text.
- Test.UnusedTestId: does not model the `id += 1` overflow of `i64`, because it needs more than 2^63 - 1 files.
- Paths.WithExtension: `.` path components are not modelled; a path is a directory string and a final name.
- The test outcome's running time and the commands `view`, `view_current` and `input` are left out.
- `src/init/files.rs` and `evscode/src/lib.rs` are not part of this model.
- `Verdict` keeps only the distinction the code uses. `Accepted` is the one success verdict, and the other verdicts stand for the failing ones.
