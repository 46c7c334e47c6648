# stresssuite, modelled in Dafny

`stresssuite` is a small Python 2 harness for stress tests. A *test* holds:

- a name;
- a list of contexts, one per worker;
- five workload functions: init, exec, final, vary and print_c.

Each run of a test starts one worker per context. The harness times each worker's exec and appends one *round* of `(cpu, real_time, context)` records to the test's history. The result is an AND of all workers' flags, and it is sticky: once False, further runs do nothing. `start_vary(n)` runs `n` rounds. Every round but the last lets each successful worker vary its context by the step.

Tests are grouped in *suites*, and suites in a *collection*. The program `stresssuite.py` parses its command line, then registers two suites:

- the filesystem suite (directory, file and filled-file creation);
- the cpu suite (base64/rot13 encoding).

It then lists the tests, runs one test, runs one suite, or runs them all.

The project models:

- **Engine:** the process variant (`ProcessStress`, `stresssuite/stress.py`) and the thread variant (`ThreadStress`, `stress.py`).
- **Round rule:** the round bookkeeping both variants share, stated once on values (`Rounds`, over `History`).
- **Reports:** the statistics and gnuplot exports of a test's history, as values (`Reports`).
- **Workloads:**
  - the filesystem workloads common to both suites (`FileTests`);
  - the process-variant filesystem suite (`FssProcess`, `stresssuite/fss.py`);
  - the thread-variant filesystem suite (`FssThread`, `fss.py`);
  - the cpu suite (`CpuStress`, `cpu_stress.py`).
- **Driver:** the command line (`CommandLine`) and the collection and `main` (`Driver`), both from `stresssuite.py`.
- **Python text:** `str()` of an integer, `int()` of an argument, and strings of spaces (`PyText`).

Modelling choices:

- **Clocks:** they are an oracle `clock(round, worker)` returning CPU and wall-clock times as `real`s.
- **Filesystem:** it is an oracle saying which call raises, by the path it is given. The file tests' calls `os.mkdir`, `open`, `write`, `close` and `chdir` are modelled this way.
- **Gnuplot exports:** they have an oracle of their own, `ExportEnv`. It says whether the directory exists, whether `os.makedirs` and `open` succeed, and which `gnuplot.write` of the call, if any, is the first to raise. That write ends the `try`, so the file keeps the lines written before it and the method returns None.
- **Thread finishing order:** it is a parameter, `order` for one round or `schedule(k)` for round `k`.
- **Test and suite classes:** each `Test` and `TestSuite` is a Dafny `class` whose methods update its fields, like the Python objects. Each method is proved against a function of the old state (`Once`, `Vary`, `ThreadOnce`, `ThreadVary`, `NormalStatsOf` and so on). The lemmas state what those functions promise.
- **Context tuples:** they become one datatype per tuple shape, plus a sum type `Context` for suites that mix tests.
- **Collection of suites:** the registrations in `fss.py`, `stresssuite/fss.py` and `cpu_stress.py` pass the workload functions as one tuple, which is the process-variant `Test` signature. The collection and its suites are therefore modelled with `ProcessStress.Test` and `ProcessStress.TestSuite`.

## Model

| member | source | states |
|---|---|---|
| Rounds.RoundReports | stresssuite/stress.py:375-384 | one report per context, worker `i` run on `context_list[i]` as it stood before the round |
| Rounds.Once | stresssuite/stress.py:363-419 | a False result makes the run a no-op; otherwise exactly one round of one record per worker is appended, in worker order, the earlier history kept; slot `i` takes worker `i`'s returned context; the result is the AND of the flags; one record per context is preserved |
| Rounds.OnceFromReports | stresssuite/stress.py:401-418 | collecting the reports slot by slot into `process_times`, `context_list[i]` and `result` and appending the round is exactly `Once` |
| Rounds.Repeat | stresssuite/stress.py:425-436 | defines `k` rounds run with vary=True; `RepeatFailed` and `VaryFromIsRepeat` state it |
| Rounds.VaryFrom | stresssuite/stress.py:425-436 | defines the loop of `start_vary` from iteration `i`, stopping once the result is False; `VaryFromIsRepeat` and `VaryFromBounds` state it |
| Rounds.Vary | stresssuite/stress.py:422-436 | defines `start_vary(n)`; `VaryIsRepeatThenFinal` and `VaryBounds` state it |
| Rounds.RepeatFailed | stresssuite/stress.py:430-436 | rounds on a failed test change nothing |
| Rounds.VaryFromIsRepeat | stresssuite/stress.py:425-436 | the loop of `start_vary` from iteration `i` is `n-1-i` varying rounds then one final non-varying round |
| Rounds.VaryIsRepeatThenFinal | stresssuite/stress.py:422-436 | `start_vary(n)` is `n-1` rounds with vary=True then one with vary=False, nothing when `n` is 0 |
| Rounds.VaryFromBounds | stresssuite/stress.py:425-436 | from iteration `i`: the history grows by at most `n-i` rounds, the prefix is kept, the result only goes from True to False, a failed test is left alone, a still-successful test got exactly `n-i` rounds |
| Rounds.VaryBounds | stresssuite/stress.py:422-436 | `start_vary(n)`: at most `n` rounds added, the earlier history kept, a failed test untouched, exactly `n` rounds when the result stays True, fewer only when it turned False, one record per context preserved |
| History.SumAppend | stresssuite/stress.py:459-460 | adding up two runs of times one after the other is adding their sums |
| History.Cpus | stresssuite/stress.py:458-459 | the CPU times of a round, worker by worker |
| History.Walls | stresssuite/stress.py:458-460 | the wall-clock times of a round, worker by worker |
| History.CpuColumn | stresssuite/stress.py:490-500 | one CPU total per round, that round's sum |
| History.WallColumn | stresssuite/stress.py:490-501 | one wall-clock total per round, that round's sum |
| History.CumulativeMatchesTotal | stresssuite/stress.py:453-460 | the per-round totals of the cumulative statistics add up to the grand totals the normal statistics average |
| History.LastRoundSplit | stresssuite/stress.py:490-498 | the columns and the flattened history of a nonempty history are those of its earlier rounds followed by the last round |
| History.FlattenLength | stresssuite/stress.py:453-457 | `nb_tests` rounds of `n` records give `nb_tests * n` rows |
| History.FlattenIndex | stresssuite/stress.py:453-458 | record `k` of round `i` is row `i * n + k` |
| History.Column | stresssuite/stress.py:567-572 | worker `j`'s records across the rounds, in round order |
| History.RoundStep | stresssuite/stress.py:495-498 | one more record adds its times to the round's totals |
| History.TotalStep | stresssuite/stress.py:453-460 | one more round adds its totals to the grand totals |
| Lookup.FirstIndexOf | stresssuite/stress.py:171-182 | None exactly when no entry has the name; otherwise an entry with that name and none before it |
| PyText.NatToString | fss.py:67 | `str(n)`: nonempty, all digits, no leading zero |
| PyText.IntToString | fss.py:179 | `str(i)`: a minus sign before the digits of a negative number |
| PyText.NatToStringValue | fss.py:67 | the digits `str(n)` writes read back as `n` |
| PyText.NatToStringInjective | fss.py:521-523 | different numbers print differently |
| PyText.TrimLeft | stresssuite.py:284 | a suffix of the argument that does not start with whitespace |
| PyText.TrimRight | stresssuite.py:284 | a prefix of the argument that does not end with whitespace |
| PyText.TrimUnpadded | stresssuite.py:284 | a string without surrounding whitespace is left as it is |
| PyText.SignedValue | stresssuite.py:284 | defines `int()` on a string without surrounding whitespace: an optional sign, optional whitespace after it, then one or more digits |
| PyText.ParseInt | stresssuite.py:284 | defines `int(arg)`: whitespace stripped at both ends, then `SignedValue`; its properties are `ParseDigits`, `ParseIntSpacedSign` and `ParseIntOfIntToString` |
| PyText.ParseDigits | stresssuite.py:284 | a run of digits alone reads as its value |
| PyText.ParseIntSpacedSign | stresssuite.py:284 | a sign, whitespace, then digits to the end read as the signed value of the digits |
| PyText.ParseIntOfIntToString | stresssuite.py:283-284 | `int(str(i)) == i` for every integer |
| PyText.Spaces | fss.py:497-501 | `n` spaces, none for a negative `n` |
| Contexts.Child | fss.py:522 | `path + '/' + str(i)` starts with `path` and a slash |
| Contexts.ChildInjective | fss.py:521-523 | different indices name different entries of one directory |
| ProcessStress.RunWorker | stresssuite/stress.py:327-353 | the flag is exec's; the record holds exec's returned context with the clock's times; the context handed back is final's, then varied only when vary and the flag are both True |
| ProcessStress.PlotDirectiveLine | stresssuite/stress.py:557-564 | the `plot` directive with one `'-'` entry per worker |
| ProcessStress.WriteSeries | stresssuite/stress.py:574-581 | the data lines are the series blocks of the `inverse` table, stopping where `'%d'` fails |
| ProcessStress.RoundTotals | stresssuite/stress.py:620-626 | the round's CPU and wall totals, and the loop variable `context` left at the round's last record |
| ProcessStress.Test.constructor | stresssuite/stress.py:270-304 | the attributes as given, the contexts as given, no round yet, the result True |
| ProcessStress.Test.StartOnce | stresssuite/stress.py:363-419 | the new state is `Once` of the old one; one record per context is preserved; `nb_process` counts the ready workers |
| ProcessStress.Test.SpawnWorkers | stresssuite/stress.py:375-384 | each worker runs on its own slot of `context_list` as it stood before the round |
| ProcessStress.Test.AwaitReadiness | stresssuite/stress.py:392-394 | `nb_process` ends at the number of workers |
| ProcessStress.Test.CollectReports | stresssuite/stress.py:401-411 | records in worker order, each context to its slot, the result the AND of the flags |
| ProcessStress.Test.StartVary | stresssuite/stress.py:422-436 | the new state is `Vary` of the old one over `max(nb_times, 0)` iterations |
| ProcessStress.Test.PrintNormalStats | stresssuite/stress.py:439-475 | the report is `NormalStatsOf` the history |
| ProcessStress.Test.AddRoundRows | stresssuite/stress.py:453-467 | round `i`'s rows are numbered `(i+1).(j+1)`, and its times are added to the sums |
| ProcessStress.Test.PrintCumulativeStats | stresssuite/stress.py:478-509 | the report is `CumulativeStatsOf` the history |
| ProcessStress.Test.SumRound | stresssuite/stress.py:490-502 | the round's totals, and `context` bound to its last record, or left as before when the round is empty |
| ProcessStress.Test.PrintStats | stresssuite/stress.py:512-523 | normal statistics when `stats == 1`, cumulative otherwise |
| ProcessStress.Test.SaveInGnuplotNormal | stresssuite/stress.py:526-596 | the export is `GnuplotNormal`, including the file cut at the first failing write; `process_times` is left holding the last round exactly when the file holds the five header lines, and is otherwise unchanged |
| ProcessStress.Test.WriteNormal | stresssuite/stress.py:541-596 | the file holds `NormalLines` up to the first failing write; the `inverse` table, and with it `process_times`, is built only once the five header lines are written |
| ProcessStress.Test.NormalHeader | stresssuite/stress.py:552-564 | the title, ylabel, xlabel and `plot` lines are `Header` |
| ProcessStress.Test.WriteData | stresssuite/stress.py:567-581 | after the header, the file gets the series blocks of the `inverse` table up to the first failing write, and `process_times` is left at the last round |
| ProcessStress.WriteLines | stresssuite/stress.py:543-581 | the lines are written in order after those already there; the first write that raises ends the writing, and the file is `Written` of the whole |
| ProcessStress.Test.Invert | stresssuite/stress.py:559-572 | `inverse[j]` is worker `j`'s column, and `process_times` is left at the last round |
| ProcessStress.Test.SaveInGnuplotCumulative | stresssuite/stress.py:601-644 | the export is `GnuplotCumulative`, including the file cut at the first failing write |
| ProcessStress.Test.CumulativeData | stresssuite/stress.py:614-632 | the lines formatted are `CumulativeLines`: one per round up to the first 'vary' value `'%d'` rejects, then `e` if none is rejected |
| ProcessStress.Test.SaveInGnuplot | stresssuite/stress.py:649-661 | the normal export when `stats == 1`, the cumulative one otherwise, each with its failures: no directory, `open` failing, or a write failing partway |
| ProcessStress.TestSuite.Names | stresssuite/stress.py:178-179 | the tests' names, in list order |
| ProcessStress.TestSuite.constructor | stresssuite/stress.py:58-66 | the name and description as given, and an empty list of its own |
| ProcessStress.TestSuite.AddTest | stresssuite/stress.py:69-75 | the test goes at the end of the list |
| ProcessStress.TestSuite.FindTestByName | stresssuite/stress.py:171-182 | None exactly when no test has the name, otherwise the first one that has it |
| ProcessStress.TestSuite.RunTestSuiteOnce | stresssuite/stress.py:78-85 | each test of a suite that holds no test twice has had one non-varying `Once` |
| ProcessStress.TestSuite.RunTestSuiteOnceVary | stresssuite/stress.py:88-99 | each test of a suite that holds no test twice has had `start_vary(nb_times)`; one record per context is preserved |
| ProcessStress.TestSuite.SetDebugMode | stresssuite/stress.py:140-148 | every test gets the flag, and no test's state changes |
| ProcessStress.TestSuite.RunTestVaryByName | stresssuite/stress.py:185-196 | the first test of that name has had `start_vary`, the other tests are untouched; with no such test the `self.debug` branch fails; `nb_times` defaults to 1 |
| Reports.RoundRows | stresssuite/stress.py:455-467 | one row per record of the round: round number, worker number from 1, the times, the 'print' summary |
| Reports.RoundRowsStep | stresssuite/stress.py:456-467 | one more record adds its row at the end |
| Reports.NormalRowsStep | stresssuite/stress.py:453-467 | one more round adds its rows at the end |
| Reports.CumulativePrefix | stresssuite/stress.py:489-505 | one row per round so far |
| Reports.NormalRowsMatchFlatten | stresssuite/stress.py:453-467 | the rows line up with the flattened history: same times, that record's 'print' summary |
| Reports.NormalStatsOf | stresssuite/stress.py:439-475 | defines `print_normal_stats`: no tests, a division by zero for an empty first round, or the rows and averages; `NormalStatsShape` and `NormalStatsAverages` state it |
| Reports.CumulativeStatsOf | stresssuite/stress.py:478-509 | defines `print_cumulative_stats`: no tests, no context for an empty first round, or one row per round; `CumulativeStatsShape` states it |
| Reports.StatsOf | stresssuite/stress.py:512-523 | defines `print_stats(stats)`: the normal report for `stats == 1`, the cumulative one otherwise |
| Reports.NormalStatsShape | stresssuite/stress.py:442-472 | with `n > 0` records per round: the report has `nb_tests * n` rows; row `i*n+k` is worker `k+1` of round `i+1` with that record's times; the averages are the grand totals divided by `nb_tests * n` |
| Reports.NormalStatsAverages | stresssuite/stress.py:442-472 | with `n > 0` records per round the report has averages over `nb_tests * nb_process` samples |
| Reports.NormalStatsRow | stresssuite/stress.py:453-467 | row `i*n+k` is the record of worker `k` in round `i` |
| Reports.NormalRowsIndex | stresssuite/stress.py:452-457 | row `i*n+k` is numbered `(i+1).(k+1)` |
| Reports.CumulativePrefixRows | stresssuite/stress.py:489-505 | row `k` is round `k+1` with its CPU and wall totals and the worker count of the first round; `context` ends at the last record of the latest nonempty round |
| Reports.CumulativeStatsShape | stresssuite/stress.py:481-505 | with `n > 0` records per round: one row per round holding its totals and the 'vary' value of its last record, and the rows' totals add up to the grand totals |
| Reports.CumulativePrefixIsPrefix | stresssuite/stress.py:490-505 | later rounds only add rows at the end |
| Reports.CumulativePrefixStep | stresssuite/stress.py:490-505 | one more round adds its row, and `context` moves to its last record when it has one |
| Reports.PlotDirective | stresssuite/stress.py:557-561 | the directive starts with the entry for worker 0 |
| Reports.Series | stresssuite/stress.py:576-580 | at most one data line per round |
| Reports.Columns | stresssuite/stress.py:559-572 | `inverse`: one column per worker, worker `j`'s records in round order |
| Reports.TripleLines | stresssuite/stress.py:620-630 | at most one line per round |
| Reports.SeriesStuck | stresssuite/stress.py:574-581 | once a series stopped on a failed `'%d'`, later rounds add nothing |
| Reports.BlocksStuck | stresssuite/stress.py:574-581 | once a worker's series stopped, later workers add nothing |
| Reports.SeriesComplete | stresssuite/stress.py:576-580 | a series is complete exactly when every 'vary' value is an integer, and then line `i` is round `i`'s 'vary' value against its wall time |
| Reports.BlockStartIsProduct | stresssuite/stress.py:574-581 | worker `j`'s block starts at line `j * (m + 1)` |
| Reports.BlockStartMonotone | stresssuite/stress.py:574-581 | the blocks do not overlap |
| Reports.BlocksComplete | stresssuite/stress.py:574-581 | all series are complete exactly when every 'vary' value is an integer, and exactly then the data have full length |
| Reports.BlocksLines | stresssuite/stress.py:574-581 | in complete series, worker `j`'s block is its points in round order followed by `e` |
| Reports.GnuplotNormal | stresssuite/stress.py:526-598 | defines `save_in_gnuplot_normal`: no file when the path cannot be made or the file opened, otherwise `Written` of the lines it sets out to write; `ExportTruncated`, `NormalExportLayout`, `NormalExportSplit` and `NormalExportPoints` state it |
| Reports.GnuplotCumulative | stresssuite/stress.py:601-646 | defines `save_in_gnuplot_cumulative`: no file when the path is missing or the file cannot be opened, otherwise `Written` of the lines it sets out to append; `ExportTruncated` and `CumulativeExportLayout` state it |
| Reports.Written | stresssuite/stress.py:541-596 | what reaches the file is a prefix of the lines attempted: all of them exactly when no write among them fails, otherwise exactly those before the failing write |
| Reports.WrittenStops | stresssuite/stress.py:591-596 | once a write has raised, lines attempted after it never reach the file |
| Reports.ExportTruncated | stresssuite/stress.py:541-644 | a failing write changes neither whether a file is opened nor its name or mode; the file holds a prefix of what it holds when every write succeeds, short of it exactly when the failing write is one of those lines, and then holding the lines before that write |
| Reports.NormalExportLayout | stresssuite/stress.py:530-583 | when no write fails: the file is `path/name.p`, opened for writing; the terminal, title, ylabel, xlabel and plot lines come first; it has full length exactly when every 'vary' value is an integer |
| Reports.NormalBlocksShape | stresssuite/stress.py:567-581 | the blocks are complete exactly when every 'vary' value is an integer, and exactly then they have full length |
| Reports.NormalBlockPoint | stresssuite/stress.py:574-581 | worker `j`'s block holds round `i`'s point and ends with `e` |
| Reports.NormalExportPoints | stresssuite/stress.py:574-581 | when no write fails, in a complete file, the line for worker `j` and round `i` is that record's 'vary' value and wall time, and each block ends with `e` |
| Reports.NormalExportSplit | stresssuite/stress.py:541-581 | when no write fails, a file with records is five directives followed by the series blocks |
| Reports.TripleLinesComplete | stresssuite/stress.py:628-630 | all lines are written exactly when every round's 'vary' value is an integer, and then line `i` is round `i`'s 'vary' value with its totals |
| Reports.CumulativeExportLayout | stresssuite/stress.py:605-633 | when no write fails, the file is `path/name.p`, opened for appending; one line per round with its last record's 'vary' value and its totals, then `e` |
| Reports.TripleLinesStuck | stresssuite/stress.py:620-630 | once a 'vary' value stopped the export, later rounds add nothing |
| Reports.TripleLinesSnoc | stresssuite/stress.py:620-630 | one more round adds its line if the export has not stopped and its 'vary' value is an integer |
| ThreadStress.RunThread | stress.py:294-325 | the flag is exec's; the record holds init's context; the context handed back is final's, varied whenever vary is set, whatever the flag |
| ThreadStress.Arrange | stress.py:322-325 | the round's records in the order the threads entered the critical section |
| ThreadStress.RecordsOf | stress.py:314 | each thread's record, in thread order |
| ThreadStress.ArrangeKeepsRecords | stress.py:322-325 | every thread's record appears in the round, which keeps its size |
| ThreadStress.ThreadOnce | stress.py:333-362 | contexts and result as in the process variant's round; the appended round holds the same records in finishing order; a failed test is untouched |
| ThreadStress.ThreadVary | stress.py:365-375 | defines the thread variant's `start_vary(n)` for a given finishing order per round; `ThreadVaryAgrees` and `ThreadVaryBounds` state it |
| ThreadStress.ThreadVaryFrom | stress.py:368-375 | the number of contexts never changes |
| ThreadStress.ThreadVaryAgrees | stress.py:365-375 | the thread variant's `start_vary` runs the same rounds as the process variant's: same contexts, result and history length, and each new round holds the same records in finishing order |
| ThreadStress.ThreadVaryBounds | stress.py:365-375 | at most `n` rounds added, the earlier history kept, a failed test untouched, exactly `n` rounds while the result stays True, fewer only when it turned False |
| ThreadStress.ThreadRoundRows | stress.py:395-404 | one row per record, round and thread numbered from 0, the context itself |
| ThreadStress.ThreadRoundRowsStep | stress.py:397-404 | one more record adds its row at the end |
| ThreadStress.ThreadRowsStep | stress.py:394-404 | one more round adds its rows at the end |
| ThreadStress.ThreadStatsOf | stress.py:386-409 | defines the thread variant's `print_stats` report: no tests, a division by zero, or the rows and averages, the divisor from the last round; `ThreadStatsMatchNormal` states it |
| ThreadStress.ThreadStatsMatchNormal | stress.py:386-409 | with `n > 0` records per round, the thread variant's averages equal the process variant's, and both are the grand totals over `nb_tests * n` samples |
| ThreadStress.AccumulateRound | stress.py:395-404 | round `i`'s rows, and its times added to the sums |
| ThreadStress.Test.constructor | stress.py:248-275 | the attributes as given, no round yet, the result True, an empty `thread_times` |
| ThreadStress.Test.StartOnce | stress.py:333-362 | the new state is `ThreadOnce` of the old one for the given finishing order; one record per context is preserved |
| ThreadStress.Test.ThreadReports | stress.py:294-320 | each thread computes from its own slot of `context_list` as it stood before the round |
| ThreadStress.Test.CriticalSections | stress.py:322-325 | `thread_times` holds the records in finishing order, each context goes to its own slot, and the result is the AND of the flags |
| ThreadStress.Test.StartVary | stress.py:365-375 | the new state is `ThreadVary` of the old one |
| ThreadStress.Test.PrintStats | stress.py:378-412 | the report is `ThreadStatsOf` the history, and `thread_times` is left at the last round |
| ThreadStress.TestList.constructor | stress.py:57 | the class-level list starts empty |
| ThreadStress.SharedTestSuite.constructor | stress.py:59-66 | a suite built as written: name and description set, the list the class-level one |
| ThreadStress.SharedTestSuite.Names | stress.py:168-171 | the names in the shared list, in order |
| ThreadStress.SharedTestSuite.AddTest | stress.py:69-75 | the test is appended to the class-level list |
| ThreadStress.SharedTestSuite.FindTestByName | stress.py:162-173 | the first test of that name in the shared list, None when there is none |
| ThreadStress.SharedListWitness | stress.py:57-75 | two suites built as written share one list: a test added to the first is listed and found by the second |
| ThreadStress.TestSuite.constructor | stress.py:59-66 | the corrected suite starts with an empty list of its own |
| ThreadStress.TestSuite.Names | stress.py:168-171 | the names in the suite's own list, in order |
| ThreadStress.TestSuite.AddTest | stress.py:69-75 | the test is appended to this suite's list |
| ThreadStress.TestSuite.FindTestByName | stress.py:162-173 | the first test of that name in this suite, None when there is none |
| ThreadStress.SeparateListsWitness | stress.py:57-75 | with a list per suite, a test added to one suite is not seen by another |
| FileTests.FirstFailing | fss.py:62-72 | the first index that raises, None when none does |
| FileTests.Verdict | fss.py:62-84 | success exactly when the path is set, every index succeeds and there are at least two (one index leaves `i == 0`); the count is cut at the first failing index |
| FileTests.CreationLoop | fss.py:62-84 | the loop with its `first_err` sentinel computes `Verdict` |
| FileTests.DirectoryTest | fss.py:38-84 | success exactly when every `mkdir(path/i)` succeeds for at least two indices; an empty path fails untouched; otherwise the count is kept exactly when no `mkdir` fails, and is cut to the first failing index when one does; nothing else in the context changes |
| FileTests.MakeDirectoryTest | fss.py:38-84 | the loop computes `DirectoryTest` |
| FileTests.FilesTest | fss.py:218-261 | success exactly when every file opens and closes, for at least two indices; an empty path fails untouched; otherwise the count is kept exactly when no file fails, and is cut to the first failing index when one does; nothing else in the context changes |
| FileTests.MakeFilesTest | fss.py:218-261 | the loop computes `FilesTest` |
| FileTests.Copies | fss.py:280-282 | `k` copies of the buffer, holding nothing else |
| FileTests.WriteOutcome | fss.py:266-288 | success exactly when size and buffer are positive and all `file_size / len(buffer)` writes succeed |
| FileTests.WrittenSize | fss.py:266-288 | after success the file holds the largest multiple of the buffer length that fits in the size; after a failure it holds less; it holds only buffer characters |
| FileTests.WriteToTheFile | fss.py:266-288 | the loop computes `WriteOutcome` |
| FileTests.FirstFailingPrefix | fss.py:71-72 | the first failure stays the first when more indices are scanned |
| FileTests.FillLoop | fss.py:314-350 | open, write and close per index, with `first_err` and `result`, compute `Verdict` |
| FileTests.MakeBuffer | fss.py:484-508 | `buffer_size` spaces, none for a negative size |
| FileTests.FssTestsInit | fss.py:89-116 | records the working directory; the path is kept when it can be entered or created, and is '' otherwise |
| FileTests.FssTestsFinal | fss.py:121-140 | hands back the context it was given, whether the chdir back fails or not |
| FileTests.FssTestsVary | fss.py:145-158 | only `nb_tests` changes, multiplied by the step |
| FileTests.FssPrintC | fss.py:163-183 | 'Tests : n' for 'print', the label for 'config', `nb_tests` for 'vary', None otherwise |
| FileTests.FssVaryCompose | fss.py:145-183 | varying twice is varying once by the product of the steps, and 'vary' reports the count |
| FileTests.InitFailureFailsTests | fss.py:104-113 | when init cannot enter or create the directory, both tests fail with their count kept |
| FileTests.FssMakeContextList | fss.py:513-525 | one context per worker, worker `i` in `basepath/i`, no two sharing a directory |
| FileTests.DirContextsOf | fss.py:540 | one context per worker, none for a negative count |
| FileTests.AddCreationTests | fss.py:540-561 | appends the 'Directory creation' test (100 per worker) then the 'Files creation' test (512 per worker), each new, with those names, workloads and contexts |
| FssProcess.SpaceFilesTest | stresssuite/fss.py:293-351 | success exactly when every file opens, is filled and closes, for at least two indices; success needs a positive size and a nonempty buffer; an empty path fails untouched; otherwise the count is kept exactly when no file fails, and is cut to the first failing index when one does; nothing else changes |
| FssProcess.MakeZeroFiledFilesTest | stresssuite/fss.py:293-351 | the loop computes `SpaceFilesTest` |
| FssProcess.MzfftInit | stresssuite/fss.py:356-395 | builds the buffer of `buffer_size` spaces, records the working directory, and keeps the path only when it can be entered or created |
| FssProcess.MzfftFinal | stresssuite/fss.py:400-423 | when the chdir back to `current_path` fails, the context it was given comes back unchanged; otherwise the same context with the buffer dropped |
| FssProcess.MzfftVaryFileSize | stresssuite/fss.py:428-440 | only the file size changes, multiplied by the step |
| FssProcess.MzfftPrintC | stresssuite/fss.py:445-467 | the 'print' and 'config' strings, the file size for 'vary', None otherwise |
| FssProcess.MzfftVaryReported | stresssuite/fss.py:428-467 | 'vary' reports the file size times the step, while the 'config' label stays |
| FssProcess.EmptyBufferFails | stresssuite/fss.py:274-288 | with a buffer size that is not positive, the test fails |
| FssProcess.MzfftMakeContextList | stresssuite/fss.py:472-486 | one context per worker, worker `i` in `basepath/i`, the other fields copied |
| FssProcess.DirectoryWorkerStep | stresssuite/fss.py:38-158 | a directory worker in a varying round succeeds exactly when it enters its directory and every mkdir succeeds, for at least two; it then goes on with the count times the step |
| FssProcess.FileSystemTests | stresssuite/fss.py:540-608 | the 'Files' suite holds three new tests in order: directories (100), files (512), space-filled files (2048 files of 512 bytes, the buffer built at init) |
| FssProcess.SizedContextsOf | stresssuite/fss.py:580-581 | one context per worker, none for a negative count |
| FssThread.ZeroFilesTest | fss.py:293-350 | success exactly when every file opens, is filled and closes, for at least two indices; success needs a positive size and a nonempty buffer; an empty path fails untouched; otherwise the count is kept exactly when no file fails, and is cut to the first failing index when one does; nothing else changes |
| FssThread.MakeZeroFiledFilesTest | fss.py:293-350 | the loop computes `ZeroFilesTest` |
| FssThread.MzfftInit | fss.py:355-389 | records the working directory, keeps the buffer, and keeps the path only when it can be entered or created |
| FssThread.MzfftFinal | fss.py:394-416 | hands back the context it was given |
| FssThread.MzfftVaryFileSize | fss.py:421-433 | only the file size changes, multiplied by the step |
| FssThread.MzfftPrintC | fss.py:438-460 | the 'print' and 'config' strings, the file size for 'vary', None otherwise |
| FssThread.MzfftMakeContextList | fss.py:465-479 | one context per worker, worker `i` in `basepath/i`, the other fields copied, no two sharing a directory |
| FssThread.ZeroFilesWorkerStep | fss.py:293-433 | a successful worker goes on with the same buffer and count and the file size times the step; success needs a buffer, a size and two files |
| FssThread.FileSystemTests | fss.py:530-585 | the 'Files' suite holds the directory and files tests, and the zero-filled files test exactly when the buffer is not empty |
| FssThread.AddZeroFilesTest | fss.py:564-577 | the zero-filled test is appended, with its workload and contexts, exactly when `make_buffer` gives a nonempty buffer |
| FssThread.FilledContextsOf | fss.py:567-568 | one context per worker, none for a negative count |
| CpuStress.CpuEncodeStressTest | cpu_stress.py:39-65 | success exactly when `nb_tests` is positive; the context is kept |
| CpuStress.CpuEstInit | cpu_stress.py:70-79 | the context is unchanged |
| CpuStress.CpuEstFinal | cpu_stress.py:84-93 | the context is unchanged |
| CpuStress.CpuEstVary | cpu_stress.py:98-124 | the count is multiplied by the step only when both are positive |
| CpuStress.CpuEstPrintC | cpu_stress.py:129-152 | 'Tests : n' for 'print', the label for 'config', the count for 'vary', None otherwise |
| CpuStress.CpuVaryKeepsOutcome | cpu_stress.py:39-124 | varying never changes whether the test succeeds, and never lowers the count |
| CpuStress.MakeCpuEstContextList | cpu_stress.py:157-174 | `nb_threads` copies of the context, none for a negative count |
| CpuStress.CpuRoundStep | cpu_stress.py:39-124 | a varying round over positive counts succeeds and multiplies every count by the step |
| CpuStress.CpuRepeat | cpu_stress.py:98-124 | `k` varying rounds succeed and leave every count multiplied by `step^k`, which stays positive |
| CpuStress.CpuVaryScenario | cpu_stress.py:39-124 | `start_vary(k+1)` over positive counts never fails, adds `k+1` rounds, and leaves counts times `step^k` |
| CpuStress.CpuTests | cpu_stress.py:179-216 | the 'CPU' suite holds the 'Cpu encode stress' test (20000 per worker, one context per worker) exactly when there is a worker |
| CommandLine.Options.constructor | stresssuite.py:179-198 | the default settings |
| CommandLine.TransformToInt | stresssuite.py:274-295 | the integer `int()` reads, with whitespace allowed around the argument and after its sign, when it is positive; exit status 2 when it is not an integer or not positive |
| CommandLine.TransformToIntSpacedSign | stresssuite.py:274-295 | `--threads='+ 5'` is read as 5, since `int()` skips whitespace after the sign |
| CommandLine.TransformToIntOfIntToString | stresssuite.py:274-295 | a number written by `str` reads back when positive and is refused otherwise |
| CommandLine.OccursIsSlice | stresssuite.py:335 | `a in b` holds exactly when `a` is a slice of `b` |
| CommandLine.SliceShift | stresssuite.py:335 | dropping `b`'s first character shifts slice positions by one |
| CommandLine.Classify | stresssuite.py:323-348 | defines which branch of the `if`/`elif` chain an option takes; the tests on a bare string such as `opt in ('--testname')` are occurrence tests, as `OccursIsSlice` states |
| CommandLine.ParseStep | stresssuite.py:323-348 | defines the effect of one `(opt, arg)` pair: a changed setting, or an exit status; `RunAndHelpSteps` and `StepKeeps` state it |
| CommandLine.ParseAll | stresssuite.py:318-348 | defines the loop over the pairs, in order, stopping at the first exit; `ParseAllAppend`, `LastRunOptionWins` and `ListIsSticky` state it |
| CommandLine.ParseAllAppend | stresssuite.py:318-348 | the options parsed in two pieces give the same result as in one |
| CommandLine.LastRunOptionWins | stresssuite.py:327-332 | the last of `-o` and `-m` decides the run count; `-h` anywhere ends with status 0 |
| CommandLine.RunAndHelpSteps | stresssuite.py:323-332 | `-o` sets one run, `-m` the parsed count or status 2, `-h` status 0 |
| CommandLine.StepKeeps | stresssuite.py:323-348 | an option sets the list flag only if it is `-l`; only `-o` and `-m` change the run count; `--testname` sets the name to its argument and no other option changes it |
| CommandLine.ParseAllKeeps | stresssuite.py:323-348 | over a whole command line, options that are not `--list` leave the list flag, and options that are not `--testname` leave the name |
| CommandLine.ParseAllAt | stresssuite.py:323-348 | the options parse as those before the `k`-th, then the `k`-th, then the rest |
| CommandLine.RunsNeedRunOption | stresssuite.py:318-348 | without `-o` or `-m` the run count stays at its default |
| CommandLine.ListIsSticky | stresssuite.py:325-326 | once `--list` is parsed, the flag stays set |
| CommandLine.ParseCommandLine | stresssuite.py:301-350 | a getopt error exits with status 2; otherwise the options are updated pair by pair until an option exits |
| CommandLine.Select | stresssuite.py:392-428 | defines `main`'s choice: list, else the named test, else the named suite, else every suite; `ListPrevails` and `TestnamePrevails` state it |
| CommandLine.ListPrevails | stresssuite.py:392-394 | `--list` anywhere prevails over every other selection |
| CommandLine.TestnamePrevails | stresssuite.py:258-260 | with no `--list`, the last `--testname`, when it names a test, selects that test, whatever `--testsuite` says and wherever it comes |
| Driver.Collection.constructor | stresssuite.py:55-57 | an empty collection, not in debug mode |
| Driver.Collection.SuiteNames | stresssuite.py:71-72 | the suites' names, in order |
| Driver.Collection.PairDisjoint | stresssuite.py:354-370 | two suites that hold no test twice and share none make a collection where every test sits at one place |
| Driver.Collection.FirstTestAtUnique | stresssuite.py:88-92 | at most one place is the first test of a name |
| Driver.Collection.AddSuite | stresssuite.py:60-62 | the suite goes at the end |
| Driver.Collection.FindSuiteByName | stresssuite.py:65-78 | the first suite of that name, None when there is none |
| Driver.Collection.FindTestByName | stresssuite.py:81-97 | the first test of that name, suites in order and tests in order; None when no suite has one |
| Driver.Collection.RunOneStressSuiteVary | stresssuite.py:100-112 | the tests of the first suite of that name have had `start_vary`; every other test is untouched |
| Driver.Collection.RunAllStressSuitesVary | stresssuite.py:115-119 | in a collection where every test sits at one place, every test has had `start_vary(nb_times)` |
| Driver.Collection.RunSuiteAt | stresssuite.py:118-119 | running suite `k` varies its tests and leaves the other suites' tests alone |
| Driver.Collection.OthersUntouched | stresssuite.py:118-119 | no test of another suite is in suite `k` |
| Driver.Collection.SetDebugMode | stresssuite.py:144-150 | the collection and every test get the flag; no test's state changes |
| Driver.InitAllTests | stresssuite.py:354-370 | the 'Files' suite then the 'CPU' suite are appended; for the collection as modelled, with a list per suite and tests built with `ProcessStress.Test`, every test sits at one place in a new collection |
| Driver.BuildSuites | stresssuite.py:362-365 | for the collection as modelled, with a list per suite, both suites are new, each holds no test twice, and they share no test |
| Driver.BuildFilesSuite | stresssuite.py:362-363 | the 'Files' suite, new, with two or three new tests |
| Driver.BuildCpuSuite | stresssuite.py:365 | the 'CPU' suite, new, with at most one new test |
| Driver.RunSelection | stresssuite.py:392-428 | `--list` exits with 0; otherwise `start_vary(runs)` on the first test named, else the first suite named, else every suite, and nothing else changes |
| Driver.RunProgram | stresssuite.py:374-435 | a getopt error exits with 2, an exiting option exits with its status, `--list` with 0; otherwise the program runs to the end |

## Left out

- Concurrency: processes, threads, pipes, the start event, the lock and `join` are not modelled. A round is the workers' reports, which are independent of one another. The thread variant's finishing order is a parameter.
- Time: `time.clock()` and `time.time()` are replaced by a clock oracle. Times are `real`s, not floats.
- Float formatting: `'%5.02f'`, `rjust`, `center` and other print layout are not modelled. A report is the sequence of values it prints.
- The filesystem: it is an oracle of failing calls. `clean_directory` is left out, since it swallows every error and returns its argument. File contents are modelled only as far as `write_to_the_file` goes.
- `make_buffer(buffer_size, False)`: the random buffer of `stresssuite/fss.py` is left out. That file only calls it with `zero` True.
- The `try/except` around `make_buffer`'s loop is left out: it cannot raise for an integer size.
- The base64/rot13 loop of `cpu_encode_stress_test` is left out: its output is discarded.
- Default workload functions (`default_init` and the rest) are left out. They only print, and every registration supplies its own.
- `getopt` itself is left out: its outcome is an input, either a failure or the `(opt, arg)` pairs.
- `usage` is modelled only as its exit status.
- The tests written `opt in ('--testname')` test for an occurrence of `opt` in the string. They are modelled as such for every option `getopt` can produce.
- Printing at suite and collection level is left out: `print_stats`, `save_in_gnuplot`, `print_stats_by_name`, `list_tests` and `list_all_suites`. These only call the per-test operations, which are modelled, or print.
- `main`'s calls to `print_stats()` and `save_in_gnuplot(path)` after a run are left out. They call the per-test operations, whose results are modelled.
- The root `stress.py`'s `Test` takes its functions positionally, but the registrations pass one tuple. The model builds every registered test with `ProcessStress.Test`, and the collection holds `ProcessStress.TestSuite`s. Two consequences for the program as written are not modelled:
  - the registrations in `fss.py:545-577` and `cpu_stress.py:209-211` bind the tuple to `init_func` and leave `context_list` at `None` (`stress.py:248-251`), so `start_once` fails with a `TypeError` at `len(self.context_list)` (`stress.py:339`) as soon as a test runs;
  - `stress.py`'s suites share one class-level list (see Findings), so 'Files' and 'CPU' hold the same tests: `--testsuite=CPU` runs the file tests too, and `run_all_stress_suites_vary` runs every test twice.
- Driver.InitAllTests and Driver.BuildSuites: "no test twice" and "no test shared" are stated for the collection as modelled, with a list per suite. They do not hold for the root `stress.py`'s shared list.
- Driver.RunSelection: the single test run by `--testname` reads the clock `clocks(0)(0)`. Its position in the collection is not used to choose a clock.
- Debug printing is left out everywhere.
- Gnuplot exports: a write is modelled as going through whole or raising before any of its line is written. Output buffering is not modelled, so neither a partial line nor a failing `close` or flush that loses buffered lines is. Both methods return None whatever happens, so only the file differs.
- ProcessStress.Test.SaveInGnuplotCumulative: the lines are formatted first and then written. The source interleaves the two, but formatting has no effect of its own, so the file is the same.
- ProcessStress.Test.StartOnce: `del self.process_times` leaves `process_times` empty rather than deleting the attribute.
- ThreadStress.Test.StartOnce: likewise, `del self.thread_times` leaves `thread_times` empty.
- Driver.Collection.RunAllStressSuitesVary: stated only for a collection where every test sits at one place. `InitAllTests` proves that this holds for the collection `main` builds.
- ProcessStress.TestSuite.RunTestSuiteOnce: the per-test result is stated only for a suite that holds no test twice. The filesystem and cpu suites are proved to hold none twice.
- ProcessStress.TestSuite.RunTestSuiteOnceVary: likewise, each test's varied state is stated only for a suite that holds no test twice. A test held twice would be varied twice.
- Driver.Collection.RunOneStressSuiteVary: the varied state of the named suite's tests is stated only for a suite that holds no test twice. That every test outside the suite is untouched is stated for every collection.
- Driver.RunSelection: the varied state of the tests run by `--testsuite` is stated only for a suite that holds no test twice. The result of running every suite is stated only for a collection where every test sits at one place. `InitAllTests` proves both for the collection `main` builds.

## Findings

| source | as written | input that shows it | evidently intended | confidence | as-written member | corrected member |
|---|---|---|---|---|---|---|
| stress.py:57-75 | `testlist = []` is a class attribute and `__init__` never sets `self.testlist`, so `add_test` appends to one list that every suite shares | build suites 'Files' and 'CPU', add 'Directories' to 'Files': 'CPU' lists and finds it | each suite has its own list, as `stresssuite/stress.py:66` sets | high (not executed) | ThreadStress.SharedListWitness | ThreadStress.SeparateListsWitness |
