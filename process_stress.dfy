/**
  The process variant of the engine (`stresssuite/stress.py`): one worker
  process per context, a `Test` that keeps the run history and the sticky
  result, a `TestSuite` of tests, and the statistics and gnuplot exports.
*/
module ProcessStress {
  import opened Wrappers
  import opened PyText
  import opened History
  import opened Rounds
  import opened Contract
  import opened Reports
  import opened Lookup

  /**
    `start_test`: init, the timed exec, final, and vary only when the vary
    flag and exec's flag are both true. The record holds exec's returned
    context, not the finalized or varied one.
  */
  function RunWorker<C>(w: Workload<C>, step: int, vary: bool, context: C, t: Timing): (r: WorkerReport<C>)
    ensures r.ok == w.exec(w.init(context)).0
    ensures r.record == Record(t.cpu, t.wall, w.exec(w.init(context)).1)
    ensures vary && r.ok ==> r.context == w.vary(step, w.final(r.record.context))
    ensures !(vary && r.ok) ==> r.context == w.final(r.record.context)
  {
    var started := w.init(context);
    var (ok, executed) := w.exec(started);
    var finished := w.final(executed);
    WorkerReport(Record(t.cpu, t.wall, executed), if vary && ok then w.vary(step, finished) else finished, ok)
  }

  /** The round runner's view of a worker process, the clocks read through `clock(round, index)`. */
  function ProcessWorker<C>(w: Workload<C>, step: int, clock: (nat, nat) -> Timing): Worker<C>
  {
    (round: nat, i: nat, vary: bool, c: C) => RunWorker(w, step, vary, c, clock(round, i))
  }

  /** The `plot` directive built by `save_in_gnuplot_normal`, one `'-'` entry per worker. */
  method PlotDirectiveLine(n: nat) returns (processStr: string)
    requires n >= 1
    ensures processStr == PlotDirective(n)
  {
    processStr := PlotHead;
    for i := 0 to n - 1
      invariant processStr == PlotDirective(i + 1)
    {
      processStr := processStr + PlotEntry(i + 1);
    }
  }

  /**
    The data part of `save_in_gnuplot_normal`: each worker's series of
    `m` points then `e`, stopping at the first 'vary' value that `'%d'`
    cannot format (`complete` false).
  */
  method WriteSeries<C>(inverse: seq<seq<Record<C>>>, describe: (string, C) -> Described, m: nat) returns (lines: seq<Line>, complete: bool)
    requires forall j :: 0 <= j < |inverse| ==> |inverse[j]| == m
    ensures (lines, complete) == Blocks(inverse, describe, |inverse|)
  {
    lines := [];
    for j := 0 to |inverse|
      invariant (lines, true) == Blocks(inverse, describe, j)
    {
      var series := inverse[j];
      ghost var before := lines;
      for i := 0 to m
        invariant Series(series, describe, i).1 && lines == before + Series(series, describe, i).0
      {
        var value := describe("vary", series[i].context);
        if !value.Number? {
          SeriesStuck(series, describe, i + 1, m);
          BlocksStuck(inverse, describe, j + 1, |inverse|);
          return lines, false;
        }
        lines := lines + [Point(value.n, series[i].wall)];
      }
      lines := lines + [EndOfData];
    }
    complete := true;
  }

  /**
    `gnuplot.write` of each line of `more` after the lines already in the
    file, in order; the first write that raises ends the writing (`ok` false)
    and the file keeps what came before it.
  */
  method WriteLines(before: seq<Line>, more: seq<Line>, failure: Option<nat>) returns (after: seq<Line>, ok: bool)
    requires failure.Some? ==> failure.value >= |before|
    ensures after == Written(before + more, failure)
    ensures before <= after
    ensures ok <==> after == before + more
  {
    after := before;
    for i := 0 to |more|
      invariant after == before + more[..i]
      invariant failure.Some? ==> failure.value >= |after|
    {
      if failure == Some(|after|) {
        assert (before + more)[..|after|] == after;
        return after, false;
      }
      after := after + [more[i]];
    }
    assert more[..|more|] == more;
    ok := true;
  }

  /** The inner loop of the cumulative statistics: the round's totals and the loop variable `context` after it. */
  method RoundTotals<C>(round: seq<Record<C>>, context: C) returns (cpuTotal: real, wallTotal: real, last: C)
    ensures cpuTotal == RoundCpu(round) && wallTotal == RoundWall(round)
    ensures last == if round == [] then context else round[|round| - 1].context
  {
    cpuTotal, wallTotal, last := 0.0, 0.0, context;
    for j := 0 to |round|
      invariant cpuTotal == RoundCpu(round[..j]) && wallTotal == RoundWall(round[..j])
      invariant last == if j == 0 then context else round[j - 1].context
    {
      RoundStep(round, j);
      cpuTotal := cpuTotal + round[j].cpu;
      wallTotal := wallTotal + round[j].wall;
      last := round[j].context;
    }
    assert round[..|round|] == round;
  }

  class Test<C> {
    const name: string
    const description: string
    const workload: Workload<C>
    const step: int
    var debug: bool
    var contextList: seq<C>
    var times: seq<seq<Record<C>>>
    var processTimes: seq<Record<C>>
    var result: bool
    var nbProcess: int

    function State(): TestState<C>
      reads this
    {
      TestState(contextList, times, result)
    }

    /** Every round of the history has one record per context. */
    ghost predicate Valid()
      reads this
    {
      WellFormed(State())
    }

    function Worker(clock: (nat, nat) -> Timing): Worker<C>
    {
      ProcessWorker(workload, step, clock)
    }

    /** The test as its constructor leaves it: these attributes and contexts, no round yet, the result True. */
    ghost predicate Registered(name: string, description: string, workload: Workload<C>, contexts: seq<C>,
                               step: int, debug: bool)
      reads this
    {
      && this.name == name && this.description == description && this.workload == workload
      && this.step == step && this.debug == debug
      && State() == TestState(contexts, [], true) && Valid()
    }

    constructor (name: string, description: string, workload: Workload<C>, contextList: seq<C>, step: int, debug: bool)
      ensures this.name == name && this.description == description
      ensures this.workload == workload && this.step == step && this.debug == debug
      ensures State() == TestState(contextList, [], true) && Valid()
      ensures processTimes == [] && nbProcess == 0
    {
      this.name := name;
      this.description := description;
      this.workload := workload;
      this.contextList := contextList;
      this.step := step;
      this.debug := debug;
      this.times := [];
      this.processTimes := [];
      this.result := true;
      this.nbProcess := 0;
    }

    /**
      `start_once(vary)`: a no-op once the result is False; otherwise one
      worker per context, then the reports are collected in worker-index
      order into `process_times`, `context_list[i]` and `result`, and the
      round is appended to `times`.
    */
    method StartOnce(vary: bool, clock: (nat, nat) -> Timing)
      modifies this
      ensures State() == Once(Worker(clock), old(State()), vary)
      ensures old(Valid()) ==> Valid()
      ensures debug == old(debug)
      ensures old(result) ==> nbProcess == |contextList| && processTimes == []
      ensures !old(result) ==> nbProcess == old(nbProcess) && processTimes == old(processTimes)
    {
      if result {
        processTimes := [];
        nbProcess := 0;
        var reports := SpawnWorkers(clock, vary);
        AwaitReadiness();
        CollectReports(reports);
        OnceFromReports(Worker(clock), old(State()), vary, contextList, processTimes, result);
        times := times + [processTimes];
        processTimes := [];
      }
    }

    /** Spawning: worker `i` is handed `context_list[i]` as it stands before any report. */
    method SpawnWorkers(clock: (nat, nat) -> Timing, vary: bool) returns (reports: seq<WorkerReport<C>>)
      ensures reports == RoundReports(Worker(clock), State(), vary)
    {
      var worker := Worker(clock);
      reports := [];
      for i := 0 to |contextList|
        invariant |reports| == i
        invariant forall k :: 0 <= k < i ==> reports[k] == worker(|times|, k, vary, contextList[k])
      {
        reports := reports + [worker(|times|, i, vary, contextList[i])];
      }
    }

    /** Readiness: every worker sends 1 once its init is done, and `nb_process` counts them. */
    method AwaitReadiness()
      requires nbProcess == 0
      modifies this`nbProcess
      ensures nbProcess == |contextList|
    {
      for i := 0 to |contextList|
        invariant nbProcess == i
      {
        nbProcess := nbProcess + 1;
      }
    }

    /**
      Collection, in worker-index order: each report's record goes to
      `process_times`, its context to its slot, its flag into `result`.
    */
    method CollectReports(reports: seq<WorkerReport<C>>)
      requires result && processTimes == [] && |reports| == |contextList|
      modifies this`processTimes, this`contextList, this`result
      ensures |processTimes| == |contextList| == |reports|
      ensures forall k :: 0 <= k < |reports| ==> processTimes[k] == reports[k].record && contextList[k] == reports[k].context
      ensures result <==> forall k :: 0 <= k < |reports| ==> reports[k].ok
    {
      var n := |reports|;
      var i := 0;
      while i < n
        invariant 0 <= i <= n && |contextList| == n
        invariant |processTimes| == i
        invariant forall k :: 0 <= k < i ==> processTimes[k] == reports[k].record && contextList[k] == reports[k].context
        invariant result <==> forall k :: 0 <= k < i ==> reports[k].ok
      {
        processTimes := processTimes + [reports[i].record];
        contextList := contextList[i := reports[i].context];
        result := result && reports[i].ok;
        i := i + 1;
      }
    }

    /**
      `start_vary(nb_times)`: rounds with vary=True except the last, which
      has vary=False; returns as soon as the result is False.
    */
    method StartVary(nbTimes: int, clock: (nat, nat) -> Timing)
      modifies this
      ensures State() == Vary(Worker(clock), old(State()), Count(nbTimes))
      ensures old(Valid()) ==> Valid()
      ensures debug == old(debug)
    {
      var n := Count(nbTimes);
      for i := 0 to n
        invariant VaryFrom(Worker(clock), State(), n, i) == Vary(Worker(clock), old(State()), n)
        invariant old(Valid()) ==> Valid()
        invariant debug == old(debug)
      {
        if result {
          if i == n - 1 {
            StartOnce(false, clock);
          } else {
            StartOnce(true, clock);
          }
        } else {
          return;
        }
      }
    }

    /**
      `print_normal_stats`: one row per record, numbered round.worker from
      1, while the sums accumulate; then the averages over
      `nb_tests * len(times[0])` samples.
    */
    method PrintNormalStats() returns (out: NormalStats)
      ensures out == NormalStatsOf(times, workload.describe)
    {
      var nbTests := |times|;
      if nbTests == 0 {
        return NormalNoTests;
      }
      var ts: seq<seq<Record<C>>> := times;
      var describe := workload.describe;
      var avgCpu := 0.0;
      var avgWall := 0.0;
      var rows: seq<NormalRow> := [];
      var nbProcess := |ts[0]|;
      for i := 0 to nbTests
        invariant avgCpu == TotalCpu(ts[..i]) && avgWall == TotalWall(ts[..i])
        invariant rows == NormalRows(ts[..i], describe)
      {
        avgCpu, avgWall, rows := AddRoundRows(avgCpu, avgWall, rows, i, ts[i], describe);
        TotalStep(ts, i);
        NormalRowsStep(ts, describe, i);
      }
      assert ts[..nbTests] == ts;
      if nbProcess == 0 {
        return NormalZeroDivision(rows);
      }
      var samples := (nbTests * nbProcess) as real;
      out := NormalReport(rows, avgCpu / samples, avgWall / samples, nbTests, nbProcess);
    }

    /** The inner loop of `print_normal_stats`: round `i`'s rows, its times added to the sums. */
    static method AddRoundRows(cpu: real, wall: real, rows: seq<NormalRow>, i: nat, round: seq<Record<C>>,
                               describe: (string, C) -> Described)
      returns (cpu': real, wall': real, rows': seq<NormalRow>)
      ensures cpu' == cpu + RoundCpu(round) && wall' == wall + RoundWall(round)
      ensures rows' == rows + RoundRows(i + 1, round, describe)
    {
      cpu', wall', rows' := cpu, wall, rows;
      for j := 0 to |round|
        invariant cpu' == cpu + RoundCpu(round[..j])
        invariant wall' == wall + RoundWall(round[..j])
        invariant rows' == rows + RoundRows(i + 1, round, describe)[..j]
      {
        RoundStep(round, j);
        var record := round[j];
        cpu' := cpu' + record.cpu;
        wall' := wall' + record.wall;
        RoundRowsStep(i + 1, round, describe, j);
        rows' := rows' + [NormalRow(i + 1, j + 1, record.cpu, record.wall, describe("print", record.context))];
      }
      assert round[..|round|] == round;
    }

    /**
      `print_cumulative_stats`: per round the sums of its records, and the
      'vary' value of the loop variable `context`, which is still unbound
      when the first round has no record.
    */
    method PrintCumulativeStats() returns (out: CumulativeStats)
      ensures out == CumulativeStatsOf(times, workload.describe)
    {
      var nbTests := |times|;
      if nbTests == 0 {
        return CumulativeNoTests;
      }
      var describe := workload.describe;
      var nbProcess := |times[0]|;
      var context: Option<C> := None;
      var rows: seq<CumulativeRow> := [];
      for i := 0 to nbTests
        invariant i == 0 <==> context.None?
        invariant i == 0 ==> rows == []
        invariant i > 0 ==> |times[0]| > 0
        invariant i > 0 ==> (rows, context.value) == CumulativePrefix(times, describe, i, times[0][0].context)
      {
        var round := times[i];
        ghost var entry := context;
        var cpuTotal, wallTotal;
        cpuTotal, wallTotal, context := SumRound(round, context);
        if context.None? {
          return CumulativeNoContext;
        }
        ghost var start := times[0][0].context;
        ghost var prev := CumulativePrefix(times, describe, i, start);
        assert i > 0 ==> prev.1 == entry.value;
        assert CumulativePrefix(times, describe, i + 1, start) ==
          (prev.0 + [CumulativeRow(i + 1, RoundCpu(round), RoundWall(round), nbProcess, describe("vary", context.value))], context.value);
        rows := rows + [CumulativeRow(i + 1, cpuTotal, wallTotal, nbProcess, describe("vary", context.value))];
      }
      out := CumulativeReport(rows);
    }

    /**
      The inner loop of `print_cumulative_stats`: the round's totals, and
      the loop variable `context` bound to its last record's context, or
      left as it was when the round is empty.
    */
    static method SumRound(round: seq<Record<C>>, context: Option<C>) returns (cpu: real, wall: real, context': Option<C>)
      ensures cpu == RoundCpu(round) && wall == RoundWall(round)
      ensures context' == if round == [] then context else Some(round[|round| - 1].context)
    {
      cpu, wall, context' := 0.0, 0.0, context;
      for j := 0 to |round|
        invariant cpu == RoundCpu(round[..j]) && wall == RoundWall(round[..j])
        invariant context' == if j == 0 then context else Some(round[j - 1].context)
      {
        RoundStep(round, j);
        cpu := cpu + round[j].cpu;
        wall := wall + round[j].wall;
        context' := Some(round[j].context);
      }
      assert round[..|round|] == round;
    }

    /** `print_stats(stats)`: the normal report when `stats == 1`, the cumulative one otherwise. */
    method PrintStats(stats: int) returns (out: Stats)
      ensures out == StatsOf(stats, times, workload.describe)
    {
      if stats == 1 {
        var normal := PrintNormalStats();
        out := Normal(normal);
      } else {
        var cumulative := PrintCumulativeStats();
        out := Cumulative(cumulative);
      }
    }

    /**
      `save_in_gnuplot_normal(path)`. Building the `inverse` table, which
      happens once the five header lines are written, leaves `process_times`
      holding the last round.
    */
    method SaveInGnuplotNormal(path: string, env: ExportEnv) returns (out: Export)
      requires Valid()
      modifies this`processTimes
      ensures Valid()
      ensures out == GnuplotNormal(name, times, workload.describe, path, env)
      ensures processTimes == if out.File? && |out.lines| >= 5 then times[|times| - 1] else old(processTimes)
    {
      if !env.pathExists && !env.canMakePath {
        return NoFile;
      }
      if !env.canOpen {
        return NoFile;
      }
      var lines := WriteNormal(env.writeFailure);
      out := File(FileName(path, name), false, lines);
    }

    /**
      The writes of `save_in_gnuplot_normal` once the file is open, up to the
      first that raises; the `inverse` table is built only once the five
      header lines are in the file.
    */
    method WriteNormal(failure: Option<nat>) returns (lines: seq<Line>)
      requires Valid()
      modifies this`processTimes
      ensures Valid()
      ensures lines == Written(NormalLines(name, times, workload.describe), failure)
      ensures processTimes == if |lines| >= 5 then times[|times| - 1] else old(processTimes)
    {
      ghost var attempted := NormalLines(name, times, workload.describe);
      var ok;
      lines, ok := WriteLines([], [Directive(TerminalLine)], failure);
      if !ok || |times| == 0 || |times[0]| == 0 {
        // With an empty first round, times[0][0] raises IndexError: the file keeps the terminal line.
        if !ok {
          assert attempted == [Directive(TerminalLine)] + attempted[1..];
          WrittenStops([Directive(TerminalLine)], attempted[1..], failure);
        }
        return;
      }
      var n := |times[0]|;
      var header := NormalHeader(n);
      ghost var head := lines + header;
      assert attempted == head + attempted[5..];
      lines, ok := WriteLines(lines, header, failure);
      if !ok {
        WrittenStops(head, attempted[5..], failure);
        return;
      }
      lines := WriteData(n, lines, failure);
    }

    /**
      The data part of `save_in_gnuplot_normal`, once the header lines are
      in the file: the `inverse` table is built, then each worker's series is
      written until a write raises.
    */
    method WriteData(n: nat, before: seq<Line>, failure: Option<nat>) returns (after: seq<Line>)
      requires Valid() && |times| > 0 && n == |times[0]| && n > 0
      requires failure.Some? ==> failure.value >= |before|
      modifies this`processTimes
      ensures Valid()
      ensures after == Written(before + Blocks(Columns(times, n), workload.describe, n).0, failure)
      ensures before <= after
      ensures processTimes == times[|times| - 1]
    {
      var inverse := Invert(n);
      var data, complete := WriteSeries(inverse, workload.describe, |times|);
      var ok;
      after, ok := WriteLines(before, data, failure);
    }

    /** The four header lines of `save_in_gnuplot_normal`: title, axis labels, and the `plot` directive. */
    method NormalHeader(n: nat) returns (header: seq<Line>)
      requires |times| > 0 && n == |times[0]| && n > 0
      ensures header == Header(name, times, workload.describe)
    {
      var context := times[0][0].context;
      var processStr := PlotDirectiveLine(n);
      header := [Directive(TitleLine(name, n)), Directive(YLabelLine), Directive(XLabelLine(workload.describe("config", context))), Directive(processStr)];
    }

    /**
      The `inverse` table of `save_in_gnuplot_normal`: worker `j`'s record
      of each round, in round order; each round passes through `process_times`.
    */
    method Invert(n: nat) returns (inverse: seq<seq<Record<C>>>)
      requires Uniform(times, n) && |times| > 0
      modifies this`processTimes
      ensures inverse == Columns(times, n)
      ensures processTimes == times[|times| - 1]
    {
      inverse := seq(n, _ => []);
      var ts := times;
      for i := 0 to |ts|
        invariant |inverse| == n
        invariant i > 0 ==> processTimes == ts[i - 1]
        invariant forall j :: 0 <= j < n ==> inverse[j] == Column(ts[..i], j)
      {
        processTimes := ts[i];
        var width := |processTimes|;
        for j := 0 to width
          invariant |inverse| == n && processTimes == ts[i] && width == n
          invariant forall k :: 0 <= k < j ==> inverse[k] == Column(ts[..i + 1], k)
          invariant forall k :: j <= k < n ==> inverse[k] == Column(ts[..i], k)
        {
          assert Column(ts[..i + 1], j) == Column(ts[..i], j) + [processTimes[j]];
          inverse := inverse[j := inverse[j] + [processTimes[j]]];
        }
      }
      assert ts[..|ts|] == ts;
    }

    /** `save_in_gnuplot_cumulative(path)`: the file is opened for appending and the directory is never created. */
    method SaveInGnuplotCumulative(path: string, env: ExportEnv) returns (out: Export)
      ensures out == GnuplotCumulative(name, times, workload.describe, path, env)
    {
      if !env.pathExists {
        return NoFile;
      }
      if !env.canOpen {
        return NoFile;
      }
      var attempted := CumulativeData();
      var written, _ := WriteLines([], attempted, env.writeFailure);
      out := File(FileName(path, name), true, written);
    }

    /**
      The lines the loop of `save_in_gnuplot_cumulative` formats, one per
      round, then `e`; formatting stops at the first 'vary' value that `'%d'`
      cannot format.
    */
    method CumulativeData() returns (attempted: seq<Line>)
      ensures attempted == CumulativeLines(times, workload.describe)
    {
      var describe := workload.describe;
      var ts: seq<seq<Record<C>>> := times;
      var nbTests := |ts|;
      if nbTests == 0 || |ts[0]| == 0 {
        return [];
      }
      ghost var start := ts[0][0].context;
      ghost var rows := CumulativePrefix(ts, describe, nbTests, start).0;
      var context := ts[0][0].context;
      var lines: seq<Line> := [];
      for i := 0 to nbTests
        invariant (lines, true) == TripleLines(CumulativePrefix(ts, describe, i, start).0)
        invariant context == CumulativePrefix(ts, describe, i, start).1
      {
        var cpuTotal, wallTotal, last := RoundTotals(ts[i], context);
        CumulativePrefixStep(ts, describe, i, start);
        context := last;
        var value := describe("vary", context);
        TripleLinesSnoc(CumulativePrefix(ts, describe, i, start).0, CumulativeRow(i + 1, cpuTotal, wallTotal, |ts[0]|, value));
        if !value.Number? {
          CumulativePrefixIsPrefix(ts, describe, i + 1, nbTests, start);
          TripleLinesStuck(rows, i + 1);
          return lines;
        }
        lines := lines + [Triple(value.n, cpuTotal, wallTotal)];
      }
      attempted := lines + [EndOfData];
    }

    /** `save_in_gnuplot(path, stats)`: the normal export when `stats == 1`, the cumulative one otherwise. */
    method SaveInGnuplot(path: string, stats: int, env: ExportEnv) returns (out: Export)
      requires Valid()
      modifies this`processTimes
      ensures Valid()
      ensures out == GnuplotOf(stats, name, times, workload.describe, path, env)
    {
      if stats == 1 {
        out := SaveInGnuplotNormal(path, env);
      } else {
        out := SaveInGnuplotCumulative(path, env);
      }
    }
  }

  /** What `run_test_vary_by_name` does: run the first test of that name, or, with none, read `self.debug`, which a suite does not have. */
  datatype ByName = Started(index: nat) | MissingDebugAttribute

  /** `TestSuite`: a named, ordered list of tests, its own list per suite. */
  class TestSuite<C> {
    const name: string
    const description: string
    var testlist: seq<Test<C>>

    /** The suite holds no test twice, so running one test leaves the others alone. */
    ghost predicate Distinct()
      reads this
    {
      forall i, j :: 0 <= i < j < |testlist| ==> testlist[i] != testlist[j]
    }

    function Names(): (names: seq<string>)
      reads this
      ensures |names| == |testlist| && forall k :: 0 <= k < |testlist| ==> names[k] == testlist[k].name
    {
      seq(|testlist|, k requires 0 <= k < |testlist| reads this => testlist[k].name)
    }

    constructor (name: string, description: string)
      ensures this.name == name && this.description == description && testlist == []
    {
      this.name := name;
      this.description := description;
      testlist := [];
    }

    /** `add_test`: the test goes at the end of the list. */
    method AddTest(test: Test<C>)
      modifies this
      ensures testlist == old(testlist) + [test]
    {
      testlist := testlist + [test];
    }

    /** `find_test_by_name`: the first test with that name, None when there is none. */
    method FindTestByName(name: string) returns (found: Option<Test<C>>)
      ensures found.None? <==> forall k :: 0 <= k < |testlist| ==> testlist[k].name != name
      ensures found.Some? ==> exists k :: (0 <= k < |testlist| && found.value == testlist[k] && testlist[k].name == name
        && forall j :: 0 <= j < k ==> testlist[j].name != name)
      ensures found == match FirstIndexOf(Names(), name) case None => None case Some(k) => Some(testlist[k])
    {
      for k := 0 to |testlist|
        invariant forall j :: 0 <= j < k ==> testlist[j].name != name
        invariant name !in Names()[..k]
      {
        if testlist[k].name == name {
          assert Names()[..k] == Names()[..k];
          return Some(testlist[k]);
        }
      }
      assert Names()[..|testlist|] == Names();
      return None;
    }

    /** `run_test_suite_once`: one round of each test, in list order. */
    method RunTestSuiteOnce(clocks: nat -> ((nat, nat) -> Timing))
      modifies testlist
      ensures Distinct() ==> forall k :: 0 <= k < |testlist| ==>
        testlist[k].State() == Once(testlist[k].Worker(clocks(k)), old(testlist[k].State()), false)
    {
      for k := 0 to |testlist|
        invariant Distinct() ==> forall j :: 0 <= j < k ==>
          testlist[j].State() == Once(testlist[j].Worker(clocks(j)), old(testlist[j].State()), false)
        invariant Distinct() ==> forall j :: k <= j < |testlist| ==> testlist[j].State() == old(testlist[j].State())
      {
        var t := testlist[k];
        t.StartOnce(false, clocks(k));
        assert Distinct() ==> forall j :: 0 <= j < |testlist| && j != k ==> testlist[j] != t;
      }
    }

    /** `run_test_suite_once_vary(nb_times)`: `start_vary(nb_times)` on each test, in list order. */
    method RunTestSuiteOnceVary(nbTimes: int, clocks: nat -> ((nat, nat) -> Timing))
      modifies testlist
      ensures Distinct() ==> forall k :: 0 <= k < |testlist| ==>
        testlist[k].State() == Vary(testlist[k].Worker(clocks(k)), old(testlist[k].State()), Count(nbTimes))
      ensures forall k :: 0 <= k < |testlist| ==> old(testlist[k].Valid()) ==> testlist[k].Valid()
    {
      for k := 0 to |testlist|
        invariant Distinct() ==> forall j :: 0 <= j < k ==>
          testlist[j].State() == Vary(testlist[j].Worker(clocks(j)), old(testlist[j].State()), Count(nbTimes))
        invariant Distinct() ==> forall j :: k <= j < |testlist| ==> testlist[j].State() == old(testlist[j].State())
        invariant forall j :: 0 <= j < |testlist| ==> old(testlist[j].Valid()) ==> testlist[j].Valid()
      {
        var t := testlist[k];
        t.StartVary(nbTimes, clocks(k));
        assert Distinct() ==> forall j :: 0 <= j < |testlist| && j != k ==> testlist[j] != t;
      }
    }

    /** `set_debug_mode(debug)`: every test gets the flag, and nothing else changes. */
    method SetDebugMode(debug: bool)
      modifies testlist
      ensures forall k :: 0 <= k < |testlist| ==> testlist[k].debug == debug
      ensures forall k :: 0 <= k < |testlist| ==> testlist[k].State() == old(testlist[k].State())
    {
      for k := 0 to |testlist|
        invariant forall j :: 0 <= j < k ==> testlist[j].debug == debug
        invariant forall j :: 0 <= j < |testlist| ==> testlist[j].State() == old(testlist[j].State())
      {
        testlist[k].debug := debug;
      }
    }

    /**
      `run_test_vary_by_name(name, nb_times)`: `start_vary` on the first
      test of that name; with no such test the `elif self.debug` branch
      reads an attribute no suite has, an AttributeError.
    */
    method RunTestVaryByName(name: string, clock: (nat, nat) -> Timing, nbTimes: int := 1) returns (outcome: ByName)
      modifies testlist
      ensures outcome.MissingDebugAttribute? <==> name !in Names()
      ensures outcome.Started? ==> FirstIndexOf(Names(), name) == Some(outcome.index)
      ensures outcome.Started? ==> var t := testlist[outcome.index];
        t.State() == Vary(t.Worker(clock), old(t.State()), Count(nbTimes))
      ensures forall k :: 0 <= k < |testlist| && (outcome.Started? ==> testlist[k] != testlist[outcome.index]) ==>
        testlist[k].State() == old(testlist[k].State())
    {
      var found := FindTestByName(name);
      match FirstIndexOf(Names(), name)
      case None =>
        outcome := MissingDebugAttribute;
      case Some(k) =>
        testlist[k].StartVary(nbTimes, clock);
        outcome := Started(k);
    }
  }
}
