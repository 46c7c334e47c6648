/**
  What a test reports about its history: the two statistics modes of
  `print_stats` and the two gnuplot files of `save_in_gnuplot`, as values.
*/
module Reports {
  import opened Wrappers
  import opened PyText
  import opened History
  import opened Contract

  /** One line of `print_normal_stats`: round and worker numbered from 1, the times, the 'print' summary. */
  datatype NormalRow = NormalRow(round: nat, worker: nat, cpu: real, wall: real, summary: Described)

  /**
    What `print_normal_stats` reports: nothing ran; the rows followed by a
    division by zero (rounds without workers); or the rows and the averages
    over `nb_tests` rounds of `nb_process` workers.
  */
  datatype NormalStats =
    | NormalNoTests
    | NormalZeroDivision(rows: seq<NormalRow>)
    | NormalReport(rows: seq<NormalRow>, avgCpu: real, avgWall: real, nbTests: nat, nbProcess: nat)

  function RoundRows<C>(i: nat, round: seq<Record<C>>, describe: (string, C) -> Described): (rows: seq<NormalRow>)
    ensures |rows| == |round|
    ensures forall j :: 0 <= j < |round| ==>
      rows[j] == NormalRow(i, j + 1, round[j].cpu, round[j].wall, describe("print", round[j].context))
  {
    seq(|round|, j requires 0 <= j < |round| =>
      NormalRow(i, j + 1, round[j].cpu, round[j].wall, describe("print", round[j].context)))
  }

  function NormalRows<C>(times: seq<seq<Record<C>>>, describe: (string, C) -> Described): seq<NormalRow>
  {
    if times == [] then []
    else NormalRows(times[..|times| - 1], describe) + RoundRows(|times|, times[|times| - 1], describe)
  }

  lemma RoundRowsStep<C>(i: nat, round: seq<Record<C>>, describe: (string, C) -> Described, j: nat)
    requires j < |round|
    ensures RoundRows(i, round, describe)[..j + 1] ==
      RoundRows(i, round, describe)[..j] + [NormalRow(i, j + 1, round[j].cpu, round[j].wall, describe("print", round[j].context))]
  {
  }

  lemma NormalRowsStep<C>(times: seq<seq<Record<C>>>, describe: (string, C) -> Described, i: nat)
    requires i < |times|
    ensures NormalRows(times[..i + 1], describe) == NormalRows(times[..i], describe) + RoundRows(i + 1, times[i], describe)
  {
    assert times[..i + 1][..i] == times[..i];
  }

  function NormalStatsOf<C>(times: seq<seq<Record<C>>>, describe: (string, C) -> Described): NormalStats
  {
    if |times| == 0 then NormalNoTests
    else if |times[0]| == 0 then NormalZeroDivision(NormalRows(times, describe))
    else
      var samples := (|times| * |times[0]|) as real;
      NormalReport(NormalRows(times, describe), TotalCpu(times) / samples, TotalWall(times) / samples, |times|, |times[0]|)
  }

  /** One line of `print_cumulative_stats`: round number, totals, worker count, the 'vary' value. */
  datatype CumulativeRow = CumulativeRow(round: nat, cpuTotal: real, wallTotal: real, nbProcess: nat, vary: Described)

  /**
    What `print_cumulative_stats` reports: nothing ran; a first round without
    workers (its loop never binds `context`, a NameError); or one row per round.
  */
  datatype CumulativeStats =
    | CumulativeNoTests
    | CumulativeNoContext
    | CumulativeReport(rows: seq<CumulativeRow>)

  /**
    The rows for rounds `[0, i)` and the value of the loop variable
    `context` after them: the last record's context of the latest round
    that had one.
  */
  function CumulativePrefix<C>(times: seq<seq<Record<C>>>, describe: (string, C) -> Described, i: nat, start: C): (r: (seq<CumulativeRow>, C))
    requires i <= |times|
    ensures |r.0| == i
  {
    if i == 0 then ([], start)
    else
      var (rows, context) := CumulativePrefix(times, describe, i - 1, start);
      var round := times[i - 1];
      var context' := if round == [] then context else round[|round| - 1].context;
      (rows + [CumulativeRow(i, RoundCpu(round), RoundWall(round), |times[0]|, describe("vary", context'))], context')
  }

  function CumulativeStatsOf<C>(times: seq<seq<Record<C>>>, describe: (string, C) -> Described): CumulativeStats
  {
    if |times| == 0 then CumulativeNoTests
    else if |times[0]| == 0 then CumulativeNoContext
    else CumulativeReport(CumulativePrefix(times, describe, |times|, times[0][0].context).0)
  }

  lemma {:induction false} NormalRowsMatchFlatten<C>(times: seq<seq<Record<C>>>, describe: (string, C) -> Described)
    ensures |NormalRows(times, describe)| == |Flatten(times)|
    ensures forall p :: 0 <= p < |Flatten(times)| ==>
      NormalRows(times, describe)[p].cpu == Flatten(times)[p].cpu &&
      NormalRows(times, describe)[p].wall == Flatten(times)[p].wall &&
      NormalRows(times, describe)[p].summary == describe("print", Flatten(times)[p].context)
    decreases |times|
  {
    if times != [] {
      NormalRowsMatchFlatten(times[..|times| - 1], describe);
    }
  }

  /**
    The per-worker report has one row per record, the row for worker `k`
    of round `i` carries that record's times and 'print' summary, and the
    averages are the grand totals over `nb_tests * nb_process` samples.
  */
  lemma NormalStatsShape<C>(times: seq<seq<Record<C>>>, describe: (string, C) -> Described, n: nat, i: nat, k: nat)
    requires Uniform(times, n) && |times| > 0 && n > 0 && i < |times| && k < n
    ensures var r := NormalStatsOf(times, describe);
      && r.NormalReport?
      && r.nbTests == |times| && r.nbProcess == n
      && |r.rows| == |times| * n && i * n + k < |r.rows|
      && r.rows[i * n + k] == NormalRow(i + 1, k + 1, times[i][k].cpu, times[i][k].wall, describe("print", times[i][k].context))
      && r.avgCpu == TotalCpu(times) / ((|times| * n) as real)
      && r.avgWall == TotalWall(times) / ((|times| * n) as real)
  {
    NormalStatsAverages(times, describe, n);
    NormalStatsRow(times, describe, n, i, k);
  }

  /** The per-worker report's rows, counts and averages when every round has `n > 0` records. */
  lemma NormalStatsAverages<C>(times: seq<seq<Record<C>>>, describe: (string, C) -> Described, n: nat)
    requires Uniform(times, n) && |times| > 0 && n > 0
    ensures var r := NormalStatsOf(times, describe);
      && r.NormalReport? && r.rows == NormalRows(times, describe)
      && r.nbTests == |times| && r.nbProcess == n
      && r.avgCpu == TotalCpu(times) / ((|times| * n) as real)
      && r.avgWall == TotalWall(times) / ((|times| * n) as real)
  {
    assert |times[0]| == n;
  }

  /** The row of worker `k` in round `i` of the per-worker report. */
  lemma NormalStatsRow<C>(times: seq<seq<Record<C>>>, describe: (string, C) -> Described, n: nat, i: nat, k: nat)
    requires Uniform(times, n) && i < |times| && k < n
    ensures |NormalRows(times, describe)| == |times| * n && i * n + k < |NormalRows(times, describe)|
    ensures NormalRows(times, describe)[i * n + k] ==
      NormalRow(i + 1, k + 1, times[i][k].cpu, times[i][k].wall, describe("print", times[i][k].context))
  {
    var rows := NormalRows(times, describe);
    var flat := Flatten(times);
    var p := i * n + k;
    NormalRowsMatchFlatten(times, describe);
    FlattenLength(times, n);
    FlattenIndex(times, n, i, k);
    NormalRowsIndex(times, describe, n, i, k);
    assert rows[p] == NormalRow(i + 1, k + 1, flat[p].cpu, flat[p].wall, describe("print", flat[p].context));
  }

  lemma {:induction false} NormalRowsIndex<C>(times: seq<seq<Record<C>>>, describe: (string, C) -> Described, n: nat, i: nat, k: nat)
    requires Uniform(times, n) && i < |times| && k < n
    ensures i * n + k < |NormalRows(times, describe)|
    ensures NormalRows(times, describe)[i * n + k].round == i + 1
    ensures NormalRows(times, describe)[i * n + k].worker == k + 1
    decreases |times|
  {
    var init := times[..|times| - 1];
    NormalRowsMatchFlatten(init, describe);
    NormalRowsMatchFlatten(times, describe);
    FlattenLength(init, n);
    FlattenLength(times, n);
    if i < |times| - 1 {
      NormalRowsIndex(init, describe, n, i, k);
      assert i * n + k < (|times| - 1) * n by {
        assert (i + 1) * n <= (|times| - 1) * n;
      }
    } else {
      assert i * n == |NormalRows(init, describe)|;
    }
  }

  lemma {:induction false} CumulativePrefixRows<C>(times: seq<seq<Record<C>>>, describe: (string, C) -> Described, i: nat, start: C)
    requires i <= |times|
    ensures forall k :: 0 <= k < i ==>
      CumulativePrefix(times, describe, i, start).0[k].round == k + 1 &&
      CumulativePrefix(times, describe, i, start).0[k].cpuTotal == RoundCpu(times[k]) &&
      CumulativePrefix(times, describe, i, start).0[k].wallTotal == RoundWall(times[k]) &&
      CumulativePrefix(times, describe, i, start).0[k].nbProcess == |times[0]|
    ensures 0 < i && times[i - 1] != [] ==>
      CumulativePrefix(times, describe, i, start).1 == times[i - 1][|times[i - 1]| - 1].context
    decreases i
  {
    if i > 0 {
      CumulativePrefixRows(times, describe, i - 1, start);
    }
  }

  /**
    The cumulative report has one row per round whose totals are that
    round's sums, its 'vary' value describes the round's last record, and
    the totals over all rows equal the sums over every per-worker sample.
  */
  lemma CumulativeStatsShape<C>(times: seq<seq<Record<C>>>, describe: (string, C) -> Described, n: nat)
    requires Uniform(times, n) && |times| > 0 && n > 0
    ensures var r := CumulativeStatsOf(times, describe);
      && r.CumulativeReport?
      && |r.rows| == |times|
      && (forall i :: 0 <= i < |times| ==>
            r.rows[i] == CumulativeRow(i + 1, RoundCpu(times[i]), RoundWall(times[i]), n, describe("vary", times[i][n - 1].context)))
      && Sum(seq(|r.rows|, i requires 0 <= i < |r.rows| => r.rows[i].cpuTotal)) == TotalCpu(times)
      && Sum(seq(|r.rows|, i requires 0 <= i < |r.rows| => r.rows[i].wallTotal)) == TotalWall(times)
  {
    var start := times[0][0].context;
    var rows := CumulativePrefix(times, describe, |times|, start).0;
    CumulativePrefixRows(times, describe, |times|, start);
    forall i | 0 <= i < |times|
      ensures rows[i] == CumulativeRow(i + 1, RoundCpu(times[i]), RoundWall(times[i]), n, describe("vary", times[i][n - 1].context))
    {
      CumulativePrefixRows(times, describe, i + 1, start);
      assert CumulativePrefix(times, describe, |times|, start).0[..i + 1] == CumulativePrefix(times, describe, i + 1, start).0 by {
        CumulativePrefixIsPrefix(times, describe, i + 1, |times|, start);
      }
    }
    assert seq(|rows|, i requires 0 <= i < |rows| => rows[i].cpuTotal) == CpuColumn(times);
    assert seq(|rows|, i requires 0 <= i < |rows| => rows[i].wallTotal) == WallColumn(times);
    CumulativeMatchesTotal(times);
  }

  lemma {:induction false} CumulativePrefixIsPrefix<C>(times: seq<seq<Record<C>>>, describe: (string, C) -> Described, i: nat, j: nat, start: C)
    requires i <= j <= |times|
    ensures CumulativePrefix(times, describe, j, start).0[..i] == CumulativePrefix(times, describe, i, start).0
    decreases j
  {
    if i < j {
      CumulativePrefixIsPrefix(times, describe, i, j - 1, start);
    }
  }

  datatype Stats = Normal(normal: NormalStats) | Cumulative(cumulative: CumulativeStats)

  function StatsOf<C>(stats: int, times: seq<seq<Record<C>>>, describe: (string, C) -> Described): Stats
  {
    if stats == 1 then Normal(NormalStatsOf(times, describe)) else Cumulative(CumulativeStatsOf(times, describe))
  }

  /** One line of a gnuplot file: a directive, `'%d %f'` (normal) or `'%d %f %f'` (cumulative). */
  datatype Line = Directive(s: string) | Point(x: int, y: real) | Triple(x: int, cpu: real, wall: real)

  /** The outcome of an export: no file, or the file created (`'w'`) or appended to (`'a+'`) and the lines written. */
  datatype Export = NoFile | File(name: string, append: bool, lines: seq<Line>)

  /**
    What the filesystem answers: the directory exists, `os.makedirs`
    succeeds, `open` succeeds, and which `gnuplot.write` of the call, if
    any, is the first to raise (counted from 0).
  */
  datatype ExportEnv = ExportEnv(pathExists: bool, canMakePath: bool, canOpen: bool, writeFailure: Option<nat>)

  /**
    The lines that reach the file when `attempted` is written line by line:
    a write that raises ends the `try`, and the file keeps what came before.
  */
  function Written(attempted: seq<Line>, failure: Option<nat>): (r: seq<Line>)
    ensures r <= attempted
    ensures |r| == |attempted| <==> failure.None? || failure.value >= |attempted|
    ensures |r| < |attempted| ==> |r| == failure.value
  {
    match failure
    case None => attempted
    case Some(k) => if k < |attempted| then attempted[..k] else attempted
  }

  function FileName(path: string, name: string): string
  {
    path + "/" + name + ".p"
  }

  const TerminalLine := "set terminal png transparent nocrop enhanced small size 1280,960"
  const YLabelLine := "set ylabel \"time (in s)\""
  const PlotHead := "plot '-' title \"Process 0\" with lines"
  const EndOfData := Directive("e")

  function TitleLine(name: string, nbProcess: nat): string
  {
    "set title \"Results for test " + name + " (" + NatToString(nbProcess) + " processes)\""
  }

  function XLabelLine(config: Described): string
  {
    "set xlabel \"" + Str(config) + "\""
  }

  function PlotEntry(k: nat): string
  {
    ", '-' title \"Process " + NatToString(k) + "\" with lines"
  }

  /** The `plot` directive for `n` data series, numbered from 0. */
  function PlotDirective(n: nat): (s: string)
    requires n >= 1
    ensures |s| >= |PlotHead| && s[..|PlotHead|] == PlotHead
  {
    if n == 1 then PlotHead else PlotDirective(n - 1) + PlotEntry(n - 1)
  }

  /**
    The data lines of one worker for its first `m` rounds: `'%d' % vary`
    fails on anything but an integer, so the series stops at the first
    record whose 'vary' value is not a number, with `ok` false.
  */
  function Series<C>(col: seq<Record<C>>, describe: (string, C) -> Described, m: nat): (r: (seq<Line>, bool))
    requires m <= |col|
    ensures |r.0| <= m
  {
    if m == 0 then ([], true)
    else
      var (lines, ok) := Series(col, describe, m - 1);
      if !ok then (lines, false)
      else match describe("vary", col[m - 1].context)
        case Number(x) => (lines + [Point(x, col[m - 1].wall)], true)
        case _ => (lines, false)
  }

  /** The series of the first `w` workers, each closed by `e`, up to the first failing one. */
  function Blocks<C>(cols: seq<seq<Record<C>>>, describe: (string, C) -> Described, w: nat): (r: (seq<Line>, bool))
    requires w <= |cols|
  {
    if w == 0 then ([], true)
    else
      var (lines, ok) := Blocks(cols, describe, w - 1);
      if !ok then (lines, false)
      else
        var (series, complete) := Series(cols[w - 1], describe, |cols[w - 1]|);
        if complete then (lines + series + [EndOfData], true) else (lines + series, false)
  }

  /** Worker `j`'s records across rounds, for every worker: the `inverse` table. */
  function Columns<C>(times: seq<seq<Record<C>>>, n: nat): (cols: seq<seq<Record<C>>>)
    requires Uniform(times, n)
    ensures |cols| == n && forall j :: 0 <= j < n ==> cols[j] == Column(times, j)
  {
    seq(n, j requires 0 <= j < n => Column(times, j))
  }

  /** The directives written before the data when some round has a record. */
  function Header<C>(name: string, times: seq<seq<Record<C>>>, describe: (string, C) -> Described): seq<Line>
    requires |times| > 0 && |times[0]| > 0
  {
    [Directive(TitleLine(name, |times[0]|)), Directive(YLabelLine),
     Directive(XLabelLine(describe("config", times[0][0].context))), Directive(PlotDirective(|times[0]|))]
  }

  /**
    `save_in_gnuplot_normal(path)`: no file when the directory is missing
    and cannot be made, or the file cannot be opened; otherwise the
    terminal line, and, when the first round has a record, the header and
    the per-worker series of wall-clock times. With no history or an empty
    first round the file holds the terminal line alone. A write that raises
    leaves the file with the lines before it.
  */
  function GnuplotNormal<C>(name: string, times: seq<seq<Record<C>>>, describe: (string, C) -> Described, path: string, env: ExportEnv): Export
    requires |times| > 0 ==> Uniform(times, |times[0]|)
  {
    if !env.pathExists && !env.canMakePath then NoFile
    else if !env.canOpen then NoFile
    else File(FileName(path, name), false, Written(NormalLines(name, times, describe), env.writeFailure))
  }

  /** Once a write has raised, nothing written after it reaches the file. */
  lemma WrittenStops(a: seq<Line>, b: seq<Line>, failure: Option<nat>)
    requires |Written(a, failure)| < |a|
    ensures Written(a + b, failure) == Written(a, failure)
  {
  }

  /** What `save_in_gnuplot_normal` sets out to write once the file is open. */
  function NormalLines<C>(name: string, times: seq<seq<Record<C>>>, describe: (string, C) -> Described): seq<Line>
    requires |times| > 0 ==> Uniform(times, |times[0]|)
  {
    if |times| == 0 || |times[0]| == 0 then [Directive(TerminalLine)]
    else [Directive(TerminalLine)] + Header(name, times, describe) + Blocks(Columns(times, |times[0]|), describe, |times[0]|).0
  }

  /** The `'%d %f %f'` lines for the cumulative rows, up to the first 'vary' value that is not a number. */
  function TripleLines(rows: seq<CumulativeRow>): (r: (seq<Line>, bool))
    ensures |r.0| <= |rows|
  {
    if rows == [] then ([], true)
    else
      var (lines, ok) := TripleLines(rows[..|rows| - 1]);
      var last := rows[|rows| - 1];
      if !ok then (lines, false)
      else if last.vary.Number? then (lines + [Triple(last.vary.n, last.cpuTotal, last.wallTotal)], true)
      else (lines, false)
  }

  /**
    `save_in_gnuplot_cumulative(path)`: no file when the directory is
    missing (it is not created) or the file cannot be opened; the file is
    opened for appending, and gets nothing when there is no history or the
    first round is empty; otherwise one line per round (its 'vary' value,
    cpu and wall totals), then `e` if every line could be formatted, up to
    the first write that raises.
  */
  function GnuplotCumulative<C>(name: string, times: seq<seq<Record<C>>>, describe: (string, C) -> Described, path: string, env: ExportEnv): Export
  {
    if !env.pathExists then NoFile
    else if !env.canOpen then NoFile
    else File(FileName(path, name), true, Written(CumulativeLines(times, describe), env.writeFailure))
  }

  /** What `save_in_gnuplot_cumulative` sets out to append once the file is open. */
  function CumulativeLines<C>(times: seq<seq<Record<C>>>, describe: (string, C) -> Described): seq<Line>
  {
    if |times| == 0 || |times[0]| == 0 then []
    else
      var (lines, ok) := TripleLines(CumulativePrefix(times, describe, |times|, times[0][0].context).0);
      if ok then lines + [EndOfData] else lines
  }

  function GnuplotOf<C>(stats: int, name: string, times: seq<seq<Record<C>>>, describe: (string, C) -> Described, path: string, env: ExportEnv): Export
    requires |times| > 0 ==> Uniform(times, |times[0]|)
  {
    if stats == 1 then GnuplotNormal(name, times, describe, path, env) else GnuplotCumulative(name, times, describe, path, env)
  }

  /**
    A write that raises changes neither which file is opened nor how: the
    file holds a prefix of what it holds when every write succeeds, short
    of it exactly when the failing write is one of those lines, and then
    holding the lines before that write.
  */
  lemma ExportTruncated<C>(stats: int, name: string, times: seq<seq<Record<C>>>, describe: (string, C) -> Described, path: string, env: ExportEnv)
    requires |times| > 0 ==> Uniform(times, |times[0]|)
    ensures var e, full := GnuplotOf(stats, name, times, describe, path, env), GnuplotOf(stats, name, times, describe, path, env.(writeFailure := None));
      && e.File? == full.File?
      && (e.File? ==>
            && e.name == full.name && e.append == full.append && e.lines <= full.lines
            && (|e.lines| < |full.lines| <==> env.writeFailure.Some? && env.writeFailure.value < |full.lines|)
            && (|e.lines| < |full.lines| ==> |e.lines| == env.writeFailure.value))
  {
  }

  /** A series that has stopped stays stopped. */
  lemma {:induction false} SeriesStuck<C>(col: seq<Record<C>>, describe: (string, C) -> Described, i: nat, m: nat)
    requires i <= m <= |col| && !Series(col, describe, i).1
    ensures Series(col, describe, m) == Series(col, describe, i)
    decreases m
  {
    if i < m {
      SeriesStuck(col, describe, i, m - 1);
    }
  }

  lemma {:induction false} BlocksStuck<C>(cols: seq<seq<Record<C>>>, describe: (string, C) -> Described, i: nat, w: nat)
    requires i <= w <= |cols| && !Blocks(cols, describe, i).1
    ensures Blocks(cols, describe, w) == Blocks(cols, describe, i)
    decreases w
  {
    if i < w {
      BlocksStuck(cols, describe, i, w - 1);
    }
  }

  /**
    A series is complete exactly when every 'vary' value is a number, and
    then it has one point per round: that round's 'vary' value and wall time.
  */
  lemma {:induction false} SeriesComplete<C>(col: seq<Record<C>>, describe: (string, C) -> Described, m: nat)
    requires m <= |col|
    ensures Series(col, describe, m).1 <==> forall i :: 0 <= i < m ==> describe("vary", col[i].context).Number?
    ensures !Series(col, describe, m).1 ==> |Series(col, describe, m).0| < m
    ensures Series(col, describe, m).1 ==> |Series(col, describe, m).0| == m
    ensures Series(col, describe, m).1 ==> forall i :: 0 <= i < m ==>
      Series(col, describe, m).0[i] == Point(describe("vary", col[i].context).n, col[i].wall)
    decreases m
  {
    if m > 0 {
      SeriesComplete(col, describe, m - 1);
      if !Series(col, describe, m - 1).1 {
        var i :| 0 <= i < m - 1 && !describe("vary", col[i].context).Number?;
      }
    }
  }

  /** The first line of worker `j`'s block when every block holds `m` points and `e`. */
  function BlockStart(j: nat, m: nat): (k: nat)
  {
    if j == 0 then 0 else BlockStart(j - 1, m) + m + 1
  }

  lemma {:induction false} BlockStartIsProduct(j: nat, m: nat)
    ensures BlockStart(j, m) == j * (m + 1)
    decreases j
  {
    if j > 0 {
      BlockStartIsProduct(j - 1, m);
    }
  }

  lemma {:induction false} BlockStartMonotone(j: nat, w: nat, m: nat)
    requires j < w
    ensures BlockStart(j, m) + m + 1 <= BlockStart(w, m)
    decreases w
  {
    if j < w - 1 {
      BlockStartMonotone(j, w - 1, m);
    }
  }

  /**
    The series of `w` workers with `m` rounds each are all complete exactly
    when every 'vary' value is a number, and then fill `BlockStart(w, m)`
    lines; otherwise fewer lines are written.
  */
  lemma {:induction false} BlocksComplete<C>(cols: seq<seq<Record<C>>>, describe: (string, C) -> Described, w: nat, m: nat)
    requires w <= |cols| && forall j :: 0 <= j < w ==> |cols[j]| == m
    ensures Blocks(cols, describe, w).1 <==>
      forall j, i :: 0 <= j < w && 0 <= i < m ==> describe("vary", cols[j][i].context).Number?
    ensures !Blocks(cols, describe, w).1 ==> |Blocks(cols, describe, w).0| < BlockStart(w, m)
    ensures Blocks(cols, describe, w).1 ==> |Blocks(cols, describe, w).0| == BlockStart(w, m)
    decreases w
  {
    if w > 0 {
      BlocksComplete(cols, describe, w - 1, m);
      SeriesComplete(cols[w - 1], describe, m);
      if !Blocks(cols, describe, w - 1).1 {
        var j, i :| 0 <= j < w - 1 && 0 <= i < m && !describe("vary", cols[j][i].context).Number?;
      } else if !Series(cols[w - 1], describe, m).1 {
        var i :| 0 <= i < m && !describe("vary", cols[w - 1][i].context).Number?;
      }
    }
  }

  /** In complete series, worker `j`'s block is its `m` points followed by `e`, from line `BlockStart(j, m)` on. */
  lemma {:induction false} BlocksLines<C>(cols: seq<seq<Record<C>>>, describe: (string, C) -> Described, w: nat, m: nat, j: nat, i: nat)
    requires w <= |cols| && forall j :: 0 <= j < w ==> |cols[j]| == m
    requires Blocks(cols, describe, w).1 && j < w && i < m
    ensures BlockStart(j, m) + m < |Blocks(cols, describe, w).0|
    ensures describe("vary", cols[j][i].context).Number?
    ensures Blocks(cols, describe, w).0[BlockStart(j, m) + i] == Point(describe("vary", cols[j][i].context).n, cols[j][i].wall)
    ensures Blocks(cols, describe, w).0[BlockStart(j, m) + m] == EndOfData
    decreases w
  {
    BlocksComplete(cols, describe, w - 1, m);
    assert Blocks(cols, describe, w - 1).1;
    var prev := Blocks(cols, describe, w - 1).0;
    var series := Series(cols[w - 1], describe, m);
    assert series.1;
    var all := Blocks(cols, describe, w).0;
    assert all == prev + series.0 + [EndOfData];
    if j < w - 1 {
      BlocksLines(cols, describe, w - 1, m, j, i);
      BlockStartMonotone(j, w - 1, m);
      assert all[BlockStart(j, m) + i] == prev[BlockStart(j, m) + i];
      assert all[BlockStart(j, m) + m] == prev[BlockStart(j, m) + m];
    } else {
      SeriesComplete(cols[w - 1], describe, m);
      assert all[BlockStart(j, m) + i] == series.0[i];
    }
  }

  /**
    When the directory can be had, the file opened, some round has a
    record and every 'vary' value is a number, the normal gnuplot file is
    the terminal line, the title (test name and worker count), the axis
    labels, the plot directive, then for each worker `j` its wall time in
    every round `i` against that round's 'vary' value, closed by `e`.
    Exactly then the file has its full length.
  */
  lemma NormalExportLayout<C>(name: string, times: seq<seq<Record<C>>>, describe: (string, C) -> Described, path: string, env: ExportEnv, n: nat)
    requires Uniform(times, n) && |times| > 0 && n > 0
    requires env.canOpen && (env.pathExists || env.canMakePath) && env.writeFailure.None?
    ensures var e := GnuplotNormal(name, times, describe, path, env);
      && e.File? && e.name == FileName(path, name) && !e.append
      && |e.lines| >= 5
      && e.lines[..5] == [Directive(TerminalLine), Directive(TitleLine(name, n)), Directive(YLabelLine),
                          Directive(XLabelLine(describe("config", times[0][0].context))), Directive(PlotDirective(n))]
      && ((forall i, j :: 0 <= i < |times| && 0 <= j < n ==> describe("vary", times[i][j].context).Number?)
          <==> |e.lines| == 5 + BlockStart(n, |times|))
  {
    NormalExportSplit(name, times, describe, path, env, n);
    NormalBlocksShape(times, describe, n);
    var lines := GnuplotNormal(name, times, describe, path, env).lines;
    assert |times[0]| == n;
    assert |lines| == 5 + |lines[5..]|;
  }

  /**
    The series blocks of a history with `n` records per round are complete
    exactly when every 'vary' value is a number, and exactly then they have
    their full length.
  */
  lemma NormalBlocksShape<C>(times: seq<seq<Record<C>>>, describe: (string, C) -> Described, n: nat)
    requires Uniform(times, n)
    ensures Blocks(Columns(times, n), describe, n).1 <==>
      forall i, j :: 0 <= i < |times| && 0 <= j < n ==> describe("vary", times[i][j].context).Number?
    ensures Blocks(Columns(times, n), describe, n).1 <==> |Blocks(Columns(times, n), describe, n).0| == BlockStart(n, |times|)
  {
    var cols: seq<seq<Record<C>>> := Columns(times, n);
    BlocksComplete(cols, describe, n, |times|);
    if forall i, j :: 0 <= i < |times| && 0 <= j < n ==> describe("vary", times[i][j].context).Number? {
      assert forall j, i :: 0 <= j < n && 0 <= i < |times| ==> describe("vary", cols[j][i].context).Number?;
    } else {
      var i, j :| 0 <= i < |times| && 0 <= j < n && !describe("vary", times[i][j].context).Number?;
      assert !describe("vary", cols[j][i].context).Number?;
    }
  }

  /** In complete series blocks, worker `j`'s block holds round `i`'s point and ends with `e`. */
  lemma NormalBlockPoint<C>(times: seq<seq<Record<C>>>, describe: (string, C) -> Described, n: nat, i: nat, j: nat)
    requires Uniform(times, n) && i < |times| && j < n && Blocks(Columns(times, n), describe, n).1
    ensures var blocks := Blocks(Columns(times, n), describe, n).0;
      && BlockStart(j, |times|) + |times| < |blocks|
      && describe("vary", times[i][j].context).Number?
      && blocks[BlockStart(j, |times|) + i] == Point(describe("vary", times[i][j].context).n, times[i][j].wall)
      && blocks[BlockStart(j, |times|) + |times|] == EndOfData
  {
    var cols: seq<seq<Record<C>>> := Columns(times, n);
    BlocksLines(cols, describe, n, |times|, j, i);
    assert cols[j][i] == times[i][j];
  }

  /** The data lines of a complete normal gnuplot file: worker `j`, round `i`. */
  lemma NormalExportPoints<C>(name: string, times: seq<seq<Record<C>>>, describe: (string, C) -> Described, path: string, env: ExportEnv, n: nat, i: nat, j: nat)
    requires Uniform(times, n) && |times| > 0 && n > 0 && i < |times| && j < n
    requires env.canOpen && (env.pathExists || env.canMakePath) && env.writeFailure.None?
    requires forall i, j :: 0 <= i < |times| && 0 <= j < n ==> describe("vary", times[i][j].context).Number?
    ensures var e := GnuplotNormal(name, times, describe, path, env);
      && e.File?
      && 5 + BlockStart(j, |times|) + |times| < |e.lines|
      && e.lines[5 + BlockStart(j, |times|) + i] == Point(describe("vary", times[i][j].context).n, times[i][j].wall)
      && e.lines[5 + BlockStart(j, |times|) + |times|] == EndOfData
  {
    var m := |times|;
    NormalExportSplit(name, times, describe, path, env, n);
    NormalBlocksShape(times, describe, n);
    NormalBlockPoint(times, describe, n, i, j);
    var lines := GnuplotNormal(name, times, describe, path, env).lines;
    var start := BlockStart(j, m);
    assert lines[5 + start + i] == lines[5..][start + i];
    assert lines[5 + start + m] == lines[5..][start + m];
  }

  /** A normal gnuplot file with records: five directives, then the series blocks. */
  lemma NormalExportSplit<C>(name: string, times: seq<seq<Record<C>>>, describe: (string, C) -> Described, path: string, env: ExportEnv, n: nat)
    requires Uniform(times, n) && |times| > 0 && n > 0
    requires env.canOpen && (env.pathExists || env.canMakePath) && env.writeFailure.None?
    ensures var e := GnuplotNormal(name, times, describe, path, env);
      && e == File(FileName(path, name), false, e.lines) && |e.lines| >= 5
      && e.lines[..5] == [Directive(TerminalLine)] + Header(name, times, describe)
      && e.lines[5..] == Blocks(Columns(times, n), describe, n).0
  {
    var head := [Directive(TerminalLine)] + Header(name, times, describe);
    var lines := GnuplotNormal(name, times, describe, path, env).lines;
    assert lines == NormalLines(name, times, describe);
    assert lines == head + Blocks(Columns(times, n), describe, n).0;
    assert lines[..5] == head;
  }

  lemma {:induction false} TripleLinesComplete(rows: seq<CumulativeRow>)
    ensures TripleLines(rows).1 <==> forall i :: 0 <= i < |rows| ==> rows[i].vary.Number?
    ensures TripleLines(rows).1 ==> |TripleLines(rows).0| == |rows|
    ensures TripleLines(rows).1 ==> forall i :: 0 <= i < |rows| ==>
      TripleLines(rows).0[i] == Triple(rows[i].vary.n, rows[i].cpuTotal, rows[i].wallTotal)
    decreases |rows|
  {
    if rows != [] {
      var init := rows[..|rows| - 1];
      TripleLinesComplete(init);
      if !TripleLines(init).1 {
        var i :| 0 <= i < |init| && !init[i].vary.Number?;
        assert !rows[i].vary.Number?;
      }
    }
  }

  /**
    When the directory exists, the file opens, some round has a record
    and each round's last 'vary' value is a number, the cumulative export
    appends, for each round in order, its 'vary' value with the round's
    cpu and wall totals, then `e`; the totals add up to the sums over every
    record.
  */
  lemma CumulativeExportLayout<C>(name: string, times: seq<seq<Record<C>>>, describe: (string, C) -> Described, path: string, env: ExportEnv, n: nat)
    requires Uniform(times, n) && |times| > 0 && n > 0
    requires env.pathExists && env.canOpen && env.writeFailure.None?
    requires forall i :: 0 <= i < |times| ==> describe("vary", times[i][n - 1].context).Number?
    ensures var e := GnuplotCumulative(name, times, describe, path, env);
      && e == File(FileName(path, name), true, e.lines)
      && |e.lines| == |times| + 1
      && (forall i :: 0 <= i < |times| ==>
            e.lines[i] == Triple(describe("vary", times[i][n - 1].context).n, RoundCpu(times[i]), RoundWall(times[i])))
      && e.lines[|times|] == EndOfData
  {
    CumulativeStatsShape(times, describe, n);
    var rows := CumulativePrefix(times, describe, |times|, times[0][0].context).0;
    TripleLinesComplete(rows);
  }

  /**
    Once a 'vary' value stops the cumulative export, the later rounds add
    nothing: the lines for a longer history are those of the prefix.
  */
  lemma {:induction false} TripleLinesStuck(rows: seq<CumulativeRow>, k: nat)
    requires k <= |rows| && !TripleLines(rows[..k]).1
    ensures TripleLines(rows) == TripleLines(rows[..k])
    decreases |rows|
  {
    if k < |rows| {
      assert rows[..|rows| - 1][..k] == rows[..k];
      TripleLinesStuck(rows[..|rows| - 1], k);
    } else {
      assert rows[..k] == rows;
    }
  }

  lemma TripleLinesSnoc(rows: seq<CumulativeRow>, row: CumulativeRow)
    ensures TripleLines(rows + [row]) ==
      if !TripleLines(rows).1 then TripleLines(rows)
      else if row.vary.Number? then (TripleLines(rows).0 + [Triple(row.vary.n, row.cpuTotal, row.wallTotal)], true)
      else (TripleLines(rows).0, false)
  {
    assert (rows + [row])[..|rows|] == rows;
  }

  lemma CumulativePrefixStep<C>(times: seq<seq<Record<C>>>, describe: (string, C) -> Described, i: nat, start: C)
    requires i < |times|
    ensures var context := if times[i] == [] then CumulativePrefix(times, describe, i, start).1 else times[i][|times[i]| - 1].context;
      CumulativePrefix(times, describe, i + 1, start) ==
        (CumulativePrefix(times, describe, i, start).0 + [CumulativeRow(i + 1, RoundCpu(times[i]), RoundWall(times[i]), |times[0]|, describe("vary", context))], context)
  {
  }

}
