/**
  The thread variant of the engine (`stress.py`): one thread per context,
  each appending its record to `thread_times` under a lock, so a round's
  records come in the order the threads finish; a `Test` with one
  statistics mode; a `TestSuite` whose list is a class attribute.
*/
module ThreadStress {
  import opened Wrappers
  import opened History
  import opened Rounds
  import opened Contract
  import opened Reports
  import opened Lookup

  /**
    `start_test(i, vary)`: init, the timed exec (a flag only), final, and
    vary whenever the vary flag is set, whatever exec returned. The record
    holds the context init returned.
  */
  function RunThread<C>(w: ThreadWorkload<C>, step: int, vary: bool, context: C, t: Timing): (r: WorkerReport<C>)
    ensures r.ok == w.exec(w.init(context))
    ensures r.record == Record(t.cpu, t.wall, w.init(context))
    ensures vary ==> r.context == w.vary(step, w.final(w.init(context)))
    ensures !vary ==> r.context == w.final(w.init(context))
  {
    var started := w.init(context);
    var finished := w.final(started);
    WorkerReport(Record(t.cpu, t.wall, started), if vary then w.vary(step, finished) else finished, w.exec(started))
  }

  function ThreadWorker<C>(w: ThreadWorkload<C>, step: int, clock: (nat, nat) -> Timing): Worker<C>
  {
    (round: nat, i: nat, vary: bool, c: C) => RunThread(w, step, vary, c, clock(round, i))
  }

  /**
    The order in which the `n` threads of a round leave the critical
    section: every thread index, each below `n`, `n` entries in all.
  */
  ghost predicate Arranged(order: seq<nat>, n: nat)
  {
    |order| == n && (forall k :: 0 <= k < n ==> order[k] < n) && (forall i :: 0 <= i < n ==> i in order)
  }

  /** A round's records (in thread-index order) as `thread_times` receives them. */
  function Arrange<C>(round: seq<Record<C>>, order: seq<nat>): (r: seq<Record<C>>)
    requires forall k :: 0 <= k < |order| ==> order[k] < |round|
    ensures |r| == |order| && forall k :: 0 <= k < |order| ==> r[k] == round[order[k]]
  {
    seq(|order|, k requires 0 <= k < |order| => round[order[k]])
  }

  /** The records of a round's reports, in worker-index order. */
  function RecordsOf<C>(reports: seq<WorkerReport<C>>): (r: seq<Record<C>>)
    ensures |r| == |reports| && forall i :: 0 <= i < |reports| ==> r[i] == reports[i].record
  {
    seq(|reports|, i requires 0 <= i < |reports| => reports[i].record)
  }

  /** Each thread's record is in the arranged round, and the round keeps its size. */
  lemma ArrangeKeepsRecords<C>(round: seq<Record<C>>, order: seq<nat>)
    requires Arranged(order, |round|)
    ensures |Arrange(round, order)| == |round|
    ensures forall i :: 0 <= i < |round| ==> round[i] in Arrange(round, order)
  {
    forall i | 0 <= i < |round|
      ensures round[i] in Arrange(round, order)
    {
      assert i in order;
      var k :| 0 <= k < |order| && order[k] == i;
      assert Arrange(round, order)[k] == round[i];
    }
  }

  /**
    `start_once(vary)` of the thread variant: a no-op when the result is
    False; otherwise the contexts and the result are those of a round in
    worker-index order, and the appended round lists the same records in
    the order the threads finished.
  */
  function ThreadOnce<C>(worker: Worker<C>, s: TestState<C>, vary: bool, order: seq<nat>): (r: TestState<C>)
    requires s.result ==> Arranged(order, |s.contexts|)
    ensures !s.result ==> r == s
    ensures r.contexts == Once(worker, s, vary).contexts && r.result == Once(worker, s, vary).result
    ensures |r.times| == |Once(worker, s, vary).times|
    ensures s.result ==> r.times == s.times + [Arrange(Once(worker, s, vary).times[|s.times|], order)]
    ensures WellFormed(s) ==> WellFormed(r)
  {
    if !s.result then s
    else
      var r := Once(worker, s, vary);
      TestState(r.contexts, s.times + [Arrange(r.times[|s.times|], order)], r.result)
  }

  /** `start_vary(n)` of the thread variant from iteration `i` on; `schedule(k)` is the finishing order of round `k`. */
  function ThreadVaryFrom<C>(worker: Worker<C>, s: TestState<C>, n: nat, i: nat, schedule: nat -> seq<nat>): (r: TestState<C>)
    requires forall k :: Arranged(schedule(k), |s.contexts|)
    ensures |r.contexts| == |s.contexts|
    decreases n - i
  {
    if i >= n || !s.result then s
    else ThreadVaryFrom(worker, ThreadOnce(worker, s, i != n - 1, schedule(|s.times|)), n, i + 1, schedule)
  }

  function ThreadVary<C>(worker: Worker<C>, s: TestState<C>, n: nat, schedule: nat -> seq<nat>): TestState<C>
    requires forall k :: Arranged(schedule(k), |s.contexts|)
  {
    ThreadVaryFrom(worker, s, n, 0, schedule)
  }

  /**
    A thread-variant state `t` against a process-variant state `q`: the same
    contexts, result and history length, `t` extends `base`, and every later
    round of `t` holds the records of `q`'s round, `n` of them, in the
    threads' finishing order.
  */
  ghost predicate Corresponds<C>(t: TestState<C>, q: TestState<C>, base: seq<seq<Record<C>>>, schedule: nat -> seq<nat>, n: nat)
  {
    && t.contexts == q.contexts && t.result == q.result && |t.times| == |q.times|
    && |base| <= |t.times| && t.times[..|base|] == base
    && forall k :: |base| <= k < |t.times| ==>
         |q.times[k]| == n && Arranged(schedule(k), n) && t.times[k] == Arrange(q.times[k], schedule(k))
  }

  /**
    The thread variant's `start_vary` runs the same rounds as the process
    variant's round rule would with this worker: the same contexts, result
    and history length, and each new round holds the same records in the
    threads' finishing order.
  */
  lemma {:induction false} ThreadVaryAgrees<C>(worker: Worker<C>, p: TestState<C>, s: TestState<C>, n: nat, i: nat, schedule: nat -> seq<nat>)
    requires forall k :: Arranged(schedule(k), |s.contexts|)
    requires p.contexts == s.contexts && p.result == s.result && |p.times| == |s.times|
    ensures Corresponds(ThreadVaryFrom(worker, s, n, i, schedule), VaryFrom(worker, p, n, i), s.times, schedule, |s.contexts|)
    decreases n - i
  {
    if i < n && s.result {
      var vary := i != n - 1;
      var s' := ThreadOnce(worker, s, vary, schedule(|s.times|));
      var p' := Once(worker, p, vary);
      assert RoundReports(worker, p, vary) == RoundReports(worker, s, vary);
      ThreadVaryAgrees(worker, p', s', n, i + 1, schedule);
      var t := ThreadVaryFrom(worker, s', n, i + 1, schedule);
      var q := VaryFrom(worker, p', n, i + 1);
      VaryFromBounds(worker, p', n, i + 1);
      assert q.times[|p.times|] == p'.times[|p.times|];
      assert p'.times[|p.times|] == Once(worker, s, vary).times[|s.times|];
      CorrespondsShorten(t, q, s.times, s'.times[|s.times|], schedule, |s.contexts|);
    }
  }

  /** A correspondence over a longer base holds over the shorter one when the extra round matches. */
  lemma CorrespondsShorten<C>(t: TestState<C>, q: TestState<C>, base: seq<seq<Record<C>>>, round: seq<Record<C>>,
                              schedule: nat -> seq<nat>, n: nat)
    requires Corresponds(t, q, base + [round], schedule, n)
    requires |q.times[|base|]| == n && Arranged(schedule(|base|), n)
    requires round == Arrange(q.times[|base|], schedule(|base|))
    ensures Corresponds(t, q, base, schedule, n)
  {
    assert t.times[..|base|] == t.times[..|base| + 1][..|base|];
    assert t.times[|base|] == (base + [round])[|base|];
  }

  /**
    At most `n` rounds are appended, the earlier history is kept, a False
    result stays False and stops the rounds, all `n` rounds run while it
    stays True, and every round keeps one record per context.
  */
  lemma ThreadVaryBounds<C>(worker: Worker<C>, s: TestState<C>, n: nat, schedule: nat -> seq<nat>)
    requires forall k :: Arranged(schedule(k), |s.contexts|)
    ensures var t := ThreadVary(worker, s, n, schedule);
      && |s.times| <= |t.times| <= |s.times| + n
      && t.times[..|s.times|] == s.times
      && |t.contexts| == |s.contexts|
      && (t.result ==> s.result)
      && (!s.result ==> t == s)
      && (t.result ==> |t.times| == |s.times| + n)
      && (|t.times| < |s.times| + n ==> !t.result)
      && (WellFormed(s) ==> WellFormed(t))
  {
    ThreadVaryAgrees(worker, s, s, n, 0, schedule);
    VaryBounds(worker, s, n);
    var t := ThreadVary(worker, s, n, schedule);
    var q := Vary(worker, s, n);
    if WellFormed(s) {
      forall k | 0 <= k < |t.times|
        ensures |t.times[k]| == |t.contexts|
      {
        if k < |s.times| {
          assert t.times[k] == t.times[..|s.times|][k];
        } else {
          assert |q.times[k]| == |q.contexts|;
        }
      }
    }
  }

  /** One line of `print_stats`: round and thread numbered from 0, the times, the context itself. */
  datatype ThreadRow<C> = ThreadRow(round: nat, thread: nat, cpu: real, wall: real, context: C)

  /**
    What `print_stats` reports: nothing ran; the rows followed by a
    division by zero (an empty last round); or the rows and the averages,
    whose divisor is the number of rounds times the size of the LAST round.
  */
  datatype ThreadStats<C> =
    | ThreadNoTests
    | ThreadZeroDivision(rows: seq<ThreadRow<C>>)
    | ThreadReport(rows: seq<ThreadRow<C>>, avgCpu: real, avgWall: real, nbTests: nat, nbThreads: nat)

  function ThreadRoundRows<C>(i: nat, round: seq<Record<C>>): (rows: seq<ThreadRow<C>>)
    ensures |rows| == |round|
    ensures forall j :: 0 <= j < |round| ==> rows[j] == ThreadRow(i, j, round[j].cpu, round[j].wall, round[j].context)
  {
    seq(|round|, j requires 0 <= j < |round| => ThreadRow(i, j, round[j].cpu, round[j].wall, round[j].context))
  }

  function ThreadRows<C>(times: seq<seq<Record<C>>>): seq<ThreadRow<C>>
  {
    if times == [] then [] else ThreadRows(times[..|times| - 1]) + ThreadRoundRows(|times| - 1, times[|times| - 1])
  }

  function ThreadStatsOf<C>(times: seq<seq<Record<C>>>): ThreadStats<C>
  {
    if |times| == 0 then ThreadNoTests
    else
      var nbThreads := |times[|times| - 1]|;
      if nbThreads == 0 then ThreadZeroDivision(ThreadRows(times))
      else
        var samples := (|times| * nbThreads) as real;
        ThreadReport(ThreadRows(times), TotalCpu(times) / samples, TotalWall(times) / samples, |times|, nbThreads)
  }

  lemma ThreadRoundRowsStep<C>(i: nat, round: seq<Record<C>>, j: nat)
    requires j < |round|
    ensures ThreadRoundRows(i, round)[..j + 1] ==
      ThreadRoundRows(i, round)[..j] + [ThreadRow(i, j, round[j].cpu, round[j].wall, round[j].context)]
  {
  }

  lemma ThreadRowsStep<C>(times: seq<seq<Record<C>>>, i: nat)
    requires i < |times|
    ensures ThreadRows(times[..i + 1]) == ThreadRows(times[..i]) + ThreadRoundRows(i, times[i])
  {
    assert times[..i + 1][..i] == times[..i];
  }

  /**
    When every round has the same number `n > 0` of records, the thread
    variant's averages are the process variant's (its divisor uses the
    first round): both are the grand totals over `nb_tests * n` samples.
    Only uneven rounds tell the two apart.
  */
  lemma ThreadStatsMatchNormal<C>(times: seq<seq<Record<C>>>, describe: (string, C) -> Described, n: nat)
    requires Uniform(times, n) && |times| > 0 && n > 0
    ensures var t := ThreadStatsOf(times);
      var p := NormalStatsOf(times, describe);
      && t.ThreadReport? && p.NormalReport?
      && t.avgCpu == p.avgCpu && t.avgWall == p.avgWall
      && t.nbTests == p.nbTests == |times| && t.nbThreads == p.nbProcess == n
      && t.avgCpu * ((|times| * n) as real) == TotalCpu(times)
      && t.avgWall * ((|times| * n) as real) == TotalWall(times)
  {
    NormalStatsShape(times, describe, n, 0, 0);
  }

  /** The inner loop of `print_stats`: round `i`'s rows and its times added to the running sums. */
  method AccumulateRound<C>(i: nat, round: seq<Record<C>>, cpu: real, wall: real, rows: seq<ThreadRow<C>>)
    returns (cpu': real, wall': real, rows': seq<ThreadRow<C>>)
    ensures cpu' == cpu + RoundCpu(round) && wall' == wall + RoundWall(round)
    ensures rows' == rows + ThreadRoundRows(i, round)
  {
    cpu', wall', rows' := cpu, wall, rows;
    for j := 0 to |round|
      invariant cpu' == cpu + RoundCpu(round[..j]) && wall' == wall + RoundWall(round[..j])
      invariant rows' == rows + ThreadRoundRows(i, round)[..j]
    {
      RoundStep(round, j);
      ThreadRoundRowsStep(i, round, j);
      var record := round[j];
      cpu' := cpu' + record.cpu;
      wall' := wall' + record.wall;
      rows' := rows' + [ThreadRow(i, j, record.cpu, record.wall, record.context)];
    }
    assert round[..|round|] == round;
  }

  /** `Test`, thread variant. */
  class Test<C> {
    const name: string
    const description: string
    const workload: ThreadWorkload<C>
    const step: int
    var debug: bool
    var contextList: seq<C>
    var times: seq<seq<Record<C>>>
    var threadTimes: seq<Record<C>>
    var result: bool

    function State(): TestState<C>
      reads this
    {
      TestState(contextList, times, result)
    }

    /** Every round of the history has one record per context. */
    ghost predicate Valid()
      reads this
    {
      WellFormed(State())
    }

    function Worker(clock: (nat, nat) -> Timing): Worker<C>
    {
      ThreadWorker(workload, step, clock)
    }

    constructor (name: string, description: string, workload: ThreadWorkload<C>, contextList: seq<C>, step: int, debug: bool)
      ensures this.name == name && this.description == description
      ensures this.workload == workload && this.step == step && this.debug == debug
      ensures State() == TestState(contextList, [], true) && Valid() && threadTimes == []
    {
      this.name := name;
      this.description := description;
      this.workload := workload;
      this.contextList := contextList;
      this.step := step;
      this.debug := debug;
      this.times := [];
      this.threadTimes := [];
      this.result := true;
    }

    /**
      `start_once(vary)`: a no-op once the result is False; otherwise one
      thread per context; thread `i` computes from `context_list[i]`, then,
      in the finishing order `order`, each appends its record to
      `thread_times`, stores its context at index `i` and ANDs its flag
      into `result`; the round is appended to `times`.
    */
    method StartOnce(vary: bool, clock: (nat, nat) -> Timing, order: seq<nat>)
      requires result ==> Arranged(order, |contextList|)
      modifies this
      ensures State() == ThreadOnce(Worker(clock), old(State()), vary, order)
      ensures old(Valid()) ==> Valid()
      ensures debug == old(debug)
      ensures old(result) ==> threadTimes == []
      ensures !old(result) ==> threadTimes == old(threadTimes)
    {
      if result {
        threadTimes := [];
        var reports := ThreadReports(clock, vary);
        CriticalSections(reports, order);
        OnceFromReports(Worker(clock), old(State()), vary, contextList, RecordsOf(reports), result);
        times := times + [threadTimes];
        threadTimes := [];
      }
    }

    /** What each thread computes from its own slot; no thread reads another's. */
    method ThreadReports(clock: (nat, nat) -> Timing, vary: bool) returns (reports: seq<WorkerReport<C>>)
      ensures reports == RoundReports(Worker(clock), State(), vary)
    {
      var worker := Worker(clock);
      reports := [];
      for i := 0 to |contextList|
        invariant |reports| == i
        invariant forall k :: 0 <= k < i ==> reports[k] == worker(|times|, k, vary, contextList[k])
      {
        reports := reports + [worker(|times|, i, vary, contextList[i])];
      }
    }

    /**
      The critical sections of one round, in finishing order: each thread
      appends its record to `thread_times`, stores its context in its own
      slot and ANDs its flag into `result`.
    */
    method CriticalSections(reports: seq<WorkerReport<C>>, order: seq<nat>)
      requires result && threadTimes == [] && |reports| == |contextList| && Arranged(order, |reports|)
      modifies this`threadTimes, this`contextList, this`result
      ensures threadTimes == Arrange(RecordsOf(reports), order)
      ensures |contextList| == |reports| && forall i :: 0 <= i < |reports| ==> contextList[i] == reports[i].context
      ensures result <==> forall i :: 0 <= i < |reports| ==> reports[i].ok
    {
      var n := |reports|;
      for k := 0 to n
        invariant |contextList| == n
        invariant threadTimes == Arrange(RecordsOf(reports), order[..k])
        invariant forall i :: 0 <= i < n ==>
          contextList[i] == if i in order[..k] then reports[i].context else old(contextList)[i]
        invariant result <==> forall m :: 0 <= m < k ==> reports[order[m]].ok
      {
        var i := order[k];
        assert order[..k + 1] == order[..k] + [i];
        threadTimes := threadTimes + [reports[i].record];
        contextList := contextList[i := reports[i].context];
        result := result && reports[i].ok;
      }
      assert order[..n] == order;
      assert result <==> forall i :: 0 <= i < n ==> reports[i].ok by {
        if result {
          forall i | 0 <= i < n
            ensures reports[i].ok
          {
            assert i in order;
            var m :| 0 <= m < n && order[m] == i;
          }
        }
      }
    }

    /**
      `start_vary(nb_times)`: rounds with vary=True except the last, which
      has vary=False; returns as soon as the result is False.
    */
    method StartVary(nbTimes: int, clock: (nat, nat) -> Timing, schedule: nat -> seq<nat>)
      requires forall k :: Arranged(schedule(k), |contextList|)
      modifies this
      ensures State() == ThreadVary(Worker(clock), old(State()), Count(nbTimes), schedule)
      ensures old(Valid()) ==> Valid()
      ensures debug == old(debug)
    {
      var n := Count(nbTimes);
      for i := 0 to n
        invariant |contextList| == |old(contextList)|
        invariant ThreadVaryFrom(Worker(clock), State(), n, i, schedule) == ThreadVary(Worker(clock), old(State()), n, schedule)
        invariant old(Valid()) ==> Valid()
        invariant debug == old(debug)
      {
        if result {
          StartOnce(i != n - 1, clock, schedule(|times|));
        } else {
          return;
        }
      }
    }

    /**
      `print_stats`: the rows numbered from 0 while the sums accumulate,
      then the averages; each round passes through `thread_times`.
    */
    method PrintStats() returns (out: ThreadStats<C>)
      modifies this`threadTimes
      ensures out == ThreadStatsOf(times)
      ensures threadTimes == if |times| > 0 then times[|times| - 1] else old(threadTimes)
    {
      var nbTests := |times|;
      if nbTests == 0 {
        return ThreadNoTests;
      }
      var ts: seq<seq<Record<C>>> := times;
      var avgCpu := 0.0;
      var avgWall := 0.0;
      var rows: seq<ThreadRow<C>> := [];
      var nbThreads := 0;
      for i := 0 to nbTests
        invariant avgCpu == TotalCpu(ts[..i]) && avgWall == TotalWall(ts[..i])
        invariant rows == ThreadRows(ts[..i])
        invariant i > 0 ==> threadTimes == ts[i - 1] && nbThreads == |ts[i - 1]|
      {
        var round := ts[i];
        nbThreads := |round|;
        threadTimes := round;
        avgCpu, avgWall, rows := AccumulateRound(i, round, avgCpu, avgWall, rows);
        TotalStep(ts, i);
        ThreadRowsStep(ts, i);
      }
      assert ts[..nbTests] == ts;
      if nbThreads == 0 {
        return ThreadZeroDivision(rows);
      }
      var samples := (nbTests * nbThreads) as real;
      out := ThreadReport(rows, avgCpu / samples, avgWall / samples, nbTests, nbThreads);
    }
  }

  /** The list object `TestSuite.testlist`, a class attribute: one list for the whole program. */
  class TestList<C> {
    var tests: seq<Test<C>>

    constructor ()
      ensures tests == []
    {
      tests := [];
    }
  }

  /**
    `TestSuite` as `stress.py` writes it: `__init__` sets the name and the
    description but never `self.testlist`, so every suite appends to and
    searches the one class-level list it is handed.
  */
  class SharedTestSuite<C> {
    const name: string
    const description: string
    const testlist: TestList<C>

    constructor (name: string, description: string, classList: TestList<C>)
      ensures this.name == name && this.description == description && testlist == classList
    {
      this.name := name;
      this.description := description;
      this.testlist := classList;
    }

    function Names(): (names: seq<string>)
      reads testlist
      ensures |names| == |testlist.tests| && forall k :: 0 <= k < |names| ==> names[k] == testlist.tests[k].name
    {
      seq(|testlist.tests|, k requires 0 <= k < |testlist.tests| reads testlist => testlist.tests[k].name)
    }

    /** `add_test`: appends to the class-level list. */
    method AddTest(test: Test<C>)
      modifies testlist
      ensures testlist.tests == old(testlist.tests) + [test]
    {
      testlist.tests := testlist.tests + [test];
    }

    /** `find_test_by_name`: the first test of that name in the shared list, None when there is none. */
    method FindTestByName(name: string) returns (found: Option<Test<C>>)
      ensures found.None? <==> name !in Names()
      ensures found == match FirstIndexOf(Names(), name) case None => None case Some(k) => Some(testlist.tests[k])
    {
      var tests := testlist.tests;
      for k := 0 to |tests|
        invariant forall j :: 0 <= j < k ==> tests[j].name != name
        invariant name !in Names()[..k]
      {
        if tests[k].name == name {
          return Some(tests[k]);
        }
      }
      assert Names()[..|tests|] == Names();
      return None;
    }
  }

  /**
    The shared list, shown: two suites built over the class attribute, one
    test added to the first, and the second suite lists it and finds it.
  */
  method SharedListWitness<C>(test: Test<C>) returns (files: SharedTestSuite<C>, cpu: SharedTestSuite<C>, found: Option<Test<C>>)
    ensures files.testlist == cpu.testlist && cpu.testlist.tests == [test]
    ensures test.name == "Directories" ==> found == Some(test)
  {
    var classList := new TestList<C>();
    files := new SharedTestSuite<C>("Files", "File system tests", classList);
    cpu := new SharedTestSuite<C>("CPU", "CPU tests", classList);
    files.AddTest(test);
    found := cpu.FindTestByName("Directories");
    assert cpu.Names() == [test.name];
  }

  /** `TestSuite` with a list of its own, as `__init__` evidently means it (and as the process variant does). */
  class TestSuite<C> {
    const name: string
    const description: string
    var testlist: seq<Test<C>>

    constructor (name: string, description: string)
      ensures this.name == name && this.description == description && testlist == []
    {
      this.name := name;
      this.description := description;
      testlist := [];
    }

    function Names(): (names: seq<string>)
      reads this
      ensures |names| == |testlist| && forall k :: 0 <= k < |names| ==> names[k] == testlist[k].name
    {
      seq(|testlist|, k requires 0 <= k < |testlist| reads this => testlist[k].name)
    }

    method AddTest(test: Test<C>)
      modifies this
      ensures testlist == old(testlist) + [test]
    {
      testlist := testlist + [test];
    }

    method FindTestByName(name: string) returns (found: Option<Test<C>>)
      ensures found.None? <==> name !in Names()
      ensures found == match FirstIndexOf(Names(), name) case None => None case Some(k) => Some(testlist[k])
    {
      for k := 0 to |testlist|
        invariant forall j :: 0 <= j < k ==> testlist[j].name != name
        invariant name !in Names()[..k]
      {
        if testlist[k].name == name {
          return Some(testlist[k]);
        }
      }
      assert Names()[..|testlist|] == Names();
      return None;
    }
  }

  /** With a list per suite, a test added to one suite is not seen by another. */
  method SeparateListsWitness<C>(test: Test<C>) returns (files: TestSuite<C>, cpu: TestSuite<C>, found: Option<Test<C>>)
    ensures files.testlist == [test] && cpu.testlist == []
    ensures found == None
  {
    files := new TestSuite<C>("Files", "File system tests");
    cpu := new TestSuite<C>("CPU", "CPU tests");
    files.AddTest(test);
    found := cpu.FindTestByName(test.name);
  }
}
