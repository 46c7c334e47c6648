/**
  The cpu suite: the cpu encode test over `(a_string, nb_tests)`, its
  init/final/vary/print_c functions, its context list and `Cpu_Tests`.
  The base64/rot13 loop itself is not modelled: its output is discarded,
  so only the success rule remains.
*/
module CpuStress {
  import opened PyText
  import opened History
  import opened Contract
  import opened Contexts
  import opened Rounds
  import opened ProcessStress

  /** `cpu_encode_stress_test`: succeeds exactly when there is something to run, and keeps its context. */
  function CpuEncodeStressTest(c: CpuContext): (r: (bool, CpuContext))
    ensures r.1 == c
    ensures r.0 <==> c.nbTests > 0
  {
    if c.nbTests > 0 then (true, CpuContext(c.text, c.nbTests)) else (false, c)
  }

  /** `cpu_est_init`: nothing to do. */
  function CpuEstInit(c: CpuContext): (r: CpuContext)
    ensures r == c
  {
    c
  }

  /** `cpu_est_final`: nothing to do, the same identity as `CpuEstInit`. */
  function CpuEstFinal(c: CpuContext): (r: CpuContext)
    ensures r == c
  {
    c
  }

  /** `cpu_est_vary`: multiplies `nb_tests` by the step only when both are positive. */
  function CpuEstVary(step: int, c: CpuContext): (r: CpuContext)
    ensures r.text == c.text
    ensures c.nbTests > 0 && step > 0 ==> r.nbTests == c.nbTests * step
    ensures !(c.nbTests > 0 && step > 0) ==> r == c
  {
    if c.nbTests > 0 && step > 0 then c.(nbTests := c.nbTests * step) else c
  }

  /** `cpu_est_print_c`. */
  function CpuEstPrintC(what: string, c: CpuContext): (r: Described)
    ensures what == "print" ==> r == Text("Tests : " + IntToString(c.nbTests))
    ensures what == "config" ==> r == Text("Number of runs")
    ensures what == "vary" ==> r == Number(c.nbTests)
    ensures what != "print" && what != "config" && what != "vary" ==> r == NoValue
  {
    if what == "print" then Text("Tests : " + IntToString(c.nbTests))
    else if what == "config" then Text("Number of runs")
    else if what == "vary" then Number(c.nbTests)
    else NoValue
  }

  /**
    Varying never turns a succeeding cpu test into a failing one or back,
    and never lowers its count.
  */
  lemma CpuVaryKeepsOutcome(step: int, c: CpuContext)
    ensures CpuEncodeStressTest(CpuEstVary(step, c)).0 == CpuEncodeStressTest(c).0
    ensures CpuEstVary(step, c).nbTests >= c.nbTests
  {
    if c.nbTests > 0 && step > 0 {
      assert c.nbTests * step == c.nbTests + c.nbTests * (step - 1);
    }
  }

  /** `make_cpu_est_context_list`: `nb_threads` copies of `(a_string, nb_tests)`, none for a negative count. */
  method MakeCpuEstContextList(nbThreads: int, text: string, nbTests: int) returns (list: seq<CpuContext>)
    ensures |list| == Count(nbThreads)
    ensures forall i :: 0 <= i < |list| ==> list[i] == CpuContext(text, nbTests)
  {
    list := [];
    var i := 0;
    while i < nbThreads
      invariant 0 <= i && (i <= nbThreads || i == 0) && |list| == i
      invariant forall k :: 0 <= k < i ==> list[k] == CpuContext(text, nbTests)
    {
      list := list + [CpuContext(text, nbTests)];
      i := i + 1;
    }
  }

  /** The functions tuple `cpu_est_init, cpu_encode_stress_test, cpu_est_final, cpu_est_vary, cpu_est_print_c`. */
  function CpuWorkload(): Workload<Context>
  {
    Workload(
      (c: Context) => if c.Cpu? then Cpu(CpuEstInit(c.cpu)) else c,
      (c: Context) => if c.Cpu? then (var r := CpuEncodeStressTest(c.cpu); (r.0, Cpu(r.1))) else (false, c),
      (c: Context) => if c.Cpu? then Cpu(CpuEstFinal(c.cpu)) else c,
      (step: int, c: Context) => if c.Cpu? then Cpu(CpuEstVary(step, c.cpu)) else c,
      (what: string, c: Context) => if c.Cpu? then CpuEstPrintC(what, c.cpu) else NoValue)
  }

  /** Every worker of the test holds `(text, n)`. */
  ghost predicate AllCpu(contexts: seq<Context>, text: string, n: int)
  {
    forall i :: 0 <= i < |contexts| ==> contexts[i] == Cpu(CpuContext(text, n))
  }

  function Power(b: int, k: nat): (r: int)
    ensures b > 0 ==> r > 0
  {
    if k == 0 then 1 else b * Power(b, k - 1)
  }

  /** One varying round of a cpu test with a positive count: it succeeds and every count is multiplied by the step. */
  lemma CpuRoundStep(s: TestState<Context>, text: string, n: int, step: int, clock: (nat, nat) -> Timing)
    requires s.result && n > 0 && step > 0 && AllCpu(s.contexts, text, n)
    ensures var r := Once(ProcessWorker(CpuWorkload(), step, clock), s, true);
      r.result && |r.times| == |s.times| + 1 && r.times[..|s.times|] == s.times &&
      AllCpu(r.contexts, text, n * step) && |r.contexts| == |s.contexts|
  {
    var worker := ProcessWorker(CpuWorkload(), step, clock);
    var r := Once(worker, s, true);
    forall i | 0 <= i < |s.contexts|
      ensures worker(|s.times|, i, true, s.contexts[i]).ok
      ensures worker(|s.times|, i, true, s.contexts[i]).context == Cpu(CpuContext(text, n * step))
    {
      var c := Cpu(CpuContext(text, n));
      assert s.contexts[i] == c;
      assert worker(|s.times|, i, true, c) == RunWorker(CpuWorkload(), step, true, c, clock(|s.times|, i));
      assert CpuWorkload().init(c) == c;
      assert CpuWorkload().exec(c) == (true, c);
      assert CpuWorkload().final(c) == c;
      assert CpuWorkload().vary(step, c) == Cpu(CpuContext(text, n * step));
    }
  }

  /**
    `start_vary(k)` on a cpu test whose workers all hold a positive count:
    it never fails, appends exactly `k` rounds, and leaves every count
    multiplied by `step` to the power `k - 1` (the last round does not vary).
  */
  lemma {:induction false} CpuVaryScenario(s: TestState<Context>, text: string, n: int, step: int,
                                           clock: (nat, nat) -> Timing, k: nat)
    requires s.result && n > 0 && step > 0 && AllCpu(s.contexts, text, n)
    ensures var r := Vary(ProcessWorker(CpuWorkload(), step, clock), s, k + 1);
      r.result && |r.times| == |s.times| + k + 1 && AllCpu(r.contexts, text, n * Power(step, k))
  {
    var worker := ProcessWorker(CpuWorkload(), step, clock);
    VaryIsRepeatThenFinal(worker, s, k + 1);
    var p := Repeat(worker, s, k);
    CpuRepeat(s, text, n, step, clock, k);
    var r := Once(worker, p, false);
    forall i | 0 <= i < |p.contexts|
      ensures worker(|p.times|, i, false, p.contexts[i]).ok
      ensures worker(|p.times|, i, false, p.contexts[i]).context == p.contexts[i]
    {
      var c := Cpu(CpuContext(text, n * Power(step, k)));
      assert p.contexts[i] == c;
      assert worker(|p.times|, i, false, c) == RunWorker(CpuWorkload(), step, false, c, clock(|p.times|, i));
      assert n * Power(step, k) > 0;
      assert CpuWorkload().init(c) == c;
      assert CpuWorkload().exec(c) == (true, c);
      assert CpuWorkload().final(c) == c;
    }
  }

  /** `k` varying rounds of a cpu test with a positive count. */
  lemma {:induction false} CpuRepeat(s: TestState<Context>, text: string, n: int, step: int,
                                     clock: (nat, nat) -> Timing, k: nat)
    requires s.result && n > 0 && step > 0 && AllCpu(s.contexts, text, n)
    ensures var r := Repeat(ProcessWorker(CpuWorkload(), step, clock), s, k);
      r.result && |r.times| == |s.times| + k && AllCpu(r.contexts, text, n * Power(step, k)) && n * Power(step, k) > 0
    decreases k
  {
    var worker := ProcessWorker(CpuWorkload(), step, clock);
    if k == 0 {
      assert n * Power(step, 0) == n;
    } else {
      CpuRoundStep(s, text, n, step, clock);
      var s1 := Once(worker, s, true);
      assert n * step > 0;
      CpuRepeat(s1, text, n * step, step, clock, k - 1);
      assert Repeat(worker, s, k) == Repeat(worker, s1, k - 1);
      var p := Power(step, k - 1);
      assert Power(step, k) == step * p;
      assert n * step * p == n * (step * p);
    }
  }

  /** The string the cpu encode test works on. */
  const CpuText: string :=
    "This is an example string to be computed by the alogrithm in\n" +
    "    order to do some cpu cycles to load it a bit. It is not supposed to consume\n" +
    "    memory. If one sees a bug, please report to the author or current\n" +
    "    maintainer"

  /**
    `Cpu_Tests`: the suite 'CPU', holding the 'Cpu encode stress' test
    (20000 encodings per worker) only when there is at least one worker.
  */
  method CpuTests(nbThreads: int, step: int, debug: bool) returns (suite: TestSuite<Context>)
    ensures fresh(suite) && suite.name == "CPU" && suite.description == "Cpu related tests"
    ensures |suite.testlist| == (if nbThreads > 0 then 1 else 0) && suite.Distinct()
    ensures nbThreads > 0 ==> var t := suite.testlist[0];
      fresh(t) && t.step == step && t.debug == debug && t.Valid() &&
      t.name == "Cpu encode stress" &&
      t.description == "Stress the cpu(s) with base64 and rot13 functions" &&
      t.workload == CpuWorkload() &&
      |t.contextList| == nbThreads && AllCpu(t.contextList, CpuText, 20000) &&
      t.State() == TestState(t.contextList, [], true)
  {
    suite := new TestSuite("CPU", "Cpu related tests");
    var contextList := MakeCpuEstContextList(nbThreads, CpuText, 20000);
    if contextList != [] {
      var cest := new Test("Cpu encode stress", "Stress the cpu(s) with base64 and rot13 functions",
        CpuWorkload(), AsCpu(contextList), step, debug);
      suite.AddTest(cest);
    }
  }
}
