/**
  The `stresssuite` program: a `Collection` of suites, the registration
  of the filesystem and cpu suites, and `main`, which parses the command
  line and then lists, runs one test, runs one suite or runs them all.
*/
module Driver {
  import opened Wrappers
  import opened CommandLine
  import opened PyText
  import opened Lookup
  import opened History
  import opened Contexts
  import opened FileTests
  import opened Rounds
  import opened ProcessStress
  import FssThread
  import CpuStress

  /** `Collection`: the suites of the program, in the order they were added. */
  class Collection {
    var suiteList: seq<TestSuite<Context>>
    var debug: bool

    constructor ()
      ensures suiteList == [] && !debug
    {
      suiteList := [];
      debug := false;
    }

    function SuiteNames(): (names: seq<string>)
      reads this
      ensures |names| == |suiteList| && forall k :: 0 <= k < |suiteList| ==> names[k] == suiteList[k].name
    {
      seq(|suiteList|, k requires 0 <= k < |suiteList| reads this => suiteList[k].name)
    }

    /** Every test of every suite. */
    ghost function Tests(): set<Test<Context>>
      reads this, set k | 0 <= k < |suiteList| :: suiteList[k]
    {
      set k, j | 0 <= k < |suiteList| && 0 <= j < |suiteList[k].testlist| :: suiteList[k].testlist[j]
    }

    /** No test sits at two places of the collection, so running one leaves the others alone. */
    ghost predicate Disjoint()
      reads this, set k | 0 <= k < |suiteList| :: suiteList[k]
    {
      forall k1, j1, k2, j2 ::
        0 <= k1 < |suiteList| && 0 <= j1 < |suiteList[k1].testlist| &&
        0 <= k2 < |suiteList| && 0 <= j2 < |suiteList[k2].testlist| && (k1, j1) != (k2, j2) ==>
        suiteList[k1].testlist[j1] != suiteList[k2].testlist[j2]
    }

    /** The test at `(k, j)` is the first of that name, suites in order and tests in order within a suite. */
    ghost predicate FirstTestAt(name: string, k: int, j: int)
      reads this, set k | 0 <= k < |suiteList| :: suiteList[k]
    {
      0 <= k < |suiteList| && 0 <= j < |suiteList[k].testlist| && suiteList[k].testlist[j].name == name &&
      (forall k', j' :: 0 <= k' < k && 0 <= j' < |suiteList[k'].testlist| ==> suiteList[k'].testlist[j'].name != name) &&
      (forall j' :: 0 <= j' < j ==> suiteList[k].testlist[j'].name != name)
    }

    /** Two suites that each hold a test once, and share none, make a disjoint collection. */
    lemma PairDisjoint()
      requires |suiteList| == 2 && suiteList[0].Distinct() && suiteList[1].Distinct()
      requires forall j :: 0 <= j < |suiteList[1].testlist| ==> suiteList[1].testlist[j] !in suiteList[0].testlist
      ensures Disjoint()
    {
      forall k1, j1, k2, j2 |
        0 <= k1 < |suiteList| && 0 <= j1 < |suiteList[k1].testlist| &&
        0 <= k2 < |suiteList| && 0 <= j2 < |suiteList[k2].testlist| && (k1, j1) != (k2, j2)
        ensures suiteList[k1].testlist[j1] != suiteList[k2].testlist[j2]
      {
        if k1 != k2 {
          var a := if k1 == 1 then j1 else j2;
          var b := if k1 == 1 then j2 else j1;
          assert suiteList[1].testlist[a] !in suiteList[0].testlist;
          assert suiteList[0].testlist[b] in suiteList[0].testlist;
        }
      }
    }

    /** At most one place is the first of a name. */
    lemma FirstTestAtUnique(name: string, k1: int, j1: int, k2: int, j2: int)
      requires FirstTestAt(name, k1, j1) && FirstTestAt(name, k2, j2)
      ensures k1 == k2 && j1 == j2
    {
    }

    /** `add_suite`: the suite goes at the end of the list. */
    method AddSuite(suite: TestSuite<Context>)
      modifies this
      ensures suiteList == old(suiteList) + [suite] && debug == old(debug)
    {
      suiteList := suiteList + [suite];
    }

    /** `find_suite_by_name`: the first suite with that name, None when there is none. */
    method FindSuiteByName(name: string) returns (found: Option<TestSuite<Context>>)
      ensures found.None? <==> forall k :: 0 <= k < |suiteList| ==> suiteList[k].name != name
      ensures found == match FirstIndexOf(SuiteNames(), name) case None => None case Some(k) => Some(suiteList[k])
    {
      for k := 0 to |suiteList|
        invariant name !in SuiteNames()[..k]
      {
        if suiteList[k].name == name {
          return Some(suiteList[k]);
        }
      }
      assert SuiteNames()[..|suiteList|] == SuiteNames();
      return None;
    }

    /**
      `find_test_by_name`: the first test with that name, scanning the
      suites in order and each suite's tests in order; None when no suite
      has one.
    */
    method FindTestByName(name: string) returns (found: Option<Test<Context>>)
      ensures found.None? <==> forall k, j :: 0 <= k < |suiteList| && 0 <= j < |suiteList[k].testlist| ==>
        suiteList[k].testlist[j].name != name
      ensures found.Some? ==> exists k, j :: FirstTestAt(name, k, j) && found.value == suiteList[k].testlist[j]
    {
      for k := 0 to |suiteList|
        invariant forall k', j' :: 0 <= k' < k && 0 <= j' < |suiteList[k'].testlist| ==>
          suiteList[k'].testlist[j'].name != name
      {
        var testlist := suiteList[k].testlist;
        for j := 0 to |testlist|
          invariant forall j' :: 0 <= j' < j ==> testlist[j'].name != name
        {
          if testlist[j].name == name {
            assert FirstTestAt(name, k, j);
            return Some(testlist[j]);
          }
        }
      }
      return None;
    }

    /** The tests `run_one_stress_suite_vary(name)` runs: those of the first suite of that name. */
    ghost function SelectedTests(name: string): seq<Test<Context>>
      reads this, set k | 0 <= k < |suiteList| :: suiteList[k]
    {
      match FirstIndexOf(SuiteNames(), name)
      case None => []
      case Some(k) => suiteList[k].testlist
    }

    /**
      `run_one_stress_suite_vary(name, nb_times)`: `start_vary(nb_times)`
      on each test of the first suite of that name; nothing when there is
      no such suite.
    */
    method RunOneStressSuiteVary(name: string, nbTimes: int, clocks: nat -> ((nat, nat) -> Timing))
      modifies Tests()
      ensures suiteList == old(suiteList) && debug == old(debug)
      ensures forall t :: t in old(Tests()) && t !in old(SelectedTests(name)) ==> t.State() == old(t.State())
      ensures match FirstIndexOf(SuiteNames(), name)
        case None => true
        case Some(k) => suiteList[k].Distinct() ==> forall j :: 0 <= j < |suiteList[k].testlist| ==>
          suiteList[k].testlist[j].State() ==
            Vary(suiteList[k].testlist[j].Worker(clocks(j)), old(suiteList[k].testlist[j].State()), Count(nbTimes))
    {
      var found := FindSuiteByName(name);
      if found.Some? {
        found.value.RunTestSuiteOnceVary(nbTimes, clocks);
      }
    }

    /** `run_all_stress_suites_vary(nb_times)`: every suite in order, each test `start_vary(nb_times)`. */
    method RunAllStressSuitesVary(nbTimes: int, clocks: nat -> nat -> ((nat, nat) -> Timing))
      modifies Tests()
      ensures suiteList == old(suiteList) && debug == old(debug)
      ensures old(Disjoint()) ==> forall k, j :: 0 <= k < |suiteList| && 0 <= j < |suiteList[k].testlist| ==>
        suiteList[k].testlist[j].State() == Ran(old(suiteList[k].testlist[j].State()), suiteList[k].testlist[j], nbTimes, clocks(k)(j))
    {
      ghost var disjoint := Disjoint();
      for k := 0 to |suiteList|
        invariant disjoint ==> forall k', j :: 0 <= k' < k && 0 <= j < |suiteList[k'].testlist| ==>
          suiteList[k'].testlist[j].State() == Ran(old(suiteList[k'].testlist[j].State()), suiteList[k'].testlist[j], nbTimes, clocks(k')(j))
        invariant disjoint ==> forall k', j :: k <= k' < |suiteList| && 0 <= j < |suiteList[k'].testlist| ==>
          suiteList[k'].testlist[j].State() == old(suiteList[k'].testlist[j].State())
      {
        RunSuiteAt(k, nbTimes, clocks(k));
      }
    }

    /** One suite of a disjoint collection run: its tests vary, the tests of the other suites stay as they were. */
    method RunSuiteAt(k: nat, nbTimes: int, clocks: nat -> ((nat, nat) -> Timing))
      requires k < |suiteList|
      modifies suiteList[k].testlist
      ensures old(Disjoint()) ==> forall j :: 0 <= j < |suiteList[k].testlist| ==>
        suiteList[k].testlist[j].State() == Ran(old(suiteList[k].testlist[j].State()), suiteList[k].testlist[j], nbTimes, clocks(j))
      ensures old(Disjoint()) ==> forall k', j :: 0 <= k' < |suiteList| && k' != k && 0 <= j < |suiteList[k'].testlist| ==>
        suiteList[k'].testlist[j].State() == old(suiteList[k'].testlist[j].State())
    {
      if Disjoint() {
        assert suiteList[k].Distinct();
        OthersUntouched(k);
      }
      suiteList[k].RunTestSuiteOnceVary(nbTimes, clocks);
    }

    /** What `start_vary(nb_times)` makes of a test's state. */
    static ghost function Ran(s: TestState<Context>, t: Test<Context>, nbTimes: int, clock: (nat, nat) -> Timing): TestState<Context>
    {
      Vary(t.Worker(clock), s, Count(nbTimes))
    }

    /** In a disjoint collection, no test of another suite is in suite `k`. */
    lemma OthersUntouched(k: int)
      requires Disjoint() && 0 <= k < |suiteList|
      ensures forall k', j :: 0 <= k' < |suiteList| && k' != k && 0 <= j < |suiteList[k'].testlist| ==>
        suiteList[k'].testlist[j] !in suiteList[k].testlist
    {
    }

    /** `set_debug_mode(debug)`: the collection and every test of every suite get the flag; nothing else changes. */
    method SetDebugMode(debug: bool)
      modifies this, Tests()
      ensures this.debug == debug && suiteList == old(suiteList)
      ensures forall k, j :: 0 <= k < |suiteList| && 0 <= j < |suiteList[k].testlist| ==> suiteList[k].testlist[j].debug == debug
      ensures forall t :: t in old(Tests()) ==> t.State() == old(t.State())
    {
      this.debug := debug;
      for k := 0 to |suiteList|
        invariant this.debug == debug && suiteList == old(suiteList)
        invariant forall k', j :: 0 <= k' < k && 0 <= j < |suiteList[k'].testlist| ==> suiteList[k'].testlist[j].debug == debug
        invariant forall t :: t in old(Tests()) ==> t.State() == old(t.State())
      {
        suiteList[k].SetDebugMode(debug);
      }
    }
  }

  /**
    `init_all_tests`: the filesystem suite, then the cpu suite, added to
    the collection; in a new collection every test sits at one place.
  */
  method InitAllTests(collec: Collection, basePath: string, nbThreads: int, step: int, debug: bool, bufferSize: int,
                      fs: FileSystem)
    modifies collec
    ensures |collec.suiteList| == |old(collec.suiteList)| + 2
    ensures collec.suiteList[..|old(collec.suiteList)|] == old(collec.suiteList) && collec.debug == old(collec.debug)
    ensures var files := collec.suiteList[|old(collec.suiteList)|];
      fresh(files) && files.name == "Files" && |files.testlist| == (if bufferSize > 0 then 3 else 2)
    ensures var cpu := collec.suiteList[|old(collec.suiteList)| + 1];
      fresh(cpu) && cpu.name == "CPU" && |cpu.testlist| == (if nbThreads > 0 then 1 else 0)
    ensures old(collec.suiteList) == [] ==> collec.Disjoint()
    ensures old(collec.suiteList) == [] ==> forall k, j :: 0 <= k < 2 && 0 <= j < |collec.suiteList[k].testlist| ==>
      fresh(collec.suiteList[k].testlist[j])
  {
    var stressfs, stresscpu := BuildSuites(basePath, nbThreads, step, debug, bufferSize, fs);
    collec.AddSuite(stressfs);
    collec.AddSuite(stresscpu);
    if old(collec.suiteList) == [] {
      collec.PairDisjoint();
    }
  }

  /** The two suites `init_all_tests` builds, as far as the collection needs them. */
  method BuildSuites(basePath: string, nbThreads: int, step: int, debug: bool, bufferSize: int, fs: FileSystem)
    returns (stressfs: TestSuite<Context>, stresscpu: TestSuite<Context>)
    ensures fresh(stressfs) && stressfs.name == "Files" && |stressfs.testlist| == (if bufferSize > 0 then 3 else 2)
    ensures fresh(stresscpu) && stresscpu.name == "CPU" && |stresscpu.testlist| == (if nbThreads > 0 then 1 else 0)
    ensures stressfs.Distinct() && stresscpu.Distinct()
    ensures forall j :: 0 <= j < |stressfs.testlist| ==> fresh(stressfs.testlist[j])
    ensures forall j :: 0 <= j < |stresscpu.testlist| ==> fresh(stresscpu.testlist[j])
    ensures forall j :: 0 <= j < |stresscpu.testlist| ==> stresscpu.testlist[j] !in stressfs.testlist
  {
    stressfs := BuildFilesSuite(basePath, nbThreads, step, debug, bufferSize, fs);
    stresscpu := BuildCpuSuite(nbThreads, step, debug);
  }

  /** `FileSystem_Tests`, as far as the collection needs it. */
  method BuildFilesSuite(basePath: string, nbThreads: int, step: int, debug: bool, bufferSize: int, fs: FileSystem)
    returns (stressfs: TestSuite<Context>)
    ensures fresh(stressfs) && stressfs.name == "Files" && |stressfs.testlist| == (if bufferSize > 0 then 3 else 2)
    ensures stressfs.Distinct()
    ensures forall j :: 0 <= j < |stressfs.testlist| ==> fresh(stressfs.testlist[j])
  {
    stressfs := FssThread.FileSystemTests(basePath, nbThreads, step, debug, bufferSize, fs);
  }

  /** `Cpu_Tests`, as far as the collection needs it. */
  method BuildCpuSuite(nbThreads: int, step: int, debug: bool) returns (stresscpu: TestSuite<Context>)
    ensures fresh(stresscpu) && stresscpu.name == "CPU" && |stresscpu.testlist| == (if nbThreads > 0 then 1 else 0)
    ensures stresscpu.Distinct()
    ensures forall j :: 0 <= j < |stresscpu.testlist| ==> fresh(stresscpu.testlist[j])
  {
    stresscpu := CpuStress.CpuTests(nbThreads, step, debug);
  }

  /** How the program ends: through `sys.exit` with a status, or by running to the end of `main`. */
  datatype Status = Exited(code: int) | Finished

  /**
    The part of `main` after the collection is built: `--list` exits with
    status 0 before anything runs; otherwise `start_vary(runs)` on the
    first test named by `--testname` (the run reads `clocks(0)(0)`), or
    the first suite named by `--testsuite`, or every suite. A name that
    matches nothing runs nothing.
  */
  method RunSelection(collec: Collection, t: Settings, clocks: nat -> nat -> ((nat, nat) -> Timing))
    returns (status: Status, ran: Option<Test<Context>>)
    modifies collec.Tests()
    ensures status == if t.list then Exited(0) else Finished
    ensures collec.suiteList == old(collec.suiteList)
    ensures ran.Some? ==> (Select(t).OneTest? &&
      exists k, j :: collec.FirstTestAt(t.testname, k, j) && ran.value == collec.suiteList[k].testlist[j])
    ensures Select(t).OneTest? && ran.None? ==> forall k, j ::
      0 <= k < |collec.suiteList| && 0 <= j < |collec.suiteList[k].testlist| ==> collec.suiteList[k].testlist[j].name != t.testname
    ensures ran.Some? ==> ran.value.State() == Vary(ran.value.Worker(clocks(0)(0)), old(ran.value.State()), Count(t.runs))
    ensures Select(t).ListSuites? || Select(t).OneTest? ==>
      forall x :: x in old(collec.Tests()) && (ran.None? || x != ran.value) ==> x.State() == old(x.State())
    ensures Select(t).OneSuite? ==> (
      forall x :: x in old(collec.Tests()) && x !in old(collec.SelectedTests(t.testsuite)) ==> x.State() == old(x.State()))
    ensures Select(t).OneSuite? ==> match FirstIndexOf(collec.SuiteNames(), t.testsuite)
      case None => true
      case Some(k) => var s := collec.suiteList[k]; s.Distinct() ==> forall j :: 0 <= j < |s.testlist| ==>
        s.testlist[j].State() == Vary(s.testlist[j].Worker(clocks(0)(j)), old(s.testlist[j].State()), Count(t.runs))
    ensures Select(t).EverySuite? ==> old(collec.Disjoint()) ==> forall k, j ::
      0 <= k < |collec.suiteList| && 0 <= j < |collec.suiteList[k].testlist| ==>
        var x := collec.suiteList[k].testlist[j];
        x.State() == Vary(x.Worker(clocks(k)(j)), old(x.State()), Count(t.runs))
  {
    ran := None;
    if t.list {
      return Exited(0), None;
    }
    status := Finished;
    if t.testname != "" {
      var aTest := collec.FindTestByName(t.testname);
      if aTest.Some? {
        aTest.value.StartVary(t.runs, clocks(0)(0));
        ran := aTest;
      }
    } else if t.testsuite != "" {
      collec.RunOneStressSuiteVary(t.testsuite, t.runs, clocks(0));
    } else {
      collec.RunAllStressSuitesVary(t.runs, clocks);
    }
  }

  /**
    `main`: parse the command line, register the suites (the options'
    base path, thread count, step, debug flag and buffer size), switch
    the collection to debug mode when asked, then run the selection.
  */
  method RunProgram(parsed: Option<seq<(string, string)>>, fs: FileSystem, clocks: nat -> nat -> ((nat, nat) -> Timing))
    returns (status: Status)
    ensures parsed.None? ==> status == Exited(2)
    ensures parsed.Some? ==> match ParseAll(Defaults, parsed.value)
      case Exit(c) => status == Exited(c)
      case Done(t) => status == if t.list then Exited(0) else Finished
  {
    var myOpts := new Options();
    var collec := new Collection();
    var exit := ParseCommandLine(myOpts, parsed);
    if exit.Some? {
      return Exited(exit.value);
    }
    var t := myOpts.Current();
    InitAllTests(collec, t.basePath, t.nbThreads, t.step, t.debug, t.bufferSize, fs);
    if t.debug {
      collec.SetDebugMode(true);
    }
    var ran;
    status, ran := RunSelection(collec, t, clocks);
  }
}
