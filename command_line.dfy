/**
  The command line of `stresssuite`: the `Options` object, `getopt`'s
  pairs folded into it by `parse_command_line`, and the choice `main`
  makes from the result.
*/
module CommandLine {
  import opened Wrappers
  import opened PyText

  /** A value, or the status `sys.exit` is called with. */
  datatype Outcome<T> = Done(value: T) | Exit(code: int)

  /** The fields of an `Options` object. */
  datatype Settings = Settings(
    runs: int, printStats: bool, debug: bool, list: bool,
    testname: string, testsuite: string, basePath: string,
    nbThreads: int, step: int, bufferSize: int, gnuplot: string)

  /** The values `Options.__init__` sets. */
  const Defaults := Settings(0, true, false, false, "", "", "/tmp", 1, 2, 512, "")

  /** `Options`: the settings `parse_command_line` fills in. */
  class Options {
    var runs: int
    var printStats: bool
    var debug: bool
    var list: bool
    var testname: string
    var testsuite: string
    var basePath: string
    var nbThreads: int
    var step: int
    var bufferSize: int
    var gnuplot: string

    function Current(): Settings
      reads this
    {
      Settings(runs, printStats, debug, list, testname, testsuite, basePath, nbThreads, step, bufferSize, gnuplot)
    }

    constructor ()
      ensures Current() == Defaults
    {
      runs := 0;
      printStats := true;
      debug := false;
      list := false;
      testname := "";
      testsuite := "";
      basePath := "/tmp";
      nbThreads := 1;
      step := 2;
      bufferSize := 512;
      gnuplot := "";
    }

    /** Replaces every field by the given settings. */
    method Set(s: Settings)
      modifies this
      ensures Current() == s
    {
      runs, printStats, debug, list := s.runs, s.printStats, s.debug, s.list;
      testname, testsuite, basePath := s.testname, s.testsuite, s.basePath;
      nbThreads, step, bufferSize, gnuplot := s.nbThreads, s.step, s.bufferSize, s.gnuplot;
    }
  }

  /**
    `transform_to_int(opt, arg)`: the integer `arg` spells when it is
    positive; exit status 2 when it is not an integer or not positive.
  */
  function TransformToInt(arg: string): (r: Outcome<int>)
    ensures r.Done? <==> ParseInt(arg).Some? && ParseInt(arg).value > 0
    ensures r.Done? ==> r.value == ParseInt(arg).value
    ensures r.Exit? ==> r.code == 2
  {
    match ParseInt(arg)
    case None => Exit(2)
    case Some(n) => if n > 0 then Done(n) else Exit(2)
  }

  /** A number written the way `str` writes it is read back when positive and refused otherwise. */
  lemma TransformToIntOfIntToString(n: int)
    ensures TransformToInt(IntToString(n)) == if n > 0 then Done(n) else Exit(2)
  {
    ParseIntOfIntToString(n);
  }

  /** `--threads='+ 5'` asks for five threads: `int()` skips whitespace after the sign. */
  lemma TransformToIntSpacedSign()
    ensures TransformToInt("+ 5") == Done(5)
  {
    var t := "+ 5";
    assert t[2..] == "5";
    ParseIntSpacedSign(t, 2);
  }

  /** `a in b` for two Python strings, scanning `b` from the left. */
  function Occurs(a: string, b: string): bool
    decreases |b|
  {
    if |a| > |b| then false
    else if b[..|a|] == a then true
    else |b| > 0 && Occurs(a, b[1..])
  }

  /** `a` is the slice of `b` starting at `i`. */
  ghost predicate SliceAt(a: string, b: string, i: int)
  {
    0 <= i <= |b| - |a| && b[i..i + |a|] == a
  }

  /** The scan finds `a` exactly when `a` is a slice of `b`. */
  lemma {:induction false} OccursIsSlice(a: string, b: string)
    ensures Occurs(a, b) <==> exists i :: SliceAt(a, b, i)
    decreases |b|
  {
    if |a| <= |b| && b[..|a|] == a {
      assert SliceAt(a, b, 0);
    } else if |a| <= |b| && |b| > 0 {
      OccursIsSlice(a, b[1..]);
      forall i | 0 < i
        ensures SliceAt(a, b, i) <==> SliceAt(a, b[1..], i - 1)
      {
        SliceShift(a, b, i);
      }
      if Occurs(a, b[1..]) {
        var i :| SliceAt(a, b[1..], i);
        assert SliceAt(a, b, i + 1);
      }
    }
  }

  /** Dropping the first character of `b` shifts every slice position down by one. */
  lemma SliceShift(a: string, b: string, i: int)
    requires 0 < i && |b| > 0
    ensures SliceAt(a, b, i) <==> SliceAt(a, b[1..], i - 1)
  {
    if i <= |b| - |a| {
      assert b[1..][i - 1..i - 1 + |a|] == b[i..i + |a|];
    }
  }

  /** What one option does to the settings. */
  datatype Action =
    | ShowHelp | ListAll | RunOnce | NoStats | RunMultiple | DebugOn
    | SetTestName | SetTestSuite | SetPath | SetThreads | SetStep | SetBufferSize | SetGnuplot
    | Ignore

  /**
    The branch of `parse_command_line` an option name takes. The branches
    written with a one-element "tuple" (`opt in ('--testname')`) are tests
    of `opt` occurring in that string, not of equality.
  */
  function Classify(opt: string): Action
  {
    if opt == "-h" || opt == "--help" then ShowHelp
    else if opt == "-l" || opt == "--list" then ListAll
    else if opt == "-o" || opt == "--once" then RunOnce
    else if opt == "-n" || opt == "--no-stats" then NoStats
    else if opt == "-m" || opt == "--multiple" then RunMultiple
    else if opt == "-d" || opt == "--debug" then DebugOn
    else if Occurs(opt, "--testname") then SetTestName
    else if Occurs(opt, "--testsuite") then SetTestSuite
    else if opt == "-p" || opt == "--path" then SetPath
    else if Occurs(opt, "--threads") then SetThreads
    else if opt == "-s" || opt == "--step" then SetStep
    else if Occurs(opt, "--buffer-size") then SetBufferSize
    else if Occurs(opt, "--gnuplot") then SetGnuplot
    else Ignore
  }

  /** One `(opt, arg)` pair of the `for` loop of `parse_command_line`. */
  function ParseStep(s: Settings, opt: string, arg: string): (r: Outcome<Settings>)
  {
    match Classify(opt)
    case ShowHelp => Exit(0)
    case ListAll => Done(s.(list := true))
    case RunOnce => Done(s.(runs := 1))
    case NoStats => Done(s.(printStats := false))
    case RunMultiple =>
      (match TransformToInt(arg) case Done(n) => Done(s.(runs := n)) case Exit(c) => Exit(c))
    case DebugOn => Done(s.(debug := true))
    case SetTestName => Done(s.(testname := arg))
    case SetTestSuite => Done(s.(testsuite := arg))
    case SetPath => Done(s.(basePath := arg))
    case SetThreads =>
      (match TransformToInt(arg) case Done(n) => Done(s.(nbThreads := n)) case Exit(c) => Exit(c))
    case SetStep =>
      (match TransformToInt(arg) case Done(n) => Done(s.(step := n)) case Exit(c) => Exit(c))
    case SetBufferSize =>
      (match TransformToInt(arg) case Done(n) => Done(s.(bufferSize := n)) case Exit(c) => Exit(c))
    case SetGnuplot => Done(s.(gnuplot := arg))
    case Ignore => Done(s)
  }

  /** The whole loop: the pairs in order, stopping at the first exit. */
  function ParseAll(s: Settings, opts: seq<(string, string)>): Outcome<Settings>
    decreases |opts|
  {
    if opts == [] then Done(s)
    else match ParseStep(s, opts[0].0, opts[0].1)
      case Exit(c) => Exit(c)
      case Done(t) => ParseAll(t, opts[1..])
  }

  /** The options parsed in two pieces: the second piece starts from what the first left. */
  lemma {:induction false} ParseAllAppend(s: Settings, a: seq<(string, string)>, b: seq<(string, string)>)
    ensures ParseAll(s, a + b) == match ParseAll(s, a) case Exit(c) => Exit(c) case Done(t) => ParseAll(t, b)
    decreases |a|
  {
    if a == [] {
      assert a + b == b;
    } else {
      assert (a + b)[0] == a[0];
      assert (a + b)[1..] == a[1..] + b;
      match ParseStep(s, a[0].0, a[0].1)
      case Exit(c) =>
      case Done(t) => ParseAllAppend(t, a[1..], b);
    }
  }

  /**
    When `-o` and `-m` are both given, the last one decides the number of
    runs; `--help` anywhere after options that parsed ends with status 0.
  */
  lemma LastRunOptionWins(s: Settings, opts: seq<(string, string)>, arg: string, rest: seq<(string, string)>)
    requires ParseAll(s, opts).Done?
    ensures ParseAll(s, opts + [("-o", "")]) == Done(ParseAll(s, opts).value.(runs := 1))
    ensures ParseAll(s, opts + [("-m", arg)]) ==
      match TransformToInt(arg) case Done(n) => Done(ParseAll(s, opts).value.(runs := n)) case Exit(c) => Exit(2)
    ensures ParseAll(s, opts + [("-h", "")] + rest) == Exit(0)
  {
    var t := ParseAll(s, opts).value;
    RunAndHelpSteps(t, arg);
    ParseAllAppend(s, opts, [("-o", "")]);
    assert ParseAll(t, [("-o", "")]) == Done(t.(runs := 1));
    ParseAllAppend(s, opts, [("-m", arg)]);
    assert ParseAll(t, [("-m", arg)]) == ParseStep(t, "-m", arg);
    ParseAllAppend(s, opts + [("-h", "")], rest);
    ParseAllAppend(s, opts, [("-h", "")]);
    assert ParseAll(t, [("-h", "")]) == Exit(0);
  }

  /** The three options of the lemma above, taken one at a time. */
  lemma RunAndHelpSteps(t: Settings, arg: string)
    ensures ParseStep(t, "-o", "") == Done(t.(runs := 1))
    ensures ParseStep(t, "-m", arg) ==
      match TransformToInt(arg) case Done(n) => Done(t.(runs := n)) case Exit(c) => Exit(2)
    ensures ParseStep(t, "-h", "") == Exit(0)
  {
    assert Classify("-h") == ShowHelp;
    assert Classify("-o") == RunOnce;
    assert Classify("-m") == RunMultiple;
  }

  /** What one parsed option leaves of the run count and the list flag. */
  lemma StepKeeps(s: Settings, opt: string, arg: string)
    requires ParseStep(s, opt, arg).Done?
    ensures ParseStep(s, opt, arg).value.list == (s.list || Classify(opt) == ListAll)
    ensures Classify(opt) != RunOnce && Classify(opt) != RunMultiple ==> ParseStep(s, opt, arg).value.runs == s.runs
    ensures ParseStep(s, opt, arg).value.testname == if Classify(opt) == SetTestName then arg else s.testname
  {
    match Classify(opt)
    case ShowHelp =>
    case ListAll =>
    case RunOnce =>
    case NoStats =>
    case RunMultiple =>
    case DebugOn =>
    case SetTestName =>
    case SetTestSuite =>
    case SetPath =>
    case SetThreads =>
    case SetStep =>
    case SetBufferSize =>
    case SetGnuplot =>
    case Ignore =>
  }

  /** Without `-o` or `-m` the number of runs stays what it was: 0 by default, so nothing runs. */
  lemma {:induction false} RunsNeedRunOption(s: Settings, opts: seq<(string, string)>)
    requires forall k :: 0 <= k < |opts| ==> Classify(opts[k].0) != RunOnce && Classify(opts[k].0) != RunMultiple
    requires ParseAll(s, opts).Done?
    ensures ParseAll(s, opts).value.runs == s.runs
    decreases |opts|
  {
    if opts != [] {
      var t := ParseStep(s, opts[0].0, opts[0].1);
      StepKeeps(s, opts[0].0, opts[0].1);
      assert forall k :: 0 <= k < |opts[1..]| ==> opts[1..][k] == opts[k + 1];
      RunsNeedRunOption(t.value, opts[1..]);
    }
  }

  /** Once a `-l`/`--list` option has parsed, the list flag stays set whatever follows. */
  lemma {:induction false} ListIsSticky(s: Settings, opts: seq<(string, string)>)
    requires ParseAll(s, opts).Done?
    requires s.list || exists k :: 0 <= k < |opts| && Classify(opts[k].0) == ListAll
    ensures ParseAll(s, opts).value.list
    decreases |opts|
  {
    if opts != [] {
      var t := ParseStep(s, opts[0].0, opts[0].1);
      StepKeeps(s, opts[0].0, opts[0].1);
      if !t.value.list {
        var k :| 0 <= k < |opts| && Classify(opts[k].0) == ListAll;
        assert opts[1..][k - 1] == opts[k];
      }
      ListIsSticky(t.value, opts[1..]);
    }
  }

  /**
    `parse_command_line(my_opts)`: `getopt` either fails (status 2) or
    yields the pairs, which update the options in order until an option
    exits.
  */
  method ParseCommandLine(myOpts: Options, parsed: Option<seq<(string, string)>>) returns (exit: Option<int>)
    modifies myOpts
    ensures parsed.None? ==> exit == Some(2)
    ensures parsed.Some? ==> match ParseAll(old(myOpts.Current()), parsed.value)
      case Exit(c) => exit == Some(c)
      case Done(t) => exit.None? && myOpts.Current() == t
  {
    if parsed.None? {
      return Some(2);
    }
    var opts := parsed.value;
    for i := 0 to |opts|
      invariant ParseAll(myOpts.Current(), opts[i..]) == ParseAll(old(myOpts.Current()), opts)
    {
      assert opts[i..][0] == opts[i] && opts[i..][1..] == opts[i + 1..];
      var (opt, arg) := opts[i];
      match ParseStep(myOpts.Current(), opt, arg)
      case Exit(c) =>
        return Some(c);
      case Done(t) =>
        myOpts.Set(t);
    }
    assert opts[|opts|..] == [];
    return None;
  }

  /** What `main` does once the options are parsed. */
  datatype Selection = ListSuites | OneTest(testname: string) | OneSuite(testsuite: string) | EverySuite

  /** `--list` prevails over the rest, then `--testname`, then `--testsuite`. */
  function Select(s: Settings): Selection
  {
    if s.list then ListSuites
    else if s.testname != "" then OneTest(s.testname)
    else if s.testsuite != "" then OneSuite(s.testsuite)
    else EverySuite
  }

  /** Given anywhere on the command line, `--list` prevails over every other selection. */
  lemma ListPrevails(s: Settings, opts: seq<(string, string)>, k: nat)
    requires ParseAll(s, opts).Done?
    requires k < |opts| && Classify(opts[k].0) == ListAll
    ensures Select(ParseAll(s, opts).value) == ListSuites
  {
    ListIsSticky(s, opts);
  }

  /**
    Whatever the order of the options, with no `--list` the last
    `--testname`, when it names a test, selects that test, overriding
    `--testsuite` wherever that was given.
  */
  lemma TestnamePrevails(s: Settings, opts: seq<(string, string)>, k: nat)
    requires ParseAll(s, opts).Done? && !s.list
    requires forall i :: 0 <= i < |opts| ==> Classify(opts[i].0) != ListAll
    requires k < |opts| && Classify(opts[k].0) == SetTestName && opts[k].1 != ""
    requires forall i :: k < i < |opts| ==> Classify(opts[i].0) != SetTestName
    ensures Select(ParseAll(s, opts).value) == OneTest(opts[k].1)
  {
    ParseAllAt(s, opts, k);
    var t := ParseAll(s, opts[..k]).value;
    ParseAllKeeps(s, opts[..k]);
    StepKeeps(t, opts[k].0, opts[k].1);
    var u := ParseStep(t, opts[k].0, opts[k].1).value;
    ParseAllKeeps(u, opts[k + 1..]);
    var r := ParseAll(u, opts[k + 1..]).value;
    assert !r.list && r.testname == opts[k].1;
  }

  /** The options parsed around the `k`-th: those before it, the `k`-th itself, then the rest. */
  lemma ParseAllAt(s: Settings, opts: seq<(string, string)>, k: nat)
    requires k < |opts| && ParseAll(s, opts).Done?
    ensures ParseAll(s, opts[..k]).Done?
    ensures ParseStep(ParseAll(s, opts[..k]).value, opts[k].0, opts[k].1).Done?
    ensures ParseAll(s, opts) == ParseAll(ParseStep(ParseAll(s, opts[..k]).value, opts[k].0, opts[k].1).value, opts[k + 1..])
  {
    var rest := [opts[k]] + opts[k + 1..];
    assert opts == opts[..k] + rest;
    ParseAllAppend(s, opts[..k], rest);
    assert rest[0] == opts[k] && rest[1..] == opts[k + 1..];
  }

  /** Options that are not `--list` leave `list` as it was, and options that are not `--testname` leave the name. */
  lemma {:induction false} ParseAllKeeps(s: Settings, opts: seq<(string, string)>)
    requires ParseAll(s, opts).Done?
    ensures (forall i :: 0 <= i < |opts| ==> Classify(opts[i].0) != ListAll) ==> ParseAll(s, opts).value.list == s.list
    ensures (forall i :: 0 <= i < |opts| ==> Classify(opts[i].0) != SetTestName) ==> ParseAll(s, opts).value.testname == s.testname
    decreases |opts|
  {
    if opts != [] {
      var t := ParseStep(s, opts[0].0, opts[0].1).value;
      StepKeeps(s, opts[0].0, opts[0].1);
      ParseAllKeeps(t, opts[1..]);
      assert forall i :: 0 <= i < |opts| - 1 ==> opts[1..][i] == opts[i + 1];
    }
  }
}
