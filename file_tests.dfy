/**
  The filesystem workloads common to both suites: the directory and
  empty-file creation tests, `write_to_the_file`, `make_buffer`, the init,
  final, vary and print_c functions over `(path, current_path, nb_tests)`
  and the context-list builder. The filesystem is an oracle: it says which
  call raises, by the name it is given.
*/
module FileTests {
  import opened Wrappers
  import opened PyText
  import opened Contract
  import opened Contexts
  import opened Rounds
  import opened ProcessStress

  /**
    What the filesystem answers. `createFails(p)` stands for the
    `os.makedirs(p); os.chdir(p)` retry after a first `os.chdir(p)` failed;
    `writeFails(name, k)` for the k-th write into the file `name`.
  */
  datatype FileSystem = FileSystem(
    cwd: string,
    chdirFails: string -> bool,
    createFails: string -> bool,
    mkdirFails: string -> bool,
    openFails: string -> bool,
    writeFails: (string, nat) -> bool,
    closeFails: string -> bool)

  /** The smallest index below `n` that fails, if any. */
  function FirstFailing(n: int, fails: nat -> bool): (r: Option<nat>)
    ensures r.None? <==> forall i: nat :: i < n ==> !fails(i)
    ensures r.Some? ==> r.value < n && fails(r.value) && forall i: nat :: i < r.value ==> !fails(i)
    decreases if n < 0 then 0 else n
  {
    if n <= 0 then None
    else match FirstFailing(n - 1, fails)
      case Some(k) => Some(k)
      case None => if fails(n - 1) then Some(n - 1) else None
  }

  /** The loop variable `i` after `i = 0; for i in xrange(n): ...`. */
  function LastIndex(n: int): int
  {
    if n <= 0 then 0 else n - 1
  }

  /**
    The verdict of a `make_*_test` loop over `n` indices, where `fails(i)`
    says whether index `i` raised: the flag, and the new `nb_tests`. The
    first failure truncates the count to its index; with none, the flag is
    `i != 0`, so one single index reports False.
  */
  function Verdict(path: string, n: int, fails: nat -> bool): (r: (bool, int))
    ensures r.0 <==> path != "" && n >= 2 && forall i: nat :: i < n ==> !fails(i)
    ensures path == "" ==> r.1 == n
    ensures path != "" ==> (r.1 == n <==> forall i: nat :: i < n ==> !fails(i))
    ensures path != "" && r.1 != n ==>
      0 <= r.1 < n && fails(r.1) && forall i: nat :: i < r.1 ==> !fails(i)
  {
    if path == "" then (false, n)
    else match FirstFailing(n, fails)
      case Some(k) => (false, k)
      case None => (LastIndex(n) != 0, n)
  }

  /** The shared loop of `make_directory_test` and `make_files_test`, with its `first_err` sentinel. */
  method CreationLoop(path: string, nbTests: int, fails: nat -> bool) returns (ok: bool, count: int)
    ensures (ok, count) == Verdict(path, nbTests, fails)
  {
    var firstErr := -1;
    var i := 0;
    if path != "" {
      var k := 0;
      while k < nbTests
        invariant 0 <= k && (k <= nbTests || k == 0)
        invariant i == LastIndex(k)
        invariant firstErr == match FirstFailing(k, fails) case None => -1 case Some(j) => j
      {
        i := k;
        if fails(k) && firstErr == -1 {
          firstErr := k;
        }
        k := k + 1;
      }
      assert k == if nbTests < 0 then 0 else nbTests;
    }
    if firstErr != -1 {
      ok, count := false, firstErr;
    } else {
      ok, count := i != 0, nbTests;
    }
  }

  function DirFails(path: string, fs: FileSystem): nat -> bool
  {
    (i: nat) => fs.mkdirFails(Child(path, i))
  }

  function FileFails(path: string, fs: FileSystem): nat -> bool
  {
    (i: nat) => fs.openFails(Child(path, i)) || fs.closeFails(Child(path, i))
  }

  /** `make_directory_test`: `os.mkdir(path + '/' + str(i))` for each index. */
  function DirectoryTest(c: DirContext, fs: FileSystem): (r: (bool, DirContext))
    ensures r.1 == c.(nbTests := r.1.nbTests)
    ensures r.0 <==> (c.path != "" && c.nbTests >= 2 &&
      forall i: nat :: i < c.nbTests ==> !fs.mkdirFails(Child(c.path, i)))
    ensures c.path == "" ==> r == (false, c)
    ensures c.path != "" ==> (r.1.nbTests == c.nbTests <==>
      forall i: nat :: i < c.nbTests ==> !fs.mkdirFails(Child(c.path, i)))
    ensures r.1.nbTests != c.nbTests ==> (!r.0 && 0 <= r.1.nbTests < c.nbTests &&
      fs.mkdirFails(Child(c.path, r.1.nbTests)) &&
      forall i: nat :: i < r.1.nbTests ==> !fs.mkdirFails(Child(c.path, i)))
  {
    var v := Verdict(c.path, c.nbTests, DirFails(c.path, fs));
    assert forall i: nat :: DirFails(c.path, fs)(i) == fs.mkdirFails(Child(c.path, i));
    (v.0, c.(nbTests := v.1))
  }

  method MakeDirectoryTest(c: DirContext, fs: FileSystem) returns (ok: bool, out: DirContext)
    ensures (ok, out) == DirectoryTest(c, fs)
  {
    var count;
    ok, count := CreationLoop(c.path, c.nbTests, DirFails(c.path, fs));
    out := c.(nbTests := count);
  }

  /** `make_files_test`: open then close `path + '/' + str(i)` for each index. */
  function FilesTest(c: DirContext, fs: FileSystem): (r: (bool, DirContext))
    ensures r.1 == c.(nbTests := r.1.nbTests)
    ensures r.0 <==> (c.path != "" && c.nbTests >= 2 &&
      forall i: nat :: i < c.nbTests ==> !fs.openFails(Child(c.path, i)) && !fs.closeFails(Child(c.path, i)))
    ensures c.path == "" ==> r == (false, c)
    ensures c.path != "" ==> (r.1.nbTests == c.nbTests <==>
      forall i: nat :: i < c.nbTests ==> !fs.openFails(Child(c.path, i)) && !fs.closeFails(Child(c.path, i)))
    ensures r.1.nbTests != c.nbTests ==> (!r.0 && 0 <= r.1.nbTests < c.nbTests &&
      (fs.openFails(Child(c.path, r.1.nbTests)) || fs.closeFails(Child(c.path, r.1.nbTests))) &&
      forall i: nat :: i < r.1.nbTests ==> !fs.openFails(Child(c.path, i)) && !fs.closeFails(Child(c.path, i)))
  {
    var v := Verdict(c.path, c.nbTests, FileFails(c.path, fs));
    assert forall i: nat :: FileFails(c.path, fs)(i) == (fs.openFails(Child(c.path, i)) || fs.closeFails(Child(c.path, i)));
    (v.0, c.(nbTests := v.1))
  }

  method MakeFilesTest(c: DirContext, fs: FileSystem) returns (ok: bool, out: DirContext)
    ensures (ok, out) == FilesTest(c, fs)
  {
    var count;
    ok, count := CreationLoop(c.path, c.nbTests, FileFails(c.path, fs));
    out := c.(nbTests := count);
  }

  /** `k` copies of `buffer`, end to end. */
  function Copies(buffer: string, k: nat): (s: string)
    ensures |s| == k * |buffer|
    ensures forall j :: 0 <= j < |s| ==> s[j] in buffer
  {
    if k == 0 then "" else Copies(buffer, k - 1) + buffer
  }

  function WriteFails(name: string, fs: FileSystem): nat -> bool
  {
    (k: nat) => fs.writeFails(name, k)
  }

  /**
    `write_to_the_file`: the flag, and what the file holds afterwards.
    `file_size / len(buffer)` writes of the whole buffer; the first write
    that raises stops the loop and writes nothing.
  */
  function WriteOutcome(name: string, buffer: string, size: int, fs: FileSystem): (r: (bool, string))
    ensures r.0 <==> size > 0 && |buffer| > 0 && forall k: nat :: k < size / |buffer| ==> !fs.writeFails(name, k)
  {
    assert forall k: nat :: WriteFails(name, fs)(k) == fs.writeFails(name, k);
    if size > 0 && |buffer| > 0 then
      match FirstFailing(size / |buffer|, WriteFails(name, fs))
      case Some(k) => (false, Copies(buffer, k))
      case None => (true, Copies(buffer, size / |buffer|))
    else (false, "")
  }

  /**
    A successful write leaves the file at the largest multiple of the
    buffer length that fits in `file_size`; a failed one leaves it shorter.
  */
  lemma WrittenSize(name: string, buffer: string, size: int, fs: FileSystem)
    ensures var r := WriteOutcome(name, buffer, size, fs);
      r.0 ==> |r.1| == (size / |buffer|) * |buffer| && |r.1| <= size < |r.1| + |buffer|
    ensures var r := WriteOutcome(name, buffer, size, fs);
      !r.0 && |buffer| > 0 && size > 0 ==> |r.1| < (size / |buffer|) * |buffer|
    ensures var r := WriteOutcome(name, buffer, size, fs);
      forall j :: 0 <= j < |r.1| ==> r.1[j] in buffer
  {
    if size > 0 && |buffer| > 0 {
      var b := |buffer|;
      var m := size / b;
      assert size == m * b + size % b;
      match FirstFailing(m, WriteFails(name, fs))
      case Some(k) =>
        assert k * b < m * b by { assert m * b == k * b + (m - k) * b; }
      case None =>
    }
  }

  /** The write loop of `write_to_the_file`. */
  method WriteToTheFile(name: string, buffer: string, size: int, fs: FileSystem) returns (ok: bool, written: string)
    ensures (ok, written) == WriteOutcome(name, buffer, size, fs)
  {
    var bufferSize := |buffer|;
    written := "";
    if size > 0 && bufferSize > 0 {
      var max := size / bufferSize;
      for i := 0 to max
        invariant FirstFailing(i, WriteFails(name, fs)).None?
        invariant written == Copies(buffer, i)
      {
        if fs.writeFails(name, i) {
          assert FirstFailing(i + 1, WriteFails(name, fs)) == Some(i);
          FirstFailingPrefix(i + 1, max, WriteFails(name, fs));
          return false, written;
        }
        written := written + buffer;
      }
      return true, written;
    }
    return false, written;
  }

  /** A failure found among the first `n` indices is the first one among any more. */
  lemma {:induction false} FirstFailingPrefix(n: int, m: int, fails: nat -> bool)
    requires n <= m && FirstFailing(n, fails).Some?
    ensures FirstFailing(m, fails) == FirstFailing(n, fails)
    decreases m - n
  {
    if n < m {
      FirstFailingPrefix(n, m - 1, fails);
    }
  }

  function ZeroFails(path: string, buffer: string, size: int, fs: FileSystem): nat -> bool
  {
    (i: nat) => fs.openFails(Child(path, i)) || !WriteOutcome(Child(path, i), buffer, size, fs).0 ||
      fs.closeFails(Child(path, i))
  }

  /**
    The loop of `make_zero_filed_files_test`: open, `write_to_the_file`,
    close, for each index; `result` keeps the last write's flag, and each
    of the three steps may set `first_err`.
  */
  method FillLoop(path: string, nbTests: int, buffer: string, size: int, fs: FileSystem) returns (ok: bool, count: int)
    ensures (ok, count) == Verdict(path, nbTests, ZeroFails(path, buffer, size, fs))
  {
    var fails := ZeroFails(path, buffer, size, fs);
    var firstErr := -1;
    var i := 0;
    var result := true;
    if path != "" {
      var k := 0;
      while k < nbTests
        invariant 0 <= k && (k <= nbTests || k == 0)
        invariant i == LastIndex(k)
        invariant firstErr == match FirstFailing(k, fails) case None => -1 case Some(j) => j
        invariant !result ==> firstErr != -1
      {
        i := k;
        var name := Child(path, k);
        if fs.openFails(name) {
          if firstErr == -1 {
            firstErr := k;
          }
        } else {
          var content;
          result, content := WriteToTheFile(name, buffer, size, fs);
        }
        if !result && firstErr == -1 {
          firstErr := k;
        }
        if fs.closeFails(name) && firstErr == -1 {
          firstErr := k;
        }
        k := k + 1;
      }
      assert k == if nbTests < 0 then 0 else nbTests;
    }
    if firstErr != -1 {
      ok, count := false, firstErr;
    } else {
      ok, count := i != 0, nbTests;
    }
  }

  /** `make_buffer`: `buffer_size` spaces, one appended per iteration; none for a negative size. */
  method MakeBuffer(bufferSize: int) returns (buffer: string)
    ensures buffer == Spaces(bufferSize)
  {
    buffer := "";
    var i := 0;
    while i < bufferSize
      invariant 0 <= i && (i <= bufferSize || i == 0)
      invariant buffer == Spaces(i)
    {
      buffer := buffer + " ";
      i := i + 1;
    }
  }

  /** Where `init` leaves the test: `path` when it can be entered, or created and entered; '' otherwise. */
  function EnteredPath(path: string, fs: FileSystem): string
  {
    if fs.chdirFails(path) && fs.createFails(path) then "" else path
  }

  /** `fss_tests_init`: records the working directory and enters (or creates) the test directory. */
  function FssTestsInit(c: DirContext, fs: FileSystem): (r: DirContext)
    ensures r.currentPath == fs.cwd && r.nbTests == c.nbTests
    ensures r.path == c.path || r.path == ""
    ensures r.path == "" <==> c.path == "" || (fs.chdirFails(c.path) && fs.createFails(c.path))
  {
    DirContext(EnteredPath(c.path, fs), fs.cwd, c.nbTests)
  }

  /**
    `fss_tests_final`: cleans up and goes back to `current_path`; whether
    the chdir back fails or not, it hands back the context it was given.
  */
  function FssTestsFinal(c: DirContext, fs: FileSystem): (r: DirContext)
    ensures r == c
  {
    if c.currentPath != "" && fs.chdirFails(c.currentPath) then c
    else DirContext(c.path, c.currentPath, c.nbTests)
  }

  /** `fss_tests_vary`: multiplies `nb_tests` by the step. */
  function FssTestsVary(step: int, c: DirContext): (r: DirContext)
    ensures r.path == c.path && r.currentPath == c.currentPath
    ensures r.nbTests == c.nbTests * step
  {
    c.(nbTests := c.nbTests * step)
  }

  /** `fss_print_c`: shaped like `CpuStress.CpuEstPrintC`, with its own 'config' label, over a directory context. */
  function FssPrintC(what: string, c: DirContext): (r: Described)
    ensures what == "print" ==> r == Text("Tests : " + IntToString(c.nbTests))
    ensures what == "config" ==> r == Text("Number of files/directories created")
    ensures what == "vary" ==> r == Number(c.nbTests)
    ensures what != "print" && what != "config" && what != "vary" ==> r == NoValue
  {
    if what == "print" then Text("Tests : " + IntToString(c.nbTests))
    else if what == "config" then Text("Number of files/directories created")
    else if what == "vary" then Number(c.nbTests)
    else NoValue
  }

  /**
    Varying twice is varying once by the product of the steps, and what
    'vary' reports (the x axis of the exports) follows the count.
  */
  lemma FssVaryCompose(a: int, b: int, c: DirContext)
    ensures FssTestsVary(a, FssTestsVary(b, c)) == FssTestsVary(a * b, c)
    ensures FssPrintC("vary", FssTestsVary(a, c)) == Number(a * FssPrintC("vary", c).n)
  {
    assert c.nbTests * b * a == c.nbTests * (a * b);
  }

  /**
    A test whose init could not enter its directory fails without
    touching the filesystem and keeps its count.
  */
  lemma InitFailureFailsTests(c: DirContext, fs: FileSystem)
    requires fs.chdirFails(c.path) && fs.createFails(c.path)
    ensures DirectoryTest(FssTestsInit(c, fs), fs) == (false, FssTestsInit(c, fs))
    ensures FilesTest(FssTestsInit(c, fs), fs) == (false, FssTestsInit(c, fs))
  {
  }

  /**
    `fss_make_context_list`: one context per worker, the i-th working in
    `basepath + '/' + str(i)`, so no two workers share a directory.
  */
  method FssMakeContextList(basepath: string, currentPath: string, nbTimes: int, nbProcess: int)
    returns (list: seq<DirContext>)
    ensures |list| == if nbProcess < 0 then 0 else nbProcess
    ensures forall i :: 0 <= i < |list| ==> list[i] == DirContext(Child(basepath, i), currentPath, nbTimes)
    ensures forall i, j :: 0 <= i < j < |list| ==> list[i].path != list[j].path
  {
    list := [];
    var i := 0;
    while i < nbProcess
      invariant 0 <= i && (i <= nbProcess || i == 0) && |list| == i
      invariant forall k :: 0 <= k < i ==> list[k] == DirContext(Child(basepath, k), currentPath, nbTimes)
    {
      list := list + [DirContext(Child(basepath, i), currentPath, nbTimes)];
      i := i + 1;
    }
    forall i, j | 0 <= i < j < |list|
      ensures list[i].path != list[j].path
    {
      if list[i].path == list[j].path {
        ChildInjective(basepath, i, j);
      }
    }
  }

  /**
    The functions tuple `fss_tests_init, <exec>, fss_tests_final,
    fss_tests_vary, fss_print_c` on the suite's context type. A test only
    ever hands back contexts of the shape it was built with, so the other
    shapes are passed through.
  */
  function DirWorkload(fs: FileSystem, exec: DirContext -> (bool, DirContext)): Workload<Context>
  {
    Workload(
      (c: Context) => if c.Dirs? then Dirs(FssTestsInit(c.dir, fs)) else c,
      (c: Context) => if c.Dirs? then (var r := exec(c.dir); (r.0, Dirs(r.1))) else (false, c),
      (c: Context) => if c.Dirs? then Dirs(FssTestsFinal(c.dir, fs)) else c,
      (step: int, c: Context) => if c.Dirs? then Dirs(FssTestsVary(step, c.dir)) else c,
      (what: string, c: Context) => if c.Dirs? then FssPrintC(what, c.dir) else NoValue)
  }

  function DirectoryWorkload(fs: FileSystem): Workload<Context>
  {
    DirWorkload(fs, (d: DirContext) => DirectoryTest(d, fs))
  }

  function FilesWorkload(fs: FileSystem): Workload<Context>
  {
    DirWorkload(fs, (d: DirContext) => FilesTest(d, fs))
  }

  /** The contexts `fss_make_context_list(basepath, '', n, nb_workers)` builds. */
  function DirContextsOf(basepath: string, n: int, nbWorkers: int): (r: seq<DirContext>)
    ensures |r| == Count(nbWorkers)
  {
    seq(Count(nbWorkers), i requires 0 <= i < Count(nbWorkers) => DirContext(Child(basepath, i), "", n))
  }

  /**
    The first two registrations of `FileSystem_Tests`, the same in both
    suites: the directory test (100 per worker), then the files test (512
    per worker), each with one context per worker.
  */
  method AddCreationTests(suite: TestSuite<Context>, basepath: string, nbWorkers: int, step: int, debug: bool,
                          fs: FileSystem)
    returns (howManyDirectories: Test<Context>, howManyFiles: Test<Context>)
    modifies suite
    ensures suite.testlist == old(suite.testlist) + [howManyDirectories, howManyFiles]
    ensures fresh(howManyDirectories) && fresh(howManyFiles) && howManyDirectories != howManyFiles
    ensures howManyDirectories.Registered("Directory creation", "Creates directories in one single directory",
      DirectoryWorkload(fs), AsDirs(DirContextsOf(basepath, 100, nbWorkers)), step, debug)
    ensures howManyFiles.Registered("Files creation", "Creates files in one single directory",
      FilesWorkload(fs), AsDirs(DirContextsOf(basepath, 512, nbWorkers)), step, debug)
  {
    var dirContext := FssMakeContextList(basepath, "", 100, nbWorkers);
    assert dirContext == DirContextsOf(basepath, 100, nbWorkers);
    howManyDirectories := new Test("Directory creation", "Creates directories in one single directory",
      DirectoryWorkload(fs), AsDirs(dirContext), step, debug);
    suite.AddTest(howManyDirectories);

    var fileContext := FssMakeContextList(basepath, "", 512, nbWorkers);
    assert fileContext == DirContextsOf(basepath, 512, nbWorkers);
    howManyFiles := new Test("Files creation", "Creates files in one single directory",
      FilesWorkload(fs), AsDirs(fileContext), step, debug);
    suite.AddTest(howManyFiles);
  }
}
