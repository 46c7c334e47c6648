/**
  The filesystem suite of the process variant: the space-filled files
  test over `(path, current_path, nb_tests, file_buffer, file_size,
  buffer_size)`, and `FileSystem_Tests`, which registers the three tests.
*/
module FssProcess {
  import opened Wrappers
  import opened PyText
  import opened History
  import opened Contract
  import opened Contexts
  import opened FileTests
  import opened Rounds
  import opened ProcessStress

  /** `make_zero_filed_files_test`: open, fill with `write_to_the_file`, close, for each index. */
  function SpaceFilesTest(c: SizedContext, fs: FileSystem): (r: (bool, SizedContext))
    ensures r.1 == c.(nbTests := r.1.nbTests)
    ensures r.0 <==> (c.path != "" && c.nbTests >= 2 &&
      forall i: nat :: i < c.nbTests ==> !ZeroFails(c.path, c.fileBuffer, c.fileSize, fs)(i))
    ensures r.0 ==> c.fileSize > 0 && |c.fileBuffer| > 0
    ensures c.path == "" ==> r == (false, c)
    ensures c.path != "" ==> (r.1.nbTests == c.nbTests <==>
      forall i: nat :: i < c.nbTests ==> !ZeroFails(c.path, c.fileBuffer, c.fileSize, fs)(i))
    ensures r.1.nbTests != c.nbTests ==> (!r.0 && 0 <= r.1.nbTests < c.nbTests &&
      ZeroFails(c.path, c.fileBuffer, c.fileSize, fs)(r.1.nbTests) &&
      forall i: nat :: i < r.1.nbTests ==> !ZeroFails(c.path, c.fileBuffer, c.fileSize, fs)(i))
  {
    var v := Verdict(c.path, c.nbTests, ZeroFails(c.path, c.fileBuffer, c.fileSize, fs));
    assert ZeroFails(c.path, c.fileBuffer, c.fileSize, fs)(0) ==
      (fs.openFails(Child(c.path, 0)) || !WriteOutcome(Child(c.path, 0), c.fileBuffer, c.fileSize, fs).0 ||
       fs.closeFails(Child(c.path, 0)));
    (v.0, c.(nbTests := v.1))
  }

  method MakeZeroFiledFilesTest(c: SizedContext, fs: FileSystem) returns (ok: bool, out: SizedContext)
    ensures (ok, out) == SpaceFilesTest(c, fs)
  {
    var count;
    ok, count := FillLoop(c.path, c.nbTests, c.fileBuffer, c.fileSize, fs);
    out := c.(nbTests := count);
  }

  /** `mzfft_init`: builds the buffer of `buffer_size` spaces, then enters (or creates) the test directory. */
  function MzfftInit(c: SizedContext, fs: FileSystem): (r: SizedContext)
    ensures r.fileBuffer == Spaces(c.bufferSize) && r.currentPath == fs.cwd
    ensures r.nbTests == c.nbTests && r.fileSize == c.fileSize && r.bufferSize == c.bufferSize
    ensures r.path == "" <==> c.path == "" || (fs.chdirFails(c.path) && fs.createFails(c.path))
    ensures r.path == c.path || r.path == ""
  {
    SizedContext(EnteredPath(c.path, fs), fs.cwd, c.nbTests, Spaces(c.bufferSize), c.fileSize, c.bufferSize)
  }

  /**
    `mzfft_final`: drops the buffer and goes back to `current_path`; when
    that chdir fails it hands back the context it was given, buffer and all.
  */
  function MzfftFinal(c: SizedContext, fs: FileSystem): (r: SizedContext)
    ensures c.currentPath != "" && fs.chdirFails(c.currentPath) ==> r == c
    ensures !(c.currentPath != "" && fs.chdirFails(c.currentPath)) ==> r == c.(fileBuffer := "")
  {
    if c.currentPath != "" && fs.chdirFails(c.currentPath) then c
    else c.(fileBuffer := "")
  }

  /** `mzfft_vary_file_size`: only the file size is multiplied by the step. */
  function MzfftVaryFileSize(step: int, c: SizedContext): (r: SizedContext)
    ensures r == c.(fileSize := r.fileSize) && r.fileSize == c.fileSize * step
  {
    c.(fileSize := c.fileSize * step)
  }

  /** `mzfft_print_c`. */
  function MzfftPrintC(what: string, c: SizedContext): (r: Described)
    ensures what == "print" ==> r == Text("T : " + IntToString(c.nbTests) + " ; Bs : " +
      NatToString(|c.fileBuffer|) + " ; Fs : " + IntToString(c.fileSize))
    ensures what == "config" ==> r == Text("File size (creating " + IntToString(c.nbTests) +
      " files with a buffer of " + NatToString(|c.fileBuffer|) + " bytes)")
    ensures what == "vary" ==> r == Number(c.fileSize)
    ensures what != "print" && what != "config" && what != "vary" ==> r == NoValue
  {
    if what == "print" then
      Text("T : " + IntToString(c.nbTests) + " ; Bs : " + NatToString(|c.fileBuffer|) + " ; Fs : " + IntToString(c.fileSize))
    else if what == "config" then
      Text("File size (creating " + IntToString(c.nbTests) + " files with a buffer of " +
        NatToString(|c.fileBuffer|) + " bytes)")
    else if what == "vary" then Number(c.fileSize)
    else NoValue
  }

  /**
    What 'vary' reports (the x axis of the exports) is the file size and
    follows the step, while the 'config' label (the x axis title) stays.
  */
  lemma MzfftVaryReported(step: int, c: SizedContext)
    ensures MzfftPrintC("vary", MzfftVaryFileSize(step, c)) == Number(step * MzfftPrintC("vary", c).n)
    ensures MzfftPrintC("config", MzfftVaryFileSize(step, c)) == MzfftPrintC("config", c)
  {
  }

  /**
    A buffer size that is not positive makes the test fail at its first
    file: `write_to_the_file` refuses an empty buffer.
  */
  lemma EmptyBufferFails(c: SizedContext, fs: FileSystem)
    requires c.bufferSize <= 0
    ensures var r := SpaceFilesTest(MzfftInit(c, fs), fs);
      !r.0 && (r.1.nbTests == 0 || MzfftInit(c, fs).path == "" || c.nbTests <= 0)
  {
    var d := MzfftInit(c, fs);
    assert d.fileBuffer == "";
    if d.path != "" && d.nbTests > 0 {
      assert !WriteOutcome(Child(d.path, 0), d.fileBuffer, d.fileSize, fs).0;
      assert ZeroFails(d.path, d.fileBuffer, d.fileSize, fs)(0);
      assert FirstFailing(d.nbTests, ZeroFails(d.path, d.fileBuffer, d.fileSize, fs)) == Some(0) by {
        FirstFailingPrefix(1, d.nbTests, ZeroFails(d.path, d.fileBuffer, d.fileSize, fs));
      }
    }
  }

  /**
    `mzfft_make_context_list`: one context per worker, the i-th working in
    `basepath + '/' + str(i)`, the other fields copied.
  */
  method MzfftMakeContextList(basepath: string, currentPath: string, nbTests: int, fileBuffer: string,
                              fileSize: int, bufferSize: int, nbProcess: int)
    returns (list: seq<SizedContext>)
    ensures |list| == if nbProcess < 0 then 0 else nbProcess
    ensures forall i :: 0 <= i < |list| ==>
      list[i] == SizedContext(Child(basepath, i), currentPath, nbTests, fileBuffer, fileSize, bufferSize)
    ensures forall i, j :: 0 <= i < j < |list| ==> list[i].path != list[j].path
  {
    list := [];
    var i := 0;
    while i < nbProcess
      invariant 0 <= i && (i <= nbProcess || i == 0) && |list| == i
      invariant forall k :: 0 <= k < i ==>
        list[k] == SizedContext(Child(basepath, k), currentPath, nbTests, fileBuffer, fileSize, bufferSize)
    {
      list := list + [SizedContext(Child(basepath, i), currentPath, nbTests, fileBuffer, fileSize, bufferSize)];
      i := i + 1;
    }
    forall i, j | 0 <= i < j < |list|
      ensures list[i].path != list[j].path
    {
      if list[i].path == list[j].path {
        ChildInjective(basepath, i, j);
      }
    }
  }

  /** The functions tuple `mzfft_init, make_zero_filed_files_test, mzfft_final, mzfft_vary_file_size, mzfft_print_c`. */
  function SpaceFilesWorkload(fs: FileSystem): Workload<Context>
  {
    Workload(
      (c: Context) => if c.Sized? then Sized(MzfftInit(c.sized, fs)) else c,
      (c: Context) => if c.Sized? then (var r := SpaceFilesTest(c.sized, fs); (r.0, Sized(r.1))) else (false, c),
      (c: Context) => if c.Sized? then Sized(MzfftFinal(c.sized, fs)) else c,
      (step: int, c: Context) => if c.Sized? then Sized(MzfftVaryFileSize(step, c.sized)) else c,
      (what: string, c: Context) => if c.Sized? then MzfftPrintC(what, c.sized) else NoValue)
  }

  /**
    One worker of the directory test in a varying round: it succeeds when
    its directory can be entered and every mkdir succeeds, and then goes
    on with the count multiplied by the step and the working directory
    recorded; a failure hands back the truncated count.
  */
  lemma DirectoryWorkerStep(fs: FileSystem, step: int, c: DirContext, t: Timing)
    ensures var r := RunWorker(DirectoryWorkload(fs), step, true, Dirs(c), t);
      r.ok <==> (EnteredPath(c.path, fs) != "" && c.nbTests >= 2 &&
        forall i: nat :: i < c.nbTests ==> !fs.mkdirFails(Child(c.path, i)))
    ensures var r := RunWorker(DirectoryWorkload(fs), step, true, Dirs(c), t);
      r.ok ==> r.context == Dirs(DirContext(c.path, fs.cwd, c.nbTests * step))
    ensures var r := RunWorker(DirectoryWorkload(fs), step, true, Dirs(c), t);
      !r.ok ==> r.context == Dirs(DirectoryTest(FssTestsInit(c, fs), fs).1) && r.context.dir.nbTests <= c.nbTests
  {
    var d := FssTestsInit(c, fs);
    var e := DirectoryTest(d, fs);
    assert DirectoryWorkload(fs).init(Dirs(c)) == Dirs(d);
    assert DirectoryWorkload(fs).exec(Dirs(d)) == (e.0, Dirs(e.1));
    if e.0 {
      assert d.path == c.path;
      assert e.1 == d;
    }
  }

  /**
    `FileSystem_Tests`: the suite 'Files' holding, in this order, the
    directory test (100 per worker), the files test (512 per worker) and
    the space-filled files test (2048 files of 512 bytes per worker, the
    buffer built at init time), each with one context per worker.
  */
  method FileSystemTests(basepath: string, nbProcess: int, step: int, debug: bool, bufferSize: int, fs: FileSystem)
    returns (suite: TestSuite<Context>)
    ensures fresh(suite) && suite.name == "Files" && suite.description == "Files related tests"
    ensures |suite.testlist| == 3 && suite.Distinct()
    ensures forall k :: 0 <= k < 3 ==> fresh(suite.testlist[k])
    ensures suite.testlist[0].Registered("Directory creation", "Creates directories in one single directory",
      DirectoryWorkload(fs), AsDirs(DirContextsOf(basepath, 100, nbProcess)), step, debug)
    ensures suite.testlist[1].Registered("Files creation", "Creates files in one single directory",
      FilesWorkload(fs), AsDirs(DirContextsOf(basepath, 512, nbProcess)), step, debug)
    ensures suite.testlist[2].Registered("Space filed files creation",
      "Creates space filed files (size vary - buffer size is an option)",
      SpaceFilesWorkload(fs), AsSized(SizedContextsOf(basepath, bufferSize, nbProcess)), step, debug)
  {
    suite := new TestSuite("Files", "Files related tests");

    var howManyDirectories, howManyFiles := AddCreationTests(suite, basepath, nbProcess, step, debug, fs);

    var mzfftContext := MzfftMakeContextList(basepath, "", 2048, "", 512, bufferSize, nbProcess);
    var mzfft := new Test("Space filed files creation",
      "Creates space filed files (size vary - buffer size is an option)",
      SpaceFilesWorkload(fs), AsSized(mzfftContext), step, debug);
    suite.AddTest(mzfft);
  }

  /** The contexts `mzfft_make_context_list(basepath, '', 2048, '', 512, buffer_size, nb_process)` builds. */
  function SizedContextsOf(basepath: string, bufferSize: int, nbProcess: int): (r: seq<SizedContext>)
    ensures |r| == Count(nbProcess)
  {
    seq(Count(nbProcess), i requires 0 <= i < Count(nbProcess) => SizedContext(Child(basepath, i), "", 2048, "", 512, bufferSize))
  }
}
