/**
  The filesystem suite beside the thread variant: the zero-filled files
  test over `(path, current_path, nb_tests, file_buffer, file_size)`, whose
  buffer is built once at registration, and `FileSystem_Tests`, which only
  registers that test when the buffer is not empty.
*/
module FssThread {
  import opened PyText
  import opened History
  import opened Contract
  import opened Contexts
  import opened FileTests
  import opened Rounds
  import opened ProcessStress

  /**
    `make_zero_filed_files_test`: open, fill with `write_to_the_file`, close,
    for each index; the same code as `FssProcess.SpaceFilesTest`, over this
    file's five-field context.
  */
  function ZeroFilesTest(c: FilledContext, fs: FileSystem): (r: (bool, FilledContext))
    ensures r.1 == c.(nbTests := r.1.nbTests)
    ensures r.0 <==> (c.path != "" && c.nbTests >= 2 &&
      forall i: nat :: i < c.nbTests ==> !ZeroFails(c.path, c.fileBuffer, c.fileSize, fs)(i))
    ensures r.0 ==> c.fileSize > 0 && |c.fileBuffer| > 0
    ensures c.path == "" ==> r == (false, c)
    ensures c.path != "" ==> (r.1.nbTests == c.nbTests <==>
      forall i: nat :: i < c.nbTests ==> !ZeroFails(c.path, c.fileBuffer, c.fileSize, fs)(i))
    ensures r.1.nbTests != c.nbTests ==> (!r.0 && 0 <= r.1.nbTests < c.nbTests &&
      ZeroFails(c.path, c.fileBuffer, c.fileSize, fs)(r.1.nbTests) &&
      forall i: nat :: i < r.1.nbTests ==> !ZeroFails(c.path, c.fileBuffer, c.fileSize, fs)(i))
  {
    var v := Verdict(c.path, c.nbTests, ZeroFails(c.path, c.fileBuffer, c.fileSize, fs));
    assert ZeroFails(c.path, c.fileBuffer, c.fileSize, fs)(0) ==
      (fs.openFails(Child(c.path, 0)) || !WriteOutcome(Child(c.path, 0), c.fileBuffer, c.fileSize, fs).0 ||
       fs.closeFails(Child(c.path, 0)));
    (v.0, c.(nbTests := v.1))
  }

  method MakeZeroFiledFilesTest(c: FilledContext, fs: FileSystem) returns (ok: bool, out: FilledContext)
    ensures (ok, out) == ZeroFilesTest(c, fs)
  {
    var count;
    ok, count := FillLoop(c.path, c.nbTests, c.fileBuffer, c.fileSize, fs);
    out := c.(nbTests := count);
  }

  /** `mzfft_init`: enters (or creates) the test directory; the buffer is the one registered. */
  function MzfftInit(c: FilledContext, fs: FileSystem): (r: FilledContext)
    ensures r.currentPath == fs.cwd
    ensures r.nbTests == c.nbTests && r.fileBuffer == c.fileBuffer && r.fileSize == c.fileSize
    ensures r.path == "" <==> c.path == "" || (fs.chdirFails(c.path) && fs.createFails(c.path))
    ensures r.path == c.path || r.path == ""
  {
    FilledContext(EnteredPath(c.path, fs), fs.cwd, c.nbTests, c.fileBuffer, c.fileSize)
  }

  /**
    `mzfft_final`: cleans up and goes back to `current_path`; whether the
    chdir back fails or not, it hands back the context it was given.
  */
  function MzfftFinal(c: FilledContext, fs: FileSystem): (r: FilledContext)
    ensures r == c
  {
    if c.currentPath != "" && fs.chdirFails(c.currentPath) then c
    else FilledContext(c.path, c.currentPath, c.nbTests, c.fileBuffer, c.fileSize)
  }

  /** `mzfft_vary_file_size`: only the file size is multiplied by the step, as in `FssProcess.MzfftVaryFileSize`. */
  function MzfftVaryFileSize(step: int, c: FilledContext): (r: FilledContext)
    ensures r == c.(fileSize := r.fileSize) && r.fileSize == c.fileSize * step
  {
    c.(fileSize := c.fileSize * step)
  }

  /** `mzfft_print_c`: the same answers as `FssProcess.MzfftPrintC`, over this file's context. */
  function MzfftPrintC(what: string, c: FilledContext): (r: Described)
    ensures what == "print" ==> r == Text("T : " + IntToString(c.nbTests) + " ; Bs : " +
      NatToString(|c.fileBuffer|) + " ; Fs : " + IntToString(c.fileSize))
    ensures what == "config" ==> r == Text("File size (creating " + IntToString(c.nbTests) +
      " files with a buffer of " + NatToString(|c.fileBuffer|) + " bytes)")
    ensures what == "vary" ==> r == Number(c.fileSize)
    ensures what != "print" && what != "config" && what != "vary" ==> r == NoValue
  {
    if what == "print" then
      Text("T : " + IntToString(c.nbTests) + " ; Bs : " + NatToString(|c.fileBuffer|) + " ; Fs : " + IntToString(c.fileSize))
    else if what == "config" then
      Text("File size (creating " + IntToString(c.nbTests) + " files with a buffer of " +
        NatToString(|c.fileBuffer|) + " bytes)")
    else if what == "vary" then Number(c.fileSize)
    else NoValue
  }

  /**
    `mzfft_make_context_list`: one context per worker, the i-th working in
    `basepath + '/' + str(i)`, the other fields copied.
  */
  method MzfftMakeContextList(basepath: string, currentPath: string, nbTests: int, fileBuffer: string,
                              fileSize: int, nbThreads: int)
    returns (list: seq<FilledContext>)
    ensures |list| == if nbThreads < 0 then 0 else nbThreads
    ensures forall i :: 0 <= i < |list| ==>
      list[i] == FilledContext(Child(basepath, i), currentPath, nbTests, fileBuffer, fileSize)
    ensures forall i, j :: 0 <= i < j < |list| ==> list[i].path != list[j].path
  {
    list := [];
    var i := 0;
    while i < nbThreads
      invariant 0 <= i && (i <= nbThreads || i == 0) && |list| == i
      invariant forall k :: 0 <= k < i ==>
        list[k] == FilledContext(Child(basepath, k), currentPath, nbTests, fileBuffer, fileSize)
    {
      list := list + [FilledContext(Child(basepath, i), currentPath, nbTests, fileBuffer, fileSize)];
      i := i + 1;
    }
    forall i, j | 0 <= i < j < |list|
      ensures list[i].path != list[j].path
    {
      if list[i].path == list[j].path {
        ChildInjective(basepath, i, j);
      }
    }
  }

  /** The functions tuple `mzfft_init, make_zero_filed_files_test, mzfft_final, mzfft_vary_file_size, mzfft_print_c`. */
  function ZeroFilesWorkload(fs: FileSystem): Workload<Context>
  {
    Workload(
      (c: Context) => if c.Filled? then Filled(MzfftInit(c.filled, fs)) else c,
      (c: Context) => if c.Filled? then (var r := ZeroFilesTest(c.filled, fs); (r.0, Filled(r.1))) else (false, c),
      (c: Context) => if c.Filled? then Filled(MzfftFinal(c.filled, fs)) else c,
      (step: int, c: Context) => if c.Filled? then Filled(MzfftVaryFileSize(step, c.filled)) else c,
      (what: string, c: Context) => if c.Filled? then MzfftPrintC(what, c.filled) else NoValue)
  }

  /**
    One worker of the zero-filled test in a varying round: since final
    keeps the buffer, a successful worker goes on with the same buffer
    and count, the file size multiplied by the step.
  */
  lemma ZeroFilesWorkerStep(fs: FileSystem, step: int, c: FilledContext, t: Timing)
    ensures var r := RunWorker(ZeroFilesWorkload(fs), step, true, Filled(c), t);
      r.ok ==> r.context == Filled(FilledContext(c.path, fs.cwd, c.nbTests, c.fileBuffer, c.fileSize * step))
    ensures var r := RunWorker(ZeroFilesWorkload(fs), step, true, Filled(c), t);
      r.ok ==> |c.fileBuffer| > 0 && c.fileSize > 0 && c.nbTests >= 2
    ensures var r := RunWorker(ZeroFilesWorkload(fs), step, true, Filled(c), t);
      !r.ok ==> (r.context.Filled? && r.context.filled.fileBuffer == c.fileBuffer &&
        r.context.filled.fileSize == c.fileSize && r.context.filled.nbTests <= c.nbTests)
  {
    var d := MzfftInit(c, fs);
    var e := ZeroFilesTest(d, fs);
    assert ZeroFilesWorkload(fs).init(Filled(c)) == Filled(d);
    assert ZeroFilesWorkload(fs).exec(Filled(d)) == (e.0, Filled(e.1));
    if e.0 {
      assert d.path == c.path;
      assert e.1 == d;
    }
  }

  /**
    `FileSystem_Tests`: the suite 'Files' holding the directory test (100
    per worker) and the files test (512 per worker), then, only when
    `make_buffer(debug, buffer_size)` is not empty, the zero-filled files
    test (2048 files of 512 bytes per worker, sharing that buffer).
  */
  method FileSystemTests(basepath: string, nbThreads: int, step: int, debug: bool, bufferSize: int, fs: FileSystem)
    returns (suite: TestSuite<Context>)
    ensures fresh(suite) && suite.name == "Files" && suite.description == "Files related tests"
    ensures |suite.testlist| == (if bufferSize > 0 then 3 else 2) && suite.Distinct()
    ensures forall k :: 0 <= k < |suite.testlist| ==> fresh(suite.testlist[k])
    ensures suite.testlist[0].Registered("Directory creation", "Creates directories in one single directory",
      DirectoryWorkload(fs), AsDirs(DirContextsOf(basepath, 100, nbThreads)), step, debug)
    ensures suite.testlist[1].Registered("Files creation", "Creates files in one single directory",
      FilesWorkload(fs), AsDirs(DirContextsOf(basepath, 512, nbThreads)), step, debug)
    ensures bufferSize > 0 ==> suite.testlist[2].Registered("Zero filed files creation",
      "Creates zero filed files (sile size vary - buffer size is an option)",
      ZeroFilesWorkload(fs), AsFilled(FilledContextsOf(basepath, Spaces(bufferSize), nbThreads)), step, debug)
  {
    suite := new TestSuite("Files", "Files related tests");

    var howManyDirectories, howManyFiles := AddCreationTests(suite, basepath, nbThreads, step, debug, fs);
    var added := AddZeroFilesTest(suite, basepath, nbThreads, step, debug, bufferSize, fs);
    assert suite.testlist[0] == howManyDirectories && suite.testlist[1] == howManyFiles;
  }

  /** The last, conditional registration of `FileSystem_Tests`. */
  method AddZeroFilesTest(suite: TestSuite<Context>, basepath: string, nbThreads: int, step: int, debug: bool,
                          bufferSize: int, fs: FileSystem)
    returns (added: seq<Test<Context>>)
    modifies suite
    ensures suite.testlist == old(suite.testlist) + added
    ensures |added| == if bufferSize > 0 then 1 else 0
    ensures bufferSize > 0 ==> fresh(added[0]) && added[0].Registered("Zero filed files creation",
      "Creates zero filed files (sile size vary - buffer size is an option)",
      ZeroFilesWorkload(fs), AsFilled(FilledContextsOf(basepath, Spaces(bufferSize), nbThreads)), step, debug)
  {
    added := [];
    var aBuffer := MakeBuffer(bufferSize);
    if |aBuffer| > 0 {
      var mzfftContext := MzfftMakeContextList(basepath, "", 2048, aBuffer, 512, nbThreads);
      assert mzfftContext == FilledContextsOf(basepath, Spaces(bufferSize), nbThreads);
      var mzfft := new Test("Zero filed files creation",
        "Creates zero filed files (sile size vary - buffer size is an option)",
        ZeroFilesWorkload(fs), AsFilled(mzfftContext), step, debug);
      suite.AddTest(mzfft);
      added := [mzfft];
    }
  }

  /** The contexts `mzfft_make_context_list(basepath, '', 2048, buffer, 512, nb_threads)` builds. */
  function FilledContextsOf(basepath: string, buffer: string, nbThreads: int): (r: seq<FilledContext>)
    ensures |r| == Count(nbThreads)
  {
    seq(Count(nbThreads), i requires 0 <= i < Count(nbThreads) => FilledContext(Child(basepath, i), "", 2048, buffer, 512))
  }
}
