/**
  The context tuples the workloads hand to a `Test`, one datatype per
  tuple shape, and the one context type a suite of mixed tests runs on.
*/
module Contexts {
  import opened PyText

  /** `(path, current_path, nb_tests)`: the directory and empty-file tests. */
  datatype DirContext = DirContext(path: string, currentPath: string, nbTests: int)

  /**
    `(path, current_path, nb_tests, file_buffer, file_size, buffer_size)`:
    the space-filled files test of the process variant.
  */
  datatype SizedContext = SizedContext(
    path: string, currentPath: string, nbTests: int,
    fileBuffer: string, fileSize: int, bufferSize: int)

  /**
    `(path, current_path, nb_tests, file_buffer, file_size)`: the
    zero-filled files test of the thread variant.
  */
  datatype FilledContext = FilledContext(
    path: string, currentPath: string, nbTests: int,
    fileBuffer: string, fileSize: int)

  /** `(a_string, nb_tests)`: the cpu encode test. */
  datatype CpuContext = CpuContext(text: string, nbTests: int)

  /**
    A suite holds tests whose contexts have different shapes; each test
    only ever sees contexts of its own shape.
  */
  datatype Context =
    | Dirs(dir: DirContext)
    | Sized(sized: SizedContext)
    | Filled(filled: FilledContext)
    | Cpu(cpu: CpuContext)

  function AsDirs(cs: seq<DirContext>): (r: seq<Context>)
    ensures |r| == |cs| && forall i :: 0 <= i < |cs| ==> r[i] == Dirs(cs[i])
  {
    seq(|cs|, i requires 0 <= i < |cs| => Dirs(cs[i]))
  }

  function AsSized(cs: seq<SizedContext>): (r: seq<Context>)
    ensures |r| == |cs| && forall i :: 0 <= i < |cs| ==> r[i] == Sized(cs[i])
  {
    seq(|cs|, i requires 0 <= i < |cs| => Sized(cs[i]))
  }

  function AsFilled(cs: seq<FilledContext>): (r: seq<Context>)
    ensures |r| == |cs| && forall i :: 0 <= i < |cs| ==> r[i] == Filled(cs[i])
  {
    seq(|cs|, i requires 0 <= i < |cs| => Filled(cs[i]))
  }

  function AsCpu(cs: seq<CpuContext>): (r: seq<Context>)
    ensures |r| == |cs| && forall i :: 0 <= i < |cs| ==> r[i] == Cpu(cs[i])
  {
    seq(|cs|, i requires 0 <= i < |cs| => Cpu(cs[i]))
  }

  /** `path + '/' + str(i)`: the i-th entry under `path`. */
  function Child(path: string, i: nat): (r: string)
    ensures |r| > |path| + 1 && r[..|path|] == path && r[|path|] == '/'
  {
    path + "/" + NatToString(i)
  }

  /** Different indices name different entries of the same directory. */
  lemma ChildInjective(path: string, i: nat, j: nat)
    requires Child(path, i) == Child(path, j)
    ensures i == j
  {
    var a := Child(path, i);
    var b := Child(path, j);
    assert a[|path| + 1..] == NatToString(i);
    assert b[|path| + 1..] == NatToString(j);
    NatToStringInjective(i, j);
  }
}
