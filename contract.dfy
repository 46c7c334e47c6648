/**
  The workload contract: the functions a pluggable test hands to a `Test`.
  Workloads are opaque to the engine; only their results matter here.
*/
module Contract {
  import opened PyText

  /**
    What a `print_c` function returns: a string for 'print' and 'config',
    an integer for 'vary', and `None` for anything else.
  */
  datatype Described = Text(s: string) | Number(n: int) | NoValue

  /** Python's `str()` (or `'%s' %`) of a described value. */
  function Str(d: Described): string
  {
    match d
    case Text(s) => s
    case Number(n) => IntToString(n)
    case NoValue => "None"
  }

  /**
    The `functions` tuple of the process-variant `Test`: init, exec (which
    returns a flag and a context), final, vary and print_c.
  */
  datatype Workload<!C> = Workload(
    init: C -> C,
    exec: C -> (bool, C),
    final: C -> C,
    vary: (int, C) -> C,
    describe: (string, C) -> Described)

  /** The four functions of the thread-variant `Test`: there exec returns only a flag. */
  datatype ThreadWorkload<!C> = ThreadWorkload(
    init: C -> C,
    exec: C -> bool,
    final: C -> C,
    vary: (int, C) -> C)
}
