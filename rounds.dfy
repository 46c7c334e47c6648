/**
  The round bookkeeping both `Test` classes share, on values: what one
  round does to a test's contexts, history and sticky result, and what
  `start_vary(n)` makes of that. The concurrency of the rounds (spawning,
  the start barrier, joining) is not modelled: a round is the workers'
  reports taken in worker-index order.
*/
module Rounds {
  import opened History

  /** What one worker hands back at the end of a round: its record, its new context and its flag. */
  datatype WorkerReport<C> = WorkerReport(record: Record<C>, context: C, ok: bool)

  /** The part of a test that rounds change: `context_list`, `times` and `result`. */
  datatype TestState<C> = TestState(contexts: seq<C>, times: seq<seq<Record<C>>>, result: bool)

  /**
    One worker's run as the round runner sees it, from the round number
    (the length of the history so far), the worker index, the vary flag
    and the context the worker is handed.
  */
  type Worker<!C> = (nat, nat, bool, C) -> WorkerReport<C>

  /** Every round of the history has one record per context. */
  ghost predicate WellFormed<C>(s: TestState<C>)
  {
    Uniform(s.times, |s.contexts|)
  }

  function RoundReports<C>(worker: Worker<C>, s: TestState<C>, vary: bool): (rs: seq<WorkerReport<C>>)
    ensures |rs| == |s.contexts|
    ensures forall i :: 0 <= i < |rs| ==> rs[i] == worker(|s.times|, i, vary, s.contexts[i])
  {
    seq(|s.contexts|, i requires 0 <= i < |s.contexts| => worker(|s.times|, i, vary, s.contexts[i]))
  }

  predicate AllOk<C>(rs: seq<WorkerReport<C>>)
  {
    forall i :: 0 <= i < |rs| ==> rs[i].ok
  }

  /**
    `start_once(vary)`: nothing when the result is already False; otherwise
    exactly one round of one record per worker is appended, in worker-index
    order, every context slot takes its worker's returned context, and the
    result becomes the conjunction of the workers' flags.
  */
  function Once<C>(worker: Worker<C>, s: TestState<C>, vary: bool): (r: TestState<C>)
    ensures !s.result ==> r == s
    ensures s.result ==> |r.times| == |s.times| + 1 && r.times[..|s.times|] == s.times
    ensures |r.contexts| == |s.contexts|
    ensures s.result ==> |r.times[|s.times|]| == |s.contexts|
    ensures s.result ==> forall i :: 0 <= i < |s.contexts| ==>
      r.contexts[i] == worker(|s.times|, i, vary, s.contexts[i]).context &&
      r.times[|s.times|][i] == worker(|s.times|, i, vary, s.contexts[i]).record
    ensures r.result <==> s.result && forall i :: 0 <= i < |s.contexts| ==> worker(|s.times|, i, vary, s.contexts[i]).ok
    ensures WellFormed(s) ==> WellFormed(r)
  {
    if !s.result then s
    else
      var rs := RoundReports(worker, s, vary);
      var contexts := seq(|rs|, i requires 0 <= i < |rs| => rs[i].context);
      var round := seq(|rs|, i requires 0 <= i < |rs| => rs[i].record);
      assert (s.times + [round])[..|s.times|] == s.times;
      TestState(contexts, s.times + [round], AllOk(rs))
  }

  /** A round collected slot by slot, in worker-index order, is exactly `Once`. */
  lemma OnceFromReports<C>(worker: Worker<C>, s: TestState<C>, vary: bool,
                           contexts: seq<C>, round: seq<Record<C>>, ok: bool)
    requires s.result && |contexts| == |round| == |s.contexts|
    requires forall k :: 0 <= k < |round| ==>
      contexts[k] == worker(|s.times|, k, vary, s.contexts[k]).context &&
      round[k] == worker(|s.times|, k, vary, s.contexts[k]).record
    requires ok <==> forall k :: 0 <= k < |round| ==> worker(|s.times|, k, vary, s.contexts[k]).ok
    ensures Once(worker, s, vary) == TestState(contexts, s.times + [round], ok)
  {
    var r := Once(worker, s, vary);
    assert r.contexts == contexts;
    assert r.times[|s.times|] == round;
    assert r.times == s.times + [round];
  }

  /** `k` rounds in a row, each with vary=True. */
  function Repeat<C>(worker: Worker<C>, s: TestState<C>, k: nat): TestState<C>
    decreases k
  {
    if k == 0 then s else Repeat(worker, Once(worker, s, true), k - 1)
  }

  /** `xrange(n)` runs no iteration for a negative `n`. */
  function Count(n: int): nat
  {
    if n < 0 then 0 else n
  }

  /** The loop of `start_vary(n)` from iteration `i` on. */
  function VaryFrom<C>(worker: Worker<C>, s: TestState<C>, n: nat, i: nat): TestState<C>
    decreases n - i
  {
    if i >= n || !s.result then s
    else VaryFrom(worker, Once(worker, s, i != n - 1), n, i + 1)
  }

  /** `start_vary(n)`. */
  function Vary<C>(worker: Worker<C>, s: TestState<C>, n: nat): TestState<C>
  {
    VaryFrom(worker, s, n, 0)
  }

  lemma {:induction false} RepeatFailed<C>(worker: Worker<C>, s: TestState<C>, k: nat)
    requires !s.result
    ensures Repeat(worker, s, k) == s
    decreases k
  {
    if k > 0 {
      RepeatFailed(worker, Once(worker, s, true), k - 1);
    }
  }

  lemma {:induction false} VaryFromIsRepeat<C>(worker: Worker<C>, s: TestState<C>, n: nat, i: nat)
    requires i < n
    ensures VaryFrom(worker, s, n, i) == Once(worker, Repeat(worker, s, n - 1 - i), false)
    decreases n - i
  {
    if !s.result {
      RepeatFailed(worker, s, n - 1 - i);
    } else if i < n - 1 {
      VaryFromIsRepeat(worker, Once(worker, s, true), n, i + 1);
    }
  }

  /**
    `start_vary(n)` gives vary=True to rounds 0..n-2 and vary=False to
    round n-1; a failed round turns every later one into a no-op.
  */
  lemma VaryIsRepeatThenFinal<C>(worker: Worker<C>, s: TestState<C>, n: nat)
    ensures Vary(worker, s, n) == if n == 0 then s else Once(worker, Repeat(worker, s, n - 1), false)
  {
    if n > 0 {
      VaryFromIsRepeat(worker, s, n, 0);
    }
  }

  lemma {:induction false} VaryFromBounds<C>(worker: Worker<C>, s: TestState<C>, n: nat, i: nat)
    requires i <= n
    ensures var r := VaryFrom(worker, s, n, i);
      && |s.times| <= |r.times| <= |s.times| + (n - i)
      && r.times[..|s.times|] == s.times
      && |r.contexts| == |s.contexts|
      && (r.result ==> s.result)
      && (!s.result ==> r == s)
      && (s.result && r.result ==> |r.times| == |s.times| + (n - i))
      && (WellFormed(s) ==> WellFormed(r))
    decreases n - i
  {
    if i < n && s.result {
      var s' := Once(worker, s, i != n - 1);
      VaryFromBounds(worker, s', n, i + 1);
      var r := VaryFrom(worker, s', n, i + 1);
      assert r.times[..|s.times|] == r.times[..|s'.times|][..|s.times|];
    }
  }

  /**
    The invariants of `start_vary(n)`: the history only grows, by at most
    `n` rounds; it grows by exactly `n` when the test still succeeds at the
    end; a shorter growth means the test has failed; a failed test stays
    failed and is left alone.
  */
  lemma VaryBounds<C>(worker: Worker<C>, s: TestState<C>, n: nat)
    ensures var r := Vary(worker, s, n);
      && |s.times| <= |r.times| <= |s.times| + n
      && r.times[..|s.times|] == s.times
      && |r.contexts| == |s.contexts|
      && (r.result ==> s.result)
      && (!s.result ==> r == s)
      && (s.result && r.result ==> |r.times| == |s.times| + n)
      && (s.result && |r.times| < |s.times| + n ==> !r.result)
      && (WellFormed(s) ==> WellFormed(r))
  {
    VaryFromBounds(worker, s, n, 0);
  }
}
