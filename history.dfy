/**
  A test's run history: one round per completed run, each round one
  `(cpu, real_time, context)` record per worker, and the sums the
  statistics and exports are built from.
*/
module History {

  /** What the clocks read for one worker in one round: CPU time and wall-clock time. */
  datatype Timing = Timing(cpu: real, wall: real)

  /** One worker's entry in a round: its timings and the context it was timed with. */
  datatype Record<C> = Record(cpu: real, wall: real, context: C)

  function Sum(xs: seq<real>): real
  {
    if xs == [] then 0.0 else Sum(xs[..|xs| - 1]) + xs[|xs| - 1]
  }

  lemma {:induction false} SumAppend(xs: seq<real>, ys: seq<real>)
    ensures Sum(xs + ys) == Sum(xs) + Sum(ys)
    decreases |ys|
  {
    if ys != [] {
      assert (xs + ys)[..|xs + ys| - 1] == xs + ys[..|ys| - 1];
      SumAppend(xs, ys[..|ys| - 1]);
      assert Sum(ys) == Sum(ys[..|ys| - 1]) + ys[|ys| - 1];
    } else {
      assert xs + ys == xs;
    }
  }

  function Cpus<C>(round: seq<Record<C>>): (xs: seq<real>)
    ensures |xs| == |round| && forall k :: 0 <= k < |round| ==> xs[k] == round[k].cpu
  {
    seq(|round|, k requires 0 <= k < |round| => round[k].cpu)
  }

  function Walls<C>(round: seq<Record<C>>): (xs: seq<real>)
    ensures |xs| == |round| && forall k :: 0 <= k < |round| ==> xs[k] == round[k].wall
  {
    seq(|round|, k requires 0 <= k < |round| => round[k].wall)
  }

  /** The round's `cpu_total`: the CPU times of its workers added up. */
  function RoundCpu<C>(round: seq<Record<C>>): real { Sum(Cpus(round)) }

  /** The round's `real_total`. */
  function RoundWall<C>(round: seq<Record<C>>): real { Sum(Walls(round)) }

  /** Every record of the history, round after round, workers in index order. */
  function Flatten<C>(times: seq<seq<Record<C>>>): (all: seq<Record<C>>)
  {
    if times == [] then [] else Flatten(times[..|times| - 1]) + times[|times| - 1]
  }

  /** The grand totals the per-worker averages divide. */
  function TotalCpu<C>(times: seq<seq<Record<C>>>): real { Sum(Cpus(Flatten(times))) }

  function TotalWall<C>(times: seq<seq<Record<C>>>): real { Sum(Walls(Flatten(times))) }

  /** The cumulative columns: one total per round. */
  function CpuColumn<C>(times: seq<seq<Record<C>>>): (col: seq<real>)
    ensures |col| == |times| && forall i :: 0 <= i < |times| ==> col[i] == RoundCpu(times[i])
  {
    seq(|times|, i requires 0 <= i < |times| => RoundCpu(times[i]))
  }

  function WallColumn<C>(times: seq<seq<Record<C>>>): (col: seq<real>)
    ensures |col| == |times| && forall i :: 0 <= i < |times| ==> col[i] == RoundWall(times[i])
  {
    seq(|times|, i requires 0 <= i < |times| => RoundWall(times[i]))
  }

  /** Every round of the history holds exactly `n` records. */
  ghost predicate Uniform<C>(times: seq<seq<Record<C>>>, n: nat)
  {
    forall i :: 0 <= i < |times| ==> |times[i]| == n
  }

  /**
    Cross-check between the two statistics modes: adding up the per-round
    (cumulative) totals gives the sum of every per-worker time.
  */
  lemma {:induction false} CumulativeMatchesTotal<C>(times: seq<seq<Record<C>>>)
    ensures Sum(CpuColumn(times)) == TotalCpu(times)
    ensures Sum(WallColumn(times)) == TotalWall(times)
    decreases |times|
  {
    if times != [] {
      var init, last := times[..|times| - 1], times[|times| - 1];
      CumulativeMatchesTotal(init);
      LastRoundSplit(times);
      SumAppend(Cpus(Flatten(init)), Cpus(last));
      SumAppend(Walls(Flatten(init)), Walls(last));
      assert Sum(CpuColumn(times)) == Sum(CpuColumn(init)) + RoundCpu(last);
      assert Sum(WallColumn(times)) == Sum(WallColumn(init)) + RoundWall(last);
    }
  }

  /** The columns and the flattened history of a nonempty history, its last round split off. */
  lemma LastRoundSplit<C>(times: seq<seq<Record<C>>>)
    requires times != []
    ensures var init, last := times[..|times| - 1], times[|times| - 1];
      && CpuColumn(times) == CpuColumn(init) + [RoundCpu(last)]
      && WallColumn(times) == WallColumn(init) + [RoundWall(last)]
      && Cpus(Flatten(times)) == Cpus(Flatten(init)) + Cpus(last)
      && Walls(Flatten(times)) == Walls(Flatten(init)) + Walls(last)
  {
    var init, last := times[..|times| - 1], times[|times| - 1];
    assert CpuColumn(times) == CpuColumn(init) + [RoundCpu(last)];
    assert WallColumn(times) == WallColumn(init) + [RoundWall(last)];
    assert Cpus(Flatten(times)) == Cpus(Flatten(init)) + Cpus(last);
    assert Walls(Flatten(times)) == Walls(Flatten(init)) + Walls(last);
  }

  /** A history of `|times|` rounds of `n` records holds `|times| * n` samples. */
  lemma {:induction false} FlattenLength<C>(times: seq<seq<Record<C>>>, n: nat)
    requires Uniform(times, n)
    ensures |Flatten(times)| == |times| * n
    decreases |times|
  {
    if times != [] {
      FlattenLength(times[..|times| - 1], n);
      assert |Flatten(times)| == (|times| - 1) * n + n;
    }
  }

  /** Record `k` of round `i` sits at position `i * n + k` of the flattened history. */
  lemma {:induction false} FlattenIndex<C>(times: seq<seq<Record<C>>>, n: nat, i: nat, k: nat)
    requires Uniform(times, n) && i < |times| && k < n
    ensures i * n + k < |Flatten(times)| && Flatten(times)[i * n + k] == times[i][k]
    decreases |times|
  {
    var init := times[..|times| - 1];
    FlattenLength(init, n);
    FlattenLength(times, n);
    if i < |times| - 1 {
      FlattenIndex(init, n, i, k);
      assert i * n + k < (|times| - 1) * n by {
        assert (i + 1) * n <= (|times| - 1) * n;
      }
    } else {
      assert i * n == |Flatten(init)|;
    }
  }

  /** Worker `j`'s records across the rounds: one column of the history. */
  function Column<C>(times: seq<seq<Record<C>>>, j: nat): (col: seq<Record<C>>)
    requires forall i :: 0 <= i < |times| ==> j < |times[i]|
    ensures |col| == |times| && forall i :: 0 <= i < |times| ==> col[i] == times[i][j]
  {
    seq(|times|, i requires 0 <= i < |times| => times[i][j])
  }

  lemma RoundStep<C>(round: seq<Record<C>>, j: nat)
    requires j < |round|
    ensures RoundCpu(round[..j + 1]) == RoundCpu(round[..j]) + round[j].cpu
    ensures RoundWall(round[..j + 1]) == RoundWall(round[..j]) + round[j].wall
  {
    assert Cpus(round[..j + 1]) == Cpus(round[..j]) + [round[j].cpu];
    assert Walls(round[..j + 1]) == Walls(round[..j]) + [round[j].wall];
    SumAppend(Cpus(round[..j]), [round[j].cpu]);
    SumAppend(Walls(round[..j]), [round[j].wall]);
  }

  lemma TotalStep<C>(times: seq<seq<Record<C>>>, i: nat)
    requires i < |times|
    ensures TotalCpu(times[..i + 1]) == TotalCpu(times[..i]) + RoundCpu(times[i])
    ensures TotalWall(times[..i + 1]) == TotalWall(times[..i]) + RoundWall(times[i])
  {
    assert times[..i + 1][..i] == times[..i];
    assert Flatten(times[..i + 1]) == Flatten(times[..i]) + times[i];
    assert Cpus(Flatten(times[..i + 1])) == Cpus(Flatten(times[..i])) + Cpus(times[i]);
    assert Walls(Flatten(times[..i + 1])) == Walls(Flatten(times[..i])) + Walls(times[i]);
    SumAppend(Cpus(Flatten(times[..i])), Cpus(times[i]));
    SumAppend(Walls(Flatten(times[..i])), Walls(times[i]));
  }
}
