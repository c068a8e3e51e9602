/** The timing of `background_grab_process`: `while timeout > 0` two frames
    are grabbed around a sleep, and the measured duration of the iteration is
    subtracted from the remaining timeout. The clock is not modelled: the
    durations the clock would report are given as a sequence `elapsed`. */
module GrabTiming {

  /** The sum of the first durations, added in loop order. */
  function Total(elapsed: seq<real>): real
  {
    if elapsed == [] then 0.0 else Total(elapsed[..|elapsed| - 1]) + elapsed[|elapsed| - 1]
  }

  /** The number of iterations still to come when `i` have been made. */
  function IterationsFrom(timeout: real, elapsed: seq<real>, i: nat): (n: nat)
    requires i <= |elapsed| && timeout <= Total(elapsed)
    decreases |elapsed| - i
    ensures i <= n <= |elapsed|
    ensures timeout - Total(elapsed[..n]) <= 0.0
    ensures forall m :: i <= m < n ==> timeout - Total(elapsed[..m]) > 0.0
  {
    if timeout - Total(elapsed[..i]) <= 0.0 then i
    else
      assert i < |elapsed| by { assert elapsed[..|elapsed|] == elapsed; }
      IterationsFrom(timeout, elapsed, i + 1)
  }

  /** How many times the loop body runs: the first `n` at which the
      remaining timeout is no longer positive. */
  function Iterations(timeout: real, elapsed: seq<real>): nat
    requires timeout <= Total(elapsed)
  {
    IterationsFrom(timeout, elapsed, 0)
  }

  /** With time left after `i` iterations, iteration `i` runs and the count
      from `i + 1` is the same. */
  lemma IterationsFromStep(timeout: real, elapsed: seq<real>, i: nat)
    requires i <= |elapsed| && timeout <= Total(elapsed)
    requires timeout - Total(elapsed[..i]) > 0.0
    ensures i < |elapsed| && i < IterationsFrom(timeout, elapsed, i)
    ensures IterationsFrom(timeout, elapsed, i + 1) == IterationsFrom(timeout, elapsed, i)
  {
    assert i < |elapsed| by {
      assert elapsed[..|elapsed|] == elapsed;
    }
  }

  /** With no time left after `i` iterations, none follows. */
  lemma IterationsFromDone(timeout: real, elapsed: seq<real>, i: nat)
    requires i <= |elapsed| && timeout <= Total(elapsed)
    requires timeout - Total(elapsed[..i]) <= 0.0
    ensures IterationsFrom(timeout, elapsed, i) == i
  {
  }

  lemma TotalPrefix(elapsed: seq<real>, i: nat)
    requires i < |elapsed|
    ensures Total(elapsed[..i + 1]) == Total(elapsed[..i]) + elapsed[i]
  {
    assert elapsed[..i + 1][..i] == elapsed[..i];
  }

  /** `k * frequency`, as a repeated sum. */
  function Times(k: nat, frequency: real): real
  {
    if k == 0 then 0.0 else Times(k - 1, frequency) + frequency
  }

  /** Each iteration sleeps `grab_screen_frequency` seconds, so a duration is at
      least that long; the sum of `m` such durations is at least `m` times it. */
  lemma {:induction false} TotalAtLeast(elapsed: seq<real>, frequency: real)
    requires forall j :: 0 <= j < |elapsed| ==> elapsed[j] >= frequency
    ensures Total(elapsed) >= Times(|elapsed|, frequency)
  {
    if elapsed != [] {
      TotalAtLeast(elapsed[..|elapsed| - 1], frequency);
    }
  }

  /** A positive timeout runs the body at least once, and a timeout that is
      not positive never runs it. */
  lemma IterationsStart(timeout: real, elapsed: seq<real>)
    requires timeout <= Total(elapsed)
    ensures timeout > 0.0 <==> Iterations(timeout, elapsed) >= 1
  {
    assert elapsed[..0] == [];
  }

  /** With durations of at least `frequency`, every iteration but the last
      starts with time left, so `(n - 1) * frequency < timeout`. */
  lemma IterationsBound(timeout: real, elapsed: seq<real>, frequency: real)
    requires timeout <= Total(elapsed)
    requires forall j :: 0 <= j < |elapsed| ==> elapsed[j] >= frequency
    ensures Iterations(timeout, elapsed) >= 1 ==> Times(Iterations(timeout, elapsed) - 1, frequency) < timeout
  {
    var n := Iterations(timeout, elapsed);
    if n >= 1 {
      var p := elapsed[..n - 1];
      assert timeout - Total(p) > 0.0;
      assert forall j :: 0 <= j < |p| ==> p[j] >= frequency;
      TotalAtLeast(p, frequency);
    }
  }
}
