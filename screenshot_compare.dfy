/** The screenshot similarity check shared by the three "beat the pause game"
    windows: a per-pixel squared error between two frames, its mean compared
    with a threshold derived from a similarity percentage, and the run over
    adjacent frames that saves each differing pair under a growing file name.

    A frame is a 2-D integer array, `f[x, y]` being the pixel at column `x`
    and row `y`; its width is `f.Length0` and its height `f.Length1`.
    Square roots are avoided: `sqrt(mse) - sqrt(t2) >= 0` is decided as
    `mse >= t2` over the reals (see RootComparison). */
module ScreenshotCompare {

  type Frame = array2<int>

  /** What `QImage.pixel` answers for a coordinate outside the image: Qt 5
      prints a warning and returns this fixed value instead of raising. */
  const OutOfRange: int := 12345

  /** `image.pixel(x, y)`, inside the image or not. */
  function Pixel(f: Frame, x: nat, y: nat): (r: int)
    reads f
    ensures x < f.Length0 && y < f.Length1 ==> r == f[x, y]
    ensures !(x < f.Length0 && y < f.Length1) ==> r == OutOfRange
  {
    if x < f.Length0 && y < f.Length1 then f[x, y] else OutOfRange
  }

  /** `(p1 - p2) ** 2` */
  function Sq(d: int): int { d * d }

  /** Squared pixel differences of column `x`, rows `0 <= y < h`. */
  function ColumnError(a: Frame, b: Frame, x: nat, h: nat): int
    requires x < a.Length0 && h <= a.Length1
    reads a, b
  {
    if h == 0 then 0 else ColumnError(a, b, x, h - 1) + Sq(a[x, h - 1] - Pixel(b, x, h - 1))
  }

  /** Squared pixel differences over columns `0 <= x < w` of height `h`. */
  function AreaError(a: Frame, b: Frame, w: nat, h: nat): int
    requires w <= a.Length0 && h <= a.Length1
    reads a, b
  {
    if w == 0 then 0 else AreaError(a, b, w - 1, h) + ColumnError(a, b, w - 1, h)
  }

  /** The squared error over the first frame's `w x h` grid. */
  function SquaredError(a: Frame, b: Frame): int
    reads a, b
  {
    AreaError(a, b, a.Length0, a.Length1)
  }

  /** The second frame shows the first frame's pixels all over the first
      frame's grid. */
  predicate Agree(a: Frame, b: Frame)
    reads a, b
  {
    forall x: nat, y: nat :: x < a.Length0 && y < a.Length1 ==> a[x, y] == Pixel(b, x, y)
  }

  lemma SqZero(d: int)
    ensures Sq(d) >= 0
    ensures Sq(d) == 0 <==> d == 0
  {
    if d > 0 { assert d * d >= d; } else if d < 0 { assert (-d) * (-d) >= -d; }
  }

  lemma {:induction false} ColumnErrorZero(a: Frame, b: Frame, x: nat, h: nat)
    requires x < a.Length0 && h <= a.Length1
    ensures ColumnError(a, b, x, h) >= 0
    ensures ColumnError(a, b, x, h) == 0 <==> forall y: nat :: y < h ==> a[x, y] == Pixel(b, x, y)
  {
    if h > 0 {
      ColumnErrorZero(a, b, x, h - 1);
      SqZero(a[x, h - 1] - Pixel(b, x, h - 1));
    }
  }

  lemma {:induction false} AreaErrorZero(a: Frame, b: Frame, w: nat, h: nat)
    requires w <= a.Length0 && h <= a.Length1
    ensures AreaError(a, b, w, h) >= 0
    ensures AreaError(a, b, w, h) == 0 <==> forall x: nat, y: nat :: x < w && y < h ==> a[x, y] == Pixel(b, x, y)
  {
    if w > 0 {
      AreaErrorZero(a, b, w - 1, h);
      ColumnErrorZero(a, b, w - 1, h);
    }
  }

  /** The squared error is never negative, and is zero exactly when the frames
      agree on the first frame's grid. */
  lemma SquaredErrorZero(a: Frame, b: Frame)
    ensures SquaredError(a, b) >= 0
    ensures SquaredError(a, b) == 0 <==> Agree(a, b)
  {
    AreaErrorZero(a, b, a.Length0, a.Length1);
  }

  /** The nested `for x in range(w): for y in range(h)` accumulation. */
  method ComputeSquaredError(a: Frame, b: Frame) returns (squaredErr: int)
    ensures squaredErr == SquaredError(a, b)
    ensures squaredErr >= 0 && (squaredErr == 0 <==> Agree(a, b))
  {
    var w, h := a.Length0, a.Length1;
    squaredErr := 0;
    for x := 0 to w
      invariant squaredErr == AreaError(a, b, x, h)
    {
      for y := 0 to h
        invariant squaredErr == AreaError(a, b, x, h) + ColumnError(a, b, x, y)
      {
        var d := a[x, y] - Pixel(b, x, y);
        squaredErr := squaredErr + d * d;
      }
    }
    SquaredErrorZero(a, b);
  }

  /** `2**24`: the number of levels of a 24-bit colour. */
  const ColourLevels: int := 0x100_0000

  /** The square of `rmse_threshold` for a similarity percentage `p`:
      `(100 - p) / 100 * (2**24) ** 2`. */
  function ThresholdSq(p: real): real
  {
    (100.0 - p) / 100.0 * (ColourLevels * ColourLevels) as real
  }

  /** The threshold shrinks as the required similarity grows, is zero at 100 %
      and is a proper square (non-negative) up to 100 %. */
  lemma ThresholdShape(p: real, q: real)
    requires p <= q
    ensures ThresholdSq(q) <= ThresholdSq(p)
    ensures p <= 100.0 ==> ThresholdSq(p) >= 0.0
    ensures ThresholdSq(100.0) == 0.0
  {
    var k := (ColourLevels * ColourLevels) as real;
    assert k > 0.0;
    assert (100.0 - q) / 100.0 <= (100.0 - p) / 100.0;
    MulMonotone((100.0 - q) / 100.0, (100.0 - p) / 100.0, k);
  }

  /** `calculate_rmse_threshold` takes `math.sqrt` of the square, which
      raises ValueError when the percentage is above 100. */
  predicate ThresholdRaises(p: real)
  {
    p > 100.0
  }

  /** The square root raises exactly when its argument is negative. */
  lemma ThresholdRaisesIff(p: real)
    ensures ThresholdRaises(p) <==> ThresholdSq(p) < 0.0
  {
    var k := (ColourLevels * ColourLevels) as real;
    assert k > 0.0;
    if p > 100.0 {
      assert (100.0 - p) / 100.0 < 0.0;
      assert ThresholdSq(p) == (100.0 - p) / 100.0 * k;
    } else {
      ThresholdShape(p, 100.0);
    }
  }

  lemma MulMonotone(x: real, y: real, k: real)
    requires x <= y && k >= 0.0
    ensures x * k <= y * k
  {
    assert y * k - x * k == (y - x) * k;
  }

  /** The window's default similarity of 80 % gives `0.2 * 2**48`. */
  lemma ThresholdAt80()
    ensures ThresholdSq(80.0) == 0.2 * (ColourLevels * ColourLevels) as real
  {
  }

  /** Comparing the roots is comparing the squares: for non-negative `rmse`
      and `threshold`, `rmse - threshold >= 0` exactly when
      `rmse * rmse >= threshold * threshold`. */
  lemma RootComparison(rmse: real, threshold: real)
    requires rmse >= 0.0 && threshold >= 0.0
    ensures rmse - threshold >= 0.0 <==> rmse * rmse >= threshold * threshold
  {
    var d, s := rmse - threshold, rmse + threshold;
    assert d * s == rmse * rmse - threshold * threshold;
    if d < 0.0 {
      assert (-d) * s > 0.0 || s == 0.0;
    } else {
      assert d * s >= 0.0;
    }
  }

  /** What one comparison of an adjacent pair decides. */
  datatype Verdict =
    | Similar      // `rmse - rmse_threshold < 0`: nothing is saved
    | Different    // the pair is saved
    | ZeroArea     // `squared_err / float(w * h)` raises ZeroDivisionError

  /** `mse >= threshold ** 2`, the square form of `not (rmse - threshold < 0)`. */
  function Decide(mse: real, thresholdSq: real): Verdict
  {
    if mse >= thresholdSq then Different else Similar
  }

  /** The verdict on frames `a` and `b`. With `zeroGuard` a zero width or
      height is replaced by 1 x 1 (the squared error is then 0); without it
      the division by zero aborts the run. */
  function PairVerdict(a: Frame, b: Frame, thresholdSq: real, zeroGuard: bool): Verdict
    reads a, b
  {
    var w, h := a.Length0, a.Length1;
    if w == 0 || h == 0 then
      if zeroGuard then Decide(SquaredError(a, b) as real / 1.0, thresholdSq) else ZeroArea
    else Decide(SquaredError(a, b) as real / (w * h) as real, thresholdSq)
  }

  /** Identical frames are never saved while the threshold is positive, that
      is while the similarity percentage is below 100. */
  lemma IdenticalNotSaved(a: Frame, b: Frame, p: real, zeroGuard: bool)
    requires Agree(a, b) && p < 100.0
    ensures PairVerdict(a, b, ThresholdSq(p), zeroGuard) != Different
  {
    SquaredErrorZero(a, b);
    var k := (ColourLevels * ColourLevels) as real;
    assert (100.0 - p) / 100.0 > 0.0;
    assert ThresholdSq(p) > 0.0;
  }

  /** A frame written to disk by `QImage.save`, under `name` in the save directory. */
  datatype Save = Save(dir: string, name: string, frame: Frame)

  /** The state of a comparison run: the frames written so far, the current
      `image_saved_name`, how many adjacent pairs were compared, and whether a
      division by zero ended the run. */
  datatype Run = Run(saves: seq<Save>, name: string, compared: nat, aborted: bool)

  /** `n` characters '1'. */
  function Ones(n: nat): (r: string)
    ensures |r| == n
  {
    if n == 0 then "" else Ones(n - 1) + "1"
  }

  lemma {:induction false} OnesAdd(m: nat, n: nat)
    ensures Ones(m) + Ones(n) == Ones(m + n)
  {
    if n > 0 {
      OnesAdd(m, n - 1);
      assert Ones(m) + Ones(n) == Ones(m) + Ones(n - 1) + "1";
    }
  }

  lemma NameShift(name0: string, m: nat, i: nat, j: nat)
    requires j == m + i
    ensures name0 + Ones(m) + Ones(i) == name0 + Ones(j)
  {
    OnesAdd(m, i);
    assert name0 + Ones(m) + Ones(i) == name0 + (Ones(m) + Ones(i));
  }

  /** The `j`-th save is named `name0` followed by `j` characters '1'. */
  predicate NamedInOrder(saves: seq<Save>, name0: string)
  {
    forall j :: 0 <= j < |saves| ==> saves[j].name == name0 + Ones(j)
  }

  /** Saves named in order never share a name, so no saved frame overwrites another. */
  lemma NamedInOrderDistinct(saves: seq<Save>, name0: string)
    requires NamedInOrder(saves, name0)
    ensures forall j1, j2 :: 0 <= j1 < j2 < |saves| ==> saves[j1].name != saves[j2].name
  {
    forall j1, j2 | 0 <= j1 < j2 < |saves| ensures saves[j1].name != saves[j2].name {
      assert |saves[j1].name| < |saves[j2].name|;
    }
  }

  /** A later run that starts from the name an earlier run ended with continues
      the naming of the earlier one. */
  lemma NamedInOrderAppend(a: seq<Save>, b: seq<Save>, name0: string)
    requires NamedInOrder(a, name0) && NamedInOrder(b, name0 + Ones(|a|))
    ensures NamedInOrder(a + b, name0)
  {
    forall j | 0 <= j < |a| + |b| ensures (a + b)[j].name == name0 + Ones(j) {
      if j < |a| {
        assert (a + b)[j] == a[j];
      } else {
        var i := j - |a|;
        assert (a + b)[j] == b[i];
        assert b[i].name == name0 + Ones(|a|) + Ones(i);
        NameShift(name0, |a|, i, j);
      }
    }
  }

  /** One loop iteration on frames `a` (at `counter`) and `b` (at `counter + 1`),
      given the verdict on them. */
  function Step(prev: Run, dir: string, a: Frame, b: Frame, verdict: Verdict): Run
  {
    match verdict
    case ZeroArea => prev.(compared := prev.compared + 1, aborted := true)
    case Similar => prev.(compared := prev.compared + 1)
    case Different =>
      Run(prev.saves + [Save(dir, prev.name, a), Save(dir, prev.name + "1", b)],
          prev.name + "1" + "1", prev.compared + 1, false)
  }

  /** `vs[i]` is the verdict on `frames[i]` and `frames[i + 1]`. */
  predicate VerdictAt(frames: seq<Frame>, vs: seq<Verdict>, i: nat, thresholdSq: real, zeroGuard: bool)
    requires i < |vs| && i + 1 < |frames|
    reads frames
  {
    vs[i] == PairVerdict(frames[i], frames[i + 1], thresholdSq, zeroGuard)
  }

  /** The verdicts on the adjacent pairs of `frames`, in order. */
  function Verdicts(frames: seq<Frame>, thresholdSq: real, zeroGuard: bool): (vs: seq<Verdict>)
    reads frames
    ensures |vs| == if |frames| == 0 then 0 else |frames| - 1
    ensures forall i :: 0 <= i < |vs| ==> VerdictAt(frames, vs, i, thresholdSq, zeroGuard)
  {
    if |frames| < 2 then []
    else
      var n := |frames|;
      var init := Verdicts(frames[..n - 1], thresholdSq, zeroGuard);
      var vs := init + [PairVerdict(frames[n - 2], frames[n - 1], thresholdSq, zeroGuard)];
      assert forall i :: 0 <= i < |vs| ==> VerdictAt(frames, vs, i, thresholdSq, zeroGuard) by {
        forall i | 0 <= i < |vs| ensures VerdictAt(frames, vs, i, thresholdSq, zeroGuard) {
          if i < |init| {
            assert VerdictAt(frames[..n - 1], init, i, thresholdSq, zeroGuard);
          }
        }
      }
      vs
  }

  /** The run after the first `k` iterations of `for counter in range(len(image_list) - 1)`,
      `verdicts[i]` being the verdict on `image_list[i]` and `image_list[i + 1]`. */
  function RunOver(frames: seq<Frame>, verdicts: seq<Verdict>, k: nat, dir: string, name0: string): Run
    requires k < |frames| && k <= |verdicts|
  {
    if k == 0 then Run([], name0, 0, false)
    else
      var prev := RunOver(frames, verdicts, k - 1, dir, name0);
      if prev.aborted then prev else Step(prev, dir, frames[k - 1], frames[k], verdicts[k - 1])
  }

  /** An iteration of a run not yet aborted is one more `Step`. */
  lemma RunOverNext(frames: seq<Frame>, verdicts: seq<Verdict>, k: nat, dir: string, name0: string)
    requires k + 1 < |frames| && k < |verdicts| && !RunOver(frames, verdicts, k, dir, name0).aborted
    ensures RunOver(frames, verdicts, k + 1, dir, name0) ==
      Step(RunOver(frames, verdicts, k, dir, name0), dir, frames[k], frames[k + 1], verdicts[k])
  {
  }

  /** The pairing guard: more than one frame and an even number of them. */
  predicate CanCompare(frames: seq<Frame>)
  {
    |frames| > 1 && |frames| % 2 == 0
  }

  /** `compare_screenshots` on `image_list`: nothing at all unless the guard
      holds, else every adjacent pair in turn. */
  function CompareAll(frames: seq<Frame>, dir: string, name0: string, thresholdSq: real, zeroGuard: bool): Run
    reads frames
  {
    if CanCompare(frames) then RunOver(frames, Verdicts(frames, thresholdSq, zeroGuard), |frames| - 1, dir, name0)
    else Run([], name0, 0, false)
  }

  /** What a prefix of the run looks like: it compared one pair per iteration
      (up to the aborting one), every save of the run so far is named after the
      starting name plus one more '1' than the previous save, and the name ends
      one '1' longer per saved frame. */
  lemma {:induction false} RunOverNames(frames: seq<Frame>, verdicts: seq<Verdict>, k: nat, dir: string, name0: string)
    requires k < |frames| && k <= |verdicts|
    ensures var r := RunOver(frames, verdicts, k, dir, name0);
      && r.compared <= k
      && (!r.aborted ==> r.compared == k)
      && |r.saves| % 2 == 0
      && r.name == name0 + Ones(|r.saves|)
      && NamedInOrder(r.saves, name0) && InDir(r.saves, dir)
  {
    if k > 0 {
      RunOverNames(frames, verdicts, k - 1, dir, name0);
      var prev := RunOver(frames, verdicts, k - 1, dir, name0);
      if !prev.aborted && verdicts[k - 1] == Different {
        SaveTwoNames(prev, dir, frames[k - 1], frames[k], name0);
      }
    }
  }

  /** Saving a differing pair keeps the naming: the two new saves take the
      next two names and the name moves past them. */
  lemma SaveTwoNames(prev: Run, dir: string, a: Frame, b: Frame, name0: string)
    requires prev.name == name0 + Ones(|prev.saves|)
    requires NamedInOrder(prev.saves, name0) && InDir(prev.saves, dir)
    ensures var r := Step(prev, dir, a, b, Different);
      && |r.saves| == |prev.saves| + 2
      && r.name == name0 + Ones(|r.saves|)
      && NamedInOrder(r.saves, name0) && InDir(r.saves, dir)
  {
    var n := |prev.saves|;
    var r := Step(prev, dir, a, b, Different);
    var added := [Save(dir, prev.name, a), Save(dir, prev.name + "1", b)];
    assert r.saves == prev.saves + added;
    assert prev.name + "1" == name0 + Ones(n + 1);
    assert r.name == name0 + Ones(n + 2);
    forall j | 0 <= j < |r.saves| ensures r.saves[j].name == name0 + Ones(j) && r.saves[j].dir == dir {
      if j < n {
        assert r.saves[j] == prev.saves[j];
      } else {
        assert r.saves[j] == added[j - n];
      }
    }
  }

  /** Every save goes to directory `dir`. */
  predicate InDir(saves: seq<Save>, dir: string)
  {
    forall j :: 0 <= j < |saves| ==> saves[j].dir == dir
  }

  /** The `j`-th saved pair holds the adjacent frames `image_list[i]` and
      `image_list[i + 1]`, and their verdict was Different. */
  predicate PairSavedAt(frames: seq<Frame>, verdicts: seq<Verdict>, saves: seq<Save>, j: nat, i: nat)
    requires 2 * j + 1 < |saves|
  {
    i < |verdicts| && i + 1 < |frames| && saves[2 * j].frame == frames[i] && saves[2 * j + 1].frame == frames[i + 1]
    && verdicts[i] == Different
  }

  /** The `j`-th saved pair is an adjacent pair among the first `compared` ones. */
  predicate SavedPairFrom(frames: seq<Frame>, verdicts: seq<Verdict>, saves: seq<Save>, compared: nat, j: nat)
    requires 2 * j + 1 < |saves|
  {
    exists i :: 0 <= i < compared && PairSavedAt(frames, verdicts, saves, j, i)
  }

  /** Each saved pair is an adjacent pair, already compared, whose verdict was Different. */
  lemma {:induction false} RunOverPairs(frames: seq<Frame>, verdicts: seq<Verdict>, k: nat, dir: string, name0: string)
    requires k < |frames| && k <= |verdicts|
    ensures var r := RunOver(frames, verdicts, k, dir, name0);
      r.compared <= k && |r.saves| % 2 == 0 &&
      forall j :: 0 <= j < |r.saves| / 2 ==> SavedPairFrom(frames, verdicts, r.saves, r.compared, j)
  {
    if k > 0 {
      RunOverPairs(frames, verdicts, k - 1, dir, name0);
      RunOverNames(frames, verdicts, k - 1, dir, name0);
      var prev := RunOver(frames, verdicts, k - 1, dir, name0);
      var r := RunOver(frames, verdicts, k, dir, name0);
      if !prev.aborted {
        var n := |prev.saves|;
        if verdicts[k - 1] == Different {
          assert r.saves == prev.saves + [Save(dir, prev.name, frames[k - 1]), Save(dir, prev.name + "1", frames[k])];
        }
        forall j | 0 <= j < |r.saves| / 2
          ensures SavedPairFrom(frames, verdicts, r.saves, r.compared, j)
        {
          if j < n / 2 {
            assert SavedPairFrom(frames, verdicts, prev.saves, prev.compared, j);
            var i :| 0 <= i < prev.compared && PairSavedAt(frames, verdicts, prev.saves, j, i);
            assert r.saves[2 * j] == prev.saves[2 * j] && r.saves[2 * j + 1] == prev.saves[2 * j + 1];
            assert PairSavedAt(frames, verdicts, r.saves, j, i);
          } else {
            assert PairSavedAt(frames, verdicts, r.saves, j, k - 1);
          }
        }
      }
    }
  }

  /** Once a division by zero has ended the run, later iterations change nothing. */
  lemma {:induction false} AbortedStays(frames: seq<Frame>, verdicts: seq<Verdict>, k: nat, m: nat, dir: string, name0: string)
    requires k <= m < |frames| && m <= |verdicts|
    requires RunOver(frames, verdicts, k, dir, name0).aborted
    ensures RunOver(frames, verdicts, m, dir, name0) == RunOver(frames, verdicts, k, dir, name0)
  {
    if m > k {
      AbortedStays(frames, verdicts, k, m - 1, dir, name0);
    }
  }

  /** The `j`-th saved pair is `image_list[i]` and `image_list[i + 1]`, judged Different. */
  predicate SavedPairJudged(frames: seq<Frame>, saves: seq<Save>, j: nat, i: nat, thresholdSq: real, zeroGuard: bool)
    requires 2 * j + 1 < |saves|
    reads frames
  {
    i + 1 < |frames| && saves[2 * j].frame == frames[i] && saves[2 * j + 1].frame == frames[i + 1]
    && PairVerdict(frames[i], frames[i + 1], thresholdSq, zeroGuard) == Different
  }

  /** The `j`-th saved pair is an adjacent pair, among the first `compared`, judged Different. */
  predicate JudgedPairFrom(frames: seq<Frame>, saves: seq<Save>, compared: nat, j: nat, thresholdSq: real, zeroGuard: bool)
    requires 2 * j + 1 < |saves|
    reads frames
  {
    exists i :: 0 <= i < compared && SavedPairJudged(frames, saves, j, i, thresholdSq, zeroGuard)
  }

  /** The whole comparison: nothing happens unless the pairing guard holds; a
      run that is not aborted makes exactly `len(image_list) - 1` comparisons;
      the saved frames come in adjacent pairs judged Different, in order; and
      no two saved frames share a name, the final name being one '1' longer
      per saved frame. */
  lemma CompareAllShape(frames: seq<Frame>, dir: string, name0: string, thresholdSq: real, zeroGuard: bool)
    ensures var r := CompareAll(frames, dir, name0, thresholdSq, zeroGuard);
      && (!CanCompare(frames) ==> r.saves == [] && r.name == name0 && r.compared == 0)
      && (CanCompare(frames) && !r.aborted ==> r.compared == |frames| - 1)
      && r.name == name0 + Ones(|r.saves|)
      && NamedInOrder(r.saves, name0)
      && (forall j :: 0 <= j < |r.saves| ==> r.saves[j].dir == dir)
      && (forall j1, j2 :: 0 <= j1 < j2 < |r.saves| ==> r.saves[j1].name != r.saves[j2].name)
      && |r.saves| % 2 == 0
      && (forall j :: 0 <= j < |r.saves| / 2 ==> JudgedPairFrom(frames, r.saves, r.compared, j, thresholdSq, zeroGuard))
  {
    var r := CompareAll(frames, dir, name0, thresholdSq, zeroGuard);
    if CanCompare(frames) {
      var vs := Verdicts(frames, thresholdSq, zeroGuard);
      RunOverNames(frames, vs, |frames| - 1, dir, name0);
      RunOverPairs(frames, vs, |frames| - 1, dir, name0);
      forall j | 0 <= j < |r.saves| / 2
        ensures JudgedPairFrom(frames, r.saves, r.compared, j, thresholdSq, zeroGuard)
      {
        assert SavedPairFrom(frames, vs, r.saves, r.compared, j);
        var i :| 0 <= i < r.compared && PairSavedAt(frames, vs, r.saves, j, i);
        assert VerdictAt(frames, vs, i, thresholdSq, zeroGuard);
        assert SavedPairJudged(frames, r.saves, j, i, thresholdSq, zeroGuard);
      }
    }
    NamedInOrderDistinct(r.saves, name0);
  }

  /** Without a ZeroArea verdict among the first `k`, the run is not aborted. */
  lemma {:induction false} RunOverNoAbort(frames: seq<Frame>, verdicts: seq<Verdict>, k: nat, dir: string, name0: string)
    requires k < |frames| && k <= |verdicts|
    requires forall i :: 0 <= i < k ==> verdicts[i] != ZeroArea
    ensures !RunOver(frames, verdicts, k, dir, name0).aborted
  {
    if k > 0 {
      RunOverNoAbort(frames, verdicts, k - 1, dir, name0);
    }
  }

  /** A verdict is ZeroArea exactly when the guard is off and the first frame
      has no pixels. */
  lemma ZeroAreaVerdict(a: Frame, b: Frame, thresholdSq: real, zeroGuard: bool)
    ensures PairVerdict(a, b, thresholdSq, zeroGuard) == ZeroArea <==> !zeroGuard && (a.Length0 == 0 || a.Length1 == 0)
  {
  }

  /** With the zero-size guard the comparison always runs to the end. */
  lemma GuardedNeverAborts(frames: seq<Frame>, dir: string, name0: string, thresholdSq: real)
    ensures !CompareAll(frames, dir, name0, thresholdSq, true).aborted
  {
    if CanCompare(frames) {
      var vs := Verdicts(frames, thresholdSq, true);
      forall i | 0 <= i < |frames| - 1 ensures vs[i] != ZeroArea {
        assert VerdictAt(frames, vs, i, thresholdSq, true);
        ZeroAreaVerdict(frames[i], frames[i + 1], thresholdSq, true);
      }
      RunOverNoAbort(frames, vs, |frames| - 1, dir, name0);
    }
  }

  /** A frame without pixels: zero width or zero height. */
  predicate Empty(f: Frame)
  {
    f.Length0 == 0 || f.Length1 == 0
  }

  /** A run aborts exactly when a ZeroArea verdict lies among the pairs it
      reached, and then it stopped right after the first of them. */
  lemma {:induction false} RunOverAborts(frames: seq<Frame>, verdicts: seq<Verdict>, k: nat, dir: string, name0: string)
    requires k < |frames| && k <= |verdicts|
    ensures var r := RunOver(frames, verdicts, k, dir, name0);
      && (r.aborted <==> exists i :: 0 <= i < k && verdicts[i] == ZeroArea)
      && (r.aborted ==>
            1 <= r.compared <= k && verdicts[r.compared - 1] == ZeroArea &&
            forall i :: 0 <= i < r.compared - 1 ==> verdicts[i] != ZeroArea)
  {
    if k > 0 {
      RunOverAborts(frames, verdicts, k - 1, dir, name0);
      RunOverNames(frames, verdicts, k - 1, dir, name0);
    }
  }

  /** Without the guard, the comparison stops at the first pair whose first
      frame has no pixels, keeping what the earlier pairs saved; when that is
      the very first frame, nothing is saved. */
  lemma UnguardedAborts(frames: seq<Frame>, dir: string, name0: string, thresholdSq: real)
    ensures var r := CompareAll(frames, dir, name0, thresholdSq, false);
      r.aborted <==> CanCompare(frames) && exists i :: 0 <= i < |frames| - 1 && Empty(frames[i])
    ensures var r := CompareAll(frames, dir, name0, thresholdSq, false);
      r.aborted ==>
        1 <= r.compared < |frames| && Empty(frames[r.compared - 1]) &&
        forall i :: 0 <= i < r.compared - 1 ==> !Empty(frames[i])
    ensures var r := CompareAll(frames, dir, name0, thresholdSq, false);
      CanCompare(frames) && Empty(frames[0]) ==> r.aborted && r.saves == [] && r.compared == 1 && r.name == name0
  {
    if CanCompare(frames) {
      var vs := Verdicts(frames, thresholdSq, false);
      forall i | 0 <= i < |frames| - 1 ensures vs[i] == ZeroArea <==> Empty(frames[i]) {
        assert VerdictAt(frames, vs, i, thresholdSq, false);
        ZeroAreaVerdict(frames[i], frames[i + 1], thresholdSq, false);
      }
      RunOverAborts(frames, vs, |frames| - 1, dir, name0);
      if Empty(frames[0]) {
        assert RunOver(frames, vs, 1, dir, name0).aborted;
        AbortedStays(frames, vs, 1, |frames| - 1, dir, name0);
      }
    }
  }

  /** A run that starts from the name after the saves already written
      continues their naming: all saves together are named in order, and the
      final name is the next free one. */
  lemma CompareContinuesNames(saved: seq<Save>, frames: seq<Frame>, dir: string, name0: string, thresholdSq: real, zeroGuard: bool)
    requires NamedInOrder(saved, name0)
    ensures var run := CompareAll(frames, dir, name0 + Ones(|saved|), thresholdSq, zeroGuard);
      && NamedInOrder(saved + run.saves, name0)
      && run.name == name0 + Ones(|saved + run.saves|)
  {
    var start := name0 + Ones(|saved|);
    var run := CompareAll(frames, dir, start, thresholdSq, zeroGuard);
    CompareAllShape(frames, dir, start, thresholdSq, zeroGuard);
    NamedInOrderAppend(saved, run.saves, name0);
    NameShift(name0, |saved|, |run.saves|, |saved| + |run.saves|);
  }

  /** Lines 526-549 of the window's `compare_screenshots`: the squared error of
      the pair, its mean over the first frame's pixels (over one pixel when the
      zero-size guard applies) and its comparison with the threshold. */
  method JudgePair(image1: Frame, image2: Frame, thresholdSq: real, zeroGuard: bool) returns (verdict: Verdict)
    ensures verdict == PairVerdict(image1, image2, thresholdSq, zeroGuard)
  {
    var w, h := image1.Length0, image1.Length1;
    var squaredErr := ComputeSquaredError(image1, image2);
    if w == 0 || h == 0 {
      if !zeroGuard {
        return ZeroArea;
      }
      w, h := 1, 1;
    }
    var mse := squaredErr as real / (w * h) as real;
    if mse < thresholdSq {
      verdict := Similar;
    } else {
      verdict := Different;
    }
  }

  /** The comparison loop of `compare_screenshots`: each adjacent pair is
      judged and, when it differs, the first frame is saved under the current
      name and the second under the name grown by '1', the name growing by
      '1' again afterwards. A division by zero stops the loop. */
  method CompareFrames(frames: seq<Frame>, dir: string, name0: string, thresholdSq: real, zeroGuard: bool) returns (r: Run)
    ensures r == CompareAll(frames, dir, name0, thresholdSq, zeroGuard)
  {
    r := Run([], name0, 0, false);
    if !(|frames| > 1 && |frames| % 2 == 0) {
      return;
    }
    ghost var vs := Verdicts(frames, thresholdSq, zeroGuard);
    var saves: seq<Save> := [];
    var name := name0;
    var counter := 0;
    var aborted := false;
    while counter < |frames| - 1 && !aborted
      invariant 0 <= counter <= |frames| - 1
      invariant Run(saves, name, counter, aborted) == RunOver(frames, vs, counter, dir, name0)
    {
      ghost var prev := Run(saves, name, counter, aborted);
      var image1, image2 := frames[counter], frames[counter + 1];
      var verdict := JudgePair(image1, image2, thresholdSq, zeroGuard);
      assert VerdictAt(frames, vs, counter, thresholdSq, zeroGuard);
      assert verdict == vs[counter];
      RunOverNext(frames, vs, counter, dir, name0);
      ghost var next := RunOver(frames, vs, counter + 1, dir, name0);
      assert next == Step(prev, dir, image1, image2, verdict);
      if verdict == ZeroArea {
        aborted := true;
      } else if verdict == Different {
        saves := saves + [Save(dir, name, image1)];
        name := name + "1";
        saves := saves + [Save(dir, name, image2)];
        name := name + "1";
        assert saves == prev.saves + [Save(dir, prev.name, image1), Save(dir, prev.name + "1", image2)];
      }
      counter := counter + 1;
      assert Run(saves, name, counter, aborted) == next;
    }
    if aborted {
      AbortedStays(frames, vs, counter, |frames| - 1, dir, name0);
    }
    r := Run(saves, name, counter, aborted);
  }
}
