/** The main window of examples/multimedia/pyqt5_beat_the_pause_game_app.py:
    its settings, the frame list filled by the grab loop and the comparison
    that saves differing adjacent frames. Grabbing can fail (the exception is
    caught and nothing is appended), and frames without pixels are compared
    as 1 x 1. Dialog answers, the clock and the grabbed frames are inputs. */
module BeatPauseApp {
  import opened Wrappers
  import opened ScreenshotCompare
  import opened GrabTiming
  import opened SettingsDialog

  const InitialSavedName: string := "screenshot_saved_1"

  /** `img_1`: the file every successful grab also writes. */
  const ScratchName: string := "img_1"

  /** The frames of the grabs that succeeded, in order. */
  function Grabbed(shots: seq<Option<Frame>>): (frames: seq<Frame>)
    ensures |frames| <= |shots|
  {
    if shots == [] then []
    else
      var init := Grabbed(shots[..|shots| - 1]);
      match shots[|shots| - 1]
      case Some(f) => init + [f]
      case None => init
  }

  /** `f` is the frame of one of the shots. */
  predicate ShotOf(shots: seq<Option<Frame>>, f: Frame)
  {
    exists i :: 0 <= i < |shots| && shots[i] == Some(f)
  }

  /** Exactly the frames of the successful grabs are kept. */
  lemma {:induction false} GrabbedFrames(shots: seq<Option<Frame>>)
    ensures forall k :: 0 <= k < |Grabbed(shots)| ==> ShotOf(shots, Grabbed(shots)[k])
    ensures forall i :: 0 <= i < |shots| && shots[i].Some? ==> shots[i].value in Grabbed(shots)
  {
    if shots != [] {
      var n := |shots|;
      var p := shots[..n - 1];
      GrabbedFrames(p);
      assert forall i :: 0 <= i < n - 1 ==> p[i] == shots[i];
      var frames := Grabbed(shots);
      assert frames == Grabbed(p) + if shots[n - 1].Some? then [shots[n - 1].value] else [];
      forall k | 0 <= k < |frames|
        ensures ShotOf(shots, frames[k])
      {
        if k < |Grabbed(p)| {
          assert ShotOf(p, Grabbed(p)[k]);
          var i :| 0 <= i < n - 1 && p[i] == Some(Grabbed(p)[k]);
          assert shots[i] == Some(frames[k]);
        } else {
          assert shots[n - 1] == Some(frames[k]);
        }
      }
    }
  }

  /** The prefix of `k + 1` shots extends the prefix of `k` by at most the new frame. */
  lemma GrabbedStep(shots: seq<Option<Frame>>, k: nat)
    requires k < |shots|
    ensures Grabbed(shots[..k + 1]) == Grabbed(shots[..k]) + (if shots[k].Some? then [shots[k].value] else [])
  {
    assert shots[..k + 1][..k] == shots[..k];
  }

  /** The `img_1` file after a series of grabs: the last frame grabbed, if any. */
  function ScratchAfter(prev: Option<Save>, dir: string, frames: seq<Frame>): Option<Save>
  {
    if frames == [] then prev else Some(Save(dir, ScratchName, frames[|frames| - 1]))
  }

  /** A grab rewrites `img_1` exactly when it succeeds. */
  lemma ScratchStep(prev: Option<Save>, dir: string, frames: seq<Frame>, shot: Option<Frame>)
    ensures ScratchAfter(prev, dir, frames + (if shot.Some? then [shot.value] else []))
      == if shot.Some? then Some(Save(dir, ScratchName, shot.value)) else ScratchAfter(prev, dir, frames)
  {
    if shot.None? {
      assert frames + [] == frames;
    }
  }

  class MainWindow {
    var grabScreenTimeout: real
    var grabScreenFrequency: real
    var grabScreenStartDelay: real
    var imageSavedName: string
    var imageSimilarityPercentage: real
    var imgSavedDir: string
    var imageList: seq<Frame>
    /** The square of `rmse_threshold`; None until it is first computed. */
    var rmseThresholdSq: Option<real>
    /** The frames `compare_screenshots` wrote, in order. */
    var saved: seq<Save>
    /** The `img_1` file `grab_screen` rewrites. */
    var scratch: Option<Save>

    /** Saved frames are named in order from the initial name, and the
        current name is the next one. */
    predicate Valid()
      reads this`saved, this`imageSavedName
    {
      && NamedInOrder(saved, InitialSavedName)
      && imageSavedName == InitialSavedName + Ones(|saved|)
    }

    /** The initial settings of `__init__`, with `cwd` for `os.getcwd()`. */
    constructor(cwd: string)
      ensures Valid()
      ensures grabScreenTimeout == 5.0 && grabScreenFrequency == 0.25 && grabScreenStartDelay == 0.0
      ensures imageSavedName == InitialSavedName && imageSimilarityPercentage == 80.0 && imgSavedDir == cwd
      ensures imageList == [] && rmseThresholdSq == None && saved == [] && scratch == None
    {
      grabScreenTimeout := 5.0;
      grabScreenFrequency := 0.25;
      grabScreenStartDelay := 0.0;
      imageSavedName := InitialSavedName;
      imageSimilarityPercentage := 80.0;
      imgSavedDir := cwd;
      imageList := [];
      rmseThresholdSq := None;
      saved := [];
      scratch := None;
    }

    /** The start-delay dialog: the start delay becomes the number given;
        text `float()` cannot read raises ValueError in the slot. */
    method OnSetStartDelay(answer: Answer) returns (raised: bool)
      modifies this`grabScreenStartDelay
      ensures raised <==> answer.NotANumber?
      ensures grabScreenStartDelay == Updated(old(grabScreenStartDelay), answer)
    {
      raised := answer.NotANumber?;
      if answer.Number? {
        grabScreenStartDelay := answer.value;
      }
    }

    /** The timeout dialog. A typed timeout of zero or less makes the grab
        loop run no iteration. */
    method OnSetTimeout(answer: Answer) returns (raised: bool)
      modifies this`grabScreenTimeout
      ensures raised <==> answer.NotANumber?
      ensures grabScreenTimeout == Updated(old(grabScreenTimeout), answer)
    {
      raised := answer.NotANumber?;
      if answer.Number? {
        grabScreenTimeout := answer.value;
      }
    }

    /** The update-frequency dialog. A typed negative frequency is accepted
        here and makes the grab loop's `time.sleep` raise later. */
    method OnSetUpdateFrequency(answer: Answer) returns (raised: bool)
      modifies this`grabScreenFrequency
      ensures raised <==> answer.NotANumber?
      ensures grabScreenFrequency == Updated(old(grabScreenFrequency), answer)
    {
      raised := answer.NotANumber?;
      if answer.Number? {
        grabScreenFrequency := answer.value;
      }
    }

    /** The image-similarity dialog. Any number is accepted; one above 100
        makes the next threshold computation raise. */
    method OnSetImageSimilarity(answer: Answer) returns (raised: bool)
      modifies this`imageSimilarityPercentage
      ensures raised <==> answer.NotANumber?
      ensures imageSimilarityPercentage == Updated(old(imageSimilarityPercentage), answer)
    {
      raised := answer.NotANumber?;
      if answer.Number? {
        imageSimilarityPercentage := answer.value;
      }
    }

    /** `rmse_threshold = sqrt((100 - p) / 100 * (2**24) ** 2)`, kept as its
        square. Above 100 % the square is negative, `math.sqrt` raises
        ValueError and the threshold keeps its old value. */
    method CalculateRmseThreshold() returns (raised: bool)
      modifies this`rmseThresholdSq
      ensures raised <==> ThresholdRaises(imageSimilarityPercentage)
      ensures rmseThresholdSq == if raised then old(rmseThresholdSq) else Some(ThresholdSq(imageSimilarityPercentage))
      ensures !raised ==> rmseThresholdSq.value >= 0.0
    {
      ThresholdRaisesIff(imageSimilarityPercentage);
      raised := ThresholdSq(imageSimilarityPercentage) < 0.0;
      if !raised {
        rmseThresholdSq := Some(ThresholdSq(imageSimilarityPercentage));
      }
    }

    /** The directory dialog: `accepted` when a directory was chosen; an
        unwritable choice falls back to `cwd`. */
    method SetSaveLocation(accepted: bool, selected: string, writable: bool, cwd: string)
      modifies this`imgSavedDir
      ensures imgSavedDir == if !accepted then old(imgSavedDir) else if writable then selected else cwd
    {
      if accepted {
        imgSavedDir := selected;
        if !writable {
          imgSavedDir := cwd;
        }
      }
    }

    /** One grab: a frame is appended (and written as `img_1`) only when the
        grab succeeded. */
    method GrabScreen(shot: Option<Frame>)
      modifies this`imageList, this`scratch
      ensures imageList == old(imageList) + (if shot.Some? then [shot.value] else [])
      ensures scratch == if shot.Some? then Some(Save(imgSavedDir, ScratchName, shot.value)) else old(scratch)
    {
      if shot.Some? {
        imageList := imageList + [shot.value];
        scratch := Some(Save(imgSavedDir, ScratchName, shot.value));
      }
    }

    /** `compare_screenshots`: when the pairing guard holds, the threshold is
        recomputed and the run over adjacent frames appends its saves; the
        saved-name keeps growing from where it stood. `raised` tells that
        the threshold's square root raised ValueError (a percentage above
        100), which ends the call before any pair is compared. */
    method CompareScreenshots() returns (raised: bool)
      requires Valid()
      modifies this`saved, this`imageSavedName, this`rmseThresholdSq
      ensures Valid()
      ensures raised <==> CanCompare(imageList) && ThresholdRaises(imageSimilarityPercentage)
      ensures raised ==> saved == old(saved) && imageSavedName == old(imageSavedName) && rmseThresholdSq == old(rmseThresholdSq)
      ensures !raised ==>
        var run := CompareAll(imageList, imgSavedDir, old(imageSavedName), ThresholdSq(imageSimilarityPercentage), true);
        && saved == old(saved) + run.saves
        && imageSavedName == run.name
        && !run.aborted
        && rmseThresholdSq == if CanCompare(imageList) then Some(ThresholdSq(imageSimilarityPercentage)) else old(rmseThresholdSq)
    {
      raised := false;
      if |imageList| > 1 && |imageList| % 2 == 0 {
        raised := CalculateRmseThreshold();
        if raised {
          return;
        }
        GuardedNeverAborts(imageList, imgSavedDir, imageSavedName, rmseThresholdSq.value);
        ComparePairs(rmseThresholdSq.value);
      }
    }

    /** The pair loop of `compare_screenshots`, with the threshold just set. */
    method ComparePairs(threshold: real)
      requires Valid()
      modifies this`saved, this`imageSavedName
      ensures Valid()
      ensures var run := CompareAll(imageList, imgSavedDir, old(imageSavedName), threshold, true);
        saved == old(saved) + run.saves && imageSavedName == run.name
    {
      var frames, dir, name := imageList, imgSavedDir, imageSavedName;
      CompareContinuesNames(saved, frames, dir, InitialSavedName, threshold, true);
      var run := CompareFrames(frames, dir, name, threshold, true);
      saved := saved + run.saves;
      imageSavedName := run.name;
    }

    /** After `k` grabs from `scratch0`: the list holds the successful grabs
        and `img_1` the last of them. */
    ghost predicate GrabbedSoFar(shots: seq<Option<Frame>>, k: nat, scratch0: Option<Save>)
      requires k <= |shots|
      reads this`imageList, this`scratch, this`imgSavedDir
    {
      imageList == Grabbed(shots[..k]) && scratch == ScratchAfter(scratch0, imgSavedDir, imageList)
    }

    /** Grab `k` of the loop: `grab_screen` with the `k`-th result. */
    method GrabNext(shots: seq<Option<Frame>>, k: nat, ghost scratch0: Option<Save>)
      requires k < |shots| && GrabbedSoFar(shots, k, scratch0)
      modifies this`imageList, this`scratch
      ensures GrabbedSoFar(shots, k + 1, scratch0)
    {
      GrabbedStep(shots, k);
      ScratchStep(scratch0, imgSavedDir, imageList, shots[k]);
      GrabScreen(shots[k]);
    }

    /** What the grab loop needs of its inputs: with a valid sleep length,
        the measured durations use up the timeout and there is a grab result
        for every call; with a negative one, a result for the first call. */
    predicate InputsCover(elapsed: seq<real>, shots: seq<Option<Frame>>)
      reads this`grabScreenTimeout, this`grabScreenFrequency
    {
      && (grabScreenFrequency >= 0.0 ==>
            grabScreenTimeout <= Total(elapsed) && 2 * Iterations(grabScreenTimeout, elapsed) <= |shots|)
      && (grabScreenFrequency < 0.0 && grabScreenTimeout > 0.0 ==> |shots| >= 1)
    }

    /** The loop of `background_grab_process`: the frame list is emptied, each
        iteration grabs twice around a sleep and subtracts its measured
        duration from the timeout. `elapsed` holds the durations the clock
        measures and `shots` the grab results, in order. A negative
        frequency makes the first `time.sleep` raise ValueError after one
        grab, which ends the loop (`raised`). */
    method GrabUntilTimeout(elapsed: seq<real>, shots: seq<Option<Frame>>) returns (raised: bool)
      requires InputsCover(elapsed, shots)
      modifies this`imageList, this`scratch
      ensures raised <==> grabScreenFrequency < 0.0 && grabScreenTimeout > 0.0
      ensures raised ==> imageList == Grabbed(shots[..1])
      ensures grabScreenTimeout <= 0.0 ==> imageList == []
      ensures grabScreenFrequency >= 0.0 ==> imageList == Grabbed(shots[..2 * Iterations(grabScreenTimeout, elapsed)])
      ensures scratch == ScratchAfter(old(scratch), imgSavedDir, imageList)
    {
      var start, frequency := grabScreenTimeout, grabScreenFrequency;
      ghost var scratch0 := scratch;
      var timeout := start;
      imageList := [];
      raised := false;
      ghost var n := if frequency >= 0.0 then Iterations(start, elapsed) else 0;
      var i := 0;
      while timeout > 0.0
        invariant frequency < 0.0 ==> i == 0
        invariant frequency >= 0.0 ==> i <= n && IterationsFrom(start, elapsed, i) == n
        invariant timeout == start - Total(elapsed[..i])
        invariant 2 * i <= |shots| && GrabbedSoFar(shots, 2 * i, scratch0)
        decreases n - i
      {
        if frequency >= 0.0 {
          IterationsFromStep(start, elapsed, i);
        }
        GrabNext(shots, 2 * i, scratch0);
        if frequency < 0.0 {
          assert imageList == Grabbed(shots[..1]);
          raised := true;
          return;
        }
        GrabNext(shots, 2 * i + 1, scratch0);
        TotalPrefix(elapsed, i);
        timeout := timeout - elapsed[i];
        i := i + 1;
      }
      if frequency >= 0.0 {
        IterationsFromDone(start, elapsed, i);
        assert i == Iterations(start, elapsed);
      }
      if start <= 0.0 {
        if frequency >= 0.0 {
          IterationsStart(start, elapsed);
        }
        assert i == 0 && shots[..0] == [];
      }
    }

    /** `background_grab_process`: the grab loop, then the comparison of the
        frames it collected. An exception in either ends the process;
        after the loop's, nothing is compared. */
    method BackgroundGrabProcess(elapsed: seq<real>, shots: seq<Option<Frame>>) returns (raised: bool)
      requires Valid()
      requires InputsCover(elapsed, shots)
      modifies this`imageList, this`scratch, this`saved, this`imageSavedName, this`rmseThresholdSq
      ensures Valid()
      ensures grabScreenFrequency < 0.0 && grabScreenTimeout > 0.0 ==>
        raised && imageList == Grabbed(shots[..1]) &&
        saved == old(saved) && imageSavedName == old(imageSavedName) && rmseThresholdSq == old(rmseThresholdSq)
      ensures grabScreenFrequency >= 0.0 ==> imageList == Grabbed(shots[..2 * Iterations(grabScreenTimeout, elapsed)])
      ensures grabScreenTimeout <= 0.0 ==> imageList == []
      ensures scratch == ScratchAfter(old(scratch), imgSavedDir, imageList)
      ensures !(grabScreenFrequency < 0.0 && grabScreenTimeout > 0.0) ==>
        && (raised <==> CanCompare(imageList) && ThresholdRaises(imageSimilarityPercentage))
        && (!raised ==>
              var run := CompareAll(imageList, imgSavedDir, old(imageSavedName), ThresholdSq(imageSimilarityPercentage), true);
              saved == old(saved) + run.saves && imageSavedName == run.name)
    {
      raised := GrabUntilTimeout(elapsed, shots);
      if raised {
        return;
      }
      raised := CompareScreenshots();
    }

    /** The grab button: when the confirmation is answered Yes, the grab
        process runs (after the start delay, on a timer thread, both left out);
        otherwise nothing changes. */
    method OnScreenGrabButtonClicked(confirmed: bool, elapsed: seq<real>, shots: seq<Option<Frame>>) returns (raised: bool)
      requires Valid()
      requires confirmed ==> InputsCover(elapsed, shots)
      modifies this`imageList, this`scratch, this`saved, this`imageSavedName, this`rmseThresholdSq
      ensures Valid()
      ensures !confirmed ==> unchanged(this) && !raised
      ensures confirmed && grabScreenFrequency >= 0.0 ==>
        imageList == Grabbed(shots[..2 * Iterations(grabScreenTimeout, elapsed)]) &&
        (raised <==> CanCompare(imageList) && ThresholdRaises(imageSimilarityPercentage)) &&
        (!raised ==>
           var run := CompareAll(imageList, imgSavedDir, old(imageSavedName), ThresholdSq(imageSimilarityPercentage), true);
           saved == old(saved) + run.saves && imageSavedName == run.name)
      ensures confirmed && grabScreenFrequency < 0.0 && grabScreenTimeout > 0.0 ==>
        raised && imageList == Grabbed(shots[..1]) && saved == old(saved)
      ensures confirmed && grabScreenTimeout <= 0.0 ==>
        imageList == [] && !raised && saved == old(saved) && imageSavedName == old(imageSavedName)
    {
      raised := false;
      if confirmed {
        raised := BackgroundGrabProcess(elapsed, shots);
      }
    }
  }
}
