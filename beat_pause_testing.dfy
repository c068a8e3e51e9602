/** The main window of pyqt_feature_testing/multimedia/pyqt5_beat_the_pause_game_app.py:
    the same settings, grab loop and comparison as the example app, except
    that every grab appends a frame, nothing is written as `img_1`, and there
    is no zero-size guard, so frames without pixels raise ZeroDivisionError,
    which ends the comparison. The directory dialog, the clock and the grabbed
    frames are inputs. */
module BeatPauseTesting {
  import opened Wrappers
  import opened ScreenshotCompare
  import opened GrabTiming
  import opened SettingsDialog

  const InitialSavedName: string := "screenshot_saved_1"

  class MainWindow {
    var grabScreenTimeout: real
    var grabScreenFrequency: real
    var grabScreenStartDelay: real
    var imageSavedName: string
    var imageSimilarityPercentage: real
    var imgSavedDir: string
    var imageList: seq<Frame>
    /** The square of `rmse_threshold`; None until it is first computed. */
    var rmseThresholdSq: Option<real>
    /** The frames `compare_screenshots` wrote, in order. */
    var saved: seq<Save>

    /** Saved frames are named in order from the initial name, and the
        current name is the next one. */
    predicate Valid()
      reads this`saved, this`imageSavedName
    {
      && NamedInOrder(saved, InitialSavedName)
      && imageSavedName == InitialSavedName + Ones(|saved|)
    }

    /** The initial settings of `__init__`, with `cwd` for `os.getcwd()`. */
    constructor(cwd: string)
      ensures Valid()
      ensures grabScreenTimeout == 5.0 && grabScreenFrequency == 0.25 && grabScreenStartDelay == 0.0
      ensures imageSavedName == InitialSavedName && imageSimilarityPercentage == 80.0 && imgSavedDir == cwd
      ensures imageList == [] && rmseThresholdSq == None && saved == []
    {
      grabScreenTimeout := 5.0;
      grabScreenFrequency := 0.25;
      grabScreenStartDelay := 0.0;
      imageSavedName := InitialSavedName;
      imageSimilarityPercentage := 80.0;
      imgSavedDir := cwd;
      imageList := [];
      rmseThresholdSq := None;
      saved := [];
    }

    /** The start-delay dialog: the start delay becomes the number given;
        text `float()` cannot read raises ValueError in the slot. */
    method OnSetStartDelay(answer: Answer) returns (raised: bool)
      modifies this`grabScreenStartDelay
      ensures raised <==> answer.NotANumber?
      ensures grabScreenStartDelay == Updated(old(grabScreenStartDelay), answer)
    {
      raised := answer.NotANumber?;
      if answer.Number? {
        grabScreenStartDelay := answer.value;
      }
    }

    /** The timeout dialog. A typed timeout of zero or less makes the grab
        loop run no iteration. */
    method OnSetTimeout(answer: Answer) returns (raised: bool)
      modifies this`grabScreenTimeout
      ensures raised <==> answer.NotANumber?
      ensures grabScreenTimeout == Updated(old(grabScreenTimeout), answer)
    {
      raised := answer.NotANumber?;
      if answer.Number? {
        grabScreenTimeout := answer.value;
      }
    }

    /** The update-frequency dialog. A typed negative frequency is accepted
        here and makes the grab loop's `time.sleep` raise later. */
    method OnSetUpdateFrequency(answer: Answer) returns (raised: bool)
      modifies this`grabScreenFrequency
      ensures raised <==> answer.NotANumber?
      ensures grabScreenFrequency == Updated(old(grabScreenFrequency), answer)
    {
      raised := answer.NotANumber?;
      if answer.Number? {
        grabScreenFrequency := answer.value;
      }
    }

    /** The image-similarity dialog. Any number is accepted; one above 100
        makes the next threshold computation raise. */
    method OnSetImageSimilarity(answer: Answer) returns (raised: bool)
      modifies this`imageSimilarityPercentage
      ensures raised <==> answer.NotANumber?
      ensures imageSimilarityPercentage == Updated(old(imageSimilarityPercentage), answer)
    {
      raised := answer.NotANumber?;
      if answer.Number? {
        imageSimilarityPercentage := answer.value;
      }
    }

    /** `rmse_threshold = sqrt((100 - p) / 100 * (2**24) ** 2)`, kept as its
        square. Above 100 % the square is negative, `math.sqrt` raises
        ValueError and the threshold keeps its old value. */
    method CalculateRmseThreshold() returns (raised: bool)
      modifies this`rmseThresholdSq
      ensures raised <==> ThresholdRaises(imageSimilarityPercentage)
      ensures rmseThresholdSq == if raised then old(rmseThresholdSq) else Some(ThresholdSq(imageSimilarityPercentage))
      ensures !raised ==> rmseThresholdSq.value >= 0.0
    {
      ThresholdRaisesIff(imageSimilarityPercentage);
      raised := ThresholdSq(imageSimilarityPercentage) < 0.0;
      if !raised {
        rmseThresholdSq := Some(ThresholdSq(imageSimilarityPercentage));
      }
    }

    /** The directory dialog: `selected` is what it returns ("" when cancelled)
        and `writable` the answer of `os.access`, which refuses "". */
    method SetSaveLocation(selected: string, writable: bool, cwd: string)
      requires selected == "" ==> !writable
      modifies this`imgSavedDir
      ensures imgSavedDir == if writable then selected else cwd
      ensures imgSavedDir != "" || cwd == ""
    {
      imgSavedDir := selected;
      if !writable {
        imgSavedDir := cwd;
      }
    }

    /** One grab, which always appends its frame. */
    method GrabScreen(shot: Frame)
      modifies this`imageList
      ensures imageList == old(imageList) + [shot]
    {
      imageList := imageList + [shot];
    }

    /** `compare_screenshots`: when the pairing guard holds, the threshold is
        recomputed and the run over adjacent frames appends its saves.
        `raised` tells whether an exception escaped: ValueError from the
        threshold's square root (a percentage above 100), before any pair is
        compared, or ZeroDivisionError, exactly when a compared pair's first
        frame has no pixels. The pairs before that frame keep their saves;
        when it is the first frame, nothing is saved. */
    method CompareScreenshots() returns (raised: bool)
      requires Valid()
      modifies this`saved, this`imageSavedName, this`rmseThresholdSq
      ensures Valid()
      ensures CanCompare(imageList) && ThresholdRaises(imageSimilarityPercentage) ==>
        raised && saved == old(saved) && imageSavedName == old(imageSavedName) && rmseThresholdSq == old(rmseThresholdSq)
      ensures !(CanCompare(imageList) && ThresholdRaises(imageSimilarityPercentage)) ==>
        var run := CompareAll(imageList, imgSavedDir, old(imageSavedName), ThresholdSq(imageSimilarityPercentage), false);
        && saved == old(saved) + run.saves
        && imageSavedName == run.name
        && raised == run.aborted
        && rmseThresholdSq == if CanCompare(imageList) then Some(ThresholdSq(imageSimilarityPercentage)) else old(rmseThresholdSq)
      ensures raised <==>
        CanCompare(imageList) &&
        (ThresholdRaises(imageSimilarityPercentage) || exists i :: 0 <= i < |imageList| - 1 && Empty(imageList[i]))
      ensures CanCompare(imageList) && Empty(imageList[0]) ==>
        raised && saved == old(saved) && imageSavedName == old(imageSavedName)
    {
      raised := false;
      UnguardedAborts(imageList, imgSavedDir, imageSavedName, ThresholdSq(imageSimilarityPercentage));
      if |imageList| > 1 && |imageList| % 2 == 0 {
        raised := CalculateRmseThreshold();
        if raised {
          return;
        }
        raised := ComparePairs(rmseThresholdSq.value);
      }
    }

    /** The pair loop of `compare_screenshots`, with the threshold just set. */
    method ComparePairs(threshold: real) returns (raised: bool)
      requires Valid()
      modifies this`saved, this`imageSavedName
      ensures Valid()
      ensures var run := CompareAll(imageList, imgSavedDir, old(imageSavedName), threshold, false);
        saved == old(saved) + run.saves && imageSavedName == run.name && raised == run.aborted
    {
      var frames, dir, name := imageList, imgSavedDir, imageSavedName;
      CompareContinuesNames(saved, frames, dir, InitialSavedName, threshold, false);
      var run := CompareFrames(frames, dir, name, threshold, false);
      saved := saved + run.saves;
      imageSavedName := run.name;
      raised := run.aborted;
    }

    /** What the grab loop needs of its inputs: with a valid sleep length,
        the measured durations use up the timeout and there is a frame for
        every grab; with a negative one, a frame for the first grab. */
    predicate InputsCover(elapsed: seq<real>, shots: seq<Frame>)
      reads this`grabScreenTimeout, this`grabScreenFrequency
    {
      && (grabScreenFrequency >= 0.0 ==>
            grabScreenTimeout <= Total(elapsed) && 2 * Iterations(grabScreenTimeout, elapsed) <= |shots|)
      && (grabScreenFrequency < 0.0 && grabScreenTimeout > 0.0 ==> |shots| >= 1)
    }

    /** The loop of `background_grab_process`: the frame list is emptied and
        each iteration grabs twice around a sleep, so the list holds an even
        number of frames. A negative frequency makes the first `time.sleep`
        raise ValueError after one grab, which ends the loop (`raised`). */
    method GrabUntilTimeout(elapsed: seq<real>, shots: seq<Frame>) returns (raised: bool)
      requires InputsCover(elapsed, shots)
      modifies this`imageList
      ensures raised <==> grabScreenFrequency < 0.0 && grabScreenTimeout > 0.0
      ensures raised ==> imageList == shots[..1]
      ensures grabScreenTimeout <= 0.0 ==> imageList == []
      ensures grabScreenFrequency >= 0.0 ==> imageList == shots[..2 * Iterations(grabScreenTimeout, elapsed)]
      ensures !raised ==> |imageList| % 2 == 0
    {
      var start := grabScreenTimeout;
      var timeout := start;
      imageList := [];
      raised := false;
      ghost var n := if grabScreenFrequency >= 0.0 then Iterations(start, elapsed) else 0;
      var i := 0;
      while timeout > 0.0
        invariant grabScreenFrequency < 0.0 ==> i == 0
        invariant grabScreenFrequency >= 0.0 ==> i <= n && IterationsFrom(start, elapsed, i) == n
        invariant timeout == start - Total(elapsed[..i])
        invariant imageList == shots[..2 * i]
        decreases n - i
      {
        if grabScreenFrequency >= 0.0 {
          IterationsFromStep(start, elapsed, i);
        }
        GrabScreen(shots[2 * i]);
        if grabScreenFrequency < 0.0 {
          assert shots[..1] == [shots[0]];
          raised := true;
          return;
        }
        GrabScreen(shots[2 * i + 1]);
        assert shots[..2 * i + 2] == shots[..2 * i] + [shots[2 * i], shots[2 * i + 1]];
        TotalPrefix(elapsed, i);
        timeout := timeout - elapsed[i];
        i := i + 1;
      }
      if grabScreenFrequency >= 0.0 {
        IterationsFromDone(start, elapsed, i);
        IterationsStart(start, elapsed);
      }
    }

    /** `background_grab_process`: the grab loop, then the comparison. With a
        positive timeout and a valid sleep length the loop runs, so the
        frames can always be paired. An exception in the loop ends the
        process before anything is compared. */
    method BackgroundGrabProcess(elapsed: seq<real>, shots: seq<Frame>) returns (raised: bool)
      requires Valid()
      requires InputsCover(elapsed, shots)
      modifies this`imageList, this`saved, this`imageSavedName, this`rmseThresholdSq
      ensures Valid()
      ensures grabScreenFrequency < 0.0 && grabScreenTimeout > 0.0 ==>
        raised && imageList == shots[..1] &&
        saved == old(saved) && imageSavedName == old(imageSavedName) && rmseThresholdSq == old(rmseThresholdSq)
      ensures grabScreenFrequency >= 0.0 ==> imageList == shots[..2 * Iterations(grabScreenTimeout, elapsed)]
      ensures grabScreenFrequency >= 0.0 ==> (grabScreenTimeout > 0.0 <==> CanCompare(imageList))
      ensures grabScreenTimeout <= 0.0 ==> imageList == []
      ensures !(grabScreenFrequency < 0.0 && grabScreenTimeout > 0.0) && !(CanCompare(imageList) && ThresholdRaises(imageSimilarityPercentage)) ==>
        var run := CompareAll(imageList, imgSavedDir, old(imageSavedName), ThresholdSq(imageSimilarityPercentage), false);
        saved == old(saved) + run.saves && imageSavedName == run.name && raised == run.aborted
      ensures CanCompare(imageList) && ThresholdRaises(imageSimilarityPercentage) ==>
        raised && saved == old(saved) && imageSavedName == old(imageSavedName)
    {
      raised := GrabUntilTimeout(elapsed, shots);
      if raised {
        return;
      }
      if grabScreenFrequency >= 0.0 {
        IterationsStart(grabScreenTimeout, elapsed);
      }
      raised := CompareScreenshots();
    }

    /** The grab button: when the confirmation is answered Yes, the grab
        process runs (after the start delay, on a timer thread, both left out);
        otherwise nothing changes. */
    method OnScreenGrabButtonClicked(confirmed: bool, elapsed: seq<real>, shots: seq<Frame>) returns (raised: bool)
      requires Valid()
      requires confirmed ==> InputsCover(elapsed, shots)
      modifies this`imageList, this`saved, this`imageSavedName, this`rmseThresholdSq
      ensures Valid()
      ensures !confirmed ==> unchanged(this) && !raised
      ensures confirmed && grabScreenFrequency >= 0.0 ==> imageList == shots[..2 * Iterations(grabScreenTimeout, elapsed)]
      ensures confirmed && grabScreenFrequency >= 0.0 && !(CanCompare(imageList) && ThresholdRaises(imageSimilarityPercentage)) ==>
        var run := CompareAll(imageList, imgSavedDir, old(imageSavedName), ThresholdSq(imageSimilarityPercentage), false);
        saved == old(saved) + run.saves && imageSavedName == run.name && raised == run.aborted
      ensures confirmed && ((grabScreenFrequency < 0.0 && grabScreenTimeout > 0.0) ||
                            (CanCompare(imageList) && ThresholdRaises(imageSimilarityPercentage))) ==>
        raised && saved == old(saved) && imageSavedName == old(imageSavedName)
    {
      raised := false;
      if confirmed {
        raised := BackgroundGrabProcess(elapsed, shots);
      }
    }
  }
}
