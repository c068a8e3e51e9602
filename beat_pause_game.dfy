/** The main window of pyqt_feature_testing/multimedia/pyqt5_beat_the_pause_game.py:
    the threshold is computed once, for an 80 % similarity, when the window is
    built; the save directory is unset until the grab button asks for it;
    every grab appends a frame; and there is no zero-size guard, so frames
    without pixels raise ZeroDivisionError, which ends the comparison. */
module BeatPauseGame {
  import opened Wrappers
  import opened ScreenshotCompare
  import opened GrabTiming

  const InitialSavedName: string := "screenshot_saved_1"

  class MainWindow {
    var grabScreenTimeout: real
    var grabScreenFrequency: real
    var imageSavedName: string
    var imageSimilarityPercentage: real
    var imageList: seq<Frame>
    /** None until the grab button has asked for a directory. */
    var imgSavedDir: Option<string>
    /** The square of `rmse_threshold`, fixed by the constructor. */
    var rmseThresholdSq: real
    /** The frames `compare_screenshots` wrote, in order. */
    var saved: seq<Save>

    /** Saved frames are named in order from the initial name and the current
        name is the next one. */
    predicate Valid()
      reads this`saved, this`imageSavedName
    {
      && NamedInOrder(saved, InitialSavedName)
      && imageSavedName == InitialSavedName + Ones(|saved|)
    }

    /** `__init__`: the threshold for 80 % similarity, i.e. a fifth of the
        squared colour range. */
    constructor()
      ensures Valid()
      ensures grabScreenTimeout == 5.0 && grabScreenFrequency == 0.25
      ensures imageSavedName == InitialSavedName && imageSimilarityPercentage == 80.0
      ensures imageList == [] && imgSavedDir == None && saved == []
      ensures rmseThresholdSq == ThresholdSq(80.0) == 0.2 * (ColourLevels * ColourLevels) as real
    {
      grabScreenTimeout := 5.0;
      grabScreenFrequency := 0.25;
      imageSavedName := InitialSavedName;
      imageSimilarityPercentage := 80.0;
      imageList := [];
      imgSavedDir := None;
      rmseThresholdSq := ThresholdSq(80.0);
      saved := [];
      ThresholdAt80();
    }

    /** `get_save_location`: `selected` is what the directory dialog returns
        ("" when cancelled) and `writable` the answer of `os.access`, which
        refuses "". */
    method GetSaveLocation(selected: string, writable: bool, cwd: string)
      requires selected == "" ==> !writable
      modifies this`imgSavedDir
      ensures imgSavedDir == Some(if writable then selected else cwd)
    {
      imgSavedDir := Some(selected);
      if !writable {
        imgSavedDir := Some(cwd);
      }
    }

    /** One grab, which always appends its frame. */
    method GrabScreen(shot: Frame)
      modifies this`imageList
      ensures imageList == old(imageList) + [shot]
    {
      imageList := imageList + [shot];
    }

    /** `compare_screenshots` with the fixed threshold. `raised` tells whether
        ZeroDivisionError escaped: exactly when a compared pair's first frame
        has no pixels. The pairs before it keep their saves; when it is the
        first frame, nothing is saved. */
    method CompareScreenshots() returns (raised: bool)
      requires Valid() && imgSavedDir.Some?
      modifies this`saved, this`imageSavedName
      ensures Valid()
      ensures var run := CompareAll(imageList, imgSavedDir.value, old(imageSavedName), rmseThresholdSq, false);
        && saved == old(saved) + run.saves
        && imageSavedName == run.name
        && raised == run.aborted
      ensures raised <==> CanCompare(imageList) && exists i :: 0 <= i < |imageList| - 1 && Empty(imageList[i])
      ensures CanCompare(imageList) && Empty(imageList[0]) ==>
        raised && saved == old(saved) && imageSavedName == old(imageSavedName)
    {
      raised := false;
      var frames, dir, name, threshold := imageList, imgSavedDir.value, imageSavedName, rmseThresholdSq;
      UnguardedAborts(frames, dir, name, threshold);
      CompareContinuesNames(saved, frames, dir, InitialSavedName, threshold, false);
      ghost var expected := CompareAll(frames, dir, name, threshold, false);
      if |frames| > 1 && |frames| % 2 == 0 {
        var run := CompareFrames(frames, dir, name, threshold, false);
        saved := saved + run.saves;
        imageSavedName := run.name;
        raised := run.aborted;
      } else {
        assert expected == Run([], name, 0, false);
      }
      assert saved == old(saved) + expected.saves && imageSavedName == expected.name && raised == expected.aborted;
      assert imageList == frames && imgSavedDir.value == dir && rmseThresholdSq == threshold;
    }

    /** The loop of `background_grab_process`: the frame list is emptied and
        each iteration grabs twice. */
    method GrabUntilTimeout(elapsed: seq<real>, shots: seq<Frame>)
      requires grabScreenTimeout <= Total(elapsed)
      requires 2 * Iterations(grabScreenTimeout, elapsed) <= |shots|
      modifies this`imageList
      ensures imageList == shots[..2 * Iterations(grabScreenTimeout, elapsed)]
      ensures |imageList| % 2 == 0
    {
      var start := grabScreenTimeout;
      var timeout := start;
      imageList := [];
      ghost var n := Iterations(start, elapsed);
      var i := 0;
      while timeout > 0.0
        invariant i <= n && IterationsFrom(start, elapsed, i) == n
        invariant timeout == start - Total(elapsed[..i])
        invariant imageList == shots[..2 * i]
        decreases n - i
      {
        IterationsFromStep(start, elapsed, i);
        GrabScreen(shots[2 * i]);
        GrabScreen(shots[2 * i + 1]);
        assert shots[..2 * i + 2] == shots[..2 * i] + [shots[2 * i], shots[2 * i + 1]];
        TotalPrefix(elapsed, i);
        timeout := timeout - elapsed[i];
        i := i + 1;
      }
      IterationsFromDone(start, elapsed, i);
    }

    /** `background_grab_process`: the grab loop, then the comparison. */
    method BackgroundGrabProcess(elapsed: seq<real>, shots: seq<Frame>) returns (raised: bool)
      requires Valid() && imgSavedDir.Some?
      requires grabScreenTimeout <= Total(elapsed)
      requires 2 * Iterations(grabScreenTimeout, elapsed) <= |shots|
      modifies this`imageList, this`saved, this`imageSavedName
      ensures Valid()
      ensures imageList == shots[..2 * Iterations(grabScreenTimeout, elapsed)]
      ensures grabScreenTimeout > 0.0 <==> CanCompare(imageList)
      ensures var run := CompareAll(imageList, imgSavedDir.value, old(imageSavedName), rmseThresholdSq, false);
        saved == old(saved) + run.saves && imageSavedName == run.name && raised == run.aborted
    {
      GrabUntilTimeout(elapsed, shots);
      IterationsStart(grabScreenTimeout, elapsed);
      raised := CompareScreenshots();
    }

    /** The grab button: when the confirmation is answered Yes, the save
        directory is asked for and the grab process runs (on a timer thread,
        left out); otherwise nothing changes. */
    method OnScreenGrabButtonClicked(confirmed: bool, selected: string, writable: bool, cwd: string,
                                     elapsed: seq<real>, shots: seq<Frame>) returns (raised: bool)
      requires Valid()
      requires selected == "" ==> !writable
      requires confirmed ==> grabScreenTimeout <= Total(elapsed)
      requires confirmed ==> 2 * Iterations(grabScreenTimeout, elapsed) <= |shots|
      modifies this`imgSavedDir, this`imageList, this`saved, this`imageSavedName
      ensures Valid()
      ensures !confirmed ==> unchanged(this) && !raised
      ensures confirmed ==> imgSavedDir == Some(if writable then selected else cwd)
      ensures confirmed ==> imageList == shots[..2 * Iterations(grabScreenTimeout, elapsed)]
      ensures confirmed ==> var run := CompareAll(imageList, imgSavedDir.value, old(imageSavedName), rmseThresholdSq, false);
        saved == old(saved) + run.saves && imageSavedName == run.name && raised == run.aborted
    {
      raised := false;
      if confirmed {
        GetSaveLocation(selected, writable, cwd);
        raised := BackgroundGrabProcess(elapsed, shots);
      }
    }
  }
}
