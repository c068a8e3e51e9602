/** The settings dialogs of the two game windows that have them. Each is a
    `QInputDialog.getItem` over a list of numbers; the list is editable
    (the default), so the text handed back is either an offered item or
    whatever was typed, and the slot converts it with `float()`. */
module SettingsDialog {
  import opened ScreenshotCompare

  /** What a settings slot gets from its dialog: the dialog was cancelled,
      the text is not a number (`float()` raises ValueError and the slot
      ends without assigning), or the number the text denotes. */
  datatype Answer = Cancelled | NotANumber | Number(value: real)

  /** `float()` of the items each dialog offers. */
  const StartDelayOptions: seq<real> := [0.0, 5.0, 10.0]
  const TimeoutOptions: seq<real> := [5.0, 10.0, 15.0, 20.0]
  const FrequencyOptions: seq<real> := [0.1, 0.25, 0.5, 1.0, 2.0]
  const SimilarityOptions: seq<real> := [50.0, 75.0, 90.0, 95.0]

  /** The answer is one of the offered items, picked rather than typed. */
  predicate Offered(options: seq<real>, a: Answer)
  {
    a.Number? && a.value in options
  }

  /** The setting a slot leaves behind: the number when one was given, the
      old value when the dialog was cancelled or `float()` raised. */
  function Updated(current: real, a: Answer): (r: real)
    ensures a.Number? ==> r == a.value
    ensures !a.Number? ==> r == current
  {
    if a.Number? then a.value else current
  }

  /** Only typed text can upset the grab process: every offered timeout is
      positive (so the loop runs), every offered frequency is a valid
      `time.sleep` length, and no offered similarity makes the threshold's
      square root raise. */
  lemma {:induction false} OfferedSettingsSafe(a: Answer)
    ensures Offered(TimeoutOptions, a) ==> a.value > 0.0
    ensures Offered(FrequencyOptions, a) ==> a.value >= 0.0
    ensures Offered(SimilarityOptions, a) ==> !ThresholdRaises(a.value) && ThresholdSq(a.value) > 0.0
  {
    if Offered(SimilarityOptions, a) {
      ThresholdRaisesIff(a.value);
      assert a.value <= 95.0;
      ThresholdShape(a.value, 95.0);
      assert ThresholdSq(95.0) > 0.0;
    }
  }
}
