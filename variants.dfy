/**
 * EyeTracker/main.cpp against src/main.cpp. Given the same inputs, the two
 * eye programs differ only in the eyelid value (mean against sum) and in
 * where and how often they send.
 */
module EyeVariants {
  import opened Orientation
  import opened EyeLocals
  import Arguments
  import EyeTracker
  import Standalone

  /**
   * The eyelid argument of src/main.cpp is exactly twice EyeTracker's, and
   * the pitch-yaw message is identical.
   */
  lemma SumIsTwiceMean(cfg: Arguments.Config, input: TickInput, trig: Trig)
    ensures var here := Standalone.TickEffectOf(input, trig).sent.value.bundle;
      var there := EyeTracker.TickEffectOf(cfg, input, trig).sent.value.bundle;
      here[0].args[0] == 2.0 * there[0].args[0] && here[1] == there[1]
  {
  }
}
