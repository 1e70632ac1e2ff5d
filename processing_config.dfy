/**
 * `DataProcessingConfig`: which of the three optional stages run, with
 * their parameters, the derived `Default`, the `with_*` builders and
 * `has_any_enabled`.
 */
module ProcessingConfig {

  datatype OutlierRemovalConfig = OutlierRemovalConfig(enabled: bool, methodName: string)

  /** `interval` is in seconds (the source's `u32`). */
  datatype ResampleConfig = ResampleConfig(enabled: bool, interval: nat, methodName: string)

  datatype SmoothingConfig = SmoothingConfig(enabled: bool, methodName: string, window: nat)

  datatype DataProcessingConfig = DataProcessingConfig(
    outlierRemoval: OutlierRemovalConfig,
    resample: ResampleConfig,
    smoothing: SmoothingConfig)

  /**
   * The derived `Default`: every flag false, every number 0, every method
   * empty. (The values 60, 5, "3sigma", "mean" and "moving_avg" are serde
   * defaults and only apply when a field is missing from JSON.)
   */
  function Default(): (c: DataProcessingConfig)
    ensures !c.outlierRemoval.enabled && !c.resample.enabled && !c.smoothing.enabled
    ensures c.resample.interval == 0 && c.smoothing.window == 0
    ensures c.outlierRemoval.methodName == "" && c.resample.methodName == "" && c.smoothing.methodName == ""
  {
    DataProcessingConfig(OutlierRemovalConfig(false, ""), ResampleConfig(false, 0, ""), SmoothingConfig(false, "", 0))
  }

  /** `with_outlier_removal(method)`: turns outlier removal on, nothing else changes. */
  function WithOutlierRemoval(c: DataProcessingConfig, methodName: string): (r: DataProcessingConfig)
    ensures r.outlierRemoval == OutlierRemovalConfig(true, methodName)
    ensures r.resample == c.resample && r.smoothing == c.smoothing
  {
    c.(outlierRemoval := c.outlierRemoval.(enabled := true, methodName := methodName))
  }

  /** `with_resample(interval, method)`: turns resampling on, nothing else changes. */
  function WithResample(c: DataProcessingConfig, interval: nat, methodName: string): (r: DataProcessingConfig)
    ensures r.resample == ResampleConfig(true, interval, methodName)
    ensures r.outlierRemoval == c.outlierRemoval && r.smoothing == c.smoothing
  {
    c.(resample := c.resample.(enabled := true, interval := interval, methodName := methodName))
  }

  /** `with_smoothing(window, method)`: turns smoothing on, nothing else changes. */
  function WithSmoothing(c: DataProcessingConfig, window: nat, methodName: string): (r: DataProcessingConfig)
    ensures r.smoothing == SmoothingConfig(true, methodName, window)
    ensures r.outlierRemoval == c.outlierRemoval && r.resample == c.resample
  {
    c.(smoothing := c.smoothing.(enabled := true, window := window, methodName := methodName))
  }

  predicate HasAnyEnabled(c: DataProcessingConfig) {
    c.outlierRemoval.enabled || c.resample.enabled || c.smoothing.enabled
  }

  /** The source's tests: the default enables nothing, a full builder chain enables everything. */
  lemma DefaultAndFullChain()
    ensures !HasAnyEnabled(Default())
    ensures var c := WithSmoothing(WithResample(WithOutlierRemoval(Default(), "3sigma"), 60, "mean"), 5, "moving_avg");
      && c.outlierRemoval == OutlierRemovalConfig(true, "3sigma")
      && c.resample == ResampleConfig(true, 60, "mean")
      && c.smoothing == SmoothingConfig(true, "moving_avg", 5)
      && HasAnyEnabled(c)
  {
  }

  /** Each builder enables something, and the three builders commute. */
  lemma BuildersEnableAndCommute(c: DataProcessingConfig, m1: string, i: nat, m2: string, w: nat, m3: string)
    ensures HasAnyEnabled(WithOutlierRemoval(c, m1))
    ensures HasAnyEnabled(WithResample(c, i, m2))
    ensures HasAnyEnabled(WithSmoothing(c, w, m3))
    ensures WithResample(WithOutlierRemoval(c, m1), i, m2) == WithOutlierRemoval(WithResample(c, i, m2), m1)
    ensures WithSmoothing(WithOutlierRemoval(c, m1), w, m3) == WithOutlierRemoval(WithSmoothing(c, w, m3), m1)
    ensures WithSmoothing(WithResample(c, i, m2), w, m3) == WithResample(WithSmoothing(c, w, m3), i, m2)
  {
  }
}
