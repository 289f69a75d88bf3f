/** The configuration constants the modelled code reads (app/config/settings.py). */
module Settings {

  /** Mean grayscale difference a frame must exceed to count as a scene change. */
  const MinSceneChangeThreshold: real := 20.0

  /** Minimum time between two detected keyframes. */
  const MinIntervalSeconds: real := 1.0

  /** Weights of the impact score. */
  datatype Weights = Weights(digg: real, comment: real, share: real, play: real, recentness: real)

  const ConfiguredWeights: Weights := Weights(0.2, 0.3, 0.2, 0.2, 0.1)
}
