/** What the servos have in common (servo.c). */
module Servo {

  datatype ServoState = UNLOCKED | JUMP | LOCKED

  /** Thresholds in ns; zero turns one off. */
  datatype ServoConfig = ServoConfig(maxFrequency: real, stepThreshold: real, firstStepThreshold: real)

  predicate WellFormed(cfg: ServoConfig) {
    cfg.maxFrequency >= 0.0 && cfg.stepThreshold >= 0.0 && cfg.firstStepThreshold >= 0.0
  }

  function Abs(x: real): (r: real)
    ensures r >= 0.0
  {
    if x < 0.0 then -x else x
  }

  /** Whether an error calls for a step of the clock. */
  predicate Steps(cfg: ServoConfig, firstUpdate: bool, error: real) {
    || (firstUpdate && cfg.firstStepThreshold != 0.0 && cfg.firstStepThreshold < Abs(error))
    || (cfg.stepThreshold != 0.0 && cfg.stepThreshold < Abs(error))
  }

  function Clamp(x: real, max: real): (r: real)
    requires max >= 0.0
    ensures -max <= r <= max
    ensures -max <= x <= max ==> r == x
  {
    if x < -max then -max else if x > max then max else x
  }

  /** Of all allowed frequencies f is the nearest to x. */
  ghost predicate Nearest(x: real, max: real, f: real) {
    -max <= f <= max && (x > f ==> f == max) && (x < f ==> f == -max)
  }

  /** An error exceeds a threshold that is not turned off. */
  predicate TooLarge(cfg: ServoConfig, firstUpdate: bool, error: real) {
    || (cfg.stepThreshold > 0.0 && (error > cfg.stepThreshold || -error > cfg.stepThreshold))
    || (firstUpdate && cfg.firstStepThreshold > 0.0 && (error > cfg.firstStepThreshold || -error > cfg.firstStepThreshold))
  }

  lemma StepsIfTooLarge(cfg: ServoConfig, firstUpdate: bool, error: real)
    requires WellFormed(cfg)
    ensures Steps(cfg, firstUpdate, error) <==> TooLarge(cfg, firstUpdate, error)
  {
  }
}
