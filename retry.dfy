/** Retry configuration of sdk/core/src/options/retry.rs. */
module Retry {

  /** `ExponentialRetryOptions`: no settings yet. */
  datatype ExponentialRetryOptions = ExponentialRetryOptions

  /** `FixedRetryOptions`: no settings yet. */
  datatype FixedRetryOptions = FixedRetryOptions

  /** `RetryMode`. */
  datatype RetryMode =
    | Exponential(exponential: ExponentialRetryOptions)
    | Fixed(fixed: FixedRetryOptions)
    | None

  /** `RetryOptions`: a private mode. */
  datatype RetryOptions = RetryOptions(mode: RetryMode)

  /** `RetryOptions::exponential`. */
  function ExponentialRetry(options: ExponentialRetryOptions): (r: RetryOptions)
    ensures ModeOf(r) == Exponential(options)
  {
    RetryOptions(Exponential(options))
  }

  /** `RetryOptions::fixed`. */
  function FixedRetry(options: FixedRetryOptions): (r: RetryOptions)
    ensures ModeOf(r) == Fixed(options)
  {
    RetryOptions(Fixed(options))
  }

  /** `RetryOptions::none`. */
  function NoRetry(): (r: RetryOptions)
    ensures ModeOf(r) == None
  {
    RetryOptions(None)
  }

  /** `Default for RetryMode`: exponential with default settings. */
  function DefaultMode(): (m: RetryMode)
    ensures m.Exponential?
  {
    Exponential(ExponentialRetryOptions)
  }

  /** `Default for RetryOptions`: holds the default mode. */
  function DefaultOptions(): (r: RetryOptions)
    ensures ModeOf(r) == DefaultMode()
    ensures r == ExponentialRetry(ExponentialRetryOptions)
  {
    RetryOptions(DefaultMode())
  }

  /** `From<RetryOptions> for RetryMode`: the stored mode. */
  function ModeOf(options: RetryOptions): RetryMode {
    options.mode
  }
}
