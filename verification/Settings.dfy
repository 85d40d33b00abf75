/** The part of the configuration that decides behaviour, with the bounds its fields declare. */
module Settings {

  datatype Frequency = Weekly | Monthly | Quarterly | Annual {
    function Text(): string {
      match this
      case Weekly => "WEEKLY"
      case Monthly => "MONTHLY"
      case Quarterly => "QUARTERLY"
      case Annual => "ANNUAL"
    }

    function LowerText(): string {
      match this
      case Weekly => "weekly"
      case Monthly => "monthly"
      case Quarterly => "quarterly"
      case Annual => "annual"
    }
  }

  datatype Tier = Tier(name: string, creditPerPeriod: int, productId: string, creditTypeId: string, frequency: Frequency)

  datatype RawSettings = RawSettings(
    maxAttempts: int, retryBase: real, retryCap: real, rateCardId: string, tiers: map<string, Tier>)
  {
    predicate Valid() {
      1 <= maxAttempts && 1.0 <= retryBase && 1.0 <= retryCap
    }
  }

  /** `worker_max_attempts`, `worker_retry_base_seconds` and `worker_retry_cap_seconds` are all at least 1. */
  type Settings = s: RawSettings | s.Valid() witness RawSettings(1, 1.0, 1.0, "", map[])
}
