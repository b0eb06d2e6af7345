/** The environment-derived settings the modelled code reads (backend/app/config.py). */
module Config {

  datatype Settings = Settings(
    correlationWindowMinutes: int,
    correlationMinScore: int,
    maxIncidentSpanMinutes: int,
    minGroupCohesion: real,
    impossibleTravelWindowMinutes: int,
    mfaFatigueThreshold: int,
    mfaFatigueWindowMinutes: int,
    privilegedActionWindowMinutes: int,
    unusualEgressBytes: int,
    maxProcessingAttempts: int,
    approvalTtlMinutes: int,
    authRequired: bool)

  /** The values used when no environment variable is set. */
  const DEFAULTS := Settings(60, 5, 90, 5.0, 60, 4, 10, 60, 500_000_000, 3, 30, false)
}
