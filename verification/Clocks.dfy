/** The durations of internal/clocks/clocks.go the models use, in milliseconds. */
module Clocks {
  const SECOND := 1000
  const MINUTE := 60 * SECOND
  const HOUR := 60 * MINUTE

  const NUDGE_INTERVAL := 5 * SECOND
  const ACTION_TIMEOUT := 10 * SECOND
  const JOB_RETENTION := HOUR
  const REBOOT_TIMEOUT := 3 * MINUTE
  const SHUTDOWN_RETRY_INTERVAL := 20 * SECOND
  const SNAPSHOT_REFETCH_FLOOR := 5 * SECOND
  const SNAPSHOT_ACTION_TIMEOUT := 90 * SECOND
  const FREEZE_HOLD_BOUND := 60 * SECOND
  const AUTH_BACKOFF_BASE := 500
  const AUTH_BACKOFF_MAX := 30 * SECOND
}
