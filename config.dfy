/** Configuration values the core reads, fixed at their documented defaults
    (reading them from the environment is not modelled). */
module Config {
  /** Maximum number of forwarding attempts per job. */
  const TargetRetries := 3
  /** Minimum spacing between outbound call starts, in milliseconds. */
  const MinTime := 500
  const MaxConcurrent := 1
  /** Admission bound on waiting + active + delayed jobs. */
  const MaxSize := 1000
  /** Bull's time limit for processing one job, in milliseconds. */
  const JobTimeout := 60000
  /** Bull's default number of processing attempts per job. */
  const JobAttempts := 3
  /** Sweep period, also used as the age bound of a sweep, in milliseconds. */
  const CleanupInterval := 300000
}
