/** Polling intervals shared by the queries and the status bar. */
module Constants {
  /** Milliseconds between refetches of the deployment and pod lists. */
  const RefetchIntervalMs := 5000

  /** Milliseconds between refetches of a pod's logs. */
  const LogRefetchIntervalMs := 5000
}
