/** The constants of the admission coordinator (src/admission.rs). */
module AdmissionLimits {

  const MAX_QUEUE_TICKETS := 1024
  const LEASE_SECONDS := 30

  /** `lease_is_expired` for a heartbeat at that time, with the saturating subtraction
      written out. */
  predicate Lapsed(heartbeat: nat, now: nat) {
    heartbeat <= now && now - heartbeat >= LEASE_SECONDS
  }
}
