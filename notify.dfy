/** The notification requests the services hand to the desktop (notify_rust). */
module Notify {

  /** `Urgency::Critical` when the source sets it, the library default otherwise. */
  datatype Urgency = DefaultUrgency | Critical

  /** One request: title (`summary`), body text, urgency and display timeout in
      milliseconds, where 0 keeps the notification on screen until dismissed. */
  datatype Notification = Notification(summary: string, body: string, urgency: Urgency, timeoutMs: nat) {

    predicate Persistent() {
      timeoutMs == 0
    }
  }
}
