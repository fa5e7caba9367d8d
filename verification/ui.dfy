/** What the screens show or send instead of calling Alert.alert or the
    HTTP client: an alert value, and the outcome of pressing a submit button. */
module Ui {

  /** A blocking alert: Alert.alert(title, message). */
  datatype Alert = Alert(title: string, message: string)

  function ErrorAlert(message: string): Alert { Alert("Error", message) }

  /** Pressing a submit button either stops at a validation alert, before any
      request is made, or sends exactly one request carrying `payload`. */
  datatype Submission<+T> = Blocked(alert: Alert) | Requested(payload: T)

  /** The alert shown once an awaited request settles: `success` when it
      resolved, `failure` when it threw. */
  function Settled(succeeded: bool, success: Alert, failure: Alert): Alert {
    if succeeded then success else failure
  }
}
