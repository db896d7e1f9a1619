/** The messages the components hand to the notification service, with its default durations. */
module Notifications {
  import opened Base

  datatype Kind = Success | Error | Info | Warning

  /** A notification; `duration` is `undefined` when absent. */
  datatype Notification = Notification(message: string, kind: Kind, duration: Option<int>)

  /** `showSuccess(message)`: shown for 3000 ms by default. */
  function SuccessNote(message: string): Notification {
    Notification(message, Success, Some(3000))
  }

  /** `showError(message)`: shown for 5000 ms by default. */
  function ErrorNote(message: string): Notification {
    Notification(message, Error, Some(5000))
  }

  /** `showInfo(message)`: shown for 3000 ms by default. */
  function InfoNote(message: string): Notification {
    Notification(message, Info, Some(3000))
  }

  /** `showWarning(message)`: shown for 4000 ms by default. */
  function WarningNote(message: string): Notification {
    Notification(message, Warning, Some(4000))
  }
}
