/** The Android bridge's error codes (`errors/ErrorCodes.kt`). */
module AndroidErrors {

  /** The single error code. Its Kotlin `toString()` is its name. */
  datatype ErrorCode = ActivityNotAttached {

    function Name(): (n: string)
      ensures n == "ACTIVITY_NOT_ATTACHED"
    {
      match this
      case ActivityNotAttached => "ACTIVITY_NOT_ATTACHED"
    }

    /** The human-readable message. The handler never sends it: its error replies
        carry a null message. */
    function Message(): string {
      match this
      case ActivityNotAttached =>
        "Activity is not attached to FlutterEngine, so the functionality that uses the Activity is not available."
    }
  }
}
