/** What the client screens show through `Alert.alert`. */
module Alerts {
  import opened Wrappers

  /** An alert: its title and its message. */
  datatype Notice = Notice(title: string, message: string)

  /** The alert every screen shows when a request throws. */
  const GenericErrorNotice := Notice("Error", "Something went wrong. Please try again later.")

  /** JavaScript's `s || fallback` on an optional string: the fallback
      replaces a missing or empty string. */
  function OrElse(s: Option<string>, fallback: string): (r: string)
    ensures s.Some? && s.value != "" ==> r == s.value
    ensures s == None || s == Some("") ==> r == fallback
  {
    if s.Some? && s.value != "" then s.value else fallback
  }
}
