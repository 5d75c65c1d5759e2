/** Names shared by every component: optional values, instants and durations.

Instants and durations are integers counting nanoseconds, the unit of the
program's own durations. Instants come from one clock that never goes back.
*/
module Prelude {

  datatype Option<+T> = None | Some(value: T)

  type Time = int

  const SECOND: Time := 1_000_000_000
  const MINUTE: Time := 60 * SECOND
  const HOUR: Time := 3600 * SECOND
  const DAY: Time := 24 * HOUR

  /** When a user logged in; without that information, now. */
  function LoginTime(authTime: Option<Time>, now: Time): Time {
    if authTime.Some? then authTime.value else now
  }
}
