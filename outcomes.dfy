/** Values exchanged with the services the pages call: an optional value, the
    signed-in identity, and the outcome of an authentication request. */
module Outcomes {

  /** JavaScript's `T | null` (or `undefined`). */
  datatype Option<T> = None | Some(value: T)

  /** The part of a Supabase user that the pages read. `email` may be absent. */
  datatype User = User(id: string, email: Option<string>)

  /** The outcome of `signUp` or `signInWithPassword`: the returned user
      (which may be null, e.g. while e-mail confirmation is pending), the
      provider's error message, or the message of an exception thrown by the
      call itself (for instance when the exported client is null because the
      deployment has no service configured, lib/supabase.ts). */
  datatype AuthOutcome = AuthOk(user: Option<User>) | AuthError(message: string) | AuthThrew(message: string)

  /** The e-mail and password sent with an authentication request. */
  datatype Credentials = Credentials(email: string, password: string)
}
