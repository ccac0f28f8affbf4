/**
 The stored credential: the string kept in browser storage under the key
 `fz_token`. Both the navigation guard and the connection manager read it and
 consult only its JavaScript truthiness, so an absent entry (`null`) and the
 empty string mean the same thing: no session.
 */
module Credential {
  import opened Wrappers

  /**
   JavaScript truthiness of the stored token: `localStorage.getItem` yields a
   string or `null`, and of those only `null` and `""` are falsy.
   */
  predicate Present(token: Option<string>)
    ensures Present(token) <==> token !in {None, Some("")}
  {
    token.Some? && token.value != ""
  }
}
