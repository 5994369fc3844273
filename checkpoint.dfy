/**
 * The checkpoint slot: `state.json`, holding at most one page token.
 * The file is modelled as `None` (missing) or `Some(token)` (present with that token).
 */
module Checkpoint {
  import opened Wrappers

  /** Python truthiness of an optional token: present and not the empty string. */
  predicate Truthy(t: Option<string>) {
    t.Some? && t.value != ""
  }

  /** The token `load_start_token` returns: a missing file or an empty token both mean "from the beginning". */
  function LoadToken(file: Option<string>): (t: Option<string>)
    ensures t.Some? <==> Truthy(file)
    ensures t.Some? ==> t == file && t.value != ""
  {
    if Truthy(file) then file else None
  }

  /**
   * The file after `save_next_token(t)`: a non-empty token overwrites it,
   * anything else leaves no file behind (deleting it if it was there).
   */
  function SaveToken(t: Option<string>): (file: Option<string>)
    ensures file.None? <==> !Truthy(t)
    ensures LoadToken(file) == if Truthy(t) then t else None
  {
    if Truthy(t) then t else None
  }
}
