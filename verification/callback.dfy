/** The guard at the top of main.py's `/callback` endpoint: the `state`
    query parameter must equal the value the `/login` endpoint stored in the
    `spotify_auth_state` cookie. The token exchange that follows is not part
    of this model. */
module Callback {
  /** `STATE_KEY`, the name of the cookie holding the expected state. */
  const STATE_KEY: string := "spotify_auth_state"

  /** How the guard ends. Reading `code` or `state` from the query raises
      `KeyError` when the parameter is absent (a server error); a mismatch
      raises `HTTPException(400, "State mismatch")`. */
  datatype CallbackCheck =
    | MissingParameter(name: string)
    | StateMismatch
    | Proceed(code: string)

  /** `code` is read first, then `state`, then the cookie. The source also
      tests `state == None`, which cannot hold once the read succeeded; a
      missing cookie reads as `None` and so never equals the state. */
  function CheckCallback(query: map<string, string>, cookies: map<string, string>): (r: CallbackCheck)
    ensures r.Proceed? <==>
              "code" in query && "state" in query && STATE_KEY in cookies && query["state"] == cookies[STATE_KEY]
    ensures r.Proceed? ==> r.code == query["code"]
    ensures r.MissingParameter? <==> "code" !in query || "state" !in query
    ensures r.MissingParameter? ==> r.name == (if "code" !in query then "code" else "state")
  {
    if "code" !in query then MissingParameter("code")
    else if "state" !in query then MissingParameter("state")
    else if STATE_KEY !in cookies || query["state"] != cookies[STATE_KEY] then StateMismatch
    else Proceed(query["code"])
  }
}
