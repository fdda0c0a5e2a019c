/** The login page: on a successful sign-in it records the session, then navigates by role. */
module Login {
  import opened Wrappers
  import opened AuthContext

  /** The landing page of a role after signing in. */
  function RouteForRole(role: string): (path: string)
    ensures role == "RECIPE_CREATOR" ==> path == "/creator"
    ensures role == "HOME_COOK" ==> path == "/find-recipes"
    ensures role == "ADMIN" ==> path == "/admin"
    ensures role != "RECIPE_CREATOR" && role != "HOME_COOK" && role != "ADMIN" ==> path == "/"
  {
    if role == "RECIPE_CREATOR" then "/creator"
    else if role == "HOME_COOK" then "/find-recipes"
    else if role == "ADMIN" then "/admin"
    else "/"
  }

  /** A step of `handleSubmit` visible to the rest of the application. */
  datatype Effect = CallLogin(session: Session) | Navigate(path: string)

  /** The steps of `handleSubmit` for the reply to `POST /auth/login`: on success the session of the
      reply is handed to `login` and only then does the page navigate, once, by the reply's role; on
      failure neither happens. */
  function SubmitEffects(reply: Reply<Session>): (effects: seq<Effect>)
    ensures reply.Err? ==> effects == []
    ensures reply.Ok? ==> |effects| == 2 && effects[0] == CallLogin(reply.payload)
    ensures reply.Ok? ==> effects[1] == Navigate(RouteForRole(reply.payload.role))
    ensures forall i :: 0 <= i < |effects| && effects[i].Navigate? ==>
              exists j :: 0 <= j < i && effects[j].CallLogin?
  {
    match reply
    case Ok(session) => [CallLogin(session), Navigate(RouteForRole(session.role))]
    case Err => []
  }
}
