/**
 * The credentials helper (backend/utils/auth.py): any non-empty token is
 * accepted with the full scope list; otherwise the `GOOGLE_TEST_TOKEN`
 * environment variable, passed in as `testToken`, is used without scopes.
 */
module Auth {
  import opened Wrappers

  const Scopes: seq<string> := [
    "https://www.googleapis.com/auth/classroom.readonly",
    "https://www.googleapis.com/auth/forms",
    "https://www.googleapis.com/auth/documents.readonly",
    "https://www.googleapis.com/auth/spreadsheets.readonly",
    "https://www.googleapis.com/auth/calendar"
  ]

  /** A credentials dict; `scopes` is `None` when the key is absent. */
  datatype Credentials = Credentials(token: string, scopes: Option<seq<string>>)

  predicate Given(s: Option<string>) {
    s.Some? && s.value != ""
  }

  /** `get_google_credentials(token)`. */
  function GetGoogleCredentials(token: Option<string>, testToken: Option<string>): (r: Option<Credentials>)
    ensures r.None? <==> !Given(token) && !Given(testToken)
    ensures Given(token) ==> r == Some(Credentials(token.value, Some(Scopes)))
    ensures !Given(token) && Given(testToken) ==> r == Some(Credentials(testToken.value, None))
    ensures r.Some? ==> r.value.token != ""
  {
    if Given(token) then Some(Credentials(token.value, Some(Scopes)))
    else if Given(testToken) then Some(Credentials(testToken.value, None))
    else None
  }

  /** A provided token always takes precedence: the environment's test token is then never read. */
  lemma GivenTokenTakesPrecedence(token: Option<string>, test1: Option<string>, test2: Option<string>)
    requires Given(token)
    ensures GetGoogleCredentials(token, test1) == GetGoogleCredentials(token, test2)
    ensures GetGoogleCredentials(token, test1).value.scopes == Some(Scopes)
  {
  }

  /** An empty token counts as no token: the test token decides alone. */
  lemma EmptyTokenIsNoToken(testToken: Option<string>)
    ensures GetGoogleCredentials(Some(""), testToken) == GetGoogleCredentials(None, testToken)
  {
  }

  /** Credentials carry scopes exactly when they come from a provided token. */
  lemma ScopesIffProvided(token: Option<string>, testToken: Option<string>)
    requires GetGoogleCredentials(token, testToken).Some?
    ensures GetGoogleCredentials(token, testToken).value.scopes.Some? <==> Given(token)
  {
  }
}
