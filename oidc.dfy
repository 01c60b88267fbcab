/** The token set an OIDC provider issues: an ID token (a JWT), an access token and an optional refresh token. */
module Oidc {
  import opened Wrappers

  datatype TokenSet = TokenSet(idToken: string, accessToken: string, refreshToken: Option<string>)
}
