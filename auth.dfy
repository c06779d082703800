/** The three route guards: `requireAdmin`, `requireOfficer` and the
    authentication half of `getTenantContext`. Token verification is a
    partial map from token text to the claims it carries; a token outside
    the map is one `jwt.verify` rejects. */
module Auth {

  import opened Prelude
  import opened Schema

  /** The payload a valid token carries. */
  datatype Claims = Claims(userId: UserId, role: string)

  /** The outcome of a guard: the caller's claims, or the response it sent. */
  datatype Gate = Pass(claims: Claims) | Deny(code: int, message: string)

  /** `authHeader.startsWith("Bearer ") ? authHeader.slice(7) : null`,
      followed by the `!token` test: an empty token counts as none. */
  function BearerToken(header: Option<string>): (r: Option<string>)
    ensures r.Some? <==> header.Some? && |header.value| > 7 && header.value[..7] == "Bearer "
    ensures r.Some? ==> header.value == "Bearer " + r.value && r.value != ""
  {
    var h := OrEmpty(header);
    if |h| > 7 && h[..7] == "Bearer " then
      assert h == h[..7] + h[7..];
      Some(h[7..])
    else None
  }

  /** The token checks every guard starts with: 401 "Unauthorized" without a
      bearer token, 401 "Invalid token" for one that does not verify. */
  function Authenticate(header: Option<string>, tokens: map<string, Claims>): (g: Gate)
    ensures g.Pass? <==> BearerToken(header).Some? && BearerToken(header).value in tokens
    ensures g.Pass? ==> g.claims == tokens[BearerToken(header).value]
    ensures g.Deny? ==> g.code == 401
    ensures g.Deny? && BearerToken(header).None? ==> g.message == "Unauthorized"
    ensures g.Deny? && BearerToken(header).Some? ==> g.message == "Invalid token"
  {
    match BearerToken(header)
    case None => Deny(401, "Unauthorized")
    case Some(token) => if token in tokens then Pass(tokens[token]) else Deny(401, "Invalid token")
  }

  /** `requireAdmin`: an authenticated caller whose role is not ADMIN gets 403. */
  function RequireAdmin(header: Option<string>, tokens: map<string, Claims>): (g: Gate)
    ensures g.Pass? <==> Authenticate(header, tokens).Pass? && Authenticate(header, tokens).claims.role == "ADMIN"
    ensures g.Pass? ==> g == Authenticate(header, tokens)
    ensures g.Deny? ==> (g.code == 401 <==> Authenticate(header, tokens).Deny?)
    ensures g.Deny? ==> g.code in {401, 403}
  {
    match Authenticate(header, tokens)
    case Deny(c, m) => Deny(c, m)
    case Pass(claims) => if claims.role != "ADMIN" then Deny(403, "Forbidden") else Pass(claims)
  }

  /** `requireOfficer`: officers and admins pass; any other role gets 403. */
  function RequireOfficer(header: Option<string>, tokens: map<string, Claims>): (g: Gate)
    ensures g.Pass? <==> Authenticate(header, tokens).Pass? && Authenticate(header, tokens).claims.role in {"OFFICER", "ADMIN"}
    ensures g.Pass? ==> g == Authenticate(header, tokens)
    ensures g.Deny? ==> (g.code == 401 <==> Authenticate(header, tokens).Deny?)
    ensures g.Deny? ==> g.code in {401, 403}
  {
    match Authenticate(header, tokens)
    case Deny(c, m) => Deny(c, m)
    case Pass(claims) => if claims.role !in ["OFFICER", "ADMIN"] then Deny(403, "Forbidden") else Pass(claims)
  }

  /** Every caller `requireAdmin` lets through is also let through by `requireOfficer`. */
  lemma AdminIsOfficer(header: Option<string>, tokens: map<string, Claims>)
    ensures RequireAdmin(header, tokens).Pass? ==> RequireOfficer(header, tokens) == RequireAdmin(header, tokens)
  {
  }
}
