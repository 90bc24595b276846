/** Bearer-token checks shared by the route handlers. Signature checking
    is an oracle: a token is either signed with the user secret, signed
    with the admin secret, or signed with neither; what the handlers do
    with the payload claims is modelled exactly. A claim is the raw
    payload value, so `!payload.id` is `!Truthy(id)`. */
module Auth {
  import opened Common
  import opened Entities

  datatype Claims = Claims(id: Option<string>, societyId: Option<string>)

  /** The `Authorization: Bearer <token>` credential, by the secret that
      verifies it. */
  datatype Token = UserTok(claims: Claims) | AdminTok(claims: Claims) | Forged

  datatype Secret = UserSecret | AdminSecret

  /** `verify(token, secret)` succeeds. */
  predicate SignedWith(t: Token, s: Secret) {
    (t.UserTok? && s == UserSecret) || (t.AdminTok? && s == AdminSecret)
  }

  /** The verified caller of a route that accepts either kind of token. */
  datatype Ctx = Ctx(id: string, societyId: string, isAdmin: bool)

  /** The inline check most handlers repeat: no token is 401; a token that
      does not verify with `secret`, or whose payload lacks a truthy `id`
      (and, when `needSociety`, a truthy `societyId`), gets `refusal`
      (401 in most routes, 403 in the admin-only creators). */
  function Verify(header: Option<Token>, secret: Secret, needSociety: bool, refusal: int): (r: Reply<Claims>)
    ensures header.None? ==> r == Err(Unauthorized)
    ensures header.Some? && r.Err? ==> r.status == refusal
    ensures r.Ok? <==>
      header.Some? && SignedWith(header.value, secret) && Truthy(header.value.claims.id)
      && (needSociety ==> Truthy(header.value.claims.societyId))
    ensures r.Ok? ==> r.value == header.value.claims
  {
    match header
    case None => Err(Unauthorized)
    case Some(t) =>
      if !SignedWith(t, secret) then Err(refusal)
      else if !Truthy(t.claims.id) || (needSociety && !Truthy(t.claims.societyId)) then Err(refusal)
      else Ok(t.claims)
  }

  /** `Admin.findById(id).select('societyId')`: the society an admin
      account is linked to; an id that does not cast finds nothing (the
      cast error is caught with the other verification errors). */
  function LinkedSociety(admins: map<ObjectId, AdminDoc>, id: string): (r: Option<ObjectId>)
    ensures r.Some? <==> AsObjectId(id).Some? && AsObjectId(id).value in admins
                         && admins[AsObjectId(id).value].societyId.Some?
    ensures r.Some? ==> r == admins[AsObjectId(id).value].societyId
  {
    match AsObjectId(id)
    case None => None
    case Some(k) => if k in admins then admins[k].societyId else None
  }

  /** The admin half of both helpers: a payload with a truthy `id` is
      accepted; its `societyId` is the token's if truthy, else the one
      fallback lookup, and an unlinked admin is 401. */
  function AdminContext(c: Claims, admins: map<ObjectId, AdminDoc>): (r: Reply<Ctx>)
    ensures r.Err? ==> r.status == Unauthorized
    ensures r.Ok? <==> Truthy(c.id) && (Truthy(c.societyId) || LinkedSociety(admins, c.id.value).Some?)
    ensures r.Ok? ==> r.value.isAdmin && r.value.id == c.id.value && r.value.id != ""
    ensures r.Ok? && Truthy(c.societyId) ==> r.value.societyId == c.societyId.value
    ensures r.Ok? && !Truthy(c.societyId) ==> LinkedSociety(admins, c.id.value).Some? && r.value.societyId == LinkedSociety(admins, c.id.value).value
  {
    if !Truthy(c.id) then Err(Unauthorized)
    else if Truthy(c.societyId) then Ok(Ctx(c.id.value, c.societyId.value, true))
    else match LinkedSociety(admins, c.id.value)
      case None => Err(Unauthorized)
      case Some(s) => Ok(Ctx(c.id.value, s, true))
  }

  /** `verifyAnyToken` (society, amenities and complaints routes): the user
      secret is tried first and accepted only with both `id` and
      `societyId`; otherwise the admin secret is tried. Every failure is 401. */
  function VerifyAnyToken(header: Option<Token>, admins: map<ObjectId, AdminDoc>): (r: Reply<Ctx>)
    ensures r.Err? ==> r.status == Unauthorized
    ensures r.Ok? ==> r.value.id != "" && r.value.societyId != ""
    ensures r.Ok? && !r.value.isAdmin <==>
      header.Some? && header.value.UserTok? && Truthy(header.value.claims.id) && Truthy(header.value.claims.societyId)
  {
    match header
    case None => Err(Unauthorized)
    case Some(UserTok(c)) =>
      if Truthy(c.id) && Truthy(c.societyId) then Ok(Ctx(c.id.value, c.societyId.value, false))
      else Err(Unauthorized)
    case Some(AdminTok(c)) => AdminContext(c, admins)
    case Some(Forged) => Err(Unauthorized)
  }

  /** `verifyAdminToken` (admin delivery-log route): only the admin secret,
      with the same society fallback. */
  function VerifyAdminToken(header: Option<Token>, admins: map<ObjectId, AdminDoc>): (r: Reply<Ctx>)
    ensures r.Err? ==> r.status == Unauthorized
    ensures r.Ok? ==> header.Some? && header.value.AdminTok? && r.value.isAdmin
  {
    match header
    case Some(AdminTok(c)) => AdminContext(c, admins)
    case _ => Err(Unauthorized)
  }

  /** The society a list route reads for its caller (amenities
      route.js:75-86, complaints route.js:57-68): an admin's `societyId`
      query parameter when it is truthy, else the context's; a user's is
      always the context's. */
  function ScopedSociety(ctx: Ctx, query: Option<string>): (r: string)
    ensures !ctx.isAdmin || !Truthy(query) ==> r == ctx.societyId
    ensures ctx.isAdmin && Truthy(query) ==> r == query.value
  {
    if ctx.isAdmin && Truthy(query) then query.value else ctx.societyId
  }

  /** A user cannot widen their scope: whatever the query parameter, a
      user caller reads their own society, and nothing but the query
      decides an admin's when it is given. */
  lemma {:induction false} UserScopeIgnoresQuery(ctx: Ctx, q1: Option<string>, q2: Option<string>)
    ensures !ctx.isAdmin ==> ScopedSociety(ctx, q1) == ScopedSociety(ctx, q2) == ctx.societyId
    ensures ctx.isAdmin && Truthy(q1) ==> ScopedSociety(ctx, q1) == ScopedSociety(ctx.(societyId := ""), q1)
  {
  }

  /** A user-signed token carrying both claims is accepted as that user,
      whatever the admin accounts are: the user secret is tried first. */
  lemma {:induction false} UserTriedFirst(c: Claims, admins: map<ObjectId, AdminDoc>)
    requires Truthy(c.id) && Truthy(c.societyId)
    ensures VerifyAnyToken(Some(UserTok(c)), admins) == Ok(Ctx(c.id.value, c.societyId.value, false))
  {
  }

  /** A user-signed token lacking a claim is not accepted as a user; it
      falls through to the admin secret, which rejects it. */
  lemma {:induction false} IncompleteUserTokenRejected(c: Claims, admins: map<ObjectId, AdminDoc>)
    requires !Truthy(c.id) || !Truthy(c.societyId)
    ensures VerifyAnyToken(Some(UserTok(c)), admins) == Err(Unauthorized)
  {
  }

  /** The admin accounts are consulted only for an admin token with an id
      and no society: every other verdict is the same for any store. */
  lemma {:induction false} LookupOnlyForUnlinkedAdmin(header: Option<Token>, a1: map<ObjectId, AdminDoc>, a2: map<ObjectId, AdminDoc>)
    requires !(header.Some? && header.value.AdminTok? && Truthy(header.value.claims.id) && !Truthy(header.value.claims.societyId))
    ensures VerifyAnyToken(header, a1) == VerifyAnyToken(header, a2)
    ensures VerifyAdminToken(header, a1) == VerifyAdminToken(header, a2)
  {
  }

  /** Whenever the admin-only helper accepts, the either-kind helper
      accepts with the same context. */
  lemma {:induction false} AdminAgreesWithAny(header: Option<Token>, admins: map<ObjectId, AdminDoc>)
    requires VerifyAdminToken(header, admins).Ok?
    ensures VerifyAnyToken(header, admins) == VerifyAdminToken(header, admins)
  {
  }
}
