/** Farmer accounts and the session table (`AuthService` in
    src/services/auth.service.ts): registration and login validate their input
    and open a session valid for 30 days; a refresh token is honoured only
    while its session is active and unexpired; logging out revokes one session or all of a
    farmer's. Hashing and token signing are opaque functions passed in. */
module AuthService {
  import opened Common
  import opened Models
  import opened Store

  datatype RegisterInput = RegisterInput(
    name: Option<string>,
    email: Option<string>,
    password: Option<string>,
    phone: Option<string>,
    preferredLanguage: Option<Lang>,
    location: Option<Location>)

  datatype LoginInput = LoginInput(email: Option<string>, password: Option<string>)

  /** The client's user agent and address, as the request reports them. */
  datatype RequestMeta = RequestMeta(userAgent: Option<string>, ip: Option<string>)

  /** The token payload; its role is always "farmer". */
  datatype TokenPayload = TokenPayload(sub: Id, sessionId: Id)

  datatype Tokens = Tokens(accessToken: string, refreshToken: string)

  datatype AuthResult = AuthResult(farmer: Id, session: Id, tokens: Tokens)

  /** What verifying a refresh token can yield. */
  datatype TokenCheck = Verified(payload: TokenPayload) | Expired | Malformed

  /** The foreign libraries: password hashing and comparison, token signing
      and refresh-token verification. */
  datatype Crypto = Crypto(
    hash: string -> string,
    compare: (string, string) -> bool,
    signAccess: TokenPayload -> string,
    signRefresh: TokenPayload -> string,
    verifyRefresh: string -> TokenCheck)

  const NameRequired := ApiError(BadRequest, "Name is required")
  const EmailRequired := ApiError(BadRequest, "Email is required")
  const PasswordTooShort := ApiError(BadRequest, "Password must be at least 6 characters")
  const EmailRegistered := ApiError(BadRequest, "Email already registered")
  const CredentialsRequired := ApiError(BadRequest, "Email and password are required")
  const InvalidCredentials := ApiError(Unauthorized, "Invalid credentials")
  const MissingToken := ApiError(Unauthorized, "Missing refresh token")
  const TokenExpired := ApiError(Unauthorized, "Refresh token expired")
  const TokenInvalid := ApiError(Unauthorized, "Invalid refresh token")
  const SessionInactive := ApiError(Unauthorized, "Session is no longer active")
  const FarmerGone := ApiError(Unauthorized, "Farmer not found")

  const MinPasswordLength := 6
  const RefreshLifetimeMs: int := 30 * 24 * 60 * 60 * 1000

  /** `computeRefreshExpiryDate()` at time `now`: thirty days later. */
  function RefreshExpiry(now: Millis): (t: Millis)
    ensures t - now == 2592000000
  {
    now + RefreshLifetimeMs
  }

  function TokensFor(c: Crypto, p: TokenPayload): Tokens {
    Tokens(c.signAccess(p), c.signRefresh(p))
  }

  // ---------------------------------------------------------------- records

  /** The address as the farmer schema stores and queries it: lower-cased by
      the service (`email.toLowerCase()`) and trimmed by the schema's `trim`
      option, which applies to the created document and to `findOne` filters
      alike. */
  function StoredEmail(email: string): string {
    Trim(Lower(email))
  }

  /** An address stores as "" exactly when it is blank: lower-casing neither
      creates nor removes white space. */
  lemma StoredEmailBlankIff(email: string)
    ensures StoredEmail(email) == "" <==> Trim(email) == ""
  {
    forall i | 0 <= i < |email|
      ensures IsSpace(Lower(email)[i]) <==> IsSpace(email[i])
    {
    }
    TrimEmptyIff(email);
    TrimEmptyIff(Lower(email));
  }

  /** Padding and letter case do not make a new address: a space on either
      side, or lower-casing, leaves the stored address as it was. */
  lemma {:induction false} SameStoredAddress(email: string)
    ensures StoredEmail(" " + email + " ") == StoredEmail(email)
    ensures StoredEmail(Lower(email)) == StoredEmail(email)
  {
    LowerConcat(" ", email);
    LowerConcat(" " + email, " ");
    assert Lower(" ") == " ";
    var l := Lower(email);
    assert Lower(" " + email + " ") == [' '] + l + [' '];
    TrimDropsTrailingSpace([' '] + l, ' ');
    TrimDropsLeadingSpace(' ', l);
    LowerIdempotent(email);
  }

  /** Some farmer is registered under exactly this (already normalised) address. */
  predicate EmailTaken(farmers: map<Id, Farmer>, email: string) {
    exists id :: id in farmers && farmers[id].email == email
  }

  /** The farmer registered under an address, if any (unique by `UniqueEmails`). */
  ghost function FarmerWithEmail(farmers: map<Id, Farmer>, email: string): (r: Option<Id>)
    ensures r.None? <==> !EmailTaken(farmers, email)
    ensures r.Some? ==> r.value in farmers && farmers[r.value].email == email
  {
    if EmailTaken(farmers, email) then
      var id :| id in farmers && farmers[id].email == email;
      Some(id)
    else None
  }

  lemma FarmerWithEmailIsUnique(farmers: map<Id, Farmer>, email: string, id: Id)
    requires UniqueEmails(farmers)
    requires id in farmers && farmers[id].email == email
    ensures FarmerWithEmail(farmers, email) == Some(id)
  {
  }

  /** The session a successful registration or login opens. */
  function NewSession(farmer: Id, meta: RequestMeta, now: Millis): (s: Session)
    ensures s.farmer == farmer && s.isActive && s.revokedAt.None?
    ensures s.expiresAt == RefreshExpiry(now)
    ensures s.userAgent == meta.userAgent.GetOr("") && s.ipAddress == meta.ip.GetOr("")
  {
    Session(farmer, meta.userAgent.GetOr(""), meta.ip.GetOr(""), true, None, RefreshExpiry(now))
  }

  // ---------------------------------------------------------------- registration

  /** The registration checks, in the source's order. */
  function RegisterCheck(farmers: map<Id, Farmer>, input: RegisterInput): (e: Option<ApiError>)
    ensures Blank(input.name) ==> e == Some(NameRequired)
    ensures !Blank(input.name) && Blank(input.email) ==> e == Some(EmailRequired)
    ensures (!Blank(input.name) && !Blank(input.email) &&
             (input.password.None? || |input.password.value| < MinPasswordLength)) ==> e == Some(PasswordTooShort)
    ensures e.None? <==>
      && !Blank(input.name) && !Blank(input.email)
      && input.password.Some? && |input.password.value| >= MinPasswordLength
      && !EmailTaken(farmers, StoredEmail(input.email.value))
    ensures e.Some? ==> e.value.kind == BadRequest
  {
    if Blank(input.name) then Some(NameRequired)
    else if Blank(input.email) then Some(EmailRequired)
    else if input.password.None? || |input.password.value| < MinPasswordLength then Some(PasswordTooShort)
    else if EmailTaken(farmers, StoredEmail(input.email.value)) then Some(EmailRegistered)
    else None
  }

  /** The farmer record a registration creates. */
  function NewFarmer(input: RegisterInput, c: Crypto): (f: Farmer)
    requires input.name.Some? && input.email.Some? && input.password.Some?
    ensures f.name == Trim(input.name.value) && f.email == StoredEmail(input.email.value)
    ensures f.passwordHash == c.hash(input.password.value)
    ensures f.phone == (if input.phone.Some? then Trim(input.phone.value) else "")
    ensures f.preferredLanguage == input.preferredLanguage.GetOr(Bn)
    ensures f.location == input.location.GetOr(Location("", "", "", ""))
    ensures f.totalCropsTracked == Some(0) && f.totalBatchesStored == Some(0)
  {
    Farmer(Trim(input.name.value), StoredEmail(input.email.value), c.hash(input.password.value),
           if input.phone.Some? then Trim(input.phone.value) else "",
           input.preferredLanguage.GetOr(Bn), input.location.GetOr(Location("", "", "", "")),
           Some(0), Some(0))
  }

  /** `registerFarmer(input, meta)` at time `now`. */
  method RegisterFarmer(db: Db, input: RegisterInput, meta: RequestMeta, now: Millis, c: Crypto)
    returns (res: Result<AuthResult>)
    requires db.Valid()
    modifies db`farmers, db`sessions, db`nextId
    ensures db.Valid()
    ensures var check := RegisterCheck(old(db.farmers), input);
      && (check.Some? ==>
            && res == Failure(check.value)
            && db.farmers == old(db.farmers) && db.sessions == old(db.sessions))
      && (check.None? ==>
            && res.Success?
            && res.value.farmer !in old(db.farmers) && res.value.session !in old(db.sessions)
            && db.farmers == old(db.farmers)[res.value.farmer := NewFarmer(input, c)]
            && db.sessions == old(db.sessions)[res.value.session := NewSession(res.value.farmer, meta, now)]
            && res.value.tokens == TokensFor(c, TokenPayload(res.value.farmer, res.value.session)))
  {
    if input.name.None? || Trim(input.name.value) == "" {
      return Failure(NameRequired);
    }
    if input.email.None? || Trim(input.email.value) == "" {
      return Failure(EmailRequired);
    }
    if input.password.None? || |input.password.value| < MinPasswordLength {
      return Failure(PasswordTooShort);
    }
    if exists id :: id in db.farmers && db.farmers[id].email == StoredEmail(input.email.value) {
      return Failure(EmailRegistered);
    }
    var farmer := NewFarmer(input, c);
    var farmerId := db.AddFarmer(farmer);
    var sessionId := db.AddSession(NewSession(farmerId, meta, now));
    var payload := TokenPayload(farmerId, sessionId);
    res := Success(AuthResult(farmerId, sessionId, Tokens(c.signAccess(payload), c.signRefresh(payload))));
  }

  /** Addresses are compared normalised: once an address is registered, a
      second registration with the same address in any letter case, with or
      without surrounding white space, is refused. */
  lemma {:induction false} SecondRegistrationRejected(farmers: map<Id, Farmer>, id: Id, first: RegisterInput,
                                                      second: RegisterInput, c: Crypto)
    requires first.name.Some? && first.password.Some? && !Blank(first.email)
    requires !Blank(second.name) && second.password.Some? && |second.password.value| >= MinPasswordLength
    requires second.email.Some? && StoredEmail(second.email.value) == StoredEmail(first.email.value)
    ensures RegisterCheck(farmers[id := NewFarmer(first, c)], second) == Some(EmailRegistered)
  {
    SameAddressNotBlank(first.email.value, second.email.value);
    var f := NewFarmer(first, c);
    var e := StoredEmail(second.email.value);
    assert f.email == e;
    TakenAfterInsert(farmers, id, f, e);
    TakenEmailRejected(farmers[id := f], second);
  }

  /** Two addresses that store alike are blank together. */
  lemma SameAddressNotBlank(a: string, b: string)
    requires StoredEmail(a) == StoredEmail(b) && Trim(a) != ""
    ensures Trim(b) != ""
  {
    StoredEmailBlankIff(a);
    StoredEmailBlankIff(b);
  }

  /** A farmer inserted under an address makes that address taken. */
  lemma TakenAfterInsert(farmers: map<Id, Farmer>, id: Id, f: Farmer, e: string)
    requires f.email == e
    ensures EmailTaken(farmers[id := f], e)
  {
    assert farmers[id := f][id].email == e;
  }

  /** Otherwise valid input whose address is taken is refused as already registered. */
  lemma TakenEmailRejected(farmers: map<Id, Farmer>, input: RegisterInput)
    requires !Blank(input.name) && !Blank(input.email)
    requires input.password.Some? && |input.password.value| >= MinPasswordLength
    requires EmailTaken(farmers, StoredEmail(input.email.value))
    ensures RegisterCheck(farmers, input) == Some(EmailRegistered)
  {
  }

  // ---------------------------------------------------------------- login

  /** The login decision: the farmer whose normalised address matches and
      whose password hash the password satisfies. */
  ghost function LoginOutcome(farmers: map<Id, Farmer>, input: LoginInput, c: Crypto): (r: Result<Id>)
    requires UniqueEmails(farmers)
    ensures (Blank(input.email) || !Truthy(input.password)) ==> r == Failure(CredentialsRequired)
    ensures r.Failure? ==> r.error == CredentialsRequired || r.error == InvalidCredentials
    ensures r.Success? <==>
      && !Blank(input.email) && Truthy(input.password)
      && exists id :: (id in farmers && farmers[id].email == StoredEmail(input.email.value)
                       && c.compare(input.password.value, farmers[id].passwordHash))
    ensures r.Success? ==> r.value in farmers && farmers[r.value].email == StoredEmail(input.email.value)
  {
    if Blank(input.email) || !Truthy(input.password) then Failure(CredentialsRequired)
    else
      match FarmerWithEmail(farmers, StoredEmail(input.email.value))
      case None => Failure(InvalidCredentials)
      case Some(id) =>
        if c.compare(input.password.value, farmers[id].passwordHash) then Success(id)
        else Failure(InvalidCredentials)
  }

  /** `loginFarmer(input, meta)` at time `now`. */
  method LoginFarmer(db: Db, input: LoginInput, meta: RequestMeta, now: Millis, c: Crypto)
    returns (res: Result<AuthResult>)
    requires db.Valid()
    modifies db`sessions, db`nextId
    ensures db.Valid()
    ensures var outcome := LoginOutcome(old(db.farmers), input, c);
      && (outcome.Failure? ==> res == Failure(outcome.error) && db.sessions == old(db.sessions))
      && (outcome.Success? ==>
            && res.Success? && res.value.farmer == outcome.value
            && res.value.session !in old(db.sessions)
            && db.sessions == old(db.sessions)[res.value.session := NewSession(outcome.value, meta, now)]
            && res.value.tokens == TokensFor(c, TokenPayload(res.value.farmer, res.value.session)))
  {
    ghost var outcome := LoginOutcome(db.farmers, input, c);
    if input.email.None? || Trim(input.email.value) == "" || input.password.None? || input.password.value == "" {
      assert outcome == Failure(CredentialsRequired);
      return Failure(CredentialsRequired);
    }
    var email := StoredEmail(input.email.value);
    if !exists id :: id in db.farmers && db.farmers[id].email == email {
      assert outcome == Failure(InvalidCredentials);
      return Failure(InvalidCredentials);
    }
    var farmerId :| farmerId in db.farmers && db.farmers[farmerId].email == email;
    FarmerWithEmailIsUnique(db.farmers, email, farmerId);
    if !c.compare(input.password.value, db.farmers[farmerId].passwordHash) {
      assert outcome == Failure(InvalidCredentials);
      return Failure(InvalidCredentials);
    }
    assert outcome == Success(farmerId);
    var sessionId := db.AddSession(NewSession(farmerId, meta, now));
    var payload := TokenPayload(farmerId, sessionId);
    res := Success(AuthResult(farmerId, sessionId, Tokens(c.signAccess(payload), c.signRefresh(payload))));
  }

  /** An unknown address and a wrong password are indistinguishable to the
      caller: both give the same unauthorized error. */
  lemma {:induction false} LoginHidesWhichCredentialFailed(farmers: map<Id, Farmer>, input: LoginInput, c: Crypto)
    requires UniqueEmails(farmers)
    requires !Blank(input.email) && Truthy(input.password)
    ensures var r := LoginOutcome(farmers, input, c);
      (!EmailTaken(farmers, StoredEmail(input.email.value)) ==> r == Failure(InvalidCredentials))
      && (forall id :: (id in farmers && farmers[id].email == StoredEmail(input.email.value)
            && !c.compare(input.password.value, farmers[id].passwordHash)) ==> r == Failure(InvalidCredentials))
  {
    forall id | id in farmers && farmers[id].email == StoredEmail(input.email.value)
      ensures FarmerWithEmail(farmers, StoredEmail(input.email.value)) == Some(id)
    {
      FarmerWithEmailIsUnique(farmers, StoredEmail(input.email.value), id);
    }
  }

  /** Registering and then logging in with the same address (in any letter
      case, padded or not) and a password the hash accepts finds the new farmer. */
  lemma {:induction false} LoginAfterRegister(farmers: map<Id, Farmer>, id: Id, reg: RegisterInput,
                                              login: LoginInput, c: Crypto)
    requires UniqueEmails(farmers)
    requires RegisterCheck(farmers, reg).None? && id !in farmers
    requires !Blank(login.email) && Truthy(login.password)
    requires StoredEmail(login.email.value) == StoredEmail(reg.email.value)
    requires c.compare(login.password.value, c.hash(reg.password.value))
    ensures LoginOutcome(farmers[id := NewFarmer(reg, c)], login, c) == Success(id)
  {
    var f := NewFarmer(reg, c);
    assert !EmailTaken(farmers, f.email);
    NewAddressKeepsUnique(farmers, id, f);
    FarmerWithEmailIsUnique(farmers[id := f], StoredEmail(login.email.value), id);
  }

  /** Adding a farmer under an unused address keeps addresses unique. */
  lemma NewAddressKeepsUnique(farmers: map<Id, Farmer>, id: Id, f: Farmer)
    requires UniqueEmails(farmers) && id !in farmers && !EmailTaken(farmers, f.email)
    ensures UniqueEmails(farmers[id := f])
  {
  }

  // ---------------------------------------------------------------- refresh

  /** Whether a session is still stored at `now`: the TTL index on `expiresAt`
      (with no grace period) removes a session once its expiry has passed. */
  predicate Unexpired(s: Session, now: Millis) {
    now < s.expiresAt
  }

  /** The refresh decision at time `now`: the payload of a verified token
      whose session is still stored and active and whose farmer still exists. */
  function RefreshOutcome(farmers: map<Id, Farmer>, sessions: map<Id, Session>, token: string,
                          verify: string -> TokenCheck, now: Millis): (r: Result<TokenPayload>)
    ensures token == "" ==> r == Failure(MissingToken)
    ensures token != "" && verify(token).Expired? ==> r == Failure(TokenExpired)
    ensures token != "" && verify(token).Malformed? ==> r == Failure(TokenInvalid)
    ensures r.Success? <==>
      && token != "" && verify(token).Verified?
      && verify(token).payload.sessionId in sessions
      && sessions[verify(token).payload.sessionId].isActive
      && Unexpired(sessions[verify(token).payload.sessionId], now)
      && verify(token).payload.sub in farmers
    ensures r.Success? ==> r.value == verify(token).payload
    ensures r.Failure? ==> r.error.kind == Unauthorized
  {
    if token == "" then Failure(MissingToken)
    else match verify(token)
      case Expired => Failure(TokenExpired)
      case Malformed => Failure(TokenInvalid)
      case Verified(p) =>
        if p.sessionId !in sessions || !Unexpired(sessions[p.sessionId], now) || !sessions[p.sessionId].isActive
        then Failure(SessionInactive)
        else if p.sub !in farmers then Failure(FarmerGone)
        else Success(p)
  }

  /** `meta.userAgent && (session.userAgent = …)`, and likewise the address:
      each reported value replaces the stored one only when non-empty. */
  function Refreshed(s: Session, meta: Option<RequestMeta>): (t: Session)
    ensures t.farmer == s.farmer && t.isActive == s.isActive && t.revokedAt == s.revokedAt
    ensures t.expiresAt == s.expiresAt
    ensures t.userAgent == (if meta.Some? && Truthy(meta.value.userAgent) then meta.value.userAgent.value else s.userAgent)
    ensures t.ipAddress == (if meta.Some? && Truthy(meta.value.ip) then meta.value.ip.value else s.ipAddress)
  {
    match meta
    case None => s
    case Some(m) =>
      s.(userAgent := if Truthy(m.userAgent) then m.userAgent.value else s.userAgent,
         ipAddress := if Truthy(m.ip) then m.ip.value else s.ipAddress)
  }

  /** `refreshTokens(refreshToken, meta)` at time `now`: new tokens for the same session. */
  method RefreshTokens(db: Db, token: string, meta: Option<RequestMeta>, now: Millis, c: Crypto)
    returns (res: Result<AuthResult>)
    requires db.Valid()
    modifies db`sessions
    ensures db.Valid()
    ensures var outcome := RefreshOutcome(old(db.farmers), old(db.sessions), token, c.verifyRefresh, now);
      && (outcome.Failure? ==> res == Failure(outcome.error) && db.sessions == old(db.sessions))
      && (outcome.Success? ==>
            var p := outcome.value;
            && res == Success(AuthResult(p.sub, p.sessionId, TokensFor(c, p)))
            && db.sessions == old(db.sessions)[p.sessionId := Refreshed(old(db.sessions)[p.sessionId], meta)])
  {
    if token == "" {
      return Failure(MissingToken);
    }
    var check := c.verifyRefresh(token);
    if check.Expired? {
      return Failure(TokenExpired);
    } else if check.Malformed? {
      return Failure(TokenInvalid);
    }
    var payload := check.payload;
    if payload.sessionId !in db.sessions || now >= db.sessions[payload.sessionId].expiresAt
       || !db.sessions[payload.sessionId].isActive {
      return Failure(SessionInactive);
    }
    if payload.sub !in db.farmers {
      return Failure(FarmerGone);
    }
    var newPayload := TokenPayload(payload.sub, payload.sessionId);
    var tokens := Tokens(c.signAccess(newPayload), c.signRefresh(newPayload));
    if meta.Some? {
      var session := db.sessions[payload.sessionId];
      if Truthy(meta.value.userAgent) {
        session := session.(userAgent := meta.value.userAgent.value);
      }
      if Truthy(meta.value.ip) {
        session := session.(ipAddress := meta.value.ip.value);
      }
      db.sessions := db.sessions[payload.sessionId := session];
    }
    res := Success(AuthResult(payload.sub, payload.sessionId, tokens));
  }

  /** A session opened at `start` by registration or login can be refreshed
      exactly until its thirty days are up; from then on the TTL index has
      removed it and every refresh naming it is refused. */
  lemma RefreshWithinThirtyDays(farmers: map<Id, Farmer>, sessions: map<Id, Session>, token: string,
                                verify: string -> TokenCheck, meta: RequestMeta, start: Millis, at: Millis)
    requires token != "" && verify(token).Verified?
    requires verify(token).payload.sub in farmers
    requires sessions == map[verify(token).payload.sessionId := NewSession(verify(token).payload.sub, meta, start)]
    ensures RefreshOutcome(farmers, sessions, token, verify, at).Success? <==> at < start + RefreshLifetimeMs
    ensures at >= start + RefreshLifetimeMs ==>
      RefreshOutcome(farmers, sessions, token, verify, at) == Failure(SessionInactive)
  {
  }

  /** Refreshing keeps a session's owner, expiry and activity; it never
      extends the thirty days fixed when the session was opened. */
  lemma RefreshKeepsExpiry(s: Session, meta: Option<RequestMeta>)
    ensures Refreshed(s, meta).expiresAt == s.expiresAt && Refreshed(s, meta).isActive == s.isActive
  {
  }

  // ---------------------------------------------------------------- logout

  /** A session marked inactive at time `now`. */
  function Revoked(s: Session, now: Millis): (t: Session)
    ensures !t.isActive && t.revokedAt == Some(now)
    ensures t.farmer == s.farmer && t.expiresAt == s.expiresAt
    ensures t.userAgent == s.userAgent && t.ipAddress == s.ipAddress
  {
    s.(isActive := false, revokedAt := Some(now))
  }

  /** `logoutCurrentSession(sessionId)` at time `now`; an unknown session is ignored. */
  method LogoutCurrentSession(db: Db, sessionId: Id, now: Millis)
    requires db.Valid()
    modifies db`sessions
    ensures db.Valid()
    ensures sessionId !in old(db.sessions) ==> db.sessions == old(db.sessions)
    ensures sessionId in old(db.sessions) ==>
      db.sessions == old(db.sessions)[sessionId := Revoked(old(db.sessions)[sessionId], now)]
  {
    if sessionId !in db.sessions {
      return;
    }
    var session := db.sessions[sessionId];
    db.sessions := db.sessions[sessionId := session.(isActive := false, revokedAt := Some(now))];
  }

  /** The session table after `updateMany({ farmer, isActive: true }, …)`:
      every active session of the farmer is revoked at `now`, nothing else changes. */
  function RevokeAllOf(sessions: map<Id, Session>, farmerId: Id, now: Millis): (r: map<Id, Session>)
    ensures r.Keys == sessions.Keys
    ensures forall id :: id in r && r[id].farmer == farmerId ==> !r[id].isActive
    ensures forall id :: id in sessions && sessions[id].farmer == farmerId && sessions[id].isActive ==>
      r[id] == Revoked(sessions[id], now)
    ensures forall id :: id in sessions && (sessions[id].farmer != farmerId || !sessions[id].isActive) ==>
      r[id] == sessions[id]
  {
    map id | id in sessions ::
      if sessions[id].farmer == farmerId && sessions[id].isActive then Revoked(sessions[id], now) else sessions[id]
  }

  /** `logoutAllSessionsForFarmer(farmerId)` at time `now`. */
  method LogoutAllSessionsForFarmer(db: Db, farmerId: Id, now: Millis)
    requires db.Valid()
    modifies db`sessions
    ensures db.Valid()
    ensures db.sessions == RevokeAllOf(old(db.sessions), farmerId, now)
  {
    db.sessions := map id | id in db.sessions ::
      if db.sessions[id].farmer == farmerId && db.sessions[id].isActive
      then db.sessions[id].(isActive := false, revokedAt := Some(now))
      else db.sessions[id];
  }

  /** Logging out everywhere is final for every token the farmer holds: any
      refresh naming one of the farmer's sessions is refused. */
  lemma RefreshAfterLogoutAllFails(farmers: map<Id, Farmer>, sessions: map<Id, Session>, farmerId: Id,
                                   now: Millis, token: string, verify: string -> TokenCheck, later: Millis)
    requires token != "" && verify(token).Verified?
    requires verify(token).payload.sessionId in sessions
    requires sessions[verify(token).payload.sessionId].farmer == farmerId
    ensures RefreshOutcome(farmers, RevokeAllOf(sessions, farmerId, now), token, verify, later) == Failure(SessionInactive)
  {
  }

  /** Logging out one session refuses its refresh tokens and leaves every
      other session as it was. */
  lemma RefreshAfterLogoutFails(farmers: map<Id, Farmer>, sessions: map<Id, Session>, sessionId: Id,
                                now: Millis, token: string, verify: string -> TokenCheck, later: Millis)
    requires sessionId in sessions
    requires token != "" && verify(token).Verified? && verify(token).payload.sessionId == sessionId
    ensures RefreshOutcome(farmers, sessions[sessionId := Revoked(sessions[sessionId], now)], token, verify, later)
      == Failure(SessionInactive)
  {
  }
}
