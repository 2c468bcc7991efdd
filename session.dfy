/** The revocation behaviour that the account handlers give together: a
    successful logout makes every refresh for that account fail, whatever
    requests follow, until a later successful login for it; logout is
    idempotent; and a login makes refresh work again. */
module Session {
  import opened Http
  import opened Text
  import opened Auth

  /** A request to one of the account handlers. */
  datatype Request =
    | RegisterRequest(userName: string, email: string, newId: string, createSucceeds: bool)
    | LoginRequest(userName: string, password: string)
    | RefreshRequest(refreshToken: string)
    | LogoutRequest(authorization: string)

  /** The identity store after one request. No request removes an account. */
  function Apply(d: Directory, ts: TokenService, checkPassword: (string, string) -> bool, req: Request): (d': Directory)
    requires Consistent(d)
    ensures Consistent(d')
    ensures d.byId.Keys <= d'.byId.Keys
  {
    match req
    case RegisterRequest(name, email, id, ok) => Register(d, name, email, id, ok).directory
    case LoginRequest(name, password) => Login(d, ts, checkPassword, name, password).directory
    case RefreshRequest(_) => d
    case LogoutRequest(header) => Logout(d, ts, header).directory
  }

  /** The identity store after a sequence of requests, handled one at a time. */
  function Run(d: Directory, ts: TokenService, checkPassword: (string, string) -> bool, reqs: seq<Request>): (d': Directory)
    requires Consistent(d)
    ensures Consistent(d')
    ensures d.byId.Keys <= d'.byId.Keys
    decreases |reqs|
  {
    if reqs == [] then d else Run(Apply(d, ts, checkPassword, reqs[0]), ts, checkPassword, reqs[1..])
  }

  /** Whether `req` is a login that succeeds for account `u`. */
  predicate LogsIn(d: Directory, ts: TokenService, checkPassword: (string, string) -> bool, req: Request, u: string)
    requires Consistent(d)
  {
    && req.LoginRequest?
    && FindByName(d, req.userName) == Some(u)
    && Login(d, ts, checkPassword, req.userName, req.password).response.Success?
  }

  /** Whether no request of `reqs`, handled from `d` on, logs account `u` in. */
  predicate NoLoginOf(d: Directory, ts: TokenService, checkPassword: (string, string) -> bool, reqs: seq<Request>, u: string)
    requires Consistent(d)
    decreases |reqs|
  {
    reqs == [] ||
    (!LogsIn(d, ts, checkPassword, reqs[0], u) && NoLoginOf(Apply(d, ts, checkPassword, reqs[0]), ts, checkPassword, reqs[1..], u))
  }

  /** A set `ForceRelogin` survives every request except a login of that account. */
  lemma ApplyKeepsRevocation(d: Directory, ts: TokenService, checkPassword: (string, string) -> bool, req: Request, u: string)
    requires Consistent(d) && u in d.byId && d.byId[u].forceRelogin
    requires !LogsIn(d, ts, checkPassword, req, u)
    ensures var d' := Apply(d, ts, checkPassword, req); u in d'.byId && d'.byId[u].forceRelogin
  {
    match req
    case RegisterRequest(name, email, id, ok) =>
    case LoginRequest(name, password) =>
      var s := Login(d, ts, checkPassword, name, password);
      if s.response.Success? {
        assert FindByName(d, name).value != u;
      }
    case RefreshRequest(_) =>
    case LogoutRequest(header) =>
  }

  /** Once `ForceRelogin` is set, it stays set through any requests that do not
      log that account in. */
  lemma {:induction false} RevokedUntilLogin(d: Directory, ts: TokenService, checkPassword: (string, string) -> bool,
                                             reqs: seq<Request>, u: string)
    requires Consistent(d) && u in d.byId && d.byId[u].forceRelogin
    requires NoLoginOf(d, ts, checkPassword, reqs, u)
    ensures var d' := Run(d, ts, checkPassword, reqs); u in d'.byId && d'.byId[u].forceRelogin
    decreases |reqs|
  {
    if reqs != [] {
      ApplyKeepsRevocation(d, ts, checkPassword, reqs[0], u);
      RevokedUntilLogin(Apply(d, ts, checkPassword, reqs[0]), ts, checkPassword, reqs[1..], u);
    }
  }

  /** After a successful logout, any refresh token of that account (issued
      before or after the logout) is refused, whatever requests follow, until
      the account logs in again. */
  lemma RefreshRefusedAfterLogout(d: Directory, ts: TokenService, checkPassword: (string, string) -> bool,
                                  header: string, reqs: seq<Request>, refreshToken: string)
    requires Consistent(d)
    requires Logout(d, ts, header).response.Success?
    requires NoLoginOf(Logout(d, ts, header).directory, ts, checkPassword, reqs, BearerSubject(ts, header).value)
    requires ts.tryParseRefreshToken(refreshToken).Some?
    requires ts.tryParseRefreshToken(refreshToken).value.sub == BearerSubject(ts, header)
    ensures Refresh(Run(Logout(d, ts, header).directory, ts, checkPassword, reqs), ts, refreshToken)
            == Failure(UnprocessableEntity, None)
  {
    RevokedUntilLogin(Logout(d, ts, header).directory, ts, checkPassword, reqs, BearerSubject(ts, header).value);
  }

  /** Logging out twice with the same header is the same as logging out once:
      same answer, same store. */
  lemma LogoutIdempotent(d: Directory, ts: TokenService, header: string)
    requires Consistent(d)
    ensures Logout(Logout(d, ts, header).directory, ts, header) == Logout(d, ts, header)
  {
    var s := Logout(d, ts, header);
    if s.response.Success? {
      var id := BearerSubject(ts, header).value;
      assert s.directory.byId[id := s.directory.byId[id].(forceRelogin := true)] == s.directory.byId;
    }
  }

  /** A successful login makes the account's refresh tokens work again. */
  lemma LoginReenablesRefresh(d: Directory, ts: TokenService, checkPassword: (string, string) -> bool,
                              userName: string, password: string, refreshToken: string)
    requires Consistent(d)
    requires Login(d, ts, checkPassword, userName, password).response.Success?
    requires ts.tryParseRefreshToken(refreshToken).Some?
    requires ts.tryParseRefreshToken(refreshToken).value.sub == FindByName(d, userName)
    ensures Refresh(Login(d, ts, checkPassword, userName, password).directory, ts, refreshToken).Success?
  {
  }

  /** A token service whose refresh tokens parse back to their subject and
      carry no surrounding white space. */
  ghost predicate RefreshTokensRoundTrip(ts: TokenService) {
    forall id :: ts.tryParseRefreshToken(ts.createRefreshToken(id)) == Some(Claims(Some(id)))
                 && IsTrimmed(ts.createRefreshToken(id))
  }

  /** The store holding the one account "alice" of the scenario below. */
  function AliceDirectory(normalize: string -> string, aliceId: string, forceRelogin: bool): Directory {
    Directory(map[aliceId := Account("alice", "alice@example.com", {ForumUser}, forceRelogin)],
              map[normalize("alice") := aliceId], normalize)
  }

  /** Registering "alice" in an empty store creates her account. */
  lemma AliceRegisters(normalize: string -> string, aliceId: string)
    ensures Register(Directory(map[], map[], normalize), "alice", "alice@example.com", aliceId, true)
         == Step(Success(Created, UserDto(aliceId, "alice", "alice@example.com")), AliceDirectory(normalize, aliceId, false))
  {
  }

  /** A wrong password is refused; the right one logs "alice" in and leaves the store as it is. */
  lemma AliceLogsIn(ts: TokenService, checkPassword: (string, string) -> bool, normalize: string -> string, aliceId: string)
    requires checkPassword(aliceId, "pw12345") && !checkPassword(aliceId, "wrongpw")
    ensures var d := AliceDirectory(normalize, aliceId, false);
      && Login(d, ts, checkPassword, "alice", "wrongpw") == Step(Failure(UnprocessableEntity, Some(BadCredentials)), d)
      && Login(d, ts, checkPassword, "alice", "pw12345")
         == Step(Success(Ok, IssueTokens(ts, aliceId, d.byId[aliceId])), d)
  {
    var d := AliceDirectory(normalize, aliceId, false);
    assert d.byId[aliceId := d.byId[aliceId].(forceRelogin := false)] == d.byId;
  }

  /** A refresh token, sent as a bearer header, names its own account. */
  lemma RefreshTokenAsBearer(ts: TokenService, id: string)
    requires RefreshTokensRoundTrip(ts) && id != ""
    ensures BearerSubject(ts, BearerPrefix + ts.createRefreshToken(id)) == Some(id)
  {
    var token := ts.createRefreshToken(id);
    assert IsTrimmed(token) && ts.tryParseRefreshToken(token) == Some(Claims(Some(id)));
    BearerTokenOf(token);
  }

  /** The one-account store is consistent. */
  lemma AliceDirectoryConsistent(normalize: string -> string, aliceId: string, forceRelogin: bool)
    ensures Consistent(AliceDirectory(normalize, aliceId, forceRelogin))
  {
  }

  /** A logout whose bearer header names "alice" sets her `ForceRelogin`. */
  lemma AliceLogsOut(ts: TokenService, normalize: string -> string, aliceId: string, header: string)
    requires BearerSubject(ts, header) == Some(aliceId)
    ensures Logout(AliceDirectory(normalize, aliceId, false), ts, header)
         == Step(Success(Ok, LoggedOut), AliceDirectory(normalize, aliceId, true))
  {
    var d := AliceDirectory(normalize, aliceId, false);
    AliceDirectoryConsistent(normalize, aliceId, false);
    assert d.byId[aliceId := d.byId[aliceId].(forceRelogin := true)] == AliceDirectory(normalize, aliceId, true).byId;
  }

  /** Once her `ForceRelogin` is set, "alice"'s refresh token is refused. */
  lemma AliceRefreshRefused(ts: TokenService, normalize: string -> string, aliceId: string)
    requires RefreshTokensRoundTrip(ts)
    ensures Refresh(AliceDirectory(normalize, aliceId, true), ts, ts.createRefreshToken(aliceId))
         == Failure(UnprocessableEntity, None)
  {
    assert ts.tryParseRefreshToken(ts.createRefreshToken(aliceId)) == Some(Claims(Some(aliceId)));
  }

  /** Register, a failed and a successful login, a logout with the refresh
      token as bearer, and a refresh with that same token: 201, 422, 200, 200
      and 422. */
  lemma RegisterLoginLogoutRefresh(ts: TokenService, checkPassword: (string, string) -> bool,
                                   normalize: string -> string, aliceId: string)
    requires RefreshTokensRoundTrip(ts) && aliceId != ""
    requires checkPassword(aliceId, "pw12345") && !checkPassword(aliceId, "wrongpw")
    ensures
      var s1 := Register(Directory(map[], map[], normalize), "alice", "alice@example.com", aliceId, true);
      var s2 := Login(s1.directory, ts, checkPassword, "alice", "wrongpw");
      var s3 := Login(s2.directory, ts, checkPassword, "alice", "pw12345");
      && s1.response.Success? && s1.response.status == Created
      && s2.response == Failure(UnprocessableEntity, Some(BadCredentials))
      && s3.response.Success? && s3.response.status == Ok
      && var token := s3.response.body.refreshToken;
         var s4 := Logout(s3.directory, ts, BearerPrefix + token);
         && s4.response == Success(Ok, LoggedOut)
         && Refresh(s4.directory, ts, token) == Failure(UnprocessableEntity, None)
  {
    AliceRegisters(normalize, aliceId);
    AliceLogsIn(ts, checkPassword, normalize, aliceId);
    RefreshTokenAsBearer(ts, aliceId);
    AliceLogsOut(ts, normalize, aliceId, BearerPrefix + ts.createRefreshToken(aliceId));
    AliceRefreshRefused(ts, normalize, aliceId);
  }
}
