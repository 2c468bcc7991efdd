/** The account handlers of `AuthEndpoints`: register, login, refresh
    (`api/accessToken`) and logout, over an identity store whose accounts carry
    the `ForceRelogin` flag that logout sets and login clears. Each handler is
    a function from the store to its answer and the new store; `AccountStore`
    performs the same updates in place. */
module Auth {
  import opened Http
  import opened Text

  /** `ForumRestUser`, as far as the handlers read and write it. */
  datatype Account = Account(userName: string, email: string, roles: set<string>, forceRelogin: bool)

  /** The identity store: accounts by id, and the store's unique index from
      normalised user name to account id. `normalize` is the store's user-name
      normaliser (`ILookupNormalizer`, upper-invariant by default), whose
      implementation is not part of this model. */
  datatype Directory = Directory(byId: map<string, Account>, byName: map<string, string>, normalize: string -> string)

  /** The index names exactly the accounts, each under its own normalised
      user name; so normalised user names are unique. */
  ghost predicate Consistent(d: Directory) {
    && (forall n :: n in d.byName ==> d.byName[n] in d.byId && d.normalize(d.byId[d.byName[n]].userName) == n)
    && (forall id :: id in d.byId ==>
          d.normalize(d.byId[id].userName) in d.byName && d.byName[d.normalize(d.byId[id].userName)] == id)
  }

  /** `FindByNameAsync`: the id of the account whose user name normalises as
      `name` does, if any. */
  function FindByName(d: Directory, name: string): (r: Option<string>)
    requires Consistent(d)
    ensures r.Some? ==> r.value in d.byId && d.normalize(d.byId[r.value].userName) == d.normalize(name)
    ensures r.None? ==> forall id :: id in d.byId ==> d.normalize(d.byId[id].userName) != d.normalize(name)
  {
    if d.normalize(name) in d.byName then Some(d.byName[d.normalize(name)]) else None
  }

  /** The claims of a parsed refresh token; `sub` may be missing. */
  datatype Claims = Claims(sub: Option<string>)

  /** `JwtTokenService`, whose implementation is not part of this model: it
      mints an access token for (user name, id, roles) and a refresh token for
      an id, and parses a refresh token into its claims or fails. */
  datatype TokenService = TokenService(
    createAccessToken: (string, string, set<string>) -> string,
    createRefreshToken: string -> string,
    tryParseRefreshToken: string -> Option<Claims>)

  datatype UserDto = UserDto(userId: string, userName: string, email: string)
  datatype LoginTokens = LoginTokens(accessToken: string, refreshToken: string)

  /** The access and refresh token pair issued to account `id`. */
  function IssueTokens(ts: TokenService, id: string, a: Account): LoginTokens {
    LoginTokens(ts.createAccessToken(a.userName, id, a.roles), ts.createRefreshToken(id))
  }

  /** A handler's answer together with the identity store after it. */
  datatype Step<+T> = Step(response: Response<T>, directory: Directory)

  const UserNameTaken: string := "User name already taken."
  const BadCredentials: string := "Username or password was incorrect."
  const InvalidToken: string := "Invalid token"
  const LoggedOut: string := "Logged out successfully."
  const BearerPrefix: string := "Bearer "

  /** `api/register`. A taken user name is refused with its message; otherwise
      the identity store creates the account (`createSucceeds` is its verdict
      on the password and name, and an id already in use cannot be created),
      and the new account gets the ForumUser role. */
  function Register(d: Directory, userName: string, email: string, newId: string, createSucceeds: bool): (s: Step<UserDto>)
    requires Consistent(d)
    ensures Consistent(s.directory) && s.directory.normalize == d.normalize
    ensures FindByName(d, userName).Some? ==> s == Step(Failure(UnprocessableEntity, Some(UserNameTaken)), d)
    ensures s.response.Success? <==> FindByName(d, userName).None? && createSucceeds && newId !in d.byId
    ensures s.response.Success? ==>
      && s.response == Success(Created, UserDto(newId, userName, email))
      && s.directory.byId == d.byId[newId := Account(userName, email, {ForumUser}, false)]
      && FindByName(s.directory, userName) == Some(newId)
    ensures s.response.Failure? ==> s.directory == d && s.response.status == UnprocessableEntity
  {
    if d.normalize(userName) in d.byName then
      Step(Failure(UnprocessableEntity, Some(UserNameTaken)), d)
    else if !createSucceeds || newId in d.byId then
      Step(Failure(UnprocessableEntity, None), d)
    else
      var account := Account(userName, email, {ForumUser}, false);
      Step(Success(Created, UserDto(newId, userName, email)),
           d.(byId := d.byId[newId := account], byName := d.byName[d.normalize(userName) := newId]))
  }

  /** `api/login`. An unknown user name and a wrong password get the same
      answer and change nothing; a successful login clears the account's
      `ForceRelogin` and issues a token pair for it. */
  function Login(d: Directory, ts: TokenService, checkPassword: (string, string) -> bool,
                 userName: string, password: string): (s: Step<LoginTokens>)
    requires Consistent(d)
    ensures Consistent(s.directory) && s.directory.byName == d.byName && s.directory.byId.Keys == d.byId.Keys
    ensures s.directory.normalize == d.normalize
    ensures s.response.Success? <==>
      FindByName(d, userName).Some? && checkPassword(FindByName(d, userName).value, password)
    ensures s.response.Failure? ==> s == Step(Failure(UnprocessableEntity, Some(BadCredentials)), d)
    ensures s.response.Success? ==>
      var id := FindByName(d, userName).value;
      && s.directory.byId == d.byId[id := d.byId[id].(forceRelogin := false)]
      && s.response == Success(Ok, IssueTokens(ts, id, d.byId[id]))
  {
    if d.normalize(userName) !in d.byName || !checkPassword(d.byName[d.normalize(userName)], password) then
      Step(Failure(UnprocessableEntity, Some(BadCredentials)), d)
    else
      var id := d.byName[d.normalize(userName)];
      var user := d.byId[id].(forceRelogin := false);
      Step(Success(Ok, IssueTokens(ts, id, user)), d.(byId := d.byId[id := user]))
  }

  /** Login looks the account up by normalised name: two user names that
      normalise alike log in, or fail, the same way. */
  lemma LoginIgnoresNameVariant(d: Directory, ts: TokenService, checkPassword: (string, string) -> bool,
                                userName: string, variant: string, password: string)
    requires Consistent(d) && d.normalize(userName) == d.normalize(variant)
    ensures Login(d, ts, checkPassword, userName, password) == Login(d, ts, checkPassword, variant, password)
  {
  }

  /** Register refuses a user name that normalises as a stored account's does. */
  lemma RegisterRefusesNameVariant(d: Directory, id: string, userName: string, email: string,
                                   newId: string, createSucceeds: bool)
    requires Consistent(d) && id in d.byId && d.normalize(d.byId[id].userName) == d.normalize(userName)
    ensures Register(d, userName, email, newId, createSucceeds) == Step(Failure(UnprocessableEntity, Some(UserNameTaken)), d)
  {
  }

  /** `api/accessToken`. It only reads the store: a token that does not parse,
      a subject with no account, and an account that must log in again are
      all refused with 422; otherwise a new pair is issued. */
  function Refresh(d: Directory, ts: TokenService, refreshToken: string): (r: Response<LoginTokens>)
    ensures r.Success? <==>
      && ts.tryParseRefreshToken(refreshToken).Some?
      && ts.tryParseRefreshToken(refreshToken).value.sub.Some?
      && ts.tryParseRefreshToken(refreshToken).value.sub.value in d.byId
      && !d.byId[ts.tryParseRefreshToken(refreshToken).value.sub.value].forceRelogin
    ensures r.Success? ==>
      var id := ts.tryParseRefreshToken(refreshToken).value.sub.value;
      r == Success(Ok, IssueTokens(ts, id, d.byId[id]))
    ensures r.Failure? ==> r.status == UnprocessableEntity
    ensures r == Failure(UnprocessableEntity, Some(InvalidToken)) <==>
      && ts.tryParseRefreshToken(refreshToken).Some?
      && var sub := ts.tryParseRefreshToken(refreshToken).value.sub;
         sub.None? || sub.value !in d.byId
  {
    match ts.tryParseRefreshToken(refreshToken)
    case None => Failure(UnprocessableEntity, None)
    case Some(claims) =>
      if claims.sub.None? || claims.sub.value !in d.byId then
        Failure(UnprocessableEntity, Some(InvalidToken))
      else if d.byId[claims.sub.value].forceRelogin then
        Failure(UnprocessableEntity, None)
      else
        Success(Ok, IssueTokens(ts, claims.sub.value, d.byId[claims.sub.value]))
  }

  /** The token of an `Authorization: Bearer <token>` header (section 2.1 of
      RFC 6750): the trimmed rest after the exact prefix "Bearer ", or nothing
      when the header is empty or does not start with that prefix. */
  function BearerToken(header: string): (r: Option<string>)
    ensures r.Some? <==> BearerPrefix <= header
    ensures r.Some? ==> IsTrimmed(r.value) && |r.value| <= |header| - |BearerPrefix|
  {
    if header == [] || !(BearerPrefix <= header) then None
    else Some(Trim(header[|BearerPrefix|..]))
  }

  /** `BearerToken` reads back the token of a header built from it, whatever
      white space surrounds the token. */
  lemma BearerTokenRoundTrip(lead: string, token: string, trail: string)
    requires AllWhiteSpace(lead) && AllWhiteSpace(trail) && IsTrimmed(token)
    ensures BearerToken(BearerPrefix + lead + token + trail) == Some(token)
  {
    var header := BearerPrefix + lead + token + trail;
    assert header[|BearerPrefix|..] == lead + token + trail;
    TrimPadding(lead, token, trail);
  }

  /** A bearer header without padding carries exactly its token. */
  lemma BearerTokenOf(token: string)
    requires IsTrimmed(token)
    ensures BearerToken(BearerPrefix + token) == Some(token)
  {
    assert (BearerPrefix + token)[|BearerPrefix|..] == token;
    assert Trim(token) == token;
  }

  /** The subject (`sub`, section 4.1.2 of RFC 7519) that a logout header
      names: present only when the header carries a bearer token that parses
      as a refresh token with a non-empty `sub`. */
  function BearerSubject(ts: TokenService, header: string): (r: Option<string>)
    ensures r.Some? <==>
      && BearerToken(header).Some?
      && ts.tryParseRefreshToken(BearerToken(header).value).Some?
      && ts.tryParseRefreshToken(BearerToken(header).value).value.sub.Some?
      && ts.tryParseRefreshToken(BearerToken(header).value).value.sub.value != ""
    ensures r.Some? ==> ts.tryParseRefreshToken(BearerToken(header).value).value.sub == r
  {
    match BearerToken(header)
    case None => None
    case Some(token) =>
      match ts.tryParseRefreshToken(token)
      case None => None
      case Some(claims) =>
        if claims.sub.None? || claims.sub.value == "" then None else claims.sub
  }

  /** `api/logout`. Every failure is a bare 401 that changes nothing; success
      sets `ForceRelogin` on the subject's account and on no other. */
  function Logout(d: Directory, ts: TokenService, header: string): (s: Step<string>)
    requires Consistent(d)
    ensures Consistent(s.directory) && s.directory.byName == d.byName && s.directory.byId.Keys == d.byId.Keys
    ensures s.directory.normalize == d.normalize
    ensures s.response.Success? <==> BearerSubject(ts, header).Some? && BearerSubject(ts, header).value in d.byId
    ensures s.response.Failure? ==> s == Step(Failure(Unauthorized, None), d)
    ensures s.response.Success? ==>
      var id := BearerSubject(ts, header).value;
      && s.response == Success(Ok, LoggedOut)
      && s.directory.byId == d.byId[id := d.byId[id].(forceRelogin := true)]
  {
    var sub := BearerSubject(ts, header);
    if sub.None? || sub.value !in d.byId then
      Step(Failure(Unauthorized, None), d)
    else
      var user := d.byId[sub.value].(forceRelogin := true);
      Step(Success(Ok, LoggedOut), d.(byId := d.byId[sub.value := user]))
  }

  /** The identity store as the handlers see it through `UserManager`; the
      handlers' updates (`CreateAsync`, `AddToRoleAsync`, `UpdateAsync`) are
      made here in place. */
  class AccountStore {
    var byId: map<string, Account>
    var byName: map<string, string>
    const normalize: string -> string

    function Snapshot(): Directory
      reads this
    {
      Directory(byId, byName, normalize)
    }

    ghost predicate Valid()
      reads this
    {
      Consistent(Snapshot())
    }

    constructor (normalize: string -> string)
      ensures Valid() && byId == map[] && byName == map[] && this.normalize == normalize
    {
      byId := map[];
      byName := map[];
      this.normalize := normalize;
    }

    method PostRegister(userName: string, email: string, newId: string, createSucceeds: bool)
      returns (r: Response<UserDto>)
      requires Valid()
      modifies this
      ensures Valid()
      ensures Step(r, Snapshot()) == Register(old(Snapshot()), userName, email, newId, createSucceeds)
    {
      if normalize(userName) in byName {
        return Failure(UnprocessableEntity, Some(UserNameTaken));
      }
      if !createSucceeds || newId in byId {
        return Failure(UnprocessableEntity, None);
      }
      var newUser := Account(userName, email, {}, false);
      byId := byId[newId := newUser];
      byName := byName[normalize(userName) := newId];
      newUser := newUser.(roles := newUser.roles + {ForumUser});
      byId := byId[newId := newUser];
      assert newUser == Account(userName, email, {ForumUser}, false);
      r := Success(Created, UserDto(newId, userName, email));
    }

    method PostLogin(ts: TokenService, checkPassword: (string, string) -> bool, userName: string, password: string)
      returns (r: Response<LoginTokens>)
      requires Valid()
      modifies this
      ensures Valid()
      ensures Step(r, Snapshot()) == Login(old(Snapshot()), ts, checkPassword, userName, password)
    {
      if normalize(userName) !in byName {
        return Failure(UnprocessableEntity, Some(BadCredentials));
      }
      var id := byName[normalize(userName)];
      if !checkPassword(id, password) {
        return Failure(UnprocessableEntity, Some(BadCredentials));
      }
      byId := byId[id := byId[id].(forceRelogin := false)];
      r := Success(Ok, IssueTokens(ts, id, byId[id]));
    }

    method PostLogout(ts: TokenService, header: string) returns (r: Response<string>)
      requires Valid()
      modifies this
      ensures Valid()
      ensures Step(r, Snapshot()) == Logout(old(Snapshot()), ts, header)
    {
      var token := BearerToken(header);
      if token.None? {
        return Failure(Unauthorized, None);
      }
      var claims := ts.tryParseRefreshToken(token.value);
      if claims.None? {
        return Failure(Unauthorized, None);
      }
      var userId := claims.value.sub;
      if userId.None? || userId.value == "" {
        return Failure(Unauthorized, None);
      }
      if userId.value !in byId {
        return Failure(Unauthorized, None);
      }
      byId := byId[userId.value := byId[userId.value].(forceRelogin := true)];
      r := Success(Ok, LoggedOut);
    }
  }
}
