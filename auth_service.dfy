/** The session rules of `AuthService`: local signup validation, the
    messages shown for failed requests, token expiry, the display name, and
    the user and token keys it keeps in browser storage. The HTTP requests
    themselves are not modelled; where their outcome matters it is a
    parameter. */
module Auth {
  import opened Base
  import opened Text

  /** The storage keys of the user record and of the two tokens. */
  const UserKey := "bjc:user"
  const TokenKey := "bjc:token"
  const RefreshTokenKey := "bjc:refreshToken"

  const PasswordMismatch := "Passwords do not match"
  const PasswordTooShort := "Password must be at least 6 characters"
  const SignupFailed := "Signup failed. Please try again."
  const InvalidData := "Invalid data. Please check your input."
  const EmailTaken := "Email already registered. Please use a different email."
  const LoginFailed := "Login failed. Please try again."
  const InvalidCredentials := "Invalid email or password"
  const CannotConnect := "Cannot connect to server. Please check if the API is running."
  const NoRefreshToken := "No refresh token available"
  const RefreshFailed := "Token refresh failed. Please login again."

  /** A signed-in user. The numeric form of `id` is not distinguished. */
  datatype User = User(
    id: Option<string>,
    email: string,
    firstName: string,
    lastName: string,
    phoneNumber: Option<string>,
    name: Option<string>,
    createdAt: Option<string>)

  /** What the signup form collects. */
  datatype SignupData = SignupData(
    firstName: string,
    lastName: string,
    email: string,
    password: string,
    confirmPassword: string,
    phoneNumber: string)

  /** What signup sends to the server: the form without the confirmation. */
  datatype SignupRequest = SignupRequest(
    email: string,
    password: string,
    firstName: string,
    lastName: string,
    phoneNumber: string)

  /** The local checks `signup` makes before any request: the passwords must
      match, and then be at least 6 UTF-16 code units long. */
  function ValidateSignup(d: SignupData): (r: Result<SignupRequest>)
    ensures r.Ok? <==> d.password == d.confirmPassword && Utf16Length(d.password) >= 6
    ensures d.password != d.confirmPassword ==> r == Err(PasswordMismatch)
    ensures d.password == d.confirmPassword && Utf16Length(d.password) < 6 ==> r == Err(PasswordTooShort)
    ensures r.Ok? ==> r.value == SignupRequest(d.email, d.confirmPassword, d.firstName, d.lastName, d.phoneNumber)
  {
    if d.password != d.confirmPassword then Err(PasswordMismatch)
    else if Utf16Length(d.password) < 6 then Err(PasswordTooShort)
    else Ok(SignupRequest(d.email, d.password, d.firstName, d.lastName, d.phoneNumber))
  }

  /** The body of a failed HTTP response (`error.error`): absent or falsy,
      plain text, or an object with optional `message` and `error` fields. */
  datatype ErrorBody = NoBody | Text(text: string) | Fields(message: Option<string>, error: Option<string>)

  /** What login takes from the body: a non-empty `message`, else a
      non-empty `error`; a plain-text body is not used. */
  function LoginServerMessage(body: ErrorBody): (r: Option<string>)
    ensures r.Some? ==> r.value != ""
    ensures r.Some? <==> body.Fields? && (Truthy(body.message) || Truthy(body.error))
  {
    if body.Fields? then
      if Truthy(body.message) then body.message
      else if Truthy(body.error) then body.error
      else None
    else None
  }

  /** What signup takes from the body: as login, and also a non-empty
      plain-text body. */
  function SignupServerMessage(body: ErrorBody): (r: Option<string>)
    ensures r.Some? ==> r.value != ""
    ensures body.Fields? ==> r == LoginServerMessage(body)
    ensures body.Text? ==> r == (if body.text != "" then Some(body.text) else None)
    ensures body.NoBody? ==> r.None?
  {
    match body
    case NoBody => None
    case Text(t) => if t != "" then Some(t) else None
    case Fields(_, _) => LoginServerMessage(body)
  }

  /** The message a failed login reports for an HTTP status and body. */
  function LoginErrorMessage(status: int, body: ErrorBody): (m: string)
    ensures m != ""
    ensures status == 401 || status == 403 ==> m == InvalidCredentials
    ensures status == 0 ==> m == CannotConnect
    ensures status != 0 && status != 401 && status != 403 ==>
              m == LoginServerMessage(body).GetOr(LoginFailed)
  {
    var message := OrElse(LoginServerMessage(body), LoginFailed);
    if status == 401 || status == 403 then InvalidCredentials
    else if status == 0 then CannotConnect
    else message
  }

  /** The message a failed signup reports, as the code is written: for
      status 400 the fallback applies only to an empty message, but the
      message starts out as the generic one and is never empty. */
  function SignupErrorMessageAsWritten(status: int, body: ErrorBody): (m: string)
    ensures m != ""
  {
    var message := OrElse(SignupServerMessage(body), SignupFailed);
    if status == 400 then (if message != "" then message else InvalidData)
    else if status == 409 then EmailTaken
    else if status == 0 then CannotConnect
    else message
  }

  /** The as-written fallback for status 400 is dead: a 400 without a server
      message reports the generic failure, and the invalid-data text appears
      only when the server itself sent it. */
  lemma SignupInvalidDataUnreachable(body: ErrorBody)
    ensures SignupErrorMessageAsWritten(400, NoBody) == SignupFailed
    ensures SignupErrorMessageAsWritten(400, body) == InvalidData <==> SignupServerMessage(body) == Some(InvalidData)
  {
  }

  /** The message a failed signup reports, with the status-400 fallback in
      effect: a 400 without a server message reports invalid data. */
  function SignupErrorMessage(status: int, body: ErrorBody): (m: string)
    ensures m != ""
    ensures status == 400 ==> m == SignupServerMessage(body).GetOr(InvalidData)
    ensures status == 409 ==> m == EmailTaken
    ensures status == 0 ==> m == CannotConnect
    ensures status != 0 && status != 400 && status != 409 ==>
              m == SignupServerMessage(body).GetOr(SignupFailed)
  {
    var server := SignupServerMessage(body);
    if status == 400 then OrElse(server, InvalidData)
    else if status == 409 then EmailTaken
    else if status == 0 then CannotConnect
    else OrElse(server, SignupFailed)
  }

  /** The corrected mapping differs from the written one only for a 400
      that carries no server message. */
  lemma SignupMessagesAgree(status: int, body: ErrorBody)
    ensures SignupErrorMessage(status, body) != SignupErrorMessageAsWritten(status, body)
        <==> status == 400 && SignupServerMessage(body).None?
  {
  }

  /** The claims of a JWT payload that matter here: `exp` in seconds, a
      JSON number that may have a fraction, as the number JavaScript's
      arithmetic converts it to (`null` becomes 0, `true` becomes 1). It is
      absent when the payload has none or it converts to `NaN` (a
      non-numeric string, an object), which behaves like a missing `exp`.
      Values too large for a double are not modelled. */
  datatype Claims = Claims(exp: Option<real>)

  /** The tokens a successful refresh response may carry. */
  datatype AuthResponse = AuthResponse(
    accessToken: Option<string>,
    refreshToken: Option<string>,
    tokenType: Option<string>,
    expiresIn: Option<int>,
    token: Option<string>)

  /** What a successful refresh reports. */
  datatype Refreshed = Refreshed(
    user: Option<User>,
    accessToken: Option<string>,
    refreshToken: string,
    tokenType: string,
    expiresIn: Option<int>)

  /** `response.refreshToken || refreshToken`: the refresh token held after
      a refresh that returned `issued`, given the one `held` before. */
  function KeptRefreshToken(held: string, issued: Option<string>): (r: string)
    requires held != ""
    ensures r != ""
    ensures r == held || Some(r) == issued
    ensures r != held <==> Truthy(issued) && issued.value != held
  {
    OrElse(issued, held)
  }

  /** `storage` after `setItem(key, v)` guarded by `if (v)`. */
  function Written(storage: map<string, string>, key: string, v: Option<string>): (r: map<string, string>)
    ensures forall k :: Lookup(r, k) == if k == key && Truthy(v) then v else Lookup(storage, k)
  {
    if Truthy(v) then storage[key := v.value] else storage
  }

  /** The service: the current user and the storage it shares with the rest
      of the application. */
  class AuthService {
    /** False when rendering on the server, where storage is never touched. */
    const isBrowser: bool
    /** `JSON.stringify` / `JSON.parse` for the user record. */
    const userCodec: Codec<User>
    var storage: map<string, string>
    var currentUser: Option<User>

    /** The service as constructed, after `loadUser`: in the browser, the
        stored user if the stored text is non-empty and parses; otherwise no
        user. Storage is only read. */
    constructor (isBrowser: bool, storage: map<string, string>, userCodec: Codec<User>)
      ensures this.isBrowser == isBrowser && this.userCodec == userCodec && this.storage == storage
      ensures currentUser == if isBrowser && Truthy(Lookup(storage, UserKey))
                             then userCodec.decode(storage[UserKey]) else None
    {
      this.isBrowser := isBrowser;
      this.userCodec := userCodec;
      this.storage := storage;
      currentUser := None;
      new;
      if isBrowser {
        var raw := Lookup(this.storage, UserKey);
        if Truthy(raw) {
          currentUser := userCodec.decode(raw.value);
        }
      }
    }

    /** `getToken`: the stored access token; never any on the server. */
    function GetToken(): (r: Option<string>)
      reads this
      ensures r.Some? <==> isBrowser && TokenKey in storage
      ensures r.Some? ==> r.value == storage[TokenKey]
    {
      if !isBrowser then None else Lookup(storage, TokenKey)
    }

    /** `getRefreshToken`: the stored refresh token; never any on the server. */
    function GetRefreshToken(): (r: Option<string>)
      reads this
      ensures r.Some? <==> isBrowser && RefreshTokenKey in storage
      ensures r.Some? ==> r.value == storage[RefreshTokenKey]
    {
      if !isBrowser then None else Lookup(storage, RefreshTokenKey)
    }

    /** `isAuthenticated`: a user is set and a token is stored, even an
        empty one; never on the server. */
    function IsAuthenticated(): (r: bool)
      reads this
      ensures r <==> isBrowser && currentUser.Some? && TokenKey in storage
    {
      currentUser.Some? && GetToken().Some?
    }

    /** `saveUser`: in the browser, stores the user, stores each token that
        is given non-empty (keeping the previous one otherwise), and sets
        the current user; on the server it does nothing. */
    method SaveUser(user: User, accessToken: Option<string>, refreshToken: Option<string>)
      modifies this`storage, this`currentUser
      ensures !isBrowser ==> storage == old(storage) && currentUser == old(currentUser)
      ensures isBrowser ==> currentUser == Some(user)
      ensures isBrowser ==> storage == Written(Written(old(storage)[UserKey := userCodec.encode(user)],
                                                       TokenKey, accessToken), RefreshTokenKey, refreshToken)
      ensures isBrowser ==> Lookup(storage, UserKey) == Some(userCodec.encode(user))
      ensures isBrowser ==> Lookup(storage, TokenKey) == (if Truthy(accessToken) then accessToken else Lookup(old(storage), TokenKey))
      ensures isBrowser ==> Lookup(storage, RefreshTokenKey) ==
                            (if Truthy(refreshToken) then refreshToken else Lookup(old(storage), RefreshTokenKey))
      ensures isBrowser && Truthy(accessToken) ==> IsAuthenticated()
    {
      if !isBrowser {
        return;
      }
      storage := storage[UserKey := userCodec.encode(user)];
      if Truthy(accessToken) {
        storage := storage[TokenKey := accessToken.value];
      }
      if Truthy(refreshToken) {
        storage := storage[RefreshTokenKey := refreshToken.value];
      }
      currentUser := Some(user);
    }

    /** `logout`: in the browser, removes the user and both tokens and
        clears the current user; on the server it does nothing. */
    method Logout()
      modifies this`storage, this`currentUser
      ensures !isBrowser ==> storage == old(storage) && currentUser == old(currentUser)
      ensures isBrowser ==> storage == old(storage) - {UserKey, TokenKey, RefreshTokenKey} && currentUser == None
      ensures !IsAuthenticated()
      ensures isBrowser ==> GetToken() == None && GetRefreshToken() == None
    {
      if !isBrowser {
        return;
      }
      storage := storage - {UserKey};
      storage := storage - {TokenKey};
      storage := storage - {RefreshTokenKey};
      assert storage == old(storage) - {UserKey, TokenKey, RefreshTokenKey};
      currentUser := None;
    }

    /** `refreshToken`, with the outcome of the request as a parameter
        (`None` when it failed). Without a stored refresh token it fails
        at once and changes nothing; a failed request logs out; a
        successful one stores the access token if one came back and keeps
        the old refresh token unless a different one came back. */
    method RefreshToken(response: Option<AuthResponse>) returns (r: Result<Refreshed>)
      modifies this`storage, this`currentUser
      ensures !Truthy(old(GetRefreshToken())) ==>
                r == Err(NoRefreshToken) && storage == old(storage) && currentUser == old(currentUser)
      ensures Truthy(old(GetRefreshToken())) && response.None? ==>
                && r == Err(RefreshFailed)
                && storage == old(storage) - {UserKey, TokenKey, RefreshTokenKey}
                && currentUser == None
      ensures Truthy(old(GetRefreshToken())) && response.Some? ==>
                var held := old(GetRefreshToken()).value;
                var access := Or(response.value.accessToken, response.value.token);
                var kept := KeptRefreshToken(held, response.value.refreshToken);
                && currentUser == old(currentUser)
                && storage == Written(old(storage), TokenKey, access)[RefreshTokenKey := kept]
                && Lookup(storage, TokenKey) == (if Truthy(access) then access else Lookup(old(storage), TokenKey))
                && GetRefreshToken() == Some(kept)
                && r == Ok(Refreshed(currentUser, access, kept, OrElse(response.value.tokenType, "Bearer"),
                                     response.value.expiresIn))
    {
      var held := GetRefreshToken();
      if !Truthy(held) {
        return Err(NoRefreshToken);
      }
      if response.None? {
        Logout();
        return Err(RefreshFailed);
      }
      var access := Or(response.value.accessToken, response.value.token);
      var kept := KeptRefreshToken(held.value, response.value.refreshToken);
      if Truthy(access) {
        storage := storage[TokenKey := access.value];
      }
      if kept != "" && kept != held.value {
        storage := storage[RefreshTokenKey := kept];
      }
      assert storage == Written(old(storage), TokenKey, access)[RefreshTokenKey := kept];
      r := Ok(Refreshed(currentUser, access, kept, OrElse(response.value.tokenType, "Bearer"), response.value.expiresIn));
    }

    /** `isTokenExpired` at time `nowMs`, with the JWT payload decoding as a
        parameter: expired without a non-empty token or with one that does
        not decode; not expired when the payload has no numeric `exp`
        (the comparison with `NaN` is false); otherwise expired from five
        minutes before `exp` on. */
    function IsTokenExpired(decode: string -> Option<Claims>, nowMs: int): (r: bool)
      reads this
      ensures !Truthy(GetToken()) ==> r
      ensures Truthy(GetToken()) && decode(GetToken().value).None? ==> r
      ensures Truthy(GetToken()) && decode(GetToken().value) == Some(Claims(None)) ==> !r
      ensures Truthy(GetToken()) && decode(GetToken().value).Some? && decode(GetToken().value).value.exp.Some? ==>
                (r <==> nowMs as real >= decode(GetToken().value).value.exp.value * 1000.0 - 300000.0)
    {
      var token := GetToken();
      if !Truthy(token) then true
      else match decode(token.value)
        case None => true
        case Some(claims) =>
          match claims.exp
          case None => false
          case Some(exp) => nowMs as real >= exp * 1000.0 - (5 * 60 * 1000) as real
    }

    /** `getUserDisplayName`: never empty; the name, else first and last
        name, else the first name, the email, or "User". */
    function GetUserDisplayName(): (r: string)
      reads this
      ensures r != ""
      ensures currentUser.None? ==> r == "User"
      ensures currentUser.Some? && Truthy(currentUser.value.name) ==> r == currentUser.value.name.value
      ensures currentUser.Some? && !Truthy(currentUser.value.name) ==>
                var u := currentUser.value;
                r == if u.firstName != "" && u.lastName != "" then u.firstName + " " + u.lastName
                     else if u.firstName != "" then u.firstName
                     else if u.email != "" then u.email
                     else "User"
    {
      match currentUser
      case None => "User"
      case Some(user) =>
        if Truthy(user.name) then user.name.value
        else if user.firstName != "" && user.lastName != "" then user.firstName + " " + user.lastName
        else OrElse(Or(Some(user.firstName), Some(user.email)), "User")
    }
  }

  /** Once a token counts as expired it stays expired as time passes. */
  lemma ExpiryMonotone(a: AuthService, decode: string -> Option<Claims>, earlier: int, later: int)
    requires earlier <= later
    requires a.IsTokenExpired(decode, earlier)
    ensures a.IsTokenExpired(decode, later)
  {
  }

  /** A token whose `exp` falls on a whole millisecond `expMs` (a whole
      second, or a fraction with at most three decimals) counts as expired
      from exactly five minutes before `expMs` on, and not a millisecond
      earlier. */
  lemma ExpiryMargin(a: AuthService, decode: string -> Option<Claims>, expMs: int)
    requires Truthy(a.GetToken()) && decode(a.GetToken().value) == Some(Claims(Some(expMs as real / 1000.0)))
    ensures a.IsTokenExpired(decode, expMs - 300000)
    ensures !a.IsTokenExpired(decode, expMs - 300001)
  {
  }

  /** A fractional `exp` is honoured: 1700000000.5 seconds expires at
      millisecond 1699999700500, half a second after a whole-second
      1700000000 would. */
  lemma FractionalExpiry(a: AuthService, decode: string -> Option<Claims>)
    requires Truthy(a.GetToken()) && decode(a.GetToken().value) == Some(Claims(Some(1700000000.5)))
    ensures a.IsTokenExpired(decode, 1699999700500)
    ensures !a.IsTokenExpired(decode, 1699999700499)
  {
  }
}
