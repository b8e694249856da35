/** The login form: it posts the credentials and, when the server accepts
    them, stores the tokens, remembers or forgets the e-mail, and moves on
    to the main page. */
module Login {
  import opened Browser

  const REFRESH_TOKEN_KEY: string := "refreshToken"
  const SAVED_EMAIL_KEY: string := "savedEmail"
  const MAIN_PATH: string := "/main"

  const SUCCESS_MESSAGE: string := "로그인 성공!"
  const FAILURE_MESSAGE: string := "로그인 실패"
  const UNREACHABLE_MESSAGE: string := "서버와 연결할 수 없습니다."

  /** Body of `POST /api/auth/login`. */
  datatype LoginRequest = LoginRequest(id: string, password: string)

  /** The decoded reply of the login endpoint. */
  datatype LoginResponse = LoginResponse(status: int, accessToken: Option<string>, refreshToken: Option<string>, message: Option<string>)

  /** A login succeeds on status 200 with an access token. */
  predicate Succeeds(r: LoginResponse)
  {
    r.status == 200 && Truthy(r.accessToken)
  }

  /** Storage after a successful login: both tokens written (a missing
      refresh token as ""), the e-mail saved exactly when "remember me" is
      ticked, and every other key as it was. */
  function StorageAfterLogin(items: map<string, string>, email: string, remember: bool, r: LoginResponse): (m: map<string, string>)
    requires Succeeds(r)
    ensures ACCESS_TOKEN_KEY in m && m[ACCESS_TOKEN_KEY] == r.accessToken.value
    ensures REFRESH_TOKEN_KEY in m
    ensures Truthy(r.refreshToken) ==> m[REFRESH_TOKEN_KEY] == r.refreshToken.value
    ensures !Truthy(r.refreshToken) ==> m[REFRESH_TOKEN_KEY] == ""
    ensures SAVED_EMAIL_KEY in m <==> remember
    ensures remember ==> m[SAVED_EMAIL_KEY] == email
    ensures forall k :: k != ACCESS_TOKEN_KEY && k != REFRESH_TOKEN_KEY && k != SAVED_EMAIL_KEY ==>
      (k in m <==> k in items) && (k in items ==> m[k] == items[k])
  {
    var tokens := items[ACCESS_TOKEN_KEY := r.accessToken.value][REFRESH_TOKEN_KEY := OrElse(r.refreshToken, "")];
    if remember then tokens[SAVED_EMAIL_KEY := email] else tokens - {SAVED_EMAIL_KEY}
  }

  class LoginPage {
    var email: string
    var password: string
    var remember: bool

    constructor ()
      ensures email == "" && password == "" && !remember
    {
      email, password, remember := "", "", false;
    }

    /** The form's inputs and the "remember me" box. */
    method Fill(email: string, password: string, remember: bool)
      modifies this
      ensures this.email == email && this.password == password && this.remember == remember
    {
      this.email, this.password, this.remember := email, password, remember;
    }

    /** `handleLogin`, with `reply` what the login endpoint answers. */
    method HandleLogin(storage: LocalStorage, reply: FetchOutcome<LoginResponse>)
      returns (request: LoginRequest, effects: seq<Effect>)
      modifies storage
      ensures request == LoginRequest(email, password)
      ensures reply.Fetched? && Succeeds(reply.data) ==>
        storage.items == StorageAfterLogin(old(storage.items), email, remember, reply.data) &&
        effects == [Alert(SUCCESS_MESSAGE), Navigate(MAIN_PATH)]
      ensures reply.Fetched? && !Succeeds(reply.data) ==>
        storage.items == old(storage.items) && effects == [Alert(OrElse(reply.data.message, FAILURE_MESSAGE))]
      ensures reply.FetchFailed? ==>
        storage.items == old(storage.items) && effects == [Alert(UNREACHABLE_MESSAGE)]
    {
      request := LoginRequest(email, password);
      match reply {
        case FetchFailed =>
          effects := [Alert(UNREACHABLE_MESSAGE)];
        case Fetched(data) =>
          if Succeeds(data) {
            effects := [Alert(SUCCESS_MESSAGE)];
            storage.SetItem(ACCESS_TOKEN_KEY, data.accessToken.value);
            storage.SetItem(REFRESH_TOKEN_KEY, OrElse(data.refreshToken, ""));
            if remember {
              storage.SetItem(SAVED_EMAIL_KEY, email);
            } else {
              storage.RemoveItem(SAVED_EMAIL_KEY);
            }
            effects := effects + [Navigate(MAIN_PATH)];
          } else {
            effects := [Alert(OrElse(data.message, FAILURE_MESSAGE))];
          }
      }
    }
  }
}
