/** The authentication screen (`src/App.tsx`). Its state is the signed-in
    user `me` and the error text shown under the forms; the token lives in the
    shared `TokenStore`. On start it probes `/api/auth/me` when a token is
    held; login stores the returned token and then fetches `me`; register
    creates the account and then logs in; logout forgets the token and the user. */
module App {
  import opened Wrappers
  import opened JsValues
  import opened Auth

  const LoginPath := "/api/auth/login"
  const RegisterPath := "/api/auth/register"
  const MePath := "/api/auth/me"
  const LoginFallback := "Login failed"
  const RegisterFallback := "Register failed"

  /** `getErrorMessage(err, fallback)`: the text to show for a caught value.
      `None` stands for the `undefined` that `JSON.stringify` returns for some
      values. */
  function GetErrorMessage(err: Thrown, fallback: string): (r: Option<string>)
    // an Error shows its message and a string shows itself, whatever the fallback
    ensures err.ErrorObject? ==> r == Some(err.message)
    ensures err.StringValue? ==> r == Some(err.s)
    // any other value shows its JSON text
    ensures err.OtherValue? && err.stringified.Text? ==> r == Some(err.stringified.s)
    // the fallback appears only when stringifying throws
    ensures err.OtherValue? && err.stringified.Throws? ==> r == Some(fallback)
    // the only way to get no text at all
    ensures r.None? <==> err == OtherValue(NoText)
  {
    match err
    case ErrorObject(message) => Some(message)
    case StringValue(s) => Some(s)
    case OtherValue(stringified) =>
      match stringified
      case Text(s) => Some(s)
      case NoText => None
      case Throws => Some(fallback)
  }

  /** The body of the login request: `JSON.stringify({ email, password })`. */
  function Credentials(email: string, password: string): Json {
    JObj(map["email" := JStr(email), "password" := JStr(password)])
  }

  function LoginRequest(slot: Option<string>, email: string, password: string): Request {
    Request(LoginPath, Some("POST"), JsonText(Credentials(email, password)), OutgoingHeaders(slot, map[]))
  }

  /** The body of the register request: `JSON.stringify({ email, password, nickname })`. */
  function RegisterBody(email: string, password: string, nickname: string): Json {
    JObj(map["email" := JStr(email), "password" := JStr(password), "nickname" := JStr(nickname)])
  }

  function RegisterRequest(slot: Option<string>, email: string, password: string, nickname: string): Request {
    Request(RegisterPath, Some("POST"), JsonText(RegisterBody(email, password, nickname)), OutgoingHeaders(slot, map[]))
  }

  function MeRequest(slot: Option<string>): Request {
    Request(MePath, None, NoBody, OutgoingHeaders(slot, map[]))
  }

  /** What `handleLogin` does, from the token `slot0` and user `me0` it starts
      with to the token `slot`, user `me` and error `error` it leaves, having
      sent `sent`.
      - The login request goes first, carrying whatever token was held.
      - If it fails, nothing else is sent, token and user stay, and the error
        is the failure's message.
      - If the reply is empty or `null`, destructuring it throws a `TypeError`:
        same as a failure, with the engine's message for reading
        `accessToken` of that reply.
      - Otherwise `accessToken` is converted to text by `localStorage.setItem`.
        If that throws (an object with its own `toString` key), nothing is
        stored or sent and the error is that `TypeError`'s message.
      - Otherwise the text (`"undefined"` for a missing token) is stored
        before `/api/auth/me` is called, and that call carries it. The token
        stays stored whatever `/me` answers; on success `me` is its reply and
        the error is empty, on failure `me` is kept and the error is the
        failure's message. */
  ghost predicate LoginEffect(slot0: Option<string>, me0: Option<Json>,
                              slot: Option<string>, me: Option<Json>, error: string,
                              sent: seq<Request>, email: string, password: string, host: Host)
  {
    var login := LoginRequest(slot0, email, password);
    |sent| >= 1 && sent[0] == login &&
    match Settle(host.server(login), host)
    case Rejected(m) =>
      sent == [login] && slot == slot0 && me == me0 && error == m
    case Resolved(reply) =>
      if reply.None? || reply.value.JNull? then
        sent == [login] && slot == slot0 && me == me0 && error == host.typeError(reply, "accessToken")
      else
        match ToJsStringOrUndefined(Property(reply.value, "accessToken"))
        case ConversionThrows =>
          sent == [login] && slot == slot0 && me == me0 && error == host.conversionError
        case Converted(token) =>
          var meReq := MeRequest(Some(token));
          sent == [login, meReq] && slot == Some(token) &&
          match Settle(host.server(meReq), host)
          case Resolved(data) => me == data && error == ""
          case Rejected(m) => me == me0 && error == m
  }

  class AuthApp {
    var me: Option<Json>
    var error: string

    /** The state the screen mounts with: nobody signed in, no error. */
    constructor ()
      ensures me == None && error == ""
    {
      me, error := None, "";
    }

    /** The mount effect. With no token (or an empty one) nothing is sent and
        nothing changes. With a token, `/api/auth/me` is probed once: a reply
        becomes `me`; a failure clears the token and `me`. The error text is
        never touched. */
    method Startup(store: TokenStore, host: Host) returns (sent: seq<Request>)
      modifies this, store
      ensures error == old(error)
      ensures !HasToken(old(store.slot)) ==> sent == [] && me == old(me) && store.slot == old(store.slot)
      ensures HasToken(old(store.slot)) ==>
        sent == [MeRequest(old(store.slot))] &&
        match Settle(host.server(sent[0]), host)
        case Resolved(data) => me == data && store.slot == old(store.slot)
        case Rejected(_) => me == None && store.slot == None
    {
      sent := [];
      var token := store.Get();
      if token.Some? && token.value != "" {
        var req, outcome := Api(store, MePath, Init(None, NoBody, map[]), host);
        sent := [req];
        match outcome {
          case Resolved(data) =>
            me := data;
          case Rejected(_) =>
            store.Clear();
            me := None;
        }
      }
    }

    /** `handleLogin`: see `LoginEffect`. */
    method HandleLogin(store: TokenStore, email: string, password: string, host: Host) returns (sent: seq<Request>)
      modifies this, store
      ensures LoginEffect(old(store.slot), old(me), store.slot, me, error, sent, email, password, host)
    {
      error := "";
      var loginReq, login := Api(store, LoginPath, Init(Some("POST"), JsonText(Credentials(email, password)), map[]), host);
      sent := [loginReq];
      match login {
        case Rejected(m) =>
          error := GetErrorMessage(ErrorObject(m), LoginFallback).value;
        case Resolved(reply) =>
          if reply.None? || reply.value.JNull? {
            error := GetErrorMessage(ErrorObject(host.typeError(reply, "accessToken")), LoginFallback).value;
          } else {
            var accessToken := Property(reply.value, "accessToken");
            // `auth.set` hands the value to `localStorage.setItem`, which converts it to text
            match ToJsStringOrUndefined(accessToken) {
              case ConversionThrows =>
                error := GetErrorMessage(ErrorObject(host.conversionError), LoginFallback).value;
              case Converted(token) =>
                store.Set(token);
                var meReq, meOutcome := Api(store, MePath, Init(None, NoBody, map[]), host);
                sent := sent + [meReq];
                match meOutcome {
                  case Resolved(data) =>
                    me := data;
                  case Rejected(m) =>
                    error := GetErrorMessage(ErrorObject(m), LoginFallback).value;
                }
            }
          }
      }
    }

    /** `handleRegister`: the register request goes first. If it fails,
        nothing else is sent, token and user stay, and the error is the
        failure's message; login is not attempted. If it succeeds, whatever
        its reply, `handleLogin` runs with the same credentials. */
    method HandleRegister(store: TokenStore, email: string, password: string, nickname: string, host: Host)
      returns (sent: seq<Request>)
      modifies this, store
      ensures |sent| >= 1 && sent[0] == RegisterRequest(old(store.slot), email, password, nickname)
      ensures Settle(host.server(sent[0]), host).Rejected? ==>
        sent == [sent[0]] && store.slot == old(store.slot) && me == old(me)
        && error == Settle(host.server(sent[0]), host).message
      ensures Settle(host.server(sent[0]), host).Resolved? ==>
        LoginEffect(old(store.slot), old(me), store.slot, me, error, sent[1..], email, password, host)
    {
      error := "";
      var registerReq, register := Api(store, RegisterPath, Init(Some("POST"), JsonText(RegisterBody(email, password, nickname)), map[]), host);
      sent := [registerReq];
      match register {
        case Rejected(m) =>
          error := GetErrorMessage(ErrorObject(m), RegisterFallback).value;
        case Resolved(_) =>
          var loginSent := HandleLogin(store, email, password, host);
          sent := sent + loginSent;
      }
    }

    /** `handleLogout`: the token is removed and nobody is signed in. */
    method HandleLogout(store: TokenStore)
      modifies this, store
      ensures store.slot == None && me == None
      ensures error == old(error)
    {
      store.Clear();
      me := None;
    }
  }

  /** A rejected login with `{"error": "invalid credentials"}` shows exactly
      that text and leaves an empty store empty. */
  lemma InvalidCredentialsScenario(me0: Option<Json>, slot: Option<string>, me: Option<Json>, error: string,
                                   sent: seq<Request>, email: string, password: string, host: Host, body: string)
    requires host.server(LoginRequest(None, email, password)) == Response(false, body)
    requires host.parse(body) == Parsed(JObj(map["error" := JStr("invalid credentials")]))
    requires LoginEffect(None, me0, slot, me, error, sent, email, password, host)
    ensures error == "invalid credentials" && slot == None && me == me0 && |sent| == 1
  {
  }

  /** A login reply `{"accessToken": t}` with a non-empty `t` stores `t`, and
      the following `/api/auth/me` request carries `Bearer t`. */
  lemma LoginStoresTokenBeforeMe(slot0: Option<string>, me0: Option<Json>, slot: Option<string>, me: Option<Json>,
                                 error: string, sent: seq<Request>, email: string, password: string, host: Host,
                                 body: string, t: string)
    requires host.server(LoginRequest(slot0, email, password)) == Response(true, body) && body != ""
    requires host.parse(body) == Parsed(JObj(map["accessToken" := JStr(t)])) && t != ""
    requires LoginEffect(slot0, me0, slot, me, error, sent, email, password, host)
    ensures slot == Some(t)
    ensures |sent| == 2 && sent[1].path == MePath && sent[1].headers[Authorization] == "Bearer " + t
  {
  }

  /** A login reply that is an object without `accessToken` stores the text
      `"undefined"`, and `/api/auth/me` is then sent with `Bearer undefined`. */
  lemma MissingAccessTokenStoresUndefined(slot0: Option<string>, me0: Option<Json>, slot: Option<string>,
                                          me: Option<Json>, error: string, sent: seq<Request>, email: string,
                                          password: string, host: Host, body: string)
    requires host.server(LoginRequest(slot0, email, password)) == Response(true, body) && body != ""
    requires host.parse(body) == Parsed(JObj(map[]))
    requires LoginEffect(slot0, me0, slot, me, error, sent, email, password, host)
    ensures slot == Some("undefined")
    ensures |sent| == 2 && sent[1].headers[Authorization] == "Bearer undefined"
  {
  }

  /** A login reply whose `accessToken` is an object with its own `toString`
      key makes storing it throw: nothing is stored, `/api/auth/me` is not
      called, and the error is the `TypeError`'s message. */
  lemma UnconvertibleTokenIsNotStored(slot0: Option<string>, me0: Option<Json>, slot: Option<string>,
                                      me: Option<Json>, error: string, sent: seq<Request>, email: string,
                                      password: string, host: Host, body: string)
    requires host.server(LoginRequest(slot0, email, password)) == Response(true, body) && body != ""
    requires host.parse(body) == Parsed(JObj(map["accessToken" := JObj(map["toString" := JNum(1)])]))
    requires LoginEffect(slot0, me0, slot, me, error, sent, email, password, host)
    ensures slot == slot0 && me == me0 && |sent| == 1 && error == host.conversionError
  {
  }

  /** An empty login reply and a `null` one both stop the flow after one
      request, each with the engine's own text for reading `accessToken` of
      `undefined` or of `null`. */
  lemma EmptyOrNullReplyStops(slot0: Option<string>, me0: Option<Json>, slot: Option<string>,
                              me: Option<Json>, error: string, sent: seq<Request>, email: string,
                              password: string, host: Host, body: string)
    requires host.server(LoginRequest(slot0, email, password)) == Response(true, body)
    requires body == "" || host.parse(body) == Parsed(JNull)
    requires LoginEffect(slot0, me0, slot, me, error, sent, email, password, host)
    ensures slot == slot0 && me == me0 && |sent| == 1
    ensures body == "" ==> error == host.typeError(None, "accessToken")
    ensures body != "" ==> error == host.typeError(Some(JNull), "accessToken")
  {
  }
}
