/** The client's token store and its request wrapper (`src/lib/auth.ts`).

    `auth` keeps the bearer token in the browser's storage under the key
    `"accessToken"`; here that storage slot is the field of a `TokenStore`.
    `api` builds the outgoing headers from a default, the caller's headers and
    the stored token, sends the request, and turns the response into a value or
    a thrown `Error`. The network is the `server` function of a `Host`: it gives
    the exchange that a request meets. `JSON.parse` is the host's `parse`. */
module Auth {
  import opened Wrappers
  import opened JsValues

  const ContentType := "Content-Type"
  const Authorization := "Authorization"
  const ApplicationJson := "application/json"
  const RequestFailed := "Request failed"

  /** The single storage slot that holds the bearer token. Setting overwrites
      whatever was there; clearing an empty slot leaves it empty. */
  class TokenStore {
    var slot: Option<string>

    /** A store holding whatever the browser kept from an earlier session. */
    constructor (persisted: Option<string>)
      ensures slot == persisted
    {
      slot := persisted;
    }

    /** `auth.get()`: the stored token, or `None` (`null`) when there is none. */
    method Get() returns (token: Option<string>)
      ensures token == slot
    {
      token := slot;
    }

    /** `auth.set(token)`: the next `Get` returns `token`. */
    method Set(token: string)
      modifies this
      ensures slot == Some(token)
    {
      slot := Some(token);
    }

    /** `auth.clear()`: the next `Get` returns `None`, whatever was stored. */
    method Clear()
      modifies this
      ensures slot == None
    {
      slot := None;
    }
  }

  /** A request body as the caller hands it to `api`. The wrapper passes it on
      untouched; it never looks at which kind it is. */
  datatype Body =
    | NoBody
    | JsonText(value: Json)        // `JSON.stringify(value)`
    | Form(parts: seq<FormPart>)   // a `FormData`

  datatype FormPart = FormPart(name: string, file: File)

  /** The `init` argument of `api`: the method (absent means `fetch`'s default,
      GET), the body, and the caller's header record (absent headers are the
      empty record). */
  datatype Init = Init(verb: Option<string>, body: Body, headers: map<string, string>)

  /** What `api` hands to `fetch`: the caller's `init` with the headers replaced. */
  datatype Request = Request(path: string, verb: Option<string>, body: Body, headers: map<string, string>)

  /** What a request meets: a response with its `ok` flag and body text, or a
      failure of `fetch` itself (it rejects with a `TypeError`). */
  datatype Exchange = Response(ok: bool, text: string) | NetworkError(message: string)

  /** The world outside the client: the backend, `JSON.parse`, and the texts
      the engine gives two kinds of `TypeError`. `typeError(v, key)` is the
      text for reading property `key` of `v`, which is `undefined` (`None`)
      or `null`; the engine words the two differently and names the key.
      `conversionError` is the text for converting to text a value that has
      no callable conversion method. */
  datatype Host = Host(server: Request -> Exchange, parse: string -> ParseResult,
                       typeError: (Option<Json>, string) -> string, conversionError: string)

  /** How a call to `api` settles: it resolves with a value (`None` for
      `undefined`, the "no content" result) or rejects with an `Error` whose
      message is given. Every rejection of `api` is an `Error` object. */
  datatype Outcome = Resolved(value: Option<Json>) | Rejected(message: string)

  /** `if (token)`: the store holds a non-empty token. */
  predicate HasToken(slot: Option<string>) {
    slot.Some? && slot.value != ""
  }

  /** The header record `api` sends: `Content-Type: application/json` unless
      the caller names `Content-Type`, every caller header as given, and
      `Authorization: Bearer <token>` over any caller value when a token is
      held. */
  function OutgoingHeaders(slot: Option<string>, caller: map<string, string>): (h: map<string, string>)
    // the default content type is always there; the caller's value wins
    ensures ContentType in h
    ensures h[ContentType] == if ContentType in caller then caller[ContentType] else ApplicationJson
    // a held token always yields the bearer header, overriding the caller's
    ensures HasToken(slot) ==> Authorization in h && h[Authorization] == "Bearer " + slot.value
    // without a token, a caller's Authorization is kept and none is added
    ensures !HasToken(slot) ==> (Authorization in h <==> Authorization in caller)
    ensures !HasToken(slot) && Authorization in caller ==> h[Authorization] == caller[Authorization]
    // every other caller header passes through, and nothing else is added
    ensures forall k :: k in caller && k != ContentType && k != Authorization ==> k in h && h[k] == caller[k]
    ensures forall k :: k in h ==> k in caller || k == ContentType || k == Authorization
  {
    var merged := map[ContentType := ApplicationJson] + caller;
    if HasToken(slot) then merged[Authorization := "Bearer " + slot.value] else merged
  }

  /** The value `msg` holds when a non-ok response's body was turned by
      `JSON.parse` into `parsed`: `err.message || err.error || "Request
      failed"`. An unparseable body, and a body of `null` (reading a property
      of it throws inside the `try`), keep the default. */
  function FailureMessage(parsed: ParseResult): (msg: Json)
    // the message field wins whenever it is truthy
    ensures parsed.Parsed? && TruthyValue(Property(parsed.value, "message"))
            ==> msg == parsed.value.fields["message"]
    // the error field is used only when message is falsy or missing
    ensures parsed.Parsed? && !TruthyValue(Property(parsed.value, "message"))
                           && TruthyValue(Property(parsed.value, "error"))
            ==> msg == parsed.value.fields["error"]
    // with neither field truthy, or no parse, the generic text
    ensures !(parsed.Parsed? && (TruthyValue(Property(parsed.value, "message"))
                                 || TruthyValue(Property(parsed.value, "error"))))
            ==> msg == JStr(RequestFailed)
  {
    match parsed
    case SyntaxError(_) => JStr(RequestFailed)
    case Parsed(err) =>
      if err.JNull? then JStr(RequestFailed)
      else
        var message := Property(err, "message");
        if TruthyValue(message) then message.value
        else
          var error := Property(err, "error");
          if TruthyValue(error) then error.value else JStr(RequestFailed)
  }

  /** The message of what `throw new Error(x)` throws: `String(x)`, or, when
      that conversion throws, the `TypeError` raised in its place. */
  function NewErrorMessage(x: Json, conversionError: string): (m: string)
    ensures !Unconvertible(x) ==> ToJsString(x) == Converted(m)
    ensures Unconvertible(x) ==> m == conversionError
  {
    match ToJsString(x)
    case Converted(text) => text
    case ConversionThrows => conversionError
  }

  /** How `api` settles once `fetch` has given `exchange`. */
  function Settle(exchange: Exchange, host: Host): (r: Outcome)
    // a failed fetch rejects with its own error
    ensures exchange.NetworkError? ==> r == Rejected(exchange.message)
    // a non-ok status always rejects, with the normalised message, and never yields a value
    ensures exchange.Response? && !exchange.ok ==>
              r == Rejected(NewErrorMessage(FailureMessage(host.parse(exchange.text)), host.conversionError))
    // a value only ever comes from an ok response
    ensures r.Resolved? ==> exchange.Response? && exchange.ok
    // an ok response with empty text is "no content", never a parse error
    ensures exchange.Response? && exchange.ok && exchange.text == "" ==> r == Resolved(None)
    // an ok response with text yields exactly what JSON.parse gives, or its SyntaxError
    ensures exchange.Response? && exchange.ok && exchange.text != "" ==>
              r == match host.parse(exchange.text)
                   case Parsed(v) => Resolved(Some(v))
                   case SyntaxError(m) => Rejected(m)
  {
    match exchange
    case NetworkError(m) => Rejected(m)
    case Response(ok, text) =>
      if !ok then Rejected(NewErrorMessage(FailureMessage(host.parse(text)), host.conversionError))
      else if text == "" then Resolved(None)
      else match host.parse(text)
           case Parsed(v) => Resolved(Some(v))
           case SyntaxError(m) => Rejected(m)
  }

  /** `api(path, init)`: reads the token once, sends one request and settles.
      It reads the store and changes nothing, so the token it sends is the one
      held when it is called. */
  method Api(store: TokenStore, path: string, init: Init, host: Host) returns (req: Request, outcome: Outcome)
    ensures req == Request(path, init.verb, init.body, OutgoingHeaders(store.slot, init.headers))
    ensures outcome == Settle(host.server(req), host)
  {
    var token := store.Get();
    var headers := map[ContentType := ApplicationJson] + init.headers;
    if token.Some? && token.value != "" {
      headers := headers[Authorization := "Bearer " + token.value];
    }
    req := Request(path, init.verb, init.body, headers);
    var res := host.server(req);
    match res
    case NetworkError(m) =>
      outcome := Rejected(m);
    case Response(ok, text) =>
      if !ok {
        var msg := JStr(RequestFailed);
        var parsed := host.parse(text);
        match parsed {
          case SyntaxError(_) =>
          case Parsed(err) =>
            if !err.JNull? {
              var message := Property(err, "message");
              if TruthyValue(message) {
                msg := message.value;
              } else {
                var error := Property(err, "error");
                if TruthyValue(error) {
                  msg := error.value;
                }
              }
            }
        }
        match ToJsString(msg) {
          case Converted(m) => outcome := Rejected(m);
          case ConversionThrows => outcome := Rejected(host.conversionError);
        }
        return;
      }
      if text == "" {
        outcome := Resolved(None);
      } else {
        match host.parse(text)
        case Parsed(v) => outcome := Resolved(Some(v));
        case SyntaxError(m) => outcome := Rejected(m);
      }
  }

  /** The header record is fully determined by the token and the caller's
      headers: any record meeting the contract of `OutgoingHeaders` is it. */
  lemma HeadersDetermined(slot: Option<string>, caller: map<string, string>, h: map<string, string>)
    requires ContentType in h && h[ContentType] == (if ContentType in caller then caller[ContentType] else ApplicationJson)
    requires HasToken(slot) ==> Authorization in h && h[Authorization] == "Bearer " + slot.value
    requires !HasToken(slot) ==> (Authorization in h <==> Authorization in caller)
    requires !HasToken(slot) && Authorization in caller ==> h[Authorization] == caller[Authorization]
    requires forall k :: k in caller && k != ContentType && k != Authorization ==> k in h && h[k] == caller[k]
    requires forall k :: k in h ==> k in caller || k == ContentType || k == Authorization
    ensures h == OutgoingHeaders(slot, caller)
  {
  }

  /** A JSON body survives the round trip: when the server answers ok with
      the serialisation of `x` and `JSON.parse` inverts that serialisation,
      `api` resolves with `x` itself. */
  lemma SuccessBodyRoundTrip(serialized: string, x: Json, host: Host)
    requires serialized != ""
    requires host.parse(serialized) == Parsed(x)
    ensures Settle(Response(true, serialized), host) == Resolved(Some(x))
  {
  }

  /** The backend's two failure shapes, `{"message": "bad credentials"}` and
      `{"error": "invalid credentials"}`, each reject with their text; an
      unparseable body rejects with the generic one. */
  lemma FailurePayloadExamples(host: Host, body: string, parseError: string)
    ensures host.parse(body) == Parsed(JObj(map["message" := JStr("bad credentials")]))
            ==> Settle(Response(false, body), host) == Rejected("bad credentials")
    ensures host.parse(body) == Parsed(JObj(map["error" := JStr("invalid credentials")]))
            ==> Settle(Response(false, body), host) == Rejected("invalid credentials")
    ensures host.parse(body) == SyntaxError(parseError)
            ==> Settle(Response(false, body), host) == Rejected("Request failed")
  {
  }

  /** A failure body whose `message` is an object with its own `toString`
      key makes `new Error(msg)` throw: `api` rejects with that `TypeError`,
      not with any text of the body. */
  lemma UnconvertibleMessageRejects(host: Host, body: string)
    requires host.parse(body) == Parsed(JObj(map["message" := JObj(map["toString" := JNum(1)])]))
    ensures Settle(Response(false, body), host) == Rejected(host.conversionError)
  {
  }
}
