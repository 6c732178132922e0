/**
 * The auth service: registration and login against `${API_ROOT}/auth`, each
 * falling back to a local mock, and the token slot in `localStorage`.
 */
module AuthApi {
  import opened Wrappers
  import opened JsStrings
  import opened JsValues
  import opened Http
  import opened LocalStorage

  /** `API_BASE_URL`: the slash-trimmed root followed by `/auth`. */
  function ApiBaseUrl(env: Option<string>): (url: string)
    ensures |url| >= 5 && url[|url| - 5..] == "/auth"
    ensures var root := url[..|url| - 5];
      !EndsWithSlash(root) && root <= env.GetOr("") && AllSlashes(env.GetOr("")[|root|..])
  {
    var root := TrimTrailingSlashes(env.GetOr(""));
    assert (root + "/auth")[..|root|] == root;
    root + "/auth"
  }

  const MockToken := "dev-token"
  const DefaultName := "User"
  const DefaultEmail := "user@example.com"

  /** `mockRegister(userData)`: id 1, and the given name and email when truthy. */
  function MockRegister(userData: Value): (r: Json)
    ensures r.JObj? && r.fields.Keys == {"id", "name", "email"}
    ensures r.fields["id"] == JNum(1)
    ensures Truthy(Prop(userData, "name")) ==> Some(r.fields["name"]) == Prop(userData, "name")
    ensures !Truthy(Prop(userData, "name")) ==> r.fields["name"] == JStr(DefaultName)
    ensures Truthy(Prop(userData, "email")) ==> Some(r.fields["email"]) == Prop(userData, "email")
    ensures !Truthy(Prop(userData, "email")) ==> r.fields["email"] == JStr(DefaultEmail)
  {
    JObj(map[
      "id" := JNum(1),
      "name" := Or(Prop(userData, "name"), JStr(DefaultName)),
      "email" := Or(Prop(userData, "email"), JStr(DefaultEmail))])
  }

  /** `mockLogin(credentials)`: id 1, name 'User', token 'dev-token', and the given email when truthy. */
  function MockLogin(credentials: Value): (r: Json)
    ensures r.JObj? && r.fields.Keys == {"id", "name", "email", "token"}
    ensures r.fields["id"] == JNum(1) && r.fields["name"] == JStr(DefaultName)
    ensures r.fields["token"] == JStr(MockToken)
    ensures Truthy(Prop(credentials, "email")) ==> Some(r.fields["email"]) == Prop(credentials, "email")
    ensures !Truthy(Prop(credentials, "email")) ==> r.fields["email"] == JStr(DefaultEmail)
  {
    JObj(map[
      "id" := JNum(1),
      "name" := JStr(DefaultName),
      "email" := Or(Prop(credentials, "email"), JStr(DefaultEmail)),
      "token" := JStr(MockToken)])
  }

  /**
   * The message thrown for a non-ok status other than 404:
   * `j.message || j.error || j.detail || fallback`, or the raw text when the
   * body is not JSON or is `null`. It is caught by the same function's
   * `catch`, so no caller ever sees it.
   */
  function ThrownMessage(text: string, parse: Parser, fallback: string): (m: string)
    ensures text == "" ==> m == fallback
    ensures text != "" && (parse(text).None? || parse(text) == Some(JNull)) ==> m == text
  {
    var parsed := if text == "" then Some(JObj(map[])) else parse(text);
    if parsed.None? || parsed == Some(JNull) then text
    else
      var j := parsed.value;
      StringOf(Some(Or(Field(j, "message"), Or(Field(j, "error"), Or(Field(j, "detail"), JStr(fallback))))))
  }

  /**
   * What `registerUser` resolves to: the mock on a rejected `fetch` and on
   * every non-ok status (404 directly, the others through the caught
   * `throw`); on an ok response the body returned by `res.json()` without
   * `await`, so a body that is not JSON rejects the call. It never raises an
   * `Error` of its own.
   */
  function RegisterResult(userData: Value, ex: Exchange, parse: Parser): (r: Outcome)
    ensures !r.Fail?
    ensures r == BadJson <==> ex.Completed? && ex.response.Ok() && parse(ex.response.body).None?
    ensures ex.TransportError? || !ex.response.Ok() ==> r == Data(MockRegister(userData))
    ensures ex.Completed? && ex.response.Ok() ==> r == ReadJson(ex.response.body, parse)
  {
    match ex
    case TransportError(_) => Data(MockRegister(userData))
    case Completed(res) => if res.Ok() then ReadJson(res.body, parse) else Data(MockRegister(userData))
  }

  /**
   * `registerUser(userData)`, following the source's control flow. It takes
   * no token slot: registration never writes the stored token.
   */
  method RegisterUser(userData: Value, ex: Exchange, parse: Parser) returns (r: Outcome)
    ensures r == RegisterResult(userData, ex, parse)
  {
    match ex {
      case TransportError(_) =>
      case Completed(res) =>
        if res.Ok() {
          r := ReadJson(res.body, parse);
          return;
        }
        if res.status == 404 {
          r := Data(MockRegister(userData));
          return;
        }
        var message := ThrownMessage(res.body, parse, "Registration failed");
    }
    // catch (_): the rejected fetch and the thrown message both end here
    r := Data(MockRegister(userData));
  }

  /** What `loginUser` resolves to: never a failure. */
  function LoginResult(credentials: Value, ex: Exchange, parse: Parser): (data: Json)
    ensures ex.TransportError? || !ex.response.Ok() ==> data == MockLogin(credentials)
    ensures ex.Completed? && ex.response.Ok() ==>
      data == (if parse(ex.response.body).Some? then parse(ex.response.body).value else MockLogin(credentials))
  {
    match ex
    case TransportError(_) => MockLogin(credentials)
    case Completed(res) =>
      if !res.Ok() then MockLogin(credentials)
      else match parse(res.body)
        case Some(d) => d
        case None => MockLogin(credentials)
  }

  /**
   * The stored token after `loginUser`: `'dev-token'` whenever the mock is
   * used (overwriting any earlier token); on a real success `String(data.token)`
   * when that is truthy, and otherwise the earlier value.
   */
  function LoginToken(prior: Option<string>, ex: Exchange, parse: Parser): (t: Option<string>)
    ensures ex.TransportError? || !ex.response.Ok() ==> t == Some(MockToken)
    ensures ex.Completed? && ex.response.Ok() && parse(ex.response.body).None? ==> t == Some(MockToken)
    ensures ex.Completed? && ex.response.Ok() && parse(ex.response.body).Some? ==>
      var token := Prop(parse(ex.response.body), "token");
      t == if Truthy(token) then Some(StringOf(token)) else prior
  {
    match ex
    case TransportError(_) => Some(MockToken)
    case Completed(res) =>
      if !res.Ok() then Some(MockToken)
      else match parse(res.body)
        case None => Some(MockToken)
        case Some(d) =>
          var token := Prop(Some(d), "token");
          if Truthy(token) then Some(StringOf(token)) else prior
  }

  /** `loginUser(credentials)`, following the source's control flow. */
  method LoginUser(slot: TokenSlot, credentials: Value, ex: Exchange, parse: Parser) returns (data: Json)
    modifies slot
    ensures data == LoginResult(credentials, ex, parse)
    ensures slot.item == LoginToken(old(slot.item), ex, parse)
  {
    match ex {
      case TransportError(_) =>
      case Completed(res) =>
        if !res.Ok() {
          if res.status == 404 {
            data := MockLogin(credentials);
            slot.SetItem(StringOf(Field(data, "token")));
            return;
          }
          var message := ThrownMessage(res.body, parse, "Invalid credentials");
        } else {
          var parsed := parse(res.body);
          if parsed.Some? {
            data := parsed.value;
            var token := Prop(parsed, "token");
            if Truthy(token) {
              slot.SetItem(StringOf(token));
            }
            return;
          }
        }
    }
    // catch (_): the rejected fetch, the thrown message and a body that is not JSON all end here
    data := MockLogin(credentials);
    slot.SetItem(StringOf(Field(data, "token")));
  }

  /** `logout()` */
  method Logout(slot: TokenSlot)
    modifies slot
    ensures slot.item.None?
  {
    slot.RemoveItem();
  }

  /** `getToken()`: exactly what is stored. */
  method GetToken(slot: TokenSlot) returns (t: Option<string>)
    ensures t == slot.item
  {
    t := slot.GetItem();
  }

  /**
   * A 404, any other non-ok status and a rejected `fetch` all end the same way:
   * the mock payload, and `'dev-token'` stored over whatever was there before.
   */
  lemma LoginFailuresAllFallBack(credentials: Value, ex: Exchange, parse: Parser, prior: Option<string>)
    requires ex.TransportError? || !ex.response.Ok()
    ensures LoginResult(credentials, ex, parse) == MockLogin(credentials)
    ensures LoginToken(prior, ex, parse) == Some(MockToken)
    ensures LoginResult(credentials, ex, parse) == LoginResult(credentials, TransportError(""), parse)
  {
  }

  /**
   * A 500 whose body is `{"message": "email taken"}` does not surface: the
   * error thrown with that message is caught and the mock is returned.
   */
  lemma RegistrationErrorIsMasked(userData: Value, res: Response, parse: Parser)
    requires res.status == 500 && res.body != ""
    requires parse(res.body) == Some(JObj(map["message" := JStr("email taken")]))
    ensures ThrownMessage(res.body, parse, "Registration failed") == "email taken"
    ensures RegisterResult(userData, Completed(res), parse) == Data(MockRegister(userData))
  {
  }

  /** A successful login whose payload has no truthy token leaves the stored token as it was. */
  lemma LoginWithoutTokenKeepsPrior(res: Response, parse: Parser, d: Json, prior: Option<string>)
    requires res.Ok() && parse(res.body) == Some(d) && !Truthy(Prop(Some(d), "token"))
    ensures LoginToken(prior, Completed(res), parse) == prior
  {
  }

  /** After `logout`, `getToken` gives nothing. */
  method LogoutThenGetToken(slot: TokenSlot) returns (t: Option<string>)
    modifies slot
    ensures t.None?
  {
    Logout(slot);
    t := GetToken(slot);
  }
}
