/**
 * The hospital service module: base URL, bearer header, the common response
 * handler, and the request functions whose query string is built step by step.
 */
module HospitalApi {
  import opened Wrappers
  import opened JsStrings
  import opened JsValues
  import opened Http
  import opened ErrorMessages
  import opened SearchParams
  import opened LocalStorage

  /** `API_BASE`: `REACT_APP_API_URL` (or `''`) without its trailing slashes. */
  function ApiBase(env: Option<string>): (base: string)
    ensures !EndsWithSlash(base)
    ensures base <= env.GetOr("") && AllSlashes(env.GetOr("")[|base|..])
  {
    TrimTrailingSlashes(env.GetOr(""))
  }

  /** `authHeader()`: a bearer header exactly when a non-empty token is stored. */
  function AuthHeader(slot: TokenSlot): (h: map<string, string>)
    reads slot
    ensures h.Keys <= {"Authorization"}
    ensures "Authorization" in h <==> slot.item.Some? && slot.item.value != ""
    ensures "Authorization" in h ==> h["Authorization"] == "Bearer " + slot.item.value
  {
    match slot.item
    case Some(t) => if t != "" then map["Authorization" := "Bearer " + t] else map[]
    case None => map[]
  }

  /**
   * `apiHandler`: a non-ok response always raises, with a message taken from
   * its body; an ok 204 is `null`; any other ok response is its parsed body
   * when the content type says JSON, else `null`. Every raised failure,
   * including a rejected `fetch`, is logged once and re-raised unchanged.
   */
  function ApiHandler(ex: Exchange, parse: Parser): (r: Handled)
    ensures r.logged == (if r.outcome.Fail? then Some(r.outcome.message) else None)
    ensures r.outcome.Fail? <==> ex.TransportError? || !ex.response.Ok()
    ensures ex.TransportError? ==> r.outcome == Fail(ex.reason)
    ensures ex.Completed? && ex.response.Ok() && ex.response.status == 204 ==> r.outcome == Data(JNull)
    ensures ex.Completed? && ex.response.Ok() && ex.response.status != 204 ==>
      r.outcome == (if ex.response.DeclaresJson() then ReadJson(ex.response.body, parse) else Data(JNull))
  {
    match ex
    case TransportError(reason) => Raised(reason)
    case Completed(res) =>
      if !res.Ok() then
        Raised(RawTextMessage(res.body, parse, StatusLine(res.status, res.statusText)))
      else if res.status == 204 then Quiet(Data(JNull))
      else if res.DeclaresJson() then Quiet(ReadJson(res.body, parse))
      else Quiet(Data(JNull))
  }

  /** The message of a non-ok response, for the lemmas below. */
  function FailureMessage(res: Response, parse: Parser): (m: string)
    requires !res.Ok()
    ensures ApiHandler(Completed(res), parse).outcome == Fail(m)
  {
    ApiHandler(Completed(res), parse).outcome.message
  }

  /**
   * For a non-ok body that parses to an object, the message is the first
   * truthy of `message`, `error`, `detail`; otherwise the `errors` array
   * joined with ", "; otherwise `HTTP {status} {statusText}`.
   */
  lemma MessagePriority(res: Response, parse: Parser, fields: map<string, Json>)
    requires !res.Ok() && res.body != "" && parse(res.body) == Some(JObj(fields))
    ensures var m := FailureMessage(res, parse);
      var message, error, detail := Field(JObj(fields), "message"), Field(JObj(fields), "error"), Field(JObj(fields), "detail");
      && (Truthy(message) ==> m == StringOf(message))
      && (!Truthy(message) && Truthy(error) ==> m == StringOf(error))
      && (!Truthy(message) && !Truthy(error) && Truthy(detail) ==> m == StringOf(detail))
      && (!Truthy(message) && !Truthy(error) && !Truthy(detail) ==>
            m == match Field(JObj(fields), "errors")
                 case Some(JArr(xs)) => Join(xs, ", ")
                 case _ => StatusLine(res.status, res.statusText))
  {
  }

  /** An empty `errors` array (and no other field) gives the empty message, not the status line. */
  lemma EmptyErrorsGiveEmptyMessage(res: Response, parse: Parser, fields: map<string, Json>)
    requires !res.Ok() && res.body != "" && parse(res.body) == Some(JObj(fields))
    requires "errors" in fields && fields["errors"] == JArr([])
    requires forall k :: k in fields ==> k == "errors"
    ensures FailureMessage(res, parse) == ""
  {
    assert "message" !in fields && "error" !in fields && "detail" !in fields;
  }

  /** A non-empty body that is not JSON, or is JSON `null`, becomes the message itself. */
  lemma RawTextFallback(res: Response, parse: Parser)
    requires !res.Ok() && res.body != ""
    requires parse(res.body).None? || parse(res.body) == Some(JNull)
    ensures FailureMessage(res, parse) == res.body
  {
  }

  /** An empty body gives the status-line default. */
  lemma EmptyBodyGivesStatusLine(res: Response, parse: Parser)
    requires !res.Ok() && res.body == ""
    ensures FailureMessage(res, parse) == StatusLine(res.status, res.statusText)
  {
  }

  /** The properties `page`, `size`, `status`, `city`, `state` of the argument; `None` is an omitted one. */
  datatype RequestFilter = RequestFilter(page: Value, size: Value, status: Value, city: Value, state: Value)

  /**
   * The parameter `{ page = 0, size = 10, status, city, state } = {}` of
   * `getMyOrganRequests` / `getMyBloodRequests`: `undefined` takes the
   * default `{}`, so every property is absent; `null` does not take the
   * default, and destructuring it throws.
   */
  function MyRequestsFilter(arg: Value): (f: Option<RequestFilter>)
    ensures f.None? <==> arg == Some(JNull)
    ensures arg.None? ==> f == Some(RequestFilter(None, None, None, None, None))
    ensures f.Some? ==> f.value.page == Prop(arg, "page") && f.value.size == Prop(arg, "size")
    ensures f.Some? ==>
      f.value.status == Prop(arg, "status") && f.value.city == Prop(arg, "city") && f.value.state == Prop(arg, "state")
  {
    if arg == Some(JNull) then None
    else Some(RequestFilter(Prop(arg, "page"), Prop(arg, "size"), Prop(arg, "status"), Prop(arg, "city"), Prop(arg, "state")))
  }

  /** `if (v) params.append(name, v)` / `if (v) params.set(name, v)` on a list without `name`. */
  function IfTruthy(name: string, v: Value): (es: seq<Pair>)
    ensures Lookup(es, name) == if Truthy(v) then Some(StringOf(v)) else None
    ensures Names(es) == if Truthy(v) then [name] else []
  {
    if Truthy(v) then [(name, StringOf(v))] else []
  }

  /** `if (v != null) params.set(name, String(v))` on a list without `name`. */
  function IfPresent(name: string, v: Value): (es: seq<Pair>)
    ensures Lookup(es, name) == if v.Some? && v != Some(JNull) then Some(StringOf(v)) else None
    ensures Names(es) == if v.Some? && v != Some(JNull) then [name] else []
  {
    if v.Some? && v != Some(JNull) then [(name, StringOf(v))] else []
  }

  /** The query of `getMyOrganRequests` and `getMyBloodRequests`. */
  function MyRequestsParams(f: RequestFilter): (q: seq<Pair>)
    ensures 2 <= |q| <= 5 && q[0].0 == "page" && q[1].0 == "size"
  {
    [("page", ToString(f.page.GetOr(JNum(0)))), ("size", ToString(f.size.GetOr(JNum(10))))]
      + IfTruthy("status", f.status) + IfTruthy("city", f.city) + IfTruthy("state", f.state)
  }

  /**
   * `page` and `size` always come first (with their defaults when omitted);
   * `status`, `city` and `state` follow in that order, each present exactly
   * when truthy.
   */
  lemma MyRequestsParamsOrder(f: RequestFilter)
    ensures var q := MyRequestsParams(f);
      && |q| >= 2
      && q[0] == ("page", ToString(f.page.GetOr(JNum(0))))
      && q[1] == ("size", ToString(f.size.GetOr(JNum(10))))
      && Names(q) == ["page", "size"] + (if Truthy(f.status) then ["status"] else [])
           + (if Truthy(f.city) then ["city"] else []) + (if Truthy(f.state) then ["state"] else [])
  {
    var head := [("page", ToString(f.page.GetOr(JNum(0)))), ("size", ToString(f.size.GetOr(JNum(10))))];
    var s, c, t := IfTruthy("status", f.status), IfTruthy("city", f.city), IfTruthy("state", f.state);
    NamesAppend(head + s + c, t);
    NamesAppend(head + s, c);
    NamesAppend(head, s);
  }

  /** Each of `status`, `city` and `state` is sent exactly when truthy, as `String(v)`. */
  lemma MyRequestsParamsFilters(f: RequestFilter)
    ensures var q := MyRequestsParams(f);
      && Lookup(q, "status") == (if Truthy(f.status) then Some(StringOf(f.status)) else None)
      && Lookup(q, "city") == (if Truthy(f.city) then Some(StringOf(f.city)) else None)
      && Lookup(q, "state") == (if Truthy(f.state) then Some(StringOf(f.state)) else None)
  {
    var head := [("page", ToString(f.page.GetOr(JNum(0)))), ("size", ToString(f.size.GetOr(JNum(10))))];
    var s, c, t := IfTruthy("status", f.status), IfTruthy("city", f.city), IfTruthy("state", f.state);
    var hs, hsc := head + s, head + s + c;
    assert MyRequestsParams(f) == hsc + t;
    assert Names(head) == ["page", "size"];
    NamesAppend(head, s);
    NamesAppend(hs, c);
    assert "state" !in Names(hsc);
    LookupAppend(hsc, t, "state");
    LookupAppend(hsc, t, "city");
    LookupAppend(hsc, t, "status");
    assert "city" !in Names(hs);
    LookupAppend(hs, c, "city");
    LookupAppend(hs, c, "status");
    LookupAppend(head, s, "status");
  }

  /** The query string of `getMyOrganRequests` / `getMyBloodRequests`, built in place. */
  method BuildMyRequestsQuery(f: RequestFilter) returns (qs: seq<Pair>)
    ensures qs == MyRequestsParams(f)
  {
    var params := new Params.FromRecord(
      [("page", ToString(f.page.GetOr(JNum(0)))), ("size", ToString(f.size.GetOr(JNum(10))))]);
    if Truthy(f.status) { params.Append("status", StringOf(f.status)); }
    if Truthy(f.city) { params.Append("city", StringOf(f.city)); }
    if Truthy(f.state) { params.Append("state", StringOf(f.state)); }
    qs := params.entries;
  }

  /**
   * The response rule of `getMyOrganRequests` / `getMyBloodRequests`, which do
   * not use `apiHandler`: a rejected `fetch` propagates as it is, any non-ok
   * status raises the fixed `failure` message whatever the body, and an ok
   * response of any status and content type is `res.json()`. Nothing is logged.
   */
  function MyRequestsOutcome(ex: Exchange, parse: Parser, failure: string): (r: Outcome)
    ensures ex.TransportError? ==> r == Fail(ex.reason)
    ensures ex.Completed? && !ex.response.Ok() ==> r == Fail(failure)
    ensures ex.Completed? && ex.response.Ok() ==> r == ReadJson(ex.response.body, parse)
  {
    match ex
    case TransportError(reason) => Fail(reason)
    case Completed(res) => if !res.Ok() then Fail(failure) else ReadJson(res.body, parse)
  }

  /**
   * Unlike `apiHandler`, the bypass reads the body of an ok 204 as JSON: with
   * an empty body (which `JSON.parse` rejects) the call rejects instead of
   * returning `null`.
   */
  lemma NoContentDiffersFromHandler(res: Response, parse: Parser)
    requires res.status == 204 && res.body == "" && parse("").None?
    ensures MyRequestsOutcome(Completed(res), parse, "Failed to fetch my organ requests") == BadJson
    ensures ApiHandler(Completed(res), parse).outcome == Data(JNull)
  {
  }

  const OrganRequestsFailure := "Failed to fetch my organ requests"
  const BloodRequestsFailure := "Failed to fetch my blood requests"

  /**
   * `getMyOrganRequests(arg)`: the request it sends and what its caller
   * observes. A `null` argument rejects before any request is sent.
   */
  method GetMyOrganRequests(env: Option<string>, slot: TokenSlot, arg: Value, ex: Exchange, parse: Parser)
    returns (req: Option<Request>, out: Outcome)
    ensures arg == Some(JNull) ==> req.None? && out == ArgumentError
    ensures arg != Some(JNull) ==>
      req == Some(Request(ApiBase(env) + "/organ-requests/my", MyRequestsParams(MyRequestsFilter(arg).value), AuthHeader(slot)))
    ensures arg != Some(JNull) ==> out == MyRequestsOutcome(ex, parse, OrganRequestsFailure)
  {
    var f := MyRequestsFilter(arg);
    if f.None? {
      req, out := None, ArgumentError;
      return;
    }
    var qs := BuildMyRequestsQuery(f.value);
    req := Some(Request(ApiBase(env) + "/organ-requests/my", qs, AuthHeader(slot)));
    out := MyRequestsOutcome(ex, parse, OrganRequestsFailure);
  }

  /**
   * `getMyBloodRequests(arg)`: the request it sends and what its caller
   * observes. A `null` argument rejects before any request is sent.
   */
  method GetMyBloodRequests(env: Option<string>, slot: TokenSlot, arg: Value, ex: Exchange, parse: Parser)
    returns (req: Option<Request>, out: Outcome)
    ensures arg == Some(JNull) ==> req.None? && out == ArgumentError
    ensures arg != Some(JNull) ==>
      req == Some(Request(ApiBase(env) + "/blood-requests/my", MyRequestsParams(MyRequestsFilter(arg).value), AuthHeader(slot)))
    ensures arg != Some(JNull) ==> out == MyRequestsOutcome(ex, parse, BloodRequestsFailure)
  {
    var f := MyRequestsFilter(arg);
    if f.None? {
      req, out := None, ArgumentError;
      return;
    }
    var qs := BuildMyRequestsQuery(f.value);
    req := Some(Request(ApiBase(env) + "/blood-requests/my", qs, AuthHeader(slot)));
    out := MyRequestsOutcome(ex, parse, BloodRequestsFailure);
  }

  /** The query of `getTurnaroundReport({ from, to })`. */
  function TurnaroundParams(from: Value, to: Value): (q: seq<Pair>)
    ensures |q| <= 2
    ensures forall i :: 0 <= i < |q| ==> q[i].0 == "from" || q[i].0 == "to"
  {
    IfTruthy("from", from) + IfTruthy("to", to)
  }

  /**
   * `from` and `to` are each sent exactly when truthy, as `String(v)`, and
   * `from` comes first when both are.
   */
  lemma TurnaroundParamsMeaning(from: Value, to: Value)
    ensures var q := TurnaroundParams(from, to);
      && Lookup(q, "from") == (if Truthy(from) then Some(StringOf(from)) else None)
      && Lookup(q, "to") == (if Truthy(to) then Some(StringOf(to)) else None)
      && Names(q) == (if Truthy(from) then ["from"] else []) + (if Truthy(to) then ["to"] else [])
  {
    var a, b := IfTruthy("from", from), IfTruthy("to", to);
    LookupAppend(a, b, "from");
    LookupAppend(a, b, "to");
    NamesAppend(a, b);
  }

  /**
   * The query of `getTurnaroundReport(arg)`, built in place. The parameter
   * `{ from, to }` has no default: `null` or `undefined` throws before any
   * query is built.
   */
  method BuildTurnaroundQuery(arg: Value) returns (qs: Option<seq<Pair>>)
    ensures qs.None? <==> !Destructurable(arg)
    ensures qs.Some? ==> qs.value == TurnaroundParams(Prop(arg, "from"), Prop(arg, "to"))
  {
    if !Destructurable(arg) {
      qs := None;
      return;
    }
    var from, to := Prop(arg, "from"), Prop(arg, "to");
    var params := new Params.Empty();
    if Truthy(from) { params.Set("from", StringOf(from)); }
    SetEntryMeaning(params.entries, "to", StringOf(to));
    if Truthy(to) { params.Set("to", StringOf(to)); }
    qs := Some(params.entries);
  }

  /** The query of `getAuditLogs({ entityType, entityId })`. */
  function AuditParams(entityType: Value, entityId: Value): (q: seq<Pair>)
    ensures |q| <= 2
    ensures forall i :: 0 <= i < |q| ==> q[i].0 == "entityType" || q[i].0 == "entityId"
  {
    IfTruthy("entityType", entityType) + IfPresent("entityId", entityId)
  }

  /**
   * The query of `getAuditLogs(arg)`, built in place. The parameter
   * `{ entityType, entityId }` has no default: `null` or `undefined` throws
   * before any query is built.
   */
  method BuildAuditQuery(arg: Value) returns (qs: Option<seq<Pair>>)
    ensures qs.None? <==> !Destructurable(arg)
    ensures qs.Some? ==> qs.value == AuditParams(Prop(arg, "entityType"), Prop(arg, "entityId"))
  {
    if !Destructurable(arg) {
      qs := None;
      return;
    }
    var entityType, entityId := Prop(arg, "entityType"), Prop(arg, "entityId");
    var params := new Params.Empty();
    if Truthy(entityType) { params.Set("entityType", StringOf(entityType)); }
    SetEntryMeaning(params.entries, "entityId", StringOf(entityId));
    if entityId.Some? && entityId != Some(JNull) { params.Set("entityId", StringOf(entityId)); }
    qs := Some(params.entries);
  }

  /**
   * `entityType` is sent exactly when truthy, `entityId` exactly when it is
   * neither `null` nor `undefined`: an id of `0` is kept, an empty type dropped.
   */
  lemma AuditParamsMeaning(entityType: Value, entityId: Value)
    ensures var q := AuditParams(entityType, entityId);
      && Lookup(q, "entityType") == (if Truthy(entityType) then Some(StringOf(entityType)) else None)
      && Lookup(q, "entityId") == (if entityId.Some? && entityId != Some(JNull) then Some(StringOf(entityId)) else None)
      && Lookup(AuditParams(entityType, Some(JNum(0))), "entityId") == Some("0")
      && Lookup(AuditParams(Some(JStr("")), entityId), "entityType").None?
  {
    var a, b := IfTruthy("entityType", entityType), IfPresent("entityId", entityId);
    LookupAppend(a, b, "entityType");
    LookupAppend(a, b, "entityId");
    LookupAppend(a, IfPresent("entityId", Some(JNum(0))), "entityId");
    LookupAppend(IfTruthy("entityType", Some(JStr(""))), b, "entityType");
  }
}
