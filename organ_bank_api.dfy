/**
 * The organ-bank service module: the same handler as the hospital module
 * (a separate copy in the source), its base URL and its audit-log query.
 */
module OrganBankApi {
  import opened Wrappers
  import opened JsStrings
  import opened JsValues
  import opened Http
  import opened ErrorMessages
  import opened SearchParams
  import HospitalApi

  /** `API_BASE`: `REACT_APP_API_URL` (or `''`) without its trailing slashes. */
  function ApiBase(env: Option<string>): (base: string)
    ensures !EndsWithSlash(base)
    ensures base <= env.GetOr("") && AllSlashes(env.GetOr("")[|base|..])
    ensures TrimTrailingSlashes(base) == base
  {
    TrimTrailingSlashes(env.GetOr(""))
  }

  /**
   * `apiHandler`: non-ok raises with the body's message (raw text when it is
   * not JSON, `HTTP {status} {statusText}` when empty); an ok 204 is `null`;
   * an ok non-204 is the parsed body exactly when the content type says JSON.
   * Each failure is logged once and re-raised with its message unchanged.
   */
  function ApiHandler(ex: Exchange, parse: Parser): (r: Handled)
    ensures r.logged == (if r.outcome.Fail? then Some(r.outcome.message) else None)
    ensures r.outcome.Fail? <==> ex.TransportError? || !ex.response.Ok()
    ensures ex.TransportError? ==> r.outcome == Fail(ex.reason)
    ensures ex.Completed? && !ex.response.Ok() ==>
      r.outcome.message == RawTextMessage(ex.response.body, parse, StatusLine(ex.response.status, ex.response.statusText))
    ensures ex.Completed? && ex.response.Ok() && ex.response.status == 204 ==> r.outcome == Data(JNull)
    ensures ex.Completed? && ex.response.Ok() && ex.response.status != 204 ==>
      r.outcome == (if ex.response.DeclaresJson() then ReadJson(ex.response.body, parse) else Data(JNull))
  {
    match ex
    case TransportError(reason) => Raised(reason)
    case Completed(response) =>
      if !response.Ok() then
        var errorMessage := RawTextMessage(response.body, parse, StatusLine(response.status, response.statusText));
        Raised(errorMessage)
      else if response.status == 204 then Quiet(Data(JNull))
      else if response.DeclaresJson() then Quiet(ReadJson(response.body, parse))
      else Quiet(Data(JNull))
  }

  /** The two copies of the handler behave identically on every exchange. */
  lemma SameAsHospitalHandler(ex: Exchange, parse: Parser)
    ensures ApiHandler(ex, parse) == HospitalApi.ApiHandler(ex, parse)
  {
  }

  /**
   * `getAuditLogs(arg)`: the same query rule as the hospital module's. A
   * `null` or `undefined` argument throws before any query is built.
   */
  method BuildAuditQuery(arg: Value) returns (qs: Option<seq<Pair>>)
    ensures qs.None? <==> !Destructurable(arg)
    ensures qs.Some? ==> qs.value == HospitalApi.AuditParams(Prop(arg, "entityType"), Prop(arg, "entityId"))
    ensures qs.Some? ==> var entityId := Prop(arg, "entityId");
      Lookup(qs.value, "entityId") == (if entityId.Some? && entityId != Some(JNull) then Some(StringOf(entityId)) else None)
    ensures qs.Some? ==> var entityType := Prop(arg, "entityType");
      Lookup(qs.value, "entityType") == (if Truthy(entityType) then Some(StringOf(entityType)) else None)
  {
    if !Destructurable(arg) {
      qs := None;
      return;
    }
    var entityType, entityId := Prop(arg, "entityType"), Prop(arg, "entityId");
    var params := new Params.Empty();
    if Truthy(entityType) { params.Set("entityType", StringOf(entityType)); }
    SetEntryMeaning(params.entries, "entityId", StringOf(entityId));
    if entityId.Some? && entityId != Some(JNull) { params.Set("entityId", StringOf(entityId)); }
    qs := Some(params.entries);
    HospitalApi.AuditParamsMeaning(entityType, entityId);
  }
}
