/**
 * The donor service module: a handler with an opt-in "400/404 is `null`"
 * rule, whose every caught failure is re-raised as a new `Error` with
 * `'Network error'` in place of an empty message. Nothing is logged.
 */
module DonorApi {
  import opened Wrappers
  import opened JsStrings
  import opened JsValues
  import opened Http
  import opened ErrorMessages
  import HospitalApi

  /** `err?.message || 'Network error'` */
  function OrNetworkError(message: string): (m: string)
    ensures m != ""
    ensures message != "" ==> m == message
  {
    if message != "" then message else "Network error"
  }

  /** The `allow404Null` rule: 400 and 404 count as "not there yet". */
  predicate IsAbsence(res: Response) { res.status == 400 || res.status == 404 }

  /** `apiHandler(promise, { allow404Null })` */
  function ApiHandler(ex: Exchange, parse: Parser, allow404Null: bool): (r: Outcome)
    ensures allow404Null && ex.Completed? && IsAbsence(ex.response) ==> r == Data(JNull)
    ensures r.Fail? <==>
      ex.TransportError? || (!ex.response.Ok() && !(allow404Null && IsAbsence(ex.response)))
    ensures r.Fail? ==> r.message != ""
    ensures ex.TransportError? ==> r == Fail(OrNetworkError(ex.reason))
    ensures ex.Completed? && ex.response.Ok() && ex.response.status == 204 ==> r == Data(JNull)
    ensures ex.Completed? && ex.response.Ok() && ex.response.status != 204 ==>
      r == (if ex.response.DeclaresJson() then ReadJson(ex.response.body, parse) else Data(JNull))
  {
    match ex
    case TransportError(reason) => Fail(OrNetworkError(reason))
    case Completed(res) =>
      if allow404Null && IsAbsence(res) then Data(JNull)
      else if !res.Ok() then
        Fail(OrNetworkError(RawTextMessage(res.body, parse, StatusLine(res.status, res.statusText))))
      else if res.status == 204 then Data(JNull)
      else if res.DeclaresJson() then ReadJson(res.body, parse)
      else Data(JNull)
  }

  /** The re-wrap at the handler's `catch`. */
  function Rewrap(out: Outcome): (r: Outcome)
    ensures r.Fail? <==> out.Fail?
    ensures r.Fail? ==> r.message != ""
    ensures !out.Fail? || out.message != "" ==> r == out
  {
    if out.Fail? then Fail(OrNetworkError(out.message)) else out
  }

  /**
   * Without the option, the donor handler is the hospital handler followed by
   * the re-wrap: the same priority chain and the same raw-text and
   * status-line fallbacks.
   */
  lemma DefaultAgreesWithHospital(ex: Exchange, parse: Parser)
    ensures ApiHandler(ex, parse, false) == Rewrap(HospitalApi.ApiHandler(ex, parse).outcome)
  {
  }

  /** The option changes the result for statuses 400 and 404 only, both of which are then `null`. */
  lemma OptionOnlyAffectsAbsence(ex: Exchange, parse: Parser)
    ensures ApiHandler(ex, parse, true) != ApiHandler(ex, parse, false) ==>
      ex.Completed? && IsAbsence(ex.response) && ApiHandler(ex, parse, true) == Data(JNull)
    ensures ex.Completed? && IsAbsence(ex.response) ==> ApiHandler(ex, parse, false).Fail?
  {
  }

  /** An `errors` array that is empty gives `'Network error'` here (the hospital handler gives ""). */
  lemma EmptyErrorsGiveNetworkError(res: Response, parse: Parser, allow404Null: bool)
    requires !res.Ok() && !(allow404Null && IsAbsence(res))
    requires res.body != "" && parse(res.body) == Some(JObj(map["errors" := JArr([])]))
    ensures ApiHandler(Completed(res), parse, allow404Null) == Fail("Network error")
  {
    var fields := map["errors" := JArr([])];
    assert "message" !in fields && "error" !in fields && "detail" !in fields;
  }

  /** The request functions of this module. */
  datatype Caller =
    | GetMyProfile | CreateMyProfile | UpdateMyProfile | GetMyConsents | CreateConsent
    | GetMyMatches | AcceptMatch | DeclineMatch | GetAllocations | GetAllocationEvents

  /** The `allow404Null` each caller passes: only `getMyProfile` opts in. */
  function AllowsAbsence(c: Caller): (allow: bool)
    ensures allow <==> c == GetMyProfile
  {
    match c
    case GetMyProfile => true
    case _ => false
  }

  /** What the caller of each request function observes. */
  function CallOutcome(c: Caller, ex: Exchange, parse: Parser): (r: Outcome)
    ensures c == GetMyProfile && ex.Completed? && IsAbsence(ex.response) ==> r == Data(JNull)
    ensures c != GetMyProfile && ex.Completed? && IsAbsence(ex.response) ==> r.Fail?
  {
    ApiHandler(ex, parse, AllowsAbsence(c))
  }
}
