/**
 * The admin donor service module: a handler variant with its own default
 * message, no raw-text fallback and no 204 rule, and `updateDonor`, which
 * moves the `id` from the body into the path.
 */
module DonorAdminApi {
  import opened Wrappers
  import opened JsStrings
  import opened JsValues
  import opened Http
  import opened ErrorMessages
  import HospitalApi

  /** `API_URL`: the slash-trimmed root followed by `/donor-profiles`. */
  function ApiUrl(env: Option<string>): (url: string)
    ensures |url| >= 15 && url[|url| - 15..] == "/donor-profiles"
    ensures var root := url[..|url| - 15];
      !EndsWithSlash(root) && root <= env.GetOr("") && AllSlashes(env.GetOr("")[|root|..])
  {
    var root := TrimTrailingSlashes(env.GetOr(""));
    assert (root + "/donor-profiles")[..|root|] == root;
    root + "/donor-profiles"
  }

  /** ``Request failed with status: ${response.status}`` */
  function DefaultMessage(status: nat): (m: string)
    ensures |m| > 28 && m[..28] == "Request failed with status: "
  {
    "Request failed with status: " + NatToString(status)
  }

  /**
   * The inner `try` of this variant: `await response.json()`; a body that is
   * not JSON, or JSON `null` (whose `.message` throws), keeps the default.
   */
  function BodyOrDefault(text: string, parse: Parser, fallback: string): (m: string)
    ensures parse(text).None? || parse(text) == Some(JNull) ==> m == fallback
  {
    match parse(text)
    case None => fallback
    case Some(j) => if j == JNull then fallback else BodyMessage(j, fallback)
  }

  /**
   * `apiHandler`: non-ok raises (logged once, re-raised unchanged); an ok
   * response of any status is the parsed body exactly when the content type
   * says JSON, else `null`.
   */
  function ApiHandler(ex: Exchange, parse: Parser): (r: Handled)
    ensures r.logged == (if r.outcome.Fail? then Some(r.outcome.message) else None)
    ensures r.outcome.Fail? <==> ex.TransportError? || !ex.response.Ok()
    ensures ex.TransportError? ==> r.outcome == Fail(ex.reason)
    ensures ex.Completed? && ex.response.Ok() ==>
      r.outcome == (if ex.response.DeclaresJson() then ReadJson(ex.response.body, parse) else Data(JNull))
  {
    match ex
    case TransportError(reason) => Raised(reason)
    case Completed(response) =>
      if !response.Ok() then Raised(BodyOrDefault(response.body, parse, DefaultMessage(response.status)))
      else if response.DeclaresJson() then Quiet(ReadJson(response.body, parse))
      else Quiet(Data(JNull))
  }

  /** A non-ok body that is not JSON, or is `null`, raises the default: there is no raw-text fallback. */
  lemma NoRawTextFallback(res: Response, parse: Parser)
    requires !res.Ok()
    requires parse(res.body).None? || parse(res.body) == Some(JNull)
    ensures ApiHandler(Completed(res), parse).outcome == Fail(DefaultMessage(res.status))
  {
  }

  /**
   * For a parseable non-ok body, the priority is `message`, `error`,
   * `detail`, the joined `errors` array, and last the default; an object
   * with none of these fields raises the default.
   */
  lemma MessagePriority(res: Response, parse: Parser, j: Json)
    requires !res.Ok() && parse(res.body) == Some(j) && j != JNull
    ensures ApiHandler(Completed(res), parse).outcome == Fail(BodyMessage(j, DefaultMessage(res.status)))
    ensures j == JObj(map[]) ==> ApiHandler(Completed(res), parse).outcome == Fail(DefaultMessage(res.status))
  {
  }

  /**
   * Unlike the hospital handler, an ok 204 that declares JSON has its empty
   * body read as JSON, so the call rejects instead of returning `null`.
   */
  lemma NoContentIsReadAsJson(res: Response, parse: Parser)
    requires res.status == 204 && res.body == "" && parse("").None? && res.DeclaresJson()
    ensures ApiHandler(Completed(res), parse).outcome == BadJson
    ensures HospitalApi.ApiHandler(Completed(res), parse).outcome == Data(JNull)
  {
  }

  /** On every ok response other than 204 the two variants agree. */
  lemma AgreesWithHospitalOnSuccess(res: Response, parse: Parser)
    requires res.Ok() && res.status != 204
    ensures ApiHandler(Completed(res), parse) == HospitalApi.ApiHandler(Completed(res), parse)
  {
  }

  /**
   * The own enumerable properties of a value, as object rest `...` copies
   * them: an object's fields, the indices of an array or string, nothing for
   * a number or boolean.
   */
  function OwnProperties(j: Json): (p: map<string, Json>)
    ensures j.JObj? ==> p == j.fields
    ensures j.JNull? || j.JBool? || j.JNum? ==> p == map[]
    ensures j.JArr? ==> forall k :: k in p ==> exists i :: 0 <= i < |j.items| && k == NatToString(i) && p[k] == j.items[i]
    ensures j.JArr? ==> forall i :: 0 <= i < |j.items| ==> NatToString(i) in p && p[NatToString(i)] == j.items[i]
    ensures j.JStr? ==> forall k :: k in p ==> exists i :: 0 <= i < |j.s| && k == NatToString(i) && p[k] == JStr([j.s[i]])
    ensures j.JStr? ==> forall i :: 0 <= i < |j.s| ==> NatToString(i) in p && p[NatToString(i)] == JStr([j.s[i]])
  {
    match j
    case JObj(m) => m
    case JArr(xs) => Indexed(xs, 0)
    case JStr(s) => Indexed(seq(|s|, i requires 0 <= i < |s| => JStr([s[i]])), 0)
    case _ => map[]
  }

  /** The elements from index `from` on, each under its decimal index. */
  function Indexed(xs: seq<Json>, from: nat): (p: map<string, Json>)
    ensures forall k :: k in p ==> exists i :: from <= i < |xs| && k == NatToString(i) && p[k] == xs[i]
    ensures forall i :: from <= i < |xs| ==> NatToString(i) in p && p[NatToString(i)] == xs[i]
    decreases |xs| - from
  {
    if from >= |xs| then map[]
    else
      var rest := Indexed(xs, from + 1);
      assert forall i :: from < i < |xs| ==> NatToString(i) != NatToString(from) by {
        forall i | from < i < |xs| ensures NatToString(i) != NatToString(from) {
          if NatToString(i) == NatToString(from) { NatToStringInjective(i, from); }
        }
      }
      rest[NatToString(from) := xs[from]]
  }

  /** A `PUT` as `updateDonor` sends it: path and JSON body. */
  datatype Put = Put(path: string, body: map<string, Json>)

  /**
   * `const { id, ...donorData } = data`: the body is every own property but
   * `id`, and `id` (or the text "undefined") is placed only in the path.
   * Destructuring `null` or `undefined` throws, before any request is made.
   */
  function UpdateDonorRequest(env: Option<string>, data: Value): (r: Option<Put>)
    ensures r.None? <==> data.None? || data == Some(JNull)
    ensures r.Some? ==> "id" !in r.value.body
    ensures r.Some? ==> r.value.body.Keys == OwnProperties(data.value).Keys - {"id"}
    ensures r.Some? ==> forall k :: k in r.value.body ==> r.value.body[k] == OwnProperties(data.value)[k]
    ensures r.Some? ==> r.value.path == ApiUrl(env) + "/" + StringOf(Field(data.value, "id"))
  {
    match data
    case None => None
    case Some(j) =>
      if j == JNull then None
      else Some(Put(ApiUrl(env) + "/" + StringOf(Field(j, "id")), OwnProperties(j) - {"id"}))
  }

  /** Putting the `id` back into the body gives the original object. */
  lemma UpdateDonorRoundTrip(env: Option<string>, fields: map<string, Json>)
    requires "id" in fields
    ensures var r := UpdateDonorRequest(env, Some(JObj(fields)));
      r.Some? && r.value.body["id" := fields["id"]] == fields
      && r.value.path == ApiUrl(env) + "/" + ToString(fields["id"])
  {
    var body := UpdateDonorRequest(env, Some(JObj(fields))).value.body;
    assert body["id" := fields["id"]].Keys == fields.Keys;
  }
}
