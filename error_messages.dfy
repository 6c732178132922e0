/**
 * How the response handlers turn the body of a non-ok response into an
 * error message: the chain
 * `json.message || json.error || json.detail || (Array.isArray(json.errors) ? json.errors.join(', ') : fallback)`,
 * passed through `new Error(...)`, which applies `String(...)`.
 */
module ErrorMessages {
  import opened Wrappers
  import opened JsStrings
  import opened JsValues
  import opened Http

  /** The default message `HTTP {status} {statusText}`. */
  function StatusLine(status: nat, statusText: string): (s: string)
    ensures |s| > 5 && s[..5] == "HTTP "
  {
    "HTTP " + NatToString(status) + " " + statusText
  }

  /**
   * The message chosen from a parsed body that is not `null`. The last operand
   * of the `||` chain is not tested for truthiness: an `errors` array that is
   * empty gives the empty string, not the fallback.
   */
  function BodyMessage(j: Json, fallback: string): (m: string)
    ensures Truthy(Field(j, "message")) ==> m == StringOf(Field(j, "message"))
    ensures m == fallback || m == StringOf(Field(j, "message")) || m == StringOf(Field(j, "error"))
      || m == StringOf(Field(j, "detail")) || (Field(j, "errors").Some? && Field(j, "errors").value.JArr?
      && m == Join(Field(j, "errors").value.items, ", "))
  {
    var message := Field(j, "message");
    var error := Field(j, "error");
    var detail := Field(j, "detail");
    if Truthy(message) then StringOf(message)
    else if Truthy(error) then StringOf(error)
    else if Truthy(detail) then StringOf(detail)
    else match Field(j, "errors")
      case Some(JArr(xs)) => Join(xs, ", ")
      case _ => fallback
  }

  /**
   * The handlers' inner `try`: an empty body stands for `{}`; a body that does
   * not parse, or parses to `null` (whose `.message` throws), is caught and
   * the raw text becomes the message.
   */
  function RawTextMessage(text: string, parse: Parser, fallback: string): (m: string)
    ensures text == "" ==> m == fallback
    ensures text != "" && (parse(text).None? || parse(text) == Some(JNull)) ==> m == text
  {
    var parsed := if text == "" then Some(JObj(map[])) else parse(text);
    if parsed.None? || parsed == Some(JNull) then text
    else BodyMessage(parsed.value, fallback)
  }

  /**
   * An independent statement of the same choice, as an ordered list of
   * extraction rules: the first rule that applies gives the message.
   */
  datatype Rule = TruthyField(key: string) | ArrayJoin(key: string, sep: string)

  function Apply(rule: Rule, j: Json): Option<string> {
    match rule
    case TruthyField(key) => if Truthy(Field(j, key)) then Some(StringOf(Field(j, key))) else None
    case ArrayJoin(key, sep) =>
      match Field(j, key)
      case Some(JArr(xs)) => Some(Join(xs, sep))
      case _ => None
  }

  function FirstMatch(rules: seq<Rule>, j: Json, fallback: string): string {
    if rules == [] then fallback
    else match Apply(rules[0], j)
      case Some(m) => m
      case None => FirstMatch(rules[1..], j, fallback)
  }

  const ErrorRules: seq<Rule> :=
    [TruthyField("message"), TruthyField("error"), TruthyField("detail"), ArrayJoin("errors", ", ")]

  lemma BodyMessageFollowsRules(j: Json, fallback: string)
    ensures BodyMessage(j, fallback) == FirstMatch(ErrorRules, j, fallback)
  {
    var r := ErrorRules;
    assert r[0] == TruthyField("message");
    assert r[1..][0] == TruthyField("error");
    assert r[1..][1..][0] == TruthyField("detail");
    var tail := [ArrayJoin("errors", ", ")];
    assert r[1..][1..][1..] == tail;
    assert tail[1..] == [];
    assert FirstMatch(tail, j, fallback) ==
      match Field(j, "errors") case Some(JArr(xs)) => Join(xs, ", ") case _ => fallback;
    assert FirstMatch(r[1..][1..], j, fallback) ==
      if Truthy(Field(j, "detail")) then StringOf(Field(j, "detail")) else FirstMatch(tail, j, fallback);
    assert FirstMatch(r[1..], j, fallback) ==
      if Truthy(Field(j, "error")) then StringOf(Field(j, "error")) else FirstMatch(r[1..][1..], j, fallback);
    assert FirstMatch(r, j, fallback) ==
      if Truthy(Field(j, "message")) then StringOf(Field(j, "message")) else FirstMatch(r[1..], j, fallback);
  }

  /** A body with none of the four fields gives the fallback. */
  lemma NoFieldsGiveFallback(j: Json, fallback: string)
    requires !Truthy(Field(j, "message")) && !Truthy(Field(j, "error")) && !Truthy(Field(j, "detail"))
    requires Field(j, "errors").None? || !Field(j, "errors").value.JArr?
    ensures BodyMessage(j, fallback) == fallback
  {
  }
}
