/**
 * The post-processing half of `interpret_ticket_details`: the model's reply is
 * stripped, the text from its first `{` to its last `}` is decoded as JSON,
 * and each of the four required fields that is absent or has a false truth
 * value is given a default. A reply without both braces, a failed call and a
 * failed decode all give the same fixed record.
 *
 * The language model and `json.loads` are parameters: `reply` is the text the
 * model produced (`None` when the call raised) and `loads` decodes a JSON
 * object, or gives `None` where `json.loads` raises.
 */
module TicketDetails {
  import opened PyText
  import opened PyDict

  /**
   * A decoded JSON value. Arrays and objects are kept only as their number of
   * elements, which is all their truth value depends on.
   */
  datatype Value = Null | Bool(b: bool) | Number(n: int) | Str(s: string) | Array(size: nat) | Object(size: nat)

  /** Python's truth value of a decoded value. */
  predicate IsTruthy(v: Value) {
    match v
    case Null => false
    case Bool(b) => b
    case Number(n) => n != 0
    case Str(s) => s != ""
    case Array(size) => size > 0
    case Object(size) => size > 0
  }

  const RequiredFields: seq<string> := ["short_description", "description", "impact", "urgency"]

  /** The default for a required field: the abbreviated input, the input, or medium ("2"). */
  function Default(field: string, userInput: string): string {
    if field == "short_description" then Abbreviate(userInput)
    else if field == "description" then userInput
    else "2"
  }

  /** The record returned when no JSON object could be read from the reply. */
  function Fallback(userInput: string): Dict<Value> {
    [("short_description", Str(Abbreviate(userInput))),
     ("description", Str(userInput)),
     ("impact", Str("2")),
     ("urgency", Str("2"))]
  }

  /** `s.find(c)` for a character that occurs. */
  function Find(s: string, c: char): (i: nat)
    requires c in s
    ensures i < |s| && s[i] == c
    ensures forall k :: 0 <= k < i ==> s[k] != c
  {
    if s[0] == c then 0 else 1 + Find(s[1..], c)
  }

  /** `s.rfind(c)` for a character that occurs. */
  function RFind(s: string, c: char): (i: nat)
    requires c in s
    ensures i < |s| && s[i] == c
    ensures forall k :: i < k < |s| ==> s[k] != c
  {
    if s[|s| - 1] == c then |s| - 1 else RFind(s[..|s| - 1], c)
  }

  /** `s[start:end]` for indices within the string: empty when `end` is before `start`. */
  function Slice(s: string, start: nat, end: nat): (r: string)
    requires start <= |s| && end <= |s|
    ensures start <= end ==> r == s[start..end]
    ensures end < start ==> r == ""
  {
    if start <= end then s[start..end] else ""
  }

  /** The candidate JSON text of a stripped reply, when it holds both braces. */
  function JsonSpan(response: string): Option<string> {
    if '{' in response && '}' in response then
      Some(Slice(response, Find(response, '{'), RFind(response, '}') + 1))
    else None
  }

  /** The decoded object, or `None` on any path that ends in the fixed fallback record. */
  function Extract(reply: Option<string>, loads: string -> Option<Dict<Value>>): Option<Dict<Value>> {
    match reply
    case None => None
    case Some(text) =>
      match JsonSpan(Strip(text))
      case None => None
      case Some(span) => loads(span)
  }

  /** One turn of the defaulting loop: a field that is absent or false gets its default. */
  function FillField(d: Dict<Value>, field: string, userInput: string): Dict<Value> {
    var current := Get(d, field);
    if current.Some? && IsTruthy(current.value) then d else Set(d, field, Str(Default(field, userInput)))
  }

  /** The defaulting loop over `fields`, in order. */
  function FillFields(d: Dict<Value>, fields: seq<string>, userInput: string): Dict<Value>
    decreases |fields|
  {
    if fields == [] then d else FillFields(FillField(d, fields[0], userInput), fields[1..], userInput)
  }

  /** The dictionary `interpret_ticket_details` returns. */
  function Interpreted(userInput: string, reply: Option<string>, loads: string -> Option<Dict<Value>>): Dict<Value> {
    match Extract(reply, loads)
    case None => Fallback(userInput)
    case Some(parsed) => FillFields(parsed, RequiredFields, userInput)
  }

  /** What a required field holds after defaulting: its own value when true, else its default. */
  function Filled(d: Dict<Value>, field: string, userInput: string): Value {
    var current := Get(d, field);
    if current.Some? && IsTruthy(current.value) then current.value else Str(Default(field, userInput))
  }

  /** `interpret_ticket_details` after the model has replied. */
  method InterpretTicketDetails(userInput: string, reply: Option<string>, loads: string -> Option<Dict<Value>>)
    returns (details: Dict<Value>)
    ensures details == Interpreted(userInput, reply, loads)
  {
    var parsed := Extract(reply, loads);
    if parsed.None? {
      return Fallback(userInput);
    }
    details := FillDefaults(parsed.value, userInput);
  }

  /** The `for field in required_fields` loop, updating the decoded dictionary in place. */
  method FillDefaults(parsed: Dict<Value>, userInput: string) returns (details: Dict<Value>)
    ensures details == FillFields(parsed, RequiredFields, userInput)
  {
    details := parsed;
    for i := 0 to |RequiredFields|
      invariant FillFields(details, RequiredFields[i..], userInput) == FillFields(parsed, RequiredFields, userInput)
    {
      var field := RequiredFields[i];
      assert RequiredFields[i..][1..] == RequiredFields[i + 1..];
      var current := Get(details, field);
      if current.None? || !IsTruthy(current.value) {
        details := Set(details, field, Str(Default(field, userInput)));
      }
    }
  }

  predicate Distinct(fields: seq<string>) {
    forall i, j :: 0 <= i < j < |fields| ==> fields[i] != fields[j]
  }

  /**
   * After the loop over distinct `fields`, each of them holds its own true
   * value or its default, and every other key keeps its value.
   */
  lemma {:induction false} FillFieldsGet(d: Dict<Value>, fields: seq<string>, userInput: string, k: string)
    requires Distinct(fields)
    ensures Get(FillFields(d, fields, userInput), k) == if k in fields then Some(Filled(d, k, userInput)) else Get(d, k)
    decreases |fields|
  {
    if fields != [] {
      var f := fields[0];
      var d' := FillField(d, f, userInput);
      assert Distinct(fields[1..]);
      FillFieldsGet(d', fields[1..], userInput, k);
      SetGet(d, f, Str(Default(f, userInput)), k);
      if k in fields[1..] {
        var j :| 0 <= j < |fields[1..]| && fields[1..][j] == k;
        assert fields[j + 1] == k;
        assert k != f;
      }
      assert k in fields <==> k == f || k in fields[1..] by {
        assert fields == [f] + fields[1..];
      }
    }
  }

  /** The loop adds exactly the keys in `fields` and never duplicates a key. */
  lemma {:induction false} FillFieldsKeys(d: Dict<Value>, fields: seq<string>, userInput: string)
    ensures Keys(FillFields(d, fields, userInput)) == Keys(d) + set f | f in fields
    ensures UniqueKeys(d) ==> UniqueKeys(FillFields(d, fields, userInput))
    decreases |fields|
  {
    if fields != [] {
      var f := fields[0];
      var d' := FillField(d, f, userInput);
      FillFieldKeys(d, f, userInput);
      FillFieldsKeys(d', fields[1..], userInput);
      ElementsCons(fields);
    }
  }

  /** One defaulting step adds its field to the keys and keeps them unique. */
  lemma FillFieldKeys(d: Dict<Value>, f: string, userInput: string)
    ensures Keys(FillField(d, f, userInput)) == Keys(d) + {f}
    ensures UniqueKeys(d) ==> UniqueKeys(FillField(d, f, userInput))
  {
    SetSpec(d, f, Str(Default(f, userInput)));
    if FillField(d, f, userInput) == d {
      assert Get(d, f).Some?;
    }
  }

  lemma ElementsCons(fields: seq<string>)
    requires fields != []
    ensures (set g | g in fields) == {fields[0]} + set g | g in fields[1..]
  {
    assert fields == [fields[0]] + fields[1..];
  }

  /**
   * Whatever the model replied, the result has all four required keys and
   * the fields hold either a true value or their default.
   */
  lemma InterpretedFields(userInput: string, reply: Option<string>, loads: string -> Option<Dict<Value>>)
    ensures var details := Interpreted(userInput, reply, loads);
      && (forall f :: f in RequiredFields ==> f in Keys(details))
      && (Extract(reply, loads).None? ==> details == Fallback(userInput))
  {
    match Extract(reply, loads)
    case None =>
      FallbackFields(userInput);
    case Some(parsed) =>
      FillFieldsKeys(parsed, RequiredFields, userInput);
  }

  /** `json.loads` of an object gives a dict, which holds each key once. */
  ghost predicate DecodesDicts(loads: string -> Option<Dict<Value>>) {
    forall span :: loads(span).Some? ==> UniqueKeys(loads(span).value)
  }

  /** The details are a dict: each key once, whether decoded and defaulted or the fallback record. */
  lemma InterpretedUnique(userInput: string, reply: Option<string>, loads: string -> Option<Dict<Value>>)
    requires DecodesDicts(loads)
    ensures UniqueKeys(Interpreted(userInput, reply, loads))
  {
    match Extract(reply, loads)
    case None =>
      var fb := Fallback(userInput);
      assert fb[0].0 == "short_description" && fb[1].0 == "description";
      assert fb[2].0 == "impact" && fb[3].0 == "urgency";
    case Some(parsed) =>
      FillFieldsKeys(parsed, RequiredFields, userInput);
  }

  lemma FallbackFields(userInput: string)
    ensures forall f :: f in RequiredFields ==> f in Keys(Fallback(userInput))
  {
    var fb := Fallback(userInput);
    assert fb[0].0 == "short_description" && fb[1].0 == "description";
    assert fb[2].0 == "impact" && fb[3].0 == "urgency";
  }

  /**
   * After a successful decode, a required field keeps its decoded value when
   * that value is true (whatever it is: "9" or "High" is not rejected as an
   * impact) and gets its default otherwise; keys outside the four are kept
   * with their values.
   */
  lemma InterpretedDecoded(userInput: string, reply: Option<string>, loads: string -> Option<Dict<Value>>, k: string)
    requires Extract(reply, loads).Some?
    ensures var parsed := Extract(reply, loads).value;
      Get(Interpreted(userInput, reply, loads), k) ==
        if k in RequiredFields then Some(Filled(parsed, k, userInput)) else Get(parsed, k)
  {
    var parsed := Extract(reply, loads).value;
    assert Interpreted(userInput, reply, loads) == FillFields(parsed, RequiredFields, userInput);
    RequiredFieldsDistinct();
    FillFieldsGet(parsed, RequiredFields, userInput, k);
  }

  lemma RequiredFieldsDistinct()
    ensures Distinct(RequiredFields)
  {
    forall i, j | 0 <= i < j < |RequiredFields| ensures RequiredFields[i] != RequiredFields[j] {
      assert |RequiredFields[i]| != |RequiredFields[j]|;
    }
  }

  /** The defaults: the abbreviated input (at most 53 characters), the input itself, and "2" twice. */
  lemma DefaultsSpec(userInput: string)
    ensures |Default("short_description", userInput)| <= 53
    ensures |userInput| <= 50 ==> Default("short_description", userInput) == userInput
    ensures Default("description", userInput) == userInput
    ensures Default("impact", userInput) == "2" && Default("urgency", userInput) == "2"
  {
  }

  /**
   * When the stripped reply has both braces, the decoded text is exactly the
   * stretch from the first `{` to the last `}`, both included, or empty when
   * the last `}` comes before the first `{`.
   */
  lemma JsonSpanExact(response: string)
    requires '{' in response && '}' in response
    ensures JsonSpan(response).Some?
    ensures var span := JsonSpan(response).value;
      exists i, j :: 0 <= i < |response| && 0 <= j < |response|
        && response[i] == '{' && (forall k :: 0 <= k < i ==> response[k] != '{')
        && response[j] == '}' && (forall k :: j < k < |response| ==> response[k] != '}')
        && span == (if i <= j then response[i..j + 1] else "")
  {
    var i := Find(response, '{');
    var j := RFind(response, '}');
    assert JsonSpan(response).value == Slice(response, i, j + 1);
  }

  /** Without both braces, or when the call raised, no decode is attempted and the fallback record is returned. */
  lemma NoJsonFallsBack(userInput: string, reply: Option<string>, loads: string -> Option<Dict<Value>>)
    requires reply.None? || !('{' in Strip(reply.value) && '}' in Strip(reply.value))
    ensures Interpreted(userInput, reply, loads) == Fallback(userInput)
  {
  }
}
