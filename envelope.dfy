/**
 * The tail of `call_groq` (app.py): read the first choice's message content
 * out of the decoded response body and strip it. A missing `choices`, an
 * empty `choices`, a missing `message` or a missing `content` all give `""`.
 * Where Python's lookup itself raises (a body or a part of it of the wrong
 * type), the model returns the fault, which `suggest` turns into its
 * `"Error: …"` reply.
 */
module Envelope {
  import opened Wrappers
  import opened Text
  import opened Json

  /** The expression of the extraction that raises. */
  datatype Site =
    | ChoicesTest     // `"choices" in j` on a number, boolean or null: TypeError
    | ChoicesIndex    // `j["choices"]` on a list or string: TypeError
    | ChoicesLength   // `len(j["choices"])` on a number, boolean or null: TypeError
    | FirstIndex      // `j["choices"][0]` on an object: KeyError
    | MessageGet      // `.get("message", {})` on a non-object: AttributeError
    | ContentGet      // `.get("content", "")` on a non-object: AttributeError
    | ContentStrip    // `.strip()` on a non-string: AttributeError

  /** An exception raised inside `call_groq`. */
  datatype Fault =
    | ServiceError(message: string)        // the transport failed or the status was not 200
    | ShapeError(site: Site, found: Kind)  // a lookup in the body met a value of the wrong type

  /** `needle in s` for strings: a substring test. */
  predicate ContainsText(s: string, needle: string)
    decreases |s|
  {
    needle <= s || (s != [] && ContainsText(s[1..], needle))
  }

  /** Python's `"choices" in j` on a value that supports `in`. */
  function HasChoices(j: JsonValue): (r: Option<bool>)
    ensures r.None? <==> !(j.JObject? || j.JArray? || j.JString?)
  {
    match j
    case JObject(fields) => Some("choices" in fields)
    case JArray(items) => Some(JString("choices") in items)
    case JString(s) => Some(ContainsText(s, "choices"))
    case _ => None
  }

  /** Python's `len(v)`, where it is defined. */
  function PyLen(v: JsonValue): (r: Option<nat>)
    ensures r.None? <==> !(v.JObject? || v.JArray? || v.JString?)
  {
    match v
    case JArray(items) => Some(|items|)
    case JString(s) => Some(|s|)
    case JObject(fields) => Some(|fields|)
    case _ => None
  }

  /** `d.get(key, default)` on a decoded object. */
  function Get(fields: map<string, JsonValue>, key: string, default: JsonValue): JsonValue {
    if key in fields then fields[key] else default
  }

  /** The `.get("message", {}).get("content", "").strip()` chain on the first choice. */
  function ContentOf(first: JsonValue): (r: Result<string, Fault>)
    ensures r.Success? ==> IsStripped(r.value)
  {
    if !first.JObject? then Failure(ShapeError(MessageGet, KindOf(first)))
    else
      var message := Get(first.fields, "message", JObject(map[]));
      if !message.JObject? then Failure(ShapeError(ContentGet, KindOf(message)))
      else
        var content := Get(message.fields, "content", JString(""));
        if !content.JString? then Failure(ShapeError(ContentStrip, KindOf(content)))
        else Success(Strip(content.s))
  }

  /** What `call_groq` returns for a decoded 200 response body `j`. */
  function Extract(j: JsonValue): (r: Result<string, Fault>)
    ensures r.Success? ==> IsStripped(r.value)
    ensures j.JObject? && "choices" !in j.fields ==> r == Success("")
    ensures j.JObject? && "choices" in j.fields && j.fields["choices"] == JArray([]) ==> r == Success("")
    ensures (j.JObject? && "choices" in j.fields && j.fields["choices"].JArray? && j.fields["choices"].items != []) ==>
              r == ContentOf(j.fields["choices"].items[0])
  {
    match HasChoices(j)
    case None => Failure(ShapeError(ChoicesTest, KindOf(j)))
    case Some(false) => Success("")
    case Some(true) =>
      if !j.JObject? then Failure(ShapeError(ChoicesIndex, KindOf(j)))
      else
        var choices := j.fields["choices"];
        match PyLen(choices)
        case None => Failure(ShapeError(ChoicesLength, KindOf(choices)))
        case Some(n) =>
          if n == 0 then Success("")
          else if choices.JObject? then Failure(ShapeError(FirstIndex, ObjectKind))
          else if choices.JString? then Failure(ShapeError(MessageGet, StringKind))
          else ContentOf(choices.items[0])
  }

  /**
   * A well-formed body, whatever other keys it and its parts carry (`id`,
   * `model`, `usage`, `role`, …): the first choice's content, stripped.
   */
  lemma ExtractsContent(top: map<string, JsonValue>, first: map<string, JsonValue>, rest: seq<JsonValue>,
                        message: map<string, JsonValue>, content: string)
    requires "choices" in top && top["choices"] == JArray([JObject(first)] + rest)
    requires "message" in first && first["message"] == JObject(message)
    requires "content" in message && message["content"] == JString(content)
    ensures Extract(JObject(top)) == Success(Strip(content))
  {
  }

  /** A number body raises at the `in` test, naming `int` or `float` as Python does. */
  lemma NumberBodyRaises()
    ensures Extract(JNumber("5")) == Failure(ShapeError(ChoicesTest, IntKind))
    ensures Extract(JNumber("5.0")) == Failure(ShapeError(ChoicesTest, FloatKind))
  {
    NumberKinds();
  }

  /** A first choice without `message`, or a message without `content`, reads as `""`. */
  lemma MissingPartsAreEmpty(first: map<string, JsonValue>)
    requires "message" !in first || (first["message"].JObject? && "content" !in first["message"].fields)
    ensures ContentOf(JObject(first)) == Success("")
  {
    assert Strip("") == "";
  }

  /** A `null` content is not `""`: `None.strip()` raises. */
  lemma NullContentRaises(first: map<string, JsonValue>)
    requires "message" in first && first["message"].JObject?
    requires "content" in first["message"].fields && first["message"].fields["content"] == JNull
    ensures ContentOf(JObject(first)) == Failure(ShapeError(ContentStrip, NullKind))
  {
  }
}
