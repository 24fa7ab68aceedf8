/**
 * The values `json.loads` produces, as far as the pipeline looks at them.
 * `json.loads` itself is not modelled: callers receive it as a function from
 * text to an optional value (`None` where Python raises a decoding error).
 */
module Json {

  datatype JsonValue =
    | JNull
    | JBool(b: bool)
    | JNumber(literal: string)       // the number's text, which decides `int` or `float`
    | JString(s: string)
    | JArray(items: seq<JsonValue>)
    | JObject(fields: map<string, JsonValue>)

  /** The Python type of a decoded value: what `isinstance` and attribute lookups see. */
  datatype Kind = NullKind | BoolKind | IntKind | FloatKind | StringKind | ArrayKind | ObjectKind

  /**
   * `json.loads` makes a `float` of a number with a fraction or an exponent
   * part, and of the constants `NaN`, `Infinity` and `-Infinity`; every other
   * number literal becomes an `int`.
   */
  predicate IsFloatLiteral(literal: string) {
    '.' in literal || 'e' in literal || 'E' in literal
      || literal == "NaN" || literal == "Infinity" || literal == "-Infinity"
  }

  function KindOf(v: JsonValue): (k: Kind)
    ensures k == StringKind <==> v.JString?
    ensures k == ArrayKind <==> v.JArray?
    ensures k == ObjectKind <==> v.JObject?
    ensures k == IntKind || k == FloatKind <==> v.JNumber?
  {
    match v
    case JNull => NullKind
    case JBool(_) => BoolKind
    case JNumber(literal) => if IsFloatLiteral(literal) then FloatKind else IntKind
    case JString(_) => StringKind
    case JArray(_) => ArrayKind
    case JObject(_) => ObjectKind
  }

  /** `5` decodes to an `int` and `5.0` or `5e0` to a `float`. */
  lemma NumberKinds()
    ensures KindOf(JNumber("5")) == IntKind
    ensures KindOf(JNumber("5.0")) == FloatKind && KindOf(JNumber("5e0")) == FloatKind
  {
    assert "5.0"[1] == '.';
    assert "5e0"[1] == 'e';
    assert forall i :: 0 <= i < |"5"| ==> "5"[i] == '5';
  }
}
