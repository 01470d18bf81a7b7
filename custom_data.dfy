/**
 * The custom-data codec between the SDK's JSON-valued `CustomData` and the string map
 * Terraform stores. A nil map stays nil in both directions, distinct from an empty map.
 */
module CustomData {
  import opened Values

  /**
   * A JSON value held in `CustomData`. Strings and booleans are modelled exactly; numbers and
   * nested objects or arrays are `JOther`, carrying the text the foreign formatter produces
   * for them (`%v` for numbers, `json.Marshal` otherwise), or `None` when marshalling fails.
   */
  datatype JValue = JStr(s: string) | JBool(b: bool) | JOther(encoded: Option<string>)

  type Json = map<string, JValue>

  /** `fmt.Sprintf("%v", b)` for a boolean. */
  function FormatBool(b: bool): string
  {
    if b then "true" else "false"
  }

  /** The string one value converts to, or `None` when converting it fails. */
  function Render(v: JValue): Option<string>
  {
    match v
    case JStr(s) => Some(s)
    case JBool(b) => Some(FormatBool(b))
    case JOther(e) => e
  }

  predicate Renderable(m: Json)
  {
    forall k :: k in m ==> Render(m[k]).Some?
  }

  /** The converted string map of a map whose every value converts. */
  function RenderAll(m: Json): (r: map<string, string>)
    requires Renderable(m)
    ensures r.Keys == m.Keys
  {
    map k | k in m :: Render(m[k]).value
  }

  /** A string map viewed as custom data: every value a JSON string. */
  function FromStrings(m: map<string, string>): (r: Json)
    ensures r.Keys == m.Keys
  {
    map k | k in m :: JStr(m[k])
  }

  /** `CustomDataToMap`'s two results: a possibly-nil string map, or the key whose value failed. */
  datatype Conversion = Converted(tf: Option<map<string, string>>) | MarshalError(key: string)

  /**
   * `CustomDataToMap`: nil gives nil; otherwise every key is converted, strings unchanged and
   * booleans as "true"/"false"; a value that fails to marshal aborts with that key.
   * Go visits the keys in an unspecified order, so which failing key is reported is not fixed.
   */
  method CustomDataToMap(customData: Option<Json>) returns (r: Conversion)
    ensures customData.None? ==> r == Converted(None)
    ensures customData.Some? && Renderable(customData.value) ==>
      r == Converted(Some(RenderAll(customData.value)))
    ensures customData.Some? && !Renderable(customData.value) ==>
      r.MarshalError? && r.key in customData.value && Render(customData.value[r.key]).None?
  {
    if customData.None? {
      return Converted(None);
    }
    var data := customData.value;
    var result: map<string, string> := map[];
    var remaining := data.Keys;
    while remaining != {}
      invariant remaining <= data.Keys
      invariant result.Keys == data.Keys - remaining
      invariant forall k :: k in result ==> Render(data[k]) == Some(result[k])
      decreases remaining
    {
      var key :| key in remaining;
      var strValue: string;
      match data[key] {
        case JStr(s) =>
          strValue := s;
        case JBool(b) =>
          strValue := FormatBool(b);
        case JOther(encoded) =>
          if encoded.None? {
            return MarshalError(key);
          }
          strValue := encoded.value;
      }
      result := result[key := strValue];
      remaining := remaining - {key};
    }
    assert Renderable(data);
    assert result == RenderAll(data);
    return Converted(Some(result));
  }

  /** `MapToCustomData`: nil gives nil; otherwise every key and value is copied unchanged. */
  method MapToCustomData(tfMap: Option<map<string, string>>) returns (r: Option<Json>)
    ensures tfMap.None? ==> r.None?
    ensures tfMap.Some? ==> r == Some(FromStrings(tfMap.value))
  {
    if tfMap.None? {
      return None;
    }
    var source := tfMap.value;
    var customData: Json := map[];
    var remaining := source.Keys;
    while remaining != {}
      invariant remaining <= source.Keys
      invariant customData.Keys == source.Keys - remaining
      invariant forall k :: k in customData ==> customData[k] == JStr(source[k])
      decreases remaining
    {
      var key :| key in remaining;
      customData := customData[key := JStr(source[key])];
      remaining := remaining - {key};
    }
    assert customData == FromStrings(source);
    return Some(customData);
  }

  /** The state value Read stores for the custom data of a response whose every value converts. */
  function StateOf(customData: Option<Json>): (c: Cfg<map<string, string>>)
    requires customData.Some? ==> Renderable(customData.value)
    ensures c.Null? <==> customData.None?
    ensures customData.Some? ==> c == Known(RenderAll(customData.value))
  {
    if customData.Some? then Known(RenderAll(customData.value)) else Null
  }

  /**
   * The custom-data step of every Read: nil is stored as null, a converted map as a known map,
   * and a conversion failure as `None`, which the caller reports as an error.
   */
  method ReadCustomData(customData: Option<Json>) returns (r: Option<Cfg<map<string, string>>>)
    ensures r.None? <==> customData.Some? && !Renderable(customData.value)
    ensures r.Some? ==> r.value == StateOf(customData)
  {
    if customData.None? {
      return Some(Null);
    }
    var conversion := CustomDataToMap(customData);
    if conversion.MarshalError? {
      return None;
    }
    return Some(Known(conversion.tf.value));
  }

  /** Maps whose values are all strings or booleans always convert; only the marshal branch can fail. */
  lemma StringsAndBoolsConvert(m: Json)
    requires forall k :: k in m ==> m[k].JStr? || m[k].JBool?
    ensures Renderable(m)
    ensures forall k :: k in m && m[k].JStr? ==> RenderAll(m)[k] == m[k].s
    ensures forall k :: k in m && m[k].JBool? ==> RenderAll(m)[k] == (if m[k].b then "true" else "false")
  {
  }

  /** Round trip: converting a string map to custom data and back yields the same map. */
  lemma StringRoundTrip(m: map<string, string>)
    ensures Renderable(FromStrings(m))
    ensures RenderAll(FromStrings(m)) == m
  {
    var back := RenderAll(FromStrings(m));
    assert forall k :: k in m ==> back[k] == m[k];
  }

  /** The test table cases: strings pass through, booleans render as "true"/"false". */
  lemma ConversionTableCases()
    ensures RenderAll(map["key1" := JStr("value1"), "key2" := JStr("value2")]) == map["key1" := "value1", "key2" := "value2"]
    ensures RenderAll(map["string" := JStr("test"), "bool" := JBool(false)]) == map["string" := "test", "bool" := "false"]
    ensures RenderAll(map["enabled" := JBool(true)]) == map["enabled" := "true"]
  {
    var a := RenderAll(map["key1" := JStr("value1"), "key2" := JStr("value2")]);
    assert a.Keys == {"key1", "key2"};
    var b := RenderAll(map["string" := JStr("test"), "bool" := JBool(false)]);
    assert b.Keys == {"string", "bool"};
  }
}
