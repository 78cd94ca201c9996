/**
  The UTM utility of the lead tracker. The page's query string is an abstract
  key-to-value map (what `URLSearchParams.get` answers for each key); a page
  without a browser window has no query at all. Each of the six campaign fields
  is looked up under its snake_case key first and its camelCase key second, and
  the first value that is present and non-empty wins.
 */
module Utm {
  import opened Wrappers

  /** The value of each query parameter, as `URLSearchParams.get` returns it. */
  type Query = map<string, string>

  /** A JavaScript value as it appears in an analytics payload: a string or `null`. */
  datatype JsValue = Str(s: string) | Null

  /** A plain JavaScript object with string keys. */
  type Record = map<string, JsValue>

  /** `urlParams.get(key)`: the value, or `null` when the key is absent. */
  function Get(query: Query, key: string): (r: Option<string>)
    ensures r.Some? <==> key in query
    ensures r.Some? ==> r.value == query[key]
  {
    if key in query then Some(query[key]) else None
  }

  /** JavaScript truthiness of a string-or-null: `null` and `""` are falsy. */
  predicate Truthy(v: Option<string>): (b: bool)
    ensures !b <==> v == None || v == Some("")
  {
    v.Some? && v.value != ""
  }

  /** The first truthy value among the keys, in order. */
  function FirstTruthy(query: Query, keys: seq<string>): (r: Option<string>)
    ensures r.Some? <==> exists i :: 0 <= i < |keys| && Truthy(Get(query, keys[i]))
    ensures r.Some? ==> exists i :: 0 <= i < |keys| && r == Get(query, keys[i]) && Truthy(r) &&
                                 (forall j :: 0 <= j < i ==> !Truthy(Get(query, keys[j])))
  {
    if keys == [] then None
    else if Truthy(Get(query, keys[0])) then Get(query, keys[0])
    else
      var r := FirstTruthy(query, keys[1..]);
      assert forall i :: 1 <= i < |keys| ==> keys[i] == keys[1..][i - 1];
      r
  }

  /** `getParam(keys)`: tries the keys in order and returns the first value
      that is present and non-empty, or `null`. */
  method GetParam(query: Query, keys: seq<string>) returns (r: Option<string>)
    ensures r == FirstTruthy(query, keys)
  {
    for i := 0 to |keys|
      invariant FirstTruthy(query, keys) == FirstTruthy(query, keys[i..])
    {
      assert keys[i..][1..] == keys[i + 1..];
      var val := Get(query, keys[i]);
      if Truthy(val) {
        return val;
      }
    }
    return None;
  }

  /** The two-key rule spelled out: the primary key's value if it is
      non-empty, else the fallback key's value if that is non-empty, else none. */
  function Preferred(query: Query, primary: string, fallback: string): Option<string> {
    if primary in query && query[primary] != "" then Some(query[primary])
    else if fallback in query && query[fallback] != "" then Some(query[fallback])
    else None
  }

  /** Looking up a snake_case key and then its camelCase key is the two-key
      rule: the primary key wins when it has a value, and an empty primary
      value falls through to the fallback key. */
  lemma TwoKeyLookup(query: Query, primary: string, fallback: string)
    ensures FirstTruthy(query, [primary, fallback]) == Preferred(query, primary, fallback)
  {
    var keys := [primary, fallback];
    assert keys[1..] == [fallback];
    assert keys[1..][1..] == [];
  }

  /** `null` for no value, the string otherwise. */
  function JsOf(v: Option<string>): JsValue {
    if v.Some? then Str(v.value) else Null
  }

  /** The field names of a UTM record; each is also the primary query key. */
  const UtmFields: set<string> :=
    {"utm_source", "utm_medium", "utm_campaign", "utm_keyword", "utm_term", "utm_content"}

  /** A UTM record read from a query: all six fields, each resolved by the
      two-key rule. */
  ghost predicate ResolvedFrom(utm: Record, query: Query) {
    && utm.Keys == UtmFields
    && utm["utm_source"] == JsOf(Preferred(query, "utm_source", "utmSource"))
    && utm["utm_medium"] == JsOf(Preferred(query, "utm_medium", "utmMedium"))
    && utm["utm_campaign"] == JsOf(Preferred(query, "utm_campaign", "utmCampaign"))
    && utm["utm_keyword"] == JsOf(Preferred(query, "utm_keyword", "utmKeyword"))
    && utm["utm_term"] == JsOf(Preferred(query, "utm_term", "utmTerm"))
    && utm["utm_content"] == JsOf(Preferred(query, "utm_content", "utmContent"))
  }

  /** `getUTMParams()`. Without a window it returns the empty object, not an
      object of six nulls; with one, every field is resolved by the two-key rule. */
  method GetUTMParams(window: Option<Query>) returns (utm: Record)
    ensures window.None? ==> utm == map[]
    ensures window.Some? ==> ResolvedFrom(utm, window.value)
    ensures utm.Keys <= UtmFields
  {
    if window.None? {
      return map[];
    }
    var query := window.value;
    var source := GetParam(query, ["utm_source", "utmSource"]);
    var medium := GetParam(query, ["utm_medium", "utmMedium"]);
    var campaign := GetParam(query, ["utm_campaign", "utmCampaign"]);
    var keyword := GetParam(query, ["utm_keyword", "utmKeyword"]);
    var term := GetParam(query, ["utm_term", "utmTerm"]);
    var content := GetParam(query, ["utm_content", "utmContent"]);
    TwoKeyLookup(query, "utm_source", "utmSource");
    TwoKeyLookup(query, "utm_medium", "utmMedium");
    TwoKeyLookup(query, "utm_campaign", "utmCampaign");
    TwoKeyLookup(query, "utm_keyword", "utmKeyword");
    TwoKeyLookup(query, "utm_term", "utmTerm");
    TwoKeyLookup(query, "utm_content", "utmContent");
    utm := UtmRecord(source, medium, campaign, keyword, term, content);
  }

  /** The object literal that `getUTMParams` builds from the six lookups. */
  function UtmRecord(source: Option<string>, medium: Option<string>, campaign: Option<string>,
                     keyword: Option<string>, term: Option<string>, content: Option<string>): (utm: Record)
    ensures utm.Keys == UtmFields
    ensures utm["utm_source"] == JsOf(source) && utm["utm_medium"] == JsOf(medium)
    ensures utm["utm_campaign"] == JsOf(campaign) && utm["utm_keyword"] == JsOf(keyword)
    ensures utm["utm_term"] == JsOf(term) && utm["utm_content"] == JsOf(content)
  {
    map[
      "utm_source" := JsOf(source),
      "utm_medium" := JsOf(medium),
      "utm_campaign" := JsOf(campaign),
      "utm_keyword" := JsOf(keyword),
      "utm_term" := JsOf(term),
      "utm_content" := JsOf(content)
    ]
  }

  /** The six (snake_case, camelCase) key pairs, one per UTM field. */
  const UtmKeyPairs: set<(string, string)> := {
    ("utm_source", "utmSource"), ("utm_medium", "utmMedium"), ("utm_campaign", "utmCampaign"),
    ("utm_keyword", "utmKeyword"), ("utm_term", "utmTerm"), ("utm_content", "utmContent")
  }

  /** For every one of the six fields: when the snake_case key is missing or
      empty and the camelCase key has a value, the field holds that value,
      under its snake_case name. */
  lemma CamelCaseOnly(query: Query, utm: Record, snake: string, camel: string)
    requires ResolvedFrom(utm, query)
    requires (snake, camel) in UtmKeyPairs
    requires snake !in query || query[snake] == ""
    requires camel in query && query[camel] != ""
    ensures snake in utm && utm[snake] == Str(query[camel])
  {
  }
}
