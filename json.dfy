/** The JSON values the projections build (an org.json `JSONObject` is an unordered map from
    keys to values), and `java.net.URL`, represented by its external form. */
module Json {
  import opened Wrappers

  datatype Json = Str(s: string) | Obj(members: map<string, Json>)

  /** A parsed URL; only its external form reaches the JSON output. */
  datatype Url = Url(externalForm: string)

  /** `JSONObject.putOpt`: insert the pair unless the value is null. */
  function PutOpt(m: map<string, Json>, key: string, v: Option<Json>): map<string, Json> {
    if v.Some? then m[key := v.value] else m
  }

  /** A nullable string as the value handed to `putOpt`. */
  function StrOpt(s: Option<string>): Option<Json> {
    if s.Some? then Some(Str(s.value)) else None
  }

  /** A nullable URL as its external form, or null. */
  function UrlOpt(u: Option<Url>): Option<Json> {
    if u.Some? then Some(Str(u.value.externalForm)) else None
  }

  /** The objects `a` and `b` agree on the key `k`: both lack it, or both map it to the same value. */
  predicate Agree(a: map<string, Json>, b: map<string, Json>, k: string) {
    (k in a <==> k in b) && (k in a ==> a[k] == b[k])
  }

  /** Reads an optional string member back: `None` when the member is there but is not a
      string, `Some(None)` when it is absent. */
  function StrMember(m: map<string, Json>, key: string): (r: Option<Option<string>>)
    ensures r == Some(None) <==> key !in m
    ensures r.Some? && r.value.Some? <==> key in m && m[key].Str?
    ensures r.Some? && r.value.Some? ==> m[key] == Str(r.value.value)
  {
    if key !in m then Some(None)
    else if m[key].Str? then Some(Some(m[key].s))
    else None
  }

  /** Reads an optional URL member back from its external form. */
  function UrlMember(m: map<string, Json>, key: string): (r: Option<Option<Url>>)
    ensures r == Some(None) <==> key !in m
    ensures r.Some? && r.value.Some? <==> key in m && m[key].Str?
    ensures r.Some? && r.value.Some? ==> m[key] == Str(r.value.value.externalForm)
  {
    var s :- StrMember(m, key);
    Some(if s.Some? then Some(Url(s.value)) else None)
  }

  /** What a string member reader found says what the member is. */
  lemma StrMemberIs(m: map<string, Json>, key: string, v: Option<string>)
    requires StrMember(m, key) == Some(v)
    ensures key in m <==> v.Some?
    ensures v.Some? ==> m[key] == Str(v.value)
  {
  }

  /** What a URL member reader found says what the member is. */
  lemma UrlMemberIs(m: map<string, Json>, key: string, v: Option<Url>)
    requires UrlMember(m, key) == Some(v)
    ensures key in m <==> v.Some?
    ensures v.Some? ==> m[key] == Str(v.value.externalForm)
  {
  }
}
