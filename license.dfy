/** The License Object of the OpenAPI Specification 3.0.2 (section 4.7.4): the `License`
    interface with its projection, and its basic implementation `LicenseImpl`. */
module Licenses {
  import opened Wrappers
  import opened Json
  import opened JavaText

  /** What the `License` getters return. */
  datatype License = License(name: Option<string>, url: Option<Url>)

  const NameMissing := "Name has not been defined"
  const NameRejected := "Name cannot be null or blank"

  /** `License.toJsonObject`: fails exactly when the name is null or trims to nothing;
      otherwise holds the name and, when set, the URL's external form, and nothing else. */
  function ToJsonObject(l: License): (r: Result<map<string, Json>, string>)
    ensures r.Failure? <==> !Defined(l.name)
    ensures r.Failure? ==> r.error == NameMissing
    ensures r.Success? ==> r.value.Keys <= {"name", "url"} && ("url" in r.value <==> l.url.Some?)
    ensures r.Success? ==> "name" in r.value && r.value["name"] == Str(l.name.value)
    ensures r.Success? && l.url.Some? ==> r.value["url"] == Str(l.url.value.externalForm)
  {
    if !Defined(l.name) then Failure(NameMissing)
    else
      var m := PutOpt(map[], "name", StrOpt(l.name));
      Success(if l.url.Some? then PutOpt(m, "url", UrlOpt(l.url)) else m)
  }

  /** Reads a license back from a JSON object: a string name that does not trim to nothing,
      an optional string URL, no other key. */
  function FromJsonObject(m: map<string, Json>): Option<License> {
    if !(m.Keys <= {"name", "url"}) then None
    else
      var name :- StrMember(m, "name");
      var url :- UrlMember(m, "url");
      if Defined(name) then Some(License(name, url)) else None
  }

  /** A successful projection keeps every field: reading it back gives the license. */
  lemma RoundTrip(l: License)
    requires ToJsonObject(l).Success?
    ensures FromJsonObject(ToJsonObject(l).value) == Some(l)
  {
    var m := ToJsonObject(l).value;
    assert m.Keys <= {"name", "url"};
    assert StrMember(m, "name") == Some(l.name);
    assert UrlMember(m, "url") == Some(l.url);
  }

  /** Every object that reads back as a license is that license's projection. */
  lemma FromJsonObjectIsProjection(m: map<string, Json>, l: License)
    requires FromJsonObject(m) == Some(l)
    ensures ToJsonObject(l) == Success(m)
  {
    FromJsonObjectMembers(m, l);
    var r := ToJsonObject(l).value;
    assert Agree(r, m, "name") && Agree(r, m, "url");
    SameMembers(r, m);
  }

  /** Two objects over license keys that agree on each of them are the same. */
  lemma SameMembers(a: map<string, Json>, b: map<string, Json>)
    requires a.Keys <= {"name", "url"} && b.Keys <= {"name", "url"}
    requires Agree(a, b, "name") && Agree(a, b, "url")
    ensures a == b
  {
    assert a.Keys == b.Keys;
  }

  /** What a license read back from `m` says about the members of `m`. */
  lemma FromJsonObjectMembers(m: map<string, Json>, l: License)
    requires FromJsonObject(m) == Some(l)
    ensures Defined(l.name) && "name" in m && m["name"] == Str(l.name.value)
    ensures m.Keys <= {"name", "url"}
    ensures "url" in m <==> l.url.Some?
    ensures l.url.Some? ==> m["url"] == Str(l.url.value.externalForm)
  {
  }

  class LicenseImpl {
    var name: Option<string>
    var url: Option<Url>

    /** Every license the class hands out has a name `setName` accepted. */
    ghost predicate Valid()
      reads this
    {
      Accepted(name)
    }

    /** What the getters return. */
    function Value(): License
      reads this
    {
      License(name, url)
    }

    /** The object a successful constructor call leaves behind. */
    constructor (name: Option<string>, url: Option<Url>)
      requires Accepted(name)
      ensures Valid() && Value() == License(name, url)
    {
      this.name, this.url := name, url;
    }

    /** `LicenseImpl(name, url)`: fails on a null or blank name, as `setName` does. */
    static method Create(name: Option<string>, url: Option<Url>) returns (r: Result<LicenseImpl, string>)
      ensures r.Success? <==> Accepted(name)
      ensures r.Failure? ==> r.error == NameRejected
      ensures r.Success? ==> fresh(r.value) && r.value.Valid() && r.value.Value() == License(name, url)
    {
      if name.None? || IsBlank(name.value) {
        return Failure(NameRejected);
      }
      var l := new LicenseImpl(name, url);
      return Success(l);
    }

    /** `LicenseImpl(name)`: as above, with a null URL. */
    static method CreateNamed(name: Option<string>) returns (r: Result<LicenseImpl, string>)
      ensures r.Success? <==> Accepted(name)
      ensures r.Failure? ==> r.error == NameRejected
      ensures r.Success? ==> fresh(r.value) && r.value.Valid() && r.value.Value() == License(name, None)
    {
      r := Create(name, None);
    }

    /** `setName`: rejects a null or blank name and then changes nothing; otherwise stores it.
        Either way the object stays valid. */
    method SetName(name: Option<string>) returns (r: Outcome<string>)
      modifies this
      ensures r.Pass? <==> Accepted(name)
      ensures r.Fail? ==> r.error == NameRejected && Value() == old(Value())
      ensures r.Pass? ==> Value() == old(Value()).(name := name)
      ensures old(Valid()) ==> Valid()
    {
      if name.None? || IsBlank(name.value) {
        return Fail(NameRejected);
      }
      this.name := name;
      return Pass;
    }

    /** `setUrl`: stores any value, null included, and leaves the name alone. */
    method SetUrl(url: Option<Url>)
      modifies this
      ensures Value() == old(Value()).(url := url)
      ensures Valid() == old(Valid())
    {
      this.url := url;
    }

    /** The fluent `name(..)`: `setName`, then the same license, or `setName`'s failure. */
    method Name(name: Option<string>) returns (r: Result<LicenseImpl, string>)
      modifies this
      ensures r.Success? <==> Accepted(name)
      ensures r.Success? ==> r.value == this && Value() == old(Value()).(name := name)
      ensures r.Failure? ==> r.error == NameRejected && Value() == old(Value())
      ensures old(Valid()) ==> Valid()
    {
      var outcome := SetName(name);
      if outcome.Fail? {
        return Failure(outcome.error);
      }
      return Success(this);
    }

    /** The fluent `url(..)`: `setUrl`, then the same license. */
    method Url(url: Option<Url>) returns (self: LicenseImpl)
      modifies this
      ensures self == this
      ensures Value() == old(Value()).(url := url)
      ensures Valid() == old(Valid())
    {
      SetUrl(url);
      self := this;
    }
  }
}
