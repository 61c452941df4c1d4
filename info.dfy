/** The Info Object of the OpenAPI Specification 3.0.2 (section 4.7.2): the `Info` interface
    with its projection and get-or-initialise accessors, and its basic implementation `InfoImpl`. */
module Infos {
  import opened Wrappers
  import opened Json
  import opened JavaText
  import Contacts
  import Licenses

  /** What the `Info` getters return, with the contact and the license read through. */
  datatype Info = Info(
    title: Option<string>,
    version: Option<string>,
    description: Option<string>,
    termsOfService: Option<Url>,
    contact: Option<Contacts.Contact>,
    license: Option<Licenses.License>)

  const TitleMissing := "Title has not been defined"
  const VersionMissing := "Version has not been defined"
  const TitleRejected := "Title cannot be null or blank"
  const VersionRejected := "Version cannot be null or blank"

  /** The keys an info's projection may hold. */
  const Keys: set<string> := {"title", "version", "description", "termsOfService", "contact", "license"}

  /** The keys one by one. */
  lemma KeyCases(k: string)
    requires k in Keys
    ensures k == "title" || k == "version" || k == "description" || k == "termsOfService" || k == "contact" || k == "license"
  {
  }

  /** The nested contact object, or null. */
  function ContactOpt(c: Option<Contacts.Contact>): Option<Json> {
    if c.Some? then Some(Obj(Contacts.ToJsonObject(c.value))) else None
  }

  /** The nested license object, null, or the license's failure. */
  function LicenseOpt(l: Option<Licenses.License>): Result<Option<Json>, string> {
    if l.None? then Success(None)
    else
      var m :- Licenses.ToJsonObject(l.value);
      Success(Some(Obj(m)))
  }

  /** `Info.toJsonObject`. It fails on a missing title, then on a missing version (null or
      trimming to nothing), then with the license's own failure; the contact cannot fail.
      On success it maps "title" and "version" to the strings, holds each optional key
      exactly when its field is set, and nests the contact's and the license's projections. */
  function ToJsonObject(i: Info): (r: Result<map<string, Json>, string>)
    ensures !Defined(i.title) ==> r == Failure(TitleMissing)
    ensures Defined(i.title) && !Defined(i.version) ==> r == Failure(VersionMissing)
    ensures (Defined(i.title) && Defined(i.version) && i.license.Some? && !Defined(i.license.value.name))
              ==> r == Failure(Licenses.NameMissing)
    ensures r.Success? <==>
              Defined(i.title) && Defined(i.version) && (i.license.Some? ==> Defined(i.license.value.name))
    ensures r.Success? ==> r.value.Keys <= Keys
    ensures r.Success? ==> "title" in r.value && r.value["title"] == Str(i.title.value)
    ensures r.Success? ==> "version" in r.value && r.value["version"] == Str(i.version.value)
    ensures r.Success? ==> ("description" in r.value <==> i.description.Some?)
    ensures r.Success? && i.description.Some? ==> r.value["description"] == Str(i.description.value)
    ensures r.Success? ==> ("termsOfService" in r.value <==> i.termsOfService.Some?)
    ensures r.Success? && i.termsOfService.Some? ==>
              r.value["termsOfService"] == Str(i.termsOfService.value.externalForm)
    ensures r.Success? ==> ("contact" in r.value <==> i.contact.Some?)
    ensures r.Success? && i.contact.Some? ==> r.value["contact"] == Obj(Contacts.ToJsonObject(i.contact.value))
    ensures r.Success? ==> ("license" in r.value <==> i.license.Some?)
    ensures r.Success? && i.license.Some? ==>
              r.value["license"] == Obj(Licenses.ToJsonObject(i.license.value).value)
  {
    if !Defined(i.title) then Failure(TitleMissing)
    else if !Defined(i.version) then Failure(VersionMissing)
    else
      var license :- LicenseOpt(i.license);
      Success(Members(i.title.value, i.version.value, i.description, i.termsOfService, ContactOpt(i.contact), license))
  }

  /** The `putOpt` calls of a successful `Info.toJsonObject`, in order. */
  function Members(title: string, version: string, description: Option<string>, termsOfService: Option<Url>,
                   contact: Option<Json>, license: Option<Json>): (r: map<string, Json>)
    ensures r.Keys <= Keys
    ensures "title" in r && r["title"] == Str(title)
    ensures "version" in r && r["version"] == Str(version)
    ensures "description" in r <==> description.Some?
    ensures description.Some? ==> r["description"] == Str(description.value)
    ensures "termsOfService" in r <==> termsOfService.Some?
    ensures termsOfService.Some? ==> r["termsOfService"] == Str(termsOfService.value.externalForm)
    ensures "contact" in r <==> contact.Some?
    ensures contact.Some? ==> r["contact"] == contact.value
    ensures "license" in r <==> license.Some?
    ensures license.Some? ==> r["license"] == license.value
  {
    var m := PutOpt(map[], "title", Some(Str(title)));
    var m := PutOpt(m, "version", Some(Str(version)));
    var m := PutOpt(m, "description", StrOpt(description));
    var m := if termsOfService.Some? then PutOpt(m, "termsOfService", UrlOpt(termsOfService)) else m;
    var m := if contact.Some? then PutOpt(m, "contact", contact) else m;
    if license.Some? then PutOpt(m, "license", license) else m
  }

  /** Reads an optional nested contact back. */
  function ContactMember(m: map<string, Json>): Option<Option<Contacts.Contact>> {
    if "contact" !in m then Some(None)
    else if m["contact"].Obj? then
      var c :- Contacts.FromJsonObject(m["contact"].members);
      Some(Some(c))
    else None
  }

  /** Reads an optional nested license back. */
  function LicenseMember(m: map<string, Json>): Option<Option<Licenses.License>> {
    if "license" !in m then Some(None)
    else if m["license"].Obj? then
      var l :- Licenses.FromJsonObject(m["license"].members);
      Some(Some(l))
    else None
  }

  /** Reads an info back from a JSON object: only info keys, string title and version that do
      not trim to nothing, optional string description and terms of service, and nested objects
      that read back as a contact and a license. */
  function FromJsonObject(m: map<string, Json>): Option<Info> {
    if !(m.Keys <= Keys) then None
    else
      var title :- StrMember(m, "title");
      var version :- StrMember(m, "version");
      var description :- StrMember(m, "description");
      var termsOfService :- UrlMember(m, "termsOfService");
      var contact :- ContactMember(m);
      var license :- LicenseMember(m);
      if Defined(title) && Defined(version) then
        Some(Info(title, version, description, termsOfService, contact, license))
      else None
  }

  /** A successful projection keeps every field, nested ones included: reading it back gives
      the info. */
  lemma RoundTrip(i: Info)
    requires ToJsonObject(i).Success?
    ensures FromJsonObject(ToJsonObject(i).value) == Some(i)
  {
    var m := ToJsonObject(i).value;
    if i.contact.Some? {
      Contacts.RoundTrip(i.contact.value);
    }
    if i.license.Some? {
      Licenses.RoundTrip(i.license.value);
    }
    assert ContactMember(m) == Some(i.contact);
    assert LicenseMember(m) == Some(i.license);
  }

  /** What the member readers found says what the members of `m` are. */
  lemma FromJsonObjectMembers(m: map<string, Json>, i: Info)
    requires i.title.Some? && i.version.Some?
    requires StrMember(m, "title") == Some(i.title) && StrMember(m, "version") == Some(i.version)
    requires StrMember(m, "description") == Some(i.description)
    requires UrlMember(m, "termsOfService") == Some(i.termsOfService)
    requires ContactMember(m) == Some(i.contact) && LicenseMember(m) == Some(i.license)
    ensures "title" in m && m["title"] == Str(i.title.value)
    ensures "version" in m && m["version"] == Str(i.version.value)
    ensures "description" in m <==> i.description.Some?
    ensures i.description.Some? ==> m["description"] == Str(i.description.value)
    ensures "termsOfService" in m <==> i.termsOfService.Some?
    ensures i.termsOfService.Some? ==> m["termsOfService"] == Str(i.termsOfService.value.externalForm)
    ensures "contact" in m <==> i.contact.Some?
    ensures i.contact.Some? ==> m["contact"].Obj? && Contacts.FromJsonObject(m["contact"].members) == i.contact
    ensures "license" in m <==> i.license.Some?
    ensures i.license.Some? ==> m["license"].Obj? && Licenses.FromJsonObject(m["license"].members) == i.license
  {
    StrMemberIs(m, "title", i.title);
    StrMemberIs(m, "version", i.version);
    StrMemberIs(m, "description", i.description);
    UrlMemberIs(m, "termsOfService", i.termsOfService);
  }

  /** An info read back from `m` is made of what each member reader found. */
  lemma FromJsonObjectParts(m: map<string, Json>, i: Info)
    requires FromJsonObject(m) == Some(i)
    ensures m.Keys <= Keys && Defined(i.title) && Defined(i.version)
    ensures StrMember(m, "title") == Some(i.title) && StrMember(m, "version") == Some(i.version)
    ensures StrMember(m, "description") == Some(i.description)
    ensures UrlMember(m, "termsOfService") == Some(i.termsOfService)
    ensures ContactMember(m) == Some(i.contact) && LicenseMember(m) == Some(i.license)
  {
    var title, version := StrMember(m, "title"), StrMember(m, "version");
    var description, termsOfService := StrMember(m, "description"), UrlMember(m, "termsOfService");
    var contact, license := ContactMember(m), LicenseMember(m);
    assert title.Some? && version.Some? && description.Some? && termsOfService.Some?;
    assert contact.Some? && license.Some?;
    assert i == Info(title.value, version.value, description.value, termsOfService.value, contact.value, license.value);
  }

  /** Every object that reads back as an info is that info's projection. */
  lemma FromJsonObjectIsProjection(m: map<string, Json>, i: Info)
    requires FromJsonObject(m) == Some(i)
    ensures ToJsonObject(i) == Success(m)
  {
    FromJsonObjectParts(m, i);
    PartsDescribe(m, i);
    DescribedProjects(m, i);
  }

  /** The nested license object of `m`, if any. */
  function LicenseJson(m: map<string, Json>): Option<Json> {
    if "license" in m then Some(m["license"]) else None
  }

  /** `m` holds exactly the members a successful projection of `i` puts, the nested contact's
      and license's projections included. */
  predicate Describes(m: map<string, Json>, i: Info) {
    && m.Keys <= Keys && i.title.Some? && i.version.Some?
    && "title" in m && m["title"] == Str(i.title.value)
    && "version" in m && m["version"] == Str(i.version.value)
    && ("description" in m <==> i.description.Some?)
    && (i.description.Some? ==> m["description"] == Str(i.description.value))
    && ("termsOfService" in m <==> i.termsOfService.Some?)
    && (i.termsOfService.Some? ==> m["termsOfService"] == Str(i.termsOfService.value.externalForm))
    && ("contact" in m <==> i.contact.Some?)
    && (i.contact.Some? ==> m["contact"] == Obj(Contacts.ToJsonObject(i.contact.value)))
    && ("license" in m <==> i.license.Some?)
    && LicenseOpt(i.license) == Success(LicenseJson(m))
  }

  /** What the member readers found, read through the nested inverses, describes `m`. */
  lemma PartsDescribe(m: map<string, Json>, i: Info)
    requires m.Keys <= Keys && i.title.Some? && i.version.Some?
    requires StrMember(m, "title") == Some(i.title) && StrMember(m, "version") == Some(i.version)
    requires StrMember(m, "description") == Some(i.description)
    requires UrlMember(m, "termsOfService") == Some(i.termsOfService)
    requires ContactMember(m) == Some(i.contact) && LicenseMember(m) == Some(i.license)
    ensures Describes(m, i)
  {
    FromJsonObjectMembers(m, i);
    if i.contact.Some? {
      Contacts.FromJsonObjectIsProjection(m["contact"].members, i.contact.value);
    }
    if i.license.Some? {
      Licenses.FromJsonObjectIsProjection(m["license"].members, i.license.value);
    }
  }

  /** An info with a defined title and version projects to any object that describes it. */
  lemma DescribedProjects(m: map<string, Json>, i: Info)
    requires Defined(i.title) && Defined(i.version) && Describes(m, i)
    ensures ToJsonObject(i) == Success(m)
  {
    MembersOfInfo(m, i);
  }

  /** The members of an object that describes `i` are the ones `Members` puts for `i`. */
  lemma MembersOfInfo(m: map<string, Json>, i: Info)
    requires Describes(m, i)
    ensures Members(i.title.value, i.version.value, i.description, i.termsOfService, ContactOpt(i.contact), LicenseJson(m)) == m
  {
    MembersOf(m, i.title.value, i.version.value, i.description, i.termsOfService, ContactOpt(i.contact), LicenseJson(m));
  }

  /** The members `Members` puts are all it puts: an object over info keys holding exactly
      them is its result. */
  lemma MembersOf(m: map<string, Json>, title: string, version: string, description: Option<string>,
                  termsOfService: Option<Url>, contact: Option<Json>, license: Option<Json>)
    requires m.Keys <= Keys
    requires "title" in m && m["title"] == Str(title)
    requires "version" in m && m["version"] == Str(version)
    requires "description" in m <==> description.Some?
    requires description.Some? ==> m["description"] == Str(description.value)
    requires "termsOfService" in m <==> termsOfService.Some?
    requires termsOfService.Some? ==> m["termsOfService"] == Str(termsOfService.value.externalForm)
    requires "contact" in m <==> contact.Some?
    requires contact.Some? ==> m["contact"] == contact.value
    requires "license" in m <==> license.Some?
    requires license.Some? ==> m["license"] == license.value
    ensures Members(title, version, description, termsOfService, contact, license) == m
  {
    var r := Members(title, version, description, termsOfService, contact, license);
    assert Agree(r, m, "title") && Agree(r, m, "version");
    assert Agree(r, m, "description") && Agree(r, m, "termsOfService");
    assert Agree(r, m, "contact") && Agree(r, m, "license");
    SameMembers(r, m);
  }

  /** Two objects over info keys that agree on each of them are the same. */
  lemma SameMembers(a: map<string, Json>, b: map<string, Json>)
    requires a.Keys <= Keys && b.Keys <= Keys
    requires Agree(a, b, "title") && Agree(a, b, "version") && Agree(a, b, "description")
    requires Agree(a, b, "termsOfService") && Agree(a, b, "contact") && Agree(a, b, "license")
    ensures a == b
  {
    forall k | k in a ensures k in b && a[k] == b[k] {
      KeyCases(k);
    }
    forall k | k in b ensures k in a {
      KeyCases(k);
    }
  }

  /** An info whose required strings (the license name included) passed the setters projects
      successfully, provided they hold no bare control characters. */
  lemma ProjectsWhenAccepted(i: Info)
    requires Accepted(i.title) && NoBareControls(i.title.value)
    requires Accepted(i.version) && NoBareControls(i.version.value)
    requires i.license.Some? ==> Accepted(i.license.value.name) && NoBareControls(i.license.value.name.value)
    ensures ToJsonObject(i).Success?
  {
  }

  /** The state `InfoImpl(title, version)` leaves behind projects to the title and the
      version alone, when both are defined. */
  lemma NewInfoProjection(title: string, version: string)
    requires Defined(Some(title)) && Defined(Some(version))
    ensures ToJsonObject(Info(Some(title), Some(version), None, None, None, None))
              == Success(map["title" := Str(title), "version" := Str(version)])
  {
  }

  /** Without that proviso the projection can fail on an info that `InfoImpl` built: a title
      of U+0001 is not blank, yet trims to nothing. */
  lemma AcceptedTitleMayFailProjection()
    ensures Accepted(Some("\U{1}"))
    ensures ToJsonObject(Info(Some("\U{1}"), Some("1.0.0"), None, None, None, None)) == Failure(TitleMissing)
  {
    AcceptedAndDefinedDiffer();
  }

  class InfoImpl {
    var title: Option<string>
    var version: Option<string>
    var description: Option<string>
    var termsOfService: Option<Url>
    var contact: Contacts.ContactImpl?
    var license: Licenses.LicenseImpl?

    /** Title and version always hold strings the guarded setters accepted. */
    ghost predicate Valid()
      reads this
    {
      Accepted(title) && Accepted(version)
    }

    /** What the getters return, with the contact and the license read through. */
    function Value(): Info
      reads this, contact, license
    {
      Info(title, version, description, termsOfService,
           if contact == null then None else Some(contact.Value()),
           if license == null then None else Some(license.Value()))
    }

    /** The object a successful constructor call leaves behind. */
    constructor (title: Option<string>, version: Option<string>)
      requires Accepted(title) && Accepted(version)
      ensures Valid() && contact == null && license == null
      ensures Value() == Info(title, version, None, None, None, None)
    {
      this.title, this.version := title, version;
      description, termsOfService, contact, license := None, None, null, null;
    }

    /** `InfoImpl(title, version)`: `setTitle`, then `setVersion`, so a bad title is reported
        first; afterwards the optional fields are all null. */
    static method Create(title: Option<string>, version: Option<string>) returns (r: Result<InfoImpl, string>)
      ensures r.Success? <==> Accepted(title) && Accepted(version)
      ensures !Accepted(title) ==> r == Failure(TitleRejected)
      ensures Accepted(title) && !Accepted(version) ==> r == Failure(VersionRejected)
      ensures r.Success? ==> fresh(r.value) && r.value.Valid()
      ensures r.Success? ==> r.value.contact == null && r.value.license == null
      ensures r.Success? ==> r.value.Value() == Info(title, version, None, None, None, None)
    {
      if title.None? || IsBlank(title.value) {
        return Failure(TitleRejected);
      }
      if version.None? || IsBlank(version.value) {
        return Failure(VersionRejected);
      }
      var i := new InfoImpl(title, version);
      return Success(i);
    }

    /** `setTitle`: rejects a null or blank title and then changes nothing; otherwise stores it. */
    method SetTitle(title: Option<string>) returns (r: Outcome<string>)
      modifies this
      ensures r.Pass? <==> Accepted(title)
      ensures r.Fail? ==> r.error == TitleRejected && unchanged(this)
      ensures r.Pass? ==> Value() == old(Value()).(title := title)
      ensures contact == old(contact) && license == old(license)
      ensures old(Valid()) ==> Valid()
    {
      if title.None? || IsBlank(title.value) {
        return Fail(TitleRejected);
      }
      this.title := title;
      return Pass;
    }

    /** `setVersion`: rejects a null or blank version and then changes nothing; otherwise stores it. */
    method SetVersion(version: Option<string>) returns (r: Outcome<string>)
      modifies this
      ensures r.Pass? <==> Accepted(version)
      ensures r.Fail? ==> r.error == VersionRejected && unchanged(this)
      ensures r.Pass? ==> Value() == old(Value()).(version := version)
      ensures contact == old(contact) && license == old(license)
      ensures old(Valid()) ==> Valid()
    {
      if version.None? || IsBlank(version.value) {
        return Fail(VersionRejected);
      }
      this.version := version;
      return Pass;
    }

    /** `setDescription`: stores any value, null included. */
    method SetDescription(description: Option<string>)
      modifies this
      ensures Value() == old(Value()).(description := description)
      ensures contact == old(contact) && license == old(license)
      ensures Valid() == old(Valid())
    {
      this.description := description;
    }

    /** `setTermsOfService`: stores any value, null included. */
    method SetTermsOfService(url: Option<Url>)
      modifies this
      ensures Value() == old(Value()).(termsOfService := url)
      ensures contact == old(contact) && license == old(license)
      ensures Valid() == old(Valid())
    {
      termsOfService := url;
    }

    /** `setContact`: stores any contact, null included. */
    method SetContact(contact: Contacts.ContactImpl?)
      modifies this
      ensures this.contact == contact && license == old(license)
      ensures Value() == old(Value()).(contact := if contact == null then None else Some(contact.Value()))
      ensures Valid() == old(Valid())
    {
      this.contact := contact;
    }

    /** `setLicense`: stores any license, null included. */
    method SetLicense(license: Licenses.LicenseImpl?)
      modifies this
      ensures this.license == license && contact == old(contact)
      ensures Value() == old(Value()).(license := if license == null then None else Some(license.Value()))
      ensures Valid() == old(Valid())
    {
      this.license := license;
    }

    /** `getContact(callback, default)`: the default is stored only when no contact is set;
        the contact handed to the callback (here: returned) is the one now stored. Once a
        contact is set, further calls change nothing, whatever their default. */
    method GetContactOrDefault(default: Contacts.ContactImpl?) returns (c: Contacts.ContactImpl?)
      modifies this
      ensures contact == if old(contact) == null then default else old(contact)
      ensures c == contact
      ensures old(contact) != null ==> unchanged(this)
      ensures license == old(license)
      ensures Value() == old(Value()).(contact := if c == null then None else Some(c.Value()))
      ensures Valid() == old(Valid())
    {
      if contact == null {
        SetContact(default);
      }
      c := contact;
    }

    /** `getLicense(callback, default)`: the default is stored only when no license is set;
        the license handed to the callback (here: returned) is the one now stored. Once a
        license is set, further calls change nothing, whatever their default. */
    method GetLicenseOrDefault(default: Licenses.LicenseImpl?) returns (l: Licenses.LicenseImpl?)
      modifies this
      ensures license == if old(license) == null then default else old(license)
      ensures l == license
      ensures old(license) != null ==> unchanged(this)
      ensures contact == old(contact)
      ensures Value() == old(Value()).(license := if l == null then None else Some(l.Value()))
      ensures Valid() == old(Valid())
    {
      if license == null {
        SetLicense(default);
      }
      l := license;
    }

    /** The fluent `title(..)`: `setTitle`, then the same info, or `setTitle`'s failure. */
    method Title(title: Option<string>) returns (r: Result<InfoImpl, string>)
      modifies this
      ensures r.Success? <==> Accepted(title)
      ensures r.Success? ==> r.value == this && Value() == old(Value()).(title := title)
      ensures r.Failure? ==> r.error == TitleRejected && unchanged(this)
      ensures contact == old(contact) && license == old(license)
      ensures old(Valid()) ==> Valid()
    {
      var outcome := SetTitle(title);
      if outcome.Fail? {
        return Failure(outcome.error);
      }
      return Success(this);
    }

    /** The fluent `version(..)`: `setVersion`, then the same info, or `setVersion`'s failure. */
    method Version(version: Option<string>) returns (r: Result<InfoImpl, string>)
      modifies this
      ensures r.Success? <==> Accepted(version)
      ensures r.Success? ==> r.value == this && Value() == old(Value()).(version := version)
      ensures r.Failure? ==> r.error == VersionRejected && unchanged(this)
      ensures contact == old(contact) && license == old(license)
      ensures old(Valid()) ==> Valid()
    {
      var outcome := SetVersion(version);
      if outcome.Fail? {
        return Failure(outcome.error);
      }
      return Success(this);
    }

    /** The fluent `description(..)`: `setDescription`, then the same info. */
    method Description(description: Option<string>) returns (self: InfoImpl)
      modifies this
      ensures self == this
      ensures Value() == old(Value()).(description := description)
      ensures contact == old(contact) && license == old(license)
      ensures Valid() == old(Valid())
    {
      SetDescription(description);
      self := this;
    }

    /** The fluent `termsOfService(..)`: `setTermsOfService`, then the same info. */
    method TermsOfService(url: Option<Url>) returns (self: InfoImpl)
      modifies this
      ensures self == this
      ensures Value() == old(Value()).(termsOfService := url)
      ensures contact == old(contact) && license == old(license)
      ensures Valid() == old(Valid())
    {
      SetTermsOfService(url);
      self := this;
    }

    /** The fluent `contact(Contact)`: `setContact`, then the same info. */
    method Contact(contact: Contacts.ContactImpl?) returns (self: InfoImpl)
      modifies this
      ensures self == this
      ensures this.contact == contact && license == old(license)
      ensures Value() == old(Value()).(contact := if contact == null then None else Some(contact.Value()))
      ensures Valid() == old(Valid())
    {
      SetContact(contact);
      self := this;
    }

    /** The fluent `contact(callback, default)`: `getContact(callback, default)`, then the same info. */
    method ContactOrDefault(default: Contacts.ContactImpl?) returns (self: InfoImpl)
      modifies this
      ensures self == this
      ensures contact == if old(contact) == null then default else old(contact)
      ensures old(contact) != null ==> unchanged(this)
      ensures license == old(license)
      ensures Value() == old(Value()).(contact := if contact == null then None else Some(contact.Value()))
      ensures Valid() == old(Valid())
    {
      var _ := GetContactOrDefault(default);
      self := this;
    }

    /** The fluent `license(License)`: `setLicense`, then the same info. */
    method License(license: Licenses.LicenseImpl?) returns (self: InfoImpl)
      modifies this
      ensures self == this
      ensures this.license == license && contact == old(contact)
      ensures Value() == old(Value()).(license := if license == null then None else Some(license.Value()))
      ensures Valid() == old(Valid())
    {
      SetLicense(license);
      self := this;
    }

    /** The fluent `license(callback, default)`: `getLicense(callback, default)`, then the same info. */
    method LicenseOrDefault(default: Licenses.LicenseImpl?) returns (self: InfoImpl)
      modifies this
      ensures self == this
      ensures license == if old(license) == null then default else old(license)
      ensures old(license) != null ==> unchanged(this)
      ensures contact == old(contact)
      ensures Value() == old(Value()).(license := if license == null then None else Some(license.Value()))
      ensures Valid() == old(Valid())
    {
      var _ := GetLicenseOrDefault(default);
      self := this;
    }
  }

  /** An `InfoImpl` whose invariant holds, and whose license (if any) keeps its own, projects
      successfully once its required strings hold no bare control characters. */
  lemma ValidInfoProjects(i: InfoImpl)
    requires i.Valid() && NoBareControls(i.title.value) && NoBareControls(i.version.value)
    requires i.license != null ==> i.license.Valid() && NoBareControls(i.license.name.value)
    ensures ToJsonObject(i.Value()).Success?
  {
    ProjectsWhenAccepted(i.Value());
  }
}
