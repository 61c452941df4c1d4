/** The Contact Object of the OpenAPI Specification 3.0.2 (section 4.7.3): the `Contact`
    interface with its projection, and its basic implementation `ContactImpl`. */
module Contacts {
  import opened Wrappers
  import opened Json

  /** What the `Contact` getters return; every field may be null. */
  datatype Contact = Contact(name: Option<string>, email: Option<string>, url: Option<Url>)

  /** The keys a contact's projection may hold. */
  const Keys: set<string> := {"name", "email", "url"}

  /** `Contact.toJsonObject`: never fails; each key is present exactly when its field is set,
      and an all-null contact is the empty object. */
  function ToJsonObject(c: Contact): (r: map<string, Json>)
    ensures r.Keys <= Keys
    ensures "name" in r <==> c.name.Some?
    ensures c.name.Some? ==> r["name"] == Str(c.name.value)
    ensures "email" in r <==> c.email.Some?
    ensures c.email.Some? ==> r["email"] == Str(c.email.value)
    ensures "url" in r <==> c.url.Some?
    ensures c.url.Some? ==> r["url"] == Str(c.url.value.externalForm)
    ensures r == map[] <==> c == Contact(None, None, None)
  {
    var m := PutOpt(map[], "name", StrOpt(c.name));
    var m := PutOpt(m, "email", StrOpt(c.email));
    if c.url.Some? then PutOpt(m, "url", UrlOpt(c.url)) else m
  }

  /** Reads a contact back from a JSON object: accepted only when every key is a contact
      key and every value a string. */
  function FromJsonObject(m: map<string, Json>): Option<Contact> {
    if !(m.Keys <= Keys) then None
    else
      var name :- StrMember(m, "name");
      var email :- StrMember(m, "email");
      var url :- UrlMember(m, "url");
      Some(Contact(name, email, url))
  }

  /** The projection keeps every field: reading it back gives the contact. */
  lemma RoundTrip(c: Contact)
    ensures FromJsonObject(ToJsonObject(c)) == Some(c)
  {
  }

  /** Every object that reads back as a contact is that contact's projection. */
  lemma FromJsonObjectIsProjection(m: map<string, Json>, c: Contact)
    requires FromJsonObject(m) == Some(c)
    ensures ToJsonObject(c) == m
  {
  }

  class ContactImpl {
    var name: Option<string>
    var email: Option<string>
    var url: Option<Url>

    /** What the getters return. */
    function Value(): Contact
      reads this
    {
      Contact(name, email, url)
    }

    /** `ContactImpl()`: a blank contact. */
    constructor Blank()
      ensures Value() == Contact(None, None, None)
    {
      name, email, url := None, None, None;
    }

    /** `ContactImpl(name)`. */
    constructor Named(name: Option<string>)
      ensures Value() == Contact(name, None, None)
    {
      this.name, email, url := name, None, None;
    }

    /** `ContactImpl(name, email)`: the URL stays null. */
    constructor NamedWithEmail(name: Option<string>, email: Option<string>)
      ensures Value() == Contact(name, email, None)
    {
      this.name, this.email, url := name, email, None;
    }

    /** `ContactImpl(name, url)`: the email stays null. */
    constructor NamedWithUrl(name: Option<string>, url: Option<Url>)
      ensures Value() == Contact(name, None, url)
    {
      this.name, email, this.url := name, None, url;
    }

    /** `ContactImpl(name, email, url)`. */
    constructor (name: Option<string>, email: Option<string>, url: Option<Url>)
      ensures Value() == Contact(name, email, url)
    {
      this.name, this.email, this.url := name, email, url;
    }

    /** `setName`: stores any value, null included; the other fields stay. */
    method SetName(name: Option<string>)
      modifies this
      ensures Value() == old(Value()).(name := name)
    {
      this.name := name;
    }

    /** `setEmail`: stores any value, null included, without checking its format. */
    method SetEmail(email: Option<string>)
      modifies this
      ensures Value() == old(Value()).(email := email)
    {
      this.email := email;
    }

    /** `setUrl`: stores any value, null included. */
    method SetUrl(url: Option<Url>)
      modifies this
      ensures Value() == old(Value()).(url := url)
    {
      this.url := url;
    }

    /** The fluent `name(..)`: `setName`, then the same contact. */
    method Name(name: Option<string>) returns (self: ContactImpl)
      modifies this
      ensures self == this
      ensures Value() == old(Value()).(name := name)
    {
      SetName(name);
      self := this;
    }

    /** The fluent `email(..)`: `setEmail`, then the same contact. */
    method Email(email: Option<string>) returns (self: ContactImpl)
      modifies this
      ensures self == this
      ensures Value() == old(Value()).(email := email)
    {
      SetEmail(email);
      self := this;
    }

    /** The fluent `url(..)`: `setUrl`, then the same contact. */
    method Url(url: Option<Url>) returns (self: ContactImpl)
      modifies this
      ensures self == this
      ensures Value() == old(Value()).(url := url)
    {
      SetUrl(url);
      self := this;
    }
  }
}
