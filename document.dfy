/** The OpenAPI Object of the OpenAPI Specification 3.0.2 (section 4.7.1): the `Document`
    interface with its fixed specification version and its projection, and its basic
    implementation `OpenApiDocument`. */
module Documents {
  import opened Wrappers
  import opened Json
  import Infos
  import Licenses
  import JavaText

  /** `Document.OPENAPI_VERSION`: the version of the OpenAPI Specification the documents follow. */
  const OpenApiVersion := "3.0.2"

  const InfoMissing := "Info has not been defined"

  /** What the `Document` getters return: the info, read through, or null. */
  datatype Document = Document(info: Option<Infos.Info>)

  /** `Document.toJsonObject`: fails when no info is set, then with the info's own failure;
      otherwise holds exactly "openapi", mapped to "3.0.2", and "info", mapped to the info's
      projection. */
  function ToJsonObject(d: Document): (r: Result<map<string, Json>, string>)
    ensures d.info.None? ==> r == Failure(InfoMissing)
    ensures d.info.Some? && Infos.ToJsonObject(d.info.value).Failure? ==> r == Failure(Infos.ToJsonObject(d.info.value).error)
    ensures r.Success? <==> d.info.Some? && Infos.ToJsonObject(d.info.value).Success?
    ensures r.Success? ==> r.value == map["openapi" := Str("3.0.2"), "info" := Obj(Infos.ToJsonObject(d.info.value).value)]
  {
    var m := map["openapi" := Str(OpenApiVersion)];
    if d.info.None? then Failure(InfoMissing)
    else
      var info :- Infos.ToJsonObject(d.info.value);
      Success(PutOpt(m, "info", Some(Obj(info))))
  }

  /** Reads a document back from a JSON object: exactly the keys "openapi", holding "3.0.2",
      and "info", holding an object that reads back as an info. */
  function FromJsonObject(m: map<string, Json>): Option<Document> {
    if m.Keys != {"openapi", "info"} || m["openapi"] != Str(OpenApiVersion) || !m["info"].Obj? then None
    else
      var info :- Infos.FromJsonObject(m["info"].members);
      Some(Document(Some(info)))
  }

  /** A successful projection keeps the whole tree: reading it back gives the document. */
  lemma RoundTrip(d: Document)
    requires ToJsonObject(d).Success?
    ensures FromJsonObject(ToJsonObject(d).value) == Some(d)
  {
    Infos.RoundTrip(d.info.value);
    ReadsBackInfo(Infos.ToJsonObject(d.info.value).value, d.info.value);
  }

  /** The object holding "openapi" and an info's members reads back as a document with that info. */
  lemma ReadsBackInfo(members: map<string, Json>, info: Infos.Info)
    requires Infos.FromJsonObject(members) == Some(info)
    ensures FromJsonObject(map["openapi" := Str(OpenApiVersion), "info" := Obj(members)]) == Some(Document(Some(info)))
  {
    var m := map["openapi" := Str(OpenApiVersion), "info" := Obj(members)];
    assert m.Keys == {"openapi", "info"};
  }

  /** Every object that reads back as a document is that document's projection. */
  lemma FromJsonObjectIsProjection(m: map<string, Json>, d: Document)
    requires FromJsonObject(m) == Some(d)
    ensures ToJsonObject(d) == Success(m)
  {
    var members := m["info"].members;
    Infos.FromJsonObjectIsProjection(members, d.info.value);
    TwoKeys(m);
  }

  /** An object with exactly the keys "openapi" and "info" is made of those two members. */
  lemma TwoKeys(m: map<string, Json>)
    requires m.Keys == {"openapi", "info"}
    ensures m == map["openapi" := m["openapi"], "info" := m["info"]]
  {
    var n := map["openapi" := m["openapi"], "info" := m["info"]];
    assert n.Keys == m.Keys;
  }

  /** A license whose name trims to nothing makes the whole document fail, with the license's
      message, once the info's own title and version are defined. */
  lemma LicenseFailurePropagates(d: Document)
    requires d.info.Some? && JavaText.Defined(d.info.value.title) && JavaText.Defined(d.info.value.version)
    requires d.info.value.license.Some? && !JavaText.Defined(d.info.value.license.value.name)
    ensures ToJsonObject(d) == Failure(Licenses.NameMissing)
  {
  }

  /** A blank document, the state `new OpenApiDocument()` starts in, cannot be projected. */
  lemma BlankDocumentFails()
    ensures ToJsonObject(Document(None)) == Failure(InfoMissing)
  {
  }

  class OpenApiDocument {
    var info: Infos.InfoImpl?

    /** Every object the document's projection reads. */
    ghost function Repr(): set<object?>
      reads this, info
    {
      {this, info} + if info == null then {} else {info.contact, info.license}
    }

    /** What the getters return, with the info read through. */
    function Value(): Document
      reads Repr()
    {
      Document(if info == null then None else Some(info.Value()))
    }

    /** `new OpenApiDocument()`: no info yet. */
    constructor ()
      ensures info == null && Value() == Document(None)
    {
      info := null;
    }

    /** `getVersion()` (and its shorthand `version()`): "3.0.2", whatever the document holds. */
    function GetVersion(): (v: string)
      ensures v == "3.0.2"
    {
      OpenApiVersion
    }

    /** `setInfo`: stores any info, null included. */
    method SetInfo(info: Infos.InfoImpl?)
      modifies this
      ensures this.info == info
    {
      this.info := info;
    }

    /** `getInfo(callback, default)`: the default is stored only when no info is set; the
        info handed to the callback (here: returned) is the one now stored. Once an info is
        set, further calls change nothing, whatever their default. */
    method GetInfoOrDefault(default: Infos.InfoImpl?) returns (i: Infos.InfoImpl?)
      modifies this
      ensures info == if old(info) == null then default else old(info)
      ensures i == info
      ensures old(info) != null ==> unchanged(this)
    {
      if info == null {
        SetInfo(default);
      }
      i := info;
    }

    /** The fluent `info(Info)`: `setInfo`, then the same document. */
    method Info(info: Infos.InfoImpl?) returns (self: OpenApiDocument)
      modifies this
      ensures self == this && this.info == info
    {
      SetInfo(info);
      self := this;
    }

    /** The fluent `info(callback, default)`: `getInfo(callback, default)`, then the same document. */
    method InfoOrDefault(default: Infos.InfoImpl?) returns (self: OpenApiDocument)
      modifies this
      ensures self == this
      ensures info == if old(info) == null then default else old(info)
      ensures old(info) != null ==> unchanged(this)
    {
      var _ := GetInfoOrDefault(default);
      self := this;
    }
  }
}
