# OpenAPI 3.0.2 metadata object model, in Dafny

A model of the emit-only object model for the metadata part of an OpenAPI document:
the OpenAPI Object, the Info Object, the Contact Object and the License Object of the
OpenAPI Specification 3.0.2 (sections 4.7.1 to 4.7.4). A document owns an info; an info
may hold a contact and a license. Each entity has getters, setters (some of them guarded),
fluent setters that return the object itself, and a projection `toJsonObject` to a JSON
object.

The model has three layers, one module per entity (`Contacts`, `Licenses`, `Infos`,
`Documents`) on top of `Wrappers`, `JavaText` and `Json`:

- **Values.** A datatype per entity (`Contact`, `License`, `Info`, `Document`) holds what its
  getters return. A Java `null` is `None`. A nested contact or license is read through to its
  value.
- **Projections.** `ToJsonObject` on each value is the interface's default `toJsonObject`.
  JSON objects are `map<string, Json>`. `PutOpt` is org.json's `putOpt`, which inserts a pair
  unless the value is null. The `NullPointerException`s the projections throw become
  `Failure` with the same message. Each projection has a partner, `FromJsonObject`, which reads
  an object back. Two lemmas per entity prove that projecting and reading back are inverse in
  both directions: `RoundTrip` and `FromJsonObjectIsProjection`. So the projection keeps every
  field, and exactly the objects the decoder accepts are projections.
- **Objects.** `ContactImpl`, `LicenseImpl`, `InfoImpl` and `OpenApiDocument` are classes
  with the Java fields. Each setter of a contact, license or info states the object's new
  `Value()` in terms of the old one; `OpenApiDocument.SetInfo` states its one new field.
  `InfoImpl` and `LicenseImpl` keep an invariant `Valid()`: the guarded strings passed the
  setters' check. The Java constructors that can throw (`InfoImpl(title, version)`,
  `LicenseImpl(name[, url])`) become static `Create` methods that return a `Result`. `InfoImpl`
  holds references to a contact and a license object, and `OpenApiDocument` to an info, so a
  change made through a reference that `GetContactOrDefault` returned shows in the info's
  `Value()`. Java types those fields by the interfaces `Contact`, `License` and `Info`; the
  model types them by the basic classes `ContactImpl`, `LicenseImpl` and `InfoImpl`.

The guarded setters and the projections check required strings differently, and the model
keeps both checks. `Accepted(s)` is `s != null && !s.isBlank()`, where `isBlank` uses
`Character.isWhitespace`. `Defined(s)` is `s != null && !s.trim().isEmpty()`, where `trim`
strips every character up to U+0020. `Trim` is proved to return the empty string exactly
when every character is at most U+0020. Neither check implies the other (`AcceptedAndDefinedDiffer`).
A title of U+0001 passes `setTitle`, but the projection then rejects it with "Title has not
been defined" (`Infos.AcceptedTitleMayFailProjection`). The projection check is therefore
reachable on objects built only through the setters. The two checks agree on strings with no
bare control characters and no whitespace above U+0020 (`AcceptedIsDefined`, `DefinedIsAccepted`).

Further facts about the code that the model follows:

- The projections' required-field checks can fail on objects built only through the setters
  (`Infos.AcceptedTitleMayFailProjection`, above).
- JSON objects are unordered maps, because org.json's `JSONObject` is hash-backed; the
  projections fix which keys are present and what they hold, not an order.
- `Document.info()` calls itself instead of `getInfo()` (see "Left out").
- A document's info is an ordinary nullable field, though the OpenAPI Specification 3.0.2
  marks `info` REQUIRED. `OpenApiDocument` starts without one, and its projection then fails
  (`Documents.BlankDocumentFails`).

## Model

| member | source | states |
|---|---|---|
| `JavaText.Trim` | src/main/java/com/xenosnowfox/openapi3/models/info/Info.java:377 | `trim()` gives the empty string exactly when every character is at most U+0020; a non-empty result starts and ends above U+0020 |
| `JavaText.WhitespaceTable` | src/main/java/com/xenosnowfox/openapi3/models/info/InfoImpl.java:40 | the `Character.isWhitespace` table behind `isBlank`: tab, U+001C, space and U+3000 are whitespace; U+00A0, U+2007, U+202F, U+0085 and U+0000 are not; `isBlank` holds of "" and of separators only, not of a string with a non-breaking space |
| `JavaText.TrimStart` | src/main/java/com/xenosnowfox/openapi3/models/info/License.java:106 | the left half of `trim`: a suffix of the input, and every character cut off is at most U+0020 |
| `JavaText.TrimEnd` | src/main/java/com/xenosnowfox/openapi3/models/info/License.java:106 | the right half of `trim`: a prefix of the input, and every character cut off is at most U+0020 |
| `JavaText.AcceptedIsDefined` | src/main/java/com/xenosnowfox/openapi3/models/info/InfoImpl.java:39-44 | a string `setTitle`/`setVersion`/`setName` accept also passes the projections' check, when it has no bare control characters |
| `JavaText.DefinedIsAccepted` | src/main/java/com/xenosnowfox/openapi3/models/info/Info.java:376-379 | a string the projections accept also passes the setters' check, when it has no whitespace above U+0020 |
| `JavaText.AcceptedAndDefinedDiffer` | src/main/java/com/xenosnowfox/openapi3/models/info/LicenseImpl.java:44-49 | `isBlank` and `trim().isEmpty()` differ in both directions: U+0001 passes only the setters, U+3000 only the projections |
| `Contacts.ToJsonObject` | src/main/java/com/xenosnowfox/openapi3/models/info/Contact.java:141-156 | never fails; "name", "email" and "url" are each present exactly when the field is non-null, with the string or the URL's external form; no other key; the empty object exactly for an all-null contact |
| `Contacts.RoundTrip` | src/main/java/com/xenosnowfox/openapi3/models/info/Contact.java:143-155 | reading a contact's projection back gives the same contact, so no field is lost |
| `Contacts.FromJsonObjectIsProjection` | src/main/java/com/xenosnowfox/openapi3/models/info/Contact.java:143-155 | every object that reads back as a contact is that contact's projection |
| `Contacts.ContactImpl.Blank` | src/main/java/com/xenosnowfox/openapi3/models/info/ContactImpl.java:23-25 | the no-argument constructor leaves name, email and url null |
| `Contacts.ContactImpl.Named` | src/main/java/com/xenosnowfox/openapi3/models/info/ContactImpl.java:35-37 | the name-only constructor leaves email and url null |
| `Contacts.ContactImpl.NamedWithEmail` | src/main/java/com/xenosnowfox/openapi3/models/info/ContactImpl.java:49-51 | the (name, email) constructor leaves url null |
| `Contacts.ContactImpl.NamedWithUrl` | src/main/java/com/xenosnowfox/openapi3/models/info/ContactImpl.java:63-65 | the (name, url) constructor leaves email null |
| `Contacts.ContactImpl.constructor` | src/main/java/com/xenosnowfox/openapi3/models/info/ContactImpl.java:79-83 | the three-argument constructor stores all three values, nulls included |
| `Contacts.ContactImpl.SetName` | src/main/java/com/xenosnowfox/openapi3/models/info/ContactImpl.java:90-93 | stores any name, null included, never fails, and leaves email and url alone |
| `Contacts.ContactImpl.SetUrl` | src/main/java/com/xenosnowfox/openapi3/models/info/ContactImpl.java:100-103 | stores any URL, null included, never fails, and leaves name and email alone |
| `Contacts.ContactImpl.SetEmail` | src/main/java/com/xenosnowfox/openapi3/models/info/ContactImpl.java:110-113 | stores any email, null included and unchecked, and leaves name and url alone |
| `Contacts.ContactImpl.Name` | src/main/java/com/xenosnowfox/openapi3/models/info/Contact.java:54-57 | same effect as `setName`, and returns the same contact |
| `Contacts.ContactImpl.Url` | src/main/java/com/xenosnowfox/openapi3/models/info/Contact.java:95-98 | same effect as `setUrl`, and returns the same contact |
| `Contacts.ContactImpl.Email` | src/main/java/com/xenosnowfox/openapi3/models/info/Contact.java:136-139 | same effect as `setEmail`, and returns the same contact |
| `Licenses.ToJsonObject` | src/main/java/com/xenosnowfox/openapi3/models/info/License.java:100-118 | fails with "Name has not been defined" exactly when the name is null or trims to nothing; otherwise "name" maps to the name, "url" is present exactly when the URL is set (as its external form), and the keys are {"name"} or {"name", "url"} |
| `Licenses.RoundTrip` | src/main/java/com/xenosnowfox/openapi3/models/info/License.java:102-117 | reading a successful projection back gives the same license |
| `Licenses.FromJsonObjectIsProjection` | src/main/java/com/xenosnowfox/openapi3/models/info/License.java:102-117 | every object that reads back as a license is that license's successful projection |
| `Licenses.LicenseImpl.Create` | src/main/java/com/xenosnowfox/openapi3/models/info/LicenseImpl.java:38-41 | `LicenseImpl(name, url)` fails with "Name cannot be null or blank" exactly when the name is null or blank; otherwise a fresh, valid license holding both values |
| `Licenses.LicenseImpl.CreateNamed` | src/main/java/com/xenosnowfox/openapi3/models/info/LicenseImpl.java:24-26 | `LicenseImpl(name)` fails in the same way, and otherwise leaves the URL null |
| `Licenses.LicenseImpl.SetName` | src/main/java/com/xenosnowfox/openapi3/models/info/LicenseImpl.java:44-49 | fails exactly on a null or blank name and then changes nothing; otherwise stores the name and keeps the URL; the name stays non-blank |
| `Licenses.LicenseImpl.SetUrl` | src/main/java/com/xenosnowfox/openapi3/models/info/LicenseImpl.java:57-59 | stores any URL, null included, never fails, and keeps the name |
| `Licenses.LicenseImpl.Name` | src/main/java/com/xenosnowfox/openapi3/models/info/License.java:54-57 | same effect as `setName`, passing on its failure, and otherwise returns the same license |
| `Licenses.LicenseImpl.Url` | src/main/java/com/xenosnowfox/openapi3/models/info/License.java:95-98 | same effect as `setUrl`, and returns the same license |
| `Infos.ToJsonObject` | src/main/java/com/xenosnowfox/openapi3/models/info/Info.java:370-411 | fails on a null or trim-empty title first, then on the version, then with the license's failure, and in no other case; on success "title" and "version" map to the strings, "description", "termsOfService", "contact" and "license" are each present exactly when the field is set, with the string, the URL's external form or the nested projection, and there is no other key |
| `Infos.RoundTrip` | src/main/java/com/xenosnowfox/openapi3/models/info/Info.java:372-410 | reading a successful projection back, nested contact and license included, gives the same info |
| `Infos.FromJsonObjectIsProjection` | src/main/java/com/xenosnowfox/openapi3/models/info/Info.java:372-410 | every object that reads back as an info is that info's successful projection |
| `Infos.Members` | src/main/java/com/xenosnowfox/openapi3/models/info/Info.java:380-408 | the `putOpt` chain of a successful projection: "title" and "version" always present with their strings, each optional key present exactly when its value is non-null and mapped to it, no key outside the six info keys |
| `Infos.ValidInfoProjects` | src/main/java/com/xenosnowfox/openapi3/models/info/InfoImpl.java:39-57 | an `InfoImpl` whose invariant holds (title and version passed the guarded setters, and so did its license's name) projects successfully when those strings hold no bare control characters |
| `Infos.ProjectsWhenAccepted` | src/main/java/com/xenosnowfox/openapi3/models/info/Info.java:376-386 | an info whose title, version and license name passed the setters projects successfully, provided they hold no bare control characters |
| `Infos.NewInfoProjection` | src/main/java/com/xenosnowfox/openapi3/models/info/InfoImpl.java:28-31 | a freshly constructed info, with defined title and version, projects to exactly {"title": title, "version": version}; no optional key appears |
| `Infos.AcceptedTitleMayFailProjection` | src/main/java/com/xenosnowfox/openapi3/models/info/Info.java:376-379 | the title U+0001 passes `setTitle`, yet the projection fails with "Title has not been defined" |
| `Infos.InfoImpl.Create` | src/main/java/com/xenosnowfox/openapi3/models/info/InfoImpl.java:28-31 | `InfoImpl(title, version)` fails unless both pass the setters' check, reporting a bad title before a bad version; otherwise a fresh, valid info with both strings and null description, terms of service, contact and license |
| `Infos.InfoImpl.SetTitle` | src/main/java/com/xenosnowfox/openapi3/models/info/InfoImpl.java:39-44 | fails exactly on a null or blank title and then changes nothing; otherwise stores it and changes no other field; validity is kept |
| `Infos.InfoImpl.SetVersion` | src/main/java/com/xenosnowfox/openapi3/models/info/InfoImpl.java:52-57 | fails exactly on a null or blank version and then changes nothing; otherwise stores it and changes no other field; validity is kept |
| `Infos.InfoImpl.SetDescription` | src/main/java/com/xenosnowfox/openapi3/models/info/InfoImpl.java:65-67 | stores any description, null included, never fails, and changes no other field |
| `Infos.InfoImpl.SetTermsOfService` | src/main/java/com/xenosnowfox/openapi3/models/info/InfoImpl.java:75-77 | stores any URL, null included, never fails, and changes no other field |
| `Infos.InfoImpl.SetContact` | src/main/java/com/xenosnowfox/openapi3/models/info/InfoImpl.java:85-87 | stores any contact reference, null included, never fails, and changes no other field |
| `Infos.InfoImpl.SetLicense` | src/main/java/com/xenosnowfox/openapi3/models/info/InfoImpl.java:95-97 | stores any license reference, null included, never fails, and changes no other field |
| `Infos.InfoImpl.GetContactOrDefault` | src/main/java/com/xenosnowfox/openapi3/models/info/Info.java:226-231 | stores the default only when the contact is null, returns the contact now stored, and changes nothing once a contact is set |
| `Infos.InfoImpl.GetLicenseOrDefault` | src/main/java/com/xenosnowfox/openapi3/models/info/Info.java:320-325 | stores the default only when the license is null, returns the license now stored, and changes nothing once a license is set |
| `Infos.InfoImpl.Title` | src/main/java/com/xenosnowfox/openapi3/models/info/Info.java:55-58 | same effect as `setTitle`, passing on its failure, and otherwise returns the same info |
| `Infos.InfoImpl.Version` | src/main/java/com/xenosnowfox/openapi3/models/info/Info.java:96-99 | same effect as `setVersion`, passing on its failure, and otherwise returns the same info |
| `Infos.InfoImpl.Description` | src/main/java/com/xenosnowfox/openapi3/models/info/Info.java:137-140 | same effect as `setDescription`, and returns the same info |
| `Infos.InfoImpl.TermsOfService` | src/main/java/com/xenosnowfox/openapi3/models/info/Info.java:178-181 | same effect as `setTermsOfService`, and returns the same info |
| `Infos.InfoImpl.Contact` | src/main/java/com/xenosnowfox/openapi3/models/info/Info.java:271-274 | same effect as `setContact`, and returns the same info |
| `Infos.InfoImpl.ContactOrDefault` | src/main/java/com/xenosnowfox/openapi3/models/info/Info.java:260-263 | same effect as `getContact(callback, default)`, and returns the same info |
| `Infos.InfoImpl.License` | src/main/java/com/xenosnowfox/openapi3/models/info/Info.java:365-368 | same effect as `setLicense`, and returns the same info |
| `Infos.InfoImpl.LicenseOrDefault` | src/main/java/com/xenosnowfox/openapi3/models/info/Info.java:354-357 | same effect as `getLicense(callback, default)`, and returns the same info |
| `Documents.ToJsonObject` | src/main/java/com/xenosnowfox/openapi3/models/Document.java:134-150 | fails with "Info has not been defined" when the info is null, and otherwise with the info's own failure; on success the keys are exactly "openapi", mapped to "3.0.2", and "info", mapped to the info's projection |
| `Documents.RoundTrip` | src/main/java/com/xenosnowfox/openapi3/models/Document.java:136-149 | reading a successful projection back gives the same document, with its whole info tree |
| `Documents.FromJsonObjectIsProjection` | src/main/java/com/xenosnowfox/openapi3/models/Document.java:136-149 | every object that reads back as a document is that document's successful projection |
| `Documents.LicenseFailurePropagates` | src/main/java/com/xenosnowfox/openapi3/models/Document.java:146 | a license name that trims to nothing fails the whole document projection with "Name has not been defined", and no partial object is produced |
| `Documents.BlankDocumentFails` | src/main/java/com/xenosnowfox/openapi3/models/OpenApiDocument.java:9 | a document without an info, as a new `OpenApiDocument` is, cannot be projected |
| `Documents.OpenApiDocument.constructor` | src/main/java/com/xenosnowfox/openapi3/models/OpenApiDocument.java:9 | a new document has no info |
| `Documents.OpenApiDocument.GetVersion` | src/main/java/com/xenosnowfox/openapi3/models/Document.java:17-29 | always "3.0.2"; it reads no state, so no state can change it |
| `Documents.OpenApiDocument.SetInfo` | src/main/java/com/xenosnowfox/openapi3/models/OpenApiDocument.java:17-19 | stores any info, null included, and never fails; the field the getter returns is the value last stored |
| `Documents.OpenApiDocument.GetInfoOrDefault` | src/main/java/com/xenosnowfox/openapi3/models/Document.java:74-79 | stores the default only when the info is null, returns the info now stored, and changes nothing once an info is set |
| `Documents.OpenApiDocument.Info` | src/main/java/com/xenosnowfox/openapi3/models/Document.java:129-132 | same effect as `setInfo`, and returns the same document |
| `Documents.OpenApiDocument.InfoOrDefault` | src/main/java/com/xenosnowfox/openapi3/models/Document.java:118-121 | same effect as `getInfo(callback, default)`, and returns the same document |

## Left out

- Callbacks (`Invokable`): a get-or-initialise accessor returns the value it would hand to the callback. The callback's own code belongs to the caller and is not modelled. The one-argument forms `getInfo(callback)`, `getContact(callback)` and `getLicense(callback)`, and their fluent forms, only pass the current field to that code, so they are left out.
- Getters and their shorthands (`getTitle()`, `title()`, `name()`, `url()`, ...) are plain field reads: the public fields and `Value()`.
- `Document.info()` (src/main/java/com/xenosnowfox/openapi3/models/Document.java:97-99) calls itself forever and ends in a stack overflow. A non-terminating call is not modelled.
- `java.net.URL` is represented by its external form. URL parsing and validation belong to the library.
- `Character.isWhitespace` is written out from its definition over the Unicode 10 tables, the tables of Java 11. Java strings are UTF-16, and the model's strings are sequences of Unicode scalar values. Neither `trim` nor `isBlank` treats a surrogate pair as whitespace, so the two agree.
- org.json internals: objects are maps, so key order and the textual form are not modelled. The `Jsonable` marker interface has no logic.
- Other implementations of `Contact`, `License` and `Info`: the fields of `InfoImpl` and `OpenApiDocument` hold only the basic `*Impl` classes, so a user-supplied implementation (for example one that overrides `toJsonObject` or a getter) is not modelled.
- Exception types: each `NullPointerException` is a `Failure` that carries its message.
