# CANFAR library manifest schema

A CANFAR library manifest describes how to build a container image:
- its name and version;
- the people who maintain it;
- the git repository and checkout (a commit sha or a tag) that hold the sources;
- the build settings (Dockerfile, context, platforms, tags, build arguments, labels, test command);
- science metadata.

`library/schema.py` defines this manifest as a set of pydantic records, `Manifest`, `Maintainer`, `Git`, `Build`, `Metadata` and `Run`, together with the enumerations `Architecture` and `Builder`. This project models what validating a raw manifest document against those records does:
- which documents the records accept;
- which typed record an accepted document becomes;
- where a rejected document's problems are reported. Each field reader's error set is stated exactly: what it reports is bounded from below and from above. A nested record's problems reach its parent's field unchanged. For a whole record, the model states which problems are among those it reports, but not that it reports nothing else.

It then proves properties of that validation.

The project has four modules:

- `Document` (`document.dfy`):
  - the raw JSON-like document (`Value`);
  - the locations (`Path`) and kinds (`Kind`) of reported problems;
  - how one declared field reads a raw value. A field can be:
    - required (`...`), which reports `Missing` when absent;
    - defaulted, where absence gives the default and null is rejected;
    - `Optional[...]`, where absence and null both give None;
    - a `str`, a `list[...]` or a `dict[str, str]`.
  - A closed record (`extra="forbid"`) also reports every undeclared key.
- `Schema` (`schema.dfy`):
  - the enumerations and the records;
  - one validation function per record. Each validation function is specified by two predicates:
    - a conformance predicate, which says exactly when the record accepts the input;
    - a "reads as" predicate, which says how each field of the accepted record comes from the input.
  - the `_sanitize_checkout` record validator, which runs on the raw `git` data before any of its fields is read. It accepts the data only when exactly one of `sha` and `tag` is given. Data that is not a dictionary makes the validator itself fail, which stops the whole validation.
- `RoundTrip` (`roundtrip.dfy`):
  - a reference serialisation of every record;
  - the proof that validating a serialised record gives back the same record;
  - the proof that validation is idempotent.
- `Properties` (`properties.dfy`), which proves that:
  - keys outside a record's declared fields are ignored by `Manifest`, `Metadata` and `Run`, and reported by `Maintainer`, `Git` and `Build`;
  - every problem of a nested record (a maintainer, `git`, `build`, `metadata`) reaches the top-level result with its full location;
  - a rejected manifest always reports at least one problem;
  - the two checkout messages are reported;
  - defaults apply, and null is not accepted where a default exists.

Validation problems are a set of `Issue(location, kind)`. pydantic collects every problem it finds, not just the first, and the model keeps that. The order and wording of pydantic's standard messages are not modelled. The two messages of `_sanitize_checkout` are kept word for word.

The model follows the code where the prose description of the project says otherwise:
- `platforms` holds bare architecture names such as `"amd64"`, not `os/arch` pairs.
- `builder` is a free string whose default is `"buildkit"`. It is not restricted to the `Builder` values.
- `test` is an optional `Run` record whose only field is `cmd`.
- No list is required to be non-empty.
- Undeclared keys are rejected only by `Maintainer`, `Git` and `Build`.

## Model

| member | source | states |
|---|---|---|
| Document.Text | library/schema.py:33 | a `str` field accepts exactly string values, reads one as its own text, and otherwise reports a string-type problem at the field |
| Document.RequiredText | library/schema.py:33-38 | a required `str` field is accepted exactly when the key holds a string, and reads as that string; otherwise it reports exactly one problem at the key, `Missing` when absent and a string-type problem when the value is not a string |
| Document.TextOr | library/schema.py:61-66 | a defaulted `str` field is accepted exactly when it is absent or a string (null is rejected), and reads as the default or the given string; a present non-string reports exactly one string-type problem at the key |
| Document.OptionalText | library/schema.py:67-76 | an `Optional[str]` field is accepted exactly when absent, null or a string, and reads as None or the given string; any other value reports exactly one string-type problem at the key |
| Document.OptionalDict | library/schema.py:133-147 | an `Optional[dict[str, str]]` field is accepted exactly when absent, null or a dictionary of strings, and then reads as None or exactly that dictionary; a non-dictionary reports exactly one dict-type problem at the key, and a dictionary reports exactly the problems of its non-string values |
| Document.TextList | library/schema.py:130-132 | the required `tags: List[str]` field is accepted exactly when present as a list of strings, and reads as those strings in order; absence reports exactly `Missing`, a non-list exactly a list-type problem, and for a list exactly one string-type problem at the index of each non-string element |
| Document.Items | library/schema.py:196-200 | list elements are accepted exactly when every element is; the result has one entry per element, each being that element's reading; the problems reported are exactly those of the rejected elements, each with its index in the location |
| Document.StringDict | library/schema.py:133-137 | a `dict[str, str]` value is accepted exactly when it is a dictionary whose values are all strings, and then reads as the same keys and strings; a non-dictionary reports exactly a dict-type problem, and a dictionary exactly the problems of its non-string values |
| Document.NonStringValues | library/schema.py:133-147 | the problems of a string dictionary's values are none exactly when every value is a string; each non-string value is reported as a string-type problem at its key, and nothing else |
| Document.Unexpected | library/schema.py:50 | a closed record reports no problems exactly when every key is declared; it reports every undeclared key as forbidden at its location, and nothing else |
| Schema.ParseArchitecture | library/schema.py:11-19 | a string names an architecture exactly when it is one of the six enumeration values, and then names that value |
| Schema.ParseArchitectureValue | library/schema.py:11-19 | parsing the value of any architecture gives back that architecture (`ArchitectureValue` maps each of the six members to its string value and carries no contract of its own) |
| Schema.BuilderValuesDistinct | library/schema.py:22-27 | two backends have the same value exactly when they are the same backend (`BuilderValue` maps the three members to their values and carries no contract of its own); only `buildkit` is used, as the default of `Build.builder` |
| Schema.Platform | library/schema.py:125-129 | a platform entry is accepted exactly when it is an `Architecture` value string, and is otherwise reported as not an enumeration member |
| Schema.ValidateMaintainer | library/schema.py:30-50 | a maintainer is accepted exactly when it is an object with string `name` and `email`, optional string handles and no other key; the record reads those fields; a non-object, every undeclared key, a missing name or email, and each field of the wrong type are reported |
| Schema.SanitizeCheckout | library/schema.py:78-94 | the checkout validator passes the data on unchanged exactly when it is a dictionary with exactly one of `sha` and `tag` given (null counts as not given); with neither or both it reports the source's own messages; on a non-dictionary it fails |
| Schema.Url | library/schema.py:56-60 | `repo` is accepted exactly when it is a string that the URL predicate accepts, and is kept as given; a non-string reports exactly a URL-type problem, and a string that is not a URL exactly a URL-parsing problem |
| Schema.ValidateGit | library/schema.py:53-96 | git data is accepted exactly when it passes the checkout check and has a URL `repo`, string-or-absent `fetch`, optional string `sha`/`tag` and no other key; the record reads those fields with `fetch` defaulting to `refs/heads/main`, and names exactly one checkout; a checkout failure is reported alone; otherwise undeclared keys, a missing repo, a non-string or non-URL repo and each other field of the wrong type are reported |
| Schema.ValidateRun | library/schema.py:172-184 | a test record is accepted exactly when it is an object whose `cmd` is absent, null or a string, and reads that command; a non-object is rejected, and a non-string command is rejected with exactly one string-type problem at `cmd` |
| Schema.PlatformList | library/schema.py:125-129 | a platform list is accepted exactly when it is a list of architecture values, and reads as those architectures in order; a non-list reports exactly a list-type problem, and a list exactly one enumeration problem at the index of each entry that is not an architecture |
| Schema.Platforms | library/schema.py:125-129 | `platforms` is accepted exactly when absent or a list of architecture names; it then reads as `[amd64]` when absent and as the named architectures in order otherwise; a non-list reports exactly a list-type problem, and a list exactly one enumeration problem at the index of each entry that is not an architecture |
| Schema.Test | library/schema.py:154-158 | `test` is accepted exactly when absent, null or a conforming `Run`, and reads as None or that record; a non-object reports exactly a model-type problem at `test`; any other given value reports exactly the problems of its `Run` validation, located under `test` |
| Schema.ValidateBuild | library/schema.py:99-160 | a build is accepted exactly when every one of its eleven fields has its declared shape and no other key is present; the record reads each field with its default; a non-object, every undeclared key and a missing `tags` are reported |
| Schema.BuildReportsWrongTypes | library/schema.py:102-158 | a build field present with the wrong shape is reported at that field: a non-string path, dockerfile, context or builder, a non-list platforms or tags, a non-dictionary args, annotations or labels, a non-string target and a non-object test; every problem of the platforms, tags, args, annotations, labels and test readers (a bad list entry at its index, a non-string dictionary value at its key, a bad `test.cmd`) is among the build's problems |
| Schema.ValidateMetadata | library/schema.py:163-169 | metadata is accepted exactly when it is an object with string `identifier` and `project` (other keys allowed), and reads those strings; a non-object, each missing field and each non-string field are reported |
| Schema.Version | library/schema.py:192-194 | a version is accepted exactly when it is a number, and is kept as its literal; anything else reports exactly one float-type problem |
| Schema.VersionField | library/schema.py:192-194 | `version` is accepted exactly when absent or a number, and reads as `0.2` when absent; any other value reports exactly a float-type problem at `version` |
| Schema.Maintainers | library/schema.py:196-200 | `maintainers` is accepted exactly when present as a list of conforming maintainers, and reads as their records in order; absence reports exactly `Missing`, a non-list exactly a list-type problem, and a list exactly the problems of its elements, each located under `maintainers.<index>` |
| Schema.GitField | library/schema.py:201-203 | `git` is accepted exactly when present and conforming, and reads as a git record naming one checkout; absence reports exactly `Missing`; given data reports exactly the problems of its `Git` validation at `git` |
| Schema.BuildField | library/schema.py:204-206 | `build` is accepted exactly when present and conforming, and reads as that build record; absence reports exactly `Missing`, a non-object exactly a model-type problem, and any given value exactly the problems of its `Build` validation at `build` |
| Schema.MetadataField | library/schema.py:207-209 | `metadata` is accepted exactly when present and conforming, and reads as that metadata record; absence reports exactly `Missing`, a non-object exactly a model-type problem, and any given value exactly the problems of its `Metadata` validation at `metadata` |
| Schema.ManifestRecord | library/schema.py:187-209 | the fields of a manifest object are accepted exactly when all six conform; the manifest then reads every field from the document; each absent required field is reported as `Missing` |
| Schema.ManifestReportsWrongTypes | library/schema.py:192-209 | a manifest field present with the wrong shape is reported at that field: a non-number version, a non-string name, a non-list maintainers and a non-object build or metadata |
| Schema.ValidateManifest | library/schema.py:187-209 | a document is accepted exactly when it is an object whose six fields conform; the result reads the document field by field; a non-object is rejected as a whole; non-dictionary `git` data stops validation with that single failure |
| RoundTrip.DictReadBack | library/schema.py:133-147 | a dictionary that reads exactly the serialisation of a string dictionary is that dictionary |
| RoundTrip.MaintainerRoundTrip | library/schema.py:30-50 | validating a serialised maintainer gives back that maintainer |
| RoundTrip.GitRoundTrip | library/schema.py:53-96 | validating a serialised git record that names one checkout and a URL repo gives back that record |
| RoundTrip.RunRoundTrip | library/schema.py:172-184 | validating a serialised test record gives back that record |
| RoundTrip.PlatformsReadBack | library/schema.py:125-129 | the platforms read from a serialised platform list are that list |
| RoundTrip.BuildEncodingConforms | library/schema.py:99-160 | every serialised build record has the accepted shape |
| RoundTrip.BuildRoundTrip | library/schema.py:99-160 | validating a serialised build gives back that build |
| RoundTrip.MetadataRoundTrip | library/schema.py:163-169 | validating serialised metadata gives back that metadata |
| RoundTrip.MaintainersReadBack | library/schema.py:196-200 | the maintainers read from a serialised list are that list, in order |
| RoundTrip.ManifestEncodingConforms | library/schema.py:187-209 | every serialised well-formed manifest has the accepted shape |
| RoundTrip.ManifestReadBack | library/schema.py:187-209 | a manifest that reads exactly a serialised manifest is that manifest |
| RoundTrip.ManifestRoundTrip | library/schema.py:187-209 | validating a serialised well-formed manifest gives back that manifest |
| RoundTrip.ValidateIdempotent | library/schema.py:187-209 | re-validating the serialisation of an accepted manifest gives the same result |
| Properties.ManifestFieldsAgree | library/schema.py:187-209 | two manifest objects that agree on the six declared fields validate alike |
| Properties.ManifestIgnoresUndeclared | library/schema.py:187-209 | validating a manifest depends only on its six declared fields: undeclared keys are ignored |
| Properties.ManifestExtraKeyIgnored | library/schema.py:187-209 | adding an undeclared key to a manifest does not change its validation |
| Properties.MetadataExtraKeyIgnored | library/schema.py:163-169 | adding an undeclared key to metadata does not change its validation |
| Properties.RunExtraKeyIgnored | library/schema.py:172-184 | adding an undeclared key to a test record does not change its validation |
| Properties.ManifestCollectsFieldIssues | library/schema.py:192-209 | the manifest's problems include every problem of each of its six fields |
| Properties.FieldIssuesReachTop | library/schema.py:187-209 | when `git` is not a non-dictionary, the top-level result reports every problem of every field |
| Properties.MaintainerIssuesReachTop | library/schema.py:196-200 | when `git` is not a non-dictionary, every problem of the i-th maintainer is reported at the top level under `maintainers.i` |
| Properties.GitIssuesReachTop | library/schema.py:201-203 | when `git` is given and is not a non-dictionary, every problem of its `Git` validation is reported at the top level under `git` |
| Properties.BuildIssuesReachTop | library/schema.py:204-206 | when `git` is not a non-dictionary, every problem of the given `build` is reported at the top level under `build` |
| Properties.MetadataIssuesReachTop | library/schema.py:207-209 | when `git` is not a non-dictionary, every problem of the given `metadata` is reported at the top level under `metadata` |
| Properties.MaintainerMissingEmailReported | library/schema.py:34-38 | a maintainer object without `email` at index i is reported as missing at `maintainers.i.email` |
| Properties.ItemsRejectionReported | library/schema.py:196-200 | a rejected list reports at least one problem when each rejected element does |
| Properties.BuildRejectionReported | library/schema.py:99-160 | a rejected build always reports at least one problem; a platforms or tags list rejected for a bad entry reports that entry |
| Properties.MaintainersRejectionReported | library/schema.py:196-200 | a rejected `maintainers` field reports at least one problem |
| Properties.ManifestRejectionReported | library/schema.py:187-209 | a rejected manifest always reports at least one problem |
| Properties.NeitherCheckoutReported | library/schema.py:90-91 | a manifest whose git names neither sha nor tag is rejected with "Either sha or tag must be provided." at `git` |
| Properties.BothCheckoutsReported | library/schema.py:92-93 | a manifest whose git names both sha and tag is rejected with "Only one of sha or tag may be provided." at `git` |
| Properties.BuildExtraKeyReported | library/schema.py:160 | an undeclared key in `build` is reported as forbidden at `build.<key>` |
| Properties.GitExtraKeyReported | library/schema.py:96 | an undeclared key in git data that passes the checkout check is reported as forbidden at `git.<key>` |
| Properties.MaintainerExtraKeyReported | library/schema.py:50 | an undeclared key in the i-th maintainer is reported as forbidden at `maintainers.i.<key>` |
| Properties.MissingTagsReported | library/schema.py:130-132 | a build without `tags` is reported as missing at `build.tags` |
| Properties.BuildDefaults | library/schema.py:102-129 | a build with only empty `tags` takes the defaults: path `.`, `Dockerfile`, context `.`, builder `buildkit`, platforms `[amd64]` and no optional values |
| Properties.BuilderIsFreeText | library/schema.py:119-124 | `builder` accepts a string outside the `Builder` enumeration and keeps it |
| Properties.DefaultedFieldRejectsNull | library/schema.py:102-129 | null in a defaulted build field (path, dockerfile, context, builder, platforms) is rejected |
| Properties.NullShaIsAbsent | library/schema.py:67-71 | a null `sha` validates exactly like an absent one |

## Left out

- Emitting the JSON Schema (`library/schema.py:212-216`) is output only and is not modelled.
- pydantic's lax coercions into a number are not modelled. For example, pydantic accepts the numeric string `"0.2"` for the float `version`, and the model rejects it.
- `version` is kept as the literal text of the number. Float parsing, rounding and normalisation are not modelled.
- `AnyUrl` parsing is not modelled. It is a parameter `isUrl` of the validation, and the repository URL is kept as given, without normalisation.
- Only the kinds and locations of problems are modelled. pydantic's ordered list of errors and its standard message texts are not. The checkout messages are the exception, kept word for word.
- The forward reference from `Build.test` to `Run` is taken as resolved.
- Schema.ValidateMaintainer, Schema.ValidateGit, Schema.ValidateBuild, Schema.ValidateMetadata, Schema.ManifestRecord: state which problems a rejected record includes (model type, undeclared keys, missing and wrongly typed fields; for a build also every problem of its list, dictionary and `test` readers, and for a manifest every problem of its six fields), but not that it reports no others. Each field reader's own error set is stated exactly. A non-empty report on rejection is proved for all of them (`Properties.ManifestRejectionReported` and the lemmas beside it).
