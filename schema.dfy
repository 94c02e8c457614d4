/** The image manifest schema: the platform and builder enumerations, one record per
    model, and one validator per record that either rejects a raw document with the
    issues found or returns the record with its defaults filled in.

    Each record comes with two predicates over the raw document: `...Conforms` says when
    the validator accepts it, `...ReadsAs` says which record it then yields. */
module Schema {
  import opened Document

  // ---------------------------------------------------------------------------
  // Enumerations

  /** Container architectures a build may target. */
  datatype Architecture = Amd64 | Arm32v5 | Arm32v6 | Arm32v7 | Arm64v8 | WindowsAmd64

  function ArchitectureValue(a: Architecture): string
  {
    match a
    case Amd64 => "amd64"
    case Arm32v5 => "arm32v5"
    case Arm32v6 => "arm32v6"
    case Arm32v7 => "arm32v7"
    case Arm64v8 => "arm64v8"
    case WindowsAmd64 => "windows-amd64"
  }

  /** The member whose value is `s`, if any. */
  function ParseArchitecture(s: string): (r: Option<Architecture>)
    ensures r.Some? ==> ArchitectureValue(r.value) == s
    ensures r.None? ==> forall a :: ArchitectureValue(a) != s
  {
    if s == "amd64" then Some(Amd64)
    else if s == "arm32v5" then Some(Arm32v5)
    else if s == "arm32v6" then Some(Arm32v6)
    else if s == "arm32v7" then Some(Arm32v7)
    else if s == "arm64v8" then Some(Arm64v8)
    else if s == "windows-amd64" then Some(WindowsAmd64)
    else None
  }

  /** Docker build backends. The schema names them but does not enforce them. */
  datatype Builder = Buildkit | Classic | OciImport

  function BuilderValue(b: Builder): string
  {
    match b
    case Buildkit => "buildkit"
    case Classic => "classic"
    case OciImport => "oci-import"
  }

  /** Parsing a member's value gives back that member. */
  lemma ParseArchitectureValue(a: Architecture)
    ensures ParseArchitecture(ArchitectureValue(a)) == Some(a)
  {
  }

  /** The three backend values are distinct, so each names one backend. */
  lemma BuilderValuesDistinct(b: Builder, c: Builder)
    ensures BuilderValue(b) == BuilderValue(c) <==> b == c
  {
  }

  predicate IsArchitectureValue(v: Value) { exists a :: v == Str(ArchitectureValue(a)) }

  /** An element of `platforms`: a value of the enumeration. */
  function Platform(v: Value, at: Path): (r: Result<Architecture>)
    ensures r.Ok? <==> IsArchitectureValue(v)
    ensures r.Ok? ==> v == Str(ArchitectureValue(r.value))
    ensures r.Err? ==> r.issues == {Issue(at, EnumMember)}
  {
    if v.Str? && ParseArchitecture(v.s).Some? then Ok(ParseArchitecture(v.s).value)
    else Err({Issue(at, EnumMember)})
  }

  // ---------------------------------------------------------------------------
  // Maintainer

  datatype Maintainer = Maintainer(name: string, email: string, github: Option<string>, gitlab: Option<string>)

  const MaintainerFields: set<string> := {"name", "email", "github", "gitlab"}

  predicate MaintainerConforms(v: Value)
  {
    && v.Obj?
    && v.fields.Keys <= MaintainerFields
    && HasString(v.fields, "name")
    && HasString(v.fields, "email")
    && StringOrNull(v.fields, "github")
    && StringOrNull(v.fields, "gitlab")
  }

  predicate MaintainerReadsAs(d: map<string, Value>, m: Maintainer)
  {
    && Get(d, "name") == Str(m.name)
    && Get(d, "email") == Str(m.email)
    && ReadsAs(d, "github", m.github)
    && ReadsAs(d, "gitlab", m.gitlab)
  }

  /** Name and email are required; the handles are optional; no other key is allowed. */
  function ValidateMaintainer(v: Value, at: Path): (r: Result<Maintainer>)
    ensures r.Ok? <==> MaintainerConforms(v)
    ensures r.Ok? ==> MaintainerReadsAs(v.fields, r.value)
    ensures !v.Obj? ==> r == Err({Issue(at, ModelType)})
    ensures v.Obj? ==> Unexpected(v.fields, MaintainerFields, at) <= Reported(r)
    ensures v.Obj? && "name" !in v.fields ==> Issue(At(at, "name"), Missing) in Reported(r)
    ensures v.Obj? && "email" !in v.fields ==> Issue(At(at, "email"), Missing) in Reported(r)
    ensures v.Obj? ==> forall k :: k in {"name", "email"} && k in v.fields && !v.fields[k].Str? ==>
      Issue(At(at, k), StringType) in Reported(r)
    ensures v.Obj? ==> forall k :: k in {"github", "gitlab"} && Given(v.fields, k) && !v.fields[k].Str? ==>
      Issue(At(at, k), StringType) in Reported(r)
  {
    if !v.Obj? then Err({Issue(at, ModelType)})
    else
      var d := v.fields;
      var name := RequiredText(d, "name", at);
      var email := RequiredText(d, "email", at);
      var github := OptionalText(d, "github", at);
      var gitlab := OptionalText(d, "gitlab", at);
      var extra := Unexpected(d, MaintainerFields, at);
      if name.Ok? && email.Ok? && github.Ok? && gitlab.Ok? && extra == {} then Ok(Maintainer(name.value, email.value, github.value, gitlab.value))
      else Err(Reported(name) + Reported(email) + Reported(github) + Reported(gitlab) + extra)
  }

  // ---------------------------------------------------------------------------
  // Git

  datatype Git = Git(repo: string, fetch: string, sha: Option<string>, tag: Option<string>)

  const GitFields: set<string> := {"repo", "fetch", "sha", "tag"}
  const DefaultFetch: string := "refs/heads/main"
  const NeitherCheckout: string := "Either sha or tag must be provided."
  const BothCheckouts: string := "Only one of sha or tag may be provided."

  /** Exactly one of `sha` and `tag` is given a non-null value. */
  predicate OneCheckout(d: map<string, Value>) { Given(d, "sha") != Given(d, "tag") }

  /** The record validator that runs on the raw data before any field is read: it
      rejects data naming neither or both checkouts and otherwise hands the data on
      unchanged. Data that is not a dictionary has no `get`, so the check itself fails. */
  function SanitizeCheckout(data: Value, at: Path): (r: Result<Value>)
    ensures r.Ok? <==> data.Obj? && OneCheckout(data.fields)
    ensures r.Ok? ==> r.value == data
    ensures !data.Obj? ==> r == Err({Issue(at, Raised)})
    ensures data.Obj? && !Given(data.fields, "sha") && !Given(data.fields, "tag")
            ==> r == Err({Issue(at, ValueError(NeitherCheckout))})
    ensures data.Obj? && Given(data.fields, "sha") && Given(data.fields, "tag")
            ==> r == Err({Issue(at, ValueError(BothCheckouts))})
  {
    if !data.Obj? then Err({Issue(at, Raised)})
    else if Get(data.fields, "sha") == Null && Get(data.fields, "tag") == Null then
      Err({Issue(at, ValueError(NeitherCheckout))})
    else if Get(data.fields, "sha") != Null && Get(data.fields, "tag") != Null then
      Err({Issue(at, ValueError(BothCheckouts))})
    else Ok(data)
  }

  /** A URL field; `isUrl` stands for the URL parser, which is not part of this model. */
  function Url(v: Value, at: Path, isUrl: string -> bool): (r: Result<string>)
    ensures r.Ok? <==> v.Str? && isUrl(v.s)
    ensures r.Ok? ==> v == Str(r.value)
    ensures !v.Str? ==> Reported(r) == {Issue(at, UrlType)}
    ensures v.Str? && !isUrl(v.s) ==> Reported(r) == {Issue(at, UrlParsing)}
  {
    if !v.Str? then Err({Issue(at, UrlType)})
    else if !isUrl(v.s) then Err({Issue(at, UrlParsing)})
    else Ok(v.s)
  }

  predicate GitConforms(v: Value, isUrl: string -> bool)
  {
    && v.Obj?
    && OneCheckout(v.fields)
    && v.fields.Keys <= GitFields
    && HasString(v.fields, "repo") && isUrl(v.fields["repo"].s)
    && StringIfPresent(v.fields, "fetch")
    && StringOrNull(v.fields, "sha")
    && StringOrNull(v.fields, "tag")
  }

  predicate GitReadsAs(d: map<string, Value>, g: Git)
  {
    && Get(d, "repo") == Str(g.repo)
    && ReadsOr(d, "fetch", DefaultFetch, g.fetch)
    && ReadsAs(d, "sha", g.sha)
    && ReadsAs(d, "tag", g.tag)
  }

  /** What every accepted Git record satisfies. */
  predicate GitWellFormed(g: Git, isUrl: string -> bool)
  {
    isUrl(g.repo) && (g.sha.Some? != g.tag.Some?)
  }

  /** The checkout validator runs first; only data it lets through has its fields read. */
  function ValidateGit(v: Value, at: Path, isUrl: string -> bool): (r: Result<Git>)
    ensures r.Ok? <==> GitConforms(v, isUrl)
    ensures r.Ok? ==> GitReadsAs(v.fields, r.value)
    ensures r.Ok? ==> GitWellFormed(r.value, isUrl)
    ensures SanitizeCheckout(v, at).Err? ==> r == Err(SanitizeCheckout(v, at).issues)
    ensures SanitizeCheckout(v, at).Ok? ==> Unexpected(v.fields, GitFields, at) <= Reported(r)
    ensures SanitizeCheckout(v, at).Ok? && "repo" !in v.fields ==> Issue(At(at, "repo"), Missing) in Reported(r)
    ensures SanitizeCheckout(v, at).Ok? && "repo" in v.fields && !v.fields["repo"].Str? ==>
      Issue(At(at, "repo"), UrlType) in Reported(r)
    ensures SanitizeCheckout(v, at).Ok? && "repo" in v.fields && v.fields["repo"].Str? && !isUrl(v.fields["repo"].s) ==>
      Issue(At(at, "repo"), UrlParsing) in Reported(r)
    ensures SanitizeCheckout(v, at).Ok? && "fetch" in v.fields && !v.fields["fetch"].Str? ==>
      Issue(At(at, "fetch"), StringType) in Reported(r)
    ensures SanitizeCheckout(v, at).Ok? ==> forall k :: k in {"sha", "tag"} && Given(v.fields, k) && !v.fields[k].Str? ==>
      Issue(At(at, k), StringType) in Reported(r)
  {
    match SanitizeCheckout(v, at)
    case Err(e) => Err(e)
    case Ok(data) => GitRecord(data.fields, at, isUrl)
  }

  /** The field reading of `ValidateGit`, once the checkout validator has let the data through. */
  function GitRecord(d: map<string, Value>, at: Path, isUrl: string -> bool): Result<Git>
  {
    var repo := Required(d, "repo", at, (x, p) => Url(x, p, isUrl));
    var fetch := TextOr(d, "fetch", DefaultFetch, at);
    var sha := OptionalText(d, "sha", at);
    var tag := OptionalText(d, "tag", at);
    var extra := Unexpected(d, GitFields, at);
    if repo.Ok? && fetch.Ok? && sha.Ok? && tag.Ok? && extra == {} then Ok(Git(repo.value, fetch.value, sha.value, tag.value))
    else Err(Reported(repo) + Reported(fetch) + Reported(sha) + Reported(tag) + extra)
  }

  // ---------------------------------------------------------------------------
  // Run (the image test)

  datatype Run = Run(cmd: Option<string>)

  predicate RunConforms(v: Value) { v.Obj? && StringOrNull(v.fields, "cmd") }

  /** The command is optional; other keys are ignored. */
  function ValidateRun(v: Value, at: Path): (r: Result<Run>)
    ensures r.Ok? <==> RunConforms(v)
    ensures r.Ok? ==> ReadsAs(v.fields, "cmd", r.value.cmd)
    ensures !v.Obj? ==> r == Err({Issue(at, ModelType)})
    ensures v.Obj? && Given(v.fields, "cmd") && !v.fields["cmd"].Str? ==> r == Err({Issue(At(at, "cmd"), StringType)})
  {
    if !v.Obj? then Err({Issue(at, ModelType)})
    else
      match OptionalText(v.fields, "cmd", at)
      case Ok(cmd) => Ok(Run(cmd))
      case Err(e) => Err(e)
  }

  // ---------------------------------------------------------------------------
  // Build

  datatype Build = Build(
    path: string,
    dockerfile: string,
    context: string,
    builder: string,
    platforms: seq<Architecture>,
    tags: seq<string>,
    args: Option<map<string, string>>,
    annotations: Option<map<string, string>>,
    labels: Option<map<string, string>>,
    target: Option<string>,
    test: Option<Run>)

  const BuildFields: set<string> :=
    {"path", "dockerfile", "context", "builder", "platforms", "tags",
     "args", "annotations", "labels", "target", "test"}
  const DefaultPath: string := "."
  const DefaultDockerfile: string := "Dockerfile"
  const DefaultContext: string := "."
  const DefaultBuilder: string := BuilderValue(Buildkit)
  const DefaultPlatforms: seq<Architecture> := [Amd64]

  predicate IsPlatformList(v: Value)
  {
    v.Arr? && forall i :: 0 <= i < |v.items| ==> IsArchitectureValue(v.items[i])
  }

  predicate BuildConforms(v: Value)
  {
    && v.Obj?
    && v.fields.Keys <= BuildFields
    && StringIfPresent(v.fields, "path")
    && StringIfPresent(v.fields, "dockerfile")
    && StringIfPresent(v.fields, "context")
    && StringIfPresent(v.fields, "builder")
    && ("platforms" in v.fields ==> IsPlatformList(v.fields["platforms"]))
    && "tags" in v.fields && IsStringList(v.fields["tags"])
    && StringDictOrNull(v.fields, "args")
    && StringDictOrNull(v.fields, "annotations")
    && StringDictOrNull(v.fields, "labels")
    && StringOrNull(v.fields, "target")
    && (Given(v.fields, "test") ==> RunConforms(v.fields["test"]))
  }

  /** `p` is what the `platforms` field reads as. */
  predicate PlatformsReadAs(d: map<string, Value>, p: seq<Architecture>)
  {
    && ("platforms" !in d ==> p == DefaultPlatforms)
    && ("platforms" in d ==>
          d["platforms"].Arr? && |d["platforms"].items| == |p|
          && forall i :: 0 <= i < |p| ==> d["platforms"].items[i] == Str(ArchitectureValue(p[i])))
  }

  /** `o` is what the optional test record reads as. */
  predicate TestReadsAs(d: map<string, Value>, o: Option<Run>)
  {
    && (o.None? <==> !Given(d, "test"))
    && (o.Some? ==> d["test"].Obj? && ReadsAs(d["test"].fields, "cmd", o.value.cmd))
  }

  predicate BuildReadsAs(d: map<string, Value>, b: Build)
  {
    && ReadsOr(d, "path", DefaultPath, b.path)
    && ReadsOr(d, "dockerfile", DefaultDockerfile, b.dockerfile)
    && ReadsOr(d, "context", DefaultContext, b.context)
    && ReadsOr(d, "builder", DefaultBuilder, b.builder)
    && PlatformsReadAs(d, b.platforms)
    && StringsReadAs(Get(d, "tags"), b.tags)
    && DictFieldReadsAs(d, "args", b.args)
    && DictFieldReadsAs(d, "annotations", b.annotations)
    && DictFieldReadsAs(d, "labels", b.labels)
    && ReadsAs(d, "target", b.target)
    && TestReadsAs(d, b.test)
  }

  /** The problems of a list of platforms are exactly those of its entries that are not
      enumeration values, each at its index. */
  lemma PlatformListIssues(xs: seq<Value>, at: Path)
    ensures forall i :: 0 <= i < |xs| && !IsArchitectureValue(xs[i]) ==>
      Issue(at + [Index(i)], EnumMember) in Reported(Items(xs, at, Platform))
    ensures forall e :: e in Reported(Items(xs, at, Platform)) ==>
      exists i :: 0 <= i < |xs| && !IsArchitectureValue(xs[i]) && e == Issue(at + [Index(i)], EnumMember)
  {
    var r := Items(xs, at, Platform);
    forall e | e in Reported(r)
      ensures exists i :: 0 <= i < |xs| && !IsArchitectureValue(xs[i]) && e == Issue(at + [Index(i)], EnumMember)
    {
      var i :| 0 <= i < |xs| && e in Reported(Platform(xs[i], at + [Index(i)]));
      assert e == Issue(at + [Index(i)], EnumMember);
    }
  }

  /** A list of enumeration values, each reported at its index when it is not one. */
  function PlatformList(v: Value, at: Path): (r: Result<seq<Architecture>>)
    ensures r.Ok? <==> IsPlatformList(v)
    ensures r.Ok? ==> v.Arr? && |v.items| == |r.value|
                      && forall i :: 0 <= i < |r.value| ==> v.items[i] == Str(ArchitectureValue(r.value[i]))
    ensures !v.Arr? ==> Reported(r) == {Issue(at, ListType)}
    ensures v.Arr? ==>
      forall i :: 0 <= i < |v.items| && !IsArchitectureValue(v.items[i]) ==> Issue(at + [Index(i)], EnumMember) in Reported(r)
    ensures v.Arr? ==>
      forall e :: e in Reported(r) ==>
        exists i :: 0 <= i < |v.items| && !IsArchitectureValue(v.items[i]) && e == Issue(at + [Index(i)], EnumMember)
  {
    var r := List(v, at, Platform);
    assert r.Ok? ==> forall i :: 0 <= i < |r.value| ==> v.items[i] == Str(ArchitectureValue(r.value[i])) by {
      if r.Ok? {
        forall i | 0 <= i < |v.items| ensures v.items[i] == Str(ArchitectureValue(r.value[i])) {
          assert Platform(v.items[i], at + [Index(i)]).Ok?;
        }
      }
    }
    if v.Arr? then PlatformListIssues(v.items, at); r
    else r
  }

  /** The `platforms` field: a list of enumeration values, one platform by default. */
  function Platforms(d: map<string, Value>, at: Path): (r: Result<seq<Architecture>>)
    ensures r.Ok? <==> ("platforms" in d ==> IsPlatformList(d["platforms"]))
    ensures r.Ok? ==> PlatformsReadAs(d, r.value)
    ensures "platforms" in d && !d["platforms"].Arr? ==> Reported(r) == {Issue(At(at, "platforms"), ListType)}
    ensures "platforms" in d && d["platforms"].Arr? ==>
      forall i :: 0 <= i < |d["platforms"].items| && !IsArchitectureValue(d["platforms"].items[i]) ==>
        Issue(At(at, "platforms") + [Index(i)], EnumMember) in Reported(r)
    ensures "platforms" in d && d["platforms"].Arr? ==>
      forall e :: e in Reported(r) ==>
        exists i :: 0 <= i < |d["platforms"].items| && !IsArchitectureValue(d["platforms"].items[i])
                    && e == Issue(At(at, "platforms") + [Index(i)], EnumMember)
  {
    Defaulted(d, "platforms", DefaultPlatforms, at, PlatformList)
  }

  /** The optional `test` field. */
  function Test(d: map<string, Value>, at: Path): (r: Result<Option<Run>>)
    ensures r.Ok? <==> (Given(d, "test") ==> RunConforms(d["test"]))
    ensures r.Ok? ==> TestReadsAs(d, r.value)
    ensures Given(d, "test") && !d["test"].Obj? ==> Reported(r) == {Issue(At(at, "test"), ModelType)}
    ensures Given(d, "test") ==> Reported(r) == Reported(ValidateRun(d["test"], At(at, "test")))
  {
    Nullable(d, "test", at, ValidateRun)
  }

  /** Path, dockerfile, context, builder and platforms have defaults, `tags` is required,
      the rest are optional; no other key is allowed. `builder` is any string. */
  function ValidateBuild(v: Value, at: Path): (r: Result<Build>)
    ensures r.Ok? <==> BuildConforms(v)
    ensures r.Ok? ==> BuildReadsAs(v.fields, r.value)
    ensures !v.Obj? ==> r == Err({Issue(at, ModelType)})
    ensures v.Obj? ==> Unexpected(v.fields, BuildFields, at) <= Reported(r)
    ensures v.Obj? && "tags" !in v.fields ==> Issue(At(at, "tags"), Missing) in Reported(r)
  {
    if !v.Obj? then Err({Issue(at, ModelType)})
    else
      var d := v.fields;
      var path := TextOr(d, "path", DefaultPath, at);
      var dockerfile := TextOr(d, "dockerfile", DefaultDockerfile, at);
      var context := TextOr(d, "context", DefaultContext, at);
      var builder := TextOr(d, "builder", DefaultBuilder, at);
      var platforms := Platforms(d, at);
      var tags := TextList(d, "tags", at);
      var args := OptionalDict(d, "args", at);
      var annotations := OptionalDict(d, "annotations", at);
      var labels := OptionalDict(d, "labels", at);
      var target := OptionalText(d, "target", at);
      var test := Test(d, at);
      var extra := Unexpected(d, BuildFields, at);
      if && path.Ok? && dockerfile.Ok? && context.Ok? && builder.Ok? && platforms.Ok? && tags.Ok?
         && args.Ok? && annotations.Ok? && labels.Ok? && target.Ok? && test.Ok? && extra == {} then
        Ok(Build(path.value, dockerfile.value, context.value, builder.value, platforms.value, tags.value,
                 args.value, annotations.value, labels.value, target.value, test.value))
      else Err(Reported(path) + Reported(dockerfile) + Reported(context) + Reported(builder)
               + Reported(platforms) + Reported(tags) + Reported(args) + Reported(annotations)
               + Reported(labels) + Reported(target) + Reported(test) + extra)
  }

  /** A build field present with the wrong shape is reported at that field. */
  lemma BuildReportsWrongTypes(v: Value, at: Path)
    requires v.Obj?
    ensures forall k :: k in {"path", "dockerfile", "context", "builder"} && k in v.fields && !v.fields[k].Str? ==>
      Issue(At(at, k), StringType) in Reported(ValidateBuild(v, at))
    ensures forall k :: k in {"platforms", "tags"} && k in v.fields && !v.fields[k].Arr? ==>
      Issue(At(at, k), ListType) in Reported(ValidateBuild(v, at))
    ensures forall k :: k in {"args", "annotations", "labels"} && Given(v.fields, k) && !v.fields[k].Obj? ==>
      Issue(At(at, k), DictType) in Reported(ValidateBuild(v, at))
    ensures Given(v.fields, "target") && !v.fields["target"].Str? ==> Issue(At(at, "target"), StringType) in Reported(ValidateBuild(v, at))
    ensures Given(v.fields, "test") && !v.fields["test"].Obj? ==> Issue(At(at, "test"), ModelType) in Reported(ValidateBuild(v, at))
    ensures Reported(Platforms(v.fields, at)) <= Reported(ValidateBuild(v, at))
    ensures Reported(TextList(v.fields, "tags", at)) <= Reported(ValidateBuild(v, at))
    ensures forall k :: k in {"args", "annotations", "labels"} ==>
      Reported(OptionalDict(v.fields, k, at)) <= Reported(ValidateBuild(v, at))
    ensures Reported(Test(v.fields, at)) <= Reported(ValidateBuild(v, at))
  {
  }

  // ---------------------------------------------------------------------------
  // Metadata

  datatype Metadata = Metadata(identifier: string, project: string)

  predicate MetadataConforms(v: Value)
  {
    v.Obj? && HasString(v.fields, "identifier") && HasString(v.fields, "project")
  }

  predicate MetadataReadsAs(d: map<string, Value>, m: Metadata)
  {
    Get(d, "identifier") == Str(m.identifier) && Get(d, "project") == Str(m.project)
  }

  /** Both fields are required; other keys are ignored. */
  function ValidateMetadata(v: Value, at: Path): (r: Result<Metadata>)
    ensures r.Ok? <==> MetadataConforms(v)
    ensures r.Ok? ==> MetadataReadsAs(v.fields, r.value)
    ensures !v.Obj? ==> r == Err({Issue(at, ModelType)})
    ensures v.Obj? && "identifier" !in v.fields ==> Issue(At(at, "identifier"), Missing) in Reported(r)
    ensures v.Obj? && "project" !in v.fields ==> Issue(At(at, "project"), Missing) in Reported(r)
    ensures v.Obj? ==> forall k :: k in {"identifier", "project"} && k in v.fields && !v.fields[k].Str? ==>
      Issue(At(at, k), StringType) in Reported(r)
  {
    if !v.Obj? then Err({Issue(at, ModelType)})
    else
      var identifier := RequiredText(v.fields, "identifier", at);
      var project := RequiredText(v.fields, "project", at);
      if identifier.Ok? && project.Ok? then Ok(Metadata(identifier.value, project.value))
      else Err(Reported(identifier) + Reported(project))
  }

  // ---------------------------------------------------------------------------
  // Manifest

  datatype Manifest = Manifest(
    version: string,
    name: string,
    maintainers: seq<Maintainer>,
    git: Git,
    build: Build,
    metadata: Metadata)

  const ManifestFields: set<string> := {"version", "name", "maintainers", "git", "build", "metadata"}
  const ManifestRequired: set<string> := {"name", "maintainers", "git", "build", "metadata"}
  /** The version is a floating-point number, kept here as its literal text. */
  const DefaultVersion: string := "0.2"

  /** A `git` value that is not a dictionary makes the checkout validator fail outright. */
  predicate GitRaises(d: map<string, Value>) { "git" in d && !d["git"].Obj? }

  predicate AllMaintainersConform(v: Value)
  {
    v.Arr? && forall i :: 0 <= i < |v.items| ==> MaintainerConforms(v.items[i])
  }

  predicate ManifestConforms(v: Value, isUrl: string -> bool)
  {
    v.Obj? && FieldsConform(v.fields, isUrl)
  }

  predicate FieldsConform(d: map<string, Value>, isUrl: string -> bool)
  {
    && ("version" in d ==> d["version"].Num?)
    && HasString(d, "name")
    && "maintainers" in d && AllMaintainersConform(d["maintainers"])
    && "git" in d && GitConforms(d["git"], isUrl)
    && "build" in d && BuildConforms(d["build"])
    && "metadata" in d && MetadataConforms(d["metadata"])
  }

  /** `ms` are the maintainer records read from the list `v`, in order. */
  predicate MaintainersReadAs(v: Value, ms: seq<Maintainer>)
  {
    && v.Arr? && |v.items| == |ms|
    && forall i :: 0 <= i < |ms| ==> MaintainerReadsAs(Fields(v.items[i]), ms[i])
  }

  /** `s` is what the `version` field reads as. */
  predicate VersionReadsAs(d: map<string, Value>, s: string)
  {
    ("version" !in d ==> s == DefaultVersion) && ("version" in d ==> d["version"] == Num(s))
  }

  predicate ManifestReadsAs(d: map<string, Value>, m: Manifest)
  {
    && VersionReadsAs(d, m.version)
    && Get(d, "name") == Str(m.name)
    && MaintainersReadAs(Get(d, "maintainers"), m.maintainers)
    && GitReadsAs(Fields(Get(d, "git")), m.git)
    && BuildReadsAs(Fields(Get(d, "build")), m.build)
    && MetadataReadsAs(Fields(Get(d, "metadata")), m.metadata)
  }

  /** Every accepted manifest satisfies this. */
  predicate WellFormed(m: Manifest, isUrl: string -> bool) { GitWellFormed(m.git, isUrl) }

  /** The `version` field: a number. */
  function Version(v: Value, at: Path): (r: Result<string>)
    ensures r.Ok? <==> v.Num?
    ensures r.Ok? ==> v == Num(r.value)
    ensures r.Err? ==> r.issues == {Issue(at, FloatType)}
  {
    if v.Num? then Ok(v.literal) else Err({Issue(at, FloatType)})
  }

  /** The `version` field, with its default. */
  function VersionField(d: map<string, Value>): (r: Result<string>)
    ensures r.Ok? <==> ("version" in d ==> d["version"].Num?)
    ensures r.Ok? ==> VersionReadsAs(d, r.value)
    ensures "version" in d && !d["version"].Num? ==> Reported(r) == {Issue(At([], "version"), FloatType)}
  {
    Defaulted(d, "version", DefaultVersion, [], Version)
  }

  /** The `maintainers` field: a required list of maintainer records. */
  function Maintainers(d: map<string, Value>): (r: Result<seq<Maintainer>>)
    ensures r.Ok? <==> "maintainers" in d && AllMaintainersConform(d["maintainers"])
    ensures r.Ok? ==> MaintainersReadAs(Get(d, "maintainers"), r.value)
    ensures "maintainers" !in d ==> Reported(r) == {Issue(At([], "maintainers"), Missing)}
    ensures "maintainers" in d && !d["maintainers"].Arr? ==> Reported(r) == {Issue(At([], "maintainers"), ListType)}
    ensures "maintainers" in d && d["maintainers"].Arr? ==>
      forall i :: 0 <= i < |d["maintainers"].items| ==>
        Reported(ValidateMaintainer(d["maintainers"].items[i], At([], "maintainers") + [Index(i)])) <= Reported(r)
    ensures "maintainers" in d && d["maintainers"].Arr? ==>
      forall e :: e in Reported(r) ==>
        exists i :: 0 <= i < |d["maintainers"].items| &&
          e in Reported(ValidateMaintainer(d["maintainers"].items[i], At([], "maintainers") + [Index(i)]))
  {
    var r := Required(d, "maintainers", [], (x, p) => List(x, p, ValidateMaintainer));
    assert r.Ok? ==> MaintainersReadAs(d["maintainers"], r.value) by {
      if r.Ok? {
        var xs := d["maintainers"].items;
        forall i | 0 <= i < |xs| ensures MaintainerReadsAs(Fields(xs[i]), r.value[i]) {
          assert ValidateMaintainer(xs[i], At([], "maintainers") + [Index(i)]).Ok?;
        }
      }
    }
    r
  }

  /** The required `git` record. */
  function GitField(d: map<string, Value>, isUrl: string -> bool): (r: Result<Git>)
    ensures r.Ok? <==> "git" in d && GitConforms(d["git"], isUrl)
    ensures r.Ok? ==> GitReadsAs(Fields(Get(d, "git")), r.value) && GitWellFormed(r.value, isUrl)
    ensures "git" !in d ==> Reported(r) == {Issue(At([], "git"), Missing)}
    ensures "git" in d ==> Reported(r) == Reported(ValidateGit(d["git"], At([], "git"), isUrl))
  {
    Required(d, "git", [], (x, p) => ValidateGit(x, p, isUrl))
  }

  /** The required `build` record. */
  function BuildField(d: map<string, Value>): (r: Result<Build>)
    ensures r.Ok? <==> "build" in d && BuildConforms(d["build"])
    ensures r.Ok? ==> BuildReadsAs(Fields(Get(d, "build")), r.value)
    ensures "build" !in d ==> Reported(r) == {Issue(At([], "build"), Missing)}
    ensures "build" in d && !d["build"].Obj? ==> Reported(r) == {Issue(At([], "build"), ModelType)}
    ensures "build" in d ==> Reported(r) == Reported(ValidateBuild(d["build"], At([], "build")))
  {
    Required(d, "build", [], ValidateBuild)
  }

  /** The required `metadata` record. */
  function MetadataField(d: map<string, Value>): (r: Result<Metadata>)
    ensures r.Ok? <==> "metadata" in d && MetadataConforms(d["metadata"])
    ensures r.Ok? ==> MetadataReadsAs(Fields(Get(d, "metadata")), r.value)
    ensures "metadata" !in d ==> Reported(r) == {Issue(At([], "metadata"), Missing)}
    ensures "metadata" in d && !d["metadata"].Obj? ==> Reported(r) == {Issue(At([], "metadata"), ModelType)}
    ensures "metadata" in d ==> Reported(r) == Reported(ValidateMetadata(d["metadata"], At([], "metadata")))
  {
    Required(d, "metadata", [], ValidateMetadata)
  }

  /** The fields of a manifest document, once the document is known to be a dictionary
      whose `git` entry the checkout validator can inspect. */
  function ManifestRecord(d: map<string, Value>, isUrl: string -> bool): (r: Result<Manifest>)
    ensures r.Ok? <==> FieldsConform(d, isUrl)
    ensures r.Ok? ==> ManifestReadsAs(d, r.value) && WellFormed(r.value, isUrl)
    ensures forall k :: k in ManifestRequired && k !in d ==> Issue(At([], k), Missing) in Reported(r)
  {
    var version := VersionField(d);
    var name := RequiredText(d, "name", []);
    var maintainers := Maintainers(d);
    var git := GitField(d, isUrl);
    var build := BuildField(d);
    var metadata := MetadataField(d);
    if version.Ok? && name.Ok? && maintainers.Ok? && git.Ok? && build.Ok? && metadata.Ok? then
      Ok(Manifest(version.value, name.value, maintainers.value, git.value, build.value, metadata.value))
    else Err(Reported(version) + Reported(name) + Reported(maintainers)
             + Reported(git) + Reported(build) + Reported(metadata))
  }

  /** A manifest field present with the wrong shape is reported at that field. */
  lemma ManifestReportsWrongTypes(d: map<string, Value>, isUrl: string -> bool)
    ensures "version" in d && !d["version"].Num? ==> Issue(At([], "version"), FloatType) in Reported(ManifestRecord(d, isUrl))
    ensures "name" in d && !d["name"].Str? ==> Issue(At([], "name"), StringType) in Reported(ManifestRecord(d, isUrl))
    ensures "maintainers" in d && !d["maintainers"].Arr? ==>
      Issue(At([], "maintainers"), ListType) in Reported(ManifestRecord(d, isUrl))
    ensures forall k :: k in {"build", "metadata"} && k in d && !d[k].Obj? ==>
      Issue(At([], k), ModelType) in Reported(ManifestRecord(d, isUrl))
  {
  }

  /** Validates a whole manifest document. Keys outside the declared fields are ignored at
      this level; the nested records decide for themselves. */
  function ValidateManifest(v: Value, isUrl: string -> bool): (r: Result<Manifest>)
    ensures r.Ok? <==> ManifestConforms(v, isUrl)
    ensures r.Ok? ==> ManifestReadsAs(v.fields, r.value) && WellFormed(r.value, isUrl)
    ensures !v.Obj? ==> r == Err({Issue([], ModelType)})
    ensures v.Obj? && GitRaises(v.fields) ==> r == Err({Issue(At([], "git"), Raised)})
    ensures v.Obj? && !GitRaises(v.fields) ==> r == ManifestRecord(v.fields, isUrl)
  {
    if !v.Obj? then Err({Issue([], ModelType)})
    else if GitRaises(v.fields) then Err({Issue(At([], "git"), Raised)})
    else ManifestRecord(v.fields, isUrl)
  }
}
