/** Writing a record back out as a document, and what validating that document gives:
    every record the schema can produce is read back unchanged, so an accepted document
    and its re-serialisation validate to the same manifest. */
module RoundTrip {
  import opened Document
  import opened Schema

  // ---------------------------------------------------------------------------
  // Serialisation: absent optional values are written as null

  function EncodeText(o: Option<string>): Value
  {
    match o
    case None => Null
    case Some(s) => Str(s)
  }

  function EncodeDict(m: map<string, string>): Value
  {
    Obj(map k | k in m :: Str(m[k]))
  }

  function EncodeOptionalDict(o: Option<map<string, string>>): Value
  {
    match o
    case None => Null
    case Some(m) => EncodeDict(m)
  }

  function EncodeStrings(t: seq<string>): Value
  {
    Arr(seq(|t|, i requires 0 <= i < |t| => Str(t[i])))
  }

  function EncodePlatforms(p: seq<Architecture>): Value
  {
    Arr(seq(|p|, i requires 0 <= i < |p| => Str(ArchitectureValue(p[i]))))
  }

  function EncodeMaintainer(m: Maintainer): Value
  {
    Obj(map["name" := Str(m.name), "email" := Str(m.email),
            "github" := EncodeText(m.github), "gitlab" := EncodeText(m.gitlab)])
  }

  function EncodeMaintainers(ms: seq<Maintainer>): Value
  {
    Arr(seq(|ms|, i requires 0 <= i < |ms| => EncodeMaintainer(ms[i])))
  }

  function EncodeGit(g: Git): Value
  {
    Obj(map["repo" := Str(g.repo), "fetch" := Str(g.fetch),
            "sha" := EncodeText(g.sha), "tag" := EncodeText(g.tag)])
  }

  function EncodeRun(r: Run): Value
  {
    Obj(map["cmd" := EncodeText(r.cmd)])
  }

  function EncodeTest(o: Option<Run>): Value
  {
    match o
    case None => Null
    case Some(r) => EncodeRun(r)
  }

  function EncodeBuild(b: Build): Value
  {
    Obj(map[
      "path" := Str(b.path),
      "dockerfile" := Str(b.dockerfile),
      "context" := Str(b.context),
      "builder" := Str(b.builder),
      "platforms" := EncodePlatforms(b.platforms),
      "tags" := EncodeStrings(b.tags),
      "args" := EncodeOptionalDict(b.args),
      "annotations" := EncodeOptionalDict(b.annotations),
      "labels" := EncodeOptionalDict(b.labels),
      "target" := EncodeText(b.target),
      "test" := EncodeTest(b.test)])
  }

  function EncodeMetadata(m: Metadata): Value
  {
    Obj(map["identifier" := Str(m.identifier), "project" := Str(m.project)])
  }

  function EncodeManifest(m: Manifest): Value
  {
    Obj(map[
      "version" := Num(m.version),
      "name" := Str(m.name),
      "maintainers" := EncodeMaintainers(m.maintainers),
      "git" := EncodeGit(m.git),
      "build" := EncodeBuild(m.build),
      "metadata" := EncodeMetadata(m.metadata)])
  }

  // ---------------------------------------------------------------------------
  // Reading back a serialised value gives the value

  lemma TextReadBack(d: map<string, Value>, key: string, o: Option<string>, x: Option<string>)
    requires key in d && d[key] == EncodeText(x) && ReadsAs(d, key, o)
    ensures o == x
  {
  }

  lemma DictReadBack(m: map<string, string>, n: map<string, string>)
    requires DictReadsAs(EncodeDict(m), n)
    ensures n == m
  {
    forall k | k in m ensures n[k] == m[k] {
      assert EncodeDict(m).fields[k] == Str(n[k]);
    }
  }

  lemma MaintainerReadBack(m: Maintainer, n: Maintainer)
    requires MaintainerReadsAs(EncodeMaintainer(m).fields, n)
    ensures n == m
  {
    var d := EncodeMaintainer(m).fields;
    TextReadBack(d, "github", n.github, m.github);
    TextReadBack(d, "gitlab", n.gitlab, m.gitlab);
  }

  lemma MaintainerRoundTrip(m: Maintainer, at: Path)
    ensures ValidateMaintainer(EncodeMaintainer(m), at) == Ok(m)
  {
    assert MaintainerConforms(EncodeMaintainer(m));
    MaintainerReadBack(m, ValidateMaintainer(EncodeMaintainer(m), at).value);
  }

  lemma GitReadBack(g: Git, h: Git)
    requires GitReadsAs(EncodeGit(g).fields, h)
    ensures h == g
  {
    var d := EncodeGit(g).fields;
    TextReadBack(d, "sha", h.sha, g.sha);
    TextReadBack(d, "tag", h.tag, g.tag);
  }

  lemma GitRoundTrip(g: Git, at: Path, isUrl: string -> bool)
    requires GitWellFormed(g, isUrl)
    ensures ValidateGit(EncodeGit(g), at, isUrl) == Ok(g)
  {
    assert GitConforms(EncodeGit(g), isUrl);
    GitReadBack(g, ValidateGit(EncodeGit(g), at, isUrl).value);
  }

  lemma RunRoundTrip(t: Run, at: Path)
    ensures ValidateRun(EncodeRun(t), at) == Ok(t)
  {
    var v := EncodeRun(t);
    TextReadBack(v.fields, "cmd", ValidateRun(v, at).value.cmd, t.cmd);
  }

  lemma PlatformsReadBack(p: seq<Architecture>, d: map<string, Value>, q: seq<Architecture>)
    requires "platforms" in d && d["platforms"] == EncodePlatforms(p) && PlatformsReadAs(d, q)
    ensures q == p
  {
    var xs := EncodePlatforms(p).items;
    forall i | 0 <= i < |p| ensures q[i] == p[i] {
      assert xs[i] == Str(ArchitectureValue(q[i]));
      ParseArchitectureValue(p[i]);
      ParseArchitectureValue(q[i]);
    }
  }

  lemma EncodedBuildTexts(b: Build)
    ensures var d := EncodeBuild(b).fields;
      && d["path"] == Str(b.path)
      && d["dockerfile"] == Str(b.dockerfile)
      && d["context"] == Str(b.context)
      && d["builder"] == Str(b.builder)
  {
  }

  lemma EncodedBuildLists(b: Build)
    ensures var d := EncodeBuild(b).fields;
      && d["platforms"] == EncodePlatforms(b.platforms)
      && d["tags"] == EncodeStrings(b.tags)
      && d["target"] == EncodeText(b.target)
      && d["test"] == EncodeTest(b.test)
  {
  }

  lemma EncodedBuildDicts(b: Build)
    ensures var d := EncodeBuild(b).fields;
      && d["args"] == EncodeOptionalDict(b.args)
      && d["annotations"] == EncodeOptionalDict(b.annotations)
      && d["labels"] == EncodeOptionalDict(b.labels)
  {
  }

  /** A serialised build carries exactly the declared fields. */
  lemma EncodedBuildKeys(b: Build)
    ensures EncodeBuild(b).fields.Keys == BuildFields
  {
  }

  /** Where each field of a build lands in its serialisation. */
  lemma EncodedBuildFields(b: Build)
    ensures var d := EncodeBuild(b).fields;
      && d.Keys == BuildFields
      && d["path"] == Str(b.path)
      && d["dockerfile"] == Str(b.dockerfile)
      && d["context"] == Str(b.context)
      && d["builder"] == Str(b.builder)
      && d["platforms"] == EncodePlatforms(b.platforms)
      && d["tags"] == EncodeStrings(b.tags)
      && d["args"] == EncodeOptionalDict(b.args)
      && d["annotations"] == EncodeOptionalDict(b.annotations)
      && d["labels"] == EncodeOptionalDict(b.labels)
      && d["target"] == EncodeText(b.target)
      && d["test"] == EncodeTest(b.test)
  {
    EncodedBuildKeys(b);
    EncodedBuildTexts(b);
    EncodedBuildLists(b);
    EncodedBuildDicts(b);
  }

  lemma BuildEncodingConforms(b: Build)
    ensures BuildConforms(EncodeBuild(b))
  {
    EncodedBuildFields(b);
    var d := EncodeBuild(b).fields;
    assert IsPlatformList(d["platforms"]) by {
      var xs := d["platforms"].items;
      forall i | 0 <= i < |xs| ensures IsArchitectureValue(xs[i]) {
        assert xs[i] == Str(ArchitectureValue(b.platforms[i]));
      }
    }
    assert IsStringList(d["tags"]);
  }

  lemma BuildReadBack(b: Build, c: Build)
    requires BuildReadsAs(EncodeBuild(b).fields, c)
    ensures c == b
  {
    EncodedBuildFields(b);
    var d := EncodeBuild(b).fields;
    PlatformsReadBack(b.platforms, d, c.platforms);
    assert c.tags == b.tags;
    if b.args.Some? { DictReadBack(b.args.value, c.args.value); }
    if b.annotations.Some? { DictReadBack(b.annotations.value, c.annotations.value); }
    if b.labels.Some? { DictReadBack(b.labels.value, c.labels.value); }
    TextReadBack(d, "target", c.target, b.target);
    if b.test.Some? {
      TextReadBack(d["test"].fields, "cmd", c.test.value.cmd, b.test.value.cmd);
    }
  }

  lemma BuildRoundTrip(b: Build, at: Path)
    ensures ValidateBuild(EncodeBuild(b), at) == Ok(b)
  {
    BuildEncodingConforms(b);
    BuildReadBack(b, ValidateBuild(EncodeBuild(b), at).value);
  }

  lemma MetadataRoundTrip(m: Metadata, at: Path)
    ensures ValidateMetadata(EncodeMetadata(m), at) == Ok(m)
  {
  }

  lemma MaintainersReadBack(ms: seq<Maintainer>, ns: seq<Maintainer>)
    requires MaintainersReadAs(EncodeMaintainers(ms), ns)
    ensures ns == ms
  {
    forall i | 0 <= i < |ms| ensures ns[i] == ms[i] {
      MaintainerReadBack(ms[i], ns[i]);
    }
  }

  lemma MaintainersEncodingConform(ms: seq<Maintainer>)
    ensures AllMaintainersConform(EncodeMaintainers(ms))
  {
    var xs := EncodeMaintainers(ms).items;
    forall i | 0 <= i < |xs| ensures MaintainerConforms(xs[i]) {
      assert xs[i] == EncodeMaintainer(ms[i]);
    }
  }

  lemma GitEncodingConforms(g: Git, isUrl: string -> bool)
    requires GitWellFormed(g, isUrl)
    ensures GitConforms(EncodeGit(g), isUrl)
  {
  }

  lemma EncodedManifestFields(m: Manifest)
    ensures "version" in EncodeManifest(m).fields && EncodeManifest(m).fields["version"] == Num(m.version)
    ensures "name" in EncodeManifest(m).fields && EncodeManifest(m).fields["name"] == Str(m.name)
    ensures "maintainers" in EncodeManifest(m).fields && EncodeManifest(m).fields["maintainers"] == EncodeMaintainers(m.maintainers)
    ensures "git" in EncodeManifest(m).fields && EncodeManifest(m).fields["git"] == EncodeGit(m.git)
    ensures "build" in EncodeManifest(m).fields && EncodeManifest(m).fields["build"] == EncodeBuild(m.build)
    ensures "metadata" in EncodeManifest(m).fields && EncodeManifest(m).fields["metadata"] == EncodeMetadata(m.metadata)
  {
  }

  lemma ManifestEncodingConforms(m: Manifest, isUrl: string -> bool)
    requires WellFormed(m, isUrl)
    ensures ManifestConforms(EncodeManifest(m), isUrl)
  {
    EncodedManifestFields(m);
    MaintainersEncodingConform(m.maintainers);
    GitEncodingConforms(m.git, isUrl);
    BuildEncodingConforms(m.build);
  }

  lemma VersionReadBack(m: Manifest, s: string)
    requires VersionReadsAs(EncodeManifest(m).fields, s)
    ensures s == m.version
  {
    assert EncodeManifest(m).fields["version"] == Num(m.version);
  }

  lemma NameReadBack(m: Manifest, s: string)
    requires Get(EncodeManifest(m).fields, "name") == Str(s)
    ensures s == m.name
  {
    assert EncodeManifest(m).fields["name"] == Str(m.name);
  }

  lemma MaintainersFieldReadBack(m: Manifest, ms: seq<Maintainer>)
    requires MaintainersReadAs(Get(EncodeManifest(m).fields, "maintainers"), ms)
    ensures ms == m.maintainers
  {
    assert Get(EncodeManifest(m).fields, "maintainers") == EncodeMaintainers(m.maintainers);
    MaintainersReadBack(m.maintainers, ms);
  }

  lemma GitFieldReadBack(m: Manifest, g: Git)
    requires GitReadsAs(Fields(Get(EncodeManifest(m).fields, "git")), g)
    ensures g == m.git
  {
    assert Get(EncodeManifest(m).fields, "git") == EncodeGit(m.git);
    GitReadBack(m.git, g);
  }

  lemma BuildFieldReadBack(m: Manifest, b: Build)
    requires BuildReadsAs(Fields(Get(EncodeManifest(m).fields, "build")), b)
    ensures b == m.build
  {
    assert Get(EncodeManifest(m).fields, "build") == EncodeBuild(m.build);
    BuildReadBack(m.build, b);
  }

  lemma MetadataFieldReadBack(m: Manifest, md: Metadata)
    requires MetadataReadsAs(Fields(Get(EncodeManifest(m).fields, "metadata")), md)
    ensures md == m.metadata
  {
    assert Get(EncodeManifest(m).fields, "metadata") == EncodeMetadata(m.metadata);
  }

  lemma ManifestReadBack(m: Manifest, n: Manifest)
    requires ManifestReadsAs(EncodeManifest(m).fields, n)
    ensures n == m
  {
    VersionReadBack(m, n.version);
    NameReadBack(m, n.name);
    MaintainersFieldReadBack(m, n.maintainers);
    GitFieldReadBack(m, n.git);
    BuildFieldReadBack(m, n.build);
    MetadataFieldReadBack(m, n.metadata);
  }

  /** Every well-formed manifest survives serialisation and validation unchanged. */
  lemma ManifestRoundTrip(m: Manifest, isUrl: string -> bool)
    requires WellFormed(m, isUrl)
    ensures ValidateManifest(EncodeManifest(m), isUrl) == Ok(m)
  {
    ManifestEncodingConforms(m, isUrl);
    ManifestReadBack(m, ValidateManifest(EncodeManifest(m), isUrl).value);
  }

  /** Validation is a normal form: re-validating the serialisation of what a document
      validated to gives the same manifest. */
  lemma ValidateIdempotent(v: Value, isUrl: string -> bool)
    requires ValidateManifest(v, isUrl).Ok?
    ensures ValidateManifest(EncodeManifest(ValidateManifest(v, isUrl).value), isUrl) == ValidateManifest(v, isUrl)
  {
    ManifestRoundTrip(ValidateManifest(v, isUrl).value, isUrl);
  }
}
