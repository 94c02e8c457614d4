/** Behaviour of manifest validation as a whole: which keys it looks at, how the problems
    found in nested records reach the top level, and what the defaults are. */
module Properties {
  import opened Document
  import opened Schema

  /** `d` and `e` hold the same entries for every key in `keys`. */
  predicate Agree(d: map<string, Value>, e: map<string, Value>, keys: set<string>)
  {
    forall k :: k in keys ==> Get(d, k) == Get(e, k) && (k in d <==> k in e)
  }

  // ---------------------------------------------------------------------------
  // Keys outside the declared fields

  /** Two manifest objects that agree on the six declared fields have the same fields' result. */
  lemma ManifestFieldsAgree(d: map<string, Value>, e: map<string, Value>, isUrl: string -> bool)
    requires Agree(d, e, ManifestFields)
    ensures ManifestRecord(d, isUrl) == ManifestRecord(e, isUrl)
  {
    // Field by field; naming the six readers keeps the proof small.
    assert VersionField(d) == VersionField(e);
    assert RequiredText(d, "name", []) == RequiredText(e, "name", []);
    assert Maintainers(d) == Maintainers(e);
    assert GitField(d, isUrl) == GitField(e, isUrl);
    assert BuildField(d) == BuildField(e);
    assert MetadataField(d) == MetadataField(e);
  }

  /** A manifest is judged on its declared fields only: two documents that agree on them
      validate alike, whatever else they hold. */
  lemma ManifestIgnoresUndeclared(d: map<string, Value>, e: map<string, Value>, isUrl: string -> bool)
    requires Agree(d, e, ManifestFields)
    ensures ValidateManifest(Obj(d), isUrl) == ValidateManifest(Obj(e), isUrl)
  {
    assert Get(d, "git") == Get(e, "git");
    assert GitRaises(d) == GitRaises(e);
    ManifestFieldsAgree(d, e, isUrl);
  }

  /** Adding an undeclared key to a manifest changes nothing. */
  lemma ManifestExtraKeyIgnored(d: map<string, Value>, k: string, x: Value, isUrl: string -> bool)
    requires k !in ManifestFields
    ensures ValidateManifest(Obj(d[k := x]), isUrl) == ValidateManifest(Obj(d), isUrl)
  {
    ManifestIgnoresUndeclared(d[k := x], d, isUrl);
  }

  /** Metadata ignores undeclared keys. */
  lemma MetadataExtraKeyIgnored(d: map<string, Value>, k: string, x: Value, at: Path)
    requires k != "identifier" && k != "project"
    ensures ValidateMetadata(Obj(d[k := x]), at) == ValidateMetadata(Obj(d), at)
  {
  }

  /** The test record ignores undeclared keys. */
  lemma RunExtraKeyIgnored(d: map<string, Value>, k: string, x: Value, at: Path)
    requires k != "cmd"
    ensures ValidateRun(Obj(d[k := x]), at) == ValidateRun(Obj(d), at)
  {
  }

  // ---------------------------------------------------------------------------
  // Problems in nested records reach the top level

  /** The manifest reports every problem found in any of its fields. */
  lemma ManifestCollectsFieldIssues(d: map<string, Value>, isUrl: string -> bool)
    ensures Reported(VersionField(d)) <= Reported(ManifestRecord(d, isUrl))
    ensures Reported(RequiredText(d, "name", [])) <= Reported(ManifestRecord(d, isUrl))
    ensures Reported(Maintainers(d)) <= Reported(ManifestRecord(d, isUrl))
    ensures Reported(GitField(d, isUrl)) <= Reported(ManifestRecord(d, isUrl))
    ensures Reported(BuildField(d)) <= Reported(ManifestRecord(d, isUrl))
    ensures Reported(MetadataField(d)) <= Reported(ManifestRecord(d, isUrl))
  {
  }

  /** Once the checkout validator can inspect `git`, the manifest reports every problem
      found in any of its fields. */
  lemma FieldIssuesReachTop(d: map<string, Value>, isUrl: string -> bool)
    requires !GitRaises(d)
    ensures Reported(VersionField(d)) <= Reported(ValidateManifest(Obj(d), isUrl))
    ensures Reported(RequiredText(d, "name", [])) <= Reported(ValidateManifest(Obj(d), isUrl))
    ensures Reported(Maintainers(d)) <= Reported(ValidateManifest(Obj(d), isUrl))
    ensures Reported(GitField(d, isUrl)) <= Reported(ValidateManifest(Obj(d), isUrl))
    ensures Reported(BuildField(d)) <= Reported(ValidateManifest(Obj(d), isUrl))
    ensures Reported(MetadataField(d)) <= Reported(ValidateManifest(Obj(d), isUrl))
  {
    ManifestCollectsFieldIssues(d, isUrl);
  }

  /** A repository naming neither a commit nor a tag is rejected with the checkout
      validator's message, located at `git`. */
  lemma NeitherCheckoutReported(d: map<string, Value>, isUrl: string -> bool)
    requires "git" in d && d["git"].Obj?
    requires !Given(d["git"].fields, "sha") && !Given(d["git"].fields, "tag")
    ensures ValidateManifest(Obj(d), isUrl).Err?
    ensures Issue([Key("git")], ValueError(NeitherCheckout)) in Reported(ValidateManifest(Obj(d), isUrl))
  {
    assert At([], "git") == [Key("git")];
    FieldIssuesReachTop(d, isUrl);
  }

  /** A repository naming both a commit and a tag is rejected likewise. */
  lemma BothCheckoutsReported(d: map<string, Value>, isUrl: string -> bool)
    requires "git" in d && d["git"].Obj?
    requires Given(d["git"].fields, "sha") && Given(d["git"].fields, "tag")
    ensures ValidateManifest(Obj(d), isUrl).Err?
    ensures Issue([Key("git")], ValueError(BothCheckouts)) in Reported(ValidateManifest(Obj(d), isUrl))
  {
    assert At([], "git") == [Key("git")];
    FieldIssuesReachTop(d, isUrl);
  }

  /** The location of a field nested one level down; stated once so callers stay cheap. */
  lemma NestedPath(a: string, b: string)
    ensures At(At([], a), b) == [Key(a), Key(b)]
  {
  }

  /** The location of a field of the i-th element of a list. */
  lemma IndexedPath(a: string, i: nat, b: string)
    ensures At(At([], a) + [Index(i)], b) == [Key(a), Index(i), Key(b)]
  {
  }

  lemma BuildFieldReportsExtra(d: map<string, Value>, k: string)
    requires "build" in d && d["build"].Obj? && k in d["build"].fields && k !in BuildFields
    ensures Issue(At(At([], "build"), k), ExtraForbidden) in Reported(BuildField(d))
  {
  }

  /** An undeclared key inside `build` is reported at its full location. */
  lemma BuildExtraKeyReported(d: map<string, Value>, k: string, isUrl: string -> bool)
    requires "build" in d && d["build"].Obj? && k in d["build"].fields && k !in BuildFields
    requires !GitRaises(d)
    ensures Issue([Key("build"), Key(k)], ExtraForbidden) in Reported(ValidateManifest(Obj(d), isUrl))
  {
    BuildFieldReportsExtra(d, k);
    NestedPath("build", k);
    FieldIssuesReachTop(d, isUrl);
  }

  lemma GitFieldReportsExtra(d: map<string, Value>, k: string, isUrl: string -> bool)
    requires "git" in d && d["git"].Obj? && OneCheckout(d["git"].fields)
    requires k in d["git"].fields && k !in GitFields
    ensures Issue(At(At([], "git"), k), ExtraForbidden) in Reported(GitField(d, isUrl))
  {
  }

  /** An undeclared key inside `git` is reported once the checkout validator has passed. */
  lemma GitExtraKeyReported(d: map<string, Value>, k: string, isUrl: string -> bool)
    requires "git" in d && d["git"].Obj? && OneCheckout(d["git"].fields)
    requires k in d["git"].fields && k !in GitFields
    ensures Issue([Key("git"), Key(k)], ExtraForbidden) in Reported(ValidateManifest(Obj(d), isUrl))
  {
    GitFieldReportsExtra(d, k, isUrl);
    NestedPath("git", k);
    FieldIssuesReachTop(d, isUrl);
  }

  lemma MaintainersReportExtra(d: map<string, Value>, i: nat, k: string)
    requires "maintainers" in d && d["maintainers"].Arr? && i < |d["maintainers"].items|
    requires d["maintainers"].items[i].Obj? && k in d["maintainers"].items[i].fields && k !in MaintainerFields
    ensures Issue(At(At([], "maintainers") + [Index(i)], k), ExtraForbidden) in Reported(Maintainers(d))
  {
    var at := At([], "maintainers") + [Index(i)];
    assert Issue(At(at, k), ExtraForbidden) in Reported(ValidateMaintainer(d["maintainers"].items[i], at));
  }

  /** An undeclared key in the `i`-th maintainer is reported at that maintainer. */
  lemma MaintainerExtraKeyReported(d: map<string, Value>, i: nat, k: string, isUrl: string -> bool)
    requires "maintainers" in d && d["maintainers"].Arr? && i < |d["maintainers"].items|
    requires d["maintainers"].items[i].Obj? && k in d["maintainers"].items[i].fields && k !in MaintainerFields
    requires !GitRaises(d)
    ensures Issue([Key("maintainers"), Index(i), Key(k)], ExtraForbidden) in Reported(ValidateManifest(Obj(d), isUrl))
  {
    MaintainersReportExtra(d, i, k);
    IndexedPath("maintainers", i, k);
    FieldIssuesReachTop(d, isUrl);
  }

  lemma BuildFieldReportsMissingTags(d: map<string, Value>)
    requires "build" in d && d["build"].Obj? && "tags" !in d["build"].fields
    ensures Issue(At(At([], "build"), "tags"), Missing) in Reported(BuildField(d))
  {
  }

  /** A build without tags is reported as missing them. */
  lemma MissingTagsReported(d: map<string, Value>, isUrl: string -> bool)
    requires "build" in d && d["build"].Obj? && "tags" !in d["build"].fields
    requires !GitRaises(d)
    ensures Issue([Key("build"), Key("tags")], Missing) in Reported(ValidateManifest(Obj(d), isUrl))
  {
    BuildFieldReportsMissingTags(d);
    NestedPath("build", "tags");
    FieldIssuesReachTop(d, isUrl);
  }

  /** A maintainer without an email is reported at that maintainer's `email`. */
  lemma MaintainerMissingEmailReported(d: map<string, Value>, i: nat, isUrl: string -> bool)
    requires "maintainers" in d && d["maintainers"].Arr? && i < |d["maintainers"].items|
    requires d["maintainers"].items[i].Obj? && "email" !in d["maintainers"].items[i].fields
    requires !GitRaises(d)
    ensures Issue([Key("maintainers"), Index(i), Key("email")], Missing) in Reported(ValidateManifest(Obj(d), isUrl))
  {
    IndexedPath("maintainers", i, "email");
    FieldIssuesReachTop(d, isUrl);
  }

  /** Every problem of the `git` record is reported by the manifest, under `git`. */
  lemma GitIssuesReachTop(d: map<string, Value>, isUrl: string -> bool)
    requires "git" in d && !GitRaises(d)
    ensures Reported(ValidateGit(d["git"], [Key("git")], isUrl)) <= Reported(ValidateManifest(Obj(d), isUrl))
  {
    FieldIssuesReachTop(d, isUrl);
    assert At([], "git") == [Key("git")];
  }

  /** Every problem of the `build` record is reported by the manifest, under `build`. */
  lemma BuildIssuesReachTop(d: map<string, Value>, isUrl: string -> bool)
    requires "build" in d && !GitRaises(d)
    ensures Reported(ValidateBuild(d["build"], [Key("build")])) <= Reported(ValidateManifest(Obj(d), isUrl))
  {
    FieldIssuesReachTop(d, isUrl);
    assert At([], "build") == [Key("build")];
  }

  /** Every problem of the `metadata` record is reported by the manifest, under `metadata`. */
  lemma MetadataIssuesReachTop(d: map<string, Value>, isUrl: string -> bool)
    requires "metadata" in d && !GitRaises(d)
    ensures Reported(ValidateMetadata(d["metadata"], [Key("metadata")])) <= Reported(ValidateManifest(Obj(d), isUrl))
  {
    FieldIssuesReachTop(d, isUrl);
    assert At([], "metadata") == [Key("metadata")];
  }

  /** Every problem of the `i`-th maintainer is reported by the manifest, under its index. */
  lemma MaintainerIssuesReachTop(d: map<string, Value>, i: nat, isUrl: string -> bool)
    requires "maintainers" in d && d["maintainers"].Arr? && i < |d["maintainers"].items| && !GitRaises(d)
    ensures Reported(ValidateMaintainer(d["maintainers"].items[i], [Key("maintainers"), Index(i)]))
            <= Reported(ValidateManifest(Obj(d), isUrl))
  {
    FieldIssuesReachTop(d, isUrl);
    assert At([], "maintainers") + [Index(i)] == [Key("maintainers"), Index(i)];
  }

  // ---------------------------------------------------------------------------
  // A rejection always reports at least one problem

  /** A rejected list reports a problem when each rejected element does. */
  lemma ItemsRejectionReported<T>(xs: seq<Value>, at: Path, read: (Value, Path) -> Result<T>)
    requires forall i :: 0 <= i < |xs| && read(xs[i], at + [Index(i)]).Err? ==> read(xs[i], at + [Index(i)]).issues != {}
    ensures Items(xs, at, read).Err? ==> Reported(Items(xs, at, read)) != {}
  {
    var r := Items(xs, at, read);
    if r.Err? {
      var i :| 0 <= i < |xs| && read(xs[i], at + [Index(i)]).Err?;
      var e :| e in read(xs[i], at + [Index(i)]).issues;
      assert e in Reported(r);
    }
  }

  /** A rejected maintainer says why. */
  lemma MaintainerRejectionReported(v: Value, at: Path)
    ensures ValidateMaintainer(v, at).Err? ==> Reported(ValidateMaintainer(v, at)) != {}
  {
  }

  /** Rejected git data says why. */
  lemma GitRejectionReported(v: Value, at: Path, isUrl: string -> bool)
    ensures ValidateGit(v, at, isUrl).Err? ==> Reported(ValidateGit(v, at, isUrl)) != {}
  {
  }

  /** The list readers of a build say why they reject. */
  lemma PlatformsRejectionReported(d: map<string, Value>, at: Path)
    ensures Platforms(d, at).Err? ==> Reported(Platforms(d, at)) != {}
  {
    if "platforms" in d && d["platforms"].Arr? && Platforms(d, at).Err? {
      var i :| 0 <= i < |d["platforms"].items| && !IsArchitectureValue(d["platforms"].items[i]);
      assert Issue(At(at, "platforms") + [Index(i)], EnumMember) in Reported(Platforms(d, at));
    }
  }

  lemma TagsRejectionReported(d: map<string, Value>, at: Path)
    ensures TextList(d, "tags", at).Err? ==> Reported(TextList(d, "tags", at)) != {}
  {
    if "tags" in d && d["tags"].Arr? && TextList(d, "tags", at).Err? {
      var i :| 0 <= i < |d["tags"].items| && !d["tags"].items[i].Str?;
      assert Issue(At(at, "tags") + [Index(i)], StringType) in Reported(TextList(d, "tags", at));
    }
  }

  /** A rejected build says why, and a bad platform or tag entry is reported at its index. */
  lemma BuildRejectionReported(v: Value, at: Path)
    ensures ValidateBuild(v, at).Err? ==> Reported(ValidateBuild(v, at)) != {}
    ensures v.Obj? && "platforms" in v.fields && v.fields["platforms"].Arr? ==>
      forall i :: 0 <= i < |v.fields["platforms"].items| && !IsArchitectureValue(v.fields["platforms"].items[i]) ==>
        Issue(At(at, "platforms") + [Index(i)], EnumMember) in Reported(ValidateBuild(v, at))
    ensures v.Obj? && "tags" in v.fields && v.fields["tags"].Arr? ==>
      forall i :: 0 <= i < |v.fields["tags"].items| && !v.fields["tags"].items[i].Str? ==>
        Issue(At(at, "tags") + [Index(i)], StringType) in Reported(ValidateBuild(v, at))
  {
    if v.Obj? {
      BuildReportsWrongTypes(v, at);
      PlatformsRejectionReported(v.fields, at);
      TagsRejectionReported(v.fields, at);
    }
  }

  /** Rejected metadata says why. */
  lemma MetadataRejectionReported(v: Value, at: Path)
    ensures ValidateMetadata(v, at).Err? ==> Reported(ValidateMetadata(v, at)) != {}
  {
  }

  /** A rejected `maintainers` field says why. */
  lemma MaintainersRejectionReported(d: map<string, Value>)
    ensures Maintainers(d).Err? ==> Reported(Maintainers(d)) != {}
  {
    if "maintainers" in d && d["maintainers"].Arr? {
      var xs := d["maintainers"].items;
      forall i | 0 <= i < |xs| && ValidateMaintainer(xs[i], At([], "maintainers") + [Index(i)]).Err?
        ensures ValidateMaintainer(xs[i], At([], "maintainers") + [Index(i)]).issues != {}
      {
        MaintainerRejectionReported(xs[i], At([], "maintainers") + [Index(i)]);
      }
      ItemsRejectionReported(xs, At([], "maintainers"), ValidateMaintainer);
    }
  }

  /** A rejected manifest always says why: its set of problems is never empty. */
  lemma ManifestRejectionReported(v: Value, isUrl: string -> bool)
    ensures ValidateManifest(v, isUrl).Err? ==> ValidateManifest(v, isUrl).issues != {}
  {
    if v.Obj? && !GitRaises(v.fields) && ValidateManifest(v, isUrl).Err? {
      var d := v.fields;
      MaintainersRejectionReported(d);
      if "git" in d { GitRejectionReported(d["git"], At([], "git"), isUrl); }
      if "build" in d { BuildRejectionReported(d["build"], At([], "build")); }
      if "metadata" in d { MetadataRejectionReported(d["metadata"], At([], "metadata")); }
      ManifestCollectsFieldIssues(d, isUrl);
    }
  }

  // ---------------------------------------------------------------------------
  // Defaults and nulls

  /** A build giving only its (empty) tags gets every default: the repository root, a
      file named Dockerfile, the BuildKit backend, one amd64 platform, nothing optional. */
  lemma BuildDefaults(at: Path)
    ensures ValidateBuild(Obj(map["tags" := Arr([])]), at)
            == Ok(Build(".", "Dockerfile", ".", "buildkit", [Amd64], [], None, None, None, None, None))
  {
    var v := Obj(map["tags" := Arr([])]);
    assert BuildConforms(v);
    var b := ValidateBuild(v, at).value;
    assert |b.tags| == 0;
  }

  /** The builder is free text: a backend outside the enumeration is accepted as given. */
  lemma BuilderIsFreeText(at: Path)
    ensures ValidateBuild(Obj(map["tags" := Arr([]), "builder" := Str("kaniko")]), at).Ok?
    ensures ValidateBuild(Obj(map["tags" := Arr([]), "builder" := Str("kaniko")]), at).value.builder == "kaniko"
  {
    var v := Obj(map["tags" := Arr([]), "builder" := Str("kaniko")]);
    assert v.fields.Keys <= BuildFields;
    assert BuildConforms(v);
  }

  /** A field with a default is not optional: an explicit null is rejected rather than
      replaced by the default. */
  lemma DefaultedFieldRejectsNull(d: map<string, Value>, key: string, at: Path)
    requires key in {"path", "dockerfile", "context", "builder", "platforms"}
    ensures ValidateBuild(Obj(d[key := Null]), at).Err?
  {
    assert !BuildConforms(Obj(d[key := Null]));
  }

  /** Once the checkout is accepted, the fields read the same whether the commit is null or absent. */
  lemma GitRecordNullSha(d: map<string, Value>, at: Path, isUrl: string -> bool)
    ensures GitRecord(d["sha" := Null], at, isUrl) == GitRecord(d - {"sha"}, at, isUrl)
  {
    var e := d["sha" := Null];
    var f := d - {"sha"};
    // Each of the five readers agrees on the two maps; naming them keeps the proof small.
    assert Required(e, "repo", at, (x, p) => Url(x, p, isUrl)) == Required(f, "repo", at, (x, p) => Url(x, p, isUrl));
    assert TextOr(e, "fetch", DefaultFetch, at) == TextOr(f, "fetch", DefaultFetch, at);
    assert OptionalText(e, "sha", at) == OptionalText(f, "sha", at);
    assert OptionalText(e, "tag", at) == OptionalText(f, "tag", at);
    assert Unexpected(e, GitFields, at) == Unexpected(f, GitFields, at);
  }

  /** For the checkout, an explicit null commit counts as no commit at all. */
  lemma NullShaIsAbsent(d: map<string, Value>, at: Path, isUrl: string -> bool)
    ensures ValidateGit(Obj(d["sha" := Null]), at, isUrl) == ValidateGit(Obj(d - {"sha"}), at, isUrl)
  {
    var e := d["sha" := Null];
    var f := d - {"sha"};
    assert SanitizeCheckout(Obj(e), at).Ok? == SanitizeCheckout(Obj(f), at).Ok?;
    if SanitizeCheckout(Obj(e), at).Ok? {
      GitRecordNullSha(d, at, isUrl);
    } else {
      assert SanitizeCheckout(Obj(e), at) == SanitizeCheckout(Obj(f), at);
    }
  }
}
