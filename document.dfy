/** The raw manifest document as the schema sees it, the problems a validation reports,
    and the way a declared field turns a raw value into a typed one (required, defaulted,
    optional, list, string dictionary, closed key set). */
module Document {

  datatype Option<+T> = None | Some(value: T)

  /** A JSON-like value. Numbers are kept as their literal text: the schema never
      computes with them. */
  datatype Value =
    | Null
    | Bool(b: bool)
    | Num(literal: string)
    | Str(s: string)
    | Arr(items: seq<Value>)
    | Obj(fields: map<string, Value>)

  /** One step of the location of a problem: a key of an object or an index of a list. */
  datatype Step = Key(name: string) | Index(i: nat)
  type Path = seq<Step>

  /** What went wrong at a location. */
  datatype Kind =
    | Missing          // a required field is absent
    | ExtraForbidden   // a key outside a closed record's fields
    | StringType       // a string was expected
    | FloatType        // a number was expected
    | ListType         // a list was expected
    | DictType         // a dictionary was expected
    | ModelType        // an object was expected for a nested record
    | EnumMember       // not one of the enumeration's values
    | UrlType          // a URL string was expected
    | UrlParsing       // a string that does not parse as a URL
    | ValueError(message: string)  // a record validator rejected the data
    | Raised           // a record validator failed on data it could not inspect; validation stops

  datatype Issue = Issue(loc: Path, kind: Kind)

  datatype Result<+T> = Ok(value: T) | Err(issues: set<Issue>)

  /** The issues a result reports; none when it is accepted. */
  function Reported<T>(r: Result<T>): (s: set<Issue>)
    ensures r.Ok? ==> s == {}
  {
    if r.Ok? then {} else r.issues
  }

  function At(at: Path, key: string): Path { at + [Key(key)] }

  /** Python's `dict.get`: an absent key reads as None. */
  function Get(d: map<string, Value>, key: string): Value { if key in d then d[key] else Null }

  /** The entries of an object; nothing for any other value. */
  function Fields(v: Value): map<string, Value> { if v.Obj? then v.fields else map[] }

  /** A key present with a non-null value. */
  predicate Given(d: map<string, Value>, key: string) { key in d && d[key] != Null }

  // ---------------------------------------------------------------------------
  // Declarative shapes, used by the schema's contracts

  predicate HasString(d: map<string, Value>, key: string) { key in d && d[key].Str? }

  /** The field may be left out; if present it is a string (null is not a string). */
  predicate StringIfPresent(d: map<string, Value>, key: string) { key in d ==> d[key].Str? }

  /** The field may be left out or null; otherwise it is a string. */
  predicate StringOrNull(d: map<string, Value>, key: string) { Given(d, key) ==> d[key].Str? }

  predicate IsStringList(v: Value) { v.Arr? && forall i :: 0 <= i < |v.items| ==> v.items[i].Str? }

  predicate IsStringDict(v: Value) { v.Obj? && forall k :: k in v.fields ==> v.fields[k].Str? }

  /** The field may be left out or null; otherwise it is a dictionary of strings. */
  predicate StringDictOrNull(d: map<string, Value>, key: string) { Given(d, key) ==> IsStringDict(d[key]) }

  /** `o` is what an optional field reads as: None when absent or null, the string otherwise. */
  predicate ReadsAs(d: map<string, Value>, key: string, o: Option<string>)
  {
    (o.None? <==> !Given(d, key)) && (o.Some? ==> d[key] == Str(o.value))
  }

  /** `s` is what a defaulted string field reads as. */
  predicate ReadsOr(d: map<string, Value>, key: string, default: string, s: string)
  {
    (key !in d ==> s == default) && (key in d ==> d[key] == Str(s))
  }

  /** `m` holds exactly the entries of the string dictionary `v`. */
  predicate DictReadsAs(v: Value, m: map<string, string>)
  {
    v.Obj? && m.Keys == v.fields.Keys && forall k :: k in m ==> v.fields[k] == Str(m[k])
  }

  /** `o` is what an optional string dictionary reads as. */
  predicate DictFieldReadsAs(d: map<string, Value>, key: string, o: Option<map<string, string>>)
  {
    (o.None? <==> !Given(d, key)) && (o.Some? ==> DictReadsAs(d[key], o.value))
  }

  /** `t` holds exactly the strings of the list `v`, in order. */
  predicate StringsReadAs(v: Value, t: seq<string>)
  {
    v.Arr? && |v.items| == |t| && forall i :: 0 <= i < |t| ==> v.items[i] == Str(t[i])
  }

  // ---------------------------------------------------------------------------
  // Readers: how a declared field type turns a raw value into a typed one

  /** A `str` field. */
  function Text(v: Value, at: Path): (r: Result<string>)
    ensures r.Ok? <==> v.Str?
    ensures r.Ok? ==> v == Str(r.value)
    ensures r.Err? ==> r.issues == {Issue(at, StringType)}
  {
    if v.Str? then Ok(v.s) else Err({Issue(at, StringType)})
  }

  /** A field declared with `...` (no default): absence is an error. */
  function Required<T>(d: map<string, Value>, key: string, at: Path, read: (Value, Path) -> Result<T>): Result<T>
  {
    if key in d then read(d[key], At(at, key)) else Err({Issue(At(at, key), Missing)})
  }

  /** A field with a default value: absence yields the default, which is not validated. */
  function Defaulted<T>(d: map<string, Value>, key: string, default: T, at: Path, read: (Value, Path) -> Result<T>): Result<T>
  {
    if key in d then read(d[key], At(at, key)) else Ok(default)
  }

  /** An `Optional[...]` field with default None: absence and null both read as None. */
  function Nullable<T>(d: map<string, Value>, key: string, at: Path, read: (Value, Path) -> Result<T>): Result<Option<T>>
  {
    if !Given(d, key) then Ok(None)
    else match read(d[key], At(at, key))
      case Ok(x) => Ok(Some(x))
      case Err(e) => Err(e)
  }

  /** A required `str` field. */
  function RequiredText(d: map<string, Value>, key: string, at: Path): (r: Result<string>)
    ensures r.Ok? <==> HasString(d, key)
    ensures r.Ok? ==> d[key] == Str(r.value)
    ensures key !in d ==> Reported(r) == {Issue(At(at, key), Missing)}
    ensures key in d && !d[key].Str? ==> Reported(r) == {Issue(At(at, key), StringType)}
  {
    Required(d, key, at, Text)
  }

  /** A `str` field with a default. */
  function TextOr(d: map<string, Value>, key: string, default: string, at: Path): (r: Result<string>)
    ensures r.Ok? <==> StringIfPresent(d, key)
    ensures r.Ok? ==> ReadsOr(d, key, default, r.value)
    ensures key in d && !d[key].Str? ==> Reported(r) == {Issue(At(at, key), StringType)}
  {
    Defaulted(d, key, default, at, Text)
  }

  /** An `Optional[str]` field. */
  function OptionalText(d: map<string, Value>, key: string, at: Path): (r: Result<Option<string>>)
    ensures r.Ok? <==> StringOrNull(d, key)
    ensures r.Ok? ==> ReadsAs(d, key, r.value)
    ensures Given(d, key) && !d[key].Str? ==> Reported(r) == {Issue(At(at, key), StringType)}
  {
    Nullable(d, key, at, Text)
  }

  /** An `Optional[dict[str, str]]` field. */
  function OptionalDict(d: map<string, Value>, key: string, at: Path): (r: Result<Option<map<string, string>>>)
    ensures r.Ok? <==> StringDictOrNull(d, key)
    ensures r.Ok? ==> DictFieldReadsAs(d, key, r.value)
    ensures Given(d, key) && !d[key].Obj? ==> Reported(r) == {Issue(At(at, key), DictType)}
    ensures Given(d, key) && d[key].Obj? ==> Reported(r) == NonStringValues(d[key].fields, At(at, key))
  {
    Nullable(d, key, at, StringDict)
  }

  /** A required `list[str]` field. */
  function TextList(d: map<string, Value>, key: string, at: Path): (r: Result<seq<string>>)
    ensures r.Ok? <==> key in d && IsStringList(d[key])
    ensures r.Ok? ==> StringsReadAs(d[key], r.value)
    ensures key !in d ==> Reported(r) == {Issue(At(at, key), Missing)}
    ensures key in d && !d[key].Arr? ==> Reported(r) == {Issue(At(at, key), ListType)}
    ensures key in d && d[key].Arr? ==>
      forall i :: 0 <= i < |d[key].items| && !d[key].items[i].Str? ==>
        Issue(At(at, key) + [Index(i)], StringType) in Reported(r)
    ensures key in d && d[key].Arr? ==>
      forall e :: e in Reported(r) ==>
        exists i :: 0 <= i < |d[key].items| && !d[key].items[i].Str? && e == Issue(At(at, key) + [Index(i)], StringType)
  {
    var r := Required(d, key, at, (x, p) => List(x, p, Text));
    assert r.Ok? ==> StringsReadAs(d[key], r.value) by {
      if r.Ok? {
        var xs := d[key].items;
        forall i | 0 <= i < |xs| ensures xs[i] == Str(r.value[i]) {
          assert Text(xs[i], At(at, key) + [Index(i)]).Ok?;
        }
      }
    }
    r
  }

  /** A list field whose elements are read by `read`. */
  function List<T>(v: Value, at: Path, read: (Value, Path) -> Result<T>): Result<seq<T>>
  {
    if v.Arr? then Items(v.items, at, read) else Err({Issue(at, ListType)})
  }

  /** Reads every element; accepted exactly when every element is, and then in order,
      element by element; a rejection reports the issues of every rejected element. */
  function Items<T>(xs: seq<Value>, at: Path, read: (Value, Path) -> Result<T>): (r: Result<seq<T>>)
    ensures r.Ok? <==> forall i :: 0 <= i < |xs| ==> read(xs[i], at + [Index(i)]).Ok?
    ensures r.Ok? ==> |r.value| == |xs|
    ensures r.Ok? ==> forall i :: 0 <= i < |xs| ==> r.value[i] == read(xs[i], at + [Index(i)]).value
    ensures forall i :: 0 <= i < |xs| ==> Reported(read(xs[i], at + [Index(i)])) <= Reported(r)
    ensures forall e :: e in Reported(r) ==>
      exists i :: 0 <= i < |xs| && e in Reported(read(xs[i], at + [Index(i)]))
    decreases |xs|
  {
    if xs == [] then Ok([])
    else
      var n := |xs| - 1;
      var front := Items(xs[..n], at, read);
      var last := read(xs[n], at + [Index(n)]);
      if front.Ok? && last.Ok? then Ok(front.value + [last.value])
      else Err(Reported(front) + Reported(last))
  }

  /** The issues of the non-string values of a dictionary. */
  function NonStringValues(m: map<string, Value>, at: Path): (s: set<Issue>)
    ensures s == {} <==> forall k :: k in m ==> m[k].Str?
    ensures forall k :: k in m && !m[k].Str? ==> Issue(At(at, k), StringType) in s
    ensures forall e :: e in s ==> e.kind == StringType && exists k :: k in m && !m[k].Str? && e.loc == At(at, k)
  {
    var s := set k | k in m && !m[k].Str? :: Issue(At(at, k), StringType);
    assert forall k :: k in m && !m[k].Str? ==> Issue(At(at, k), StringType) in s;
    s
  }

  /** A `dict[str, str]` field. */
  function StringDict(v: Value, at: Path): (r: Result<map<string, string>>)
    ensures r.Ok? <==> IsStringDict(v)
    ensures r.Ok? ==> DictReadsAs(v, r.value)
    ensures !v.Obj? ==> Reported(r) == {Issue(at, DictType)}
    ensures v.Obj? ==> Reported(r) == NonStringValues(v.fields, at)
  {
    if !v.Obj? then Err({Issue(at, DictType)})
    else
      var bad := NonStringValues(v.fields, at);
      if bad == {} then Ok(map k | k in v.fields :: v.fields[k].s)
      else Err(bad)
  }

  /** The issues a closed record reports for keys outside its declared fields. */
  function Unexpected(d: map<string, Value>, fields: set<string>, at: Path): (s: set<Issue>)
    ensures s == {} <==> d.Keys <= fields
    ensures forall k :: k in d && k !in fields ==> Issue(At(at, k), ExtraForbidden) in s
    ensures forall e :: e in s ==> e.kind == ExtraForbidden && exists k :: k in d && k !in fields && e.loc == At(at, k)
  {
    var s := set k | k in d && k !in fields :: Issue(At(at, k), ExtraForbidden);
    assert forall k :: k in d && k !in fields ==> Issue(At(at, k), ExtraForbidden) in s;
    s
  }
}
