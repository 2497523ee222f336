/** The generator's settings and state (faker.go:18-36), its setters and
    registry operations (faker.go:224-281, 351-359, 1009-1018), and the walk
    that fills a value of a given type (faker.go:285-306, 361-531,
    576-789, 943-962). */
module Engine {
  import opened Wrappers
  import opened Text
  import opened Shapes
  import opened Tags
  import opened Externals
  import opened Primitives

  /** How many times a unique field is regenerated before giving up. */
  const MaxRetry := 10000

  /** The names under which the built-in providers are registered
      (faker.go:51-93, 103-140, 151-193). */
  const DefaultTags: set<string> := {
    "email", "mac_address", "domain_name", "url", "username", "ipv4", "ipv6",
    "password", "cc_type", "cc_number", "lat", "long", "phone_number",
    "toll_free_number", "e_164_phone_number", "title_male", "title_female",
    "first_name", "first_name_male", "first_name_female", "last_name", "name",
    "unix_time", "date", "time", "month_name", "year", "day_of_week",
    "day_of_month", "timestamp", "century", "timezone", "time_period", "word",
    "sentence", "paragraph", "currency", "amount", "amount_with_currency",
    "uuid_digit", "uuid_hyphenated"
  }

  /** The package-level settings. The setters keep both sizes non-negative. */
  datatype Config = Config(
    randomStringLen: nat,
    nBoundary: NumberBoundary,
    randomSize: nat,
    isFixedSize: bool,
    shouldSetNil: bool,
    testRandZero: bool,
    generateUniqueValues: bool)

  const DefaultConfig := Config(25, NumberBoundary(0, 100), 100, false, false, false, false)

  /** A size that `randomSliceAndMapSize` can return. */
  predicate SizeOk(c: Config, n: int)
  {
    if c.testRandZero then n == 0
    else if c.isFixedSize then n == c.randomSize
    else 0 <= n < c.randomSize
  }

  /** How many distinct keys a generated map can hold: at most the size
      drawn, since equal keys overwrite each other. */
  predicate CardOk(c: Config, m: int)
  {
    if c.testRandZero then m == 0
    else if c.isFixedSize then m <= c.randomSize
    else m < c.randomSize
  }

  /** `v` is an integer of [b.start, b.end) converted to the field's width. */
  ghost predicate InBoundary(b: NumberBoundary, v: Value, shape: Shape)
    requires IsInteger(shape)
  {
    exists x | b.start <= x < b.end :: v == Convert(x, shape)
  }

  /** The values an untagged walk can produce for a value of type `shape`.
      A record is one whose fields the walk could have given it from some
      current record value (`RecordOk`). */
  ghost predicate Produced(c: Config, providers: map<string, ProviderId>, v: Value, shape: Shape)
    decreases shape, 2
  {
    Conforms(v, shape) &&
    match shape
    case Bool => true
    case Int(_) => InBoundary(c.nBoundary, v, shape)
    case Uint(_) => InBoundary(c.nBoundary, v, shape)
    case Str => v.StrV? && |v.s| == c.randomStringLen && Letters(v.s)
    case Slice(e) =>
      (v.NilSlice? ==> c.shouldSetNil && SizeOk(c, 0))
      && (v.SliceV? ==>
            SizeOk(c, |v.elems|) && !(c.shouldSetNil && |v.elems| == 0)
            && forall k | 0 <= k < |v.elems| :: Produced(c, providers, v.elems[k], e))
    case Map(ks, vs) =>
      (v.NilMap? ==> c.shouldSetNil && SizeOk(c, 0))
      && (v.MapV? ==>
            CardOk(c, |v.entries|) && !(c.shouldSetNil && |v.entries| == 0)
            && forall key | key in v.entries ::
                 Produced(c, providers, key, ks) && Produced(c, providers, v.entries[key], vs))
    case Struct(fs) =>
      v.StructV? && exists o | Conforms(o, shape) :: RecordOk(c, providers, fs, o.fields, v.fields)
    case Ptr(t) => v.PtrV? && Produced(c, providers, v.pointee, t)
  }

  /** `v` is a value that carrying out the leaf plan `p` (a length or a
      range) on a value of type `shape` can give. */
  ghost predicate LeafRealizes(p: Plan, v: Value, shape: Shape)
  {
    Conforms(v, shape) &&
    match p
    case RandomLetters(n) => v.StrV? && |v.s| == n && Letters(v.s)
    case Between(b) => IsInteger(shape) && InBoundary(b, v, shape)
    case _ => false
  }

  /** `v` is a value that carrying out `p` on a field of type `shape` can
      give. */
  ghost predicate Realizes(c: Config, p: Plan, v: Value, shape: Shape)
  {
    Conforms(v, shape) &&
    match p
    case CallProvider(_) => true
    case RandomLetters(_) => LeafRealizes(p, v, shape)
    case Literal(x) => v == x
    case Between(_) => LeafRealizes(p, v, shape)
    case Pointer(q) => shape.Ptr? && v.PtrV? && Realizes(c, q, v.pointee, shape.target)
    case SliceOf(e) =>
      shape.Slice?
      && (v.NilSlice? ==> c.shouldSetNil && SizeOk(c, 0))
      && (v.SliceV? ==>
            SizeOk(c, |v.elems|) && !(c.shouldSetNil && |v.elems| == 0)
            && (|v.elems| > 0 ==> e.Ok?)
            && (e.Ok? ==> forall k | 0 <= k < |v.elems| :: LeafRealizes(e.value, v.elems[k], shape.elem)))
    case MapOf(ke, ve) =>
      shape.Map?
      && (v.NilMap? ==> c.shouldSetNil && SizeOk(c, 0))
      && (v.MapV? ==>
            CardOk(c, |v.entries|) && !(c.shouldSetNil && |v.entries| == 0)
            && (|v.entries| > 0 ==> ke.Ok? && ve.Ok?)
            && (ke.Ok? && ve.Ok? ==> forall key | key in v.entries ::
                  LeafRealizes(ke.value, key, shape.key) && LeafRealizes(ve.value, v.entries[key], shape.val)))
  }

  /** `v` is what the field tag `tag` asks for on a field of type `shape`. */
  ghost predicate Tagged(c: Config, providers: map<string, ProviderId>, shape: Shape, tag: string, v: Value)
  {
    TagPlan(providers, shape, tag).Ok? && Realizes(c, TagPlan(providers, shape, tag).value, v, shape)
  }

  /** The field keeps a zero original under `keep`: it is regenerated from
      its tag and the unique check is skipped. */
  predicate KeepsZero(f: Field, o: Value)
  {
    DecodeTags(f.tag).keepOriginal && IsZero(o, f.shape) == Ok(true)
  }

  /** The value `v` the walk gives field `f` whose original value is `o`
      (faker.go:393-433). */
  ghost predicate FieldValueOk(c: Config, providers: map<string, ProviderId>, f: Field, o: Value, v: Value)
    decreases f.shape, 3
  {
    var t := DecodeTags(f.tag);
    Conforms(v, f.shape) &&
    if !f.exported then v == Zero(f.shape)
    else if t.keepOriginal then
      IsZero(o, f.shape).Ok?
      && (if IsZero(o, f.shape).value then Tagged(c, providers, f.shape, t.fieldType, v) else v == o)
    else if t.fieldType == "" then Produced(c, providers, v, f.shape)
    else if t.fieldType == Skip then v == o
    else Tagged(c, providers, f.shape, t.fieldType, v)
  }

  /** A field whose value goes through the unique check
      (faker.go:433-447): exported, tagged `unique`, and not a zero `keep`
      field, which is regenerated without the check. */
  predicate UniqueHeld(f: Field, o: Value)
  {
    f.exported && DecodeTags(f.tag).unique && !KeepsZero(f, o)
  }

  /** Fields `j` and `k` of one record, when both are checked as unique
      under the same tag, hold different values. */
  ghost predicate UniqueApart(fs: seq<Field>, os: seq<Value>, vs: seq<Value>, j: int, k: int)
  {
    0 <= j < |fs| && 0 <= k < |fs| && |os| == |fs| && |vs| == |fs|
    && UniqueHeld(fs[j], os[j]) && UniqueHeld(fs[k], os[k])
    && DecodeTags(fs[j].tag).fieldType == DecodeTags(fs[k].tag).fieldType
    ==> vs[j] != vs[k]
  }

  /** The walk gives the record with fields `fs` and current field values
      `os` the field values `vs`: each field gets its value, and no two
      unique fields under the same tag share one. */
  ghost predicate RecordOk(c: Config, providers: map<string, ProviderId>, fs: seq<Field>, os: seq<Value>, vs: seq<Value>)
    decreases Struct(fs), 1
  {
    |os| == |fs| && |vs| == |fs|
    && (forall k | 0 <= k < |fs| :: FieldValueOk(c, providers, fs[k], os[k], vs[k]))
    && (forall j, k | 0 <= j < k < |fs| :: UniqueApart(fs, os, vs, j, k))
  }

  /** An untagged field holds any value the generator produces for it. */
  lemma WalkedField(c: Config, providers: map<string, ProviderId>, f: Field, o: Value, v: Value)
    requires f.exported && !DecodeTags(f.tag).keepOriginal && DecodeTags(f.tag).fieldType == ""
    requires Produced(c, providers, v, f.shape)
    ensures FieldSpec(c, providers)(f, o, v)
  {
    assert FieldValueOk(c, providers, f, o, v);
  }

  /** A field tagged `-` holds its original value. */
  lemma CopiedField(c: Config, providers: map<string, ProviderId>, f: Field, o: Value)
    requires f.exported && !DecodeTags(f.tag).keepOriginal && DecodeTags(f.tag).fieldType == Skip
    requires Conforms(o, f.shape)
    ensures FieldSpec(c, providers)(f, o, o)
  {
    assert FieldValueOk(c, providers, f, o, o);
  }

  /** The values recorded for a unique tag; a missing entry is empty. */
  function Registered(m: map<string, seq<Value>>, key: string): seq<Value>
  {
    if key in m then m[key] else []
  }

  ghost predicate Distinct(s: seq<Value>)
  {
    forall i, j | 0 <= i < j < |s| :: s[i] != s[j]
  }

  /** The registry only gains values, each list growing at its end. */
  ghost predicate Grows(a: map<string, seq<Value>>, b: map<string, seq<Value>>)
  {
    forall key :: Registered(a, key) <= Registered(b, key)
  }

  /** The unique check's part of a field outcome (faker.go:435-450): a
      unique field's value is new to the registry the walk started from and
      is recorded in the final one. */
  ghost predicate UniqueOk(f: Field, o: Value, v: Value,
                           before: map<string, seq<Value>>, after: map<string, seq<Value>>)
  {
    UniqueHeld(f, o) ==>
      v in Registered(after, DecodeTags(f.tag).fieldType) && v !in Registered(before, DecodeTags(f.tag).fieldType)
  }

  /** What `getValue` gives for a value of type `shape` whose current value
      is `orig`, given the registry before and after: for a record, the
      fields the walk gives it from `orig`, each unique one new to the
      registry. */
  ghost predicate Outcome(c: Config, providers: map<string, ProviderId>, shape: Shape, orig: Value, v: Value,
                          before: map<string, seq<Value>>, after: map<string, seq<Value>>)
  {
    Produced(c, providers, v, shape) &&
    match shape
    case Struct(fs) =>
      orig.StructV? && v.StructV? && |orig.fields| == |fs| && |v.fields| == |fs|
      && RecordOk(c, providers, fs, orig.fields, v.fields)
      && forall k | 0 <= k < |fs| :: UniqueOk(fs[k], orig.fields[k], v.fields[k], before, after)
    case Ptr(t) =>
      v.PtrV? && Outcome(c, providers, t, if orig.PtrV? then orig.pointee else Zero(t), v.pointee, before, after)
    case _ => true
  }

  lemma GrowsTrans(a: map<string, seq<Value>>, b: map<string, seq<Value>>, d: map<string, seq<Value>>)
    requires Grows(a, b) && Grows(b, d)
    ensures Grows(a, d)
  {
    forall key
      ensures Registered(a, key) <= Registered(d, key)
    {
      var x, y, z := Registered(a, key), Registered(b, key), Registered(d, key);
      assert x <= y && y <= z;
      assert x == y[..|x|] && y == z[..|y|];
      assert z[..|y|][..|x|] == z[..|x|];
    }
  }

  lemma InPrefix(v: Value, s: seq<Value>, t: seq<Value>)
    requires s <= t && v in s
    ensures v in t
  {
    var i :| 0 <= i < |s| && s[i] == v;
    assert t[i] == v;
  }

  /** Growing the registry keeps every unique check already passed. */
  lemma FieldsGrow(fs: seq<Field>, os: seq<Value>, vs: seq<Value>, n: int,
                   before: map<string, seq<Value>>, a1: map<string, seq<Value>>, a2: map<string, seq<Value>>)
    requires 0 <= n <= |fs| && |os| == |fs| && |vs| == |fs| && Grows(a1, a2)
    requires forall k | 0 <= k < n :: UniqueOk(fs[k], os[k], vs[k], before, a1)
    ensures forall k | 0 <= k < n :: UniqueOk(fs[k], os[k], vs[k], before, a2)
  {
    forall k | 0 <= k < n
      ensures UniqueOk(fs[k], os[k], vs[k], before, a2)
    {
      var t := DecodeTags(fs[k].tag);
      if UniqueHeld(fs[k], os[k]) {
        assert Registered(a1, t.fieldType) <= Registered(a2, t.fieldType);
        InPrefix(vs[k], Registered(a1, t.fieldType), Registered(a2, t.fieldType));
      }
    }
  }

  /** The record walk's state before field `i`: `cur` holds a value of the
      right type for every field, unexported fields stay zero, and every
      field before `i` has a value that `ok` accepts, passed its unique
      check and differs from the earlier fields under the same unique tag.
      The walk instantiates `ok` with `FieldSpec`; the bookkeeping lemmas
      below hold whatever `ok` is. */
  ghost predicate WalkInv(ok: (Field, Value, Value) -> bool, fs: seq<Field>, os: seq<Value>,
                          cur: seq<Value>, i: int, before: map<string, seq<Value>>, after: map<string, seq<Value>>)
  {
    && 0 <= i <= |fs| && |os| == |fs| && |cur| == |fs|
    && (forall k | 0 <= k < |fs| :: Conforms(cur[k], fs[k].shape))
    && (forall k | 0 <= k < |fs| && !fs[k].exported :: cur[k] == Zero(fs[k].shape))
    && (forall k | 0 <= k < i :: ok(fs[k], os[k], cur[k]))
    && (forall k | 0 <= k < i :: UniqueOk(fs[k], os[k], cur[k], before, after))
    && (forall j, k | 0 <= j < k < i :: UniqueApart(fs, os, cur, j, k))
  }

  /** `FieldValueOk` as a function value, for `WalkInv`. */
  ghost function FieldSpec(c: Config, providers: map<string, ProviderId>): (Field, Value, Value) -> bool
  {
    (f, o, v) => FieldValueOk(c, providers, f, o, v)
  }

  /** Field `i` gets `v`, which `ok` accepts and which passed its unique
      check: the walk moves on to the next field while the registry grows
      from `reg0` through `reg1` to `after`. */
  lemma WalkAdvance(ok: (Field, Value, Value) -> bool, fs: seq<Field>, os: seq<Value>,
                    cur: seq<Value>, i: int, v: Value, before: map<string, seq<Value>>,
                    reg0: map<string, seq<Value>>, reg1: map<string, seq<Value>>, after: map<string, seq<Value>>)
    requires WalkInv(ok, fs, os, cur, i, before, reg0) && i < |fs| && fs[i].exported
    requires Grows(before, reg0) && Grows(reg0, reg1) && Grows(reg1, after)
    requires ok(fs[i], os[i], v) && Conforms(v, fs[i].shape)
    requires UniqueHeld(fs[i], os[i]) ==>
               v !in Registered(reg1, DecodeTags(fs[i].tag).fieldType)
               && v in Registered(after, DecodeTags(fs[i].tag).fieldType)
    ensures WalkInv(ok, fs, os, cur[i := v], i + 1, before, after)
  {
    var next := cur[i := v];
    GrowsTrans(reg0, reg1, after);
    FieldsGrow(fs, os, cur, i, before, reg0, after);
    var t := DecodeTags(fs[i].tag);
    if UniqueHeld(fs[i], os[i]) && v in Registered(before, t.fieldType) {
      GrowsTrans(before, reg0, reg1);
      InPrefix(v, Registered(before, t.fieldType), Registered(reg1, t.fieldType));
    }
    assert UniqueOk(fs[i], os[i], v, before, after);
    assert forall k | 0 <= k < i :: next[k] == cur[k];
    forall j, k | 0 <= j < k < i + 1
      ensures UniqueApart(fs, os, next, j, k)
    {
      if k < i {
        assert UniqueApart(fs, os, cur, j, k);
      } else if UniqueHeld(fs[j], os[j]) && UniqueHeld(fs[i], os[i])
                && DecodeTags(fs[j].tag).fieldType == t.fieldType {
        // the earlier value is already registered; `v` was not
        assert UniqueOk(fs[j], os[j], cur[j], before, reg0);
        InPrefix(cur[j], Registered(reg0, t.fieldType), Registered(reg1, t.fieldType));
      }
    }
  }

  /** Field `i` gets `v` but must be generated again: the walk stays on
      it while the registry grows from `reg0` to `reg1`. */
  lemma WalkRetry(ok: (Field, Value, Value) -> bool, fs: seq<Field>, os: seq<Value>,
                  cur: seq<Value>, i: int, v: Value, before: map<string, seq<Value>>,
                  reg0: map<string, seq<Value>>, reg1: map<string, seq<Value>>)
    requires WalkInv(ok, fs, os, cur, i, before, reg0) && i < |fs| && fs[i].exported
    requires Grows(reg0, reg1) && Conforms(v, fs[i].shape)
    ensures WalkInv(ok, fs, os, cur[i := v], i, before, reg1)
  {
    var next := cur[i := v];
    FieldsGrow(fs, os, cur, i, before, reg0, reg1);
    assert forall k | 0 <= k < i :: next[k] == cur[k];
    forall j, k | 0 <= j < k < i
      ensures UniqueApart(fs, os, next, j, k)
    {
      assert UniqueApart(fs, os, cur, j, k);
    }
  }

  /** An unexported field keeps its zero value. */
  lemma HiddenField(c: Config, providers: map<string, ProviderId>, f: Field, o: Value, v: Value)
    requires !f.exported && v == Zero(f.shape) && Conforms(v, f.shape)
    ensures FieldSpec(c, providers)(f, o, v)
  {
    assert FieldValueOk(c, providers, f, o, v);
  }

  /** Field `i` is unexported and keeps the value `ok` accepts: the walk
      moves past it. */
  lemma WalkSkip(ok: (Field, Value, Value) -> bool, fs: seq<Field>, os: seq<Value>,
                 cur: seq<Value>, i: int, before: map<string, seq<Value>>, after: map<string, seq<Value>>)
    requires WalkInv(ok, fs, os, cur, i, before, after) && i < |fs| && !fs[i].exported
    requires ok(fs[i], os[i], cur[i])
    ensures WalkInv(ok, fs, os, cur, i + 1, before, after)
  {
    ApartPast(fs, os, cur, i);
  }

  /** A field outside the unique check adds no pair of equal values. */
  lemma ApartPast(fs: seq<Field>, os: seq<Value>, vs: seq<Value>, i: int)
    requires 0 <= i < |fs| && |os| == |fs| && |vs| == |fs| && !UniqueHeld(fs[i], os[i])
    requires forall j, k | 0 <= j < k < i :: UniqueApart(fs, os, vs, j, k)
    ensures forall j, k | 0 <= j < k < i + 1 :: UniqueApart(fs, os, vs, j, k)
  {
    forall j, k | 0 <= j < k < i + 1
      ensures UniqueApart(fs, os, vs, j, k)
    {
      if k < i {
        assert UniqueApart(fs, os, vs, j, k);
      }
    }
  }

  /** A finished walk gives the record its fields, each unique one new to
      the registry it started from. */
  lemma WalkDone(c: Config, providers: map<string, ProviderId>, fs: seq<Field>, os: seq<Value>,
                 cur: seq<Value>, before: map<string, seq<Value>>, after: map<string, seq<Value>>)
    requires WalkInv(FieldSpec(c, providers), fs, os, cur, |fs|, before, after)
    ensures RecordOk(c, providers, fs, os, cur)
    ensures forall k | 0 <= k < |fs| :: UniqueOk(fs[k], os[k], cur[k], before, after)
  {
    forall k | 0 <= k < |fs|
      ensures FieldValueOk(c, providers, fs[k], os[k], cur[k])
    {
      assert FieldSpec(c, providers)(fs[k], os[k], cur[k]);
    }
  }

  class Faker {
    var config: Config
    /** `mapperTag`: provider functions by tag name. */
    var providers: map<string, ProviderId>
    /** `uniqueValues`: the values handed out so far, by unique tag. */
    var uniqueValues: map<string, seq<Value>>
    /** The names of the built-in providers, `DefaultTags`. */
    const defaultTags: set<string>
    const ext: External

    /** Every built-in provider sits under its own name and nothing else is
        built in. */
    ghost predicate ProvidersOk()
      reads this`providers
    {
      && (forall t | t in defaultTags :: t in providers && providers[t] == Builtin(t))
      && (forall t | t in providers :: providers[t].Builtin? ==> t in defaultTags)
    }

    /** No value is recorded twice under one tag. */
    ghost predicate RegistryOk()
      reads this`uniqueValues
    {
      forall key | key in uniqueValues :: Distinct(uniqueValues[key])
    }

    ghost predicate Valid()
      reads this`config, this`providers, this`uniqueValues
    {
      config.nBoundary.start <= config.nBoundary.end && ProvidersOk() && RegistryOk()
    }

    /** The package's initial state. */
    constructor(seed: int)
      ensures config == DefaultConfig && uniqueValues == map[] && defaultTags == DefaultTags
      ensures providers == map t | t in DefaultTags :: Builtin(t)
      ensures Valid()
    {
      defaultTags := DefaultTags;
      config := DefaultConfig;
      providers := map t | t in DefaultTags :: Builtin(t);
      uniqueValues := map[];
      ext := new External(seed);
    }

    /** `ResetUnique` (faker.go:231-233). */
    method ResetUnique()
      requires Valid()
      modifies this`uniqueValues
      ensures uniqueValues == map[] && Valid()
    {
      uniqueValues := map[];
    }

    /** `SetGenerateUniqueValues` (faker.go:236-238). */
    method SetGenerateUniqueValues(unique: bool)
      requires Valid()
      modifies this`config
      ensures config == old(config).(generateUniqueValues := unique) && Valid()
    {
      config := config.(generateUniqueValues := unique);
    }

    /** `SetNilIfLenIsZero` (faker.go:241-243). */
    method SetNilIfLenIsZero(setNil: bool)
      requires Valid()
      modifies this`config
      ensures config == old(config).(shouldSetNil := setNil) && Valid()
    {
      config := config.(shouldSetNil := setNil);
    }

    /** `SetRandomStringLength` (faker.go:246-252). */
    method SetRandomStringLength(size: int) returns (err: Option<Error>)
      requires Valid()
      modifies this`config
      ensures Valid()
      ensures size < 0 ==> err == Some(SmallerThanZero(size)) && config == old(config)
      ensures size >= 0 ==> err == None && config == old(config).(randomStringLen := size)
    {
      if size < 0 {
        return Some(SmallerThanZero(size));
      }
      config := config.(randomStringLen := size);
      err := None;
    }

    /** `SetFixedMapAndSliceSize` (faker.go:255-262). */
    method SetFixedMapAndSliceSize(size: int) returns (err: Option<Error>)
      requires Valid()
      modifies this`config
      ensures Valid()
      ensures size < 0 ==> err == Some(SmallerThanZero(size)) && config == old(config)
      ensures size >= 0 ==> err == None && config == old(config).(randomSize := size, isFixedSize := true)
    {
      if size < 0 {
        return Some(SmallerThanZero(size));
      }
      config := config.(randomSize := size, isFixedSize := true);
      err := None;
    }

    /** `SetRandomMapAndSliceSize` (faker.go:265-272). */
    method SetRandomMapAndSliceSize(size: int) returns (err: Option<Error>)
      requires Valid()
      modifies this`config
      ensures Valid()
      ensures size < 0 ==> err == Some(SmallerThanZero(size)) && config == old(config)
      ensures size >= 0 ==> err == None && config == old(config).(randomSize := size, isFixedSize := false)
    {
      if size < 0 {
        return Some(SmallerThanZero(size));
      }
      config := config.(randomSize := size, isFixedSize := false);
      err := None;
    }

    /** `SetRandomNumberBoundaries` (faker.go:275-281): an empty range
        (start == end) is accepted. */
    method SetRandomNumberBoundaries(start: int, end: int) returns (err: Option<Error>)
      requires Valid()
      modifies this`config
      ensures Valid()
      ensures start > end ==> err == Some(StartValueBiggerThanEnd) && config == old(config)
      ensures start <= end ==> err == None && config == old(config).(nBoundary := NumberBoundary(start, end))
    {
      if start > end {
        return Some(StartValueBiggerThanEnd);
      }
      config := config.(nBoundary := NumberBoundary(start, end));
      err := None;
    }

    /** `AddProvider` (faker.go:351-359): a tag can be registered once, and
        the built-in tags are taken from the start. */
    method AddProvider(tag: string, id: nat) returns (err: Option<Error>)
      requires Valid()
      modifies this`providers
      ensures Valid()
      ensures tag in old(providers) ==> err == Some(TagAlreadyExists) && providers == old(providers)
      ensures tag !in old(providers) ==> err == None && providers == old(providers)[tag := Custom(id)]
    {
      if tag in providers {
        return Some(TagAlreadyExists);
      }
      providers := providers[tag := Custom(id)];
      err := None;
    }

    /** `randomSliceAndMapSize` (faker.go:954-962). Go panics when a random
        size is asked of an empty range. */
    method RandomSliceAndMapSize() returns (r: Result<nat, Error>)
      modifies ext
      ensures r.Ok? ==> SizeOk(config, r.value)
      ensures r.Err? <==> !config.testRandZero && !config.isFixedSize && config.randomSize == 0
      ensures r.Err? ==> r.error == Panic(NonPositiveIntn(0))
    {
      if config.testRandZero {
        return Ok(0);
      }
      if config.isFixedSize {
        return Ok(config.randomSize);
      }
      if config.randomSize == 0 {
        return Err(Panic(NonPositiveIntn(0)));
      }
      var n := ext.Intn(config.randomSize);
      r := Ok(n);
    }

    /** `randomInteger` (faker.go:948-950): a value of [start, end); Go
        panics when the range is empty. */
    method RandomInteger() returns (r: Result<int, Error>)
      modifies ext
      ensures r.Ok? <==> config.nBoundary.start < config.nBoundary.end
      ensures r.Ok? ==> config.nBoundary.start <= r.value < config.nBoundary.end
      ensures r.Err? ==> r.error == Panic(NonPositiveIntn(config.nBoundary.end - config.nBoundary.start))
    {
      var b := config.nBoundary;
      if b.end - b.start <= 0 {
        return Err(Panic(NonPositiveIntn(b.end - b.start)));
      }
      var x := RandomIntegerWithBoundary(ext, b);
      r := Ok(x);
    }

    /** `generateUnique` (faker.go:1009-1018): draws up to MaxRetry values
        and records and returns the first one not yet recorded under
        `dataType`. */
    method GenerateUnique(dataType: string, g: nat) returns (r: Result<Value, Error>)
      requires Valid()
      modifies this`uniqueValues, ext
      ensures Valid()
      ensures r.Ok? ==> r.value !in Registered(old(uniqueValues), dataType)
                        && uniqueValues == old(uniqueValues)[dataType := Registered(old(uniqueValues), dataType) + [r.value]]
      ensures r.Err? ==> r == Err(UniqueFailure(dataType)) && uniqueValues == old(uniqueValues)
      ensures Registered(old(uniqueValues), dataType) == [] ==> r.Ok?
      ensures old(ext.drawn) <= ext.drawn
      ensures 1 <= |ext.drawn| - |old(ext.drawn)| <= MaxRetry
      ensures r.Err? ==> |ext.drawn| - |old(ext.drawn)| == MaxRetry
                         && forall x | x in ext.drawn[|old(ext.drawn)|..] :: x in Registered(old(uniqueValues), dataType)
      ensures r.Ok? ==> r.value == ext.drawn[|ext.drawn| - 1]
                        && forall x | x in ext.drawn[|old(ext.drawn)|..|ext.drawn| - 1] ::
                             x in Registered(old(uniqueValues), dataType)
    {
      var i := 0;
      while i < MaxRetry
        invariant 0 <= i <= MaxRetry
        invariant uniqueValues == old(uniqueValues)
        invariant old(ext.drawn) <= ext.drawn && |ext.drawn| == |old(ext.drawn)| + i
        invariant forall x | x in ext.drawn[|old(ext.drawn)|..] :: x in Registered(old(uniqueValues), dataType)
      {
        ghost var before := ext.drawn;
        var value := ext.Generate(g);
        assert ext.drawn[|old(ext.drawn)|..] == before[|old(ext.drawn)|..] + [value];
        var seen := Registered(uniqueValues, dataType);
        if value !in seen {
          uniqueValues := uniqueValues[dataType := seen + [value]];
          return Ok(value);
        }
        i := i + 1;
      }
      // Every one of the MaxRetry draws was already registered.
      assert ext.drawn[|old(ext.drawn)|] in ext.drawn[|old(ext.drawn)|..];
      r := Err(UniqueFailure(dataType));
    }

    /** Carries out a tag's plan on a field of type `shape`: the random draws
        of `userDefinedString` and `userDefinedNumber` and the provider calls
        of `setDataWithTagSwitch` and `setDataWithTag` (faker.go:576-645,
        735-789). */
    method RunPlan(plan: Plan, shape: Shape) returns (r: Result<Value, Error>)
      requires Fits(plan, shape)
      modifies ext
      ensures r.Ok? ==> Realizes(config, plan, r.value, shape)
      decreases plan
    {
      match plan
      case CallProvider(p) =>
        var res := ext.CallProvider(p, shape);
        r := if res.Some? then Ok(res.value) else Err(ProviderError(p));
      case RandomLetters(_) =>
        r := RunLeaf(plan, shape);
      case Between(_) =>
        r := RunLeaf(plan, shape);
      case Literal(v) =>
        r := Ok(v);
      case Pointer(q) =>
        var inner :- RunPlan(q, shape.target);
        r := Ok(PtrV(inner));
      case SliceOf(e) =>
        r := UserDefinedArray(e, shape);
      case MapOf(ke, ve) =>
        r := UserDefinedMap(ke, ve, shape);
    }

    /** The draw behind `getValueWithTag` (faker.go:697-715), through
        `extractNumberFromTag` and `extractStringFromTag`: an integer of the
        tag's range or a string of the tag's length. Go panics on an empty
        range and on a negative length. */
    method RunLeaf(plan: Plan, shape: Shape) returns (r: Result<Value, Error>)
      requires LeafFits(plan, shape)
      modifies ext
      ensures r.Ok? ==> LeafRealizes(plan, r.value, shape)
      ensures plan.Between? ==> (r.Ok? <==> plan.b.start < plan.b.end)
      ensures plan.RandomLetters? && plan.n < 0 ==> r == Err(Panic(NegativeLength(plan.n)))
    {
      if plan.RandomLetters? {
        var n := plan.n;
        if n < 0 {
          return Err(Panic(NegativeLength(n)));
        }
        var s := RandomString(ext, n);
        r := if s.Some? then Ok(StrV(s.value)) else Err(RandomSourceExhausted);
      } else {
        var b := plan.b;
        if b.end - b.start <= 0 {
          return Err(Panic(NonPositiveIntn(b.end - b.start)));
        }
        var x := RandomIntegerWithBoundary(ext, b);
        r := Ok(Convert(x, shape));
      }
    }

    /** `userDefinedArray` (faker.go:717-733): a slice of the configured size
        whose every element comes from the same element plan. */
    method UserDefinedArray(e: Result<Plan, Error>, shape: Shape) returns (r: Result<Value, Error>)
      requires shape.Slice? && (e.Ok? ==> LeafFits(e.value, shape.elem))
      modifies ext
      ensures r.Ok? ==> Realizes(config, SliceOf(e), r.value, shape)
    {
      var n :- RandomSliceAndMapSize();
      if config.shouldSetNil && n == 0 {
        return Ok(NilSlice);
      }
      var elems := [];
      while |elems| < n
        invariant |elems| <= n
        invariant |elems| > 0 ==> e.Ok?
        invariant e.Ok? ==> forall k | 0 <= k < |elems| :: LeafRealizes(e.value, elems[k], shape.elem)
      {
        if e.Err? {
          return Err(e.error);
        }
        var x :- RunLeaf(e.value, shape.elem);
        elems := elems + [x];
      }
      r := Ok(SliceV(elems));
    }

    /** `userDefinedMap` without a provider (faker.go:677-694): the
        configured number of draws of a key and a value from the same tag;
        a key drawn twice keeps its last value. */
    method UserDefinedMap(ke: Result<Plan, Error>, ve: Result<Plan, Error>, shape: Shape) returns (r: Result<Value, Error>)
      requires shape.Map? && (ke.Ok? ==> LeafFits(ke.value, shape.key)) && (ve.Ok? ==> LeafFits(ve.value, shape.val))
      modifies ext
      ensures r.Ok? ==> Realizes(config, MapOf(ke, ve), r.value, shape)
    {
      var n :- RandomSliceAndMapSize();
      if config.shouldSetNil && n == 0 {
        return Ok(NilMap);
      }
      var m: map<Value, Value> := map[];
      var i := 0;
      while i < n
        invariant 0 <= i <= n && |m| <= i && (i > 0 ==> |m| > 0)
        invariant i > 0 ==> ke.Ok? && ve.Ok?
        invariant ke.Ok? && ve.Ok? ==> forall key | key in m ::
          LeafRealizes(ke.value, key, shape.key) && LeafRealizes(ve.value, m[key], shape.val)
      {
        var entry :- RunEntry(ke, ve, shape);
        m := m[entry.0 := entry.1];
        assert entry.0 in m;
        i := i + 1;
      }
      r := Ok(MapV(m));
    }

    /** One entry of `userDefinedMap`: a key, then a value, each stopping at
        the first failure. */
    method RunEntry(ke: Result<Plan, Error>, ve: Result<Plan, Error>, shape: Shape) returns (r: Result<(Value, Value), Error>)
      requires shape.Map? && (ke.Ok? ==> LeafFits(ke.value, shape.key)) && (ve.Ok? ==> LeafFits(ve.value, shape.val))
      modifies ext
      ensures ke.Err? ==> r == Err(ke.error)
      ensures r.Ok? ==> ke.Ok? && ve.Ok?
                        && LeafRealizes(ke.value, r.value.0, shape.key) && LeafRealizes(ve.value, r.value.1, shape.val)
    {
      if ke.Err? {
        return Err(ke.error);
      }
      var key :- RunLeaf(ke.value, shape.key);
      if ve.Err? {
        return Err(ve.error);
      }
      var val :- RunLeaf(ve.value, shape.val);
      r := Ok((key, val));
    }

    /** `setDataWithTag` (faker.go:576-619): decide from the tag, then carry
        the decision out. */
    method SetDataWithTag(shape: Shape, tag: string) returns (r: Result<Value, Error>)
      modifies ext
      ensures r.Ok? ==> Tagged(config, providers, shape, tag, r.value)
      ensures TagPlan(providers, shape, tag).Err? ==> r == Err(TagPlan(providers, shape, tag).error)
    {
      var plan :- TagPlan(providers, shape, tag);
      r := RunPlan(plan, shape);
    }

    /** `getValue` (faker.go:361-531): a new value of type `shape`. Only a
        pointer looks at the current value `orig`: a non-nil pointer has its
        pointee walked, so `keep` and `-` fields inside it see their
        values. */
    method GetValue(shape: Shape, orig: Value) returns (r: Result<Value, Error>)
      requires Valid() && Conforms(orig, shape)
      modifies this`uniqueValues, ext
      ensures Valid() && Grows(old(uniqueValues), uniqueValues)
      ensures r.Ok? ==> Outcome(config, providers, shape, orig, r.value, old(uniqueValues), uniqueValues)
      ensures shape.Bool? ==> r.Ok?
      ensures IsInteger(shape) ==> (r.Ok? <==> config.nBoundary.start < config.nBoundary.end)
      decreases shape, 3
    {
      match shape
      case Bool =>
        var x := ext.Intn(2);
        r := Ok(BoolV(x > 0));
      case Int(_) =>
        var x :- RandomInteger();
        r := Ok(Convert(x, shape));
      case Uint(_) =>
        var x :- RandomInteger();
        r := Ok(Convert(x, shape));
      case Str =>
        var s := RandomString(ext, config.randomStringLen);
        r := if s.Some? then Ok(StrV(s.value)) else Err(RandomSourceExhausted);
      case Slice(_) =>
        r := GetSlice(shape);
      case Map(_, _) =>
        r := GetMap(shape);
      case Struct(_) =>
        r := WalkStruct(shape, orig);
      case Ptr(t) =>
        var x :- GetValue(t, if orig.PtrV? then orig.pointee else Zero(t));
        r := Ok(PtrV(x));
    }

    /** The slice case of `getValue` (faker.go:458-471): a slice of the
        configured size, each element walked from its zero value. */
    method GetSlice(shape: Shape) returns (r: Result<Value, Error>)
      requires Valid() && shape.Slice?
      modifies this`uniqueValues, ext
      ensures Valid() && Grows(old(uniqueValues), uniqueValues)
      ensures r.Ok? ==> Produced(config, providers, r.value, shape)
      decreases shape, 1
    {
      var n :- RandomSliceAndMapSize();
      if config.shouldSetNil && n == 0 {
        return Ok(NilSlice);
      }
      var elems := [];
      while |elems| < n
        invariant |elems| <= n
        invariant Valid() && Grows(old(uniqueValues), uniqueValues)
        invariant forall k | 0 <= k < |elems| :: Produced(config, providers, elems[k], shape.elem)
      {
        ghost var reg := uniqueValues;
        var x := GetValue(shape.elem, Zero(shape.elem));
        GrowsTrans(old(uniqueValues), reg, uniqueValues);
        if x.Err? {
          return Err(x.error);
        }
        elems := elems + [x.value];
      }
      r := Ok(SliceV(elems));
    }

    /** The map case of `getValue` (faker.go:505-525): the configured number
        of draws of a key and a value, each walked from its zero value. */
    method GetMap(shape: Shape) returns (r: Result<Value, Error>)
      requires Valid() && shape.Map?
      modifies this`uniqueValues, ext
      ensures Valid() && Grows(old(uniqueValues), uniqueValues)
      ensures r.Ok? ==> Produced(config, providers, r.value, shape)
      decreases shape, 1
    {
      var n :- RandomSliceAndMapSize();
      if config.shouldSetNil && n == 0 {
        return Ok(NilMap);
      }
      var m: map<Value, Value> := map[];
      var i := 0;
      while i < n
        invariant 0 <= i <= n && |m| <= i && (i > 0 ==> |m| > 0)
        invariant Valid() && Grows(old(uniqueValues), uniqueValues)
        invariant forall key | key in m :: Produced(config, providers, key, shape.key) && Produced(config, providers, m[key], shape.val)
      {
        ghost var reg := uniqueValues;
        var entry := GetEntry(shape);
        GrowsTrans(old(uniqueValues), reg, uniqueValues);
        if entry.Err? {
          return Err(entry.error);
        }
        m := m[entry.value.0 := entry.value.1];
        assert entry.value.0 in m;
        i := i + 1;
      }
      r := Ok(MapV(m));
    }

    /** One entry of a generated map: a fresh key, then a fresh value. */
    method GetEntry(shape: Shape) returns (r: Result<(Value, Value), Error>)
      requires Valid() && shape.Map?
      modifies this`uniqueValues, ext
      ensures Valid() && Grows(old(uniqueValues), uniqueValues)
      ensures r.Ok? ==> Produced(config, providers, r.value.0, shape.key) && Produced(config, providers, r.value.1, shape.val)
      decreases shape, 0
    {
      var key := GetValue(shape.key, Zero(shape.key));
      if key.Err? {
        return Err(key.error);
      }
      ghost var reg := uniqueValues;
      var val := GetValue(shape.val, Zero(shape.val));
      GrowsTrans(old(uniqueValues), reg, uniqueValues);
      if val.Err? {
        return Err(val.error);
      }
      r := Ok((key.value, val.value));
    }

    /** The record case of `getValue` (faker.go:391-452): the fields of a
        fresh zero record are filled in order; a unique field whose value
        is already recorded is generated again, at most MaxRetry times in a
        row. */
    method WalkStruct(shape: Shape, orig: Value) returns (r: Result<Value, Error>)
      requires Valid() && shape.Struct? && Conforms(orig, shape)
      modifies this`uniqueValues, ext
      ensures Valid() && Grows(old(uniqueValues), uniqueValues)
      ensures r.Ok? ==> Outcome(config, providers, shape, orig, r.value, old(uniqueValues), uniqueValues)
      decreases shape, 2
    {
      var fs := shape.fields;
      var cur := Zero(shape).fields;
      var i, retry := 0, 0;
      while i < |fs|
        invariant 0 <= retry <= MaxRetry
        invariant WalkInv(FieldSpec(config, providers), fs, orig.fields, cur, i, old(uniqueValues), uniqueValues)
        invariant Valid() && Grows(old(uniqueValues), uniqueValues)
        decreases |fs| - i, MaxRetry - retry
      {
        ghost var reg := uniqueValues;
        var step :- WalkField(shape, orig, cur, i, retry, old(uniqueValues));
        GrowsTrans(old(uniqueValues), reg, uniqueValues);
        cur, i, retry := step.0, step.1, step.2;
      }
      WalkDone(config, providers, fs, orig.fields, cur, old(uniqueValues), uniqueValues);
      assert Conforms(orig, shape) && RecordOk(config, providers, fs, orig.fields, cur);
      r := Ok(StructV(cur));
    }

    /** One pass of the record loop (faker.go:395-450) on field `i`: the
        next field with its retry count reset, the same field again with
        one more retry when a unique value was already recorded, or an
        error. */
    method WalkField(shape: Shape, orig: Value, cur: seq<Value>, i: int, retry: int,
                     ghost before: map<string, seq<Value>>)
      returns (r: Result<(seq<Value>, int, int), Error>)
      requires Valid() && shape.Struct? && Conforms(orig, shape) && i < |shape.fields| && 0 <= retry <= MaxRetry
      requires Grows(before, uniqueValues)
      requires WalkInv(FieldSpec(config, providers), shape.fields, orig.fields, cur, i, before, uniqueValues)
      modifies this`uniqueValues, ext
      ensures Valid() && Grows(old(uniqueValues), uniqueValues)
      ensures r.Ok? ==> WalkInv(FieldSpec(config, providers), shape.fields, orig.fields, r.value.0, r.value.1, before, uniqueValues)
      ensures r.Ok? ==> 0 <= r.value.2 <= MaxRetry
                        && (r.value.1 == i + 1 || (r.value.1 == i && r.value.2 == retry + 1))
      ensures r.Ok? && r.value.1 == i ==>
                UniqueHeld(shape.fields[i], orig.fields[i])
                && r.value.0[i] in Registered(uniqueValues, DecodeTags(shape.fields[i].tag).fieldType)
      ensures r.Ok? && r.value.1 == i + 1 ==>
                r.value.2 == if !shape.fields[i].exported || KeepsZero(shape.fields[i], orig.fields[i]) then retry else 0
      ensures UniqueHeld(shape.fields[i], orig.fields[i]) && retry == MaxRetry ==> r.Err?
      decreases shape, 1
    {
      var fs := shape.fields;
      var f := fs[i];
      if !f.exported {
        HiddenField(config, providers, f, orig.fields[i], cur[i]);
        WalkSkip(FieldSpec(config, providers), fs, orig.fields, cur, i, before, uniqueValues);
        return Ok((cur, i + 1, retry));
      }
      ghost var reg0 := uniqueValues;
      var res := GenerateField(shape, i, orig.fields[i], cur[i]);
      if res.Err? {
        return Err(res.error);
      }
      r := CheckUnique(shape.fields, orig.fields, cur, i, retry, res.value, before, reg0);
    }

    /** The unique check on the value `v` just generated for field `i`
        (faker.go:433-450): at the retry limit a unique field fails naming
        itself; a value already recorded under the tag sends the walk back
        to the same field; otherwise the value is recorded, the field is
        done and the retry count starts over. */
    method CheckUnique(fs: seq<Field>, os: seq<Value>, cur: seq<Value>, i: int, retry: int, v: Value,
                       ghost before: map<string, seq<Value>>, ghost reg0: map<string, seq<Value>>)
      returns (r: Result<(seq<Value>, int, int), Error>)
      requires Valid() && 0 <= i < |fs| && fs[i].exported && 0 <= retry <= MaxRetry
      requires Grows(before, reg0) && Grows(reg0, uniqueValues)
      requires WalkInv(FieldSpec(config, providers), fs, os, cur, i, before, reg0)
      requires FieldSpec(config, providers)(fs[i], os[i], v) && Conforms(v, fs[i].shape)
      modifies this`uniqueValues
      ensures Valid() && Grows(old(uniqueValues), uniqueValues)
      ensures r.Ok? ==> WalkInv(FieldSpec(config, providers), fs, os, r.value.0, r.value.1, before, uniqueValues)
      ensures UniqueHeld(fs[i], os[i]) && retry == MaxRetry ==> r == Err(UniqueFailure(fs[i].name))
      ensures !UniqueHeld(fs[i], os[i]) ==>
                r == Ok((cur[i := v], i + 1, if KeepsZero(fs[i], os[i]) then retry else 0))
      ensures UniqueHeld(fs[i], os[i]) && retry < MaxRetry ==>
                r.Ok? && r.value.0 == cur[i := v]
                && (v in Registered(old(uniqueValues), DecodeTags(fs[i].tag).fieldType) <==> r.value.1 == i)
                && (r.value.1 == i ==> r.value.2 == retry + 1 && uniqueValues == old(uniqueValues))
                && (r.value.1 != i ==> r.value.1 == i + 1 && r.value.2 == 0)
    {
      var f := fs[i];
      var t := DecodeTags(f.tag);
      ghost var reg1 := uniqueValues;
      var keeps := KeepsZero(f, os[i]);
      if t.unique && !keeps {
        if retry >= MaxRetry {
          return Err(UniqueFailure(f.name));
        }
        var isNew := RecordUnique(t.fieldType, v);
        GrowsTrans(reg0, reg1, uniqueValues);
        if !isNew {
          WalkRetry(FieldSpec(config, providers), fs, os, cur, i, v, before, reg0, uniqueValues);
          return Ok((cur[i := v], i, retry + 1));
        }
      }
      WalkAdvance(FieldSpec(config, providers), fs, os, cur, i, v, before, reg0, reg1, uniqueValues);
      r := Ok((cur[i := v], i + 1, if keeps then retry else 0));
    }

    /** The registry step of the record walk (faker.go:440-447): a value
        not yet recorded under `tag` is recorded, and the answer says which
        case it was. */
    method RecordUnique(tag: string, v: Value) returns (isNew: bool)
      requires Valid()
      modifies this`uniqueValues
      ensures Valid() && Grows(old(uniqueValues), uniqueValues)
      ensures isNew <==> v !in Registered(old(uniqueValues), tag)
      ensures isNew ==> uniqueValues == old(uniqueValues)[tag := Registered(old(uniqueValues), tag) + [v]]
      ensures isNew ==> v in Registered(uniqueValues, tag)
      ensures !isNew ==> uniqueValues == old(uniqueValues)
    {
      var seen := Registered(uniqueValues, tag);
      if v in seen {
        return false;
      }
      uniqueValues := uniqueValues[tag := seen + [v]];
      assert Registered(uniqueValues, tag) == seen + [v];
      assert Grows(old(uniqueValues), uniqueValues) by {
        forall key
          ensures Registered(old(uniqueValues), key) <= Registered(uniqueValues, key)
        {
          if key == tag {
            assert Registered(uniqueValues, key) == seen + [v];
          }
        }
      }
      isNew := true;
    }

    /** One field of the record walk (faker.go:399-431): `keep` keeps a
        non-zero original and regenerates a zero one from the tag, an empty
        tag walks the field's current value, `-` copies the original, and any
        other tag is carried out by `setDataWithTag`. */
    method GenerateField(shape: Shape, i: nat, o: Value, c: Value) returns (r: Result<Value, Error>)
      requires Valid() && shape.Struct? && i < |shape.fields| && shape.fields[i].exported
      requires Conforms(o, shape.fields[i].shape) && Conforms(c, shape.fields[i].shape)
      modifies this`uniqueValues, ext
      ensures Valid() && Grows(old(uniqueValues), uniqueValues)
      ensures r.Ok? ==> Conforms(r.value, shape.fields[i].shape) && FieldSpec(config, providers)(shape.fields[i], o, r.value)
      decreases shape, 0
    {
      var f := shape.fields[i];
      var t := DecodeTags(f.tag);
      if t.keepOriginal {
        r := KeepField(f, o);
      } else if t.fieldType == "" {
        r := GetValue(f.shape, c);
        if r.Ok? {
          WalkedField(config, providers, f, o, r.value);
        }
      } else if t.fieldType == Skip {
        r := Ok(o);
        CopiedField(config, providers, f, o);
      } else {
        r := TaggedField(f, o);
      }
    }

    /** A `keep` field (faker.go:401-413): a non-zero original is kept and
        a zero one is regenerated from the tag's type. */
    method KeepField(f: Field, o: Value) returns (r: Result<Value, Error>)
      requires f.exported && DecodeTags(f.tag).keepOriginal && Conforms(o, f.shape)
      modifies ext
      ensures r.Ok? ==> Conforms(r.value, f.shape) && FieldSpec(config, providers)(f, o, r.value)
    {
      var zero :- IsZero(o, f.shape);
      if zero {
        r := SetDataWithTag(f.shape, DecodeTags(f.tag).fieldType);
      } else {
        r := Ok(o);
      }
      if r.Ok? {
        assert FieldValueOk(config, providers, f, o, r.value);
      }
    }

    /** A field whose tag names a provider, a length, a boundary or a set of
        literals (faker.go:426-430). */
    method TaggedField(f: Field, o: Value) returns (r: Result<Value, Error>)
      requires f.exported && !DecodeTags(f.tag).keepOriginal
      requires DecodeTags(f.tag).fieldType != "" && DecodeTags(f.tag).fieldType != Skip
      modifies ext
      ensures r.Ok? ==> Conforms(r.value, f.shape) && FieldSpec(config, providers)(f, o, r.value)
    {
      r := SetDataWithTag(f.shape, DecodeTags(f.tag).fieldType);
      if r.Ok? {
        assert FieldValueOk(config, providers, f, o, r.value);
      }
    }

    /** `FakeData` (faker.go:285-306): fills the value a non-nil pointer
        points to and returns the new pointee. */
    method FakeData(shape: Shape, a: Value) returns (r: Result<Value, Error>)
      requires Valid() && Conforms(a, shape)
      modifies this`uniqueValues, ext
      ensures Valid()
      ensures !shape.Ptr? ==> r == Err(ValueNotPtr) && uniqueValues == old(uniqueValues) && unchanged(ext)
      ensures shape.Ptr? && a.NilPtr? ==>
                r == Err(NotSupportedPointer(shape.target)) && uniqueValues == old(uniqueValues) && unchanged(ext)
      ensures r.Ok? ==> shape.Ptr? && a.PtrV?
                        && Outcome(config, providers, shape.target, a.pointee, r.value, old(uniqueValues), uniqueValues)
    {
      if !shape.Ptr? {
        return Err(ValueNotPtr);
      }
      if a.NilPtr? {
        return Err(NotSupportedPointer(shape.target));
      }
      var finalValue :- GetValue(shape, a);
      r := Ok(finalValue.pointee);
    }
  }
}
