/** The closed universe of types and values that stands in for Go's
    reflection in faker.go: a `Shape` is the static type of a field, a
    `Value` is what a variable of that type holds, and `Error` lists the
    error messages of faker.go, one constructor per message, carrying the
    message's format arguments. */
module Shapes {
  import opened Wrappers

  /** Bit width of a Go integer type; Go's `int` and `uint` are 64 bits wide. */
  datatype Width = W8 | W16 | W32 | W64

  /** Number of distinct values of a width: 2 to the power of its bits. */
  function Modulus(w: Width): nat
  {
    match w
    case W8 => 0x100
    case W16 => 0x1_0000
    case W32 => 0x1_0000_0000
    case W64 => 0x1_0000_0000_0000_0000
  }

  /** The type of a struct field, as far as the generator distinguishes it. */
  datatype Shape =
    | Bool
    | Int(w: Width)
    | Uint(w: Width)
    | Str
    | Slice(elem: Shape)
    | Map(key: Shape, val: Shape)
    | Struct(fields: seq<Field>)
    | Ptr(target: Shape)

  /** A struct field: its name, the text of its `faker:"..."` tag (empty when
      there is none), whether it is exported (settable through reflection),
      and its type. */
  datatype Field = Field(name: string, tag: string, exported: bool, shape: Shape)

  predicate IsInteger(shape: Shape)
  {
    shape.Int? || shape.Uint?
  }

  /** A Go value. Integers of every width are held as mathematical integers
      that `Conforms` keeps inside the width's range; `NilSlice`, `NilMap`
      and `NilPtr` are the nil values of their kinds. */
  datatype Value =
    | BoolV(b: bool)
    | IntV(i: int)
    | StrV(s: string)
    | SliceV(elems: seq<Value>)
    | NilSlice
    | MapV(entries: map<Value, Value>)
    | NilMap
    | StructV(fields: seq<Value>)
    | PtrV(pointee: Value)
    | NilPtr

  /** `v` is a value of type `shape`. */
  ghost predicate Conforms(v: Value, shape: Shape)
    decreases shape
  {
    match shape
    case Bool => v.BoolV?
    case Int(w) => v.IntV? && -(Modulus(w) / 2) <= v.i < Modulus(w) / 2
    case Uint(w) => v.IntV? && 0 <= v.i < Modulus(w)
    case Str => v.StrV?
    case Slice(e) =>
      v.NilSlice? || (v.SliceV? && forall x | x in v.elems :: Conforms(x, e))
    case Map(k, e) =>
      v.NilMap? || (v.MapV? && forall x | x in v.entries :: Conforms(x, k) && Conforms(v.entries[x], e))
    case Struct(fs) =>
      v.StructV? && |v.fields| == |fs| && forall i | 0 <= i < |fs| :: Conforms(v.fields[i], fs[i].shape)
    case Ptr(t) => v.NilPtr? || (v.PtrV? && Conforms(v.pointee, t))
  }

  /** `reflect.Zero`: false, 0, "", nil for slices, maps and pointers, and a
      struct of zero fields. */
  function Zero(shape: Shape): (z: Value)
    ensures Conforms(z, shape)
    decreases shape
  {
    match shape
    case Bool => BoolV(false)
    case Int(_) => IntV(0)
    case Uint(_) => IntV(0)
    case Str => StrV("")
    case Slice(_) => NilSlice
    case Map(_, _) => NilMap
    case Struct(fs) => StructV(ZeroFields(fs))
    case Ptr(_) => NilPtr
  }

  /** The zero values of a record's fields, in order. */
  function ZeroFields(fs: seq<Field>): (zs: seq<Value>)
    ensures |zs| == |fs| && forall i | 0 <= i < |fs| :: zs[i] == Zero(fs[i].shape)
    decreases fs
  {
    if fs == [] then []
    else [Zero(fs[0].shape)] + ZeroFields(fs[1..])
  }

  /** `d` is a multiple of 2^bits. */
  predicate MultipleOf(d: int, w: Width)
  {
    d == Modulus(w) * (d / Modulus(w))
  }

  /** Go's conversion of an integer to an unsigned type of width `w`:
      keeps the low bits, that is, reduces modulo 2^bits. */
  function WrapUnsigned(x: int, w: Width): (r: int)
    ensures 0 <= r < Modulus(w)
    ensures MultipleOf(x - r, w)
  {
    var m := Modulus(w);
    var r := x % m;
    DivExact(x / m, w);
    assert x - r == m * (x / m);
    r
  }

  lemma DivExact(q: int, w: Width)
    ensures (Modulus(w) * q) / Modulus(w) == q
  {
    match w
    case W8 =>
    case W16 =>
    case W32 =>
    case W64 =>
  }

  /** Go's conversion of an integer to a signed type of width `w`: keeps the
      low bits, read in two's complement. */
  function WrapSigned(x: int, w: Width): (r: int)
    ensures -(Modulus(w) / 2) <= r < Modulus(w) / 2
    ensures MultipleOf(x - r, w)
  {
    var u := WrapUnsigned(x, w);
    if u < Modulus(w) / 2 then u else u - Modulus(w)
  }

  /** The value that converting the integer `x` to the integer type `shape`
      produces. */
  function Convert(x: int, shape: Shape): (v: Value)
    requires IsInteger(shape)
    ensures Conforms(v, shape)
    ensures v.IntV? && MultipleOf(x - v.i, shape.w)
  {
    if shape.Int? then IntV(WrapSigned(x, shape.w)) else IntV(WrapUnsigned(x, shape.w))
  }

  /** `x` is representable in the integer type `shape`. */
  predicate Representable(x: int, shape: Shape)
    requires IsInteger(shape)
  {
    if shape.Int? then -(Modulus(shape.w) / 2) <= x < Modulus(shape.w) / 2
    else 0 <= x < Modulus(shape.w)
  }

  /** Converting a representable integer keeps it. */
  lemma ConvertKeeps(x: int, shape: Shape)
    requires IsInteger(shape) && Representable(x, shape)
    ensures Convert(x, shape) == IntV(x)
  {
    WrapUnique(x, Convert(x, shape).i, shape.w);
  }

  /** Two integers closer than 2^bits that agree modulo 2^bits are equal. */
  lemma WrapUnique(x: int, r: int, w: Width)
    requires MultipleOf(x - r, w)
    requires x - r < Modulus(w) && r - x < Modulus(w)
    ensures x == r
  {
  }

  /** The Go runtime panics that faker.go can run into without catching. */
  datatype PanicKind =
    | NonPositiveIntn(n: int)   // rand.Intn(n) with n <= 0
    | NegativeLength(n: int)    // make([]byte, n) with n < 0

  /** The error messages of faker.go (lines 203-218 and the inline ones). */
  datatype Error =
    | ValueNotPtr                       // ErrValueNotPtr
    | NotSupportedPointer(elem: Shape)  // ErrNotSupportedPointer, naming the pointee type
    | TagNotSupported(tag: string)      // ErrTagNotSupported
    | TagAlreadyExists                  // ErrTagAlreadyExists
    | MoreArguments(count: nat)         // ErrMoreArguments
    | SmallerThanZero(size: int)        // ErrSmallerThanZero
    | UniqueFailure(name: string)       // ErrUniqueFailure
    | StartValueBiggerThanEnd           // ErrStartValueBiggerThanEnd
    | WrongFormattedTag(text: string)   // ErrWrongFormattedTag
    | UnknownType                       // ErrUnknownType
    | NotSupportedTypeForTag            // ErrNotSupportedTypeForTag
    | KeepNotAllowed                    // "keep not allowed on struct"
    | ParseBoolSyntax(text: string)     // the error of strconv.ParseBool
    | ProviderError(provider: ProviderId)  // whatever a provider function returns
    | RandomSourceExhausted             // see Primitives.RandomString
    | Panic(kind: PanicKind)            // a Go runtime panic

  /** A registered provider function (Go's `TaggedFunction`). The functions
      themselves live outside faker.go; they are told apart by identity only. */
  datatype ProviderId = Builtin(name: string) | Custom(id: nat)

  /** Half-open interval [start, end) for random integers. */
  datatype NumberBoundary = NumberBoundary(start: int, end: int)

  /** `isZero`: whether a field counts as unset for the `keep` modifier.
      Maps are zero when they have no entries; structs and slices cannot be
      kept; every other kind is zero when it equals its zero value. */
  function IsZero(v: Value, shape: Shape): (r: Result<bool, Error>)
    ensures r.Err? <==> shape.Struct? || shape.Slice?
    ensures r.Err? ==> r.error == KeepNotAllowed
    ensures r.Ok? && shape.Map? ==> (r.value <==> v == NilMap || (v.MapV? && |v.entries| == 0))
    ensures r.Ok? && !shape.Map? ==> (r.value <==> v == Zero(shape))
  {
    match shape
    case Map(_, _) => Ok(v.NilMap? || (v.MapV? && |v.entries| == 0))
    case Struct(_) => Err(KeepNotAllowed)
    case Slice(_) => Err(KeepNotAllowed)
    case _ => Ok(v == Zero(shape))
  }

  /** The zero value of every kind that `keep` accepts counts as zero. */
  lemma ZeroIsZero(shape: Shape)
    requires !shape.Struct? && !shape.Slice?
    ensures IsZero(Zero(shape), shape) == Ok(true)
  {
  }
}
