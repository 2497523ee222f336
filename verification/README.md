# faker: the struct-filling engine, modelled in Dafny

This project models the core of the Go package `faker` (`faker.go`).
`FakeData` takes a pointer to a value and fills it with random data:

- Every type gets a random value of its own kind.
- A record's fields are filled in order, each steered by its `faker:"..."` tag.
- A tag can name a registered provider function or ask for a literal (`use=...`).
- It can also ask for a string length (`len=K`), an integer range (`boundary_start=A,boundary_end=B`) or a copy of the original value (`-`).
- It can carry the modifiers `keep` (keep a non-zero original) and `unique` (never hand out the same value twice under one tag).

The model has seven modules:

- **Wrappers**: `Option` and `Result`.
- **Text**: the Go string functions the tag grammar relies on:
  - `strings.Split`/`Join`/`Contains`/`TrimSpace`;
  - decimal integer parsing and printing.
- **Shapes**: Go's reflection replaced by a closed type `Shape` and a matching `Value`, with:
  - `Conforms` and `Zero`;
  - explicit integer wrap-around for the fixed-width conversions (`Convert`);
  - the error kinds;
  - `isZero`.
- **Tags**: the tag grammar (`decodeTags` and the `extract*` parsers), plus the decision half of the tag dispatch. `TagPlan` says which provider, literal, range or length a tag asks for on a field of a given shape.
- **Externals**: the code the package calls but does not own. `math/rand` is a class `External` whose callers rely only on documented ranges, and registered providers are `ProviderId`s.
- **Primitives**: `randomString`, `randomIntegerWithBoundary` and `RandomInt`, as imperative methods over arrays.
- **Engine**: the class `Faker`.
  - Its fields are the package state: the settings, the provider registry `mapperTag` and the unique registry `uniqueValues`.
  - It has the setters, `AddProvider`, `generateUnique`, and the walk `getValue`/`setDataWithTag`/`userDefined*`/`FakeData`.
  - Each walk method is proved against a specification predicate:
    - `Produced`: what an untagged walk may yield;
    - `Realizes`: what carrying out a tag's plan may yield;
    - `FieldValueOk`/`RecordOk`/`UniqueOk`/`Outcome`: what each field of a walked record holds (nested records included), that unique fields under one tag differ, and what the unique registry gains.

Randomness is a parameter. Every statement about a generated value holds for every sequence of draws.

One might expect a lone `keep` on a zero field to fall back to default generation. The code instead hands the empty tag to `setDataWithTag`. The model follows the code:
- Bool, integer, string and pointer fields reject the empty tag as unsupported (`Tags.KeepAloneFails`).
- A map field still succeeds when the drawn size is 0.
- Otherwise a map field fails on its first key: integer and string keys reject the tag as unsupported, and other key types are an unknown type.
- Slice and record fields never get this far, because `isZero` rejects them under `keep`.

## Model

| member | source | states |
|---|---|---|
| Text.Split | faker.go:547 | the pieces number one more than the separators and none contains the separator |
| Text.JoinSplit | faker.go:547-565 | joining the comma pieces of a tag with commas gives the tag back |
| Text.JoinEnds | faker.go:564 | a join starts with the first piece and ends with the last |
| Text.Contains | faker.go:861 | a prefix is always contained, and a contained pattern is no longer than the text |
| Text.TrimSpace | faker.go:917 | the result is no longer than the input and neither starts nor ends with white space |
| Text.ParseInt | faker.go:909 | a number needs a digit or a sign followed by more; only a leading `-` gives a negative number; a plain run of digits reads as its decimal value |
| Text.SplitJoin | faker.go:564 | splitting the join of separator-free pieces gives back exactly those pieces |
| Text.SplitOnce | faker.go:918-919 | a text with exactly one `=` splits into the part before it and the part after it |
| Text.ContainsOccurs | faker.go:861 | `strings.Contains` holds exactly when the pattern occurs at some position |
| Text.TrimSpaceTrims | faker.go:917 | the trimmed text is a slice of the input with only white space cut from either end, and it neither starts nor ends with white space |
| Text.TrimSpaceKeeps | faker.go:917 | a text without white space at either end is left unchanged |
| Text.FormatParse | faker.go:909 | every integer printed in decimal parses back to itself |
| Shapes.Convert | faker.go:879-897 | converting an integer to a fixed-width type gives a value of that type that differs from the input by a multiple of 2^w |
| Shapes.Zero | faker.go:393 | the zero value of every type conforms to it |
| Shapes.WrapUnsigned | faker.go:878-887 | the unsigned conversion lands in [0, 2^w) and differs from its input by a multiple of 2^w |
| Shapes.WrapSigned | faker.go:888-897 | the signed conversion lands in [-2^(w-1), 2^(w-1)) and differs from its input by a multiple of 2^w |
| Shapes.ConvertKeeps | faker.go:877-897 | converting an integer that fits the target width leaves it unchanged |
| Shapes.WrapUnique | faker.go:877-897 | two integers congruent modulo 2^w and less than 2^w apart are equal |
| Shapes.IsZero | faker.go:533-544 | fails with the keep error exactly on record and slice fields; a map is zero when nil or empty; any other value is zero when it equals its type's zero value |
| Shapes.ZeroIsZero | faker.go:533-544 | the zero value of every keep-able type is reported zero |
| Tags.SiftTokens | faker.go:552-561 | the loop notes `keep` and `unique` exactly when present and keeps every other token |
| Tags.SiftAppend | faker.go:552-561 | sifting distributes over concatenation, so kept tokens stay in their order |
| Tags.SiftPlain | faker.go:552-561 | a token list without modifiers is kept whole |
| Tags.DecodeTags | faker.go:546-568 | `keepOriginal` and `unique` hold exactly when some comma token equals `keep` or `unique`; without modifiers the field type is the whole tag; when every token is a modifier the field type is empty |
| Tags.FieldTypeTokens | faker.go:546-568 | the field type's comma tokens are the tag's non-modifier tokens in their original order |
| Tags.UniquePrefix | faker.go:546-568 | `unique,<rest>` decodes to field type `<rest>` with only `unique` set |
| Tags.ExtractStringFromText | faker.go:916-923 | succeeds exactly when the trimmed text has one `=`, returning what follows it; otherwise fails naming the trimmed text |
| Tags.AfterEquals | faker.go:916-923 | the second piece of a two-piece split is the text after the single `=` |
| Tags.ExtractNumberFromText | faker.go:903-914 | succeeds exactly when the text after the single `=` is a number, returning that number; otherwise fails naming the trimmed text |
| Tags.TextRoundTrip | faker.go:916-923 | `key=v` yields `v` |
| Tags.NumberRoundTrip | faker.go:903-914 | `key=<n>` yields `n` for every integer `n` |
| Tags.NotContains | faker.go:861 | a pattern holding a character the text lacks does not occur in it |
| Tags.ParseBoundaryTag | faker.go:860-876 | fails as unsupported unless both boundary names occur, and as malformed unless the tag has exactly two comma parts; succeeds exactly when, in addition, both parts hold a number, and then the start is read from the first and the end from the second |
| Tags.BoundaryRoundTrip | faker.go:860-876 | `boundary_start=a,boundary_end=b` parses to the range [a, b) for all a and b |
| Tags.BoundaryParts | faker.go:864 | the boundary tag splits on commas into its start and end parts |
| Tags.BoundaryNames | faker.go:861 | the boundary tag contains both boundary names |
| Tags.ParseLenTag | faker.go:791-797 | fails as unsupported without `len`; a result is the number after the single `=`; with `len` present it succeeds exactly when that text is an integer, and any other failure names the trimmed tag as malformed |
| Tags.LenRoundTrip | faker.go:791-797 | `len=K` reads back K for every integer K |
| Tags.ParseBool | faker.go:811 | accepts exactly Go's spellings of true and false and rejects everything else |
| Tags.ExtractBoolFromUseTag | faker.go:803-812 | fails as unsupported without `use`; succeeds exactly when the text after the single `=` is one of Go's bool spellings, giving that bool |
| Tags.BoolRoundTrip | faker.go:803-812 | `use=true` and `use=false` read back their bool |
| Tags.ExtractStringFromUseTag | faker.go:814-819 | fails as unsupported without `use`; otherwise it is the text after `=` |
| Tags.ExtractNumberFromUseTag | faker.go:821-858 | fails as unsupported without `use`; with `use` present it succeeds exactly when a number follows `=`, and the result is that number converted to the field's width |
| Tags.UseNumberRoundTrip | faker.go:821-850 | `use=<n>` gives back `n` on every integer type that can hold `n` |
| Tags.UseStringRoundTrip | faker.go:814-819 | `use=<s>` gives back `s` |
| Tags.ElemPlan | faker.go:697-715 | an integer element's plan is the range the tag spells and a string element's the length it spells, with the parser's error otherwise; any other element type is an unknown-type error |
| Tags.ElemBoundaryPlan | faker.go:697-715 | an integer element tagged `boundary_start=a,boundary_end=b` draws from [a, b) |
| Tags.ElemLenPlan | faker.go:697-715 | a string element tagged `len=K` is K letters |
| Tags.NumberPlan | faker.go:763-789 | a registered tag calls its provider; otherwise a tag naming `boundary_start` is exactly the range it spells, and any other tag is exactly the `use=` literal converted to the field's width |
| Tags.StringPlan | faker.go:735-761 | a registered tag calls its provider; otherwise a tag mentioning `len` is exactly the length it spells, and any other tag is exactly the `use=` literal |
| Tags.BoolPlan | faker.go:647-663 | succeeds exactly when the `use=` text is a Go bool spelling, planning that literal; without `use` the tag is unsupported |
| Tags.SwitchPlan | faker.go:621-645 | every plan fits the field's type; a provider plan calls the provider registered under the tag, and on integer, string, map and record fields a registered tag always calls its provider |
| Tags.TagPlan | faker.go:576-619 | every plan fits the field's type; a registered tag calls its provider on integer, string, map and record fields; a pointer tag without `use` succeeds exactly when registered, wrapping built-in providers in a fresh pointee; a pointer tag with `use` fills a fresh pointee by the target's rules |
| Tags.LenPlan | faker.go:735-761 | a string field tagged `len=K` draws K letters unless the tag is a provider name |
| Tags.UseBoolPlan | faker.go:647-663 | a bool field tagged `use=true` or `use=false` is set to that bool, whatever providers are registered |
| Tags.ProvidersIgnored | faker.go:621-645 | bool and slice fields plan the same under any provider registry |
| Tags.UseStringPlan | faker.go:735-761 | a string field tagged `use=<s>` is planned as the literal `s` when the tag is no provider and has no `len` |
| Tags.StringTagPlan | faker.go:576-645 | a string field's tag is decided by the string rules alone |
| Tags.UseLiteralWithLen | faker.go:744-748 | a `use=` literal that mentions `len` takes the length path and fails when the text after `=` is not a number |
| Tags.UseTextNotNumber | faker.go:903-914 | `use=<s>` has no number when `s` is not one, and the error names the tag |
| Tags.UseNumberPlan | faker.go:763-789 | an integer field tagged `use=<n>` is planned as the literal `n` when `n` fits |
| Tags.BoundaryPlan | faker.go:763-789 | an integer field tagged with a boundary pair is planned as that range |
| Tags.NumberTagPlan | faker.go:621-627 | an integer field's tag is decided by the number rules alone |
| Tags.KeepAloneFails | faker.go:401-413 | a lone `keep` leaves an empty field type, which scalar and pointer fields reject as unsupported |
| Externals.PermStepKeeps | faker.go:992 | one step of the inside-out shuffle extends a permutation of 0..n-1 to one of 0..n |
| Externals.External.Perm | faker.go:992 | `rand.Perm(n)` is a permutation of 0..n-1 |
| Externals.External.Intn | faker.go:944 | `rand.Intn(n)` lies in [0, n) |
| Externals.External.Int63 | faker.go:927-929 | `rand.Int63()` lies in [0, 2^63) |
| Externals.External.CallProvider | faker.go:598 | a provider's result, when it has one, is a value of the field's type |
| Primitives.RandomString | faker.go:925-940 | a returned string has exactly n characters, each one of the 52 letters |
| Primitives.RandomIntegerWithBoundary | faker.go:943-945 | the result lies in [start, end) |
| Primitives.Shifted | faker.go:993-995 | adding d to every element |
| Primitives.ShiftPermutation | faker.go:992-995 | shifting a permutation of 0..n-1 by d gives one of d..d+n-1 |
| Primitives.AddToAll | faker.go:993-995 | the loop leaves the array equal to its old contents shifted by d |
| Primitives.RandomInt | faker.go:988-1007 | one argument m gives a permutation of m..2m-1; two give min..max; any other count is the more-arguments error |
| Engine.GrowsTrans | faker.go:1012-1013 | the registry only ever grows, and growth composes |
| Engine.FieldsGrow | faker.go:433-450 | a unique field's recorded value stays recorded as the registry grows |
| Engine.WalkAdvance | faker.go:433-450 | accepting field i's value extends the walk's invariant to field i+1 |
| Engine.WalkRetry | faker.go:439-444 | a unique collision keeps the walk's invariant at the same field |
| Engine.WalkSkip | faker.go:396-398 | an unexported field is passed over and stays zero |
| Engine.HiddenField | faker.go:396-398 | an unexported field's zero value is its outcome |
| Engine.ApartPast | faker.go:433-450 | a field outside the unique check adds no pair of equal unique values |
| Engine.WalkDone | faker.go:452 | once every field is done, each field satisfies its tag rule, unique fields under one tag hold different values, and each unique value was new to the registry |
| Engine.WalkedField | faker.go:414-420 | an untagged field holds any value the walk produces for its type |
| Engine.CopiedField | faker.go:421-425 | a `-` field holds its original value |
| Engine.Faker.constructor | faker.go:18-36 | the initial settings, an empty unique registry, and the built-in providers each under its own name |
| Engine.Faker.ResetUnique | faker.go:231-233 | the unique registry is emptied |
| Engine.Faker.SetGenerateUniqueValues | faker.go:236-238 | sets only the unique switch |
| Engine.Faker.SetNilIfLenIsZero | faker.go:241-243 | sets only the nil-when-empty switch |
| Engine.Faker.SetRandomStringLength | faker.go:246-252 | a negative size is rejected with the settings unchanged; otherwise only the string length changes |
| Engine.Faker.SetFixedMapAndSliceSize | faker.go:255-262 | a negative size is rejected with the settings unchanged; otherwise the size is set and made fixed |
| Engine.Faker.SetRandomMapAndSliceSize | faker.go:265-272 | a negative size is rejected with the settings unchanged; otherwise the size is set and made random |
| Engine.Faker.SetRandomNumberBoundaries | faker.go:275-281 | start > end is rejected with the settings unchanged; otherwise only the range changes |
| Engine.Faker.AddProvider | faker.go:351-359 | an existing tag is refused with the registry unchanged; a new tag adds exactly that entry |
| Engine.Faker.RandomSliceAndMapSize | faker.go:954-962 | 0 under test mode, exactly the size when fixed, a draw below it otherwise; an empty random range is the Intn panic |
| Engine.Faker.RandomInteger | faker.go:948-950 | a value of [start, end), or the Intn panic exactly when that range is empty |
| Engine.Faker.GenerateUnique | faker.go:1009-1018 | draws between 1 and MaxRetry values; a success is the last draw, every earlier draw was already registered under the tag, and the new value is appended to the registry; a failure comes after exactly MaxRetry draws that were all registered, names the tag and leaves the registry unchanged; with nothing registered under the tag it always succeeds |
| Externals.External.Generate | faker.go:1011 | each call of the generator is one more draw, recorded at the end of `drawn` |
| Engine.Faker.RunPlan | faker.go:576-645 | carrying out a fitting plan yields a value the plan allows |
| Engine.Faker.RunLeaf | faker.go:697-715 | a length yields that many letters and a range a value inside it; an empty range or a negative length fails |
| Engine.Faker.UserDefinedArray | faker.go:717-733 | a slice of a drawn size, nil only when allowed, every element from the element plan |
| Engine.Faker.UserDefinedMap | faker.go:665-695 | a map of at most the drawn size, nil only when allowed, every key and value from their plans |
| Engine.Faker.RunEntry | faker.go:683-690 | a key then a value from their plans, stopping at the first failure |
| Engine.Faker.SetDataWithTag | faker.go:576-619 | a success is what the tag's plan allows, and a rejected tag is reported with the plan's error |
| Engine.Faker.GetValue | faker.go:361-531 | the result conforms to the type and satisfies the walk's outcome (nested records field by field, distinct unique values per tag), and the unique registry only grows; bools always succeed; integers succeed exactly when the range is non-empty |
| Engine.Faker.GetSlice | faker.go:458-471 | a slice of a drawn size, nil only when allowed, every element produced |
| Engine.Faker.GetMap | faker.go:505-525 | a map of at most the drawn size, nil only when allowed, every key and value produced |
| Engine.Faker.GetEntry | faker.go:512-522 | a produced key and a produced value |
| Engine.Faker.WalkStruct | faker.go:391-452 | every field of the record satisfies its tag rules, unique fields under one tag hold different values, and each unique value was new and is now recorded |
| Engine.Faker.WalkField | faker.go:395-450 | one step keeps the walk invariant; it retries the same field only for a unique field whose value is already recorded; advancing resets the retry count unless the field is unexported or a zero `keep`; a unique field at the retry limit never succeeds |
| Engine.Faker.CheckUnique | faker.go:433-450 | at the retry limit a unique field fails naming itself; otherwise the field is retried exactly when its value is already recorded, and advancing records it and resets the count; fields outside the check advance |
| Engine.Faker.RecordUnique | faker.go:439-446 | a value not yet recorded is appended and reported new; a recorded one leaves the registry unchanged |
| Engine.Faker.GenerateField | faker.go:399-431 | the field's value conforms to its type and satisfies its tag rule |
| Engine.Faker.KeepField | faker.go:401-413 | a zero original is regenerated from the tag and a non-zero one is kept |
| Engine.Faker.TaggedField | faker.go:426-430 | the field holds what its tag's plan allows |
| Engine.Faker.FakeData | faker.go:285-306 | a non-pointer or a nil pointer is rejected before anything changes, the registry and the random source included; otherwise the pointee is walked |

## Left out

- Floating-point fields (`rand.Float32`/`Float64`) and float casts of `use=` literals are left out.
- `strconv.ParseFloat` is narrowed to optionally signed decimal integers, so exponents, fractions, hexadecimal and `inf` literals are not modelled.
- Tags.NumberRoundTrip: Go reads the number as a float64, which rounds integers above 2^53 in magnitude; the model reads them exactly, so the round trip holds here for every integer but in Go only up to 2^53.
- Tags.BoundaryRoundTrip: the same float64 rounding applies to both bounds, so in Go the round trip holds only for bounds up to 2^53 in magnitude.
- Tags.UseNumberRoundTrip: the same float64 rounding applies to the `use=` literal, so in Go it holds only for literals up to 2^53 in magnitude.
- Shapes.Convert: Go converts the parsed float64 to the field's width, and an out-of-range float conversion is implementation-dependent in Go; the model wraps the integer modulo 2^w as Go's integer conversions do.
- `time.Time` fields depend on the wall clock and are left out.
- Fixed-size arrays are left out: faker hands them to `reflect.MakeSlice`, which panics on them.
- Interfaces, channels, functions and the other kinds faker reports as unsupported are left out. The model's `Shape` has no such kinds, so its "no support for kind" error cannot occur.
- The concrete provider functions (addresses, names, dates and so on) are left out. A provider is a `ProviderId`; calling one yields any value of the field's type or an error.
- `reflect.Convert` of a provider's result and the check that a provider result is non-nil are left out, because providers return values of the right type here.
- `SetSeed`, `init` and the unused mutex are left out: seeding is the `External` constructor's parameter.
- `singleFakeData` (faker.go:1020-1029), `randomStringNumber` (faker.go:967-982) and `randomElementFromSliceString` (faker.go:964-966) are defined in faker.go but serve only the provider functions, which are not part of this model, so they are left out. `singleFakeData` is the caller of `generateUnique`; its panic when `generateUnique` fails is left out with it.
- Go's `int` overflow is left out. `end - start` in the random ranges is computed on unbounded integers.
- `slice.ContainsValue` is modelled as value equality. The support package that implements it is not part of this model, so its panics on uncomparable values are left out.
- Externals.External.Generate: the generator handed to `generateUnique` may return any value, so its contract only records the draw in `drawn`.
- Primitives.RandomString: Go's loop ends only with probability one. The model stops after n fresh draws and reports an error, so it promises length and alphabet only when it returns a string.
- Engine.Faker.GetValue: for a record nested inside a field, slice or map, the contract carries every field's tag rule and the rule that unique fields under one tag differ, but not that the nested unique values were new to the registry. That is stated for the walked record and the records behind its pointers (`Outcome`).
- Go panics in the walk are errors here. `rand.Intn` on an empty range and a negative `len=` are `Error.Panic` results rather than crashes, and callers are not required to avoid them.
- Primitives.RandomInt: a negative count makes Go's `rand.Perm` panic; the model requires non-negative counts instead of modelling that panic.
- Primitives.RandomString and Primitives.RandomIntegerWithBoundary require a non-negative length and a non-empty range; their callers in the walk check these first and report the panic as an error.
