/** The grammar of the `faker:"..."` field tag (faker.go:546-568 and
    791-923) and the decision part of the tag-driven dispatch
    (faker.go:576-789): which provider, literal, range or length a tag asks
    for. The random draws that carry a decision out are in module Engine. */
module Tags {
  import opened Wrappers
  import opened Text
  import opened Shapes

  const Keep := "keep"
  const Unique := "unique"
  const Skip := "-"
  const Length := "len"
  const BoundaryStart := "boundary_start"
  const BoundaryEnd := "boundary_end"
  const Use := "use"

  /** Go's `structTag`: the tag without its modifiers, and the modifiers. */
  datatype StructTag = StructTag(fieldType: string, unique: bool, keepOriginal: bool)

  /** The loop of `decodeTags`: drops the tokens `keep` and `unique`,
      remembering whether each occurred, and keeps every other token. */
  function SiftTokens(tokens: seq<string>): (d: (seq<string>, bool, bool))
    ensures d.1 <==> Keep in tokens
    ensures d.2 <==> Unique in tokens
    ensures forall t :: t in d.0 <==> t in tokens && t != Keep && t != Unique
  {
    if tokens == [] then ([], false, false)
    else
      var rest := SiftTokens(tokens[1..]);
      var t := tokens[0];
      assert tokens == [t] + tokens[1..];
      if t == Keep then (rest.0, true, rest.2)
      else if t == Unique then (rest.0, rest.1, true)
      else ([t] + rest.0, rest.1, rest.2)
  }

  /** Sifting keeps the surviving tokens in their original order: it
      distributes over concatenation. */
  lemma {:induction false} SiftAppend(xs: seq<string>, ys: seq<string>)
    ensures SiftTokens(xs + ys).0 == SiftTokens(xs).0 + SiftTokens(ys).0
  {
    if xs != [] {
      var t := xs[0];
      var kept := if t == Keep || t == Unique then [] else [t];
      SiftAppend(xs[1..], ys);
      assert (xs + ys)[0] == t;
      assert (xs + ys)[1..] == xs[1..] + ys;
      assert SiftTokens(xs + ys).0 == kept + SiftTokens(xs[1..] + ys).0;
      assert SiftTokens(xs).0 == kept + SiftTokens(xs[1..]).0;
    } else {
      assert xs + ys == ys;
    }
  }

  /** Without modifiers, sifting keeps every token. */
  lemma {:induction false} SiftPlain(tokens: seq<string>)
    requires Keep !in tokens && Unique !in tokens
    ensures SiftTokens(tokens).0 == tokens
  {
    if tokens != [] {
      SiftPlain(tokens[1..]);
      assert tokens == [tokens[0]] + tokens[1..];
    }
  }

  /** `decodeTags` (faker.go:546-568): split on commas, pull out `keep` and
      `unique`, join the rest back with commas. */
  function DecodeTags(tag: string): (t: StructTag)
    ensures t.keepOriginal <==> Keep in Split(tag, ',')
    ensures t.unique <==> Unique in Split(tag, ',')
    ensures Keep !in Split(tag, ',') && Unique !in Split(tag, ',') ==> t.fieldType == tag
    ensures SiftTokens(Split(tag, ',')).0 == [] ==> t.fieldType == ""
  {
    var tokens := Split(tag, ',');
    var d := SiftTokens(tokens);
    if Keep !in tokens && Unique !in tokens then
      SiftPlain(tokens);
      JoinSplit(tag, ',');
      StructTag(Join(d.0, ','), d.2, d.1)
    else
      StructTag(Join(d.0, ','), d.2, d.1)
  }

  /** The comma-separated tokens of `fieldType` are exactly the tokens of
      the tag that are not modifiers, in their original order. */
  lemma FieldTypeTokens(tag: string)
    requires SiftTokens(Split(tag, ',')).0 != []
    ensures Split(DecodeTags(tag).fieldType, ',') == SiftTokens(Split(tag, ',')).0
  {
    SplitJoin(SiftTokens(Split(tag, ',')).0, ',');
  }

  /** A leading `unique` is taken off the tag and the rest is kept whole,
      as in `unique,boundary_start=1,boundary_end=5`. */
  lemma UniquePrefix(rest: string)
    requires Keep !in Split(rest, ',') && Unique !in Split(rest, ',')
    ensures DecodeTags(Unique + "," + rest) == StructTag(rest, true, false)
  {
    var tokens := Split(Unique + "," + rest, ',');
    var tail := Split(rest, ',');
    SplitUniqueLead(rest);
    assert tokens[0] == Unique && tokens[1..] == tail;
    assert SiftTokens(tokens).0 == SiftTokens(tail).0;
    SiftPlain(tail);
    JoinSplit(rest, ',');
  }

  lemma SplitUniqueLead(rest: string)
    ensures Split(Unique + "," + rest, ',') == [Unique] + Split(rest, ',')
  {
    var tail := Split(rest, ',');
    assert Split("," + rest, ',') == [""] + tail;
    SplitPrefix(Unique, "," + rest, ',');
    assert Unique + "" == Unique;
    assert ([""] + tail)[1..] == tail;
    assert Unique + "," + rest == Unique + ("," + rest);
  }

  /** `text` has one `=`, and `v` is what follows it. */
  ghost predicate ValueAfterEquals(text: string, v: string)
  {
    exists k | 0 <= k < |text| :: text[k] == '=' && '=' !in text[..k] && v == text[k + 1..]
  }

  /** `extractStringFromText` (faker.go:916-923). */
  function ExtractStringFromText(text: string): (r: Result<string, Error>)
    ensures r.Ok? <==> Count(TrimSpace(text), '=') == 1
    ensures r.Ok? ==> ValueAfterEquals(TrimSpace(text), r.value)
    ensures r.Err? ==> r.error == WrongFormattedTag(TrimSpace(text))
  {
    var t := TrimSpace(text);
    var parts := Split(t, '=');
    if |parts| != 2 then Err(WrongFormattedTag(t))
    else
      AfterEquals(t);
      Ok(parts[1])
  }

  lemma AfterEquals(t: string)
    requires |Split(t, '=')| == 2
    ensures ValueAfterEquals(t, Split(t, '=')[1])
  {
    var k := SplitOnce(t, '=');
  }

  /** `extractNumberFromText` (faker.go:903-914), reading decimal integers
      only: the text after the single `=` must be a number. */
  function ExtractNumberFromText(text: string): (r: Result<int, Error>)
    ensures r.Ok? <==> ExtractStringFromText(text).Ok? && ParseInt(ExtractStringFromText(text).value).Some?
    ensures r.Ok? ==> ParseInt(ExtractStringFromText(text).value) == Some(r.value)
    ensures r.Err? ==> r.error == WrongFormattedTag(TrimSpace(text))
  {
    var t := TrimSpace(text);
    var parts := Split(t, '=');
    if |parts| != 2 then Err(WrongFormattedTag(t))
    else
      match ParseInt(parts[1])
      case None => Err(WrongFormattedTag(t))
      case Some(n) => Ok(n)
  }

  /** A `key=value` token without padding reads back its value. */
  lemma TextRoundTrip(key: string, v: string)
    requires '=' !in key && '=' !in v
    requires key == [] || !IsSpace(key[0])
    requires v == [] || !IsSpace(v[|v| - 1])
    ensures ExtractStringFromText(key + "=" + v) == Ok(v)
  {
    var t := key + "=" + v;
    assert t == Join([key, v], '=');
    SplitJoin([key, v], '=');
    if key == [] {
      assert t == "=" + v;
    }
    TrimSpaceKeeps(t);
  }

  /** A `key=n` token reads back the integer n. */
  lemma NumberRoundTrip(key: string, n: int)
    requires '=' !in key && (key == [] || !IsSpace(key[0]))
    ensures ExtractNumberFromText(key + "=" + FormatInt(n)) == Ok(n)
  {
    var f := FormatInt(n);
    assert '=' !in f;
    TextRoundTrip(key, f);
    FormatParse(n);
  }

  /** A `c` that the text lacks rules out every pattern containing `c`. */
  lemma NotContains(s: string, sub: string, c: char)
    requires c in sub && c !in s
    ensures !Contains(s, sub)
  {
    ContainsOccurs(s, sub);
  }

  /** `extractNumberFromTag`'s parsing (faker.go:860-876): the tag must name
      both bounds and split on commas into exactly two `key=number` parts;
      the first gives the start and the second the end. Neither key is
      checked, nor is start <= end. */
  function ParseBoundaryTag(tag: string): (r: Result<NumberBoundary, Error>)
    ensures !Contains(tag, BoundaryStart) || !Contains(tag, BoundaryEnd) ==> r == Err(TagNotSupported(tag))
    ensures Contains(tag, BoundaryStart) && Contains(tag, BoundaryEnd) && |Split(tag, ',')| != 2 ==>
              r == Err(WrongFormattedTag(tag))
    ensures r.Ok? <==> Contains(tag, BoundaryStart) && Contains(tag, BoundaryEnd) && |Split(tag, ',')| == 2
                       && ExtractNumberFromText(Split(tag, ',')[0]).Ok? && ExtractNumberFromText(Split(tag, ',')[1]).Ok?
    ensures r.Ok? ==> (|Split(tag, ',')| == 2
                       && ExtractNumberFromText(Split(tag, ',')[0]) == Ok(r.value.start)
                       && ExtractNumberFromText(Split(tag, ',')[1]) == Ok(r.value.end))
  {
    if !Contains(tag, BoundaryStart) || !Contains(tag, BoundaryEnd) then Err(TagNotSupported(tag))
    else
      var parts := Split(tag, ',');
      if |parts| != 2 then Err(WrongFormattedTag(tag))
      else
        var start :- ExtractNumberFromText(parts[0]);
        var end :- ExtractNumberFromText(parts[1]);
        Ok(NumberBoundary(start, end))
  }

  function BoundaryTag(a: int, b: int): string
  {
    BoundaryStart + "=" + FormatInt(a) + "," + BoundaryEnd + "=" + FormatInt(b)
  }

  /** Every well-formed range tag is read back as the range it spells. */
  lemma BoundaryRoundTrip(a: int, b: int)
    ensures ParseBoundaryTag(BoundaryTag(a, b)) == Ok(NumberBoundary(a, b))
  {
    BoundaryParts(a, b);
    BoundaryNames(a, b);
    NumberRoundTrip(BoundaryStart, a);
    NumberRoundTrip(BoundaryEnd, b);
  }

  lemma BoundaryParts(a: int, b: int)
    ensures Split(BoundaryTag(a, b), ',')
         == [BoundaryStart + "=" + FormatInt(a), BoundaryEnd + "=" + FormatInt(b)]
  {
    var fa, fb := FormatInt(a), FormatInt(b);
    var p0, p1 := BoundaryStart + "=" + fa, BoundaryEnd + "=" + fb;
    assert BoundaryTag(a, b) == Join([p0, p1], ',');
    assert ',' !in fa && ',' !in fb;
    SplitJoin([p0, p1], ',');
  }

  lemma BoundaryNames(a: int, b: int)
    ensures Contains(BoundaryTag(a, b), BoundaryStart) && Contains(BoundaryTag(a, b), BoundaryEnd)
  {
    var p0 := BoundaryStart + "=" + FormatInt(a);
    var tag := BoundaryTag(a, b);
    assert tag == p0 + "," + BoundaryEnd + "=" + FormatInt(b);
    ContainsAt(tag, BoundaryStart, 0);
    assert tag[|p0| + 1..|p0| + 1 + |BoundaryEnd|] == BoundaryEnd;
    ContainsAt(tag, BoundaryEnd, |p0| + 1);
  }

  /** `extractStringFromTag`'s parsing (faker.go:791-798): the length of a
      `len=K` tag. */
  function ParseLenTag(tag: string): (r: Result<int, Error>)
    ensures !Contains(tag, Length) ==> r == Err(TagNotSupported(tag))
    ensures r.Ok? ==> ExtractStringFromText(tag).Ok? && ParseInt(ExtractStringFromText(tag).value) == Some(r.value)
    ensures Contains(tag, Length) && r.Err? ==> r.error == WrongFormattedTag(TrimSpace(tag))
    ensures Contains(tag, Length) ==>
              (r.Ok? <==> ExtractStringFromText(tag).Ok? && ParseInt(ExtractStringFromText(tag).value).Some?)
  {
    if !Contains(tag, Length) then Err(TagNotSupported(tag)) else ExtractNumberFromText(tag)
  }

  /** `strconv.ParseBool`. */
  function ParseBool(s: string): (r: Result<bool, Error>)
    ensures r == Ok(true) <==> s in {"1", "t", "T", "TRUE", "true", "True"}
    ensures r == Ok(false) <==> s in {"0", "f", "F", "FALSE", "false", "False"}
    ensures r.Err? ==> r.error == ParseBoolSyntax(s)
  {
    if s in {"1", "t", "T", "TRUE", "true", "True"} then Ok(true)
    else if s in {"0", "f", "F", "FALSE", "false", "False"} then Ok(false)
    else Err(ParseBoolSyntax(s))
  }

  /** `extractBoolFromUseTag` (faker.go:803-812). */
  function ExtractBoolFromUseTag(tag: string): (r: Result<bool, Error>)
    ensures !Contains(tag, Use) ==> r == Err(TagNotSupported(tag))
    ensures r.Ok? <==> Contains(tag, Use) && ExtractStringFromText(tag).Ok?
                       && ParseBool(ExtractStringFromText(tag).value).Ok?
    ensures r.Ok? ==> ParseBool(ExtractStringFromText(tag).value) == r
  {
    if !Contains(tag, Use) then Err(TagNotSupported(tag))
    else
      var s :- ExtractStringFromText(tag);
      ParseBool(s)
  }

  /** `extractStringFromUseTag` (faker.go:814-819). */
  function ExtractStringFromUseTag(tag: string): (r: Result<string, Error>)
    ensures !Contains(tag, Use) ==> r == Err(TagNotSupported(tag))
    ensures Contains(tag, Use) ==> r == ExtractStringFromText(tag)
  {
    if !Contains(tag, Use) then Err(TagNotSupported(tag)) else ExtractStringFromText(tag)
  }

  /** `extractNumberFromUseTag` (faker.go:821-858) for the integer kinds:
      the literal converted to the field's width. */
  function ExtractNumberFromUseTag(tag: string, shape: Shape): (r: Result<Value, Error>)
    requires IsInteger(shape)
    ensures !Contains(tag, Use) ==> r == Err(TagNotSupported(tag))
    ensures r.Ok? ==> ExtractNumberFromText(tag).Ok? && r.value == Convert(ExtractNumberFromText(tag).value, shape)
    ensures Contains(tag, Use) ==> (r.Ok? <==> ExtractNumberFromText(tag).Ok?)
  {
    if !Contains(tag, Use) then Err(TagNotSupported(tag))
    else
      var n :- ExtractNumberFromText(tag);
      Ok(Convert(n, shape))
  }

  /** `use=<n>` gives back n for every integer kind that can hold n. */
  lemma UseNumberRoundTrip(n: int, shape: Shape)
    requires IsInteger(shape) && Representable(n, shape)
    ensures ExtractNumberFromUseTag(Use + "=" + FormatInt(n), shape) == Ok(IntV(n))
  {
    ContainsAt(Use + "=" + FormatInt(n), Use, 0);
    NumberRoundTrip(Use, n);
    ConvertKeeps(n, shape);
  }

  /** `use=<s>` gives back s for every s without `=` or trailing space. */
  lemma UseStringRoundTrip(s: string)
    requires '=' !in s && (s == [] || !IsSpace(s[|s| - 1]))
    ensures ExtractStringFromUseTag(Use + "=" + s) == Ok(s)
  {
    ContainsAt(Use + "=" + s, Use, 0);
    TextRoundTrip(Use, s);
  }

  /** A `len=K` tag reads back K. */
  lemma LenRoundTrip(k: int)
    ensures ParseLenTag(Length + "=" + FormatInt(k)) == Ok(k)
  {
    ContainsAt(Length + "=" + FormatInt(k), Length, 0);
    NumberRoundTrip(Length, k);
  }

  /** The literal Go's `strconv.FormatBool` writes. */
  function FormatBool(b: bool): string
  {
    if b then "true" else "false"
  }

  /** `use=true` and `use=false` read back their value. */
  lemma BoolRoundTrip(b: bool)
    ensures ExtractBoolFromUseTag(Use + "=" + FormatBool(b)) == Ok(b)
  {
    var tag := Use + "=" + FormatBool(b);
    ContainsAt(tag, Use, 0);
    TextRoundTrip(Use, FormatBool(b));
  }

  /** What a tag asks the generator to do for one field; the random parts
      are carried out by `Engine.Faker.RunPlan`. */
  datatype Plan =
    | CallProvider(provider: ProviderId)       // a registered provider function
    | RandomLetters(n: int)                    // `len=K`: a random string of K letters
    | Literal(v: Value)                        // `use=<literal>`
    | Between(b: NumberBoundary)               // `boundary_start=A,boundary_end=B`
    | Pointer(inner: Plan)                     // a fresh pointee filled by `inner`
    | SliceOf(elem: Result<Plan, Error>)       // every element from the same tag
    | MapOf(key: Result<Plan, Error>, val: Result<Plan, Error>)

  /** A plan is one that a field of type `shape` can carry out. Element plans
      of collections are leaves: a range or a length. */
  ghost predicate Fits(p: Plan, shape: Shape)
  {
    match p
    case CallProvider(_) => true
    case RandomLetters(_) => shape.Str?
    case Literal(v) => Conforms(v, shape)
    case Between(_) => IsInteger(shape)
    case Pointer(q) => shape.Ptr? && Fits(q, shape.target)
    case SliceOf(e) => shape.Slice? && (e.Ok? ==> LeafFits(e.value, shape.elem))
    case MapOf(k, e) =>
      shape.Map? && (k.Ok? ==> LeafFits(k.value, shape.key)) && (e.Ok? ==> LeafFits(e.value, shape.val))
  }

  ghost predicate LeafFits(p: Plan, shape: Shape)
  {
    (p.Between? && IsInteger(shape)) || (p.RandomLetters? && shape.Str?)
  }

  /** `getValueWithTag` (faker.go:697-715): how one element of a tagged slice
      or map is produced. Only ranges (for integers) and lengths (for
      strings) are understood here; `use=` and providers are not. */
  function ElemPlan(shape: Shape, tag: string): (r: Result<Plan, Error>)
    ensures r.Ok? ==> LeafFits(r.value, shape)
    ensures r.Ok? && IsInteger(shape) ==> ParseBoundaryTag(tag) == Ok(r.value.b)
    ensures r.Ok? && shape.Str? ==> ParseLenTag(tag) == Ok(r.value.n)
    ensures IsInteger(shape) && r.Err? ==> ParseBoundaryTag(tag) == Err(r.error)
    ensures shape.Str? && r.Err? ==> ParseLenTag(tag) == Err(r.error)
    ensures !IsInteger(shape) && !shape.Str? ==> r == Err(UnknownType)
  {
    if IsInteger(shape) then
      match ParseBoundaryTag(tag)
      case Ok(b) => Ok(Between(b))
      case Err(e) => Err(e)
    else if shape.Str? then
      match ParseLenTag(tag)
      case Ok(n) => Ok(RandomLetters(n))
      case Err(e) => Err(e)
    else Err(UnknownType)
  }

  /** `userDefinedNumber` (faker.go:763-789): a provider, else a range,
      else a `use=` literal converted to the field's width. */
  function NumberPlan(providers: map<string, ProviderId>, shape: Shape, tag: string): (r: Result<Plan, Error>)
    requires IsInteger(shape)
    ensures r.Ok? ==> Fits(r.value, shape)
    ensures tag in providers ==> r == Ok(CallProvider(providers[tag]))
    ensures tag !in providers && Contains(tag, BoundaryStart) ==>
              (r.Ok? <==> ParseBoundaryTag(tag).Ok?) && (r.Ok? ==> r == Ok(Between(ParseBoundaryTag(tag).value)))
    ensures tag !in providers && !Contains(tag, BoundaryStart) ==>
              (r.Ok? <==> ExtractNumberFromUseTag(tag, shape).Ok?)
              && (r.Ok? ==> r == Ok(Literal(ExtractNumberFromUseTag(tag, shape).value)))
  {
    if tag in providers then Ok(CallProvider(providers[tag]))
    else if Contains(tag, BoundaryStart) then
      match ParseBoundaryTag(tag)
      case Ok(b) => Ok(Between(b))
      case Err(e) => Err(e)
    else
      match ExtractNumberFromUseTag(tag, shape)
      case Ok(v) => Ok(Literal(v))
      case Err(e) => Err(e)
  }

  /** `userDefinedString` (faker.go:735-761): a provider, else a length,
      else a `use=` literal. */
  function StringPlan(providers: map<string, ProviderId>, tag: string): (r: Result<Plan, Error>)
    ensures r.Ok? ==> Fits(r.value, Str)
    ensures tag in providers ==> r == Ok(CallProvider(providers[tag]))
    ensures tag !in providers && Contains(tag, Length) ==>
              (r.Ok? <==> ParseLenTag(tag).Ok?) && (r.Ok? ==> r == Ok(RandomLetters(ParseLenTag(tag).value)))
    ensures tag !in providers && !Contains(tag, Length) ==>
              (r.Ok? <==> ExtractStringFromUseTag(tag).Ok?)
              && (r.Ok? ==> r == Ok(Literal(StrV(ExtractStringFromUseTag(tag).value))))
  {
    if tag in providers then Ok(CallProvider(providers[tag]))
    else if Contains(tag, Length) then
      match ParseLenTag(tag)
      case Ok(n) => Ok(RandomLetters(n))
      case Err(e) => Err(e)
    else
      match ExtractStringFromUseTag(tag)
      case Ok(s) => Ok(Literal(StrV(s)))
      case Err(e) => Err(e)
  }

  /** `userDefinedBool` (faker.go:647-663): only a `use=` literal. */
  function BoolPlan(tag: string): (r: Result<Plan, Error>)
    ensures r.Ok? ==> Fits(r.value, Bool)
    ensures !Contains(tag, Use) ==> r == Err(TagNotSupported(tag))
    ensures r.Ok? <==> ExtractBoolFromUseTag(tag).Ok?
    ensures r.Ok? ==> r.value == Literal(BoolV(ExtractBoolFromUseTag(tag).value))
  {
    if Contains(tag, Use) then
      match ExtractBoolFromUseTag(tag)
      case Ok(b) => Ok(Literal(BoolV(b)))
      case Err(e) => Err(e)
    else Err(TagNotSupported(tag))
  }

  /** `setDataWithTagSwitch` (faker.go:621-645), with `userDefinedArray` and
      `userDefinedMap` (faker.go:665-695, 717-733). Errors of element tags
      surface only when an element is generated, so they stay inside
      `SliceOf` and `MapOf`. */
  function SwitchPlan(providers: map<string, ProviderId>, shape: Shape, tag: string): (r: Result<Plan, Error>)
    ensures r.Ok? ==> Fits(r.value, shape)
    ensures r.Ok? && r.value.CallProvider? ==> tag in providers && r.value.provider == providers[tag]
    ensures tag in providers && !shape.Bool? && !shape.Slice? ==> r == Ok(CallProvider(providers[tag]))
  {
    match shape
    case Int(_) => NumberPlan(providers, shape, tag)
    case Uint(_) => NumberPlan(providers, shape, tag)
    case Str => StringPlan(providers, tag)
    case Slice(e) => Ok(SliceOf(ElemPlan(e, tag)))
    case Map(k, e) =>
      if tag in providers then Ok(CallProvider(providers[tag]))
      else Ok(MapOf(ElemPlan(k, tag), ElemPlan(e, tag)))
    case Bool => BoolPlan(tag)
    case Struct(_) =>
      if tag in providers then Ok(CallProvider(providers[tag])) else Err(TagNotSupported(tag))
    case Ptr(_) =>
      if tag in providers then Ok(CallProvider(providers[tag])) else Err(TagNotSupported(tag))
  }

  /** `setDataWithTag` (faker.go:576-619): a pointer field whose tag mentions
      `use` gets a fresh pointee filled by the tag; any other pointer field
      needs a provider, which fills a fresh pointee when it is a built-in
      one and supplies the pointer itself when it was added by the user.
      Go asks whether the tag is one of the built-in names; the registry
      keeps every built-in provider under its own name and nothing else
      there is built in (`Engine.Faker.Valid`), so the two tests agree. */
  function TagPlan(providers: map<string, ProviderId>, shape: Shape, tag: string): (r: Result<Plan, Error>)
    ensures r.Ok? ==> Fits(r.value, shape)
    ensures r.Ok? && r.value.CallProvider? ==> tag in providers && r.value.provider == providers[tag]
    ensures !shape.Ptr? && tag in providers && !shape.Bool? && !shape.Slice? ==>
              r == Ok(CallProvider(providers[tag]))
    ensures shape.Ptr? && !Contains(tag, Use) ==>
              (r.Ok? <==> tag in providers)
              && (tag in providers && providers[tag].Builtin? ==> r == Ok(Pointer(CallProvider(providers[tag]))))
              && (tag in providers && !providers[tag].Builtin? ==> r == Ok(CallProvider(providers[tag])))
    ensures shape.Ptr? && Contains(tag, Use) ==>
              (r.Ok? <==> SwitchPlan(providers, shape.target, tag).Ok?)
              && (r.Ok? ==> r == Ok(Pointer(SwitchPlan(providers, shape.target, tag).value)))
  {
    if shape.Ptr? then
      if Contains(tag, Use) then
        var p :- SwitchPlan(providers, shape.target, tag);
        Ok(Pointer(p))
      else if tag !in providers then Err(TagNotSupported(tag))
      else if !providers[tag].Builtin? then Ok(CallProvider(providers[tag]))
      else Ok(Pointer(CallProvider(providers[tag])))
    else SwitchPlan(providers, shape, tag)
  }

  /** A string field tagged `use=<s>` is set to s, provided the tag is not a
      provider name and does not mention `len`. */
  lemma UseStringPlan(providers: map<string, ProviderId>, s: string)
    requires '=' !in s && (s == [] || !IsSpace(s[|s| - 1]))
    requires Use + "=" + s !in providers && !Contains(Use + "=" + s, Length)
    ensures TagPlan(providers, Str, Use + "=" + s) == Ok(Literal(StrV(s)))
  {
    var tag := Use + "=" + s;
    UseStringRoundTrip(s);
    assert ExtractStringFromUseTag(tag) == Ok(s);
    assert StringPlan(providers, tag) == Ok(Literal(StrV(s)));
    StringTagPlan(providers, tag);
  }

  lemma StringTagPlan(providers: map<string, ProviderId>, tag: string)
    ensures TagPlan(providers, Str, tag) == StringPlan(providers, tag)
  {
  }

  /** Because the length form is recognised by a substring test, a `use=`
      literal that mentions `len` is read as a length, and a literal that is
      not a number is then rejected instead of being used. */
  lemma UseLiteralWithLen(providers: map<string, ProviderId>, s: string)
    requires '=' !in s && (s == [] || !IsSpace(s[|s| - 1])) && ParseInt(s) == None
    requires Use + "=" + s !in providers && Contains(Use + "=" + s, Length)
    ensures TagPlan(providers, Str, Use + "=" + s) == Err(WrongFormattedTag(Use + "=" + s))
  {
    var tag := Use + "=" + s;
    UseTextNotNumber(s);
    assert ParseLenTag(tag) == Err(WrongFormattedTag(tag));
    StringTagPlan(providers, tag);
  }

  /** A `use=` literal that is not a number is a malformed number tag. */
  lemma UseTextNotNumber(s: string)
    requires '=' !in s && (s == [] || !IsSpace(s[|s| - 1])) && ParseInt(s) == None
    ensures ExtractNumberFromText(Use + "=" + s) == Err(WrongFormattedTag(Use + "=" + s))
  {
    var tag := Use + "=" + s;
    TextRoundTrip(Use, s);
    TrimSpaceKeeps(tag);
  }

  /** An integer field tagged `use=<n>` is set to n whenever n fits the
      field's width. */
  lemma UseNumberPlan(providers: map<string, ProviderId>, shape: Shape, n: int)
    requires IsInteger(shape) && Representable(n, shape)
    requires Use + "=" + FormatInt(n) !in providers
    ensures TagPlan(providers, shape, Use + "=" + FormatInt(n)) == Ok(Literal(IntV(n)))
  {
    var f := FormatInt(n);
    var tag := Use + "=" + f;
    assert 'b' !in f;
    assert 'b' !in tag;
    NotContains(tag, BoundaryStart, 'b');
    UseNumberRoundTrip(n, shape);
    assert NumberPlan(providers, shape, tag) == Ok(Literal(IntV(n)));
    NumberTagPlan(providers, shape, tag);
  }

  /** An integer field tagged with a range draws from that range. */
  lemma BoundaryPlan(providers: map<string, ProviderId>, shape: Shape, a: int, b: int)
    requires IsInteger(shape) && BoundaryTag(a, b) !in providers
    ensures TagPlan(providers, shape, BoundaryTag(a, b)) == Ok(Between(NumberBoundary(a, b)))
  {
    var tag := BoundaryTag(a, b);
    BoundaryRoundTrip(a, b);
    assert Contains(tag, BoundaryStart);
    NumberTagPlan(providers, shape, tag);
  }

  lemma NumberTagPlan(providers: map<string, ProviderId>, shape: Shape, tag: string)
    requires IsInteger(shape)
    ensures TagPlan(providers, shape, tag) == NumberPlan(providers, shape, tag)
  {
  }

  /** A field tagged with `keep` and nothing else has an empty tag
      expression, which no scalar kind accepts: generating such a field
      when it is zero fails. */
  lemma KeepAloneFails(providers: map<string, ProviderId>, shape: Shape)
    requires "" !in providers
    requires shape.Bool? || IsInteger(shape) || shape.Str? || shape.Ptr?
    ensures DecodeTags(Keep).keepOriginal
    ensures TagPlan(providers, shape, DecodeTags(Keep).fieldType) == Err(TagNotSupported(""))
  {
    assert Split(Keep, ',') == [Keep] by {
      SplitJoin([Keep], ',');
    }
    assert !Contains("", Use) && !Contains("", Length) && !Contains("", BoundaryStart);
  }

  /** A string field tagged `len=K` draws K letters, unless the tag is a
      provider name. */
  lemma LenPlan(providers: map<string, ProviderId>, k: int)
    requires Length + "=" + FormatInt(k) !in providers
    ensures TagPlan(providers, Str, Length + "=" + FormatInt(k)) == Ok(RandomLetters(k))
  {
    var tag := Length + "=" + FormatInt(k);
    LenRoundTrip(k);
    assert Contains(tag, Length);
    StringTagPlan(providers, tag);
  }

  /** A bool field tagged `use=true` or `use=false` is set to that value,
      whatever providers are registered. */
  lemma UseBoolPlan(providers: map<string, ProviderId>, b: bool)
    ensures TagPlan(providers, Bool, Use + "=" + FormatBool(b)) == Ok(Literal(BoolV(b)))
  {
    BoolRoundTrip(b);
  }

  /** Bool and slice fields never consult the providers: their plan is the
      same under any two registries. */
  lemma ProvidersIgnored(p1: map<string, ProviderId>, p2: map<string, ProviderId>, shape: Shape, tag: string)
    requires shape.Bool? || shape.Slice?
    ensures TagPlan(p1, shape, tag) == TagPlan(p2, shape, tag)
  {
  }

  /** An integer element of a slice or map tagged with a range draws from
      that range. */
  lemma ElemBoundaryPlan(shape: Shape, a: int, b: int)
    requires IsInteger(shape)
    ensures ElemPlan(shape, BoundaryTag(a, b)) == Ok(Between(NumberBoundary(a, b)))
  {
    BoundaryRoundTrip(a, b);
  }

  /** A string element of a slice or map tagged `len=K` is K letters long. */
  lemma ElemLenPlan(k: int)
    ensures ElemPlan(Str, Length + "=" + FormatInt(k)) == Ok(RandomLetters(k))
  {
    LenRoundTrip(k);
  }
}
