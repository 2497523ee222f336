/** The pieces of Go's `strings` and `strconv` packages that the tag grammar
    uses, over Dafny strings: `strings.Split` and `strings.Join` with a
    one-character separator, `strings.Contains`, `strings.TrimSpace`, and a
    decimal-integer reading of `strconv.ParseFloat`. */
module Text {
  import opened Wrappers

  /** Number of occurrences of `c` in `s`. */
  function Count(s: string, c: char): nat
  {
    if s == [] then 0 else (if s[0] == c then 1 else 0) + Count(s[1..], c)
  }

  /** `strings.Split(s, string(sep))`: the maximal runs between separators.
      Like Go, it never returns an empty list: splitting "" gives [""]. */
  function Split(s: string, sep: char): (parts: seq<string>)
    ensures |parts| == Count(s, sep) + 1
    ensures forall p | p in parts :: sep !in p
  {
    if s == [] then [""]
    else
      var rest := Split(s[1..], sep);
      if s[0] == sep then [""] + rest
      else [[s[0]] + rest[0]] + rest[1..]
  }

  /** `strings.Join(parts, string(sep))`. */
  function Join(parts: seq<string>, sep: char): string
  {
    if parts == [] then ""
    else if |parts| == 1 then parts[0]
    else parts[0] + [sep] + Join(parts[1..], sep)
  }

  /** A join starts with the first piece and ends with the last one. */
  lemma {:induction false} JoinEnds(parts: seq<string>, sep: char)
    requires parts != []
    ensures parts[0] <= Join(parts, sep)
    ensures |parts[|parts| - 1]| <= |Join(parts, sep)|
    ensures Join(parts, sep)[|Join(parts, sep)| - |parts[|parts| - 1]|..] == parts[|parts| - 1]
  {
    if |parts| > 1 {
      var rest := Join(parts[1..], sep);
      var last := parts[|parts| - 1];
      JoinEnds(parts[1..], sep);
      assert parts[1..][|parts[1..]| - 1] == last;
      var r := parts[0] + [sep] + rest;
      assert r[|r| - |last|..] == rest[|rest| - |last|..];
    }
  }

  /** Joining the pieces of a split gives back the original text. */
  lemma {:induction false} JoinSplit(s: string, sep: char)
    ensures Join(Split(s, sep), sep) == s
  {
    if s != [] {
      var rest := Split(s[1..], sep);
      JoinSplit(s[1..], sep);
      if s[0] == sep {
        assert Split(s, sep) == [""] + rest;
        assert Join([""] + rest, sep) == "" + [sep] + Join(rest, sep);
      } else {
        assert Split(s, sep) == [[s[0]] + rest[0]] + rest[1..];
        if |rest| == 1 {
          assert Join(Split(s, sep), sep) == [s[0]] + rest[0];
        } else {
          assert Join(rest, sep) == rest[0] + [sep] + Join(rest[1..], sep);
        }
      }
    }
  }

  /** Splitting a text that starts with a separator-free piece `p`. */
  lemma {:induction false} SplitPrefix(p: string, t: string, sep: char)
    requires sep !in p
    ensures Split(p + t, sep) == [p + Split(t, sep)[0]] + Split(t, sep)[1..]
  {
    var st := Split(t, sep);
    if p == [] {
      assert p + t == t && p + st[0] == st[0];
      assert st == [st[0]] + st[1..];
    } else {
      SplitPrefix(p[1..], t, sep);
      var pt := p + t;
      assert pt[0] == p[0] && pt[0] != sep;
      assert pt[1..] == p[1..] + t;
      var rest := Split(pt[1..], sep);
      assert rest == [p[1..] + st[0]] + st[1..];
      assert Split(pt, sep) == [[pt[0]] + rest[0]] + rest[1..];
      assert [p[0]] + (p[1..] + st[0]) == p + st[0];
    }
  }

  /** Splitting a join of separator-free pieces gives back the pieces. */
  lemma {:induction false} SplitJoin(parts: seq<string>, sep: char)
    requires parts != []
    requires forall p | p in parts :: sep !in p
    ensures Split(Join(parts, sep), sep) == parts
  {
    if |parts| == 1 {
      SplitPrefix(parts[0], "", sep);
      assert parts[0] + "" == parts[0];
    } else {
      var tail := Join(parts[1..], sep);
      SplitJoin(parts[1..], sep);
      assert Join(parts, sep) == parts[0] + ([sep] + tail);
      SplitPrefix(parts[0], [sep] + tail, sep);
      var st := [sep] + tail;
      assert st != [] && st[0] == sep && st[1..] == tail;
      assert Split(st, sep) == [""] + parts[1..];
      assert parts[0] + "" == parts[0];
      assert [parts[0]] + parts[1..] == parts;
    }
  }

  /** A text with exactly one separator splits into what precedes it and
      what follows it. */
  lemma {:induction false} SplitOnce(s: string, sep: char) returns (k: nat)
    requires Count(s, sep) == 1
    ensures k < |s| && s[k] == sep && sep !in s[..k]
    ensures Split(s, sep) == [s[..k], s[k + 1..]]
  {
    CountPositive(s, sep);
    k := FirstIndex(s, sep);
    CountSplit(s, k, sep);
    var pre, post := s[..k], s[k + 1..];
    CountZero(post, sep);
    assert s == pre + [sep] + post;
    assert Join([pre, post], sep) == pre + [sep] + post;
    SplitJoin([pre, post], sep);
  }

  lemma {:induction false} CountZero(s: string, c: char)
    requires Count(s, c) == 0
    ensures c !in s
  {
    if s != [] {
      CountZero(s[1..], c);
      assert s == [s[0]] + s[1..];
    }
  }

  lemma {:induction false} CountPositive(s: string, c: char)
    requires Count(s, c) > 0
    ensures c in s
  {
    if s[0] != c {
      CountPositive(s[1..], c);
    }
  }

  function FirstIndex(s: string, c: char): (k: nat)
    requires c in s
    ensures k < |s| && s[k] == c && c !in s[..k]
  {
    if s[0] == c then 0
    else
      var k := FirstIndex(s[1..], c);
      assert s[..k + 1] == [s[0]] + s[1..][..k];
      k + 1
  }

  lemma {:induction false} CountSplit(s: string, k: nat, c: char)
    requires k < |s| && s[k] == c && c !in s[..k]
    ensures Count(s, c) == 1 + Count(s[k + 1..], c)
  {
    if k > 0 {
      assert s[1..][..k - 1] == s[1..k];
      assert forall j | 1 <= j < k :: s[..k][j] != c;
      CountSplit(s[1..], k - 1, c);
      assert s[1..][k..] == s[k + 1..];
    }
  }

  /** `sub` occurs in `s` starting at index `i`. */
  ghost predicate OccursAt(s: string, sub: string, i: int)
  {
    0 <= i && i + |sub| <= |s| && s[i..i + |sub|] == sub
  }

  /** `strings.Contains(s, sub)`. */
  function Contains(s: string, sub: string): (r: bool)
    ensures sub <= s ==> r
    ensures r ==> |sub| <= |s|
  {
    if sub <= s then true
    else if s == [] then false
    else Contains(s[1..], sub)
  }

  /** `Contains` holds exactly when `sub` occurs somewhere in `s`. */
  lemma {:induction false} ContainsOccurs(s: string, sub: string)
    ensures Contains(s, sub) <==> exists i :: OccursAt(s, sub, i)
  {
    if sub <= s {
      assert OccursAt(s, sub, 0);
    } else if s == [] {
      assert forall i :: !OccursAt(s, sub, i);
    } else {
      ContainsOccurs(s[1..], sub);
      assert forall i :: OccursAt(s[1..], sub, i) <==> OccursAt(s, sub, i + 1);
      assert forall i :: OccursAt(s, sub, i) ==> i == 0 || OccursAt(s[1..], sub, i - 1);
    }
  }

  lemma ContainsAt(s: string, sub: string, i: int)
    requires OccursAt(s, sub, i)
    ensures Contains(s, sub)
  {
    ContainsOccurs(s, sub);
  }

  /** The white-space characters of Go's `unicode.IsSpace`. */
  predicate IsSpace(c: char)
  {
    var n := c as int;
    n == 0x20 || 0x09 <= n <= 0x0D || n == 0x85 || n == 0xA0 || n == 0x1680
    || 0x2000 <= n <= 0x200A || n == 0x2028 || n == 0x2029 || n == 0x202F
    || n == 0x205F || n == 0x3000
  }

  function TrimLeft(s: string): (r: string)
    ensures |r| <= |s| && r == s[|s| - |r|..]
    ensures forall i | 0 <= i < |s| - |r| :: IsSpace(s[i])
    ensures r == [] || !IsSpace(r[0])
  {
    if s != [] && IsSpace(s[0]) then TrimLeft(s[1..]) else s
  }

  function TrimRight(s: string): (r: string)
    ensures |r| <= |s| && r == s[..|r|]
    ensures forall i | |r| <= i < |s| :: IsSpace(s[i])
    ensures r == [] || !IsSpace(r[|r| - 1])
  {
    if s != [] && IsSpace(s[|s| - 1]) then TrimRight(s[..|s| - 1]) else s
  }

  /** `strings.TrimSpace`: drops leading and trailing white space. */
  function TrimSpace(s: string): (r: string)
    ensures |r| <= |s|
    ensures r == [] || (!IsSpace(r[0]) && !IsSpace(r[|r| - 1]))
  {
    TrimRight(TrimLeft(s))
  }

  /** `TrimSpace` removes white space at the two ends and nothing else. */
  lemma TrimSpaceTrims(s: string)
    ensures exists i, j | 0 <= i <= j <= |s| :: Trimmed(s, TrimSpace(s), i, j)
  {
    var l := TrimLeft(s);
    var r := TrimRight(l);
    var i := |s| - |l|;
    assert l == s[i..] && r == l[..|r|];
    forall k | 0 <= k < |r|
      ensures r[k] == s[i + k]
    {
      assert r[k] == l[k];
    }
    assert r == s[i..i + |r|];
    forall k | i + |r| <= k < |s|
      ensures IsSpace(s[k])
    {
      assert s[k] == l[k - i];
    }
    assert TrimSpace(s) == r;
    assert Trimmed(s, r, i, i + |r|);
  }

  /** `r` is `s[i..j]` and everything cut off on either side is white space. */
  ghost predicate Trimmed(s: string, r: string, i: int, j: int)
  {
    && 0 <= i <= j <= |s| && r == s[i..j]
    && (forall k | 0 <= k < i :: IsSpace(s[k]))
    && (forall k | j <= k < |s| :: IsSpace(s[k]))
  }

  /** A text without white space at either end is left as it is. */
  lemma TrimSpaceKeeps(s: string)
    requires s == [] || (!IsSpace(s[0]) && !IsSpace(s[|s| - 1]))
    ensures TrimSpace(s) == s
  {
  }

  predicate IsDigit(c: char)
  {
    '0' <= c <= '9'
  }

  predicate AllDigits(s: string)
  {
    forall i | 0 <= i < |s| :: IsDigit(s[i])
  }

  /** The value of a string of decimal digits, most significant first. */
  function DigitsValue(s: string): nat
    requires AllDigits(s)
  {
    if s == [] then 0
    else DigitsValue(s[..|s| - 1]) * 10 + (s[|s| - 1] as int - '0' as int)
  }

  /** A non-empty run of decimal digits, or nothing. */
  function ParseNat(s: string): Option<nat>
  {
    if s != [] && AllDigits(s) then Some(DigitsValue(s)) else None
  }

  /** The decimal-integer subset of `strconv.ParseFloat`: an optional sign
      followed by at least one decimal digit. */
  function ParseInt(s: string): (r: Option<int>)
    ensures r.Some? ==> s != [] && (IsDigit(s[0]) || ((s[0] == '+' || s[0] == '-') && |s| > 1))
    ensures r.Some? && r.value < 0 ==> s[0] == '-'
    ensures s != [] && AllDigits(s) ==> r == Some(DigitsValue(s))
  {
    if s != [] && (s[0] == '+' || s[0] == '-') then
      match ParseNat(s[1..])
      case None => None
      case Some(n) => var v: int := n; Some(if s[0] == '-' then -v else v)
    else
      match ParseNat(s)
      case None => None
      case Some(n) => Some(n)
  }

  function DigitChar(d: nat): (c: char)
    requires d < 10
    ensures IsDigit(c) && c as int - '0' as int == d
  {
    ('0' as int + d) as char
  }

  /** Canonical decimal spelling of a natural number. */
  function FormatNat(n: nat): (s: string)
    ensures s != [] && AllDigits(s)
  {
    if n < 10 then [DigitChar(n)] else FormatNat(n / 10) + [DigitChar(n % 10)]
  }

  /** Canonical decimal spelling of an integer, with `-` for negatives. */
  function FormatInt(n: int): (s: string)
    ensures s != [] && forall c | c in s :: c == '-' || IsDigit(c)
  {
    if n < 0 then "-" + FormatNat(-n) else FormatNat(n)
  }

  lemma {:induction false} FormatNatValue(n: nat)
    ensures DigitsValue(FormatNat(n)) == n
  {
    if n >= 10 {
      FormatNatValue(n / 10);
      var s := FormatNat(n);
      assert s[..|s| - 1] == FormatNat(n / 10);
    }
  }

  lemma ParseFormatNat(n: nat)
    ensures ParseNat(FormatNat(n)) == Some(n)
  {
    FormatNatValue(n);
  }

  /** Reading back a formatted integer gives the integer. */
  lemma FormatParse(n: int)
    ensures ParseInt(FormatInt(n)) == Some(n)
  {
    var s := FormatInt(n);
    if n < 0 {
      ParseFormatNat(-n);
      assert s[0] == '-' && s[1..] == FormatNat(-n);
    } else {
      ParseFormatNat(n);
      assert s == FormatNat(n) && IsDigit(s[0]);
    }
  }
}
