/** The random primitives of faker.go that do not depend on its settings:
    `randomString`, `randomIntegerWithBoundary` and `RandomInt`
    (faker.go:925-945, 988-1007). */
module Primitives {
  import opened Wrappers
  import opened Shapes
  import opened Externals

  const LetterBytes := "abcdefghijklmnopqrstuvwxyzABCDEFGHIJKLMNOPQRSTUVWXYZ"
  const LetterIdxBits := 6
  /** 1 << 6: taking the low six bits is a remainder by 64. */
  const LetterIdxRange := 64
  /** How many six-bit indices one 63-bit draw holds. */
  const LetterIdxMax := 63 / LetterIdxBits

  predicate Letters(s: string)
  {
    forall c | c in s :: c in LetterBytes
  }

  /** `randomString(n)`: fills the string from its last position down,
      taking six bits at a time from a 63-bit draw and skipping indices
      past the 52 letters; a new draw is taken when the ten indices of the
      current one are used up. Go's loop ends only with probability one;
      here it gives up (None) after n further draws. */
  method RandomString(ext: External, n: int) returns (r: Option<string>)
    requires n >= 0
    modifies ext
    ensures r.Some? ==> |r.value| == n && Letters(r.value)
  {
    var b := new char[n];
    var cache := ext.Int63();
    var i, remain := n - 1, LetterIdxMax;
    var draws := n;
    while i >= 0
      invariant -1 <= i < n
      invariant 0 <= remain <= LetterIdxMax && 0 <= cache
      invariant forall k | i < k < n :: b[k] in LetterBytes
      decreases draws, remain
    {
      if remain == 0 {
        if draws == 0 {
          return None;
        }
        cache := ext.Int63();
        remain := LetterIdxMax;
        draws := draws - 1;
      }
      var idx := cache % LetterIdxRange;
      if idx < |LetterBytes| {
        b[i] := LetterBytes[idx];
        i := i - 1;
      }
      cache := cache / LetterIdxRange;
      remain := remain - 1;
    }
    r := Some(b[..]);
  }

  /** `randomIntegerWithBoundary`: a value of [start, end). Go panics unless
      start < end. */
  method RandomIntegerWithBoundary(ext: External, boundary: NumberBoundary) returns (r: int)
    requires boundary.start < boundary.end
    modifies ext
    ensures boundary.start <= r < boundary.end
  {
    var x := ext.Intn(boundary.end - boundary.start);
    r := x + boundary.start;
  }

  /** `s` with `d` added to every element. */
  function Shifted(s: seq<int>, d: int): (t: seq<int>)
    ensures |t| == |s| && forall k | 0 <= k < |s| :: t[k] - d == s[k]
  {
    seq(|s|, k requires 0 <= k < |s| => s[k] + d)
  }

  /** Shifting a permutation of 0 .. n-1 by d gives one of d .. d+n-1. */
  lemma ShiftPermutation(s: seq<int>, d: int, n: int)
    requires IsPermutation(s, 0, n)
    ensures IsPermutation(Shifted(s, d), d, n)
  {
    var t := Shifted(s, d);
    forall v | d <= v < d + n
      ensures v in t
    {
      assert v - d in s;
      var p :| 0 <= p < |s| && s[p] == v - d;
      assert t[p] == v;
    }
  }

  /** The loop `for i := range p { p[i] += d }`. */
  method AddToAll(p: array<int>, d: int)
    modifies p
    ensures p[..] == Shifted(old(p[..]), d)
  {
    var i := 0;
    while i < p.Length
      invariant 0 <= i <= p.Length
      invariant forall k | 0 <= k < i :: p[k] == old(p[k]) + d
      invariant forall k | i <= k < p.Length :: p[k] == old(p[k])
    {
      p[i] := p[i] + d;
      i := i + 1;
    }
  }

  /** `RandomInt`: with one argument m, the numbers m .. 2m-1 in random
      order; with two, min .. max in random order; otherwise an error. Go
      panics on a negative count. */
  method RandomInt(ext: External, parameters: seq<int>) returns (r: Result<seq<int>, Error>)
    requires |parameters| == 1 ==> parameters[0] >= 0
    requires |parameters| == 2 ==> parameters[1] - parameters[0] + 1 >= 0
    modifies ext
    ensures |parameters| == 1 ==> r.Ok? && IsPermutation(r.value, parameters[0], parameters[0])
    ensures |parameters| == 2 ==> r.Ok? && IsPermutation(r.value, parameters[0], parameters[1] - parameters[0] + 1)
    ensures |parameters| != 1 && |parameters| != 2 ==> r == Err(MoreArguments(|parameters|))
  {
    if |parameters| == 1 {
      var minCount := parameters[0];
      var p := ext.Perm(minCount);
      ghost var s := p[..];
      AddToAll(p, minCount);
      ShiftPermutation(s, minCount, minCount);
      r := Ok(p[..]);
    } else if |parameters| == 2 {
      var minDigit, maxDigit := parameters[0], parameters[1];
      var p := ext.Perm(maxDigit - minDigit + 1);
      ghost var s := p[..];
      AddToAll(p, minDigit);
      ShiftPermutation(s, minDigit, maxDigit - minDigit + 1);
      r := Ok(p[..]);
    } else {
      r := Err(MoreArguments(|parameters|));
    }
  }
}
