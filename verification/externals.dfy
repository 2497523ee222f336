/** The code faker.go calls but does not own: Go's `math/rand` generator and
    the provider functions registered under tag names. Callers only rely on
    the postconditions; the bodies are a small stand-in so every member has
    one. */
module Externals {
  import opened Wrappers
  import opened Shapes

  /** `rand.Int63` returns a non-negative 63-bit value. */
  const Int63Bound := 0x8000_0000_0000_0000

  /** `s` holds each of lo, ..., lo + n - 1 exactly once. */
  ghost predicate IsPermutation(s: seq<int>, lo: int, n: int)
  {
    && |s| == n
    && (forall k | 0 <= k < |s| :: lo <= s[k] < lo + n)
    && (forall k, l | 0 <= k < l < |s| :: s[k] != s[l])
    && (forall v | lo <= v < lo + n :: v in s)
  }

  /** One round of Go's `rand.Perm`: the new value |s| goes to position j and
      what was at j moves to the end. */
  function PermStep(s: seq<int>, j: int): (t: seq<int>)
    requires 0 <= j <= |s|
    ensures |t| == |s| + 1
  {
    if j == |s| then s + [|s|] else s[j := |s|] + [s[j]]
  }

  lemma PermStepKeeps(s: seq<int>, j: int)
    requires IsPermutation(s, 0, |s|) && 0 <= j <= |s|
    ensures IsPermutation(PermStep(s, j), 0, |s| + 1)
  {
    var n, t := |s|, PermStep(s, j);
    assert forall k | 0 <= k < n && k != j :: t[k] == s[k];
    assert t[j] == n;
    assert t[n] == if j == n then n else s[j];
    forall v | 0 <= v < n + 1
      ensures v in t
    {
      if v == n {
        assert t[j] == v;
      } else {
        assert v in s;
        var p :| 0 <= p < n && s[p] == v;
        if p == j {
          assert t[n] == v;
        } else {
          assert t[p] == v;
        }
      }
    }
  }

  class External {
    var state: int
    /** Every value `Generate` has returned, oldest first. */
    ghost var drawn: seq<Value>

    constructor(seed: int)
    {
      state := seed % 0x1_0000_0000_0000_0000;
    }

    /** `rand.Int63`. */
    method Int63() returns (r: int)
      modifies this`state
      ensures 0 <= r < Int63Bound
    {
      state := (state * 6364136223846793005 + 1442695040888963407) % 0x1_0000_0000_0000_0000;
      r := state % Int63Bound;
    }

    /** `rand.Intn`; Go panics when n <= 0. */
    method Intn(n: int) returns (r: int)
      requires n > 0
      modifies this
      ensures 0 <= r < n
    {
      var x := Int63();
      r := x % n;
    }

    /** `rand.Perm`: a fresh array holding a permutation of 0 .. n-1, built
        by the inside-out shuffle Go uses. Go panics when n < 0. */
    method Perm(n: int) returns (m: array<int>)
      requires n >= 0
      modifies this
      ensures fresh(m) && IsPermutation(m[..], 0, n)
    {
      m := new int[n];
      var i := 0;
      while i < n
        invariant 0 <= i <= n
        invariant IsPermutation(m[..i], 0, i)
      {
        ghost var s := m[..i];
        var j := Intn(i + 1);
        m[i] := m[j];
        m[j] := i;
        assert m[..i + 1] == PermStep(s, j);
        PermStepKeeps(s, j);
        i := i + 1;
      }
      assert m[..] == m[..n];
    }

    /** A registered provider function applied to a field of type `shape`;
        None stands for the error it returns. */
    method CallProvider(p: ProviderId, shape: Shape) returns (r: Option<Value>)
      modifies this
      ensures r.Some? ==> Conforms(r.value, shape)
    {
      var x := Int63();
      r := if x == 0 then None else Some(Zero(shape));
    }

    /** A value generator handed to `generateUnique`; it may return any
        value, and each call is recorded in `drawn`. */
    method Generate(g: nat) returns (v: Value)
      modifies this
      ensures drawn == old(drawn) + [v]
    {
      var x := Int63();
      v := IntV(x);
      drawn := drawn + [v];
    }
  }
}
