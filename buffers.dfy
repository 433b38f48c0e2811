/** Element-wise buffer helpers `eval` relies on (`casadi_copy`, `casadi_scal`), on
    arrays of reals. `casadi_densify` is modelled by CopyIn of an argument that is
    already dense. */
module Buffers {

  /** `alpha * s`, element by element. */
  function Scaled(alpha: real, s: seq<real>): (r: seq<real>)
    ensures |r| == |s|
    ensures forall i :: 0 <= i < |s| ==> r[i] == alpha * s[i]
  {
    seq(|s|, i requires 0 <= i < |s| => alpha * s[i])
  }

  function Negated(s: seq<real>): (r: seq<real>)
    ensures |r| == |s|
    ensures forall i :: 0 <= i < |s| ==> r[i] == -s[i]
  {
    Scaled(-1.0, s)
  }

  lemma NegatedInvolution(s: seq<real>)
    ensures Negated(Negated(s)) == s
  {
  }

  /** Negating and then splitting is splitting and then negating each part. */
  lemma NegatedSplit(s: seq<real>, k: nat)
    requires k <= |s|
    ensures Negated(s)[..k] == Negated(s[..k])
    ensures Negated(s)[k..] == Negated(s[k..])
    ensures Negated(s) == Negated(s[..k]) + Negated(s[k..])
  {
  }

  /** A copy of `src` to `off` that leaves the entries before `off` alone extends the
      untouched prefix by `src`. */
  lemma PrefixAfterCopy(before: seq<real>, after: seq<real>, off: nat, src: seq<real>)
    requires |before| == |after| && off + |src| <= |after|
    requires forall j :: 0 <= j < |src| ==> after[off + j] == src[j]
    requires forall j :: 0 <= j < off ==> after[j] == before[j]
    ensures after[..off + |src|] == before[..off] + src
  {
    var lhs, rhs := after[..off + |src|], before[..off] + src;
    assert |lhs| == |rhs|;
    forall j | 0 <= j < |lhs|
      ensures lhs[j] == rhs[j]
    {
      if j >= off {
        assert after[off + (j - off)] == src[j - off];
      }
    }
  }

  /** Copies `src` into `dst[off..off + |src|]`, nothing else changes. */
  method CopyIn(src: seq<real>, dst: array<real>, off: nat)
    requires off + |src| <= dst.Length
    modifies dst
    ensures dst[off..off + |src|] == src
    ensures dst[..off + |src|] == old(dst[..off]) + src
    ensures forall i :: 0 <= i < dst.Length && !(off <= i < off + |src|) ==> dst[i] == old(dst[i])
  {
    ghost var before := dst[..];
    var i := 0;
    while i < |src|
      invariant 0 <= i <= |src|
      invariant forall j :: 0 <= j < i ==> dst[off + j] == src[j]
      invariant forall j :: 0 <= j < dst.Length && !(off <= j < off + i) ==> dst[j] == old(dst[j])
    {
      dst[off + i] := src[i];
      i := i + 1;
    }
    PrefixAfterCopy(before, dst[..], off, src);
  }

  /** The bump-pointer step of `eval`: copies `src` at `ptr`, hands back the copied slice
      and the advanced pointer. When the first `ptr` entries hold `loaded`, the first
      `next` entries then hold `loaded + src`. */
  method Push(src: seq<real>, dst: array<real>, ptr: nat, ghost loaded: seq<real>)
      returns (part: seq<real>, next: nat)
    requires ptr + |src| <= dst.Length && dst[..ptr] == loaded
    modifies dst
    ensures next == ptr + |src| && part == src
    ensures dst[..next] == loaded + src
    ensures forall i :: next <= i < dst.Length ==> dst[i] == old(dst[i])
  {
    CopyIn(src, dst, ptr);
    next := ptr + |src|;
    part := dst[ptr..next];
  }

  /** Copies `src[off..off + len]` into the whole of `dst`. */
  method CopyOut(src: array<real>, off: nat, len: nat, dst: array<real>)
    requires off + len <= src.Length && dst.Length == len && dst != src
    modifies dst
    ensures dst[..] == src[off..off + len]
  {
    var i := 0;
    while i < len
      invariant 0 <= i <= len
      invariant forall j :: 0 <= j < i ==> dst[j] == src[off + j]
    {
      dst[i] := src[off + i];
      i := i + 1;
    }
  }

  /** `casadi_scal`: multiplies `w[off..off + len]` by `alpha` in place. */
  method Scale(w: array<real>, off: nat, len: nat, alpha: real)
    requires off + len <= w.Length
    modifies w
    ensures w[off..off + len] == Scaled(alpha, old(w[off..off + len]))
    ensures forall i :: 0 <= i < w.Length && !(off <= i < off + len) ==> w[i] == old(w[i])
  {
    ghost var before := w[..];
    var i := 0;
    while i < len
      invariant 0 <= i <= len && w.Length == |before|
      invariant forall j :: off <= j < off + i ==> w[j] == alpha * before[j]
      invariant forall j :: 0 <= j < w.Length && !(off <= j < off + i) ==> w[j] == before[j]
    {
      assert w[off + i] == before[off + i];
      w[off + i] := alpha * w[off + i];
      i := i + 1;
    }
    ghost var after, want := w[off..off + len], Scaled(alpha, before[off..off + len]);
    forall j | 0 <= j < len
      ensures after[j] == want[j]
    {
      assert w[off + j] == alpha * before[off + j];
    }
    assert after == want;
  }
}
