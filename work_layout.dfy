/** The work vector of the qpOASES adapter: what `init` reserves with `alloc_w`
    and how `eval` carves it with a bump pointer. */
module WorkLayout {

  /** A contiguous range [start, start + len) of the work vector. */
  datatype Slice = Slice(start: nat, len: nat) {
    function End(): nat { start + len }
  }

  function Sum(sizes: seq<nat>): nat {
    if sizes == [] then 0 else sizes[0] + Sum(sizes[1..])
  }

  /** Indices of the slices, in the order `init` reserves and `eval` carves them. */
  const H: nat := 0
  const A: nat := 1
  const G: nat := 2
  const Lbx: nat := 3
  const Ubx: nat := 4
  const Lba: nat := 5
  const Uba: nat := 6
  const Dual: nat := 7

  /** The sizes `init` passes to `alloc_w` for n variables and nc constraints. */
  function AllocSizes(n: nat, nc: nat): (s: seq<nat>)
    ensures |s| == 8
    ensures s[H] == n * n && s[A] == n * nc && s[G] == n && s[Lbx] == n && s[Ubx] == n
    ensures s[Lba] == nc && s[Uba] == nc && s[Dual] == n + nc
  {
    [n * n, n * nc, n, n, n, nc, nc, n + nc]
  }

  /** The slices a bump pointer starting at `start` hands out for `sizes`, one after the other. */
  function Carve(sizes: seq<nat>, start: nat): (r: seq<Slice>)
    ensures |r| == |sizes|
    decreases |sizes|
  {
    if sizes == [] then [] else [Slice(start, sizes[0])] + Carve(sizes[1..], start + sizes[0])
  }

  /** The layout `eval` uses: the requests of `init`, carved from the start of the work vector. */
  function Layout(n: nat, nc: nat): (r: seq<Slice>)
    ensures |r| == 8
  {
    Carve(AllocSizes(n, nc), 0)
  }

  /** The number of entries `init` reserves. */
  function Budget(n: nat, nc: nat): nat {
    Sum(AllocSizes(n, nc))
  }

  /** Slice i of the carving has the requested size and begins after everything before it. */
  lemma {:induction false} CarveAt(sizes: seq<nat>, start: nat, i: nat)
    requires i < |sizes|
    ensures Carve(sizes, start)[i] == Slice(start + Sum(sizes[..i]), sizes[i])
    decreases i
  {
    if i > 0 {
      CarveAt(sizes[1..], start + sizes[0], i - 1);
      assert sizes[..i][1..] == sizes[1..][..i - 1];
    }
  }

  lemma {:induction false} SumSnoc(sizes: seq<nat>, i: nat)
    requires i < |sizes|
    ensures Sum(sizes[..i + 1]) == Sum(sizes[..i]) + sizes[i]
    decreases i
  {
    if i > 0 {
      SumSnoc(sizes[1..], i - 1);
      assert sizes[..i + 1][1..] == sizes[1..][..i];
      assert sizes[..i][1..] == sizes[1..][..i - 1];
    }
  }

  lemma {:induction false} SumPrefixMonotone(sizes: seq<nat>, i: nat, j: nat)
    requires i <= j <= |sizes|
    ensures Sum(sizes[..i]) <= Sum(sizes[..j])
    decreases j - i
  {
    if i < j {
      SumSnoc(sizes, i);
      SumPrefixMonotone(sizes, i + 1, j);
    }
  }

  /** Each slice starts where the previous one ends; the first starts at `start`;
      the last ends at `start` plus the total. */
  lemma CarveContiguous(sizes: seq<nat>, start: nat)
    ensures forall i :: 0 < i < |sizes| ==> Carve(sizes, start)[i].start == Carve(sizes, start)[i - 1].End()
    ensures |sizes| > 0 ==> Carve(sizes, start)[0].start == start
    ensures |sizes| > 0 ==> Carve(sizes, start)[|sizes| - 1].End() == start + Sum(sizes)
  {
    var r := Carve(sizes, start);
    forall i | 0 < i < |sizes|
      ensures r[i].start == r[i - 1].End()
    {
      CarveAt(sizes, start, i);
      CarveAt(sizes, start, i - 1);
      SumSnoc(sizes, i - 1);
    }
    if |sizes| > 0 {
      CarveAt(sizes, start, 0);
      CarveAt(sizes, start, |sizes| - 1);
      SumSnoc(sizes, |sizes| - 1);
      assert sizes[..|sizes|] == sizes;
    }
  }

  /** Distinct slices of a carving do not overlap. */
  lemma CarveDisjoint(sizes: seq<nat>, start: nat, i: nat, j: nat)
    requires i < j < |sizes|
    ensures Carve(sizes, start)[i].End() <= Carve(sizes, start)[j].start
  {
    CarveAt(sizes, start, i);
    CarveAt(sizes, start, j);
    SumSnoc(sizes, i);
    SumPrefixMonotone(sizes, i + 1, j);
  }

  /** Every slice lies inside the reserved range [start, start + total). */
  lemma CarveFits(sizes: seq<nat>, start: nat, i: nat)
    requires i < |sizes|
    ensures start <= Carve(sizes, start)[i].start
    ensures Carve(sizes, start)[i].End() <= start + Sum(sizes)
  {
    CarveAt(sizes, start, i);
    SumSnoc(sizes, i);
    SumPrefixMonotone(sizes, i + 1, |sizes|);
    assert sizes[..|sizes|] == sizes;
  }

  /** The eight slices of `eval` have the lengths of the eight requests of `init`,
      do not overlap, and all fit in the budget `init` reserves. */
  lemma LayoutSound(n: nat, nc: nat)
    ensures forall k :: 0 <= k < 8 ==> Layout(n, nc)[k].len == AllocSizes(n, nc)[k]
    ensures forall k :: 0 <= k < 8 ==> Layout(n, nc)[k].End() <= Budget(n, nc)
    ensures forall i, j :: 0 <= i < j < 8 ==> Layout(n, nc)[i].End() <= Layout(n, nc)[j].start
  {
    var sizes := AllocSizes(n, nc);
    forall k | 0 <= k < 8
      ensures Layout(n, nc)[k].len == sizes[k] && Layout(n, nc)[k].End() <= Budget(n, nc)
    {
      CarveAt(sizes, 0, k);
      CarveFits(sizes, 0, k);
    }
    forall i, j | 0 <= i < j < 8
      ensures Layout(n, nc)[i].End() <= Layout(n, nc)[j].start
    {
      CarveDisjoint(sizes, 0, i, j);
    }
  }

  /** The bump pointer of `eval`: slice k begins where slice k - 1 ends, the first at 0,
      and the last ends exactly at the budget. */
  lemma LayoutContiguous(n: nat, nc: nat)
    ensures Layout(n, nc)[H].start == 0
    ensures forall k :: 0 < k < 8 ==> Layout(n, nc)[k].start == Layout(n, nc)[k - 1].End()
    ensures Layout(n, nc)[Dual].End() == Budget(n, nc)
  {
    CarveContiguous(AllocSizes(n, nc), 0);
  }

  /** Where each slice begins, written out, and the budget as a formula in n and nc. */
  lemma LayoutOffsets(n: nat, nc: nat)
    ensures Layout(n, nc)[H] == Slice(0, n * n)
    ensures Layout(n, nc)[A] == Slice(n * n, n * nc)
    ensures Layout(n, nc)[G] == Slice(n * n + n * nc, n)
    ensures Layout(n, nc)[Lbx] == Slice(n * n + n * nc + n, n)
    ensures Layout(n, nc)[Ubx] == Slice(n * n + n * nc + 2 * n, n)
    ensures Layout(n, nc)[Lba] == Slice(n * n + n * nc + 3 * n, nc)
    ensures Layout(n, nc)[Uba] == Slice(n * n + n * nc + 3 * n + nc, nc)
    ensures Layout(n, nc)[Dual] == Slice(n * n + n * nc + 3 * n + 2 * nc, n + nc)
    ensures Budget(n, nc) == n * n + n * nc + 4 * n + 3 * nc
  {
    LayoutContiguous(n, nc);
    LayoutSound(n, nc);
    var L := Layout(n, nc);
    assert L[A].start == L[H].End();
    assert L[G].start == L[A].End();
    assert L[Lbx].start == L[G].End();
    assert L[Ubx].start == L[Lbx].End();
    assert L[Lba].start == L[Ubx].End();
    assert L[Uba].start == L[Lba].End();
    assert L[Dual].start == L[Uba].End();
  }
}
