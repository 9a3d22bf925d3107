/** Moving stolen items between ring buffers (src/transfer.rs): the bulk copy in at most three
    chunks leaves what the copy of one item at a time leaves. */
module Transfer {
  import opened Words

  /** The slot `k` steps on from slot `i` of a ring. */
  function At(cap: nat, i: nat, k: nat): (r: nat)
    requires i < cap && k <= cap
    ensures r < cap
  {
    if i + k < cap then i + k else i + k - cap
  }

  /** It is the slot of the position `k` steps on. */
  lemma AtIsMod(cap: nat, pos: nat, k: nat)
    requires cap > 0 && k <= cap
    ensures pos % cap < cap && (pos + k) % cap == At(cap, pos % cap, k) == (pos % cap + k) % cap
  {
    var i := pos % cap;
    ModAdd(pos, k, cap);
    ModUnique(i + k, cap, if i + k < cap then 0 else 1, At(cap, i, k));
  }

  /** A transfer of `n` items from slot `i` of a ring of size `cs` to slot `j` of a ring of
      size `cd`, within both capacities. */
  predicate Fits(cs: nat, cd: nat, i: nat, j: nat, n: nat) {
    i < cs && j < cd && n <= cs && n <= cd
  }

  /** The destination after `n` items were copied one at a time. */
  function Copied<T>(s: seq<T>, d: seq<T>, i: nat, j: nat, n: nat): (r: seq<T>)
    requires Fits(|s|, |d|, i, j, n)
    ensures |r| == |d|
  {
    if n == 0 then d
    else Copied(s, d, i, j, n - 1)[At(|d|, j, n - 1) := s[At(|s|, i, n - 1)]]
  }

  /** The `n` slots from `i` on are all different from the `n` slots from `j` on. */
  ghost predicate Disjoint(cap: nat, i: nat, j: nat, n: nat)
    requires Fits(cap, cap, i, j, n)
  {
    forall x, y :: 0 <= x < n && 0 <= y < n ==> At(cap, i, x) != At(cap, j, y)
  }

  /** Each destination slot receives the item of its source slot. */
  lemma {:induction false} CopiedAt<T>(s: seq<T>, d: seq<T>, i: nat, j: nat, n: nat, k: nat)
    requires Fits(|s|, |d|, i, j, n) && k < n
    ensures Copied(s, d, i, j, n)[At(|d|, j, k)] == s[At(|s|, i, k)]
  {
    if k < n - 1 { CopiedAt(s, d, i, j, n - 1, k); }
  }

  /** No other slot changes. */
  lemma {:induction false} CopiedElsewhere<T>(s: seq<T>, d: seq<T>, i: nat, j: nat, n: nat, slot: nat)
    requires Fits(|s|, |d|, i, j, n) && slot < |d|
    requires forall k :: 0 <= k < n ==> At(|d|, j, k) != slot
    ensures Copied(s, d, i, j, n)[slot] == d[slot]
  {
    if n > 0 { CopiedElsewhere(s, d, i, j, n - 1, slot); }
  }

  /** A self-transfer leaves its source slots alone. */
  lemma SourceIntact<T>(s: seq<T>, i: nat, j: nat, n: nat, m: nat, k: nat)
    requires Fits(|s|, |s|, i, j, n) && m <= n && k < n && Disjoint(|s|, i, j, n)
    ensures Copied(s, s, i, j, m)[At(|s|, i, k)] == s[At(|s|, i, k)]
  {
    CopiedElsewhere(s, s, i, j, m, At(|s|, i, k));
  }

  /** One contiguous copy. */
  function Blit<T>(s: seq<T>, d: seq<T>, so: nat, to: nat, n: nat): (r: seq<T>)
    requires so + n <= |s| && to + n <= |d|
    ensures |r| == |d|
  {
    seq(|d|, k requires 0 <= k < |d| => if to <= k < to + n then s[so + (k - to)] else d[k])
  }

  lemma BlitMore<T>(s: seq<T>, d: seq<T>, so: nat, to: nat, n: nat)
    requires 0 < n && so + n <= |s| && to + n <= |d|
    ensures Blit(s, d, so, to, n) == Blit(s, d, so, to, n - 1)[to + n - 1 := s[so + n - 1]]
  {
  }

  /** Only the items of the chunk matter. */
  lemma BlitSource<T>(s: seq<T>, s': seq<T>, d: seq<T>, so: nat, to: nat, n: nat)
    requires so + n <= |s| == |s'| && to + n <= |d|
    requires forall k :: so <= k < so + n ==> s[k] == s'[k]
    ensures Blit(s, d, so, to, n) == Blit(s', d, so, to, n)
  {
  }

  /** A chunk `a .. b` of a ring range from slot `i` that does not cross the wrap point. */
  predicate Straight(cap: nat, i: nat, n: nat, a: nat, b: nat) {
    b <= Split(cap, i, n) || Split(cap, i, n) <= a
  }

  /** Where a ring range of `n` slots from slot `i` on wraps. */
  function Split(cap: nat, i: nat, n: nat): int { Min(cap - i, n) }

  /** Item `k` of a chunk sits that many slots above the chunk's first slot. */
  lemma ChunkSlot(cap: nat, i: nat, n: nat, a: nat, b: nat, k: nat)
    requires i < cap && n <= cap && a <= k < b <= n && Straight(cap, i, n, a, b)
    ensures At(cap, i, k) == At(cap, i, a) + (k - a)
  {
  }

  lemma BlitNone<T>(s: seq<T>, d: seq<T>, so: nat, to: nat)
    requires so <= |s| && to <= |d|
    ensures Blit(s, d, so, to, 0) == d
  {
  }

  /** Copying on from item `a` to item `b` one at a time is one contiguous copy, as long as
      neither side wraps. */
  lemma {:induction false} CopiedChunk<T>(s: seq<T>, d: seq<T>, i: nat, j: nat, n: nat, a: nat, b: nat, so: nat, to: nat)
    requires Fits(|s|, |d|, i, j, n) && a <= b <= n && so + (b - a) <= |s| && to + (b - a) <= |d|
    requires forall k :: a <= k < b ==> At(|s|, i, k) == so + (k - a) && At(|d|, j, k) == to + (k - a)
    ensures Copied(s, d, i, j, b) == Blit(s, Copied(s, d, i, j, a), so, to, b - a)
    decreases b - a
  {
    var c := Copied(s, d, i, j, a);
    if a == b {
      BlitNone(s, c, so, to);
    } else {
      CopiedChunk(s, d, i, j, n, a, b - 1, so, to);
      BlitMore(s, c, so, to, b - a);
      assert At(|s|, i, b - 1) == so + (b - 1 - a) && At(|d|, j, b - 1) == to + (b - 1 - a);
    }
  }

  /** The masked index of a word position. */
  lemma MaskedIndex(bits: nat, cap: nat, x: nat)
    requires ValidSize(bits, cap)
    ensures cap > 0 && BitAnd(x, cap - 1) == x % cap && (x % Pow2(bits)) % cap == x % cap
  {
    var e: nat :| e < bits && cap == Pow2(e);
    MaskIsMod(x, e);
    Pow2Divides(e, bits);
    ModUnique(Pow2(bits), cap, Pow2(bits - e), 0);
    ModMod(x, Pow2(bits), cap);
  }

  lemma MaskedAt(bits: nat, cap: nat, i: nat, k: nat)
    requires ValidSize(bits, cap) && i < cap && k <= cap
    ensures BitAnd(i + k, cap - 1) == At(cap, i, k)
  {
    MaskedIndex(bits, cap, i + k);
    ModSmall(i, cap);
    AtIsMod(cap, i, k);
  }

  /** The slot that the code indexes for item `k` of a range at word `pos`. */
  lemma ItemIndex(bits: nat, cap: nat, pos: nat, k: nat)
    requires ValidSize(bits, cap) && cap > 0 && k <= cap
    ensures pos % cap < cap && BitAnd((pos + k) % Pow2(bits), cap - 1) == At(cap, pos % cap, k)
  {
    MaskedIndex(bits, cap, (pos + k) % Pow2(bits));
    MaskedIndex(bits, cap, pos + k);
    AtIsMod(cap, pos, k);
  }

  /** `transfer_items_scalar`: one item at a time, each position wrapped and masked. */
  method TransferScalar<T>(bits: nat, src: array<T>, srcPos: nat, dst: array<T>, dstPos: nat, count: nat)
    requires ValidSize(bits, src.Length) && ValidSize(bits, dst.Length) && src.Length > 0 && dst.Length > 0
    requires Fits(src.Length, dst.Length, srcPos % src.Length, dstPos % dst.Length, count)
    requires src == dst ==> Disjoint(src.Length, srcPos % src.Length, dstPos % dst.Length, count)
    modifies dst
    ensures dst[..] == Copied(old(src[..]), old(dst[..]), srcPos % src.Length, dstPos % dst.Length, count)
  {
    ghost var s, d, i, j := src[..], dst[..], srcPos % src.Length, dstPos % dst.Length;
    for offset := 0 to count
      invariant dst[..] == Copied(s, d, i, j, offset)
      invariant src != dst ==> src[..] == s
    {
      ItemIndex(bits, src.Length, srcPos, offset);
      ItemIndex(bits, dst.Length, dstPos, offset);
      if src == dst { SourceIntact(s, i, j, count, offset, offset); }
      var x := BitAnd((srcPos + offset) % Pow2(bits), src.Length - 1);
      var y := BitAnd((dstPos + offset) % Pow2(bits), dst.Length - 1);
      assert src[x] == src[..][x];
      dst[y] := src[x];
    }
  }

  const SMALL_CHUNK: nat := 8

  /** One chunk: an inline loop when it is small, else `ptr::copy_nonoverlapping`, which
      demands that the two ranges do not overlap. */
  method CopyChunk<T>(src: array<T>, so: nat, dst: array<T>, to: nat, len: nat)
    requires so + len <= src.Length && to + len <= dst.Length
    requires src == dst ==> so + len <= to || to + len <= so
    modifies dst
    ensures dst[..] == Blit(old(src[..]), old(dst[..]), so, to, len)
  {
    ghost var s, d := src[..], dst[..];
    if len <= SMALL_CHUNK {
      assert dst[..] == Blit(s, d, so, to, 0);
      for i := 0 to len
        invariant dst[..] == Blit(s, d, so, to, i)
        invariant src != dst ==> src[..] == s
      {
        BlitMore(s, d, so, to, i + 1);
        assert src[so + i] == src[..][so + i] == s[so + i];
        dst[to + i] := src[so + i];
      }
    } else {
      forall i | 0 <= i < len { dst[to + i] := src[so + i]; }
      assert dst[..] == Blit(s, d, so, to, len);
    }
  }

  /** The boundaries fit the ring. */
  predicate Bounded(cap: nat, bounds: seq<nat>) {
    |bounds| == 4 && bounds[0] <= bounds[1] <= bounds[2] <= bounds[3] <= cap
  }

  /** The two chunks do not overlap, by the test the code makes. */
  predicate Clear(cap: nat, i: nat, j: nat, bounds: seq<nat>, x: nat, y: nat)
    requires i < cap && j < cap && Bounded(cap, bounds) && x < 3 && y < 3
  {
    var a0, b0 := At(cap, i, bounds[x]), At(cap, j, bounds[y]);
    a0 + (bounds[x + 1] - bounds[x]) <= b0 || b0 + (bounds[y + 1] - bounds[y]) <= a0
  }

  /** The chunk boundaries of a transfer of `n` items: both wrap points, in order. */
  ghost predicate Cut(cs: nat, cd: nat, i: nat, j: nat, n: nat, bounds: seq<nat>) {
    && Fits(cs, cd, i, j, n) && 1 < n
    && |bounds| == 4 && bounds[0] == 0 && bounds[3] == n
    && bounds[1] == Min(Split(cs, i, n), Split(cd, j, n))
    && bounds[2] == Split(cs, i, n) + Split(cd, j, n) - bounds[1]
  }

  lemma CutFacts(cs: nat, cd: nat, i: nat, j: nat, n: nat, bounds: seq<nat>, x: nat)
    requires Cut(cs, cd, i, j, n, bounds) && x < 3
    ensures 0 <= bounds[x] <= bounds[x + 1] <= n
    ensures Straight(cs, i, n, bounds[x], bounds[x + 1]) && Straight(cd, j, n, bounds[x], bounds[x + 1])
  {
  }

  /** Chunks that share a slot fail the test. */
  lemma SharedSlotShows(cap: nat, i: nat, j: nat, n: nat, bounds: seq<nat>, x: nat, y: nat, k: nat, m: nat)
    requires Cut(cap, cap, i, j, n, bounds) && x < 3 && y < 3
    requires bounds[x] <= k < bounds[x + 1] <= n && bounds[y] <= m < bounds[y + 1] <= n
    requires At(cap, i, k) == At(cap, j, m)
    ensures !Clear(cap, i, j, bounds, x, y)
  {
    CutFacts(cap, cap, i, j, n, bounds, x);
    CutFacts(cap, cap, i, j, n, bounds, y);
    ChunkSlot(cap, i, n, bounds[x], bounds[x + 1], k);
    ChunkSlot(cap, j, n, bounds[y], bounds[y + 1], m);
  }

  /** Two non-empty chunks that fail the test share a slot. */
  lemma FailedTestShares(cap: nat, i: nat, j: nat, n: nat, bounds: seq<nat>, x: nat, y: nat)
    requires Cut(cap, cap, i, j, n, bounds) && x < 3 && y < 3
    requires bounds[x] < bounds[x + 1] && bounds[y] < bounds[y + 1]
    requires !Clear(cap, i, j, bounds, x, y)
    ensures !Disjoint(cap, i, j, n)
  {
    CutFacts(cap, cap, i, j, n, bounds, x);
    CutFacts(cap, cap, i, j, n, bounds, y);
    var a0, b0 := At(cap, i, bounds[x]), At(cap, j, bounds[y]);
    var slot := if a0 <= b0 then b0 else a0;
    var k, m := bounds[x] + (slot - a0), bounds[y] + (slot - b0);
    ChunkSlot(cap, i, n, bounds[x], bounds[x + 1], k);
    ChunkSlot(cap, j, n, bounds[y], bounds[y + 1], m);
    assert At(cap, i, k) == At(cap, j, m);
  }

  /** A chunk boundary strictly inside the other side's chunk lies one slot above an item of
      both ranges. */
  lemma InsideShares(cap: nat, i: nat, j: nat, n: nat, m: nat, a: nat, b: nat)
    requires Fits(cap, cap, i, j, n) && 0 < m <= n && a < b <= n && Straight(cap, j, n, a, b)
    requires At(cap, j, a) < At(cap, i, m) < At(cap, j, a) + (b - a)
    ensures exists k, k' :: 0 <= k < n && 0 <= k' < n && At(cap, i, k) == At(cap, j, k')
  {
    var k' := a + (At(cap, i, m) - 1 - At(cap, j, a));
    ChunkSlot(cap, j, n, a, b, k');
    assert At(cap, i, m - 1) == At(cap, j, k');
  }

  lemma DisjointIsClear(cap: nat, i: nat, j: nat, n: nat, bounds: seq<nat>, x: nat, y: nat)
    requires Cut(cap, cap, i, j, n, bounds) && x < 3 && y < 3 && Disjoint(cap, i, j, n)
    ensures Clear(cap, i, j, bounds, x, y)
  {
    CutFacts(cap, cap, i, j, n, bounds, x);
    CutFacts(cap, cap, i, j, n, bounds, y);
    if !Clear(cap, i, j, bounds, x, y) {
      if bounds[x] == bounds[x + 1] {
        InsideShares(cap, i, j, n, bounds[x], bounds[y], bounds[y + 1]);
      } else if bounds[y] == bounds[y + 1] {
        InsideShares(cap, j, i, n, bounds[y], bounds[x], bounds[x + 1]);
      } else {
        FailedTestShares(cap, i, j, n, bounds, x, y);
      }
    }
  }

  function ChunkOf(bounds: seq<nat>, k: nat): (x: nat)
    requires |bounds| == 4
    ensures x < 3
    ensures bounds[0] <= k < bounds[3] ==> bounds[x] <= k < bounds[x + 1]
  {
    if k < bounds[1] then 0 else if k < bounds[2] then 1 else 2
  }

  ghost predicate RowClear(cap: nat, i: nat, j: nat, bounds: seq<nat>, x: nat, m: nat)
    requires i < cap && j < cap && Bounded(cap, bounds) && x < 3 && m <= 3
  {
    forall y :: 0 <= y < m ==> Clear(cap, i, j, bounds, x, y)
  }

  ghost predicate AllClear(cap: nat, i: nat, j: nat, bounds: seq<nat>, m: nat)
    requires i < cap && j < cap && Bounded(cap, bounds) && m <= 3
  {
    forall x :: 0 <= x < m ==> RowClear(cap, i, j, bounds, x, 3)
  }

  /** The code's test of all nine pairs of chunks passes exactly when no source slot is a
      destination slot: empty chunks never raise a false alarm. */
  lemma TestIffDisjoint(cap: nat, i: nat, j: nat, n: nat, bounds: seq<nat>)
    requires Cut(cap, cap, i, j, n, bounds)
    ensures AllClear(cap, i, j, bounds, 3) <==> Disjoint(cap, i, j, n)
  {
    if Disjoint(cap, i, j, n) {
      forall x | 0 <= x < 3 ensures RowClear(cap, i, j, bounds, x, 3) {
        forall y | 0 <= y < 3 ensures Clear(cap, i, j, bounds, x, y) { DisjointIsClear(cap, i, j, n, bounds, x, y); }
      }
    } else {
      var k, m :| 0 <= k < n && 0 <= m < n && At(cap, i, k) == At(cap, j, m);
      var x, y := ChunkOf(bounds, k), ChunkOf(bounds, m);
      SharedSlotShows(cap, i, j, n, bounds, x, y, k, m);
      assert !RowClear(cap, i, j, bounds, x, 3);
    }
  }

  /** The debug check of `transfer_items` on a self-steal. */
  method TestDisjoint(bits: nat, cap: nat, i: nat, j: nat, bounds: seq<nat>) returns (disjoint: bool)
    requires ValidSize(bits, cap) && i < cap && j < cap && Bounded(cap, bounds)
    ensures disjoint <==> AllClear(cap, i, j, bounds, 3)
  {
    disjoint := true;
    for x := 0 to 3
      invariant disjoint <==> AllClear(cap, i, j, bounds, x)
    {
      MaskedAt(bits, cap, i, bounds[x]);
      var a0 := BitAnd(i + bounds[x], cap - 1);
      var al := bounds[x + 1] - bounds[x];
      for y := 0 to 3
        invariant disjoint <==> AllClear(cap, i, j, bounds, x) && RowClear(cap, i, j, bounds, x, y)
      {
        MaskedAt(bits, cap, j, bounds[y]);
        var b0 := BitAnd(j + bounds[y], cap - 1);
        var bl := bounds[y + 1] - bounds[y];
        disjoint := disjoint && (a0 + al <= b0 || b0 + bl <= a0);
        assert Clear(cap, i, j, bounds, x, y) <==> a0 + al <= b0 || b0 + bl <= a0;
      }
    }
  }

  /** One chunk of the bulk copy extends the transfer from item `a` to item `b`. */
  lemma ChunkExtends<T>(s: seq<T>, d: seq<T>, i: nat, j: nat, n: nat, a: nat, b: nat)
    requires Fits(|s|, |d|, i, j, n) && a < b <= n
    requires Straight(|s|, i, n, a, b) && Straight(|d|, j, n, a, b)
    ensures At(|s|, i, a) + (b - a) <= |s| && At(|d|, j, a) + (b - a) <= |d|
    ensures Copied(s, d, i, j, b) == Blit(s, Copied(s, d, i, j, a), At(|s|, i, a), At(|d|, j, a), b - a)
  {
    forall k | a <= k < b ensures At(|s|, i, k) == At(|s|, i, a) + (k - a) && At(|d|, j, k) == At(|d|, j, a) + (k - a) {
      ChunkSlot(|s|, i, n, a, b, k);
      ChunkSlot(|d|, j, n, a, b, k);
    }
    CopiedChunk(s, d, i, j, n, a, b, At(|s|, i, a), At(|d|, j, a));
  }

  lemma ChunkIntact<T>(s: seq<T>, i: nat, j: nat, n: nat, a: nat, b: nat, k: nat)
    requires Fits(|s|, |s|, i, j, n) && a < b <= n && Disjoint(|s|, i, j, n)
    requires Straight(|s|, i, n, a, b) && At(|s|, i, a) <= k < At(|s|, i, a) + (b - a) <= |s|
    ensures Copied(s, s, i, j, a)[k] == s[k]
  {
    var m := a + (k - At(|s|, i, a));
    ChunkSlot(|s|, i, n, a, b, m);
    SourceIntact(s, i, j, n, a, m);
  }

  lemma ChunkUntouched<T>(s: seq<T>, i: nat, j: nat, n: nat, a: nat, b: nat)
    requires Fits(|s|, |s|, i, j, n) && a < b <= n && Disjoint(|s|, i, j, n)
    requires Straight(|s|, i, n, a, b) && At(|s|, i, a) + (b - a) <= |s|
    ensures forall k :: At(|s|, i, a) <= k < At(|s|, i, a) + (b - a) ==> s[k] == Copied(s, s, i, j, a)[k]
  {
    forall k | At(|s|, i, a) <= k < At(|s|, i, a) + (b - a) ensures s[k] == Copied(s, s, i, j, a)[k] {
      ChunkIntact(s, i, j, n, a, b, k);
    }
  }

  /** The same within one ring, whose source slots are still intact. */
  lemma SelfChunkExtends<T>(s: seq<T>, i: nat, j: nat, n: nat, a: nat, b: nat)
    requires Fits(|s|, |s|, i, j, n) && a < b <= n && Disjoint(|s|, i, j, n)
    requires Straight(|s|, i, n, a, b) && Straight(|s|, j, n, a, b)
    ensures At(|s|, i, a) + (b - a) <= |s| && At(|s|, j, a) + (b - a) <= |s|
    ensures var c := Copied(s, s, i, j, a);
      Copied(s, s, i, j, b) == Blit(c, c, At(|s|, i, a), At(|s|, j, a), b - a)
  {
    var c, so, to := Copied(s, s, i, j, a), At(|s|, i, a), At(|s|, j, a);
    ChunkExtends(s, s, i, j, n, a, b);
    ChunkUntouched(s, i, j, n, a, b);
    BlitSource(s, c, c, so, to, b - a);
  }

  /** `transfer_items` as shipped. The three chunks replace exactly what the per-item loop
      replaces; every index is in bounds, the copies never overlap, and the debug check of a
      self-steal passes. */
  method TransferBulk<T>(bits: nat, src: array<T>, srcPos: nat, dst: array<T>, dstPos: nat, count: nat)
    requires ValidSize(bits, src.Length) && ValidSize(bits, dst.Length) && src.Length > 0 && dst.Length > 0
    requires Fits(src.Length, dst.Length, srcPos % src.Length, dstPos % dst.Length, count)
    requires src == dst ==> Disjoint(src.Length, srcPos % src.Length, dstPos % dst.Length, count)
    modifies dst
    ensures dst[..] == Copied(old(src[..]), old(dst[..]), srcPos % src.Length, dstPos % dst.Length, count)
  {
    MaskedIndex(bits, src.Length, srcPos);
    MaskedIndex(bits, dst.Length, dstPos);
    var i := BitAnd(srcPos, src.Length - 1);
    var j := BitAnd(dstPos, dst.Length - 1);
    if count <= 1 {
      if count == 1 { dst[j] := src[i]; }
    } else {
      CopyChunks(bits, src, i, dst, j, count);
    }
  }

  /** What chunk `x` must do, when the source buffer now holds `now`: the original `s`, or, in
      a self-steal, what the transfer has made of it. */
  lemma NextChunk<T>(s: seq<T>, d: seq<T>, now: seq<T>, i: nat, j: nat, n: nat, bounds: seq<nat>, x: nat, self: bool)
    requires Cut(|s|, |d|, i, j, n, bounds) && x < 3 && bounds[x] < bounds[x + 1] <= n
    requires if self then s == d && now == Copied(s, d, i, j, bounds[x]) && Disjoint(|s|, i, j, n) else now == s
    ensures var so, to, len := At(|s|, i, bounds[x]), At(|d|, j, bounds[x]), bounds[x + 1] - bounds[x];
      && so + len <= |s| == |now| && to + len <= |d|
      && (self ==> so + len <= to || to + len <= so)
      && Copied(s, d, i, j, bounds[x + 1]) == Blit(now, Copied(s, d, i, j, bounds[x]), so, to, len)
  {
    CutFacts(|s|, |d|, i, j, n, bounds, x);
    if self {
      ChunkApart(|s|, i, j, n, bounds, x);
      SelfChunkExtends(s, i, j, n, bounds[x], bounds[x + 1]);
    } else {
      ChunkExtends(s, d, i, j, n, bounds[x], bounds[x + 1]);
    }
  }

  lemma ChunkApart(cap: nat, i: nat, j: nat, n: nat, bounds: seq<nat>, x: nat)
    requires Cut(cap, cap, i, j, n, bounds) && x < 3 && Disjoint(cap, i, j, n) && bounds[x] <= bounds[x + 1] <= n
    ensures var so, to, len := At(cap, i, bounds[x]), At(cap, j, bounds[x]), bounds[x + 1] - bounds[x];
      so + len <= to || to + len <= so
  {
    DisjointIsClear(cap, i, j, n, bounds, x, x);
  }

  /** The loop body of the bulk copy: one chunk, if it is not empty. */
  method CopyMasked<T>(bits: nat, src: array<T>, i: nat, dst: array<T>, j: nat, a: nat, b: nat)
    requires ValidSize(bits, src.Length) && ValidSize(bits, dst.Length)
    requires i < src.Length && j < dst.Length && a < b && a <= src.Length && a <= dst.Length
    requires At(src.Length, i, a) + (b - a) <= src.Length && At(dst.Length, j, a) + (b - a) <= dst.Length
    requires src == dst ==> At(src.Length, i, a) + (b - a) <= At(dst.Length, j, a) || At(dst.Length, j, a) + (b - a) <= At(src.Length, i, a)
    modifies dst
    ensures dst[..] == Blit(old(src[..]), old(dst[..]), At(src.Length, i, a), At(dst.Length, j, a), b - a)
  {
    MaskedAt(bits, src.Length, i, a);
    MaskedAt(bits, dst.Length, j, a);
    CopyChunk(src, BitAnd(i + a, src.Length - 1), dst, BitAnd(j + a, dst.Length - 1), b - a);
  }

  method CopyChunks<T>(bits: nat, src: array<T>, i: nat, dst: array<T>, j: nat, n: nat)
    requires ValidSize(bits, src.Length) && ValidSize(bits, dst.Length)
    requires Fits(src.Length, dst.Length, i, j, n) && n > 1
    requires src == dst ==> Disjoint(src.Length, i, j, n)
    modifies dst
    ensures dst[..] == Copied(old(src[..]), old(dst[..]), i, j, n)
  {
    var bounds := ChunkBounds(src.Length, dst.Length, i, j, n);
    if src == dst {
      var passed := TestDisjoint(bits, src.Length, i, j, bounds);
      TestIffDisjoint(src.Length, i, j, n, bounds);
      assert passed;
    }
    ghost var s, d, self := src[..], dst[..], src == dst;
    StagesWork(s, d, i, j, n, bounds, self);
    CopyBetween(bits, src, i, dst, j, bounds, s, Stages(s, d, i, j, n, bounds), self);
  }

  /** What chunk `x` does, if it is not empty: a contiguous copy within both buffers that takes
      the destination from one stage to the next. `s` is the source as it was; in a self-steal
      the source is the stage itself. */
  ghost predicate ChunkWorks<T>(s: seq<T>, i: nat, j: nat, bounds: seq<nat>, stages: seq<seq<T>>, x: nat, self: bool)
    requires |bounds| == |stages| == 4 && x < 3
  {
    var now := if self then stages[x] else s;
    if bounds[x] < bounds[x + 1] then
      var len := bounds[x + 1] - bounds[x];
      && i < |s| == |now| && j < |stages[x]| && bounds[x] <= |s| && bounds[x] <= |stages[x]|
      && var so, to := At(|s|, i, bounds[x]), At(|stages[x]|, j, bounds[x]);
      && so + len <= |s| && to + len <= |stages[x]|
      && (self ==> so + len <= to || to + len <= so)
      && stages[x + 1] == Blit(now, stages[x], so, to, len)
    else bounds[x] == bounds[x + 1] && stages[x + 1] == stages[x]
  }

  lemma EveryChunkWorks<T>(s: seq<T>, d: seq<T>, i: nat, j: nat, n: nat, bounds: seq<nat>, stages: seq<seq<T>>, x: nat, self: bool)
    requires Cut(|s|, |d|, i, j, n, bounds) && x < 3 && (self ==> s == d && Disjoint(|s|, i, j, n))
    requires bounds[x] <= n && bounds[x + 1] <= n && |stages| == 4
    requires stages[x] == Copied(s, d, i, j, bounds[x]) && stages[x + 1] == Copied(s, d, i, j, bounds[x + 1])
    ensures ChunkWorks(s, i, j, bounds, stages, x, self)
  {
    CutFacts(|s|, |d|, i, j, n, bounds, x);
    if bounds[x] < bounds[x + 1] {
      NextChunk(s, d, if self then stages[x] else s, i, j, n, bounds, x, self);
    }
  }

  /** The stages of the destination, at the chunk boundaries. */
  ghost function Stages<T>(s: seq<T>, d: seq<T>, i: nat, j: nat, n: nat, bounds: seq<nat>): (r: seq<seq<T>>)
    requires Cut(|s|, |d|, i, j, n, bounds)
    ensures |r| == 4
  {
    CutFacts(|s|, |d|, i, j, n, bounds, 0);
    CutFacts(|s|, |d|, i, j, n, bounds, 1);
    [Copied(s, d, i, j, bounds[0]), Copied(s, d, i, j, bounds[1]), Copied(s, d, i, j, bounds[2]), Copied(s, d, i, j, bounds[3])]
  }

  lemma StagesWork<T>(s: seq<T>, d: seq<T>, i: nat, j: nat, n: nat, bounds: seq<nat>, self: bool)
    requires Cut(|s|, |d|, i, j, n, bounds) && (self ==> s == d && Disjoint(|s|, i, j, n))
    ensures var stages := Stages(s, d, i, j, n, bounds);
      && stages[0] == d && stages[3] == Copied(s, d, i, j, n)
      && forall x :: 0 <= x < 3 ==> ChunkWorks(s, i, j, bounds, stages, x, self)
  {
    var stages := Stages(s, d, i, j, n, bounds);
    forall x | 0 <= x < 3 ensures ChunkWorks(s, i, j, bounds, stages, x, self) {
      CutFacts(|s|, |d|, i, j, n, bounds, x);
      EveryChunkWorks(s, d, i, j, n, bounds, stages, x, self);
    }
  }

  /** The loop over the chunks. */
  method CopyBetween<T>(bits: nat, src: array<T>, i: nat, dst: array<T>, j: nat, bounds: seq<nat>, ghost s: seq<T>, ghost stages: seq<seq<T>>, ghost self: bool)
    requires ValidSize(bits, src.Length) && ValidSize(bits, dst.Length) && |bounds| == |stages| == 4
    requires s == src[..] && stages[0] == dst[..] && self == (src == dst)
    requires forall x :: 0 <= x < 3 ==> ChunkWorks(s, i, j, bounds, stages, x, self)
    modifies dst
    ensures dst[..] == stages[3]
  {
    for x := 0 to 3
      invariant dst[..] == stages[x]
      invariant src != dst ==> src[..] == s
    {
      assert ChunkWorks(s, i, j, bounds, stages, x, self);
      if bounds[x] != bounds[x + 1] {
        CopyMasked(bits, src, i, dst, j, bounds[x], bounds[x + 1]);
      }
    }
  }

  /** Both wrap points, in order. */
  method ChunkBounds(cs: nat, cd: nat, i: nat, j: nat, n: nat) returns (bounds: seq<nat>)
    requires Fits(cs, cd, i, j, n) && n > 1
    ensures Cut(cs, cd, i, j, n, bounds)
  {
    var sp := Min(cs - i, n);
    var dp := Min(cd - j, n);
    bounds := if sp <= dp then [0, sp, dp, n] else [0, dp, sp, n];
  }
}

/** What the bulk copy demands of its callers holds whenever a steal reaches it. */
module StealTransfer {
  import opened Words
  import opened Transfer
  import LifoMachine
  import LifoSafety
  import FifoMachine
  import FifoSafety

  /** The slots of one ring window: `n` read from `from` on, `n` written from `to` on, and the
      slot after the read ones. */
  lemma WindowDisjoint(cap: nat, from: nat, to: nat, n: nat)
    requires 0 < cap && n <= cap && from + n <= to && to + n <= from + cap
    ensures from % cap < cap && to % cap < cap && Disjoint(cap, from % cap, to % cap, n)
  {
    AtIsMod(cap, from, 0);
    AtIsMod(cap, to, 0);
    forall x, y | 0 <= x < n && 0 <= y < n ensures At(cap, from % cap, x) != At(cap, to % cap, y) {
      AtIsMod(cap, from, x);
      AtIsMod(cap, to, y);
      if (from + x) % cap == (to + y) % cap { ModNear(from + x, to + y, cap); }
    }
  }

  lemma LastSpared(cap: nat, from: nat, to: nat, n: nat)
    requires 0 < cap && n <= cap && from + n < to && to + n <= from + cap
    ensures from % cap < cap && to % cap < cap && forall k :: 0 <= k < n ==> At(cap, to % cap, k) != At(cap, from % cap, n)
  {
    AtIsMod(cap, from, n);
    forall k | 0 <= k < n ensures At(cap, to % cap, k) != At(cap, from % cap, n) {
      AtIsMod(cap, to, k);
      if (to + k) % cap == (from + n) % cap { ModNear(to + k, from + n, cap); }
    }
  }

  /** So that item is still there after the copy. */
  lemma SparedItem<T>(memory: seq<T>, cap: nat, from: nat, to: nat, n: nat)
    requires 0 < cap == |memory| && n <= cap && from + n < to && to + n <= from + cap
    requires Transfer.Fits(cap, cap, from % cap, to % cap, n)
    ensures Transfer.Copied(memory, memory, from % cap, to % cap, n)[(from + n) % cap] == memory[(from + n) % cap]
  {
    LastSpared(cap, from, to, n);
    AtIsMod(cap, from, n);
    CopiedElsewhere(memory, memory, from % cap, to % cap, n, (from + n) % cap);
  }

  lemma SlotBound(cap: nat, pos: int)
    requires cap > 0
    ensures 0 <= pos % cap < cap
  {
  }

  /** A LIFO steal that has booked its items: the transfer fits both rings; in a self-steal it
      is disjoint, and it spares the item that `steal_and_pop` returns afterwards. */
  lemma LifoTransferIsSafe(w: nat, queues: seq<LifoMachine.Queue>, a: nat, m: LifoMachine.Move)
    requires LifoSafety.QueuesInv(w, queues) && LifoSafety.AgentInv(queues, a, LifoMachine.Take(m, 0)) && m.to.Into?
    ensures 0 < queues[m.src].cap && 0 < queues[m.to.r.q].cap && 0 <= LifoMachine.Transfer(m)
    ensures var cs, cd, n := queues[m.src].cap, queues[m.to.r.q].cap, LifoMachine.Transfer(m);
      && Fits(cs, cd, m.from % cs, m.to.r.tail % cd, n)
      && (m.src == m.to.r.q ==> Disjoint(cs, m.from % cs, m.to.r.tail % cs, n))
      && (m.src == m.to.r.q && m.to.keepLast ==>
            forall k :: 0 <= k < n ==> At(cs, m.to.r.tail % cs, k) != At(cs, m.from % cs, n))
  {
    var S, D, n := queues[m.src], queues[m.to.r.q], LifoMachine.Transfer(m);
    assert LifoSafety.QueueInv(w, S) && LifoSafety.QueueInv(w, D);
    SlotBound(S.cap, m.from);
    SlotBound(D.cap, m.to.r.tail);
    if m.src == m.to.r.q {
      WindowDisjoint(S.cap, m.from, m.to.r.tail, n);
      if m.to.keepLast { LastSpared(S.cap, m.from, m.to.r.tail, n); }
    }
  }

  /** The same for a FIFO steal. */
  lemma FifoTransferIsSafe(w: nat, queues: seq<FifoMachine.Queue>, a: nat, m: FifoMachine.Move)
    requires FifoSafety.QueuesInv(w, queues) && FifoSafety.AgentInv(queues, a, FifoMachine.Take(m, 0)) && m.to.Into?
    ensures 0 < queues[m.src].cap && 0 < queues[m.to.r.q].cap && 0 <= FifoMachine.Transfer(m)
    ensures var cs, cd, n := queues[m.src].cap, queues[m.to.r.q].cap, FifoMachine.Transfer(m);
      && Fits(cs, cd, m.from % cs, m.to.r.tail % cd, n)
      && (m.src == m.to.r.q ==> Disjoint(cs, m.from % cs, m.to.r.tail % cs, n))
      && (m.src == m.to.r.q && m.to.keepLast ==>
            forall k :: 0 <= k < n ==> At(cs, m.to.r.tail % cs, k) != At(cs, m.from % cs, n))
  {
    var S, D, n := queues[m.src], queues[m.to.r.q], FifoMachine.Transfer(m);
    assert FifoSafety.QueueInv(w, S) && FifoSafety.QueueInv(w, D);
    SlotBound(S.cap, m.from);
    SlotBound(D.cap, m.to.r.tail);
    if m.src == m.to.r.q {
      WindowDisjoint(S.cap, m.from, m.to.r.tail, n);
      if m.to.keepLast { LastSpared(S.cap, m.from, m.to.r.tail, n); }
    }
  }
}
