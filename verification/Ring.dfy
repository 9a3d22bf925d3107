/** A ring of slots indexed by unbounded positions, and the multiset of items it holds. */
module Ring {
  import opened Words

  /** Items are opaque identities. */
  type Item = int

  /** `Vacant` is a slot whose item was moved out, or that was never written. */
  datatype Slot = Vacant | Held(item: Item)

  /** The slot that a position falls on. */
  function Cell(buffer: seq<Slot>, p: int): Slot
    requires |buffer| > 0
  {
    buffer[p % |buffer|]
  }

  function Write(buffer: seq<Slot>, p: int, slot: Slot): (r: seq<Slot>)
    requires |buffer| > 0
    ensures |r| == |buffer|
  {
    buffer[p % |buffer| := slot]
  }

  /** A write changes exactly its own position within any window of one ring length. */
  lemma CellWrite(buffer: seq<Slot>, p: int, slot: Slot, p': int)
    requires |buffer| > 0 && 0 - |buffer| < p - p' < |buffer|
    ensures Cell(Write(buffer, p, slot), p') == if p == p' then slot else Cell(buffer, p')
  {
    if p % |buffer| == p' % |buffer| {
      ModNear(p, p', |buffer|);
    }
  }

  lemma CellAlias(buffer: seq<Slot>, p: int)
    requires |buffer| > 0
    ensures Cell(buffer, p + |buffer|) == Cell(buffer, p)
  {
    ModShift(p, |buffer|, 1);
  }

  /** A word names the same slot as the position it was reduced from. */
  lemma CellWord(buffer: seq<Slot>, p: int, w: nat)
    requires |buffer| > 0 && w > 0 && w % |buffer| == 0
    ensures Cell(buffer, p % w) == Cell(buffer, p)
    ensures forall x :: Write(buffer, p % w, x) == Write(buffer, p, x)
  {
    ModMod(p, w, |buffer|);
  }

  /** How many times an item occurs in a slot. */
  function One(slot: Slot, x: Item): nat {
    if slot == Held(x) then 1 else 0
  }

  /** How many times an item occurs in a buffer. */
  function Tally(buffer: seq<Slot>, x: Item): nat {
    if buffer == [] then 0 else One(buffer[0], x) + Tally(buffer[1..], x)
  }

  lemma {:induction false} TallyUpdate(buffer: seq<Slot>, i: nat, slot: Slot, x: Item)
    requires i < |buffer|
    ensures Tally(buffer[i := slot], x) + One(buffer[i], x) == Tally(buffer, x) + One(slot, x)
  {
    var b' := buffer[i := slot];
    if i == 0 {
      assert b'[1..] == buffer[1..];
    } else {
      TallyUpdate(buffer[1..], i - 1, slot, x);
      assert b'[1..] == buffer[1..][i - 1 := slot];
    }
  }

  lemma TallyWrite(buffer: seq<Slot>, p: int, slot: Slot, x: Item)
    requires |buffer| > 0
    ensures Tally(Write(buffer, p, slot), x) + One(Cell(buffer, p), x) == Tally(buffer, x) + One(slot, x)
  {
    TallyUpdate(buffer, p % |buffer|, slot, x);
  }

  /** The items at consecutive positions, oldest first. */
  function Items(buffer: seq<Slot>, from: int, n: nat): (r: seq<Item>)
    requires |buffer| > 0
    ensures |r| == n
  {
    seq(n, i requires 0 <= i < n => ItemAt(buffer, from + i))
  }

  function ItemAt(buffer: seq<Slot>, p: int): Item
    requires |buffer| > 0
  {
    match Cell(buffer, p)
    case Held(x) => x
    case Vacant => 0
  }

  /** A write outside a run of positions leaves the run alone. */
  lemma ItemsWrite(buffer: seq<Slot>, from: int, n: nat, p: int, slot: Slot)
    requires |buffer| > 0 && (p < from || from + n <= p)
    requires from + n - |buffer| <= p && p < from + |buffer|
    ensures Items(Write(buffer, p, slot), from, n) == Items(buffer, from, n)
  {
    forall i | 0 <= i < n ensures Items(Write(buffer, p, slot), from, n)[i] == Items(buffer, from, n)[i] {
      CellWrite(buffer, p, slot, from + i);
      assert Items(buffer, from, n)[i] == ItemAt(buffer, from + i);
      assert Items(Write(buffer, p, slot), from, n)[i] == ItemAt(Write(buffer, p, slot), from + i);
    }
  }

  lemma ItemsOne(buffer: seq<Slot>, p: int)
    requires |buffer| > 0
    ensures Items(buffer, p, 1) == [ItemAt(buffer, p)]
  {
    assert Items(buffer, p, 1)[0] == ItemAt(buffer, p + 0);
  }

  lemma ItemsSplit(buffer: seq<Slot>, from: int, n: nat, m: nat)
    requires |buffer| > 0
    ensures Items(buffer, from, n + m) == Items(buffer, from, n) + Items(buffer, from + n, m)
    ensures Items(buffer, from, n + m)[..n] == Items(buffer, from, n)
    ensures Items(buffer, from, n + m)[n..] == Items(buffer, from + n, m)
  {
  }

  function Sum(ns: seq<nat>): nat {
    if ns == [] then 0 else ns[0] + Sum(ns[1..])
  }

  lemma {:induction false} SumUpdate(ns: seq<nat>, i: nat, n: nat)
    requires i < |ns|
    ensures Sum(ns[i := n]) + ns[i] == Sum(ns) + n
  {
    var ns' := ns[i := n];
    if i == 0 {
      assert ns'[1..] == ns[1..];
    } else {
      SumUpdate(ns[1..], i - 1, n);
      assert ns'[1..] == ns[1..][i - 1 := n];
    }
  }

  lemma {:induction false} SumZero(ns: seq<nat>)
    requires forall i :: 0 <= i < |ns| ==> ns[i] == 0
    ensures Sum(ns) == 0
  {
    if ns != [] { SumZero(ns[1..]); }
  }

  lemma {:induction false} TallyVacant(buffer: seq<Slot>, x: Item)
    requires forall i :: 0 <= i < |buffer| ==> buffer[i] == Vacant
    ensures Tally(buffer, x) == 0
  {
    if buffer != [] { TallyVacant(buffer[1..], x); }
  }

  /** Every slot of the ring lies at one position of the window above `base`. */
  lemma SlotPosition(cap: nat, base: int, i: nat) returns (p: int)
    requires i < cap
    ensures base <= p < base + cap && p % cap == i
  {
    p := base + (i - base) % cap;
    ModSub(i, base, cap);
    var k := (i - base) / cap;
    assert i - base == k * cap + (i - base) % cap;
    ModUnique(p, cap, -k, i);
  }

  /** What releasing `k` slots from `from` on leaves in the buffer, the items it releases, and
      how many of those slots were stale: their item had been moved out before, so that it is
      released a second time. */
  datatype Swept = Swept(buffer: seq<Slot>, dropped: seq<Item>, stale: nat)

  function Sweep(b: seq<Slot>, from: int, k: nat): (r: Swept)
    requires |b| > 0
    ensures |r.buffer| == |b|
  {
    if k == 0 then Swept(b, [], 0)
    else
      var r := Sweep(b, from, k - 1);
      var slot := Cell(r.buffer, from + k - 1);
      Swept(Write(r.buffer, from + k - 1, Vacant),
            if slot.Held? then r.dropped + [slot.item] else r.dropped,
            if slot.Held? then r.stale else r.stale + 1)
  }

  /** One more slot swept. */
  lemma SweepStep(now: seq<Slot>, p: int, b: seq<Slot>, from: int, k: nat, dropped: seq<Item>, stale: nat)
    requires |b| > 0 && Swept(now, dropped, stale) == Sweep(b, from, k) && p == from + k
    ensures var slot := Cell(now, p);
      Sweep(b, from, k + 1) == Swept(Write(now, p, Vacant), if slot.Held? then dropped + [slot.item] else dropped, if slot.Held? then stale else stale + 1)
  {
  }

  lemma {:induction false} SweepCells(b: seq<Slot>, from: int, k: nat)
    requires |b| > 0 && k <= |b|
    ensures forall p :: from <= p < from + |b| ==>
      Cell(Sweep(b, from, k).buffer, p) == if p < from + k then Vacant else Cell(b, p)
  {
    if k > 0 {
      SweepCells(b, from, k - 1);
      var r := Sweep(b, from, k - 1);
      forall p | from <= p < from + |b|
        ensures Cell(Sweep(b, from, k).buffer, p) == if p < from + k then Vacant else Cell(b, p)
      {
        CellWrite(r.buffer, from + k - 1, Vacant, p);
      }
    }
  }

  lemma SweepNext(b: seq<Slot>, from: int, k: nat)
    requires |b| > 0 && 0 < k <= |b|
    ensures var r, slot := Sweep(b, from, k - 1), Cell(b, from + k - 1);
      && Sweep(b, from, k).stale == (if slot.Held? then r.stale else r.stale + 1)
      && Sweep(b, from, k).dropped == if slot.Held? then r.dropped + [slot.item] else r.dropped
  {
    SweepCells(b, from, k - 1);
    assert Cell(Sweep(b, from, k - 1).buffer, from + k - 1) == Cell(b, from + k - 1);
  }

  /** If the first `m` slots are vacant and the others hold items, exactly `m` are stale and the
      items of the others are released in order. */
  lemma {:induction false} SweepStale(b: seq<Slot>, from: int, k: nat, m: nat)
    requires |b| > 0 && m <= k <= |b|
    requires forall p :: from <= p < from + k ==> (Cell(b, p).Held? <==> from + m <= p)
    ensures Sweep(b, from, k).stale == m && Sweep(b, from, k).dropped == Items(b, from + m, k - m)
  {
    if k > 0 {
      SweepNext(b, from, k);
      if m < k {
        SweepStale(b, from, k - 1, m);
        ItemsSplit(b, from + m, k - 1 - m, 1);
        ItemsOne(b, from + k - 1);
      } else {
        SweepStale(b, from, k - 1, m - 1);
      }
    }
  }

  lemma {:induction false} SweepTally(b: seq<Slot>, from: int, k: nat, x: Item)
    requires |b| > 0
    ensures multiset(Sweep(b, from, k).dropped)[x] + Tally(Sweep(b, from, k).buffer, x) == Tally(b, x)
  {
    if k > 0 {
      SweepTally(b, from, k - 1, x);
      TallyWrite(Sweep(b, from, k - 1).buffer, from + k - 1, Vacant, x);
    }
  }

  /** A sweep that leaves nothing releases every item there was. */
  lemma SweptAll(b: seq<Slot>, from: int, k: nat, x: Item)
    requires |b| > 0 && forall i :: 0 <= i < |b| ==> Sweep(b, from, k).buffer[i] == Vacant
    ensures multiset(Sweep(b, from, k).dropped)[x] == Tally(b, x)
  {
    SweepTally(b, from, k, x);
    TallyVacant(Sweep(b, from, k).buffer, x);
  }

  /** Reading `count` slots from word `start` on, each position wrapped: the words stand for the
      positions from `from` on. */
  method SweepWords(w: nat, buffer: array<Slot>, start: int, count: nat, ghost from: int) returns (dropped: seq<Item>, stale: nat)
    requires w > 0 && buffer.Length > 0 && w % buffer.Length == 0 && start == from % w
    modifies buffer
    ensures Swept(buffer[..], dropped, stale) == old(Sweep(buffer[..], from, count))
  {
    ghost var b := buffer[..];
    dropped, stale := [], 0;
    for offset := 0 to count
      invariant Swept(buffer[..], dropped, stale) == Sweep(b, from, offset)
    {
      SweepStep(buffer[..], from + offset, b, from, offset, dropped, stale);
      ModAdd(from, offset, w);
      ModMod(from + offset, w, buffer.Length);
      var slot := ReadAt(buffer, (start + offset) % w, from + offset);
      dropped, stale := if slot.Held? then dropped + [slot.item] else dropped, if slot.Held? then stale else stale + 1;
    }
  }

  /** `Queue::read_at`: move the item of the slot at word `pos` out. */
  method ReadAt(buffer: array<Slot>, pos: int, ghost p: int) returns (slot: Slot)
    requires buffer.Length > 0 && pos % buffer.Length == p % buffer.Length
    modifies buffer
    ensures slot == old(Cell(buffer[..], p))
    ensures buffer[..] == old(Write(buffer[..], p, Vacant))
  {
    var index := pos % buffer.Length;
    slot := buffer[index];
    buffer[index] := Vacant;
  }
}
