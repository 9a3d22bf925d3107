/** The FIFO queue in its own form: words and raw memory updated in place by one caller at a
    time, with the bulk copy that ships. `U` is the unbounded queue that the words stand for. */
module FifoWorker {
  import opened Words
  import opened Ring
  import opened Memory
  import opened FifoMachine
  import opened FifoSafety
  import opened FifoDeque
  import FifoWrap
  import Transfer
  import StealTransfer

  /** The words and the memory stand for `U`, and no owner call is in progress. */
  ghost predicate Shows(bits: nat, U: Queue, tail: int, worker: int, stealer: int, memory: seq<Item>) {
    var w := Pow2(bits);
    && ValidSize(bits, U.cap)
    && QueueInv(w, U) && U.owner.None?
    && tail == U.tail % w && worker == U.worker % w && stealer == U.stealer % w
    && Backs(memory, U.buffer)
  }

  /** The items an owner can still add. */
  function Spare(U: Queue): int { U.cap - (U.tail - U.stealer) }

  lemma WordsShow(bits: nat, U: Queue)
    requires QueueInv(Pow2(bits), U) && U.owner.None?
    ensures var w := Pow2(bits);
      && (U.tail % w - U.stealer % w) % w == U.tail - U.stealer
      && (U.tail % w - U.worker % w) % w == U.tail - U.worker
      && (U.tail % w == U.worker % w <==> U.tail == U.worker)
      && (U.stealer % w == U.worker % w <==> U.stealer == U.worker)
  {
    var w := Pow2(bits);
    FifoWrap.SameDistance(U.tail, U.stealer, w);
    FifoWrap.SameDistance(U.tail, U.worker, w);
    FifoWrap.SameWord(U.tail, U.worker, w);
    FifoWrap.SameWord(U.stealer, U.worker, w);
  }

  /** The owner side, taken for the duration of a call. */
  function Owned(U: Queue): Queue { U.(owner := Some(0)) }

  lemma OwnedView(U: Queue)
    requires |U.buffer| > 0
    ensures ViewOf(Owned(U)) == ViewOf(U) && (U.ahead == 0 ==> ViewOf(U).above == [])
  {
  }

  /** `U` with the items written above its tail, not yet published. */
  function FilledAll(U: Queue, items: seq<Item>): (V: Queue)
    requires |U.buffer| > 0
    ensures |V.buffer| == |U.buffer| && V == U.(buffer := V.buffer, ahead := U.ahead + |items|)
  {
    if items == [] then U else Filled(FilledAll(U, items[..|items| - 1]), items[|items| - 1])
  }

  lemma {:induction false} FilledAllInv(w: nat, U: Queue, items: seq<Item>)
    requires QueueInv(w, U) && U.owner.Some? && U.reading.None? && U.tail + U.ahead + |items| <= U.stealer + U.cap
    ensures QueueInv(w, FilledAll(U, items))
    ensures ViewOf(FilledAll(U, items)) == ViewOf(U).(above := ViewOf(U).above + items)
  {
    if items == [] {
      assert ViewOf(U).above + items == ViewOf(U).above;
    } else {
      var V, x := FilledAll(U, items[..|items| - 1]), items[|items| - 1];
      FilledAllInv(w, U, items[..|items| - 1]);
      FilledInv(w, V, x);
      FillRefines(w, V, x);
      assert (ViewOf(U).above + items[..|items| - 1]) + [x] == ViewOf(U).above + items;
    }
  }

  /** `U` after the owner has added the items. */
  function Extended(U: Queue, items: seq<Item>): Queue
    requires |U.buffer| > 0
  {
    U.(buffer := FilledAll(Owned(U), items).buffer, tail := U.tail + |items|)
  }

  lemma ExtendedInv(w: nat, U: Queue, items: seq<Item>)
    requires QueueInv(w, U) && U.owner.None? && |items| <= Spare(U)
    ensures QueueInv(w, Extended(U, items))
  {
    var V := FilledAll(Owned(U), items);
    FilledAllInv(w, Owned(U), items);
    PublishedInv(w, V);
    assert Extended(U, items) == Published(V, V.tail + V.ahead);
  }

  lemma ExtendedView(w: nat, U: Queue, items: seq<Item>)
    requires QueueInv(w, U) && U.owner.None? && |items| <= Spare(U)
    ensures ViewOf(Extended(U, items)) == ViewOf(U).(fifo := ViewOf(U).fifo + items)
  {
    var V := FilledAll(Owned(U), items);
    FilledAllInv(w, Owned(U), items);
    OwnedView(U);
    assert ViewOf(V).above == items && ViewOf(V).fifo == ViewOf(U).fifo && ViewOf(V).loot == ViewOf(U).loot;
    AppendRefines(w, V);
    assert Extended(U, items) == Published(V, V.tail + V.ahead);
  }

  /** `U` after the owner has popped its oldest item. */
  function Popped(U: Queue): Queue
    requires |U.buffer| > 0
  {
    Vacate(U.(worker := U.worker + 1, stealer := if U.stealer == U.worker then U.stealer + 1 else U.stealer), U.worker)
  }

  lemma PoppedInv(w: nat, U: Queue)
    requires QueueInv(w, U) && U.owner.None? && U.worker < U.tail
    ensures QueueInv(w, Popped(U)) && Cell(U.buffer, U.worker).Held?
  {
    assert QueueInv(w, Owned(U)) by { assert Window(U); }
    ClaimedInv(w, Owned(U));
    CollectedInv(w, FifoSafety.Claimed(Owned(U)), U.worker);
    assert Popped(U) == Collected(FifoSafety.Claimed(Owned(U)), U.worker);
  }

  lemma PoppedView(w: nat, U: Queue)
    requires QueueInv(w, U) && U.owner.None? && U.worker < U.tail
    ensures var q := ViewOf(U).fifo;
      q != [] && ViewOf(Popped(U)) == ViewOf(U).(fifo := q[1..]) && ItemAt(U.buffer, U.worker) == q[0]
  {
    assert QueueInv(w, Owned(U)) by { assert Window(U); }
    ClaimedInv(w, Owned(U));
    PopRefines(w, Owned(U));
    ReadRefines(w, FifoSafety.Claimed(Owned(U)), U.worker);
    assert Popped(U) == Collected(FifoSafety.Claimed(Owned(U)), U.worker);
  }

  /** Popping the oldest item. */
  lemma PopShows(bits: nat, U: Queue, tail: int, worker: int, stealer: int, memory: seq<Item>)
    requires Shows(bits, U, tail, worker, stealer, memory) && U.worker < U.tail
    ensures var w := Pow2(bits);
      Shows(bits, Popped(U), tail, (worker + 1) % w, (stealer + (if stealer == worker then 1 else 0)) % w, memory)
    ensures BitAnd(worker, U.cap - 1) == U.worker % U.cap && memory[U.worker % U.cap] == ItemAt(U.buffer, U.worker)
  {
    WordsShow(bits, U);
    PoppedInv(Pow2(bits), U);
    AddWords(U.worker, 1, Pow2(bits), worker);
    AddWords(U.stealer, 1, Pow2(bits), stealer);
    AddWords(U.stealer, 0, Pow2(bits), stealer);
    Index(bits, U.cap, U.worker);
    BacksRead(memory, U.buffer, U.worker);
    BacksVacate(memory, U.buffer, U.worker);
  }

  lemma GrownShows(bits: nat, U: Queue, V: Queue, tail: int, tail': int, worker: int, stealer: int, memory: seq<Item>, memory': seq<Item>, n: nat)
    requires Shows(bits, U, tail, worker, stealer, memory) && V == U.(buffer := V.buffer, tail := U.tail + n)
    requires QueueInv(Pow2(bits), V) && Backs(memory', V.buffer) && tail' == (tail + n) % Pow2(bits)
    ensures Shows(bits, V, tail', worker, stealer, memory')
  {
    AddWords(U.tail, n, Pow2(bits), tail);
  }

  lemma ExtendedShown(bits: nat, U: Queue, V: Queue, tail: int, worker: int, stealer: int, memory: seq<Item>, items: seq<Item>)
    requires Shows(bits, U, tail, worker, stealer, memory) && |items| <= Spare(U) && V == Extended(U, items)
    ensures QueueInv(Pow2(bits), V)
  {
    ExtendedInv(Pow2(bits), U, items);
  }

  lemma ExtendedShape(U: Queue, V: Queue, items: seq<Item>)
    requires |U.buffer| > 0 && V == Extended(U, items)
    ensures V == U.(buffer := V.buffer, tail := U.tail + |items|)
  {
  }

  /** Adding items, given memory that backs them above the tail. */
  lemma AddShows(bits: nat, U: Queue, V: Queue, tail: int, tail': int, worker: int, stealer: int, memory: seq<Item>, memory': seq<Item>, items: seq<Item>)
    requires Shows(bits, U, tail, worker, stealer, memory) && |items| <= Spare(U)
    requires Backs(memory', V.buffer) && tail' == (tail + |items|) % Pow2(bits) && V == Extended(U, items)
    ensures Shows(bits, V, tail', worker, stealer, memory')
  {
    ExtendedShown(bits, U, V, tail, worker, stealer, memory, items);
    ExtendedShape(U, V, items);
    GrownShows(bits, U, V, tail, tail', worker, stealer, memory, memory', |items|);
  }

  /** Writing one more item above the tail. */
  lemma FillBacks(U: Queue, items: seq<Item>, memory: seq<Item>, x: Item)
    requires |U.buffer| > 0 && U.ahead == 0 && Backs(memory, FilledAll(U, items).buffer)
    ensures Backs(memory[(U.tail + |items|) % |U.buffer| := x], FilledAll(U, items + [x]).buffer)
  {
    var V := FilledAll(U, items);
    assert (items + [x])[..|items|] == items;
    assert FilledAll(U, items + [x]) == Filled(V, x);
    BacksWrite(memory, V.buffer, U.tail + |items|, x);
  }

  /** `U` after its open steal has moved `k` more items out. */
  function LootedAll(U: Queue, k: nat): (V: Queue)
    requires |U.buffer| > 0
    ensures |V.buffer| == |U.buffer| && V == U.(buffer := V.buffer, moved := U.moved + k)
  {
    if k == 0 then U else Looted(LootedAll(U, k - 1))
  }

  lemma {:induction false} LootedAllInv(w: nat, U: Queue, memory: seq<Item>, k: nat)
    requires QueueInv(w, U) && U.thief.Some? && U.stealer + U.moved + k <= U.until && Backs(memory, U.buffer)
    ensures QueueInv(w, LootedAll(U, k)) && Backs(memory, LootedAll(U, k).buffer)
    ensures k <= |ViewOf(U).loot| && ViewOf(LootedAll(U, k)) == ViewOf(U).(loot := ViewOf(U).loot[k..])
  {
    if k > 0 {
      LootedAllInv(w, U, memory, k - 1);
      var V := LootedAll(U, k - 1);
      LootedInv(w, V);
      LootRefines(w, V);
      BacksVacate(memory, V.buffer, V.stealer + V.moved);
      assert ViewOf(U).loot[k - 1..][1..] == ViewOf(U).loot[k..];
    }
  }

  /** What a steal leaves of its source once all is moved out and completed. */
  lemma StolenShows(bits: nat, U: Queue, tail: int, worker: int, stealer: int, memory: seq<Item>)
    requires Shows(bits, U, tail, worker, stealer, memory) && U.thief.Some? && U.moved == 0
    ensures U.until - U.stealer >= 0
    ensures var V := Completed(LootedAll(U, U.until - U.stealer));
      Shows(bits, V, tail, worker, worker, memory) && ViewOf(V) == ViewOf(U).(loot := [])
  {
    var k := U.until - U.stealer;
    LootedAllInv(Pow2(bits), U, memory, k);
    CompletedInv(Pow2(bits), LootedAll(U, k));
  }

  lemma BookedShows(bits: nat, U: Queue, tail: int, worker: int, stealer: int, memory: seq<Item>, count: nat)
    requires Shows(bits, U, tail, worker, stealer, memory) && U.thief.None? && 1 <= count <= U.tail - U.worker
    ensures Shows(bits, Booked(U, 0, count), tail, (worker + count) % Pow2(bits), stealer, memory)
    ensures var q := ViewOf(U).fifo;
      count <= |q| && ViewOf(Booked(U, 0, count)) == ViewOf(U).(loot := q[..count], fifo := q[count..])
  {
    AddWords(U.worker, count, Pow2(bits), worker);
    BookedInv(Pow2(bits), U, 0, count);
    BookRefines(Pow2(bits), U, 0, count);
  }

  /** The memory of a booked item. */
  lemma LootMemory(w: nat, U: Queue, memory: seq<Item>, k: nat)
    requires QueueInv(w, U) && U.thief.Some? && U.moved == 0 && k < U.until - U.stealer && Backs(memory, U.buffer)
    ensures k < |ViewOf(U).loot| && memory[(U.stealer + k) % U.cap] == ViewOf(U).loot[k]
  {
    assert Live(U, U.stealer + k);
    assert Cell(U.buffer, U.stealer + k).Held?;
    BacksRead(memory, U.buffer, U.stealer + k);
  }

  lemma CopyStep(source: seq<Item>, from: nat, D: Queue, memory: seq<Item>, loot: seq<Item>, n: nat)
    requires 0 < n <= |source| && n <= |memory| == |D.buffer| && n <= |loot| && D.ahead == 0 && D.tail >= 0
    requires source[(from + (n - 1)) % |source|] == loot[n - 1]
    requires 0 <= from % |source| && 0 <= D.tail % |memory|
    requires Backs(Transfer.Copied(source, memory, from % |source|, D.tail % |memory|, n - 1), FilledAll(D, loot[..n - 1]).buffer)
    ensures Backs(Transfer.Copied(source, memory, from % |source|, D.tail % |memory|, n), FilledAll(D, loot[..n]).buffer)
  {
    Transfer.AtIsMod(|source|, from, n - 1);
    Transfer.AtIsMod(|memory|, D.tail, n - 1);
    FillBacks(D, loot[..n - 1], Transfer.Copied(source, memory, from % |source|, D.tail % |memory|, n - 1), loot[n - 1]);
    assert loot[..n - 1] + [loot[n - 1]] == loot[..n];
  }

  /** The copy of the first `n` booked items backs what they fill at the destination `D`, be it
      another queue or the source itself. */
  lemma {:induction false} CopyBacks(w: nat, U: Queue, source: seq<Item>, D: Queue, memory: seq<Item>, n: nat)
    requires QueueInv(w, U) && U.thief.Some? && U.moved == 0 && n <= U.until - U.stealer && Backs(source, U.buffer)
    requires QueueInv(w, D) && D.ahead == 0 && n <= D.cap && Backs(memory, D.buffer)
    requires n <= |ViewOf(U).loot| && n <= U.cap
    ensures 0 <= U.stealer % U.cap < U.cap && 0 <= D.tail % D.cap < D.cap
    ensures Backs(Transfer.Copied(source, memory, U.stealer % U.cap, D.tail % D.cap, n), FilledAll(D, ViewOf(U).loot[..n]).buffer)
  {
    StealTransfer.SlotBound(U.cap, U.stealer);
    StealTransfer.SlotBound(D.cap, D.tail);
    if n > 0 {
      CopyBacks(w, U, source, D, memory, n - 1);
      LootMemory(w, U, source, n - 1);
      CopyStep(source, U.stealer, D, memory, ViewOf(U).loot, n);
    }
  }

  /** Where the loop of `extend` stops. */
  lemma MaxTail(bits: nat, U: Queue, n: nat)
    requires QueueInv(Pow2(bits), U) && U.owner.None? && n <= Spare(U)
    ensures var w := Pow2(bits);
      && ((U.tail + n) % w == (U.stealer % w + U.cap) % w <==> n == Spare(U))
      && (n > 0 ==> ((U.tail + n - 1) % w + 1) % w == (U.tail + n) % w)
  {
    var w := Pow2(bits);
    ModAdd(U.stealer, U.cap, w);
    ModAdd(U.tail + n - 1, 1, w);
    if (U.tail + n) % w == (U.stealer + U.cap) % w { ModNear(U.tail + n, U.stealer + U.cap, w); }
  }

  lemma FillStep(bits: nat, U: Queue, items: seq<Item>, memory: seq<Item>, n: nat)
    requires ValidSize(bits, U.cap) && |U.buffer| == U.cap && U.ahead == 0 && n < |items|
    requires Backs(memory, FilledAll(Owned(U), items[..n]).buffer)
    ensures U.cap > 0 && 0 <= (U.tail + n) % Pow2(bits)
    ensures var i := BitAnd((U.tail + n) % Pow2(bits), U.cap - 1);
      0 <= i < U.cap && Backs(memory[i := items[n]], FilledAll(Owned(U), items[..n + 1]).buffer)
  {
    Index(bits, U.cap, U.tail + n);
    FillBacks(Owned(U), items[..n], memory, items[n]);
    assert items[..n] + [items[n]] == items[..n + 1];
  }

  /** The loop of `extend`. */
  method FillFrom(bits: nat, buffer: array<Item>, stealer: nat, tail0: nat, items: seq<Item>, ghost U: Queue) returns (n: nat, tail: nat)
    requires ValidSize(bits, U.cap) && QueueInv(Pow2(bits), U) && U.owner.None? && buffer.Length == U.cap
    requires Backs(buffer[..], U.buffer) && stealer == U.stealer % Pow2(bits) && tail0 == U.tail % Pow2(bits)
    modifies buffer
    ensures n == Min(|items|, Spare(U)) && tail == (U.tail + n) % Pow2(bits)
    ensures Backs(buffer[..], FilledAll(Owned(U), items[..n]).buffer)
  {
    var maxTail := (stealer + buffer.Length) % Pow2(bits);
    n, tail := 0, tail0;
    MaxTail(bits, U, 0);
    while n < |items| && tail != maxTail
      invariant n <= |items| && n <= Spare(U)
      invariant tail == (U.tail + n) % Pow2(bits)
      invariant tail == maxTail <==> n == Spare(U)
      invariant Backs(buffer[..], FilledAll(Owned(U), items[..n]).buffer)
    {
      FillStep(bits, U, items, buffer[..], n);
      MaxTail(bits, U, n + 1);
      var i := BitAnd(tail, buffer.Length - 1);
      buffer[i] := items[n];
      tail := (tail + 1) % Pow2(bits);
      n := n + 1;
    }
  }

  datatype Booking = Busy | Empty | Ok(stealerHead: nat, count: nat)

  class FifoQueue {
    const bits: nat
    const mask: nat
    const buffer: array<Item>
    var tail: nat
    var worker: nat
    var stealer: nat
    ghost var U: Queue

    ghost predicate Valid()
      reads this, buffer
    {
      && buffer.Length == U.cap == mask + 1
      && Shows(bits, U, tail, worker, stealer, buffer[..])
    }

    /** The items that can be popped or booked, oldest first. */
    ghost function Fifo(): seq<Item>
      reads this, buffer
      requires Valid()
    {
      ViewOf(U).fifo
    }

    /** The items an open steal has yet to move out. */
    ghost function Loot(): seq<Item>
      reads this, buffer
      requires Valid()
    {
      ViewOf(U).loot
    }

    /** `Worker::new`: the capacity is the least power of two that is no less than the minimum. */
    constructor (bits: nat, minCapacity: nat)
      requires bits > 0 && minCapacity <= Pow2(bits - 1)
      ensures Valid() && fresh(buffer) && this.bits == bits && mask + 1 == Pow2(CeilLog(minCapacity))
      ensures forall e :: minCapacity <= Pow2(e) <==> CeilLog(minCapacity) <= e
      ensures Fifo() == [] && Loot() == []
    {
      var exponent := CeilLog(minCapacity);
      CeilLogIsLeast(minCapacity, bits - 1);
      this.bits := bits;
      mask := Pow2(exponent) - 1;
      buffer := new Item[Pow2(exponent)](_ => 0);
      tail, worker, stealer := 0, 0, 0;
      U := NewQueue(Pow2(exponent));
      new;
      ModSmall(0, Pow2(bits));
      Pow2Below(exponent, bits);
      Pow2Divides(exponent, bits);
      ModUnique(Pow2(bits), Pow2(exponent), Pow2(bits - exponent), 0);
      forall e: nat ensures minCapacity <= Pow2(e) <==> CeilLog(minCapacity) <= e {
        CeilLogIsLeast(minCapacity, e);
      }
    }

    /** `spare_capacity`, and the free room that a steal into this queue reserves. */
    method SpareCapacity() returns (n: nat)
      requires Valid()
      ensures n == Spare(U) <= mask + 1
    {
      WordsShow(bits, U);
      var len := (tail - stealer) % Pow2(bits);
      n := mask + 1 - len;
    }

    /** `is_empty` */
    method IsEmpty() returns (empty: bool)
      requires Valid()
      ensures empty <==> Fifo() == []
    {
      WordsShow(bits, U);
      empty := tail == worker;
    }

    /** `push` */
    method Push(x: Item) returns (ok: bool)
      requires Valid()
      modifies this, buffer
      ensures Valid() && (ok <==> old(Spare(U)) > 0)
      ensures Fifo() == (if ok then old(Fifo()) + [x] else old(Fifo())) && Loot() == old(Loot())
    {
      WordsShow(bits, U);
      ok := (tail - stealer) % Pow2(bits) <= mask;
      if ok {
        Index(bits, mask + 1, U.tail);
        FillBacks(Owned(U), [], buffer[..], x);
        AddShows(bits, U, Extended(U, [] + [x]), tail, (tail + 1) % Pow2(bits), worker, stealer, buffer[..], buffer[..][U.tail % U.cap := x], [] + [x]);
        ExtendedView(Pow2(bits), U, [] + [x]);
        buffer[BitAnd(tail, mask)] := x;
        tail := (tail + 1) % Pow2(bits);
        U := Extended(U, [] + [x]);
      }
    }

    /** `extend`: the longest prefix that fits. */
    method Extend(items: seq<Item>) returns (n: nat)
      requires Valid()
      modifies this, buffer
      ensures Valid() && n == Min(|items|, old(Spare(U)))
      ensures Fifo() == old(Fifo()) + items[..n] && Loot() == old(Loot())
    {
      ghost var memory := buffer[..];
      var newTail;
      n, newTail := FillFrom(bits, buffer, stealer, tail, items, U);
      AddShows(bits, U, Extended(U, items[..n]), tail, (tail + n) % Pow2(bits), worker, stealer, memory, buffer[..], items[..n]);
      ExtendedView(Pow2(bits), U, items[..n]);
      AddWords(U.tail, n, Pow2(bits), tail);
      tail := newTail;
      U := Extended(U, items[..n]);
    }

    /** `pop`: the stealer head moves along only when no steal is open. */
    method Pop() returns (r: Option<Item>)
      requires Valid()
      modifies this
      ensures Valid() && (r.None? <==> old(Fifo()) == []) && Loot() == old(Loot())
      ensures r.Some? ==> old(Fifo()) == [r.value] + Fifo()
      ensures r.None? ==> Fifo() == []
    {
      WordsShow(bits, U);
      if tail == worker { return None; }
      PopShows(bits, U, tail, worker, stealer, buffer[..]);
      PoppedView(Pow2(bits), U);
      r := Some(buffer[BitAnd(worker, mask)]);
      worker, stealer := (worker + 1) % Pow2(bits), (stealer + (if stealer == worker then 1 else 0)) % Pow2(bits);
      U := Popped(U);
    }

    /** `book_items`, undisturbed: `max` is the most the caller can take. */
    method BookItems(wanted: nat, max: nat) returns (r: Booking)
      requires Valid()
      modifies this`worker, this`U
      ensures Valid()
      ensures r.Busy? <==> old(U.thief.Some?)
      ensures r.Empty? <==> !r.Busy? && Min(Min(wanted, max), |old(Fifo())|) == 0
      ensures r.Ok? ==>
        && r.count == Min(Min(wanted, max), |old(Fifo())|)
        && r.stealerHead == stealer && U == Booked(old(U), 0, r.count)
        && Loot() == old(Fifo())[..r.count] && Fifo() == old(Fifo())[r.count..]
      ensures !r.Ok? ==> U == old(U) && worker == old(worker)
    {
      WordsShow(bits, U);
      if stealer != worker { return Busy; }
      var itemCount := (tail - worker) % Pow2(bits);
      if itemCount == 0 { return Empty; }
      var count := Min(Min(wanted, max), itemCount);
      if count == 0 { return Empty; }
      BookedShows(bits, U, tail, worker, stealer, buffer[..], count);
      worker := (worker + count) % Pow2(bits);
      U := Booked(U, 0, count);
      r := Ok(stealer, count);
    }

    /** The completion of a steal whose items have all been moved out of memory: the stealer head
        must be where the steal began. */
    method Complete(stealerHead: nat)
      requires Valid() && U.thief.Some? && U.moved == 0 && stealerHead == stealer
      modifies this`stealer, this`U
      ensures Valid() && Fifo() == old(Fifo()) && Loot() == []
    {
      StolenShows(bits, U, tail, worker, stealer, buffer[..]);
      assert stealer == stealerHead;
      stealer := worker;
      U := Completed(LootedAll(U, U.until - U.stealer));
    }

    /** The store that publishes items already copied above the tail. */
    method Publish(n: nat, ghost items: seq<Item>, ghost memory: seq<Item>)
      requires n == |items| && buffer.Length == U.cap == mask + 1
      requires Shows(bits, U, tail, worker, stealer, memory) && n <= Spare(U)
      requires Backs(buffer[..], FilledAll(Owned(U), items).buffer)
      modifies this`tail, this`U
      ensures Valid() && U == Extended(old(U), items) && ViewOf(U) == old(ViewOf(U)).(fifo := old(ViewOf(U)).fifo + items)
    {
      AddShows(bits, U, Extended(U, items), tail, (tail + n) % Pow2(bits), worker, stealer, memory, buffer[..], items);
      ExtendedView(Pow2(bits), U, items);
      tail := (tail + n) % Pow2(bits);
      U := Extended(U, items);
    }
  }

  /** `Worker::new` with its check of the requested capacity, which panics above half the word
      range. */
  method New(bits: nat, minCapacity: nat) returns (r: Option<FifoQueue>)
    requires bits > 0
    ensures r.None? <==> minCapacity > Pow2(bits - 1)
    ensures r.Some? ==>
      && fresh(r.value) && r.value.Valid() && r.value.bits == bits && r.value.Fifo() == [] && r.value.Loot() == []
      && minCapacity <= r.value.mask + 1 && r.value.mask + 1 < (if minCapacity > 1 then 2 * minCapacity else 2)
  {
    if minCapacity > Pow2(bits - 1) { return None; }
    var q := new FifoQueue(bits, minCapacity);
    CeilLogIsLeast(minCapacity, CeilLog(minCapacity));
    if minCapacity > 1 { CeilLogIsLeast(minCapacity, CeilLog(minCapacity) - 1); }
    r := Some(q);
  }

  /** The result of a steal: how many items were moved, and the one returned directly. */
  datatype Stolen = Failed(busy: bool) | Moved(count: nat, last: Option<Item>)

  /** A queue as it is between two calls, and the memory behind it. */
  ghost predicate Settled(bits: nat, S: Queue, memory: seq<Item>) {
    ValidSize(bits, S.cap) && QueueInv(Pow2(bits), S) && S.owner.None? && Backs(memory, S.buffer)
  }

  /** What the bulk copy demands holds once the items are booked. */
  lemma StealReady(bits: nat, S: Queue, D: Queue, n: nat)
    requires ValidSize(bits, S.cap) && ValidSize(bits, D.cap) && QueueInv(Pow2(bits), S) && QueueInv(Pow2(bits), D)
    requires S.owner.None? && D.owner.None? && S.thief.Some? && n <= S.until - S.stealer && n <= Spare(D)
    ensures var w := Pow2(bits);
      && S.cap > 0 && D.cap > 0
      && (S.stealer % w) % S.cap == S.stealer % S.cap && (D.tail % w) % D.cap == D.tail % D.cap
      && 0 <= S.stealer % S.cap && 0 <= D.tail % D.cap
      && Transfer.Fits(S.cap, D.cap, S.stealer % S.cap, D.tail % D.cap, n)
      && (S == D ==> Transfer.Disjoint(S.cap, S.stealer % S.cap, S.tail % S.cap, n))
  {
    ModMod(S.stealer, Pow2(bits), S.cap);
    ModMod(D.tail, Pow2(bits), D.cap);
    StealTransfer.SlotBound(S.cap, S.stealer);
    StealTransfer.SlotBound(D.cap, D.tail);
    if S == D { StealTransfer.WindowDisjoint(S.cap, S.stealer, S.tail, n); }
  }

  /** The item that `steal_and_pop` returns is still in memory after the copy. */
  lemma LastStays(w: nat, S: Queue, memory: seq<Item>, memory': seq<Item>, n: nat, self: bool)
    requires QueueInv(w, S) && S.owner.None? && S.thief.Some? && S.moved == 0 && n < S.until - S.stealer && Backs(memory, S.buffer)
    requires 0 <= S.stealer % S.cap && 0 <= S.tail % S.cap
    requires if self then n <= Spare(S) && Transfer.Fits(S.cap, S.cap, S.stealer % S.cap, S.tail % S.cap, n)
                       && memory' == Transfer.Copied(memory, memory, S.stealer % S.cap, S.tail % S.cap, n)
             else memory' == memory
    ensures n < |ViewOf(S).loot| && memory'[(S.stealer + n) % S.cap] == ViewOf(S).loot[n]
  {
    LootMemory(w, S, memory, n);
    if self { StealTransfer.SparedItem(memory, S.cap, S.stealer, S.tail, n); }
  }

  lemma CopyReady(bits: nat, S: Queue, source: seq<Item>, D: Queue, memory: seq<Item>, n: nat)
    requires Settled(bits, S, source) && Settled(bits, D, memory) && S.thief.Some? && S.moved == 0 && n <= S.until - S.stealer && n <= Spare(D)
    requires 0 <= S.stealer % S.cap && 0 <= D.tail % D.cap && Transfer.Fits(S.cap, D.cap, S.stealer % S.cap, D.tail % D.cap, n)
    ensures n <= |ViewOf(S).loot|
    ensures Backs(Transfer.Copied(source, memory, S.stealer % S.cap, D.tail % D.cap, n), FilledAll(Owned(D), ViewOf(S).loot[..n]).buffer)
  {
    assert QueueInv(Pow2(bits), Owned(D));
    CopyBacks(Pow2(bits), S, source, Owned(D), memory, n);
  }

  /** Moving `n` booked items with the bulk copy. */
  method MoveItems(bits: nat, src: array<Item>, stealerHead: nat, dst: array<Item>, destTail: nat, n: nat, ghost S: Queue, ghost D: Queue)
    requires Settled(bits, S, src[..]) && Settled(bits, D, dst[..]) && (src == dst ==> S == D)
    requires S.thief.Some? && S.moved == 0 && n <= S.until - S.stealer && n <= Spare(D)
    requires stealerHead == S.stealer % Pow2(bits) && destTail == D.tail % Pow2(bits)
    modifies dst
    ensures 0 <= S.stealer % S.cap && 0 <= D.tail % D.cap && Transfer.Fits(S.cap, D.cap, S.stealer % S.cap, D.tail % D.cap, n)
    ensures dst[..] == Transfer.Copied(old(src[..]), old(dst[..]), S.stealer % S.cap, D.tail % D.cap, n)
    ensures n <= |ViewOf(S).loot| && Backs(dst[..], FilledAll(Owned(D), ViewOf(S).loot[..n]).buffer)
  {
    StealReady(bits, S, D, n);
    CopyReady(bits, S, src[..], D, dst[..], n);
    Transfer.TransferBulk(bits, src, stealerHead, dst, destTail, n);
  }

  /** Reading the booked item that is returned directly, after the others were moved. */
  method ReadLast(bits: nat, src: array<Item>, stealerHead: nat, n: nat, ghost S: Queue, ghost memory: seq<Item>, ghost self: bool) returns (last: Item)
    requires Settled(bits, S, memory) && src.Length == S.cap && S.thief.Some? && S.moved == 0 && n < S.until - S.stealer
    requires stealerHead == S.stealer % Pow2(bits) && 0 <= S.stealer % S.cap && 0 <= S.tail % S.cap
    requires if self then n <= Spare(S) && Transfer.Fits(S.cap, S.cap, S.stealer % S.cap, S.tail % S.cap, n)
                       && src[..] == Transfer.Copied(memory, memory, S.stealer % S.cap, S.tail % S.cap, n)
             else src[..] == memory
    ensures n < |ViewOf(S).loot| && last == ViewOf(S).loot[n]
  {
    LastStays(Pow2(bits), S, memory, src[..], n, self);
    ModAdd(S.stealer, n, Pow2(bits));
    Index(bits, S.cap, S.stealer + n);
    var i := BitAnd((stealerHead + n) % Pow2(bits), src.Length - 1);
    assert src[i] == src[..][i];
    last := src[i];
  }

  /** Moving the booked items between two memories, and reading the one returned directly. */
  method MoveLoot(bits: nat, src: array<Item>, stealerHead: nat, dst: array<Item>, destTail: nat, n: nat, count: nat, ghost S: Queue, ghost D: Queue)
    returns (last: Option<Item>)
    requires Settled(bits, S, src[..]) && Settled(bits, D, dst[..]) && (src == dst ==> S == D)
    requires S.thief.Some? && S.moved == 0 && n <= count <= n + 1 && count == S.until - S.stealer && n <= Spare(D)
    requires stealerHead == S.stealer % Pow2(bits) && destTail == D.tail % Pow2(bits)
    modifies dst
    ensures count == |ViewOf(S).loot| && last == (if n < count then Some(ViewOf(S).loot[n]) else None)
    ensures Backs(dst[..], FilledAll(Owned(D), ViewOf(S).loot[..n]).buffer)
  {
    ghost var memory := src[..];
    MoveItems(bits, src, stealerHead, dst, destTail, n, S, D);
    last := None;
    if n < count {
      var x := ReadLast(bits, src, stealerHead, n, S, memory, src == dst);
      last := Some(x);
    }
  }

  /** Up to the booking: measure the destination, then book from the source. */
  method BeginSteal(src: FifoQueue, dst: FifoQueue, wanted: nat, keepLast: bool) returns (b: Booking, destTail: nat)
    requires src.Valid() && dst.Valid() && src.bits == dst.bits && (src != dst ==> src.buffer != dst.buffer)
    modifies src`worker, src`U
    ensures src.Valid() && dst.Valid() && Spare(dst.U) == old(Spare(dst.U)) && destTail == dst.U.tail % Pow2(dst.bits)
    ensures b.Busy? <==> old(src.U.thief.Some?)
    ensures !b.Ok? ==> src.U == old(src.U) && dst.U == old(dst.U)
    ensures b.Empty? ==> wanted == 0 || old(src.Fifo()) == [] || (!keepLast && old(Spare(dst.U)) == 0)
    ensures b.Ok? ==>
      var d, room, n := old(src.Fifo()), old(Spare(dst.U)), if keepLast then b.count - 1 else b.count;
      && 1 <= b.count <= wanted && b.count <= |d| && n <= room
      && (b.count == wanted || b.count == |d| || n == room)
      && b.stealerHead == src.stealer && src.U.thief.Some? && src.U.moved == 0 && b.count == src.U.until - src.U.stealer
      && src.Loot() == old(src.Fifo())[..b.count] && src.Fifo() == old(src.Fifo())[b.count..]
    ensures src != dst ==> dst.U == old(dst.U)
  {
    destTail := dst.tail;
    var free := dst.SpareCapacity();
    b := src.BookItems(wanted, if keepLast then free + 1 else free);
  }

  /** From the booking on. */
  method FinishSteal(src: FifoQueue, dst: FifoQueue, stealerHead: nat, destTail: nat, n: nat, count: nat) returns (last: Option<Item>)
    requires src.Valid() && dst.Valid() && src.bits == dst.bits && (src != dst ==> src.buffer != dst.buffer)
    requires src.U.thief.Some? && src.U.moved == 0 && n <= count <= n + 1 && count == src.U.until - src.U.stealer && n <= Spare(dst.U)
    requires stealerHead == src.stealer && destTail == dst.U.tail % Pow2(dst.bits)
    modifies src, dst, dst.buffer
    ensures src.Valid() && dst.Valid()
    ensures count == |old(src.Loot())| && last == (if n < count then Some(old(src.Loot())[n]) else None)
    ensures src != dst ==> src.Fifo() == old(src.Fifo()) && dst.Fifo() == old(dst.Fifo()) + old(src.Loot())[..n]
    ensures src == dst ==> src.Fifo() == old(src.Fifo()) + old(src.Loot())[..n]
  {
    ghost var items, dm := ViewOf(src.U).loot[..n], dst.buffer[..];
    last := MoveLoot(src.bits, src.buffer, stealerHead, dst.buffer, destTail, n, count, src.U, dst.U);
    dst.Publish(n, items, dm);
    src.Complete(stealerHead);
  }

  /** `Stealer::steal`, and `steal_and_pop` when `keepLast`, undisturbed. The source may be the
      destination itself. */
  method Steal(src: FifoQueue, dst: FifoQueue, wanted: nat, keepLast: bool) returns (r: Stolen)
    requires src.Valid() && dst.Valid() && src.bits == dst.bits && (src != dst ==> src.buffer != dst.buffer)
    modifies src, dst, dst.buffer
    ensures src.Valid() && dst.Valid()
    ensures r.Failed? ==> src.Fifo() == old(src.Fifo()) && dst.Fifo() == old(dst.Fifo()) && (r.busy <==> old(src.U.thief.Some?))
    ensures r == Failed(false) <==> !old(src.U.thief.Some?) && (wanted == 0 || old(src.Fifo()) == [] || (!keepLast && old(Spare(dst.U)) == 0))
    ensures r.Moved? ==>
      var d, k := old(src.Fifo()), if keepLast then r.count + 1 else r.count;
      && 1 <= k <= wanted && k <= |d| && r.count <= old(Spare(dst.U))
      && (k == wanted || k == |d| || r.count == old(Spare(dst.U)))
      && r.last == (if keepLast then Some(d[k - 1]) else None)
      && (src != dst ==> src.Fifo() == d[k..] && dst.Fifo() == old(dst.Fifo()) + d[..r.count])
      && (src == dst ==> src.Fifo() == d[k..] + d[..r.count])
  {
    ghost var d := src.Fifo();
    var b, destTail := BeginSteal(src, dst, wanted, keepLast);
    match b {
      case Busy => r := Failed(true);
      case Empty => r := Failed(false);
      case Ok(stealerHead, count) =>
        var n := if keepLast then count - 1 else count;
        assert d[..count][..n] == d[..n];
        var last := FinishSteal(src, dst, stealerHead, destTail, n, count);
        r := Moved(n, last);
    }
  }
}
