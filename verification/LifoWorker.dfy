/** The LIFO queue in its own form: words and raw memory updated in place by one caller at a
    time, with the bulk copy that ships. `U` is the unbounded queue that the words stand for. */
module LifoWorker {
  import opened Words
  import opened Ring
  import opened Memory
  import opened LifoMachine
  import opened LifoSafety
  import opened LifoDeque
  import LifoWrap
  import Transfer
  import StealTransfer

  /** The words and the memory stand for `U`, and no owner call is in progress. */
  ghost predicate Shows(bits: nat, U: Queue, pushCount: int, popCount: int, booked: int, head: int, memory: seq<Item>) {
    var w := Pow2(bits);
    && ValidSize(bits, U.cap)
    && QueueInv(w, U) && U.owner.None?
    && pushCount == U.pushCount % w && popCount == U.popCount % w && booked == U.booked % w && head == U.head % w
    && Backs(memory, U.buffer)
  }

  /** The items an owner can still add. */
  function Spare(U: Queue): int { U.cap - (Tail(U) - U.head) }

  lemma WordsShow(bits: nat, U: Queue)
    requires QueueInv(Pow2(bits), U) && U.owner.None?
    ensures var w := Pow2(bits);
      && (U.pushCount % w - U.popCount % w) % w == Tail(U) % w
      && (Tail(U) % w - U.head % w) % w == Tail(U) - U.head
      && (Tail(U) % w - U.booked % w) % w == Tail(U) - U.booked
      && (Tail(U) % w == U.booked % w <==> Tail(U) == U.booked)
      && (U.head % w == U.booked % w <==> U.head == U.booked)
  {
    var w := Pow2(bits);
    ModSub(U.pushCount, U.popCount, w);
    LifoWrap.SameDistance(Tail(U), U.head, w);
    LifoWrap.SameDistance(Tail(U), U.booked, w);
    if Tail(U) % w == U.booked % w { ModNear(Tail(U), U.booked, w); }
    if U.head % w == U.booked % w { ModNear(U.head, U.booked, w); }
  }

  /** The owner side, taken for the duration of a call. */
  function Owned(U: Queue): Queue { U.(owner := Some(0)) }

  lemma OwnedView(U: Queue)
    requires |U.buffer| > 0
    ensures ViewOf(Owned(U)) == ViewOf(U) && (U.ahead == 0 ==> ViewOf(U).above == [])
  {
  }

  /** `U` with the items written above its tail, not yet published. */
  function FilledAll(U: Queue, items: seq<Item>): (V: Queue)
    requires |U.buffer| > 0
    ensures |V.buffer| == |U.buffer| && V == U.(buffer := V.buffer, ahead := U.ahead + |items|)
  {
    if items == [] then U else Filled(FilledAll(U, items[..|items| - 1]), items[|items| - 1])
  }

  lemma {:induction false} FilledAllInv(w: nat, U: Queue, items: seq<Item>)
    requires QueueInv(w, U) && U.owner.Some? && Tail(U) + U.ahead + |items| <= U.head + U.cap
    ensures QueueInv(w, FilledAll(U, items))
    ensures ViewOf(FilledAll(U, items)) == ViewOf(U).(above := ViewOf(U).above + items)
  {
    if items == [] {
      assert ViewOf(U).above + items == ViewOf(U).above;
    } else {
      var V, x := FilledAll(U, items[..|items| - 1]), items[|items| - 1];
      FilledAllInv(w, U, items[..|items| - 1]);
      FilledInv(w, V, x);
      FillRefines(w, V, x);
      assert (ViewOf(U).above + items[..|items| - 1]) + [x] == ViewOf(U).above + items;
    }
  }

  /** `U` after the owner has added the items. */
  function Added(U: Queue, items: seq<Item>): Queue
    requires |U.buffer| > 0
  {
    U.(buffer := FilledAll(Owned(U), items).buffer, pushCount := U.pushCount + |items|)
  }

  lemma AddedInv(w: nat, U: Queue, items: seq<Item>)
    requires QueueInv(w, U) && U.owner.None? && |items| <= Spare(U)
    ensures QueueInv(w, Added(U, items))
  {
    var V := FilledAll(Owned(U), items);
    FilledAllInv(w, Owned(U), items);
    PublishedInv(w, V);
    assert Added(U, items) == Published(V, V.pushCount + V.ahead);
  }

  lemma AddedView(w: nat, U: Queue, items: seq<Item>)
    requires QueueInv(w, U) && U.owner.None? && |items| <= Spare(U)
    ensures ViewOf(Added(U, items)) == ViewOf(U).(deque := ViewOf(U).deque + items)
  {
    var V := FilledAll(Owned(U), items);
    FilledAllInv(w, Owned(U), items);
    OwnedView(U);
    assert ViewOf(V).above == items && ViewOf(V).deque == ViewOf(U).deque && ViewOf(V).loot == ViewOf(U).loot;
    AppendRefines(w, V);
    assert Added(U, items) == Published(V, V.pushCount + V.ahead);
  }

  /** `U` after the owner has popped its newest item. */
  function Popped(U: Queue): Queue
    requires |U.buffer| > 0
  {
    Vacate(U.(popCount := U.popCount + 1), Tail(U) - 1)
  }

  lemma PoppedInv(w: nat, U: Queue)
    requires QueueInv(w, U) && U.owner.None? && U.booked < Tail(U)
    ensures QueueInv(w, Popped(U)) && Cell(U.buffer, Tail(U) - 1).Held?
  {
    var V := Owned(U).(popCount := U.popCount + 1, ahead := 1);
    assert Window(V) by { assert Window(U); }
    ReadInv(w, V);
  }

  lemma PoppedView(w: nat, U: Queue)
    requires QueueInv(w, U) && U.owner.None? && U.booked < Tail(U)
    ensures var d := ViewOf(U).deque;
      d != [] && ViewOf(Popped(U)) == ViewOf(U).(deque := d[..|d| - 1]) && ItemAt(U.buffer, Tail(U) - 1) == d[|d| - 1]
  {
    var V := Owned(U).(popCount := U.popCount + 1, ahead := 1);
    assert QueueInv(w, V) by { assert Window(U); }
    PopRefines(w, Owned(U));
    ReadRefines(w, V);
  }

  /** Popping the newest item. */
  lemma PopShows(bits: nat, U: Queue, pushCount: int, popCount: int, booked: int, head: int, memory: seq<Item>)
    requires Shows(bits, U, pushCount, popCount, booked, head, memory) && U.booked < Tail(U)
    ensures Shows(bits, Popped(U), pushCount, (popCount + 1) % Pow2(bits), booked, head, memory)
    ensures BitAnd((Tail(U) % Pow2(bits) - 1) % Pow2(bits), U.cap - 1) == (Tail(U) - 1) % U.cap
    ensures memory[(Tail(U) - 1) % U.cap] == ItemAt(U.buffer, Tail(U) - 1)
  {
    PoppedInv(Pow2(bits), U);
    AddWords(U.popCount, 1, Pow2(bits), popCount);
    ModAdd(Tail(U), -1, Pow2(bits));
    Index(bits, U.cap, Tail(U) - 1);
    BacksRead(memory, U.buffer, Tail(U) - 1);
    BacksVacate(memory, U.buffer, Tail(U) - 1);
  }

  lemma GrownShows(bits: nat, U: Queue, V: Queue, pushCount: int, popCount: int, booked: int, head: int, memory: seq<Item>, memory': seq<Item>, n: nat)
    requires Shows(bits, U, pushCount, popCount, booked, head, memory) && V == U.(buffer := V.buffer, pushCount := U.pushCount + n)
    requires QueueInv(Pow2(bits), V) && Backs(memory', V.buffer)
    ensures Shows(bits, V, (pushCount + n) % Pow2(bits), popCount, booked, head, memory')
  {
    AddWords(U.pushCount, n, Pow2(bits), pushCount);
  }

  /** Adding items, given memory that backs them above the tail. */
  lemma AddShows(bits: nat, U: Queue, pushCount: int, popCount: int, booked: int, head: int, memory: seq<Item>, memory': seq<Item>, items: seq<Item>)
    requires Shows(bits, U, pushCount, popCount, booked, head, memory) && |items| <= Spare(U)
    requires Backs(memory', FilledAll(Owned(U), items).buffer)
    ensures Shows(bits, Added(U, items), (pushCount + |items|) % Pow2(bits), popCount, booked, head, memory')
  {
    AddedInv(Pow2(bits), U, items);
    GrownShows(bits, U, Added(U, items), pushCount, popCount, booked, head, memory, memory', |items|);
  }

  /** Writing one more item above the tail. */
  lemma FillBacks(U: Queue, items: seq<Item>, memory: seq<Item>, x: Item)
    requires |U.buffer| > 0 && U.ahead == 0 && Backs(memory, FilledAll(U, items).buffer)
    ensures Backs(memory[(Tail(U) + |items|) % |U.buffer| := x], FilledAll(U, items + [x]).buffer)
  {
    var V := FilledAll(U, items);
    assert (items + [x])[..|items|] == items;
    assert FilledAll(U, items + [x]) == Filled(V, x);
    BacksWrite(memory, V.buffer, Tail(U) + |items|, x);
  }

  /** `U` after its open steal has moved `k` more items out. */
  function LootedAll(U: Queue, k: nat): (V: Queue)
    requires |U.buffer| > 0
    ensures |V.buffer| == |U.buffer| && V == U.(buffer := V.buffer, moved := U.moved + k)
  {
    if k == 0 then U else Looted(LootedAll(U, k - 1))
  }

  lemma {:induction false} LootedAllInv(w: nat, U: Queue, memory: seq<Item>, k: nat)
    requires QueueInv(w, U) && U.head + U.moved + k <= U.booked && Backs(memory, U.buffer)
    ensures QueueInv(w, LootedAll(U, k)) && Backs(memory, LootedAll(U, k).buffer)
    ensures k <= |ViewOf(U).loot| && ViewOf(LootedAll(U, k)) == ViewOf(U).(loot := ViewOf(U).loot[k..])
  {
    if k > 0 {
      LootedAllInv(w, U, memory, k - 1);
      var V := LootedAll(U, k - 1);
      LootedInv(w, V);
      LootRefines(w, V);
      BacksVacate(memory, V.buffer, V.head + V.moved);
      assert ViewOf(U).loot[k - 1..][1..] == ViewOf(U).loot[k..];
    }
  }

  function Released(U: Queue): Queue { U.(head := U.booked, thief := None, moved := 0) }

  /** Closing a steal that has moved everything out. */
  lemma ReleasedShows(bits: nat, U: Queue, pushCount: int, popCount: int, booked: int, head: int, memory: seq<Item>)
    requires Shows(bits, U, pushCount, popCount, booked, head, memory) && U.head + U.moved == U.booked
    ensures Shows(bits, Released(U), pushCount, popCount, booked, booked, memory)
    ensures ViewOf(Released(U)) == ViewOf(U) && ViewOf(U).loot == []
  {
    ReleasedInv(Pow2(bits), U);
  }

  /** What a steal leaves of its source once all is moved out and released. */
  lemma StolenShows(bits: nat, U: Queue, pushCount: int, popCount: int, booked: int, head: int, memory: seq<Item>)
    requires Shows(bits, U, pushCount, popCount, booked, head, memory) && U.moved == 0
    ensures U.booked - U.head >= 0
    ensures var V := Released(LootedAll(U, U.booked - U.head));
      Shows(bits, V, pushCount, popCount, booked, booked, memory) && ViewOf(V) == ViewOf(U).(loot := [])
  {
    var k := U.booked - U.head;
    LootedAllInv(Pow2(bits), U, memory, k);
    ReleasedShows(bits, LootedAll(U, k), pushCount, popCount, booked, head, memory);
    assert ViewOf(U).loot[k..] == [];
  }

  lemma BookedShows(bits: nat, U: Queue, pushCount: int, popCount: int, booked: int, head: int, memory: seq<Item>, count: nat)
    requires Shows(bits, U, pushCount, popCount, booked, head, memory) && U.head == U.booked && 1 <= count <= Tail(U) - U.booked
    ensures Shows(bits, Booked(U, 0, count), pushCount, popCount, (booked + count) % Pow2(bits), head, memory)
    ensures var d := ViewOf(U).deque;
      count <= |d| && ViewOf(Booked(U, 0, count)) == ViewOf(U).(loot := d[..count], deque := d[count..])
  {
    ModAdd(U.booked, count, Pow2(bits));
    BookRefines(Pow2(bits), U, 0, count);
  }

  /** The memory of a booked item. */
  lemma LootMemory(w: nat, U: Queue, memory: seq<Item>, k: nat)
    requires QueueInv(w, U) && U.moved == 0 && k < U.booked - U.head && Backs(memory, U.buffer)
    ensures k < |ViewOf(U).loot| && memory[(U.head + k) % U.cap] == ViewOf(U).loot[k]
  {
    assert Cell(U.buffer, U.head + k).Held?;
    BacksRead(memory, U.buffer, U.head + k);
  }

  /** The copy of the first `n` booked items backs what they fill at the destination `D`, be it
      another queue or the source itself. */
  lemma {:induction false} CopyBacks(w: nat, U: Queue, source: seq<Item>, D: Queue, memory: seq<Item>, n: nat)
    requires QueueInv(w, U) && U.moved == 0 && n <= U.booked - U.head && Backs(source, U.buffer)
    requires QueueInv(w, D) && D.ahead == 0 && n <= D.cap && Backs(memory, D.buffer)
    requires n <= |ViewOf(U).loot| && n <= U.cap
    ensures U.head % U.cap < U.cap && 0 <= Tail(D) % D.cap < D.cap
    ensures Backs(Transfer.Copied(source, memory, U.head % U.cap, Tail(D) % D.cap, n), FilledAll(D, ViewOf(U).loot[..n]).buffer)
  {
    if n > 0 {
      var loot := ViewOf(U).loot;
      CopyBacks(w, U, source, D, memory, n - 1);
      Transfer.AtIsMod(U.cap, U.head, n - 1);
      Transfer.AtIsMod(D.cap, Tail(D), n - 1);
      LootMemory(w, U, source, n - 1);
      FillBacks(D, loot[..n - 1], Transfer.Copied(source, memory, U.head % U.cap, Tail(D) % D.cap, n - 1), loot[n - 1]);
      assert loot[..n - 1] + [loot[n - 1]] == loot[..n];
    }
  }

  /** Where the loop of `extend` stops. */
  lemma MaxTail(bits: nat, U: Queue, n: nat)
    requires QueueInv(Pow2(bits), U) && n <= Spare(U)
    ensures var w := Pow2(bits);
      && ((Tail(U) + n) % w == (U.head % w + U.cap) % w <==> n == Spare(U))
      && (n > 0 ==> ((Tail(U) + n - 1) % w + 1) % w == (Tail(U) + n) % w)
  {
    var w := Pow2(bits);
    ModAdd(U.head, U.cap, w);
    ModAdd(Tail(U) + n - 1, 1, w);
    if (Tail(U) + n) % w == (U.head + U.cap) % w { ModNear(Tail(U) + n, U.head + U.cap, w); }
  }

  /** The push count recovered from the tail. */
  lemma TailToPush(bits: nat, U: Queue, n: nat)
    ensures var w := Pow2(bits);
      ((Tail(U) + n) % w + U.popCount % w) % w == (U.pushCount % w + n) % w
  {
    var w, t := Pow2(bits), Tail(U) + n;
    ModAdd(t, U.popCount % w, w);
    ModAdd(U.popCount, t, w);
    ModAdd(U.pushCount, n, w);
  }

  lemma FillStep(bits: nat, U: Queue, items: seq<Item>, memory: seq<Item>, n: nat)
    requires ValidSize(bits, U.cap) && |U.buffer| == U.cap && U.ahead == 0 && n < |items|
    requires Backs(memory, FilledAll(Owned(U), items[..n]).buffer)
    ensures U.cap > 0 && 0 <= (Tail(U) + n) % Pow2(bits)
    ensures var i := BitAnd((Tail(U) + n) % Pow2(bits), U.cap - 1);
      0 <= i < U.cap && Backs(memory[i := items[n]], FilledAll(Owned(U), items[..n + 1]).buffer)
  {
    Index(bits, U.cap, Tail(U) + n);
    FillBacks(Owned(U), items[..n], memory, items[n]);
    assert items[..n] + [items[n]] == items[..n + 1];
  }

  /** The loop of `extend`. */
  method FillFrom(bits: nat, buffer: array<Item>, head: nat, tail0: nat, items: seq<Item>, ghost U: Queue) returns (n: nat, tail: nat)
    requires ValidSize(bits, U.cap) && QueueInv(Pow2(bits), U) && U.ahead == 0 && buffer.Length == U.cap
    requires Backs(buffer[..], U.buffer) && head == U.head % Pow2(bits) && tail0 == Tail(U) % Pow2(bits)
    modifies buffer
    ensures n == Min(|items|, Spare(U)) && tail == (Tail(U) + n) % Pow2(bits)
    ensures Backs(buffer[..], FilledAll(Owned(U), items[..n]).buffer)
  {
    var maxTail := (head + buffer.Length) % Pow2(bits);
    n, tail := 0, tail0;
    MaxTail(bits, U, 0);
    while n < |items| && tail != maxTail
      invariant n <= |items| && n <= Spare(U)
      invariant tail == (Tail(U) + n) % Pow2(bits)
      invariant tail == maxTail <==> n == Spare(U)
      invariant Backs(buffer[..], FilledAll(Owned(U), items[..n]).buffer)
    {
      FillStep(bits, U, items, buffer[..], n);
      MaxTail(bits, U, n + 1);
      var i := BitAnd(tail, buffer.Length - 1);
      buffer[i] := items[n];
      tail := (tail + 1) % Pow2(bits);
      n := n + 1;
    }
  }

  class LifoQueue {
    const bits: nat
    const mask: nat
    const buffer: array<Item>
    var pushCount: nat
    var popCount: nat
    var booked: nat
    var head: nat
    ghost var U: Queue

    ghost predicate Valid()
      reads this, buffer
    {
      && buffer.Length == U.cap == mask + 1
      && Shows(bits, U, pushCount, popCount, booked, head, buffer[..])
    }

    /** The items the owner can pop and a thief can book, oldest first. */
    ghost function Deque(): seq<Item>
      reads this, buffer
      requires Valid()
    {
      ViewOf(U).deque
    }

    /** The items an open drain has yet to yield. */
    ghost function Loot(): seq<Item>
      reads this, buffer
      requires Valid()
    {
      ViewOf(U).loot
    }

    /** `Worker::new`: the capacity is the least power of two that is no less than the minimum. */
    constructor (bits: nat, minCapacity: nat)
      requires bits > 0 && minCapacity <= Pow2(bits - 1)
      ensures Valid() && fresh(buffer) && this.bits == bits && mask + 1 == Pow2(CeilLog(minCapacity))
      ensures forall e :: minCapacity <= Pow2(e) <==> CeilLog(minCapacity) <= e
      ensures Deque() == [] && Loot() == []
    {
      var exponent := CeilLog(minCapacity);
      CeilLogIsLeast(minCapacity, bits - 1);
      this.bits := bits;
      mask := Pow2(exponent) - 1;
      buffer := new Item[Pow2(exponent)](_ => 0);
      pushCount, popCount, booked, head := 0, 0, 0, 0;
      U := NewQueue(Pow2(exponent));
      new;
      ModSmall(0, Pow2(bits));
      Pow2Below(exponent, bits);
      Pow2Divides(exponent, bits);
      ModUnique(Pow2(bits), Pow2(exponent), Pow2(bits - exponent), 0);
      forall e: nat ensures minCapacity <= Pow2(e) <==> CeilLog(minCapacity) <= e {
        CeilLogIsLeast(minCapacity, e);
      }
    }

    /** `spare_capacity` */
    method SpareCapacity() returns (n: nat)
      requires Valid()
      ensures n == Spare(U) <= mask + 1
    {
      var _, free := Measure();
      n := free;
    }

    /** The tail and the free room that a steal into this queue reserves. */
    method Measure() returns (tail: nat, free: nat)
      requires Valid()
      ensures tail == Tail(U) % Pow2(bits) && free == Spare(U)
    {
      WordsShow(bits, U);
      tail := (pushCount - popCount) % Pow2(bits);
      free := mask + 1 - (tail - head) % Pow2(bits);
    }

    /** `is_empty` */
    method IsEmpty() returns (empty: bool)
      requires Valid()
      ensures empty <==> Deque() == []
    {
      WordsShow(bits, U);
      var tail := (pushCount - popCount) % Pow2(bits);
      empty := tail == booked;
    }

    /** `push` */
    method Push(x: Item) returns (ok: bool)
      requires Valid()
      modifies this, buffer
      ensures Valid() && (ok <==> old(Spare(U)) > 0)
      ensures Deque() == (if ok then old(Deque()) + [x] else old(Deque())) && Loot() == old(Loot())
    {
      WordsShow(bits, U);
      var w := Pow2(bits);
      var tail := (pushCount - popCount) % w;
      ok := (tail - head) % w <= mask;
      if ok {
        Index(bits, mask + 1, Tail(U));
        FillBacks(Owned(U), [], buffer[..], x);
        AddShows(bits, U, pushCount, popCount, booked, head, buffer[..], buffer[..][Tail(U) % U.cap := x], [] + [x]);
        AddedView(w, U, [] + [x]);
        buffer[BitAnd(tail, mask)] := x;
        pushCount := (pushCount + 1) % w;
        U := Added(U, [] + [x]);
      }
    }

    /** `extend`: the longest prefix that fits. */
    method Extend(items: seq<Item>) returns (n: nat)
      requires Valid()
      modifies this, buffer
      ensures Valid() && n == Min(|items|, old(Spare(U)))
      ensures Deque() == old(Deque()) + items[..n] && Loot() == old(Loot())
    {
      WordsShow(bits, U);
      ghost var memory := buffer[..];
      var tail := (pushCount - popCount) % Pow2(bits);
      n, tail := FillFrom(bits, buffer, head, tail, items, U);
      AddShows(bits, U, pushCount, popCount, booked, head, memory, buffer[..], items[..n]);
      AddedView(Pow2(bits), U, items[..n]);
      TailToPush(bits, U, n);
      pushCount := (tail + popCount) % Pow2(bits);
      U := Added(U, items[..n]);
    }

    /** `pop` */
    method Pop() returns (r: Option<Item>)
      requires Valid()
      modifies this
      ensures Valid() && (r.None? <==> old(Deque()) == []) && Loot() == old(Loot())
      ensures r.Some? ==> old(Deque()) == Deque() + [r.value]
      ensures r.None? ==> Deque() == []
    {
      WordsShow(bits, U);
      var w := Pow2(bits);
      var tail := (pushCount - popCount) % w;
      if tail == booked { return None; }
      PopShows(bits, U, pushCount, popCount, booked, head, buffer[..]);
      PoppedView(w, U);
      popCount := (popCount + 1) % w;
      r := Some(buffer[BitAnd((tail - 1) % w, mask)]);
      U := Popped(U);
    }

    /** The store that ends a steal whose items have all been moved out of memory. */
    method Release(newHead: nat)
      requires Valid() && U.moved == 0 && newHead == booked
      modifies this`head, this`U
      ensures Valid() && Deque() == old(Deque()) && Loot() == []
    {
      StolenShows(bits, U, pushCount, popCount, booked, head, buffer[..]);
      head := newHead;
      U := Released(LootedAll(U, U.booked - U.head));
    }

    /** Reading the next item of the open steal. */
    method TakeLoot(current: nat) returns (x: Item)
      requires Valid() && U.head + U.moved < U.booked && current == (U.head + U.moved) % Pow2(bits)
      modifies this`U
      ensures Valid() && U == Looted(old(U)) && Deque() == old(Deque()) && old(Loot()) == [x] + Loot()
    {
      NextLoot(bits, U, pushCount, popCount, booked, head, buffer[..]);
      Index(bits, U.cap, U.head + U.moved);
      x := buffer[BitAnd(current, mask)];
      U := Looted(U);
    }

    /** The store that ends a drain whose items have all been yielded. */
    method EndDrain(end: nat)
      requires Valid() && U.head + U.moved == U.booked && end == booked
      modifies this`head, this`U
      ensures Valid() && U.head == U.booked == old(U.booked) && Deque() == old(Deque()) && Loot() == old(Loot()) == []
    {
      ReleasedShows(bits, U, pushCount, popCount, booked, head, buffer[..]);
      head := end;
      U := Released(U);
    }

    /** The store that publishes items already copied above the tail. */
    method Publish(n: nat, ghost items: seq<Item>, ghost memory: seq<Item>)
      requires n == |items| && buffer.Length == U.cap == mask + 1
      requires Shows(bits, U, pushCount, popCount, booked, head, memory) && n <= Spare(U)
      requires Backs(buffer[..], FilledAll(Owned(U), items).buffer)
      modifies this`pushCount, this`U
      ensures Valid() && U == Added(old(U), items) && ViewOf(U) == old(ViewOf(U)).(deque := old(ViewOf(U)).deque + items)
    {
      AddShows(bits, U, pushCount, popCount, booked, head, memory, buffer[..], items);
      AddedView(Pow2(bits), U, items);
      pushCount := (pushCount + n) % Pow2(bits);
      U := Added(U, items);
    }

    /** `book_items`, undisturbed: `max` is the most the caller can take. */
    method BookItems(wanted: nat, max: nat) returns (r: Booking)
      requires Valid()
      modifies this`booked, this`U
      ensures Valid()
      ensures r.Busy? <==> old(U.head != U.booked)
      ensures r.Empty? <==> !r.Busy? && Min(Min(wanted, max), |old(Deque())|) == 0
      ensures r.Ok? ==>
        && r.count == Min(Min(wanted, max), |old(Deque())|)
        && r.oldHead == head && r.newHead == booked && U == Booked(old(U), 0, r.count)
        && Loot() == old(Deque())[..r.count] && Deque() == old(Deque())[r.count..]
      ensures !r.Ok? ==> U == old(U) && booked == old(booked)
    {
      WordsShow(bits, U);
      var w := Pow2(bits);
      var oldHead := head;
      if oldHead != booked { return Busy; }
      var tail := (pushCount - popCount) % w;
      var itemCount := (tail - booked) % w;
      if itemCount == 0 { return Empty; }
      var count := Min(Min(wanted, max), itemCount);
      if count == 0 { return Empty; }
      BookedShows(bits, U, pushCount, popCount, booked, head, buffer[..], count);
      booked := (booked + count) % w;
      U := Booked(U, 0, count);
      r := Ok(oldHead, booked, count);
    }
  }

  datatype Booking = Busy | Empty | Ok(oldHead: nat, newHead: nat, count: nat)

  /** `Worker::new` with its check of the requested capacity, which panics above half the word
      range. */
  method New(bits: nat, minCapacity: nat) returns (r: Option<LifoQueue>)
    requires bits > 0
    ensures r.None? <==> minCapacity > Pow2(bits - 1)
    ensures r.Some? ==>
      && fresh(r.value) && r.value.Valid() && r.value.bits == bits && r.value.Deque() == [] && r.value.Loot() == []
      && minCapacity <= r.value.mask + 1 && r.value.mask + 1 < (if minCapacity > 1 then 2 * minCapacity else 2)
  {
    if minCapacity > Pow2(bits - 1) { return None; }
    var q := new LifoQueue(bits, minCapacity);
    CeilLogIsLeast(minCapacity, CeilLog(minCapacity));
    if minCapacity > 1 { CeilLogIsLeast(minCapacity, CeilLog(minCapacity) - 1); }
    r := Some(q);
  }

  /** The result of a steal: how many items were moved, and the one returned directly. */
  datatype Stolen = Failed(busy: bool) | Moved(count: nat, last: Option<Item>)

  /** What the bulk copy demands holds once the items are booked. */
  lemma StealReady(bits: nat, S: Queue, D: Queue, n: nat)
    requires ValidSize(bits, S.cap) && ValidSize(bits, D.cap) && QueueInv(Pow2(bits), S) && QueueInv(Pow2(bits), D)
    requires S.owner.None? && D.owner.None? && n <= S.booked - S.head && n <= Spare(D)
    ensures var w := Pow2(bits);
      && S.cap > 0 && D.cap > 0
      && (S.head % w) % S.cap == S.head % S.cap && (Tail(D) % w) % D.cap == Tail(D) % D.cap
      && 0 <= S.head % S.cap && 0 <= Tail(D) % D.cap
      && Transfer.Fits(S.cap, D.cap, S.head % S.cap, Tail(D) % D.cap, n)
      && (S == D ==> Transfer.Disjoint(S.cap, S.head % S.cap, Tail(S) % S.cap, n))
  {
    ModMod(S.head, Pow2(bits), S.cap);
    ModMod(Tail(D), Pow2(bits), D.cap);
    StealTransfer.SlotBound(S.cap, S.head);
    StealTransfer.SlotBound(D.cap, Tail(D));
    if S == D { StealTransfer.WindowDisjoint(S.cap, S.head, Tail(S), n); }
  }

  /** The item that `steal_and_pop` returns is still in memory after the copy. */
  lemma LastStays(w: nat, S: Queue, memory: seq<Item>, memory': seq<Item>, n: nat, self: bool)
    requires QueueInv(w, S) && S.owner.None? && S.moved == 0 && n < S.booked - S.head && Backs(memory, S.buffer)
    requires 0 <= S.head % S.cap && 0 <= Tail(S) % S.cap
    requires if self then n <= Spare(S) && Transfer.Fits(S.cap, S.cap, S.head % S.cap, Tail(S) % S.cap, n)
                       && memory' == Transfer.Copied(memory, memory, S.head % S.cap, Tail(S) % S.cap, n)
             else memory' == memory
    ensures n < |ViewOf(S).loot| && memory'[(S.head + n) % S.cap] == ViewOf(S).loot[n]
  {
    LootMemory(w, S, memory, n);
    if self { StealTransfer.SparedItem(memory, S.cap, S.head, Tail(S), n); }
  }

  /** Queues as they are between two calls, at least one item booked. */
  ghost predicate Settled(bits: nat, S: Queue, memory: seq<Item>) {
    ValidSize(bits, S.cap) && QueueInv(Pow2(bits), S) && S.owner.None? && Backs(memory, S.buffer)
  }

  lemma CopyReady(bits: nat, S: Queue, source: seq<Item>, D: Queue, memory: seq<Item>, n: nat)
    requires Settled(bits, S, source) && Settled(bits, D, memory) && S.moved == 0 && n <= S.booked - S.head && n <= Spare(D)
    requires 0 <= S.head % S.cap && 0 <= Tail(D) % D.cap && Transfer.Fits(S.cap, D.cap, S.head % S.cap, Tail(D) % D.cap, n)
    ensures n <= |ViewOf(S).loot|
    ensures Backs(Transfer.Copied(source, memory, S.head % S.cap, Tail(D) % D.cap, n), FilledAll(Owned(D), ViewOf(S).loot[..n]).buffer)
  {
    assert QueueInv(Pow2(bits), Owned(D));
    CopyBacks(Pow2(bits), S, source, Owned(D), memory, n);
  }

  /** Moving `n` booked items with the bulk copy. */
  method MoveItems(bits: nat, src: array<Item>, oldHead: nat, dst: array<Item>, destTail: nat, n: nat, ghost S: Queue, ghost D: Queue)
    requires Settled(bits, S, src[..]) && Settled(bits, D, dst[..]) && (src == dst ==> S == D)
    requires S.moved == 0 && n <= S.booked - S.head && n <= Spare(D)
    requires oldHead == S.head % Pow2(bits) && destTail == Tail(D) % Pow2(bits)
    modifies dst
    ensures 0 <= S.head % S.cap && 0 <= Tail(D) % D.cap && Transfer.Fits(S.cap, D.cap, S.head % S.cap, Tail(D) % D.cap, n)
    ensures dst[..] == Transfer.Copied(old(src[..]), old(dst[..]), S.head % S.cap, Tail(D) % D.cap, n)
    ensures n <= |ViewOf(S).loot| && Backs(dst[..], FilledAll(Owned(D), ViewOf(S).loot[..n]).buffer)
  {
    StealReady(bits, S, D, n);
    CopyReady(bits, S, src[..], D, dst[..], n);
    Transfer.TransferBulk(bits, src, oldHead, dst, destTail, n);
  }

  /** Reading the booked item that is returned directly, after the others were moved. */
  method ReadLast(bits: nat, src: array<Item>, oldHead: nat, n: nat, ghost S: Queue, ghost memory: seq<Item>, ghost self: bool) returns (last: Item)
    requires Settled(bits, S, memory) && src.Length == S.cap && S.moved == 0 && n < S.booked - S.head
    requires oldHead == S.head % Pow2(bits) && 0 <= S.head % S.cap && 0 <= Tail(S) % S.cap
    requires if self then n <= Spare(S) && Transfer.Fits(S.cap, S.cap, S.head % S.cap, Tail(S) % S.cap, n)
                       && src[..] == Transfer.Copied(memory, memory, S.head % S.cap, Tail(S) % S.cap, n)
             else src[..] == memory
    ensures n < |ViewOf(S).loot| && last == ViewOf(S).loot[n]
  {
    LastStays(Pow2(bits), S, memory, src[..], n, self);
    ModAdd(S.head, n, Pow2(bits));
    Index(bits, S.cap, S.head + n);
    var i := BitAnd((oldHead + n) % Pow2(bits), src.Length - 1);
    assert src[i] == src[..][i];
    last := src[i];
  }

  /** Up to the booking: measure the destination, then book from the source. */
  method BeginSteal(src: LifoQueue, dst: LifoQueue, wanted: nat, keepLast: bool) returns (b: Booking, destTail: nat)
    requires src.Valid() && dst.Valid() && src.bits == dst.bits && (src != dst ==> src.buffer != dst.buffer)
    modifies src`booked, src`U
    ensures src.Valid() && dst.Valid() && Spare(dst.U) == old(Spare(dst.U)) && destTail == Tail(dst.U) % Pow2(dst.bits)
    ensures b.Busy? <==> old(src.U.head != src.U.booked)
    ensures !b.Ok? ==> src.U == old(src.U) && dst.U == old(dst.U)
    ensures b.Empty? ==> wanted == 0 || old(src.Deque()) == [] || (!keepLast && old(Spare(dst.U)) == 0)
    ensures b.Ok? ==>
      var d, room, n := old(src.Deque()), old(Spare(dst.U)), if keepLast then b.count - 1 else b.count;
      && 1 <= b.count <= wanted && b.count <= |d| && n <= room
      && (b.count == wanted || b.count == |d| || n == room)
      && b.oldHead == src.head && b.newHead == src.booked && src.U.moved == 0 && b.count == src.U.booked - src.U.head
      && src.Loot() == old(src.Deque())[..b.count] && src.Deque() == old(src.Deque())[b.count..]
    ensures src != dst ==> dst.U == old(dst.U)
  {
    var free: nat;
    destTail, free := dst.Measure();
    b := src.BookItems(wanted, if keepLast then free + 1 else free);
  }

  /** `Stealer::steal`, and `steal_and_pop` when `keepLast`, undisturbed. The source may be the
      destination itself. */
  method Steal(src: LifoQueue, dst: LifoQueue, wanted: nat, keepLast: bool) returns (r: Stolen)
    requires src.Valid() && dst.Valid() && src.bits == dst.bits && (src != dst ==> src.buffer != dst.buffer)
    modifies src, dst, dst.buffer
    ensures src.Valid() && dst.Valid()
    ensures r.Failed? ==> src.Deque() == old(src.Deque()) && dst.Deque() == old(dst.Deque()) && (r.busy <==> old(src.U.head != src.U.booked))
    ensures r == Failed(false) <==> !old(src.U.head != src.U.booked) && (wanted == 0 || old(src.Deque()) == [] || (!keepLast && old(Spare(dst.U)) == 0))
    ensures r.Moved? ==>
      var d, k := old(src.Deque()), if keepLast then r.count + 1 else r.count;
      && 1 <= k <= wanted && k <= |d| && r.count <= old(Spare(dst.U))
      && (k == wanted || k == |d| || r.count == old(Spare(dst.U)))
      && r.last == (if keepLast then Some(d[k - 1]) else None)
      && (src != dst ==> src.Deque() == d[k..] && dst.Deque() == old(dst.Deque()) + d[..r.count])
      && (src == dst ==> src.Deque() == d[k..] + d[..r.count])
  {
    ghost var d := src.Deque();
    var b, destTail := BeginSteal(src, dst, wanted, keepLast);
    match b {
      case Busy => r := Failed(true);
      case Empty => r := Failed(false);
      case Ok(oldHead, newHead, count) =>
        var n := if keepLast then count - 1 else count;
        assert d[..count][..n] == d[..n];
        var last := FinishSteal(src, dst, oldHead, newHead, destTail, n, count);
        r := Moved(n, last);
    }
  }

  /** Moving the booked items between two memories, and reading the one returned directly. */
  method MoveLoot(bits: nat, src: array<Item>, oldHead: nat, dst: array<Item>, destTail: nat, n: nat, count: nat, ghost S: Queue, ghost D: Queue)
    returns (last: Option<Item>)
    requires Settled(bits, S, src[..]) && Settled(bits, D, dst[..]) && (src == dst ==> S == D)
    requires S.moved == 0 && n <= count <= n + 1 && count == S.booked - S.head && n <= Spare(D)
    requires oldHead == S.head % Pow2(bits) && destTail == Tail(D) % Pow2(bits)
    modifies dst
    ensures count == |ViewOf(S).loot| && last == (if n < count then Some(ViewOf(S).loot[n]) else None)
    ensures Backs(dst[..], FilledAll(Owned(D), ViewOf(S).loot[..n]).buffer)
  {
    ghost var memory := src[..];
    MoveItems(bits, src, oldHead, dst, destTail, n, S, D);
    last := None;
    if n < count {
      var x := ReadLast(bits, src, oldHead, n, S, memory, src == dst);
      last := Some(x);
    }
  }

  /** From the booking on. */
  method FinishSteal(src: LifoQueue, dst: LifoQueue, oldHead: nat, newHead: nat, destTail: nat, n: nat, count: nat) returns (last: Option<Item>)
    requires src.Valid() && dst.Valid() && src.bits == dst.bits && (src != dst ==> src.buffer != dst.buffer)
    requires src.U.moved == 0 && n <= count <= n + 1 && count == src.U.booked - src.U.head && n <= Spare(dst.U)
    requires oldHead == src.head && newHead == src.booked && destTail == Tail(dst.U) % Pow2(dst.bits)
    modifies src, dst, dst.buffer
    ensures src.Valid() && dst.Valid()
    ensures count == |old(src.Loot())| && last == (if n < count then Some(old(src.Loot())[n]) else None)
    ensures src != dst ==> src.Deque() == old(src.Deque()) && dst.Deque() == old(dst.Deque()) + old(src.Loot())[..n]
    ensures src == dst ==> src.Deque() == old(src.Deque()) + old(src.Loot())[..n]
  {
    ghost var items, dm := ViewOf(src.U).loot[..n], dst.buffer[..];
    last := MoveLoot(src.bits, src.buffer, oldHead, dst.buffer, destTail, n, count, src.U, dst.U);
    dst.Publish(n, items, dm);
    src.Release(newHead);
  }

  lemma NextLoot(bits: nat, U: Queue, pushCount: int, popCount: int, booked: int, head: int, memory: seq<Item>)
    requires Shows(bits, U, pushCount, popCount, booked, head, memory) && U.head + U.moved < U.booked
    ensures Shows(bits, Looted(U), pushCount, popCount, booked, head, memory)
    ensures var loot := ViewOf(U).loot;
      loot != [] && ViewOf(Looted(U)) == ViewOf(U).(loot := loot[1..]) && memory[(U.head + U.moved) % U.cap] == loot[0]
  {
    LootedInv(Pow2(bits), U);
    LootRefines(Pow2(bits), U);
    BacksRead(memory, U.buffer, U.head + U.moved);
    BacksVacate(memory, U.buffer, U.head + U.moved);
  }

  /** The iterator of `Worker::drain`: a steal that stays open until its last item is yielded. */
  class Drain {
    const queue: LifoQueue
    var current: nat
    var end: nat

    /** It is the steal open on the queue, or it is spent. */
    ghost predicate Valid()
      reads this, queue, queue.buffer
    {
      && queue.Valid()
      && (current != end ==>
            && queue.U.head + queue.U.moved < queue.U.booked
            && current == (queue.U.head + queue.U.moved) % Pow2(queue.bits) && end == queue.booked)
      && (queue.Loot() != [] ==> current != end)
    }

    constructor (queue: LifoQueue, oldHead: nat, newHead: nat)
      requires queue.Valid() && queue.U.moved == 0 && queue.U.head < queue.U.booked
      requires oldHead == queue.head && newHead == queue.booked
      ensures Valid() && this.queue == queue
    {
      this.queue := queue;
      current, end := oldHead, newHead;
      WordsShow(queue.bits, queue.U);
    }

    /** `Drain::next`: the oldest booked item, releasing the head with the last one. */
    method Next() returns (r: Option<Item>)
      requires Valid()
      modifies this, queue
      ensures Valid() && queue.Deque() == old(queue.Deque())
      ensures r.None? <==> old(current == end)
      ensures r.Some? ==> old(queue.Loot()) == [r.value] + queue.Loot()
      ensures r.Some? && current == end ==> queue.U.head == queue.U.booked == old(queue.U.booked)
    {
      if current == end { return None; }
      NextWord(Pow2(queue.bits), queue.U);
      var x := queue.TakeLoot(current);
      r := Some(x);
      current := (current + 1) % Pow2(queue.bits);
      if current == end { queue.EndDrain(end); }
    }
  }

  lemma NextWord(w: nat, U: Queue)
    requires w > 0 && QueueInv(w, U) && U.head + U.moved < U.booked
    ensures ((U.head + U.moved) % w + 1) % w == (U.head + U.moved + 1) % w
    ensures (U.head + U.moved + 1) % w == U.booked % w <==> U.head + U.moved + 1 == U.booked
  {
    ModAdd(U.head + U.moved, 1, w);
    if (U.head + U.moved + 1) % w == U.booked % w { ModNear(U.head + U.moved + 1, U.booked, w); }
  }
}
