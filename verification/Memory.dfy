/** The raw memory behind a ring of slots, reached through masked words. */
module Memory {
  import opened Words
  import opened Ring
  import Transfer

  /** Memory agrees with every slot that holds an item; other slots may hold anything. */
  ghost predicate Backs(memory: seq<Item>, slots: seq<Slot>) {
    |memory| == |slots| && forall i :: 0 <= i < |slots| ==> (slots[i].Held? ==> memory[i] == slots[i].item)
  }

  /** The masked index of a word is the slot of the position it stands for. */
  lemma Index(bits: nat, cap: nat, p: int)
    requires ValidSize(bits, cap)
    ensures cap > 0 && 0 <= p % Pow2(bits) && BitAnd(p % Pow2(bits), cap - 1) == p % cap
  {
    var e: nat :| e < bits && cap == Pow2(e);
    Transfer.MaskedIndex(bits, cap, p % Pow2(bits));
    Pow2Divides(e, bits);
    ModUnique(Pow2(bits), cap, Pow2(bits - e), 0);
    ModMod(p, Pow2(bits), cap);
  }

  lemma BacksWrite(memory: seq<Item>, slots: seq<Slot>, p: int, x: Item)
    requires Backs(memory, slots) && |slots| > 0
    ensures Backs(memory[p % |slots| := x], Write(slots, p, Held(x)))
  {
  }

  lemma BacksVacate(memory: seq<Item>, slots: seq<Slot>, p: int)
    requires Backs(memory, slots) && |slots| > 0
    ensures Backs(memory, Write(slots, p, Vacant))
  {
  }

  lemma BacksRead(memory: seq<Item>, slots: seq<Slot>, p: int)
    requires Backs(memory, slots) && |slots| > 0 && Cell(slots, p).Held?
    ensures memory[p % |slots|] == ItemAt(slots, p)
  {
  }

  lemma AddWords(x: int, n: int, w: nat, word: int)
    requires w > 0 && word == x % w
    ensures (word + n) % w == (x + n) % w
  {
    ModAdd(x, n, w);
  }
}
