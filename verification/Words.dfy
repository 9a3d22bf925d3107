/** Machine words: residues of unbounded counters, and the power-of-two facts
    that let a masked position index a ring. */
module Words {

  datatype Option<+T> = None | Some(value: T)

  function Min(a: int, b: int): int { if a <= b then a else b }

  function Pow2(n: nat): (r: nat)
    ensures r > 0
  {
    if n == 0 then 1 else 2 * Pow2(n - 1)
  }

  /** The machine arithmetic of the queues. `wrap` selects the shipped code, which
      reduces every result to a short word; without it the counters are unbounded. */
  function N(wrap: bool, w: nat, x: int): int
    requires w > 0
  {
    if wrap then x % w else x
  }

  /** Bitwise and, digit by digit. */
  function BitAnd(x: nat, y: nat): nat {
    if x == 0 || y == 0 then 0
    else 2 * BitAnd(x / 2, y / 2) + (if x % 2 == 1 && y % 2 == 1 then 1 else 0)
  }

  /** A multiple of the modulus strictly inside one modulus of zero is zero. */
  lemma NoSmallMultiple(k: int, w: int)
    requires w > 0
    ensures k == 0 || k * w >= w || k * w <= 0 - w
  {
    if k >= 1 {
      assert (k - 1) * w >= 0;
    } else if k <= -1 {
      assert (-k - 1) * w >= 0;
    }
  }

  lemma ModUnique(x: int, w: nat, k: int, r: int)
    requires 0 <= r < w && x == k * w + r
    ensures x % w == r
  {
    var d := x / w;
    assert x == d * w + x % w;
    assert (k - d) * w == x % w - r;
    NoSmallMultiple(k - d, w);
  }

  /** Adding a multiple of the modulus changes nothing. */
  lemma ModShift(x: int, w: nat, k: int)
    requires w > 0
    ensures (x + k * w) % w == x % w
  {
    assert x == (x / w) * w + x % w;
    assert x + k * w == (x / w + k) * w + x % w;
    ModUnique(x + k * w, w, x / w + k, x % w);
  }

  lemma ModAdd(x: int, y: int, w: nat)
    requires w > 0
    ensures (x % w + y) % w == (x + y) % w
  {
    assert x % w + y == x + y + (-(x / w)) * w by { assert x == (x / w) * w + x % w; }
    ModShift(x + y, w, -(x / w));
  }

  lemma ModSub(x: int, y: int, w: nat)
    requires w > 0
    ensures (x % w - y % w) % w == (x - y) % w
  {
    ModAdd(x, -(y % w), w);
    assert x - y % w == x - y + (y / w) * w by { assert y == (y / w) * w + y % w; }
    ModShift(x - y, w, y / w);
  }

  /** Two counters closer than the modulus are equal as soon as their words are. */
  lemma ModNear(x: int, y: int, w: nat)
    requires w > 0 && 0 - w < x - y < w && x % w == y % w
    ensures x == y
  {
    assert x == (x / w) * w + x % w;
    assert y == (y / w) * w + y % w;
    assert x - y == (x / w - y / w) * w;
    NoSmallMultiple(x / w - y / w, w);
  }

  lemma ModSmall(x: int, w: nat)
    requires 0 <= x < w
    ensures x % w == x
  {
    ModUnique(x, w, 0, x);
  }

  lemma ModBelow(x: int, w: nat)
    requires w > 0 && x >= 0
    ensures 0 <= x % w <= x
  {
    if x < w { ModSmall(x, w); }
  }

  /** A true count of `n`, read `d` too large, shows as zero on words. */
  predicate ReadsZero(w: nat, n: int, d: int)
    requires w > 0
  {
    (n + d) % w == 0
  }

  /** A count of at most `cap` cannot show as zero unless it is, as long as the error keeps clear
      of the last `cap` values before a multiple of the word size. */
  lemma ZeroIsHonest(w: nat, cap: nat, n: nat, d: int)
    requires 0 < cap < w && n <= cap && d % w < w - cap && ReadsZero(w, n, d)
    ensures n == 0
  {
    ModAdd(d, n, w);
    ModSmall(d % w + n, w);
  }

  /** Otherwise some count of at most `cap` does. */
  lemma ZeroIsSpurious(w: nat, cap: nat, d: int)
    requires 0 < cap < w && d % w >= w - cap
    ensures var n := w - d % w; 1 <= n <= cap && ReadsZero(w, n, d)
  {
    var n := w - d % w;
    ModAdd(d, n, w);
    ModUnique(d % w + n, w, 1, 0);
  }

  /** Reducing to a word first does not change the slot index of a ring whose
      size divides the word size. */
  lemma ModMod(p: int, w: nat, cap: nat)
    requires cap > 0 && w > 0 && w % cap == 0
    ensures (p % w) % cap == p % cap
  {
    assert p == (p / w) * w + p % w;
    assert w == (w / cap) * cap;
    assert (p / w) * w == ((p / w) * (w / cap)) * cap;
    ModShift(p % w, cap, (p / w) * (w / cap));
  }

  lemma {:induction false} Pow2Divides(i: nat, j: nat)
    requires i <= j
    ensures Pow2(j) == Pow2(j - i) * Pow2(i)
    decreases i
  {
    if i > 0 {
      Pow2Divides(i - 1, j - 1);
      assert Pow2(j) == 2 * (Pow2(j - i) * Pow2(i - 1));
    }
  }

  /** Doubling a division: the quotient by `2 * h` is the quotient of the half by `h`. */
  lemma ModDouble(x: nat, h: nat)
    requires h > 0
    ensures x % (2 * h) == 2 * ((x / 2) % h) + x % 2
  {
    var y := x / 2;
    assert y == (y / h) * h + y % h;
    assert x == (y / h) * (2 * h) + (2 * (y % h) + x % 2) by {
      assert 2 * ((y / h) * h) == (y / h) * (2 * h);
    }
    ModUnique(x, 2 * h, y / h, 2 * (y % h) + x % 2);
  }

  /** The ring's `position & mask` is the position modulo the capacity. */
  lemma {:induction false} MaskIsMod(x: nat, n: nat)
    ensures BitAnd(x, Pow2(n) - 1) == x % Pow2(n)
    decreases n
  {
    if x == 0 {
      ModUnique(0, Pow2(n), 0, 0);
    } else if n > 0 {
      var h := Pow2(n - 1);
      MaskIsMod(x / 2, n - 1);
      ModDouble(x, h);
      assert (2 * h - 1) / 2 == h - 1 && (2 * h - 1) % 2 == 1;
    }
  }

  /** Two short words packed into a long one (`pack`, `unpack`): the first in the high bits. */
  function Pack(w: nat, hi: nat, lo: nat): nat { hi * w + lo }

  function High(w: nat, x: nat): nat
    requires w > 0
  {
    x / w
  }

  function Low(w: nat, x: nat): nat
    requires w > 0
  {
    x % w
  }

  lemma DivUnique(x: int, w: nat, k: int, r: int)
    requires 0 <= r < w && x == k * w + r
    ensures x / w == k
  {
    ModUnique(x, w, k, r);
    var d := x / w;
    assert x == d * w + x % w;
    assert (d - k) * w == 0;
    NoSmallMultiple(d - k, w);
  }

  lemma PackBound(w: nat, hi: nat)
    requires hi < w
    ensures hi * w + w <= w * w
    decreases w - hi
  {
    if hi + 1 < w { PackBound(w, hi + 1); }
  }

  /** Unpacking gives both words back, so comparing packed words compares both at once; and
      packed words stay below the long word size. */
  lemma PackIsFaithful(w: nat, hi: nat, lo: nat)
    requires hi < w && lo < w
    ensures High(w, Pack(w, hi, lo)) == hi && Low(w, Pack(w, hi, lo)) == lo && Pack(w, hi, lo) < w * w
  {
    ModUnique(hi * w + lo, w, hi, lo);
    DivUnique(hi * w + lo, w, hi, lo);
    PackBound(w, hi);
  }

  /** `Worker::new` allows any power of two up to half the word range. */
  ghost predicate ValidSize(bits: nat, cap: nat) {
    exists e: nat :: e < bits && cap == Pow2(e)
  }

  ghost predicate ValidSizes(w: nat, caps: seq<nat>) {
    exists bits: nat :: w == Pow2(bits) && forall i :: 0 <= i < |caps| ==> ValidSize(bits, caps[i])
  }

  lemma {:induction false} Pow2Below(e: nat, bits: nat)
    requires e < bits
    ensures 2 * Pow2(e) <= Pow2(bits)
  {
    if e + 1 < bits {
      Pow2Below(e, bits - 1);
    }
  }

  /** `next_power_of_two`, as an exponent. */
  function CeilLog(n: nat): nat {
    if n <= 1 then 0 else 1 + CeilLog((n + 1) / 2)
  }

  /** It is the least power of two that is large enough. */
  lemma {:induction false} CeilLogIsLeast(n: nat, e: nat)
    ensures n <= Pow2(e) <==> CeilLog(n) <= e
    decreases n
  {
    if n > 1 && e > 0 { CeilLogIsLeast((n + 1) / 2, e - 1); }
  }

  /** A run of moves, one at a time: each trades a gain at the back for a claim at the front. */
  lemma Regroup<T>(p: seq<T>, gain: seq<T>, more: seq<T>, claim: seq<T>, rest: seq<T>, p': seq<T>, end: seq<T>)
    requires p + gain == claim + p' && p' + more == rest + end
    ensures p + (gain + more) == (claim + rest) + end
  {
    assert p + (gain + more) == (p + gain) + more;
    assert (claim + p') + more == claim + (p' + more);
    assert claim + (rest + end) == (claim + rest) + end;
  }

  lemma SizeFacts(w: nat, caps: seq<nat>, i: nat)
    requires ValidSizes(w, caps) && i < |caps|
    ensures caps[i] > 0 && w % caps[i] == 0 && 2 * caps[i] <= w
  {
    var bits: nat :| w == Pow2(bits) && forall j :: 0 <= j < |caps| ==> ValidSize(bits, caps[j]);
    var e: nat :| e < bits && caps[i] == Pow2(e);
    Pow2Below(e, bits);
    Pow2Divides(e, bits);
    ModUnique(w, caps[i], Pow2(bits - e), 0);
  }
}
