/**
 * What the two project-selection menus share: the hub's buttons, the three
 * demo projects, and the wrap-around cursor moves `(i + 1) % n` and
 * `(i - 1) % n`.  Python's `%` with a positive divisor is never negative,
 * exactly like Dafny's.
 */
module Menu {

  datatype Button = Left | Right | Center | Bluetooth

  /** The functions `A`, `B` and `C` a menu can run. */
  datatype Project = A | B | C

  /** RIGHT: `(index + 1) % slots`. */
  function Next(index: int, slots: nat): (j: int)
    requires slots > 0
    ensures 0 <= j < slots
  {
    (index + 1) % slots
  }

  /** LEFT: `(index - 1) % slots`. */
  function Prev(index: int, slots: nat): (j: int)
    requires slots > 0
    ensures 0 <= j < slots
  {
    (index - 1) % slots
  }

  /**
   * On a cursor in range, LEFT undoes RIGHT and RIGHT undoes LEFT; RIGHT from
   * the last slot wraps to 0 and LEFT from 0 wraps to the last slot; every
   * other move is a plain step of one.
   */
  lemma {:induction false} PrevNextInverse(index: int, slots: nat)
    requires 0 <= index < slots
    ensures Prev(Next(index, slots), slots) == index
    ensures Next(Prev(index, slots), slots) == index
    ensures Next(index, slots) == if index == slots - 1 then 0 else index + 1
    ensures Prev(index, slots) == if index == 0 then slots - 1 else index - 1
  {
    SmallMod(if index == slots - 1 then 0 else index + 1, index + 1, slots);
    SmallMod(if index == 0 then slots - 1 else index - 1, index - 1, slots);
    var n := Next(index, slots);
    SmallMod(if n == 0 then slots - 1 else n - 1, n - 1, slots);
    var p := Prev(index, slots);
    SmallMod(if p == slots - 1 then 0 else p + 1, p + 1, slots);
  }

  /** `x % n == r` when `x` is `r` or `r` shifted by one period. */
  lemma SmallMod(r: int, x: int, n: nat)
    requires 0 <= r < n && (x == r || x == r + n || x == r - n)
    ensures x % n == r
  {
    if x == r + n {
      assert x == 1 * n + r;
    } else if x == r - n {
      assert x == (-1) * n + r;
    }
  }
}
