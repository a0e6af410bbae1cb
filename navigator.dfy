/** The index arithmetic of `select_track` and `select_playlist`: one step
    forwards or backwards, wrapping round within `[0, last]`. */
module Navigator {

  datatype Direction = Next | Prev

  function Increment(d: Direction): int {
    if d == Next then 1 else -1
  }

  /** Add the increment; below 0 go to `last`, above `last` go to 0. */
  function Wrap(index: int, last: int, d: Direction): (r: int)
    ensures last >= 0 ==> 0 <= r <= last
    ensures index + Increment(d) < 0 ==> r == last
    ensures index + Increment(d) > last >= 0 ==> r == 0
    ensures 0 <= index + Increment(d) <= last ==> r == index + Increment(d)
  {
    var moved := index + Increment(d);
    if moved < 0 then last
    else if moved > last then 0
    else moved
  }

  /** Inside the range, a step is addition modulo the number of entries. */
  lemma WrapModulo(index: int, last: int, d: Direction)
    requires 0 <= index <= last
    ensures Wrap(index, last, d) == (index + Increment(d)) % (last + 1)
  {
    var moved := index + Increment(d);
    if moved < 0 {
      assert moved == -1;
    } else if moved > last {
      assert moved == last + 1;
    }
  }

  /** A step back undoes a step forward and the other way round. */
  lemma WrapInverse(index: int, last: int)
    requires 0 <= index <= last
    ensures Wrap(Wrap(index, last, Next), last, Prev) == index
    ensures Wrap(Wrap(index, last, Prev), last, Next) == index
  {
  }

  /** k steps in one direction. */
  function Steps(index: int, last: int, d: Direction, k: nat): int {
    if k == 0 then index else Wrap(Steps(index, last, d, k - 1), last, d)
  }

  lemma {:induction false} StepsCompose(index: int, last: int, d: Direction, a: nat, b: nat)
    ensures Steps(index, last, d, a + b) == Steps(Steps(index, last, d, a), last, d, b)
  {
    if b > 0 {
      StepsCompose(index, last, d, a, b - 1);
    }
  }

  /** Inside the range, k steps move by exactly k. */
  lemma {:induction false} StepsInside(index: int, last: int, d: Direction, k: nat)
    requires 0 <= index <= last
    requires if d == Next then index + k <= last else k <= index
    ensures Steps(index, last, d, k) == if d == Next then index + k else index - k
  {
    if k > 0 {
      StepsInside(index, last, d, k - 1);
    }
  }

  /** Pressing "next" (or "prev") as many times as there are entries comes
      back to where it started. */
  lemma FullCycle(index: int, last: int, d: Direction)
    requires 0 <= index <= last
    ensures Steps(index, last, d, last + 1) == index
  {
    if d == Next {
      StepsCompose(index, last, d, last - index, index + 1);
      StepsInside(index, last, d, last - index);
      assert Steps(index, last, d, last - index) == last;
      StepsCompose(last, last, d, 1, index);
      assert Steps(last, last, d, 1) == 0;
      StepsInside(0, last, d, index);
    } else {
      StepsCompose(index, last, d, index, last + 1 - index);
      StepsInside(index, last, d, index);
      assert Steps(index, last, d, index) == 0;
      StepsCompose(0, last, d, 1, last - index);
      assert Steps(0, last, d, 1) == last;
      StepsInside(last, last, d, last - index);
    }
  }
}
