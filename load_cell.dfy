/**
 * `LoadCell.getNextForce`: a cyclic cursor over a fixed list of force values that stands
 * in for the load cell measurement.
 */
module BenchLoadCell {
  import opened PyRuntime
  import opened CInt

  /** The class-level list `LoadCell.forces`. */
  const DefaultForces: seq<int> := [100, 200, 300, 400, 500, 400, 300, 200]

  /** The cursor after one call on a non-empty list of `len` values. */
  function NextIndex(len: nat, i: int): int {
    if i < len then i + 1 else 1
  }

  /** The cursor after `k` calls, starting from 0. */
  function IndexAfter(len: nat, k: nat): int {
    if k == 0 then 0 else NextIndex(len, IndexAfter(len, k - 1))
  }

  /**
   * After `k >= 1` calls the cursor is `(k - 1) mod len + 1`, so it stays in [1, len], and
   * the value the next call returns, at position `cursor mod len`, is the `k`-th one
   * (counting from 0) of the endlessly repeated list.
   */
  lemma {:induction false} IndexAfterCalls(len: nat, k: nat)
    requires len > 0
    ensures k > 0 ==> IndexAfter(len, k) == (k - 1) % len + 1 && 1 <= IndexAfter(len, k) <= len
    ensures IndexAfter(len, k) % len == k % len
  {
    if k == 0 {
    } else {
      if k == 1 {
        DivUnique(0, len, 0, 0);
      } else {
        IndexAfterCalls(len, k - 1);
        ModSucc(len, k - 2);
      }
      ModSucc(len, k - 1);
      if (k - 1) % len + 1 < len {
        DivUnique((k - 1) % len + 1, len, 0, (k - 1) % len + 1);
      } else {
        DivUnique(len, len, 1, 0);
      }
    }
  }

  /** Counting up by one modulo `len`: the remainder steps by one or wraps to 0. */
  lemma ModSucc(len: nat, a: nat)
    requires len > 0
    ensures (a + 1) % len == if a % len + 1 < len then a % len + 1 else 0
  {
    var q, r := a / len, a % len;
    if r + 1 < len {
      DivUnique(a + 1, len, q, r + 1);
    } else {
      DivUnique(a + 1, len, q + 1, 0);
    }
  }

  class LoadCell {
    /** The list the cursor runs over. */
    const forces: seq<int>
    /** `self.index`. */
    var index: int

    ghost predicate Valid()
      reads this
    {
      0 <= index <= |forces|
    }

    /** A fresh instance: the cursor at 0 (the load cell amplifier setup is not modelled). */
    constructor (values: seq<int>)
      ensures Valid() && forces == values && index == 0
    {
      forces := values;
      index := 0;
    }

    /**
     * `getNextForce`: on an empty list the call to the undefined `Settings.quit_prog`
     * raises and no value is returned. Otherwise the value at the cursor is returned,
     * wrapping to the first value once the cursor has reached the end, and the cursor
     * moves past the value returned.
     */
    method GetNextForce() returns (r: Outcome<int>)
      requires Valid()
      modifies this`index
      ensures Valid()
      ensures |forces| == 0 ==> r == Raise(AttributeError) && index == old(index)
      ensures |forces| > 0 ==>
        r == Return(forces[old(index) % |forces|]) && index == NextIndex(|forces|, old(index)) && 1 <= index
    {
      var length := |forces|;
      if length == 0 {
        return Raise(AttributeError);
      }
      if index < length {
        index := index + 1;
        DivUnique(index - 1, length, 0, index - 1);
        r := Return(forces[index - 1]);
      } else {
        index := 1;
        DivUnique(length, length, 1, 0);
        r := Return(forces[0]);
      }
    }
  }
}
