/** The driver's circular queues of buffer indices: empty when read == write. */
module DriverRing {

  /** Position k places after read in a ring of cap slots. */
  function Slot(read: nat, k: nat, cap: nat): (s: nat)
    requires read < cap && k < cap
    ensures s < cap
  {
    if read + k < cap then read + k else read + k - cap
  }

  lemma SlotIsMod(read: nat, k: nat, cap: nat)
    requires read < cap && k < cap
    ensures Slot(read, k, cap) == (read + k) % cap
  {
    if read + k < cap {
      SmallMod(read + k, cap);
    } else {
      SmallMod(read + k - cap, cap);
      AddCap(read + k - cap, cap);
    }
  }

  lemma SmallMod(x: nat, cap: nat)
    requires x < cap
    ensures x % cap == x
  {
  }

  lemma AddCap(x: nat, cap: nat)
    requires cap > 0
    ensures (x + cap) % cap == x % cap
  {
    var q := (x + cap) / cap;
    assert x + cap == q * cap + (x + cap) % cap;
    assert x == (q - 1) * cap + (x + cap) % cap;
    ModUnique(x, cap, q - 1, (x + cap) % cap);
  }

  lemma ModUnique(x: nat, cap: nat, q: int, r: nat)
    requires cap > 0 && r < cap && x == q * cap + r
    ensures x % cap == r
  {
    var d := x / cap - q;
    assert x == (x / cap) * cap + x % cap;
    assert d * cap == r - x % cap;
    MulSign(d, cap);
  }

  lemma MulSign(d: int, c: int)
    requires c > 0
    ensures d >= 1 ==> d * c >= c
    ensures d <= -1 ==> d * c <= -c
  {
  }

  /** The ring holds ids, oldest first, from read up to write. */
  ghost predicate Holds(slots: seq<nat>, read: nat, write: nat, ids: seq<nat>) {
    && read < |slots| && |ids| < |slots|
    && write == Slot(read, |ids|, |slots|)
    && forall k :: 0 <= k < |ids| ==> slots[Slot(read, k, |slots|)] == ids[k]
  }

  /** The driver's emptiness test. */
  lemma EmptyTest(slots: seq<nat>, read: nat, write: nat, ids: seq<nat>)
    requires Holds(slots, read, write, ids)
    ensures read == write <==> ids == []
    ensures ids != [] ==> slots[read] == ids[0]
  {
    assert ids != [] ==> slots[Slot(read, 0, |slots|)] == ids[0];
  }

  /** The driver's collision test on enqueue, and what the enqueue does when it passes. */
  lemma Enqueued(slots: seq<nat>, read: nat, write: nat, ids: seq<nat>, x: nat)
    requires Holds(slots, read, write, ids)
    ensures (write + 1) % |slots| == read <==> |ids| + 1 == |slots|
    ensures |ids| + 1 < |slots| ==> Holds(slots[write := x], read, (write + 1) % |slots|, ids + [x])
  {
    var cap := |slots|;
    if cap == 1 {
      SmallMod(0, 1);
      AddCap(0, 1);
    } else {
      SlotIsMod(write, 1, cap);
    }
    if |ids| + 1 < cap {
      var js := ids + [x];
      forall k | 0 <= k < |js|
        ensures slots[write := x][Slot(read, k, cap)] == js[k]
      {
      }
    }
  }

  lemma Dequeued(slots: seq<nat>, read: nat, write: nat, ids: seq<nat>)
    requires Holds(slots, read, write, ids) && ids != []
    ensures Holds(slots, (read + 1) % |slots|, write, ids[1..])
  {
    var cap := |slots|;
    SlotIsMod(read, 1, cap);
    forall k | 0 <= k < |ids| - 1
      ensures slots[Slot((read + 1) % cap, k, cap)] == ids[1..][k]
    {
      assert Slot((read + 1) % cap, k, cap) == Slot(read, k + 1, cap);
    }
  }
}
