/** Facts about fixed-capacity pools seen through their active flags:
    the first-free-slot scan every spawner performs, and the number of
    active slots. */
module Pools {

  /** The number of set flags: the active count of a pool. */
  function CountTrue(f: seq<bool>): (n: nat)
    ensures n <= |f|
  {
    if f == [] then 0 else (if f[0] then 1 else 0) + CountTrue(f[1..])
  }

  /** The index a `for (i = start; i < N; i++) if (!pool[i].active)` scan
      stops at: the lowest free slot at or after `start`, or `|f|` when
      every such slot is taken. */
  function FirstFreeFrom(f: seq<bool>, start: nat): (k: nat)
    requires start <= |f|
    ensures start <= k <= |f|
    ensures forall j :: start <= j < k ==> f[j]
    ensures k < |f| ==> !f[k]
    decreases |f| - start
  {
    if start == |f| || !f[start] then start else FirstFreeFrom(f, start + 1)
  }

  /** The lowest free slot is determined by the two properties above. */
  lemma FirstFreeUnique(f: seq<bool>, start: nat, k: nat)
    requires start <= k <= |f|
    requires forall j :: start <= j < k ==> f[j]
    requires k < |f| ==> !f[k]
    ensures FirstFreeFrom(f, start) == k
  {
  }

  /** Changing one flag changes the count by exactly that flag's change. */
  lemma {:induction false} CountTrueUpdate(f: seq<bool>, k: nat, v: bool)
    requires k < |f|
    ensures CountTrue(f[k := v]) ==
            CountTrue(f) - (if f[k] then 1 else 0) + (if v then 1 else 0)
  {
    if k == 0 {
      assert f[k := v][1..] == f[1..];
    } else {
      CountTrueUpdate(f[1..], k - 1, v);
      assert f[k := v][1..] == f[1..][k - 1 := v];
    }
  }

  /** A pool whose first `n` slots are exactly the active ones holds `n`. */
  lemma {:induction false} CountTruePrefix(f: seq<bool>, n: nat)
    requires n <= |f|
    requires forall i :: 0 <= i < |f| ==> f[i] == (i < n)
    ensures CountTrue(f) == n
  {
    if f != [] {
      var m := if n == 0 then 0 else n - 1;
      assert forall i :: 0 <= i < |f[1..]| ==> f[1..][i] == f[i + 1];
      CountTruePrefix(f[1..], m);
    }
  }

  /** Activating slots, never deactivating them, cannot lower the count. */
  lemma {:induction false} CountTrueMonotone(f: seq<bool>, g: seq<bool>)
    requires |f| == |g|
    requires forall i :: 0 <= i < |f| ==> f[i] ==> g[i]
    ensures CountTrue(f) <= CountTrue(g)
  {
    if f != [] {
      assert forall i :: 0 <= i < |f[1..]| ==> f[1..][i] == f[i + 1] && g[1..][i] == g[i + 1];
      CountTrueMonotone(f[1..], g[1..]);
    }
  }

  /** `after` is `before` with exactly its lowest free slot activated, or
      `before` itself when every slot is taken. */
  predicate FilledLowestFree(before: seq<bool>, after: seq<bool>)
  {
    var i := FirstFreeFrom(before, 0);
    if i < |before| then after == before[i := true] else after == before
  }

  /** Allocating through the lowest-free-slot scan adds one active slot when
      a slot is free and none otherwise, so the count never exceeds the
      capacity. */
  lemma FilledLowestFreeCount(before: seq<bool>, after: seq<bool>)
    requires FilledLowestFree(before, after)
    ensures var i := FirstFreeFrom(before, 0);
            CountTrue(after) == CountTrue(before) + (if i < |before| then 1 else 0)
    ensures CountTrue(after) <= |before|
  {
    var i := FirstFreeFrom(before, 0);
    if i < |before| {
      CountTrueUpdate(before, i, true);
    }
  }

  /** A pool is full exactly when every slot is active. */
  lemma {:induction false} CountTrueAll(f: seq<bool>)
    ensures CountTrue(f) == |f| <==> forall i :: 0 <= i < |f| ==> f[i]
  {
    if f != [] {
      CountTrueAll(f[1..]);
      assert forall i :: 0 <= i < |f[1..]| ==> f[1..][i] == f[i + 1];
      if CountTrue(f) == |f| {
        assert f[0] && CountTrue(f[1..]) == |f[1..]|;
        assert forall i :: 1 <= i < |f| ==> f[i] by {
          forall i | 1 <= i < |f| ensures f[i] { assert f[1..][i - 1] == f[i]; }
        }
      }
    }
  }

  /** The lowest-free-slot scan finds a slot exactly when the pool is not full. */
  lemma FreeSlotIffNotFull(f: seq<bool>)
    ensures FirstFreeFrom(f, 0) < |f| <==> CountTrue(f) < |f|
  {
    CountTrueAll(f);
  }

  /** An allocation through the scan adds an active slot exactly when the
      pool is not full. */
  lemma FilledLowestFreeSaturates(before: seq<bool>, after: seq<bool>)
    requires FilledLowestFree(before, after)
    ensures CountTrue(after) == if CountTrue(before) < |before| then CountTrue(before) + 1
                                else CountTrue(before)
  {
    FilledLowestFreeCount(before, after);
    FreeSlotIffNotFull(before);
  }
}
