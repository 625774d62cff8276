/**
 * Picking the most recent record of every sector out of a summaries tree
 * sector -> timestamp key -> record. The relay and the dashboard server
 * both do this with the same rule (a running maximum that starts at 0 and
 * is replaced only by a strictly greater key) and differ only in how a key
 * is read as a number, so the rule is stated once, over a key reader.
 */
module Snapshots {
  import opened Base

  /** A sector's subtree in the order the runtime enumerates its keys. */
  type Entries<V> = seq<(string, V)>

  /**
   * Index i holds the record the scan keeps: its key is positive and
   * maximal, and no earlier key reaches it (the first of equal keys wins).
   */
  ghost predicate IsLatestAt<V>(regs: Entries<V>, i: int, num: string -> int)
  {
    && 0 <= i < |regs|
    && num(regs[i].0) > 0
    && (forall j | 0 <= j < |regs| :: num(regs[j].0) <= num(regs[i].0))
    && (forall j | 0 <= j < i :: num(regs[j].0) < num(regs[i].0))
  }

  ghost predicate HasPositiveKey<V>(regs: Entries<V>, num: string -> int)
  {
    exists i | 0 <= i < |regs| :: num(regs[i].0) > 0
  }

  ghost predicate IsLatestRecord<V>(regs: Entries<V>, r: V, num: string -> int)
  {
    exists i | 0 <= i < |regs| :: IsLatestAt(regs, i, num) && regs[i].1 == r
  }

  /** The result map holds exactly the sectors with a positive key, each with its latest record. */
  ghost predicate IsLatestPerSector<V>(raw: map<string, Entries<V>>, res: map<string, V>, num: string -> int)
  {
    && (forall s :: s in res <==> s in raw && HasPositiveKey(raw[s], num))
    && (forall s | s in res :: IsLatestRecord(raw[s], res[s], num))
  }

  /** The selected position is unique, so the selection is a function of the subtree. */
  lemma LatestUnique<V>(regs: Entries<V>, i: int, j: int, num: string -> int)
    requires IsLatestAt(regs, i, num) && IsLatestAt(regs, j, num)
    ensures i == j
  {
  }

  /** Two results that both satisfy the selection rule are the same map. */
  lemma LatestPerSectorUnique<V>(raw: map<string, Entries<V>>, a: map<string, V>, b: map<string, V>, num: string -> int)
    requires IsLatestPerSector(raw, a, num) && IsLatestPerSector(raw, b, num)
    ensures a == b
  {
    forall s | s in a ensures s in b && a[s] == b[s] {
      var i :| 0 <= i < |raw[s]| && IsLatestAt(raw[s], i, num) && raw[s][i].1 == a[s];
      var j :| 0 <= j < |raw[s]| && IsLatestAt(raw[s], j, num) && raw[s][j].1 == b[s];
      LatestUnique(raw[s], i, j, num);
    }
  }

  /** The scan of one sector's subtree. */
  method LatestInSector<V>(regs: Entries<V>, num: string -> int) returns (r: Option<V>)
    ensures r.None? <==> !HasPositiveKey(regs, num)
    ensures r.Some? ==> IsLatestRecord(regs, r.value, num)
  {
    var maxTs := 0;
    r := None;
    ghost var at := -1;
    for k := 0 to |regs|
      invariant r.None? ==> maxTs == 0 && forall j | 0 <= j < k :: num(regs[j].0) <= 0
      invariant r.Some? ==> 0 <= at < k && regs[at].1 == r.value && num(regs[at].0) == maxTs > 0
      invariant r.Some? ==> forall j | 0 <= j < k :: num(regs[j].0) <= maxTs
      invariant r.Some? ==> forall j | 0 <= j < at :: num(regs[j].0) < maxTs
    {
      var ts := num(regs[k].0);
      if ts > maxTs {
        maxTs := ts;
        r := Some(regs[k].1);
        at := k;
      }
    }
    if r.Some? {
      assert IsLatestAt(regs, at, num);
    }
  }

  /** The scan over every sector; sectors without a positive key are left out. */
  method LatestPerSector<V>(raw: map<string, Entries<V>>, num: string -> int) returns (res: map<string, V>)
    ensures IsLatestPerSector(raw, res, num)
  {
    res := map[];
    var todo := raw.Keys;
    while todo != {}
      invariant todo <= raw.Keys
      invariant forall s :: s in res <==> s in raw && s !in todo && HasPositiveKey(raw[s], num)
      invariant forall s | s in res :: IsLatestRecord(raw[s], res[s], num)
      decreases |todo|
    {
      var s :| s in todo;
      var r := LatestInSector(raw[s], num);
      if r.Some? {
        res := res[s := r.value];
      }
      todo := todo - {s};
    }
  }
}
