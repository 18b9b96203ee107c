/** How benchmark clients divide the keyspace: affinity ranges, key selection, and the strided
    shards of the bootstrap. */
module KeyPartition {
  import opened Wrappers

  // ----- affinity ranges ---------------------------------------------------------------

  datatype Span = Span(start: nat, length: nat)

  function Effective(keyspace: int, slots: int): (e: nat)
    requires keyspace > 0
    ensures 1 <= e <= keyspace
  {
    if slots < 1 then 1 else if slots < keyspace then slots else keyspace
  }

  // Slot i when base keys go to every slot and one more to each of the first extra slots.
  function Slot(base: nat, extra: nat, i: nat): (s: Span)
    ensures s.length >= 1
  {
    var start := i * base + if i < extra then i else extra;
    var length := base + if i < extra then 1 else 0;
    Span(start, if length < 1 then 1 else length)
  }

  // _affinity_partition_bounds; none if it raises.
  function Bounds(keyspace: int, slots: int, index: int): Option<Span> {
    if keyspace <= 0 then None
    else
      var e := Effective(keyspace, slots);
      Some(Slot(keyspace / e, keyspace % e, index % e))
  }

  // Where slot i starts if the slots before it are laid end to end.
  function Before(base: nat, extra: nat, i: nat): nat {
    if i == 0 then 0 else Before(base, extra, i - 1) + Slot(base, extra, i - 1).length
  }

  lemma {:induction false} EndToEnd(base: nat, extra: nat, i: nat)
    requires base >= 1
    ensures Slot(base, extra, i).start == Before(base, extra, i)
  {
    if i > 0 {
      EndToEnd(base, extra, i - 1);
      assert i * base == (i - 1) * base + base;
    }
  }

  lemma {:induction false} Increasing(base: nat, extra: nat, i: nat, j: nat)
    requires i <= j
    ensures Before(base, extra, i) <= Before(base, extra, j)
  {
    if i < j { Increasing(base, extra, i, j - 1); }
  }

  lemma {:induction false} Locate(base: nat, extra: nat, k: nat, n: nat) returns (i: nat)
    requires k < Before(base, extra, n)
    ensures i < n && Before(base, extra, i) <= k < Before(base, extra, i + 1)
  {
    if Before(base, extra, n - 1) <= k { i := n - 1; } else { i := Locate(base, extra, k, n - 1); }
  }

  predicate Within(k: int, s: Span) { s.start <= k < s.start + s.length }

  lemma OneSlot(base: nat, extra: nat, n: nat, k: nat) returns (i: nat)
    requires base >= 1 && k < Before(base, extra, n)
    ensures i < n && Within(k, Slot(base, extra, i))
    ensures forall j: nat :: Within(k, Slot(base, extra, j)) ==> j == i
  {
    i := Locate(base, extra, k, n);
    EndToEnd(base, extra, i);
    forall j: nat | j != i ensures !Within(k, Slot(base, extra, j)) {
      EndToEnd(base, extra, j);
      if j < i { Increasing(base, extra, j + 1, i); } else { Increasing(base, extra, i + 1, j); }
    }
  }

  lemma SlotsFill(keyspace: nat, e: nat)
    requires 0 < e <= keyspace
    ensures keyspace / e >= 1 && Before(keyspace / e, keyspace % e, e) == keyspace
  {
    EndToEnd(keyspace / e, keyspace % e, e);
    assert e * (keyspace / e) + keyspace % e == keyspace;
  }

  // The ranges of the effective slots are laid end to end from 0 to the end of the keyspace,
  // and no two differ by more than one key.
  lemma BoundsTile(keyspace: int, slots: int, i: nat)
    requires keyspace > 0 && i < Effective(keyspace, slots)
    ensures var e := Effective(keyspace, slots);
            && Bounds(keyspace, slots, i) == Some(Slot(keyspace / e, keyspace % e, i))
            && Bounds(keyspace, slots, i).value.start == Before(keyspace / e, keyspace % e, i)
            && keyspace / e <= Bounds(keyspace, slots, i).value.length <= keyspace / e + 1
            && Before(keyspace / e, keyspace % e, e) == keyspace
  {
    var e := Effective(keyspace, slots);
    SlotsFill(keyspace, e);
    EndToEnd(keyspace / e, keyspace % e, i);
    SmallMod(i, e);
  }

  lemma SmallMod(i: nat, e: nat)
    requires i < e
    ensures i % e == i
  {
  }

  // Every key lies in the range of exactly one effective slot.
  lemma OneSlotPerKey(keyspace: int, slots: int, k: nat) returns (i: nat)
    requires k < keyspace
    ensures i < Effective(keyspace, slots) && Within(k, Bounds(keyspace, slots, i).value)
    ensures forall j :: 0 <= j < Effective(keyspace, slots) && Within(k, Bounds(keyspace, slots, j).value) ==> j == i
  {
    var e := Effective(keyspace, slots);
    SlotsFill(keyspace, e);
    i := OneSlot(keyspace / e, keyspace % e, e, k);
    SmallMod(i, e);
    forall j | 0 <= j < e && j != i ensures !Within(k, Bounds(keyspace, slots, j).value) {
      SmallMod(j, e);
    }
  }

  // As many ranges as there are slots, or keys if there are fewer; one if there is no slot.
  function Ranges(keyspace: nat, slots: int): nat {
    if slots < 1 then 1 else if slots < keyspace then slots else keyspace
  }

  // There are exactly that many ranges: any index gives one of the first ones, two different of
  // these have no key in common, and each has a key.
  lemma RangesDiffer(keyspace: int, slots: int, i: int, j: int)
    requires keyspace > 0
    ensures var n := Ranges(keyspace, slots);
            && n > 0 && Bounds(keyspace, slots, i) == Bounds(keyspace, slots, i % n)
            && Bounds(keyspace, slots, i).value.length >= 1
            && (0 <= i < j < n ==>
                  Bounds(keyspace, slots, i).value.start + Bounds(keyspace, slots, i).value.length
                  <= Bounds(keyspace, slots, j).value.start)
  {
    var e := Effective(keyspace, slots);
    SmallMod(i % e, e);
    if 0 <= i < j < e {
      SlotsFill(keyspace, e);
      SmallMod(i, e);
      SmallMod(j, e);
      EndToEnd(keyspace / e, keyspace % e, i);
      EndToEnd(keyspace / e, keyspace % e, j);
      Increasing(keyspace / e, keyspace % e, i + 1, j);
    }
  }

  // ----- key selection -----------------------------------------------------------------

  // bisect.bisect_left, on any list of numbers
  function BisectLeft(a: seq<real>, x: real, lo: nat, hi: nat): (i: nat)
    requires lo <= hi <= |a|
    ensures lo <= i <= hi
    decreases hi - lo
  {
    if lo == hi then lo
    else
      var mid := (lo + hi) / 2;
      if a[mid] < x then BisectLeft(a, x, mid + 1, hi) else BisectLeft(a, x, lo, mid)
  }

  // The request distribution: uniform, or zipfian with its table for each size.
  datatype Distribution = Uniform | Zipfian(table: nat -> seq<real>)

  const HASH_MODULUS: real := 18446744073709551616.0

  // _sample_key_index_for_distribution
  function Sample(d: Distribution, size: int, bucket: nat): (r: Option<nat>)
    requires d.Zipfian? && size > 0 ==> |d.table(size)| == size
    ensures r.Some? <==> size > 0
    ensures r.Some? ==> r.value < size
  {
    if size <= 0 then None
    else if d.Uniform? then Some(bucket % size)
    else
      var i := BisectLeft(d.table(size), bucket as real / HASH_MODULUS, 0, size);
      Some(if size == 1 then 0 else if i >= size then size - 1 else i)
  }

  ghost predicate Ascending(a: seq<real>) { forall i, j :: 0 <= i <= j < |a| ==> a[i] <= a[j] }

  lemma {:induction false} BisectSplits(a: seq<real>, x: real, lo: nat, hi: nat)
    requires lo <= hi <= |a| && Ascending(a)
    ensures forall i :: lo <= i < BisectLeft(a, x, lo, hi) ==> a[i] < x
    ensures forall i :: BisectLeft(a, x, lo, hi) <= i < hi ==> a[i] >= x
    decreases hi - lo
  {
    if lo < hi {
      var mid := (lo + hi) / 2;
      if a[mid] < x { BisectSplits(a, x, mid + 1, hi); } else { BisectSplits(a, x, lo, mid); }
    }
  }

  // A uniform sample is the bucket's place among the keys, so every key is met once in each turn
  // of buckets.
  lemma UniformSample(size: nat, bucket: nat)
    requires size > 0
    ensures bucket < size ==> Sample(Uniform, size, bucket) == Some(bucket)
    ensures Sample(Uniform, size, bucket + size) == Sample(Uniform, size, bucket)
  {
    if bucket < size { SmallMod(bucket, size); }
    Stride(bucket, size, size);
  }

  // A zipfian sample is the first key whose cumulated weight reaches the bucket's share, or the
  // last key.
  lemma ZipfianSample(table: nat -> seq<real>, size: nat, bucket: nat)
    requires size > 0 && |table(size)| == size && Ascending(table(size))
    ensures var k, u := Sample(Zipfian(table), size, bucket).value, bucket as real / HASH_MODULUS;
            && (forall i :: 0 <= i < k ==> table(size)[i] < u)
            && (k < size - 1 ==> table(size)[k] >= u)
  {
    BisectSplits(table(size), bucket as real / HASH_MODULUS, 0, size);
  }

  datatype Config = Config(keyspace: int, slots: int, slot: Option<int>, ratio: Option<real>, dist: Distribution)

  predicate Affine(c: Config) { c.ratio.Some? && c.ratio.value > 0.0 && c.slots > 1 }

  // The three stable hashes of one operation.
  datatype Buckets = Buckets(route: nat, within: nat, overall: nat)

  predicate Local(c: Config, b: Buckets) { Affine(c) && b.route as real / HASH_MODULUS < c.ratio.value }

  ghost predicate Tables(c: Config) {
    c.dist.Zipfian? ==> forall n: nat :: n > 0 ==> |c.dist.table(n)| == n
  }

  // _select_kv_key_index
  function Select(c: Config, b: Buckets): (r: Option<nat>)
    requires Tables(c)
    ensures r.Some? <==> c.keyspace > 0 && (Local(c, b) ==> c.slot.Some?)
  {
    if Local(c, b) then
      if c.slot.None? then None
      else
        var span := Bounds(c.keyspace, c.slots, c.slot.value % c.slots);
        if span.None? then None
        else Some(span.value.start + Sample(c.dist, span.value.length, b.within).value)
    else Sample(c.dist, c.keyspace, b.overall)
  }

  // Every selected key lies in the keyspace, and a local one in the range of the client's own
  // slot.
  lemma SelectedInRange(c: Config, b: Buckets)
    requires Tables(c) && Select(c, b).Some?
    ensures Select(c, b).value < c.keyspace
    ensures Local(c, b) ==> Within(Select(c, b).value, Bounds(c.keyspace, c.slots, c.slot.value % c.slots).value)
  {
    if Local(c, b) {
      var e := Effective(c.keyspace, c.slots);
      var base, extra, i := c.keyspace / e, c.keyspace % e, c.slot.value % c.slots % e;
      SlotsFill(c.keyspace, e);
      EndToEnd(base, extra, i);
      Increasing(base, extra, i + 1, e);
    }
  }

  // The share of operations that are local: those whose route hash is below the ratio's part of all
  // hashes.
  lemma LocalIff(c: Config, b: Buckets)
    ensures Local(c, b) <==>
            c.slots > 1 && c.ratio.Some? && c.ratio.value > 0.0 && (b.route as real) < c.ratio.value * HASH_MODULUS
  {
  }

  // With uniform requests every key of the client's own range is selected by the local operations
  // with a certain hash, and every key of the keyspace by the others, whatever their other hashes.
  lemma EveryKeyIsSelected(c: Config, route: nat, k: nat, other: nat)
    requires c.dist.Uniform? && k < c.keyspace
    requires Local(c, Buckets(route, 0, 0)) ==>
               c.slot.Some? && Within(k, Bounds(c.keyspace, c.slots, c.slot.value % c.slots).value)
    ensures var b := if Local(c, Buckets(route, 0, 0))
                     then Buckets(route, k - Bounds(c.keyspace, c.slots, c.slot.value % c.slots).value.start, other)
                     else Buckets(route, other, k);
            Select(c, b) == Some(k)
  {
    if Local(c, Buckets(route, 0, 0)) {
      var span := Bounds(c.keyspace, c.slots, c.slot.value % c.slots).value;
      UniformSample(span.length, k - span.start);
    } else {
      UniformSample(c.keyspace, k);
    }
  }

  // ----- bootstrap shards --------------------------------------------------------------

  // Which shard a key belongs to.
  type Assignment = nat -> nat

  // The keys below n of one shard, in order.
  function Share(shardOf: Assignment, shard: nat, n: nat): seq<nat> {
    if n == 0 then []
    else Share(shardOf, shard, n - 1) + if shardOf(n - 1) == shard then [n - 1] else []
  }

  function Residue(shards: nat): Assignment
    requires shards > 0
  {
    (k: nat) => k % shards
  }

  lemma {:induction false} NoneBefore(shard: nat, n: nat, shards: nat)
    requires n <= shard < shards
    ensures Share(Residue(shards), shard, n) == []
  {
    if n > 0 {
      NoneBefore(shard, n - 1, shards);
      SmallMod(n - 1, shards);
    }
  }

  lemma Stride(key: nat, d: nat, shards: nat)
    requires 0 < d <= shards
    ensures (key + d) % shards == key % shards <==> d == shards
  {
    var q, r := key / shards, key % shards;
    if r + d < shards {
      ModOf(key + d, q, r + d, shards);
    } else {
      assert (q + 1) * shards == q * shards + shards;
      ModOf(key + d, q + 1, r + d - shards, shards);
    }
  }

  lemma ModOf(k: nat, q: nat, r: nat, shards: nat)
    requires r < shards && k == q * shards + r
    ensures k % shards == r
  {
    var d := k / shards - q;
    assert k == k / shards * shards + k % shards;
    assert d * shards == k / shards * shards - q * shards;
    Multiple(d, shards);
  }

  lemma Multiple(d: int, m: int)
    requires m >= 0
    ensures d >= 1 ==> d * m >= m
    ensures d <= -1 ==> d * m <= -m
  {
    if d >= 1 { assert (d - 1) * m >= 0; }
    if d <= -1 { assert (d + 1) * m <= 0; }
  }

  // Between one key of a shard and the next the shard has no other.
  lemma {:induction false} OneShare(shard: nat, key: nat, m: nat, shards: nat)
    requires shards > 0 && key % shards == shard && key < m <= key + shards
    ensures Share(Residue(shards), shard, m) == Share(Residue(shards), shard, key) + [key]
  {
    if m > key + 1 {
      OneShare(shard, key, m - 1, shards);
      Stride(key, m - 1 - key, shards);
    }
  }

  // _bootstrap_shard: the strided loop.
  method BootstrapShard(shard: nat, n: nat, shards: nat) returns (visited: seq<nat>)
    requires shard < shards
    ensures visited == Share(Residue(shards), shard, n)
  {
    visited := [];
    var key := shard;
    NoneBefore(shard, if shard < n then shard else n, shards);
    SmallMod(shard, shards);
    while key < n
      invariant key % shards == shard
      invariant visited == Share(Residue(shards), shard, if key < n then key else n)
      decreases n - key
    {
      visited := visited + [key];
      OneShare(shard, key, if key + shards < n then key + shards else n, shards);
      Stride(key, shards, shards);
      key := key + shards;
    }
  }

  // What each shard visits.
  type Shares = nat -> seq<nat>

  function SharesOf(shardOf: Assignment, n: nat): Shares { (shard: nat) => Share(shardOf, shard, n) }

  // How often k occurs in a list.
  function Times(s: seq<nat>, k: nat): nat {
    if s == [] then 0 else Times(s[..|s| - 1], k) + if s[|s| - 1] == k then 1 else 0
  }

  // How often the first shards visit key k, together.
  function Visits(shares: Shares, shards: nat, k: nat): nat {
    if shards == 0 then 0 else Visits(shares, shards - 1, k) + Times(shares(shards - 1), k)
  }

  // How many keys the first shards report as completed.
  function Completed(shares: Shares, shards: nat): nat {
    if shards == 0 then 0 else Completed(shares, shards - 1) + |shares(shards - 1)|
  }

  lemma TimesAppended(s: seq<nat>, x: nat, k: nat)
    ensures Times(s + [x], k) == Times(s, k) + if x == k then 1 else 0
  {
    assert (s + [x])[..|s|] == s;
  }

  lemma {:induction false} ShareHas(shardOf: Assignment, shard: nat, n: nat, k: nat)
    ensures Times(Share(shardOf, shard, n), k) == if k < n && shardOf(k) == shard then 1 else 0
  {
    if n > 0 {
      ShareHas(shardOf, shard, n - 1, k);
      var before := Share(shardOf, shard, n - 1);
      TimesAppended(before, n - 1, k);
      assert shardOf(n - 1) != shard ==> before + [] == before;
    }
  }

  lemma {:induction false} VisitsOf(shares: Shares, shards: nat, k: nat, shard: nat, visited: bool)
    requires forall s: nat :: Times(shares(s), k) == if visited && s == shard then 1 else 0
    ensures Visits(shares, shards, k) == if visited && shard < shards then 1 else 0
    decreases shards
  {
    if shards > 0 { VisitsOf(shares, shards - 1, k, shard, visited); }
  }

  // One more key makes the share of its shard one longer and leaves the others alone.
  lemma {:induction false} OneMoreCompleted(shares: Shares, more: Shares, shards: nat, shard: nat)
    requires forall s: nat :: |more(s)| == |shares(s)| + if s == shard then 1 else 0
    ensures Completed(more, shards) == Completed(shares, shards) + if shard < shards then 1 else 0
    decreases shards
  {
    if shards > 0 { OneMoreCompleted(shares, more, shards - 1, shard); }
  }

  lemma {:induction false} NoneCompleted(shares: Shares, shards: nat)
    requires forall s: nat :: shares(s) == []
    ensures Completed(shares, shards) == 0
    decreases shards
  {
    if shards > 0 { NoneCompleted(shares, shards - 1); }
  }

  lemma {:induction false} AllCompleted(shardOf: Assignment, n: nat, shards: nat)
    requires forall k: nat :: shardOf(k) < shards
    ensures Completed(SharesOf(shardOf, n), shards) == n
    decreases n
  {
    if n == 0 {
      NoneCompleted(SharesOf(shardOf, 0), shards);
    } else {
      AllCompleted(shardOf, n - 1, shards);
      OneMoreCompleted(SharesOf(shardOf, n - 1), SharesOf(shardOf, n), shards, shardOf(n - 1));
    }
  }

  // Together the shards visit every key of the keyspace exactly once and nothing else, and
  // report as many keys as there are.
  lemma EveryKeyOnce(n: nat, shards: nat, k: nat)
    requires shards > 0
    ensures Visits(SharesOf(Residue(shards), n), shards, k) == if k < n then 1 else 0
    ensures Completed(SharesOf(Residue(shards), n), shards) == n
  {
    AllCompleted(Residue(shards), n, shards);
    forall s: nat
      ensures Times(SharesOf(Residue(shards), n)(s), k) == if k < n && s == k % shards then 1 else 0
    {
      ShareHas(Residue(shards), s, n, k);
    }
    VisitsOf(SharesOf(Residue(shards), n), shards, k, k % shards, k < n);
  }
}
