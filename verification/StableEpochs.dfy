/**
  Stable main-chain epochs and the cache of candidate data built on them
  (db-sync-follower: `get_latest_stable_epoch` and `CandidateDataSourceCached`).
 */
module StableEpochs {
  import opened Wrappers
  import opened Chains

  datatype EpochBlock = EpochBlock(hash: nat, epoch: nat)

  type Chain = seq<EpochBlock>

  ghost predicate Monotone(c: Chain) {
    forall i, j :: 0 <= i <= j < |c| ==> c[i].epoch <= c[j].epoch
  }

  /** The rows the latest-stable-epoch query can yield: none, an epoch that does not decode as unsigned, or an epoch. */
  datatype StableEpoch = NoRow | Undecodable | Epoch(number: nat)

  /** The row of the highest block that has a block `k` below it, less one; the block numbered `i` is `c[i]`. */
  function LatestStableEpoch(k: nat, c: Chain): StableEpoch {
    if |c| <= k then NoRow
    else if c[|c| - 1 - k].epoch == 0 then Undecodable
    else Epoch(c[|c| - 1 - k].epoch - 1)
  }

  /** The blocks of all epochs up to `e`, in chain order. */
  function UpTo(c: Chain, e: int): Chain {
    if c == [] then []
    else UpTo(c[..|c| - 1], e) + if c[|c| - 1].epoch <= e then [c[|c| - 1]] else []
  }

  /** Epoch `e` is firm: a settled block already belongs to a later epoch. */
  ghost predicate Firm(k: nat, c: Chain, e: int) {
    && |c| > k
    && c[|c| - 1 - k].epoch > e
  }

  /** Once a block has a later epoch, nothing from it on matters for `UpTo`. */
  lemma {:induction false} UpToPrefix(c: Chain, e: int, m: nat)
    requires Monotone(c) && m <= |c| && (m < |c| ==> c[m].epoch > e)
    ensures UpTo(c, e) == UpTo(c[..m], e)
    decreases |c|
  {
    if m < |c| {
      var front := c[..|c| - 1];
      assert front[..m] == c[..m];
      if m < |front| { assert front[m] == c[m]; }
      UpToPrefix(front, e, m);
    } else {
      assert c[..m] == c;
    }
  }

  lemma FirmStays(k: nat, c: Chain, c': Chain, e: int)
    requires Switches(k, c, c') && Monotone(c) && Monotone(c') && Firm(k, c, e)
    ensures Firm(k, c', e) && UpTo(c', e) == UpTo(c, e)
  {
    var m := |c| - 1 - k;
    SettledBlockStays(k, c, c', m);
    assert c[..m + 1][..m] == c[..m] && c'[..m + 1][..m] == c'[..m];
    UpToPrefix(c, e, m);
    UpToPrefix(c', e, m);
  }

  /** No block of a stable epoch is ever rolled back: every later view has the same blocks up to the reported epoch. */
  lemma StableEpochIsFinal(k: nat, views: seq<Chain>, i: nat, j: nat)
    requires Follows(k, views) && i <= j < |views|
    requires Monotone(views[i]) && Monotone(views[j])
    requires LatestStableEpoch(k, views[i]).Epoch?
    ensures var e := LatestStableEpoch(k, views[i]).number;
            && UpTo(views[j], e) == UpTo(views[i], e)
            && LatestStableEpoch(k, views[j]).Epoch?
            && e <= LatestStableEpoch(k, views[j]).number
  {
    FollowsSwitches(k, views, i, j);
    var e := LatestStableEpoch(k, views[i]).number;
    FirmStays(k, views[i], views[j], e);
    SettledBlockStays(k, views[i], views[j], |views[i]| - 1 - k);
  }

  ghost predicate DistinctHashes(c: Chain) {
    forall i, j :: 0 <= i < j < |c| ==> c[i].hash != c[j].hash
  }

  /** `n` blocks of one epoch, with hashes from `h` on. */
  function NewBlocks(h: nat, e: nat, n: nat): (c: Chain)
    ensures |c| == n && forall i :: 0 <= i < n ==> c[i] == EpochBlock(h + i, e)
  {
    seq(n, i requires 0 <= i < n => EpochBlock(h + i, e))
  }

  function FreshHash(c: Chain): (h: nat)
    ensures forall b :: b in c ==> b.hash < h
  {
    if c == [] then 0
    else
      var h := FreshHash(c[1..]);
      if c[0].hash < h then h else c[0].hash + 1
  }

  lemma {:induction false} UpToMembers(c: Chain, e: int, b: EpochBlock)
    ensures b in UpTo(c, e) <==> b in c && b.epoch <= e
  {
    if c != [] {
      UpToMembers(c[..|c| - 1], e, b);
      assert c == c[..|c| - 1] + [c[|c| - 1]];
    }
  }

  /**
    Why one less: the epoch of the highest stable block itself can still change, in every chain with an unstable part.
    The other chain is one a follower can receive: blocks in epoch order, with hashes as distinct as before.
   */
  lemma NextEpochIsNotFinal(k: nat, c: Chain) returns (c': Chain)
    requires Monotone(c) && 1 <= k < |c|
    ensures Monotone(c') && Switches(k, c, c') && (DistinctHashes(c) ==> DistinctHashes(c'))
    ensures UpTo(c', c[|c| - 1 - k].epoch) != UpTo(c, c[|c| - 1 - k].epoch)
  {
    var e := c[|c| - 1 - k].epoch;
    var stable, added := c[..|c| - k], NewBlocks(FreshHash(c), e, k);
    c' := stable + added;
    ExtendedMonotone(stable, added, e);
    ExtendedDistinct(stable, added, FreshHash(c));
    var b := added[0];
    assert c'[|stable|] == b;
    UpToMembers(c', e, b);
    UpToMembers(c, e, b);
  }

  lemma ExtendedMonotone(stable: Chain, added: Chain, e: nat)
    requires Monotone(stable) && (forall i :: 0 <= i < |stable| ==> stable[i].epoch <= e)
    requires forall i :: 0 <= i < |added| ==> added[i].epoch == e
    ensures Monotone(stable + added)
  {
  }

  lemma ExtendedDistinct(stable: Chain, added: Chain, h: nat)
    requires (forall i :: 0 <= i < |stable| ==> stable[i].hash < h) && (forall i :: 0 <= i < |added| ==> added[i].hash == h + i)
    ensures DistinctHashes(stable) ==> DistinctHashes(stable + added)
  {
  }

  // ---------- the candidate cache ----------

  /** A cache key: the epoch the data is used in, and the address or policies asked about. */
  datatype Key = Key(epoch: nat, subject: nat)

  /** What the uncached source answers, given the blocks of all epochs up to the data epoch. */
  type Source<!R> = (Chain, Key) -> Result<R>

  /** Data used in an epoch is taken from two epochs earlier; an earlier epoch cannot be asked for. */
  function Direct<R>(source: Source<R>, c: Chain, key: Key): Result<R> {
    if key.epoch < 2 then Err else source(UpTo(c, key.epoch - 2), key)
  }

  /** What the cached source promises to answer: the uncached answer, unless the stability query itself fails. */
  function Answer<R>(source: Source<R>, k: nat, c: Chain, key: Key): Result<R> {
    if LatestStableEpoch(k, c).Undecodable? then Err else Direct(source, c, key)
  }

  datatype Entry<R> = Entry(key: Key, response: R)

  function Find<R>(entries: seq<Entry<R>>, key: Key): (r: Option<Entry<R>>)
    ensures r.Some? ==> r.value in entries && r.value.key == key
    ensures r.None? ==> forall x :: x in entries ==> x.key != key
  {
    if entries == [] then None
    else if entries[0].key == key then Some(entries[0])
    else Find(entries[1..], key)
  }

  function Without<R>(entries: seq<Entry<R>>, key: Key): (r: seq<Entry<R>>)
    ensures forall x :: x in r ==> x in entries && x.key != key
    ensures forall x :: x in entries && x.key != key ==> x in r
  {
    if entries == [] then []
    else (if entries[0].key == key then [] else [entries[0]]) + Without(entries[1..], key)
  }

  /** The entry becomes the most recently used one; beyond `capacity` the least recently used entries drop out. */
  function Used<R>(entries: seq<Entry<R>>, entry: Entry<R>, capacity: nat): (r: seq<Entry<R>>)
    ensures forall x :: x in r ==> x == entry || (x in entries && x.key != entry.key)
    ensures |r| <= capacity && (capacity > 0 ==> |r| > 0 && r[0] == entry)
    ensures |r| < capacity ==> forall x :: x in entries && x.key != entry.key ==> x in r
  {
    var all := [entry] + Without(entries, entry.key);
    if |all| <= capacity then all else all[..capacity]
  }

  class CandidateCache<R(==)> {
    const k: nat
    const capacity: nat
    const source: Source<R>
    var entries: seq<Entry<R>>
    var highestSeen: Option<nat>

    /** Everything remembered is about firm epochs of the chain and is what the source answers on it. */
    ghost predicate Valid(c: Chain)
      reads this
    {
      && (highestSeen.Some? ==> Firm(k, c, highestSeen.value))
      && forall x :: x in entries ==> x.key.epoch >= 2 && Firm(k, c, x.key.epoch - 2) && Direct(source, c, x.key) == Ok(x.response)
    }

    constructor (k: nat, capacity: nat, source: Source<R>)
      ensures this.k == k && this.capacity == capacity && this.source == source
      ensures forall c :: Valid(c)
    {
      this.k, this.capacity, this.source := k, capacity, source;
      entries, highestSeen := [], None;
    }

    /** A chain switch between two requests does no harm. */
    lemma SwitchKeepsValid(c: Chain, c': Chain)
      requires Valid(c) && Switches(k, c, c') && Monotone(c) && Monotone(c')
      ensures Valid(c')
    {
      if highestSeen.Some? {
        FirmStays(k, c, c', highestSeen.value);
      }
      forall x | x in entries
        ensures Firm(k, c', x.key.epoch - 2) && Direct(source, c', x.key) == Ok(x.response)
      {
        FirmStays(k, c, c', x.key.epoch - 2);
      }
    }

    method CanUseCaching(c: Chain, key: Key) returns (r: Result<bool>)
      requires Monotone(c) && Valid(c)
      modifies this`highestSeen
      ensures Valid(c)
      ensures r == Ok(true) <==> key.epoch >= 2 && Firm(k, c, key.epoch - 2)
      ensures r.Err? <==> key.epoch < 2 || LatestStableEpoch(k, c).Undecodable?
    {
      if key.epoch < 2 {
        return Err;
      }
      if highestSeen.Some? && highestSeen.value >= key.epoch - 2 {
        return Ok(true);
      }
      match LatestStableEpoch(k, c) {
        case NoRow => return Ok(false);
        case Undecodable => return Err;
        case Epoch(e) =>
          highestSeen := Some(e);
          return Ok(key.epoch - 2 <= e);
      }
    }

    method Get(c: Chain, key: Key) returns (r: Result<R>)
      requires Monotone(c) && Valid(c)
      modifies this
      ensures Valid(c)
      ensures r == Answer(source, k, c, key)
      ensures r.Ok? && Firm(k, c, key.epoch - 2) && capacity > 0 ==> entries != [] && entries[0] == Entry(key, r.value)
      ensures !(key.epoch >= 2 && Firm(k, c, key.epoch - 2)) ==> entries == old(entries)
    {
      var use := CanUseCaching(c, key);
      if use.Err? {
        return Err;
      }
      if !use.value {
        return Direct(source, c, key);
      }
      var found := Find(entries, key);
      if found.Some? {
        entries := Used(entries, found.value, capacity);
        return Ok(found.value.response);
      }
      r := Direct(source, c, key);
      if r.Ok? {
        entries := Used(entries, Entry(key, r.value), capacity);
      }
    }
  }

  /** A run: each request is answered while the follower sees the corresponding chain; caching never shows in an answer. */
  method AnswerAll<R(==)>(source: Source<R>, k: nat, capacity: nat, views: seq<Chain>, keys: seq<Key>)
      returns (answers: seq<Result<R>>)
    requires |views| == |keys| && Follows(k, views)
    requires forall i :: 0 <= i < |views| ==> Monotone(views[i])
    ensures |answers| == |keys|
    ensures forall i :: 0 <= i < |keys| ==> answers[i] == Answer(source, k, views[i], keys[i])
  {
    var cache := new CandidateCache<R>(k, capacity, source);
    answers := [];
    for i := 0 to |keys|
      invariant cache.source == source && cache.k == k
      invariant |answers| == i
      invariant i < |views| ==> cache.Valid(views[i])
      invariant forall j :: 0 <= j < i ==> answers[j] == Answer(source, k, views[j], keys[j])
    {
      var r := cache.Get(views[i], keys[i]);
      answers := answers + [r];
      if i + 1 < |views| {
        cache.SwitchKeepsValid(views[i], views[i + 1]);
      }
    }
  }
}
