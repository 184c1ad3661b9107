/**
  The data source for native-token transfers and its cache (db-sync-follower `native_token`).
  A request names the scripts it is about: the asset and the address. The cache does not.
 */
module TransferData {
  import opened Wrappers
  import opened Sequences
  import opened Sums
  import opened Chains
  import opened TokenChain
  import Queries = TransferQueries

  // ---------- answers for one configuration ----------

  function IndexOf(c: Chain, hash: nat): (r: Option<nat>)
    ensures r.Some? ==> r.value < |c| && c[r.value].hash == hash
    ensures r.None? ==> forall i :: 0 <= i < |c| ==> c[i].hash != hash
  {
    if c == [] then None
    else if c[|c| - 1].hash == hash then Some(|c| - 1)
    else IndexOf(c[..|c| - 1], hash)
  }

  function HasHash(hash: nat): BlockAmount -> bool {
    (row: BlockAmount) => row.hash == hash
  }

  function Position(rows: seq<BlockAmount>, hash: nat): (r: Option<nat>)
    ensures r.Some? ==> r.value < |rows| && rows[r.value].hash == hash
  {
    FirstIndex(rows, HasHash(hash))
  }

  /** The amounts up to and including the row of `to`, or all of them when it does not occur. */
  function SumThrough(rows: seq<BlockAmount>, to: nat): nat {
    if rows == [] then 0
    else rows[0].amount + if rows[0].hash == to then 0 else SumThrough(rows[1..], to)
  }

  /** `Cache::get_sum_in_range` */
  function SumInRange(rows: seq<BlockAmount>, after: nat, to: nat): Option<nat> {
    var a, t := Position(rows, after), Position(rows, to);
    if a.Some? && t.Some? && a.value <= t.value then Some(Amounts(rows[a.value + 1..t.value + 1])) else None
  }

  lemma {:induction false} SumThroughPrefix(rows: seq<BlockAmount>, to: nat, n: nat)
    requires n < |rows| && rows[n].hash == to && forall i :: 0 <= i < n ==> rows[i].hash != to
    ensures SumThrough(rows, to) == Amounts(rows[..n + 1])
  {
    assert rows[..n + 1][1..] == rows[1..][..n];
    assert Amounts(rows[..n + 1]) == rows[0].amount + Amounts(rows[1..][..n]);
    if n > 0 {
      SumThroughPrefix(rows[1..], to, n - 1);
    }
  }

  /** What the data source promises: the token locked since genesis, or everything the address received after a block. */
  function Answer(c: Chain, after: Option<nat>, to: nat): Result<nat> {
    if after == Some(to) then Ok(0)
    else
      match (after, IndexOf(c, to))
      case (_, None) => Err
      case (None, Some(t)) => Ok(Locked(c[..t + 1]))
      case (Some(h), Some(t)) =>
        match IndexOf(c, h) {
          case None => Err
          case Some(a) => if a <= t then Ok(Amounts(Rows(c[a + 1..t + 1]))) else Err
        }
  }

  lemma AnswerBetween(c: Chain, a: nat, t: nat)
    requires DistinctHashes(c) && a <= t < |c|
    ensures Answer(c, Some(c[a].hash), c[t].hash) == Ok(Amounts(Rows(c[a + 1..t + 1])))
  {
  }

  /** Callers never ask backwards, and about stable blocks only; blocks they name may be missing. */
  ghost predicate Proper(k: nat, c: Chain, after: Option<nat>, to: nat) {
    && DistinctHashes(c)
    && (after.Some? ==>
          forall a, t :: 0 <= a < |c| && 0 <= t < |c| && c[a].hash == after.value && c[t].hash == to ==> a <= t < Settled(k, c))
  }

  lemma PositionInRows(c: Chain, lo: nat, hi: nat, hash: nat)
    requires lo <= hi <= |c| && Position(Rows(c[lo..hi]), hash).Some?
    ensures var a := lo + Position(Rows(c[lo..hi]), hash).value; a < hi && c[a].hash == hash
  {
  }

  lemma AmountsOfSlice(c: Chain, lo: nat, hi: nat, i: nat, j: nat)
    requires lo <= hi <= |c| && i <= j <= hi - lo
    ensures Amounts(Rows(c[lo..hi])[i..j]) == Amounts(Rows(c[lo + i..lo + j]))
  {
    RowsSlice(c, lo, hi, i, j);
  }

  /** The sum a cache of the blocks `lo..hi` gives is that of the blocks asked about. */
  lemma CachedSum(c: Chain, lo: nat, hi: nat, after: nat, to: nat) returns (a: nat, t: nat)
    requires lo <= hi <= |c| && SumInRange(Rows(c[lo..hi]), after, to).Some?
    ensures a <= t < |c| && c[a].hash == after && c[t].hash == to
    ensures SumInRange(Rows(c[lo..hi]), after, to).value == Amounts(Rows(c[a + 1..t + 1]))
  {
    var rows := Rows(c[lo..hi]);
    var i, j := Position(rows, after).value, Position(rows, to).value;
    a, t := lo + i, lo + j;
    assert a < hi && t < hi && c[a].hash == after && c[t].hash == to by {
      PositionInRows(c, lo, hi, after);
      PositionInRows(c, lo, hi, to);
    }
    AmountsOfSlice(c, lo, hi, i + 1, j + 1);
  }

  /** So serving from the cache is right whenever it is possible. */
  lemma CacheHit(c: Chain, lo: nat, hi: nat, after: nat, to: nat)
    requires DistinctHashes(c) && lo <= hi <= |c|
    requires SumInRange(Rows(c[lo..hi]), after, to).Some?
    ensures Answer(c, Some(after), to) == Ok(SumInRange(Rows(c[lo..hi]), after, to).value)
  {
    var a, t := CachedSum(c, lo, hi, after, to);
    AnswerBetween(c, a, t);
  }

  /** The rows read from the block of `after` on give the right sum. */
  lemma RowsGiveSum(c: Chain, a: nat, t: nat, end: nat)
    requires DistinctHashes(c) && a < t < end <= |c|
    ensures SumThrough(Rows(c[a..end])[1..], c[t].hash) == Amounts(Rows(c[a + 1..t + 1]))
  {
    var rows := Rows(c[a..end])[1..];
    forall i | 0 <= i < |rows|
      ensures rows[i].hash == c[a + 1 + i].hash
    {
    }
    SumThroughPrefix(rows, c[t].hash, t - a - 1);
    assert rows[..t - a] == Rows(c[a..end])[1..t - a + 1];
    RowsSlice(c, a, end, 1, t - a + 1);
  }

  lemma FetchedIsAnswer(c: Chain, a: nat, t: nat, end: nat)
    requires DistinctHashes(c) && a < t < end <= |c|
    ensures Answer(c, Some(c[a].hash), c[t].hash) == Ok(SumThrough(Rows(c[a..end])[1..], c[t].hash))
  {
    RowsGiveSum(c, a, t, end);
    AnswerBetween(c, a, t);
  }

  // ---------- one chain, any scripts ----------

  type Scripts = Queries.Scripts

  /** A main-chain block with what it adds for any scripts. */
  datatype ScriptBlock = ScriptBlock(hash: nat, locked: Scripts -> nat, foreign: Scripts -> nat)

  type ScriptChain = seq<ScriptBlock>

  /** The chain as requests about scripts `s` see it. */
  function Seen(c: ScriptChain, s: Scripts): (r: Chain)
    ensures |r| == |c|
    ensures forall i :: 0 <= i < |c| ==> r[i] == TokenBlock(c[i].hash, c[i].locked(s), c[i].foreign(s))
  {
    seq(|c|, i requires 0 <= i < |c| => TokenBlock(c[i].hash, c[i].locked(s), c[i].foreign(s)))
  }

  lemma SeenSlice(c: ScriptChain, s: Scripts, lo: nat, hi: nat)
    requires lo <= hi <= |c|
    ensures Seen(c, s)[lo..hi] == Seen(c[lo..hi], s)
  {
  }

  datatype Request = Request(after: Option<nat>, to: nat, scripts: Scripts)

  /** What a request should get. */
  function Due(c: ScriptChain, q: Request): Result<nat> {
    Answer(Seen(c, q.scripts), q.after, q.to)
  }

  /** What a request about the same blocks but other scripts should get. */
  function DueFor(c: ScriptChain, q: Request, s: Scripts): Result<nat> {
    Answer(Seen(c, s), q.after, q.to)
  }

  ghost predicate ProperRequest(k: nat, c: ScriptChain, q: Request) {
    Proper(k, Seen(c, q.scripts), q.after, q.to)
  }

  // ---------- the cache ----------

  /** The cached rows, and the scripts they were fetched for, which the cache itself does not know. */
  datatype Memory = Memory(rows: seq<BlockAmount>, scripts: Scripts)

  /** Nothing is cached, so the scripts do not matter. */
  function EmptyMemory(): Memory {
    Memory([], Queries.Scripts(0, 0, 0))
  }

  /** The rows are a run of settled blocks with their amounts for the scripts. */
  ghost predicate Holds(k: nat, c: ScriptChain, m: Memory) {
    exists lo, hi :: 0 <= lo <= hi <= Settled(k, c) && m.rows == Rows(Seen(c, m.scripts)[lo..hi])
  }

  lemma EmptyHolds(k: nat, c: ScriptChain)
    ensures Holds(k, c, EmptyMemory())
  {
    assert Rows(Seen(c, EmptyMemory().scripts)[0..0]) == [];
  }

  /** The request is served from the rows. */
  predicate Hit(rows: seq<BlockAmount>, q: Request) {
    q.after.Some? && q.after.value != q.to && SumInRange(rows, q.after.value, q.to).Some?
  }

  /** The scripts the request is served for. */
  function ServedFor(m: Memory, q: Request): Scripts {
    if Hit(m.rows, q) then m.scripts else q.scripts
  }

  /** How far beyond block `a` to read when `t` is asked for. */
  function Reach(cacheSize: nat, a: nat, t: nat): nat
    requires a <= t
  {
    if t - a < cacheSize then cacheSize else t - a
  }

  /** The last block to read: as far as `Reach`, but not beyond the last stable block. */
  function LastToFetch(k: nat, cacheSize: nat, c: Chain, a: nat, t: nat): (end: nat)
    requires a <= t < Settled(k, c)
    ensures t <= end < Settled(k, c) && end - a <= Reach(cacheSize, a, t)
    ensures end == Settled(k, c) - 1 || end - a == Reach(cacheSize, a, t)
  {
    var latestStable := if |c| - 1 < k then 0 else |c| - 1 - k;
    var wanted := if t < a + cacheSize then a + cacheSize else t;
    if latestStable < wanted then latestStable else wanted
  }

  /** What is cached after a fetch: nothing new if a block is missing. */
  function Fetched(k: nat, cacheSize: nat, m: Memory, c: ScriptChain, q: Request): Memory
    requires q.after.Some?
  {
    var d := Seen(c, q.scripts);
    var a, t := IndexOf(d, q.after.value), IndexOf(d, q.to);
    if a.Some? && t.Some? && a.value <= t.value < Settled(k, d)
    then Memory(Rows(d[a.value..LastToFetch(k, cacheSize, d, a.value, t.value) + 1]), q.scripts)
    else m
  }

  /** What is cached after a request. */
  function Remembered(k: nat, cacheSize: nat, m: Memory, c: ScriptChain, q: Request): Memory {
    if q.after.None? || q.after.value == q.to || Hit(m.rows, q) then m else Fetched(k, cacheSize, m, c, q)
  }

  /** Everything the address received after one block and up to another. */
  function ReceivedAfter(c: Chain, after: nat, to: nat): nat {
    var a, t := IndexOf(c, after), IndexOf(c, to);
    if a.Some? && t.Some? && a.value <= t.value then Amounts(Rows(c[a.value + 1..t.value + 1])) else 0
  }

  lemma AnswerIsReceived(c: Chain, a: nat, t: nat)
    requires DistinctHashes(c) && a <= t < |c| && c[a].hash != c[t].hash
    ensures Answer(c, Some(c[a].hash), c[t].hash) == Ok(ReceivedAfter(c, c[a].hash, c[t].hash))
  {
  }

  /**
    A hit on rows fetched for other scripts serves what is due if and only if the address received the same, by either
    scripts, in the blocks asked about.
   */
  lemma HitIsDueIff(k: nat, c: ScriptChain, m: Memory, q: Request)
    requires Holds(k, c, m) && ProperRequest(k, c, q) && Hit(m.rows, q)
    ensures DueFor(c, q, m.scripts) == Ok(SumInRange(m.rows, q.after.value, q.to).value)
    ensures DueFor(c, q, m.scripts) == Due(c, q)
       <==> ReceivedAfter(Seen(c, m.scripts), q.after.value, q.to) == ReceivedAfter(Seen(c, q.scripts), q.after.value, q.to)
  {
    var d, e := Seen(c, m.scripts), Seen(c, q.scripts);
    SameHashes(d, e);
    var lo, hi :| 0 <= lo <= hi <= Settled(k, c) && m.rows == Rows(d[lo..hi]);
    CacheHit(d, lo, hi, q.after.value, q.to);
    var a, t := CachedSum(d, lo, hi, q.after.value, q.to);
    AnswerIsReceived(d, a, t);
    AnswerIsReceived(e, a, t);
  }

  lemma SameHashes(d: Chain, e: Chain)
    requires |d| == |e| && DistinctHashes(e) && forall i :: 0 <= i < |d| ==> d[i].hash == e[i].hash
    ensures DistinctHashes(d)
  {
  }

  lemma SwitchKeepsRows(k: nat, c: ScriptChain, c': ScriptChain, m: Memory)
    requires Holds(k, c, m) && Switches(k, c, c')
    ensures Holds(k, c', m)
  {
    var lo, hi :| 0 <= lo <= hi <= Settled(k, c) && m.rows == Rows(Seen(c, m.scripts)[lo..hi]);
    SettledSliceStays(k, c, c', lo, hi);
    SeenSlice(c, m.scripts, lo, hi);
    SeenSlice(c', m.scripts, lo, hi);
  }

  class TransferSource {
    const k: nat
    const cacheSize: nat
    var cache: seq<BlockAmount>
    /** The scripts of the request that filled the cache. */
    ghost var scripts: Scripts

    ghost function View(): Memory
      reads this
    {
      Memory(cache, scripts)
    }

    ghost predicate Valid(c: ScriptChain)
      reads this
    {
      Holds(k, c, View())
    }

    constructor (k: nat, cacheSize: nat)
      ensures this.k == k && this.cacheSize == cacheSize && View() == EmptyMemory()
    {
      this.k, this.cacheSize, cache, scripts := k, cacheSize, [], EmptyMemory().scripts;
    }

    /** Reads the amounts from the block of `after` on, at least as far as `to`, and remembers them. */
    method Fetch(c: ScriptChain, q: Request) returns (r: Result<nat>)
      requires Valid(c) && ProperRequest(k, c, q) && q.after.Some? && q.after.value != q.to
      modifies this
      ensures Valid(c) && View() == Fetched(k, cacheSize, old(View()), c, q)
      ensures r == Due(c, q)
    {
      var d := Seen(c, q.scripts);
      var from, upTo := IndexOf(d, q.after.value), IndexOf(d, q.to);
      if from.None? || upTo.None? {
        return Err;
      }
      var end := LastToFetch(k, cacheSize, d, from.value, upTo.value);
      FetchedIsAnswer(d, from.value, upTo.value, end + 1);
      cache, scripts := Rows(d[from.value..end + 1]), q.scripts;
      r := Ok(SumThrough(cache[1..], q.to));
    }

    /** Serves what is due, except for a hit on rows fetched for other scripts: that serves what is due for those. */
    method GetTotal(c: ScriptChain, q: Request) returns (r: Result<nat>)
      requires Valid(c) && ProperRequest(k, c, q)
      modifies this
      ensures Valid(c) && View() == Remembered(k, cacheSize, old(View()), c, q)
      ensures r == DueFor(c, q, ServedFor(old(View()), q))
      ensures r == Due(c, q) <==>
                (Hit(old(cache), q) ==>
                   ReceivedAfter(Seen(c, old(scripts)), q.after.value, q.to) == ReceivedAfter(Seen(c, q.scripts), q.after.value, q.to))
    {
      if q.after.None? {
        // the total since genesis is neither taken from nor put into the cache
        var d := Seen(c, q.scripts);
        match IndexOf(d, q.to) {
          case None => return Err;
          case Some(t) => return Ok(Locked(d[..t + 1]));
        }
      }
      if q.after.value == q.to {
        return Ok(0);
      }
      var cached := SumInRange(cache, q.after.value, q.to);
      if cached.Some? {
        HitIsDueIff(k, c, View(), q);
        return Ok(cached.value);
      }
      r := Fetch(c, q);
    }
  }

  // ---------- runs of requests ----------

  /** What is cached before request `n` of a run. */
  function MemoryBefore(k: nat, cacheSize: nat, views: seq<ScriptChain>, asked: seq<Request>, n: nat): Memory
    requires n <= |views| == |asked|
  {
    if n == 0 then EmptyMemory()
    else Remembered(k, cacheSize, MemoryBefore(k, cacheSize, views, asked, n - 1), views[n - 1], asked[n - 1])
  }

  /** While all requests are about the same scripts, so are the rows. */
  lemma {:induction false} RowsAreForScripts(k: nat, cacheSize: nat, views: seq<ScriptChain>, asked: seq<Request>, n: nat, s: Scripts)
    requires n <= |views| == |asked| && forall j :: 0 <= j < n ==> asked[j].scripts == s
    ensures var m := MemoryBefore(k, cacheSize, views, asked, n); m.rows == [] || m.scripts == s
  {
    if n > 0 {
      RowsAreForScripts(k, cacheSize, views, asked, n - 1, s);
    }
  }

  /** What request `i` of a run gets. */
  function Served(k: nat, cacheSize: nat, views: seq<ScriptChain>, asked: seq<Request>, i: nat): Result<nat>
    requires i < |views| == |asked|
  {
    DueFor(views[i], asked[i], ServedFor(MemoryBefore(k, cacheSize, views, asked, i), asked[i]))
  }

  lemma SameScriptsServedRight(k: nat, cacheSize: nat, views: seq<ScriptChain>, asked: seq<Request>, i: nat)
    requires i < |views| == |asked| && forall j :: 0 <= j < i ==> asked[j].scripts == asked[i].scripts
    ensures Served(k, cacheSize, views, asked, i) == Due(views[i], asked[i])
  {
    RowsAreForScripts(k, cacheSize, views, asked, i, asked[i].scripts);
  }

  /** A run of requests while the chain is being switched. */
  method ServeAll(k: nat, cacheSize: nat, views: seq<ScriptChain>, asked: seq<Request>) returns (answers: seq<Result<nat>>)
    requires |views| == |asked| && Follows(k, views)
    requires forall i :: 0 <= i < |views| ==> ProperRequest(k, views[i], asked[i])
    ensures |answers| == |asked| && forall i :: 0 <= i < |asked| ==> answers[i] == Served(k, cacheSize, views, asked, i)
  {
    var source := new TransferSource(k, cacheSize);
    answers := [];
    if |views| > 0 {
      EmptyHolds(k, views[0]);
    }
    for i := 0 to |asked|
      invariant source.k == k && source.cacheSize == cacheSize && |answers| == i
      invariant i < |views| ==> source.Valid(views[i])
      invariant source.View() == MemoryBefore(k, cacheSize, views, asked, i)
      invariant forall j :: 0 <= j < i ==> answers[j] == Served(k, cacheSize, views, asked, j)
    {
      var r := source.GetTotal(views[i], asked[i]);
      answers := answers + [r];
      if i + 1 < |views| {
        SwitchKeepsRows(k, views[i], views[i + 1], source.View());
      }
    }
  }

  /**
    Every answer of a run is what is due for the request, or for the scripts the cached rows were fetched for. As long as
    the scripts stay the same the cache never shows in an answer.
   */
  method GetTotals(k: nat, cacheSize: nat, views: seq<ScriptChain>, asked: seq<Request>) returns (answers: seq<Result<nat>>)
    requires |views| == |asked| && Follows(k, views)
    requires forall i :: 0 <= i < |views| ==> ProperRequest(k, views[i], asked[i])
    ensures |answers| == |asked| && forall i :: 0 <= i < |asked| ==> answers[i] == Served(k, cacheSize, views, asked, i)
    ensures forall i :: 0 <= i < |asked| && (forall j :: 0 <= j < i ==> asked[j].scripts == asked[i].scripts) ==>
              answers[i] == Due(views[i], asked[i])
  {
    answers := ServeAll(k, cacheSize, views, asked);
    forall i | 0 <= i < |asked| && forall j :: 0 <= j < i ==> asked[j].scripts == asked[i].scripts
      ensures answers[i] == Due(views[i], asked[i])
    {
      SameScriptsServedRight(k, cacheSize, views, asked, i);
    }
  }

  // ---------- changed scripts ----------

  /** Two blocks; in the second, `x` of the token reaches the address by scripts `s` and nothing by any others. */
  function TwoBlocks(s: Scripts, x: nat): ScriptChain {
    [ScriptBlock(0, (_: Scripts) => 0, (_: Scripts) => 0), ScriptBlock(1, (t: Scripts) => if t == s then x else 0, (_: Scripts) => 0)]
  }

  lemma TwoBlocksReceive(s: Scripts, x: nat, t: Scripts)
    ensures DistinctHashes(Seen(TwoBlocks(s, x), t))
    ensures Answer(Seen(TwoBlocks(s, x), t), Some(0), 1) == Ok(if t == s then x else 0)
  {
    var d := Seen(TwoBlocks(s, x), t);
    AnswerBetween(d, 0, 1);
    assert d[1..2] == [d[1]];
    OneBlock(d[1]);
  }

  lemma PositionIs(c: Chain, lo: nat, hi: nat, a: nat)
    requires DistinctHashes(c) && lo <= a < hi <= |c|
    ensures Position(Rows(c[lo..hi]), c[a].hash) == Some(a - lo)
  {
    var rows := Rows(c[lo..hi]);
    assert HasHash(c[a].hash)(rows[a - lo]);
    PositionInRows(c, lo, hi, c[a].hash);
  }

  /** Right after a fetch the same question is a hit, whatever scripts it names. */
  lemma FetchMakesHit(k: nat, cacheSize: nat, m: Memory, c: ScriptChain, a: nat, t: nat, s: Scripts, s': Scripts)
    requires DistinctHashes(Seen(c, s)) && a < t < Settled(k, c)
    ensures var m' := Fetched(k, cacheSize, m, c, Request(Some(c[a].hash), c[t].hash, s));
            m'.scripts == s && Hit(m'.rows, Request(Some(c[a].hash), c[t].hash, s'))
  {
    var d := Seen(c, s);
    var end := LastToFetch(k, cacheSize, d, a, t);
    assert IndexOf(d, d[a].hash) == Some(a) && IndexOf(d, d[t].hash) == Some(t);
    PositionIs(d, a, end + 1, a);
    PositionIs(d, a, end + 1, t);
  }

  /** So the question asked by scripts `s` and then by `t` gets the answer for `s` twice, even where nothing is due for `t`. */
  method StaleAnswer(cacheSize: nat, s: Scripts, t: Scripts, x: nat) returns (answers: seq<Result<nat>>)
    requires s != t && x > 0
    ensures answers == [Ok(x), Ok(x)] && Due(TwoBlocks(s, x), Request(Some(0), 1, t)) == Ok(0)
  {
    var c, p, q := TwoBlocks(s, x), Request(Some(0), 1, s), Request(Some(0), 1, t);
    TwoBlocksReceive(s, x, s);
    TwoBlocksReceive(s, x, t);
    var views, asked := [c, c], [p, q];
    answers := GetTotals(0, cacheSize, views, asked);
    FetchMakesHit(0, cacheSize, EmptyMemory(), c, 0, 1, s, t);
    assert MemoryBefore(0, cacheSize, views, asked, 0) == EmptyMemory();
    assert MemoryBefore(0, cacheSize, views, asked, 1) == Fetched(0, cacheSize, EmptyMemory(), c, p);
  }

  // ---------- the tables ----------

  /** Over the tables of the database, the promised totals are what the query for totals returns. */
  lemma TotalsComeFromQuery(db: Queries.Tables, s: Queries.Scripts, t: nat)
    requires Queries.WellFormed(db) && t < |db.blocks| && DistinctHashes(Queries.Observed(db, s))
    ensures Answer(Queries.Observed(db, s), None, db.blocks[t].hash) == Ok(Queries.TotalQuery(db, s, t))
  {
    assert Queries.Observed(db, s)[t].hash == db.blocks[t].hash;
    Queries.TotalQueryCountsLocked(db, s, t);
  }

  /** And the promised amounts between blocks are those of the rows of the other query. */
  lemma AmountsComeFromQuery(db: Queries.Tables, s: Queries.Scripts, a: nat, t: nat)
    requires Queries.WellFormed(db) && a <= t < |db.blocks| && DistinctHashes(Queries.Observed(db, s))
    ensures Answer(Queries.Observed(db, s), Some(db.blocks[a].hash), db.blocks[t].hash)
         == Ok(Amounts(Queries.TransfersQuery(db, s, a + 1, t)))
  {
    var c := Queries.Observed(db, s);
    assert c[t].hash == db.blocks[t].hash && c[a].hash == db.blocks[a].hash;
    AnswerBetween(c, a, t);
    Queries.TransfersAreObserved(db, s, a + 1, t);
  }

  /** The chain the tables hold, for any scripts. */
  function ChainOf(db: Queries.Tables): ScriptChain {
    seq(|db.blocks|, i requires 0 <= i < |db.blocks| =>
      ScriptBlock(db.blocks[i].hash, (s: Scripts) => Queries.LockedInBlock(db, s, db.blocks[i]),
                  (s: Scripts) => Queries.ForeignInBlock(db, s, db.blocks[i])))
  }

  lemma SeenIsObserved(db: Queries.Tables, s: Scripts)
    ensures Seen(ChainOf(db), s) == Queries.Observed(db, s)
  {
  }
}
