/** The transaction pool: three maps and a linked list that must agree. */
module Pool {
  import opened Amounts
  import opened Operations

  /* ---- the pool as a value ---- */

  /** Pooled transactions by hash, the transaction named for each source, and the hashes in insertion order. */
  datatype View = View(pool: map<Hash, Tx>, sources: map<Address, Hash>, order: seq<Hash>)

  datatype PoolOp = Add(tx: Tx, limit: int) | Remove(hashes: seq<Hash>) | RemoveFromSources(sources: seq<Address>)

  const EMPTY := View(map[], map[], [])

  function Without(order: seq<Hash>, h: Hash): seq<Hash> {
    if order == [] then []
    else if order[0] == h then Without(order[1..], h)
    else [order[0]] + Without(order[1..], h)
  }

  function AddResult(v: View, tx: Tx, limit: int): Result<()> {
    if tx.hash in v.pool then Err(TransactionAlreadyExistsInPool)
    else if limit > 0 && |v.pool| >= limit then Err(TransactionPoolFull)
    else Ok(())
  }

  function Added(v: View, tx: Tx): View {
    View(v.pool[tx.hash := tx], v.sources[tx.source := tx.hash], v.order + [tx.hash])
  }

  function RemoveOne(v: View, h: Hash): View {
    if h !in v.pool then v
    else View(v.pool - {h}, v.sources - {v.pool[h].source}, Without(v.order, h))
  }

  function RemoveAll(v: View, hashes: seq<Hash>): View
    decreases |hashes|
  {
    if hashes == [] then v else RemoveAll(RemoveOne(v, hashes[0]), hashes[1..])
  }

  function RemoveSource(v: View, source: Address): View {
    if source !in v.sources || v.sources[source] !in v.pool then v
    else
      var h := v.sources[source];
      View(v.pool - {h}, v.sources - {source}, Without(v.order, h))
  }

  function RemoveSources(v: View, sources: seq<Address>): View
    decreases |sources|
  {
    if sources == [] then v else RemoveSources(RemoveSource(v, sources[0]), sources[1..])
  }

  function Do(v: View, op: PoolOp): View {
    match op
    case Add(tx, limit) => if AddResult(v, tx, limit).Ok? then Added(v, tx) else v
    case Remove(hashes) => RemoveAll(v, hashes)
    case RemoveFromSources(sources) => RemoveSources(v, sources)
  }

  function Run(ops: seq<PoolOp>): View {
    if ops == [] then EMPTY else Do(Run(ops[..|ops| - 1]), ops[|ops| - 1])
  }

  /* ---- consistency ---- */

  ghost predicate Distinct(order: seq<Hash>) {
    forall i, j :: 0 <= i < j < |order| ==> order[i] != order[j]
  }

  ghost predicate Consistent(v: View) {
    && Distinct(v.order)
    && (forall h :: h in v.pool <==> h in v.order)
    && (forall h :: h in v.pool ==> v.pool[h].hash == h)
    && (forall a :: a in v.sources ==> v.sources[a] in v.pool && v.pool[v.sources[a]].source == a)
  }

  lemma {:induction false} WithoutContents(order: seq<Hash>, h: Hash)
    ensures forall x :: x in Without(order, h) <==> x in order && x != h
  {
    if order != [] {
      WithoutContents(order[1..], h);
      assert order == [order[0]] + order[1..];
    }
  }

  lemma {:induction false} WithoutDistinct(order: seq<Hash>, h: Hash)
    requires Distinct(order)
    ensures Distinct(Without(order, h))
  {
    if order != [] {
      var rest := Without(order[1..], h);
      WithoutDistinct(order[1..], h);
      assert order[0] !in rest by {
        WithoutContents(order[1..], h);
      }
      assert Distinct([order[0]] + rest);
    }
  }

  /** Removing an element of the list is removing its hash, since no hash is there twice. */
  lemma {:induction false} WithoutIsRemoval(order: seq<Hash>, i: nat)
    requires Distinct(order) && i < |order|
    ensures Without(order, order[i]) == order[..i] + order[i + 1..]
    decreases |order|
  {
    var h := order[i];
    if i == 0 {
      NothingToDrop(order[1..], h);
    } else {
      WithoutIsRemoval(order[1..], i - 1);
      assert order[..i] + order[i + 1..] == [order[0]] + (order[1..][..i - 1] + order[1..][i..]);
    }
  }

  lemma {:induction false} NothingToDrop(order: seq<Hash>, h: Hash)
    requires h !in order
    ensures Without(order, h) == order
  {
    if order != [] {
      NothingToDrop(order[1..], h);
    }
  }

  lemma AddedConsistent(v: View, tx: Tx)
    requires Consistent(v) && tx.hash !in v.pool
    ensures Consistent(Added(v, tx))
  {
  }

  lemma RemoveOneConsistent(v: View, h: Hash)
    requires Consistent(v)
    ensures Consistent(RemoveOne(v, h))
  {
    WithoutContents(v.order, h);
    WithoutDistinct(v.order, h);
  }

  /**
   Deleting a named transaction by hash and deleting it by source are the same, and a transaction that is
   not the named one takes the name of the other with it.
   */
  lemma RemoveSourceIsRemoveOne(v: View, source: Address)
    requires Consistent(v)
    ensures RemoveSource(v, source) == if source in v.sources then RemoveOne(v, v.sources[source]) else v
  {
  }

  lemma {:induction false} RemoveAllConsistent(v: View, hashes: seq<Hash>)
    requires Consistent(v)
    ensures Consistent(RemoveAll(v, hashes))
    decreases |hashes|
  {
    if hashes != [] {
      RemoveOneConsistent(v, hashes[0]);
      RemoveAllConsistent(RemoveOne(v, hashes[0]), hashes[1..]);
    }
  }

  lemma {:induction false} RemoveSourcesConsistent(v: View, sources: seq<Address>)
    requires Consistent(v)
    ensures Consistent(RemoveSources(v, sources))
    decreases |sources|
  {
    if sources != [] {
      RemoveSourceIsRemoveOne(v, sources[0]);
      if sources[0] in v.sources {
        RemoveOneConsistent(v, v.sources[sources[0]]);
      }
      RemoveSourcesConsistent(RemoveSource(v, sources[0]), sources[1..]);
    }
  }

  lemma DoConsistent(v: View, op: PoolOp)
    requires Consistent(v)
    ensures Consistent(Do(v, op))
  {
    match op {
      case Add(tx, limit) =>
        if AddResult(v, tx, limit).Ok? {
          AddedConsistent(v, tx);
        }
      case Remove(hashes) => RemoveAllConsistent(v, hashes);
      case RemoveFromSources(sources) => RemoveSourcesConsistent(v, sources);
    }
  }

  /** Over any sequence of adds and removals the structures agree. */
  lemma {:induction false} PoolStaysConsistent(ops: seq<PoolOp>)
    ensures Consistent(Run(ops))
    decreases |ops|
  {
    if ops != [] {
      PoolStaysConsistent(ops[..|ops| - 1]);
      DoConsistent(Run(ops[..|ops| - 1]), ops[|ops| - 1]);
    }
  }

  /* ---- insertion order ---- */

  /** The last of `ops` that put `h` into the pool, counted from 1; 0 if none did. */
  function AddedAt(ops: seq<PoolOp>, h: Hash): nat {
    if ops == [] then 0
    else
      var op := ops[|ops| - 1];
      var before := ops[..|ops| - 1];
      if op.Add? && op.tx.hash == h && AddResult(Run(before), op.tx, op.limit).Ok? then |ops| else AddedAt(before, h)
  }

  lemma {:induction false} AddedBefore(ops: seq<PoolOp>, h: Hash)
    ensures AddedAt(ops, h) <= |ops|
    decreases |ops|
  {
    if ops != [] {
      AddedBefore(ops[..|ops| - 1], h);
    }
  }

  /** `sub` lists some of the hashes of `order` without changing their order. */
  ghost predicate Subsequence(sub: seq<Hash>, order: seq<Hash>) {
    forall i, j :: 0 <= i < j < |sub| ==> Precedes(order, sub[i], sub[j])
  }

  ghost predicate Precedes(order: seq<Hash>, x: Hash, y: Hash) {
    exists i, j :: 0 <= i < j < |order| && order[i] == x && order[j] == y
  }

  lemma {:induction false} WithoutKeepsOrder(order: seq<Hash>, h: Hash, i: nat, j: nat)
    requires i < j < |Without(order, h)|
    ensures Precedes(order, Without(order, h)[i], Without(order, h)[j])
    decreases |order|
  {
    var rest := order[1..];
    if order[0] != h && i == 0 {
      WithoutContents(rest, h);
      assert Without(order, h)[j] == Without(rest, h)[j - 1];
      assert Without(rest, h)[j - 1] in rest;
      var k :| 0 <= k < |rest| && rest[k] == Without(rest, h)[j - 1];
      assert order[0] == Without(order, h)[0] && order[k + 1] == Without(order, h)[j];
    } else {
      var d := if order[0] == h then 0 else 1;
      WithoutKeepsOrder(rest, h, i - d, j - d);
      var k, l :| 0 <= k < l < |rest| && rest[k] == Without(rest, h)[i - d] && rest[l] == Without(rest, h)[j - d];
      assert order[k + 1] == Without(order, h)[i] && order[l + 1] == Without(order, h)[j];
    }
  }

  lemma PrecedesTransfers(sub: seq<Hash>, mid: seq<Hash>, order: seq<Hash>)
    requires Subsequence(sub, mid) && Subsequence(mid, order)
    ensures Subsequence(sub, order)
  {
    forall i, j | 0 <= i < j < |sub| ensures Precedes(order, sub[i], sub[j]) {
      assert Precedes(mid, sub[i], sub[j]);
    }
  }

  lemma SubsequenceOfSelf(order: seq<Hash>)
    ensures Subsequence(order, order)
  {
  }

  lemma RemoveOneKeepsOrder(v: View, h: Hash)
    ensures Subsequence(RemoveOne(v, h).order, v.order)
  {
    SubsequenceOfSelf(v.order);
    forall i, j | 0 <= i < j < |Without(v.order, h)|
      ensures Precedes(v.order, Without(v.order, h)[i], Without(v.order, h)[j])
    {
      WithoutKeepsOrder(v.order, h, i, j);
    }
  }

  lemma {:induction false} RemoveAllKeepsOrder(v: View, hashes: seq<Hash>)
    ensures Subsequence(RemoveAll(v, hashes).order, v.order)
    decreases |hashes|
  {
    SubsequenceOfSelf(v.order);
    if hashes != [] {
      RemoveOneKeepsOrder(v, hashes[0]);
      RemoveAllKeepsOrder(RemoveOne(v, hashes[0]), hashes[1..]);
      PrecedesTransfers(RemoveAll(v, hashes).order, RemoveOne(v, hashes[0]).order, v.order);
    }
  }

  lemma {:induction false} RemoveSourcesKeepsOrder(v: View, sources: seq<Address>)
    requires Consistent(v)
    ensures Subsequence(RemoveSources(v, sources).order, v.order)
    decreases |sources|
  {
    SubsequenceOfSelf(v.order);
    if sources != [] {
      var next := RemoveSource(v, sources[0]);
      RemoveSourceIsRemoveOne(v, sources[0]);
      if sources[0] in v.sources {
        RemoveOneConsistent(v, v.sources[sources[0]]);
        RemoveOneKeepsOrder(v, v.sources[sources[0]]);
      }
      RemoveSourcesKeepsOrder(next, sources[1..]);
      PrecedesTransfers(RemoveSources(v, sources).order, next.order, v.order);
    }
  }

  /** The list is in the order in which its hashes were put in. */
  lemma {:induction false} InsertionOrder(ops: seq<PoolOp>, i: nat, j: nat)
    requires i < j < |Run(ops).order|
    ensures AddedAt(ops, Run(ops).order[i]) < AddedAt(ops, Run(ops).order[j])
    decreases |ops|
  {
    var before, op := ops[..|ops| - 1], ops[|ops| - 1];
    var v := Run(before);
    var x, y := Run(ops).order[i], Run(ops).order[j];
    PoolStaysConsistent(before);
    PoolStaysConsistent(ops);
    if op.Add? {
      AddedBefore(before, x);
      if j < |v.order| {
        InsertionOrder(before, i, j);
        assert x in v.pool && y in v.pool;
      } else {
        assert x in v.pool;
      }
    } else {
      RemovalKeepsOrder(v, op);
      assert Precedes(v.order, x, y);
      var k, l :| 0 <= k < l < |v.order| && v.order[k] == x && v.order[l] == y;
      InsertionOrder(before, k, l);
    }
  }

  lemma RemovalKeepsOrder(v: View, op: PoolOp)
    requires Consistent(v) && !op.Add?
    ensures Subsequence(Do(v, op).order, v.order)
  {
    match op {
      case Remove(hashes) => RemoveAllKeepsOrder(v, hashes);
      case RemoveFromSources(sources) => RemoveSourcesKeepsOrder(v, sources);
    }
  }

  /* ---- one transaction per source ---- */

  /** Every pooled transaction is the one named for its source. */
  ghost predicate Named(v: View) {
    forall h :: h in v.pool ==> v.pool[h].source in v.sources && v.sources[v.pool[h].source] == h
  }

  /** An accepted transaction keeps names and pool in bijection exactly when its source was not pooled. */
  lemma AddKeepsNamesIff(v: View, tx: Tx)
    requires Consistent(v) && Named(v) && tx.hash !in v.pool
    ensures Named(Added(v, tx)) <==> tx.source !in v.sources
  {
    if tx.source in v.sources {
      var h := v.sources[tx.source];
      assert h in Added(v, tx).pool && Added(v, tx).pool[h].source == tx.source;
    }
  }

  lemma RemoveOneNamed(v: View, h: Hash)
    requires Consistent(v) && Named(v)
    ensures Named(RemoveOne(v, h))
  {
  }

  lemma {:induction false} RemoveAllNamed(v: View, hashes: seq<Hash>)
    requires Consistent(v) && Named(v)
    ensures Named(RemoveAll(v, hashes))
    decreases |hashes|
  {
    if hashes != [] {
      RemoveOneConsistent(v, hashes[0]);
      RemoveOneNamed(v, hashes[0]);
      RemoveAllNamed(RemoveOne(v, hashes[0]), hashes[1..]);
    }
  }

  lemma {:induction false} RemoveSourcesNamed(v: View, sources: seq<Address>)
    requires Consistent(v) && Named(v)
    ensures Named(RemoveSources(v, sources))
    decreases |sources|
  {
    if sources != [] {
      RemoveSourceIsRemoveOne(v, sources[0]);
      if sources[0] in v.sources {
        RemoveOneConsistent(v, v.sources[sources[0]]);
        RemoveOneNamed(v, v.sources[sources[0]]);
      }
      RemoveSourcesNamed(RemoveSource(v, sources[0]), sources[1..]);
    }
  }

  /** Callers that add a transaction only after `IsSameSource` said no. */
  ghost predicate Careful(ops: seq<PoolOp>) {
    forall i :: 0 <= i < |ops| && ops[i].Add? ==> ops[i].tx.source !in Run(ops[..i]).sources
  }

  /** With careful callers, sources and pool are in bijection over any run. */
  lemma {:induction false} SourcesAndPoolInBijection(ops: seq<PoolOp>)
    requires Careful(ops)
    ensures Named(Run(ops)) && Consistent(Run(ops))
    decreases |ops|
  {
    PoolStaysConsistent(ops);
    if ops != [] {
      var before, op := ops[..|ops| - 1], ops[|ops| - 1];
      forall i | 0 <= i < |before| && before[i].Add? ensures before[i].tx.source !in Run(before[..i]).sources {
        assert before[..i] == ops[..i];
      }
      SourcesAndPoolInBijection(before);
      match op {
        case Add(tx, limit) =>
          if AddResult(Run(before), tx, limit).Ok? {
            AddKeepsNamesIff(Run(before), tx);
          }
        case Remove(hashes) => RemoveAllNamed(Run(before), hashes);
        case RemoveFromSources(sources) => RemoveSourcesNamed(Run(before), sources);
      }
    }
  }

  /** Two transactions of one source: removing the older one takes away the name of the younger one. */
  lemma CarelessCallersLoseNames()
    ensures var x, y := Tx("x", "", "a", 0, 0, []), Tx("y", "", "a", 0, 1, []);
            var v := RemoveOne(Added(Added(EMPTY, x), y), "x");
            "y" in v.pool && "a" !in v.sources
  {
  }

  /* ---- the pool as the program keeps it ---- */

  /** An element of the linked list, identified by its address. */
  datatype Element = Element(id: nat, hash: Hash)

  function HashesOf(list: seq<Element>): seq<Hash> {
    seq(|list|, i requires 0 <= i < |list| => list[i].hash)
  }

  /** `elements` leads from each listed hash to its element. */
  ghost predicate ListOk(list: seq<Element>, elements: map<Hash, nat>, next: nat) {
    && (forall i, j :: 0 <= i < j < |list| ==> list[i].id != list[j].id)
    && (forall i :: 0 <= i < |list| ==> list[i].id < next)
    && (forall i :: 0 <= i < |list| ==> list[i].hash in elements && elements[list[i].hash] == list[i].id)
    && (forall h :: h in elements ==> h in HashesOf(list))
  }

  lemma ListPushed(list: seq<Element>, elements: map<Hash, nat>, next: nat, h: Hash)
    requires ListOk(list, elements, next) && h !in HashesOf(list)
    ensures ListOk(list + [Element(next, h)], elements[h := next], next + 1)
    ensures HashesOf(list + [Element(next, h)]) == HashesOf(list) + [h]
  {
    forall i | 0 <= i < |list| ensures list[i].hash != h {
      assert HashesOf(list)[i] == list[i].hash;
    }
    forall x | x in elements[h := next] ensures x in HashesOf(list) + [h] {
    }
    assert HashesOf(list + [Element(next, h)]) == HashesOf(list) + [h];
  }

  lemma HashesDropped(list: seq<Element>, i: nat)
    requires Distinct(HashesOf(list)) && i < |list|
    ensures HashesOf(list[..i] + list[i + 1..]) == Without(HashesOf(list), list[i].hash)
  {
    WithoutIsRemoval(HashesOf(list), i);
    assert HashesOf(list[..i] + list[i + 1..]) == HashesOf(list)[..i] + HashesOf(list)[i + 1..];
  }

  lemma ListDropped(list: seq<Element>, elements: map<Hash, nat>, next: nat, i: nat)
    requires ListOk(list, elements, next) && Distinct(HashesOf(list)) && i < |list|
    ensures ListOk(list[..i] + list[i + 1..], elements - {list[i].hash}, next)
  {
    var less := list[..i] + list[i + 1..];
    forall k | 0 <= k < |less| ensures less[k] == list[if k < i then k else k + 1] {
    }
    forall k | 0 <= k < |less| ensures less[k].hash != list[i].hash {
      assert HashesOf(list)[if k < i then k else k + 1] == less[k].hash && HashesOf(list)[i] == list[i].hash;
    }
    forall h | h in elements - {list[i].hash} ensures h in HashesOf(less) {
      HashesDropped(list, i);
      WithoutContents(HashesOf(list), list[i].hash);
    }
  }

  /** The element of a listed hash carries that hash. */
  lemma ElementFound(list: seq<Element>, elements: map<Hash, nat>, next: nat, h: Hash) returns (k: nat)
    requires ListOk(list, elements, next) && h in elements
    ensures k < |list| && list[k] == Element(elements[h], h)
  {
    assert h in HashesOf(list);
    k :| 0 <= k < |list| && HashesOf(list)[k] == h;
  }

  class TransactionPool {
    var pool: map<Hash, Tx>
    var sources: map<Address, Hash>
    var hashList: seq<Element>
    var hashMap: map<Hash, nat>
    var nextId: nat

    ghost function Abs(): View
      reads this
    {
      View(pool, sources, HashesOf(hashList))
    }

    ghost predicate Valid()
      reads this
    {
      Consistent(Abs()) && ListOk(hashList, hashMap, nextId)
    }

    constructor ()
      ensures Valid() && Abs() == EMPTY
    {
      pool, sources, hashList, hashMap, nextId := map[], map[], [], map[], 0;
    }

    method AddTransaction(tx: Tx, limit: int) returns (r: Result<()>)
      requires Valid()
      modifies this
      ensures Valid()
      ensures r == AddResult(old(Abs()), tx, limit) && Abs() == Do(old(Abs()), Add(tx, limit))
    {
      if tx.hash in pool {
        return Err(TransactionAlreadyExistsInPool);
      }
      if limit > 0 && |pool| >= limit {
        return Err(TransactionPoolFull);
      }
      AddedConsistent(Abs(), tx);
      ListPushed(hashList, hashMap, nextId, tx.hash);
      pool := pool[tx.hash := tx];
      sources := sources[tx.source := tx.hash];
      hashList := hashList + [Element(nextId, tx.hash)];
      hashMap := hashMap[tx.hash := nextId];
      nextId := nextId + 1;
      r := Ok(());
    }

    /** `hashList.Remove(hashMap[hash])` and the entry of `hashMap`. */
    method RemoveElement(hash: Hash)
      requires ListOk(hashList, hashMap, nextId) && Distinct(HashesOf(hashList)) && hash in hashMap
      modifies `hashList, `hashMap
      ensures ListOk(hashList, hashMap, nextId) && HashesOf(hashList) == Without(old(HashesOf(hashList)), hash)
    {
      ghost var k := ElementFound(hashList, hashMap, nextId, hash);
      var i := 0;
      while hashList[i].id != hashMap[hash]
        invariant 0 <= i <= k
        decreases k - i
      {
        i := i + 1;
      }
      assert i == k;
      ListDropped(hashList, hashMap, nextId, i);
      HashesDropped(hashList, i);
      hashList := hashList[..i] + hashList[i + 1..];
      hashMap := hashMap - {hash};
    }

    method RemoveTransaction(hash: Hash)
      requires Valid()
      modifies this
      ensures Valid() && Abs() == RemoveOne(old(Abs()), hash)
    {
      if hash in pool {
        RemoveOneConsistent(Abs(), hash);
        sources := sources - {pool[hash].source};
        pool := pool - {hash};
        if hash in hashMap {
          RemoveElement(hash);
        }
      }
    }

    method RemoveTransactions(hashes: seq<Hash>)
      requires Valid()
      modifies this
      ensures Valid() && Abs() == RemoveAll(old(Abs()), hashes)
    {
      for i := 0 to |hashes|
        invariant Valid() && RemoveAll(old(Abs()), hashes) == RemoveAll(Abs(), hashes[i..])
      {
        assert hashes[i..][1..] == hashes[i + 1..];
        RemoveTransaction(hashes[i]);
      }
    }

    method RemoveTransactionOf(source: Address)
      requires Valid()
      modifies this
      ensures Valid() && Abs() == RemoveSource(old(Abs()), source)
    {
      RemoveSourceIsRemoveOne(Abs(), source);
      if source in sources {
        var hash := sources[source];
        if hash in pool {
          RemoveOneConsistent(Abs(), hash);
          sources := sources - {source};
          pool := pool - {hash};
          if hash in hashMap {
            RemoveElement(hash);
          }
        }
      }
    }

    method RemoveTransactionsOf(from: seq<Address>)
      requires Valid()
      modifies this
      ensures Valid() && Abs() == RemoveSources(old(Abs()), from)
    {
      for i := 0 to |from|
        invariant Valid() && RemoveSources(old(Abs()), from) == RemoveSources(Abs(), from[i..])
      {
        assert from[i..][1..] == from[i + 1..];
        RemoveTransactionOf(from[i]);
      }
    }

    /** The oldest `limit` hashes, oldest first. */
    method AvailableTransactions(limit: int) returns (r: seq<Hash>)
      ensures var order := Abs().order;
              r == if limit < 1 then [] else if limit < |order| then order[..limit] else order
    {
      r := [];
      if limit < 1 {
        return;
      }
      var cnt := 0;
      for i := 0 to |hashList|
        invariant cnt == i <= limit && r == HashesOf(hashList)[..i]
      {
        if cnt >= limit {
          return;
        }
        r := r + [hashList[i].hash];
        cnt := cnt + 1;
      }
    }

    method IsSameSource(source: Address) returns (found: bool)
      ensures found <==> source in Abs().sources
    {
      found := source in sources;
    }
  }

  /* ---- what adding and removing do ---- */

  /** A transaction is taken if and only if its hash is new and the pool is below a positive limit. */
  lemma AddAcceptedIff(v: View, tx: Tx, limit: int)
    ensures AddResult(v, tx, limit).Ok? <==> tx.hash !in v.pool && (limit <= 0 || |v.pool| < limit)
    ensures tx.hash in v.pool ==> AddResult(v, tx, limit) == Err(TransactionAlreadyExistsInPool)
    ensures Do(v, Add(tx, limit)) == if AddResult(v, tx, limit).Ok? then Added(v, tx) else v
    ensures Added(v, tx).pool == v.pool[tx.hash := tx] && Added(v, tx).order == v.order + [tx.hash]
    ensures Added(v, tx).sources == v.sources[tx.source := tx.hash]
  {
  }

  /** Removing hashes removes exactly their transactions and the names of their sources. */
  lemma {:induction false} RemoveAllIs(v: View, hashes: seq<Hash>)
    requires Consistent(v)
    ensures var after := RemoveAll(v, hashes);
            && (forall h :: h in after.pool <==> h in v.pool && h !in hashes)
            && (forall h :: h in after.pool ==> after.pool[h] == v.pool[h])
            && (forall a :: a in after.sources ==> a in v.sources && after.sources[a] == v.sources[a])
            && (forall a :: a in v.sources && (forall h :: h in hashes && h in v.pool ==> v.pool[h].source != a) ==>
                  a in after.sources)
    decreases |hashes|
  {
    if hashes != [] {
      RemoveOneConsistent(v, hashes[0]);
      RemoveAllIs(RemoveOne(v, hashes[0]), hashes[1..]);
      assert hashes == [hashes[0]] + hashes[1..];
    }
  }

  /** Removing sources removes exactly the transactions named for them. */
  lemma {:induction false} RemoveSourcesIs(v: View, sources: seq<Address>)
    requires Consistent(v)
    ensures var after := RemoveSources(v, sources);
            && (forall h :: h in after.pool <==>
                  h in v.pool && forall a :: a in sources && a in v.sources ==> v.sources[a] != h)
            && (forall h :: h in after.pool ==> after.pool[h] == v.pool[h])
            && (forall a :: a in after.sources <==> a in v.sources && a !in sources)
    decreases |sources|
  {
    if sources != [] {
      var next := RemoveSource(v, sources[0]);
      RemoveSourceIsRemoveOne(v, sources[0]);
      if sources[0] in v.sources {
        RemoveOneConsistent(v, v.sources[sources[0]]);
      }
      RemoveSourcesIs(next, sources[1..]);
      assert sources == [sources[0]] + sources[1..];
    }
  }

  lemma SmallerKeys(a: set<Hash>, b: set<Hash>)
    requires a <= b
    ensures |a| <= |b|
  {
    assert b == a + (b - a);
  }

  lemma DoSize(v: View, op: PoolOp)
    requires Consistent(v) && !op.Add?
    ensures |Do(v, op).pool| <= |v.pool|
  {
    match op {
      case Remove(hashes) => RemoveAllIs(v, hashes);
      case RemoveFromSources(sources) => RemoveSourcesIs(v, sources);
    }
    SmallerKeys(Do(v, op).pool.Keys, v.pool.Keys);
  }

  /** If every caller asks for the limit, the pool never holds more. */
  lemma {:induction false} LimitHolds(ops: seq<PoolOp>, limit: nat)
    requires forall i :: 0 <= i < |ops| && ops[i].Add? ==> 0 < ops[i].limit <= limit
    ensures |Run(ops).pool| <= limit
    decreases |ops|
  {
    if ops != [] {
      var before, op := ops[..|ops| - 1], ops[|ops| - 1];
      LimitHolds(before, limit);
      PoolStaysConsistent(before);
      if !op.Add? {
        DoSize(Run(before), op);
      }
    }
  }
}
