/** The batch overlay on the key-value store. */
module Batch {
  import opened Amounts
  import opened Operations

  type Key = string
  type Value = string
  type KV = map<Key, Value>

  /* ---- the log of a batch ---- */

  datatype Entry = Put(key: Key, value: Value) | Delete(key: Key)

  /** What writing a batch makes of a store. */
  function Replay(core: KV, log: seq<Entry>): KV {
    if log == [] then core
    else
      var before := Replay(core, log[..|log| - 1]);
      match log[|log| - 1]
      case Put(k, v) => before[k := v]
      case Delete(k) => before - {k}
  }

  /** The overlay that Put and Delete keep beside the log. */
  function Inserted(log: seq<Entry>): KV {
    if log == [] then map[]
    else
      var before := Inserted(log[..|log| - 1]);
      match log[|log| - 1]
      case Put(k, v) => before[k := v]
      case Delete(k) => before - {k}
  }

  function Lookup(kv: KV, k: Key): Option<Value> { if k in kv then Some(kv[k]) else None }

  /** A read through the batch: the overlay first, then the store. */
  function Read(core: KV, log: seq<Entry>, k: Key): Option<Value> {
    if k in Inserted(log) then Some(Inserted(log)[k]) else Lookup(core, k)
  }

  /** The last entry of the log about `k`. */
  function LastAbout(log: seq<Entry>, k: Key): Option<Entry> {
    if log == [] then None
    else if log[|log| - 1].key == k then Some(log[|log| - 1])
    else LastAbout(log[..|log| - 1], k)
  }

  lemma {:induction false} ReadByLast(core: KV, log: seq<Entry>, k: Key)
    ensures match LastAbout(log, k)
            case None => k !in Inserted(log) && Lookup(Replay(core, log), k) == Lookup(core, k)
            case Some(Put(_, v)) => Lookup(Inserted(log), k) == Lookup(Replay(core, log), k) == Some(v)
            case Some(Delete(_)) => k !in Inserted(log) && k !in Replay(core, log)
    decreases |log|
  {
    if log != [] {
      ReadByLast(core, log[..|log| - 1], k);
    }
  }

  /** A read sees what the batch will write exactly when the key was not last deleted while the store has it. */
  lemma ReadMatchesReplayIff(core: KV, log: seq<Entry>, k: Key)
    ensures Read(core, log, k) == Lookup(Replay(core, log), k)
            <==> !(LastAbout(log, k) == Some(Delete(k)) && k in core)
  {
    ReadByLast(core, log, k);
    LastIsAbout(log, k);
  }

  lemma {:induction false} LastIsAbout(log: seq<Entry>, k: Key)
    ensures LastAbout(log, k).Some? ==> LastAbout(log, k).value.key == k && LastAbout(log, k).value in log
    decreases |log|
  {
    if log != [] {
      LastIsAbout(log[..|log| - 1], k);
    }
  }

  /** Deleting a stored key and reading it back. */
  lemma DeletedKeyIsStillRead()
    ensures Read(map["k" := "v"], [Delete("k")], "k") == Some("v")
    ensures "k" !in Replay(map["k" := "v"], [Delete("k")])
  {
    assert [Delete("k")][..0] == [];
    assert Replay(map["k" := "v"], []) == map["k" := "v"];
  }

  /* ---- programs on a store ---- */

  datatype Request =
    | HasKey(key: Key)
    | GetKey(key: Key)
    | NewKey(key: Key, value: Value)
    | SetKey(key: Key, value: Value)

  datatype Response = Found(found: bool) | Got(value: Value) | Done | Failed(error: Error)

  /** A caller: the next request, if any, and whether it gave up, by the responses so far. */
  datatype Caller = Caller(next: seq<Response> -> Option<Request>, failed: seq<Response> -> bool)

  /** The backend on a plain store. */
  function Serve(kv: KV, r: Request): (Response, KV) {
    match r
    case HasKey(k) => (Found(k in kv), kv)
    case GetKey(k) => (if k in kv then Got(kv[k]) else Failed(StorageRecordDoesNotExist), kv)
    case NewKey(k, v) => if k in kv then (Failed(StorageRecordAlreadyExists), kv) else (Done, kv[k := v])
    case SetKey(k, v) => if k !in kv then (Failed(StorageRecordDoesNotExist), kv) else (Done, kv[k := v])
  }

  /** The backend on a batch over `core`: the response and what is appended to the log. */
  function ServeBatch(core: KV, log: seq<Entry>, r: Request): (Response, seq<Entry>) {
    match r
    case HasKey(k) => (Found(Read(core, log, k).Some?), log)
    case GetKey(k) =>
      (match Read(core, log, k) case Some(v) => Got(v) case None => Failed(StorageRecordDoesNotExist), log)
    case NewKey(k, v) =>
      if Read(core, log, k).Some? then (Failed(StorageRecordAlreadyExists), log) else (Done, log + [Put(k, v)])
    case SetKey(k, v) =>
      if Read(core, log, k).None? then (Failed(StorageRecordDoesNotExist), log) else (Done, log + [Put(k, v)])
  }

  /** The first `n` requests of a caller on a private copy: all responses, and the copy at the end. */
  function RunPlain(kv: KV, c: Caller, past: seq<Response>, n: nat): (seq<Response>, KV)
    decreases n
  {
    if n == 0 || c.next(past).None? then (past, kv)
    else
      var (response, next) := Serve(kv, c.next(past).value);
      RunPlain(next, c, past + [response], n - 1)
  }

  /** The same through a batch over `core`: all responses, and the log at the end. */
  function RunBatch(core: KV, log: seq<Entry>, c: Caller, past: seq<Response>, n: nat): (seq<Response>, seq<Entry>)
    decreases n
  {
    if n == 0 || c.next(past).None? then (past, log)
    else
      var (response, next) := ServeBatch(core, log, c.next(past).value);
      RunBatch(core, next, c, past + [response], n - 1)
  }

  ghost predicate OnlyPuts(log: seq<Entry>) { forall i :: 0 <= i < |log| ==> log[i].Put? }

  lemma PutsReadBack(core: KV, log: seq<Entry>, k: Key)
    requires OnlyPuts(log)
    ensures Read(core, log, k) == Lookup(Replay(core, log), k)
  {
    LastIsAbout(log, k);
    ReadMatchesReplayIff(core, log, k);
  }

  lemma ReplayPut(core: KV, log: seq<Entry>, e: Entry)
    requires e.Put?
    ensures Replay(core, log + [e]) == Replay(core, log)[e.key := e.value]
  {
    assert (log + [e])[..|log|] == log;
  }

  lemma ServedAlike(core: KV, log: seq<Entry>, r: Request)
    requires OnlyPuts(log)
    ensures OnlyPuts(ServeBatch(core, log, r).1)
    ensures Serve(Replay(core, log), r) == (ServeBatch(core, log, r).0, Replay(core, ServeBatch(core, log, r).1))
  {
    PutsReadBack(core, log, r.key);
    match r {
      case HasKey(k) =>
      case GetKey(k) =>
      case NewKey(k, v) =>
        ReplayPut(core, log, Put(k, v));
        assert OnlyPuts(log + [Put(k, v)]);
      case SetKey(k, v) =>
        ReplayPut(core, log, Put(k, v));
        assert OnlyPuts(log + [Put(k, v)]);
    }
  }

  /** Any caller gets through the batch what it would get on a private copy, and the log leads to that copy. */
  lemma {:induction false} BatchRefinesCopy(core: KV, log: seq<Entry>, c: Caller, past: seq<Response>, n: nat)
    requires OnlyPuts(log)
    ensures var (responses, after) := RunBatch(core, log, c, past, n);
            OnlyPuts(after) && RunPlain(Replay(core, log), c, past, n) == (responses, Replay(core, after))
    decreases n
  {
    if n > 0 && c.next(past).Some? {
      ServedAlike(core, log, c.next(past).value);
      var (response, next) := ServeBatch(core, log, c.next(past).value);
      BatchRefinesCopy(core, next, c, past + [response], n - 1);
    }
  }

  /* ---- the batch as an object ---- */

  /** The store under the batch. */
  class Core {
    var kv: KV

    constructor (kv: KV)
      ensures this.kv == kv
    {
      this.kv := kv;
    }

    method Write(log: seq<Entry>)
      modifies this
      ensures kv == Replay(old(kv), log)
    {
      for i := 0 to |log|
        invariant kv == Replay(old(kv), log[..i])
      {
        assert log[..i + 1][..i] == log[..i];
        match log[i] {
          case Put(k, v) => kv := kv[k := v];
          case Delete(k) => kv := kv - {k};
        }
      }
      assert log[..|log|] == log;
    }
  }

  class BatchCore {
    const core: Core
    var batch: seq<Entry>
    var inserted: KV

    ghost predicate Valid()
      reads this
    {
      inserted == Inserted(batch)
    }

    constructor (core: Core)
      ensures Valid() && this.core == core && batch == []
    {
      this.core := core;
      batch, inserted := [], map[];
    }

    method Has(key: Key) returns (found: bool)
      requires Valid()
      ensures found <==> Read(core.kv, batch, key).Some?
    {
      if key in inserted {
        return true;
      }
      found := key in core.kv;
    }

    method Get(key: Key) returns (r: Option<Value>)
      requires Valid()
      ensures r == Read(core.kv, batch, key)
    {
      if key in inserted {
        return Some(inserted[key]);
      }
      r := Lookup(core.kv, key);
    }

    method PutValue(key: Key, value: Value)
      requires Valid()
      modifies this
      ensures Valid() && batch == old(batch) + [Put(key, value)]
    {
      inserted := inserted[key := value];
      batch := batch + [Put(key, value)];
      assert batch[..|batch| - 1] == old(batch);
    }

    method DeleteKey(key: Key)
      requires Valid()
      modifies this
      ensures Valid() && batch == old(batch) + [Delete(key)]
    {
      inserted := inserted - {key};
      batch := batch + [Delete(key)];
      assert batch[..|batch| - 1] == old(batch);
    }

    method Discard()
      modifies this
      ensures Valid() && batch == []
    {
      batch, inserted := [], map[];
    }

    method Commit()
      requires Valid()
      modifies this, core
      ensures Valid() && batch == [] && core.kv == Replay(old(core.kv), old(batch))
    {
      core.Write(batch);
      batch, inserted := [], map[];
    }

    /** `LevelDBBackend` on the batch: one request. */
    method ServeRequest(r: Request) returns (response: Response)
      requires Valid()
      modifies this
      ensures Valid() && (response, batch) == ServeBatch(core.kv, old(batch), r)
    {
      var exists_ := Has(r.key);
      match r {
        case HasKey(k) =>
          response := Found(exists_);
        case GetKey(k) =>
          if !exists_ {
            return Failed(StorageRecordDoesNotExist);
          }
          var value := Get(k);
          response := Got(value.value);
        case NewKey(k, v) =>
          if exists_ {
            return Failed(StorageRecordAlreadyExists);
          }
          PutValue(k, v);
          response := Done;
        case SetKey(k, v) =>
          if !exists_ {
            return Failed(StorageRecordDoesNotExist);
          }
          PutValue(k, v);
          response := Done;
      }
    }

    /** The first `n` requests of a caller through the batch. */
    method Execute(c: Caller, n: nat) returns (responses: seq<Response>)
      requires Valid()
      modifies this
      ensures Valid() && (responses, batch) == RunBatch(core.kv, old(batch), c, [], n)
    {
      responses := [];
      var left := n;
      while left > 0 && c.next(responses).Some?
        invariant Valid()
        invariant RunBatch(core.kv, old(batch), c, [], n) == RunBatch(core.kv, batch, c, responses, left)
      {
        var response := ServeRequest(c.next(responses).value);
        responses, left := responses + [response], left - 1;
      }
    }
  }

  /**
   The transaction of `finishBallot`: open a batch, run the caller, discard if it gave up and commit
   otherwise. Every response is that of a private copy; the store becomes the copy, or stays as it was.
   */
  method RunInBatch(store: Core, c: Caller, n: nat) returns (responses: seq<Response>)
    modifies store
    ensures responses == RunPlain(old(store.kv), c, [], n).0
    ensures store.kv == if c.failed(responses) then old(store.kv) else RunPlain(old(store.kv), c, [], n).1
  {
    var batch := new BatchCore(store);
    responses := batch.Execute(c, n);
    BatchRefinesCopy(store.kv, [], c, [], n);
    if c.failed(responses) {
      batch.Discard();
    } else {
      batch.Commit();
    }
  }

  /** The laws of the plain store: New wants a free key, Set a taken one, both are read back, nothing else changes. */
  lemma StoreLaws(kv: KV, k: Key, v: Value, other: Key)
    ensures Serve(kv, NewKey(k, v)).0 == Done <==> Serve(kv, HasKey(k)).0 == Found(false)
    ensures Serve(kv, SetKey(k, v)).0 == Done <==> Serve(kv, HasKey(k)).0 == Found(true)
    ensures Serve(kv, HasKey(k)).0.Found? && (Serve(kv, GetKey(k)).0.Got? <==> Serve(kv, HasKey(k)).0.found)
    ensures Serve(kv, HasKey(k)).1 == kv && Serve(kv, GetKey(k)).1 == kv
    ensures forall r :: r in {NewKey(k, v), SetKey(k, v)} ==>
              var (response, after) := Serve(kv, r);
              && (response != Done ==> after == kv && response.Failed?)
              && (response == Done ==> Serve(after, GetKey(k)).0 == Got(v))
              && (other != k ==> Serve(after, GetKey(other)) == (Serve(kv, GetKey(other)).0, after))
  {
  }

  /** A run answers every request it is asked. */
  lemma {:induction false} RunAnswersAll(kv: KV, c: Caller, past: seq<Response>, n: nat)
    requires forall p :: c.next(p).Some?
    ensures |RunPlain(kv, c, past, n).0| == |past| + n && past <= RunPlain(kv, c, past, n).0
    decreases n
  {
    if n > 0 {
      var (response, next) := Serve(kv, c.next(past).value);
      RunAnswersAll(next, c, past + [response], n - 1);
    }
  }
}
