/** Building the ballot of a new round, and the checks it must pass at the other nodes. */
module Proposal {
  import opened Amounts
  import opened Operations
  import opened Validation
  import opened Pool
  import opened Chain

  const BLOCK_HEIGHT_END_OF_INFLATION: nat := 36_000_000

  type Cache = map<Hash, Tx>

  /** `inflation` is what `CalculateInflation` makes of `initialBalance`. */
  datatype Conf = Conf(check: Validation.Config, initialBalance: Amount, inflation: Amount, ratio: string,
                       txsLimit: nat, opsLimit: int, opsInBallotLimit: int)

  datatype Proposal = Proposal(proposer: Address, basis: Basis, txs: seq<Hash>, ptx: Tx)

  /* ---- filters and the packer ---- */

  function NewOnes(hashes: seq<Hash>, stored: set<Hash>): seq<Hash> {
    if hashes == [] then []
    else (if hashes[0] in stored then [] else [hashes[0]]) + NewOnes(hashes[1..], stored)
  }

  function FoundOnes(hashes: seq<Hash>, cache: Cache): seq<Hash> {
    if hashes == [] then []
    else (if hashes[0] in cache then [hashes[0]] else []) + FoundOnes(hashes[1..], cache)
  }

  /** The first found transaction of each source. */
  function OnePerSource(hashes: seq<Hash>, cache: Cache, seen: set<Address>): seq<Hash>
    decreases |hashes|
  {
    if hashes == [] then []
    else if hashes[0] !in cache || cache[hashes[0]].source in seen then OnePerSource(hashes[1..], cache, seen)
    else [hashes[0]] + OnePerSource(hashes[1..], cache, seen + {cache[hashes[0]].source})
  }

  function OpsIn(hashes: seq<Hash>, cache: Cache): nat
    requires forall h :: h in hashes ==> h in cache
  {
    if hashes == [] then 0 else |cache[hashes[0]].ops| + OpsIn(hashes[1..], cache)
  }

  /** First fit: what would pass the limit is skipped, and a full ballot ends the search. */
  function Pack(hashes: seq<Hash>, cache: Cache, ops: nat, limit: int): seq<Hash>
    requires forall h :: h in hashes ==> h in cache
    decreases |hashes|
  {
    if hashes == [] then []
    else
      var n := ops + |cache[hashes[0]].ops|;
      if n > limit then Pack(hashes[1..], cache, ops, limit)
      else if n == limit then [hashes[0]]
      else [hashes[0]] + Pack(hashes[1..], cache, n, limit)
  }

  /** The proposer's sum of the fees, in 64 bits. */
  function WrappedFees(acc: Amount, hashes: seq<Hash>, cache: Cache): Amount
    requires forall h :: h in hashes ==> h in cache
    decreases |hashes|
  {
    if hashes == [] then acc else WrappedFees((acc + cache[hashes[0]].fee) % TWO64, hashes[1..], cache)
  }

  /** The checker's sum of the fees. */
  function FoldFees(acc: Amount, hashes: seq<Hash>, cache: Cache): Result<Amount>
    decreases |hashes|
  {
    if hashes == [] then Ok(acc)
    else
      var _ :- Check(hashes[0] in cache, TransactionNotFound);
      var next :- MustAdd(acc, cache[hashes[0]].fee);
      FoldFees(next, hashes[1..], cache)
  }

  function FeesIn(hashes: seq<Hash>, cache: Cache): nat
    requires forall h :: h in hashes ==> h in cache
  {
    if hashes == [] then 0 else cache[hashes[0]].fee + FeesIn(hashes[1..], cache)
  }

  /* ---- the proposal ---- */

  function FirstOf(order: seq<Hash>, limit: nat): seq<Hash> { if limit < |order| then order[..limit] else order }

  function Candidates(conf: Conf, v: View, stored: set<Hash>): seq<Hash> {
    OnePerSource(NewOnes(FirstOf(v.order, conf.txsLimit), stored), v.pool, {})
  }

  ghost predicate AllIn(hashes: seq<Hash>, cache: Cache) { forall h :: h in hashes ==> h in cache }

  /** What the candidates are: new, pooled, of different sources, and no more than the limit. */
  lemma {:induction false} NewOnesAre(hashes: seq<Hash>, stored: set<Hash>)
    ensures forall h :: h in NewOnes(hashes, stored) <==> h in hashes && h !in stored
    ensures |NewOnes(hashes, stored)| <= |hashes|
  {
    if hashes != [] {
      NewOnesAre(hashes[1..], stored);
      assert hashes == [hashes[0]] + hashes[1..];
    }
  }

  ghost predicate DifferentSources(hashes: seq<Hash>, cache: Cache) {
    && AllIn(hashes, cache)
    && forall i, j :: 0 <= i < j < |hashes| ==> cache[hashes[i]].source != cache[hashes[j]].source
  }

  lemma {:induction false} OnePerSourceIs(hashes: seq<Hash>, cache: Cache, seen: set<Address>)
    ensures var r := OnePerSource(hashes, cache, seen);
            && |r| <= |hashes| && (forall h :: h in r ==> h in hashes) && DifferentSources(r, cache)
            && (forall h :: h in r ==> cache[h].source !in seen)
    decreases |hashes|
  {
    if hashes != [] {
      var skip := hashes[0] !in cache || cache[hashes[0]].source in seen;
      OnePerSourceIs(hashes[1..], cache, if skip then seen else seen + {cache[hashes[0]].source});
    }
  }

  lemma CandidatesAre(conf: Conf, v: View, stored: set<Hash>)
    ensures var c := Candidates(conf, v, stored);
            && |c| <= conf.txsLimit && DifferentSources(c, v.pool)
            && (forall h :: h in c ==> h in v.order && h !in stored)
  {
    var first := FirstOf(v.order, conf.txsLimit);
    NewOnesAre(first, stored);
    OnePerSourceIs(NewOnes(first, stored), v.pool, {});
    forall h | h in first ensures h in v.order {
    }
  }

  lemma {:induction false} PackIs(hashes: seq<Hash>, cache: Cache, ops: nat, limit: int)
    requires DifferentSources(hashes, cache)
    ensures var r := Pack(hashes, cache, ops, limit);
            && |r| <= |hashes| && (forall h :: h in r ==> h in hashes) && DifferentSources(r, cache)
            && (r != [] ==> ops + OpsIn(r, cache) <= limit)
    decreases |hashes|
  {
    if hashes != [] {
      var n := ops + |cache[hashes[0]].ops|;
      if n != limit {
        PackIs(hashes[1..], cache, if n > limit then ops else n, limit);
        forall h | h in hashes[1..] ensures cache[h].source != cache[hashes[0]].source {
          var i :| 0 <= i < |hashes[1..]| && hashes[1..][i] == h;
          assert hashes[i + 1] == h;
        }
      }
    }
  }

  /** First fit wastes nothing: whatever is left out would pass the limit, or is empty. */
  lemma {:induction false} PackIsMaximal(hashes: seq<Hash>, cache: Cache, ops: nat, limit: int, h: Hash)
    requires DifferentSources(hashes, cache) && h in hashes && h !in Pack(hashes, cache, ops, limit)
    ensures AllIn(Pack(hashes, cache, ops, limit), cache)
    ensures ops + OpsIn(Pack(hashes, cache, ops, limit), cache) + |cache[h].ops| > limit || cache[h].ops == []
    decreases |hashes|
  {
    var n := ops + |cache[hashes[0]].ops|;
    PackIs(hashes, cache, ops, limit);
    if n > limit {
      if h in hashes[1..] {
        PackIsMaximal(hashes[1..], cache, ops, limit, h);
      }
    } else if n < limit {
      assert h in hashes[1..];
      PackIsMaximal(hashes[1..], cache, n, limit, h);
    }
  }

  function FeeOp(conf: Conf, basis: Basis, txs: seq<Hash>, cache: Cache): Op
    requires forall h :: h in txs ==> h in cache
    requires |txs| < TWO64
  {
    CollectTxFee(conf.check.common, WrappedFees(0, txs, cache), |txs|, basis.height, basis.blockHash, basis.totalTxs)
  }

  function InflationOp(conf: Conf, basis: Basis): Op {
    Inflation(conf.check.common, conf.inflation, conf.initialBalance, conf.ratio,
              basis.height, basis.blockHash, basis.totalTxs)
  }

  /** The transactions of a new ballot. */
  function Picked(conf: Conf, v: View, stored: set<Hash>): (r: seq<Hash>)
    ensures AllIn(r, v.pool) && |r| <= conf.txsLimit
    ensures forall h :: h in r ==> h in v.order && h !in stored
  {
    CandidatesAre(conf, v, stored);
    PackIs(Candidates(conf, v, stored), v.pool, 0, conf.opsInBallotLimit);
    Pack(Candidates(conf, v, stored), v.pool, 0, conf.opsInBallotLimit)
  }

  /** The ballot of `proposeNewBallot`; `hash` is the hash of the proposer transaction's body. */
  function Propose(conf: Conf, basis: Basis, proposer: Address, hash: (Address, seq<Op>) -> Hash,
                   v: View, stored: set<Hash>): Result<Proposal>
    requires conf.txsLimit < TWO64
  {
    var txs := Picked(conf, v, stored);
    var ops := [FeeOp(conf, basis, txs, v.pool), InflationOp(conf, basis)];
    var _ :- Check(conf.initialBalance <= MAXIMUM_BALANCE, MaximumBalanceReached);
    Ok(Proposal(proposer, basis, txs, Tx(hash(proposer, ops), TRANSACTION_VERSION, proposer, 0, 0, ops)))
  }

  /* ---- the checks on a ballot ---- */

  /** `IsWellFormedWithBallot` */
  predicate PtxWellFormed(conf: Conf, b: Proposal) {
    && b.ptx.source == b.proposer
    && CollectTxFeeOf(b.ptx.ops).Ok?
    && |b.ptx.ops| <= conf.opsLimit
    && conf.check.parses(b.ptx.source)
    && b.ptx.fee == 0
    && |b.ptx.ops| == 2
    && ( || (b.ptx.ops[0].CollectTxFee? && b.ptx.ops[1].Inflation?)
         || (b.ptx.ops[0].Inflation? && b.ptx.ops[1].CollectTxFee?))
    && OperationsWellFormed(conf.check, b.ptx.source, b.ptx.ops)
    && var fee := CollectTxFeeOf(b.ptx.ops).value;
    && fee.txs == |b.txs| && fee.height == b.basis.height && fee.blockHash == b.basis.blockHash
    && fee.totalTxs == b.basis.totalTxs && (b.txs == [] ==> fee.amount == 0)
    && InflationOf(b.ptx.ops).Ok?
    && var inflation := InflationOf(b.ptx.ops).value;
    && inflation.height == b.basis.height && inflation.blockHash == b.basis.blockHash
    && inflation.totalTxs == b.basis.totalTxs
  }

  /** `BallotValidateOperationBodyCollectTxFee` and `BallotValidateOperationBodyInflation` at latest height `height`. */
  predicate AmountsExpected(conf: Conf, b: Proposal, height: nat) {
    && CollectTxFeeOf(b.ptx.ops).Ok? && InflationOf(b.ptx.ops).Ok?
    && CollectTxFeeOf(b.ptx.ops).value.target == conf.check.common
    && var inflation := InflationOf(b.ptx.ops).value;
    && inflation.target == conf.check.common && inflation.initialBalance == conf.initialBalance
    && inflation.ratio == conf.ratio
    && (height <= BLOCK_HEIGHT_END_OF_INFLATION ==> conf.initialBalance <= MAXIMUM_BALANCE)
    && inflation.amount == if height <= BLOCK_HEIGHT_END_OF_INFLATION then conf.inflation else 0
  }

  /** The loop of `BallotTransactionsOperationLimit` stops at the first prefix over the limit. */
  predicate OverLimit(hashes: seq<Hash>, cache: Cache, ops: nat, limit: int)
    requires forall h :: h in hashes ==> h in cache
    decreases |hashes|
  {
    hashes != [] &&
    (ops + |cache[hashes[0]].ops| > limit || OverLimit(hashes[1..], cache, ops + |cache[hashes[0]].ops|, limit))
  }

  predicate FeeMatches(amount: Amount, b: Proposal, cache: Cache)
    requires FoldFees(0, b.txs, cache).Ok?
  {
    amount == if b.txs == [] then 0 else FoldFees(0, b.txs, cache).value
  }

  /** The checks on the transactions of an INIT ballot: YES, NO, or a panic in the sum of the fees. */
  function InitCheck(conf: Conf, b: Proposal, cache: Cache, stored: set<Hash>): Result<bool> {
    FoundOnesAre(b.txs, cache);
    var found := FoundOnes(b.txs, cache);
    if exists h :: h in b.txs && h in stored then Ok(false)
    else if OverLimit(found, cache, 0, conf.opsInBallotLimit) then Ok(false)
    else if OnePerSource(found, cache, {}) != found then Ok(false)
    else if !CollectTxFeeOf(b.ptx.ops).Ok? then Ok(false)
    else if FoldFees(0, b.txs, cache).Err? then Ok(false)
    else
      var _ :- FoldFees(0, b.txs, cache);
      if !FeeMatches(CollectTxFeeOf(b.ptx.ops).value.amount, b, cache) then Ok(false)
      else Ok(|b.txs| == |set h | h in found|)
  }

  lemma {:induction false} FoundOnesAre(hashes: seq<Hash>, cache: Cache)
    ensures forall h :: h in FoundOnes(hashes, cache) <==> h in hashes && h in cache
    ensures AllIn(hashes, cache) ==> FoundOnes(hashes, cache) == hashes
  {
    if hashes != [] {
      FoundOnesAre(hashes[1..], cache);
      assert hashes == [hashes[0]] + hashes[1..];
    }
  }

  /* ---- what the checks amount to ---- */

  /** A ballot that deserves a YES. */
  ghost predicate Acceptable(conf: Conf, b: Proposal, cache: Cache, stored: set<Hash>) {
    && DifferentSources(b.txs, cache)
    && (forall h :: h in b.txs ==> h !in stored)
    && (b.txs == [] || OpsIn(b.txs, cache) <= conf.opsInBallotLimit)
    && CollectTxFeeOf(b.ptx.ops).Ok?
    && FoldFees(0, b.txs, cache) == Ok(CollectTxFeeOf(b.ptx.ops).value.amount)
  }

  lemma {:induction false} OverLimitIff(hashes: seq<Hash>, cache: Cache, ops: nat, limit: int)
    requires AllIn(hashes, cache)
    ensures OverLimit(hashes, cache, ops, limit) <==> hashes != [] && ops + OpsIn(hashes, cache) > limit
    decreases |hashes|
  {
    if hashes != [] {
      OverLimitIff(hashes[1..], cache, ops + |cache[hashes[0]].ops|, limit);
    }
  }

  lemma {:induction false} OnePerSourceIff(hashes: seq<Hash>, cache: Cache, seen: set<Address>)
    requires AllIn(hashes, cache)
    ensures OnePerSource(hashes, cache, seen) == hashes
            <==> DifferentSources(hashes, cache) && forall h :: h in hashes ==> cache[h].source !in seen
    decreases |hashes|
  {
    OnePerSourceIs(hashes, cache, seen);
    if hashes != [] && cache[hashes[0]].source !in seen {
      var more := seen + {cache[hashes[0]].source};
      OnePerSourceIff(hashes[1..], cache, more);
      if DifferentSources(hashes, cache) && forall h :: h in hashes ==> cache[h].source !in seen {
        forall h | h in hashes[1..] ensures cache[h].source !in more {
          var i :| 0 <= i < |hashes[1..]| && hashes[1..][i] == h;
          assert hashes[i + 1] == h;
        }
      }
    } else if hashes != [] {
      OnePerSourceIs(hashes[1..], cache, seen);
    }
  }

  lemma {:induction false} FoldNeedsAll(acc: Amount, hashes: seq<Hash>, cache: Cache)
    requires FoldFees(acc, hashes, cache).Ok?
    ensures AllIn(hashes, cache)
    decreases |hashes|
  {
    if hashes != [] {
      FoldNeedsAll(MustAdd(acc, cache[hashes[0]].fee).value, hashes[1..], cache);
      assert hashes == [hashes[0]] + hashes[1..];
    }
  }

  lemma {:induction false} DistinctCount(hashes: seq<Hash>)
    requires Distinct(hashes)
    ensures |set h | h in hashes| == |hashes|
    decreases |hashes|
  {
    if hashes != [] {
      DistinctCount(hashes[1..]);
      assert (set h | h in hashes) == (set h | h in hashes[1..]) + {hashes[0]};
    }
  }

  /** An INIT ballot gets a YES exactly when it deserves one. */
  lemma InitCheckIff(conf: Conf, b: Proposal, cache: Cache, stored: set<Hash>)
    ensures InitCheck(conf, b, cache, stored) == Ok(true) <==> Acceptable(conf, b, cache, stored)
  {
    FoundOnesAre(b.txs, cache);
    if FoldFees(0, b.txs, cache).Ok? {
      FoldNeedsAll(0, b.txs, cache);
      OverLimitIff(b.txs, cache, 0, conf.opsInBallotLimit);
      OnePerSourceIff(b.txs, cache, {});
      if DifferentSources(b.txs, cache) {
        DistinctCount(b.txs);
      }
    }
  }

  /* ---- the proposer satisfies the checkers ---- */

  /** The two sums agree whenever the checker's does not panic. */
  lemma {:induction false} FoldIsWrapped(acc: Amount, hashes: seq<Hash>, cache: Cache)
    requires AllIn(hashes, cache)
    ensures FoldFees(acc, hashes, cache) in {Ok(WrappedFees(acc, hashes, cache)), Panic}
    decreases |hashes|
  {
    if hashes != [] {
      var sum := MustAdd(acc, cache[hashes[0]].fee);
      if sum.Ok? {
        FoldIsWrapped(sum.value, hashes[1..], cache);
      }
    }
  }

  lemma {:induction false} SmallFeesFold(acc: Amount, hashes: seq<Hash>, cache: Cache)
    requires AllIn(hashes, cache) && acc + FeesIn(hashes, cache) <= MAXIMUM_BALANCE
    ensures FoldFees(acc, hashes, cache) == Ok(acc + FeesIn(hashes, cache))
    decreases |hashes|
  {
    if hashes != [] {
      SmallFeesFold(acc + cache[hashes[0]].fee, hashes[1..], cache);
    }
  }

  /** The fold only looks at the transactions of the ballot. */
  lemma {:induction false} FoldFrame(acc: Amount, hashes: seq<Hash>, cache: Cache, other: Cache)
    requires forall h :: h in hashes ==> h in cache && h in other && cache[h] == other[h]
    ensures FoldFees(acc, hashes, cache) == FoldFees(acc, hashes, other)
    ensures OpsIn(hashes, cache) == OpsIn(hashes, other)
    decreases |hashes|
  {
    if hashes != [] {
      var sum := MustAdd(acc, cache[hashes[0]].fee);
      FoldFrame(if sum.Ok? then sum.value else acc, hashes[1..], cache, other);
    }
  }

  lemma FoundInPair(fee: Op, inflation: Op)
    requires fee.CollectTxFee? && inflation.Inflation?
    ensures CollectTxFeeOf([fee, inflation]) == Ok(fee) && InflationOf([fee, inflation]) == Ok(inflation)
  {
    assert [fee, inflation][..1] == [fee];
    assert CollectTxFeeOf([fee]) == Ok(fee);
  }

  /**
   The ballot of any pool, at any node with the same stored transactions that can find those of the
   ballot: the verdict is YES, unless the checker's sum of the fees panics, and it does not while the
   fees stay under the ceiling.
   */
  lemma ProposalGetsYes(conf: Conf, basis: Basis, proposer: Address, hash: (Address, seq<Op>) -> Hash,
                        v: View, stored: set<Hash>, cache: Cache)
    requires conf.txsLimit < TWO64 && conf.initialBalance <= MAXIMUM_BALANCE
    requires forall h :: h in Picked(conf, v, stored) ==> h in cache && cache[h] == v.pool[h]
    ensures var b := Propose(conf, basis, proposer, hash, v, stored).value;
            && |b.txs| <= conf.txsLimit
            && InitCheck(conf, b, cache, stored)
               == (if FoldFees(0, b.txs, cache).Ok? then Ok(true) else Panic)
            && (FeesIn(b.txs, cache) <= MAXIMUM_BALANCE ==> InitCheck(conf, b, cache, stored) == Ok(true))
  {
    var b := Propose(conf, basis, proposer, hash, v, stored).value;
    var fee := FeeOp(conf, basis, b.txs, v.pool);
    CandidatesAre(conf, v, stored);
    PackIs(Candidates(conf, v, stored), v.pool, 0, conf.opsInBallotLimit);
    FoldFrame(0, b.txs, v.pool, cache);
    FoldIsWrapped(0, b.txs, v.pool);
    FoundInPair(fee, InflationOp(conf, basis));
    InitCheckIff(conf, b, cache, stored);
    if FeesIn(b.txs, cache) <= MAXIMUM_BALANCE {
      SmallFeesFold(0, b.txs, cache);
    }
    if FoldFees(0, b.txs, cache).Panic? {
      PanicReached(conf, b, cache, stored);
    }
  }

  /** Only the sum of the fees is left to fail. */
  lemma PanicReached(conf: Conf, b: Proposal, cache: Cache, stored: set<Hash>)
    requires DifferentSources(b.txs, cache) && (forall h :: h in b.txs ==> h !in stored)
    requires b.txs == [] || OpsIn(b.txs, cache) <= conf.opsInBallotLimit
    requires CollectTxFeeOf(b.ptx.ops).Ok? && FoldFees(0, b.txs, cache) == Panic
    ensures InitCheck(conf, b, cache, stored) == Panic
  {
    FoundOnesAre(b.txs, cache);
    OverLimitIff(b.txs, cache, 0, conf.opsInBallotLimit);
    OnePerSourceIff(b.txs, cache, {});
  }

  /** The proposer transaction is well-formed exactly when the configuration and the proposer allow one. */
  lemma ProposalIsWellFormedIff(conf: Conf, basis: Basis, proposer: Address, hash: (Address, seq<Op>) -> Hash,
                                v: View, stored: set<Hash>)
    requires conf.txsLimit < TWO64 && conf.initialBalance <= MAXIMUM_BALANCE
    ensures PtxWellFormed(conf, Propose(conf, basis, proposer, hash, v, stored).value)
            <==> && proposer != conf.check.common && conf.check.parses(proposer) && conf.check.parses(conf.check.common)
                 && conf.opsLimit >= 2 && basis.blockHash != ""
  {
    var b := Propose(conf, basis, proposer, hash, v, stored).value;
    FoundInPair(b.ptx.ops[0], b.ptx.ops[1]);
  }

  /**
   The amounts are the expected ones exactly up to the end of inflation: the proposer never stops asking
   for inflation, the checker does.
   */
  lemma ProposalIsExpectedIff(conf: Conf, basis: Basis, proposer: Address, hash: (Address, seq<Op>) -> Hash,
                              v: View, stored: set<Hash>, height: nat)
    requires conf.txsLimit < TWO64 && conf.initialBalance <= MAXIMUM_BALANCE
    ensures AmountsExpected(conf, Propose(conf, basis, proposer, hash, v, stored).value, height)
            <==> height <= BLOCK_HEIGHT_END_OF_INFLATION || conf.inflation == 0
  {
    var b := Propose(conf, basis, proposer, hash, v, stored).value;
    FoundInPair(b.ptx.ops[0], b.ptx.ops[1]);
  }

  /** One block past the end of inflation, with a supply that asks for one unit per block. */
  lemma LateProposalIsRefused(hash: (Address, seq<Op>) -> Hash)
    ensures var conf := Conf(Validation.Config("common", "congress", a => true), 10_000_000, 1, "0.1", 10, 10, 10);
            var b := Propose(conf, Basis(0, 36_000_001, "block", 0, 0), "proposer", hash, EMPTY, {}).value;
            && PtxWellFormed(conf, b) && InitCheck(conf, b, map[], {}) == Ok(true)
            && !AmountsExpected(conf, b, 36_000_001)
  {
    var conf := Conf(Validation.Config("common", "congress", a => true), 10_000_000, 1, "0.1", 10, 10, 10);
    var basis := Basis(0, 36_000_001, "block", 0, 0);
    ProposalIsWellFormedIff(conf, basis, "proposer", hash, EMPTY, {});
    ProposalIsExpectedIff(conf, basis, "proposer", hash, EMPTY, {}, 36_000_001);
    ProposalGetsYes(conf, basis, "proposer", hash, EMPTY, {}, map[]);
    assert Picked(conf, EMPTY, {}) == [];
  }

  /* ---- a ballot whose fees the checkers cannot add up ---- */

  function Costly(hash: Hash, source: Address): Tx {
    Tx(hash, TRANSACTION_VERSION, source, 9_000_000_000_000_000_000, 0, [UnfreezeRequest])
  }

  /** Two pooled transactions of different sources, with a fee of 9 * 10^18 each. */
  const COSTLY := View(map["x" := Costly("x", "A"), "y" := Costly("y", "B")], map["A" := "x", "B" := "y"], ["x", "y"])

  lemma CostlyArePicked(conf: Conf)
    requires conf.txsLimit == 10 && conf.opsInBallotLimit == 10
    ensures Picked(conf, COSTLY, {}) == ["x", "y"]
  {
    var hashes := ["x", "y"];
    assert hashes[1..] == ["y"] && ["y"][1..] == [];
    assert NewOnes(["y"], {}) == ["y"];
    assert NewOnes(hashes, {}) == hashes;
    assert OnePerSource(["y"], COSTLY.pool, {} + {"A"}) == ["y"];
    assert OnePerSource(hashes, COSTLY.pool, {}) == hashes;
    assert Pack(["y"], COSTLY.pool, 1, 10) == ["y"];
    assert Pack(hashes, COSTLY.pool, 0, 10) == hashes;
  }

  lemma CostlyFeesPanic()
    ensures FoldFees(0, ["x", "y"], COSTLY.pool) == Panic
  {
    var hashes := ["x", "y"];
    assert hashes[1..] == ["y"];
    assert FoldFees(Costly("x", "A").fee, ["y"], COSTLY.pool) == Panic;
  }

  /** Their proposer sends a ballot at which every checker panics. */
  lemma CostlyProposalPanics(conf: Conf, basis: Basis, proposer: Address, hash: (Address, seq<Op>) -> Hash)
    requires conf.txsLimit == 10 && conf.opsInBallotLimit == 10 && conf.initialBalance <= MAXIMUM_BALANCE
    ensures Consistent(COSTLY)
    ensures InitCheck(conf, Propose(conf, basis, proposer, hash, COSTLY, {}).value, COSTLY.pool, {}) == Panic
  {
    CostlyArePicked(conf);
    CostlyFeesPanic();
    ProposalGetsYes(conf, basis, proposer, hash, COSTLY, {}, COSTLY.pool);
    forall h ensures h in COSTLY.pool <==> h in COSTLY.order {
    }
  }

  /* ---- the filters and the packer, one hash at a time ---- */

  lemma {:induction false} NewOnesNext(hashes: seq<Hash>, h: Hash, stored: set<Hash>)
    ensures NewOnes(hashes + [h], stored) == NewOnes(hashes, stored) + (if h in stored then [] else [h])
    decreases |hashes|
  {
    if hashes == [] {
      assert hashes + [h] == [h] && [h][1..] == [];
    } else {
      assert (hashes + [h])[1..] == hashes[1..] + [h];
      NewOnesNext(hashes[1..], h, stored);
    }
  }

  lemma {:induction false} FoundOnesNext(hashes: seq<Hash>, h: Hash, cache: Cache)
    ensures FoundOnes(hashes + [h], cache) == FoundOnes(hashes, cache) + (if h in cache then [h] else [])
    decreases |hashes|
  {
    if hashes == [] {
      assert hashes + [h] == [h] && [h][1..] == [];
    } else {
      assert (hashes + [h])[1..] == hashes[1..] + [h];
      FoundOnesNext(hashes[1..], h, cache);
    }
  }

  /** A transaction joins if and only if it is found and its source is new. */
  lemma {:induction false} OnePerSourceNext(hashes: seq<Hash>, h: Hash, cache: Cache, seen: set<Address>)
    ensures var r := OnePerSource(hashes, cache, seen);
            && AllIn(r, cache)
            && OnePerSource(hashes + [h], cache, seen)
               == if && h in cache && cache[h].source !in seen
                     && (forall x :: x in r ==> cache[x].source != cache[h].source)
                  then r + [h] else r
    decreases |hashes|
  {
    OnePerSourceIs(hashes, cache, seen);
    if hashes == [] {
      assert hashes + [h] == [h] && [h][1..] == [];
    } else {
      assert (hashes + [h])[1..] == hashes[1..] + [h];
      var skip := hashes[0] !in cache || cache[hashes[0]].source in seen;
      OnePerSourceNext(hashes[1..], h, cache, if skip then seen else seen + {cache[hashes[0]].source});
    }
  }

  /** Every source that is found and not yet seen has its first transaction among the result. */
  lemma {:induction false} FirstOfEachSource(hashes: seq<Hash>, cache: Cache, seen: set<Address>, i: nat)
    requires i < |hashes| && hashes[i] in cache && cache[hashes[i]].source !in seen
    requires forall j :: 0 <= j < i && hashes[j] in cache ==> cache[hashes[j]].source != cache[hashes[i]].source
    ensures hashes[i] in OnePerSource(hashes, cache, seen)
    decreases |hashes|
  {
    if i > 0 {
      var skip := hashes[0] !in cache || cache[hashes[0]].source in seen;
      var more := if skip then seen else seen + {cache[hashes[0]].source};
      assert hashes[1..][i - 1] == hashes[i];
      FirstOfEachSource(hashes[1..], cache, more, i - 1);
    }
  }

  /** A transaction is packed if and only if the ballot is not full yet and it fits. */
  lemma {:induction false} PackNext(hashes: seq<Hash>, h: Hash, cache: Cache, ops: nat, limit: int)
    requires AllIn(hashes, cache) && h in cache
    ensures var r := Pack(hashes, cache, ops, limit);
            && AllIn(r, cache)
            && var total := ops + OpsIn(r, cache);
            && Pack(hashes + [h], cache, ops, limit)
               == if (r != [] && total == limit) || total + |cache[h].ops| > limit then r else r + [h]
    decreases |hashes|
  {
    if hashes == [] {
      assert hashes + [h] == [h] && [h][1..] == [];
    } else {
      assert (hashes + [h])[1..] == hashes[1..] + [h] && (hashes + [h])[0] == hashes[0];
      assert hashes[0] in hashes;
      var n := ops + |cache[hashes[0]].ops|;
      if n > limit {
        PackNext(hashes[1..], h, cache, ops, limit);
      } else if n == limit {
        assert OpsIn([hashes[0]], cache) == |cache[hashes[0]].ops| by {
          assert [hashes[0]][1..] == [];
        }
      } else {
        PackNext(hashes[1..], h, cache, n, limit);
        PackFirst(hashes, cache, ops, limit);
      }
    }
  }

  lemma PackFirst(hashes: seq<Hash>, cache: Cache, ops: nat, limit: int)
    requires AllIn(hashes, cache) && hashes != [] && ops + |cache[hashes[0]].ops| < limit
    requires AllIn(Pack(hashes[1..], cache, ops + |cache[hashes[0]].ops|, limit), cache)
    ensures var rest := Pack(hashes[1..], cache, ops + |cache[hashes[0]].ops|, limit);
            && Pack(hashes, cache, ops, limit) == [hashes[0]] + rest && AllIn(Pack(hashes, cache, ops, limit), cache)
            && OpsIn(Pack(hashes, cache, ops, limit), cache) == |cache[hashes[0]].ops| + OpsIn(rest, cache)
  {
    assert hashes[0] in hashes;
  }

  /* ---- the proposer transaction is determined ---- */

  /**
   Up to the end of inflation, a ballot that passes all checks holds exactly the proposer transaction that
   an honest proposer would have made of its transactions, up to the order of the two operations.
   */
  lemma PtxIsDetermined(conf: Conf, b: Proposal, cache: Cache, stored: set<Hash>, height: nat)
    requires PtxWellFormed(conf, b) && AmountsExpected(conf, b, height) && height <= BLOCK_HEIGHT_END_OF_INFLATION
    requires InitCheck(conf, b, cache, stored) == Ok(true) && |b.txs| < TWO64
    ensures AllIn(b.txs, cache)
    ensures var fee, inflation := FeeOp(conf, b.basis, b.txs, cache), InflationOp(conf, b.basis);
            b.ptx.ops == [fee, inflation] || b.ptx.ops == [inflation, fee]
    ensures b.ptx.source == b.proposer && b.ptx.fee == 0
  {
    InitCheckIff(conf, b, cache, stored);
    FoldIsWrapped(0, b.txs, cache);
    var ops := b.ptx.ops;
    assert ops == [] + [ops[0]] + [ops[1]];
    LastOneWins([], ops[0]);
    LastOneWins([] + [ops[0]], ops[1]);
  }

  /** A proposal is made if and only if the initial balance is within the ceiling. */
  lemma ProposeIff(conf: Conf, basis: Basis, proposer: Address, hash: (Address, seq<Op>) -> Hash, v: View,
                   stored: set<Hash>)
    requires conf.txsLimit < TWO64
    ensures Propose(conf, basis, proposer, hash, v, stored).Ok? <==> conf.initialBalance <= MAXIMUM_BALANCE
    ensures conf.initialBalance <= MAXIMUM_BALANCE ==>
              var b := Propose(conf, basis, proposer, hash, v, stored).value;
              && b.txs == Picked(conf, v, stored) && b.basis == basis && b.proposer == proposer
              && b.ptx.hash == hash(proposer, b.ptx.ops)
  {
  }
}
