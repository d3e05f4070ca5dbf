/** The filter chain over the transactions of a ballot, and the proposer's loop, as the program runs them. */
module BallotTransactions {
  import opened Amounts
  import opened Operations
  import opened Validation
  import opened Pool
  import opened Chain
  import opened Proposal

  class BallotTransactionChecker {
    const conf: Conf
    const cache: Cache
    const stored: set<Hash>
    const transactions: seq<Hash>
    /** Drop what fails instead of giving up. */
    const checkTransactionsOnly: bool
    var validTransactions: seq<Hash>
    var validTransactionsMap: set<Hash>

    constructor (conf: Conf, cache: Cache, stored: set<Hash>, transactions: seq<Hash>, only: bool)
      ensures this.conf == conf && this.cache == cache && this.stored == stored
      ensures this.transactions == transactions && checkTransactionsOnly == only
    {
      this.conf, this.cache, this.stored := conf, cache, stored;
      this.transactions, checkTransactionsOnly := transactions, only;
      validTransactions, validTransactionsMap := [], {};
    }

    method SetValidTransactions(hashes: seq<Hash>)
      modifies this
      ensures validTransactions == hashes && validTransactionsMap == set h | h in hashes
    {
      validTransactions, validTransactionsMap := hashes, {};
      for i := 0 to |hashes|
        invariant validTransactions == hashes && validTransactionsMap == set h | h in hashes[..i]
      {
        validTransactionsMap := validTransactionsMap + {hashes[i]};
        assert hashes[..i + 1] == hashes[..i] + [hashes[i]];
      }
      assert hashes[..|hashes|] == hashes;
    }

    method IsNew() returns (r: Result<()>)
      modifies this
      ensures r.Ok? <==> checkTransactionsOnly || forall h :: h in transactions ==> h !in stored
      ensures !r.Panic?
      ensures r.Ok? ==> validTransactions == NewOnes(transactions, stored)
      ensures r.Ok? ==> validTransactionsMap == set h | h in validTransactions
    {
      var valid := [];
      for i := 0 to |transactions|
        invariant NewOnes(transactions, stored) == valid + NewOnes(transactions[i..], stored)
        invariant checkTransactionsOnly || forall h :: h in transactions[..i] ==> h !in stored
      {
        assert transactions[i..][0] == transactions[i] && transactions[i..][1..] == transactions[i + 1..];
        ghost var rest := NewOnes(transactions[i + 1..], stored);
        if transactions[i] in stored {
          if !checkTransactionsOnly {
            return Err(NewButKnownMessage);
          }
          assert NewOnes(transactions[i..], stored) == [] + rest == rest;
        } else {
          assert NewOnes(transactions[i..], stored) == [transactions[i]] + rest;
          assert valid + ([transactions[i]] + rest) == (valid + [transactions[i]]) + rest;
          valid := valid + [transactions[i]];
        }
        assert transactions[..i + 1] == transactions[..i] + [transactions[i]];
      }
      assert transactions[..|transactions|] == transactions;
      SetValidTransactions(valid);
      r := Ok(());
    }

    method CheckMissingTransaction()
      modifies this
      ensures validTransactions == FoundOnes(old(validTransactions), cache)
      ensures validTransactionsMap == set h | h in validTransactions
    {
      var all := validTransactions;
      var valid := [];
      for i := 0 to |all|
        invariant validTransactions == all && FoundOnes(all, cache) == valid + FoundOnes(all[i..], cache)
      {
        assert all[i..][0] == all[i] && all[i..][1..] == all[i + 1..];
        ghost var rest := FoundOnes(all[i + 1..], cache);
        if all[i] in cache {
          assert FoundOnes(all[i..], cache) == [all[i]] + rest;
          assert valid + ([all[i]] + rest) == (valid + [all[i]]) + rest;
          valid := valid + [all[i]];
        } else {
          assert FoundOnes(all[i..], cache) == [] + rest == rest;
        }
      }
      SetValidTransactions(valid);
    }

    method OperationLimit() returns (r: Result<()>)
      requires AllIn(validTransactions, cache)
      ensures r.Ok? <==> !OverLimit(validTransactions, cache, 0, conf.opsInBallotLimit)
      ensures !r.Panic?
    {
      var ops: nat := 0;
      for i := 0 to |validTransactions|
        invariant OverLimit(validTransactions, cache, 0, conf.opsInBallotLimit)
                  <==> OverLimit(validTransactions[i..], cache, ops, conf.opsInBallotLimit)
      {
        assert validTransactions[i..][1..] == validTransactions[i + 1..];
        assert validTransactions[i] in validTransactions;
        ops := ops + |cache[validTransactions[i]].ops|;
        if ops > conf.opsInBallotLimit {
          return Err(BallotHasOverMaxOperationsInBallot);
        }
      }
      r := Ok(());
    }

    method SameSource() returns (r: Result<()>)
      requires AllIn(validTransactions, cache)
      modifies this
      ensures checkTransactionsOnly ==> r.Ok?
      ensures !r.Panic?
      ensures !checkTransactionsOnly ==>
                (r.Ok? <==> OnePerSource(old(validTransactions), cache, {}) == old(validTransactions))
      ensures r.Ok? ==> validTransactions == OnePerSource(old(validTransactions), cache, {})
      ensures r.Ok? ==> validTransactionsMap == set h | h in validTransactions
    {
      var all := validTransactions;
      var valid := [];
      var sources := {};
      for i := 0 to |all|
        invariant OnePerSource(all, cache, {}) == valid + OnePerSource(all[i..], cache, sources)
        invariant !checkTransactionsOnly ==> valid == all[..i]
      {
        assert all[i..][1..] == all[i + 1..];
        if cache[all[i]].source in sources {
          if !checkTransactionsOnly {
            OnePerSourceIs(all[i + 1..], cache, sources);
            return Err(TransactionSameSourceInBallot);
          }
        } else {
          sources := sources + {cache[all[i]].source};
          ghost var rest := OnePerSource(all[i + 1..], cache, sources);
          assert valid + ([all[i]] + rest) == (valid + [all[i]]) + rest;
          valid := valid + [all[i]];
        }
      }
      SetValidTransactions(valid);
      r := Ok(());
    }

    method CollectTxFee(b: Proposal) returns (r: Result<()>)
      requires transactions == b.txs
      ensures r.Ok? <==> && CollectTxFeeOf(b.ptx.ops).Ok? && FoldFees(0, b.txs, cache).Ok?
                         && FeeMatches(CollectTxFeeOf(b.ptx.ops).value.amount, b, cache)
      ensures r.Panic? <==> CollectTxFeeOf(b.ptx.ops).Ok? && FoldFees(0, b.txs, cache).Panic?
    {
      var opb := CollectTxFeeOf(b.ptx.ops);
      NeverPanics(b.ptx.ops);
      if !opb.Ok? {
        return opb.PropagateFailure();
      }
      if |b.txs| < 1 {
        return Check(opb.value.amount == 0, InvalidOperation);
      }
      var fee: Amount := 0;
      for i := 0 to |transactions|
        invariant FoldFees(0, transactions, cache) == FoldFees(fee, transactions[i..], cache)
      {
        assert transactions[i..][1..] == transactions[i + 1..];
        if transactions[i] !in cache {
          return Err(TransactionNotFound);
        }
        var sum := MustAdd(fee, cache[transactions[i]].fee);
        if !sum.Ok? {
          return Panic;
        }
        fee := sum.value;
      }
      r := Check(opb.value.amount == fee, InvalidFee);
    }

    /** The chain of checks on an INIT ballot, in order. */
    method RunInitChecks(b: Proposal) returns (r: Result<bool>)
      requires transactions == b.txs && !checkTransactionsOnly
      modifies this
      ensures r == InitCheck(conf, b, cache, stored)
    {
      var step := IsNew();
      if step.Err? {
        return Ok(false);
      }
      NothingStored(transactions, stored);
      CheckMissingTransaction();
      FoundOnesAre(transactions, cache);
      step := OperationLimit();
      if step.Err? {
        return Ok(false);
      }
      step := SameSource();
      if step.Err? {
        return Ok(false);
      }
      step := CollectTxFee(b);
      if step.Panic? {
        return Panic;
      }
      if step.Err? {
        return Ok(false);
      }
      r := Ok(|transactions| == |validTransactionsMap|);
    }
  }

  lemma {:induction false} NeverPanics(ops: seq<Op>)
    ensures !CollectTxFeeOf(ops).Panic?
    decreases |ops|
  {
    if ops != [] {
      NeverPanics(ops[..|ops| - 1]);
    }
  }

  lemma {:induction false} NothingStored(hashes: seq<Hash>, stored: set<Hash>)
    requires forall h :: h in hashes ==> h !in stored
    ensures NewOnes(hashes, stored) == hashes
  {
    if hashes != [] {
      NothingStored(hashes[1..], stored);
    }
  }

  /** The hashes of `available` that are not among `valid`. */
  function Invalid(available: seq<Hash>, valid: seq<Hash>): seq<Hash> {
    if available == [] then []
    else (if available[0] in valid then [] else [available[0]]) + Invalid(available[1..], valid)
  }

  method InvalidTransactions(available: seq<Hash>, valid: seq<Hash>) returns (r: seq<Hash>)
    ensures r == Invalid(available, valid)
  {
    r := [];
    for i := 0 to |available|
      invariant Invalid(available, valid) == r + Invalid(available[i..], valid)
    {
      assert available[i..][0] == available[i] && available[i..][1..] == available[i + 1..];
      ghost var rest := Invalid(available[i + 1..], valid);
      if available[i] !in valid {
        assert Invalid(available[i..], valid) == [available[i]] + rest;
        assert r + ([available[i]] + rest) == (r + [available[i]]) + rest;
        r := r + [available[i]];
      } else {
        assert Invalid(available[i..], valid) == [] + rest == rest;
      }
    }
  }

  /** The packing loop. */
  method PackTransactions(hashes: seq<Hash>, cache: Cache, limit: int) returns (r: seq<Hash>)
    requires AllIn(hashes, cache)
    ensures r == Pack(hashes, cache, 0, limit)
  {
    r := [];
    var ops: nat := 0;
    for i := 0 to |hashes|
      invariant Pack(hashes, cache, 0, limit) == r + Pack(hashes[i..], cache, ops, limit)
    {
      assert hashes[i..][1..] == hashes[i + 1..];
      assert hashes[i] in hashes;
      var n := |cache[hashes[i]].ops|;
      if ops + n <= limit {
        ghost var rest := Pack(hashes[i + 1..], cache, ops + n, limit);
        assert r + ([hashes[i]] + rest) == (r + [hashes[i]]) + rest;
        r := r + [hashes[i]];
        ops := ops + n;
        if ops == limit {
          break;
        }
      }
    }
  }

  method SumFees(hashes: seq<Hash>, cache: Cache) returns (fee: Amount)
    requires AllIn(hashes, cache)
    ensures fee == WrappedFees(0, hashes, cache)
  {
    fee := 0;
    for i := 0 to |hashes|
      invariant WrappedFees(0, hashes, cache) == WrappedFees(fee, hashes[i..], cache)
    {
      assert hashes[i..][1..] == hashes[i + 1..];
      assert hashes[i] in hashes;
      fee := (fee + cache[hashes[i]].fee) % TWO64;
    }
  }

  /** Builds the ballot and drops from the pool what can never be proposed with the candidates. */
  method ProposeNewBallot(conf: Conf, basis: Basis, proposer: Address, hash: (Address, seq<Op>) -> Hash,
                          pool: TransactionPool, stored: set<Hash>) returns (r: Result<Proposal>)
    requires pool.Valid() && conf.txsLimit < TWO64
    modifies pool
    ensures r == Propose(conf, basis, proposer, hash, old(pool.Abs()), stored)
    ensures pool.Valid() && pool.Abs() == RemoveAll(old(pool.Abs()),
              Invalid(FirstOf(old(pool.Abs()).order, conf.txsLimit), Candidates(conf, old(pool.Abs()), stored)))
  {
    ghost var v := pool.Abs();
    var cache := pool.pool;
    var available := pool.AvailableTransactions(conf.txsLimit);
    var checker := new BallotTransactionChecker(conf, cache, stored, available, true);
    var step := checker.IsNew();
    NewOnesAre(available, stored);
    step := checker.SameSource();
    CandidatesAre(conf, v, stored);
    assert checker.validTransactions == Candidates(conf, v, stored);
    var invalid := InvalidTransactions(available, checker.validTransactions);
    pool.RemoveTransactions(invalid);
    var txs := PackTransactions(checker.validTransactions, cache, conf.opsInBallotLimit);
    PackIs(Candidates(conf, v, stored), cache, 0, conf.opsInBallotLimit);
    var fee := SumFees(txs, cache);
    var ops := [CollectTxFee(conf.check.common, fee, |txs|, basis.height, basis.blockHash, basis.totalTxs),
                InflationOp(conf, basis)];
    if conf.initialBalance > MAXIMUM_BALANCE {
      return Err(MaximumBalanceReached);
    }
    r := Ok(Proposal(proposer, basis, txs, Tx(hash(proposer, ops), TRANSACTION_VERSION, proposer, 0, 0, ops)));
  }

  /** What a new ballot takes out of the pool: the oldest transactions that are no candidates. */
  lemma {:induction false} InvalidIs(available: seq<Hash>, valid: seq<Hash>)
    ensures forall h :: h in Invalid(available, valid) <==> h in available && h !in valid
    decreases |available|
  {
    if available != [] {
      InvalidIs(available[1..], valid);
      assert available == [available[0]] + available[1..];
    }
  }
}
