/** From ballots that got YES to the blocks they become: collected fees, and the supply over whole chains. */
module BallotBlock {
  import opened Amounts
  import opened Operations
  import opened Accounts
  import opened FinishBallot
  import opened ClosedForm
  import opened Conservation
  import opened Validation
  import opened ValidBlock
  import opened Proposal
  import C = Chain
  import opened Frozen
  import opened Funding

  /** The transactions a node finds for the hashes of a ballot. */
  function Found(hashes: seq<Hash>, cache: Cache): seq<Tx>
    requires forall h :: h in hashes ==> h in cache
  {
    seq(|hashes|, i requires 0 <= i < |hashes| => cache[hashes[i]])
  }

  function Totals(): Tx -> nat { (tx: Tx) => Total(tx) }

  lemma {:induction false} FeesWithinTotals(txs: seq<Tx>)
    ensures SumBy(txs, Fees()) <= SumBy(txs, Totals())
    decreases |txs|
  {
    if txs != [] {
      FeesWithinTotals(txs[1..]);
    }
  }

  /** Covered totals of different sources sum to at most the balances of those sources. */
  lemma {:induction false} TotalsWithinBalances(book: Book, txs: seq<Tx>, keys: set<Address>)
    requires keys <= book.Keys
    requires forall tx :: tx in txs ==> tx.source in keys && Total(tx) <= book[tx.source].balance
    requires forall i, j :: 0 <= i < j < |txs| ==> txs[i].source != txs[j].source
    ensures SumBy(txs, Totals()) <= SumOver(book, keys)
    decreases |txs|
  {
    if txs != [] {
      var source := txs[0].source;
      SumPick(book, keys, source);
      forall tx | tx in txs[1..] ensures tx.source in keys - {source} {
        var i :| 0 <= i < |txs[1..]| && txs[1..][i] == tx;
        assert txs[i + 1] == tx;
      }
      TotalsWithinBalances(book, txs[1..], keys - {source});
    }
  }

  /** The fees of a passed block never pass the supply. */
  lemma FeesWithinSupply(book: Book, txs: seq<Tx>)
    requires Passing(book, txs) && TotalsFit(txs)
    requires forall i, j :: 0 <= i < j < |txs| ==> txs[i].source != txs[j].source
    ensures SumBy(txs, Fees()) <= Sum(book) <= MAXIMUM_BALANCE
  {
    forall tx | tx in txs ensures tx.source in book.Keys && Total(tx) <= book[tx.source].balance {
      assert Covered(book, tx);
    }
    TotalsWithinBalances(book, txs, book.Keys);
    FeesWithinTotals(txs);
  }

  lemma {:induction false} FeesOfFound(hashes: seq<Hash>, cache: Cache)
    requires AllIn(hashes, cache)
    ensures FeesIn(hashes, cache) == SumBy(Found(hashes, cache), Fees())
    decreases |hashes|
  {
    if hashes != [] {
      FeesOfFound(hashes[1..], cache);
      assert Found(hashes, cache)[1..] == Found(hashes[1..], cache);
    }
  }

  /** A ballot of passed transactions that got YES collects exactly the integer sum of their fees. */
  lemma YesCollectsFees(book: Book, conf: Conf, b: Proposal, cache: Cache, stored: set<Hash>)
    requires InitCheck(conf, b, cache, stored) == Ok(true) && AllIn(b.txs, cache)
    requires Passing(book, Found(b.txs, cache)) && TotalsFit(Found(b.txs, cache))
    ensures C.CollectTxFeeOf(b.ptx.ops).Ok?
    ensures C.CollectTxFeeOf(b.ptx.ops).value.amount == SumBy(Found(b.txs, cache), Fees())
  {
    InitCheckIff(conf, b, cache, stored);
    FeesWithinSupply(book, Found(b.txs, cache));
    FeesOfFound(b.txs, cache);
    SmallFeesFold(0, b.txs, cache);
  }

  /**
   A ballot of passed transactions that got YES and whose amounts are the expected ones becomes a block
   that neither errs nor wraps and adds exactly its inflation and public funding to the supply.
   */
  lemma YesBlockConserves(book: Book, conf: Conf, b: Proposal, cache: Cache, stored: set<Hash>, height: nat)
    requires InitCheck(conf, b, cache, stored) == Ok(true) && AllIn(b.txs, cache)
    requires AmountsExpected(conf, b, height) && conf.check.common in book
    requires Passing(book, Found(b.txs, cache)) && TotalsFit(Found(b.txs, cache))
    requires NoAccountCreatedTwice(Found(b.txs, cache))
    requires Sum(book) + SumBy(Found(b.txs, cache), Minted()) + C.InflationOf(b.ptx.ops).value.amount <= MAXIMUM_BALANCE
    ensures var txs := Found(b.txs, cache);
            var fee, inflation := C.CollectTxFeeOf(b.ptx.ops).value, C.InflationOf(b.ptx.ops).value;
            && FinishBlock(book, txs, fee, inflation).Ok?
            && Sum(FinishBlock(book, txs, fee, inflation).value)
               == Sum(book) + inflation.amount + SumBy(txs, Minted())
  {
    YesCollectsFees(book, conf, b, cache, stored);
    PassingIsReady(book, Found(b.txs, cache));
    SupplyKeepsBlockExact(book, Found(b.txs, cache), C.CollectTxFeeOf(b.ptx.ops).value,
                          C.InflationOf(b.ptx.ops).value);
  }

  /* ---- the block in the chain ---- */

  lemma {:induction false} ApplyAllBook(s: C.State, height: nat, txs: seq<Tx>)
    requires C.ApplyAll(s, height, txs).Ok?
    ensures FinishTxs(s.book, txs) == Ok(C.ApplyAll(s, height, txs).value.book)
    decreases |txs|
  {
    if txs != [] {
      ApplyAllBook(C.Apply(s, height, txs[0]).value, height, txs[1..]);
    }
  }

  /** Storing a ballot does to the accounts what its block does. */
  lemma FinishBook(hash: C.Block -> Hash, s: C.State, b: C.Ballot)
    requires C.Finish(hash, s, b).Ok?
    ensures C.CollectTxFeeOf(b.ptx.ops).Ok? && C.InflationOf(b.ptx.ops).Ok?
    ensures FinishBlock(s.book, b.txs, C.CollectTxFeeOf(b.ptx.ops).value, C.InflationOf(b.ptx.ops).value)
            == Ok(C.Finish(hash, s, b).value.book)
  {
    C.FinishSteps(hash, s, b);
    ApplyAllBook(s.(blocks := s.blocks + [C.NewBlock(b)]), b.basis.height + 1, b.txs);
  }

  /** The ballot as the voters saw it. */
  function ProposalOf(b: C.Ballot): Proposal { Proposal(b.proposer, b.basis, C.Hashes(b.txs), b.ptx) }

  /** Some voter that found the transactions of the ballot gave it a YES, its amounts being the expected ones. */
  ghost predicate GotYes(conf: Conf, b: C.Ballot) {
    exists cache: Cache, stored, height ::
      && InitCheck(conf, ProposalOf(b), cache, stored) == Ok(true) && AmountsExpected(conf, ProposalOf(b), height)
      && (forall i :: 0 <= i < |b.txs| ==> b.txs[i].hash in cache && cache[b.txs[i].hash] == b.txs[i])
  }

  /** A transaction that is well-formed and passes on a state. */
  ghost predicate PassedOn(s: C.State, cfg: Validation.Config, tx: Tx) {
    exists view :: C.IsView(s, view) && Passed(view, cfg, tx)
  }

  /** What the nodes check of a ballot, and totals that the 64-bit sums can hold. */
  ghost predicate Sound(conf: Conf, s: C.State, b: C.Ballot) {
    (forall tx :: tx in b.txs ==> PassedOn(s, conf.check, tx)) && TotalsFit(b.txs) && GotYes(conf, b)
  }

  /** What the block of a ballot mints. */
  function MintedBy(b: C.Ballot): nat {
    SumBy(b.txs, Minted()) + (if C.InflationOf(b.ptx.ops).Ok? then C.InflationOf(b.ptx.ops).value.amount else 0)
  }

  lemma SoundIsPassing(conf: Conf, s: C.State, b: C.Ballot)
    requires Sound(conf, s, b) && C.DistinctSources(b.txs)
    requires Sum(s.book) + SumBy(b.txs, Minted()) <= MAXIMUM_BALANCE
    ensures Passing(s.book, b.txs)
  {
    forall tx | tx in b.txs
      ensures Covered(s.book, tx) && forall op :: op in tx.ops && op.CreateAccount? ==> op.target !in s.book
    {
      var view :| C.IsView(s, view) && Passed(view, conf.check, tx);
      PassedIsCovered(view, conf.check, tx);
    }
    forall a ensures SumBy(b.txs, SentBy(a)) <= 1 {
      SentOnce(b.txs, a);
    }
    forall a | a in s.book ensures SumBy(b.txs, CreationsOf(a)) == 0 {
      if Creates(b.txs, a) {
        var tx, op := CreatesWitness(b.txs, a);
        assert false;
      }
    }
  }

  lemma FoundIsBallot(b: C.Ballot, cache: Cache)
    requires forall i :: 0 <= i < |b.txs| ==> b.txs[i].hash in cache && cache[b.txs[i].hash] == b.txs[i]
    ensures AllIn(C.Hashes(b.txs), cache) && Found(C.Hashes(b.txs), cache) == b.txs
  {
  }

  lemma YesMeansDistinct(conf: Conf, b: C.Ballot, cache: Cache, stored: set<Hash>)
    requires InitCheck(conf, ProposalOf(b), cache, stored) == Ok(true)
    requires forall i :: 0 <= i < |b.txs| ==> b.txs[i].hash in cache && cache[b.txs[i].hash] == b.txs[i]
    ensures C.DistinctSources(b.txs)
  {
    InitCheckIff(conf, ProposalOf(b), cache, stored);
    var hashes := C.Hashes(b.txs);
    forall i, j | 0 <= i < j < |b.txs| ensures b.txs[i].source != b.txs[j].source {
      assert cache[hashes[i]].source != cache[hashes[j]].source;
    }
  }

  /** A stored ballot adds exactly what it mints. */
  lemma SoundFinishConserves(hash: C.Block -> Hash, conf: Conf, s: C.State, b: C.Ballot)
    requires C.Finish(hash, s, b).Ok? && Sound(conf, s, b) && conf.check.common in s.book
    requires Sum(s.book) + MintedBy(b) <= MAXIMUM_BALANCE
    ensures Sum(C.Finish(hash, s, b).value.book) == Sum(s.book) + MintedBy(b)
  {
    var cache: Cache, stored, height :|
      && InitCheck(conf, ProposalOf(b), cache, stored) == Ok(true) && AmountsExpected(conf, ProposalOf(b), height)
      && (forall i :: 0 <= i < |b.txs| ==> b.txs[i].hash in cache && cache[b.txs[i].hash] == b.txs[i]);
    YesMeansDistinct(conf, b, cache, stored);
    SoundIsPassing(conf, s, b);
    FoundIsBallot(b, cache);
    FinishBook(hash, s, b);
    forall a ensures SumBy(b.txs, CreationsOf(a)) <= 1 {
      AppliedCreatesOnce(s.book, b.txs, a);
    }
    YesBlockConserves(s.book, conf, ProposalOf(b), cache, stored, height);
  }

  /* ---- whole runs ---- */

  /** Every ballot that is stored was sound on the state it is stored on. */
  ghost predicate SoundRun(hash: C.Block -> Hash, conf: Conf, s: C.State, ballots: seq<C.Ballot>)
    decreases |ballots|
  {
    ballots == [] ||
    (&& (C.Finish(hash, s, ballots[0]).Ok? ==> Sound(conf, s, ballots[0]))
     && SoundRun(hash, conf, C.Step(hash, s, ballots[0]), ballots[1..]))
  }

  /** What the stored ballots of a run mint together. */
  function MintedInRun(hash: C.Block -> Hash, s: C.State, ballots: seq<C.Ballot>): nat
    decreases |ballots|
  {
    if ballots == [] then 0
    else
      (if C.Finish(hash, s, ballots[0]).Ok? then MintedBy(ballots[0]) else 0)
      + MintedInRun(hash, C.Step(hash, s, ballots[0]), ballots[1..])
  }

  /**
   Conservation over whole chains: from any state, over any run of sound or refused ballots that mints no
   more than the ceiling allows, the sum of all balances is the old sum plus what was minted.
   */
  lemma {:induction false} SupplyOverRun(hash: C.Block -> Hash, conf: Conf, s: C.State, ballots: seq<C.Ballot>)
    requires SoundRun(hash, conf, s, ballots) && conf.check.common in s.book
    requires Sum(s.book) + MintedInRun(hash, s, ballots) <= MAXIMUM_BALANCE
    ensures Sum(C.Run(hash, s, ballots).book) == Sum(s.book) + MintedInRun(hash, s, ballots)
    decreases |ballots|
  {
    if ballots != [] {
      if C.Finish(hash, s, ballots[0]).Ok? {
        SoundFinishConserves(hash, conf, s, ballots[0]);
        FinishExtends(hash, s, ballots[0]);
      }
      SupplyOverRun(hash, conf, C.Step(hash, s, ballots[0]), ballots[1..]);
    }
  }

  /* ---- what was minted ---- */

  /** All public funding of a sound ballot is backed by stored votes. */
  lemma SoundFundingIsBacked(conf: Conf, s: C.State, b: C.Ballot)
    requires Sound(conf, s, b)
    ensures SumBy(b.txs, Minted()) == SumBy(b.txs, BackedBy(s.records))
  {
    forall tx, op | tx in b.txs && op in tx.ops && op.InflationPF? ensures Backed(s.records, op) {
      var view :| C.IsView(s, view) && Passed(view, conf.check, tx);
      PassedFundingIsBacked(s, view, conf.check, tx, op);
    }
    AllTxsBacked(s.records, b.txs);
  }

  /** The inflation of the stored ballots of a run, and the funding in them that stored votes back. */
  ghost function GrantedInRun(hash: C.Block -> Hash, s: C.State, ballots: seq<C.Ballot>): (nat, nat)
    decreases |ballots|
  {
    if ballots == [] then (0, 0)
    else
      var b := ballots[0];
      var rest := GrantedInRun(hash, C.Step(hash, s, b), ballots[1..]);
      if C.Finish(hash, s, b).Ok? then
        ((if C.InflationOf(b.ptx.ops).Ok? then C.InflationOf(b.ptx.ops).value.amount else 0) + rest.0,
         SumBy(b.txs, BackedBy(s.records)) + rest.1)
      else rest
  }

  lemma {:induction false} MintedIsGranted(hash: C.Block -> Hash, conf: Conf, s: C.State, ballots: seq<C.Ballot>)
    requires SoundRun(hash, conf, s, ballots)
    ensures MintedInRun(hash, s, ballots) == GrantedInRun(hash, s, ballots).0 + GrantedInRun(hash, s, ballots).1
    decreases |ballots|
  {
    if ballots != [] {
      if C.Finish(hash, s, ballots[0]).Ok? {
        SoundFundingIsBacked(conf, s, ballots[0]);
      }
      MintedIsGranted(hash, conf, C.Step(hash, s, ballots[0]), ballots[1..]);
    }
  }

  /** Over whole chains the supply grows by nothing but inflation and funding that stored votes back. */
  lemma SupplyIsGranted(hash: C.Block -> Hash, conf: Conf, s: C.State, ballots: seq<C.Ballot>)
    requires SoundRun(hash, conf, s, ballots) && conf.check.common in s.book
    requires Sum(s.book) + MintedInRun(hash, s, ballots) <= MAXIMUM_BALANCE
    ensures var (inflation, funding) := GrantedInRun(hash, s, ballots);
            Sum(C.Run(hash, s, ballots).book) == Sum(s.book) + inflation + funding
  {
    SupplyOverRun(hash, conf, s, ballots);
    MintedIsGranted(hash, conf, s, ballots);
  }
}
