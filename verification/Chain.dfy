/** Storing a finished ballot as the next block, and what every run of finished ballots keeps. */
module Chain {
  import opened Amounts
  import opened Operations
  import opened Accounts
  import opened FinishBallot
  import opened Validation

  datatype Basis = Basis(round: nat, height: nat, blockHash: Hash, totalTxs: nat, totalOps: nat)

  datatype Block = Block(height: nat, prev: Hash, time: nat, round: nat, proposer: Address,
                         txs: seq<Hash>, ptx: Hash, totalTxs: nat, totalOps: nat)

  /** What is stored of a ballot that the nodes agreed on. `time` orders the proposed times. */
  datatype Ballot = Ballot(basis: Basis, proposer: Address, txs: seq<Tx>, ptx: Tx, time: nat)

  /** A stored transaction: one of the proposed ones, or one that no account pays for. */
  datatype Record = Paid(tx: Tx, height: nat) | Unpaid(tx: Tx, height: nat)

  type Index = map<Address, seq<OpRecord>>

  /** The blocks in the order they were saved, the stored transactions, the accounts and the operations by source. */
  datatype State = State(blocks: seq<Block>, records: seq<Record>, book: Book, ops: Index)

  function OpsOf(ops: Index, a: Address): seq<OpRecord> { if a in ops then ops[a] else [] }

  function Records(ops: seq<Op>, height: nat): seq<OpRecord> {
    seq(|ops|, i requires 0 <= i < |ops| => OpRecord(ops[i], height))
  }

  /** The operations of a transaction join those of its source. */
  function Indexed(ops: Index, tx: Tx, height: nat): Index {
    ops[tx.source := OpsOf(ops, tx.source) + Records(tx.ops, height)]
  }

  predicate Stored(records: seq<Record>, h: Hash) {
    exists i :: 0 <= i < |records| && records[i].tx.hash == h
  }

  /* ---- the latest block ---- */

  /** The order of the keys of blocks: proposed time, then height. */
  predicate KeyBelow(a: Block, b: Block) { a.time < b.time || (a.time == b.time && a.height < b.height) }

  /** `GetLatestBlock`: the last key of the index by proposed time. */
  function Latest(blocks: seq<Block>): (b: Block)
    requires blocks != []
    ensures b in blocks
    ensures forall c :: c in blocks ==> !KeyBelow(b, c)
  {
    if |blocks| == 1 then blocks[0]
    else
      var l := Latest(blocks[..|blocks| - 1]);
      var top := blocks[|blocks| - 1];
      assert blocks == blocks[..|blocks| - 1] + [top];
      if KeyBelow(l, top) then top else l
  }

  function Top(blocks: seq<Block>): Block
    requires blocks != []
  {
    blocks[|blocks| - 1]
  }

  /* ---- applying a block ---- */

  function Apply(s: State, height: nat, tx: Tx): Result<State> {
    var _ :- TotalAmount(tx);
    var _ :- Check(!Stored(s.records, tx.hash), BlockAlreadyExists);
    var book :- FinishTx(s.book, tx);
    Ok(s.(records := s.records + [Paid(tx, height)], book := book, ops := Indexed(s.ops, tx, height)))
  }

  function ApplyAll(s: State, height: nat, txs: seq<Tx>): Result<State>
    decreases |txs|
  {
    if txs == [] then Ok(s)
    else
      var next :- Apply(s, height, txs[0]);
      ApplyAll(next, height, txs[1..])
  }

  /** The search in the proposer transaction: the last one wins, since `break` only leaves the `switch`. */
  function CollectTxFeeOf(ops: seq<Op>): (r: Result<Op>)
    ensures r.Ok? ==> r.value.CollectTxFee?
  {
    if ops == [] then Err(InvalidProposerTransaction)
    else if ops[|ops| - 1].CollectTxFee? then Ok(ops[|ops| - 1])
    else CollectTxFeeOf(ops[..|ops| - 1])
  }

  function InflationOf(ops: seq<Op>): (r: Result<Op>)
    ensures r.Ok? ==> r.value.Inflation?
  {
    if ops == [] then Err(InvalidProposerTransaction)
    else if ops[|ops| - 1].Inflation? then Ok(ops[|ops| - 1])
    else InflationOf(ops[..|ops| - 1])
  }

  function ApplyProposer(s: State, height: nat, ptx: Tx): Result<State> {
    var fee :- CollectTxFeeOf(ptx.ops);
    var inflation :- InflationOf(ptx.ops);
    var book :- FinishProposer(s.book, fee, inflation);
    var _ :- Check(!Stored(s.records, ptx.hash), BlockAlreadyExists);
    Ok(s.(records := s.records + [Unpaid(ptx, height)], book := book, ops := Indexed(s.ops, ptx, height)))
  }

  function Hashes(txs: seq<Tx>): seq<Hash> { seq(|txs|, i requires 0 <= i < |txs| => txs[i].hash) }

  function CountOps(txs: seq<Tx>): nat {
    if txs == [] then 0 else |txs[0].ops| + CountOps(txs[1..])
  }

  function NewBlock(b: Ballot): Block {
    Block(b.basis.height + 1, b.basis.blockHash, b.time, b.basis.round, b.proposer, Hashes(b.txs), b.ptx.hash,
          b.basis.totalTxs + |b.txs| + 1, b.basis.totalOps + CountOps(b.txs) + |b.ptx.ops|)
  }

  /** `Block.Save`: neither the hash nor the height may be taken. */
  function SaveBlock(hash: Block -> Hash, blocks: seq<Block>, blk: Block): Result<seq<Block>> {
    if exists c :: c in blocks && hash(c) == hash(blk) then Err(BlockAlreadyExists)
    else if exists c :: c in blocks && c.height == blk.height then Err(StorageRecordAlreadyExists)
    else Ok(blocks + [blk])
  }

  /** `isValidRound`, then the new block is saved. */
  function AddBlock(hash: Block -> Hash, blocks: seq<Block>, b: Ballot): Result<seq<Block>> {
    if blocks == [] then Panic
    else
      var latest := Latest(blocks);
      var _ :- Check(latest.height == b.basis.height, BallotHeightMismatch);
      var _ :- Check(hash(latest) == b.basis.blockHash, BallotBlockHashMismatch);
      SaveBlock(hash, blocks, NewBlock(b))
  }

  /** The transactions of the block, then the proposer transaction. */
  function ApplyBlock(s: State, b: Ballot): Result<State> {
    var applied :- ApplyAll(s, b.basis.height + 1, b.txs);
    ApplyProposer(applied, b.basis.height + 1, b.ptx)
  }

  /** `finishBallotWithProposedTxs` */
  function Finish(hash: Block -> Hash, s: State, b: Ballot): Result<State> {
    var blocks :- AddBlock(hash, s.blocks, b);
    ApplyBlock(s.(blocks := blocks), b)
  }

  /** `finishBallot`: an error discards everything. */
  function Step(hash: Block -> Hash, s: State, b: Ballot): State {
    var r := Finish(hash, s, b);
    if r.Ok? then r.value else s
  }

  function Run(hash: Block -> Hash, s: State, ballots: seq<Ballot>): State
    decreases |ballots|
  {
    if ballots == [] then s else Run(hash, Step(hash, s, ballots[0]), ballots[1..])
  }

  /* ---- the invariant ---- */

  ghost predicate Linked(hash: Block -> Hash, blocks: seq<Block>) {
    && blocks != []
    && (forall i :: 0 <= i < |blocks| ==> blocks[i].height == i + 1)
    && (forall i :: 0 < i < |blocks| ==> blocks[i].prev == hash(blocks[i - 1]))
  }

  ghost predicate AppliedOnce(records: seq<Record>) {
    forall i, j :: 0 <= i < j < |records| ==> records[i].tx.hash != records[j].tx.hash
  }

  /** How many applied transactions an account paid for. */
  function AppliedBy(records: seq<Record>, a: Address): nat {
    if records == [] then 0
    else
      var last := records[|records| - 1];
      AppliedBy(records[..|records| - 1], a) + (if last.Paid? && last.tx.source == a then 1 else 0)
  }

  ghost predicate Counted(records: seq<Record>, book: Book) {
    && (forall a :: a in book ==> book[a].sequenceId == AppliedBy(records, a) % TWO64)
    && (forall a :: a !in book ==> AppliedBy(records, a) == 0)
  }

  ghost predicate Inv(hash: Block -> Hash, s: State) {
    Linked(hash, s.blocks) && AppliedOnce(s.records) && Counted(s.records, s.book)
  }

  /** A genesis state: one block of height 1, and no account has paid for a transaction yet. */
  ghost predicate Genesis(s: State) {
    && |s.blocks| == 1 && s.blocks[0].height == 1
    && AppliedOnce(s.records) && (forall i :: 0 <= i < |s.records| ==> s.records[i].Unpaid?)
    && (forall a :: a in s.book ==> s.book[a].sequenceId == 0)
  }

  lemma {:induction false} NobodyPaid(records: seq<Record>, a: Address)
    requires forall i :: 0 <= i < |records| ==> records[i].Unpaid?
    ensures AppliedBy(records, a) == 0
    decreases |records|
  {
    if records != [] {
      NobodyPaid(records[..|records| - 1], a);
    }
  }

  lemma GenesisOk(hash: Block -> Hash, s: State)
    requires Genesis(s)
    ensures Inv(hash, s)
  {
    forall a ensures AppliedBy(s.records, a) == 0 {
      NobodyPaid(s.records, a);
    }
  }

  /* ---- sequence ids ---- */

  lemma {:induction false} OpsKeepSequence(book: Book, source: Address, ops: seq<Op>)
    requires FinishOps(book, source, ops).Ok?
    ensures var after := FinishOps(book, source, ops).value;
            && (forall a :: a in book ==> a in after && after[a].sequenceId == book[a].sequenceId)
            && (forall a :: a in after && a !in book ==> after[a].sequenceId == 0)
            && (source in after ==> source in book)
    decreases |ops|
  {
    if ops != [] {
      OpsKeepSequence(FinishOp(book, source, ops[0]).value, source, ops[1..]);
    }
  }

  lemma TxSequence(book: Book, tx: Tx)
    requires FinishTx(book, tx).Ok?
    ensures var after := FinishTx(book, tx).value;
            && tx.source in book
            && (forall a :: a in book ==> a in after)
            && (forall a :: a in after && a in book ==>
                  after[a].sequenceId == (book[a].sequenceId + (if a == tx.source then 1 else 0)) % TWO64)
            && (forall a :: a in after && a !in book ==> after[a].sequenceId == 0)
  {
    OpsKeepSequence(book, tx.source, tx.ops);
  }

  lemma RecordAdded(records: seq<Record>, r: Record, a: Address)
    ensures AppliedBy(records + [r], a) == AppliedBy(records, a) + (if r.Paid? && r.tx.source == a then 1 else 0)
  {
    assert (records + [r])[..|records|] == records;
  }

  lemma AddedOnce(records: seq<Record>, r: Record)
    requires AppliedOnce(records) && !Stored(records, r.tx.hash)
    ensures AppliedOnce(records + [r])
  {
  }

  lemma CountTx(records: seq<Record>, book: Book, tx: Tx, height: nat)
    requires Counted(records, book) && FinishTx(book, tx).Ok?
    ensures Counted(records + [Paid(tx, height)], FinishTx(book, tx).value)
  {
    var after := FinishTx(book, tx).value;
    forall a ensures a in after ==> after[a].sequenceId == AppliedBy(records + [Paid(tx, height)], a) % TWO64
             ensures a !in after ==> AppliedBy(records + [Paid(tx, height)], a) == 0 {
      RecordAdded(records, Paid(tx, height), a);
      AccountSequence(book, tx, a);
      CountUp(AppliedBy(records, a), if a == tx.source then 1 else 0);
    }
  }

  lemma CountUp(n: nat, k: nat)
    ensures (n % TWO64 + k) % TWO64 == (n + k) % TWO64
  {
  }

  lemma AccountSequence(book: Book, tx: Tx, a: Address)
    requires FinishTx(book, tx).Ok?
    ensures var after := FinishTx(book, tx).value;
            && tx.source in book
            && (a in book ==>
                  && a in after
                  && after[a].sequenceId == (book[a].sequenceId + (if a == tx.source then 1 else 0)) % TWO64)
            && (a in after && a !in book ==> after[a].sequenceId == 0)
  {
    TxSequence(book, tx);
  }

  lemma ApplyKeeps(s: State, height: nat, tx: Tx)
    requires Apply(s, height, tx).Ok? && AppliedOnce(s.records) && Counted(s.records, s.book)
    ensures var t := Apply(s, height, tx).value;
            t.blocks == s.blocks && AppliedOnce(t.records) && Counted(t.records, t.book)
  {
    AddedOnce(s.records, Paid(tx, height));
    CountTx(s.records, s.book, tx, height);
  }

  lemma {:induction false} ApplyAllKeeps(s: State, height: nat, txs: seq<Tx>)
    requires ApplyAll(s, height, txs).Ok? && AppliedOnce(s.records) && Counted(s.records, s.book)
    ensures var t := ApplyAll(s, height, txs).value;
            t.blocks == s.blocks && AppliedOnce(t.records) && Counted(t.records, t.book)
    decreases |txs|
  {
    if txs != [] {
      ApplyKeeps(s, height, txs[0]);
      ApplyAllKeeps(Apply(s, height, txs[0]).value, height, txs[1..]);
    }
  }

  lemma ApplyProposerKeeps(s: State, height: nat, ptx: Tx)
    requires ApplyProposer(s, height, ptx).Ok? && AppliedOnce(s.records) && Counted(s.records, s.book)
    ensures var t := ApplyProposer(s, height, ptx).value;
            t.blocks == s.blocks && AppliedOnce(t.records) && Counted(t.records, t.book)
  {
    var t := ApplyProposer(s, height, ptx).value;
    AddedOnce(s.records, Unpaid(ptx, height));
    forall a ensures AppliedBy(t.records, a) == AppliedBy(s.records, a) {
      RecordAdded(s.records, Unpaid(ptx, height), a);
    }
  }

  /* ---- the chain ---- */

  /** A ballot can only be stored on top of the chain: every lower height is taken. */
  lemma FinishNeedsTop(hash: Block -> Hash, s: State, b: Ballot)
    requires Linked(hash, s.blocks) && Finish(hash, s, b).Ok?
    ensures Latest(s.blocks) == Top(s.blocks) && Linked(hash, s.blocks + [NewBlock(b)])
  {
    FinishAdds(hash, s, b);
    AddedBlock(hash, s.blocks, b);
    NextHeightIsTaken(hash, s.blocks, Latest(s.blocks));
  }

  lemma FinishAdds(hash: Block -> Hash, s: State, b: Ballot)
    requires Finish(hash, s, b).Ok?
    ensures AddBlock(hash, s.blocks, b).Ok?
  {
  }

  lemma NextHeightIsTaken(hash: Block -> Hash, blocks: seq<Block>, b: Block)
    requires Linked(hash, blocks) && b in blocks
    ensures b == Top(blocks) || exists c :: c in blocks && c.height == b.height + 1
  {
    var i :| 0 <= i < |blocks| && blocks[i] == b;
    if i < |blocks| - 1 {
      assert blocks[i + 1] in blocks;
    }
  }

  lemma AddedBlock(hash: Block -> Hash, blocks: seq<Block>, b: Ballot)
    requires AddBlock(hash, blocks, b).Ok?
    ensures AddBlock(hash, blocks, b).value == blocks + [NewBlock(b)]
    ensures blocks != [] && Latest(blocks).height == b.basis.height && hash(Latest(blocks)) == b.basis.blockHash
    ensures forall c :: c in blocks ==> c.height != b.basis.height + 1
  {
  }

  /** The steps of a ballot that is finished. */
  lemma FinishSteps(hash: Block -> Hash, s: State, b: Ballot)
    requires Finish(hash, s, b).Ok?
    ensures var saved := s.(blocks := s.blocks + [NewBlock(b)]);
            var applied := ApplyAll(saved, b.basis.height + 1, b.txs);
            applied.Ok? && Finish(hash, s, b) == ApplyProposer(applied.value, b.basis.height + 1, b.ptx)
    ensures s.blocks != [] && Latest(s.blocks).height == b.basis.height
  {
    AddedBlock(hash, s.blocks, b);
    BlockSteps(s.(blocks := s.blocks + [NewBlock(b)]), b);
  }

  lemma BlockSteps(s: State, b: Ballot)
    requires ApplyBlock(s, b).Ok?
    ensures var applied := ApplyAll(s, b.basis.height + 1, b.txs);
            applied.Ok? && ApplyBlock(s, b) == ApplyProposer(applied.value, b.basis.height + 1, b.ptx)
  {
  }

  lemma FinishKeeps(hash: Block -> Hash, s: State, b: Ballot)
    requires Inv(hash, s) && Finish(hash, s, b).Ok?
    ensures Inv(hash, Finish(hash, s, b).value)
    ensures Finish(hash, s, b).value.blocks == s.blocks + [NewBlock(b)]
  {
    FinishNeedsTop(hash, s, b);
    FinishSteps(hash, s, b);
    var saved := s.(blocks := s.blocks + [NewBlock(b)]);
    ApplyAllKeeps(saved, b.basis.height + 1, b.txs);
    ApplyProposerKeeps(ApplyAll(saved, b.basis.height + 1, b.txs).value, b.basis.height + 1, b.ptx);
  }

  /**
   Over any run of ballots, finished or refused: heights count up from 1, every block names the hash of
   the one below, no transaction is applied twice, and every account's sequence id counts the
   transactions it paid for.
   */
  lemma {:induction false} ChainInvariant(hash: Block -> Hash, s: State, ballots: seq<Ballot>)
    requires Inv(hash, s)
    ensures Inv(hash, Run(hash, s, ballots))
    decreases |ballots|
  {
    if ballots != [] {
      if Finish(hash, s, ballots[0]).Ok? {
        FinishKeeps(hash, s, ballots[0]);
      }
      ChainInvariant(hash, Step(hash, s, ballots[0]), ballots[1..]);
    }
  }

  /* ---- when the chain stops ---- */

  /** The latest block is the highest one exactly when no block claims a later proposed time. */
  lemma LatestIsTopIff(hash: Block -> Hash, blocks: seq<Block>)
    requires Linked(hash, blocks)
    ensures Latest(blocks) == Top(blocks) <==> forall i :: 0 <= i < |blocks| ==> blocks[i].time <= Top(blocks).time
  {
    var latest := Latest(blocks);
    if latest != Top(blocks) {
      var i :| 0 <= i < |blocks| && blocks[i] == latest;
      assert !KeyBelow(latest, Top(blocks));
      assert blocks[i].height < Top(blocks).height;
    } else {
      forall i | 0 <= i < |blocks| ensures blocks[i].time <= Top(blocks).time {
        assert blocks[i] in blocks;
      }
    }
  }

  /** A ballot that stores nothing but the proposer transaction `h`, with no fee and no inflation. */
  function EmptyBallot(hash: Block -> Hash, s: State, h: Hash): Ballot
    requires s.blocks != []
  {
    var top := Top(s.blocks);
    var fee := CollectTxFee("", 0, 0, top.height, hash(top), top.totalTxs);
    var inflation := Inflation("", 0, 0, "", top.height, hash(top), top.totalTxs);
    Ballot(Basis(0, top.height, hash(top), top.totalTxs, top.totalOps), "", [],
           Tx(h, "", "", 0, 0, [fee, inflation]), top.time)
  }

  lemma EmptyBallotFinishes(hash: Block -> Hash, s: State, h: Hash)
    requires Linked(hash, s.blocks) && Latest(s.blocks) == Top(s.blocks) && !Stored(s.records, h)
    requires forall x, y :: hash(x) == hash(y) ==> x == y
    ensures Finish(hash, s, EmptyBallot(hash, s, h)).Ok?
  {
    var b := EmptyBallot(hash, s, h);
    var fee, inflation := b.ptx.ops[0], b.ptx.ops[1];
    assert b.ptx.ops[..1] == [fee];
    assert CollectTxFeeOf([fee]) == Ok(fee);
    assert SaveBlock(hash, s.blocks, NewBlock(b)) == Ok(s.blocks + [NewBlock(b)]);
  }

  /**
   The chain can grow exactly when its highest block has the latest proposed time: `GetLatestBlock`
   looks for the latest time, and any other answer points below a height that is taken.
   */
  lemma GrowsIff(hash: Block -> Hash, s: State, h: Hash)
    requires Inv(hash, s) && !Stored(s.records, h)
    requires forall x, y :: hash(x) == hash(y) ==> x == y
    ensures (exists b :: Finish(hash, s, b).Ok?)
            <==> forall i :: 0 <= i < |s.blocks| ==> s.blocks[i].time <= Top(s.blocks).time
  {
    LatestIsTopIff(hash, s.blocks);
    if Latest(s.blocks) == Top(s.blocks) {
      EmptyBallotFinishes(hash, s, h);
    }
    forall b | Finish(hash, s, b).Ok? ensures Latest(s.blocks) == Top(s.blocks) {
      FinishNeedsTop(hash, s, b);
    }
  }

  /** One block that claims an earlier time than some block below it stops the chain for good. */
  lemma {:induction false} EarlierTimeStops(hash: Block -> Hash, s: State, ballots: seq<Ballot>, i: nat)
    requires Linked(hash, s.blocks) && i < |s.blocks| && s.blocks[i].time > Top(s.blocks).time
    ensures Run(hash, s, ballots) == s
    decreases |ballots|
  {
    LatestIsTopIff(hash, s.blocks);
    if ballots != [] {
      if Finish(hash, s, ballots[0]).Ok? {
        FinishNeedsTop(hash, s, ballots[0]);
      }
      EarlierTimeStops(hash, s, ballots[1..], i);
    }
  }

  const FIRST := Block(1, "", 5, 0, "", [], "", 0, 0)
  const START := State([FIRST], [], map[], map[])

  /** The second block claims an earlier time than the genesis block. */
  function EarlyBallot(hash: Block -> Hash): Ballot { EmptyBallot(hash, START, "p").(time := 3) }

  lemma EarlyBallotFinishes(hash: Block -> Hash)
    requires forall x, y :: hash(x) == hash(y) ==> x == y
    ensures Genesis(START) && Finish(hash, START, EarlyBallot(hash)).Ok?
  {
    var b := EarlyBallot(hash);
    var fee, inflation := b.ptx.ops[0], b.ptx.ops[1];
    assert b.ptx.ops[..1] == [fee];
    assert CollectTxFeeOf([fee]) == Ok(fee);
    assert SaveBlock(hash, START.blocks, NewBlock(b)) == Ok(START.blocks + [NewBlock(b)]);
  }

  /** From a genesis state, one ballot with an earlier time and then any others: the chain stays at height 2. */
  lemma ChainStopsAtTwo(hash: Block -> Hash, ballots: seq<Ballot>)
    requires forall x, y :: hash(x) == hash(y) ==> x == y
    ensures Genesis(START) && Run(hash, START, [EarlyBallot(hash)] + ballots) == Step(hash, START, EarlyBallot(hash))
    ensures |Step(hash, START, EarlyBallot(hash)).blocks| == 2
  {
    var b := EarlyBallot(hash);
    EarlyBallotFinishes(hash);
    GenesisOk(hash, START);
    FinishKeeps(hash, START, b);
    assert ([b] + ballots)[1..] == ballots;
    EarlierTimeStops(hash, Step(hash, START, b), ballots, 0);
  }

  /* ---- sequence ids of checked transactions ---- */

  /**
   What a node may see of a state when it checks a transaction: the accounts and the latest height, of
   every account's operations those already indexed, and of every stored transaction the operations already saved.
   */
  ghost predicate IsView(s: State, view: Ledger) {
    && s.blocks != []
    && view.book == s.book && view.height == Latest(s.blocks).height
    && (forall a :: view.OpsOf(a) <= OpsOf(s.ops, a))
    && (forall h :: h in view.txs ==> exists i :: 0 <= i < |s.records| && Shows(s.records[i], h, view.txs[h]))
  }

  predicate Shows(r: Record, h: Hash, ops: seq<Op>) { r.tx.hash == h && ops <= r.tx.ops }

  ghost predicate Passes(s: State, cfg: Config, tx: Tx) {
    exists view :: IsView(s, view) && ValidateTx(view, cfg, tx).Ok?
  }

  predicate DistinctSources(txs: seq<Tx>) {
    forall i, j :: 0 <= i < j < |txs| ==> txs[i].source != txs[j].source
  }

  /** Every ballot that is finished holds transactions that pass on the state it is applied to, one per source. */
  ghost predicate CheckedRun(hash: Block -> Hash, cfg: Config, s: State, ballots: seq<Ballot>)
    decreases |ballots|
  {
    ballots == [] ||
    (&& (Finish(hash, s, ballots[0]).Ok? ==>
           DistinctSources(ballots[0].txs) && forall tx :: tx in ballots[0].txs ==> Passes(s, cfg, tx))
     && CheckedRun(hash, cfg, Step(hash, s, ballots[0]), ballots[1..]))
  }

  /** The transactions of an account carry 0, 1, 2, ... in the order they were applied. */
  ghost predicate InOrder(records: seq<Record>) {
    forall k :: 0 <= k < |records| && records[k].Paid? ==>
      records[k].tx.sequenceId == AppliedBy(records[..k], records[k].tx.source) % TWO64
  }

  ghost predicate Current(book: Book, txs: seq<Tx>) {
    forall tx :: tx in txs ==> tx.source in book && tx.sequenceId == book[tx.source].sequenceId
  }

  lemma OrderExtended(records: seq<Record>, r: Record)
    requires InOrder(records)
    requires r.Paid? ==> r.tx.sequenceId == AppliedBy(records, r.tx.source) % TWO64
    ensures InOrder(records + [r])
  {
    var more := records + [r];
    forall k | 0 <= k < |more| && more[k].Paid?
      ensures more[k].tx.sequenceId == AppliedBy(more[..k], more[k].tx.source) % TWO64
    {
      assert more[..k] == records[..k];
      assert records[..|records|] == records;
    }
  }

  lemma StillCurrent(book: Book, txs: seq<Tx>)
    requires txs != [] && Current(book, txs) && DistinctSources(txs) && FinishTx(book, txs[0]).Ok?
    ensures Current(FinishTx(book, txs[0]).value, txs[1..])
  {
    forall tx | tx in txs[1..]
      ensures var after := FinishTx(book, txs[0]).value;
              tx.source in after && tx.sequenceId == after[tx.source].sequenceId
    {
      AccountSequence(book, txs[0], tx.source);
    }
  }

  lemma {:induction false} ApplyAllInOrder(s: State, height: nat, txs: seq<Tx>)
    requires ApplyAll(s, height, txs).Ok? && AppliedOnce(s.records) && Counted(s.records, s.book)
    requires InOrder(s.records) && Current(s.book, txs) && DistinctSources(txs)
    ensures InOrder(ApplyAll(s, height, txs).value.records)
    decreases |txs|
  {
    if txs != [] {
      ApplyKeeps(s, height, txs[0]);
      OrderExtended(s.records, Paid(txs[0], height));
      StillCurrent(s.book, txs);
      ApplyAllInOrder(Apply(s, height, txs[0]).value, height, txs[1..]);
    }
  }

  lemma FinishInOrder(hash: Block -> Hash, s: State, b: Ballot)
    requires Inv(hash, s) && InOrder(s.records) && Finish(hash, s, b).Ok?
    requires Current(s.book, b.txs) && DistinctSources(b.txs)
    ensures InOrder(Finish(hash, s, b).value.records)
  {
    FinishSteps(hash, s, b);
    var saved := s.(blocks := s.blocks + [NewBlock(b)]);
    ApplyAllInOrder(saved, b.basis.height + 1, b.txs);
    OrderExtended(ApplyAll(saved, b.basis.height + 1, b.txs).value.records, Unpaid(b.ptx, b.basis.height + 1));
  }

  lemma PassesIsCurrent(s: State, cfg: Config, tx: Tx)
    requires Passes(s, cfg, tx)
    ensures tx.source in s.book && tx.sequenceId == s.book[tx.source].sequenceId
  {
  }

  /** Replays and gaps are impossible: the applied transactions of every account are numbered without a hole. */
  lemma {:induction false} SequenceIdsHaveNoGaps(hash: Block -> Hash, cfg: Config, s: State, ballots: seq<Ballot>)
    requires Inv(hash, s) && InOrder(s.records) && CheckedRun(hash, cfg, s, ballots)
    ensures InOrder(Run(hash, s, ballots).records)
    decreases |ballots|
  {
    if ballots != [] {
      var b := ballots[0];
      if Finish(hash, s, b).Ok? {
        forall tx | tx in b.txs ensures tx.source in s.book && tx.sequenceId == s.book[tx.source].sequenceId {
          PassesIsCurrent(s, cfg, tx);
        }
        FinishKeeps(hash, s, b);
        FinishInOrder(hash, s, b);
      }
      SequenceIdsHaveNoGaps(hash, cfg, Step(hash, s, b), ballots[1..]);
    }
  }

  /* ---- the store ---- */

  /** The storage backend as `finishBallot` changes it. */
  class Store {
    var blocks: seq<Block>
    var records: seq<Record>
    var book: Book
    var ops: Index

    ghost function Abs(): State
      reads this
    {
      State(blocks, records, book, ops)
    }

    constructor (s: State)
      ensures Abs() == s
    {
      blocks, records, book, ops := s.blocks, s.records, s.book, s.ops;
    }

    method FinishTransaction(height: nat, tx: Tx) returns (r: Result<()>)
      modifies this
      ensures Apply(old(Abs()), height, tx) == if r.Ok? then Ok(Abs()) else r.PropagateFailure<State>()
    {
      var total := TotalAmount(tx);
      if !total.Ok? {
        return total.PropagateFailure();
      }
      if Stored(records, tx.hash) {
        return Err(BlockAlreadyExists);
      }
      records := records + [Paid(tx, height)];
      var accounts := new AccountStore(book);
      r := accounts.FinishTransaction(tx);
      book := accounts.book;
      ops := Indexed(ops, tx, height);
    }

    method FinishTransactions(height: nat, txs: seq<Tx>) returns (r: Result<()>)
      modifies this
      ensures ApplyAll(old(Abs()), height, txs) == if r.Ok? then Ok(Abs()) else r.PropagateFailure<State>()
    {
      for i := 0 to |txs|
        invariant ApplyAll(old(Abs()), height, txs) == ApplyAll(Abs(), height, txs[i..])
      {
        assert txs[i..][0] == txs[i] && txs[i..][1..] == txs[i + 1..];
        r := FinishTransaction(height, txs[i]);
        if !r.Ok? {
          return;
        }
      }
      r := Ok(());
    }

    method FinishProposerTransaction(height: nat, ptx: Tx) returns (r: Result<()>)
      modifies this
      ensures ApplyProposer(old(Abs()), height, ptx) == if r.Ok? then Ok(Abs()) else r.PropagateFailure<State>()
    {
      var fee, inflation := CollectTxFeeOf(ptx.ops), InflationOf(ptx.ops);
      if !fee.Ok? {
        return fee.PropagateFailure();
      }
      if !inflation.Ok? {
        return inflation.PropagateFailure();
      }
      var accounts := new AccountStore(book);
      r := Ok(());
      if fee.value.amount >= 1 {
        r := accounts.CreditAccount(fee.value.target, fee.value.amount);
      }
      if r.Ok? && inflation.value.amount >= 1 {
        r := accounts.CreditAccount(inflation.value.target, inflation.value.amount);
      }
      if !r.Ok? {
        return;
      }
      book := accounts.book;
      if Stored(records, ptx.hash) {
        return Err(BlockAlreadyExists);
      }
      records := records + [Unpaid(ptx, height)];
      ops := Indexed(ops, ptx, height);
    }

    method SaveNextBlock(hash: Block -> Hash, b: Ballot) returns (r: Result<()>)
      modifies `blocks
      ensures AddBlock(hash, old(blocks), b) == if r.Ok? then Ok(blocks) else r.PropagateFailure<seq<Block>>()
    {
      if blocks == [] {
        return Panic;
      }
      var latest := Latest(blocks);
      if latest.height != b.basis.height {
        return Err(BallotHeightMismatch);
      }
      if hash(latest) != b.basis.blockHash {
        return Err(BallotBlockHashMismatch);
      }
      var saved := SaveBlock(hash, blocks, NewBlock(b));
      if !saved.Ok? {
        return saved.PropagateFailure();
      }
      blocks := saved.value;
      r := Ok(());
    }

    method FinishBallotWithProposedTxs(hash: Block -> Hash, b: Ballot) returns (r: Result<()>)
      modifies this
      ensures Finish(hash, old(Abs()), b) == if r.Ok? then Ok(Abs()) else r.PropagateFailure<State>()
    {
      r := SaveNextBlock(hash, b);
      if !r.Ok? {
        return;
      }
      assert Abs() == old(Abs()).(blocks := blocks);
      r := FinishBlockTransactions(b);
    }

    method FinishBlockTransactions(b: Ballot) returns (r: Result<()>)
      modifies this
      ensures ApplyBlock(old(Abs()), b) == if r.Ok? then Ok(Abs()) else r.PropagateFailure<State>()
    {
      r := FinishTransactions(b.basis.height + 1, b.txs);
      if !r.Ok? {
        return;
      }
      r := FinishProposerTransaction(b.basis.height + 1, b.ptx);
    }

    /** Works on a copy, as on an open batch, and keeps the copy only without an error. */
    method FinishBallot(hash: Block -> Hash, b: Ballot) returns (r: Result<()>)
      modifies this
      ensures Abs() == Step(hash, old(Abs()), b) && (r.Ok? <==> Finish(hash, old(Abs()), b).Ok?)
    {
      var batch := new Store(State(blocks, records, book, ops));
      r := batch.FinishBallotWithProposedTxs(hash, b);
      if r.Ok? {
        blocks, records, book, ops := batch.blocks, batch.records, batch.book, batch.ops;
      }
    }
  }

  /** The search keeps the last operation of its kind. */
  lemma LastOneWins(ops: seq<Op>, op: Op)
    ensures op.CollectTxFee? ==> CollectTxFeeOf(ops + [op]) == Ok(op)
    ensures !op.CollectTxFee? ==> CollectTxFeeOf(ops + [op]) == CollectTxFeeOf(ops)
    ensures op.Inflation? ==> InflationOf(ops + [op]) == Ok(op)
    ensures !op.Inflation? ==> InflationOf(ops + [op]) == InflationOf(ops)
  {
    assert (ops + [op])[..|ops|] == ops;
  }

  /** A block is added if and only if the ballot names the latest block and hash and height are free. */
  lemma AddBlockIff(hash: Block -> Hash, blocks: seq<Block>, b: Ballot)
    ensures AddBlock(hash, blocks, b).Ok? <==>
              && blocks != [] && Latest(blocks).height == b.basis.height && hash(Latest(blocks)) == b.basis.blockHash
              && forall c :: c in blocks ==> hash(c) != hash(NewBlock(b)) && c.height != b.basis.height + 1
  {
  }
}
