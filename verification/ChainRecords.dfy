/** What the stored blocks say about the stored transactions, over any run of finished ballots. */
module ChainRecords {
  import opened Amounts
  import opened Operations
  import opened Accounts
  import opened Validation
  import opened Chain

  /* ---- records by height ---- */

  /** The stored transactions of one height, in the order they were stored. */
  function RecordsAt(records: seq<Record>, height: nat): seq<Record> {
    if records == [] then []
    else
      var last := records[|records| - 1];
      RecordsAt(records[..|records| - 1], height) + (if last.height == height then [last] else [])
  }

  function OpsInRecords(records: seq<Record>): nat {
    if records == [] then 0 else OpsInRecords(records[..|records| - 1]) + |records[|records| - 1].tx.ops|
  }

  /** The operations an account submitted, oldest first. */
  function SubmittedBy(records: seq<Record>, a: Address): seq<OpRecord> {
    if records == [] then []
    else
      var last := records[|records| - 1];
      SubmittedBy(records[..|records| - 1], a) + (if last.tx.source == a then Records(last.tx.ops, last.height) else [])
  }

  lemma {:induction false} RecordsAtJoin(first: seq<Record>, second: seq<Record>, height: nat)
    ensures RecordsAt(first + second, height) == RecordsAt(first, height) + RecordsAt(second, height)
    decreases |second|
  {
    if second == [] {
      assert first + second == first;
    } else {
      var front, last := second[..|second| - 1], second[|second| - 1];
      RecordsAtJoin(first, front, height);
      assert (first + second)[..|first + second| - 1] == first + front;
    }
  }

  lemma {:induction false} OpsJoin(first: seq<Record>, second: seq<Record>)
    ensures OpsInRecords(first + second) == OpsInRecords(first) + OpsInRecords(second)
    decreases |second|
  {
    if second == [] {
      assert first + second == first;
    } else {
      OpsJoin(first, second[..|second| - 1]);
      assert (first + second)[..|first + second| - 1] == first + second[..|second| - 1];
    }
  }

  lemma {:induction false} RecordsAtAll(records: seq<Record>, height: nat)
    requires forall i :: 0 <= i < |records| ==> records[i].height == height
    ensures RecordsAt(records, height) == records
    decreases |records|
  {
    if records != [] {
      RecordsAtAll(records[..|records| - 1], height);
    }
  }

  lemma {:induction false} RecordsAtNone(records: seq<Record>, height: nat)
    requires forall i :: 0 <= i < |records| ==> records[i].height != height
    ensures RecordsAt(records, height) == []
    decreases |records|
  {
    if records != [] {
      RecordsAtNone(records[..|records| - 1], height);
    }
  }

  /* ---- what one ballot stores ---- */

  function PaidRecords(txs: seq<Tx>, height: nat): seq<Record> {
    seq(|txs|, i requires 0 <= i < |txs| => Paid(txs[i], height))
  }

  /** The records of a ballot: its transactions in order, then the proposer transaction. */
  function RecordsOf(b: Ballot): seq<Record> {
    PaidRecords(b.txs, b.basis.height + 1) + [Unpaid(b.ptx, b.basis.height + 1)]
  }

  lemma {:induction false} ApplyAllRecords(s: State, height: nat, txs: seq<Tx>)
    requires ApplyAll(s, height, txs).Ok?
    ensures ApplyAll(s, height, txs).value.records == s.records + PaidRecords(txs, height)
    ensures ApplyAll(s, height, txs).value.blocks == s.blocks
    decreases |txs|
  {
    if txs != [] {
      ApplyAllRecords(Apply(s, height, txs[0]).value, height, txs[1..]);
      assert PaidRecords(txs, height) == [Paid(txs[0], height)] + PaidRecords(txs[1..], height);
    }
  }

  lemma BlockRecords(s: State, b: Ballot)
    requires ApplyBlock(s, b).Ok?
    ensures ApplyBlock(s, b).value.records == s.records + RecordsOf(b)
    ensures ApplyBlock(s, b).value.blocks == s.blocks
  {
    BlockSteps(s, b);
    ApplyAllRecords(s, b.basis.height + 1, b.txs);
    ProposerRecords(ApplyAll(s, b.basis.height + 1, b.txs).value, b.basis.height + 1, b.ptx);
  }

  lemma FinishRecords(hash: Block -> Hash, s: State, b: Ballot)
    requires Finish(hash, s, b).Ok?
    ensures Finish(hash, s, b).value.records == s.records + RecordsOf(b)
    ensures Finish(hash, s, b).value.blocks == s.blocks + [NewBlock(b)]
  {
    AddedBlock(hash, s.blocks, b);
    BlockRecords(s.(blocks := s.blocks + [NewBlock(b)]), b);
  }

  lemma ProposerRecords(s: State, height: nat, ptx: Tx)
    requires ApplyProposer(s, height, ptx).Ok?
    ensures ApplyProposer(s, height, ptx).value.records == s.records + [Unpaid(ptx, height)]
    ensures ApplyProposer(s, height, ptx).value.blocks == s.blocks
  {
  }

  /* ---- the index of operations ---- */

  ghost predicate IndexIsExact(s: State) {
    forall a :: OpsOf(s.ops, a) == SubmittedBy(s.records, a)
  }

  lemma IndexedExact(ops: Index, records: seq<Record>, r: Record)
    requires forall a :: OpsOf(ops, a) == SubmittedBy(records, a)
    ensures forall a :: OpsOf(Indexed(ops, r.tx, r.height), a) == SubmittedBy(records + [r], a)
  {
    assert (records + [r])[..|records|] == records;
  }

  lemma {:induction false} ApplyAllIndexed(s: State, height: nat, txs: seq<Tx>)
    requires ApplyAll(s, height, txs).Ok? && IndexIsExact(s)
    ensures IndexIsExact(ApplyAll(s, height, txs).value)
    decreases |txs|
  {
    if txs != [] {
      IndexedExact(s.ops, s.records, Paid(txs[0], height));
      ApplyAllIndexed(Apply(s, height, txs[0]).value, height, txs[1..]);
    }
  }

  lemma FinishIndexed(hash: Block -> Hash, s: State, b: Ballot)
    requires Finish(hash, s, b).Ok? && IndexIsExact(s)
    ensures IndexIsExact(Finish(hash, s, b).value)
  {
    FinishSteps(hash, s, b);
    var saved := s.(blocks := s.blocks + [NewBlock(b)]);
    assert IndexIsExact(saved);
    ApplyAllIndexed(saved, b.basis.height + 1, b.txs);
    ProposerIndexed(ApplyAll(saved, b.basis.height + 1, b.txs).value, b.basis.height + 1, b.ptx);
  }

  lemma ProposerIndexed(s: State, height: nat, ptx: Tx)
    requires ApplyProposer(s, height, ptx).Ok? && IndexIsExact(s)
    ensures IndexIsExact(ApplyProposer(s, height, ptx).value)
  {
    IndexedExact(s.ops, s.records, Unpaid(ptx, height));
  }

  /* ---- blocks and records ---- */

  /** The records are the transactions that the block lists, in order, and then its proposer transaction. */
  ghost predicate Lists(blk: Block, records: seq<Record>) {
    && |records| == |blk.txs| + 1
    && (forall j :: 0 <= j < |blk.txs| ==> records[j].Paid? && records[j].tx.hash == blk.txs[j])
    && records[|blk.txs|].Unpaid? && records[|blk.txs|].tx.hash == blk.ptx
  }

  ghost predicate Listed(blocks: seq<Block>, records: seq<Record>) {
    && (forall i :: 0 <= i < |records| ==> 1 <= records[i].height <= |blocks|)
    && (forall i :: 1 <= i < |blocks| ==> Lists(blocks[i], RecordsAt(records, i + 1)))
  }

  lemma BallotLists(b: Ballot)
    ensures Lists(NewBlock(b), RecordsOf(b))
  {
  }

  /** A ballot adds the records of the next height and leaves those of the others. */
  lemma RecordsAtMore(records: seq<Record>, b: Ballot, height: nat)
    requires forall i :: 0 <= i < |records| ==> records[i].height <= b.basis.height
    ensures RecordsAt(records + RecordsOf(b), height)
            == if height == b.basis.height + 1 then RecordsOf(b) else RecordsAt(records, height)
  {
    RecordsAtJoin(records, RecordsOf(b), height);
    if height == b.basis.height + 1 {
      RecordsAtNone(records, height);
      RecordsAtAll(RecordsOf(b), height);
    } else {
      RecordsAtNone(RecordsOf(b), height);
    }
  }

  lemma ListedMore(blocks: seq<Block>, records: seq<Record>, b: Ballot)
    requires Listed(blocks, records) && blocks != [] && b.basis.height == |blocks|
    ensures Listed(blocks + [NewBlock(b)], records + RecordsOf(b))
  {
    var more, all := blocks + [NewBlock(b)], records + RecordsOf(b);
    forall i | 1 <= i < |more| ensures Lists(more[i], RecordsAt(all, i + 1)) {
      ListedAt(blocks, records, b, i);
    }
    forall i | 0 <= i < |all| ensures 1 <= all[i].height <= |more| {
      assert i < |records| ==> all[i] == records[i];
      assert i >= |records| ==> all[i] == RecordsOf(b)[i - |records|];
    }
  }

  lemma ListedAt(blocks: seq<Block>, records: seq<Record>, b: Ballot, i: nat)
    requires Listed(blocks, records) && blocks != [] && b.basis.height == |blocks| && 1 <= i <= |blocks|
    ensures Lists((blocks + [NewBlock(b)])[i], RecordsAt(records + RecordsOf(b), i + 1))
  {
    RecordsAtMore(records, b, i + 1);
    BallotLists(b);
  }

  /** The totals of a block are those of the block below and what it adds. */
  predicate Adds(below: Block, blk: Block, records: seq<Record>) {
    && blk.totalTxs == below.totalTxs + |records|
    && blk.totalOps == below.totalOps + OpsInRecords(records)
  }

  /** So it is for every block, and the totals of the top count everything. */
  ghost predicate Totalled(blocks: seq<Block>, records: seq<Record>) {
    && blocks != []
    && (forall i :: 1 <= i < |blocks| ==> Adds(blocks[i - 1], blocks[i], RecordsAt(records, i + 1)))
    && Top(blocks).totalTxs == |records| && Top(blocks).totalOps == OpsInRecords(records)
  }

  /** The basis of the ballot carries the totals of the top block. */
  predicate Carried(s: State, b: Ballot) {
    s.blocks != [] && b.basis.totalTxs == Top(s.blocks).totalTxs && b.basis.totalOps == Top(s.blocks).totalOps
  }

  lemma {:induction false} OpsOfTxs(txs: seq<Tx>, height: nat)
    ensures OpsInRecords(PaidRecords(txs, height)) == CountOps(txs)
    decreases |txs|
  {
    if txs != [] {
      OpsOfTxs(txs[1..], height);
      assert PaidRecords(txs, height) == [Paid(txs[0], height)] + PaidRecords(txs[1..], height);
      OpsJoin([Paid(txs[0], height)], PaidRecords(txs[1..], height));
      assert [Paid(txs[0], height)][..0] == [];
      assert OpsInRecords([Paid(txs[0], height)]) == |txs[0].ops|;
    }
  }

  lemma OpsOfBallot(b: Ballot)
    ensures OpsInRecords(RecordsOf(b)) == CountOps(b.txs) + |b.ptx.ops|
  {
    OpsOfTxs(b.txs, b.basis.height + 1);
    assert RecordsOf(b)[..|b.txs|] == PaidRecords(b.txs, b.basis.height + 1);
  }

  lemma TotalledMore(blocks: seq<Block>, records: seq<Record>, b: Ballot)
    requires Listed(blocks, records) && Totalled(blocks, records) && b.basis.height == |blocks|
    requires b.basis.totalTxs == Top(blocks).totalTxs && b.basis.totalOps == Top(blocks).totalOps
    ensures Totalled(blocks + [NewBlock(b)], records + RecordsOf(b))
  {
    var more, all := blocks + [NewBlock(b)], records + RecordsOf(b);
    TopTotalled(blocks, records, b);
    forall i | 1 <= i < |more| ensures Adds(more[i - 1], more[i], RecordsAt(all, i + 1)) {
      AddedAt(blocks, records, b, i);
    }
  }

  lemma AddedAt(blocks: seq<Block>, records: seq<Record>, b: Ballot, i: nat)
    requires Listed(blocks, records) && Totalled(blocks, records) && b.basis.height == |blocks| && 1 <= i <= |blocks|
    requires b.basis.totalTxs == Top(blocks).totalTxs && b.basis.totalOps == Top(blocks).totalOps
    ensures var more := blocks + [NewBlock(b)]; Adds(more[i - 1], more[i], RecordsAt(records + RecordsOf(b), i + 1))
  {
    RecordsAtMore(records, b, i + 1);
    TopTotalled(blocks, records, b);
  }

  lemma TopTotalled(blocks: seq<Block>, records: seq<Record>, b: Ballot)
    requires blocks != [] && Top(blocks).totalTxs == |records| && Top(blocks).totalOps == OpsInRecords(records)
    requires b.basis.totalTxs == Top(blocks).totalTxs && b.basis.totalOps == Top(blocks).totalOps
    ensures Adds(Top(blocks), NewBlock(b), RecordsOf(b))
    ensures NewBlock(b).totalTxs == |records + RecordsOf(b)|
    ensures NewBlock(b).totalOps == OpsInRecords(records + RecordsOf(b))
  {
    OpsOfBallot(b);
    OpsJoin(records, RecordsOf(b));
  }

  /* ---- whole runs ---- */

  /** The block is that of the ballot: on its basis, of its round, time and proposer. */
  predicate ComesFrom(blk: Block, b: Ballot) {
    && blk.height == b.basis.height + 1 && blk.prev == b.basis.blockHash
    && blk.round == b.basis.round && blk.proposer == b.proposer && blk.time == b.time
    && |blk.txs| == |b.txs| && (forall j :: 0 <= j < |b.txs| ==> blk.txs[j] == b.txs[j].hash) && blk.ptx == b.ptx.hash
  }

  ghost predicate FromBallot(blk: Block, ballots: seq<Ballot>) {
    exists j :: 0 <= j < |ballots| && ComesFrom(blk, ballots[j])
  }

  ghost predicate Sound(hash: Block -> Hash, s: State) {
    Inv(hash, s) && Listed(s.blocks, s.records) && IndexIsExact(s)
  }

  /** A finished ballot: its block, its records and its operations are what it says. */
  lemma FinishSound(hash: Block -> Hash, s: State, b: Ballot)
    requires Finish(hash, s, b).Ok? && Sound(hash, s)
    ensures Sound(hash, Finish(hash, s, b).value)
    ensures b.basis.height == |s.blocks| && ComesFrom(Top(Finish(hash, s, b).value.blocks), b)
  {
    FinishKeeps(hash, s, b);
    FinishRecords(hash, s, b);
    FinishIndexed(hash, s, b);
    FinishSteps(hash, s, b);
    FinishNeedsTop(hash, s, b);
    ListedMore(s.blocks, s.records, b);
  }

  /**
   Over any run of ballots, finished or refused: the records of every new height are exactly the
   transactions its block lists, in order, followed by its proposer transaction; the index holds exactly the operations
   of the records; and every new block is that of a ballot of the run.
   */
  lemma {:induction false} RunSound(hash: Block -> Hash, s: State, ballots: seq<Ballot>)
    requires Sound(hash, s)
    ensures var t := Run(hash, s, ballots);
            && Sound(hash, t) && s.blocks <= t.blocks && s.records <= t.records
            && (forall i :: |s.blocks| <= i < |t.blocks| ==> FromBallot(t.blocks[i], ballots))
    decreases |ballots|
  {
    if ballots != [] {
      var next := Step(hash, s, ballots[0]);
      StepSound(hash, s, ballots[0]);
      RunSound(hash, next, ballots[1..]);
      var t := Run(hash, next, ballots[1..]);
      forall i | |s.blocks| <= i < |t.blocks| ensures FromBallot(t.blocks[i], ballots) {
        FirstOrLater(s, next, t, ballots, i);
      }
    }
  }

  lemma StepSound(hash: Block -> Hash, s: State, b: Ballot)
    requires Sound(hash, s)
    ensures var t := Step(hash, s, b);
            && Sound(hash, t) && s.blocks <= t.blocks && s.records <= t.records
            && (t.blocks == s.blocks || (|t.blocks| == |s.blocks| + 1 && ComesFrom(t.blocks[|s.blocks|], b)))
  {
    if Finish(hash, s, b).Ok? {
      FinishSound(hash, s, b);
      FinishRecords(hash, s, b);
    }
  }

  lemma FirstOrLater(s: State, next: State, t: State, ballots: seq<Ballot>, i: nat)
    requires ballots != [] && next.blocks <= t.blocks && |s.blocks| <= i < |t.blocks|
    requires next.blocks == s.blocks
             || (|next.blocks| == |s.blocks| + 1 && ComesFrom(next.blocks[|s.blocks|], ballots[0]))
    requires i >= |next.blocks| ==> FromBallot(t.blocks[i], ballots[1..])
    ensures FromBallot(t.blocks[i], ballots)
  {
    if i >= |next.blocks| {
      var j :| 0 <= j < |ballots[1..]| && ComesFrom(t.blocks[i], ballots[1..][j]);
      assert ballots[1..][j] == ballots[j + 1];
    } else {
      assert t.blocks[i] == next.blocks[i];
    }
  }

  /** Every ballot that is finished carries the totals of the block it is put on. */
  predicate CarriedRun(hash: Block -> Hash, s: State, ballots: seq<Ballot>)
    decreases |ballots|
  {
    ballots == [] ||
    (&& (Finish(hash, s, ballots[0]).Ok? ==> Carried(s, ballots[0]))
     && CarriedRun(hash, Step(hash, s, ballots[0]), ballots[1..]))
  }

  /**
   Over any run whose ballots carry the totals of the top block, every block counts the transactions and
   operations stored up to its height.
   */
  lemma {:induction false} TotalsOverRun(hash: Block -> Hash, s: State, ballots: seq<Ballot>)
    requires Sound(hash, s) && Totalled(s.blocks, s.records) && CarriedRun(hash, s, ballots)
    ensures var t := Run(hash, s, ballots); Totalled(t.blocks, t.records)
    decreases |ballots|
  {
    if ballots != [] {
      var b := ballots[0];
      if Finish(hash, s, b).Ok? {
        FinishSound(hash, s, b);
        FinishRecords(hash, s, b);
        TotalledMore(s.blocks, s.records, b);
      }
      TotalsOverRun(hash, Step(hash, s, b), ballots[1..]);
    }
  }

  /* ---- the genesis block ---- */

  function GenesisTx(genesis: Address, balance: Amount, common: Address, rest: Amount, hash: Hash): Tx {
    Tx(hash, TRANSACTION_VERSION, genesis, 0, 0, [CreateAccount(genesis, balance, ""), CreateAccount(common, rest, "")])
  }

  /** `MakeGenesisBlock` on a store that holds the two accounts and no block. */
  function MakeGenesis(genesis: Address, balance: Amount, common: Address, rest: Amount, hash: Hash, time: nat): State {
    var tx := GenesisTx(genesis, balance, common, rest, hash);
    State([Block(1, "", time, 0, "", [hash], "", 1, 2)], [Unpaid(tx, 1)],
          map[genesis := Account(balance, 0, ""), common := Account(rest, 0, "")], Indexed(map[], tx, 1))
  }

  lemma GenesisIsSound(hash: Block -> Hash, genesis: Address, balance: Amount, common: Address, rest: Amount, h: Hash,
                       time: nat)
    ensures var s := MakeGenesis(genesis, balance, common, rest, h, time);
            Genesis(s) && Sound(hash, s) && Totalled(s.blocks, s.records)
  {
    var s := MakeGenesis(genesis, balance, common, rest, h, time);
    GenesisOk(hash, s);
    assert s.records[..0] == [];
    IndexedExact(map[], [], s.records[0]);
    assert [] + [s.records[0]] == s.records;
  }

  /** From the genesis block on, over any run: blocks and records agree, and so do the totals. */
  lemma ChainFromGenesis(hash: Block -> Hash, genesis: Address, balance: Amount, common: Address, rest: Amount, h: Hash,
                         time: nat, ballots: seq<Ballot>)
    requires CarriedRun(hash, MakeGenesis(genesis, balance, common, rest, h, time), ballots)
    ensures var t := Run(hash, MakeGenesis(genesis, balance, common, rest, h, time), ballots);
            Sound(hash, t) && Totalled(t.blocks, t.records)
  {
    var s := MakeGenesis(genesis, balance, common, rest, h, time);
    GenesisIsSound(hash, genesis, balance, common, rest, h, time);
    RunSound(hash, s, ballots);
    TotalsOverRun(hash, s, ballots);
  }
}
