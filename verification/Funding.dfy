/** Public funding over whole chains: whatever is minted beyond inflation was voted by the congress. */
module Funding {
  import opened Amounts
  import opened Operations
  import opened Accounts
  import opened ClosedForm
  import opened Validation
  import opened Chain
  import opened ChainRecords
  import opened Frozen

  /* ---- stored operations ---- */

  /** The stored transaction at `i` holds `op` at the place `ref`. */
  predicate HoldsAt(records: seq<Record>, i: nat, ref: OpRef, op: Op) {
    && i < |records| && records[i].tx.hash == ref.tx
    && 0 <= ref.index < |records[i].tx.ops| && records[i].tx.ops[ref.index] == op
  }

  ghost predicate RecordedAt(records: seq<Record>, ref: OpRef, op: Op) { exists i: nat :: HoldsAt(records, i, ref, op) }

  /** A stored result of the congress that refers to a stored vote for exactly this funding. */
  ghost predicate Backed(records: seq<Record>, op: Op) {
    op.InflationPF? && op.result.Some? &&
    exists vote :: && RecordedAt(records, op.result.value, CongressVotingResult(Some(vote)))
                   && RecordedAt(records, vote, CongressVoting(op.funding, op.amount))
  }

  lemma ViewIsRecorded(s: State, view: Ledger, ref: OpRef, op: Op)
    requires IsView(s, view) && StoredAt(view, ref, op)
    ensures RecordedAt(s.records, ref, op)
  {
    var i :| 0 <= i < |s.records| && Shows(s.records[i], ref.tx, view.txs[ref.tx]);
    assert view.txs[ref.tx][ref.index] == s.records[i].tx.ops[ref.index];
    assert HoldsAt(s.records, i, ref, op);
  }

  lemma RecordedLater(records: seq<Record>, more: seq<Record>, ref: OpRef, op: Op)
    requires records <= more && RecordedAt(records, ref, op)
    ensures RecordedAt(more, ref, op)
  {
    var i: nat :| HoldsAt(records, i, ref, op);
    assert more[i] == records[i];
    assert HoldsAt(more, i, ref, op);
  }

  lemma BackedLater(records: seq<Record>, more: seq<Record>, op: Op)
    requires records <= more && Backed(records, op)
    ensures Backed(more, op)
  {
    var vote :| && RecordedAt(records, op.result.value, CongressVotingResult(Some(vote)))
                && RecordedAt(records, vote, CongressVoting(op.funding, op.amount));
    RecordedLater(records, more, op.result.value, CongressVotingResult(Some(vote)));
    RecordedLater(records, more, vote, CongressVoting(op.funding, op.amount));
  }

  /* ---- what a passed check says ---- */

  /** A passed funding comes from the common account and is backed by what is stored. */
  lemma PassedFundingIsBacked(s: State, view: Ledger, cfg: Config, tx: Tx, op: Op)
    requires IsView(s, view) && ValidateTx(view, cfg, tx).Ok? && op in tx.ops && op.InflationPF?
    ensures tx.source == cfg.common && Backed(s.records, op)
  {
    ValidateTxIff(view, cfg, tx);
    assert Allowed(view, cfg, tx.source, op);
    var vote :| && StoredAt(view, op.result.value, CongressVotingResult(Some(vote)))
                && StoredAt(view, vote, CongressVoting(op.funding, op.amount));
    ViewIsRecorded(s, view, op.result.value, CongressVotingResult(Some(vote)));
    ViewIsRecorded(s, view, vote, CongressVoting(op.funding, op.amount));
  }

  /** A passed vote or result of a vote comes from the congress account. */
  lemma PassedVoteIsCongress(view: Ledger, cfg: Config, tx: Tx, op: Op)
    requires ValidateTx(view, cfg, tx).Ok? && op in tx.ops && (op.CongressVoting? || op.CongressVotingResult?)
    ensures tx.source == cfg.congress
  {
    ValidateTxIff(view, cfg, tx);
    assert Allowed(view, cfg, tx.source, op);
  }

  /* ---- sums ---- */

  ghost function BackedOps(records: seq<Record>, ops: seq<Op>): nat {
    if ops == [] then 0 else (if Backed(records, ops[0]) then ops[0].amount else 0) + BackedOps(records, ops[1..])
  }

  /** What a transaction mints by operations that stored votes back. */
  ghost function BackedBy(records: seq<Record>): Tx -> nat { (tx: Tx) => BackedOps(records, tx.ops) }

  lemma {:induction false} AllOpsBacked(records: seq<Record>, ops: seq<Op>)
    requires forall op :: op in ops && op.InflationPF? ==> Backed(records, op)
    ensures MintOps(ops) == BackedOps(records, ops)
    decreases |ops|
  {
    if ops != [] {
      AllOpsBacked(records, ops[1..]);
    }
  }

  lemma {:induction false} AllTxsBacked(records: seq<Record>, txs: seq<Tx>)
    requires forall tx, op :: tx in txs && op in tx.ops && op.InflationPF? ==> Backed(records, op)
    ensures SumBy(txs, Minted()) == SumBy(txs, BackedBy(records))
    decreases |txs|
  {
    if txs != [] {
      AllOpsBacked(records, txs[0].ops);
      AllTxsBacked(records, txs[1..]);
    }
  }

  /* ---- whole chains ---- */

  lemma {:induction false} TraceRecords(hash: Block -> Hash, states: seq<State>, ballots: seq<Ballot>, j: nat, i: nat)
    requires Trace(hash, states, ballots) && j <= i <= |ballots|
    ensures states[j].records <= states[i].records
    decreases i
  {
    if j < i {
      TraceRecords(hash, states, ballots, j, i - 1);
      NextRecords(hash, states, ballots, i - 1);
    }
  }

  /**
   If every applied transaction passed its check at some state up to the one it was applied to, every
   funding in the chain is from the common account and backed by a vote and its result that were stored before.
   */
  lemma FundingIsBacked(hash: Block -> Hash, cfg: Config, states: seq<State>, ballots: seq<Ballot>,
                        i: nat, tx: Tx, op: Op)
    requires Trace(hash, states, ballots) && Checked(cfg, states, ballots) && i < |ballots|
    requires tx in ballots[i].txs && op in tx.ops && op.InflationPF?
    ensures tx.source == cfg.common && Backed(states[i].records, op)
  {
    assert PassedBefore(cfg, states, i, tx);
    var j :| 0 <= j <= i && Passes(states[j], cfg, tx);
    var view :| IsView(states[j], view) && ValidateTx(view, cfg, tx).Ok?;
    PassedFundingIsBacked(states[j], view, cfg, tx, op);
    TraceRecords(hash, states, ballots, j, i);
    BackedLater(states[j].records, states[i].records, op);
  }

  /** So all that a block of the chain mints beyond inflation is backed by stored votes of those amounts. */
  lemma MintedIsBacked(hash: Block -> Hash, cfg: Config, states: seq<State>, ballots: seq<Ballot>, i: nat)
    requires Trace(hash, states, ballots) && Checked(cfg, states, ballots) && i < |ballots|
    ensures SumBy(ballots[i].txs, Minted()) == SumBy(ballots[i].txs, BackedBy(states[i].records))
  {
    forall tx, op | tx in ballots[i].txs && op in tx.ops && op.InflationPF? ensures Backed(states[i].records, op) {
      FundingIsBacked(hash, cfg, states, ballots, i, tx, op);
    }
    AllTxsBacked(states[i].records, ballots[i].txs);
  }

  /* ---- who voted ---- */

  /** Every stored vote and result of a vote is the congress's own. */
  ghost predicate VotedByCongress(cfg: Config, records: seq<Record>) {
    forall i, op :: 0 <= i < |records| && op in records[i].tx.ops ==>
      op.CongressVoting? || op.CongressVotingResult? ==> records[i].tx.source == cfg.congress
  }

  /** Proposer transactions hold collected fees and inflation only. */
  ghost predicate PlainProposals(ballots: seq<Ballot>) {
    forall i, op :: 0 <= i < |ballots| && op in ballots[i].ptx.ops ==> op.CollectTxFee? || op.Inflation?
  }

  lemma {:induction false} VotesAreCongress(hash: Block -> Hash, cfg: Config, states: seq<State>, ballots: seq<Ballot>,
                                            i: nat)
    requires Trace(hash, states, ballots) && Checked(cfg, states, ballots) && PlainProposals(ballots) && i <= |ballots|
    requires VotedByCongress(cfg, states[0].records)
    ensures VotedByCongress(cfg, states[i].records)
    decreases i
  {
    if i > 0 {
      VotesAreCongress(hash, cfg, states, ballots, i - 1);
      NewVotesAreCongress(cfg, states, ballots, i - 1);
      NextRecords(hash, states, ballots, i - 1);
      VotedJoin(cfg, states[i - 1].records, RecordsOf(ballots[i - 1]));
    }
  }

  lemma NextRecords(hash: Block -> Hash, states: seq<State>, ballots: seq<Ballot>, i: nat)
    requires Trace(hash, states, ballots) && i < |ballots|
    ensures states[i + 1].records == states[i].records + RecordsOf(ballots[i])
  {
    assert FinishedAt(hash, states, ballots, i);
    FinishRecords(hash, states[i], ballots[i]);
  }

  lemma VotedJoin(cfg: Config, first: seq<Record>, second: seq<Record>)
    requires VotedByCongress(cfg, first) && VotedByCongress(cfg, second)
    ensures VotedByCongress(cfg, first + second)
  {
  }

  lemma NewVotesAreCongress(cfg: Config, states: seq<State>, ballots: seq<Ballot>, i: nat)
    requires |states| == |ballots| + 1 && Checked(cfg, states, ballots) && PlainProposals(ballots) && i < |ballots|
    ensures VotedByCongress(cfg, RecordsOf(ballots[i]))
  {
    var added := RecordsOf(ballots[i]);
    forall k, op | 0 <= k < |added| && op in added[k].tx.ops && (op.CongressVoting? || op.CongressVotingResult?)
      ensures added[k].tx.source == cfg.congress
    {
      if k < |ballots[i].txs| {
        PassedTxVotes(cfg, states, i, ballots[i].txs[k], op);
      } else {
        assert added[k].tx == ballots[i].ptx;
        PlainOp(ballots, i, op);
      }
    }
  }

  lemma PassedTxVotes(cfg: Config, states: seq<State>, i: nat, tx: Tx, op: Op)
    requires i < |states| && PassedBefore(cfg, states, i, tx) && op in tx.ops
    requires op.CongressVoting? || op.CongressVotingResult?
    ensures tx.source == cfg.congress
  {
    var j :| 0 <= j <= i && Passes(states[j], cfg, tx);
    var view :| IsView(states[j], view) && ValidateTx(view, cfg, tx).Ok?;
    PassedVoteIsCongress(view, cfg, tx, op);
  }

  lemma PlainOp(ballots: seq<Ballot>, i: nat, op: Op)
    requires PlainProposals(ballots) && i < |ballots| && op in ballots[i].ptx.ops
    ensures op.CollectTxFee? || op.Inflation?
  {
  }

  /** The operation at a place, in a transaction of this source. */
  ghost predicate RecordedFrom(records: seq<Record>, ref: OpRef, op: Op, source: Address) {
    exists i: nat :: HoldsAt(records, i, ref, op) && records[i].tx.source == source
  }

  lemma VoteIsFromCongress(cfg: Config, records: seq<Record>, ref: OpRef, op: Op)
    requires VotedByCongress(cfg, records) && RecordedAt(records, ref, op)
    requires op.CongressVoting? || op.CongressVotingResult?
    ensures RecordedFrom(records, ref, op, cfg.congress)
  {
    var i: nat :| HoldsAt(records, i, ref, op);
    assert op in records[i].tx.ops;
  }

  /**
   Over a whole checked chain: no public funding without a vote and a result that the congress account
   stored before.
   */
  lemma FundingWasVoted(hash: Block -> Hash, cfg: Config, states: seq<State>, ballots: seq<Ballot>,
                        i: nat, tx: Tx, op: Op)
    requires Trace(hash, states, ballots) && Checked(cfg, states, ballots) && PlainProposals(ballots) && i < |ballots|
    requires VotedByCongress(cfg, states[0].records)
    requires tx in ballots[i].txs && op in tx.ops && op.InflationPF?
    ensures op.result.Some?
    ensures exists vote ::
              && RecordedFrom(states[i].records, op.result.value, CongressVotingResult(Some(vote)), cfg.congress)
              && RecordedFrom(states[i].records, vote, CongressVoting(op.funding, op.amount), cfg.congress)
  {
    FundingIsBacked(hash, cfg, states, ballots, i, tx, op);
    VotesAreCongress(hash, cfg, states, ballots, i);
    var records := states[i].records;
    var vote :| && RecordedAt(records, op.result.value, CongressVotingResult(Some(vote)))
                && RecordedAt(records, vote, CongressVoting(op.funding, op.amount));
    VoteIsFromCongress(cfg, records, op.result.value, CongressVotingResult(Some(vote)));
    VoteIsFromCongress(cfg, records, vote, CongressVoting(op.funding, op.amount));
  }
}
