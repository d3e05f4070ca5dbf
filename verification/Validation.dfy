/**
 The stored ledger and the checks a transaction must pass: `ValidateTx`, `ValidateOp` and the
 operation part of `IsWellFormed`.
 */
module Validation {
  import opened Amounts
  import opened Operations
  import opened Accounts

  const UNFREEZING_PERIOD: nat := 241920
  const TRANSACTION_VERSION := "1"
  const BASE_RESERVE: nat := 1_000_000

  datatype OpRecord = OpRecord(op: Op, height: nat)

  /**
   What validation reads: the accounts, the operations of every stored transaction, the operations each
   account ever submitted (oldest first) and the height of the latest block.
   */
  datatype Ledger = Ledger(book: Book, txs: map<Hash, seq<Op>>, ops: map<Address, seq<OpRecord>>, height: nat) {
    /** `GetBlockOperationsBySource` */
    function OpsOf(a: Address): seq<OpRecord> { if a in ops then ops[a] else [] }

    /** `GetBlockOperationByIndex` */
    function OpAt(ref: OpRef): Result<Op> {
      if ref.tx !in txs || ref.index < 0 || ref.index >= |txs[ref.tx]| then Err(BlockOperationDoesNotExists)
      else Ok(txs[ref.tx][ref.index])
    }
  }

  datatype Config = Config(common: Address, congress: Address, parses: Address -> bool)

  function Check(b: bool, e: Error): Result<()> { if b then Ok(()) else Err(e) }

  /** The first recorded operation is an unfreezing request that is old enough. */
  function FrozenPayable(l: Ledger, source: Address): Result<()> {
    var ops := l.OpsOf(source);
    if ops == [] || !ops[0].op.UnfreezeRequest? then Err(UnfreezingRequestNotRequested)
    else Check((l.height - ops[0].height) % TWO64 >= UNFREEZING_PERIOD, UnfreezingNotReachedExpiration)
  }

  function PayableBy(l: Ledger, source: Address): Result<()>
    requires source in l.book
  {
    if l.book[source].IsFrozen() then FrozenPayable(l, source) else Ok(())
  }

  function Depositable(l: Ledger, target: Address): Result<()> {
    if target !in l.book then Err(BlockAccountDoesNotExists)
    else Check(!l.book[target].IsFrozen(), FrozenAccountNoDeposit)
  }

  /** The vote behind an `InflationPF`: a stored result that refers to a stored vote of the same funding. */
  function FundingVoted(l: Ledger, funding: Address, amount: Amount, result: Option<OpRef>): Result<()> {
    var _ :- Check(result.Some?, InvalidOperation);
    var found :- l.OpAt(result.value);
    var _ :- Check(found.CongressVotingResult? && found.voting.Some?, InvalidOperation);
    var vote :- l.OpAt(found.voting.value);
    var _ :- Check(vote.CongressVoting?, InvalidOperation);
    var _ :- Check(vote.amount == amount, InflationPFAmountMissMatched);
    Check(vote.funding == funding, InflationPFFundingAddressMissMatched)
  }

  function ValidateOp(l: Ledger, cfg: Config, source: Address, op: Op): Result<()>
    requires source in l.book
  {
    match op
    case CreateAccount(target, _, _) =>
      var _ :- Check(target !in l.book, BlockAccountAlreadyExists);
      PayableBy(l, source)
    case Payment(target, _) =>
      var _ :- Depositable(l, target);
      PayableBy(l, source)
    case UnfreezeRequest =>
      var _ :- Check(l.book[source].IsFrozen(), UnfreezingFromInvalidAccount);
      var ops := l.OpsOf(source);
      Check(ops == [] || !ops[0].op.UnfreezeRequest?, UnfreezingRequestAlreadyReceived)
    case InflationPF(funding, amount, result) =>
      var _ :- Depositable(l, funding);
      var _ :- Check(cfg.common == source, InvalidOperation);
      FundingVoted(l, funding, amount, result)
    case CongressVoting(_, _) =>
      Check(source == cfg.congress, CongressAddressMisMatched)
    case CongressVotingResult(voting) =>
      var _ :- Check(source == cfg.congress, CongressAddressMisMatched);
      var _ :- Check(voting.Some?, InvalidOperation);
      var _ :- l.OpAt(voting.value);
      Ok(())
    case _ => Err(UnknownOperationType)
  }

  function ValidateOps(l: Ledger, cfg: Config, source: Address, ops: seq<Op>): Result<()>
    requires source in l.book
  {
    if ops == [] then Ok(())
    else
      var _ :- ValidateOp(l, cfg, source, ops[0]);
      ValidateOps(l, cfg, source, ops[1..])
  }

  function ValidateTx(l: Ledger, cfg: Config, tx: Tx): Result<()> {
    if tx.source !in l.book then Err(BlockAccountDoesNotExists)
    else
      var _ :- Check(tx.version == TRANSACTION_VERSION, InvalidMessageVersion);
      var _ :- Check(tx.sequenceId == l.book[tx.source].sequenceId, TransactionInvalidSequenceID);
      var total :- TotalAmount(tx);
      var _ :- Check(l.book[tx.source].balance >= total, TransactionExcessAbilityToPay);
      ValidateOps(l, cfg, tx.source, tx.ops)
  }

  /** A transaction passes exactly when each of its operations does and the rest of the checks hold. */
  lemma {:induction false} ValidateOpsIff(l: Ledger, cfg: Config, source: Address, ops: seq<Op>)
    requires source in l.book
    ensures ValidateOps(l, cfg, source, ops).Ok? <==> forall op :: op in ops ==> ValidateOp(l, cfg, source, op).Ok?
  {
    if ops != [] {
      ValidateOpsIff(l, cfg, source, ops[1..]);
      assert ops == [ops[0]] + ops[1..];
    }
  }

  /* ---- what a pass means ---- */

  /** `op` is the stored operation at a place. */
  predicate StoredAt(l: Ledger, ref: OpRef, op: Op) {
    ref.tx in l.txs && 0 <= ref.index < |l.txs[ref.tx]| && l.txs[ref.tx][ref.index] == op
  }

  /** A stored result that refers to a stored vote for exactly this funding. */
  ghost predicate BackedByVote(l: Ledger, funding: Address, amount: Amount, result: OpRef) {
    exists vote: OpRef ::
      && StoredAt(l, result, CongressVotingResult(Some(vote)))
      && StoredAt(l, vote, CongressVoting(funding, amount))
  }

  predicate Exists(l: Ledger, a: Address) { a in l.book && l.book[a].linked == "" }

  /** An account may spend if it is not frozen, or asked for unfreezing in its first operation long enough ago. */
  predicate MaySpend(l: Ledger, a: Address)
    requires a in l.book
  {
    l.book[a].linked == "" ||
    (&& l.OpsOf(a) != [] && l.OpsOf(a)[0].op == UnfreezeRequest
     && (l.height - l.OpsOf(a)[0].height) % TWO64 >= 241920)
  }

  ghost predicate Allowed(l: Ledger, cfg: Config, source: Address, op: Op)
    requires source in l.book
  {
    match op
    case CreateAccount(target, _, _) => target !in l.book && MaySpend(l, source)
    case Payment(target, _) => Exists(l, target) && MaySpend(l, source)
    case UnfreezeRequest =>
      l.book[source].linked != "" && (l.OpsOf(source) == [] || l.OpsOf(source)[0].op != UnfreezeRequest)
    case InflationPF(funding, amount, result) =>
      Exists(l, funding) && source == cfg.common && result.Some? && BackedByVote(l, funding, amount, result.value)
    case CongressVoting(_, _) => source == cfg.congress
    case CongressVotingResult(voting) =>
      source == cfg.congress && voting.Some? && exists vote :: StoredAt(l, voting.value, vote)
    case _ => false
  }

  lemma OpAtIff(l: Ledger, ref: OpRef, op: Op)
    ensures l.OpAt(ref) == Ok(op) <==> StoredAt(l, ref, op)
    ensures l.OpAt(ref).Ok? <==> exists any :: StoredAt(l, ref, any)
  {
    assert l.OpAt(ref).Ok? ==> StoredAt(l, ref, l.OpAt(ref).value);
  }

  lemma FundingVotedIff(l: Ledger, funding: Address, amount: Amount, result: Option<OpRef>)
    ensures FundingVoted(l, funding, amount, result).Ok? <==>
              result.Some? && BackedByVote(l, funding, amount, result.value)
  {
    if FundingVoted(l, funding, amount, result).Ok? {
      var vote := l.OpAt(result.value).value.voting.value;
      assert StoredAt(l, result.value, CongressVotingResult(Some(vote)));
      assert StoredAt(l, vote, CongressVoting(funding, amount));
    }
  }

  /** An operation passes if and only if the accounts, the stored votes and the recorded operations allow it. */
  lemma ValidateOpIff(l: Ledger, cfg: Config, source: Address, op: Op)
    requires source in l.book
    ensures ValidateOp(l, cfg, source, op).Ok? <==> Allowed(l, cfg, source, op)
  {
    match op {
      case InflationPF(funding, amount, result) => FundingVotedIff(l, funding, amount, result);
      case CongressVotingResult(voting) =>
        if voting.Some? {
          OpAtIff(l, voting.value, op);
        }
      case _ =>
    }
  }

  /** A transaction passes if and only if its source exists, is current and can pay, and every operation is allowed. */
  lemma ValidateTxIff(l: Ledger, cfg: Config, tx: Tx)
    ensures ValidateTx(l, cfg, tx).Ok? <==>
              && tx.source in l.book && tx.version == "1" && tx.sequenceId == l.book[tx.source].sequenceId
              && TotalAmount(tx).Ok? && TotalAmount(tx).value <= l.book[tx.source].balance
              && forall op :: op in tx.ops ==> Allowed(l, cfg, tx.source, op)
    ensures tx.source !in l.book ==> ValidateTx(l, cfg, tx) == Err(BlockAccountDoesNotExists)
    ensures tx.source in l.book && tx.version != "1" ==> ValidateTx(l, cfg, tx) == Err(InvalidMessageVersion)
    ensures tx.source in l.book && tx.version == "1" && tx.sequenceId != l.book[tx.source].sequenceId ==>
              ValidateTx(l, cfg, tx) == Err(TransactionInvalidSequenceID)
  {
    if tx.source in l.book {
      ValidateOpsIff(l, cfg, tx.source, tx.ops);
      forall op | op in tx.ops
        ensures ValidateOp(l, cfg, tx.source, op).Ok? <==> Allowed(l, cfg, tx.source, op)
      {
        ValidateOpIff(l, cfg, tx.source, op);
      }
    }
  }

  /** The errors of a funding that no vote backs: no reference, another amount, another account. */
  lemma FundingErrors(l: Ledger, funding: Address, amount: Amount, ref: OpRef, vote: OpRef, voted: Op)
    requires StoredAt(l, ref, CongressVotingResult(Some(vote))) && StoredAt(l, vote, voted) && voted.CongressVoting?
    ensures FundingVoted(l, funding, amount, None) == Err(InvalidOperation)
    ensures voted.amount != amount ==> FundingVoted(l, funding, amount, Some(ref)) == Err(InflationPFAmountMissMatched)
    ensures voted.amount == amount && voted.funding != funding ==>
              FundingVoted(l, funding, amount, Some(ref)) == Err(InflationPFFundingAddressMissMatched)
  {
  }

  /* ---- well-formedness of operations ---- */

  /** `int64(x) < 1` fails for zero and for anything from 2^63 on. */
  predicate PositiveInt64(x: Amount) { 1 <= x < TWO64 / 2 }

  predicate OpWellFormed(cfg: Config, op: Op)
    requires op.IsPayable()
  {
    match op
    case CreateAccount(target, amount, _) => cfg.parses(target) && PositiveInt64(amount) && amount >= BASE_RESERVE
    case Payment(target, amount) => cfg.parses(target) && PositiveInt64(amount)
    case CollectTxFee(target, amount, txs, _, blockHash, _) =>
      cfg.parses(target) && blockHash != "" && (txs == 0 ==> amount == 0)
    case Inflation(target, _, _, _, _, blockHash, _) => cfg.parses(target) && blockHash != ""
  }

  /** Same operation type and same target. */
  predicate SameKind(a: Op, b: Op)
    requires a.IsPayable() && b.IsPayable()
  {
    && a.target == b.target
    && a.CreateAccount? == b.CreateAccount? && a.Payment? == b.Payment? && a.CollectTxFee? == b.CollectTxFee?
  }

  /** No payment to oneself, every payable operation well-formed, and none repeated for one target. */
  predicate OperationsWellFormed(cfg: Config, source: Address, ops: seq<Op>) {
    && (forall i :: 0 <= i < |ops| && ops[i].IsPayable() ==> ops[i].target != source && OpWellFormed(cfg, ops[i]))
    && (forall i, j :: 0 <= i < j < |ops| && ops[i].IsPayable() && ops[j].IsPayable() ==> !SameKind(ops[i], ops[j]))
  }

  /** `CheckOperations`: one pass that remembers the kinds it has seen. */
  method CheckOperations(cfg: Config, source: Address, ops: seq<Op>) returns (ok: bool)
    ensures ok <==> OperationsWellFormed(cfg, source, ops)
  {
    var seen: seq<Op> := [];
    for i := 0 to |ops|
      invariant OperationsWellFormed(cfg, source, ops[..i])
      invariant forall s :: s in seen ==> s.IsPayable() && s in ops[..i]
      invariant forall k :: 0 <= k < i && ops[k].IsPayable() ==> ops[k] in seen
    {
      var op := ops[i];
      if op.IsPayable() {
        if source == op.target || !OpWellFormed(cfg, op) {
          return false;
        }
        if exists s :: s in seen && SameKind(s, op) {
          return false;
        }
        seen := seen + [op];
      }
    }
    assert ops[..|ops|] == ops;
    ok := true;
  }

  /** The smallest and largest amounts, and what counts as a repetition. */
  lemma OperationLimits(cfg: Config)
    requires cfg.parses("B") && cfg.parses("C")
    ensures forall x: Amount :: OperationsWellFormed(cfg, "A", [Payment("B", x)]) <==> 1 <= x < 0x8000_0000_0000_0000
    ensures forall x: Amount :: OperationsWellFormed(cfg, "A", [CreateAccount("B", x, "")])
              <==> 1_000_000 <= x < 0x8000_0000_0000_0000
    ensures !OperationsWellFormed(cfg, "A", [Payment("A", 1)])
    ensures !OperationsWellFormed(cfg, "A", [Payment("B", 1), Payment("B", 2)])
    ensures OperationsWellFormed(cfg, "A", [Payment("B", 1), Payment("C", 2), CreateAccount("B", 1_000_000, "")])
  {
    forall x: Amount ensures OperationsWellFormed(cfg, "A", [Payment("B", x)]) <==> 1 <= x < 0x8000_0000_0000_0000 {
      var ops := [Payment("B", x)];
      assert ops[0].IsPayable() && (OpWellFormed(cfg, ops[0]) <==> 1 <= x < 0x8000_0000_0000_0000);
    }
    forall x: Amount ensures OperationsWellFormed(cfg, "A", [CreateAccount("B", x, "")])
                             <==> 1_000_000 <= x < 0x8000_0000_0000_0000 {
      var ops := [CreateAccount("B", x, "")];
      assert ops[0].IsPayable() && (OpWellFormed(cfg, ops[0]) <==> 1_000_000 <= x < 0x8000_0000_0000_0000);
    }
    var self, twice := [Payment("A", 1)], [Payment("B", 1), Payment("B", 2)];
    assert self[0].IsPayable() && self[0].target == "A";
    assert twice[0].IsPayable() && twice[1].IsPayable() && SameKind(twice[0], twice[1]);
  }
}
