/**
 Conservation of the supply by a whole block, and why a bound on the supply keeps every 64-bit
 addition exact.
 */
module Conservation {
  import opened Amounts
  import opened Operations
  import opened Accounts
  import opened FinishBallot
  import opened ClosedForm

  /* ---- runs in which no addition reaches 2^64 ---- */

  predicate CreditIsExact(book: Book, target: Address, amount: Amount) {
    target in book ==> book[target].balance + amount < TWO64
  }

  predicate OpExact(book: Book, op: Op) {
    match op
    case Payment(target, amount) => CreditIsExact(book, target, amount)
    case InflationPF(funding, amount, _) => CreditIsExact(book, funding, amount)
    case _ => true
  }

  predicate OpsExact(book: Book, source: Address, ops: seq<Op>)
    decreases |ops|
  {
    ops == [] ||
    (&& OpExact(book, ops[0])
     && (FinishOp(book, source, ops[0]).Ok? ==> OpsExact(FinishOp(book, source, ops[0]).value, source, ops[1..])))
  }

  predicate TxsExact(book: Book, txs: seq<Tx>)
    decreases |txs|
  {
    txs == [] ||
    (&& Total(txs[0]) < TWO64
     && OpsExact(book, txs[0].source, txs[0].ops)
     && (FinishTx(book, txs[0]).Ok? ==> TxsExact(FinishTx(book, txs[0]).value, txs[1..])))
  }

  /* ---- conservation ---- */

  lemma CreditConserves(book: Book, target: Address, amount: Amount)
    requires Credit(book, target, amount).Ok? && CreditIsExact(book, target, amount)
    ensures Sum(Credit(book, target, amount).value) == Sum(book) + amount
  {
    SumUpdate(book, target, Credit(book, target, amount).value[target]);
  }

  lemma OpConserves(book: Book, source: Address, op: Op)
    requires FinishOp(book, source, op).Ok? && OpExact(book, op)
    ensures Sum(FinishOp(book, source, op).value) == Sum(book) + Pays(op) + Mints(op)
  {
    match op {
      case CreateAccount(target, amount, linked) => SumInsert(book, target, Account(amount, 0, linked));
      case Payment(target, amount) => CreditConserves(book, target, amount);
      case InflationPF(funding, amount, _) =>
        if amount >= 1 {
          CreditConserves(book, funding, amount);
        }
      case _ =>
    }
  }

  lemma {:induction false} OpsConserve(book: Book, source: Address, ops: seq<Op>)
    requires FinishOps(book, source, ops).Ok? && OpsExact(book, source, ops)
    ensures Sum(FinishOps(book, source, ops).value) == Sum(book) + PayOps(ops) + MintOps(ops)
    decreases |ops|
  {
    if ops != [] {
      OpConserves(book, source, ops[0]);
      OpsConserve(FinishOp(book, source, ops[0]).value, source, ops[1..]);
    }
  }

  lemma {:induction false} AccumulateNoWrap(acc: Amount, ops: seq<Op>)
    requires acc + PayOps(ops) < TWO64 && AccumulateAmount(acc, ops).Ok?
    ensures AccumulateAmount(acc, ops).value == acc + PayOps(ops)
    decreases |ops|
  {
    if ops != [] {
      var next := if ops[0].IsPayable() then acc + ops[0].amount else acc;
      AccumulateNoWrap(next, ops[1..]);
    }
  }

  lemma TotalNoWrap(tx: Tx)
    requires Total(tx) < TWO64 && TotalAmount(tx).Ok?
    ensures TotalAmount(tx).value == Total(tx)
  {
    AccumulateNoWrap(0, tx.ops);
  }

  /** What the block takes out of the accounts beyond what it pays in: the fees, less the minting. */
  lemma {:induction false} TxsConserve(book: Book, txs: seq<Tx>)
    requires FinishTxs(book, txs).Ok? && TxsExact(book, txs)
    ensures Sum(FinishTxs(book, txs).value) + SumBy(txs, Fees()) == Sum(book) + SumBy(txs, Minted())
    decreases |txs|
  {
    if txs != [] {
      var tx := txs[0];
      OpsConserve(book, tx.source, tx.ops);
      TotalNoWrap(tx);
      var paid := FinishOps(book, tx.source, tx.ops).value;
      var next := FinishTx(book, tx).value;
      SumUpdate(paid, tx.source, next[tx.source]);
      TxsConserve(next, txs[1..]);
    }
  }

  /** A whole block: the transactions, then the collected fees and the inflation. */
  function FinishBlock(book: Book, txs: seq<Tx>, fee: Op, inflation: Op): Result<Book>
    requires fee.CollectTxFee? && inflation.Inflation?
  {
    var paid :- FinishTxs(book, txs);
    FinishProposer(paid, fee, inflation)
  }

  predicate ProposerExact(book: Book, fee: Op, inflation: Op)
    requires fee.CollectTxFee? && inflation.Inflation?
  {
    && CreditIsExact(book, fee.target, fee.amount)
    && (fee.amount < 1 ==> CreditIsExact(book, inflation.target, inflation.amount))
    && (Credit(book, fee.target, fee.amount).Ok? ==>
          CreditIsExact(Credit(book, fee.target, fee.amount).value, inflation.target, inflation.amount))
  }

  predicate BlockExact(book: Book, txs: seq<Tx>, fee: Op, inflation: Op)
    requires fee.CollectTxFee? && inflation.Inflation?
  {
    && TxsExact(book, txs)
    && (FinishTxs(book, txs).Ok? ==> ProposerExact(FinishTxs(book, txs).value, fee, inflation))
  }

  lemma ProposerConserves(book: Book, fee: Op, inflation: Op)
    requires fee.CollectTxFee? && inflation.Inflation?
    requires FinishProposer(book, fee, inflation).Ok? && ProposerExact(book, fee, inflation)
    ensures Sum(FinishProposer(book, fee, inflation).value) == Sum(book) + fee.amount + inflation.amount
  {
    var collected := book;
    if fee.amount >= 1 {
      CreditConserves(book, fee.target, fee.amount);
      collected := Credit(book, fee.target, fee.amount).value;
    }
    if inflation.amount >= 1 {
      CreditConserves(collected, inflation.target, inflation.amount);
    }
  }

  /**
   Conservation per block: for any mix of operations, the balances after a finished block sum to the
   balances before it plus the inflation and the public funding it mints.
   */
  lemma BlockConserves(book: Book, txs: seq<Tx>, fee: Op, inflation: Op)
    requires fee.CollectTxFee? && inflation.Inflation?
    requires FinishBlock(book, txs, fee, inflation).Ok? && BlockExact(book, txs, fee, inflation)
    requires fee.amount == SumBy(txs, Fees())
    ensures Sum(FinishBlock(book, txs, fee, inflation).value)
            == Sum(book) + inflation.amount + SumBy(txs, Minted())
  {
    TxsConserve(book, txs);
    ProposerConserves(FinishTxs(book, txs).value, fee, inflation);
  }

  /* ---- arithmetic safety from the supply ---- */

  lemma {:induction false} FlowIsExact(book: Book, source: Address, ops: seq<Op>, credited: nat, bound: nat)
    requires Flow(book, source, ops, credited, bound)
    ensures OpsExact(book, source, ops)
    decreases |ops|
  {
    if ops != [] {
      CreditFits(book, source, ops, credited, bound);
      OpStep(book, source, ops, credited, bound);
      var next := FinishOp(book, source, ops[0]).value;
      FlowStep(book, source, ops, credited, bound, next);
      FlowIsExact(next, source, ops[1..], credited + Pays(ops[0]), bound);
    }
  }

  lemma {:induction false} ReadyIsExact(book: Book, txs: seq<Tx>)
    requires BlockReady(book, txs) && NoAccountCreatedTwice(txs)
    ensures TxsExact(book, txs)
    decreases |txs|
  {
    if txs != [] {
      forall a ensures CreationsOps(txs[0].ops, a) <= 1 && (a in book ==> CreationsOps(txs[0].ops, a) == 0) {
        assert SumBy(txs, CreationsOf(a)) <= 1;
      }
      assert TxReady(book, txs[0]);
      SumBounds(book, txs[0].source, txs[0].source);
      FlowIsExact(book, txs[0].source, txs[0].ops, 0, MAXIMUM_BALANCE);
      TxFlow(book, txs[0], MAXIMUM_BALANCE);
      var next := FinishTx(book, txs[0]).value;
      RestReady(book, txs, next);
      ReadyIsExact(next, txs[1..]);
    }
  }

  /**
   Arithmetic safety: while the supply plus everything the block mints stays under the ceiling, no step
   of the block errs and no addition reaches 2^64, although targets are credited before sources are debited.
   */
  lemma SupplyKeepsBlockExact(book: Book, txs: seq<Tx>, fee: Op, inflation: Op)
    requires fee.CollectTxFee? && inflation.Inflation?
    requires BlockReady(book, txs) && NoAccountCreatedTwice(txs)
    requires fee.amount == SumBy(txs, Fees()) && fee.target in book && inflation.target in book
    requires Sum(book) + SumBy(txs, Minted()) + inflation.amount <= MAXIMUM_BALANCE
    ensures FinishBlock(book, txs, fee, inflation).Ok? && BlockExact(book, txs, fee, inflation)
    ensures Sum(FinishBlock(book, txs, fee, inflation).value)
            == Sum(book) + inflation.amount + SumBy(txs, Minted())
  {
    BlockFlow(book, txs);
    ReadyIsExact(book, txs);
    var paid := FinishTxs(book, txs).value;
    ProposerFits(paid, fee, inflation);
    BlockConserves(book, txs, fee, inflation);
  }

  lemma ProposerFits(book: Book, fee: Op, inflation: Op)
    requires fee.CollectTxFee? && inflation.Inflation? && fee.target in book && inflation.target in book
    requires Sum(book) + fee.amount + inflation.amount <= MAXIMUM_BALANCE
    ensures FinishProposer(book, fee, inflation).Ok? && ProposerExact(book, fee, inflation)
  {
    SumBounds(book, fee.target, inflation.target);
    CreditExact(book, fee.target, fee.amount);
    var collected := Credit(book, fee.target, fee.amount).value;
    SumBounds(book, inflation.target, inflation.target);
    SumBounds(collected, inflation.target, inflation.target);
  }
}
