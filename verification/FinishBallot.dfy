/** Applying the transactions of a block to the accounts. */
module FinishBallot {
  import opened Amounts
  import opened Operations
  import opened Accounts

  /** The credit of `amount` to an existing account. */
  function Credit(book: Book, target: Address, amount: Amount): Result<Book> {
    if target !in book then Err(BlockAccountDoesNotExists)
    else
      var acct :- Deposit(book[target], amount);
      Ok(book[target := acct])
  }

  /** `finishOperation` */
  function FinishOp(book: Book, source: Address, op: Op): Result<Book> {
    match op
    case CreateAccount(target, amount, linked) =>
      if source !in book then Err(BlockAccountDoesNotExists)
      else if target in book then Err(BlockAccountAlreadyExists)
      else Ok(book[target := Account(amount, 0, linked)])
    case Payment(target, amount) =>
      if source !in book then Err(BlockAccountDoesNotExists) else Credit(book, target, amount)
    case CongressVoting(_, _) => Ok(book)
    case CongressVotingResult(_) => Ok(book)
    case UnfreezeRequest => Ok(book)
    case InflationPF(funding, amount, _) =>
      if amount < 1 then Ok(book) else Credit(book, funding, amount)
    case CollectTxFee(_, _, _, _, _, _) => Err(UnknownOperationType)
    case Inflation(_, _, _, _, _, _, _) => Err(UnknownOperationType)
  }

  function FinishOps(book: Book, source: Address, ops: seq<Op>): Result<Book>
    decreases |ops|
  {
    if ops == [] then Ok(book)
    else
      var next :- FinishOp(book, source, ops[0]);
      FinishOps(next, source, ops[1..])
  }

  /** The debit that closes a transaction. */
  function Settle(book: Book, tx: Tx): Result<Book> {
    if tx.source !in book then Err(BlockAccountDoesNotExists)
    else
      var total :- TotalAmount(tx);
      var acct :- Withdraw(book[tx.source], total);
      Ok(book[tx.source := IncreaseSequenceID(acct)])
  }

  /** One turn of `FinishTransactions`, as far as accounts go. */
  function FinishTx(book: Book, tx: Tx): Result<Book> {
    var _ :- TotalAmount(tx);
    var paid :- FinishOps(book, tx.source, tx.ops);
    Settle(paid, tx)
  }

  function FinishTxs(book: Book, txs: seq<Tx>): Result<Book>
    decreases |txs|
  {
    if txs == [] then Ok(book)
    else
      var next :- FinishTx(book, txs[0]);
      FinishTxs(next, txs[1..])
  }

  /** `ProcessProposerTransaction`: collect the fees, then mint the inflation; zero amounts touch no account. */
  function FinishProposer(book: Book, fee: Op, inflation: Op): Result<Book>
    requires fee.CollectTxFee? && inflation.Inflation?
  {
    var collected :- if fee.amount < 1 then Ok(book) else Credit(book, fee.target, fee.amount);
    if inflation.amount < 1 then Ok(collected) else Credit(collected, inflation.target, inflation.amount)
  }

  /** The accounts as the program keeps them. */
  class AccountStore {
    var book: Book

    constructor (book: Book)
      ensures this.book == book
    {
      this.book := book;
    }

    method CreditAccount(target: Address, amount: Amount) returns (r: Result<()>)
      modifies this
      ensures Credit(old(book), target, amount) ==
              if r.Ok? then Ok(book) else r.PropagateFailure<Book>()
      ensures !r.Ok? ==> book == old(book)
    {
      if target !in book {
        return Err(BlockAccountDoesNotExists);
      }
      var acct := book[target];
      var sum := Add(acct.balance, amount);
      if !sum.Ok? {
        return sum.PropagateFailure();
      }
      acct := acct.(balance := sum.value);
      book := book[target := acct];
      r := Ok(());
    }

    method FinishOperation(source: Address, op: Op) returns (r: Result<()>)
      modifies this
      ensures FinishOp(old(book), source, op) ==
              if r.Ok? then Ok(book) else r.PropagateFailure<Book>()
    {
      match op {
        case CreateAccount(target, amount, linked) =>
          if source !in book {
            return Err(BlockAccountDoesNotExists);
          }
          if target in book {
            return Err(BlockAccountAlreadyExists);
          }
          book := book[target := Account(amount, 0, linked)];
          r := Ok(());
        case Payment(target, amount) =>
          if source !in book {
            return Err(BlockAccountDoesNotExists);
          }
          r := CreditAccount(target, amount);
        case InflationPF(funding, amount, _) =>
          if amount < 1 {
            return Ok(());
          }
          r := CreditAccount(funding, amount);
        case CongressVoting(_, _) => r := Ok(());
        case CongressVotingResult(_) => r := Ok(());
        case UnfreezeRequest => r := Ok(());
        case _ => r := Err(UnknownOperationType);
      }
    }

    /** Each operation, and then the debit of the source. */
    method FinishTransaction(tx: Tx) returns (r: Result<()>)
      modifies this
      ensures FinishTx(old(book), tx) == if r.Ok? then Ok(book) else r.PropagateFailure<Book>()
    {
      var total := ComputeTotalAmount(tx);
      if !total.Ok? {
        return total.PropagateFailure();
      }
      for j := 0 to |tx.ops|
        invariant FinishOps(old(book), tx.source, tx.ops) == FinishOps(book, tx.source, tx.ops[j..])
      {
        assert tx.ops[j..][0] == tx.ops[j] && tx.ops[j..][1..] == tx.ops[j + 1..];
        r := FinishOperation(tx.source, tx.ops[j]);
        if !r.Ok? {
          return;
        }
      }
      if tx.source !in book {
        return Err(BlockAccountDoesNotExists);
      }
      var acct := book[tx.source];
      var rest := Sub(acct.balance, total.value);
      if !rest.Ok? {
        return rest.PropagateFailure();
      }
      acct := acct.(balance := rest.value);
      acct := acct.(sequenceId := (acct.sequenceId + 1) % TWO64);
      book := book[tx.source := acct];
      r := Ok(());
    }
  }

  /** An account that can pay its fee only from what its own transaction mints: credits come before the debit. */
  lemma CreditsComeFirst()
    ensures FinishTx(map["A" := Account(10, 0, "")], Tx("t", "1", "A", 20, 0, [InflationPF("A", 100, None)]))
            == Ok(map["A" := Account(90, 1, "")])
  {
    var book, tx := map["A" := Account(10, 0, "")], Tx("t", "1", "A", 20, 0, [InflationPF("A", 100, None)]);
    assert tx.ops[1..] == [];
    assert AccumulateAmount(0, tx.ops[1..]) == Ok(0);
    var paid := book["A" := Account(110, 0, "")];
    assert FinishOps(paid, "A", tx.ops[1..]) == Ok(paid);
    assert paid["A" := Account(90, 1, "")] == map["A" := Account(90, 1, "")];
  }

  /** Zero amounts ask for no account, others for an existing one. */
  lemma CreditNeedsAccount(book: Book, source: Address, a: Address, amount: Amount)
    requires a !in book
    ensures FinishOp(book, source, InflationPF(a, amount, None))
            == if amount == 0 then Ok(book) else Err(BlockAccountDoesNotExists)
    ensures !FinishOp(book, source, Payment(a, amount)).Ok?
    ensures !FinishOp(book, a, CreateAccount(source, amount, "")).Ok?
  {
  }
}
