/** Operations and transactions, and the amounts they move. */
module Operations {
  import opened Amounts

  type Address = string
  type Hash = string

  datatype Option<T> = None | Some(value: T)

  /** A reference "<tx hash>-<index>" to a stored operation. */
  datatype OpRef = OpRef(tx: Hash, index: int)

  /** An operation whose header type matches its body. A reference that does not parse is `None`. */
  datatype Op =
    | CreateAccount(target: Address, amount: Amount, linked: Address)
    | Payment(target: Address, amount: Amount)
    | CongressVoting(funding: Address, amount: Amount)
    | CongressVotingResult(voting: Option<OpRef>)
    | CollectTxFee(target: Address, amount: Amount, txs: Amount, height: nat, blockHash: Hash, totalTxs: nat)
    | Inflation(target: Address, amount: Amount, initialBalance: Amount, ratio: string,
                height: nat, blockHash: Hash, totalTxs: nat)
    | UnfreezeRequest
    | InflationPF(funding: Address, amount: Amount, result: Option<OpRef>)
  {
    /** The interface `Payable`: a target and an amount that the source pays. */
    predicate IsPayable() { CreateAccount? || Payment? || CollectTxFee? || Inflation? }

    predicate IsNormal() { !CollectTxFee? && !Inflation? }
  }

  datatype Tx = Tx(hash: Hash, version: string, source: Address, fee: Amount, sequenceId: Amount, ops: seq<Op>)

  /* ---- integer amounts ---- */

  /** What the source pays for the operations. */
  function PayOps(ops: seq<Op>): nat {
    if ops == [] then 0 else (if ops[0].IsPayable() then ops[0].amount else 0) + PayOps(ops[1..])
  }

  /** The integer total of a transaction, fee included. */
  function Total(tx: Tx): nat { PayOps(tx.ops) + tx.fee }

  /** What the operations mint: the funding of `InflationPF`. */
  function MintOps(ops: seq<Op>): nat {
    if ops == [] then 0 else (if ops[0].InflationPF? then ops[0].amount else 0) + MintOps(ops[1..])
  }

  /* ---- the program's 64-bit total ---- */

  /** The accumulating loop of `TotalAmount`, started at `acc`. */
  function AccumulateAmount(acc: Amount, ops: seq<Op>): Result<Amount>
    decreases |ops|
  {
    if ops == [] then Ok(acc)
    else
      var next :- if ops[0].IsPayable() then MustAdd(acc, ops[0].amount) else Ok(acc);
      AccumulateAmount(next, ops[1..])
  }

  function TotalAmount(tx: Tx): Result<Amount> {
    var amount :- AccumulateAmount(0, tx.ops);
    MustAdd(amount, tx.fee)
  }

  method ComputeTotalAmount(tx: Tx) returns (r: Result<Amount>)
    ensures r == TotalAmount(tx)
  {
    var amount: Amount := 0;
    for i := 0 to |tx.ops|
      invariant AccumulateAmount(0, tx.ops) == AccumulateAmount(amount, tx.ops[i..])
    {
      assert tx.ops[i..][1..] == tx.ops[i + 1..];
      if tx.ops[i].IsPayable() {
        var sum := MustAdd(amount, tx.ops[i].amount);
        if !sum.Ok? {
          return sum.PropagateFailure();
        }
        amount := sum.value;
      }
    }
    r := MustAdd(amount, tx.fee);
  }

  lemma {:induction false} AccumulateExact(acc: Amount, ops: seq<Op>)
    requires acc + PayOps(ops) <= MAXIMUM_BALANCE
    ensures AccumulateAmount(acc, ops) == Ok(acc + PayOps(ops))
    decreases |ops|
  {
    if ops != [] {
      var next := if ops[0].IsPayable() then acc + ops[0].amount else acc;
      AccumulateExact(next, ops[1..]);
    }
  }

  /** The computed total is the integer total exactly when that does not pass the ceiling. */
  lemma TotalAmountExactIff(tx: Tx)
    ensures TotalAmount(tx) == Ok(Total(tx)) <==> Total(tx) <= MAXIMUM_BALANCE
  {
    if Total(tx) <= MAXIMUM_BALANCE {
      AccumulateExact(0, tx.ops);
    } else {
      CeilingHolds(tx);
    }
  }

  lemma CeilingHolds(tx: Tx)
    ensures TotalAmount(tx).Ok? ==> TotalAmount(tx).value <= MAXIMUM_BALANCE
  {
  }
}
