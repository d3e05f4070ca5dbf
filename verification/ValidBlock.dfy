/** From the checks on the transactions of a block to what the block does to the accounts. */
module ValidBlock {
  import opened Amounts
  import opened Operations
  import opened Accounts
  import opened FinishBallot
  import opened ClosedForm
  import opened Conservation
  import opened Validation

  /** A well-formed transaction that passes on the accounts before the block. */
  predicate Passed(l: Ledger, cfg: Config, tx: Tx) {
    ValidateTx(l, cfg, tx).Ok? && OperationsWellFormed(cfg, tx.source, tx.ops)
  }

  /** Passed transactions of different sources, and a supply that stays under the ceiling. */
  ghost predicate PassedBlock(l: Ledger, cfg: Config, txs: seq<Tx>) {
    && (forall tx :: tx in txs ==> Passed(l, cfg, tx))
    && (forall i, j :: 0 <= i < j < |txs| ==> txs[i].source != txs[j].source)
    && Sum(l.book) + SumBy(txs, Minted()) <= MAXIMUM_BALANCE
  }

  /** What a caller can check beforehand: no integer total passes the ceiling. */
  predicate TotalsFit(txs: seq<Tx>) {
    forall tx :: tx in txs ==> Total(tx) <= MAXIMUM_BALANCE
  }

  /* ---- what passing means for the accounts ---- */

  /** The operations fit the accounts, and the source covers the total if the total is exact. */
  predicate Covered(book: Book, tx: Tx) {
    && tx.source in book
    && (forall op :: op in tx.ops ==> OpReady(book, tx.source, op))
    && (Total(tx) <= MAXIMUM_BALANCE ==> Total(tx) <= book[tx.source].balance)
  }

  /** A block whose transactions passed, as far as the accounts go. */
  ghost predicate Passing(book: Book, txs: seq<Tx>) {
    && (forall tx :: tx in txs ==> Covered(book, tx))
    && (forall a :: SumBy(txs, SentBy(a)) <= 1)
    && (forall a :: a in book ==> SumBy(txs, CreationsOf(a)) == 0)
    && Sum(book) + SumBy(txs, Minted()) <= MAXIMUM_BALANCE
  }

  lemma PassedIsCovered(l: Ledger, cfg: Config, tx: Tx)
    requires Passed(l, cfg, tx)
    ensures Covered(l.book, tx)
    ensures forall op :: op in tx.ops && op.CreateAccount? ==> op.target !in l.book
  {
    TotalAmountExactIff(tx);
    ValidateOpsIff(l, cfg, tx.source, tx.ops);
    forall op | op in tx.ops
      ensures OpReady(l.book, tx.source, op) && (op.CreateAccount? ==> op.target !in l.book)
    {
      assert ValidateOp(l, cfg, tx.source, op).Ok?;
      var i :| 0 <= i < |tx.ops| && tx.ops[i] == op;
    }
  }

  lemma {:induction false} SentOnce(txs: seq<Tx>, a: Address)
    requires forall i, j :: 0 <= i < j < |txs| ==> txs[i].source != txs[j].source
    ensures SumBy(txs, SentBy(a)) <= 1
    ensures (forall i :: 0 <= i < |txs| ==> txs[i].source != a) ==> SumBy(txs, SentBy(a)) == 0
    decreases |txs|
  {
    if txs != [] {
      SentOnce(txs[1..], a);
    }
  }

  lemma CreatesOnlyNew(l: Ledger, cfg: Config, txs: seq<Tx>, a: Address)
    requires (forall tx :: tx in txs ==> Passed(l, cfg, tx)) && a in l.book
    ensures SumBy(txs, CreationsOf(a)) == 0
  {
    if Creates(txs, a) {
      var tx, op := CreatesWitness(txs, a);
      PassedIsCovered(l, cfg, tx);
      assert false;
    }
  }

  lemma PassedBlockIsPassing(l: Ledger, cfg: Config, txs: seq<Tx>)
    requires PassedBlock(l, cfg, txs)
    ensures Passing(l.book, txs)
  {
    forall tx | tx in txs ensures Covered(l.book, tx) {
      PassedIsCovered(l, cfg, tx);
    }
    forall a ensures SumBy(txs, SentBy(a)) <= 1 {
      SentOnce(txs, a);
    }
    forall a | a in l.book ensures SumBy(txs, CreationsOf(a)) == 0 {
      CreatesOnlyNew(l, cfg, txs, a);
    }
  }

  lemma PassingIsReady(book: Book, txs: seq<Tx>)
    requires Passing(book, txs) && TotalsFit(txs)
    ensures BlockReady(book, txs)
  {
    forall tx | tx in txs ensures TxReady(book, tx) {
      assert Covered(book, tx);
    }
  }

  /* ---- exactly when a block does what it says ---- */

  /** Each transaction in turn is applied, and does to the accounts it meets what its integer amounts say. */
  ghost predicate AppliedExactly(book: Book, txs: seq<Tx>)
    decreases |txs|
  {
    txs == [] ||
    (&& FinishTx(book, txs[0]).Ok?
     && TxEffect(book, txs[0], FinishTx(book, txs[0]).value)
     && AppliedExactly(FinishTx(book, txs[0]).value, txs[1..]))
  }

  lemma {:induction false} AppliedSucceeds(book: Book, txs: seq<Tx>)
    requires AppliedExactly(book, txs)
    ensures FinishTxs(book, txs).Ok?
    decreases |txs|
  {
    if txs != [] {
      AppliedSucceeds(FinishTx(book, txs[0]).value, txs[1..]);
    }
  }

  lemma {:induction false} ReadyIsApplied(book: Book, txs: seq<Tx>)
    requires BlockReady(book, txs) && NoAccountCreatedTwice(txs)
    ensures AppliedExactly(book, txs)
    decreases |txs|
  {
    if txs != [] {
      FirstCreations(book, txs);
      assert TxReady(book, txs[0]);
      TxFlow(book, txs[0], MAXIMUM_BALANCE);
      RestReady(book, txs, FinishTx(book, txs[0]).value);
      ReadyIsApplied(FinishTx(book, txs[0]).value, txs[1..]);
    }
  }

  lemma FirstCreations(book: Book, txs: seq<Tx>)
    requires txs != [] && NoAccountCreatedTwice(txs) && forall a :: a in book ==> SumBy(txs, CreationsOf(a)) == 0
    ensures forall a :: CreationsOps(txs[0].ops, a) <= 1 && (a in book ==> CreationsOps(txs[0].ops, a) == 0)
  {
    forall a ensures CreationsOps(txs[0].ops, a) <= 1 && (a in book ==> CreationsOps(txs[0].ops, a) == 0) {
      assert SumBy(txs, CreationsOf(a)) <= 1;
    }
  }

  /** A source is credited by its own operations with nothing but what they mint. */
  lemma {:induction false} OwnCredit(book: Book, source: Address, ops: seq<Op>)
    requires forall op :: op in ops ==> OpReady(book, source, op)
    ensures CreditOps(ops, source) <= MintOps(ops)
    decreases |ops|
  {
    if ops != [] {
      assert OpReady(book, source, ops[0]);
      OwnCredit(book, source, ops[1..]);
    }
  }

  /** A total above the ceiling cannot be taken from any account in full. */
  lemma EffectFits(book: Book, tx: Tx, after: Book)
    requires Covered(book, tx) && TxEffect(book, tx, after) && Sum(book) + MintOps(tx.ops) <= MAXIMUM_BALANCE
    ensures Total(tx) <= MAXIMUM_BALANCE
  {
    OwnCredit(book, tx.source, tx.ops);
    SumBounds(book, tx.source, tx.source);
    assert tx.source in after;
  }

  lemma RestPassing(book: Book, txs: seq<Tx>, next: Book)
    requires txs != [] && Passing(book, txs) && NoAccountCreatedTwice(txs)
    requires TxEffect(book, txs[0], next) && Sum(next) <= Sum(book) + MintOps(txs[0].ops)
    ensures Passing(next, txs[1..]) && NoAccountCreatedTwice(txs[1..])
  {
    forall tx | tx in txs[1..] ensures Covered(next, tx) {
      assert Covered(book, tx);
      SumByMember(txs[1..], tx, SentBy(tx.source));
      assert SumBy(txs, SentBy(tx.source)) <= 1;
      assert tx.source != txs[0].source;
      forall op | op in tx.ops ensures OpReady(next, tx.source, op) {
        assert OpReady(book, tx.source, op);
      }
    }
    forall a ensures SumBy(txs[1..], SentBy(a)) <= 1 {
      assert SumBy(txs, SentBy(a)) <= 1;
    }
    forall a ensures SumBy(txs[1..], CreationsOf(a)) <= 1 && (a in next ==> SumBy(txs[1..], CreationsOf(a)) == 0) {
      assert SumBy(txs, CreationsOf(a)) <= 1;
    }
  }

  lemma {:induction false} AppliedFits(book: Book, txs: seq<Tx>)
    requires Passing(book, txs) && NoAccountCreatedTwice(txs) && AppliedExactly(book, txs)
    ensures TotalsFit(txs)
    decreases |txs|
  {
    if txs != [] {
      var next := FinishTx(book, txs[0]).value;
      assert Covered(book, txs[0]);
      EffectFits(book, txs[0], next);
      FirstCreations(book, txs);
      TxFlow(book, txs[0], MAXIMUM_BALANCE);
      RestPassing(book, txs, next);
      AppliedFits(next, txs[1..]);
    }
  }

  /**
   A block of passed transactions of different sources is applied with every transaction doing what its
   amounts say, if and only if no account is created twice and no total passes the ceiling.
   */
  lemma PassedBlockExactIff(l: Ledger, cfg: Config, txs: seq<Tx>)
    requires PassedBlock(l, cfg, txs)
    ensures AppliedExactly(l.book, txs) <==> NoAccountCreatedTwice(txs) && TotalsFit(txs)
  {
    PassedBlockIsPassing(l, cfg, txs);
    if NoAccountCreatedTwice(txs) && TotalsFit(txs) {
      PassingIsReady(l.book, txs);
      ReadyIsApplied(l.book, txs);
    }
    if AppliedExactly(l.book, txs) {
      AppliedSucceeds(l.book, txs);
      forall a ensures SumBy(txs, CreationsOf(a)) <= 1 {
        AppliedCreatesOnce(l.book, txs, a);
      }
      AppliedFits(l.book, txs);
    }
  }

  /* ---- one transaction ---- */

  lemma {:induction false} NotCreated(ops: seq<Op>, a: Address)
    requires forall op :: op in ops ==> !(op.CreateAccount? && op.target == a)
    ensures CreationsOps(ops, a) == 0
    decreases |ops|
  {
    if ops != [] {
      NotCreated(ops[1..], a);
    }
  }

  /** One transaction creates an account at most once. */
  lemma {:induction false} CreatedOnce(cfg: Config, source: Address, ops: seq<Op>, a: Address)
    requires OperationsWellFormed(cfg, source, ops)
    ensures CreationsOps(ops, a) <= 1
    decreases |ops|
  {
    if ops != [] {
      RestWellFormed(cfg, source, ops);
      CreatedOnce(cfg, source, ops[1..], a);
      if ops[0].CreateAccount? && ops[0].target == a {
        forall op | op in ops[1..] ensures !(op.CreateAccount? && op.target == a) {
          var i :| 0 <= i < |ops[1..]| && ops[1..][i] == op;
          assert op.IsPayable() ==> !SameKind(ops[0], ops[i + 1]);
        }
        NotCreated(ops[1..], a);
      }
    }
  }

  lemma RestWellFormed(cfg: Config, source: Address, ops: seq<Op>)
    requires ops != [] && OperationsWellFormed(cfg, source, ops)
    ensures OperationsWellFormed(cfg, source, ops[1..])
  {
    forall i, j | 0 <= i < j < |ops[1..]| && ops[1..][i].IsPayable() && ops[1..][j].IsPayable()
      ensures !SameKind(ops[1..][i], ops[1..][j])
    {
      assert ops[1..][i] == ops[i + 1] && ops[1..][j] == ops[j + 1];
    }
  }

  /** A passed transaction is applied and does what its amounts say, if and only if its total fits. */
  lemma PassedTxExactIff(l: Ledger, cfg: Config, tx: Tx)
    requires Passed(l, cfg, tx) && Sum(l.book) + MintOps(tx.ops) <= MAXIMUM_BALANCE
    ensures FinishTx(l.book, tx).Ok? && TxEffect(l.book, tx, FinishTx(l.book, tx).value)
            <==> Total(tx) <= MAXIMUM_BALANCE
  {
    OneTransaction(tx);
    assert SumBy([tx], Minted()) == MintOps(tx.ops);
    PassedBlockExactIff(l, cfg, [tx]);
    forall a ensures SumBy([tx], CreationsOf(a)) <= 1 {
      CreatedOnce(cfg, tx.source, tx.ops, a);
    }
    assert tx in [tx];
  }

  lemma OneTransaction(tx: Tx)
    ensures [tx][1..] == [] && forall f :: SumBy([tx], f) == f(tx)
    ensures forall book: Book :: AppliedExactly(book, [tx])
              <==> FinishTx(book, tx).Ok? && TxEffect(book, tx, FinishTx(book, tx).value)
  {
    assert [tx][1..] == [];
    forall f: Tx -> nat ensures SumBy([tx], f) == f(tx) {
      assert SumBy([tx][1..], f) == 0;
    }
  }

  /* ---- blocks that do ---- */

  /**
   Passed transactions whose totals fit are applied exactly when no account is created twice; then every
   account ends at the closed form and any order of the transactions ends at the same accounts.
   */
  lemma PassedBlockApplies(l: Ledger, cfg: Config, txs: seq<Tx>, other: seq<Tx>)
    requires PassedBlock(l, cfg, txs) && TotalsFit(txs) && multiset(txs) == multiset(other)
    ensures FinishTxs(l.book, txs).Ok? <==> NoAccountCreatedTwice(txs)
    ensures NoAccountCreatedTwice(txs) ==>
              && IsClosedForm(l.book, txs, FinishTxs(l.book, txs).value)
              && FinishTxs(l.book, other) == FinishTxs(l.book, txs)
  {
    PassedBlockIsPassing(l, cfg, txs);
    PassingIsReady(l.book, txs);
    BlockSucceedsIff(l.book, txs);
    if NoAccountCreatedTwice(txs) {
      BlockFlow(l.book, txs);
      OrderDoesNotMatter(l.book, txs, other);
    }
  }

  /**
   Such a block with its collected fees and inflation: nothing errs, nothing wraps, and the supply grows
   by the minting.
   */
  lemma PassedBlockConserves(l: Ledger, cfg: Config, txs: seq<Tx>, fee: Op, inflation: Op)
    requires PassedBlock(l, cfg, txs) && TotalsFit(txs) && NoAccountCreatedTwice(txs)
    requires fee.CollectTxFee? && inflation.Inflation? && fee.target in l.book && inflation.target in l.book
    requires fee.amount == SumBy(txs, Fees())
    requires Sum(l.book) + SumBy(txs, Minted()) + inflation.amount <= MAXIMUM_BALANCE
    ensures FinishBlock(l.book, txs, fee, inflation).Ok? && BlockExact(l.book, txs, fee, inflation)
    ensures Sum(FinishBlock(l.book, txs, fee, inflation).value)
            == Sum(l.book) + inflation.amount + SumBy(txs, Minted())
  {
    PassedBlockIsPassing(l, cfg, txs);
    PassingIsReady(l.book, txs);
    SupplyKeepsBlockExact(l.book, txs, fee, inflation);
  }

  /* ---- inputs at which a passed block does not do what it says ---- */

  const SOME_CONFIG := Config("common", "congress", (a: Address) => true)

  const PAYEES: Book := map["A" := Account(3 * 100_000_000_000_000_000, 0, ""), "B" := Account(0, 0, ""),
                            "C" := Account(0, 0, ""), "D" := Account(0, 0, "")]

  /** Three payments of 9, 0.5 and 9.2 times 10^18, a total past 2^64. */
  const WRAPPING := Tx("t", TRANSACTION_VERSION, "A", 30_000, 0,
                       [Payment("B", 9_000_000_000_000_000_000), Payment("C", 500_000_000_000_000_000),
                        Payment("D", 9_200_000_000_000_000_000)])

  lemma WrappingAmounts()
    ensures PayOps(WRAPPING.ops) == 18_700_000_000_000_000_000 && MintOps(WRAPPING.ops) == 0
    ensures TotalAmount(WRAPPING) == Ok(18_700_000_000_000_030_000 - TWO64)
  {
    var ops := WRAPPING.ops;
    assert ops[1..] == [ops[1], ops[2]] && ops[1..][1..] == [ops[2]] && [ops[2]][1..] == [];
    assert PayOps([ops[2]]) == ops[2].amount && PayOps(ops[1..]) == ops[1].amount + ops[2].amount;
    assert MintOps([ops[2]]) == 0 && MintOps(ops[1..]) == 0;
    var one: Amount := ops[0].amount;
    var two: Amount := ops[0].amount + ops[1].amount;
    assert AccumulateAmount(two, [ops[2]]) == Ok(18_700_000_000_000_000_000 - TWO64);
    assert AccumulateAmount(one, ops[1..]) == AccumulateAmount(two, [ops[2]]);
  }

  lemma WrappingPasses(l: Ledger)
    requires l.book == PAYEES
    ensures Passed(l, SOME_CONFIG, WRAPPING)
  {
    WrappingAmounts();
    ValidateOpsIff(l, SOME_CONFIG, "A", WRAPPING.ops);
  }

  lemma WrappingPays()
    ensures FinishOps(PAYEES, "A", WRAPPING.ops)
            == Ok(PAYEES["B" := Account(WRAPPING.ops[0].amount, 0, "")]["C" := Account(WRAPPING.ops[1].amount, 0, "")]
                        ["D" := Account(WRAPPING.ops[2].amount, 0, "")])
    ensures OpsExact(PAYEES, "A", WRAPPING.ops)
  {
    var ops := WRAPPING.ops;
    var b := PAYEES["B" := Account(ops[0].amount, 0, "")];
    var c := b["C" := Account(ops[1].amount, 0, "")];
    assert ops[1..] == [ops[1], ops[2]] && ops[1..][1..] == [ops[2]] && [ops[2]][1..] == [];
    assert FinishOps(c, "A", [ops[2]]) == Ok(c["D" := Account(ops[2].amount, 0, "")]) && OpsExact(c, "A", [ops[2]]);
    assert FinishOps(b, "A", ops[1..]) == FinishOps(c, "A", [ops[2]]) && OpsExact(b, "A", ops[1..]);
  }

  /** The three payments pass, arrive in full, and cost their sender 2^64 less than they bring. */
  lemma WrappingIsApplied(l: Ledger)
    requires l.book == PAYEES
    ensures Passed(l, SOME_CONFIG, WRAPPING) && FinishTx(l.book, WRAPPING).Ok?
    ensures Sum(FinishTx(l.book, WRAPPING).value) == Sum(l.book) + TWO64 - WRAPPING.fee
  {
    WrappingPasses(l);
    WrappingAmounts();
    WrappingPays();
    OpsConserve(PAYEES, "A", WRAPPING.ops);
    var paid := FinishOps(PAYEES, "A", WRAPPING.ops).value;
    SumUpdate(paid, "A", FinishTx(PAYEES, WRAPPING).value["A"]);
  }

  const PAIR: Book := map["A" := Account(10_000_000, 0, ""), "B" := Account(10_000_000, 0, "")]

  function Creation(hash: Hash, source: Address): Tx {
    Tx(hash, TRANSACTION_VERSION, source, 10_000, 0, [CreateAccount("N", BASE_RESERVE, "")])
  }

  lemma CreationPasses(l: Ledger, hash: Hash, source: Address)
    requires l.book == PAIR && source in PAIR
    ensures Passed(l, SOME_CONFIG, Creation(hash, source))
  {
    var ops := [CreateAccount("N", BASE_RESERVE, "")];
    assert ops[1..] == [];
    assert AccumulateAmount(BASE_RESERVE, ops[1..]) == Ok(BASE_RESERVE);
    ValidateOpsIff(l, SOME_CONFIG, source, ops);
  }

  /** Two sources that create one account: both transactions pass, and the block fails. */
  lemma TwoCreationsFail(l: Ledger)
    requires l.book == PAIR
    ensures Passed(l, SOME_CONFIG, Creation("t", "A")) && Passed(l, SOME_CONFIG, Creation("u", "B"))
    ensures !FinishTxs(l.book, [Creation("t", "A"), Creation("u", "B")]).Ok?
  {
    CreationPasses(l, "t", "A");
    CreationPasses(l, "u", "B");
    var txs := [Creation("t", "A"), Creation("u", "B")];
    assert txs[1..] == [txs[1]] && [txs[1]][1..] == [];
    CreatesN("t", "A");
    CreatesN("u", "B");
    assert SumBy([txs[1]], CreationsOf("N")) == 1;
    assert SumBy(txs, CreationsOf("N")) == 2;
    if FinishTxs(l.book, txs).Ok? {
      AppliedCreatesOnce(l.book, txs, "N");
    }
  }

  lemma CreatesN(hash: Hash, source: Address)
    ensures CreationsOf("N")(Creation(hash, source)) == 1
  {
    var ops := Creation(hash, source).ops;
    assert ops[1..] == [];
    assert CreationsOps(ops[1..], "N") == 0;
    assert CreationsOps(ops, "N") == 1;
  }
}
