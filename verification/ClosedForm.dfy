/**
 The net effect of a block on the accounts, in closed form, and when applying the block succeeds.
 */
module ClosedForm {
  import opened Amounts
  import opened Operations
  import opened Accounts
  import opened FinishBallot

  /* ---- per-transaction quantities ---- */

  function CreditOp(op: Op, a: Address): nat {
    match op
    case CreateAccount(target, amount, _) => if target == a then amount else 0
    case Payment(target, amount) => if target == a then amount else 0
    case InflationPF(funding, amount, _) => if funding == a then amount else 0
    case _ => 0
  }

  function CreditOps(ops: seq<Op>, a: Address): nat {
    if ops == [] then 0 else CreditOp(ops[0], a) + CreditOps(ops[1..], a)
  }

  function CreationsOps(ops: seq<Op>, a: Address): nat {
    if ops == [] then 0
    else (if ops[0].CreateAccount? && ops[0].target == a then 1 else 0) + CreationsOps(ops[1..], a)
  }

  /** Sum of a quantity over the transactions of a block. */
  function SumBy(txs: seq<Tx>, f: Tx -> nat): nat {
    if txs == [] then 0 else f(txs[0]) + SumBy(txs[1..], f)
  }

  function CreditTo(a: Address): Tx -> nat { (tx: Tx) => CreditOps(tx.ops, a) }
  function DebitOf(a: Address): Tx -> nat { (tx: Tx) => if tx.source == a then Total(tx) else 0 }
  function SentBy(a: Address): Tx -> nat { (tx: Tx) => if tx.source == a then 1 else 0 }
  function CreationsOf(a: Address): Tx -> nat { (tx: Tx) => CreationsOps(tx.ops, a) }
  function Minted(): Tx -> nat { (tx: Tx) => MintOps(tx.ops) }
  function Fees(): Tx -> nat { (tx: Tx) => tx.fee }

  /** Sums do not depend on the order of the transactions. */
  lemma {:induction false} SumByPermuted(txs: seq<Tx>, other: seq<Tx>, f: Tx -> nat)
    requires multiset(txs) == multiset(other)
    ensures SumBy(txs, f) == SumBy(other, f)
    decreases |txs|
  {
    if txs == [] {
      assert |multiset(other)| == 0;
    } else {
      assert txs[0] in multiset(other);
      var k :| 0 <= k < |other| && other[k] == txs[0];
      SumByRemove(other, k, f);
      assert txs == [txs[0]] + txs[1..];
      assert other == other[..k] + [other[k]] + other[k + 1..];
      assert multiset(txs) == multiset{txs[0]} + multiset(txs[1..]);
      assert multiset(other) == multiset(other[..k]) + multiset{other[k]} + multiset(other[k + 1..]);
      assert multiset(txs[1..]) == multiset(txs) - multiset{txs[0]};
      assert multiset(other[..k] + other[k + 1..]) == multiset(other) - multiset{other[k]};
      SumByPermuted(txs[1..], other[..k] + other[k + 1..], f);
    }
  }

  lemma {:induction false} SumByRemove(txs: seq<Tx>, k: nat, f: Tx -> nat)
    requires k < |txs|
    ensures SumBy(txs, f) == f(txs[k]) + SumBy(txs[..k] + txs[k + 1..], f)
    decreases |txs|
  {
    if k == 0 {
      assert txs[..k] + txs[k + 1..] == txs[1..];
    } else {
      SumByRemove(txs[1..], k - 1, f);
      assert (txs[..k] + txs[k + 1..])[1..] == txs[1..][..k - 1] + txs[1..][k..];
    }
  }

  lemma {:induction false} SumByMember(txs: seq<Tx>, tx: Tx, f: Tx -> nat)
    requires tx in txs
    ensures f(tx) <= SumBy(txs, f)
    decreases |txs|
  {
    if tx != txs[0] {
      SumByMember(txs[1..], tx, f);
    }
  }

  /* ---- the closed form ---- */

  predicate Creates(txs: seq<Tx>, a: Address) { SumBy(txs, CreationsOf(a)) > 0 }

  lemma {:induction false} CreationsWitness(ops: seq<Op>, a: Address) returns (op: Op)
    requires CreationsOps(ops, a) > 0
    ensures op in ops && op.CreateAccount? && op.target == a
  {
    if ops[0].CreateAccount? && ops[0].target == a {
      op := ops[0];
    } else {
      op := CreationsWitness(ops[1..], a);
    }
  }

  lemma {:induction false} CreatesWitness(txs: seq<Tx>, a: Address) returns (tx: Tx, op: Op)
    requires Creates(txs, a)
    ensures tx in txs && op in tx.ops && op.CreateAccount? && op.target == a
    decreases |txs|
  {
    if CreationsOps(txs[0].ops, a) > 0 {
      tx := txs[0];
      op := CreationsWitness(tx.ops, a);
    } else {
      tx, op := CreatesWitness(txs[1..], a);
    }
  }

  function BalanceIn(book: Book, a: Address): nat { if a in book then book[a].balance else 0 }
  function SequenceIn(book: Book, a: Address): nat { if a in book then book[a].sequenceId else 0 }

  /** The accounts after the block are those before it and those it creates. */
  ghost predicate KeysForm(book: Book, txs: seq<Tx>, after: Book) {
    forall a :: a in after <==> a in book || Creates(txs, a)
  }

  /** Balances move by the credits and debits of the block, sequence ids by the transactions sent. */
  ghost predicate NumbersForm(book: Book, txs: seq<Tx>, after: Book) {
    forall a :: a in after ==> AccountForm(book, txs, a, after[a])
  }

  predicate AccountForm(book: Book, txs: seq<Tx>, a: Address, acct: Account) {
    && acct.balance == BalanceIn(book, a) + SumBy(txs, CreditTo(a)) - SumBy(txs, DebitOf(a))
    && acct.sequenceId == (SequenceIn(book, a) + SumBy(txs, SentBy(a))) % TWO64
  }

  /** Links are set on creation and never change. */
  ghost predicate LinksForm(book: Book, txs: seq<Tx>, after: Book) {
    && (forall a :: a in book && a in after ==> after[a].linked == book[a].linked)
    && (forall tx, op :: tx in txs && op in tx.ops && op.CreateAccount? && op.target in after ==>
          after[op.target].linked == op.linked)
  }

  /** `after` is what the block makes of `book`, account by account. */
  ghost predicate IsClosedForm(book: Book, txs: seq<Tx>, after: Book) {
    KeysForm(book, txs, after) && NumbersForm(book, txs, after) && LinksForm(book, txs, after)
  }

  /** The closed form determines the accounts, whatever the order of the transactions. */
  lemma ClosedFormUnique(book: Book, txs: seq<Tx>, other: seq<Tx>, x: Book, y: Book)
    requires multiset(txs) == multiset(other)
    requires IsClosedForm(book, txs, x) && IsClosedForm(book, other, y)
    ensures x == y
  {
    forall a ensures a in x <==> a in y {
      SumByPermuted(txs, other, CreationsOf(a));
    }
    forall a | a in x ensures x[a] == y[a] {
      SameNumbers(book, txs, other, x, y, a);
      SameLink(book, txs, other, x, y, a);
    }
  }

  lemma SameNumbers(book: Book, txs: seq<Tx>, other: seq<Tx>, x: Book, y: Book, a: Address)
    requires multiset(txs) == multiset(other) && a in x && a in y
    requires NumbersForm(book, txs, x) && NumbersForm(book, other, y)
    ensures x[a].balance == y[a].balance && x[a].sequenceId == y[a].sequenceId
  {
    SumByPermuted(txs, other, CreditTo(a));
    SumByPermuted(txs, other, DebitOf(a));
    SumByPermuted(txs, other, SentBy(a));
  }

  lemma SameLink(book: Book, txs: seq<Tx>, other: seq<Tx>, x: Book, y: Book, a: Address)
    requires multiset(txs) == multiset(other) && a in x && a in y
    requires KeysForm(book, txs, x) && LinksForm(book, txs, x) && LinksForm(book, other, y)
    ensures x[a].linked == y[a].linked
  {
    if a !in book {
      var tx, op := CreatesWitness(txs, a);
      assert tx in multiset(other);
    }
  }

  /* ---- one transaction ---- */

  /** What an operation needs of the accounts it is applied to. */
  predicate OpReady(book: Book, source: Address, op: Op) {
    match op
    case CreateAccount(target, _, _) => target != source
    case Payment(target, _) => target in book && target != source
    case InflationPF(funding, _, _) => funding in book
    case _ => op.IsNormal()
  }

  /**
   The state of the operation loop: `credited` has been paid out but not yet debited, and `bound` caps
   the supply. The source still covers everything, and the excess of the sum is what was credited.
   */
  ghost predicate Flow(book: Book, source: Address, ops: seq<Op>, credited: nat, bound: nat) {
    && source in book
    && credited + PayOps(ops) <= book[source].balance
    && book[source].balance + credited <= Sum(book)
    && Sum(book) + MintOps(ops) <= bound + credited
    && bound <= MAXIMUM_BALANCE
    && (forall op :: op in ops ==> OpReady(book, source, op))
    && (forall a :: CreationsOps(ops, a) <= 1)
    && (forall a :: a in book ==> CreationsOps(ops, a) == 0)
  }

  /** `after` is what the operations make of `book`. */
  ghost predicate OpsEffect(book: Book, ops: seq<Op>, after: Book) {
    && (forall a :: a in after <==> a in book || CreationsOps(ops, a) > 0)
    && (forall a :: a in after ==>
          after[a].balance == BalanceIn(book, a) + CreditOps(ops, a)
          && after[a].sequenceId == SequenceIn(book, a))
    && (forall a :: a in book && a in after ==> after[a].linked == book[a].linked)
    && (forall op :: op in ops && op.CreateAccount? && op.target in after ==> after[op.target].linked == op.linked)
    && (forall a :: a !in after ==> CreditOps(ops, a) == 0)
  }

  function Pays(op: Op): nat { if op.IsPayable() then op.amount else 0 }
  function Mints(op: Op): nat { if op.InflationPF? then op.amount else 0 }

  ghost predicate OpEffect(book: Book, op: Op, next: Book) {
    && (forall a :: a in next <==> a in book || (op.CreateAccount? && op.target == a))
    && (forall a :: a in next ==>
          && next[a].balance == BalanceIn(book, a) + CreditOp(op, a)
          && next[a].sequenceId == SequenceIn(book, a)
          && next[a].linked == if a in book then book[a].linked else op.linked)
    && (forall a :: a !in next ==> CreditOp(op, a) == 0)
    && (op.CreateAccount? ==> op.target !in book)
  }

  lemma CreditExact(book: Book, target: Address, amount: Amount)
    requires target in book && book[target].balance + amount <= MAXIMUM_BALANCE
    ensures Credit(book, target, amount)
            == Ok(book[target := book[target].(balance := book[target].balance + amount)])
    ensures Sum(Credit(book, target, amount).value) == Sum(book) + amount
  {
    SumUpdate(book, target, book[target].(balance := book[target].balance + amount));
  }

  /** Room for the next credit: the target stays under the ceiling even before the source is debited. */
  lemma CreditFits(book: Book, source: Address, ops: seq<Op>, credited: nat, bound: nat)
    requires ops != [] && Flow(book, source, ops, credited, bound)
    ensures ops[0].Payment? ==> BalanceIn(book, ops[0].target) + ops[0].amount <= MAXIMUM_BALANCE
    ensures ops[0].InflationPF? ==> BalanceIn(book, ops[0].funding) + ops[0].amount <= MAXIMUM_BALANCE
  {
    assert OpReady(book, source, ops[0]);
    if ops[0].Payment? {
      SumBounds(book, source, ops[0].target);
    } else if ops[0].InflationPF? {
      SumBounds(book, source, ops[0].funding);
    }
  }

  /** The next operation succeeds and no addition wraps. */
  lemma OpStep(book: Book, source: Address, ops: seq<Op>, credited: nat, bound: nat)
    requires ops != [] && Flow(book, source, ops, credited, bound)
    ensures FinishOp(book, source, ops[0]).Ok?
    ensures var next := FinishOp(book, source, ops[0]).value;
            OpEffect(book, ops[0], next) && Sum(next) == Sum(book) + Pays(ops[0]) + Mints(ops[0])
  {
    assert OpReady(book, source, ops[0]);
    CreditFits(book, source, ops, credited, bound);
    assert ops[0].CreateAccount? ==> CreationsOps(ops, ops[0].target) >= 1;
    OpApplies(book, source, ops[0]);
  }

  lemma OpApplies(book: Book, source: Address, op: Op)
    requires source in book && OpReady(book, source, op)
    requires op.CreateAccount? ==> op.target !in book
    requires op.Payment? ==> BalanceIn(book, op.target) + op.amount <= MAXIMUM_BALANCE
    requires op.InflationPF? ==> BalanceIn(book, op.funding) + op.amount <= MAXIMUM_BALANCE
    ensures FinishOp(book, source, op).Ok?
    ensures var next := FinishOp(book, source, op).value;
            OpEffect(book, op, next) && Sum(next) == Sum(book) + Pays(op) + Mints(op)
  {
    if op.CreateAccount? {
      SumInsert(book, op.target, Account(op.amount, 0, op.linked));
      InsertEffect(book, op);
    } else if op.Payment? {
      CreditExact(book, op.target, op.amount);
      CreditEffect(book, op, op.target);
    } else if op.InflationPF? {
      CreditExact(book, op.funding, op.amount);
      CreditEffect(book, op, op.funding);
    } else {
      NoEffect(book, op);
    }
  }

  lemma InsertEffect(book: Book, op: Op)
    requires op.CreateAccount? && op.target !in book
    ensures OpEffect(book, op, book[op.target := Account(op.amount, 0, op.linked)])
  {
  }

  lemma CreditEffect(book: Book, op: Op, target: Address)
    requires (op.Payment? && op.target == target) || (op.InflationPF? && op.funding == target)
    requires target in book && book[target].balance + op.amount <= MAXIMUM_BALANCE
    ensures OpEffect(book, op, book[target := book[target].(balance := book[target].balance + op.amount)])
    ensures op.amount == 0 ==> OpEffect(book, op, book)
  {
  }

  lemma NoEffect(book: Book, op: Op)
    requires op.CongressVoting? || op.CongressVotingResult? || op.UnfreezeRequest?
    ensures OpEffect(book, op, book)
  {
  }

  lemma ComposeOps(book: Book, ops: seq<Op>, next: Book, after: Book)
    requires ops != [] && OpEffect(book, ops[0], next) && OpsEffect(next, ops[1..], after)
    ensures OpsEffect(book, ops, after)
  {
    assert ops == [ops[0]] + ops[1..];
  }

  lemma FlowStep(book: Book, source: Address, ops: seq<Op>, credited: nat, bound: nat, next: Book)
    requires ops != [] && Flow(book, source, ops, credited, bound)
    requires OpEffect(book, ops[0], next) && Sum(next) == Sum(book) + Pays(ops[0]) + Mints(ops[0])
    ensures Flow(next, source, ops[1..], credited + Pays(ops[0]), bound)
  {
    assert OpReady(book, source, ops[0]);
    forall o | o in ops[1..] ensures OpReady(next, source, o) {
      assert OpReady(book, source, o);
    }
    forall a ensures CreationsOps(ops[1..], a) <= 1 && (a in next ==> CreationsOps(ops[1..], a) == 0) {
      assert CreationsOps(ops, a) <= 1;
    }
  }

  lemma {:induction false} OpsFlow(book: Book, source: Address, ops: seq<Op>, credited: nat, bound: nat)
    requires Flow(book, source, ops, credited, bound)
    ensures FinishOps(book, source, ops).Ok?
    ensures var after := FinishOps(book, source, ops).value;
            && OpsEffect(book, ops, after)
            && Sum(after) == Sum(book) + PayOps(ops) + MintOps(ops)
            && source in after && after[source].balance <= bound
    decreases |ops|
  {
    if ops != [] {
      OpStep(book, source, ops, credited, bound);
      var next := FinishOp(book, source, ops[0]).value;
      FlowStep(book, source, ops, credited, bound, next);
      OpsFlow(next, source, ops[1..], credited + Pays(ops[0]), bound);
      ComposeOps(book, ops, next, FinishOps(book, source, ops).value);
    }
  }

  /* ---- the block ---- */

  predicate TxReady(book: Book, tx: Tx) {
    && tx.source in book
    && Total(tx) <= book[tx.source].balance
    && (forall op :: op in tx.ops ==> OpReady(book, tx.source, op))
  }

  /**
   The block can be applied: every source covers its total, sources differ, and the supply stays under
   the ceiling.
   */
  ghost predicate BlockReady(book: Book, txs: seq<Tx>) {
    && (forall tx :: tx in txs ==> TxReady(book, tx))
    && (forall a :: SumBy(txs, SentBy(a)) <= 1)
    && (forall a :: a in book ==> SumBy(txs, CreationsOf(a)) == 0)
    && Sum(book) + SumBy(txs, Minted()) <= MAXIMUM_BALANCE
  }

  ghost predicate NoAccountCreatedTwice(txs: seq<Tx>) {
    forall a :: SumBy(txs, CreationsOf(a)) <= 1
  }

  /** The effect of a single transaction. */
  ghost predicate TxEffect(book: Book, tx: Tx, after: Book) {
    && (forall a :: a in after <==> a in book || CreationsOps(tx.ops, a) > 0)
    && (forall a :: a in after ==>
          && after[a].balance == BalanceIn(book, a) + CreditOps(tx.ops, a) - (if tx.source == a then Total(tx) else 0)
          && after[a].sequenceId == (SequenceIn(book, a) + (if tx.source == a then 1 else 0)) % TWO64)
    && (forall a :: a in book && a in after ==> after[a].linked == book[a].linked)
    && (forall op :: op in tx.ops && op.CreateAccount? && op.target in after ==> after[op.target].linked == op.linked)
    && (forall a :: a !in after ==> CreditOps(tx.ops, a) == 0 && a != tx.source)
  }

  lemma SettleExact(book: Book, tx: Tx)
    requires tx.source in book && Total(tx) <= book[tx.source].balance <= MAXIMUM_BALANCE
    ensures var acct := book[tx.source].(balance := book[tx.source].balance - Total(tx));
            Settle(book, tx) == Ok(book[tx.source := IncreaseSequenceID(acct)])
    ensures Sum(Settle(book, tx).value) == Sum(book) - Total(tx)
  {
    TotalAmountExactIff(tx);
    var acct := book[tx.source].(balance := book[tx.source].balance - Total(tx));
    SumUpdate(book, tx.source, IncreaseSequenceID(acct));
  }

  lemma TxFlow(book: Book, tx: Tx, bound: nat)
    requires TxReady(book, tx) && bound <= MAXIMUM_BALANCE && Sum(book) + MintOps(tx.ops) <= bound
    requires forall a :: CreationsOps(tx.ops, a) <= 1
    requires forall a :: a in book ==> CreationsOps(tx.ops, a) == 0
    ensures FinishTx(book, tx).Ok? && TxEffect(book, tx, FinishTx(book, tx).value)
    ensures Sum(FinishTx(book, tx).value) == Sum(book) + MintOps(tx.ops) - tx.fee
  {
    SumBounds(book, tx.source, tx.source);
    OpsFlow(book, tx.source, tx.ops, 0, bound);
    var paid := FinishOps(book, tx.source, tx.ops).value;
    assert paid[tx.source].balance == book[tx.source].balance + CreditOps(tx.ops, tx.source);
    SettleExact(paid, tx);
    TotalAmountExactIff(tx);
    SettledEffect(book, tx, paid);
  }

  lemma SettledEffect(book: Book, tx: Tx, paid: Book)
    requires OpsEffect(book, tx.ops, paid) && tx.source in paid && Total(tx) <= paid[tx.source].balance
    ensures var acct := paid[tx.source].(balance := paid[tx.source].balance - Total(tx));
            TxEffect(book, tx, paid[tx.source := IncreaseSequenceID(acct)])
  {
    var acct := paid[tx.source].(balance := paid[tx.source].balance - Total(tx));
    var after := paid[tx.source := IncreaseSequenceID(acct)];
    forall a | a in after
      ensures after[a].balance == BalanceIn(book, a) + CreditOps(tx.ops, a) - (if tx.source == a then Total(tx) else 0)
      ensures after[a].sequenceId == (SequenceIn(book, a) + (if tx.source == a then 1 else 0)) % TWO64
    {
      SettledAccount(book, tx, paid, a);
    }
  }

  lemma SettledAccount(book: Book, tx: Tx, paid: Book, a: Address)
    requires OpsEffect(book, tx.ops, paid) && tx.source in paid && Total(tx) <= paid[tx.source].balance
    requires a in paid
    ensures var acct := paid[tx.source].(balance := paid[tx.source].balance - Total(tx));
            var after := paid[tx.source := IncreaseSequenceID(acct)];
            && after[a].balance
               == BalanceIn(book, a) + CreditOps(tx.ops, a) - (if tx.source == a then Total(tx) else 0)
            && after[a].sequenceId == (SequenceIn(book, a) + (if tx.source == a then 1 else 0)) % TWO64
  {
    assert paid[a].balance == BalanceIn(book, a) + CreditOps(tx.ops, a);
  }

  /** What one transaction and then the rest make of the accounts is what the block makes of them. */
  lemma ComposeClosedForm(book: Book, txs: seq<Tx>, next: Book, after: Book)
    requires txs != [] && TxEffect(book, txs[0], next) && IsClosedForm(next, txs[1..], after)
    ensures IsClosedForm(book, txs, after)
  {
    ComposeNumbers(book, txs, next, after);
    assert LinksForm(book, txs, after) by {
      forall tx, op | tx in txs && op in tx.ops && op.CreateAccount? && op.target in after
        ensures after[op.target].linked == op.linked
      {
        ComposeLink(book, txs, next, after, tx, op);
      }
    }
  }

  lemma ComposeNumbers(book: Book, txs: seq<Tx>, next: Book, after: Book)
    requires txs != [] && TxEffect(book, txs[0], next) && NumbersForm(next, txs[1..], after)
    ensures NumbersForm(book, txs, after)
  {
    forall a | a in after ensures AccountForm(book, txs, a, after[a]) {
      NextAccount(book, txs[0], next, a);
      assert AccountForm(next, txs[1..], a, after[a]);
      ComposeAccount(txs, a, BalanceIn(book, a), SequenceIn(book, a), BalanceIn(next, a), SequenceIn(next, a),
                     after[a].balance, after[a].sequenceId);
    }
  }

  lemma ComposeAccount(txs: seq<Tx>, a: Address, b0: nat, s0: nat, b1: nat, s1: nat, b2: nat, s2: nat)
    requires txs != []
    requires b1 == b0 + CreditTo(a)(txs[0]) - DebitOf(a)(txs[0])
    requires b2 == b1 + SumBy(txs[1..], CreditTo(a)) - SumBy(txs[1..], DebitOf(a))
    requires s1 == (s0 + SentBy(a)(txs[0])) % TWO64
    requires s2 == (s1 + SumBy(txs[1..], SentBy(a))) % TWO64
    ensures b2 == b0 + SumBy(txs, CreditTo(a)) - SumBy(txs, DebitOf(a))
    ensures s2 == (s0 + SumBy(txs, SentBy(a))) % TWO64
  {
    ModuloTwice(s0, SentBy(a)(txs[0]), SumBy(txs[1..], SentBy(a)));
  }

  lemma NextAccount(book: Book, tx: Tx, next: Book, a: Address)
    requires TxEffect(book, tx, next)
    ensures BalanceIn(next, a) == BalanceIn(book, a) + CreditTo(a)(tx) - DebitOf(a)(tx)
    ensures SequenceIn(next, a) == (SequenceIn(book, a) + SentBy(a)(tx)) % TWO64
  {
  }

  lemma ComposeLink(book: Book, txs: seq<Tx>, next: Book, after: Book, tx: Tx, op: Op)
    requires txs != [] && TxEffect(book, txs[0], next) && IsClosedForm(next, txs[1..], after)
    requires tx in txs && op in tx.ops && op.CreateAccount? && op.target in after
    ensures after[op.target].linked == op.linked
  {
    if tx == txs[0] {
      CreationsMember(tx.ops, op);
    } else {
      assert tx in txs[1..];
    }
  }

  lemma ModuloTwice(a: nat, b: nat, c: nat)
    ensures ((a + b) % TWO64 + c) % TWO64 == (a + b + c) % TWO64
  {
  }

  lemma {:induction false} CreationsMember(ops: seq<Op>, op: Op)
    requires op in ops && op.CreateAccount?
    ensures CreationsOps(ops, op.target) > 0
  {
    if op != ops[0] {
      CreationsMember(ops[1..], op);
    }
  }

  lemma RestReady(book: Book, txs: seq<Tx>, next: Book)
    requires txs != [] && BlockReady(book, txs) && NoAccountCreatedTwice(txs)
    requires TxEffect(book, txs[0], next) && Sum(next) <= Sum(book) + MintOps(txs[0].ops)
    ensures BlockReady(next, txs[1..]) && NoAccountCreatedTwice(txs[1..])
  {
    forall tx | tx in txs[1..] ensures TxReady(next, tx) {
      assert TxReady(book, tx);
      SumByMember(txs[1..], tx, SentBy(tx.source));
      assert SumBy(txs, SentBy(tx.source)) <= 1;
      assert tx.source != txs[0].source;
      forall op | op in tx.ops ensures OpReady(next, tx.source, op) {
        assert OpReady(book, tx.source, op);
      }
    }
    forall a ensures SumBy(txs[1..], SentBy(a)) <= 1 {
      assert SumBy(txs, SentBy(a)) <= 1;
    }
    forall a ensures SumBy(txs[1..], CreationsOf(a)) <= 1 && (a in next ==> SumBy(txs[1..], CreationsOf(a)) == 0) {
      assert SumBy(txs, CreationsOf(a)) <= 1;
    }
  }

  /** A ready block that creates no account twice is applied in full, with the closed form as its effect. */
  lemma {:induction false} BlockFlow(book: Book, txs: seq<Tx>)
    requires BlockReady(book, txs) && NoAccountCreatedTwice(txs)
    ensures FinishTxs(book, txs).Ok? && IsClosedForm(book, txs, FinishTxs(book, txs).value)
    ensures Sum(FinishTxs(book, txs).value) == Sum(book) + SumBy(txs, Minted()) - SumBy(txs, Fees())
    decreases |txs|
  {
    if txs == [] {
    } else {
      forall a ensures CreationsOps(txs[0].ops, a) <= 1 && (a in book ==> CreationsOps(txs[0].ops, a) == 0) {
        assert SumBy(txs, CreationsOf(a)) <= 1;
      }
      assert TxReady(book, txs[0]);
      TxFlow(book, txs[0], MAXIMUM_BALANCE);
      var next := FinishTx(book, txs[0]).value;
      RestReady(book, txs, next);
      BlockFlow(next, txs[1..]);
      ComposeClosedForm(book, txs, next, FinishTxs(next, txs[1..]).value);
    }
  }

  /* ---- success, exactly ---- */

  lemma {:induction false} OpsKeepAccounts(book: Book, source: Address, ops: seq<Op>)
    requires FinishOps(book, source, ops).Ok?
    ensures forall a :: a in book ==> a in FinishOps(book, source, ops).value
    ensures forall a :: CreationsOps(ops, a) > 0 ==>
              a !in book && a in FinishOps(book, source, ops).value && CreationsOps(ops, a) == 1
    decreases |ops|
  {
    if ops != [] {
      OpsKeepAccounts(FinishOp(book, source, ops[0]).value, source, ops[1..]);
    }
  }

  /** A block that is applied creates no account twice, and none that existed. */
  lemma {:induction false} AppliedCreatesOnce(book: Book, txs: seq<Tx>, a: Address)
    requires FinishTxs(book, txs).Ok?
    ensures SumBy(txs, CreationsOf(a)) <= if a in book then 0 else 1
    decreases |txs|
  {
    if txs != [] {
      var next := FinishTx(book, txs[0]).value;
      OpsKeepAccounts(book, txs[0].source, txs[0].ops);
      AppliedCreatesOnce(next, txs[1..], a);
    }
  }

  /** A ready block is applied exactly when no two of its operations create the same account. */
  lemma BlockSucceedsIff(book: Book, txs: seq<Tx>)
    requires BlockReady(book, txs)
    ensures FinishTxs(book, txs).Ok? <==> NoAccountCreatedTwice(txs)
  {
    if NoAccountCreatedTwice(txs) {
      BlockFlow(book, txs);
    }
    if FinishTxs(book, txs).Ok? {
      forall a ensures SumBy(txs, CreationsOf(a)) <= 1 {
        AppliedCreatesOnce(book, txs, a);
      }
    }
  }

  lemma ReadyPermuted(book: Book, txs: seq<Tx>, other: seq<Tx>)
    requires multiset(txs) == multiset(other) && BlockReady(book, txs) && NoAccountCreatedTwice(txs)
    ensures BlockReady(book, other) && NoAccountCreatedTwice(other)
  {
    forall tx | tx in other ensures TxReady(book, tx) {
      assert tx in multiset(txs);
    }
    forall a ensures SumBy(other, SentBy(a)) <= 1 {
      SumByPermuted(txs, other, SentBy(a));
    }
    forall a ensures SumBy(other, CreationsOf(a)) == SumBy(txs, CreationsOf(a)) {
      SumByPermuted(txs, other, CreationsOf(a));
    }
    SumByPermuted(txs, other, Minted());
  }

  /** Any order of the transactions of a block leaves the same accounts. */
  lemma OrderDoesNotMatter(book: Book, txs: seq<Tx>, other: seq<Tx>)
    requires multiset(txs) == multiset(other)
    requires BlockReady(book, txs) && NoAccountCreatedTwice(txs)
    ensures FinishTxs(book, txs).Ok? && FinishTxs(book, other) == FinishTxs(book, txs)
  {
    ReadyPermuted(book, txs, other);
    BlockFlow(book, txs);
    BlockFlow(book, other);
    ClosedFormUnique(book, txs, other, FinishTxs(book, txs).value, FinishTxs(book, other).value);
  }
}
