/** Frozen (linked) accounts over a whole chain. */
module Frozen {
  import opened Amounts
  import opened Operations
  import opened Accounts
  import opened FinishBallot
  import opened Validation
  import opened Chain
  import opened ClosedForm

  /* ---- what later states keep ---- */

  ghost predicate KeepsLinks(book: Book, after: Book) {
    forall a :: a in book ==> a in after && after[a].linked == book[a].linked
  }

  /** Accounts and their links stay, operations are only appended, and blocks are only added. */
  ghost predicate Extends(s: State, t: State) {
    && KeepsLinks(s.book, t.book)
    && (forall a :: OpsOf(s.ops, a) <= OpsOf(t.ops, a))
    && |s.blocks| <= |t.blocks|
  }

  lemma {:induction false} OpsKeepLinks(book: Book, source: Address, ops: seq<Op>)
    requires FinishOps(book, source, ops).Ok?
    ensures KeepsLinks(book, FinishOps(book, source, ops).value)
    decreases |ops|
  {
    if ops != [] {
      OpsKeepLinks(FinishOp(book, source, ops[0]).value, source, ops[1..]);
    }
  }

  lemma TxKeepsLinks(book: Book, tx: Tx)
    requires FinishTx(book, tx).Ok?
    ensures KeepsLinks(book, FinishTx(book, tx).value)
  {
    OpsKeepLinks(book, tx.source, tx.ops);
  }

  lemma {:induction false} ApplyAllExtends(s: State, height: nat, txs: seq<Tx>)
    requires ApplyAll(s, height, txs).Ok?
    ensures Extends(s, ApplyAll(s, height, txs).value)
    decreases |txs|
  {
    if txs != [] {
      TxKeepsLinks(s.book, txs[0]);
      ApplyAllExtends(Apply(s, height, txs[0]).value, height, txs[1..]);
    }
  }

  lemma ApplyProposerExtends(s: State, height: nat, ptx: Tx)
    requires ApplyProposer(s, height, ptx).Ok?
    ensures Extends(s, ApplyProposer(s, height, ptx).value)
  {
  }

  lemma FinishExtends(hash: Block -> Hash, s: State, b: Ballot)
    requires Finish(hash, s, b).Ok?
    ensures Extends(s, Finish(hash, s, b).value)
  {
    FinishSteps(hash, s, b);
    var saved := s.(blocks := s.blocks + [NewBlock(b)]);
    ApplyAllExtends(saved, b.basis.height + 1, b.txs);
    var applied := ApplyAll(saved, b.basis.height + 1, b.txs).value;
    ApplyProposerExtends(applied, b.basis.height + 1, b.ptx);
    ExtendsTransitive(saved, applied, Finish(hash, s, b).value);
  }

  lemma ExtendsTransitive(s: State, t: State, u: State)
    requires Extends(s, t) && Extends(t, u)
    ensures Extends(s, u)
  {
  }

  /** No recorded operation claims a height above the chain. */
  ghost predicate IndexOk(s: State) {
    forall a, i :: 0 <= i < |OpsOf(s.ops, a)| ==> OpsOf(s.ops, a)[i].height <= |s.blocks|
  }

  lemma IndexedOk(s: State, tx: Tx, height: nat)
    requires IndexOk(s) && height <= |s.blocks|
    ensures IndexOk(s.(ops := Indexed(s.ops, tx, height)))
  {
    var ops := Indexed(s.ops, tx, height);
    forall a, i | 0 <= i < |OpsOf(ops, a)| ensures OpsOf(ops, a)[i].height <= |s.blocks| {
      var before := OpsOf(s.ops, a);
      if a == tx.source && i >= |before| {
        assert ops[a][i] == Records(tx.ops, height)[i - |before|];
      } else {
        assert OpsOf(ops, a)[i] == before[i];
      }
    }
  }

  lemma {:induction false} ApplyAllIndexOk(s: State, height: nat, txs: seq<Tx>)
    requires ApplyAll(s, height, txs).Ok? && IndexOk(s) && height <= |s.blocks|
    ensures var t := ApplyAll(s, height, txs).value; IndexOk(t) && t.blocks == s.blocks
    decreases |txs|
  {
    if txs != [] {
      IndexedOk(s, txs[0], height);
      ApplyAllIndexOk(Apply(s, height, txs[0]).value, height, txs[1..]);
    }
  }

  lemma FinishIndexOk(hash: Block -> Hash, s: State, b: Ballot)
    requires Linked(hash, s.blocks) && Finish(hash, s, b).Ok? && IndexOk(s)
    ensures IndexOk(Finish(hash, s, b).value)
  {
    FinishSteps(hash, s, b);
    FinishNeedsTop(hash, s, b);
    var saved := s.(blocks := s.blocks + [NewBlock(b)]);
    ApplyAllIndexOk(saved, b.basis.height + 1, b.txs);
    IndexedOk(ApplyAll(saved, b.basis.height + 1, b.txs).value, b.ptx, b.basis.height + 1);
  }

  /* ---- what a passed check means later ---- */

  predicate IsFrozen(s: State, a: Address) { a in s.book && s.book[a].IsFrozen() }

  /** The account's first recorded operation is an unfreezing request of at least `UNFREEZING_PERIOD` blocks ago. */
  predicate Unfrozen(s: State, a: Address) {
    var ops := OpsOf(s.ops, a);
    ops != [] && ops[0].op.UnfreezeRequest? && |s.blocks| >= ops[0].height + UNFREEZING_PERIOD
  }

  /** An operation that is no threat to the frozen account `a`. */
  predicate OpSafe(source: Address, op: Op, a: Address, unfrozen: bool) {
    && (op.Payment? ==> op.target != a)
    && (op.InflationPF? ==> op.funding != a)
    && (source == a && op.IsPayable() ==> unfrozen)
  }

  predicate TxSafe(tx: Tx, a: Address, unfrozen: bool) {
    forall op :: op in tx.ops ==> OpSafe(tx.source, op, a, unfrozen)
  }

  /** A check that passed once keeps its meaning in every later state. */
  lemma PassedOpIsSafe(s: State, t: State, view: Ledger, cfg: Config, source: Address, op: Op, a: Address)
    requires IsView(s, view) && view.height == |s.blocks| && IndexOk(s) && Extends(s, t) && IsFrozen(t, a)
    requires source in view.book && ValidateOp(view, cfg, source, op).Ok?
    ensures OpSafe(source, op, a, Unfrozen(t, a))
  {
    if source == a && op.IsPayable() {
      assert FrozenPayable(view, a).Ok?;
      assert view.OpsOf(a) <= OpsOf(s.ops, a) <= OpsOf(t.ops, a);
      assert OpsOf(s.ops, a)[0].height <= |s.blocks|;
    }
  }

  lemma PassedTxIsSafe(s: State, t: State, cfg: Config, tx: Tx, a: Address)
    requires Passes(s, cfg, tx) && Latest(s.blocks).height == |s.blocks| && IndexOk(s)
    requires Extends(s, t) && IsFrozen(t, a)
    ensures TxSafe(tx, a, Unfrozen(t, a))
  {
    var view :| IsView(s, view) && ValidateTx(view, cfg, tx).Ok?;
    ValidateOpsIff(view, cfg, tx.source, tx.ops);
    forall op | op in tx.ops ensures OpSafe(tx.source, op, a, Unfrozen(t, a)) {
      PassedOpIsSafe(s, t, view, cfg, tx.source, op, a);
    }
  }

  /* ---- one block ---- */

  function FeeOf(a: Address): Tx -> nat { (tx: Tx) => if tx.source == a then tx.fee else 0 }

  lemma {:induction false} OpsSpare(book: Book, source: Address, ops: seq<Op>, a: Address, unfrozen: bool)
    requires FinishOps(book, source, ops).Ok? && a in book
    requires forall op :: op in ops ==> OpSafe(source, op, a, unfrozen)
    ensures a in FinishOps(book, source, ops).value && FinishOps(book, source, ops).value[a] == book[a]
    decreases |ops|
  {
    if ops != [] {
      assert OpSafe(source, ops[0], a, unfrozen);
      OpsSpare(FinishOp(book, source, ops[0]).value, source, ops[1..], a, unfrozen);
    }
  }

  lemma {:induction false} NothingToPay(acc: Amount, ops: seq<Op>)
    requires forall op :: op in ops ==> !op.IsPayable()
    ensures AccumulateAmount(acc, ops) == Ok(acc)
    decreases |ops|
  {
    if ops != [] {
      NothingToPay(acc, ops[1..]);
    }
  }

  lemma TxSpares(book: Book, tx: Tx, a: Address, unfrozen: bool)
    requires FinishTx(book, tx).Ok? && a in book && TxSafe(tx, a, unfrozen)
    ensures var after := FinishTx(book, tx).value;
            && a in after && after[a].balance <= book[a].balance
            && (!unfrozen ==> after[a].balance + FeeOf(a)(tx) == book[a].balance)
  {
    OpsSpare(book, tx.source, tx.ops, a, unfrozen);
    if !unfrozen && tx.source == a {
      forall op | op in tx.ops ensures !op.IsPayable() {
        assert OpSafe(tx.source, op, a, unfrozen);
      }
      NothingToPay(0, tx.ops);
    }
  }

  lemma {:induction false} ApplyAllSpares(s: State, height: nat, txs: seq<Tx>, a: Address, unfrozen: bool)
    requires ApplyAll(s, height, txs).Ok? && a in s.book
    requires forall tx :: tx in txs ==> TxSafe(tx, a, unfrozen)
    ensures var after := ApplyAll(s, height, txs).value.book;
            && a in after && after[a].balance <= s.book[a].balance
            && (!unfrozen ==> after[a].balance + SumBy(txs, FeeOf(a)) == s.book[a].balance)
    decreases |txs|
  {
    if txs != [] {
      TxSpares(s.book, txs[0], a, unfrozen);
      ApplyAllSpares(Apply(s, height, txs[0]).value, height, txs[1..], a, unfrozen);
    }
  }

  /** The proposer transaction pays the common account only. */
  predicate PaysOnly(ptx: Tx, common: Address) {
    forall op :: op in ptx.ops && (op.CollectTxFee? || op.Inflation?) ==> op.target == common
  }

  lemma {:induction false} FoundAmongOps(ops: seq<Op>)
    ensures CollectTxFeeOf(ops).Ok? ==> CollectTxFeeOf(ops).value in ops
    ensures InflationOf(ops).Ok? ==> InflationOf(ops).value in ops
    decreases |ops|
  {
    if ops != [] {
      FoundAmongOps(ops[..|ops| - 1]);
    }
  }

  lemma FinishSpares(hash: Block -> Hash, s: State, b: Ballot, common: Address, a: Address, unfrozen: bool)
    requires Finish(hash, s, b).Ok? && a in s.book && a != common && PaysOnly(b.ptx, common)
    requires forall tx :: tx in b.txs ==> TxSafe(tx, a, unfrozen)
    ensures var after := Finish(hash, s, b).value.book;
            && a in after && after[a].balance <= s.book[a].balance
            && (!unfrozen ==> after[a].balance + SumBy(b.txs, FeeOf(a)) == s.book[a].balance)
  {
    FinishSteps(hash, s, b);
    ApplyAllSpares(s.(blocks := s.blocks + [NewBlock(b)]), b.basis.height + 1, b.txs, a, unfrozen);
    FoundAmongOps(b.ptx.ops);
  }

  /* ---- whole chains ---- */

  /** The states of a chain as one finished ballot after the other is applied. */
  ghost predicate Trace(hash: Block -> Hash, states: seq<State>, ballots: seq<Ballot>) {
    && |states| == |ballots| + 1
    && (forall i :: 0 <= i < |ballots| ==> FinishedAt(hash, states, ballots, i))
  }

  predicate FinishedAt(hash: Block -> Hash, states: seq<State>, ballots: seq<Ballot>, i: nat)
    requires i < |ballots| && |states| == |ballots| + 1
  {
    Finish(hash, states[i], ballots[i]) == Ok(states[i + 1])
  }

  ghost predicate PassedBefore(cfg: Config, states: seq<State>, i: nat, tx: Tx)
    requires i < |states|
  {
    exists j :: 0 <= j <= i && Passes(states[j], cfg, tx)
  }

  /** Every applied transaction passed `ValidateTx` at some state up to the one it was applied to. */
  ghost predicate Checked(cfg: Config, states: seq<State>, ballots: seq<Ballot>)
    requires |states| == |ballots| + 1
  {
    && (forall i, tx :: 0 <= i < |ballots| && tx in ballots[i].txs ==> PassedBefore(cfg, states, i, tx))
    && (forall i :: 0 <= i < |ballots| ==> PaysOnly(ballots[i].ptx, cfg.common))
  }

  lemma {:induction false} TraceKeeps(hash: Block -> Hash, states: seq<State>, ballots: seq<Ballot>, i: nat)
    requires Trace(hash, states, ballots) && Inv(hash, states[0]) && IndexOk(states[0]) && i <= |ballots|
    ensures Inv(hash, states[i]) && IndexOk(states[i])
    decreases i
  {
    if i > 0 {
      TraceKeeps(hash, states, ballots, i - 1);
      NextKeeps(hash, states, ballots, i - 1);
    }
  }

  lemma NextKeeps(hash: Block -> Hash, states: seq<State>, ballots: seq<Ballot>, i: nat)
    requires Trace(hash, states, ballots) && i < |ballots| && Inv(hash, states[i]) && IndexOk(states[i])
    ensures Inv(hash, states[i + 1]) && IndexOk(states[i + 1])
  {
    assert FinishedAt(hash, states, ballots, i);
    FinishKeeps(hash, states[i], ballots[i]);
    FinishIndexOk(hash, states[i], ballots[i]);
  }

  lemma {:induction false} TraceExtends(hash: Block -> Hash, states: seq<State>, ballots: seq<Ballot>, j: nat, i: nat)
    requires Trace(hash, states, ballots) && j <= i <= |ballots|
    ensures Extends(states[j], states[i])
    decreases i
  {
    if j < i {
      TraceExtends(hash, states, ballots, j, i - 1);
      NextExtends(hash, states, ballots, i - 1);
      ExtendsTransitive(states[j], states[i - 1], states[i]);
    }
  }

  lemma NextExtends(hash: Block -> Hash, states: seq<State>, ballots: seq<Ballot>, i: nat)
    requires Trace(hash, states, ballots) && i < |ballots|
    ensures Extends(states[i], states[i + 1])
  {
    assert FinishedAt(hash, states, ballots, i);
    FinishExtends(hash, states[i], ballots[i]);
  }

  lemma AppliedTxIsSafe(hash: Block -> Hash, cfg: Config, states: seq<State>, ballots: seq<Ballot>,
                        i: nat, tx: Tx, a: Address)
    requires Trace(hash, states, ballots) && Inv(hash, states[0]) && IndexOk(states[0]) && i < |ballots|
    requires PassedBefore(cfg, states, i, tx) && IsFrozen(states[i], a)
    ensures TxSafe(tx, a, Unfrozen(states[i], a))
  {
    var j :| 0 <= j <= i && Passes(states[j], cfg, tx);
    TraceKeeps(hash, states, ballots, j);
    assert FinishedAt(hash, states, ballots, j);
    FinishNeedsTop(hash, states[j], ballots[j]);
    TraceExtends(hash, states, ballots, j, i);
    PassedTxIsSafe(states[j], states[i], cfg, tx, a);
  }

  function FeesPaid(ballots: seq<Ballot>, a: Address): nat {
    if ballots == [] then 0
    else FeesPaid(ballots[..|ballots| - 1], a) + SumBy(ballots[|ballots| - 1].txs, FeeOf(a))
  }

  /** One block of the chain. */
  lemma FrozenInBlock(hash: Block -> Hash, cfg: Config, states: seq<State>, ballots: seq<Ballot>, i: nat, a: Address)
    requires Trace(hash, states, ballots) && Inv(hash, states[0]) && IndexOk(states[0]) && i < |ballots|
    requires Checked(cfg, states, ballots)
    requires IsFrozen(states[i], a) && a != cfg.common
    ensures IsFrozen(states[i + 1], a) && states[i + 1].book[a].linked == states[i].book[a].linked
    ensures states[i + 1].book[a].balance <= states[i].book[a].balance
    ensures !Unfrozen(states[i], a) ==>
              states[i + 1].book[a].balance + SumBy(ballots[i].txs, FeeOf(a)) == states[i].book[a].balance
  {
    forall tx | tx in ballots[i].txs ensures TxSafe(tx, a, Unfrozen(states[i], a)) {
      AppliedTxIsSafe(hash, cfg, states, ballots, i, tx, a);
    }
    assert FinishedAt(hash, states, ballots, i);
    FinishSpares(hash, states[i], ballots[i], cfg.common, a, Unfrozen(states[i], a));
    FinishExtends(hash, states[i], ballots[i]);
  }

  lemma UnfrozenStays(s: State, t: State, a: Address)
    requires Extends(s, t) && Unfrozen(s, a)
    ensures Unfrozen(t, a)
  {
    assert OpsOf(s.ops, a) <= OpsOf(t.ops, a);
  }

  lemma CommonIsNotFrozen(hash: Block -> Hash, states: seq<State>, ballots: seq<Ballot>, common: Address, i: nat)
    requires Trace(hash, states, ballots) && i <= |ballots|
    requires common in states[0].book && !states[0].book[common].IsFrozen()
    ensures !IsFrozen(states[i], common)
  {
    TraceExtends(hash, states, ballots, 0, i);
  }

  /**
   From any state in which `a` is frozen, over any number of blocks: the balance never rises, and it
   falls by exactly the fees of its own transactions unless, before the last block, `UNFREEZING_PERIOD`
   blocks had passed since its first recorded operation, an unfreezing request.
   */
  lemma {:induction false} FrozenOverChain(hash: Block -> Hash, cfg: Config, states: seq<State>, ballots: seq<Ballot>,
                                           first: nat, last: nat, a: Address)
    requires Trace(hash, states, ballots) && Inv(hash, states[0]) && IndexOk(states[0])
    requires Checked(cfg, states, ballots) && first <= last <= |ballots|
    requires cfg.common in states[0].book && !states[0].book[cfg.common].IsFrozen()
    requires IsFrozen(states[first], a)
    ensures IsFrozen(states[last], a) && states[last].book[a].balance <= states[first].book[a].balance
    ensures (first < last && Unfrozen(states[last - 1], a))
            || states[last].book[a].balance + FeesPaid(ballots[first..last], a) == states[first].book[a].balance
    decreases last
  {
    if first < last {
      FrozenOverChain(hash, cfg, states, ballots, first, last - 1, a);
      CommonIsNotFrozen(hash, states, ballots, cfg.common, last - 1);
      FrozenInBlock(hash, cfg, states, ballots, last - 1, a);
      assert ballots[first..last][..last - 1 - first] == ballots[first..last - 1];
      if first < last - 1 && Unfrozen(states[last - 2], a) {
        TraceExtends(hash, states, ballots, last - 2, last - 1);
        UnfrozenStays(states[last - 2], states[last - 1], a);
      }
    }
  }

  /* ---- the block that creates the account ---- */

  /** A transaction that neither pays `a` nor is sent by it. */
  predicate TxClear(tx: Tx, a: Address) {
    tx.source != a && forall op :: op in tx.ops ==> OpSafe(tx.source, op, a, false)
  }

  /** A check that passed before the account existed says nothing of it. */
  lemma PassedTxIsClear(s: State, t: State, cfg: Config, tx: Tx, a: Address)
    requires Passes(s, cfg, tx) && Extends(s, t) && a !in t.book
    ensures TxClear(tx, a)
  {
    var view :| IsView(s, view) && ValidateTx(view, cfg, tx).Ok?;
    ValidateOpsIff(view, cfg, tx.source, tx.ops);
    forall op | op in tx.ops ensures OpSafe(tx.source, op, a, false) {
      assert ValidateOp(view, cfg, tx.source, op).Ok?;
    }
  }

  ghost predicate CreatedBy(op: Op, a: Address, acct: Account) {
    op.CreateAccount? && op.target == a && acct.balance == op.amount && acct.linked == op.linked
  }

  lemma {:induction false} OpsCreate(book: Book, source: Address, ops: seq<Op>, a: Address)
    requires FinishOps(book, source, ops).Ok? && a !in book && source != a
    requires forall op :: op in ops ==> OpSafe(source, op, a, false)
    ensures var after := FinishOps(book, source, ops).value;
            a in after ==> exists op :: op in ops && CreatedBy(op, a, after[a])
    decreases |ops|
  {
    if ops != [] {
      var next := FinishOp(book, source, ops[0]).value;
      if a in next {
        OpsSpare(next, source, ops[1..], a, false);
        assert CreatedBy(ops[0], a, FinishOps(book, source, ops).value[a]);
      } else {
        OpsCreate(next, source, ops[1..], a);
      }
    }
  }

  lemma TxCreates(book: Book, tx: Tx, a: Address)
    requires FinishTx(book, tx).Ok? && a !in book && TxClear(tx, a)
    ensures var after := FinishTx(book, tx).value;
            a in after ==> exists op :: op in tx.ops && CreatedBy(op, a, after[a])
  {
    OpsCreate(book, tx.source, tx.ops, a);
  }

  /** The account is what one of the transactions created. */
  ghost predicate CreatedIn(txs: seq<Tx>, a: Address, acct: Account) {
    exists tx, op :: tx in txs && op in tx.ops && CreatedBy(op, a, acct)
  }

  lemma {:induction false} NoFees(txs: seq<Tx>, a: Address)
    requires forall tx :: tx in txs ==> tx.source != a
    ensures SumBy(txs, FeeOf(a)) == 0
    decreases |txs|
  {
    if txs != [] {
      NoFees(txs[1..], a);
    }
  }

  lemma {:induction false} ApplyAllCreates(s: State, height: nat, txs: seq<Tx>, a: Address)
    requires ApplyAll(s, height, txs).Ok? && a !in s.book && forall tx :: tx in txs ==> TxClear(tx, a)
    ensures var after := ApplyAll(s, height, txs).value.book;
            a in after ==> CreatedIn(txs, a, after[a])
    decreases |txs|
  {
    if txs != [] {
      var next := Apply(s, height, txs[0]).value;
      TxCreates(s.book, txs[0], a);
      if a in next.book {
        forall tx | tx in txs[1..] ensures TxSafe(tx, a, false) && tx.source != a {
          assert TxClear(tx, a);
        }
        ApplyAllSpares(next, height, txs[1..], a, false);
        ApplyAllExtends(next, height, txs[1..]);
        NoFees(txs[1..], a);
        var op :| op in txs[0].ops && CreatedBy(op, a, next.book[a]);
        assert txs[0] in txs && CreatedBy(op, a, ApplyAll(s, height, txs).value.book[a]);
      } else {
        ApplyAllCreates(next, height, txs[1..], a);
        var after := ApplyAll(s, height, txs).value.book;
        if a in after {
          var tx, op :| tx in txs[1..] && op in tx.ops && CreatedBy(op, a, after[a]);
          assert tx in txs;
        }
      }
    }
  }

  /** At the end of the block that creates it, an account holds exactly the amount of its creation. */
  lemma CreationInBlock(hash: Block -> Hash, cfg: Config, states: seq<State>, ballots: seq<Ballot>, i: nat, a: Address)
    requires Trace(hash, states, ballots) && Checked(cfg, states, ballots) && i < |ballots|
    requires a !in states[i].book && a in states[i + 1].book && a != cfg.common
    ensures CreatedIn(ballots[i].txs, a, states[i + 1].book[a])
  {
    var s, b := states[i], ballots[i];
    assert FinishedAt(hash, states, ballots, i);
    forall tx | tx in b.txs ensures TxClear(tx, a) {
      var j :| 0 <= j <= i && Passes(states[j], cfg, tx);
      TraceExtends(hash, states, ballots, j, i);
      PassedTxIsClear(states[j], s, cfg, tx, a);
    }
    FinishSteps(hash, s, b);
    var saved := s.(blocks := s.blocks + [NewBlock(b)]);
    ApplyAllCreates(saved, b.basis.height + 1, b.txs, a);
    FoundAmongOps(b.ptx.ops);
    ProposerSpares(ApplyAll(saved, b.basis.height + 1, b.txs).value, b.basis.height + 1, b.ptx, cfg.common, a);
  }

  lemma ProposerSpares(s: State, height: nat, ptx: Tx, common: Address, a: Address)
    requires ApplyProposer(s, height, ptx).Ok? && PaysOnly(ptx, common) && a != common
    ensures var after := ApplyProposer(s, height, ptx).value.book;
            (a in after <==> a in s.book) && (a in after ==> after[a] == s.book[a])
  {
    FoundAmongOps(ptx.ops);
  }

  /**
   A frozen account from its creation on: it starts with the amount of its creation, never holds more,
   and loses exactly its fees until the unfreezing period is over.
   */
  lemma FrozenSinceCreation(hash: Block -> Hash, cfg: Config, states: seq<State>, ballots: seq<Ballot>,
                            i: nat, last: nat, a: Address)
    requires Trace(hash, states, ballots) && Inv(hash, states[0]) && IndexOk(states[0])
    requires Checked(cfg, states, ballots) && i < last <= |ballots|
    requires cfg.common in states[0].book && !states[0].book[cfg.common].IsFrozen()
    requires a !in states[i].book && IsFrozen(states[i + 1], a)
    ensures exists tx, op ::
              && tx in ballots[i].txs && op in tx.ops && CreatedBy(op, a, states[i + 1].book[a])
              && IsFrozen(states[last], a) && states[last].book[a].balance <= op.amount
              && ((i + 1 < last && Unfrozen(states[last - 1], a))
                  || states[last].book[a].balance + FeesPaid(ballots[i + 1..last], a) == op.amount)
  {
    TraceExtends(hash, states, ballots, 0, i);
    CreationInBlock(hash, cfg, states, ballots, i, a);
    FrozenOverChain(hash, cfg, states, ballots, i + 1, last, a);
    var tx, op :| tx in ballots[i].txs && op in tx.ops && CreatedBy(op, a, states[i + 1].book[a]);
  }
}
