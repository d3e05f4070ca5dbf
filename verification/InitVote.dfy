/**
 The vote on a proposal: what a node answers, why, and what every SIGN YES it ever sent says about the
 proposal. The verdict is that of the checks of module Proposal.
 */
module InitVote {
  import M = Amounts
  import opened Voting
  import opened Isaac
  import opened SingleVoting
  import opened Handlers
  import P = Proposal

  /* ---- the answer to one proposal ---- */

  /** The answer to a proposal that is not the node's own. */
  predicate Approves(cfg: Config, b: Ballot, judged: Judgement)
    requires |cfg.order| >= 1
  {
    judged.Accepted? && b.proposer == cfg.ProposerOf(b.basis.height, b.basis.round)
  }

  function Answer(n: Node, b: Ballot, hole: Hole): Ballot { b.(source := n.me, state := SIGN, vote := hole) }

  /**
   A proposal of another validator on a valid basis, in a slot not used yet: one SIGN vote goes out. It is
   YES if and only if the proposal was accepted and its proposer is the selected one, and NO otherwise. A stopped check
   sends nothing.
   */
  lemma ForeignProposalAnswered(cfg: Config, n: Node, b: Ballot, judged: Judgement, stale: set<Address>, txs: Txs)
    requires |cfg.order| >= 1 && b.source != n.me && b.source in cfg.order && n.IsValidBasis(b.basis)
    requires b.state == INIT && b.Slot().(state := SIGN) !in n.sent
    ensures var after := Handle(cfg, n, b, judged, stale, txs);
            if judged.Stopped? then after == n
            else
              && after.out == n.out + [Answer(n, b, if Approves(cfg, b, judged) then Yes else No)]
              && after.sent == n.sent + {b.Slot().(state := SIGN)}
              && after.votes == n.votes && after.chain == n.chain && after.latest == n.latest
  {
    var signing := IsaacState(b.basis.height, b.basis.round, SIGN);
    var c := Answer(n, b, if Approves(cfg, b, judged) then Yes else No);
    BroadcastLeaves(n, c);
    TransitLeaves(cfg, Broadcast(n, c), signing, txs);
  }

  /** An own proposal is answered with YES. */
  lemma OwnProposalAnswered(cfg: Config, n: Node, b: Ballot, judged: Judgement, stale: set<Address>, txs: Txs)
    requires |cfg.order| >= 1 && b.source == n.me && b.state == INIT
    ensures Handle(cfg, n, b, judged, stale, txs).out == Out(n, Answer(n, b, Yes))
  {
    BroadcastLeaves(n, Answer(n, b, Yes));
    TransitLeaves(cfg, Broadcast(n, Answer(n, b, Yes)), IsaacState(b.basis.height, b.basis.round, SIGN), txs);
  }

  /* ---- what a SIGN vote says ---- */

  /** The event that a SIGN YES answers. */
  predicate Answers(cfg: Config, me: Address, c: Ballot, e: Event)
    requires |cfg.order| >= 1
  {
    && e.Deliver? && e.ballot.state == INIT && c == e.ballot.(source := me, state := SIGN, vote := Yes)
    && (e.ballot.source == me || (e.ballot.source in cfg.order && Approves(cfg, e.ballot, e.judged)))
  }

  /** Every SIGN YES among `out` answers an event of the run. */
  ghost predicate Grounded(cfg: Config, me: Address, out: seq<Ballot>, events: seq<Event>)
    requires |cfg.order| >= 1
  {
    forall c :: c in out && c.state == SIGN && c.vote == Yes ==>
      exists i :: 0 <= i < |events| && Answers(cfg, me, c, events[i])
  }

  /** The ballots a step adds are no SIGN YES, or answer its event. */
  ghost predicate AddsGrounded(cfg: Config, n: Node, e: Event, m: Node)
    requires |cfg.order| >= 1
  {
    && m.me == n.me
    && (forall c :: c in m.out && c !in n.out && c.state == SIGN && c.vote == Yes ==> Answers(cfg, n.me, c, e))
  }

  /** Nothing but old ballots, EXP, ACCEPT and INIT ballots. */
  ghost predicate NoNewSign(n: Node, m: Node) {
    m.me == n.me && forall c :: c in m.out && c !in n.out ==> c.state != SIGN || c.vote == Exp
  }

  lemma NoNewTransitive(n: Node, m: Node, l: Node)
    requires NoNewSign(n, m) && NoNewSign(m, l)
    ensures NoNewSign(n, l)
  {
  }

  lemma TransitNoSign(cfg: Config, n: Node, target: IsaacState, txs: Txs)
    requires |cfg.order| >= 1
    ensures NoNewSign(n, Transit(cfg, n, target, txs))
  {
    TransitLeaves(cfg, n, target, txs);
  }

  lemma LeaveNoSign(cfg: Config, n: Node, basis: Basis, txs: Txs)
    requires |cfg.order| >= 1
    ensures NoNewSign(n, Leave(cfg, n, basis, txs))
  {
    LeaveLeaves(cfg, n, basis, txs);
  }

  lemma StoreNoSign(cfg: Config, n: Node, b: Ballot, txs: Txs)
    requires |cfg.order| >= 1
    ensures NoNewSign(n, Store(cfg, n, b, txs))
  {
    var done := IsaacState(b.basis.height, b.basis.round, ALLCONFIRM);
    TransitNoSign(cfg, n, done, txs);
    var n1 := Transit(cfg, n, done, txs);
    if b.basis.height == n1.Height() && b.basis.prev == n1.chain {
      var n2 := n1.(chain := n1.chain + [Block(b.basis.round, b.proposer, b.txs)], latest := Some(b.basis));
      var n3 := DropHeight(n2, b.basis.height);
      TransitNoSign(cfg, n3, IsaacState(n3.Height(), 0, INIT), txs);
      NoNewTransitive(n, n3, Transit(cfg, n3, IsaacState(n3.Height(), 0, INIT), txs));
    }
  }

  lemma SendNoSign(n: Node, b: Ballot)
    requires b.state != SIGN || b.vote == Exp
    ensures NoNewSign(n, Broadcast(n, b))
  {
  }

  lemma RenewNoSign(cfg: Config, n: Node, b: Ballot, stale: set<Address>)
    requires |cfg.order| >= 1
    ensures NoNewSign(n, Renew(cfg, n, b, stale))
  {
    RenewLeaves(cfg, n, b, stale);
  }

  lemma SignNoSign(cfg: Config, n: Node, b: Ballot, stale: set<Address>, txs: Txs)
    requires |cfg.order| >= 1
    ensures NoNewSign(n, HandleSign(cfg, n, b, stale, txs))
  {
    if b.Key() !in n.votes {
      RenewNoSign(cfg, Record(n, b), b, stale);
      var m := Renew(cfg, Record(n, b), b, stale);
      var expired := b.(source := m.me, state := SIGN, vote := Exp);
      SendNoSign(m, expired);
      LeaveNoSign(cfg, Broadcast(m, expired), b.basis, txs);
      NoNewTransitive(m, Broadcast(m, expired), Leave(cfg, Broadcast(m, expired), b.basis, txs));
      var accept := b.(source := m.me, state := ACCEPT, vote := Result(cfg, m, b).hole);
      var accepting := IsaacState(b.basis.height, b.basis.round, ACCEPT);
      SendNoSign(m, accept);
      TransitNoSign(cfg, Broadcast(m, accept), accepting, txs);
      NoNewTransitive(m, Broadcast(m, accept), Transit(cfg, Broadcast(m, accept), accepting, txs));
      NoNewTransitive(n, m, AfterSign(cfg, m, b, txs));
    }
  }

  lemma AcceptNoSign(cfg: Config, n: Node, b: Ballot, stale: set<Address>, txs: Txs)
    requires |cfg.order| >= 1
    ensures NoNewSign(n, HandleAccept(cfg, n, b, stale, txs))
  {
    if b.Key() !in n.votes {
      RenewNoSign(cfg, Record(n, b), b, stale);
      var m := Renew(cfg, Record(n, b), b, stale);
      LeaveNoSign(cfg, m, b.basis, txs);
      StoreNoSign(cfg, m, b, txs);
      NoNewTransitive(n, m, AfterAccept(cfg, m, b, txs));
    }
  }

  lemma InitGrounded(cfg: Config, n: Node, b: Ballot, judged: Judgement, stale: set<Address>, txs: Txs)
    requires |cfg.order| >= 1 && b.state == INIT && Heeded(cfg, n, b)
    ensures AddsGrounded(cfg, n, Deliver(b, judged, stale, txs), HandleInit(cfg, n, b, judged, txs))
  {
    if b.source == n.me || !judged.Stopped? {
      var hole := if b.source == n.me || Approves(cfg, b, judged) then Yes else No;
      var c := Answer(n, b, hole);
      BroadcastLeaves(n, c);
      TransitLeaves(cfg, Broadcast(n, c), IsaacState(b.basis.height, b.basis.round, SIGN), txs);
    }
  }

  lemma StepGrounded(cfg: Config, n: Node, e: Event)
    requires |cfg.order| >= 1
    ensures AddsGrounded(cfg, n, e, NodeStep(cfg, n, e))
  {
    match e {
      case Start(txs) => TransitNoSign(cfg, n, IsaacState(n.Height(), 0, INIT), txs);
      case Timer(txs) => TimerLeaves(cfg, n, txs);
      case Deliver(b, judged, stale, txs) =>
        if Heeded(cfg, n, b) && (b.source == n.me || b.basis.height <= n.Height()) {
          match b.state {
            case INIT => InitGrounded(cfg, n, b, judged, stale, txs);
            case SIGN => SignNoSign(cfg, n, b, stale, txs);
            case ACCEPT => AcceptNoSign(cfg, n, b, stale, txs);
            case _ =>
          }
        }
    }
  }

  lemma GroundedLater(cfg: Config, me: Address, out: seq<Ballot>, events: seq<Event>, e: Event)
    requires |cfg.order| >= 1 && Grounded(cfg, me, out, events)
    ensures Grounded(cfg, me, out, events + [e])
  {
    forall c | c in out && c.state == SIGN && c.vote == Yes
      ensures exists i :: 0 <= i < |events + [e]| && Answers(cfg, me, c, (events + [e])[i])
    {
      var i :| 0 <= i < |events| && Answers(cfg, me, c, events[i]);
      assert (events + [e])[i] == events[i];
    }
  }

  /** Every SIGN YES a node ever sent answers an own proposal, or one of the selected proposer that was accepted. */
  lemma {:induction false} SignYesIsGrounded(cfg: Config, me: Address, events: seq<Event>)
    requires |cfg.order| >= 1
    ensures NodeRun(cfg, InitialNode(me), events).me == me
    ensures Grounded(cfg, me, NodeRun(cfg, InitialNode(me), events).out, events)
    decreases |events|
  {
    if events != [] {
      var front, e := events[..|events| - 1], events[|events| - 1];
      assert events == front + [e];
      SignYesIsGrounded(cfg, me, front);
      RunAppend(cfg, InitialNode(me), front, e);
      var n := NodeRun(cfg, InitialNode(me), front);
      StepGrounded(cfg, n, e);
      GroundedLater(cfg, me, n.out, front, e);
      var m := NodeStep(cfg, n, e);
      forall c | c in m.out && c.state == SIGN && c.vote == Yes
        ensures exists i :: 0 <= i < |events| && Answers(cfg, me, c, events[i])
      {
        if c !in n.out {
          assert Answers(cfg, me, c, events[|events| - 1]);
        }
      }
    }
  }

  /* ---- the checks behind the vote ---- */

  /** What a node knows when it checks a proposal: its content, the transactions found, those stored, the height. */
  datatype Known = Known(proposal: P.Proposal, cache: P.Cache, stored: set<string>, height: nat)

  /**
   The verdict of the checks on a ballot: an ill-formed one or one with unexpected amounts stops the
   handler, and so does a panic; otherwise the transactions decide.
   */
  function Judge(conf: P.Conf, k: Known): Judgement {
    if !P.PtxWellFormed(conf, k.proposal) || !P.AmountsExpected(conf, k.proposal, k.height) then Stopped
    else
      var r := P.InitCheck(conf, k.proposal, k.cache, k.stored);
      if !r.Ok? then Stopped else if r.value then Accepted else Rejected
  }

  /** The ballot carries this proposal. */
  predicate Carries(b: Ballot, p: P.Proposal) {
    && p.proposer == b.proposer && p.txs == b.txs
    && p.basis.height == b.basis.height && p.basis.round == b.basis.round
  }

  /** Foreign proposals are judged by the checks, on what the node knew at that moment. */
  ghost predicate JudgedRun(conf: P.Conf, me: Address, events: seq<Event>, known: seq<Known>) {
    && |known| == |events|
    && (forall i :: 0 <= i < |events| && events[i].Deliver? && events[i].ballot.state == INIT ==>
          Carries(events[i].ballot, known[i].proposal)
          && (events[i].ballot.source != me ==> events[i].judged == Judge(conf, known[i])))
  }

  /** A proposal that deserves a YES. */
  ghost predicate Deserves(conf: P.Conf, k: Known) {
    && P.PtxWellFormed(conf, k.proposal) && P.AmountsExpected(conf, k.proposal, k.height)
    && P.Acceptable(conf, k.proposal, k.cache, k.stored)
  }

  lemma JudgedIff(conf: P.Conf, k: Known)
    ensures Judge(conf, k).Accepted? <==> Deserves(conf, k)
  {
    P.InitCheckIff(conf, k.proposal, k.cache, k.stored);
  }

  /**
   Over any run: every SIGN YES a node sent is for the transactions of its own proposal, or for those of a
   proposal of the selected proposer that deserved it by what the node knew.
   */
  lemma SignYesWasDeserved(cfg: Config, conf: P.Conf, me: Address, events: seq<Event>, known: seq<Known>, c: Ballot)
    requires |cfg.order| >= 1 && JudgedRun(conf, me, events, known)
    requires c in NodeRun(cfg, InitialNode(me), events).out && c.state == SIGN && c.vote == Yes
    ensures exists i ::
              && 0 <= i < |events| && events[i].Deliver? && events[i].ballot.state == INIT
              && c == events[i].ballot.(source := me, state := SIGN, vote := Yes)
              && Carries(c, known[i].proposal)
              && (events[i].ballot.source == me
                  || (Deserves(conf, known[i]) && c.proposer == cfg.ProposerOf(c.basis.height, c.basis.round)))
  {
    SignYesIsGrounded(cfg, me, events);
    var i :| 0 <= i < |events| && Answers(cfg, me, c, events[i]);
    JudgedIff(conf, known[i]);
  }

  /**
   And no deserved YES is withheld: a proposal of the selected proposer, judged by the checks, on a valid
   basis and in a slot not used yet, gets YES if and only if it deserves it, and otherwise NO unless the checks stopped.
   */
  lemma VoteIsVerdict(cfg: Config, conf: P.Conf, n: Node, b: Ballot, k: Known, stale: set<Address>, txs: Txs)
    requires |cfg.order| >= 1 && b.source != n.me && b.source in cfg.order && n.IsValidBasis(b.basis)
    requires b.state == INIT && b.Slot().(state := SIGN) !in n.sent
    requires b.proposer == cfg.ProposerOf(b.basis.height, b.basis.round)
    ensures var after := Handle(cfg, n, b, Judge(conf, k), stale, txs);
            && (after.out == n.out + [Answer(n, b, Yes)] <==> Deserves(conf, k))
            && (after.out == n.out + [Answer(n, b, No)] <==>
                  && P.PtxWellFormed(conf, k.proposal) && P.AmountsExpected(conf, k.proposal, k.height)
                  && P.InitCheck(conf, k.proposal, k.cache, k.stored) == M.Ok(false))
  {
    ForeignProposalAnswered(cfg, n, b, Judge(conf, k), stale, txs);
    JudgedIff(conf, k);
    P.InitCheckIff(conf, k.proposal, k.cache, k.stored);
    assert Answer(n, b, Yes) != Answer(n, b, No);
    assert (n.out + [Answer(n, b, Yes)])[|n.out|] == Answer(n, b, Yes);
    assert (n.out + [Answer(n, b, No)])[|n.out|] == Answer(n, b, No);
  }

  /** A transaction that is already stored: the proposal gets a NO. */
  lemma StoredTransactionIsRefused(cfg: Config, conf: P.Conf, n: Node, b: Ballot, k: Known, h: string, txs: Txs)
    requires |cfg.order| >= 1 && b.source != n.me && b.source in cfg.order && n.IsValidBasis(b.basis)
    requires b.state == INIT && b.Slot().(state := SIGN) !in n.sent && Carries(b, k.proposal)
    requires P.PtxWellFormed(conf, k.proposal) && P.AmountsExpected(conf, k.proposal, k.height)
    requires h in b.txs && h in k.stored
    ensures Answer(n, b, No) in Handle(cfg, n, b, Judge(conf, k), {}, txs).out
  {
    P.InitCheckIff(conf, k.proposal, k.cache, k.stored);
    assert h in k.proposal.txs;
    ForeignProposalAnswered(cfg, n, b, Judge(conf, k), {}, txs);
    var after := Handle(cfg, n, b, Judge(conf, k), {}, txs);
    assert after.out[|n.out|] == Answer(n, b, No);
  }
}
