/**
 What every event leaves behind, field by field and in terms of the votes held, and what a whole round
 comes to at a node: enough YES votes give the block, and all votes together always settle the round.
 */
module Handlers {
  import opened Voting
  import opened Isaac
  import opened SingleVoting

  /* ---- the votes a node holds ---- */

  function VotersAt(n: Node, slot: IsaacState, proposer: Address): set<Address> {
    set k | k in n.votes && k.slot == slot && k.proposer == proposer :: k.source
  }

  /** The votes for one proposer in one slot, by voter. */
  function Held(n: Node, slot: IsaacState, proposer: Address): map<Address, Hole> {
    map a | a in VotersAt(n, slot, proposer) && VoteKey(slot, proposer, a) in n.votes ::
      n.votes[VoteKey(slot, proposer, a)].vote
  }

  lemma HeldAt(n: Node, slot: IsaacState, proposer: Address, a: Address)
    ensures a in Held(n, slot, proposer) <==> VoteKey(slot, proposer, a) in n.votes
    ensures a in Held(n, slot, proposer) ==>
              Held(n, slot, proposer)[a] == n.votes[VoteKey(slot, proposer, a)].vote
  {
    assert VoteKey(slot, proposer, a) in n.votes ==> a in VotersAt(n, slot, proposer);
  }

  lemma HeldVoters(n: Node, slot: IsaacState, proposer: Address, hole: Hole)
    ensures Voters(Held(n, slot, proposer), hole) == n.ViewOf(slot, proposer, hole)
  {
    forall a ensures a in Voters(Held(n, slot, proposer), hole) <==> a in n.ViewOf(slot, proposer, hole) {
      HeldAt(n, slot, proposer, a);
      var k := VoteKey(slot, proposer, a);
      assert a in n.ViewOf(slot, proposer, hole) <==> k in n.votes && n.votes[k].vote == hole;
    }
  }

  /** Only validators have their votes recorded. */
  ghost predicate KnownVoters(cfg: Config, n: Node) {
    n.me in cfg.order && forall k :: k in n.votes ==> k.source in cfg.order
  }

  lemma ValidatorCount(cfg: Config)
    requires cfg.Valid()
    ensures |cfg.Validators()| == |cfg.order|
  {
    OrderCount(cfg.order);
  }

  lemma {:induction false} OrderCount(order: seq<Address>)
    requires forall i, j :: 0 <= i < j < |order| ==> order[i] != order[j]
    ensures |set a | a in order| == |order|
    decreases |order|
  {
    if order != [] {
      OrderCount(order[1..]);
      assert (set a | a in order) == (set a | a in order[1..]) + {order[0]};
    }
  }

  /** What the votes held so far have come to. */
  datatype Outcome = Open | MajorityYes | MajorityNo | Draw

  ghost function OutcomeOf(cfg: Config, view: map<Address, Hole>): Outcome {
    if |Voters(view, Yes)| >= cfg.threshold then MajorityYes
    else if |Voters(view, No)| >= cfg.threshold then MajorityNo
    else if MajorityIsPossible(cfg.threshold, cfg.Validators(), view) then Open
    else Draw
  }

  /** The program's verdict is that outcome. */
  lemma ResultIsOutcome(cfg: Config, n: Node, b: Ballot)
    requires cfg.Valid() && KnownVoters(cfg, n)
    ensures Result(cfg, n, b) == match OutcomeOf(cfg, Held(n, b.Slot(), b.proposer))
                                 case Open => OPEN
                                 case MajorityYes => Verdict(Yes, true)
                                 case MajorityNo => Verdict(No, true)
                                 case Draw => Verdict(Exp, true)
  {
    var view := Held(n, b.Slot(), b.proposer);
    ValidatorCount(cfg);
    HeldVoters(n, b.Slot(), b.proposer, Yes);
    HeldVoters(n, b.Slot(), b.proposer, No);
    HeldVoters(n, b.Slot(), b.proposer, Exp);
    forall a | a in view ensures a in cfg.Validators() {
      HeldAt(n, b.Slot(), b.proposer, a);
    }
    VerdictIff(cfg.threshold, cfg.Validators(), view);
  }

  /* ---- sending ---- */

  /** The broadcast log after `b` went out, unless its slot was recorded. */
  function Out(n: Node, b: Ballot): seq<Ballot> { if b.Slot() in n.sent then n.out else n.out + [b] }

  lemma BroadcastLeaves(n: Node, b: Ballot)
    ensures Broadcast(n, b).out == Out(n, b) && Broadcast(n, b).sent == n.sent + {b.Slot()}
    ensures Broadcast(n, b) == n.(out := Broadcast(n, b).out, sent := Broadcast(n, b).sent)
  {
    if b.Slot() in n.sent {
      assert n.sent + {b.Slot()} == n.sent;
    }
  }

  /** The proposal of `me` for a round on top of its chain. */
  function OwnProposal(n: Node, round: nat, txs: Txs): Ballot {
    Ballot(n.me, n.me, Basis(|n.chain|, round, n.chain), txs, INIT, Yes)
  }

  /** A state change: only to a later state, and into INIT with a proposal if it is the node's turn. */
  lemma TransitLeaves(cfg: Config, n: Node, target: IsaacState, txs: Txs)
    requires |cfg.order| >= 1
    ensures var m := Transit(cfg, n, target, txs);
            var mine := target.state == INIT && cfg.ProposerOf(|n.chain|, target.round) == n.me;
            && m.manager == (if n.manager.IsLater(target) then target else n.manager)
            && m.out == (if n.manager.IsLater(target) && mine then Out(n, OwnProposal(n, target.round, txs)) else n.out)
            && m.sent == n.sent + (if n.manager.IsLater(target) && mine
                                   then {IsaacState(|n.chain|, target.round, INIT)} else {})
            && m == n.(manager := m.manager, out := m.out, sent := m.sent)
  {
    BroadcastLeaves(n, OwnProposal(n, target.round, txs));
  }

  /* ---- renewal ---- */

  /**
   The votes of the ballot's proposer and slot that are out of date are dropped, and no others. If the
   node's own vote is among them, exactly one EXP ballot of that slot goes out for the selected proposer, with the
   ballot's basis and no transactions; otherwise nothing is sent and nothing is recorded as sent.
   */
  lemma RenewLeaves(cfg: Config, n: Node, b: Ballot, stale: set<Address>)
    requires |cfg.order| >= 1
    ensures var m := Renew(cfg, n, b, stale);
            && (forall k :: k in m.votes <==>
                  k in n.votes && !(k.slot == b.Slot() && k.proposer == b.proposer && k.source in stale))
            && (forall k :: k in m.votes ==> m.votes[k] == n.votes[k])
            && m == n.(votes := m.votes, out := m.out, sent := m.sent)
    ensures VoteKey(b.Slot(), b.proposer, n.me) in n.votes && n.me in stale ==>
              var m := Renew(cfg, n, b, stale);
              var proposer := cfg.ProposerOf(b.basis.height, b.basis.round);
              && m.out == n.out + [Ballot(n.me, proposer, b.basis, [], b.state, Exp)]
              && m.sent == n.sent + {b.Slot()}
    ensures !(VoteKey(b.Slot(), b.proposer, n.me) in n.votes && n.me in stale) ==>
              Renew(cfg, n, b, stale).out == n.out && Renew(cfg, n, b, stale).sent == n.sent
  {
  }

  /** Through the whole handler: an own vote that is out of date when another vote arrives goes out again as EXP. */
  lemma StaleVoteIsRenewed(cfg: Config, n: Node, b: Ballot, judged: Judgement, stale: set<Address>, txs: Txs)
    requires |cfg.order| >= 1 && b.source != n.me && b.source in cfg.order && n.IsValidBasis(b.basis)
    requires b.state in {SIGN, ACCEPT} && b.Key() !in n.votes
    requires VoteKey(b.Slot(), b.proposer, n.me) in n.votes && n.me in stale
    ensures n.out + [Ballot(n.me, cfg.ProposerOf(b.basis.height, b.basis.round), b.basis, [], b.state, Exp)]
            <= Handle(cfg, n, b, judged, stale, txs).out
  {
    var r := Record(n, b);
    RenewLeaves(cfg, r, b, stale);
    var m := Renew(cfg, r, b, stale);
    AfterKeepsOut(cfg, m, b, txs);
  }

  lemma AfterKeepsOut(cfg: Config, m: Node, b: Ballot, txs: Txs)
    requires |cfg.order| >= 1
    ensures m.out <= AfterSign(cfg, m, b, txs).out && m.out <= AfterAccept(cfg, m, b, txs).out
  {
    var expired := b.(source := m.me, state := SIGN, vote := Exp);
    LeaveKeepsOut(cfg, Broadcast(m, expired), b.basis, txs);
    LeaveKeepsOut(cfg, m, b.basis, txs);
    var accept := b.(source := m.me, state := ACCEPT, vote := Result(cfg, m, b).hole);
    TransitKeepsOut(cfg, Broadcast(m, accept), IsaacState(b.basis.height, b.basis.round, ACCEPT), txs);
    StoreKeepsOut(cfg, m, b, txs);
  }

  /* ---- leaving a round ---- */

  lemma DropLeaves(n: Node, basis: Basis)
    ensures var m := DropRounds(n, basis);
            && (forall k :: k in m.votes <==>
                  && k in n.votes
                  && (k.slot.height > basis.height || (k.slot.height == basis.height && k.slot.round > basis.round)))
            && (forall k :: k in m.votes ==> m.votes[k] == n.votes[k])
            && m == n.(votes := m.votes)
  {
  }

  /** The round is marked as the latest one, its votes and all older ones go, and the next round begins. */
  lemma LeaveLeaves(cfg: Config, n: Node, basis: Basis, txs: Txs)
    requires |cfg.order| >= 1
    ensures var m := Leave(cfg, n, basis, txs);
            var next := IsaacState(n.manager.height, basis.round + 1, INIT);
            var mine := cfg.ProposerOf(|n.chain|, basis.round + 1) == n.me;
            && m.latest == Some(basis) && m.left == n.left + {(basis.height, basis.round)}
            && m.manager == (if n.manager.IsLater(next) then next else n.manager)
            && m.out == (if n.manager.IsLater(next) && mine
                         then Out(n, OwnProposal(n, basis.round + 1, txs)) else n.out)
            && m.votes == DropRounds(n, basis).votes && m.chain == n.chain && m.me == n.me
  {
    var n1 := n.(latest := Some(basis), left := n.left + {(basis.height, basis.round)});
    TransitLeaves(cfg, n1, IsaacState(n.manager.height, basis.round + 1, INIT), txs);
  }

  /* ---- a SIGN vote ---- */

  /** The ballot gets as far as its handler: the node's own, or a validator's on a valid basis. */
  predicate Heeded(cfg: Config, n: Node, b: Ballot) {
    b.source == n.me || (b.source in cfg.order && n.IsValidBasis(b.basis))
  }

  /** A new vote in its slot, before anything is made of it. */
  function Taken(cfg: Config, n: Node, b: Ballot, stale: set<Address>): Node
    requires |cfg.order| >= 1
  {
    Renew(cfg, Record(n, b), b, stale)
  }

  lemma TakenKnown(cfg: Config, n: Node, b: Ballot, stale: set<Address>)
    requires cfg.Valid() && KnownVoters(cfg, n) && (b.source == n.me || b.source in cfg.order)
    ensures KnownVoters(cfg, Taken(cfg, n, b, stale))
  {
    RenewLeaves(cfg, Record(n, b), b, stale);
  }

  /** An ACCEPT vote for `hole` went out, unless its slot was recorded, and the manager is in ACCEPT or later. */
  ghost predicate Answered(m: Node, b: Ballot, hole: Hole, after: Node) {
    var accepting := IsaacState(b.basis.height, b.basis.round, ACCEPT);
    && after.out == Out(m, b.(source := m.me, state := ACCEPT, vote := hole))
    && after == m.(out := after.out, sent := m.sent + {accepting},
                   manager := if m.manager.IsLater(accepting) then accepting else m.manager)
  }

  lemma AnswerLeaves(cfg: Config, m: Node, b: Ballot, hole: Hole, txs: Txs)
    requires |cfg.order| >= 1
    ensures Answered(m, b, hole, Transit(cfg, Broadcast(m, b.(source := m.me, state := ACCEPT, vote := hole)),
                                         IsaacState(b.basis.height, b.basis.round, ACCEPT), txs))
  {
    var c := b.(source := m.me, state := ACCEPT, vote := hole);
    BroadcastLeaves(m, c);
    TransitLeaves(cfg, Broadcast(m, c), IsaacState(b.basis.height, b.basis.round, ACCEPT), txs);
  }

  lemma HandleIsAfterSign(cfg: Config, n: Node, b: Ballot, judged: Judgement, stale: set<Address>, txs: Txs)
    requires |cfg.order| >= 1 && Heeded(cfg, n, b) && b.state == SIGN && b.Key() !in n.votes
    ensures Handle(cfg, n, b, judged, stale, txs) == AfterSign(cfg, Taken(cfg, n, b, stale), b, txs)
  {
  }

  /** What a SIGN vote comes to, by the votes then held. */
  ghost predicate SignEffect(cfg: Config, m: Node, b: Ballot, txs: Txs, after: Node)
    requires |cfg.order| >= 1
  {
    match OutcomeOf(cfg, Held(m, b.Slot(), b.proposer))
    case Open => after == m
    case MajorityYes => Answered(m, b, Yes, after)
    case MajorityNo => Answered(m, b, No, after)
    case Draw =>
      var expired := Broadcast(m, b.(source := m.me, vote := Exp));
      expired.out == Out(m, b.(source := m.me, vote := Exp)) && after == Leave(cfg, expired, b.basis, txs)
  }

  lemma AfterSignLeaves(cfg: Config, m: Node, b: Ballot, txs: Txs)
    requires cfg.Valid() && KnownVoters(cfg, m) && b.state == SIGN
    ensures SignEffect(cfg, m, b, txs, AfterSign(cfg, m, b, txs))
  {
    ResultIsOutcome(cfg, m, b);
    AnswerLeaves(cfg, m, b, Result(cfg, m, b).hole, txs);
    BroadcastLeaves(m, b.(source := m.me, vote := Exp));
    assert b.(source := m.me, vote := Exp) == b.(source := m.me, state := SIGN, vote := Exp);
  }

  /**
   What a new SIGN vote leaves behind, by the votes then held: an ACCEPT vote for a majority, an EXP vote
   and the next round for a draw, and nothing more while a majority is possible.
   */
  lemma SignLeaves(cfg: Config, n: Node, b: Ballot, judged: Judgement, stale: set<Address>, txs: Txs)
    requires cfg.Valid() && KnownVoters(cfg, n) && Heeded(cfg, n, b) && b.state == SIGN && b.Key() !in n.votes
    ensures SignEffect(cfg, Taken(cfg, n, b, stale), b, txs, Handle(cfg, n, b, judged, stale, txs))
    ensures Taken(cfg, n, b, stale).me == n.me
  {
    HandleIsAfterSign(cfg, n, b, judged, stale, txs);
    TakenKnown(cfg, n, b, stale);
    RenewLeaves(cfg, Record(n, b), b, stale);
    AfterSignLeaves(cfg, Taken(cfg, n, b, stale), b, txs);
  }

  /* ---- an ACCEPT vote ---- */

  /** Storing: the block goes on top, votes and send records up to its height go, and the next height begins. */
  lemma StoreLeaves(cfg: Config, n: Node, b: Ballot, txs: Txs)
    requires |cfg.order| >= 1 && b.basis.height == |n.chain| && b.basis.prev == n.chain
    ensures var m := Store(cfg, n, b, txs);
            && m.chain == n.chain + [Block(b.basis.round, b.proposer, b.txs)]
            && m.latest == Some(b.basis) && m.left == n.left && m.me == n.me
            && (forall k :: k in m.votes <==> k in n.votes && k.slot.height > b.basis.height)
            && (forall k :: k in m.votes ==> m.votes[k] == n.votes[k])
            && (forall x :: x in n.sent && x.height <= b.basis.height ==> x !in m.sent)
            && (n.manager.height <= b.basis.height ==>
                  var first := Ballot(n.me, n.me, Basis(|m.chain|, 0, m.chain), txs, INIT, Yes);
                  && m.manager == IsaacState(|m.chain|, 0, INIT)
                  && m.out == (if cfg.ProposerOf(|m.chain|, 0) == n.me && first.Slot() !in n.sent
                               then n.out + [first] else n.out))
  {
    var done := IsaacState(b.basis.height, b.basis.round, ALLCONFIRM);
    TransitLeaves(cfg, n, done, txs);
    var n1 := Transit(cfg, n, done, txs);
    var n2 := n1.(chain := n1.chain + [Block(b.basis.round, b.proposer, b.txs)], latest := Some(b.basis));
    var n3 := DropHeight(n2, b.basis.height);
    TransitLeaves(cfg, n3, IsaacState(|n3.chain|, 0, INIT), txs);
  }

  /** What a new ACCEPT vote leaves behind: the block for a majority of YES, the next round for NO or a draw. */
  lemma AcceptLeaves(cfg: Config, n: Node, b: Ballot, judged: Judgement, stale: set<Address>, txs: Txs)
    requires cfg.Valid() && KnownVoters(cfg, n) && Heeded(cfg, n, b) && b.state == ACCEPT && b.Key() !in n.votes
    ensures var m := Taken(cfg, n, b, stale);
            var after := Handle(cfg, n, b, judged, stale, txs);
            match OutcomeOf(cfg, Held(m, b.Slot(), b.proposer))
            case Open => after == m
            case MajorityYes => after == Store(cfg, m, b, txs)
            case MajorityNo => after == Leave(cfg, m, b.basis, txs)
            case Draw => after == Leave(cfg, m, b.basis, txs)
  {
    var m := Taken(cfg, n, b, stale);
    TakenKnown(cfg, n, b, stale);
    ResultIsOutcome(cfg, m, b);
  }

  /* ---- ballots that are not handled, and other events ---- */

  /** The basis the node would vote on: its height and chain, and a round it has not left. */
  predicate OnTop(n: Node, basis: Basis) {
    && basis.height == |n.chain|
    && ( || (n.latest.None? && basis.height == 1)
         || (basis.prev == n.chain && (n.latest.None? || n.latest.value.height != basis.height
                                       || n.latest.value.round < basis.round)))
  }

  /**
   A foreign ballot changes nothing if its voter is no validator, if its basis is not on top, or if its
   vote is known. Of a height not reached yet only a new ACCEPT vote for YES or EXP is recorded.
   */
  lemma ForeignBallotLeaves(cfg: Config, n: Node, b: Ballot, judged: Judgement, stale: set<Address>, txs: Txs)
    requires |cfg.order| >= 1 && b.source != n.me
    ensures var after := Handle(cfg, n, b, judged, stale, txs);
            && (b.source !in cfg.order ==> after == n)
            && (b.basis.height <= |n.chain| && !OnTop(n, b.basis) ==> after == n)
            && (b.state in {SIGN, ACCEPT} && b.Key() in n.votes ==> after == n)
            && (b.source in cfg.order && b.basis.height > |n.chain| && b.Key() !in n.votes ==>
                  after == if b.state == ACCEPT && (b.vote == Yes || b.vote == Exp)
                           then n.(votes := n.votes[b.Key() := b]) else n)
  {
  }

  /**
   The timer: INIT gives way to SIGN, an unanswered SIGN or ACCEPT expires, and ALLCONFIRM goes to the next round.
   */
  lemma TimerLeaves(cfg: Config, n: Node, txs: Txs)
    requires |cfg.order| >= 1
    ensures var m := Timeout(cfg, n, txs);
            match n.manager.state
            case NONE => m == n
            case INIT => m == n.(manager := IsaacState(n.manager.height, n.manager.round, SIGN))
            case ALLCONFIRM =>
              var round := if n.latest.None? then 1 else n.latest.value.round + 1;
              var next := IsaacState(n.manager.height, round, INIT);
              && m.manager == (if n.manager.IsLater(next) then next else n.manager)
              && m.out == (if n.manager.IsLater(next) && cfg.ProposerOf(|n.chain|, round) == n.me
                           then Out(n, OwnProposal(n, round, txs)) else n.out)
              && m == n.(manager := m.manager, out := m.out, sent := m.sent)
            case state =>
              var expired := Ballot(n.me, cfg.ProposerOf(|n.chain|, n.manager.round),
                                    Basis(|n.chain|, n.manager.round, n.chain), [], state, Exp);
              && m.out == (if n.manager in n.sent then n.out else Out(n, expired))
              && m == n.(out := m.out, sent := m.sent)
              && (n.manager !in n.sent ==> m.sent == n.sent + {expired.Slot()})
  {
    var round := if n.latest.None? then 1 else n.latest.value.round + 1;
    TransitLeaves(cfg, n, IsaacState(n.manager.height, round, INIT), txs);
    BroadcastLeaves(n, Ballot(n.me, cfg.ProposerOf(|n.chain|, n.manager.round),
                              Basis(|n.chain|, n.manager.round, n.chain), [], n.manager.state, Exp));
  }

  /** A start: round 0 on top of the chain. */
  lemma StartLeaves(cfg: Config, n: Node, txs: Txs)
    requires |cfg.order| >= 1
    ensures var m := NodeStep(cfg, n, Start(txs));
            var first := IsaacState(|n.chain|, 0, INIT);
            && m.manager == (if n.manager.IsLater(first) then first else n.manager)
            && m.out == (if n.manager.IsLater(first) && cfg.ProposerOf(|n.chain|, 0) == n.me
                         then Out(n, OwnProposal(n, 0, txs)) else n.out)
            && m == n.(manager := m.manager, out := m.out, sent := m.sent)
  {
    TransitLeaves(cfg, n, IsaacState(|n.chain|, 0, INIT), txs);
  }
}
