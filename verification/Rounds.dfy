/**
 What a round comes to. At any node, any T of the V validators that vote YES give the block, in whatever
 order their votes arrive; and in no run does a node sit on a full set of votes without having acted on it.
 */
module Rounds {
  import opened Voting
  import opened Isaac
  import opened SingleVoting
  import opened Handlers
  import A = Agreement

  /* ---- votes for YES ---- */

  function Yea(p: Ballot, who: Address, state: BallotState): Ballot { p.(source := who, state := state, vote := Yes) }

  function SlotOf(p: Ballot, state: BallotState): IsaacState { IsaacState(p.basis.height, p.basis.round, state) }

  function Got(b: Ballot): Event { Deliver(b, Accepted, {}, []) }

  /** The YES votes of `voters`, one after the other. */
  function Yeas(p: Ballot, voters: seq<Address>, state: BallotState): seq<Event> {
    seq(|voters|, i requires 0 <= i < |voters| => Got(Yea(p, voters[i], state)))
  }

  lemma YeasSplit(p: Ballot, voters: seq<Address>, state: BallotState)
    requires voters != []
    ensures Yeas(p, voters, state)
            == Yeas(p, voters[..|voters| - 1], state) + [Got(Yea(p, voters[|voters| - 1], state))]
  {
  }

  predicate Distinct(voters: seq<Address>) {
    forall i, j :: 0 <= i < j < |voters| ==> voters[i] != voters[j]
  }

  /** The basis is on top of the node's chain, and the node holds no vote of the slot. */
  ghost predicate Awaits(cfg: Config, n: Node, p: Ballot, state: BallotState) {
    && cfg.Valid() && KnownVoters(cfg, n) && n.IsValidBasis(p.basis) && p.basis.prev == n.chain
    && (forall k :: k in n.votes ==> k.slot != SlotOf(p, state))
  }

  /** The node with the YES votes of `voters` recorded. */
  function Counted(n: Node, p: Ballot, voters: seq<Address>, state: BallotState): Node {
    if voters == [] then n
    else Record(Counted(n, p, voters[..|voters| - 1], state), Yea(p, voters[|voters| - 1], state))
  }

  lemma {:induction false} CountedVotes(cfg: Config, n: Node, p: Ballot, voters: seq<Address>, state: BallotState)
    requires Awaits(cfg, n, p, state) && forall a :: a in voters ==> a in cfg.order
    ensures var m := Counted(n, p, voters, state);
            && m == n.(votes := m.votes) && KnownVoters(cfg, m)
            && (forall k: VoteKey :: k in m.votes && k.slot == SlotOf(p, state) <==>
                  k.slot == SlotOf(p, state) && k.proposer == p.proposer && k.source in voters)
            && (forall k :: k in m.votes && k.slot == SlotOf(p, state) ==> m.votes[k].vote == Yes)
            && (forall k: VoteKey :: k.slot != SlotOf(p, state) ==> (k in m.votes <==> k in n.votes))
            && (forall k :: k in n.votes ==> k in m.votes && m.votes[k] == n.votes[k])
    decreases |voters|
  {
    if voters != [] {
      var front, last := voters[..|voters| - 1], voters[|voters| - 1];
      CountedVotes(cfg, n, p, front, state);
      assert voters == front + [last];
    }
  }

  lemma CountedView(cfg: Config, n: Node, p: Ballot, voters: seq<Address>, state: BallotState)
    requires Awaits(cfg, n, p, state) && Distinct(voters) && forall a :: a in voters ==> a in cfg.order
    ensures var view := Held(Counted(n, p, voters, state), SlotOf(p, state), p.proposer);
            && Voters(view, Yes) == (set a | a in voters) && Voters(view, No) == {} && Voters(view, Exp) == {}
            && |Voters(view, Yes)| == |voters|
  {
    CountedVotes(cfg, n, p, voters, state);
    var m := Counted(n, p, voters, state);
    forall a ensures a in Held(m, SlotOf(p, state), p.proposer) <==> a in voters {
      HeldAt(m, SlotOf(p, state), p.proposer, a);
    }
    forall a | a in voters ensures Held(m, SlotOf(p, state), p.proposer)[a] == Yes {
      HeldAt(m, SlotOf(p, state), p.proposer, a);
    }
    OrderCount(voters);
  }

  /** Fewer than T votes for YES leave the vote open, T of them decide it. */
  lemma CountedOutcome(cfg: Config, n: Node, p: Ballot, voters: seq<Address>, state: BallotState)
    requires Awaits(cfg, n, p, state) && Distinct(voters) && forall a :: a in voters ==> a in cfg.order
    ensures OutcomeOf(cfg, Held(Counted(n, p, voters, state), SlotOf(p, state), p.proposer))
            == if |voters| < cfg.threshold then Open else MajorityYes
  {
    CountedView(cfg, n, p, voters, state);
    var view := Held(Counted(n, p, voters, state), SlotOf(p, state), p.proposer);
    ValidatorCount(cfg);
    forall a | a in view ensures a in cfg.Validators() {
      CountedVotes(cfg, n, p, voters, state);
      HeldAt(Counted(n, p, voters, state), SlotOf(p, state), p.proposer, a);
    }
    MajorityIsPossibleIff(cfg.threshold, cfg.Validators(), view);
  }

  /** The last of several votes, taken by a node that has counted the others. */
  lemma LastYea(cfg: Config, n: Node, p: Ballot, voters: seq<Address>, state: BallotState)
    requires Awaits(cfg, n, p, state) && Distinct(voters) && (forall a :: a in voters ==> a in cfg.order)
    requires voters != []
    ensures var m := Counted(n, p, voters[..|voters| - 1], state);
            var b := Yea(p, voters[|voters| - 1], state);
            && b.Key() !in m.votes && KnownVoters(cfg, m) && m.IsValidBasis(p.basis) && m.me == n.me
            && Taken(cfg, m, b, {}) == Counted(n, p, voters, state)
  {
    var front := voters[..|voters| - 1];
    CountedVotes(cfg, n, p, front, state);
    var m, b := Counted(n, p, front, state), Yea(p, voters[|voters| - 1], state);
    assert b.source !in front by {
      forall i | 0 <= i < |front| ensures front[i] != b.source {
        assert front[i] == voters[i];
      }
    }
    NothingStale(cfg, Record(m, b), b);
  }

  /** While fewer than T votes are in, they are counted and nothing else happens. */
  lemma {:induction false} YeasAreCounted(cfg: Config, n: Node, p: Ballot, voters: seq<Address>, state: BallotState)
    requires Awaits(cfg, n, p, state) && Distinct(voters) && (forall a :: a in voters ==> a in cfg.order)
    requires state in {SIGN, ACCEPT} && |voters| < cfg.threshold
    ensures NodeRun(cfg, n, Yeas(p, voters, state)) == Counted(n, p, voters, state)
    decreases |voters|
  {
    if voters != [] {
      var front, b := voters[..|voters| - 1], Yea(p, voters[|voters| - 1], state);
      YeasAreCounted(cfg, n, p, front, state);
      YeasSplit(p, voters, state);
      RunAppend(cfg, n, Yeas(p, front, state), Got(b));
      OneMoreCounted(cfg, n, p, voters, state);
    }
  }

  lemma OneMoreCounted(cfg: Config, n: Node, p: Ballot, voters: seq<Address>, state: BallotState)
    requires Awaits(cfg, n, p, state) && Distinct(voters) && (forall a :: a in voters ==> a in cfg.order)
    requires state in {SIGN, ACCEPT} && 0 < |voters| < cfg.threshold
    ensures Handle(cfg, Counted(n, p, voters[..|voters| - 1], state), Yea(p, voters[|voters| - 1], state),
                   Accepted, {}, []) == Counted(n, p, voters, state)
  {
    var m, b := Counted(n, p, voters[..|voters| - 1], state), Yea(p, voters[|voters| - 1], state);
    LastYea(cfg, n, p, voters, state);
    CountedOutcome(cfg, n, p, voters, state);
    if state == SIGN {
      SignLeaves(cfg, m, b, Accepted, {}, []);
    } else {
      AcceptLeaves(cfg, m, b, Accepted, {}, []);
    }
  }

  /** The node that has counted all votes but the last gets the last one. */
  lemma LastOfRun(cfg: Config, n: Node, p: Ballot, voters: seq<Address>, state: BallotState)
    requires Awaits(cfg, n, p, state) && Distinct(voters) && (forall a :: a in voters ==> a in cfg.order)
    requires state in {SIGN, ACCEPT} && |voters| == cfg.threshold
    ensures NodeRun(cfg, n, Yeas(p, voters, state))
            == Handle(cfg, Counted(n, p, voters[..|voters| - 1], state), Yea(p, voters[|voters| - 1], state),
                      Accepted, {}, [])
  {
    var front, b := voters[..|voters| - 1], Yea(p, voters[|voters| - 1], state);
    YeasAreCounted(cfg, n, p, front, state);
    YeasSplit(p, voters, state);
    RunAppend(cfg, n, Yeas(p, front, state), Got(b));
  }

  /** T SIGN votes for YES, in any order, make the node send ACCEPT YES, unless that slot was used. */
  lemma SignMajorityAccepts(cfg: Config, n: Node, p: Ballot, voters: seq<Address>)
    requires Awaits(cfg, n, p, SIGN) && Distinct(voters) && (forall a :: a in voters ==> a in cfg.order)
    requires |voters| == cfg.threshold
    ensures var m := NodeRun(cfg, n, Yeas(p, voters, SIGN));
            && m.out == Out(n, Yea(p, n.me, ACCEPT)) && SlotOf(p, ACCEPT) in m.sent
            && m.chain == n.chain && m.latest == n.latest && m.me == n.me
            && m.votes == Counted(n, p, voters, SIGN).votes
  {
    var front, b := voters[..|voters| - 1], Yea(p, voters[|voters| - 1], SIGN);
    LastOfRun(cfg, n, p, voters, SIGN);
    LastYea(cfg, n, p, voters, SIGN);
    CountedOutcome(cfg, n, p, voters, SIGN);
    CountedVotes(cfg, n, p, voters, SIGN);
    SignLeaves(cfg, Counted(n, p, front, SIGN), b, Accepted, {}, []);
    assert b.(source := n.me, state := ACCEPT, vote := Yes) == Yea(p, n.me, ACCEPT);
  }

  /** T ACCEPT votes for YES, in any order, make the node store the proposal as its next block. */
  lemma AcceptMajorityStores(cfg: Config, n: Node, p: Ballot, voters: seq<Address>)
    requires Awaits(cfg, n, p, ACCEPT) && Distinct(voters) && (forall a :: a in voters ==> a in cfg.order)
    requires |voters| == cfg.threshold
    ensures NodeRun(cfg, n, Yeas(p, voters, ACCEPT)).chain == n.chain + [Block(p.basis.round, p.proposer, p.txs)]
    ensures NodeRun(cfg, n, Yeas(p, voters, ACCEPT)).latest == Some(p.basis)
  {
    var front, b := voters[..|voters| - 1], Yea(p, voters[|voters| - 1], ACCEPT);
    LastOfRun(cfg, n, p, voters, ACCEPT);
    LastYea(cfg, n, p, voters, ACCEPT);
    CountedOutcome(cfg, n, p, voters, ACCEPT);
    CountedVotes(cfg, n, p, voters, ACCEPT);
    AcceptLeaves(cfg, Counted(n, p, front, ACCEPT), b, Accepted, {}, []);
    StoreLeaves(cfg, Counted(n, p, voters, ACCEPT), b, []);
  }

  lemma {:induction false} RunJoin(cfg: Config, n: Node, first: seq<Event>, second: seq<Event>)
    requires |cfg.order| >= 1
    ensures NodeRun(cfg, n, first + second) == NodeRun(cfg, NodeRun(cfg, n, first), second)
    decreases |first|
  {
    if first == [] {
      assert first + second == second;
    } else {
      assert (first + second)[1..] == first[1..] + second;
      RunJoin(cfg, NodeStep(cfg, n, first[0]), first[1..], second);
    }
  }

  /**
   A round from beginning to end, for any validators and any majority: T SIGN and then T ACCEPT votes for
   YES, each in any order and from any T validators, make any node that awaits them send its own ACCEPT and store
   the block.
   */
  lemma YesRoundGivesBlock(cfg: Config, n: Node, p: Ballot, signers: seq<Address>, accepters: seq<Address>)
    requires Awaits(cfg, n, p, SIGN) && Awaits(cfg, n, p, ACCEPT)
    requires Distinct(signers) && (forall a :: a in signers ==> a in cfg.order) && |signers| == cfg.threshold
    requires Distinct(accepters) && (forall a :: a in accepters ==> a in cfg.order) && |accepters| == cfg.threshold
    ensures var m := NodeRun(cfg, n, Yeas(p, signers, SIGN) + Yeas(p, accepters, ACCEPT));
            && m.chain == n.chain + [Block(p.basis.round, p.proposer, p.txs)]
            && (SlotOf(p, ACCEPT) in n.sent || Yea(p, n.me, ACCEPT) in m.out)
  {
    RunJoin(cfg, n, Yeas(p, signers, SIGN), Yeas(p, accepters, ACCEPT));
    SignMajorityAccepts(cfg, n, p, signers);
    ThenAwaits(cfg, n, p, signers);
    var m := NodeRun(cfg, n, Yeas(p, signers, SIGN));
    AcceptMajorityStores(cfg, m, p, accepters);
    RunKeepsOut(cfg, m, Yeas(p, accepters, ACCEPT));
    var after := NodeRun(cfg, m, Yeas(p, accepters, ACCEPT));
    if SlotOf(p, ACCEPT) !in n.sent {
      assert m.out[|n.out|] == Yea(p, n.me, ACCEPT);
      assert after.out[|n.out|] == m.out[|n.out|];
    }
  }

  lemma ThenAwaits(cfg: Config, n: Node, p: Ballot, signers: seq<Address>)
    requires Awaits(cfg, n, p, SIGN) && Awaits(cfg, n, p, ACCEPT)
    requires Distinct(signers) && (forall a :: a in signers ==> a in cfg.order) && |signers| == cfg.threshold
    ensures Awaits(cfg, NodeRun(cfg, n, Yeas(p, signers, SIGN)), p, ACCEPT)
  {
    SignMajorityAccepts(cfg, n, p, signers);
    CountedVotes(cfg, n, p, signers, SIGN);
  }

  /* ---- full sets of votes ---- */

  /** Every validator voted YES, NO or EXP. */
  ghost predicate AllVoted(cfg: Config, view: map<Address, Hole>) {
    view.Keys == cfg.Validators() && forall a :: a in view ==> view[a] != NotYet
  }

  lemma AllVotedIsNotOpen(cfg: Config, view: map<Address, Hole>)
    requires cfg.Valid() && AllVoted(cfg, view)
    ensures OutcomeOf(cfg, view) != Open
  {
    ValidatorCount(cfg);
    FullViewIsDecided(cfg.threshold, |cfg.order|, view);
    VerdictIff(cfg.threshold, cfg.Validators(), view);
  }

  /** The vote that completes a SIGN round: an ACCEPT slot recorded, or the round left. */
  lemma LastSignSettles(cfg: Config, n: Node, b: Ballot, judged: Judgement, txs: Txs)
    requires cfg.Valid() && KnownVoters(cfg, n) && Heeded(cfg, n, b) && b.state == SIGN && b.Key() !in n.votes
    requires AllVoted(cfg, Held(Taken(cfg, n, b, {}), b.Slot(), b.proposer))
    ensures var after := Handle(cfg, n, b, judged, {}, txs);
            SlotOf(b, ACCEPT) in after.sent || (b.basis.height, b.basis.round) in after.left
  {
    AllVotedIsNotOpen(cfg, Held(Taken(cfg, n, b, {}), b.Slot(), b.proposer));
    SignLeaves(cfg, n, b, judged, {}, txs);
    LeaveLeaves(cfg, Broadcast(Taken(cfg, n, b, {}), b.(source := n.me, vote := Exp)), b.basis, txs);
  }

  /** The vote that completes an ACCEPT round: a block for a majority of YES, and the round left otherwise. */
  lemma LastAcceptSettles(cfg: Config, n: Node, b: Ballot, judged: Judgement, txs: Txs)
    requires cfg.Valid() && KnownVoters(cfg, n) && Heeded(cfg, n, b) && b.state == ACCEPT && b.Key() !in n.votes
    requires b.basis.height == |n.chain| && b.basis.prev == n.chain
    requires AllVoted(cfg, Held(Taken(cfg, n, b, {}), b.Slot(), b.proposer))
    ensures var after := Handle(cfg, n, b, judged, {}, txs);
            if OutcomeOf(cfg, Held(Taken(cfg, n, b, {}), b.Slot(), b.proposer)) == MajorityYes
            then after.chain == n.chain + [Block(b.basis.round, b.proposer, b.txs)]
            else after.chain == n.chain && (b.basis.height, b.basis.round) in after.left
  {
    var m := Taken(cfg, n, b, {});
    AllVotedIsNotOpen(cfg, Held(m, b.Slot(), b.proposer));
    AcceptLeaves(cfg, n, b, judged, {}, txs);
    RenewLeaves(cfg, Record(n, b), b, {});
    StoreLeaves(cfg, m, b, txs);
    LeaveLeaves(cfg, m, b.basis, txs);
  }

  /* ---- no node is stuck ---- */

  /**
   At the node's own height: a full SIGN round has been answered with ACCEPT, and no full ACCEPT round is
   left over. Of higher heights only ACCEPT votes of others are held.
   */
  ghost predicate Settled(cfg: Config, n: Node) {
    && KnownVoters(cfg, n)
    && (forall k :: k in n.votes && k.slot.height > |n.chain| ==> k.source != n.me && k.slot.state == ACCEPT)
    && (forall r: nat, p :: AllVoted(cfg, Held(n, IsaacState(|n.chain|, r, SIGN), p)) ==>
          IsaacState(|n.chain|, r, ACCEPT) in n.sent)
    && (forall r: nat, p :: !AllVoted(cfg, Held(n, IsaacState(|n.chain|, r, ACCEPT), p)))
  }

  /** The votes of a slot in `m` are all held in `n` too. */
  lemma AllVotedBefore(cfg: Config, n: Node, m: Node, slot: IsaacState, p: Address)
    requires KnownVoters(cfg, n) && AllVoted(cfg, Held(m, slot, p))
    requires forall k :: k in m.votes && k.slot == slot && k.proposer == p ==> k in n.votes && n.votes[k] == m.votes[k]
    ensures AllVoted(cfg, Held(n, slot, p))
  {
    forall a ensures a in Held(n, slot, p) <==> a in cfg.Validators() {
      HeldAt(m, slot, p, a);
      HeldAt(n, slot, p, a);
    }
    forall a | a in Held(n, slot, p) ensures Held(n, slot, p)[a] != NotYet {
      HeldAt(m, slot, p, a);
      HeldAt(n, slot, p, a);
    }
  }

  /** A node that held back nothing it did not hold before. */
  lemma FewerSettled(cfg: Config, n: Node, m: Node)
    requires Settled(cfg, n) && m.me == n.me && m.chain == n.chain && n.sent <= m.sent
    requires forall k :: k in m.votes ==> k in n.votes && m.votes[k] == n.votes[k]
    ensures Settled(cfg, m)
  {
    forall r: nat, p | AllVoted(cfg, Held(m, IsaacState(|m.chain|, r, SIGN), p))
      ensures IsaacState(|m.chain|, r, ACCEPT) in m.sent
    {
      AllVotedBefore(cfg, n, m, IsaacState(|n.chain|, r, SIGN), p);
    }
    forall r: nat, p ensures !AllVoted(cfg, Held(m, IsaacState(|m.chain|, r, ACCEPT), p)) {
      if AllVoted(cfg, Held(m, IsaacState(|m.chain|, r, ACCEPT), p)) {
        AllVotedBefore(cfg, n, m, IsaacState(|n.chain|, r, ACCEPT), p);
      }
    }
  }

  /** One more vote, of which the node knows what to make. */
  lemma OneMoreSettled(cfg: Config, n: Node, b: Ballot, m: Node)
    requires Settled(cfg, n) && b.source in cfg.order && b.state in {SIGN, ACCEPT}
    requires b.basis.height > |n.chain| ==> b.source != n.me && b.state == ACCEPT
    requires m.me == n.me && m.chain == n.chain && n.sent <= m.sent && m.votes == n.votes[b.Key() := b]
    requires b.basis.height == |n.chain| && AllVoted(cfg, Held(m, b.Slot(), b.proposer)) ==>
               b.state == SIGN && IsaacState(|n.chain|, b.basis.round, ACCEPT) in m.sent
    ensures Settled(cfg, m)
  {
    forall r: nat, p | AllVoted(cfg, Held(m, IsaacState(|m.chain|, r, SIGN), p))
      ensures IsaacState(|m.chain|, r, ACCEPT) in m.sent
    {
      if IsaacState(|m.chain|, r, SIGN) != b.Slot() || p != b.proposer {
        AllVotedBefore(cfg, n, m, IsaacState(|n.chain|, r, SIGN), p);
      }
    }
    forall r: nat, p ensures !AllVoted(cfg, Held(m, IsaacState(|m.chain|, r, ACCEPT), p)) {
      if AllVoted(cfg, Held(m, IsaacState(|m.chain|, r, ACCEPT), p)) {
        if IsaacState(|m.chain|, r, ACCEPT) != b.Slot() || p != b.proposer {
          AllVotedBefore(cfg, n, m, IsaacState(|n.chain|, r, ACCEPT), p);
        }
      }
    }
  }

  /** Nobody votes with nothing recorded. */
  lemma MissingVoter(cfg: Config, n: Node, slot: IsaacState, p: Address, a: Address)
    requires a in cfg.order && VoteKey(slot, p, a) !in n.votes
    ensures !AllVoted(cfg, Held(n, slot, p))
  {
    HeldAt(n, slot, p, a);
    assert a in cfg.Validators();
  }

  /** A left round takes all its votes with it. */
  lemma LeaveSettled(cfg: Config, n: Node, b: Ballot, m: Node, txs: Txs)
    requires cfg.Valid() && Settled(cfg, n) && b.source in cfg.order && b.basis.height == |n.chain|
    requires m.me == n.me && m.chain == n.chain && n.sent <= m.sent && m.votes == n.votes[b.Key() := b]
    ensures Settled(cfg, Leave(cfg, m, b.basis, txs))
  {
    LeaveLeaves(cfg, m, b.basis, txs);
    DropLeaves(m, b.basis);
    LeaveKeepsSent(cfg, m, b.basis, txs);
    FewerSettled(cfg, n, Leave(cfg, m, b.basis, txs));
  }

  lemma LeaveKeepsSent(cfg: Config, n: Node, basis: Basis, txs: Txs)
    requires |cfg.order| >= 1
    ensures n.sent <= Leave(cfg, n, basis, txs).sent
  {
    var n1 := n.(latest := Some(basis), left := n.left + {(basis.height, basis.round)});
    TransitLeaves(cfg, n1, IsaacState(n.manager.height, basis.round + 1, INIT), txs);
  }

  lemma StoreSettled(cfg: Config, n: Node, b: Ballot, m: Node, txs: Txs)
    requires cfg.Valid() && Settled(cfg, n) && b.source in cfg.order
    requires b.basis.height == |n.chain| && b.basis.prev == n.chain
    requires m.me == n.me && m.chain == n.chain && m.votes == n.votes[b.Key() := b]
    ensures Settled(cfg, Store(cfg, m, b, txs))
  {
    StoreLeaves(cfg, m, b, txs);
    var after := Store(cfg, m, b, txs);
    forall r: nat, p, state | state in {SIGN, ACCEPT}
      ensures !AllVoted(cfg, Held(after, IsaacState(|after.chain|, r, state), p))
    {
      MissingVoter(cfg, after, IsaacState(|after.chain|, r, state), p, n.me);
    }
  }

  lemma TakenFresh(cfg: Config, n: Node, b: Ballot)
    requires |cfg.order| >= 1
    ensures Taken(cfg, n, b, {}) == Record(n, b)
  {
    NothingStale(cfg, Record(n, b), b);
  }

  lemma SignSettled(cfg: Config, n: Node, b: Ballot, judged: Judgement, txs: Txs)
    requires cfg.Valid() && Settled(cfg, n) && b.source in cfg.order && Heeded(cfg, n, b)
    requires b.state == SIGN && b.Key() !in n.votes && b.basis.height == |n.chain|
    ensures Settled(cfg, Handle(cfg, n, b, judged, {}, txs))
  {
    var m := Record(n, b);
    TakenFresh(cfg, n, b);
    SignLeaves(cfg, n, b, judged, {}, txs);
    var after := Handle(cfg, n, b, judged, {}, txs);
    if OutcomeOf(cfg, Held(m, b.Slot(), b.proposer)) == Draw {
      LeaveSettled(cfg, n, b, Broadcast(m, b.(source := n.me, vote := Exp)), txs);
    } else {
      AnsweredSettled(cfg, n, b, m, after, txs);
    }
  }

  lemma AnsweredSettled(cfg: Config, n: Node, b: Ballot, m: Node, after: Node, txs: Txs)
    requires cfg.Valid() && Settled(cfg, n) && b.source in cfg.order
    requires b.state == SIGN && b.basis.height == |n.chain| && m == Record(n, b)
    requires OutcomeOf(cfg, Held(m, b.Slot(), b.proposer)) != Draw && SignEffect(cfg, m, b, txs, after)
    ensures Settled(cfg, after)
  {
    var view := Held(m, b.Slot(), b.proposer);
    if AllVoted(cfg, view) {
      AllVotedIsNotOpen(cfg, view);
    }
    assert Held(after, b.Slot(), b.proposer) == view;
    OneMoreSettled(cfg, n, b, after);
  }

  lemma AcceptSettled(cfg: Config, n: Node, b: Ballot, judged: Judgement, txs: Txs)
    requires cfg.Valid() && Settled(cfg, n) && b.source in cfg.order && Heeded(cfg, n, b)
    requires b.state == ACCEPT && b.Key() !in n.votes && b.basis.height == |n.chain| && b.basis.prev == n.chain
    ensures Settled(cfg, Handle(cfg, n, b, judged, {}, txs))
  {
    var m := Record(n, b);
    TakenFresh(cfg, n, b);
    AcceptLeaves(cfg, n, b, judged, {}, txs);
    var view := Held(m, b.Slot(), b.proposer);
    match OutcomeOf(cfg, view) {
      case Open =>
        if AllVoted(cfg, view) {
          AllVotedIsNotOpen(cfg, view);
        }
        OneMoreSettled(cfg, n, b, m);
      case MajorityYes => StoreSettled(cfg, n, b, m, txs);
      case _ => LeaveSettled(cfg, n, b, m, txs);
    }
  }

  lemma InitSettled(cfg: Config, n: Node, b: Ballot, judged: Judgement, txs: Txs)
    requires cfg.Valid() && Settled(cfg, n)
    ensures Settled(cfg, HandleInit(cfg, n, b, judged, txs))
  {
    var m := HandleInit(cfg, n, b, judged, txs);
    assert m.votes == n.votes && m.chain == n.chain && m.me == n.me && n.sent <= m.sent;
    FewerSettled(cfg, n, m);
  }

  lemma DeliverSettled(cfg: Config, s: A.Net, a: Address, b: Ballot, judged: Judgement, txs: Txs)
    requires cfg.Valid() && A.Inv(cfg, s) && a in s && Settled(cfg, s[a]) && A.Sent(s, b)
    requires b.source == a ==> b.basis.height == s[a].Height()
    ensures Settled(cfg, Handle(cfg, s[a], b, judged, {}, txs))
  {
    var n := s[a];
    assert b.source in cfg.order && n.me == a;
    if b.source != a && b.basis.height > |n.chain| {
      ForeignBallotLeaves(cfg, n, b, judged, {}, txs);
      if b.state == ACCEPT && b.Key() !in n.votes {
        OneMoreSettled(cfg, n, b, Record(n, b));
      }
    } else if A.Admitted(n, b) {
      A.FreshBallot(cfg, s, a, b);
      match b.state {
        case INIT => InitSettled(cfg, n, b, judged, txs);
        case SIGN => if b.Key() !in n.votes { SignSettled(cfg, n, b, judged, txs); }
        case ACCEPT => if b.Key() !in n.votes { AcceptSettled(cfg, n, b, judged, txs); }
        case _ =>
      }
    } else {
      NotAdmitted(cfg, n, b, judged, txs);
    }
  }

  lemma NotAdmitted(cfg: Config, n: Node, b: Ballot, judged: Judgement, txs: Txs)
    requires cfg.Valid() && b.source != n.me && b.basis.height <= |n.chain| && !A.Admitted(n, b)
    ensures Handle(cfg, n, b, judged, {}, txs) == n
  {
  }

  lemma StepSettled(cfg: Config, s: A.Net, act: A.Action)
    requires cfg.Valid() && A.Inv(cfg, s) && A.Regular(cfg, s, act) && Settled(cfg, s[act.who])
    ensures Settled(cfg, NodeStep(cfg, s[act.who], act.event))
  {
    var n := s[act.who];
    match act.event {
      case Start(txs) =>
        StartLeaves(cfg, n, txs);
        TransitLeaves(cfg, n, IsaacState(|n.chain|, 0, INIT), txs);
        FewerSettled(cfg, n, NodeStep(cfg, n, act.event));
      case Timer(txs) =>
        TimerKeepsSent(cfg, n, txs);
        FewerSettled(cfg, n, NodeStep(cfg, n, act.event));
      case Deliver(b, judged, stale, txs) =>
        DeliverSettled(cfg, s, act.who, b, judged, txs);
    }
  }

  lemma TimerKeepsSent(cfg: Config, n: Node, txs: Txs)
    requires |cfg.order| >= 1
    ensures var m := Timeout(cfg, n, txs);
            m.votes == n.votes && m.chain == n.chain && m.me == n.me && n.sent <= m.sent
  {
  }

  ghost predicate AllSettled(cfg: Config, s: A.Net) { forall a :: a in s ==> Settled(cfg, s[a]) }

  lemma NextSettled(cfg: Config, s: A.Net, act: A.Action)
    requires cfg.Valid() && A.Inv(cfg, s) && A.Regular(cfg, s, act) && AllSettled(cfg, s)
    ensures AllSettled(cfg, A.Next(cfg, s, act))
  {
    assert act.who in s;
    StepSettled(cfg, s, act);
    OneSettled(cfg, s, act.who, NodeStep(cfg, s[act.who], act.event));
  }

  lemma OneSettled(cfg: Config, s: A.Net, a: Address, n: Node)
    requires AllSettled(cfg, s) && Settled(cfg, n)
    ensures AllSettled(cfg, s[a := n])
  {
  }

  lemma {:induction false} RunSettled(cfg: Config, s: A.Net, acts: seq<A.Action>)
    requires cfg.Valid() && A.Inv(cfg, s) && A.RegularRun(cfg, s, acts) && AllSettled(cfg, s)
    ensures AllSettled(cfg, A.Run(cfg, s, acts))
    decreases |acts|
  {
    if acts != [] {
      assert A.Regular(cfg, s, acts[0]);
      NextSettled(cfg, s, acts[0]);
      A.StepKeeps(cfg, s, acts[0]);
      RunSettled(cfg, A.Next(cfg, s, acts[0]), acts[1..]);
    }
  }

  lemma InitialSettled(cfg: Config, me: Address)
    requires cfg.Valid() && me in cfg.order
    ensures Settled(cfg, InitialNode(me))
  {
    var n := InitialNode(me);
    forall r: nat, p, state ensures !AllVoted(cfg, Held(n, IsaacState(1, r, state), p)) {
      MissingVoter(cfg, n, IsaacState(1, r, state), p, me);
    }
  }

  /**
   In every regular run no node is stuck: it never holds the ACCEPT votes of all validators for a round of
   its height, since the last of them made it store the block or leave the round, and it has answered every round
   whose SIGN votes it holds from all validators.
   */
  lemma NeverStuck(cfg: Config, acts: seq<A.Action>, a: Address, r: nat, p: Address)
    requires cfg.Valid() && A.RegularRun(cfg, A.Initial(cfg), acts) && a in cfg.order
    ensures var s := A.Run(cfg, A.Initial(cfg), acts);
            && a in s
            && !AllVoted(cfg, Held(s[a], IsaacState(|s[a].chain|, r, ACCEPT), p))
            && (AllVoted(cfg, Held(s[a], IsaacState(|s[a].chain|, r, SIGN), p)) ==>
                  IsaacState(|s[a].chain|, r, ACCEPT) in s[a].sent)
  {
    A.InitialOk(cfg);
    A.RunKeeps(cfg, A.Initial(cfg), acts);
    forall c | c in A.Initial(cfg) ensures Settled(cfg, A.Initial(cfg)[c]) {
      InitialSettled(cfg, c);
    }
    RunSettled(cfg, A.Initial(cfg), acts);
    var s := A.Run(cfg, A.Initial(cfg), acts);
    assert a in cfg.Validators() && s.Keys == cfg.Validators();
    assert Settled(cfg, s[a]);
  }
}
