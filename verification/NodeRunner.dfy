/**
 The validator as the program runs it: an object whose handlers update its fields step by step. Votes
 live in the running rounds, nested by basis, proposer, state and voter, and are counted by a loop.
 Every method is proved equal to the atomic step of module Isaac it stands for.
 */
module NodeRunner {
  import opened Voting
  import opened Isaac
  import R = RunningRounds

  class Runner {
    const cfg: Config
    const me: Address
    const isaac: R.ISAAC
    var chain: seq<Block>
    var latest: Option<Basis>
    var sent: set<IsaacState>
    var manager: IsaacState
    var out: seq<Ballot>
    ghost var votes: map<VoteKey, Ballot>
    ghost var left: set<(nat, nat)>

    /** The running rounds hold exactly the votes of the abstract validator. */
    ghost predicate Valid()
      reads this, isaac
    {
      |cfg.order| >= 1 && isaac.cfg == cfg && isaac.Valid() && R.Holds(isaac.runningRounds, votes)
    }

    ghost function Abs(): Node
      reads this
    {
      Node(me, chain, latest, votes, sent, manager, out, left)
    }

    constructor (cfg: Config, me: Address)
      requires |cfg.order| >= 1
      ensures Valid() && fresh(isaac) && this.cfg == cfg && Abs() == InitialNode(me)
    {
      this.cfg, this.me := cfg, me;
      isaac := new R.ISAAC(cfg);
      chain, latest, votes, sent := [GENESIS], None, map[], {};
      manager, out, left := IsaacState(0, 0, INIT), [], {};
    }

    method BroadcastBallot(b: Ballot)
      modifies `sent, `out
      ensures Abs() == Broadcast(old(Abs()), b)
    {
      if b.Slot() in sent {
        return;
      }
      sent := sent + {b.Slot()};
      out := out + [b];
    }

    method ProposeNewBallot(round: nat, txs: Txs)
      requires |cfg.order| >= 1
      modifies `sent, `out
      ensures Abs() == ProposeOrWait(cfg, old(Abs()), round, txs)
    {
      if cfg.ProposerOf(|chain|, round) == me {
        BroadcastBallot(Ballot(me, me, Basis(|chain|, round, chain), txs, INIT, Yes));
      }
    }

    method TransitIsaacState(target: IsaacState, txs: Txs)
      requires |cfg.order| >= 1
      modifies `sent, `out, `manager
      ensures Abs() == Transit(cfg, old(Abs()), target, txs)
    {
      if !manager.IsLater(target) {
        return;
      }
      if target.state == INIT {
        ProposeNewBallot(target.round, txs);
      }
      manager := target;
    }

    method GoToNextRound(txs: Txs)
      requires |cfg.order| >= 1
      modifies `sent, `out, `manager
      ensures Abs() == NextRound(cfg, old(Abs()), txs)
    {
      var round := if latest.Some? then latest.value.round + 1 else 1;
      TransitIsaacState(IsaacState(manager.height, round, INIT), txs);
    }

    /* ---- votes ---- */

    /** Records a vote in its running round; an INIT ballot only opens the round. */
    method Vote(b: Ballot)
      requires Valid()
      modifies `votes, isaac
      ensures Valid()
      ensures Abs() == if b.state in {SIGN, ACCEPT} then Record(old(Abs()), b) else old(Abs())
      ensures R.IndexOf(b.basis) in isaac.runningRounds
      ensures b.proposer in isaac.runningRounds[R.IndexOf(b.basis)].voted
    {
      R.VotedHolds(cfg, isaac.runningRounds, Abs(), b);
      var _ := isaac.Vote(b);
      if b.state in {SIGN, ACCEPT} {
        votes := votes[b.Key() := b];
      }
    }

    method IsVoted(b: Ballot) returns (found: bool)
      requires Valid()
      ensures found <==> b.Key() in Abs().votes
    {
      found := isaac.IsVoted(b);
      assert R.VoteAt(isaac.runningRounds, b.Key()) == R.FlatAt(votes, b.Key());
    }

    /** The verdict of the counting loop on the nested votes is the verdict on the abstract ones. */
    method VotingResult(b: Ballot) returns (r: Verdict)
      requires Valid() && R.IndexOf(b.basis) in isaac.runningRounds
      requires b.proposer in isaac.runningRounds[R.IndexOf(b.basis)].voted
      ensures r == Result(cfg, Abs(), b)
    {
      r := isaac.CanGetVotingResult(b);
      R.ResultsAreEqual(cfg, isaac.runningRounds, Abs(), b);
    }

    method RemoveRunningRoundsLowerOrEqualBasis(basis: Basis)
      requires Valid()
      modifies `votes, isaac
      ensures Valid() && Abs() == DropRounds(old(Abs()), basis)
    {
      R.DroppedHolds(isaac.runningRounds, Abs(), basis);
      isaac.RemoveRunningRoundsLowerOrEqualBasis(basis);
      votes := DropRounds(Abs(), basis).votes;
    }

    /** Deletes the rounds and the send records of every height at or below `height`. */
    method RemoveLowerOrEqualHeight(height: nat)
      requires Valid()
      modifies `votes, `sent, isaac
      ensures Valid() && Abs() == DropHeight(old(Abs()), height)
    {
      R.DroppedHeightHolds(isaac.runningRounds, Abs(), height);
      isaac.RemoveRunningRoundsLowerOrEqualHeight(height);
      votes := DropHeight(Abs(), height).votes;
      RemoveSendRecordsLowerThanOrEqualHeight(height);
    }

    method RemoveSendRecordsLowerThanOrEqualHeight(height: nat)
      modifies `sent
      ensures sent == set s | s in old(sent) && s.height > height
    {
      var todo := sent;
      while todo != {}
        invariant todo <= old(sent)
        invariant forall s :: s in sent <==> s in old(sent) && (s in todo || s.height > height)
        decreases |todo|
      {
        var s :| s in todo;
        todo := todo - {s};
        if s.height <= height {
          sent := sent - {s};
        }
      }
    }

    method BallotRenewal(b: Ballot, stale: set<Address>)
      requires Valid() && R.IndexOf(b.basis) in isaac.runningRounds
      requires b.proposer in isaac.runningRounds[R.IndexOf(b.basis)].voted
      modifies `votes, `sent, `out, isaac
      ensures Valid() && Abs() == Renew(cfg, old(Abs()), b, stale)
      ensures R.IndexOf(b.basis) in isaac.runningRounds
      ensures b.proposer in isaac.runningRounds[R.IndexOf(b.basis)].voted
    {
      ghost var gone := set k | k in votes && k.slot == b.Slot() && k.proposer == b.proposer && k.source in stale;
      ghost var own := VoteKey(b.Slot(), b.proposer, me);
      R.PrunedHolds(isaac.runningRounds, votes, b, stale);
      assert R.VoteAt(isaac.runningRounds, own) == R.FlatAt(votes, own);
      var needRenewal := isaac.RemoveOldBallots(b, stale, me);
      votes := votes - gone;
      if needRenewal {
        sent := sent - {b.Slot()};
        BroadcastBallot(Ballot(me, cfg.ProposerOf(b.basis.height, b.basis.round), b.basis, [], b.state, Exp));
      }
    }

    method LeaveRound(basis: Basis, txs: Txs)
      requires Valid()
      modifies this, isaac
      ensures Valid() && Abs() == Leave(cfg, old(Abs()), basis, txs)
    {
      latest := Some(basis);
      left := left + {(basis.height, basis.round)};
      GoToNextRound(txs);
      RemoveRunningRoundsLowerOrEqualBasis(basis);
    }

    /* ---- handler chains ---- */

    method HandleInitBallot(b: Ballot, judged: Judgement, txs: Txs)
      requires Valid() && b.state == INIT
      modifies this, isaac
      ensures Valid() && Abs() == HandleInit(cfg, old(Abs()), b, judged, txs)
    {
      Vote(b);
      var hole := Yes;
      if b.source != me {
        if judged.Stopped? {
          return;
        }
        var same := isaac.HasSameProposer(b);
        if !same || judged.Rejected? {
          hole := No;
        }
      }
      BroadcastBallot(b.(source := me, state := SIGN, vote := hole));
      TransitIsaacState(IsaacState(b.basis.height, b.basis.round, SIGN), txs);
    }

    method HandleSignBallot(b: Ballot, stale: set<Address>, txs: Txs)
      requires Valid() && b.state == SIGN
      modifies this, isaac
      ensures Valid() && Abs() == HandleSign(cfg, old(Abs()), b, stale, txs)
    {
      var voted := IsVoted(b);
      if voted {
        return;
      }
      Vote(b);
      BallotRenewal(b, stale);
      var r := VotingResult(b);
      if !r.finished {
        return;
      }
      if r.hole == Exp {
        BroadcastBallot(b.(source := me, state := SIGN, vote := Exp));
        LeaveRound(b.basis, txs);
        return;
      }
      BroadcastBallot(b.(source := me, state := ACCEPT, vote := r.hole));
      TransitIsaacState(IsaacState(b.basis.height, b.basis.round, ACCEPT), txs);
    }

    /** The YES case of `FinishedBallotStore`. */
    method StoreBlock(b: Ballot, txs: Txs)
      requires Valid()
      modifies this, isaac
      ensures Valid() && Abs() == Store(cfg, old(Abs()), b, txs)
    {
      TransitIsaacState(IsaacState(b.basis.height, b.basis.round, ALLCONFIRM), txs);
      if b.basis.height != |chain| || b.basis.prev != chain {
        return;
      }
      chain := chain + [Block(b.basis.round, b.proposer, b.txs)];
      latest := Some(b.basis);
      RemoveLowerOrEqualHeight(b.basis.height);
      TransitIsaacState(IsaacState(|chain|, 0, INIT), txs);
    }

    method HandleAcceptBallot(b: Ballot, stale: set<Address>, txs: Txs)
      requires Valid() && b.state == ACCEPT
      modifies this, isaac
      ensures Valid() && Abs() == HandleAccept(cfg, old(Abs()), b, stale, txs)
    {
      var voted := IsVoted(b);
      if voted {
        return;
      }
      Vote(b);
      BallotRenewal(b, stale);
      var r := VotingResult(b);
      if r.finished {
        if r.hole == Yes {
          StoreBlock(b, txs);
        } else {
          LeaveRound(b.basis, txs);
        }
      }
    }

    /** The recording part of `BallotCheckSYNC`. */
    method RecordAhead(b: Ballot)
      requires Valid()
      modifies `votes, isaac
      ensures Valid() && Abs() == HandleAhead(old(Abs()), b)
    {
      if b.state == ACCEPT && (b.vote == Yes || b.vote == Exp) {
        var voted := IsVoted(b);
        if !voted {
          Vote(b);
        }
      }
    }

    method HandleBallotMessage(b: Ballot, judged: Judgement, stale: set<Address>, txs: Txs)
      requires Valid()
      modifies this, isaac
      ensures Valid() && Abs() == Handle(cfg, old(Abs()), b, judged, stale, txs)
    {
      if b.source != me {
        if b.source !in cfg.order {
          return;
        }
        if |chain| < b.basis.height {
          RecordAhead(b);
          return;
        }
        if !ValidBasis(b.basis) {
          return;
        }
      }
      match b.state {
        case INIT => HandleInitBallot(b, judged, txs);
        case SIGN => HandleSignBallot(b, stale, txs);
        case ACCEPT => HandleAcceptBallot(b, stale, txs);
        case _ =>
      }
    }

    predicate ValidBasis(basis: Basis)
      reads this
      ensures ValidBasis(basis) <==> Abs().IsValidBasis(basis)
    {
      if basis.height != |chain| then false
      else if latest.None? && basis.height == GENESIS_HEIGHT then true
      else if basis.prev != chain then false
      else latest.None? || basis.height != latest.value.height || basis.round > latest.value.round
    }

    method OnTimeout(txs: Txs)
      requires |cfg.order| >= 1
      modifies `sent, `out, `manager
      ensures Abs() == Timeout(cfg, old(Abs()), txs)
    {
      match manager.state {
        case INIT =>
          manager := manager.(state := SIGN);
        case NONE =>
        case ALLCONFIRM =>
          GoToNextRound(txs);
        case state =>
          if manager in sent {
            return;
          }
          BroadcastBallot(Ballot(me, cfg.ProposerOf(|chain|, manager.round), Basis(|chain|, manager.round, chain),
                                 [], state, Exp));
      }
    }
  }
}
