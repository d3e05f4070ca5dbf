/**
 What a node's own vote does when it arrives after the node has stored a block: by then the node holds
 no other vote of that height, so the verdict rests on this vote alone.
 */
module LateVote {
  import opened Voting
  import opened Isaac
  import opened SingleVoting

  /** Of the heights below the node's own, only its own votes are recorded. */
  ghost predicate OldVotesAreOwn(n: Node) {
    forall k :: k in n.votes && k.slot.height < |n.chain| ==> k.source == n.me
  }

  /** A step that adds no vote and leaves the chain. */
  lemma FewerVotes(n: Node, m: Node)
    requires OldVotesAreOwn(n) && m.chain == n.chain && m.me == n.me && m.votes.Keys <= n.votes.Keys
    ensures OldVotesAreOwn(m)
  {
  }

  lemma TransitVotes(cfg: Config, n: Node, target: IsaacState, txs: Txs)
    requires |cfg.order| >= 1
    ensures var m := Transit(cfg, n, target, txs); m.votes == n.votes && m.chain == n.chain && m.me == n.me
  {
  }

  lemma LeaveVotes(cfg: Config, n: Node, basis: Basis, txs: Txs)
    requires |cfg.order| >= 1
    ensures var m := Leave(cfg, n, basis, txs); m.votes.Keys <= n.votes.Keys && m.chain == n.chain && m.me == n.me
  {
  }

  lemma RenewVotes(cfg: Config, n: Node, b: Ballot, stale: set<Address>)
    requires |cfg.order| >= 1
    ensures var m := Renew(cfg, n, b, stale); m.votes.Keys <= n.votes.Keys && m.chain == n.chain && m.me == n.me
  {
  }

  lemma StoreVotes(cfg: Config, n: Node, b: Ballot, txs: Txs)
    requires |cfg.order| >= 1 && OldVotesAreOwn(n)
    ensures OldVotesAreOwn(Store(cfg, n, b, txs)) && Store(cfg, n, b, txs).me == n.me
  {
    var n1 := Transit(cfg, n, IsaacState(b.basis.height, b.basis.round, ALLCONFIRM), txs);
    TransitVotes(cfg, n, IsaacState(b.basis.height, b.basis.round, ALLCONFIRM), txs);
    if b.basis.height == n1.Height() && b.basis.prev == n1.chain {
      var n2 := n1.(chain := n1.chain + [Block(b.basis.round, b.proposer, b.txs)], latest := Some(b.basis));
      var n3 := DropHeight(n2, b.basis.height);
      TransitVotes(cfg, n3, IsaacState(n3.Height(), 0, INIT), txs);
    }
  }

  lemma RecordVotes(n: Node, b: Ballot)
    requires OldVotesAreOwn(n) && (b.source == n.me || b.basis.height >= |n.chain|)
    ensures OldVotesAreOwn(Record(n, b))
  {
  }

  lemma SignVotes(cfg: Config, n: Node, b: Ballot, stale: set<Address>, txs: Txs)
    requires |cfg.order| >= 1 && OldVotesAreOwn(n) && (b.source == n.me || b.basis.height >= |n.chain|)
    ensures OldVotesAreOwn(HandleSign(cfg, n, b, stale, txs)) && HandleSign(cfg, n, b, stale, txs).me == n.me
  {
    RecordVotes(n, b);
    var r := Record(n, b);
    RenewVotes(cfg, r, b, stale);
    var m := Renew(cfg, r, b, stale);
    FewerVotes(r, m);
    var expired := Broadcast(m, b.(source := m.me, state := SIGN, vote := Exp));
    LeaveVotes(cfg, expired, b.basis, txs);
    FewerVotes(m, Leave(cfg, expired, b.basis, txs));
    var accept := Broadcast(m, b.(source := m.me, state := ACCEPT, vote := Result(cfg, m, b).hole));
    TransitVotes(cfg, accept, IsaacState(b.basis.height, b.basis.round, ACCEPT), txs);
    FewerVotes(m, Transit(cfg, accept, IsaacState(b.basis.height, b.basis.round, ACCEPT), txs));
  }

  lemma AcceptVotes(cfg: Config, n: Node, b: Ballot, stale: set<Address>, txs: Txs)
    requires |cfg.order| >= 1 && OldVotesAreOwn(n) && (b.source == n.me || b.basis.height >= |n.chain|)
    ensures OldVotesAreOwn(HandleAccept(cfg, n, b, stale, txs)) && HandleAccept(cfg, n, b, stale, txs).me == n.me
  {
    RecordVotes(n, b);
    var r := Record(n, b);
    RenewVotes(cfg, r, b, stale);
    var m := Renew(cfg, r, b, stale);
    FewerVotes(r, m);
    LeaveVotes(cfg, m, b.basis, txs);
    FewerVotes(m, Leave(cfg, m, b.basis, txs));
    StoreVotes(cfg, m, b, txs);
  }

  lemma HandleVotes(cfg: Config, n: Node, b: Ballot, judged: Judgement, stale: set<Address>, txs: Txs)
    requires |cfg.order| >= 1 && OldVotesAreOwn(n)
    ensures var m := Handle(cfg, n, b, judged, stale, txs); OldVotesAreOwn(m) && m.me == n.me
  {
    if b.source != n.me && n.Height() < b.basis.height {
      RecordVotes(n, b);
    } else if b.source == n.me || n.IsValidBasis(b.basis) {
      match b.state {
        case SIGN => SignVotes(cfg, n, b, stale, txs);
        case ACCEPT => AcceptVotes(cfg, n, b, stale, txs);
        case INIT => InitVotes(cfg, n, b, judged, txs);
        case _ =>
      }
    }
  }

  lemma InitVotes(cfg: Config, n: Node, b: Ballot, judged: Judgement, txs: Txs)
    requires |cfg.order| >= 1 && OldVotesAreOwn(n)
    ensures var m := HandleInit(cfg, n, b, judged, txs); OldVotesAreOwn(m) && m.me == n.me
  {
    FewerVotes(n, HandleInit(cfg, n, b, judged, txs));
  }

  lemma StepVotes(cfg: Config, n: Node, e: Event)
    requires |cfg.order| >= 1 && OldVotesAreOwn(n)
    ensures OldVotesAreOwn(NodeStep(cfg, n, e)) && NodeStep(cfg, n, e).me == n.me
  {
    if e.Deliver? {
      HandleVotes(cfg, n, e.ballot, e.judged, e.stale, e.txs);
    } else {
      FewerVotes(n, NodeStep(cfg, n, e));
    }
  }

  lemma {:induction false} RunVotes(cfg: Config, n: Node, events: seq<Event>)
    requires |cfg.order| >= 1 && OldVotesAreOwn(n)
    ensures OldVotesAreOwn(NodeRun(cfg, n, events)) && NodeRun(cfg, n, events).me == n.me
    decreases |events|
  {
    if events != [] {
      StepVotes(cfg, n, events[0]);
      RunVotes(cfg, NodeStep(cfg, n, events[0]), events[1..]);
    }
  }

  /* ---- the verdict on a late vote ---- */

  lemma LateView(n: Node, b: Ballot, hole: Hole)
    requires OldVotesAreOwn(n) && b.source == n.me && b.basis.height < |n.chain|
    ensures Record(n, b).ViewOf(b.Slot(), b.proposer, hole) == if b.vote == hole then {n.me} else {}
  {
    assert b.Key() in Record(n, b).votes;
  }

  /** A late own vote decides its round if and only if it is an EXP and the validators must be unanimous. */
  lemma LateVoteDecidesIff(cfg: Config, n: Node, b: Ballot)
    requires cfg.Valid() && |cfg.order| >= 2 && OldVotesAreOwn(n)
    requires b.source == n.me && b.basis.height < |n.chain|
    ensures Result(cfg, Record(n, b), b).finished <==> b.vote == Exp && cfg.threshold == |cfg.order|
  {
    LateView(n, b, Yes);
    LateView(n, b, No);
    LateView(n, b, Exp);
  }

  /**
   After any run, unless the validators must be unanimous: a late own vote is recorded, and nothing else
   of the node changes.
   */
  lemma LateVoteIsHarmless(cfg: Config, me: Address, events: seq<Event>, b: Ballot, judged: Judgement, txs: Txs)
    requires cfg.Valid() && 2 <= |cfg.order| && cfg.threshold < |cfg.order|
    requires b.source == me && b.state in {SIGN, ACCEPT}
    requires b.basis.height < |NodeRun(cfg, InitialNode(me), events).chain|
    ensures var n := NodeRun(cfg, InitialNode(me), events);
            Handle(cfg, n, b, judged, {}, txs) == if b.Key() in n.votes then n else Record(n, b)
  {
    var n := NodeRun(cfg, InitialNode(me), events);
    RunVotes(cfg, InitialNode(me), events);
    LateVoteDecidesIff(cfg, n, b);
    NothingStale(cfg, Record(n, b), b);
  }
}
