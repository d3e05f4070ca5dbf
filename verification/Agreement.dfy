/**
 Agreement of the validators over whole runs: any interleaving of starts, timeouts and ballot
 deliveries, where a sent ballot may be delivered to any node any number of times or never.
 */
module Agreement {
  import opened Voting
  import opened Isaac

  type Net = map<Address, Node>

  datatype Action = Action(who: Address, event: Event)

  function Initial(cfg: Config): Net {
    map a | a in cfg.Validators() :: InitialNode(a)
  }

  predicate Sent(s: Net, b: Ballot) {
    b.source in s && b in s[b.source].out
  }

  /** Only broadcast ballots are delivered. */
  predicate Enabled(s: Net, a: Action) {
    && a.who in s
    && (a.event.Deliver? ==> Sent(s, a.event.ballot))
  }

  function Next(cfg: Config, s: Net, a: Action): Net
    requires |cfg.order| >= 1 && a.who in s
  {
    s[a.who := NodeStep(cfg, s[a.who], a.event)]
  }

  /** A recorded vote of a future height completes a YES: the node would fall back to sync. */
  predicate TriggersSync(cfg: Config, n: Node, b: Ballot)
    requires |cfg.order| >= 1
  {
    && b.source != n.me && n.Height() < b.basis.height
    && HandleAhead(n, b) != n
    && b.proposer == cfg.ProposerOf(b.basis.height, b.basis.round)
    && Result(cfg, Record(n, b), b) == Verdict(Yes, true)
  }

  /**
   The actions agreement is about: no vote runs out of date, no sync catch-up, and a node's own
   ballot, for which `BallotCheckBasis` waives the basis check, reaches it at the height it was sent for.
   */
  predicate Regular(cfg: Config, s: Net, a: Action)
    requires |cfg.order| >= 1
  {
    && Enabled(s, a)
    && (a.event.Deliver? ==>
          && a.event.stale == {}
          && (a.event.ballot.source == a.who ==> a.event.ballot.basis.height == s[a.who].Height())
          && !TriggersSync(cfg, s[a.who], a.event.ballot))
  }

  /** The ballot gets past the basis check, being the node's own or of a valid basis, at the node's height. */
  predicate Admitted(n: Node, b: Ballot) {
    b.basis.height == n.Height() && (b.source == n.me || n.IsValidBasis(b.basis))
  }

  function Run(cfg: Config, s: Net, acts: seq<Action>): Net
    requires |cfg.order| >= 1
  {
    if acts == [] || acts[0].who !in s then s else Run(cfg, Next(cfg, s, acts[0]), acts[1..])
  }

  predicate RegularRun(cfg: Config, s: Net, acts: seq<Action>)
    requires |cfg.order| >= 1
  {
    acts == [] || (Regular(cfg, s, acts[0]) && RegularRun(cfg, Next(cfg, s, acts[0]), acts[1..]))
  }

  /* ---- what the set of sent ballots establishes ---- */

  ghost predicate Casts(n: Node, slot: IsaacState, hole: Hole) {
    exists b :: b in n.out && b.Slot() == slot && b.vote == hole
  }

  ghost function YesVoters(s: Net, slot: IsaacState): set<Address> {
    set a | a in s && Casts(s[a], slot, Yes)
  }

  ghost function Against(s: Net, slot: IsaacState): set<Address> {
    set a | a in s && (Casts(s[a], slot, No) || Casts(s[a], slot, Exp))
  }

  /** Enough YES ballots exist to decide YES. */
  ghost predicate Quorum(cfg: Config, s: Net, slot: IsaacState) {
    |YesVoters(s, slot)| >= cfg.threshold
  }

  /** Enough NO and EXP ballots exist that YES is out of reach. */
  ghost predicate Blocked(cfg: Config, s: Net, slot: IsaacState) {
    |Against(s, slot)| > |cfg.order| - cfg.threshold
  }

  /** Some node abandoned the round. */
  ghost predicate Left(s: Net, height: nat, round: nat) {
    exists a :: a in s && (height, round) in s[a].left
  }

  ghost predicate Justified(s: Net, height: nat, round: nat) {
    forall q: nat :: q < round ==> Left(s, height, q)
  }

  /** The proposal a ballot carries. */
  function ProposalOf(b: Ballot): Ballot {
    b.(source := b.proposer, state := INIT, vote := Yes)
  }

  function BlockProposal(chain: seq<Block>, h: nat): Ballot
    requires h < |chain|
  {
    Ballot(chain[h].proposer, chain[h].proposer, Basis(h, chain[h].round, chain[..h]), chain[h].txs, INIT, Yes)
  }

  /* ---- the invariant ---- */

  ghost predicate BallotOk(cfg: Config, s: Net, me: Address, chain: seq<Block>, sent: set<IsaacState>, b: Ballot)
    requires |cfg.order| >= 1
  {
    && b.source == me
    && b.proposer == cfg.ProposerOf(b.basis.height, b.basis.round)
    && 1 <= b.basis.height <= |chain|
    && b.basis.prev == chain[..b.basis.height]
    && (b.basis.height == |chain| ==> b.Slot() in sent)
    && Justified(s, b.basis.height, b.basis.round)
    && (b.state == INIT ==> b == ProposalOf(b))
    && (b.state == SIGN && b.vote != Exp ==> Sent(s, ProposalOf(b)))
    && (b.state == ACCEPT && b.vote == Yes ==>
          Sent(s, ProposalOf(b)) && Quorum(cfg, s, b.Slot().(state := SIGN)))
  }

  ghost predicate BallotsOk(cfg: Config, s: Net, me: Address, chain: seq<Block>, sent: set<IsaacState>,
                            out: seq<Ballot>)
    requires |cfg.order| >= 1
  {
    && (forall b :: b in out ==> BallotOk(cfg, s, me, chain, sent, b))
    && (forall i, j :: 0 <= i < j < |out| ==> out[i].Slot() != out[j].Slot())
  }

  ghost predicate VotesOk(s: Net, votes: map<VoteKey, Ballot>, height: nat) {
    forall k :: k in votes ==>
      && votes[k].Key() == k
      && Sent(s, votes[k])
      && (k.slot.state == SIGN ==> k.slot.height <= height)
  }

  ghost predicate LeftOk(cfg: Config, s: Net, height: nat, round: nat) {
    && (Blocked(cfg, s, IsaacState(height, round, SIGN)) || Blocked(cfg, s, IsaacState(height, round, ACCEPT)))
    && Justified(s, height, round)
  }

  ghost predicate LeftsOk(cfg: Config, s: Net, left: set<(nat, nat)>) {
    forall h, r :: (h, r) in left ==> LeftOk(cfg, s, h, r)
  }

  ghost predicate BlockOk(cfg: Config, s: Net, chain: seq<Block>, h: nat)
    requires h < |chain|
  {
    && Sent(s, BlockProposal(chain, h))
    && Quorum(cfg, s, IsaacState(h, chain[h].round, ACCEPT))
  }

  ghost predicate ChainOk(cfg: Config, s: Net, chain: seq<Block>) {
    && |chain| >= 1 && chain[0] == GENESIS
    && (forall h :: 1 <= h < |chain| ==> BlockOk(cfg, s, chain, h))
  }

  ghost predicate ManagerOk(s: Net, manager: IsaacState, height: nat) {
    && manager.height <= height
    && manager.state in {INIT, SIGN, ACCEPT}
    && Justified(s, height, manager.round)
  }

  ghost predicate NodeOk(cfg: Config, s: Net, n: Node)
    requires |cfg.order| >= 1
  {
    && ChainOk(cfg, s, n.chain)
    && ManagerOk(s, n.manager, |n.chain|)
    && BallotsOk(cfg, s, n.me, n.chain, n.sent, n.out)
    && VotesOk(s, n.votes, |n.chain|)
    && LeftsOk(cfg, s, n.left)
  }

  /** Every YES majority a node can see has already been acted on. */
  ghost predicate Acted(cfg: Config, n: Node) {
    && (forall h, r, p :: h == |n.chain| && |n.ViewOf(IsaacState(h, r, SIGN), p, Yes)| >= cfg.threshold
          ==> IsaacState(h, r, ACCEPT) in n.sent)
    && (forall h, r, p :: h >= |n.chain| ==> |n.ViewOf(IsaacState(h, r, ACCEPT), p, Yes)| < cfg.threshold)
  }

  ghost predicate Core(cfg: Config, s: Net)
    requires |cfg.order| >= 1
  {
    && s.Keys == cfg.Validators()
    && (forall a :: a in s ==> s[a].me == a)
    && (forall a :: a in s ==> NodeOk(cfg, s, s[a]))
  }

  ghost predicate Inv(cfg: Config, s: Net)
    requires |cfg.order| >= 1
  {
    && Core(cfg, s)
    && (forall a :: a in s ==> Acted(cfg, s[a]))
  }

  /* ---- growth ---- */

  ghost predicate Grows(s: Net, t: Net) {
    && s.Keys == t.Keys
    && (forall a :: a in s ==> s[a].out <= t[a].out && s[a].left <= t[a].left)
  }

  lemma GrowsKeeps(cfg: Config, s: Net, t: Net)
    requires Grows(s, t)
    ensures forall b :: Sent(s, b) ==> Sent(t, b)
    ensures forall slot :: Quorum(cfg, s, slot) ==> Quorum(cfg, t, slot)
    ensures forall slot :: Blocked(cfg, s, slot) ==> Blocked(cfg, t, slot)
    ensures forall h, r :: Justified(s, h, r) ==> Justified(t, h, r)
  {
    assert forall a, slot, hole :: a in s && Casts(s[a], slot, hole) ==> Casts(t[a], slot, hole);
    forall slot ensures |YesVoters(s, slot)| <= |YesVoters(t, slot)|
                ensures |Against(s, slot)| <= |Against(t, slot)|
    {
      SubsetCount(YesVoters(s, slot), YesVoters(t, slot));
      SubsetCount(Against(s, slot), Against(t, slot));
    }
    assert forall h, r :: Left(s, h, r) ==> Left(t, h, r);
  }

  lemma ValidatorCount(cfg: Config)
    requires cfg.Valid()
    ensures |cfg.Validators()| == |cfg.order|
  {
    DistinctCount(cfg.order);
  }

  lemma {:induction false} DistinctCount(s: seq<Address>)
    requires forall i, j :: 0 <= i < j < |s| ==> s[i] != s[j]
    ensures |set a | a in s| == |s|
  {
    if s != [] {
      var rest := s[..|s| - 1];
      DistinctCount(rest);
      assert (set a | a in s) == (set a | a in rest) + {s[|s| - 1]};
    }
  }

  /* ---- the two facts that clash ---- */

  lemma OneBallotPerSlot(n: Node, b1: Ballot, b2: Ballot)
    requires forall i, j :: 0 <= i < j < |n.out| ==> n.out[i].Slot() != n.out[j].Slot()
    requires b1 in n.out && b2 in n.out && b1.Slot() == b2.Slot()
    ensures b1 == b2
  {
  }

  lemma QuorumExcludesBlocked(cfg: Config, s: Net, slot: IsaacState)
    requires cfg.Valid() && Core(cfg, s)
    ensures !(Quorum(cfg, s, slot) && Blocked(cfg, s, slot))
  {
    var yes, against := YesVoters(s, slot), Against(s, slot);
    forall a | a in yes && a in against ensures false {
      var b :| b in s[a].out && b.Slot() == slot && b.vote == Yes;
      var c :| c in s[a].out && c.Slot() == slot && (c.vote == No || c.vote == Exp);
      OneBallotPerSlot(s[a], b, c);
    }
    ValidatorCount(cfg);
    DisjointCount(yes, against, cfg.Validators());
  }

  /** An ACCEPT quorum rests on a SIGN quorum of the same round. */
  lemma AcceptNeedsSign(cfg: Config, s: Net, h: nat, r: nat)
    requires cfg.Valid() && Core(cfg, s)
    requires Quorum(cfg, s, IsaacState(h, r, ACCEPT))
    ensures Quorum(cfg, s, IsaacState(h, r, SIGN))
  {
    var slot := IsaacState(h, r, ACCEPT);
    assert YesVoters(s, slot) != {};
    var a :| a in YesVoters(s, slot);
    var b :| b in s[a].out && b.Slot() == slot && b.vote == Yes;
    assert BallotOk(cfg, s, a, s[a].chain, s[a].sent, b);
  }

  lemma LeftIsBlocked(cfg: Config, s: Net, h: nat, r: nat)
    requires cfg.Valid() && Core(cfg, s) && Left(s, h, r)
    ensures Blocked(cfg, s, IsaacState(h, r, SIGN)) || Blocked(cfg, s, IsaacState(h, r, ACCEPT))
  {
    var a :| a in s && (h, r) in s[a].left;
    assert NodeOk(cfg, s, s[a]);
    assert LeftOk(cfg, s, h, r);
  }

  /** A round with an ACCEPT quorum is left by nobody. */
  lemma QuorumIsNotLeft(cfg: Config, s: Net, h: nat, r: nat)
    requires cfg.Valid() && Core(cfg, s)
    requires Quorum(cfg, s, IsaacState(h, r, ACCEPT))
    ensures !Left(s, h, r)
  {
    AcceptNeedsSign(cfg, s, h, r);
    QuorumExcludesBlocked(cfg, s, IsaacState(h, r, ACCEPT));
    QuorumExcludesBlocked(cfg, s, IsaacState(h, r, SIGN));
    if Left(s, h, r) {
      LeftIsBlocked(cfg, s, h, r);
    }
  }

  lemma BlockFacts(cfg: Config, s: Net, a: Address, h: nat)
    requires cfg.Valid() && Core(cfg, s)
    requires a in s && 1 <= h < |s[a].chain|
    ensures Sent(s, BlockProposal(s[a].chain, h))
    ensures s[a].chain[h].proposer == cfg.ProposerOf(h, s[a].chain[h].round)
    ensures Justified(s, h, s[a].chain[h].round)
    ensures !Left(s, h, s[a].chain[h].round)
  {
    var x := BlockProposal(s[a].chain, h);
    assert NodeOk(cfg, s, s[a]);
    assert BlockOk(cfg, s, s[a].chain, h);
    assert NodeOk(cfg, s, s[x.source]);
    assert BallotOk(cfg, s, x.source, s[x.source].chain, s[x.source].sent, x);
    QuorumIsNotLeft(cfg, s, h, x.basis.round);
  }

  /** Blocks of one height come from one round and carry one proposal. */
  lemma SameBlock(cfg: Config, s: Net, a: Address, c: Address, h: nat)
    requires cfg.Valid() && Core(cfg, s)
    requires a in s && c in s && 1 <= h < |s[a].chain| && h < |s[c].chain|
    ensures s[a].chain[h] == s[c].chain[h]
  {
    BlockFacts(cfg, s, a, h);
    BlockFacts(cfg, s, c, h);
    var x, y := BlockProposal(s[a].chain, h), BlockProposal(s[c].chain, h);
    assert x.basis.round == y.basis.round;
    OneBallotPerSlot(s[x.source], x, y);
  }

  ghost predicate Comparable(x: seq<Block>, y: seq<Block>) {
    x <= y || y <= x
  }

  lemma ChainsComparable(cfg: Config, s: Net, a: Address, c: Address)
    requires cfg.Valid() && Core(cfg, s)
    requires a in s && c in s
    ensures Comparable(s[a].chain, s[c].chain)
  {
    var x, y := s[a].chain, s[c].chain;
    forall h | 0 <= h < |x| && h < |y| ensures x[h] == y[h] {
      if h > 0 {
        SameBlock(cfg, s, a, c, h);
      }
    }
  }

  /* ---- updates of one node that keep the core invariant ---- */

  lemma NodeOkMonotone(cfg: Config, s: Net, t: Net, n: Node)
    requires cfg.Valid() && Grows(s, t) && NodeOk(cfg, s, n)
    ensures NodeOk(cfg, t, n)
  {
    GrowsKeeps(cfg, s, t);
    assert BallotsOk(cfg, t, n.me, n.chain, n.sent, n.out) by {
      forall b | b in n.out ensures BallotOk(cfg, t, n.me, n.chain, n.sent, b) {
        assert BallotOk(cfg, s, n.me, n.chain, n.sent, b);
      }
    }
    assert ChainOk(cfg, t, n.chain) by {
      forall h | 1 <= h < |n.chain| ensures BlockOk(cfg, t, n.chain, h) {
        assert BlockOk(cfg, s, n.chain, h);
      }
    }
  }

  lemma UpdateKeeps(cfg: Config, s: Net, a: Address, n: Node)
    requires cfg.Valid() && Core(cfg, s) && a in s && n.me == a
    requires Grows(s, s[a := n])
    requires NodeOk(cfg, s[a := n], n)
    ensures Core(cfg, s[a := n])
  {
    var t := s[a := n];
    forall c | c in t ensures NodeOk(cfg, t, t[c]) {
      if c != a {
        NodeOkMonotone(cfg, s, t, s[c]);
      }
    }
  }

  lemma VotesKeep(cfg: Config, s: Net, a: Address, votes: map<VoteKey, Ballot>)
    requires cfg.Valid() && Core(cfg, s) && a in s
    requires VotesOk(s, votes, |s[a].chain|)
    ensures var t := s[a := s[a].(votes := votes)]; Grows(s, t) && Core(cfg, t)
  {
    var n := s[a].(votes := votes);
    var t := s[a := n];
    NodeOkMonotone(cfg, s, t, s[a]);
    assert VotesOk(t, votes, |n.chain|) by {
      GrowsKeeps(cfg, s, t);
    }
    UpdateKeeps(cfg, s, a, n);
  }

  lemma RecordKeeps(cfg: Config, s: Net, a: Address, b: Ballot)
    requires cfg.Valid() && Core(cfg, s) && a in s
    requires Sent(s, b) && (b.state == SIGN ==> b.basis.height <= |s[a].chain|)
    ensures var t := s[a := Record(s[a], b)]; Grows(s, t) && Core(cfg, t)
  {
    assert VotesOk(s, s[a].votes[b.Key() := b], |s[a].chain|) by {
      assert VotesOk(s, s[a].votes, |s[a].chain|);
    }
    VotesKeep(cfg, s, a, s[a].votes[b.Key() := b]);
  }

  /** What a node must know before it broadcasts `b`. */
  ghost predicate Fit(cfg: Config, s: Net, n: Node, b: Ballot)
    requires |cfg.order| >= 1
  {
    && b.basis.height == |n.chain| >= 1
    && BallotOk(cfg, s, n.me, n.chain, n.sent + {b.Slot()}, b)
  }

  lemma BroadcastKeeps(cfg: Config, s: Net, a: Address, b: Ballot)
    requires cfg.Valid() && Core(cfg, s) && a in s && Fit(cfg, s, s[a], b)
    ensures var t := s[a := Broadcast(s[a], b)]; Grows(s, t) && Core(cfg, t)
  {
    var n := Broadcast(s[a], b);
    var t := s[a := n];
    NodeOkMonotone(cfg, s, t, s[a]);
    if b.Slot() !in s[a].sent {
      assert BallotsOk(cfg, t, a, n.chain, n.sent, n.out) by {
        GrowsKeeps(cfg, s, t);
        forall c | c in n.out ensures BallotOk(cfg, t, a, n.chain, n.sent, c) {
          if c in s[a].out {
            assert BallotOk(cfg, t, a, s[a].chain, s[a].sent, c);
          }
        }
        forall i, j | 0 <= i < j < |n.out| ensures n.out[i].Slot() != n.out[j].Slot() {
          assert n.out[i] in s[a].out;
          assert BallotOk(cfg, s, a, s[a].chain, s[a].sent, n.out[i]);
        }
      }
    }
    UpdateKeeps(cfg, s, a, n);
  }

  lemma ManagerKeeps(cfg: Config, s: Net, a: Address, manager: IsaacState)
    requires cfg.Valid() && Core(cfg, s) && a in s
    requires ManagerOk(s, manager, |s[a].chain|)
    ensures var t := s[a := s[a].(manager := manager)]; Grows(s, t) && Core(cfg, t)
  {
    var n := s[a].(manager := manager);
    var t := s[a := n];
    NodeOkMonotone(cfg, s, t, s[a]);
    GrowsKeeps(cfg, s, t);
    UpdateKeeps(cfg, s, a, n);
  }

  lemma ProposeKeeps(cfg: Config, s: Net, a: Address, round: nat, txs: Txs)
    requires cfg.Valid() && Core(cfg, s) && a in s
    requires Justified(s, |s[a].chain|, round)
    ensures var t := s[a := ProposeOrWait(cfg, s[a], round, txs)]; Grows(s, t) && Core(cfg, t)
  {
    if cfg.ProposerOf(s[a].Height(), round) == a {
      assert NodeOk(cfg, s, s[a]);
      assert s[a].chain[..s[a].Height()] == s[a].chain;
      BroadcastKeeps(cfg, s, a, Proposal(s[a], round, txs));
    } else {
      Unchanged(s, a);
    }
  }

  lemma Unchanged(s: Net, a: Address)
    requires a in s
    ensures s[a := s[a]] == s
  {
  }

  lemma GrowsTransitive(s: Net, t: Net, u: Net)
    requires Grows(s, t) && Grows(t, u)
    ensures Grows(s, u)
  {
  }

  /** Two updates of the same node, the second keeping what the first established. */
  lemma Twice(s: Net, a: Address, n1: Node, n2: Node)
    requires a in s && Grows(s, s[a := n1]) && Grows(s[a := n1], s[a := n1][a := n2])
    ensures s[a := n1][a := n2] == s[a := n2] && Grows(s, s[a := n2])
  {
    assert s[a := n1][a := n2] == s[a := n2];
    GrowsTransitive(s, s[a := n1], s[a := n2]);
  }

  lemma TransitKeeps(cfg: Config, s: Net, a: Address, target: IsaacState, txs: Txs)
    requires cfg.Valid() && Core(cfg, s) && a in s
    requires ManagerOk(s, target, |s[a].chain|)
    ensures var t := s[a := Transit(cfg, s[a], target, txs)]; Grows(s, t) && Core(cfg, t)
  {
    Unchanged(s, a);
    var n := s[a];
    if n.manager.IsLater(target) {
      if target.state == INIT {
        ProposeKeeps(cfg, s, a, target.round, txs);
        ThenManager(cfg, s, a, ProposeOrWait(cfg, n, target.round, txs), target);
      } else {
        ManagerKeeps(cfg, s, a, target);
      }
    }
  }

  lemma ThenManager(cfg: Config, s: Net, a: Address, n: Node, manager: IsaacState)
    requires cfg.Valid() && a in s && n.me == a
    requires Grows(s, s[a := n]) && Core(cfg, s[a := n])
    requires ManagerOk(s, manager, |n.chain|)
    ensures var t := s[a := n.(manager := manager)]; Grows(s, t) && Core(cfg, t)
  {
    var t := s[a := n];
    assert ManagerOk(t, manager, |n.chain|) by {
      GrowsKeeps(cfg, s, t);
    }
    ManagerKeeps(cfg, t, a, manager);
    Twice(s, a, n, n.(manager := manager));
  }

  lemma MarkLeftKeeps(cfg: Config, s: Net, a: Address, basis: Basis)
    requires cfg.Valid() && Core(cfg, s) && a in s
    requires LeftOk(cfg, s, basis.height, basis.round)
    ensures var t := s[a := s[a].(latest := Some(basis), left := s[a].left + {(basis.height, basis.round)})];
            Grows(s, t) && Core(cfg, t) && Justified(t, basis.height, basis.round + 1)
  {
    var n := s[a].(latest := Some(basis), left := s[a].left + {(basis.height, basis.round)});
    var t := s[a := n];
    NodeOkMonotone(cfg, s, t, s[a]);
    assert LeftOk(cfg, t, basis.height, basis.round) by {
      GrowsKeeps(cfg, s, t);
    }
    UpdateKeeps(cfg, s, a, n);
    JustifiedNext(t, a, basis.height, basis.round);
  }

  lemma JustifiedNext(s: Net, a: Address, height: nat, round: nat)
    requires a in s && (height, round) in s[a].left && Justified(s, height, round)
    ensures Justified(s, height, round + 1)
  {
  }

  lemma ForgetKeeps(cfg: Config, s: Net, a: Address, votes: map<VoteKey, Ballot>)
    requires cfg.Valid() && Core(cfg, s) && a in s
    requires forall k :: k in votes ==> k in s[a].votes && votes[k] == s[a].votes[k]
    ensures var t := s[a := s[a].(votes := votes)]; Grows(s, t) && Core(cfg, t)
  {
    assert VotesOk(s, votes, |s[a].chain|) by {
      assert VotesOk(s, s[a].votes, |s[a].chain|);
    }
    VotesKeep(cfg, s, a, votes);
  }

  lemma NextRoundKeeps(cfg: Config, s: Net, a: Address, txs: Txs)
    requires cfg.Valid() && Core(cfg, s) && a in s
    requires s[a].latest.Some? && Justified(s, |s[a].chain|, s[a].latest.value.round + 1)
    ensures var t := s[a := NextRound(cfg, s[a], txs)]; Grows(s, t) && Core(cfg, t)
  {
    var target := IsaacState(s[a].manager.height, s[a].latest.value.round + 1, INIT);
    NextRoundTarget(cfg, s, a);
    assert NextRound(cfg, s[a], txs) == Transit(cfg, s[a], target, txs);
    TransitKeeps(cfg, s, a, target, txs);
  }

  lemma NextRoundTarget(cfg: Config, s: Net, a: Address)
    requires cfg.Valid() && Core(cfg, s) && a in s
    requires s[a].latest.Some? && Justified(s, |s[a].chain|, s[a].latest.value.round + 1)
    ensures ManagerOk(s, IsaacState(s[a].manager.height, s[a].latest.value.round + 1, INIT), |s[a].chain|)
  {
    assert NodeOk(cfg, s, s[a]);
    assert ManagerOk(s, s[a].manager, |s[a].chain|);
  }

  lemma LeaveKeeps(cfg: Config, s: Net, a: Address, basis: Basis, txs: Txs)
    requires cfg.Valid() && Core(cfg, s) && a in s
    requires basis.height == |s[a].chain| && LeftOk(cfg, s, basis.height, basis.round)
    ensures var t := s[a := Leave(cfg, s[a], basis, txs)]; Grows(s, t) && Core(cfg, t)
  {
    var n1 := s[a].(latest := Some(basis), left := s[a].left + {(basis.height, basis.round)});
    MarkLeftKeeps(cfg, s, a, basis);
    NextRoundKeeps(cfg, s[a := n1], a, txs);
    var n2 := NextRound(cfg, n1, txs);
    Twice(s, a, n1, n2);
    var n3 := DropRounds(n2, basis);
    ForgetKeeps(cfg, s[a := n2], a, n3.votes);
    Twice(s, a, n2, n3);
  }

  /* ---- storing a block ---- */

  /** The node right after it stored the block of `b`, with its manager reset. */
  function Stored(n: Node, b: Ballot): Node {
    DropHeight(n.(chain := n.chain + [Block(b.basis.round, b.proposer, b.txs)], latest := Some(b.basis),
                  manager := IsaacState(0, 0, INIT)), b.basis.height)
  }

  lemma ChainGrows(cfg: Config, s: Net, chain: seq<Block>, b: Ballot)
    requires ChainOk(cfg, s, chain)
    requires b.basis.height == |chain| && b.basis.prev == chain
    requires Sent(s, ProposalOf(b)) && Quorum(cfg, s, IsaacState(b.basis.height, b.basis.round, ACCEPT))
    ensures ChainOk(cfg, s, chain + [Block(b.basis.round, b.proposer, b.txs)])
  {
    var longer := chain + [Block(b.basis.round, b.proposer, b.txs)];
    forall h | 1 <= h < |longer| ensures BlockOk(cfg, s, longer, h) {
      assert longer[..h] == chain[..h];
      if h < |chain| {
        assert BlockOk(cfg, s, chain, h);
      } else {
        assert BlockProposal(longer, h) == ProposalOf(b);
      }
    }
  }

  lemma StoredKeeps(cfg: Config, s: Net, a: Address, b: Ballot)
    requires cfg.Valid() && Core(cfg, s) && a in s
    requires b.basis.height == |s[a].chain| && b.basis.prev == s[a].chain
    requires Sent(s, ProposalOf(b)) && Quorum(cfg, s, IsaacState(b.basis.height, b.basis.round, ACCEPT))
    ensures var t := s[a := Stored(s[a], b)]; Grows(s, t) && Core(cfg, t)
  {
    var n := Stored(s[a], b);
    var t := s[a := n];
    NodeOkMonotone(cfg, s, t, s[a]);
    assert ChainOk(cfg, t, n.chain) by {
      GrowsKeeps(cfg, s, t);
      ChainGrows(cfg, t, s[a].chain, b);
    }
    BallotsOutlive(cfg, t, a, s[a].chain, s[a].sent, n.chain, n.sent, n.out);
    UpdateKeeps(cfg, s, a, n);
  }

  /** Ballots of earlier heights need no send record. */
  lemma BallotsOutlive(cfg: Config, s: Net, a: Address, chain: seq<Block>, sent: set<IsaacState>,
                       longer: seq<Block>, kept: set<IsaacState>, out: seq<Ballot>)
    requires cfg.Valid() && BallotsOk(cfg, s, a, chain, sent, out)
    requires chain < longer
    ensures BallotsOk(cfg, s, a, longer, kept, out)
  {
    forall c | c in out ensures BallotOk(cfg, s, a, longer, kept, c) {
      assert BallotOk(cfg, s, a, chain, sent, c);
      assert longer[..c.basis.height] == chain[..c.basis.height];
    }
  }

  lemma StoreKeeps(cfg: Config, s: Net, a: Address, b: Ballot, txs: Txs)
    requires cfg.Valid() && Core(cfg, s) && a in s
    requires b.basis.height == |s[a].chain| && b.basis.prev == s[a].chain
    requires Sent(s, ProposalOf(b)) && Quorum(cfg, s, IsaacState(b.basis.height, b.basis.round, ACCEPT))
    ensures var t := s[a := Store(cfg, s[a], b, txs)]; Grows(s, t) && Core(cfg, t)
  {
    var n := Stored(s[a], b);
    StoredKeeps(cfg, s, a, b);
    var target := IsaacState(n.Height(), 0, INIT);
    TransitKeeps(cfg, s[a := n], a, target, txs);
    assert ManagerOk(s, s[a].manager, |s[a].chain|);
    StoreIsStored(cfg, s[a], b, txs);
    Twice(s, a, n, Transit(cfg, n, target, txs));
  }

  lemma StoreIsStored(cfg: Config, n: Node, b: Ballot, txs: Txs)
    requires |cfg.order| >= 1 && n.manager.height <= |n.chain|
    requires b.basis.height == |n.chain| && b.basis.prev == n.chain
    ensures Store(cfg, n, b, txs) == NextHeight(cfg, Stored(n, b), txs)
  {
  }

  /* ---- what a finished count means ---- */

  lemma ViewIsCast(s: Net, n: Node, slot: IsaacState, p: Address, hole: Hole)
    requires VotesOk(s, n.votes, |n.chain|)
    ensures forall a :: a in n.ViewOf(slot, p, hole) ==> a in s && Casts(s[a], slot, hole)
  {
    forall a | a in n.ViewOf(slot, p, hole) ensures a in s && Casts(s[a], slot, hole) {
      var k :| k in n.votes && k.slot == slot && k.proposer == p && n.votes[k].vote == hole && k.source == a;
      assert n.votes[k] in s[a].out && n.votes[k].Slot() == slot;
    }
  }

  lemma YesMeansQuorum(cfg: Config, s: Net, n: Node, b: Ballot)
    requires VotesOk(s, n.votes, |n.chain|)
    requires Result(cfg, n, b) == Verdict(Yes, true)
    ensures Quorum(cfg, s, b.Slot())
  {
    ViewIsCast(s, n, b.Slot(), b.proposer, Yes);
    SubsetCount(n.ViewOf(b.Slot(), b.proposer, Yes), YesVoters(s, b.Slot()));
  }

  lemma OtherwiseBlocked(cfg: Config, s: Net, n: Node, b: Ballot)
    requires cfg.Valid() && VotesOk(s, n.votes, |n.chain|)
    requires Result(cfg, n, b).finished && Result(cfg, n, b).hole != Yes
    ensures Blocked(cfg, s, b.Slot())
  {
    var no, exp := n.ViewOf(b.Slot(), b.proposer, No), n.ViewOf(b.Slot(), b.proposer, Exp);
    assert no !! exp;
    assert |no + exp| == |no| + |exp|;
    ViewIsCast(s, n, b.Slot(), b.proposer, No);
    ViewIsCast(s, n, b.Slot(), b.proposer, Exp);
    SubsetCount(no + exp, Against(s, b.Slot()));
  }

  /* ---- the handlers ---- */

  /** A delivered ballot that passes the basis check sits on the node's own chain. */
  lemma FreshBallot(cfg: Config, s: Net, a: Address, b: Ballot)
    requires cfg.Valid() && Core(cfg, s) && a in s && Sent(s, b)
    requires Admitted(s[a], b)
    ensures b.basis.height == |s[a].chain| && b.basis.prev == s[a].chain
    ensures BallotOk(cfg, s, b.source, s[b.source].chain, s[b.source].sent, b)
  {
    assert NodeOk(cfg, s, s[a]) && NodeOk(cfg, s, s[b.source]);
    assert BallotOk(cfg, s, b.source, s[b.source].chain, s[b.source].sent, b);
    assert s[b.source].chain[..1] == [GENESIS];
    assert s[a].chain[..1] == [GENESIS];
  }

  lemma InitKeeps(cfg: Config, s: Net, a: Address, b: Ballot, judged: Judgement, txs: Txs)
    requires cfg.Valid() && Core(cfg, s) && a in s && Sent(s, b) && b.state == INIT
    requires Admitted(s[a], b)
    ensures var t := s[a := HandleInit(cfg, s[a], b, judged, txs)]; Grows(s, t) && Core(cfg, t)
  {
    FreshBallot(cfg, s, a, b);
    Unchanged(s, a);
    if b.source == a || !judged.Stopped? {
      var hole := if b.source == a || judged.Accepted? then Yes else No;
      var c := b.(source := a, state := SIGN, vote := hole);
      assert Fit(cfg, s, s[a], c) by {
        assert ProposalOf(c) == b;
        assert s[a].chain[..|s[a].chain|] == s[a].chain;
      }
      var n := Broadcast(s[a], c);
      BroadcastKeeps(cfg, s, a, c);
      ThenTransit(cfg, s, a, n, IsaacState(b.basis.height, b.basis.round, SIGN), txs);
    }
  }

  lemma ThenTransit(cfg: Config, s: Net, a: Address, n: Node, target: IsaacState, txs: Txs)
    requires cfg.Valid() && a in s && n.me == a
    requires Grows(s, s[a := n]) && Core(cfg, s[a := n])
    requires ManagerOk(s, target, |n.chain|)
    ensures var t := s[a := Transit(cfg, n, target, txs)]; Grows(s, t) && Core(cfg, t)
  {
    GrowsKeeps(cfg, s, s[a := n]);
    TransitKeeps(cfg, s[a := n], a, target, txs);
    Twice(s, a, n, Transit(cfg, n, target, txs));
  }

  /** The vote that completes a YES majority is itself a YES. */
  lemma LastVoteIsYes(cfg: Config, n: Node, b: Ballot)
    requires b.Key() !in n.votes
    requires |n.ViewOf(b.Slot(), b.proposer, Yes)| < cfg.threshold
    requires |Record(n, b).ViewOf(b.Slot(), b.proposer, Yes)| >= cfg.threshold
    ensures b.vote == Yes
  {
    var before, after := n.ViewOf(b.Slot(), b.proposer, Yes), Record(n, b).ViewOf(b.Slot(), b.proposer, Yes);
    assert b.vote != Yes ==> after == before;
  }

  lemma LeftOkMonotone(cfg: Config, s: Net, t: Net, h: nat, r: nat)
    requires Grows(s, t) && LeftOk(cfg, s, h, r)
    ensures LeftOk(cfg, t, h, r)
  {
    GrowsKeeps(cfg, s, t);
  }

  lemma DecidedLeft(cfg: Config, s: Net, a: Address, b: Ballot)
    requires cfg.Valid() && Core(cfg, s) && a in s && Sent(s, b) && b.state in {SIGN, ACCEPT}
    requires Result(cfg, s[a], b).finished && Result(cfg, s[a], b).hole != Yes
    requires Justified(s, b.basis.height, b.basis.round)
    ensures LeftOk(cfg, s, b.basis.height, b.basis.round)
  {
    assert NodeOk(cfg, s, s[a]);
    OtherwiseBlocked(cfg, s, s[a], b);
  }

  lemma DecidedQuorum(cfg: Config, s: Net, a: Address, b: Ballot)
    requires cfg.Valid() && Core(cfg, s) && a in s
    requires Result(cfg, s[a], b) == Verdict(Yes, true)
    ensures Quorum(cfg, s, b.Slot())
  {
    assert NodeOk(cfg, s, s[a]);
    YesMeansQuorum(cfg, s, s[a], b);
  }

  /** A ballot for the basis of `b`, from `a`, as far as the basis decides. */
  lemma SameBasisFits(cfg: Config, s: Net, a: Address, b: Ballot, c: Ballot)
    requires cfg.Valid() && Core(cfg, s) && a in s && Sent(s, b) && Admitted(s[a], b)
    requires c == b.(source := a, state := c.state, vote := c.vote) && c.state in {SIGN, ACCEPT}
    requires c.state == SIGN ==> c.vote == Exp
    requires c.vote == Yes ==> Sent(s, ProposalOf(b)) && Quorum(cfg, s, c.Slot().(state := SIGN))
    ensures Fit(cfg, s, s[a], c)
    ensures Justified(s, b.basis.height, b.basis.round) && b.basis.height == |s[a].chain|
  {
    FreshBallot(cfg, s, a, b);
    assert NodeOk(cfg, s, s[a]);
    assert ProposalOf(c) == ProposalOf(b);
    assert s[a].chain[..|s[a].chain|] == s[a].chain;
  }

  lemma AcceptFits(cfg: Config, s: Net, a: Address, b: Ballot)
    requires cfg.Valid() && Core(cfg, s) && a in s && Sent(s, b) && b.state == SIGN
    requires Admitted(s[a], b) && Result(cfg, s[a], b).finished
    requires Result(cfg, s[a], b).hole == Yes ==> b.vote == Yes
    ensures Fit(cfg, s, s[a], b.(source := a, state := ACCEPT, vote := Result(cfg, s[a], b).hole))
  {
    var c := b.(source := a, state := ACCEPT, vote := Result(cfg, s[a], b).hole);
    if c.vote == Yes {
      DecidedQuorum(cfg, s, a, b);
      assert Sent(s, ProposalOf(b)) by {
        FreshBallot(cfg, s, a, b);
      }
    }
    SameBasisFits(cfg, s, a, b, c);
  }

  lemma AcceptSent(cfg: Config, s: Net, a: Address, b: Ballot)
    requires cfg.Valid() && Core(cfg, s) && a in s && Sent(s, b) && b.state == SIGN
    requires Admitted(s[a], b) && Result(cfg, s[a], b).finished
    requires Result(cfg, s[a], b).hole == Yes ==> b.vote == Yes || b.Slot().(state := ACCEPT) in s[a].sent
    ensures var c := b.(source := a, state := ACCEPT, vote := Result(cfg, s[a], b).hole);
            var t := s[a := Broadcast(s[a], c)];
            Grows(s, t) && Core(cfg, t)
  {
    var c := b.(source := a, state := ACCEPT, vote := Result(cfg, s[a], b).hole);
    if c.Slot() !in s[a].sent {
      AcceptFits(cfg, s, a, b);
      BroadcastKeeps(cfg, s, a, c);
    } else {
      Unchanged(s, a);
    }
  }

  /** After a SIGN count that came to YES or NO: broadcast ACCEPT and move on. */
  lemma AcceptBallotKeeps(cfg: Config, s: Net, a: Address, b: Ballot, txs: Txs)
    requires cfg.Valid() && Core(cfg, s) && a in s && Sent(s, b) && b.state == SIGN
    requires Admitted(s[a], b) && Result(cfg, s[a], b).finished
    requires Result(cfg, s[a], b).hole == Yes ==> b.vote == Yes || b.Slot().(state := ACCEPT) in s[a].sent
    ensures var c := b.(source := a, state := ACCEPT, vote := Result(cfg, s[a], b).hole);
            var t := s[a := Transit(cfg, Broadcast(s[a], c), IsaacState(b.basis.height, b.basis.round, ACCEPT), txs)];
            Grows(s, t) && Core(cfg, t)
  {
    var c := b.(source := a, state := ACCEPT, vote := Result(cfg, s[a], b).hole);
    AcceptSent(cfg, s, a, b);
    ThenTransit(cfg, s, a, Broadcast(s[a], c), IsaacState(b.basis.height, b.basis.round, ACCEPT), txs);
  }

  /** After a SIGN count that came to a draw: broadcast EXP and leave the round. */
  lemma ExpiredSignKeeps(cfg: Config, s: Net, a: Address, b: Ballot, txs: Txs)
    requires cfg.Valid() && Core(cfg, s) && a in s && Sent(s, b) && b.state == SIGN
    requires Admitted(s[a], b) && Result(cfg, s[a], b) == Verdict(Exp, true)
    ensures var c := b.(source := a, state := SIGN, vote := Exp);
            var t := s[a := Leave(cfg, Broadcast(s[a], c), b.basis, txs)];
            Grows(s, t) && Core(cfg, t)
  {
    var c := b.(source := a, state := SIGN, vote := Exp);
    var n := Broadcast(s[a], c);
    SameBasisFits(cfg, s, a, b, c);
    BroadcastKeeps(cfg, s, a, c);
    DecidedLeft(cfg, s, a, b);
    LeftOkMonotone(cfg, s, s[a := n], b.basis.height, b.basis.round);
    LeaveKeeps(cfg, s[a := n], a, b.basis, txs);
    Twice(s, a, n, Leave(cfg, n, b.basis, txs));
  }

  lemma AfterSignKeeps(cfg: Config, s: Net, a: Address, b: Ballot, txs: Txs)
    requires cfg.Valid() && Core(cfg, s) && a in s && Sent(s, b) && b.state == SIGN
    requires Admitted(s[a], b)
    requires Result(cfg, s[a], b).hole == Yes ==> b.vote == Yes || b.Slot().(state := ACCEPT) in s[a].sent
    ensures var t := s[a := AfterSign(cfg, s[a], b, txs)]; Grows(s, t) && Core(cfg, t)
  {
    Unchanged(s, a);
    var r := Result(cfg, s[a], b);
    if r.finished && r.hole == Exp {
      ExpiredSignKeeps(cfg, s, a, b, txs);
    } else if r.finished {
      AcceptBallotKeeps(cfg, s, a, b, txs);
    }
  }

  /** A recorded vote that completes YES is a YES, unless the node already acted on that majority. */
  lemma TriggerIsYes(cfg: Config, n: Node, b: Ballot)
    requires Acted(cfg, n) && b.Key() !in n.votes && b.basis.height == |n.chain|
    requires Result(cfg, Record(n, b), b).hole == Yes
    ensures b.state == ACCEPT ==> b.vote == Yes
    ensures b.state == SIGN ==> b.vote == Yes || b.Slot().(state := ACCEPT) in n.sent
  {
    if |n.ViewOf(b.Slot(), b.proposer, Yes)| < cfg.threshold {
      LastVoteIsYes(cfg, n, b);
    }
  }

  lemma SignKeeps(cfg: Config, s: Net, a: Address, b: Ballot, txs: Txs)
    requires cfg.Valid() && Core(cfg, s) && a in s && Acted(cfg, s[a]) && Sent(s, b) && b.state == SIGN
    requires Admitted(s[a], b) && b.Key() !in s[a].votes
    ensures var t := s[a := AfterSign(cfg, Record(s[a], b), b, txs)]; Grows(s, t) && Core(cfg, t)
  {
    var n := Record(s[a], b);
    RecordKeeps(cfg, s, a, b);
    assert Sent(s[a := n], b);
    if Result(cfg, n, b).hole == Yes {
      TriggerIsYes(cfg, s[a], b);
    }
    AfterSignKeeps(cfg, s[a := n], a, b, txs);
    Twice(s, a, n, AfterSign(cfg, n, b, txs));
  }

  lemma AfterAcceptKeeps(cfg: Config, s: Net, a: Address, b: Ballot, txs: Txs)
    requires cfg.Valid() && Core(cfg, s) && a in s && Sent(s, b) && b.state == ACCEPT
    requires Admitted(s[a], b)
    requires Result(cfg, s[a], b).hole == Yes ==> b.vote == Yes
    ensures var t := s[a := AfterAccept(cfg, s[a], b, txs)]; Grows(s, t) && Core(cfg, t)
  {
    Unchanged(s, a);
    FreshBallot(cfg, s, a, b);
    var r := Result(cfg, s[a], b);
    if r.finished && r.hole == Yes {
      DecidedQuorum(cfg, s, a, b);
      StoreKeeps(cfg, s, a, b, txs);
    } else if r.finished {
      DecidedLeft(cfg, s, a, b);
      LeaveKeeps(cfg, s, a, b.basis, txs);
    }
  }

  lemma AcceptKeeps(cfg: Config, s: Net, a: Address, b: Ballot, txs: Txs)
    requires cfg.Valid() && Core(cfg, s) && a in s && Acted(cfg, s[a]) && Sent(s, b) && b.state == ACCEPT
    requires Admitted(s[a], b) && b.Key() !in s[a].votes
    ensures var t := s[a := AfterAccept(cfg, Record(s[a], b), b, txs)]; Grows(s, t) && Core(cfg, t)
  {
    var n := Record(s[a], b);
    RecordKeeps(cfg, s, a, b);
    assert Sent(s[a := n], b);
    if Result(cfg, n, b).hole == Yes {
      TriggerIsYes(cfg, s[a], b);
    }
    AfterAcceptKeeps(cfg, s[a := n], a, b, txs);
    Twice(s, a, n, AfterAccept(cfg, n, b, txs));
  }

  /* ---- YES majorities are acted on at once ---- */

  predicate Submap(m: map<VoteKey, Ballot>, n: map<VoteKey, Ballot>) {
    forall k :: k in m ==> k in n && m[k] == n[k]
  }

  lemma ViewShrinks(n: Node, m: Node, slot: IsaacState, p: Address, hole: Hole)
    requires Submap(m.votes, n.votes)
    ensures |m.ViewOf(slot, p, hole)| <= |n.ViewOf(slot, p, hole)|
  {
    SubsetCount(m.ViewOf(slot, p, hole), n.ViewOf(slot, p, hole));
  }

  lemma ActedShrinks(cfg: Config, n: Node, m: Node)
    requires Acted(cfg, n)
    requires m.chain == n.chain && n.sent <= m.sent && Submap(m.votes, n.votes)
    ensures Acted(cfg, m)
  {
    forall slot, p ensures |m.ViewOf(slot, p, Yes)| <= |n.ViewOf(slot, p, Yes)| {
      ViewShrinks(n, m, slot, p, Yes);
    }
  }

  lemma RecordActs(cfg: Config, n: Node, b: Ballot)
    requires Acted(cfg, n) && b.Key() !in n.votes
    requires b.state == SIGN && b.basis.height == |n.chain|
             && |Record(n, b).ViewOf(b.Slot(), b.proposer, Yes)| >= cfg.threshold
             ==> b.Slot().(state := ACCEPT) in n.sent
    requires b.state == ACCEPT ==> |Record(n, b).ViewOf(b.Slot(), b.proposer, Yes)| < cfg.threshold
    ensures Acted(cfg, Record(n, b))
  {
    var m := Record(n, b);
    forall slot, p | slot != b.Slot() || p != b.proposer
      ensures m.ViewOf(slot, p, Yes) == n.ViewOf(slot, p, Yes)
    {
      assert forall k :: k in m.votes && k.slot == slot && k.proposer == p ==> k in n.votes && n.votes[k] == m.votes[k];
    }
  }

  lemma TransitFields(cfg: Config, n: Node, target: IsaacState, txs: Txs)
    requires |cfg.order| >= 1
    ensures var m := Transit(cfg, n, target, txs);
            m.chain == n.chain && m.votes == n.votes && n.sent <= m.sent && m.me == n.me
  {
  }

  lemma LeaveFields(cfg: Config, n: Node, basis: Basis, txs: Txs)
    requires |cfg.order| >= 1
    ensures var m := Leave(cfg, n, basis, txs);
            m.chain == n.chain && Submap(m.votes, n.votes) && n.sent <= m.sent
  {
  }

  lemma SignActs(cfg: Config, n: Node, b: Ballot, txs: Txs)
    requires cfg.Valid() && Acted(cfg, n) && b.Key() !in n.votes
    requires b.state == SIGN && b.basis.height == |n.chain|
    ensures Acted(cfg, AfterSign(cfg, Record(n, b), b, txs))
  {
    var m := AfterSign(cfg, Record(n, b), b, txs);
    var accept := b.Slot().(state := ACCEPT);
    var r := Result(cfg, Record(n, b), b);
    if r.hole == Yes {
      var n1 := n.(sent := n.sent + {accept});
      ActedShrinks(cfg, n, n1);
      assert Record(n1, b).ViewOf(b.Slot(), b.proposer, Yes) == Record(n, b).ViewOf(b.Slot(), b.proposer, Yes);
      RecordActs(cfg, n1, b);
      TransitFields(cfg, Broadcast(Record(n, b), b.(source := n.me, state := ACCEPT, vote := Yes)), accept, txs);
      ActedShrinks(cfg, Record(n1, b), m);
    } else {
      RecordActs(cfg, n, b);
      if r.finished && r.hole == Exp {
        LeaveFields(cfg, Broadcast(Record(n, b), b.(source := n.me, state := SIGN, vote := Exp)), b.basis, txs);
      }
      ActedShrinks(cfg, Record(n, b), m);
    }
  }

  lemma AcceptActs(cfg: Config, s: Net, n: Node, b: Ballot, txs: Txs)
    requires cfg.Valid() && Acted(cfg, n) && b.Key() !in n.votes && VotesOk(s, n.votes, |n.chain|)
    requires n.manager.height <= |n.chain|
    requires b.state == ACCEPT && b.basis.height == |n.chain| && b.basis.prev == n.chain
    ensures Acted(cfg, AfterAccept(cfg, Record(n, b), b, txs))
  {
    var m := AfterAccept(cfg, Record(n, b), b, txs);
    var r := Result(cfg, Record(n, b), b);
    if r.hole == Yes {
      StoreIsStored(cfg, Record(n, b), b, txs);
      var d := Stored(Record(n, b), b);
      TransitFields(cfg, d, IsaacState(d.Height(), 0, INIT), txs);
      StoredActs(cfg, s, n, b, m);
    } else {
      RecordActs(cfg, n, b);
      if r.finished {
        LeaveFields(cfg, Record(n, b), b.basis, txs);
      }
      ActedShrinks(cfg, Record(n, b), m);
    }
  }

  lemma StoredActs(cfg: Config, s: Net, n: Node, b: Ballot, m: Node)
    requires cfg.Valid() && Acted(cfg, n) && VotesOk(s, n.votes, |n.chain|)
    requires b.state == ACCEPT && b.basis.height == |n.chain|
    requires |m.chain| == |n.chain| + 1 && m.votes == Stored(Record(n, b), b).votes
    ensures Acted(cfg, m)
  {
    forall r, p ensures |m.ViewOf(IsaacState(|m.chain|, r, SIGN), p, Yes)| < cfg.threshold {
      assert m.ViewOf(IsaacState(|m.chain|, r, SIGN), p, Yes) == {};
    }
    assert Submap(m.votes, n.votes);
    forall h, r, p | h >= |m.chain| ensures |m.ViewOf(IsaacState(h, r, ACCEPT), p, Yes)| < cfg.threshold {
      ViewShrinks(n, m, IsaacState(h, r, ACCEPT), p, Yes);
    }
  }

  /* ---- steps and runs ---- */

  lemma TimerKeeps(cfg: Config, s: Net, a: Address, txs: Txs)
    requires cfg.Valid() && Inv(cfg, s) && a in s
    ensures var t := s[a := Timeout(cfg, s[a], txs)]; Grows(s, t) && Core(cfg, t)
    ensures Acted(cfg, Timeout(cfg, s[a], txs))
  {
    Unchanged(s, a);
    var n := s[a];
    TimerActs(cfg, s, a, txs);
    assert ManagerOk(s, n.manager, |n.chain|) by {
      assert NodeOk(cfg, s, n);
    }
    if n.manager.state == INIT {
      ManagerKeeps(cfg, s, a, n.manager.(state := SIGN));
    } else if n.manager.state in {SIGN, ACCEPT} && n.manager !in n.sent {
      TimerFits(cfg, s, a);
      BroadcastKeeps(cfg, s, a, ExpiredBallot(cfg, n, Basis(n.Height(), n.manager.round, n.chain), n.manager.state));
    }
  }

  lemma TimerFits(cfg: Config, s: Net, a: Address)
    requires cfg.Valid() && Core(cfg, s) && a in s && s[a].manager.state in {SIGN, ACCEPT}
    ensures var n := s[a];
            Fit(cfg, s, n, ExpiredBallot(cfg, n, Basis(n.Height(), n.manager.round, n.chain), n.manager.state))
  {
    assert NodeOk(cfg, s, s[a]);
    assert s[a].chain[..s[a].Height()] == s[a].chain;
  }

  lemma TimerActs(cfg: Config, s: Net, a: Address, txs: Txs)
    requires cfg.Valid() && Inv(cfg, s) && a in s
    ensures Acted(cfg, Timeout(cfg, s[a], txs))
  {
    assert NodeOk(cfg, s, s[a]);
    ActedShrinks(cfg, s[a], Timeout(cfg, s[a], txs));
  }

  lemma AheadKeeps(cfg: Config, s: Net, a: Address, b: Ballot)
    requires cfg.Valid() && Inv(cfg, s) && a in s && Sent(s, b) && b.source != a
    requires s[a].Height() < b.basis.height && !TriggersSync(cfg, s[a], b)
    ensures var t := s[a := HandleAhead(s[a], b)]; Grows(s, t) && Core(cfg, t)
    ensures Acted(cfg, HandleAhead(s[a], b))
  {
    Unchanged(s, a);
    if HandleAhead(s[a], b) != s[a] {
      assert NodeOk(cfg, s, s[b.source]);
      assert BallotOk(cfg, s, b.source, s[b.source].chain, s[b.source].sent, b);
      RecordActs(cfg, s[a], b);
      RecordKeeps(cfg, s, a, b);
    }
  }

  lemma InitActs(cfg: Config, n: Node, b: Ballot, judged: Judgement, txs: Txs)
    requires cfg.Valid() && Acted(cfg, n)
    ensures Acted(cfg, HandleInit(cfg, n, b, judged, txs))
  {
    ActedShrinks(cfg, n, HandleInit(cfg, n, b, judged, txs));
  }

  lemma DeliverKeeps(cfg: Config, s: Net, a: Address, b: Ballot, judged: Judgement, txs: Txs)
    requires cfg.Valid() && Inv(cfg, s) && a in s && Sent(s, b)
    requires b.source == a ==> b.basis.height == s[a].Height()
    requires !TriggersSync(cfg, s[a], b)
    ensures var t := s[a := Handle(cfg, s[a], b, judged, {}, txs)]; Grows(s, t) && Core(cfg, t)
    ensures Acted(cfg, Handle(cfg, s[a], b, judged, {}, txs))
  {
    Unchanged(s, a);
    if b.source != a && s[a].Height() < b.basis.height {
      AheadKeeps(cfg, s, a, b);
    } else if Admitted(s[a], b) {
      HandleIsVoted(cfg, s[a], b, judged, txs);
      VotedKeeps(cfg, s, a, b, judged, txs);
      VotedActs(cfg, s, a, b, judged, txs);
    }
  }

  /** `Handle` for a ballot of the node's own height, when no recorded vote is stale. */
  ghost function Voted(cfg: Config, n: Node, b: Ballot, judged: Judgement, txs: Txs): Node
    requires |cfg.order| >= 1
  {
    if b.state == INIT then HandleInit(cfg, n, b, judged, txs)
    else if b.Key() in n.votes then n
    else if b.state == SIGN then AfterSign(cfg, Record(n, b), b, txs)
    else if b.state == ACCEPT then AfterAccept(cfg, Record(n, b), b, txs)
    else n
  }

  lemma HandleIsVoted(cfg: Config, n: Node, b: Ballot, judged: Judgement, txs: Txs)
    requires |cfg.order| >= 1 && b.source in cfg.order && Admitted(n, b)
    ensures Handle(cfg, n, b, judged, {}, txs) == Voted(cfg, n, b, judged, txs)
  {
    NothingStale(cfg, Record(n, b), b);
  }

  lemma VotedKeeps(cfg: Config, s: Net, a: Address, b: Ballot, judged: Judgement, txs: Txs)
    requires cfg.Valid() && Inv(cfg, s) && a in s && Sent(s, b)
    requires Admitted(s[a], b)
    ensures var t := s[a := Voted(cfg, s[a], b, judged, txs)]; Grows(s, t) && Core(cfg, t)
  {
    if b.state == INIT {
      InitKeeps(cfg, s, a, b, judged, txs);
    } else if b.Key() !in s[a].votes && b.state == SIGN {
      SignKeeps(cfg, s, a, b, txs);
    } else if b.Key() !in s[a].votes && b.state == ACCEPT {
      AcceptKeeps(cfg, s, a, b, txs);
    } else {
      Unchanged(s, a);
    }
  }

  lemma VotedActs(cfg: Config, s: Net, a: Address, b: Ballot, judged: Judgement, txs: Txs)
    requires cfg.Valid() && Inv(cfg, s) && a in s && Sent(s, b)
    requires Admitted(s[a], b)
    ensures Acted(cfg, Voted(cfg, s[a], b, judged, txs))
  {
    if b.state == INIT {
      InitActs(cfg, s[a], b, judged, txs);
    } else if b.Key() !in s[a].votes && b.state == SIGN {
      SignActs(cfg, s[a], b, txs);
    } else if b.Key() !in s[a].votes && b.state == ACCEPT {
      assert NodeOk(cfg, s, s[a]);
      AcceptActs(cfg, s, s[a], b, txs);
    }
  }

  lemma Concluded(cfg: Config, s: Net, a: Address, n: Node)
    requires cfg.Valid() && Inv(cfg, s) && a in s
    requires Core(cfg, s[a := n]) && Acted(cfg, n)
    ensures Inv(cfg, s[a := n])
  {
  }

  lemma StartKeeps(cfg: Config, s: Net, a: Address, txs: Txs)
    requires cfg.Valid() && Inv(cfg, s) && a in s
    ensures Core(cfg, s[a := NextHeight(cfg, s[a], txs)]) && Acted(cfg, NextHeight(cfg, s[a], txs))
  {
    TransitKeeps(cfg, s, a, IsaacState(s[a].Height(), 0, INIT), txs);
    StartActs(cfg, s[a], txs);
  }

  lemma StartActs(cfg: Config, n: Node, txs: Txs)
    requires cfg.Valid() && Acted(cfg, n)
    ensures Acted(cfg, NextHeight(cfg, n, txs))
  {
    ActedShrinks(cfg, n, NextHeight(cfg, n, txs));
  }

  lemma StepKeeps(cfg: Config, s: Net, a: Action)
    requires cfg.Valid() && Inv(cfg, s) && Regular(cfg, s, a)
    ensures Inv(cfg, Next(cfg, s, a))
  {
    match a.event {
      case Start(txs) =>
        StartKeeps(cfg, s, a.who, txs);
      case Deliver(b, judged, stale, txs) =>
        DeliverKeeps(cfg, s, a.who, b, judged, txs);
      case Timer(txs) =>
        TimerKeeps(cfg, s, a.who, txs);
    }
    Concluded(cfg, s, a.who, NodeStep(cfg, s[a.who], a.event));
  }

  lemma InitialOk(cfg: Config)
    requires cfg.Valid()
    ensures Inv(cfg, Initial(cfg))
  {
    var s := Initial(cfg);
    forall a | a in s ensures Acted(cfg, s[a]) {
      forall slot, p ensures |s[a].ViewOf(slot, p, Yes)| < cfg.threshold {
        assert s[a].ViewOf(slot, p, Yes) == {};
      }
    }
  }

  lemma {:induction false} RunKeeps(cfg: Config, s: Net, acts: seq<Action>)
    requires cfg.Valid() && Inv(cfg, s) && RegularRun(cfg, s, acts)
    ensures Inv(cfg, Run(cfg, s, acts))
    decreases |acts|
  {
    if acts != [] {
      StepKeeps(cfg, s, acts[0]);
      RunKeeps(cfg, Next(cfg, s, acts[0]), acts[1..]);
    }
  }

  /**
   Agreement. After any regular run, the chains of any two nodes are prefixes of one another: blocks
   of one height come from the same round and proposer and hold the same transactions.
   */
  lemma ChainsAgree(cfg: Config, acts: seq<Action>)
    requires cfg.Valid() && RegularRun(cfg, Initial(cfg), acts)
    ensures var s := Run(cfg, Initial(cfg), acts);
            forall a, c :: a in s && c in s ==> Comparable(s[a].chain, s[c].chain)
  {
    InitialOk(cfg);
    RunKeeps(cfg, Initial(cfg), acts);
    var s := Run(cfg, Initial(cfg), acts);
    forall a, c | a in s && c in s ensures Comparable(s[a].chain, s[c].chain) {
      ChainsComparable(cfg, s, a, c);
    }
  }

  /** No node ever abandons, by NO or EXP, a round from which some node stored its block. */
  lemma StoredRoundIsNeverLeft(cfg: Config, acts: seq<Action>, a: Address, c: Address, h: nat)
    requires cfg.Valid() && RegularRun(cfg, Initial(cfg), acts)
    requires var s := Run(cfg, Initial(cfg), acts); a in s && c in s && 1 <= h < |s[a].chain|
    ensures var s := Run(cfg, Initial(cfg), acts); (h, s[a].chain[h].round) !in s[c].left
  {
    InitialOk(cfg);
    RunKeeps(cfg, Initial(cfg), acts);
    var s := Run(cfg, Initial(cfg), acts);
    BlockFacts(cfg, s, a, h);
    assert !Left(s, h, s[a].chain[h].round);
  }

  /** Every stored block was proposed by the validator selected for its height and round, on that chain. */
  lemma StoredBlockWasProposed(cfg: Config, acts: seq<Action>, a: Address, h: nat)
    requires cfg.Valid() && RegularRun(cfg, Initial(cfg), acts)
    requires var s := Run(cfg, Initial(cfg), acts); a in s && 1 <= h < |s[a].chain|
    ensures var s := Run(cfg, Initial(cfg), acts);
            && s[a].chain[h].proposer == cfg.ProposerOf(h, s[a].chain[h].round)
            && Sent(s, BlockProposal(s[a].chain, h))
            && |YesVoters(s, IsaacState(h, s[a].chain[h].round, SIGN))| >= cfg.threshold
            && |YesVoters(s, IsaacState(h, s[a].chain[h].round, ACCEPT))| >= cfg.threshold
  {
    InitialOk(cfg);
    RunKeeps(cfg, Initial(cfg), acts);
    var s := Run(cfg, Initial(cfg), acts);
    BlockFacts(cfg, s, a, h);
    assert BlockOk(cfg, s, s[a].chain, h);
    AcceptNeedsSign(cfg, s, h, s[a].chain[h].round);
  }
}
