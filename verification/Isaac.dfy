/**
 One ISAAC validator: its state, and the atomic effect of each ballot handler chain and of
 each timer case. A block hash is modelled by the chain it identifies, so equal hashes mean
 equal chains; the height of a chain is its length.
 */
module Isaac {
  import opened Voting

  datatype Option<T> = None | Some(value: T)

  type Txs = seq<string>

  datatype Block = Block(round: nat, proposer: Address, txs: Txs)

  const GENESIS := Block(0, "", [])
  const GENESIS_HEIGHT := 1

  datatype Basis = Basis(height: nat, round: nat, prev: seq<Block>)

  datatype Ballot = Ballot(source: Address, proposer: Address, basis: Basis, txs: Txs,
                           state: BallotState, vote: Hole)
  {
    function Slot(): IsaacState { IsaacState(basis.height, basis.round, state) }
    function Key(): VoteKey { VoteKey(Slot(), proposer, source) }
  }

  datatype IsaacState = IsaacState(height: nat, round: nat, state: BallotState) {
    /** As in the source: `target` is later than `this`. */
    predicate IsLater(target: IsaacState) {
      if height != target.height then height < target.height
      else if round != target.round then round < target.round
      else state.Rank() < target.state.Rank()
    }
  }

  /** Where a running round keeps a vote: round, state, proposer and voter. */
  datatype VoteKey = VoteKey(slot: IsaacState, proposer: Address, source: Address)

  /** The validators in sorted order and the vote threshold. */
  datatype Config = Config(order: seq<Address>, threshold: nat) {
    ghost predicate Valid() {
      && |order| >= 1
      && (forall i, j :: 0 <= i < j < |order| ==> order[i] != order[j])
      && 1 <= threshold <= |order|
      && 2 * threshold > |order|
    }

    function Validators(): set<Address> { set a | a in order }

    /** `SequentialSelector.Select`. */
    function ProposerOf(height: nat, round: nat): Address
      requires |order| >= 1
    {
      order[(height + round) % |order|]
    }
  }

  /**
   A validator. `out` logs every ballot it ever broadcast and `left` every (height, round)
   it abandoned by a NO or EXP result; the node itself reads neither.
   */
  datatype Node = Node(me: Address, chain: seq<Block>, latest: Option<Basis>,
                       votes: map<VoteKey, Ballot>, sent: set<IsaacState>,
                       manager: IsaacState, out: seq<Ballot>, left: set<(nat, nat)>)
  {
    function Height(): nat { |chain| }

    /** The voters this node has recorded for `hole` at a slot and proposer. */
    function ViewOf(slot: IsaacState, proposer: Address, hole: Hole): set<Address> {
      set k | k in votes && k.slot == slot && k.proposer == proposer && votes[k].vote == hole :: k.source
    }

    /** `IsValidVotingBasis` */
    predicate IsValidBasis(basis: Basis) {
      && basis.height == Height()
      && ( || (latest.None? && basis.height == GENESIS_HEIGHT)
           || ( && basis.prev == chain
                && (latest.Some? && basis.height == latest.value.height ==> basis.round > latest.value.round)))
    }
  }

  function InitialNode(me: Address): Node {
    Node(me, [GENESIS], None, map[], {}, IsaacState(0, 0, INIT), [], {})
  }

  /* ---- the pieces of the handlers ---- */

  /** `BroadcastBallot`: the send record lets one ballot through per slot. */
  function Broadcast(n: Node, b: Ballot): Node {
    if b.Slot() in n.sent then n
    else n.(sent := n.sent + {b.Slot()}, out := n.out + [b])
  }

  function Proposal(n: Node, round: nat, txs: Txs): Ballot {
    Ballot(n.me, n.me, Basis(n.Height(), round, n.chain), txs, INIT, Yes)
  }

  /** `proposeOrWait` */
  function ProposeOrWait(cfg: Config, n: Node, round: nat, txs: Txs): Node
    requires |cfg.order| >= 1
  {
    if cfg.ProposerOf(n.Height(), round) == n.me then Broadcast(n, Proposal(n, round, txs)) else n
  }

  /** `TransitISAACState` and its case in the state loop; on INIT the selected proposer proposes `txs`. */
  function Transit(cfg: Config, n: Node, target: IsaacState, txs: Txs): Node
    requires |cfg.order| >= 1
  {
    if !n.manager.IsLater(target) then n
    else
      var n1 := if target.state == INIT then ProposeOrWait(cfg, n, target.round, txs) else n;
      n1.(manager := target)
  }

  function NextRound(cfg: Config, n: Node, txs: Txs): Node
    requires |cfg.order| >= 1
  {
    var round := if n.latest.Some? then n.latest.value.round + 1 else 1;
    Transit(cfg, n, IsaacState(n.manager.height, round, INIT), txs)
  }

  function NextHeight(cfg: Config, n: Node, txs: Txs): Node
    requires |cfg.order| >= 1
  {
    Transit(cfg, n, IsaacState(n.Height(), 0, INIT), txs)
  }

  /** `GenerateExpiredBallot` */
  function ExpiredBallot(cfg: Config, n: Node, basis: Basis, state: BallotState): Ballot
    requires |cfg.order| >= 1
  {
    Ballot(n.me, cfg.ProposerOf(basis.height, basis.round), basis, [], state, Exp)
  }

  function Record(n: Node, b: Ballot): Node {
    n.(votes := n.votes[b.Key() := b])
  }

  /** `CanGetVotingResult` on the votes held for the ballot's slot and proposer. */
  function Result(cfg: Config, n: Node, b: Ballot): Verdict {
    Decide(cfg.threshold, |cfg.order|,
           |n.ViewOf(b.Slot(), b.proposer, Yes)|,
           |n.ViewOf(b.Slot(), b.proposer, No)|,
           |n.ViewOf(b.Slot(), b.proposer, Exp)|)
  }

  /** `BallotRenewal`: the votes of `stale` are out of date; an out-of-date own vote is sent again as EXP. */
  function Renew(cfg: Config, n: Node, b: Ballot, stale: set<Address>): Node
    requires |cfg.order| >= 1
  {
    var gone := set k | k in n.votes && k.slot == b.Slot() && k.proposer == b.proposer && k.source in stale;
    var n1 := n.(votes := n.votes - gone);
    if VoteKey(b.Slot(), b.proposer, n.me) in gone
    then Broadcast(n1.(sent := n1.sent - {b.Slot()}), ExpiredBallot(cfg, n1, b.basis, b.state))
    else n1
  }

  lemma NothingStale(cfg: Config, n: Node, b: Ballot)
    requires |cfg.order| >= 1
    ensures Renew(cfg, n, b, {}) == n
  {
    assert n.votes - {} == n.votes;
  }

  /** `RemoveRunningRoundsLowerOrEqualBasis` */
  function DropRounds(n: Node, basis: Basis): Node {
    n.(votes := map k | k in n.votes
                        && (k.slot.height > basis.height
                            || (k.slot.height == basis.height && k.slot.round > basis.round)) :: n.votes[k])
  }

  /** `RemoveRunningRoundsLowerOrEqualHeight` and `RemoveSendRecordsLowerThanOrEqualHeight` */
  function DropHeight(n: Node, height: nat): Node {
    n.(votes := map k | k in n.votes && k.slot.height > height :: n.votes[k],
       sent := set s | s in n.sent && s.height > height)
  }

  /** Leave a round after a NO or EXP result. */
  function Leave(cfg: Config, n: Node, basis: Basis, txs: Txs): Node
    requires |cfg.order| >= 1
  {
    var n1 := n.(latest := Some(basis), left := n.left + {(basis.height, basis.round)});
    DropRounds(NextRound(cfg, n1, txs), basis)
  }

  /* ---- the handler chains ---- */

  /** What the node makes of a proposal that is not its own. */
  datatype Judgement = Accepted | Rejected | Stopped

  function HandleInit(cfg: Config, n: Node, b: Ballot, judged: Judgement, txs: Txs): Node
    requires |cfg.order| >= 1
  {
    if b.source != n.me && judged.Stopped? then n
    else
      var hole := if b.source == n.me then Yes
                  else if b.proposer != cfg.ProposerOf(b.basis.height, b.basis.round) then No
                  else if judged.Accepted? then Yes else No;
      var n1 := Broadcast(n, b.(source := n.me, state := SIGN, vote := hole));
      Transit(cfg, n1, IsaacState(b.basis.height, b.basis.round, SIGN), txs)
  }

  function HandleSign(cfg: Config, n: Node, b: Ballot, stale: set<Address>, txs: Txs): Node
    requires |cfg.order| >= 1
  {
    if b.Key() in n.votes then n
    else AfterSign(cfg, Renew(cfg, Record(n, b), b, stale), b, txs)
  }

  /** `ExpiredInSIGN`, `ACCEPTBallotBroadcast` and `TransitStateToACCEPT` */
  function AfterSign(cfg: Config, n: Node, b: Ballot, txs: Txs): Node
    requires |cfg.order| >= 1
  {
    var r := Result(cfg, n, b);
    if !r.finished then n
    else if r.hole == Exp then
      Leave(cfg, Broadcast(n, b.(source := n.me, state := SIGN, vote := Exp)), b.basis, txs)
    else
      Transit(cfg, Broadcast(n, b.(source := n.me, state := ACCEPT, vote := r.hole)),
              IsaacState(b.basis.height, b.basis.round, ACCEPT), txs)
  }

  /** The YES case of `FinishedBallotStore`; `isValidRound` guards the block. */
  function Store(cfg: Config, n: Node, b: Ballot, txs: Txs): Node
    requires |cfg.order| >= 1
  {
    var n1 := Transit(cfg, n, IsaacState(b.basis.height, b.basis.round, ALLCONFIRM), txs);
    if b.basis.height != n1.Height() || b.basis.prev != n1.chain then n1
    else
      var n2 := n1.(chain := n1.chain + [Block(b.basis.round, b.proposer, b.txs)], latest := Some(b.basis));
      NextHeight(cfg, DropHeight(n2, b.basis.height), txs)
  }

  function HandleAccept(cfg: Config, n: Node, b: Ballot, stale: set<Address>, txs: Txs): Node
    requires |cfg.order| >= 1
  {
    if b.Key() in n.votes then n
    else AfterAccept(cfg, Renew(cfg, Record(n, b), b, stale), b, txs)
  }

  /** `FinishedBallotStore` */
  function AfterAccept(cfg: Config, n: Node, b: Ballot, txs: Txs): Node
    requires |cfg.order| >= 1
  {
    var r := Result(cfg, n, b);
    if !r.finished then n
    else if r.hole == Yes then Store(cfg, n, b, txs)
    else Leave(cfg, n, b.basis, txs)
  }

  /** The recording part of `BallotCheckSYNC`: a vote of a height this node has not reached. */
  function HandleAhead(n: Node, b: Ballot): Node {
    if b.state == ACCEPT && b.vote in {Yes, Exp} && b.Key() !in n.votes then Record(n, b) else n
  }

  /** `handleBallotMessage`: note that an own ballot skips the basis check. */
  function Handle(cfg: Config, n: Node, b: Ballot, judged: Judgement, stale: set<Address>, txs: Txs): Node
    requires |cfg.order| >= 1
  {
    if b.source != n.me && b.source !in cfg.order then n
    else if b.source != n.me && n.Height() < b.basis.height then HandleAhead(n, b)
    else if b.source != n.me && !n.IsValidBasis(b.basis) then n
    else match b.state
      case INIT => HandleInit(cfg, n, b, judged, txs)
      case SIGN => HandleSign(cfg, n, b, stale, txs)
      case ACCEPT => HandleAccept(cfg, n, b, stale, txs)
      case _ => n
  }

  /** The timer case of the state loop. */
  function Timeout(cfg: Config, n: Node, txs: Txs): Node
    requires |cfg.order| >= 1
  {
    match n.manager.state
    case INIT => n.(manager := n.manager.(state := SIGN))
    case NONE => n
    case ALLCONFIRM => NextRound(cfg, n, txs)
    case state =>
      if n.manager in n.sent then n
      else Broadcast(n, ExpiredBallot(cfg, n, Basis(n.Height(), n.manager.round, n.chain), state))
  }

  datatype Event =
    | Start(txs: Txs)
    | Deliver(ballot: Ballot, judged: Judgement, stale: set<Address>, txs: Txs)
    | Timer(txs: Txs)

  function NodeStep(cfg: Config, n: Node, e: Event): Node
    requires |cfg.order| >= 1
  {
    match e
    case Start(txs) => NextHeight(cfg, n, txs)
    case Deliver(b, judged, stale, txs) => Handle(cfg, n, b, judged, stale, txs)
    case Timer(txs) => Timeout(cfg, n, txs)
  }
}
