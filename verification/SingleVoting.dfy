/**
 What one node guarantees by itself, whatever ballots it is handed: its consensus state only moves
 forward, and it votes once per height, round and state.
 */
module SingleVoting {
  import opened Voting
  import opened Isaac

  function NodeRun(cfg: Config, n: Node, events: seq<Event>): Node
    requires |cfg.order| >= 1
    decreases |events|
  {
    if events == [] then n else NodeRun(cfg, NodeStep(cfg, n, events[0]), events[1..])
  }

  lemma {:induction false} RunAppend(cfg: Config, n: Node, events: seq<Event>, e: Event)
    requires |cfg.order| >= 1
    ensures NodeRun(cfg, n, events + [e]) == NodeStep(cfg, NodeRun(cfg, n, events), e)
    decreases |events|
  {
    if events == [] {
      assert events + [e] == [e];
    } else {
      assert (events + [e])[1..] == events[1..] + [e];
      RunAppend(cfg, NodeStep(cfg, n, events[0]), events[1..], e);
    }
  }

  /* ---- the order of consensus states ---- */

  lemma IsLaterIsStrictTotalOrder(a: IsaacState, b: IsaacState, c: IsaacState)
    ensures !a.IsLater(a)
    ensures a.IsLater(b) && b.IsLater(c) ==> a.IsLater(c)
    ensures a == b || a.IsLater(b) || b.IsLater(a)
  {
    if a.height == b.height && a.round == b.round && a.state.Rank() == b.state.Rank() {
      RankInjective(a.state, b.state);
    }
  }

  lemma RankInjective(a: BallotState, b: BallotState)
    requires a.Rank() == b.Rank()
    ensures a == b
  {
  }

  predicate AtOrAfter(before: IsaacState, now: IsaacState) {
    before == now || before.IsLater(now)
  }

  lemma StepMovesForward(cfg: Config, n: Node, e: Event)
    requires |cfg.order| >= 1
    ensures AtOrAfter(n.manager, NodeStep(cfg, n, e).manager)
  {
    match e {
      case Start(txs) => TransitMovesForward(cfg, n, IsaacState(n.Height(), 0, INIT), txs);
      case Deliver(b, judged, stale, txs) => DeliverMovesForward(cfg, n, b, judged, stale, txs);
      case Timer(txs) => TimerMovesForward(cfg, n, txs);
    }
  }

  lemma TransitMovesForward(cfg: Config, n: Node, target: IsaacState, txs: Txs)
    requires |cfg.order| >= 1
    ensures AtOrAfter(n.manager, Transit(cfg, n, target, txs).manager)
  {
  }

  lemma TimerMovesForward(cfg: Config, n: Node, txs: Txs)
    requires |cfg.order| >= 1
    ensures AtOrAfter(n.manager, Timeout(cfg, n, txs).manager)
  {
  }

  lemma DeliverMovesForward(cfg: Config, n: Node, b: Ballot, judged: Judgement, stale: set<Address>, txs: Txs)
    requires |cfg.order| >= 1
    ensures AtOrAfter(n.manager, Handle(cfg, n, b, judged, stale, txs).manager)
  {
    match b.state {
      case INIT =>
      case SIGN =>
        RenewKeepsManager(cfg, n, b, stale);
        SignMovesForward(cfg, Renew(cfg, Record(n, b), b, stale), b, txs);
      case ACCEPT =>
        RenewKeepsManager(cfg, n, b, stale);
        AcceptMovesForward(cfg, Renew(cfg, Record(n, b), b, stale), b, txs);
      case _ =>
    }
  }

  lemma RenewKeepsManager(cfg: Config, n: Node, b: Ballot, stale: set<Address>)
    requires |cfg.order| >= 1
    ensures Renew(cfg, Record(n, b), b, stale).manager == n.manager
  {
  }

  lemma SignMovesForward(cfg: Config, n: Node, b: Ballot, txs: Txs)
    requires |cfg.order| >= 1
    ensures AtOrAfter(n.manager, AfterSign(cfg, n, b, txs).manager)
  {
  }

  lemma AcceptMovesForward(cfg: Config, n: Node, b: Ballot, txs: Txs)
    requires |cfg.order| >= 1
    ensures AtOrAfter(n.manager, AfterAccept(cfg, n, b, txs).manager)
  {
    StoreMovesForward(cfg, n, b, txs);
  }

  lemma StoreMovesForward(cfg: Config, n: Node, b: Ballot, txs: Txs)
    requires |cfg.order| >= 1
    ensures AtOrAfter(n.manager, Store(cfg, n, b, txs).manager)
  {
    var confirm := Transit(cfg, n, IsaacState(b.basis.height, b.basis.round, ALLCONFIRM), txs);
    IsLaterIsStrictTotalOrder(n.manager, confirm.manager, Store(cfg, n, b, txs).manager);
  }

  /** Over any run the manager's state strictly increases at every change. */
  lemma {:induction false} ManagerNeverGoesBack(cfg: Config, n: Node, events: seq<Event>)
    requires |cfg.order| >= 1
    ensures AtOrAfter(n.manager, NodeRun(cfg, n, events).manager)
    decreases |events|
  {
    if events != [] {
      var m := NodeStep(cfg, n, events[0]);
      StepMovesForward(cfg, n, events[0]);
      ManagerNeverGoesBack(cfg, m, events[1..]);
      IsLaterIsStrictTotalOrder(n.manager, m.manager, NodeRun(cfg, m, events[1..]).manager);
    }
  }

  /* ---- one ballot per slot ---- */

  /** Own ballots, which skip the basis check, arrive at the height they were sent for. */
  predicate Fresh(n: Node, e: Event) {
    e.Deliver? && e.ballot.source == n.me ==> e.ballot.basis.height == n.Height()
  }

  predicate FreshRun(cfg: Config, n: Node, events: seq<Event>)
    requires |cfg.order| >= 1
    decreases |events|
  {
    events == [] || (Fresh(n, events[0]) && FreshRun(cfg, NodeStep(cfg, n, events[0]), events[1..]))
  }

  /** Among the ballots a node broadcast, only an EXP may follow another of the same slot. */
  ghost predicate VotesOnce(out: seq<Ballot>) {
    forall i, j :: 0 <= i < j < |out| && out[i].Slot() == out[j].Slot() ==> out[j].vote == Exp
  }

  ghost predicate Recorded(n: Node) {
    forall b :: b in n.out ==>
      b.basis.height <= |n.chain| && (b.basis.height == |n.chain| ==> b.Slot() in n.sent)
  }

  ghost predicate Once(n: Node) {
    VotesOnce(n.out) && Recorded(n)
  }

  ghost predicate Unused(out: seq<Ballot>, slot: IsaacState) {
    forall c :: c in out ==> c.Slot() != slot
  }

  /** A ballot that may go out: it expires, its slot is recorded, or its slot was never used. */
  ghost predicate MaySend(n: Node, b: Ballot) {
    b.vote == Exp || b.Slot() in n.sent || Unused(n.out, b.Slot())
  }

  lemma SendOnce(n: Node, b: Ballot)
    requires Once(n) && b.basis.height <= |n.chain| && MaySend(n, b)
    ensures Once(Broadcast(n, b))
  {
  }

  lemma BroadcastOnce(n: Node, b: Ballot)
    requires Once(n) && b.basis.height == |n.chain|
    ensures Once(Broadcast(n, b)) && MaySend(n, b)
  {
    SendOnce(n, b);
  }

  lemma TransitOnce(cfg: Config, n: Node, target: IsaacState, txs: Txs)
    requires |cfg.order| >= 1 && Once(n)
    ensures Once(Transit(cfg, n, target, txs))
  {
    BroadcastOnce(n, Proposal(n, target.round, txs));
  }

  lemma LeaveOnce(cfg: Config, n: Node, basis: Basis, txs: Txs)
    requires |cfg.order| >= 1 && Once(n)
    ensures Once(Leave(cfg, n, basis, txs))
  {
    var n1 := n.(latest := Some(basis), left := n.left + {(basis.height, basis.round)});
    TransitOnce(cfg, n1, IsaacState(n1.manager.height, basis.round + 1, INIT), txs);
  }

  /** A renewal clears the record of its slot and sends EXP there. */
  lemma RenewOnce(cfg: Config, n: Node, b: Ballot, stale: set<Address>)
    requires |cfg.order| >= 1 && Once(n) && b.basis.height <= |n.chain|
    ensures var m := Renew(cfg, n, b, stale);
            && Once(m) && m.chain == n.chain && m.me == n.me && n.out <= m.out
            && (forall x: IsaacState :: x != b.Slot() ==> (x in m.sent <==> x in n.sent))
            && (forall i :: |n.out| <= i < |m.out| ==> m.out[i].Slot() == b.Slot())
  {
    var m := Renew(cfg, n, b, stale);
    if m.out != n.out {
      var x := ExpiredBallot(cfg, n, b.basis, b.state);
      assert m.out == n.out + [x] && m.sent == n.sent + {x.Slot()};
    }
  }

  lemma StoreOnce(cfg: Config, n: Node, b: Ballot, txs: Txs)
    requires |cfg.order| >= 1 && Once(n)
    ensures Once(Store(cfg, n, b, txs))
  {
    var n1 := Transit(cfg, n, IsaacState(b.basis.height, b.basis.round, ALLCONFIRM), txs);
    if b.basis.height == n1.Height() && b.basis.prev == n1.chain {
      var n2 := n1.(chain := n1.chain + [Block(b.basis.round, b.proposer, b.txs)], latest := Some(b.basis));
      var n3 := DropHeight(n2, b.basis.height);
      TransitOnce(cfg, n3, IsaacState(n3.Height(), 0, INIT), txs);
    }
  }

  /* ---- what a handler may cast ---- */

  /** The vote of a SIGN count that came to YES or NO. */
  function CastAfterSign(cfg: Config, n: Node, b: Ballot): Option<Ballot> {
    var r := Result(cfg, n, b);
    if r.finished && r.hole != Exp then Some(b.(source := n.me, state := ACCEPT, vote := r.hole)) else None
  }

  /** The ballot other than EXP and other than a proposal that handling an own ballot sends. */
  function Cast(cfg: Config, n: Node, b: Ballot, stale: set<Address>): Option<Ballot>
    requires |cfg.order| >= 1
  {
    match b.state
    case INIT => Some(b.(source := n.me, state := SIGN, vote := Yes))
    case SIGN =>
      if b.Key() in n.votes then None else CastAfterSign(cfg, Renew(cfg, Record(n, b), b, stale), b)
    case _ => None
  }

  lemma AfterSignOnce(cfg: Config, n: Node, b: Ballot, txs: Txs)
    requires |cfg.order| >= 1 && Once(n) && b.basis.height <= |n.chain|
    requires CastAfterSign(cfg, n, b).Some? ==> MaySend(n, CastAfterSign(cfg, n, b).value)
    ensures Once(AfterSign(cfg, n, b, txs))
  {
    var r := Result(cfg, n, b);
    if r.finished && r.hole == Exp {
      var expired := b.(source := n.me, state := SIGN, vote := Exp);
      SendOnce(n, expired);
      LeaveOnce(cfg, Broadcast(n, expired), b.basis, txs);
    } else if r.finished {
      var accept := b.(source := n.me, state := ACCEPT, vote := r.hole);
      SendOnce(n, accept);
      TransitOnce(cfg, Broadcast(n, accept), IsaacState(b.basis.height, b.basis.round, ACCEPT), txs);
    }
  }

  lemma AcceptOnce(cfg: Config, n: Node, b: Ballot, stale: set<Address>, txs: Txs)
    requires |cfg.order| >= 1 && Once(n) && b.basis.height <= |n.chain|
    ensures Once(HandleAccept(cfg, n, b, stale, txs))
  {
    RenewOnce(cfg, Record(n, b), b, stale);
    var m := Renew(cfg, Record(n, b), b, stale);
    StoreOnce(cfg, m, b, txs);
    LeaveOnce(cfg, m, b.basis, txs);
  }

  /** A SIGN ballot, given what it would cast may be sent. */
  lemma SignOnce(cfg: Config, n: Node, b: Ballot, stale: set<Address>, txs: Txs)
    requires |cfg.order| >= 1 && Once(n) && b.basis.height <= |n.chain| && b.state == SIGN
    requires Cast(cfg, n, b, stale).Some? ==> MaySend(n, Cast(cfg, n, b, stale).value)
    ensures Once(HandleSign(cfg, n, b, stale, txs))
  {
    if b.Key() !in n.votes {
      RenewOnce(cfg, Record(n, b), b, stale);
      var m := Renew(cfg, Record(n, b), b, stale);
      if Cast(cfg, n, b, stale).Some? {
        MaySendLater(n, m, b, Cast(cfg, n, b, stale).value);
      }
      AfterSignOnce(cfg, m, b, txs);
    }
  }

  /** A renewal in the slot of `b` does not bear on another slot. */
  lemma MaySendLater(n: Node, m: Node, b: Ballot, c: Ballot)
    requires c.Slot() != b.Slot() && n.out <= m.out
    requires forall x: IsaacState :: x != b.Slot() ==> (x in m.sent <==> x in n.sent)
    requires forall i :: |n.out| <= i < |m.out| ==> m.out[i].Slot() == b.Slot()
    ensures MaySend(n, c) <==> MaySend(m, c)
  {
    forall i | 0 <= i < |n.out| ensures m.out[i] == n.out[i] {
    }
    if !Unused(m.out, c.Slot()) {
      var x :| x in m.out && x.Slot() == c.Slot();
      var i :| 0 <= i < |m.out| && m.out[i] == x;
      assert i < |n.out| && n.out[i] == x;
    }
    if !Unused(n.out, c.Slot()) {
      var x :| x in n.out && x.Slot() == c.Slot();
      assert x in m.out;
    }
  }

  lemma InitOnce(cfg: Config, n: Node, b: Ballot, judged: Judgement, txs: Txs)
    requires |cfg.order| >= 1 && Once(n) && b.basis.height <= |n.chain|
    requires b.basis.height == |n.chain| || (b.source == n.me && MaySend(n, b.(state := SIGN, vote := Yes)))
    ensures Once(HandleInit(cfg, n, b, judged, txs))
  {
    if b.basis.height == |n.chain| {
      forall hole ensures Once(Broadcast(n, b.(source := n.me, state := SIGN, vote := hole))) {
        BroadcastOnce(n, b.(source := n.me, state := SIGN, vote := hole));
      }
    } else {
      SendOnce(n, b.(state := SIGN, vote := Yes));
    }
    forall m | Once(m) ensures Once(Transit(cfg, m, IsaacState(b.basis.height, b.basis.round, SIGN), txs)) {
      TransitOnce(cfg, m, IsaacState(b.basis.height, b.basis.round, SIGN), txs);
    }
  }

  /** At the node's own height nothing can go wrong. */
  lemma CurrentOnce(cfg: Config, n: Node, b: Ballot, judged: Judgement, stale: set<Address>, txs: Txs)
    requires |cfg.order| >= 1 && Once(n) && b.basis.height == |n.chain|
    ensures Once(Handle(cfg, n, b, judged, stale, txs))
    ensures b.source == n.me && Cast(cfg, n, b, stale).Some? ==> MaySend(n, Cast(cfg, n, b, stale).value)
  {
    if Cast(cfg, n, b, stale).Some? {
      BroadcastOnce(n, Cast(cfg, n, b, stale).value);
    }
    match b.state {
      case INIT => InitOnce(cfg, n, b, judged, txs);
      case SIGN => SignOnce(cfg, n, b, stale, txs);
      case ACCEPT => AcceptOnce(cfg, n, b, stale, txs);
      case _ =>
    }
  }

  lemma StepOnce(cfg: Config, n: Node, e: Event)
    requires |cfg.order| >= 1 && Once(n) && Fresh(n, e)
    ensures Once(NodeStep(cfg, n, e))
  {
    match e {
      case Start(txs) =>
        TransitOnce(cfg, n, IsaacState(n.Height(), 0, INIT), txs);
      case Deliver(b, judged, stale, txs) =>
        if b.basis.height == |n.chain| {
          CurrentOnce(cfg, n, b, judged, stale, txs);
        }
      case Timer(txs) =>
        TimerOnce(cfg, n, txs);
    }
  }

  lemma TimerOnce(cfg: Config, n: Node, txs: Txs)
    requires |cfg.order| >= 1 && Once(n)
    ensures Once(Timeout(cfg, n, txs))
  {
    if n.manager.state == ALLCONFIRM {
      var round := if n.latest.Some? then n.latest.value.round + 1 else 1;
      TransitOnce(cfg, n, IsaacState(n.manager.height, round, INIT), txs);
    } else if n.manager.state in {SIGN, ACCEPT} {
      BroadcastOnce(n, ExpiredBallot(cfg, n, Basis(n.Height(), n.manager.round, n.chain), n.manager.state));
    }
  }

  lemma {:induction false} RunOnce(cfg: Config, n: Node, events: seq<Event>)
    requires |cfg.order| >= 1 && Once(n) && FreshRun(cfg, n, events)
    ensures Once(NodeRun(cfg, n, events))
    decreases |events|
  {
    if events != [] {
      StepOnce(cfg, n, events[0]);
      RunOnce(cfg, NodeStep(cfg, n, events[0]), events[1..]);
    }
  }

  /**
   Single voting, for any ballots from anyone and with renewals: as long as its own ballots reach it
   at the height they were sent for, a node broadcasts one ballot per slot, except that a renewal may add an EXP.
   */
  lemma NodeVotesOnce(cfg: Config, me: Address, events: seq<Event>)
    requires |cfg.order| >= 1 && FreshRun(cfg, InitialNode(me), events)
    ensures VotesOnce(NodeRun(cfg, InitialNode(me), events).out)
  {
    RunOnce(cfg, InitialNode(me), events);
  }

  /* ---- exactly when a node votes once ---- */

  /** What handling an own ballot would cast may be sent: recorded already, or a slot never used. */
  ghost predicate Harmless(cfg: Config, n: Node, e: Event)
    requires |cfg.order| >= 1
  {
    e.Deliver? && e.ballot.source == n.me ==>
      var c := Cast(cfg, n, e.ballot, e.stale);
      c.Some? ==> c.value.Slot() in n.sent || Unused(n.out, c.value.Slot())
  }

  lemma CastIsNoExp(cfg: Config, n: Node, b: Ballot, stale: set<Address>)
    requires |cfg.order| >= 1 && Cast(cfg, n, b, stale).Some?
    ensures Cast(cfg, n, b, stale).value.vote != Exp && Cast(cfg, n, b, stale).value.Slot() != b.Slot()
  {
  }

  /** A node that reuses a slot for a vote other than EXP has voted twice. */
  lemma ReuseShows(out: seq<Ballot>, after: seq<Ballot>, c: Ballot)
    requires out + [c] <= after && c.vote != Exp && !Unused(out, c.Slot())
    ensures !VotesOnce(after)
  {
    var x :| x in out && x.Slot() == c.Slot();
    var i :| 0 <= i < |out| && out[i] == x;
    assert after[i] == x && after[|out|] == c;
  }

  lemma HarmfulInit(cfg: Config, n: Node, b: Ballot, judged: Judgement, txs: Txs)
    requires |cfg.order| >= 1 && b.source == n.me && b.state == INIT
    requires var c := b.(state := SIGN, vote := Yes); c.Slot() !in n.sent && !Unused(n.out, c.Slot())
    ensures !VotesOnce(HandleInit(cfg, n, b, judged, txs).out)
  {
    ReuseShows(n.out, HandleInit(cfg, n, b, judged, txs).out, b.(state := SIGN, vote := Yes));
  }

  lemma HarmfulSign(cfg: Config, n: Node, b: Ballot, stale: set<Address>, txs: Txs)
    requires |cfg.order| >= 1 && Once(n) && b.basis.height <= |n.chain| && b.state == SIGN
    requires Cast(cfg, n, b, stale).Some?
    requires var c := Cast(cfg, n, b, stale).value; c.Slot() !in n.sent && !Unused(n.out, c.Slot())
    ensures !VotesOnce(HandleSign(cfg, n, b, stale, txs).out)
  {
    RenewOnce(cfg, Record(n, b), b, stale);
    var m := Renew(cfg, Record(n, b), b, stale);
    var c := Cast(cfg, n, b, stale).value;
    CastIsNoExp(cfg, n, b, stale);
    MaySendLater(n, m, b, c);
    assert HandleSign(cfg, n, b, stale, txs).out == m.out + [c];
    ReuseShows(m.out, HandleSign(cfg, n, b, stale, txs).out, c);
  }

  /** An own ballot of any state and any height up to the node's own. */
  lemma OwnBallotVotesOnceIff(cfg: Config, n: Node, b: Ballot, judged: Judgement, stale: set<Address>, txs: Txs)
    requires |cfg.order| >= 1 && Once(n) && b.source == n.me && b.basis.height <= |n.chain|
    ensures VotesOnce(Handle(cfg, n, b, judged, stale, txs).out) <==> Harmless(cfg, n, Deliver(b, judged, stale, txs))
    ensures Harmless(cfg, n, Deliver(b, judged, stale, txs)) ==> Once(Handle(cfg, n, b, judged, stale, txs))
  {
    if Harmless(cfg, n, Deliver(b, judged, stale, txs)) {
      match b.state {
        case INIT => InitOnce(cfg, n, b, judged, txs);
        case SIGN => SignOnce(cfg, n, b, stale, txs);
        case ACCEPT => AcceptOnce(cfg, n, b, stale, txs);
        case _ =>
      }
    } else if b.state == INIT {
      HarmfulInit(cfg, n, b, judged, txs);
    } else {
      HarmfulSign(cfg, n, b, stale, txs);
    }
  }

  /** A ballot that comes as the node's own is one that the node sent. */
  ghost predicate Genuine(n: Node, e: Event) {
    e.Deliver? && e.ballot.source == n.me ==> e.ballot in n.out
  }

  ghost predicate GenuineRun(cfg: Config, n: Node, events: seq<Event>)
    requires |cfg.order| >= 1
    decreases |events|
  {
    events == [] || (Genuine(n, events[0]) && GenuineRun(cfg, NodeStep(cfg, n, events[0]), events[1..]))
  }

  ghost predicate HarmlessRun(cfg: Config, n: Node, events: seq<Event>)
    requires |cfg.order| >= 1
    decreases |events|
  {
    events == [] || (Harmless(cfg, n, events[0]) && HarmlessRun(cfg, NodeStep(cfg, n, events[0]), events[1..]))
  }

  lemma StepOnceIff(cfg: Config, n: Node, e: Event)
    requires |cfg.order| >= 1 && Once(n) && Genuine(n, e)
    ensures VotesOnce(NodeStep(cfg, n, e).out) <==> Harmless(cfg, n, e)
    ensures Harmless(cfg, n, e) ==> Once(NodeStep(cfg, n, e))
  {
    if e.Deliver? && e.ballot.source == n.me {
      OwnBallotVotesOnceIff(cfg, n, e.ballot, e.judged, e.stale, e.txs);
    } else {
      StepOnce(cfg, n, e);
    }
  }

  lemma TransitKeepsOut(cfg: Config, n: Node, target: IsaacState, txs: Txs)
    requires |cfg.order| >= 1
    ensures n.out <= Transit(cfg, n, target, txs).out
  {
  }

  lemma RenewKeepsOut(cfg: Config, n: Node, b: Ballot, stale: set<Address>)
    requires |cfg.order| >= 1
    ensures n.out <= Renew(cfg, n, b, stale).out
  {
  }

  lemma HandleKeepsOut(cfg: Config, n: Node, b: Ballot, judged: Judgement, stale: set<Address>, txs: Txs)
    requires |cfg.order| >= 1
    ensures n.out <= Handle(cfg, n, b, judged, stale, txs).out
  {
    match b.state {
      case SIGN => SignKeepsOut(cfg, n, b, stale, txs);
      case ACCEPT => AcceptKeepsOut(cfg, n, b, stale, txs);
      case _ =>
    }
  }

  lemma LeaveKeepsOut(cfg: Config, n: Node, basis: Basis, txs: Txs)
    requires |cfg.order| >= 1
    ensures n.out <= Leave(cfg, n, basis, txs).out
  {
  }

  lemma SignKeepsOut(cfg: Config, n: Node, b: Ballot, stale: set<Address>, txs: Txs)
    requires |cfg.order| >= 1
    ensures n.out <= HandleSign(cfg, n, b, stale, txs).out
  {
    RenewKeepsOut(cfg, Record(n, b), b, stale);
    var m := Renew(cfg, Record(n, b), b, stale);
    var expired := b.(source := m.me, state := SIGN, vote := Exp);
    LeaveKeepsOut(cfg, Broadcast(m, expired), b.basis, txs);
    var accept := b.(source := m.me, state := ACCEPT, vote := Result(cfg, m, b).hole);
    TransitKeepsOut(cfg, Broadcast(m, accept), IsaacState(b.basis.height, b.basis.round, ACCEPT), txs);
  }

  lemma AcceptKeepsOut(cfg: Config, n: Node, b: Ballot, stale: set<Address>, txs: Txs)
    requires |cfg.order| >= 1
    ensures n.out <= HandleAccept(cfg, n, b, stale, txs).out
  {
    RenewKeepsOut(cfg, Record(n, b), b, stale);
    var m := Renew(cfg, Record(n, b), b, stale);
    LeaveKeepsOut(cfg, m, b.basis, txs);
    StoreKeepsOut(cfg, m, b, txs);
  }

  lemma StoreKeepsOut(cfg: Config, n: Node, b: Ballot, txs: Txs)
    requires |cfg.order| >= 1
    ensures n.out <= Store(cfg, n, b, txs).out
  {
  }

  /** What is sent stays sent. */
  lemma StepKeepsOut(cfg: Config, n: Node, e: Event)
    requires |cfg.order| >= 1
    ensures n.out <= NodeStep(cfg, n, e).out
  {
    if e.Deliver? {
      HandleKeepsOut(cfg, n, e.ballot, e.judged, e.stale, e.txs);
    }
  }

  lemma {:induction false} RunKeepsOut(cfg: Config, n: Node, events: seq<Event>)
    requires |cfg.order| >= 1
    ensures n.out <= NodeRun(cfg, n, events).out
    decreases |events|
  {
    if events != [] {
      StepKeepsOut(cfg, n, events[0]);
      RunKeepsOut(cfg, NodeStep(cfg, n, events[0]), events[1..]);
    }
  }

  lemma {:induction false} RunOnceIff(cfg: Config, n: Node, events: seq<Event>)
    requires |cfg.order| >= 1 && Once(n) && GenuineRun(cfg, n, events)
    ensures VotesOnce(NodeRun(cfg, n, events).out) <==> HarmlessRun(cfg, n, events)
    decreases |events|
  {
    if events != [] {
      var next := NodeStep(cfg, n, events[0]);
      StepOnceIff(cfg, n, events[0]);
      if Harmless(cfg, n, events[0]) {
        RunOnceIff(cfg, next, events[1..]);
      } else {
        RunKeepsOut(cfg, next, events[1..]);
        PrefixOnce(next.out, NodeRun(cfg, next, events[1..]).out);
      }
    }
  }

  lemma PrefixOnce(out: seq<Ballot>, after: seq<Ballot>)
    requires out <= after
    ensures VotesOnce(after) ==> VotesOnce(out)
  {
    forall i | 0 <= i < |out| ensures out[i] == after[i] {
    }
  }

  /**
   Over any run, with late own ballots and renewals: a node votes once per slot, EXP renewals aside, if
   and only if every own ballot it handles casts nothing, or casts into a slot that is recorded or unused.
   */
  lemma SingleVotingIff(cfg: Config, me: Address, events: seq<Event>)
    requires |cfg.order| >= 1 && GenuineRun(cfg, InitialNode(me), events)
    ensures VotesOnce(NodeRun(cfg, InitialNode(me), events).out) <==> HarmlessRun(cfg, InitialNode(me), events)
  {
    RunOnceIff(cfg, InitialNode(me), events);
  }
}
