/**
 Why own ballots must arrive fresh. `BallotCheckBasis` lets a node's own ballot through at any time.
 Here a lone validator is handed its first proposal again after it stored a block from the next round:
 the send record of that height is gone by then, so it votes YES where it had voted EXP.
 */
module StaleOwnBallot {
  import opened Voting
  import opened Isaac
  import opened SingleVoting

  const ALONE := Config(["A"], 1)

  function B(basis: Basis, state: BallotState, vote: Hole): Ballot {
    Ballot("A", "A", basis, [], state, vote)
  }

  const R0 := Basis(1, 0, [GENESIS])
  const R1 := Basis(1, 1, [GENESIS])

  function Got(b: Ballot): Event {
    Deliver(b, Accepted, {}, [])
  }

  const EVENTS: seq<Event> := [
    Start([]), Timer([]), Timer([]), Got(B(R0, SIGN, Exp)),
    Got(B(R1, INIT, Yes)), Got(B(R1, SIGN, Yes)), Got(B(R1, ACCEPT, Yes)),
    Got(B(R0, INIT, Yes))]

  /** The lone validator with no recorded votes. */
  function Alone(chain: seq<Block>, latest: Option<Basis>, sent: set<IsaacState>, manager: IsaacState,
                 out: seq<Ballot>, left: set<(nat, nat)>): Node
  {
    Node("A", chain, latest, map[], sent, manager, out, left)
  }

  lemma OneVote(n: Node, b: Ballot)
    requires n.votes == map[b.Key() := b]
    ensures n.ViewOf(b.Slot(), b.proposer, b.vote) == {b.source}
    ensures forall hole :: hole != b.vote ==> n.ViewOf(b.Slot(), b.proposer, hole) == {}
  {
    assert b.Key() in n.votes;
  }

  ghost predicate Reached(k: nat, n: Node)
    requires k <= |EVENTS|
  {
    n == NodeRun(ALONE, InitialNode("A"), EVENTS[..k])
  }

  lemma Extend(k: nat, n: Node)
    requires k < |EVENTS| && Reached(k, n)
    ensures Reached(k + 1, NodeStep(ALONE, n, EVENTS[k]))
  {
    RunAppend(ALONE, InitialNode("A"), EVENTS[..k], EVENTS[k]);
    assert EVENTS[..k] + [EVENTS[k]] == EVENTS[..k + 1];
  }

  const PROPOSED := Alone([GENESIS], None, {IsaacState(1, 0, INIT)}, IsaacState(1, 0, INIT), [B(R0, INIT, Yes)], {})

  const EXPIRED := Alone([GENESIS], None, {IsaacState(1, 0, INIT), IsaacState(1, 0, SIGN)},
                         IsaacState(1, 0, SIGN), [B(R0, INIT, Yes), B(R0, SIGN, Exp)], {})

  const NEXT_ROUND := Alone([GENESIS], Some(R0), EXPIRED.sent + {IsaacState(1, 1, INIT)},
                            IsaacState(1, 1, INIT), EXPIRED.out + [B(R1, INIT, Yes)], {(1, 0)})

  const SIGNED := NEXT_ROUND.(sent := NEXT_ROUND.sent + {IsaacState(1, 1, SIGN)}, manager := IsaacState(1, 1, SIGN),
                              out := NEXT_ROUND.out + [B(R1, SIGN, Yes)])

  const ACCEPTED := SIGNED.(votes := map[B(R1, SIGN, Yes).Key() := B(R1, SIGN, Yes)],
                            sent := SIGNED.sent + {IsaacState(1, 1, ACCEPT)}, manager := IsaacState(1, 1, ACCEPT),
                            out := SIGNED.out + [B(R1, ACCEPT, Yes)])

  /** Round 0: the proposal goes unanswered, the node times out and votes EXP. */
  lemma RoundZero()
    ensures Reached(3, EXPIRED)
  {
    Extend(0, InitialNode("A"));
    assert NodeStep(ALONE, InitialNode("A"), EVENTS[0]) == PROPOSED;
    Extend(1, PROPOSED);
    Extend(2, NodeStep(ALONE, PROPOSED, EVENTS[1]));
    assert NodeStep(ALONE, NodeStep(ALONE, PROPOSED, EVENTS[1]), EVENTS[2]) == EXPIRED;
  }

  /** The EXP vote decides round 0; the node proposes in round 1. */
  lemma LeavesRoundZero()
    ensures NodeStep(ALONE, EXPIRED, EVENTS[3]) == NEXT_ROUND
  {
    var b := B(R0, SIGN, Exp);
    var n := Record(EXPIRED, b);
    NothingStale(ALONE, n, b);
    assert Result(ALONE, n, b) == Verdict(Exp, true) by {
      OneVote(n, b);
    }
    LeavesRound(n, b);
  }

  lemma LeavesRound(n: Node, b: Ballot)
    requires b == B(R0, SIGN, Exp) && n == Record(EXPIRED, b)
    ensures Leave(ALONE, Broadcast(n, b), R0, []) == NEXT_ROUND
  {
    assert DropRounds(n, R0).votes == map[];
  }

  lemma Signs()
    ensures NodeStep(ALONE, NEXT_ROUND, EVENTS[4]) == SIGNED
  {
  }

  lemma Accepts()
    ensures NodeStep(ALONE, SIGNED, EVENTS[5]) == ACCEPTED
  {
    var b := B(R1, SIGN, Yes);
    var n := Record(SIGNED, b);
    OneVote(n, b);
    NothingStale(ALONE, n, b);
    assert Result(ALONE, n, b) == Verdict(Yes, true);
  }

  const STORED := Alone([GENESIS, Block(1, "A", [])], Some(R1), {IsaacState(2, 0, INIT)}, IsaacState(2, 0, INIT),
                        ACCEPTED.out + [B(Basis(2, 0, [GENESIS, Block(1, "A", [])]), INIT, Yes)], {(1, 0)})

  lemma Stores()
    ensures NodeStep(ALONE, ACCEPTED, EVENTS[6]) == STORED
  {
    var b := B(R1, ACCEPT, Yes);
    var n := Record(ACCEPTED, b);
    NothingStale(ALONE, n, b);
    assert Result(ALONE, n, b) == Verdict(Yes, true) by {
      assert b.Key() in n.votes;
      assert n.ViewOf(b.Slot(), b.proposer, Yes) == {"A"};
    }
    StoresBlock(n, b);
  }

  lemma StoresBlock(n: Node, b: Ballot)
    requires b == B(R1, ACCEPT, Yes) && n == Record(ACCEPTED, b)
    ensures Store(ALONE, n, b, []) == STORED
  {
    var n1 := n.(manager := IsaacState(1, 1, ALLCONFIRM));
    assert Transit(ALONE, n, IsaacState(1, 1, ALLCONFIRM), []) == n1;
    assert n1.chain + [Block(1, "A", [])] == STORED.chain;
    var n2 := n1.(chain := STORED.chain, latest := Some(R1));
    assert DropHeight(n2, 1) == n2.(votes := map[], sent := {});
    assert {} + {IsaacState(2, 0, INIT)} == STORED.sent;
  }

  /** The old proposal comes back to its sender. */
  lemma VotesAgain()
    ensures NodeStep(ALONE, STORED, EVENTS[7]).out == STORED.out + [B(R0, SIGN, Yes)]
  {
  }

  lemma ReachesRoundOne()
    ensures Reached(5, SIGNED)
  {
    RoundZero();
    Extend(3, EXPIRED);
    LeavesRoundZero();
    Extend(4, NEXT_ROUND);
    Signs();
  }

  lemma ReachesBlock()
    ensures Reached(7, STORED)
  {
    ReachesRoundOne();
    Extend(5, SIGNED);
    Accepts();
    Extend(6, ACCEPTED);
    Stores();
  }

  lemma WholeRun()
    ensures NodeRun(ALONE, InitialNode("A"), EVENTS).out == STORED.out + [B(R0, SIGN, Yes)]
  {
    ReachesBlock();
    VotesAgain();
    Extend(7, STORED);
    assert EVENTS[..8] == EVENTS;
  }

  /** Single voting fails for the code as it is: EXP and then YES for height 1, round 0, SIGN. */
  lemma StaleProposalBreaksSingleVoting()
    ensures !VotesOnce(NodeRun(ALONE, InitialNode("A"), EVENTS).out)
  {
    WholeRun();
    var out := STORED.out + [B(R0, SIGN, Yes)];
    assert out[1] == B(R0, SIGN, Exp) && out[6] == B(R0, SIGN, Yes);
    assert out[1].Slot() == out[6].Slot();
  }
}
