/**
 Why agreement needs own ballots to arrive fresh. Two validators that must both agree: the first round
 expires, the second one gives a block, and only then one of them is handed its own old EXP vote. That
 single vote decides a round of the lower height, and the node jumps to round 1 of the new height while
 the other one is in round 0. Both rounds collect all votes, and each node stores a different one.
 */
module StaleVote {
  import opened Voting
  import opened Isaac
  import opened Agreement

  const PAIR := Config(["A", "B"], 2)

  /** An action as in a regular run, except that own ballots may come up to `d` heights late. */
  predicate Plain(d: nat, s: Net, a: Action) {
    && Enabled(s, a)
    && (a.event.Deliver? ==>
          && a.event.stale == {} && !TriggersSync(PAIR, s[a.who], a.event.ballot)
          && (a.event.ballot.source == a.who ==> s[a.who].Height() <= a.event.ballot.basis.height + d))
  }

  predicate PlainRun(d: nat, s: Net, acts: seq<Action>) {
    acts == [] || (Plain(d, s, acts[0]) && PlainRun(d, Next(PAIR, s, acts[0]), acts[1..]))
  }

  ghost predicate Reaches(d: nat, s: Net, t: Net) {
    exists acts :: PlainRun(d, s, acts) && Run(PAIR, s, acts) == t
  }

  lemma {:induction false} RunOn(d: nat, s: Net, acts: seq<Action>, more: seq<Action>)
    requires PlainRun(d, s, acts) && PlainRun(d, Run(PAIR, s, acts), more)
    ensures PlainRun(d, s, acts + more) && Run(PAIR, s, acts + more) == Run(PAIR, Run(PAIR, s, acts), more)
    decreases |acts|
  {
    if acts == [] {
      assert acts + more == more;
    } else {
      assert (acts + more)[1..] == acts[1..] + more;
      RunOn(d, Next(PAIR, s, acts[0]), acts[1..], more);
    }
  }

  lemma ReachesOn(d: nat, s: Net, t: Net, u: Net)
    requires Reaches(d, s, t) && Reaches(d, t, u)
    ensures Reaches(d, s, u)
  {
    var acts :| PlainRun(d, s, acts) && Run(PAIR, s, acts) == t;
    var more :| PlainRun(d, t, more) && Run(PAIR, t, more) == u;
    RunOn(d, s, acts, more);
  }

  lemma OneAction(d: nat, s: Net, a: Action)
    requires Plain(d, s, a)
    ensures Reaches(d, s, Next(PAIR, s, a))
  {
    var t := Next(PAIR, s, a);
    assert [a][1..] == [];
    assert PlainRun(d, t, []) && Run(PAIR, t, []) == t;
    assert PlainRun(d, s, [a]) && Run(PAIR, s, [a]) == Run(PAIR, t, [a][1..]);
  }

  function Two(a: Node, b: Node): Net { map["A" := a, "B" := b] }

  function Got(b: Ballot): Event { Deliver(b, Accepted, {}, []) }

  /** `me` takes the step `e`. */
  lemma Acts(d: nat, a: Node, b: Node, e: Event, who: Address)
    requires who in {"A", "B"} && Plain(d, Two(a, b), Action(who, e))
    ensures var n := NodeStep(PAIR, if who == "A" then a else b, e);
            Reaches(d, Two(a, b), if who == "A" then Two(n, b) else Two(a, n))
  {
    OneAction(d, Two(a, b), Action(who, e));
    var n := NodeStep(PAIR, if who == "A" then a else b, e);
    assert Next(PAIR, Two(a, b), Action(who, e)) == if who == "A" then Two(n, b) else Two(a, n);
  }

  /* ---- a round in which everybody says YES ---- */

  /** The vote of `who` on the proposal `p`. */
  function Yea(p: Ballot, who: Address, state: BallotState): Ballot { p.(source := who, state := state) }

  predicate IsProposal(p: Ballot) {
    && p.state == INIT && p.vote == Yes && p.source == p.proposer
    && p.proposer == PAIR.ProposerOf(p.basis.height, p.basis.round)
  }

  function Slot(p: Ballot, state: BallotState): IsaacState { IsaacState(p.basis.height, p.basis.round, state) }

  function Max(m: IsaacState, t: IsaacState): IsaacState { if m.IsLater(t) then t else m }

  predicate InPlace(n: Node, p: Ballot) {
    n.me in {"A", "B"} && IsProposal(p) && n.IsValidBasis(p.basis)
  }

  /** The node has not heard of the round yet. */
  predicate Ready(n: Node, p: Ballot) {
    && InPlace(n, p)
    && Slot(p, SIGN) !in n.sent && Slot(p, ACCEPT) !in n.sent
    && (forall k :: k in n.votes ==> k.slot != Slot(p, SIGN) && k.slot != Slot(p, ACCEPT))
  }

  function Signed(n: Node, p: Ballot): Node {
    n.(sent := n.sent + {Slot(p, SIGN)}, out := n.out + [Yea(p, n.me, SIGN)], manager := Max(n.manager, Slot(p, SIGN)))
  }

  lemma GetsProposal(n: Node, p: Ballot)
    requires Ready(n, p)
    ensures NodeStep(PAIR, n, Got(p)) == Signed(n, p)
  {
  }

  function Heard(n: Node, p: Ballot, state: BallotState): Node {
    n.(votes := n.votes[Yea(p, "A", state).Key() := Yea(p, "A", state)][Yea(p, "B", state).Key() := Yea(p, "B", state)])
  }

  /** One YES decides nothing, two decide YES. */
  lemma Counts(n: Node, p: Ballot, state: BallotState)
    requires state in {SIGN, ACCEPT} && p.vote == Yes && forall k :: k in n.votes ==> k.slot != Slot(p, state)
    ensures !Result(PAIR, Record(n, Yea(p, "A", state)), Yea(p, "A", state)).finished
    ensures Result(PAIR, Heard(n, p, state), Yea(p, "B", state)) == Verdict(Yes, true)
  {
    var x, y := Yea(p, "A", state), Yea(p, "B", state);
    var one, two := Record(n, x), Heard(n, p, state);
    assert x.Key() in one.votes && x.Key() in two.votes && y.Key() in two.votes;
    assert one.ViewOf(x.Slot(), x.proposer, Yes) == {"A"};
    assert one.ViewOf(x.Slot(), x.proposer, No) == {} && one.ViewOf(x.Slot(), x.proposer, Exp) == {};
    assert two.ViewOf(y.Slot(), y.proposer, Yes) == {"A", "B"};
  }

  function Accepting(n: Node, p: Ballot): Node {
    Heard(n, p, SIGN).(sent := n.sent + {Slot(p, ACCEPT)}, out := n.out + [Yea(p, n.me, ACCEPT)],
                       manager := Max(n.manager, Slot(p, ACCEPT)))
  }

  lemma GetsSigns(n: Node, p: Ballot)
    requires InPlace(n, p) && Slot(p, ACCEPT) !in n.sent && forall k :: k in n.votes ==> k.slot != Slot(p, SIGN)
    ensures NodeStep(PAIR, n, Got(Yea(p, "A", SIGN))) == Record(n, Yea(p, "A", SIGN))
    ensures NodeStep(PAIR, Record(n, Yea(p, "A", SIGN)), Got(Yea(p, "B", SIGN))) == Accepting(n, p)
  {
    Counts(n, p, SIGN);
    NothingStale(PAIR, Record(n, Yea(p, "A", SIGN)), Yea(p, "A", SIGN));
    NothingStale(PAIR, Heard(n, p, SIGN), Yea(p, "B", SIGN));
  }

  lemma GetsAccepts(n: Node, p: Ballot)
    requires InPlace(n, p) && forall k :: k in n.votes ==> k.slot != Slot(p, ACCEPT)
    ensures NodeStep(PAIR, n, Got(Yea(p, "A", ACCEPT))) == Record(n, Yea(p, "A", ACCEPT))
    ensures NodeStep(PAIR, Record(n, Yea(p, "A", ACCEPT)), Got(Yea(p, "B", ACCEPT)))
            == Store(PAIR, Heard(n, p, ACCEPT), Yea(p, "B", ACCEPT), [])
  {
    Counts(n, p, ACCEPT);
    NothingStale(PAIR, Record(n, Yea(p, "A", ACCEPT)), Yea(p, "A", ACCEPT));
    NothingStale(PAIR, Heard(n, p, ACCEPT), Yea(p, "B", ACCEPT));
  }

  /* ---- the same for both nodes ---- */

  ghost predicate Names(a: Node, b: Node) { a.me == "A" && b.me == "B" }

  /** Both nodes get the proposal and both SIGN votes. */
  lemma BothSign(d: nat, a: Node, b: Node, p: Ballot)
    requires Names(a, b) && Ready(a, p) && Ready(b, p) && Sent(Two(a, b), p)
    ensures Reaches(d, Two(a, b), Two(Signed(a, p), Signed(b, p)))
  {
    GetsProposal(a, p);
    GetsProposal(b, p);
    Acts(d, a, b, Got(p), "A");
    assert Sent(Two(Signed(a, p), b), p);
    Acts(d, Signed(a, p), b, Got(p), "B");
    ReachesOn(d, Two(a, b), Two(Signed(a, p), b), Two(Signed(a, p), Signed(b, p)));
  }

  /** `who` gets two sent votes, one after the other. */
  lemma GetsBoth(d: nat, a: Node, b: Node, who: Address, x: Ballot, y: Ballot)
    requires who in {"A", "B"} && Sent(Two(a, b), x) && Sent(Two(a, b), y)
    requires var n := if who == "A" then a else b;
             var m := NodeStep(PAIR, n, Got(x));
             && x.basis.height == n.Height() && y.basis.height == m.Height() && m.me == n.me && m.out == n.out
    ensures var n := if who == "A" then a else b;
            var m := NodeStep(PAIR, NodeStep(PAIR, n, Got(x)), Got(y));
            Reaches(d, Two(a, b), if who == "A" then Two(m, b) else Two(a, m))
  {
    var n := if who == "A" then a else b;
    var m := NodeStep(PAIR, n, Got(x));
    var mid := if who == "A" then Two(m, b) else Two(a, m);
    Acts(d, a, b, Got(x), who);
    if who == "A" {
      Acts(d, m, b, Got(y), who);
      ReachesOn(d, Two(a, b), mid, Two(NodeStep(PAIR, m, Got(y)), b));
    } else {
      Acts(d, a, m, Got(y), who);
      ReachesOn(d, Two(a, b), mid, Two(a, NodeStep(PAIR, m, Got(y))));
    }
  }

  lemma BothAccept(d: nat, a: Node, b: Node, p: Ballot)
    requires Names(a, b) && InPlace(a, p) && InPlace(b, p)
    requires Slot(p, ACCEPT) !in a.sent && Slot(p, ACCEPT) !in b.sent
    requires forall k :: k in a.votes || k in b.votes ==> k.slot != Slot(p, SIGN)
    requires Yea(p, "A", SIGN) in a.out && Yea(p, "B", SIGN) in b.out
    ensures Reaches(d, Two(a, b), Two(Accepting(a, p), Accepting(b, p)))
  {
    GetsSigns(a, p);
    GetsSigns(b, p);
    GetsBoth(d, a, b, "A", Yea(p, "A", SIGN), Yea(p, "B", SIGN));
    assert Yea(p, "A", SIGN) in Accepting(a, p).out;
    GetsBoth(d, Accepting(a, p), b, "B", Yea(p, "A", SIGN), Yea(p, "B", SIGN));
    ReachesOn(d, Two(a, b), Two(Accepting(a, p), b), Two(Accepting(a, p), Accepting(b, p)));
  }

  function Voted(n: Node, p: Ballot): Node { Accepting(Signed(n, p), p) }

  /** A round up to the ACCEPT votes. */
  lemma BothVote(d: nat, a: Node, b: Node, p: Ballot)
    requires Names(a, b) && Ready(a, p) && Ready(b, p) && Sent(Two(a, b), p)
    ensures Reaches(d, Two(a, b), Two(Voted(a, p), Voted(b, p)))
  {
    BothSign(d, a, b, p);
    BothAccept(d, Signed(a, p), Signed(b, p), p);
    ReachesOn(d, Two(a, b), Two(Signed(a, p), Signed(b, p)), Two(Voted(a, p), Voted(b, p)));
  }

  function Stored(n: Node, p: Ballot): Node { Store(PAIR, Heard(n, p, ACCEPT), Yea(p, "B", ACCEPT), []) }

  lemma Stores(d: nat, a: Node, b: Node, p: Ballot, who: Address)
    requires Names(a, b) && who in {"A", "B"}
    requires var n := if who == "A" then a else b;
             InPlace(n, p) && forall k :: k in n.votes ==> k.slot != Slot(p, ACCEPT)
    requires Yea(p, "A", ACCEPT) in a.out && Yea(p, "B", ACCEPT) in b.out
    ensures Reaches(d, Two(a, b), if who == "A" then Two(Stored(a, p), b) else Two(a, Stored(b, p)))
  {
    var n := if who == "A" then a else b;
    GetsAccepts(n, p);
    GetsBoth(d, a, b, who, Yea(p, "A", ACCEPT), Yea(p, "B", ACCEPT));
  }

  /* ---- the run ---- */

  const R0 := Basis(1, 0, [GENESIS])
  const EXPIRED := Ballot("B", "B", R0, [], SIGN, Exp)
  const P1 := Ballot("A", "A", Basis(1, 1, [GENESIS]), [], INIT, Yes)
  const CHAIN := [GENESIS, Block(1, "A", [])]
  const P2 := Ballot("A", "A", Basis(2, 0, CHAIN), [], INIT, Yes)
  const P3 := Ballot("B", "B", Basis(2, 1, CHAIN), [], INIT, Yes)

  /** The EXP vote of `who` in round 0 of height 1. */
  function ExpiredBy(who: Address): Ballot { EXPIRED.(source := who) }

  /** One EXP among two validators decides EXP. */
  lemma OneExpired(n: Node, who: Address)
    requires forall k :: k in n.votes ==> k.slot != EXPIRED.Slot()
    ensures Result(PAIR, Record(n, ExpiredBy(who)), ExpiredBy(who)) == Verdict(Exp, true)
  {
    var m := Record(n, ExpiredBy(who));
    assert ExpiredBy(who).Key() in m.votes;
    assert m.ViewOf(EXPIRED.Slot(), "B", Exp) == {who};
    assert m.ViewOf(EXPIRED.Slot(), "B", Yes) == {} && m.ViewOf(EXPIRED.Slot(), "B", No) == {};
  }

  /** What a node makes of such a vote: it leaves round 0 and moves on from wherever it is. */
  function Jumped(n: Node, who: Address): Node {
    Leave(PAIR, Broadcast(Record(n, ExpiredBy(who)), ExpiredBy(n.me)), R0, [])
  }

  lemma GetsExpired(n: Node, who: Address)
    requires who in {"A", "B"} && n.votes == map[] && (n.me == who || n.IsValidBasis(R0))
    ensures NodeStep(PAIR, n, Got(ExpiredBy(who))) == Jumped(n, who) && Jumped(n, who).votes == map[]
  {
    OneExpired(n, who);
    NothingStale(PAIR, Record(n, ExpiredBy(who)), ExpiredBy(who));
  }

  const A0 := Node("A", [GENESIS], None, map[], {}, IsaacState(1, 0, INIT), [], {})
  const B0 := Node("B", [GENESIS], None, map[], {IsaacState(1, 0, INIT), IsaacState(1, 0, SIGN)},
                   IsaacState(1, 0, SIGN), [Ballot("B", "B", R0, [], INIT, Yes), EXPIRED], {})

  const A1 := Node("A", [GENESIS], Some(R0), map[], {IsaacState(1, 0, SIGN), IsaacState(1, 1, INIT)},
                   IsaacState(1, 1, INIT), [EXPIRED.(source := "A"), P1], {(1, 0)})
  const B1 := B0.(latest := Some(R0), manager := IsaacState(1, 1, INIT), left := {(1, 0)})

  const B_PROPOSED := Node("B", [GENESIS], None, map[], {IsaacState(1, 0, INIT)}, IsaacState(1, 0, INIT),
                           [Ballot("B", "B", R0, [], INIT, Yes)], {})
  const B_WAITED := B_PROPOSED.(manager := IsaacState(1, 0, SIGN))

  lemma FirstSteps()
    ensures NodeStep(PAIR, InitialNode("A"), Start([])) == A0
    ensures NodeStep(PAIR, InitialNode("B"), Start([])) == B_PROPOSED
    ensures NodeStep(PAIR, B_PROPOSED, Timer([])) == B_WAITED
    ensures NodeStep(PAIR, B_WAITED, Timer([])) == B0
  {
  }

  lemma BothStart(d: nat)
    ensures Reaches(d, Initial(PAIR), Two(A0, B_PROPOSED))
  {
    var a, b := InitialNode("A"), InitialNode("B");
    assert Initial(PAIR) == Two(a, b);
    FirstSteps();
    Acts(d, a, b, Start([]), "A");
    Acts(d, A0, b, Start([]), "B");
    ReachesOn(d, Two(a, b), Two(A0, b), Two(A0, B_PROPOSED));
  }

  lemma TimeRunsOut(d: nat)
    ensures Reaches(d, Two(A0, B_PROPOSED), Two(A0, B0))
  {
    FirstSteps();
    Acts(d, A0, B_PROPOSED, Timer([]), "B");
    Acts(d, A0, B_WAITED, Timer([]), "B");
    ReachesOn(d, Two(A0, B_PROPOSED), Two(A0, B_WAITED), Two(A0, B0));
  }

  lemma Begins(d: nat)
    ensures Reaches(d, Initial(PAIR), Two(A0, B0))
  {
    BothStart(d);
    TimeRunsOut(d);
    ReachesOn(d, Initial(PAIR), Two(A0, B_PROPOSED), Two(A0, B0));
  }

  lemma JumpA()
    ensures NodeStep(PAIR, A0, Got(EXPIRED)) == A1
  {
    GetsExpired(A0, "B");
    assert {} + {IsaacState(1, 0, SIGN)} + {IsaacState(1, 1, INIT)} == A1.sent;
    assert [] + [ExpiredBy("A")] + [P1] == A1.out;
    assert Jumped(A0, "B") == A1;
  }

  lemma JumpB()
    ensures NodeStep(PAIR, B0, Got(ExpiredBy("A"))) == B1
  {
    GetsExpired(B0, "A");
    assert Jumped(B0, "A") == B1;
  }

  /** A leaves on the vote of B and B on the vote of A; the own vote of B is still on its way. */
  lemma RoundZeroExpires(d: nat)
    ensures Reaches(d, Two(A0, B0), Two(A1, B1))
  {
    JumpA();
    JumpB();
    assert EXPIRED == B0.out[1] && ExpiredBy("A") == A1.out[0];
    Acts(d, A0, B0, Got(EXPIRED), "A");
    Acts(d, A1, B0, Got(ExpiredBy("A")), "B");
    ReachesOn(d, Two(A0, B0), Two(A1, B0), Two(A1, B1));
  }

  const A2 := Node("A", CHAIN, Some(P1.basis), map[], {IsaacState(2, 0, INIT)}, IsaacState(2, 0, INIT),
                   A1.out + [Yea(P1, "A", SIGN), Yea(P1, "A", ACCEPT), P2], {(1, 0)})
  const B2 := Node("B", CHAIN, Some(P1.basis), map[], {}, IsaacState(2, 0, INIT),
                   B1.out + [Yea(P1, "B", SIGN), Yea(P1, "B", ACCEPT)], {(1, 0)})

  lemma FirstBlockOfA()
    ensures Stored(Voted(A1, P1), P1) == A2
  {
    var v := Heard(Voted(A1, P1), P1, ACCEPT);
    Forgets(v);
    assert v.out + [P2] == A2.out;
    assert {} + {IsaacState(2, 0, INIT)} == A2.sent;
  }

  lemma FirstBlockOfB()
    ensures Stored(Voted(B1, P1), P1) == B2
  {
    var v := Heard(Voted(B1, P1), P1, ACCEPT);
    Forgets(v);
    assert v.out == B2.out;
  }

  /** Storing the block of height 1 drops every vote and send record, all of that height. */
  lemma Forgets(v: Node)
    requires v.chain == [GENESIS]
    requires (forall k :: k in v.votes ==> k.slot.height <= 1) && (forall x :: x in v.sent ==> x.height <= 1)
    ensures v.chain + [Block(1, "A", [])] == CHAIN
    ensures forall m, c, l :: var w := v.(manager := m, chain := c, latest := l);
                              DropHeight(w, 1) == w.(votes := map[], sent := {})
  {
  }

  lemma StoreOfB(d: nat)
    ensures Reaches(d, Two(Voted(A1, P1), Voted(B1, P1)), Two(Voted(A1, P1), B2))
  {
    FirstBlockOfB();
    Stores(d, Voted(A1, P1), Voted(B1, P1), P1, "B");
  }

  lemma StoreOfA(d: nat)
    ensures Reaches(d, Two(Voted(A1, P1), B2), Two(A2, B2))
  {
    FirstBlockOfA();
    assert Yea(P1, "B", ACCEPT) in B2.out;
    Stores(d, Voted(A1, P1), B2, P1, "A");
  }

  lemma RoundOneGivesBlock(d: nat)
    ensures Reaches(d, Two(A1, B1), Two(A2, B2))
  {
    BothVote(d, A1, B1, P1);
    StoreOfB(d);
    StoreOfA(d);
    ReachesOn(d, Two(A1, B1), Two(Voted(A1, P1), Voted(B1, P1)), Two(Voted(A1, P1), B2));
    ReachesOn(d, Two(A1, B1), Two(Voted(A1, P1), B2), Two(A2, B2));
  }

  const B3 := B2.(latest := Some(R0), sent := {IsaacState(1, 0, SIGN), IsaacState(2, 1, INIT)},
                  manager := IsaacState(2, 1, INIT), out := B2.out + [EXPIRED, P3])

  lemma JumpAgain()
    ensures NodeStep(PAIR, B2, Got(EXPIRED)) == B3
  {
    GetsExpired(B2, "B");
    assert B2.out + [EXPIRED] + [P3] == B3.out;
    assert {} + {IsaacState(1, 0, SIGN)} + {IsaacState(2, 1, INIT)} == B3.sent;
    assert {(1, 0)} + {(1, 0)} == B3.left;
    assert Jumped(B2, "B") == B3;
  }

  /** The old vote reaches its sender at last, which proposes in round 1 of height 2. */
  lemma OldVoteReturns(d: nat)
    requires d >= 1
    ensures Reaches(d, Two(A2, B2), Two(A2, B3))
  {
    JumpAgain();
    assert EXPIRED == B2.out[1];
    Acts(d, A2, B2, Got(EXPIRED), "B");
  }

  const A4 := Voted(A2, P2)
  const B4 := Voted(B3, P2)

  lemma RoundZeroVotes(d: nat)
    ensures Reaches(d, Two(A2, B3), Two(A4, B4))
  {
    BothVote(d, A2, B3, P2);
  }

  const A5 := Voted(A4, P3)
  const B5 := Voted(B4, P3)

  lemma RoundOneVotes(d: nat)
    ensures Reaches(d, Two(A4, B4), Two(A5, B5))
  {
    assert P3 in B3.out;
    BothVote(d, A4, B4, P3);
  }

  lemma StoreExtends(n: Node, p: Ballot)
    requires n.chain == p.basis.prev && |n.chain| == p.basis.height
    ensures n.out <= Stored(n, p).out && Stored(n, p).me == n.me
    ensures Stored(n, p).chain == n.chain + [Block(p.basis.round, p.proposer, p.txs)]
  {
  }

  /** Each node hears the ACCEPT votes of another round first. */
  lemma DifferentBlocks(d: nat)
    ensures Reaches(d, Two(A5, B5), Two(Stored(A5, P2), Stored(B5, P3)))
  {
    assert Yea(P2, "A", ACCEPT) in A4.out && Yea(P2, "B", ACCEPT) in B4.out;
    Stores(d, A5, B5, P2, "A");
    StoreExtends(A5, P2);
    SecondStore(d, Stored(A5, P2));
    ReachesOn(d, Two(A5, B5), Two(Stored(A5, P2), B5), Two(Stored(A5, P2), Stored(B5, P3)));
  }

  lemma SecondStore(d: nat, a: Node)
    requires a.me == "A" && A5.out <= a.out
    ensures Reaches(d, Two(a, B5), Two(a, Stored(B5, P3)))
  {
    LastVotes();
    Stores(d, a, B5, P3, "B");
  }

  lemma LastVotes()
    ensures Yea(P3, "A", ACCEPT) in A5.out && Yea(P3, "B", ACCEPT) in B5.out
    ensures B5.me == "B" && InPlace(B5, P3) && forall k :: k in B5.votes ==> k.slot != Slot(P3, ACCEPT)
  {
  }

  lemma FirstHalf(d: nat)
    ensures Reaches(d, Initial(PAIR), Two(A2, B2))
  {
    Begins(d);
    RoundZeroExpires(d);
    RoundOneGivesBlock(d);
    ReachesOn(d, Initial(PAIR), Two(A0, B0), Two(A1, B1));
    ReachesOn(d, Initial(PAIR), Two(A1, B1), Two(A2, B2));
  }

  lemma SecondHalf(d: nat)
    requires d >= 1
    ensures Reaches(d, Two(A2, B2), Two(A5, B5))
  {
    OldVoteReturns(d);
    RoundZeroVotes(d);
    RoundOneVotes(d);
    ReachesOn(d, Two(A2, B2), Two(A2, B3), Two(A4, B4));
    ReachesOn(d, Two(A2, B2), Two(A4, B4), Two(A5, B5));
  }

  /**
   A run of the code as it is, with no renewal, no sync and one own ballot that is one height late,
   after which the chains contradict each other.
   */
  lemma StaleVoteBreaksAgreement(d: nat)
    requires d >= 1
    ensures var s := Two(Stored(A5, P2), Stored(B5, P3));
            && Reaches(d, Initial(PAIR), s)
            && s["A"].chain == CHAIN + [Block(0, "A", [])]
            && s["B"].chain == CHAIN + [Block(1, "B", [])]
  {
    FirstHalf(d);
    SecondHalf(d);
    DifferentBlocks(d);
    ReachesOn(d, Initial(PAIR), Two(A2, B2), Two(A5, B5));
    ReachesOn(d, Initial(PAIR), Two(A5, B5), Two(Stored(A5, P2), Stored(B5, P3)));
    StoreExtends(A5, P2);
    StoreExtends(B5, P3);
  }

  /* ---- exactly when the two validators agree ---- */

  ghost predicate Agrees(s: Net) {
    forall a, c :: a in s && c in s ==> Comparable(s[a].chain, s[c].chain)
  }

  /** Own ballots that are never late make a run regular: none can be early. */
  lemma {:induction false} PunctualIsRegular(s: Net, acts: seq<Action>)
    requires PAIR.Valid() && Inv(PAIR, s) && PlainRun(0, s, acts)
    ensures RegularRun(PAIR, s, acts)
    decreases |acts|
  {
    if acts != [] {
      OwnIsNotEarly(s, acts[0]);
      StepKeeps(PAIR, s, acts[0]);
      PunctualIsRegular(Next(PAIR, s, acts[0]), acts[1..]);
    }
  }

  lemma OwnIsNotEarly(s: Net, a: Action)
    requires PAIR.Valid() && Inv(PAIR, s) && Plain(0, s, a)
    ensures Regular(PAIR, s, a)
  {
    if a.event.Deliver? && a.event.ballot.source == a.who {
      assert NodeOk(PAIR, s, s[a.who]);
      assert BallotOk(PAIR, s, a.who, s[a.who].chain, s[a.who].sent, a.event.ballot);
    }
  }

  lemma PunctualAgrees(acts: seq<Action>)
    requires PlainRun(0, Initial(PAIR), acts)
    ensures Agrees(Run(PAIR, Initial(PAIR), acts))
  {
    InitialOk(PAIR);
    PunctualIsRegular(Initial(PAIR), acts);
    ChainsAgree(PAIR, acts);
  }

  lemma DifferentChains(s: Net)
    requires "A" in s && "B" in s
    requires s["A"].chain == CHAIN + [Block(0, "A", [])] && s["B"].chain == CHAIN + [Block(1, "B", [])]
    ensures !Agrees(s)
  {
    assert s["A"].chain[2] != s["B"].chain[2];
    assert !Comparable(s["A"].chain, s["B"].chain);
  }

  lemma ReachesDisagreement(d: nat) returns (s: Net)
    requires d >= 1
    ensures Reaches(d, Initial(PAIR), s) && !Agrees(s)
  {
    StaleVoteBreaksAgreement(d);
    s := Two(Stored(A5, P2), Stored(B5, P3));
    DifferentChains(s);
  }

  lemma LateDisagrees(d: nat)
    requires d >= 1
    ensures exists acts :: PlainRun(d, Initial(PAIR), acts) && !Agrees(Run(PAIR, Initial(PAIR), acts))
  {
    var s := ReachesDisagreement(d);
    var acts :| PlainRun(d, Initial(PAIR), acts) && Run(PAIR, Initial(PAIR), acts) == s;
  }

  /**
   Two validators that must both vote YES: all runs in which own ballots are at most `d` heights late
   end in agreement, if and only if `d` is zero.
   */
  lemma PairAgreesIff(d: nat)
    ensures (forall acts :: PlainRun(d, Initial(PAIR), acts) ==> Agrees(Run(PAIR, Initial(PAIR), acts))) <==> d == 0
  {
    if d == 0 {
      forall acts | PlainRun(d, Initial(PAIR), acts) ensures Agrees(Run(PAIR, Initial(PAIR), acts)) {
        PunctualAgrees(acts);
      }
    } else {
      LateDisagrees(d);
    }
  }
}
