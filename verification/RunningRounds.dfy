/** The running rounds of a validator: votes nested by basis index, proposer, state and voter. */
module RunningRounds {
  import opened Voting
  import opened Isaac

  /* ---- the index of a basis ---- */

  function Digit(d: nat): char
    requires d < 10
  {
    ('0' as int + d) as char
  }

  /** `strconv.FormatUint(n, 10)` */
  function Decimal(n: nat): string {
    if n < 10 then [Digit(n)] else Decimal(n / 10) + [Digit(n % 10)]
  }

  function Parse(s: string): int {
    if s == [] then 0 else 10 * Parse(s[..|s| - 1]) + (s[|s| - 1] as int - '0' as int)
  }

  lemma {:induction false} ParseDecimal(n: nat)
    ensures Parse(Decimal(n)) == n && '-' !in Decimal(n)
  {
    if n < 10 {
      assert Decimal(n)[..0] == [];
    } else {
      ParseDecimal(n / 10);
      assert Decimal(n)[..|Decimal(n)| - 1] == Decimal(n / 10);
    }
  }

  function Index(height: nat, round: nat): string { Decimal(height) + "-" + Decimal(round) }

  lemma SplitAtDash(s: string, t: string, u: string, v: string)
    requires '-' !in s && '-' !in u && s + "-" + t == u + "-" + v
    ensures s == u && t == v
  {
    var whole := s + "-" + t;
    assert whole[|s|] == '-' && whole[|u|] == '-';
    assert whole[..|s|] == s && whole[..|u|] == u;
    assert whole[|s| + 1..] == t && whole[|u| + 1..] == v;
  }

  /** Different rounds have different indexes. */
  lemma IndexIsInjective(h: nat, r: nat, height: nat, round: nat)
    requires Index(h, r) == Index(height, round)
    ensures h == height && r == round
  {
    ParseDecimal(h);
    ParseDecimal(r);
    ParseDecimal(height);
    ParseDecimal(round);
    SplitAtDash(Decimal(h), Decimal(r), Decimal(height), Decimal(round));
  }

  /* ---- rounds ---- */

  datatype RoundVotes = RoundVotes(sign: map<Address, Ballot>, accept: map<Address, Ballot>) {
    function Of(state: BallotState): map<Address, Ballot> {
      match state
      case SIGN => sign
      case ACCEPT => accept
      case _ => map[]
    }

    function Without(state: BallotState, stale: set<Address>): RoundVotes {
      match state
      case SIGN => this.(sign := sign - stale)
      case ACCEPT => this.(accept := accept - stale)
      case _ => this
    }

    function With(b: Ballot): RoundVotes {
      match b.state
      case SIGN => this.(sign := sign[b.source := b])
      case ACCEPT => this.(accept := accept[b.source := b])
      case _ => this
    }
  }

  const NO_VOTES := RoundVotes(map[], map[])

  /** A vote goes to the votes of its own state, if that state counts, and leaves the other ones alone. */
  lemma RoundVoteRecords(votes: RoundVotes, b: Ballot, state: BallotState)
    ensures votes.With(b).Of(state)
            == if state == b.state && state.IsValidForVote() then votes.Of(state)[b.source := b] else votes.Of(state)
    ensures NO_VOTES.With(b).Of(state)
            == if state == b.state && state.IsValidForVote() then map[b.source := b] else map[]
  {
  }

  datatype RunningRound = RunningRound(basis: Basis, proposer: Address, voted: map<Address, RoundVotes>,
                                       ballots: seq<Ballot>)
  {
    function VotesFor(p: Address): RoundVotes { if p in voted then voted[p] else NO_VOTES }

    function Vote(b: Ballot): RunningRound {
      this.(voted := voted[b.proposer := VotesFor(b.proposer).With(b)], ballots := ballots + [b])
    }
  }

  type Rounds = map<string, RunningRound>

  function IndexOf(basis: Basis): string { Index(basis.height, basis.round) }

  function Voted(cfg: Config, rounds: Rounds, b: Ballot): Rounds
    requires |cfg.order| >= 1
  {
    var i := IndexOf(b.basis);
    var round := if i in rounds then rounds[i]
                 else RunningRound(b.basis, cfg.ProposerOf(b.basis.height, b.basis.round), map[], []);
    rounds[i := round.Vote(b)]
  }

  /** Later than `basis`, by height and then round. */
  predicate Later(b: Basis, basis: Basis) {
    b.height > basis.height || (b.height == basis.height && b.round > basis.round)
  }

  /** Every round sits under the index of its own basis. */
  ghost predicate WellIndexed(rounds: Rounds) {
    forall i :: i in rounds ==> i == IndexOf(rounds[i].basis)
  }

  /** Every round carries the proposer selected for it. */
  ghost predicate WellProposed(cfg: Config, rounds: Rounds)
    requires |cfg.order| >= 1
  {
    forall i :: i in rounds ==> rounds[i].proposer == cfg.ProposerOf(rounds[i].basis.height, rounds[i].basis.round)
  }

  lemma VotedWellIndexed(cfg: Config, rounds: Rounds, b: Ballot)
    requires |cfg.order| >= 1 && WellIndexed(rounds) && WellProposed(cfg, rounds)
    ensures WellIndexed(Voted(cfg, rounds, b)) && WellProposed(cfg, Voted(cfg, rounds, b))
  {
  }

  lemma SomeKept(cfg: Config, rounds: Rounds, kept: Rounds)
    requires |cfg.order| >= 1 && WellIndexed(rounds) && WellProposed(cfg, rounds)
    requires forall i :: i in kept ==> i in rounds && kept[i] == rounds[i]
    ensures WellIndexed(kept) && WellProposed(cfg, kept)
  {
  }

  /* ---- the nested votes are the flat ones ---- */

  /** The vote that the rounds hold at a place. */
  function VoteAt(rounds: Rounds, k: VoteKey): Option<Ballot> {
    var i := Index(k.slot.height, k.slot.round);
    if i !in rounds then None
    else
      var votes := rounds[i].VotesFor(k.proposer).Of(k.slot.state);
      if k.source in votes then Some(votes[k.source]) else None
  }

  function FlatAt(votes: map<VoteKey, Ballot>, k: VoteKey): Option<Ballot> {
    if k in votes then Some(votes[k]) else None
  }

  /** The rounds hold exactly the votes of the abstract validator. */
  ghost predicate Holds(rounds: Rounds, votes: map<VoteKey, Ballot>) {
    forall k :: VoteAt(rounds, k) == FlatAt(votes, k)
  }

  lemma RecordedAt(cfg: Config, rounds: Rounds, b: Ballot, k: VoteKey)
    requires |cfg.order| >= 1
    ensures VoteAt(Voted(cfg, rounds, b), k)
            == if b.state in {SIGN, ACCEPT} && k == b.Key() then Some(b) else VoteAt(rounds, k)
  {
    if Index(k.slot.height, k.slot.round) == IndexOf(b.basis) {
      IndexIsInjective(k.slot.height, k.slot.round, b.basis.height, b.basis.round);
    }
  }

  /** Voting in the rounds is recording the vote; an INIT ballot only opens its round. */
  lemma VotedHolds(cfg: Config, rounds: Rounds, n: Node, b: Ballot)
    requires |cfg.order| >= 1 && Holds(rounds, n.votes)
    ensures Holds(Voted(cfg, rounds, b), if b.state in {SIGN, ACCEPT} then Record(n, b).votes else n.votes)
  {
    var votes := if b.state in {SIGN, ACCEPT} then Record(n, b).votes else n.votes;
    forall k ensures VoteAt(Voted(cfg, rounds, b), k) == FlatAt(votes, k) {
      RecordedAt(cfg, rounds, b, k);
      assert VoteAt(rounds, k) == FlatAt(n.votes, k);
    }
  }

  function DropLowerOrEqualBasis(rounds: Rounds, basis: Basis): Rounds {
    map i | i in rounds && Later(rounds[i].basis, basis) :: rounds[i]
  }

  function DropLowerOrEqualHeight(rounds: Rounds, height: nat): Rounds {
    map i | i in rounds && rounds[i].basis.height > height :: rounds[i]
  }

  lemma BasisAt(rounds: Rounds, k: VoteKey)
    requires WellIndexed(rounds) && Index(k.slot.height, k.slot.round) in rounds
    ensures var basis := rounds[Index(k.slot.height, k.slot.round)].basis;
            basis.height == k.slot.height && basis.round == k.slot.round
  {
    var basis := rounds[Index(k.slot.height, k.slot.round)].basis;
    IndexIsInjective(k.slot.height, k.slot.round, basis.height, basis.round);
  }

  /** The removal loops delete the votes of exactly the rounds at or below the bound, and no others. */
  lemma DroppedHolds(rounds: Rounds, n: Node, basis: Basis)
    requires WellIndexed(rounds) && Holds(rounds, n.votes)
    ensures WellIndexed(DropLowerOrEqualBasis(rounds, basis))
    ensures Holds(DropLowerOrEqualBasis(rounds, basis), DropRounds(n, basis).votes)
  {
    forall k ensures VoteAt(DropLowerOrEqualBasis(rounds, basis), k) == FlatAt(DropRounds(n, basis).votes, k) {
      assert VoteAt(rounds, k) == FlatAt(n.votes, k);
      if Index(k.slot.height, k.slot.round) in rounds {
        BasisAt(rounds, k);
      }
    }
  }

  lemma DroppedHeightHolds(rounds: Rounds, n: Node, height: nat)
    requires WellIndexed(rounds) && Holds(rounds, n.votes)
    ensures WellIndexed(DropLowerOrEqualHeight(rounds, height))
    ensures Holds(DropLowerOrEqualHeight(rounds, height), DropHeight(n, height).votes)
  {
    forall k ensures VoteAt(DropLowerOrEqualHeight(rounds, height), k) == FlatAt(DropHeight(n, height).votes, k) {
      assert VoteAt(rounds, k) == FlatAt(n.votes, k);
      if Index(k.slot.height, k.slot.round) in rounds {
        BasisAt(rounds, k);
      }
    }
  }

  /** The votes for the ballot's proposer and state without those of `stale`. */
  function Pruned(rounds: Rounds, b: Ballot, stale: set<Address>): Rounds {
    var i := IndexOf(b.basis);
    if i !in rounds || b.proposer !in rounds[i].voted then rounds
    else
      var votes := rounds[i].voted[b.proposer];
      rounds[i := rounds[i].(voted := rounds[i].voted[b.proposer := votes.Without(b.state, stale)])]
  }

  /** Removing old ballots drops exactly the out-of-date votes of that proposer and state. */
  lemma PrunedHolds(rounds: Rounds, votes: map<VoteKey, Ballot>, b: Ballot, stale: set<Address>)
    requires WellIndexed(rounds) && Holds(rounds, votes)
    ensures WellIndexed(Pruned(rounds, b, stale))
    ensures var gone := set k | k in votes && k.slot == b.Slot() && k.proposer == b.proposer && k.source in stale;
            Holds(Pruned(rounds, b, stale), votes - gone)
  {
    var gone := set k | k in votes && k.slot == b.Slot() && k.proposer == b.proposer && k.source in stale;
    forall k ensures VoteAt(Pruned(rounds, b, stale), k) == FlatAt(votes - gone, k) {
      assert VoteAt(rounds, k) == FlatAt(votes, k);
      if Index(k.slot.height, k.slot.round) == IndexOf(b.basis) {
        IndexIsInjective(k.slot.height, k.slot.round, b.basis.height, b.basis.round);
      }
    }
  }

  /* ---- counting ---- */

  function HolesOf(votes: map<Address, Ballot>): map<Address, Hole> { map a | a in votes :: votes[a].vote }

  /** `CanGetVotingResult`: no round means an end without a result, no votes for the proposer an open count. */
  function VotingResult(cfg: Config, rounds: Rounds, b: Ballot): Verdict {
    var i := IndexOf(b.basis);
    if i !in rounds then Verdict(NotYet, true)
    else if b.proposer !in rounds[i].voted then OPEN
    else DecideView(cfg.threshold, |cfg.order|, HolesOf(rounds[i].voted[b.proposer].Of(b.state)))
  }

  lemma ViewsAreEqual(rounds: Rounds, n: Node, b: Ballot, hole: Hole)
    requires Holds(rounds, n.votes) && IndexOf(b.basis) in rounds && b.proposer in rounds[IndexOf(b.basis)].voted
    ensures n.ViewOf(b.Slot(), b.proposer, hole)
            == Voters(HolesOf(rounds[IndexOf(b.basis)].voted[b.proposer].Of(b.state)), hole)
  {
    var votes := rounds[IndexOf(b.basis)].voted[b.proposer].Of(b.state);
    forall a ensures a in n.ViewOf(b.Slot(), b.proposer, hole) <==> a in Voters(HolesOf(votes), hole) {
      var k := VoteKey(b.Slot(), b.proposer, a);
      assert VoteAt(rounds, k) == FlatAt(n.votes, k);
      assert a in n.ViewOf(b.Slot(), b.proposer, hole) <==> k in n.votes && n.votes[k].vote == hole;
    }
  }

  /** Counting the nested votes gives the verdict on the flat ones. */
  lemma ResultsAreEqual(cfg: Config, rounds: Rounds, n: Node, b: Ballot)
    requires Holds(rounds, n.votes) && IndexOf(b.basis) in rounds && b.proposer in rounds[IndexOf(b.basis)].voted
    ensures VotingResult(cfg, rounds, b) == Result(cfg, n, b)
  {
    ViewsAreEqual(rounds, n, b, Yes);
    ViewsAreEqual(rounds, n, b, No);
    ViewsAreEqual(rounds, n, b, Exp);
  }

  /* ---- the object ---- */

  class ISAAC {
    const cfg: Config
    var runningRounds: Rounds

    ghost predicate Valid()
      reads this
    {
      |cfg.order| >= 1 && WellIndexed(runningRounds) && WellProposed(cfg, runningRounds)
    }

    constructor (cfg: Config)
      requires |cfg.order| >= 1
      ensures Valid() && this.cfg == cfg && runningRounds == map[]
    {
      this.cfg := cfg;
      runningRounds := map[];
    }

    /** Whether the ballot's voter is already counted. */
    method IsVoted(b: Ballot) returns (found: bool)
      ensures found <==> VoteAt(runningRounds, b.Key()).Some?
    {
      var i := IndexOf(b.basis);
      if i !in runningRounds {
        return false;
      }
      var round := runningRounds[i];
      if b.proposer !in round.voted {
        return false;
      }
      found := b.source in round.voted[b.proposer].Of(b.state);
    }

    /** `isNew` says that the round or its proposer was new. */
    method Vote(b: Ballot) returns (isNew: bool)
      requires Valid()
      modifies this
      ensures Valid() && runningRounds == Voted(cfg, old(runningRounds), b)
      ensures var i := IndexOf(b.basis);
              isNew <==> i !in old(runningRounds) || b.proposer !in old(runningRounds)[i].voted
    {
      VotedWellIndexed(cfg, runningRounds, b);
      var i := IndexOf(b.basis);
      if i !in runningRounds {
        var proposer := cfg.ProposerOf(b.basis.height, b.basis.round);
        var round := RunningRound(b.basis, proposer, map[b.proposer := NO_VOTES.With(b)], [b]);
        assert round == RunningRound(b.basis, proposer, map[], []).Vote(b);
        runningRounds := runningRounds[i := round];
        isNew := true;
      } else {
        var round := runningRounds[i];
        isNew := b.proposer !in round.voted;
        if isNew {
          round := round.(voted := round.voted[b.proposer := NO_VOTES.With(b)]);
        } else {
          round := round.(voted := round.voted[b.proposer := round.voted[b.proposer].With(b)]);
        }
        runningRounds := runningRounds[i := round.(ballots := round.ballots + [b])];
      }
    }

    /** Whether the ballot's proposer is the one selected for its round, if that round is open. */
    method HasSameProposer(b: Ballot) returns (same: bool)
      requires Valid()
      ensures same <==> IndexOf(b.basis) in runningRounds && b.proposer == cfg.ProposerOf(b.basis.height, b.basis.round)
    {
      var i := IndexOf(b.basis);
      if i !in runningRounds {
        return false;
      }
      IndexIsInjective(b.basis.height, b.basis.round, runningRounds[i].basis.height, runningRounds[i].basis.round);
      same := runningRounds[i].proposer == b.proposer;
    }

    /** Counts the votes for the ballot's proposer and state. */
    method CanGetVotingResult(b: Ballot) returns (v: Verdict)
      ensures v == VotingResult(cfg, runningRounds, b)
    {
      var i := IndexOf(b.basis);
      if i !in runningRounds {
        return Verdict(NotYet, true);
      }
      if b.proposer !in runningRounds[i].voted {
        return OPEN;
      }
      var holes := HolesOf(runningRounds[i].voted[b.proposer].Of(b.state));
      var yes, no, expired := Tally(holes);
      v := Decide(cfg.threshold, |cfg.order|, yes, no, expired);
    }

    /** Deletes the votes of `stale` one by one; `needRenewal` says that the vote of `me` was among them. */
    method RemoveOldBallots(b: Ballot, stale: set<Address>, me: Address) returns (needRenewal: bool)
      requires Valid()
      modifies this
      ensures Valid() && runningRounds == Pruned(old(runningRounds), b, stale)
      ensures needRenewal <==> me in stale && VoteAt(old(runningRounds), VoteKey(b.Slot(), b.proposer, me)).Some?
    {
      var i := IndexOf(b.basis);
      if i !in runningRounds || b.proposer !in runningRounds[i].voted {
        return false;
      }
      var round := runningRounds[i];
      var all := round.voted[b.proposer].Of(b.state);
      var todo := all.Keys;
      var kept := all;
      needRenewal := false;
      while todo != {}
        invariant todo <= all.Keys
        invariant forall a :: a in kept <==> a in all && (a in todo || a !in stale)
        invariant forall a :: a in kept ==> kept[a] == all[a]
        invariant needRenewal <==> me in stale && me in all && me !in todo
        decreases |todo|
      {
        var a :| a in todo;
        todo := todo - {a};
        if a !in stale {
          continue;
        }
        kept := kept - {a};
        if a == me {
          needRenewal := true;
        }
      }
      assert kept == all - stale;
      var votes := round.voted[b.proposer];
      votes := match b.state
        case SIGN => votes.(sign := kept)
        case ACCEPT => votes.(accept := kept)
        case _ => votes;
      runningRounds := runningRounds[i := round.(voted := round.voted[b.proposer := votes])];
      assert votes == round.voted[b.proposer].Without(b.state, stale);
    }

    method RemoveRunningRoundsLowerOrEqualHeight(height: nat)
      requires Valid()
      modifies this
      ensures Valid() && runningRounds == DropLowerOrEqualHeight(old(runningRounds), height)
    {
      var kept := HigherRounds(runningRounds, height);
      SomeKept(cfg, runningRounds, kept);
      runningRounds := kept;
    }

    method RemoveRunningRoundsLowerOrEqualBasis(basis: Basis)
      requires Valid()
      modifies this
      ensures Valid() && runningRounds == DropLowerOrEqualBasis(old(runningRounds), basis)
    {
      var kept := LaterRounds(runningRounds, basis);
      SomeKept(cfg, runningRounds, kept);
      runningRounds := kept;
    }
  }

  /** The deletion loop of the removal by height. */
  method HigherRounds(before: Rounds, height: nat) returns (rounds: Rounds)
    ensures rounds == DropLowerOrEqualHeight(before, height)
  {
    rounds := before;
    var todo := before.Keys;
    while todo != {}
      invariant todo <= before.Keys
      invariant forall i :: i in rounds <==> i in before && (i in todo || before[i].basis.height > height)
      invariant forall i :: i in rounds ==> rounds[i] == before[i]
      decreases |todo|
    {
      var i :| i in todo;
      todo := todo - {i};
      if rounds[i].basis.height > height {
        continue;
      }
      rounds := rounds - {i};
    }
  }

  /** The deletion loop of the removal by basis. */
  method LaterRounds(before: Rounds, basis: Basis) returns (rounds: Rounds)
    ensures rounds == DropLowerOrEqualBasis(before, basis)
  {
    rounds := before;
    var todo := before.Keys;
    while todo != {}
      invariant todo <= before.Keys
      invariant forall i :: i in rounds <==> i in before && (i in todo || Later(before[i].basis, basis))
      invariant forall i :: i in rounds ==> rounds[i] == before[i]
      decreases |todo|
    {
      var i :| i in todo;
      todo := todo - {i};
      if rounds[i].basis.height > basis.height {
        continue;
      }
      if rounds[i].basis.height == basis.height && rounds[i].basis.round > basis.round {
        continue;
      }
      rounds := rounds - {i};
    }
  }

  /* ---- what changes and what does not ---- */

  /** A vote joins the ballots of its round, which keeps its basis and proposer; other rounds are untouched. */
  lemma VotedRound(cfg: Config, rounds: Rounds, b: Ballot)
    requires |cfg.order| >= 1
    ensures var i, after := IndexOf(b.basis), Voted(cfg, rounds, b);
            && after.Keys == rounds.Keys + {i}
            && (forall j :: j in rounds && j != i ==> after[j] == rounds[j])
            && after[i].ballots == (if i in rounds then rounds[i].ballots else []) + [b]
            && after[i].basis == (if i in rounds then rounds[i].basis else b.basis)
            && (i in rounds ==> after[i].proposer == rounds[i].proposer)
            && (forall p :: p != b.proposer && i in rounds ==> after[i].VotesFor(p) == rounds[i].VotesFor(p))
  {
  }

  /** Removal by basis: votes of later rounds stay, all others go. */
  lemma DropsExactly(rounds: Rounds, basis: Basis, k: VoteKey)
    requires WellIndexed(rounds)
    ensures VoteAt(DropLowerOrEqualBasis(rounds, basis), k)
            == if k.slot.height < basis.height || (k.slot.height == basis.height && k.slot.round <= basis.round)
               then None else VoteAt(rounds, k)
  {
    if Index(k.slot.height, k.slot.round) in rounds {
      BasisAt(rounds, k);
    }
  }

  lemma DropsExactlyHeight(rounds: Rounds, height: nat, k: VoteKey)
    requires WellIndexed(rounds)
    ensures VoteAt(DropLowerOrEqualHeight(rounds, height), k)
            == if k.slot.height <= height then None else VoteAt(rounds, k)
  {
    if Index(k.slot.height, k.slot.round) in rounds {
      BasisAt(rounds, k);
    }
  }
}
