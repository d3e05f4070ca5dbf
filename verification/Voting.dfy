/**
 The vote values of ISAAC, the tally of one node's view of one round, and what any two
 views of the same round can and cannot decide.
 */
module Voting {

  type Address = string

  datatype Hole = NotYet | Yes | No | Exp

  datatype BallotState = NONE | INIT | SIGN | ACCEPT | ALLCONFIRM {
    function Rank(): nat {
      match this
      case NONE => 0
      case INIT => 1
      case SIGN => 2
      case ACCEPT => 3
      case ALLCONFIRM => 4
    }

    predicate IsValidForVote() {
      SIGN? || ACCEPT?
    }
  }

  /** The verdict on a tally: `finished` is false exactly when the vote is still open. */
  datatype Verdict = Verdict(hole: Hole, finished: bool)

  const OPEN := Verdict(NotYet, false)

  predicate CannotBeOver(remain: int, threshold: int, yes: int, no: int) {
    remain + yes < threshold && remain + no < threshold
  }

  /** The verdict of `CanGetVotingResult` once the three counters are known. */
  function Decide(threshold: int, validators: int, yes: nat, no: nat, exp: nat): Verdict {
    if threshold < 1 then OPEN
    else if yes >= threshold then Verdict(Yes, true)
    else if no >= threshold then Verdict(No, true)
    else if CannotBeOver(validators - (yes + no + exp), threshold, yes, no) then Verdict(Exp, true)
    else OPEN
  }

  /** The voters of `hole` in a view. */
  function Voters(view: map<Address, Hole>, hole: Hole): set<Address> {
    set a | a in view && view[a] == hole
  }

  function DecideView(threshold: int, validators: int, view: map<Address, Hole>): Verdict {
    Decide(threshold, validators, |Voters(view, Yes)|, |Voters(view, No)|, |Voters(view, Exp)|)
  }

  /** `view` is part of the assignment `all`. */
  predicate PartOf(view: map<Address, Hole>, all: map<Address, Hole>) {
    forall a :: a in view ==> a in all && all[a] == view[a]
  }

  /* ---- counting ---- */

  lemma SubsetCount<T>(small: set<T>, big: set<T>)
    requires small <= big
    ensures |small| <= |big|
  {
    assert big == small + (big - small);
  }

  lemma DisjointCount<T>(a: set<T>, b: set<T>, all: set<T>)
    requires a !! b && a + b <= all
    ensures |a| + |b| <= |all|
  {
    assert |a + b| == |a| + |b|;
    SubsetCount(a + b, all);
  }

  lemma KeysCount(view: map<Address, Hole>)
    ensures |Voters(view, Yes)| + |Voters(view, No)| + |Voters(view, Exp)| <= |view|
  {
    var y, n, e := Voters(view, Yes), Voters(view, No), Voters(view, Exp);
    assert |y + n| == |y| + |n|;
    DisjointCount(y + n, e, view.Keys);
  }

  /** A larger view gains at most as many votes of a kind as it gains votes of the three kinds. */
  lemma Growth(view: map<Address, Hole>, all: map<Address, Hole>, hole: Hole)
    requires PartOf(view, all) && hole in {Yes, No, Exp}
    ensures |Voters(view, hole)| <= |Voters(all, hole)|
    ensures |Voters(all, hole)| - |Voters(view, hole)|
            <= |Voters(all, Yes)| + |Voters(all, No)| + |Voters(all, Exp)|
               - |Voters(view, Yes)| - |Voters(view, No)| - |Voters(view, Exp)|
  {
    SubsetCount(Voters(view, Yes), Voters(all, Yes));
    SubsetCount(Voters(view, No), Voters(all, No));
    SubsetCount(Voters(view, Exp), Voters(all, Exp));
  }

  /* ---- partial views ---- */

  /** A decided verdict is never changed by further votes of the same assignment. */
  lemma DecidedIsFinal(threshold: int, validators: nat, view: map<Address, Hole>, all: map<Address, Hole>)
    requires 2 * threshold > validators && |all| <= validators
    requires PartOf(view, all)
    requires DecideView(threshold, validators, view).finished
    ensures DecideView(threshold, validators, all) == DecideView(threshold, validators, view)
  {
    Growth(view, all, Yes);
    Growth(view, all, No);
    KeysCount(all);
  }

  /** Two nodes that each decided on part of one assignment decided alike. */
  lemma PartialViewsAgree(threshold: int, validators: nat,
                          v1: map<Address, Hole>, v2: map<Address, Hole>, all: map<Address, Hole>)
    requires 2 * threshold > validators && |all| <= validators
    requires PartOf(v1, all) && PartOf(v2, all)
    requires DecideView(threshold, validators, v1).finished
    requires DecideView(threshold, validators, v2).finished
    ensures DecideView(threshold, validators, v1) == DecideView(threshold, validators, v2)
  {
    DecidedIsFinal(threshold, validators, v1, all);
    DecidedIsFinal(threshold, validators, v2, all);
  }

  /** Once every validator voted YES, NO or EXP the vote cannot stay open. */
  lemma FullViewIsDecided(threshold: int, validators: nat, view: map<Address, Hole>)
    requires threshold >= 1 && |view| == validators
    requires forall a :: a in view ==> view[a] != NotYet
    ensures DecideView(threshold, validators, view).finished
  {
    FullCount(view);
  }

  lemma FullCount(view: map<Address, Hole>)
    requires forall a :: a in view ==> view[a] != NotYet
    ensures |Voters(view, Yes)| + |Voters(view, No)| + |Voters(view, Exp)| == |view|
  {
    var y, n, e := Voters(view, Yes), Voters(view, No), Voters(view, Exp);
    forall a | a in view ensures a in (y + n) + e {
      match view[a] {
        case Yes =>
        case No =>
        case Exp =>
      }
    }
    assert view.Keys == (y + n) + e;
    assert |y + n| == |y| + |n|;
    assert |(y + n) + e| == |y + n| + |e|;
  }

  lemma PickSubset<T>(s: set<T>, k: nat) returns (r: set<T>)
    requires k <= |s|
    ensures r <= s && |r| == k
  {
    r := {};
    while |r| < k
      invariant r <= s && |r| <= k
    {
      assert !(s <= r) by {
        if s <= r {
          SubsetCount(s, r);
        }
      }
      var x :| x in s && x !in r;
      r := r + {x};
    }
  }

  /** Without 2T > V agreement of partial views fails: T YES votes and T NO votes fit side by side. */
  lemma MajorityIsNecessary(threshold: nat, voters: set<Address>)
      returns (v1: map<Address, Hole>, v2: map<Address, Hole>, all: map<Address, Hole>)
    requires 1 <= threshold && 2 * threshold <= |voters|
    ensures all.Keys <= voters && PartOf(v1, all) && PartOf(v2, all)
    ensures DecideView(threshold, |voters|, v1) == Verdict(Yes, true)
    ensures DecideView(threshold, |voters|, v2) == Verdict(No, true)
  {
    var a := PickSubset(voters, threshold);
    assert |voters - a| == |voters| - |a|;
    var b := PickSubset(voters - a, threshold);
    v1 := map x | x in a :: Yes;
    v2 := map x | x in b :: No;
    all := v1 + v2;
    assert Voters(v1, Yes) == a;
    assert Voters(v2, Yes) == {};
    assert Voters(v2, No) == b;
  }

  /** Both views are part of one assignment to `voters` and both are decided. */
  predicate BothDecided(threshold: nat, voters: set<Address>,
                        v1: map<Address, Hole>, v2: map<Address, Hole>, all: map<Address, Hole>)
  {
    && all.Keys <= voters && PartOf(v1, all) && PartOf(v2, all)
    && DecideView(threshold, |voters|, v1).finished
    && DecideView(threshold, |voters|, v2).finished
  }

  /** Consistency of all partial views over V validators holds exactly when 2T > V. */
  lemma ConsistencyNeedsMajority(threshold: nat, voters: set<Address>)
    requires 1 <= threshold
    ensures 2 * threshold > |voters| <==>
            forall v1, v2, all | BothDecided(threshold, voters, v1, v2, all) ::
              DecideView(threshold, |voters|, v1) == DecideView(threshold, |voters|, v2)
  {
    if 2 * threshold > |voters| {
      forall v1, v2, all | BothDecided(threshold, voters, v1, v2, all)
        ensures DecideView(threshold, |voters|, v1) == DecideView(threshold, |voters|, v2)
      {
        SubsetCount(all.Keys, voters);
        PartialViewsAgree(threshold, |voters|, v1, v2, all);
      }
    } else {
      var v1, v2, all := MajorityIsNecessary(threshold, voters);
      assert BothDecided(threshold, voters, v1, v2, all);
    }
  }

  /* ---- exactly when a view decides ---- */

  /** `all` is a way in which the whole vote may still end: every validator voted, as recorded where recorded. */
  predicate Completes(view: map<Address, Hole>, voters: set<Address>, all: map<Address, Hole>) {
    && all.Keys == voters
    && (forall a :: a in view && view[a] != NotYet ==> a in all && all[a] == view[a])
  }

  /** Some end of the vote has a majority of YES or of NO. */
  ghost predicate MajorityIsPossible(threshold: nat, voters: set<Address>, view: map<Address, Hole>) {
    exists all :: Completes(view, voters, all) && HasMajority(threshold, all)
  }

  predicate HasMajority(threshold: nat, all: map<Address, Hole>) {
    |Voters(all, Yes)| >= threshold || |Voters(all, No)| >= threshold
  }

  /** The end of the vote in which everybody who has not voted yet votes `hole`. */
  function Completion(view: map<Address, Hole>, voters: set<Address>, hole: Hole): map<Address, Hole> {
    map a | a in voters :: if a in view && view[a] != NotYet then view[a] else hole
  }

  lemma CompletionCount(view: map<Address, Hole>, voters: set<Address>, hole: Hole, other: Hole)
    requires view.Keys <= voters && hole in {Yes, No} && other in {Yes, No} && other != hole
    ensures Completes(view, voters, Completion(view, voters, hole))
    ensures |Voters(Completion(view, voters, hole), hole)|
            == |voters| - |Voters(view, other)| - |Voters(view, Exp)|
  {
    CompletionVoters(view, voters, hole, other);
    WithoutCount(Voters(view, other), Voters(view, Exp), voters);
  }

  lemma WithoutCount<T>(a: set<T>, b: set<T>, all: set<T>)
    requires a !! b && a + b <= all
    ensures |all - (a + b)| == |all| - |a| - |b|
  {
    assert |a + b| == |a| + |b|;
    assert all == (all - (a + b)) + (a + b);
  }

  lemma CompletionVoters(view: map<Address, Hole>, voters: set<Address>, hole: Hole, other: Hole)
    requires view.Keys <= voters && hole in {Yes, No} && other in {Yes, No} && other != hole
    ensures Voters(Completion(view, voters, hole), hole) == voters - (Voters(view, other) + Voters(view, Exp))
  {
    forall a ensures a in Voters(Completion(view, voters, hole), hole)
                     <==> a in voters && a !in Voters(view, other) && a !in Voters(view, Exp) {
      if a in view {
        match view[a] {
          case NotYet =>
          case Yes =>
          case No =>
          case Exp =>
        }
      }
    }
  }

  lemma CompletedCount(view: map<Address, Hole>, voters: set<Address>, all: map<Address, Hole>, hole: Hole, other: Hole)
    requires Completes(view, voters, all) && hole in {Yes, No} && other in {Yes, No} && other != hole
    ensures |Voters(all, hole)| <= |voters| - |Voters(view, other)| - |Voters(view, Exp)|
  {
    var gone := Voters(view, other) + Voters(view, Exp);
    assert |gone| == |Voters(view, other)| + |Voters(view, Exp)|;
    DisjointCount(Voters(all, hole), gone, voters);
  }

  lemma MajorityIsPossibleIff(threshold: nat, voters: set<Address>, view: map<Address, Hole>)
    requires view.Keys <= voters
    ensures MajorityIsPossible(threshold, voters, view)
            <==> || |voters| - |Voters(view, No)| - |Voters(view, Exp)| >= threshold
                 || |voters| - |Voters(view, Yes)| - |Voters(view, Exp)| >= threshold
  {
    CompletionCount(view, voters, Yes, No);
    CompletionCount(view, voters, No, Yes);
    if MajorityIsPossible(threshold, voters, view) {
      var all :| Completes(view, voters, all) && HasMajority(threshold, all);
      CompletedCount(view, voters, all, Yes, No);
      CompletedCount(view, voters, all, No, Yes);
    } else {
      assert !HasMajority(threshold, Completion(view, voters, Yes));
      assert !HasMajority(threshold, Completion(view, voters, No));
    }
  }

  /**
   What the verdict on a partial view means: YES or NO as soon as that many voted so, a draw as soon as no
   end of the vote can have a majority, and open in all other cases.
   */
  lemma VerdictIff(threshold: nat, voters: set<Address>, view: map<Address, Hole>)
    requires threshold >= 1 && view.Keys <= voters
    ensures var v := DecideView(threshold, |voters|, view);
            var yes, no := |Voters(view, Yes)| >= threshold, |Voters(view, No)| >= threshold;
            && (v == Verdict(Yes, true) <==> yes)
            && (v == Verdict(No, true) <==> no && !yes)
            && (v == Verdict(Exp, true) <==> !yes && !no && !MajorityIsPossible(threshold, voters, view))
            && (v == OPEN <==> !yes && !no && MajorityIsPossible(threshold, voters, view))
  {
    MajorityIsPossibleIff(threshold, voters, view);
  }

  /* ---- the counting loop ---- */

  /** The counting loop of `CanGetVotingResult`. */
  method Tally(result: map<Address, Hole>) returns (yes: nat, no: nat, expired: nat)
    ensures yes == |Voters(result, Yes)|
    ensures no == |Voters(result, No)|
    ensures expired == |Voters(result, Exp)|
  {
    yes, no, expired := 0, 0, 0;
    var todo := result.Keys;
    while todo != {}
      invariant todo <= result.Keys
      invariant yes == Counted(result, todo, Yes)
      invariant no == Counted(result, todo, No)
      invariant expired == Counted(result, todo, Exp)
      decreases |todo|
    {
      var a :| a in todo;
      CountOne(result, todo, a, Yes);
      CountOne(result, todo, a, No);
      CountOne(result, todo, a, Exp);
      match result[a] {
        case Yes => yes := yes + 1;
        case No => no := no + 1;
        case Exp => expired := expired + 1;
        case NotYet =>
      }
      todo := todo - {a};
    }
  }

  /** How many votes for `hole` lie outside `todo`. */
  ghost function Counted(result: map<Address, Hole>, todo: set<Address>, hole: Hole): nat {
    |Voters(result, hole) - todo|
  }

  lemma CountOne(result: map<Address, Hole>, todo: set<Address>, a: Address, hole: Hole)
    requires a in result && a in todo
    ensures Counted(result, todo - {a}, hole)
            == Counted(result, todo, hole) + (if result[a] == hole then 1 else 0)
  {
    var before, after := Voters(result, hole) - todo, Voters(result, hole) - (todo - {a});
    assert after == if result[a] == hole then before + {a} else before;
  }
}
