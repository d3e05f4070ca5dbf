/** The scheduling of block heights to fetch. */
module Sync {

  datatype Progress = Progress(starting: nat, current: nat, highest: nat)

  /** The heights handed to the work pool, in order, and the highest block ever seen in storage. */
  datatype State = State(progress: Progress, handed: seq<nat>, stored: nat)

  /**
   What wakes the loop. `latest` is the height of the latest stored block at that moment and `room` the
   number of jobs the pool accepts before it refuses one.
   */
  datatype Event =
    | Tick(latest: nat, room: nat)
    | Notification(latest: nat, room: nat)
    | Target(height: nat, latest: nat, room: nat)

  function StartHeight(p: Progress, latest: nat): nat { if latest > p.current then latest + 1 else p.current + 1 }

  /** How many heights one call of `sync` hands over. */
  function Count(p: Progress, latest: nat, room: nat): nat {
    var start := StartHeight(p, latest);
    if start > p.highest then 0
    else if room < p.highest - start + 1 then room else p.highest - start + 1
  }

  function Heights(start: nat, count: nat): seq<nat> { seq(count, i => start + i) }

  function Synced(p: Progress, latest: nat, room: nat): Progress {
    var start := StartHeight(p, latest);
    var count := Count(p, latest, room);
    if start > p.highest then p.(starting := latest + 1)
    else Progress(start, if count == 0 then p.current else start + count - 1, p.highest)
  }

  function SyncStep(s: State, latest: nat, room: nat): State {
    State(Synced(s.progress, latest, room),
          s.handed + Heights(StartHeight(s.progress, latest), Count(s.progress, latest, room)),
          if latest > s.stored then latest else s.stored)
  }

  function Step(s: State, e: Event): State {
    match e
    case Tick(latest, room) => SyncStep(s, latest, room)
    case Notification(latest, room) => SyncStep(s, latest, room)
    case Target(height, latest, room) =>
      if height > s.progress.current then SyncStep(s.(progress := s.progress.(highest := height)), latest, room) else s
  }

  function Run(s: State, events: seq<Event>): State {
    if events == [] then s else Step(Run(s, events[..|events| - 1]), events[|events| - 1])
  }

  function Initial(latest: nat): State { State(Progress(latest, latest, latest), [], latest) }

  /* ---- what every run keeps ---- */

  ghost predicate Inv(s: State) {
    && s.progress.current <= s.progress.highest
    && (forall i, j :: 0 <= i < j < |s.handed| ==> s.handed[i] < s.handed[j])
    && (forall i :: 0 <= i < |s.handed| ==> s.handed[i] <= s.progress.current)
    && (forall h :: 0 <= h <= s.progress.current ==> h in s.handed || h <= s.stored)
  }

  lemma SyncKeeps(s: State, latest: nat, room: nat)
    requires Inv(s)
    ensures Inv(SyncStep(s, latest, room)) && SyncStep(s, latest, room).progress.current >= s.progress.current
  {
    var t := SyncStep(s, latest, room);
    var start, count := StartHeight(s.progress, latest), Count(s.progress, latest, room);
    forall h | 0 <= h <= t.progress.current ensures h in t.handed || h <= t.stored {
      if h > s.progress.current && h >= start {
        assert t.handed[|s.handed| + h - start] == h;
      }
    }
  }

  lemma StepKeeps(s: State, e: Event)
    requires Inv(s)
    ensures Inv(Step(s, e)) && Step(s, e).progress.current >= s.progress.current
  {
    match e {
      case Tick(latest, room) => SyncKeeps(s, latest, room);
      case Notification(latest, room) => SyncKeeps(s, latest, room);
      case Target(height, latest, room) =>
        if height > s.progress.current {
          SyncKeeps(s.(progress := s.progress.(highest := height)), latest, room);
        }
    }
  }

  /**
   Over any interleaving of ticks, notifications, targets and refusals: the current height never passes
   the highest one, the handed heights increase strictly, so none is handed twice, and every height up
   to the current one was handed over or already stored.
   */
  lemma {:induction false} SchedulingIsSafe(latest: nat, events: seq<Event>)
    ensures Inv(Run(Initial(latest), events))
    decreases |events|
  {
    if events != [] {
      SchedulingIsSafe(latest, events[..|events| - 1]);
      StepKeeps(Run(Initial(latest), events[..|events| - 1]), events[|events| - 1]);
    }
  }

  /** The current height never decreases from any point of a run to a later one. */
  lemma {:induction false} CurrentNeverDecreases(latest: nat, events: seq<Event>, k: nat)
    requires k <= |events|
    ensures Run(Initial(latest), events[..k]).progress.current <= Run(Initial(latest), events).progress.current
    decreases |events| - k
  {
    if k == |events| {
      assert events[..k] == events;
    } else {
      SchedulingIsSafe(latest, events[..k]);
      StepKeeps(Run(Initial(latest), events[..k]), events[k]);
      assert events[..k + 1][..k] == events[..k];
      CurrentNeverDecreases(latest, events, k + 1);
    }
  }

  /** A pool with enough room takes over everything up to the target in one call. */
  lemma RoomMeansDone(s: State, latest: nat, room: nat)
    requires Inv(s) && room >= s.progress.highest
    ensures var t := SyncStep(s, latest, room);
            forall h :: 0 <= h <= t.progress.highest ==> h in t.handed || h <= t.stored
  {
    SyncKeeps(s, latest, room);
  }

  /* ---- the loop as the program runs it ---- */

  class Syncer {
    var progress: Progress
    /** Jobs the pool still accepts. */
    var room: nat
    ghost var handed: seq<nat>

    constructor (latest: nat)
      ensures progress == Progress(latest, latest, latest) && handed == []
    {
      progress := Progress(latest, latest, latest);
      room, handed := 0, [];
    }

    /** `TryAdd`: hands over a height unless the pool is full. */
    method Work(height: nat) returns (ok: bool)
      modifies `room, `handed
      ensures ok <==> old(room) > 0
      ensures ok ==> room == old(room) - 1 && handed == old(handed) + [height]
      ensures !ok ==> room == old(room) && handed == old(handed)
    {
      ok := room > 0;
      if ok {
        room := room - 1;
        handed := handed + [height];
      }
    }

    method SyncOnce(latest: nat)
      modifies this
      ensures progress == Synced(old(progress), latest, old(room))
      ensures var p := old(progress);
              handed == old(handed) + Heights(StartHeight(p, latest), Count(p, latest, old(room)))
    {
      var start := progress.current + 1;
      var current := progress.current;
      var highest := progress.highest;
      if latest > current {
        start := latest + 1;
      }
      if start > highest {
        progress := progress.(starting := latest + 1);
        return;
      }
      var height := start;
      while height <= highest
        invariant start <= height <= highest + 1 && progress == old(progress)
        invariant room + (height - start) == old(room)
        invariant current == if height == start then old(progress).current else height - 1
        invariant handed == old(handed) + Heights(start, height - start)
        decreases highest - height
      {
        var ok := Work(height);
        if !ok {
          break;
        }
        current := height;
        height := height + 1;
      }
      progress := Progress(start, current, highest);
    }

    /** A new target: kept only above the current height. */
    method SetTarget(height: nat, latest: nat)
      modifies this
      ensures var s := Step(State(old(progress), old(handed), 0), Target(height, latest, old(room)));
              progress == s.progress && handed == s.handed
    {
      if height > progress.current {
        progress := progress.(highest := height);
        SyncOnce(latest);
      }
    }
  }

  /** A target above the current height becomes the highest one, even a lower one than the last; others are ignored. */
  lemma TargetSets(s: State, height: nat, latest: nat, room: nat)
    ensures var t := Step(s, Target(height, latest, room));
            if height > s.progress.current then t.progress.highest == height else t == s
  {
  }

  /**
   One call hands over consecutive heights, from the first one that is neither handed nor stored up to the
   highest one, as many as the pool takes, and moves the current height to the last of them.
   */
  lemma HandsOverExactly(s: State, latest: nat, room: nat)
    ensures var t := SyncStep(s, latest, room);
            var start := if latest > s.progress.current then latest + 1 else s.progress.current + 1;
            var wanted := if start > s.progress.highest then 0 else s.progress.highest - start + 1;
            var count := if room < wanted then room else wanted;
            && |t.handed| == |s.handed| + count && s.handed <= t.handed
            && (forall k :: |s.handed| <= k < |t.handed| ==> t.handed[k] == start + k - |s.handed|)
            && t.progress.current == (if count == 0 then s.progress.current else start + count - 1)
            && t.progress.highest == s.progress.highest
            && t.progress.starting == (if wanted == 0 then latest + 1 else start)
  {
  }
}
