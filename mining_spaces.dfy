/** The five ad-unlocked mining spaces. Each space has an id, an unlocked
    flag, a countdown in seconds and an active flag; one one-second interval
    per unlocked space with time left counts it down. */
module MiningSpaces {
  import opened JsArray

  const SPACE_COUNT: int := 5

  datatype Space = Space(id: int, unlocked: bool, timeRemaining: int, active: bool)

  /** The initial list: ids 1..5, only the first unlocked, nothing active, no time on any clock. */
  function InitialSpaces(): (r: seq<Space>)
    ensures |r| == SPACE_COUNT
    ensures forall i :: 0 <= i < |r| ==> r[i].id == i + 1 && !r[i].active && r[i].timeRemaining == 0
    ensures forall i :: 0 <= i < |r| ==> (r[i].unlocked <==> i == 0)
  {
    [Space(1, true, 0, false), Space(2, false, 0, false), Space(3, false, 0, false),
     Space(4, false, 0, false), Space(5, false, 0, false)]
  }

  /** The well-formed lists: five spaces numbered 1..5 in order, an active
      space is always unlocked, and no countdown is negative. */
  predicate WellFormed(spaces: seq<Space>)
  {
    |spaces| == SPACE_COUNT
    && (forall i :: 0 <= i < |spaces| ==> spaces[i].id == i + 1)
    && (forall i :: 0 <= i < |spaces| ==> spaces[i].active ==> spaces[i].unlocked)
    && (forall i :: 0 <= i < |spaces| ==> spaces[i].timeRemaining >= 0)
  }

  /** `spaces.map(s => s.id === id ? f(s) : s)`. */
  function MapById(spaces: seq<Space>, id: int, f: Space -> Space): (r: seq<Space>)
    ensures |r| == |spaces|
    ensures forall i :: 0 <= i < |r| ==> r[i] == if spaces[i].id == id then f(spaces[i]) else spaces[i]
  {
    seq(|spaces|, i requires 0 <= i < |spaces| => if spaces[i].id == id then f(spaces[i]) else spaces[i])
  }

  /** The change watching an ad makes to its space. */
  function Unlock(s: Space, hours: nat): Space
  {
    s.(unlocked := true, timeRemaining := hours * 60 * 60)
  }

  /** One second of a space's interval: count down while time is left, lock
      and deactivate once it has run out. */
  function TickSpace(s: Space): (r: Space)
    ensures r.id == s.id
    ensures s.timeRemaining > 0 ==> r == s.(timeRemaining := s.timeRemaining - 1)
    ensures s.timeRemaining <= 0 ==> !r.unlocked && !r.active && r.timeRemaining == s.timeRemaining
  {
    if s.timeRemaining > 0 then s.(timeRemaining := s.timeRemaining - 1)
    else s.(unlocked := false, active := false)
  }

  /** `n` consecutive firings of one space's interval. */
  function TickTimes(s: Space, n: nat): Space
  {
    if n == 0 then s else TickSpace(TickTimes(s, n - 1))
  }

  /** An unlock for `t` seconds keeps the space unlocked (and its active
      flag) through `t` firings, counting down to zero, and the next firing locks it. */
  lemma {:induction false} CountdownRunsOut(s: Space, n: nat)
    requires s.timeRemaining >= 0 && n <= s.timeRemaining
    ensures TickTimes(s, n) == s.(timeRemaining := s.timeRemaining - n)
    ensures n == s.timeRemaining ==>
      var after := TickTimes(s, n + 1); !after.unlocked && !after.active && after.timeRemaining == 0
  {
    if n > 0 {
      CountdownRunsOut(s, n - 1);
    }
  }

  /** A space that gets its own countdown interval. */
  predicate Counting(s: Space)
  {
    s.unlocked && s.timeRemaining > 0
  }

  /** The spaces the timer effect registers an interval for, in list order. */
  function TimedIds(spaces: seq<Space>): (r: seq<int>)
    ensures |r| <= |spaces|
  {
    var counting := Filter(spaces, s => Counting(s));
    seq(|counting|, i requires 0 <= i < |counting| => counting[i].id)
  }

  /** An id has an interval exactly when some space with that id is unlocked with time left. */
  lemma TimedIdsExact(spaces: seq<Space>, id: int)
    ensures id in TimedIds(spaces) <==> exists i :: 0 <= i < |spaces| && spaces[i].id == id && Counting(spaces[i])
  {
    var p := (s: Space) => Counting(s);
    var counting := Filter(spaces, p);
    if id in TimedIds(spaces) {
      var j :| 0 <= j < |counting| && counting[j].id == id;
      FilterMembers(spaces, p, counting[j]);
      var i :| 0 <= i < |spaces| && spaces[i] == counting[j];
      assert spaces[i].id == id && Counting(spaces[i]);
    }
    if exists i :: 0 <= i < |spaces| && spaces[i].id == id && Counting(spaces[i]) {
      var i :| 0 <= i < |spaces| && spaces[i].id == id && Counting(spaces[i]);
      FilterMembers(spaces, p, spaces[i]);
      var j :| 0 <= j < |counting| && counting[j] == spaces[i];
      assert TimedIds(spaces)[j] == id;
    }
  }

  /** In a well-formed list the ids of the registered intervals are strictly
      increasing, so no space gets two intervals. */
  lemma TimedIdsDistinct(spaces: seq<Space>)
    requires WellFormed(spaces)
    ensures forall k, l :: 0 <= k < l < |TimedIds(spaces)| ==> TimedIds(spaces)[k] < TimedIds(spaces)[l]
  {
    var p := (s: Space) => Counting(s);
    var idx := FilterPositions(spaces, p);
    assert forall k :: 0 <= k < |idx| ==> TimedIds(spaces)[k] == idx[k] + 1;
  }

  /** `spaces.find(s => s.id === id)?.unlocked`, `false` when no space has
      that id: the answer is the flag of the first space with that id. */
  function UnlockedById(spaces: seq<Space>, id: int): (r: bool)
    ensures r <==> exists i :: 0 <= i < |spaces| && spaces[i].id == id && spaces[i].unlocked
                              && forall k :: 0 <= k < i ==> spaces[k].id != id
  {
    match FindIndex(spaces, (s: Space) => s.id == id)
    case None => false
    case Some(i) => spaces[i].unlocked
  }

  /** In a well-formed list the lookup reads the flag of space `id`, and misses every id outside 1..5. */
  lemma UnlockedByIdWellFormed(spaces: seq<Space>, id: int)
    requires WellFormed(spaces)
    ensures 1 <= id <= SPACE_COUNT ==> UnlockedById(spaces, id) == spaces[id - 1].unlocked
    ensures !(1 <= id <= SPACE_COUNT) ==> !UnlockedById(spaces, id)
  {
    if 1 <= id <= SPACE_COUNT {
      FindIndexIsFirst(spaces, (s: Space) => s.id == id, id - 1);
    }
  }

  /** The dependency the timer effect is keyed on: the unlocked flag of every space, in order. */
  function UnlockedFlags(spaces: seq<Space>): (r: seq<bool>)
    ensures |r| == |spaces|
    ensures forall i :: 0 <= i < |r| ==> r[i] == spaces[i].unlocked
  {
    seq(|spaces|, i requires 0 <= i < |spaces| => spaces[i].unlocked)
  }

  /** The intervals after a render with the effect as written: it reruns only
      when some unlocked flag differs from the ones it last ran with. */
  function TimersAfterRenderAsWritten(key: seq<bool>, timers: seq<int>, spaces: seq<Space>): seq<int>
  {
    if UnlockedFlags(spaces) != key then TimedIds(spaces) else timers
  }

  /** As written, space 1, which starts unlocked with no time left, gets a
      countdown from "Watch Ad Again" but no interval: its unlocked flag was
      already true, so the effect does not rerun and the countdown never moves.
      The mount run of the effect registers nothing, so the intervals are empty. */
  lemma WatchAdAgainNeverCounts(hours: nat)
    requires hours > 0
    ensures TimedIds(InitialSpaces()) == []
    ensures var after := MapById(InitialSpaces(), 1, s => Unlock(s, hours));
      after[0].id == 1 && Counting(after[0])
      && TimersAfterRenderAsWritten(UnlockedFlags(InitialSpaces()), [], after) == []
  {
    var init := InitialSpaces();
    var after := MapById(init, 1, s => Unlock(s, hours));
    FilterNone(init, s => Counting(s));
    assert Counting(after[0]);
    assert UnlockedFlags(after) == UnlockedFlags(init);
  }

  /** The rule the effect evidently intends: it also reruns when an unlocked
      space with time left has no interval. */
  predicate EffectRuns(key: seq<bool>, timers: seq<int>, spaces: seq<Space>)
  {
    UnlockedFlags(spaces) != key
    || exists i :: 0 <= i < |spaces| && Counting(spaces[i]) && spaces[i].id !in timers
  }

  /** The intervals after a render under the intended rule. */
  function TimersAfterRender(key: seq<bool>, timers: seq<int>, spaces: seq<Space>): seq<int>
  {
    if EffectRuns(key, timers, spaces) then TimedIds(spaces) else timers
  }

  /** Under the intended rule every unlocked space with time left has an
      interval after a render, and whenever the effect as written reruns the
      two rules register the same intervals. */
  lemma RenderCoversCounting(key: seq<bool>, timers: seq<int>, spaces: seq<Space>)
    ensures forall i :: 0 <= i < |spaces| && Counting(spaces[i]) ==>
      spaces[i].id in TimersAfterRender(key, timers, spaces)
    ensures UnlockedFlags(spaces) != key ==>
      TimersAfterRender(key, timers, spaces) == TimersAfterRenderAsWritten(key, timers, spaces)
  {
    if EffectRuns(key, timers, spaces) {
      forall i | 0 <= i < |spaces| && Counting(spaces[i])
        ensures spaces[i].id in TimersAfterRender(key, timers, spaces)
      {
        TimedIdsExact(spaces, spaces[i].id);
      }
    }
  }

  /** The panel's state: the list of spaces, the ids of the spaces whose
      interval the last run of the timer effect registered, and the unlocked
      flags that run was keyed on. */
  class Panel {
    /** `SPACE_AD_DURATION`, in hours. */
    const adDurationHours: nat
    var spaces: seq<Space>
    var timers: seq<int>
    var effectKey: seq<bool>

    ghost predicate Valid()
      reads this
    {
      WellFormed(spaces)
    }

    /** The initial list, with the mount run of the timer effect done: it
        registers no interval, since no space has time left. */
    constructor (adDurationHours: nat)
      ensures Valid() && this.adDurationHours == adDurationHours
      ensures spaces == InitialSpaces() && timers == TimedIds(spaces) && timers == []
      ensures effectKey == UnlockedFlags(spaces)
    {
      this.adDurationHours := adDurationHours;
      spaces := InitialSpaces();
      timers := [];
      effectKey := UnlockedFlags(InitialSpaces());
      FilterNone(InitialSpaces(), s => Counting(s));
    }

    /** `handleWatchAd`: the space with that id is unlocked with a fresh
        countdown of the ad duration; its active flag and every other space are unchanged. */
    method HandleWatchAd(id: int)
      requires Valid()
      modifies this`spaces
      ensures Valid()
      ensures forall i :: 0 <= i < |spaces| ==>
        spaces[i] == if old(spaces)[i].id == id then old(spaces)[i].(unlocked := true, timeRemaining := adDurationHours * 3600)
                     else old(spaces)[i]
    {
      spaces := MapById(spaces, id, s => Unlock(s, adDurationHours));
    }

    /** `startSpaceMining`: nothing happens unless the space is unlocked;
        otherwise only its active flag is set. */
    method StartSpaceMining(id: int)
      requires Valid()
      modifies this`spaces
      ensures Valid()
      ensures !UnlockedById(old(spaces), id) ==> spaces == old(spaces)
      ensures UnlockedById(old(spaces), id) ==> forall i :: 0 <= i < |spaces| ==>
        spaces[i] == if old(spaces)[i].id == id then old(spaces)[i].(active := true) else old(spaces)[i]
    {
      UnlockedByIdWellFormed(spaces, id);
      if !UnlockedById(spaces, id) {
        return;
      }
      spaces := MapById(spaces, id, (s: Space) => s.(active := true));
    }

    /** `stopSpaceMining`: only the active flag of that space is cleared. */
    method StopSpaceMining(id: int)
      requires Valid()
      modifies this`spaces
      ensures Valid()
      ensures forall i :: 0 <= i < |spaces| ==>
        spaces[i] == if old(spaces)[i].id == id then old(spaces)[i].(active := false) else old(spaces)[i]
    {
      spaces := MapById(spaces, id, (s: Space) => s.(active := false));
    }

    /** One firing of the interval of space `id`: that space counts down a
        second, or is locked and deactivated when its time is up; the others are untouched. */
    method Tick(id: int)
      requires Valid()
      modifies this`spaces
      ensures Valid()
      ensures forall i :: 0 <= i < |spaces| ==>
        spaces[i] == if old(spaces)[i].id == id then TickSpace(old(spaces)[i]) else old(spaces)[i]
    {
      spaces := MapById(spaces, id, TickSpace);
    }

    /** The timer effect: the old intervals are dropped and one is registered
        for every unlocked space with time left. */
    method RebuildTimers()
      requires Valid()
      modifies this`timers
      ensures Valid()
      ensures timers == TimedIds(spaces)
      ensures forall id :: id in timers <==>
        exists i :: 0 <= i < |spaces| && spaces[i].id == id && spaces[i].unlocked && spaces[i].timeRemaining > 0
    {
      timers := TimedIds(spaces);
      forall id
        ensures id in timers <==>
          exists i :: 0 <= i < |spaces| && spaces[i].id == id && spaces[i].unlocked && spaces[i].timeRemaining > 0
      {
        TimedIdsExact(spaces, id);
      }
    }

    /** A render after any change: the timer effect reruns under the intended
        rule, so afterwards every unlocked space with time left has an interval. */
    method Render()
      requires Valid()
      modifies this`timers, this`effectKey
      ensures Valid()
      ensures timers == TimersAfterRender(old(effectKey), old(timers), spaces)
      ensures effectKey == UnlockedFlags(spaces)
      ensures forall i :: 0 <= i < |spaces| && Counting(spaces[i]) ==> spaces[i].id in timers
    {
      RenderCoversCounting(effectKey, timers, spaces);
      if EffectRuns(effectKey, timers, spaces) {
        RebuildTimers();
      }
      effectKey := UnlockedFlags(spaces);
    }
  }
}
