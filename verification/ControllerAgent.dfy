/** The controller as it runs: its maps and counter are changed in place, entry by entry. */
module ControllerAgent {
  import opened Basics
  import opened Controller

  lemma AckKeepsDisjoint(swaps: map<Key, Swap>, swaps': map<Key, Swap>)
    requires Disjoint(swaps) && swaps'.Keys <= swaps.Keys
    ensures Disjoint(swaps')
  {
    forall k, l, p | k in swaps' && l in swaps' && Involves(k, p) && Involves(l, p) ensures k == l {
      assert k in swaps && l in swaps;
    }
    forall k | k in swaps' ensures k.0 < k.1 { assert k in swaps; }
  }

  /** A new pair that shares no position with a pending one keeps the pending swaps disjoint. */
  lemma AddKeepsDisjoint(swaps: map<Key, Swap>, from: nat, to: nat, swap: Swap)
    requires Disjoint(swaps) && from != to && !Swapping(swaps, from) && !Swapping(swaps, to)
    ensures Disjoint(swaps[KeyOf(from, to) := swap])
  {
    var key := KeyOf(from, to);
    var swaps' := swaps[key := swap];
    forall k, l, p | k in swaps' && l in swaps' && Involves(k, p) && Involves(l, p) ensures k == l {
      assert k != key ==> k in swaps && p != from && p != to;
      assert l != key ==> l in swaps && p != from && p != to;
    }
  }

  /** The lost robots among those already looked at. */
  function Gone(robots: map<nat, Remote>, todo: set<nat>): set<nat>
  {
    set p | p in robots && robots[p].stopped && p !in todo
  }

  /** The registry and the pending swaps once the given lost robots have been removed. */
  function Without(robots: map<nat, Remote>, gone: set<nat>): map<nat, Remote> { robots - gone }

  function AckedFor(swaps: map<Key, Swap>, gone: set<nat>): map<Key, Swap>
  {
    map k | k in swaps :: Swap(swaps[k].lower || k.0 in gone, swaps[k].greater || k.1 in gone)
  }

  lemma NoneGone(robots: map<nat, Remote>, swaps: map<Key, Swap>)
    ensures Without(robots, {}) == robots && AckedFor(swaps, {}) == swaps
  {
  }

  lemma OneGone(robots: map<nat, Remote>, swaps: map<Key, Swap>, gone: set<nat>, p: nat)
    ensures Without(robots, gone) - {p} == Without(robots, gone + {p})
    ensures AckedFor(AckedFor(swaps, gone), {p}) == AckedFor(swaps, gone + {p})
  {
  }

  lemma AllGone(c: Ctrl)
    ensures Without(c.robots, StoppedOnes(c.robots)) == RemoveStopped(c).robots
    ensures AckedFor(c.swaps, StoppedOnes(c.robots)) == RemoveStopped(c).swaps
  {
  }

  function CountWithout(n: nat, gone: set<nat>): (m: nat)
    ensures m < U32
  {
    (n - |gone|) % U32
  }

  lemma CountDown(n: nat, gone: set<nat>, p: nat)
    requires p !in gone
    ensures (CountWithout(n, gone) - 1) % U32 == CountWithout(n, gone + {p})
  {
    assert |gone + {p}| == |gone| + 1;
  }

  lemma CountNone(n: nat)
    requires n < U32
    ensures CountWithout(n, {}) == n
  {
  }

  lemma Looked(robots: map<nat, Remote>, todo: set<nat>, p: nat)
    requires p in todo && p in robots
    ensures Gone(robots, todo - {p}) == Gone(robots, todo) + (if robots[p].stopped then {p} else {})
    ensures p !in Gone(robots, todo)
    ensures p in Without(robots, Gone(robots, todo)) && Without(robots, Gone(robots, todo))[p] == robots[p]
  {
  }

  lemma NoneLooked(robots: map<nat, Remote>)
    ensures Gone(robots, robots.Keys) == {} && Gone(robots, {}) == StoppedOnes(robots)
  {
  }

  lemma RestKept(c: Ctrl)
    ensures RemoveStopped(c).running == c.running
    ensures RemoveStopped(c).registered == CountWithout(c.registered, StoppedOnes(c.robots))
  {
  }

  class Agent {
    var robots: map<nat, Remote>
    var swaps: map<Key, Swap>
    var registered: nat
    var running: bool

    ghost function Abs(): Ctrl
      reads this
    {
      Ctrl(robots, swaps, registered, running)
    }

    ghost predicate Valid()
      reads this
    {
      Disjoint(swaps) && registered < U32
    }

    constructor ()
      ensures Valid() && Abs() == Ctrl(map[], map[], 0, true)
    {
      robots, swaps, registered, running := map[], map[], 0, true;
    }

    method IsRobotPositionSwapping(p: nat) returns (found: bool, key: Key)
      ensures found <==> Swapping(swaps, p)
      ensures found ==> key in swaps && Involves(key, p)
    {
      var todo := swaps.Keys;
      key := (0, 0);
      while todo != {}
        invariant todo <= swaps.Keys
        invariant forall k :: k in swaps && k !in todo ==> !Involves(k, p)
        decreases |todo|
      {
        var k :| k in todo;
        if k.0 == p || k.1 == p { return true, k; }
        todo := todo - {k};
      }
      found := false;
    }

    /** Acknowledges a side of the pending swap that the position is part of, if there is one. */
    method AcknowledgeRemoved(p: nat)
      requires Valid()
      modifies this`swaps
      ensures Valid()
      ensures swaps == AckedFor(old(swaps), {p})
    {
      var found, key := IsRobotPositionSwapping(p);
      if found {
        assert forall k :: k in swaps && Involves(k, p) ==> k == key;
        if p == key.0 {
          swaps := swaps[key := swaps[key].(lower := true)];
        } else {
          swaps := swaps[key := swaps[key].(greater := true)];
        }
        AckKeepsDisjoint(old(swaps), swaps);
      } else {
        assert forall k :: k in swaps ==> !Involves(k, p);
      }
    }

    method RemoveRobot(p: nat)
      requires Valid() && p in robots
      modifies this`robots, this`swaps, this`registered
      ensures Valid() && robots == old(robots) - {p} && swaps == AckedFor(old(swaps), {p})
      ensures registered == (old(registered) - 1) % U32
    {
      robots := robots - {p};
      registered := (registered - 1) % U32;
      AcknowledgeRemoved(p);
    }

    method RemoveStoppedRobots()
      requires Valid()
      modifies this`robots, this`swaps, this`registered
      ensures Valid() && Abs() == RemoveStopped(old(Abs()))
    {
      hide Disjoint, Without, AckedFor, Gone, RemoveStopped, CountWithout, StoppedOnes;
      ghost var all := robots;
      var todo := robots.Keys;
      NoneLooked(all);
      NoneGone(robots, swaps);
      CountNone(registered);
      while todo != {}
        invariant todo <= all.Keys
        invariant robots == Without(all, Gone(all, todo)) && swaps == AckedFor(old(swaps), Gone(all, todo))
        invariant registered == CountWithout(old(registered), Gone(all, todo))
        invariant Valid()
        decreases |todo|
      {
        var p :| p in todo;
        Looked(all, todo, p);
        if robots[p].stopped {
          OneGone(all, old(swaps), Gone(all, todo), p);
          CountDown(old(registered), Gone(all, todo), p);
          RemoveRobot(p);
        }
        todo := todo - {p};
      }
      AllGone(old(Abs()));
      RestKept(old(Abs()));
    }

    method EraseStalePendingSwapEntries()
      requires Valid()
      modifies this`swaps
      ensures Valid() && Abs() == EraseStale(old(Abs()))
    {
      ghost var all := swaps;
      var todo := swaps.Keys;
      while todo != {}
        invariant todo <= all.Keys
        invariant swaps == map k | k in all && (k in todo || k.0 in robots || k.1 in robots) :: all[k]
        decreases |todo|
      {
        var key :| key in todo;
        if key.0 !in robots && key.1 !in robots { swaps := swaps - {key}; }
        todo := todo - {key};
      }
      AckKeepsDisjoint(all, swaps);
    }

    method MarkRobotStopped(p: nat)
      requires p in robots
      modifies this`robots
      ensures Abs() == MarkStopped(old(Abs()), p)
    {
      robots := robots[p := robots[p].(stopped := true)];
    }

    method SetAdaptivityFlag(p: nat)
      requires p in robots
      modifies this`robots
      ensures Abs() == SetPending(old(Abs()), p)
    {
      robots := robots[p := robots[p].(pending := true)];
    }

    /** Asks both robots to move and files the pending swap. The answers of the calls are parameters. */
    method SwapPositions(from: nat, to: nat, a: SwapAnswers)
      requires Valid()
      modifies this
      ensures Valid() && Abs() == SwapRobotPositions(old(Abs()), from, to, a)
    {
      if from == to { return; }
      var key := if from < to then (from, to) else (to, from);
      var fromSwaps, k0 := IsRobotPositionSwapping(from);
      var toSwaps, k1 := IsRobotPositionSwapping(to);
      if key in swaps || fromSwaps || toSwaps { return; }
      if from !in robots || robots[from].pending { return; }
      if a.fromAvailable.Failed? { MarkRobotStopped(from); return; }
      if !a.fromAvailable.value { return; }
      if to in robots {
        if robots[to].pending { return; }
        if a.toAvailable.Failed? { MarkRobotStopped(to); return; }
        if !a.toAvailable.value { return; }
      }
      if a.first.Failed? { MarkRobotStopped(from); return; }
      if !a.first.value { running := false; return; }
      SetAdaptivityFlag(from);
      var swap := Swap(false, false);
      if to in robots {
        if a.second.Failed? {
          MarkRobotStopped(to);
          swap := if to > from then swap.(greater := true) else swap.(lower := true);
        } else if !a.second.value {
          running := false;
          return;
        }
        SetAdaptivityFlag(to);
      } else {
        swap := if to > from then swap.(greater := true) else swap.(lower := true);
      }
      AddKeepsDisjoint(swaps, from, to, swap);
      swaps := swaps[key := swap];
    }

    /** Files a robot under its own position again and tells it to commit. */
    method RefileRobot(r: Remote, commit: Reply)
      modifies this`robots
      ensures Abs() == Refile(old(Abs()), r, commit)
    {
      robots := robots[r.position := r.(pending := false)];
      if commit.Failed? { robots := robots[r.position := robots[r.position].(stopped := true)]; }
    }

    method FinishSwap(key: Key, first: Reply, second: Reply)
      requires Valid() && key in swaps
      modifies this`robots, this`swaps
      ensures Valid() && Abs() == CompleteSwap(old(Abs()), key, first, second)
    {
      ghost var all := robots;
      var one: Option<Remote>, other: Option<Remote> := None, None;
      if key.0 in robots {
        one := Some(robots[key.0]);
        robots := robots - {key.0};
      }
      if key.1 in robots {
        other := Some(robots[key.1]);
        robots := robots - {key.1};
      }
      Taken(all, key);
      assert robots == all - {key.0, key.1};
      if one.Some? { RefileRobot(one.value, first); }
      if other.Some? { RefileRobot(other.value, second); }
      AckKeepsDisjoint(swaps, swaps - {key});
      swaps := swaps - {key};
    }

    method OnPositionSwapped(from: nat, to: nat, first: Reply, second: Reply)
      requires Valid()
      modifies this
      ensures Valid() && Abs() == PositionSwapped(old(Abs()), from, to, first, second)
    {
      RemoveStoppedRobots();
      EraseStalePendingSwapEntries();
      var key := if from < to then (from, to) else (to, from);
      if key !in swaps { return; }
      var swap := swaps[key];
      swap := if from == key.1 then swap.(greater := true) else swap.(lower := true);
      AckKeepsDisjoint(swaps, swaps[key := swap]);
      swaps := swaps[key := swap];
      if swap.lower && swap.greater { FinishSwap(key, first, second); }
    }

    method OnRegistration(id: nat, p: nat, caps: set<string>, a: RegistrationAnswers)
      requires Valid()
      modifies this
      ensures Valid() && Abs() == HandleRegistration(old(Abs()), id, p, caps, a)
    {
      RemoveStoppedRobots();
      EraseStalePendingSwapEntries();
      var swapping, k := IsRobotPositionSwapping(p);
      if swapping || p in robots || !a.connects { return; }
      robots := robots[p := Remote(id, p, caps, false, false)];
      registered := (registered + 1) % U32;
      var involved, l := IsRobotPositionSwapping(p);
      if !robots[p].pending && !involved {
        if a.commitPending.Failed? { MarkRobotStopped(p); }
        else if a.commitPending.value && a.commit.Failed? { MarkRobotStopped(p); }
      }
    }

    method Reconfigure(p: nat, available: Reply, call: Reply)
      requires Valid()
      modifies this`robots
      ensures Valid() && Abs() == ReconfigureRobot(old(Abs()), p, available, call)
    {
      if p !in robots || robots[p].pending { return; }
      if available.Failed? { MarkRobotStopped(p); return; }
      if !available.value { return; }
      if call.Failed? { MarkRobotStopped(p); return; }
      if call.value { SetAdaptivityFlag(p); }
    }

    method OnCapabilitiesReconfigured(p: nat)
      requires Valid()
      modifies this
      ensures Valid() && Abs() == CapabilitiesReconfigured(old(Abs()), p)
    {
      RemoveStoppedRobots();
      if p in robots { robots := robots[p := robots[p].(pending := false)]; }
    }
  }

  lemma Taken(robots: map<nat, Remote>, key: Key)
    ensures robots - {key.0} - {key.1} == robots - {key.0, key.1}
    ensures key.0 !in robots ==> robots - {key.1} == robots - {key.0, key.1}
    ensures key.1 !in robots ==> robots - {key.0} == robots - {key.0, key.1}
    ensures key.0 !in robots && key.1 !in robots ==> robots == robots - {key.0, key.1}
  {
  }
}
