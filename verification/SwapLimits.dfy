/** What the swap protocol relies on is exactly what its guarantees need: after a request that goes against it there is
    always a continuation on which the controller hands out a robot that cannot be depended on. */
module SwapLimits {
  import R = Robot
  import opened RobotInvariant
  import opened RobotLegs
  import opened Controller
  import opened SwapProtocol
  import opened SwapSteps
  import opened SwapRequests
  import opened SwapCompletion
  import opened SwapTheorems
  import opened SwapNetwork
  import opened SwapProgress

  // ------------------------------------------------------------------ a robot that is busy adapting

  ghost predicate Busy(s: R.State) { Inv(s) && (LegOf(s).Heading? || LegOf(s).Refit?) }

  lemma UncommittedRests(s: R.State)
    requires LegOf(s).Heading? || LegOf(s).Refit?
    ensures R.CommitCall(s) == s
  {
    hide Control;
  }

  lemma HeadingSwap(w: World, f: nat)
    requires WorldInv(w) && Linked(w.ctrl.robots, w.robots) && f in w.ctrl.robots && LegOf(Body(w, f)).Heading?
    ensures var t := LegOf(Body(w, f)).goal;
            && f != t && KeyOf(f, t) in w.ctrl.swaps && w.ctrl.robots[f].position == f == Body(w, f).position
            && !InQueue(w.callbacks, w.ctrl.robots[f].id)
    ensures Inv(Body(w, f))
  {
    if Swapping(w.ctrl.swaps, f) {
      var k := SwapOf(w.ctrl.swaps, f);
      SideOf(w, k, f);
      KeyOrder(w.ctrl.swaps, k);
      PartnerKey(k, f);
    } else {
      FreeOf(w, f);
      hide WorldInv, LegOf, BodyOk;
      assert false;
    }
    hide WorldInv, Inv, LegOf, Partner, KeyOf, InQueue, Acked;
  }

  /** A busy robot is where it is filed, which is a position of the belt. */
  lemma BusyFiled(w: World, p: nat)
    requires WorldInv(w) && Linked(w.ctrl.robots, w.robots) && p in w.ctrl.robots && Busy(Body(w, p))
    ensures w.ctrl.robots[p].position == p && p != 0
  {
    PositionReal(Body(w, p));
    if LegOf(Body(w, p)).Heading? { HeadingSwap(w, p); } else { RefitFiled(w, p); }
    hide WorldInv, Inv, LegOf;
  }

  lemma RefitFiled(w: World, p: nat)
    requires WorldInv(w) && Linked(w.ctrl.robots, w.robots) && p in w.ctrl.robots && LegOf(Body(w, p)).Refit?
    ensures w.ctrl.robots[p].position == p == Body(w, p).position
  {
    if Swapping(w.ctrl.swaps, p) {
      var k := SwapOf(w.ctrl.swaps, p);
      SideOf(w, k, p);
    } else {
      FreeOf(w, p);
    }
    hide WorldInv, Inv, LegOf, InQueue, Acked, Partner;
  }

  lemma PositionReal(s: R.State)
    requires Inv(s)
    ensures s.position != 0
  {
    AvailableLeg(s);
    hide Inv, LegOf;
  }

  // ------------------------------------------------------------------ it stays where it is filed

  lemma Spared(c: Ctrl, k: Key, first: Reply, second: Reply, p: nat)
    requires PairAway(c.robots, k) && k.0 != k.1 && p in c.robots && c.robots[p].position == p
    ensures var c' := CompleteSwap(c, k, first, second);
            p in c'.robots && c'.robots[p] == c.robots[p] && !Involves(k, p)
  {
  }

  lemma Unmoved(remotes: map<nat, Remote>, robots: seq<R.State>, q: nat, lost: bool, i: nat)
    requires Linked(remotes, robots) && i < |robots| && R.CommitCall(robots[i]) == robots[i]
    ensures Committed(remotes, robots, q, lost)[i] == robots[i]
  {
    hide R.CommitCall;
  }

  /** What handling the acknowledgement of a swap comes to. */
  lemma HandleSwapped(n: Network)
    requires Linked(n.ctrl.robots, n.robots) && n.queue != [] && n.queue[0].callback.Swapped?
    ensures var c1, cb, n' := EraseStale(RemoveStopped(n.ctrl)), n.queue[0].callback, Handle(n, false, false);
            var k := KeyOf(cb.from, cb.to);
            && Linked(c1.robots, n.robots)
            && n'.ctrl == Acknowledge(c1, cb.from, cb.to, Answer(true), Answer(true))
            && n'.robots == if !CompletesSwap(c1, cb.from, cb.to) then n.robots
               else Committed(c1.robots, Committed(c1.robots, n.robots, k.0, false), k.1, false)
  {
    hide CompletesSwap, Acknowledge, Committed, KeyOf;
  }

  lemma HousekeptLive(n: Network, p: nat)
    requires WorldInv(Core(n))
    ensures var c1 := EraseStale(RemoveStopped(n.ctrl));
            && WorldInv(World(c1, n.robots, LiveOf(n.queue))) && Linked(c1.robots, n.robots) && NoneStopped(c1.robots)
            && (Live(n.ctrl, p) <==> p in c1.robots) && (Live(n.ctrl, p) ==> c1.robots[p] == n.ctrl.robots[p])
            && c1.running == n.ctrl.running
  {
    Housekept(Core(n));
    RemoveStoppedFacts(n.ctrl);
    hide WorldInv, RemoveStopped, NoneStopped;
  }

  lemma BusyKeptAtSwap(n: Network, p: nat)
    requires HeadOk(n) && Linked(n.ctrl.robots, n.robots) && n.queue[0].callback.Swapped?
    requires Live(n.ctrl, p) && Busy(BodyAt(n, p))
    ensures var n' := Handle(n, false, false); Live(n'.ctrl, p) && BodyAt(n', p) == BodyAt(n, p)
  {
    var c1, cb := EraseStale(RemoveStopped(n.ctrl)), n.queue[0].callback;
    var k := KeyOf(cb.from, cb.to);
    assert WorldInv(Core(n));
    HousekeptLive(n, p);
    BusyFiled(Core(n), p);
    HandleSwapped(n);
    UncommittedRests(BodyAt(n, p));
    hide WorldInv, HeadOk, RemoveStopped, EraseStale, Handle, Committed, PairAway, NoneStopped, Busy, R.CommitCall,
         CompleteSwap, KeyOf, LiveOf;
    if CompletesSwap(c1, cb.from, cb.to) {
      CompletedAway(n);
      KeyOrder(c1.swaps, k) by { DisjointSwaps(World(c1, n.robots, LiveOf(n.queue))); }
      var i := n.ctrl.robots[p].id;
      var c2 := c1.(swaps := c1.swaps[k := Ack(c1.swaps[k], k, cb.from)]);
      Spared(c2, k, Answer(true), Answer(true), p);
      Unmoved(c1.robots, n.robots, k.0, false, i);
      Unmoved(c1.robots, Committed(c1.robots, n.robots, k.0, false), k.1, false, i);
    }
  }

  lemma DisjointSwaps(w: World)
    requires WorldInv(w)
    ensures Disjoint(w.ctrl.swaps)
  {
  }

  /** What handling the end of a reconfiguration comes to. */
  lemma HandleReconfigured(n: Network)
    requires Linked(n.ctrl.robots, n.robots) && n.queue != [] && n.queue[0].callback.Reconfigured?
    ensures Handle(n, false, false) ==
              Network(CapabilitiesReconfigured(n.ctrl, n.queue[0].callback.position), n.robots, n.queue[1..])
  {
    hide CapabilitiesReconfigured;
  }

  lemma ReleasedOnly(c: Ctrl, p: nat, x: nat)
    ensures var c' := CapabilitiesReconfigured(c, p);
            && (Live(c, x) <==> x in c'.robots) && c'.running == c.running
            && (Live(c, x) ==> c'.robots[x].(pending := c.robots[x].pending) == c.robots[x])
            && (Live(c, x) && x == p ==> !c'.robots[x].pending)
  {
    RemoveStoppedFacts(c);
    hide RemoveStopped;
  }

  /** Handling notifications leaves a busy robot alone. */
  lemma BusyKept(n: Network, p: nat)
    requires HeadOk(n) && Linked(n.ctrl.robots, n.robots) && Live(n.ctrl, p) && Busy(BodyAt(n, p))
    ensures var n' := Handle(n, false, false); Live(n'.ctrl, p) && BodyAt(n', p) == BodyAt(n, p)
  {
    hide Handle, CapabilitiesReconfigured, Busy;
    if n.queue[0].callback.Swapped? {
      BusyKeptAtSwap(n, p);
    } else {
      HandleReconfigured(n);
      ReleasedOnly(n.ctrl, n.queue[0].callback.position, p);
    }
    hide HeadOk;
  }

  /** A live robot that heads for a position where no live robot is registered. */
  predicate Alone(n: Network, f: nat)
    requires Linked(n.ctrl.robots, n.robots)
  {
    Live(n.ctrl, f) && LegOf(BodyAt(n, f)).Heading? && !Live(n.ctrl, LegOf(BodyAt(n, f)).goal)
  }

  /** If its partner is lost, the partner's place stays empty. */
  lemma PlaceStaysEmpty(n: Network, f: nat)
    requires HeadOk(n) && Linked(n.ctrl.robots, n.robots) && Alone(n, f) && Busy(BodyAt(n, f))
    ensures Alone(Handle(n, false, false), f)
  {
    var t := LegOf(BodyAt(n, f)).goal;
    BusyKept(n, f);
    hide Handle, CapabilitiesReconfigured, LegOf, Busy;
    if n.queue[0].callback.Swapped? {
      PlaceKeptAtSwap(n, f, t);
    } else {
      HandleReconfigured(n);
      ReleasedOnly(n.ctrl, n.queue[0].callback.position, t);
    }
    hide HeadOk;
  }

  lemma PlaceKeptAtSwap(n: Network, f: nat, t: nat)
    requires HeadOk(n) && Linked(n.ctrl.robots, n.robots) && Live(n.ctrl, f) && LegOf(BodyAt(n, f)) == Heading(t)
    requires !Live(n.ctrl, t) && n.queue[0].callback.Swapped?
    ensures t !in Handle(n, false, false).ctrl.robots
  {
    var c1, cb := EraseStale(RemoveStopped(n.ctrl)), n.queue[0].callback;
    var w1, k := World(c1, n.robots, LiveOf(n.queue)), KeyOf(cb.from, cb.to);
    assert WorldInv(Core(n));
    HousekeptLive(n, f);
    HousekeptLive(n, t);
    HandleSwapped(n);
    hide WorldInv, HeadOk, RemoveStopped, EraseStale, Handle, Committed, NoneStopped, LegOf, LiveOf, CompleteSwap,
         PairAway, KeyOf;
    HeadingSwap(w1, f);
    if CompletesSwap(c1, cb.from, cb.to) {
      CompletedAway(n);
      EmptyPlace(w1, k, cb.from, f, t);
    }
  }

  lemma EmptyPlace(w1: World, k: Key, from: nat, f: nat, t: nat)
    requires WorldInv(w1) && k in w1.ctrl.swaps && PairAway(w1.ctrl.robots, k)
    requires f in w1.ctrl.robots && w1.ctrl.robots[f].position == f && KeyOf(f, t) in w1.ctrl.swaps
    requires f != t && t !in w1.ctrl.robots
    ensures var c2 := w1.ctrl.(swaps := w1.ctrl.swaps[k := Ack(w1.ctrl.swaps[k], k, from)]);
            t !in CompleteSwap(c2, k, Answer(true), Answer(true)).robots
  {
    var c2 := w1.ctrl.(swaps := w1.ctrl.swaps[k := Ack(w1.ctrl.swaps[k], k, from)]);
    DisjointSwaps(w1);
    hide WorldInv, Ack, CompleteSwap, Disjoint;
    KeyOrder(w1.ctrl.swaps, k);
    Spared(c2, k, Answer(true), Answer(true), f);
    if Involves(k, t) { OnlySwap(w1.ctrl.swaps, t, k, KeyOf(f, t)); }
    NobodyNew(c2, k, t);
  }

  lemma NobodyNew(c: Ctrl, k: Key, t: nat)
    requires PairAway(c.robots, k) && k.0 != k.1 && t !in c.robots && !Involves(k, t)
    ensures t !in CompleteSwap(c, k, Answer(true), Answer(true)).robots
  {
  }

  // ------------------------------------------------------------------ up to the notification that is misread

  function Handles(m: nat): seq<Event>
  {
    if m == 0 then [] else [HandleCallback(false, false)] + Handles(m - 1)
  }

  ghost predicate HarmlessUpTo(n: Network, m: nat)
    requires m <= |n.queue|
  {
    forall j :: 0 <= j < m && n.queue[j].stale ==> Harmless(n.ctrl, n.queue[j].callback)
  }

  lemma HandleIsStep(n: Network)
    requires Linked(n.ctrl.robots, n.robots) && n.ctrl.running
    ensures NetStep(n, HandleCallback(false, false)) == Handle(n, false, false)
    ensures Reliable(n, HandleCallback(false, false))
  {
    hide Handle;
  }

  lemma StillRunning(n: Network)
    requires Linked(n.ctrl.robots, n.robots) && n.queue != []
    ensures var n' := Handle(n, false, false); n'.ctrl.running == n.ctrl.running && n'.queue == n.queue[1..]
  {
    hide Committed;
  }

  /** Handling the oldest notification. */
  lemma OneHandled(n: Network, m: nat, p: nat)
    requires WorldInv(Core(n)) && Linked(n.ctrl.robots, n.robots) && n.ctrl.running
    requires 0 < m <= |n.queue| && HarmlessUpTo(n, m) && Live(n.ctrl, p) && Busy(BodyAt(n, p))
    ensures var n' := Handle(n, false, false);
            && WorldInv(Core(n')) && n'.ctrl.running && n'.queue == n.queue[1..] && HarmlessUpTo(n', m - 1)
            && Live(n'.ctrl, p) && BodyAt(n', p) == BodyAt(n, p)
  {
    var n' := Handle(n, false, false);
    assert HeadOk(n);
    StillRunning(n);
    BusyKept(n, p);
    HandleCalmer(n, false, false);
    if !n.queue[0].stale {
      LiveHeadKeeps(n, false, false);
    } else if n.queue[0].callback.Swapped? {
      StaleSwapped(n, false, false);
    } else {
      StaleReconfigured(n, false, false);
    }
    hide WorldInv, HeadOk, Handle, Calmer, Busy, Harmless, LiveOf;
    forall j | 0 <= j < m - 1 && n'.queue[j].stale ensures Harmless(n'.ctrl, n'.queue[j].callback) {
      assert n'.queue[j] == n.queue[j + 1];
      CalmerHarmless(n.ctrl, n'.ctrl, n.queue[j + 1].callback);
    }
  }

  lemma {:induction false} HandledUpTo(n: Network, m: nat, p: nat)
    requires WorldInv(Core(n)) && Linked(n.ctrl.robots, n.robots) && n.ctrl.running
    requires m <= |n.queue| && HarmlessUpTo(n, m) && Live(n.ctrl, p) && Busy(BodyAt(n, p))
    ensures AllReliable(n, Handles(m))
    ensures var n' := Run(n, Handles(m));
            && WorldInv(Core(n')) && n'.ctrl.running && n'.queue == n.queue[m..]
            && Live(n'.ctrl, p) && BodyAt(n', p) == BodyAt(n, p)
            && (Alone(n, p) ==> Alone(n', p))
    decreases m
  {
    hide WorldInv, Handle, Busy, LegOf, HarmlessUpTo, Live, LiveOf, NetStep, Reliable, Alone;
    if m > 0 {
      var n1 := Handle(n, false, false);
      HandleIsStep(n);
      OneHandled(n, m, p);
      HandledUpTo(n1, m - 1, p);
      assert Handles(m)[1..] == Handles(m - 1);
      assert n.queue[1..][m - 1..] == n.queue[m..];
      HeadByPrefix(n, m);
      if Alone(n, p) { PlaceStaysEmpty(n, p); }
    }
  }

  lemma HeadByPrefix(n: Network, m: nat)
    requires WorldInv(Core(n)) && 0 < m <= |n.queue| && HarmlessUpTo(n, m)
    ensures HeadOk(n)
  {
    hide WorldInv, Harmless;
  }

  // ------------------------------------------------------------------ it is misread

  /** A busy robot is released when the end of some other robot's reconfiguration is taken for its own. */
  lemma ReleasedEarly(n: Network, p: nat)
    requires WorldInv(Core(n)) && Linked(n.ctrl.robots, n.robots) && n.ctrl.running && n.queue != []
    requires n.queue[0].callback.Reconfigured? && n.queue[0].callback.position == p
    requires Live(n.ctrl, p) && Busy(BodyAt(n, p))
    ensures var n' := NetStep(n, HandleCallback(false, false)); !HandsOutReal(n'.ctrl, n'.robots)
  {
    var n' := Handle(n, false, false);
    HandleIsStep(n);
    HandleReconfigured(n);
    ReleasedOnly(n.ctrl, p, p);
    BusyFiled(Core(n), p);
    hide WorldInv, Handle, NetStep, CapabilitiesReconfigured, Inv, LegOf, HandsOutReal;
    HandsOutBusy(n', p);
  }

  /** A robot that has not moved yet is released when some other robot's acknowledgement is taken for its own and its
      partner is gone. */
  lemma ReleasedUnmoved(n: Network, f: nat)
    requires WorldInv(Core(n)) && Linked(n.ctrl.robots, n.robots) && n.ctrl.running && n.queue != [] && Alone(n, f)
    requires Busy(BodyAt(n, f))
    requires var cb := n.queue[0].callback; cb.Swapped? && cb.from == f && cb.to == LegOf(BodyAt(n, f)).goal
    ensures var n' := NetStep(n, HandleCallback(false, false)); !HandsOutReal(n'.ctrl, n'.robots)
  {
    var n', c1, t := Handle(n, false, false), EraseStale(RemoveStopped(n.ctrl)), LegOf(BodyAt(n, f)).goal;
    var w1, k, i := World(c1, n.robots, LiveOf(n.queue)), KeyOf(f, t), n.ctrl.robots[f].id;
    HandleIsStep(n);
    HandleSwapped(n);
    HousekeptLive(n, f);
    HousekeptLive(n, t);
    BusyFiled(Core(n), f);
    UncommittedRests(BodyAt(n, f));
    hide WorldInv, Handle, NetStep, RemoveStopped, EraseStale, Inv, LegOf, R.CommitCall, Committed, NoneStopped,
         Acknowledge, HandsOutReal;
    HeadingSwap(w1, f);
    SideOf(w1, k, t);
    Releases(c1, f, t);
    Unmoved(c1.robots, n.robots, k.0, false, i);
    Unmoved(c1.robots, Committed(c1.robots, n.robots, k.0, false), k.1, false, i);
    HandsOutBusy(n', f);
  }

  lemma HandsOutBusy(n: Network, p: nat)
    requires Linked(n.ctrl.robots, n.robots) && p in n.ctrl.robots && !n.ctrl.robots[p].pending && p != 0
    requires n.ctrl.robots[p].position == p && (LegOf(BodyAt(n, p)).Heading? || LegOf(BodyAt(n, p)).Refit?)
    ensures !HandsOutReal(n.ctrl, n.robots)
  {
    hide Inv, LegOf;
    assert NextRobotReply(n.ctrl, p) == p;
    assert !Dependable(n.ctrl.robots[p], BodyAt(n, p));
  }

  lemma Releases(c: Ctrl, f: nat, t: nat)
    requires f in c.robots && c.robots[f].position == f && t !in c.robots && f != t && KeyOf(f, t) in c.swaps
    requires Acked(c.swaps[KeyOf(f, t)], KeyOf(f, t), t)
    ensures CompletesSwap(c, f, t)
    ensures var c' := Acknowledge(c, f, t, Answer(true), Answer(true));
            f in c'.robots && c'.robots[f] == c.robots[f].(pending := false)
  {
  }

  lemma RunPrepend(n: Network, e: Event, events: seq<Event>)
    requires Linked(n.ctrl.robots, n.robots) && Reliable(n, e) && AllReliable(NetStep(n, e), events)
    ensures AllReliable(n, [e] + events) && Run(n, [e] + events) == Run(NetStep(n, e), events)
  {
    assert ([e] + events)[1..] == events;
    hide Reliable, NetStep;
  }

  /** The continuation: the older notifications are handled, then the one that is misread. */
  lemma EarlyFails(n: Network, i: nat, p: nat) returns (events: seq<Event>)
    requires WorldInv(Core(n)) && Linked(n.ctrl.robots, n.robots) && n.ctrl.running
    requires i < |n.queue| && HarmlessUpTo(n, i) && Live(n.ctrl, p) && Busy(BodyAt(n, p))
    requires n.queue[i].callback.Reconfigured? && n.queue[i].callback.position == p
    ensures AllReliable(n, events) && !HandsOutReal(Run(n, events).ctrl, Run(n, events).robots)
  {
    hide WorldInv, Busy, Live, HarmlessUpTo, NetStep, Run, AllReliable, Reliable, HandsOutReal, LiveOf;
    HandledUpTo(n, i, p);
    var m := Run(n, Handles(i));
    HandleIsStep(m);
    ReleasedEarly(m, p);
    RunAppend(n, Handles(i), HandleCallback(false, false));
    events := Handles(i) + [HandleCallback(false, false)];
  }

  lemma UnmovedFails(n: Network, i: nat, f: nat) returns (events: seq<Event>)
    requires WorldInv(Core(n)) && Linked(n.ctrl.robots, n.robots) && n.ctrl.running
    requires i < |n.queue| && HarmlessUpTo(n, i) && Alone(n, f) && Busy(BodyAt(n, f))
    requires var cb := n.queue[i].callback; cb.Swapped? && cb.from == f && cb.to == LegOf(BodyAt(n, f)).goal
    ensures AllReliable(n, events) && !HandsOutReal(Run(n, events).ctrl, Run(n, events).robots)
  {
    assert Live(n.ctrl, f);
    hide WorldInv, Busy, Live, Alone, LegOf, HarmlessUpTo, NetStep, Run, AllReliable, Reliable, HandsOutReal, LiveOf;
    HandledUpTo(n, i, f);
    var m := Run(n, Handles(i));
    HandleIsStep(m);
    ReleasedUnmoved(m, f);
    RunAppend(n, Handles(i), HandleCallback(false, false));
    events := Handles(i) + [HandleCallback(false, false)];
  }

  // ------------------------------------------------------------------ the partner is lost first

  lemma {:induction false} MarksNobody(queue: seq<Posted>, id: nat)
    requires !InQueue(LiveOf(queue), id)
    ensures MarkStale(queue, id) == queue
  {
    MarkedElements(queue, id);
    forall i | 0 <= i < |queue| ensures MarkStale(queue, id)[i] == queue[i] {
      if !queue[i].stale { var j := LiveElement(queue, i); }
    }
    hide MarkStale, LiveOf;
  }

  /** The connection to a robot that has nothing queued is lost, like that of every robot without one registered. */
  lemma PartnerLost(n: Network, f: nat, t: nat)
    requires WorldInv(Core(n)) && Linked(n.ctrl.robots, n.robots) && n.ctrl.running && f != t
    requires Live(n.ctrl, f) && (t in n.ctrl.robots ==> LegOf(BodyAt(n, t)).Heading?)
    ensures var n' := NetStep(n, Lose(t));
            && WorldInv(Core(n')) && n'.ctrl.running && n'.queue == n.queue && Calmer(n.ctrl, n'.ctrl)
            && Live(n'.ctrl, f) && BodyAt(n', f) == BodyAt(n, f) && !Live(n'.ctrl, t)
  {
    hide WorldInv, LegOf, LiveOf, Calmer, MarkStale, InQueue, MarkStopped;
    if t in n.ctrl.robots {
      assert LegOf(Body(Core(n), t)).Heading?;
      HeadingSwap(Core(n), t);
      MarksNobody(n.queue, n.ctrl.robots[t].id);
      LostOnly(n.ctrl, t, f);
      MarkStoppedKeeps(Core(n), t);
      StoppedCalmer(n.ctrl, t);
      assert Core(NetStep(n, Lose(t))) == Core(n).(ctrl := MarkStopped(n.ctrl, t));
    } else {
      SameCalmer(n.ctrl);
    }
  }

  lemma LostOnly(c: Ctrl, t: nat, f: nat)
    requires t in c.robots && f != t && f in c.robots
    ensures var c' := MarkStopped(c, t);
            c'.running == c.running && !Live(c', t) && f in c'.robots && c'.robots[f] == c.robots[f]
  {
  }

  // ------------------------------------------------------------------ what is at stake

  /** However the run goes on, whatever the controller hands out is real. */
  ghost predicate AlwaysReal(n: Network)
    requires Linked(n.ctrl.robots, n.robots)
  {
    forall events :: AllReliable(n, events) ==> HandsOutReal(Run(n, events).ctrl, Run(n, events).robots)
  }

  lemma AlwaysRealByInv(n: Network)
    requires NetInv(n) && Linked(n.ctrl.robots, n.robots)
    ensures AlwaysReal(n)
  {
    hide NetInv, HandsOutReal;
    forall events | AllReliable(n, events) ensures HandsOutReal(Run(n, events).ctrl, Run(n, events).robots) {
      HandedOutIsReal(n, events);
    }
  }

  lemma FailsBy(n: Network, events: seq<Event>)
    requires Linked(n.ctrl.robots, n.robots) && AllReliable(n, events)
    requires !HandsOutReal(Run(n, events).ctrl, Run(n, events).robots)
    ensures !AlwaysReal(n) && !NetInv(n)
  {
    hide NetInv, HandsOutReal, AllReliable, Run;
    if NetInv(n) { HandedOutIsReal(n, events); }
  }

  // ------------------------------------------------------------------ the guard of a swap

  /** Every call of the request is answered, and both robots agree. */
  predicate Agreed(c: Ctrl, from: nat, to: nat, a: SwapAnswers)
  {
    SwapStarts(c, from, to, a) && a.first == Answer(true) && (to in c.robots ==> a.second == Answer(true))
  }

  function Request(n: Network, from: nat, to: nat, l: SwapLosses): SwapAnswers
    requires Linked(n.ctrl.robots, n.robots) && from in n.ctrl.robots
  {
    SwapAnswersOf(World(n.ctrl, n.robots, []), from, to, l)
  }

  /** The robot of one of the two positions has been told to go to the other one. */
  ghost predicate Told(w: World, w': World, p: nat, q: nat)
    requires Linked(w'.ctrl.robots, w'.robots) && p in w.ctrl.robots
  {
    && p in w'.ctrl.robots && w'.ctrl.robots[p] == w.ctrl.robots[p].(pending := true)
    && Inv(Body(w', p)) && LegOf(Body(w', p)) == Heading(q)
  }

  lemma LoneTold(w: World, from: nat, to: nat)
    requires WorldInv(w) && from != to && Movable(w, from, to) && to !in w.ctrl.robots
    ensures var w' := LoneMoved(w, from, to);
            && Linked(w'.ctrl.robots, w'.robots) && Told(w, w', from, to)
            && w'.ctrl.running == w.ctrl.running && to !in w'.ctrl.robots
  {
    SentOff(w, from, to);
    IdsBound(w);
    hide WorldInv, Inv, LegOf, R.SwitchCall, FreeOk, EndOk;
  }

  lemma PairTold(w: World, from: nat, to: nat)
    requires WorldInv(w) && from != to && Movable(w, from, to) && Movable(w, to, from)
    ensures var w' := PairMoved(w, from, to, false);
            && Linked(w'.ctrl.robots, w'.robots) && Told(w, w', from, to) && Told(w, w', to, from)
            && w'.ctrl.running == w.ctrl.running
  {
    IdsDiffer(w, from, to);
    IdsBound(w);
    SentOff(w, from, to);
    SentOff(w, to, from);
    hide WorldInv, Inv, LegOf, R.SwitchCall, PairMoved;
    PairShape(w, from, to);
  }

  lemma PairShape(w: World, from: nat, to: nat)
    requires from != to && Movable(w, from, to) && Movable(w, to, from) && Linked(w.ctrl.robots, w.robots)
    requires w.ctrl.robots[from].id != w.ctrl.robots[to].id
    ensures var w' := PairMoved(w, from, to, false);
            && Linked(w'.ctrl.robots, w'.robots) && w'.ctrl.running == w.ctrl.running
            && from in w'.ctrl.robots && w'.ctrl.robots[from] == w.ctrl.robots[from].(pending := true)
            && to in w'.ctrl.robots && w'.ctrl.robots[to] == w.ctrl.robots[to].(pending := true)
            && Body(w', from) == R.SwitchCall(Body(w, from), to) && Body(w', to) == R.SwitchCall(Body(w, to), from)
  {
    hide LegOf, R.SwitchCall, KeyOf;
  }

  lemma SentOff(w: World, p: nat, q: nat)
    requires WorldInv(w) && p != q && Movable(w, p, q)
    ensures var s := R.SwitchCall(w.robots[w.ctrl.robots[p].id], q); Inv(s) && LegOf(s) == Heading(q)
  {
    Unflagged(w, p);
    SwitchLeg(w.robots[w.ctrl.robots[p].id], q);
    hide WorldInv, Inv, LegOf, R.SwitchCall, FreeOk, EndOk;
  }

  lemma AgreedWorld(w: World, from: nat, to: nat, l: SwapLosses)
    requires WorldInv(w) && Linked(w.ctrl.robots, w.robots) && from in w.ctrl.robots
    requires Agreed(w.ctrl, from, to, SwapAnswersOf(w, from, to, l))
    ensures var w' := SwapStep(w, from, to, l);
            && WorldInv(w') && from != to && w'.ctrl.running == w.ctrl.running
            && Told(w, w', from, to)
            && (if to in w.ctrl.robots then Told(w, w', to, from) else to !in w'.ctrl.robots)
  {
    var a := SwapAnswersOf(w, from, to, l);
    assert !l.first && R.SwitchAccepts(w.robots[w.ctrl.robots[from].id], to);
    assert to in w.ctrl.robots ==> !l.second && R.SwitchAccepts(w.robots[w.ctrl.robots[to].id], from);
    hide WorldInv, SwapAnswersOf, SwapStep, Movable, R.SwitchAccepts, R.SwitchCall, LoneMoved, PairMoved, Swapping,
         KeyOf, Told;
    SwapKeeps(w, from, to, l);
    MovableByAnswers(w, from, to, l);
    if to in w.ctrl.robots {
      IdsDiffer(w, from, to);
      BothTold(w, from, to, l);
      PairTold(w, from, to);
    } else {
      OneTold(w, from, to, l);
      LoneTold(w, from, to);
    }
  }

  /** A request that both robots agree to sends both on their way. */
  lemma AgreedMoves(n: Network, from: nat, to: nat, l: SwapLosses)
    requires WorldInv(Core(n)) && Linked(n.ctrl.robots, n.robots) && n.ctrl.running && from in n.ctrl.robots
    requires Agreed(n.ctrl, from, to, Request(n, from, to, l))
    ensures var n' := NetStep(n, SwapRequest(from, to, l));
            && WorldInv(Core(n')) && from != to && n'.ctrl.running && n'.queue == n.queue
            && Told(Core(n), Core(n'), from, to)
            && (if to in n.ctrl.robots then Told(Core(n), Core(n'), to, from) else to !in n'.ctrl.robots)
  {
    var e := SwapRequest(from, to, l);
    hide WorldInv, SwapAnswersOf, SwapStep, Agreed, Told, NetStep, LiveOf;
    SameAnswers(n.ctrl, n.robots, LiveOf(n.queue), from, to, l);
    PlainCore(n, e);
    PostsNothing(n, e);
    assert Step(Core(n), e) == SwapStep(Core(n), from, to, l);
    hide Step;
    AgreedWorld(Core(n), from, to, l);
  }

  /** The oldest notification that is taken for an answer to the request. */
  lemma {:induction false} FirstConfusing(n: Network, from: nat, to: nat, m: nat) returns (i: nat)
    requires m < |n.queue| && n.queue[m].stale && Confuses(n.ctrl, n.queue[m].callback, from, to)
    ensures i < |n.queue| && n.queue[i].stale && Confuses(n.ctrl, n.queue[i].callback, from, to)
    ensures forall j :: 0 <= j < i && n.queue[j].stale ==> !Confuses(n.ctrl, n.queue[j].callback, from, to)
    decreases m
  {
    hide Confuses;
    if j :| 0 <= j < m && n.queue[j].stale && Confuses(n.ctrl, n.queue[j].callback, from, to) {
      i := FirstConfusing(n, from, to, j);
    } else {
      i := m;
    }
  }

  lemma HarmlessBefore(n: Network, from: nat, to: nat, l: SwapLosses, i: nat)
    requires NetInv(n) && Linked(n.ctrl.robots, n.robots) && n.ctrl.running && from in n.ctrl.robots && i < |n.queue|
    requires forall j :: 0 <= j < i && n.queue[j].stale ==> !Confuses(n.ctrl, n.queue[j].callback, from, to)
    ensures var n' := NetStep(n, SwapRequest(from, to, l)); n'.queue == n.queue && HarmlessUpTo(n', i)
  {
    var n' := NetStep(n, SwapRequest(from, to, l));
    PostsNothing(n, SwapRequest(from, to, l));
    SwapCtrl(n, SwapRequest(from, to, l));
    hide WorldInv, NetStep, SwapRobotPositions, SwapAnswersOf, Harmless, Confuses;
    forall j | 0 <= j < i && n'.queue[j].stale ensures Harmless(n'.ctrl, n'.queue[j].callback) {
      SwapStartedHarmless(n.ctrl, from, to, Request(n, from, to, l), n.queue[j].callback);
    }
  }

  lemma CalmerUpTo(n: Network, n': Network, i: nat)
    requires i <= |n.queue| && HarmlessUpTo(n, i) && Calmer(n.ctrl, n'.ctrl) && n'.queue == n.queue
    ensures HarmlessUpTo(n', i)
  {
    hide Harmless, Calmer;
    forall j | 0 <= j < i && n'.queue[j].stale ensures Harmless(n'.ctrl, n'.queue[j].callback) {
      CalmerHarmless(n.ctrl, n'.ctrl, n.queue[j].callback);
    }
  }

  /** After the request, with the partner's connection lost as well. */
  lemma UnmovedFailsOnceAlone(n: Network, i: nat, f: nat, t: nat) returns (events: seq<Event>)
    requires WorldInv(Core(n)) && Linked(n.ctrl.robots, n.robots) && n.ctrl.running && f != t
    requires i < |n.queue| && HarmlessUpTo(n, i) && Live(n.ctrl, f)
    requires Inv(BodyAt(n, f)) && LegOf(BodyAt(n, f)) == Heading(t)
    requires t in n.ctrl.robots ==> LegOf(BodyAt(n, t)).Heading?
    requires var cb := n.queue[i].callback; cb.Swapped? && cb.from == f && cb.to == t
    ensures AllReliable(n, events) && !HandsOutReal(Run(n, events).ctrl, Run(n, events).robots)
  {
    var n2 := NetStep(n, Lose(t));
    PartnerLost(n, f, t);
    CalmerUpTo(n, n2, i);
    hide WorldInv, NetStep, Inv, LegOf, HarmlessUpTo, LiveOf, Run, AllReliable, HandsOutReal, Calmer;
    var more := UnmovedFails(n2, i, f);
    RunPrepend(n, Lose(t), more);
    events := [Lose(t)] + more;
  }

  lemma OwnPosition(cb: Callback, from: nat, to: nat)
    requires cb.Swapped? && KeyOf(cb.from, cb.to) == KeyOf(from, to)
    ensures (cb.from == from && cb.to == to) || (cb.from == to && cb.to == from)
  {
  }

  /** The two robots once they have been told. */
  lemma ToldApart(n: Network, n1: Network, p: nat, q: nat)
    requires Linked(n.ctrl.robots, n.robots) && Linked(n1.ctrl.robots, n1.robots)
    requires p in n.ctrl.robots && Told(Core(n), Core(n1), p, q)
    ensures p in n1.ctrl.robots && (Live(n.ctrl, p) ==> Live(n1.ctrl, p))
    ensures Inv(BodyAt(n1, p)) && LegOf(BodyAt(n1, p)) == Heading(q)
  {
    hide Inv, LegOf, LiveOf;
  }

  lemma MisreadFails(n1: Network, from: nat, to: nat, i: nat, c: Ctrl) returns (events: seq<Event>)
    requires WorldInv(Core(n1)) && Linked(n1.ctrl.robots, n1.robots) && n1.ctrl.running && from != to
    requires i < |n1.queue| && HarmlessUpTo(n1, i) && Confuses(c, n1.queue[i].callback, from, to)
    requires from in n1.ctrl.robots && Inv(BodyAt(n1, from)) && LegOf(BodyAt(n1, from)) == Heading(to)
    requires to in n1.ctrl.robots ==> Inv(BodyAt(n1, to)) && LegOf(BodyAt(n1, to)) == Heading(from)
    requires (Live(c, from) ==> Live(n1.ctrl, from)) && (Live(c, to) ==> Live(n1.ctrl, to))
    ensures AllReliable(n1, events) && !HandsOutReal(Run(n1, events).ctrl, Run(n1, events).robots)
  {
    var cb := n1.queue[i].callback;
    hide WorldInv, Inv, LegOf, HarmlessUpTo, Run, AllReliable, HandsOutReal, KeyOf, LiveOf;
    if cb.Reconfigured? {
      events := EarlyFails(n1, i, cb.position);
    } else {
      OwnPosition(cb, from, to);
      events := UnmovedFailsOnceAlone(n1, i, cb.from, cb.to);
    }
  }

  /** A swap over a notification that is taken for an answer to it: the controller comes to hand out a robot that is
      on the move. */
  lemma ConfusedSwapFails(n: Network, from: nat, to: nat, l: SwapLosses) returns (events: seq<Event>)
    requires NetInv(n) && Linked(n.ctrl.robots, n.robots) && n.ctrl.running && from in n.ctrl.robots
    requires Agreed(n.ctrl, from, to, Request(n, from, to, l)) && !SwapUndisturbed(n, from, to)
    ensures var n1 := NetStep(n, SwapRequest(from, to, l));
            AllReliable(n1, events) && !HandsOutReal(Run(n1, events).ctrl, Run(n1, events).robots)
  {
    var m :| 0 <= m < |n.queue| && n.queue[m].stale && Confuses(n.ctrl, n.queue[m].callback, from, to);
    var i := FirstConfusing(n, from, to, m);
    var n1, cb := NetStep(n, SwapRequest(from, to, l)), n.queue[i].callback;
    HarmlessBefore(n, from, to, l, i);
    AgreedMoves(n, from, to, l);
    hide NetInv, WorldInv, NetStep, Agreed, Request, SwapUndisturbed, Inv, LegOf, HarmlessUpTo, Run, AllReliable,
         HandsOutReal, Told, Confuses, LiveOf;
    ToldApart(n, n1, from, to);
    if to in n.ctrl.robots { ToldApart(n, n1, to, from); }
    events := MisreadFails(n1, from, to, i, n.ctrl);
  }

  /** A swap that both robots agree to is safe, however the run goes on, if and only if no notification of a lost
      connection that would be taken for an answer to it is queued. */
  lemma SwapGuardExactly(n: Network, from: nat, to: nat, l: SwapLosses)
    requires NetInv(n) && Linked(n.ctrl.robots, n.robots) && n.ctrl.running && from in n.ctrl.robots
    requires Agreed(n.ctrl, from, to, Request(n, from, to, l))
    ensures AlwaysReal(NetStep(n, SwapRequest(from, to, l))) <==> SwapUndisturbed(n, from, to)
    ensures NetInv(NetStep(n, SwapRequest(from, to, l))) <==> SwapUndisturbed(n, from, to)
  {
    hide NetInv, NetStep, Agreed, SwapUndisturbed, Request, AlwaysReal;
    var n1 := NetStep(n, SwapRequest(from, to, l));
    if SwapUndisturbed(n, from, to) {
      NetStepKeeps(n, SwapRequest(from, to, l));
      AlwaysRealByInv(n1);
    } else {
      var events := ConfusedSwapFails(n, from, to, l);
      FailsBy(n1, events);
    }
  }

  // ------------------------------------------------------------------ the guard of a reconfiguration

  lemma RefitCtrl(n: Network, p: nat, caps: set<string>)
    requires Linked(n.ctrl.robots, n.robots) && n.ctrl.running && p in n.ctrl.robots
    requires !n.ctrl.robots[p].pending && BodyAt(n, p).available && R.ReconfigureAccepts(BodyAt(n, p), caps)
    ensures var n' := NetStep(n, ReconfigureRequest(p, caps, false, false));
            && n'.ctrl == ReconfigureRobot(n.ctrl, p, Answer(true), Answer(true)) && p in n'.ctrl.robots
            && n'.ctrl.running && (Live(n.ctrl, p) ==> Live(n'.ctrl, p))
            && BodyAt(n', p) == R.ReconfigureCall(BodyAt(n, p), caps)
  {
    hide R.ReconfigureCall, R.ReconfigureAccepts, Fresh;
  }

  /** A request that the robot agrees to. */
  lemma AgreedRefit(n: Network, p: nat, caps: set<string>)
    requires WorldInv(Core(n)) && Linked(n.ctrl.robots, n.robots) && n.ctrl.running && p in n.ctrl.robots
    requires !n.ctrl.robots[p].pending && BodyAt(n, p).available && R.ReconfigureAccepts(BodyAt(n, p), caps)
    ensures var n' := NetStep(n, ReconfigureRequest(p, caps, false, false));
            && n'.ctrl == ReconfigureRobot(n.ctrl, p, Answer(true), Answer(true))
            && WorldInv(Core(n')) && n'.ctrl.running && n'.queue == n.queue
            && (Live(n.ctrl, p) ==> Live(n'.ctrl, p)) && p in n'.ctrl.robots && Busy(BodyAt(n', p))
  {
    var e := ReconfigureRequest(p, caps, false, false);
    PostsNothing(n, e);
    RefitCtrl(n, p, caps);
    Unflagged(Core(n), p);
    PlainCore(n, e);
    SwapTheorems.StepKeeps(Core(n), e);
    hide WorldInv, Inv, FreeOk, LiveOf, NetStep, Step, R.ReconfigureCall, R.ReconfigureAccepts, Live,
         ReconfigureRobot, LegOf;
    ReconfigureLeg(BodyAt(n, p), caps);
  }

  lemma {:induction false} FirstMistaken(n: Network, p: nat, m: nat) returns (i: nat)
    requires m < |n.queue| && Mistakes(n, p, m)
    ensures i < |n.queue| && Mistakes(n, p, i) && forall j :: 0 <= j < i ==> !Mistakes(n, p, j)
    decreases m
  {
    hide Mistakes;
    if j :| 0 <= j < m && Mistakes(n, p, j) { i := FirstMistaken(n, p, j); } else { i := m; }
  }

  /** The notification would be taken for the end of the reconfiguration of the robot at the position. */
  predicate Mistakes(n: Network, p: nat, i: nat)
    requires i < |n.queue|
  {
    n.queue[i].stale && n.queue[i].callback.Reconfigured? && n.queue[i].callback.position == p && Live(n.ctrl, p)
  }

  /** A reconfiguration over a notification that is taken for its end: the controller comes to hand out a robot that is
      reconfiguring. */
  lemma MistakenEndFails(n: Network, p: nat, caps: set<string>) returns (events: seq<Event>)
    requires NetInv(n) && Linked(n.ctrl.robots, n.robots) && n.ctrl.running && p in n.ctrl.robots
    requires !n.ctrl.robots[p].pending && BodyAt(n, p).available && R.ReconfigureAccepts(BodyAt(n, p), caps)
    requires !ReconfigurationUndisturbed(n, p)
    ensures var n1 := NetStep(n, ReconfigureRequest(p, caps, false, false));
            AllReliable(n1, events) && !HandsOutReal(Run(n1, events).ctrl, Run(n1, events).robots)
  {
    var m :| 0 <= m < |n.queue| && n.queue[m].stale &&
        n.queue[m].callback.Reconfigured? && n.queue[m].callback.position == p && Live(n.ctrl, p);
    assert Mistakes(n, p, m);
    var i := FirstMistaken(n, p, m);
    var n1 := NetStep(n, ReconfigureRequest(p, caps, false, false));
    AgreedRefit(n, p, caps);
    hide WorldInv, NetStep, ReconfigureRobot, Harmless, R.ReconfigureAccepts, Busy, LiveOf, Run, AllReliable,
         HandsOutReal, ReconfigurationUndisturbed;
    forall j | 0 <= j < i && n1.queue[j].stale ensures Harmless(n1.ctrl, n1.queue[j].callback) {
      assert !Mistakes(n, p, j);
      ReconfigureHarmless(n.ctrl, p, Answer(true), Answer(true), n.queue[j].callback);
    }
    events := EarlyFails(n1, i, p);
  }

  /** A reconfiguration that the robot agrees to is safe, however the run goes on, if and only if no notification of a
      lost connection that would be taken for its end is queued. */
  lemma ReconfigurationGuardExactly(n: Network, p: nat, caps: set<string>)
    requires NetInv(n) && Linked(n.ctrl.robots, n.robots) && n.ctrl.running && p in n.ctrl.robots
    requires !n.ctrl.robots[p].pending && BodyAt(n, p).available && R.ReconfigureAccepts(BodyAt(n, p), caps)
    ensures var n1 := NetStep(n, ReconfigureRequest(p, caps, false, false));
            (AlwaysReal(n1) <==> ReconfigurationUndisturbed(n, p)) &&
            (NetInv(n1) <==> ReconfigurationUndisturbed(n, p))
  {
    hide NetInv, NetStep, ReconfigurationUndisturbed, R.ReconfigureAccepts, AlwaysReal;
    var n1 := NetStep(n, ReconfigureRequest(p, caps, false, false));
    if ReconfigurationUndisturbed(n, p) {
      NetStepKeeps(n, ReconfigureRequest(p, caps, false, false));
      AlwaysRealByInv(n1);
    } else {
      var events := MistakenEndFails(n, p, caps);
      FailsBy(n1, events);
    }
  }

  // ------------------------------------------------------------------ the guard of a registration

  lemma NewlyFiled(n: Network, id: nat, readLost: bool, commitLost: bool)
    requires Linked(n.ctrl.robots, n.robots) && n.ctrl.running && id < |n.robots|
    requires Accepted(n.ctrl, n.robots[id].position, true)
    ensures var n', s := NetStep(n, Register(id, true, readLost, commitLost)), n.robots[id];
            && s.position in n'.ctrl.robots && n'.ctrl.robots[s.position].position == s.position
            && !n'.ctrl.robots[s.position].pending
            && BodyAt(n', s.position) == if s.commitPending && !readLost && !commitLost then R.CommitCall(s) else s
  {
    var w, s := World(n.ctrl, n.robots, []), n.robots[id];
    var told := s.commitPending && !readLost && !commitLost;
    hide LegOf, R.CommitCall, RemoveStopped, EraseStale, Swapping, RegisterStep, Fresh;
    Registered(w, id, true, readLost, commitLost, readLost || (s.commitPending && commitLost),
               if told then R.CommitCall(s) else s);
  }

  /** A second commit queues a second continuation. */
  lemma CommitTwice(s: R.State)
    requires Inv(s) && LegOf(s).Committing?
    ensures s.commitPending && !Inv(R.CommitCall(s))
  {
    ControlAppend(s.tasks, R.CommitPosition);
    QueuedControl(s.tasks);
    hide DishOk, LoadOk, OrdersOk, TasksOk, WellFormed, Control, ModeOk;
  }

  lemma {:induction false} QueuedControl(tasks: seq<R.Task>)
    requires R.CommitPosition in tasks
    ensures R.CommitPosition in Control(tasks)
  {
    if tasks[0] != R.CommitPosition { QueuedControl(tasks[1..]); }
  }

  lemma BodyPosition(s: R.State)
    requires BodyOk(s)
    ensures s.position != 0
  {
    if Inv(s) { PositionReal(s); }
    hide Inv;
  }

  /** A robot that registers while it adapts, or that is committed twice, is handed out at once. */
  lemma UnfitFails(n: Network, id: nat, readLost: bool, commitLost: bool)
    requires NetInv(n) && Linked(n.ctrl.robots, n.robots) && n.ctrl.running && id < |n.robots|
    requires Accepted(n.ctrl, n.robots[id].position, true) && !Registrable(n.robots[id], readLost, commitLost)
    ensures var n1 := NetStep(n, Register(id, true, readLost, commitLost)); !HandsOutReal(n1.ctrl, n1.robots)
  {
    var n1, s := NetStep(n, Register(id, true, readLost, commitLost)), n.robots[id];
    BodyOf(Core(n), id);
    BodyPosition(s);
    NewlyFiled(n, id, readLost, commitLost);
    if LegOf(s).Committing? { CommitTwice(s); } else { UncommittedRests(s); }
    hide NetInv, NetStep, Inv, LegOf, R.CommitCall, BodyOk, Accepted;
    assert NextRobotReply(n1.ctrl, s.position) == s.position;
    assert !Dependable(n1.ctrl.robots[s.position], BodyAt(n1, s.position));
  }

  /** An accepted registration is safe, however the run goes on, if and only if the robot is not adapting and is not
      told to commit a second time. */
  lemma RegistrationGuardExactly(n: Network, id: nat, readLost: bool, commitLost: bool)
    requires NetInv(n) && Linked(n.ctrl.robots, n.robots) && n.ctrl.running && id < |n.robots|
    requires Accepted(n.ctrl, n.robots[id].position, true)
    ensures var n1, fit := NetStep(n, Register(id, true, readLost, commitLost)),
            Registrable(n.robots[id], readLost, commitLost);
            (AlwaysReal(n1) <==> fit) && (NetInv(n1) <==> fit)
  {
    var e := Register(id, true, readLost, commitLost);
    var n1 := NetStep(n, e);
    if Registrable(n.robots[id], readLost, commitLost) {
      assert Reliable(n, e);
      NetStepKeeps(n, e);
      AlwaysRealByInv(n1);
    } else {
      UnfitFails(n, id, readLost, commitLost);
      FailsBy(n1, []);
    }
    hide NetInv, NetStep, Reliable, Registrable, Accepted, AlwaysReal, HandsOutReal;
  }
}
