/** Runs from the start: a swap that strands, a controller that stops, and what happens without two of the things the
    protocol relies on. */
module SwapAccidents {
  import opened Basics
  import opened Recipes
  import R = Robot
  import opened RobotLegs
  import opened RobotJourney
  import opened Controller
  import opened SwapProtocol
  import opened SwapNetwork
  import opened SwapProgress

  ghost predicate Reaches(n0: Network, events: seq<Event>, n: Network)
  {
    && Linked(n0.ctrl.robots, n0.robots)
    && AllReliable(n0, events) && Run(n0, events) == n
  }

  lemma Extend(n0: Network, events: seq<Event>, n: Network, e: Event, n': Network)
    requires Reaches(n0, events, n) && Linked(n.ctrl.robots, n.robots) && Reliable(n, e) && NetStep(n, e) == n'
    ensures Reaches(n0, events + [e], n')
  {
    hide Reliable, NetStep;
    RunAppend(n0, events, e);
  }

  // ------------------------------------------------------------------ one robot and the controller

  /** Nobody is registered. */
  function Nobody(): Ctrl { Ctrl(map[], map[], 0, true) }

  function Peeler(id: nat, at: nat, pending: bool, stopped: bool): Remote { Remote(id, at, {"peel"}, pending, stopped) }

  /** One robot is registered from position 1. */
  function One(id: nat): Ctrl { Ctrl(map[1 := Peeler(id, 1, false, false)], map[], 1, true) }

  /** It is moving to position 2, where nobody is registered. */
  function Leaving(id: nat, at: nat, stopped: bool): Ctrl
  {
    Ctrl(map[1 := Peeler(id, at, true, stopped)], map[(1, 2) := Swap(false, true)], 1, true)
  }

  function Lossless(): SwapLosses { SwapLosses(false, false, false, false) }

  lemma NobodyHousekept()
    ensures EraseStale(RemoveStopped(Nobody())) == Nobody()
  {
    var c := Nobody();
    assert StoppedOnes(c.robots) == {};
    assert RemoveStopped(c) == c;
  }

  lemma RegistersOne(n: Network, id: nat)
    requires n.ctrl == Nobody() && id < |n.robots|
    requires var s := n.robots[id]; s.position == 1 && s.caps == {"peel"} && !s.commitPending
    ensures NetStep(n, Register(id, true, false, false)) == n.(ctrl := One(id))
  {
    NobodyHousekept();
    var s := n.robots[id];
    var c1, r := Nobody(), Peeler(id, 1, false, false);
    var a := RegistrationAnswers(true, Answer(false), Answer(R.CommitAccepts(s)));
    assert Registers(c1, 1, a);
    assert c1.robots[1 := r] == map[1 := r];
    assert ResolveMissedCommit(One(id), 1, a) == One(id);
    assert HandleRegistration(n.ctrl, id, 1, s.caps, a) ==
        One(id) by { hide RemoveStopped, EraseStale, ResolveMissedCommit; }
    assert n.queue + [] == n.queue;
    hide HandleRegistration, Registers, RemoveStopped, EraseStale, R.CommitAccepts, R.CommitCall;
  }

  lemma AsksToLeave(n: Network, id: nat)
    requires n.ctrl == One(id) && id < |n.robots| && n.robots[id] == Free(1)
    ensures Linked(n.ctrl.robots, n.robots)
    ensures NetStep(n, SwapRequest(1, 2, Lossless())) ==
            n.(ctrl := Leaving(id, 1, false), robots := n.robots[id := Sent()])
  {
    Departs();
    assert R.SwitchCall(Free(1), 2) == Sent() && R.SwitchAccepts(Free(1), 2);
    var a := SwapAnswers(Answer(true), Failed, Answer(true), Failed);
    assert SwapAnswersOf(World(n.ctrl, n.robots, []), 1, 2, Lossless()) == a by { hide R.SwitchAccepts; }
    LeavesOne(id, a);
    assert n.queue + [] == n.queue;
    hide SwapRobotPositions, SwapAnswersOf, R.SwitchCall, R.SwitchAccepts, Free, Sent, Leaving;
  }

  lemma LeavesOne(id: nat, a: SwapAnswers)
    requires a == SwapAnswers(Answer(true), Failed, Answer(true), Failed)
    ensures SwapStarts(One(id), 1, 2, a) && SwapRobotPositions(One(id), 1, 2, a) == Leaving(id, 1, false)
  {
    var c := One(id);
    assert !Swapping(c.swaps, 1) && !Swapping(c.swaps, 2);
    assert c.robots[1 := Peeler(id, 1, true, false)] == map[1 := Peeler(id, 1, true, false)];
    assert c.swaps[(1, 2) := Swap(false, true)] == map[(1, 2) := Swap(false, true)];
    hide Swapping;
  }

  lemma ReportsArrival(n: Network, id: nat)
    requires n.ctrl == Leaving(id, 1, false) && id < |n.robots| && n.robots[id].position == 2
    ensures Linked(n.ctrl.robots, n.robots)
    ensures NetStep(n, NotifyPosition(1)) ==
            n.(ctrl := Leaving(id, 2, false), queue := n.queue + [Posted(Swapped(id, 1, 2), false)])
  {
    var r := Peeler(id, 2, true, false);
    assert n.ctrl.robots[1 := r] == map[1 := r];
    var cb := Swapped(id, 1, 2);
    assert [] + [cb] == [cb] && [cb][1..] == [];
    assert Fresh([cb]) == [Posted(cb, false)] + Fresh([]);
  }

  lemma BreaksDown(n: Network, id: nat, at: nat)
    requires n.ctrl == Leaving(id, at, false) && Linked(n.ctrl.robots, n.robots)
    ensures NetStep(n, Lose(1)) == n.(ctrl := Leaving(id, at, true), queue := MarkStale(n.queue, id))
  {
    var r := Peeler(id, at, true, true);
    assert n.ctrl.robots[1 := r] == map[1 := r];
    hide MarkStale;
  }

  lemma IsForgotten(n: Network, id: nat, at: nat)
    requires n.ctrl == Leaving(id, at, true) && Linked(n.ctrl.robots, n.robots)
    ensures NetStep(n, Housekeeping) == n.(ctrl := Nobody())
  {
    LeavingForgotten(id, at);
    assert n.queue + [] == n.queue;
    hide RemoveStopped, EraseStale;
  }

  lemma LeavingForgotten(id: nat, at: nat)
    ensures EraseStale(RemoveStopped(Leaving(id, at, true))) == Nobody()
  {
    var c := Leaving(id, at, true);
    var c1 := RemoveStopped(c);
    assert c1.robots == map[];
    assert c1.registered == 0 by { assert StoppedOnes(c.robots) == {1}; }
    assert c1.running;
    hide RemoveStopped;
    assert EraseStale(c1).swaps == map[];
  }

  // ------------------------------------------------------------------ on the way

  lemma Goes(n0: Network, events: seq<Event>, n: Network, id: nat, s: R.State, e: R.Event, s': R.State)
    returns (more: seq<Event>)
    requires Reaches(n0, events, n) && Linked(n.ctrl.robots, n.robots) && id < |n.robots| && n.robots[id] == s
    requires R.Step(s, e) == s' && OwnEvent(e) && R.Admissible(s, e)
    ensures Reaches(n0, more, n.(robots := n.robots[id := s']))
  {
    Moves(n, id, e);
    hide Reaches, NetStep, R.Step, R.Admissible;
    Extend(n0, events, n, RobotEvent(id, e), n.(robots := n.robots[id := s']));
    more := events + [RobotEvent(id, e)];
  }

  /** From the request to the arrival, while nobody else does anything. */
  lemma Arrival(n0: Network, events: seq<Event>, n: Network, id: nat) returns (more: seq<Event>)
    requires Reaches(n0, events, n) && Linked(n.ctrl.robots, n.robots) && id < |n.robots| && n.robots[id] == Underway()
    ensures Reaches(n0, more, n.(robots := n.robots[id := Landed()]))
  {
    var moving := Underway().(timer := None, tasks := [R.Expired(R.Moving)]);
    Arrives();
    var m := n.(robots := n.robots[id := moving]);
    assert m.robots[id := Landed()] == n.robots[id := Landed()];
    hide Reaches, R.Step, Underway, Landed;
    more := Goes(n0, events, n, id, Underway(), R.TimerExpires, moving);
    more := Goes(n0, more, m, id, moving, R.RunTask(PEELER), Landed());
  }

  lemma Departure(n0: Network, events: seq<Event>, n: Network, id: nat) returns (more: seq<Event>)
    requires Reaches(n0, events, n) && Linked(n.ctrl.robots, n.robots) && id < |n.robots| && n.robots[id] == Sent()
    ensures Reaches(n0, more, n.(robots := n.robots[id := Underway()]))
  {
    Departs();
    hide Reaches, R.Step, Underway, Sent;
    more := Goes(n0, events, n, id, Sent(), R.RunTask(PEELER), Underway());
  }

  // ------------------------------------------------------------------ a notification that outlives its connection

  /** A robot has moved to position 2, reported it, and broken down. */
  function Reported(robots: seq<R.State>, stale: bool): Network
  {
    Network(Leaving(0, 2, stale), robots, [Posted(Swapped(0, 1, 2), stale)])
  }

  lemma StaleMention(id: nat, robots: seq<R.State>)
    requires Linked(One(id).robots, robots)
    ensures !Reliable(Network(One(id), robots, [Posted(Swapped(0, 1, 2), true)]), SwapRequest(1, 2, Lossless()))
  {
    var n := Network(One(id), robots, [Posted(Swapped(0, 1, 2), true)]);
    assert n.queue[0].stale && Confuses(n.ctrl, n.queue[0].callback, 1, 2);
  }

  lemma Settled()
    ensures LegOf(Free(1)).Settled? && LegOf(Underway()).Heading?
    ensures Free(1).position == 1 && Underway().position == 1 && Landed().position == 2
    ensures Free(1).caps == Underway().caps == {"peel"} && !Free(1).commitPending && !Underway().commitPending
  {
  }

  /** The first robot leaves for position 2. */
  lemma FirstLeaves(n0: Network, other: R.State) returns (events: seq<Event>)
    requires n0 == Network(Nobody(), [Free(1), other], [])
    ensures Reaches(n0, events, Network(Leaving(0, 1, false), [Underway(), other], []))
  {
    Settled();
    var n1, n2 := n0.(ctrl := One(0)), Network(Leaving(0, 1, false), [Sent(), other], []);
    RegistersOne(n0, 0);
    AsksToLeave(n1, 0);
    assert n0.robots[0 := Sent()] == [Sent(), other] && [Sent(), other][0 := Underway()] == [Underway(), other];
    assert Reaches(n0, [], n0);
    hide Reaches, NetStep, LegOf, Free, Underway, Sent;
    Extend(n0, [], n0, Register(0, true, false, false), n1);
    Extend(n0, [] + [Register(0, true, false, false)], n1, SwapRequest(1, 2, Lossless()), n2);
    events := Departure(n0, [] + [Register(0, true, false, false)] + [SwapRequest(1, 2, Lossless())], n2, 0);
  }

  /** It reports its arrival, breaks down before that is handled, and is forgotten. */
  lemma BreaksDownAfterReport(n0: Network, events: seq<Event>, other: R.State) returns (more: seq<Event>)
    requires Reaches(n0, events, Network(Leaving(0, 1, false), [Underway(), other], []))
    ensures Reaches(n0, more, Network(Nobody(), [Landed(), other], [Posted(Swapped(0, 1, 2), true)]))
  {
    Settled();
    var robots := [Landed(), other];
    var n1, n2, n3 := Network(Leaving(0, 1, false), robots, []), Reported(robots, false), Reported(robots, true);
    assert [Underway(), other][0 := Landed()] == robots;
    ReportsArrival(n1, 0);
    assert [] + [Posted(Swapped(0, 1, 2), false)] == [Posted(Swapped(0, 1, 2), false)];
    BreaksDown(n2, 0, 2);
    MarkedOne();
    IsForgotten(n3, 0, 2);
    hide Reaches, NetStep, LegOf, Underway, Landed, MarkStale;
    more := Arrival(n0, events, Network(Leaving(0, 1, false), [Underway(), other], []), 0);
    Extend(n0, more, n1, NotifyPosition(1), n2);
    Extend(n0, more + [NotifyPosition(1)], n2, Lose(1), n3);
    Extend(n0, more + [NotifyPosition(1)] + [Lose(1)], n3, Housekeeping, n3.(ctrl := Nobody()));
    more := more + [NotifyPosition(1)] + [Lose(1)] + [Housekeeping];
  }

  lemma MarkedOne()
    ensures MarkStale([Posted(Swapped(0, 1, 2), false)], 0) == [Posted(Swapped(0, 1, 2), true)]
  {
    var queue := [Posted(Swapped(0, 1, 2), false)];
    assert queue[1..] == [];
    assert MarkStale(queue, 0) == [Posted(Swapped(0, 1, 2), true)] + MarkStale([], 0);
  }

  /** The notification is taken for the acknowledgement of the robot that has just been sent. */
  lemma TakenForAnother(n: Network)
    requires n.ctrl == Leaving(1, 1, false) && |n.robots| == 2 && n.robots[1] == Sent()
    requires n.queue == [Posted(Swapped(0, 1, 2), true)]
    ensures Linked(n.ctrl.robots, n.robots)
    ensures NetStep(n, HandleCallback(false, false)) == Network(One(1), n.robots, [])
  {
    var c := Leaving(1, 1, false);
    NoneForgotten();
    Released();
    assert R.CommitCall(Sent()) == Sent();
    assert n.queue[1..] == [];
    CommittedSame(c.robots, n.robots);
    hide RemoveStopped, EraseStale, Acknowledge, CompletesSwap, Sent, R.CommitCall, Committed;
  }

  lemma NoneForgotten()
    ensures EraseStale(RemoveStopped(Leaving(1, 1, false))) == Leaving(1, 1, false)
  {
    var c := Leaving(1, 1, false);
    assert StoppedOnes(c.robots) == {};
    assert RemoveStopped(c) == c;
  }

  lemma Released()
    ensures CompletesSwap(Leaving(1, 1, false), 1, 2)
    ensures Acknowledge(Leaving(1, 1, false), 1, 2, Answer(true), Answer(true)) == One(1)
  {
    var c := Leaving(1, 1, false);
    assert (c.robots - {1, 2}) == map[];
    assert c.swaps[(1, 2) := Swap(true, true)] - {(1, 2)} == map[];
  }

  lemma CommittedSame(remotes: map<nat, Remote>, robots: seq<R.State>)
    requires remotes == Leaving(1, 1, false).robots && |robots| == 2 && R.CommitCall(robots[1]) == robots[1]
    ensures Committed(remotes, Committed(remotes, robots, 1, false), 2, false) == robots
  {
    assert robots[1 := robots[1]] == robots;
  }

  /** The second robot, which has taken the place of the first, is sent after it. */
  lemma SentAfter(n0: Network, events: seq<Event>) returns (more: seq<Event>, n: Network)
    requires Reaches(n0, events, Network(Nobody(), [Landed(), Free(1)], [Posted(Swapped(0, 1, 2), true)]))
    ensures Reaches(n0, more, n) && Linked(n.ctrl.robots, n.robots) && !Reliable(n, SwapRequest(1, 2, Lossless()))
    ensures NetStep(n, SwapRequest(1, 2, Lossless())) ==
              Network(Leaving(1, 1, false), [Landed(), Sent()], [Posted(Swapped(0, 1, 2), true)])
  {
    Settled();
    var robots := [Landed(), Free(1)];
    var m := Network(Nobody(), robots, [Posted(Swapped(0, 1, 2), true)]);
    n := m.(ctrl := One(1));
    RegistersOne(m, 1);
    AsksToLeave(n, 1);
    StaleMention(1, robots);
    assert robots[1 := Sent()] == [Landed(), Sent()];
    hide Reaches, NetStep, LegOf, Free, Sent, Landed;
    Extend(n0, events, m, Register(1, true, false, false), n);
    more := events + [Register(1, true, false, false)];
  }

  lemma WrongPlace(n1: Network) returns (events: seq<Event>)
    requires n1 == Network(Leaving(1, 1, false), [Landed(), Sent()], [Posted(Swapped(0, 1, 2), true)])
    ensures Reaches(n1, events, Network(One(1), [Landed(), Landed()], []))
  {
    var n2 := Network(One(1), [Landed(), Sent()], []);
    TakenForAnother(n1);
    assert Reaches(n1, [], n1);
    hide Reaches, NetStep, LegOf, Sent, Underway, Landed;
    var here := Landed();
    Extend(n1, [], n1, HandleCallback(false, false), n2);
    assert [here, Sent()][1 := Underway()] == [here, Underway()] && [here, Underway()][1 := here] == [here, here];
    events := Departure(n1, [] + [HandleCallback(false, false)], n2, 1);
    events := Arrival(n1, events, n2.(robots := [here, Underway()]), 1);
  }

  /** From the start, with two robots: a run in which only one step is unreliable, a swap that is requested while the
      notification of a robot that broke down is still queued, and after which the controller hands out a position where
      the robot is not. */
  lemma StaleRun(n0: Network) returns (before: seq<Event>, after: seq<Event>)
    requires n0 == Network(Nobody(), [Free(1), Free(1)], [])
    ensures AllReliable(n0, before) && !Reliable(Run(n0, before), SwapRequest(1, 2, Lossless()))
    ensures var n1 := NetStep(Run(n0, before), SwapRequest(1, 2, Lossless()));
            && AllReliable(n1, after)
            && var n := Run(n1, after); NextRobotReply(n.ctrl, 1) == 1 && BodyAt(n, 1).position == 2
  {
    var n: Network;
    before := FirstLeaves(n0, Free(1));
    before := BreaksDownAfterReport(n0, before, Free(1));
    before, n := SentAfter(n0, before);
    after := WrongPlace(NetStep(n, SwapRequest(1, 2, Lossless())));
    Settled();
    hide NetStep, Reliable, Run, AllReliable, Free, Landed;
  }

  // ------------------------------------------------------------------ a robot that registers while it moves

  lemma LostOnTheWay(n0: Network, events: seq<Event>, other: R.State) returns (more: seq<Event>, n: Network)
    requires Reaches(n0, events, Network(Leaving(0, 1, false), [Underway(), other], []))
    ensures n == Network(Nobody(), [Underway(), other], []) && Reaches(n0, more, n)
    ensures !Reliable(n, Register(0, true, false, false))
    ensures NetStep(n, Register(0, true, false, false)) == n.(ctrl := One(0))
  {
    Settled();
    var m := Network(Leaving(0, 1, false), [Underway(), other], []);
    var m1 := m.(ctrl := Leaving(0, 1, true));
    n := m.(ctrl := Nobody());
    BreaksDown(m, 0, 1);
    IsForgotten(m1, 0, 1);
    RegistersOne(n, 0);
    NobodyHousekept();
    assert !Swapping(Nobody().swaps, 1);
    assert MarkStale([], 0) == [];
    hide Reaches, NetStep, LegOf, Underway, MarkStale, RemoveStopped, EraseStale, Swapping;
    Extend(n0, events, m, Lose(1), m1);
    Extend(n0, events + [Lose(1)], m1, Housekeeping, n);
    more := events + [Lose(1)] + [Housekeeping];
  }

  /** From the start: a run in which only one step is unreliable, a robot that registers while it moves because its
      connection was lost, and after which the controller hands out a position where the robot is not. */
  lemma TravellerRun(n0: Network, other: R.State) returns (before: seq<Event>, after: seq<Event>)
    requires n0 == Network(Nobody(), [Free(1), other], [])
    ensures AllReliable(n0, before) && !Reliable(Run(n0, before), Register(0, true, false, false))
    ensures var n1 := NetStep(Run(n0, before), Register(0, true, false, false));
            && AllReliable(n1, after)
            && var n := Run(n1, after); NextRobotReply(n.ctrl, 1) == 1 && BodyAt(n, 1).position == 2
  {
    var n: Network;
    before := FirstLeaves(n0, other);
    before, n := LostOnTheWay(n0, before, other);
    var n1 := n.(ctrl := One(0));
    assert Reaches(n1, [], n1);
    after := Arrival(n1, [], n1, 0);
    Settled();
    hide NetStep, Reliable, Run, AllReliable, Free, Underway, Landed;
  }

  // ------------------------------------------------------------------ a swap that strands

  /** Two robots are registered, at positions 1 and 2. */
  function Two(): Ctrl { Ctrl(map[1 := Peeler(0, 1, false, false), 2 := Peeler(1, 2, false, false)], map[], 2, true) }

  /** They have been told to change places. */
  function Changing(at: nat, acked: bool, lost: bool): Ctrl
  {
    Ctrl(map[1 := Peeler(0, at, true, false), 2 := Peeler(1, 2, true, lost)], map[(1, 2) := Swap(acked, false)], 2,
        true)
  }

  function SentBack(): R.State { R.SwitchCall(Free(2), 1) }

  lemma RegistersSecond(n: Network)
    requires n.ctrl == One(0) && |n.robots| == 2 && n.robots[1] == Free(2)
    ensures NetStep(n, Register(1, true, false, false)) == n.(ctrl := Two())
  {
    var s, c1 := Free(2), One(0);
    assert s.position == 2 && s.caps == {"peel"} && !s.commitPending;
    OneHousekept();
    var a := RegistrationAnswers(true, Answer(false), Answer(R.CommitAccepts(s)));
    assert Registers(c1, 2, a);
    assert c1.robots[2 := Peeler(1, 2, false, false)] == Two().robots;
    assert ResolveMissedCommit(Two(), 2, a) == Two();
    assert HandleRegistration(n.ctrl, 1, 2, s.caps, a) ==
        Two() by { hide RemoveStopped, EraseStale, ResolveMissedCommit; }
    assert n.queue + [] == n.queue;
    hide HandleRegistration, Registers, RemoveStopped, EraseStale, R.CommitAccepts, R.CommitCall, Free;
  }

  lemma OneHousekept()
    ensures EraseStale(RemoveStopped(One(0))) == One(0)
  {
    var c := One(0);
    assert StoppedOnes(c.robots) == {};
    assert RemoveStopped(c) == c;
  }

  lemma AsksBoth(n: Network)
    requires n.ctrl == Two() && n.robots == [Free(1), Free(2)]
    ensures Linked(n.ctrl.robots, n.robots)
    ensures NetStep(n, SwapRequest(1, 2, Lossless())) ==
            n.(ctrl := Changing(1, false, false), robots := [Sent(), SentBack()])
  {
    Departs();
    assert R.SwitchCall(Free(1), 2) == Sent() && R.SwitchAccepts(Free(1), 2) && R.SwitchAccepts(Free(2), 1);
    var yes := Answer(true);
    var a := SwapAnswers(yes, yes, yes, yes);
    assert SwapAnswersOf(World(n.ctrl, n.robots, []), 1, 2, Lossless()) == a by { hide R.SwitchAccepts; }
    BothLeave(a);
    assert n.queue + [] == n.queue;
    assert n.robots[0 := Sent()][1 := SentBack()] == [Sent(), SentBack()];
    hide SwapRobotPositions, SwapAnswersOf, R.SwitchCall, R.SwitchAccepts, Free, Sent, Changing;
  }

  lemma BothLeave(a: SwapAnswers)
    requires var yes := Answer(true); a == SwapAnswers(yes, yes, yes, yes)
    ensures SwapStarts(Two(), 1, 2, a) && SwapRobotPositions(Two(), 1, 2, a) == Changing(1, false, false)
  {
    var c := Two();
    assert !Swapping(c.swaps, 1) && !Swapping(c.swaps, 2);
    assert c.robots[1 := Peeler(0, 1, true, false)][2 := Peeler(1, 2, true, false)] == Changing(1, false, false).robots;
    assert c.swaps[(1, 2) := Swap(false, false)] == map[(1, 2) := Swap(false, false)];
    hide Swapping;
  }

  lemma FirstReports(n: Network)
    requires n.ctrl == Changing(1, false, false) && |n.robots| == 2 && n.robots[0].position == 2
    ensures Linked(n.ctrl.robots, n.robots)
    ensures NetStep(n, NotifyPosition(1)) ==
              n.(ctrl := Changing(2, false, false), queue := n.queue + [Posted(Swapped(0, 1, 2), false)])
  {
    assert n.ctrl.robots[1 := Peeler(0, 2, true, false)] == Changing(2, false, false).robots;
    var cb := Swapped(0, 1, 2);
    assert [] + [cb] == [cb] && [cb][1..] == [];
    assert Fresh([cb]) == [Posted(cb, false)] + Fresh([]);
  }

  lemma FirstAcknowledged(n: Network)
    requires n.ctrl == Changing(2, false, false) && |n.robots| == 2 && n.queue == [Posted(Swapped(0, 1, 2), false)]
    ensures Linked(n.ctrl.robots, n.robots)
    ensures NetStep(n, HandleCallback(false, false)) == n.(ctrl := Changing(2, true, false), queue := [])
  {
    var c := Changing(2, false, false);
    assert StoppedOnes(c.robots) == {};
    assert RemoveStopped(c) == c && EraseStale(c) == c;
    assert c.swaps[(1, 2) := Swap(true, false)] == map[(1, 2) := Swap(true, false)];
    assert !CompletesSwap(c, 1, 2) && Acknowledge(c, 1, 2, Answer(true), Answer(true)) == Changing(2, true, false);
    assert n.queue[1..] == [];
    hide RemoveStopped, EraseStale, Acknowledge, CompletesSwap, Committed;
  }

  lemma SecondLost(n: Network)
    requires n.ctrl == Changing(2, true, false) && |n.robots| == 2 && n.queue == []
    ensures Linked(n.ctrl.robots, n.robots)
    ensures NetStep(n, Lose(2)) == n.(ctrl := Changing(2, true, true))
    ensures Stranded(n.(ctrl := Changing(2, true, true)), (1, 2), 1)
  {
    var c := Changing(2, true, true);
    assert n.ctrl.robots[2 := Peeler(1, 2, true, true)] == c.robots;
    assert MarkStale([], 1) == [];
    assert (1, 2) in c.swaps && Involves((1, 2), 1) && Partner((1, 2), 1) == 2;
  }

  lemma BothSent(n0: Network) returns (events: seq<Event>)
    requires n0 == Network(Nobody(), [Free(1), Free(2)], [])
    ensures Reaches(n0, events, Network(Changing(1, false, false), [Underway(), SentBack()], []))
  {
    Settled();
    var n1, n2 := n0.(ctrl := One(0)), n0.(ctrl := Two());
    var n3 := Network(Changing(1, false, false), [Sent(), SentBack()], []);
    RegistersOne(n0, 0);
    RegistersSecond(n1);
    AsksBoth(n2);
    RegistersSettled();
    assert n3.robots[0 := Underway()] == [Underway(), SentBack()];
    assert Reaches(n0, [], n0);
    hide Reaches, NetStep, LegOf, Free, Underway, Sent, SentBack;
    Extend(n0, [], n0, Register(0, true, false, false), n1);
    Extend(n0, [] + [Register(0, true, false, false)], n1, Register(1, true, false, false), n2);
    events := [] + [Register(0, true, false, false)] + [Register(1, true, false, false)];
    Extend(n0, events, n2, SwapRequest(1, 2, Lossless()), n3);
    events := Departure(n0, events + [SwapRequest(1, 2, Lossless())], n3, 0);
  }

  lemma RegistersSettled()
    ensures LegOf(Free(2)).Settled?
  {
  }

  /** From the start, every step of it reliable: a run that ends with a stranded swap. One robot has moved, and its
      report has been handled; then the other one breaks down. */
  lemma StrandedRun(n0: Network) returns (events: seq<Event>)
    requires n0 == Network(Nobody(), [Free(1), Free(2)], [])
    ensures AllReliable(n0, events) && Stranded(Run(n0, events), (1, 2), 1)
  {
    Settled();
    var sent := Network(Changing(1, false, false), [Underway(), SentBack()], []);
    var there := sent.(robots := [Landed(), SentBack()]);
    var reported := there.(ctrl := Changing(2, false, false), queue := [Posted(Swapped(0, 1, 2), false)]);
    var handled := there.(ctrl := Changing(2, true, false));
    assert sent.robots[0 := Landed()] == there.robots;
    assert [] + [Posted(Swapped(0, 1, 2), false)] == [Posted(Swapped(0, 1, 2), false)];
    FirstReports(there);
    FirstAcknowledged(reported);
    SecondLost(handled);
    hide NetStep, LegOf, Underway, Landed, SentBack, Free, Stranded, MarkStale;
    events := BothSent(n0);
    events := Arrival(n0, events, sent, 0);
    hide Reaches;
    Extend(n0, events, there, NotifyPosition(1), reported);
    Extend(n0, events + [NotifyPosition(1)], reported, HandleCallback(false, false), handled);
    events := events + [NotifyPosition(1)] + [HandleCallback(false, false)];
    Extend(n0, events, handled, Lose(2), handled.(ctrl := Changing(2, true, true)));
    events := events + [Lose(2)];
    ReachedIs(n0, events, handled.(ctrl := Changing(2, true, true)));
  }

  lemma ReachedIs(n0: Network, events: seq<Event>, n: Network)
    requires Reaches(n0, events, n)
    ensures Linked(n0.ctrl.robots, n0.robots) && AllReliable(n0, events) && Run(n0, events) == n
  {
    hide Run, AllReliable;
  }

  // ------------------------------------------------------------------ a position that is not on the belt

  /** The only robot declines to move to a position that does not exist. */
  lemma AsksTooFar(n: Network, p: nat)
    requires n.ctrl == One(0) && n.robots == [Free(1), Free(2)] && (p == 0 || p >= 3)
    ensures Linked(n.ctrl.robots, n.robots)
    ensures NetStep(n, SwapRequest(1, p, Lossless())) == n.(ctrl := One(0).(running := false))
  {
    assert !R.SwitchAccepts(Free(1), p) && R.SwitchCall(Free(1), p) == Free(1);
    var a := SwapAnswers(Answer(true), Failed, Answer(false), Failed);
    assert SwapAnswersOf(World(n.ctrl, n.robots, []), 1, p, Lossless()) == a by { hide R.SwitchAccepts; }
    assert SwapStarts(One(0), 1, p, a) && SwapRobotPositions(One(0), 1, p, a) == One(0).(running := false) by {
      assert !Swapping(One(0).swaps, 1) && !Swapping(One(0).swaps, p);
    }
    assert n.robots[0 := Free(1)] == n.robots && n.queue + [] == n.queue;
    hide SwapRobotPositions, SwapAnswersOf, R.SwitchCall, R.SwitchAccepts, Free, SwapStarts;
  }

  /** From the start, every step of it reliable: a request for a swap with a position off the belt stops the
      controller. */
  lemma StopRun(n0: Network, p: nat) returns (events: seq<Event>)
    requires n0 == Network(Nobody(), [Free(1), Free(2)], []) && (p == 0 || p >= 3)
    ensures AllReliable(n0, events) && !Run(n0, events).ctrl.running
  {
    Settled();
    var n1, n2 := n0.(ctrl := One(0)), n0.(ctrl := One(0).(running := false));
    RegistersOne(n0, 0);
    AsksTooFar(n1, p);
    assert Reaches(n0, [], n0);
    hide Reaches, NetStep, LegOf, Free;
    Extend(n0, [], n0, Register(0, true, false, false), n1);
    Extend(n0, [] + [Register(0, true, false, false)], n1, SwapRequest(1, p, Lossless()), n2);
    events := [] + [Register(0, true, false, false)] + [SwapRequest(1, p, Lossless())];
    ReachedIs(n0, events, n2);
  }
}
