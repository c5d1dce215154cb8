/** A run from the start: the end of a reconfiguration that a lost connection had reported is taken for the end of
    the next one. */
module SwapMisread {
  import opened Basics
  import opened Recipes
  import R = Robot
  import opened RobotLegs
  import opened RobotJourney
  import opened Controller
  import opened SwapProtocol
  import opened SwapNetwork
  import opened SwapAccidents

  // ------------------------------------------------------------------ a robot that reconfigures

  /** At position 1, with nothing to do. */
  function Able(caps: set<string>): R.State { R.Initial(Book(), 3, 1, caps, PEELER) }

  function Told(caps: set<string>, goal: set<string>): R.State
  {
    Able(caps).(mode := R.RECONFIGURING, available := false, newCaps := goal, tasks := [R.StartReconfiguration])
  }

  function Refitting(caps: set<string>, goal: set<string>): R.State
  {
    Able(caps).(mode := R.RECONFIGURING, available := false, newCaps := goal, reconfiguring := true,
                timer := Some(R.Reconfiguring))
  }

  function Expiring(caps: set<string>, goal: set<string>): R.State
  {
    Refitting(caps, goal).(timer := None, tasks := [R.Expired(R.Reconfiguring)])
  }

  lemma Refits(caps: set<string>, goal: set<string>)
    requires goal != caps
    ensures R.ReconfigureAccepts(Able(caps), goal) && R.ReconfigureCall(Able(caps), goal) == Told(caps, goal)
    ensures R.Step(Told(caps, goal), R.RunTask(PEELER)) == Refitting(caps, goal)
    ensures R.Step(Refitting(caps, goal), R.TimerExpires) == Expiring(caps, goal)
  {
    assert [] + [R.StartReconfiguration] == [R.StartReconfiguration] && [R.StartReconfiguration][1..] == [];
    assert [] + [R.Expired(R.Reconfiguring)] == [R.Expired(R.Reconfiguring)];
  }

  lemma Refitted(caps: set<string>, goal: set<string>)
    ensures R.Step(Expiring(caps, goal), R.RunTask(PEELER)) == Able(goal)
  {
    assert [R.Expired(R.Reconfiguring)][1..] == [];
    var s := Expiring(caps, goal).(tasks := []);
    assert s.orders == [] && R.KnownOrders(s);
    assert R.Recost(s.(caps := goal, newCaps := {}, tool := PEELER, lastTool := PEELER, overallTime := 0, orders := []),
        [])
           == s.(caps := goal, newCaps := {});
  }

  lemma AbleToPeel()
    ensures Able({"peel"}) == Free(1)
    ensures forall caps :: Able(caps).available && Able(caps).position == 1 && Able(caps).caps == caps
    ensures forall caps :: !Able(caps).commitPending && LegOf(Able(caps)).Settled?
  {
  }

  // ------------------------------------------------------------------ the controller

  /** The robot is registered from position 1. */
  function Known(caps: set<string>, pending: bool, stopped: bool): Ctrl
  {
    Ctrl(map[1 := Remote(0, 1, caps, pending, stopped)], map[], 1, true)
  }

  /** The robot moves to position 2 without being flagged. */
  function Unguarded(): Ctrl
  {
    Ctrl(map[1 := Peeler(0, 1, false, false)], map[(1, 2) := Swap(false, true)], 1, true)
  }

  function Done(stale: bool): Posted { Posted(Reconfigured(0, 1), stale) }

  lemma RegistersKnown(n: Network, caps: set<string>)
    requires n.ctrl == Nobody() && n.robots == [Able(caps)]
    ensures Linked(n.ctrl.robots, n.robots) && Reliable(n, Register(0, true, false, false))
    ensures NetStep(n, Register(0, true, false, false)) == n.(ctrl := Known(caps, false, false))
  {
    NobodyHousekept();
    AbleToPeel();
    var s := n.robots[0];
    var c1, r := Nobody(), Remote(0, 1, caps, false, false);
    var a := RegistrationAnswers(true, Answer(false), Answer(R.CommitAccepts(s)));
    assert Registers(c1, 1, a);
    assert c1.robots[1 := r] == map[1 := r];
    assert ResolveMissedCommit(Known(caps, false, false), 1, a) == Known(caps, false, false);
    assert HandleRegistration(n.ctrl, 0, 1, s.caps, a) == Known(caps, false, false) by {
      hide RemoveStopped, EraseStale, ResolveMissedCommit;
    }
    assert n.queue + [] == n.queue;
    hide HandleRegistration, Registers, RemoveStopped, EraseStale, R.CommitAccepts, R.CommitCall, Able, LegOf;
  }

  lemma AsksToRefit(n: Network, caps: set<string>, goal: set<string>)
    requires n.ctrl == Known(caps, false, false) && n.robots == [Able(caps)] && goal != caps
    ensures Linked(n.ctrl.robots, n.robots)
    ensures var e := ReconfigureRequest(1, goal, false, false);
            && NetStep(n, e) == n.(ctrl := Known(caps, true, false), robots := [Told(caps, goal)])
            && (Reliable(n, e) <==> ReconfigurationUndisturbed(n, 1))
  {
    AbleToPeel();
    Refits(caps, goal);
    assert n.ctrl.robots[1 := Remote(0, 1, caps, true, false)] == Known(caps, true, false).robots;
    assert n.robots[0 := Told(caps, goal)] == [Told(caps, goal)];
    assert n.queue + [] == n.queue;
    hide R.ReconfigureAccepts, R.ReconfigureCall, Able, Told, ReconfigurationUndisturbed;
  }

  lemma ReportsRefit(n: Network, caps: set<string>, goal: set<string>, pending: bool)
    requires n.ctrl == Known(caps, pending, false) && n.robots == [Able(goal)] && goal != caps
    ensures Linked(n.ctrl.robots, n.robots)
    ensures NetStep(n, NotifyCapabilities(1)) ==
            n.(ctrl := Known(goal, pending, false), queue := n.queue + [Done(false)])
  {
    AbleToPeel();
    assert n.ctrl.robots[1 := Remote(0, 1, goal, pending, false)] == Known(goal, pending, false).robots;
    var cb := Reconfigured(0, 1);
    assert [] + [cb] == [cb] && [cb][1..] == [];
    assert Fresh([cb]) == [Posted(cb, false)] + Fresh([]);
    hide Able;
  }

  lemma LosesKnown(n: Network, caps: set<string>, pending: bool)
    requires n.ctrl == Known(caps, pending, false) && |n.robots| == 1 && n.queue == [Done(false)]
    ensures Linked(n.ctrl.robots, n.robots)
    ensures NetStep(n, Lose(1)) == n.(ctrl := Known(caps, pending, true), queue := [Done(true)])
  {
    assert n.ctrl.robots[1 := Remote(0, 1, caps, pending, true)] == Known(caps, pending, true).robots;
    assert n.queue[1..] == [];
    assert MarkStale(n.queue, 0) == [Done(true)] + MarkStale([], 0);
  }

  lemma ForgetsKnown(n: Network, caps: set<string>, pending: bool)
    requires n.ctrl == Known(caps, pending, true) && |n.robots| == 1
    ensures Linked(n.ctrl.robots, n.robots) && NetStep(n, Housekeeping) == n.(ctrl := Nobody())
  {
    var c := n.ctrl;
    var c1 := RemoveStopped(c);
    assert c1.robots == map[];
    assert c1.registered == 0 by { assert StoppedOnes(c.robots) == {1}; }
    assert c1.swaps == map[];
    hide RemoveStopped;
    assert EraseStale(c1).swaps == map[];
    assert n.queue + [] == n.queue;
  }

  lemma KnownHousekept(caps: set<string>, pending: bool)
    ensures RemoveStopped(Known(caps, pending, false)) == Known(caps, pending, false)
  {
    var c := Known(caps, pending, false);
    assert StoppedOnes(c.robots) == {};
    assert RemoveStopped(c).swaps == map[];
  }

  /** The controller takes the notification for the end of the reconfiguration under way. */
  lemma Releases(n: Network, caps: set<string>, stale: bool)
    requires n.ctrl == Known(caps, true, false) && |n.robots| == 1 && n.queue == [Done(stale)]
    ensures Linked(n.ctrl.robots, n.robots)
    ensures NetStep(n, HandleCallback(false, false)) == n.(ctrl := Known(caps, false, false), queue := [])
  {
    KnownHousekept(caps, true);
    assert n.ctrl.robots[1 := Remote(0, 1, caps, false, false)] == Known(caps, false, false).robots;
    assert n.queue[1..] == [];
    hide RemoveStopped;
  }

  /** And for the end of a swap as well. */
  lemma ReleasesOnTheWay(n: Network)
    requires n.ctrl == Leaving(0, 1, false) && |n.robots| == 1 && n.queue == [Done(false)]
    ensures Linked(n.ctrl.robots, n.robots)
    ensures NetStep(n, HandleCallback(false, false)) == n.(ctrl := Unguarded(), queue := [])
  {
    var c := Leaving(0, 1, false);
    assert StoppedOnes(c.robots) == {};
    assert RemoveStopped(c) == c;
    assert n.ctrl.robots[1 := Peeler(0, 1, false, false)] == Unguarded().robots;
    assert n.queue[1..] == [];
    hide RemoveStopped;
  }

  // ------------------------------------------------------------------ the run

  /** From being told to reconfigure to having done so. */
  lemma Refit(n0: Network, events: seq<Event>, n: Network, caps: set<string>, goal: set<string>)
    returns (more: seq<Event>)
    requires Reaches(n0, events, n) && Linked(n.ctrl.robots, n.robots) && n.robots == [Told(caps, goal)] && goal != caps
    ensures Reaches(n0, more, n.(robots := [Able(goal)]))
  {
    Refits(caps, goal);
    Refitted(caps, goal);
    var a, b, c, d := Told(caps, goal), Refitting(caps, goal), Expiring(caps, goal), Able(goal);
    assert [a][0 := b] == [b] && [b][0 := c] == [c] && [c][0 := d] == [d];
    hide Reaches, R.Step, Told, Refitting, Expiring, Able;
    more := Goes(n0, events, n, 0, a, R.RunTask(PEELER), b);
    more := Goes(n0, more, n.(robots := [b]), 0, b, R.TimerExpires, c);
    more := Goes(n0, more, n.(robots := [c]), 0, c, R.RunTask(PEELER), d);
  }

  function Peels(): set<string> { {"peel"} }

  function Nothing(): set<string> { {} }

  /** The robot registers and reconfigures. */
  lemma FirstRefit(n0: Network) returns (events: seq<Event>)
    requires n0 == Network(Nobody(), [Able(Peels())], [])
    ensures Reaches(n0, events, Network(Known(Peels(), true, false), [Able(Nothing())], []))
  {
    var a, b := Peels(), Nothing();
    assert "peel" in a;
    var n1, n2 := n0.(ctrl := Known(a, false, false)), Network(Known(a, true, false), [Told(a, b)], []);
    RegistersKnown(n0, a);
    AsksToRefit(n1, a, b);
    assert Reaches(n0, [], n0) && ReconfigurationUndisturbed(n1, 1);
    hide Reaches, NetStep, Reliable, Able, Told, Known, Peels, Nothing;
    var e1, e2 := Register(0, true, false, false), ReconfigureRequest(1, b, false, false);
    Extend(n0, [], n0, e1, n1);
    Extend(n0, [] + [e1], n1, e2, n2);
    events := Refit(n0, [] + [e1] + [e2], n2, a, b);
  }

  /** It reports that; its connection is lost before the report is handled, and it registers again. */
  lemma ReportsAndReturns(n0: Network, events: seq<Event>) returns (more: seq<Event>)
    requires Reaches(n0, events, Network(Known(Peels(), true, false), [Able(Nothing())], []))
    ensures Reaches(n0, more, Network(Known(Nothing(), false, false), [Able(Nothing())], [Done(true)]))
  {
    var a, b := Peels(), Nothing();
    assert "peel" in a;
    var robots := [Able(b)];
    var n3, n4 := Network(Known(a, true, false), robots, []), Network(Known(b, true, false), robots, [Done(false)]);
    var n5, n6 := Network(Known(b, true, true), robots, [Done(true)]), Network(Nobody(), robots, [Done(true)]);
    ReportsRefit(n3, a, b, true);
    assert [] + [Done(false)] == [Done(false)];
    LosesKnown(n4, b, true);
    ForgetsKnown(n5, b, true);
    RegistersKnown(n6, b);
    AlwaysReliable(n3);
    AlwaysReliable(n4);
    AlwaysReliable(n5);
    hide Reaches, NetStep, Reliable, Able, Known, Peels, Nothing;
    var e := Register(0, true, false, false);
    Extend(n0, events, n3, NotifyCapabilities(1), n4);
    Extend(n0, events + [NotifyCapabilities(1)], n4, Lose(1), n5);
    Extend(n0, events + [NotifyCapabilities(1)] + [Lose(1)], n5, Housekeeping, n6);
    more := events + [NotifyCapabilities(1)] + [Lose(1)] + [Housekeeping];
    Extend(n0, more, n6, e, n6.(ctrl := Known(b, false, false)));
    more := more + [e];
  }

  lemma AlwaysReliable(n: Network)
    requires Linked(n.ctrl.robots, n.robots)
    ensures Reliable(n, NotifyCapabilities(1)) && Reliable(n, Lose(1)) && Reliable(n, Housekeeping)
    ensures Reliable(n, HandleCallback(false, false))
  {
  }

  /** Told to reconfigure over the old report, the robot is released at once, reconfigures, and reports that. */
  lemma SecondRefit(n1: Network) returns (events: seq<Event>)
    requires n1 == Network(Known(Nothing(), true, false), [Told(Nothing(), Peels())], [Done(true)])
    ensures Reaches(n1, events, Network(Known(Peels(), false, false), [Able(Peels())], [Done(false)]))
  {
    var a, b := Nothing(), Peels();
    assert "peel" in b;
    var n2, n3 := Network(Known(a, false, false), [Told(a, b)], []), Network(Known(a, false, false), [Able(b)], []);
    var n4 := Network(Known(b, false, false), [Able(b)], [Done(false)]);
    Releases(n1, a, true);
    ReportsRefit(n3, a, b, false);
    assert [] + [Done(false)] == [Done(false)];
    assert Reaches(n1, [], n1);
    AlwaysReliable(n1);
    AlwaysReliable(n3);
    hide Reaches, NetStep, Reliable, Able, Told, Known, Peels, Nothing;
    Extend(n1, [], n1, HandleCallback(false, false), n2);
    events := Refit(n1, [] + [HandleCallback(false, false)], n2, a, b);
    Extend(n1, events, n3, NotifyCapabilities(1), n4);
    events := events + [NotifyCapabilities(1)];
  }

  /** It is available and not flagged, and is sent to position 2; its own report then releases it on the way. */
  lemma SentUnguarded(n0: Network, events: seq<Event>) returns (more: seq<Event>)
    requires Reaches(n0, events, Network(Known(Peels(), false, false), [Able(Peels())], [Done(false)]))
    ensures Reaches(n0, more, Network(Unguarded(), [Landed()], []))
  {
    AbleToPeel();
    var n4 := Network(One(0), [Free(1)], [Done(false)]);
    assert n4 == Network(Known(Peels(), false, false), [Able(Peels())], [Done(false)]) by { hide Free, Able; }
    var n5, n6 := Network(Leaving(0, 1, false), [Sent()], [Done(false)]), Network(Unguarded(), [Sent()], []);
    AsksToLeave(n4, 0);
    assert [Free(1)][0 := Sent()] == [Sent()] && [Sent()][0 := Underway()] == [Underway()];
    assert [Underway()][0 := Landed()] == [Landed()];
    ReleasesOnTheWay(n5);
    AlwaysReliable(n5);
    assert Reliable(n4, SwapRequest(1, 2, Lossless())) by { hide NetStep, Free, Sent; }
    hide Reaches, NetStep, Reliable, Able, Known, Peels, Free, Sent, Underway, Landed;
    Extend(n0, events, n4, SwapRequest(1, 2, Lossless()), n5);
    Extend(n0, events + [SwapRequest(1, 2, Lossless())], n5, HandleCallback(false, false), n6);
    more := events + [SwapRequest(1, 2, Lossless())] + [HandleCallback(false, false)];
    more := Departure(n0, more, n6, 0);
    more := Arrival(n0, more, n6.(robots := [Underway()]), 0);
  }

  /** From the start, with one robot: a run in which only one step is unreliable, a reconfiguration that is requested
      while the report of an earlier one, over a connection that has been lost since, is still queued, and after
      which the controller hands out a position where the robot is not. */
  lemma MisreadRun(n0: Network) returns (before: seq<Event>, after: seq<Event>)
    requires n0 == Network(Nobody(), [Able(Peels())], [])
    ensures AllReliable(n0, before) && !Reliable(Run(n0, before), ReconfigureRequest(1, Peels(), false, false))
    ensures var n1 := NetStep(Run(n0, before), ReconfigureRequest(1, Peels(), false, false));
            && AllReliable(n1, after)
            && var n := Run(n1, after); NextRobotReply(n.ctrl, 1) == 1 && BodyAt(n, 1).position == 2
  {
    before := FirstRefit(n0);
    before := ReportsAndReturns(n0, before);
    var n := Network(Known(Nothing(), false, false), [Able(Nothing())], [Done(true)]);
    assert "peel" in Peels();
    AsksToRefit(n, Nothing(), Peels());
    StaleDone(n);
    SwapAccidents.Settled();
    var n1 := Network(Known(Nothing(), true, false), [Told(Nothing(), Peels())], [Done(true)]);
    after := SecondRefit(n1);
    after := SentUnguarded(n1, after);
    hide NetStep, Reliable, Run, AllReliable, Able, Told, Landed, Known, Peels, Nothing;
  }

  lemma StaleDone(n: Network)
    requires n == Network(Known(Nothing(), false, false), n.robots, [Done(true)])
    ensures !ReconfigurationUndisturbed(n, 1)
  {
    assert n.queue[0].stale && Live(n.ctrl, 1);
  }
}
