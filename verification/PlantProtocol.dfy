/** The whole plant: the controller with its swaps and notifications, the robots, the conveyor with its index of robots,
    and the kitchen's orders, in one run. */
module PlantProtocol {
  import opened Basics
  import R = Robot
  import RI = RobotInvariant
  import RR = RobotRuns
  import RL = RobotLegs
  import Controller
  import S = SwapProtocol
  import SS = SwapSteps
  import SR = SwapRequests
  import SC = SwapCompletion
  import ST = SwapTheorems
  import N = SwapNetwork
  import SG = SwapProgress
  import P = Plant
  import opened PlantInvariant
  import opened PlantRuns
  import opened PlantTheorems
  import opened PlantNotices
  import opened PlantIndex

  // ------------------------------------------------------------------ what the controller does to robots

  predicate CallEvent(c: R.Event) { c.SwitchEvent? || c.CommitEvent? || c.ReconfigureEvent? }

  /** At most one call of the controller has been executed. */
  ghost predicate Called(s: R.State, s': R.State)
  {
    s' == s || exists c :: CallEvent(c) && R.Admissible(s, c) && s' == R.Step(s, c)
  }

  ghost predicate AllCalled(robots: seq<R.State>, robots': seq<R.State>)
  {
    |robots'| == |robots| && forall i :: 0 <= i < |robots| ==> Called(robots[i], robots'[i])
  }

  lemma CalledBy(s: R.State, c: R.Event, s': R.State)
    requires CallEvent(c) && R.Admissible(s, c) && s' == R.Step(s, c)
    ensures Called(s, s')
  {
    hide R.Step;
  }

  lemma SwitchCalled(s: R.State, p: nat)
    requires RI.Inv(s)
    ensures Called(s, R.SwitchCall(s, p))
  {
    RR.NoFaultYet(s);
    CalledBy(s, R.SwitchEvent(p), R.SwitchCall(s, p));
    hide RI.Inv, R.SwitchCall;
  }

  lemma ReconfigureCalled(s: R.State, caps: set<string>)
    requires RI.Inv(s)
    ensures Called(s, R.ReconfigureCall(s, caps))
  {
    RR.NoFaultYet(s);
    CalledBy(s, R.ReconfigureEvent(caps), R.ReconfigureCall(s, caps));
    hide RI.Inv, R.ReconfigureCall;
  }

  lemma CommitCalled(s: R.State)
    requires RI.Inv(s) && RL.LegOf(s).Arrived?
    ensures Called(s, R.CommitCall(s))
  {
    RR.NoFaultYet(s);
    RL.LegAvailable(s);
    CalledBy(s, R.CommitEvent, R.CommitCall(s));
    hide RI.Inv, R.CommitCall, RL.LegOf;
  }

  lemma OneCalled(robots: seq<R.State>, i: nat, s: R.State)
    requires i < |robots| && Called(robots[i], s)
    ensures AllCalled(robots, robots[i := s])
  {
    hide R.Step;
  }

  lemma TwoCalled(robots: seq<R.State>, i: nat, s: R.State, j: nat, t: R.State)
    requires i < |robots| && j < |robots| && i != j && Called(robots[i], s) && Called(robots[j], t)
    ensures AllCalled(robots, robots[i := s][j := t])
  {
    NobodyCalled(robots);
    hide Called;
  }

  lemma NobodyCalled(robots: seq<R.State>)
    ensures AllCalled(robots, robots)
  {
  }

  lemma SwapCalls(w: S.World, from: nat, to: nat, l: S.SwapLosses)
    requires S.WorldInv(w) && S.Linked(w.ctrl.robots, w.robots)
    ensures AllCalled(w.robots, S.SwapStep(w, from, to, l).robots)
  {
    NobodyCalled(w.robots);
    if from in w.ctrl.robots && Controller.SwapStarts(w.ctrl, from, to, S.SwapAnswersOf(w, from, to, l)) && !l.first {
      var i := w.ctrl.robots[from].id;
      SR.Unflagged(w, from);
      hide S.WorldInv, RI.Inv, S.FreeOk, AllCalled, R.SwitchCall, R.SwitchAccepts, Controller.Swapping,
           Controller.SwapRobotPositions;
      SwitchCalled(w.robots[i], to);
      OneCalled(w.robots, i, R.SwitchCall(w.robots[i], to));
      if to in w.ctrl.robots {
        var j := w.ctrl.robots[to].id;
        SR.Unflagged(w, to);
        SR.IdsDiffer(w, from, to);
        SwitchCalled(w.robots[j], from);
        TwoCalled(w.robots, i, R.SwitchCall(w.robots[i], to), j, R.SwitchCall(w.robots[j], from));
      }
    }
  }

  lemma ReconfigureCalls(w: S.World, p: nat, caps: set<string>, readLost: bool, callLost: bool)
    requires S.WorldInv(w) && S.Linked(w.ctrl.robots, w.robots)
    ensures AllCalled(w.robots, S.ReconfigureStep(w, p, caps, readLost, callLost).robots)
  {
    NobodyCalled(w.robots);
    hide S.WorldInv, RI.Inv, S.FreeOk, AllCalled, R.ReconfigureCall, R.ReconfigureAccepts, Controller.ReconfigureRobot,
         Controller.Swapping, S.InQueue;
    if p in w.ctrl.robots && !w.ctrl.robots[p].pending {
      var i := w.ctrl.robots[p].id;
      SR.Unflagged(w, p);
      ReconfigureCalled(w.robots[i], caps);
      OneCalled(w.robots, i, R.ReconfigureCall(w.robots[i], caps));
    }
  }

  lemma RegisterCalls(w: S.World, id: nat, connects: bool, readLost: bool, commitLost: bool)
    requires S.WorldInv(w) && S.Linked(w.ctrl.robots, w.robots)
    requires S.Admissible(w, S.Register(id, connects, readLost, commitLost))
    ensures AllCalled(w.robots, S.RegisterStep(w, id, connects, readLost, commitLost).robots)
  {
    var s := w.robots[id];
    NobodyCalled(w.robots);
    hide S.WorldInv, RI.Inv, RL.LegOf, AllCalled, R.CommitCall, R.CommitAccepts, Controller.RemoveStopped,
         Controller.EraseStale, Controller.Swapping, S.RegisterStep;
    if S.Accepted(w.ctrl, s.position, connects) {
      var told := s.commitPending && !readLost && !commitLost;
      var s' := if told then R.CommitCall(s) else s;
      SS.BodyOf(w, id);
      if told {
        if RL.LegOf(s).Settled? { SS.CommitPendingByLeg(s); }
        CommitCalled(s);
      }
      OneCalled(w.robots, id, s');
      SS.Registered(w, id, connects, readLost, commitLost, readLost || (s.commitPending && commitLost), s');
    } else {
      SS.Refused(w, id, connects, readLost, commitLost);
    }
  }

  lemma EndCalled(w: S.World, k: Controller.Key, p: nat, lost: bool)
    requires S.WorldInv(w) && SC.BothAcked(w.ctrl, k) && Controller.Involves(k, p) && p in w.ctrl.robots
    requires !w.ctrl.robots[p].stopped && S.Linked(w.ctrl.robots, w.robots)
    ensures var s := w.robots[w.ctrl.robots[p].id]; Called(s, SC.BodyAfter(s, lost))
  {
    SC.AckedEnd(w, k, p);
    var s := w.robots[w.ctrl.robots[p].id];
    hide S.WorldInv, RI.Inv, RL.LegOf, R.CommitCall, Controller.Partner, S.InQueue;
    assert RI.Inv(s) && RL.LegOf(s).Arrived?;
    CommitCalled(s);
    assert Called(s, s);
  }

  lemma CommittedCalls(remotes: map<nat, Controller.Remote>, robots: seq<R.State>, k: Controller.Key, firstLost: bool,
                       secondLost: bool)
    requires S.Linked(remotes, robots)
    requires k.0 in remotes ==> Called(robots[remotes[k.0].id], SC.BodyAfter(robots[remotes[k.0].id], firstLost))
    requires k.1 in remotes ==> Called(robots[remotes[k.1].id], SC.BodyAfter(robots[remotes[k.1].id], secondLost))
    requires k.0 in remotes && k.1 in remotes ==> remotes[k.0].id != remotes[k.1].id
    ensures AllCalled(robots, S.Committed(remotes, S.Committed(remotes, robots, k.0, firstLost), k.1, secondLost))
  {
    NobodyCalled(robots);
    hide Called, AllCalled, R.CommitCall;
    if k.0 in remotes { OneCalled(robots, remotes[k.0].id, SC.BodyAfter(robots[remotes[k.0].id], firstLost)); }
    if k.1 in remotes { OneCalled(robots, remotes[k.1].id, SC.BodyAfter(robots[remotes[k.1].id], secondLost)); }
    if k.0 in remotes && k.1 in remotes {
      TwoCalled(robots, remotes[k.0].id, SC.BodyAfter(robots[remotes[k.0].id], firstLost),
                remotes[k.1].id, SC.BodyAfter(robots[remotes[k.1].id], secondLost));
    }
  }

  /** A completed swap commits its robots. */
  lemma CompletionCalls(w: S.World, k: Controller.Key, firstLost: bool, secondLost: bool)
    requires S.WorldInv(w) && S.Linked(w.ctrl.robots, w.robots) && SS.NoneStopped(w.ctrl.robots)
    requires SC.BothAcked(w.ctrl, k)
    ensures AllCalled(w.robots, S.Committed(w.ctrl.robots, S.Committed(w.ctrl.robots, w.robots, k.0, firstLost), k.1,
                                            secondLost))
  {
    var remotes := w.ctrl.robots;
    SC.KeyOf01(w, k);
    hide S.WorldInv, Called, AllCalled, S.Committed, SC.BodyAfter;
    if k.0 in remotes { EndCalled(w, k, k.0, firstLost); }
    if k.1 in remotes { EndCalled(w, k, k.1, secondLost); }
    if k.0 in remotes && k.1 in remotes { SR.IdsDiffer(w, k.0, k.1); }
    CommittedCalls(remotes, w.robots, k, firstLost, secondLost);
  }

  lemma HandledRobots(n: N.Network, firstLost: bool, secondLost: bool)
    requires S.Linked(n.ctrl.robots, n.robots) && n.queue != []
    ensures var c1, cb := Controller.EraseStale(Controller.RemoveStopped(n.ctrl)), n.queue[0].callback;
            && S.Linked(c1.robots, n.robots)
            && N.Handle(n, firstLost, secondLost).robots ==
               if cb.Swapped? && Controller.CompletesSwap(c1, cb.from, cb.to)
               then S.Committed(c1.robots, S.Committed(c1.robots, n.robots, Controller.KeyOf(cb.from, cb.to).0,
                    firstLost), Controller.KeyOf(cb.from, cb.to).1, secondLost)
               else n.robots
  {
    hide Controller.CompletesSwap, Controller.Acknowledge, S.Committed, Controller.KeyOf;
  }

  lemma HandlingCalls(n: N.Network, firstLost: bool, secondLost: bool)
    requires N.HeadOk(n) && S.Linked(n.ctrl.robots, n.robots)
    ensures AllCalled(n.robots, N.Handle(n, firstLost, secondLost).robots)
  {
    assert n.queue != [];
    HandledRobots(n, firstLost, secondLost);
    NobodyCalled(n.robots);
    var c1, cb := Controller.EraseStale(Controller.RemoveStopped(n.ctrl)), n.queue[0].callback;
    hide N.HeadOk, S.WorldInv, N.Handle, S.Committed, AllCalled, Controller.RemoveStopped, Controller.EraseStale,
         Controller.CompletesSwap, Controller.KeyOf, SG.Completing, SS.NoneStopped;
    if cb.Swapped? && Controller.CompletesSwap(c1, cb.from, cb.to) {
      var rest := SG.CompletingKeeps(n);
      CompletionCalls(S.World(SG.Completing(n), n.robots, rest), Controller.KeyOf(cb.from, cb.to), firstLost,
                      secondLost);
    }
  }

  /** Whatever the controller does, every robot has at most one call executed, one that it may be made to execute. */
  lemma ControllerCalls(n: N.Network, e: S.Event)
    requires N.NetInv(n) && S.Linked(n.ctrl.robots, n.robots) && N.Reliable(n, e) && !e.RobotEvent?
    ensures AllCalled(n.robots, N.NetStep(n, e).robots)
  {
    NobodyCalled(n.robots);
    if N.Plain(e) {
      N.PlainCore(n, e);
      N.PlainAdmissible(n, e);
      N.StepIgnoresQueue(n.ctrl, n.robots, N.LiveOf(n.queue), e);
      PlainCalls(N.Core(n), e);
    } else if e.HandleCallback? && n.queue != [] {
      assert N.HeadOk(n);
      HandlingCalls(n, e.firstLost, e.secondLost);
    }
    hide N.NetInv, AllCalled, N.Handle, S.Step, N.LiveOf, N.MarkStale, N.Reliable;
  }

  lemma PlainCalls(w: S.World, e: S.Event)
    requires S.WorldInv(w) && S.Linked(w.ctrl.robots, w.robots) && N.Plain(e) && S.Admissible(w, e) && !e.RobotEvent?
    ensures AllCalled(w.robots, S.Step(w, e).robots)
  {
    NobodyCalled(w.robots);
    hide S.WorldInv, AllCalled, S.SwapStep, S.ReconfigureStep, S.RegisterStep, Controller.RemoveStopped,
         Controller.EraseStale;
    match e
    case SwapRequest(from, to, l) => SwapCalls(w, from, to, l);
    case ReconfigureRequest(p, caps, readLost, callLost) => ReconfigureCalls(w, p, caps, readLost, callLost);
    case Register(id, connects, readLost, commitLost) =>
      RegisterCalls(w, id, connects, readLost, commitLost);
    case _ =>
  }

  // ------------------------------------------------------------------ the plant does not notice

  lemma CallPickup(r: R.State, c: R.Event)
    requires CallEvent(c)
    ensures R.Step(r, c).pickup == r.pickup
  {
  }

  lemma OneCallKeeps(s: P.State, i: nat, c: R.Event)
    requires Inv(s) && AllPlaced(s) && AllFresh(s) && i < |s.robots| && CallEvent(c) && R.Admissible(s.robots[i], c)
    ensures var s' := s.(robots := s.robots[i := R.Step(s.robots[i], c)]); Inv(s') && AllPlaced(s') && AllFresh(s')
  {
    var e := P.Own(i, c);
    hide Inv, R.Step, AllPlaced, AllFresh;
    assert P.Admissible(s, e);
    NobodyMoves(s, e);
    PlacedKeeps(s, e);
    FreshKeeps(s, e);
    CallPickup(s.robots[i], c);
    assert Next(s, e) == P.HandleOwn(s, i, c);
  }

  lemma CalledKeeps(s: P.State, i: nat, r: R.State)
    requires Inv(s) && AllPlaced(s) && AllFresh(s) && i < |s.robots| && Called(s.robots[i], r)
    ensures var s' := s.(robots := s.robots[i := r]); Inv(s') && AllPlaced(s') && AllFresh(s')
  {
    hide Inv, R.Step, AllPlaced, AllFresh;
    if r != s.robots[i] {
      var c :| CallEvent(c) && R.Admissible(s.robots[i], c) && r == R.Step(s.robots[i], c);
      OneCallKeeps(s, i, c);
    } else {
      assert s.robots[i := r] == s.robots;
    }
  }

  lemma {:induction false} CallsKeep(s: P.State, robots: seq<R.State>, m: nat)
    requires Inv(s) && AllPlaced(s) && AllFresh(s) && AllCalled(s.robots, robots) && m <= |robots|
    ensures var s' := s.(robots := robots[..m] + s.robots[m..]); Inv(s') && AllPlaced(s') && AllFresh(s')
  {
    hide Inv, AllPlaced, AllFresh, Called;
    if m == 0 {
      assert robots[..0] + s.robots[0..] == s.robots;
    } else {
      CallsKeep(s, robots, m - 1);
      var s1 := s.(robots := robots[..m - 1] + s.robots[m - 1..]);
      assert s1.robots[m - 1] == s.robots[m - 1];
      CalledKeeps(s1, m - 1, robots[m - 1]);
      assert s1.robots[m - 1 := robots[m - 1]] == robots[..m] + s.robots[m..];
    }
  }

  // ------------------------------------------------------------------ the protocol does not notice

  /** What the conveyor and the kitchen do to the robots: at most one of them makes a step of its own. */
  lemma OneRobotSteps(s: P.State, e: P.Event) returns (i: nat, step: Option<R.Event>)
    requires Inv(s) && P.Admissible(s, e) && P.Possible(s, e) && (e.Own? ==> RL.OwnEvent(e.event))
    ensures step.None? ==> Next(s, e).robots == s.robots
    ensures step.Some? ==>
              && i < |s.robots| && RL.OwnEvent(step.value) && R.Admissible(s.robots[i], step.value)
              && Next(s, e).robots == s.robots[i := R.Step(s.robots[i], step.value)]
  {
    i, step := Stepper(s, e);
    hide Inv, P.Admissible, P.Possible, P.Step, R.Step, R.Admissible, RobotEvent;
    StepperSteps(s, e, i, step);
    if step.Some? && !s.robots[i].fault.NoFault? {
      Hangs(s.robots[i], step.value);
      assert s.robots[i := s.robots[i]] == s.robots;
      step := None;
    }
  }

  lemma StepperSteps(s: P.State, e: P.Event, i: nat, step: Option<R.Event>)
    requires Inv(s) && P.Admissible(s, e) && P.Possible(s, e) && (step.Some? ==> i < |s.robots|)
    requires forall x :: 0 <= x < |s.robots| ==> RobotEvent(s, e, x) == if x == i then step else None
    ensures Next(s, e).robots == if step.None? then s.robots else s.robots[i := R.Step(s.robots[i], step.value)]
    ensures step.Some? && s.robots[i].fault.NoFault? ==> R.Admissible(s.robots[i], step.value)
  {
    hide Inv, P.Admissible, P.Possible, P.Step, R.Step, R.Admissible, RobotEvent;
    SameCount(s, e);
    if step.Some? { RobotAfter(s, e, i, step); }
    forall x | 0 <= x < |s.robots| && (step.None? || x != i) ensures Next(s, e).robots[x] == s.robots[x] {
      RobotAfter(s, e, x, None);
    }
  }

  lemma RobotAfter(s: P.State, e: P.Event, x: nat, step: Option<R.Event>)
    requires Inv(s) && P.Admissible(s, e) && P.Possible(s, e) && x < |s.robots| && RobotEvent(s, e, x) == step
    ensures x < |Next(s, e).robots|
    ensures Next(s, e).robots[x] == if step.None? then s.robots[x] else R.Step(s.robots[x], step.value)
    ensures step.Some? && s.robots[x].fault.NoFault? ==> R.Admissible(s.robots[x], step.value)
  {
    RobotsRunOnTheirOwn(s, e, x);
    hide Inv, P.Admissible, P.Possible, P.Step, R.Step, R.Admissible, RobotEvent;
  }

  lemma Stepper(s: P.State, e: P.Event) returns (i: nat, step: Option<R.Event>)
    requires P.Admissible(s, e) && P.Possible(s, e) && (e.Own? ==> RL.OwnEvent(e.event))
    ensures step.Some? ==> i < |s.robots| && RL.OwnEvent(step.value)
    ensures forall x :: 0 <= x < |s.robots| ==> RobotEvent(s, e, x) == if x == i then step else None
  {
    i, step := 0, None;
    match e
    case Own(j, event) => i, step := j, Some(event);
    case PlaceOrder(j, recipe, addressed) => i, step := j, Some(R.ReceiveTaskEvent(recipe, 0, addressed));
    case RetrieveFrom(n, callee) =>
      if P.Fetches(s, n, callee) { i, step := callee.value, Some(R.HandoverEvent); }
    case DeliverFrom(k, callee, _) =>
      var p := s.belt.plates[k];
      if P.AtTarget(p) && callee.Some? && callee.value < |s.robots| {
        i, step := callee.value, Some(R.ReceiveTaskEvent(p.recipe, p.steps, p.position));
      }
    case _ =>
  }

  lemma ProtocolKeeps(n: N.Network, s: P.State, e: P.Event)
    requires N.NetInv(n) && S.Linked(n.ctrl.robots, n.robots) && s.robots == n.robots
    requires Inv(s) && P.Admissible(s, e) && (e.Own? ==> RL.OwnEvent(e.event))
    ensures N.NetInv(n.(robots := Next(s, e).robots))
  {
    InvPossible(s, e);
    hide Inv, N.NetInv, P.Admissible, P.Possible, P.Step, R.Step, R.Admissible, N.Reliable;
    var i, step := OneRobotSteps(s, e);
    if step.Some? {
      var own := S.RobotEvent(i, step.value);
      N.Moves(n, i, step.value);
      assert N.Reliable(n, own) by { OwnReliable(n, i, step.value); }
      N.NetStepKeeps(n, own);
    }
  }

  lemma OwnReliable(n: N.Network, i: nat, step: R.Event)
    requires S.Linked(n.ctrl.robots, n.robots) && i < |n.robots| && RL.OwnEvent(step)
    requires R.Admissible(n.robots[i], step)
    ensures N.Reliable(n, S.RobotEvent(i, step))
  {
  }

  // ------------------------------------------------------------------ waiting robots are apart

  /** The robot is registered with the controller. */
  predicate Registered(remotes: map<nat, Controller.Remote>, i: nat) { exists p :: p in remotes && remotes[p].id == i }

  predicate WaitingAreRegistered(n: N.Network)
  {
    forall i :: 0 <= i < |n.robots| && n.robots[i].pickup ==> Registered(n.ctrl.robots, i)
  }

  /** Registered robots whose dishes wait for their pickup are at different positions. */
  lemma ProtocolKeepsApart(n: N.Network)
    requires N.NetInv(n) && S.Linked(n.ctrl.robots, n.robots) && WaitingAreRegistered(n)
    ensures PickupsApart(n.robots)
  {
    assert N.AllReliable(n, []) && N.Run(n, []) == n;
    hide N.NetInv, N.AllReliable, N.Run;
    forall i, j | 0 <= i < j < |n.robots| && n.robots[i].pickup && n.robots[j].pickup
      ensures n.robots[i].position != n.robots[j].position
    {
      assert Registered(n.ctrl.robots, i) && Registered(n.ctrl.robots, j);
      var p :| p in n.ctrl.robots && n.ctrl.robots[p].id == i;
      var q :| q in n.ctrl.robots && n.ctrl.robots[q].id == j;
      N.PickupsAreApart(n, [], p, q);
    }
  }

  /** Then no notification takes the place of another robot's. */
  lemma NoticeFitsApart(s: P.State, x: JointEvent)
    requires Inv(s) && AllPlaced(s) && AllFresh(s) && PickupsApart(s.robots)
    ensures NoticeFits(s, x)
  {
    NoticesOfRobots(s);
    if x.Happens? && x.event.HandleNotice? && s.notices != [] {
      var n := s.notices[0];
      QueuedFront(s.notices);
      FiledAt(s.belt.notified, s.notifier);
      if n.position in s.belt.notified && n.position in s.notifier {
        assert s.robots[n.robot].pickup && s.robots[n.robot].position == n.position;
        var i := s.notifier[n.position];
        assert s.robots[i].pickup && s.robots[i].position == n.position;
      }
    }
    hide Inv, Queued, Filed;
  }

  lemma NoticesOfRobots(s: P.State)
    requires Inv(s)
    ensures forall j :: 0 <= j < |s.notices| ==> s.notices[j].robot < |s.robots|
    ensures forall n :: n in s.belt.notified && n in s.notifier ==> s.notifier[n] < |s.robots|
  {
    hide RobotsOk, BeltOk, DishesOk, Balanced;
  }

  // ------------------------------------------------------------------ the whole plant

  datatype Whole = Whole(net: N.Network, joint: Joint)

  datatype WholeEvent =
    | Controls(step: S.Event)      // the controller's side: registrations, requests, notifications, lost connections
    | Goes(event: JointEvent)      // a robot's own step, the conveyor, its index, or an order of the kitchen

  ghost predicate WholeInv(w: Whole)
  {
    && N.NetInv(w.net) && S.Linked(w.net.ctrl.robots, w.net.robots)
    && JointInv(w.joint) && w.joint.plant.robots == w.net.robots
  }

  /** Beyond what the controller and the conveyor rely on: when a notification is handled, the robots whose dishes wait
      are registered with the controller. */
  predicate WholeAdmissible(w: Whole, x: WholeEvent)
    requires S.Linked(w.net.ctrl.robots, w.net.robots)
  {
    match x
    case Controls(e) => !e.RobotEvent? && N.Reliable(w.net, e)
    case Goes(y) =>
      && IndexAdmissible(w.joint, y)
      && (y.Happens? && y.event.Own? ==> RL.OwnEvent(y.event.event))
      && (y.Happens? && y.event.HandleNotice? ==> WaitingAreRegistered(w.net))
  }

  ghost function WholeNext(w: Whole, x: WholeEvent): Whole
    requires WholeInv(w) && WholeAdmissible(w, x)
  {
    match x
    case Controls(e) =>
      var net := N.NetStep(w.net, e);
      Whole(net, w.joint.(plant := w.joint.plant.(robots := net.robots)))
    case Goes(y) =>
      var joint := JointNext(w.joint, y);
      Whole(w.net.(robots := joint.plant.robots), joint)
  }

  lemma ControlsKeeps(w: Whole, e: S.Event)
    requires WholeInv(w) && WholeAdmissible(w, Controls(e))
    ensures WholeInv(WholeNext(w, Controls(e)))
  {
    var robots := N.NetStep(w.net, e).robots;
    N.NetStepKeeps(w.net, e);
    ControllerCalls(w.net, e);
    hide N.NetInv, N.NetStep, N.Reliable, Inv, AllPlaced, AllFresh, Called;
    CallsKeep(w.joint.plant, robots, |robots|);
    assert robots[..|robots|] + w.joint.plant.robots[|robots|..] == robots;
  }

  lemma FitsWhole(w: Whole, y: JointEvent)
    requires WholeInv(w) && WholeAdmissible(w, Goes(y))
    ensures JointAdmissible(w.joint, y)
  {
    if y.Happens? && y.event.HandleNotice? {
      ProtocolKeepsApart(w.net);
      NoticeFitsApart(w.joint.plant, y);
    }
    hide N.NetInv, Inv, AllPlaced, AllFresh, PickupsApart, WaitingAreRegistered, IndexAdmissible;
  }

  lemma GoesKeeps(w: Whole, y: JointEvent)
    requires WholeInv(w) && WholeAdmissible(w, Goes(y))
    ensures WholeInv(WholeNext(w, Goes(y)))
    ensures WholeNext(w, Goes(y)).joint == JointNext(w.joint, y)
  {
    FitsWhole(w, y);
    JointKeeps(w.joint, y);
    hide N.NetInv, Inv, AllPlaced, AllFresh, PickupsApart, WaitingAreRegistered, P.Admissible, P.Step, P.Possible,
         CallsNotifier;
    if y.Happens? {
      ProtocolKeeps(w.net, w.joint.plant, y.event);
    } else {
      assert w.net.(robots := w.net.robots) == w.net;
    }
  }

  lemma WholeKeeps(w: Whole, x: WholeEvent)
    requires WholeInv(w) && WholeAdmissible(w, x)
    ensures WholeInv(WholeNext(w, x))
    ensures WholeNext(w, x).joint.plant.overwrittenDishes == w.joint.plant.overwrittenDishes
  {
    hide WholeInv, WholeNext, WholeAdmissible;
    match x
    case Controls(e) =>
      ControlsKeeps(w, e);
      ControlsOverwritesNothing(w, e);
    case Goes(y) =>
      GoesKeeps(w, y);
      FitsWhole(w, y);
      GoesOverwritesNothing(w, y);
  }

  lemma ControlsOverwritesNothing(w: Whole, e: S.Event)
    requires WholeInv(w) && WholeAdmissible(w, Controls(e))
    ensures WholeNext(w, Controls(e)).joint.plant.overwrittenDishes == w.joint.plant.overwrittenDishes
  {
    hide WholeInv, N.NetStep, N.Reliable;
  }

  lemma GoesOverwritesNothing(w: Whole, y: JointEvent)
    requires WholeInv(w) && WholeAdmissible(w, Goes(y)) && JointAdmissible(w.joint, y)
    ensures WholeNext(w, Goes(y)).joint.plant.overwrittenDishes == w.joint.plant.overwrittenDishes
  {
    JointKeeps(w.joint, y);
    hide N.NetInv, Inv, AllPlaced, AllFresh, P.Admissible, P.Step, P.Possible, StepOverwrites, IndexAdmissible,
         NoticeFits;
    if y.Happens? { HappensOverwritesNothing(w.joint, y); }
  }

  // ------------------------------------------------------------------ whole runs

  ghost predicate AllWholeAdmissible(w: Whole, events: seq<WholeEvent>)
    requires WholeInv(w)
    decreases |events|
  {
    events == [] || (
      && WholeAdmissible(w, events[0])
      && (WholeKeeps(w, events[0]); AllWholeAdmissible(WholeNext(w, events[0]), events[1..])))
  }

  ghost function WholeRun(w: Whole, events: seq<WholeEvent>): (w': Whole)
    requires WholeInv(w) && AllWholeAdmissible(w, events)
    ensures WholeInv(w')
    ensures w'.joint.plant.overwrittenDishes == w.joint.plant.overwrittenDishes
    decreases |events|
  {
    if events == [] then w
    else
      WholeKeeps(w, events[0]);
      WholeRun(WholeNext(w, events[0]), events[1..])
  }

  function Start(book: R.RecipeBook, n: nat, robots: seq<R.State>): Whole
  {
    Whole(N.Network(Controller.Ctrl(map[], map[], 0, true), robots, []), Joint(Initial(book, n, robots), map[]))
  }

  lemma StartKeeps(book: R.RecipeBook, n: nat, robots: seq<R.State>)
    requires RI.WellFormed(book) && n > 0 && Started(book, n, robots) && Inv(Initial(book, n, robots))
    ensures WholeInv(Start(book, n, robots))
  {
    hide Inv;
    forall i | 0 <= i < |robots| ensures RI.Inv(robots[i]) {
      RR.InitialKeeps(book, n, robots[i].position, robots[i].caps, robots[i].tool);
    }
    hide RI.Inv;
    N.InitialNet(Start(book, n, robots).net);
  }

  /** On every run of the whole plant from the start: the controller hands out only robots that can be depended on, at
      their real positions; whoever has notified from a position is the robot that the conveyor will ask; and the dishes
      that the kitchen assigned are those at robots, on plates and completed. */
  lemma WholePlantIsSafe(book: R.RecipeBook, n: nat, robots: seq<R.State>, events: seq<WholeEvent>)
    requires WholeInv(Start(book, n, robots)) && AllWholeAdmissible(Start(book, n, robots), events)
    ensures var w := WholeRun(Start(book, n, robots), events);
            var s := w.joint.plant;
            && ST.HandsOutReal(w.net.ctrl, s.robots) && Agrees(s, w.joint.index)
            && s.assignedDishes == P.AtRobots(s.robots) + P.OnPlates(s.belt.plates) + s.completedDishes
  {
    var w0 := Start(book, n, robots);
    assert w0.joint.plant.overwrittenDishes == multiset{};
    hide Start, WholeRun, AllWholeAdmissible;
    SafeNow(WholeRun(w0, events));
  }

  lemma SafeNow(w: Whole)
    requires WholeInv(w) && w.joint.plant.overwrittenDishes == multiset{}
    ensures var s := w.joint.plant;
            && ST.HandsOutReal(w.net.ctrl, s.robots) && Agrees(s, w.joint.index)
            && s.assignedDishes == P.AtRobots(s.robots) + P.OnPlates(s.belt.plates) + s.completedDishes
  {
    var s := w.joint.plant;
    BalanceOf(s);
    ST.HandedOutNow(N.Core(w.net));
    hide Inv, P.AtRobots, P.OnPlates, N.LiveOf, ST.HandsOutReal, AllPlaced, AllFresh, S.WorldInv;
    NothingLost(P.AtRobots(s.robots) + P.OnPlates(s.belt.plates) + s.completedDishes, s.overwrittenDishes);
  }

  /** In the whole plant, a robot waits in vain only after a failed connection, a failed call, or when it hangs. */
  lemma OnlyFailuresStrandWaiting(w: Whole, e: P.Event, i: nat)
    requires WholeInv(w) && WholeAdmissible(w, Goes(Happens(e))) && WaitingAreRegistered(w.net)
    requires P.Possible(w.joint.plant, e) && i < |w.joint.plant.robots| && Strands(w.joint.plant, e, i)
    ensures (e.HandleNotice? && !e.connects) ||
            (e.RetrieveFrom? && (e.callee.None? || !w.joint.plant.robots[i].fault.NoFault?))
  {
    ProtocolKeepsApart(w.net);
    NoticesOfRobots(w.joint.plant);
    AsksTheNotifier(w.joint, e);
    hide N.NetInv, Inv, AllPlaced, AllFresh, Strands, P.Possible, P.Admissible, PickupsApart, WaitingAreRegistered,
         CallsNotifier, IndexAdmissible;
    OnlyFailuresStrand(w.joint.plant, e, i);
  }
}
