/** Progress of dishes: while capabilities stay the same, robots are visited at most as often as there are steps to
    do. */
module PlantVisits {
  import opened Basics
  import opened Recipes
  import R = Robot
  import RI = RobotInvariant
  import RR = RobotRuns
  import RP = RobotProgress
  import C = Conveyor
  import CS = ConveyorSteps
  import opened RobotFifo
  import opened Plant
  import opened PlantInvariant
  import opened PlantRuns
  import opened PlantTheorems

  // ------------------------------------------------------------------ steps that are left

  /** The visits that a dish at a robot may still need after this one. */
  function TicketLeft(book: R.RecipeBook, t: Ticket): nat
  {
    if t.recipe in book && t.steps < |book[t.recipe]| then |book[t.recipe]| - t.steps - 1 else 0
  }

  function TicketsLeft(book: R.RecipeBook, tickets: seq<Ticket>): nat
  {
    if tickets == [] then 0 else TicketLeft(book, tickets[0]) + TicketsLeft(book, tickets[1..])
  }

  function RobotsLeft(book: R.RecipeBook, robots: seq<R.State>): nat
  {
    if robots == [] then 0 else TicketsLeft(book, Backlog(robots[0])) + RobotsLeft(book, robots[1..])
  }

  function PlateLeft(book: R.RecipeBook, p: C.Plate): nat
  {
    if p.occupied && p.recipe in book && p.steps <= |book[p.recipe]| then |book[p.recipe]| - p.steps else 0
  }

  function PlatesLeft(book: R.RecipeBook, plates: seq<C.Plate>): nat
  {
    if plates == [] then 0 else PlateLeft(book, plates[0]) + PlatesLeft(book, plates[1..])
  }

  /** The visits that all dishes of the plant may still need. */
  function VisitsLeft(s: State): nat { RobotsLeft(s.recipes, s.robots) + PlatesLeft(s.recipes, s.belt.plates) }

  lemma {:induction false} TicketsLeftAppend(book: R.RecipeBook, a: seq<Ticket>, b: seq<Ticket>)
    ensures TicketsLeft(book, a + b) == TicketsLeft(book, a) + TicketsLeft(book, b)
  {
    hide TicketLeft;
    if a == [] {
      assert a + b == b;
    } else {
      TicketsLeftAppend(book, a[1..], b);
      assert (a + b)[1..] == a[1..] + b;
    }
  }

  lemma {:induction false} RobotsLeftUpdate(book: R.RecipeBook, robots: seq<R.State>, i: nat, r: R.State)
    requires i < |robots|
    ensures RobotsLeft(book, robots[i := r]) + TicketsLeft(book, Backlog(robots[i])) ==
            RobotsLeft(book, robots) + TicketsLeft(book, Backlog(r))
  {
    hide Backlog, TicketsLeft;
    var changed := robots[i := r];
    if i == 0 {
      assert changed[1..] == robots[1..];
    } else {
      RobotsLeftUpdate(book, robots[1..], i - 1, r);
      assert changed[1..] == robots[1..][i - 1 := r];
    }
  }

  lemma {:induction false} PlatesLeftUpdate(book: R.RecipeBook, plates: seq<C.Plate>, k: nat, p: C.Plate)
    requires k < |plates|
    ensures PlatesLeft(book, plates[k := p]) + PlateLeft(book, plates[k]) ==
            PlatesLeft(book, plates) + PlateLeft(book, p)
  {
    hide PlateLeft;
    var changed := plates[k := p];
    if k == 0 {
      assert changed[1..] == plates[1..];
    } else {
      PlatesLeftUpdate(book, plates[1..], k - 1, p);
      assert changed[1..] == plates[1..][k - 1 := p];
    }
  }

  lemma {:induction false} SamePlatesLeft(book: R.RecipeBook, a: seq<C.Plate>, b: seq<C.Plate>)
    requires PlantRuns.SameDishes(a, b)
    ensures PlatesLeft(book, a) == PlatesLeft(book, b)
  {
    if a != [] {
      assert forall k :: 0 <= k < |a[1..]| ==> a[1..][k] == a[k + 1] && b[1..][k] == b[k + 1];
      SamePlatesLeft(book, a[1..], b[1..]);
    }
  }

  // ------------------------------------------------------------------ one robot

  lemma RobotLeft(book: R.RecipeBook, size: nat, r: R.State, e: R.Event)
    requires RobotOk(book, size, r) && (r.fault.NoFault? ==> R.Admissible(r, e))
    ensures TicketsLeft(book, HandedOver(r, e)) + TicketsLeft(book, Backlog(R.Step(r, e)))
              == TicketsLeft(book, Backlog(r)) + TicketsLeft(book, Accepted(r, e))
  {
    hide RI.Inv, R.Step, R.Admissible, Backlog, HandedOver, Accepted, TicketsLeft;
    if r.fault == R.Deadlocked {
      Hangs(r, e);
    } else {
      RR.NoFaultYet(r);
      StepBacklog(r, e);
      TicketsLeftAppend(book, HandedOver(r, e), Backlog(R.Step(r, e)));
      TicketsLeftAppend(book, Backlog(r), Accepted(r, e));
    }
  }

  lemma RobotsLeftStep(book: R.RecipeBook, size: nat, robots: seq<R.State>, i: nat, e: R.Event)
    requires RobotsOk(book, size, robots) && i < |robots| && (robots[i].fault.NoFault? ==> R.Admissible(robots[i], e))
    ensures RobotsLeft(book, robots[i := R.Step(robots[i], e)]) + TicketsLeft(book, HandedOver(robots[i], e))
              == RobotsLeft(book, robots) + TicketsLeft(book, Accepted(robots[i], e))
  {
    RobotAt(book, size, robots, i);
    RobotLeft(book, size, robots[i], e);
    RobotsLeftUpdate(book, robots, i, R.Step(robots[i], e));
    hide RobotOk, RobotsOk, R.Step, R.Admissible, Backlog, HandedOver, Accepted, TicketsLeft, RobotsLeft;
  }

  lemma NoTickets(book: R.RecipeBook)
    ensures TicketsLeft(book, []) == 0
  {
  }

  lemma OneTicket(book: R.RecipeBook, t: Ticket)
    ensures TicketsLeft(book, [t]) == TicketLeft(book, t)
  {
    assert [t][1..] == [];
  }

  /** A robot that can do the next step of every dish hands a dish over with at least one more step done. */
  lemma HandoverLeft(book: R.RecipeBook, size: nat, r: R.State)
    requires RobotOk(book, size, r) && r.fault.NoFault? && r.pickup && RP.Capable(r)
    ensures |HandedOver(r, R.HandoverEvent)| == 1
    ensures var reply, t := R.HandoverReply(r), HandedOver(r, R.HandoverEvent)[0];
            reply.recipe in book && reply.steps <= |book[reply.recipe]| &&
                |book[reply.recipe]| - reply.steps <= TicketLeft(book, t)
  {
    HandoverReports(r);
    RP.HandoverGains(r, R.HandoverEvent);
    var t := HandedOver(r, R.HandoverEvent)[0];
    PrefixFits(r.caps, book[t.recipe][t.steps..]);
    hide RI.Inv, HandedOver, RP.Capable, Recipes.PrefixLength;
  }

  // ------------------------------------------------------------------ capabilities

  ghost predicate AllCapable(robots: seq<R.State>) { forall i :: 0 <= i < |robots| ==> RP.Capable(robots[i]) }

  /** No reconfiguration takes effect at this step. */
  predicate Steady(s: State, e: Event)
  {
    e.Own? && e.robot < |s.robots| ==> R.Step(s.robots[e.robot], e.event).caps == s.robots[e.robot].caps
  }

  lemma RobotCapable(book: R.RecipeBook, size: nat, r: R.State, e: R.Event)
    requires RobotOk(book, size, r) && (r.fault.NoFault? ==> R.Admissible(r, e)) && RP.Capable(r)
    requires R.Step(r, e).caps == r.caps
    ensures RP.Capable(R.Step(r, e))
  {
    hide RI.Inv, R.Step, R.Admissible, RP.Capable;
    if r.fault == R.Deadlocked {
      Hangs(r, e);
    } else {
      RR.NoFaultYet(r);
      RP.CapableStep(r, e);
    }
  }

  lemma CallCaps(r: R.State, e: R.Event)
    requires e.HandoverEvent? || e.ReceiveTaskEvent?
    ensures R.Step(r, e).caps == r.caps
  {
    if e.ReceiveTaskEvent? { TaskCallOnlyPosts(r, e.recipe, e.steps, e.addressed); }
    hide R.ReceiveTaskCall;
  }

  lemma CapableKeeps(s: State, e: Event, i: nat)
    requires Inv(s) && Admissible(s, e) && Possible(s, e) && AllCapable(s.robots) && Steady(s, e) && i < |s.robots|
    ensures |Next(s, e).robots| == |s.robots| && RP.Capable(Next(s, e).robots[i])
  {
    RobotsRunOnTheirOwn(s, e, i);
    OneRobot(s, i);
    assert RP.Capable(s.robots[i]);
    if RobotEvent(s, e, i).Some? { SteadyRobot(s, e, i); }
    hide *;
    match RobotEvent(s, e, i)
    case None =>
    case Some(event) => RobotCapable(s.recipes, |s.belt.plates|, s.robots[i], event);
  }

  lemma SteadyRobot(s: State, e: Event, i: nat)
    requires Possible(s, e) && Steady(s, e) && i < |s.robots| && RobotEvent(s, e, i).Some?
    ensures R.Step(s.robots[i], RobotEvent(s, e, i).value).caps == s.robots[i].caps
  {
    EventKinds(s, e, i);
    hide R.Step, Fetches;
    var event := RobotEvent(s, e, i).value;
    if event.HandoverEvent? || event.ReceiveTaskEvent? { CallCaps(s.robots[i], event); }
  }

  lemma EventKinds(s: State, e: Event, i: nat)
    requires Possible(s, e) && i < |s.robots| && RobotEvent(s, e, i).Some?
    ensures var event := RobotEvent(s, e, i).value;
            event.HandoverEvent? || event.ReceiveTaskEvent? || (e.Own? && e.robot == i && e.event == event)
  {
    hide Fetches;
  }

  // ------------------------------------------------------------------ one step of the plant

  /** A dish starts a visit: a robot accepts it from the kitchen or from the conveyor. */
  predicate Visits(s: State, e: Event)
    requires Possible(s, e)
  {
    match e
    case PlaceOrder(i, recipe, addressed) => Takes(s.robots[i], recipe, 0, addressed)
    case DeliverFrom(k, callee, kitchen) =>
      var p := s.belt.plates[k];
      !p.done && C.Leaves(p, Answer(s, p, callee), kitchen)
    case _ => false
  }

  /** The steps that the plant takes on: those of the recipe that the kitchen assigns. */
  function TakenOn(s: State, e: Event): nat
    requires Possible(s, e)
  {
    match e
    case PlaceOrder(i, recipe, addressed) =>
      if Takes(s.robots[i], recipe, 0, addressed) && recipe in s.recipes then |s.recipes[recipe]| else 0
    case _ => 0
  }

  function One(b: bool): nat { if b then 1 else 0 }

  lemma OwnVisits(s: State, i: nat, event: R.Event)
    requires Inv(s) && Admissible(s, Own(i, event))
    ensures VisitsLeft(HandleOwn(s, i, event)) == VisitsLeft(s)
  {
    InvRobots(s);
    hide Inv, RobotsOk, R.Step, R.Admissible;
    RobotsLeftStep(s.recipes, |s.belt.plates|, s.robots, i, event);
    OnlyCallsMoveDishes(s.robots[i], event);
    NoTickets(s.recipes);
    hide RobotsLeft, PlatesLeft, Accepted, HandedOver, TicketsLeft;
  }

  /** A dish that is accepted with `steps` done may need as many further visits as it has steps left, less this one. */
  lemma CallVisits(s: State, i: nat, recipe: nat, steps: nat, addressed: nat)
    requires Inv(s) && i < |s.robots| && recipe in s.recipes && steps < |s.recipes[recipe]|
    ensures RobotsLeft(s.recipes, s.robots[i := R.Step(s.robots[i], R.ReceiveTaskEvent(recipe, steps, addressed))])
              == RobotsLeft(s.recipes, s.robots) +
                  (if Takes(s.robots[i], recipe, steps, addressed) then |s.recipes[recipe]| - steps - 1 else 0)
  {
    var e := R.ReceiveTaskEvent(recipe, steps, addressed);
    InvRobots(s);
    RobotAt(s.recipes, |s.belt.plates|, s.robots, i);
    assert R.Admissible(s.robots[i], e);
    hide Inv, RobotOk, RobotsOk, R.Step, R.Admissible;
    RobotsLeftStep(s.recipes, |s.belt.plates|, s.robots, i, e);
    NoTickets(s.recipes);
    OneTicket(s.recipes, Ticket(recipe, steps));
    AcceptedTicket(s.robots[i], recipe, steps, addressed);
    hide RobotsLeft, TicketsLeft, Takes, Accepted, HandedOver;
  }

  lemma AcceptedTicket(r: R.State, recipe: nat, steps: nat, addressed: nat)
    ensures var e := R.ReceiveTaskEvent(recipe, steps, addressed);
            && HandedOver(r, e) == []
            && Accepted(r, e) == if Takes(r, recipe, steps, addressed) then [Ticket(recipe, steps)] else []
  {
    hide R.ReceiveTaskAccepts;
  }

  lemma PlaceOrderVisits(s: State, e: Event)
    requires Inv(s) && Admissible(s, e) && Possible(s, e) && e.PlaceOrder?
    ensures VisitsLeft(Step(s, e)) + One(Visits(s, e)) == VisitsLeft(s) + TakenOn(s, e)
  {
    FirstStep(s, e.recipe);
    CallVisits(s, e.robot, e.recipe, 0, e.addressed);
    hide Inv, R.Step, Takes, RobotsLeft, PlatesLeft;
  }

  lemma DeliveryVisits(s: State, e: Event)
    requires Inv(s) && Admissible(s, e) && Possible(s, e) && e.DeliverFrom?
    ensures VisitsLeft(Step(s, e)) + One(Visits(s, e)) == VisitsLeft(s)
  {
    var k, p := e.plate, s.belt.plates[e.plate];
    var a := Answer(s, p, e.callee);
    OpenStep(s, k);
    ClearedExactly(s, p, e.callee, e.kitchen);
    BeltSteps(s, e);
    DeliveryRobots(s, k, e.callee, e.kitchen);
    DeliveredBelt(s, k, e.callee, e.kitchen);
    DeliveredOutside(s, k, e.callee, e.kitchen);
    PlatesLeftUpdate(s.recipes, s.belt.plates, k, C.PlateAfter(p, a, e.kitchen));
    PlateAfterLeft(s.recipes, p, a, e.kitchen);
    if AtTarget(p) && e.callee.Some? && e.callee.value < |s.robots| {
      CallVisits(s, e.callee.value, p.recipe, p.steps, p.position);
    }
    hide Inv, R.Step, Takes, RobotsLeft, PlatesLeft, Step, HandleDeliverFrom, C.PlateAfter, C.Leaves, Answer, BeltOk,
         DishesOk, PlateLeft;
  }

  lemma PlateAfterLeft(book: R.RecipeBook, p: C.Plate, a: C.Attempt, kitchen: bool)
    requires p.occupied && p.recipe in book && p.steps <= |book[p.recipe]|
    ensures PlateLeft(book, p) == |book[p.recipe]| - p.steps
    ensures PlateLeft(book, C.PlateAfter(p, a, kitchen)) == if C.Leaves(p, a, kitchen) then 0 else PlateLeft(book, p)
  {
  }

  lemma RetrievalVisits(s: State, e: Event)
    requires Inv(s) && Admissible(s, e) && Possible(s, e) && e.RetrieveFrom? && AllCapable(s.robots)
    ensures VisitsLeft(Step(s, e)) <= VisitsLeft(s)
  {
    var n := e.position;
    RetrievalRobots(s, n, e.callee);
    HandoverFillsPlate(s, n, e.callee);
    RetrievalRecipes(s, n, e.callee);
    if Fetches(s, n, e.callee) {
      var i := e.callee.value;
      InvRobots(s);
      RobotAt(s.recipes, |s.belt.plates|, s.robots, i);
      RobotAtBelt(s, i);
      FetchVisits(s, i);
      HandoverTickets(s.robots[i]);
      if R.HandoverReply(s.robots[i]).recipe != 0 {
        var k := s.belt.index[s.robots[i].position];
        PlatesLeftUpdate(s.recipes, s.belt.plates, k, CS.With(s.belt.plates[k], R.HandoverReply(s.robots[i])));
      }
    }
    hide Inv, RobotsOk, RobotOk, R.Step, R.HandoverReply, RobotsLeft, PlatesLeft, HandleRetrieveFrom, PlateLeft,
         AllCapable, Fetches, HandedOver;
  }

  lemma RetrievalRecipes(s: State, n: nat, callee: Option<nat>)
    requires Possible(s, RetrieveFrom(n, callee))
    ensures HandleRetrieveFrom(s, n, callee).recipes == s.recipes
  {
    hide R.Step, C.Retrieve, R.HandoverReply;
  }

  lemma FetchVisits(s: State, i: nat)
    requires Inv(s) && i < |s.robots| && AllCapable(s.robots) && s.robots[i].fault.NoFault?
    ensures var reply, robots := R.HandoverReply(s.robots[i]), s.robots[i := R.Step(s.robots[i], R.HandoverEvent)];
            && (reply.recipe == 0 ==> RobotsLeft(s.recipes, robots) == RobotsLeft(s.recipes, s.robots))
            && (reply.recipe != 0 ==> forall p: C.Plate ::
                  RobotsLeft(s.recipes, robots) +
                      PlateLeft(s.recipes, CS.With(p, reply)) <= RobotsLeft(s.recipes, s.robots))
  {
    InvRobots(s);
    RobotAt(s.recipes, |s.belt.plates|, s.robots, i);
    assert RP.Capable(s.robots[i]);
    RobotsLeftStep(s.recipes, |s.belt.plates|, s.robots, i, R.HandoverEvent);
    HandoverTickets(s.robots[i]);
    NoTickets(s.recipes);
    if s.robots[i].pickup {
      HandoverLeft(s.recipes, |s.belt.plates|, s.robots[i]);
      var t := HandedOver(s.robots[i], R.HandoverEvent)[0];
      assert HandedOver(s.robots[i], R.HandoverEvent) == [t];
      OneTicket(s.recipes, t);
    }
    hide Inv, RobotsOk, RobotOk, R.Step, R.HandoverReply, RobotsLeft, AllCapable, HandedOver, Accepted, TicketsLeft,
         TicketLeft, RP.Capable;
  }

  lemma OtherVisits(s: State, e: Event)
    requires Inv(s) && Admissible(s, e) && Possible(s, e)
    requires e.Renotify? || e.HandleNotice? || e.TimerFires? || e.Finish? || e.NextRobot? || e.Reconnect?
    ensures VisitsLeft(Step(s, e)) == VisitsLeft(s)
  {
    BeltSparesRobots(s, e);
    BeltSparesDishes(s, e);
    SamePlatesLeft(s.recipes, s.belt.plates, Step(s, e).belt.plates);
    hide Inv, Step, RobotsLeft, PlatesLeft, PlantRuns.SameDishes;
  }

  lemma BeltSparesDishes(s: State, e: Event)
    requires Possible(s, e)
    requires (e.Renotify? || e.HandleNotice? || e.TimerFires? || e.Finish? || e.NextRobot? || e.Reconnect?)
    ensures Step(s, e).recipes == s.recipes && PlantRuns.SameDishes(s.belt.plates, Step(s, e).belt.plates)
  {
    BeltSteps(s, e);
    hide HandleTimer, HandleFinish, HandleReconnect, C.HandleNextRobot, HandleNotification, Step;
    match e
    case HandleNotice(connects) => NotificationSpares(s, connects); SameBook(s, e);
    case TimerFires => TimerSpares(s);
    case Finish(env) => FinishSpares(s, env); SameBook(s, e);
    case Reconnect(env) => FinishSpares(s, env); SameBook(s, e);
    case NextRobot(position, known, recipe) => AnswerFrame(s.belt, position, known, recipe);
    case Renotify(_) => RobotsSpare(s, e); SameBook(s, e);
  }

  lemma TimerSpares(s: State)
    requires s.belt.plates != []
    ensures HandleTimer(s).recipes == s.recipes && PlantRuns.SameDishes(s.belt.plates, HandleTimer(s).belt.plates)
  {
    hide C.IndexAfter;
  }

  lemma SameBook(s: State, e: Event)
    requires Possible(s, e) && (e.Renotify? || e.HandleNotice? || e.Finish? || e.Reconnect?)
    ensures Step(s, e).recipes == s.recipes
  {
    hide C.HandleNotification, C.RequestNextRobots;
  }

  /** Every accepted visit uses up one of the visits that are left; nothing but new orders adds to them. */
  lemma StepVisits(s: State, e: Event)
    requires Inv(s) && Admissible(s, e) && Possible(s, e) && AllCapable(s.robots)
    ensures VisitsLeft(Next(s, e)) + One(Visits(s, e)) <= VisitsLeft(s) + TakenOn(s, e)
  {
    hide Inv, VisitsLeft, Step, AllCapable, Admissible;
    match e
    case Own(i, event) => OwnVisits(s, i, event); OwnIs(s, i, event);
    case PlaceOrder(_, _, _) => PlaceOrderVisits(s, e);
    case DeliverFrom(_, _, _) => DeliveryVisits(s, e);
    case RetrieveFrom(_, _) => RetrievalVisits(s, e);
    case _ => OtherVisits(s, e);
  }

  lemma OwnIs(s: State, i: nat, event: R.Event)
    requires Possible(s, Own(i, event))
    ensures Step(s, Own(i, event)) == HandleOwn(s, i, event)
  {
    hide HandleOwn;
  }

  // ------------------------------------------------------------------ whole runs

  ghost predicate AllSteady(s: State, events: seq<Event>)
    requires Inv(s) && AllAdmissible(s, events)
    decreases |events|
  {
    events == [] || (Steady(s, events[0]) && AllSteady(Next(s, events[0]), events[1..]))
  }

  ghost function VisitCount(s: State, events: seq<Event>): nat
    requires Inv(s) && AllAdmissible(s, events)
    decreases |events|
  {
    if events == [] then 0
    else
      InvPossible(s, events[0]);
      One(Visits(s, events[0])) + VisitCount(Next(s, events[0]), events[1..])
  }

  ghost function StepsTakenOn(s: State, events: seq<Event>): nat
    requires Inv(s) && AllAdmissible(s, events)
    decreases |events|
  {
    if events == [] then 0
    else
      InvPossible(s, events[0]);
      TakenOn(s, events[0]) + StepsTakenOn(Next(s, events[0]), events[1..])
  }

  lemma AllCapableKeeps(s: State, e: Event)
    requires Inv(s) && Admissible(s, e) && AllCapable(s.robots) && Steady(s, e)
    ensures AllCapable(Next(s, e).robots)
  {
    InvPossible(s, e);
    forall i | 0 <= i < |Next(s, e).robots| ensures RP.Capable(Next(s, e).robots[i]) {
      RobotNumber(s, e);
      CapableKeeps(s, e, i);
    }
    hide Inv, Step, Admissible, Possible, RP.Capable;
  }

  lemma RobotNumber(s: State, e: Event)
    requires Possible(s, e)
    ensures |Step(s, e).robots| == |s.robots|
  {
    if s.robots == [] {
      hide C.HandleNextRobot, C.RequestNextRobots, C.Moved, C.HandleNotification, DeliverOne, Answer, C.Leaves;
    } else {
      RobotsFollow(s, e, 0);
      hide Step, Possible, RobotEvent;
    }
  }

  lemma {:induction false} VisitsUsed(s: State, events: seq<Event>)
    requires Inv(s) && AllAdmissible(s, events) && AllCapable(s.robots) && AllSteady(s, events)
    ensures VisitsLeft(Run(s, events)) + VisitCount(s, events) <= VisitsLeft(s) + StepsTakenOn(s, events)
    decreases |events|
  {
    if events != [] {
      InvPossible(s, events[0]);
      StepVisits(s, events[0]);
      AllCapableKeeps(s, events[0]);
      hide Inv, Step, Admissible, Possible, AllCapable, VisitsLeft, Visits, TakenOn, Steady;
      VisitsUsed(Next(s, events[0]), events[1..]);
    }
  }

  /** On every run from an empty plant on which no reconfiguration takes effect, robots accept dishes at most as
      often as the recipes that the kitchen has assigned have steps. */
  lemma VisitsBounded(book: R.RecipeBook, n: nat, robots: seq<R.State>, events: seq<Event>)
    requires RI.WellFormed(book) && n > 0 && Started(book, n, robots) && Inv(Initial(book, n, robots))
    requires AllAdmissible(Initial(book, n, robots), events) && AllSteady(Initial(book, n, robots), events)
    ensures VisitCount(Initial(book, n, robots), events) <= StepsTakenOn(Initial(book, n, robots), events)
  {
    RobotsStart(book, n, robots);
    EmptyBelt(book, robots, n);
    NothingLeft(book, robots);
    NoPlates(book, C.Initial(n).plates);
    assert AllCapable(robots);
    hide Inv, VisitsLeft, RobotsLeft, PlatesLeft, AllAdmissible, AllSteady, VisitCount, StepsTakenOn, Run, AllCapable,
         C.Initial, Started, RI.WellFormed;
    var s0 := Initial(book, n, robots);
    assert VisitsLeft(s0) == 0 by { LeftAtStart(s0); }
    assert AllCapable(s0.robots);
    hide Initial;
    VisitsUsed(s0, events);
  }

  lemma LeftAtStart(s: State)
    requires RobotsLeft(s.recipes, s.robots) == 0 && PlatesLeft(s.recipes, s.belt.plates) == 0
    ensures VisitsLeft(s) == 0
  {
  }

  lemma {:induction false} NothingLeft(book: R.RecipeBook, robots: seq<R.State>)
    requires forall i :: 0 <= i < |robots| ==> Backlog(robots[i]) == []
    ensures RobotsLeft(book, robots) == 0
  {
    hide Backlog;
    if robots != [] {
      assert forall i :: 0 <= i < |robots[1..]| ==> robots[1..][i] == robots[i + 1];
      NothingLeft(book, robots[1..]);
    }
  }

  lemma {:induction false} NoPlates(book: R.RecipeBook, plates: seq<C.Plate>)
    requires forall i :: 0 <= i < |plates| ==> !plates[i].occupied
    ensures PlatesLeft(book, plates) == 0
  {
    if plates != [] {
      assert forall i :: 0 <= i < |plates[1..]| ==> plates[1..][i] == plates[i + 1];
      NoPlates(book, plates[1..]);
    }
  }
}
