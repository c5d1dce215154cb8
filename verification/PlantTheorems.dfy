/** What the plant guarantees for every dish. */
module PlantTheorems {
  import opened Basics
  import R = Robot
  import RI = RobotInvariant
  import RL = RobotLegs
  import RR = RobotRuns
  import C = Conveyor
  import CI = ConveyorInvariant
  import opened RobotFifo
  import opened Plant
  import opened PlantInvariant
  import opened PlantRuns

  // ------------------------------------------------------------------ what single steps do to dishes

  /** What a handover does to the belt: the dish is put on the plate in front of the robot, and nothing else changes. */
  lemma HandoverFillsPlate(s: State, n: nat, callee: Option<nat>)
    requires Possible(s, RetrieveFrom(n, callee)) && Inv(s) && n in s.work.todo
    ensures var s' := HandleRetrieveFrom(s, n, callee);
            if !Fetches(s, n, callee) || R.HandoverReply(s.robots[callee.value]).recipe == 0
            then s'.belt.plates == s.belt.plates
            else
              var r := s.robots[callee.value];
              var reply := R.HandoverReply(r);
              && C.OnBelt(s.belt, r.position)
              && var k := s.belt.index[r.position];
                 && s.belt.plates[k].position == r.position
                 && s'.belt.plates == s.belt.plates[k := s.belt.plates[k].(recipe := reply.recipe, occupied := true,
                    done := reply.finished, steps := reply.steps)]
  {
    NotifiedAt(s, n);
    if Reached(s, callee) { RobotAtBelt(s, callee.value); }
    hide Inv, R.HandoverReply;
    if Fetchable(s, n) {
      RetrievedPlate(s.belt, n, None);
      if Fetches(s, n, callee) { RetrievedPlate(s.belt, n, Some(R.HandoverReply(s.robots[callee.value]))); }
    }
    hide C.Retrieve, R.Step;
  }

  predicate SameDish(p: C.Plate, q: C.Plate)
  {
    q.occupied == p.occupied && q.recipe == p.recipe && q.steps == p.steps && q.done == p.done
  }

  /** The plate whose dish is replaced. */
  predicate OverwritesPlate(s: State, e: Event, k: nat)
  {
    StepOverwrites(s, e) && s.belt.index[R.HandoverReply(s.robots[e.callee.value]).position] == k
  }

  /** A dish is put on an occupied plate exactly when the conveyor asks a robot with a dish that stands in front of that
      plate. It stands elsewhere than the notification says then, and afterwards its dish is on the plate instead. */
  lemma OverwritesPlateExactly(s: State, e: Event, k: nat)
    requires Inv(s) && Admissible(s, e) && k < |s.belt.plates| && s.belt.plates[k].occupied
    ensures OverwritesPlate(s, e, k) <==>
              && e.RetrieveFrom? && Fetches(s, e.position, e.callee)
              && s.robots[e.callee.value].pickup && s.robots[e.callee.value].position == s.belt.plates[k].position
    ensures OverwritesPlate(s, e, k) ==>
              var r, s' := s.robots[e.callee.value], Next(s, e);
              && r.position != e.position && |s'.belt.plates| == |s.belt.plates|
              && s'.belt.plates[k] ==
                 s.belt.plates[k].(recipe := r.recipe, steps := r.overallProcessed, done := r.finished)
  {
    if e.RetrieveFrom? && Fetches(s, e.position, e.callee) {
      InvPossible(s, e);
      NextRetrieval(s, e.position, e.callee);
      HandoverFillsPlate(s, e.position, e.callee);
      AskedInFront(s, e.position, e.callee, k);
    }
    hide Inv, Admissible, Possible, Step, R.HandoverReply, HandleRetrieveFrom, Fetches;
  }

  lemma AskedInFront(s: State, n: nat, callee: Option<nat>, k: nat)
    requires Inv(s) && Admissible(s, RetrieveFrom(n, callee)) && Fetches(s, n, callee)
    requires k < |s.belt.plates| && s.belt.plates[k].occupied
    ensures var r, reply := s.robots[callee.value], R.HandoverReply(s.robots[callee.value]);
            && (reply.recipe != 0 <==> r.pickup)
            && (r.pickup ==> reply == R.Dish(r.position, r.recipe, r.overallProcessed, r.finished))
            && (Overwrites(s, n, callee) && s.belt.index[reply.position] == k <==>
                  r.pickup && r.position == s.belt.plates[k].position)
            && (r.pickup && r.position == s.belt.plates[k].position ==> r.position != n)
  {
    NotifiedAt(s, n);
    RobotAtBelt(s, callee.value);
    OneRobot(s, callee.value);
    PickupHasDish(s, callee.value);
    PlateIndexed(s, k);
    hide Inv, RI.Inv;
  }

  lemma PickupHasDish(s: State, i: nat)
    requires Inv(s) && i < |s.robots| && s.robots[i].fault.NoFault?
    ensures s.robots[i].pickup ==> s.robots[i].recipe != 0
  {
    OneRobot(s, i);
    hide Inv;
    if s.robots[i].pickup { PickupDish(s.robots[i]); }
  }

  lemma PlateIndexed(s: State, k: nat)
    requires Inv(s) && s.work.Retrieving? && k < |s.belt.plates|
    ensures C.OnBelt(s.belt, s.belt.plates[k].position) && s.belt.index[s.belt.plates[k].position] == k
  {
  }

  /** A step puts a dish on another one if it does so on some plate. */
  lemma OverwritesSomePlate(s: State, e: Event)
    requires Inv(s) && Admissible(s, e)
    ensures StepOverwrites(s, e) <==>
              exists k :: 0 <= k < |s.belt.plates| && s.belt.plates[k].occupied && OverwritesPlate(s, e, k)
  {
    if StepOverwrites(s, e) {
      var k := s.belt.index[R.HandoverReply(s.robots[e.callee.value]).position];
      assert OverwritesPlate(s, e, k) && s.belt.plates[k].occupied;
    }
    hide Inv, R.HandoverReply;
  }

  lemma RetrievalSpares(s: State, n: nat, callee: Option<nat>, k: nat)
    requires Inv(s) && Admissible(s, RetrieveFrom(n, callee)) && k < |s.belt.plates| && s.belt.plates[k].occupied
    requires !OverwritesPlate(s, RetrieveFrom(n, callee), k)
    ensures var s' := Next(s, RetrieveFrom(n, callee)); k < |s'.belt.plates| && s'.belt.plates[k] == s.belt.plates[k]
  {
    var s' := Next(s, RetrieveFrom(n, callee));
    InvPossible(s, RetrieveFrom(n, callee));
    HandoverFillsPlate(s, n, callee);
    NextRetrieval(s, n, callee);
    if Fetches(s, n, callee) {
      RobotAtBelt(s, callee.value);
      FreePlate(s, n, callee, k);
    }
    hide Inv, R.HandoverReply, HandleRetrieveFrom, Fetches, Overwrites, Possible, Admissible, Step, OverwritesPlate;
  }

  lemma NextRetrieval(s: State, n: nat, callee: Option<nat>)
    requires Possible(s, RetrieveFrom(n, callee))
    ensures Step(s, RetrieveFrom(n, callee)) == HandleRetrieveFrom(s, n, callee)
  {
    hide HandleRetrieveFrom;
  }

  lemma FreePlate(s: State, n: nat, callee: Option<nat>, k: nat)
    requires Fetches(s, n, callee) && k < |s.belt.plates| && s.belt.plates[k].occupied
    requires !OverwritesPlate(s, RetrieveFrom(n, callee), k)
    ensures var reply := R.HandoverReply(s.robots[callee.value]);
            reply.recipe != 0 && C.OnBelt(s.belt, reply.position) ==> s.belt.index[reply.position] != k
  {
    hide R.HandoverReply;
  }

  lemma RequestsSpare(s: State, env: C.Env)
    ensures DetermineNextMovement(s, env).belt.plates == s.belt.plates
  {
    RequestsFrame(s.belt, env);
    hide C.RequestNextRobots;
  }

  lemma AnswerSpares(c: C.State, position: nat, known: bool, recipe: nat, k: nat)
    requires k < |c.plates| && (c.queue != [] ==> C.OnBelt(c, c.queue[0]))
    ensures var c' := C.HandleNextRobot(c, position, known, recipe);
            |c'.plates| == |c.plates| && SameDish(c.plates[k], c'.plates[k])
  {
  }

  lemma MovementSpares(s: State, k: nat)
    requires k < |s.belt.plates|
    ensures var s' := HandleTimer(s);
            |s'.belt.plates| == |s.belt.plates| && SameDish(s.belt.plates[k], s'.belt.plates[k])
  {
    hide C.IndexAfter;
  }

  lemma DeliverySpares(s: State, j: nat, callee: Option<nat>, kitchen: bool, k: nat)
    requires s.work.Delivering? && j < |s.belt.plates| && k < |s.belt.plates| && j != k
    ensures HandleDeliverFrom(s, j, callee, kitchen).belt.plates[k] == s.belt.plates[k]
  {
    hide R.Step, C.PlateAfter, C.Leaves, C.Corrupts;
  }

  lemma FinishSpares(s: State, env: C.Env)
    ensures HandleFinish(s, env).belt.plates == HandleReconnect(s, env).belt.plates == s.belt.plates
  {
    RequestsSpare(s, env);
    RequestsFrame(s.belt, env);
    RequestsSpare(s.(belt := s.belt.(queue := [])), env);
    hide C.RequestNextRobots, DetermineNextMovement;
  }

  lemma NotificationSpares(s: State, connects: bool)
    requires s.notices != []
    ensures HandleNotification(s, connects).belt.plates == s.belt.plates
  {
  }

  lemma RobotsSpare(s: State, e: Event)
    requires Possible(s, e) && (e.Own? || e.PlaceOrder? || e.Renotify?)
    ensures Step(s, e).belt == s.belt
  {
    hide R.Step, Takes;
  }

  lemma BeltSteps(s: State, e: Event)
    requires Possible(s, e)
    ensures e.HandleNotice? ==> Step(s, e) == HandleNotification(s, e.connects)
    ensures e.TimerFires? ==> Step(s, e) == HandleTimer(s)
    ensures e.DeliverFrom? ==> Step(s, e) == HandleDeliverFrom(s, e.plate, e.callee, e.kitchen)
    ensures e.Finish? ==> Step(s, e) == HandleFinish(s, e.env)
    ensures e.Reconnect? ==> Step(s, e) == HandleReconnect(s, e.env)
    ensures e.NextRobot? ==> Step(s, e) == s.(belt := C.HandleNextRobot(s.belt, e.position, e.known, e.recipe))
  {
    hide HandleNotification, HandleTimer, HandleDeliverFrom, HandleFinish, HandleReconnect, C.HandleNextRobot;
  }

  /** No other event touches a dish on a plate. */
  lemma OthersSpare(s: State, e: Event, k: nat)
    requires Inv(s) && Admissible(s, e) && k < |s.belt.plates| && s.belt.plates[k].occupied
    requires !(e.DeliverFrom? && e.plate == k) && !OverwritesPlate(s, e, k)
    ensures k < |Next(s, e).belt.plates| && SameDish(s.belt.plates[k], Next(s, e).belt.plates[k])
  {
    InvPossible(s, e);
    hide Inv, R.Step, R.HandoverReply, C.HandleNextRobot, HandleTimer, HandleRetrieveFrom, HandleDeliverFrom,
         HandleFinish, HandleReconnect, HandleNotification, OverwritesPlate,
         HandleOwn, HandlePlaceOrder, HandleRenotify, Step;
    assert Next(s, e) == Step(s, e);
    BeltSteps(s, e);
    match e
    case Own(_, _) => RobotsSpare(s, e);
    case PlaceOrder(_, _, _) => RobotsSpare(s, e);
    case Renotify(_) => RobotsSpare(s, e);
    case HandleNotice(connects) => NotificationSpares(s, connects);
    case TimerFires => MovementSpares(s, k);
    case RetrieveFrom(n, callee) => RetrievalSpares(s, n, callee, k);
    case DeliverFrom(j, callee, kitchen) => DeliverySpares(s, j, callee, kitchen, k);
    case Finish(env) => FinishSpares(s, env);
    case Reconnect(env) => FinishSpares(s, env);
    case NextRobot(position, known, recipe) => AnswerSpares(s.belt, position, known, recipe, k);
  }

  lemma Takeover(book: R.RecipeBook, size: nat, r: R.State, recipe: nat, steps: nat, addressed: nat)
    requires RobotOk(book, size, r) && recipe in book && steps < |book[recipe]| && Takes(r, recipe, steps, addressed)
    ensures Backlog(R.Step(r, R.ReceiveTaskEvent(recipe, steps, addressed))) == Backlog(r) + [Ticket(recipe, steps)]
  {
    hide RI.Inv, Backlog, R.Step;
    StepBacklog(r, R.ReceiveTaskEvent(recipe, steps, addressed));
    assert forall b: seq<Ticket> :: [] + b == b;
  }

  /** A dish leaves its plate only for the kitchen, when every step of its recipe is done, or for a robot, which
      then has it with the steps it still needs, unless another dish is put on its plate. */
  lemma ClearedOnlyWhenTaken(s: State, e: Event, k: nat)
    requires Inv(s) && Admissible(s, e) && k < |s.belt.plates| && s.belt.plates[k].occupied
    ensures var p, s' := s.belt.plates[k], Next(s, e);
            || (k < |s'.belt.plates| && SameDish(p, s'.belt.plates[k]))
            || OverwritesPlate(s, e, k)
            || (ToKitchen(s, e, k) && s'.completedDishes == s.completedDishes + multiset{p.recipe})
            || (ToRobot(s, e, k)
                && Backlog(s'.robots[e.callee.value]) ==
                   Backlog(s.robots[e.callee.value]) + [Ticket(p.recipe, p.steps)])
  {
    hide Inv, Backlog, R.Step;
    if e.DeliverFrom? && e.plate == k {
      var p, a := s.belt.plates[k], Answer(s, s.belt.plates[k], e.callee);
      OpenStep(s, k);
      ClearedExactly(s, p, e.callee, e.kitchen);
      if C.Leaves(p, a, e.kitchen) && !p.done {
        OneRobot(s, e.callee.value);
        Takeover(s.recipes, |s.belt.plates|, s.robots[e.callee.value], p.recipe, p.steps, p.position);
      }
      hide RobotOk;
    } else if !OverwritesPlate(s, e, k) {
      OthersSpare(s, e, k);
    }
  }

  /** A robot that is called about a dish takes it: it answers, has settled at the place named, and is capable of the
      step that comes next. */
  predicate Fit(s: State, callee: Option<nat>, recipe: nat, steps: nat, place: nat)
  {
    && callee.Some? && callee.value < |s.robots|
    && var r := s.robots[callee.value];
       && r.fault.NoFault? && RL.LegOf(r).Settled? && r.position == place
       && recipe in s.recipes && steps < |s.recipes[recipe]| && s.recipes[recipe][steps].name in r.caps
  }

  lemma FitTakes(s: State, callee: Option<nat>, recipe: nat, steps: nat, place: nat)
    requires Inv(s) && recipe in s.recipes && steps < |s.recipes[recipe]|
    ensures (callee.Some? && callee.value < |s.robots| && Takes(s.robots[callee.value], recipe, steps, place)) <==>
            Fit(s, callee, recipe, steps, place)
  {
    if callee.Some? && callee.value < |s.robots| {
      var r := s.robots[callee.value];
      OneRobot(s, callee.value);
      if r.fault.NoFault? { RL.TaskTakenExactly(r, recipe, steps, place); }
    }
    hide Inv, RI.Inv, RL.LegOf, R.ReceiveTaskAccepts;
  }

  /** A dish that is offered at its target leaves its plate exactly when the robot that is called has settled in front
      of it and is capable of its next step; however many steps other robots have done, that robot then has the dish. */
  lemma DeliveredExactly(s: State, k: nat, callee: Option<nat>, kitchen: bool)
    requires Inv(s) && Admissible(s, DeliverFrom(k, callee, kitchen)) && k < |s.belt.plates|
    requires var p := s.belt.plates[k]; p.occupied && !p.done && p.target != 0 && p.position == p.target
    ensures var p, s' := s.belt.plates[k], Next(s, DeliverFrom(k, callee, kitchen));
            && k < |s'.belt.plates| && (!s'.belt.plates[k].occupied <==> Fit(s, callee, p.recipe, p.steps, p.position))
            && (Fit(s, callee, p.recipe, p.steps, p.position) ==>
                  callee.value < |s'.robots| && Backlog(s'.robots[callee.value]) ==
                  Backlog(s.robots[callee.value]) + [Ticket(p.recipe, p.steps)])
  {
    var p, e := s.belt.plates[k], DeliverFrom(k, callee, kitchen);
    InvPossible(s, e);
    OpenStep(s, k);
    FitTakes(s, callee, p.recipe, p.steps, p.position);
    OfferedPlate(s, k, callee, kitchen);
    BeltSteps(s, e);
    hide Inv, Backlog, R.Step, Takes, Fit, RobotOk, Step, HandleDeliverFrom;
    if Fit(s, callee, p.recipe, p.steps, p.position) {
      OneRobot(s, callee.value);
      Takeover(s.recipes, |s.belt.plates|, s.robots[callee.value], p.recipe, p.steps, p.position);
    }
  }

  lemma OfferedPlate(s: State, k: nat, callee: Option<nat>, kitchen: bool)
    requires s.work.Delivering? && k < |s.belt.plates|
    requires var p := s.belt.plates[k]; p.occupied && !p.done && p.target != 0 && p.position == p.target
    ensures var p, s' := s.belt.plates[k], HandleDeliverFrom(s, k, callee, kitchen);
            var taken := callee.Some? && callee.value < |s.robots| &&
                Takes(s.robots[callee.value], p.recipe, p.steps, p.position);
            && k < |s'.belt.plates| && (!s'.belt.plates[k].occupied <==> taken)
            && (taken ==> s'.robots == s.robots[callee.value := R.Step(s.robots[callee.value],
                     R.ReceiveTaskEvent(p.recipe, p.steps, p.position))])
  {
    hide R.Step;
    if callee.Some? && callee.value < |s.robots| { AcceptedHere(s.robots[callee.value], s.belt.plates[k]); }
    hide R.ReceiveTaskAccepts;
  }

  lemma AcceptedHere(r: R.State, p: C.Plate)
    ensures R.ReceiveTaskAccepts(r, p.recipe, p.steps, p.position) ==> r.position == p.position
  {
  }

  /** The kitchen's order is taken exactly when the robot has settled at the place named and is capable of the first
      step. */
  lemma OrderTakenExactly(s: State, i: nat, recipe: nat, addressed: nat)
    requires Inv(s) && Admissible(s, PlaceOrder(i, recipe, addressed))
    ensures var s' := Next(s, PlaceOrder(i, recipe, addressed));
            && s'.assignedDishes ==
               s.assignedDishes + (if Fit(s, Some(i), recipe, 0, addressed) then multiset{recipe} else multiset{})
            && i < |s'.robots|
            && (Fit(s, Some(i), recipe, 0, addressed) ==>
                  Backlog(s'.robots[i]) == Backlog(s.robots[i]) + [Ticket(recipe, 0)])
  {
    InvPossible(s, PlaceOrder(i, recipe, addressed));
    FirstStep(s, recipe);
    FitTakes(s, Some(i), recipe, 0, addressed);
    if Fit(s, Some(i), recipe, 0, addressed) {
      OneRobot(s, i);
      Takeover(s.recipes, |s.belt.plates|, s.robots[i], recipe, 0, addressed);
    }
    hide Inv, Backlog, R.Step, Takes, Fit, RobotOk;
  }

  lemma OneRobot(s: State, i: nat)
    requires Inv(s) && i < |s.robots|
    ensures RobotOk(s.recipes, |s.belt.plates|, s.robots[i])
  {
  }

  predicate ToKitchen(s: State, e: Event, k: nat)
    requires k < |s.belt.plates|
  {
    var p := s.belt.plates[k];
    && e.DeliverFrom? && e.plate == k && e.kitchen && p.position == C.OUTPUT_POSITION
    && p.recipe in s.recipes && p.steps == |s.recipes[p.recipe]|
  }

  predicate ToRobot(s: State, e: Event, k: nat)
    requires k < |s.belt.plates|
  {
    var p := s.belt.plates[k];
    && e.DeliverFrom? && e.plate == k && e.callee.Some? && e.callee.value < |s.robots| && AtTarget(p)
    && p.recipe in s.recipes && p.steps < |s.recipes[p.recipe]| && s.robots[e.callee.value].position == p.position
  }

  // ------------------------------------------------------------------ what one robot sees

  /** The event of robot `i` that a step of the plant comes to, if any. */
  function RobotEvent(s: State, e: Event, i: nat): Option<R.Event>
    requires i < |s.robots| && Possible(s, e)
  {
    match e
    case Own(j, event) => if j == i then Some(event) else None
    case PlaceOrder(j, recipe, addressed) => if j == i then Some(R.ReceiveTaskEvent(recipe, 0, addressed)) else None
    case RetrieveFrom(n, callee) =>
      if Fetches(s, n, callee) && callee.value == i then Some(R.HandoverEvent) else None
    case DeliverFrom(k, callee, _) =>
      var p := s.belt.plates[k];
      if AtTarget(p) && callee == Some(i) then Some(R.ReceiveTaskEvent(p.recipe, p.steps, p.position)) else None
    case _ => None
  }

  lemma DeliveryIsOpen(s: State, e: Event)
    requires Inv(s) && Admissible(s, e) && e.DeliverFrom? && AtTargetOf(s, e.plate)
    ensures var p := s.belt.plates[e.plate]; p.recipe in s.recipes && p.steps < |s.recipes[p.recipe]|
  {
    OpenStep(s, e.plate);
  }

  predicate AtTargetOf(s: State, k: nat) { k < |s.belt.plates| && AtTarget(s.belt.plates[k]) }

  lemma RobotsFollow(s: State, e: Event, i: nat)
    requires Possible(s, e) && i < |s.robots|
    ensures |Step(s, e).robots| == |s.robots|
    ensures Step(s, e).robots[i] ==
            match RobotEvent(s, e, i) case None => s.robots[i] case Some(event) => R.Step(s.robots[i], event)
  {
    hide R.Step, HandleTimer, HandleRetrieveFrom, HandleDeliverFrom, HandleFinish, HandleReconnect, HandleNotification,
         R.HandoverReply, C.HandleNextRobot;
    match e
    case RetrieveFrom(n, callee) => RetrievalRobots(s, n, callee);
    case DeliverFrom(j, callee, kitchen) => DeliveryRobots(s, j, callee, kitchen);
    case Own(_, _) =>
    case PlaceOrder(_, _, _) =>
    case _ => BeltSparesRobots(s, e);
  }

  lemma CallsAreOpen(s: State, e: Event, i: nat)
    requires Inv(s) && Admissible(s, e) && i < |s.robots| && Possible(s, e)
    ensures RobotEvent(s, e, i).Some? && s.robots[i].fault.NoFault? ==>
            R.Admissible(s.robots[i], RobotEvent(s, e, i).value)
  {
    OneRobot(s, i);
    if e.PlaceOrder? { FirstStep(s, e.recipe); }
    if e.DeliverFrom? && AtTargetOf(s, e.plate) { DeliveryIsOpen(s, e); }
    hide Inv, RI.Inv, R.HandoverReply;
  }

  /** Every robot of the plant runs as a robot does by itself, and what a robot relies on its callers for holds:
      it is only asked for open steps of known recipes. */
  lemma RobotsRunOnTheirOwn(s: State, e: Event, i: nat)
    requires Inv(s) && Admissible(s, e) && i < |s.robots| && Possible(s, e)
    ensures |Next(s, e).robots| == |s.robots|
    ensures Next(s, e).robots[i] ==
            match RobotEvent(s, e, i) case None => s.robots[i] case Some(event) => R.Step(s.robots[i], event)
    ensures RobotEvent(s, e, i).Some? && s.robots[i].fault.NoFault? ==>
            R.Admissible(s.robots[i], RobotEvent(s, e, i).value)
  {
    RobotsFollow(s, e, i);
    CallsAreOpen(s, e, i);
    hide Inv, Admissible, Possible, Step, RobotEvent, R.Step, R.Admissible;
  }

  lemma FirstStep(s: State, recipe: nat)
    requires Inv(s) && recipe in s.recipes
    ensures |s.recipes[recipe]| > 0
  {
    assert s.recipes[recipe] != [];
  }

  lemma RetrievalRobots(s: State, n: nat, callee: Option<nat>)
    requires Possible(s, RetrieveFrom(n, callee))
    ensures HandleRetrieveFrom(s, n, callee).robots ==
              if Fetches(s, n, callee) then s.robots[callee.value := R.Step(s.robots[callee.value], R.HandoverEvent)]
                  else s.robots
  {
    hide R.Step, C.Retrieve, R.HandoverReply;
  }

  lemma BeltSparesRobots(s: State, e: Event)
    requires Possible(s, e)
    requires (e.Renotify? || e.HandleNotice? || e.TimerFires? || e.Finish? || e.NextRobot? || e.Reconnect?)
    ensures Step(s, e).robots == s.robots
  {
    hide C.HandleNextRobot, C.RequestNextRobots, C.Moved, C.HandleNotification;
  }

  lemma BacklogGrows(book: R.RecipeBook, size: nat, r: R.State, e: R.Event)
    requires RobotOk(book, size, r) && (r.fault.NoFault? ==> R.Admissible(r, e)) && !e.HandoverEvent?
    ensures Backlog(r) <= Backlog(R.Step(r, e))
  {
    hide RI.Inv, Backlog, R.Step, R.Admissible;
    if r.fault == R.Deadlocked {
      Hangs(r, e);
    } else {
      RR.NoFaultYet(r);
      StepBacklog(r, e);
      assert HandedOver(r, e) == [];
      assert [] + Backlog(R.Step(r, e)) == Backlog(R.Step(r, e));
    }
  }

  // ------------------------------------------------------------------ plates one by one

  function DeliverEach(c: C.State, e: C.Env, order: seq<nat>): (r: C.State)
    requires forall k :: 0 <= k < |order| ==> order[k] < |c.plates|
    ensures |r.plates| == |c.plates|
    decreases |order|
  {
    if order == [] then c
    else
      var last := order[|order| - 1];
      DeliverOne(DeliverEach(c, e, order[..|order| - 1]), last, e.attempts(last), e.kitchen)
  }

  lemma {:induction false} DeliveredSoFar(c: C.State, e: C.Env, order: seq<nat>)
    requires forall k :: 0 <= k < |order| ==> order[k] < |c.plates| && order[k] in c.occupied
    requires forall k, l :: 0 <= k < l < |order| ==> order[k] != order[l]
    ensures var c' := DeliverEach(c, e, order);
            && c' == c.(plates := c'.plates, occupied := c'.occupied, trouble := c'.trouble)
            && (forall i :: 0 <= i < |c.plates| ==>
                  c'.plates[i] == if i in order then C.PlateAfter(c.plates[i], e.attempts(i), e.kitchen)
                      else c.plates[i])
            && (forall i :: i in c'.occupied <==>
               i in c.occupied && !(i in order && C.Leaves(c.plates[i], e.attempts(i), e.kitchen)))
            && (c'.trouble == if exists i :: i in order && C.Corrupts(c.plates[i], e.attempts(i)) then C.Corrupted
               else c.trouble)
    decreases |order|
  {
    hide C.PlateAfter, C.Leaves, C.Corrupts;
    if order != [] {
      var front, last := order[..|order| - 1], order[|order| - 1];
      DeliveredSoFar(c, e, front);
      assert forall i :: i in order <==> i in front || i == last;
    }
  }

  /** Cut at its calls, in any order of the plates, a delivery is the conveyor's own. */
  lemma DeliveredOneByOne(c: C.State, e: C.Env, order: seq<nat>)
    requires CI.PlatesOk(c.plates, c.occupied)
    requires forall k, l :: 0 <= k < l < |order| ==> order[k] != order[l]
    requires forall i :: i in order <==> i in c.occupied
    ensures (forall k :: 0 <= k < |order| ==> order[k] < |c.plates|) && DeliverEach(c, e, order) == C.Deliver(c, e)
  {
    forall k | 0 <= k < |order| ensures order[k] < |c.plates| && order[k] in c.occupied { assert order[k] in order; }
    DeliveredSoFar(c, e, order);
    hide C.PlateAfter, C.Leaves, C.Corrupts;
    var a, b := DeliverEach(c, e, order), C.Deliver(c, e);
    assert a.plates == b.plates && a.occupied == b.occupied;
  }

  /** A reconnection does in the plant what it does in the conveyor: outstanding requests are given up and made anew,
      after the dishes of waiting robots have been fetched. */
  lemma ReconnectIsTheBelts(s: State, env: C.Env)
    requires s.work.AtRest? && C.Positions(s.belt, env.positionOrder, env.handovers)
    ensures var s' := Step(s, Reconnect(env));
            if s.belt.notified != {} && s.belt.moving && s.belt.queue != []
            then s'.work == Retrieving(s.belt.notified) && s'.belt == s.belt.(queue := [])
            else s'.work == AtRest && s'.belt == C.HandleReconnect(s.belt, env)
  {
    hide C.RequestNextRobots, C.HandleRetrieval, C.Positions;
  }
}
