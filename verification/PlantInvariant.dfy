/** What every step of the plant keeps. */
module PlantInvariant {
  import opened Recipes
  import R = Robot
  import RI = RobotInvariant
  import RR = RobotRuns
  import RS = RobotSteps
  import RP = RobotProgress
  import C = Conveyor
  import CI = ConveyorInvariant
  import CS = ConveyorSteps
  import opened RobotFifo
  import opened Plant

  /** A robot that keeps its invariant, or hangs. */
  ghost predicate RobotOk(book: R.RecipeBook, size: nat, r: R.State)
  {
    && r.recipes == book && r.conveyorSize == size && 0 < r.position < size
    && (RI.Inv(r) || r.fault == R.Deadlocked)
  }

  ghost predicate RobotsOk(book: R.RecipeBook, size: nat, robots: seq<R.State>)
  {
    forall i :: 0 <= i < |robots| ==> RobotOk(book, size, robots[i])
  }

  predicate Queued(notices: seq<Notice>, i: nat) { exists j :: 0 <= j < |notices| && notices[j].robot == i }

  predicate Filed(notified: set<nat>, notifier: map<nat, nat>, i: nat)
  {
    exists n :: n in notified && n in notifier && notifier[n] == i
  }

  /** The conveyor has, or will get, a notification of the robot. */
  predicate Announced(s: State, i: nat) { Queued(s.notices, i) || Filed(s.belt.notified, s.notifier, i) }

  /** A dish waits for its pickup, and nobody will ask for it. */
  predicate Stranded(s: State, i: nat) { i < |s.robots| && s.robots[i].pickup && !Announced(s, i) }

  /** Notifications come from robots at the belt. */
  predicate NoticesOk(n: nat, size: nat, notices: seq<Notice>, notified: set<nat>, notifier: map<nat, nat>)
  {
    && (forall j :: 0 <= j < |notices| ==> notices[j].robot < n && notices[j].position < size)
    && (forall m :: m in notified ==> m < size && m in notifier && notifier[m] < n)
  }

  /** Dishes on plates are of known recipes, and called finished exactly when every step is done. */
  predicate DishOk(book: R.RecipeBook, p: C.Plate)
  {
    p.occupied ==> p.recipe in book && p.steps <= |book[p.recipe]| && (p.done <==> p.steps == |book[p.recipe]|)
  }

  predicate DishesOk(book: R.RecipeBook, plates: seq<C.Plate>)
  {
    forall k :: 0 <= k < |plates| ==> DishOk(book, plates[k])
  }

  ghost predicate BeltOk(belt: C.State, work: Work)
  {
    match work
    case AtRest => CI.Inv(belt)
    case Retrieving(todo) => CS.Resting(belt) && todo <= belt.notified
    case Delivering(todo) => CS.Resting(belt) && todo <= belt.occupied
  }

  /** Every dish that was assigned is at a robot, on a plate, or completed, or another one was put on it. */
  predicate Balanced(s: State)
  {
    s.assignedDishes == AtRobots(s.robots) + OnPlates(s.belt.plates) + s.completedDishes + s.overwrittenDishes
  }

  ghost predicate Inv(s: State)
  {
    && RI.WellFormed(s.recipes)
    && RobotsOk(s.recipes, |s.belt.plates|, s.robots)
    && NoticesOk(|s.robots|, |s.belt.plates|, s.notices, s.belt.notified, s.notifier)
    && BeltOk(s.belt, s.work) && DishesOk(s.recipes, s.belt.plates)
    && Balanced(s)
  }

  // ------------------------------------------------------------------ one robot

  lemma RobotStepKeeps(book: R.RecipeBook, size: nat, r: R.State, e: R.Event)
    requires RobotOk(book, size, r) && (r.fault.NoFault? ==> R.Admissible(r, e))
    ensures RobotOk(book, size, R.Step(r, e))
  {
    hide RI.Inv, R.Step, R.Admissible;
    if r.fault == R.Deadlocked {
      Hangs(r, e);
    } else {
      RR.NoFaultYet(r);
      RR.StepKeeps(r, e);
      RP.StepRecipes(r, e);
      if RR.Deadlocks(r, e) { assert RS.Popped(r).position == r.position; } else { PositionWithin(R.Step(r, e)); }
    }
  }

  lemma PositionWithin(r: R.State)
    requires RI.Inv(r)
    ensures 0 < r.position <= r.conveyorSize - 1
  {
  }

  lemma Hangs(r: R.State, e: R.Event)
    requires !r.fault.NoFault?
    ensures R.Step(r, e) == r && Accepted(r, e) == [] && HandedOver(r, e) == []
  {
  }

  // ------------------------------------------------------------------ a dish that waits for its pickup

  lemma HeadWhileAwaiting(r: R.State)
    requires RI.Inv(r) && r.pickup && r.tasks != []
    ensures r.preparing && (r.tasks[0].ReceiveTask? || RI.IsRequest(r.tasks[0]))
  {
    hide RI.DishOk, RI.LoadOk, RI.OrdersOk, RI.TasksOk, RI.WellFormed;
    if !r.tasks[0].ReceiveTask? { assert RI.Control(r.tasks)[0] == r.tasks[0]; }
  }

  lemma EnqueuePickup(r: R.State, recipe: nat, steps: nat)
    requires recipe in r.recipes && steps <= |r.recipes[recipe]|
    ensures var r' := R.Enqueue(r, recipe, steps);
            r'.pickup == r.pickup && r'.position == r.position && r'.preparing == r.preparing
  {
    hide Cost, Prefix, LastTool;
  }

  /** A robot whose dish waits for its pickup stays where it is until the dish is handed over. */
  lemma PickupStays(r: R.State, e: R.Event)
    requires RI.Inv(r) && r.pickup && R.Admissible(r, e) && !e.HandoverEvent?
    ensures R.Step(r, e).pickup && R.Step(r, e).position == r.position
  {
    RR.NoFaultYet(r);
    if e.RunTask? && r.tasks != [] {
      HeadWhileAwaiting(r);
      hide RI.Inv, R.Enqueue, R.CookNext;
      var r1, t := RS.Popped(r), r.tasks[0];
      if t.ReceiveTask? && t.recipe in r.recipes &&
          t.steps <= |r.recipes[t.recipe]| { EnqueuePickup(r1, t.recipe, t.steps); }
    }
    hide RI.Inv, R.Enqueue;
  }

  /** Calls that hand a dish to a robot do not make it wait for a pickup. */
  lemma TaskCallPickup(r: R.State, recipe: nat, steps: nat, addressed: nat)
    ensures var r' := R.Step(r, R.ReceiveTaskEvent(recipe, steps, addressed));
            r'.pickup == r.pickup && r'.position == r.position
  {
    TaskCallOnlyPosts(r, recipe, steps, addressed);
    hide R.ReceiveTaskCall;
  }

  lemma TaskCallOnlyPosts(r: R.State, recipe: nat, steps: nat, addressed: nat)
    ensures var r' := R.ReceiveTaskCall(r, recipe, steps, addressed);
            r' == r || r' == r.(fault := R.EmptyPop) || r' == r.(tasks := r.tasks + [R.ReceiveTask(recipe, steps)])
  {
    hide R.ReceiveTaskAccepts;
  }
}
