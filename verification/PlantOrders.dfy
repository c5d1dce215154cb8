/** The kitchen and the plant together: what becomes of every order, and what the published counters say about it. */
module PlantOrders {
  import opened Basics
  import R = Robot
  import RI = RobotInvariant
  import C = Conveyor
  import K = Kitchen
  import P = Plant
  import opened PlantInvariant
  import opened PlantRuns

  /** `posted` counts completed dishes that the kitchen has been told of and not counted yet; `droppedOrders` is a
      history. */
  datatype Joint = Joint(kitchen: K.State, plant: P.State, posted: nat, droppedOrders: multiset<nat>)

  datatype JointEvent =
    | Requests(recipe: nat)
    | GateFires
    | Hands(robot: nat, addressed: nat)     // the controller has named a robot, and the order reaches it
    | Fails(outcome: K.Assignment)          // no robot, or it cannot be reached
    | Counts                                // the kitchen counts a completed dish
    | Happens(event: P.Event)               // anything else

  predicate JointAdmissible(j: Joint, x: JointEvent)
  {
    match x
    case Requests(recipe) => recipe in j.plant.recipes
    case GateFires => true
    case Hands(i, _) => j.kitchen.awaiting != [] && i < |j.plant.robots|
    case Fails(outcome) => j.kitchen.awaiting != [] && !outcome.Replied?
    case Counts => j.posted > 0
    case Happens(e) => !e.PlaceOrder? && P.Admissible(j.plant, e)
  }

  /** What the robot makes of the order; a robot that hangs answers no call. */
  function OutcomeAt(r: R.State, recipe: nat, addressed: nat): K.Assignment
  {
    if r.fault.NoFault? then K.Replied(R.ReceiveTaskAccepts(r, recipe, 0, addressed)) else K.CallFailed
  }

  /** The oldest request is answered. */
  function AnswerAfter(j: Joint, outcome: K.Assignment): Joint
    requires j.kitchen.awaiting != []
  {
    j.(kitchen := K.HandleNextRobot(j.kitchen, outcome),
       droppedOrders := j.droppedOrders + Refused(outcome, j.kitchen.awaiting[0]))
  }

  /** The orders that have been let through were for known recipes. */
  predicate Known(k: K.State, book: R.RecipeBook)
  {
    forall n :: 0 <= n < |k.requested| ==> k.requested[n] in book
  }

  /** Every order that was let through is unanswered, dropped or taken, and two counters say how many. */
  ghost predicate OrdersOk(k: K.State, dropped: multiset<nat>, taken: multiset<nat>)
  {
    && multiset(k.placed) == multiset(k.awaiting) + dropped + taken
    && k.assignedOrders == |taken| % U32 && k.dropped == |dropped| % U32
  }

  predicate CountOk(k: K.State, completed: multiset<nat>, posted: nat)
  {
    posted <= |completed| && k.completed == (|completed| - posted) % U32
  }

  ghost predicate Accounted(j: Joint)
  {
    && OrdersOk(j.kitchen, j.droppedOrders, j.plant.assignedDishes)
    && CountOk(j.kitchen, j.plant.completedDishes, j.posted)
  }

  ghost predicate JointInv(j: Joint)
  {
    K.Inv(j.kitchen) && Inv(j.plant) && Known(j.kitchen, j.plant.recipes) && Accounted(j)
  }

  /** The next order to be answered is for a known recipe. */
  lemma AwaitedKnown(k: K.State, book: R.RecipeBook)
    requires K.Inv(k) && Known(k, book) && k.awaiting != []
    ensures k.awaiting[0] in book
  {
    var n := |k.placed| - |k.awaiting|;
    assert k.awaiting[0] == k.placed[n] == k.requested[n];
  }

  function Increase(before: nat, after: nat): nat { if before < after then after - before else 0 }

  ghost function JointNext(j: Joint, x: JointEvent): Joint
    requires JointInv(j) && JointAdmissible(j, x)
  {
    match x
    case Requests(recipe) => j.(kitchen := K.HandleOrderRequest(j.kitchen, recipe))
    case GateFires => j.(kitchen := K.HandleTimer(j.kitchen))
    case Hands(i, addressed) =>
      AwaitedKnown(j.kitchen, j.plant.recipes);
      var recipe := j.kitchen.awaiting[0];
      AnswerAfter(j, OutcomeAt(j.plant.robots[i], recipe, addressed)).(
        plant := Next(j.plant, P.PlaceOrder(i, recipe, addressed)))
    case Fails(outcome) => AnswerAfter(j, outcome)
    case Counts => j.(kitchen := K.Step(j.kitchen, K.OrderCompleted), posted := j.posted - 1)
    case Happens(e) =>
      var plant := Next(j.plant, e);
      j.(plant := plant, posted := j.posted + Increase(|j.plant.completedDishes|, |plant.completedDishes|))
  }

  // ------------------------------------------------------------------ every step

  /** Letting an order through. */
  lemma PlaceAccounts(k: K.State, recipe: nat, dropped: multiset<nat>, taken: multiset<nat>)
    requires OrdersOk(k, dropped, taken)
    ensures OrdersOk(K.Place(k, recipe), dropped, taken) && K.Place(k, recipe).completed == k.completed
    ensures K.Place(k, recipe).requested == k.requested
  {
    assert multiset(k.placed + [recipe]) == multiset(k.placed) + multiset{recipe};
    assert multiset(k.awaiting + [recipe]) == multiset(k.awaiting) + multiset{recipe};
  }

  lemma RequestAccounts(k: K.State, recipe: nat, dropped: multiset<nat>, taken: multiset<nat>)
    requires OrdersOk(k, dropped, taken)
    ensures var k' := K.HandleOrderRequest(k, recipe);
            OrdersOk(k', dropped, taken) && k'.completed == k.completed && k'.requested == k.requested + [recipe]
  {
    var k1 := k.(requested := k.requested + [recipe]);
    assert OrdersOk(k1.(gateOpen := false), dropped, taken);
    PlaceAccounts(k1.(gateOpen := false), recipe, dropped, taken);
    hide K.Place;
  }

  lemma TimerAccounts(k: K.State, dropped: multiset<nat>, taken: multiset<nat>)
    requires OrdersOk(k, dropped, taken)
    ensures var k' := K.HandleTimer(k);
            OrdersOk(k', dropped, taken) && k'.completed == k.completed && k'.requested == k.requested
  {
    if k.timer && k.waiting != [] {
      var k1 := k.(timer := false, waiting := k.waiting[1..]);
      assert OrdersOk(k1, dropped, taken);
      PlaceAccounts(k1, k.waiting[0], dropped, taken);
    }
    hide K.Place;
  }

  lemma KitchenAccounts(j: Joint, x: JointEvent)
    requires JointInv(j) && JointAdmissible(j, x) && (x.Requests? || x.GateFires?)
    ensures JointInv(JointNext(j, x))
  {
    hide K.Inv, Inv, K.HandleOrderRequest, K.HandleTimer, OrdersOk;
    if x.Requests? {
      K.OrderRequestKeeps(j.kitchen, x.recipe);
      RequestAccounts(j.kitchen, x.recipe, j.droppedOrders, j.plant.assignedDishes);
    } else {
      K.TimerKeeps(j.kitchen);
      TimerAccounts(j.kitchen, j.droppedOrders, j.plant.assignedDishes);
    }
  }

  function Taken(outcome: K.Assignment, recipe: nat): multiset<nat>
  {
    if outcome.Replied? && outcome.accepted then multiset{recipe} else multiset{}
  }

  function Refused(outcome: K.Assignment, recipe: nat): multiset<nat>
  {
    if outcome.Replied? && outcome.accepted then multiset{} else multiset{recipe}
  }

  /** An answer assigns the order or drops it. */
  lemma AnswerAccounts(k: K.State, outcome: K.Assignment, dropped: multiset<nat>, taken: multiset<nat>)
    requires OrdersOk(k, dropped, taken) && k.awaiting != []
    ensures var k', recipe := K.HandleNextRobot(k, outcome), k.awaiting[0];
            && OrdersOk(k', dropped + Refused(outcome, recipe), taken + Taken(outcome, recipe))
            && k'.completed == k.completed && k'.requested == k.requested
  {
    var recipe, rest := k.awaiting[0], k.awaiting[1..];
    assert k.awaiting == [recipe] + rest;
    assert multiset(k.awaiting) == multiset{recipe} + multiset(rest);
    OneMore(taken, recipe);
    OneMore(dropped, recipe);
    hide K.HandleNextRobot;
    AnswerShape(k, outcome);
    if outcome.Replied? && outcome.accepted {
      assert dropped + Refused(outcome, recipe) == dropped;
      Moved(multiset(rest), dropped, taken, recipe);
    } else {
      assert taken + Taken(outcome, recipe) == taken;
      Moved(multiset(rest), taken, dropped, recipe);
    }
  }

  lemma AnswerShape(k: K.State, outcome: K.Assignment)
    requires k.awaiting != []
    ensures K.HandleNextRobot(k, outcome) ==
            if outcome.Replied? && outcome.accepted
            then k.(awaiting := k.awaiting[1..], assignedOrders := (k.assignedOrders + 1) % U32)
            else k.(awaiting := k.awaiting[1..], dropped := (k.dropped + 1) % U32)
  {
  }

  lemma OneMore(a: multiset<nat>, recipe: nat)
    ensures |a + multiset{recipe}| % U32 == (|a| % U32 + 1) % U32
  {
    K.CountOn(|a|, 1);
  }

  lemma Moved(rest: multiset<nat>, a: multiset<nat>, b: multiset<nat>, recipe: nat)
    ensures multiset{recipe} + rest + a + b == rest + a + (b + multiset{recipe})
    ensures multiset{recipe} + rest + b + a == rest + (b + multiset{recipe}) + a
  {
  }

  lemma HandedPlant(s: P.State, i: nat, recipe: nat, addressed: nat)
    requires i < |s.robots|
    ensures var s' := P.HandlePlaceOrder(s, i, recipe, addressed);
            && s'.assignedDishes == s.assignedDishes + Taken(OutcomeAt(s.robots[i], recipe, addressed), recipe)
            && s'.completedDishes == s.completedDishes && s'.recipes == s.recipes
  {
    hide R.Step, R.ReceiveTaskAccepts;
  }

  lemma HandsAccounts(j: Joint, i: nat, addressed: nat)
    requires JointInv(j) && JointAdmissible(j, Hands(i, addressed))
    ensures JointInv(JointNext(j, Hands(i, addressed)))
  {
    var k, recipe := j.kitchen, j.kitchen.awaiting[0];
    var outcome := OutcomeAt(j.plant.robots[i], recipe, addressed);
    Parts(j);
    AwaitedKnown(k, j.plant.recipes);
    K.NextRobotKeeps(k, outcome);
    hide JointInv, K.Inv, Inv, K.HandleNextRobot, OutcomeAt, Taken, Refused, OrdersOk, Known,
         P.HandlePlaceOrder, P.Takes, R.ReceiveTaskAccepts, CountOk;
    var plant := Next(j.plant, P.PlaceOrder(i, recipe, addressed));
    HandedPlant(j.plant, i, recipe, addressed);
    assert plant == P.HandlePlaceOrder(j.plant, i, recipe, addressed);
    AnswerAccounts(k, outcome, j.droppedOrders, j.plant.assignedDishes);
    SameKnown(k, K.HandleNextRobot(k, outcome), j.plant.recipes);
    SameCount(k, K.HandleNextRobot(k, outcome), j.plant.completedDishes, j.posted);
    Whole(AnswerAfter(j, outcome).(plant := plant));
  }

  lemma SameCount(k: K.State, k': K.State, completed: multiset<nat>, posted: nat)
    requires CountOk(k, completed, posted) && k'.completed == k.completed
    ensures CountOk(k', completed, posted)
  {
  }

  lemma FailsAccounts(j: Joint, outcome: K.Assignment)
    requires JointInv(j) && JointAdmissible(j, Fails(outcome))
    ensures JointInv(JointNext(j, Fails(outcome)))
  {
    hide JointInv, Inv, K.Inv, K.HandleNextRobot, Taken, Refused, OrdersOk, Known, CountOk;
    Parts(j);
    var k, recipe, given := j.kitchen, j.kitchen.awaiting[0], j.plant.assignedDishes;
    var k' := K.HandleNextRobot(k, outcome);
    K.NextRobotKeeps(k, outcome);
    NothingTaken(outcome, recipe, given);
    AnswerAccounts(k, outcome, j.droppedOrders, given);
    SameKnown(k, k', j.plant.recipes);
    SameCount(k, k', j.plant.completedDishes, j.posted);
    Whole(AnswerAfter(j, outcome));
  }

  lemma NothingTaken(outcome: K.Assignment, recipe: nat, given: multiset<nat>)
    requires !outcome.Replied?
    ensures given + Taken(outcome, recipe) == given
  {
  }

  lemma SameKnown(k: K.State, k': K.State, book: R.RecipeBook)
    requires Known(k, book) && k'.requested == k.requested
    ensures Known(k', book)
  {
  }

  lemma Parts(j: Joint)
    requires JointInv(j)
    ensures K.Inv(j.kitchen) && Inv(j.plant) && Known(j.kitchen, j.plant.recipes) && Accounted(j)
  {
    hide K.Inv, Inv, Known, Accounted;
  }

  lemma Whole(j: Joint)
    requires K.Inv(j.kitchen) && Inv(j.plant) && Known(j.kitchen, j.plant.recipes) && Accounted(j)
    ensures JointInv(j)
  {
    hide K.Inv, Inv, Known, Accounted;
  }

  /** What happens without the kitchen assigns nothing, and completes dishes at most. */
  lemma PlantFrame(s: P.State, e: P.Event)
    requires P.Possible(s, e) && !e.PlaceOrder?
    ensures var s' := P.Step(s, e);
            && s'.assignedDishes == s.assignedDishes && s'.recipes == s.recipes
            && s.completedDishes <= s'.completedDishes
  {
    hide R.Step, R.ReceiveTaskAccepts, C.PlateAfter, C.Leaves, P.DeliverOne, P.Answer, C.Retrieve, C.RequestNextRobots,
         C.HandleNotification, C.HandleNextRobot, C.Moved, P.Fetches, P.Fetchable, P.Overwritten, R.HandoverReply;
  }

  lemma SubsetSize(a: multiset<nat>, b: multiset<nat>)
    requires a <= b
    ensures |a| <= |b|
  {
    assert b == a + (b - a);
  }

  lemma JointKeeps(j: Joint, x: JointEvent)
    requires JointInv(j) && JointAdmissible(j, x)
    ensures JointInv(JointNext(j, x))
  {
    match x
    case Requests(_) => KitchenAccounts(j, x);
    case GateFires => KitchenAccounts(j, x);
    case Hands(i, addressed) => HandsAccounts(j, i, addressed);
    case Fails(outcome) => FailsAccounts(j, outcome);
    case Counts => CountedKeeps(j);
    case Happens(e) => HappensAccounts(j, e);
  }

  lemma HappensAccounts(j: Joint, e: P.Event)
    requires JointInv(j) && JointAdmissible(j, Happens(e))
    ensures JointInv(JointNext(j, Happens(e)))
  {
    hide JointInv, K.Inv, Inv, P.Step, P.Possible, P.Admissible, OrdersOk, Known, CountOk, Increase;
    Parts(j);
    var plant := Next(j.plant, e);
    PlantGrows(j.plant, e);
    MoreCompleted(j.kitchen, j.plant.completedDishes, plant.completedDishes, j.posted);
    Whole(j.(plant := plant, posted := j.posted + Increase(|j.plant.completedDishes|, |plant.completedDishes|)));
  }

  lemma PlantGrows(s: P.State, e: P.Event)
    requires Inv(s) && P.Admissible(s, e) && !e.PlaceOrder?
    ensures var s' := Next(s, e);
            s'.assignedDishes == s.assignedDishes && s'.recipes == s.recipes &&
            |s.completedDishes| <= |s'.completedDishes|
  {
    InvPossible(s, e);
    hide Inv, P.Step, P.Possible, P.Admissible;
    PlantFrame(s, e);
    SubsetSize(s.completedDishes, P.Step(s, e).completedDishes);
  }

  lemma MoreCompleted(k: K.State, before: multiset<nat>, after: multiset<nat>, posted: nat)
    requires CountOk(k, before, posted) && |before| <= |after|
    ensures CountOk(k, after, posted + Increase(|before|, |after|))
  {
  }

  lemma CountedKeeps(j: Joint)
    requires JointInv(j) && j.posted > 0
    ensures JointInv(JointNext(j, Counts))
  {
    var k := j.kitchen;
    var k' := k.(completed := (k.completed + 1) % U32);
    hide JointInv, K.Inv, Inv, OrdersOk, CountOk, Known;
    Parts(j);
    K.CompletedKeeps(k);
    OneCounted(k, j.plant.completedDishes, j.posted);
    SameOrders(k, j.droppedOrders, j.plant.assignedDishes);
    SameKnown(k, k', j.plant.recipes);
    Whole(j.(kitchen := k', posted := j.posted - 1));
  }

  lemma OneCounted(k: K.State, completed: multiset<nat>, posted: nat)
    requires CountOk(k, completed, posted) && posted > 0
    ensures CountOk(k.(completed := (k.completed + 1) % U32), completed, posted - 1)
  {
    K.CountOn(|completed| - posted, 1);
  }

  lemma SameOrders(k: K.State, dropped: multiset<nat>, taken: multiset<nat>)
    requires OrdersOk(k, dropped, taken)
    ensures OrdersOk(k.(completed := (k.completed + 1) % U32), dropped, taken)
  {
  }

  // ------------------------------------------------------------------ whole runs

  ghost predicate AllJointAdmissible(j: Joint, events: seq<JointEvent>)
    requires JointInv(j)
    decreases |events|
  {
    events == [] || (
      && JointAdmissible(j, events[0])
      && (JointKeeps(j, events[0]); AllJointAdmissible(JointNext(j, events[0]), events[1..])))
  }

  ghost function JointRun(j: Joint, events: seq<JointEvent>): (j': Joint)
    requires JointInv(j) && AllJointAdmissible(j, events)
    ensures JointInv(j')
    decreases |events|
  {
    if events == [] then j
    else
      JointKeeps(j, events[0]);
      JointRun(JointNext(j, events[0]), events[1..])
  }

  /** What becomes of the orders, on every run from an empty kitchen and an empty plant: recipe by recipe, every order
      that was let through is unanswered, dropped, at a robot, on a plate, completed, or was overwritten; and the four
      published counters say so. */
  lemma OrdersAreAccounted(book: R.RecipeBook, n: nat, robots: seq<R.State>, events: seq<JointEvent>)
    requires RI.WellFormed(book) && n > 0 && Started(book, n, robots)
    requires JointInv(Start(book, n, robots)) && AllJointAdmissible(Start(book, n, robots), events)
    ensures var j := JointRun(Start(book, n, robots), events);
            var k, s := j.kitchen, j.plant;
            var inPlant := P.AtRobots(s.robots) + P.OnPlates(s.belt.plates) + s.overwrittenDishes;
            && multiset(k.placed) == multiset(k.awaiting) + j.droppedOrders + inPlant + s.completedDishes
            && k.received == (|k.awaiting| + k.dropped + |inPlant| + j.posted + k.completed) % U32
            && k.assignedOrders == (|inPlant| + j.posted + k.completed) % U32
  {
    hide *;
    AccountedNow(JointRun(Start(book, n, robots), events));
  }

  lemma AccountedNow(j: Joint)
    requires JointInv(j)
    ensures var k, s := j.kitchen, j.plant;
            var inPlant := P.AtRobots(s.robots) + P.OnPlates(s.belt.plates) + s.overwrittenDishes;
            && multiset(k.placed) == multiset(k.awaiting) + j.droppedOrders + inPlant + s.completedDishes
            && k.received == (|k.awaiting| + k.dropped + |inPlant| + j.posted + k.completed) % U32
            && k.assignedOrders == (|inPlant| + j.posted + k.completed) % U32
  {
    var k, s := j.kitchen, j.plant;
    BalanceOf(s);
    var inPlant := P.AtRobots(s.robots) + P.OnPlates(s.belt.plates) + s.overwrittenDishes;
    assert k.received == (k.assignedOrders + k.dropped + |k.awaiting|) % U32 by { hide Inv; }
    hide Inv, P.AtRobots, P.OnPlates, K.Inv;
    assert s.assignedDishes == inPlant + s.completedDishes;
    Grouped(multiset(k.awaiting), j.droppedOrders, inPlant, s.completedDishes);
    Sums(|k.awaiting|, k.dropped, |inPlant|, |s.completedDishes|, j.posted);
  }

  lemma Grouped(a: multiset<nat>, b: multiset<nat>, c: multiset<nat>, d: multiset<nat>)
    ensures a + b + (c + d) == a + b + c + d && |c + d| == |c| + |d|
  {
  }

  lemma Sums(awaiting: nat, dropped: nat, inPlant: nat, completed: nat, posted: nat)
    requires posted <= completed
    ensures (inPlant + completed) % U32 == (inPlant + posted + (completed - posted) % U32) % U32
    ensures ((inPlant + completed) % U32 + dropped + awaiting) % U32 ==
            (awaiting + dropped + inPlant + posted + (completed - posted) % U32) % U32
  {
    K.CountOn(completed - posted, inPlant + posted);
    K.CountOn(inPlant + completed, dropped + awaiting);
    K.CountOn(completed - posted, awaiting + dropped + inPlant + posted);
  }

  function Start(book: R.RecipeBook, n: nat, robots: seq<R.State>): Joint
  {
    Joint(K.Initial(), Initial(book, n, robots), 0, multiset{})
  }

  lemma StartKeeps(book: R.RecipeBook, n: nat, robots: seq<R.State>)
    requires Inv(Initial(book, n, robots))
    ensures JointInv(Start(book, n, robots))
  {
    K.InitialKeeps();
    hide Inv, K.Inv;
  }
}
