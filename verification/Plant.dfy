/** The whole plant: robots, conveyor and kitchen, one remote call at a time. A handler of the conveyor that
    calls several robots is cut at each call, so that the robots may go on in between. A call is answered or
    it fails, and one that failed was not executed. */
module Plant {
  import opened Basics
  import R = Robot
  import C = Conveyor
  import CI = ConveyorInvariant
  import opened RobotFifo

  /** What is left of the handler that the conveyor is in the middle of. */
  datatype Work = AtRest | Retrieving(todo: set<nat>) | Delivering(todo: set<nat>)

  /** A robot's notification that it has a dish to be picked up at its position. */
  datatype Notice = Notice(robot: nat, position: nat)

  /** `notices` are the notifications the conveyor has not handled yet, and `notifier` names the robot behind each
      position in `belt.notified`. The last three fields are histories. */
  datatype State = State(
    recipes: R.RecipeBook, robots: seq<R.State>, belt: C.State, work: Work,
    notices: seq<Notice>, notifier: map<nat, nat>,
    assignedDishes: multiset<nat>, completedDishes: multiset<nat>, overwrittenDishes: multiset<nat>)

  datatype Event =
    | Own(robot: nat, event: R.Event)                       // a robot's own step, or a call of the controller
    | PlaceOrder(robot: nat, recipe: nat, addressed: nat)   // the kitchen hands an order to a robot
    | Renotify(robot: nat)                                  // a robot has found the conveyor again
    | HandleNotice(connects: bool)
    | TimerFires
    | RetrieveFrom(position: nat, callee: Option<nat>)
    | DeliverFrom(plate: nat, callee: Option<nat>, kitchen: bool)
    | Finish(env: C.Env)
    | NextRobot(position: nat, known: bool, recipe: nat)
    | Reconnect(env: C.Env)

  // ------------------------------------------------------------------ robots and the kitchen

  function HandleOwn(s: State, i: nat, e: R.Event): State
    requires i < |s.robots|
  {
    var r, r' := s.robots[i], R.Step(s.robots[i], e);
    s.(robots := s.robots[i := r'],
       notices := if !r.pickup && r'.pickup then s.notices + [Notice(i, r'.position)] else s.notices)
  }

  /** A robot that hangs answers no call. */
  predicate Takes(r: R.State, recipe: nat, steps: nat, addressed: nat)
  {
    r.fault.NoFault? && R.ReceiveTaskAccepts(r, recipe, steps, addressed)
  }

  function HandlePlaceOrder(s: State, i: nat, recipe: nat, addressed: nat): State
    requires i < |s.robots|
  {
    s.(robots := s.robots[i := R.Step(s.robots[i], R.ReceiveTaskEvent(recipe, 0, addressed))],
       assignedDishes := s.assignedDishes + if Takes(s.robots[i], recipe, 0, addressed) then multiset{recipe}
           else multiset{})
  }

  /** With its connection restored, a robot whose dish waits sends its notification again. */
  function HandleRenotify(s: State, i: nat): State
    requires i < |s.robots|
  {
    if s.robots[i].pickup then s.(notices := s.notices + [Notice(i, s.robots[i].position)]) else s
  }

  // ------------------------------------------------------------------ the conveyor

  function HandleNotification(s: State, connects: bool): State
    requires s.notices != []
  {
    var i, n := s.notices[0].robot, s.notices[0].position;
    s.(notices := s.notices[1..], belt := C.HandleNotification(s.belt, n, connects),
       notifier := if connects then s.notifier[n := i] else s.notifier)
  }

  function HandleTimer(s: State): State
    requires s.belt.plates != []
  {
    if s.belt.timer.None? then s
    else
      var belt := s.belt.(timer := None);
      match s.belt.timer.value
      case Debounce => s.(belt := belt, work := Retrieving(belt.notified))
      case Movement => s.(belt := C.Moved(belt, 1), work := Delivering(belt.occupied))
  }

  /** A dish may be asked for: its notification is filed, and the plate at that position is free. */
  predicate Fetchable(s: State, n: nat)
  {
    n in s.belt.notified && C.OnBelt(s.belt, n) && !s.belt.plates[s.belt.index[n]].occupied
  }

  /** The call gets through. */
  predicate Reached(s: State, callee: Option<nat>)
  {
    callee.Some? && callee.value < |s.robots| && s.robots[callee.value].fault.NoFault?
  }

  predicate Fetches(s: State, n: nat, callee: Option<nat>) { Fetchable(s, n) && Reached(s, callee) }

  /** The step is the handover call to the robot. */
  predicate Asked(s: State, e: Event, i: nat)
  {
    e.RetrieveFrom? && Fetches(s, e.position, e.callee) && e.callee.value == i
  }

  /** The robot that is asked is at another place than the notification says, and the plate there carries a dish. */
  predicate Overwrites(s: State, n: nat, callee: Option<nat>)
  {
    Fetches(s, n, callee) &&
    var reply := R.HandoverReply(s.robots[callee.value]);
    reply.recipe != 0 && C.OnBelt(s.belt, reply.position) && s.belt.plates[s.belt.index[reply.position]].occupied
  }

  function Overwritten(s: State, n: nat, callee: Option<nat>): multiset<nat>
  {
    if Overwrites(s, n, callee) then
      multiset{s.belt.plates[s.belt.index[R.HandoverReply(s.robots[callee.value]).position]].recipe}
    else multiset{}
  }

  /** A robot that is asked for its dish stands at the belt. */
  predicate ReplyFits(s: State, callee: Option<nat>)
  {
    Reached(s, callee) ==>
      var reply := R.HandoverReply(s.robots[callee.value]); reply.recipe != 0 ==> C.OnBelt(s.belt, reply.position)
  }

  /** The call that asks for the dish. `callee` is the robot that the conveyor knows at the position, unless there is
      none or the call fails; then the notification is erased too. */
  function HandleRetrieveFrom(s: State, n: nat, callee: Option<nat>): State
    requires s.work.Retrieving? && n in s.belt.notified && C.OnBelt(s.belt, n) && ReplyFits(s, callee)
  {
    var work := Retrieving(s.work.todo - {n});
    if !Fetchable(s, n) then s.(work := work)
    else if !Fetches(s, n, callee) then s.(work := work, belt := C.Retrieve(s.belt, n, None))
    else
      var i := callee.value;
      s.(work := work, belt := C.Retrieve(s.belt, n, Some(R.HandoverReply(s.robots[i]))),
         robots := s.robots[i := R.Step(s.robots[i], R.HandoverEvent)],
         overwrittenDishes := s.overwrittenDishes + Overwritten(s, n, callee))
  }

  /** The plate is in front of the robot it is meant for. */
  predicate AtTarget(p: C.Plate) { !p.done && p.target != 0 && p.position == p.target }

  function Answer(s: State, p: C.Plate, callee: Option<nat>): C.Attempt
  {
    if callee.None? || callee.value >= |s.robots| || !s.robots[callee.value].fault.NoFault? then C.Unreachable
    else
      var r := s.robots[callee.value];
      C.Answered(r.position, R.ReceiveTaskAccepts(r, p.recipe, p.steps, p.position))
  }

  /** One plate's share of a delivery. */
  function DeliverOne(c: C.State, k: nat, a: C.Attempt, kitchen: bool): C.State
    requires k < |c.plates|
  {
    var p := c.plates[k];
    c.(plates := c.plates[k := C.PlateAfter(p, a, kitchen)],
       occupied := if C.Leaves(p, a, kitchen) then c.occupied - {k} else c.occupied,
       trouble := if C.Corrupts(p, a) then C.Corrupted else c.trouble)
  }

  /** `callee` is the robot that is called for a dish at its target, unless none is known or available. */
  function HandleDeliverFrom(s: State, k: nat, callee: Option<nat>, kitchen: bool): State
    requires s.work.Delivering? && k < |s.belt.plates|
  {
    var p := s.belt.plates[k];
    s.(work := Delivering(s.work.todo - {k}),
       belt := DeliverOne(s.belt, k, Answer(s, p, callee), kitchen),
       robots := if AtTarget(p) && callee.Some? && callee.value < |s.robots|
                 then s.robots[callee.value := R.Step(s.robots[callee.value],
                     R.ReceiveTaskEvent(p.recipe, p.steps, p.position))]
                 else s.robots,
       completedDishes := s.completedDishes +
         if p.done && C.Leaves(p, Answer(s, p, callee), kitchen) then multiset{p.recipe} else multiset{})
  }

  function DetermineNextMovement(s: State, env: C.Env): State
  {
    if s.belt.notified != {} then s.(work := Retrieving(s.belt.notified))
    else if s.belt.occupied != {} then s.(work := AtRest, belt := C.RequestNextRobots(s.belt, env))
    else s.(work := AtRest, belt := s.belt.(moving := false))
  }

  function HandleFinish(s: State, env: C.Env): State
  {
    match s.work
    case AtRest => s
    case Retrieving(_) => s.(work := AtRest, belt := C.RequestNextRobots(s.belt, env))
    case Delivering(_) => DetermineNextMovement(s, env)
  }

  function HandleReconnect(s: State, env: C.Env): State
  {
    if s.belt.moving && s.belt.queue != [] then DetermineNextMovement(s.(belt := s.belt.(queue := [])), env) else s
  }

  // ------------------------------------------------------------------ what may happen

  /** Orders name known recipes, and the controller commits a move at most once. Everything else is free:
      which robot is called, which calls fail, and how the handlers of the agents interleave. */
  predicate Admissible(s: State, e: Event)
  {
    match e
    case Own(i, event) => i < |s.robots| && !event.ReceiveTaskEvent? && !event.HandoverEvent? &&
      R.Admissible(s.robots[i], event)
    case PlaceOrder(i, recipe, _) => i < |s.robots| && recipe in s.recipes
    case Renotify(i) => i < |s.robots|
    case HandleNotice(_) => s.work.AtRest? && s.notices != []
    case TimerFires => s.work.AtRest?
    case RetrieveFrom(n, _) => s.work.Retrieving? && n in s.work.todo
    case DeliverFrom(k, _, _) => s.work.Delivering? && k in s.work.todo
    case Finish(env) => !s.work.AtRest? && s.work.todo == {} && CI.Covers(env.plateOrder, |s.belt.plates|)
    case NextRobot(_, _, _) => s.work.AtRest?
    case Reconnect(env) => s.work.AtRest? && CI.Covers(env.plateOrder, |s.belt.plates|)
  }

  predicate Possible(s: State, e: Event)
  {
    match e
    case Own(i, _) => i < |s.robots|
    case PlaceOrder(i, _, _) => i < |s.robots|
    case Renotify(i) => i < |s.robots|
    case HandleNotice(_) => s.notices != []
    case TimerFires => s.belt.plates != []
    case RetrieveFrom(n, callee) =>
      s.work.Retrieving? && n in s.belt.notified && C.OnBelt(s.belt, n) && ReplyFits(s, callee)
    case DeliverFrom(k, _, _) => s.work.Delivering? && k < |s.belt.plates|
    case NextRobot(_, _, _) => s.belt.queue != [] ==> C.OnBelt(s.belt, s.belt.queue[0])
    case _ => true
  }

  function Step(s: State, e: Event): State
    requires Possible(s, e)
  {
    match e
    case Own(i, event) => HandleOwn(s, i, event)
    case PlaceOrder(i, recipe, addressed) => HandlePlaceOrder(s, i, recipe, addressed)
    case Renotify(i) => HandleRenotify(s, i)
    case HandleNotice(connects) => HandleNotification(s, connects)
    case TimerFires => HandleTimer(s)
    case RetrieveFrom(n, callee) => HandleRetrieveFrom(s, n, callee)
    case DeliverFrom(k, callee, kitchen) => HandleDeliverFrom(s, k, callee, kitchen)
    case Finish(env) => HandleFinish(s, env)
    case NextRobot(position, known, recipe) => s.(belt := C.HandleNextRobot(s.belt, position, known, recipe))
    case Reconnect(env) => HandleReconnect(s, env)
  }

  // ------------------------------------------------------------------ where the dishes are

  function RecipeList(tickets: seq<Ticket>): seq<nat>
  {
    seq(|tickets|, k requires 0 <= k < |tickets| => tickets[k].recipe)
  }

  function RecipesOf(tickets: seq<Ticket>): multiset<nat> { multiset(RecipeList(tickets)) }

  function AtRobots(robots: seq<R.State>): multiset<nat>
  {
    if robots == [] then multiset{} else RecipesOf(Backlog(robots[0])) + AtRobots(robots[1..])
  }

  function OnPlate(p: C.Plate): multiset<nat> { if p.occupied then multiset{p.recipe} else multiset{} }

  function OnPlates(plates: seq<C.Plate>): multiset<nat>
  {
    if plates == [] then multiset{} else OnPlate(plates[0]) + OnPlates(plates[1..])
  }
}
