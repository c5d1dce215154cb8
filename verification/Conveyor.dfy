/** The conveyor: rotating plates, retrieval of dishes, requests for the next robot, and deliveries.
    Answers of remote calls and the iteration orders of the unordered collections are parameters. */
module Conveyor {
  import opened Basics
  import R = Robot

  const OUTPUT_POSITION: nat := 0

  datatype Plate = Plate(position: nat, recipe: nat, steps: nat, target: nat, occupied: bool, done: bool)

  datatype Timer = Debounce | Movement

  // Overlap: the timer was armed while it was pending. Corrupted: a robot elsewhere took the dish.
  datatype Trouble = Fine | Overlap | Corrupted

  /** Plates are named by their index; `index` maps a position to the plate that is there. */
  datatype State = State(
    plates: seq<Plate>, index: map<nat, nat>, occupied: set<nat>, notified: set<nat>,
    queue: seq<nat>, moving: bool, timer: Option<Timer>, trouble: Trouble)

  /** What comes of the attempt to hand a dish to the robot it is meant for. */
  datatype Attempt = Unreachable | Lost | Answered(position: nat, accepted: bool)

  /** The answers one handler gets: dishes handed over (by position), whether a request for the next robot
      is taken (by plate), deliveries (by plate), the kitchen's answer, and the iteration orders. */
  datatype Env = Env(
    handovers: nat -> Option<R.Dish>, requested: nat -> bool, attempts: nat -> Attempt, kitchen: bool,
    positionOrder: seq<nat>, plateOrder: seq<nat>)

  /** `n` empty plates, each at the position of its number. */
  function Initial(n: nat): State
  {
    var plates := seq(n, i requires 0 <= i < n => Plate(i, 0, 0, 0, false, false));
    State(plates, IndexAfter(map[], plates, n), {}, {}, [], false, None, Fine)
  }

  function Arm(c: State, t: Timer): State
  {
    if c.timer.Some? then c.(trouble := Overlap) else c.(timer := Some(t))
  }

  // ------------------------------------------------------------------ retrieval

  function HandleNotification(c: State, position: nat, connects: bool): State
  {
    if !connects then c
    else
      var c1 := c.(notified := c.notified + {position});
      if c1.moving then c1 else Arm(c1.(moving := true), Debounce)
  }

  function Place(c: State, dish: R.Dish): (r: State)
    requires dish.recipe != 0 ==> dish.position in c.index && c.index[dish.position] < |c.plates|
    ensures r.index == c.index && |r.plates| == |c.plates|
  {
    if dish.recipe == 0 then c
    else
      var i := c.index[dish.position];
      var p := c.plates[i].(recipe := dish.recipe, occupied := true, done := dish.finished, steps := dish.steps);
      c.(plates := c.plates[i := p], occupied := c.occupied + {i})
  }

  /** Positions and dishes that stay on the belt. */
  predicate OnBelt(c: State, position: nat) { position in c.index && c.index[position] < |c.plates| }

  function Retrieve(c: State, position: nat, reply: Option<R.Dish>): (r: State)
    requires FromBelt(c, position, reply)
    ensures r.index == c.index && |r.plates| == |c.plates|
  {
    if position !in c.notified || c.plates[c.index[position]].occupied then c
    else
      var c1 := c.(notified := c.notified - {position});
      if reply.None? then c1 else Place(c1, reply.value)
  }

  predicate FromBelt(c: State, position: nat, reply: Option<R.Dish>)
  {
    OnBelt(c, position) && (reply.Some? && reply.value.recipe != 0 ==> OnBelt(c, reply.value.position))
  }

  predicate Positions(c: State, order: seq<nat>, handovers: nat -> Option<R.Dish>)
  {
    forall k :: 0 <= k < |order| ==> FromBelt(c, order[k], handovers(order[k]))
  }

  function RetrieveAll(c: State, order: seq<nat>, handovers: nat -> Option<R.Dish>): (r: State)
    requires Positions(c, order, handovers)
    ensures r.index == c.index && |r.plates| == |c.plates|
    decreases |order|
  {
    if order == [] then c
    else
      var c1 := Retrieve(c, order[0], handovers(order[0]));
      assert forall k :: 0 <= k < |order[1..]| ==>
          order[1..][k] == order[k + 1] && FromBelt(c, order[k + 1], handovers(order[k + 1]));
      RetrieveAll(c1, order[1..], handovers)
  }

  // ------------------------------------------------------------------ requests for the next robot

  /** A dish that is neither finished nor on its way to a robot. */
  predicate Undecided(c: State, i: nat)
  {
    i in c.occupied && i < |c.plates| && !c.plates[i].done && c.plates[i].target == 0
  }

  function Asking(c: State, order: seq<nat>, requested: nat -> bool): seq<nat>
  {
    if order == [] then []
    else (if Undecided(c, order[0]) && requested(order[0]) then [c.plates[order[0]].position] else [])
         + Asking(c, order[1..], requested)
  }

  function RequestNextRobots(c: State, e: Env): State
  {
    var queue := c.queue + Asking(c, e.plateOrder, e.requested);
    if queue == [] then Arm(c.(queue := []), Movement) else c.(queue := queue)
  }

  function HandleRetrieval(c: State, e: Env): State
    requires Positions(c, e.positionOrder, e.handovers)
  {
    RequestNextRobots(RetrieveAll(c, e.positionOrder, e.handovers), e)
  }

  /** `known` tells whether the controller found a robot; `recipe` is the recipe it was asked about. */
  function HandleNextRobot(c: State, position: nat, known: bool, recipe: nat): State
    requires c.queue != [] ==> OnBelt(c, c.queue[0])
  {
    if c.queue == [] then c
    else
      var i := c.index[c.queue[0]];
      if c.plates[i].recipe != recipe then c
      else
        var found := position != 0 && known;
        var c1 := c.(queue := c.queue[1..],
                     plates := if found then c.plates[i := c.plates[i].(target := position)] else c.plates);
        if c1.queue != [] then c1 else Arm(c1, Movement)
  }

  // ------------------------------------------------------------------ movement and delivery

  function Moved(c: State, steps: nat): State
    requires c.plates != []
  {
    var n := |c.plates|;
    var plates := seq(n, i requires 0 <= i < n => c.plates[i].(position := (c.plates[i].position + steps) % n));
    c.(plates := plates, index := IndexAfter(c.index, plates, n))
  }

  /** The index once the first `k` plates have been entered at their positions. */
  function IndexAfter(index: map<nat, nat>, plates: seq<Plate>, k: nat): map<nat, nat>
    requires k <= |plates|
  {
    if k == 0 then index else IndexAfter(index, plates, k - 1)[plates[k - 1].position := k - 1]
  }

  function Reset(p: Plate): Plate { Plate(p.position, 0, 0, 0, false, false) }

  predicate Taken(p: Plate, a: Attempt) { a.Answered? && a.accepted && a.position == p.position }

  /** The plate is handed over to the kitchen or to its robot. */
  predicate Leaves(p: Plate, a: Attempt, kitchen: bool)
  {
    if p.done then p.position == OUTPUT_POSITION && kitchen
    else p.target != 0 && p.position == p.target && Taken(p, a)
  }

  function PlateAfter(p: Plate, a: Attempt, kitchen: bool): Plate
  {
    if Leaves(p, a, kitchen) then Reset(p)
    else if !p.done && p.target != 0 && p.position == p.target then p.(target := 0)
    else p
  }

  predicate Corrupts(p: Plate, a: Attempt)
  {
    !p.done && p.target != 0 && p.position == p.target && a.Answered? && a.accepted && a.position != p.position
  }

  function Deliver(c: State, e: Env): State
  {
    c.(plates := seq(|c.plates|, i requires 0 <= i < |c.plates| =>
                   if i in c.occupied then PlateAfter(c.plates[i], e.attempts(i), e.kitchen) else c.plates[i]),
       occupied := (set i | i in c.occupied && !(i < |c.plates| && Leaves(c.plates[i], e.attempts(i), e.kitchen))),
       trouble := if exists i :: i in c.occupied && i < |c.plates| && Corrupts(c.plates[i], e.attempts(i))
           then Corrupted else c.trouble)
  }

  function DetermineNextMovement(c: State, e: Env): State
    requires Positions(c, e.positionOrder, e.handovers)
  {
    if c.notified != {} then HandleRetrieval(c, e)
    else if c.occupied != {} then RequestNextRobots(c, e)
    else c.(moving := false)
  }

  function MoveConveyor(c: State, e: Env): State
    requires c.plates != [] && Positions(Moved(c, 1), e.positionOrder, e.handovers)
  {
    DetermineNextMovement(Deliver(Moved(c, 1), e), e)
  }

  /** The controller has been found again: outstanding requests are given up and made anew. */
  function HandleReconnect(c: State, e: Env): State
    requires Positions(c, e.positionOrder, e.handovers)
  {
    if c.moving && c.queue != [] then DetermineNextMovement(c.(queue := []), e) else c
  }

  // ------------------------------------------------------------------ steps

  datatype Event =
    | Notification(position: nat, connects: bool)
    | TimerFires(env: Env)
    | NextRobot(robot: nat, known: bool, recipe: nat)
    | Reconnect(env: Env)

  predicate Possible(c: State, e: Event)
  {
    && (c.queue != [] ==> OnBelt(c, c.queue[0]))
    && (e.TimerFires? && c.timer == Some(Debounce) ==> Positions(c, e.env.positionOrder, e.env.handovers))
    && (e.TimerFires? && c.timer == Some(Movement) ==>
          c.plates != [] && Positions(Moved(c, 1), e.env.positionOrder, e.env.handovers))
    && (e.Reconnect? ==> Positions(c, e.env.positionOrder, e.env.handovers))
  }

  function Step(c: State, e: Event): State
    requires Possible(c, e)
  {
    match e
    case Notification(position, connects) => HandleNotification(c, position, connects)
    case NextRobot(robot, known, recipe) => HandleNextRobot(c, robot, known, recipe)
    case Reconnect(env) => HandleReconnect(c, env)
    case TimerFires(env) =>
      if c.timer.None? then c
      else
        var c1 := c.(timer := None);
        match c.timer.value
        case Debounce => HandleRetrieval(c1, env)
        case Movement => MoveConveyor(c1, env)
  }
}
