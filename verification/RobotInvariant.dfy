/** What every step of a robot keeps: one continuation at a time, adaptations that are never lost,
    a published load equal to the remaining work, and exact step arithmetic for every dish. */
module RobotInvariant {
  import opened Basics
  import opened Recipes
  import opened Robot

  // ------------------------------------------------------------------ the event loop

  /** The queued tasks other than accepted orders. */
  function Control(tasks: seq<Task>): (c: seq<Task>)
    ensures forall i :: 0 <= i < |c| ==> !c[i].ReceiveTask?
  {
    if tasks == [] then [] else (if tasks[0].ReceiveTask? then [] else [tasks[0]]) + Control(tasks[1..])
  }

  lemma {:induction false} ControlAppend(tasks: seq<Task>, t: Task)
    ensures Control(tasks + [t]) == Control(tasks) + (if t.ReceiveTask? then [] else [t])
  {
    if tasks != [] {
      ControlAppend(tasks[1..], t);
      assert (tasks + [t])[1..] == tasks[1..] + [t];
    }
  }

  predicate IsRequest(t: Task) { t.SwitchPosition? || t.StartReconfiguration? }

  /** The queued request to adapt, and the queued task that drives the robot on. */
  function Request(c: seq<Task>): Option<Task>
  {
    if |c| > 0 && IsRequest(c[0]) then Some(c[0]) else if |c| > 1 && IsRequest(c[1]) then Some(c[1]) else None
  }

  function Driver(c: seq<Task>): Option<Task>
  {
    if |c| > 0 && !IsRequest(c[0]) then Some(c[0]) else if |c| > 1 && !IsRequest(c[1]) then Some(c[1]) else None
  }

  // ------------------------------------------------------------------ what the robot is doing

  /** The one thing that will drive the robot on. */
  datatype Phase =
    | Idle
    | Cooking(wait: Wait)   // a retooling or a tick of the running action
    | AwaitingPickup        // the conveyor has been notified
    | CookQueued            // the dish is gone and the next one is to be looked at
    | Travelling
    | AwaitingCommit
    | CommitQueued
    | Refitting             // a running reconfiguration

  function WaitPhase(w: Wait): Phase
  {
    match w
    case Moving => Travelling
    case Reconfiguring => Refitting
    case _ => Cooking(w)
  }

  function PhaseOf(s: State): Phase
  {
    if s.pickup then AwaitingPickup
    else if s.timer.Some? then WaitPhase(s.timer.value)
    else
      match Driver(Control(s.tasks))
      case None => if s.commitPending then AwaitingCommit else Idle
      case Some(t) =>
        match t
        case CookNextOrder => CookQueued
        case CommitPosition => CommitQueued
        case Expired(w) => WaitPhase(w)
        case _ => Idle
  }

  /** There is at most one continuation, and a request to adapt is queued ahead of the wait it leads to. */
  predicate Exclusive(s: State)
  {
    var c := Control(s.tasks);
    && |c| <= 2
    && (|c| == 2 ==> (IsRequest(c[0]) != IsRequest(c[1])))
    && (s.timer.Some? ==> Driver(c).None? && !s.pickup && !s.commitPending)
    && (s.pickup ==> Driver(c).None? && !s.commitPending)
    && (Driver(c) == Some(CommitPosition) <==> s.commitPending && Driver(c).Some?)
    && (|c| == 2 && IsRequest(c[1]) ==>
          c[0].CookNextOrder? || c[0] == Expired(Retooling) || c[0] == Expired(PassingTime))
  }

  predicate Within(s: State, p: nat) { 0 < p <= s.conveyorSize - 1 }

  predicate ModeOk(s: State)
  {
    var phase, request := PhaseOf(s), Request(Control(s.tasks));
    match s.mode
    case AVAILABLE =>
      && request.None? && !s.rearranging && !s.reconfiguring && s.target == 0
      && (phase.Idle? || phase.Cooking? || phase.AwaitingPickup? || phase.CookQueued?)
      && (s.preparing <==> !phase.Idle?)
    case REARRANGING =>
      && !s.reconfiguring && !phase.Refitting?
      && (s.rearranging <==> phase.Travelling? || phase.AwaitingCommit? || phase.CommitQueued?)
      && (!s.rearranging ==> (s.preparing <==> !phase.Idle?))
      && (request.Some? ==> request.value.SwitchPosition? && s.target == 0)
      && (phase.Idle? ==> request.Some?)
      && (if phase.AwaitingCommit? || phase.CommitQueued? then request.None? && s.target == 0
          else Within(s, Goal(s)) && Goal(s) != s.position)
    case RECONFIGURING =>
      && !s.rearranging && s.target == 0
      && (phase.Idle? || phase.Cooking? || phase.AwaitingPickup? || phase.CookQueued? || phase.Refitting?)
      && (s.reconfiguring <==> phase.Refitting?)
      && (!s.reconfiguring ==> (s.preparing <==> !phase.Idle?))
      && (request.Some? ==> request.value.StartReconfiguration?)
      && (phase.Idle? ==> request.Some?)
  }

  /** The position a rearranging robot has been asked to take, until it has taken it. */
  function Goal(s: State): nat
  {
    var request := Request(Control(s.tasks));
    if request.Some? && request.value.SwitchPosition? then request.value.target else s.target
  }

  // ------------------------------------------------------------------ dishes and orders

  predicate WellFormed(recipes: RecipeBook)
  {
    && 0 !in recipes
    && (forall r :: r in recipes ==> recipes[r] != [])
    && (forall r, i :: r in recipes && 0 <= i < |recipes[r]| ==> 0 < recipes[r][i].duration < U64)
  }

  predicate OrderOk(recipes: RecipeBook, caps: set<string>, o: Order)
  {
    && o.recipe in recipes && o.processedSteps < |recipes[o.recipe]| == o.processingSteps
    && o.actions == recipes[o.recipe][o.processedSteps..]
    && o.processableSteps == PrefixLength(caps, o.actions)
  }

  predicate OrdersOk(recipes: RecipeBook, caps: set<string>, orders: seq<Order>)
  {
    forall i :: 0 <= i < |orders| ==> OrderOk(recipes, caps, orders[i])
  }

  predicate TaskOk(recipes: RecipeBook, t: Task)
  {
    t.ReceiveTask? ==> t.recipe in recipes && t.steps < |recipes[t.recipe]|
  }

  predicate TasksOk(recipes: RecipeBook, tasks: seq<Task>)
  {
    forall i :: 0 <= i < |tasks| ==> TaskOk(recipes, tasks[i])
  }

  predicate NoDish(s: State)
  {
    s.recipe == 0 && s.overallProcessed == 0 && s.processed == 0 && !s.finished
  }

  /** The dish in process: processed steps plus remaining actions are the whole recipe, the published
      number of processable steps is the capable prefix the dish arrived with, and what is left of it
      is the capable prefix of the remaining actions. */
  predicate DishInProcess(s: State)
  {
    DishParts(s.recipes, s.caps, s.recipe, s.overallProcessed, s.overallProcessing, s.processed, s.processable,
        s.inProcess)
  }

  predicate DishParts(recipes: RecipeBook, caps: set<string>, recipe: nat, overall: nat, total: nat,
                      here: nat, doable: nat, remaining: seq<Action>)
  {
    && recipe in recipes
    && here <= overall <= |recipes[recipe]| == total
    && remaining == recipes[recipe][overall..]
    && here + PrefixLength(caps, remaining) == doable
    && doable == PrefixLength(caps, recipes[recipe][overall - here..])
  }

  predicate DishOk(s: State)
  {
    match PhaseOf(s)
    case Cooking(w) =>
      && DishInProcess(s) && !s.finished
      && s.inProcess != [] && s.inProcess[0].name in s.caps
      && (w.PassingTime? ==> s.tool == s.inProcess[0].tool && 0 < s.actionLeft <= s.inProcess[0].duration)
      && (w.Retooling? ==> s.tool != s.inProcess[0].tool)
    case AwaitingPickup =>
      && DishInProcess(s)
      && (s.finished <==> s.inProcess == [])
      && PrefixLength(s.caps, s.inProcess) == 0
    case _ => NoDish(s)
  }

  // ------------------------------------------------------------------ load

  function OrdersWork(caps: set<string>, orders: seq<Order>): seq<Action>
  {
    if orders == [] then [] else Prefix(caps, orders[0].actions) + OrdersWork(caps, orders[1..])
  }

  /** Everything the robot still has to do, in the order it will do it. */
  function Work(s: State): seq<Action>
  {
    (if PhaseOf(s).Cooking? then Prefix(s.caps, s.inProcess) else []) + OrdersWork(s.caps, s.orders)
  }

  /** The time that work takes, retooling included; a running action counts its remaining ticks. */
  function Load(s: State): nat
  {
    var work := Work(s);
    if PhaseOf(s) == Cooking(PassingTime) && work != [] then s.actionLeft + Cost(s.tool, work[1..])
    else Cost(s.tool, work)
  }

  predicate LoadOk(s: State)
  {
    s.overallTime == Load(s) % U32 && s.lastTool == LastTool(s.tool, Work(s))
  }

  ghost predicate Inv(s: State)
  {
    && s.fault.NoFault?
    && WellFormed(s.recipes) && Within(s, s.position)
    && (s.available <==> s.mode.AVAILABLE?)
    && Exclusive(s) && ModeOk(s)
    && (PhaseOf(s).Idle? ==> s.orders == [])
    && OrdersOk(s.recipes, s.caps, s.orders) && TasksOk(s.recipes, s.tasks)
    && DishOk(s) && LoadOk(s)
  }
}
