/** A robot: FIFO worker with exact load accounting, rearranging and reconfiguring between dishes.
    One state, one function for each handler that runs on the robot's event loop, one for each call
    it answers. The event loop is a FIFO of tasks; an expired timer queues its handler behind them. */
module Robot {
  import opened Basics
  import opened Recipes

  datatype Mode = AVAILABLE | REARRANGING | RECONFIGURING

  datatype Wait = Retooling | PassingTime | Moving | Reconfiguring

  datatype Task =
    | ReceiveTask(recipe: nat, steps: nat)
    | CookNextOrder
    | SwitchPosition(target: nat)
    | CommitPosition
    | StartReconfiguration
    | Expired(wait: Wait)

  datatype Order = Order(recipe: nat, processedSteps: nat, processingSteps: nat, processableSteps: nat,
      actions: seq<Action>)

  // Aborted: a pending timer was armed again, whose abort handler stops the robot.
  // Deadlocked: the event loop waits for a mutex it holds itself. EmptyPop: an empty queue was popped.
  datatype Fault = NoFault | Aborted | Deadlocked | EmptyPop

  type RecipeBook = map<nat, seq<Action>>

  datatype State = State(
    recipes: RecipeBook, conveyorSize: nat,
    position: nat, tool: Tool, orders: seq<Order>, actionLeft: nat, inProcess: seq<Action>,
    preparing: bool, rearranging: bool, reconfiguring: bool, finished: bool, pickup: bool,
    mode: Mode, target: nat, newCaps: set<string>, caps: set<string>,
    // published attributes
    recipe: nat, overallTime: nat, lastTool: Tool, processed: nat, processable: nat,
    overallProcessed: nat, overallProcessing: nat, available: bool, commitPending: bool,
    // event loop
    tasks: seq<Task>, timer: Option<Wait>, fault: Fault)

  /** A robot that has just started, with a randomly chosen tool. */
  function Initial(recipes: RecipeBook, conveyorSize: nat, position: nat, caps: set<string>, pick: Tool): State
  {
    State(recipes, conveyorSize, position, pick, [], 0, [], false, false, false, false, false, AVAILABLE, 0, {}, caps,
          0, 0, pick, 0, 0, 0, 0, true, false, [], None, NoFault)
  }

  // ------------------------------------------------------------------ handlers

  function Arm(s: State, w: Wait): State
  {
    if s.timer.Some? then s.(fault := Aborted) else s.(timer := Some(w))
  }

  function Post(s: State, t: Task): State { s.(tasks := s.tasks + [t]) }

  function HandleSwitchPosition(s: State): State
  {
    if s.rearranging then s else Arm(s.(rearranging := true), Moving)
  }

  function HandleReconfiguration(s: State): State
  {
    if s.reconfiguring then s else Arm(s.(reconfiguring := true), Reconfiguring)
  }

  function DetermineNextAction(s: State): State
  {
    if s.inProcess == [] then s.(finished := true, pickup := true)
    else if s.inProcess[0].name !in s.caps then s.(finished := false, pickup := true)
    else if s.inProcess[0].tool != s.tool then Arm(s, Retooling)
    else Arm(s.(actionLeft := s.inProcess[0].duration), PassingTime)
  }

  function CookNext(s: State): State
  {
    if s.mode.REARRANGING? then HandleSwitchPosition(s)
    else if s.mode.RECONFIGURING? then HandleReconfiguration(s)
    else if s.orders == [] then s.(preparing := false)
    else
      var o := s.orders[0];
      DetermineNextAction(s.(
        preparing := true, orders := s.orders[1..], recipe := o.recipe, inProcess := o.actions,
        overallProcessed := o.processedSteps, overallProcessing := o.processingSteps,
            processable := o.processableSteps))
  }

  /** An order of the given recipe, and the load it adds behind everything already accepted. */
  function Enqueue(s: State, recipe: nat, steps: nat): State
    requires recipe in s.recipes && steps <= |s.recipes[recipe]|
  {
    var actions := s.recipes[recipe][steps..];
    var doable := Prefix(s.caps, actions);
    s.(orders := s.orders + [Order(recipe, steps, |s.recipes[recipe]|, |doable|, actions)],
       overallTime := (s.overallTime + Cost(s.lastTool, doable)) % U32,
       lastTool := LastTool(s.lastTool, doable))
  }

  function HandleReceiveTask(s: State, recipe: nat, steps: nat): State
  {
    if recipe !in s.recipes then s
    else if steps > |s.recipes[recipe]| then s.(fault := EmptyPop)
    else
      var s' := Enqueue(s, recipe, steps);
      if s'.preparing then s' else CookNext(s')
  }

  function ActionPerformed(s: State): State
  {
    if s.inProcess == [] then s.(fault := EmptyPop)
    else DetermineNextAction(s.(overallProcessed := s.overallProcessed + 1, processed := s.processed + 1,
        inProcess := s.inProcess[1..]))
  }

  function PassTime(s: State): State
  {
    var left := (s.actionLeft - 1) % U64;
    var s' := s.(overallTime := (s.overallTime - 1) % U32, actionLeft := left);
    if left != 0 then Arm(s', PassingTime) else ActionPerformed(s')
  }

  function Retool(s: State): State
  {
    if s.inProcess == [] then s.(fault := EmptyPop)
    else DetermineNextAction(s.(tool := s.inProcess[0].tool, overallTime := (s.overallTime - RETOOLING_TIME) % U32))
  }

  function MoveToNewPosition(s: State): State
  {
    s.(commitPending := true, position := s.target, target := 0)
  }

  function HandleNewPositionCommit(s: State): State
  {
    CookNext(s.(rearranging := false, commitPending := false, mode := AVAILABLE, available := true))
  }

  /** Every order is costed again under the new capabilities, in its old place. */
  function Recost(s: State, orders: seq<Order>): State
    requires forall o :: o in orders ==> o.recipe in s.recipes && o.processedSteps <= |s.recipes[o.recipe]|
    decreases |orders|
  {
    if orders == [] then s else Recost(Enqueue(s, orders[0].recipe, orders[0].processedSteps), orders[1..])
  }

  predicate KnownOrders(s: State)
  {
    forall o :: o in s.orders ==> o.recipe in s.recipes && o.processedSteps <= |s.recipes[o.recipe]|
  }

  /** `pick` is the randomly chosen tool. Re-queueing an order while no dish is being prepared calls
      cook_next_order, which locks the state mutex that is already held here. */
  function CompleteReconfiguration(s: State, pick: Tool): State
  {
    if !KnownOrders(s) then s.(fault := EmptyPop)
    else if s.orders != [] && !s.preparing then s.(fault := Deadlocked)
    else
      var s' := Recost(s.(caps := s.newCaps, newCaps := {}, tool := pick, lastTool := pick, overallTime := 0,
          orders := []), s.orders);
      CookNext(s'.(reconfiguring := false, mode := AVAILABLE, available := true))
  }

  function HandleTask(s: State, t: Task, pick: Tool): State
  {
    match t
    case ReceiveTask(recipe, steps) => HandleReceiveTask(s, recipe, steps)
    case CookNextOrder => CookNext(s)
    case SwitchPosition(p) => var s' := s.(target := p); if s'.preparing then s' else HandleSwitchPosition(s')
    case CommitPosition => HandleNewPositionCommit(s)
    case StartReconfiguration => if s.preparing then s else HandleReconfiguration(s)
    case Expired(w) =>
      match w
      case Retooling => Retool(s)
      case PassingTime => PassTime(s)
      case Moving => MoveToNewPosition(s)
      case Reconfiguring => CompleteReconfiguration(s, pick)
  }

  // ------------------------------------------------------------------ calls

  function ReceiveTaskAccepts(s: State, recipe: nat, steps: nat, addressed: nat): bool
  {
    && s.mode.AVAILABLE? && addressed == s.position
    && recipe in s.recipes && steps < |s.recipes[recipe]| && s.recipes[recipe][steps].name in s.caps
  }

  /** With no step left the queue is popped while empty; with none left at its end its front is read. */
  function ReceiveTaskCall(s: State, recipe: nat, steps: nat, addressed: nat): State
  {
    if s.mode.AVAILABLE? && addressed == s.position && recipe in s.recipes && steps >= |s.recipes[recipe]|
    then s.(fault := EmptyPop)
    else if ReceiveTaskAccepts(s, recipe, steps, addressed) then Post(s, ReceiveTask(recipe, steps)) else s
  }

  datatype Dish = Dish(position: nat, recipe: nat, steps: nat, finished: bool)

  function HandoverReply(s: State): Dish
  {
    if !s.pickup then Dish(s.position, 0, 0, false)
    else Dish(s.position, s.recipe, s.overallProcessed, s.finished)
  }

  function HandoverCall(s: State): State
  {
    if !s.pickup then s
    else Post(s.(pickup := false, finished := false, processed := 0, processable := 0, overallProcessed := 0,
                 overallProcessing := 0, recipe := 0), CookNextOrder)
  }

  function SwitchAccepts(s: State, p: nat): bool
  {
    0 < p <= s.conveyorSize - 1 && p != s.position && s.mode.AVAILABLE?
  }

  function SwitchCall(s: State, p: nat): State
  {
    if SwitchAccepts(s, p) then Post(s.(mode := REARRANGING, available := false), SwitchPosition(p)) else s
  }

  function CommitAccepts(s: State): bool { s.mode.REARRANGING? && s.commitPending }

  function CommitCall(s: State): State
  {
    if CommitAccepts(s) then Post(s, CommitPosition) else s
  }

  function ReconfigureAccepts(s: State, caps: set<string>): bool { caps != s.caps && s.mode.AVAILABLE? }

  function ReconfigureCall(s: State, caps: set<string>): State
  {
    if ReconfigureAccepts(s, caps)
    then Post(s.(mode := RECONFIGURING, available := false, newCaps := caps), StartReconfiguration) else s
  }

  datatype Event =
    | ReceiveTaskEvent(recipe: nat, steps: nat, addressed: nat)
    | HandoverEvent
    | SwitchEvent(target: nat)
    | CommitEvent
    | ReconfigureEvent(caps: set<string>)
    | TimerExpires
    | RunTask(pick: Tool)

  /** A robot that has stopped or hangs does nothing any more. */
  function Step(s: State, e: Event): State
  {
    if !s.fault.NoFault? then s else
    match e
    case ReceiveTaskEvent(recipe, steps, addressed) => ReceiveTaskCall(s, recipe, steps, addressed)
    case HandoverEvent => HandoverCall(s)
    case SwitchEvent(p) => SwitchCall(s, p)
    case CommitEvent => CommitCall(s)
    case ReconfigureEvent(caps) => ReconfigureCall(s, caps)
    case TimerExpires => if s.timer.None? then s else Post(s.(timer := None), Expired(s.timer.value))
    case RunTask(pick) => if s.tasks == [] then s else HandleTask(s.(tasks := s.tasks[1..]), s.tasks[0], pick)
  }

  /** What the robot relies on its callers for: they name an open step of a known recipe, and a move
      is committed at most once. */
  predicate Admissible(s: State, e: Event)
  {
    match e
    case ReceiveTaskEvent(recipe, steps, addressed) => recipe in s.recipes && steps < |s.recipes[recipe]|
    case CommitEvent => CommitPosition !in s.tasks
    case _ => true
  }
}
