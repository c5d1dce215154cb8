/** Whole runs of a robot. */
module RobotRuns {
  import opened Basics
  import opened Recipes
  import opened Robot
  import opened RobotInvariant
  import opened RobotSteps

  // ------------------------------------------------------------------ calls and the timer

  lemma TasksOkAppend(recipes: RecipeBook, tasks: seq<Task>, t: Task)
    requires TasksOk(recipes, tasks) && TaskOk(recipes, t)
    ensures TasksOk(recipes, tasks + [t])
  {
    hide TaskOk;
  }

  lemma ReceiveTaskKeeps(s: State, recipe: nat, steps: nat, addressed: nat)
    requires Inv(s) && recipe in s.recipes && steps < |s.recipes[recipe]|
    ensures Inv(ReceiveTaskCall(s, recipe, steps, addressed))
  {
    hide DishParts, Control, Cost, LastTool, Prefix, PrefixLength, OrdersWork, OrdersOk, TasksOk, WellFormed, LoadOk,
         DishOk, ModeOk, Exclusive, PhaseOf;
    var t := ReceiveTask(recipe, steps);
    ControlAppend(s.tasks, t);
    TasksOkAppend(s.recipes, s.tasks, t);
    TasksIndependent(s, s.tasks + [t]);
  }

  lemma HandoverKeeps(s: State)
    requires Inv(s)
    ensures Inv(HandoverCall(s))
  {
    hide DishParts, Control, Cost, LastTool, Prefix, PrefixLength, OrdersWork, OrdersOk, TasksOk, WellFormed, LoadOk;
    ControlAppend(s.tasks, CookNextOrder);
    TasksOkAppend(s.recipes, s.tasks, CookNextOrder);
    if s.pickup {
      SameLoadUncooked(s, HandoverCall(s));
    }
  }

  lemma SwitchKeeps(s: State, p: nat)
    requires Inv(s)
    ensures Inv(SwitchCall(s, p))
  {
    hide DishParts, Control, Cost, LastTool, Prefix, PrefixLength, OrdersWork, OrdersOk, TasksOk, WellFormed, LoadOk;
    ControlAppend(s.tasks, SwitchPosition(p));
    TasksOkAppend(s.recipes, s.tasks, SwitchPosition(p));
    assert SwitchAccepts(s, p) ==> PhaseOf(SwitchCall(s, p)) == PhaseOf(s);
    SameLoad(s, SwitchCall(s, p));
  }

  lemma CommitKeeps(s: State)
    requires Inv(s) && CommitPosition !in s.tasks
    ensures Inv(CommitCall(s))
  {
    DriverQueued(s);
    hide DishParts, Control, Cost, LastTool, Prefix, PrefixLength, OrdersWork, OrdersOk, TasksOk, WellFormed, LoadOk;
    ControlAppend(s.tasks, CommitPosition);
    TasksOkAppend(s.recipes, s.tasks, CommitPosition);
    if CommitAccepts(s) {
      assert PhaseOf(s).AwaitingCommit? && PhaseOf(CommitCall(s)).CommitQueued?;
      SameLoadUncooked(s, CommitCall(s));
    }
  }

  lemma DriverQueued(s: State)
    requires CommitPosition !in s.tasks
    ensures Driver(Control(s.tasks)) != Some(CommitPosition)
  {
    ControlElements(s.tasks);
    hide Control;
  }

  lemma {:induction false} ControlElements(tasks: seq<Task>)
    ensures forall t :: t in Control(tasks) ==> t in tasks
    ensures forall t :: t in tasks && !t.ReceiveTask? ==> t in Control(tasks)
  {
    if tasks != [] { ControlElements(tasks[1..]); }
  }

  lemma ReconfigureCallKeeps(s: State, caps: set<string>)
    requires Inv(s)
    ensures Inv(ReconfigureCall(s, caps))
  {
    hide DishParts, Control, Cost, LastTool, Prefix, PrefixLength, OrdersWork, OrdersOk, TasksOk, WellFormed, LoadOk;
    ControlAppend(s.tasks, StartReconfiguration);
    TasksOkAppend(s.recipes, s.tasks, StartReconfiguration);
    assert ReconfigureAccepts(s, caps) ==> PhaseOf(ReconfigureCall(s, caps)) == PhaseOf(s);
    SameLoad(s, ReconfigureCall(s, caps));
  }

  lemma ExpiryKeeps(s: State)
    requires Inv(s)
    ensures Inv(Step(s, TimerExpires))
  {
    hide DishParts, Control, Cost, LastTool, Prefix, PrefixLength, OrdersWork, OrdersOk, TasksOk, WellFormed, LoadOk;
    if s.timer.Some? {
      ControlAppend(s.tasks, Expired(s.timer.value));
      TasksOkAppend(s.recipes, s.tasks, Expired(s.timer.value));
      assert PhaseOf(Step(s, TimerExpires)) == PhaseOf(s);
      SameLoad(s, Step(s, TimerExpires));
    }
  }

  // ------------------------------------------------------------------ one step, and runs

  /** The one way a robot hangs: its reconfiguration completes while it prepares no dish although an
      order was accepted before the reconfiguration and handled after it. */
  predicate Deadlocks(s: State, e: Event)
  {
    e.RunTask? && s.tasks != [] && s.tasks[0] == Expired(Reconfiguring) && !s.preparing && s.orders != []
  }

  lemma TaskKeeps(s: State, pick: Tool)
    requires Inv(s) && s.tasks != [] && !Deadlocks(s, RunTask(pick))
    ensures Inv(HandleTask(Popped(s), s.tasks[0], pick))
  {
    hide Inv, HandleReceiveTask, CookNext, HandleNewPositionCommit, CompleteReconfiguration, MoveToNewPosition,
         PassTime, Retool, HandleSwitchPosition, HandleReconfiguration;
    match s.tasks[0]
    case ReceiveTask(_, _) => ReceiveKeeps(s);
    case CookNextOrder => CookTaskKeeps(s);
    case SwitchPosition(_) => SwitchTaskKeeps(s);
    case CommitPosition => CommitTaskKeeps(s);
    case StartReconfiguration => StartTaskKeeps(s);
    case Expired(w) =>
      match w
      case Retooling => RetoolKeeps(s);
      case PassingTime =>
        TickPhase(s);
        DurationBound(s);
        if s.actionLeft > 1 { TickKeeps(s); } else { LastTickKeeps(s); }
      case Moving => MoveKeeps(s);
      case Reconfiguring => ReconfigureKeeps(s, pick);
  }

  lemma NoFaultYet(s: State)
    requires Inv(s)
    ensures s.fault.NoFault?
  {
  }

  /** Every admissible step keeps the invariant, unless it is the one that hangs. */
  lemma StepKeeps(s: State, e: Event)
    requires Inv(s) && Admissible(s, e)
    ensures Inv(Step(s, e)) <==> !Deadlocks(s, e)
    ensures Deadlocks(s, e) ==> Step(s, e) == Popped(s).(fault := Deadlocked)
  {
    NoFaultYet(s);
    if Deadlocks(s, e) {
      HangsExactly(s, e.pick);
    } else {
      hide Inv, ReceiveTaskCall, HandoverCall, SwitchCall, CommitCall, ReconfigureCall, HandleTask;
      match e
      case ReceiveTaskEvent(recipe, steps, addressed) => ReceiveTaskKeeps(s, recipe, steps, addressed);
      case HandoverEvent => HandoverKeeps(s);
      case SwitchEvent(p) => SwitchKeeps(s, p);
      case CommitEvent => CommitKeeps(s);
      case ReconfigureEvent(caps) => ReconfigureCallKeeps(s, caps);
      case TimerExpires => ExpiryKeeps(s);
      case RunTask(pick) => if s.tasks != [] { TaskKeeps(s, pick); }
    }
  }

  lemma HangsExactly(s: State, pick: Tool)
    requires Inv(s) && Deadlocks(s, RunTask(pick))
    ensures Step(s, RunTask(pick)) == Popped(s).(fault := Deadlocked)
    ensures !Inv(Step(s, RunTask(pick)))
  {
    KnownByInv(s);
    SameKnown(s);
    hide KnownOrders, Exclusive, ModeOk, DishOk, LoadOk, OrdersOk, TasksOk, WellFormed, PhaseOf, CookNext, Recost;
  }

  lemma InitialKeeps(recipes: RecipeBook, conveyorSize: nat, position: nat, caps: set<string>, pick: Tool)
    requires WellFormed(recipes) && 0 < position <= conveyorSize - 1
    ensures Inv(Initial(recipes, conveyorSize, position, caps, pick))
  {
    hide WellFormed;
  }

  function Run(s: State, events: seq<Event>): State
    decreases |events|
  {
    if events == [] then s else Run(Step(s, events[0]), events[1..])
  }

  predicate AllAdmissible(s: State, events: seq<Event>)
    decreases |events|
  {
    events == [] || (Admissible(s, events[0]) && AllAdmissible(Step(s, events[0]), events[1..]))
  }

  /** Some step of the run is the one that hangs. */
  predicate RunDeadlocks(s: State, events: seq<Event>)
    decreases |events|
  {
    events != [] && (Deadlocks(s, events[0]) || RunDeadlocks(Step(s, events[0]), events[1..]))
  }

  lemma {:induction false} FaultStays(s: State, events: seq<Event>)
    requires !s.fault.NoFault?
    ensures Run(s, events) == s
    decreases |events|
  {
    if events != [] { FaultStays(s, events[1..]); }
  }

  /** On every run a robot keeps its invariant or hangs, and it hangs exactly when some reconfiguration
      completes with an order queued and no dish in preparation. */
  lemma {:induction false} RunKeeps(s: State, events: seq<Event>)
    requires Inv(s) && AllAdmissible(s, events)
    ensures Inv(Run(s, events)) <==> !RunDeadlocks(s, events)
    ensures RunDeadlocks(s, events) <==> Run(s, events).fault == Deadlocked
    decreases |events|
  {
    if events == [] {
      NoFaultYet(s);
    } else {
      StepKeeps(s, events[0]);
      if Deadlocks(s, events[0]) {
        FaultStays(Step(s, events[0]), events[1..]);
        FaultyNotInv(Step(s, events[0]));
      } else {
        hide Inv, Step, Deadlocks;
        RunKeeps(Step(s, events[0]), events[1..]);
      }
    }
  }

  lemma FaultyNotInv(s: State)
    requires !s.fault.NoFault?
    ensures !Inv(s)
  {
  }
}
