/** Adaptations complete: a robot that is asked to move or to reconfigure does so after a number of steps that
    can be read off its state. */
module RobotCompletion {
  import opened Basics
  import opened Recipes
  import opened Robot
  import opened RobotInvariant
  import opened RobotSteps
  import opened RobotRuns
  import opened RobotFifo
  import opened RobotLegs
  import opened RobotProgress

  // ------------------------------------------------------------------ how far a robot has to go

  /** What is left of the dish in process, in ticks and retoolings. */
  function DishCost(s: State): nat { Owed(s, Prefix(s.caps, s.inProcess)) }

  /** The steps from a phase to the start of the adaptation, each tick or retooling taking up to three. */
  function Ahead(phase: Phase, dish: nat): nat
  {
    match phase
    case Idle => 2
    case Cooking(_) => 4 + 3 * dish
    case AwaitingPickup => 4
    case CookQueued => 2
    case _ => 0
  }

  /** A bound on the steps until the adaptation under way is complete. */
  function Outstanding(s: State): nat
  {
    |s.tasks| + (if s.timer.Some? then 2 else 0) + Ahead(PhaseOf(s), DishCost(s))
  }

  /** Asked to adapt, and neither done nor waiting for the commit of a move. */
  predicate Adapting(s: State) { LegOf(s).Heading? || LegOf(s).Committing? || LegOf(s).Refit? }

  /** A step in which something happens: the timer expires, a task runs, or the finished dish is fetched. */
  predicate Effective(s: State, e: Event)
  {
    (e.TimerExpires? && s.timer.Some?) || (e.RunTask? && s.tasks != []) || (e.HandoverEvent? && s.pickup)
  }

  lemma SameDishCost(s: State, s': State)
    requires PhaseOf(s') == PhaseOf(s) && s'.caps == s.caps && s'.inProcess == s.inProcess
    requires s'.tool == s.tool && s'.actionLeft == s.actionLeft
    ensures DishCost(s') == DishCost(s)
  {
    hide PhaseOf, Cost, Prefix;
  }

  lemma FewerTasks(s: State, s': State)
    requires PhaseOf(s') == PhaseOf(s) && s'.caps == s.caps && s'.inProcess == s.inProcess
    requires s'.tool == s.tool && s'.actionLeft == s.actionLeft && s'.timer == s.timer && |s'.tasks| == |s.tasks| - 1
    ensures Outstanding(s') == Outstanding(s) - 1
  {
    SameDishCost(s, s');
    hide PhaseOf, DishCost;
  }

  // ------------------------------------------------------------------ turning to an action or an adaptation

  lemma TurnsToAction(s: State)
    requires Resting(s)
    ensures DetermineNextAction(s).tasks == s.tasks
    ensures Outstanding(DetermineNextAction(s)) <= |s.tasks| + 6 + 3 * Cost(s.tool, Prefix(s.caps, s.inProcess))
  {
    assert s.timer.None? && !s.pickup;
    hide Resting, Cost, Prefix, DetermineNextAction, Outstanding;
    if s.inProcess == [] || s.inProcess[0].name !in s.caps {
      TurnsToPickup(s);
    } else {
      TurnsToWait(s);
    }
  }

  lemma TurnsToPickup(s: State)
    requires s.timer.None? && (s.inProcess == [] || s.inProcess[0].name !in s.caps)
    ensures DetermineNextAction(s).tasks == s.tasks && Outstanding(DetermineNextAction(s)) == |s.tasks| + 4
  {
    assert PhaseOf(DetermineNextAction(s)).AwaitingPickup?;
    hide PhaseOf, DishCost;
  }

  lemma TurnsToWait(s: State)
    requires s.timer.None? && !s.pickup && s.inProcess != [] && s.inProcess[0].name in s.caps
    ensures DetermineNextAction(s).tasks == s.tasks
    ensures Outstanding(DetermineNextAction(s)) == |s.tasks| + 6 + 3 * Cost(s.tool, Prefix(s.caps, s.inProcess))
  {
    var work := Prefix(s.caps, s.inProcess);
    var wait := if s.inProcess[0].tool == s.tool then PassingTime else Retooling;
    var left := if s.inProcess[0].tool == s.tool then s.inProcess[0].duration else s.actionLeft;
    Waits(s);
    PrefixTail(s.caps, s.inProcess);
    if wait.PassingTime? { StartCost(s.tool, work); }
    hide Cost, Prefix, DetermineNextAction, Outstanding;
    ArmedOutstanding(s, wait, left);
  }

  lemma Waits(s: State)
    requires s.timer.None? && s.inProcess != [] && s.inProcess[0].name in s.caps
    ensures DetermineNextAction(s) ==
              if s.inProcess[0].tool == s.tool
                  then s.(timer := Some(PassingTime), actionLeft := s.inProcess[0].duration)
              else s.(timer := Some(Retooling), actionLeft := s.actionLeft)
  {
  }

  lemma ArmedOutstanding(s: State, wait: Wait, left: nat)
    requires !s.pickup && (wait.PassingTime? || wait.Retooling?) && Prefix(s.caps, s.inProcess) != []
    ensures Outstanding(s.(timer := Some(wait), actionLeft := left)) == |s.tasks| + 6 + 3 *
              (if wait.PassingTime? then left + Cost(s.tool, Prefix(s.caps, s.inProcess)[1..])
                  else Cost(s.tool, Prefix(s.caps, s.inProcess)))
  {
    hide Cost, Prefix;
    assert PhaseOf(s.(timer := Some(wait), actionLeft := left)) == Cooking(wait);
    hide PhaseOf;
  }

  lemma StartCost(tool: Tool, work: seq<Action>)
    requires work != [] && work[0].tool == tool
    ensures Cost(tool, work) == work[0].duration + Cost(tool, work[1..])
  {
  }

  lemma TurnsToAdaptation(s: State)
    requires Resting(s) && !s.rearranging && !s.reconfiguring && !s.mode.AVAILABLE?
    ensures Outstanding(CookNext(s)) == |s.tasks| + 2
  {
    hide Control, DetermineNextAction, DishCost;
  }

  // ------------------------------------------------------------------ every effective step

  lemma ReceiveShrinks(s: State)
    requires Inv(s) && s.tasks != [] && s.tasks[0].ReceiveTask? && !s.mode.AVAILABLE?
    ensures var s' := HandleReceiveTask(Popped(s), s.tasks[0].recipe, s.tasks[0].steps);
            && Outstanding(s') < Outstanding(s)
            && DishTicket(s') == DishTicket(s) && s'.inProcess == s.inProcess && |s'.orders| == |s.orders| + 1
            && (s'.timer != s.timer ==>
                  && s.timer.None? && !s.rearranging && !s.reconfiguring
                  && s'.timer == Some(if s.mode.REARRANGING? then Moving else Reconfiguring))
  {
    var s1, t := Popped(s), s.tasks[0];
    PopReceive(s);
    var s2 := Enqueue(s1, t.recipe, t.steps);
    EnqueueFrame(s1, t.recipe, t.steps);
    SamePhase(s1, s2);
    FewerTasks(s, s2);
    if !s2.preparing && !s2.rearranging && !s2.reconfiguring {
      IdleRests(s1);
      SameRest(s1, s2);
      TurnsToAdaptation(s2);
      IdleOutstanding(s2);
    }
    hide Inv, Outstanding, Enqueue, Resting, DetermineNextAction;
  }

  lemma EnqueueFrame(s: State, recipe: nat, steps: nat)
    requires recipe in s.recipes && steps <= |s.recipes[recipe]|
    ensures var s' := Enqueue(s, recipe, steps);
            && s'.tasks == s.tasks && s'.timer == s.timer && s'.pickup == s.pickup &&
               s'.commitPending == s.commitPending
            && s'.caps == s.caps && s'.inProcess == s.inProcess && s'.tool == s.tool && s'.actionLeft == s.actionLeft
            && s'.mode == s.mode && s'.preparing == s.preparing && s'.rearranging == s.rearranging &&
               s'.reconfiguring == s.reconfiguring
  {
    hide Cost, LastTool, Prefix;
  }

  lemma IdleRests(s: State)
    requires Holding(s) && !s.preparing && !s.rearranging && !s.reconfiguring
    ensures PhaseOf(s).Idle? && Resting(s)
  {
    hide Control, DishOk, LoadOk, OrdersOk, TasksOk, WellFormed;
  }

  lemma SameRest(s: State, s': State)
    requires Resting(s) && s'.tasks == s.tasks && s'.timer == s.timer && s'.pickup == s.pickup
    requires s'.commitPending == s.commitPending
    ensures Resting(s')
  {
    hide Control, Driver;
  }

  lemma IdleOutstanding(s: State)
    requires PhaseOf(s).Idle? && s.timer.None?
    ensures Outstanding(s) == |s.tasks| + 2
  {
    hide PhaseOf, DishCost;
  }

  lemma CookTaskShrinks(s: State)
    requires Inv(s) && s.tasks != [] && s.tasks[0].CookNextOrder? && !s.mode.AVAILABLE?
    ensures Outstanding(CookNext(Popped(s))) < Outstanding(s)
  {
    hide DishOk, LoadOk, OrdersOk, TasksOk, WellFormed, CookNext, DishCost, Control;
    PopControl(s);
    assert PhaseOf(s).CookQueued?;
    TurnsToAdaptation(Popped(s));
  }

  lemma RequestShrinks(s: State, pick: Tool)
    requires Inv(s) && s.tasks != [] && IsRequest(s.tasks[0]) && !s.mode.AVAILABLE?
    ensures Outstanding(HandleTask(Popped(s), s.tasks[0], pick)) < Outstanding(s)
  {
    hide DishOk, LoadOk, OrdersOk, TasksOk, WellFormed, DishCost, Control;
    PopControl(s);
    var s' := HandleTask(Popped(s), s.tasks[0], pick);
    if s.preparing || s.rearranging || s.reconfiguring {
      assert PhaseOf(s') == PhaseOf(s);
      FewerTasks(s, s');
    } else {
      assert PhaseOf(s).Idle?;
    }
  }

  lemma RetoolShrinks(s: State)
    requires Inv(s) && s.tasks != [] && s.tasks[0] == Expired(Retooling)
    ensures Outstanding(Retool(Popped(s))) < Outstanding(s)
  {
    RetoolHead(s);
    var work, s1 := Prefix(s.caps, s.inProcess),
        Popped(s).(tool := s.inProcess[0].tool, overallTime := (s.overallTime - RETOOLING_TIME) % U32);
    RetoolingPaid(s.tool, work);
    CookingRests(s);
    SameRest(Popped(s), s1);
    TurnsToAction(s1);
    CookingOutstanding(s);
    hide Inv, Resting, Outstanding, PhaseOf, Cost, Prefix, DetermineNextAction;
  }

  lemma RetoolHead(s: State)
    requires Inv(s) && s.tasks != [] && s.tasks[0] == Expired(Retooling)
    ensures PhaseOf(s) == Cooking(Retooling) && s.inProcess != [] && s.tool != s.inProcess[0].tool
    ensures Prefix(s.caps, s.inProcess) != [] && Prefix(s.caps, s.inProcess)[0] == s.inProcess[0]
  {
    PopControl(s);
    hide Control, Exclusive, LoadOk, OrdersOk, TasksOk, WellFormed, Prefix, OrdersWork;
    assert PhaseOf(s) == Cooking(Retooling);
    FrontOfWork(s);
    PrefixTail(s.caps, s.inProcess);
  }

  /** Once the expired timer's task has been taken, nothing else drives the robot on. */
  lemma CookingRests(s: State)
    requires Inv(s) && s.tasks != [] && (s.tasks[0] == Expired(Retooling) || s.tasks[0] == Expired(PassingTime))
    ensures Resting(Popped(s)) && s.timer.None?
  {
    PopControl(s);
    hide Control, DishOk, LoadOk, OrdersOk, TasksOk, WellFormed, ModeOk;
  }

  lemma CookingOutstanding(s: State)
    requires PhaseOf(s).Cooking? && s.timer.None?
    ensures Outstanding(s) == |s.tasks| + 4 + 3 * DishCost(s)
    ensures PhaseOf(s) == Cooking(Retooling) ==> DishCost(s) == Cost(s.tool, Prefix(s.caps, s.inProcess))
    ensures PhaseOf(s) == Cooking(PassingTime) && Prefix(s.caps, s.inProcess) != [] ==>
              DishCost(s) == s.actionLeft + Cost(s.tool, Prefix(s.caps, s.inProcess)[1..])
  {
    hide PhaseOf, Cost, Prefix;
  }

  lemma TickShrinks(s: State)
    requires Inv(s) && s.tasks != [] && s.tasks[0] == Expired(PassingTime)
    ensures Outstanding(PassTime(Popped(s))) < Outstanding(s)
  {
    TickPhase(s);
    DurationBound(s);
    CookingRests(s);
    TickWork(s);
    CookingOutstanding(s);
    if s.actionLeft > 1 {
      TickEquation(Popped(s));
      MidTick(s);
    } else {
      LastTick(s);
    }
    hide Inv, Outstanding, PhaseOf, PassTime, Resting;
  }

  lemma TickWork(s: State)
    requires Inv(s) && PhaseOf(s) == Cooking(PassingTime)
    ensures s.inProcess != [] && s.inProcess[0].tool == s.tool
    ensures Prefix(s.caps, s.inProcess) != [] && Prefix(s.caps, s.inProcess)[0] == s.inProcess[0]
    ensures Prefix(s.caps, s.inProcess)[1..] == Prefix(s.caps, s.inProcess[1..])
  {
    hide Control, Exclusive, LoadOk, OrdersOk, TasksOk, WellFormed, Prefix, OrdersWork, PhaseOf, ModeOk;
    PrefixTail(s.caps, s.inProcess);
    FrontOfWork(s);
  }

  lemma MidTick(s: State)
    requires s.tasks != [] && Resting(Popped(s)) && s.actionLeft > 1 && Prefix(s.caps, s.inProcess) != []
    ensures Outstanding(Ticked(Popped(s)))
              == |s.tasks| + 5 + 3 * (s.actionLeft - 1 + Cost(s.tool, Prefix(s.caps, s.inProcess)[1..]))
  {
    hide Control, Cost, Prefix;
    assert PhaseOf(Ticked(Popped(s))) == Cooking(PassingTime);
  }

  lemma LastTick(s: State)
    requires s.tasks != [] && Resting(Popped(s)) && s.actionLeft == 1 && s.inProcess != []
    requires Prefix(s.caps, s.inProcess) != [] && Prefix(s.caps, s.inProcess)[1..] == Prefix(s.caps, s.inProcess[1..])
    ensures Outstanding(PassTime(Popped(s))) <= |s.tasks| + 5 + 3 * Cost(s.tool, Prefix(s.caps, s.inProcess)[1..])
  {
    var s1 := Counted(Popped(s));
    LastTickCounts(Popped(s));
    SameRest(Popped(s), s1);
    TurnsToAction(s1);
    hide Outstanding, Cost, Prefix, DetermineNextAction, Resting, PassTime;
  }

  lemma ExpiryShrinks(s: State)
    requires Inv(s) && s.timer.Some?
    ensures Outstanding(Step(s, TimerExpires)) < Outstanding(s)
  {
    NoFaultYet(s);
    hide Inv, DishCost, PhaseOf;
    var s' := s.(timer := None, tasks := s.tasks + [Expired(s.timer.value)]);
    ExpiryPhase(s);
    SameDishCost(s, s');
    assert Step(s, TimerExpires) == s';
  }

  lemma ExpiryPhase(s: State)
    requires Inv(s) && s.timer.Some?
    ensures PhaseOf(s.(timer := None, tasks := s.tasks + [Expired(s.timer.value)])) == PhaseOf(s)
  {
    hide DishOk, LoadOk, OrdersOk, TasksOk, WellFormed, ModeOk, Control;
    ControlAppend(s.tasks, Expired(s.timer.value));
  }

  lemma HandoverShrinks(s: State)
    requires Inv(s) && s.pickup
    ensures Outstanding(HandoverCall(s)) < Outstanding(s)
  {
    hide DishOk, LoadOk, OrdersOk, TasksOk, WellFormed, DishCost, ModeOk, Control;
    ControlAppend(s.tasks, CookNextOrder);
    assert PhaseOf(HandoverCall(s)).CookQueued?;
  }

  /** The tasks that do not complete the adaptation. */
  lemma TaskShrinks(s: State, pick: Tool)
    requires Inv(s) && s.tasks != [] && !s.mode.AVAILABLE?
    requires !s.tasks[0].CommitPosition? && s.tasks[0] != Expired(Moving) && s.tasks[0] != Expired(Reconfiguring)
    ensures Outstanding(HandleTask(Popped(s), s.tasks[0], pick)) < Outstanding(s)
  {
    hide Inv, Outstanding, HandleReceiveTask, CookNext, PassTime, Retool, HandleSwitchPosition, HandleReconfiguration;
    match s.tasks[0]
    case ReceiveTask(_, _) => ReceiveShrinks(s);
    case CookNextOrder => CookTaskShrinks(s);
    case SwitchPosition(_) => RequestShrinks(s, pick);
    case StartReconfiguration => RequestShrinks(s, pick);
    case Expired(w) => if w.Retooling? { RetoolShrinks(s); } else { TickShrinks(s); }
  }

  lemma NotAvailable(s: State)
    requires Adapting(s)
    ensures !s.mode.AVAILABLE?
  {
    hide Control, Goal;
  }

  lemma MoveCompletes(s: State)
    requires Inv(s) && s.tasks != [] && s.tasks[0] == Expired(Moving)
    ensures !Adapting(MoveToNewPosition(Popped(s)))
  {
    PopControl(s);
    DriverIsMove(s);
    ControlElements(s.tasks[1..]);
    hide Control, Goal, DishOk, LoadOk, OrdersOk, TasksOk, WellFormed;
  }

  lemma DriverIsMove(s: State)
    requires Inv(s) && s.tasks != [] && s.tasks[0] == Expired(Moving)
    ensures s.mode.REARRANGING? && CommitPosition !in Control(s.tasks[1..])
  {
    PopControl(s);
    hide Control, Goal, DishOk, LoadOk, OrdersOk, TasksOk, WellFormed;
    assert PhaseOf(s).Travelling?;
  }

  lemma AvailableAfter(s: State)
    ensures !Adapting(HandleNewPositionCommit(s))
  {
    CookNextAims(s.(rearranging := false, commitPending := false, mode := AVAILABLE, available := true));
    hide CookNext, Control;
  }

  lemma ReconfigurationCompletes(s: State, pick: Tool)
    requires Inv(s) && s.tasks != [] && s.tasks[0] == Expired(Reconfiguring) && !Deadlocks(s, RunTask(pick))
    ensures !Adapting(CompleteReconfiguration(Popped(s), pick))
  {
    Reconfigured(s, pick);
    hide Inv, Control, CompleteReconfiguration;
  }

  /** Calls other than the handover change nothing in a robot that adapts. */
  lemma CallsIgnored(s: State, e: Event)
    requires Inv(s) && Adapting(s) && Admissible(s, e) && !Effective(s, e)
    ensures Step(s, e) == s
  {
    NoFaultYet(s);
    NotAvailable(s);
    hide Inv, Control, Goal;
  }

  /** Every effective step of an adapting robot completes the adaptation or brings it closer; nothing else that
      may happen delays it. */
  lemma StepShrinks(s: State, e: Event)
    requires Inv(s) && Adapting(s) && Admissible(s, e) && !Deadlocks(s, e)
    ensures if Effective(s, e) then !Adapting(Step(s, e)) || Outstanding(Step(s, e)) < Outstanding(s)
            else Step(s, e) == s
  {
    NoFaultYet(s);
    NotAvailable(s);
    hide Inv, Adapting, Outstanding, HandleTask, HandoverCall, Deadlocks;
    if !Effective(s, e) {
      CallsIgnored(s, e);
    } else if e.TimerExpires? {
      ExpiryShrinks(s);
    } else if e.HandoverEvent? {
      HandoverShrinks(s);
    } else {
      EffectiveTask(s, e.pick);
    }
  }

  lemma EffectiveTask(s: State, pick: Tool)
    requires Inv(s) && !s.mode.AVAILABLE? && s.tasks != [] && !Deadlocks(s, RunTask(pick))
    ensures var s' := HandleTask(Popped(s), s.tasks[0], pick); !Adapting(s') || Outstanding(s') < Outstanding(s)
  {
    hide Inv, Adapting, Outstanding, HandleNewPositionCommit, MoveToNewPosition, CompleteReconfiguration,
         HandleReceiveTask, CookNext, PassTime, Retool;
    if s.tasks[0].CommitPosition? {
      AvailableAfter(Popped(s));
    } else if s.tasks[0] == Expired(Moving) {
      MoveCompletes(s);
    } else if s.tasks[0] == Expired(Reconfiguring) {
      ReconfigurationCompletes(s, pick);
    } else {
      TaskShrinks(s, pick);
    }
  }

  // ------------------------------------------------------------------ whole runs

  function EffectiveSteps(s: State, events: seq<Event>): nat
    decreases |events|
  {
    if events == [] then 0
        else (if Effective(s, events[0]) then 1 else 0) + EffectiveSteps(Step(s, events[0]), events[1..])
  }

  /** The first state of the run in which no adaptation is under way, or else its last state. */
  function FirstAdapted(s: State, events: seq<Event>): State
    decreases |events|
  {
    if !Adapting(s) || events == [] then s else FirstAdapted(Step(s, events[0]), events[1..])
  }

  lemma SomethingLeft(s: State)
    requires Inv(s) && Adapting(s)
    ensures Outstanding(s) > 0
  {
    NotAvailable(s);
    AdaptationPending(s);
    if s.pickup { PickupAhead(s); }
    hide Inv, PhaseOf, DishCost;
  }

  lemma PickupAhead(s: State)
    requires s.pickup
    ensures PhaseOf(s).AwaitingPickup?
  {
  }

  /** What comes of an adaptation: a move ends at the position that was asked for, a commit with an available robot, a
      reconfiguration with one that has the capabilities that were asked for. */
  predicate Adapted(s: State, s': State)
  {
    match LegOf(s)
    case Heading(goal) => LegOf(s').Arrived? && s'.position == goal && s'.caps == s.caps
    case Refit => LegOf(s').Settled? && s'.position == s.position && s'.caps == s.newCaps
    case _ => LegOf(s').Settled? && s'.position == s.position && s'.caps == s.caps
  }

  /** Still on the way to the same end. */
  predicate SameEnd(s: State, s': State)
  {
    && LegOf(s') == LegOf(s) && s'.position == s.position && s'.caps == s.caps
    && (LegOf(s).Refit? ==> s'.newCaps == s.newCaps)
  }

  lemma AdvancesToEnd(s: State, s': State)
    requires Advances(s, s') && Adapting(s)
    ensures if Adapting(s') then SameEnd(s, s') else Adapted(s, s')
  {
    hide Inv, LegOf;
  }

  lemma LegStays(s: State, e: Event)
    requires Inv(s) && Adapting(s) && Admissible(s, e) && !Deadlocks(s, e)
    ensures Inv(Step(s, e))
    ensures if Adapting(Step(s, e)) then SameEnd(s, Step(s, e)) else Adapted(s, Step(s, e))
  {
    hide Inv, Step, Deadlocks, Advances, Adapting, Adapted, Admissible;
    StepKeeps(s, e);
    if OwnEvent(e) {
      StepAdvances(s, e);
      AdvancesToEnd(s, Step(s, e));
    } else {
      assert !Effective(s, e);
      CallsIgnored(s, e);
    }
    hide LegOf;
  }

  /** An adaptation that has been accepted completes within a number of effective steps that can be read off the
      state, whatever else happens, and with the result that was asked for. Only a robot that hangs does not
      get there. */
  lemma {:induction false} AdaptationCompletes(s: State, events: seq<Event>)
    requires Inv(s) && AllAdmissible(s, events) && !RunDeadlocks(s, events)
    requires Adapting(s) && EffectiveSteps(s, events) >= Outstanding(s)
    ensures Adapted(s, FirstAdapted(s, events)) && !Adapting(FirstAdapted(s, events))
    decreases |events|
  {
    hide Inv, Adapting, Outstanding, Step, Effective, Deadlocks, Admissible, LegOf;
    SomethingLeft(s);
    if events != [] {
      var s1 := Step(s, events[0]);
      StepShrinks(s, events[0]);
      LegStays(s, events[0]);
      if Adapting(s1) { AdaptationCompletes(s1, events[1..]); }
    }
  }

  lemma {:induction false} AdaptedKeeps(s: State, events: seq<Event>)
    requires Inv(s) && AllAdmissible(s, events) && !RunDeadlocks(s, events)
    ensures Inv(FirstAdapted(s, events))
    decreases |events|
  {
    hide Inv, Adapting, Step, Deadlocks, Admissible;
    if Adapting(s) && events != [] {
      StepKeeps(s, events[0]);
      AdaptedKeeps(Step(s, events[0]), events[1..]);
    }
  }

  /** From an accepted request on: the first state in which the robot is available again has exactly the capabilities
      that were asked for, and every waiting order has been costed under them. */
  lemma ReconfigurationTakesEffect(s: State, caps: set<string>, events: seq<Event>)
    requires Inv(s) && LegOf(s).Settled? && caps != s.caps
    requires var s1 := Step(s, ReconfigureEvent(caps));
             AllAdmissible(s1, events) && !RunDeadlocks(s1, events) && EffectiveSteps(s1, events) >= Outstanding(s1)
    ensures var s' := FirstAdapted(Step(s, ReconfigureEvent(caps)), events);
            && LegOf(s').Settled? && s'.available && s'.caps == caps && s'.position == s.position
            && forall i :: 0 <= i < |s'.orders| ==>
                 s'.orders[i].processableSteps == PrefixLength(caps, s'.orders[i].actions)
  {
    LegAvailable(s);
    NoFaultYet(s);
    ReconfigureLeg(s, caps);
    var s1 := Step(s, ReconfigureEvent(caps));
    assert s1 == ReconfigureCall(s, caps);
    hide Inv, LegOf, Step, ReconfigureCall, Outstanding;
    AdaptationCompletes(s1, events);
    AdaptedKeeps(s1, events);
    LegAvailable(FirstAdapted(s1, events));
    CostedOrders(FirstAdapted(s1, events));
  }

  lemma CostedOrders(s: State)
    requires Inv(s)
    ensures forall i :: 0 <= i < |s.orders| ==>
              s.orders[i].processableSteps == PrefixLength(s.caps, s.orders[i].actions)
  {
    assert OrdersOk(s.recipes, s.caps, s.orders) by { hide Exclusive, ModeOk, DishOk, LoadOk, TasksOk, OrdersOk; }
    hide Inv;
  }
}
