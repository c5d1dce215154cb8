/** Where a robot stands in a move: what its position does at every step, and what is never lost. */
module RobotLegs {
  import opened Basics
  import opened Recipes
  import opened Robot
  import opened RobotInvariant
  import opened RobotSteps
  import opened RobotRuns

  datatype Leg =
    | Settled
    | Heading(goal: nat)   // asked to move, and not there yet
    | Arrived              // at the new position, waiting for the commit
    | Committing           // the commit is queued
    | Refit            // reconfiguring, or about to

  function LegOf(s: State): Leg
  {
    match s.mode
    case AVAILABLE => Settled
    case RECONFIGURING => Refit
    case REARRANGING =>
      if !s.commitPending then Heading(Goal(s)) else if CommitPosition in s.tasks then Committing else Arrived
  }

  /** What a robot does by itself, or when it accepts or hands over dishes. */
  ghost predicate Advances(s: State, s': State)
  {
    && Inv(s') && s'.recipes == s.recipes && s'.conveyorSize == s.conveyorSize
    && match LegOf(s)
       case Settled => LegOf(s') == LegOf(s) && s'.position == s.position && s'.caps == s.caps
       case Heading(g) =>
         && s'.caps == s.caps
         && ((LegOf(s') == LegOf(s) && s'.position == s.position) || (LegOf(s') == Arrived && s'.position == g))
       case Arrived => LegOf(s') == LegOf(s) && s'.position == s.position && s'.caps == s.caps
       case Committing =>
         (LegOf(s') == LegOf(s) || LegOf(s') == Settled) && s'.position == s.position && s'.caps == s.caps
       case Refit =>
         && s'.position == s.position
         && ((LegOf(s') == LegOf(s) && s'.caps == s.caps && s'.newCaps == s.newCaps)
             || (LegOf(s') == Settled && s'.caps == s.newCaps))
  }

  // ------------------------------------------------------------------ what the handlers leave alone

  predicate SameAims(s: State, s': State)
  {
    && s'.mode == s.mode && s'.commitPending == s.commitPending && s'.tasks == s.tasks && s'.target == s.target
    && s'.position == s.position && s'.caps == s.caps && s'.newCaps == s.newCaps
    && s'.conveyorSize == s.conveyorSize && s'.recipes == s.recipes
  }

  lemma ArmAims(s: State, w: Wait)
    ensures SameAims(s, Arm(s, w))
  {
    var s' := Arm(s, w);
    if s.timer.Some? {
      assert s' == s.(fault := Aborted);
    } else {
      assert s' == s.(timer := Some(w));
    }
    assert s'.tasks == s.tasks && s'.recipes == s.recipes && s'.caps == s.caps && s'.newCaps == s.newCaps;
    assert s'.mode == s.mode && s'.commitPending == s.commitPending && s'.target == s.target;
    assert s'.position == s.position && s'.conveyorSize == s.conveyorSize;
  }

  lemma DetermineAims(s: State)
    ensures SameAims(s, DetermineNextAction(s))
  {
    hide Arm;
    ArmAims(s, Retooling);
    if s.inProcess != [] { ArmAims(s.(actionLeft := s.inProcess[0].duration), PassingTime); }
    var s' := DetermineNextAction(s);
    assert s'.tasks == s.tasks && s'.recipes == s.recipes && s'.caps == s.caps && s'.newCaps == s.newCaps;
  }

  lemma AdaptAims(s: State)
    ensures SameAims(s, HandleSwitchPosition(s)) && SameAims(s, HandleReconfiguration(s))
  {
    hide Arm;
    ArmAims(s.(rearranging := true), Moving);
    ArmAims(s.(reconfiguring := true), Reconfiguring);
  }

  lemma CookNextAims(s: State)
    ensures SameAims(s, CookNext(s))
  {
    hide DetermineNextAction, HandleSwitchPosition, HandleReconfiguration;
    AdaptAims(s);
    if s.orders != [] {
      var o := s.orders[0];
      DetermineAims(s.(
        preparing := true, orders := s.orders[1..], recipe := o.recipe, inProcess := o.actions,
        overallProcessed := o.processedSteps, overallProcessing := o.processingSteps,
            processable := o.processableSteps));
    }
  }

  lemma EnqueueAims(s: State, recipe: nat, steps: nat)
    requires recipe in s.recipes && steps <= |s.recipes[recipe]|
    ensures SameAims(s, Enqueue(s, recipe, steps))
  {
    hide Prefix, Cost, LastTool;
  }

  lemma ReceiveAims(s: State, recipe: nat, steps: nat)
    ensures SameAims(s, HandleReceiveTask(s, recipe, steps))
  {
    hide Enqueue, CookNext;
    if recipe in s.recipes && steps <= |s.recipes[recipe]| {
      EnqueueAims(s, recipe, steps);
      CookNextAims(Enqueue(s, recipe, steps));
    }
  }

  lemma PassTimeAims(s: State)
    ensures SameAims(s, PassTime(s))
  {
    hide Arm, DetermineNextAction;
    var left := (s.actionLeft - 1) % U64;
    var s1 := s.(overallTime := (s.overallTime - 1) % U32, actionLeft := left);
    ArmAims(s1, PassingTime);
    if s1.inProcess != [] {
      DetermineAims(s1.(overallProcessed := s1.overallProcessed + 1, processed := s1.processed + 1,
          inProcess := s1.inProcess[1..]));
    }
  }

  lemma RetoolAims(s: State)
    ensures SameAims(s, Retool(s))
  {
    hide DetermineNextAction;
    if s.inProcess != [] {
      DetermineAims(s.(tool := s.inProcess[0].tool, overallTime := (s.overallTime - RETOOLING_TIME) % U32));
    }
  }

  // ------------------------------------------------------------------ taking a task

  lemma PopRequest(s: State)
    requires Exclusive(s) && s.tasks != [] && !IsRequest(s.tasks[0])
    ensures Request(Control(s.tasks[1..])) == Request(Control(s.tasks))
    ensures Goal(Popped(s)) == Goal(s)
  {
    hide PhaseOf;
    assert s.tasks[0].ReceiveTask? ==> Control(s.tasks) == Control(s.tasks[1..]);
    assert !s.tasks[0].ReceiveTask? ==> Control(s.tasks) == [s.tasks[0]] + Control(s.tasks[1..]);
  }

  lemma GoalByAims(s: State, s': State)
    requires SameAims(s, s')
    ensures LegOf(s') == LegOf(s)
  {
    hide Control, Request;
  }

  lemma PopLeg(s: State)
    requires Exclusive(s) && s.tasks != [] && !IsRequest(s.tasks[0]) && !s.tasks[0].CommitPosition?
    ensures LegOf(Popped(s)) == LegOf(s)
  {
    PopRequest(s);
    hide Goal, Exclusive;
    SameCommit(s.tasks);
  }

  lemma SameCommit(tasks: seq<Task>)
    requires tasks != [] && !tasks[0].CommitPosition?
    ensures CommitPosition in tasks <==> CommitPosition in tasks[1..]
  {
    assert tasks == [tasks[0]] + tasks[1..];
  }

  lemma ExclusiveByInv(s: State)
    requires Inv(s)
    ensures Exclusive(s)
  {
  }

  lemma PlainTaskAdvances(s: State, s': State)
    requires Inv(s) && s.tasks != [] && !IsRequest(s.tasks[0]) && !s.tasks[0].CommitPosition?
    requires SameAims(Popped(s), s') && Inv(s')
    ensures Advances(s, s')
  {
    ExclusiveByInv(s);
    PopLeg(s);
    GoalByAims(Popped(s), s');
    assert s'.caps == s.caps && s'.newCaps == s.newCaps && s'.recipes == s.recipes;
    hide Inv, LegOf;
  }

  lemma SwitchTaskLeg(s: State)
    requires Inv(s) && s.tasks != [] && s.tasks[0].SwitchPosition?
    ensures LegOf(Popped(s).(target := s.tasks[0].target)) == LegOf(s)
  {
    hide PhaseOf, DishOk, LoadOk, OrdersOk, TasksOk, WellFormed;
    assert Control(s.tasks) == [s.tasks[0]] + Control(s.tasks[1..]);
    assert s.mode.REARRANGING?;
    assert Request(Control(s.tasks)) == Some(s.tasks[0]);
    assert Request(Control(s.tasks[1..])).None?;
    SameCommit(s.tasks);
  }

  lemma SwitchTaskAdvances(s: State, pick: Tool)
    requires Inv(s) && s.tasks != [] && s.tasks[0].SwitchPosition?
    ensures Advances(s, HandleTask(Popped(s), s.tasks[0], pick))
  {
    SwitchTaskKeeps(s);
    SwitchTaskLeg(s);
    var s1 := Popped(s).(target := s.tasks[0].target);
    AdaptAims(s1);
    var s' := HandleTask(Popped(s), s.tasks[0], pick);
    assert s1.caps == s.caps && s1.newCaps == s.newCaps && s1.recipes == s.recipes;
    hide Inv, LegOf, HandleSwitchPosition;
    assert SameAims(s1, s');
    GoalByAims(s1, s');
  }

  lemma StartTaskAdvances(s: State, pick: Tool)
    requires Inv(s) && s.tasks != [] && s.tasks[0].StartReconfiguration?
    ensures Advances(s, HandleTask(Popped(s), s.tasks[0], pick))
  {
    StartTaskKeeps(s);
    RefittingByRequest(s);
    var s1 := Popped(s);
    AdaptAims(s1);
    var s' := HandleTask(Popped(s), s.tasks[0], pick);
    assert s1.caps == s.caps && s1.newCaps == s.newCaps && s1.recipes == s.recipes;
    hide Inv, HandleReconfiguration, Goal;
    assert SameAims(s1, s');
  }

  lemma RefittingByRequest(s: State)
    requires Inv(s) && s.tasks != [] && (s.tasks[0].StartReconfiguration? || s.tasks[0] == Expired(Reconfiguring))
    ensures s.mode.RECONFIGURING?
  {
    hide DishOk, LoadOk, OrdersOk, TasksOk, WellFormed;
    assert Control(s.tasks)[0] == s.tasks[0];
  }

  lemma HeadingByTask(s: State)
    requires Inv(s) && s.tasks != [] && s.tasks[0] == Expired(Moving)
    ensures LegOf(s) == Heading(Goal(s)) && s.mode.REARRANGING? && CommitPosition !in s.tasks[1..]
  {
    hide DishOk, LoadOk, OrdersOk, TasksOk, WellFormed;
    assert Control(s.tasks) == [s.tasks[0]] + Control(s.tasks[1..]);
    ControlElements(s.tasks[1..]);
  }

  lemma MoveAdvances(s: State)
    requires Inv(s) && s.tasks != [] && s.tasks[0] == Expired(Moving)
    ensures Advances(s, MoveToNewPosition(Popped(s)))
    ensures LegOf(MoveToNewPosition(Popped(s))).Arrived?
  {
    MoveKeeps(s);
    HeadingByTask(s);
    hide Inv, Goal;
  }

  lemma CommitTask(s: State)
    requires Inv(s) && s.tasks != [] && s.tasks[0].CommitPosition?
    ensures LegOf(s).Committing?
  {
    hide DishOk, LoadOk, OrdersOk, TasksOk, WellFormed;
    assert Control(s.tasks)[0] == s.tasks[0];
  }

  lemma CommitTaskAdvances(s: State)
    requires Inv(s) && s.tasks != [] && s.tasks[0].CommitPosition?
    ensures Advances(s, HandleNewPositionCommit(Popped(s)))
    ensures LegOf(HandleNewPositionCommit(Popped(s))).Settled?
  {
    CommitTaskKeeps(s);
    CommitTask(s);
    var s1 := Popped(s).(rearranging := false, commitPending := false, mode := AVAILABLE, available := true);
    CookNextAims(s1);
    assert s1.caps == s.caps && s1.newCaps == s.newCaps && s1.recipes == s.recipes;
    hide Inv, CookNext;
  }

  lemma {:induction false} RecostAims(s: State, orders: seq<Order>)
    requires forall o :: o in orders ==> o.recipe in s.recipes && o.processedSteps <= |s.recipes[o.recipe]|
    ensures SameAims(s, Recost(s, orders))
    decreases |orders|
  {
    hide Enqueue;
    if orders != [] {
      EnqueueAims(s, orders[0].recipe, orders[0].processedSteps);
      RecostAims(Enqueue(s, orders[0].recipe, orders[0].processedSteps), orders[1..]);
    }
  }

  lemma ReconfigureTaskAdvances(s: State, pick: Tool)
    requires Inv(s) && s.tasks != [] && s.tasks[0] == Expired(Reconfiguring)
    requires s.preparing || s.orders == []
    ensures Advances(s, CompleteReconfiguration(Popped(s), pick))
    ensures LegOf(CompleteReconfiguration(Popped(s), pick)).Settled?
  {
    ReconfigureKeeps(s, pick);
    RefittingByRequest(s);
    Reconfigured(s, pick);
    hide Inv, CompleteReconfiguration, Advances, LegOf;
    var s' := CompleteReconfiguration(Popped(s), pick);
    AvailableSettled(s');
    RefitAdvances(s, s');
  }

  lemma AvailableSettled(s: State)
    ensures s.mode.AVAILABLE? ==> LegOf(s).Settled?
  {
    hide Goal;
  }

  lemma RefitAdvances(s: State, s': State)
    requires LegOf(s).Refit? && LegOf(s').Settled? && Inv(s')
    requires s'.recipes == s.recipes && s'.conveyorSize == s.conveyorSize && s'.position == s.position
    requires s'.caps == s.newCaps
    ensures Advances(s, s')
  {
    hide Inv, LegOf;
  }

  lemma Reconfigured(s: State, pick: Tool)
    requires Inv(s) && s.tasks != [] && (s.preparing || s.orders == [])
    ensures var s' := CompleteReconfiguration(Popped(s), pick);
            && s'.mode.AVAILABLE? && s'.position == s.position && s'.conveyorSize == s.conveyorSize
            && s'.recipes == s.recipes && s'.caps == s.newCaps
  {
    KnownByInv(s);
    SameKnown(s);
    hide Inv, CookNext, Recost, KnownOrders;
    var base := Popped(s).(caps := s.newCaps, newCaps := {}, tool := pick, lastTool := pick, overallTime := 0,
        orders := []);
    RecostAims(base, s.orders);
    CookNextAims(Recost(base, s.orders).(reconfiguring := false, mode := AVAILABLE, available := true));
  }

  lemma TaskAdvances(s: State, pick: Tool)
    requires Inv(s) && s.tasks != [] && !Deadlocks(s, RunTask(pick))
    ensures Advances(s, HandleTask(Popped(s), s.tasks[0], pick))
  {
    TaskKeeps(s, pick);
    hide Inv, Advances, SameAims, HandleReceiveTask, CookNext, HandleNewPositionCommit, CompleteReconfiguration,
         MoveToNewPosition, PassTime, Retool, HandleSwitchPosition, HandleReconfiguration;
    var s1 := Popped(s);
    match s.tasks[0]
    case ReceiveTask(recipe, steps) =>
      ReceiveAims(s1, recipe, steps);
      PlainTaskAdvances(s, HandleReceiveTask(s1, recipe, steps));
    case CookNextOrder =>
      CookNextAims(s1);
      PlainTaskAdvances(s, CookNext(s1));
    case SwitchPosition(_) => SwitchTaskAdvances(s, pick);
    case CommitPosition => CommitTaskAdvances(s);
    case StartReconfiguration => StartTaskAdvances(s, pick);
    case Expired(w) =>
      match w
      case Retooling =>
        RetoolAims(s1);
        PlainTaskAdvances(s, Retool(s1));
      case PassingTime =>
        PassTimeAims(s1);
        PlainTaskAdvances(s, PassTime(s1));
      case Moving => MoveAdvances(s);
      case Reconfiguring => ReconfigureTaskAdvances(s, pick);
  }

  // ------------------------------------------------------------------ calls and the timer

  lemma PostLeg(s: State, t: Task)
    requires Inv(s) && !IsRequest(t) && !t.CommitPosition?
    requires t.ReceiveTask? || |Control(s.tasks)| < 2
    ensures LegOf(Post(s, t)) == LegOf(s)
  {
    ControlAppend(s.tasks, t);
    hide Inv, Control;
    assert CommitPosition in s.tasks <==> CommitPosition in s.tasks + [t];
  }

  lemma DriverFree(s: State)
    requires Inv(s) && (s.pickup || s.timer.Some?)
    ensures |Control(s.tasks)| < 2
  {
    hide DishOk, LoadOk, OrdersOk, TasksOk, WellFormed, ModeOk, PhaseOf;
  }

  lemma QuietAdvances(s: State, s': State)
    requires Inv(s') && s'.recipes == s.recipes && s'.conveyorSize == s.conveyorSize
    requires LegOf(s') == LegOf(s) && s'.position == s.position && s'.caps == s.caps && s'.newCaps == s.newCaps
    ensures Advances(s, s')
  {
    hide Inv, LegOf;
  }

  lemma StillLeg(s: State, s': State)
    requires s'.mode == s.mode && s'.commitPending == s.commitPending && s'.tasks == s.tasks && s'.target == s.target
    ensures LegOf(s') == LegOf(s)
  {
    hide Control, Request;
  }

  predicate OwnEvent(e: Event) { e.ReceiveTaskEvent? || e.HandoverEvent? || e.TimerExpires? || e.RunTask? }

  /** Every step that is not a controller's call. */
  lemma StepAdvances(s: State, e: Event)
    requires Inv(s) && Admissible(s, e) && !Deadlocks(s, e) && OwnEvent(e)
    ensures Advances(s, Step(s, e))
  {
    NoFaultYet(s);
    StepKeeps(s, e);
    var s' := Step(s, e);
    match e
    case ReceiveTaskEvent(recipe, steps, addressed) =>
      PostLeg(s, ReceiveTask(recipe, steps));
      hide Inv, LegOf, PrefixLength, Advances;
      QuietAdvances(s, s');
    case HandoverEvent =>
      HandoverAdvances(s);
    case TimerExpires =>
      ExpiryAdvances(s);
    case RunTask(pick) =>
      if s.tasks == [] {
        hide Inv, LegOf, Advances;
        QuietAdvances(s, s');
      } else {
        hide Inv, LegOf, HandleTask, Advances, Deadlocks;
        TaskAdvances(s, pick);
      }
    case _ =>
  }

  lemma HandoverAdvances(s: State)
    requires Inv(s) && Inv(HandoverCall(s))
    ensures Advances(s, HandoverCall(s))
  {
    if s.pickup {
      DriverFree(s);
      var s1 := s.(pickup := false, finished := false, processed := 0, processable := 0, overallProcessed := 0,
                   overallProcessing := 0, recipe := 0);
      PostLeg(s, CookNextOrder);
      assert s1.tasks == s.tasks;
      StillLeg(Post(s, CookNextOrder), Post(s1, CookNextOrder));
      assert Post(s1, CookNextOrder) == HandoverCall(s);
      assert HandoverCall(s).caps == s.caps && HandoverCall(s).newCaps == s.newCaps;
      assert HandoverCall(s).recipes == s.recipes;
    }
    hide Inv, LegOf, Advances;
    QuietAdvances(s, HandoverCall(s));
  }

  lemma ExpiryAdvances(s: State)
    requires Inv(s) && Inv(Step(s, TimerExpires)) && s.fault.NoFault?
    ensures Advances(s, Step(s, TimerExpires))
  {
    if s.timer.Some? {
      DriverFree(s);
      var t := Expired(s.timer.value);
      PostLeg(s, t);
      hide Inv, LegOf, Advances;
      var s1 := s.(timer := None);
      assert s1.tasks == s.tasks && s1.caps == s.caps && s1.newCaps == s.newCaps && s1.recipes == s.recipes;
      StillLeg(Post(s, t), Post(s1, t));
      QuietAdvances(s, Post(s1, t));
    } else {
      hide Inv, LegOf, Advances;
      QuietAdvances(s, s);
    }
  }

  lemma LegAvailable(s: State)
    requires Inv(s)
    ensures LegOf(s).Settled? <==> s.mode.AVAILABLE?
    ensures LegOf(s).Settled? <==> s.available
    ensures LegOf(s).Arrived? || LegOf(s).Committing? ==> CommitAccepts(s)
    ensures LegOf(s).Arrived? ==> Admissible(s, CommitEvent)
    ensures LegOf(s).Heading? ==> LegOf(s).goal != s.position
  {
    hide DishOk, LoadOk, OrdersOk, TasksOk, WellFormed;
    ControlElements(s.tasks);
    hide Control;
  }

  /** A robot takes a dish, begun elsewhere or not, exactly when it has settled, is addressed where it is, and is
      capable of the very step that comes next; then it queues it behind everything else, and otherwise it does
      nothing. The reply says which. Only a task without an open step, which nobody asks for, makes it pop an empty
      queue. */
  lemma TaskTakenExactly(s: State, recipe: nat, steps: nat, addressed: nat)
    requires Inv(s)
    ensures var s', here := Step(s, ReceiveTaskEvent(recipe, steps, addressed)),
                recipe in s.recipes && LegOf(s).Settled? && addressed == s.position;
            var taken := here && steps < |s.recipes[recipe]| && s.recipes[recipe][steps].name in s.caps;
            && (ReceiveTaskAccepts(s, recipe, steps, addressed) <==> taken)
            && s' == if taken then s.(tasks := s.tasks + [ReceiveTask(recipe, steps)])
                     else if here && steps >= |s.recipes[recipe]| then s.(fault := EmptyPop) else s
  {
    LegAvailable(s);
    NoFaultYet(s);
    hide Inv, LegOf;
  }

  /** Which of the controller's calls a robot accepts: a move when it has settled and the target is another robot
      position on the belt, a reconfiguration when it has settled and the capabilities are new, a commit when it has
      moved. A call that is refused changes nothing, and one that is accepted puts the robot to exactly that. */
  lemma CallsTakenExactly(s: State, p: nat, caps: set<string>)
    requires Inv(s)
    ensures SwitchAccepts(s, p) <==> LegOf(s).Settled? && 0 < p < s.conveyorSize && p != s.position
    ensures ReconfigureAccepts(s, caps) <==> LegOf(s).Settled? && caps != s.caps
    ensures CommitAccepts(s) <==> LegOf(s).Arrived? || LegOf(s).Committing?
    ensures var s' := Step(s, SwitchEvent(p)); if SwitchAccepts(s, p) then LegOf(s') == Heading(p) else s' == s
    ensures var s' := Step(s, ReconfigureEvent(caps));
            if ReconfigureAccepts(s, caps) then LegOf(s').Refit? && s'.newCaps == caps else s' == s
    ensures var s' := Step(s, CommitEvent); if CommitAccepts(s) then LegOf(s').Committing? else s' == s
  {
    LegAvailable(s);
    NoFaultYet(s);
    if LegOf(s).Settled? && 0 < p < s.conveyorSize && p != s.position { SwitchLeg(s, p); }
    if ReconfigureAccepts(s, caps) { ReconfigureLeg(s, caps); }
    CommitsWhenMoved(s);
    hide Inv, Goal;
  }

  lemma CommitsWhenMoved(s: State)
    requires Inv(s)
    ensures CommitAccepts(s) <==> LegOf(s).Arrived? || LegOf(s).Committing?
    ensures CommitAccepts(s) ==> LegOf(CommitCall(s)).Committing?
  {
    hide DishOk, LoadOk, OrdersOk, TasksOk, WellFormed, Control, Goal;
  }

  /** A completed reconfiguration leaves the robot with the tool that was picked. */
  lemma RefitTool(s: State, pick: Tool)
    requires Inv(s) && s.tasks != [] && s.tasks[0] == Expired(Reconfiguring) && !Deadlocks(s, RunTask(pick))
    ensures Step(s, RunTask(pick)).tool == pick
  {
    NoFaultYet(s);
    hide Inv;
    CompletingTask(s, pick);
    hide Step, CompleteReconfiguration;
    CompletedTool(s, pick);
  }

  lemma CompletingTask(s: State, pick: Tool)
    requires s.fault.NoFault? && s.tasks != [] && s.tasks[0] == Expired(Reconfiguring)
    ensures Step(s, RunTask(pick)) == CompleteReconfiguration(Popped(s), pick)
  {
    hide CompleteReconfiguration, HandleReceiveTask, CookNext, HandleNewPositionCommit, MoveToNewPosition, PassTime,
         Retool, HandleSwitchPosition, HandleReconfiguration, ReceiveTaskCall, HandoverCall, SwitchCall, CommitCall,
         ReconfigureCall;
  }

  lemma CompletedTool(s: State, pick: Tool)
    requires Inv(s) && s.tasks != [] && (s.preparing || s.orders == [])
    ensures CompleteReconfiguration(Popped(s), pick).tool == pick
  {
    KnownByInv(s);
    SameKnown(s);
    hide Inv, CookNext, Recost, KnownOrders;
    var base := Popped(s).(caps := s.newCaps, newCaps := {}, tool := pick, lastTool := pick, overallTime := 0,
        orders := []);
    RecostTool(base, s.orders);
    CookNextTool(Recost(base, s.orders).(reconfiguring := false, mode := AVAILABLE, available := true));
  }

  lemma {:induction false} RecostTool(s: State, orders: seq<Order>)
    requires forall o :: o in orders ==> o.recipe in s.recipes && o.processedSteps <= |s.recipes[o.recipe]|
    ensures Recost(s, orders).tool == s.tool
    decreases |orders|
  {
    hide Prefix, Cost, LastTool;
    if orders != [] { RecostTool(Enqueue(s, orders[0].recipe, orders[0].processedSteps), orders[1..]); }
  }

  lemma CookNextTool(s: State)
    ensures CookNext(s).tool == s.tool
  {
    hide DetermineNextAction;
    ArmTool(s.(rearranging := true), Moving);
    ArmTool(s.(reconfiguring := true), Reconfiguring);
    if s.orders != [] {
      var o := s.orders[0];
      DetermineTool(s.(
        preparing := true, orders := s.orders[1..], recipe := o.recipe, inProcess := o.actions,
        overallProcessed := o.processedSteps, overallProcessing := o.processingSteps,
            processable := o.processableSteps));
    }
    hide Arm;
  }

  lemma ArmTool(s: State, w: Wait)
    ensures Arm(s, w).tool == s.tool
  {
    var s' := Arm(s, w);
    if s.timer.Some? { assert s' == s.(fault := Aborted); } else { assert s' == s.(timer := Some(w)); }
  }

  lemma DetermineTool(s: State)
    ensures DetermineNextAction(s).tool == s.tool
  {
    ArmTool(s, Retooling);
    if s.inProcess != [] { ArmTool(s.(actionLeft := s.inProcess[0].duration), PassingTime); }
    hide Arm;
  }

  /** A settled robot accepts a move to any other real position. */
  lemma SwitchLeg(s: State, p: nat)
    requires Inv(s) && LegOf(s).Settled? && Within(s, p) && p != s.position
    ensures SwitchAccepts(s, p) && Inv(SwitchCall(s, p)) && LegOf(SwitchCall(s, p)) == Heading(p)
    ensures SwitchCall(s, p).position == s.position && SwitchCall(s, p).caps == s.caps
    ensures SwitchCall(s, p).recipes == s.recipes && SwitchCall(s, p).conveyorSize == s.conveyorSize
  {
    SwitchKeeps(s, p);
    ControlAppend(s.tasks, SwitchPosition(p));
    hide DishOk, LoadOk, OrdersOk, TasksOk, WellFormed, PhaseOf, Control;
  }

  lemma CommitLeg(s: State)
    requires Inv(s) && LegOf(s).Arrived?
    ensures CommitAccepts(s) && Inv(CommitCall(s)) && LegOf(CommitCall(s)).Committing?
    ensures CommitCall(s).position == s.position && CommitCall(s).caps == s.caps
    ensures CommitCall(s).recipes == s.recipes && CommitCall(s).conveyorSize == s.conveyorSize
  {
    CommitKeeps(s);
    hide Inv, Goal;
  }

  lemma ReconfigureLeg(s: State, caps: set<string>)
    requires Inv(s) && ReconfigureAccepts(s, caps)
    ensures LegOf(s).Settled? && Inv(ReconfigureCall(s, caps)) && LegOf(ReconfigureCall(s, caps)).Refit?
    ensures ReconfigureCall(s, caps).position == s.position && ReconfigureCall(s, caps).caps == s.caps
    ensures ReconfigureCall(s, caps).newCaps == caps
    ensures ReconfigureCall(s, caps).recipes == s.recipes && ReconfigureCall(s, caps).conveyorSize == s.conveyorSize
  {
    ReconfigureCallKeeps(s, caps);
    hide Inv, Goal;
  }
}
