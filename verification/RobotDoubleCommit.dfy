/** Why a move may be committed only once: what a second commit that is accepted leads to, and when. */
module RobotDoubleCommit {
  import opened Basics
  import opened Recipes
  import opened Robot
  import opened RobotInvariant
  import opened RobotSteps
  import opened RobotRuns
  import opened RobotFifo
  import opened RobotLegs
  import opened RobotProgress

  lemma ArmsForAction(s: State)
    requires s.inProcess != [] && s.inProcess[0].name in s.caps
    ensures var s' := DetermineNextAction(s);
            && (s.timer.Some? ==> s'.fault == Aborted)
            && (s.timer.None? ==> s'.timer.Some? && s'.fault == s.fault)
  {
  }

  lemma StartsDish(s: State)
    requires s.mode.AVAILABLE? && s.orders != [] && s.orders[0].actions != [] && s.orders[0].actions[0].name in s.caps
    ensures s.timer.Some? ==> CookNext(s).fault == Aborted
    ensures s.timer.None? ==>
              var s' := CookNext(s);
              s'.timer.Some? && s'.fault == s.fault && s'.orders == s.orders[1..] && s'.tasks == s.tasks &&
                  s'.caps == s.caps
  {
    hide DetermineNextAction;
    var o := s.orders[0];
    var s1 := s.(preparing := true, orders := s.orders[1..], recipe := o.recipe, inProcess := o.actions,
                 overallProcessed := o.processedSteps, overallProcessing := o.processingSteps,
                     processable := o.processableSteps);
    ArmsForAction(s1);
    DetermineSame(s1);
    DetermineAims(s1);
  }

  // ------------------------------------------------------------------ handlers and the event loop

  lemma ArmIgnoresTasks(s: State, w: Wait, tasks: seq<Task>)
    ensures Arm(s.(tasks := tasks), w) == Arm(s, w).(tasks := tasks)
  {
    if s.timer.Some? {
      FaultIgnoresTasks(s, tasks);
    } else {
      TimerIgnoresTasks(s, w, tasks);
    }
  }

  lemma FaultIgnoresTasks(s: State, tasks: seq<Task>)
    ensures s.(tasks := tasks).(fault := Aborted) == s.(fault := Aborted).(tasks := tasks)
  {
  }

  lemma TimerIgnoresTasks(s: State, w: Wait, tasks: seq<Task>)
    ensures s.(tasks := tasks).(timer := Some(w)) == s.(timer := Some(w)).(tasks := tasks)
  {
  }

  lemma PickupIgnoresTasks(s: State, finished: bool, tasks: seq<Task>)
    ensures s.(tasks := tasks).(finished := finished, pickup := true) ==
            s.(finished := finished, pickup := true).(tasks := tasks)
  {
  }

  lemma DurationIgnoresTasks(s: State, left: nat, tasks: seq<Task>)
    ensures s.(tasks := tasks).(actionLeft := left) == s.(actionLeft := left).(tasks := tasks)
  {
  }

  lemma DetermineIgnoresTasks(s: State, tasks: seq<Task>)
    ensures DetermineNextAction(s.(tasks := tasks)) == DetermineNextAction(s).(tasks := tasks)
  {
    hide Arm;
    if s.inProcess == [] {
      PickupIgnoresTasks(s, true, tasks);
    } else if s.inProcess[0].name !in s.caps {
      PickupIgnoresTasks(s, false, tasks);
    } else if s.inProcess[0].tool != s.tool {
      ArmIgnoresTasks(s, Retooling, tasks);
    } else {
      var left := s.inProcess[0].duration;
      DurationIgnoresTasks(s, left, tasks);
      ArmIgnoresTasks(s.(actionLeft := left), PassingTime, tasks);
    }
  }

  lemma AdaptIgnoresTasks(s: State, tasks: seq<Task>)
    ensures HandleSwitchPosition(s.(tasks := tasks)) == HandleSwitchPosition(s).(tasks := tasks)
    ensures HandleReconfiguration(s.(tasks := tasks)) == HandleReconfiguration(s).(tasks := tasks)
  {
    ArmIgnoresTasks(s.(rearranging := true), Moving, tasks);
    ArmIgnoresTasks(s.(reconfiguring := true), Reconfiguring, tasks);
    hide Arm;
  }

  /** The state in which a robot looks at its oldest order. */
  function Taken(s: State): State
    requires s.orders != []
  {
    var o := s.orders[0];
    s.(preparing := true, orders := s.orders[1..], recipe := o.recipe, inProcess := o.actions,
       overallProcessed := o.processedSteps, overallProcessing := o.processingSteps, processable := o.processableSteps)
  }

  lemma TakenIgnoresTasks(s: State, tasks: seq<Task>)
    requires s.orders != []
    ensures Taken(s.(tasks := tasks)) == Taken(s).(tasks := tasks)
  {
  }

  lemma RestIgnoresTasks(s: State, tasks: seq<Task>)
    ensures s.(tasks := tasks).(preparing := false) == s.(preparing := false).(tasks := tasks)
  {
  }

  lemma CookNextIs(s: State)
    ensures CookNext(s) ==
              if s.mode.REARRANGING? then HandleSwitchPosition(s)
              else if s.mode.RECONFIGURING? then HandleReconfiguration(s)
              else if s.orders == [] then s.(preparing := false)
              else DetermineNextAction(Taken(s))
  {
    hide DetermineNextAction, HandleSwitchPosition, HandleReconfiguration;
  }

  lemma CookNextIgnoresTasks(s: State, tasks: seq<Task>)
    ensures CookNext(s.(tasks := tasks)) == CookNext(s).(tasks := tasks)
  {
    CookNextIs(s);
    CookNextIs(s.(tasks := tasks));
    hide CookNext, DetermineNextAction, HandleSwitchPosition, HandleReconfiguration, Taken;
    AdaptIgnoresTasks(s, tasks);
    RestIgnoresTasks(s, tasks);
    if s.orders != [] {
      TakenIgnoresTasks(s, tasks);
      DetermineIgnoresTasks(Taken(s), tasks);
    }
  }

  /** The tasks of a robot whose commit is queued: accepted orders, and the commit. */
  predicate OrdersOrCommit(tasks: seq<Task>)
  {
    forall i :: 0 <= i < |tasks| ==> tasks[i].ReceiveTask? || tasks[i].CommitPosition?
  }

  lemma TaskIgnoresTasks(s: State, t: Task, pick: Tool, tasks: seq<Task>)
    requires t.ReceiveTask? || t.CommitPosition?
    ensures HandleTask(s.(tasks := tasks), t, pick) == HandleTask(s, t, pick).(tasks := tasks)
  {
    hide CookNext, Enqueue;
    if t.CommitPosition? {
      var s1 := s.(rearranging := false, commitPending := false, mode := AVAILABLE, available := true);
      CookNextIgnoresTasks(s1, tasks);
      assert s.(tasks := tasks).(rearranging := false, commitPending := false, mode := AVAILABLE, available := true) ==
          s1.(tasks := tasks);
    } else {
      ReceiveIgnoresTasks(s, t.recipe, t.steps, tasks);
    }
  }

  lemma ReceiveIgnoresTasks(s: State, recipe: nat, steps: nat, tasks: seq<Task>)
    ensures HandleReceiveTask(s.(tasks := tasks), recipe, steps) == HandleReceiveTask(s, recipe, steps).(tasks := tasks)
  {
    if recipe in s.recipes && steps <= |s.recipes[recipe]| {
      EnqueueIgnoresTasks(s, recipe, steps, tasks);
      hide CookNext, Enqueue;
      CookNextIgnoresTasks(Enqueue(s, recipe, steps), tasks);
    }
  }

  lemma EnqueueIgnoresTasks(s: State, recipe: nat, steps: nat, tasks: seq<Task>)
    requires recipe in s.recipes && steps <= |s.recipes[recipe]|
    ensures Enqueue(s.(tasks := tasks), recipe, steps) == Enqueue(s, recipe, steps).(tasks := tasks)
  {
    hide Cost, LastTool, Prefix;
  }

  /** The robot runs its oldest `n` tasks, and nothing else happens. */
  function Drain(s: State, n: nat, pick: Tool): State
    decreases n
  {
    if n == 0 then s else Drain(Step(s, RunTask(pick)), n - 1, pick)
  }

  // ------------------------------------------------------------------ the second commit

  lemma TaskKeepsTasks(s: State, t: Task, pick: Tool)
    requires t.ReceiveTask? || t.CommitPosition?
    ensures HandleTask(s, t, pick).tasks == s.tasks
  {
    hide CookNext, Enqueue;
    if t.CommitPosition? {
      CookNextAims(s.(rearranging := false, commitPending := false, mode := AVAILABLE, available := true));
    } else {
      ReceiveAims(s, t.recipe, t.steps);
    }
  }

  lemma TaskKeepsProcessed(s: State, t: Task, pick: Tool)
    requires t.ReceiveTask? || t.CommitPosition?
    ensures HandleTask(s, t, pick).processed == s.processed
  {
    hide CookNext, Enqueue;
    if t.CommitPosition? {
      CookNextProcessed(s.(rearranging := false, commitPending := false, mode := AVAILABLE, available := true));
    } else if t.recipe in s.recipes && t.steps <= |s.recipes[t.recipe]| {
      assert Enqueue(s, t.recipe, t.steps).processed == s.processed by { EnqueueProcessed(s, t.recipe, t.steps); }
      CookNextProcessed(Enqueue(s, t.recipe, t.steps));
    }
  }

  lemma EnqueueProcessed(s: State, recipe: nat, steps: nat)
    requires recipe in s.recipes && steps <= |s.recipes[recipe]|
    ensures Enqueue(s, recipe, steps).processed == s.processed
  {
    hide Cost, LastTool, Prefix;
  }

  lemma CookNextProcessed(s: State)
    ensures CookNext(s).processed == s.processed
  {
    hide DetermineNextAction, HandleSwitchPosition, HandleReconfiguration;
    SwitchPositionSame(s);
    ReconfigurationSame(s);
    if s.orders != [] { DetermineSame(Taken(s)); }
  }

  /** A robot that is about to be committed, or has been. */
  ghost predicate Committed(s: State)
  {
    Inv(s) && OrdersOrCommit(s.tasks) && (LegOf(s).Committing? || LegOf(s).Settled?) && s.processed == 0
  }

  lemma DrainStep(s: State, pick: Tool)
    requires Committed(s) && s.tasks != []
    ensures var s' := Step(s, RunTask(pick));
            Committed(s') && s'.tasks == s.tasks[1..] && Backlog(s') == Backlog(s) && s'.caps == s.caps
  {
    CommittedInv(s);
    NoFaultYet(s);
    StepRuns(s, pick);
    assert s.tasks[0].ReceiveTask? || s.tasks[0].CommitPosition?;
    TaskKeepsTasks(Popped(s), s.tasks[0], pick);
    TaskKeepsProcessed(Popped(s), s.tasks[0], pick);
    NothingMoves(s, pick);
    DrainLeg(s, pick);
    hide Inv, LegOf, HandleTask, Step, Backlog;
    StepBacklog(s, RunTask(pick));
    assert forall b: seq<Ticket> :: [] + b == b && b + [] == b;
  }

  lemma DrainLeg(s: State, pick: Tool)
    requires Committed(s) && s.tasks != []
    ensures var s' := Step(s, RunTask(pick));
            Inv(s') && (LegOf(s').Committing? || LegOf(s').Settled?) && s'.caps == s.caps
  {
    assert s.tasks[0].ReceiveTask? || s.tasks[0].CommitPosition?;
    assert !Deadlocks(s, RunTask(pick));
    StepAdvances(s, RunTask(pick));
    hide Inv, LegOf, Step, Deadlocks;
  }

  lemma NothingMoves(s: State, pick: Tool)
    ensures HandedOver(s, RunTask(pick)) == [] && Accepted(s, RunTask(pick)) == []
  {
  }

  lemma StepRuns(s: State, pick: Tool)
    requires s.fault.NoFault? && s.tasks != []
    ensures Step(s, RunTask(pick)) == HandleTask(Popped(s), s.tasks[0], pick)
  {
    hide HandleTask;
  }

  lemma CommittedInv(s: State)
    requires Committed(s)
    ensures Inv(s)
  {
  }

  lemma ExtraStep(s: State, pick: Tool)
    requires Committed(s) && s.tasks != []
    ensures Step(s.(tasks := s.tasks + [CommitPosition]), RunTask(pick))
              == Step(s, RunTask(pick)).(tasks := s.tasks[1..] + [CommitPosition])
  {
    CommittedInv(s);
    NoFaultYet(s);
    assert s.tasks[0].ReceiveTask? || s.tasks[0].CommitPosition?;
    hide Inv, Committed, HandleTask, Step;
    var extra, rest := s.(tasks := s.tasks + [CommitPosition]), s.tasks[1..] + [CommitPosition];
    assert extra.tasks[1..] == rest && extra.tasks[0] == s.tasks[0];
    StepRuns(s, pick);
    StepRuns(extra, pick);
    TaskIgnoresTasks(Popped(s), s.tasks[0], pick, rest);
    assert Popped(extra) == Popped(s).(tasks := rest);
  }

  /** Until its turn comes, the second commit changes nothing. */
  lemma {:induction false} DrainsAlongside(s: State, n: nat, pick: Tool)
    requires Committed(s) && n <= |s.tasks|
    ensures var f := Drain(s, n, pick);
            && Committed(f) && f.tasks == s.tasks[n..] && Backlog(f) == Backlog(s) && f.caps == s.caps
            && Drain(s.(tasks := s.tasks + [CommitPosition]), n, pick) == f.(tasks := s.tasks[n..] + [CommitPosition])
    decreases n
  {
    hide Committed, Step, Backlog;
    if n > 0 {
      DrainStep(s, pick);
      ExtraStep(s, pick);
      DrainsAlongside(Step(s, RunTask(pick)), n - 1, pick);
      assert s.tasks[1..][n - 1..] == s.tasks[n..];
    }
  }

  lemma {:induction false} DrainSplit(s: State, n: nat, pick: Tool)
    ensures Drain(s, n + 1, pick) == Step(Drain(s, n, pick), RunTask(pick))
    decreases n
  {
    hide Step;
    if n > 0 { DrainSplit(Step(s, RunTask(pick)), n - 1, pick); }
  }

  /** A robot that is available and has nothing queued: what its second commit does. */
  lemma CommitAgain(f: State, pick: Tool)
    requires Committed(f) && f.tasks == []
    ensures Step(f.(tasks := [CommitPosition]), RunTask(pick)) == CookNext(f)
  {
    CommittedInv(f);
    NoFaultYet(f);
    SettledFacts(f);
    hide Inv, Committed, CookNext;
    assert [CommitPosition][1..] == [];
    assert f.(tasks := [CommitPosition]).(tasks := []) == f;
    StepRuns(f.(tasks := [CommitPosition]), pick);
    assert HandleNewPositionCommit(f) ==
        CookNext(f.(rearranging := false, commitPending := false, mode := AVAILABLE, available := true));
    SameState(f);
  }

  lemma SameState(f: State)
    requires f.mode.AVAILABLE? && !f.rearranging && !f.commitPending && f.available
    ensures f.(rearranging := false, commitPending := false, mode := AVAILABLE, available := true) == f
  {
  }

  lemma SettledFacts(f: State)
    requires Committed(f) && f.tasks == []
    ensures f.mode.AVAILABLE? && !f.rearranging && !f.commitPending && f.available
  {
    hide DishOk, LoadOk, OrdersOk, TasksOk, WellFormed;
  }

  lemma IdleExactly(f: State)
    requires Committed(f) && f.tasks == []
    ensures Backlog(f) == [] <==> PhaseOf(f).Idle?
    ensures !PhaseOf(f).Idle? ==> (PhaseOf(f).Cooking? && f.timer.Some?) || PhaseOf(f).AwaitingPickup?
    ensures !PhaseOf(f).Idle? ==> DishInProcess(f) && f.recipe != 0
    ensures f.mode.AVAILABLE? && (f.preparing <==> !PhaseOf(f).Idle?)
  {
    hide PrefixLength, LoadOk, OrdersOk, TasksOk;
    assert Control(f.tasks) == [];
    if PhaseOf(f).Idle? {
      assert f.recipe == 0 && f.orders == [];
    } else {
      assert DishInProcess(f);
    }
  }

  lemma NextDishLoses(f: State)
    requires f.mode.AVAILABLE? && f.orders != [] && f.tasks == [] && DishTicket(f) != []
    ensures Backlog(CookNext(f)) != Backlog(f)
  {
    var o := f.orders[0];
    var s1 := f.(preparing := true, orders := f.orders[1..], recipe := o.recipe, inProcess := o.actions,
                 overallProcessed := o.processedSteps, overallProcessing := o.processingSteps,
                 processable := o.processableSteps);
    DetermineBacklog(s1);
    assert |DishTicket(s1)| <= 1 == |DishTicket(f)|;
    OrderTicketsSize(f.orders);
    OrderTicketsSize(f.orders[1..]);
    hide DetermineNextAction, DishTicket;
  }

  lemma {:induction false} OrderTicketsSize(orders: seq<Order>)
    ensures |OrderTickets(orders)| == |orders|
  {
    if orders != [] { OrderTicketsSize(orders[1..]); }
  }

  lemma CommitAgainHarms(f: State)
    requires Committed(f) && f.tasks == []
    ensures Backlog(f) == [] ==> CookNext(f) == f
    ensures Backlog(f) != [] ==> !(Inv(CookNext(f)) && Backlog(CookNext(f)) == Backlog(f))
  {
    IdleExactly(f);
    if Backlog(f) != [] {
      if f.orders == [] {
        PreparingLost(f);
      } else {
        NextDishLoses(f);
      }
    } else {
      OrderTicketsSize(f.orders);
      assert f.orders == [];
      hide Backlog, PhaseOf, Inv;
    }
    hide Inv, PhaseOf;
  }

  /** A dish goes on being cooked while the robot takes itself for idle. */
  lemma PreparingLost(f: State)
    requires f.mode.AVAILABLE? && f.orders == [] && !PhaseOf(f).Idle?
    ensures CookNext(f) == f.(preparing := false) && !Inv(CookNext(f))
  {
    assert CookNext(f) == f.(preparing := false);
    assert PhaseOf(f.(preparing := false)) == PhaseOf(f) by { hide Control; }
    hide PhaseOf, Exclusive, DishOk, LoadOk, OrdersOk, TasksOk, WellFormed, CookNext;
  }

  lemma CommittedNow(s: State)
    requires Inv(s) && CommitAccepts(s) && CommitPosition in s.tasks
    ensures Committed(s)
  {
    ControlElements(s.tasks);
    hide DishParts, PrefixLength, LoadOk, OrdersOk, TasksOk, WellFormed;
    var c := Control(s.tasks);
    assert Driver(c) == Some(CommitPosition) by { assert CommitPosition in c; }
    assert PhaseOf(s).CommitQueued?;
    assert |c| == 1;
    forall i | 0 <= i < |s.tasks| ensures s.tasks[i].ReceiveTask? || s.tasks[i].CommitPosition? {
      if !s.tasks[i].ReceiveTask? { assert s.tasks[i] in c; }
    }
  }

  /** For every robot whose commit is queued: a second commit is accepted, and it is harmless if and only if no
      dish is at the robot. Otherwise a dish is lost, or the robot takes itself for idle while it cooks. */
  lemma SecondCommitHarmlessExactly(s: State, pick: Tool)
    requires Inv(s) && CommitAccepts(s) && CommitPosition in s.tasks
    ensures var s' := Drain(Step(s, CommitEvent), |s.tasks| + 1, pick);
            && (Inv(s') && Backlog(s') == Backlog(s) <==> Backlog(s) == [])
            && (Backlog(s) == [] ==> s' == Drain(s, |s.tasks|, pick))
  {
    NoFaultYet(s);
    CommittedNow(s);
    var n := |s.tasks|;
    var f := Drain(s, n, pick);
    hide Inv, Committed, Step, Backlog, Drain, CookNext;
    assert Step(s, CommitEvent) == s.(tasks := s.tasks + [CommitPosition]) by { SecondAccepted(s); }
    DrainsAlongside(s, n, pick);
    assert s.tasks[n..] == [] && [] + [CommitPosition] == [CommitPosition];
    DrainSplit(Step(s, CommitEvent), n, pick);
    CommitAgain(f, pick);
    CommitAgainHarms(f);
  }

  lemma SecondAccepted(s: State)
    requires s.fault.NoFault? && CommitAccepts(s)
    ensures Step(s, CommitEvent) == s.(tasks := s.tasks + [CommitPosition])
  {
  }

  // ------------------------------------------------------------------ when it stops the robot

  lemma StartedJustNow(f: State)
    requires Committed(f) && f.tasks == [] && Capable(f) && Backlog(f) != []
    ensures f.timer.Some? && |Backlog(f)| == 1 + |f.orders|
  {
    IdleExactly(f);
    OrderTicketsSize(f.orders);
    assert DishTicket(f) == [Ticket(f.recipe, f.overallProcessed)];
    if PhaseOf(f).AwaitingPickup? { HandoverGains(f, HandoverEvent); }
    hide PhaseOf, Inv, DishInProcess, OrderTickets, Capable;
  }

  lemma NextIsCapable(f: State)
    requires Inv(f) && Capable(f) && f.orders != []
    ensures f.orders[0].actions != [] && f.orders[0].actions[0].name in f.caps
  {
    var o := f.orders[0];
    assert OrderOk(f.recipes, f.caps, o);
    assert Ticket(o.recipe, o.processedSteps) == OrderTickets(f.orders)[0];
    assert OrderTickets(f.orders)[0] in Backlog(f) by { hide OrderTickets; }
    hide Inv, PrefixLength;
  }

  lemma SameCapable(s: State, f: State)
    requires Capable(s) && Backlog(f) == Backlog(s) && f.caps == s.caps && f.recipes == s.recipes
    ensures Capable(f)
  {
    hide Backlog;
  }

  lemma {:induction false} DrainKeepsRecipes(s: State, n: nat, pick: Tool)
    requires Committed(s) && n <= |s.tasks|
    ensures Drain(s, n, pick).recipes == s.recipes
    decreases n
  {
    hide Committed, Step, Backlog;
    if n > 0 {
      DrainStep(s, pick);
      StepRecipes(s, RunTask(pick)) by { assert Inv(s) by { CommittedInv(s); } }
      DrainKeepsRecipes(Step(s, RunTask(pick)), n - 1, pick);
    }
  }

  /** While the robot is capable of the next step of every dish that waits: a second commit stops it if and only if
      at least two dishes wait. With a single one, the next order that it accepts does. */
  lemma SecondCommitAbortsExactly(s: State, pick: Tool)
    requires Inv(s) && CommitAccepts(s) && CommitPosition in s.tasks && Capable(s)
    ensures var s' := Drain(Step(s, CommitEvent), |s.tasks| + 1, pick);
            && (s'.fault == Aborted <==> |Backlog(s)| >= 2)
            && (s'.fault == NoFault <==> |Backlog(s)| < 2)
            && (|Backlog(s)| == 1 ==> forall recipe, steps :: ReceiveTaskAccepts(s', recipe, steps, s'.position) ==>
                  Drain(Step(s', ReceiveTaskEvent(recipe, steps, s'.position)), 1, pick).fault == Aborted)
  {
    SecondCommitDrains(s, pick);
    hide Inv, Committed, Step, Backlog, Drain, CookNext, Capable;
    CommitAgainFaults(Drain(s, |s.tasks|, pick), pick);
  }

  lemma SecondCommitDrains(s: State, pick: Tool)
    requires Inv(s) && CommitAccepts(s) && CommitPosition in s.tasks && Capable(s)
    ensures var f := Drain(s, |s.tasks|, pick);
            && Committed(f) && f.tasks == [] && Capable(f) && Backlog(f) == Backlog(s)
            && Drain(Step(s, CommitEvent), |s.tasks| + 1, pick) == CookNext(f)
  {
    CommittedNow(s);
    NoFaultYet(s);
    var n := |s.tasks|;
    var f := Drain(s, n, pick);
    hide Inv, Committed, Step, Backlog, Drain, CookNext, Capable;
    SecondAccepted(s);
    DrainsAlongside(s, n, pick);
    DrainKeepsRecipes(s, n, pick);
    assert s.tasks[n..] == [] && [] + [CommitPosition] == [CommitPosition];
    DrainSplit(Step(s, CommitEvent), n, pick);
    CommitAgain(f, pick);
    SameCapable(s, f);
  }

  lemma CommitAgainFaults(f: State, pick: Tool)
    requires Committed(f) && f.tasks == [] && Capable(f)
    ensures var s' := CookNext(f);
            && (s'.fault == Aborted <==> |Backlog(f)| >= 2)
            && (s'.fault == NoFault <==> |Backlog(f)| < 2)
            && (|Backlog(f)| == 1 ==> forall recipe, steps :: ReceiveTaskAccepts(s', recipe, steps, s'.position) ==>
                  Drain(Step(s', ReceiveTaskEvent(recipe, steps, s'.position)), 1, pick).fault == Aborted)
  {
    CommittedInv(f);
    NoFaultYet(f);
    IdleExactly(f);
    CommitAgainHarms(f);
    hide Inv, Backlog, Capable, CookNext, Drain, Step, Committed;
    if Backlog(f) != [] {
      StartedJustNow(f);
      if f.orders != [] {
        NextIsCapable(f);
        StartsDish(f);
      } else {
        PreparingLost(f);
        forall recipe, steps | ReceiveTaskAccepts(CookNext(f), recipe, steps, CookNext(f).position)
          ensures Drain(Step(CookNext(f), ReceiveTaskEvent(recipe, steps, CookNext(f).position)), 1, pick).fault ==
                  Aborted {
          NextOrderAborts(CookNext(f), recipe, steps, pick);
        }
      }
    }
  }

  lemma NextOrderAborts(s: State, recipe: nat, steps: nat, pick: Tool)
    requires s.fault.NoFault? && ReceiveTaskAccepts(s, recipe, steps, s.position) && !s.preparing && s.timer.Some?
    requires s.orders == [] && s.tasks == []
    ensures Drain(Step(s, ReceiveTaskEvent(recipe, steps, s.position)), 1, pick).fault == Aborted
  {
    var s1 := s.(tasks := [Task.ReceiveTask(recipe, steps)]);
    assert [] + [Task.ReceiveTask(recipe, steps)] == [Task.ReceiveTask(recipe, steps)];
    assert Step(s, ReceiveTaskEvent(recipe, steps, s.position)) == s1;
    var s2 := Enqueue(s, recipe, steps);
    EnqueuedFirst(s, recipe, steps);
    StartsDish(s2);
    assert s1.(tasks := s1.tasks[1..]) == s;
    hide Enqueue, CookNext, ReceiveTaskAccepts;
    assert Step(s1, RunTask(pick)) == CookNext(s2);
    assert Drain(Step(s1, RunTask(pick)), 0, pick) == CookNext(s2);
  }

  lemma EnqueuedFirst(s: State, recipe: nat, steps: nat)
    requires recipe in s.recipes && steps < |s.recipes[recipe]| && s.recipes[recipe][steps].name in s.caps
    requires s.orders == []
    ensures var s' := Enqueue(s, recipe, steps);
            && s'.orders != [] && s'.orders[0].actions != [] && s'.orders[0].actions[0].name in s'.caps
            && s'.mode == s.mode && s'.timer == s.timer && s'.preparing == s.preparing
  {
    hide Cost, LastTool, Prefix;
  }

  // ------------------------------------------------------------------ a run that gets there

  /** Two orders arrive before a move, which is carried out and committed. */
  function TwoOrdersThenMove(recipe: nat, at: nat, goal: nat, pick: Tool): seq<Event>
  {
    [ReceiveTaskEvent(recipe, 0, at), ReceiveTaskEvent(recipe, 0, at), SwitchEvent(goal),
     RunTask(pick), RunTask(pick), RunTask(pick), TimerExpires, RunTask(pick), CommitEvent]
  }

  /** The part of a state that decides what the robot does next on this run. */
  predicate Stage(s: State, r: nat, tasks: seq<Task>, mode: Mode, moving: bool, timer: Option<Wait>, arrived: bool,
                  target: nat)
  {
    && s.fault.NoFault? && s.tasks == tasks && s.mode == mode && s.rearranging == moving && s.timer == timer
    && s.commitPending == arrived && s.target == target
    && !s.preparing && !s.pickup && !s.reconfiguring
    && r in s.recipes && s.recipes[r] != [] && s.recipes[r][0].name in s.caps
  }

  lemma Accepts(s: State, r: nat, tasks: seq<Task>)
    requires Stage(s, r, tasks, AVAILABLE, false, None, false, 0)
    ensures var e := ReceiveTaskEvent(r, 0, s.position);
            && Admissible(s, e) && Accepted(s, e) == [Ticket(r, 0)] && Step(s, e).position == s.position
            && Stage(Step(s, e), r, tasks + [Task.ReceiveTask(r, 0)], AVAILABLE, false, None, false, 0)
            && Step(s, e).conveyorSize == s.conveyorSize && Step(s, e).caps == s.caps
  {
  }

  lemma Departs(s: State, r: nat, tasks: seq<Task>, goal: nat)
    requires Stage(s, r, tasks, AVAILABLE, false, None, false, 0) && Within(s, goal) && goal != s.position
    ensures Stage(Step(s, SwitchEvent(goal)), r, tasks + [SwitchPosition(goal)], REARRANGING, false, None, false, 0)
    ensures Step(s, SwitchEvent(goal)).caps == s.caps
  {
  }

  lemma QueuesOrder(s: State, r: nat, rest: seq<Task>, moving: bool, pick: Tool)
    requires Stage(s, r, [Task.ReceiveTask(r, 0)] + rest, REARRANGING, moving, if moving then Some(Moving)
             else None, false, 0)
    ensures Stage(Step(s, RunTask(pick)), r, rest, REARRANGING, true, Some(Moving), false, 0)
    ensures Step(s, RunTask(pick)).caps == s.caps
  {
    var s1 := Popped(s);
    assert s1.tasks == rest;
    StepRuns(s, pick);
    EnqueueFields(s1, r);
    hide Enqueue, Step;
  }

  lemma EnqueueFields(s: State, recipe: nat)
    requires recipe in s.recipes
    ensures var s' := Enqueue(s, recipe, 0);
            && s'.fault == s.fault && s'.tasks == s.tasks && s'.mode == s.mode && s'.rearranging == s.rearranging
            && s'.timer == s.timer && s'.commitPending == s.commitPending && s'.target == s.target &&
               s'.preparing == s.preparing
            && s'.pickup == s.pickup && s'.reconfiguring == s.reconfiguring && s'.recipes == s.recipes &&
               s'.caps == s.caps
  {
    hide Cost, LastTool, Prefix;
  }

  lemma TakesTarget(s: State, r: nat, goal: nat, pick: Tool)
    requires Stage(s, r, [SwitchPosition(goal)], REARRANGING, true, Some(Moving), false, 0)
    ensures Stage(Step(s, RunTask(pick)), r, [], REARRANGING, true, Some(Moving), false, goal)
    ensures Step(s, RunTask(pick)).caps == s.caps
  {
    StepRuns(s, pick);
    hide Step;
  }

  lemma Arrives(s: State, r: nat, goal: nat, pick: Tool)
    requires Stage(s, r, [], REARRANGING, true, Some(Moving), false, goal)
    ensures var s1 := Step(s, TimerExpires);
            && s1.caps == s.caps && Step(s1, RunTask(pick)).caps == s.caps
            && Stage(s1, r, [Expired(Moving)], REARRANGING, true, None, false, goal)
            && Stage(Step(s1, RunTask(pick)), r, [], REARRANGING, true, None, true, 0)
  {
    var s1 := s.(timer := None, tasks := [Expired(Moving)]);
    assert [] + [Expired(Moving)] == [Expired(Moving)];
    assert Step(s, TimerExpires) == s1;
    StepRuns(s1, pick);
    hide Step;
  }

  lemma CommitQueues(s: State, r: nat)
    requires Stage(s, r, [], REARRANGING, true, None, true, 0)
    ensures Admissible(s, CommitEvent) && Step(s, CommitEvent).caps == s.caps
    ensures Stage(Step(s, CommitEvent), r, [CommitPosition], REARRANGING, true, None, true, 0)
  {
  }

  /** What every step of the run keeps. */
  lemma RunStep(s: State, e: Event)
    requires Inv(s) && Capable(s) && Admissible(s, e) && !Deadlocks(s, e) && !e.HandoverEvent?
    requires Step(s, e).caps == s.caps
    ensures Inv(Step(s, e)) && Capable(Step(s, e)) && Backlog(Step(s, e)) == Backlog(s) + Accepted(s, e)
  {
    NoFaultYet(s);
    StepKeeps(s, e);
    CapableStep(s, e);
    StepBacklog(s, e);
    hide Inv, Capable, Step, Backlog, Deadlocks, Admissible, Accepted;
    assert HandedOver(s, e) == [];
    assert [] + Backlog(Step(s, e)) == Backlog(Step(s, e));
  }

  lemma FreshRobot(s: State, book: RecipeBook, size: nat, at: nat, caps: set<string>, pick: Tool, r: nat)
    requires WellFormed(book) && 0 < at <= size - 1 && r in book && book[r][0].name in caps
    requires s == Initial(book, size, at, caps, pick)
    ensures Inv(s) && Capable(s) && Backlog(s) == [] && Stage(s, r, [], AVAILABLE, false, None, false, 0)
  {
    InitialKeeps(book, size, at, caps, pick);
    hide Inv, WellFormed;
  }

  lemma AdmissibleRun(s: State, e: seq<Event>)
    requires |e| == 9
    requires var s1 := Step(s, e[0]); var s2 := Step(s1, e[1]); var s3 := Step(s2, e[2]); var s4 := Step(s3, e[3]);
             var s5 := Step(s4, e[4]); var s6 := Step(s5, e[5]); var s7 := Step(s6, e[6]); var s8 := Step(s7, e[7]);
             && Admissible(s, e[0]) && Admissible(s1, e[1]) && Admissible(s2, e[2]) && Admissible(s3, e[3])
             && Admissible(s4, e[4]) && Admissible(s5, e[5]) && Admissible(s6, e[6]) && Admissible(s7, e[7]) &&
                Admissible(s8, e[8])
    ensures AllAdmissible(s, e)
    ensures Run(s, e) == Step(Step(Step(Step(Step(Step(Step(Step(Step(s, e[0]), e[1]), e[2]), e[3]), e[4]), e[5]),
            e[6]), e[7]), e[8])
  {
    hide Step, Admissible;
    var s1 := Step(s, e[0]); var s2 := Step(s1, e[1]); var s3 := Step(s2, e[2]);
    var rest := e[3..];
    assert e[1..][1..] == e[2..] && e[2..][1..] == rest && e[1..][0] == e[1] && e[2..][0] == e[2];
    assert Run(s, e) == Run(s1, e[1..]) == Run(s2, e[2..]) == Run(s3, rest);
    SixSteps(s3, rest);
    AdmissibleSix(s3, rest);
    assert AllAdmissible(s2, e[2..]);
    assert AllAdmissible(s1, e[1..]);
  }

  lemma AdmissibleSix(s: State, e: seq<Event>)
    requires |e| == 6
    requires var s1 := Step(s, e[0]); var s2 := Step(s1, e[1]); var s3 := Step(s2, e[2]);
             var s4 := Step(s3, e[3]); var s5 := Step(s4, e[4]);
             && Admissible(s, e[0]) && Admissible(s1, e[1]) && Admissible(s2, e[2])
             && Admissible(s3, e[3]) && Admissible(s4, e[4]) && Admissible(s5, e[5])
    ensures AllAdmissible(s, e)
  {
    hide Step, Admissible;
    var s1 := Step(s, e[0]); var s2 := Step(s1, e[1]); var s3 := Step(s2, e[2]); var s4 := Step(s3,
        e[3]); var s5 := Step(s4, e[4]);
    assert e[1..][1..] == e[2..] && e[2..][1..] == e[3..] && e[3..][1..] == e[4..] && e[4..][1..] == e[5..] &&
        e[5..][1..] == [];
    assert AllAdmissible(s5, e[5..]);
    assert AllAdmissible(s4, e[4..]);
    assert AllAdmissible(s3, e[3..]);
    assert AllAdmissible(s2, e[2..]);
    assert AllAdmissible(s1, e[1..]);
  }

  lemma TwoAccepted(s: State, r: nat, goal: nat)
    requires Inv(s) && Capable(s) && Backlog(s) == [] && Stage(s, r, [], AVAILABLE, false, None, false, 0)
    requires Within(s, goal) && goal != s.position
    ensures var e1 := ReceiveTaskEvent(r, 0, s.position);
            var s1 := Step(s, e1);
            var s2 := Step(s1, e1);
            var s3 := Step(s2, SwitchEvent(goal));
            && Admissible(s, e1) && Admissible(s1, e1) && Admissible(s2, SwitchEvent(goal))
            && Inv(s3) && Capable(s3) && |Backlog(s3)| == 2
            && Stage(s3, r, [Task.ReceiveTask(r, 0), Task.ReceiveTask(r, 0), SwitchPosition(goal)], REARRANGING, false,
               None, false, 0)
  {
    var e1, order := ReceiveTaskEvent(r, 0, s.position), Task.ReceiveTask(r, 0);
    var s1 := Step(s, e1);
    var s2 := Step(s1, e1);
    hide Inv, Capable, Step, Backlog, Stage, Admissible, Accepted;
    Accepts(s, r, []);
    RunStep(s, e1);
    assert [] + [order] == [order];
    Accepts(s1, r, [order]);
    RunStep(s1, e1);
    assert [order] + [order] == [order, order];
    Departs(s2, r, [order, order], goal);
    assert Admissible(s2, SwitchEvent(goal)) && Accepted(s2, SwitchEvent(goal)) == [] by { NoOrder(s2, goal); }
    RunStep(s2, SwitchEvent(goal));
    assert [order, order] + [SwitchPosition(goal)] == [order, order, SwitchPosition(goal)];
  }

  lemma NoOrder(s: State, goal: nat)
    ensures Admissible(s, SwitchEvent(goal)) && Accepted(s, SwitchEvent(goal)) == []
  {
  }

  /** A step of the robot's own that leaves its capabilities alone. */
  lemma OwnStep(s: State, e: Event)
    requires Inv(s) && Capable(s) && (e.RunTask? || e.TimerExpires? || e.CommitEvent?) && Admissible(s, e)
    requires s.mode.REARRANGING? && Step(s, e).caps == s.caps && Expired(Reconfiguring) !in s.tasks
    ensures Inv(Step(s, e)) && Capable(Step(s, e)) && Backlog(Step(s, e)) == Backlog(s)
  {
    hide Inv, Capable, Step, Backlog, Admissible;
    assert !Deadlocks(s, e);
    RunStep(s, e);
    assert Backlog(s) + [] == Backlog(s);
  }

  lemma OrdersQueued(s: State, r: nat, goal: nat, pick: Tool)
    requires Inv(s) && Capable(s) && |Backlog(s)| == 2
    requires Stage(s, r, [Task.ReceiveTask(r, 0), Task.ReceiveTask(r, 0), SwitchPosition(goal)], REARRANGING, false,
             None, false, 0)
    ensures var s1 := Step(s, RunTask(pick));
            var s2 := Step(s1, RunTask(pick));
            var s3 := Step(s2, RunTask(pick));
            && Inv(s3) && Capable(s3) && |Backlog(s3)| == 2
            && Stage(s3, r, [], REARRANGING, true, Some(Moving), false, goal)
  {
    var order, e := Task.ReceiveTask(r, 0), RunTask(pick);
    var s1 := Step(s, e);
    var s2 := Step(s1, e);
    hide Inv, Capable, Step, Backlog;
    assert [order] + [order, SwitchPosition(goal)] == [order, order, SwitchPosition(goal)];
    QueuesOrder(s, r, [order, SwitchPosition(goal)], false, pick);
    OwnStep(s, e);
    assert [order] + [SwitchPosition(goal)] == [order, SwitchPosition(goal)];
    QueuesOrder(s1, r, [SwitchPosition(goal)], true, pick);
    OwnStep(s1, e);
    TakesTarget(s2, r, goal, pick);
    OwnStep(s2, e);
  }

  lemma MovedAndCommitted(s: State, r: nat, goal: nat, pick: Tool)
    requires Inv(s) && Capable(s) && |Backlog(s)| == 2 && Stage(s, r, [], REARRANGING, true, Some(Moving), false, goal)
    ensures var s1 := Step(s, TimerExpires);
            var s2 := Step(s1, RunTask(pick));
            var s3 := Step(s2, CommitEvent);
            && Admissible(s2, CommitEvent)
            && Inv(s3) && Capable(s3) && |Backlog(s3)| == 2
            && Stage(s3, r, [CommitPosition], REARRANGING, true, None, true, 0)
  {
    var s1 := Step(s, TimerExpires);
    var s2 := Step(s1, RunTask(pick));
    hide Inv, Capable, Step, Backlog;
    Arrives(s, r, goal, pick);
    OwnStep(s, TimerExpires);
    OwnStep(s1, RunTask(pick));
    CommitQueues(s2, r);
    OwnStep(s2, CommitEvent);
  }

  lemma OwnAdmissible(pick: Tool)
    ensures forall s :: Admissible(s, RunTask(pick)) && Admissible(s, TimerExpires)
  {
  }

  lemma ReachesCommit(s0: State, r: nat, goal: nat, pick: Tool)
    requires Inv(s0) && Capable(s0) && Backlog(s0) == [] && Stage(s0, r, [], AVAILABLE, false, None, false, 0)
    requires Within(s0, goal) && goal != s0.position
    ensures var e := TwoOrdersThenMove(r, s0.position, goal, pick);
            var s := Run(s0, e);
            && AllAdmissible(s0, e)
            && Inv(s) && Capable(s) && |Backlog(s)| == 2 &&
               Stage(s, r, [CommitPosition], REARRANGING, true, None, true, 0)
  {
    var e := TwoOrdersThenMove(r, s0.position, goal, pick);
    var s3 := Step(Step(Step(s0, e[0]), e[1]), e[2]);
    var s6 := Step(Step(Step(s3, e[3]), e[4]), e[5]);
    hide Inv, Capable, Step, Backlog, Stage, Admissible, Within;
    TwoAccepted(s0, r, goal);
    OrdersQueued(s3, r, goal, pick);
    MovedAndCommitted(s6, r, goal, pick);
    OwnAdmissible(pick);
    AdmissibleRun(s0, e);
  }

  /** A run from a fresh robot whose only inadmissible step is the second commit, and which stops the robot. */
  lemma DoubleCommitAborts(book: RecipeBook, size: nat, at: nat, caps: set<string>, pick: Tool, r: nat, goal: nat)
    requires WellFormed(book) && 0 < at <= size - 1 && 0 < goal <= size - 1 && goal != at
    requires r in book && book[r][0].name in caps
    ensures var s0 := Initial(book, size, at, caps, pick);
            var s := Run(s0, TwoOrdersThenMove(r, at, goal, pick));
            && AllAdmissible(s0, TwoOrdersThenMove(r, at, goal, pick))
            && CommitAccepts(s) && !Admissible(s, CommitEvent)
            && Drain(Step(s, CommitEvent), 2, pick).fault == Aborted
  {
    var s0 := Initial(book, size, at, caps, pick);
    FreshRobot(s0, book, size, at, caps, pick, r);
    InitialIs(book, size, at, caps, pick);
    hide Inv, Capable, Step, Backlog, WellFormed, Initial, TwoOrdersThenMove, AllAdmissible, Run, Drain, CommitAccepts,
         Admissible;
    ReachesCommit(s0, r, goal, pick);
    AbortsThere(Run(s0, TwoOrdersThenMove(r, at, goal, pick)), pick);
  }

  lemma AbortsThere(s: State, pick: Tool)
    requires Inv(s) && CommitAccepts(s) && s.tasks == [CommitPosition] && Capable(s) && |Backlog(s)| == 2
    ensures !Admissible(s, CommitEvent) && Drain(Step(s, CommitEvent), 2, pick).fault == Aborted
  {
    hide Inv, Capable, Step, Backlog, Drain;
    SecondCommitAbortsExactly(s, pick);
  }

  lemma InitialIs(book: RecipeBook, size: nat, at: nat, caps: set<string>, pick: Tool)
    ensures var s := Initial(book, size, at, caps, pick); s.position == at && s.conveyorSize == size
  {
  }
}
