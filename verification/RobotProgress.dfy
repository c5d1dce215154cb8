/** Consequences for whole runs of a robot: exact load, adaptations that are carried out, dishes that get
    on, and how a robot can be made to hang. */
module RobotProgress {
  import opened Basics
  import opened Recipes
  import opened Robot
  import opened RobotInvariant
  import opened RobotSteps
  import opened RobotRuns
  import opened RobotFifo
  import opened RobotLegs

  // ------------------------------------------------------------------ load

  /** An idle robot owes nothing. */
  lemma IdleOwesNothing(s: State)
    requires Inv(s) && PhaseOf(s).Idle?
    ensures s.overallTime == 0 && s.lastTool == s.tool && s.orders == []
  {
    hide Control, PrefixLength, OrdersOk, TasksOk, WellFormed, Exclusive, ModeOk, DishOk, PhaseOf;
  }

  lemma LoadPositive(s: State)
    requires Inv(s) && PhaseOf(s).Cooking?
    ensures Load(s) >= 1
  {
    FrontOfWork(s);
    if PhaseOf(s) == Cooking(Retooling) {
      ToolMissing(s);
      RetoolingPaid(s.tool, Work(s));
    } else if PhaseOf(s) == Cooking(PassingTime) {
      DurationBound(s);
    } else {
      OnlyCookingWaits(s);
    }
    hide Control, OrdersWork, Prefix, Inv, PhaseOf, Cost;
  }

  lemma OnlyCookingWaits(s: State)
    requires PhaseOf(s).Cooking?
    ensures PhaseOf(s) == Cooking(Retooling) || PhaseOf(s) == Cooking(PassingTime)
  {
    hide Control;
  }

  lemma ToolMissing(s: State)
    requires Inv(s) && PhaseOf(s) == Cooking(Retooling)
    ensures s.inProcess != [] && s.tool != s.inProcess[0].tool
  {
    hide Control, PrefixLength, OrdersOk, TasksOk, WellFormed, Exclusive, ModeOk, LoadOk, PhaseOf;
  }

  /** While the load fits the 32-bit attribute, the published number is the load, and paying one tick or
      one retooling never makes it wrap. */
  lemma NeverUnderflows(s: State)
    requires Inv(s) && Load(s) < U32 && s.tasks != []
    requires (s.tasks[0] == Expired(PassingTime) || s.tasks[0] == Expired(Retooling))
    ensures s.overallTime == Load(s) && (s.overallTime - 1) % U32 == s.overallTime - 1
  {
    LoadByInv(s);
    CookingQueued(s);
    LoadPositive(s);
    hide Inv, Load, PhaseOf;
  }

  lemma LoadByInv(s: State)
    requires Inv(s)
    ensures s.overallTime == Load(s) % U32
  {
    hide Load, Exclusive, ModeOk, DishOk, OrdersOk, TasksOk, WellFormed, PhaseOf, Work, LastTool;
  }

  lemma CookingQueued(s: State)
    requires Inv(s) && s.tasks != [] && (s.tasks[0] == Expired(PassingTime) || s.tasks[0] == Expired(Retooling))
    ensures PhaseOf(s).Cooking?
  {
    if s.tasks[0] == Expired(PassingTime) { TickPhase(s); } else { RetoolPhase(s); }
    hide Inv, PhaseOf;
  }

  // ------------------------------------------------------------------ adaptations

  /** Whenever a robot is rearranging or reconfiguring, something will drive it on: a queued task, a timer,
      a dish waiting for its pickup, or the commit it awaits. */
  lemma AdaptationPending(s: State)
    requires Inv(s) && !s.mode.AVAILABLE?
    ensures s.tasks != [] || s.timer.Some? || s.pickup || LegOf(s).Arrived?
  {
    hide DishOk, LoadOk, OrdersOk, TasksOk, WellFormed;
    ControlElements(s.tasks);
  }

  // ------------------------------------------------------------------ dishes

  /** Every dish at the robot can be worked on: the robot is capable of its next open step. */
  ghost predicate Capable(s: State)
  {
    forall t :: t in Backlog(s) ==>
      t.recipe in s.recipes && t.steps < |s.recipes[t.recipe]| && s.recipes[t.recipe][t.steps].name in s.caps
  }

  lemma StepRecipes(s: State, e: Event)
    requires Inv(s) && Admissible(s, e)
    ensures Step(s, e).recipes == s.recipes && Step(s, e).conveyorSize == s.conveyorSize
  {
    if OwnEvent(e) {
      if Deadlocks(s, e) {
        HangsExactly(s, e.pick);
        hide Inv, Step, Deadlocks;
      } else {
        StepAdvances(s, e);
        hide Inv, LegOf, Step, Deadlocks;
      }
    } else {
      hide Inv;
      CallsKeepBook(s, e);
    }
  }

  lemma CallsKeepBook(s: State, e: Event)
    requires !OwnEvent(e)
    ensures Step(s, e).recipes == s.recipes && Step(s, e).conveyorSize == s.conveyorSize
  {
    match e
    case SwitchEvent(p) => SwitchCallShape(s, p);
    case CommitEvent => CommitCallShape(s);
    case ReconfigureEvent(caps) => ReconfigureCallShape(s, caps);
    case _ =>
    hide SwitchCall, CommitCall, ReconfigureCall;
  }

  lemma SwitchCallShape(s: State, p: nat)
    ensures var s' := SwitchCall(s, p);
            s' == s || s' == s.(mode := REARRANGING, available := false, tasks := s.tasks + [SwitchPosition(p)])
  {
    hide SwitchAccepts;
  }

  lemma CommitCallShape(s: State)
    ensures var s' := CommitCall(s); s' == s || s' == s.(tasks := s.tasks + [CommitPosition])
  {
    hide CommitAccepts;
  }

  lemma ReconfigureCallShape(s: State, caps: set<string>)
    ensures var s' := ReconfigureCall(s, caps);
            s' == s || s' == s.(mode := RECONFIGURING, available := false, newCaps := caps,
                tasks := s.tasks + [StartReconfiguration])
  {
    hide ReconfigureAccepts;
  }

  lemma CapableStep(s: State, e: Event)
    requires Inv(s) && Admissible(s, e) && Capable(s) && Step(s, e).caps == s.caps
    ensures Capable(Step(s, e))
  {
    StepRecipes(s, e);
    StepBacklog(s, e);
    AcceptedCapable(s, e);
    hide Inv, Step, Backlog, Accepted, HandedOver, Admissible;
    var s' := Step(s, e);
    forall t | t in Backlog(s')
      ensures t.recipe in s'.recipes && t.steps < |s'.recipes[t.recipe]|
      ensures s'.recipes[t.recipe][t.steps].name in s'.caps
    {
      assert t in HandedOver(s, e) + Backlog(s');
      assert t in Backlog(s) + Accepted(s, e);
    }
  }

  lemma AcceptedCapable(s: State, e: Event)
    ensures forall t :: t in Accepted(s, e) ==>
              t.recipe in s.recipes && t.steps < |s.recipes[t.recipe]| && s.recipes[t.recipe][t.steps].name in s.caps
  {
  }

  /** What is handed over at this step, if anything, has at least one more step done than on arrival. */
  predicate Gains(s: State, e: Event)
  {
    HandedOver(s, e) != [] ==> HandoverReply(s).steps > HandedOver(s, e)[0].steps
  }

  lemma HandoverGains(s: State, e: Event)
    requires Inv(s) && Capable(s)
    ensures Gains(s, e)
  {
    if HandedOver(s, e) != [] {
      HandoverReports(s);
      var t := HandedOver(s, e)[0];
      assert HandedOver(s, HandoverEvent) == HandedOver(s, e) == [t];
      ClearedBacklog(s);
      assert t in Backlog(s) by { assert DishTicket(s) == [t]; }
      var rest := s.recipes[t.recipe][t.steps..];
      assert rest[0] == s.recipes[t.recipe][t.steps];
      assert PrefixLength(s.caps, rest) >= 1;
      hide Inv, Backlog, HandedOver, PrefixLength;
    }
  }

  /** The capabilities stay the same throughout the run. */
  predicate Steady(s: State, events: seq<Event>)
    decreases |events|
  {
    events == [] || (Step(s, events[0]).caps == s.caps && Steady(Step(s, events[0]), events[1..]))
  }

  predicate AllGain(s: State, events: seq<Event>)
    decreases |events|
  {
    events == [] || (Gains(s, events[0]) && AllGain(Step(s, events[0]), events[1..]))
  }

  /** While no reconfiguration takes effect, every visit that ends has advanced its dish. */
  lemma {:induction false} VisitsGain(s: State, events: seq<Event>)
    requires Inv(s) && AllAdmissible(s, events) && Capable(s) && Steady(s, events) && !RunDeadlocks(s, events)
    ensures AllGain(s, events)
    decreases |events|
  {
    if events != [] {
      HandoverGains(s, events[0]);
      StepKeeps(s, events[0]);
      CapableStep(s, events[0]);
      hide Inv, Step, Capable, Gains, Deadlocks;
      VisitsGain(Step(s, events[0]), events[1..]);
    }
  }

  // ------------------------------------------------------------------ how a robot fails

  /** The run in which an order is accepted just before a reconfiguration, while the robot is idle. */
  function OvertakenOrder(recipe: nat, steps: nat, at: nat, caps: set<string>, pick: Tool): seq<Event>
  {
    [ReceiveTaskEvent(recipe, steps, at), ReconfigureEvent(caps), RunTask(pick), RunTask(pick), TimerExpires,
        RunTask(pick)]
  }

  lemma Overtaken(s: State, recipe: nat, steps: nat, caps: set<string>)
    requires s.fault.NoFault? && s.mode.AVAILABLE? && s.tasks == []
    requires ReceiveTaskAccepts(s, recipe, steps, s.position) && caps != s.caps
    ensures var s1 := Step(s, ReceiveTaskEvent(recipe, steps, s.position));
            var s2 := Step(s1, ReconfigureEvent(caps));
            && s2 == s.(mode := RECONFIGURING, available := false, newCaps := caps,
                        tasks := [Task.ReceiveTask(recipe, steps), StartReconfiguration])
            && Admissible(s, ReceiveTaskEvent(recipe, steps, s.position))
  {
    assert [] + [Task.ReceiveTask(recipe, steps)] + [StartReconfiguration] ==
        [Task.ReceiveTask(recipe, steps), StartReconfiguration];
  }

  /** The order is found by an idle robot that reconfigures: it stays in the queue. */
  lemma OrderStays(s: State, recipe: nat, steps: nat, pick: Tool)
    requires s.fault.NoFault? && s.mode.RECONFIGURING? && !s.preparing && !s.reconfiguring && s.timer.None?
    requires recipe in s.recipes && steps < |s.recipes[recipe]|
    requires s.tasks == [Task.ReceiveTask(recipe, steps), StartReconfiguration]
    ensures var s' := Step(s, RunTask(pick));
            && s'.fault.NoFault? && s'.mode.RECONFIGURING? && !s'.preparing && s'.reconfiguring
            && s'.timer == Some(Reconfiguring) && s'.tasks == [StartReconfiguration] && s'.orders != []
  {
    hide Cost, LastTool, Prefix;
    var s1 := s.(tasks := s.tasks[1..]);
    assert s.tasks[1..] == [StartReconfiguration];
    assert Step(s, RunTask(pick)) == HandleReceiveTask(s1, recipe, steps);
  }

  lemma ThenHangs(s: State, pick: Tool)
    requires s.fault.NoFault? && s.mode.RECONFIGURING? && !s.preparing && s.reconfiguring && KnownOrders(s)
    requires s.timer == Some(Reconfiguring) && s.tasks == [StartReconfiguration] && s.orders != []
    ensures var s4 := Step(s, RunTask(pick));
            var s5 := Step(s4, TimerExpires);
            && s4 == s.(tasks := []) && s5 == s.(tasks := [Expired(Reconfiguring)], timer := None)
            && Step(s5, RunTask(pick)).fault == Deadlocked
  {
    var s4 := Step(s, RunTask(pick));
    assert s.tasks[1..] == [] && [] + [Expired(Reconfiguring)] == [Expired(Reconfiguring)];
    assert s4 == s.(tasks := []);
    var s5 := Step(s4, TimerExpires);
    assert s5 == s.(tasks := [Expired(Reconfiguring)], timer := None);
    assert KnownOrders(s5.(tasks := s5.tasks[1..]));
    hide KnownOrders, Recost;
  }

  lemma IdleFacts(s: State)
    requires Inv(s) && s.mode.AVAILABLE? && PhaseOf(s).Idle?
    ensures !s.preparing && !s.reconfiguring && s.timer.None? && s.fault.NoFault?
  {
    hide DishOk, LoadOk, OrdersOk, TasksOk, WellFormed, Control;
  }

  lemma KnownIn(s: State)
    requires Inv(s)
    ensures KnownOrders(s)
  {
    KnownByInv(s);
    hide Exclusive, ModeOk, DishOk, LoadOk, TasksOk, WellFormed, PhaseOf, OrdersOk;
  }

  lemma SixSteps(s: State, e: seq<Event>)
    requires |e| == 6
    ensures Run(s, e) == Step(Step(Step(Step(Step(Step(s, e[0]), e[1]), e[2]), e[3]), e[4]), e[5])
  {
    hide Step;
    var s1 := Step(s, e[0]);
    var s2 := Step(s1, e[1]);
    var s3 := Step(s2, e[2]);
    var s4 := Step(s3, e[3]);
    var s5 := Step(s4, e[4]);
    assert e[1..][0] == e[1] && e[1..][1..] == e[2..] && e[2..][1..] == e[3..] && e[3..][1..] == e[4..] &&
        e[4..][1..] == e[5..];
    assert Run(s, e) == Run(s1, e[1..]) == Run(s2, e[2..]) == Run(s3, e[3..]);
    assert Run(s3, e[3..]) == Run(s4, e[4..]) == Run(s5, e[5..]);
    assert e[5..][1..] == [] && Run(s5, e[5..]) == Run(Step(s5, e[5]), []);
  }

  /** Every idle robot can be made to hang: it accepts an order and then, before handling it, a
      reconfiguration. Both calls are admissible and both are accepted. */
  lemma DeadlockReachable(s: State, recipe: nat, steps: nat, caps: set<string>, pick: Tool)
    requires Inv(s) && s.mode.AVAILABLE? && PhaseOf(s).Idle? && s.tasks == []
    requires ReceiveTaskAccepts(s, recipe, steps, s.position) && caps != s.caps
    ensures Run(s, OvertakenOrder(recipe, steps, s.position, caps, pick)).fault == Deadlocked
  {
    IdleFacts(s);
    Overtaken(s, recipe, steps, caps);
    var e := OvertakenOrder(recipe, steps, s.position, caps, pick);
    var s1 := Step(s, e[0]);
    StepKeeps(s, e[0]);
    StepKeeps(s1, e[1]);
    var s2 := Step(s1, e[1]);
    OrderStays(s2, recipe, steps, pick);
    StepKeeps(s2, e[2]);
    var s3 := Step(s2, e[2]);
    KnownIn(s3);
    ThenHangs(s3, pick);
    hide Inv, Step, KnownOrders, Deadlocks;
    SixSteps(s, e);
  }
}
