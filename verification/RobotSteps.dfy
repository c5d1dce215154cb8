/** Every step of a robot keeps its invariant. */
module RobotSteps {
  import opened Basics
  import opened Recipes
  import opened Robot
  import opened RobotInvariant

  lemma {:induction false} OrdersWorkAppend(caps: set<string>, orders: seq<Order>, o: Order)
    ensures OrdersWork(caps, orders + [o]) == OrdersWork(caps, orders) + Prefix(caps, o.actions)
  {
    if orders == [] {
      assert orders + [o] == [o];
      assert OrdersWork(caps, [o]) == Prefix(caps, o.actions) + OrdersWork(caps, [o][1..]);
    } else {
      OrdersWorkAppend(caps, orders[1..], o);
      assert (orders + [o])[1..] == orders[1..] + [o];
    }
  }

  /** Nothing drives the robot on at this point of a handler. */
  predicate Resting(s: State)
  {
    s.timer.None? && Driver(Control(s.tasks)).None? && !s.pickup && !s.commitPending
  }

  /** The adaptation state a robot has whenever it turns to its next dish or action. */
  predicate Ready(s: State)
  {
    var request := Request(Control(s.tasks));
    !s.rearranging && !s.reconfiguring &&
    match s.mode
    case AVAILABLE => request.None? && s.target == 0
    case REARRANGING =>
      && (request.Some? ==> request.value.SwitchPosition? && s.target == 0)
      && Within(s, Goal(s)) && Goal(s) != s.position
    case RECONFIGURING => s.target == 0 && (request.Some? ==> request.value.StartReconfiguration?)
  }

  predicate Sound(s: State)
  {
    && s.fault.NoFault?
    && WellFormed(s.recipes) && Within(s, s.position)
    && (s.available <==> s.mode.AVAILABLE?)
    && Exclusive(s)
    && OrdersOk(s.recipes, s.caps, s.orders) && TasksOk(s.recipes, s.tasks)
  }

  /** The published load covers exactly the given work, from the tool in hand. */
  predicate Owes(s: State, work: seq<Action>)
  {
    s.overallTime == Cost(s.tool, work) % U32 && s.lastTool == LastTool(s.tool, work)
  }

  // ------------------------------------------------------------------ turning to the next action or dish

  lemma DetermineKeeps(s: State)
    requires Sound(s) && Resting(s) && Ready(s) && s.preparing
    requires DishInProcess(s) && !s.finished
    requires Owes(s, Prefix(s.caps, s.inProcess) + OrdersWork(s.caps, s.orders))
    ensures Inv(DetermineNextAction(s))
  {
    hide DishParts, WellFormed, OrdersOk, TasksOk, Cost, OrdersWork, Control;
    var s' := DetermineNextAction(s);
    if s.inProcess == [] || s.inProcess[0].name !in s.caps {
      assert PhaseOf(s').AwaitingPickup?;
      assert Prefix(s.caps, s.inProcess) == [];
      assert [] + OrdersWork(s.caps, s.orders) == OrdersWork(s.caps, s.orders);
    } else if s.inProcess[0].tool != s.tool {
      assert PhaseOf(s') == Cooking(Retooling);
    } else {
      StartTick(s);
    }
  }

  lemma StartTick(s: State)
    requires Sound(s) && Resting(s) && Ready(s) && s.preparing
    requires DishInProcess(s) && !s.finished
    requires Owes(s, Prefix(s.caps, s.inProcess) + OrdersWork(s.caps, s.orders))
    requires s.inProcess != [] && s.inProcess[0].name in s.caps && s.inProcess[0].tool == s.tool
    ensures Inv(DetermineNextAction(s))
  {
    var s' := DetermineNextAction(s);
    assert 0 < s.inProcess[0].duration by {
      assert s.inProcess[0] == s.recipes[s.recipe][s.overallProcessed];
    }
    hide WellFormed, OrdersOk, TasksOk, OrdersWork, Control;
    assert PhaseOf(s') == Cooking(PassingTime);
    assert Prefix(s.caps, s.inProcess)[0] == s.inProcess[0];
    assert Work(s')[0] == s.inProcess[0];
  }

  lemma AdaptOrRest(s: State)
    requires Sound(s) && Resting(s) && Ready(s) && NoDish(s)
    requires Owes(s, OrdersWork(s.caps, s.orders))
    requires s.mode.AVAILABLE? ==> s.orders == []
    ensures Inv(CookNext(s))
  {
    hide DishParts, WellFormed, OrdersOk, TasksOk, Cost, LastTool, OrdersWork, Control, DetermineNextAction;
    assert [] + OrdersWork(s.caps, s.orders) == OrdersWork(s.caps, s.orders);
  }

  lemma CookNextKeeps(s: State)
    requires Sound(s) && Resting(s) && Ready(s) && NoDish(s)
    requires Owes(s, OrdersWork(s.caps, s.orders))
    ensures Inv(CookNext(s))
  {
    if s.mode.AVAILABLE? && s.orders != [] {
      var o := s.orders[0];
      assert OrderOk(s.recipes, s.caps, o);
      assert PrefixLength(s.caps, o.actions) == o.processableSteps;
      hide Inv, Cost, LastTool, Control, DetermineNextAction, PrefixLength;
      var s1 := s.(preparing := true, orders := s.orders[1..], recipe := o.recipe, inProcess := o.actions,
                   overallProcessed := o.processedSteps, overallProcessing := o.processingSteps,
                   processable := o.processableSteps);
      assert OrdersWork(s.caps, s.orders) == Prefix(s.caps, o.actions) + OrdersWork(s.caps, s.orders[1..]);
      DetermineKeeps(s1);
    } else {
      AdaptOrRest(s);
    }
  }

  // ------------------------------------------------------------------ accepting an order

  /** The invariant, except that an idle robot may find an order in its queue. */
  ghost predicate Holding(s: State)
  {
    && s.fault.NoFault?
    && WellFormed(s.recipes) && Within(s, s.position)
    && (s.available <==> s.mode.AVAILABLE?)
    && Exclusive(s) && ModeOk(s)
    && OrdersOk(s.recipes, s.caps, s.orders) && TasksOk(s.recipes, s.tasks)
    && DishOk(s) && LoadOk(s)
  }

  lemma FrontOfWork(s: State)
    requires DishOk(s) && PhaseOf(s).Cooking?
    ensures Prefix(s.caps, s.inProcess) != [] && Work(s) != [] && Work(s)[0] == s.inProcess[0]
  {
    hide Control, OrdersWork;
  }

  lemma LastToolTail(tool: Tool, work: seq<Action>)
    requires work != [] && work[0].tool == tool
    ensures LastTool(tool, work[1..]) == LastTool(tool, work)
  {
  }

  /** The published load, whatever the phase: what is left of the running action, and the rest. */
  function Owed(s: State, work: seq<Action>): nat
  {
    if PhaseOf(s) == Cooking(PassingTime) && work != [] then s.actionLeft + Cost(s.tool, work[1..])
        else Cost(s.tool, work)
  }

  lemma OwedAppend(s: State, work: seq<Action>, more: seq<Action>)
    requires PhaseOf(s) == Cooking(PassingTime) ==> work != [] && work[0].tool == s.tool
    ensures Owed(s, work + more) == Owed(s, work) + Cost(LastTool(s.tool, work), more)
    ensures LastTool(s.tool, work + more) == LastTool(LastTool(s.tool, work), more)
  {
    hide PhaseOf, Cost, LastTool;
    CostSplit(s.tool, work, more);
    if PhaseOf(s) == Cooking(PassingTime) {
      CostSplit(s.tool, work[1..], more);
      assert (work + more)[1..] == work[1..] + more;
      LastToolTail(s.tool, work);
    }
  }

  lemma SamePhase(s: State, s': State)
    requires s.pickup == s'.pickup && s.timer == s'.timer && s.commitPending == s'.commitPending
    requires Control(s.tasks) == Control(s'.tasks)
    ensures PhaseOf(s) == PhaseOf(s')
  {
  }

  /** The order queue and the published load do not matter to the rest of the invariant. */
  lemma QueueIndependent(s: State, orders: seq<Order>, time: nat, tool: Tool)
    ensures var s' := s.(orders := orders, overallTime := time, lastTool := tool);
            && PhaseOf(s') == PhaseOf(s)
            && (Exclusive(s') <==> Exclusive(s)) && (ModeOk(s') <==> ModeOk(s)) && (DishOk(s') <==> DishOk(s))
  {
    hide DishParts, Control, Driver, Request, PrefixLength;
  }

  lemma EnqueueLoad(s: State, recipe: nat, steps: nat)
    requires DishOk(s) && LoadOk(s)
    requires recipe in s.recipes && steps < |s.recipes[recipe]|
    ensures LoadOk(Enqueue(s, recipe, steps))
  {
    hide PhaseOf, DishOk, Cost, LastTool, Prefix, OrdersWork, Exclusive, ModeOk;
    var s' := Enqueue(s, recipe, steps);
    var actions := s.recipes[recipe][steps..];
    var doable := Prefix(s.caps, actions);
    var o := Order(recipe, steps, |s.recipes[recipe]|, |doable|, actions);
    QueueIndependent(s, s.orders + [o], s'.overallTime, s'.lastTool);
    OrdersWorkAppend(s.caps, s.orders, o);
    if PhaseOf(s) == Cooking(PassingTime) { FrontOfWork(s); FrontInHand(s); }
    OwedAppend(s, Work(s), doable);
    assert Work(s') == Work(s) + doable;
    assert Load(s') == Load(s) + Cost(LastTool(s.tool, Work(s)), doable);
  }

  lemma FrontInHand(s: State)
    requires DishOk(s) && PhaseOf(s) == Cooking(PassingTime)
    ensures s.inProcess != [] && s.inProcess[0].tool == s.tool
  {
    hide Control, OrdersWork, PhaseOf;
  }

  lemma OrdersOkAppend(recipes: RecipeBook, caps: set<string>, orders: seq<Order>, o: Order)
    requires OrdersOk(recipes, caps, orders) && OrderOk(recipes, caps, o)
    ensures OrdersOk(recipes, caps, orders + [o])
  {
    hide OrderOk;
  }

  lemma EnqueueKeeps(s: State, recipe: nat, steps: nat)
    requires Holding(s) && recipe in s.recipes && steps < |s.recipes[recipe]|
    ensures Holding(Enqueue(s, recipe, steps))
  {
    var s' := Enqueue(s, recipe, steps);
    var actions := s.recipes[recipe][steps..];
    var o := Order(recipe, steps, |s.recipes[recipe]|, |Prefix(s.caps, actions)|, actions);
    EnqueueLoad(s, recipe, steps);
    OrdersOkAppend(s.recipes, s.caps, s.orders, o);
    QueueIndependent(s, s.orders + [o], s'.overallTime, s'.lastTool);
    hide DishParts, Exclusive, ModeOk, DishOk, LoadOk, OrdersOk, TasksOk, WellFormed, Prefix;
  }

  lemma TasksIndependent(s: State, tasks: seq<Task>)
    requires Control(tasks) == Control(s.tasks)
    ensures var s' := s.(tasks := tasks);
            && PhaseOf(s') == PhaseOf(s)
            && (Exclusive(s') <==> Exclusive(s)) && (ModeOk(s') <==> ModeOk(s)) && (DishOk(s') <==> DishOk(s))
            && (LoadOk(s') <==> LoadOk(s))
  {
    hide DishParts;
    SamePhase(s, s.(tasks := tasks));
    SameLoad(s, s.(tasks := tasks));
    hide Control, Driver, Request, PrefixLength, PhaseOf, LoadOk;
  }

  lemma SameLoad(s: State, s': State)
    requires PhaseOf(s) == PhaseOf(s') && s.caps == s'.caps && s.inProcess == s'.inProcess && s.orders == s'.orders
    requires s.tool == s'.tool && s.actionLeft == s'.actionLeft && s.overallTime == s'.overallTime
    requires s.lastTool == s'.lastTool
    ensures LoadOk(s') <==> LoadOk(s)
  {
    hide PhaseOf, Cost, LastTool, Prefix, OrdersWork;
    assert Work(s) == Work(s');
  }

  /** Taking the head of the queue when it is an accepted order. */
  lemma PopReceive(s: State)
    requires Inv(s) && s.tasks != [] && s.tasks[0].ReceiveTask?
    ensures Holding(s.(tasks := s.tasks[1..]))
    ensures PhaseOf(s.(tasks := s.tasks[1..])) == PhaseOf(s)
    ensures TaskOk(s.recipes, s.tasks[0])
  {
    assert Control(s.tasks) == Control(s.tasks[1..]);
    TasksIndependent(s, s.tasks[1..]);
    hide DishParts, Control, PhaseOf, DishOk, ModeOk, LoadOk, Exclusive, OrdersOk, WellFormed, TaskOk;
  }

  lemma ReceiveKeeps(s: State)
    requires Inv(s) && s.tasks != [] && s.tasks[0].ReceiveTask?
    ensures Inv(HandleReceiveTask(s.(tasks := s.tasks[1..]), s.tasks[0].recipe, s.tasks[0].steps))
  {
    var s1, t := s.(tasks := s.tasks[1..]), s.tasks[0];
    PopReceive(s);
    EnqueueKeeps(s1, t.recipe, t.steps);
    var s2 := Enqueue(s1, t.recipe, t.steps);
    SamePhase(s1, s2);
    if !s2.preparing && !s2.rearranging && !s2.reconfiguring {
      RestingKeeps(s2);
    } else {
      hide DishParts, Control, Cost, LastTool, Prefix, PrefixLength, OrdersWork, LoadOk, WellFormed, TasksOk, OrdersOk,
           Enqueue;
    }
  }

  /** An idle robot that found an order in its queue. */
  lemma RestingKeeps(s: State)
    requires Holding(s) && !s.preparing && !s.rearranging && !s.reconfiguring
    ensures Inv(CookNext(s))
  {
    hide DishParts, Control, Cost, LastTool, Prefix, PrefixLength, OrdersWork, WellFormed, TasksOk, OrdersOk, CookNext,
         Inv;
    assert PhaseOf(s).Idle?;
    assert [] + OrdersWork(s.caps, s.orders) == OrdersWork(s.caps, s.orders);
    CookNextKeeps(s);
  }

  // ------------------------------------------------------------------ the other queued tasks

  function Popped(s: State): State
    requires s.tasks != []
  {
    s.(tasks := s.tasks[1..])
  }

  lemma PopControl(s: State)
    requires Inv(s) && s.tasks != [] && !s.tasks[0].ReceiveTask?
    ensures Control(s.tasks) == [s.tasks[0]] + Control(s.tasks[1..])
    ensures TasksOk(s.recipes, s.tasks[1..])
    ensures Exclusive(Popped(s)) || s.tasks[0].CommitPosition?
  {
    hide DishParts, DishOk, LoadOk, OrdersOk, WellFormed, ModeOk, PhaseOf;
  }

  lemma CookTaskKeeps(s: State)
    requires Inv(s) && s.tasks != [] && s.tasks[0].CookNextOrder?
    ensures Inv(CookNext(Popped(s)))
  {
    hide DishParts, Control, Cost, LastTool, Prefix, PrefixLength, OrdersWork, OrdersOk, TasksOk, WellFormed, CookNext;
    PopControl(s);
    assert PhaseOf(s).CookQueued?;
    assert [] + OrdersWork(s.caps, s.orders) == OrdersWork(s.caps, s.orders);
    CookNextKeeps(Popped(s));
  }

  lemma SwitchTaskKeeps(s: State)
    requires Inv(s) && s.tasks != [] && s.tasks[0].SwitchPosition?
    ensures Inv(HandleTask(Popped(s), s.tasks[0], FRYER))
  {
    hide DishParts, Control, Cost, LastTool, Prefix, PrefixLength, OrdersWork, OrdersOk, TasksOk, WellFormed, LoadOk;
    PopControl(s);
    var s' := HandleTask(Popped(s), s.tasks[0], FRYER);
    assert s.mode.REARRANGING?;
    if s.preparing || s.rearranging {
      assert PhaseOf(s') == PhaseOf(s);
      SameLoad(s, s');
    } else {
      assert PhaseOf(s).Idle? && PhaseOf(s').Travelling?;
      SameLoadUncooked(s, s');
    }
  }

  lemma StartTaskKeeps(s: State)
    requires Inv(s) && s.tasks != [] && s.tasks[0].StartReconfiguration?
    ensures Inv(HandleTask(Popped(s), s.tasks[0], FRYER))
  {
    hide DishParts, Control, Cost, LastTool, Prefix, PrefixLength, OrdersWork, OrdersOk, TasksOk, WellFormed, LoadOk;
    PopControl(s);
    var s' := HandleTask(Popped(s), s.tasks[0], FRYER);
    assert s.mode.RECONFIGURING?;
    if s.preparing || s.reconfiguring {
      assert PhaseOf(s') == PhaseOf(s);
      SameLoad(s, s');
    } else {
      assert PhaseOf(s).Idle? && PhaseOf(s').Refitting?;
      SameLoadUncooked(s, s');
    }
  }

  lemma SameLoadUncooked(s: State, s': State)
    requires !PhaseOf(s).Cooking? && !PhaseOf(s').Cooking? && s.caps == s'.caps && s.orders == s'.orders
    requires s.tool == s'.tool && s.overallTime == s'.overallTime && s.lastTool == s'.lastTool
    ensures LoadOk(s') <==> LoadOk(s)
  {
    hide PhaseOf, Cost, LastTool, Prefix, OrdersWork;
  }

  lemma CommitTaskKeeps(s: State)
    requires Inv(s) && s.tasks != [] && s.tasks[0].CommitPosition?
    ensures Inv(HandleNewPositionCommit(Popped(s)))
  {
    hide DishParts, Control, Cost, LastTool, Prefix, PrefixLength, OrdersWork, OrdersOk, TasksOk, WellFormed, CookNext;
    PopControl(s);
    assert PhaseOf(s).CommitQueued?;
    assert [] + OrdersWork(s.caps, s.orders) == OrdersWork(s.caps, s.orders);
    CookNextKeeps(Popped(s).(rearranging := false, commitPending := false, mode := AVAILABLE, available := true));
  }

  lemma MoveKeeps(s: State)
    requires Inv(s) && s.tasks != [] && s.tasks[0] == Expired(Moving)
    ensures Inv(MoveToNewPosition(Popped(s)))
    ensures MoveToNewPosition(Popped(s)).position == Goal(s)
  {
    hide DishParts, Control, Cost, LastTool, Prefix, PrefixLength, OrdersWork, OrdersOk, TasksOk, WellFormed, LoadOk;
    PopControl(s);
    assert PhaseOf(s).Travelling?;
    assert PhaseOf(MoveToNewPosition(Popped(s))).AwaitingCommit?;
    SameLoadUncooked(s, MoveToNewPosition(Popped(s)));
  }

  // ------------------------------------------------------------------ paying off the load

  lemma RetoolingPaid(tool: Tool, work: seq<Action>)
    requires work != [] && work[0].tool != tool
    ensures Cost(tool, work) == RETOOLING_TIME + Cost(work[0].tool, work)
    ensures LastTool(work[0].tool, work) == LastTool(tool, work)
  {
  }

  lemma PrefixTail(caps: set<string>, actions: seq<Action>)
    requires actions != [] && actions[0].name in caps
    ensures PrefixLength(caps, actions) == 1 + PrefixLength(caps, actions[1..])
    ensures Prefix(caps, actions)[1..] == Prefix(caps, actions[1..])
    ensures Prefix(caps, actions)[0] == actions[0]
  {
  }

  lemma RetoolKeeps(s: State)
    requires Inv(s) && s.tasks != [] && s.tasks[0] == Expired(Retooling)
    ensures Inv(Retool(Popped(s)))
  {
    hide DishParts, Control, Cost, LastTool, Prefix, PrefixLength, OrdersWork, OrdersOk, TasksOk, WellFormed,
         DetermineNextAction, CookNext;
    PopControl(s);
    assert PhaseOf(s) == Cooking(Retooling);
    FrontOfWork(s);
    RetoolingPaid(s.tool, Work(s));
    DetermineKeeps(Popped(s).(tool := s.inProcess[0].tool, overallTime := (s.overallTime - RETOOLING_TIME) % U32));
  }

  lemma PaidModulo(load: nat, paid: nat)
    requires paid <= load
    ensures (load % U32 - paid) % U32 == (load - paid) % U32
  {
  }

  function Ticked(s: State): State
  {
    s.(timer := Some(PassingTime), actionLeft := if s.actionLeft > 0 then s.actionLeft - 1
        else 0, overallTime := (s.overallTime - 1) % U32)
  }

  lemma TickKeeps(s: State)
    requires Inv(s) && s.tasks != [] && s.tasks[0] == Expired(PassingTime) && s.actionLeft > 1
    ensures Inv(PassTime(Popped(s)))
  {
    hide Inv, PassTime, PhaseOf;
    TickPhase(s);
    DurationBound(s);
    TickEquation(Popped(s));
    TickedKeeps(s);
  }

  lemma TickPhase(s: State)
    requires Inv(s) && s.tasks != [] && s.tasks[0] == Expired(PassingTime)
    ensures PhaseOf(s) == Cooking(PassingTime) && s.timer.None?
  {
    hide DishOk, LoadOk, OrdersOk, TasksOk, WellFormed, ModeOk;
    assert Control(s.tasks)[0] == s.tasks[0];
  }

  lemma TickEquation(s: State)
    requires s.timer.None? && 1 < s.actionLeft < U64
    ensures PassTime(s) == Ticked(s)
  {
    hide ActionPerformed;
  }

  lemma TickedKeeps(s: State)
    requires Inv(s) && s.tasks != [] && s.tasks[0] == Expired(PassingTime) && s.actionLeft > 1
    ensures Inv(Ticked(Popped(s)))
  {
    hide DishParts, Control, Cost, LastTool, Prefix, PrefixLength, OrdersWork, OrdersOk, TasksOk, WellFormed, LoadOk,
         Load, Work;
    PopControl(s);
    var s' := Ticked(Popped(s));
    assert PhaseOf(s') == PhaseOf(s) == Cooking(PassingTime);
    TickPaid(s, s');
  }

  lemma TickPaid(s: State, s': State)
    requires DishOk(s) && LoadOk(s) && PhaseOf(s) == PhaseOf(s') == Cooking(PassingTime) && s.actionLeft > 1
    requires s'.actionLeft == s.actionLeft - 1 && s'.overallTime == (s.overallTime - 1) % U32
    requires s'.lastTool == s.lastTool
    requires s'.tool == s.tool && s'.caps == s.caps && s'.inProcess == s.inProcess && s'.orders == s.orders
    ensures LoadOk(s')
  {
    hide PhaseOf, DishOk, Cost, LastTool, Prefix, OrdersWork;
    FrontOfWork(s);
    assert Work(s') == Work(s);
    PaidModulo(Load(s), 1);
  }

  lemma DurationBound(s: State)
    requires Inv(s) && PhaseOf(s) == Cooking(PassingTime)
    ensures 0 < s.actionLeft < U64
  {
    hide Control, Cost, LastTool, Prefix, PrefixLength, OrdersWork, OrdersOk, TasksOk, PhaseOf;
    assert s.inProcess[0] == s.recipes[s.recipe][s.overallProcessed];
  }

  lemma DishTick(s: State)
    requires DishInProcess(s) && s.inProcess != [] && s.inProcess[0].name in s.caps
    ensures DishParts(s.recipes, s.caps, s.recipe, s.overallProcessed + 1, s.overallProcessing,
                      s.processed + 1, s.processable, s.inProcess[1..])
  {
    PrefixTail(s.caps, s.inProcess);
    hide PrefixLength;
    assert s.overallProcessed + 1 - (s.processed + 1) == s.overallProcessed - s.processed;
  }

  lemma LastTickKeeps(s: State)
    requires Inv(s) && s.tasks != [] && s.tasks[0] == Expired(PassingTime) && s.actionLeft == 1
    ensures Inv(PassTime(Popped(s)))
  {
    hide DishParts, Control, Cost, LastTool, Prefix, PrefixLength, OrdersWork, OrdersOk, TasksOk, WellFormed,
         DetermineNextAction, CookNext;
    PopControl(s);
    assert PhaseOf(s) == Cooking(PassingTime);
    FrontOfWork(s);
    PrefixTail(s.caps, s.inProcess);
    LastToolTail(s.tool, Work(s));
    assert Work(s)[1..] == Prefix(s.caps, s.inProcess[1..]) + OrdersWork(s.caps, s.orders);
    DishTick(s);
    DetermineKeeps(Popped(s).(overallTime := (s.overallTime - 1) % U32, actionLeft := 0,
      overallProcessed := s.overallProcessed + 1, processed := s.processed + 1, inProcess := s.inProcess[1..]));
  }

  // ------------------------------------------------------------------ reconfiguration

  lemma EnqueueOwes(s: State, recipe: nat, steps: nat)
    requires Sound(s) && Owes(s, OrdersWork(s.caps, s.orders))
    requires recipe in s.recipes && steps < |s.recipes[recipe]|
    ensures var s' := Enqueue(s, recipe, steps); Sound(s') && Owes(s', OrdersWork(s'.caps, s'.orders))
  {
    hide Control, Cost, LastTool, Prefix, PrefixLength, OrdersWork, TasksOk, WellFormed;
    var actions := s.recipes[recipe][steps..];
    var o := Order(recipe, steps, |s.recipes[recipe]|, |Prefix(s.caps, actions)|, actions);
    PrefixSize(s.caps, actions);
    OrdersWorkAppend(s.caps, s.orders, o);
    OrdersOkAppend(s.recipes, s.caps, s.orders, o);
    CostSplit(s.tool, OrdersWork(s.caps, s.orders), Prefix(s.caps, actions));
  }

  lemma PrefixSize(caps: set<string>, actions: seq<Action>)
    ensures |Prefix(caps, actions)| == PrefixLength(caps, actions)
  {
  }

  lemma {:induction false} RecostKeeps(s: State, orders: seq<Order>)
    requires Sound(s) && Owes(s, OrdersWork(s.caps, s.orders))
    requires forall o :: o in orders ==> o.recipe in s.recipes && o.processedSteps < |s.recipes[o.recipe]|
    ensures var r := Recost(s, orders);
            && Sound(r) && Owes(r, OrdersWork(r.caps, r.orders))
            && r == s.(orders := r.orders, overallTime := r.overallTime, lastTool := r.lastTool)
            && |r.orders| == |s.orders| + |orders|
            && (forall i :: 0 <= i < |s.orders| ==> r.orders[i] == s.orders[i])
            && (forall i :: 0 <= i < |orders| ==> SameDish(r.orders[|s.orders| + i], orders[i]))
    decreases |orders|
  {
    hide Sound, Owes, OrdersWork, Prefix, Cost, LastTool;
    if orders != [] {
      var s1 := Enqueue(s, orders[0].recipe, orders[0].processedSteps);
      EnqueueOwes(s, orders[0].recipe, orders[0].processedSteps);
      RecostKeeps(s1, orders[1..]);
      var r := Recost(s, orders);
      assert r.orders[|s.orders|] == s1.orders[|s.orders|];
      forall i | 0 <= i < |orders| ensures SameDish(r.orders[|s.orders| + i], orders[i]) {
        if i > 0 { assert orders[i] == orders[1..][i - 1]; }
      }
    }
  }

  /** The same dish at the same stage, possibly costed under other capabilities. */
  predicate SameDish(a: Order, b: Order) { a.recipe == b.recipe && a.processedSteps == b.processedSteps }

  lemma ReconfigureKeeps(s: State, pick: Tool)
    requires Inv(s) && s.tasks != [] && s.tasks[0] == Expired(Reconfiguring)
    requires s.preparing || s.orders == []
    ensures Inv(CompleteReconfiguration(Popped(s), pick))
  {
    hide DishParts, Control, Cost, LastTool, Prefix, PrefixLength, OrdersOk, TasksOk, WellFormed, CookNext, Recost,
         LoadOk, OrdersWork, KnownOrders;
    PopControl(s);
    KnownByInv(s);
    assert KnownOrders(Popped(s)) by { SameKnown(s); }
    assert PhaseOf(s).Refitting?;
    var base := Popped(s).(caps := s.newCaps, newCaps := {}, tool := pick, lastTool := pick, overallTime := 0,
        orders := []);
    FreshLoad(base);
    RecostKeeps(base, s.orders);
    var r := Recost(base, s.orders);
    CookNextKeeps(r.(reconfiguring := false, mode := AVAILABLE, available := true));
  }

  lemma SameKnown(s: State)
    requires s.tasks != [] && KnownOrders(s)
    ensures KnownOrders(Popped(s))
  {
  }

  lemma KnownByInv(s: State)
    requires OrdersOk(s.recipes, s.caps, s.orders)
    ensures KnownOrders(s)
    ensures forall o :: o in s.orders ==> o.recipe in s.recipes && o.processedSteps < |s.recipes[o.recipe]|
  {
    hide PrefixLength;
  }

  lemma FreshLoad(s: State)
    requires s.orders == [] && s.overallTime == 0 && s.lastTool == s.tool
    ensures Owes(s, OrdersWork(s.caps, s.orders)) && OrdersOk(s.recipes, s.caps, s.orders)
  {
  }
}
