/** A robot is a FIFO of dishes, and every visit performs the maximal stretch the robot is capable of. */
module RobotFifo {
  import opened Basics
  import opened Recipes
  import opened Robot
  import opened RobotInvariant
  import opened RobotSteps
  import opened RobotRuns

  /** A dish at a robot: its recipe and the steps that were done when it arrived. */
  datatype Ticket = Ticket(recipe: nat, steps: nat)

  function OrderTickets(orders: seq<Order>): seq<Ticket>
  {
    if orders == [] then [] else [Ticket(orders[0].recipe, orders[0].processedSteps)] + OrderTickets(orders[1..])
  }

  function TaskTicket(t: Task): seq<Ticket>
  {
    if t.ReceiveTask? then [Ticket(t.recipe, t.steps)] else []
  }

  function TaskTickets(tasks: seq<Task>): seq<Ticket>
  {
    if tasks == [] then [] else TaskTicket(tasks[0]) + TaskTickets(tasks[1..])
  }

  function DishTicket(s: State): seq<Ticket>
  {
    if s.recipe == 0 then []
    else [Ticket(s.recipe, if s.processed <= s.overallProcessed then s.overallProcessed - s.processed else 0)]
  }

  /** All dishes at the robot, oldest first: in process, queued, and accepted but not yet handled. */
  function Backlog(s: State): seq<Ticket>
  {
    DishTicket(s) + OrderTickets(s.orders) + TaskTickets(s.tasks)
  }

  function Accepted(s: State, e: Event): seq<Ticket>
  {
    if s.fault.NoFault? && e.ReceiveTaskEvent? && ReceiveTaskAccepts(s, e.recipe, e.steps, e.addressed)
    then [Ticket(e.recipe, e.steps)] else []
  }

  function HandedOver(s: State, e: Event): seq<Ticket>
  {
    if s.fault.NoFault? && e.HandoverEvent? && s.pickup then DishTicket(s) else []
  }

  lemma {:induction false} OrderTicketsAppend(orders: seq<Order>, o: Order)
    ensures OrderTickets(orders + [o]) == OrderTickets(orders) + [Ticket(o.recipe, o.processedSteps)]
  {
    if orders == [] {
      assert OrderTickets([o]) == [Ticket(o.recipe, o.processedSteps)] + OrderTickets([o][1..]);
    } else {
      assert (orders + [o])[1..] == orders[1..] + [o];
      OrderTicketsAppend(orders[1..], o);
    }
  }

  lemma {:induction false} TaskTicketsAppend(tasks: seq<Task>, t: Task)
    ensures TaskTickets(tasks + [t]) == TaskTickets(tasks) + TaskTicket(t)
  {
    hide TaskTicket;
    if tasks == [] {
      assert [t][1..] == [];
      assert TaskTickets([t]) == TaskTicket(t) + TaskTickets([]);
      assert tasks + [t] == [t];
    } else {
      assert (tasks + [t])[1..] == tasks[1..] + [t];
      TaskTicketsAppend(tasks[1..], t);
    }
  }

  lemma {:induction false} SameTickets(a: seq<Order>, b: seq<Order>)
    requires |a| == |b| && forall i :: 0 <= i < |a| ==> SameDish(a[i], b[i])
    ensures OrderTickets(a) == OrderTickets(b)
  {
    if a != [] {
      assert forall i :: 0 <= i < |a[1..]| ==> a[1..][i] == a[i + 1] && b[1..][i] == b[i + 1];
      SameTickets(a[1..], b[1..]);
    }
  }

  predicate SameDishes(s: State, s': State)
  {
    && s'.recipe == s.recipe && s'.processed == s.processed && s'.overallProcessed == s.overallProcessed
    && s'.orders == s.orders && s'.tasks == s.tasks
  }

  lemma ArmSame(s: State, w: Wait)
    ensures SameDishes(s, Arm(s, w))
  {
    var s' := Arm(s, w);
    if s.timer.Some? {
      assert s' == s.(fault := Aborted);
    } else {
      assert s' == s.(timer := Some(w));
    }
    assert s'.orders == s.orders && s'.tasks == s.tasks;
    assert s'.recipe == s.recipe && s'.processed == s.processed && s'.overallProcessed == s.overallProcessed;
  }

  /** Looking at the next action keeps the dish and the queues. */
  lemma DetermineSame(s: State)
    ensures SameDishes(s, DetermineNextAction(s))
  {
    hide Arm;
    ArmSame(s, Retooling);
    if s.inProcess != [] { ArmSame(s.(actionLeft := s.inProcess[0].duration), PassingTime); }
  }

  lemma SameDishesBacklog(s: State, s': State)
    requires SameDishes(s, s')
    ensures Backlog(s') == Backlog(s)
  {
    assert DishTicket(s') == DishTicket(s);
    hide DishTicket, OrderTickets, TaskTickets;
  }

  lemma DetermineBacklog(s: State)
    ensures Backlog(DetermineNextAction(s)) == Backlog(s)
  {
    hide DetermineNextAction, Backlog, SameDishes;
    DetermineSame(s);
    SameDishesBacklog(s, DetermineNextAction(s));
  }

  lemma NextDishBacklog(s: State, s1: State)
    requires DishTicket(s) == [] && s.orders != [] && s1.orders == s.orders[1..] && s1.tasks == s.tasks
    requires DishTicket(s1) == [Ticket(s.orders[0].recipe, s.orders[0].processedSteps)]
    ensures Backlog(s1) == Backlog(s)
  {
    var one := DishTicket(s1);
    assert OrderTickets(s.orders) == one + OrderTickets(s.orders[1..]);
    hide DishTicket, OrderTickets, TaskTickets;
  }

  lemma RestSame(s: State)
    requires s.mode.AVAILABLE? ==> s.orders == []
    ensures SameDishes(s, CookNext(s))
  {
    hide DetermineNextAction, HandleSwitchPosition, HandleReconfiguration;
    SwitchPositionSame(s);
    ReconfigurationSame(s);
  }

  lemma CookNextBacklog(s: State)
    requires s.recipe == 0 && s.processed == 0
    requires forall i :: 0 <= i < |s.orders| ==> s.orders[i].recipe != 0
    ensures Backlog(CookNext(s)) == Backlog(s)
  {
    hide DetermineNextAction, OrderTickets, TaskTickets, Backlog;
    if s.mode.AVAILABLE? && s.orders != [] {
      var o := s.orders[0];
      var s1 := s.(preparing := true, orders := s.orders[1..], recipe := o.recipe, inProcess := o.actions,
                   overallProcessed := o.processedSteps, overallProcessing := o.processingSteps,
                   processable := o.processableSteps);
      NextDishBacklog(s, s1);
      DetermineBacklog(s1);
    } else {
      RestSame(s);
      SameDishesBacklog(s, CookNext(s));
    }
  }

  lemma KnownRecipes(s: State)
    requires WellFormed(s.recipes) && OrdersOk(s.recipes, s.caps, s.orders)
    ensures forall i :: 0 <= i < |s.orders| ==> s.orders[i].recipe != 0 && s.orders[i].recipe in s.recipes
  {
    hide PrefixLength;
    forall i | 0 <= i < |s.orders| ensures s.orders[i].recipe != 0 && s.orders[i].recipe in s.recipes {
      assert OrderOk(s.recipes, s.caps, s.orders[i]);
    }
  }

  lemma EnqueueBacklog(s: State, recipe: nat, steps: nat)
    requires s.tasks != [] && s.tasks[0] == ReceiveTask(recipe, steps)
    requires recipe in s.recipes && steps <= |s.recipes[recipe]|
    ensures Backlog(Enqueue(Popped(s), recipe, steps)) == Backlog(s)
  {
    var s2 := Enqueue(Popped(s), recipe, steps);
    hide Cost, Prefix, LastTool;
    OrderTicketsAppend(s.orders, s2.orders[|s.orders|]);
    assert TaskTickets(s.tasks) == [Ticket(recipe, steps)] + TaskTickets(s.tasks[1..]);
    hide OrderTickets, TaskTickets;
  }

  lemma ReceiveBacklog(s: State)
    requires Inv(s) && s.tasks != [] && s.tasks[0].ReceiveTask?
    ensures Backlog(HandleReceiveTask(Popped(s), s.tasks[0].recipe, s.tasks[0].steps)) == Backlog(s)
  {
    hide Backlog, Control, PrefixLength, Prefix, Cost, LastTool, DishParts, LoadOk, OrdersOk, TasksOk, WellFormed;
    PopReceive(s);
    EnqueueBacklog(s, s.tasks[0].recipe, s.tasks[0].steps);
    EnqueueKeeps(Popped(s), s.tasks[0].recipe, s.tasks[0].steps);
    var s2 := Enqueue(Popped(s), s.tasks[0].recipe, s.tasks[0].steps);
    if !s2.preparing && !s2.rearranging && !s2.reconfiguring {
      assert PhaseOf(s2).Idle?;
      KnownRecipes(s2);
      CookNextBacklog(s2);
    }
  }

  lemma RecostBacklog(s: State, pick: Tool)
    requires Inv(s) && s.tasks != [] && s.tasks[0] == Expired(Reconfiguring)
    requires s.preparing || s.orders == []
    ensures Backlog(CompleteReconfiguration(Popped(s), pick)) == Backlog(s)
  {
    KnownByInv(s);
    SameKnown(s);
    hide KnownOrders, Control, Cost, LastTool, Prefix, PrefixLength, OrdersOk, TasksOk, WellFormed, CookNext, Recost,
         OrderTickets, OrdersWork, DishParts;
    PopControl(s);
    assert PhaseOf(s).Refitting?;
    var base := Popped(s).(caps := s.newCaps, newCaps := {}, tool := pick, lastTool := pick, overallTime := 0,
        orders := []);
    FreshLoad(base);
    RecostKeeps(base, s.orders);
    var r := Recost(base, s.orders);
    SameTickets(r.orders, s.orders);
    KnownRecipes(r);
    assert TaskTickets(s.tasks) ==
        TaskTickets(s.tasks[1..]) by { assert [] + TaskTickets(s.tasks[1..]) == TaskTickets(s.tasks[1..]); }
    hide TaskTickets;
    CookNextBacklog(r.(reconfiguring := false, mode := AVAILABLE, available := true));
  }

  lemma PopBacklog(s: State)
    requires s.tasks != [] && !s.tasks[0].ReceiveTask?
    ensures Backlog(Popped(s)) == Backlog(s)
  {
    assert TaskTickets(s.tasks) == [] + TaskTickets(s.tasks[1..]);
    assert DishTicket(Popped(s)) == DishTicket(s);
    hide DishTicket, OrderTickets, TaskTickets;
  }

  lemma NoDishQueued(s: State)
    requires Inv(s) && s.tasks != [] && (s.tasks[0].CookNextOrder? || s.tasks[0].CommitPosition?)
    ensures s.recipe == 0 && s.processed == 0
  {
    hide DishParts, OrdersOk, TasksOk, WellFormed, LoadOk, ModeOk;
    assert Control(s.tasks)[0] == s.tasks[0];
  }

  lemma CookTaskBacklog(s: State)
    requires Inv(s) && s.tasks != [] && s.tasks[0].CookNextOrder?
    ensures Backlog(CookNext(Popped(s))) == Backlog(s)
  {
    NoDishQueued(s);
    KnownRecipes(s);
    PopBacklog(s);
    hide Backlog, Control, PrefixLength, Prefix, Cost, LastTool, DishParts, LoadOk, OrdersOk, TasksOk, WellFormed,
         CookNext;
    CookNextBacklog(Popped(s));
  }

  lemma CommitTaskBacklog(s: State)
    requires Inv(s) && s.tasks != [] && s.tasks[0].CommitPosition?
    ensures Backlog(HandleNewPositionCommit(Popped(s))) == Backlog(s)
  {
    NoDishQueued(s);
    KnownRecipes(s);
    PopBacklog(s);
    hide Inv, Backlog, CookNext;
    var s1 := Popped(s).(rearranging := false, commitPending := false, mode := AVAILABLE, available := true);
    SameDishesBacklog(Popped(s), s1);
    CookNextBacklog(s1);
  }

  /** A dish keeps its ticket: every step done here counts once in each of the two step counters. */
  lemma TickBacklog(s: State, s': State)
    requires s'.recipe == s.recipe && s'.orders == s.orders && s'.tasks == s.tasks
    requires s.processed <= s.overallProcessed
    requires s'.processed == s.processed + 1 && s'.overallProcessed == s.overallProcessed + 1
    ensures Backlog(s') == Backlog(s)
  {
    assert DishTicket(s') == DishTicket(s);
    hide DishTicket, OrderTickets, TaskTickets;
  }

  lemma MidTickBacklog(s: State)
    requires s.tasks != [] && s.tasks[0] == Expired(PassingTime) && s.timer.None? && 1 < s.actionLeft < U64
    ensures Backlog(PassTime(Popped(s))) == Backlog(s)
  {
    PopBacklog(s);
    TickEquation(Popped(s));
    hide Backlog, PassTime;
    SameDishesBacklog(Popped(s), Ticked(Popped(s)));
  }

  /** The state in which a robot that has finished an action looks at the next one. */
  function Counted(s: State): State
    requires s.inProcess != []
  {
    s.(overallTime := (s.overallTime - 1) % U32, actionLeft := 0, overallProcessed := s.overallProcessed + 1,
       processed := s.processed + 1, inProcess := s.inProcess[1..])
  }

  lemma LastTickCounts(s: State)
    requires s.inProcess != [] && s.actionLeft == 1
    ensures PassTime(s) == DetermineNextAction(Counted(s))
  {
    hide DetermineNextAction;
  }

  lemma CountedBacklog(s: State)
    requires s.inProcess != [] && s.processed <= s.overallProcessed
    ensures Backlog(Counted(s)) == Backlog(s)
  {
    hide Backlog;
    TickBacklog(s, Counted(s));
  }

  lemma LastTickBacklog(s: State)
    requires s.tasks != [] && s.tasks[0] == Expired(PassingTime) && s.actionLeft == 1
    requires s.inProcess != [] && s.processed <= s.overallProcessed
    ensures Backlog(PassTime(Popped(s))) == Backlog(s)
  {
    PopBacklog(s);
    hide Backlog, DetermineNextAction, PassTime, Counted;
    LastTickCounts(Popped(s));
    CountedBacklog(Popped(s));
    DetermineBacklog(Counted(Popped(s)));
  }

  lemma CookingDish(s: State)
    requires Inv(s) && PhaseOf(s).Cooking?
    ensures s.inProcess != [] && s.processed <= s.overallProcessed
  {
    hide Control, PrefixLength, OrdersOk, TasksOk, WellFormed, LoadOk, ModeOk, Exclusive, PhaseOf;
  }

  lemma PassTimeBacklog(s: State)
    requires Inv(s) && s.tasks != [] && s.tasks[0] == Expired(PassingTime)
    ensures Backlog(PassTime(Popped(s))) == Backlog(s)
  {
    TickPhase(s);
    DurationBound(s);
    CookingDish(s);
    hide Inv, Backlog, PassTime, PhaseOf;
    if s.actionLeft > 1 { MidTickBacklog(s); } else { LastTickBacklog(s); }
  }

  function Retooled(s: State): State
    requires s.inProcess != []
  {
    s.(tool := s.inProcess[0].tool, overallTime := (s.overallTime - RETOOLING_TIME) % U32)
  }

  lemma RetooledSame(s: State)
    requires s.inProcess != []
    ensures SameDishes(s, Retooled(s)) && Retool(s) == DetermineNextAction(Retooled(s))
  {
    hide DetermineNextAction;
    assert Retooled(s).orders == s.orders && Retooled(s).tasks == s.tasks;
  }

  lemma RetoolBacklog(s: State)
    requires Inv(s) && s.tasks != [] && s.tasks[0] == Expired(Retooling)
    ensures Backlog(Retool(Popped(s))) == Backlog(s)
  {
    PopBacklog(s);
    RetoolPhase(s);
    CookingDish(s);
    hide Inv, Backlog, DetermineNextAction, PhaseOf, Retool, Retooled, SameDishes;
    RetooledSame(Popped(s));
    SameDishesBacklog(Popped(s), Retooled(Popped(s)));
    DetermineBacklog(Retooled(Popped(s)));
  }

  lemma RetoolPhase(s: State)
    requires Inv(s) && s.tasks != [] && s.tasks[0] == Expired(Retooling)
    ensures PhaseOf(s) == Cooking(Retooling)
  {
    hide DishOk, LoadOk, OrdersOk, TasksOk, WellFormed, ModeOk;
    assert Control(s.tasks)[0] == s.tasks[0];
  }

  lemma AdaptTaskBacklog(s: State, pick: Tool)
    requires s.tasks != [] && (IsRequest(s.tasks[0]) || s.tasks[0] == Expired(Moving))
    ensures Backlog(HandleTask(Popped(s), s.tasks[0], pick)) == Backlog(s)
  {
    PopBacklog(s);
    AdaptTaskSame(s, pick);
    hide Backlog, HandleTask, SameDishes;
    SameDishesBacklog(Popped(s), HandleTask(Popped(s), s.tasks[0], pick));
  }

  lemma SwitchPositionSame(s: State)
    ensures SameDishes(s, HandleSwitchPosition(s))
  {
    ArmSame(s.(rearranging := true), Moving);
    hide Arm;
  }

  lemma ReconfigurationSame(s: State)
    ensures SameDishes(s, HandleReconfiguration(s))
  {
    ArmSame(s.(reconfiguring := true), Reconfiguring);
    hide Arm;
  }

  lemma AdaptTaskSame(s: State, pick: Tool)
    requires s.tasks != [] && (IsRequest(s.tasks[0]) || s.tasks[0] == Expired(Moving))
    ensures SameDishes(Popped(s), HandleTask(Popped(s), s.tasks[0], pick))
  {
    hide HandleSwitchPosition, HandleReconfiguration;
    var s1 := Popped(s);
    var s2 := HandleTask(s1, s.tasks[0], pick);
    if s.tasks[0].SwitchPosition? {
      SwitchPositionSame(s1.(target := s.tasks[0].target));
    } else {
      ReconfigurationSame(s1);
    }
    assert s2.orders == s1.orders && s2.tasks == s1.tasks;
  }

  lemma TaskBacklog(s: State, pick: Tool)
    requires Inv(s) && s.tasks != [] && !Deadlocks(s, RunTask(pick))
    ensures Backlog(HandleTask(Popped(s), s.tasks[0], pick)) == Backlog(s)
  {
    hide Inv, Backlog, HandleReceiveTask, CookNext, HandleNewPositionCommit, CompleteReconfiguration,
         MoveToNewPosition, PassTime, Retool, HandleSwitchPosition, HandleReconfiguration;
    match s.tasks[0]
    case ReceiveTask(_, _) => ReceiveBacklog(s);
    case CookNextOrder => CookTaskBacklog(s);
    case SwitchPosition(_) => AdaptTaskBacklog(s, pick);
    case CommitPosition => CommitTaskBacklog(s);
    case StartReconfiguration => AdaptTaskBacklog(s, pick);
    case Expired(w) =>
      match w
      case Retooling => RetoolBacklog(s);
      case PassingTime => PassTimeBacklog(s);
      case Moving => AdaptTaskBacklog(s, pick);
      case Reconfiguring => RecostBacklog(s, pick);
  }

  // ------------------------------------------------------------------ calls

  lemma PostBacklog(s: State, t: Task)
    ensures Backlog(Post(s, t)) == Backlog(s) + TaskTicket(t)
  {
    TaskTicketsAppend(s.tasks, t);
    assert DishTicket(Post(s, t)) == DishTicket(s);
    hide DishTicket, OrderTickets, TaskTickets, TaskTicket;
  }

  function Cleared(s: State): State
  {
    s.(pickup := false, finished := false, processed := 0, processable := 0, overallProcessed := 0,
       overallProcessing := 0, recipe := 0)
  }

  lemma ClearedBacklog(s: State)
    ensures DishTicket(s) + Backlog(Cleared(s)) == Backlog(s)
    ensures s.pickup ==> HandoverCall(s) == Post(Cleared(s), CookNextOrder)
  {
    assert Cleared(s).orders == s.orders && Cleared(s).tasks == s.tasks;
    assert DishTicket(Cleared(s)) == [];
    hide DishTicket, OrderTickets, TaskTickets;
  }

  lemma HandoverBacklog(s: State)
    requires s.fault.NoFault?
    ensures HandedOver(s, HandoverEvent) + Backlog(HandoverCall(s)) == Backlog(s)
  {
    ClearedBacklog(s);
    PostBacklog(Cleared(s), CookNextOrder);
    hide Backlog, DishTicket, Post, Cleared;
    assert [] + Backlog(s) == Backlog(s);
    assert Backlog(Cleared(s)) + [] == Backlog(Cleared(s));
  }

  lemma CallBacklog(s: State, e: Event)
    requires s.fault.NoFault? && !e.HandoverEvent? && !e.RunTask? && Admissible(s, e)
    ensures Backlog(Step(s, e)) == Backlog(s) + Accepted(s, e)
  {
    hide Backlog, PrefixLength;
    assert Backlog(s) + [] == Backlog(s);
    match e
    case ReceiveTaskEvent(recipe, steps, addressed) => PostBacklog(s, ReceiveTask(recipe, steps));
    case SwitchEvent(p) =>
      var s1 := s.(mode := REARRANGING, available := false);
      SameDishesBacklog(s, s1);
      PostBacklog(s1, SwitchPosition(p));
    case CommitEvent => PostBacklog(s, CommitPosition);
    case ReconfigureEvent(caps) =>
      var s1 := s.(mode := RECONFIGURING, available := false, newCaps := caps);
      SameDishesBacklog(s, s1);
      PostBacklog(s1, StartReconfiguration);
    case TimerExpires =>
      if s.timer.Some? {
        SameDishesBacklog(s, s.(timer := None));
        PostBacklog(s.(timer := None), Expired(s.timer.value));
      }
  }

  /** Every step appends the dish it accepts to the back of the backlog and takes the dish it hands over
      from its front; nothing else is lost, duplicated or reordered. */
  lemma StepBacklog(s: State, e: Event)
    requires Inv(s) && Admissible(s, e)
    ensures HandedOver(s, e) + Backlog(Step(s, e)) == Backlog(s) + Accepted(s, e)
  {
    NoFaultYet(s);
    hide Inv, Backlog;
    assert [] + Backlog(Step(s, e)) == Backlog(Step(s, e));
    assert Backlog(s) + [] == Backlog(s);
    if e.HandoverEvent? {
      HandoverBacklog(s);
    } else if e.RunTask? {
      if s.tasks != [] {
        if Deadlocks(s, e) {
          HangsExactly(s, e.pick);
          PopBacklog(s);
          SameDishesBacklog(Popped(s), Step(s, e));
        } else {
          hide HandleTask, Deadlocks;
          TaskBacklog(s, e.pick);
        }
      }
    } else {
      hide Step, Admissible;
      CallBacklog(s, e);
    }
  }

  function AllAccepted(s: State, events: seq<Event>): seq<Ticket>
    decreases |events|
  {
    if events == [] then [] else Accepted(s, events[0]) + AllAccepted(Step(s, events[0]), events[1..])
  }

  function AllHandedOver(s: State, events: seq<Event>): seq<Ticket>
    decreases |events|
  {
    if events == [] then [] else HandedOver(s, events[0]) + AllHandedOver(Step(s, events[0]), events[1..])
  }

  lemma {:induction false} NothingAfterFault(s: State, events: seq<Event>)
    requires !s.fault.NoFault?
    ensures AllAccepted(s, events) == AllHandedOver(s, events) == [] && Run(s, events) == s
    decreases |events|
  {
    if events != [] { NothingAfterFault(s, events[1..]); }
  }

  /** First in, first out, over whole runs: what was at the robot and what it accepted since, in order,
      is what it has handed over, in order, followed by what is still there. */
  lemma {:induction false} RunIsFifo(s: State, events: seq<Event>)
    requires Inv(s) && AllAdmissible(s, events)
    ensures AllHandedOver(s, events) + Backlog(Run(s, events)) == Backlog(s) + AllAccepted(s, events)
    decreases |events|
  {
    if events != [] {
      var e, s1 := events[0], Step(s, events[0]);
      StepKeeps(s, e);
      StepBacklog(s, e);
      if Deadlocks(s, e) {
        NothingAfterFault(s1, events[1..]);
      } else {
        RunIsFifo(s1, events[1..]);
      }
      hide Inv, Step, Deadlocks, Backlog, Accepted, HandedOver;
      RegroupRun(HandedOver(s, e), AllHandedOver(s1, events[1..]), Backlog(Run(s1, events[1..])),
                 Backlog(s), Accepted(s, e), AllAccepted(s1, events[1..]), Backlog(s1));
    }
  }

  lemma RegroupRun(h: seq<Ticket>, hs: seq<Ticket>, last: seq<Ticket>, b: seq<Ticket>, a: seq<Ticket>,
                   more: seq<Ticket>, mid: seq<Ticket>)
    requires h + mid == b + a && hs + last == mid + more
    ensures (h + hs) + last == b + (a + more)
  {
    assert (h + hs) + last == h + (hs + last);
    assert h + (mid + more) == (h + mid) + more;
    assert (b + a) + more == b + (a + more);
  }

  // ------------------------------------------------------------------ what a visit does

  /** A dish that waits for its pickup has seen the maximal stretch of its recipe that the robot is capable
      of, counted from the step it arrived with, and is called finished exactly when none is left. */
  lemma HandoverReports(s: State)
    requires Inv(s) && s.pickup
    ensures |HandedOver(s, HandoverEvent)| == 1
    ensures var reply, t := HandoverReply(s), HandedOver(s, HandoverEvent)[0];
            && t.recipe in s.recipes && t.steps <= |s.recipes[t.recipe]|
            && reply.position == s.position && reply.recipe == t.recipe
            && reply.steps == t.steps + PrefixLength(s.caps, s.recipes[t.recipe][t.steps..])
            && (reply.finished <==> reply.steps == |s.recipes[t.recipe]|)
  {
    NoFaultYet(s);
    assert s.recipe != 0 by { PickupDish(s); }
    PickupDish(s);
    hide Inv;
    assert DishTicket(s) == [Ticket(s.recipe, s.overallProcessed - s.processed)];
  }

  /** A dish is handed over once: afterwards nothing of it is published any more, the next order is due, and whoever
      asks again gets nothing. Asking a robot without a finished dish changes nothing. */
  lemma HandedOverOnce(s: State)
    requires Inv(s)
    ensures var s' := Step(s, HandoverEvent);
            && HandoverReply(s') == Dish(s.position, 0, 0, false) && !s'.pickup
            && (!s.pickup ==> s' == s)
            && (s.pickup ==>
                  && s'.recipe == s'.processed == s'.processable == s'.overallProcessed == s'.overallProcessing == 0
                  && !s'.finished && s'.tasks == s.tasks + [CookNextOrder])
  {
    NoFaultYet(s);
    hide Inv;
  }

  lemma PickupDish(s: State)
    requires Inv(s) && s.pickup
    ensures s.recipe != 0 && DishInProcess(s) && PrefixLength(s.caps, s.inProcess) == 0
    ensures s.finished <==> s.inProcess == []
  {
    hide Control, PrefixLength, OrdersOk, TasksOk, LoadOk, ModeOk, Exclusive;
  }
}
