/** The robot as it runs: its queues, attributes and flags are updated in place. Every handler is proved
    against the step function of the model. */
module RobotAgent {
  import opened Basics
  import opened Recipes
  import opened Robot

  lemma PrefixLengthIs(caps: set<string>, actions: seq<Action>, n: nat)
    requires n <= |actions| && (forall i :: 0 <= i < n ==> actions[i].name in caps)
    requires n < |actions| ==> actions[n].name !in caps
    ensures PrefixLength(caps, actions) == n
  {
  }

  lemma CostNext(tool: Tool, actions: seq<Action>, n: nat)
    requires n < |actions|
    ensures var last := LastTool(tool, actions[..n]);
            && Cost(tool, actions[..n + 1]) ==
               Cost(tool, actions[..n]) + RetoolCost(last, actions[n].tool) + actions[n].duration
            && LastTool(tool, actions[..n + 1]) == actions[n].tool
  {
    CostSplit(tool, actions[..n], [actions[n]]);
    assert actions[..n + 1] == actions[..n] + [actions[n]];
    assert Cost(LastTool(tool, actions[..n]), [actions[n]]) ==
        RetoolCost(LastTool(tool, actions[..n]), actions[n].tool) + actions[n].duration + Cost(actions[n].tool, []);
  }

  class Agent {
    const recipes: RecipeBook
    const conveyorSize: nat
    var position: nat
    var tool: Tool
    var orders: seq<Order>
    var actionLeft: nat
    var inProcess: seq<Action>
    var preparing: bool
    var rearranging: bool
    var reconfiguring: bool
    var finished: bool
    var pickup: bool
    var mode: Mode
    var target: nat
    var newCaps: set<string>
    var caps: set<string>
    var recipe: nat
    var overallTime: nat
    var lastTool: Tool
    var processed: nat
    var processable: nat
    var overallProcessed: nat
    var overallProcessing: nat
    var available: bool
    var commitPending: bool
    var tasks: seq<Task>
    var timer: Option<Wait>
    var fault: Fault

    ghost function Abs(): State
      reads this
    {
      State(recipes, conveyorSize, position, tool, orders, actionLeft, inProcess, preparing, rearranging, reconfiguring,
            finished, pickup, mode, target, newCaps, caps, recipe, overallTime, lastTool, processed, processable,
            overallProcessed, overallProcessing, available, commitPending, tasks, timer, fault)
    }

    constructor (book: RecipeBook, size: nat, at: nat, capabilities: set<string>, pick: Tool)
      ensures Abs() == Initial(book, size, at, capabilities, pick)
    {
      recipes, conveyorSize, position, tool, lastTool, caps := book, size, at, pick, pick, capabilities;
      orders, tasks, inProcess, timer, fault, newCaps := [], [], [], None, NoFault, {};
      preparing, rearranging, reconfiguring, finished, pickup, commitPending := false, false, false, false, false,
          false;
      mode, available, target, actionLeft, recipe, overallTime := AVAILABLE, true, 0, 0, 0, 0;
      processed, processable, overallProcessed, overallProcessing := 0, 0, 0, 0;
    }

    method ArmTimer(w: Wait)
      modifies this`timer, this`fault
      ensures Abs() == Arm(old(Abs()), w)
    {
      if timer.Some? { fault := Aborted; } else { timer := Some(w); }
    }

    method StartMove()
      modifies this`rearranging, this`timer, this`fault
      ensures Abs() == HandleSwitchPosition(old(Abs()))
    {
      hide Arm;
      if rearranging { return; }
      rearranging := true;
      assert Abs() == old(Abs()).(rearranging := true);
      ArmTimer(Moving);
    }

    method StartReconfiguring()
      modifies this`reconfiguring, this`timer, this`fault
      ensures Abs() == HandleReconfiguration(old(Abs()))
    {
      hide Arm;
      if reconfiguring { return; }
      reconfiguring := true;
      assert Abs() == old(Abs()).(reconfiguring := true);
      ArmTimer(Reconfiguring);
    }

    /** Looks at the next action of the dish: hand the dish over, retool, or perform it. */
    method NextAction()
      modifies this`finished, this`pickup, this`actionLeft, this`timer, this`fault
      ensures Abs() == DetermineNextAction(old(Abs()))
    {
      hide Arm;
      if inProcess != [] {
        var action := inProcess[0];
        if action.name !in caps {
          finished := false;
          pickup := true;
        } else if action.tool != tool {
          ArmTimer(Retooling);
        } else {
          actionLeft := action.duration;
          assert Abs() == old(Abs()).(actionLeft := action.duration);
          ArmTimer(PassingTime);
        }
      } else {
        finished := true;
        pickup := true;
      }
    }

    method TakeOrder() returns (o: Order)
      requires orders != []
      modifies this`preparing, this`orders, this`inProcess
      ensures o == old(orders)[0]
      ensures Abs() == old(Abs()).(preparing := true, orders := old(orders)[1..], inProcess := o.actions)
    {
      preparing := true;
      o := orders[0];
      orders := orders[1..];
      inProcess := o.actions;
    }

    method PublishSteps(o: Order)
      modifies this`overallProcessed, this`overallProcessing, this`processable
      ensures Abs() == old(Abs()).(overallProcessed := o.processedSteps, overallProcessing := o.processingSteps,
                                   processable := o.processableSteps)
    {
      overallProcessed := o.processedSteps;
      overallProcessing := o.processingSteps;
      processable := o.processableSteps;
    }

    method CookNextOrder()
      modifies this
      ensures Abs() == CookNext(old(Abs()))
    {
      CookNextCases(Abs());
      hide HandleSwitchPosition, HandleReconfiguration, DetermineNextAction, CookNext;
      if mode == REARRANGING { StartMove(); return; }
      if mode == RECONFIGURING { StartReconfiguring(); return; }
      if orders == [] { preparing := false; return; }
      var o := TakeOrder();
      recipe := o.recipe;
      PublishSteps(o);
      NextAction();
    }

    /** Adds the cost of the leading actions the robot is capable of to the published load. */
    method ComputeOverallTime(actions: seq<Action>) returns (steps: nat)
      requires overallTime < U32
      modifies this`overallTime, this`lastTool
      ensures steps == |Prefix(caps, actions)|
      ensures overallTime == (old(overallTime) + Cost(old(lastTool), Prefix(caps, actions))) % U32
      ensures lastTool == LastTool(old(lastTool), Prefix(caps, actions))
    {
      hide Cost, LastTool, PrefixLength;
      steps := 0;
      var time, last := overallTime, lastTool;
      assert actions[..0] == [];
      NothingCosts(lastTool);
      while steps < |actions| && actions[steps].name in caps
        invariant overallTime == old(overallTime) && lastTool == old(lastTool)
        invariant steps <= |actions| && (forall i :: 0 <= i < steps ==> actions[i].name in caps)
        invariant last == LastTool(lastTool, actions[..steps])
        invariant time == (overallTime + Cost(lastTool, actions[..steps])) % U32
      {
        CostNext(lastTool, actions, steps);
        Accumulate(overallTime + Cost(lastTool, actions[..steps]), RetoolCost(last, actions[steps].tool),
                   actions[steps].duration);
        time := (time + (if last != actions[steps].tool then RETOOLING_TIME else 0)) % U32;
        time := (time + actions[steps].duration) % U32;
        last := actions[steps].tool;
        steps := steps + 1;
      }
      PrefixLengthIs(caps, actions, steps);
      assert Prefix(caps, actions) == actions[..steps];
      overallTime := time;
      lastTool := last;
    }

    /** Costs an order and queues it. */
    method EnqueueOrder(r: nat, steps: nat)
      requires overallTime < U32 && r in recipes && steps <= |recipes[r]|
      modifies this`orders, this`overallTime, this`lastTool
      ensures Abs() == Enqueue(old(Abs()), r, steps)
    {
      EnqueueIs(Abs(), r, steps);
      hide Cost, LastTool, Prefix, Enqueue;
      var actions := recipes[r][steps..];
      var processableSteps := ComputeOverallTime(actions);
      orders := orders + [Order(r, steps, |recipes[r]|, processableSteps, actions)];
    }

    method OnReceiveTask(r: nat, steps: nat)
      requires overallTime < U32
      modifies this
      ensures Abs() == HandleReceiveTask(old(Abs()), r, steps)
    {
      hide CookNext, Enqueue;
      if r !in recipes { return; }
      if steps > |recipes[r]| { fault := EmptyPop; return; }
      EnqueueOrder(r, steps);
      if !preparing { CookNextOrder(); }
    }

    method CountStep()
      requires inProcess != []
      modifies this`overallProcessed, this`processed, this`inProcess
      ensures Abs() == old(Abs()).(overallProcessed := old(overallProcessed) + 1, processed := old(processed) + 1,
                                   inProcess := old(inProcess)[1..])
    {
      overallProcessed := overallProcessed + 1;
      processed := processed + 1;
      inProcess := inProcess[1..];
    }

    method OnActionPerformed()
      modifies this
      ensures Abs() == ActionPerformed(old(Abs()))
    {
      hide DetermineNextAction;
      if inProcess == [] { fault := EmptyPop; return; }
      CountStep();
      NextAction();
    }

    method OnPassTime()
      modifies this
      ensures Abs() == PassTime(old(Abs()))
    {
      hide Arm, ActionPerformed;
      overallTime := (overallTime - 1) % U32;
      actionLeft := (actionLeft - 1) % U64;
      if actionLeft != 0 { ArmTimer(PassingTime); } else { OnActionPerformed(); }
    }

    method OnRetool()
      modifies this
      ensures Abs() == Retool(old(Abs()))
    {
      hide DetermineNextAction;
      if inProcess == [] { fault := EmptyPop; return; }
      tool := inProcess[0].tool;
      overallTime := (overallTime - RETOOLING_TIME) % U32;
      assert Abs() == old(Abs()).(tool := tool, overallTime := overallTime);
      NextAction();
    }

    method OnArrival()
      modifies this`commitPending, this`position, this`target
      ensures Abs() == MoveToNewPosition(old(Abs()))
    {
      commitPending := true;
      position := target;
      target := 0;
    }

    method BecomeAvailable()
      modifies this`mode, this`available
      ensures Abs() == old(Abs()).(mode := AVAILABLE, available := true)
    {
      mode := AVAILABLE;
      available := true;
    }

    method OnCommit()
      modifies this
      ensures Abs() == HandleNewPositionCommit(old(Abs()))
    {
      hide CookNext;
      rearranging := false;
      commitPending := false;
      BecomeAvailable();
      CookNextOrder();
    }

    method TakeCapabilities()
      modifies this`caps, this`newCaps
      ensures Abs() == old(Abs()).(caps := old(newCaps), newCaps := {})
    {
      caps := newCaps;
      newCaps := {};
    }

    method TakeTool(pick: Tool)
      modifies this`tool, this`lastTool, this`overallTime
      ensures Abs() == old(Abs()).(tool := pick, lastTool := pick, overallTime := 0)
    {
      tool := pick;
      lastTool := pick;
      overallTime := 0;
    }

    /** Queues the orders again, costed under the current capabilities. Queueing one while no dish is being
        prepared hangs the event loop. */
    method Requeue(all: seq<Order>) returns (hung: bool)
      requires AllKnown(Abs(), all) && overallTime < U32
      modifies this`orders, this`overallTime, this`lastTool, this`fault
      ensures hung <==> all != [] && !preparing
      ensures if hung then fault == Deadlocked else Abs() == Recost(old(Abs()), all)
    {
      hide Recost, Enqueue;
      var pending := all;
      while pending != []
        invariant overallTime < U32 && AllKnown(Abs(), pending) && Recost(Abs(), pending) == Recost(old(Abs()), all)
        invariant pending != all ==> preparing
      {
        var o := pending[0];
        RecostNext(Abs(), pending);
        pending := pending[1..];
        EnqueueOrder(o.recipe, o.processedSteps);
        if !preparing {
          fault := Deadlocked;
          return true;
        }
      }
      RecostNone(Abs());
      hung := false;
    }

    method TakeOrders() returns (taken: seq<Order>)
      modifies this`orders
      ensures taken == old(orders) && Abs() == old(Abs()).(orders := [])
    {
      taken := orders;
      orders := [];
    }

    method FinishReconfiguring()
      modifies this`reconfiguring
      ensures Abs() == old(Abs()).(reconfiguring := false)
    {
      reconfiguring := false;
    }

    method OnReconfigured(pick: Tool)
      requires KnownOrders(Abs())
      modifies this
      ensures old(orders) != [] && !old(preparing) ==> fault == Deadlocked
      ensures old(orders) == [] || old(preparing) ==> Abs() == CompleteReconfiguration(old(Abs()), pick)
    {
      hide CookNext, Recost, KnownOrders, CompleteReconfiguration, AllKnown;
      ghost var s := Abs();
      TakeCapabilities();
      TakeTool(pick);
      var pending := TakeOrders();
      Reconfigured(s, Abs(), pick);
      var hung := Requeue(pending);
      if hung { return; }
      FinishReconfiguring();
      BecomeAvailable();
      CookNextOrder();
    }

    // ---------------------------------------------------------------- calls

    method PostTask(t: Task)
      modifies this`tasks
      ensures Abs() == Post(old(Abs()), t)
    {
      tasks := tasks + [t];
    }

    method ReceiveTask(r: nat, steps: nat, addressed: nat) returns (at: nat, accepted: bool)
      modifies this`tasks, this`fault
      ensures at == position && accepted == ReceiveTaskAccepts(old(Abs()), r, steps, addressed)
      ensures Abs() == ReceiveTaskCall(old(Abs()), r, steps, addressed)
    {
      at := position;
      accepted := mode == AVAILABLE && addressed == position && r in recipes;
      if accepted {
        if steps >= |recipes[r]| { fault := EmptyPop; return at, false; }
        if recipes[r][steps].name !in caps { accepted := false; }
      }
      if accepted { PostTask(Task.ReceiveTask(r, steps)); }
    }

    method ResetSteps()
      modifies this`processed, this`processable
      ensures Abs() == old(Abs()).(processed := 0, processable := 0)
    {
      processed := 0;
      processable := 0;
    }

    method ResetDish()
      modifies this`recipe, this`overallProcessed, this`overallProcessing
      ensures Abs() == old(Abs()).(recipe := 0, overallProcessed := 0, overallProcessing := 0)
    {
      overallProcessed := 0;
      overallProcessing := 0;
      recipe := 0;
    }

    method GivePickup()
      modifies this`pickup, this`finished
      ensures Abs() == old(Abs()).(pickup := false, finished := false)
    {
      pickup := false;
      finished := false;
    }

    method HandoverFinishedOrder() returns (dish: Dish)
      modifies this
      ensures dish == HandoverReply(old(Abs())) && Abs() == HandoverCall(old(Abs()))
    {
      if !pickup { return Dish(position, 0, 0, false); }
      HandoverParts(Abs());
      hide HandoverCall, Post;
      dish := Dish(position, recipe, overallProcessed, finished);
      GivePickup();
      ResetSteps();
      ResetDish();
      PostTask(Task.CookNextOrder);
    }

    method SwitchPosition(p: nat) returns (accepted: bool)
      modifies this`mode, this`available, this`tasks
      ensures accepted == SwitchAccepts(old(Abs()), p) && Abs() == SwitchCall(old(Abs()), p)
    {
      if p <= 0 || p > conveyorSize - 1 || p == position || mode != AVAILABLE { return false; }
      mode := REARRANGING;
      available := false;
      PostTask(Task.SwitchPosition(p));
      accepted := true;
    }

    method CommitNewPosition() returns (accepted: bool)
      modifies this`tasks
      ensures accepted == CommitAccepts(old(Abs())) && Abs() == CommitCall(old(Abs()))
    {
      if mode != REARRANGING || !commitPending { return false; }
      PostTask(CommitPosition);
      accepted := true;
    }

    method Reconfigure(capabilities: set<string>) returns (accepted: bool)
      modifies this`mode, this`available, this`newCaps, this`tasks
      ensures accepted == ReconfigureAccepts(old(Abs()), capabilities)
      ensures Abs() == ReconfigureCall(old(Abs()), capabilities)
    {
      if capabilities == caps || mode != AVAILABLE { return false; }
      mode := RECONFIGURING;
      available := false;
      newCaps := capabilities;
      PostTask(StartReconfiguration);
      accepted := true;
    }

    // ---------------------------------------------------------------- the event loop

    method ExpireTimer()
      requires fault == NoFault
      modifies this`timer, this`tasks
      ensures Abs() == Step(old(Abs()), TimerExpires)
    {
      if timer.None? { return; }
      var w := timer.value;
      timer := None;
      PostTask(Expired(w));
    }

    method TakeTask() returns (t: Task)
      requires tasks != []
      modifies this`tasks
      ensures t == old(tasks)[0] && Abs() == old(Abs()).(tasks := old(tasks)[1..])
    {
      t := tasks[0];
      tasks := tasks[1..];
    }

    method OnSwitchPosition(p: nat)
      modifies this`target, this`rearranging, this`timer, this`fault
      ensures Abs() == (var s := old(Abs()).(target := p); if s.preparing then s else HandleSwitchPosition(s))
    {
      hide HandleSwitchPosition;
      target := p;
      if !preparing { StartMove(); }
    }

    method OnExpired(w: Wait, pick: Tool)
      requires overallTime < U32 && KnownOrders(Abs())
      modifies this
      ensures if w == Reconfiguring && old(orders) != [] && !old(preparing) then fault == Deadlocked
              else Abs() == HandleTask(old(Abs()), Expired(w), pick)
    {
      hide CompleteReconfiguration, MoveToNewPosition, PassTime, Retool, KnownOrders;
      match w
      case Retooling => OnRetool();
      case PassingTime => OnPassTime();
      case Moving => OnArrival();
      case Reconfiguring => OnReconfigured(pick);
    }

    method OnTask(t: Task, pick: Tool)
      requires overallTime < U32 && !t.Expired?
      modifies this
      ensures Abs() == HandleTask(old(Abs()), t, pick)
    {
      hide HandleReceiveTask, CookNext, HandleNewPositionCommit, HandleSwitchPosition, HandleReconfiguration;
      match t
      case ReceiveTask(r, steps) => OnReceiveTask(r, steps);
      case CookNextOrder => CookNextOrder();
      case SwitchPosition(p) => OnSwitchPosition(p);
      case CommitPosition => OnCommit();
      case StartReconfiguration => if !preparing { StartReconfiguring(); }
    }

    /** Runs the oldest task of the event loop. */
    method RunNextTask(pick: Tool)
      requires fault == NoFault && overallTime < U32 && KnownOrders(Abs())
      modifies this
      ensures var s := old(Abs());
              if s.tasks != [] && s.tasks[0] == Expired(Reconfiguring) && s.orders != [] && !s.preparing
              then fault == Deadlocked
              else Abs() == Step(s, RunTask(pick))
    {
      RunTaskStep(Abs(), pick);
      hide KnownOrders, HandleTask, Step;
      if tasks == [] { return; }
      var t := TakeTask();
      if t.Expired? { OnExpired(t.wait, pick); } else { OnTask(t, pick); }
    }
  }

  lemma RunTaskStep(s: State, pick: Tool)
    requires s.fault.NoFault?
    ensures s.tasks == [] ==> Step(s, RunTask(pick)) == s
    ensures s.tasks != [] ==> Step(s, RunTask(pick)) == HandleTask(s.(tasks := s.tasks[1..]), s.tasks[0], pick)
    ensures s.tasks != [] && KnownOrders(s) ==> KnownOrders(s.(tasks := s.tasks[1..]))
  {
    hide HandleTask;
  }

  lemma HandoverParts(s: State)
    requires s.pickup
    ensures HandoverCall(s) == Post(s.(pickup := false, finished := false)
                                     .(processed := 0, processable := 0)
                                     .(recipe := 0, overallProcessed := 0, overallProcessing := 0), Task.CookNextOrder)
    ensures HandoverReply(s) == Dish(s.position, s.recipe, s.overallProcessed, s.finished)
  {
    hide Post;
  }

  predicate AllKnown(s: State, orders: seq<Order>)
  {
    forall o :: o in orders ==> o.recipe in s.recipes && o.processedSteps <= |s.recipes[o.recipe]|
  }

  lemma Reconfigured(s: State, base: State, pick: Tool)
    requires KnownOrders(s)
    requires base ==
             s.(caps := s.newCaps, newCaps := {}).(tool := pick, lastTool := pick, overallTime := 0).(orders := [])
    ensures AllKnown(base, s.orders)
    ensures s.orders == [] || s.preparing ==>
              CompleteReconfiguration(s, pick) ==
                  CookNext(Recost(base, s.orders).(reconfiguring := false).(mode := AVAILABLE, available := true))
  {
    hide CookNext, Recost;
  }

  lemma RecostNext(s: State, orders: seq<Order>)
    requires orders != [] && AllKnown(s, orders)
    ensures var o := orders[0];
            && o.recipe in s.recipes && o.processedSteps <= |s.recipes[o.recipe]|
            && AllKnown(Enqueue(s, o.recipe, o.processedSteps), orders[1..])
            && Enqueue(s, o.recipe, o.processedSteps).overallTime < U32
            && Recost(s, orders) == Recost(Enqueue(s, o.recipe, o.processedSteps), orders[1..])
  {
    hide Cost, Prefix, LastTool;
  }

  lemma RecostNone(s: State)
    ensures Recost(s, []) == s
  {
  }

  lemma EnqueueIs(s: State, recipe: nat, steps: nat)
    requires recipe in s.recipes && steps <= |s.recipes[recipe]|
    ensures var actions := s.recipes[recipe][steps..];
            var doable := Prefix(s.caps, actions);
            Enqueue(s, recipe, steps) ==
              s.(orders := s.orders + [Order(recipe, steps, |s.recipes[recipe]|, |doable|, actions)],
                 overallTime := (s.overallTime + Cost(s.lastTool, doable)) % U32,
                 lastTool := LastTool(s.lastTool, doable))
  {
    hide Cost, LastTool, Prefix;
  }

  lemma CookNextCases(s: State)
    ensures s.mode.REARRANGING? ==> CookNext(s) == HandleSwitchPosition(s)
    ensures s.mode.RECONFIGURING? ==> CookNext(s) == HandleReconfiguration(s)
    ensures s.mode.AVAILABLE? && s.orders == [] ==> CookNext(s) == s.(preparing := false)
    ensures s.mode.AVAILABLE? && s.orders != [] ==>
              var o := s.orders[0];
              var s1 := s.(preparing := true, orders := s.orders[1..], inProcess := o.actions);
              CookNext(s) == DetermineNextAction(s1.(recipe := o.recipe, overallProcessed := o.processedSteps,
                                                     overallProcessing := o.processingSteps,
                                                         processable := o.processableSteps))
  {
    hide HandleSwitchPosition, HandleReconfiguration, DetermineNextAction;
  }

  lemma NothingCosts(tool: Tool)
    ensures Cost(tool, []) == 0 && LastTool(tool, []) == tool
  {
  }

  lemma Accumulate(a: nat, b: nat, c: nat)
    ensures ((a % U32 + b) % U32 + c) % U32 == (a + b + c) % U32
  {
  }
}
