/** The kitchen: the placing gate and the order counters. */
module Kitchen {
  import opened Basics

  /** `waiting` holds the orders behind the gate. The last three fields are histories: the orders requested
      and placed so far, and the recipes the controller has been asked about and not answered yet. */
  datatype State = State(
    received: nat, assignedOrders: nat, dropped: nat, completed: nat,
    gateOpen: bool, timer: bool, rearmed: bool, waiting: seq<nat>,
    requested: seq<nat>, placed: seq<nat>, awaiting: seq<nat>)

  /** What comes of handing an order to the robot that the controller named. */
  datatype Assignment =
    | NoRobot                                        // the controller found none
    | NotConnected
    | Elsewhere                                      // the robot is not there, or not available
    | CallFailed
    | Replied(accepted: bool)

  datatype Event =
    | OrderRequest(recipe: nat)
    | TimerFires
    | NextRobot(outcome: Assignment)
    | OrderCompleted

  function Initial(): State { State(0, 0, 0, 0, true, false, false, [], [], [], []) }

  function Place(k: State, recipe: nat): State
  {
    k.(received := (k.received + 1) % U32, placed := k.placed + [recipe], awaiting := k.awaiting + [recipe])
  }

  function Arm(k: State): State { k.(timer := true, rearmed := k.rearmed || k.timer) }

  function HandleOrderRequest(k: State, recipe: nat): State
  {
    var k1 := k.(requested := k.requested + [recipe]);
    if k1.gateOpen then Arm(Place(k1.(gateOpen := false), recipe)) else k1.(waiting := k1.waiting + [recipe])
  }

  function HandleTimer(k: State): State
  {
    if !k.timer then k
    else
      var k1 := k.(timer := false);
      if k1.waiting == [] then k1.(gateOpen := true)
      else Arm(Place(k1.(waiting := k1.waiting[1..]), k1.waiting[0]))
  }

  function HandleNextRobot(k: State, outcome: Assignment): State
  {
    var k1 := k.(awaiting := if k.awaiting == [] then [] else k.awaiting[1..]);
    if outcome.Replied? && outcome.accepted then k1.(assignedOrders := (k1.assignedOrders + 1) % U32)
    else k1.(dropped := (k1.dropped + 1) % U32)
  }

  function Step(k: State, e: Event): State
  {
    match e
    case OrderRequest(recipe) => HandleOrderRequest(k, recipe)
    case TimerFires => HandleTimer(k)
    case NextRobot(outcome) => HandleNextRobot(k, outcome)
    case OrderCompleted => k.(completed := (k.completed + 1) % U32)
  }

  /** The controller answers once per request. */
  predicate Admissible(k: State, e: Event) { e.NextRobot? ==> k.awaiting != [] }

  // ------------------------------------------------------------------ what every step keeps

  /** Every order that was let through is assigned, dropped or awaits its answer; the gate keeps the order
      of requests, loses none, and is open only when none waits and no timer runs. */
  predicate Inv(k: State)
  {
    && k.received < U32 && k.assignedOrders < U32 && k.dropped < U32
    && k.received == (k.assignedOrders + k.dropped + |k.awaiting|) % U32
    && k.received == |k.placed| % U32
    && k.placed + k.waiting == k.requested
    && (k.gateOpen <==> !k.timer) && (k.gateOpen ==> k.waiting == []) && !k.rearmed
    && |k.awaiting| <= |k.placed| && k.awaiting == k.placed[|k.placed| - |k.awaiting|..]
  }

  lemma InitialKeeps()
    ensures Inv(Initial())
  {
  }

  lemma CountOn(a: nat, b: nat)
    ensures (a % U32 + b) % U32 == (a + b) % U32
  {
  }

  lemma PlaceKeeps(k: State, recipe: nat, placedThen: seq<nat>)
    requires k.received == (k.assignedOrders + k.dropped + |k.awaiting|) % U32 && k.received == |k.placed| % U32
    requires |k.awaiting| <= |k.placed| && k.awaiting == k.placed[|k.placed| - |k.awaiting|..]
    requires placedThen == k.placed + [recipe]
    ensures var k' := Place(k, recipe);
            && k'.received == (k'.assignedOrders + k'.dropped + |k'.awaiting|) % U32 && k'.received == |k'.placed| % U32
            && k'.received < U32 && k'.placed == placedThen
            && |k'.awaiting| <= |k'.placed| && k'.awaiting == k'.placed[|k'.placed| - |k'.awaiting|..]
  {
    CountOn(k.assignedOrders + k.dropped + |k.awaiting|, 1);
    CountOn(|k.placed|, 1);
  }

  lemma OrderRequestKeeps(k: State, recipe: nat)
    requires Inv(k)
    ensures Inv(HandleOrderRequest(k, recipe))
  {
    PlaceKeeps(k.(requested := k.requested + [recipe], gateOpen := false), recipe, k.placed + [recipe]);
    assert k.placed + (k.waiting + [recipe]) == k.requested + [recipe];
    assert k.gateOpen ==> k.placed + [recipe] + k.waiting == k.requested + [recipe];
    hide Place;
    PlaceFrame(k.(requested := k.requested + [recipe], gateOpen := false), recipe);
  }

  lemma PlaceFrame(k: State, recipe: nat)
    ensures var k' := Place(k, recipe);
            && k'.assignedOrders == k.assignedOrders && k'.dropped == k.dropped && k'.gateOpen == k.gateOpen &&
               k'.timer == k.timer
            && k'.rearmed == k.rearmed && k'.waiting == k.waiting && k'.requested == k.requested
  {
  }

  lemma TimerKeeps(k: State)
    requires Inv(k)
    ensures Inv(HandleTimer(k))
  {
    if k.timer && k.waiting != [] {
      var k1 := k.(timer := false, waiting := k.waiting[1..]);
      PlaceKeeps(k1, k.waiting[0], k.placed + [k.waiting[0]]);
      PlaceFrame(k1, k.waiting[0]);
      assert k.placed + [k.waiting[0]] + k.waiting[1..] == k.placed + k.waiting;
      hide Place;
    }
  }

  lemma NextRobotKeeps(k: State, outcome: Assignment)
    requires Inv(k) && k.awaiting != []
    ensures Inv(HandleNextRobot(k, outcome))
  {
    CountOn(k.assignedOrders + 1, k.dropped + |k.awaiting| - 1);
    CountOn(k.dropped + 1, k.assignedOrders + |k.awaiting| - 1);
  }

  lemma StepKeeps(k: State, e: Event)
    requires Inv(k) && Admissible(k, e)
    ensures Inv(Step(k, e))
  {
    hide Inv, HandleOrderRequest, HandleTimer, HandleNextRobot;
    match e
    case OrderRequest(recipe) => OrderRequestKeeps(k, recipe);
    case TimerFires => TimerKeeps(k);
    case NextRobot(outcome) => NextRobotKeeps(k, outcome);
    case OrderCompleted => CompletedKeeps(k);
  }

  lemma CompletedKeeps(k: State)
    requires Inv(k)
    ensures Inv(k.(completed := (k.completed + 1) % U32))
  {
  }

  function Run(k: State, events: seq<Event>): State
    decreases |events|
  {
    if events == [] then k else Run(Step(k, events[0]), events[1..])
  }

  predicate AllAdmissible(k: State, events: seq<Event>)
    decreases |events|
  {
    events == [] || (Admissible(k, events[0]) && AllAdmissible(Step(k, events[0]), events[1..]))
  }

  function Fires(k: State, events: seq<Event>): nat
    decreases |events|
  {
    if events == [] then 0
    else (if events[0].TimerFires? && k.timer then 1 else 0) + Fires(Step(k, events[0]), events[1..])
  }

  /** On every run from an empty kitchen: RECEIVED is ASSIGNED plus DROPPED plus the requests without an
      answer, orders pass the gate first come first served and none is lost, and every order but the first
      has waited for a period of its own. */
  lemma {:induction false} RunKeeps(k: State, events: seq<Event>)
    requires Inv(k) && AllAdmissible(k, events)
    ensures Inv(Run(k, events))
    ensures |Run(k, events).placed| <= |k.placed| + Fires(k, events) + (if k.gateOpen then 1 else 0)
    decreases |events|
  {
    if events != [] {
      StepKeeps(k, events[0]);
      OnePerPeriod(k, events[0]);
      hide Inv, Step, Admissible;
      RunKeeps(Step(k, events[0]), events[1..]);
    }
  }

  lemma OnePerPeriod(k: State, e: Event)
    requires Inv(k)
    ensures var k' := Step(k, e);
            |k'.placed| + (if k'.gateOpen then 1 else 0)
              <= |k.placed| + (if k.gateOpen then 1 else 0) + (if e.TimerFires? && k.timer then 1 else 0)
  {
  }

  // ------------------------------------------------------------------ the gate lets orders through in turn

  /** The next order is asked about, and counted as received. */
  predicate LetsThrough(k: State, k': State, recipe: nat)
  {
    && k'.placed == k.placed + [recipe] && k'.awaiting == k.awaiting + [recipe]
    && k'.received == (k.received + 1) % U32
  }

  /** An expired timer lets the oldest waiting order through and runs again, or it opens the gate. */
  lemma TimerLetsThrough(k: State)
    requires Inv(k) && k.timer
    ensures var k' := Step(k, TimerFires);
            && (k.waiting != [] ==> LetsThrough(k, k', k.waiting[0]) && k'.waiting == k.waiting[1..] && k'.timer)
            && (k.waiting == [] ==> k'.placed == k.placed && k'.gateOpen)
  {
  }

  /** An order passes an open gate at once, and waits behind a closed one. */
  lemma RequestPassesOrWaits(k: State, recipe: nat)
    requires Inv(k)
    ensures var k' := Step(k, OrderRequest(recipe));
            && !k'.gateOpen
            && if k.gateOpen then LetsThrough(k, k', recipe) && k'.waiting == []
               else k'.placed == k.placed && k'.waiting == k.waiting + [recipe]
  {
  }

  /** Nothing else lets an order through or out of the queue. */
  lemma QueueOnlyGrows(k: State, e: Event)
    requires Inv(k) && k.waiting != [] && !(e.TimerFires? && k.timer)
    ensures Step(k, e).placed == k.placed && k.waiting <= Step(k, e).waiting
  {
  }

  lemma {:induction false} PlacedGrows(k: State, events: seq<Event>)
    ensures k.placed <= Run(k, events).placed
    decreases |events|
  {
    if events != [] { PlacedGrows(Step(k, events[0]), events[1..]); }
  }

  /** On every run, a waiting order is let through, and all that wait before it, exactly when the timer has expired
      once for each of them: nobody waits longer than for as many expiries as its place in the queue. */
  lemma {:induction false} PlacedInTurn(k: State, events: seq<Event>, j: nat)
    requires Inv(k) && AllAdmissible(k, events) && j < |k.waiting|
    ensures Fires(k, events) > j <==> k.placed + k.waiting[..j + 1] <= Run(k, events).placed
    decreases |events|
  {
    if events != [] {
      var e, k1, rest := events[0], Step(k, events[0]), events[1..];
      StepKeeps(k, e);
      assert k.timer;
      if e.TimerFires? {
        TimerLetsThrough(k);
        assert k.waiting[..j + 1] == [k.waiting[0]] + k1.waiting[..j];
        assert k.placed + k.waiting[..j + 1] == k1.placed + k1.waiting[..j];
        hide Inv, Step, Admissible;
        if j > 0 {
          PlacedInTurn(k1, rest, j - 1);
        } else {
          assert k1.waiting[..0] == [];
          PlacedGrows(k1, rest);
        }
      } else {
        QueueOnlyGrows(k, e);
        hide Inv, Step, Admissible;
        PlacedInTurn(k1, rest, j);
        assert k1.waiting[..j + 1] == k.waiting[..j + 1];
      }
    }
  }

  // ------------------------------------------------------------------ the kitchen as it runs

  class Agent {
    var received: nat
    var assignedOrders: nat
    var dropped: nat
    var completed: nat
    var gateOpen: bool
    var timer: bool
    var waiting: seq<nat>
    ghost var rearmed: bool
    ghost var requested: seq<nat>
    ghost var placed: seq<nat>
    ghost var awaiting: seq<nat>

    ghost function Abs(): State
      reads this
    {
      State(received, assignedOrders, dropped, completed, gateOpen, timer, rearmed, waiting, requested, placed,
          awaiting)
    }

    constructor ()
      ensures Abs() == Initial()
    {
      received, assignedOrders, dropped, completed, gateOpen, timer, waiting := 0, 0, 0, 0, true, false, [];
      rearmed, requested, placed, awaiting := false, [], [], [];
    }

    method PlaceOrder(recipe: nat)
      modifies this`received, this`placed, this`awaiting
      ensures Abs() == Place(old(Abs()), recipe)
    {
      received := (received + 1) % U32;
      placed := placed + [recipe];
      awaiting := awaiting + [recipe];
    }

    method ArmPlacingGate()
      modifies this`timer, this`rearmed
      ensures Abs() == Arm(old(Abs()))
    {
      rearmed := rearmed || timer;
      timer := true;
    }

    method OnOrderRequest(recipe: nat)
      modifies this
      ensures Abs() == HandleOrderRequest(old(Abs()), recipe)
    {
      hide Place, Arm;
      requested := requested + [recipe];
      if gateOpen {
        gateOpen := false;
        PlaceOrder(recipe);
        ArmPlacingGate();
      } else {
        waiting := waiting + [recipe];
      }
    }

    method OnTimer()
      modifies this
      ensures Abs() == HandleTimer(old(Abs()))
    {
      hide Place, Arm;
      if !timer { return; }
      timer := false;
      if waiting != [] {
        var recipe := waiting[0];
        waiting := waiting[1..];
        PlaceOrder(recipe);
        ArmPlacingGate();
      } else {
        gateOpen := true;
      }
    }

    /** Hands the order to the robot the controller named; whatever goes wrong, the order is dropped. */
    method OnNextRobot(outcome: Assignment)
      modifies this`assignedOrders, this`dropped, this`awaiting
      ensures Abs() == HandleNextRobot(old(Abs()), outcome)
    {
      awaiting := if awaiting == [] then [] else awaiting[1..];
      match outcome
      case NoRobot => dropped := (dropped + 1) % U32;
      case NotConnected => dropped := (dropped + 1) % U32;
      case Elsewhere => dropped := (dropped + 1) % U32;
      case CallFailed => dropped := (dropped + 1) % U32;
      case Replied(accepted) =>
        if accepted { assignedOrders := (assignedOrders + 1) % U32; } else { dropped := (dropped + 1) % U32; }
    }

    method OnOrderCompleted()
      modifies this`completed
      ensures Abs() == Step(old(Abs()), OrderCompleted)
    {
      completed := (completed + 1) % U32;
    }
  }
}
