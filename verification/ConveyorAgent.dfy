/** The conveyor as it runs: plates, index, occupied set, notifications and request queue are changed in
    place, plate by plate. Every handler is proved against the step function of the model. */
module ConveyorAgent {
  import opened Basics
  import R = Robot
  import opened Conveyor
  import opened ConveyorInvariant
  import ConveyorSteps

  class Agent {
    const plates: array<Plate>
    var index: map<nat, nat>
    var occupied: set<nat>
    var notified: set<nat>
    var queue: seq<nat>
    var moving: bool
    var timer: Option<Timer>
    var trouble: Trouble

    ghost function Abs(): State
      reads this, plates
    {
      State(plates[..], index, occupied, notified, queue, moving, timer, trouble)
    }

    constructor (n: nat)
      ensures fresh(plates) && Abs() == Initial(n)
    {
      plates := new Plate[n](i requires 0 <= i < n => Plate(i, 0, 0, 0, false, false));
      index, occupied, notified, queue := map[], {}, {}, [];
      moving, timer, trouble := false, None, Fine;
      new;
      for i := 0 to n
        invariant plates[..] == Initial(n).plates && index == IndexAfter(map[], plates[..], i)
        invariant occupied == {} && notified == {} && queue == [] && !moving && timer.None? && trouble.Fine?
      {
        index := index[i := i];
      }
    }

    method ArmTimer(t: Timer)
      modifies this`timer, this`trouble
      ensures Abs() == Arm(old(Abs()), t)
    {
      if timer.Some? { trouble := Overlap; } else { timer := Some(t); }
    }

    method OnNotification(position: nat, connects: bool)
      modifies this`notified, this`moving, this`timer, this`trouble
      ensures Abs() == HandleNotification(old(Abs()), position, connects)
    {
      if !connects { return; }
      notified := notified + {position};
      if !moving {
        moving := true;
        ArmTimer(Debounce);
      }
    }

    method PlaceDish(dish: R.Dish)
      requires dish.recipe != 0 ==> OnBelt(Abs(), dish.position)
      modifies this`occupied, plates
      ensures Abs() == Place(old(Abs()), dish)
    {
      if dish.recipe == 0 { return; }
      var i := index[dish.position];
      var p := plates[i];
      p := p.(recipe := dish.recipe);
      p := p.(occupied := true);
      p := p.(done := dish.finished);
      p := p.(steps := dish.steps);
      plates[i] := p;
      occupied := occupied + {i};
    }

    /** Fetches the dish that waits at a position, unless the plate there is occupied. */
    method RetrieveAt(position: nat, reply: Option<R.Dish>)
      requires FromBelt(Abs(), position, reply)
      modifies this`notified, this`occupied, plates
      ensures Abs() == Retrieve(old(Abs()), position, reply)
    {
      if position in notified && !plates[index[position]].occupied {
        notified := notified - {position};
        if reply.Some? { PlaceDish(reply.value); }
      }
    }

    method RetrieveDishes(e: Env)
      requires Positions(Abs(), e.positionOrder, e.handovers)
      modifies this`notified, this`occupied, plates
      ensures Abs() == RetrieveAll(old(Abs()), e.positionOrder, e.handovers)
    {
      var order := e.positionOrder;
      ghost var c := Abs();
      for k := 0 to |order|
        invariant Positions(Abs(), order[k..], e.handovers)
        invariant RetrieveAll(Abs(), order[k..], e.handovers) == RetrieveAll(c, order, e.handovers)
      {
        hide Retrieve;
        RetrieveNext(Abs(), order, k, e.handovers);
        RetrieveAt(order[k], e.handovers(order[k]));
      }
    }

    /** Asks the controller for a robot for every undecided dish. */
    method AskForRobots(e: Env)
      modifies this`queue, this`timer, this`trouble
      ensures Abs() == RequestNextRobots(old(Abs()), e)
    {
      var order := e.plateOrder;
      ghost var c := Abs();
      for k := 0 to |order|
        invariant Abs() == c.(queue := queue)
        invariant queue + Asking(c, order[k..], e.requested) == c.queue + Asking(c, order, e.requested)
      {
        var i := order[k];
        AskNext(c, order, k, e.requested);
        if i in occupied && i < plates.Length && !plates[i].done && plates[i].target == 0 && e.requested(i) {
          queue := queue + [plates[i].position];
        }
      }
      assert order[|order|..] == [];
      if queue == [] { ArmTimer(Movement); }
    }

    method OnRetrieval(e: Env)
      requires Positions(Abs(), e.positionOrder, e.handovers)
      modifies this, plates
      ensures Abs() == HandleRetrieval(old(Abs()), e)
    {
      RetrieveDishes(e);
      AskForRobots(e);
    }

    method OnNextRobot(position: nat, known: bool, recipe: nat)
      requires queue != [] ==> OnBelt(Abs(), queue[0])
      modifies this`queue, this`timer, this`trouble, plates
      ensures Abs() == HandleNextRobot(old(Abs()), position, known, recipe)
    {
      if queue == [] { return; }
      var i := index[queue[0]];
      if plates[i].recipe != recipe { return; }
      queue := queue[1..];
      if position != 0 && known { plates[i] := plates[i].(target := position); }
      if queue == [] { ArmTimer(Movement); }
    }

    /** Turns the belt; the index is overwritten entry by entry. */
    method Turn(steps: nat)
      requires plates.Length > 0
      modifies this`index, plates
      ensures Abs() == Moved(old(Abs()), steps)
    {
      ghost var c := Abs();
      ghost var moved := Moved(c, steps).plates;
      for i := 0 to plates.Length
        invariant forall k :: 0 <= k < plates.Length ==> plates[k] == if k < i then moved[k] else c.plates[k]
        invariant index == IndexAfter(c.index, moved, i)
        invariant occupied == c.occupied && notified == c.notified && queue == c.queue
        invariant moving == c.moving && timer == c.timer && trouble == c.trouble
      {
        var position := (plates[i].position + steps) % plates.Length;
        plates[i] := plates[i].(position := position);
        index := index[position := i];
      }
      assert plates[..] == moved;
    }

    method ResetPlate(i: nat)
      requires i < plates.Length
      modifies plates
      ensures plates[..] == old(plates[..])[i := Reset(old(plates[i]))]
    {
      var p := plates[i];
      p := p.(recipe := 0);
      p := p.(steps := 0);
      p := p.(target := 0);
      p := p.(occupied := false);
      p := p.(done := false);
      plates[i] := p;
    }

    /** Offers the dish of one plate, if it is at its goal. */
    method OfferPlate(i: nat, a: Attempt, kitchen: bool)
      requires i in occupied && i < plates.Length
      modifies this`occupied, this`trouble, plates
      ensures plates[..] == old(plates[..])[i := PlateAfter(old(plates[i]), a, kitchen)]
      ensures occupied == if Leaves(old(plates[i]), a, kitchen) then old(occupied) - {i} else old(occupied)
      ensures trouble == if Corrupts(old(plates[i]), a) then Corrupted else old(trouble)
    {
      var p := plates[i];
      if !p.done && p.target == 0 { return; }
      if p.done && p.position == OUTPUT_POSITION {
        if kitchen {
          ResetPlate(i);
          occupied := occupied - {i};
        }
        return;
      }
      if !p.done && p.position == p.target {
        if a.Answered? && a.accepted && a.position == p.position {
          ResetPlate(i);
          occupied := occupied - {i};
        } else {
          if a.Answered? && a.accepted { trouble := Corrupted; }
          plates[i] := p.(target := 0);
        }
      }
    }

    /** Offers every dish that is at its goal; the occupied set shrinks while it is walked through. */
    method OfferDishes(e: Env)
      requires Covers(e.plateOrder, plates.Length) && forall i :: i in occupied ==> i < plates.Length
      modifies this`occupied, this`trouble, plates
      ensures Abs() == Deliver(old(Abs()), e)
    {
      var order := e.plateOrder;
      ghost var c := Abs();
      for k := 0 to |order|
        invariant plates.Length == |c.plates| && index == c.index && notified == c.notified && queue == c.queue
        invariant moving == c.moving && timer == c.timer
        invariant PartlyDelivered(c, e, order[..k], plates[..], occupied, trouble)
      {
        var i := order[k];
        NotYet(order, k);
        if i in occupied { OfferPlate(i, e.attempts(i), e.kitchen); }
        assert order[..k + 1] == order[..k] + [i];
      }
      assert order[..|order|] == order;
      AllDelivered(c, e, plates[..], occupied, trouble);
    }

    method OnMovement(e: Env)
      requires plates.Length > 0 && Positions(Moved(Abs(), 1), e.positionOrder, e.handovers)
      requires Covers(e.plateOrder, plates.Length) && forall i :: i in occupied ==> i < plates.Length
      modifies this, plates
      ensures Abs() == MoveConveyor(old(Abs()), e)
    {
      Turn(1);
      ghost var c := Abs();
      OfferDishes(e);
      ConveyorSteps.SameBelt(c, Abs(), e);
      NextMovement(e);
    }

    method NextMovement(e: Env)
      requires Positions(Abs(), e.positionOrder, e.handovers)
      modifies this, plates
      ensures Abs() == DetermineNextMovement(old(Abs()), e)
    {
      if notified != {} {
        OnRetrieval(e);
      } else if occupied != {} {
        AskForRobots(e);
      } else {
        moving := false;
      }
    }

    method OnReconnect(e: Env)
      requires Positions(Abs(), e.positionOrder, e.handovers)
      modifies this, plates
      ensures Abs() == HandleReconnect(old(Abs()), e)
    {
      if moving && queue != [] {
        ghost var c := Abs();
        queue := [];
        ConveyorSteps.SameBelt(c, Abs(), e);
        NextMovement(e);
      }
    }

    method OnTimer(e: Env)
      requires Possible(Abs(), TimerFires(e))
      requires Covers(e.plateOrder, plates.Length) && forall i :: i in occupied ==> i < plates.Length
      modifies this, plates
      ensures Abs() == Step(old(Abs()), TimerFires(e))
    {
      hide HandleRetrieval, MoveConveyor;
      if timer.None? { return; }
      var t := timer.value;
      ghost var c := Abs();
      timer := None;
      if t.Debounce? {
        ConveyorSteps.SameBelt(c, Abs(), e);
        OnRetrieval(e);
      } else {
        TurnIgnoresTimer(c, e);
        OnMovement(e);
      }
    }
  }

  /** The plates in `looked` have been offered. */
  predicate PartlyDelivered(c: State, e: Env, looked: seq<nat>, plates: seq<Plate>, occupied: set<nat>,
                            trouble: Trouble)
  {
    && |plates| == |c.plates|
    && (forall i :: 0 <= i < |plates| ==>
          plates[i] == if i in looked && i in c.occupied then PlateAfter(c.plates[i], e.attempts(i), e.kitchen)
              else c.plates[i])
    && (forall i :: i in occupied ==> i in c.occupied)
    && (forall i :: i in c.occupied && i < |plates| ==>
          (i in occupied <==> !(i in looked && Leaves(c.plates[i], e.attempts(i), e.kitchen))))
    && (trouble == c.trouble || trouble == Corrupted)
    && ((exists i :: i in looked && i in c.occupied && i < |plates| && Corrupts(c.plates[i], e.attempts(i))) ==>
       trouble == Corrupted)
    && ((forall i :: i in looked && i in c.occupied && i < |plates| ==> !Corrupts(c.plates[i], e.attempts(i))) ==>
       trouble == c.trouble)
  }

  lemma NotYet(order: seq<nat>, k: nat)
    requires k < |order| && forall i, j :: 0 <= i < j < |order| ==> order[i] != order[j]
    ensures order[k] !in order[..k]
  {
  }

  lemma AllDelivered(c: State, e: Env, plates: seq<Plate>, occupied: set<nat>, trouble: Trouble)
    requires Covers(e.plateOrder, |c.plates|) && PartlyDelivered(c, e, e.plateOrder, plates, occupied, trouble)
    requires forall i :: i in c.occupied ==> i < |c.plates|
    ensures c.(plates := plates, occupied := occupied, trouble := trouble) == Deliver(c, e)
  {
    var d := Deliver(c, e);
    assert plates == d.plates;
    assert occupied == d.occupied;
    if i :| i in c.occupied && i < |c.plates| && Corrupts(c.plates[i], e.attempts(i)) {
      assert i in e.plateOrder;
    }
  }

  lemma TurnIgnoresTimer(c: State, e: Env)
    requires c.plates != [] && Positions(Moved(c, 1), e.positionOrder, e.handovers)
    ensures Positions(Moved(c.(timer := None), 1), e.positionOrder, e.handovers)
  {
    assert Moved(c.(timer := None), 1).plates == Moved(c, 1).plates;
    ConveyorSteps.SameBelt(Moved(c, 1), Moved(c.(timer := None), 1), e);
  }

  lemma RetrieveNext(c: State, order: seq<nat>, k: nat, handovers: nat -> Option<R.Dish>)
    requires k < |order| && Positions(c, order[k..], handovers)
    ensures FromBelt(c, order[k], handovers(order[k]))
    ensures var c1 := Retrieve(c, order[k], handovers(order[k]));
            && Positions(c1, order[k + 1..], handovers)
            && RetrieveAll(c, order[k..], handovers) == RetrieveAll(c1, order[k + 1..], handovers)
  {
    assert order[k..][0] == order[k] && order[k..][1..] == order[k + 1..];
    assert FromBelt(c, order[k..][0], handovers(order[k..][0]));
    var c1 := Retrieve(c, order[k], handovers(order[k]));
    var rest := order[k + 1..];
    forall j | 0 <= j < |rest| ensures FromBelt(c1, rest[j], handovers(rest[j])) {
      assert rest[j] == order[k..][j + 1];
      assert FromBelt(c, order[k..][j + 1], handovers(order[k..][j + 1]));
    }
    hide Retrieve;
  }

  lemma AskNext(c: State, order: seq<nat>, k: nat, requested: nat -> bool)
    requires k < |order|
    ensures Asking(c, order[k..], requested) ==
              (if Undecided(c, order[k]) && requested(order[k]) then [c.plates[order[k]].position] else [])
              + Asking(c, order[k + 1..], requested)
  {
    assert order[k..][0] == order[k] && order[k..][1..] == order[k + 1..];
  }
}
