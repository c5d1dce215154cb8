/** Every step of the conveyor keeps its invariant; what that means for whole runs. */
module ConveyorSteps {
  import opened Basics
  import R = Robot
  import opened Conveyor
  import opened ConveyorInvariant

  // ------------------------------------------------------------------ retrieval

  /** Between the parts of a handler nothing is waited for. */
  ghost predicate Resting(c: State)
  {
    && c.trouble.Fine? && Rotation(c.plates, c.index) && PlatesOk(c.plates, c.occupied)
    && c.queue == [] && c.timer.None? && c.moving && (forall n :: n in c.notified ==> n < |c.plates|)
  }

  lemma SamePositions(a: seq<Plate>, b: seq<Plate>, index: map<nat, nat>)
    requires Rotation(a, index) && |b| == |a| && forall i :: 0 <= i < |a| ==> b[i].position == a[i].position
    ensures Rotation(b, index)
  {
  }

  lemma RetrieveKeeps(c: State, n: nat, reply: Option<R.Dish>)
    requires Resting(c) && n < |c.plates| && FromBelt(c, n, reply)
    ensures Resting(Retrieve(c, n, reply))
    ensures forall i :: 0 <= i < |c.plates| ==> Retrieve(c, n, reply).plates[i].position == c.plates[i].position
  {
    AtPosition(c.plates, c.index, n);
    SamePositions(c.plates, Retrieve(c, n, reply).plates, c.index);
    hide Rotation;
  }

  /** Retrieving dishes keeps the belt in order, wherever the robots report to be. */
  lemma {:induction false} RetrieveAllKeeps(c: State, order: seq<nat>, handovers: nat -> Option<R.Dish>)
    requires Resting(c) && Positions(c, order, handovers) && (forall k :: 0 <= k < |order| ==> order[k] < |c.plates|)
    ensures Resting(RetrieveAll(c, order, handovers))
    ensures forall i :: 0 <= i < |c.plates| ==>
            RetrieveAll(c, order, handovers).plates[i].position == c.plates[i].position
    decreases |order|
  {
    if order != [] {
      assert FromBelt(c, order[0], handovers(order[0]));
      RetrieveKeeps(c, order[0], handovers(order[0]));
      var c1 := Retrieve(c, order[0], handovers(order[0]));
      RestFromBelt(c, c1, order, handovers);
      hide Resting, Retrieve, FromBelt;
      RetrieveAllKeeps(c1, order[1..], handovers);
      assert RetrieveAll(c, order, handovers) == RetrieveAll(c1, order[1..], handovers);
    }
  }

  lemma RestFromBelt(c: State, c1: State, order: seq<nat>, handovers: nat -> Option<R.Dish>)
    requires order != [] && Positions(c, order, handovers) && c1.index == c.index && |c1.plates| == |c.plates|
    requires forall k :: 0 <= k < |order| ==> order[k] < |c.plates|
    ensures Positions(c1, order[1..], handovers) && forall k :: 0 <= k < |order[1..]| ==> order[1..][k] < |c1.plates|
  {
    forall k | 0 <= k < |order[1..]| ensures FromBelt(c1, order[1..][k], handovers(order[1..][k])) &&
        order[1..][k] < |c1.plates| {
      assert order[1..][k] == order[k + 1] && FromBelt(c, order[k + 1], handovers(order[k + 1]));
    }
  }

  /** The robot that is asked at `m` puts a dish on the plate at `n`. */
  predicate Lands(reply: Option<R.Dish>, n: nat) { reply.Some? && reply.value.recipe != 0 && reply.value.position == n }

  /** The plate with the dish on it. */
  function With(p: Plate, d: R.Dish): Plate
  {
    p.(recipe := d.recipe, occupied := true, done := d.finished, steps := d.steps)
  }

  /** The plate has got a dish from a robot that had notified. One that stands where it notified from gets its dish only
      onto a free plate. */
  ghost predicate PutOn(notified: set<nat>, handovers: nat -> Option<R.Dish>, before: Plate, after: Plate)
  {
    exists m :: m in notified && Lands(handovers(m), before.position) && (m == before.position ==> !before.occupied)
      && after == With(before, handovers(m).value)
  }

  lemma RetrievePlate(c: State, m: nat, reply: Option<R.Dish>, i: nat)
    requires Resting(c) && m < |c.plates| && FromBelt(c, m, reply) && i < |c.plates|
    ensures var p, q := c.plates[i], Retrieve(c, m, reply).plates[i];
            || q == p
            || (m in c.notified && Lands(reply, p.position) && (m == p.position ==> !p.occupied)
                && q == With(p, reply.value))
  {
    AtPosition(c.plates, c.index, m);
    if reply.Some? && reply.value.recipe != 0 && reply.value.position < |c.plates| {
      AtPosition(c.plates, c.index, reply.value.position);
    }
  }

  /** After a retrieval, a plate is as it was, or it carries the dish of a robot that had notified and stands in
      front of it. */
  lemma {:induction false} RetrieveAllPlate(c: State, order: seq<nat>, handovers: nat -> Option<R.Dish>, i: nat)
    requires Resting(c) && Positions(c, order, handovers) && (forall k :: 0 <= k < |order| ==> order[k] < |c.plates|)
    requires i < |c.plates|
    ensures var q := RetrieveAll(c, order, handovers).plates[i];
            q == c.plates[i] || PutOn(c.notified, handovers, c.plates[i], q)
    decreases |order|
  {
    if order != [] {
      assert FromBelt(c, order[0], handovers(order[0]));
      RetrieveKeeps(c, order[0], handovers(order[0]));
      RetrievePlate(c, order[0], handovers(order[0]), i);
      var c1 := Retrieve(c, order[0], handovers(order[0]));
      RestFromBelt(c, c1, order, handovers);
      assert c1.notified <= c.notified;
      hide Resting, Retrieve, FromBelt, Lands;
      RetrieveAllPlate(c1, order[1..], handovers, i);
      assert RetrieveAll(c, order, handovers) == RetrieveAll(c1, order[1..], handovers);
    }
  }

  // ------------------------------------------------------------------ requests

  /** The requests name distinct positions, and exactly the undecided dishes whose request was taken. */
  lemma {:induction false} AskingNames(c: State, order: seq<nat>, requested: nat -> bool)
    requires Rotation(c.plates, c.index) && (forall k, l :: 0 <= k < l < |order| ==> order[k] != order[l])
    ensures var q := Asking(c, order, requested);
            && (forall k :: 0 <= k < |q| ==>
               OnBelt(c, q[k]) && Undecided(c, c.index[q[k]]) && requested(c.index[q[k]]) && c.index[q[k]] in order)
            && (forall k, l :: 0 <= k < l < |q| ==> q[k] != q[l])
            && (forall i :: i in order && Undecided(c, i) && requested(i) ==> c.plates[i].position in q)
  {
    if order != [] {
      var i, rest := order[0], Asking(c, order[1..], requested);
      forall k, l | 0 <= k < l < |order[1..]| ensures order[1..][k] != order[1..][l] {
        assert order[1..][k] == order[k + 1] && order[1..][l] == order[l + 1];
      }
      AskingNames(c, order[1..], requested);
      if Undecided(c, i) && requested(i) {
        PlateAt(c, i);
        forall k | 0 <= k < |rest| ensures rest[k] != c.plates[i].position {
          assert c.index[rest[k]] in order[1..];
        }
        assert Asking(c, order, requested) == [c.plates[i].position] + rest;
      } else {
        assert Asking(c, order, requested) == [] + rest == rest;
      }
      hide Rotation, Undecided, Asking;
    }
  }

  lemma PlateAt(c: State, i: nat)
    requires Rotation(c.plates, c.index) && i < |c.plates|
    ensures OnBelt(c, c.plates[i].position) && c.index[c.plates[i].position] == i
  {
  }

  lemma AskedQueue(c: State, order: seq<nat>, requested: nat -> bool)
    requires Rotation(c.plates, c.index) && Covers(order, |c.plates|)
    ensures QueueOk(c.(queue := Asking(c, order, requested)))
  {
    hide Asking, Undecided, OnBelt, Rotation;
    AskingNames(c, order, requested);
    assert NamesUndecided(c, Asking(c, order, requested));
    hide NamesUndecided, Covers;
    SameNames(c, c.(queue := Asking(c, order, requested)), Asking(c, order, requested));
  }

  lemma SameNames(c: State, c': State, queue: seq<nat>)
    requires NamesUndecided(c, queue) && c'.index == c.index && c'.plates == c.plates && c'.occupied == c.occupied
    ensures NamesUndecided(c', queue)
  {
    forall k | 0 <= k < |queue| ensures OnBelt(c', queue[k]) && Undecided(c', c'.index[queue[k]]) {
      assert OnBelt(c, queue[k]) && Undecided(c, c.index[queue[k]]);
    }
  }

  lemma RequestKeeps(c: State, e: Env)
    requires Resting(c) && Covers(e.plateOrder, |c.plates|)
    ensures Inv(RequestNextRobots(c, e))
  {
    var q := Asking(c, e.plateOrder, e.requested);
    AskedQueue(c, e.plateOrder, e.requested);
    hide Rotation, Asking, PlatesOk, QueueOk, Covers;
    assert RequestNextRobots(c, e) == if q == [] then c.(timer := Some(Movement))
        else c.(queue := q) by { assert [] + q == q; }
    if q == [] { EmptyQueueOk(c.(timer := Some(Movement))); }
    hide RequestNextRobots;
  }

  lemma EmptyQueueOk(c: State)
    requires c.queue == []
    ensures QueueOk(c)
  {
  }

  lemma RetrievalKeeps(c: State, e: Env)
    requires Resting(c) && Genuine(e, c.plates) && Positions(c, e.positionOrder, e.handovers)
    ensures Inv(HandleRetrieval(c, e))
  {
    RetrieveAllKeeps(c, e.positionOrder, e.handovers);
    hide Resting, RetrieveAll, Positions, RequestNextRobots;
    RequestKeeps(RetrieveAll(c, e.positionOrder, e.handovers), e);
  }

  lemma DetermineKeeps(c: State, e: Env)
    requires Resting(c) && Genuine(e, c.plates) && Positions(c, e.positionOrder, e.handovers)
    ensures Inv(DetermineNextMovement(c, e))
  {
    hide Positions, RequestNextRobots, HandleRetrieval, Rotation, PlatesOk, Genuine;
    if c.notified != {} {
      RetrievalKeeps(c, e);
    } else if c.occupied != {} {
      assert Covers(e.plateOrder, |c.plates|) by { GenuineCovers(e, c.plates); }
      RequestKeeps(c, e);
    }
  }

  lemma GenuineCovers(e: Env, plates: seq<Plate>)
    requires Genuine(e, plates)
    ensures Covers(e.plateOrder, |plates|) && Covers(e.positionOrder, |plates|)
  {
  }

  // ------------------------------------------------------------------ movement and delivery

  lemma MovedKeeps(c: State)
    requires Resting(c)
    ensures Resting(Moved(c, 1))
  {
    NotEmpty(c);
    MovedRotation(c, 1);
    hide Rotation, IndexAfter;
  }

  lemma DeliverKeeps(c: State, e: Env)
    requires Resting(c) && Genuine(e, c.plates)
    ensures Resting(Deliver(c, e))
    ensures forall i :: 0 <= i < |c.plates| ==> Deliver(c, e).plates[i].position == c.plates[i].position
  {
    DeliverPlates(c, e);
    SamePositions(c.plates, Deliver(c, e).plates, c.index);
    NothingCorrupted(c, e);
    hide Rotation, PlatesOk, Genuine, PlateAfter, Leaves;
  }

  lemma NothingCorrupted(c: State, e: Env)
    requires Genuine(e, c.plates)
    ensures Deliver(c, e).trouble == c.trouble
  {
    hide PlateAfter, Leaves, Covers;
  }

  /** The robot that the dish is offered to accepts it at another place than in front of the plate. */
  predicate TakenElsewhere(c: State, e: Env, i: nat)
  {
    && i < |c.plates| && c.plates[i].occupied && !c.plates[i].done && c.plates[i].target == c.plates[i].position != 0
    && e.attempts(i).Answered? && e.attempts(i).accepted && e.attempts(i).position != c.plates[i].position
  }

  /** That stops the conveyor, and nothing else that a delivery comes to does; the dish is not taken off its plate. */
  lemma TakenElsewhereStops(c: State, e: Env)
    requires PlatesOk(c.plates, c.occupied)
    ensures Deliver(c, e).trouble == if exists i: nat :: TakenElsewhere(c, e, i) then Corrupted else c.trouble
    ensures forall i: nat :: TakenElsewhere(c, e, i) ==> Deliver(c, e).plates[i].occupied
  {
    forall i: nat | i < |c.plates|
      ensures TakenElsewhere(c, e, i) <==> i in c.occupied && Corrupts(c.plates[i], e.attempts(i))
    {
    }
    forall i: nat | TakenElsewhere(c, e, i) ensures !Leaves(c.plates[i], e.attempts(i), e.kitchen) {}
    hide TakenElsewhere, Corrupts, Leaves;
    if i: nat :| i in c.occupied && i < |c.plates| && Corrupts(c.plates[i], e.attempts(i)) {
      assert TakenElsewhere(c, e, i);
    }
  }

  lemma DeliverPlates(c: State, e: Env)
    requires PlatesOk(c.plates, c.occupied)
    ensures PlatesOk(Deliver(c, e).plates, Deliver(c, e).occupied)
    ensures forall i :: 0 <= i < |c.plates| ==> Deliver(c, e).plates[i].position == c.plates[i].position
  {
  }

  lemma MovementKeeps(c: State, e: Env)
    requires Resting(c) && c.plates != [] && Genuine(e, Moved(c, 1).plates)
    requires Positions(Moved(c, 1), e.positionOrder, e.handovers)
    ensures Inv(MoveConveyor(c, e))
  {
    MovedKeeps(c);
    var c1 := Moved(c, 1);
    DeliverKeeps(c1, e);
    SameGenuine(e, c1.plates, Deliver(c1, e).plates);
    SameBelt(c1, Deliver(c1, e), e);
    hide Resting, Moved, Deliver, Positions, DetermineNextMovement, Genuine;
    DetermineKeeps(Deliver(c1, e), e);
  }

  lemma SameGenuine(e: Env, a: seq<Plate>, b: seq<Plate>)
    requires Genuine(e, a) && |b| == |a| && forall i :: 0 <= i < |a| ==> b[i].position == a[i].position
    ensures Genuine(e, b)
  {
    hide Covers;
  }

  lemma SameBelt(c: State, c': State, e: Env)
    requires Positions(c, e.positionOrder, e.handovers) && c'.index == c.index && |c'.plates| == |c.plates|
    ensures Positions(c', e.positionOrder, e.handovers)
  {
    forall k | 0 <= k < |e.positionOrder| ensures FromBelt(c', e.positionOrder[k], e.handovers(e.positionOrder[k])) {
      assert FromBelt(c, e.positionOrder[k], e.handovers(e.positionOrder[k]));
    }
  }

  // ------------------------------------------------------------------ answers of the controller

  lemma NextRobotKeeps(c: State, position: nat, known: bool, recipe: nat)
    requires Inv(c) && (c.queue != [] ==> OnBelt(c, c.queue[0]))
    ensures Inv(HandleNextRobot(c, position, known, recipe))
  {
    if c.queue != [] && c.plates[c.index[c.queue[0]]].recipe == recipe {
      var i := c.index[c.queue[0]];
      var c1 := HandleNextRobot(c, position, known, recipe);
      SamePositions(c.plates, c1.plates, c.index);
      QueueTail(c, c1);
      hide Rotation;
    }
  }

  lemma QueueTail(c: State, c1: State)
    requires Rotation(c.plates, c.index) && QueueOk(c) && c.queue != [] && c1.queue == c.queue[1..]
    requires c1.index == c.index && |c1.plates| == |c.plates| && c1.occupied == c.occupied
    requires forall i :: 0 <= i < |c.plates| && i != c.index[c.queue[0]] ==> c1.plates[i] == c.plates[i]
    ensures QueueOk(c1)
  {
    forall k | 0 <= k < |c1.queue| ensures OnBelt(c1, c1.queue[k]) && Undecided(c1, c1.index[c1.queue[k]]) {
      assert c1.queue[k] == c.queue[k + 1] && OnBelt(c, c.queue[k + 1]) && Undecided(c, c.index[c.queue[k + 1]]);
      assert c.queue[0] != c.queue[k + 1];
      if c.index[c.queue[0]] == c.index[c.queue[k + 1]] { IndexInjective(c, c.queue[0], c.queue[k + 1]); }
    }
    forall k, l | 0 <= k < l < |c1.queue| ensures c1.queue[k] != c1.queue[l] {
      assert c1.queue[k] == c.queue[k + 1] && c1.queue[l] == c.queue[l + 1];
    }
  }

  lemma IndexInjective(c: State, p: nat, q: nat)
    requires Rotation(c.plates, c.index) && OnBelt(c, p) && OnBelt(c, q) && c.index[p] == c.index[q]
    ensures p == q
  {
    AtPosition(c.plates, c.index, p);
    AtPosition(c.plates, c.index, q);
  }

  // ------------------------------------------------------------------ all steps

  lemma StepKeeps(c: State, e: Event)
    requires Inv(c) && Admissible(c, e) && Possible(c, e)
    ensures Inv(Step(c, e))
  {
    hide Rotation, PlatesOk, HandleRetrieval, MoveConveyor, Genuine, Positions, DetermineNextMovement, HandleNextRobot,
         Moved;
    match e
    case Notification(position, connects) =>
    case NextRobot(position, known, recipe) => NextRobotKeeps(c, position, known, recipe);
    case Reconnect(env) =>
      if c.moving && c.queue != [] {
        SameBelt(c, c.(queue := []), env);
        DetermineKeeps(c.(queue := []), env);
      }
    case TimerFires(env) =>
      if c.timer.Some? {
        var c1 := c.(timer := None);
        match c.timer.value
        case Debounce =>
          SameBelt(c, c1, env);
          RetrievalKeeps(c1, env);
        case Movement =>
          NotEmpty(c);
          MovedIgnoresTimer(c);
          SameBelt(Moved(c, 1), Moved(c1, 1), env);
          MovementKeeps(c1, env);
      }
  }

  lemma MovedIgnoresTimer(c: State)
    requires c.plates != []
    ensures Moved(c.(timer := None), 1) == Moved(c, 1).(timer := None)
  {
    assert Moved(c.(timer := None), 1).plates == Moved(c, 1).plates;
  }
}
