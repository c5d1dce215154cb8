/** What the conveyor guarantees on whole runs. */
module ConveyorRuns {
  import opened Basics
  import R = Robot
  import opened Conveyor
  import opened ConveyorInvariant
  import opened ConveyorSteps

  lemma {:induction false} InitialIndex(none: map<nat, nat>, plates: seq<Plate>, k: nat)
    requires none == map[] && k <= |plates| && forall i :: 0 <= i < |plates| ==> plates[i].position == i
    ensures forall q: nat :: q in IndexAfter(none, plates, k) <==> q < k
    ensures forall i: nat :: i < k ==> IndexAfter(none, plates, k)[i] == i
  {
    if k == 0 {
      assert IndexAfter(none, plates, k) == none;
    } else {
      InitialIndex(none, plates, k - 1);
      assert IndexAfter(none, plates, k) == IndexAfter(none, plates, k - 1)[k - 1 := k - 1];
    }
  }

  lemma InitialKeeps(n: nat)
    requires n > 0
    ensures Inv(Initial(n))
  {
    var c := Initial(n);
    InitialIndex(map[], c.plates, n);
    assert c.index == IndexAfter(map[], c.plates, n);
    hide IndexAfter;
  }

  /** An admissible step of a conveyor in order. */
  ghost function Next(c: State, e: Event): (c': State)
    requires Inv(c) && Admissible(c, e)
    ensures Inv(c') && Possible(c, e) && c' == Step(c, e)
  {
    InvPossible(c, e);
    StepKeeps(c, e);
    Step(c, e)
  }

  ghost predicate AllAdmissible(c: State, events: seq<Event>)
    requires Inv(c)
    decreases |events|
  {
    events == [] || (Admissible(c, events[0]) && AllAdmissible(Next(c, events[0]), events[1..]))
  }

  /** On every run the conveyor waits for exactly one thing at a time while it moves, so a pending timer is
      never armed again and the belt never stalls; its index stays the inverse of the plate positions. */
  ghost function Run(c: State, events: seq<Event>): (c': State)
    requires Inv(c) && AllAdmissible(c, events)
    ensures Inv(c')
    decreases |events|
  {
    if events == [] then c else Run(Next(c, events[0]), events[1..])
  }

  /** The belt stands still while requests are outstanding. */
  lemma StandsWhileAsking(c: State, e: Event)
    requires Inv(c) && Admissible(c, e) && c.queue != []
    ensures |Next(c, e).plates| == |c.plates|
    ensures forall i :: 0 <= i < |c.plates| ==> Next(c, e).plates[i].position == c.plates[i].position
  {
    InvPossible(c, e);
    hide Rotation, PlatesOk, Genuine, Positions, Covers;
    match e
    case Reconnect(env) => ReconnectStands(c, env);
    case _ =>
  }

  lemma ReconnectStands(c: State, e: Env)
    requires Inv(c) && Genuine(e, c.plates) && Positions(c, e.positionOrder, e.handovers)
    ensures |HandleReconnect(c, e).plates| == |c.plates|
    ensures forall i :: 0 <= i < |c.plates| ==> HandleReconnect(c, e).plates[i].position == c.plates[i].position
  {
    if c.moving && c.queue != [] {
      var c1 := c.(queue := []);
      SameBelt(c, c1, e);
      DetermineStands(c1, e);
    }
  }

  lemma DetermineStands(c: State, e: Env)
    requires Resting(c) && Genuine(e, c.plates) && Positions(c, e.positionOrder, e.handovers)
    ensures |DetermineNextMovement(c, e).plates| == |c.plates|
    ensures forall i :: 0 <= i < |c.plates| ==> DetermineNextMovement(c, e).plates[i].position == c.plates[i].position
  {
    RetrieveAllKeeps(c, e.positionOrder, e.handovers);
    hide Resting, RetrieveAll, Positions, Genuine, Asking;
  }

  /** A plate on which no dish is put stays as it is. */
  lemma RetrievalPlate(c: State, e: Env, i: nat)
    requires Resting(c) && Genuine(e, c.plates) && Positions(c, e.positionOrder, e.handovers) && i < |c.plates|
    ensures var c1, c2 := HandleRetrieval(c, e), DetermineNextMovement(c, e);
            && (c1.plates[i] == c.plates[i] || PutOn(c.notified, e.handovers, c.plates[i], c1.plates[i]))
            && (c2.plates[i] == c.plates[i] || PutOn(c.notified, e.handovers, c.plates[i], c2.plates[i]))
  {
    RetrieveAllPlate(c, e.positionOrder, e.handovers, i);
    hide Resting, RetrieveAll, Positions, Genuine, Asking, PutOn;
  }

  // ------------------------------------------------------------------ arrival

  function Goal(p: Plate): nat { if p.done then OUTPUT_POSITION else p.target }

  /** A dish that is finished or has a robot to go to. */
  predicate OnItsWay(c: State, i: nat)
  {
    && i < |c.plates| && c.plates[i].occupied && Goal(c.plates[i]) < |c.plates|
    && (c.plates[i].done || c.plates[i].target != 0)
  }

  /** How many moves away from its goal the plate is: between one and a full turn. */
  function Distance(c: State, i: nat): nat
    requires i < |c.plates|
  {
    var p, n := c.plates[i], |c.plates|;
    if Goal(p) > p.position then Goal(p) - p.position else if Goal(p) + n > p.position then Goal(p) + n - p.position
        else 0
  }

  predicate IsMove(c: State, e: Event) { e.TimerFires? && c.timer == Some(Movement) }

  /** The move that brings the plate to its goal; the dish is then offered to the kitchen or to its robot. */
  ghost predicate Offered(c: State, e: Event, i: nat)
    requires Inv(c)
  {
    IsMove(c, e) && i < |c.plates| && c.plates != [] && Moved(c, 1).plates[i].position == Goal(c.plates[i])
  }

  lemma DistanceBounds(c: State, i: nat)
    requires Inv(c) && OnItsWay(c, i)
    ensures 1 <= Distance(c, i) <= |c.plates|
  {
    assert c.plates[i].position < |c.plates| by { assert Rotation(c.plates, c.index); }
    hide Rotation, PlatesOk;
  }

  /** Where the plate is when dishes are fetched at this step. */
  function PlaceAt(c: State, e: Event, i: nat): nat
    requires c.plates != [] && i < |c.plates|
  {
    if IsMove(c, e) then Moved(c, 1).plates[i].position else c.plates[i].position
  }

  /** A robot that notified elsewhere stands in front of the plate when dishes are fetched. */
  ghost predicate Threatened(c: State, e: Event, i: nat)
    requires Inv(c)
  {
    && c.plates != [] && i < |c.plates| && (e.TimerFires? || e.Reconnect?)
    && exists m :: m in c.notified && m != PlaceAt(c, e, i) && Lands(e.env.handovers(m), PlaceAt(c, e, i))
  }

  /** No dish is put on an occupied plate that nobody threatens. */
  lemma Stays(c: State, e: Event, i: nat, before: Plate, after: Plate)
    requires Inv(c) && c.plates != [] && i < |c.plates| && !Threatened(c, e, i) && (e.TimerFires? || e.Reconnect?)
    requires before.occupied && before.position == PlaceAt(c, e, i)
    requires after == before || PutOn(c.notified, e.env.handovers, before, after)
    ensures after == before
  {
    hide Inv, Lands, PlaceAt;
  }

  lemma OtherStepsKeep(c: State, e: Event, i: nat)
    requires Inv(c) && Admissible(c, e) && !Threatened(c, e, i) && OnItsWay(c, i) && !IsMove(c, e)
    ensures |Next(c, e).plates| == |c.plates| && Next(c, e).plates[i] == c.plates[i]
  {
    InvPossible(c, e);
    NotEmpty(c);
    if e.Reconnect? {
      ReconnectStands(c, e.env);
      if c.moving && c.queue != [] {
        SameBelt(c, c.(queue := []), e.env);
        RetrievalPlate(c.(queue := []), e.env, i);
      }
      Stays(c, e, i, c.plates[i], Next(c, e).plates[i]);
    } else if e.TimerFires? {
      if c.timer.Some? {
        assert c.timer.value.Debounce?;
        SameBelt(c, c.(timer := None), e.env);
        RetrievalPlate(c.(timer := None), e.env, i);
      }
      Stays(c, e, i, c.plates[i], Next(c, e).plates[i]);
    } else if e.NextRobot? && c.queue != [] {
      assert Undecided(c, c.index[c.queue[0]]);
    }
    hide Rotation, PlatesOk, Genuine, Positions, Covers, PutOn, Threatened, DetermineNextMovement, HandleRetrieval;
  }

  lemma MoveStep(c: State, e: Event)
    requires Inv(c) && Admissible(c, e) && IsMove(c, e)
    ensures c.plates != [] && Resting(Moved(c, 1).(timer := None))
    ensures Positions(Moved(c, 1).(timer := None), e.env.positionOrder, e.env.handovers)
    ensures Genuine(e.env, Moved(c, 1).plates)
    ensures var c1 := Moved(c, 1).(timer := None);
            && Positions(Deliver(c1, e.env), e.env.positionOrder, e.env.handovers)
            && Next(c, e) == DetermineNextMovement(Deliver(c1, e.env), e.env)
  {
    InvPossible(c, e);
    NotEmpty(c);
    MovedIgnoresTimer(c);
    MovedKeeps(c.(timer := None));
    var c1 := Moved(c, 1).(timer := None);
    SameBelt(Moved(c, 1), c1, e.env);
    SameBelt(c1, Deliver(c1, e.env), e.env);
    hide Rotation, PlatesOk, Genuine, Positions, Covers, DetermineNextMovement, Deliver, Moved, Inv;
  }

  lemma MovePlate(c: State, e: Event, i: nat)
    requires Inv(c) && Admissible(c, e) && !Threatened(c, e, i) && IsMove(c, e) && OnItsWay(c, i) && !Offered(c, e, i)
    ensures |Next(c, e).plates| == |c.plates|
    ensures Next(c, e).plates[i] == c.plates[i].(position := Wrap(c.plates[i].position + 1, |c.plates|))
  {
    MoveStep(c, e);
    MovedPositions(c, 1);
    var c1 := Moved(c, 1).(timer := None);
    var d := Deliver(c1, e.env);
    DeliverKeeps(c1, e.env);
    assert c1.plates[i] == c.plates[i].(position := Wrap(c.plates[i].position + 1, |c.plates|));
    assert d.plates[i] == c1.plates[i] && c1.plates[i].occupied;
    SameGenuine(e.env, c1.plates, d.plates);
    DeliverNotified(c1, e.env);
    assert c1.notified == c.notified && PlaceAt(c, e, i) == d.plates[i].position;
    hide Rotation, PlatesOk, Genuine, Positions, DetermineNextMovement, Moved, Inv, Deliver, Resting, PutOn, Lands,
         PlaceAt;
    DetermineStands(d, e.env);
    RetrievalPlate(d, e.env, i);
    Stays(c, e, i, d.plates[i], DetermineNextMovement(d, e.env).plates[i]);
  }

  ghost function Moves(c: State, events: seq<Event>): nat
    requires Inv(c) && AllAdmissible(c, events)
    decreases |events|
  {
    if events == [] then 0
    else (if IsMove(c, events[0]) then 1 else 0) + Moves(Next(c, events[0]), events[1..])
  }

  /** The plate comes to the position `q`, which is where it is meant to go, and is offered there. */
  ghost predicate WasOffered(c: State, events: seq<Event>, i: nat, q: nat)
    requires Inv(c) && AllAdmissible(c, events)
    decreases |events|
  {
    events != [] && (OfferedAt(c, events[0], i, q) || WasOffered(Next(c, events[0]), events[1..], i, q))
  }

  ghost predicate OfferedAt(c: State, e: Event, i: nat, q: nat)
    requires Inv(c)
  {
    && IsMove(c, e) && c.plates != [] && i < |c.plates| && c.plates[i].occupied
    && Moved(c, 1).plates[i].position == q && q == if c.plates[i].done then OUTPUT_POSITION else c.plates[i].target
  }

  lemma OneStepCloser(c: State, e: Event, i: nat)
    requires Inv(c) && Admissible(c, e) && !Threatened(c, e, i) && OnItsWay(c, i) && !Offered(c, e, i)
    ensures OnItsWay(Next(c, e), i) && Goal(Next(c, e).plates[i]) == Goal(c.plates[i])
    ensures Distance(Next(c, e), i) == Distance(c, i) - (if IsMove(c, e) then 1 else 0)
  {
    DistanceBounds(c, i);
    if IsMove(c, e) {
      NotEmpty(c);
      MovePlate(c, e, i);
      MovedPositions(c, 1);
    } else {
      OtherStepsKeep(c, e, i);
    }
    hide Inv, Admissible, IndexAfter;
  }

  /** Before the plate is offered, a robot that notified elsewhere stands in front of it when dishes are fetched. */
  ghost predicate WasThreatened(c: State, events: seq<Event>, i: nat)
    requires Inv(c) && AllAdmissible(c, events)
    decreases |events|
  {
    events != [] && !Offered(c, events[0], i)
    && (Threatened(c, events[0], i) || WasThreatened(Next(c, events[0]), events[1..], i))
  }

  /** Every finished dish is offered at the output, and every dish with a target at its target, within as many moves as
      there are plates, unless a robot that has gone on since it notified comes to stand in front of that very plate. */
  lemma {:induction false} OfferedWithinATurn(c: State, events: seq<Event>, i: nat)
    requires Inv(c) && AllAdmissible(c, events) && OnItsWay(c, i)
    requires Moves(c, events) >= Distance(c, i)
    ensures WasOffered(c, events, i, if c.plates[i].done then OUTPUT_POSITION else c.plates[i].target) ||
            WasThreatened(c, events, i)
    ensures Distance(c, i) <= |c.plates|
    decreases |events|
  {
    DistanceBounds(c, i);
    if events != [] {
      if Offered(c, events[0], i) {
        assert OfferedAt(c, events[0], i, Goal(c.plates[i]));
      } else if !Threatened(c, events[0], i) {
        OneStepCloser(c, events[0], i);
        hide Inv, Admissible, Distance, IsMove, OnItsWay, Offered, Threatened, OfferedAt;
        OfferedWithinATurn(Next(c, events[0]), events[1..], i);
      }
    }
    hide Inv, Admissible, Distance, IsMove, OnItsWay, Threatened;
  }

  // ------------------------------------------------------------------ the controller's answer

  /** The answer to the oldest request sets the target of the dish at the requested position to the robot's position, if
      a robot was found and the answer is about that recipe; it touches no other plate. */
  lemma AnswerSetsTarget(c: State, robot: nat, known: bool, recipe: nat, i: nat)
    requires Inv(c) && c.queue != [] && i < |c.plates|
    ensures var p, c' := c.plates[i], Next(c, NextRobot(robot, known, recipe));
            && |c'.plates| == |c.plates|
            && c'.plates[i] == if p.position == c.queue[0] && p.recipe == recipe && robot != 0 && known
                               then p.(target := robot) else p
  {
    InvPossible(c, NextRobot(robot, known, recipe));
    PlateAt(c, i);
    RequestedOccupied(c);
    hide Inv;
  }

  lemma RequestedOccupied(c: State)
    requires Inv(c) && c.queue != []
    ensures var i := c.index[c.queue[0]]; i < |c.plates| && Undecided(c, i) && c.plates[i].position == c.queue[0]
    ensures c.plates[c.index[c.queue[0]]].occupied
  {
    AtPosition(c.plates, c.index, c.queue[0]);
  }

  /** A dish for which the controller has named the robot at `q` is offered at `q`, within a turn. */
  lemma NamedRobotIsOffered(c: State, q: nat, recipe: nat, events: seq<Event>, i: nat)
    requires Inv(c) && c.queue != [] && i < |c.plates| && c.plates[i].position == c.queue[0]
    requires c.plates[i].recipe == recipe && 0 < q < |c.plates|
    requires AllAdmissible(Next(c, NextRobot(q, true, recipe)), events)
    requires Moves(Next(c, NextRobot(q, true, recipe)), events) >= |c.plates|
    ensures var c' := Next(c, NextRobot(q, true, recipe)); WasOffered(c', events, i, q) || WasThreatened(c', events, i)
  {
    var c' := Next(c, NextRobot(q, true, recipe));
    AnswerSetsTarget(c, q, true, recipe, i);
    RequestedOccupied(c);
    PlateAt(c, i);
    assert OnItsWay(c', i) && !c'.plates[i].done;
    hide Inv, Admissible, WasOffered, WasThreatened, Moves, AllAdmissible;
    DistanceBounds(c', i);
    OfferedWithinATurn(c', events, i);
  }

  // ------------------------------------------------------------------ requests

  /** With a request the dishes are named exactly: a dish is asked for if and only if it is undecided and the
      controller took the request. */
  lemma AsksForExactlyTheUndecided(c: State, e: Env, i: nat)
    requires Resting(c) && Covers(e.plateOrder, |c.plates|) && i < |c.plates|
    ensures c.plates[i].position in RequestNextRobots(c, e).queue <==> Undecided(c, i) && e.requested(i)
  {
    var q := Asking(c, e.plateOrder, e.requested);
    AskingNames(c, e.plateOrder, e.requested);
    RequestQueue(c, e);
    PlateAt(c, i);
    NamedAt(c, q, e.requested, i);
    hide Resting, Asking, Undecided, OnBelt, RequestNextRobots;
    assert Undecided(c, i) && e.requested(i) ==> i in e.plateOrder;
  }

  lemma RequestQueue(c: State, e: Env)
    requires c.queue == []
    ensures RequestNextRobots(c, e).queue == Asking(c, e.plateOrder, e.requested)
  {
    var q := Asking(c, e.plateOrder, e.requested);
    hide Asking;
    assert [] + q == q;
  }

  lemma NamedAt(c: State, q: seq<nat>, requested: nat -> bool, i: nat)
    requires i < |c.plates| && OnBelt(c, c.plates[i].position) && c.index[c.plates[i].position] == i
    requires forall k :: 0 <= k < |q| ==> OnBelt(c, q[k]) && Undecided(c, c.index[q[k]]) && requested(c.index[q[k]])
    ensures c.plates[i].position in q ==> Undecided(c, i) && requested(i)
  {
    if c.plates[i].position in q {
      var k :| 0 <= k < |q| && q[k] == c.plates[i].position;
      assert Undecided(c, c.index[q[k]]);
    }
  }

  // ------------------------------------------------------------------ retrieval

  /** After a retrieval a notification is left exactly if the plate at its position was occupied, and a dish that was
      handed over is on the plate in front of its robot, as long as no robot that notified elsewhere stands there. */
  lemma {:induction false} RetrievalIsComplete(c: State, order: seq<nat>, handovers: nat -> Option<R.Dish>, n: nat)
    requires Resting(c) && Positions(c, order, handovers) && (forall k :: 0 <= k < |order| ==> order[k] < |c.plates|)
    requires n < |c.plates| && OnBelt(c, n)
    requires forall m :: m in c.notified && m != n ==> !Lands(handovers(m), n)
    ensures var c', p := RetrieveAll(c, order, handovers), c.plates[c.index[n]];
            && (n in c'.notified <==> n in c.notified && (n !in order || p.occupied))
            && c'.plates[c.index[n]] ==
                 if n in order && n in c.notified && !p.occupied && Lands(handovers(n), n)
                     then With(p, handovers(n).value)
                 else p
    decreases |order|
  {
    AtPosition(c.plates, c.index, n);
    if order != [] {
      var m, c1 := order[0], Retrieve(c, order[0], handovers(order[0]));
      assert FromBelt(c, m, handovers(m));
      RetrieveKeeps(c, m, handovers(m));
      OneRetrieved(c, m, handovers(m), n);
      RestFromBelt(c, c1, order, handovers);
      assert n in order <==> n == m || n in order[1..];
      assert c1.notified <= c.notified;
      hide Resting, FromBelt, Rotation, Retrieve, Lands;
      RetrievalIsComplete(c1, order[1..], handovers, n);
      assert RetrieveAll(c, order, handovers) == RetrieveAll(c1, order[1..], handovers);
    }
  }

  lemma OneRetrieved(c: State, m: nat, reply: Option<R.Dish>, n: nat)
    requires Resting(c) && m < |c.plates| && FromBelt(c, m, reply) && n < |c.plates| && OnBelt(c, n)
    requires m in c.notified && m != n ==> !Lands(reply, n)
    ensures var c', p := Retrieve(c, m, reply), c.plates[c.index[n]];
            && (n in c'.notified <==> n in c.notified && (m != n || p.occupied))
            && c'.plates[c.index[n]] ==
                 if m == n && n in c.notified && !p.occupied && Lands(reply, n) then With(p, reply.value) else p
  {
    AtPosition(c.plates, c.index, n);
    RetrievePlate(c, m, reply, c.index[n]);
    AtPosition(c.plates, c.index, m);
  }

  // ------------------------------------------------------------------ what comes of an offer

  /** The rest of a movement: retrieval, if anybody has notified, and requests. */
  lemma PlateDetermined(c: State, e: Env, i: nat)
    requires Resting(c) && Genuine(e, c.plates) && Positions(c, e.positionOrder, e.handovers)
    requires i < |c.plates|
    ensures var c', n := DetermineNextMovement(c, e), c.plates[i].position;
            && |c'.plates| == |c.plates| && c'.plates[i].position == n
            && (c'.plates[i] == c.plates[i] || PutOn(c.notified, e.handovers, c.plates[i], c'.plates[i]))
            && (n in c'.queue <==> Undecided(c', i) && e.requested(i))
  {
    RetrievalPlate(c, e, i);
    DetermineStands(c, e);
    GenuineCovers(e, c.plates);
    hide Rotation, Covers, Asking;
    if c.notified != {} {
      RetrieveAllKeeps(c, e.positionOrder, e.handovers);
      RequestsOnlyAsk(RetrieveAll(c, e.positionOrder, e.handovers), e, i);
    } else if c.occupied != {} {
      RequestsOnlyAsk(c, e, i);
    }
    hide Resting, RetrieveAll, Positions, Genuine, RequestNextRobots, PutOn;
  }

  lemma RequestsOnlyAsk(c: State, e: Env, i: nat)
    requires Resting(c) && Covers(e.plateOrder, |c.plates|) && i < |c.plates|
    ensures var c' := RequestNextRobots(c, e);
            && c'.plates == c.plates && c'.occupied == c.occupied
            && (c.plates[i].position in c'.queue <==> Undecided(c', i) && e.requested(i))
  {
    AsksForExactlyTheUndecided(c, e, i);
    hide Asking;
  }

  // ------------------------------------------------------------------ every notification is served

  /** A step at which dishes are fetched: the timer has expired, or requests are given up and made anew. */
  predicate IsFetch(c: State, e: Event)
  {
    (e.TimerFires? && c.timer.Some?) || (e.Reconnect? && c.moving && c.queue != [])
  }

  /** A dish is offered to the kitchen at the output once it is finished, and to its robot when it is in front of it. */
  predicate IsOffered(p: Plate)
  {
    p.occupied && if p.done then p.position == OUTPUT_POSITION else p.target != 0 && p.position == p.target
  }

  predicate IsTaken(p: Plate, e: Env, i: nat)
  {
    if p.done then e.kitchen else e.attempts(i).Answered? && e.attempts(i).accepted
  }

  /** The plate after the offer, before dishes are fetched: empty, or with its dish on its way to the output, or with an
      undecided dish. */
  function AfterOffer(p: Plate, taken: bool): Plate
  {
    if taken then Plate(p.position, 0, 0, 0, false, false) else if p.done then p else p.(target := 0)
  }

  /** The plate as it is when dishes are fetched, after a move and the offers that follow it. */
  function BeforeFetch(c: State, e: Event, i: nat): Plate
    requires (e.TimerFires? || e.Reconnect?) && c.plates != [] && i < |c.plates|
  {
    if !IsMove(c, e) then c.plates[i]
    else
      var p := Moved(c, 1).plates[i];
      if IsOffered(p) then AfterOffer(p, IsTaken(p, e.env, i)) else p
  }

  /** A delivery offers exactly the dishes that are where they are meant to go. */
  lemma DeliveredPlate(c: State, e: Env, i: nat)
    requires Resting(c) && Genuine(e, c.plates) && i < |c.plates|
    ensures var p := c.plates[i];
            |Deliver(c, e).plates| == |c.plates| &&
            Deliver(c, e).plates[i] == if IsOffered(p) then AfterOffer(p, IsTaken(p, e, i)) else p
  {
    assert i in c.occupied <==> c.plates[i].occupied by { assert PlatesOk(c.plates, c.occupied); hide Rotation; }
    hide Resting, Corrupts, Covers;
  }

  /** Whenever dishes are fetched, every robot that has notified is asked exactly if the plate in front of it is free:
      its notification is gone then, and its dish is on that plate. This holds for every position where no robot stands
      that notified from another one. */
  lemma FetchedExactly(c: State, e: Event, i: nat)
    requires Inv(c) && Admissible(c, e) && IsFetch(c, e) && i < |c.plates| && PlaceAt(c, e, i) in c.notified
    requires forall m :: m in c.notified && m != PlaceAt(c, e, i) ==> !Lands(e.env.handovers(m), PlaceAt(c, e, i))
    ensures var n, p, c' := PlaceAt(c, e, i), BeforeFetch(c, e, i), Next(c, e);
            && (n in c'.notified <==> p.occupied)
            && |c'.plates| == |c.plates|
            && c'.plates[i] == if !p.occupied && Lands(e.env.handovers(n), n) then With(p, e.env.handovers(n).value)
                               else p
  {
    hide Inv, Admissible, Lands, With, Deliver, Moved;
    if IsMove(c, e) { FetchedAfterMove(c, e, i); } else { FetchedStanding(c, e, i); }
  }

  lemma FetchedAfterMove(c: State, e: Event, i: nat)
    requires Inv(c) && Admissible(c, e) && IsMove(c, e) && i < |c.plates| && PlaceAt(c, e, i) in c.notified
    requires forall m :: m in c.notified && m != PlaceAt(c, e, i) ==> !Lands(e.env.handovers(m), PlaceAt(c, e, i))
    ensures var n, p, c' := PlaceAt(c, e, i), BeforeFetch(c, e, i), Next(c, e);
            && (n in c'.notified <==> p.occupied)
            && |c'.plates| == |c.plates|
            && c'.plates[i] == if !p.occupied && Lands(e.env.handovers(n), n) then With(p, e.env.handovers(n).value)
                               else p
  {
    MoveStep(c, e);
    var c1 := Moved(c, 1).(timer := None);
    var d := Deliver(c1, e.env);
    DeliverKeeps(c1, e.env);
    SameGenuine(e.env, c1.plates, d.plates);
    DeliverNotified(c1, e.env);
    assert c1.notified == c.notified && PlaceAt(c, e, i) == d.plates[i].position;
    DeliveredPlate(c1, e.env, i);
    assert BeforeFetch(c, e, i) == d.plates[i];
    hide Inv, Deliver, Moved, Resting, Genuine, Positions, Lands, With, DetermineNextMovement, PlaceAt, BeforeFetch;
    FetchedAt(d, e.env, i);
  }

  lemma FetchedStanding(c: State, e: Event, i: nat)
    requires Inv(c) && Admissible(c, e) && IsFetch(c, e) && !IsMove(c, e) && i < |c.plates|
    requires c.plates[i].position in c.notified
    requires forall m :: m in c.notified && m != c.plates[i].position ==>
               !Lands(e.env.handovers(m), c.plates[i].position)
    ensures var n, p, c' := c.plates[i].position, c.plates[i], Next(c, e);
            && (n in c'.notified <==> p.occupied)
            && |c'.plates| == |c.plates|
            && c'.plates[i] == if !p.occupied && Lands(e.env.handovers(n), n) then With(p, e.env.handovers(n).value)
                               else p
  {
    StandingStep(c, e);
    hide Inv, Resting, Genuine, Positions, Lands, With, DetermineNextMovement, HandleRetrieval;
    FetchedAt(if e.Reconnect? then c.(queue := []) else c.(timer := None), e.env, i);
  }

  lemma StandingStep(c: State, e: Event)
    requires Inv(c) && Admissible(c, e) && IsFetch(c, e) && !IsMove(c, e)
    ensures var c1 := if e.Reconnect? then c.(queue := []) else c.(timer := None);
            && Resting(c1) && Genuine(e.env, c1.plates) && Positions(c1, e.env.positionOrder, e.env.handovers)
            && Next(c, e) == if e.Reconnect? then DetermineNextMovement(c1, e.env) else HandleRetrieval(c1, e.env)
  {
    InvPossible(c, e);
    RestsForFetch(c, e);
    hide Inv, DetermineNextMovement, HandleRetrieval, MoveConveyor, Positions, Rotation, Genuine, PlatesOk, Resting;
  }

  lemma RestsForFetch(c: State, e: Event)
    requires Inv(c) && Admissible(c, e) && IsFetch(c, e) && !IsMove(c, e)
    ensures var c1 := if e.Reconnect? then c.(queue := []) else c.(timer := None);
            Resting(c1) && Genuine(e.env, c1.plates) && Positions(c1, e.env.positionOrder, e.env.handovers)
    ensures e.TimerFires? ==> c.timer == Some(Debounce)
  {
    var c1 := if e.Reconnect? then c.(queue := []) else c.(timer := None);
    if e.TimerFires? { OneOfTwo(c.timer); }
    hide Rotation, Genuine, PlatesOk;
    BeltPositions(c1, e.env);
    hide Positions;
  }

  lemma OneOfTwo(timer: Option<Timer>)
    requires timer.Some?
    ensures timer == Some(Debounce) || timer == Some(Movement)
  {
    match timer.value
    case Debounce => assert timer == Some(Debounce);
    case Movement => assert timer == Some(Movement);
  }

  lemma FetchedAt(c: State, e: Env, i: nat)
    requires Resting(c) && Genuine(e, c.plates) && Positions(c, e.positionOrder, e.handovers) && i < |c.plates|
    requires c.plates[i].position in c.notified
    requires forall m :: m in c.notified && m != c.plates[i].position ==> !Lands(e.handovers(m), c.plates[i].position)
    ensures var n, p := c.plates[i].position, c.plates[i];
            var p' := if !p.occupied && Lands(e.handovers(n), n) then With(p, e.handovers(n).value) else p;
            && |HandleRetrieval(c, e).plates| == |c.plates| && HandleRetrieval(c, e).plates[i] == p'
            && (n in HandleRetrieval(c, e).notified <==> p.occupied)
            && DetermineNextMovement(c, e) == HandleRetrieval(c, e)
  {
    var n := c.plates[i].position;
    PlateAt(c, i);
    assert n < |c.plates| && n in e.positionOrder;
    hide Resting, Genuine, Lands, With;
    RetrievalIsComplete(c, e.positionOrder, e.handovers, n);
    hide RetrieveAll, Asking;
  }

  /** What an offer comes to. A dish that is taken leaves its plate empty; a refused finished dish stays on its way
      to the output; another refused dish is undecided again. Then dishes are fetched, and a plate may get one: a
      free plate from the robot in front of it, and any plate from a robot that has come to stand there since it
      notified. A robot is asked for at once for exactly what is undecided then, if the request is taken. */
  lemma OfferedPlate(c: State, e: Event, i: nat)
    requires Inv(c) && Admissible(c, e) && OnItsWay(c, i) && Offered(c, e, i)
    ensures var p, c' := Moved(c, 1).plates[i], Next(c, e);
            var offered := AfterOffer(p, IsTaken(p, e.env, i));
            && |c'.plates| == |c.plates| && c'.plates[i].position == p.position
            && (c'.plates[i] == offered || PutOn(c.notified, e.env.handovers, offered, c'.plates[i]))
            && (c'.plates[i] != offered && offered.occupied ==> Threatened(c, e, i))
            && (c'.plates[i] == offered && offered.done ==> OnItsWay(c', i))
            && (c'.plates[i] == offered && offered.occupied && !offered.done ==> Undecided(c', i))
            && (p.position in c'.queue <==> Undecided(c', i) && e.env.requested(i))
  {
    MoveStep(c, e);
    var c1 := Moved(c, 1).(timer := None);
    var d := Deliver(c1, e.env);
    OfferMade(c, e, i);
    DeliverKeeps(c1, e.env);
    SameGenuine(e.env, c1.plates, d.plates);
    PlateDetermined(d, e.env, i);
    DeliverNotified(c1, e.env);
    Occupied(Next(c, e), i);
    assert d.notified == c.notified && PlaceAt(c, e, i) == d.plates[i].position;
    hide Rotation, PlatesOk, Genuine, Positions, DetermineNextMovement, Moved, Inv, Deliver, Resting, Leaves, PutOn,
         PlaceAt, Lands;
    if d.plates[i].occupied && !Threatened(c, e, i) { Stays(c, e, i, d.plates[i], Next(c, e).plates[i]); }
  }

  lemma Occupied(c: State, i: nat)
    requires Inv(c) && i < |c.plates|
    ensures i in c.occupied <==> c.plates[i].occupied
  {
    hide Rotation;
  }

  lemma DeliverNotified(c: State, e: Env)
    ensures Deliver(c, e).notified == c.notified
  {
    hide PlateAfter, Leaves, Corrupts;
  }

  lemma OfferMade(c: State, e: Event, i: nat)
    requires Inv(c) && Admissible(c, e) && OnItsWay(c, i) && Offered(c, e, i)
    ensures var p, d := Moved(c, 1).plates[i], Deliver(Moved(c, 1).(timer := None), e.env);
            && p.position < |c.plates| && IsOffered(p) && p == c.plates[i].(position := p.position)
            && |d.plates| == |c.plates| && d.plates[i] == AfterOffer(p, IsTaken(p, e.env, i))
            && Moved(c, 1).notified == c.notified
  {
    MoveStep(c, e);
    DeliveredPlate(Moved(c, 1).(timer := None), e.env, i);
    hide Inv, Admissible, IndexAfter, Deliver, DetermineNextMovement;
  }
}
