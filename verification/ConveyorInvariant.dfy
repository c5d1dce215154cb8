/** What every step of the conveyor keeps: one continuation at a time, an index that is the exact inverse
    of the plate positions, and requests that name exactly the dishes they were made for. */
module ConveyorInvariant {
  import opened Basics
  import opened Conveyor

  // ------------------------------------------------------------------ rotation

  function Wrap(x: nat, n: nat): nat { if x < n then x else x - n }

  lemma SmallModulo(x: nat, n: nat)
    requires 0 < n && x < 2 * n
    ensures x % n == Wrap(x, n)
  {
    var q, r := x / n, x % n;
    assert x == q * n + r;
    if q >= 2 { TimesAtLeast(q, 2, n); }
    if q == 1 { assert q * n == n; }
  }

  lemma TimesAtLeast(a: nat, b: nat, n: nat)
    requires a >= b
    ensures a * n >= b * n
  {
    assert a * n == b * n + (a - b) * n;
  }

  /** Plate `i` is `i` places ahead of plate 0, and the index is the inverse of the positions. */
  ghost predicate Rotation(plates: seq<Plate>, index: map<nat, nat>)
  {
    var n := |plates|;
    && n > 0 && plates[0].position < n
    && (forall i :: 0 <= i < n ==> plates[i].position == Wrap(i + plates[0].position, n))
    && (forall q: nat :: q in index <==> q < n)
    && (forall i :: 0 <= i < n ==> index[plates[i].position] == i)
  }

  /** Every position has its plate. */
  lemma AtPosition(plates: seq<Plate>, index: map<nat, nat>, q: nat)
    requires Rotation(plates, index) && q < |plates|
    ensures q in index && index[q] < |plates| && plates[index[q]].position == q
  {
    var n, a := |plates|, plates[0].position;
    var i := if q >= a then q - a else q + n - a;
    assert Wrap(i + a, n) == q;
    assert plates[i].position == q;
  }

  lemma DistinctPositions(plates: seq<Plate>, index: map<nat, nat>, i: nat, j: nat)
    requires Rotation(plates, index) && i < |plates| && j < |plates| && plates[i].position == plates[j].position
    ensures i == j
  {
    assert index[plates[i].position] == i;
  }

  /** After entering the first `k` plates, exactly their positions have been overwritten. */
  lemma {:induction false} IndexEntries(index: map<nat, nat>, plates: seq<Plate>, k: nat)
    requires k <= |plates| && (forall i, j :: 0 <= i < j < |plates| ==> plates[i].position != plates[j].position)
    requires forall i :: 0 <= i < |plates| ==> plates[i].position in index
    ensures var r := IndexAfter(index, plates, k);
            && r.Keys == index.Keys
            && (forall i :: 0 <= i < k ==> r[plates[i].position] == i)
  {
    if k > 0 {
      IndexEntries(index, plates, k - 1);
    }
  }

  lemma MovedPositions(c: State, steps: nat)
    requires Rotation(c.plates, c.index) && steps <= |c.plates|
    ensures forall i :: 0 <= i < |c.plates| ==>
            Moved(c, steps).plates[i].position == Wrap(c.plates[i].position + steps, |c.plates|)
  {
    var n := |c.plates|;
    forall i | 0 <= i < n ensures Moved(c, steps).plates[i].position == Wrap(c.plates[i].position + steps, n) {
      assert c.plates[i].position < n;
      SmallModulo(c.plates[i].position + steps, n);
    }
  }

  lemma ShiftedRotation(plates: seq<Plate>, index: map<nat, nat>, steps: nat, plates': seq<Plate>)
    requires Rotation(plates, index) && steps <= |plates| == |plates'|
    requires forall i :: 0 <= i < |plates| ==> plates'[i].position == Wrap(plates[i].position + steps, |plates|)
    ensures Rotation(plates', IndexAfter(index, plates', |plates'|))
  {
    IndexEntries(index, plates', |plates'|);
  }

  /** Moving the belt by up to a full turn keeps the index the inverse of the positions, although it is
      overwritten in place. */
  lemma MovedRotation(c: State, steps: nat)
    requires Rotation(c.plates, c.index) && steps <= |c.plates|
    ensures Rotation(Moved(c, steps).plates, Moved(c, steps).index)
  {
    MovedPositions(c, steps);
    ShiftedRotation(c.plates, c.index, steps, Moved(c, steps).plates);
    hide Rotation, IndexAfter;
  }

  // ------------------------------------------------------------------ plates, requests, continuations

  predicate PlateOk(p: Plate)
  {
    if p.occupied then p.recipe != 0 else p == Reset(p)
  }

  predicate PlatesOk(plates: seq<Plate>, occupied: set<nat>)
  {
    && (forall i :: 0 <= i < |plates| ==> PlateOk(plates[i]) && (plates[i].occupied <==> i in occupied))
    && (forall i :: i in occupied ==> i < |plates|)
  }

  /** Distinct positions, each with a dish that is still undecided. */
  predicate NamesUndecided(c: State, queue: seq<nat>)
  {
    && (forall k :: 0 <= k < |queue| ==> OnBelt(c, queue[k]) && Undecided(c, c.index[queue[k]]))
    && (forall k, l :: 0 <= k < l < |queue| ==> queue[k] != queue[l])
  }

  /** The outstanding requests. */
  predicate QueueOk(c: State) { NamesUndecided(c, c.queue) }

  /** While it is moving, the conveyor waits for exactly one thing: its timer or an answer of the controller.
      While it idles, it waits for nothing and has nothing to do. */
  predicate OneContinuation(c: State)
  {
    if c.moving then c.timer.Some? <==> c.queue == []
    else c.timer.None? && c.queue == [] && c.notified == {} && c.occupied == {}
  }

  ghost predicate Inv(c: State)
  {
    && c.trouble.Fine? && Rotation(c.plates, c.index) && PlatesOk(c.plates, c.occupied)
    && QueueOk(c) && OneContinuation(c) && (forall n :: n in c.notified ==> n < |c.plates|)
  }

  // ------------------------------------------------------------------ what the conveyor relies on

  predicate Covers(order: seq<nat>, n: nat)
  {
    && (forall k :: 0 <= k < |order| ==> order[k] < n)
    && (forall k, l :: 0 <= k < l < |order| ==> order[k] != order[l])
    && (forall i :: 0 <= i < n ==> i in order)
  }

  /** A robot that hands over a dish is at the belt; a robot that takes a dish is where it was addressed. */
  ghost predicate Genuine(e: Env, plates: seq<Plate>)
  {
    && (forall n :: e.handovers(n).Some? && e.handovers(n).value.recipe != 0 ==>
       e.handovers(n).value.position < |plates|)
    && (forall i :: 0 <= i < |plates| && e.attempts(i).Answered? && e.attempts(i).accepted ==>
          e.attempts(i).position == plates[i].position)
    && Covers(e.positionOrder, |plates|) && Covers(e.plateOrder, |plates|)
  }

  ghost predicate Admissible(c: State, e: Event)
  {
    match e
    case Notification(position, _) => position < |c.plates|
    case NextRobot(_, _, _) => true
    case Reconnect(env) => Genuine(env, c.plates)
    case TimerFires(env) => Genuine(env, if c.timer == Some(Movement) && c.plates != [] then Moved(c, 1).plates
      else c.plates)
  }

  lemma BeltPositions(c: State, e: Env)
    requires Rotation(c.plates, c.index) && Genuine(e, c.plates)
    ensures Positions(c, e.positionOrder, e.handovers)
  {
    forall k | 0 <= k < |e.positionOrder| ensures FromBelt(c, e.positionOrder[k], e.handovers(e.positionOrder[k])) {
      AtPosition(c.plates, c.index, e.positionOrder[k]);
      var reply := e.handovers(e.positionOrder[k]);
      if reply.Some? && reply.value.recipe != 0 { AtPosition(c.plates, c.index, reply.value.position); }
    }
  }

  lemma InvPossible(c: State, e: Event)
    requires Inv(c) && Admissible(c, e)
    ensures Possible(c, e)
  {
    hide Rotation, Genuine, Covers, PlatesOk;
    NotEmpty(c);
    match e
    case TimerFires(env) =>
      if c.timer == Some(Movement) {
        MovedRotation(c, 1);
        BeltPositions(Moved(c, 1), env);
      } else {
        BeltPositions(c, env);
      }
    case Reconnect(env) => BeltPositions(c, env);
    case _ =>
  }

  lemma NotEmpty(c: State)
    requires Rotation(c.plates, c.index)
    ensures c.plates != []
  {
  }
}
