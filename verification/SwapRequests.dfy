/** Starting swaps and reconfigurations keeps the protocol's invariant. */
module SwapRequests {
  import R = Robot
  import opened RobotInvariant
  import opened RobotLegs
  import opened Controller
  import opened SwapProtocol
  import opened SwapSteps

  // ------------------------------------------------------------------ a pair enters a swap

  predicate SameIds(a: map<nat, Remote>, b: map<nat, Remote>)
  {
    a.Keys == b.Keys && forall p :: p in a ==> b[p].id == a[p].id
  }

  predicate SameElsewhere(a: map<nat, Remote>, b: map<nat, Remote>, from: nat, to: nat)
  {
    forall p :: p in a && p in b && p != from && p != to ==> b[p] == a[p]
  }

  /** Robots other than the ones filed under the two positions are as before. */
  predicate OthersRest(remotes: map<nat, Remote>, a: seq<R.State>, b: seq<R.State>, from: nat, to: nat)
  {
    |a| == |b| && forall p :: p in remotes && p != from && p != to && remotes[p].id < |a| ==>
        b[remotes[p].id] == a[remotes[p].id]
  }

  lemma PairDisjoint(swaps: map<Key, Swap>, from: nat, to: nat, swap: Swap)
    requires Disjoint(swaps) && from != to && !Swapping(swaps, from) && !Swapping(swaps, to)
    ensures Disjoint(swaps[KeyOf(from, to) := swap])
  {
    var key := KeyOf(from, to);
    var swaps' := swaps[key := swap];
    forall k, l, p | k in swaps' && l in swaps' && Involves(k, p) && Involves(l, p) ensures k == l {
      if k != key { assert p != from && p != to by { SwappingBy(swaps, k, p); } }
      if l != key { assert p != from && p != to by { SwappingBy(swaps, l, p); } }
    }
  }

  lemma PairSwapping(swaps: map<Key, Swap>, from: nat, to: nat, swap: Swap, p: nat)
    ensures Swapping(swaps[KeyOf(from, to) := swap], p) <==> Swapping(swaps, p) || p == from || p == to
  {
    var key := KeyOf(from, to);
    var swaps' := swaps[key := swap];
    assert key in swaps';
    if Swapping(swaps, p) {
      var k :| k in swaps && Involves(k, p);
      assert k in swaps';
    }
  }

  lemma PairQueue(w: World, remotes': map<nat, Remote>, from: nat, to: nat, swap: Swap)
    requires WorldInv(w) && SameIds(w.ctrl.robots, remotes')
    requires from in w.ctrl.robots ==> !InQueue(w.callbacks, w.ctrl.robots[from].id)
    requires to in w.ctrl.robots ==> !InQueue(w.callbacks, w.ctrl.robots[to].id)
    ensures Queue(remotes', w.ctrl.swaps[KeyOf(from, to) := swap], w.callbacks)
  {
    hide Inv, EndOk, FreeOk;
    var swaps', q := w.ctrl.swaps[KeyOf(from, to) := swap], w.callbacks;
    forall i | 0 <= i < |q| ensures CallbackOk(remotes', swaps', q[i]) {
      assert CallbackOk(w.ctrl.robots, w.ctrl.swaps, q[i]);
      assert InQueue(q, q[i].id);
      if q[i].Reconfigured? { PairSwapping(w.ctrl.swaps, from, to, swap, q[i].position); }
    }
  }

  lemma PairSides(w: World, remotes': map<nat, Remote>, robots': seq<R.State>, from: nat, to: nat, k: Key, p: nat)
    requires WorldInv(w) && SameIds(w.ctrl.robots, remotes') && SameElsewhere(w.ctrl.robots, remotes', from, to)
    requires OthersRest(w.ctrl.robots, w.robots, robots', from, to)
    requires !Swapping(w.ctrl.swaps, from) && !Swapping(w.ctrl.swaps, to)
    requires k in w.ctrl.swaps && Involves(k, p)
    ensures Linked(remotes', robots') && SideOk(remotes', k, w.ctrl.swaps[k], robots', w.callbacks, p)
  {
    hide EndOk, FreeOk, Swapping, InQueue, Disjoint, Queue, Bodies, Acked, Partner;
    SideOf(w, k, p);
    SwappingBy(w.ctrl.swaps, k, p);
  }

  lemma PairFrees(w: World, remotes': map<nat, Remote>, robots': seq<R.State>, from: nat, to: nat, swap: Swap)
    requires WorldInv(w) && SameIds(w.ctrl.robots, remotes') && SameElsewhere(w.ctrl.robots, remotes', from, to)
    requires OthersRest(w.ctrl.robots, w.robots, robots', from, to)
    ensures Linked(remotes', robots') && Frees(remotes', w.ctrl.swaps[KeyOf(from, to) := swap], robots', w.callbacks)
  {
    hide EndOk, FreeOk, Swapping, InQueue, Disjoint, Queue, Bodies, KeyOf, Ends;
    var swaps' := w.ctrl.swaps[KeyOf(from, to) := swap];
    forall p | p in remotes' && !Swapping(swaps', p)
      ensures FreeOk(p, remotes'[p], robots'[remotes'[p].id], InQueue(w.callbacks, remotes'[p].id))
    {
      PairSwapping(w.ctrl.swaps, from, to, swap, p);
      FreeOf(w, p);
    }
  }

  lemma PairIds(a: map<nat, Remote>, b: map<nat, Remote>, robots: seq<R.State>, robots': seq<R.State>)
    requires Ids(a, robots) && SameIds(a, b) && |robots'| == |robots|
    ensures Ids(b, robots') && |b| == |a|
  {
    SizeByKeys(a, b);
  }

  lemma PairEnds(w: World, remotes': map<nat, Remote>, robots': seq<R.State>, from: nat, to: nat, swap: Swap)
    requires WorldInv(w) && SameIds(w.ctrl.robots, remotes') && SameElsewhere(w.ctrl.robots, remotes', from, to)
    requires OthersRest(w.ctrl.robots, w.robots, robots', from, to) && Linked(remotes', robots')
    requires !Swapping(w.ctrl.swaps, from) && !Swapping(w.ctrl.swaps, to)
    requires SideOk(remotes', KeyOf(from, to), swap, robots', w.callbacks, from)
    requires SideOk(remotes', KeyOf(from, to), swap, robots', w.callbacks, to)
    ensures Ends(remotes', w.ctrl.swaps[KeyOf(from, to) := swap], robots', w.callbacks)
  {
    hide WorldInv, SideOk, Swapping, SameIds, SameElsewhere, OthersRest;
    var swaps' := w.ctrl.swaps[KeyOf(from, to) := swap];
    forall k, p | k in swaps' && Involves(k, p) ensures SideOk(remotes', k, swaps'[k], robots', w.callbacks, p) {
      if k == KeyOf(from, to) {
        assert p == from || p == to;
      } else {
        PairSides(w, remotes', robots', from, to, k, p);
      }
    }
  }

  lemma PairKeeps(w: World, remotes': map<nat, Remote>, robots': seq<R.State>, from: nat, to: nat, swap: Swap)
    requires WorldInv(w) && SameIds(w.ctrl.robots, remotes') && SameElsewhere(w.ctrl.robots, remotes', from, to)
    requires OthersRest(w.ctrl.robots, w.robots, robots', from, to) && Linked(remotes', robots') && Bodies(robots')
    requires from != to && !Swapping(w.ctrl.swaps, from) && !Swapping(w.ctrl.swaps, to)
    requires from in w.ctrl.robots ==> !InQueue(w.callbacks, w.ctrl.robots[from].id)
    requires to in w.ctrl.robots ==> !InQueue(w.callbacks, w.ctrl.robots[to].id)
    requires SideOk(remotes', KeyOf(from, to), swap, robots', w.callbacks, from)
    requires SideOk(remotes', KeyOf(from, to), swap, robots', w.callbacks, to)
    ensures WorldInv(w.(ctrl := w.ctrl.(robots := remotes', swaps := w.ctrl.swaps[KeyOf(from, to) := swap]),
            robots := robots'))
  {
    PairEnds(w, remotes', robots', from, to, swap);
    PairFrees(w, remotes', robots', from, to, swap);
    PairQueue(w, remotes', from, to, swap);
    PairIds(w.ctrl.robots, remotes', w.robots, robots');
    PairDisjoint(w.ctrl.swaps, from, to, swap);
    hide Ends, Frees, Queue, SameIds, SameElsewhere, OthersRest, SideOk, Swapping, KeyOf, InQueue, Disjoint, Bodies,
         Ids;
  }

  // ------------------------------------------------------------------ who is asked to swap

  /** A registered robot without a pending adaptation has nothing queued and is filed under its position. */
  lemma Unflagged(w: World, p: nat)
    requires WorldInv(w) && p in w.ctrl.robots && !w.ctrl.robots[p].pending
    ensures !Swapping(w.ctrl.swaps, p)
    ensures Linked(w.ctrl.robots, w.robots)
    ensures var r, s := w.ctrl.robots[p], w.robots[w.ctrl.robots[p].id];
            !InQueue(w.callbacks, r.id) && FreeOk(p, r, s, false) && Inv(s) && s.position == p == r.position
  {
    if Swapping(w.ctrl.swaps, p) {
      var k := SwapOf(w.ctrl.swaps, p);
      SideOf(w, k, p);
      hide WorldInv, Inv, LegOf;
      assert false;
    } else {
      FreeOf(w, p);
      hide Inv, LegOf, EndOk, Bodies, Ends, Queue;
    }
  }

  lemma StopUnflagged(w: World, p: nat)
    requires WorldInv(w) && p in w.ctrl.robots && !w.ctrl.robots[p].pending
    ensures WorldInv(w.(ctrl := MarkStopped(w.ctrl, p)))
  {
    hide WorldInv, FreeOk;
    Unflagged(w, p);
    MarkStoppedKeeps(w, p);
  }

  lemma RunningFree(w: World, running: bool)
    requires WorldInv(w)
    ensures WorldInv(w.(ctrl := w.ctrl.(running := running)))
  {
  }

  lemma Dispatched(p: nat, q: nat, r: Remote, s: R.State)
    requires FreeOk(p, r, s, false) && !r.pending && LegOf(s).Settled? && q != p && Within(s, q)
    ensures EndOk(p, q, r.(pending := true), R.SwitchCall(s, q), false, false)
    ensures Inv(R.SwitchCall(s, q)) && R.SwitchCall(s, q).conveyorSize == s.conveyorSize
  {
    SwitchLeg(s, q);
    hide Inv, LegOf, R.SwitchCall;
  }

  lemma Stays(p: nat, q: nat, r: Remote, s: R.State)
    requires FreeOk(p, r, s, false) && !r.pending && LegOf(s).Settled?
    ensures EndOk(p, q, r.(pending := true, stopped := true), s, true, false)
  {
    if Hung(s) { HungLeg(s); }
    hide Inv, LegOf;
  }

  lemma AckFlags(from: nat, to: nat)
    requires from != to
    ensures var key, none := KeyOf(from, to), Swap(false, false);
            && Acked(Ack(none, key, to), key, to) && !Acked(Ack(none, key, to), key, from)
            && !Acked(none, key, from) && !Acked(none, key, to)
            && Partner(key, from) == to && Partner(key, to) == from
  {
  }

  lemma BodiesTwice(robots: seq<R.State>, i: nat, s: R.State, j: nat, t: R.State)
    requires Bodies(robots) && i < |robots| && j < |robots| && i != j
    requires BodyOk(s) && s.conveyorSize == robots[i].conveyorSize && BodyOk(t)
    requires t.conveyorSize == robots[j].conveyorSize
    ensures Bodies(robots[i := s][j := t])
  {
    hide BodyOk, Bodies;
    BodiesUpdate(robots, i, s);
    BodiesUpdate(robots[i := s], j, t);
  }

  /** A robot that agrees to move from `p` to `q`. */
  predicate Movable(w: World, p: nat, q: nat)
  {
    && p in w.ctrl.robots && w.ctrl.robots[p].id < |w.robots| && !w.ctrl.robots[p].pending
    && LegOf(w.robots[w.ctrl.robots[p].id]).Settled? && Within(w.robots[w.ctrl.robots[p].id], q)
  }

  function LoneMoved(w: World, from: nat, to: nat): World
    requires Movable(w, from, to)
  {
    var c, key, i := w.ctrl, KeyOf(from, to), w.ctrl.robots[from].id;
    w.(ctrl := c.(robots := c.robots[from := c.robots[from].(pending := true)],
                  swaps := c.swaps[key := Ack(Swap(false, false), key, to)]),
       robots := w.robots[i := R.SwitchCall(w.robots[i], to)])
  }

  function PairMoved(w: World, from: nat, to: nat, lost: bool): World
    requires Movable(w, from, to) && Movable(w, to, from)
  {
    var c, key, none := w.ctrl, KeyOf(from, to), Swap(false, false);
    var i, j := c.robots[from].id, c.robots[to].id;
    var one := w.robots[i := R.SwitchCall(w.robots[i], to)];
    var r, q := c.robots[from].(pending := true), c.robots[to].(pending := true);
    if lost
    then w.(ctrl := c.(robots := c.robots[from := r][to := q.(stopped := true)],
        swaps := c.swaps[key := Ack(none, key, to)]),
            robots := one)
    else w.(ctrl := c.(robots := c.robots[from := r][to := q], swaps := c.swaps[key := none]),
            robots := one[j := R.SwitchCall(w.robots[j], from)])
  }

  /** A swap with a free position. */
  lemma LoneMoveKeeps(w: World, from: nat, to: nat)
    requires WorldInv(w) && from != to && Movable(w, from, to) && to !in w.ctrl.robots && !Swapping(w.ctrl.swaps, to)
    ensures WorldInv(LoneMoved(w, from, to))
  {
    hide WorldInv, Inv, LegOf, EndOk, FreeOk, R.SwitchCall, KeyOf, Swapping, Bodies, OthersRest, InQueue, Acked,
         Partner, Ack;
    Unflagged(w, from);
    var c, r := w.ctrl, w.ctrl.robots[from];
    var s := w.robots[r.id];
    Dispatched(from, to, r, s);
    AckFlags(from, to);
    BodiesOf(w);
    BodiesUpdate(w.robots, r.id, R.SwitchCall(s, to));
    OneRests(w, from, to, R.SwitchCall(s, to));
    var remotes' := c.robots[from := r.(pending := true)];
    PairKeeps(w, remotes', w.robots[r.id := R.SwitchCall(s, to)], from, to,
              Ack(Swap(false, false), KeyOf(from, to), to));
  }

  lemma BodiesOf(w: World)
    requires WorldInv(w)
    ensures Bodies(w.robots)
  {
  }

  lemma OneRests(w: World, from: nat, to: nat, s: R.State)
    requires WorldInv(w) && from in w.ctrl.robots
    ensures OthersRest(w.ctrl.robots, w.robots, w.robots[w.ctrl.robots[from].id := s], from, to)
  {
    hide Inv, EndOk, FreeOk, Bodies, Ends, Frees, Queue, Disjoint;
  }

  lemma BothRest(w: World, from: nat, to: nat, s: R.State, t: R.State)
    requires WorldInv(w) && from in w.ctrl.robots && to in w.ctrl.robots && from != to
    ensures w.ctrl.robots[from].id != w.ctrl.robots[to].id
    ensures OthersRest(w.ctrl.robots, w.robots, w.robots[w.ctrl.robots[from].id := s][w.ctrl.robots[to].id := t], from,
            to)
  {
    hide Inv, EndOk, FreeOk, Bodies, Ends, Frees, Queue, Disjoint;
  }

  /** Both robots change places; the second call may get lost. */
  lemma PairMoveKeeps(w: World, from: nat, to: nat, lost: bool)
    requires WorldInv(w) && from != to && Movable(w, from, to) && Movable(w, to, from)
    ensures WorldInv(PairMoved(w, from, to, lost))
  {
    hide WorldInv, Inv, LegOf, EndOk, FreeOk, R.SwitchCall, KeyOf, Swapping, Bodies, OthersRest, InQueue, Acked,
         Partner, Ack;
    Unflagged(w, from);
    Unflagged(w, to);
    var c, r, q := w.ctrl, w.ctrl.robots[from], w.ctrl.robots[to];
    var s, t := w.robots[r.id], w.robots[q.id];
    var s', t', none := R.SwitchCall(s, to), R.SwitchCall(t, from), Swap(false, false);
    Dispatched(from, to, r, s);
    AckFlags(from, to);
    BodiesOf(w);
    if lost {
      Stays(to, from, q, t);
      BodiesUpdate(w.robots, r.id, s');
      BothRest(w, from, to, s', t);
      OneRests(w, from, to, s');
      var remotes' := c.robots[from := r.(pending := true)][to := q.(pending := true, stopped := true)];
      PairKeeps(w, remotes', w.robots[r.id := s'], from, to, Ack(none, KeyOf(from, to), to));
    } else {
      Dispatched(to, from, q, t);
      BothRest(w, from, to, s', t');
      BodiesTwice(w.robots, r.id, s', q.id, t');
      var remotes' := c.robots[from := r.(pending := true)][to := q.(pending := true)];
      PairKeeps(w, remotes', w.robots[r.id := s'][q.id := t'], from, to, none);
    }
  }

  // ------------------------------------------------------------------ a swap request

  lemma AvailableLeg(s: R.State)
    requires Inv(s)
    ensures s.available <==> LegOf(s).Settled?
    ensures Within(s, s.position)
  {
    LegAvailable(s);
    hide LegOf, Exclusive, ModeOk, DishOk, LoadOk, OrdersOk, TasksOk, WellFormed;
  }

  lemma SameSize(w: World, i: nat, j: nat)
    requires WorldInv(w) && i < |w.robots| && j < |w.robots|
    ensures w.robots[i].conveyorSize == w.robots[j].conveyorSize
  {
    hide Inv, Ids, Ends, Frees, Queue, Disjoint;
  }

  /** A settled robot agrees to move exactly to the other real positions. */
  lemma Agrees(s: R.State, p: nat)
    requires Inv(s) && LegOf(s).Settled? && p != s.position
    ensures R.SwitchAccepts(s, p) <==> Within(s, p)
    ensures !R.SwitchAccepts(s, p) ==> R.SwitchCall(s, p) == s
  {
    LegAvailable(s);
    hide Inv, LegOf;
  }

  /** The controller and the robots agree on every fact a swap request reads. */
  lemma MovableByAnswers(w: World, from: nat, to: nat, l: SwapLosses)
    requires WorldInv(w) && Linked(w.ctrl.robots, w.robots) && from in w.ctrl.robots
    requires SwapStarts(w.ctrl, from, to, SwapAnswersOf(w, from, to, l))
    ensures var s := w.robots[w.ctrl.robots[from].id];
            && (R.SwitchAccepts(s, to) <==> Movable(w, from, to))
            && (!R.SwitchAccepts(s, to) ==> R.SwitchCall(s, to) == s)
            && (R.SwitchAccepts(s, to) <==> Within(s, to))
    ensures to in w.ctrl.robots ==>
              R.SwitchAccepts(w.robots[w.ctrl.robots[to].id], from) && Movable(w, to, from)
  {
    hide WorldInv, Inv, LegOf, FreeOk, R.SwitchAccepts, R.SwitchCall, KeyOf, Swapping, InQueue;
    Unflagged(w, from);
    var s := w.robots[w.ctrl.robots[from].id];
    AvailableLeg(s);
    Agrees(s, to);
    if to in w.ctrl.robots {
      Unflagged(w, to);
      var t := w.robots[w.ctrl.robots[to].id];
      AvailableLeg(t);
      Agrees(t, from);
      SameSize(w, w.ctrl.robots[from].id, w.ctrl.robots[to].id);
    }
  }

  lemma StartedKeeps(w: World, from: nat, to: nat, l: SwapLosses)
    requires WorldInv(w) && Linked(w.ctrl.robots, w.robots) && from in w.ctrl.robots
    requires SwapStarts(w.ctrl, from, to, SwapAnswersOf(w, from, to, l))
    ensures WorldInv(SwapStep(w, from, to, l))
  {
    hide WorldInv, Inv, LegOf, FreeOk, R.SwitchAccepts, R.SwitchCall, KeyOf, Swapping, InQueue, Ack, Movable,
         LoneMoved, PairMoved;
    MovableByAnswers(w, from, to, l);
    var i := w.ctrl.robots[from].id;
    if l.first {
      StopUnflagged(w, from);
      FirstLost(w, from, to, l);
    } else if !R.SwitchAccepts(w.robots[i], to) {
      SameUpdate(w.robots, i);
      RunningFree(w, false);
      Declined(w, from, to, l);
    } else if to in w.ctrl.robots {
      PairMoveKeeps(w, from, to, l.second);
      IdsDiffer(w, from, to);
      BothTold(w, from, to, l);
    } else {
      LoneMoveKeeps(w, from, to);
      OneTold(w, from, to, l);
    }
  }

  lemma FirstLost(w: World, from: nat, to: nat, l: SwapLosses)
    requires Linked(w.ctrl.robots, w.robots) && from in w.ctrl.robots && l.first
    requires SwapStarts(w.ctrl, from, to, SwapAnswersOf(w, from, to, l))
    ensures SwapStep(w, from, to, l) == w.(ctrl := MarkStopped(w.ctrl, from))
  {
    hide R.SwitchAccepts, R.SwitchCall, KeyOf, Swapping, Ack;
  }

  lemma Declined(w: World, from: nat, to: nat, l: SwapLosses)
    requires Linked(w.ctrl.robots, w.robots) && from in w.ctrl.robots && !l.first
    requires SwapStarts(w.ctrl, from, to, SwapAnswersOf(w, from, to, l))
    requires var s := w.robots[w.ctrl.robots[from].id]; !R.SwitchAccepts(s, to) && R.SwitchCall(s, to) == s
    ensures SwapStep(w, from, to, l) == w.(ctrl := w.ctrl.(running := false))
  {
    hide R.SwitchAccepts, R.SwitchCall, KeyOf, Swapping, Ack;
    SameUpdate(w.robots, w.ctrl.robots[from].id);
  }

  lemma OneTold(w: World, from: nat, to: nat, l: SwapLosses)
    requires Linked(w.ctrl.robots, w.robots) && from in w.ctrl.robots && !l.first && to !in w.ctrl.robots
    requires SwapStarts(w.ctrl, from, to, SwapAnswersOf(w, from, to, l))
    requires R.SwitchAccepts(w.robots[w.ctrl.robots[from].id], to) && Movable(w, from, to)
    ensures SwapStep(w, from, to, l) == LoneMoved(w, from, to)
  {
    hide R.SwitchAccepts, R.SwitchCall, KeyOf, Swapping, Ack, Movable;
  }

  lemma BothTold(w: World, from: nat, to: nat, l: SwapLosses)
    requires Linked(w.ctrl.robots, w.robots) && from in w.ctrl.robots && !l.first && to in w.ctrl.robots
    requires SwapStarts(w.ctrl, from, to, SwapAnswersOf(w, from, to, l))
    requires R.SwitchAccepts(w.robots[w.ctrl.robots[from].id], to) && Movable(w, from, to)
    requires R.SwitchAccepts(w.robots[w.ctrl.robots[to].id], from) && Movable(w, to, from)
    requires w.ctrl.robots[from].id != w.ctrl.robots[to].id
    ensures SwapStep(w, from, to, l) == PairMoved(w, from, to, l.second)
  {
    hide R.SwitchAccepts, R.SwitchCall, KeyOf, Swapping, Ack, Movable;
  }

  lemma IdsDiffer(w: World, p: nat, q: nat)
    requires WorldInv(w) && p in w.ctrl.robots && q in w.ctrl.robots && p != q
    ensures w.ctrl.robots[p].id != w.ctrl.robots[q].id
  {
    hide Inv, Bodies, Ends, Frees, Queue, Disjoint;
  }

  lemma NotStarted(w: World, from: nat, to: nat, l: SwapLosses)
    requires Linked(w.ctrl.robots, w.robots) && from in w.ctrl.robots
    requires !SwapStarts(w.ctrl, from, to, SwapAnswersOf(w, from, to, l))
    ensures
      || SwapStep(w, from, to, l) == w
      || (!w.ctrl.robots[from].pending && SwapStep(w, from, to, l) == w.(ctrl := MarkStopped(w.ctrl, from)))
      || (to in w.ctrl.robots && !w.ctrl.robots[to].pending &&
         SwapStep(w, from, to, l) == w.(ctrl := MarkStopped(w.ctrl, to)))
  {
    hide R.SwitchAccepts, R.SwitchCall, KeyOf, Swapping, Ack;
  }

  lemma SwapKeeps(w: World, from: nat, to: nat, l: SwapLosses)
    requires WorldInv(w) && Linked(w.ctrl.robots, w.robots)
    ensures WorldInv(SwapStep(w, from, to, l))
  {
    hide WorldInv, Swapping, SwapStarts, SwapRobotPositions;
    if from in w.ctrl.robots {
      if SwapStarts(w.ctrl, from, to, SwapAnswersOf(w, from, to, l)) {
        StartedKeeps(w, from, to, l);
      } else {
        NotStarted(w, from, to, l);
        if !w.ctrl.robots[from].pending { StopUnflagged(w, from); }
        if to in w.ctrl.robots && !w.ctrl.robots[to].pending { StopUnflagged(w, to); }
      }
    }
  }

  /** The branches the source calls inconsistent are entered only when the policy names a position that
      does not exist; then the controller stops. In every other case it goes on. */
  lemma SwapStopsExactly(w: World, from: nat, to: nat, l: SwapLosses)
    requires WorldInv(w) && Linked(w.ctrl.robots, w.robots) && w.ctrl.running
    ensures !SwapStep(w, from, to, l).ctrl.running <==>
              && from in w.ctrl.robots && SwapStarts(w.ctrl, from, to, SwapAnswersOf(w, from, to, l)) && !l.first
              && !Within(w.robots[w.ctrl.robots[from].id], to)
  {
    hide WorldInv, Swapping, Movable, LoneMoved, R.SwitchAccepts, R.SwitchCall, KeyOf, Ack;
    if from in w.ctrl.robots && SwapStarts(w.ctrl, from, to, SwapAnswersOf(w, from, to, l)) {
      MovableByAnswers(w, from, to, l);
    }
  }

  /** Whatever the robots answer: the controller stops exactly if one of them says that it is available and then refuses
      to move. */
  lemma RefusalStops(c: Ctrl, from: nat, to: nat, a: SwapAnswers)
    requires c.running
    ensures !SwapRobotPositions(c, from, to, a).running <==>
              && SwapStarts(c, from, to, a)
              && (a.first == Answer(false) ||
                  (a.first == Answer(true) && to in c.robots && a.second == Answer(false)))
  {
    hide Swapping, Ack, KeyOf;
  }

  // ------------------------------------------------------------------ a reconfiguration request

  lemma Refitted(p: nat, r: Remote, s: R.State, caps: set<string>)
    requires FreeOk(p, r, s, false) && !r.pending && R.ReconfigureAccepts(s, caps)
    ensures FreeOk(p, r.(pending := true), R.ReconfigureCall(s, caps), false)
    ensures Inv(R.ReconfigureCall(s, caps)) && R.ReconfigureCall(s, caps).conveyorSize == s.conveyorSize
  {
    ReconfigureLeg(s, caps);
    hide Inv, LegOf, R.ReconfigureCall;
  }

  /** A registered robot, and the robot it stands for, change without entering or leaving a swap. */
  lemma FreeKeeps(w: World, p: nat, r: Remote, s: R.State)
    requires WorldInv(w) && p in w.ctrl.robots && r.id == w.ctrl.robots[p].id && r.id < |w.robots|
    requires !Swapping(w.ctrl.swaps, p) && BodyOk(s) && s.conveyorSize == w.robots[r.id].conveyorSize
    requires FreeOk(p, r, s, InQueue(w.callbacks, r.id))
    ensures WorldInv(w.(ctrl := w.ctrl.(robots := w.ctrl.robots[p := r]), robots := w.robots[r.id := s]))
  {
    hide Inv, EndOk, FreeOk, Disjoint, Ends, Frees, Bodies, Queue, Swapping, Partner, InQueue, Ids;
    var remotes, swaps := w.ctrl.robots, w.ctrl.swaps;
    forall k | k in swaps && Involves(k, p) ensures false { SwappingBy(swaps, k, p); }
    OneRemote(remotes, swaps, w.robots, w.callbacks, p, r, s, w.callbacks);
    BodiesUpdate(w.robots, r.id, s);
    IdsFrame(remotes, w.robots, p, r);
    QueueFrame(remotes, swaps, w.callbacks, p, r);
  }

  lemma ReconfigureKeeps(w: World, p: nat, caps: set<string>, readLost: bool, callLost: bool)
    requires WorldInv(w) && Linked(w.ctrl.robots, w.robots)
    ensures WorldInv(ReconfigureStep(w, p, caps, readLost, callLost))
  {
    hide WorldInv, Inv, LegOf, FreeOk, R.ReconfigureCall, R.ReconfigureAccepts, InQueue, Swapping;
    if p in w.ctrl.robots && !w.ctrl.robots[p].pending {
      var r := w.ctrl.robots[p];
      var s := w.robots[r.id];
      Unflagged(w, p);
      StopUnflagged(w, p);
      SameUpdate(w.robots, r.id);
      if R.ReconfigureAccepts(s, caps) {
        Refitted(p, r, s, caps);
        FreeKeeps(w, p, r.(pending := true), R.ReconfigureCall(s, caps));
      } else {
        Unchanged(s, caps);
      }
    }
  }

  lemma Unchanged(s: R.State, caps: set<string>)
    requires !R.ReconfigureAccepts(s, caps)
    ensures R.ReconfigureCall(s, caps) == s
  {
  }
}
