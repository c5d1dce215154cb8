/** Every step of the position-swap protocol keeps its invariant. */
module SwapSteps {
  import opened Basics
  import R = Robot
  import opened RobotInvariant
  import opened RobotRuns
  import opened RobotLegs
  import opened Controller
  import opened SwapProtocol

  // ------------------------------------------------------------------ a robot's own steps

  lemma EndAdvances(p: nat, q: nat, r: Remote, s: R.State, s': R.State, acked: bool, queued: bool)
    requires EndOk(p, q, r, s, acked, queued) && Advances(s, s')
    ensures EndOk(p, q, r, s', acked, queued)
  {
    hide Inv, LegOf;
  }

  lemma FreeAdvances(p: nat, r: Remote, s: R.State, s': R.State, queued: bool)
    requires FreeOk(p, r, s, queued) && Advances(s, s')
    ensures FreeOk(p, r, s', queued)
  {
    hide Inv, LegOf, Hung;
  }

  /** A registered robot starts to hang. */
  lemma FreeHangs(p: nat, r: Remote, s: R.State, s': R.State, queued: bool)
    requires FreeOk(p, r, s, queued) && LegOf(s).Refit? && Hung(s') && s'.position == s.position && s'.caps == s.caps
    requires s'.newCaps == s.newCaps
    ensures FreeOk(p, r, s', queued)
  {
    hide Inv;
  }

  lemma HungLeg(s: R.State)
    requires Hung(s)
    ensures LegOf(s).Refit? && !s.fault.NoFault?
  {
  }

  lemma BodiesUpdate(robots: seq<R.State>, id: nat, s: R.State)
    requires Bodies(robots) && id < |robots| && BodyOk(s) && s.conveyorSize == robots[id].conveyorSize
    ensures Bodies(robots[id := s])
  {
    hide BodyOk;
  }

  lemma AdvanceFacts(s: R.State, s': R.State)
    requires Advances(s, s')
    ensures Inv(s') && s'.conveyorSize == s.conveyorSize
  {
    hide Inv, LegOf;
  }

  lemma BodyInv(robots: seq<R.State>, id: nat)
    requires Bodies(robots) && id < |robots|
    ensures BodyOk(robots[id])
  {
    hide BodyOk;
  }

  lemma BodyOf(w: World, id: nat)
    requires WorldInv(w) && id < |w.robots|
    ensures BodyOk(w.robots[id])
    ensures !LegOf(w.robots[id]).Refit? ==> Inv(w.robots[id])
  {
    hide Inv, Hung, LegOf;
    BodyInv(w.robots, id);
    if Hung(w.robots[id]) { HungLeg(w.robots[id]); }
  }

  /** Every step of a robot's own: it advances, or it hangs. */
  lemma BodyStep(s: R.State, e: R.Event)
    requires BodyOk(s) && OwnEvent(e) && R.Admissible(s, e)
    ensures var s' := R.Step(s, e);
            && BodyOk(s') && s'.conveyorSize == s.conveyorSize
            && (Inv(s) && !Deadlocks(s, e) ==> Advances(s, s'))
            && (Hung(s) ==> s' == s)
            && (Inv(s) && Deadlocks(s, e) ==>
               LegOf(s).Refit? && Hung(s') && s'.position == s.position && s'.caps == s.caps && s'.newCaps == s.newCaps)
  {
    if Inv(s) {
      NoFaultYet(s);
      if Deadlocks(s, e) {
        StartsToHang(s, e);
      } else {
        StepAdvances(s, e);
        AdvanceFacts(s, R.Step(s, e));
      }
    }
    hide Inv, Advances, LegOf;
  }

  lemma StartsToHang(s: R.State, e: R.Event)
    requires Inv(s) && Deadlocks(s, e)
    ensures LegOf(s).Refit? && Hung(R.Step(s, e))
    ensures var s' := R.Step(s, e);
            && s'.position == s.position && s'.caps == s.caps && s'.newCaps == s.newCaps
            && s'.conveyorSize == s.conveyorSize
  {
    HangsExactly(s, e.pick);
    RefittingByRequest(s);
    assert !s.available && Within(s, s.position) by {
      hide Exclusive, ModeOk, DishOk, LoadOk, OrdersOk, TasksOk, WellFormed;
    }
    hide Inv, R.Step;
  }

  lemma EndNotRefit(p: nat, q: nat, r: Remote, s: R.State, acked: bool, queued: bool)
    requires EndOk(p, q, r, s, acked, queued)
    ensures Inv(s) && !LegOf(s).Refit? && s.fault.NoFault?
  {
    NoFaultYet(s);
    hide Inv, LegOf;
  }

  lemma EndStep(p: nat, q: nat, r: Remote, s: R.State, e: R.Event, acked: bool, queued: bool)
    requires EndOk(p, q, r, s, acked, queued) && OwnEvent(e) && R.Admissible(s, e)
    ensures EndOk(p, q, r, R.Step(s, e), acked, queued)
  {
    EndNotRefit(p, q, r, s, acked, queued);
    BodyStep(s, e);
    hide Inv, EndOk, R.Step, Advances, LegOf, Deadlocks;
    EndAdvances(p, q, r, s, R.Step(s, e), acked, queued);
  }

  lemma FreeStep(p: nat, r: Remote, s: R.State, e: R.Event, queued: bool)
    requires FreeOk(p, r, s, queued) && OwnEvent(e) && R.Admissible(s, e)
    ensures FreeOk(p, r, R.Step(s, e), queued)
  {
    assert BodyOk(s);
    BodyStep(s, e);
    hide FreeOk, R.Step, Advances, LegOf, Deadlocks, Inv, Hung;
    if Inv(s) {
      if Deadlocks(s, e) { FreeHangs(p, r, s, R.Step(s, e), queued); }
          else { FreeAdvances(p, r, s, R.Step(s, e), queued); }
    }
  }

  lemma RobotKeeps(w: World, id: nat, e: R.Event)
    requires WorldInv(w) && Linked(w.ctrl.robots, w.robots) && Admissible(w, RobotEvent(id, e))
    ensures WorldInv(Step(w, RobotEvent(id, e)))
  {
    hide BodyOk, Advances, EndOk, FreeOk, Disjoint, Queue, R.Step, R.Admissible, Deadlocks;
    var remotes, swaps, s, s' := w.ctrl.robots, w.ctrl.swaps, w.robots[id], R.Step(w.robots[id], e);
    var robots := w.robots[id := s'];
    BodyInv(w.robots, id);
    BodyStep(s, e);
    BodiesUpdate(w.robots, id, s');
    hide Bodies;
    forall k, p | k in swaps && Involves(k, p) ensures SideOk(remotes, k, swaps[k], robots, w.callbacks, p) {
      assert SideOk(remotes, k, swaps[k], w.robots, w.callbacks, p);
      if p in remotes && remotes[p].id == id {
        EndStep(p, Partner(k, p), remotes[p], s, e, Acked(swaps[k], k, p), InQueue(w.callbacks, id));
      }
    }
    forall p | p in remotes && !Swapping(swaps, p)
      ensures FreeOk(p, remotes[p], robots[remotes[p].id], InQueue(w.callbacks, remotes[p].id))
    {
      if remotes[p].id == id { FreeStep(p, remotes[p], s, e, InQueue(w.callbacks, id)); }
    }
  }

  // ------------------------------------------------------------------ notifications and lost connections

  lemma Enqueued(callbacks: seq<Callback>, cb: Callback, id: nat)
    ensures InQueue(callbacks + [cb], id) <==> InQueue(callbacks, id) || id == cb.id
  {
    var more := callbacks + [cb];
    if InQueue(callbacks, id) {
      var i :| 0 <= i < |callbacks| && callbacks[i].id == id;
      assert more[i].id == id;
    }
    assert more[|callbacks|].id == cb.id;
  }

  lemma SwapOf(swaps: map<Key, Swap>, p: nat) returns (k: Key)
    requires Swapping(swaps, p)
    ensures k in swaps && Involves(k, p)
  {
    k :| k in swaps && Involves(k, p);
  }

  lemma QueueAppend(remotes: map<nat, Remote>, swaps: map<Key, Swap>, callbacks: seq<Callback>, cb: Callback)
    requires Queue(remotes, swaps, callbacks) && CallbackOk(remotes, swaps, cb) && !InQueue(callbacks, cb.id)
    ensures Queue(remotes, swaps, callbacks + [cb])
  {
    hide CallbackOk;
    forall i, j | 0 <= i < j < |callbacks + [cb]| ensures (callbacks + [cb])[i].id != (callbacks + [cb])[j].id {
      if j == |callbacks| { assert callbacks[i].id != cb.id; }
    }
  }

  /** A remote may change in everything but its id without disturbing the queue. */
  lemma QueueFrame(remotes: map<nat, Remote>, swaps: map<Key, Swap>, callbacks: seq<Callback>, p: nat, r: Remote)
    requires Queue(remotes, swaps, callbacks) && p in remotes && r.id == remotes[p].id
    ensures Queue(remotes[p := r], swaps, callbacks)
  {
    forall i | 0 <= i < |callbacks| ensures CallbackOk(remotes[p := r], swaps, callbacks[i]) {
      assert CallbackOk(remotes, swaps, callbacks[i]);
    }
  }

  lemma IdsFrame(remotes: map<nat, Remote>, robots: seq<R.State>, p: nat, r: Remote)
    requires Ids(remotes, robots) && p in remotes && r.id == remotes[p].id
    ensures Ids(remotes[p := r], robots) && |remotes[p := r]| == |remotes|
  {
    assert remotes[p := r].Keys == remotes.Keys;
    SizeByKeys(remotes[p := r], remotes);
  }

  lemma SizeByKeys(a: map<nat, Remote>, b: map<nat, Remote>)
    requires a.Keys == b.Keys
    ensures |a| == |b|
  {
    assert |a| == |a.Keys| && |b| == |b.Keys|;
  }

  /** One remote changes, together with what is queued for its robot and with the robot itself:
      only its own condition has to be looked at again. */
  lemma OneRemote(remotes: map<nat, Remote>, swaps: map<Key, Swap>, robots: seq<R.State>, callbacks: seq<Callback>,
                  p: nat, r: Remote, s: R.State, callbacks': seq<Callback>)
    requires Ids(remotes, robots) && Disjoint(swaps)
    requires Ends(remotes, swaps, robots, callbacks) && Frees(remotes, swaps, robots, callbacks)
    requires p in remotes && r.id == remotes[p].id
    requires forall id :: id != r.id ==> (InQueue(callbacks', id) <==> InQueue(callbacks, id))
    requires forall k :: k in swaps && Involves(k, p) ==>
             EndOk(p, Partner(k, p), r, s, Acked(swaps[k], k, p), InQueue(callbacks', r.id))
    requires !Swapping(swaps, p) ==> FreeOk(p, r, s, InQueue(callbacks', r.id))
    ensures Ids(remotes[p := r], robots[r.id := s])
    ensures Ends(remotes[p := r], swaps, robots[r.id := s], callbacks')
    ensures Frees(remotes[p := r], swaps, robots[r.id := s], callbacks')
  {
    hide EndOk, FreeOk, Acked, Partner, Disjoint;
    var remotes', robots' := remotes[p := r], robots[r.id := s];
    forall k, x | k in swaps && Involves(k, x) ensures SideOk(remotes', k, swaps[k], robots', callbacks', x) {
      assert SideOk(remotes, k, swaps[k], robots, callbacks, x);
    }
    forall x | x in remotes' && !Swapping(swaps, x)
      ensures FreeOk(x, remotes'[x], robots'[remotes'[x].id], InQueue(callbacks', remotes'[x].id))
    {
      if x != p { assert x in remotes && remotes[x].id != r.id; }
    }
  }

  lemma SameUpdate(robots: seq<R.State>, id: nat)
    requires id < |robots|
    ensures robots[id := robots[id]] == robots
  {
  }

  lemma SideOf(w: World, k: Key, p: nat)
    requires WorldInv(w) && k in w.ctrl.swaps && Involves(k, p)
    ensures SideOk(w.ctrl.robots, k, w.ctrl.swaps[k], w.robots, w.callbacks, p)
  {
    hide SideOk, Bodies, Disjoint, Queue;
  }

  lemma FreeOf(w: World, p: nat)
    requires WorldInv(w) && p in w.ctrl.robots && !Swapping(w.ctrl.swaps, p)
    ensures Linked(w.ctrl.robots, w.robots)
    ensures FreeOk(p, w.ctrl.robots[p], w.robots[w.ctrl.robots[p].id], InQueue(w.callbacks, w.ctrl.robots[p].id))
  {
    hide FreeOk, Bodies, Disjoint, Queue;
  }

  lemma OnlySwap(swaps: map<Key, Swap>, p: nat, k: Key, l: Key)
    requires Disjoint(swaps) && k in swaps && Involves(k, p) && l in swaps && Involves(l, p)
    ensures k == l
  {
  }

  lemma PartnerKey(k: Key, p: nat)
    requires k.0 < k.1 && Involves(k, p)
    ensures Involves(k, Partner(k, p)) && p != Partner(k, p) && KeyOf(p, Partner(k, p)) == k
    ensures KeyOf(Partner(k, p), p) == k
    ensures Partner(k, Partner(k, p)) == p
  {
  }

  lemma KeyOrder(swaps: map<Key, Swap>, k: Key)
    requires Disjoint(swaps) && k in swaps
    ensures k.0 < k.1
  {
  }

  /** The only position change a registered robot can report is the one its swap asked for. */
  lemma ReportsItsMove(w: World, p: nat) returns (k: Key)
    requires WorldInv(w) && p in w.ctrl.robots
    requires w.robots[w.ctrl.robots[p].id].position != w.ctrl.robots[p].position
    ensures k in w.ctrl.swaps && Involves(k, p)
    ensures w.ctrl.robots[p].position == p && w.robots[w.ctrl.robots[p].id].position == Partner(k, p)
    ensures var r, s := w.ctrl.robots[p], w.robots[w.ctrl.robots[p].id];
            && !InQueue(w.callbacks, r.id)
            && (!r.stopped ==>
               EndOk(p, Partner(k, p), r.(position := s.position), s, Acked(w.ctrl.swaps[k], k, p), true))
  {
    if !Swapping(w.ctrl.swaps, p) { FreeOf(w, p); }
    k := SwapOf(w.ctrl.swaps, p);
    SideOf(w, k, p);
    hide Inv, WorldInv, Acked, Partner;
  }

  /** A remote takes note of a change and its callback is queued. */
  lemma NotedKeeps(w: World, p: nat, r: Remote, cb: Callback)
    requires WorldInv(w) && p in w.ctrl.robots && r.id == w.ctrl.robots[p].id == cb.id
    requires !InQueue(w.callbacks, cb.id) && CallbackOk(w.ctrl.robots, w.ctrl.swaps, cb)
    requires forall k :: k in w.ctrl.swaps && Involves(k, p) ==>
             EndOk(p, Partner(k, p), r, w.robots[r.id], Acked(w.ctrl.swaps[k], k, p), true)
    requires !Swapping(w.ctrl.swaps, p) ==> FreeOk(p, r, w.robots[r.id], true)
    ensures WorldInv(w.(ctrl := w.ctrl.(robots := w.ctrl.robots[p := r]), callbacks := w.callbacks + [cb]))
  {
    var remotes, swaps := w.ctrl.robots, w.ctrl.swaps;
    assert r.id < |w.robots|;
    hide Inv, EndOk, FreeOk, Disjoint, Ends, Frees, Bodies, Queue, Swapping, Partner, Ids, InQueue, CallbackOk;
    forall id ensures InQueue(w.callbacks + [cb], id) <==> InQueue(w.callbacks, id) || id == r.id {
      Enqueued(w.callbacks, cb, id);
    }
    OneRemote(remotes, swaps, w.robots, w.callbacks, p, r, w.robots[r.id], w.callbacks + [cb]);
    SameUpdate(w.robots, r.id);
    IdsFrame(remotes, w.robots, p, r);
    QueueAppend(remotes, swaps, w.callbacks, cb);
    QueueFrame(remotes, swaps, w.callbacks + [cb], p, r);
  }

  lemma PositionNoted(w: World, p: nat)
    requires WorldInv(w) && p in w.ctrl.robots
    requires w.robots[w.ctrl.robots[p].id].position != w.ctrl.robots[p].position && !w.ctrl.robots[p].stopped
    ensures var r, now := w.ctrl.robots[p], w.robots[w.ctrl.robots[p].id].position;
            WorldInv(w.(ctrl := w.ctrl.(robots := w.ctrl.robots[p := r.(position := now)]),
                        callbacks := w.callbacks + [Swapped(r.id, r.position, now)]))
  {
    var swaps, r := w.ctrl.swaps, w.ctrl.robots[p];
    var s := w.robots[r.id];
    var k := ReportsItsMove(w, p);
    var r' := r.(position := s.position);
    KeyOrder(swaps, k);
    PartnerKey(k, p);
    hide WorldInv, Inv, EndOk, FreeOk, Disjoint, Swapping, Partner, KeyOf, InQueue;
    SwappingBy(swaps, k, p);
    forall l | l in swaps && Involves(l, p) ensures EndOk(p, Partner(l, p), r', s, Acked(swaps[l], l, p), true) {
      OnlyKey(w, p, k, l);
    }
    NotedKeeps(w, p, r', Swapped(r.id, p, s.position));
  }

  lemma OnlyKey(w: World, p: nat, k: Key, l: Key)
    requires WorldInv(w) && k in w.ctrl.swaps && Involves(k, p) && l in w.ctrl.swaps && Involves(l, p)
    ensures k == l
  {
    OnlySwap(w.ctrl.swaps, p, k, l);
  }

  lemma NotifyPositionKeeps(w: World, p: nat)
    requires WorldInv(w)
    ensures WorldInv(NotifyPositionStep(w, p))
  {
    assert Linked(w.ctrl.robots, w.robots);
    hide WorldInv;
    if p in w.ctrl.robots && !w.ctrl.robots[p].stopped &&
        w.robots[w.ctrl.robots[p].id].position != w.ctrl.robots[p].position {
      PositionNoted(w, p);
    }
  }

  lemma SwappingBy(swaps: map<Key, Swap>, k: Key, p: nat)
    requires k in swaps && Involves(k, p)
    ensures Swapping(swaps, p)
  {
  }

  lemma CapabilitiesNoted(w: World, p: nat)
    requires WorldInv(w) && p in w.ctrl.robots
    requires w.robots[w.ctrl.robots[p].id].caps != w.ctrl.robots[p].caps && !w.ctrl.robots[p].stopped
    ensures var r, now := w.ctrl.robots[p], w.robots[w.ctrl.robots[p].id].caps;
            WorldInv(w.(ctrl := w.ctrl.(robots := w.ctrl.robots[p := r.(caps := now)]),
                        callbacks := w.callbacks + [Reconfigured(r.id, r.position)]))
  {
    var swaps, r := w.ctrl.swaps, w.ctrl.robots[p];
    var r' := r.(caps := w.robots[r.id].caps);
    NotSwappingByCaps(w, p);
    FreeOf(w, p);
    assert r.position == p && !InQueue(w.callbacks, r.id) && FreeOk(p, r', w.robots[r.id], true);
    hide WorldInv, Inv, EndOk, FreeOk, Swapping, Partner, InQueue;
    forall l | l in swaps && Involves(l, p) ensures false { SwappingBy(swaps, l, p); }
    NotedKeeps(w, p, r', Reconfigured(r.id, p));
  }

  lemma NotifyCapabilitiesKeeps(w: World, p: nat)
    requires WorldInv(w)
    ensures WorldInv(NotifyCapabilitiesStep(w, p))
  {
    assert Linked(w.ctrl.robots, w.robots);
    hide WorldInv;
    if p in w.ctrl.robots && !w.ctrl.robots[p].stopped && w.robots[w.ctrl.robots[p].id].caps != w.ctrl.robots[p].caps {
      CapabilitiesNoted(w, p);
    }
  }

  lemma NotSwappingByCaps(w: World, p: nat)
    requires WorldInv(w) && p in w.ctrl.robots && w.robots[w.ctrl.robots[p].id].caps != w.ctrl.robots[p].caps
    ensures !Swapping(w.ctrl.swaps, p)
  {
    if Swapping(w.ctrl.swaps, p) {
      var k := SwapOf(w.ctrl.swaps, p);
      SideOf(w, k, p);
      hide Inv, WorldInv, Acked, Partner, LegOf;
      assert false;
    }
  }

  lemma StoppedOk(p: nat, q: nat, r: Remote, s: R.State, acked: bool, queued: bool)
    ensures EndOk(p, q, r, s, acked, queued) ==> EndOk(p, q, r.(stopped := true), s, acked, false)
    ensures FreeOk(p, r, s, queued) ==> FreeOk(p, r.(stopped := true), s, false)
  {
    hide Inv, LegOf, Hung;
  }

  /** What is queued, but for one robot. */
  function Without(callbacks: seq<Callback>, id: nat): seq<Callback>
  {
    if callbacks == [] then []
    else (if callbacks[0].id == id then [] else [callbacks[0]]) + Without(callbacks[1..], id)
  }

  lemma {:induction false} WithoutElements(callbacks: seq<Callback>, id: nat)
    ensures forall cb :: cb in Without(callbacks, id) <==> cb in callbacks && cb.id != id
  {
    if callbacks != [] {
      WithoutElements(callbacks[1..], id);
      assert callbacks == [callbacks[0]] + callbacks[1..];
    }
  }

  predicate DistinctIds(callbacks: seq<Callback>)
  {
    forall i, j :: 0 <= i < j < |callbacks| ==> callbacks[i].id != callbacks[j].id
  }

  lemma DistinctTail(callbacks: seq<Callback>)
    requires DistinctIds(callbacks) && callbacks != []
    ensures DistinctIds(callbacks[1..]) && forall cb :: cb in callbacks[1..] ==> cb.id != callbacks[0].id
  {
    var rest := callbacks[1..];
    forall i, j | 0 <= i < j < |rest| ensures rest[i].id != rest[j].id {
      assert rest[i] == callbacks[i + 1] && rest[j] == callbacks[j + 1];
    }
    forall cb | cb in rest ensures cb.id != callbacks[0].id {
      var m :| 0 <= m < |rest| && rest[m] == cb;
      assert callbacks[m + 1] == cb;
    }
  }

  lemma DistinctPrepend(cb: Callback, rest: seq<Callback>)
    requires DistinctIds(rest) && forall x :: x in rest ==> x.id != cb.id
    ensures DistinctIds([cb] + rest)
  {
    var q := [cb] + rest;
    forall i, j | 0 <= i < j < |q| ensures q[i].id != q[j].id {
      assert q[j] == rest[j - 1] && rest[j - 1] in rest;
      if i > 0 { assert q[i] == rest[i - 1]; }
    }
  }

  lemma {:induction false} WithoutDistinct(callbacks: seq<Callback>, id: nat)
    requires DistinctIds(callbacks)
    ensures DistinctIds(Without(callbacks, id))
  {
    if callbacks != [] {
      var rest := Without(callbacks[1..], id);
      DistinctTail(callbacks);
      WithoutDistinct(callbacks[1..], id);
      WithoutElements(callbacks[1..], id);
      assert Without(callbacks, id) == (if callbacks[0].id == id then [] else [callbacks[0]]) + rest;
      hide Without, DistinctIds;
      DistinctPrepend(callbacks[0], rest);
      assert [] + rest == rest;
    }
  }

  lemma WithoutQueued(callbacks: seq<Callback>, id: nat, x: nat)
    ensures InQueue(Without(callbacks, id), x) <==> InQueue(callbacks, x) && x != id
  {
    WithoutElements(callbacks, id);
    var q := Without(callbacks, id);
    if InQueue(q, x) {
      var i :| 0 <= i < |q| && q[i].id == x;
      assert q[i] in callbacks;
    }
    if InQueue(callbacks, x) && x != id {
      var i :| 0 <= i < |callbacks| && callbacks[i].id == x;
      assert callbacks[i] in q;
    }
  }

  lemma WithoutQueue(remotes: map<nat, Remote>, swaps: map<Key, Swap>, callbacks: seq<Callback>, id: nat)
    requires Queue(remotes, swaps, callbacks)
    ensures Queue(remotes, swaps, Without(callbacks, id))
  {
    WithoutElements(callbacks, id);
    WithoutDistinct(callbacks, id);
    hide CallbackOk;
    var q := Without(callbacks, id);
    forall i | 0 <= i < |q| ensures CallbackOk(remotes, swaps, q[i]) { assert q[i] in callbacks; }
  }

  /** A connection is lost, together with what is queued for it. */
  lemma LoseKeeps(w: World, p: nat)
    requires WorldInv(w) && p in w.ctrl.robots
    ensures WorldInv(w.(ctrl := MarkStopped(w.ctrl, p), callbacks := Without(w.callbacks, w.ctrl.robots[p].id)))
  {
    var remotes, swaps, r := w.ctrl.robots, w.ctrl.swaps, w.ctrl.robots[p];
    var s, r', q := w.robots[r.id], r.(stopped := true), Without(w.callbacks, r.id);
    hide Inv, EndOk, FreeOk, Disjoint, Ends, Frees, Bodies, Queue, Partner, KeyOf, Ids, InQueue, Without;
    forall id ensures InQueue(q, id) <==>
        InQueue(w.callbacks, id) && id != r.id { WithoutQueued(w.callbacks, r.id, id); }
    forall k | k in swaps &&
        Involves(k, p) ensures EndOk(p, Partner(k, p), r', s, Acked(swaps[k], k, p), InQueue(q, r'.id)) {
      SideOf(w, k, p);
      StoppedOk(p, Partner(k, p), r, s, Acked(swaps[k], k, p), InQueue(w.callbacks, r.id));
    }
    if !Swapping(swaps, p) {
      FreeOf(w, p);
      StoppedOk(p, p, r, s, true, InQueue(w.callbacks, r.id));
    }
    OneRemote(remotes, swaps, w.robots, w.callbacks, p, r', s, q);
    SameUpdate(w.robots, r.id);
    IdsFrame(remotes, w.robots, p, r');
    WithoutQueue(remotes, swaps, w.callbacks, r.id);
    QueueFrame(remotes, swaps, q, p, r');
  }

  lemma {:induction false} WithoutNone(callbacks: seq<Callback>, id: nat)
    requires !InQueue(callbacks, id)
    ensures Without(callbacks, id) == callbacks
  {
    if callbacks != [] {
      assert callbacks[0].id != id;
      forall i | 0 <= i < |callbacks[1..]| ensures callbacks[1..][i].id != id { assert callbacks[1..][i] ==
          callbacks[i + 1]; }
      WithoutNone(callbacks[1..], id);
    }
  }

  /** Nothing is queued for the connection that is found lost. */
  lemma MarkStoppedKeeps(w: World, p: nat)
    requires WorldInv(w) && p in w.ctrl.robots && !InQueue(w.callbacks, w.ctrl.robots[p].id)
    ensures WorldInv(w.(ctrl := MarkStopped(w.ctrl, p)))
  {
    WithoutNone(w.callbacks, w.ctrl.robots[p].id);
    hide WorldInv, InQueue, Without;
    LoseKeeps(w, p);
  }

  // ------------------------------------------------------------------ housekeeping

  ghost predicate NoneStopped(remotes: map<nat, Remote>) { forall p :: p in remotes ==> !remotes[p].stopped }

  lemma RemoveStoppedFacts(c: Ctrl)
    ensures var c1 := RemoveStopped(c);
            && NoneStopped(c1.robots)
            && (forall p :: p in c1.robots <==> p in c.robots && !c.robots[p].stopped)
            && (forall p :: p in c1.robots ==> c1.robots[p] == c.robots[p])
            && c1.swaps.Keys == c.swaps.Keys
            && c1.running == c.running
  {
  }

  lemma RemovedSize(c: Ctrl)
    ensures |RemoveStopped(c).robots| == |c.robots| - |StoppedOnes(c.robots)|
  {
    var kept := RemoveStopped(c).robots.Keys;
    assert kept == c.robots.Keys - StoppedOnes(c.robots);
    assert StoppedOnes(c.robots) <= c.robots.Keys;
    assert |c.robots.Keys| == |kept| + |StoppedOnes(c.robots)| by {
      assert c.robots.Keys == kept + StoppedOnes(c.robots);
    }
    assert |RemoveStopped(c).robots| == |RemoveStopped(c).robots.Keys|;
    assert |c.robots| == |c.robots.Keys|;
  }

  lemma SubtractModulo(a: int, b: int)
    ensures (a % U32 - b) % U32 == (a - b) % U32 && (a % U32 + b) % U32 == (a + b) % U32
  {
  }

  lemma SameKeysDisjoint(a: map<Key, Swap>, b: map<Key, Swap>)
    requires Disjoint(a) && b.Keys <= a.Keys
    ensures Disjoint(b)
  {
    forall k, l, p | k in b && l in b && Involves(k, p) && Involves(l, p) ensures k == l {
      assert k in a && l in a;
    }
    forall k | k in b ensures k.0 < k.1 { assert k in a; }
  }

  lemma SameSwapping(a: map<Key, Swap>, b: map<Key, Swap>, p: nat)
    requires b.Keys == a.Keys
    ensures Swapping(b, p) <==> Swapping(a, p)
  {
    if Swapping(a, p) { var k :| k in a && Involves(k, p); assert k in b; }
    if Swapping(b, p) { var k :| k in b && Involves(k, p); assert k in a; }
  }

  lemma QueuedNotStopped(w: World, p: nat)
    requires WorldInv(w) && p in w.ctrl.robots && InQueue(w.callbacks, w.ctrl.robots[p].id)
    ensures !w.ctrl.robots[p].stopped
  {
    if Swapping(w.ctrl.swaps, p) {
      var k := SwapOf(w.ctrl.swaps, p);
      SideOf(w, k, p);
    } else {
      FreeOf(w, p);
    }
    hide WorldInv, Inv, LegOf, Acked, Partner;
  }

  lemma RemovedSides(w: World, k: Key, p: nat)
    requires WorldInv(w) && k in w.ctrl.swaps && Involves(k, p)
    ensures var c1 := RemoveStopped(w.ctrl);
            && Linked(c1.robots, w.robots) && k in c1.swaps
            && SideOk(c1.robots, k, c1.swaps[k], w.robots, w.callbacks, p)
  {
    SideOf(w, k, p);
    KeyOrder(w.ctrl.swaps, k);
    hide EndOk, InQueue, WorldInv;
  }

  lemma RemovedQueue(w: World)
    requires WorldInv(w)
    ensures var c1 := RemoveStopped(w.ctrl); Queue(c1.robots, c1.swaps, w.callbacks)
  {
    var c1, q := RemoveStopped(w.ctrl), w.callbacks;
    RemoveStoppedFacts(w.ctrl);
    forall i | 0 <= i < |q| ensures CallbackOk(c1.robots, c1.swaps, q[i]) {
      assert CallbackOk(w.ctrl.robots, w.ctrl.swaps, q[i]);
      var p := if q[i].Swapped? then q[i].from else q[i].position;
      QueuedNotStopped(w, p);
      SameSwapping(w.ctrl.swaps, c1.swaps, p);
      hide WorldInv, RemoveStopped;
    }
  }

  lemma RemovedFrees(w: World)
    requires WorldInv(w)
    ensures var c1 := RemoveStopped(w.ctrl);
            Linked(c1.robots, w.robots) && Frees(c1.robots, c1.swaps, w.robots, w.callbacks)
  {
    var c1 := RemoveStopped(w.ctrl);
    RemoveStoppedFacts(w.ctrl);
    hide RemoveStopped, FreeOk, Disjoint, Queue, Bodies, InQueue, Swapping, Ends;
    forall p | p in c1.robots && !Swapping(c1.swaps, p)
      ensures FreeOk(p, c1.robots[p], w.robots[c1.robots[p].id], InQueue(w.callbacks, c1.robots[p].id))
    {
      SameSwapping(w.ctrl.swaps, c1.swaps, p);
      FreeOf(w, p);
    }
  }

  lemma RemovedEnds(w: World)
    requires WorldInv(w)
    ensures var c1 := RemoveStopped(w.ctrl);
            Linked(c1.robots, w.robots) && Ends(c1.robots, c1.swaps, w.robots, w.callbacks)
  {
    var c1 := RemoveStopped(w.ctrl);
    RemoveStoppedFacts(w.ctrl);
    hide RemoveStopped, SideOk, Disjoint, Queue, Bodies, Frees;
    forall k, p | k in c1.swaps && Involves(k, p) ensures SideOk(c1.robots, k, c1.swaps[k], w.robots, w.callbacks, p) {
      RemovedSides(w, k, p);
    }
  }

  lemma RemovedIds(c: Ctrl, robots: seq<R.State>)
    requires Ids(c.robots, robots)
    ensures Ids(RemoveStopped(c).robots, robots)
  {
    RemoveStoppedFacts(c);
    hide RemoveStopped;
  }

  lemma RemovedCount(c: Ctrl)
    requires c.registered == |c.robots| % U32
    ensures RemoveStopped(c).registered == |RemoveStopped(c).robots| % U32
  {
    RemovedSize(c);
    SubtractModulo(|c.robots|, |StoppedOnes(c.robots)|);
  }

  lemma RemoveStoppedKeeps(w: World)
    requires WorldInv(w)
    ensures WorldInv(w.(ctrl := RemoveStopped(w.ctrl)))
  {
    var c1 := RemoveStopped(w.ctrl);
    hide RemoveStopped, Ids, Ends, Frees, Disjoint, Queue, Bodies;
    RemoveStoppedFacts(w.ctrl);
    RemovedCount(w.ctrl);
    SameKeysDisjoint(w.ctrl.swaps, c1.swaps);
    RemovedQueue(w);
    RemovedIds(w.ctrl, w.robots);
    RemovedEnds(w);
    RemovedFrees(w);
  }

  /** A swap none of whose robots is registered any more concerns no registered robot. */
  lemma StaleSwapping(c: Ctrl, p: nat)
    requires p in c.robots
    ensures Swapping(EraseStale(c).swaps, p) <==> Swapping(c.swaps, p)
  {
    var c1 := EraseStale(c);
    if Swapping(c.swaps, p) {
      var k :| k in c.swaps && Involves(k, p);
      assert k in c1.swaps;
    }
    if Swapping(c1.swaps, p) {
      var k :| k in c1.swaps && Involves(k, p);
      assert k in c.swaps;
    }
  }

  lemma StaleQueue(c: Ctrl, callbacks: seq<Callback>)
    requires Queue(c.robots, c.swaps, callbacks)
    ensures Queue(c.robots, EraseStale(c).swaps, callbacks)
  {
    forall i | 0 <= i < |callbacks| ensures CallbackOk(c.robots, EraseStale(c).swaps, callbacks[i]) {
      assert CallbackOk(c.robots, c.swaps, callbacks[i]);
      StaleSwapping(c, if callbacks[i].Swapped? then callbacks[i].from else callbacks[i].position);
    }
  }

  lemma StaleFrees(w: World)
    requires WorldInv(w)
    ensures Frees(w.ctrl.robots, EraseStale(w.ctrl).swaps, w.robots, w.callbacks)
  {
    hide EraseStale, FreeOk, Disjoint, Queue, Bodies, InQueue, Swapping, Ends;
    var remotes := w.ctrl.robots;
    forall p | p in remotes && !Swapping(EraseStale(w.ctrl).swaps, p)
      ensures FreeOk(p, remotes[p], w.robots[remotes[p].id], InQueue(w.callbacks, remotes[p].id))
    {
      StaleSwapping(w.ctrl, p);
      FreeOf(w, p);
    }
  }

  lemma EraseStaleKeeps(w: World)
    requires WorldInv(w)
    ensures WorldInv(w.(ctrl := EraseStale(w.ctrl)))
  {
    var c1 := EraseStale(w.ctrl);
    SameKeysDisjoint(w.ctrl.swaps, c1.swaps);
    StaleQueue(w.ctrl, w.callbacks);
    StaleFrees(w);
    assert c1.robots == w.ctrl.robots && c1.registered == w.ctrl.registered;
    assert forall k :: k in c1.swaps ==> k in w.ctrl.swaps && c1.swaps[k] == w.ctrl.swaps[k];
    hide EraseStale, SideOk, Disjoint, Queue, Bodies, Frees, Ids;
    forall k, p | k in c1.swaps && Involves(k, p) ensures SideOk(c1.robots, k, c1.swaps[k], w.robots, w.callbacks, p) {
      SideOf(w, k, p);
    }
  }

  lemma HousekeepingKeeps(w: World)
    requires WorldInv(w)
    ensures WorldInv(w.(ctrl := EraseStale(RemoveStopped(w.ctrl))))
  {
    hide WorldInv, RemoveStopped, EraseStale;
    RemoveStoppedKeeps(w);
    EraseStaleKeeps(w.(ctrl := RemoveStopped(w.ctrl)));
  }

  // ------------------------------------------------------------------ registration

  ghost predicate NotRegistered(remotes: map<nat, Remote>, id: nat)
  {
    forall p :: p in remotes ==> remotes[p].id != id
  }

  lemma NotQueued(w: World, id: nat)
    requires WorldInv(w) && NotRegistered(w.ctrl.robots, id)
    ensures !InQueue(w.callbacks, id)
  {
    hide Inv, EndOk, FreeOk, CallbackOk;
    forall i | 0 <= i < |w.callbacks| ensures w.callbacks[i].id != id {
      CallbackRegistered(w.ctrl.robots, w.ctrl.swaps, w.callbacks[i]);
    }
  }

  lemma CallbackRegistered(remotes: map<nat, Remote>, swaps: map<Key, Swap>, cb: Callback)
    requires CallbackOk(remotes, swaps, cb)
    ensures !NotRegistered(remotes, cb.id)
  {
    var p := if cb.Swapped? then cb.from else cb.position;
    assert p in remotes && remotes[p].id == cb.id;
  }

  /** A settled robot has no commit pending; one that has arrived has. */
  lemma CommitPendingByLeg(s: R.State)
    requires Inv(s) && (LegOf(s).Settled? || LegOf(s).Arrived?)
    ensures s.commitPending <==> LegOf(s).Arrived?
  {
    hide DishOk, LoadOk, OrdersOk, TasksOk, WellFormed;
  }

  /** A robot that is not registered is filed under its real position. */
  lemma AddedKeeps(w: World, r: Remote, s: R.State)
    requires WorldInv(w) && NotRegistered(w.ctrl.robots, r.id) && r.id < |w.robots|
    requires r.position !in w.ctrl.robots && !Swapping(w.ctrl.swaps, r.position)
    requires BodyOk(s) && s.conveyorSize == w.robots[r.id].conveyorSize && FreeOk(r.position, r, s, false)
    ensures var c := w.ctrl;
            WorldInv(w.(ctrl := c.(robots := c.robots[r.position := r], registered := (c.registered + 1) % U32),
                        robots := w.robots[r.id := s]))
  {
    hide Inv, EndOk, FreeOk, Disjoint, Ends, Frees, Bodies, Queue, Swapping, InQueue;
    var c, p := w.ctrl, r.position;
    NotQueued(w, r.id);
    BodiesUpdate(w.robots, r.id, s);
    AddedCount(c, p, r);
    AddedQueue(w, p, r);
    AddedEnds(w, p, r, s);
    AddedFrees(w, p, r, s);
    AddedIds(w, p, r, s);
    hide NotRegistered, Ids;
  }

  lemma AddedIds(w: World, p: nat, r: Remote, s: R.State)
    requires Ids(w.ctrl.robots, w.robots) && NotRegistered(w.ctrl.robots, r.id) && r.id < |w.robots|
    ensures Ids(w.ctrl.robots[p := r], w.robots[r.id := s])
  {
  }

  lemma AddedSize(remotes: map<nat, Remote>, p: nat, r: Remote)
    requires p !in remotes
    ensures |remotes[p := r]| == |remotes| + 1
  {
    assert remotes[p := r].Keys == remotes.Keys + {p};
    assert |remotes[p := r]| == |remotes[p := r].Keys|;
    assert |remotes| == |remotes.Keys|;
  }

  lemma AddedCount(c: Ctrl, p: nat, r: Remote)
    requires p !in c.robots && c.registered == |c.robots| % U32
    ensures (c.registered + 1) % U32 == |c.robots[p := r]| % U32
  {
    AddedSize(c.robots, p, r);
    SubtractModulo(|c.robots|, 1);
  }

  lemma AddedQueue(w: World, p: nat, r: Remote)
    requires WorldInv(w) && p !in w.ctrl.robots
    ensures Queue(w.ctrl.robots[p := r], w.ctrl.swaps, w.callbacks)
  {
    hide Inv, EndOk, FreeOk, Swapping;
    var q := w.callbacks;
    forall i | 0 <= i < |q| ensures CallbackOk(w.ctrl.robots[p := r], w.ctrl.swaps, q[i]) {
      assert CallbackOk(w.ctrl.robots, w.ctrl.swaps, q[i]);
    }
  }

  lemma AddedEnds(w: World, p: nat, r: Remote, s: R.State)
    requires WorldInv(w) && NotRegistered(w.ctrl.robots, r.id) && r.id < |w.robots| && !Swapping(w.ctrl.swaps, p)
    ensures Linked(w.ctrl.robots[p := r], w.robots[r.id := s])
    ensures Ends(w.ctrl.robots[p := r], w.ctrl.swaps, w.robots[r.id := s], w.callbacks)
  {
    hide EndOk, FreeOk, Disjoint, Queue, Bodies, InQueue, Swapping, Frees;
    var swaps := w.ctrl.swaps;
    forall k, x | k in swaps && Involves(k, x)
      ensures SideOk(w.ctrl.robots[p := r], k, swaps[k], w.robots[r.id := s], w.callbacks, x)
    {
      SideOf(w, k, x);
      SwappingBy(swaps, k, x);
    }
  }

  lemma AddedFrees(w: World, p: nat, r: Remote, s: R.State)
    requires WorldInv(w) && NotRegistered(w.ctrl.robots, r.id) && r.id < |w.robots| && !InQueue(w.callbacks, r.id)
    requires FreeOk(p, r, s, false)
    ensures Linked(w.ctrl.robots[p := r], w.robots[r.id := s])
    ensures Frees(w.ctrl.robots[p := r], w.ctrl.swaps, w.robots[r.id := s], w.callbacks)
  {
    hide EndOk, FreeOk, Disjoint, Queue, Bodies, InQueue, Swapping, Ends;
    var remotes' := w.ctrl.robots[p := r];
    forall x | x in remotes' && !Swapping(w.ctrl.swaps, x)
      ensures FreeOk(x, remotes'[x], w.robots[r.id := s][remotes'[x].id], InQueue(w.callbacks, remotes'[x].id))
    {
      if x != p { FreeOf(w, x); }
    }
  }

  /** A robot whose registration is accepted is not registered: it would be refused at the position where it is. */
  lemma AcceptedUnknown(w: World, id: nat, p: nat)
    requires WorldInv(w) && id < |w.robots| && NoneStopped(w.ctrl.robots) && p in w.ctrl.robots
    requires w.ctrl.robots[p].id == id
    ensures w.robots[id].position in w.ctrl.robots || Swapping(w.ctrl.swaps, w.robots[id].position)
  {
    if Swapping(w.ctrl.swaps, p) {
      var k := SwapOf(w.ctrl.swaps, p);
      SideOf(w, k, p);
      KeyOrder(w.ctrl.swaps, k);
      PartnerKey(k, p);
      SwappingBy(w.ctrl.swaps, k, Partner(k, p));
    } else {
      FreeOf(w, p);
    }
    hide WorldInv, Inv, LegOf, Swapping, Acked, Partner, KeyOf, InQueue, Hung;
  }

  lemma HousekeptIds(w: World, id: nat)
    requires WorldInv(w) && id < |w.robots| && Accepted(w.ctrl, w.robots[id].position, true)
    ensures NotRegistered(EraseStale(RemoveStopped(w.ctrl)).robots, id)
  {
    var c1 := EraseStale(RemoveStopped(w.ctrl));
    var w1 := w.(ctrl := c1);
    HousekeepingKeeps(w);
    RemoveStoppedFacts(w.ctrl);
    assert NoneStopped(c1.robots);
    hide WorldInv, RemoveStopped, EraseStale, Swapping;
    forall p | p in c1.robots ensures c1.robots[p].id != id {
      if c1.robots[p].id == id { AcceptedUnknown(w1, id, p); }
    }
  }

  lemma FreshFree(s: R.State, id: nat, stopped: bool)
    requires Inv(s) && (LegOf(s).Settled? || LegOf(s).Committing? || (LegOf(s).Arrived? && stopped))
    ensures FreeOk(s.position, Remote(id, s.position, s.caps, false, stopped), s, false)
  {
    hide Inv, LegOf;
  }

  lemma AfterCommit(s: R.State, told: bool)
    requires Inv(s) && (LegOf(s).Settled? || LegOf(s).Arrived? || (LegOf(s).Committing? && !told))
    requires (told ==> s.commitPending)
    ensures var s' := if told then R.CommitCall(s) else s;
            && Inv(s') && s'.conveyorSize == s.conveyorSize && s'.position == s.position && s'.caps == s.caps
            && (told || !s.commitPending ==> LegOf(s').Settled? || LegOf(s').Committing?)
            && (!told && s.commitPending ==> LegOf(s').Arrived? || LegOf(s').Committing?)
  {
    if !LegOf(s).Committing? { CommitPendingByLeg(s); }
    if told { CommitLeg(s); }
    hide Inv, LegOf;
  }

  lemma AcceptedKeeps(w: World, id: nat, readLost: bool, commitLost: bool, c1: Ctrl)
    requires id < |w.robots| && c1 == EraseStale(RemoveStopped(w.ctrl)) && WorldInv(w.(ctrl := c1))
    requires Linked(w.ctrl.robots, w.robots)
    requires Inv(w.robots[id]) && Registrable(w.robots[id], readLost, commitLost)
    requires NotRegistered(c1.robots, id)
    requires !Swapping(c1.swaps, w.robots[id].position) && w.robots[id].position !in c1.robots
    ensures WorldInv(RegisterStep(w, id, true, readLost, commitLost))
  {
    hide WorldInv, Inv, LegOf, RemoveStopped, EraseStale, FreeOk, Swapping, NotRegistered, R.CommitCall, RegisterStep;
    var s := w.robots[id];
    var lost := readLost || (s.commitPending && commitLost);
    var told := s.commitPending && !readLost && !commitLost;
    var s' := if told then R.CommitCall(s) else s;
    AfterCommit(s, told);
    FreshFree(s', id, lost);
    AddedKeeps(w.(ctrl := c1), Remote(id, s.position, s.caps, false, lost), s');
    Registered(w, id, true, readLost, commitLost, lost, s');
  }

  lemma RegisterKeeps(w: World, id: nat, connects: bool, readLost: bool, commitLost: bool)
    requires WorldInv(w) && Linked(w.ctrl.robots, w.robots)
    requires Admissible(w, Register(id, connects, readLost, commitLost))
    ensures WorldInv(RegisterStep(w, id, connects, readLost, commitLost))
  {
    hide WorldInv, Inv, LegOf, RemoveStopped, EraseStale, Swapping, NotRegistered, RegisterStep;
    HousekeepingKeeps(w);
    if Accepted(w.ctrl, w.robots[id].position, connects) {
      BodyOf(w, id);
      HousekeptIds(w, id);
      AcceptedKeeps(w, id, readLost, commitLost, EraseStale(RemoveStopped(w.ctrl)));
    } else {
      Refused(w, id, connects, readLost, commitLost);
    }
  }

  lemma Refused(w: World, id: nat, connects: bool, readLost: bool, commitLost: bool)
    requires id < |w.robots| && Linked(w.ctrl.robots, w.robots)
    requires var c1, p := EraseStale(RemoveStopped(w.ctrl)), w.robots[id].position;
             !connects || Swapping(c1.swaps, p) || p in c1.robots
    ensures RegisterStep(w, id, connects, readLost, commitLost) == w.(ctrl := EraseStale(RemoveStopped(w.ctrl)))
  {
    hide RemoveStopped, EraseStale, R.CommitCall, R.CommitAccepts;
  }

  /** What a successful registration leaves behind. */
  lemma Registered(w: World, id: nat, connects: bool, readLost: bool, commitLost: bool, lost: bool, s': R.State)
    requires id < |w.robots| && Linked(w.ctrl.robots, w.robots)
    requires var s := w.robots[id];
             && lost == (readLost || (s.commitPending && commitLost))
             && s' == (if s.commitPending && !readLost && !commitLost then R.CommitCall(s) else s)
    requires var c1, p := EraseStale(RemoveStopped(w.ctrl)), w.robots[id].position;
             connects && !Swapping(c1.swaps, p) && p !in c1.robots
    ensures var c1, s := EraseStale(RemoveStopped(w.ctrl)), w.robots[id];
            RegisterStep(w, id, connects, readLost, commitLost)
              == w.(ctrl := c1.(robots := c1.robots[s.position := Remote(id, s.position, s.caps, false, lost)],
                                registered := (c1.registered + 1) % U32),
                    robots := w.robots[id := s'])
  {
    hide RemoveStopped, EraseStale, R.CommitCall, R.CommitAccepts;
    SameUpdate(w.robots, id);
    var c1, s := EraseStale(RemoveStopped(w.ctrl)), w.robots[id];
    var r := Remote(id, s.position, s.caps, false, false);
    assert c1.robots[s.position := r][s.position := r.(stopped := true)] ==
        c1.robots[s.position := r.(stopped := true)];
  }
}
