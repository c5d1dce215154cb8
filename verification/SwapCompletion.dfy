/** Acknowledging and completing swaps keeps the protocol's invariant: a completion is a pure exchange. */
module SwapCompletion {
  import R = Robot
  import opened RobotInvariant
  import opened RobotLegs
  import opened Controller
  import opened SwapProtocol
  import opened SwapSteps
  import opened SwapRequests

  // ------------------------------------------------------------------ the queue's head

  lemma QueueHead(remotes: map<nat, Remote>, swaps: map<Key, Swap>, q: seq<Callback>)
    requires Queue(remotes, swaps, q) && q != []
    ensures CallbackOk(remotes, swaps, q[0]) && Queue(remotes, swaps, q[1..])
    ensures InQueue(q, q[0].id) && !InQueue(q[1..], q[0].id)
    ensures forall id :: id != q[0].id ==> (InQueue(q[1..], id) <==> InQueue(q, id))
  {
    hide CallbackOk;
    forall id | id != q[0].id && InQueue(q, id) ensures InQueue(q[1..], id) {
      var i :| 0 <= i < |q| && q[i].id == id;
      assert q[1..][i - 1].id == id;
    }
    forall id | InQueue(q[1..], id) ensures InQueue(q, id) {
      var i :| 0 <= i < |q[1..]| && q[1..][i].id == id;
      assert q[i + 1].id == id;
    }
  }

  lemma Released(p: nat, r: Remote, s: R.State)
    requires FreeOk(p, r, s, true)
    ensures FreeOk(p, r.(pending := false), s, false)
  {
    hide Inv, LegOf;
  }

  lemma ReconfiguredKeeps(w: World, firstLost: bool, secondLost: bool)
    requires WorldInv(w) && Linked(w.ctrl.robots, w.robots) && w.callbacks != [] && w.callbacks[0].Reconfigured?
    ensures WorldInv(CallbackStep(w, firstLost, secondLost))
  {
    hide WorldInv, RemoveStopped;
    var w1, p := w.(ctrl := RemoveStopped(w.ctrl)), w.callbacks[0].position;
    RemoveStoppedKeeps(w);
    HeadReleased(w1);
  }

  lemma HeadReleased(w: World)
    requires WorldInv(w) && w.callbacks != [] && w.callbacks[0].Reconfigured?
    ensures var c, p := w.ctrl, w.callbacks[0].position;
            p in c.robots && WorldInv(w.(ctrl := c.(robots := c.robots[p := c.robots[p].(pending := false)]),
                callbacks := w.callbacks[1..]))
  {
    var remotes, swaps, q := w.ctrl.robots, w.ctrl.swaps, w.callbacks;
    QueueHead(remotes, swaps, q);
    var p := q[0].position;
    var r := remotes[p];
    FreeOf(w, p);
    var s, r' := w.robots[r.id], r.(pending := false);
    Released(p, r, s);
    hide Inv, EndOk, FreeOk, Disjoint, Ends, Frees, Bodies, Queue, Swapping, Partner, InQueue, Ids;
    forall k | k in swaps && Involves(k, p) ensures false { SwappingBy(swaps, k, p); }
    OneRemote(remotes, swaps, w.robots, q, p, r', s, q[1..]);
    SameUpdate(w.robots, r.id);
    IdsFrame(remotes, w.robots, p, r');
    QueueFrame(remotes, swaps, q[1..], p, r');
  }

  // ------------------------------------------------------------------ one acknowledgement

  lemma AckOther(s: Swap, k: Key, p: nat, q: nat)
    requires k.0 < k.1 && Involves(k, p) && Involves(k, q)
    ensures Acked(Ack(s, k, p), k, q) <==> q == p || Acked(s, k, q)
    ensures Ack(s, k, p).lower && Ack(s, k, p).greater <==> Acked(s, k, Partner(k, p))
  {
  }

  lemma Recorded(p: nat, q: nat, r: Remote, s: R.State, acked: bool)
    requires EndOk(p, q, r, s, acked, true)
    ensures EndOk(p, q, r, s, true, false) && !acked && r.position == q && LegOf(s).Arrived?
  {
    hide Inv, LegOf;
  }

  /** The robot that the head of the queue is about. */
  lemma HeadSwap(w: World) returns (k: Key)
    requires WorldInv(w) && w.callbacks != [] && w.callbacks[0].Swapped?
    ensures var cb := w.callbacks[0];
            && k == KeyOf(cb.from, cb.to) && k in w.ctrl.swaps && k.0 < k.1 && Involves(k, cb.from) &&
               Involves(k, cb.to)
            && cb.from != cb.to && Partner(k, cb.from) == cb.to && Partner(k, cb.to) == cb.from
            && cb.from in w.ctrl.robots && w.ctrl.robots[cb.from].id == cb.id < |w.robots|
            && EndOk(cb.from, cb.to, w.ctrl.robots[cb.from], w.robots[cb.id], Acked(w.ctrl.swaps[k], k, cb.from), true)
  {
    var cb := w.callbacks[0];
    QueueHead(w.ctrl.robots, w.ctrl.swaps, w.callbacks);
    k := KeyOf(cb.from, cb.to);
    SideOf(w, k, cb.from);
    hide Inv, EndOk, Bodies, Ends, Frees, Queue, Disjoint;
  }

  lemma AckedSwaps(swaps: map<Key, Swap>, k: Key, p: nat)
    requires Disjoint(swaps) && k in swaps
    ensures Disjoint(swaps[k := Ack(swaps[k], k, p)])
    ensures forall x :: Swapping(swaps[k := Ack(swaps[k], k, p)], x) <==> Swapping(swaps, x)
  {
    var swaps' := swaps[k := Ack(swaps[k], k, p)];
    assert swaps'.Keys == swaps.Keys;
    SameKeysDisjoint(swaps, swaps');
    forall x ensures Swapping(swaps', x) <==> Swapping(swaps, x) { SameSwapping(swaps, swaps', x); }
  }

  lemma AckedQueue(remotes: map<nat, Remote>, swaps: map<Key, Swap>, swaps': map<Key, Swap>, q: seq<Callback>)
    requires Queue(remotes, swaps, q) && swaps'.Keys == swaps.Keys
    ensures Queue(remotes, swaps', q)
  {
    forall i | 0 <= i < |q| ensures CallbackOk(remotes, swaps', q[i]) {
      assert CallbackOk(remotes, swaps, q[i]);
      SameSwapping(swaps, swaps', if q[i].Swapped? then q[i].from else q[i].position);
    }
  }

  lemma HeadOf(w: World)
    requires WorldInv(w) && w.callbacks != []
    ensures !InQueue(w.callbacks[1..], w.callbacks[0].id)
    ensures forall id :: id != w.callbacks[0].id ==> (InQueue(w.callbacks[1..], id) <==> InQueue(w.callbacks, id))
  {
    hide Inv, Bodies, Ends, Frees, Disjoint, Queue, InQueue;
    QueueHead(w.ctrl.robots, w.ctrl.swaps, w.callbacks);
  }

  lemma AckedSide(w: World, k: Key, l: Key, p: nat)
    requires WorldInv(w) && w.callbacks != [] && w.callbacks[0].Swapped?
    requires k == KeyOf(w.callbacks[0].from, w.callbacks[0].to) && k in w.ctrl.swaps
    requires l in w.ctrl.swaps && Involves(l, p)
    ensures var swaps' := w.ctrl.swaps[k := Ack(w.ctrl.swaps[k], k, w.callbacks[0].from)];
            Linked(w.ctrl.robots, w.robots) && SideOk(w.ctrl.robots, l, swaps'[l], w.robots, w.callbacks[1..], p)
  {
    hide WorldInv, Inv, LegOf, EndOk, InQueue, Partner, Acked, Ack, KeyOf;
    var cb, remotes, swaps := w.callbacks[0], w.ctrl.robots, w.ctrl.swaps;
    var key := HeadSwap(w);
    SideOf(w, l, p);
    IdsBound(w);
    HeadOf(w);
    if p in remotes && p != cb.from { IdsDiffer(w, p, cb.from); }
    if p == cb.from {
      OnlyKey(w, p, k, l);
      Recorded(cb.from, cb.to, remotes[p], w.robots[cb.id], Acked(swaps[k], k, p));
    }
    if l == k { AckOther(swaps[k], k, cb.from, p); }
  }

  lemma AckedFrees(w: World, swaps': map<Key, Swap>)
    requires WorldInv(w) && w.callbacks != [] && w.callbacks[0].Swapped?
    requires forall x :: Swapping(swaps', x) <==> Swapping(w.ctrl.swaps, x)
    ensures Linked(w.ctrl.robots, w.robots) && Frees(w.ctrl.robots, swaps', w.robots, w.callbacks[1..])
  {
    var remotes, cb := w.ctrl.robots, w.callbacks[0];
    QueueHead(remotes, w.ctrl.swaps, w.callbacks);
    var key := HeadSwap(w);
    SwappingBy(w.ctrl.swaps, key, cb.from);
    hide Inv, EndOk, FreeOk, Swapping, InQueue, Disjoint, Queue, Bodies, KeyOf, Ends;
    forall p | p in remotes && !Swapping(swaps', p)
      ensures FreeOk(p, remotes[p], w.robots[remotes[p].id], InQueue(w.callbacks[1..], remotes[p].id))
    {
      FreeOf(w, p);
    }
  }

  lemma AckKeeps(w: World, k: Key)
    requires WorldInv(w) && w.callbacks != [] && w.callbacks[0].Swapped?
    requires k == KeyOf(w.callbacks[0].from, w.callbacks[0].to) && k in w.ctrl.swaps
    ensures var swaps' := w.ctrl.swaps[k := Ack(w.ctrl.swaps[k], k, w.callbacks[0].from)];
            WorldInv(w.(ctrl := w.ctrl.(swaps := swaps'), callbacks := w.callbacks[1..]))
  {
    var swaps, from := w.ctrl.swaps, w.callbacks[0].from;
    var swaps' := swaps[k := Ack(swaps[k], k, from)];
    AckedSwaps(swaps, k, from);
    AckedFrees(w, swaps');
    QueueHead(w.ctrl.robots, swaps, w.callbacks);
    AckedQueue(w.ctrl.robots, swaps, swaps', w.callbacks[1..]);
    AckedEnds(w, k);
    hide Ends, Frees, Queue, Disjoint, Bodies, Ids, Swapping, InQueue, KeyOf, Ack;
  }

  lemma AckedEnds(w: World, k: Key)
    requires WorldInv(w) && w.callbacks != [] && w.callbacks[0].Swapped?
    requires k == KeyOf(w.callbacks[0].from, w.callbacks[0].to) && k in w.ctrl.swaps
    ensures var swaps' := w.ctrl.swaps[k := Ack(w.ctrl.swaps[k], k, w.callbacks[0].from)];
            Linked(w.ctrl.robots, w.robots) && Ends(w.ctrl.robots, swaps', w.robots, w.callbacks[1..])
  {
    hide Bodies, Ends, Frees, Queue, Disjoint, SideOk, KeyOf, Ack, EndOk, FreeOk;
    var swaps' := w.ctrl.swaps[k := Ack(w.ctrl.swaps[k], k, w.callbacks[0].from)];
    forall l, p | l in swaps' && Involves(l, p)
      ensures SideOk(w.ctrl.robots, l, swaps'[l], w.robots, w.callbacks[1..], p)
    {
      AckedSide(w, k, l, p);
    }
    EndsBySides(w.ctrl.robots, swaps', w.robots, w.callbacks[1..]);
  }

  lemma EndsBySides(remotes: map<nat, Remote>, swaps: map<Key, Swap>, robots: seq<R.State>, callbacks: seq<Callback>)
    requires Linked(remotes, robots)
    requires forall k, p :: k in swaps && Involves(k, p) ==> SideOk(remotes, k, swaps[k], robots, callbacks, p)
    ensures Ends(remotes, swaps, robots, callbacks)
  {
    hide SideOk;
  }

  // ------------------------------------------------------------------ completion

  /** The robots filed under the two positions have changed places; everything else is as it was. */
  predicate Exchanged(a: map<nat, Remote>, b: map<nat, Remote>, p: nat, q: nat)
  {
    && (forall x :: x in a && x != p && x != q ==> x in b && b[x] == a[x])
    && (forall x :: x in b && x != p && x != q ==> x in a)
    && (q in b <==> p in a) && (p in b <==> q in a)
    && (q in b && p in a ==> b[q].id == a[p].id)
    && (p in b && q in a ==> b[p].id == a[q].id)
  }

  lemma ExchangedSize(a: map<nat, Remote>, b: map<nat, Remote>, p: nat, q: nat)
    requires Exchanged(a, b, p, q) && p != q
    ensures |b| == |a|
  {
    var ka, kb := a.Keys, b.Keys;
    assert |a| == |ka| && |b| == |kb|;
    assert ka - {p, q} == kb - {p, q} && (p in ka <==> q in kb) && (q in ka <==> p in kb);
    hide Exchanged;
    Counted(ka, p, q);
    Counted(kb, p, q);
  }

  lemma Counted(s: set<nat>, p: nat, q: nat)
    requires p != q
    ensures |s| == |s - {p, q}| + (if p in s then 1 else 0) + (if q in s then 1 else 0)
  {
    CountedOne(s, p);
    CountedOne(s - {p}, q);
    assert s - {p} - {q} == s - {p, q};
  }

  lemma CountedOne(s: set<nat>, p: nat)
    ensures |s| == |s - {p}| + (if p in s then 1 else 0)
  {
    if p in s { assert s == (s - {p}) + {p}; } else { assert s == s - {p}; }
  }

  lemma ExchangedIds(a: map<nat, Remote>, b: map<nat, Remote>, robots: seq<R.State>, robots': seq<R.State>, p: nat,
                     q: nat)
    requires Ids(a, robots) && Exchanged(a, b, p, q) && p != q && |robots'| == |robots|
    ensures Ids(b, robots')
  {
    var Old := (x: nat) => if x == p then q else if x == q then p else x;
    forall x | x in b ensures Old(x) in a && b[x].id == a[Old(x)].id {}
    forall x, y | x in b && y in b && b[x].id == b[y].id ensures x == y {
      assert Old(x) == Old(y);
    }
  }

  /** The robots other than the two that are exchanged are as before. */
  lemma ExchangedSides(w: World, b: map<nat, Remote>, robots': seq<R.State>, k: Key, l: Key, p: nat)
    requires WorldInv(w) && k in w.ctrl.swaps && l in w.ctrl.swaps && l != k && Involves(l, p)
    requires Exchanged(w.ctrl.robots, b, k.0, k.1) && OthersRest(w.ctrl.robots, w.robots, robots', k.0, k.1)
    requires Linked(b, robots')
    ensures SideOk(b, l, w.ctrl.swaps[l], robots', w.callbacks, p)
  {
    hide WorldInv, EndOk, InQueue, Acked, Partner;
    SideOf(w, l, p);
    if p == k.0 || p == k.1 { OnlyKey(w, p, k, l); }
    IdsBound(w);
  }

  lemma IdsBound(w: World)
    requires WorldInv(w)
    ensures Linked(w.ctrl.robots, w.robots)
  {
  }

  lemma ErasedSwapping(swaps: map<Key, Swap>, k: Key, p: nat)
    requires Disjoint(swaps) && k in swaps
    ensures Swapping(swaps - {k}, p) <==> Swapping(swaps, p) && !Involves(k, p)
  {
    var swaps' := swaps - {k};
    if Swapping(swaps, p) && !Involves(k, p) {
      var l :| l in swaps && Involves(l, p);
      assert l in swaps';
    }
    if Swapping(swaps', p) {
      var l :| l in swaps' && Involves(l, p);
      assert l in swaps;
    }
  }

  /** The queue does not mention the two robots any more. */
  lemma ExchangedQueue(w: World, b: map<nat, Remote>, k: Key)
    requires WorldInv(w) && k in w.ctrl.swaps && Exchanged(w.ctrl.robots, b, k.0, k.1)
    requires forall p :: Involves(k, p) && p in w.ctrl.robots ==> !InQueue(w.callbacks, w.ctrl.robots[p].id)
    ensures Queue(b, w.ctrl.swaps - {k}, w.callbacks)
  {
    hide Inv, EndOk, FreeOk, Bodies, Ends, Frees, Swapping;
    var q, swaps' := w.callbacks, w.ctrl.swaps - {k};
    forall i | 0 <= i < |q| ensures CallbackOk(b, swaps', q[i]) {
      assert CallbackOk(w.ctrl.robots, w.ctrl.swaps, q[i]);
      assert InQueue(q, q[i].id);
      var p := if q[i].Swapped? then q[i].from else q[i].position;
      assert !Involves(k, p);
      ErasedSwapping(w.ctrl.swaps, k, p);
    }
  }

  lemma ExchangedEnds(w: World, b: map<nat, Remote>, robots': seq<R.State>, k: Key)
    requires WorldInv(w) && k in w.ctrl.swaps && Exchanged(w.ctrl.robots, b, k.0, k.1)
    requires OthersRest(w.ctrl.robots, w.robots, robots', k.0, k.1) && Linked(b, robots')
    ensures Ends(b, w.ctrl.swaps - {k}, robots', w.callbacks)
  {
    hide WorldInv, SideOk, Exchanged, OthersRest, Ends;
    var swaps' := w.ctrl.swaps - {k};
    forall l, p | l in swaps' && Involves(l, p) ensures SideOk(b, l, swaps'[l], robots', w.callbacks, p) {
      ExchangedSides(w, b, robots', k, l, p);
    }
    EndsBySides(b, swaps', robots', w.callbacks);
  }

  lemma ExchangedFrees(w: World, b: map<nat, Remote>, robots': seq<R.State>, k: Key)
    requires WorldInv(w) && k in w.ctrl.swaps && Exchanged(w.ctrl.robots, b, k.0, k.1)
    requires OthersRest(w.ctrl.robots, w.robots, robots', k.0, k.1) && Linked(b, robots')
    requires forall p :: Involves(k, p) && p in b ==> FreeOk(p, b[p], robots'[b[p].id], InQueue(w.callbacks, b[p].id))
    ensures Frees(b, w.ctrl.swaps - {k}, robots', w.callbacks)
  {
    hide Inv, EndOk, FreeOk, Bodies, Ends, Swapping, Queue, InQueue;
    var swaps' := w.ctrl.swaps - {k};
    forall p | p in b && !Swapping(swaps', p) ensures FreeOk(p, b[p], robots'[b[p].id], InQueue(w.callbacks, b[p].id)) {
      if !Involves(k, p) {
        ErasedSwapping(w.ctrl.swaps, k, p);
        FreeOf(w, p);
      }
    }
  }

  /** A pending swap whose robots are free again, at each other's place, can be closed. */
  lemma ExchangeKeeps(w: World, b: map<nat, Remote>, robots': seq<R.State>, k: Key)
    requires WorldInv(w) && k in w.ctrl.swaps && Exchanged(w.ctrl.robots, b, k.0, k.1)
    requires OthersRest(w.ctrl.robots, w.robots, robots', k.0, k.1) && Linked(b, robots') && Bodies(robots')
    requires forall p :: Involves(k, p) && p in w.ctrl.robots ==> !InQueue(w.callbacks, w.ctrl.robots[p].id)
    requires forall p :: Involves(k, p) && p in b ==> FreeOk(p, b[p], robots'[b[p].id], InQueue(w.callbacks, b[p].id))
    ensures WorldInv(w.(ctrl := w.ctrl.(robots := b, swaps := w.ctrl.swaps - {k}), robots := robots'))
  {
    ExchangedEnds(w, b, robots', k);
    ExchangedFrees(w, b, robots', k);
    ExchangedQueue(w, b, k);
    ErasedDisjoint(w.ctrl.swaps, k);
    KeyOrder(w.ctrl.swaps, k);
    ExchangedSize(w.ctrl.robots, b, k.0, k.1);
    ExchangedIds(w.ctrl.robots, b, w.robots, robots', k.0, k.1);
    hide Ends, Frees, Queue, Exchanged, OthersRest, Swapping, InQueue, Disjoint, Bodies, Ids, FreeOk;
  }

  lemma ErasedDisjoint(swaps: map<Key, Swap>, k: Key)
    requires Disjoint(swaps)
    ensures Disjoint(swaps - {k})
  {
    SameKeysDisjoint(swaps, swaps - {k});
  }

  // ------------------------------------------------------------------ the completing acknowledgement

  /** After the commit call a robot is free at its new position, or lost if the call got lost. */
  lemma CommittedFree(p: nat, q: nat, r: Remote, s: R.State, lost: bool)
    requires EndOk(p, q, r, s, true, false) && !r.stopped
    ensures LegOf(s).Arrived? && r.position == q
    ensures var s' := if lost then s else R.CommitCall(s);
            && FreeOk(q, r.(pending := false, stopped := lost), s', false)
            && Inv(s') && s'.conveyorSize == s.conveyorSize
  {
    if LegOf(s).Arrived? { CommitLeg(s); }
    hide Inv, LegOf, R.CommitCall;
  }

  function Completed(w: World, k: Key, firstLost: bool, secondLost: bool): World
    requires Linked(w.ctrl.robots, w.robots)
  {
    var one := Committed(w.ctrl.robots, w.robots, k.0, firstLost);
    w.(ctrl := CompleteSwap(w.ctrl, k, Asked(firstLost, true), Asked(secondLost, true)),
       robots := Committed(w.ctrl.robots, one, k.1, secondLost))
  }

  predicate BothAcked(c: Ctrl, k: Key) { k in c.swaps && c.swaps[k].lower && c.swaps[k].greater }

  /** When both sides are acknowledged, each robot of the pair that is still registered is at the other's
      place, and nothing is queued for it. */
  lemma AckedEnd(w: World, k: Key, p: nat)
    requires WorldInv(w) && BothAcked(w.ctrl, k) && Involves(k, p) && p in w.ctrl.robots && !w.ctrl.robots[p].stopped
    ensures Linked(w.ctrl.robots, w.robots)
    ensures var r := w.ctrl.robots[p];
            && EndOk(p, Partner(k, p), r, w.robots[r.id], true, false)
            && !InQueue(w.callbacks, r.id) && r.position == Partner(k, p)
  {
    SideOf(w, k, p);
    IdsBound(w);
    hide WorldInv, Inv, LegOf, InQueue, Partner;
  }

  lemma CompletedRemotes(c: Ctrl, k: Key, first: Reply, second: Reply)
    requires k.0 < k.1
    requires k.0 in c.robots ==> c.robots[k.0].position == k.1 && !c.robots[k.0].stopped
    requires k.1 in c.robots ==> c.robots[k.1].position == k.0 && !c.robots[k.1].stopped
    ensures var c' := CompleteSwap(c, k, first, second);
            && c' == c.(robots := c'.robots, swaps := c.swaps - {k})
            && Exchanged(c.robots, c'.robots, k.0, k.1)
            && (k.0 in c.robots ==> c'.robots[k.1] == c.robots[k.0].(pending := false, stopped := first.Failed?))
            && (k.1 in c.robots ==> c'.robots[k.0] == c.robots[k.1].(pending := false, stopped := second.Failed?))
  {
  }

  function BodyAfter(s: R.State, lost: bool): R.State { if lost then s else R.CommitCall(s) }

  lemma BothCommitted(remotes: map<nat, Remote>, robots: seq<R.State>, k: Key, firstLost: bool, secondLost: bool)
    requires Ids(remotes, robots) && k.0 != k.1
    ensures var robots' := Committed(remotes, Committed(remotes, robots, k.0, firstLost), k.1, secondLost);
            && OthersRest(remotes, robots, robots', k.0, k.1)
            && (k.0 in remotes ==> robots'[remotes[k.0].id] == BodyAfter(robots[remotes[k.0].id], firstLost))
            && (k.1 in remotes ==> robots'[remotes[k.1].id] == BodyAfter(robots[remotes[k.1].id], secondLost))
  {
    hide R.CommitCall;
  }

  ghost predicate CommitSafe(remotes: map<nat, Remote>, robots: seq<R.State>, p: nat)
    requires Linked(remotes, robots)
  {
    p in remotes ==> CommitSafeBody(robots[remotes[p].id])
  }

  ghost predicate CommitSafeBody(s: R.State)
  {
    Inv(R.CommitCall(s)) && R.CommitCall(s).conveyorSize == s.conveyorSize
  }

  lemma CommittedBodies(remotes: map<nat, Remote>, robots: seq<R.State>, p: nat, lost: bool)
    requires Linked(remotes, robots) && Bodies(robots) && CommitSafe(remotes, robots, p)
    ensures Bodies(Committed(remotes, robots, p, lost))
  {
    hide Bodies, R.CommitCall, Inv;
    if p in remotes && !lost {
      BodiesUpdate(robots, remotes[p].id, R.CommitCall(robots[remotes[p].id]));
    }
  }

  lemma OtherCommitted(remotes: map<nat, Remote>, robots: seq<R.State>, k: Key, lost: bool)
    requires Ids(remotes, robots) && k.0 != k.1 && CommitSafe(remotes, robots, k.1)
    ensures CommitSafe(remotes, Committed(remotes, robots, k.0, lost), k.1)
  {
    hide CommitSafeBody, R.CommitCall;
  }

  lemma CommitFacts(p: nat, q: nat, r: Remote, s: R.State)
    requires EndOk(p, q, r, s, true, false) && !r.stopped
    ensures Inv(R.CommitCall(s)) && R.CommitCall(s).conveyorSize == s.conveyorSize
  {
    hide FreeOk, R.CommitCall, EndOk, Inv, LegOf;
    CommittedFree(p, q, r, s, false);
  }

  /** The robot that was filed under `p` is free at its partner's place. */
  lemma FreeAgain(w: World, b: map<nat, Remote>, robots': seq<R.State>, k: Key, p: nat, lost: bool)
    requires WorldInv(w) && Linked(w.ctrl.robots, w.robots) && BothAcked(w.ctrl, k) && Involves(k, p)
    requires p in w.ctrl.robots && !w.ctrl.robots[p].stopped && |robots'| == |w.robots|
    requires Partner(k, p) in b && b[Partner(k, p)] == w.ctrl.robots[p].(pending := false, stopped := lost)
    requires robots'[w.ctrl.robots[p].id] == BodyAfter(w.robots[w.ctrl.robots[p].id], lost)
    ensures var q := Partner(k, p); FreeOk(q, b[q], robots'[b[q].id], InQueue(w.callbacks, b[q].id))
  {
    hide WorldInv, Inv, LegOf, EndOk, FreeOk, R.CommitCall, InQueue, Partner;
    AckedEnd(w, k, p);
    CommittedFree(p, Partner(k, p), w.ctrl.robots[p], w.robots[w.ctrl.robots[p].id], lost);
  }

  lemma AckedCommit(w: World, k: Key, p: nat)
    requires WorldInv(w) && Linked(w.ctrl.robots, w.robots) && NoneStopped(w.ctrl.robots) && BothAcked(w.ctrl, k)
    requires Involves(k, p)
    ensures CommitSafe(w.ctrl.robots, w.robots, p)
    ensures p in w.ctrl.robots ==>
            !InQueue(w.callbacks, w.ctrl.robots[p].id) && w.ctrl.robots[p].position == Partner(k, p)
  {
    hide WorldInv, Inv, LegOf, EndOk, R.CommitCall, InQueue, Partner;
    if p in w.ctrl.robots {
      AckedEnd(w, k, p);
      CommitFacts(p, Partner(k, p), w.ctrl.robots[p], w.robots[w.ctrl.robots[p].id]);
    }
  }

  lemma CompletedBodies(w: World, k: Key, firstLost: bool, secondLost: bool)
    requires WorldInv(w) && Linked(w.ctrl.robots, w.robots) && k.0 != k.1
    requires CommitSafe(w.ctrl.robots, w.robots, k.0) && CommitSafe(w.ctrl.robots, w.robots, k.1)
    ensures Bodies(Completed(w, k, firstLost, secondLost).robots)
  {
    hide CommitSafe, Inv, Committed, Ends, Frees, Queue, Disjoint, Bodies, CompleteSwap;
    var one := Committed(w.ctrl.robots, w.robots, k.0, firstLost);
    CommittedBodies(w.ctrl.robots, w.robots, k.0, firstLost);
    OtherCommitted(w.ctrl.robots, w.robots, k, firstLost);
    CommittedBodies(w.ctrl.robots, one, k.1, secondLost);
  }

  lemma CompletedShape(w: World, k: Key, firstLost: bool, secondLost: bool)
    requires WorldInv(w) && Linked(w.ctrl.robots, w.robots) && NoneStopped(w.ctrl.robots) && BothAcked(w.ctrl, k)
    requires k.0 < k.1
    ensures var c, c' := w.ctrl, Completed(w, k, firstLost, secondLost).ctrl;
            && c' == c.(robots := c'.robots, swaps := c.swaps - {k})
            && Exchanged(c.robots, c'.robots, k.0, k.1) && Linked(c'.robots, w.robots)
            && (k.0 in c.robots ==>
               k.1 in c'.robots && c'.robots[k.1] == c.robots[k.0].(pending := false, stopped := firstLost))
            && (k.1 in c.robots ==>
               k.0 in c'.robots && c'.robots[k.0] == c.robots[k.1].(pending := false, stopped := secondLost))
  {
    AckedCommit(w, k, k.0);
    AckedCommit(w, k, k.1);
    hide WorldInv, InQueue, Committed, CompleteSwap, CommitSafe, Exchanged;
    CompletedRemotes(w.ctrl, k, Asked(firstLost, true), Asked(secondLost, true));
    ExchangedMembers(w.ctrl.robots, Completed(w, k, firstLost, secondLost).ctrl.robots, k);
    ExchangedLinked(w.ctrl.robots, Completed(w, k, firstLost, secondLost).ctrl.robots, w.robots, k);
  }

  lemma CompletedFree(w: World, k: Key, firstLost: bool, secondLost: bool)
    requires WorldInv(w) && Linked(w.ctrl.robots, w.robots) && NoneStopped(w.ctrl.robots) && BothAcked(w.ctrl, k)
    requires k.0 < k.1
    ensures var remotes, w' := w.ctrl.robots, Completed(w, k, firstLost, secondLost);
            && OthersRest(remotes, w.robots, w'.robots, k.0, k.1) && Linked(w'.ctrl.robots, w'.robots)
            && (forall p :: Involves(k, p) && p in w'.ctrl.robots ==>
                  FreeOk(p, w'.ctrl.robots[p], w'.robots[w'.ctrl.robots[p].id],
                      InQueue(w.callbacks, w'.ctrl.robots[p].id)))
  {
    var remotes, w' := w.ctrl.robots, Completed(w, k, firstLost, secondLost);
    BothCommitted(remotes, w.robots, k, firstLost, secondLost);
    hide WorldInv, EndOk, FreeOk, R.CommitCall, InQueue, Committed, CompleteSwap, OthersRest, BodyAfter, Exchanged;
    CompletedShape(w, k, firstLost, secondLost);
    ExchangedMembers(remotes, w'.ctrl.robots, k);
    if k.0 in remotes { FreeAgain(w, w'.ctrl.robots, w'.robots, k, k.0, firstLost); }
    if k.1 in remotes { FreeAgain(w, w'.ctrl.robots, w'.robots, k, k.1, secondLost); }
  }

  lemma ExchangedLinked(a: map<nat, Remote>, b: map<nat, Remote>, robots: seq<R.State>, k: Key)
    requires Exchanged(a, b, k.0, k.1) && Linked(a, robots)
    ensures Linked(b, robots)
  {
  }

  lemma CompletionKeeps(w: World, k: Key, firstLost: bool, secondLost: bool)
    requires WorldInv(w) && Linked(w.ctrl.robots, w.robots) && NoneStopped(w.ctrl.robots) && BothAcked(w.ctrl, k)
    ensures WorldInv(Completed(w, k, firstLost, secondLost))
    ensures Exchanged(w.ctrl.robots, Completed(w, k, firstLost, secondLost).ctrl.robots, k.0, k.1)
  {
    hide WorldInv, FreeOk, R.CommitCall, InQueue, Committed, CompleteSwap, Exchanged, OthersRest, Bodies, CommitSafe;
    var w' := Completed(w, k, firstLost, secondLost);
    KeyOf01(w, k);
    AckedCommit(w, k, k.0);
    AckedCommit(w, k, k.1);
    CompletedBodies(w, k, firstLost, secondLost);
    CompletedShape(w, k, firstLost, secondLost);
    CompletedFree(w, k, firstLost, secondLost);
    ExchangeKeeps(w, w'.ctrl.robots, w'.robots, k);
    assert w' == w.(ctrl := w.ctrl.(robots := w'.ctrl.robots, swaps := w.ctrl.swaps - {k}), robots := w'.robots);
  }

  lemma ExchangedMembers(a: map<nat, Remote>, b: map<nat, Remote>, k: Key)
    requires Exchanged(a, b, k.0, k.1)
    ensures (k.1 in b <==> k.0 in a) && (k.0 in b <==> k.1 in a)
  {
  }

  lemma KeyOf01(w: World, k: Key)
    requires WorldInv(w) && k in w.ctrl.swaps
    ensures k.0 < k.1
  {
    KeyOrder(w.ctrl.swaps, k);
  }

  // ------------------------------------------------------------------ handling a position notification

  lemma Housekept(w: World)
    requires WorldInv(w)
    ensures var w1 := w.(ctrl := EraseStale(RemoveStopped(w.ctrl)));
            WorldInv(w1) && Linked(w1.ctrl.robots, w1.robots) && NoneStopped(w1.ctrl.robots)
  {
    HousekeepingKeeps(w);
    RemoveStoppedFacts(w.ctrl);
    IdsBound(w.(ctrl := EraseStale(RemoveStopped(w.ctrl))));
    hide WorldInv, RemoveStopped;
  }

  /** The acknowledgement of a robot whose partner has acknowledged before, or is gone, completes the swap. */
  lemma SwappedKeeps(w: World, firstLost: bool, secondLost: bool)
    requires WorldInv(w) && Linked(w.ctrl.robots, w.robots) && w.callbacks != [] && w.callbacks[0].Swapped?
    ensures WorldInv(CallbackStep(w, firstLost, secondLost))
  {
    hide WorldInv, RemoveStopped, EraseStale, KeyOf, Ack, CompleteSwap, Committed, EndOk, NoneStopped;
    var w1, cb := w.(ctrl := EraseStale(RemoveStopped(w.ctrl))), w.callbacks[0];
    Housekept(w);
    var k := HeadSwap(w1);
    AckKeeps(w1, k);
    var w2 := w1.(ctrl := w1.ctrl.(swaps := w1.ctrl.swaps[k := Ack(w1.ctrl.swaps[k], k, cb.from)]),
        callbacks := w.callbacks[1..]);
    if CompletesSwap(w1.ctrl, cb.from, cb.to) {
      CompletionKeeps(w2, k, firstLost, secondLost);
      assert CallbackStep(w, firstLost, secondLost) == Completed(w2, k, firstLost, secondLost);
    } else {
      assert CallbackStep(w, firstLost, secondLost) == w2;
    }
  }
}
