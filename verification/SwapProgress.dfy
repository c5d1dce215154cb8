/** Which swaps finish: all of them, except those that lose a partner after the other robot's acknowledgement has been
    handled. */
module SwapProgress {
  import R = Robot
  import opened RobotInvariant
  import opened RobotLegs
  import opened Controller
  import opened SwapProtocol
  import opened SwapSteps
  import opened SwapRequests
  import opened SwapCompletion
  import opened SwapNetwork

  /** A notification about the pair is queued, whether or not its connection lasts. */
  predicate KeyQueued(queue: seq<Posted>, k: Key)
  {
    exists i :: 0 <= i < |queue| && Concerns(queue[i].callback, k)
  }

  predicate Concerns(cb: Callback, k: Key) { cb.Swapped? && KeyOf(cb.from, cb.to) == k }

  /** A swap that nothing will complete: one robot has acknowledged, the other one is lost, and nothing about them is
      queued. */
  predicate Stranded(n: Network, k: Key, p: nat)
  {
    && k in n.ctrl.swaps && Involves(k, p) && Live(n.ctrl, p) && Acked(n.ctrl.swaps[k], k, p)
    && !Live(n.ctrl, Partner(k, p)) && !KeyQueued(n.queue, k)
  }

  /** The robot's acknowledgement has been handled, and its partner has not reported anything yet. */
  predicate AckedAlone(n: Network, k: Key, p: nat)
  {
    && k in n.ctrl.swaps && Involves(k, p) && Live(n.ctrl, p) && Acked(n.ctrl.swaps[k], k, p)
    && Live(n.ctrl, Partner(k, p)) && !KeyQueued(n.queue, k)
  }

  // ------------------------------------------------------------------ what is left of a pending swap

  /** Which robots of a pending swap are connected, and which of those have acknowledged. */
  datatype View = Gone | Pair(lower: bool, greater: bool, lowerAcked: bool, greaterAcked: bool)

  function ViewOf(c: Ctrl, k: Key): View
  {
    if k in c.swaps && (Live(c, k.0) || Live(c, k.1))
    then Pair(Live(c, k.0), Live(c, k.1), Live(c, k.0) && c.swaps[k].lower, Live(c, k.1) && c.swaps[k].greater)
    else Gone
  }

  /** Somebody who is connected has not acknowledged. */
  predicate Open(v: View)
  {
    v.Gone? || (v.lower && !v.lowerAcked) || (v.greater && !v.greaterAcked)
  }

  /** While both robots of a pending swap are connected, one of them has not acknowledged. */
  ghost predicate Waiting(c: Ctrl)
  {
    forall k :: k in c.swaps ==> ViewOf(c, k) != Pair(true, true, true, true)
  }

  lemma StrandedView(n: Network, k: Key, p: nat)
    requires k in n.ctrl.swaps ==> k.0 < k.1
    ensures Stranded(n, k, p) <==>
              !KeyQueued(n.queue, k) && Involves(k, p) && k.0 < k.1
              && ViewOf(n.ctrl, k) == Pair(p == k.0, p == k.1, p == k.0, p == k.1)
    ensures Stranded(n, k, p) ==> !Open(ViewOf(n.ctrl, k))
  {
    hide KeyQueued;
  }

  // ------------------------------------------------------------------ the queue

  lemma KeyAppended(a: seq<Posted>, b: seq<Posted>, k: Key)
    ensures KeyQueued(a + b, k) <==> KeyQueued(a, k) || KeyQueued(b, k)
  {
    if i :| 0 <= i < |a| && Concerns(a[i].callback, k) { assert (a + b)[i] == a[i]; }
    if i :| 0 <= i < |b| && Concerns(b[i].callback, k) { assert (a + b)[|a| + i] == b[i]; }
  }

  lemma KeyHead(queue: seq<Posted>, k: Key)
    requires queue != []
    ensures KeyQueued(queue, k) <==> Concerns(queue[0].callback, k) || KeyQueued(queue[1..], k)
  {
    assert queue == [queue[0]] + queue[1..];
    KeyAppended([queue[0]], queue[1..], k);
    assert KeyQueued([queue[0]], k) <==> Concerns([queue[0]][0].callback, k);
  }

  lemma KeyMarked(queue: seq<Posted>, id: nat, k: Key)
    ensures KeyQueued(MarkStale(queue, id), k) <==> KeyQueued(queue, k)
  {
    MarkedElements(queue, id);
    hide MarkStale, Concerns;
    if i :| 0 <= i < |queue| && Concerns(queue[i].callback, k) { assert Concerns(MarkStale(queue, id)[i].callback, k); }
    if i :| 0 <= i < |queue| && Concerns(MarkStale(queue, id)[i].callback, k) { assert Concerns(queue[i].callback, k); }
  }

  lemma KeyFresh(cb: Callback, k: Key)
    ensures KeyQueued(Fresh([]), k) <==> false
    ensures KeyQueued(Fresh([cb]), k) <==> Concerns(cb, k)
  {
    assert Fresh([cb]) == [Posted(cb, false)];
    assert KeyQueued([Posted(cb, false)], k) <==> Concerns([Posted(cb, false)][0].callback, k);
  }

  // ------------------------------------------------------------------ what changes a pending swap

  lemma ViewHousekept(c: Ctrl, k: Key)
    requires k in c.swaps ==> k.0 < k.1
    ensures ViewOf(RemoveStopped(c), k) == ViewOf(c, k) == ViewOf(EraseStale(RemoveStopped(c)), k)
  {
    var c1 := RemoveStopped(c);
    assert forall p :: Live(c1, p) <==> Live(c, p);
    assert forall p :: p in c1.robots ==> Live(c1, p);
  }

  /** Whatever happens to robots that are not part of it does not change a swap. */
  lemma ViewElsewhere(c: Ctrl, c': Ctrl, k: Key)
    requires k in c'.swaps <==> k in c.swaps
    requires k in c.swaps ==> c'.swaps[k] == c.swaps[k]
    requires k in c.swaps ==> (Live(c', k.0) <==> Live(c, k.0)) && (Live(c', k.1) <==> Live(c, k.1))
    ensures ViewOf(c', k) == ViewOf(c, k)
  {
  }

  lemma NotInvolved(c: Ctrl, k: Key, p: nat)
    requires k in c.swaps && !Swapping(c.swaps, p)
    ensures p != k.0 && p != k.1
  {
    if Involves(k, p) { SwappingBy(c.swaps, k, p); }
  }

  lemma ViewAdded(c: Ctrl, id: nat, p: nat, caps: set<string>, a: RegistrationAnswers, k: Key)
    ensures ViewOf(AfterHousekeeping(c, id, p, caps, a), k) == ViewOf(c, k)
  {
    hide Swapping, ViewOf;
    if k in c.swaps && !Swapping(c.swaps, p) { NotInvolved(c, k, p); }
    ViewElsewhere(c, AfterHousekeeping(c, id, p, caps, a), k);
  }

  lemma ViewRegistered(c: Ctrl, id: nat, p: nat, caps: set<string>, a: RegistrationAnswers, k: Key)
    requires k in c.swaps ==> k.0 < k.1
    ensures ViewOf(HandleRegistration(c, id, p, caps, a), k) == ViewOf(c, k)
  {
    ViewHousekept(c, k);
    ViewAdded(EraseStale(RemoveStopped(c)), id, p, caps, a, k);
    hide RemoveStopped, EraseStale, Registers, ResolveMissedCommit, ViewOf, Swapping;
  }

  lemma RequestedOpen(c: Ctrl, from: nat, to: nat)
    requires var l, none := KeyOf(from, to), Swap(false, false);
             from != to && l in c.swaps && (c.swaps[l] == none || (!Live(c, to) && c.swaps[l] == Ack(none, l, to)))
    ensures Open(ViewOf(c, KeyOf(from, to)))
  {
  }

  /** A request leaves every swap alone, or starts one, for which nobody who is connected counts as acknowledged. */
  lemma ViewRequested(c: Ctrl, from: nat, to: nat, a: SwapAnswers, k: Key)
    ensures var v' := ViewOf(SwapRobotPositions(c, from, to, a), k);
            v' == ViewOf(c, k) || (ViewOf(c, k).Gone? && Open(v'))
  {
    var c' := SwapRobotPositions(c, from, to, a);
    RequestedSwaps(c, from, to, a);
    hide SwapRobotPositions, Ack;
    if SwapConsidered(c, from, to) {
      hide Swapping, Open;
      if k in c.swaps {
        NotInvolved(c, k, from);
        NotInvolved(c, k, to);
        RequestedElsewhere(c, from, to, a, k.0);
        RequestedElsewhere(c, from, to, a, k.1);
        ViewElsewhere(c, c', k);
      } else if k in c'.swaps {
        RequestedOpen(c', from, to);
      }
    }
  }

  lemma ViewReconfigured(c: Ctrl, p: nat, available: Reply, call: Reply, k: Key)
    requires p in c.robots && !c.robots[p].pending ==> !Swapping(c.swaps, p)
    ensures ViewOf(ReconfigureRobot(c, p, available, call), k) == ViewOf(c, k)
  {
    hide Swapping, ViewOf;
    if k in c.swaps && !Swapping(c.swaps, p) { NotInvolved(c, k, p); }
    ViewElsewhere(c, ReconfigureRobot(c, p, available, call), k);
  }

  lemma ViewReleased(c: Ctrl, p: nat, k: Key)
    requires k in c.swaps ==> k.0 < k.1
    ensures ViewOf(CapabilitiesReconfigured(c, p), k) == ViewOf(c, k)
  {
    ViewHousekept(c, k);
    hide RemoveStopped, ViewOf;
    ViewElsewhere(RemoveStopped(c), CapabilitiesReconfigured(c, p), k);
  }

  /** Completing a swap moves nobody who is part of another one. */
  lemma ViewCompleted(c: Ctrl, l: Key, first: Reply, second: Reply, k: Key)
    requires Disjoint(c.swaps) && l in c.swaps && k != l
    requires PairAway(c.robots, l)
    ensures ViewOf(CompleteSwap(c, l, first, second), k) == ViewOf(c, k)
  {
    if k in c.swaps {
      if Involves(l, k.0) { OnlySwap(c.swaps, k.0, k, l); }
      if Involves(l, k.1) { OnlySwap(c.swaps, k.1, k, l); }
    }
    hide Disjoint, ViewOf;
    ViewElsewhere(c, CompleteSwap(c, l, first, second), k);
  }

  /** Handling an acknowledgement completes its swap or leaves somebody who has yet to acknowledge; other swaps stay as
      they are. */
  lemma ViewAcknowledged(c: Ctrl, from: nat, to: nat, first: Reply, second: Reply, k: Key)
    requires Disjoint(c.swaps) && NoneStopped(c.robots)
    requires var l := KeyOf(from, to);
            l in c.swaps ==> forall p :: Involves(l, p) && p !in c.robots ==> Acked(c.swaps[l], l, p)
    requires CompletesSwap(c, from, to) ==> PairAway(c.robots, KeyOf(from, to))
    ensures var v' := ViewOf(Acknowledge(c, from, to, first, second), k);
            if k == KeyOf(from, to) then Open(v') else v' == ViewOf(c, k)
  {
    var l := KeyOf(from, to);
    if l in c.swaps {
      var c1 := c.(swaps := c.swaps[l := Ack(c.swaps[l], l, from)]);
      if k == l {
        hide Disjoint, CompleteSwap;
        AcknowledgedOpen(c, from, to, first, second);
      } else {
        AckedSwaps(c.swaps, l, from);
        hide Disjoint, CompleteSwap, Ack, KeyOf;
        assert ViewOf(c1, k) == ViewOf(c, k);
        if CompletesSwap(c, from, to) { ViewCompleted(c1, l, first, second, k); }
      }
    } else {
      hide Disjoint;
    }
  }

  lemma AcknowledgedOpen(c: Ctrl, from: nat, to: nat, first: Reply, second: Reply)
    requires NoneStopped(c.robots) && KeyOf(from, to) in c.swaps
    requires var l := KeyOf(from, to); forall p :: Involves(l, p) && p !in c.robots ==> Acked(c.swaps[l], l, p)
    requires var l := KeyOf(from, to); l.0 != l.1
    ensures Open(ViewOf(Acknowledge(c, from, to, first, second), KeyOf(from, to)))
  {
    var l := KeyOf(from, to);
    assert Involves(l, l.0) && Involves(l, l.1);
    if CompletesSwap(c, from, to) {
      assert l !in Acknowledge(c, from, to, first, second).swaps;
    }
  }

  // ------------------------------------------------------------------ steps of the network

  /** A step leaves the swap and the notifications about it alone, or somebody has yet to acknowledge it. */
  ghost predicate Undecided(n: Network, n': Network, k: Key)
  {
    var v, v' := ViewOf(n.ctrl, k), ViewOf(n'.ctrl, k);
    || (v' == v && (KeyQueued(n'.queue, k) <==> KeyQueued(n.queue, k)))
    || ((Open(v) || KeyQueued(n.queue, k)) && Open(v'))
  }

  lemma Ordered(n: Network, k: Key)
    requires NetInv(n) && k in n.ctrl.swaps
    ensures k.0 < k.1
  {
    OrderedKeys(n);
    hide NetInv;
  }

  lemma PostsNothing(n: Network, e: Event)
    requires Linked(n.ctrl.robots, n.robots) && Plain(e) && !e.NotifyPosition? && !e.NotifyCapabilities?
    ensures NetStep(n, e).queue == n.queue
  {
    var q := n.queue;
    hide R.Step, HandleRegistration, SwapRobotPositions, ReconfigureRobot, RemoveStopped, EraseStale, R.SwitchCall,
         R.CommitCall, R.ReconfigureCall, SwapAnswersOf, SwapStarts, Registers, ReconfigurationStarts;
    assert Step(World(n.ctrl, n.robots, []), e).callbacks == [];
    assert q + [] == q;
  }

  predicate Reports(n: Network, p: nat)
    requires Linked(n.ctrl.robots, n.robots)
  {
    p in n.ctrl.robots && !n.ctrl.robots[p].stopped &&
        n.robots[n.ctrl.robots[p].id].position != n.ctrl.robots[p].position
  }

  lemma ReportedView(n: Network, p: nat, k: Key)
    requires Linked(n.ctrl.robots, n.robots)
    ensures ViewOf(NetStep(n, NotifyPosition(p)).ctrl, k) == ViewOf(n.ctrl, k)
  {
    hide ViewOf, Fresh;
    ViewElsewhere(n.ctrl, NetStep(n, NotifyPosition(p)).ctrl, k);
  }

  /** A report is about the swap that its robot is part of, and which the robot has not acknowledged yet. */
  lemma ReportsOpen(n: Network, p: nat) returns (l: Key)
    requires NetInv(n) && Linked(n.ctrl.robots, n.robots) && Reports(n, p)
    ensures var r := n.ctrl.robots[p];
            l == KeyOf(r.position, n.robots[r.id].position) && Open(ViewOf(n.ctrl, l))
  {
    l := ReportsItsMove(Core(n), p);
    Ordered(n, l);
    PartnerKey(l, p);
    SideOfNet(n, l, p);
    hide NetInv, LegOf, KeyOf;
  }

  lemma ReportQueued(n: Network, p: nat, k: Key)
    requires Linked(n.ctrl.robots, n.robots) && Reports(n, p)
    ensures var r := n.ctrl.robots[p];
            KeyQueued(NetStep(n, NotifyPosition(p)).queue, k) <==>
              KeyQueued(n.queue, k) || k == KeyOf(r.position, n.robots[r.id].position)
  {
    var r := n.ctrl.robots[p];
    var cb := Swapped(r.id, r.position, n.robots[r.id].position);
    PostedOne(n, NotifyPosition(p), cb);
    KeyAppended(n.queue, Fresh([cb]), k);
    KeyFresh(cb, k);
    hide NetStep, Fresh, KeyQueued, KeyOf;
  }

  lemma PositionUndecided(n: Network, p: nat, k: Key)
    requires NetInv(n) && Linked(n.ctrl.robots, n.robots)
    ensures Undecided(n, NetStep(n, NotifyPosition(p)), k)
  {
    if Reports(n, p) {
      var l := ReportsOpen(n, p);
      ReportQueued(n, p, k);
      ReportedView(n, p, k);
      hide NetInv, NetStep, KeyQueued, KeyOf, ViewOf, Open;
    } else {
      PostedNone(n, NotifyPosition(p));
    }
  }

  /** Who has not reported its arrival yet has not acknowledged. */
  lemma SideOfNet(n: Network, k: Key, p: nat)
    requires NetInv(n) && Linked(n.ctrl.robots, n.robots) && k in n.ctrl.swaps && Involves(k, p)
    requires p in n.ctrl.robots && n.robots[n.ctrl.robots[p].id].position != n.ctrl.robots[p].position
    ensures !Acked(n.ctrl.swaps[k], k, p)
  {
    SideOf(Core(n), k, p);
    hide NetInv, LegOf, InQueue, Partner, Acked;
  }

  lemma PostedOne(n: Network, e: Event, cb: Callback)
    requires Linked(n.ctrl.robots, n.robots) && Plain(e) && Step(World(n.ctrl, n.robots, []), e).callbacks == [cb]
    ensures NetStep(n, e).queue == n.queue + Fresh([cb])
  {
    hide Step, Fresh;
  }

  lemma PostedNone(n: Network, e: Event)
    requires Linked(n.ctrl.robots, n.robots) && Plain(e)
    requires Step(World(n.ctrl, n.robots, []), e) == World(n.ctrl, n.robots, [])
    ensures NetStep(n, e) == n
  {
    hide Step;
    assert n.queue + [] == n.queue;
  }

  lemma CapabilitiesUndecided(n: Network, p: nat, k: Key)
    requires Linked(n.ctrl.robots, n.robots)
    ensures Undecided(n, NetStep(n, NotifyCapabilities(p)), k)
  {
    var n' := NetStep(n, NotifyCapabilities(p));
    if p in n.ctrl.robots && !n.ctrl.robots[p].stopped && n.robots[n.ctrl.robots[p].id].caps != n.ctrl.robots[p].caps {
      var cb := Reconfigured(n.ctrl.robots[p].id, n.ctrl.robots[p].position);
      PostedOne(n, NotifyCapabilities(p), cb);
      KeyAppended(n.queue, Fresh([cb]), k);
      KeyFresh(cb, k);
      hide Fresh, KeyQueued;
      ViewElsewhere(n.ctrl, n'.ctrl, k);
    } else {
      PostedNone(n, NotifyCapabilities(p));
    }
  }

  lemma RegisterUndecided(n: Network, e: Event, k: Key)
    requires NetInv(n) && Linked(n.ctrl.robots, n.robots) && e.Register?
    ensures ViewOf(NetStep(n, e).ctrl, k) == ViewOf(n.ctrl, k)
  {
    if k in n.ctrl.swaps { Ordered(n, k); }
    hide NetInv, HandleRegistration, Registers, R.CommitCall, R.CommitAccepts, RemoveStopped, EraseStale, Fresh, ViewOf;
    if e.id < |n.robots| {
      var s := n.robots[e.id];
      ViewRegistered(n.ctrl, e.id, s.position, s.caps,
        RegistrationAnswers(e.connects, Asked(e.readLost, s.commitPending),
                            Asked(e.commitLost, R.CommitAccepts(s))), k);
    }
  }

  lemma SwapUndecided(n: Network, e: Event, k: Key)
    requires Linked(n.ctrl.robots, n.robots) && e.SwapRequest?
    ensures Undecided(n, NetStep(n, e), k)
  {
    PostsNothing(n, e);
    if n.ctrl.running && e.from in n.ctrl.robots {
      SwapCtrl(n, e);
      ViewRequested(n.ctrl, e.from, e.to, SwapAnswersOf(World(n.ctrl, n.robots, []), e.from, e.to, e.losses), k);
      hide SwapRobotPositions, NetStep, SwapAnswersOf, ViewOf, KeyQueued;
    } else {
      hide KeyQueued;
    }
  }

  lemma UnflaggedNet(n: Network, p: nat)
    requires NetInv(n) && p in n.ctrl.robots && !n.ctrl.robots[p].pending
    ensures !Swapping(n.ctrl.swaps, p)
  {
    assert WorldInv(Core(n));
    hide NetInv, WorldInv, FreeOk, Swapping;
    Unflagged(Core(n), p);
  }

  lemma ReconfigureUndecided(n: Network, e: Event, k: Key)
    requires NetInv(n) && Linked(n.ctrl.robots, n.robots) && e.ReconfigureRequest?
    ensures ViewOf(NetStep(n, e).ctrl, k) == ViewOf(n.ctrl, k)
  {
    hide NetInv, ReconfigureRobot, R.ReconfigureCall, R.ReconfigureAccepts, Fresh, ViewOf, Swapping;
    if n.ctrl.running && e.at in n.ctrl.robots {
      var s := n.robots[n.ctrl.robots[e.at].id];
      if !n.ctrl.robots[e.at].pending { UnflaggedNet(n, e.at); }
      ViewReconfigured(n.ctrl, e.at, Asked(e.readLost, s.available), Asked(e.callLost, R.ReconfigureAccepts(s, e.caps)),
                       k);
    }
  }

  lemma HousekeepingUndecided(n: Network, k: Key)
    requires NetInv(n) && Linked(n.ctrl.robots, n.robots)
    ensures ViewOf(NetStep(n, Housekeeping).ctrl, k) == ViewOf(n.ctrl, k)
  {
    if k in n.ctrl.swaps { Ordered(n, k); }
    ViewHousekept(n.ctrl, k);
    hide NetInv, RemoveStopped, EraseStale, Fresh, ViewOf;
  }

  // ------------------------------------------------------------------ handling a notification

  /** The swap that the oldest notification completes, with both sides acknowledged. */
  function Completing(n: Network): Ctrl
    requires n.queue != [] && n.queue[0].callback.Swapped?
    requires CompletesSwap(EraseStale(RemoveStopped(n.ctrl)), n.queue[0].callback.from, n.queue[0].callback.to)
  {
    var c1, cb := EraseStale(RemoveStopped(n.ctrl)), n.queue[0].callback;
    var l := KeyOf(cb.from, cb.to);
    c1.(swaps := c1.swaps[l := Ack(c1.swaps[l], l, cb.from)])
  }

  lemma StaleCompleting(n: Network)
    requires HeadOk(n) && Linked(n.ctrl.robots, n.robots) && n.queue[0].callback.Swapped?
    requires n.queue[0].stale
    requires CompletesSwap(EraseStale(RemoveStopped(n.ctrl)), n.queue[0].callback.from, n.queue[0].callback.to)
    ensures WorldInv(World(Completing(n), n.robots, LiveOf(n.queue)))
  {
    var cb := n.queue[0].callback;
    var c1 := EraseStale(RemoveStopped(n.ctrl));
    Housekept(Core(n));
    StaleAcked(n, cb);
    AckNothing(c1, cb.from, cb.to);
    assert Completing(n) == c1;
    hide WorldInv, RemoveStopped, EraseStale, LiveOf, Completing;
  }

  lemma LiveCompleting(n: Network)
    requires HeadOk(n) && Linked(n.ctrl.robots, n.robots) && n.queue[0].callback.Swapped?
    requires !n.queue[0].stale
    requires CompletesSwap(EraseStale(RemoveStopped(n.ctrl)), n.queue[0].callback.from, n.queue[0].callback.to)
    ensures WorldInv(World(Completing(n), n.robots, LiveOf(n.queue)[1..]))
  {
    var w1 := World(EraseStale(RemoveStopped(n.ctrl)), n.robots, LiveOf(n.queue));
    Housekept(Core(n));
    LiveQueue(n);
    hide WorldInv, RemoveStopped, EraseStale, LiveOf, KeyOf, NoneStopped, Ack;
    var l := HeadSwap(w1);
    AckKeeps(w1, l);
  }

  lemma CompletingKeeps(n: Network) returns (rest: seq<Callback>)
    requires HeadOk(n) && Linked(n.ctrl.robots, n.robots) && n.queue[0].callback.Swapped?
    requires CompletesSwap(EraseStale(RemoveStopped(n.ctrl)), n.queue[0].callback.from, n.queue[0].callback.to)
    ensures var c, l := Completing(n), KeyOf(n.queue[0].callback.from, n.queue[0].callback.to);
            && WorldInv(World(c, n.robots, rest)) && Linked(c.robots, n.robots) && NoneStopped(c.robots)
            && BothAcked(c, l) && c.robots == EraseStale(RemoveStopped(n.ctrl)).robots
  {
    Housekept(Core(n));
    CompletingShape(n);
    assert n.queue != [];
    hide WorldInv, HeadOk, RemoveStopped, EraseStale, LiveOf, NoneStopped, Completing, CompletesSwap, KeyOf, BothAcked;
    if n.queue[0].stale {
      StaleCompleting(n);
      rest := LiveOf(n.queue);
    } else {
      LiveCompleting(n);
      rest := LiveOf(n.queue)[1..];
    }
  }

  lemma CompletingShape(n: Network)
    requires n.queue != [] && n.queue[0].callback.Swapped?
    requires CompletesSwap(EraseStale(RemoveStopped(n.ctrl)), n.queue[0].callback.from, n.queue[0].callback.to)
    ensures Completing(n).robots == EraseStale(RemoveStopped(n.ctrl)).robots
    ensures BothAcked(Completing(n), KeyOf(n.queue[0].callback.from, n.queue[0].callback.to))
  {
    hide RemoveStopped, EraseStale, KeyOf, Ack;
  }

  predicate PairAway(remotes: map<nat, Remote>, l: Key)
  {
    (l.0 in remotes ==> remotes[l.0].position == l.1) && (l.1 in remotes ==> remotes[l.1].position == l.0)
  }

  /** The robots of a swap that is being completed have reported each other's position, whether or not the
      acknowledgement is that of a lost robot. */
  lemma CompletedAway(n: Network)
    requires HeadOk(n) && Linked(n.ctrl.robots, n.robots) && n.queue[0].callback.Swapped?
    requires CompletesSwap(EraseStale(RemoveStopped(n.ctrl)), n.queue[0].callback.from, n.queue[0].callback.to)
    ensures PairAway(EraseStale(RemoveStopped(n.ctrl)).robots, KeyOf(n.queue[0].callback.from, n.queue[0].callback.to))
  {
    assert n.queue != [];
    hide HeadOk, WorldInv, EraseStale, RemoveStopped, KeyOf, CompletesSwap, Completing, NoneStopped;
    var rest := CompletingKeeps(n);
    BothAway(World(Completing(n), n.robots, rest), KeyOf(n.queue[0].callback.from, n.queue[0].callback.to));
  }

  /** After housekeeping, whoever is gone counts as acknowledged. */
  lemma GoneAcked(n: Network, l: Key)
    requires WorldInv(Core(n))
    ensures var c1 := EraseStale(RemoveStopped(n.ctrl));
            && Disjoint(c1.swaps) && NoneStopped(c1.robots)
            && (l in c1.swaps ==> forall p :: Involves(l, p) && p !in c1.robots ==> Acked(c1.swaps[l], l, p))
  {
    var c1 := EraseStale(RemoveStopped(n.ctrl));
    var w1 := World(c1, n.robots, LiveOf(n.queue));
    Housekept(Core(n));
    assert Disjoint(w1.ctrl.swaps);
    hide WorldInv, RemoveStopped, EraseStale, LiveOf, StaleOk, Acked, Disjoint;
    if l in c1.swaps {
      forall p | Involves(l, p) && p !in c1.robots ensures Acked(c1.swaps[l], l, p) { SideOf(w1, l, p); }
    }
  }

  lemma HandleUndecided(n: Network, firstLost: bool, secondLost: bool, k: Key)
    requires NetInv(n) && Linked(n.ctrl.robots, n.robots) && n.queue != []
    ensures Undecided(n, Handle(n, firstLost, secondLost), k)
  {
    var cb, n' := n.queue[0].callback, Handle(n, firstLost, secondLost);
    KeyHead(n.queue, k);
    if k in n.ctrl.swaps { Ordered(n, k); }
    if cb.Reconfigured? {
      ViewReleased(n.ctrl, cb.position, k);
      hide NetInv, CapabilitiesReconfigured, KeyQueued, ViewOf;
    } else {
      var c1, l := EraseStale(RemoveStopped(n.ctrl)), KeyOf(cb.from, cb.to);
      ViewHousekept(n.ctrl, k);
      GoneAcked(n, l);
      if CompletesSwap(c1, cb.from, cb.to) { CompletedAway(n); }
      ViewAcknowledged(c1, cb.from, cb.to, Asked(firstLost, true), Asked(secondLost, true), k);
      hide NetInv, RemoveStopped, EraseStale, Acknowledge, CompletesSwap, Committed, KeyQueued, ViewOf, KeyOf;
      assert n'.ctrl == Acknowledge(c1, cb.from, cb.to, Asked(firstLost, true), Asked(secondLost, true));
    }
  }

  lemma StepUndecided(n: Network, e: Event, k: Key)
    requires NetInv(n) && Linked(n.ctrl.robots, n.robots) && Reliable(n, e) && !e.Lose?
    ensures Undecided(n, NetStep(n, e), k)
  {
    if e.NotifyPosition? {
      PositionUndecided(n, e.at, k);
    } else if e.NotifyCapabilities? {
      CapabilitiesUndecided(n, e.at, k);
    } else if e.HandleCallback? {
      if n.ctrl.running && n.queue != [] { HandleUndecided(n, e.firstLost, e.secondLost, k); }
    } else if e.SwapRequest? {
      SwapUndecided(n, e, k);
    } else {
      PostsNothing(n, e);
      if e.Register? {
        RegisterUndecided(n, e, k);
      } else if e.ReconfigureRequest? {
        ReconfigureUndecided(n, e, k);
      } else if e.Housekeeping? {
        HousekeepingUndecided(n, k);
      }
    }
    hide NetInv, Reliable, Handle, RemoveStopped, EraseStale, R.Step, KeyQueued;
  }

  // ------------------------------------------------------------------ when a swap strands

  lemma LossViews(n: Network, at: nat, k: Key, p: nat)
    requires Linked(n.ctrl.robots, n.robots) && (k in n.ctrl.swaps ==> k.0 < k.1)
    ensures var n' := NetStep(n, Lose(at));
            Stranded(n', k, p) <==> (Stranded(n, k, p) && at != p) || (at == Partner(k, p) && AckedAlone(n, k, p))
    ensures ViewOf(n.ctrl, k) != Pair(true, true, true, true) ==>
              ViewOf(NetStep(n, Lose(at)).ctrl, k) != Pair(true, true, true, true)
  {
    if at in n.ctrl.robots { KeyMarked(n.queue, n.ctrl.robots[at].id, k); }
    hide KeyQueued, MarkStale;
  }

  /** Whether a swap is stranded after a step: it was, and its waiting robot is still connected, or its other robot is
      lost right after the waiting one's acknowledgement has been handled. Nothing else strands a swap, and nothing else
      frees it. */
  lemma StrandsExactly(n: Network, e: Event, k: Key, p: nat)
    requires NetInv(n) && Linked(n.ctrl.robots, n.robots) && Reliable(n, e)
    ensures Stranded(NetStep(n, e), k, p) <==>
              (Stranded(n, k, p) && e != Lose(p)) || (e == Lose(Partner(k, p)) && AckedAlone(n, k, p))
  {
    var n' := NetStep(n, e);
    if k in n.ctrl.swaps { Ordered(n, k); }
    if e.Lose? {
      LossViews(n, e.at, k, p);
    } else {
      NetStepKeeps(n, e);
      if k in n'.ctrl.swaps { Ordered(n', k); }
      StepUndecided(n, e, k);
      StrandedView(n, k, p);
      StrandedView(n', k, p);
    }
    hide NetInv, NetStep, Reliable, KeyQueued, Stranded, AckedAlone, ViewOf;
  }

  lemma NotPending(c: Ctrl, k: Key)
    ensures k !in c.swaps ==> ViewOf(c, k).Gone?
  {
  }

  lemma WaitingKey(n: Network, e: Event, k: Key)
    requires NetInv(n) && Linked(n.ctrl.robots, n.robots) && Reliable(n, e)
    requires ViewOf(n.ctrl, k) != Pair(true, true, true, true)
    ensures ViewOf(NetStep(n, e).ctrl, k) != Pair(true, true, true, true)
  {
    if k in n.ctrl.swaps { Ordered(n, k); }
    if e.Lose? { LossViews(n, e.at, k, k.0); } else { StepUndecided(n, e, k); }
    hide NetInv, NetStep, Reliable, KeyQueued, ViewOf;
  }

  lemma WaitingKept(n: Network, e: Event)
    requires NetInv(n) && Linked(n.ctrl.robots, n.robots) && Reliable(n, e) && Waiting(n.ctrl)
    ensures Waiting(NetStep(n, e).ctrl)
  {
    hide NetInv, NetStep, Reliable, ViewOf;
    forall k | k in NetStep(n, e).ctrl.swaps ensures ViewOf(NetStep(n, e).ctrl, k) != Pair(true, true, true, true) {
      NotPending(n.ctrl, k);
      WaitingKey(n, e, k);
    }
  }

  // ------------------------------------------------------------------ whole runs

  /** In the run the swap was stranded by a loss, and its waiting robot has been connected ever since. */
  predicate StrandedBy(n: Network, events: seq<Event>, k: Key, p: nat)
    requires Linked(n.ctrl.robots, n.robots)
    decreases |events|
  {
    events != [] &&
    ((events[0] == Lose(Partner(k, p)) && AckedAlone(n, k, p) && Lose(p) !in events[1..])
     || StrandedBy(NetStep(n, events[0]), events[1..], k, p))
  }

  /** At the end of a run, a swap is stranded if and only if a loss in the run, or before it, stranded it. */
  lemma {:induction false} StrandedExactly(n: Network, events: seq<Event>, k: Key, p: nat)
    requires NetInv(n) && Linked(n.ctrl.robots, n.robots) && AllReliable(n, events)
    ensures Stranded(Run(n, events), k, p) <==> StrandedBy(n, events, k, p) || (Stranded(n, k, p) && Lose(p) !in events)
    decreases |events|
  {
    hide NetInv, NetStep, Reliable, Stranded, AckedAlone, Partner;
    if events != [] {
      NetStepKeeps(n, events[0]);
      StrandsExactly(n, events[0], k, p);
      StrandedExactly(NetStep(n, events[0]), events[1..], k, p);
      assert events == [events[0]] + events[1..];
    }
  }

  lemma {:induction false} WaitingRun(n: Network, events: seq<Event>)
    requires NetInv(n) && Linked(n.ctrl.robots, n.robots) && AllReliable(n, events) && Waiting(n.ctrl)
    ensures Waiting(Run(n, events).ctrl) && NetInv(Run(n, events))
    decreases |events|
  {
    hide NetInv, NetStep, Reliable, Waiting;
    if events != [] {
      NetStepKeeps(n, events[0]);
      WaitingKept(n, events[0]);
      WaitingRun(NetStep(n, events[0]), events[1..]);
    }
  }

  /** Every robot that is connected has arrived and reported it, and every notification has been handled. */
  predicate Quiet(n: Network)
    requires Linked(n.ctrl.robots, n.robots)
  {
    && n.queue == []
    && (forall p :: p in n.ctrl.robots && !n.ctrl.robots[p].stopped ==>
          !LegOf(BodyAt(n, p)).Heading? && n.ctrl.robots[p].position == BodyAt(n, p).position)
  }

  lemma QuietEnd(n: Network, k: Key, p: nat)
    requires NetInv(n) && Linked(n.ctrl.robots, n.robots) && Quiet(n) && k in n.ctrl.swaps && Involves(k, p)
    requires Live(n.ctrl, p)
    ensures Acked(n.ctrl.swaps[k], k, p)
  {
    assert LiveOf(n.queue) == [];
    SideOf(Core(n), k, p);
    hide NetInv, Inv, LegOf, Acked, Partner, LiveOf;
  }

  /** Once everything is quiet, a swap that still has a connected robot is a stranded one. */
  lemma QuietStranded(n: Network, k: Key, p: nat)
    requires NetInv(n) && Linked(n.ctrl.robots, n.robots) && Quiet(n) && Waiting(n.ctrl)
    requires Live(n.ctrl, p)
    ensures k in n.ctrl.swaps && Involves(k, p) <==> Stranded(n, k, p)
  {
    if k in n.ctrl.swaps && Involves(k, p) {
      Ordered(n, k);
      PartnerKey(k, p);
      QuietEnd(n, k, p);
      if Live(n.ctrl, Partner(k, p)) { QuietEnd(n, k, Partner(k, p)); }
    }
    hide NetInv, Quiet;
  }

  /** Every run that ends quietly has completed all its swaps except those that lost a robot after the
      acknowledgement of the other one had been handled and before anything about the lost one was queued: a
      connected robot is still part of a swap if and only if that has happened to it, and its own connection has
      lasted since. */
  lemma SwapsCompleteExactly(n: Network, events: seq<Event>, k: Key, p: nat)
    requires Bodies(n.robots) && n.ctrl == Ctrl(map[], map[], 0, true) && n.queue == []
    requires AllReliable(n, events) && Quiet(Run(n, events)) && Live(Run(n, events).ctrl, p)
    ensures k in Run(n, events).ctrl.swaps && Involves(k, p) <==> StrandedBy(n, events, k, p)
  {
    InitialNet(n);
    WaitingRun(n, events);
    StrandedExactly(n, events, k, p);
    QuietStranded(Run(n, events), k, p);
    assert !Stranded(n, k, p);
    hide Bodies, NetInv, AllReliable, Run, Quiet, StrandedBy, Stranded, Waiting;
  }

  /** A robot that has acknowledged, and whose connection lasts, has arrived and waits for its commit. */
  lemma StrandedWaits(n: Network, k: Key, p: nat)
    requires NetInv(n) && Linked(n.ctrl.robots, n.robots) && Stranded(n, k, p)
    ensures LegOf(BodyAt(n, p)).Arrived? && BodyAt(n, p).position == Partner(k, p) && n.ctrl.robots[p].pending
  {
    SideOf(Core(n), k, p);
    hide NetInv, Inv, LegOf, Acked, Partner, InQueue, KeyQueued, LiveOf;
  }

  /** A stranded swap is never completed: as long as its connection lasts, its robot waits for its commit in vain,
      whatever else happens. */
  lemma StuckForEver(n: Network, events: seq<Event>, k: Key, p: nat)
    requires NetInv(n) && Linked(n.ctrl.robots, n.robots) && Stranded(n, k, p) && AllReliable(n, events)
    requires Lose(p) !in events
    ensures var n' := Run(n, events); Stranded(n', k, p) && LegOf(BodyAt(n', p)).Arrived? && n'.ctrl.robots[p].pending
  {
    StrandedExactly(n, events, k, p);
    RunKeeps(n, events);
    StrandedWaits(Run(n, events), k, p);
    hide NetInv, AllReliable, Run, StrandedBy, LegOf;
  }

  lemma ForgottenExactly(c: Ctrl, k: Key)
    ensures k in EraseStale(RemoveStopped(c)).swaps <==> k in c.swaps && (Live(c, k.0) || Live(c, k.1))
  {
    assert k in RemoveStopped(c).swaps <==> k in c.swaps;
  }

  lemma LostThenHousekept(n: Network, p: nat)
    requires Linked(n.ctrl.robots, n.robots) && p in n.ctrl.robots && n.ctrl.running
    ensures NetStep(NetStep(n, Lose(p)), Housekeeping).ctrl == EraseStale(RemoveStopped(MarkStopped(n.ctrl, p)))
  {
    hide MarkStale, Fresh, RemoveStopped, EraseStale;
  }

  lemma NobodyLeft(c: Ctrl, k: Key, p: nat)
    requires k.0 < k.1 && Involves(k, p) && p in c.robots && !Live(c, Partner(k, p))
    ensures !Live(MarkStopped(c, p), k.0) && !Live(MarkStopped(c, p), k.1)
  {
  }

  /** When that connection is lost as well, the next housekeeping forgets the swap. */
  lemma LossFrees(n: Network, k: Key, p: nat)
    requires NetInv(n) && Linked(n.ctrl.robots, n.robots) && Stranded(n, k, p) && n.ctrl.running
    ensures k !in NetStep(NetStep(n, Lose(p)), Housekeeping).ctrl.swaps
  {
    Ordered(n, k);
    hide NetInv, NetStep, KeyQueued, RemoveStopped, EraseStale, Acked, MarkStopped, Partner;
    NobodyLeft(n.ctrl, k, p);
    ForgottenExactly(MarkStopped(n.ctrl, p), k);
    LostThenHousekept(n, p);
    hide Live, Stranded;
  }
}
