/** Position swaps as they run: the controller's event loop also holds notifications of connections that have been lost
    in the meantime. They are handled like all others. */
module SwapNetwork {
  import opened Basics
  import R = Robot
  import opened RobotInvariant
  import opened RobotLegs
  import opened Controller
  import opened SwapProtocol
  import opened SwapSteps
  import opened SwapCompletion
  import opened SwapTheorems

  /** A posted notification. That its connection has been lost since is not part of the posted task. */
  datatype Posted = Posted(callback: Callback, stale: bool)

  datatype Network = Network(ctrl: Ctrl, robots: seq<R.State>, queue: seq<Posted>)

  function LiveOf(queue: seq<Posted>): seq<Callback>
  {
    if queue == [] then []
    else if queue[0].stale then LiveOf(queue[1..])
    else [queue[0].callback] + LiveOf(queue[1..])
  }

  /** The protocol without the notifications of lost connections. */
  function Core(n: Network): World { World(n.ctrl, n.robots, LiveOf(n.queue)) }

  function MarkStale(queue: seq<Posted>, id: nat): seq<Posted>
  {
    if queue == [] then []
    else [queue[0].(stale := queue[0].stale || queue[0].callback.id == id)] + MarkStale(queue[1..], id)
  }

  /** The controller handles its oldest notification, stale or not. */
  function Handle(n: Network, firstLost: bool, secondLost: bool): (n': Network)
    requires Linked(n.ctrl.robots, n.robots)
    ensures Linked(n'.ctrl.robots, n'.robots)
  {
    if n.queue == [] then n
    else
      var w' := CallbackStep(World(n.ctrl, n.robots, [n.queue[0].callback]), firstLost, secondLost);
      Network(w'.ctrl, w'.robots, n.queue[1..])
  }

  function NetStep(n: Network, e: Event): (n': Network)
    requires Linked(n.ctrl.robots, n.robots)
    ensures Linked(n'.ctrl.robots, n'.robots)
  {
    match e
    case Lose(p) =>
      if p in n.ctrl.robots then n.(ctrl := MarkStopped(n.ctrl, p), queue := MarkStale(n.queue, n.ctrl.robots[p].id))
          else n
    case HandleCallback(firstLost, secondLost) => if n.ctrl.running then Handle(n, firstLost, secondLost) else n
    case _ =>
      var w' := Step(World(n.ctrl, n.robots, []), e);
      Network(w'.ctrl, w'.robots, n.queue + Fresh(w'.callbacks))
  }

  /** What a step posts. */
  function Fresh(callbacks: seq<Callback>): seq<Posted>
  {
    if callbacks == [] then [] else [Posted(callbacks[0], false)] + Fresh(callbacks[1..])
  }

  predicate Live(c: Ctrl, p: nat) { p in c.robots && !c.robots[p].stopped }

  /** The notification would be taken for the acknowledgement of a robot that is about to move between the two
      positions, or for the end of the reconfiguration of one of them. */
  predicate Confuses(c: Ctrl, cb: Callback, from: nat, to: nat)
  {
    match cb
    case Swapped(_, f, t) => KeyOf(f, t) == KeyOf(from, to) && Live(c, f)
    case Reconfigured(_, p) => (p == from || p == to) && Live(c, p)
  }

  predicate SwapUndisturbed(n: Network, from: nat, to: nat)
  {
    forall i :: 0 <= i < |n.queue| && n.queue[i].stale ==> !Confuses(n.ctrl, n.queue[i].callback, from, to)
  }

  predicate ReconfigurationUndisturbed(n: Network, p: nat)
  {
    forall i :: 0 <= i < |n.queue| && n.queue[i].stale ==>
      !(n.queue[i].callback.Reconfigured? && n.queue[i].callback.position == p && Live(n.ctrl, p))
  }

  /** What the runs rely on: the policy adapts robots only when no notification of a lost connection that would be
      taken for theirs is still queued, and a robot that registers is neither on the move nor being committed.
      Connections may be lost at any time. */
  predicate Reliable(n: Network, e: Event)
    requires Linked(n.ctrl.robots, n.robots)
  {
    match e
    case Lose(_) => true
    case SwapRequest(from, to, _) => SwapUndisturbed(n, from, to)
    case ReconfigureRequest(p, _, _, _) => ReconfigurationUndisturbed(n, p)
    case _ => Admissible(World(n.ctrl, n.robots, []), e)
  }

  // ------------------------------------------------------------------ the invariant

  /** A notification of a lost connection has no effect any more: the side of the swap it is about counts as
      acknowledged, and no adaptation is pending where it would be released. */
  predicate Harmless(c: Ctrl, cb: Callback)
  {
    match cb
    case Swapped(_, from, to) =>
      var k := KeyOf(from, to);
      from != to && (k in c.swaps ==> Acked(c.swaps[k], k, from) || Stopped(c.robots, from))
    case Reconfigured(_, p) => p in c.robots && !c.robots[p].stopped ==> !c.robots[p].pending
  }

  predicate StaleOk(c: Ctrl, queue: seq<Posted>)
  {
    forall i :: 0 <= i < |queue| && queue[i].stale ==> Harmless(c, queue[i].callback)
  }

  ghost predicate NetInv(n: Network) { WorldInv(Core(n)) && StaleOk(n.ctrl, n.queue) }

  /** What handling the oldest notification relies on. */
  ghost predicate HeadOk(n: Network)
  {
    WorldInv(Core(n)) && n.queue != [] && (n.queue[0].stale ==> Harmless(n.ctrl, n.queue[0].callback))
  }

  // ------------------------------------------------------------------ the queue

  lemma {:induction false} LiveAppend(a: seq<Posted>, b: seq<Posted>)
    ensures LiveOf(a + b) == LiveOf(a) + LiveOf(b)
  {
    if a == [] {
      assert a + b == b;
    } else {
      LiveAppend(a[1..], b);
      assert (a + b)[1..] == a[1..] + b && (a + b)[0] == a[0];
      var rest, more := LiveOf(a[1..]), LiveOf(b);
      if !a[0].stale { assert [a[0].callback] + (rest + more) == ([a[0].callback] + rest) + more; }
    }
  }

  lemma {:induction false} LiveFresh(callbacks: seq<Callback>)
    ensures LiveOf(Fresh(callbacks)) == callbacks
    ensures forall i :: 0 <= i < |Fresh(callbacks)| ==> !Fresh(callbacks)[i].stale
  {
    if callbacks != [] {
      LiveFresh(callbacks[1..]);
      assert Fresh(callbacks)[1..] == Fresh(callbacks[1..]);
    }
  }

  lemma {:induction false} LiveMarked(queue: seq<Posted>, id: nat)
    ensures LiveOf(MarkStale(queue, id)) == Without(LiveOf(queue), id)
  {
    if queue != [] {
      LiveMarked(queue[1..], id);
      var more := MarkStale(queue, id);
      assert more[1..] == MarkStale(queue[1..], id);
      var rest := LiveOf(queue[1..]);
      if queue[0].stale {
        assert LiveOf(queue) == rest && LiveOf(more) == Without(rest, id);
      } else {
        assert LiveOf(queue)[1..] == rest && LiveOf(queue)[0] == queue[0].callback;
      }
    }
  }

  lemma {:induction false} MarkedElements(queue: seq<Posted>, id: nat)
    ensures |MarkStale(queue, id)| == |queue|
    ensures forall i :: 0 <= i < |queue| ==>
              MarkStale(queue, id)[i] == queue[i].(stale := queue[i].stale || queue[i].callback.id == id)
  {
    if queue != [] {
      MarkedElements(queue[1..], id);
      var more := MarkStale(queue, id);
      assert more == [queue[0].(stale := queue[0].stale || queue[0].callback.id == id)] + MarkStale(queue[1..], id);
    }
  }

  lemma {:induction false} LiveElement(queue: seq<Posted>, i: nat) returns (j: nat)
    requires i < |queue| && !queue[i].stale
    ensures j < |LiveOf(queue)| && LiveOf(queue)[j] == queue[i].callback
  {
    if i == 0 {
      j := 0;
    } else {
      var m := LiveElement(queue[1..], i - 1);
      j := if queue[0].stale then m else m + 1;
    }
  }

  // ------------------------------------------------------------------ notifications stay harmless

  /** Acknowledgements stay, lost robots are not forgotten, and nobody is flagged anew. */
  ghost predicate Calmer(c: Ctrl, c': Ctrl)
  {
    && (forall k :: k in c'.swaps ==>
       k in c.swaps && (c.swaps[k].lower ==> c'.swaps[k].lower) && (c.swaps[k].greater ==> c'.swaps[k].greater))
    && (forall k, p :: k in c'.swaps && Involves(k, p) && Stopped(c.robots, p) ==>
       Stopped(c'.robots, p) || Acked(c'.swaps[k], k, p))
    && (forall p :: p in c'.robots && c'.robots[p].pending && !c'.robots[p].stopped ==>
       p in c.robots && c.robots[p].pending && !c.robots[p].stopped)
  }

  lemma CalmerHarmless(c: Ctrl, c': Ctrl, cb: Callback)
    requires Harmless(c, cb) && Calmer(c, c')
    ensures Harmless(c', cb)
  {
    if cb.Swapped? { assert Involves(KeyOf(cb.from, cb.to), cb.from); }
  }

  lemma CalmerStale(c: Ctrl, c': Ctrl, queue: seq<Posted>)
    requires StaleOk(c, queue) && Calmer(c, c')
    ensures StaleOk(c', queue)
  {
    forall i | 0 <= i < |queue| && queue[i].stale ensures Harmless(c', queue[i].callback) {
      CalmerHarmless(c, c', queue[i].callback);
    }
  }

  lemma CalmerTwice(a: Ctrl, b: Ctrl, c: Ctrl)
    requires Calmer(a, b) && Calmer(b, c)
    ensures Calmer(a, c)
  {
  }

  lemma RemovedCalmer(c: Ctrl)
    requires forall k :: k in c.swaps ==> k.0 < k.1
    ensures Calmer(c, RemoveStopped(c))
  {
  }

  lemma ErasedCalmer(c: Ctrl)
    ensures Calmer(c, EraseStale(c))
  {
  }

  lemma HousekeptCalmer(c: Ctrl)
    requires forall k :: k in c.swaps ==> k.0 < k.1
    ensures Calmer(c, EraseStale(RemoveStopped(c)))
  {
    RemovedCalmer(c);
    ErasedCalmer(RemoveStopped(c));
    hide RemoveStopped, EraseStale, Calmer;
    CalmerTwice(c, RemoveStopped(c), EraseStale(RemoveStopped(c)));
  }

  lemma OrderedKeys(n: Network)
    requires NetInv(n)
    ensures forall k :: k in n.ctrl.swaps ==> k.0 < k.1
  {
    hide Ids, Bodies, Ends, Frees, Queue;
  }

  lemma OrderedCore(n: Network)
    requires WorldInv(Core(n))
    ensures forall k :: k in n.ctrl.swaps ==> k.0 < k.1
  {
    hide Ids, Bodies, Ends, Frees, Queue;
  }

  lemma StoppedCalmer(c: Ctrl, p: nat)
    requires p in c.robots
    ensures Calmer(c, MarkStopped(c, p))
  {
  }

  // ------------------------------------------------------------------ steps that do not depend on the queue

  predicate Plain(e: Event) { !e.Lose? && !e.HandleCallback? }

  lemma StepIgnoresQueue(c: Ctrl, robots: seq<R.State>, q: seq<Callback>, e: Event)
    requires Linked(c.robots, robots) && Plain(e)
    ensures var bare, full := Step(World(c, robots, []), e), Step(World(c, robots, q), e);
            full.ctrl == bare.ctrl && full.robots == bare.robots && full.callbacks == q + bare.callbacks
    ensures Admissible(World(c, robots, q), e) <==> Admissible(World(c, robots, []), e)
  {
    hide R.Step, RemoveStopped, EraseStale, HandleRegistration, SwapRobotPositions, ReconfigureRobot, R.SwitchCall,
         R.CommitCall, R.ReconfigureCall,
         R.Admissible, LegOf, Accepted, SwapAnswersOf, SwapStarts, Registers, ReconfigurationStarts;
    assert q + [] == q;
    if e.SwapRequest? && e.from in c.robots {
      assert SwapAnswersOf(World(c, robots, q), e.from, e.to, e.losses) ==
          SwapAnswersOf(World(c, robots, []), e.from, e.to, e.losses) by {
        SameAnswers(c, robots, q, e.from, e.to, e.losses);
      }
    }
  }

  lemma SameAnswers(c: Ctrl, robots: seq<R.State>, q: seq<Callback>, from: nat, to: nat, l: SwapLosses)
    requires Linked(c.robots, robots) && from in c.robots
    ensures SwapAnswersOf(World(c, robots, q), from, to, l) == SwapAnswersOf(World(c, robots, []), from, to, l)
  {
  }

  lemma PlainCore(n: Network, e: Event)
    requires Linked(n.ctrl.robots, n.robots) && Plain(e)
    ensures Core(NetStep(n, e)) == Step(Core(n), e)
  {
    var w' := Step(World(n.ctrl, n.robots, []), e);
    StepIgnoresQueue(n.ctrl, n.robots, LiveOf(n.queue), e);
    LiveAppend(n.queue, Fresh(w'.callbacks));
    LiveFresh(w'.callbacks);
    hide Step, LiveOf, Fresh;
  }

  /** The notifications that were there are still there, and what is added is not stale. */
  lemma PlainStale(n: Network, e: Event)
    requires Linked(n.ctrl.robots, n.robots) && Plain(e) && StaleOk(NetStep(n, e).ctrl, n.queue)
    ensures StaleOk(NetStep(n, e).ctrl, NetStep(n, e).queue)
  {
    var w' := Step(World(n.ctrl, n.robots, []), e);
    LiveFresh(w'.callbacks);
    hide Step, LiveOf, Fresh, Harmless;
  }

  // ------------------------------------------------------------------ each plain step is calm, or disturbs nobody

  lemma RegistrationCalmer(c: Ctrl, id: nat, p: nat, caps: set<string>, a: RegistrationAnswers)
    requires forall k :: k in c.swaps ==> k.0 < k.1
    ensures Calmer(c, HandleRegistration(c, id, p, caps, a))
  {
    HousekeptCalmer(c);
    var c1 := EraseStale(RemoveStopped(c));
    AddedCalmer(c1, id, p, caps, a);
    hide RemoveStopped, EraseStale, Calmer, Swapping;
    assert HandleRegistration(c, id, p, caps, a) ==
        AfterHousekeeping(c1, id, p, caps, a) by { hide ResolveMissedCommit; }
    CalmerTwice(c, c1, HandleRegistration(c, id, p, caps, a));
  }

  function AfterHousekeeping(c1: Ctrl, id: nat, p: nat, caps: set<string>, a: RegistrationAnswers): Ctrl
  {
    if !Registers(c1, p, a) then c1
    else ResolveMissedCommit(c1.(robots := c1.robots[p := Remote(id, p, caps, false, false)],
        registered := (c1.registered + 1) % U32), p, a)
  }

  lemma AddedCalmer(c1: Ctrl, id: nat, p: nat, caps: set<string>, a: RegistrationAnswers)
    ensures Calmer(c1, AfterHousekeeping(c1, id, p, caps, a))
  {
    hide Swapping;
  }

  lemma RegisterCalmer(n: Network, e: Event)
    requires NetInv(n) && Linked(n.ctrl.robots, n.robots) && e.Register?
    ensures Calmer(n.ctrl, NetStep(n, e).ctrl)
  {
    OrderedKeys(n);
    hide NetInv, HandleRegistration, Registers, R.CommitCall, R.CommitAccepts, RemoveStopped, EraseStale, Fresh;
    if e.id < |n.robots| {
      var s := n.robots[e.id];
      RegistrationCalmer(n.ctrl, e.id, s.position, s.caps,
        RegistrationAnswers(e.connects, Asked(e.readLost, s.commitPending), Asked(e.commitLost, R.CommitAccepts(s))));
    }
    SameCalmer(n.ctrl);
    hide Calmer;
  }

  lemma SameCalmer(c: Ctrl)
    ensures Calmer(c, c)
  {
  }

  lemma NotedCalmer(n: Network, e: Event)
    requires Linked(n.ctrl.robots, n.robots) && (e.NotifyPosition? || e.NotifyCapabilities? || e.RobotEvent?)
    ensures Calmer(n.ctrl, NetStep(n, e).ctrl)
  {
    hide R.Step, Fresh;
  }

  /** What a request does to others than its two robots: nothing. */
  lemma RequestedElsewhere(c: Ctrl, from: nat, to: nat, a: SwapAnswers, x: nat)
    ensures var c' := SwapRobotPositions(c, from, to, a);
            && (Stopped(c.robots, x) ==> Stopped(c'.robots, x)) && (Live(c', x) ==> Live(c, x))
            && (x != from && x != to && x in c.robots ==> x in c'.robots && c'.robots[x] == c.robots[x])
  {
    hide Swapping, Ack;
  }

  lemma RequestedSwaps(c: Ctrl, from: nat, to: nat, a: SwapAnswers)
    ensures var c', l, none := SwapRobotPositions(c, from, to, a), KeyOf(from, to), Swap(false, false);
            || c'.swaps == c.swaps
            || (SwapConsidered(c, from, to) && !Live(c', to) && c'.swaps == c.swaps[l := Ack(none, l, to)])
            || (SwapConsidered(c, from, to) && c'.swaps == c.swaps[l := none] && to in c.robots)
    ensures !SwapConsidered(c, from, to) ==> SwapRobotPositions(c, from, to, a) == c
  {
    hide Swapping, Ack;
  }

  /** A swap that starts flags its two robots, and is not what any notification of a lost connection is about. */
  lemma SwapStartedHarmless(c: Ctrl, from: nat, to: nat, a: SwapAnswers, cb: Callback)
    requires Harmless(c, cb) && !Confuses(c, cb, from, to)
    ensures Harmless(SwapRobotPositions(c, from, to, a), cb)
  {
    RequestedSwaps(c, from, to, a);
    hide SwapRobotPositions, Swapping;
    match cb
    case Swapped(_, f, t) => RequestedElsewhere(c, from, to, a, f);
    case Reconfigured(_, p) => RequestedElsewhere(c, from, to, a, p);
  }

  lemma SwapStale(n: Network, e: Event)
    requires Linked(n.ctrl.robots, n.robots) && e.SwapRequest? && StaleOk(n.ctrl, n.queue) && Reliable(n, e)
    ensures StaleOk(NetStep(n, e).ctrl, n.queue)
  {
    var c' := NetStep(n, e).ctrl;
    if n.ctrl.running && e.from in n.ctrl.robots {
      var a := SwapAnswersOf(World(n.ctrl, n.robots, []), e.from, e.to, e.losses);
      SwapCtrl(n, e);
      hide SwapRobotPositions, NetStep, SwapAnswersOf, Harmless, Confuses;
      forall i | 0 <= i < |n.queue| && n.queue[i].stale ensures Harmless(c', n.queue[i].callback) {
        SwapStartedHarmless(n.ctrl, e.from, e.to, a, n.queue[i].callback);
      }
    } else {
      assert c' == n.ctrl;
    }
  }

  lemma SwapCtrl(n: Network, e: Event)
    requires Linked(n.ctrl.robots, n.robots) && e.SwapRequest? && n.ctrl.running && e.from in n.ctrl.robots
    ensures NetStep(n, e).ctrl ==
              SwapRobotPositions(n.ctrl, e.from, e.to,
                  SwapAnswersOf(World(n.ctrl, n.robots, []), e.from, e.to, e.losses))
  {
    hide SwapRobotPositions, SwapAnswersOf, SwapStarts, R.SwitchCall, Fresh;
  }

  lemma ReconfigureHarmless(c: Ctrl, p: nat, available: Reply, call: Reply, cb: Callback)
    requires Harmless(c, cb) && !(cb.Reconfigured? && cb.position == p && Live(c, p))
    ensures Harmless(ReconfigureRobot(c, p, available, call), cb)
  {
  }

  lemma ReconfigureStale(n: Network, e: Event)
    requires Linked(n.ctrl.robots, n.robots) && e.ReconfigureRequest? && StaleOk(n.ctrl, n.queue) && Reliable(n, e)
    ensures StaleOk(NetStep(n, e).ctrl, n.queue)
  {
    var c' := NetStep(n, e).ctrl;
    if n.ctrl.running && e.at in n.ctrl.robots {
      var s := n.robots[n.ctrl.robots[e.at].id];
      var available, call := Asked(e.readLost, s.available), Asked(e.callLost, R.ReconfigureAccepts(s, e.caps));
      assert c' == ReconfigureRobot(n.ctrl, e.at, available, call) by { hide ReconfigureRobot, R.ReconfigureCall,
          R.ReconfigureAccepts, Fresh; }
      hide ReconfigureRobot, NetStep, Harmless, Live, R.ReconfigureAccepts;
      forall i | 0 <= i < |n.queue| && n.queue[i].stale ensures Harmless(c', n.queue[i].callback) {
        ReconfigureHarmless(n.ctrl, e.at, available, call, n.queue[i].callback);
      }
    } else {
      assert c' == n.ctrl;
    }
  }

  lemma HousekeepingCalmer(n: Network)
    requires NetInv(n) && Linked(n.ctrl.robots, n.robots)
    ensures Calmer(n.ctrl, NetStep(n, Housekeeping).ctrl)
  {
    OrderedKeys(n);
    HousekeptCalmer(n.ctrl);
    SameCalmer(n.ctrl);
    hide NetInv, RemoveStopped, EraseStale, Calmer, Fresh;
  }

  lemma PlainKeeps(n: Network, e: Event)
    requires NetInv(n) && Linked(n.ctrl.robots, n.robots) && Plain(e) && Reliable(n, e)
    ensures NetInv(NetStep(n, e))
  {
    StepIgnoresQueue(n.ctrl, n.robots, LiveOf(n.queue), e);
    PlainAdmissible(n, e);
    PlainCore(n, e);
    SwapTheorems.StepKeeps(Core(n), e);
    if e.SwapRequest? {
      SwapStale(n, e);
    } else if e.ReconfigureRequest? {
      ReconfigureStale(n, e);
    } else {
      if e.Register? {
        RegisterCalmer(n, e);
      } else if e.Housekeeping? {
        HousekeepingCalmer(n);
      } else {
        NotedCalmer(n, e);
      }
      CalmerStale(n.ctrl, NetStep(n, e).ctrl, n.queue);
    }
    PlainStale(n, e);
    hide WorldInv, StaleOk, NetStep, Step, Calmer, LiveOf;
  }

  lemma PlainAdmissible(n: Network, e: Event)
    requires Linked(n.ctrl.robots, n.robots) && Plain(e) && Reliable(n, e)
    ensures Admissible(World(n.ctrl, n.robots, []), e)
  {
    hide Accepted, Registrable, R.Admissible, SwapUndisturbed, ReconfigurationUndisturbed;
  }

  // ------------------------------------------------------------------ a lost connection

  lemma LostCalmer(n: Network, p: nat)
    requires NetInv(n) && Linked(n.ctrl.robots, n.robots) && p in n.ctrl.robots
    ensures StaleOk(MarkStopped(n.ctrl, p), MarkStale(n.queue, n.ctrl.robots[p].id))
  {
    var c, id := n.ctrl, n.ctrl.robots[p].id;
    var q := MarkStale(n.queue, id);
    MarkedElements(n.queue, id);
    StoppedCalmer(c, p);
    CalmerStale(c, MarkStopped(c, p), n.queue);
    forall i | 0 <= i < |q| && q[i].stale ensures Harmless(MarkStopped(c, p), q[i].callback) {
      if !n.queue[i].stale {
        var j := LiveElement(n.queue, i);
        QueuedCallback(n, j);
        OnlyOwn(n, p, q[i].callback);
      }
    }
    hide NetInv, MarkStale, Calmer;
  }

  lemma QueuedCallback(n: Network, j: nat)
    requires NetInv(n) && j < |LiveOf(n.queue)|
    ensures CallbackOk(n.ctrl.robots, n.ctrl.swaps, LiveOf(n.queue)[j])
  {
    hide Ids, Bodies, Ends, Frees, Disjoint, CallbackOk, LiveOf;
  }

  /** What is queued for a connection is about the position where its robot is filed. */
  lemma OnlyOwn(n: Network, p: nat, cb: Callback)
    requires NetInv(n) && p in n.ctrl.robots && cb.id == n.ctrl.robots[p].id
    requires CallbackOk(n.ctrl.robots, n.ctrl.swaps, cb)
    ensures Harmless(MarkStopped(n.ctrl, p), cb)
  {
    assert Ids(n.ctrl.robots, n.robots);
    hide Bodies, Ends, Frees, Disjoint, Queue, Swapping, LiveOf;
  }

  lemma LoseNetKeeps(n: Network, p: nat)
    requires NetInv(n) && Linked(n.ctrl.robots, n.robots)
    ensures NetInv(NetStep(n, Lose(p)))
  {
    if p in n.ctrl.robots {
      LiveMarked(n.queue, n.ctrl.robots[p].id);
      LoseKeeps(Core(n), p);
      LostCalmer(n, p);
      hide WorldInv, StaleOk, LiveOf, MarkStale, Without;
    }
  }

  // ------------------------------------------------------------------ handling a notification

  lemma HandleIs(n: Network, q: seq<Callback>, firstLost: bool, secondLost: bool)
    requires Linked(n.ctrl.robots, n.robots) && n.queue != [] && q != [] && q[0] == n.queue[0].callback
    ensures var n', w' := Handle(n, firstLost, secondLost),
            CallbackStep(World(n.ctrl, n.robots, q), firstLost, secondLost);
            n'.ctrl == w'.ctrl && n'.robots == w'.robots && w'.callbacks == q[1..]
  {
    hide RemoveStopped, EraseStale, CapabilitiesReconfigured, Acknowledge, Committed, CompletesSwap, KeyOf;
  }

  lemma LiveHeadKeeps(n: Network, firstLost: bool, secondLost: bool)
    requires HeadOk(n) && Linked(n.ctrl.robots, n.robots) && !n.queue[0].stale
    ensures WorldInv(Core(Handle(n, firstLost, secondLost)))
  {
    assert LiveOf(n.queue) == [n.queue[0].callback] + LiveOf(n.queue[1..]);
    HandleIs(n, LiveOf(n.queue), firstLost, secondLost);
    CallbackKeeps(Core(n), firstLost, secondLost);
    hide WorldInv, CallbackStep, Handle, LiveOf;
  }

  /** The acknowledgement of a lost robot says nothing new; but if the partner has acknowledged meanwhile, it completes
      the swap. */
  lemma StaleSwapped(n: Network, firstLost: bool, secondLost: bool)
    requires HeadOk(n) && Linked(n.ctrl.robots, n.robots) && n.queue[0].stale
    requires n.queue[0].callback.Swapped?
    ensures WorldInv(Core(Handle(n, firstLost, secondLost)))
    ensures var cb, c1 := n.queue[0].callback, EraseStale(RemoveStopped(n.ctrl));
            var k := KeyOf(cb.from, cb.to);
            && (k in c1.swaps ==> Acked(c1.swaps[k], k, cb.from))
            && Handle(n, firstLost, secondLost).ctrl ==
                 if BothAcked(c1, k) then CompleteSwap(c1, k, Asked(firstLost, true), Asked(secondLost, true)) else c1
  {
    var cb, rest := n.queue[0].callback, LiveOf(n.queue[1..]);
    var c1, k := EraseStale(RemoveStopped(n.ctrl)), KeyOf(cb.from, cb.to);
    var w1 := World(c1, n.robots, rest);
    assert LiveOf(n.queue) == rest;
    Housekept(Core(n));
    StaleAcked(n, cb);
    AckNothing(c1, cb.from, cb.to);
    hide WorldInv, RemoveStopped, EraseStale, LiveOf, CompleteSwap, Committed, NoneStopped, StaleOk, Acked, Ack, KeyOf;
    if BothAcked(c1, k) {
      CompletionKeeps(w1, k, firstLost, secondLost);
      assert Core(Handle(n, firstLost, secondLost)) == Completed(w1, k, firstLost, secondLost);
    } else {
      assert Core(Handle(n, firstLost, secondLost)) == w1;
    }
  }

  lemma StaleAcked(n: Network, cb: Callback)
    requires HeadOk(n) && n.queue[0].stale && n.queue[0].callback == cb && cb.Swapped?
    ensures cb.from != cb.to
    ensures var c1, k := EraseStale(RemoveStopped(n.ctrl)), KeyOf(cb.from, cb.to);
            k in c1.swaps ==> Acked(c1.swaps[k], k, cb.from)
  {
    assert Harmless(n.ctrl, cb);
    OrderedCore(n);
    HousekeptCalmer(n.ctrl);
    CalmerHarmless(n.ctrl, EraseStale(RemoveStopped(n.ctrl)), cb);
    RemoveStoppedFacts(n.ctrl);
    hide HeadOk, Calmer, RemoveStopped, KeyOf;
  }

  lemma AckNothing(c: Ctrl, from: nat, to: nat)
    requires from != to && (KeyOf(from, to) in c.swaps ==> Acked(c.swaps[KeyOf(from, to)], KeyOf(from, to), from))
    ensures var k := KeyOf(from, to);
            k in c.swaps ==> Ack(c.swaps[k], k, from) == c.swaps[k] && c.(swaps := c.swaps[k := c.swaps[k]]) == c
  {
  }

  lemma StaleReconfigured(n: Network, firstLost: bool, secondLost: bool)
    requires HeadOk(n) && Linked(n.ctrl.robots, n.robots) && n.queue[0].stale
    requires n.queue[0].callback.Reconfigured?
    ensures WorldInv(Core(Handle(n, firstLost, secondLost)))
    ensures Handle(n, firstLost, secondLost).ctrl == RemoveStopped(n.ctrl)
  {
    var p, rest := n.queue[0].callback.position, LiveOf(n.queue[1..]);
    var c1 := RemoveStopped(n.ctrl);
    assert LiveOf(n.queue) == rest;
    RemoveStoppedKeeps(Core(n));
    RemoveStoppedFacts(n.ctrl);
    assert Harmless(n.ctrl, n.queue[0].callback);
    ReleasesNobody(n.ctrl, p);
    hide WorldInv, RemoveStopped, LiveOf, StaleOk;
    assert Core(Handle(n, firstLost, secondLost)) == World(c1, n.robots, rest);
  }

  lemma ReleasesNobody(c: Ctrl, p: nat)
    requires p in c.robots && !c.robots[p].stopped ==> !c.robots[p].pending
    ensures CapabilitiesReconfigured(c, p) == RemoveStopped(c)
  {
    var c1 := RemoveStopped(c);
    if p in c1.robots {
      assert c1.robots[p] == c.robots[p] && c1.robots[p].(pending := false) == c1.robots[p];
      assert c1.robots[p := c1.robots[p]] == c1.robots;
    }
  }

  // ------------------------------------------------------------------ handling keeps the other notifications harmless

  lemma CompletedCalmer(c: Ctrl, k: Key, first: Reply, second: Reply)
    requires k.0 < k.1 && NoneStopped(c.robots)
    requires k.0 in c.robots ==> c.robots[k.0].position == k.1
    requires k.1 in c.robots ==> c.robots[k.1].position == k.0
    ensures Calmer(c, CompleteSwap(c, k, first, second))
  {
  }

  lemma AckedCalmer(c: Ctrl, k: Key, p: nat)
    requires k in c.swaps && NoneStopped(c.robots)
    ensures Calmer(c, c.(swaps := c.swaps[k := Ack(c.swaps[k], k, p)]))
  {
  }

  lemma CapabilitiesCalmer(c: Ctrl, p: nat)
    requires forall k :: k in c.swaps ==> k.0 < k.1
    ensures Calmer(c, CapabilitiesReconfigured(c, p))
  {
    RemovedCalmer(c);
    var c1 := RemoveStopped(c);
    ReleasedCalmer(c1, p);
    hide RemoveStopped, Calmer;
    CalmerTwice(c, c1, CapabilitiesReconfigured(c, p));
  }

  lemma ReleasedCalmer(c: Ctrl, p: nat)
    ensures p in c.robots ==> Calmer(c, c.(robots := c.robots[p := c.robots[p].(pending := false)]))
    ensures Calmer(c, c)
  {
  }

  lemma HandleCalmer(n: Network, firstLost: bool, secondLost: bool)
    requires HeadOk(n) && Linked(n.ctrl.robots, n.robots)
    ensures Calmer(n.ctrl, Handle(n, firstLost, secondLost).ctrl)
  {
    var c1, cb := EraseStale(RemoveStopped(n.ctrl)), n.queue[0].callback;
    var c2 := Handle(n, firstLost, secondLost).ctrl;
    OrderedCore(n);
    if cb.Reconfigured? {
      CapabilitiesCalmer(n.ctrl, cb.position);
      hide CapabilitiesReconfigured, Calmer, HeadOk;
    } else {
      HousekeptCalmer(n.ctrl);
      SwappedCalmer(n, firstLost, secondLost);
      hide Calmer, HeadOk, Handle, RemoveStopped, EraseStale;
      CalmerTwice(n.ctrl, c1, c2);
    }
  }

  lemma SwappedCalmer(n: Network, firstLost: bool, secondLost: bool)
    requires HeadOk(n) && Linked(n.ctrl.robots, n.robots) && n.queue[0].callback.Swapped?
    ensures Calmer(EraseStale(RemoveStopped(n.ctrl)), Handle(n, firstLost, secondLost).ctrl)
  {
    if n.queue[0].stale { StaleSwappedCalmer(n, firstLost, secondLost); }
        else { LiveSwappedCalmer(n, firstLost, secondLost); }
  }

  lemma StaleSwappedCalmer(n: Network, firstLost: bool, secondLost: bool)
    requires HeadOk(n) && Linked(n.ctrl.robots, n.robots) && n.queue[0].callback.Swapped?
    requires n.queue[0].stale
    ensures Calmer(EraseStale(RemoveStopped(n.ctrl)), Handle(n, firstLost, secondLost).ctrl)
  {
    var c1, k := EraseStale(RemoveStopped(n.ctrl)), KeyOf(n.queue[0].callback.from, n.queue[0].callback.to);
    Housekept(Core(n));
    SameCalmer(c1);
    StaleSwapped(n, firstLost, secondLost);
    hide WorldInv, RemoveStopped, EraseStale, LiveOf, CompleteSwap, StaleOk, Acked, KeyOf, Calmer, Handle;
    if BothAcked(c1, k) {
      BothAway(World(c1, n.robots, LiveOf(n.queue)), k);
      CompletedCalmer(c1, k, Asked(firstLost, true), Asked(secondLost, true));
    }
  }

  lemma LiveSwappedCalmer(n: Network, firstLost: bool, secondLost: bool)
    requires HeadOk(n) && Linked(n.ctrl.robots, n.robots) && n.queue[0].callback.Swapped?
    requires !n.queue[0].stale
    ensures Calmer(EraseStale(RemoveStopped(n.ctrl)), Handle(n, firstLost, secondLost).ctrl)
  {
    var cb := n.queue[0].callback;
    var c1, k := EraseStale(RemoveStopped(n.ctrl)), KeyOf(cb.from, cb.to);
    var first, second := Asked(firstLost, true), Asked(secondLost, true);
    Housekept(Core(n));
    hide WorldInv, RemoveStopped, EraseStale, LiveOf, CompleteSwap, Committed, StaleOk, Acked, KeyOf, Calmer;
    LiveQueue(n);
    var w1 := World(c1, n.robots, LiveOf(n.queue));
    var key := HeadSwap(w1);
    AckKeeps(w1, k);
    AckedCalmer(c1, k, cb.from);
    var c2 := c1.(swaps := c1.swaps[k := Ack(c1.swaps[k], k, cb.from)]);
    if CompletesSwap(c1, cb.from, cb.to) {
      BothAway(World(c2, n.robots, LiveOf(n.queue)[1..]), k);
      CompletedCalmer(c2, k, first, second);
      CalmerTwice(c1, c2, CompleteSwap(c2, k, first, second));
    }
  }

  lemma LiveQueue(n: Network)
    requires n.queue != [] && !n.queue[0].stale
    ensures LiveOf(n.queue) != [] && LiveOf(n.queue)[0] == n.queue[0].callback
    ensures LiveOf(n.queue)[1..] == LiveOf(n.queue[1..])
  {
    assert LiveOf(n.queue) == [n.queue[0].callback] + LiveOf(n.queue[1..]);
  }

  /** The robots of a swap with both acknowledgements have reported each other's position. */
  lemma BothAway(w: World, k: Key)
    requires WorldInv(w) && NoneStopped(w.ctrl.robots) && BothAcked(w.ctrl, k)
    ensures k.0 < k.1
    ensures k.0 in w.ctrl.robots ==> w.ctrl.robots[k.0].position == k.1
    ensures k.1 in w.ctrl.robots ==> w.ctrl.robots[k.1].position == k.0
  {
    KeyOf01(w, k);
    hide WorldInv;
    if k.0 in w.ctrl.robots { AckedEnd(w, k, k.0); }
    if k.1 in w.ctrl.robots { AckedEnd(w, k, k.1); }
  }

  lemma HandleKeeps(n: Network, firstLost: bool, secondLost: bool)
    requires NetInv(n) && Linked(n.ctrl.robots, n.robots)
    ensures NetInv(Handle(n, firstLost, secondLost))
  {
    if n.queue != [] {
      var n' := Handle(n, firstLost, secondLost);
      if !n.queue[0].stale {
        LiveHeadKeeps(n, firstLost, secondLost);
      } else if n.queue[0].callback.Swapped? {
        StaleSwapped(n, firstLost, secondLost);
      } else {
        StaleReconfigured(n, firstLost, secondLost);
      }
      HandleCalmer(n, firstLost, secondLost);
      CalmerStale(n.ctrl, n'.ctrl, n.queue);
      StaleTail(n'.ctrl, n.queue);
      assert n'.queue == n.queue[1..];
      hide WorldInv, StaleOk, Handle, LiveOf, Calmer;
    }
  }

  lemma StaleTail(c: Ctrl, queue: seq<Posted>)
    requires StaleOk(c, queue) && queue != []
    ensures StaleOk(c, queue[1..])
  {
    hide Harmless;
    forall i | 0 <= i < |queue[1..]| && queue[1..][i].stale ensures Harmless(c, queue[1..][i].callback) {
      assert queue[1..][i] == queue[i + 1];
    }
  }

  // ------------------------------------------------------------------ whole runs

  /** Every step keeps the invariant, whichever calls and connections get lost and whenever. */
  lemma NetStepKeeps(n: Network, e: Event)
    requires NetInv(n) && Linked(n.ctrl.robots, n.robots) && Reliable(n, e)
    ensures NetInv(NetStep(n, e))
  {
    hide NetInv, Handle, Reliable, Step, MarkStale;
    match e
    case Lose(p) => LoseNetKeeps(n, p);
    case HandleCallback(firstLost, secondLost) => if n.ctrl.running { HandleKeeps(n, firstLost, secondLost); }
    case _ => PlainKeeps(n, e);
  }

  function Run(n: Network, events: seq<Event>): (n': Network)
    requires Linked(n.ctrl.robots, n.robots)
    ensures Linked(n'.ctrl.robots, n'.robots)
    decreases |events|
  {
    if events == [] then n else Run(NetStep(n, events[0]), events[1..])
  }

  predicate AllReliable(n: Network, events: seq<Event>)
    requires Linked(n.ctrl.robots, n.robots)
    decreases |events|
  {
    events == [] || (Reliable(n, events[0]) && AllReliable(NetStep(n, events[0]), events[1..]))
  }

  /** A robot moves by itself. */
  lemma Moves(n: Network, id: nat, e: R.Event)
    requires id < |n.robots| && Linked(n.ctrl.robots, n.robots)
    ensures NetStep(n, RobotEvent(id, e)) == n.(robots := n.robots[id := R.Step(n.robots[id], e)])
  {
    assert n.queue + [] == n.queue;
    hide R.Step;
  }

  lemma {:induction false} RunAppend(n0: Network, events: seq<Event>, e: Event)
    requires Linked(n0.ctrl.robots, n0.robots) && AllReliable(n0, events) && Reliable(Run(n0, events), e)
    ensures AllReliable(n0, events + [e]) && Run(n0, events + [e]) == NetStep(Run(n0, events), e)
    decreases |events|
  {
    hide Reliable, NetStep;
    if events == [] {
      assert [] + [e] == [e] && [e][1..] == [];
      assert Run(NetStep(n0, e), []) == NetStep(n0, e);
    } else {
      RunAppend(NetStep(n0, events[0]), events[1..], e);
      assert (events + [e])[1..] == events[1..] + [e];
    }
  }

  lemma {:induction false} RunKeeps(n: Network, events: seq<Event>)
    requires NetInv(n) && Linked(n.ctrl.robots, n.robots) && AllReliable(n, events)
    ensures NetInv(Run(n, events))
    decreases |events|
  {
    hide NetInv, NetStep, Reliable;
    if events != [] {
      NetStepKeeps(n, events[0]);
      RunKeeps(NetStep(n, events[0]), events[1..]);
    }
  }

  lemma InitialNet(n: Network)
    requires Bodies(n.robots) && n.ctrl == Ctrl(map[], map[], 0, true) && n.queue == []
    ensures NetInv(n)
  {
    hide Bodies;
  }

  // ------------------------------------------------------------------ what holds on every run

  function BodyAt(n: Network, p: nat): R.State
    requires Linked(n.ctrl.robots, n.robots) && p in n.ctrl.robots
  {
    n.robots[n.ctrl.robots[p].id]
  }

  lemma CoreRun(n: Network, events: seq<Event>)
    requires NetInv(n) && Linked(n.ctrl.robots, n.robots) && AllReliable(n, events)
    ensures WorldInv(Core(Run(n, events)))
  {
    hide WorldInv, AllReliable, Run;
    RunKeeps(n, events);
  }

  /** On every run, registered robots that do not await a commit hold pairwise distinct positions, although both
      partners of a swap may report the same position in between. */
  lemma DistinctPositions(n: Network, events: seq<Event>, p: nat, q: nat)
    requires NetInv(n) && Linked(n.ctrl.robots, n.robots) && AllReliable(n, events)
    requires var n' := Run(n, events); p in n'.ctrl.robots && q in n'.ctrl.robots && p != q
    requires var n' := Run(n, events); !AwaitsCommit(BodyAt(n', p)) && !AwaitsCommit(BodyAt(n', q))
    ensures var n' := Run(n, events); BodyAt(n', p).position == p && BodyAt(n', q).position == q
  {
    hide WorldInv, AllReliable, Run;
    CoreRun(n, events);
    FiledWhereItIs(Core(Run(n, events)), p);
    FiledWhereItIs(Core(Run(n, events)), q);
  }

  /** On every run, a task addressed to a position is accepted by no registered robot but the one that is filed
      there. */
  lemma OneTaker(n: Network, events: seq<Event>, p: nat, recipe: nat, steps: nat, addressed: nat)
    requires NetInv(n) && Linked(n.ctrl.robots, n.robots) && AllReliable(n, events) && p in Run(n, events).ctrl.robots
    requires R.ReceiveTaskAccepts(BodyAt(Run(n, events), p), recipe, steps, addressed)
    ensures addressed == p
  {
    hide WorldInv, AllReliable, Run, R.ReceiveTaskAccepts;
    CoreRun(n, events);
    TakesWhereFiled(Core(Run(n, events)), p, recipe, steps, addressed);
  }

  /** On every run, a position that the controller hands out is the real position of the robot it chose, which is
      neither on the move nor reconfiguring nor part of any swap. */
  lemma HandedOutIsReal(n: Network, events: seq<Event>)
    requires NetInv(n) && Linked(n.ctrl.robots, n.robots) && AllReliable(n, events)
    ensures HandsOutReal(Run(n, events).ctrl, Run(n, events).robots)
  {
    hide WorldInv, AllReliable, Run, HandsOutReal;
    CoreRun(n, events);
    HandedOutNow(Core(Run(n, events)));
  }

  /** On every run, a connected robot is handed out exactly if it is not part of a swap and no reconfiguration of it is
      under way or still to be handled: no robot is kept back for good. */
  lemma HandedOutExactly(n: Network, events: seq<Event>, p: nat)
    requires NetInv(n) && Linked(n.ctrl.robots, n.robots) && AllReliable(n, events) && Live(Run(n, events).ctrl, p)
    ensures var n' := Run(n, events);
            NextRobotReply(n'.ctrl, p) ==
              if !Swapping(n'.ctrl.swaps, p) && !Changing(Core(n'), p) then BodyAt(n', p).position else 0
  {
    hide WorldInv, AllReliable, Run, Swapping, Changing;
    CoreRun(n, events);
    OfferedExactly(Core(Run(n, events)), p);
  }

  /** On every run the published number of registered robots is the size of the registry. */
  lemma RegisteredCounts(n: Network, events: seq<Event>)
    requires NetInv(n) && Linked(n.ctrl.robots, n.robots) && AllReliable(n, events)
    ensures Run(n, events).ctrl.registered == |Run(n, events).ctrl.robots| % U32
  {
    hide WorldInv, AllReliable, Run;
    CoreRun(n, events);
    CountNow(Core(Run(n, events)));
  }

  /** On every run, registered robots whose dishes wait for their pickup are at different positions. */
  lemma PickupsAreApart(n: Network, events: seq<Event>, p: nat, q: nat)
    requires NetInv(n) && Linked(n.ctrl.robots, n.robots) && AllReliable(n, events)
    requires var n' := Run(n, events);
             p in n'.ctrl.robots && q in n'.ctrl.robots && p != q && BodyAt(n', p).pickup && BodyAt(n', q).pickup
    ensures BodyAt(Run(n, events), p).position != BodyAt(Run(n, events), q).position
  {
    var n' := Run(n, events);
    CoreRun(n, events);
    BodyOf(Core(n'), n'.ctrl.robots[p].id);
    BodyOf(Core(n'), n'.ctrl.robots[q].id);
    PickupNotAwaiting(BodyAt(n', p));
    PickupNotAwaiting(BodyAt(n', q));
    hide WorldInv, AllReliable, Run, BodyOk, LegOf;
    DistinctPositions(n, events, p, q);
  }

  lemma PickupNotAwaiting(s: R.State)
    requires BodyOk(s) && s.pickup
    ensures !AwaitsCommit(s)
  {
    hide DishOk, LoadOk, OrdersOk, TasksOk, WellFormed;
  }
}
