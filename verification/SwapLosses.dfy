/** A robot that cannot be reached leaves the registry: whenever a read or a call of the controller gets lost, the next
    housekeeping drops exactly the robots concerned. */
module SwapLosses {
  import opened Basics
  import R = Robot
  import opened RobotLegs
  import opened Controller
  import opened SwapProtocol
  import opened SwapSteps
  import opened SwapCompletion
  import opened SwapNetwork
  import opened SwapProgress

  // ------------------------------------------------------------------ which calls are made, and lost

  function IdAt(c: Ctrl, p: nat): set<nat> { if p in c.robots then {c.robots[p].id} else {} }

  /** The robot at the position is asked whether it is available, and says so. */
  predicate SaysAvailable(n: Network, p: nat, lost: bool)
    requires Linked(n.ctrl.robots, n.robots)
  {
    p in n.ctrl.robots && !lost && BodyAt(n, p).available
  }

  predicate Pending(c: Ctrl, p: nat) { p in c.robots && c.robots[p].pending }

  /** A request to swap asks the first robot, then the one at the target, if any, and then tells both in this order;
      each call is made only if everything before it went well. The first loss ends it. */
  function LostInSwap(n: Network, from: nat, to: nat, l: SwapLosses): set<nat>
    requires Linked(n.ctrl.robots, n.robots)
  {
    var c := n.ctrl;
    if from == to || Swapping(c.swaps, from) || Swapping(c.swaps, to) || from !in c.robots || Pending(c, from) then {}
    else if l.fromAvailable then IdAt(c, from)
    else if !SaysAvailable(n, from, false) || Pending(c, to) then {}
    else if to in c.robots && l.toAvailable then IdAt(c, to)
    else if to in c.robots && !SaysAvailable(n, to, false) then {}
    else if l.first then IdAt(c, from)
    else if to in c.robots && l.second then IdAt(c, to)
    else {}
  }

  /** A request to reconfigure asks the robot, and tells it if it is available. */
  function LostInReconfiguration(n: Network, p: nat, readLost: bool, callLost: bool): set<nat>
    requires Linked(n.ctrl.robots, n.robots)
  {
    if p !in n.ctrl.robots || Pending(n.ctrl, p) then {}
    else if readLost || (SaysAvailable(n, p, false) && callLost) then IdAt(n.ctrl, p)
    else {}
  }

  /** An accepted robot is asked whether it awaits a commit, and told to commit if it does. */
  function LostInRegistration(n: Network, id: nat, connects: bool, readLost: bool, commitLost: bool): set<nat>
    requires id < |n.robots|
  {
    if !Accepted(n.ctrl, n.robots[id].position, connects) then {}
    else if readLost || (n.robots[id].commitPending && commitLost) then {id}
    else {}
  }

  /** A completed swap tells the robot filed under the lower position to commit, and then the other one, so far as they
      are still connected. */
  function LostInCompletion(n: Network, firstLost: bool, secondLost: bool): set<nat>
  {
    if n.queue == [] || n.queue[0].callback.Reconfigured? then {}
    else
      var c, cb := EraseStale(RemoveStopped(n.ctrl)), n.queue[0].callback;
      var k := KeyOf(cb.from, cb.to);
      if !CompletesSwap(c, cb.from, cb.to) then {}
      else (if firstLost then IdAt(c, k.0) else {}) + (if secondLost then IdAt(c, k.1) else {})
  }

  /** The robots of which a read or a call gets lost in a step. */
  function LostIn(n: Network, e: Event): set<nat>
    requires Linked(n.ctrl.robots, n.robots) && (e.Register? ==> e.id < |n.robots|)
  {
    match e
    case SwapRequest(from, to, l) => LostInSwap(n, from, to, l)
    case ReconfigureRequest(p, _, readLost, callLost) => LostInReconfiguration(n, p, readLost, callLost)
    case Register(id, connects, readLost, commitLost) => LostInRegistration(n, id, connects, readLost, commitLost)
    case HandleCallback(firstLost, secondLost) => LostInCompletion(n, firstLost, secondLost)
    case _ => {}
  }

  /** The robot that becomes registered in a step. */
  function NewIn(n: Network, e: Event): set<nat>
    requires e.Register? ==> e.id < |n.robots|
  {
    if e.Register? && Accepted(n.ctrl, n.robots[e.id].position, e.connects) then {e.id} else {}
  }

  // ------------------------------------------------------------------ the registry

  function LiveIds(remotes: map<nat, Remote>): set<nat>
  {
    set p | p in remotes && !remotes[p].stopped :: remotes[p].id
  }

  function RegisteredIds(remotes: map<nat, Remote>): set<nat> { set p | p in remotes :: remotes[p].id }

  ghost predicate OneEach(remotes: map<nat, Remote>)
  {
    forall p, q :: p in remotes && q in remotes && remotes[p].id == remotes[q].id ==> p == q
  }

  lemma Updated(a: map<nat, Remote>, p: nat, r: Remote)
    requires OneEach(a) && p in a && r.id == a[p].id
    ensures OneEach(a[p := r])
    ensures r.stopped ==> LiveIds(a[p := r]) == LiveIds(a) - {r.id}
    ensures r.stopped == a[p].stopped ==> LiveIds(a[p := r]) == LiveIds(a)
  {
    var b := a[p := r];
    forall x | x in LiveIds(a) && (x != r.id || !r.stopped) ensures x in LiveIds(b) {
      var q :| q in a && !a[q].stopped && a[q].id == x;
      assert q in b && b[q].id == x;
    }
    forall x | x in LiveIds(b) ensures r.stopped == a[p].stopped || r.stopped ==> x in LiveIds(a) {
      var q :| q in b && !b[q].stopped && b[q].id == x;
      assert q in a && a[q].id == x;
    }
  }

  lemma HousekeptRegistry(c: Ctrl)
    ensures var c1 := EraseStale(RemoveStopped(c));
            RegisteredIds(c1.robots) == LiveIds(c.robots) == LiveIds(c1.robots)
  {
    RemoveStoppedFacts(c);
    hide RemoveStopped;
    var c1 := EraseStale(RemoveStopped(c));
    forall x | x in LiveIds(c.robots) ensures x in LiveIds(c1.robots) && x in RegisteredIds(c1.robots) {
      var q :| q in c.robots && !c.robots[q].stopped && c.robots[q].id == x;
      assert q in c1.robots && c1.robots[q].id == x;
    }
  }

  // ------------------------------------------------------------------ requests

  /** What the answers of a request say about losses. */
  function LostByAnswers(c: Ctrl, from: nat, to: nat, a: SwapAnswers): set<nat>
  {
    if !SwapConsidered(c, from, to) then {}
    else if a.fromAvailable.Failed? then IdAt(c, from)
    else if !a.fromAvailable.value || Pending(c, to) then {}
    else if to in c.robots && a.toAvailable.Failed? then IdAt(c, to)
    else if to in c.robots && !a.toAvailable.value then {}
    else if a.first.Failed? then IdAt(c, from)
    else if to in c.robots && a.second.Failed? then IdAt(c, to)
    else {}
  }

  lemma SwapIds(c: Ctrl, from: nat, to: nat, a: SwapAnswers)
    requires OneEach(c.robots)
    ensures var c' := SwapRobotPositions(c, from, to, a);
            c'.running ==> LiveIds(c'.robots) == LiveIds(c.robots) - LostByAnswers(c, from, to, a)
  {
    if from in c.robots && from != to {
      Updated(c.robots, from, c.robots[from].(stopped := true));
      Updated(c.robots, from, c.robots[from].(pending := true));
      if to in c.robots {
        Updated(c.robots, to, c.robots[to].(stopped := true));
        PairIds(c.robots, from, to);
      }
    }
    hide LiveIds, Swapping, OneEach, Ack, KeyOf;
  }

  lemma PairIds(a: map<nat, Remote>, from: nat, to: nat)
    requires OneEach(a) && from in a && to in a && from != to
    ensures var one: map<nat, Remote> := a[from := a[from].(pending := true)];
            && LiveIds(one[to := a[to].(stopped := true)][to := a[to].(stopped := true, pending := true)]) ==
               LiveIds(a) - {a[to].id}
            && LiveIds(one[to := a[to].(pending := true)]) == LiveIds(a)
  {
    var one: map<nat, Remote>, q := a[from := a[from].(pending := true)], a[to];
    Updated(a, from, a[from].(pending := true));
    Updated(one, to, q.(stopped := true, pending := true));
    Updated(one, to, q.(pending := true));
    assert one[to := q.(stopped := true)][to := q.(stopped := true, pending := true)] ==
        one[to := q.(stopped := true, pending := true)];
    hide LiveIds, OneEach;
  }

  lemma ReconfigurationIds(c: Ctrl, p: nat, available: Reply, call: Reply)
    requires OneEach(c.robots)
    ensures var c' := ReconfigureRobot(c, p, available, call);
            LiveIds(c'.robots) == LiveIds(c.robots) -
              if p in c.robots && !Pending(c, p) && (available.Failed? || (available.value && call.Failed?))
              then IdAt(c, p) else {}
  {
    if p in c.robots {
      Updated(c.robots, p, c.robots[p].(stopped := true));
      Updated(c.robots, p, c.robots[p].(pending := true));
    }
    hide LiveIds, OneEach;
  }

  lemma AddedId(a: map<nat, Remote>, p: nat, r: Remote)
    requires p !in a && NotRegistered(a, r.id)
    ensures LiveIds(a[p := r]) == LiveIds(a) + (if r.stopped then {} else {r.id}) && r.id !in LiveIds(a)
  {
    var b := a[p := r];
    forall x | x in LiveIds(a) ensures x in LiveIds(b) {
      var q :| q in a && !a[q].stopped && a[q].id == x;
      assert q in b && b[q] == a[q];
    }
    if !r.stopped { assert p in b && b[p].id == r.id; }
  }

  /** The robot that registers, lost again if a call to it got lost. */
  function Newcomer(n: Network, id: nat, readLost: bool, commitLost: bool): Remote
    requires id < |n.robots|
  {
    var s := n.robots[id];
    Remote(id, s.position, s.caps, false, readLost || (s.commitPending && commitLost))
  }

  lemma RegistrationShape(n: Network, id: nat, connects: bool, readLost: bool, commitLost: bool)
    requires Linked(n.ctrl.robots, n.robots) && n.ctrl.running && id < |n.robots|
    ensures var c1, p := EraseStale(RemoveStopped(n.ctrl)), n.robots[id].position;
            NetStep(n, Register(id, connects, readLost, commitLost)).ctrl.robots ==
              if Accepted(n.ctrl, p, connects) then c1.robots[p := Newcomer(n, id, readLost, commitLost)] else c1.robots
  {
    var w, s := World(n.ctrl, n.robots, []), n.robots[id];
    hide RemoveStopped, EraseStale, RegisterStep, R.CommitCall, Swapping, Fresh;
    if Accepted(n.ctrl, s.position, connects) {
      Registered(w, id, connects, readLost, commitLost, readLost || (s.commitPending && commitLost),
                 if s.commitPending && !readLost && !commitLost then R.CommitCall(s) else s);
    } else {
      Refused(w, id, connects, readLost, commitLost);
    }
  }

  lemma RegistrationIds(n: Network, id: nat, connects: bool, readLost: bool, commitLost: bool)
    requires WorldInv(Core(n)) && Linked(n.ctrl.robots, n.robots) && n.ctrl.running && id < |n.robots|
    ensures var e := Register(id, connects, readLost, commitLost);
            LiveIds(NetStep(n, e).ctrl.robots) == LiveIds(n.ctrl.robots) + NewIn(n, e) - LostIn(n, e)
  {
    hide WorldInv, RemoveStopped, EraseStale, NetStep, LiveIds, RegisteredIds, Swapping, NotRegistered;
    var s, c1 := n.robots[id], EraseStale(RemoveStopped(n.ctrl));
    HousekeptRegistry(n.ctrl);
    RegistrationShape(n, id, connects, readLost, commitLost);
    if Accepted(n.ctrl, s.position, connects) {
      HousekeptIds(Core(n), id);
      AddedId(c1.robots, s.position, Newcomer(n, id, readLost, commitLost));
      AddedUnlessLost(LiveIds(c1.robots), id, Newcomer(n, id, readLost, commitLost).stopped);
    }
    hide Accepted;
  }

  lemma AddedUnlessLost(ids: set<nat>, id: nat, lost: bool)
    requires id !in ids
    ensures ids + (if lost then {} else {id}) == ids + {id} - (if lost then {id} else {})
  {
  }

  // ------------------------------------------------------------------ notifications

  lemma ExchangedLive(a: map<nat, Remote>, b: map<nat, Remote>, k: Key, firstLost: bool, secondLost: bool)
    requires k.0 < k.1 && OneEach(a) && NoneStopped(a) && Exchanged(a, b, k.0, k.1)
    requires k.0 in a ==> b[k.1] == a[k.0].(pending := false, stopped := firstLost)
    requires k.1 in a ==> b[k.0] == a[k.1].(pending := false, stopped := secondLost)
    ensures LiveIds(b) == LiveIds(a) - (if firstLost && k.0 in a then {a[k.0].id} else {})
                                     - (if secondLost && k.1 in a then {a[k.1].id} else {})
  {
    forall x | x in LiveIds(a) && !(firstLost && k.0 in a && x == a[k.0].id) &&
        !(secondLost && k.1 in a && x == a[k.1].id)
      ensures x in LiveIds(b)
    {
      var p :| p in a && !a[p].stopped && a[p].id == x;
      var q := if p == k.0 then k.1 else if p == k.1 then k.0 else p;
      assert q in b && !b[q].stopped && b[q].id == x;
    }
    forall x | x in LiveIds(b)
      ensures x in LiveIds(a) && !(firstLost && k.0 in a && x == a[k.0].id)
      ensures !(secondLost && k.1 in a && x == a[k.1].id)
    {
      var q :| q in b && !b[q].stopped && b[q].id == x;
      var p := if q == k.0 then k.1 else if q == k.1 then k.0 else q;
      assert p in a && a[p].id == x;
    }
  }

  lemma HandledRemotes(n: Network, firstLost: bool, secondLost: bool)
    requires Linked(n.ctrl.robots, n.robots) && n.queue != []
    ensures var c1, cb := EraseStale(RemoveStopped(n.ctrl)), n.queue[0].callback;
            Handle(n, firstLost, secondLost).ctrl ==
              if cb.Reconfigured? then CapabilitiesReconfigured(n.ctrl, cb.position)
              else Acknowledge(c1, cb.from, cb.to, Asked(firstLost, true), Asked(secondLost, true))
  {
    hide CapabilitiesReconfigured, Acknowledge, CompletesSwap, Committed;
  }

  lemma ReleasedLive(c: Ctrl, p: nat)
    requires OneEach(c.robots)
    ensures LiveIds(CapabilitiesReconfigured(c, p).robots) == LiveIds(c.robots)
  {
    var c1 := RemoveStopped(c);
    RemoveStoppedFacts(c);
    HousekeptRegistry(c);
    assert LiveIds(c1.robots) == LiveIds(EraseStale(c1).robots);
    hide RemoveStopped;
    if p in c1.robots { Updated(c1.robots, p, c1.robots[p].(pending := false)); }
    hide LiveIds, RegisteredIds;
  }

  lemma CompletionIds(n: Network, firstLost: bool, secondLost: bool)
    requires HeadOk(n) && Linked(n.ctrl.robots, n.robots) && n.queue[0].callback.Swapped?
    requires CompletesSwap(EraseStale(RemoveStopped(n.ctrl)), n.queue[0].callback.from, n.queue[0].callback.to)
    ensures LiveIds(Handle(n, firstLost, secondLost).ctrl.robots) ==
              LiveIds(n.ctrl.robots) - LostInCompletion(n, firstLost, secondLost)
  {
    assert n.queue != [];
    var k, c2 := KeyOf(n.queue[0].callback.from, n.queue[0].callback.to), Completing(n);
    hide HeadOk, WorldInv, RemoveStopped, EraseStale, Handle, CompleteSwap, CompletesSwap, KeyOf, Completing, LiveIds,
         RegisteredIds, BothAcked, NoneStopped, LostInCompletion, IdAt;
    HousekeptRegistry(n.ctrl);
    LostCompleting(n, firstLost, secondLost);
    CompletionShape(n, firstLost, secondLost);
    var rest := CompletingKeeps(n);
    CompletedLive(World(c2, n.robots, rest), k, firstLost, secondLost);
  }

  lemma LostCompleting(n: Network, firstLost: bool, secondLost: bool)
    requires n.queue != [] && n.queue[0].callback.Swapped?
    requires CompletesSwap(EraseStale(RemoveStopped(n.ctrl)), n.queue[0].callback.from, n.queue[0].callback.to)
    ensures var k, c2 := KeyOf(n.queue[0].callback.from, n.queue[0].callback.to), Completing(n);
            LostInCompletion(n, firstLost, secondLost) ==
              (if firstLost then IdAt(c2, k.0) else {}) + (if secondLost then IdAt(c2, k.1) else {})
  {
    hide EraseStale, RemoveStopped, CompletesSwap, KeyOf, Ack;
  }

  lemma CompletedLive(w: World, k: Key, firstLost: bool, secondLost: bool)
    requires WorldInv(w) && Linked(w.ctrl.robots, w.robots) && NoneStopped(w.ctrl.robots) && BothAcked(w.ctrl, k)
    ensures LiveIds(CompleteSwap(w.ctrl, k, Asked(firstLost, true), Asked(secondLost, true)).robots) ==
              LiveIds(w.ctrl.robots) -
              ((if firstLost then IdAt(w.ctrl, k.0) else {}) + (if secondLost then IdAt(w.ctrl, k.1) else {}))
  {
    assert k in w.ctrl.swaps;
    hide WorldInv, CompleteSwap, LiveIds, BothAcked, Exchanged, OneEach, NoneStopped, Committed;
    KeyOf01(w, k);
    RegistryIds(w);
    CompletedShape(w, k, firstLost, secondLost);
    ExchangedLive(w.ctrl.robots, Completed(w, k, firstLost, secondLost).ctrl.robots, k, firstLost, secondLost);
    TwoLost(LiveIds(w.ctrl.robots), IdAt(w.ctrl, k.0), IdAt(w.ctrl, k.1), firstLost, secondLost);
  }

  lemma TwoLost(ids: set<nat>, a: set<nat>, b: set<nat>, first: bool, second: bool)
    ensures ids - (if first then a else {}) - (if second then b else {}) ==
            ids - ((if first then a else {}) + (if second then b else {}))
  {
  }

  lemma CompletionShape(n: Network, firstLost: bool, secondLost: bool)
    requires Linked(n.ctrl.robots, n.robots) && n.queue != [] && n.queue[0].callback.Swapped?
    requires CompletesSwap(EraseStale(RemoveStopped(n.ctrl)), n.queue[0].callback.from, n.queue[0].callback.to)
    ensures Handle(n, firstLost, secondLost).ctrl ==
              CompleteSwap(Completing(n), KeyOf(n.queue[0].callback.from, n.queue[0].callback.to),
                           Asked(firstLost, true), Asked(secondLost, true))
  {
    HandledRemotes(n, firstLost, secondLost);
    hide RemoveStopped, EraseStale, CompleteSwap, KeyOf, Ack, Handle;
  }

  lemma RegistryIds(w: World)
    requires WorldInv(w)
    ensures OneEach(w.ctrl.robots)
  {
    hide Bodies, Ends, Frees, Queue, Disjoint;
  }

  lemma AcknowledgedOnly(n: Network, firstLost: bool, secondLost: bool)
    requires Linked(n.ctrl.robots, n.robots) && n.queue != [] && n.queue[0].callback.Swapped?
    requires !CompletesSwap(EraseStale(RemoveStopped(n.ctrl)), n.queue[0].callback.from, n.queue[0].callback.to)
    ensures Handle(n, firstLost, secondLost).ctrl.robots == EraseStale(RemoveStopped(n.ctrl)).robots
  {
    HandledRemotes(n, firstLost, secondLost);
    hide RemoveStopped, EraseStale, CompletesSwap, KeyOf, Ack, Handle;
  }

  lemma HandlingIds(n: Network, firstLost: bool, secondLost: bool)
    requires NetInv(n) && Linked(n.ctrl.robots, n.robots)
    ensures LiveIds(Handle(n, firstLost, secondLost).ctrl.robots) ==
              LiveIds(n.ctrl.robots) - LostInCompletion(n, firstLost, secondLost)
  {
    if n.queue != [] {
      assert HeadOk(n);
      var cb := n.queue[0].callback;
      RegistryIds(Core(n));
      HousekeptRegistry(n.ctrl);
      hide NetInv, HeadOk, WorldInv, RemoveStopped, EraseStale, Handle, CompletesSwap, KeyOf, LiveIds, RegisteredIds;
      if cb.Reconfigured? {
        HandledRemotes(n, firstLost, secondLost);
        ReleasedLive(n.ctrl, cb.position);
      } else if CompletesSwap(EraseStale(RemoveStopped(n.ctrl)), cb.from, cb.to) {
        CompletionIds(n, firstLost, secondLost);
      } else {
        AcknowledgedOnly(n, firstLost, secondLost);
      }
    }
  }

  lemma RequestIds(n: Network, e: Event)
    requires WorldInv(Core(n)) && Linked(n.ctrl.robots, n.robots) && n.ctrl.running
    requires e.SwapRequest? || e.ReconfigureRequest?
    requires NetStep(n, e).ctrl.running
    ensures LiveIds(NetStep(n, e).ctrl.robots) == LiveIds(n.ctrl.robots) - LostIn(n, e)
  {
    RegistryIds(Core(n));
    if e.SwapRequest? && e.from in n.ctrl.robots {
      var a := SwapAnswersOf(World(n.ctrl, n.robots, []), e.from, e.to, e.losses);
      SwapCtrl(n, e);
      SwapIds(n.ctrl, e.from, e.to, a);
      AnswersTell(n, e.from, e.to, e.losses);
    } else if e.ReconfigureRequest? && e.at in n.ctrl.robots {
      RequestedReconfiguration(n, e);
    }
    hide WorldInv, LiveIds, SwapRobotPositions, SwapAnswersOf, LostByAnswers, OneEach;
  }

  lemma RequestedReconfiguration(n: Network, e: Event)
    requires Linked(n.ctrl.robots, n.robots) && n.ctrl.running && OneEach(n.ctrl.robots)
    requires e.ReconfigureRequest? && e.at in n.ctrl.robots
    ensures LiveIds(NetStep(n, e).ctrl.robots) == LiveIds(n.ctrl.robots) - LostIn(n, e)
  {
    var s := BodyAt(n, e.at);
    var available, call := Asked(e.readLost, s.available), Asked(e.callLost, R.ReconfigureAccepts(s, e.caps));
    assert NetStep(n, e).ctrl == ReconfigureRobot(n.ctrl, e.at, available, call) by {
      hide ReconfigureRobot, R.ReconfigureCall, R.ReconfigureAccepts, Fresh;
    }
    hide NetStep, ReconfigureRobot, LiveIds, OneEach, R.ReconfigureAccepts;
    ReconfigurationIds(n.ctrl, e.at, available, call);
  }

  lemma AnswersTell(n: Network, from: nat, to: nat, l: SwapLosses)
    requires Linked(n.ctrl.robots, n.robots) && from in n.ctrl.robots
    ensures LostByAnswers(n.ctrl, from, to, SwapAnswersOf(World(n.ctrl, n.robots, []), from, to, l)) ==
              LostInSwap(n, from, to, l)
  {
    var k := KeyOf(from, to);
    assert k in n.ctrl.swaps ==> Involves(k, from);
    hide R.SwitchAccepts;
  }

  // ------------------------------------------------------------------ the next housekeeping

  lemma SizeOfRegistry(remotes: map<nat, Remote>)
    requires OneEach(remotes)
    ensures |RegisteredIds(remotes)| == |remotes|
    decreases |remotes|
  {
    if remotes != map[] {
      var p :| p in remotes;
      var rest := remotes - {p};
      assert remotes.Keys == rest.Keys + {p};
      SizeOfRegistry(rest);
      assert |remotes.Keys| == |rest.Keys| + 1;
      forall x | x in RegisteredIds(remotes) && x != remotes[p].id ensures x in RegisteredIds(rest) {
        var q :| q in remotes && remotes[q].id == x;
        assert q in rest && rest[q].id == x;
      }
      assert RegisteredIds(remotes) == RegisteredIds(rest) + {remotes[p].id};
      assert remotes[p].id !in RegisteredIds(rest);
    }
  }

  /** Whatever the controller does: after the next housekeeping exactly those robots are registered that were
      connected before, or have registered in this step, and to which no call of this step got lost; and
      REGISTERED_ROBOTS is their number. */
  lemma LostAreDropped(n: Network, e: Event)
    requires NetInv(n) && Linked(n.ctrl.robots, n.robots) && n.ctrl.running && Reliable(n, e)
    requires e.SwapRequest? || e.ReconfigureRequest? || e.Register? || e.HandleCallback?
    requires NetStep(n, e).ctrl.running
    ensures var c := NetStep(NetStep(n, e), Housekeeping).ctrl;
            && RegisteredIds(c.robots) == LiveIds(n.ctrl.robots) + NewIn(n, e) - LostIn(n, e)
            && c.registered == |RegisteredIds(c.robots)| % U32
  {
    var n1 := NetStep(n, e);
    var n2 := NetStep(n1, Housekeeping);
    NetStepKeeps(n, e);
    assert Reliable(n1, Housekeeping);
    NetStepKeeps(n1, Housekeeping);
    CountedNow(n2);
    HousekeptRegistry(n1.ctrl);
    assert n2.ctrl == EraseStale(RemoveStopped(n1.ctrl)) by { hide RemoveStopped, EraseStale, Fresh; }
    LiveAfter(n, e);
    hide NetInv, NetStep, LiveIds, RegisteredIds, Reliable, EraseStale, RemoveStopped;
  }

  lemma CountedNow(n: Network)
    requires NetInv(n)
    ensures n.ctrl.registered == |RegisteredIds(n.ctrl.robots)| % U32
  {
    RegistryIds(Core(n));
    SizeOfRegistry(n.ctrl.robots);
    hide Ids, Bodies, Ends, Frees, Queue, Disjoint, RegisteredIds;
  }

  lemma LiveAfter(n: Network, e: Event)
    requires NetInv(n) && Linked(n.ctrl.robots, n.robots) && n.ctrl.running && Reliable(n, e)
    requires e.SwapRequest? || e.ReconfigureRequest? || e.Register? || e.HandleCallback?
    requires NetStep(n, e).ctrl.running
    ensures LiveIds(NetStep(n, e).ctrl.robots) == LiveIds(n.ctrl.robots) + NewIn(n, e) - LostIn(n, e)
  {
    assert WorldInv(Core(n));
    hide NetInv, WorldInv, LiveIds, Handle, NetStep, LostInSwap, LostInReconfiguration, LostInRegistration,
         LostInCompletion, Accepted;
    if e.Register? {
      RegistrationIds(n, e.id, e.connects, e.readLost, e.commitLost);
    } else if e.HandleCallback? {
      HandlingIds(n, e.firstLost, e.secondLost);
      HandledStep(n, e);
      NobodyNew(n, e);
    } else {
      RequestIds(n, e);
      NobodyNew(n, e);
    }
  }

  lemma NobodyNew(n: Network, e: Event)
    requires !e.Register?
    ensures LiveIds(n.ctrl.robots) + NewIn(n, e) == LiveIds(n.ctrl.robots)
  {
    hide LiveIds;
  }

  lemma HandledStep(n: Network, e: Event)
    requires Linked(n.ctrl.robots, n.robots) && n.ctrl.running && e.HandleCallback?
    ensures NetStep(n, e) == Handle(n, e.firstLost, e.secondLost)
  {
    hide Handle;
  }
}
