/** The position-swap protocol: the controller, all robots, and the notifications between them. */
module SwapProtocol {
  import opened Basics
  import R = Robot
  import opened RobotInvariant
  import opened RobotLegs
  import opened Controller

  /** What a subscription callback has posted to the controller's event loop. The id is not part of the
      posted task; it only names the robot that the task is about. */
  datatype Callback = Swapped(id: nat, from: nat, to: nat) | Reconfigured(id: nat, position: nat)

  datatype World = World(ctrl: Ctrl, robots: seq<R.State>, callbacks: seq<Callback>)

  predicate Linked(remotes: map<nat, Remote>, robots: seq<R.State>)
  {
    forall p :: p in remotes ==> remotes[p].id < |robots|
  }

  predicate InQueue(callbacks: seq<Callback>, id: nat)
  {
    exists i :: 0 <= i < |callbacks| && callbacks[i].id == id
  }

  function Asked(lost: bool, value: bool): Reply { if lost then Failed else Answer(value) }

  // ------------------------------------------------------------------ steps

  /** Which of the remote calls of a handler get lost; a lost call is not executed. */
  datatype SwapLosses = SwapLosses(fromAvailable: bool, toAvailable: bool, first: bool, second: bool)

  datatype Event =
    | RobotEvent(id: nat, event: R.Event)
    | NotifyPosition(at: nat)
    | NotifyCapabilities(at: nat)
    | Lose(at: nat)
    | Register(id: nat, connects: bool, readLost: bool, commitLost: bool)
    | SwapRequest(from: nat, to: nat, losses: SwapLosses)
    | ReconfigureRequest(at: nat, caps: set<string>, readLost: bool, callLost: bool)
    | Housekeeping
    | HandleCallback(firstLost: bool, secondLost: bool)

  function NotifyPositionStep(w: World, p: nat): (w': World)
    requires Linked(w.ctrl.robots, w.robots)
    ensures Linked(w'.ctrl.robots, w'.robots)
  {
    if p !in w.ctrl.robots || w.ctrl.robots[p].stopped then w
    else
      var r := w.ctrl.robots[p];
      var now := w.robots[r.id].position;
      if now == r.position then w
      else w.(ctrl := w.ctrl.(robots := w.ctrl.robots[p := r.(position := now)]),
              callbacks := w.callbacks + [Swapped(r.id, r.position, now)])
  }

  function NotifyCapabilitiesStep(w: World, p: nat): (w': World)
    requires Linked(w.ctrl.robots, w.robots)
    ensures Linked(w'.ctrl.robots, w'.robots)
  {
    if p !in w.ctrl.robots || w.ctrl.robots[p].stopped then w
    else
      var r := w.ctrl.robots[p];
      var now := w.robots[r.id].caps;
      if now == r.caps then w
      else w.(ctrl := w.ctrl.(robots := w.ctrl.robots[p := r.(caps := now)]),
              callbacks := w.callbacks + [Reconfigured(r.id, r.position)])
  }

  function SwapAnswersOf(w: World, from: nat, to: nat, l: SwapLosses): SwapAnswers
    requires Linked(w.ctrl.robots, w.robots) && from in w.ctrl.robots
  {
    var a := w.robots[w.ctrl.robots[from].id];
    if to !in w.ctrl.robots
    then SwapAnswers(Asked(l.fromAvailable, a.available), Failed, Asked(l.first, R.SwitchAccepts(a, to)), Failed)
    else
      var b := w.robots[w.ctrl.robots[to].id];
      SwapAnswers(Asked(l.fromAvailable, a.available), Asked(l.toAvailable, b.available),
                  Asked(l.first, R.SwitchAccepts(a, to)), Asked(l.second, R.SwitchAccepts(b, from)))
  }

  function SwapStep(w: World, from: nat, to: nat, l: SwapLosses): (w': World)
    requires Linked(w.ctrl.robots, w.robots)
    ensures Linked(w'.ctrl.robots, w'.robots)
  {
    if from !in w.ctrl.robots then w
    else
      var c, a := w.ctrl, SwapAnswersOf(w, from, to, l);
      var c1 := SwapRobotPositions(c, from, to, a);
      if !SwapStarts(c, from, to, a) || l.first then w.(ctrl := c1)
      else
        var i := c.robots[from].id;
        var moved := w.robots[i := R.SwitchCall(w.robots[i], to)];
        if !a.first.value || to !in c.robots || l.second then w.(ctrl := c1, robots := moved)
        else
          var j := c.robots[to].id;
          w.(ctrl := c1, robots := moved[j := R.SwitchCall(moved[j], from)])
  }

  function ReconfigureStep(w: World, p: nat, caps: set<string>, readLost: bool, callLost: bool): (w': World)
    requires Linked(w.ctrl.robots, w.robots)
    ensures Linked(w'.ctrl.robots, w'.robots)
  {
    if p !in w.ctrl.robots then w
    else
      var i := w.ctrl.robots[p].id;
      var available := Asked(readLost, w.robots[i].available);
      var c1 := ReconfigureRobot(w.ctrl, p, available, Asked(callLost, R.ReconfigureAccepts(w.robots[i], caps)));
      if ReconfigurationStarts(w.ctrl, p, available) && !callLost
      then w.(ctrl := c1, robots := w.robots[i := R.ReconfigureCall(w.robots[i], caps)])
      else w.(ctrl := c1)
  }

  function RegisterStep(w: World, id: nat, connects: bool, readLost: bool, commitLost: bool): (w': World)
    requires id < |w.robots| && Linked(w.ctrl.robots, w.robots)
    ensures Linked(w'.ctrl.robots, w'.robots)
  {
    var s := w.robots[id];
    var a := RegistrationAnswers(connects, Asked(readLost, s.commitPending), Asked(commitLost, R.CommitAccepts(s)));
    var c1 := HandleRegistration(w.ctrl, id, s.position, s.caps, a);
    if Registers(EraseStale(RemoveStopped(w.ctrl)), s.position, a) && !readLost && s.commitPending && !commitLost
    then w.(ctrl := c1, robots := w.robots[id := R.CommitCall(s)])
    else w.(ctrl := c1)
  }

  function Committed(remotes: map<nat, Remote>, robots: seq<R.State>, p: nat, lost: bool): (r: seq<R.State>)
    requires Linked(remotes, robots)
    ensures |r| == |robots|
  {
    if p in remotes && !lost then robots[remotes[p].id := R.CommitCall(robots[remotes[p].id])] else robots
  }

  function CallbackStep(w: World, firstLost: bool, secondLost: bool): (w': World)
    requires Linked(w.ctrl.robots, w.robots)
    ensures Linked(w'.ctrl.robots, w'.robots)
  {
    if w.callbacks == [] then w
    else
      var rest := w.callbacks[1..];
      match w.callbacks[0]
      case Reconfigured(_, p) => w.(ctrl := CapabilitiesReconfigured(w.ctrl, p), callbacks := rest)
      case Swapped(_, from, to) =>
        var c, key := EraseStale(RemoveStopped(w.ctrl)), KeyOf(from, to);
        // what a robot answers to a commit is only logged
        var c1 := PositionSwapped(w.ctrl, from, to, Asked(firstLost, true), Asked(secondLost, true));
        if !CompletesSwap(c, from, to) then w.(ctrl := c1, callbacks := rest)
        else
          var one := Committed(c.robots, w.robots, key.0, firstLost);
          w.(ctrl := c1, robots := Committed(c.robots, one, key.1, secondLost), callbacks := rest)
  }

  /** A controller that has stopped handles nothing any more. */
  function Step(w: World, e: Event): (w': World)
    requires Linked(w.ctrl.robots, w.robots)
    ensures Linked(w'.ctrl.robots, w'.robots)
  {
    match e
    case RobotEvent(id, event) =>
      if id < |w.robots| then w.(robots := w.robots[id := R.Step(w.robots[id], event)]) else w
    case NotifyPosition(p) => NotifyPositionStep(w, p)
    case NotifyCapabilities(p) => NotifyCapabilitiesStep(w, p)
    case Lose(p) => if p in w.ctrl.robots then w.(ctrl := MarkStopped(w.ctrl, p)) else w
    case Register(id, connects, readLost, commitLost) =>
      if w.ctrl.running && id < |w.robots| then RegisterStep(w, id, connects, readLost, commitLost) else w
    case SwapRequest(from, to, l) => if w.ctrl.running then SwapStep(w, from, to, l) else w
    case ReconfigureRequest(p, caps, readLost, callLost) =>
      if w.ctrl.running then ReconfigureStep(w, p, caps, readLost, callLost) else w
    case Housekeeping => if w.ctrl.running then w.(ctrl := EraseStale(RemoveStopped(w.ctrl))) else w
    case HandleCallback(firstLost, secondLost) =>
      if w.ctrl.running then CallbackStep(w, firstLost, secondLost) else w
  }

  /** A robot that registers in this state is filed correctly: it has settled, or it awaits a commit, or its commit is
      queued and it is not told to commit once more. */
  predicate Registrable(s: R.State, readLost: bool, commitLost: bool)
  {
    LegOf(s).Settled? || LegOf(s).Arrived? || (LegOf(s).Committing? && (readLost || commitLost))
  }

  /** What one step of the protocol relies on. A robot whose registration is accepted is not adapting, and not about
      to be committed twice. That a connection is given up only when no notification over it is queued is lifted in
      the next layer, which also has the notifications of lost connections. */
  predicate Admissible(w: World, e: Event)
    requires Linked(w.ctrl.robots, w.robots)
  {
    match e
    case RobotEvent(id, event) => id < |w.robots| && OwnEvent(event) && R.Admissible(w.robots[id], event)
    case Lose(p) => p in w.ctrl.robots ==> !InQueue(w.callbacks, w.ctrl.robots[p].id)
    case Register(id, connects, readLost, commitLost) =>
      && id < |w.robots|
      && (Accepted(w.ctrl, w.robots[id].position, connects) ==> Registrable(w.robots[id], readLost, commitLost))
    case _ => true
  }

  /** A registration from the position is accepted. */
  predicate Accepted(c: Ctrl, p: nat, connects: bool)
  {
    var c1 := EraseStale(RemoveStopped(c)); connects && !Swapping(c1.swaps, p) && p !in c1.robots
  }

  // ------------------------------------------------------------------ the invariant

  /** A robot that hangs in a reconfiguration. */
  predicate Hung(s: R.State)
  {
    s.fault == R.Deadlocked && s.mode.RECONFIGURING? && !s.available && Within(s, s.position)
  }

  ghost predicate BodyOk(s: R.State) { Inv(s) || Hung(s) }

  /** A registered robot that is not part of a swap: filed under its real position, and flagged exactly while it
      reconfigures or its new capabilities have not been handled. Only a robot whose commit call got lost still awaits a
      commit. */
  ghost predicate FreeOk(p: nat, r: Remote, s: R.State, queued: bool)
  {
    && BodyOk(s) && r.position == p == s.position
    && !LegOf(s).Heading? && (LegOf(s).Arrived? ==> r.stopped)
    && (LegOf(s).Refit? || r.caps != s.caps || queued ==> r.pending)
    && (r.pending && !r.stopped ==> LegOf(s).Refit? || r.caps != s.caps || queued)
    && (LegOf(s).Refit? ==> r.caps == s.caps != s.newCaps)
    && (r.caps != s.caps || queued ==> LegOf(s).Settled?)
    && (queued ==> r.caps == s.caps && !r.stopped)
  }

  /** A registered robot that swaps from `p` to `q`: travelling, there but not yet notified, or there and
      notified, in which case its acknowledgement is either queued or recorded. A robot whose connection
      was lost before it could be told to move has stayed, and counts as acknowledged. */
  ghost predicate EndOk(p: nat, q: nat, r: Remote, s: R.State, acked: bool, queued: bool)
  {
    && Inv(s) && r.pending && r.caps == s.caps && (queued ==> !r.stopped)
    && match LegOf(s)
       case Heading(g) => g == q && s.position == p == r.position && !acked && !queued
       case Arrived =>
         && s.position == q
         && ((r.position == p && !acked && !queued) || (r.position == q && (r.stopped || (acked <==> !queued))))
       case Settled => r.stopped && s.position == p == r.position && acked && !queued
       case _ => false
  }

  ghost predicate Ids(remotes: map<nat, Remote>, robots: seq<R.State>)
  {
    && Linked(remotes, robots)
    && (forall p, q :: p in remotes && q in remotes && remotes[p].id == remotes[q].id ==> p == q)
  }

  ghost predicate SideOk(remotes: map<nat, Remote>, k: Key, swap: Swap, robots: seq<R.State>, callbacks: seq<Callback>,
                         p: nat)
    requires Linked(remotes, robots)
  {
    if p in remotes
    then EndOk(p, Partner(k, p), remotes[p], robots[remotes[p].id], Acked(swap, k, p),
        InQueue(callbacks, remotes[p].id))
    else Acked(swap, k, p)
  }

  ghost predicate Ends(remotes: map<nat, Remote>, swaps: map<Key, Swap>, robots: seq<R.State>, callbacks: seq<Callback>)
    requires Linked(remotes, robots)
  {
    forall k, p :: k in swaps && Involves(k, p) ==> SideOk(remotes, k, swaps[k], robots, callbacks, p)
  }

  ghost predicate Frees(remotes: map<nat, Remote>, swaps: map<Key, Swap>, robots: seq<R.State>,
                        callbacks: seq<Callback>)
    requires Linked(remotes, robots)
  {
    forall p :: p in remotes && !Swapping(swaps, p) ==>
      FreeOk(p, remotes[p], robots[remotes[p].id], InQueue(callbacks, remotes[p].id))
  }

  ghost predicate CallbackOk(remotes: map<nat, Remote>, swaps: map<Key, Swap>, cb: Callback)
  {
    match cb
    case Swapped(id, from, to) => from in remotes && remotes[from].id == id && from != to && KeyOf(from, to) in swaps
    case Reconfigured(id, p) => p in remotes && remotes[p].id == id && !Swapping(swaps, p)
  }

  ghost predicate Queue(remotes: map<nat, Remote>, swaps: map<Key, Swap>, callbacks: seq<Callback>)
  {
    && (forall i :: 0 <= i < |callbacks| ==> CallbackOk(remotes, swaps, callbacks[i]))
    && (forall i, j :: 0 <= i < j < |callbacks| ==> callbacks[i].id != callbacks[j].id)
  }

  ghost predicate Bodies(robots: seq<R.State>)
  {
    && (forall i :: 0 <= i < |robots| ==> BodyOk(robots[i]))
    && (forall i, j :: 0 <= i < |robots| && 0 <= j < |robots| ==> robots[i].conveyorSize == robots[j].conveyorSize)
  }

  ghost predicate WorldInv(w: World)
  {
    && Ids(w.ctrl.robots, w.robots) && Bodies(w.robots) && Disjoint(w.ctrl.swaps)
    && Ends(w.ctrl.robots, w.ctrl.swaps, w.robots, w.callbacks)
    && Frees(w.ctrl.robots, w.ctrl.swaps, w.robots, w.callbacks)
    && Queue(w.ctrl.robots, w.ctrl.swaps, w.callbacks)
    && w.ctrl.registered == |w.ctrl.robots| % U32
  }
}
