/** Notifications of dishes that wait for their pickup: when they are good, when a dish is put on an occupied plate, and
    when a robot waits in vain. */
module PlantNotices {
  import opened Basics
  import R = Robot
  import RI = RobotInvariant
  import C = Conveyor
  import opened RobotFifo
  import opened Plant
  import opened PlantInvariant
  import opened PlantRuns
  import opened PlantTheorems

  // ------------------------------------------------------------------ queued and filed

  lemma QueuedAppend(notices: seq<Notice>, n: Notice)
    ensures forall i :: Queued(notices + [n], i) <==> Queued(notices, i) || i == n.robot
  {
    var more := notices + [n];
    forall i ensures Queued(more, i) <==> Queued(notices, i) || i == n.robot {
      if Queued(notices, i) {
        var j :| 0 <= j < |notices| && notices[j].robot == i;
        assert more[j].robot == i;
      }
      if i == n.robot { assert more[|notices|].robot == i; }
    }
  }

  lemma QueuedTail(notices: seq<Notice>)
    requires notices != []
    ensures forall i :: Queued(notices, i) <==> Queued(notices[1..], i) || i == notices[0].robot
  {
    forall i ensures Queued(notices, i) <==> Queued(notices[1..], i) || i == notices[0].robot {
      if Queued(notices[1..], i) {
        var j :| 0 <= j < |notices[1..]| && notices[1..][j].robot == i;
        assert notices[j + 1].robot == i;
      }
      if Queued(notices, i) && i != notices[0].robot {
        var j :| 0 <= j < |notices| && notices[j].robot == i;
        assert notices[1..][j - 1].robot == i;
      }
    }
  }

  lemma FiledAt(notified: set<nat>, notifier: map<nat, nat>)
    ensures forall n :: n in notified && n in notifier ==> Filed(notified, notifier, notifier[n])
  {
  }

  lemma QueuedFront(notices: seq<Notice>)
    ensures forall j :: 0 <= j < |notices| ==> Queued(notices, notices[j].robot)
  {
  }

  /** Filing one more notification adds its robot; the one that was filed there is gone, unless it is filed
      elsewhere. */
  lemma FiledMore(notified: set<nat>, notifier: map<nat, nat>, n: nat, i: nat, x: nat)
    ensures Filed(notified + {n}, notifier[n := i], x) <==> x == i || Filed(notified - {n}, notifier, x)
  {
    var notified', notifier' := notified + {n}, notifier[n := i];
    if x == i { assert n in notified' && notifier'[n] == i; }
    if Filed(notified - {n}, notifier, x) {
      var m :| m in notified - {n} && m in notifier && notifier[m] == x;
      assert m in notified' && notifier'[m] == x;
    }
    if Filed(notified', notifier', x) && x != i {
      var m :| m in notified' && m in notifier' && notifier'[m] == x;
      assert m in notified - {n} && notifier[m] == x;
    }
  }

  lemma FiledFewer(notified: set<nat>, notifier: map<nat, nat>, n: nat, x: nat)
    requires n in notified && n in notifier
    ensures Filed(notified, notifier, x) <==> Filed(notified - {n}, notifier, x) || x == notifier[n]
  {
    if Filed(notified, notifier, x) && x != notifier[n] {
      var m :| m in notified && m in notifier && notifier[m] == x;
      assert m in notified - {n};
    }
  }

  // ------------------------------------------------------------------ where the robots of notifications are

  /** Every robot the conveyor has a notification of is still where it sent it from. */
  predicate Placed(robots: seq<R.State>, notices: seq<Notice>, notified: set<nat>, notifier: map<nat, nat>)
  {
    && (forall j :: 0 <= j < |notices| && notices[j].robot < |robots| ==>
       robots[notices[j].robot].position == notices[j].position)
    && (forall n :: n in notified && n in notifier && notifier[n] < |robots| ==> robots[notifier[n]].position == n)
  }

  predicate AllPlaced(s: State) { Placed(s.robots, s.notices, s.belt.notified, s.notifier) }

  /** A robot moves although the conveyor has a notification of it. */
  predicate MovesKnown(s: State, e: Event)
  {
    e.Own? && e.robot < |s.robots| && Announced(s, e.robot) &&
        R.Step(s.robots[e.robot], e.event).position != s.robots[e.robot].position
  }

  /** Robots other than those named stand where they did. */
  lemma SamePlaces(robots: seq<R.State>, robots': seq<R.State>, notices: seq<Notice>, notified: set<nat>,
                   notifier: map<nat, nat>)
    requires Placed(robots, notices, notified, notifier) && |robots'| == |robots|
    requires forall i :: 0 <= i < |robots| && (Queued(notices, i) || Filed(notified, notifier, i)) ==>
             robots'[i].position == robots[i].position
    ensures Placed(robots', notices, notified, notifier)
  {
    QueuedFront(notices);
    FiledAt(notified, notifier);
    hide Queued, Filed;
  }

  lemma TaskPlace(r: R.State, recipe: nat, steps: nat, addressed: nat)
    ensures R.Step(r, R.ReceiveTaskEvent(recipe, steps, addressed)).position == r.position
  {
    TaskCallPickup(r, recipe, steps, addressed);
  }

  lemma HandoverPlace(r: R.State)
    ensures R.Step(r, R.HandoverEvent).position == r.position
  {
  }

  /** A robot's place changes only by its own steps. */
  lemma PlacesByOwnSteps(s: State, e: Event, i: nat)
    requires Inv(s) && Admissible(s, e) && Possible(s, e) && i < |s.robots| && !(e.Own? && e.robot == i)
    ensures |Next(s, e).robots| == |s.robots| && Next(s, e).robots[i].position == s.robots[i].position
  {
    RobotsRunOnTheirOwn(s, e, i);
    HandoverPlace(s.robots[i]);
    if RobotEvent(s, e, i).Some? && RobotEvent(s, e, i).value.ReceiveTaskEvent? {
      var t := RobotEvent(s, e, i).value;
      TaskPlace(s.robots[i], t.recipe, t.steps, t.addressed);
    }
    OnlyTheseEvents(s, e, i);
    hide Inv, R.Step, Admissible, Possible, Step, RobotEvent;
  }

  lemma OnlyTheseEvents(s: State, e: Event, i: nat)
    requires Possible(s, e) && i < |s.robots| && !(e.Own? && e.robot == i)
    ensures var event := RobotEvent(s, e, i); event.None? || event.value.HandoverEvent? || event.value.ReceiveTaskEvent?
  {
    hide Fetches;
  }

  /** The notifications after a step, and those filed. */
  function NoticesAfter(s: State, e: Event): seq<Notice>
    requires Possible(s, e)
  {
    match e
    case Own(i, event) =>
      var r, r' := s.robots[i], R.Step(s.robots[i], event);
      if !r.pickup && r'.pickup then s.notices + [Notice(i, r'.position)] else s.notices
    case Renotify(i) => if s.robots[i].pickup then s.notices + [Notice(i, s.robots[i].position)] else s.notices
    case HandleNotice(_) => s.notices[1..]
    case _ => s.notices
  }

  function NotifiedAfter(s: State, e: Event): set<nat>
    requires Possible(s, e)
  {
    match e
    case HandleNotice(connects) => if connects then s.belt.notified + {s.notices[0].position} else s.belt.notified
    case RetrieveFrom(n, _) => if Fetchable(s, n) then s.belt.notified - {n} else s.belt.notified
    case _ => s.belt.notified
  }

  function NotifierAfter(s: State, e: Event): map<nat, nat>
    requires Possible(s, e)
  {
    match e
    case HandleNotice(connects) => if connects then s.notifier[s.notices[0].position := s.notices[0].robot]
      else s.notifier
    case _ => s.notifier
  }

  lemma NoticesFollow(s: State, e: Event)
    requires Possible(s, e)
    ensures var s' := Step(s, e);
            s'.notices == NoticesAfter(s, e) && s'.belt.notified == NotifiedAfter(s, e) &&
                s'.notifier == NotifierAfter(s, e)
  {
    BeltSteps(s, e);
    hide R.Step, C.HandleNextRobot, HandleTimer, HandleFinish, HandleReconnect, HandleDeliverFrom, HandleRetrieveFrom,
         Takes, Fetchable;
    match e
    case TimerFires => TimerNotices(s);
    case RetrieveFrom(n, callee) => RetrievalNotices(s, n, callee);
    case DeliverFrom(k, callee, kitchen) => DeliveredOutside(s, k, callee, kitchen);
    case Finish(env) => FinishNotices(s, env);
    case Reconnect(env) => FinishNotices(s, env);
    case NextRobot(position, known, recipe) => AnswerFrame(s.belt, position, known, recipe);
    case _ =>
  }

  lemma TimerNotices(s: State)
    requires s.belt.plates != []
    ensures var s' := HandleTimer(s);
            s'.notices == s.notices && s'.belt.notified == s.belt.notified && s'.notifier == s.notifier
  {
    hide C.IndexAfter;
  }

  lemma RetrievalNotices(s: State, n: nat, callee: Option<nat>)
    requires Possible(s, RetrieveFrom(n, callee))
    ensures var s' := HandleRetrieveFrom(s, n, callee);
            && s'.notices == s.notices && s'.notifier == s.notifier
            && s'.belt.notified == if Fetchable(s, n) then s.belt.notified - {n} else s.belt.notified
  {
    hide R.Step, R.HandoverReply, Overwritten;
    if Fetchable(s, n) {
      RetrievedPlate(s.belt, n, None);
      if Fetches(s, n, callee) {
        ReplyOnBelt(s, n, callee);
        RetrievedPlate(s.belt, n, Some(R.HandoverReply(s.robots[callee.value])));
      }
    }
    hide C.Retrieve;
  }

  lemma ReplyOnBelt(s: State, n: nat, callee: Option<nat>)
    requires Possible(s, RetrieveFrom(n, callee)) && Fetches(s, n, callee)
    ensures C.FromBelt(s.belt, n, Some(R.HandoverReply(s.robots[callee.value])))
  {
    hide R.HandoverReply;
  }

  lemma FinishNotices(s: State, env: C.Env)
    ensures var s' := HandleFinish(s, env);
            s'.notices == s.notices && s'.belt.notified == s.belt.notified && s'.notifier == s.notifier
    ensures var s' := HandleReconnect(s, env);
            s'.notices == s.notices && s'.belt.notified == s.belt.notified && s'.notifier == s.notifier
  {
    RequestsFrame(s.belt, env);
    RequestsFrame(s.belt.(queue := []), env);
    hide C.RequestNextRobots;
  }

  lemma SameCount(s: State, e: Event)
    requires Possible(s, e)
    ensures |Step(s, e).robots| == |s.robots|
  {
    if s.robots == [] { NoRobots(s, e); } else { RobotsFollow(s, e, 0); }
    hide Step, Possible, RobotEvent;
  }

  lemma AnnouncedStay(s: State, e: Event, i: nat)
    requires Inv(s) && Admissible(s, e) && !MovesKnown(s, e) && i < |s.robots| && Announced(s, i)
    ensures i < |Next(s, e).robots| && Next(s, e).robots[i].position == s.robots[i].position
  {
    InvPossible(s, e);
    if e.Own? && e.robot == i { OwnResult(s, e); } else { PlacesByOwnSteps(s, e, i); }
    hide Inv, R.Step, Admissible, Possible, Step, RobotEvent;
  }

  lemma OwnResult(s: State, e: Event)
    requires Possible(s, e) && e.Own?
    ensures Step(s, e).robots == s.robots[e.robot := R.Step(s.robots[e.robot], e.event)]
  {
    hide R.Step;
  }

  lemma RenotifyResult(s: State, e: Event)
    requires Possible(s, e) && e.Renotify?
    ensures Step(s, e).robots == s.robots
  {
  }

  lemma PlacedKeeps(s: State, e: Event)
    requires Inv(s) && Admissible(s, e) && AllPlaced(s) && !MovesKnown(s, e)
    ensures AllPlaced(Next(s, e))
  {
    InvPossible(s, e);
    NoticesFollow(s, e);
    SameCount(s, e);
    var s' := Next(s, e);
    if e.Own? { OwnResult(s, e); }
    if e.Renotify? { RenotifyResult(s, e); }
    forall i | 0 <= i < |s.robots| && Announced(s, i) ensures i < |s'.robots| &&
        s'.robots[i].position == s.robots[i].position {
      AnnouncedStay(s, e, i);
    }
    assert e.Own? || e.Renotify? ==> e.robot < |s.robots|;
    hide Inv, R.Step, Admissible, Possible, Step, RobotEvent, MovesKnown, NoticesAfter, NotifiedAfter, NotifierAfter,
         Placed, Queued, Filed;
    SamePlaces(s.robots, s'.robots, s.notices, s.belt.notified, s.notifier);
    PlacedAfter(s, e, s'.robots);
  }

  lemma NoRobots(s: State, e: Event)
    requires Possible(s, e) && s.robots == []
    ensures Step(s, e).robots == []
  {
    hide C.HandleNextRobot, C.RequestNextRobots, C.Moved, C.HandleNotification, DeliverOne, Answer, C.Leaves;
  }

  lemma PlacedAfter(s: State, e: Event, robots: seq<R.State>)
    requires Possible(s, e) && Placed(robots, s.notices, s.belt.notified, s.notifier) && |robots| == |s.robots|
    requires e.Own? ==> robots[e.robot] == R.Step(s.robots[e.robot], e.event)
    requires e.Renotify? ==> robots[e.robot].position == s.robots[e.robot].position
    ensures Placed(robots, NoticesAfter(s, e), NotifiedAfter(s, e), NotifierAfter(s, e))
  {
    hide R.Step, Fetchable, R.HandoverReply;
    if e.HandleNotice? {
      forall j | 0 <= j < |s.notices[1..]| ensures s.notices[1..][j] == s.notices[j + 1] {}
    }
  }

  /** The conveyor asks nobody but the robot that sent the notification: the robot filed at the position is that one. */
  predicate CallsNotifier(s: State, e: Event)
  {
    e.RetrieveFrom? && e.callee.Some? ==> e.position in s.notifier && s.notifier[e.position] == e.callee.value
  }

  /** While every robot is where it was notified from, a dish is only put on a free plate. */
  lemma FreePlateWhilePlaced(s: State, n: nat, callee: Option<nat>)
    requires Inv(s) && s.work.Retrieving? && n in s.work.todo && AllPlaced(s)
    requires CallsNotifier(s, RetrieveFrom(n, callee))
    ensures !Overwrites(s, n, callee)
  {
    NotifiedAt(s, n);
    if Reached(s, callee) { RobotAtBelt(s, callee.value); }
    hide Inv, R.HandoverReply;
  }

  ghost predicate NobodyKnownMoves(s: State, events: seq<Event>)
    requires Inv(s) && AllAdmissible(s, events)
    decreases |events|
  {
    events == [] || (!MovesKnown(s, events[0]) && NobodyKnownMoves(Next(s, events[0]), events[1..]))
  }

  ghost predicate AllCallNotifier(s: State, events: seq<Event>)
    requires Inv(s) && AllAdmissible(s, events)
    decreases |events|
  {
    events == [] || (CallsNotifier(s, events[0]) && AllCallNotifier(Next(s, events[0]), events[1..]))
  }

  /** As long as no robot moves of which the conveyor has a notification, and the conveyor asks the robots that have
      sent them, no dish is put on an occupied plate. */
  lemma {:induction false} NothingOverwritten(s: State, events: seq<Event>)
    requires Inv(s) && AllAdmissible(s, events) && AllPlaced(s) && NobodyKnownMoves(s, events)
    requires AllCallNotifier(s, events)
    ensures !RunOverwrites(s, events)
    decreases |events|
  {
    if events != [] {
      PlacedKeeps(s, events[0]);
      if events[0].RetrieveFrom? { FreePlateWhilePlaced(s, events[0].position, events[0].callee); }
      hide Inv, Step, AllPlaced, MovesKnown, Overwrites, CallsNotifier;
      NothingOverwritten(Next(s, events[0]), events[1..]);
    }
  }

  // ------------------------------------------------------------------ pickups

  lemma HandoverClears(r: R.State)
    requires r.fault.NoFault?
    ensures !R.Step(r, R.HandoverEvent).pickup
  {
  }

  /** When a dish starts or stops to wait for its pickup. */
  lemma PickupFollows(s: State, e: Event, i: nat)
    requires Inv(s) && Admissible(s, e) && Possible(s, e) && i < |s.robots|
    ensures i < |Next(s, e).robots|
    ensures var now := Next(s, e).robots[i].pickup;
            if e.Own? && e.robot == i then now == R.Step(s.robots[i], e.event).pickup && (s.robots[i].pickup ==> now)
            else if Asked(s, e, i) then !now
            else now == s.robots[i].pickup
  {
    SameCount(s, e);
    RobotsFollow(s, e, i);
    hide Inv, R.Step, Admissible, Possible, Step, Asked;
    if e.Own? && e.robot == i {
      OwnEvent(s, e);
      if s.robots[i].pickup { OwnPickup(s, i, e.event); }
    } else if Asked(s, e, i) {
      FetchEvent(s, e, i);
      HandoverClears(s.robots[i]);
    } else {
      NoFetch(s, e, i);
      if RobotEvent(s, e, i).Some? {
        var t := RobotEvent(s, e, i).value;
        TaskCallPickup(s.robots[i], t.recipe, t.steps, t.addressed);
      }
    }
  }

  lemma OwnEvent(s: State, e: Event)
    requires Possible(s, e) && e.Own?
    ensures RobotEvent(s, e, e.robot) == Some(e.event)
  {
  }

  lemma FetchEvent(s: State, e: Event, i: nat)
    requires Possible(s, e) && Asked(s, e, i)
    ensures RobotEvent(s, e, i) == Some(R.HandoverEvent) && s.robots[i].fault.NoFault?
  {
    hide R.HandoverReply;
  }

  lemma NoFetch(s: State, e: Event, i: nat)
    requires Possible(s, e) && i < |s.robots| && !(e.Own? && e.robot == i)
    requires !Asked(s, e, i)
    ensures var event := RobotEvent(s, e, i); event.None? || event.value.ReceiveTaskEvent?
  {
    hide Fetches, R.HandoverReply;
  }

  lemma OwnPickup(s: State, i: nat, event: R.Event)
    requires Inv(s) && Admissible(s, Own(i, event)) && s.robots[i].pickup
    ensures R.Step(s.robots[i], event).pickup && R.Step(s.robots[i], event).position == s.robots[i].position
  {
    OneRobot(s, i);
    var r := s.robots[i];
    hide Inv, RI.Inv, R.Step, R.Admissible;
    if r.fault == R.Deadlocked { Hangs(r, event); } else { PickupStays(r, event); }
  }

  // ------------------------------------------------------------------ as long as no notification is repeated

  /** No robot is named twice, and every robot that is named has a dish that waits. */
  predicate Fresh(robots: seq<R.State>, notices: seq<Notice>, notified: set<nat>, notifier: map<nat, nat>)
  {
    && (forall i :: 0 <= i < |robots| && (Queued(notices, i) || Filed(notified, notifier, i)) ==> robots[i].pickup)
    && (forall j, k :: 0 <= j < k < |notices| ==> notices[j].robot != notices[k].robot)
    && (forall j :: 0 <= j < |notices| ==> !Filed(notified, notifier, notices[j].robot))
    && (forall m, n ::
       m in notified && m in notifier && n in notified && n in notifier && notifier[m] == notifier[n] ==> m == n)
  }

  predicate AllFresh(s: State) { Fresh(s.robots, s.notices, s.belt.notified, s.notifier) }

  lemma FreshTail(notices: seq<Notice>)
    requires notices != [] && forall j, k :: 0 <= j < k < |notices| ==> notices[j].robot != notices[k].robot
    ensures !Queued(notices[1..], notices[0].robot)
    ensures forall j, k :: 0 <= j < k < |notices[1..]| ==> notices[1..][j].robot != notices[1..][k].robot
  {
    forall j | 0 <= j < |notices[1..]| ensures notices[1..][j].robot != notices[0].robot {
      assert notices[1..][j] == notices[j + 1];
    }
    forall j, k | 0 <= j < k < |notices[1..]| ensures notices[1..][j].robot != notices[1..][k].robot {
      assert notices[1..][j] == notices[j + 1] && notices[1..][k] == notices[k + 1];
    }
  }

  lemma FreshFiled(robots: seq<R.State>, notices: seq<Notice>, notified: set<nat>, notifier: map<nat, nat>)
    requires Fresh(robots, notices, notified, notifier) && notices != []
    ensures Fresh(robots, notices[1..], notified, notifier)
    ensures var i, n := notices[0].robot, notices[0].position;
            Fresh(robots, notices[1..], notified + {n}, notifier[n := i])
  {
    var i, n := notices[0].robot, notices[0].position;
    FreshTail(notices);
    QueuedTail(notices);
    QueuedFront(notices);
    QueuedFront(notices[1..]);
    FiledAt(notified, notifier);
    forall x ensures Filed(notified + {n}, notifier[n := i], x) ==> x == i || Filed(notified, notifier, x) {
      FiledMore(notified, notifier, n, i, x);
      if Filed(notified - {n}, notifier, x) { FiledSubset(notified - {n}, notified, notifier, x); }
    }
    hide Queued, Filed;
    forall j | 0 <= j < |notices[1..]| ensures notices[1..][j] == notices[j + 1] {}
  }

  lemma FiledSubset(a: set<nat>, b: set<nat>, notifier: map<nat, nat>, x: nat)
    requires a <= b && Filed(a, notifier, x)
    ensures Filed(b, notifier, x)
  {
  }

  lemma FreshFetched(robots: seq<R.State>, notices: seq<Notice>, notified: set<nat>, notifier: map<nat, nat>, n: nat)
    requires Fresh(robots, notices, notified, notifier) && n in notified && n in notifier
    ensures Fresh(robots, notices, notified - {n}, notifier)
    ensures !Queued(notices, notifier[n]) && !Filed(notified - {n}, notifier, notifier[n])
  {
    FiledAt(notified, notifier);
    assert Filed(notified, notifier, notifier[n]);
    assert !Queued(notices, notifier[n]);
    forall x ensures Filed(notified - {n}, notifier, x) ==> Filed(notified, notifier, x) {
      if Filed(notified - {n}, notifier, x) { FiledSubset(notified - {n}, notified, notifier, x); }
    }
    hide Queued;
  }

  lemma FreshAppended(robots: seq<R.State>, notices: seq<Notice>, notified: set<nat>, notifier: map<nat, nat>,
                      n: Notice)
    requires Fresh(robots, notices, notified, notifier) && n.robot < |robots| && robots[n.robot].pickup
    requires !Queued(notices, n.robot) && !Filed(notified, notifier, n.robot)
    ensures Fresh(robots, notices + [n], notified, notifier)
  {
    QueuedAppend(notices, n);
    QueuedFront(notices);
    hide Queued, Filed;
  }

  /** Robots that are named keep their pickups. */
  lemma SamePickups(robots: seq<R.State>, robots': seq<R.State>, notices: seq<Notice>, notified: set<nat>,
                    notifier: map<nat, nat>)
    requires Fresh(robots, notices, notified, notifier) && |robots'| == |robots|
    requires forall i :: 0 <= i < |robots| && (Queued(notices, i) || Filed(notified, notifier, i)) ==> robots'[i].pickup
    ensures Fresh(robots', notices, notified, notifier)
  {
    hide Queued, Filed;
  }

  lemma OwnFresh(s: State, e: Event)
    requires Inv(s) && Admissible(s, e) && AllFresh(s) && e.Own? && Possible(s, e)
    ensures Fresh(s.robots[e.robot := R.Step(s.robots[e.robot], e.event)], NoticesAfter(s, e), s.belt.notified,
            s.notifier)
  {
    var i, r' := e.robot, R.Step(s.robots[e.robot], e.event);
    if s.robots[i].pickup { OwnPickup(s, i, e.event); }
    var robots := s.robots[i := r'];
    hide Inv, R.Step, Admissible;
    if Queued(s.notices, i) || Filed(s.belt.notified, s.notifier, i) { assert s.robots[i].pickup; }
    SamePickups(s.robots, robots, s.notices, s.belt.notified, s.notifier);
    if !s.robots[i].pickup && r'.pickup {
      FreshAppended(robots, s.notices, s.belt.notified, s.notifier, Notice(i, r'.position));
    }
    hide Fresh, Queued, Filed;
  }

  lemma FreshKeeps(s: State, e: Event)
    requires Inv(s) && Admissible(s, e) && AllFresh(s) && !e.Renotify? && CallsNotifier(s, e)
    ensures AllFresh(Next(s, e))
  {
    InvPossible(s, e);
    NoticesFollow(s, e);
    SameCount(s, e);
    var s' := Next(s, e);
    if e.Own? {
      OwnResult(s, e);
      OwnFresh(s, e);
    } else {
      OtherFresh(s, e);
      forall i | 0 <= i < |s.robots| &&
          (Queued(NoticesAfter(s, e), i) || Filed(NotifiedAfter(s, e), NotifierAfter(s, e), i))
        ensures s'.robots[i].pickup
      {
        OtherPickup(s, e, i);
      }
      hide Inv, Admissible, Possible, Step, NoticesAfter, NotifiedAfter, NotifierAfter, Queued, Filed;
      SamePickups(s.robots, s'.robots, s'.notices, s'.belt.notified, s'.notifier);
    }
    hide Inv, Admissible, Possible, Step, Fresh;
  }

  lemma OtherFresh(s: State, e: Event)
    requires Inv(s) && Admissible(s, e) && Possible(s, e) && AllFresh(s) && !e.Renotify? && !e.Own?
    ensures Fresh(s.robots, NoticesAfter(s, e), NotifiedAfter(s, e), NotifierAfter(s, e))
  {
    if e.RetrieveFrom? { NotifiedAt(s, e.position); }
    hide Inv, Admissible, R.HandoverReply;
    if e.HandleNotice? { FreshFiled(s.robots, s.notices, s.belt.notified, s.notifier); }
    if e.RetrieveFrom? { FreshFetched(s.robots, s.notices, s.belt.notified, s.notifier, e.position); }
    hide Fresh, Fetchable;
  }

  lemma OtherPickup(s: State, e: Event, i: nat)
    requires Inv(s) && Admissible(s, e) && Possible(s, e) && AllFresh(s) && !e.Renotify? && !e.Own? && i < |s.robots|
    requires CallsNotifier(s, e)
    requires Queued(NoticesAfter(s, e), i) || Filed(NotifiedAfter(s, e), NotifierAfter(s, e), i)
    ensures i < |Next(s, e).robots| && Next(s, e).robots[i].pickup
  {
    PickupFollows(s, e, i);
    OtherFresh(s, e);
    assert s.robots[i].pickup;
    if Asked(s, e, i) {
      NotifiedAt(s, e.position);
      FreshFetched(s.robots, s.notices, s.belt.notified, s.notifier, e.position);
    }
    hide Inv, Admissible, Step, R.HandoverReply, Queued, Filed, Fresh;
  }

  /** A robot of which the conveyor has a notification does not move. */
  lemma NobodyMoves(s: State, e: Event)
    requires Inv(s) && Admissible(s, e) && AllFresh(s)
    ensures !MovesKnown(s, e)
  {
    if MovesKnown(s, e) {
      assert s.robots[e.robot].pickup;
      OwnPickup(s, e.robot, e.event);
    }
    hide Inv, Admissible, R.Step;
  }

  ghost predicate NoRenotification(events: seq<Event>) { forall k :: 0 <= k < |events| ==> !events[k].Renotify? }

  lemma {:induction false} NobodyKnownMovesThen(s: State, events: seq<Event>)
    requires Inv(s) && AllAdmissible(s, events) && AllFresh(s) && NoRenotification(events) && AllCallNotifier(s, events)
    ensures NobodyKnownMoves(s, events)
    decreases |events|
  {
    if events != [] {
      NobodyMoves(s, events[0]);
      FreshKeeps(s, events[0]);
      assert forall k :: 0 <= k < |events[1..]| ==> events[1..][k] == events[k + 1];
      hide Inv, Step, AllFresh, MovesKnown, Admissible, CallsNotifier;
      NobodyKnownMovesThen(Next(s, events[0]), events[1..]);
    }
  }

  /** On every run from an empty plant on which no robot has to repeat a notification, and the conveyor asks the
      robots that have sent them, dishes are conserved. */
  lemma ConservedWithoutRenotification(book: R.RecipeBook, n: nat, robots: seq<R.State>, events: seq<Event>)
    requires RI.WellFormed(book) && n > 0 && Started(book, n, robots)
    requires Inv(Initial(book, n, robots)) && AllAdmissible(Initial(book, n, robots), events)
    requires NoRenotification(events)
    requires AllCallNotifier(Initial(book, n, robots), events)
    ensures var s := Run(Initial(book, n, robots), events);
            s.assignedDishes == AtRobots(s.robots) + OnPlates(s.belt.plates) + s.completedDishes
  {
    var s0 := Initial(book, n, robots);
    assert s0.notices == [] && s0.belt.notified == {} && s0.notifier == map[];
    assert AllFresh(s0) && AllPlaced(s0);
    hide Inv, AtRobots, OnPlates, AllAdmissible, Run, RunOverwrites, NobodyKnownMoves, AllCallNotifier, AllFresh,
         AllPlaced;
    NobodyKnownMovesThen(s0, events);
    NothingOverwritten(s0, events);
    DishesAreConserved(book, n, robots, events);
  }

  // ------------------------------------------------------------------ robots that wait in vain

  /** The last notification of a robot whose dish waits comes to nothing: the conveyor cannot connect to the robot,
      another robot's notification from the same position takes its place, or the call that should fetch the dish
      fails or reaches another robot. */
  predicate Strands(s: State, e: Event, i: nat)
    requires Possible(s, e) && i < |s.robots|
  {
    && s.robots[i].pickup
    && match e
       case HandleNotice(connects) =>
         var n := s.notices[0].position;
         && !Queued(s.notices[1..], i)
         && (if connects
             then s.notices[0].robot != i && n in s.belt.notified && n in s.notifier && s.notifier[n] == i
                  && !Filed(s.belt.notified - {n}, s.notifier, i)
             else s.notices[0].robot == i && !Filed(s.belt.notified, s.notifier, i))
       case RetrieveFrom(n, _) =>
         && Fetchable(s, n) && n in s.notifier && s.notifier[n] == i && !Asked(s, e, i)
         && !Queued(s.notices, i) && !Filed(s.belt.notified - {n}, s.notifier, i)
       case _ => false
  }

  /** Whether the conveyor has a notification of the robot after a step. */
  predicate AnnouncedAfter(s: State, e: Event, i: nat)
    requires Possible(s, e)
  {
    Queued(NoticesAfter(s, e), i) || Filed(NotifiedAfter(s, e), NotifierAfter(s, e), i)
  }

  lemma NoticeStrands(s: State, e: Event, i: nat)
    requires Possible(s, e) && e.HandleNotice? && i < |s.robots| && s.robots[i].pickup
    ensures Announced(s, i) && !AnnouncedAfter(s, e, i) <==> Strands(s, e, i)
    ensures !Announced(s, i) ==> !AnnouncedAfter(s, e, i)
  {
    var n := s.notices[0].position;
    QueuedTail(s.notices);
    FiledMore(s.belt.notified, s.notifier, n, s.notices[0].robot, i);
    if n in s.belt.notified && n in s.notifier {
      FiledFewer(s.belt.notified, s.notifier, n, i);
    } else {
      FiledWithout(s.belt.notified, s.notifier, n, i);
    }
    hide Queued, Filed;
  }

  lemma FiledWithout(notified: set<nat>, notifier: map<nat, nat>, n: nat, x: nat)
    requires n !in notified || n !in notifier
    ensures Filed(notified, notifier, x) <==> Filed(notified - {n}, notifier, x)
  {
    if Filed(notified, notifier, x) {
      var m :| m in notified && m in notifier && notifier[m] == x;
      assert m in notified - {n};
    }
  }

  lemma RetrievalStrands(s: State, e: Event, i: nat)
    requires Possible(s, e) && e.RetrieveFrom? && i < |s.robots| && s.robots[i].pickup
    requires !Asked(s, e, i)
    ensures Announced(s, i) && !AnnouncedAfter(s, e, i) <==> Strands(s, e, i)
    ensures !Announced(s, i) ==> !AnnouncedAfter(s, e, i)
  {
    hide R.HandoverReply, Queued, Filed, Asked;
    if e.position in s.notifier {
      if Fetchable(s, e.position) { FiledFewer(s.belt.notified, s.notifier, e.position, i); }
    } else {
      FiledWithout(s.belt.notified, s.notifier, e.position, i);
    }
  }

  lemma OthersStrandNobody(s: State, e: Event, i: nat)
    requires Possible(s, e) && !e.HandleNotice? && !e.RetrieveFrom? && i < |s.robots|
    ensures Announced(s, i) ==> AnnouncedAfter(s, e, i)
    ensures !Announced(s, i) && AnnouncedAfter(s, e, i) ==>
            (e.Own? && e.robot == i && !s.robots[i].pickup) || e == Renotify(i)
    ensures e == Renotify(i) && s.robots[i].pickup ==> AnnouncedAfter(s, e, i)
    ensures e.Own? && e.robot == i && !s.robots[i].pickup && R.Step(s.robots[i], e.event).pickup ==>
            AnnouncedAfter(s, e, i)
  {
    hide R.Step, Filed;
    match e
    case Own(j, event) => QueuedAppend(s.notices, Notice(j, R.Step(s.robots[j], event).position));
    case Renotify(j) => QueuedAppend(s.notices, Notice(j, s.robots[j].position));
    case _ =>
    hide Queued;
  }

  /** A robot that waits in vain has found the conveyor again, or is asked on another robot's notification. */
  predicate Recovers(s: State, e: Event, i: nat) { e == Renotify(i) || Asked(s, e, i) }

  /** When a robot starts to wait in vain, and when it stops. */
  lemma StrandsExactly(s: State, e: Event, i: nat)
    requires Inv(s) && Admissible(s, e) && i < |s.robots| && Possible(s, e)
    ensures Stranded(Next(s, e), i) <==> Strands(s, e, i) || (Stranded(s, i) && !Recovers(s, e, i))
    ensures Stranded(s, i) ==> !Strands(s, e, i)
  {
    NoticesFollow(s, e);
    PickupFollows(s, e, i);
    SameCount(s, e);
    AnnouncedNext(s, e, i);
    if e.HandleNotice? {
      if s.robots[i].pickup { NoticeStrands(s, e, i); }
    } else if e.RetrieveFrom? {
      if s.robots[i].pickup && !Asked(s, e, i) { RetrievalStrands(s, e, i); }
    } else {
      OthersStrandNobody(s, e, i);
    }
    hide Inv, Admissible, Step, R.Step, Queued, Filed, R.HandoverReply, AnnouncedAfter, Announced, Fetches;
  }

  lemma AnnouncedNext(s: State, e: Event, i: nat)
    requires Possible(s, e)
    ensures Announced(Step(s, e), i) <==> AnnouncedAfter(s, e, i)
  {
    NoticesFollow(s, e);
    hide Step, NoticesAfter, NotifiedAfter, NotifierAfter, Queued, Filed;
  }

  /** In the run the robot has found the conveyor again, or has been asked on another robot's notification. */
  ghost predicate Recovered(s: State, events: seq<Event>, i: nat)
    requires Inv(s) && AllAdmissible(s, events)
    decreases |events|
  {
    events != [] && (Recovers(s, events[0], i) || Recovered(Next(s, events[0]), events[1..], i))
  }

  /** Some step of the run strands the robot, and it does not recover afterwards. */
  ghost predicate StrandedBy(s: State, events: seq<Event>, i: nat)
    requires Inv(s) && AllAdmissible(s, events) && i < |s.robots|
    decreases |events|
  {
    events != [] &&
    (InvPossible(s, events[0]); SameCount(s, events[0]);
     (Strands(s, events[0], i) && !Recovered(Next(s, events[0]), events[1..], i))
     || StrandedBy(Next(s, events[0]), events[1..], i))
  }

  /** On every run: a robot waits in vain at the end if and only if its last notification came to nothing, by a failed
      connection, a failed call, or another robot in its place, and it has not recovered since. */
  lemma {:induction false} StrandedExactly(s: State, events: seq<Event>, i: nat)
    requires Inv(s) && AllAdmissible(s, events) && i < |s.robots|
    ensures Stranded(Run(s, events), i) <==> StrandedBy(s, events, i) || (Stranded(s, i) && !Recovered(s, events, i))
    decreases |events|
  {
    if events != [] {
      InvPossible(s, events[0]);
      SameCount(s, events[0]);
      StrandsExactly(s, events[0], i);
      hide Inv, Step, Admissible, Possible, Strands, Stranded, Recovers;
      StrandedExactly(Next(s, events[0]), events[1..], i);
    }
  }

  lemma StrandedStep(s: State, e: Event, i: nat)
    requires Inv(s) && Admissible(s, e) && Stranded(s, i) && !Recovers(s, e, i)
    ensures i < |Next(s, e).robots| && Stranded(Next(s, e), i) && Backlog(s.robots[i]) <= Backlog(Next(s, e).robots[i])
  {
    InvPossible(s, e);
    SameCount(s, e);
    StrandsExactly(s, e, i);
    RobotsRunOnTheirOwn(s, e, i);
    NotAsked(s, e, i);
    OneRobot(s, i);
    hide Inv, Backlog, R.Step, RobotOk, Admissible, Possible, Step, Stranded, RobotEvent;
    match RobotEvent(s, e, i)
    case Some(event) => BacklogGrows(s.recipes, |s.belt.plates|, s.robots[i], event);
    case None =>
  }

  lemma NotAsked(s: State, e: Event, i: nat)
    requires Admissible(s, e) && Stranded(s, i) && Possible(s, e) && !Asked(s, e, i)
    ensures RobotEvent(s, e, i) != Some(R.HandoverEvent)
  {
    hide Queued, Filed, R.HandoverReply;
  }

  /** Until it recovers, a stranded robot keeps every dish it has. */
  lemma {:induction false} StrandedKeepsDishes(s: State, events: seq<Event>, i: nat)
    requires Inv(s) && AllAdmissible(s, events) && Stranded(s, i) && !Recovered(s, events, i)
    ensures var s' := Run(s, events);
            i < |s'.robots| && Stranded(s', i) && Backlog(s.robots[i]) <= Backlog(s'.robots[i])
    decreases |events|
  {
    hide Inv, Backlog, Admissible, Possible, Step, Announced, Recovers;
    if events != [] {
      StrandedStep(s, events[0], i);
      StrandedKeepsDishes(Next(s, events[0]), events[1..], i);
    }
  }

  // ------------------------------------------------------------------ robots at different positions

  /** Robots whose dishes wait are at different positions. */
  predicate PickupsApart(robots: seq<R.State>)
  {
    forall i, j :: 0 <= i < j < |robots| && robots[i].pickup && robots[j].pickup ==>
        robots[i].position != robots[j].position
  }

  /** Then no notification is lost to another robot's: only failures strand a robot. */
  lemma OnlyFailuresStrand(s: State, e: Event, i: nat)
    requires Possible(s, e) && i < |s.robots| && AllPlaced(s) && AllFresh(s) && PickupsApart(s.robots)
    requires forall j :: 0 <= j < |s.notices| ==> s.notices[j].robot < |s.robots|
    requires Strands(s, e, i) && CallsNotifier(s, e)
    ensures (e.HandleNotice? && !e.connects) || (e.RetrieveFrom? && (e.callee.None? || !s.robots[i].fault.NoFault?))
  {
    if e.HandleNotice? {
      var j, n := s.notices[0].robot, s.notices[0].position;
      QueuedFront(s.notices);
      assert s.robots[j].pickup && s.robots[j].position == n;
      assert n in s.belt.notified && n in s.notifier && s.notifier[n] == i ==> s.robots[i].position == n;
    }
    hide Queued, Filed, R.HandoverReply;
  }
}
