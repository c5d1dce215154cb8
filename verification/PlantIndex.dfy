/** The plant with the conveyor's own index of robots: whom it asks for a dish is whoever is filed at the position. */
module PlantIndex {
  import opened Basics
  import R = Robot
  import RI = RobotInvariant
  import I = RobotIndex
  import P = Plant
  import opened PlantInvariant
  import opened PlantRuns
  import opened PlantNotices

  datatype Joint = Joint(plant: P.State, index: I.Index)

  datatype JointEvent =
    | Happens(event: P.Event)
    | Reports(from: nat, to: nat)                       // a robot's report that it has moved is handled
    | Learns(at: nat, robot: nat, connects: bool)       // the controller's answer names a robot
    | Forgets(lost: set<nat>)                           // connections are lost

  function Places(robots: seq<R.State>): nat -> nat { (i: nat) => if i < |robots| then robots[i].position else 0 }

  function Forgotten(index: I.Index, lost: set<nat>): I.Index
  {
    map p | p in index && !(index[p].Some? && index[p].value in lost) :: index[p]
  }

  function IndexAfter(j: Joint, x: JointEvent): I.Index
  {
    match x
    case Happens(e) =>
      if e.HandleNotice? && j.plant.notices != []
      then I.FileEntry(j.index, j.plant.notices[0].position, j.plant.notices[0].robot, e.connects) else j.index
    case Reports(from, to) => I.Resync(j.index, Places(j.plant.robots), from, to)
    case Learns(at, robot, connects) => I.FileEntry(j.index, at, robot, connects)
    case Forgets(lost) => Forgotten(j.index, lost)
  }

  /** The robot whose notification from the position is filed. */
  predicate Waits(s: P.State, n: nat, i: nat) { n in s.belt.notified && n in s.notifier && s.notifier[n] == i }

  /** The conveyor asks whoever it has filed, or its call fails. No answer names another robot at a position from which
      a notification is filed, and connections to waiting robots last. */
  predicate IndexAdmissible(j: Joint, x: JointEvent)
  {
    match x
    case Happens(e) =>
      && P.Admissible(j.plant, e) && !e.Renotify?
      && (e.RetrieveFrom? ==> e.callee.None? || e.callee == I.Entry(j.index, e.position))
    case Reports(_, _) => true
    case Learns(at, robot, _) => at in j.plant.belt.notified && at in j.plant.notifier ==> Waits(j.plant, at, robot)
    case Forgets(lost) =>
      forall n :: n in j.plant.belt.notified && n in j.plant.notifier ==> j.plant.notifier[n] !in lost
  }

  /** No notification is handled while another robot's is filed at the same position. */
  predicate NoticeFits(s: P.State, x: JointEvent)
  {
    x.Happens? && x.event.HandleNotice? && s.notices != [] ==>
      var n := s.notices[0];
      n.position in s.belt.notified && n.position in s.notifier ==> Waits(s, n.position, n.robot)
  }

  predicate JointAdmissible(j: Joint, x: JointEvent) { IndexAdmissible(j, x) && NoticeFits(j.plant, x) }

  ghost function JointNext(j: Joint, x: JointEvent): Joint
    requires Inv(j.plant) && IndexAdmissible(j, x)
  {
    Joint(if x.Happens? then Next(j.plant, x.event) else j.plant, IndexAfter(j, x))
  }

  /** Whoever has notified from a position is filed there. */
  ghost predicate Agrees(s: P.State, index: I.Index) { AllFiled(s.belt.notified, s.notifier, index) }

  ghost predicate AllFiled(notified: set<nat>, notifier: map<nat, nat>, index: I.Index)
  {
    forall n :: n in notified && n in notifier ==> I.Entry(index, n) == Some(notifier[n])
  }

  ghost predicate JointInv(j: Joint)
  {
    Inv(j.plant) && AllPlaced(j.plant) && AllFresh(j.plant) && Agrees(j.plant, j.index)
  }

  // ------------------------------------------------------------------ an entry that was filed stays

  /** A robot that is where it is filed stays filed there, whatever report is handled. */
  lemma FiledStays(index: I.Index, place: nat -> nat, from: nat, to: nat, p: nat, id: nat)
    requires I.Entry(index, p) == Some(id) && place(id) == p
    ensures I.Entry(I.Resync(index, place, from, to), p) == Some(id)
  {
  }

  lemma OthersStay(index: I.Index, p: nat, id: nat, connects: bool, q: nat, lost: set<nat>)
    ensures q != p ==> I.Entry(I.FileEntry(index, p, id, connects), q) == I.Entry(index, q)
    ensures I.Entry(index, p) == Some(id) || connects ==> I.Entry(I.FileEntry(index, p, id, connects), p) == Some(id)
    ensures I.Entry(index, q).Some? && I.Entry(index, q).value !in lost ==>
            I.Entry(Forgotten(index, lost), q) == I.Entry(index, q)
  {
  }

  lemma IndexAgrees(j: Joint, x: JointEvent)
    requires JointInv(j) && JointAdmissible(j, x) && !x.Happens?
    ensures Agrees(j.plant, IndexAfter(j, x))
  {
    var s := j.plant;
    hide Inv, AllFresh, I.Resync, I.FileEntry, Forgotten;
    forall n | n in s.belt.notified && n in s.notifier ensures I.Entry(IndexAfter(j, x), n) == Some(s.notifier[n]) {
      match x
      case Reports(from, to) =>
        FiledAtBelt(s, n);
        FiledStays(j.index, Places(s.robots), from, to, n, s.notifier[n]);
      case Learns(at, robot, connects) => OthersStay(j.index, at, robot, connects, n, {});
      case Forgets(lost) => OthersStay(j.index, n, s.notifier[n], true, n, lost);
    }
  }

  lemma FiledAtBelt(s: P.State, n: nat)
    requires Inv(s) && AllPlaced(s) && n in s.belt.notified && n in s.notifier
    ensures s.notifier[n] < |s.robots| && Places(s.robots)(s.notifier[n]) == n
  {
    hide RobotsOk, BeltOk, DishesOk, Balanced, RI.WellFormed;
  }

  lemma NoticeFiled(notified: set<nat>, notifier: map<nat, nat>, index: I.Index, n: nat, i: nat, connects: bool)
    requires AllFiled(notified, notifier, index) && (n in notified && n in notifier ==> notifier[n] == i)
    ensures var index' := I.FileEntry(index, n, i, connects);
            && AllFiled(notified, notifier, index')
            && (connects ==> AllFiled(notified + {n}, notifier[n := i], index'))
  {
  }

  lemma PlantAgrees(j: Joint, e: P.Event)
    requires JointInv(j) && JointAdmissible(j, Happens(e))
    ensures Agrees(Next(j.plant, e), IndexAfter(j, Happens(e)))
  {
    var s := j.plant;
    InvPossible(s, e);
    NoticesFollow(s, e);
    hide Inv, AllFresh, AllPlaced, I.FileEntry, P.Step, P.Possible, P.Fetchable;
    if e.HandleNotice? {
      hide AllFiled;
      NoticeFiled(s.belt.notified, s.notifier, j.index, s.notices[0].position, s.notices[0].robot, e.connects);
    }
  }

  /** Whom the conveyor asks is the robot that has sent the notification. */
  lemma AsksTheNotifier(j: Joint, e: P.Event)
    requires JointInv(j) && IndexAdmissible(j, Happens(e))
    ensures CallsNotifier(j.plant, e)
  {
    if e.RetrieveFrom? { NotifiedAt(j.plant, e.position); }
    hide Inv, AllFresh, AllPlaced;
  }

  lemma JointKeeps(j: Joint, x: JointEvent)
    requires JointInv(j) && JointAdmissible(j, x)
    ensures JointInv(JointNext(j, x))
    ensures x.Happens? ==> CallsNotifier(j.plant, x.event) && !StepOverwrites(j.plant, x.event)
  {
    hide Inv, P.Admissible, AllFresh, AllPlaced, Agrees, IndexAfter, CallsNotifier, P.Overwrites, MovesKnown;
    if x.Happens? {
      var e := x.event;
      PlantAgrees(j, e);
      AsksTheNotifier(j, e);
      NobodyMoves(j.plant, e);
      PlacedKeeps(j.plant, e);
      FreshKeeps(j.plant, e);
      if e.RetrieveFrom? { RetrievalSpared(j.plant, e); }
    } else {
      IndexAgrees(j, x);
    }
  }

  lemma RetrievalSpared(s: P.State, e: P.Event)
    requires Inv(s) && P.Admissible(s, e) && e.RetrieveFrom? && AllPlaced(s) && CallsNotifier(s, e)
    ensures !StepOverwrites(s, e)
  {
    hide Inv, AllPlaced, P.Overwrites;
    FreePlateWhilePlaced(s, e.position, e.callee);
  }

  // ------------------------------------------------------------------ whole runs

  ghost predicate AllJointAdmissible(j: Joint, events: seq<JointEvent>)
    requires Inv(j.plant)
    decreases |events|
  {
    events == [] || (JointAdmissible(j, events[0]) && AllJointAdmissible(JointNext(j, events[0]), events[1..]))
  }

  ghost function JointRun(j: Joint, events: seq<JointEvent>): Joint
    requires Inv(j.plant) && AllJointAdmissible(j, events)
    decreases |events|
  {
    if events == [] then j else JointRun(JointNext(j, events[0]), events[1..])
  }

  lemma {:induction false} JointRunKeeps(j: Joint, events: seq<JointEvent>)
    requires JointInv(j) && AllJointAdmissible(j, events)
    ensures JointInv(JointRun(j, events)) && JointRun(j, events).plant.overwrittenDishes == j.plant.overwrittenDishes
    decreases |events|
  {
    hide Inv, IndexAdmissible, NoticeFits, P.Step, P.Possible, StepOverwrites, IndexAfter, AllPlaced, AllFresh, Agrees;
    if events != [] {
      JointKeeps(j, events[0]);
      if events[0].Happens? { HappensOverwritesNothing(j, events[0]); }
      JointRunKeeps(JointNext(j, events[0]), events[1..]);
    }
  }

  lemma HappensOverwritesNothing(j: Joint, x: JointEvent)
    requires JointInv(j) && JointAdmissible(j, x) && x.Happens? && !StepOverwrites(j.plant, x.event)
    ensures JointNext(j, x).plant.overwrittenDishes == j.plant.overwrittenDishes
  {
    hide Inv, P.Admissible, P.Step, P.Possible, StepOverwrites, IndexAfter, AllFresh, AllPlaced, Agrees;
    InvPossible(j.plant, x.event);
    OverwrittenExactly(j.plant, x.event);
  }

  /** On every run from an empty plant, with the conveyor's index as it follows notifications, answers and reports in
      any order: whoever has notified from a position is filed there until its dish is asked for, and dishes are
      conserved. */
  lemma IndexedPlantConserves(book: R.RecipeBook, n: nat, robots: seq<R.State>, events: seq<JointEvent>)
    requires RI.WellFormed(book) && n > 0 && Started(book, n, robots)
    requires Inv(Initial(book, n, robots)) && AllJointAdmissible(Joint(Initial(book, n, robots), map[]), events)
    ensures var j := JointRun(Joint(Initial(book, n, robots), map[]), events);
            && Agrees(j.plant, j.index)
            && j.plant.assignedDishes ==
               P.AtRobots(j.plant.robots) + P.OnPlates(j.plant.belt.plates) + j.plant.completedDishes
  {
    var s0 := Initial(book, n, robots);
    var j0 := Joint(s0, map[]);
    assert s0.notices == [] && s0.belt.notified == {} && s0.notifier == map[] && s0.overwrittenDishes == multiset{};
    assert AllFresh(s0) && AllPlaced(s0) && Agrees(s0, map[]);
    hide Inv, P.AtRobots, P.OnPlates, AllJointAdmissible, JointRun, Initial, AllFresh, AllPlaced, Agrees;
    JointRunKeeps(j0, events);
    var s := JointRun(j0, events).plant;
    BalanceOf(s);
    NothingLost(P.AtRobots(s.robots) + P.OnPlates(s.belt.plates) + s.completedDishes, s.overwrittenDishes);
  }
}
