/** Dish conservation on every run of the plant. */
module PlantRuns {
  import opened Basics
  import opened Recipes
  import R = Robot
  import RI = RobotInvariant
  import RR = RobotRuns
  import C = Conveyor
  import CI = ConveyorInvariant
  import CS = ConveyorSteps
  import CR = ConveyorRuns
  import opened RobotFifo
  import opened Plant
  import opened PlantInvariant
  import opened PlantSteps

  // ------------------------------------------------------------------ robots and the kitchen

  lemma OnlyCallsMoveDishes(r: R.State, e: R.Event)
    requires !e.ReceiveTaskEvent? && !e.HandoverEvent?
    ensures Accepted(r, e) == [] && HandedOver(r, e) == []
  {
  }

  lemma NoRecipes()
    ensures RecipesOf([]) == multiset{}
  {
  }

  lemma OwnNotices(s: State, i: nat, e: R.Event)
    requires Inv(s) && i < |s.robots| && RobotOk(s.recipes, |s.belt.plates|, R.Step(s.robots[i], e))
    ensures var s' := HandleOwn(s, i, e);
            NoticesOk(|s'.robots|, |s.belt.plates|, s'.notices, s'.belt.notified, s'.notifier)
  {
    hide RI.Inv, R.Step, BeltOk, DishesOk, Balanced, RI.WellFormed, RobotsOk;
  }

  lemma OwnKeeps(s: State, i: nat, e: R.Event)
    requires Inv(s) && Admissible(s, Own(i, e))
    ensures Inv(HandleOwn(s, i, e))
  {
    RobotAt(s.recipes, |s.belt.plates|, s.robots, i);
    RobotStepKeeps(s.recipes, |s.belt.plates|, s.robots[i], e);
    OwnNotices(s, i, e);
    RobotsStep(s.recipes, |s.belt.plates|, s.robots, i, e);
    OnlyCallsMoveDishes(s.robots[i], e);
    NoRecipes();
    hide RobotOk, RobotsOk, R.Step, NoticesOk, BeltOk, DishesOk, AtRobots, OnPlates, RI.WellFormed, R.Admissible,
         Accepted, HandedOver, RecipesOf;
    var all := AtRobots(HandleOwn(s, i, e).robots);
    assert all + multiset{} == all && AtRobots(s.robots) + multiset{} == AtRobots(s.robots);
  }

  lemma RenotifyKeeps(s: State, i: nat)
    requires Inv(s) && i < |s.robots|
    ensures Inv(HandleRenotify(s, i))
  {
    RobotAt(s.recipes, |s.belt.plates|, s.robots, i);
    PositionOk(s.recipes, |s.belt.plates|, s.robots[i]);
    hide RobotOk, RobotsOk, BeltOk, DishesOk, AtRobots, OnPlates, RI.WellFormed;
    if s.robots[i].pickup { assert HandleRenotify(s, i) ==
        s.(notices := s.notices + [Notice(i, s.robots[i].position)]); }
  }

  lemma PositionOk(book: R.RecipeBook, size: nat, r: R.State)
    requires RobotOk(book, size, r)
    ensures 0 < r.position < size
  {
  }

  /** A call that hands a dish to a robot: it takes the dish or nothing changes. */
  lemma TaskCall(s: State, i: nat, recipe: nat, steps: nat, addressed: nat)
    requires Inv(s) && i < |s.robots| && recipe in s.recipes && steps < |s.recipes[recipe]|
    ensures var robots := s.robots[i := R.Step(s.robots[i], R.ReceiveTaskEvent(recipe, steps, addressed))];
            && RobotsOk(s.recipes, |s.belt.plates|, robots)
            && AtRobots(robots) == AtRobots(s.robots) +
               (if Takes(s.robots[i], recipe, steps, addressed) then multiset{recipe} else multiset{})
  {
    InvRobots(s);
    hide Inv, RobotOk, RobotsOk, R.Step, NoticesOk, AtRobots, Takes;
    RobotAt(s.recipes, |s.belt.plates|, s.robots, i);
    TaskCallRobots(s.recipes, |s.belt.plates|, s.robots, i, recipe, steps, addressed);
  }

  lemma TaskCallRobots(book: R.RecipeBook, size: nat, robots: seq<R.State>, i: nat, recipe: nat, steps: nat,
                       addressed: nat)
    requires RobotsOk(book, size, robots) && i < |robots| && robots[i].recipes == book && recipe in book
    requires steps < |book[recipe]|
    ensures var robots' := robots[i := R.Step(robots[i], R.ReceiveTaskEvent(recipe, steps, addressed))];
            && RobotsOk(book, size, robots')
            && AtRobots(robots') ==
               AtRobots(robots) + (if Takes(robots[i], recipe, steps, addressed) then multiset{recipe} else multiset{})
  {
    var e := R.ReceiveTaskEvent(recipe, steps, addressed);
    assert R.Admissible(robots[i], e);
    hide RobotOk, RobotsOk, R.Step, R.Admissible, AtRobots, Accepted, HandedOver, RecipesOf, Takes;
    RobotsStep(book, size, robots, i, e);
    TaskCallTickets(robots[i], recipe, steps, addressed);
    var robots' := robots[i := R.Step(robots[i], e)];
    assert AtRobots(robots') + multiset{} == AtRobots(robots');
  }

  lemma RobotAt(book: R.RecipeBook, size: nat, robots: seq<R.State>, i: nat)
    requires RobotsOk(book, size, robots) && i < |robots|
    ensures RobotOk(book, size, robots[i]) && robots[i].recipes == book
  {
    hide RI.Inv;
  }

  lemma InvRobots(s: State)
    requires Inv(s)
    ensures RobotsOk(s.recipes, |s.belt.plates|, s.robots)
    ensures NoticesOk(|s.robots|, |s.belt.plates|, s.notices, s.belt.notified, s.notifier)
  {
  }

  lemma TaskCallTickets(r: R.State, recipe: nat, steps: nat, addressed: nat)
    ensures var e := R.ReceiveTaskEvent(recipe, steps, addressed);
            && HandedOver(r, e) == [] && RecipesOf(HandedOver(r, e)) == multiset{}
            && RecipesOf(Accepted(r, e)) == if Takes(r, recipe, steps, addressed) then multiset{recipe} else multiset{}
  {
    hide R.ReceiveTaskAccepts;
    NoRecipes();
    assert RecipeList([Ticket(recipe, steps)]) == [recipe];
  }

  lemma PlaceOrderKeeps(s: State, i: nat, recipe: nat, addressed: nat)
    requires Inv(s) && Admissible(s, PlaceOrder(i, recipe, addressed))
    ensures Inv(HandlePlaceOrder(s, i, recipe, addressed))
  {
    assert |s.recipes[recipe]| > 0 by { assert s.recipes[recipe] != []; }
    TaskCall(s, i, recipe, 0, addressed);
    hide RobotsOk, R.Step, NoticesOk, BeltOk, DishesOk, AtRobots, OnPlates, RI.WellFormed, Takes;
    var more := if Takes(s.robots[i], recipe, 0, addressed) then multiset{recipe} else multiset{};
    MoreAtRobots(AtRobots(s.robots), OnPlates(s.belt.plates), s.completedDishes, s.overwrittenDishes, more);
  }

  lemma MoreAtRobots(robots: multiset<nat>, plates: multiset<nat>, completed: multiset<nat>, lost: multiset<nat>,
                     more: multiset<nat>)
    ensures robots + plates + completed + lost + more == (robots + more) + plates + completed + lost
  {
  }

  // ------------------------------------------------------------------ the conveyor's own steps

  /** Steps that move no dish and leave robots and notices alone. */
  lemma BeltOnly(s: State, s': State)
    requires Inv(s) && s' == s.(belt := s'.belt, work := s'.work)
    requires BeltOk(s'.belt, s'.work) && s'.belt.notified == s.belt.notified
    requires SameDishes(s.belt.plates, s'.belt.plates)
    ensures Inv(s')
  {
    assert DishesOk(s'.recipes, s'.belt.plates) by {
      forall k | 0 <= k < |s'.belt.plates| ensures DishOk(s'.recipes, s'.belt.plates[k]) {
        assert DishOk(s.recipes, s.belt.plates[k]);
      }
    }
    SameOnPlates(s.belt.plates, s'.belt.plates);
    hide RobotsOk, NoticesOk, BeltOk, AtRobots, OnPlates, RI.WellFormed, DishesOk;
  }

  predicate SameDishes(a: seq<C.Plate>, b: seq<C.Plate>)
  {
    |a| == |b| && forall k :: 0 <= k < |a| ==>
      a[k].recipe == b[k].recipe && a[k].steps == b[k].steps && a[k].done == b[k].done && a[k].occupied == b[k].occupied
  }

  lemma NotificationKeeps(s: State, connects: bool)
    requires Inv(s) && Admissible(s, HandleNotice(connects))
    ensures Inv(HandleNotification(s, connects))
  {
    var s' := HandleNotification(s, connects);
    NotifiedBelt(s, connects);
    NotificationFrame(s.belt, s.notices[0].position, connects);
    hide RI.Inv, RobotsOk, CI.Inv, AtRobots, OnPlates, RI.WellFormed, DishesOk, C.HandleNotification, NoticesOk;
    NoticesFiled(|s.robots|, |s.belt.plates|, s.notices, s.belt.notified, s.notifier);
    assert s'.belt.plates == s.belt.plates && s'.robots == s.robots && s'.recipes == s.recipes;
  }

  lemma NotifiedBelt(s: State, connects: bool)
    requires Inv(s) && Admissible(s, HandleNotice(connects))
    ensures CI.Inv(C.HandleNotification(s.belt, s.notices[0].position, connects))
  {
    var n := s.notices[0].position;
    CI.InvPossible(s.belt, C.Notification(n, connects));
    CS.StepKeeps(s.belt, C.Notification(n, connects));
    NotificationFrame(s.belt, n, connects);
    hide RobotsOk, CI.Inv, AtRobots, OnPlates, RI.WellFormed, DishesOk, C.HandleNotification, C.Step;
  }

  lemma NoticesFiled(n: nat, size: nat, notices: seq<Notice>, notified: set<nat>, notifier: map<nat, nat>)
    requires NoticesOk(n, size, notices, notified, notifier) && notices != []
    ensures NoticesOk(n, size, notices[1..], notified, notifier)
    ensures NoticesOk(n, size, notices[1..], notified + {notices[0].position},
            notifier[notices[0].position := notices[0].robot])
  {
  }

  lemma NotificationFrame(c: C.State, n: nat, connects: bool)
    ensures var c' := C.HandleNotification(c, n, connects);
            && c'.plates == c.plates && c'.notified == (if connects then c.notified + {n} else c.notified)
            && (C.Possible(c, C.Notification(n, connects)) ==> C.Step(c, C.Notification(n, connects)) == c')
  {
  }

  lemma TimerKeeps(s: State)
    requires Inv(s) && s.work.AtRest? && s.belt.plates != []
    ensures Inv(HandleTimer(s))
  {
    hide RobotsOk, NoticesOk, AtRobots, OnPlates, RI.WellFormed, DishesOk, CI.Rotation, CI.PlatesOk;
    if s.belt.timer.Some? {
      var belt := s.belt.(timer := None);
      assert CS.Resting(belt);
      CS.MovedKeeps(belt);
      hide CS.Resting, CI.Inv;
      BeltOnly(s, HandleTimer(s));
    }
  }

  lemma RequestsFrame(c: C.State, env: C.Env)
    ensures C.RequestNextRobots(c, env).plates == c.plates && C.RequestNextRobots(c, env).notified == c.notified
  {
    hide C.Asking;
  }

  lemma RequestsOnly(s: State, env: C.Env)
    requires Inv(s) && CS.Resting(s.belt) && CI.Covers(env.plateOrder, |s.belt.plates|)
    ensures Inv(s.(work := AtRest, belt := C.RequestNextRobots(s.belt, env)))
  {
    CS.RequestKeeps(s.belt, env);
    RequestsFrame(s.belt, env);
    hide Inv, CI.Inv, CS.Resting, C.RequestNextRobots, CI.Covers;
    BeltOnly(s, s.(work := AtRest, belt := C.RequestNextRobots(s.belt, env)));
  }

  lemma DetermineKeeps(s: State, env: C.Env)
    requires Inv(s) && CS.Resting(s.belt) && CI.Covers(env.plateOrder, |s.belt.plates|)
    ensures Inv(DetermineNextMovement(s, env))
  {
    if s.belt.notified != {} {
      hide RobotsOk, NoticesOk, AtRobots, OnPlates, RI.WellFormed, DishesOk, CI.Inv, CS.Resting;
      BeltOnly(s, DetermineNextMovement(s, env));
    } else if s.belt.occupied != {} {
      hide Inv, CS.Resting;
      RequestsOnly(s, env);
    } else {
      hide RobotsOk, NoticesOk, AtRobots, OnPlates, RI.WellFormed, DishesOk, CI.Rotation, CI.PlatesOk;
      BeltOnly(s, DetermineNextMovement(s, env));
    }
  }

  lemma FinishKeeps(s: State, env: C.Env)
    requires Inv(s) && Admissible(s, Finish(env))
    ensures Inv(HandleFinish(s, env))
  {
    hide RobotsOk, NoticesOk, AtRobots, OnPlates, RI.WellFormed, DishesOk, CI.Inv, CS.Resting, C.RequestNextRobots,
         DetermineNextMovement;
    if s.work.Retrieving? { RequestsOnly(s, env); } else { DetermineKeeps(s, env); }
  }

  lemma ReconnectKeeps(s: State, env: C.Env)
    requires Inv(s) && Admissible(s, Reconnect(env))
    ensures Inv(HandleReconnect(s, env))
  {
    if s.belt.moving && s.belt.queue != [] {
      var s1 := s.(belt := s.belt.(queue := []), work := Delivering({}));
      QueueGivenUp(s.belt);
      hide RobotsOk, NoticesOk, AtRobots, OnPlates, RI.WellFormed, DishesOk, CI.Inv, CS.Resting, Balanced,
           DetermineNextMovement, CI.Covers;
      BeltOnly(s, s1);
      hide Inv;
      DetermineKeeps(s1, env);
      SameDetermined(s1, s.(belt := s.belt.(queue := [])), env);
    }
  }

  lemma QueueGivenUp(c: C.State)
    requires CI.Inv(c) && c.moving && c.queue != []
    ensures CS.Resting(c.(queue := []))
  {
    hide CI.Rotation, CI.PlatesOk;
  }

  lemma SameDetermined(a: State, b: State, env: C.Env)
    requires a == b.(work := a.work)
    ensures DetermineNextMovement(a, env) == DetermineNextMovement(b, env)
  {
    hide C.RequestNextRobots;
  }

  lemma AnswerFrame(c: C.State, position: nat, known: bool, recipe: nat)
    requires c.queue != [] ==> C.OnBelt(c, c.queue[0])
    ensures var c' := C.HandleNextRobot(c, position, known, recipe);
            c'.notified == c.notified && SameDishes(c.plates, c'.plates)
  {
  }

  lemma NextRobotKeeps(s: State, position: nat, known: bool, recipe: nat)
    requires Inv(s) && s.work.AtRest? && (s.belt.queue != [] ==> C.OnBelt(s.belt, s.belt.queue[0]))
    ensures Inv(s.(belt := C.HandleNextRobot(s.belt, position, known, recipe)))
  {
    CS.NextRobotKeeps(s.belt, position, known, recipe);
    AnswerFrame(s.belt, position, known, recipe);
    hide RobotsOk, NoticesOk, AtRobots, OnPlates, RI.WellFormed, DishesOk, CI.Inv, C.HandleNextRobot, SameDishes;
    BeltOnly(s, s.(belt := C.HandleNextRobot(s.belt, position, known, recipe)));
  }

  // ------------------------------------------------------------------ retrieval

  lemma NotifiedAt(s: State, n: nat)
    requires Inv(s) && s.work.Retrieving? && n in s.work.todo
    ensures n in s.belt.notified && n in s.notifier && s.notifier[n] < |s.robots| && n < |s.belt.plates|
    ensures C.OnBelt(s.belt, n) && s.belt.plates[s.belt.index[n]].position == n
  {
    hide RobotsOk, AtRobots, OnPlates, RI.WellFormed, DishesOk, CI.PlatesOk, CI.Rotation;
    CI.AtPosition(s.belt.plates, s.belt.index, n);
  }

  /** Every robot is in front of a plate. */
  lemma RobotAtBelt(s: State, i: nat)
    requires Inv(s) && s.work.Retrieving? && i < |s.robots|
    ensures var p := s.robots[i].position;
            p < |s.belt.plates| && C.OnBelt(s.belt, p) && s.belt.plates[s.belt.index[p]].position == p
    ensures R.HandoverReply(s.robots[i]).position == s.robots[i].position
  {
    RobotAt(s.recipes, |s.belt.plates|, s.robots, i);
    PositionOk(s.recipes, |s.belt.plates|, s.robots[i]);
    hide RobotOk, RobotsOk, AtRobots, OnPlates, RI.WellFormed, DishesOk, CI.PlatesOk, CI.Rotation;
    CI.AtPosition(s.belt.plates, s.belt.index, s.robots[i].position);
  }

  lemma RealDish(book: R.RecipeBook, size: nat, r: R.State)
    requires RobotOk(book, size, r) && r.fault.NoFault? && r.pickup && RI.WellFormed(book)
    ensures var reply := R.HandoverReply(r);
            && reply.recipe != 0 && reply.recipe in book && reply.steps <= |book[reply.recipe]|
            && (reply.finished <==> reply.steps == |book[reply.recipe]|)
            && RecipesOf(HandedOver(r, R.HandoverEvent)) == multiset{reply.recipe}
  {
    HandoverReports(r);
    var t := HandedOver(r, R.HandoverEvent)[0];
    assert HandedOver(r, R.HandoverEvent) == [t];
    assert RecipeList([t]) == [t.recipe];
    assert |book[t.recipe]| >= 0;
    hide RI.Inv, HandedOver, Recipes.PrefixLength;
    PrefixFits(r.caps, book[t.recipe][t.steps..]);
  }

  lemma PrefixFits(caps: set<string>, actions: seq<Action>)
    ensures PrefixLength(caps, actions) <= |actions|
  {
  }

  /** What a reply does to the belt: a dish is put on the plate in front of the robot, whatever it carries. */
  lemma RetrievedPlate(c: C.State, n: nat, reply: Option<R.Dish>)
    requires n in c.notified && C.OnBelt(c, n) && !c.plates[c.index[n]].occupied && C.FromBelt(c, n, reply)
    ensures var c' := C.Retrieve(c, n, reply);
            && c'.notified == c.notified - {n} && c'.index == c.index
            && c'.plates == if reply.None? || reply.value.recipe == 0 then c.plates
                            else var k := c.index[reply.value.position]; c.plates[k := CS.With(c.plates[k],
                                reply.value)]
  {
  }

  lemma SameDishesOk(book: R.RecipeBook, plates: seq<C.Plate>, k: nat, d: R.Dish)
    requires DishesOk(book, plates) && k < |plates|
    requires d.recipe in book && d.steps <= |book[d.recipe]| && (d.finished <==> d.steps == |book[d.recipe]|)
    ensures DishesOk(book, plates[k := CS.With(plates[k], d)])
  {
  }

  lemma NothingFetched(s: State, n: nat)
    requires Inv(s) && s.work.Retrieving? && n in s.work.todo && Fetchable(s, n)
    ensures Inv(s.(work := Retrieving(s.work.todo - {n}), belt := C.Retrieve(s.belt, n, None)))
  {
    NotifiedAt(s, n);
    RetrievedPlate(s.belt, n, None);
    CS.RetrieveKeeps(s.belt, n, None);
    hide RobotsOk, AtRobots, OnPlates, RI.WellFormed, DishesOk, CS.Resting, C.Retrieve;
  }

  lemma DishLeaves(book: R.RecipeBook, size: nat, robots: seq<R.State>, i: nat)
    requires RobotsOk(book, size, robots) && i < |robots| && robots[i].fault.NoFault? && RI.WellFormed(book)
    ensures var reply := R.HandoverReply(robots[i]);
            && RobotsOk(book, size, robots[i := R.Step(robots[i], R.HandoverEvent)])
            && (robots[i].pickup ==> reply.recipe != 0)
            && AtRobots(robots[i := R.Step(robots[i], R.HandoverEvent)]) +
               (if reply.recipe != 0 then multiset{reply.recipe} else multiset{})
                 == AtRobots(robots)
            && (reply.recipe != 0 ==>
                  && reply.recipe in book && reply.steps <= |book[reply.recipe]|
                  && (reply.finished <==> reply.steps == |book[reply.recipe]|))
  {
    RobotAt(book, size, robots, i);
    RobotsStep(book, size, robots, i, R.HandoverEvent);
    HandoverTickets(robots[i]);
    NoRecipes();
    if robots[i].pickup { RealDish(book, size, robots[i]); }
    hide RobotOk, RobotsOk, AtRobots, RI.WellFormed, R.Step, Accepted, HandedOver, RecipesOf, R.HandoverReply;
    assert AtRobots(robots) + multiset{} == AtRobots(robots);
  }

  lemma HandoverTickets(r: R.State)
    ensures Accepted(r, R.HandoverEvent) == []
    ensures !r.pickup ==> HandedOver(r, R.HandoverEvent) == [] && R.HandoverReply(r).recipe == 0
  {
  }

  /** The dish leaves the robot's backlog and is then on the plate; the dish that was there is gone. */
  lemma DishMoves(s: State, n: nat, i: nat)
    requires Inv(s) && s.work.Retrieving? && n in s.work.todo && Fetches(s, n, Some(i))
    ensures var reply := R.HandoverReply(s.robots[i]);
            && C.FromBelt(s.belt, n, Some(reply))
            && var c' := C.Retrieve(s.belt, n, Some(reply));
               && DishesOk(s.recipes, c'.plates)
               && s.assignedDishes ==
                  AtRobots(s.robots[i := R.Step(s.robots[i], R.HandoverEvent)]) + OnPlates(c'.plates)
                                        + s.completedDishes + (s.overwrittenDishes + Overwritten(s, n, Some(i)))
  {
    var reply := R.HandoverReply(s.robots[i]);
    NotifiedAt(s, n);
    RobotAtBelt(s, i);
    InvRobots(s);
    DishLeaves(s.recipes, |s.belt.plates|, s.robots, i);
    RetrievedPlate(s.belt, n, Some(reply));
    hide RobotOk, RobotsOk, NoticesOk, AtRobots, OnPlates, C.Retrieve, R.Step, RI.Inv, R.HandoverReply, BeltOk,
         DishesOk, RI.WellFormed;
    var robots' := AtRobots(s.robots[i := R.Step(s.robots[i], R.HandoverEvent)]);
    if reply.recipe != 0 {
      var k := s.belt.index[reply.position];
      var p, q := s.belt.plates[k], CS.With(s.belt.plates[k], reply);
      SameDishesOk(s.recipes, s.belt.plates, k, reply);
      PlatesUpdate(s.belt.plates, k, q);
      assert OnPlate(q) == multiset{reply.recipe};
      assert Overwritten(s, n, Some(i)) == OnPlate(p);
      Handed(AtRobots(s.robots), robots', OnPlates(s.belt.plates), OnPlates(s.belt.plates[k := q]), s.completedDishes,
             s.overwrittenDishes, OnPlate(q), OnPlate(p));
    } else {
      assert robots' + multiset{} == robots' && s.overwrittenDishes + multiset{} == s.overwrittenDishes;
    }
  }

  lemma Handed(robots: multiset<nat>, robots': multiset<nat>, plates: multiset<nat>, plates': multiset<nat>,
               completed: multiset<nat>,
               lost: multiset<nat>, dish: multiset<nat>, gone: multiset<nat>)
    requires robots' + dish == robots && plates' + gone == plates + dish
    ensures robots + plates + completed + lost == robots' + plates' + completed + (lost + gone)
  {
    assert robots + plates == (robots' + dish) + plates == robots' + (plates + dish) == robots' + (plates' + gone);
  }

  lemma RetrievedBelt(s: State, n: nat, i: nat)
    requires Inv(s) && s.work.Retrieving? && n in s.work.todo && Fetches(s, n, Some(i))
    requires C.FromBelt(s.belt, n, Some(R.HandoverReply(s.robots[i])))
    ensures var c' := C.Retrieve(s.belt, n, Some(R.HandoverReply(s.robots[i])));
            && BeltOk(c', Retrieving(s.work.todo - {n})) && |c'.plates| == |s.belt.plates|
            && NoticesOk(|s.robots|, |s.belt.plates|, s.notices, c'.notified, s.notifier)
  {
    var reply := Some(R.HandoverReply(s.robots[i]));
    NotifiedAt(s, n);
    RetrievedPlate(s.belt, n, reply);
    CS.RetrieveKeeps(s.belt, n, reply);
    hide RobotsOk, AtRobots, OnPlates, RI.WellFormed, DishesOk, CS.Resting, C.Retrieve, R.HandoverReply;
  }

  lemma RetrievalKeeps(s: State, n: nat, i: nat)
    requires Inv(s) && s.work.Retrieving? && n in s.work.todo && Fetches(s, n, Some(i))
    ensures var r := s.robots[i];
            C.FromBelt(s.belt, n, Some(R.HandoverReply(r))) &&
            Inv(s.(work := Retrieving(s.work.todo - {n}), belt := C.Retrieve(s.belt, n, Some(R.HandoverReply(r))),
                   robots := s.robots[i := R.Step(r, R.HandoverEvent)],
                   overwrittenDishes := s.overwrittenDishes + Overwritten(s, n, Some(i))))
  {
    InvRobots(s);
    InvBook(s);
    DishMoves(s, n, i);
    RetrievedBelt(s, n, i);
    DishLeaves(s.recipes, |s.belt.plates|, s.robots, i);
    hide RobotOk, RobotsOk, NoticesOk, BeltOk, AtRobots, OnPlates, RI.WellFormed, DishesOk, C.Retrieve, R.Step,
         RI.Inv, R.HandoverReply,
         Overwritten;
  }

  lemma InvBook(s: State)
    requires Inv(s)
    ensures RI.WellFormed(s.recipes)
  {
  }

  // ------------------------------------------------------------------ delivery

  lemma DeliverOneKeeps(c: C.State, k: nat, a: C.Attempt, kitchen: bool)
    requires CS.Resting(c) && k in c.occupied && k < |c.plates|
    requires a.Answered? && a.accepted ==> a.position == c.plates[k].position
    ensures CS.Resting(DeliverOne(c, k, a, kitchen))
  {
    CS.SamePositions(c.plates, DeliverOne(c, k, a, kitchen).plates, c.index);
    hide CI.Rotation;
  }

  lemma AnswerGenuine(s: State, p: C.Plate, callee: Option<nat>)
    ensures var a := Answer(s, p, callee); a.Answered? && a.accepted ==> a.position == p.position
  {
  }

  /** A plate is cleared exactly when the kitchen takes a finished dish, or a robot one that is meant for it. */
  lemma ClearedExactly(s: State, p: C.Plate, callee: Option<nat>, kitchen: bool)
    requires p.occupied
    ensures var a := Answer(s, p, callee);
            && (C.Leaves(p, a, kitchen) <==>
                  if p.done then p.position == C.OUTPUT_POSITION && kitchen
                  else
                    && AtTarget(p) && callee.Some? && callee.value < |s.robots|
                    && Takes(s.robots[callee.value], p.recipe, p.steps, p.position))
            && OnPlate(C.PlateAfter(p, a, kitchen)) ==
               (if C.Leaves(p, a, kitchen) then multiset{} else multiset{p.recipe})
  {
    hide R.ReceiveTaskAccepts;
    AnswerGenuine(s, p, callee);
  }

  /** Dishes on plates that are not finished have a step left to do. */
  lemma OpenStep(s: State, k: nat)
    requires Inv(s) && s.work.Delivering? && k in s.work.todo
    ensures k < |s.belt.plates| && k in s.belt.occupied && s.belt.plates[k].occupied
    ensures var p := s.belt.plates[k];
            && p.recipe in s.recipes && p.steps <= |s.recipes[p.recipe]|
            && (p.done <==> p.steps == |s.recipes[p.recipe]|)
  {
    assert CI.PlatesOk(s.belt.plates, s.belt.occupied);
    hide RobotsOk, NoticesOk, AtRobots, OnPlates, RI.WellFormed, CI.Rotation;
    assert DishOk(s.recipes, s.belt.plates[k]);
  }

  lemma DeliveredDishes(book: R.RecipeBook, plates: seq<C.Plate>, k: nat, a: C.Attempt, kitchen: bool)
    requires DishesOk(book, plates) && k < |plates|
    ensures DishesOk(book, plates[k := C.PlateAfter(plates[k], a, kitchen)])
  {
    assert DishOk(book, plates[k]);
    assert DishOk(book, C.PlateAfter(plates[k], a, kitchen));
    hide DishOk, C.PlateAfter;
  }

  /** What a delivery does to the robots. */
  lemma DeliveryCall(s: State, k: nat, callee: Option<nat>, kitchen: bool)
    requires Inv(s) && s.work.Delivering? && k in s.work.todo && k < |s.belt.plates|
    ensures var p, s' := s.belt.plates[k], HandleDeliverFrom(s, k, callee, kitchen);
            var taken := !p.done && C.Leaves(p, Answer(s, p, callee), kitchen);
            && RobotsOk(s.recipes, |s.belt.plates|, s'.robots) && |s'.robots| == |s.robots|
            && AtRobots(s'.robots) == AtRobots(s.robots) + (if taken then multiset{p.recipe} else multiset{})
  {
    var p := s.belt.plates[k];
    OpenStep(s, k);
    ClearedExactly(s, p, callee, kitchen);
    DeliveryRobots(s, k, callee, kitchen);
    hide Inv, RobotsOk, NoticesOk, AtRobots, R.Step, C.Leaves, Answer, HandleDeliverFrom, Takes;
    if AtTarget(p) && callee.Some? && callee.value < |s.robots| {
      TaskCall(s, callee.value, p.recipe, p.steps, p.position);
    } else {
      InvRobots(s);
      assert AtRobots(s.robots) + multiset{} == AtRobots(s.robots);
    }
  }

  lemma DeliveryRobots(s: State, k: nat, callee: Option<nat>, kitchen: bool)
    requires s.work.Delivering? && k < |s.belt.plates|
    ensures var p := s.belt.plates[k];
            HandleDeliverFrom(s, k, callee, kitchen).robots ==
              if AtTarget(p) && callee.Some? && callee.value < |s.robots|
              then s.robots[callee.value := R.Step(s.robots[callee.value],
                  R.ReceiveTaskEvent(p.recipe, p.steps, p.position))] else s.robots
  {
    hide R.Step, C.Leaves, Answer, DeliverOne;
  }

  lemma DeliveredBelt(s: State, k: nat, callee: Option<nat>, kitchen: bool)
    requires Inv(s) && s.work.Delivering? && k in s.work.todo && k < |s.belt.plates|
    ensures var s' := HandleDeliverFrom(s, k, callee, kitchen);
            && BeltOk(s'.belt, s'.work) && DishesOk(s.recipes, s'.belt.plates)
            && s'.belt.plates ==
               s.belt.plates[k := C.PlateAfter(s.belt.plates[k], Answer(s, s.belt.plates[k], callee), kitchen)]
  {
    var a := Answer(s, s.belt.plates[k], callee);
    OpenStep(s, k);
    AnswerGenuine(s, s.belt.plates[k], callee);
    DeliverOneKeeps(s.belt, k, a, kitchen);
    DeliveredDishes(s.recipes, s.belt.plates, k, a, kitchen);
    hide RobotsOk, NoticesOk, Balanced, RI.WellFormed, CS.Resting, R.Step, DishesOk, C.PlateAfter, C.Leaves, Answer,
         C.Corrupts, AtTarget;
  }

  lemma DeliveredOutside(s: State, k: nat, callee: Option<nat>, kitchen: bool)
    requires s.work.Delivering? && k < |s.belt.plates|
    ensures var p, s' := s.belt.plates[k], HandleDeliverFrom(s, k, callee, kitchen);
            && s'.recipes == s.recipes && s'.notices == s.notices && s'.notifier == s.notifier
            && s'.overwrittenDishes == s.overwrittenDishes
            && s'.belt.notified == s.belt.notified && s'.assignedDishes == s.assignedDishes
            && s'.completedDishes == s.completedDishes + if p.done && C.Leaves(p, Answer(s, p, callee), kitchen)
               then multiset{p.recipe} else multiset{}
  {
    hide R.Step, C.PlateAfter, C.Leaves, Answer, C.Corrupts, AtTarget;
  }

  lemma DeliverKeeps(s: State, k: nat, callee: Option<nat>, kitchen: bool)
    requires Inv(s) && s.work.Delivering? && k in s.work.todo && k < |s.belt.plates|
    ensures Inv(HandleDeliverFrom(s, k, callee, kitchen))
  {
    var p, a, s' := s.belt.plates[k], Answer(s, s.belt.plates[k], callee), HandleDeliverFrom(s, k, callee, kitchen);
    OpenStep(s, k);
    ClearedExactly(s, p, callee, kitchen);
    DeliveryCall(s, k, callee, kitchen);
    DeliveredBelt(s, k, callee, kitchen);
    DeliveredOutside(s, k, callee, kitchen);
    PlatesUpdate(s.belt.plates, k, C.PlateAfter(p, a, kitchen));
    assert OnPlate(p) == multiset{p.recipe};
    hide HandleDeliverFrom, RobotsOk, NoticesOk, BeltOk, AtRobots, OnPlates, OnPlate, RI.WellFormed, DishesOk,
         C.PlateAfter, C.Leaves, Answer;
    Delivered(AtRobots(s.robots), AtRobots(s'.robots), OnPlates(s.belt.plates), OnPlates(s'.belt.plates),
        s.completedDishes,
              s.overwrittenDishes, multiset{p.recipe}, p.done, C.Leaves(p, a, kitchen));
  }

  lemma Delivered(robots: multiset<nat>, robots': multiset<nat>, plates: multiset<nat>, plates': multiset<nat>,
                  completed: multiset<nat>,
                  lost: multiset<nat>, dish: multiset<nat>, done: bool, leaves: bool)
    requires robots' == robots + (if !done && leaves then dish else multiset{})
    requires plates' + dish == plates + (if leaves then multiset{} else dish)
    ensures robots + plates + completed + lost ==
            robots' + plates' + (completed + if done && leaves then dish else multiset{}) + lost
  {
    if leaves {
      assert plates' + dish == plates + multiset{} == plates;
      if done {
        assert robots' == robots + multiset{} == robots;
        assert robots + (plates' + dish) + completed == robots + plates' + (completed + dish);
      } else {
        assert robots + (plates' + dish) + completed == (robots + dish) + plates' + completed;
        assert completed + multiset{} == completed;
      }
    } else {
      assert forall x :: plates'[x] + dish[x] == (plates' + dish)[x] && plates[x] + dish[x] == (plates + dish)[x];
      assert plates' == plates;
      assert robots' == robots + multiset{} == robots;
      assert completed + multiset{} == completed;
    }
  }

  // ------------------------------------------------------------------ all steps

  lemma InvPossible(s: State, e: Event)
    requires Inv(s) && Admissible(s, e)
    ensures Possible(s, e)
  {
    match e
    case TimerFires =>
      hide CI.Rotation, CI.PlatesOk, RobotsOk, NoticesOk, DishesOk, Balanced;
      CI.NotEmpty(s.belt);
    case RetrieveFrom(n, callee) =>
      NotifiedAt(s, n);
      if Reached(s, callee) { RobotAtBelt(s, callee.value); }
    case DeliverFrom(k, _, _) =>
      OpenStep(s, k);
    case NextRobot(_, _, _) =>
      hide CI.Rotation, CI.PlatesOk, RobotsOk, NoticesOk, DishesOk, Balanced;
    case _ =>
  }

  lemma RetrieveFromKeeps(s: State, n: nat, callee: Option<nat>)
    requires Inv(s) && Admissible(s, RetrieveFrom(n, callee)) && Possible(s, RetrieveFrom(n, callee))
    ensures Inv(HandleRetrieveFrom(s, n, callee))
  {
    if !Fetchable(s, n) {
      hide RobotsOk, NoticesOk, AtRobots, OnPlates, RI.WellFormed, DishesOk, CS.Resting, Fetchable;
    } else {
      hide Inv, C.Retrieve, R.Step, R.HandoverReply, Overwritten;
      if Fetches(s, n, callee) { RetrievalKeeps(s, n, callee.value); } else { NothingFetched(s, n); }
    }
  }

  /** Every step of the plant keeps its invariant, whichever calls fail and however the agents interleave. */
  lemma StepKeeps(s: State, e: Event)
    requires Inv(s) && Admissible(s, e)
    ensures Possible(s, e) && Inv(Step(s, e))
  {
    InvPossible(s, e);
    hide Inv, R.Admissible, HandleOwn, HandlePlaceOrder, HandleRenotify, HandleNotification, HandleTimer,
         HandleRetrieveFrom, HandleDeliverFrom,
         HandleFinish, HandleReconnect, C.HandleNextRobot, R.HandoverReply, R.Step;
    match e
    case Own(i, event) => OwnKeeps(s, i, event);
    case PlaceOrder(i, recipe, addressed) => PlaceOrderKeeps(s, i, recipe, addressed);
    case Renotify(i) => RenotifyKeeps(s, i);
    case HandleNotice(connects) => NotificationKeeps(s, connects);
    case TimerFires => TimerKeeps(s);
    case RetrieveFrom(n, callee) => RetrieveFromKeeps(s, n, callee);
    case DeliverFrom(k, callee, kitchen) => DeliverKeeps(s, k, callee, kitchen);
    case Finish(env) => FinishKeeps(s, env);
    case NextRobot(position, known, recipe) => NextRobotKeeps(s, position, known, recipe);
    case Reconnect(env) => ReconnectKeeps(s, env);
  }

  ghost predicate AllAdmissible(s: State, events: seq<Event>)
    requires Inv(s)
    decreases |events|
  {
    events == [] || (Admissible(s, events[0]) && AllAdmissible(Next(s, events[0]), events[1..]))
  }

  ghost function Next(s: State, e: Event): (s': State)
    requires Inv(s) && Admissible(s, e)
    ensures Inv(s') && Possible(s, e) && s' == Step(s, e)
  {
    StepKeeps(s, e);
    Step(s, e)
  }

  ghost function Run(s: State, events: seq<Event>): (s': State)
    requires Inv(s) && AllAdmissible(s, events)
    ensures Inv(s')
    decreases |events|
  {
    if events == [] then s else Run(Next(s, events[0]), events[1..])
  }

  // ------------------------------------------------------------------ from the start

  /** Robots that have just started, in front of an empty belt with `n` plates. */
  predicate Started(book: R.RecipeBook, n: nat, robots: seq<R.State>)
  {
    forall i :: 0 <= i < |robots| ==>
      robots[i] == R.Initial(book, n, robots[i].position, robots[i].caps, robots[i].tool) && 0 < robots[i].position < n
  }

  function Initial(book: R.RecipeBook, n: nat, robots: seq<R.State>): State
  {
    State(book, robots, C.Initial(n), AtRest, [], map[], multiset{}, multiset{}, multiset{})
  }

  lemma {:induction false} NothingAtRobots(robots: seq<R.State>)
    requires forall i :: 0 <= i < |robots| ==> Backlog(robots[i]) == []
    ensures AtRobots(robots) == multiset{}
  {
    NoRecipes();
    if robots != [] {
      assert forall i :: 0 <= i < |robots[1..]| ==> robots[1..][i] == robots[i + 1];
      NothingAtRobots(robots[1..]);
    }
    hide Backlog, RecipesOf;
  }

  lemma {:induction false} NothingOnPlates(plates: seq<C.Plate>)
    requires forall i :: 0 <= i < |plates| ==> !plates[i].occupied
    ensures OnPlates(plates) == multiset{}
  {
    if plates != [] {
      assert forall i :: 0 <= i < |plates[1..]| ==> plates[1..][i] == plates[i + 1];
      NothingOnPlates(plates[1..]);
    }
  }

  lemma FreshRobot(book: R.RecipeBook, n: nat, r: R.State)
    requires RI.WellFormed(book) && 0 < r.position < n && r == R.Initial(book, n, r.position, r.caps, r.tool)
    ensures RobotOk(book, n, r) && !r.pickup && Backlog(r) == []
  {
    RR.InitialKeeps(book, n, r.position, r.caps, r.tool);
    hide RI.Inv, RI.WellFormed;
  }

  lemma InitialKeeps(book: R.RecipeBook, n: nat, robots: seq<R.State>)
    requires RI.WellFormed(book) && n > 0 && Started(book, n, robots)
    ensures Inv(Initial(book, n, robots))
  {
    RobotsStart(book, n, robots);
    EmptyBelt(book, robots, n);
    InitialBalanced(book, n, robots);
    hide RI.WellFormed, RobotsOk, CI.Inv, C.Initial, DishesOk, Started, Balanced;
  }

  lemma InitialBalanced(book: R.RecipeBook, n: nat, robots: seq<R.State>)
    requires n > 0 && forall i :: 0 <= i < |robots| ==> Backlog(robots[i]) == []
    ensures Balanced(Initial(book, n, robots))
  {
    EmptyBelt(book, robots, n);
    NothingAtRobots(robots);
    NothingOnPlates(C.Initial(n).plates);
    hide AtRobots, OnPlates, Backlog, C.Initial, DishesOk, CI.Inv;
    assert multiset{} == AtRobots(robots) + OnPlates(C.Initial(n).plates) + multiset{} + multiset{};
  }

  lemma RobotsStart(book: R.RecipeBook, n: nat, robots: seq<R.State>)
    requires RI.WellFormed(book) && Started(book, n, robots)
    ensures RobotsOk(book, n, robots) && forall i :: 0 <= i < |robots| ==> !robots[i].pickup && Backlog(robots[i]) == []
  {
    forall i | 0 <= i < |robots| ensures RobotOk(book, n, robots[i]) && !robots[i].pickup && Backlog(robots[i]) == [] {
      FreshRobot(book, n, robots[i]);
    }
    hide RI.WellFormed, RobotOk, Backlog, R.Initial;
  }

  lemma EmptyBelt(book: R.RecipeBook, robots: seq<R.State>, n: nat)
    requires n > 0
    ensures var belt := C.Initial(n);
            && |belt.plates| == n && CI.Inv(belt) && DishesOk(book, belt.plates) && belt.notified == {}
            && forall k :: 0 <= k < n ==> !belt.plates[k].occupied
  {
    CR.InitialKeeps(n);
    hide CI.Inv, C.IndexAfter;
  }

  // ------------------------------------------------------------------ conservation

  predicate StepOverwrites(s: State, e: Event) { e.RetrieveFrom? && Overwrites(s, e.position, e.callee) }

  ghost predicate RunOverwrites(s: State, events: seq<Event>)
    requires Inv(s) && AllAdmissible(s, events)
    decreases |events|
  {
    events != [] && (StepOverwrites(s, events[0]) || RunOverwrites(Next(s, events[0]), events[1..]))
  }

  lemma OverwrittenExactly(s: State, e: Event)
    requires Possible(s, e)
    ensures s.overwrittenDishes <= Step(s, e).overwrittenDishes
    ensures Step(s, e).overwrittenDishes == s.overwrittenDishes <==> !StepOverwrites(s, e)
  {
    hide HandleTimer, HandleFinish, HandleReconnect, HandleDeliverFrom, HandleRetrieveFrom, C.HandleNextRobot,
         R.HandoverReply;
    match e
    case RetrieveFrom(n, callee) => RetrievalOverwrites(s, n, callee);
    case DeliverFrom(k, callee, kitchen) => DeliveredOutside(s, k, callee, kitchen);
    case TimerFires => TimerOverwritesNothing(s);
    case Finish(env) => FinishOverwritesNothing(s, env);
    case Reconnect(env) => FinishOverwritesNothing(s, env);
    case _ =>
  }

  lemma RetrievalOverwrites(s: State, n: nat, callee: Option<nat>)
    requires Possible(s, RetrieveFrom(n, callee))
    ensures var s' := HandleRetrieveFrom(s, n, callee);
            && s.overwrittenDishes <= s'.overwrittenDishes
            && (s'.overwrittenDishes == s.overwrittenDishes <==> !Overwrites(s, n, callee))
  {
    hide R.HandoverReply, R.Step, C.Retrieve;
    if Overwrites(s, n, callee) {
      var gone := Overwritten(s, n, callee);
      assert |s.overwrittenDishes + gone| == |s.overwrittenDishes| + 1;
    }
  }

  lemma TimerOverwritesNothing(s: State)
    requires s.belt.plates != []
    ensures HandleTimer(s).overwrittenDishes == s.overwrittenDishes
  {
    hide C.Moved;
  }

  lemma FinishOverwritesNothing(s: State, env: C.Env)
    ensures HandleFinish(s, env).overwrittenDishes == HandleReconnect(s, env).overwrittenDishes == s.overwrittenDishes
  {
    hide C.RequestNextRobots;
  }

  lemma {:induction false} RunOverwritten(s: State, events: seq<Event>)
    requires Inv(s) && AllAdmissible(s, events)
    ensures s.overwrittenDishes <= Run(s, events).overwrittenDishes
    ensures Run(s, events).overwrittenDishes == s.overwrittenDishes <==> !RunOverwrites(s, events)
    decreases |events|
  {
    hide Inv, Admissible, Step, Possible, StepOverwrites;
    if events != [] {
      InvPossible(s, events[0]);
      OverwrittenExactly(s, events[0]);
      RunOverwritten(Next(s, events[0]), events[1..]);
      var a, b, c := s.overwrittenDishes, Next(s, events[0]).overwrittenDishes, Run(s, events).overwrittenDishes;
      if c == a {
        assert b <= a && a <= b;
        assert forall x :: b[x] == a[x];
        assert a == b;
      }
    }
  }

  lemma BalanceOf(s: State)
    requires Inv(s)
    ensures s.assignedDishes == AtRobots(s.robots) + OnPlates(s.belt.plates) + s.completedDishes + s.overwrittenDishes
  {
  }

  /** On every run of a plant that starts empty: the dishes that the kitchen assigned to robots are, recipe by recipe,
      those at the robots, on the plates, and completed, if and only if no dish was put on an occupied plate. */
  lemma DishesAreConserved(book: R.RecipeBook, n: nat, robots: seq<R.State>, events: seq<Event>)
    requires RI.WellFormed(book) && n > 0 && Started(book, n, robots)
    requires Inv(Initial(book, n, robots)) && AllAdmissible(Initial(book, n, robots), events)
    ensures var s := Run(Initial(book, n, robots), events);
            (s.assignedDishes == AtRobots(s.robots) + OnPlates(s.belt.plates) + s.completedDishes) <==>
              !RunOverwrites(Initial(book, n, robots), events)
  {
    var s0 := Initial(book, n, robots);
    var s := Run(s0, events);
    assert s0.overwrittenDishes == multiset{};
    hide Inv, AtRobots, OnPlates, AllAdmissible, Run, RunOverwrites, Initial;
    BalanceOf(s);
    RunOverwritten(s0, events);
    NothingLost(AtRobots(s.robots) + OnPlates(s.belt.plates) + s.completedDishes, s.overwrittenDishes);
  }

  lemma NothingLost(here: multiset<nat>, lost: multiset<nat>)
    ensures here + lost == here <==> lost == multiset{}
  {
    assert |here + lost| == |here| + |lost|;
    if lost != multiset{} { assert |lost| > 0; }
    assert here + multiset{} == here;
  }
}
