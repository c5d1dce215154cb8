/** A run on which a dish is put on an occupied plate: the robot has sent its notification twice, and has moved before
    the conveyor handles the second one. */
module PlantLimits {
  import opened Basics
  import opened Recipes
  import R = Robot
  import RI = RobotInvariant
  import opened RobotJourney
  import C = Conveyor
  import CI = ConveyorInvariant
  import opened Plant
  import opened PlantInvariant
  import opened PlantRuns

  // ------------------------------------------------------------------ runs, step by step

  ghost predicate Reaches(s0: State, events: seq<Event>, s: State)
  {
    Inv(s0) && AllAdmissible(s0, events) && Run(s0, events) == s
  }

  lemma {:induction false} RunAppend(s0: State, events: seq<Event>, e: Event)
    requires Inv(s0) && AllAdmissible(s0, events) && Admissible(Run(s0, events), e)
    ensures AllAdmissible(s0, events + [e]) && Run(s0, events + [e]) == Next(Run(s0, events), e)
    ensures StepOverwrites(Run(s0, events), e) ==> RunOverwrites(s0, events + [e])
    decreases |events|
  {
    hide Inv, Admissible, Step, Possible, StepOverwrites;
    if events == [] {
      assert [] + [e] == [e] && [e][1..] == [];
      assert Run(Next(s0, e), []) == Next(s0, e);
    } else {
      RunAppend(Next(s0, events[0]), events[1..], e);
      assert (events + [e])[1..] == events[1..] + [e];
    }
  }

  lemma Extend(s0: State, events: seq<Event>, s: State, e: Event, s': State)
    requires Reaches(s0, events, s) && Admissible(s, e) && (Possible(s, e) ==> Step(s, e) == s')
    ensures Reaches(s0, events + [e], s')
  {
    hide Inv, Admissible, Step, Possible;
    RunAppend(s0, events, e);
  }

  // ------------------------------------------------------------------ the plant

  function Site(r: R.State, belt: C.State, work: Work, notices: seq<Notice>, filed: map<nat, nat>,
                orders: multiset<nat>): State
  {
    State(Book(), [r], belt, work, notices, filed, orders, multiset{}, multiset{})
  }

  function Empty(at: nat): C.Plate { C.Plate(at, 0, 0, 0, false, false) }

  function Dish(at: nat): C.Plate { C.Plate(at, 1, 1, 0, true, true) }

  function Standing(middle: C.Plate, occupied: set<nat>, notified: set<nat>, timer: Option<C.Timer>): C.State
  {
    C.State([Empty(0), middle, Empty(2)], map[0 := 0, 1 := 1, 2 := 2], occupied, notified, [], true, timer, C.Fine)
  }

  /** After one move: the dish is in front of position 2. */
  function Turned(): C.State
  {
    C.State([Empty(1), Dish(2), Empty(0)], map[0 := 2, 1 := 0, 2 := 1], {1}, {1}, [], true, None, C.Fine)
  }

  function Quiet(): C.Env { C.Env(n => None, i => true, i => C.Unreachable, false, [0, 1, 2], [0, 1, 2]) }

  lemma QuietCovers()
    ensures CI.Covers(Quiet().plateOrder, 3)
  {
    var order := [0, 1, 2];
    assert order[0] == 0 && order[1] == 1 && order[2] == 2;
    assert forall i :: 0 <= i < 3 ==> order[i] in order;
  }

  /** A robot's own step that neither starts nor ends a wait for a pickup. */
  lemma Goes(s0: State, events: seq<Event>, r: R.State, belt: C.State, work: Work, notices: seq<Notice>,
             filed: map<nat, nat>,
             orders: multiset<nat>, e: R.Event, r': R.State) returns (more: seq<Event>)
    requires Reaches(s0, events, Site(r, belt, work, notices, filed, orders))
    requires R.Step(r, e) == r' && R.Admissible(r, e) && !e.ReceiveTaskEvent? && !e.HandoverEvent?
    requires (r.pickup || !r'.pickup)
    ensures Reaches(s0, more, Site(r', belt, work, notices, filed, orders))
  {
    more := events + [Own(0, e)];
    var s, s' := Site(r, belt, work, notices, filed, orders), Site(r', belt, work, notices, filed, orders);
    assert s.robots == [r] && s' == s.(robots := [r']);
    hide *;
    GoesStep(s, s', r, e, r');
    Extend(s0, events, s, Own(0, e), s');
  }

  lemma GoesStep(s: State, s': State, r: R.State, e: R.Event, r': R.State)
    requires s.robots == [r] && s' == s.(robots := [r'])
    requires R.Step(r, e) == r' && R.Admissible(r, e) && !e.ReceiveTaskEvent? && !e.HandoverEvent?
    requires (r.pickup || !r'.pickup)
    ensures Admissible(s, Own(0, e)) && Step(s, Own(0, e)) == s'
  {
    assert s.robots[0 := r'] == [r'];
    hide R.Step, R.Admissible;
  }

  /** A dish gets ready. */
  lemma Notifies(s0: State, events: seq<Event>, r: R.State, belt: C.State, work: Work, notices: seq<Notice>,
                 filed: map<nat, nat>,
                 orders: multiset<nat>, e: R.Event, r': R.State) returns (more: seq<Event>)
    requires Reaches(s0, events, Site(r, belt, work, notices, filed, orders))
    requires R.Step(r, e) == r' && R.Admissible(r, e) && !e.ReceiveTaskEvent? && !e.HandoverEvent? && !r.pickup
    requires r'.pickup
    ensures Reaches(s0, more, Site(r', belt, work, notices + [Notice(0, r'.position)], filed, orders))
  {
    more := events + [Own(0, e)];
    var s, s' := Site(r, belt, work, notices, filed, orders),
        Site(r', belt, work, notices + [Notice(0, r'.position)], filed, orders);
    assert s.robots[0 := r'] == [r'];
    assert Admissible(s, Own(0, e)) by { hide R.Admissible; }
    assert HandleOwn(s, 0, e) == s' by { hide R.Step; }
    hide Reaches, R.Step, Admissible;
    Extend(s0, events, s, Own(0, e), s');
  }

  lemma Orders(s0: State, events: seq<Event>, at: nat, belt: C.State, work: Work, notices: seq<Notice>,
               filed: map<nat, nat>,
               orders: multiset<nat>) returns (more: seq<Event>)
    requires Reaches(s0, events, Site(Free(at), belt, work, notices, filed, orders))
    ensures Reaches(s0, more, Site(Ordered(at), belt, work, notices, filed, orders + multiset{1}))
  {
    var e := PlaceOrder(0, 1, at);
    more := events + [e];
    var s, s' := Site(Free(at), belt, work, notices, filed, orders),
        Site(Ordered(at), belt, work, notices, filed, orders + multiset{1});
    OrderStep(s, at);
    assert s' == s.(robots := [Ordered(at)], assignedDishes := orders + multiset{1}) by { hide Free, Ordered; }
    hide *;
    Extend(s0, events, s, e, s');
  }

  lemma OrderStep(s: State, at: nat)
    requires s.robots == [Free(at)] && s.recipes == Book()
    ensures Admissible(s, PlaceOrder(0, 1, at))
    ensures Step(s, PlaceOrder(0, 1, at)) ==
            s.(robots := [Ordered(at)], assignedDishes := s.assignedDishes + multiset{1})
  {
    TakesOrder(at);
    assert Takes(Free(at), 1, 0, at) by { hide R.ReceiveTaskAccepts; }
    hide R.Step, Takes, Free, Ordered;
    assert s.robots[0 := Ordered(at)] == [Ordered(at)];
  }

  /** From an order to a dish that waits. */
  lemma Peels(s0: State, events: seq<Event>, at: nat, belt: C.State, work: Work, notices: seq<Notice>,
              filed: map<nat, nat>,
              orders: multiset<nat>) returns (more: seq<Event>)
    requires Reaches(s0, events, Site(Free(at), belt, work, notices, filed, orders))
    ensures Reaches(s0, more, Site(Ready(at), belt, work, notices + [Notice(0, at)], filed, orders + multiset{1}))
  {
    var expired := Peeling(at).(timer := None, tasks := [R.Expired(R.PassingTime)]);
    StartsPeeling(at);
    FinishesPeeling(at);
    assert !Peeling(at).pickup && !expired.pickup && Ready(at).pickup && Ready(at).position == at;
    hide Reaches, R.Step, Free, Ordered, Peeling, Ready, Site;
    more := Orders(s0, events, at, belt, work, notices, filed, orders);
    more := Goes(s0, more, Ordered(at), belt, work, notices, filed, orders + multiset{1}, R.RunTask(PEELER),
        Peeling(at));
    more := Goes(s0, more, Peeling(at), belt, work, notices, filed, orders + multiset{1}, R.TimerExpires, expired);
    more := Notifies(s0, more, expired, belt, work, notices, filed, orders + multiset{1}, R.RunTask(PEELER), Ready(at));
  }

  lemma Repeats(s0: State, events: seq<Event>, belt: C.State, work: Work, notices: seq<Notice>, filed: map<nat, nat>,
                orders: multiset<nat>) returns (more: seq<Event>)
    requires Reaches(s0, events, Site(Ready(1), belt, work, notices, filed, orders))
    ensures Reaches(s0, more, Site(Ready(1), belt, work, notices + [Notice(0, 1)], filed, orders))
  {
    var s, s' := Site(Ready(1), belt, work, notices, filed, orders),
        Site(Ready(1), belt, work, notices + [Notice(0, 1)], filed, orders);
    more := events + [Renotify(0)];
    assert Step(s, Renotify(0)) == s' && Admissible(s, Renotify(0));
    hide Reaches, Step, Admissible;
    Extend(s0, events, s, Renotify(0), s');
  }

  // ------------------------------------------------------------------ the belt

  /** The first notification is handled, and the dish is fetched. */
  lemma Fetched(s0: State, events: seq<Event>, orders: multiset<nat>) returns (more: seq<Event>)
    requires Reaches(s0, events, Site(Ready(1), C.Initial(3), AtRest, [Notice(0, 1), Notice(0, 1)], map[], orders))
    ensures Reaches(s0, more,
            Site(Emptied(1), Standing(Dish(1), {1}, {}, Some(C.Movement)), AtRest, [Notice(0, 1)], map[1 := 0], orders))
  {
    var both, one := [Notice(0, 1), Notice(0, 1)], [Notice(0, 1)];
    var s1 := Site(Ready(1), C.Initial(3), AtRest, both, map[], orders);
    var s2 := Site(Ready(1), Standing(Empty(1), {}, {1}, Some(C.Debounce)), AtRest, one, map[1 := 0], orders);
    var s3 := Site(Ready(1), Standing(Empty(1), {}, {1}, None), Retrieving({1}), one, map[1 := 0], orders);
    var s4 := Site(Emptied(1), Standing(Dish(1), {1}, {}, None), Retrieving({}), one, map[1 := 0], orders);
    var s5 := Site(Emptied(1), Standing(Dish(1), {1}, {}, Some(C.Movement)), AtRest, one, map[1 := 0], orders);
    FirstNotice(s1, s2);
    DebounceFires(s2, s3);
    DishFetched(s3, s4);
    NobodyAsked(s4, s5);
    hide *;
    Extend(s0, events, s1, HandleNotice(true), s2);
    Extend(s0, events + [HandleNotice(true)], s2, TimerFires, s3);
    Extend(s0, events + [HandleNotice(true)] + [TimerFires], s3, RetrieveFrom(1, Some(0)), s4);
    more := events + [HandleNotice(true)] + [TimerFires] + [RetrieveFrom(1, Some(0))] + [Finish(Quiet())];
    Extend(s0, events + [HandleNotice(true)] + [TimerFires] + [RetrieveFrom(1, Some(0))], s4, Finish(Quiet()), s5);
  }

  lemma EmptyBelt()
    ensures C.Initial(3) ==
            C.State([Empty(0), Empty(1), Empty(2)], map[0 := 0, 1 := 1, 2 := 2], {}, {}, [], false, None, C.Fine)
  {
    var plates := [Empty(0), Empty(1), Empty(2)];
    assert C.Initial(3).plates == plates;
    assert C.IndexAfter(map[], plates, 0) == map[];
    assert C.IndexAfter(map[], plates, 1) == map[0 := 0];
    assert C.IndexAfter(map[], plates, 2) == map[0 := 0, 1 := 1];
    assert C.IndexAfter(map[], plates, 3) == map[0 := 0, 1 := 1, 2 := 2];
  }

  lemma FirstNotice(s: State, s': State)
    requires var r, orders := s.robots, s.assignedDishes;
             |r| == 1 && s == Site(r[0], C.Initial(3), AtRest, [Notice(0, 1), Notice(0, 1)], map[], orders)
             && s' == Site(r[0], Standing(Empty(1), {}, {1}, Some(C.Debounce)), AtRest, [Notice(0, 1)], map[1 := 0],
                orders)
    ensures Admissible(s, HandleNotice(true)) && Step(s, HandleNotice(true)) == s'
  {
    EmptyBelt();
    assert {} + {1} == {1};
    assert [Notice(0, 1), Notice(0, 1)][1..] == [Notice(0, 1)];
  }

  lemma DebounceFires(s: State, s': State)
    requires var r, orders := s.robots, s.assignedDishes;
             |r| == 1 && s ==
                 Site(r[0], Standing(Empty(1), {}, {1}, Some(C.Debounce)), AtRest, [Notice(0, 1)], map[1 := 0], orders)
             && s' == Site(r[0], Standing(Empty(1), {}, {1}, None), Retrieving({1}), [Notice(0, 1)], map[1 := 0],
                orders)
    ensures Admissible(s, TimerFires) && Step(s, TimerFires) == s'
  {
  }

  lemma DishFetched(s: State, s': State)
    requires s == Site(Ready(1), Standing(Empty(1), {}, {1}, None), Retrieving({1}), [Notice(0, 1)], map[1 := 0],
             s.assignedDishes)
    requires s' == Site(Emptied(1), Standing(Dish(1), {1}, {}, None), Retrieving({}), [Notice(0, 1)], map[1 := 0],
             s.assignedDishes)
    ensures Admissible(s, RetrieveFrom(1, Some(0))) && Possible(s, RetrieveFrom(1, Some(0)))
    ensures Step(s, RetrieveFrom(1, Some(0))) == s'
  {
    HandsOver(1);
    assert s.robots[0].fault.NoFault?;
    hide R.Step, Ready, Emptied, R.HandoverReply;
    var belt := s.belt;
    assert {1} - {1} == {} && {} + {1} == {1};
    assert s.robots[0 := Emptied(1)] == [Emptied(1)];
    assert belt.plates[1 := Dish(1)] == [Empty(0), Dish(1), Empty(2)];
    assert Fetches(s, 1, Some(0)) && !Overwrites(s, 1, Some(0));
    assert C.Retrieve(belt, 1, Some(R.Dish(1, 1, 1, true))) == Standing(Dish(1), {1}, {}, None);
    var nothing: multiset<nat> := multiset{};
    assert nothing + nothing == nothing;
  }

  lemma NobodyAsked(s: State, s': State)
    requires var r, orders := s.robots, s.assignedDishes;
             |r| == 1 && s ==
                 Site(r[0], Standing(Dish(1), {1}, {}, None), Retrieving({}), [Notice(0, 1)], map[1 := 0], orders)
             && s' == Site(r[0], Standing(Dish(1), {1}, {}, Some(C.Movement)), AtRest, [Notice(0, 1)], map[1 := 0],
                orders)
    ensures Admissible(s, Finish(Quiet())) && Step(s, Finish(Quiet())) == s'
  {
    QuietCovers();
    var c, e := s.belt, Quiet();
    assert [0, 1, 2][1..] == [1, 2] && [1, 2][1..] == [2] && [2][1..] == [];
    assert C.Asking(c, [], e.requested) == [];
    assert C.Asking(c, [2], e.requested) == [];
    assert C.Asking(c, [1, 2], e.requested) == [];
    assert C.Asking(c, [0, 1, 2], e.requested) == [];
    hide C.Asking, CI.Covers;
  }

  /** The belt moves; the notification that was sent twice has been filed by then. */
  lemma SecondNotice(s: State, s': State)
    requires var r, orders := s.robots, s.assignedDishes;
             |r| == 1 && s ==
                 Site(r[0], Standing(Dish(1), {1}, {}, Some(C.Movement)), AtRest, [Notice(0, 1)], map[1 := 0], orders)
             && s' == Site(r[0], Standing(Dish(1), {1}, {1}, Some(C.Movement)), AtRest, [], map[1 := 0], orders)
    ensures Admissible(s, HandleNotice(true)) && Step(s, HandleNotice(true)) == s'
  {
    assert {} + {1} == {1};
    assert map[1 := 0][1 := 0] == map[1 := 0];
    assert [Notice(0, 1)][1..] == [];
  }

  lemma BeltTurns(s: State, s': State)
    requires var r, orders := s.robots, s.assignedDishes;
             |r| == 1 && s ==
                 Site(r[0], Standing(Dish(1), {1}, {1}, Some(C.Movement)), AtRest, [Notice(0, 2)], map[1 := 0], orders)
             && s' == Site(r[0], Turned(), Delivering({1}), [Notice(0, 2)], map[1 := 0], orders)
    ensures Admissible(s, TimerFires) && Step(s, TimerFires) == s'
  {
    var c := s.belt.(timer := None);
    var plates := [Empty(1), Dish(2), Empty(0)];
    assert C.Moved(c, 1).plates == plates;
    var i0 := map[0 := 0, 1 := 1, 2 := 2];
    assert C.IndexAfter(i0, plates, 0) == i0;
    assert C.IndexAfter(i0, plates, 1) == i0[1 := 0];
    assert C.IndexAfter(i0, plates, 2) == i0[1 := 0][2 := 1];
    assert C.IndexAfter(i0, plates, 3) == i0[1 := 0][2 := 1][0 := 2] == map[0 := 2, 1 := 0, 2 := 1];
    assert C.Moved(c, 1) == Turned();
  }

  lemma NothingDelivered(s: State, s1: State, s2: State)
    requires var r, orders := s.robots, s.assignedDishes;
             |r| == 1 && s == Site(r[0], Turned(), Delivering({1}), [Notice(0, 2)], map[1 := 0], orders)
             && s1 == Site(r[0], Turned(), Delivering({}), [Notice(0, 2)], map[1 := 0], orders)
             && s2 == Site(r[0], Turned(), Retrieving({1}), [Notice(0, 2)], map[1 := 0], orders)
    ensures Admissible(s, DeliverFrom(1, None, false)) && Step(s, DeliverFrom(1, None, false)) == s1
    ensures Admissible(s1, Finish(Quiet())) && Step(s1, Finish(Quiet())) == s2
  {
    QuietCovers();
    assert {1} - {1} == {};
    var c := s.belt;
    assert c.plates[1 := Dish(2)] == c.plates;
    assert DeliverOne(c, 1, C.Unreachable, false) == c;
    var nothing: multiset<nat> := multiset{};
    assert nothing + nothing == nothing;
  }

  lemma Replaced(s: State)
    requires s == Site(Ready(2), Turned(), Retrieving({1}), [Notice(0, 2)], map[1 := 0], s.assignedDishes)
    ensures Admissible(s, RetrieveFrom(1, Some(0))) && StepOverwrites(s, RetrieveFrom(1, Some(0)))
  {
    HandsOver(2);
    assert s.robots[0].fault.NoFault?;
    hide R.Step, Ready, R.HandoverReply;
  }

  lemma SetsOut(s0: State, events: seq<Event>, belt: C.State, filed: map<nat, nat>, orders: multiset<nat>)
    returns (more: seq<Event>)
    requires Reaches(s0, events, Site(Emptied(1), belt, AtRest, [], filed, orders))
    ensures Reaches(s0, more, Site(Underway(), belt, AtRest, [], filed, orders))
  {
    Rests(1);
    Departs();
    NobodyWaits();
    hide *;
    more := Goes(s0, events, Emptied(1), belt, AtRest, [], filed, orders, R.RunTask(PEELER), Free(1));
    more := Goes(s0, more, Free(1), belt, AtRest, [], filed, orders, R.SwitchEvent(2), Sent());
    more := Goes(s0, more, Sent(), belt, AtRest, [], filed, orders, R.RunTask(PEELER), Underway());
  }

  lemma SettlesDown(s0: State, events: seq<Event>, belt: C.State, filed: map<nat, nat>, orders: multiset<nat>)
    returns (more: seq<Event>)
    requires Reaches(s0, events, Site(Underway(), belt, AtRest, [], filed, orders))
    ensures Reaches(s0, more, Site(Free(2), belt, AtRest, [], filed, orders))
  {
    var moving, queued := Underway().(timer := None, tasks := [R.Expired(R.Moving)]),
        Landed().(tasks := [R.CommitPosition]);
    Arrives();
    CommitsMove();
    NobodyWaits();
    hide *;
    more := Goes(s0, events, Underway(), belt, AtRest, [], filed, orders, R.TimerExpires, moving);
    more := Goes(s0, more, moving, belt, AtRest, [], filed, orders, R.RunTask(PEELER), Landed());
    more := Goes(s0, more, Landed(), belt, AtRest, [], filed, orders, R.CommitEvent, queued);
    more := Goes(s0, more, queued, belt, AtRest, [], filed, orders, R.RunTask(PEELER), Free(2));
  }

  /** The robot rests, goes to position 2, and prepares another dish there. */
  lemma MovesOn(s0: State, events: seq<Event>, belt: C.State, filed: map<nat, nat>, orders: multiset<nat>)
    returns (more: seq<Event>)
    requires Reaches(s0, events, Site(Emptied(1), belt, AtRest, [], filed, orders))
    ensures Reaches(s0, more, Site(Ready(2), belt, AtRest, [Notice(0, 2)], filed, orders + multiset{1}))
  {
    hide *;
    more := SetsOut(s0, events, belt, filed, orders);
    more := SettlesDown(s0, more, belt, filed, orders);
    more := Peels(s0, more, 2, belt, AtRest, [], filed, orders);
    assert [] + [Notice(0, 2)] == [Notice(0, 2)];
  }

  lemma NobodyWaits()
    ensures !Free(1).pickup && !Sent().pickup && !Underway().pickup && !Landed().pickup && !Free(2).pickup
    ensures !Underway().(timer := None, tasks := [R.Expired(R.Moving)]).pickup
    ensures !Landed().(tasks := [R.CommitPosition]).pickup
    ensures forall r ::
            R.Admissible(r, R.RunTask(PEELER)) && R.Admissible(r, R.TimerExpires) && R.Admissible(r, R.SwitchEvent(2))
  {
  }

  lemma TwiceNotified(s0: State, events: seq<Event>, orders: multiset<nat>) returns (more: seq<Event>)
    requires Reaches(s0, events, Site(Free(1), C.Initial(3), AtRest, [], map[], orders))
    ensures Reaches(s0, more,
            Site(Ready(1), C.Initial(3), AtRest, [Notice(0, 1), Notice(0, 1)], map[], orders + multiset{1}))
  {
    hide *;
    var none: seq<Notice> := [];
    assert none + [Notice(0, 1)] == [Notice(0, 1)];
    assert [Notice(0, 1)] + [Notice(0, 1)] == [Notice(0, 1), Notice(0, 1)];
    more := Peels(s0, events, 1, C.Initial(3), AtRest, none, map[], orders);
    more := Repeats(s0, more, C.Initial(3), AtRest, [Notice(0, 1)], map[], orders + multiset{1});
  }

  lemma FetchedAndFiled(s0: State, events: seq<Event>, orders: multiset<nat>) returns (more: seq<Event>)
    requires Reaches(s0, events, Site(Ready(1), C.Initial(3), AtRest, [Notice(0, 1), Notice(0, 1)], map[], orders))
    ensures Reaches(s0, more,
            Site(Emptied(1), Standing(Dish(1), {1}, {1}, Some(C.Movement)), AtRest, [], map[1 := 0], orders))
  {
    var s1 := Site(Emptied(1), Standing(Dish(1), {1}, {}, Some(C.Movement)), AtRest, [Notice(0, 1)], map[1 := 0],
        orders);
    var s2 := Site(Emptied(1), Standing(Dish(1), {1}, {1}, Some(C.Movement)), AtRest, [], map[1 := 0], orders);
    SecondNotice(s1, s2);
    hide *;
    more := Fetched(s0, events, orders);
    Extend(s0, more, s1, HandleNotice(true), s2);
    more := more + [HandleNotice(true)];
  }

  lemma TurnsAndFetches(s0: State, events: seq<Event>, orders: multiset<nat>) returns (more: seq<Event>)
    requires Reaches(s0, events,
             Site(Ready(2), Standing(Dish(1), {1}, {1}, Some(C.Movement)), AtRest, [Notice(0, 2)], map[1 := 0], orders))
    ensures Inv(s0) && AllAdmissible(s0, more) && RunOverwrites(s0, more)
  {
    var s3 := Site(Ready(2), Standing(Dish(1), {1}, {1}, Some(C.Movement)), AtRest, [Notice(0, 2)], map[1 := 0],
        orders);
    var s4 := Site(Ready(2), Turned(), Delivering({1}), [Notice(0, 2)], map[1 := 0], orders);
    var s5 := Site(Ready(2), Turned(), Delivering({}), [Notice(0, 2)], map[1 := 0], orders);
    var s6 := Site(Ready(2), Turned(), Retrieving({1}), [Notice(0, 2)], map[1 := 0], orders);
    BeltTurns(s3, s4);
    NothingDelivered(s4, s5, s6);
    Replaced(s6);
    hide *;
    Extend(s0, events, s3, TimerFires, s4);
    more := events + [TimerFires];
    Extend(s0, more, s4, DeliverFrom(1, None, false), s5);
    more := more + [DeliverFrom(1, None, false)];
    Extend(s0, more, s5, Finish(Quiet()), s6);
    more := more + [Finish(Quiet())];
    LastStep(s0, more, s6);
    more := more + [RetrieveFrom(1, Some(0))];
  }

  /** With one robot and three plates: a run from the start that ends with a dish being put on another one. */
  lemma OverwritingRun(s0: State) returns (events: seq<Event>)
    requires s0 == Initial(Book(), 3, [Free(1)])
    ensures RI.WellFormed(Book()) && Started(Book(), 3, [Free(1)])
    ensures Inv(s0) && AllAdmissible(s0, events) && RunOverwrites(s0, events)
  {
    FirstState(s0);
    hide *;
    var none: multiset<nat> := multiset{};
    var one := none + multiset{1};
    events := TwiceNotified(s0, [], none);
    events := FetchedAndFiled(s0, events, one);
    events := MovesOn(s0, events, Standing(Dish(1), {1}, {1}, Some(C.Movement)), map[1 := 0], one);
    events := TurnsAndFetches(s0, events, one + multiset{1});
  }

  lemma LastStep(s0: State, events: seq<Event>, s: State)
    requires Reaches(s0, events, s) && Admissible(s, RetrieveFrom(1, Some(0)))
    requires StepOverwrites(s, RetrieveFrom(1, Some(0)))
    ensures Inv(s0) && AllAdmissible(s0, events + [RetrieveFrom(1, Some(0))])
    ensures RunOverwrites(s0, events + [RetrieveFrom(1, Some(0))])
  {
    hide Inv, Admissible, Step, Possible, StepOverwrites;
    RunAppend(s0, events, RetrieveFrom(1, Some(0)));
  }

  lemma FirstState(s0: State)
    requires s0 == Initial(Book(), 3, [Free(1)])
    ensures RI.WellFormed(Book()) && Started(Book(), 3, [Free(1)])
    ensures s0 == Site(Free(1), C.Initial(3), AtRest, [], map[], multiset{}) && Reaches(s0, [], s0)
  {
    assert RI.WellFormed(Book());
    assert Started(Book(), 3, [Free(1)]);
    hide RI.WellFormed, Started, Free, Book, Inv, C.Initial;
    InitialKeeps(Book(), 3, [Free(1)]);
  }
}
