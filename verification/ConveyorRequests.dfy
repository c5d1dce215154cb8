/** The conveyor's requests for the next robot and the controller's answers to them. The controller answers one request
    after the other; the conveyor compares the recipe in an answer with the dish of its oldest request. */
module ConveyorRequests {
  import opened Basics
  import R = Robot
  import opened Conveyor
  import opened ConveyorInvariant
  import opened ConveyorSteps
  import opened ConveyorRuns

  /** `asked` holds the recipes that were sent with the requests the controller has not answered yet. */
  datatype Line = Line(belt: State, asked: seq<nat>)

  datatype Move =
    | Notified(position: nat, connects: bool)
    | Fires(env: Env)
    | Answers(robot: nat, known: bool)
    | Reconnects(env: Env, forgotten: bool)   // whether the requests made before have been forgotten

  /** The recipes that go out with the requests, one for each position that is appended to the queue. */
  function Sent(plates: seq<Plate>, occupied: set<nat>, order: seq<nat>, requested: nat -> bool): seq<nat>
  {
    if order == [] then []
    else
      var i := order[0];
      (if i in occupied && i < |plates| && !plates[i].done && plates[i].target == 0 && requested(i)
          then [plates[i].recipe] else [])
        + Sent(plates, occupied, order[1..], requested)
  }

  function SentBy(c: State, e: Env): seq<nat> { Sent(c.plates, c.occupied, e.plateOrder, e.requested) }

  /** What the belt sees of a move. */
  function Seen(l: Line, m: Move): Event
  {
    match m
    case Notified(position, connects) => Notification(position, connects)
    case Fires(env) => TimerFires(env)
    case Answers(robot, known) => NextRobot(robot, known, if l.asked == [] then 0 else l.asked[0])
    case Reconnects(env, _) => Reconnect(env)
  }

  ghost predicate Allowed(l: Line, m: Move)
  {
    Admissible(l.belt, Seen(l, m)) && (m.Answers? ==> l.asked != [])
  }

  /** The requests made at a step carry the recipes that are on the plates then. */
  ghost function NextLine(l: Line, m: Move): (l': Line)
    requires Inv(l.belt) && Allowed(l, m)
    ensures Inv(l'.belt) && l'.belt == Next(l.belt, Seen(l, m))
  {
    var belt := Next(l.belt, Seen(l, m));
    match m
    case Notified(_, _) => Line(belt, l.asked)
    case Fires(env) => Line(belt, if l.belt.timer.Some? then l.asked + SentBy(belt, env) else l.asked)
    case Answers(_, _) => Line(belt, l.asked[1..])
    case Reconnects(env, forgotten) =>
      var before := if forgotten then [] else l.asked;
      Line(belt, if l.belt.moving && l.belt.queue != [] then before + SentBy(belt, env) else before)
  }

  /** The recipe that an answer to the oldest request is compared with, and the same for all requests. */
  function Expected(c: State, queue: seq<nat>): seq<nat>
  {
    if queue == [] then []
    else [if OnBelt(c, queue[0]) then c.plates[c.index[queue[0]]].recipe else 0] + Expected(c, queue[1..])
  }

  /** The branch in which the conveyor rejects an answer. */
  predicate Mismatches(l: Line, m: Move)
  {
    m.Answers? && l.asked != [] && l.belt.queue != [] && Expected(l.belt, l.belt.queue)[0] != l.asked[0]
  }

  // ------------------------------------------------------------------ what is sent is what is expected

  lemma {:induction false} SentIsExpected(c: State, order: seq<nat>, requested: nat -> bool)
    requires Rotation(c.plates, c.index)
    ensures Expected(c, Asking(c, order, requested)) == Sent(c.plates, c.occupied, order, requested)
  {
    if order != [] {
      var i, rest := order[0], Asking(c, order[1..], requested);
      SentIsExpected(c, order[1..], requested);
      if Undecided(c, i) && requested(i) {
        PlateAt(c, i);
        var q := [c.plates[i].position] + rest;
        assert q[1..] == rest;
        assert Asking(c, order, requested) == q;
      } else {
        assert Asking(c, order, requested) == [] + rest == rest;
        assert [] + Expected(c, rest) == Expected(c, rest);
      }
    }
  }

  /** Dishes that were asked about do not change while they are. */
  lemma {:induction false} SameExpected(c: State, c': State, queue: seq<nat>)
    requires c'.index == c.index && |c'.plates| == |c.plates|
    requires forall i :: 0 <= i < |c.plates| ==> c'.plates[i].recipe == c.plates[i].recipe
    ensures Expected(c', queue) == Expected(c, queue)
  {
    if queue != [] { SameExpected(c, c', queue[1..]); }
  }

  /** The requests that a step with new requests leaves outstanding are exactly those that were sent. */
  lemma FreshRequests(c: State, e: Env)
    requires Resting(c) && Covers(e.plateOrder, |c.plates|)
    ensures var c' := RequestNextRobots(c, e); Expected(c', c'.queue) == SentBy(c', e)
  {
    var q, c' := Asking(c, e.plateOrder, e.requested), RequestNextRobots(c, e);
    RequestQueue(c, e);
    SentIsExpected(c, e.plateOrder, e.requested);
    assert c'.plates == c.plates && c'.index == c.index && c'.occupied == c.occupied by { hide Asking; }
    hide Resting, Asking, RequestNextRobots, Sent, Covers;
    SameExpected(c, c', q);
  }

  lemma DetermineRequests(c: State, e: Env)
    requires Resting(c) && Genuine(e, c.plates) && Positions(c, e.positionOrder, e.handovers)
    ensures var c' := DetermineNextMovement(c, e); Expected(c', c'.queue) == SentBy(c', e)
  {
    if c.notified != {} {
      RetrievalRequests(c, e);
    } else if c.occupied != {} {
      GenuineCovers(e, c.plates);
      FreshRequests(c, e);
    } else {
      NothingSent(c.plates, c.occupied, e.plateOrder, e.requested);
    }
    hide Resting, Positions, RequestNextRobots, HandleRetrieval, Genuine;
  }

  lemma RetrievalRequests(c: State, e: Env)
    requires Resting(c) && Genuine(e, c.plates) && Positions(c, e.positionOrder, e.handovers)
    ensures var c' := HandleRetrieval(c, e); Expected(c', c'.queue) == SentBy(c', e)
  {
    GenuineCovers(e, c.plates);
    RetrieveAllKeeps(c, e.positionOrder, e.handovers);
    hide Resting, RetrieveAll, Positions, RequestNextRobots;
    FreshRequests(RetrieveAll(c, e.positionOrder, e.handovers), e);
  }

  lemma {:induction false} NothingSent(plates: seq<Plate>, occupied: set<nat>, order: seq<nat>, requested: nat -> bool)
    requires occupied == {}
    ensures Sent(plates, occupied, order, requested) == []
  {
    if order != [] { NothingSent(plates, occupied, order[1..], requested); }
  }

  lemma MovementRequests(c: State, e: Env)
    requires Inv(c) && Admissible(c, TimerFires(e)) && c.timer == Some(Movement)
    ensures var c' := Next(c, TimerFires(e)); Expected(c', c'.queue) == SentBy(c', e)
  {
    MoveStep(c, TimerFires(e));
    var d := Deliver(Moved(c, 1).(timer := None), e);
    DeliverKeeps(Moved(c, 1).(timer := None), e);
    SameGenuine(e, Moved(c, 1).plates, d.plates);
    DetermineRequests(d, e);
    hide Resting, Positions, DetermineNextMovement, Genuine, Deliver, Moved, Inv, Rotation;
  }

  lemma DebounceRequests(c: State, e: Env)
    requires Inv(c) && Admissible(c, TimerFires(e)) && c.timer == Some(Debounce)
    ensures var c' := Next(c, TimerFires(e)); Expected(c', c'.queue) == SentBy(c', e)
  {
    InvPossible(c, TimerFires(e));
    var c1 := c.(timer := None);
    SameBelt(c, c1, e);
    RetrievalRequests(c1, e);
    hide Positions, HandleRetrieval, Genuine, Rotation, PlatesOk;
  }

  lemma FiresRequests(c: State, e: Env)
    requires Inv(c) && Admissible(c, TimerFires(e)) && c.timer.Some?
    ensures var c' := Next(c, TimerFires(e)); Expected(c', c'.queue) == SentBy(c', e)
  {
    hide Inv, Admissible;
    match c.timer.value
    case Movement => MovementRequests(c, e);
    case Debounce => DebounceRequests(c, e);
  }

  lemma ReconnectRequests(c: State, e: Env)
    requires Inv(c) && Admissible(c, Reconnect(e)) && c.moving && c.queue != []
    ensures var c' := Next(c, Reconnect(e)); Expected(c', c'.queue) == SentBy(c', e)
  {
    InvPossible(c, Reconnect(e));
    var c1 := c.(queue := []);
    SameBelt(c, c1, e);
    DetermineRequests(c1, e);
    hide Positions, DetermineNextMovement, Genuine, Rotation, PlatesOk;
  }

  // ------------------------------------------------------------------ answers that match

  /** The controller is about to answer exactly the requests that the conveyor waits for. */
  predicate Matched(l: Line) { l.asked == Expected(l.belt, l.belt.queue) }

  lemma NotifiedQuiet(c: State, position: nat, connects: bool)
    requires Inv(c) && Admissible(c, Notification(position, connects))
    ensures var c' := Next(c, Notification(position, connects));
            c'.queue == c.queue && Expected(c', c'.queue) == Expected(c, c.queue)
  {
    var c' := Next(c, Notification(position, connects));
    hide Inv;
    assert c'.queue == c.queue && c'.plates == c.plates && c'.index == c.index;
    SameExpected(c, c', c.queue);
  }

  /** An answer removes the oldest request if it carries the expected recipe, and is ignored otherwise. */
  lemma AnswerTaken(c: State, robot: nat, known: bool, recipe: nat)
    requires Inv(c)
    ensures var c', expected := Next(c, NextRobot(robot, known, recipe)), Expected(c, c.queue);
            if c.queue != [] && recipe == expected[0] then
              c'.queue == c.queue[1..] && Expected(c', c'.queue) == expected[1..]
            else c' == c
  {
    var e := NextRobot(robot, known, recipe);
    InvPossible(c, e);
    var c' := Next(c, e);
    hide Rotation, PlatesOk;
    if c.queue != [] {
      assert OnBelt(c, c.queue[0]);
      assert Expected(c, c.queue)[1..] == Expected(c, c.queue[1..]);
      if recipe == Expected(c, c.queue)[0] { SameExpected(c, c', c.queue[1..]); }
    }
  }

  lemma NobodyWaits(c: State)
    requires Inv(c) && c.timer.Some?
    ensures c.queue == []
  {
    hide Rotation, PlatesOk;
  }

  /** Requests made before are only answered after a reconnection if there are none, or they are forgotten. */
  predicate Clean(l: Line, m: Move) { m.Reconnects? ==> m.forgotten || l.asked == [] }

  lemma MatchedStep(l: Line, m: Move)
    requires Inv(l.belt) && Allowed(l, m) && Matched(l) && Clean(l, m)
    ensures Matched(NextLine(l, m)) && !Mismatches(l, m)
  {
    hide Inv, Admissible, Sent;
    match m
    case Notified(position, connects) => NotifiedQuiet(l.belt, position, connects);
    case Answers(robot, known) => AnswerTaken(l.belt, robot, known, l.asked[0]);
    case Fires(env) =>
      if l.belt.timer.Some? {
        NobodyWaits(l.belt);
        FiresRequests(l.belt, env);
        assert [] + SentBy(NextLine(l, m).belt, env) == SentBy(NextLine(l, m).belt, env);
      } else {
        FiresNothing(l.belt, env);
      }
    case Reconnects(env, forgotten) =>
      if l.belt.moving && l.belt.queue != [] {
        ReconnectRequests(l.belt, env);
        assert [] + SentBy(NextLine(l, m).belt, env) == SentBy(NextLine(l, m).belt, env);
      } else {
        ReconnectNothing(l.belt, env);
      }
  }

  lemma FiresNothing(c: State, e: Env)
    requires Inv(c) && Admissible(c, TimerFires(e)) && c.timer.None?
    ensures Next(c, TimerFires(e)) == c
  {
    InvPossible(c, TimerFires(e));
    hide Inv, Genuine;
  }

  lemma ReconnectNothing(c: State, e: Env)
    requires Inv(c) && Admissible(c, Reconnect(e)) && !(c.moving && c.queue != [])
    ensures Next(c, Reconnect(e)) == c && c.queue == []
  {
    InvPossible(c, Reconnect(e));
    hide Rotation, PlatesOk, Genuine;
  }

  ghost predicate AllAllowed(l: Line, moves: seq<Move>)
    requires Inv(l.belt)
    decreases |moves|
  {
    moves == [] || (Allowed(l, moves[0]) && AllAllowed(NextLine(l, moves[0]), moves[1..]))
  }

  ghost predicate AllClean(l: Line, moves: seq<Move>)
    requires Inv(l.belt) && AllAllowed(l, moves)
    decreases |moves|
  {
    moves == [] || (Clean(l, moves[0]) && AllClean(NextLine(l, moves[0]), moves[1..]))
  }

  ghost predicate SomeMismatch(l: Line, moves: seq<Move>)
    requires Inv(l.belt) && AllAllowed(l, moves)
    decreases |moves|
  {
    moves != [] && (Mismatches(l, moves[0]) || SomeMismatch(NextLine(l, moves[0]), moves[1..]))
  }

  lemma InitiallyMatched(n: nat)
    requires n > 0
    ensures Inv(Initial(n)) && Matched(Line(Initial(n), []))
  {
    InitialKeeps(n);
    hide Inv;
  }

  // ------------------------------------------------------------------ answers to forgotten requests

  /** The elements of `a` occur in `b`, in this order. */
  predicate Within(a: seq<nat>, b: seq<nat>)
    decreases |b|
  {
    a == [] || (b != [] && (if a[0] == b[0] then Within(a[1..], b[1..]) else Within(a, b[1..])))
  }

  lemma {:induction false} WithinItself(a: seq<nat>)
    ensures Within(a, a)
  {
    if a != [] { WithinItself(a[1..]); }
  }

  lemma {:induction false} DropFirst(a: seq<nat>, b: seq<nat>)
    requires a != [] && Within(a, b)
    ensures Within(a[1..], b)
    decreases |b|, 0
  {
    if a[0] == b[0] {
      LaterWithin(a[1..], b[0], b[1..]);
      assert [b[0]] + b[1..] == b;
    } else {
      DropFirst(a, b[1..]);
      LaterWithin(a[1..], b[0], b[1..]);
      assert [b[0]] + b[1..] == b;
    }
  }

  lemma {:induction false} LaterWithin(a: seq<nat>, x: nat, b: seq<nat>)
    requires Within(a, b)
    ensures Within(a, [x] + b)
    decreases |b|, 1
  {
    assert ([x] + b)[1..] == b;
    if a != [] && a[0] == x { DropFirst(a, b); }
  }

  lemma {:induction false} AfterOthers(before: seq<nat>, a: seq<nat>)
    ensures Within(a, before + a)
  {
    if before == [] {
      WithinItself(a);
      assert before + a == a;
    } else {
      AfterOthers(before[1..], a);
      LaterWithin(a, before[0], before[1..] + a);
      assert [before[0]] + (before[1..] + a) == before + a;
    }
  }

  /** Whatever the controller still has to answer, the answers to the outstanding requests are among it, in order. */
  predicate Answerable(l: Line) { Within(Expected(l.belt, l.belt.queue), l.asked) }

  lemma AnswerableStep(l: Line, m: Move)
    requires Inv(l.belt) && Allowed(l, m) && Answerable(l)
    ensures Answerable(NextLine(l, m))
  {
    hide Inv, Admissible, Sent;
    match m
    case Notified(position, connects) => NotifiedQuiet(l.belt, position, connects);
    case Answers(robot, known) => AnswerTaken(l.belt, robot, known, l.asked[0]);
    case Fires(env) =>
      if l.belt.timer.Some? {
        NobodyWaits(l.belt);
        FiresRequests(l.belt, env);
        AfterOthers(l.asked, SentBy(NextLine(l, m).belt, env));
      } else {
        FiresNothing(l.belt, env);
      }
    case Reconnects(env, forgotten) =>
      var before := if forgotten then [] else l.asked;
      if l.belt.moving && l.belt.queue != [] {
        ReconnectRequests(l.belt, env);
        AfterOthers(before, SentBy(NextLine(l, m).belt, env));
      } else {
        ReconnectNothing(l.belt, env);
      }
  }

  ghost function RunLine(l: Line, moves: seq<Move>): (l': Line)
    requires Inv(l.belt) && AllAllowed(l, moves)
    ensures Inv(l'.belt)
    decreases |moves|
  {
    if moves == [] then l else RunLine(NextLine(l, moves[0]), moves[1..])
  }

  /** On every run, also when requests made before a reconnection are answered after it, the belt cannot stall: once
      the controller has answered everything it was asked, no request is outstanding, and a conveyor that moves has its
      timer armed. */
  lemma {:induction false} NeverStalls(l: Line, moves: seq<Move>)
    requires Inv(l.belt) && Answerable(l) && AllAllowed(l, moves)
    ensures var l' := RunLine(l, moves);
            Answerable(l') && (l'.asked == [] ==> l'.belt.queue == [] && (l'.belt.moving ==> l'.belt.timer.Some?))
    decreases |moves|
  {
    if moves == [] {
      hide Rotation, PlatesOk;
    } else {
      AnswerableStep(l, moves[0]);
      hide Inv, Allowed, NextLine, Answerable;
      NeverStalls(NextLine(l, moves[0]), moves[1..]);
    }
  }

  // ------------------------------------------------------------------ when no answer is rejected

  /** The answers that come next are to the outstanding requests, one by one. */
  predicate Fits(l: Line) { Expected(l.belt, l.belt.queue) <= l.asked }

  /** A round of requests is made. */
  predicate Opens(l: Line, m: Move)
  {
    (m.Fires? && l.belt.timer.Some?) || (m.Reconnects? && l.belt.moving && l.belt.queue != [])
  }

  /** A round of which an answer would still be rejected is given up at a reconnection. */
  predicate GivesUp(l: Line, m: Move) { m.Reconnects? && Opens(l, m) && !Fits(l) }

  ghost predicate SomeGivenUp(l: Line, moves: seq<Move>)
    requires Inv(l.belt) && AllAllowed(l, moves)
    decreases |moves|
  {
    moves != [] && (GivesUp(l, moves[0]) || SomeGivenUp(NextLine(l, moves[0]), moves[1..]))
  }

  /** Every round of requests that is made fits the answers to come. */
  ghost predicate AllFit(l: Line, moves: seq<Move>)
    requires Inv(l.belt) && AllAllowed(l, moves)
    decreases |moves|
  {
    moves == [] ||
    ((Opens(l, moves[0]) ==> Fits(NextLine(l, moves[0]))) && AllFit(NextLine(l, moves[0]), moves[1..]))
  }

  lemma PrefixTail(a: seq<nat>, b: seq<nat>)
    requires a != [] && b != [] && a[0] == b[0]
    ensures a <= b <==> a[1..] <= b[1..]
  {
    if a[1..] <= b[1..] {
      assert forall k :: 1 <= k < |a| ==> a[k] == a[1..][k - 1] && b[k] == b[1..][k - 1];
    }
  }

  /** Between rounds, an answer that is not rejected leaves it open whether the rest will be. */
  lemma FitsStep(l: Line, m: Move)
    requires Inv(l.belt) && Allowed(l, m) && !Opens(l, m)
    ensures Fits(l) ==> !Mismatches(l, m)
    ensures !Mismatches(l, m) ==> (Fits(NextLine(l, m)) <==> Fits(l))
  {
    hide Inv, Admissible, Sent;
    match m
    case Notified(position, connects) => NotifiedQuiet(l.belt, position, connects);
    case Fires(env) => FiresNothing(l.belt, env);
    case Reconnects(env, _) => ReconnectNothing(l.belt, env);
    case Answers(robot, known) =>
      AnswerTaken(l.belt, robot, known, l.asked[0]);
      var e := Expected(l.belt, l.belt.queue);
      if l.belt.queue != [] && e[0] == l.asked[0] { PrefixTail(e, l.asked); }
  }

  /** Where a round begins the timer has expired, or a round is given up. */
  lemma FitsOpening(l: Line, m: Move)
    requires Inv(l.belt) && Allowed(l, m) && Opens(l, m)
    ensures !Mismatches(l, m) && (!GivesUp(l, m) ==> Fits(l))
  {
    if m.Fires? { NobodyWaits(l.belt); }
    hide Inv, Admissible;
  }

  lemma FittingKept(l: Line, m: Move)
    requires Fits(l)
    ensures !GivesUp(l, m)
  {
  }

  /** On every run, reconnections and late answers included: every round of requests fits the answers to come if and
      only if no answer is rejected and no round that does not fit is given up or left unanswered. */
  lemma {:induction false} AnswersMatchExactly(l: Line, moves: seq<Move>)
    requires Inv(l.belt) && Fits(l) && AllAllowed(l, moves)
    ensures AllFit(l, moves) <==>
              !SomeMismatch(l, moves) && !SomeGivenUp(l, moves) && Fits(RunLine(l, moves))
    decreases |moves|
  {
    hide Inv, Allowed, Fits, Mismatches, NextLine, GivesUp, Opens;
    if moves != [] {
      var l', rest := NextLine(l, moves[0]), moves[1..];
      if Opens(l, moves[0]) { FitsOpening(l, moves[0]); } else { FitsStep(l, moves[0]); }
      FittingKept(l, moves[0]);
      if Fits(l') { AnswersMatchExactly(l', rest); } else { Misfit(l', rest); }
    }
  }

  /** A round that does not fit ends with a rejected answer, or it is given up or left unanswered. */
  lemma {:induction false} Misfit(l: Line, moves: seq<Move>)
    requires Inv(l.belt) && !Fits(l) && AllAllowed(l, moves)
    ensures SomeMismatch(l, moves) || SomeGivenUp(l, moves) || !Fits(RunLine(l, moves))
    decreases |moves|
  {
    hide Inv, Allowed, Fits, Mismatches, NextLine, GivesUp, Opens;
    if moves != [] {
      if Opens(l, moves[0]) {
        FitsOpening(l, moves[0]);
      } else {
        FitsStep(l, moves[0]);
        if !Mismatches(l, moves[0]) { Misfit(NextLine(l, moves[0]), moves[1..]); }
      }
    }
  }

  /** The controller answers everything it has been asked, while robots may notify the conveyor. */
  predicate Answering(moves: seq<Move>, n: nat)
    decreases |moves|
  {
    if moves == [] then n == 0
    else if moves[0].Notified? then Answering(moves[1..], n)
    else moves[0].Answers? && n > 0 && Answering(moves[1..], n - 1)
  }

  /** While everything that has been asked is answered: no answer is rejected if and only if the answers begin with
      those to the outstanding requests. */
  lemma {:induction false} RoundMatchesExactly(l: Line, moves: seq<Move>)
    requires Inv(l.belt) && Answerable(l) && AllAllowed(l, moves) && Answering(moves, |l.asked|)
    ensures !SomeMismatch(l, moves) <==> Fits(l)
    decreases |moves|
  {
    if moves == [] {
      assert l.asked == [];
    } else {
      AnswerableStep(l, moves[0]);
      FitsStep(l, moves[0]);
      RoundSize(l, moves);
      hide Inv, Allowed, NextLine, Answerable, Fits, Mismatches;
      RoundMatchesExactly(NextLine(l, moves[0]), moves[1..]);
      if Mismatches(l, moves[0]) { assert !Fits(l); }
    }
  }

  lemma RoundSize(l: Line, moves: seq<Move>)
    requires Inv(l.belt) && AllAllowed(l, moves) && Answering(moves, |l.asked|) && moves != []
    ensures Answering(moves[1..], |NextLine(l, moves[0]).asked|) && !Opens(l, moves[0])
  {
    hide Inv, Admissible, Sent;
  }

  /** After a reconnection with requests outstanding, the old ones still being answered: no answer is rejected if and
      only if the recipes that are sent now are what the answers to the old requests, followed by those to the new
      ones, begin with. */
  lemma ReconnectionMatchesExactly(l: Line, env: Env, moves: seq<Move>)
    requires Inv(l.belt) && Answerable(l) && Allowed(l, Reconnects(env, false)) && l.belt.moving && l.belt.queue != []
    requires var l' := NextLine(l, Reconnects(env, false)); AllAllowed(l', moves) && Answering(moves, |l'.asked|)
    ensures var l' := NextLine(l, Reconnects(env, false));
            var sent := SentBy(l'.belt, env);
            && l'.asked == l.asked + sent && Expected(l'.belt, l'.belt.queue) == sent
            && (!SomeMismatch(l', moves) <==> sent <= l.asked + sent)
  {
    var m := Reconnects(env, false);
    AnswerableStep(l, m);
    ReconnectRequests(l.belt, env);
    RoundMatchesExactly(NextLine(l, m), moves);
    hide Inv, Admissible, Sent, Expected, Answerable;
  }

  /** Runs on which no request is answered that was made before a reconnection: every round fits. */
  lemma {:induction false} CleanRunsFit(l: Line, moves: seq<Move>)
    requires Inv(l.belt) && Matched(l) && AllAllowed(l, moves) && AllClean(l, moves)
    ensures AllFit(l, moves) && !SomeMismatch(l, moves)
    decreases |moves|
  {
    hide Inv, Allowed, Clean, Mismatches, NextLine, Opens;
    if moves != [] {
      MatchedStep(l, moves[0]);
      CleanRunsFit(NextLine(l, moves[0]), moves[1..]);
    }
  }

  // ------------------------------------------------------------------ an answer that is rejected

  /** Robots at positions 1 and 2 hand over an unfinished dish each, of recipes 1 and 2; every request is taken. */
  function TwoDishes(): Env
  {
    Env(n => if n == 1 || n == 2 then Some(R.Dish(n, n, 1, false))
        else None, i => true, i => Unreachable, false, [0, 1, 2], [0, 1, 2])
  }

  /** A belt of three plates with the two dishes, and what it waits for. */
  function Carrying(queue: seq<nat>): State
  {
    State([Plate(0, 0, 0, 0, false, false), Plate(1, 1, 1, 0, true, false), Plate(2, 2, 1, 0, true, false)],
          map[0 := 0, 1 := 1, 2 := 2], {1, 2}, {}, queue, true, None, Fine)
  }

  function Awaiting(notified: set<nat>): State
  {
    State([Plate(0, 0, 0, 0, false, false), Plate(1, 0, 0, 0, false, false), Plate(2, 0, 0, 0, false, false)],
          map[0 := 0, 1 := 1, 2 := 2], {}, notified, [], true, Some(Debounce), Fine)
  }

  lemma TwoNotifications()
    ensures var c := Initial(3);
            && Step(c, Notification(1, true)) == Awaiting({1})
            && Step(Awaiting({1}), Notification(2, true)) == Awaiting({1, 2})
  {
    var plates := [Plate(0, 0, 0, 0, false, false), Plate(1, 0, 0, 0, false, false), Plate(2, 0, 0, 0, false, false)];
    assert Initial(3).plates == plates;
    assert IndexAfter(map[], plates, 0) == map[];
    assert IndexAfter(map[], plates, 1) == map[0 := 0];
    assert IndexAfter(map[], plates, 2) == map[0 := 0, 1 := 1];
    assert IndexAfter(map[], plates, 3) == map[0 := 0, 1 := 1, 2 := 2];
    assert {} + {1} == {1} && {1} + {2} == {1, 2};
  }

  lemma BothFetched()
    ensures Possible(Awaiting({1, 2}), TimerFires(TwoDishes()))
    ensures Step(Awaiting({1, 2}), TimerFires(TwoDishes())) == Carrying([1, 2])
  {
    var e, c := TwoDishes(), Awaiting({1, 2}).(timer := None);
    assert Positions(c, [0, 1, 2], e.handovers);
    assert [0, 1, 2][1..] == [1, 2] && [1, 2][1..] == [2] && [2][1..] == [];
    var c1 := Retrieve(c, 1, e.handovers(1));
    assert {1, 2} - {1} == {2};
    assert c1.notified == {2} && c1.occupied == {1};
    var c2 := Retrieve(c1, 2, e.handovers(2));
    assert c2 == Carrying([]);
    assert Positions(c2, [], e.handovers);
    assert RetrieveAll(c2, [], e.handovers) == c2;
    assert RetrieveAll(c1, [2], e.handovers) == c2;
    assert RetrieveAll(c, [1, 2], e.handovers) == c2;
    assert Retrieve(c, 0, e.handovers(0)) == c;
    assert RetrieveAll(c, [0, 1, 2], e.handovers) == c2;
    BothAsked();
  }

  lemma BothAsked()
    ensures RequestNextRobots(Carrying([]), TwoDishes()) == Carrying([1, 2])
    ensures SentBy(Carrying([1, 2]), TwoDishes()) == [1, 2]
  {
    var e, c := TwoDishes(), Carrying([]);
    assert [0, 1, 2][1..] == [1, 2] && [1, 2][1..] == [2] && [2][1..] == [];
    assert Asking(c, [], e.requested) == [];
    assert Asking(c, [2], e.requested) == [2];
    assert Asking(c, [1, 2], e.requested) == [1] + [2] == [1, 2];
    assert Asking(c, [0, 1, 2], e.requested) == [] + [1, 2] == [1, 2];
    assert Sent(c.plates, c.occupied, [], e.requested) == [];
    assert Sent(c.plates, c.occupied, [2], e.requested) == [2];
    assert Sent(c.plates, c.occupied, [1, 2], e.requested) == [1] + [2] == [1, 2];
    assert Sent(c.plates, c.occupied, [0, 1, 2], e.requested) == [] + [1, 2] == [1, 2];
    assert [] + [1, 2] == [1, 2];
  }

  lemma TwoDishesAllowed(c: State)
    requires |c.plates| == 3
    ensures Admissible(c, TimerFires(TwoDishes())) && Admissible(c, Reconnect(TwoDishes()))
  {
    var order := [0, 1, 2];
    assert order[0] == 0 && order[1] == 1 && order[2] == 2;
    assert forall i :: 0 <= i < 3 ==> order[i] in order;
    assert Covers(order, 3);
  }

  lemma FirstUnknown()
    ensures Step(Carrying([1, 2]), NextRobot(0, false, 1)) == Carrying([2])
  {
    assert [1, 2][1..] == [2];
  }

  lemma TwoPositions(c: State)
    requires |c.plates| == 3 && c.index == map[0 := 0, 1 := 1, 2 := 2]
    ensures var e := TwoDishes(); Positions(c, e.positionOrder, e.handovers)
  {
  }

  lemma AskedAgain()
    ensures Possible(Carrying([2]), Reconnect(TwoDishes()))
    ensures Step(Carrying([2]), Reconnect(TwoDishes())) == Carrying([1, 2])
  {
    BothAsked();
    TwoPositions(Carrying([2]));
    TwoPositions(Carrying([]));
    CarryingShape();
    hide RequestNextRobots, TwoDishes, Positions, Carrying;
  }

  lemma CarryingShape()
    ensures forall queue :: var c := Carrying(queue);
              && c.moving && c.queue == queue && c.notified == {} && c.occupied != {} && c.timer.None?
              && c.(queue := []) == Carrying([])
    ensures OnBelt(Carrying([2]), 2)
  {
    assert 1 in Carrying([]).occupied;
  }

  function LateAnswer(): seq<Move>
  {
    [Notified(1, true), Notified(2, true), Fires(TwoDishes()), Answers(0, false), Reconnects(TwoDishes(), false),
        Answers(0, false)]
  }

  /** An answer that was asked for before a reconnection can be rejected: the controller knows no robot for the first of
      two dishes, the conveyor reconnects and asks for both again, and the late answer is about the second one. */
  lemma LateAnswerMismatches(l0: Line, m: seq<Move>)
    requires l0 == Line(Initial(3), []) && m == LateAnswer()
    ensures Inv(l0.belt) && Matched(l0) && AllAllowed(l0, m) && SomeMismatch(l0, m)
  {
    hide *;
    InitiallyMatched(3);
    LateMoves(m);
    var l1, l2, l3 := Line(Awaiting({1}), []), Line(Awaiting({1, 2}), []), Line(Carrying([1, 2]), [1, 2]);
    var l4, l5 := Line(Carrying([2]), [2]), Line(Carrying([1, 2]), [2, 1, 2]);
    LateStart();
    LateFetch(l2);
    LateReconnect(l3, l4);
    LateRun(m, l0, l1, l2, l3, l4, l5);
  }

  lemma LateMoves(m: seq<Move>)
    requires m == LateAnswer()
    ensures |m| == 6 && m[0] == Notified(1, true) && m[1] == Notified(2, true) && m[2] == Fires(TwoDishes())
    ensures m[3] == m[5] == Answers(0, false) && m[4] == Reconnects(TwoDishes(), false)
  {
    hide TwoDishes;
  }

  lemma LateStart()
    requires Inv(Initial(3))
    ensures var l0, l1, l2 := Line(Initial(3), []), Line(Awaiting({1}), []), Line(Awaiting({1, 2}), []);
            && Allowed(l0, Notified(1, true)) && NextLine(l0, Notified(1, true)) == l1 && Inv(l1.belt)
            && Allowed(l1, Notified(2, true)) && NextLine(l1, Notified(2, true)) == l2 && Inv(l2.belt)
  {
    SmallPositions();
    TwoNotifications();
    hide Inv, Step, Initial, Admissible, Possible, Awaiting;
    assert Inv(NextLine(Line(Initial(3), []), Notified(1, true)).belt);
  }

  lemma LateFetch(l: Line)
    requires Inv(l.belt) && l == Line(Awaiting({1, 2}), [])
    ensures Allowed(l, Fires(TwoDishes())) && NextLine(l, Fires(TwoDishes())) == Line(Carrying([1, 2]), [1, 2])
    ensures Inv(Carrying([1, 2]))
  {
    BothFetched();
    BothAsked();
    TwoDishesAllowed(l.belt);
    assert l.belt.timer.Some?;
    hide Inv, Step, TwoDishes, SentBy, Admissible, Possible, Carrying, Awaiting;
    assert [] + [1, 2] == [1, 2];
    assert Inv(NextLine(l, Fires(TwoDishes())).belt);
  }

  lemma LateReconnect(l3: Line, l4: Line)
    requires Inv(l3.belt) && l3 == Line(Carrying([1, 2]), [1, 2]) && l4 == Line(Carrying([2]), [2])
    ensures Allowed(l3, Answers(0, false)) && NextLine(l3, Answers(0, false)) == l4 && Inv(l4.belt)
    ensures Allowed(l4, Reconnects(TwoDishes(), false))
    ensures NextLine(l4, Reconnects(TwoDishes(), false)) == Line(Carrying([1, 2]), [2, 1, 2])
    ensures var l5 := Line(Carrying([1, 2]), [2, 1, 2]);
            Allowed(l5, Answers(0, false)) && Mismatches(l5, Answers(0, false))
  {
    FirstUnknown();
    AskedAgain();
    BothAsked();
    TwoDishesAllowed(l4.belt);
    AnswersAdmissible();
    Shapes();
    hide Inv, Step, TwoDishes, SentBy, Admissible, Possible, Carrying;
    assert [1, 2][1..] == [2] && [2] + [1, 2] == [2, 1, 2];
    assert Inv(NextLine(l3, Answers(0, false)).belt);
  }

  lemma SmallPositions()
    ensures Admissible(Initial(3), Notification(1, true)) && Admissible(Awaiting({1}), Notification(2, true))
  {
  }

  lemma AnswersAdmissible()
    ensures forall c, robot, known, recipe :: Admissible(c, NextRobot(robot, known, recipe))
  {
  }

  lemma Shapes()
    ensures Awaiting({1, 2}).timer.Some? && Carrying([2]).moving && Carrying([2]).queue != []
    ensures |Awaiting({1, 2}).plates| == |Carrying([2]).plates| == 3
    ensures Carrying([1, 2]).queue == [1, 2] && Expected(Carrying([1, 2]), [1, 2])[0] == 1
  {
  }

  lemma LateRun(m: seq<Move>, l0: Line, l1: Line, l2: Line, l3: Line, l4: Line, l5: Line)
    requires |m| == 6
    requires Inv(l0.belt) && Allowed(l0, m[0]) && NextLine(l0, m[0]) == l1
    requires Allowed(l1, m[1]) && NextLine(l1, m[1]) == l2
    requires Allowed(l2, m[2]) && NextLine(l2, m[2]) == l3
    requires Allowed(l3, m[3]) && NextLine(l3, m[3]) == l4
    requires Allowed(l4, m[4]) && NextLine(l4, m[4]) == l5
    requires Allowed(l5, m[5]) && Mismatches(l5, m[5])
    ensures AllAllowed(l0, m) && SomeMismatch(l0, m)
  {
    hide Inv, Allowed, NextLine, Mismatches;
    assert m[1..][1..] == m[2..] && m[2..][1..] == m[3..] && m[3..][1..] == m[4..] && m[4..][1..] == m[5..] &&
        m[5..][1..] == [];
    assert AllAllowed(l5, m[5..]) && SomeMismatch(l5, m[5..]);
    assert AllAllowed(l4, m[4..]) && SomeMismatch(l4, m[4..]);
    assert AllAllowed(l3, m[3..]) && SomeMismatch(l3, m[3..]);
    assert AllAllowed(l2, m[2..]) && SomeMismatch(l2, m[2..]);
    assert AllAllowed(l1, m[1..]) && SomeMismatch(l1, m[1..]);
  }
}
