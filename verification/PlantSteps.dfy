/** Counting dishes in the plant. */
module PlantSteps {
  import R = Robot
  import RI = RobotInvariant
  import RR = RobotRuns
  import C = Conveyor
  import opened RobotFifo
  import opened Plant
  import opened PlantInvariant

  // ------------------------------------------------------------------ counting dishes

  lemma Regroup(a: multiset<nat>, b: multiset<nat>, c: multiset<nat>)
    ensures (a + b) + c == a + (b + c)
    ensures (a + b) + c == (a + c) + b
  {
  }

  /** A whole `x + rest` in which `rest` changes by as much as `gone` and `come` differ. */
  lemma Balance(x: multiset<nat>, rest: multiset<nat>, rest': multiset<nat>, gone: multiset<nat>, come: multiset<nat>)
    requires rest' + gone == rest + come
    ensures (x + rest') + gone == (x + rest) + come
  {
    Regroup(x, rest', gone);
    Regroup(x, rest, come);
  }

  lemma Exchange(all: multiset<nat>, all': multiset<nat>, one: multiset<nat>, one': multiset<nat>, gone: multiset<nat>,
                 come: multiset<nat>)
    requires all' + one == all + one' && gone + one' == one + come
    ensures all' + gone == all + come
  {
    assert (all' + gone) + one == (all + come) + one by {
      assert (all' + gone) + one == (all' + one) + gone == (all + one') + gone == all + (gone + one');
      assert all + (one + come) == (all + come) + one;
    }
    assert forall x ::
        (all' + gone)[x] + one[x] == ((all' + gone) + one)[x] && (all + come)[x] + one[x] == ((all + come) + one)[x];
  }

  lemma RecipesOfAppend(a: seq<Ticket>, b: seq<Ticket>)
    ensures RecipesOf(a + b) == RecipesOf(a) + RecipesOf(b)
  {
    assert RecipeList(a + b) == RecipeList(a) + RecipeList(b);
  }

  lemma {:induction false} RobotsUpdate(robots: seq<R.State>, i: nat, r: R.State)
    requires i < |robots|
    ensures AtRobots(robots[i := r]) + RecipesOf(Backlog(robots[i])) == AtRobots(robots) + RecipesOf(Backlog(r))
  {
    hide Backlog, RecipesOf;
    var changed := robots[i := r];
    if i == 0 {
      assert changed[1..] == robots[1..];
      Regroup(RecipesOf(Backlog(r)), AtRobots(robots[1..]), RecipesOf(Backlog(robots[0])));
      Regroup(RecipesOf(Backlog(robots[0])), AtRobots(robots[1..]), RecipesOf(Backlog(r)));
    } else {
      RobotsUpdate(robots[1..], i - 1, r);
      assert changed[1..] == robots[1..][i - 1 := r];
      Balance(RecipesOf(Backlog(robots[0])), AtRobots(robots[1..]), AtRobots(changed[1..]),
              RecipesOf(Backlog(robots[i])), RecipesOf(Backlog(r)));
    }
  }

  lemma {:induction false} PlatesUpdate(plates: seq<C.Plate>, k: nat, p: C.Plate)
    requires k < |plates|
    ensures OnPlates(plates[k := p]) + OnPlate(plates[k]) == OnPlates(plates) + OnPlate(p)
  {
    hide OnPlate;
    var changed := plates[k := p];
    if k == 0 {
      assert changed[1..] == plates[1..];
      Regroup(OnPlate(p), OnPlates(plates[1..]), OnPlate(plates[0]));
      Regroup(OnPlate(plates[0]), OnPlates(plates[1..]), OnPlate(p));
    } else {
      PlatesUpdate(plates[1..], k - 1, p);
      assert changed[1..] == plates[1..][k - 1 := p];
      Balance(OnPlate(plates[0]), OnPlates(plates[1..]), OnPlates(changed[1..]), OnPlate(plates[k]), OnPlate(p));
    }
  }

  lemma {:induction false} SameOnPlates(a: seq<C.Plate>, b: seq<C.Plate>)
    requires |a| == |b| && forall k :: 0 <= k < |a| ==> OnPlate(a[k]) == OnPlate(b[k])
    ensures OnPlates(a) == OnPlates(b)
  {
    hide OnPlate;
    if a != [] {
      assert forall k :: 0 <= k < |a[1..]| ==> a[1..][k] == a[k + 1] && b[1..][k] == b[k + 1];
      SameOnPlates(a[1..], b[1..]);
    }
  }

  lemma RobotBalance(book: R.RecipeBook, size: nat, r: R.State, e: R.Event)
    requires RobotOk(book, size, r) && (r.fault.NoFault? ==> R.Admissible(r, e))
    ensures RecipesOf(HandedOver(r, e)) + RecipesOf(Backlog(R.Step(r, e))) ==
            RecipesOf(Backlog(r)) + RecipesOf(Accepted(r, e))
  {
    hide RI.Inv, R.Step, R.Admissible, Backlog, HandedOver, Accepted, RecipesOf;
    if r.fault == R.Deadlocked {
      Hangs(r, e);
    } else {
      RR.NoFaultYet(r);
      StepBacklog(r, e);
      RecipesOfAppend(HandedOver(r, e), Backlog(R.Step(r, e)));
      RecipesOfAppend(Backlog(r), Accepted(r, e));
    }
  }

  /** What one robot's step does to all robots. */
  lemma RobotsStep(book: R.RecipeBook, size: nat, robots: seq<R.State>, i: nat, e: R.Event)
    requires RobotsOk(book, size, robots) && i < |robots| && (robots[i].fault.NoFault? ==> R.Admissible(robots[i], e))
    ensures RobotsOk(book, size, robots[i := R.Step(robots[i], e)])
    ensures AtRobots(robots[i := R.Step(robots[i], e)]) + RecipesOf(HandedOver(robots[i], e))
              == AtRobots(robots) + RecipesOf(Accepted(robots[i], e))
  {
    RobotStepKeeps(book, size, robots[i], e);
    RobotBalance(book, size, robots[i], e);
    RobotsUpdate(robots, i, R.Step(robots[i], e));
    hide RobotOk, R.Step, R.Admissible, Backlog, HandedOver, Accepted, RecipesOf, AtRobots;
    Exchange(AtRobots(robots), AtRobots(robots[i := R.Step(robots[i], e)]), RecipesOf(Backlog(robots[i])),
             RecipesOf(Backlog(R.Step(robots[i], e))), RecipesOf(HandedOver(robots[i], e)),
                 RecipesOf(Accepted(robots[i], e)));
  }
}
