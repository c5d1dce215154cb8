/** The states a robot that can only peel goes through while it prepares a dish and while it moves. */
module RobotJourney {
  import opened Basics
  import opened Recipes
  import R = Robot

  function Peel(): Action { Action("peel", PEELER, "", 1) }

  function Book(): R.RecipeBook { map[1 := [Peel()]] }

  /** The robot at a position with nothing to do. */
  function Free(at: nat): R.State { R.Initial(Book(), 3, at, {"peel"}, PEELER) }

  function Ordered(at: nat): R.State { Free(at).(tasks := [R.Task.ReceiveTask(1, 0)]) }

  function Peeling(at: nat): R.State
  {
    Free(at).(preparing := true, recipe := 1, inProcess := [Peel()], overallProcessing := 1, processable := 1,
              overallTime := 1, actionLeft := 1, timer := Some(R.PassingTime))
  }

  function Ready(at: nat): R.State
  {
    Free(at).(preparing := true, recipe := 1, overallProcessing := 1, processable := 1,
              overallProcessed := 1, processed := 1, finished := true, pickup := true)
  }

  function Emptied(at: nat): R.State { Free(at).(preparing := true, tasks := [R.CookNextOrder]) }

  function Sent(): R.State { Free(1).(mode := R.REARRANGING, available := false, tasks := [R.SwitchPosition(2)]) }

  function Underway(): R.State
  {
    Free(1).(mode := R.REARRANGING, available := false, target := 2, rearranging := true, timer := Some(R.Moving))
  }

  function Landed(): R.State
  {
    Free(2).(mode := R.REARRANGING, available := false, rearranging := true, commitPending := true)
  }

  lemma PeelCost()
    ensures PrefixLength({"peel"}, [Peel()]) == 1 && Prefix({"peel"}, [Peel()]) == [Peel()]
    ensures Cost(PEELER, [Peel()]) == 1 && LastTool(PEELER, [Peel()]) == PEELER
  {
    assert [Peel()][1..] == [] && [Peel()][..1] == [Peel()];
  }

  lemma TakesOrder(at: nat)
    ensures R.ReceiveTaskAccepts(Free(at), 1, 0, at)
    ensures R.Step(Free(at), R.ReceiveTaskEvent(1, 0, at)) == Ordered(at)
  {
    assert [] + [R.Task.ReceiveTask(1, 0)] == [R.Task.ReceiveTask(1, 0)];
  }

  lemma StartsPeeling(at: nat)
    ensures R.Step(Ordered(at), R.RunTask(PEELER)) == Peeling(at)
  {
    PeelCost();
    assert [R.Task.ReceiveTask(1, 0)][1..] == [];
    assert [Peel()][0..] == [Peel()];
    var order := R.Order(1, 0, 1, 1, [Peel()]);
    assert R.Enqueue(Free(at), 1, 0) == Free(at).(orders := [order], overallTime := 1, lastTool := PEELER) by {
      hide Cost, LastTool, Prefix, PrefixLength;
    }
    assert [order][1..] == [];
    hide R.Enqueue, Cost, LastTool, Prefix, PrefixLength;
    assert Ordered(at).(tasks := []) == Free(at);
  }

  lemma FinishesPeeling(at: nat)
    ensures var expired := Peeling(at).(timer := None, tasks := [R.Expired(R.PassingTime)]);
            R.Step(Peeling(at), R.TimerExpires) == expired && R.Step(expired, R.RunTask(PEELER)) == Ready(at)
  {
    assert [] + [R.Expired(R.PassingTime)] == [R.Expired(R.PassingTime)] && [R.Expired(R.PassingTime)][1..] == [];
    assert [Peel()][1..] == [];
  }

  lemma HandsOver(at: nat)
    ensures R.HandoverReply(Ready(at)) == R.Dish(at, 1, 1, true)
    ensures R.Step(Ready(at), R.HandoverEvent) == Emptied(at)
  {
    assert [] + [R.CookNextOrder] == [R.CookNextOrder];
  }

  lemma Rests(at: nat)
    ensures R.Step(Emptied(at), R.RunTask(PEELER)) == Free(at)
  {
    assert [R.CookNextOrder][1..] == [];
  }

  lemma Departs()
    ensures R.Step(Free(1), R.SwitchEvent(2)) == Sent()
    ensures R.Step(Sent(), R.RunTask(PEELER)) == Underway()
  {
    assert [] + [R.SwitchPosition(2)] == [R.SwitchPosition(2)] && [R.SwitchPosition(2)][1..] == [];
  }

  lemma Arrives()
    ensures var expired := Underway().(timer := None, tasks := [R.Expired(R.Moving)]);
            R.Step(Underway(), R.TimerExpires) == expired && R.Step(expired, R.RunTask(PEELER)) == Landed()
  {
    assert [] + [R.Expired(R.Moving)] == [R.Expired(R.Moving)] && [R.Expired(R.Moving)][1..] == [];
  }

  lemma CommitsMove()
    ensures var queued := Landed().(tasks := [R.CommitPosition]);
            && R.Admissible(Landed(), R.CommitEvent)
            && R.Step(Landed(), R.CommitEvent) == queued && R.Step(queued, R.RunTask(PEELER)) == Free(2)
  {
    assert [] + [R.CommitPosition] == [R.CommitPosition] && [R.CommitPosition][1..] == [];
  }
}
