/** Every step of the swap protocol keeps its invariant, and what the invariant means. */
module SwapTheorems {
  import opened Basics
  import R = Robot
  import opened RobotInvariant
  import opened RobotRuns
  import opened RobotLegs
  import opened Controller
  import opened SwapProtocol
  import opened SwapSteps
  import opened SwapRequests
  import opened SwapCompletion

  lemma CallbackKeeps(w: World, firstLost: bool, secondLost: bool)
    requires WorldInv(w) && Linked(w.ctrl.robots, w.robots)
    ensures WorldInv(CallbackStep(w, firstLost, secondLost))
  {
    hide WorldInv;
    if w.callbacks != [] {
      if w.callbacks[0].Swapped? {
        SwappedKeeps(w, firstLost, secondLost);
      } else {
        ReconfiguredKeeps(w, firstLost, secondLost);
      }
    } else {
      assert CallbackStep(w, firstLost, secondLost) == w;
    }
  }

  lemma StepKeeps(w: World, e: Event)
    requires WorldInv(w) && Linked(w.ctrl.robots, w.robots) && Admissible(w, e)
    ensures WorldInv(Step(w, e))
  {
    hide WorldInv, NotifyPositionStep, NotifyCapabilitiesStep, RegisterStep, SwapStep, ReconfigureStep, CallbackStep,
         R.Step, RemoveStopped, EraseStale, LegOf, InQueue, Deadlocks, R.Admissible;
    match e
    case RobotEvent(id, event) => RobotKeeps(w, id, event);
    case NotifyPosition(p) => NotifyPositionKeeps(w, p);
    case NotifyCapabilities(p) => NotifyCapabilitiesKeeps(w, p);
    case Lose(p) => if p in w.ctrl.robots { MarkStoppedKeeps(w, p); }
    case Register(id, connects, readLost, commitLost) =>
      if w.ctrl.running { RegisterKeeps(w, id, connects, readLost, commitLost); }
    case SwapRequest(from, to, l) => if w.ctrl.running { SwapKeeps(w, from, to, l); }
    case ReconfigureRequest(p, caps, readLost, callLost) =>
      if w.ctrl.running { ReconfigureKeeps(w, p, caps, readLost, callLost); }
    case Housekeeping => if w.ctrl.running { HousekeepingKeeps(w); }
    case HandleCallback(firstLost, secondLost) => if w.ctrl.running { CallbackKeeps(w, firstLost, secondLost); }
  }

  // ------------------------------------------------------------------ safety

  function Body(w: World, p: nat): R.State
    requires Linked(w.ctrl.robots, w.robots) && p in w.ctrl.robots
  {
    w.robots[w.ctrl.robots[p].id]
  }

  predicate AwaitsCommit(s: R.State) { LegOf(s).Arrived? }

  /** A registered robot that does not await a commit is where it is filed. */
  lemma FiledWhereItIs(w: World, p: nat)
    requires WorldInv(w) && Linked(w.ctrl.robots, w.robots) && p in w.ctrl.robots && !AwaitsCommit(Body(w, p))
    ensures Body(w, p).position == p
  {
    if Swapping(w.ctrl.swaps, p) {
      var k := SwapOf(w.ctrl.swaps, p);
      SideOf(w, k, p);
    } else {
      FreeOf(w, p);
    }
    hide WorldInv, Inv, LegOf, InQueue, Acked, Partner;
  }

  /** A registered robot accepts only tasks that are addressed to the position where it is filed. */
  lemma TakesWhereFiled(w: World, p: nat, recipe: nat, steps: nat, addressed: nat)
    requires WorldInv(w) && Linked(w.ctrl.robots, w.robots) && p in w.ctrl.robots
    requires R.ReceiveTaskAccepts(Body(w, p), recipe, steps, addressed)
    ensures addressed == p
  {
    BodyOf(w, w.ctrl.robots[p].id);
    assert LegOf(Body(w, p)).Settled?;
    FiledWhereItIs(w, p);
    hide WorldInv, Inv;
  }

  /** A robot in order that is neither on the move nor reconfiguring. A commit may be on its way to it, or lost with
      the connection. */
  ghost predicate Dependable(r: Remote, s: R.State)
  {
    Inv(s) && (LegOf(s).Settled? || LegOf(s).Committing? || (LegOf(s).Arrived? && r.stopped))
  }

  /** Whatever the policy picks: a position that is handed out is where the robot really is, the robot can be depended
      on, and it is not part of a swap. */
  ghost predicate HandsOutReal(c: Ctrl, robots: seq<R.State>)
    requires Linked(c.robots, robots)
  {
    forall pick :: NextRobotReply(c, pick) != 0 ==>
      && pick in c.robots && NextRobotReply(c, pick) == pick == robots[c.robots[pick].id].position
      && Dependable(c.robots[pick], robots[c.robots[pick].id]) && !Swapping(c.swaps, pick)
  }

  lemma HandedOutNow(w: World)
    requires WorldInv(w) && Linked(w.ctrl.robots, w.robots)
    ensures HandsOutReal(w.ctrl, w.robots)
  {
    hide WorldInv, Swapping, Inv, LegOf;
    forall pick | NextRobotReply(w.ctrl, pick) != 0
      ensures pick in w.ctrl.robots && NextRobotReply(w.ctrl, pick) == pick == Body(w, pick).position
      ensures Dependable(w.ctrl.robots[pick], Body(w, pick)) && !Swapping(w.ctrl.swaps, pick)
    {
      Unflagged(w, pick);
    }
  }

  /** Its reconfiguration is under way, or what came of it has not been handled. */
  predicate Changing(w: World, p: nat)
    requires Linked(w.ctrl.robots, w.robots) && p in w.ctrl.robots
  {
    LegOf(Body(w, p)).Refit? || w.ctrl.robots[p].caps != Body(w, p).caps || InQueue(w.callbacks, w.ctrl.robots[p].id)
  }

  /** A connected robot is handed out, at its position, exactly if it is not part of a swap and not being
      reconfigured. */
  lemma OfferedExactly(w: World, p: nat)
    requires WorldInv(w) && Linked(w.ctrl.robots, w.robots) && p in w.ctrl.robots && !w.ctrl.robots[p].stopped
    ensures NextRobotReply(w.ctrl, p) ==
              if !Swapping(w.ctrl.swaps, p) && !Changing(w, p) then Body(w, p).position else 0
  {
    if Swapping(w.ctrl.swaps, p) {
      var k := SwapOf(w.ctrl.swaps, p);
      SideOf(w, k, p);
      hide WorldInv, Inv, LegOf, InQueue, Partner;
    } else {
      FreeOf(w, p);
      hide WorldInv, BodyOk, LegOf, InQueue;
    }
  }

  lemma CountNow(w: World)
    requires WorldInv(w)
    ensures w.ctrl.registered == |w.ctrl.robots| % U32
  {
    hide Ids, Bodies, Ends, Frees, Queue, Disjoint;
  }

  /** Handling a notification either leaves every robot filed where it was or exchanges exactly the two
      robots of the swap it completes; no robot is overwritten. */
  lemma NotificationsOnlyExchange(w: World, firstLost: bool, secondLost: bool)
    requires WorldInv(w) && Linked(w.ctrl.robots, w.robots) && w.callbacks != [] && w.callbacks[0].Swapped?
    ensures var before, after := EraseStale(RemoveStopped(w.ctrl)), CallbackStep(w, firstLost, secondLost).ctrl;
            var cb := w.callbacks[0];
            var k := KeyOf(cb.from, cb.to);
            if CompletesSwap(before, cb.from, cb.to)
            then Exchanged(before.robots, after.robots, k.0, k.1) && after.swaps == before.swaps - {k}
            else after.robots == before.robots && after.swaps.Keys == before.swaps.Keys
  {
    hide WorldInv, RemoveStopped, EraseStale, KeyOf, Ack, CompleteSwap, Committed, EndOk, NoneStopped, Exchanged;
    var w1, cb := w.(ctrl := EraseStale(RemoveStopped(w.ctrl))), w.callbacks[0];
    Housekept(w);
    var k := HeadSwap(w1);
    AckKeeps(w1, k);
    var w2 := w1.(ctrl := w1.ctrl.(swaps := w1.ctrl.swaps[k := Ack(w1.ctrl.swaps[k], k, cb.from)]),
        callbacks := w.callbacks[1..]);
    if CompletesSwap(w1.ctrl, cb.from, cb.to) {
      CompletionKeeps(w2, k, firstLost, secondLost);
      CompletedShape(w2, k, firstLost, secondLost);
      assert w2.ctrl.swaps - {k} == w1.ctrl.swaps - {k};
    }
  }
}
