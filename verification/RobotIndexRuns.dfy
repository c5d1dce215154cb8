/** The index of robots follows every robot through any number of disjoint swaps. */
module RobotIndexRuns {
  import opened Basics
  import opened RobotIndex

  // ------------------------------------------------------------------ facts

  lemma TargetsDiffer(w: World, i: nat, j: nat)
    requires Inv(w) && i in w.robots && j in w.robots && w.robots[i].target == w.robots[j].target
    ensures i == j
  {
    var r, q := w.robots[i], w.robots[j];
    PairOf(w, i);
    PairOf(w, j);
    hide Filed, Entries, Together, Early, Swapped, FiledOk;
    if r.home != r.target && q.home != q.target {
      SamePair(w.swaps, r, q);
    }
  }

  /** Robots under way with a common position belong to the same pair. */
  lemma SamePair(swaps: set<Pair>, r: Tracked, q: Tracked)
    requires Disjoint(swaps) && RobotOk(r, swaps) && RobotOk(q, swaps) && r.home != r.target && q.home != q.target
    requires r.target == q.target || r.target == q.home || r.home == q.target
    ensures r.target == q.target ==> r.home == q.home
    ensures r.target == q.home ==> r.home == q.target
    ensures r.home == q.target ==> r.target == q.home
  {
    var k := if (r.home, r.target) in swaps then (r.home, r.target) else (r.target, r.home);
    var l := if (q.home, q.target) in swaps then (q.home, q.target) else (q.target, q.home);
    assert k in swaps && l in swaps;
    assert On(k, r.target) && On(l, q.target) && On(k, r.home) && On(l, q.home);
    assert k == l;
  }

  lemma PairOf(w: World, i: nat)
    requires Inv(w) && i in w.robots
    ensures RobotOk(w.robots[i], w.swaps)
    ensures w.robots[i].home != w.robots[i].target ==>
            Busy(w.swaps, w.robots[i].home) && Busy(w.swaps, w.robots[i].target)
  {
    hide Filed, Entries, Together, Early, Homes;
    var r := w.robots[i];
    if r.home != r.target {
      var k := if (r.home, r.target) in w.swaps then (r.home, r.target) else (r.target, r.home);
      assert k in w.swaps && On(k, r.home) && On(k, r.target);
    }
  }

  /** The other robot at a moving robot's target is its partner. */
  lemma AtTarget(w: World, i: nat, j: nat)
    requires Inv(w) && i in w.robots && j in w.robots && w.robots[i].home != w.robots[i].target
    requires w.robots[j].home == w.robots[i].target
    ensures Partners(w.robots[i], w.robots[j]) && Partners(w.robots[j], w.robots[i])
  {
    PairOf(w, i);
    PairOf(w, j);
    SamePair(w.swaps, w.robots[i], w.robots[j]);
    hide Inv;
  }

  // ------------------------------------------------------------------ moves and reports

  /** A robot's own state changes; homes, targets and the index stay. */
  lemma OneRobot(w: World, id: nat, r: Tracked)
    requires Inv(w) && id in w.robots && RobotOk(r, w.swaps)
    requires r.home == w.robots[id].home && r.target == w.robots[id].target
    requires w.robots[id].place == r.target ==> r.place == r.target
    requires Handled(r) ==> Handled(w.robots[id])
    requires Handled(w.robots[id]) && r.home != r.target ==> Handled(r)
    ensures Inv(w.(robots := w.robots[id := r]))
  {
    var robots := w.robots[id := r];
    OneRobotRest(w, id, r);
    OneRobotEarly(w, id, r);
    hide Swapped, Disjoint, RobotOk, Early, Filed, Entries, Together, Homes;
  }

  lemma OneRobotRest(w: World, id: nat, r: Tracked)
    requires Inv(w) && id in w.robots && r.home == w.robots[id].home && r.target == w.robots[id].target
    requires w.robots[id].place == r.target ==> r.place == r.target
    ensures var robots := w.robots[id := r];
            Homes(robots) && Entries(w.index, robots) && Together(w.index, robots) && Filed(w.index, robots)
  {
    hide Disjoint, RobotOk, Early;
    var robots := w.robots[id := r];
    assert forall i :: i in robots ==> (Swapped(w.index, robots, i) <==> Swapped(w.index, w.robots, i));
    assert forall i, j :: i in robots && j in robots ==>
        (Partners(robots[i], robots[j]) <==> Partners(w.robots[i], w.robots[j]));
    forall i | i in robots ensures FiledOk(w.index, robots, i, Swapped(w.index, robots, i)) {
      assert FiledOk(w.index, w.robots, i, Swapped(w.index, w.robots, i));
    }
  }

  lemma OneRobotEarly(w: World, id: nat, r: Tracked)
    requires Inv(w) && id in w.robots && r.home == w.robots[id].home && r.target == w.robots[id].target
    requires Handled(r) ==> Handled(w.robots[id])
    requires Handled(w.robots[id]) && r.home != r.target ==> Handled(r)
    ensures Early(w.index, w.robots[id := r])
  {
    hide Disjoint, RobotOk, Filed, Entries, Together, Homes;
    var robots := w.robots[id := r];
    forall i | i in robots && robots[i].home != robots[i].target && Handled(robots[i]) && !Swapped(w.index, robots, i)
      ensures exists j :: j in robots && Partners(robots[i], robots[j]) && !Handled(robots[j])
    {
      var j :| j in w.robots && Partners(w.robots[i], w.robots[j]) && !Handled(w.robots[j]);
      assert j in robots && Partners(robots[i], robots[j]) && !Handled(robots[j]);
    }
  }

  lemma MoveKeeps(w: World, id: nat)
    requires Inv(w) && id in w.robots
    ensures Inv(Step(w, Move(id)))
  {
    PairOf(w, id);
    OneRobot(w, id, w.robots[id].(place := w.robots[id].target));
  }

  lemma NotifyKeeps(w: World, id: nat)
    requires Inv(w) && id in w.robots && w.robots[id].cached != w.robots[id].place
    ensures Inv(Step(w, Notify(id)))
  {
    PairOf(w, id);
    var r := w.robots[id];
    OneRobot(w, id, r.(notice := Some((r.cached, r.place)), cached := r.place));
  }

  // ------------------------------------------------------------------ handling a report

  ghost predicate NoNulls(index: Index) { forall p :: p in index ==> index[p].Some? }

  lemma ResyncNothing(index: Index, place: nat -> nat, from: nat, to: nat)
    requires NoNulls(index) && !(Vacant(index, place, from) && Vacant(index, place, to))
    ensures Resync(index, place, from, to) == index
  {
  }

  lemma ResyncExchange(index: Index, place: nat -> nat, from: nat, to: nat)
    requires NoNulls(index) && from != to && Vacant(index, place, from) && Vacant(index, place, to)
    requires from in index
    ensures var index' := Resync(index, place, from, to);
            && NoNulls(index') && Entry(index', to) == index[from] && Entry(index', from) == Entry(index, to)
            && (forall p :: p != from && p != to ==> Entry(index', p) == Entry(index, p))
  {
  }

  lemma NoNullsByInv(w: World)
    requires Inv(w)
    ensures NoNulls(w.index)
  {
    hide Disjoint, RobotOk, Homes, Filed, Together, Early;
  }

  /** A report is handled without an effect on the index. */
  lemma Noted(w: World, id: nat)
    requires Inv(w) && id in w.robots && w.robots[id].notice.Some?
    requires Swapped(w.index, w.robots, id)
      || exists j :: j in w.robots && Partners(w.robots[id], w.robots[j]) && !Handled(w.robots[j])
    ensures Inv(w.(robots := w.robots[id := w.robots[id].(notice := None)]))
  {
    NotedRobots(w, id);
    NotedRest(w, id);
    NotedFiled(w, id);
    NotedEarly(w, id);
    hide Disjoint, RobotOk, Early, Filed, Entries, Together, Homes, Swapped;
  }

  lemma NotedRobots(w: World, id: nat)
    requires Inv(w) && id in w.robots && w.robots[id].notice.Some?
    ensures forall i :: i in w.robots ==> RobotOk(w.robots[id := w.robots[id].(notice := None)][i], w.swaps)
  {
    PairOf(w, id);
    hide Disjoint, Early, Filed, Entries, Together, Homes;
  }

  lemma NotedRest(w: World, id: nat)
    requires Inv(w) && id in w.robots
    ensures var robots := w.robots[id := w.robots[id].(notice := None)];
            Homes(robots) && Entries(w.index, robots) && Together(w.index, robots)
  {
    hide Disjoint, RobotOk, Early, Filed;
    var robots := w.robots[id := w.robots[id].(notice := None)];
    assert forall i :: i in robots ==> (Swapped(w.index, robots, i) <==> Swapped(w.index, w.robots, i));
    assert forall i, j :: i in robots && j in robots ==>
        (Partners(robots[i], robots[j]) <==> Partners(w.robots[i], w.robots[j]));
  }

  lemma NotedFiled(w: World, id: nat)
    requires Inv(w) && id in w.robots
    ensures Filed(w.index, w.robots[id := w.robots[id].(notice := None)])
  {
    hide Disjoint, RobotOk, Entries, Together, Early, Homes;
    var robots := w.robots[id := w.robots[id].(notice := None)];
    forall i | i in robots ensures FiledOk(w.index, robots, i, Swapped(w.index, robots, i)) {
      assert FiledOk(w.index, w.robots, i, Swapped(w.index, w.robots, i));
    }
  }

  lemma NotedEarly(w: World, id: nat)
    requires Inv(w) && id in w.robots && w.robots[id].notice.Some?
    requires Swapped(w.index, w.robots, id)
      || exists j :: j in w.robots && Partners(w.robots[id], w.robots[j]) && !Handled(w.robots[j])
    ensures Early(w.index, w.robots[id := w.robots[id].(notice := None)])
  {
    var robots := w.robots[id := w.robots[id].(notice := None)];
    PairOf(w, id);
    forall i | i in robots && robots[i].home != robots[i].target && Handled(robots[i]) && !Swapped(w.index, robots, i)
      ensures exists j :: j in robots && Partners(robots[i], robots[j]) && !Handled(robots[j])
    {
      assert !Swapped(w.index, w.robots, i);
      var j :| j in w.robots && Partners(w.robots[i], w.robots[j]) && !Handled(w.robots[j]);
      assert j in robots && Partners(robots[i], robots[j]) && !Handled(robots[j]);
    }
  }

  /** The entries of a pair are exchanged; both robots are where they are filed then. */
  lemma Exchanged(w: World, id: nat, index: Index)
    requires Inv(w) && id in w.robots && w.robots[id].notice.Some? && !Swapped(w.index, w.robots, id)
    requires forall j :: j in w.robots && Partners(w.robots[id], w.robots[j]) ==>
             w.robots[j].place == w.robots[j].target
    requires var r := w.robots[id];
             && NoNulls(index) && Entry(index, r.target) == Some(id) && Entry(index, r.home) == Entry(w.index, r.target)
             && (forall p :: p != r.home && p != r.target ==> Entry(index, p) == Entry(w.index, p))
    ensures Inv(World(index, w.robots[id := w.robots[id].(notice := None)], w.swaps))
  {
    var r := w.robots[id];
    var robots := w.robots[id := r.(notice := None)];
    PairOf(w, id);
    ExchangedFiled(w, id, index);
    ExchangedEntries(w, id, index);
    ExchangedSwapped(w, id, index);
    ExchangedTogether(w, id, index);
    ExchangedEarly(w, id, index);
    hide Disjoint, RobotOk, Filed, Entries, Early, Swapped, Together, Homes;
    SameHomes(w, id);
  }

  lemma SameHomes(w: World, id: nat)
    requires Inv(w) && id in w.robots
    ensures Homes(w.robots[id := w.robots[id].(notice := None)])
  {
    hide Disjoint, RobotOk, Filed, Entries, Early, Together;
  }

  lemma ExchangedTogether(w: World, id: nat, index: Index)
    requires Inv(w) && id in w.robots && w.robots[id].notice.Some? && !Swapped(w.index, w.robots, id)
    requires var r := w.robots[id];
             && Entry(index, r.target) == Some(id) && Entry(index, r.home) == Entry(w.index, r.target)
             && (forall p :: p != r.home && p != r.target ==> Entry(index, p) == Entry(w.index, p))
    ensures Together(index, w.robots[id := w.robots[id].(notice := None)])
  {
    ExchangedSwapped(w, id, index);
    var r := w.robots[id];
    var robots := w.robots[id := r.(notice := None)];
    hide Disjoint, RobotOk, Filed, Entries, Early, Swapped;
    forall i, j | i in robots && j in robots && Partners(robots[i], robots[j])
      ensures Swapped(index, robots, i) <==> Swapped(index, robots, j)
    {
      assert Partners(w.robots[i], w.robots[j]);
      OnePartner(w, id, i, j);
    }
  }

  lemma OnePartner(w: World, id: nat, i: nat, j: nat)
    requires Inv(w) && id in w.robots && i in w.robots && j in w.robots && Partners(w.robots[i], w.robots[j])
    ensures i == id ==> Partners(w.robots[id], w.robots[j])
    ensures j == id ==> Partners(w.robots[id], w.robots[i])
    ensures i != id && j != id ==> !Partners(w.robots[id], w.robots[i]) && !Partners(w.robots[id], w.robots[j])
  {
    hide Disjoint, RobotOk, Filed, Entries, Early, Swapped, Together;
  }

  lemma ExchangedEarly(w: World, id: nat, index: Index)
    requires Inv(w) && id in w.robots && w.robots[id].notice.Some? && !Swapped(w.index, w.robots, id)
    requires var r := w.robots[id];
             && Entry(index, r.target) == Some(id) && Entry(index, r.home) == Entry(w.index, r.target)
             && (forall p :: p != r.home && p != r.target ==> Entry(index, p) == Entry(w.index, p))
    ensures Early(index, w.robots[id := w.robots[id].(notice := None)])
  {
    ExchangedSwapped(w, id, index);
    var r := w.robots[id];
    var robots := w.robots[id := r.(notice := None)];
    hide Disjoint, RobotOk, Filed, Entries, Swapped;
    forall i | i in robots && robots[i].home != robots[i].target && Handled(robots[i]) && !Swapped(index, robots, i)
      ensures exists j :: j in robots && Partners(robots[i], robots[j]) && !Handled(robots[j])
    {
      assert i != id && !Partners(r, w.robots[i]) && !Swapped(w.index, w.robots, i);
      var j :| j in w.robots && Partners(w.robots[i], w.robots[j]) && !Handled(w.robots[j]);
      OnePartner(w, id, i, j);
      assert j in robots && Partners(robots[i], robots[j]) && !Handled(robots[j]);
    }
  }

  /** After the exchange the pair is swapped, and every other robot as before. */
  lemma ExchangedSwapped(w: World, id: nat, index: Index)
    requires Inv(w) && id in w.robots && w.robots[id].notice.Some? && !Swapped(w.index, w.robots, id)
    requires var r := w.robots[id];
             && Entry(index, r.target) == Some(id) && Entry(index, r.home) == Entry(w.index, r.target)
             && (forall p :: p != r.home && p != r.target ==> Entry(index, p) == Entry(w.index, p))
    ensures var robots := w.robots[id := w.robots[id].(notice := None)];
            && Swapped(index, robots, id)
            && (forall j :: j in robots && Partners(robots[id], robots[j]) ==> Swapped(index, robots, j))
            && (forall j :: j in robots && j != id && !Partners(robots[id], robots[j]) ==>
                  (Swapped(index, robots, j) <==> Swapped(w.index, w.robots, j)))
  {
    var r := w.robots[id];
    PairOf(w, id);
    var robots := w.robots[id := r.(notice := None)];
    forall j | j in robots && Partners(robots[id], robots[j]) ensures Swapped(index, robots, j) {
      assert !Swapped(w.index, w.robots, j) by { assert Partners(r, w.robots[j]); }
      assert FiledOk(w.index, w.robots, j, false);
    }
    forall j | j in robots && j != id && !Partners(robots[id], robots[j])
      ensures Swapped(index, robots, j) <==> Swapped(w.index, w.robots, j)
    {
      PairOf(w, j);
      if w.robots[j].home != w.robots[j].target && (w.robots[j].target == r.home || w.robots[j].target == r.target) {
        SamePair(w.swaps, r, w.robots[j]);
      }
    }
  }

  lemma ExchangedFiled(w: World, id: nat, index: Index)
    requires Inv(w) && id in w.robots && w.robots[id].notice.Some? && !Swapped(w.index, w.robots, id)
    requires forall j :: j in w.robots && Partners(w.robots[id], w.robots[j]) ==>
             w.robots[j].place == w.robots[j].target
    requires var r := w.robots[id];
             && Entry(index, r.target) == Some(id) && Entry(index, r.home) == Entry(w.index, r.target)
             && (forall p :: p != r.home && p != r.target ==> Entry(index, p) == Entry(w.index, p))
    ensures Filed(index, w.robots[id := w.robots[id].(notice := None)])
  {
    var r := w.robots[id];
    var robots := w.robots[id := r.(notice := None)];
    PairOf(w, id);
    ExchangedSwapped(w, id, index);
    forall i | i in robots ensures FiledOk(index, robots, i, Swapped(index, robots, i)) {
      if i != id && !Partners(r, w.robots[i]) {
        assert FiledOk(w.index, w.robots, i, Swapped(w.index, w.robots, i));
        PairOf(w, i);
        Apart(w, id, i);
      }
    }
  }

  /** Another robot that is not the partner has nothing to do with the pair's positions. */
  lemma Apart(w: World, id: nat, i: nat)
    requires Inv(w) && id in w.robots && i in w.robots && i != id && w.robots[id].home != w.robots[id].target
    requires !Partners(w.robots[id], w.robots[i])
    ensures var r, q := w.robots[id], w.robots[i];
            q.home != r.home && q.home != r.target && q.target != r.home && q.target != r.target
  {
    var r, q := w.robots[id], w.robots[i];
    PairOf(w, id);
    PairOf(w, i);
    if q.target == r.target { TargetsDiffer(w, id, i); }
    if q.home == r.target { AtTarget(w, id, i); }
    if q.home != q.target && q.target == r.home { SamePair(w.swaps, r, q); }
    hide Filed, Entries, Together, Early, Swapped, FiledOk, RobotOk;
  }

  lemma ExchangedEntries(w: World, id: nat, index: Index)
    requires Inv(w) && id in w.robots && w.robots[id].notice.Some? && !Swapped(w.index, w.robots, id)
    requires var r := w.robots[id];
             && NoNulls(index) && Entry(index, r.target) == Some(id) && Entry(index, r.home) == Entry(w.index, r.target)
             && (forall p :: p != r.home && p != r.target ==> Entry(index, p) == Entry(w.index, p))
    ensures Entries(index, w.robots[id := w.robots[id].(notice := None)])
  {
    var r := w.robots[id];
    var robots := w.robots[id := r.(notice := None)];
    PairOf(w, id);
    ExchangedSwapped(w, id, index);
    forall p | p in index
      ensures index[p].Some? && index[p].value in robots
      ensures p == (if Swapped(index, robots, index[p].value) then robots[index[p].value].target
              else robots[index[p].value].home)
    {
      var v := index[p].value;
      if p == r.home {
        assert Entry(w.index, r.target) == Some(v);
        AtTargetPartner(w, id, v);
      } else if p != r.target {
        assert Entry(index, p) == Entry(w.index, p);
        assert p in w.index && w.index[p] == index[p];
        FiledElsewhere(w, id, p);
      }
    }
  }

  /** What is filed at the target of a robot that is still filed at home is its partner. */
  lemma AtTargetPartner(w: World, id: nat, v: nat)
    requires Inv(w) && id in w.robots && w.robots[id].home != w.robots[id].target && !Swapped(w.index, w.robots, id)
    requires Entry(w.index, w.robots[id].target) == Some(v)
    ensures v in w.robots && v != id && Partners(w.robots[id], w.robots[v])
  {
    var t := w.robots[id].target;
    assert t in w.index && w.index[t] == Some(v);
    if w.robots[v].home == t { AtTarget(w, id, v); } else { TargetsDiffer(w, id, v); }
  }

  lemma FiledElsewhere(w: World, id: nat, p: nat)
    requires Inv(w) && id in w.robots && w.robots[id].home != w.robots[id].target && !Swapped(w.index, w.robots, id)
    requires p in w.index && p != w.robots[id].home && p != w.robots[id].target
    ensures var v := w.index[p];
            v.Some? && v.value in w.robots && v.value != id && !Partners(w.robots[id], w.robots[v.value])
  {
    var v := w.index[p].value;
    if Partners(w.robots[id], w.robots[v]) {
      PartnerUnswapped(w, id, v);
    }
  }

  /** A robot whose report is queued has arrived, and is filed at one of its two positions. */
  lemma NoticeFacts(w: World, id: nat)
    requires Inv(w) && id in w.robots && w.robots[id].notice.Some?
    ensures var r := w.robots[id];
            && r.home != r.target && r.notice.value == (r.home, r.target) && r.place == r.cached == r.target
            && Entry(w.index, if Swapped(w.index, w.robots, id) then r.target else r.home) == Some(id)
    ensures NoNulls(w.index)
  {
    PairOf(w, id);
    FiledFacts(w, id);
    NoNullsByInv(w);
    hide Inv;
  }

  lemma StayingPartner(w: World, id: nat, j: nat)
    requires Inv(w) && id in w.robots && !Swapped(w.index, w.robots, id)
    requires j in w.robots && Partners(w.robots[id], w.robots[j]) && w.robots[j].place != w.robots[j].target
    ensures Entry(w.index, w.robots[id].target) == Some(j) && w.robots[j].place == w.robots[id].target
    ensures !Handled(w.robots[j])
  {
    FiledFacts(w, j);
    PairOf(w, j);
    PartnerUnswapped(w, id, j);
    hide Inv;
  }

  lemma HandleKeeps(w: World, id: nat)
    requires Inv(w) && id in w.robots && w.robots[id].notice.Some?
    ensures Inv(Step(w, Handle(id)))
  {
    hide Inv, Resync, Swapped, Handled, NoNulls;
    var r, place := w.robots[id], PlaceOf(w.robots);
    NoticeFacts(w, id);
    if Swapped(w.index, w.robots, id) {
      ResyncNothing(w.index, place, r.home, r.target);
      Noted(w, id);
    } else if j :| j in w.robots && Partners(r, w.robots[j]) && w.robots[j].place != w.robots[j].target {
      StayingPartner(w, id, j);
      ResyncNothing(w.index, place, r.home, r.target);
      Noted(w, id);
    } else {
      AtTargetVacant(w, id);
      ResyncExchange(w.index, place, r.home, r.target);
      Exchanged(w, id, Resync(w.index, place, r.home, r.target));
    }
  }

  lemma FiledFacts(w: World, id: nat)
    requires Inv(w) && id in w.robots
    ensures FiledOk(w.index, w.robots, id, Swapped(w.index, w.robots, id))
  {
    hide Disjoint, RobotOk, Homes, Entries, Together, Early, Swapped, FiledOk;
  }

  lemma PartnerUnswapped(w: World, i: nat, j: nat)
    requires Inv(w) && i in w.robots && j in w.robots && Partners(w.robots[i], w.robots[j])
    ensures Swapped(w.index, w.robots, i) <==> Swapped(w.index, w.robots, j)
  {
    hide Disjoint, RobotOk, Homes, Entries, Filed, Early, Swapped, FiledOk;
  }

  lemma AtTargetVacant(w: World, id: nat)
    requires Inv(w) && id in w.robots && w.robots[id].notice.Some? && !Swapped(w.index, w.robots, id)
    requires forall j :: j in w.robots && Partners(w.robots[id], w.robots[j]) ==>
             w.robots[j].place == w.robots[j].target
    ensures Vacant(w.index, PlaceOf(w.robots), w.robots[id].target)
  {
    var r := w.robots[id];
    PairOf(w, id);
    if Entry(w.index, r.target).Some? {
      var v := Entry(w.index, r.target).value;
      assert r.target in w.index && v in w.robots;
      if w.robots[v].home == r.target { AtTarget(w, id, v); } else { TargetsDiffer(w, id, v); }
    }
  }

  // ------------------------------------------------------------------ starting and ending swaps

  function Restart(r: Tracked, k: Pair): Tracked { if On(k, r.home) then r.(target := Other(k, r.home)) else r }

  lemma StartedRobots(w: World, k: Pair)
    requires Inv(w) && Admissible(w, Start(k))
    ensures Disjoint(w.swaps + {k})
    ensures forall id :: id in w.robots ==>
              && RobotOk(Restart(w.robots[id], k), w.swaps + {k})
              && (On(k, w.robots[id].home) ==> w.robots[id].home == w.robots[id].target)
  {
    hide Homes, Filed, Entries, Together, Early;
    forall id | id in w.robots
      ensures RobotOk(Restart(w.robots[id], k), w.swaps + {k})
      ensures On(k, w.robots[id].home) ==> w.robots[id].home == w.robots[id].target
    {
      PairOf(w, id);
      var r := w.robots[id];
      assert k in w.swaps + {k};
    }
  }

  lemma StartKeeps(w: World, k: Pair)
    requires Inv(w) && Admissible(w, Start(k))
    ensures Inv(Step(w, Start(k)))
  {
    var w' := Step(w, Start(k));
    StartedRobots(w, k);
    StartedFiled(w, k);
    StartedPairs(w, k);
    assert Homes(w'.robots);
    hide Disjoint, RobotOk, Filed, Entries, Together, Early, Homes, Admissible;
  }

  lemma StartedSwapped(w: World, k: Pair, id: nat)
    requires Inv(w) && Admissible(w, Start(k)) && id in w.robots
    ensures Swapped(w.index, Step(w, Start(k)).robots, id) <==> Swapped(w.index, w.robots, id)
    ensures On(k, w.robots[id].home) ==> !Swapped(w.index, w.robots, id)
  {
    StartedRobots(w, k);
    var r := w.robots[id];
    if On(k, r.home) && Entry(w.index, Other(k, r.home)) == Some(id) {
      assert Other(k, r.home) in w.index;
    }
    hide Disjoint, RobotOk, Together, Early, Homes;
  }

  lemma StartedFiled(w: World, k: Pair)
    requires Inv(w) && Admissible(w, Start(k))
    ensures Filed(w.index, Step(w, Start(k)).robots) && Entries(w.index, Step(w, Start(k)).robots)
  {
    var robots := Step(w, Start(k)).robots;
    hide Disjoint, RobotOk, Together, Early, Homes, Swapped, Admissible;
    forall id | id in robots ensures FiledOk(w.index, robots, id, Swapped(w.index, robots, id)) {
      StartedSwapped(w, k, id);
      assert FiledOk(w.index, w.robots, id, Swapped(w.index, w.robots, id));
    }
    forall p | p in w.index
      ensures w.index[p].Some? && w.index[p].value in robots
      ensures p == (if Swapped(w.index, robots, w.index[p].value) then robots[w.index[p].value].target
              else robots[w.index[p].value].home)
    {
      StartedSwapped(w, k, w.index[p].value);
    }
  }

  lemma StartedPairs(w: World, k: Pair)
    requires Inv(w) && Admissible(w, Start(k))
    ensures Together(w.index, Step(w, Start(k)).robots) && Early(w.index, Step(w, Start(k)).robots)
  {
    var robots := Step(w, Start(k)).robots;
    StartedRobots(w, k);
    hide Disjoint, Filed, Entries, Homes, Swapped, Admissible;
    forall i, j | i in robots && j in robots && Partners(robots[i], robots[j])
      ensures Swapped(w.index, robots, i) <==> Swapped(w.index, robots, j)
    {
      StartedSwapped(w, k, i);
      StartedSwapped(w, k, j);
      if !On(k, w.robots[i].home) && !On(k, w.robots[j].home) { assert Partners(w.robots[i], w.robots[j]); }
    }
    forall i | i in robots && robots[i].home != robots[i].target && Handled(robots[i]) && !Swapped(w.index, robots, i)
      ensures exists j :: j in robots && Partners(robots[i], robots[j]) && !Handled(robots[j])
    {
      StartedSwapped(w, k, i);
      PairOf(w, i);
      assert !On(k, w.robots[i].home);
      var j :| j in w.robots && Partners(w.robots[i], w.robots[j]) && !Handled(w.robots[j]);
      assert !On(k, w.robots[j].home);
      assert j in robots && Partners(robots[i], robots[j]) && !Handled(robots[j]);
    }
  }

  /** When every report of a pair has been handled, its robots are filed where they are. */
  lemma EndedRobot(w: World, k: Pair, id: nat)
    requires Inv(w) && Admissible(w, End(k)) && id in w.robots && On(k, w.robots[id].home)
    ensures var r := w.robots[id];
            r.home != r.target && Swapped(w.index, w.robots, id) && r.place == r.cached == r.target && r.notice.None? &&
                On(k, r.target)
  {
    PairOf(w, id);
    FiledFacts(w, id);
    EndedPair(w, k, id);
    hide Disjoint, Homes, Entries, Together;
  }

  lemma EndedPair(w: World, k: Pair, id: nat)
    requires Inv(w) && k in w.swaps && id in w.robots && On(k, w.robots[id].home)
    ensures w.robots[id].home != w.robots[id].target && On(k, w.robots[id].target)
  {
    PairOf(w, id);
    hide Homes, Filed, Entries, Together, Early;
    var r := w.robots[id];
    assert Busy(w.swaps, r.home);
    var l := if (r.home, r.target) in w.swaps then (r.home, r.target) else (r.target, r.home);
    assert l in w.swaps && On(l, r.home);
  }

  lemma EndKeeps(w: World, k: Pair)
    requires Inv(w) && Admissible(w, End(k))
    ensures Inv(Step(w, End(k)))
  {
    EndedRobots(w, k);
    EndedFiled(w, k);
    EndedPairs(w, k);
    EndedHomes(w, k);
    hide Disjoint, RobotOk, Filed, Entries, Together, Early, Homes, Admissible;
  }

  lemma EndedRobots(w: World, k: Pair)
    requires Inv(w) && Admissible(w, End(k))
    ensures Disjoint(w.swaps - {k})
    ensures forall id :: id in w.robots ==> RobotOk(Step(w, End(k)).robots[id], w.swaps - {k})
  {
    var robots := Step(w, End(k)).robots;
    hide Homes, Filed, Entries, Together, Early;
    forall id | id in w.robots ensures RobotOk(robots[id], w.swaps - {k}) {
      PairOf(w, id);
      var r := w.robots[id];
      if On(k, r.home) {
        EndedRobot(w, k, id);
      }
    }
  }

  lemma EndedFiled(w: World, k: Pair)
    requires Inv(w) && Admissible(w, End(k))
    ensures Filed(w.index, Step(w, End(k)).robots) && Entries(w.index, Step(w, End(k)).robots)
  {
    var robots := Step(w, End(k)).robots;
    hide Disjoint, RobotOk, Together, Early, Homes, Admissible;
    forall id | id in robots ensures FiledOk(w.index, robots, id, Swapped(w.index, robots, id)) {
      assert FiledOk(w.index, w.robots, id, Swapped(w.index, w.robots, id));
      if On(k, w.robots[id].home) { EndedRobot(w, k, id); }
    }
    forall p | p in w.index
      ensures w.index[p].Some? && w.index[p].value in robots
      ensures p == (if Swapped(w.index, robots, w.index[p].value) then robots[w.index[p].value].target
              else robots[w.index[p].value].home)
    {
      if On(k, w.robots[w.index[p].value].home) { EndedRobot(w, k, w.index[p].value); }
    }
  }

  lemma EndedHomes(w: World, k: Pair)
    requires Inv(w) && Admissible(w, End(k))
    ensures Homes(Step(w, End(k)).robots)
  {
    var robots := Step(w, End(k)).robots;
    hide Disjoint, RobotOk, Together, Early, Filed, Entries, Admissible, Swapped;
    forall i, j | i in robots && j in robots && robots[i].home == robots[j].home ensures i == j {
      if On(k, w.robots[i].home) { EndedRobot(w, k, i); }
      if On(k, w.robots[j].home) { EndedRobot(w, k, j); }
      if On(k, w.robots[i].home) && On(k, w.robots[j].home) { TargetsDiffer(w, i, j); }
    }
  }

  lemma EndedPairs(w: World, k: Pair)
    requires Inv(w) && Admissible(w, End(k))
    ensures Together(w.index, Step(w, End(k)).robots) && Early(w.index, Step(w, End(k)).robots)
  {
    var robots := Step(w, End(k)).robots;
    hide Disjoint, RobotOk, Homes, Filed, Entries, Admissible;
    forall i, j | i in robots && j in robots && Partners(robots[i], robots[j])
      ensures Swapped(w.index, robots, i) <==> Swapped(w.index, robots, j)
    {
      if On(k, w.robots[i].home) { EndedRobot(w, k, i); }
      if On(k, w.robots[j].home) { EndedRobot(w, k, j); }
      assert Partners(w.robots[i], w.robots[j]);
    }
    forall i | i in robots && robots[i].home != robots[i].target && Handled(robots[i]) && !Swapped(w.index, robots, i)
      ensures exists j :: j in robots && Partners(robots[i], robots[j]) && !Handled(robots[j])
    {
      assert !On(k, w.robots[i].home) by { if On(k, w.robots[i].home) { EndedRobot(w, k, i); } }
      var j :| j in w.robots && Partners(w.robots[i], w.robots[j]) && !Handled(w.robots[j]);
      assert !On(k, w.robots[j].home) by { if On(k, w.robots[j].home) { EndedRobot(w, k, j); } }
      assert j in robots && Partners(robots[i], robots[j]) && !Handled(robots[j]);
    }
  }

  // ------------------------------------------------------------------ whole runs

  lemma AddKeeps(w: World, p: nat, id: nat)
    requires Inv(w) && Admissible(w, Add(p, id))
    ensures Inv(Step(w, Add(p, id)))
  {
    var w' := Step(w, Add(p, id));
    AddedOccupant(w, p);
    AddedFiled(w, p, id);
    AddedEntries(w, p, id);
    AddedPairs(w, p, id);
    forall i | i in w'.robots ensures RobotOk(w'.robots[i], w.swaps) {
      if i != id { PairOf(w, i); }
    }
    hide Disjoint, Filed, Entries, Together, Early;
  }

  /** Whoever is filed at a position without a swap is the only robot there. */
  lemma AddedOccupant(w: World, p: nat)
    requires Inv(w) && !Busy(w.swaps, p)
    ensures forall i :: i in w.robots && (w.robots[i].home == p || w.robots[i].target == p) ==>
              Entry(w.index, p) == Some(i) && w.robots[i].home == w.robots[i].target == p
  {
    forall i | i in w.robots && (w.robots[i].home == p || w.robots[i].target == p)
      ensures Entry(w.index, p) == Some(i) && w.robots[i].home == w.robots[i].target == p
    {
      PairOf(w, i);
      FiledFacts(w, i);
    }
    hide Inv;
  }

  lemma AddedSwapped(w: World, p: nat, id: nat, i: nat)
    requires Inv(w) && Admissible(w, Add(p, id)) && i in Step(w, Add(p, id)).robots && i != id
    ensures i in w.robots && w.robots[i] == Step(w, Add(p, id)).robots[i] && Entry(w.index, p) != Some(i)
    ensures w.robots[i].home != p && w.robots[i].target != p
    ensures Swapped(Step(w, Add(p, id)).index, Step(w, Add(p, id)).robots, i) <==> Swapped(w.index, w.robots, i)
  {
    AddedOccupant(w, p);
    hide Inv;
  }

  lemma AddedFiled(w: World, p: nat, id: nat)
    requires Inv(w) && Admissible(w, Add(p, id))
    ensures Filed(Step(w, Add(p, id)).index, Step(w, Add(p, id)).robots)
  {
    var w' := Step(w, Add(p, id));
    hide Inv;
    forall i | i in w'.robots ensures FiledOk(w'.index, w'.robots, i, Swapped(w'.index, w'.robots, i)) {
      if i != id {
        AddedSwapped(w, p, id, i);
        FiledFacts(w, i);
      }
    }
  }

  lemma AddedEntries(w: World, p: nat, id: nat)
    requires Inv(w) && Admissible(w, Add(p, id))
    ensures Entries(Step(w, Add(p, id)).index, Step(w, Add(p, id)).robots)
  {
    var w' := Step(w, Add(p, id));
    hide Disjoint, RobotOk, Together, Early, Homes, Filed, Swapped;
    forall q | q in w'.index
      ensures w'.index[q].Some? && w'.index[q].value in w'.robots
      ensures q == (if Swapped(w'.index, w'.robots, w'.index[q].value) then w'.robots[w'.index[q].value].target
              else w'.robots[w'.index[q].value].home)
    {
      if q != p {
        assert w'.index[q] == w.index[q] && w.index[q].value != id;
        OtherEntry(w, p, q);
        AddedSwapped(w, p, id, w.index[q].value);
      }
    }
  }

  lemma OtherEntry(w: World, p: nat, q: nat)
    requires Inv(w) && !Busy(w.swaps, p) && q in w.index && q != p
    ensures w.index[q].Some? && w.index[q].value in w.robots && Entry(w.index, p) != w.index[q]
  {
    var v := w.index[q].value;
    PairOf(w, v);
  }

  lemma AddedPairs(w: World, p: nat, id: nat)
    requires Inv(w) && Admissible(w, Add(p, id))
    ensures Together(Step(w, Add(p, id)).index, Step(w, Add(p, id)).robots)
    ensures Early(Step(w, Add(p, id)).index, Step(w, Add(p, id)).robots)
  {
    var w' := Step(w, Add(p, id));
    AddedOccupant(w, p);
    hide Disjoint, RobotOk, Filed, Entries, Homes, Swapped;
    forall i, j | i in w'.robots && j in w'.robots && Partners(w'.robots[i], w'.robots[j])
      ensures Swapped(w'.index, w'.robots, i) <==> Swapped(w'.index, w'.robots, j)
    {
      assert i != id && j != id by {
        if i != id { AddedSwapped(w, p, id, i); }
        if j != id { AddedSwapped(w, p, id, j); }
      }
      AddedSwapped(w, p, id, i);
      AddedSwapped(w, p, id, j);
    }
    forall i | i in w'.robots && w'.robots[i].home != w'.robots[i].target && Handled(w'.robots[i]) &&
        !Swapped(w'.index, w'.robots, i)
      ensures exists j :: j in w'.robots && Partners(w'.robots[i], w'.robots[j]) && !Handled(w'.robots[j])
    {
      AddedSwapped(w, p, id, i);
      var j :| j in w.robots && Partners(w.robots[i], w.robots[j]) && !Handled(w.robots[j]);
      assert j in w'.robots && Partners(w'.robots[i], w'.robots[j]) && !Handled(w'.robots[j]);
    }
  }

  lemma StepKeeps(w: World, e: Event)
    requires Inv(w) && Admissible(w, e)
    ensures Inv(Step(w, e))
  {
    hide Inv, Resync;
    match e
    case Start(k) => StartKeeps(w, k);
    case Move(id) => if id in w.robots { MoveKeeps(w, id); }
    case Notify(id) => if id in w.robots && w.robots[id].cached != w.robots[id].place { NotifyKeeps(w, id); }
    case Handle(id) => if id in w.robots && w.robots[id].notice.Some? { HandleKeeps(w, id); }
    case End(k) => EndKeeps(w, k);
    case Add(p, id) => AddKeeps(w, p, id);
  }

  function Run(w: World, events: seq<Event>): World
    decreases |events|
  {
    if events == [] then w else Run(Step(w, events[0]), events[1..])
  }

  ghost predicate AllAdmissible(w: World, events: seq<Event>)
    decreases |events|
  {
    events == [] || (Admissible(w, events[0]) && AllAdmissible(Step(w, events[0]), events[1..]))
  }

  lemma {:induction false} RunKeeps(w: World, events: seq<Event>)
    requires Inv(w) && AllAdmissible(w, events)
    ensures Inv(Run(w, events))
    decreases |events|
  {
    hide Inv, Step, Admissible;
    if events != [] {
      StepKeeps(w, events[0]);
      RunKeeps(Step(w, events[0]), events[1..]);
    }
  }

  lemma Unknowing()
    ensures Inv(World(map[], map[], {}))
  {
  }

  /** However moves and reports of disjoint swaps are interleaved: on every run there is no null entry, a
      robot outside a swap is filed at its real position and nowhere else, and so is every robot of a swap
      once all reports about the pair have been handled. */
  lemma IndexIsReal(w: World, events: seq<Event>, p: nat)
    requires Inv(w) && AllAdmissible(w, events) && p in Run(w, events).index
    ensures var w' := Run(w, events);
            && w'.index[p].Some? && w'.index[p].value in w'.robots
            && var r := w'.robots[w'.index[p].value];
               ((forall id :: id in w'.robots && (w'.robots[id].home == r.home || w'.robots[id].home == r.target) ==>
                   Handled(w'.robots[id]))
                ==> r.place == p)
  {
    var w' := Run(w, events);
    RunKeeps(w, events);
    var id := w'.index[p].value;
    PairOf(w', id);
    FiledFacts(w', id);
    var r := w'.robots[id];
    if r.home != r.target && !Swapped(w'.index, w'.robots, id) && Handled(r) {
      var j :| j in w'.robots && Partners(r, w'.robots[j]) && !Handled(w'.robots[j]);
    }
    hide Disjoint, RobotOk, Homes, Together, Run, AllAdmissible;
  }

  /** A report either comes too early or too late to change anything, or it turns the pair from not exchanged to
      exchanged and leaves every other entry alone. */
  lemma HandledReport(w: World, id: nat)
    requires Inv(w) && id in w.robots && w.robots[id].notice.Some?
    ensures Swapped(w.index, w.robots, id) ==> Step(w, Handle(id)).index == w.index
    ensures var r, w' := w.robots[id], Step(w, Handle(id));
            || w'.index == w.index
            || (Swapped(w'.index, w'.robots, id) && Entry(w'.index, r.home) == Entry(w.index, r.target)
                && forall p :: p != r.home && p != r.target ==> Entry(w'.index, p) == Entry(w.index, p))
  {
    hide Inv, Resync, NoNulls;
    var r, place := w.robots[id], PlaceOf(w.robots);
    NoticeFacts(w, id);
    if !(Vacant(w.index, place, r.home) && Vacant(w.index, place, r.target)) {
      ResyncNothing(w.index, place, r.home, r.target);
    } else {
      ResyncExchange(w.index, place, r.home, r.target);
    }
  }
}
