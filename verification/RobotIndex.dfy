/** The map from positions to robots that conveyor and kitchen keep, and how it follows the robots when
    they change places. A null pointer is None; reading a missing entry with the index operator creates one. */
module RobotIndex {
  import opened Basics

  type Index = map<nat, Option<nat>>

  function Entry(index: Index, p: nat): Option<nat> { if p in index then index[p] else None }

  function DropNull(index: Index, p: nat): Index
  {
    if Entry(index, p).None? then index - {p} else index
  }

  /** Nobody is filed at `p` who is really there. */
  predicate Vacant(index: Index, place: nat -> nat, p: nat)
  {
    Entry(index, p).None? || place(Entry(index, p).value) != p
  }

  /** A robot has reported that it went from `from` to `new`. The two entries are exchanged once neither
      robot is where it is filed. */
  function Resync(index: Index, place: nat -> nat, from: nat, to: nat): Index
  {
    var swapped := if Vacant(index, place, from) && Vacant(index, place, to)
                   then index[from := Entry(index, to)][to := Entry(index, from)] else index;
    DropNull(DropNull(swapped, from), to)
  }

  /** A robot that has reported from a position is filed there, or nobody if it cannot be reached. */
  function FileEntry(index: Index, p: nat, id: nat, connects: bool): Index
  {
    if Entry(index, p) == Some(id) then index else if connects then index[p := Some(id)] else index - {p}
  }

  /** After a report nothing but the two entries has changed; they have changed places exactly if neither robot filed at
      the two positions is there, and neither is left behind as a null entry. */
  lemma ResyncExactly(index: Index, place: nat -> nat, from: nat, to: nat)
    ensures var after := Resync(index, place, from, to);
            var away := (Entry(index, from).Some? ==> place(Entry(index, from).value) != from) &&
                (Entry(index, to).Some? ==> place(Entry(index, to).value) != to);
            && Entry(after, from) == Entry(index, if away then to else from)
            && Entry(after, to) == Entry(index, if away then from else to)
            && (from in after ==> after[from].Some?) && (to in after ==> after[to].Some?)
            && forall p :: p != from && p != to ==> Entry(after, p) == Entry(index, p) && (p in after <==> p in index)
  {
  }

  /** A robot that reports is the one filed at its position afterwards, exactly if it was already or can be reached;
      otherwise nobody is. No other entry changes. */
  lemma FiledExactly(index: Index, p: nat, id: nat, connects: bool)
    ensures var after := FileEntry(index, p, id, connects);
            && Entry(after, p) == (if Entry(index, p) == Some(id) || connects then Some(id) else None)
            && (p in after ==> after[p].Some?)
            && forall q :: q != p ==> Entry(after, q) == Entry(index, q) && (q in after <==> q in index)
  {
  }

  class Agent {
    var index: Index

    constructor ()
      ensures index == map[]
    {
      index := map[];
    }

    /** `place` answers where a robot says it is. */
    method OnPositionSwapped(place: nat -> nat, from: nat, to: nat)
      modifies this
      ensures index == Resync(old(index), place, from, to)
    {
      var first, second: Option<nat> := None, None;
      if from in index { first := index[from]; }
      if to in index { second := index[to]; }
      if (first.None? || place(first.value) != from) && (second.None? || place(second.value) != to) {
        var a := Read(from);
        var b := Read(to);
        index := index[from := b][to := a];
      }
      EraseNull(from);
      EraseNull(to);
    }

    /** The index operator: a missing entry is created. */
    method Read(p: nat) returns (entry: Option<nat>)
      modifies this
      ensures entry == Entry(old(index), p)
      ensures index == if p in old(index) then old(index) else old(index)[p := None]
    {
      if p !in index { index := index[p := None]; }
      entry := index[p];
    }

    method EraseNull(p: nat)
      modifies this
      ensures index == DropNull(old(index), p)
    {
      var entry := Read(p);
      if entry.None? { index := index - {p}; }
    }

    /** Files a robot that has reported from a position, unless it is filed there already. */
    method File(p: nat, id: nat, connects: bool)
      modifies this
      ensures index == FileEntry(old(index), p, id, connects)
    {
      if p in index && index[p] == Some(id) { return; }
      index := index - {p};
      if connects { index := index[p := Some(id)]; }
    }
  }

  // ------------------------------------------------------------------ many swaps at once

  type Pair = (nat, nat)

  predicate On(k: Pair, p: nat) { k.0 == p || k.1 == p }

  function Other(k: Pair, p: nat): nat { if p == k.0 then k.1 else k.0 }

  predicate Busy(swaps: set<Pair>, p: nat) { exists k :: k in swaps && On(k, p) }

  /** A robot the agent is connected to: where it was before its swap and where it goes, where it is, the
      position last reported to the agent, and the report that is queued. Outside a swap home is target. */
  datatype Tracked = Tracked(home: nat, target: nat, place: nat, cached: nat, notice: Option<(nat, nat)>)

  datatype World = World(index: Index, robots: map<nat, Tracked>, swaps: set<Pair>)

  function PlaceOf(robots: map<nat, Tracked>): nat -> nat { id => if id in robots then robots[id].place else 0 }

  predicate Handled(r: Tracked) { r.cached == r.target && r.notice.None? }

  datatype Event =
    | Start(pair: Pair)         // the controller has the robots at two positions change places
    | Move(id: nat)
    | Notify(id: nat)
    | Handle(id: nat)
    | End(pair: Pair)
    | Add(at: nat, id: nat)     // a robot reports from a position and becomes known there

  function Step(w: World, e: Event): World
  {
    match e
    case Start(k) =>
      w.(swaps := w.swaps + {k},
         robots := map id | id in w.robots ::
                     if On(k, w.robots[id].home) then w.robots[id].(target := Other(k, w.robots[id].home))
                         else w.robots[id])
    case Move(id) =>
      if id in w.robots then w.(robots := w.robots[id := w.robots[id].(place := w.robots[id].target)]) else w
    case Notify(id) =>
      if id !in w.robots || w.robots[id].cached == w.robots[id].place then w
      else
        var r := w.robots[id];
        w.(robots := w.robots[id := r.(notice := Some((r.cached, r.place)), cached := r.place)])
    case Handle(id) =>
      if id !in w.robots || w.robots[id].notice.None? then w
      else
        var r := w.robots[id];
        World(Resync(w.index, PlaceOf(w.robots), r.notice.value.0, r.notice.value.1),
            w.robots[id := r.(notice := None)], w.swaps)
    case End(k) =>
      w.(swaps := w.swaps - {k},
         robots := map id | id in w.robots ::
                     if On(k, w.robots[id].home) then w.robots[id].(home := w.robots[id].target) else w.robots[id])
    case Add(p, id) =>
      var others := if Entry(w.index, p).Some? then w.robots - {Entry(w.index, p).value} else w.robots;
      w.(index := w.index[p := Some(id)], robots := others[id := Tracked(p, p, p, p, None)])
  }

  /** A position takes part in a new swap, or a robot becomes known there, only when the reports of the
      previous swap there have been handled. */
  predicate Admissible(w: World, e: Event)
  {
    match e
    case Start(k) => k.0 != k.1 && !Busy(w.swaps, k.0) && !Busy(w.swaps, k.1)
    case End(k) => k in w.swaps && forall id :: id in w.robots && On(k, w.robots[id].home) ==> Handled(w.robots[id])
    case Add(p, id) => !Busy(w.swaps, p) && id !in w.robots
    case _ => true
  }

  // ------------------------------------------------------------------ the invariant

  predicate RobotOk(r: Tracked, swaps: set<Pair>)
  {
    if r.home == r.target
    then r.place == r.cached == r.home && r.notice.None? && !Busy(swaps, r.home)
    else
      && ((r.home, r.target) in swaps || (r.target, r.home) in swaps)
      && (r.place == r.home || r.place == r.target)
      && (r.cached == r.home || (r.cached == r.target && r.place == r.target))
      && (r.notice.Some? ==> r.notice.value == (r.home, r.target) && r.cached == r.target)
  }

  /** Where a robot is filed: before the exchange of its pair at its home, afterwards at its target. */
  predicate FiledOk(index: Index, robots: map<nat, Tracked>, id: nat, swapped: bool)
    requires id in robots
  {
    var r := robots[id];
    if swapped then Entry(index, r.target) == Some(id) && r.place == r.target
    else Entry(index, r.home) == Some(id)
  }

  /** The robot's pair has been exchanged in the index. */
  predicate Swapped(index: Index, robots: map<nat, Tracked>, id: nat)
    requires id in robots
  {
    robots[id].home != robots[id].target && Entry(index, robots[id].target) == Some(id)
  }

  ghost predicate Disjoint(swaps: set<Pair>)
  {
    && (forall k, l, p :: k in swaps && l in swaps && On(k, p) && On(l, p) ==> k == l)
    && (forall k :: k in swaps ==> k.0 != k.1)
  }

  ghost predicate Homes(robots: map<nat, Tracked>)
  {
    forall i, j :: i in robots && j in robots && robots[i].home == robots[j].home ==> i == j
  }

  ghost predicate Filed(index: Index, robots: map<nat, Tracked>)
  {
    forall id :: id in robots ==> FiledOk(index, robots, id, Swapped(index, robots, id))
  }

  /** There is no null entry, and every robot is filed once. */
  ghost predicate Entries(index: Index, robots: map<nat, Tracked>)
  {
    forall p :: p in index ==>
      && index[p].Some? && index[p].value in robots
      && p == (if Swapped(index, robots, index[p].value) then robots[index[p].value].target
         else robots[index[p].value].home)
  }

  predicate Partners(r: Tracked, q: Tracked) { r.home != r.target && q.home == r.target && q.target == r.home }

  /** The two robots of a pair are exchanged together. */
  ghost predicate Together(index: Index, robots: map<nat, Tracked>)
  {
    forall i, j :: i in robots && j in robots && Partners(robots[i], robots[j]) ==>
      (Swapped(index, robots, i) <==> Swapped(index, robots, j))
  }

  /** A report that came too early to have an effect is followed by the partner's. */
  ghost predicate Early(index: Index, robots: map<nat, Tracked>)
  {
    forall i ::
      (i in robots && robots[i].home != robots[i].target && Handled(robots[i]) && !Swapped(index, robots, i)) ==>
      exists j :: j in robots && Partners(robots[i], robots[j]) && !Handled(robots[j])
  }

  ghost predicate Inv(w: World)
  {
    && Disjoint(w.swaps) && (forall id :: id in w.robots ==> RobotOk(w.robots[id], w.swaps))
    && Homes(w.robots) && Filed(w.index, w.robots) && Entries(w.index, w.robots)
    && Together(w.index, w.robots) && Early(w.index, w.robots)
  }
}
