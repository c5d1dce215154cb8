/** The controller's registry of robots and its position swaps, one function for each handler.
    Answers of remote calls are parameters; a failed call marks the remote robot as stopped. */
module Controller {
  import opened Basics

  /** The controller's view of one robot: its cached position and capabilities, whether an adaptation
      is pending, and whether the connection is lost. */
  datatype Remote = Remote(id: nat, position: nat, caps: set<string>, pending: bool, stopped: bool)

  /** A pending swap is filed under its two positions, the lower one first. */
  type Key = (nat, nat)
  datatype Swap = Swap(lower: bool, greater: bool)

  datatype Ctrl = Ctrl(robots: map<nat, Remote>, swaps: map<Key, Swap>, registered: nat, running: bool)

  datatype Reply = Failed | Answer(value: bool)

  function KeyOf(a: nat, b: nat): Key { if a < b then (a, b) else (b, a) }

  predicate Involves(k: Key, p: nat) { k.0 == p || k.1 == p }

  predicate Swapping(swaps: map<Key, Swap>, p: nat) { exists k :: k in swaps && Involves(k, p) }

  function Partner(k: Key, p: nat): nat { if p == k.0 then k.1 else k.0 }

  predicate Acked(s: Swap, k: Key, p: nat) { if p == k.1 then s.greater else s.lower }

  function Ack(s: Swap, k: Key, p: nat): Swap
  {
    if p == k.1 then s.(greater := true) else s.(lower := true)
  }

  /** Pending swaps are ordered pairs that share no position. */
  ghost predicate Disjoint(swaps: map<Key, Swap>)
  {
    && (forall k :: k in swaps ==> k.0 < k.1)
    && (forall k, l, p :: k in swaps && l in swaps && Involves(k, p) && Involves(l, p) ==> k == l)
  }

  function MarkStopped(c: Ctrl, p: nat): Ctrl
    requires p in c.robots
  {
    c.(robots := c.robots[p := c.robots[p].(stopped := true)])
  }

  function SetPending(c: Ctrl, p: nat): Ctrl
    requires p in c.robots
  {
    c.(robots := c.robots[p := c.robots[p].(pending := true)])
  }

  // ------------------------------------------------------------------ housekeeping

  predicate Stopped(robots: map<nat, Remote>, p: nat) { p in robots && robots[p].stopped }

  function StoppedOnes(robots: map<nat, Remote>): set<nat> { set p | p in robots && robots[p].stopped }

  /** A lost robot leaves the registry; its side of a pending swap counts as acknowledged. */
  function RemoveStopped(c: Ctrl): Ctrl
  {
    c.(robots := map p | p in c.robots && !c.robots[p].stopped :: c.robots[p],
       swaps := map k | k in c.swaps ::
                  Swap(c.swaps[k].lower || Stopped(c.robots, k.0), c.swaps[k].greater || Stopped(c.robots, k.1)),
       registered := (c.registered - |StoppedOnes(c.robots)|) % U32)
  }

  function EraseStale(c: Ctrl): Ctrl
  {
    c.(swaps := map k | k in c.swaps && (k.0 in c.robots || k.1 in c.robots) :: c.swaps[k])
  }

  // ------------------------------------------------------------------ registration

  /** `connects` tells whether the client could be set up; `commitPending` is the answer of the read of
      that attribute and `commit` the answer of the commit call. */
  datatype RegistrationAnswers = RegistrationAnswers(connects: bool, commitPending: Reply, commit: Reply)

  predicate Registers(c: Ctrl, p: nat, a: RegistrationAnswers)
  {
    !Swapping(c.swaps, p) && p !in c.robots && a.connects
  }

  /** The commit a robot may have missed is made up for when it registers. */
  function ResolveMissedCommit(c: Ctrl, p: nat, a: RegistrationAnswers): Ctrl
  {
    if p !in c.robots || c.robots[p].pending || Swapping(c.swaps, p) then c
    else if a.commitPending.Failed? then MarkStopped(c, p)
    else if a.commitPending.value && a.commit.Failed? then MarkStopped(c, p)
    else c
  }

  function HandleRegistration(c: Ctrl, id: nat, p: nat, caps: set<string>, a: RegistrationAnswers): Ctrl
  {
    var c1 := EraseStale(RemoveStopped(c));
    if !Registers(c1, p, a) then c1
    else ResolveMissedCommit(c1.(robots := c1.robots[p := Remote(id, p, caps, false, false)],
                                 registered := (c1.registered + 1) % U32), p, a)
  }

  // ------------------------------------------------------------------ swaps

  datatype SwapAnswers = SwapAnswers(fromAvailable: Reply, toAvailable: Reply, first: Reply, second: Reply)

  /** Everything that is checked before either robot's availability is read. */
  predicate SwapConsidered(c: Ctrl, from: nat, to: nat)
  {
    && from != to && KeyOf(from, to) !in c.swaps && !Swapping(c.swaps, from) && !Swapping(c.swaps, to)
    && from in c.robots && !c.robots[from].pending
  }

  /** The checks that precede the first robot's call. */
  predicate SwapStarts(c: Ctrl, from: nat, to: nat, a: SwapAnswers)
  {
    && SwapConsidered(c, from, to) && a.fromAvailable == Answer(true)
    && (to in c.robots ==> !c.robots[to].pending && a.toAvailable == Answer(true))
  }

  function SwapRobotPositions(c: Ctrl, from: nat, to: nat, a: SwapAnswers): Ctrl
  {
    if !SwapConsidered(c, from, to) then c
    else if a.fromAvailable.Failed? then MarkStopped(c, from)
    else if !a.fromAvailable.value then c
    else if to in c.robots && c.robots[to].pending then c
    else if to in c.robots && a.toAvailable.Failed? then MarkStopped(c, to)
    else if to in c.robots && !a.toAvailable.value then c
    else if a.first.Failed? then MarkStopped(c, from)
    else if !a.first.value then c.(running := false)
    else
      var key, none, c1 := KeyOf(from, to), Swap(false, false), SetPending(c, from);
      if to !in c.robots then c1.(swaps := c1.swaps[key := Ack(none, key, to)])
      else if a.second.Failed? then
        var c2 := SetPending(MarkStopped(c1, to), to);
        c2.(swaps := c2.swaps[key := Ack(none, key, to)])
      else if !a.second.value then c1.(running := false)
      else
        var c2 := SetPending(c1, to);
        c2.(swaps := c2.swaps[key := none])
  }

  /** A robot is filed under its own position again, released, and told to commit. */
  function Refile(c: Ctrl, r: Remote, commit: Reply): Ctrl
  {
    c.(robots := c.robots[r.position := r.(pending := false, stopped := r.stopped || commit.Failed?)])
  }

  /** Both robots are taken out of the registry before either is put back. */
  function CompleteSwap(c: Ctrl, key: Key, first: Reply, second: Reply): Ctrl
  {
    var c0 := c.(robots := c.robots - {key.0, key.1});
    var c1 := if key.0 in c.robots then Refile(c0, c.robots[key.0], first) else c0;
    var c2 := if key.1 in c.robots then Refile(c1, c.robots[key.1], second) else c1;
    c2.(swaps := c2.swaps - {key})
  }

  predicate CompletesSwap(c: Ctrl, from: nat, to: nat)
  {
    var key := KeyOf(from, to);
    key in c.swaps && var s := Ack(c.swaps[key], key, from); s.lower && s.greater
  }

  /** After housekeeping: the robot filed under `from` reports that it is now at `to`. */
  function Acknowledge(c: Ctrl, from: nat, to: nat, first: Reply, second: Reply): Ctrl
  {
    var key := KeyOf(from, to);
    if key !in c.swaps then c
    else
      var c1 := c.(swaps := c.swaps[key := Ack(c.swaps[key], key, from)]);
      if CompletesSwap(c, from, to) then CompleteSwap(c1, key, first, second) else c1
  }

  function PositionSwapped(c: Ctrl, from: nat, to: nat, first: Reply, second: Reply): Ctrl
  {
    Acknowledge(EraseStale(RemoveStopped(c)), from, to, first, second)
  }

  // ------------------------------------------------------------------ reconfiguration

  predicate ReconfigurationStarts(c: Ctrl, p: nat, available: Reply)
  {
    p in c.robots && !c.robots[p].pending && available == Answer(true)
  }

  function ReconfigureRobot(c: Ctrl, p: nat, available: Reply, call: Reply): Ctrl
  {
    if p !in c.robots || c.robots[p].pending then c
    else if available.Failed? then MarkStopped(c, p)
    else if !available.value then c
    else if call.Failed? then MarkStopped(c, p)
    else if !call.value then c
    else SetPending(c, p)
  }

  function CapabilitiesReconfigured(c: Ctrl, p: nat): Ctrl
  {
    var c1 := RemoveStopped(c);
    if p in c1.robots then c1.(robots := c1.robots[p := c1.robots[p].(pending := false)]) else c1
  }

  // ------------------------------------------------------------------ handing out robots

  /** The reply to a request for the next robot, given the robot the policy picked: a position, or 0. */
  function NextRobotReply(c: Ctrl, pick: nat): nat
  {
    if pick in c.robots && !c.robots[pick].pending then c.robots[pick].position else 0
  }
}
