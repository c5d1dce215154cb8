/** How often the entries of a pair are exchanged while its robots change places. */
module RobotIndexExchanges {
  import opened Basics
  import opened RobotIndex
  import opened RobotIndexRuns

  /** A report of one of the pair's robots changes the index. */
  predicate ExchangesPair(w: World, e: Event, k: Pair)
  {
    e.Handle? && e.id in w.robots && On(k, w.robots[e.id].home) && Step(w, e).index != w.index
  }

  /** The entries of the pair have been exchanged. */
  predicate PairDone(w: World, k: Pair)
  {
    exists id :: id in w.robots && On(k, w.robots[id].home) && Swapped(w.index, w.robots, id)
  }

  function Exchanges(w: World, events: seq<Event>, k: Pair): nat
    decreases |events|
  {
    if events == [] then 0
    else (if ExchangesPair(w, events[0], k) then 1 else 0) + Exchanges(Step(w, events[0]), events[1..], k)
  }

  // ------------------------------------------------------------------ steps that do not exchange the pair

  /** The same robots belong to the pair, and they are filed alike. */
  ghost predicate SameOn(w: World, w': World, k: Pair)
  {
    forall id :: (id in w.robots && On(k, w.robots[id].home) <==> id in w'.robots && On(k, w'.robots[id].home))
      && (id in w.robots && On(k, w.robots[id].home) ==>
         (Swapped(w.index, w.robots, id) <==> Swapped(w'.index, w'.robots, id)))
  }

  lemma SameDone(w: World, w': World, k: Pair)
    requires SameOn(w, w', k)
    ensures PairDone(w, k) <==> PairDone(w', k)
  {
    hide Swapped, On;
  }

  /** Pairs in progress share no position. */
  lemma PairsApart(swaps: set<Pair>, k: Pair, l: Pair, p: nat)
    requires Disjoint(swaps) && k in swaps && l in swaps && k != l
    ensures !(On(k, p) && On(l, p))
  {
  }

  lemma BusyOn(swaps: set<Pair>, k: Pair, p: nat)
    requires k in swaps && On(k, p)
    ensures Busy(swaps, p)
  {
  }

  lemma StartSame(w: World, k: Pair, l: Pair)
    requires Inv(w) && k in w.swaps && Admissible(w, Start(l))
    ensures SameOn(w, Step(w, Start(l)), k)
  {
    var w' := Step(w, Start(l));
    hide Inv, Swapped;
    forall id | id in w.robots
      ensures w'.robots[id].home == w.robots[id].home
      ensures Swapped(w.index, w.robots, id) <==> Swapped(w'.index, w'.robots, id)
    {
      StartedSwapped(w, l, id);
    }
  }

  lemma EndSame(w: World, k: Pair, l: Pair)
    requires Inv(w) && k in w.swaps && Admissible(w, End(l)) && l != k
    ensures SameOn(w, Step(w, End(l)), k)
  {
    var w' := Step(w, End(l));
    forall p ensures !(On(k, p) && On(l, p)) { assert Disjoint(w.swaps); PairsApart(w.swaps, k, l, p); }
    hide Inv, On;
    forall id | id in w.robots
      ensures On(k, w.robots[id].home) <==> On(k, w'.robots[id].home)
      ensures On(k, w.robots[id].home) ==> w'.robots[id] == w.robots[id]
    {
      if On(l, w.robots[id].home) { EndedPair(w, l, id); }
    }
  }

  lemma AddSame(w: World, k: Pair, p: nat, id: nat)
    requires Inv(w) && k in w.swaps && Admissible(w, Add(p, id))
    ensures SameOn(w, Step(w, Add(p, id)), k)
  {
    var w' := Step(w, Add(p, id));
    if On(k, p) { BusyOn(w.swaps, k, p); }
    hide Inv, Swapped, Busy;
    forall i | i != id
      ensures i in w'.robots ==> i in w.robots && w.robots[i] == w'.robots[i]
      ensures i in w'.robots ==> (Swapped(w.index, w.robots, i) <==> Swapped(w'.index, w'.robots, i))
      ensures i in w.robots && On(k, w.robots[i].home) ==> i in w'.robots
    {
      if i in w'.robots { AddedSwapped(w, p, id, i); }
      if i in w.robots && On(k, w.robots[i].home) { PairElsewhere(w, k, p, i); }
    }
  }

  /** A robot of the pair is not filed at any other position. */
  lemma PairElsewhere(w: World, k: Pair, p: nat, i: nat)
    requires Inv(w) && k in w.swaps && !On(k, p) && i in w.robots && On(k, w.robots[i].home)
    ensures Entry(w.index, p) != Some(i)
  {
    EndedPair(w, k, i);
    FiledFacts(w, i);
    hide Disjoint, Homes, Together, Early, Filed;
    assert p in w.index ==> w.index[p] != Some(i);
  }

  lemma OwnSame(w: World, k: Pair, e: Event)
    requires e.Move? || e.Notify?
    ensures SameOn(w, Step(w, e), k)
  {
  }

  // ------------------------------------------------------------------ reports

  /** A report that changes nothing. */
  lemma IdleSame(w: World, k: Pair, id: nat)
    requires id in w.robots && w.robots[id].notice.Some? && Step(w, Handle(id)).index == w.index
    ensures SameOn(w, Step(w, Handle(id)), k)
  {
    hide Resync;
  }

  /** A report of another pair. */
  lemma OtherEntries(w: World, k: Pair, id: nat, i: nat)
    requires Inv(w) && k in w.swaps && id in w.robots && w.robots[id].notice.Some? && !On(k, w.robots[id].home)
    requires i in w.robots && On(k, w.robots[i].home) && Step(w, Handle(id)).index != w.index
    ensures Entry(Step(w, Handle(id)).index, w.robots[i].target) == Entry(w.index, w.robots[i].target)
  {
    HandledReport(w, id);
    NoticeFacts(w, id);
    EndedPair(w, k, i);
    NotOnPair(w, k, id);
    hide Inv, Resync, Step, Swapped, Entry;
  }

  lemma OtherSame(w: World, k: Pair, id: nat)
    requires Inv(w) && k in w.swaps && id in w.robots && w.robots[id].notice.Some? && !On(k, w.robots[id].home)
    requires Step(w, Handle(id)).index != w.index
    ensures SameOn(w, Step(w, Handle(id)), k)
  {
    hide Inv, Resync, On, Entry;
    forall i | i in w.robots && On(k, w.robots[i].home)
      ensures Entry(Step(w, Handle(id)).index, w.robots[i].target) == Entry(w.index, w.robots[i].target)
    {
      OtherEntries(w, k, id, i);
    }
  }

  lemma NotOnPair(w: World, k: Pair, id: nat)
    requires Inv(w) && k in w.swaps && id in w.robots && !On(k, w.robots[id].home)
    ensures !On(k, w.robots[id].target) || w.robots[id].target == w.robots[id].home
  {
    hide Homes, Filed, Entries, Together, Early;
    var r := w.robots[id];
    if r.home != r.target {
      var l := if (r.home, r.target) in w.swaps then (r.home, r.target) else (r.target, r.home);
      assert RobotOk(r, w.swaps) && l in w.swaps && On(l, r.home) && On(l, r.target);
      PairsApart(w.swaps, k, l, r.target);
    }
  }

  /** A report of the pair that changes the index. */
  lemma ExchangeDone(w: World, k: Pair, id: nat)
    requires Inv(w) && k in w.swaps && id in w.robots && w.robots[id].notice.Some? && On(k, w.robots[id].home)
    requires Step(w, Handle(id)).index != w.index
    ensures !PairDone(w, k) && PairDone(Step(w, Handle(id)), k)
  {
    var w', r := Step(w, Handle(id)), w.robots[id];
    HandledReport(w, id);
    NoticeFacts(w, id);
    hide Inv, Resync;
    assert w'.robots[id].home == r.home && Swapped(w'.index, w'.robots, id);
    forall i | i in w.robots && On(k, w.robots[i].home) ensures !Swapped(w.index, w.robots, i) {
      if i != id { SamePairPartners(w, k, id, i); }
    }
  }

  /** The two robots of a pair are partners. */
  lemma SamePairPartners(w: World, k: Pair, id: nat, i: nat)
    requires Inv(w) && k in w.swaps && id in w.robots && i in w.robots && i != id
    requires On(k, w.robots[id].home) && On(k, w.robots[i].home)
    ensures Swapped(w.index, w.robots, id) <==> Swapped(w.index, w.robots, i)
  {
    EndedPair(w, k, id);
    EndedPair(w, k, i);
    assert w.robots[i].home != w.robots[id].home;
    assert Partners(w.robots[id], w.robots[i]);
    PartnerUnswapped(w, id, i);
    hide Inv;
  }

  lemma HandleFollows(w: World, id: nat, k: Pair)
    requires Inv(w) && k in w.swaps && id in w.robots && w.robots[id].notice.Some?
    ensures PairDone(Step(w, Handle(id)), k) <==> PairDone(w, k) || ExchangesPair(w, Handle(id), k)
    ensures !(PairDone(w, k) && ExchangesPair(w, Handle(id), k))
  {
    hide Inv, Resync, PairDone, SameOn, On;
    var w' := Step(w, Handle(id));
    if w'.index == w.index {
      IdleSame(w, k, id);
      SameDone(w, w', k);
    } else if On(k, w.robots[id].home) {
      ExchangeDone(w, k, id);
    } else {
      OtherSame(w, k, id);
      SameDone(w, w', k);
    }
  }

  lemma DoneFollows(w: World, e: Event, k: Pair)
    requires Inv(w) && Admissible(w, e) && k in w.swaps && e != End(k)
    ensures k in Step(w, e).swaps
    ensures PairDone(Step(w, e), k) <==> PairDone(w, k) || ExchangesPair(w, e, k)
    ensures !(PairDone(w, k) && ExchangesPair(w, e, k))
  {
    if e.Handle? {
      hide Inv, Resync, PairDone, ExchangesPair;
      if e.id in w.robots && w.robots[e.id].notice.Some? { HandleFollows(w, e.id, k); }
          else { NothingHandled(w, e, k); }
    } else {
      match e
      case Start(l) => StartSame(w, k, l);
      case End(l) => EndSame(w, k, l);
      case Add(p, id) => AddSame(w, k, p, id);
      case _ => OwnSame(w, k, e);
      SameDone(w, Step(w, e), k);
      hide Inv, Resync, PairDone, SameOn, Admissible;
    }
  }

  lemma NothingHandled(w: World, e: Event, k: Pair)
    requires e.Handle? && !(e.id in w.robots && w.robots[e.id].notice.Some?)
    ensures Step(w, e) == w && !ExchangesPair(w, e, k)
  {
  }

  // ------------------------------------------------------------------ whole runs

  lemma {:induction false} ExchangesCounted(w: World, events: seq<Event>, k: Pair)
    requires Inv(w) && AllAdmissible(w, events) && k in w.swaps && End(k) !in events
    ensures k in Run(w, events).swaps
    ensures Exchanges(w, events, k) + (if PairDone(w, k) then 1 else 0) == if PairDone(Run(w, events), k) then 1 else 0
    decreases |events|
  {
    hide Inv, Step, Admissible, PairDone, ExchangesPair;
    if events != [] {
      StepKeeps(w, events[0]);
      DoneFollows(w, events[0], k);
      ExchangesCounted(Step(w, events[0]), events[1..], k);
    }
  }

  lemma NewPair(w: World, k: Pair)
    requires Inv(w) && Admissible(w, Start(k))
    ensures k in Step(w, Start(k)).swaps && !PairDone(Step(w, Start(k)), k)
  {
    var w' := Step(w, Start(k));
    hide Inv, Swapped;
    forall id | id in w'.robots && On(k, w'.robots[id].home) ensures !Swapped(w'.index, w'.robots, id) {
      StartedSwapped(w, k, id);
    }
  }

  lemma HandledDone(w: World, k: Pair, id: nat)
    requires Inv(w) && Admissible(w, End(k)) && id in w.robots && On(k, w.robots[id].home)
    ensures PairDone(w, k)
  {
    EndedRobot(w, k, id);
    hide Inv, Swapped;
  }

  /** On every run from the empty index, while a pair of robots changes places: its entries are exchanged at most once,
      however many reports are handled in between and in whichever order, and exactly once by the time all reports about
      the pair have been handled, unless nobody is known at either position. */
  lemma ExchangedOnce(before: seq<Event>, k: Pair, during: seq<Event>)
    requires var w0 := World(map[], map[], {});
             && AllAdmissible(w0, before) && Admissible(Run(w0, before), Start(k))
             && AllAdmissible(Step(Run(w0, before), Start(k)), during) && End(k) !in during
    ensures var w := Step(Run(World(map[], map[], {}), before), Start(k));
            var w' := Run(w, during);
            && Exchanges(w, during, k) <= 1
            && (Admissible(w', End(k)) ==>
                  (Exchanges(w, during, k) == 1 <==> exists id :: id in w'.robots && On(k, w'.robots[id].home)))
  {
    var w0 := World(map[], map[], {});
    Unknowing();
    RunKeeps(w0, before);
    var w1 := Run(w0, before);
    var w := Step(w1, Start(k));
    StepKeeps(w1, Start(k));
    NewPair(w1, k);
    ExchangesCounted(w, during, k);
    RunKeeps(w, during);
    var w' := Run(w, during);
    if Admissible(w', End(k)) {
      if id :| id in w'.robots && On(k, w'.robots[id].home) { HandledDone(w', k, id); }
    }
    hide Inv, Step, Admissible, Run, AllAdmissible, Exchanges, Swapped;
  }
}
