/** Recipes: what one costs, and how the parser totals it. */
module Recipes {
  import opened Basics

  datatype Result<T, E> = Ok(value: T) | Err(error: E)

  datatype Tool =
    | FRYER | PAN | POT | PEELER | CUTTER | CRUSHER | MASHER | MIXER | STIRRER
    | INGREDIENT_DISPENSER | LAYERING_DISPENSER | OVEN | WHISK

  datatype Action = Action(name: string, tool: Tool, ingredients: string, duration: nat)

  const RETOOLING_TIME: nat := 1

  function RetoolCost(held: Tool, needed: Tool): nat
  {
    if held != needed then RETOOLING_TIME else 0
  }

  /** Time to perform the actions in order, starting with `tool` in hand. */
  function Cost(tool: Tool, actions: seq<Action>): nat
    decreases |actions|
  {
    if actions == [] then 0
    else RetoolCost(tool, actions[0].tool) + actions[0].duration + Cost(actions[0].tool, actions[1..])
  }

  /** Tool in hand once the actions have been performed. */
  function LastTool(tool: Tool, actions: seq<Action>): Tool
  {
    if actions == [] then tool else actions[|actions| - 1].tool
  }

  lemma {:induction false} CostSplit(tool: Tool, a: seq<Action>, b: seq<Action>)
    ensures Cost(tool, a + b) == Cost(tool, a) + Cost(LastTool(tool, a), b)
    ensures LastTool(tool, a + b) == LastTool(LastTool(tool, a), b)
    decreases |a|
  {
    if a == [] {
      assert a + b == b;
    } else {
      CostSplit(a[0].tool, a[1..], b);
      assert (a + b)[1..] == a[1..] + b;
    }
  }

  /** Number of leading actions that the capabilities cover. */
  function PrefixLength(caps: set<string>, actions: seq<Action>): (n: nat)
    ensures n <= |actions|
    ensures forall i :: 0 <= i < n ==> actions[i].name in caps
    ensures n < |actions| ==> actions[n].name !in caps
  {
    if actions == [] || actions[0].name !in caps then 0 else 1 + PrefixLength(caps, actions[1..])
  }

  function Prefix(caps: set<string>, actions: seq<Action>): seq<Action>
  {
    actions[..PrefixLength(caps, actions)]
  }

  // ------------------------------------------------------------------ totals of a recipe

  function CookingTime(actions: seq<Action>): nat
  {
    if actions == [] then 0 else CookingTime(actions[..|actions| - 1]) + actions[|actions| - 1].duration
  }

  /** Retoolings inside the recipe, between neighbouring actions. */
  function RetoolingTime(actions: seq<Action>): nat
  {
    var n := |actions|;
    if n <= 1 then 0 else RetoolingTime(actions[..n - 1]) + RetoolCost(actions[n - 2].tool, actions[n - 1].tool)
  }

  /** Another tool is needed than for the action before. */
  predicate Changes(actions: seq<Action>, i: nat)
  {
    0 < i < |actions| && actions[i].tool != actions[i - 1].tool
  }

  function Retoolings(actions: seq<Action>): set<nat> { set i: nat | i < |actions| && Changes(actions, i) }

  /** The retooling time is paid once for every change of tools, and for nothing else. */
  lemma {:induction false} RetoolingsCounted(actions: seq<Action>)
    ensures RetoolingTime(actions) == RETOOLING_TIME * |Retoolings(actions)|
  {
    if |actions| > 1 {
      RetoolingsCounted(actions[..|actions| - 1]);
      OneMoreRetooling(actions);
      hide Retoolings, Changes;
    } else {
      assert Retoolings(actions) == {};
    }
  }

  lemma OneMoreRetooling(actions: seq<Action>)
    requires |actions| > 1
    ensures var n := |actions| - 1;
            |Retoolings(actions)| == |Retoolings(actions[..n])| + if Changes(actions, n) then 1 else 0
  {
    var n := |actions| - 1;
    var before := Retoolings(actions[..n]);
    forall i: nat | i < n ensures Changes(actions, i) <==> Changes(actions[..n], i) {}
    hide Changes;
    assert n !in before;
    assert Retoolings(actions) == if Changes(actions, n) then before + {n} else before;
  }

  /** A whole recipe costs its two totals, plus one retooling if the first tool is not in hand. */
  lemma {:induction false} RecipeTotals(tool: Tool, actions: seq<Action>)
    requires actions != []
    ensures Cost(tool, actions) == RetoolCost(tool, actions[0].tool) + CookingTime(actions) + RetoolingTime(actions)
  {
    var n := |actions| - 1;
    var last := actions[n..];
    assert actions == actions[..n] + last;
    CostSplit(tool, actions[..n], last);
    assert Cost(LastTool(tool, actions[..n]), last) ==
        RetoolCost(LastTool(tool, actions[..n]), last[0].tool) + last[0].duration;
    if n == 0 {
      assert Cost(tool, actions[..n]) == 0;
    } else {
      RecipeTotals(tool, actions[..n]);
    }
  }

  /** One visit: a robot arrives with some tool in hand and performs a stretch of the recipe. */
  datatype Visit = Visit(tool: Tool, actions: seq<Action>)

  function Performed(visits: seq<Visit>): seq<Action>
  {
    if visits == [] then [] else visits[0].actions + Performed(visits[1..])
  }

  function VisitCosts(visits: seq<Visit>): nat
  {
    if visits == [] then 0 else Cost(visits[0].tool, visits[0].actions) + VisitCosts(visits[1..])
  }

  /** What a robot pays for its first tool, less what a single robot that went on with the tool
      of the previous visit would have paid. */
  function SplitCost(tool: Tool, visit: Visit): int
  {
    if visit.actions == [] then 0
    else RetoolCost(visit.tool, visit.actions[0].tool) - RetoolCost(tool, visit.actions[0].tool)
  }

  function SplitCosts(tool: Tool, visits: seq<Visit>): int
    decreases |visits|
  {
    if visits == [] then 0
    else SplitCost(tool, visits[0]) + SplitCosts(LastTool(tool, visits[0].actions), visits[1..])
  }

  /** However a recipe is split over robots, the summed costs differ from a single robot's cost
      only by the retoolings at the split points. */
  lemma {:induction false} SplitRecipe(tool: Tool, visits: seq<Visit>)
    ensures VisitCosts(visits) == Cost(tool, Performed(visits)) + SplitCosts(tool, visits)
    decreases |visits|
  {
    if visits != [] {
      SplitRecipe(LastTool(tool, visits[0].actions), visits[1..]);
      CostSplit(tool, visits[0].actions, Performed(visits[1..]));
    }
  }

  // ------------------------------------------------------------------ the parser

  datatype Known = Autonomous(tool: Tool, duration: nat) | RecipeTimed(tool: Tool)
  datatype Instruction = Instruction(action: Option<string>, duration: Option<nat>, ingredients: Option<string>)
  datatype Recipe = Recipe(actions: seq<Action>, cookingTime: nat, retoolingTime: nat)

  datatype Objection = MissingAction | UnknownAction | SurplusDuration | MissingDuration | MissingIngredients

  /** What an instruction may be rejected for. An action that is known has a duration of its own, or else the
      instruction has to give one; only then are the ingredients looked at. */
  predicate Rejects(known: map<string, Known>, i: Instruction, o: Objection)
  {
    match o
    case MissingAction => i.action.None?
    case UnknownAction => i.action.Some? && i.action.value !in known
    case SurplusDuration =>
      i.action.Some? && i.action.value in known && known[i.action.value].Autonomous? && i.duration.Some?
    case MissingDuration =>
      i.action.Some? && i.action.value in known && known[i.action.value].RecipeTimed? && i.duration.None?
    case MissingIngredients =>
      && i.action.Some? && i.action.value in known && i.ingredients.None?
      && (i.duration.Some? <==> known[i.action.value].RecipeTimed?)
  }

  /** The instruction loop of one recipe. An instruction is accepted when it names a known action, has a duration
      exactly if that action is timed by the recipe, and lists its ingredients; the first unacceptable one aborts
      with an exception for it. The queue has the actions in the order of their instructions, each with the tool of
      the known action and its own ingredients. */
  method ParseRecipe(known: map<string, Known>, instructions: seq<Instruction>) returns (r: Result<Recipe, Objection>)
    ensures r.Ok? <==> forall i :: 0 <= i < |instructions| ==>
              && instructions[i].action.Some? && instructions[i].action.value in known
              && (instructions[i].duration.Some? <==> known[instructions[i].action.value].RecipeTimed?)
              && instructions[i].ingredients.Some?
    ensures r.Err? ==> exists n ::
              && 0 <= n < |instructions| && Rejects(known, instructions[n], r.error)
              && (forall i, o :: 0 <= i < n ==> !Rejects(known, instructions[i], o))
    ensures r.Ok? ==> |r.value.actions| == |instructions|
    ensures r.Ok? ==> forall i :: 0 <= i < |instructions| ==>
              && r.value.actions[i].name == instructions[i].action.value
              && r.value.actions[i].ingredients == instructions[i].ingredients.value
              && r.value.actions[i].tool == known[instructions[i].action.value].tool
    ensures r.Ok? ==> forall i :: 0 <= i < |instructions| ==>
              r.value.actions[i].duration == match known[instructions[i].action.value]
                                             case Autonomous(_, duration) => duration
                                             case RecipeTimed(_) => instructions[i].duration.value
    ensures r.Ok? ==> r.value.cookingTime == CookingTime(r.value.actions)
    ensures r.Ok? ==> r.value.retoolingTime == RetoolingTime(r.value.actions)
    ensures r.Ok? ==> forall tool :: r.value.actions != [] ==>
              Cost(tool, r.value.actions)
                == RetoolCost(tool, r.value.actions[0].tool) + r.value.cookingTime + r.value.retoolingTime
  {
    var queue, cookingTime, retoolingTime := [], 0, 0;
    for n := 0 to |instructions|
      invariant |queue| == n
      invariant forall i :: 0 <= i < n ==>
                && instructions[i].action.Some? && instructions[i].action.value in known
                && (instructions[i].duration.Some? <==> known[instructions[i].action.value].RecipeTimed?)
                && instructions[i].ingredients.Some?
      invariant forall i :: 0 <= i < n ==>
                queue[i] == Action(instructions[i].action.value, known[instructions[i].action.value].tool,
                                   instructions[i].ingredients.value,
                                   match known[instructions[i].action.value]
                                   case Autonomous(_, duration) => duration
                                   case RecipeTimed(_) => instructions[i].duration.value)
      invariant cookingTime == CookingTime(queue) && retoolingTime == RetoolingTime(queue)
    {
      var i := instructions[n];
      if i.action.None? { return Err(MissingAction); }
      if i.action.value !in known { return Err(UnknownAction); }
      var k := known[i.action.value];
      if i.duration.Some? && k.Autonomous? { return Err(SurplusDuration); }
      if i.duration.None? && k.RecipeTimed? { return Err(MissingDuration); }
      if i.ingredients.None? { return Err(MissingIngredients); }
      var time := if k.Autonomous? then k.duration else i.duration.value;
      cookingTime := cookingTime + time;
      if queue != [] { retoolingTime := retoolingTime + RetoolCost(k.tool, queue[|queue| - 1].tool); }
      var next := queue + [Action(i.action.value, k.tool, i.ingredients.value, time)];
      assert next[..n] == queue;
      queue := next;
    }
    forall tool | queue != []
      ensures Cost(tool, queue) == RetoolCost(tool, queue[0].tool) + cookingTime + retoolingTime
    {
      RecipeTotals(tool, queue);
    }
    r := Ok(Recipe(queue, cookingTime, retoolingTime));
  }
}
