/** The game's state as a value and the state machine over it: a click, the two
    guarded upgrade purchases, the one-second tick and the milestone rule that
    click and tick both end with. The class in module Incremental updates its
    fields in place and is proved to follow these functions; the lemmas here
    say what holds of every state a session can reach. */
module GameModel {
  import opened Numbers

  /** The seven numeric fields of the game object, all Python integers. */
  datatype GameState = GameState(
    resources: int,
    resourcesPerClick: int,
    autoResourcesPerSecond: int,
    upgradeCostClick: int,
    upgradeCostAuto: int,
    milestoneMultiplier: int,
    lastMilestoneResources: int)

  /** The values the constructor assigns before any saved game is loaded. */
  function Defaults(): GameState
  {
    GameState(
      resources := 0,
      resourcesPerClick := 5,
      autoResourcesPerSecond := 0,
      upgradeCostClick := 10,
      upgradeCostAuto := 20,
      milestoneMultiplier := 2,
      lastMilestoneResources := 1)
  }

  /** What holds of every state reachable from the defaults: nothing is
      negative, click power and both costs are positive, the multiplier keeps
      its constant value and the last milestone is at least the initial 1. */
  predicate Valid(g: GameState)
  {
    && g.resources >= 0
    && g.resourcesPerClick >= 1
    && g.autoResourcesPerSecond >= 0
    && g.upgradeCostClick >= 1
    && g.upgradeCostAuto >= 1
    && g.milestoneMultiplier == 2
    && g.lastMilestoneResources >= 1
  }

  /** The milestone threshold: resources at least the last milestone times
      the multiplier. */
  predicate MilestoneReached(g: GameState)
  {
    g.resources >= g.lastMilestoneResources * g.milestoneMultiplier
  }

  /** `check_milestone`: when the threshold is reached, click power grows by a
      fifth (rounded), auto-collection doubles and the current resources
      become the last milestone; otherwise nothing changes. One firing at
      most: there is no loop catching up on thresholds crossed at once. */
  function CheckMilestone(g: GameState): GameState
  {
    if MilestoneReached(g) then
      g.(resourcesPerClick := RoundSixFifths(g.resourcesPerClick),
         autoResourcesPerSecond := 2 * g.autoResourcesPerSecond,
         lastMilestoneResources := g.resources)
    else
      g
  }

  /** `click`: earn the click power, then check the milestone. */
  function Click(g: GameState): GameState
  {
    CheckMilestone(g.(resources := g.resources + g.resourcesPerClick))
  }

  /** One pass of the `auto_collect` loop: earn the per-second amount, then
      check the milestone. */
  function Tick(g: GameState): GameState
  {
    CheckMilestone(g.(resources := g.resources + g.autoResourcesPerSecond))
  }

  predicate CanUpgradeClick(g: GameState)
  {
    g.resources >= g.upgradeCostClick
  }

  predicate CanUpgradeAuto(g: GameState)
  {
    g.resources >= g.upgradeCostAuto
  }

  /** `upgrade_click`: if affordable, pay the cost and double both the click
      power and the cost; otherwise the state is left alone. */
  function UpgradeClick(g: GameState): GameState
  {
    if CanUpgradeClick(g) then
      g.(resources := g.resources - g.upgradeCostClick,
         resourcesPerClick := 2 * g.resourcesPerClick,
         upgradeCostClick := 2 * g.upgradeCostClick)
    else
      g
  }

  /** `upgrade_auto`: if affordable, pay the cost, double the per-second
      amount (at least 1, so the first purchase starts generation from 0) and
      double the cost; otherwise the state is left alone. */
  function UpgradeAuto(g: GameState): GameState
  {
    if CanUpgradeAuto(g) then
      g.(resources := g.resources - g.upgradeCostAuto,
         autoResourcesPerSecond := Max(1, 2 * g.autoResourcesPerSecond),
         upgradeCostAuto := 2 * g.upgradeCostAuto)
    else
      g
  }

  /** The operations that change the game, as the menu and the timer trigger
      them. */
  datatype Action = PressClick | BuyClickUpgrade | BuyAutoUpgrade | SecondElapsed

  function Step(g: GameState, a: Action): GameState
  {
    match a
    case PressClick => Click(g)
    case BuyClickUpgrade => UpgradeClick(g)
    case BuyAutoUpgrade => UpgradeAuto(g)
    case SecondElapsed => Tick(g)
  }

  /** The state after performing `actions` in order, starting from `g`. */
  function Run(g: GameState, actions: seq<Action>): GameState
    decreases |actions|
  {
    if actions == [] then g else Run(Step(g, actions[0]), actions[1..])
  }

  /** The quantities that never go down during a session: click power,
      auto-collection, both upgrade costs and the last milestone. */
  predicate NoDecrease(g: GameState, h: GameState)
  {
    && g.resourcesPerClick <= h.resourcesPerClick
    && g.autoResourcesPerSecond <= h.autoResourcesPerSecond
    && g.upgradeCostClick <= h.upgradeCostClick
    && g.upgradeCostAuto <= h.upgradeCostAuto
    && g.lastMilestoneResources <= h.lastMilestoneResources
    && g.milestoneMultiplier == h.milestoneMultiplier
  }

  // ----- the milestone rule -----

  /** A firing raises the threshold past the current resources, so checking
      again straight away does not fire a second time, however many
      thresholds the resources had crossed. */
  lemma MilestoneFiresOnce(g: GameState)
    requires Valid(g) && MilestoneReached(g)
    ensures !MilestoneReached(CheckMilestone(g))
    ensures CheckMilestone(CheckMilestone(g)) == CheckMilestone(g)
  {
  }

  /** The worked scenario: one click on a new game earns 5, which crosses the
      first threshold 1 * 2, so click power becomes 6, auto-collection stays
      0 and 5 becomes the last milestone. */
  lemma ClickFromDefaults()
    ensures MilestoneReached(Defaults().(resources := 5))
    ensures Click(Defaults()) == GameState(5, 6, 0, 10, 20, 2, 5)
  {
  }

  // ----- whole sessions -----

  lemma DefaultsValid()
    ensures Valid(Defaults())
  {
  }

  /** Every operation keeps a valid state valid and decreases none of the
      rates, costs or the last milestone. */
  lemma StepPreservesValid(g: GameState, a: Action)
    requires Valid(g)
    ensures Valid(Step(g, a))
    ensures NoDecrease(g, Step(g, a))
  {
  }

  /** Any sequence of operations keeps a valid state valid, and at its end
      none of the rates, costs or the last milestone is below where it began. */
  lemma {:induction false} RunPreservesValid(g: GameState, actions: seq<Action>)
    requires Valid(g)
    ensures Valid(Run(g, actions))
    ensures NoDecrease(g, Run(g, actions))
    decreases |actions|
  {
    if actions != [] {
      var h := Step(g, actions[0]);
      StepPreservesValid(g, actions[0]);
      RunPreservesValid(h, actions[1..]);
    }
  }

  /** Starting from a new game, every field stays non-negative after any
      sequence of clicks, upgrades and ticks, and click power, auto-collection
      and both costs are never below their initial values. */
  lemma ReachableStatesValid(actions: seq<Action>)
    ensures Valid(Run(Defaults(), actions))
    ensures NoDecrease(Defaults(), Run(Defaults(), actions))
  {
    DefaultsValid();
    RunPreservesValid(Defaults(), actions);
  }
}
