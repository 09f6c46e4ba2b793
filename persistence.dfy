/** The mapping between the game's fields and the dictionary `save_game`
    writes and `load_game` reads. Six fields are saved under their Python
    names; the milestone multiplier is not. Reading the file and the JSON
    encoding are not part of this model: the saved data is a map from key to
    integer. */
module Persistence {
  import opened GameModel

  const ResourcesKey := "resources"
  const ResourcesPerClickKey := "resources_per_click"
  const AutoResourcesPerSecondKey := "auto_resources_per_second"
  const UpgradeCostClickKey := "upgrade_cost_click"
  const UpgradeCostAutoKey := "upgrade_cost_auto"
  const LastMilestoneResourcesKey := "last_milestone_resources"
  const MilestoneMultiplierKey := "milestone_multiplier"

  /** `game_data` as `save_game` builds it: the six saved fields, keyed by
      their names, and no other key; in particular no multiplier. */
  function Save(g: GameState): (data: map<string, int>)
    ensures data.Keys == {ResourcesKey, ResourcesPerClickKey, AutoResourcesPerSecondKey,
                          UpgradeCostClickKey, UpgradeCostAutoKey, LastMilestoneResourcesKey}
    ensures MilestoneMultiplierKey !in data
  {
    map[ResourcesKey := g.resources,
        ResourcesPerClickKey := g.resourcesPerClick,
        AutoResourcesPerSecondKey := g.autoResourcesPerSecond,
        UpgradeCostClickKey := g.upgradeCostClick,
        UpgradeCostAutoKey := g.upgradeCostAuto,
        LastMilestoneResourcesKey := g.lastMilestoneResources]
  }

  /** `dict.get(key, default)`. */
  function Get(data: map<string, int>, key: string, default: int): int
  {
    if key in data then data[key] else default
  }

  /** The fields after `load_game` has read `data` into a game in state g:
      each of the six saved fields takes its value from the data, or the
      constructor's default for it when the key is missing; the multiplier is
      never read, so it keeps g's value. */
  function Load(g: GameState, data: map<string, int>): (h: GameState)
    ensures h.milestoneMultiplier == g.milestoneMultiplier
    ensures h.resources == if ResourcesKey in data then data[ResourcesKey] else Defaults().resources
    ensures h.resourcesPerClick ==
      if ResourcesPerClickKey in data then data[ResourcesPerClickKey] else Defaults().resourcesPerClick
    ensures h.autoResourcesPerSecond ==
      if AutoResourcesPerSecondKey in data then data[AutoResourcesPerSecondKey]
      else Defaults().autoResourcesPerSecond
    ensures h.upgradeCostClick ==
      if UpgradeCostClickKey in data then data[UpgradeCostClickKey] else Defaults().upgradeCostClick
    ensures h.upgradeCostAuto ==
      if UpgradeCostAutoKey in data then data[UpgradeCostAutoKey] else Defaults().upgradeCostAuto
    ensures h.lastMilestoneResources ==
      if LastMilestoneResourcesKey in data then data[LastMilestoneResourcesKey]
      else Defaults().lastMilestoneResources
  {
    g.(resources := Get(data, ResourcesKey, 0),
       resourcesPerClick := Get(data, ResourcesPerClickKey, 5),
       autoResourcesPerSecond := Get(data, AutoResourcesPerSecondKey, 0),
       upgradeCostClick := Get(data, UpgradeCostClickKey, 10),
       upgradeCostAuto := Get(data, UpgradeCostAutoKey, 20),
       lastMilestoneResources := Get(data, LastMilestoneResourcesKey, 1))
  }

  /** Loading what was saved restores the six saved fields exactly; the
      multiplier is the one of the game loaded into. */
  lemma LoadAfterSave(g: GameState, into: GameState)
    ensures Load(into, Save(g)) == g.(milestoneMultiplier := into.milestoneMultiplier)
  {
  }

  /** A new game that loads the save of any valid state is that state again:
      the multiplier, not saved, is the constant the constructor sets. */
  lemma SaveLoadRoundTrip(g: GameState)
    requires Valid(g)
    ensures Load(Defaults(), Save(g)) == g
  {
    LoadAfterSave(g, Defaults());
  }

  /** `load_game` does not check the values it reads: a save with a negative
      resource count loads into a state outside the invariant. */
  lemma LoadMayBreakValid()
    ensures !Valid(Load(Defaults(), map[ResourcesKey := -1]))
  {
  }

  /** Loading a save with no keys at all gives a new game. */
  lemma LoadEmptyIsNewGame()
    ensures Load(Defaults(), map[]) == Defaults()
  {
  }
}
