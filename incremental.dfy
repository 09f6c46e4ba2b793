/** The game object, `IncrementalGame`, whose methods update its seven fields
    in place. Click, Tick, UpgradeClick, UpgradeAuto and CheckMilestone are
    each proved to take the object from one state to the state the matching
    GameModel function gives, and to keep the invariant GameModel.Valid that
    holds of every state reachable from a new game. LoadGame gives its new
    state through Persistence.Load and, like `load_game`, does not validate
    what it reads, so it can leave an invalid state. */
module Incremental {
  import opened Numbers
  import opened Wrappers
  import GameModel
  import Persistence

  class IncrementalGame {
    var resources: int
    var resourcesPerClick: int
    var autoResourcesPerSecond: int
    var upgradeCostClick: int
    var upgradeCostAuto: int
    var milestoneMultiplier: int
    var lastMilestoneResources: int

    /** The fields as a value. */
    function State(): GameModel.GameState
      reads this
    {
      GameModel.GameState(resources, resourcesPerClick, autoResourcesPerSecond,
                          upgradeCostClick, upgradeCostAuto, milestoneMultiplier,
                          lastMilestoneResources)
    }

    predicate Valid()
      reads this
    {
      GameModel.Valid(State())
    }

    /** A new game: the defaults, then the saved game if there is one. The
        save file's existence and contents are the parameter `saved`. */
    constructor (saved: Option<map<string, int>>)
      ensures saved.None? ==> State() == GameModel.Defaults()
      ensures saved.Some? ==> State() == Persistence.Load(GameModel.Defaults(), saved.value)
      ensures milestoneMultiplier == 2
      ensures saved.None? ==> Valid()
    {
      resources := 0;
      resourcesPerClick := 5;
      autoResourcesPerSecond := 0;
      upgradeCostClick := 10;
      upgradeCostAuto := 20;
      milestoneMultiplier := 2;
      lastMilestoneResources := 1;
      new;
      LoadGame(saved);
    }

    /** `load_game`: without a save nothing changes; with one, the six saved
        fields are read, each falling back to its default when missing. */
    method LoadGame(saved: Option<map<string, int>>)
      modifies this
      ensures saved.None? ==> State() == old(State())
      ensures saved.Some? ==> State() == Persistence.Load(old(State()), saved.value)
      ensures milestoneMultiplier == old(milestoneMultiplier)
    {
      if saved.Some? {
        var data := saved.value;
        resources := Persistence.Get(data, Persistence.ResourcesKey, 0);
        resourcesPerClick := Persistence.Get(data, Persistence.ResourcesPerClickKey, 5);
        autoResourcesPerSecond := Persistence.Get(data, Persistence.AutoResourcesPerSecondKey, 0);
        upgradeCostClick := Persistence.Get(data, Persistence.UpgradeCostClickKey, 10);
        upgradeCostAuto := Persistence.Get(data, Persistence.UpgradeCostAutoKey, 20);
        lastMilestoneResources := Persistence.Get(data, Persistence.LastMilestoneResourcesKey, 1);
      }
    }

    /** `save_game`: the dictionary written to the save file. Loading it into
        a new game gives back the current state when that state is valid. */
    method SaveGame() returns (data: map<string, int>)
      ensures data == Persistence.Save(State())
      ensures Valid() ==> Persistence.Load(GameModel.Defaults(), data) == State()
    {
      data := map[Persistence.ResourcesKey := resources,
                  Persistence.ResourcesPerClickKey := resourcesPerClick,
                  Persistence.AutoResourcesPerSecondKey := autoResourcesPerSecond,
                  Persistence.UpgradeCostClickKey := upgradeCostClick,
                  Persistence.UpgradeCostAutoKey := upgradeCostAuto,
                  Persistence.LastMilestoneResourcesKey := lastMilestoneResources];
      if Valid() {
        Persistence.SaveLoadRoundTrip(State());
      }
    }

    /** `check_milestone`: fires exactly when the resources reach the last
        milestone times the multiplier, and then records the resources as the
        new milestone, raises click power by a fifth (rounded) and doubles
        auto-collection; the resources and the costs never change, and
        without a firing nothing does. The printed notice is `fired`. */
    method CheckMilestone() returns (fired: bool)
      modifies this
      ensures fired == (old(resources) >= old(lastMilestoneResources) * old(milestoneMultiplier))
      ensures fired ==> && lastMilestoneResources == resources
                        && resourcesPerClick == RoundSixFifths(old(resourcesPerClick))
                        && autoResourcesPerSecond == 2 * old(autoResourcesPerSecond)
      ensures !fired ==> && lastMilestoneResources == old(lastMilestoneResources)
                         && resourcesPerClick == old(resourcesPerClick)
                         && autoResourcesPerSecond == old(autoResourcesPerSecond)
      ensures && resources == old(resources)
              && upgradeCostClick == old(upgradeCostClick)
              && upgradeCostAuto == old(upgradeCostAuto)
              && milestoneMultiplier == old(milestoneMultiplier)
      ensures State() == GameModel.CheckMilestone(old(State()))
      ensures fired && old(Valid()) ==> !GameModel.MilestoneReached(State())
      ensures old(Valid()) ==> Valid() && GameModel.NoDecrease(old(State()), State())
    {
      fired := resources >= lastMilestoneResources * milestoneMultiplier;
      if fired {
        ghost var before := State();
        resourcesPerClick := RoundSixFifths(resourcesPerClick);
        autoResourcesPerSecond := 2 * autoResourcesPerSecond;
        lastMilestoneResources := resources;
        if GameModel.Valid(before) {
          GameModel.MilestoneFiresOnce(before);
        }
      }
    }

    /** `click`: earn exactly the click power held before the click, then
        check the milestone once. */
    method Click() returns (fired: bool)
      modifies this
      ensures resources == old(resources) + old(resourcesPerClick)
      ensures fired == (resources >= old(lastMilestoneResources) * old(milestoneMultiplier))
      ensures fired ==> && lastMilestoneResources == resources
                        && resourcesPerClick == RoundSixFifths(old(resourcesPerClick))
                        && autoResourcesPerSecond == 2 * old(autoResourcesPerSecond)
      ensures !fired ==> && lastMilestoneResources == old(lastMilestoneResources)
                         && resourcesPerClick == old(resourcesPerClick)
                         && autoResourcesPerSecond == old(autoResourcesPerSecond)
      ensures && upgradeCostClick == old(upgradeCostClick)
              && upgradeCostAuto == old(upgradeCostAuto)
              && milestoneMultiplier == old(milestoneMultiplier)
      ensures State() == GameModel.Click(old(State()))
      ensures old(Valid()) ==> Valid() && GameModel.NoDecrease(old(State()), State())
    {
      ghost var before := State();
      resources := resources + resourcesPerClick;
      fired := CheckMilestone();
      if GameModel.Valid(before) {
        GameModel.StepPreservesValid(before, GameModel.PressClick);
      }
    }

    /** One pass of `auto_collect`'s loop: earn exactly the per-second amount
        (nothing when it is 0), then check the milestone once. */
    method Tick() returns (fired: bool)
      modifies this
      ensures resources == old(resources) + old(autoResourcesPerSecond)
      ensures old(autoResourcesPerSecond) == 0 ==> resources == old(resources)
      ensures fired == (resources >= old(lastMilestoneResources) * old(milestoneMultiplier))
      ensures fired ==> && lastMilestoneResources == resources
                        && resourcesPerClick == RoundSixFifths(old(resourcesPerClick))
                        && autoResourcesPerSecond == 2 * old(autoResourcesPerSecond)
      ensures !fired ==> && lastMilestoneResources == old(lastMilestoneResources)
                         && resourcesPerClick == old(resourcesPerClick)
                         && autoResourcesPerSecond == old(autoResourcesPerSecond)
      ensures && upgradeCostClick == old(upgradeCostClick)
              && upgradeCostAuto == old(upgradeCostAuto)
              && milestoneMultiplier == old(milestoneMultiplier)
      ensures State() == GameModel.Tick(old(State()))
      ensures old(Valid()) ==> Valid() && GameModel.NoDecrease(old(State()), State())
    {
      ghost var before := State();
      resources := resources + autoResourcesPerSecond;
      fired := CheckMilestone();
      if GameModel.Valid(before) {
        GameModel.StepPreservesValid(before, GameModel.SecondElapsed);
      }
    }

    /** `upgrade_click`: with too few resources nothing changes and `bought`
        is false (the source prints a notice); otherwise the old cost is paid,
        click power and cost double, and no other field changes. */
    method UpgradeClick() returns (bought: bool)
      modifies this
      ensures bought == (old(resources) >= old(upgradeCostClick))
      ensures !bought ==> State() == old(State())
      ensures bought ==> && resources == old(resources) - old(upgradeCostClick)
                         && resourcesPerClick == 2 * old(resourcesPerClick)
                         && upgradeCostClick == 2 * old(upgradeCostClick)
      ensures bought ==> resources >= 0
      ensures && autoResourcesPerSecond == old(autoResourcesPerSecond)
              && upgradeCostAuto == old(upgradeCostAuto)
              && milestoneMultiplier == old(milestoneMultiplier)
              && lastMilestoneResources == old(lastMilestoneResources)
      ensures State() == GameModel.UpgradeClick(old(State()))
      ensures old(Valid()) ==> Valid() && GameModel.NoDecrease(old(State()), State())
    {
      bought := resources >= upgradeCostClick;
      if bought {
        resources := resources - upgradeCostClick;
        resourcesPerClick := 2 * resourcesPerClick;
        upgradeCostClick := 2 * upgradeCostClick;
      }
    }

    /** `upgrade_auto`: with too few resources nothing changes and `bought`
        is false; otherwise the old cost is paid, auto-collection becomes
        twice what it was but at least 1 (so 1 after the first purchase from
        0), the cost doubles, and no other field changes. */
    method UpgradeAuto() returns (bought: bool)
      modifies this
      ensures bought == (old(resources) >= old(upgradeCostAuto))
      ensures !bought ==> State() == old(State())
      ensures bought ==> && resources == old(resources) - old(upgradeCostAuto)
                         && autoResourcesPerSecond == Max(1, 2 * old(autoResourcesPerSecond))
                         && upgradeCostAuto == 2 * old(upgradeCostAuto)
      ensures bought ==> resources >= 0 && autoResourcesPerSecond >= 1
      ensures bought && old(autoResourcesPerSecond) == 0 ==> autoResourcesPerSecond == 1
      ensures && resourcesPerClick == old(resourcesPerClick)
              && upgradeCostClick == old(upgradeCostClick)
              && milestoneMultiplier == old(milestoneMultiplier)
              && lastMilestoneResources == old(lastMilestoneResources)
      ensures State() == GameModel.UpgradeAuto(old(State()))
      ensures old(Valid()) ==> Valid() && GameModel.NoDecrease(old(State()), State())
    {
      bought := resources >= upgradeCostAuto;
      if bought {
        resources := resources - upgradeCostAuto;
        autoResourcesPerSecond := Max(1, 2 * autoResourcesPerSecond);
        upgradeCostAuto := 2 * upgradeCostAuto;
      }
    }
  }

  /** A new game without a save, clicked once: 5 resources, a milestone at
      the first threshold 1 * 2, click power 6, still no auto-collection, and
      5 as the last milestone. */
  method ClickOnNewGame()
  {
    var game := new IncrementalGame(None);
    var fired := game.Click();
    assert fired;
    assert game.State() == GameModel.GameState(5, 6, 0, 10, 20, 2, 5);
  }
}
