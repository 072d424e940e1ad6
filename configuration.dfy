/** The sitter's settings, as read from its configuration file when a save
    is loaded. */
module Configuration {

  /** The values of the configuration file that the sitter reads. The key
      binding, the default chest coordinates and the chest definitions are
      consumed by input handling and by the chest manager, which are not part
      of this model. */
  datatype Config = Config(
    pettingEnabled: bool,
    growUpEnabled: bool,
    maxHappinessEnabled: bool,
    maxFriendshipEnabled: bool,
    maxFullnessEnabled: bool,
    harvestEnabled: bool,
    whoChecks: string,
    enableMessages: bool,
    takeTrufflesFromPigs: bool,
    bypassInventory: bool,
    costPerAction: int)

  /** The sitter's own fields that hold the settings during a run. */
  datatype Settings = Settings(
    pettingEnabled: bool,
    growUpEnabled: bool,
    maxHappinessEnabled: bool,
    maxFriendshipEnabled: bool,
    maxFullnessEnabled: bool,
    harvestEnabled: bool,
    messagesEnabled: bool,
    checker: string,
    costPerAnimal: int,
    takeTrufflesFromPigs: bool,
    bypassInventory: bool)

  /** The field initialisers, in force until the configuration is imported. */
  function Defaults(): Settings { Settings(true, true, true, true, true, true, true, "spouse", 0, true, false) }

  /** The cost per action actually charged: a negative configured cost is
      replaced by zero, any other is kept. */
  function ClampCost(costPerAction: int): (r: nat)
    ensures r >= costPerAction
    ensures r == costPerAction || r == 0
  {
    if costPerAction < 0 then 0 else costPerAction
  }

  function Imported(c: Config): Settings
  {
    Settings(
      c.pettingEnabled, c.growUpEnabled, c.maxHappinessEnabled, c.maxFriendshipEnabled,
      c.maxFullnessEnabled, c.harvestEnabled, c.enableMessages, c.whoChecks,
      ClampCost(c.costPerAction), c.takeTrufflesFromPigs, c.bypassInventory)
  }
}

/** The statistics record a run accumulates (AnimalTasks). */
module Stats {

  /** One counter per kind of work, plus the two fields the report fills in
      just before its placeholders are replaced. */
  datatype Tasks = Tasks(
    animalsPet: nat,
    aged: nat,
    fed: nat,
    maxHappiness: nat,
    maxFriendship: nat,
    trufflesHarvested: nat,
    productsHarvested: nat,
    numActions: int,
    totalCost: int)

  function NoTasks(): Tasks { Tasks(0, 0, 0, 0, 0, 0, 0, 0, 0) }

  /** Adds the counters of `u` to those of `t`. */
  function Plus(t: Tasks, u: Tasks): Tasks
  {
    Tasks(t.animalsPet + u.animalsPet, t.aged + u.aged, t.fed + u.fed,
          t.maxHappiness + u.maxHappiness, t.maxFriendship + u.maxFriendship,
          t.trufflesHarvested + u.trufflesHarvested, t.productsHarvested + u.productsHarvested,
          t.numActions, t.totalCost)
  }
}
