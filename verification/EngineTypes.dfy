/** Values that the engine shares with its callers. */
module EngineTypes {

  datatype RunState = Idle | Preflight | Running | Paused | Recovering | NeedsAttention | Stopping | Faulted

  /** Scheduler keys: both legacy kinds share one task name. */
  datatype TaskName = AutomationRun | LegacyCompatibilityRun | QuestScanTask
  datatype TaskKey = TaskKey(profile: nat, name: TaskName)
}
