/**
 * The multi-agent strategy wrapper: a strategy function that starts the
 * multi-agent controller on its first call and answers station and AGV
 * reports with a few fixed rules, leaving everything else to the agents.
 */
module MultiAgentStrategy {
  import opened Wrappers
  import opened Text
  import opened Dicts
  import opened JsonValues
  import opened Commands
  import MultiAgentSystem

  /**
   * The rule branch of `multi_agent_strategy`: an idle station with a
   * product is told to process it, an idle station without one to load; an
   * idle AGV is sent to P0. Only a message with a `status` key is looked at.
   */
  function RuleBranch(topic: string, message: Object): (o: Outcome)
    ensures !o.Raised?
    ensures o.Issue? ==> HasKey(message, "status") && Field(message, "status", JStr("")) == JStr("idle")
    ensures Contains(topic, "station") && HasKey(message, "status") && Field(message, "status", JStr("")) == JStr("idle") ==>
              if Truthy(Field(message, "product_id", JNull))
              then Issues(o, "process", Field(message, "station_id", JStr("")), [("product_id", Field(message, "product_id", JNull))])
              else Issues(o, "load", Field(message, "station_id", JStr("")), [])
    ensures !(Contains(topic, "station") && HasKey(message, "status")) && Contains(topic, "agv") && HasKey(message, "status")
            && Field(message, "status", JStr("")) == JStr("idle") ==>
              Issues(o, "move", Field(message, "agv_id", JStr("")), MoveTo("P0"))
  {
    if Contains(topic, "station") && HasKey(message, "status") then
      var station := Field(message, "station_id", JStr(""));
      if Field(message, "status", JStr("")) == JStr("idle") && Truthy(Field(message, "product_id", JNull)) then
        Issue(Cmd("process_", "process", station, [("product_id", Field(message, "product_id", JNull))]))
      else if Field(message, "status", JStr("")) == JStr("idle") then
        Issue(Cmd("request_product_", "load", station, []))
      else NoCommand
    else if Contains(topic, "agv") && HasKey(message, "status") then
      if Field(message, "status", JStr("")) == JStr("idle") then
        Issue(Cmd("move_", "move", Field(message, "agv_id", JStr("")), MoveTo("P0")))
      else NoCommand
    else NoCommand
  }

  /** A station report that is not idle gives no command, even when the topic also names an AGV. */
  lemma BusyStationIgnored(topic: string, message: Object)
    requires Contains(topic, "station") && HasKey(message, "status")
    requires Field(message, "status", JStr("")) != JStr("idle")
    ensures RuleBranch(topic, message) == NoCommand
  {
  }

  /** Messages on other topics, or without a status, give no command. */
  lemma OtherInputsIgnored(topic: string, message: Object)
    requires !HasKey(message, "status") || (!Contains(topic, "station") && !Contains(topic, "agv"))
    ensures RuleBranch(topic, message) == NoCommand
  {
  }

  /** `MultiAgentStrategyWrapper`: the controller is created on the first start. */
  class StrategyWrapper {
    const rootTopic: string
    var controller: MultiAgentSystem.Controller?
    var running: bool
    var startupComplete: bool

    constructor(rootTopic: string)
      ensures this.rootTopic == rootTopic && controller == null && !running && !startupComplete
    {
      this.rootTopic := rootTopic;
      controller := null;
      running := false;
      startupComplete := false;
    }

    /** `start_multi_agent_system`: only the first call builds, initialises and starts a controller. */
    method StartMultiAgentSystem()
      modifies this
      ensures old(controller) != null ==> controller == old(controller) && running == old(running)
                                          && startupComplete == old(startupComplete)
      ensures old(controller) == null ==> controller != null && fresh(controller) && running && startupComplete
      ensures old(controller) == null ==> controller.running && controller.hasSupervisor
                                          && controller.commanderLines == ["line1"]
    {
      if controller == null {
        var c := new MultiAgentSystem.Controller();
        c.InitializeAgents();
        c.StartSystem();
        controller := c;
        startupComplete := true;
        running := true;
      }
    }

    /** `stop_multi_agent_system`: both flags are cleared only when a controller exists. */
    method StopMultiAgentSystem()
      modifies this, controller
      ensures controller == old(controller)
      ensures old(controller) != null ==> !running && !startupComplete && !controller.running
      ensures old(controller) == null ==> running == old(running) && startupComplete == old(startupComplete)
    {
      if controller != null {
        controller.Shutdown();
        running := false;
        startupComplete := false;
      }
    }
  }

  /** Starting twice builds one controller; stopping then clears the flags. */
  method StartTwiceThenStop(root: string) returns (w: StrategyWrapper)
    ensures w.controller != null && !w.running && !w.startupComplete && !w.controller.running
  {
    w := new StrategyWrapper(root);
    w.StartMultiAgentSystem();
    var first := w.controller;
    w.StartMultiAgentSystem();
    assert w.controller == first;
    w.StopMultiAgentSystem();
  }
}
