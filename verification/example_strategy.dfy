/**
 * The example strategy file shipped with the evaluation tool: `my_strategy`
 * reacts to orders and to AGV status reports, `advanced_strategy` uses the
 * second AGV and charges earlier, and `strategy`, the name the tool looks
 * for first, is `my_strategy`.
 */
module ExampleStrategy {
  import opened Wrappers
  import opened Text
  import opened JsonValues
  import opened Commands
  import EvalCli

  /** A topic carrying AGV status reports. */
  predicate AgvStatusTopic(topic: string) {
    Contains(topic, "agv") && Contains(topic, "status")
  }

  /**
   * `my_strategy`: an order with products sends AGV_1 to the raw material
   * warehouse; an AGV report charges a low battery to 85.0 first, then
   * loads an empty idle AGV at P0, takes a loaded AGV from P0 to P1 and
   * unloads it idle at P1. A battery level that is not a number raises.
   */
  function MyStrategy(topic: string, message: Object): (o: Outcome)
    ensures Contains(topic, "orders") && Truthy(Field(message, "products", JArr([]))) ==>
              Issues(o, "move", JStr("AGV_1"), MoveTo("P0"))
    ensures o.Issue? ==> o.cmd.id == Some(Generated("my_strategy_"))
    ensures o.Issue? ==> (Contains(topic, "orders") && Truthy(Field(message, "products", JArr([])))) || AgvStatusTopic(topic)
    ensures o.Raised? ==> o.error == TypeError && AgvStatusTopic(topic)
    ensures !(Contains(topic, "orders") && Truthy(Field(message, "products", JArr([])))) && AgvStatusTopic(topic)
            && Less(Field(message, "battery_level", JNum(100.0)), 25.0) == Ok(true) ==>
              Issues(o, "charge", Field(message, "agv_id", JStr("")), ChargeTo(85.0))
  {
    if Contains(topic, "orders") && Truthy(Field(message, "products", JArr([]))) then
      Issue(Cmd("my_strategy_", "move", JStr("AGV_1"), MoveTo("P0")))
    else if AgvStatusTopic(topic) then AgvRules(message)
    else NoCommand
  }

  /** The AGV rules of `my_strategy`, in the order they are tried. */
  function AgvRules(message: Object): (o: Outcome)
    ensures o.Issue? ==> o.cmd.target == Field(message, "agv_id", JStr(""))
  {
    var agv := Field(message, "agv_id", JStr(""));
    var idle := Field(message, "status", JStr("")) == JStr("IDLE");
    var point := Field(message, "current_point", JStr(""));
    var loaded := Truthy(Field(message, "cargo", JArr([])));
    match Less(Field(message, "battery_level", JNum(100.0)), 25.0)
    case Err(e) => Raised(e)
    case Ok(low) =>
      if low then Issue(Cmd("my_strategy_", "charge", agv, ChargeTo(85.0)))
      else if idle && point == JStr("P0") && !loaded then Issue(Cmd("my_strategy_", "load", agv, []))
      else if loaded && point == JStr("P0") then Issue(Cmd("my_strategy_", "move", agv, MoveTo("P1")))
      else if loaded && point == JStr("P1") && idle then Issue(Cmd("my_strategy_", "unload", agv, []))
      else NoCommand
  }

  /** An AGV report with a battery of at least 25: the load, carry and unload steps of one delivery. */
  lemma DeliveryCycle(topic: string, message: Object, battery: real)
    requires !Contains(topic, "orders") && AgvStatusTopic(topic)
    requires Field(message, "battery_level", JNum(100.0)) == JNum(battery) && battery >= 25.0
    ensures var o := MyStrategy(topic, message);
            var agv := Field(message, "agv_id", JStr(""));
            var idle := Field(message, "status", JStr("")) == JStr("IDLE");
            var point := Field(message, "current_point", JStr(""));
            var loaded := Truthy(Field(message, "cargo", JArr([])));
            (idle && point == JStr("P0") && !loaded ==> Issues(o, "load", agv, []))
            && (loaded && point == JStr("P0") ==> Issues(o, "move", agv, MoveTo("P1")))
            && (loaded && point == JStr("P1") && idle ==> Issues(o, "unload", agv, []))
            && (point != JStr("P0") && point != JStr("P1") ==> o == NoCommand)
  {
  }

  /** Any other topic, such as a station's status, and an order without products give no command. */
  lemma OtherTopicsIgnored(topic: string, message: Object)
    requires !AgvStatusTopic(topic)
    requires !Contains(topic, "orders") || !Truthy(Field(message, "products", JArr([])))
    ensures MyStrategy(topic, message) == NoCommand
  {
  }

  /** `advanced_strategy`: orders send AGV_2 to P0; an AGV below 40 charges to 90.0. */
  function AdvancedStrategy(topic: string, message: Object): (o: Outcome)
    ensures Contains(topic, "orders") ==> Issues(o, "move", JStr("AGV_2"), MoveTo("P0"))
    ensures o.Issue? ==> o.cmd.id == Some(Generated("advanced_"))
    ensures !Contains(topic, "orders") && o.Issue? ==>
              AgvStatusTopic(topic) && Issues(o, "charge", Field(message, "agv_id", JStr("")), ChargeTo(90.0))
    ensures !Contains(topic, "orders") && AgvStatusTopic(topic) ==>
              (o.Issue? <==> Less(Field(message, "battery_level", JNum(100.0)), 40.0) == Ok(true))
  {
    if Contains(topic, "orders") then Issue(Cmd("advanced_", "move", JStr("AGV_2"), MoveTo("P0")))
    else if AgvStatusTopic(topic) then
      match Less(Field(message, "battery_level", JNum(100.0)), 40.0)
      case Err(e) => Raised(e)
      case Ok(low) =>
        if low then Issue(Cmd("advanced_", "charge", Field(message, "agv_id", JStr("")), ChargeTo(90.0))) else NoCommand
    else NoCommand
  }

  /** `strategy`, the default entry point. */
  function DefaultStrategy(topic: string, message: Object): Outcome {
    MyStrategy(topic, message)
  }

  /** The default entry point answers every message as `my_strategy` does. */
  lemma DefaultIsMyStrategy(topic: string, message: Object)
    ensures DefaultStrategy(topic, message) == MyStrategy(topic, message)
  {
  }

  /** The example file's names as `dir()` lists them, `__name__` standing for the module's own dunder names; the two imported modules are not callable. */
  function ExampleFile(): EvalCli.StrategyFile {
    EvalCli.StrategyFile(true, true, [EvalCli.Attribute("__name__", false), EvalCli.Attribute("advanced_strategy", true),
                                      EvalCli.Attribute("json", false), EvalCli.Attribute("my_strategy", true),
                                      EvalCli.Attribute("random", false), EvalCli.Attribute("strategy", true)])
  }

  /** Loaded without a function name, the file gives `strategy`; with `::advanced_strategy`, that function. */
  lemma ExampleFileLoads()
    ensures EvalCli.LoadStrategy(ExampleFile(), None) == Ok("strategy")
    ensures EvalCli.LoadStrategy(ExampleFile(), Some("advanced_strategy")) == Ok("advanced_strategy")
    ensures EvalCli.LoadStrategy(ExampleFile(), Some("missing")).Err?
  {
    var attrs := ExampleFile().attributes;
    assert attrs[5].name == "strategy" && attrs[5].isCallable;
    EvalCli.LoadPriority(ExampleFile(), 0);
    assert attrs[1].name == "advanced_strategy";
    assert forall i :: 0 <= i < |attrs| ==> |attrs[i].name| != |"missing"|;
  }
}
