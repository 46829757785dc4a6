/**
 * The strategy collection: four rule-based strategies over station, order
 * and warehouse reports, and the registry that names them together with the
 * multi-agent wrapper.
 */
module ExampleStrategies {
  import opened Wrappers
  import opened Text
  import opened Dicts
  import opened JsonValues
  import opened Commands
  import MultiAgentStrategy

  /** A command without a `command_id` key. */
  function Plain(action: string, target: string, params: Object): Command {
    Command(None, action, JStr(target), params)
  }

  /**
   * `simple_reactive_strategy`: a station report whose status is `idle` in
   * any case asks the warehouse for a product for that station. A status
   * that is not a string raises when lowered.
   */
  function SimpleReactive(topic: string, message: Object): (o: Outcome)
    ensures o.Issue? ==> o.cmd == Plain("request_product", "warehouse", [("station_id", Field(message, "station_id", JStr("")))])
    ensures o.Issue? <==> Contains(topic, "station") && HasKey(message, "status")
                          && StrLower(Field(message, "status", JStr(""))) == Ok("idle")
    ensures o.Raised? ==> o.error == AttributeError
  {
    if Contains(topic, "station") && HasKey(message, "status") then
      match StrLower(Field(message, "status", JStr("")))
      case Err(e) => Raised(e)
      case Ok(status) =>
        if status == "idle" then Issue(Plain("request_product", "warehouse", [("station_id", Field(message, "station_id", JStr("")))]))
        else NoCommand
    else NoCommand
  }

  /** The status is matched without regard to case. */
  lemma SimpleReactiveIgnoresCase(topic: string, message: Object)
    requires Contains(topic, "station") && HasKey(message, "status")
    requires Field(message, "status", JStr("")) == JStr("IDLE")
    ensures SimpleReactive(topic, message).Issue?
  {
    assert Lower("IDLE") == "idle";
  }

  /**
   * `proactive_scheduling_strategy`: an order with priority above 5
   * prioritises AGV_1; a completed station has its product moved on.
   */
  function ProactiveScheduling(topic: string, message: Object): (o: Outcome)
    ensures Contains(topic, "orders") ==>
              (o.Issue? <==> Greater(Field(message, "priority", JNum(0.0)), 5.0) == Ok(true))
              && (o.Issue? ==> o.cmd == Plain("prioritize_agv", "AGV_1", [("priority_order", JObj(message))]))
    ensures !Contains(topic, "orders") ==>
              (o.Issue? <==> Contains(topic, "station") && Field(message, "status", JNull) == JStr("completed"))
              && (o.Issue? ==> o.cmd == Plain("move_product", "AGV_1", [("from_station", Field(message, "station_id", JStr(""))),
                                                                         ("target_point", JStr("next_station"))]))
    ensures o.Raised? ==> Contains(topic, "orders") && o.error == TypeError
  {
    if Contains(topic, "orders") then
      match Greater(Field(message, "priority", JNum(0.0)), 5.0)
      case Err(e) => Raised(e)
      case Ok(urgent) => if urgent then Issue(Plain("prioritize_agv", "AGV_1", [("priority_order", JObj(message))])) else NoCommand
    else if Contains(topic, "station") && Field(message, "status", JNull) == JStr("completed") then
      Issue(Plain("move_product", "AGV_1", [("from_station", Field(message, "station_id", JStr(""))),
                                            ("target_point", JStr("next_station"))]))
    else NoCommand
  }

  /** An order without a priority counts as priority 0 and is not prioritised. */
  lemma UnprioritisedOrder(topic: string, message: Object)
    requires Contains(topic, "orders") && !HasKey(message, "priority")
    ensures ProactiveScheduling(topic, message) == NoCommand
  {
    assert Get(message, "priority").None?;
  }

  /**
   * The loop over `inventory.items()`: the first product counted below 2, or
   * none; a count that is not a number raises at its comparison.
   */
  function FirstLowStock(inventory: Dict<Json>): (r: Result<Option<string>, PyError>)
    ensures r.Ok? && r.value.Some? ==>
              exists i :: 0 <= i < |inventory| && inventory[i].0 == r.value.value && Less(inventory[i].1, 2.0) == Ok(true)
                          && forall j :: 0 <= j < i ==> Less(inventory[j].1, 2.0) == Ok(false)
    ensures r == Ok(None) <==> forall i :: 0 <= i < |inventory| ==> Less(inventory[i].1, 2.0) == Ok(false)
    ensures r.Err? ==> r.error == TypeError
    ensures r.Err? ==>
              exists i :: 0 <= i < |inventory| && Less(inventory[i].1, 2.0).Err?
                          && forall j :: 0 <= j < i ==> Less(inventory[j].1, 2.0) == Ok(false)
    decreases |inventory|
  {
    if |inventory| == 0 then Ok(None)
    else
      match Less(inventory[0].1, 2.0)
      case Err(e) => Err(e)
      case Ok(low) =>
        if low then Ok(Some(inventory[0].0))
        else
          var rest := FirstLowStock(inventory[1..]);
          assert forall i :: 0 < i < |inventory| ==> inventory[i] == inventory[1..][i - 1];
          if rest.Ok? && rest.value.Some? then
            var i :| 0 <= i < |inventory[1..]| && inventory[1..][i].0 == rest.value.value
                     && Less(inventory[1..][i].1, 2.0) == Ok(true)
                     && forall j :: 0 <= j < i ==> Less(inventory[1..][j].1, 2.0) == Ok(false);
            assert inventory[i + 1] == inventory[1..][i];
            assert forall j :: 0 <= j < i + 1 ==> Less(inventory[j].1, 2.0) == Ok(false) by {
              forall j | 0 <= j < i + 1 ensures Less(inventory[j].1, 2.0) == Ok(false) {
                if j > 0 { assert inventory[j] == inventory[1..][j - 1]; }
              }
            }
            rest
          else if rest.Err? then
            var i :| 0 <= i < |inventory[1..]| && Less(inventory[1..][i].1, 2.0).Err?
                     && forall j :: 0 <= j < i ==> Less(inventory[1..][j].1, 2.0) == Ok(false);
            assert inventory[i + 1] == inventory[1..][i];
            assert forall j :: 0 <= j < i + 1 ==> Less(inventory[j].1, 2.0) == Ok(false) by {
              forall j | 0 <= j < i + 1 ensures Less(inventory[j].1, 2.0) == Ok(false) {
                if j > 0 { assert inventory[j] == inventory[1..][j - 1]; }
              }
            }
            rest
          else rest
  }

  /**
   * The search finds a low product whenever one is reached: an entry counted
   * below 2 with only numeric, not-low counts before it is the one reordered.
   */
  lemma {:induction false} FirstLowFound(inventory: Dict<Json>, k: nat)
    requires k < |inventory| && Less(inventory[k].1, 2.0) == Ok(true)
    requires forall j :: 0 <= j < k ==> Less(inventory[j].1, 2.0) == Ok(false)
    ensures FirstLowStock(inventory) == Ok(Some(inventory[k].0))
    decreases k
  {
    if k > 0 {
      assert Less(inventory[0].1, 2.0) == Ok(false);
      forall j | 0 <= j < k - 1 ensures Less(inventory[1..][j].1, 2.0) == Ok(false) {
        assert inventory[1..][j] == inventory[j + 1];
      }
      assert inventory[1..][k - 1] == inventory[k];
      FirstLowFound(inventory[1..], k - 1);
    }
  }

  /**
   * `warehouse_optimization_strategy`: on a warehouse topic, the first
   * product low in stock is reordered, ten at a time. An inventory that is
   * not a dictionary has no `items` and raises.
   */
  function WarehouseOptimization(topic: string, message: Object): (o: Outcome)
    ensures !Contains(topic, "warehouse") ==> o == NoCommand
    ensures Contains(topic, "warehouse") && Field(message, "inventory", JObj([])).JObj? ==>
              match FirstLowStock(Field(message, "inventory", JObj([])).fields)
              case Err(e) => o == Raised(e)
              case Ok(None) => o == NoCommand
              case Ok(Some(product)) =>
                o.Issue? && o.cmd == Plain("reorder", "warehouse", [("product_id", JStr(product)), ("quantity", JNum(10.0))])
    ensures Contains(topic, "warehouse") && !Field(message, "inventory", JObj([])).JObj? ==> o == Raised(AttributeError)
  {
    if Contains(topic, "warehouse") then
      match Field(message, "inventory", JObj([]))
      case JObj(inventory) =>
        (match FirstLowStock(inventory)
         case Err(e) => Raised(e)
         case Ok(None) => NoCommand
         case Ok(Some(product)) => Issue(Plain("reorder", "warehouse", [("product_id", JStr(product)), ("quantity", JNum(10.0))])))
      case _ => Raised(AttributeError)
    else NoCommand
  }

  /** A later low product is not reordered while an earlier one is. */
  lemma ReorderFirstLow(a: string, b: string, x: real, y: real)
    requires x < 2.0 && y < 2.0
    ensures FirstLowStock([(a, JNum(x)), (b, JNum(y))]) == Ok(Some(a))
  {
  }

  /** `load_balancing_strategy`: a station queue longer than 3 has its product redirected. */
  function LoadBalancing(topic: string, message: Object): (o: Outcome)
    ensures o.Issue? <==> Contains(topic, "station") && HasKey(message, "status")
                          && Greater(Field(message, "queue_length", JNum(0.0)), 3.0) == Ok(true)
    ensures o.Issue? ==> o.cmd == Plain("redirect_product", "AGV_1", [("from_station", Field(message, "station_id", JStr(""))),
                                                                      ("reason", JStr("queue_overflow"))])
    ensures o.Raised? ==> o.error == TypeError
  {
    if Contains(topic, "station") && HasKey(message, "status") then
      match Greater(Field(message, "queue_length", JNum(0.0)), 3.0)
      case Err(e) => Raised(e)
      case Ok(long) =>
        if long then Issue(Plain("redirect_product", "AGV_1", [("from_station", Field(message, "station_id", JStr(""))),
                                                               ("reason", JStr("queue_overflow"))]))
        else NoCommand
    else NoCommand
  }

  /** The strategies of `AVAILABLE_STRATEGIES`. */
  datatype Registered = SimpleReactiveEntry | ProactiveSchedulingEntry | WarehouseOptimizationEntry
                      | LoadBalancingEntry | MultiAgentEntry

  /** The registry's keys, in insertion order. */
  const RegistryNames := ["simple_reactive", "proactive_scheduling", "warehouse_optimization", "load_balancing", "multi_agent"]

  /** The position of an entry in the registry. */
  function RegistryIndex(s: Registered): (i: nat)
    ensures i < |RegistryNames|
  {
    match s
    case SimpleReactiveEntry => 0
    case ProactiveSchedulingEntry => 1
    case WarehouseOptimizationEntry => 2
    case LoadBalancingEntry => 3
    case MultiAgentEntry => 4
  }

  /** `get_strategy`: the registered strategy, or `None` for any other name. */
  function GetStrategy(name: string): (r: Option<Registered>)
    ensures r.Some? <==> name in RegistryNames
    ensures r.Some? ==> RegistryNames[RegistryIndex(r.value)] == name
  {
    if name == "simple_reactive" then Some(SimpleReactiveEntry)
    else if name == "proactive_scheduling" then Some(ProactiveSchedulingEntry)
    else if name == "warehouse_optimization" then Some(WarehouseOptimizationEntry)
    else if name == "load_balancing" then Some(LoadBalancingEntry)
    else if name == "multi_agent" then Some(MultiAgentEntry)
    else None
  }

  /** `list_strategies`: the registry's keys; each names a strategy, and each strategy is found under its own. */
  function ListStrategies(): (r: seq<string>)
    ensures |r| == |RegistryNames|
    ensures forall i :: 0 <= i < |r| ==> GetStrategy(r[i]).Some?
    ensures forall s: Registered :: GetStrategy(r[RegistryIndex(s)]) == Some(s)
  {
    RegistryNames
  }

  /** Running a registered strategy; the multi-agent entry answers with its rule branch. */
  function RunRegistered(s: Registered, topic: string, message: Object): Outcome {
    match s
    case SimpleReactiveEntry => SimpleReactive(topic, message)
    case ProactiveSchedulingEntry => ProactiveScheduling(topic, message)
    case WarehouseOptimizationEntry => WarehouseOptimization(topic, message)
    case LoadBalancingEntry => LoadBalancing(topic, message)
    case MultiAgentEntry => MultiAgentStrategy.RuleBranch(topic, message)
  }
}
