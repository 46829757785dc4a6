/**
 * The single-function multi-agent strategy: every call builds a decision
 * engine, condenses the message into a factory state, and routes the topic to
 * a supervisor, line-commander or coordination decision. Any exception on
 * the way ends in a fallback `get_result` command.
 *
 * The engine tests `str(message).lower()` for device names; the rendered
 * text of the message is a parameter here.
 */
module MultiStrategy {
  import opened Wrappers
  import opened Text
  import opened Dicts
  import opened JsonValues
  import opened Commands

  /** An entry of the state's `agv_status`. */
  datatype AgvInfo = AgvInfo(status: Json, battery: Json, location: Json)

  /** An entry of the state's `station_status`. */
  datatype StationInfo = StationInfo(status: Json, queueLength: nat, currentProduct: Json)

  /** An entry of the state's `orders`. */
  datatype OrderInfo = OrderInfo(id: Json, kind: Json, priority: Json)

  /** What `analyze_factory_state` returns. */
  datatype FactoryState = FactoryState(agvStatus: Dict<AgvInfo>, stationStatus: Dict<StationInfo>,
                                       orders: seq<OrderInfo>, alerts: seq<Json>)

  const StationNames := ["StationA", "StationB", "StationC", "QualityCheck"]

  /** Python's `len(x)`: strings, lists and dicts have a length; anything else raises. */
  function PyLen(j: Json): (r: Result<nat, PyError>)
    ensures r.Err? <==> !(j.JArr? || j.JStr? || j.JObj?)
    ensures r.Err? ==> r.error == TypeError
    ensures j.JArr? ==> r == Ok(|j.items|)
  {
    match j
    case JArr(items) => Ok(|items|)
    case JStr(s) => Ok(|s|)
    case JObj(fields) => Ok(|fields|)
    case _ => Err(TypeError)
  }

  /** The `buffer` of a message, `[]` when absent. */
  function Buffer(message: Object): Json {
    Field(message, "buffer", JArr([]))
  }

  /** The entry written for each of the two AGVs. */
  function AgvReport(message: Object): AgvInfo {
    AgvInfo(Field(message, "status", JStr("idle")), Field(message, "battery_level", JNum(100.0)),
            Field(message, "current_point", JStr("P0")))
  }

  /** The entry written for a station named in the message. */
  function StationReport(message: Object, queueLength: nat): StationInfo {
    StationInfo(Field(message, "status", JStr("idle")), queueLength, Field(message, "product_id", JNull))
  }

  /** The entry written for an order. */
  function OrderReport(message: Object): OrderInfo {
    OrderInfo(Field(message, "order_id", JStr("unknown")), Field(message, "product_type", JStr("P1")),
              Field(message, "priority", JStr("medium")))
  }

  /** Some station of `names` is named, in lower case, in the lowered text. */
  predicate Mentions(names: seq<string>, lowered: string) {
    exists i :: 0 <= i < |names| && Contains(lowered, Lower(names[i]))
  }

  /**
   * The station loop of `analyze_factory_state`: an entry for each station
   * the text names, in the loop's order; the buffer's length is taken for
   * each, so a buffer without one raises as soon as a station is named.
   */
  function StationEntries(names: seq<string>, lowered: string, message: Object): (r: Result<Dict<StationInfo>, PyError>)
    ensures r.Err? <==> Mentions(names, lowered) && PyLen(Buffer(message)).Err?
    ensures r.Err? ==> r.error == TypeError
    ensures r.Ok? ==> forall k :: k in Keys(r.value) <==> k in names && Contains(lowered, Lower(k))
    ensures r.Ok? ==> forall i :: 0 <= i < |r.value| ==>
                        r.value[i].1 == StationReport(message, r.value[i].1.queueLength)
                        && PyLen(Buffer(message)) == Ok(r.value[i].1.queueLength)
    decreases |names|
  {
    if |names| == 0 then Ok([])
    else
      var rest := StationEntries(names[1..], lowered, message);
      assert forall i :: 0 < i < |names| ==> names[i] == names[1..][i - 1];
      assert forall k :: k in names <==> k == names[0] || k in names[1..];
      assert Mentions(names, lowered) <==> Contains(lowered, Lower(names[0])) || Mentions(names[1..], lowered) by {
        if Mentions(names, lowered) && !Contains(lowered, Lower(names[0])) {
          var i :| 0 <= i < |names| && Contains(lowered, Lower(names[i]));
          assert names[1..][i - 1] == names[i];
        }
      }
      if Contains(lowered, Lower(names[0])) then
        match PyLen(Buffer(message))
        case Err(e) => Err(e)
        case Ok(n) =>
          if rest.Err? then rest
          else
            var r := [(names[0], StationReport(message, n))] + rest.value;
            assert Keys(r) == [names[0]] + Keys(rest.value);
            Ok(r)
      else rest
  }

  /**
   * `analyze_factory_state`: AGV entries only when the text mentions `agv`,
   * station entries for the stations it names, one order only when it
   * mentions `order`, and no alerts. `text` is `str(message)`.
   */
  function Analyze(message: Object, text: string): (r: Result<FactoryState, PyError>)
    ensures r.Err? <==> Mentions(StationNames, Lower(text)) && PyLen(Buffer(message)).Err?
    ensures r.Err? ==> r.error == TypeError
    ensures r.Ok? ==> (|r.value.agvStatus| > 0 <==> Contains(Lower(text), "agv"))
    ensures r.Ok? && Contains(Lower(text), "agv") ==>
              r.value.agvStatus == [("AGV_1", AgvReport(message)), ("AGV_2", AgvReport(message))]
    ensures r.Ok? ==> (|r.value.orders| > 0 <==> Contains(Lower(text), "order"))
    ensures r.Ok? && Contains(Lower(text), "order") ==> r.value.orders == [OrderReport(message)]
    ensures r.Ok? ==> forall k :: k in Keys(r.value.stationStatus) <==> k in StationNames && Contains(Lower(text), Lower(k))
    ensures r.Ok? ==> forall i :: 0 <= i < |r.value.stationStatus| ==>
                        var info := r.value.stationStatus[i].1;
                        info == StationReport(message, info.queueLength) && PyLen(Buffer(message)) == Ok(info.queueLength)
    ensures r.Ok? ==> r.value.alerts == []
  {
    var lowered := Lower(text);
    var agvs := if Contains(lowered, "agv") then [("AGV_1", AgvReport(message)), ("AGV_2", AgvReport(message))] else [];
    var orders := if Contains(lowered, "order") then [OrderReport(message)] else [];
    match StationEntries(StationNames, lowered, message)
    case Err(e) => Err(e)
    case Ok(stations) => Ok(FactoryState(agvs, stations, orders, []))
  }

  /** The priority an order is assigned with: 1 for `high`, 2 for `medium`, 3 for anything else. */
  function Priority(p: Json): (n: real)
    ensures n == 1.0 <==> p == JStr("high")
    ensures n == 2.0 <==> p == JStr("medium")
    ensures n == 1.0 || n == 2.0 || n == 3.0
  {
    assert JStr("high") != JStr("medium") by { assert "high"[0] != "medium"[0]; }
    if p == JStr("medium") then 2.0 else if p == JStr("high") then 1.0 else 3.0
  }

  /** `make_supervisor_decision`: the first order, and only it, is assigned to `line1`. */
  function SupervisorDecision(state: FactoryState): (o: Outcome)
    ensures !o.Raised?
    ensures o.NoCommand? <==> |state.orders| == 0
    ensures |state.orders| > 0 ==>
              Issues(o, "assign_order", JStr("line1"), [("order_id", state.orders[0].id),
                                                        ("priority", JNum(Priority(state.orders[0].priority)))])
    ensures o.Issue? ==> o.cmd.id == Some(Generated("supervisor_assign_"))
  {
    if |state.orders| > 0 then
      var order := state.orders[0];
      Issue(Cmd("supervisor_assign_", "assign_order", JStr("line1"),
                [("order_id", order.id), ("priority", JNum(Priority(order.priority)))]))
    else NoCommand
  }

  /** The AGVs whose recorded status is `idle`, in the dictionary's order. */
  function IdleAgvs(agvs: Dict<AgvInfo>): (r: seq<string>)
    ensures forall a :: a in r <==> exists i :: 0 <= i < |agvs| && agvs[i].0 == a && agvs[i].1.status == JStr("idle")
    decreases |agvs|
  {
    if |agvs| == 0 then []
    else
      var rest := IdleAgvs(agvs[1..]);
      assert forall i :: 0 < i < |agvs| ==> agvs[i] == agvs[1..][i - 1];
      if agvs[0].1.status == JStr("idle") then [agvs[0].0] + rest else rest
  }

  /** A station that is idle with an empty queue. */
  predicate Ready(info: StationInfo) {
    info.status == JStr("idle") && info.queueLength == 0
  }

  /** The station loop of `make_line_commander_decision`: the first ready station. */
  function FirstReady(stations: Dict<StationInfo>): (r: Option<string>)
    ensures r.None? <==> forall i :: 0 <= i < |stations| ==> !Ready(stations[i].1)
    ensures r.Some? ==> exists i :: 0 <= i < |stations| && stations[i].0 == r.value && Ready(stations[i].1)
    decreases |stations|
  {
    if |stations| == 0 then None
    else if Ready(stations[0].1) then Some(stations[0].0)
    else
      var rest := FirstReady(stations[1..]);
      assert forall i :: 0 < i < |stations| ==> stations[i] == stations[1..][i - 1];
      rest
  }

  /**
   * `make_line_commander_decision`: when some AGV is idle and some station
   * is ready, the AGV `random.choice` draws (the `pick`-th, cyclically) is
   * sent to P0; otherwise nothing.
   */
  function LineCommanderDecision(state: FactoryState, pick: nat): (o: Outcome)
    ensures !o.Raised?
    ensures o.Issue? <==> (exists i :: 0 <= i < |state.agvStatus| && state.agvStatus[i].1.status == JStr("idle"))
                          && (exists j :: 0 <= j < |state.stationStatus| && Ready(state.stationStatus[j].1))
    ensures o.Issue? ==> o.cmd.action == "move" && o.cmd.params == MoveTo("P0") && o.cmd.target.JStr?
                         && exists i :: 0 <= i < |state.agvStatus| && state.agvStatus[i].0 == o.cmd.target.s
                                      && state.agvStatus[i].1.status == JStr("idle")
    ensures o.Issue? ==> exists j :: 0 <= j < |state.stationStatus| && Ready(state.stationStatus[j].1)
                                     && o.cmd.id == Some(Generated("line_cmd_" + state.stationStatus[j].0 + "_"))
  {
    var idle := IdleAgvs(state.agvStatus);
    if |idle| > 0 then
      var agv := idle[pick % |idle|];
      assert agv in idle;
      match FirstReady(state.stationStatus)
      case Some(station) => Issue(Cmd("line_cmd_" + station + "_", "move", JStr(agv), MoveTo("P0")))
      case None => NoCommand
    else
      assert forall i :: 0 <= i < |state.agvStatus| ==> state.agvStatus[i].1.status != JStr("idle") by {
        forall i | 0 <= i < |state.agvStatus| ensures state.agvStatus[i].1.status != JStr("idle") {
          assert state.agvStatus[i].0 !in idle;
        }
      }
      NoCommand
  }

  /** `message.get("status") == "idle"`. */
  predicate IdleMessage(message: Object) {
    Field(message, "status", JNull) == JStr("idle")
  }

  /**
   * `make_coordination_decision`: an idle station processes its product or
   * asks for one; otherwise an idle AGV charges to 80.0 below 20 and goes to
   * P0 otherwise; an orders topic asks the factory for its result. A battery
   * that is not a number raises.
   */
  function CoordinationDecision(topic: string, message: Object): (o: Outcome)
    ensures Contains(topic, "station") && IdleMessage(message) ==>
              if Truthy(Field(message, "product_id", JNull))
              then Issues(o, "process", Field(message, "station_id", JStr("")), [("product_id", Field(message, "product_id", JNull))])
              else Issues(o, "load", Field(message, "station_id", JStr("")), [])
    ensures !(Contains(topic, "station") && IdleMessage(message)) && Contains(topic, "agv") && IdleMessage(message) ==>
              match Less(Field(message, "battery_level", JNum(100.0)), 20.0)
              case Err(e) => o == Raised(e)
              case Ok(low) =>
                if low then Issues(o, "charge", Field(message, "agv_id", JStr("")), ChargeTo(80.0))
                else Issues(o, "move", Field(message, "agv_id", JStr("")), MoveTo("P0"))
    ensures !IdleMessage(message) || (!Contains(topic, "station") && !Contains(topic, "agv")) ==>
              if Contains(topic, "orders") then Issues(o, "get_result", JStr("factory"), []) else o == NoCommand
    ensures o.Raised? ==> o.error == TypeError && Contains(topic, "agv")
  {
    if Contains(topic, "station") && IdleMessage(message) then
      var station := Field(message, "station_id", JStr(""));
      if Truthy(Field(message, "product_id", JNull)) then
        Issue(Cmd("multi_process_", "process", station, [("product_id", Field(message, "product_id", JNull))]))
      else Issue(Cmd("multi_request_", "load", station, []))
    else if Contains(topic, "agv") && IdleMessage(message) then
      var agv := Field(message, "agv_id", JStr(""));
      match Less(Field(message, "battery_level", JNum(100.0)), 20.0)
      case Err(e) => Raised(e)
      case Ok(low) =>
        if low then Issue(Cmd("multi_charge_", "charge", agv, ChargeTo(80.0)))
        else Issue(Cmd("multi_move_", "move", agv, MoveTo("P0")))
    else if Contains(topic, "orders") then Issue(Cmd("multi_order_", "get_result", JStr("factory"), []))
    else NoCommand
  }

  /** The command the `except` branch returns. */
  function Fallback(): Command {
    Cmd("multi_fallback_", "get_result", JStr("factory"), [])
  }

  /**
   * `predict`: orders go to the supervisor, station reports to the line
   * commander, and everything else to coordination; an exception anywhere
   * gives the fallback. `pick` stands for `random.choice`.
   */
  function Predict(topic: string, message: Object, text: string, pick: nat): (o: Outcome)
    ensures !o.Raised?
    ensures Analyze(message, text).Err? ==> o == Issue(Fallback())
    ensures Analyze(message, text).Ok? && Contains(topic, "orders") ==>
              o == SupervisorDecision(Analyze(message, text).value)
    ensures Analyze(message, text).Ok? && !Contains(topic, "orders") && Contains(topic, "station") ==>
              o == LineCommanderDecision(Analyze(message, text).value, pick)
    ensures Analyze(message, text).Ok? && !Contains(topic, "orders") && !Contains(topic, "station") ==>
              o == (if CoordinationDecision(topic, message).Raised? then Issue(Fallback()) else CoordinationDecision(topic, message))
  {
    match Analyze(message, text)
    case Err(_) => Issue(Fallback())
    case Ok(state) =>
      var decision :=
        if Contains(topic, "orders") then SupervisorDecision(state)
        else if Contains(topic, "station") then LineCommanderDecision(state, pick)
        else CoordinationDecision(topic, message);
      if decision.Raised? then Issue(Fallback()) else decision
  }

  /** A message whose text names no station, or whose buffer has a length, is analysed without error. */
  predicate Analysable(message: Object, text: string) {
    !Mentions(StationNames, Lower(text)) || PyLen(Buffer(message)).Ok?
  }

  /** An order on an orders topic is assigned to `line1` with the priority its `priority` field maps to. */
  lemma OrderAssigned(topic: string, message: Object, text: string, pick: nat)
    requires Contains(topic, "orders") && Contains(Lower(text), "order") && Analysable(message, text)
    ensures Issues(Predict(topic, message, text, pick), "assign_order", JStr("line1"),
                   [("order_id", Field(message, "order_id", JStr("unknown"))),
                    ("priority", JNum(Priority(Field(message, "priority", JStr("medium")))))])
  {
  }

  /** An orders topic whose message never says `order` gets no command. */
  lemma OrderTopicWithoutOrder(topic: string, message: Object, text: string, pick: nat)
    requires Contains(topic, "orders") && !Contains(Lower(text), "order") && Analysable(message, text)
    ensures Predict(topic, message, text, pick) == NoCommand
  {
  }

  /** An idle AGV report below 20 is charged to 80.0; a battery that is not a number gives the fallback. */
  lemma IdleAgvBattery(topic: string, message: Object, text: string, pick: nat)
    requires !Contains(topic, "orders") && !Contains(topic, "station") && Contains(topic, "agv")
    requires IdleMessage(message) && Analysable(message, text)
    ensures var o := Predict(topic, message, text, pick);
            var agv := Field(message, "agv_id", JStr(""));
            match Less(Field(message, "battery_level", JNum(100.0)), 20.0)
            case Err(_) => o == Issue(Fallback())
            case Ok(low) => if low then Issues(o, "charge", agv, ChargeTo(80.0)) else Issues(o, "move", agv, MoveTo("P0"))
  {
  }

  /**
   * The station rules of the coordination decision are never reached from
   * `predict`: a topic naming a station is routed to the line commander, so
   * no call ends in `process` or `load`.
   */
  lemma NoStationCommands(topic: string, message: Object, text: string, pick: nat)
    ensures var o := Predict(topic, message, text, pick);
            o.Issue? ==> o.cmd.action != "process" && o.cmd.action != "load"
  {
    var o := Predict(topic, message, text, pick);
    if Analyze(message, text).Ok? && !Contains(topic, "orders") && !Contains(topic, "station") && o.Issue? {
      var c := CoordinationDecision(topic, message);
      assert c.Issue? ==> c.cmd.action in {"charge", "move", "get_result"};
      assert "process"[0] != "charge"[0] && "process"[0] != "move"[0] && "process"[0] != "get_result"[0];
      assert "load"[0] != "charge"[0] && "load"[0] != "move"[0] && "load"[0] != "get_result"[0];
    }
  }

  lemma LowerStationA()
    ensures Lower("StationA") == "stationa"
  {
  }

  /** The state of such a report: both AGVs idle, and StationA ready. */
  lemma ReadyState(message: Object, text: string) returns (state: FactoryState)
    requires Contains(Lower(text), "agv") && Contains(Lower(text), "stationa")
    requires Field(message, "status", JStr("idle")) == JStr("idle") && Buffer(message) == JArr([])
    ensures Analyze(message, text) == Ok(state)
    ensures state.agvStatus == [("AGV_1", AgvReport(message)), ("AGV_2", AgvReport(message))]
    ensures exists j :: 0 <= j < |state.stationStatus| && Ready(state.stationStatus[j].1)
  {
    assert PyLen(Buffer(message)) == Ok(0);
    var r := Analyze(message, text);
    state := r.value;
    LowerStationA();
    assert "StationA" in Keys(state.stationStatus) by {
      assert StationNames[0] == "StationA";
    }
    var j :| 0 <= j < |state.stationStatus| && Keys(state.stationStatus)[j] == "StationA";
    assert Ready(state.stationStatus[j].1);
  }

  /**
   * A station report that also mentions an AGV, with an empty buffer and an
   * idle status, sends one of the two AGVs to P0.
   */
  lemma ReadyStationCallsAgv(topic: string, message: Object, text: string, pick: nat)
    requires !Contains(topic, "orders") && Contains(topic, "station")
    requires Contains(Lower(text), "agv") && Contains(Lower(text), "stationa")
    requires Field(message, "status", JStr("idle")) == JStr("idle") && Buffer(message) == JArr([])
    ensures var o := Predict(topic, message, text, pick);
            o.Issue? && o.cmd.action == "move" && o.cmd.params == MoveTo("P0")
            && (o.cmd.target == JStr("AGV_1") || o.cmd.target == JStr("AGV_2"))
  {
    var state := ReadyState(message, text);
    var o := LineCommanderDecision(state, pick);
    assert state.agvStatus[0].1.status == JStr("idle");
    assert o.Issue?;
    var i :| 0 <= i < |state.agvStatus| && state.agvStatus[i].0 == o.cmd.target.s;
  }
}
