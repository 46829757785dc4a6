/**
 * The line commander agent of one production line: it tracks the AGVs of its
 * line, keeps a queue of AGV tasks, and sends commands to the line's command
 * topic. The language-model call that suggests a move is a parameter.
 */
module LineCommanderAgent {
  import opened Wrappers
  import opened Text
  import opened Dicts
  import opened JsonValues

  /** `AGVTask`. */
  datatype AgvTask = Idle | Moving | Loading | Unloading | Charging

  /**
   * `AGVStatus`. Position, battery and cargo hold whatever the last status
   * message carried, so they are JSON values.
   */
  datatype AgvStatus = AgvStatus(agvId: string, position: Json, battery: Json, task: AgvTask, cargo: Json)

  /** `LineCommandDecision`, the shape of the language model's answer. */
  datatype LineCommandDecision = LineCommandDecision(
    action: string, targetAgv: string, targetPoint: Option<string>,
    productId: Option<string>, targetLevel: Option<real>, reasoning: string)

  /** `AGV_i`. */
  function AgvName(i: nat): string {
    "AGV_" + NatToString(i)
  }

  /** The state `_initialize_agv_status` gives an AGV. */
  function FreshAgv(id: string): AgvStatus {
    AgvStatus(id, JStr("P0"), JNum(100.0), Idle, JNull)
  }

  /** The table after initialising `AGV_1` to `AGV_n` in turn. */
  function InitialFleet(d: Dict<AgvStatus>, n: nat): Dict<AgvStatus> {
    if n == 0 then d else Put(InitialFleet(d, n - 1), AgvName(n), FreshAgv(AgvName(n)))
  }

  /** Starting from an empty table the line has exactly `AGV_1` and `AGV_2`, both fresh. */
  lemma InitialFleetExactly()
    ensures InitialFleet([], 2) == [("AGV_1", FreshAgv("AGV_1")), ("AGV_2", FreshAgv("AGV_2"))]
  {
    assert AgvName(1) == "AGV_1" by { assert NatToString(1) == "1"; }
    assert AgvName(2) == "AGV_2" by { assert NatToString(2) == "2"; }
    assert !HasKey([("AGV_1", FreshAgv("AGV_1"))], "AGV_2") by {
      assert Keys([("AGV_1", FreshAgv("AGV_1"))]) == ["AGV_1"];
    }
  }

  /** `_extract_device_id`: the second-to-last segment of a topic with at least four. */
  function ExtractDeviceId(topic: string): (r: Option<string>)
    ensures r.Some? <==> |Split(topic, '/')| >= 4
  {
    var parts := Split(topic, '/');
    if |parts| >= 4 then Some(parts[|parts| - 2]) else None
  }

  /** `root/line/kind/id/status`, the topic a device reports its status on. */
  function StatusTopic(root: string, line: string, kind: string, id: string): string {
    root + "/" + (line + "/" + (kind + "/" + (id + "/status")))
  }

  /** On a device status topic the id is what is extracted. */
  lemma ExtractFromStatusTopic(root: string, line: string, kind: string, id: string)
    requires '/' !in root && '/' !in line && '/' !in kind && '/' !in id
    ensures ExtractDeviceId(StatusTopic(root, line, kind, id)) == Some(id)
  {
    var parts := [root, line, kind, id, "status"];
    assert Join(parts, '/') == StatusTopic(root, line, kind, id) by {
      assert parts[4..] == ["status"];
      assert parts[3..] == [id, "status"] && parts[3..][1..] == parts[4..];
      assert Join(parts[3..], '/') == id + "/" + "status";
      assert parts[2..][1..] == parts[3..];
      assert Join(parts[2..], '/') == kind + "/" + (id + "/" + "status");
      assert parts[1..][1..] == parts[2..];
      assert Join(parts[1..], '/') == line + "/" + (kind + "/" + (id + "/" + "status"));
    }
    SplitJoin(parts, '/');
  }

  /** A line alert topic `root/line/alerts` has three segments and names no device. */
  lemma ExtractShortTopic(root: string, line: string)
    requires '/' !in root && '/' !in line
    ensures ExtractDeviceId(root + "/" + (line + "/alerts")) == None
  {
    assert Split("alerts", '/') == ["alerts"];
    SplitCons(line, '/', "alerts");
    SplitCons(root, '/', line + "/alerts");
  }

  /** The `status` string of an AGV message mapped to a task: unknown or missing is idle; a key Python cannot hash raises. */
  function TaskFromStatus(status: Object): (r: Result<AgvTask, PyError>)
    ensures r.Err? <==> Field(status, "status", JStr("IDLE")).JArr? || Field(status, "status", JStr("IDLE")).JObj?
    ensures r.Ok? && r.value != Idle ==>
              Field(status, "status", JStr("IDLE")) in
                [JStr("MOVING"), JStr("LOADING"), JStr("UNLOADING"), JStr("CHARGING")]
  {
    var s := Field(status, "status", JStr("IDLE"));
    if s.JArr? || s.JObj? then Err(TypeError)
    else if s == JStr("MOVING") then Ok(Moving)
    else if s == JStr("LOADING") then Ok(Loading)
    else if s == JStr("UNLOADING") then Ok(Unloading)
    else if s == JStr("CHARGING") then Ok(Charging)
    else Ok(Idle)
  }

  /** Position and battery are kept when absent; cargo is always overwritten. */
  function Refreshed(agv: AgvStatus, status: Object): (r: AgvStatus)
    ensures !HasKey(status, "current_position") ==> r.position == agv.position
    ensures !HasKey(status, "battery_level") ==> r.battery == agv.battery
    ensures HasKey(status, "current_position") ==> Some(r.position) == Get(status, "current_position")
    ensures HasKey(status, "battery_level") ==> Some(r.battery) == Get(status, "battery_level")
    ensures !HasKey(status, "cargo") ==> r.cargo == JNull
    ensures r.agvId == agv.agvId && r.task == agv.task
  {
    agv.(position := Field(status, "current_position", agv.position),
         battery := Field(status, "battery_level", agv.battery),
         cargo := Field(status, "cargo", JNull))
  }

  /** An AGV `_select_best_agv` accepts: idle with more than 20% battery. */
  predicate Qualifies(a: AgvStatus) {
    a.task == Idle && Greater(a.battery, 20.0) == Ok(true)
  }

  /** An idle AGV whose battery is not a number makes the comparison raise. */
  predicate ComparisonRaises(a: AgvStatus) {
    a.task == Idle && Greater(a.battery, 20.0).Err?
  }

  /** The ids of the qualifying AGVs, in table order. */
  function Available(agvs: Dict<AgvStatus>): (ids: seq<string>)
    ensures |ids| <= |agvs|
    decreases |agvs|
  {
    if |agvs| == 0 then []
    else
      var rest := Available(agvs[..|agvs| - 1]);
      if Qualifies(agvs[|agvs| - 1].1) then rest + [agvs[|agvs| - 1].0] else rest
  }

  predicate AnyRaises(agvs: Dict<AgvStatus>) {
    exists i :: 0 <= i < |agvs| && ComparisonRaises(agvs[i].1)
  }

  /** `_select_best_agv`: the first qualifying AGV, or none; the whole list is built first, so one bad battery value raises. */
  function SelectBest(agvs: Dict<AgvStatus>): (r: Result<Option<string>, PyError>)
    ensures r.Err? <==> AnyRaises(agvs)
    ensures r.Ok? && r.value.None? ==> Available(agvs) == []
  {
    if AnyRaises(agvs) then Err(TypeError)
    else
      var ids := Available(agvs);
      if |ids| == 0 then Ok(None) else Ok(Some(ids[0]))
  }

  /** The first qualifying AGV in table order is the one chosen. */
  lemma {:induction false} AvailableFirst(agvs: Dict<AgvStatus>, i: nat)
    requires i < |agvs| && Qualifies(agvs[i].1)
    requires forall j :: 0 <= j < i ==> !Qualifies(agvs[j].1)
    ensures |Available(agvs)| > 0 && Available(agvs)[0] == agvs[i].0
    decreases |agvs|
  {
    if i < |agvs| - 1 {
      var init := agvs[..|agvs| - 1];
      assert init[i] == agvs[i];
      forall j | 0 <= j < i ensures !Qualifies(init[j].1) {
        assert init[j] == agvs[j];
      }
      AvailableFirst(init, i);
    } else {
      AvailableNone(agvs[..|agvs| - 1]);
    }
  }

  /** With no qualifying AGV none is available. */
  lemma {:induction false} AvailableNone(agvs: Dict<AgvStatus>)
    requires forall j :: 0 <= j < |agvs| ==> !Qualifies(agvs[j].1)
    ensures Available(agvs) == []
    decreases |agvs|
  {
    if |agvs| > 0 {
      var init := agvs[..|agvs| - 1];
      forall j | 0 <= j < |init| ensures !Qualifies(init[j].1) {
        assert init[j] == agvs[j];
      }
      AvailableNone(init);
    }
  }

  /** `_select_best_agv` picks the first qualifying AGV in table order, and none when none qualifies. */
  lemma SelectBestIsFirst(agvs: Dict<AgvStatus>)
    requires !AnyRaises(agvs)
    ensures (forall j :: 0 <= j < |agvs| ==> !Qualifies(agvs[j].1)) ==> SelectBest(agvs) == Ok(None)
    ensures forall i :: 0 <= i < |agvs| && Qualifies(agvs[i].1) && (forall j :: 0 <= j < i ==> !Qualifies(agvs[j].1)) ==>
              SelectBest(agvs) == Ok(Some(agvs[i].0))
  {
    if forall j :: 0 <= j < |agvs| ==> !Qualifies(agvs[j].1) {
      AvailableNone(agvs);
    }
    forall i | 0 <= i < |agvs| && Qualifies(agvs[i].1) && (forall j :: 0 <= j < i ==> !Qualifies(agvs[j].1))
      ensures SelectBest(agvs) == Ok(Some(agvs[i].0))
    {
      AvailableFirst(agvs, i);
    }
  }

  /** `"{line}_{agv}_{action}_{count}"`. */
  function CommandId(line: string, agv: string, action: string, count: nat): string {
    line + "_" + agv + "_" + action + "_" + NatToString(count)
  }

  /** The command `_send_agv_command` publishes; `count` is the task-queue length at that moment. */
  function AgvCommand(line: string, agv: string, action: string, params: Object, count: nat): Object {
    [("command_id", JStr(CommandId(line, agv, action, count))),
     ("action", JStr(action)), ("target", JStr(agv)), ("params", JObj(params))]
  }

  /** A command id starts with the line, the AGV and the action, and its trailing digits give back the task count. */
  lemma CommandIdCount(line: string, agv: string, action: string, count: nat)
    ensures var id := CommandId(line, agv, action, count);
            var n := |NatToString(count)|;
            && StartsWith(id, line + "_" + agv + "_" + action + "_")
            && n < |id| && id[|id| - n - 1] == '_'
            && IsDigits(id[|id| - n..]) && DigitsValue(id[|id| - n..]) == count
  {
    var id := CommandId(line, agv, action, count);
    var head := line + "_" + agv + "_" + action + "_";
    assert id == head + NatToString(count);
    assert id[..|head|] == head;
    assert id[|id| - |NatToString(count)|..] == NatToString(count);
    NatToStringValue(count);
  }

  /**
   * `_execute_ai_decision`: the action and parameters sent, if any. A decision
   * for another AGV or with an unknown action sends nothing; a load carries
   * `product_id` only when one is given; a charge without a level charges to 80.
   */
  function AiCommand(d: LineCommandDecision, agvId: string): (r: Option<(string, Object)>)
    ensures d.targetAgv != agvId ==> r.None?
    ensures r.Some? <==> d.targetAgv == agvId && d.action in ["move", "load", "unload", "charge"]
    ensures r.Some? ==> r.value.0 == d.action
    ensures r.Some? && d.action == "load" ==>
              (HasKey(r.value.1, "product_id") <==> d.productId.Some? && d.productId.value != "")
    ensures r.Some? && d.action == "charge" ==>
              Get(r.value.1, "target_level") ==
                Some(JNum(if d.targetLevel.Some? && d.targetLevel.value != 0.0 then d.targetLevel.value else 80.0))
  {
    if d.targetAgv != agvId then None
    else if d.action == "move" then
      Some(("move", [("target_point", if d.targetPoint.Some? then JStr(d.targetPoint.value) else JNull)]))
    else if d.action == "load" then
      if d.productId.Some? && d.productId.value != "" then
        Singleton("product_id", JStr(d.productId.value));
        Some(("load", [("product_id", JStr(d.productId.value))]))
      else Some(("load", []))
    else if d.action == "unload" then Some(("unload", []))
    else if d.action == "charge" then
      Singleton("target_level", JNum(if d.targetLevel.Some? && d.targetLevel.value != 0.0 then d.targetLevel.value else 80.0));
      Some(("charge", [("target_level",
                        JNum(if d.targetLevel.Some? && d.targetLevel.value != 0.0 then d.targetLevel.value else 80.0))]))
    else None
  }

  /** A task in the queue already assigned to this AGV. */
  predicate HasPending(queue: seq<Object>, agvId: string) {
    exists i :: 0 <= i < |queue| && Field(queue[i], "assigned_agv", JNull) == JStr(agvId)
  }

  /** What `_make_agv_decision` chooses for an idle AGV. */
  datatype Choice = FollowPending | ChargeNow | AskModel | ChoiceRaised(error: PyError)

  /** Pending work first, then a battery below 30%, then the language model. */
  function Decide(agv: AgvStatus, queue: seq<Object>, agvId: string): (c: Choice)
    ensures HasPending(queue, agvId) ==> c == FollowPending
    ensures !HasPending(queue, agvId) ==>
              c == (match Less(agv.battery, 30.0)
                    case Ok(true) => ChargeNow
                    case Ok(false) => AskModel
                    case Err(e) => ChoiceRaised(e))
  {
    if HasPending(queue, agvId) then FollowPending
    else
      match Less(agv.battery, 30.0)
      case Err(e) => ChoiceRaised(e)
      case Ok(low) => if low then ChargeNow else AskModel
  }

  /** An AGV with pending work is never sent to charge, however low its battery. */
  lemma PendingBeforeBattery(agv: AgvStatus, queue: seq<Object>, agvId: string, k: nat)
    requires k < |queue| && Field(queue[k], "assigned_agv", JNull) == JStr(agvId)
    ensures Decide(agv, queue, agvId) == FollowPending
  {
  }

  /** The commands the decision sends: a charge to 80, or what the model's answer asks for. */
  function DecisionCommands(line: string, agvId: string, choice: Choice, model: Option<LineCommandDecision>,
                            count: nat): (cmds: seq<Object>)
    ensures choice == ChargeNow ==>
              cmds == [AgvCommand(line, agvId, "charge", [("target_level", JNum(80.0))], count)]
    ensures choice.FollowPending? || choice.ChoiceRaised? ==> cmds == []
    ensures |cmds| <= 1
  {
    match choice
    case ChargeNow => [AgvCommand(line, agvId, "charge", [("target_level", JNum(80.0))], count)]
    case AskModel =>
      if model.Some? && AiCommand(model.value, agvId).Some? then
        var (action, params) := AiCommand(model.value, agvId).value;
        [AgvCommand(line, agvId, action, params, count)]
      else []
    case _ => []
  }

  /** The move an assigned task starts with: P0 for a raw-material pickup, P9 for a warehouse delivery. */
  function TaskMove(task: Object): Option<string> {
    var t := Field(task, "type", JNull);
    if t == JStr("pickup_raw_material") then Some("P0")
    else if t == JStr("deliver_to_warehouse") then Some("P9")
    else None
  }

  /** The topic part that routes a line message. */
  datatype Route = AgvRoute | StationRoute | ConveyorRoute | AlertRoute | ResponseRoute | AssignmentRoute | Ignored

  /** `_on_line_message`: the first topic marker found decides; otherwise an order assignment by its type. */
  function RouteOf(topic: string, message: Object): (r: Route)
    ensures Contains(topic, "/agv/") ==> r == AgvRoute
    ensures r == AssignmentRoute ==>
              !Contains(topic, "/agv/") && !Contains(topic, "/station/") && !Contains(topic, "/conveyor/")
              && !Contains(topic, "/alerts") && !Contains(topic, "/response/")
              && Get(message, "type") == Some(JStr("order_assignment"))
  {
    if Contains(topic, "/agv/") then AgvRoute
    else if Contains(topic, "/station/") then StationRoute
    else if Contains(topic, "/conveyor/") then ConveyorRoute
    else if Contains(topic, "/alerts") then AlertRoute
    else if Contains(topic, "/response/") then ResponseRoute
    else if Field(message, "type", JNull) == JStr("order_assignment") then AssignmentRoute
    else Ignored
  }

  class LineCommander {
    const lineId: string
    var agvStatus: Dict<AgvStatus>
    var taskQueue: seq<Object>
    var stationStatus: Dict<Object>
    var conveyorStatus: Dict<Object>
    /** The commands published to this line's command topic, in order. */
    var sent: seq<Object>

    constructor(lineId: string)
      ensures this.lineId == lineId
      ensures agvStatus == [] && taskQueue == [] && stationStatus == [] && conveyorStatus == [] && sent == []
    {
      this.lineId := lineId;
      agvStatus := [];
      taskQueue := [];
      stationStatus := [];
      conveyorStatus := [];
      sent := [];
    }

    /** `_initialize_agv_status`: `AGV_1` and `AGV_2` at P0, full battery, idle. */
    method InitializeAgvStatus()
      modifies this
      ensures agvStatus == InitialFleet(old(agvStatus), 2)
      ensures taskQueue == old(taskQueue) && sent == old(sent)
      ensures stationStatus == old(stationStatus) && conveyorStatus == old(conveyorStatus)
    {
      for i := 1 to 3
        invariant agvStatus == InitialFleet(old(agvStatus), i - 1)
        invariant taskQueue == old(taskQueue) && sent == old(sent)
        invariant stationStatus == old(stationStatus) && conveyorStatus == old(conveyorStatus)
      {
        var id := AgvName(i);
        agvStatus := Put(agvStatus, id, FreshAgv(id));
      }
    }

    /** `_send_agv_command`: the id counts the tasks queued at this moment. */
    method SendAgvCommand(agvId: string, action: string, params: Object)
      modifies this
      ensures sent == old(sent) + [AgvCommand(lineId, agvId, action, params, |taskQueue|)]
      ensures agvStatus == old(agvStatus) && taskQueue == old(taskQueue)
      ensures stationStatus == old(stationStatus) && conveyorStatus == old(conveyorStatus)
    {
      sent := sent + [AgvCommand(lineId, agvId, action, params, |taskQueue|)];
    }

    /**
     * `_assign_agv_task`: the task is always queued; it names an AGV only
     * when one was selected, and then its first move is sent. A selection
     * that raises queues nothing.
     */
    method AssignAgvTask(task: Object) returns (selected: Result<Option<string>, PyError>)
      modifies this
      ensures selected == SelectBest(old(agvStatus))
      ensures selected.Err? ==> taskQueue == old(taskQueue) && sent == old(sent)
      ensures selected == Ok(None) ==> taskQueue == old(taskQueue) + [task] && sent == old(sent)
      ensures selected.Ok? && selected.value.Some? ==>
                var t := Put(task, "assigned_agv", JStr(selected.value.value));
                && taskQueue == old(taskQueue) + [t]
                && sent == old(sent) + (if TaskMove(t).Some?
                                        then [AgvCommand(lineId, selected.value.value, "move",
                                                         [("target_point", JStr(TaskMove(t).value))], |taskQueue|)]
                                        else [])
      ensures agvStatus == old(agvStatus)
      ensures stationStatus == old(stationStatus) && conveyorStatus == old(conveyorStatus)
    {
      selected := SelectBest(agvStatus);
      match selected
      case Err(_) =>
      case Ok(None) =>
        taskQueue := taskQueue + [task];
      case Ok(Some(agv)) =>
        var t := Put(task, "assigned_agv", JStr(agv));
        taskQueue := taskQueue + [t];
        var move := TaskMove(t);
        if move.Some? {
          SendAgvCommand(agv, "move", [("target_point", JStr(move.value))]);
        }
    }

    /** `_execute_ai_decision`. */
    method ExecuteAiDecision(d: LineCommandDecision, agvId: string)
      modifies this
      ensures sent == old(sent) + DecisionCommands(lineId, agvId, AskModel, Some(d), |taskQueue|)
      ensures agvStatus == old(agvStatus) && taskQueue == old(taskQueue)
      ensures stationStatus == old(stationStatus) && conveyorStatus == old(conveyorStatus)
    {
      match AiCommand(d, agvId)
      case None =>
      case Some((action, params)) =>
        SendAgvCommand(agvId, action, params);
    }

    /** `_make_agv_decision` for a tracked AGV; `model` is the language model's answer, if any. */
    method MakeAgvDecision(agvId: string, model: Option<LineCommandDecision>)
      requires HasKey(agvStatus, agvId)
      modifies this
      ensures sent == old(sent) + DecisionCommands(lineId, agvId, Decide(Get(old(agvStatus), agvId).value, old(taskQueue), agvId),
                                                   model, |taskQueue|)
      ensures agvStatus == old(agvStatus) && taskQueue == old(taskQueue)
      ensures stationStatus == old(stationStatus) && conveyorStatus == old(conveyorStatus)
    {
      var agv := Get(agvStatus, agvId).value;
      var choice := Decide(agv, taskQueue, agvId);
      match choice
      case ChargeNow =>
        SendAgvCommand(agvId, "charge", [("target_level", JNum(80.0))]);
      case AskModel =>
        if model.Some? {
          ExecuteAiDecision(model.value, agvId);
        }
      case _ =>
    }

    /**
     * `_handle_agv_status`: a status for a tracked AGV refreshes it; once its
     * task is known and it is idle, a decision is made. A status value that
     * cannot be a key raises after the refresh and before the task changes.
     */
    method HandleAgvStatus(status: Object, topic: string, model: Option<LineCommandDecision>)
      modifies this
      ensures var id := ExtractDeviceId(topic);
              !(id.Some? && id.value != "" && HasKey(old(agvStatus), id.value)) ==>
                agvStatus == old(agvStatus) && sent == old(sent)
      ensures var id := ExtractDeviceId(topic);
              id.Some? && id.value != "" && HasKey(old(agvStatus), id.value) ==>
                var agv := Refreshed(Get(old(agvStatus), id.value).value, status);
                match TaskFromStatus(status)
                case Err(_) => agvStatus == Put(old(agvStatus), id.value, agv) && sent == old(sent)
                case Ok(t) =>
                  && agvStatus == Put(old(agvStatus), id.value, agv.(task := t))
                  && sent == old(sent) + (if t == Idle
                                          then DecisionCommands(lineId, id.value, Decide(agv.(task := t), taskQueue, id.value),
                                                                model, |taskQueue|)
                                          else [])
      ensures taskQueue == old(taskQueue)
      ensures stationStatus == old(stationStatus) && conveyorStatus == old(conveyorStatus)
    {
      var id := ExtractDeviceId(topic);
      if !(id.Some? && id.value != "" && HasKey(agvStatus, id.value)) {
        return;
      }
      var agv := Refreshed(Get(agvStatus, id.value).value, status);
      match TaskFromStatus(status)
      case Err(_) =>
        agvStatus := Put(agvStatus, id.value, agv);
      case Ok(t) =>
        agvStatus := Put(agvStatus, id.value, agv.(task := t));
        if t == Idle {
          MakeAgvDecision(id.value, model);
        }
    }

    /** `_handle_station_status`: the latest status is stored under the station id. */
    method HandleStationStatus(status: Object, topic: string)
      modifies this
      ensures var id := ExtractDeviceId(topic);
              stationStatus == if id.Some? && id.value != "" then Put(old(stationStatus), id.value, status)
                               else old(stationStatus)
      ensures agvStatus == old(agvStatus) && taskQueue == old(taskQueue) && sent == old(sent)
      ensures conveyorStatus == old(conveyorStatus)
    {
      var id := ExtractDeviceId(topic);
      if id.Some? && id.value != "" {
        stationStatus := Put(stationStatus, id.value, status);
      }
    }

    /** `_handle_conveyor_status`: the same for conveyors. */
    method HandleConveyorStatus(status: Object, topic: string)
      modifies this
      ensures var id := ExtractDeviceId(topic);
              conveyorStatus == if id.Some? && id.value != "" then Put(old(conveyorStatus), id.value, status)
                                else old(conveyorStatus)
      ensures agvStatus == old(agvStatus) && taskQueue == old(taskQueue) && sent == old(sent)
      ensures stationStatus == old(stationStatus)
    {
      var id := ExtractDeviceId(topic);
      if id.Some? && id.value != "" {
        conveyorStatus := Put(conveyorStatus, id.value, status);
      }
    }
  }

  /** A fresh line commander, once started, tracks exactly `AGV_1` and `AGV_2` and has sent nothing. */
  method StartedCommander(lineId: string) returns (c: LineCommander)
    ensures c.agvStatus == [("AGV_1", FreshAgv("AGV_1")), ("AGV_2", FreshAgv("AGV_2"))]
    ensures c.taskQueue == [] && c.sent == []
  {
    c := new LineCommander(lineId);
    c.InitializeAgvStatus();
    InitialFleetExactly();
  }
}
