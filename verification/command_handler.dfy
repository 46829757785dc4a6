/**
 * The factory-side handler for agent commands arriving on the per-line
 * command topics. It picks the line, validates the command, applies a fixed
 * chain of checks for each action and then either refuses with a response
 * message or schedules a simulation process. Publishing and the simulation
 * itself are outside the model: the handler's result is the list of
 * effects it would perform, in order.
 */
module CommandHandler {
  import opened Wrappers
  import opened Dicts
  import opened JsonValues
  import CommandProcessor

  /**
   * An AGV as the handler sees it: its current point and what
   * `get_point_operations` returns for that point (`None` or a dictionary
   * with a `device` and possibly a `buffer` entry).
   */
  datatype Agv = Agv(currentPoint: string, pointOps: Option<Object>)

  /** A production line: its name, its AGVs by id and the ids of its devices. */
  datatype Line = Line(name: string, agvs: Dict<Agv>, devices: seq<string>)

  /**
   * The factory: the lines by id, the factory-wide devices (warehouse and
   * raw material), whether a KPI calculator exists, and the result topic.
   */
  datatype Factory = Factory(lines: Dict<Line>, devices: seq<string>, hasKpiCalculator: bool, resultTopic: string)

  /** A command after schema validation. */
  datatype AgentCommand = AgentCommand(commandId: Option<string>, action: string, target: string, params: Object)

  /** Where `_find_device` found a device. */
  datatype DeviceRef = LineDevice(id: string) | FactoryDevice(id: string)

  /** The simulation process a successful check chain schedules. */
  datatype Task =
    | MoveTask(agv: string, targetPoint: Json)
    | LoadTask(agv: string, device: DeviceRef, buffer: Json, productId: Json)
    | UnloadTask(agv: string, device: DeviceRef, buffer: Json)
    | ChargeTask(agv: string, targetLevel: Json)

  /** The response texts; each constructor's comment gives the text the source publishes. */
  datatype Reply =
    /** "Failed to process command: {e}" */
    | ProcessingFailed
    /** "Failed to validate command: {e}" */
    | ValidationFailed
    /** "Production line '{line_id}' not found." */
    | LineNotFound(lineId: Json)
    /** "Unknown action: {action}" */
    | UnknownAction(action: string)
    /** "Failed to execute command {action}: {e}" */
    | ExecutionFailed(action: string)
    /** "'target_point' missing in move command." */
    | TargetPointMissing
    /** "AGV '{agv_id}' not found in line '{line.name}'." (move and charge) */
    | AgvNotFoundQuoted(agv: string, line: string)
    /** "AGV {agv_id} not found in line {line.name}" (load and unload) */
    | AgvNotFound(agv: string, line: string)
    /** "No device can be operated for {agv_id} at position {point}" (load) */
    | NoOperableDevice(agv: string, point: string)
    /** "No device mapping found for AGV {agv_id} at position {point}" (unload) */
    | NoDeviceMapping(agv: string, point: string)
    /** "Device '{device_id}' not found in line '{line.name}' or factory." (load) */
    | DeviceNotFoundQuoted(device: Json, line: string)
    /** "Device {device_id} not found in line {line.name} or factory." (unload) */
    | DeviceNotFound(device: Json, line: string)
    /** "'target_level' missing in charge command, will charge to 80 by default" */
    | DefaultChargeLevel
    /** "Results published to {result_topic}" */
    | ResultsPublished(topic: string)
    /** "KPI calculator not initialized" */
    | KpiNotInitialized

  /** A reply that refuses the command; the others are notices. */
  predicate IsRefusal(r: Reply) {
    !(r.DefaultChargeLevel? || r.ResultsPublished?)
  }

  /** One effect: a response on a line's response topic (`JNull` is the general one), a scheduled process, or the scores published. */
  datatype Effect =
    | Respond(line: Json, commandId: Json, reply: Reply)
    | Schedule(lineName: string, commandId: Json, task: Task)
    | PublishScores(topic: string)

  datatype Outcome = Handled(effects: seq<Effect>) | Crashed

  predicate NoSchedule(effects: seq<Effect>) {
    forall i :: 0 <= i < |effects| ==> !effects[i].Schedule?
  }

  /** A refusal: one response, nothing scheduled. */
  predicate Refused(effects: seq<Effect>, dest: Json, commandId: Json, reply: Reply) {
    effects == [Respond(dest, commandId, reply)]
  }

  /** `command.command_id` as the value put in a response. */
  function CommandIdValue(cmd: AgentCommand): Json {
    if cmd.commandId.Some? then JStr(cmd.commandId.value) else JNull
  }

  /** A value Python cannot use as a dictionary key. */
  predicate Unhashable(j: Json) {
    j.JArr? || j.JObj?
  }

  /**
   * `_find_device`: the line's device if it has one with that id, otherwise
   * the factory-wide one, otherwise none. An id that cannot be a key raises.
   */
  function FindDevice(f: Factory, line: Line, deviceId: Json): (r: Result<Option<DeviceRef>, PyError>)
    ensures r.Err? <==> Unhashable(deviceId)
    ensures r.Ok? && r.value.Some? ==> deviceId == JStr(r.value.value.id)
    ensures deviceId.JStr? && deviceId.s in line.devices ==> r == Ok(Some(LineDevice(deviceId.s)))
    ensures deviceId.JStr? && deviceId.s !in line.devices && deviceId.s in f.devices ==>
              r == Ok(Some(FactoryDevice(deviceId.s)))
    ensures r == Ok(None) <==>
              !Unhashable(deviceId) && !(deviceId.JStr? && (deviceId.s in line.devices || deviceId.s in f.devices))
  {
    if Unhashable(deviceId) then Err(TypeError)
    else if deviceId.JStr? && deviceId.s in line.devices then Ok(Some(LineDevice(deviceId.s)))
    else if deviceId.JStr? && deviceId.s in f.devices then Ok(Some(FactoryDevice(deviceId.s)))
    else Ok(None)
  }

  /** `_handle_move_agv`: target point present, then AGV known, then a move process. */
  function HandleMove(line: Line, agvId: string, params: Object, cid: Json): (effects: seq<Effect>)
    ensures !Truthy(Field(params, "target_point", JNull)) ==>
              Refused(effects, JStr(line.name), cid, TargetPointMissing)
    ensures Truthy(Field(params, "target_point", JNull)) && !HasKey(line.agvs, agvId) ==>
              Refused(effects, JStr(line.name), cid, AgvNotFoundQuoted(agvId, line.name))
    ensures Truthy(Field(params, "target_point", JNull)) && HasKey(line.agvs, agvId) ==>
              effects == [Schedule(line.name, cid, MoveTask(agvId, Field(params, "target_point", JNull)))]
  {
    var targetPoint := Field(params, "target_point", JNull);
    if !Truthy(targetPoint) then [Respond(JStr(line.name), cid, TargetPointMissing)]
    else if !HasKey(line.agvs, agvId) then [Respond(JStr(line.name), cid, AgvNotFoundQuoted(agvId, line.name))]
    else [Schedule(line.name, cid, MoveTask(agvId, targetPoint))]
  }

  /** The device entry of a point's operations, when the AGV has a truthy one. */
  function OperableDevice(agv: Agv): Option<Json> {
    if agv.pointOps.None? || !Truthy(JObj(agv.pointOps.value)) then None
    else
      var d := Field(agv.pointOps.value, "device", JNull);
      if Truthy(d) then Some(d) else None
  }

  /**
   * `_handle_load_agv`: AGV known, then a device at its point, then the
   * device found; the product id is forwarded only from the raw-material
   * store. A device id that cannot be a key fails the command.
   */
  function HandleLoad(f: Factory, line: Line, lineId: Json, agvId: string, params: Object, cid: Json): (effects: seq<Effect>)
    ensures !HasKey(line.agvs, agvId) ==> Refused(effects, JStr(line.name), cid, AgvNotFound(agvId, line.name))
    ensures HasKey(line.agvs, agvId) ==>
              var agv := Get(line.agvs, agvId).value;
              && (OperableDevice(agv).None? ==>
                    Refused(effects, JStr(line.name), cid, NoOperableDevice(agvId, agv.currentPoint)))
              && (OperableDevice(agv).Some? ==>
                    var deviceId := OperableDevice(agv).value;
                    match FindDevice(f, line, deviceId)
                    case Err(_) => Refused(effects, lineId, cid, ExecutionFailed("load"))
                    case Ok(None) => Refused(effects, JStr(line.name), cid, DeviceNotFoundQuoted(deviceId, line.name))
                    case Ok(Some(dev)) =>
                      effects == [Schedule(line.name, cid,
                                    LoadTask(agvId, dev, Field(agv.pointOps.value, "buffer", JNull),
                                             if deviceId == JStr("RawMaterial") then Field(params, "product_id", JNull)
                                             else JNull))])
  {
    if !HasKey(line.agvs, agvId) then [Respond(JStr(line.name), cid, AgvNotFound(agvId, line.name))]
    else
      var agv := Get(line.agvs, agvId).value;
      match OperableDevice(agv)
      case None => [Respond(JStr(line.name), cid, NoOperableDevice(agvId, agv.currentPoint))]
      case Some(deviceId) =>
        var buffer := Field(agv.pointOps.value, "buffer", JNull);
        match FindDevice(f, line, deviceId)
        case Err(_) => [Respond(lineId, cid, ExecutionFailed("load"))]
        case Ok(None) => [Respond(JStr(line.name), cid, DeviceNotFoundQuoted(deviceId, line.name))]
        case Ok(Some(dev)) =>
          var productId := if deviceId == JStr("RawMaterial") then Field(params, "product_id", JNull) else JNull;
          [Schedule(line.name, cid, LoadTask(agvId, dev, buffer, productId))]
  }

  /** `_handle_unload_agv`: the same chain as loading, with its own texts and no product id. */
  function HandleUnload(f: Factory, line: Line, lineId: Json, agvId: string, cid: Json): (effects: seq<Effect>)
    ensures !HasKey(line.agvs, agvId) ==> Refused(effects, JStr(line.name), cid, AgvNotFound(agvId, line.name))
    ensures HasKey(line.agvs, agvId) ==>
              var agv := Get(line.agvs, agvId).value;
              && (OperableDevice(agv).None? ==>
                    Refused(effects, JStr(line.name), cid, NoDeviceMapping(agvId, agv.currentPoint)))
              && (OperableDevice(agv).Some? ==>
                    var deviceId := OperableDevice(agv).value;
                    match FindDevice(f, line, deviceId)
                    case Err(_) => Refused(effects, lineId, cid, ExecutionFailed("unload"))
                    case Ok(None) => Refused(effects, JStr(line.name), cid, DeviceNotFound(deviceId, line.name))
                    case Ok(Some(dev)) =>
                      effects == [Schedule(line.name, cid,
                                    UnloadTask(agvId, dev, Field(agv.pointOps.value, "buffer", JNull)))])
  {
    if !HasKey(line.agvs, agvId) then [Respond(JStr(line.name), cid, AgvNotFound(agvId, line.name))]
    else
      var agv := Get(line.agvs, agvId).value;
      match OperableDevice(agv)
      case None => [Respond(JStr(line.name), cid, NoDeviceMapping(agvId, agv.currentPoint))]
      case Some(deviceId) =>
        var buffer := Field(agv.pointOps.value, "buffer", JNull);
        match FindDevice(f, line, deviceId)
        case Err(_) => [Respond(lineId, cid, ExecutionFailed("unload"))]
        case Ok(None) => [Respond(JStr(line.name), cid, DeviceNotFound(deviceId, line.name))]
        case Ok(Some(dev)) => [Schedule(line.name, cid, UnloadTask(agvId, dev, buffer))]
  }

  /** `_handle_charge_agv`: AGV known; a missing or falsy target level is announced and replaced by 80.0. */
  function HandleCharge(line: Line, agvId: string, params: Object, cid: Json): (effects: seq<Effect>)
    ensures !HasKey(line.agvs, agvId) ==>
              Refused(effects, JStr(line.name), cid, AgvNotFoundQuoted(agvId, line.name))
    ensures HasKey(line.agvs, agvId) && !Truthy(Field(params, "target_level", JNull)) ==>
              effects == [Respond(JStr(line.name), cid, DefaultChargeLevel),
                          Schedule(line.name, cid, ChargeTask(agvId, JNum(80.0)))]
    ensures HasKey(line.agvs, agvId) && Truthy(Field(params, "target_level", JNull)) ==>
              effects == [Schedule(line.name, cid, ChargeTask(agvId, Field(params, "target_level", JNull)))]
  {
    if !HasKey(line.agvs, agvId) then [Respond(JStr(line.name), cid, AgvNotFoundQuoted(agvId, line.name))]
    else
      var level := Field(params, "target_level", JNull);
      if !Truthy(level) then
        [Respond(JStr(line.name), cid, DefaultChargeLevel), Schedule(line.name, cid, ChargeTask(agvId, JNum(80.0)))]
      else [Schedule(line.name, cid, ChargeTask(agvId, level))]
  }

  /** `_handle_get_result`: with a KPI calculator, publish the scores and confirm; otherwise refuse. */
  function HandleGetResult(f: Factory, lineId: Json, cid: Json): (effects: seq<Effect>)
    ensures f.hasKpiCalculator ==>
              effects == [PublishScores(f.resultTopic), Respond(lineId, cid, ResultsPublished(f.resultTopic))]
    ensures !f.hasKpiCalculator ==> Refused(effects, lineId, cid, KpiNotInitialized)
  {
    if f.hasKpiCalculator then [PublishScores(f.resultTopic), Respond(lineId, cid, ResultsPublished(f.resultTopic))]
    else [Respond(lineId, cid, KpiNotInitialized)]
  }

  /** The five actions the handler dispatches. */
  predicate KnownAction(action: string) {
    action in ["move", "load", "unload", "charge", "get_result"]
  }

  /**
   * `_execute_command` once the line lookup has not raised: an unknown line
   * is refused, then the action selects the handler.
   */
  function ExecuteCommand(f: Factory, lineId: Json, cmd: AgentCommand): (effects: seq<Effect>)
    requires !Unhashable(lineId)
    ensures !(lineId.JStr? && HasKey(f.lines, lineId.s)) ==>
              Refused(effects, lineId, CommandIdValue(cmd), LineNotFound(lineId))
    ensures lineId.JStr? && HasKey(f.lines, lineId.s) && !KnownAction(cmd.action) ==>
              Refused(effects, lineId, CommandIdValue(cmd), UnknownAction(cmd.action))
    ensures !NoSchedule(effects) ==> lineId.JStr? && HasKey(f.lines, lineId.s)
                                     && cmd.action in ["move", "load", "unload", "charge"]
    ensures lineId.JStr? && HasKey(f.lines, lineId.s) ==>
              var l := Get(f.lines, lineId.s).value;
              var cid := CommandIdValue(cmd);
              && (cmd.action == "move" ==> effects == HandleMove(l, cmd.target, cmd.params, cid))
              && (cmd.action == "load" ==> effects == HandleLoad(f, l, lineId, cmd.target, cmd.params, cid))
              && (cmd.action == "unload" ==> effects == HandleUnload(f, l, lineId, cmd.target, cid))
              && (cmd.action == "charge" ==> effects == HandleCharge(l, cmd.target, cmd.params, cid))
              && (cmd.action == "get_result" ==> effects == HandleGetResult(f, lineId, cid))
  {
    var cid := CommandIdValue(cmd);
    var line := if lineId.JStr? then Get(f.lines, lineId.s) else None;
    match line
    case None => [Respond(lineId, cid, LineNotFound(lineId))]
    case Some(l) =>
      if cmd.action == "move" then HandleMove(l, cmd.target, cmd.params, cid)
      else if cmd.action == "load" then HandleLoad(f, l, lineId, cmd.target, cmd.params, cid)
      else if cmd.action == "unload" then HandleUnload(f, l, lineId, cmd.target, cid)
      else if cmd.action == "charge" then HandleCharge(l, cmd.target, cmd.params, cid)
      else if cmd.action == "get_result" then HandleGetResult(f, lineId, cid)
      else [Respond(lineId, cid, UnknownAction(cmd.action))]
  }

  /**
   * The line a command is executed on: the `line_id` the processed command
   * carries (taken from a `"lineN/..."` target prefix, or supplied by the
   * sender), otherwise the line parsed from the topic.
   */
  function ChooseLine(processed: Object, topicLine: string): (lineId: Json)
    ensures HasKey(processed, "line_id") ==> lineId == Get(processed, "line_id").value
    ensures !HasKey(processed, "line_id") ==> lineId == JStr(topicLine)
  {
    if HasKey(processed, "line_id") then Field(processed, "line_id", JNull) else JStr(topicLine)
  }

  /**
   * `_handle_command_message`. `topicLine` is what the topic parser returns
   * (`None` for a topic it cannot parse), `payload` the decoded JSON (`None`
   * when decoding fails) and `validate` the schema validation (`None` when it
   * raises). A payload that is not JSON or not an object makes the handler's
   * own error path raise, which is `Crashed`.
   */
  function HandleCommandMessage(f: Factory, topicLine: Option<string>, payload: Option<Json>,
                                validate: Object -> Option<AgentCommand>): (o: Outcome)
    ensures topicLine.None? ==> o == Handled([])
    ensures o.Crashed? <==> topicLine.Some? && (payload.None? || !payload.value.JObj?)
    ensures topicLine.Some? && payload.Some? && payload.value.JObj? ==>
              var data := payload.value.fields;
              match CommandProcessor.ProcessLlmCommand(data)
              case Err(_) => o == Handled([Respond(JNull, Field(data, "command_id", JNull), ProcessingFailed)])
              case Ok(processed) =>
                var lineId := ChooseLine(processed, topicLine.value);
                && (validate(processed).None? ==>
                      o == Handled([Respond(lineId, Field(data, "command_id", JNull), ValidationFailed)]))
                && (validate(processed).Some? && Unhashable(lineId) ==>
                      o == Handled([Respond(JNull, Field(data, "command_id", JNull), ProcessingFailed)]))
                && (validate(processed).Some? && !Unhashable(lineId) ==>
                      o == Handled(ExecuteCommand(f, lineId, validate(processed).value)))
  {
    if topicLine.None? then Handled([])
    else if payload.None? || !payload.value.JObj? then Crashed
    else
      var data := payload.value.fields;
      match CommandProcessor.ProcessLlmCommand(data)
      case Err(_) => Handled([Respond(JNull, Field(data, "command_id", JNull), ProcessingFailed)])
      case Ok(processed) =>
        var lineId := ChooseLine(processed, topicLine.value);
        match validate(processed)
        case None =>
          assert "command_id"[0] != "target"[0] && "command_id"[0] != "line_id"[0];
          CommandProcessor.OtherKeyKept(data, "command_id");
          Handled([Respond(lineId, Field(processed, "command_id", JNull), ValidationFailed)])
        case Some(cmd) =>
          if Unhashable(lineId) then Handled([Respond(JNull, Field(data, "command_id", JNull), ProcessingFailed)])
          else Handled(ExecuteCommand(f, lineId, cmd))
  }

  /** A command that fails validation gets exactly one response, carrying its `command_id`, and nothing runs. */
  lemma ValidationFailureResponds(f: Factory, topicLine: string, data: Object,
                                  validate: Object -> Option<AgentCommand>)
    requires CommandProcessor.ProcessLlmCommand(data).Ok?
    requires validate(CommandProcessor.ProcessLlmCommand(data).value).None?
    ensures var processed := CommandProcessor.ProcessLlmCommand(data).value;
            HandleCommandMessage(f, Some(topicLine), Some(JObj(data)), validate)
              == Handled([Respond(ChooseLine(processed, topicLine), Field(data, "command_id", JNull), ValidationFailed)])
  {
    assert "command_id"[0] != "target"[0] && "command_id"[0] != "line_id"[0];
    CommandProcessor.OtherKeyKept(data, "command_id");
  }

  /**
   * A `"lineN/device"` target sends the command to line `N` whatever line the
   * topic named, and the device alone becomes the AGV id; a validated command
   * is then executed on line `N`.
   */
  lemma TargetPrefixOverridesTopic(f: Factory, topicLine: string, data: Object,
                                   validate: Object -> Option<AgentCommand>, n: string, device: string)
    requires Field(data, "target", JNull).JStr?
    requires CommandProcessor.SplitLineTarget(Field(data, "target", JNull).s) == Some((n, device))
    ensures var processed := CommandProcessor.ProcessLlmCommand(data).value;
            && ChooseLine(processed, topicLine) == JStr(n)
            && Get(processed, "target") == Some(JStr(device))
            && (validate(processed).Some? ==>
                  HandleCommandMessage(f, Some(topicLine), Some(JObj(data)), validate)
                    == Handled(ExecuteCommand(f, JStr(n), validate(processed).value)))
  {
    var processed := CommandProcessor.ProcessLlmCommand(data).value;
    assert HasKey(processed, "line_id");
    assert ChooseLine(processed, topicLine) == JStr(n);
    if validate(processed).Some? {
      ValidatedCommandRuns(f, topicLine, data, validate);
    }
  }

  /** A processed, validated command on a hashable line is executed there and nothing else happens. */
  lemma ValidatedCommandRuns(f: Factory, topicLine: string, data: Object, validate: Object -> Option<AgentCommand>)
    requires CommandProcessor.ProcessLlmCommand(data).Ok?
    requires validate(CommandProcessor.ProcessLlmCommand(data).value).Some?
    requires !Unhashable(ChooseLine(CommandProcessor.ProcessLlmCommand(data).value, topicLine))
    ensures var processed := CommandProcessor.ProcessLlmCommand(data).value;
            HandleCommandMessage(f, Some(topicLine), Some(JObj(data)), validate)
              == Handled(ExecuteCommand(f, ChooseLine(processed, topicLine), validate(processed).value))
  {
    var processed := CommandProcessor.ProcessLlmCommand(data).value;
    assert CommandProcessor.ProcessLlmCommand(data) == Ok(processed);
  }

  /**
   * Whatever the command, the effects are one refusal and nothing else, or
   * they end in exactly one scheduled process preceded only by notices, or
   * they are the published scores and their confirmation.
   */
  lemma ExecuteShape(f: Factory, lineId: Json, cmd: AgentCommand)
    requires !Unhashable(lineId)
    ensures var e := ExecuteCommand(f, lineId, cmd);
            || (|e| == 1 && e[0].Respond? && IsRefusal(e[0].reply))
            || (|e| >= 1 && e[|e| - 1].Schedule? && NoSchedule(e[..|e| - 1])
                && forall i :: 0 <= i < |e| - 1 ==> e[i].Respond? && !IsRefusal(e[i].reply))
            || (e == [PublishScores(f.resultTopic),
                      Respond(lineId, CommandIdValue(cmd), ResultsPublished(f.resultTopic))])
  {
    var e := ExecuteCommand(f, lineId, cmd);
    if lineId.JStr? && HasKey(f.lines, lineId.s) {
      var l := Get(f.lines, lineId.s).value;
      if cmd.action == "load" {
        if HasKey(l.agvs, cmd.target) {
          var agv := Get(l.agvs, cmd.target).value;
          if OperableDevice(agv).Some? {
            match FindDevice(f, l, OperableDevice(agv).value)
            case Err(_) =>
            case Ok(None) =>
            case Ok(Some(dev)) =>
          }
        }
      }
    }
  }
}
