/**
 * The supervisor agent: it assigns incoming orders to production lines (as
 * the language model suggests, or by a fixed fallback), keeps the latest KPI
 * values and flags KPI values below fixed thresholds.
 */
module SupervisorAgent {
  import opened Wrappers
  import opened Text
  import opened Dicts
  import opened JsonValues

  /** `OrderAssignment`; the estimated completion time is always 0.0. */
  datatype OrderAssignment = OrderAssignment(orderId: Json, lineId: string, products: Json, priority: int,
                                             estimatedCompletionTime: real)

  /** `SupervisorDecision`, the shape of the language model's answer. */
  datatype SupervisorDecision = SupervisorDecision(action: string, orderId: Option<string>, lineId: Option<string>,
                                                   priority: Option<int>, reasoning: string)

  /** A message published to the command topic of a line. */
  datatype Publication = Publication(line: string, message: Object)

  const EfficiencyIssue := "Production efficiency critically low"
  const YieldIssue := "Quality issues detected"
  const UtilizationIssue := "AGV underutilization"

  /** A KPI value compared with its threshold; a missing key counts as 1.0. */
  function Below(kpi: Object, key: string, threshold: real): Result<bool, PyError> {
    Less(Field(kpi, key, JNum(1.0)), threshold)
  }

  /**
   * `_analyze_kpi_thresholds`: efficiency below 0.6, first-pass yield below
   * 0.7 and AGV utilisation below 0.5, reported in that order; a value that
   * is not a number raises at its comparison.
   */
  function AnalyzeKpiThresholds(kpi: Object): (r: Result<seq<string>, PyError>)
    ensures r.Err? <==> Below(kpi, "production_efficiency", 0.6).Err?
                        || Below(kpi, "first_pass_yield", 0.7).Err? || Below(kpi, "agv_utilization", 0.5).Err?
    ensures r.Ok? ==> (EfficiencyIssue in r.value <==> Below(kpi, "production_efficiency", 0.6) == Ok(true))
    ensures r.Ok? ==> (YieldIssue in r.value <==> Below(kpi, "first_pass_yield", 0.7) == Ok(true))
    ensures r.Ok? ==> (UtilizationIssue in r.value <==> Below(kpi, "agv_utilization", 0.5) == Ok(true))
    ensures r.Ok? ==> |r.value| <= 3
    ensures r.Ok? && EfficiencyIssue in r.value ==> r.value[0] == EfficiencyIssue
    ensures r.Ok? && UtilizationIssue in r.value ==> r.value[|r.value| - 1] == UtilizationIssue
  {
    match Below(kpi, "production_efficiency", 0.6)
    case Err(e) => Err(e)
    case Ok(e) =>
      match Below(kpi, "first_pass_yield", 0.7)
      case Err(err) => Err(err)
      case Ok(y) =>
        match Below(kpi, "agv_utilization", 0.5)
        case Err(err) => Err(err)
        case Ok(u) =>
          Ok((if e then [EfficiencyIssue] else []) + (if y then [YieldIssue] else [])
             + (if u then [UtilizationIssue] else []))
  }

  /** Missing KPIs count as 1.0 and raise no issue. */
  lemma MissingKpisRaiseNothing()
    ensures AnalyzeKpiThresholds([]) == Ok([])
  {
  }

  /** The three KPIs in one update, as a dictionary. */
  function KpiUpdate(eff: real, fpy: real, util: real): Object {
    [("production_efficiency", JNum(eff)), ("first_pass_yield", JNum(fpy)), ("agv_utilization", JNum(util))]
  }

  /** Each issue is reported exactly when its value is strictly below its threshold, so a value at the threshold is fine. */
  lemma ThresholdsStrict(eff: real, fpy: real, util: real)
    ensures AnalyzeKpiThresholds(KpiUpdate(eff, fpy, util)) ==
              Ok((if eff < 0.6 then [EfficiencyIssue] else []) + (if fpy < 0.7 then [YieldIssue] else [])
                 + (if util < 0.5 then [UtilizationIssue] else []))
  {
    var d := KpiUpdate(eff, fpy, util);
    GetAt(d, 0);
    GetAt(d, 1);
    GetAt(d, 2);
  }

  /** `decision.order_id or order.get("order_id", "unknown")`. */
  function DecisionOrderId(d: SupervisorDecision, order: Object): Json {
    if d.orderId.Some? && d.orderId.value != "" then JStr(d.orderId.value) else Field(order, "order_id", JStr("unknown"))
  }

  /** `decision.priority or 2`. */
  function DecisionPriority(d: SupervisorDecision): int {
    if d.priority.Some? && d.priority.value != 0 then d.priority.value else 2
  }

  /** A decision the supervisor carries out: an assignment naming a line. */
  predicate Executable(d: SupervisorDecision) {
    d.action == "assign_order" && d.lineId.Some? && d.lineId.value != ""
  }

  /** The id `_fallback_order_assignment` gives an order when `count` assignments exist already. */
  function FallbackId(order: Object, count: nat): (id: Json)
    ensures HasKey(order, "order_id") ==> id == Get(order, "order_id").value
    ensures !HasKey(order, "order_id") ==> id == JStr("fallback_" + NatToString(count))
  {
    Field(order, "order_id", JStr("fallback_" + NatToString(count)))
  }

  /** The record `_assign_order_to_line` appends: the order's products (default `[]`), no completion estimate. */
  function Assignment(orderId: Json, lineId: string, priority: int, order: Object): OrderAssignment {
    OrderAssignment(orderId, lineId, Field(order, "products", JArr([])), priority, 0.0)
  }

  /** The message sent to the line: the order's products (default `[]`) and timestamp. */
  function AssignmentMessage(orderId: Json, priority: int, order: Object): (m: Object)
    ensures Get(m, "type") == Some(JStr("order_assignment"))
    ensures Get(m, "products") == Some(Field(order, "products", JArr([])))
    ensures Get(m, "priority") == Some(JNum(priority as real))
    ensures Get(m, "order_id") == Some(orderId)
  {
    var m := [("type", JStr("order_assignment")), ("order_id", orderId),
              ("products", Field(order, "products", JArr([]))), ("priority", JNum(priority as real)),
              ("assigned_by", JStr("supervisor")), ("timestamp", Field(order, "timestamp", JNull))];
    assert "type"[1] != "timestamp"[1] && "products"[2] != "priority"[2];
    GetAt(m, 0);
    GetAt(m, 1);
    GetAt(m, 2);
    GetAt(m, 3);
    m
  }

  /** The capability entry `start` registers for line1. */
  function Line1Capabilities(): Json {
    JObj([("supported_products", JArr([JStr("P1"), JStr("P2")])), ("agv_count", JNum(2.0)),
          ("max_concurrent_orders", JNum(3.0)), ("current_load", JNum(0.0))])
  }

  /** Which handler a message on a topic reaches. */
  datatype Route = OrderRoute | KpiRoute | ResultRoute | Unhandled

  /** `handle_message`: "orders", then "kpi", then "result", by substring. */
  function RouteOf(topic: string): (r: Route)
    ensures r == OrderRoute <==> Contains(topic, "orders")
    ensures r == KpiRoute <==> !Contains(topic, "orders") && Contains(topic, "kpi")
  {
    if Contains(topic, "orders") then OrderRoute
    else if Contains(topic, "kpi") then KpiRoute
    else if Contains(topic, "result") then ResultRoute
    else Unhandled
  }

  class Supervisor {
    var activeAssignments: seq<OrderAssignment>
    var lineCapabilities: Object
    var currentKpi: Object
    /** The assignment messages published so far, in order. */
    var published: seq<Publication>

    constructor()
      ensures activeAssignments == [] && lineCapabilities == [] && currentKpi == [] && published == []
    {
      activeAssignments := [];
      lineCapabilities := [];
      currentKpi := [];
      published := [];
    }

    /** `start`: only line1's capabilities are registered. */
    method Start()
      modifies this
      ensures lineCapabilities == Put(old(lineCapabilities), "line1", Line1Capabilities())
      ensures activeAssignments == old(activeAssignments) && currentKpi == old(currentKpi)
      ensures published == old(published)
    {
      lineCapabilities := Put(lineCapabilities, "line1", Line1Capabilities());
    }

    /**
     * One assignment of `orderId` to `lineId` at `priority` appended after
     * `assignments`, and its message appended after `sent`; nothing before is lost.
     */
    ghost predicate Recorded(assignments: seq<OrderAssignment>, sent: seq<Publication>,
                             orderId: Json, lineId: string, priority: int, order: Object)
      reads this
    {
      && activeAssignments == assignments + [Assignment(orderId, lineId, priority, order)]
      && published == sent + [Publication(lineId, AssignmentMessage(orderId, priority, order))]
    }

    /** `_assign_order_to_line`: one assignment recorded and one message to that line. */
    method AssignOrderToLine(orderId: Json, lineId: string, priority: int, order: Object)
      modifies this
      ensures Recorded(old(activeAssignments), old(published), orderId, lineId, priority, order)
      ensures lineCapabilities == old(lineCapabilities) && currentKpi == old(currentKpi)
    {
      activeAssignments := activeAssignments + [Assignment(orderId, lineId, priority, order)];
      published := published + [Publication(lineId, AssignmentMessage(orderId, priority, order))];
    }

    /** `_fallback_order_assignment`: line1, priority 2, the order's id or `fallback_<count>`. */
    method FallbackOrderAssignment(order: Object)
      modifies this
      ensures Recorded(old(activeAssignments), old(published), FallbackId(order, |old(activeAssignments)|), "line1", 2, order)
      ensures lineCapabilities == old(lineCapabilities) && currentKpi == old(currentKpi)
    {
      AssignOrderToLine(FallbackId(order, |activeAssignments|), "line1", 2, order);
    }

    /** `_execute_supervisor_decision`: an executable decision is followed, anything else falls back. */
    method ExecuteSupervisorDecision(d: SupervisorDecision, order: Object)
      modifies this
      ensures Executable(d) ==>
                Recorded(old(activeAssignments), old(published), DecisionOrderId(d, order), d.lineId.value,
                         DecisionPriority(d), order)
      ensures !Executable(d) ==>
                Recorded(old(activeAssignments), old(published), FallbackId(order, |old(activeAssignments)|), "line1", 2, order)
      ensures lineCapabilities == old(lineCapabilities) && currentKpi == old(currentKpi)
    {
      if Executable(d) {
        AssignOrderToLine(DecisionOrderId(d, order), d.lineId.value, DecisionPriority(d), order);
      } else {
        FallbackOrderAssignment(order);
      }
    }

    /**
     * `_handle_new_order`: `model` is the language model's decision, `None`
     * when it gives none or the call raises; the decision is executed when
     * there is one, otherwise the order falls back.
     */
    method HandleNewOrder(order: Object, model: Option<SupervisorDecision>)
      modifies this
      ensures model.Some? && Executable(model.value) ==>
                Recorded(old(activeAssignments), old(published), DecisionOrderId(model.value, order),
                         model.value.lineId.value, DecisionPriority(model.value), order)
      ensures model.None? || !Executable(model.value) ==>
                Recorded(old(activeAssignments), old(published), FallbackId(order, |old(activeAssignments)|), "line1", 2, order)
      ensures lineCapabilities == old(lineCapabilities) && currentKpi == old(currentKpi)
    {
      if model.Some? {
        ExecuteSupervisorDecision(model.value, order);
      } else {
        FallbackOrderAssignment(order);
      }
    }

    /** `_handle_kpi_update`: new values overwrite old ones, then the thresholds are checked. */
    method HandleKpiUpdate(kpi: Object) returns (issues: Result<seq<string>, PyError>)
      modifies this
      ensures currentKpi == Merge(old(currentKpi), kpi)
      ensures issues == AnalyzeKpiThresholds(kpi)
      ensures activeAssignments == old(activeAssignments) && lineCapabilities == old(lineCapabilities)
      ensures published == old(published)
    {
      currentKpi := Merge(currentKpi, kpi);
      issues := AnalyzeKpiThresholds(kpi);
    }
  }

  /** After an update every key carries the newest value sent, and untouched keys keep theirs. */
  lemma KpiUpdateOverwrites(current: Object, kpi: Object, k: string)
    ensures HasKey(kpi, k) ==> Get(Merge(current, kpi), k) == Get(kpi, k)
    ensures !HasKey(kpi, k) ==> Get(Merge(current, kpi), k) == Get(current, k)
  {
    MergeGet(current, kpi, k);
  }

  /** A started supervisor knows exactly one line. */
  method StartedSupervisor() returns (s: Supervisor)
    ensures Keys(s.lineCapabilities) == ["line1"]
    ensures s.activeAssignments == [] && s.published == []
  {
    s := new Supervisor();
    s.Start();
  }
}
