/**
 * The strategies of the evaluation demo and its comparison run: a baseline
 * that never acts, a simple order responder, a reactive strategy and an
 * advanced one that follows one delivery from P0 to P1.
 */
module StrategyDemo {
  import opened Wrappers
  import opened Text
  import opened JsonValues
  import opened Commands
  import Dicts
  import EvalCli

  /** `simple_strategy`: an order status moves AGV_1 to P0. */
  function SimpleStrategy(topic: string, message: Object): (o: Outcome)
    ensures o.Issue? <==> Contains(topic, "orders") && Contains(topic, "status")
    ensures o.Issue? ==> o.cmd == Cmd("simple_", "move", JStr("AGV_1"), MoveTo("P0"))
    ensures !o.Raised?
  {
    if Contains(topic, "orders") && Contains(topic, "status") then Issue(Cmd("simple_", "move", JStr("AGV_1"), MoveTo("P0")))
    else NoCommand
  }

  /** An AGV report at P0 while idle. */
  predicate IdleAtP0(message: Object) {
    Field(message, "status", JStr("")) == JStr("IDLE") && Field(message, "current_point", JStr("")) == JStr("P0")
  }

  /**
   * `reactive_strategy`: orders move AGV_1 to P0; an AGV idle at P0 loads,
   * before a battery below 30 charges to 80.0; an idle station calls AGV_1
   * to P1. The station rule is reached only when the AGV rules give nothing.
   */
  function ReactiveStrategy(topic: string, message: Object): (o: Outcome)
    ensures Contains(topic, "orders") ==> o == Issue(Cmd("reactive_", "move", JStr("AGV_1"), MoveTo("P0")))
    ensures !Contains(topic, "orders") && Contains(topic, "agv") && Contains(topic, "status") && IdleAtP0(message) ==>
              o == Issue(Cmd("reactive_", "load", Field(message, "agv_id", JStr("AGV_1")), []))
    ensures !Contains(topic, "orders") && !Contains(topic, "agv") && Contains(topic, "station") && Contains(topic, "status") ==>
              (o.Issue? <==> Field(message, "status", JStr("")) == JStr("IDLE"))
              && (o.Issue? ==> o.cmd == Cmd("reactive_", "move", JStr("AGV_1"), MoveTo("P1")))
    ensures o.Raised? ==> o.error == TypeError
    ensures o.Issue? ==> o.cmd.id == Some(Generated("reactive_"))
  {
    if Contains(topic, "orders") then Issue(Cmd("reactive_", "move", JStr("AGV_1"), MoveTo("P0")))
    else
      var agvRule :=
        if Contains(topic, "agv") && Contains(topic, "status") then
          if IdleAtP0(message) then Issue(Cmd("reactive_", "load", Field(message, "agv_id", JStr("AGV_1")), []))
          else
            match Less(Field(message, "battery_level", JNum(100.0)), 30.0)
            case Err(e) => Raised(e)
            case Ok(low) =>
              if low then Issue(Cmd("reactive_", "charge", Field(message, "agv_id", JStr("AGV_1")), ChargeTo(80.0)))
              else NoCommand
        else NoCommand;
      if !agvRule.NoCommand? then agvRule
      else if Contains(topic, "station") && Contains(topic, "status") && Field(message, "status", JStr("")) == JStr("IDLE") then
        Issue(Cmd("reactive_", "move", JStr("AGV_1"), MoveTo("P1")))
      else NoCommand
  }

  /** Loading wins over charging: an AGV idle at P0 loads even with a nearly empty battery. */
  lemma LoadBeforeCharge(topic: string, message: Object, battery: real)
    requires !Contains(topic, "orders") && Contains(topic, "agv") && Contains(topic, "status") && IdleAtP0(message)
    requires Field(message, "battery_level", JNum(100.0)) == JNum(battery) && battery < 30.0
    ensures ReactiveStrategy(topic, message).cmd.action == "load"
  {
  }

  /** Elsewhere, an AGV report with a battery below 30 charges it to 80.0, and one at 30 or more gives no AGV command. */
  lemma ChargeBelowThirty(topic: string, message: Object, battery: real)
    requires !Contains(topic, "orders") && Contains(topic, "agv") && Contains(topic, "status") && !IdleAtP0(message)
    requires !Contains(topic, "station")
    requires Field(message, "battery_level", JNum(100.0)) == JNum(battery)
    ensures battery < 30.0 ==>
              ReactiveStrategy(topic, message) == Issue(Cmd("reactive_", "charge", Field(message, "agv_id", JStr("AGV_1")), ChargeTo(80.0)))
    ensures battery >= 30.0 ==> ReactiveStrategy(topic, message) == NoCommand
  {
  }

  /**
   * `advanced_strategy`: an order with products moves AGV_1 to P0; an AGV
   * report loads an empty idle AGV at P0, takes a loaded one from P0 to P1
   * and unloads it idle at P1.
   */
  function AdvancedStrategy(topic: string, message: Object): (o: Outcome)
    ensures !o.Raised?
    ensures Contains(topic, "orders") && Truthy(Field(message, "products", JArr([]))) ==>
              o == Issue(Cmd("advanced_", "move", JStr("AGV_1"), MoveTo("P0")))
    ensures o.Issue? && !(Contains(topic, "orders") && Truthy(Field(message, "products", JArr([])))) ==>
              Contains(topic, "agv") && Contains(topic, "status") && o.cmd.target == Field(message, "agv_id", JStr(""))
  {
    if Contains(topic, "orders") && Truthy(Field(message, "products", JArr([]))) then
      Issue(Cmd("advanced_", "move", JStr("AGV_1"), MoveTo("P0")))
    else if Contains(topic, "agv") && Contains(topic, "status") then
      var agv := Field(message, "agv_id", JStr(""));
      var idle := Field(message, "status", JStr("")) == JStr("IDLE");
      var point := Field(message, "current_point", JStr(""));
      var loaded := Truthy(Field(message, "cargo", JArr([])));
      if idle && point == JStr("P0") && !loaded then Issue(Cmd("advanced_", "load", agv, []))
      else if loaded && point == JStr("P0") then Issue(Cmd("advanced_", "move", agv, MoveTo("P1")))
      else if loaded && point == JStr("P1") && idle then Issue(Cmd("advanced_", "unload", agv, []))
      else NoCommand
    else NoCommand
  }

  /**
   * On an AGV status topic, for every report: an empty idle AGV at P0 loads,
   * a loaded one at P0 goes to P1, a loaded idle one at P1 unloads, and no
   * other report gives a command.
   */
  lemma AdvancedRules(topic: string, message: Object)
    requires !(Contains(topic, "orders") && Truthy(Field(message, "products", JArr([]))))
    requires Contains(topic, "agv") && Contains(topic, "status")
    ensures var o := AdvancedStrategy(topic, message);
            var agv := Field(message, "agv_id", JStr(""));
            var idle := Field(message, "status", JStr("")) == JStr("IDLE");
            var point := Field(message, "current_point", JStr(""));
            var loaded := Truthy(Field(message, "cargo", JArr([])));
            && (idle && point == JStr("P0") && !loaded ==> o == Issue(Cmd("advanced_", "load", agv, [])))
            && (loaded && point == JStr("P0") ==> o == Issue(Cmd("advanced_", "move", agv, MoveTo("P1"))))
            && (loaded && point == JStr("P1") && idle ==> o == Issue(Cmd("advanced_", "unload", agv, [])))
            && (o.Issue? <==> (idle && point == JStr("P0") && !loaded) || (loaded && point == JStr("P0"))
                              || (loaded && point == JStr("P1") && idle))
  {
  }

  /** An AGV status report. */
  function Report(agv: Json, status: string, point: string, cargo: seq<Json>): Object {
    [("agv_id", agv), ("status", JStr(status)), ("current_point", JStr(point)), ("cargo", JArr(cargo))]
  }

  lemma ReportFields(agv: Json, status: string, point: string, cargo: seq<Json>)
    ensures var m := Report(agv, status, point, cargo);
            Field(m, "agv_id", JStr("")) == agv && Field(m, "status", JStr("")) == JStr(status)
            && Field(m, "current_point", JStr("")) == JStr(point) && Field(m, "cargo", JArr([])) == JArr(cargo)
  {
    var m := Report(agv, status, point, cargo);
    Dicts.GetAt(m, 0);
    Dicts.GetAt(m, 1);
    Dicts.GetAt(m, 2);
    Dicts.GetAt(m, 3);
  }

  /** One delivery: load at P0, carry to P1, unload there, each step from the report that follows the last. */
  lemma AdvancedDelivery(topic: string, agv: Json, product: Json)
    requires !Contains(topic, "orders") && Contains(topic, "agv") && Contains(topic, "status")
    ensures AdvancedStrategy(topic, Report(agv, "IDLE", "P0", [])) == Issue(Cmd("advanced_", "load", agv, []))
    ensures AdvancedStrategy(topic, Report(agv, "BUSY", "P0", [product])) == Issue(Cmd("advanced_", "move", agv, MoveTo("P1")))
    ensures AdvancedStrategy(topic, Report(agv, "IDLE", "P1", [product])) == Issue(Cmd("advanced_", "unload", agv, []))
  {
    ReportFields(agv, "IDLE", "P0", []);
    ReportFields(agv, "BUSY", "P0", [product]);
    ReportFields(agv, "IDLE", "P1", [product]);
    assert JStr("BUSY") != JStr("IDLE") by { assert "BUSY"[0] != "IDLE"[0]; }
    assert JStr("P1") != JStr("P0") by { assert "P1"[1] != "P0"[1]; }
  }

  /** `no_action_strategy`. */
  function NoActionStrategy(topic: string, message: Object): (o: Outcome)
    ensures o == NoCommand
  {
    NoCommand
  }

  /** The demo's strategies, in the order they are evaluated. */
  const DemoNames := ["No Action (Baseline)", "Simple Strategy", "Reactive Strategy", "Advanced Strategy"]

  /**
   * The comparison loop of the demo's `main`: `quick_eval` with the
   * strategy and the time only, a failure recorded as 0.0, and the results
   * sorted by score, highest first. `scores` are what the runs reach.
   */
  method DemoComparison(scores: seq<real>) returns (ranking: seq<(string, real)>)
    requires |scores| == |DemoNames|
    ensures ranking == EvalCli.Ranking(DemoNames, EvalCli.Evaluations([], scores, true))
    ensures EvalCli.Descending(ranking)
    ensures multiset(ranking) == multiset(seq(|DemoNames|, i requires 0 <= i < |DemoNames| => (DemoNames[i], scores[i])))
  {
    var results: seq<(string, real)> := [];
    for i := 0 to |DemoNames|
      invariant results == EvalCli.Recorded(DemoNames[..i], EvalCli.Evaluations([], scores[..i], true))
    {
      var name := DemoNames[i];
      var score := EvalCli.QuickEvalAsWritten([], scores[i]);
      if score.Ok? {
        results := results + [(name, score.value)];
      } else {
        results := results + [(name, 0.0)];
      }
    }
    assert DemoNames[..|DemoNames|] == DemoNames && scores[..|scores|] == scores;
    assert results == seq(|DemoNames|, i requires 0 <= i < |DemoNames| => (DemoNames[i], scores[i]));
    ranking := EvalCli.SortDescending(results);
  }
}
