/**
 * The NLDF strategy function: a reply from the language model is used when
 * it names an action and a target; otherwise a rule table stands in for the
 * model. The model call itself, its event loop and its timeout are outside
 * this model: what the call returned is a parameter, as are the draws of
 * `random.choice` and `random.randint` and the rendered text of the message.
 */
module NldfStrategy {
  import opened Wrappers
  import opened Text
  import opened Dicts
  import opened JsonValues
  import opened Commands

  /** The six AGVs addressed when the topic names no line. */
  const AllAgvTargets := ["line1_AGV_1", "line1_AGV_2", "line2_AGV_1", "line2_AGV_2", "line3_AGV_1", "line3_AGV_2"]

  /** The points an AGV that is neither charging nor loading is sent on to. */
  const NextPoints := ["P1", "P3", "P5", "P7", "P9"]

  /** The first of `line1`, `line2`, `line3` the topic contains. */
  function LineMatch(topic: string): (r: Option<string>)
    ensures r.None? <==> !Contains(topic, "line1") && !Contains(topic, "line2") && !Contains(topic, "line3")
    ensures r.Some? ==> Contains(topic, r.value) && r.value in ["line1", "line2", "line3"]
    ensures Contains(topic, "line1") ==> r == Some("line1")
    ensures !Contains(topic, "line1") && Contains(topic, "line2") ==> r == Some("line2")
  {
    if Contains(topic, "line1") then Some("line1")
    else if Contains(topic, "line2") then Some("line2")
    else if Contains(topic, "line3") then Some("line3")
    else None
  }

  /** The AGVs a command may be sent to: the two of the topic's line, or all six. */
  function AgvTargets(topic: string): (r: seq<string>)
    ensures LineMatch(topic).Some? ==> r == [LineMatch(topic).value + "_AGV_1", LineMatch(topic).value + "_AGV_2"]
    ensures LineMatch(topic).Some? ==> forall t :: t in r ==> StartsWith(t, LineMatch(topic).value + "_AGV_")
    ensures LineMatch(topic).None? ==> r == AllAgvTargets
    ensures forall t :: t in r ==> t in AllAgvTargets
  {
    match LineMatch(topic)
    case Some(line) =>
      var r := [line + "_AGV_1", line + "_AGV_2"];
      assert StartsWith(r[0], line + "_AGV_") && StartsWith(r[1], line + "_AGV_") by {
        assert r[0] == (line + "_AGV_") + "1" && r[1] == (line + "_AGV_") + "2";
      }
      assert r[0] in AllAgvTargets && r[1] in AllAgvTargets by {
        if line == "line1" {
          assert r[0] == AllAgvTargets[0] && r[1] == AllAgvTargets[1];
        } else if line == "line2" {
          assert r[0] == AllAgvTargets[2] && r[1] == AllAgvTargets[3];
        } else {
          assert line == "line3";
          assert r[0] == AllAgvTargets[4] && r[1] == AllAgvTargets[5];
        }
      }
      r
    case None => AllAgvTargets
  }

  /** `random.choice(xs)`: the draw is the `pick`-th element, cyclically. */
  function Choice(xs: seq<string>, pick: nat): (r: string)
    requires |xs| > 0
    ensures r in xs
  {
    xs[pick % |xs|]
  }

  /** The topic or the message text mentions an order. */
  predicate MentionsOrder(topic: string, text: string) {
    Contains(Lower(topic), "order") || Contains(Lower(text), "order")
  }

  /**
   * `create_mock_llm_response`: an order moves an AGV of the line to P0; an
   * AGV report charges below 30, loads an AGV idle at P0 and otherwise
   * moves it on to one of P1, P3, P5, P7, P9; an idle station calls an AGV
   * to P1; anything else asks the factory for its result. A battery level
   * that cannot be compared with 30 raises. `text` is `str(message)`;
   * `pick`, `hop` and `serial` stand for the random draws.
   */
  function MockResponse(topic: string, message: Object, text: string, pick: nat, hop: nat, serial: nat): (o: Outcome)
    ensures !o.NoCommand?
    ensures o.Issue? ==> o.cmd.id == Some(Generated("nldf_mock_"))
    ensures MentionsOrder(topic, text) ==> Issues(o, "move", JStr(Choice(AgvTargets(topic), pick)), MoveTo("P0"))
    ensures !MentionsOrder(topic, text) && Contains(Lower(topic), "agv") ==>
              var agv := Field(message, "agv_id", JStr(Choice(AgvTargets(topic), pick)));
              match Less(Field(message, "battery_level", JNum(100.0)), 30.0)
              case Err(e) => o == Raised(e)
              case Ok(low) =>
                if low then Issues(o, "charge", agv, ChargeTo(80.0))
                else if Field(message, "status", JStr("idle")) == JStr("idle") && Field(message, "current_point", JStr("P0")) == JStr("P0")
                then Issues(o, "load", agv, [("product_id", JStr("prod_" + NatToString(serial)))])
                else o.Issue? && o.cmd.action == "move" && o.cmd.target == agv
                     && exists p :: p in NextPoints && o.cmd.params == MoveTo(p)
    ensures !MentionsOrder(topic, text) && !Contains(Lower(topic), "agv") && Contains(Lower(topic), "station") ==>
              if Field(message, "status", JStr("idle")) == JStr("idle")
              then Issues(o, "move", JStr(Choice(AgvTargets(topic), pick)), MoveTo("P1"))
              else Issues(o, "get_result", JStr("factory"), [])
    ensures !MentionsOrder(topic, text) && !Contains(Lower(topic), "agv") && !Contains(Lower(topic), "station") ==>
              Issues(o, "get_result", JStr("factory"), [])
    ensures o.Raised? ==> o.error == TypeError
  {
    var targets := AgvTargets(topic);
    if MentionsOrder(topic, text) then
      Issue(Cmd("nldf_mock_", "move", JStr(Choice(targets, pick)), MoveTo("P0")))
    else if Contains(Lower(topic), "agv") then
      var agv := Field(message, "agv_id", JStr(Choice(targets, pick)));
      match Less(Field(message, "battery_level", JNum(100.0)), 30.0)
      case Err(e) => Raised(e)
      case Ok(low) =>
        if low then Issue(Cmd("nldf_mock_", "charge", agv, ChargeTo(80.0)))
        else if Field(message, "status", JStr("idle")) == JStr("idle") && Field(message, "current_point", JStr("P0")) == JStr("P0") then
          Issue(Cmd("nldf_mock_", "load", agv, [("product_id", JStr("prod_" + NatToString(serial)))]))
        else Issue(Cmd("nldf_mock_", "move", agv, MoveTo(Choice(NextPoints, hop))))
    else if Contains(Lower(topic), "station") && Field(message, "status", JStr("idle")) == JStr("idle") then
      Issue(Cmd("nldf_mock_", "move", JStr(Choice(targets, pick)), MoveTo("P1")))
    else Issue(Cmd("nldf_mock_", "get_result", JStr("factory"), []))
  }

  /**
   * Every mock command goes to the factory, to one of the AGVs the topic's
   * line allows, or, on an AGV report, to the AGV the report names.
   */
  lemma MockTargets(topic: string, message: Object, text: string, pick: nat, hop: nat, serial: nat)
    ensures var o := MockResponse(topic, message, text, pick, hop, serial);
            o.Issue? ==> o.cmd.target == JStr("factory")
                         || (exists t :: t in AgvTargets(topic) && o.cmd.target == JStr(t))
                         || (Contains(Lower(topic), "agv") && HasKey(message, "agv_id") && o.cmd.target == Field(message, "agv_id", JNull))
  {
    var o := MockResponse(topic, message, text, pick, hop, serial);
    var c := Choice(AgvTargets(topic), pick);
    if o.Issue? && o.cmd.target == JStr(c) {
      assert c in AgvTargets(topic);
    } else if o.Issue? && !MentionsOrder(topic, text) && Contains(Lower(topic), "agv") {
      if HasKey(message, "agv_id") {
        assert Field(message, "agv_id", JStr(c)) == Field(message, "agv_id", JNull);
      }
    }
  }

  /** On a topic of `line2` that does not name `line1`, only line 2's AGVs are chosen among. */
  lemma Line2Targets(topic: string)
    requires Contains(topic, "line2") && !Contains(topic, "line1")
    ensures AgvTargets(topic) == ["line2_AGV_1", "line2_AGV_2"]
  {
    assert "line2" + "_AGV_1" == "line2_AGV_1" && "line2" + "_AGV_2" == "line2_AGV_2";
  }

  /**
   * The acceptance of a model reply: one without a `command_id` gets the
   * generated `freshId`, and the reply is used only when it has both an
   * `action` and a `target`.
   */
  function AcceptReply(reply: Object, freshId: string): (r: Option<Object>)
    ensures r.Some? <==> HasKey(reply, "action") && HasKey(reply, "target")
    ensures r.Some? && HasKey(reply, "command_id") ==> r.value == reply
    ensures r.Some? && !HasKey(reply, "command_id") ==> Keys(r.value) == Keys(reply) + ["command_id"]
    ensures r.Some? ==> Get(r.value, "command_id") == if HasKey(reply, "command_id") then Get(reply, "command_id") else Some(JStr(freshId))
    ensures r.Some? ==> forall k :: k != "command_id" ==> Get(r.value, k) == Get(reply, k)
  {
    var withId := if "command_id" !in Keys(reply) then Put(reply, "command_id", JStr(freshId)) else reply;
    assert forall k :: k != "command_id" ==> (HasKey(withId, k) <==> HasKey(reply, k)) by {
      forall k | k != "command_id" ensures HasKey(withId, k) <==> HasKey(reply, k) {
        assert Get(withId, k) == Get(reply, k);
      }
    }
    if HasKey(withId, "action") && HasKey(withId, "target") then Some(withId) else None
  }

  /** What `predict` returns: the model's reply, the mock command, or `None`. */
  datatype Reply = FromModel(command: Object) | FromMock(cmd: Command) | NoReply

  /**
   * `predict`: `reply` is the decoded answer of the model, `None` when no
   * API key is set or the call, its content or its decoding fails. A
   * rejected reply falls back to the mock; an exception in the mock gives
   * `None`.
   */
  function Predict(topic: string, message: Object, text: string, reply: Option<Object>, freshId: string,
                   pick: nat, hop: nat, serial: nat): (r: Reply)
    ensures reply.Some? && AcceptReply(reply.value, freshId).Some? ==> r == FromModel(AcceptReply(reply.value, freshId).value)
    ensures (reply.None? || AcceptReply(reply.value, freshId).None?) ==>
              match MockResponse(topic, message, text, pick, hop, serial)
              case Issue(c) => r == FromMock(c)
              case _ => r == NoReply
  {
    var accepted := if reply.Some? then AcceptReply(reply.value, freshId) else None;
    if accepted.Some? then FromModel(accepted.value)
    else
      match MockResponse(topic, message, text, pick, hop, serial)
      case Issue(c) => FromMock(c)
      case _ => NoReply
  }

  /** `None` comes back only from an AGV report whose battery level cannot be compared, with no order in sight. */
  lemma NoReplyOnlyOnBadBattery(topic: string, message: Object, text: string, reply: Option<Object>, freshId: string,
                                pick: nat, hop: nat, serial: nat)
    ensures Predict(topic, message, text, reply, freshId, pick, hop, serial) == NoReply <==>
              (reply.None? || !HasKey(reply.value, "action") || !HasKey(reply.value, "target"))
              && !MentionsOrder(topic, text) && Contains(Lower(topic), "agv")
              && Numeric(Field(message, "battery_level", JNum(100.0))).None?
  {
  }

  /** A reply without an action is never used, whatever else it holds. */
  lemma ReplyWithoutAction(topic: string, message: Object, text: string, reply: Object, freshId: string,
                           pick: nat, hop: nat, serial: nat)
    requires !HasKey(reply, "action")
    ensures !Predict(topic, message, text, Some(reply), freshId, pick, hop, serial).FromModel?
  {
  }

  /** A complete reply that carries its own id is passed on unchanged. */
  lemma CompleteReplyUnchanged(topic: string, message: Object, text: string, reply: Object, freshId: string,
                               pick: nat, hop: nat, serial: nat)
    requires HasKey(reply, "action") && HasKey(reply, "target") && HasKey(reply, "command_id")
    ensures Predict(topic, message, text, Some(reply), freshId, pick, hop, serial) == FromModel(reply)
  {
  }
}
