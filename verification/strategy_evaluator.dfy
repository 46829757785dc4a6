/**
 * The strategy evaluator: it buffers every decodable message it receives,
 * hands each one to the strategy under evaluation while the run is active,
 * publishes the commands the strategy returns to a line's command topic,
 * and at the end asks the factory for its final scores.
 */
module StrategyEvaluation {
  import opened Wrappers
  import opened Text
  import opened Dicts
  import opened JsonValues
  import Environment

  /** A buffered message: `{topic, message, timestamp}`. */
  datatype Buffered = Buffered(topic: string, message: Json, timestamp: real)

  /** What a strategy call does: return a value (`JNull` for `None`) or raise. */
  type Strategy = (string, Json) -> Result<Json, PyError>

  /** A command published to the command topic of a line. */
  datatype Publication = Publication(line: string, command: Object)

  /**
   * The line a command goes to, from the topic's segments: the first segment
   * that starts with "line" and is not the last one, otherwise "line1".
   */
  function LineOf(parts: seq<string>): (r: string)
    ensures StartsWith(r, "line")
  {
    if |parts| <= 1 then "line1"
    else if StartsWith(parts[0], "line") then parts[0]
    else LineOf(parts[1..])
  }

  /** A segment starting with "line" that is not the last wins if no earlier one qualifies. */
  lemma {:induction false} LineOfFirst(parts: seq<string>, i: nat)
    requires i + 1 < |parts| && StartsWith(parts[i], "line")
    requires forall j :: 0 <= j < i ==> !StartsWith(parts[j], "line")
    ensures LineOf(parts) == parts[i]
    decreases i
  {
    if i > 0 {
      LineOfFirst(parts[1..], i - 1);
    }
  }

  /** With no qualifying segment the line is "line1"; the last segment never qualifies. */
  lemma {:induction false} LineOfDefault(parts: seq<string>)
    requires forall j :: 0 <= j < |parts| - 1 ==> !StartsWith(parts[j], "line")
    ensures LineOf(parts) == "line1"
    decreases |parts|
  {
    if |parts| > 1 {
      LineOfDefault(parts[1..]);
    }
  }

  /** The `get_result` command sent at the end of a run. */
  function GetResultCommand(): Object {
    [("command_id", JStr("eval_get_result")), ("action", JStr("get_result")),
     ("target", JStr("factory")), ("params", JObj([]))]
  }

  /** What one strategy reply publishes: a non-empty dictionary, and only when the evaluator is online. */
  function Published(reply: Result<Json, PyError>, noMqtt: bool, topic: string): (r: seq<Publication>)
    ensures |r| <= 1
    ensures |r| == 1 <==> !noMqtt && reply.Ok? && reply.value.JObj? && |reply.value.fields| > 0
    ensures |r| == 1 ==> r[0] == Publication(LineOf(Split(topic, '/')), reply.value.fields)
  {
    if reply.Ok? && Truthy(reply.value) && reply.value.JObj? && !noMqtt then
      [Publication(LineOf(Split(topic, '/')), reply.value.fields)]
    else []
  }

  /**
   * The reversed scan for the confirmation: the latest response-topic message
   * decides; a response that is not an object raises on `.get`.
   */
  function ConfirmScan(buffer: seq<Buffered>, responseTopic: string): (r: Result<bool, PyError>)
    ensures r == Ok(true) ==>
              exists i :: 0 <= i < |buffer| && Confirms(buffer[i], responseTopic)
    ensures r == Ok(false) ==> forall i :: 0 <= i < |buffer| ==> !Confirms(buffer[i], responseTopic)
    decreases |buffer|
  {
    if |buffer| == 0 then Ok(false)
    else
      var n := |buffer| - 1;
      var m := buffer[n];
      var rest := ConfirmScan(buffer[..n], responseTopic);
      assert forall i :: 0 <= i < n ==> buffer[..n][i] == buffer[i];
      if m.topic != responseTopic then rest
      else if !m.message.JObj? then Err(AttributeError)
      else if Get(m.message.fields, "command_id") == Some(JStr("eval_get_result")) then Ok(true)
      else rest
  }

  /** A response-topic object carrying the `eval_get_result` command id. */
  predicate Confirms(b: Buffered, responseTopic: string) {
    b.topic == responseTopic && b.message.JObj? && Get(b.message.fields, "command_id") == Some(JStr("eval_get_result"))
  }

  /**
   * The reversed scan for the scores: the index of the latest result-topic
   * object with a `total_score` key. A later result-topic message that is not
   * an object either is skipped (the `in` test fails) or raises (the `in`
   * test raises, or succeeds and indexing by "total_score" raises).
   */
  function ResultScan(buffer: seq<Buffered>, resultTopic: string): (r: Result<Option<nat>, PyError>)
    ensures r.Ok? && r.value.Some? ==>
              && r.value.value < |buffer|
              && buffer[r.value.value].topic == resultTopic
              && buffer[r.value.value].message.JObj?
              && HasKey(buffer[r.value.value].message.fields, "total_score")
    decreases |buffer|
  {
    if |buffer| == 0 then Ok(None)
    else
      var m := buffer[|buffer| - 1];
      var rest := buffer[..|buffer| - 1];
      if m.topic != resultTopic then ResultScan(rest, resultTopic)
      else
        match m.message
        case JObj(f) => if HasKey(f, "total_score") then Ok(Some(|buffer| - 1)) else ResultScan(rest, resultTopic)
        case JArr(items) => if JStr("total_score") in items then Err(TypeError) else ResultScan(rest, resultTopic)
        case JStr(s) => if Contains(s, "total_score") then Err(TypeError) else ResultScan(rest, resultTopic)
        case _ => Err(TypeError)
  }

  /** The scores found are the most recent: no later result-topic message has them. */
  lemma {:induction false} ResultScanMostRecent(buffer: seq<Buffered>, resultTopic: string, j: nat)
    requires ResultScan(buffer, resultTopic).Ok? && ResultScan(buffer, resultTopic).value.Some?
    requires ResultScan(buffer, resultTopic).value.value < j < |buffer| && buffer[j].topic == resultTopic
    ensures !(buffer[j].message.JObj? && HasKey(buffer[j].message.fields, "total_score"))
    decreases |buffer|
  {
    var rest := buffer[..|buffer| - 1];
    if j < |buffer| - 1 {
      assert rest[j] == buffer[j];
      ResultScanMostRecent(rest, resultTopic, j);
    }
  }

  /** One poll of the waiting loop. */
  datatype Poll = Found(scores: Object) | Failed | Pending(confirmed: bool)

  function PollOnce(buffer: seq<Buffered>, responseTopic: string, resultTopic: string, confirmed: bool): (p: Poll)
    ensures p.Found? ==> confirmed || ConfirmScan(buffer, responseTopic) == Ok(true)
    ensures p.Found? ==> HasKey(p.scores, "total_score")
    ensures p.Pending? && p.confirmed ==> confirmed || ConfirmScan(buffer, responseTopic) == Ok(true)
    ensures !confirmed && ConfirmScan(buffer, responseTopic) == Ok(false) ==> p == Pending(false)
  {
    var c := if confirmed then Ok(true) else ConfirmScan(buffer, responseTopic);
    match c
    case Err(_) => Failed
    case Ok(false) => Pending(false)
    case Ok(true) =>
      match ResultScan(buffer, resultTopic)
      case Err(_) => Failed
      case Ok(None) => Pending(true)
      case Ok(Some(i)) => Found(buffer[i].message.fields)
  }

  /** The end of `_get_final_results`: scores, `{}` after an error or without a factory, or still waiting. */
  datatype FinalResults = Results(value: Object) | StillWaiting

  /** The online wait over the buffers seen by successive polls; it ends only with scores or an error. */
  function Online(polls: seq<seq<Buffered>>, responseTopic: string, resultTopic: string, confirmed: bool): FinalResults
    decreases |polls|
  {
    if |polls| == 0 then StillWaiting
    else
      match PollOnce(polls[0], responseTopic, resultTopic, confirmed)
      case Found(scores) => Results(scores)
      case Failed => Results([])
      case Pending(c) => Online(polls[1..], responseTopic, resultTopic, c)
  }

  /** Scores are returned only after some poll has seen the `get_result` confirmation. */
  lemma {:induction false} OnlineNeedsConfirmation(polls: seq<seq<Buffered>>, responseTopic: string,
                                                   resultTopic: string, confirmed: bool)
    requires Online(polls, responseTopic, resultTopic, confirmed).Results?
    requires HasKey(Online(polls, responseTopic, resultTopic, confirmed).value, "total_score")
    ensures confirmed || exists k :: 0 <= k < |polls| && ConfirmScan(polls[k], responseTopic) == Ok(true)
    decreases |polls|
  {
    var p := PollOnce(polls[0], responseTopic, resultTopic, confirmed);
    if p.Pending? {
      OnlineNeedsConfirmation(polls[1..], responseTopic, resultTopic, p.confirmed);
      if !confirmed && !p.confirmed {
        var k :| 0 <= k < |polls[1..]| && ConfirmScan(polls[1..][k], responseTopic) == Ok(true);
        assert polls[k + 1] == polls[1..][k];
      }
    }
  }

  /** `evaluation_metadata` added to the results. */
  function WithMetadata(results: Object, simulationTime: int, rootTopic: string, messages: nat,
                        noMqtt: bool, noFaults: bool): (r: Object)
    ensures Get(r, "evaluation_metadata") ==
              Some(JObj([("simulation_time", JNum(simulationTime as real)), ("root_topic", JStr(rootTopic)),
                         ("messages_processed", JNum(messages as real)), ("no_mqtt", JBool(noMqtt)),
                         ("no_faults", JBool(noFaults))]))
    ensures forall k :: k != "evaluation_metadata" ==> Get(r, k) == Get(results, k)
  {
    Put(results, "evaluation_metadata",
        JObj([("simulation_time", JNum(simulationTime as real)), ("root_topic", JStr(rootTopic)),
              ("messages_processed", JNum(messages as real)), ("no_mqtt", JBool(noMqtt)),
              ("no_faults", JBool(noFaults))]))
  }

  /** The number of connection checks made before giving up. */
  const MaxConnectChecks := 20

  class StrategyEvaluator {
    var rootTopic: string
    var noMqtt: bool
    var buffer: seq<Buffered>
    var strategy: Option<Strategy>
    var running: bool
    var hasFactory: bool
    /** The commands published so far, in order. */
    var published: seq<Publication>

    /** The root is the explicit one, else the environment chain, else "NLDF_EVAL_TEST". */
    constructor(explicitRoot: Option<string>, env: Environment.Env, noMqtt: bool)
      ensures rootTopic == Environment.FirstSet([explicitRoot] + Environment.RootChain(env), "NLDF_EVAL_TEST")
      ensures this.noMqtt == noMqtt
      ensures buffer == [] && strategy.None? && !running && !hasFactory && published == []
    {
      rootTopic := Environment.FirstSet([explicitRoot] + Environment.RootChain(env), "NLDF_EVAL_TEST");
      this.noMqtt := noMqtt;
      buffer := [];
      strategy := None;
      running := false;
      hasFactory := false;
      published := [];
    }

    /**
     * `_initialize_simulation`: online, the connection is checked up to 20
     * times and setup fails if none of those checks succeeds; offline no
     * check is made. On success the factory exists.
     */
    method InitializeSimulation(connectChecks: seq<bool>) returns (ok: bool)
      modifies this
      ensures ok <==> noMqtt || exists i :: 0 <= i < |connectChecks| && i < MaxConnectChecks && connectChecks[i]
      ensures hasFactory == (ok || old(hasFactory))
      ensures rootTopic == old(rootTopic) && noMqtt == old(noMqtt) && buffer == old(buffer)
      ensures strategy == old(strategy) && running == old(running) && published == old(published)
    {
      ok := noMqtt;
      var i := 0;
      while !ok && i < MaxConnectChecks && i < |connectChecks|
        invariant 0 <= i <= MaxConnectChecks
        invariant ok <==> noMqtt || exists j :: 0 <= j < i && j < |connectChecks| && connectChecks[j]
        invariant !ok ==> i <= |connectChecks|
      {
        ok := connectChecks[i];
        i := i + 1;
      }
      if ok {
        hasFactory := true;
      }
    }

    /** `eval_strategy` sets the strategy and marks the run active. */
    method Start(s: Strategy)
      modifies this
      ensures strategy == Some(s) && running
      ensures rootTopic == old(rootTopic) && noMqtt == old(noMqtt) && buffer == old(buffer)
      ensures hasFactory == old(hasFactory) && published == old(published)
    {
      strategy := Some(s);
      running := true;
    }

    /** `_determine_line_id`: the loop over the topic's segments; the command is not consulted. */
    method DetermineLineId(topic: string, command: Object) returns (line: string)
      ensures line == LineOf(Split(topic, '/'))
      ensures StartsWith(line, "line")
    {
      var parts := Split(topic, '/');
      var i := 0;
      while i < |parts|
        invariant 0 <= i <= |parts|
        invariant LineOf(parts) == LineOf(parts[i..])
      {
        if StartsWith(parts[i], "line") && i + 1 < |parts| {
          return parts[i];
        }
        assert parts[i..][1..] == parts[i + 1..];
        i := i + 1;
      }
      return "line1";
    }

    /** `_process_with_strategy`: call the strategy and publish a non-empty dictionary it returns. */
    method ProcessWithStrategy(s: Strategy, topic: string, message: Json)
      modifies this
      ensures published == old(published) + Published(s(topic, message), noMqtt, topic)
      ensures rootTopic == old(rootTopic) && noMqtt == old(noMqtt) && buffer == old(buffer)
      ensures strategy == old(strategy) && running == old(running) && hasFactory == old(hasFactory)
    {
      var reply := s(topic, message);
      if reply.Ok? && Truthy(reply.value) && reply.value.JObj? {
        var line := DetermineLineId(topic, reply.value.fields);
        if !noMqtt {
          published := published + [Publication(line, reply.value.fields)];
        }
      }
    }

    /**
     * `_collect_message`: a payload that decodes is buffered in arrival order
     * and, while a strategy is set and the run is active, handed to it.
     */
    method CollectMessage(topic: string, payload: Option<Json>, now: real)
      modifies this
      ensures payload.None? ==> buffer == old(buffer) && published == old(published)
      ensures payload.Some? ==> buffer == old(buffer) + [Buffered(topic, payload.value, now)]
      ensures payload.Some? && strategy.Some? && running ==>
                published == old(published) + Published(strategy.value(topic, payload.value), noMqtt, topic)
      ensures !(strategy.Some? && running) ==> published == old(published)
      ensures rootTopic == old(rootTopic) && noMqtt == old(noMqtt)
      ensures strategy == old(strategy) && running == old(running) && hasFactory == old(hasFactory)
    {
      if payload.Some? {
        buffer := buffer + [Buffered(topic, payload.value, now)];
        if strategy.Some? && running {
          ProcessWithStrategy(strategy.value, topic, payload.value);
        }
      }
    }

    /**
     * `_get_final_results`. Without a factory: `{}`. Offline: the scores when
     * a KPI calculator exists, else `{}`. Online: the `get_result` command is
     * published to line1 and the buffers seen by successive polls are
     * searched, first for the confirmation and then for the scores.
     */
    method GetFinalResults(responseTopic: string, resultTopic: string, hasKpiCalculator: bool,
                           scores: Object, polls: seq<seq<Buffered>>) returns (r: FinalResults)
      modifies this
      ensures !hasFactory ==> r == Results([]) && published == old(published)
      ensures hasFactory && noMqtt ==>
                r == Results(if hasKpiCalculator then scores else []) && published == old(published)
      ensures hasFactory && !noMqtt ==>
                && r == Online(polls, responseTopic, resultTopic, false)
                && published == old(published) + [Publication("line1", GetResultCommand())]
      ensures rootTopic == old(rootTopic) && noMqtt == old(noMqtt) && buffer == old(buffer)
      ensures strategy == old(strategy) && running == old(running) && hasFactory == old(hasFactory)
    {
      if !hasFactory {
        return Results([]);
      }
      if noMqtt {
        return Results(if hasKpiCalculator then scores else []);
      }
      published := published + [Publication("line1", GetResultCommand())];
      var confirmed := false;
      var k := 0;
      while k < |polls|
        invariant 0 <= k <= |polls|
        invariant Online(polls, responseTopic, resultTopic, false) ==
                  Online(polls[k..], responseTopic, resultTopic, confirmed)
      {
        assert polls[k..][1..] == polls[k + 1..];
        var p := PollOnce(polls[k], responseTopic, resultTopic, confirmed);
        match p
        case Found(s) => return Results(s);
        case Failed => return Results([]);
        case Pending(c) => confirmed := c;
        k := k + 1;
      }
      return StillWaiting;
    }

    /**
     * The end of `eval_strategy`: the metadata counts the messages buffered
     * at that point, and `_cleanup` then stops the run and empties the buffer.
     */
    method Finish(results: Object, simulationTime: int, noFaults: bool) returns (r: Object)
      modifies this
      ensures r == WithMetadata(results, simulationTime, old(rootTopic), |old(buffer)|, old(noMqtt), noFaults)
      ensures !running && buffer == []
      ensures rootTopic == old(rootTopic) && noMqtt == old(noMqtt) && strategy == old(strategy)
      ensures hasFactory == old(hasFactory) && published == old(published)
    {
      running := false;
      r := WithMetadata(results, simulationTime, rootTopic, |buffer|, noMqtt, noFaults);
      Cleanup();
    }

    /** `_cleanup`: the run stops and the buffer is emptied. */
    method Cleanup()
      modifies this
      ensures !running && buffer == []
      ensures rootTopic == old(rootTopic) && noMqtt == old(noMqtt) && strategy == old(strategy)
      ensures hasFactory == old(hasFactory) && published == old(published)
    {
      running := false;
      buffer := [];
    }
  }

  /** A message that arrives before the run starts or after it stops is buffered but never shown to the strategy. */
  method InactiveCollects(e: StrategyEvaluator, topic: string, message: Json, now: real)
    requires !e.running
    modifies e
    ensures e.buffer == old(e.buffer) + [Buffered(topic, message, now)]
    ensures e.published == old(e.published)
  {
    e.CollectMessage(topic, Some(message), now);
  }
}
