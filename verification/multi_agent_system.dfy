/**
 * The multi-agent controller: global messages are decoded and queued by the
 * network thread, then drained in arrival order by the processing task,
 * which updates the shared factory state and forwards each message to the
 * supervisor.
 */
module MultiAgentSystem {
  import opened Wrappers
  import opened Text
  import opened Dicts
  import opened JsonValues
  import opened Environment

  /** The default of the system's topic root, which is `TopicRoot(env, SystemDefaultRoot)`. */
  const SystemDefaultRoot := "NLDF_MULTI_AGENT"

  /** The factory state's contents at one moment. */
  datatype Snapshot = Snapshot(orders: seq<Json>, kpiMetrics: Object, lineStates: Dict<Object>, warehouseStatus: Object)

  /**
   * `_update_factory_state` on a snapshot: an orders topic appends the
   * message, otherwise a kpi topic merges it into the KPIs, otherwise a
   * warehouse topic merges it into the warehouse status. Merging something
   * that is not an object raises, which leaves the state as it was.
   */
  function Apply(s: Snapshot, topic: string, message: Json): (r: Snapshot)
    ensures Contains(topic, "orders") ==> r == s.(orders := s.orders + [message])
    ensures !Contains(topic, "orders") && Contains(topic, "kpi") && message.JObj? ==>
              r == s.(kpiMetrics := Merge(s.kpiMetrics, message.fields))
    ensures !Contains(topic, "orders") && !Contains(topic, "kpi") && Contains(topic, "warehouse") && message.JObj? ==>
              r == s.(warehouseStatus := Merge(s.warehouseStatus, message.fields))
    ensures !Contains(topic, "orders") ==> r.orders == s.orders
    ensures r.lineStates == s.lineStates
    ensures !(Contains(topic, "orders") || Contains(topic, "kpi") || Contains(topic, "warehouse")) ==> r == s
  {
    if Contains(topic, "orders") then s.(orders := s.orders + [message])
    else if Contains(topic, "kpi") then
      (if message.JObj? then s.(kpiMetrics := Merge(s.kpiMetrics, message.fields)) else s)
    else if Contains(topic, "warehouse") then
      (if message.JObj? then s.(warehouseStatus := Merge(s.warehouseStatus, message.fields)) else s)
    else s
  }

  /** The state after handling the messages in order. */
  function ApplyAll(s: Snapshot, messages: seq<(string, Json)>): Snapshot
    decreases |messages|
  {
    if |messages| == 0 then s else ApplyAll(Apply(s, messages[0].0, messages[0].1), messages[1..])
  }

  /** The messages on orders topics, in order. */
  function OrderMessages(messages: seq<(string, Json)>): (r: seq<Json>)
    ensures |r| <= |messages|
    decreases |messages|
  {
    if |messages| == 0 then []
    else (if Contains(messages[0].0, "orders") then [messages[0].1] else []) + OrderMessages(messages[1..])
  }

  /** Whether `_update_factory_state` raises on a message, which keeps it from the supervisor. */
  predicate Raises(topic: string, message: Json) {
    !Contains(topic, "orders") && (Contains(topic, "kpi") || Contains(topic, "warehouse")) && !message.JObj?
  }

  /** The messages `_process_message_async` hands on: those whose state update does not raise, in order. */
  function Handled(messages: seq<(string, Json)>): (r: seq<(string, Json)>)
    ensures |r| <= |messages|
    decreases |messages|
  {
    if |messages| == 0 then []
    else
      var last := messages[|messages| - 1];
      Handled(messages[..|messages| - 1]) + (if Raises(last.0, last.1) then [] else [last])
  }

  /** Handing on one more message. */
  lemma HandledSnoc(messages: seq<(string, Json)>, m: (string, Json))
    ensures Handled(messages + [m]) == Handled(messages) + (if Raises(m.0, m.1) then [] else [m])
  {
    assert (messages + [m])[..|messages|] == messages;
  }

  /** A message is handed on exactly when its update does not raise. */
  lemma {:induction false} HandledExactly(messages: seq<(string, Json)>, m: (string, Json))
    ensures m in Handled(messages) <==> m in messages && !Raises(m.0, m.1)
    decreases |messages|
  {
    if |messages| > 0 {
      var init := messages[..|messages| - 1];
      HandledExactly(init, m);
      assert messages == init + [messages[|messages| - 1]];
    }
  }

  /** Orders accumulate in arrival order, and nothing else touches them. */
  lemma {:induction false} OrdersInArrivalOrder(s: Snapshot, messages: seq<(string, Json)>)
    ensures ApplyAll(s, messages).orders == s.orders + OrderMessages(messages)
    ensures ApplyAll(s, messages).lineStates == s.lineStates
    decreases |messages|
  {
    if |messages| > 0 {
      var (topic, message) := messages[0];
      var next := Apply(s, topic, message);
      var added: seq<Json> := if Contains(topic, "orders") then [message] else [];
      OrdersInArrivalOrder(next, messages[1..]);
      assert next.orders == s.orders + added;
      assert OrderMessages(messages) == added + OrderMessages(messages[1..]);
      assert ApplyAll(s, messages) == ApplyAll(next, messages[1..]);
      assert s.orders + added + OrderMessages(messages[1..]) == s.orders + (added + OrderMessages(messages[1..]));
    }
  }

  /** Applying a batch and then another is applying them together. */
  lemma {:induction false} ApplyAllAppend(s: Snapshot, a: seq<(string, Json)>, b: seq<(string, Json)>)
    ensures ApplyAll(ApplyAll(s, a), b) == ApplyAll(s, a + b)
    decreases |a|
  {
    if |a| == 0 {
      assert a + b == b;
    } else {
      assert (a + b)[1..] == a[1..] + b;
      ApplyAllAppend(Apply(s, a[0].0, a[0].1), a[1..], b);
    }
  }

  /** `FactoryState`: the fields are updated in place. */
  class FactoryState {
    var orders: seq<Json>
    var kpiMetrics: Object
    var lineStates: Dict<Object>
    var warehouseStatus: Object

    /** `__post_init__`: a field given as `None` starts empty. */
    constructor(orders: Option<seq<Json>>, kpiMetrics: Option<Object>, lineStates: Option<Dict<Object>>,
                warehouseStatus: Option<Object>)
      ensures this.orders == orders.GetOr([]) && this.kpiMetrics == kpiMetrics.GetOr([])
      ensures this.lineStates == lineStates.GetOr([]) && this.warehouseStatus == warehouseStatus.GetOr([])
    {
      this.orders := orders.GetOr([]);
      this.kpiMetrics := kpiMetrics.GetOr([]);
      this.lineStates := lineStates.GetOr([]);
      this.warehouseStatus := warehouseStatus.GetOr([]);
    }

    function View(): Snapshot
      reads this
    {
      Snapshot(orders, kpiMetrics, lineStates, warehouseStatus)
    }
  }

  class Controller {
    const state: FactoryState
    /** The thread-safe queue between the network callback and the processing task. */
    var queue: seq<(string, Json)>
    /** The messages handed to the supervisor, in order. */
    var forwarded: seq<(string, Json)>
    var hasSupervisor: bool
    /** The lines that have a line commander, in insertion order. */
    var commanderLines: seq<string>
    var running: bool

    constructor()
      ensures fresh(state) && state.View() == Snapshot([], [], [], [])
      ensures queue == [] && forwarded == [] && !hasSupervisor && commanderLines == [] && !running
    {
      state := new FactoryState(None, None, None, None);
      queue := [];
      forwarded := [];
      hasSupervisor := false;
      commanderLines := [];
      running := false;
    }

    /** `initialize_agents`: a supervisor and one line commander, for line1. */
    method InitializeAgents()
      modifies this
      ensures hasSupervisor
      ensures commanderLines == if "line1" in old(commanderLines) then old(commanderLines) else old(commanderLines) + ["line1"]
      ensures queue == old(queue) && forwarded == old(forwarded) && running == old(running)
    {
      hasSupervisor := true;
      if "line1" !in commanderLines {
        commanderLines := commanderLines + ["line1"];
      }
    }

    /** `start_system`: the processing task runs from now on. */
    method StartSystem()
      modifies this
      ensures running
      ensures queue == old(queue) && forwarded == old(forwarded) && hasSupervisor == old(hasSupervisor)
      ensures commanderLines == old(commanderLines)
    {
      running := true;
    }

    /** `shutdown`: the processing task stops. */
    method Shutdown()
      modifies this
      ensures !running
      ensures queue == old(queue) && forwarded == old(forwarded) && hasSupervisor == old(hasSupervisor)
      ensures commanderLines == old(commanderLines)
    {
      running := false;
    }

    /** `_on_global_message`: a payload that decodes is queued at the back. */
    method OnGlobalMessage(topic: string, payload: Option<Json>)
      modifies this
      ensures queue == old(queue) + (if payload.Some? then [(topic, payload.value)] else [])
      ensures forwarded == old(forwarded) && hasSupervisor == old(hasSupervisor)
      ensures commanderLines == old(commanderLines) && running == old(running)
    {
      if payload.Some? {
        queue := queue + [(topic, payload.value)];
      }
    }

    /** `_update_factory_state`. */
    method UpdateFactoryState(topic: string, message: Json)
      modifies state
      ensures state.View() == Apply(old(state.View()), topic, message)
    {
      if Contains(topic, "orders") {
        state.orders := state.orders + [message];
      } else if Contains(topic, "kpi") {
        if message.JObj? {
          state.kpiMetrics := Merge(state.kpiMetrics, message.fields);
        }
      } else if Contains(topic, "warehouse") {
        if message.JObj? {
          state.warehouseStatus := Merge(state.warehouseStatus, message.fields);
        }
      }
    }

    /** `_process_message_async`: the state is updated, then the message goes to the supervisor unless the update raised. */
    method ProcessMessage(topic: string, message: Json)
      modifies this, state
      ensures state.View() == Apply(old(state.View()), topic, message)
      ensures forwarded == old(forwarded) + (if hasSupervisor && !Raises(topic, message) then [(topic, message)] else [])
      ensures queue == old(queue) && hasSupervisor == old(hasSupervisor) && commanderLines == old(commanderLines)
      ensures running == old(running)
    {
      UpdateFactoryState(topic, message);
      if hasSupervisor && !Raises(topic, message) {
        forwarded := forwarded + [(topic, message)];
      }
    }

    /**
     * One wake-up of `_message_processor`: the queue is drained from the
     * front, each message processed in turn.
     */
    method DrainQueue()
      modifies this, state
      ensures queue == []
      ensures forwarded == old(forwarded) + (if hasSupervisor then Handled(old(queue)) else [])
      ensures state.View() == ApplyAll(old(state.View()), old(queue))
      ensures hasSupervisor == old(hasSupervisor) && commanderLines == old(commanderLines) && running == old(running)
    {
      ghost var original := queue;
      ghost var start := state.View();
      var k := 0;
      while |queue| > 0
        invariant 0 <= k <= |original| && queue == original[k..]
        invariant forwarded == old(forwarded) + (if hasSupervisor then Handled(original[..k]) else [])
        invariant ApplyAll(start, original) == ApplyAll(state.View(), queue)
        invariant hasSupervisor == old(hasSupervisor) && commanderLines == old(commanderLines)
        invariant running == old(running)
        decreases |queue|
      {
        var (topic, message) := queue[0];
        queue := queue[1..];
        ProcessMessage(topic, message);
        assert original[..k + 1] == original[..k] + [(topic, message)];
        HandledSnoc(original[..k], (topic, message));
        k := k + 1;
      }
      assert original[..k] == original;
    }
  }

  /** Messages queued one after another come out of the drain in the same order. */
  method FifoHandOff(c: Controller, t1: string, m1: Json, t2: string, m2: Json)
    requires c.queue == [] && c.forwarded == [] && c.hasSupervisor
    modifies c, c.state
    ensures c.forwarded == Handled([(t1, m1), (t2, m2)])
    ensures m1.JObj? && m2.JObj? ==> c.forwarded == [(t1, m1), (t2, m2)]
    ensures c.state.View().orders ==
              old(c.state.View().orders) + OrderMessages([(t1, m1), (t2, m2)])
  {
    c.OnGlobalMessage(t1, Some(m1));
    c.OnGlobalMessage(t2, Some(m2));
    ghost var before := c.state.View();
    c.DrainQueue();
    OrdersInArrivalOrder(before, [(t1, m1), (t2, m2)]);
    assert [(t1, m1), (t2, m2)][..1] == [(t1, m1)];
  }
}
