# AgenticFac-SupCon core, modelled in Dafny

This project models the rule logic of the AgenticFac-SupCon smart-factory
control system. Language-model agents and strategy functions turn MQTT
status reports from a simulated production plant into commands for AGVs
and stations. The model covers these parts:

- **Command ingress.** The command processor splits a `"lineN/device"` target. The multi-line command handler runs its chain of checks (line, action, parameters, AGV, device mapping) and either refuses a command with one response or schedules exactly one process.
- **The retry queue.** A bounded list of outgoing messages. Adding, removing, clearing and flushing, and one pass of the retry loop that sends, retries, drops or keeps each message.
- **Agents.** The line commander's AGV table, its AGV selection and decision priority, and the id format of its commands. The supervisor's KPI thresholds, order assignment and fallback. The multi-agent controller's factory state and its FIFO hand-off of messages.
- **Evaluation.** The strategy evaluator's topic-to-line mapping, its publish guard, its message collection and its search for the final result. Also the command-line tool: `file::function` splitting, strategy loading, built-in strategies, logging wrappers and the ranking of compared strategies.
- **Strategies.** The example strategy file, the strategy collection and registry, the demo's strategies, the multi-agent wrapper, the single-function multi-agent strategy and the NLDF strategy, each as a decision table from `(topic, message)` to a command.
- **Configuration and prompts.** Derived topic names, the default agent table and its filters, configuration validation and updates, prompt lookup, and `str.format`-style placeholder substitution.

Python values are modelled as follows:

- Decoded JSON is a `Json` datatype with Python's truthiness, comparison and `str.lower` behaviour. A comparison that Python would refuse raises `TypeError`.
- Dictionaries are association lists in insertion order.
- A strategy call ends in a command, in no command, or in the exception it lets escape.
- Random draws, clocks, publish results and language-model replies are parameters of the functions that use them.
- A command id that the source builds from a timestamp or a random number is written `Generated(prefix)`.
- Objects whose fields the source updates in place are classes: the retry queue, the line commander, the supervisor, the controller, the evaluator, the configuration and the strategy wrapper.

The shared modules are:

- `Wrappers`: `Option` and `Result`.
- `Text`: substring search, ASCII lower-casing, digits, splitting, joining and replacement.
- `Dicts`: Python dictionaries.
- `JsonValues`: decoded JSON and Python exceptions.
- `Commands`: the command record.

## Model

| member | source | states |
|---|---|---|
| CommandProcessor.SplitLineTarget | src/utils/command_processor.py:94-103 | No line exactly when the target has no `/` or the part before the first `/` is not `line` (any case) followed by digits; otherwise the digits and the part after the first `/`, which is shorter than the target |
| CommandProcessor.ExtractLineAndDevice | src/utils/command_processor.py:91-105 | `(N, device)` for a valid prefix, with `N` all digits; `(None, target)` for every other target, the empty one included |
| CommandProcessor.ProcessLlmCommand | src/utils/command_processor.py:26-53 | A falsy target leaves the command as it is; a string target with a valid prefix gives a copy with `target` = device and `line_id` = N and every other key kept; a string target without a prefix leaves the command unchanged; only a truthy non-string target raises |
| CommandProcessor.ValidateCommandStructure | src/utils/command_processor.py:66-78 | Valid exactly when `action` and `target` are present and both are strings; otherwise the message of the first failing check (missing action, missing target, action not a string, target not a string), in the source's order |
| CommandProcessor.ProcessAgreesWithExtract | src/utils/command_processor.py:38-44 | For a non-empty string target, processing adds `line_id` exactly when extraction finds a line, and both give the same line and device |
| CommandProcessor.ValidatedStaysValid | src/utils/command_processor.py:26-53 | A command that passes validation is processed without an exception, still passes, and keeps its action |
| CommandProcessor.FirstSlash | src/utils/command_processor.py:94 | `split("/", 1)` splits at the first slash: in `prefix + "/" + rest` with a slash-free prefix, that slash is at `|prefix|` |
| CommandProcessor.ExtractValidPrefix | src/utils/command_processor.py:94-103 | Any letter case of `line` followed by digits, `/` and a device yields exactly those digits and that device, later slashes included (`"line3/AGV_1"`, `"LINE2/a/b"`) |
| CommandProcessor.ExtractInvalidPrefix | src/utils/command_processor.py:101-105 | A first segment that fails the prefix test (`"invalid/AGV_1"`, `"lineABC/AGV_1"`) gives no line and the whole target as the device |
| CommandProcessor.PrefixExamples | src/utils/command_processor.py:38 | `lineABC` and `invalid` fail the prefix test; `line` and `LINE` lower to `line` |
| CommandHandler.FindDevice | src/agent_interface/multi_line_command_handler.py:277-289 | The line's device when the line has one with that id, else the factory-wide one, else none; a found device has the requested id; an unhashable id raises |
| CommandHandler.HandleMove | src/agent_interface/multi_line_command_handler.py:127-154 | A falsy `target_point` is refused first, then an unknown AGV; otherwise exactly one move process is scheduled for that AGV and point |
| CommandHandler.HandleLoad | src/agent_interface/multi_line_command_handler.py:156-202 | Unknown AGV, then no operable device at its point, then device not found, each refused with its own text; otherwise exactly one load process on the line for that AGV and device, with the buffer of the AGV's point, the command id, and the product id forwarded only from `RawMaterial` |
| CommandHandler.HandleUnload | src/agent_interface/multi_line_command_handler.py:204-244 | The same chain as loading, with the unload texts; otherwise one unload process |
| CommandHandler.HandleCharge | src/agent_interface/multi_line_command_handler.py:246-275 | Unknown AGV is refused; a falsy `target_level` is announced and replaced by 80.0; then one charge process at that level |
| CommandHandler.HandleGetResult | src/agent_interface/multi_line_command_handler.py:291-334 | With a KPI calculator, the scores are published and then confirmed; without one, a single refusal |
| CommandHandler.ExecuteCommand | src/agent_interface/multi_line_command_handler.py:89-125 | An unknown line is refused before the action is looked at; on a known line, `move`, `load`, `unload`, `charge` and `get_result` each reach their own handler with the command's target, params and id, and any other action is refused; nothing is scheduled unless the line exists |
| CommandHandler.ChooseLine | src/agent_interface/multi_line_command_handler.py:60-64 | The processed command's `line_id` when it has one, otherwise the line parsed from the topic |
| CommandHandler.HandleCommandMessage | src/agent_interface/multi_line_command_handler.py:38-87 | An unparsable topic does nothing; a payload that is not a JSON object makes the error path itself raise; a processing error, and a line id that cannot be a key, get one general `ProcessingFailed` response; a validation failure gets one response on the chosen line; otherwise the validated command is executed on the chosen line |
| CommandHandler.ValidationFailureResponds | src/agent_interface/multi_line_command_handler.py:66-74 | A command that fails validation gets exactly one response carrying its `command_id`, and nothing is scheduled |
| CommandHandler.ValidatedCommandRuns | src/agent_interface/multi_line_command_handler.py:57-81 | A command that processes and validates, on a line id usable as a key, is executed on the chosen line and nothing else is published |
| CommandHandler.TargetPrefixOverridesTopic | src/agent_interface/multi_line_command_handler.py:57-87 | A `"lineN/device"` target sends the command to line `N` whatever line the topic named, with the device alone as the AGV id, and a validated command is executed on line `N` |
| CommandHandler.ExecuteShape | src/agent_interface/multi_line_command_handler.py:89-125 | Every execution ends in one of three ways: one refusal and nothing else; notices followed by exactly one scheduled process; or the published scores and their confirmation |
| RetryQueue.MessageId | src/utils/message_retry_queue.py:44-45 | A derived id is the topic, `_`, and then only digits |
| RetryQueue.Create | src/utils/message_retry_queue.py:25-45 | The fields passed are kept; a zero timestamp becomes the clock; a zero next-retry time becomes the timestamp; a missing id is derived from the topic and the clock |
| RetryQueue.NewMessage | src/utils/message_retry_queue.py:91-110 | `add_message` keeps topic, payload, qos, retain, maximum retries and policy as passed |
| RetryQueue.NewMessageIsDue | src/utils/message_retry_queue.py:99-106 | A message built by `add_message` has no retries yet and is due at its own creation time |
| RetryQueue.Delays | src/utils/message_retry_queue.py:59-64 | Every policy's delay table is non-empty; a value with no entry gets `[1]` |
| RetryQueue.RetryDelayFromTable | src/utils/message_retry_queue.py:138-146 | `get_retry_delay` gives the table entry at the retry count, the last entry past the table's end, so every delay is an entry of the policy's table |
| RetryQueue.Exhausted | src/utils/message_retry_queue.py:159-163 | A message is dropped once its retry count reaches its maximum |
| RetryQueue.IsDue | src/utils/message_retry_queue.py:165-167 | A message with retries left is sent once the clock reaches its retry time |
| RetryQueue.ExponentialDelays | src/utils/message_retry_queue.py:60 | Exponential backoff starts at 1 s, doubles up to 32 s and then stays at 32 s |
| RetryQueue.DelayBoundedAndMonotone | src/utils/message_retry_queue.py:138-146 | For every policy, no delay exceeds 32 s, and a later retry never waits less than an earlier one (the last entry is reused past the table) |
| RetryQueue.Due | src/utils/message_retry_queue.py:158-170 | The messages a pass sends (retries left and retry time reached), in queue order; never more than the queue |
| RetryQueue.Waiting | src/utils/message_retry_queue.py:158-170 | The messages a pass keeps unchanged (retries left and retry time ahead), in queue order |
| RetryQueue.PassPartitions | src/utils/message_retry_queue.py:158-170 | Each message of the queue is dropped, sent or kept waiting, and exactly one of these (as multisets, the three groups make up the queue) |
| RetryQueue.Rescheduled | src/utils/message_retry_queue.py:190-193 | A failed message counts one more retry and is next tried after the delay for the new count; no other field changes |
| RetryQueue.Failed | src/utils/message_retry_queue.py:177-195 | The sent messages whose publish failed, rescheduled, in sending order |
| RetryQueue.FailedCount | src/utils/message_retry_queue.py:177-195 | Each sent message is either published or comes back exactly once |
| RetryQueue.FailedNotDueEarly | src/utils/message_retry_queue.py:192-193 | A rescheduled message's retry time is not before the pass's clock |
| RetryQueue.PassShrinks | src/utils/message_retry_queue.py:148-198 | A pass never lengthens the queue; it shortens it by one for each message dropped or published |
| RetryQueue.WithoutId | src/utils/message_retry_queue.py:115 | Removal by id never lengthens the queue |
| RetryQueue.WithoutIdShrinks | src/utils/message_retry_queue.py:114-121 | Removal shortens the queue exactly when some message carries the id, and otherwise leaves it unchanged |
| RetryQueue.WithoutIdContents | src/utils/message_retry_queue.py:115 | A message survives removal exactly when it was in the queue with another id |
| RetryQueue.FirstDisconnected | src/utils/message_retry_queue.py:218-232 | The flush loop stops at the first failed connection check: every check before it passed |
| RetryQueue.Unflushed | src/utils/message_retry_queue.py:209-236 | The queue a flush is meant to leave, its unpublished messages in order; never longer than the queue |
| RetryQueue.FlushSplits | src/utils/message_retry_queue.py:218-236 | A flush splits the queue into the messages it published and those it keeps, losing none (multisets) |
| RetryQueue.FlushExtremes | src/utils/message_retry_queue.py:218-236 | A failed first connection check keeps the whole queue; every check and publish succeeding empties it |
| RetryQueue.FlushLosesUnsentMessage | src/utils/message_retry_queue.py:235-236 | Removal by id after the flush can remove a message that was never published (see Findings) |
| RetryQueue.FlushedIds | src/utils/message_retry_queue.py:218-232 | The ids the flush loop collects, from published messages before the first failed check; no more than the queue |
| RetryQueue.FlushedIdsInQueue | src/utils/message_retry_queue.py:218-232 | Every collected id is the id of some queued message |
| RetryQueue.FlushAsWritten | src/utils/message_retry_queue.py:234-236 | The queue the flush leaves as written, removing every message whose id was collected; never longer than the queue |
| RetryQueue.FlushAgreesOnDistinctIds | src/utils/message_retry_queue.py:218-236 | When no two queued messages share an id, the flush as written and the corrected flush leave the same queue: the correction changes only the colliding case |
| RetryQueue.SplitPass | src/utils/message_retry_queue.py:157-170 | The sorting loop of a pass yields exactly the due messages and the waiting ones, each in queue order |
| RetryQueue.SendPass | src/utils/message_retry_queue.py:176-194 | The sending loop leaves the waiting messages followed by the failed ones, rescheduled, in sending order |
| RetryQueue.FlushPass | src/utils/message_retry_queue.py:218-236 | The flush loop keeps exactly the messages it did not publish, in order |
| RetryQueue.MessageRetryQueue.constructor | src/utils/message_retry_queue.py:53-64 | An empty, stopped queue with the given capacity |
| RetryQueue.MessageRetryQueue.Start | src/utils/message_retry_queue.py:66-73 | Running afterwards; the queue is unchanged |
| RetryQueue.MessageRetryQueue.Stop | src/utils/message_retry_queue.py:75-89 | Stopped afterwards; the queue is unchanged |
| RetryQueue.MessageRetryQueue.AddMessage | src/utils/message_retry_queue.py:91-110 | Refused exactly when the queue is full; otherwise the new message is appended at the end; the capacity bound is kept |
| RetryQueue.MessageRetryQueue.RemoveMessage | src/utils/message_retry_queue.py:112-121 | Every message with the id is removed, and the result is true exactly when one was |
| RetryQueue.MessageRetryQueue.ClearQueue | src/utils/message_retry_queue.py:123-127 | The queue is empty afterwards |
| RetryQueue.MessageRetryQueue.ProcessOnce | src/utils/message_retry_queue.py:148-198 | The new queue is the waiting messages in order, followed by the failed ones rescheduled; the capacity bound is kept |
| RetryQueue.MessageRetryQueue.Flush | src/utils/message_retry_queue.py:209-238 | A stopped queue is unchanged; a running one keeps exactly its unpublished messages (corrected removal, see Findings) |
| LineCommanderAgent.InitialFleetExactly | src/agent/line_commander_agent.py:131-141 | Starting from an empty table, initialisation gives exactly `AGV_1` and `AGV_2`, each at P0 with a full battery and idle |
| LineCommanderAgent.InitialFleet | src/agent/line_commander_agent.py:131-141 | The table after `_initialize_agv_status` sets `AGV_1` to `AGV_n` in turn, each at P0 with a full battery and idle |
| LineCommanderAgent.ExtractDeviceId | src/agent/line_commander_agent.py:426-431 | An id exactly when the topic has at least four `/`-separated segments |
| LineCommanderAgent.ExtractFromStatusTopic | src/agent/line_commander_agent.py:426-431 | On a `root/line/kind/id/status` topic the device id is what is extracted |
| LineCommanderAgent.ExtractShortTopic | src/agent/line_commander_agent.py:429-431 | A three-segment alert topic yields no id |
| LineCommanderAgent.TaskFromStatus | src/agent/line_commander_agent.py:182-191 | Only an unhashable status raises; any task other than idle comes from one of the four listed status strings; unknown or missing statuses map to idle |
| LineCommanderAgent.Refreshed | src/agent/line_commander_agent.py:172-174 | Position and battery are replaced only when present; cargo is always overwritten (`None` when absent); id and task are kept |
| LineCommanderAgent.Available | src/agent/line_commander_agent.py:282-286 | The qualifying ids, never more than the AGVs |
| LineCommanderAgent.SelectBest | src/agent/line_commander_agent.py:280-293 | Raises exactly when some idle AGV's battery cannot be compared; none only when no AGV qualifies |
| LineCommanderAgent.AvailableFirst | src/agent/line_commander_agent.py:282-293 | The first qualifying AGV in table order heads the list of available AGVs |
| LineCommanderAgent.AvailableNone | src/agent/line_commander_agent.py:288-289 | With no AGV idle and above 20% battery, none is available |
| LineCommanderAgent.SelectBestIsFirst | src/agent/line_commander_agent.py:280-293 | The chosen AGV is the first in table order that is idle with more than 20% battery, and none is chosen when none qualifies |
| LineCommanderAgent.CommandIdCount | src/agent/line_commander_agent.py:410 | A command id starts with line, AGV and action joined by `_`, and its trailing digits read back as the task count |
| LineCommanderAgent.CommandId | src/agent/line_commander_agent.py:410 | The command id `{line}_{agv}_{action}_{task count}` |
| LineCommanderAgent.AgvCommand | src/agent/line_commander_agent.py:407-414 | The command `_send_agv_command` publishes: that id, the action, the AGV as target and the params |
| LineCommanderAgent.AiCommand | src/agent/line_commander_agent.py:380-405 | Nothing for another AGV or an unknown action; otherwise that action; a load carries `product_id` exactly when a non-empty one is given; a charge uses the given non-zero level, else 80 |
| LineCommanderAgent.Decide | src/agent/line_commander_agent.py:308-326 | Pending work for the AGV comes first; then a battery below 30 charges; otherwise the model is asked; a battery that cannot be compared raises |
| LineCommanderAgent.HasPending | src/agent/line_commander_agent.py:313-315 | An AGV has pending work when some queued task is assigned to it |
| LineCommanderAgent.PendingBeforeBattery | src/agent/line_commander_agent.py:312-323 | An AGV with a queued task assigned to it is never sent to charge, however low its battery |
| LineCommanderAgent.DecisionCommands | src/agent/line_commander_agent.py:316-326 | A charge decision sends one charge to 80; pending work or a raise sends nothing; at most one command is sent |
| LineCommanderAgent.RouteOf | src/agent/line_commander_agent.py:143-162 | `/agv/` in the topic always routes to the AGV handler; an order assignment is routed only when no topic marker matches and the message type says so |
| LineCommanderAgent.LineCommander.constructor | src/agent/line_commander_agent.py:77-102 | Empty tables, an empty task queue and nothing sent |
| LineCommanderAgent.LineCommander.InitializeAgvStatus | src/agent/line_commander_agent.py:131-141 | The AGV table becomes the initial fleet; nothing else changes |
| LineCommanderAgent.LineCommander.SendAgvCommand | src/agent/line_commander_agent.py:407-419 | Exactly one command is published, whose id counts the tasks queued at that moment; no table changes |
| LineCommanderAgent.LineCommander.AssignAgvTask | src/agent/line_commander_agent.py:267-306 | The selection is `SelectBest` of the table; with an AGV, the task is queued with `assigned_agv` set and its first move sent (P0 for a pickup, P9 for a delivery); without one, the task is queued as it is; a raising selection queues nothing |
| LineCommanderAgent.LineCommander.ExecuteAiDecision | src/agent/line_commander_agent.py:380-405 | Sends exactly the command `AiCommand` gives, if any, with the current task count in its id |
| LineCommanderAgent.LineCommander.MakeAgvDecision | src/agent/line_commander_agent.py:308-378 | Sends exactly the commands of `Decide` for the AGV's state and the queue; no table changes |
| LineCommanderAgent.LineCommander.HandleAgvStatus | src/agent/line_commander_agent.py:166-194 | An unknown or missing AGV changes nothing; a known one is refreshed, its task is set from the status, and a decision is made only when it is idle; an unhashable status stops after the refresh |
| LineCommanderAgent.LineCommander.HandleStationStatus | src/agent/line_commander_agent.py:196-201 | The latest status is stored under the station id from the topic; nothing else changes |
| LineCommanderAgent.LineCommander.HandleConveyorStatus | src/agent/line_commander_agent.py:203-208 | The latest status is stored under the conveyor id from the topic; nothing else changes |
| LineCommanderAgent.StartedCommander | src/agent/line_commander_agent.py:104-141 | A fresh commander, once initialised, tracks exactly `AGV_1` and `AGV_2` and has sent nothing |
| SupervisorAgent.AnalyzeKpiThresholds | src/agent/supervisor_agent.py:207-220 | Each of the three issues is reported exactly when its KPI (missing counts as 1.0) is below its threshold, efficiency first and utilisation last; a non-numeric KPI raises |
| SupervisorAgent.MissingKpisRaiseNothing | src/agent/supervisor_agent.py:211-218 | An update with none of the three KPIs reports no issue |
| SupervisorAgent.ThresholdsStrict | src/agent/supervisor_agent.py:211-218 | For numeric KPIs the issue list is exactly those strictly below 0.6, 0.7 and 0.5, in that order; a value at its threshold is fine |
| SupervisorAgent.DecisionOrderId | src/agent/supervisor_agent.py:134 | `decision.order_id or order.get("order_id", "unknown")`: the decision's id unless empty |
| SupervisorAgent.DecisionPriority | src/agent/supervisor_agent.py:136 | `decision.priority or 2`: the decision's priority unless missing or 0 |
| SupervisorAgent.Executable | src/agent/supervisor_agent.py:132 | A decision is followed only when its action is `assign_order` and it names a line |
| SupervisorAgent.FallbackId | src/agent/supervisor_agent.py:185 | The order's own id when it has one, otherwise `fallback_<number of assignments>` |
| SupervisorAgent.AssignmentMessage | src/agent/supervisor_agent.py:160-167 | The message sent to the line is an `order_assignment` carrying the order id, the order's products (default empty list) and the priority |
| SupervisorAgent.RouteOf | src/agent/supervisor_agent.py:72-81 | Orders topics go to the order handler, otherwise kpi topics to the KPI handler |
| SupervisorAgent.Supervisor.constructor | src/agent/supervisor_agent.py:53-62 | No assignments, no capabilities, no KPIs and nothing published |
| SupervisorAgent.Supervisor.Start | src/agent/supervisor_agent.py:227-238 | Only line1's capability entry is added; nothing else changes |
| SupervisorAgent.Supervisor.AssignOrderToLine | src/agent/supervisor_agent.py:144-177 | Exactly one assignment (products from the order, completion time 0.0) is appended after the earlier ones and exactly one assignment message is published to that line after the earlier ones |
| SupervisorAgent.Supervisor.FallbackOrderAssignment | src/agent/supervisor_agent.py:181-194 | The order is appended to line1 at priority 2 under `FallbackId`, with its assignment message published to line1; earlier assignments and messages are kept |
| SupervisorAgent.Supervisor.ExecuteSupervisorDecision | src/agent/supervisor_agent.py:128-142 | An `assign_order` decision naming a line appends the assignment with the decision's id and priority (the order's id and 2 when empty) and publishes its message to that line; any other decision appends the fallback assignment to line1 with its message; earlier assignments and messages are kept |
| SupervisorAgent.Supervisor.HandleNewOrder | src/agent/supervisor_agent.py:87-126 | An executable model decision gives exactly the decision's assignment and message; no decision (or a failed call) and a non-executable one give exactly the fallback assignment and message to line1; earlier ones are kept |
| SupervisorAgent.Supervisor.HandleKpiUpdate | src/agent/supervisor_agent.py:196-205 | The stored KPIs become the old ones updated with the new, and the issues are those of `AnalyzeKpiThresholds` for the update |
| SupervisorAgent.KpiUpdateOverwrites | src/agent/supervisor_agent.py:198 | After an update, a key sent carries the newest value and a key not sent keeps its old one |
| SupervisorAgent.StartedSupervisor | src/agent/supervisor_agent.py:227-238 | A started supervisor knows exactly the line `line1` and has assigned nothing |
| MultiAgentSystem.Apply | src/agent/multi_agent_system.py:204-211 | An orders message is appended; otherwise a kpi or warehouse object is merged into its table; line states never change and other topics change nothing |
| MultiAgentSystem.OrderMessages | src/agent/multi_agent_system.py:206-207 | The orders of a batch are no more than its messages |
| MultiAgentSystem.OrdersInArrivalOrder | src/agent/multi_agent_system.py:146-159 | Draining a batch appends exactly its orders-topic messages, in arrival order, and leaves line states alone |
| MultiAgentSystem.ApplyAllAppend | src/agent/multi_agent_system.py:154-156 | Handling one batch after another is handling them together |
| MultiAgentSystem.ApplyAll | src/agent/multi_agent_system.py:153-156 | The factory state after the processor handles the queued messages one by one, in order |
| MultiAgentSystem.HandledSnoc | src/agent/multi_agent_system.py:161-174 | One more message is handed on exactly when its update does not raise |
| MultiAgentSystem.Handled | src/agent/multi_agent_system.py:161-174 | The messages handed to the supervisor, those whose state update does not raise, in order; never more than were processed |
| MultiAgentSystem.HandledExactly | src/agent/multi_agent_system.py:161-174 | A message reaches the supervisor exactly when it was queued and its state update does not raise |
| MultiAgentSystem.FactoryState.constructor | src/agent/multi_agent_system.py:49-57 | Every field given as `None` starts empty; the others keep what was given |
| MultiAgentSystem.Controller.constructor | src/agent/multi_agent_system.py:65-91 | An empty factory state and queue, no agents, not running |
| MultiAgentSystem.Controller.InitializeAgents | src/agent/multi_agent_system.py:93-118 | A supervisor exists and line1, and only line1, gets a line commander |
| MultiAgentSystem.Controller.StartSystem | src/agent/multi_agent_system.py:120-144 | The system is running; queue, agents and forwarded messages are unchanged |
| MultiAgentSystem.Controller.Shutdown | src/agent/multi_agent_system.py:213-236 | The system stops running; nothing else changes |
| MultiAgentSystem.Controller.OnGlobalMessage | src/agent/multi_agent_system.py:192-202 | A payload that decodes is queued at the back; one that does not changes nothing |
| MultiAgentSystem.Controller.UpdateFactoryState | src/agent/multi_agent_system.py:204-211 | The shared state becomes `Apply` of the old state |
| MultiAgentSystem.Controller.ProcessMessage | src/agent/multi_agent_system.py:161-174 | The state is updated, and the message is forwarded to the supervisor only when there is one and the update did not raise |
| MultiAgentSystem.Controller.DrainQueue | src/agent/multi_agent_system.py:146-159 | The queue ends empty, the state is every queued message applied in order, and the supervisor receives the non-raising ones in order |
| MultiAgentSystem.FifoHandOff | src/agent/multi_agent_system.py:192-211 | Two messages queued one after the other reach the supervisor and the orders list in that order |
| StrategyEvaluation.LineOf | src/evaluation/strategy_evaluator.py:195-204 | The line a command goes to always starts with `line` |
| StrategyEvaluation.LineOfFirst | src/evaluation/strategy_evaluator.py:197-201 | The first topic segment starting with `line` that is not the last segment is the line |
| StrategyEvaluation.LineOfDefault | src/evaluation/strategy_evaluator.py:203-204 | Without such a segment the line is `line1`, so a trailing `line…` segment never counts |
| StrategyEvaluation.Published | src/evaluation/strategy_evaluator.py:174-193 | A strategy reply is published exactly when the evaluator is online and the reply is a non-empty dictionary, once, to the line of its topic |
| StrategyEvaluation.ResultScan | src/evaluation/strategy_evaluator.py:249-254 | A found index is a result-topic object with `total_score` |
| StrategyEvaluation.ResultScanMostRecent | src/evaluation/strategy_evaluator.py:249-254 | The scores found are the latest: no later result-topic message is an object with `total_score` |
| StrategyEvaluation.PollOnce | src/evaluation/strategy_evaluator.py:236-270 | Scores are found only once the `eval_get_result` confirmation has been seen, and they carry `total_score`; without a confirmation the poll keeps waiting unconfirmed |
| StrategyEvaluation.GetResultCommand | src/evaluation/strategy_evaluator.py:213-218 | The `eval_get_result` command for the factory sent at the end of a run |
| StrategyEvaluation.ConfirmScan | src/evaluation/strategy_evaluator.py:240-246 | Confirmed only when some response-topic object carries the `eval_get_result` id, and not confirmed only when none does; a non-object response raises |
| StrategyEvaluation.Online | src/evaluation/strategy_evaluator.py:236-270 | The online wait polls in order and ends with the first scores found or error; still waiting when the polls run out |
| StrategyEvaluation.OnlineNeedsConfirmation | src/evaluation/strategy_evaluator.py:236-254 | Scores returned online were preceded by a poll that saw the confirmation |
| StrategyEvaluation.WithMetadata | src/evaluation/strategy_evaluator.py:413-419 | `evaluation_metadata` holds the time, root, message count and both flags; every other key is unchanged |
| StrategyEvaluation.StrategyEvaluator.constructor | src/evaluation/strategy_evaluator.py:42-63 | The root is the explicit one, else `TOPIC_ROOT`, `USERNAME`, `USER`, else `NLDF_EVAL_TEST`; empty buffer, no strategy, not running |
| StrategyEvaluation.StrategyEvaluator.InitializeSimulation | src/evaluation/strategy_evaluator.py:65-116 | Setup succeeds offline, or online exactly when one of the first 20 connection checks succeeds; the factory exists after success |
| StrategyEvaluation.StrategyEvaluator.Start | src/evaluation/strategy_evaluator.py:368-369 | The strategy is set and the run is active; nothing else changes |
| StrategyEvaluation.StrategyEvaluator.DetermineLineId | src/evaluation/strategy_evaluator.py:195-204 | The loop returns `LineOf` of the topic's segments, a name starting with `line` |
| StrategyEvaluation.StrategyEvaluator.ProcessWithStrategy | src/evaluation/strategy_evaluator.py:174-193 | What is published is exactly `Published` of the strategy's reply; nothing else changes |
| StrategyEvaluation.StrategyEvaluator.CollectMessage | src/evaluation/strategy_evaluator.py:152-172 | A decodable payload is buffered at the back and, only while a strategy is set and the run is active, its reply is published; an undecodable one changes nothing |
| StrategyEvaluation.StrategyEvaluator.GetFinalResults | src/evaluation/strategy_evaluator.py:206-307 | Without a factory `{}`; offline the KPI scores or `{}`; online exactly one `get_result` command to line1, then the outcome of the polls |
| StrategyEvaluation.StrategyEvaluator.Finish | src/evaluation/strategy_evaluator.py:410-429 | The results gain metadata counting the messages buffered before cleanup; afterwards the run is stopped and the buffer empty |
| StrategyEvaluation.StrategyEvaluator.Cleanup | src/evaluation/strategy_evaluator.py:309-320 | The run stops and the buffer is emptied; nothing else changes |
| StrategyEvaluation.InactiveCollects | src/evaluation/strategy_evaluator.py:152-172 | A message arriving while the run is not active is buffered but publishes nothing |
| Prompts.NameEnd | src/agent/prompts.py:300 | A replacement field's name ends at the first `}`, `:` or `!`, and no earlier character is one of them |
| Prompts.ReplacementField | src/agent/prompts.py:300 | A replacement field that is read takes up at least one character and no more than the rest of the template |
| Prompts.Format | src/agent/prompts.py:300 | A template without braces formats to itself |
| Prompts.FormatPlainPrefix | src/agent/prompts.py:300 | Brace-free text in front of a template is copied ahead of the rest's result, or the rest's error |
| Prompts.NameEndAt | src/agent/prompts.py:300 | A name without braces, `:` or `!` ends exactly where the delimiter after it stands |
| Prompts.FormatField | src/agent/prompts.py:300 | A bound `{name}` is replaced by its value, which is not formatted again |
| Prompts.FormatUnboundField | src/agent/prompts.py:300 | A field with a format specification whose name is not bound raises `KeyError` |
| Prompts.FormatOneField | src/agent/prompts.py:300 | Plain text, one bound field and plain text format to the texts around the value |
| Prompts.FormatUnboundAfterPlain | src/agent/prompts.py:300 | An unbound field after plain text makes the whole template raise `KeyError` |
| Prompts.GetLineCommanderPrompt | src/agent/prompts.py:278-280 | The line commander prompt carries the line id verbatim where `{line_id}` stood, and never raises |
| Prompts.GetPromptByRole | src/agent/prompts.py:283-302 | An unknown role, in any letter case, raises `ValueError`; a known one gives its template, formatted only when keyword arguments are given |
| Prompts.ListedRolesKnown | src/agent/prompts.py:305-314 | Every listed role has a template |
| Prompts.RoleOf | src/agent/prompts.py:285-292 | The six keys of `prompts_map` and the role each names |
| Prompts.ListAvailableRoles | src/agent/prompts.py:304-314 | The six role names, written out separately from the map |
| Prompts.KnownRolesListed | src/agent/prompts.py:285-292 | Every role with a template is listed |
| Prompts.RolesListed | src/agent/prompts.py:283-314 | A role is accepted exactly when its lower-case form is listed |
| Prompts.SimpleAgentRejectsKwargs | src/agent/prompts.py:58-68 | Asking for the single-agent prompt with keyword arguments raises `KeyError`, because its JSON example reads as a replacement field |
| Prompts.CommandIdUnbound | src/agent/prompts.py:58-68 | Formatting the single-agent template without that odd field name bound raises `KeyError` |
| Prompts.CustomizePrompt | src/agent/prompts.py:322-347 | The loop applies the customisations in iteration order: section keys append their section, any other key replaces every `{key}` |
| Prompts.Customized | src/agent/prompts.py:336-345 | The customisations applied one after another in iteration order |
| Prompts.SectionsAppended | src/agent/prompts.py:336-342 | With section keys only, the prompt is the base followed by the sections in order |
| Prompts.UnusedPlaceholder | src/agent/prompts.py:343-345 | A placeholder the prompt does not contain leaves it unchanged |
| Prompts.PlaceholderFilled | src/agent/prompts.py:343-345 | A placeholder is filled at its first occurrence and the replacement carries on after the value, never inside it |
| Prompts.ValidatePromptVariables | src/agent/prompts.py:350-364 | True exactly when every required variable occurs as `{var}` in the prompt |
| Environment.FirstSet | config/agent_config.py:50-57 | With no candidate set and non-empty, the default is taken |
| Environment.FirstSetIsFirst | config/agent_config.py:50-57 | The first set, non-empty candidate wins over every later one and over the default |
| Environment.TopicRoot | config/agent_config.py:50-57 | `TOPIC_ROOT`, else `USERNAME`, else `USER`, else the default; never empty when the default is not (the multi-agent system uses the same chain with `NLDF_MULTI_AGENT` as its default) |
| Configuration.ConfigRoot | config/agent_config.py:50-57 | The configured root is `TOPIC_ROOT` when set, `NLDF_DEFAULT` when none of the three is set, never empty |
| Configuration.DerivedTopicLevels | config/agent_config.py:65-70 | Below a root without `/`, the four derived topics split back into the root, their own levels and `status` |
| Configuration.DerivedTopicsDistinct | config/agent_config.py:65-70 | The orders, KPI, result and warehouse topics are pairwise different |
| Configuration.GetLineTopics | config/agent_config.py:72-81 | Six topics per line; the command, response and AGV status topics are built from the root and the line id |
| Configuration.NewTopicConfig | config/agent_config.py:47-70 | The four topics derived from the root: orders, KPI, result and warehouse status |
| Configuration.CommandTopicsPerLine | config/agent_config.py:79-80 | A line's command and response topics end with the line id, so two lines never share a command topic |
| Configuration.Filtered | config/agent_config.py:189-199 | A filtered table is no longer than the original; an entry is in it exactly when it is an entry of the original that passes the test |
| Configuration.GetEnabledAgents | config/agent_config.py:189-191 | Exactly the enabled agents: every entry returned is an enabled entry of the table, and every enabled entry is returned |
| Configuration.GetLineCommanders | config/agent_config.py:193-199 | Exactly the enabled line commanders: every entry returned is an enabled entry of the table with that role, and every such entry is returned |
| Configuration.LineCommandersAmongEnabled | config/agent_config.py:189-199 | The line commanders are exactly the enabled agents whose role is line commander, in table order |
| Configuration.FilteredAppend | config/agent_config.py:191 | Filtering a concatenation filters each part |
| Configuration.ValidateSettings | config/agent_config.py:201-221 | No issue exactly when the API key, host, root and line list are all non-empty; each issue is reported exactly when its setting is empty, in the source's order |
| Configuration.SystemConfig.constructor | config/agent_config.py:145-167 | Settings come from `MOONSHOT_API_KEY`, `MQTT_HOST` (with its default host), the root chain, `DEBUG` (true only for `true` in any case) and `LOG_LEVEL` (default `INFO`); an empty agent table is filled with the defaults |
| Configuration.SystemConfig.SetupDefaultAgents | config/agent_config.py:169-187 | The table gains the supervisor and then one enabled line commander per MVP line; no other setting changes |
| Configuration.SystemConfig.ValidateConfig | config/agent_config.py:201-221 | The configuration's issues are those of `ValidateSettings` for its API key, host, root and lines |
| Configuration.SystemConfig.UpdateConfig | config/agent_config.py:252-256 | Each of `debug_mode`, `log_level` and `max_concurrent_agents` takes the last value given for it; the other settings are unchanged |
| Configuration.LastUpdate | config/agent_config.py:252-256 | The value an attribute ends with keeps the attribute's type |
| Configuration.UnknownNamesIgnored | config/agent_config.py:254-256 | Updates that do not name an attribute leave it as it was |
| Configuration.PutEnabled | config/agent_config.py:172-187 | Storing an enabled agent keeps every agent of the table enabled |
| Configuration.DefaultAgentsEnabled | config/agent_config.py:169-187 | Setting up the defaults adds only enabled agents |
| Configuration.EnabledKeepsAll | config/agent_config.py:189-191 | A table whose agents are all enabled is returned whole by `get_enabled_agents` |
| Configuration.DefaultTable | config/agent_config.py:169-187 | The default table holds the supervisor and the line1 commander, in that order, all enabled |
| Configuration.DefaultAgents | config/agent_config.py:169-187 | The table after `_setup_default_agents`: the supervisor, then one enabled line commander per MVP line |
| Configuration.DefaultLineCommanders | config/agent_config.py:193-199 | The default table's only line commander is `line_commander_line1`, named `LineCommander_line1` |
| Configuration.ConfigManager.constructor | config/agent_config.py:227-229 | Nothing is loaded yet |
| Configuration.ConfigManager.Config | config/agent_config.py:231-245 | The first access builds the configuration from the environment with the default agents; later accesses return the same object |
| Configuration.FreshConfigIssues | config/agent_config.py:318-330 | A configuration from the environment never lacks a root or lines: it validates exactly when the API key and host are set |
| EvalCli.SplitStrategyArg | eval_strategy.py:482-485 | Without `::` the whole argument is the file and there is no name; otherwise the argument is file, `::`, name, and the file holds no `::` |
| EvalCli.SplitAtFirst | eval_strategy.py:482-483 | The split is at the first `::`: the rest, `::` included, belongs to the name |
| EvalCli.FirstCallable | eval_strategy.py:113-118 | A name found is one of those tried and is a callable attribute |
| EvalCli.PublicCallables | eval_strategy.py:121-122 | The public callables are callable attributes not starting with `_` |
| EvalCli.HasAttribute | eval_strategy.py:102 | `hasattr(module, name)`: some attribute has the name |
| EvalCli.CallableNamed | eval_strategy.py:114-116 | `hasattr` and `callable`: some attribute with the name is callable |
| EvalCli.LoadStrategy | eval_strategy.py:74-131 | A missing file raises `FileNotFoundError` and an unloadable one `ImportError`; a given name loads exactly when it is an attribute, else `AttributeError`; without one, what loads is callable; the only errors are those four |
| EvalCli.LoadStrategyFromFile | eval_strategy.py:74-131 | The loop over the common names returns what `LoadStrategy` names, error or function |
| EvalCli.FirstCallableIsFirst | eval_strategy.py:113-118 | The earliest callable name in the list is the one chosen |
| EvalCli.NoFirstCallable | eval_strategy.py:113-118 | With no callable among the names, none is chosen |
| EvalCli.LoadPriority | eval_strategy.py:107-118 | Without a function name, the earliest callable common name is loaded, whatever else the module holds |
| EvalCli.LoadUniquePublic | eval_strategy.py:120-131 | Without a common name, loading succeeds exactly when there is one public callable, and loads it; otherwise `ValueError` |
| EvalCli.GetBuiltinStrategy | eval_strategy.py:196-210 | Exactly the four registered names load a strategy, the one registered under that name; anything else raises `ValueError` |
| EvalCli.BuiltinIndex | eval_strategy.py:196-201 | Each built-in strategy has a position in the registry |
| EvalCli.BuiltinRoundTrip | eval_strategy.py:196-210 | Every registered name loads the strategy registered under it |
| EvalCli.ReactiveStrategy | eval_strategy.py:154-188 | Orders move AGV_1 to P0; an AGV idle at P0 loads; only AGV status topics issue anything else; a non-numeric battery raises `TypeError`; ids are `reactive_…` |
| EvalCli.ReactiveCharges | eval_strategy.py:178-186 | An AGV not idle at P0 is charged to 80.0 exactly when its battery is below 30, and nothing is sent otherwise |
| EvalCli.RunBuiltin | eval_strategy.py:139-194 | The none and multi-agent strategies never command; the simple one moves AGV_1 to P0 exactly on orders topics |
| EvalCli.Logged | eval_strategy.py:47-69 | The wrapped strategy passes results through unchanged and turns an exception into `None`; it never raises |
| EvalCli.LoggedIdempotent | eval_strategy.py:47-69 | Wrapping twice is wrapping once |
| EvalCli.MainKwargs | eval_strategy.py:514-520 | `main` always passes both flags, and the topic root exactly when one is given |
| EvalCli.QuickEvalAsWritten | src/evaluation/strategy_evaluator.py:433-445 | Succeeds, with the run's score, exactly when no keyword argument is given; otherwise `TypeError` |
| EvalCli.QuickEval | src/evaluation/strategy_evaluator.py:433-445 | Succeeds, with the run's score, exactly when every keyword is an evaluation option |
| EvalCli.MainOptionsAccepted | eval_strategy.py:514-520 | Whatever `main` passes, the corrected evaluation reports the run's score |
| EvalCli.Evaluations | eval_strategy.py:268-285 | One outcome per strategy, in listed order |
| EvalCli.Recorded | eval_strategy.py:276-284 | Each strategy keeps its name and its score, or 0.0 when the evaluation failed |
| EvalCli.Ranking | eval_strategy.py:276-287 | The printed ranking is descending by score and a permutation of the recorded results |
| EvalCli.Insert | eval_strategy.py:287 | Inserting adds exactly the one entry |
| EvalCli.InsertAtMost | eval_strategy.py:287 | Inserting keeps every score at most a bound they all respect |
| EvalCli.InsertDescending | eval_strategy.py:287 | Inserting keeps the scores in descending order |
| EvalCli.SortDescending | eval_strategy.py:287 | The sorted list is a permutation of the results in descending score order |
| EvalCli.CompareStrategies | eval_strategy.py:257-296 | The ranking is the recorded results, a permutation of them, highest score first |
| EvalCli.RankingKeepsScores | eval_strategy.py:257-296 | With the corrected evaluation, every compared strategy is ranked with its own score |
| EvalCli.ComparedAsWrittenScoresZero | eval_strategy.py:514-528 | As written, every compared strategy is ranked with 0.0, whatever its run would score |
| ExampleStrategy.MyStrategy | example_strategy.py:11-91 | An order with products moves AGV_1 to P0; otherwise only AGV status topics command; a battery below 25 is charged to 85.0 before any other rule; a non-numeric battery raises `TypeError`; ids are `my_strategy_…` |
| ExampleStrategy.AgvStatusTopic | example_strategy.py:39 | A topic naming both `agv` and `status` |
| ExampleStrategy.AgvRules | example_strategy.py:39-81 | Every AGV command targets the reporting AGV |
| ExampleStrategy.DeliveryCycle | example_strategy.py:56-81 | With a battery of at least 25: an empty idle AGV at P0 loads, a loaded AGV at P0 moves to P1, a loaded idle AGV at P1 unloads, and an AGV elsewhere gets nothing |
| ExampleStrategy.OtherTopicsIgnored | example_strategy.py:83-91 | Station reports, other topics and orders without products give no command |
| ExampleStrategy.AdvancedStrategy | example_strategy.py:94-125 | Orders move AGV_2 to P0; an AGV report charges to 90.0 exactly when the battery is below 40; nothing else is sent |
| ExampleStrategy.DefaultIsMyStrategy | example_strategy.py:129-131 | The default entry point answers every message as `my_strategy` does |
| ExampleStrategy.DefaultStrategy | example_strategy.py:129-131 | `strategy`, the default entry point, delegating to `my_strategy` |
| ExampleStrategy.ExampleFileLoads | eval_strategy.py:100-118 | Loaded without a name the example file gives `strategy`; with `advanced_strategy` that function; an unknown name fails |
| ExampleStrategies.SimpleReactive | strategies/example_strategies.py:14-34 | Asks the warehouse for a product for the station exactly when a station topic's message has a status equal to `idle` in any case; a non-string status raises `AttributeError` |
| ExampleStrategies.SimpleReactiveIgnoresCase | strategies/example_strategies.py:26-27 | An `IDLE` station is served too |
| ExampleStrategies.ProactiveScheduling | strategies/example_strategies.py:37-70 | On orders topics AGV_1 is prioritised exactly when the priority exceeds 5 (a non-number raises `TypeError`); elsewhere a completed station has its product moved on |
| ExampleStrategies.UnprioritisedOrder | strategies/example_strategies.py:49 | An order without a priority counts as 0 and is not prioritised |
| ExampleStrategies.FirstLowStock | strategies/example_strategies.py:85-86 | The product found is the first counted below 2, all before it not low; none exactly when no count is below 2; `TypeError` is raised only by a non-numeric count compared before any low one |
| ExampleStrategies.FirstLowFound | strategies/example_strategies.py:85-86 | A count below 2 reached after only numeric, not-low counts is the product reordered |
| ExampleStrategies.WarehouseOptimization | strategies/example_strategies.py:73-96 | Only warehouse topics act: the first low product is reordered ten at a time, an inventory that is not a dictionary raises `AttributeError` |
| ExampleStrategies.ReorderFirstLow | strategies/example_strategies.py:85-93 | When two products are low, the first listed is reordered |
| ExampleStrategies.LoadBalancing | strategies/example_strategies.py:99-122 | A station product is redirected exactly when the queue is longer than 3; a non-numeric queue length raises `TypeError` |
| ExampleStrategies.RegistryIndex | strategies/example_strategies.py:130-136 | Each registered strategy has a position in the registry |
| ExampleStrategies.GetStrategy | strategies/example_strategies.py:139-141 | A strategy is found exactly for the registered names, and it is the one registered under that name |
| ExampleStrategies.ListStrategies | strategies/example_strategies.py:144-146 | The listed names are the registry's keys; each finds a strategy and every strategy is found under its own |
| ExampleStrategies.RunRegistered | strategies/example_strategies.py:130-136 | Each registry entry runs its own strategy function |
| MultiAgentStrategy.RuleBranch | strategies/multi_agent_strategy.py:100-144 | Never raises; commands only for an `idle` status; an idle station processes its product or, without one, loads; an idle AGV (on a topic that is not a station's) moves to P0 |
| MultiAgentStrategy.BusyStationIgnored | strategies/multi_agent_strategy.py:105-125 | A station report that is not idle gives no command, even when the topic also names an AGV |
| MultiAgentStrategy.OtherInputsIgnored | strategies/multi_agent_strategy.py:105-144 | Messages without a status, or on topics naming neither a station nor an AGV, give no command |
| MultiAgentStrategy.StrategyWrapper.constructor | strategies/multi_agent_strategy.py:30-34 | No controller, not running, startup not complete |
| MultiAgentStrategy.StrategyWrapper.StartMultiAgentSystem | strategies/multi_agent_strategy.py:36-43 | Only the first call builds a controller, with a supervisor and the line1 commander, starts it and sets both flags; later calls change nothing |
| MultiAgentStrategy.StrategyWrapper.StopMultiAgentSystem | strategies/multi_agent_strategy.py:45-50 | With a controller, it is shut down and both flags are cleared; without one nothing changes |
| MultiAgentStrategy.StartTwiceThenStop | strategies/multi_agent_strategy.py:36-50 | Starting twice keeps one controller; stopping then leaves it shut down with both flags cleared |
| StrategyDemo.SimpleStrategy | examples/strategy_evaluation_demo.py:20-40 | AGV_1 moves to P0 exactly on topics naming both orders and status; never raises |
| StrategyDemo.ReactiveStrategy | examples/strategy_evaluation_demo.py:43-102 | Orders move AGV_1 to P0; an AGV idle at P0 loads; on station status topics that are not AGV topics, AGV_1 moves to P1 exactly when the station is idle; only a non-numeric battery raises |
| StrategyDemo.LoadBeforeCharge | examples/strategy_evaluation_demo.py:72-86 | An AGV idle at P0 loads even with a nearly empty battery |
| StrategyDemo.ChargeBelowThirty | examples/strategy_evaluation_demo.py:81-88 | Elsewhere a battery below 30 charges to 80.0, and one at 30 or more gives nothing |
| StrategyDemo.AdvancedStrategy | examples/strategy_evaluation_demo.py:105-162 | Never raises; an order with products moves AGV_1 to P0; any other command is for the AGV of an AGV status report |
| StrategyDemo.ReportFields | examples/strategy_evaluation_demo.py:129-134 | A report built from its fields gives them back |
| StrategyDemo.AdvancedDelivery | examples/strategy_evaluation_demo.py:136-160 | One delivery: an empty idle AGV at P0 loads, the loaded AGV at P0 moves to P1, and idle at P1 unloads |
| StrategyDemo.AdvancedRules | examples/strategy_evaluation_demo.py:129-160 | For every AGV status report: an empty idle AGV at P0 loads, a loaded one at P0 moves to P1, a loaded idle one at P1 unloads, and no other report gives a command |
| StrategyDemo.NoActionStrategy | examples/strategy_evaluation_demo.py:165-169 | Never commands |
| StrategyDemo.DemoComparison | examples/strategy_evaluation_demo.py:172-215 | The ranking is the demo's four strategies with their run scores, a permutation of them, highest first |
| MultiStrategy.PyLen | strategies/multi_strategy_function.py:183 | `len` of a list, string or dictionary is its size; of anything else it raises `TypeError` |
| MultiStrategy.StationEntries | strategies/multi_strategy_function.py:178-185 | An entry exactly for each station whose lower-case name occurs in the lowered text, each with the message's status and product and the buffer's length; a buffer without a length raises `TypeError` exactly when some station is named |
| MultiStrategy.Analyze | strategies/multi_strategy_function.py:160-195 | Both AGVs get the message's report exactly when the text mentions `agv`; one order exactly when it mentions `order`; the stations as above; no alerts; it raises only for a station mentioned with a length-less buffer |
| MultiStrategy.Priority | strategies/multi_strategy_function.py:208 | `high` maps to 1, `medium` to 2, anything else to 3 |
| MultiStrategy.SupervisorDecision | strategies/multi_strategy_function.py:197-211 | No command exactly when there is no order; otherwise the first order is assigned to line1 with its mapped priority |
| MultiStrategy.IdleAgvs | strategies/multi_strategy_function.py:217-218 | Exactly the AGVs whose status is `idle` |
| MultiStrategy.FirstReady | strategies/multi_strategy_function.py:224-225 | No station is found exactly when none is idle with an empty queue; one found is such a station |
| MultiStrategy.LineCommanderDecision | strategies/multi_strategy_function.py:213-233 | A command is sent exactly when some AGV is idle and some station is idle with an empty queue; it moves an idle AGV to P0 under an id naming a ready station |
| MultiStrategy.CoordinationDecision | strategies/multi_strategy_function.py:235-285 | An idle station processes its product or loads; otherwise an idle AGV charges to 80.0 below 20 or moves to P0, a non-numeric battery raising `TypeError`; otherwise orders topics ask the factory for its result and all else gives nothing |
| MultiStrategy.Predict | strategies/multi_strategy_function.py:291-322 | Never raises: an analysis error or a raising coordination gives the fallback `get_result`; orders topics go to the supervisor decision, station topics to the line commander, the rest to coordination |
| MultiStrategy.Fallback | strategies/multi_strategy_function.py:313-322 | The `except` branch's `get_result` command for the factory |
| MultiStrategy.OrderAssigned | strategies/multi_strategy_function.py:186-211 | An order on an orders topic is assigned to line1 with the order's id and mapped priority |
| MultiStrategy.OrderTopicWithoutOrder | strategies/multi_strategy_function.py:186-211 | An orders-topic message whose text does not mention `order` gives no command |
| MultiStrategy.IdleAgvBattery | strategies/multi_strategy_function.py:255-274 | An idle AGV report charges to 80.0 below 20 and otherwise moves to P0; a non-numeric battery gives the fallback |
| MultiStrategy.NoStationCommands | strategies/multi_strategy_function.py:237-254 | `predict` never sends `process` or `load`: station topics never reach coordination |
| MultiStrategy.ReadyState | strategies/multi_strategy_function.py:160-195 | A message mentioning an AGV and StationA, idle with an empty buffer, yields both AGVs and a ready station |
| MultiStrategy.ReadyStationCallsAgv | strategies/multi_strategy_function.py:213-233 | Such a station report sends AGV_1 or AGV_2 to P0 |
| NldfStrategy.LineMatch | strategies/nldf_strategy_function.py:188-194 | The first of line1, line2, line3 the topic contains, or none |
| NldfStrategy.AgvTargets | strategies/nldf_strategy_function.py:197-200 | For a matched line its two AGVs, otherwise all six; every target is one of the six |
| NldfStrategy.Choice | strategies/nldf_strategy_function.py:197-200 | `random.choice` gives an element of the list |
| NldfStrategy.MockResponse | strategies/nldf_strategy_function.py:184-257 | Orders move a line AGV to P0; AGV reports charge below 30, load an AGV idle at P0 or move it to one of P1, P3, P5, P7, P9; an idle station calls an AGV to P1; all else asks for the result; only an uncomparable battery raises `TypeError` |
| NldfStrategy.MockTargets | strategies/nldf_strategy_function.py:184-257 | Every mock command targets the factory, an AGV of the line, or the AGV the message names |
| NldfStrategy.Line2Targets | strategies/nldf_strategy_function.py:188-200 | A line2 topic (without line1) draws from line2_AGV_1 and line2_AGV_2 |
| NldfStrategy.AcceptReply | strategies/nldf_strategy_function.py:304-316 | A model reply is accepted exactly when it has both `action` and `target`; a missing `command_id` is added and nothing else changes |
| NldfStrategy.Predict | strategies/nldf_strategy_function.py:284-328 | An accepted model reply is returned; otherwise the mock answer, or nothing when the mock raised |
| NldfStrategy.NoReplyOnlyOnBadBattery | strategies/nldf_strategy_function.py:284-328 | Nothing is returned exactly when the model reply is missing or incomplete and an AGV report's battery is not a number |
| NldfStrategy.ReplyWithoutAction | strategies/nldf_strategy_function.py:304-316 | A reply without `action` is never passed on |
| NldfStrategy.CompleteReplyUnchanged | strategies/nldf_strategy_function.py:304-316 | A reply with `action`, `target` and `command_id` is passed on unchanged |

## Left out

- The simulation engine is not part of this model: the AGV and device classes, the path graph, the `Factory` loop, the KPI calculator, the order generator and the fault system. Where the source asks them something, the answer is a parameter: whether a factory exists, a device lookup, a score.
- The MQTT client, language-model calls, `asyncio`, threads, sleeps and the wall clock are left out. Publishing is recorded as a list of publications or a log on the object that publishes. Receive times, publish results and model replies are parameters.
- `TopicManager` and `config.schemas` are not part of this model. Topic names are built as the configuration builds them, and schema validation is an outcome the command handler receives.
- Text is treated as ASCII: `str.lower` and `str.isdigit` are not modelled for other characters.
- JSON numbers are reals. Integer and float are not told apart, and float rounding is not modelled.
- Dictionaries are association lists whose keys are assumed distinct, as Python guarantees. Payloads that are not JSON objects are not modelled where the source only receives objects.
- Devices found by the command handler are assumed truthy.
- Command ids built from `time.time()` and `random.randint` keep only their fixed prefix. An id that also names a station or AGV keeps only the fixed prefix, except `line_cmd_<station>_`, which keeps the station.
- `Prompts`: the prompt texts are abbreviated to their opening sentence and their first placeholder-bearing fragment. `str.format` conversions (`!r`) and format specifications (`:>8`) are carried over and not interpreted.
- `Configuration.SystemConfig.UpdateConfig`: covers only `debug_mode`, `log_level` and `max_concurrent_agents`. A value of another type than the attribute's is skipped, where Python's `setattr` would store it. The other attributes (`mqtt`, `llm`, `agents` and so on) are left out.
- The MQTT and model settings beyond host and API key are left out. The file branch of `_load_config` is a no-op in the source and is not modelled. `save_config` and `print_config_summary` are left out.
- `MultiAgentSystem.Controller.UpdateFactoryState`: a `dict.update` with a value that is not a dictionary is treated as raising, although Python accepts a list of pairs. A partial update before the error is not modelled.
- `MultiAgentSystem.Controller.DrainQueue`: the processor loop's 100 ms polling is modelled as single drains of the queue.
- The line commander's `_handle_order_assignment` and `_plan_product_workflow` are left out: they record the order and plan one pickup task per product, and each task is handed to `LineCommanderAgent.LineCommander.AssignAgvTask`, which is modelled. The line commander's alert and command-response handlers only log, and are left out.
- `get_queue_status` of the retry queue is left out: it only reports the queue's fields.
- `StrategyEvaluation`: the evaluator's subscriptions and the simulation loop are left out. The online wait for a result is a finite sequence of polls and ends as still waiting when they run out. Each poll's buffer is a parameter: the model does not tie it to the evaluator's own buffer, which the message callback extends while the wait runs. A failed connection, which raises in the source, is a `false` result. The offline path's command execution is reduced to whether a KPI calculator exists.
- `EvalCli`: errors raised by `exec_module`, module code run on import, `format_results`, `save_results` and `setup_logging` are left out.
- `EvalCli.SortDescending`: states that the result is a descending permutation, not that the sort is stable as Python's is.
- `MultiAgentStrategy`: the start-up thread with its 30-second wait, the `multi_agent_factory_control` singleton and `eval_multi_agent_system` are left out.
- `StrategyDemo`: the detailed evaluation that the demo runs after its comparison is left out.
- `MultiStrategy`: the engine's unused `agv_states`, `station_states` and `decision_count` are left out. The rendering `str(message)` is a parameter. The coordination decision's station branch is modelled but cannot be reached from `predict`, as `MultiStrategy.NoStationCommands` shows.
- `NldfStrategy`: the model call, its event loop and timeout, the prompt text and the debug prints are left out. A model reply that decodes to something other than an object is not modelled. The random id and product serial are parameters.
- `SupervisorAgent`: `_handle_result_update` and `stop` are left out. The model's decision is a parameter. The exception path of publishing inside `_assign_order_to_line` is not modelled.

## Findings

| source | as written | input that shows it | evidently intended | confidence | as-written member | corrected member |
|---|---|---|---|---|---|---|
| eval_strategy.py:274 | `compare_strategies` and the quick path of `main` pass `no_mqtt`, `no_faults` and possibly `root_topic` as keywords to `quick_eval`, whose signature at src/evaluation/strategy_evaluator.py:433 takes none, so every call raises `TypeError` and every compared strategy is recorded with 0.0 | `eval_strategy.py --compare` with any two strategies: `main` always builds `no_mqtt` and `no_faults` | the options reach the evaluation run, and each strategy is ranked with the score its run reaches | high; not executed | EvalCli.QuickEvalAsWritten, EvalCli.ComparedAsWrittenScoresZero | EvalCli.QuickEval, EvalCli.RankingKeepsScores |
| src/utils/message_retry_queue.py:235-236 | `flush_queue` removes the published messages by id, and an id is made of the topic and the creation time in milliseconds, so an unpublished message sharing the id of a published one is removed as well | two messages to the same topic queued in the same millisecond; the first publishes, the second's publish fails | only the published messages leave the queue | medium; not executed | RetryQueue.FlushAsWritten, RetryQueue.FlushLosesUnsentMessage | RetryQueue.MessageRetryQueue.Flush, RetryQueue.FlushAgreesOnDistinctIds |
