/**
 * The command dictionaries that strategies and agents emit:
 * `{"command_id": ..., "action": ..., "target": ..., "params": {...}}`.
 */
module Commands {
  import opened Wrappers
  import opened JsonValues

  /**
   * A command id: a fixed text, or a prefix followed by a random or
   * time-derived suffix the model does not fix (`f"simple_{random.randint(1000, 9999)}"`
   * is `Generated("simple_")`).
   */
  datatype CmdId = Fixed(text: string) | Generated(prefix: string)

  /** A command; `id` is `None` for the strategies whose dictionaries have no `command_id` key. */
  datatype Command = Command(id: Option<CmdId>, action: string, target: Json, params: Object)

  /** What a strategy call ends in: a command, `None`, or an exception it lets escape. */
  datatype Outcome = Issue(cmd: Command) | NoCommand | Raised(error: PyError)

  /** A command with a generated id. */
  function Cmd(prefix: string, action: string, target: Json, params: Object): (c: Command)
    ensures c.id == Some(Generated(prefix)) && c.action == action
    ensures c.target == target && c.params == params
  {
    Command(Some(Generated(prefix)), action, target, params)
  }

  /** `{"target_point": p}`. */
  function MoveTo(point: string): Object {
    [("target_point", JStr(point))]
  }

  /** `{"target_level": level}`. */
  function ChargeTo(level: real): Object {
    [("target_level", JNum(level))]
  }

  /** The outcome carries a command with exactly this action, target and parameters. */
  predicate Issues(o: Outcome, action: string, target: Json, params: Object) {
    o.Issue? && o.cmd.action == action && o.cmd.target == target && o.cmd.params == params
  }
}
