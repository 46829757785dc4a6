/**
 * The process environment as the configuration code reads it, and the
 * `a or b or c or default` idiom used to pick the topic root.
 */
module Environment {
  import opened Wrappers

  /** The three variables the topic root is taken from; `None` when unset. */
  datatype Env = Env(topicRoot: Option<string>, username: Option<string>, user: Option<string>)

  /** A value that is set and non-empty, which is what `or` accepts. */
  predicate IsSet(v: Option<string>) {
    v.Some? && v.value != ""
  }

  /** `candidates[0] or candidates[1] or ... or default`. */
  function FirstSet(candidates: seq<Option<string>>, default: string): (r: string)
    ensures (forall i :: 0 <= i < |candidates| ==> !IsSet(candidates[i])) ==> r == default
  {
    if |candidates| == 0 then default
    else if IsSet(candidates[0]) then candidates[0].value
    else FirstSet(candidates[1..], default)
  }

  /** The first set candidate wins over every later one and over the default. */
  lemma {:induction false} FirstSetIsFirst(candidates: seq<Option<string>>, default: string, i: nat)
    requires i < |candidates| && IsSet(candidates[i])
    requires forall j :: 0 <= j < i ==> !IsSet(candidates[j])
    ensures FirstSet(candidates, default) == candidates[i].value
    decreases i
  {
    if i > 0 {
      FirstSetIsFirst(candidates[1..], default, i - 1);
    }
  }

  /** The root chain `TOPIC_ROOT`, then `USERNAME`, then `USER`, then the default. */
  function RootChain(env: Env): seq<Option<string>> {
    [env.topicRoot, env.username, env.user]
  }

  /** The topic root for a given default: never empty when the default is not. */
  function TopicRoot(env: Env, default: string): (r: string)
    ensures default != "" ==> r != ""
    ensures IsSet(env.topicRoot) ==> r == env.topicRoot.value
    ensures !IsSet(env.topicRoot) && IsSet(env.username) ==> r == env.username.value
    ensures !IsSet(env.topicRoot) && !IsSet(env.username) && IsSet(env.user) ==> r == env.user.value
    ensures !IsSet(env.topicRoot) && !IsSet(env.username) && !IsSet(env.user) ==> r == default
  {
    var c := RootChain(env);
    if IsSet(env.topicRoot) then
      FirstSetIsFirst(c, default, 0);
      FirstSet(c, default)
    else if IsSet(env.username) then
      FirstSetIsFirst(c, default, 1);
      FirstSet(c, default)
    else if IsSet(env.user) then
      FirstSetIsFirst(c, default, 2);
      FirstSet(c, default)
    else FirstSet(c, default)
  }
}
