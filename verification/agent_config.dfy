/**
 * The system configuration: topic names derived from the topic root, the
 * default agent table, its filters, the validation report, and the lazily
 * loaded configuration held by the configuration manager.
 */
module Configuration {
  import opened Wrappers
  import opened Text
  import opened Dicts
  import opened Environment

  /** The environment variables the configuration reads, besides the topic-root chain. */
  datatype ConfigEnv = ConfigEnv(topic: Env, moonshotApiKey: Option<string>, mqttHost: Option<string>,
                                 logLevel: Option<string>, debug: Option<string>)

  const DefaultMqttHost := "supos-ce-instance4.supos.app"

  /** `TopicConfig` after `__post_init__`. */
  datatype TopicConfig = TopicConfig(root: string, ordersTopic: string, kpiTopic: string, resultTopic: string,
                                     warehouseTopic: string)

  /** The root chain of `TopicConfig`, ending in "NLDF_DEFAULT". */
  function ConfigRoot(env: Env): (r: string)
    ensures r != ""
    ensures IsSet(env.topicRoot) ==> r == env.topicRoot.value
    ensures !IsSet(env.topicRoot) && !IsSet(env.username) && !IsSet(env.user) ==> r == "NLDF_DEFAULT"
  {
    TopicRoot(env, "NLDF_DEFAULT")
  }

  /** A topic name: its levels joined by `/`. */
  function Topic(levels: seq<string>): string {
    Join(levels, '/')
  }

  /** `TopicConfig(root)`: `{root}/orders/status`, `{root}/kpi/status`, `{root}/result/status`, `{root}/warehouse/+/status`. */
  function NewTopicConfig(root: string): TopicConfig {
    TopicConfig(root, Topic([root, "orders", "status"]), Topic([root, "kpi", "status"]),
                Topic([root, "result", "status"]), Topic([root, "warehouse", "+", "status"]))
  }

  /** Below a root without `/`, each derived topic splits back into the root and its own levels. */
  lemma DerivedTopicLevels(root: string)
    requires '/' !in root
    ensures Split(NewTopicConfig(root).ordersTopic, '/') == [root, "orders", "status"]
    ensures Split(NewTopicConfig(root).kpiTopic, '/') == [root, "kpi", "status"]
    ensures Split(NewTopicConfig(root).resultTopic, '/') == [root, "result", "status"]
    ensures Split(NewTopicConfig(root).warehouseTopic, '/') == [root, "warehouse", "+", "status"]
  {
    ThreeLevels(root, "orders", "status");
    ThreeLevels(root, "kpi", "status");
    ThreeLevels(root, "result", "status");
    FourLevels(root, "warehouse", "+", "status");
  }

  lemma ThreeLevels(a: string, b: string, c: string)
    requires '/' !in a && '/' !in b && '/' !in c
    ensures Split(Topic([a, b, c]), '/') == [a, b, c]
  {
    SplitJoin([a, b, c], '/');
  }

  lemma FourLevels(a: string, b: string, c: string, d: string)
    requires '/' !in a && '/' !in b && '/' !in c && '/' !in d
    ensures Split(Topic([a, b, c, d]), '/') == [a, b, c, d]
  {
    SplitJoin([a, b, c, d], '/');
  }

  /** So the four derived topics are pairwise different. */
  lemma DerivedTopicsDistinct(root: string)
    requires '/' !in root
    ensures var t := NewTopicConfig(root);
            t.ordersTopic != t.kpiTopic && t.ordersTopic != t.resultTopic && t.ordersTopic != t.warehouseTopic
            && t.kpiTopic != t.resultTopic && t.kpiTopic != t.warehouseTopic && t.resultTopic != t.warehouseTopic
  {
    DerivedTopicLevels(root);
    var levels := [[root, "orders", "status"], [root, "kpi", "status"], [root, "result", "status"],
                   [root, "warehouse", "+", "status"]];
    assert levels[0][1] != levels[1][1] && levels[0][1] != levels[2][1] && levels[1][1] != levels[2][1];
    assert |levels[3]| != |levels[0]|;
  }

  /** `get_line_topics`: the six topics of one production line. */
  function GetLineTopics(t: TopicConfig, lineId: string): (r: Dict<string>)
    ensures |r| == 6
    ensures Get(r, "command") == Some(Topic([t.root, "command", lineId]))
    ensures Get(r, "response") == Some(Topic([t.root, "response", lineId]))
    ensures Get(r, "agv_status") == Some(Topic([t.root, lineId, "agv", "+", "status"]))
  {
    var r := [("station_status", Topic([t.root, lineId, "station", "+", "status"])),
              ("agv_status", Topic([t.root, lineId, "agv", "+", "status"])),
              ("conveyor_status", Topic([t.root, lineId, "conveyor", "+", "status"])),
              ("alerts", Topic([t.root, lineId, "alerts"])),
              ("command", Topic([t.root, "command", lineId])),
              ("response", Topic([t.root, "response", lineId]))];
    GetAt(r, 1);
    GetAt(r, 4);
    GetAt(r, 5);
    r
  }

  /** A line's command and response topics name the line as their last level, so different lines never share them. */
  lemma CommandTopicsPerLine(t: TopicConfig, line1: string, line2: string)
    requires '/' !in t.root && '/' !in line1 && '/' !in line2
    ensures Split(Get(GetLineTopics(t, line1), "command").value, '/') == [t.root, "command", line1]
    ensures Split(Get(GetLineTopics(t, line1), "response").value, '/') == [t.root, "response", line1]
    ensures line1 != line2 ==> Get(GetLineTopics(t, line1), "command") != Get(GetLineTopics(t, line2), "command")
  {
    ThreeLevels(t.root, "command", line1);
    ThreeLevels(t.root, "response", line1);
    ThreeLevels(t.root, "command", line2);
    if line1 != line2 {
      assert [t.root, "command", line1][2] != [t.root, "command", line2][2];
    }
  }

  /** `AgentConfig`, with the settings the modelled code reads. */
  datatype AgentSettings = AgentSettings(name: string, role: string, enabled: bool, logLevel: string,
                                         lineId: Option<string>)

  /** The agent table after `_setup_default_agents`: the supervisor, then one line commander per MVP line. */
  function DefaultAgents(agents: Dict<AgentSettings>, mvpLines: seq<string>, logLevel: string): Dict<AgentSettings>
    decreases |mvpLines|
  {
    if |mvpLines| == 0 then Put(agents, "supervisor", AgentSettings("SupervisorAgent", "supervisor", true, logLevel, None))
    else
      var line := mvpLines[|mvpLines| - 1];
      Put(DefaultAgents(agents, mvpLines[..|mvpLines| - 1], logLevel), "line_commander_" + line,
          AgentSettings("LineCommander_" + line, "line_commander", true, logLevel, Some(line)))
  }

  /** One more MVP line adds its line commander to the table built for the earlier lines. */
  lemma DefaultAgentsStep(agents: Dict<AgentSettings>, mvpLines: seq<string>, i: nat, logLevel: string)
    requires i < |mvpLines|
    ensures DefaultAgents(agents, mvpLines[..i + 1], logLevel)
            == Put(DefaultAgents(agents, mvpLines[..i], logLevel), "line_commander_" + mvpLines[i],
                   AgentSettings("LineCommander_" + mvpLines[i], "line_commander", true, logLevel, Some(mvpLines[i])))
  {
    assert mvpLines[..i + 1][..i] == mvpLines[..i];
  }

  /** The entries of an agent table that satisfy `keep`, in order (a dict comprehension). */
  function Filtered(agents: Dict<AgentSettings>, keep: AgentSettings -> bool): (r: Dict<AgentSettings>)
    ensures |r| <= |agents|
    ensures forall i :: 0 <= i < |r| ==> keep(r[i].1) && r[i] in agents
    ensures forall i :: 0 <= i < |agents| && keep(agents[i].1) ==> agents[i] in r
    decreases |agents|
  {
    if |agents| == 0 then []
    else
      var rest := Filtered(agents[1..], keep);
      assert forall i :: 0 < i < |agents| ==> agents[i] == agents[1..][i - 1];
      (if keep(agents[0].1) then [agents[0]] else []) + rest
  }

  predicate IsEnabled(a: AgentSettings) {
    a.enabled
  }

  predicate IsLineCommander(a: AgentSettings) {
    a.role == "line_commander" && a.enabled
  }

  /** `get_enabled_agents`. */
  function GetEnabledAgents(agents: Dict<AgentSettings>): (r: Dict<AgentSettings>)
    ensures forall i :: 0 <= i < |r| ==> r[i].1.enabled && r[i] in agents
    ensures forall i :: 0 <= i < |agents| && agents[i].1.enabled ==> agents[i] in r
  {
    Filtered(agents, IsEnabled)
  }

  /** `get_line_commanders`. */
  function GetLineCommanders(agents: Dict<AgentSettings>): (r: Dict<AgentSettings>)
    ensures forall i :: 0 <= i < |r| ==> r[i].1.role == "line_commander" && r[i].1.enabled && r[i] in agents
    ensures forall i :: 0 <= i < |agents| && agents[i].1.role == "line_commander" && agents[i].1.enabled ==> agents[i] in r
  {
    Filtered(agents, IsLineCommander)
  }

  /** The line commanders are the enabled agents whose role is line commander, in the same order. */
  lemma {:induction false} LineCommandersAmongEnabled(agents: Dict<AgentSettings>)
    ensures GetLineCommanders(agents) == Filtered(GetEnabledAgents(agents), IsLineCommander)
    decreases |agents|
  {
    if |agents| > 0 {
      LineCommandersAmongEnabled(agents[1..]);
      var head: Dict<AgentSettings> := if IsEnabled(agents[0].1) then [agents[0]] else [];
      var rest := GetEnabledAgents(agents[1..]);
      assert GetEnabledAgents(agents) == head + rest;
      FilteredAppend(head, rest, IsLineCommander);
    }
  }

  lemma {:induction false} FilteredAppend(a: Dict<AgentSettings>, b: Dict<AgentSettings>, keep: AgentSettings -> bool)
    ensures Filtered(a + b, keep) == Filtered(a, keep) + Filtered(b, keep)
    decreases |a|
  {
    if |a| == 0 {
      assert a + b == b;
    } else {
      assert (a + b)[1..] == a[1..] + b;
      FilteredAppend(a[1..], b, keep);
    }
  }

  const ApiKeyIssue := "LLM API key is not configured"
  const HostIssue := "MQTT host is not configured"
  const RootIssue := "Topic root is not configured"
  const LinesIssue := "No production lines configured for MVP"

  /** `validate_config` on the four settings it checks. */
  function ValidateSettings(apiKey: Option<string>, host: string, root: string, mvpLines: seq<string>): (r: seq<string>)
    ensures r == [] <==> IsSet(apiKey) && host != "" && root != "" && mvpLines != []
    ensures ApiKeyIssue in r <==> !IsSet(apiKey)
    ensures HostIssue in r <==> host == ""
    ensures RootIssue in r <==> root == ""
    ensures LinesIssue in r <==> mvpLines == []
    ensures |r| <= 4
    ensures ApiKeyIssue in r ==> r[0] == ApiKeyIssue
    ensures HostIssue in r ==> r[if ApiKeyIssue in r then 1 else 0] == HostIssue
    ensures RootIssue in r ==> r[(if ApiKeyIssue in r then 1 else 0) + (if HostIssue in r then 1 else 0)] == RootIssue
    ensures LinesIssue in r ==> r[|r| - 1] == LinesIssue
  {
    (if !IsSet(apiKey) then [ApiKeyIssue] else []) + (if host == "" then [HostIssue] else [])
      + (if root == "" then [RootIssue] else []) + (if mvpLines == [] then [LinesIssue] else [])
  }

  /** A value given to `update_config`. */
  datatype Setting = Flag(b: bool) | Text(s: string) | Count(n: int)

  /** `SystemConfig`: the settings are updated in place. */
  class SystemConfig {
    var llmApiKey: Option<string>
    var mqttHost: string
    var topics: TopicConfig
    var mvpLines: seq<string>
    var debugMode: bool
    var logLevel: string
    var maxConcurrentAgents: int
    var agents: Dict<AgentSettings>

    /** `SystemConfig(agents=...)` read from the environment; `__post_init__` fills an empty agent table. */
    constructor(env: ConfigEnv, agents: Dict<AgentSettings>)
      ensures llmApiKey == env.moonshotApiKey && mqttHost == env.mqttHost.GetOr(DefaultMqttHost)
      ensures topics == NewTopicConfig(ConfigRoot(env.topic)) && mvpLines == ["line1"]
      ensures debugMode == (Lower(env.debug.GetOr("false")) == "true")
      ensures logLevel == env.logLevel.GetOr("INFO") && maxConcurrentAgents == 10
      ensures this.agents == if |agents| == 0 then DefaultAgents([], ["line1"], logLevel) else agents
    {
      llmApiKey := env.moonshotApiKey;
      mqttHost := env.mqttHost.GetOr(DefaultMqttHost);
      topics := NewTopicConfig(ConfigRoot(env.topic));
      mvpLines := ["line1"];
      debugMode := Lower(env.debug.GetOr("false")) == "true";
      logLevel := env.logLevel.GetOr("INFO");
      maxConcurrentAgents := 10;
      this.agents := agents;
      new;
      if |agents| == 0 {
        SetupDefaultAgents();
      }
    }

    /** `_setup_default_agents`. */
    method SetupDefaultAgents()
      modifies this
      ensures agents == DefaultAgents(old(agents), mvpLines, logLevel)
      ensures llmApiKey == old(llmApiKey) && mqttHost == old(mqttHost) && topics == old(topics)
      ensures mvpLines == old(mvpLines) && debugMode == old(debugMode) && logLevel == old(logLevel)
      ensures maxConcurrentAgents == old(maxConcurrentAgents)
    {
      agents := Put(agents, "supervisor", AgentSettings("SupervisorAgent", "supervisor", true, logLevel, None));
      for i := 0 to |mvpLines|
        invariant mvpLines == old(mvpLines) && debugMode == old(debugMode) && logLevel == old(logLevel)
        invariant llmApiKey == old(llmApiKey) && mqttHost == old(mqttHost) && topics == old(topics)
        invariant maxConcurrentAgents == old(maxConcurrentAgents)
        invariant agents == DefaultAgents(old(agents), mvpLines[..i], logLevel)
      {
        var line := mvpLines[i];
        DefaultAgentsStep(old(agents), mvpLines, i, logLevel);
        agents := Put(agents, "line_commander_" + line,
                      AgentSettings("LineCommander_" + line, "line_commander", true, logLevel, Some(line)));
      }
      assert mvpLines[..|mvpLines|] == mvpLines;
    }

    /** `validate_config`. */
    function ValidateConfig(): seq<string>
      reads this
    {
      ValidateSettings(llmApiKey, mqttHost, topics.root, mvpLines)
    }

    /** `update_config`: an attribute the configuration has is set; any other name is skipped. */
    method UpdateConfig(updates: seq<(string, Setting)>)
      modifies this
      ensures debugMode == LastUpdate(updates, "debug_mode", Flag(old(debugMode))).b
      ensures logLevel == LastUpdate(updates, "log_level", Text(old(logLevel))).s
      ensures maxConcurrentAgents == LastUpdate(updates, "max_concurrent_agents", Count(old(maxConcurrentAgents))).n
      ensures llmApiKey == old(llmApiKey) && mqttHost == old(mqttHost) && topics == old(topics)
      ensures mvpLines == old(mvpLines) && agents == old(agents)
    {
      for i := 0 to |updates|
        invariant debugMode == LastUpdate(updates[..i], "debug_mode", Flag(old(debugMode))).b
        invariant logLevel == LastUpdate(updates[..i], "log_level", Text(old(logLevel))).s
        invariant maxConcurrentAgents == LastUpdate(updates[..i], "max_concurrent_agents", Count(old(maxConcurrentAgents))).n
        invariant llmApiKey == old(llmApiKey) && mqttHost == old(mqttHost) && topics == old(topics)
        invariant mvpLines == old(mvpLines) && agents == old(agents)
      {
        var (name, value) := updates[i];
        assert updates[..i + 1][..i] == updates[..i];
        if name == "debug_mode" && value.Flag? {
          debugMode := value.b;
        } else if name == "log_level" && value.Text? {
          logLevel := value.s;
        } else if name == "max_concurrent_agents" && value.Count? {
          maxConcurrentAgents := value.n;
        }
      }
      assert updates[..|updates|] == updates;
    }
  }

  /** The value the last matching update gives an attribute, or `current` when there is none. */
  function LastUpdate(updates: seq<(string, Setting)>, name: string, current: Setting): (r: Setting)
    ensures r.Flag? == current.Flag? && r.Text? == current.Text? && r.Count? == current.Count?
    decreases |updates|
  {
    if |updates| == 0 then current
    else
      var (n, v) := updates[|updates| - 1];
      if n == name && SameKind(v, current) then v else LastUpdate(updates[..|updates| - 1], name, current)
  }

  predicate SameKind(a: Setting, b: Setting) {
    (a.Flag? && b.Flag?) || (a.Text? && b.Text?) || (a.Count? && b.Count?)
  }

  /** Updates naming no attribute of the configuration leave every setting as it was. */
  lemma {:induction false} UnknownNamesIgnored(updates: seq<(string, Setting)>, name: string, current: Setting)
    requires forall i :: 0 <= i < |updates| ==> updates[i].0 != name
    ensures LastUpdate(updates, name, current) == current
    decreases |updates|
  {
    if |updates| > 0 {
      UnknownNamesIgnored(updates[..|updates| - 1], name, current);
    }
  }

  /** Every agent in the table is enabled. */
  predicate AllEnabled(agents: Dict<AgentSettings>) {
    forall i :: 0 <= i < |agents| ==> agents[i].1.enabled
  }

  lemma PutEnabled(agents: Dict<AgentSettings>, k: string, v: AgentSettings)
    requires AllEnabled(agents) && v.enabled
    ensures AllEnabled(Put(agents, k, v))
  {
  }

  /** Setting up the defaults adds only enabled agents. */
  lemma {:induction false} DefaultAgentsEnabled(agents: Dict<AgentSettings>, mvpLines: seq<string>, logLevel: string)
    requires AllEnabled(agents)
    ensures AllEnabled(DefaultAgents(agents, mvpLines, logLevel))
    decreases |mvpLines|
  {
    if |mvpLines| == 0 {
      PutEnabled(agents, "supervisor", AgentSettings("SupervisorAgent", "supervisor", true, logLevel, None));
    } else {
      var line := mvpLines[|mvpLines| - 1];
      DefaultAgentsEnabled(agents, mvpLines[..|mvpLines| - 1], logLevel);
      PutEnabled(DefaultAgents(agents, mvpLines[..|mvpLines| - 1], logLevel), "line_commander_" + line,
                 AgentSettings("LineCommander_" + line, "line_commander", true, logLevel, Some(line)));
    }
  }

  /** `get_enabled_agents` keeps a table whose agents are all enabled whole. */
  lemma {:induction false} EnabledKeepsAll(agents: Dict<AgentSettings>)
    requires AllEnabled(agents)
    ensures GetEnabledAgents(agents) == agents
    decreases |agents|
  {
    if |agents| > 0 {
      EnabledKeepsAll(agents[1..]);
      assert agents == [agents[0]] + agents[1..];
    }
  }

  /** With the default line list, the table holds the supervisor and the line1 commander, and every agent is enabled. */
  lemma DefaultTable(logLevel: string)
    ensures Keys(DefaultAgents([], ["line1"], logLevel)) == ["supervisor", "line_commander_" + "line1"]
    ensures GetEnabledAgents(DefaultAgents([], ["line1"], logLevel)) == DefaultAgents([], ["line1"], logLevel)
  {
    var lines := ["line1"];
    assert lines[..0] == [];
    var d0 := DefaultAgents([], [], logLevel);
    assert Keys(d0) == ["supervisor"];
    assert |"line_commander_" + "line1"| != |"supervisor"|;
    DefaultAgentsEnabled([], lines, logLevel);
    EnabledKeepsAll(DefaultAgents([], lines, logLevel));
  }

  /** The default table's only line commander is line1's, named `LineCommander_line1`. */
  lemma DefaultLineCommanders(logLevel: string)
    ensures GetLineCommanders(DefaultAgents([], ["line1"], logLevel))
              == [("line_commander_" + "line1",
                   AgentSettings("LineCommander_" + "line1", "line_commander", true, logLevel, Some("line1")))]
  {
    var lines := ["line1"];
    assert lines[..0] == [];
    var d0 := DefaultAgents([], [], logLevel);
    var k := "line_commander_" + "line1";
    var entry := (k, AgentSettings("LineCommander_" + "line1", "line_commander", true, logLevel, Some("line1")));
    assert d0 == [("supervisor", AgentSettings("SupervisorAgent", "supervisor", true, logLevel, None))];
    assert |k| != |"supervisor"|;
    assert !HasKey(d0, k);
    assert DefaultAgents([], lines, logLevel) == d0 + [entry];
    FilteredAppend(d0, [entry], IsLineCommander);
    assert Filtered(d0, IsLineCommander) == [] by {
      assert d0[1..] == [];
      assert |"supervisor"| != |"line_commander"|;
    }
    assert Filtered([entry], IsLineCommander) == [entry] by {
      assert [entry][1..] == [];
    }
  }

  /** `ConfigManager`: the configuration is built on first use and reused afterwards. */
  class ConfigManager {
    const env: ConfigEnv
    var loaded: Option<SystemConfig>

    constructor(env: ConfigEnv)
      ensures this.env == env && loaded.None?
    {
      this.env := env;
      loaded := None;
    }

    /** The `config` property. */
    method Config() returns (c: SystemConfig)
      modifies this
      ensures loaded == Some(c)
      ensures old(loaded).Some? ==> c == old(loaded).value
      ensures old(loaded).None? ==> fresh(c) && c.agents == DefaultAgents([], ["line1"], c.logLevel)
      ensures old(loaded).None? ==> c.ValidateConfig() == ValidateSettings(env.moonshotApiKey,
                                        env.mqttHost.GetOr(DefaultMqttHost), ConfigRoot(env.topic), ["line1"])
    {
      if loaded.None? {
        var created := new SystemConfig(env, []);
        loaded := Some(created);
      }
      c := loaded.value;
    }
  }

  /** A configuration built from the environment never reports a missing topic root or missing lines. */
  lemma FreshConfigIssues(env: ConfigEnv)
    ensures var issues := ValidateSettings(env.moonshotApiKey, env.mqttHost.GetOr(DefaultMqttHost),
                                           ConfigRoot(env.topic), ["line1"]);
            RootIssue !in issues && LinesIssue !in issues
            && (issues == [] <==> IsSet(env.moonshotApiKey) && env.mqttHost.GetOr(DefaultMqttHost) != "")
  {
  }
}
