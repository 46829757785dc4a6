/**
 * The strategy evaluation command line: splitting a `file::function`
 * argument, resolving the strategy function inside a loaded file, the
 * built-in strategies, the logging wrapper put around every strategy, and
 * the ranking printed when several strategies are compared.
 */
module EvalCli {
  import opened Wrappers
  import opened Text
  import opened JsonValues
  import opened Commands

  /** A `file::function` argument: the file and the function name; without `::` there is no name. */
  function SplitStrategyArg(arg: string): (r: (string, Option<string>))
    ensures r.1.None? <==> !Contains(arg, "::")
    ensures r.1.None? ==> r.0 == arg
    ensures r.1.Some? ==> arg == r.0 + "::" + r.1.value
    ensures r.1.Some? ==> !Contains(r.0, "::")
  {
    match SplitOnceSub(arg, "::")
    case None => (arg, None)
    case Some((file, name)) =>
      assert "::"[..1] == ":";
      ContainsExtend(file, ":", "::");
      (file, Some(name))
  }

  /** The split is at the first `::`: a file name that cannot take part in one comes back whole, and the rest is the name. */
  lemma SplitAtFirst(file: string, name: string)
    requires !Contains(file + ":", "::")
    ensures SplitStrategyArg(file + "::" + name) == (file, Some(name))
  {
    assert "::"[..1] == ":";
    SplitOnceSubOf(file, "::", name);
  }

  /** An attribute of a loaded module, as `dir()` lists them, and whether it is callable. */
  datatype Attribute = Attribute(name: string, isCallable: bool)

  /**
   * A strategy file: whether it exists, whether an import specification
   * can be made for it, and the attributes of the module it defines.
   */
  datatype StrategyFile = StrategyFile(present: bool, importable: bool, attributes: seq<Attribute>)

  /** The names tried, in this order, when no function name is given. */
  const CommonNames := ["strategy", "main_strategy", "agent_strategy", "my_strategy", "run_strategy", "execute_strategy"]

  /** `hasattr(module, name)`. */
  predicate HasAttribute(attrs: seq<Attribute>, name: string) {
    exists i :: 0 <= i < |attrs| && attrs[i].name == name
  }

  /** `hasattr(module, name) and callable(getattr(module, name))`. */
  predicate CallableNamed(attrs: seq<Attribute>, name: string) {
    exists i :: 0 <= i < |attrs| && attrs[i].name == name && attrs[i].isCallable
  }

  /** The first of `names` that is a callable attribute. */
  function FirstCallable(attrs: seq<Attribute>, names: seq<string>): (r: Option<string>)
    ensures r.Some? ==> r.value in names && CallableNamed(attrs, r.value)
    decreases |names|
  {
    if |names| == 0 then None
    else if CallableNamed(attrs, names[0]) then Some(names[0])
    else FirstCallable(attrs, names[1..])
  }

  /** The public callables of the module: callable and not starting with `_`. */
  function PublicCallables(attrs: seq<Attribute>): (r: seq<string>)
    ensures |r| <= |attrs|
    ensures forall i :: 0 <= i < |r| ==> !StartsWith(r[i], "_") && CallableNamed(attrs, r[i])
    decreases |attrs|
  {
    if |attrs| == 0 then []
    else
      var rest := PublicCallables(attrs[1..]);
      forall i | 0 <= i < |rest| ensures CallableNamed(attrs, rest[i]) {
        var j :| 0 <= j < |attrs[1..]| && attrs[1..][j].name == rest[i] && attrs[1..][j].isCallable;
        assert attrs[j + 1] == attrs[1..][j];
      }
      (if attrs[0].isCallable && !StartsWith(attrs[0].name, "_") then [attrs[0].name] else []) + rest
  }

  /**
   * `load_strategy_from_file`, naming the attribute it returns: a missing
   * file and a file that cannot be imported raise; an explicit name must be
   * an attribute; otherwise the first callable common name wins, then a
   * unique public callable, and zero or several of those raise.
   */
  function LoadStrategy(f: StrategyFile, functionName: Option<string>): (r: Result<string, PyError>)
    ensures !f.present ==> r == Err(FileNotFoundError)
    ensures f.present && !f.importable ==> r == Err(ImportError)
    ensures f.present && f.importable && functionName.Some? && functionName.value != "" ==>
              (r.Ok? <==> HasAttribute(f.attributes, functionName.value))
              && (r.Ok? ==> r.value == functionName.value) && (r.Err? ==> r.error == AttributeError)
    ensures (functionName.None? || functionName.value == "") && r.Ok? ==> CallableNamed(f.attributes, r.value)
    ensures r.Err? ==> r.error in {FileNotFoundError, ImportError, AttributeError, ValueError}
  {
    if !f.present then Err(FileNotFoundError)
    else if !f.importable then Err(ImportError)
    else if functionName.Some? && functionName.value != "" then
      if HasAttribute(f.attributes, functionName.value) then Ok(functionName.value) else Err(AttributeError)
    else
      match FirstCallable(f.attributes, CommonNames)
      case Some(name) => Ok(name)
      case None =>
        var functions := PublicCallables(f.attributes);
        if |functions| == 1 then Ok(functions[0])
        else Err(ValueError)
  }

  /** The loop of `load_strategy_from_file` over the common names. */
  method LoadStrategyFromFile(f: StrategyFile, functionName: Option<string>) returns (r: Result<string, PyError>)
    ensures r == LoadStrategy(f, functionName)
  {
    if !f.present {
      return Err(FileNotFoundError);
    }
    if !f.importable {
      return Err(ImportError);
    }
    if functionName.Some? && functionName.value != "" {
      if !HasAttribute(f.attributes, functionName.value) {
        return Err(AttributeError);
      }
      return Ok(functionName.value);
    }
    for i := 0 to |CommonNames|
      invariant FirstCallable(f.attributes, CommonNames) == FirstCallable(f.attributes, CommonNames[i..])
    {
      if CallableNamed(f.attributes, CommonNames[i]) {
        return Ok(CommonNames[i]);
      }
      assert CommonNames[i..][1..] == CommonNames[i + 1..];
    }
    var functions := PublicCallables(f.attributes);
    if |functions| == 0 {
      return Err(ValueError);
    }
    if |functions| == 1 {
      return Ok(functions[0]);
    }
    return Err(ValueError);
  }

  /** The first name that is a callable attribute is the one chosen. */
  lemma {:induction false} FirstCallableIsFirst(attrs: seq<Attribute>, names: seq<string>, i: nat)
    requires i < |names| && CallableNamed(attrs, names[i])
    requires forall j :: 0 <= j < i ==> !CallableNamed(attrs, names[j])
    ensures FirstCallable(attrs, names) == Some(names[i])
    decreases i
  {
    if i > 0 {
      FirstCallableIsFirst(attrs, names[1..], i - 1);
    }
  }

  /** With no callable among the names, none is chosen. */
  lemma {:induction false} NoFirstCallable(attrs: seq<Attribute>, names: seq<string>)
    requires forall j :: 0 <= j < |names| ==> !CallableNamed(attrs, names[j])
    ensures FirstCallable(attrs, names) == None
    decreases |names|
  {
    if |names| > 0 {
      NoFirstCallable(attrs, names[1..]);
    }
  }

  /** Without a function name, the earliest callable common name is loaded, whatever else the module holds. */
  lemma LoadPriority(f: StrategyFile, i: nat)
    requires f.present && f.importable && i < |CommonNames|
    requires CallableNamed(f.attributes, CommonNames[i])
    requires forall j :: 0 <= j < i ==> !CallableNamed(f.attributes, CommonNames[j])
    ensures LoadStrategy(f, None) == Ok(CommonNames[i])
  {
    FirstCallableIsFirst(f.attributes, CommonNames, i);
  }

  /** Without a function name or a common name, loading succeeds exactly when one public callable exists, and loads it. */
  lemma LoadUniquePublic(f: StrategyFile)
    requires f.present && f.importable
    requires forall j :: 0 <= j < |CommonNames| ==> !CallableNamed(f.attributes, CommonNames[j])
    ensures LoadStrategy(f, None).Ok? <==> |PublicCallables(f.attributes)| == 1
    ensures LoadStrategy(f, None).Ok? ==> LoadStrategy(f, None).value == PublicCallables(f.attributes)[0]
    ensures LoadStrategy(f, None).Err? ==> LoadStrategy(f, None).error == ValueError
  {
    NoFirstCallable(f.attributes, CommonNames);
  }

  /** The strategies `--builtin` accepts. */
  datatype Builtin = NoAction | Simple | Reactive | MultiAgent

  /** The names of the built-in strategies, in registry order. */
  const BuiltinNames := ["none", "simple", "reactive", "multi_agent"]

  /** `get_builtin_strategy`: one of the four names, or `ValueError`. */
  function GetBuiltinStrategy(name: string): (r: Result<Builtin, PyError>)
    ensures r.Ok? <==> name in BuiltinNames
    ensures r.Err? ==> r.error == ValueError
    ensures r.Ok? ==> BuiltinNames[BuiltinIndex(r.value)] == name
  {
    if name == "none" then Ok(NoAction)
    else if name == "simple" then Ok(Simple)
    else if name == "reactive" then Ok(Reactive)
    else if name == "multi_agent" then Ok(MultiAgent)
    else Err(ValueError)
  }

  /** The position of a built-in strategy in the registry. */
  function BuiltinIndex(b: Builtin): (i: nat)
    ensures i < |BuiltinNames|
  {
    match b
    case NoAction => 0
    case Simple => 1
    case Reactive => 2
    case MultiAgent => 3
  }

  /** Every registered name loads the strategy registered under it. */
  lemma BuiltinRoundTrip(b: Builtin)
    ensures GetBuiltinStrategy(BuiltinNames[BuiltinIndex(b)]) == Ok(b)
  {
  }

  /** The inner `reactive_strategy`, with a generated `reactive_` command id. */
  function ReactiveStrategy(topic: string, message: Object): (o: Outcome)
    ensures Contains(topic, "orders") ==> Issues(o, "move", JStr("AGV_1"), MoveTo("P0"))
    ensures o.Issue? ==> o.cmd.id == Some(Generated("reactive_"))
    ensures o.Issue? && !Contains(topic, "orders") ==> Contains(topic, "agv") && Contains(topic, "status")
    ensures o.Raised? ==> o.error == TypeError
    ensures !Contains(topic, "orders") && Contains(topic, "agv") && Contains(topic, "status")
            && Field(message, "status", JStr("")) == JStr("IDLE") && Field(message, "current_point", JStr("")) == JStr("P0")
            ==> Issues(o, "load", Field(message, "agv_id", JStr("AGV_1")), [])
  {
    if Contains(topic, "orders") then Issue(Cmd("reactive_", "move", JStr("AGV_1"), MoveTo("P0")))
    else if Contains(topic, "agv") && Contains(topic, "status") then
      var agv := Field(message, "agv_id", JStr("AGV_1"));
      if Field(message, "status", JStr("")) == JStr("IDLE") && Field(message, "current_point", JStr("")) == JStr("P0") then
        Issue(Cmd("reactive_", "load", agv, []))
      else
        match Less(Field(message, "battery_level", JNum(100.0)), 30.0)
        case Err(e) => Raised(e)
        case Ok(low) => if low then Issue(Cmd("reactive_", "charge", agv, ChargeTo(80.0))) else NoCommand
    else NoCommand
  }

  /** An AGV that is not idle at P0 is sent to charge to 80.0 exactly when its battery is below 30. */
  lemma ReactiveCharges(topic: string, message: Object, battery: real)
    requires !Contains(topic, "orders") && Contains(topic, "agv") && Contains(topic, "status")
    requires !(Field(message, "status", JStr("")) == JStr("IDLE") && Field(message, "current_point", JStr("")) == JStr("P0"))
    requires Field(message, "battery_level", JNum(100.0)) == JNum(battery)
    ensures Issues(ReactiveStrategy(topic, message), "charge", Field(message, "agv_id", JStr("AGV_1")), ChargeTo(80.0))
            <==> battery < 30.0
    ensures battery >= 30.0 ==> ReactiveStrategy(topic, message) == NoCommand
  {
  }

  /** The built-in strategies; the multi-agent one leaves every decision to the agents and returns `None`. */
  function RunBuiltin(b: Builtin, topic: string, message: Object): (o: Outcome)
    ensures b == NoAction || b == MultiAgent ==> o == NoCommand
    ensures b == Simple ==> (o.Issue? <==> Contains(topic, "orders"))
    ensures b == Simple && o.Issue? ==> o.cmd == Cmd("simple_", "move", JStr("AGV_1"), MoveTo("P0"))
    ensures b == Reactive ==> o == ReactiveStrategy(topic, message)
  {
    match b
    case NoAction => NoCommand
    case Simple => if Contains(topic, "orders") then Issue(Cmd("simple_", "move", JStr("AGV_1"), MoveTo("P0"))) else NoCommand
    case Reactive => ReactiveStrategy(topic, message)
    case MultiAgent => NoCommand
  }

  /** `create_logged_strategy`: the wrapped result passes through unchanged and an exception becomes `None`. */
  function Logged(o: Outcome): (r: Outcome)
    ensures !r.Raised?
    ensures o.Raised? ==> r == NoCommand
    ensures !o.Raised? ==> r == o
  {
    if o.Raised? then NoCommand else o
  }

  /** Wrapping twice is wrapping once. */
  lemma LoggedIdempotent(o: Outcome)
    ensures Logged(Logged(o)) == Logged(o)
  {
  }

  /** The keyword arguments `main` passes to every evaluation: the two flags, and the topic root when one is given. */
  function MainKwargs(topicRoot: Option<string>): (r: seq<string>)
    ensures "no_mqtt" in r && "no_faults" in r
    ensures "root_topic" in r <==> topicRoot.Some? && topicRoot.value != ""
  {
    ["no_mqtt", "no_faults"] + (if topicRoot.Some? && topicRoot.value != "" then ["root_topic"] else [])
  }

  /**
   * `quick_eval` as written: it takes only the strategy and the time, so any
   * keyword argument raises `TypeError` before a run starts. `score` is what
   * the run would reach.
   */
  function QuickEvalAsWritten(kwargs: seq<string>, score: real): (r: Result<real, PyError>)
    ensures r.Ok? <==> kwargs == []
    ensures r.Ok? ==> r.value == score
    ensures r.Err? ==> r.error == TypeError
  {
    if kwargs == [] then Ok(score) else Err(TypeError)
  }

  /** The evaluation options `eval_strategy` takes as keywords. */
  const EvalOptions := ["no_mqtt", "no_faults", "root_topic"]

  /** `quick_eval` forwarding the evaluation options to the run: only an unknown keyword raises. */
  function QuickEval(kwargs: seq<string>, score: real): (r: Result<real, PyError>)
    ensures r.Ok? <==> forall k :: k in kwargs ==> k in EvalOptions
    ensures r.Ok? ==> r.value == score
  {
    if forall k :: k in kwargs ==> k in EvalOptions then Ok(score) else Err(TypeError)
  }

  /** Whatever `main` passes, the corrected evaluation reports the run's score. */
  lemma MainOptionsAccepted(topicRoot: Option<string>, score: real)
    ensures QuickEval(MainKwargs(topicRoot), score) == Ok(score)
  {
    var kwargs := MainKwargs(topicRoot);
    forall k | k in kwargs ensures k in EvalOptions {
      assert kwargs[..2] == ["no_mqtt", "no_faults"];
    }
  }

  /** The outcome of each evaluation, in the order the strategies are listed. */
  function Evaluations(kwargs: seq<string>, scores: seq<real>, asWritten: bool): (r: seq<Result<real, PyError>>)
    ensures |r| == |scores|
    ensures forall i :: 0 <= i < |r| ==> r[i] == (if asWritten then QuickEvalAsWritten(kwargs, scores[i]) else QuickEval(kwargs, scores[i]))
  {
    seq(|scores|, i requires 0 <= i < |scores| =>
      if asWritten then QuickEvalAsWritten(kwargs, scores[i]) else QuickEval(kwargs, scores[i]))
  }

  /** The `(name, score)` pairs `compare_strategies` collects: a failed evaluation counts as 0.0. */
  function Recorded(names: seq<string>, results: seq<Result<real, PyError>>): (r: seq<(string, real)>)
    requires |results| == |names|
    ensures |r| == |names|
    ensures forall i :: 0 <= i < |r| ==> r[i].0 == names[i]
    ensures forall i :: 0 <= i < |r| ==> r[i].1 == (if results[i].Ok? then results[i].value else 0.0)
  {
    seq(|names|, i requires 0 <= i < |names| => (names[i], if results[i].Ok? then results[i].value else 0.0))
  }

  /** Scores never increase from one position to the next. */
  predicate Descending(s: seq<(string, real)>) {
    forall i, j :: 0 <= i < j < |s| ==> s[i].1 >= s[j].1
  }

  /** Places `x` after every entry scoring at least as much. */
  function Insert(x: (string, real), s: seq<(string, real)>): (r: seq<(string, real)>)
    ensures multiset(r) == multiset(s) + multiset{x}
    decreases |s|
  {
    if |s| == 0 then [x]
    else if s[0].1 >= x.1 then
      assert s == [s[0]] + s[1..];
      [s[0]] + Insert(x, s[1..])
    else [x] + s
  }

  /** No entry scores more than `v`. */
  predicate AtMost(s: seq<(string, real)>, v: real) {
    forall k :: 0 <= k < |s| ==> s[k].1 <= v
  }

  lemma {:induction false} InsertAtMost(x: (string, real), s: seq<(string, real)>, v: real)
    requires AtMost(s, v) && x.1 <= v
    ensures AtMost(Insert(x, s), v)
    decreases |s|
  {
    if |s| > 0 && s[0].1 >= x.1 {
      InsertAtMost(x, s[1..], v);
    }
  }

  /** Inserting keeps the scores in descending order. */
  lemma {:induction false} InsertDescending(x: (string, real), s: seq<(string, real)>)
    requires Descending(s)
    ensures Descending(Insert(x, s))
    decreases |s|
  {
    if |s| > 0 && s[0].1 >= x.1 {
      InsertDescending(x, s[1..]);
      InsertAtMost(x, s[1..], s[0].1);
    }
  }

  /** `results.sort(key=score, reverse=True)`: highest score first, ties in their listed order. */
  function SortDescending(s: seq<(string, real)>): (r: seq<(string, real)>)
    ensures multiset(r) == multiset(s)
    ensures Descending(r)
    decreases |s|
  {
    if |s| == 0 then []
    else
      assert s == s[..|s| - 1] + [s[|s| - 1]];
      InsertDescending(s[|s| - 1], SortDescending(s[..|s| - 1]));
      Insert(s[|s| - 1], SortDescending(s[..|s| - 1]))
  }

  /** The ranking `compare_strategies` prints. */
  function Ranking(names: seq<string>, results: seq<Result<real, PyError>>): (r: seq<(string, real)>)
    requires |results| == |names|
    ensures Descending(r)
    ensures multiset(r) == multiset(Recorded(names, results))
  {
    SortDescending(Recorded(names, results))
  }

  /**
   * `compare_strategies`: each listed strategy is evaluated in turn, a failure
   * is recorded as 0.0, and the pairs are sorted by score, highest first.
   */
  method CompareStrategies(names: seq<string>, scores: seq<real>, kwargs: seq<string>) returns (ranking: seq<(string, real)>)
    requires |scores| == |names|
    ensures ranking == Ranking(names, Evaluations(kwargs, scores, false))
    ensures Descending(ranking)
    ensures multiset(ranking) == multiset(Recorded(names, Evaluations(kwargs, scores, false)))
  {
    var results: seq<(string, real)> := [];
    for i := 0 to |names|
      invariant results == Recorded(names[..i], Evaluations(kwargs, scores[..i], false))
    {
      var score := QuickEval(kwargs, scores[i]);
      if score.Ok? {
        results := results + [(names[i], score.value)];
      } else {
        results := results + [(names[i], 0.0)];
      }
    }
    assert names[..|names|] == names && scores[..|scores|] == scores;
    ranking := SortDescending(results);
  }

  /** Each strategy keeps its own score in the ranking. */
  lemma RankingKeepsScores(names: seq<string>, scores: seq<real>, topicRoot: Option<string>)
    requires |scores| == |names|
    ensures var ranking := Ranking(names, Evaluations(MainKwargs(topicRoot), scores, false));
            multiset(ranking) == multiset(seq(|names|, i requires 0 <= i < |names| => (names[i], scores[i])))
            && Descending(ranking)
  {
    MainOptionsAccepted(topicRoot, 0.0);
    var recorded := Recorded(names, Evaluations(MainKwargs(topicRoot), scores, false));
    forall i | 0 <= i < |names| ensures recorded[i] == (names[i], scores[i]) {
      MainOptionsAccepted(topicRoot, scores[i]);
    }
    assert recorded == seq(|names|, i requires 0 <= i < |names| => (names[i], scores[i]));
  }

  /** As written, with the options `main` passes, every compared strategy is ranked with 0.0, whatever its run would score. */
  lemma ComparedAsWrittenScoresZero(names: seq<string>, scores: seq<real>, topicRoot: Option<string>)
    requires |scores| == |names|
    ensures var ranking := Ranking(names, Evaluations(MainKwargs(topicRoot), scores, true));
            |ranking| == |names| && forall i :: 0 <= i < |ranking| ==> ranking[i].1 == 0.0
  {
    var recorded := Recorded(names, Evaluations(MainKwargs(topicRoot), scores, true));
    var ranking := SortDescending(recorded);
    assert |ranking| == |multiset(ranking)| == |multiset(recorded)| == |recorded|;
    forall i | 0 <= i < |ranking| ensures ranking[i].1 == 0.0 {
      assert ranking[i] in multiset(recorded);
      var m :| 0 <= m < |recorded| && recorded[m] == ranking[i];
    }
  }
}
