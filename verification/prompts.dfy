/**
 * The prompt helpers: the role table, `str.format` on a template, and the
 * customisation and placeholder check applied to prompts.
 */
module Prompts {
  import opened Wrappers
  import opened Text
  import opened Dicts
  import opened JsonValues

  /**
   * The templates, cut down to their opening sentence and, where the full
   * text has them, their first brace-delimited fragment; the rest of each
   * text is plain prose that `format` copies unchanged. The texts are built
   * from short pieces so that facts about their characters stay cheap.
   */
  function SimpleAgentIntro(): string { "You are an AI agent " + "controlling a factory " + "with the goal of " + "maximizing KPI scores.\n\n" }
  function CommandIdName(): string { "\n  \"command_id\"" }
  function CommandIdSpec(): string { " \"str (optional)\"\n" }
  function SimpleAgentTemplate(): string { SimpleAgentIntro() + ("{" + CommandIdName() + ":" + CommandIdSpec() + "}" + "\n") }
  function SupervisorTemplate(): string { "You are a " + "Supervisor Agent " + "controlling a " + "smart factory " + "with multiple " + "production lines." }
  function LineCommanderPrefix(): string { "You are a " + "Line Commander " + "Agent controlling " + "production line " }
  function LineCommanderSuffix(): string { " in a smart factory." }
  function LineCommanderTemplate(): string { LineCommanderPrefix() + ("{" + "line_id" + "}" + LineCommanderSuffix()) }
  function QualityInspectorTemplate(): string { "You are a " + "Quality Inspector " + "Agent responsible " + "for monitoring " + "and optimizing " + "quality control " + "processes." }
  function MaintenanceCoordinatorTemplate(): string { "You are a " + "Maintenance " + "Coordinator Agent " + "responsible for " + "predictive " + "maintenance and " + "equipment " + "optimization." }
  function EnergyManagerTemplate(): string { "You are an " + "Energy Manager " + "Agent responsible " + "for optimizing " + "factory energy " + "consumption and " + "sustainability." }

  /** The agent roles that have a prompt. */
  datatype Role = SimpleAgent | Supervisor | LineCommander | QualityInspector | MaintenanceCoordinator | EnergyManager

  /** The keys of `prompts_map` in `get_prompt_by_role`. */
  function RoleOf(name: string): Option<Role> {
    if name == "simple_agent" then Some(SimpleAgent)
    else if name == "supervisor" then Some(Supervisor)
    else if name == "line_commander" then Some(LineCommander)
    else if name == "quality_inspector" then Some(QualityInspector)
    else if name == "maintenance_coordinator" then Some(MaintenanceCoordinator)
    else if name == "energy_manager" then Some(EnergyManager)
    else None
  }

  /** The values of `prompts_map`. */
  function Template(role: Role): string {
    match role
    case SimpleAgent => SimpleAgentTemplate()
    case Supervisor => SupervisorTemplate()
    case LineCommander => LineCommanderTemplate()
    case QualityInspector => QualityInspectorTemplate()
    case MaintenanceCoordinator => MaintenanceCoordinatorTemplate()
    case EnergyManager => EnergyManagerTemplate()
  }

  /** `list_available_roles`, a list written out separately from the map. */
  function ListAvailableRoles(): seq<string> {
    ["simple_agent", "supervisor", "line_commander", "quality_inspector", "maintenance_coordinator", "energy_manager"]
  }

  predicate BraceFree(s: string) {
    '{' !in s && '}' !in s
  }

  lemma BraceFreeConcat(a: string, b: string)
    requires BraceFree(a) && BraceFree(b)
    ensures BraceFree(a + b)
  {
    assert forall c :: c in a + b ==> c in a || c in b;
  }

  /** Text that can stand as a field name: no brace and no `:` or `!`. */
  predicate NameChars(s: string) {
    BraceFree(s) && ':' !in s && '!' !in s
  }

  /** `v` in front of a successful result. */
  function Prepend(v: string, r: Result<string, PyError>): Result<string, PyError> {
    if r.Ok? then Ok(v + r.value) else r
  }

  /** The first `}`, `:` or `!`: where a replacement field's name ends. */
  function NameEnd(s: string): (r: Option<nat>)
    ensures r.Some? ==> r.value < |s| && s[r.value] in "}:!"
    ensures r.Some? ==> forall i :: 0 <= i < r.value ==> s[i] !in "}:!"
    ensures r.None? ==> forall i :: 0 <= i < |s| ==> s[i] !in "}:!"
  {
    if |s| == 0 then None
    else if s[0] in "}:!" then Some(0)
    else match NameEnd(s[1..])
      case None => None
      case Some(i) => Some(i + 1)
  }

  /**
   * The replacement field at the start of `s`, which follows a single `{`:
   * the value it stands for and how many characters it takes up, its
   * closing `}` included. An empty or numeric name asks for a positional
   * argument, of which there are none; an unbound name raises `KeyError`;
   * a `{` inside the name or a field that is not closed raises `ValueError`.
   * A format specification after `:` or a conversion after `!` is skipped.
   */
  function ReplacementField(s: string, kwargs: Dict<string>): (r: Result<(string, nat), PyError>)
    ensures r.Ok? ==> 0 < r.value.1 <= |s|
  {
    match NameEnd(s)
    case None => Err(ValueError)
    case Some(j) =>
      var name := s[..j];
      if '{' in name then Err(ValueError)
      else if name == "" || IsDigits(name) then Err(IndexError)
      else if !HasKey(kwargs, name) then Err(KeyError)
      else if s[j] == '}' then Ok((Get(kwargs, name).value, j + 1))
      else
        match FindChar(s[j + 1..], '}')
        case None => Err(ValueError)
        case Some(k) => Ok((Get(kwargs, name).value, j + 1 + k + 1))
  }

  /**
   * `template.format(**kwargs)`: `{{` and `}}` stand for single braces, a
   * replacement field for its value, and a stray `}` raises `ValueError`.
   */
  function Format(t: string, kwargs: Dict<string>): (r: Result<string, PyError>)
    ensures BraceFree(t) ==> r == Ok(t)
    decreases |t|
  {
    if |t| == 0 then Ok("")
    else if t[0] == '{' then
      if |t| >= 2 && t[1] == '{' then Prepend("{", Format(t[2..], kwargs))
      else
        match ReplacementField(t[1..], kwargs)
        case Err(e) => Err(e)
        case Ok((v, n)) => Prepend(v, Format(t[1 + n..], kwargs))
    else if t[0] == '}' then
      if |t| >= 2 && t[1] == '}' then Prepend("}", Format(t[2..], kwargs)) else Err(ValueError)
    else
      assert BraceFree(t) ==> BraceFree(t[1..]) && t == [t[0]] + t[1..];
      Prepend([t[0]], Format(t[1..], kwargs))
  }

  /** Text without braces is copied through `format`. */
  lemma {:induction false} FormatPlainPrefix(a: string, rest: string, kwargs: Dict<string>)
    requires BraceFree(a)
    ensures Format(a + rest, kwargs) == Prepend(a, Format(rest, kwargs))
    decreases |a|
  {
    if |a| > 0 {
      var t := a + rest;
      assert t[0] == a[0] && t[1..] == a[1..] + rest;
      assert t[0] != '{' && t[0] != '}';
      FormatPlainPrefix(a[1..], rest, kwargs);
      var f := Format(rest, kwargs);
      assert Format(t, kwargs) == Prepend([a[0]], Prepend(a[1..], f));
      if f.Ok? {
        ConsAppend(a, f.value);
      }
    } else {
      assert a + rest == rest;
      var f := Format(rest, kwargs);
      if f.Ok? {
        assert a + f.value == f.value;
      }
    }
  }

  /** A field name ends at the first `}`, `:` or `!`. */
  lemma {:induction false} NameEndAt(name: string, c: char, rest: string)
    requires NameChars(name) && c in "}:!"
    ensures NameEnd(name + [c] + rest) == Some(|name|)
    decreases |name|
  {
    var s := name + [c] + rest;
    if |name| > 0 {
      assert s[0] == name[0] && s[1..] == name[1..] + [c] + rest;
      assert NameChars(name[1..]) by {
        assert forall x :: x in name[1..] ==> x in name;
      }
      NameEndAt(name[1..], c, rest);
    } else {
      assert s[0] == c;
    }
  }

  /** A named field is replaced by its value, which is not itself formatted. */
  lemma FormatField(name: string, rest: string, kwargs: Dict<string>)
    requires name != "" && !IsDigits(name) && HasKey(kwargs, name) && NameChars(name)
    ensures Format("{" + name + "}" + rest, kwargs) == Prepend(Get(kwargs, name).value, Format(rest, kwargs))
  {
    var t := "{" + name + "}" + rest;
    assert t[1..] == name + ['}'] + rest;
    NameEndAt(name, '}', rest);
    assert t[1..][..|name|] == name;
    assert ReplacementField(t[1..], kwargs) == Ok((Get(kwargs, name).value, |name| + 1));
    assert t[1 + |name| + 1..] == rest;
  }

  /** A field with a format specification looks its name up first: an unbound name raises `KeyError`. */
  lemma FormatUnboundField(name: string, spec: string, rest: string, kwargs: Dict<string>)
    requires name != "" && !IsDigits(name) && !HasKey(kwargs, name) && NameChars(name)
    ensures Format("{" + name + ":" + spec + "}" + rest, kwargs) == Err(KeyError)
  {
    var t := "{" + name + ":" + spec + "}" + rest;
    assert t[1..] == name + [':'] + (spec + "}" + rest);
    NameEndAt(name, ':', spec + "}" + rest);
    assert t[1..][..|name|] == name;
    assert ReplacementField(t[1..], kwargs) == Err(KeyError);
  }

  lemma LineCommanderHeadPlain()
    ensures BraceFree("You are a " + "Line Commander ")
  {
    BraceFreeConcat("You are a ", "Line Commander ");
  }

  lemma LineCommanderTailPlain()
    ensures BraceFree("Agent controlling " + "production line ")
  {
    BraceFreeConcat("Agent controlling ", "production line ");
  }

  lemma LineCommanderPlain()
    ensures BraceFree(LineCommanderPrefix()) && BraceFree(LineCommanderSuffix())
  {
    LineCommanderHeadPlain();
    LineCommanderTailPlain();
    BraceFreeConcat("You are a " + "Line Commander ", "Agent controlling " + "production line ");
    assert LineCommanderPrefix() == ("You are a " + "Line Commander ") + ("Agent controlling " + "production line ");
  }

  /** A template with one bound field between plain texts formats to the value between them. */
  lemma FormatOneField(prefix: string, name: string, suffix: string, kwargs: Dict<string>)
    requires BraceFree(prefix) && BraceFree(suffix)
    requires name != "" && !IsDigits(name) && HasKey(kwargs, name) && NameChars(name)
    ensures Format(prefix + ("{" + name + "}" + suffix), kwargs) == Ok(prefix + Get(kwargs, name).value + suffix)
  {
    var field := "{" + name + "}" + suffix;
    var v := Get(kwargs, name).value;
    FormatPlainPrefix(prefix, field, kwargs);
    FormatField(name, suffix, kwargs);
    assert Format(suffix, kwargs) == Ok(suffix);
    assert Format(field, kwargs) == Ok(v + suffix);
    assert prefix + (v + suffix) == prefix + v + suffix;
  }

  /** An unbound field after plain text makes the whole template raise `KeyError`. */
  lemma FormatUnboundAfterPlain(prefix: string, name: string, spec: string, rest: string, kwargs: Dict<string>)
    requires BraceFree(prefix)
    requires name != "" && !IsDigits(name) && !HasKey(kwargs, name) && NameChars(name)
    ensures Format(prefix + ("{" + name + ":" + spec + "}" + rest), kwargs) == Err(KeyError)
  {
    FormatPlainPrefix(prefix, "{" + name + ":" + spec + "}" + rest, kwargs);
    FormatUnboundField(name, spec, rest, kwargs);
  }

  /** `get_line_commander_prompt`: the line id is put in place of `{line_id}`, verbatim. */
  function GetLineCommanderPrompt(lineId: string): (r: Result<string, PyError>)
    ensures r == Ok(LineCommanderPrefix() + lineId + LineCommanderSuffix())
  {
    var kwargs := [("line_id", lineId)];
    Singleton("line_id", lineId);
    LineCommanderPlain();
    assert NameChars("line_id") && !IsDigit("line_id"[0]);
    FormatOneField(LineCommanderPrefix(), "line_id", LineCommanderSuffix(), kwargs);
    Format(LineCommanderTemplate(), kwargs)
  }

  /**
   * `get_prompt_by_role`: the role is looked up in lower case; an unknown
   * role raises `ValueError`. Keyword arguments, when there are any, are
   * formatted into the template; otherwise it is returned as it is.
   */
  function GetPromptByRole(role: string, kwargs: Dict<string>): (r: Result<string, PyError>)
    ensures match RoleOf(Lower(role))
            case None => r == Err(ValueError)
            case Some(known) => r == if |kwargs| > 0 then Format(Template(known), kwargs) else Ok(Template(known))
  {
    match RoleOf(Lower(role))
    case None => Err(ValueError)
    case Some(known) =>
      var prompt := Template(known);
      if |kwargs| > 0 then Format(prompt, kwargs) else Ok(prompt)
  }

  /** Every listed role has a template. */
  lemma ListedRolesKnown(i: nat)
    requires i < |ListAvailableRoles()|
    ensures RoleOf(ListAvailableRoles()[i]).Some?
  {
    var listed := ListAvailableRoles();
    if i == 0 { assert listed[i] == "simple_agent"; }
    else if i == 1 { assert listed[i] == "supervisor"; }
    else if i == 2 { assert listed[i] == "line_commander"; }
    else if i == 3 { assert listed[i] == "quality_inspector"; }
    else if i == 4 { assert listed[i] == "maintenance_coordinator"; }
    else { assert listed[i] == "energy_manager"; }
  }

  /** Every role with a template is listed. */
  lemma KnownRolesListed(role: string)
    requires RoleOf(role).Some?
    ensures role in ListAvailableRoles()
  {
    var listed := ListAvailableRoles();
    if role == "simple_agent" { assert listed[0] == role; }
    else if role == "supervisor" { assert listed[1] == role; }
    else if role == "line_commander" { assert listed[2] == role; }
    else if role == "quality_inspector" { assert listed[3] == role; }
    else if role == "maintenance_coordinator" { assert listed[4] == role; }
    else { assert listed[5] == role; }
  }

  /** The listed roles are exactly those the lookup accepts, in any letter case. */
  lemma RolesListed(role: string)
    ensures GetPromptByRole(role, []).Ok? <==> Lower(role) in ListAvailableRoles()
  {
    var x := Lower(role);
    if x in ListAvailableRoles() {
      var i :| 0 <= i < |ListAvailableRoles()| && ListAvailableRoles()[i] == x;
      ListedRolesKnown(i);
    } else if RoleOf(x).Some? {
      KnownRolesListed(x);
    }
  }

  lemma SimpleAgentHeadPlain()
    ensures BraceFree("You are an AI agent " + "controlling a factory ")
  {
    BraceFreeConcat("You are an AI agent ", "controlling a factory ");
  }

  lemma SimpleAgentTailPlain()
    ensures BraceFree("with the goal of " + "maximizing KPI scores.\n\n")
  {
    BraceFreeConcat("with the goal of ", "maximizing KPI scores.\n\n");
  }

  lemma SimpleAgentIntroPlain()
    ensures BraceFree(SimpleAgentIntro())
  {
    SimpleAgentHeadPlain();
    SimpleAgentTailPlain();
    BraceFreeConcat("You are an AI agent " + "controlling a factory ", "with the goal of " + "maximizing KPI scores.\n\n");
    assert SimpleAgentIntro() == ("You are an AI agent " + "controlling a factory ") + ("with the goal of " + "maximizing KPI scores.\n\n");
  }

  lemma SimpleAgentLookup()
    ensures RoleOf(Lower("simple_agent")) == Some(SimpleAgent)
  {
    assert Lower("simple_agent") == "simple_agent";
  }

  /** Formatting the single-agent prompt with any keyword arguments raises, at its JSON example. */
  lemma SimpleAgentRejectsKwargs(kwargs: Dict<string>)
    requires |kwargs| > 0 && !HasKey(kwargs, CommandIdName())
    ensures GetPromptByRole("simple_agent", kwargs) == Err(KeyError)
  {
    SimpleAgentLookup();
    assert GetPromptByRole("simple_agent", kwargs) == Format(SimpleAgentTemplate(), kwargs);
    CommandIdUnbound(kwargs);
  }

  lemma CommandIdUnbound(kwargs: Dict<string>)
    requires !HasKey(kwargs, CommandIdName())
    ensures Format(SimpleAgentTemplate(), kwargs) == Err(KeyError)
  {
    SimpleAgentIntroPlain();
    assert NameChars(CommandIdName()) && !IsDigit(CommandIdName()[0]);
    FormatUnboundAfterPlain(SimpleAgentIntro(), CommandIdName(), CommandIdSpec(), "\n", kwargs);
  }

  /** The section a key adds instead of filling a placeholder; empty for other keys. */
  function Section(key: string, value: string): string {
    if key == "additional_instructions" then "\n\nADDITIONAL INSTRUCTIONS:\n" + value
    else if key == "constraints" then "\n\nCONSTRAINTS:\n" + value
    else if key == "examples" then "\n\nEXAMPLES:\n" + value
    else ""
  }

  predicate IsSectionKey(key: string) {
    key == "additional_instructions" || key == "constraints" || key == "examples"
  }

  /** One customisation applied to the prompt. */
  function Customize(prompt: string, key: string, value: string): string {
    if IsSectionKey(key) then prompt + Section(key, value) else ReplaceAll(prompt, "{" + key + "}", value)
  }

  /** The customisations applied in iteration order. */
  function Customized(base: string, customizations: Dict<string>): string
    decreases |customizations|
  {
    if |customizations| == 0 then base
    else
      var last := customizations[|customizations| - 1];
      Customize(Customized(base, customizations[..|customizations| - 1]), last.0, last.1)
  }

  lemma CustomizedStep(base: string, customizations: Dict<string>, i: nat)
    requires i < |customizations|
    ensures Customized(base, customizations[..i + 1])
              == Customize(Customized(base, customizations[..i]), customizations[i].0, customizations[i].1)
  {
    assert customizations[..i + 1][..i] == customizations[..i];
  }

  /** `customize_prompt`. */
  method CustomizePrompt(basePrompt: string, customizations: Dict<string>) returns (prompt: string)
    ensures prompt == Customized(basePrompt, customizations)
  {
    prompt := basePrompt;
    for i := 0 to |customizations|
      invariant prompt == Customized(basePrompt, customizations[..i])
    {
      var key := customizations[i].0;
      var value := customizations[i].1;
      ghost var before := prompt;
      if key == "additional_instructions" {
        prompt := prompt + "\n\nADDITIONAL INSTRUCTIONS:\n" + value;
      } else if key == "constraints" {
        prompt := prompt + "\n\nCONSTRAINTS:\n" + value;
      } else if key == "examples" {
        prompt := prompt + "\n\nEXAMPLES:\n" + value;
      } else {
        prompt := ReplaceAll(prompt, "{" + key + "}", value);
      }
      assert prompt == Customize(before, key, value);
      CustomizedStep(basePrompt, customizations, i);
    }
    assert customizations[..|customizations|] == customizations;
  }

  /** The sections the section keys add, in order. */
  function Sections(customizations: Dict<string>): string
    decreases |customizations|
  {
    if |customizations| == 0 then ""
    else
      var last := customizations[|customizations| - 1];
      Sections(customizations[..|customizations| - 1]) + Section(last.0, last.1)
  }

  /** With section keys only, the prompt is the base followed by the sections in iteration order. */
  lemma {:induction false} SectionsAppended(base: string, customizations: Dict<string>)
    requires forall i :: 0 <= i < |customizations| ==> IsSectionKey(customizations[i].0)
    ensures Customized(base, customizations) == base + Sections(customizations)
    decreases |customizations|
  {
    if |customizations| > 0 {
      var init := customizations[..|customizations| - 1];
      var last := customizations[|customizations| - 1];
      SectionsAppended(base, init);
      var section := Section(last.0, last.1);
      assert Customized(base, customizations) == Customize(base + Sections(init), last.0, last.1);
      assert IsSectionKey(last.0);
      assert Customize(base + Sections(init), last.0, last.1) == base + Sections(init) + section;
      assert Sections(customizations) == Sections(init) + section;
      AppendAssoc(base, Sections(init), section);
    }
  }

  /** A placeholder the prompt does not mention leaves it as it is. */
  lemma UnusedPlaceholder(prompt: string, key: string, value: string)
    requires !IsSectionKey(key) && !Contains(prompt, "{" + key + "}")
    ensures Customize(prompt, key, value) == prompt
  {
    ReplaceAbsent(prompt, "{" + key + "}", value);
  }

  /** A placeholder is filled at its first occurrence, and the search resumes after the value. */
  lemma PlaceholderFilled(prompt: string, key: string, value: string)
    requires !IsSectionKey(key) && Contains(prompt, "{" + key + "}")
    ensures var (before, after) := SplitOnceSub(prompt, "{" + key + "}").value;
            Customize(prompt, key, value) == before + value + ReplaceAll(after, "{" + key + "}", value)
  {
    ReplaceBySplit(prompt, "{" + key + "}", value);
  }

  /** `validate_prompt_variables`. */
  method ValidatePromptVariables(prompt: string, requiredVars: seq<string>) returns (ok: bool)
    ensures ok <==> forall i :: 0 <= i < |requiredVars| ==> Contains(prompt, "{" + requiredVars[i] + "}")
  {
    for i := 0 to |requiredVars|
      invariant forall j :: 0 <= j < i ==> Contains(prompt, "{" + requiredVars[j] + "}")
    {
      if !Contains(prompt, "{" + requiredVars[i] + "}") {
        return false;
      }
    }
    return true;
  }
}
