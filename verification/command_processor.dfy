/**
 * Post-processing of language-model commands: a target written
 * `"lineN/device"` is split into the device and the line number `N`, and a
 * command's basic structure is checked.
 */
module CommandProcessor {
  import opened Wrappers
  import opened Text
  import opened Dicts
  import opened JsonValues

  /**
   * The prefix test shared by both operations: the prefix starts with
   * "line" in any letter case and the rest is a non-empty run of digits.
   */
  predicate IsLinePrefix(prefix: string) {
    StartsWith(Text.Lower(prefix), "line") && IsDigits(prefix[4..])
  }

  /** `target.split("/", 1)` followed by the prefix test: the line number and the device. */
  function SplitLineTarget(target: string): (r: Option<(string, string)>)
    ensures r.None? <==> '/' !in target || !IsLinePrefix(target[..FindChar(target, '/').value])
    ensures r.Some? ==> |r.value.1| < |target|
    ensures r.Some? ==> var prefix := target[..|target| - |r.value.1| - 1];
                        && target == prefix + "/" + r.value.1
                        && '/' !in prefix && IsLinePrefix(prefix) && r.value.0 == prefix[4..]
  {
    match FindChar(target, '/')
    case None => None
    case Some(i) =>
      var prefix := target[..i];
      assert target == prefix + "/" + target[i + 1..];
      if IsLinePrefix(prefix) then Some((prefix[4..], target[i + 1..])) else None
  }

  /** The outcome of `extract_line_and_device`: a line number when there was a prefix, and the device. */
  datatype Extracted = Extracted(line: Option<string>, device: string)

  /**
   * `extract_line_and_device`: `(N, device)` for a valid `"lineN/device"`
   * target, `(None, target)` for every other target, the empty one included.
   */
  function ExtractLineAndDevice(target: string): (r: Extracted)
    ensures r.line.None? <==> SplitLineTarget(target).None?
    ensures r.line.None? ==> r.device == target
    ensures r.line.Some? ==> IsDigits(r.line.value)
    ensures r.line.Some? ==> |r.device| < |target|
    ensures r.line.Some? ==> var prefix := target[..|target| - |r.device| - 1];
                             && target == prefix + "/" + r.device
                             && '/' !in prefix && StartsWith(Text.Lower(prefix), "line")
                             && prefix[4..] == r.line.value
  {
    if |target| == 0 || '/' !in target then Extracted(None, target)
    else
      match SplitLineTarget(target)
      case Some((n, device)) => Extracted(Some(n), device)
      case None => Extracted(None, target)
  }

  /**
   * `process_llm_command`. A missing or falsy target leaves the command as
   * it is; a string target with a valid line prefix gives a copy whose
   * `target` is the device and whose `line_id` is the line number; any other
   * string leaves the command as it is. A truthy target that is not a string
   * makes `"/" in target` or `target.split` raise.
   */
  function ProcessLlmCommand(cmd: Object): (r: Result<Object, PyError>)
    ensures !Truthy(Field(cmd, "target", JNull)) ==> r == Ok(cmd)
    ensures r.Err? ==> Truthy(Field(cmd, "target", JNull)) && !Field(cmd, "target", JNull).JStr?
    ensures Field(cmd, "target", JNull).JStr? ==> r.Ok?
    ensures Field(cmd, "target", JNull).JStr? && SplitLineTarget(Field(cmd, "target", JNull).s).None? ==>
              r == Ok(cmd)
    ensures Field(cmd, "target", JNull).JStr? && SplitLineTarget(Field(cmd, "target", JNull).s).Some? ==>
              var (n, device) := SplitLineTarget(Field(cmd, "target", JNull).s).value;
                  && Get(r.value, "target") == Some(JStr(device))
                  && Get(r.value, "line_id") == Some(JStr(n))
                  && (forall k :: k != "target" && k != "line_id" ==> Get(r.value, k) == Get(cmd, k))
                  && Keys(r.value) == Keys(Put(cmd, "line_id", JStr(n)))
  {
    var target := Field(cmd, "target", JNull);
    if !Truthy(target) then Ok(cmd)
    else
      match target
      case JStr(s) =>
        (match SplitLineTarget(s)
         case Some((n, device)) => Ok(Put(Put(cmd, "target", JStr(device)), "line_id", JStr(n)))
         case None => Ok(cmd))
      case JArr(items) => if JStr("/") in items then Err(AttributeError) else Ok(cmd)
      case JObj(fields) => if HasKey(fields, "/") then Err(AttributeError) else Ok(cmd)
      case _ => Err(TypeError)
  }

  /** Processing keeps every key other than `target` and `line_id` bound as it was. */
  lemma OtherKeyKept(cmd: Object, k: string)
    requires ProcessLlmCommand(cmd).Ok?
    requires k != "target" && k != "line_id"
    ensures Get(ProcessLlmCommand(cmd).value, k) == Get(cmd, k)
  {
  }

  /**
   * `validate_command_structure`: `action` present, then `target` present,
   * then `action` a string, then `target` a string; the first failing check
   * names the error.
   */
  function ValidateCommandStructure(cmd: Object): (r: (bool, string))
    ensures r.0 <==> HasKey(cmd, "action") && HasKey(cmd, "target")
                     && Field(cmd, "action", JNull).JStr? && Field(cmd, "target", JNull).JStr?
    ensures r.0 ==> r.1 == ""
    ensures !HasKey(cmd, "action") ==> r.1 == "Missing required field: action"
    ensures HasKey(cmd, "action") && !HasKey(cmd, "target") ==> r.1 == "Missing required field: target"
    ensures HasKey(cmd, "action") && HasKey(cmd, "target") && !Field(cmd, "action", JNull).JStr? ==>
              r.1 == "Action must be a string"
    ensures HasKey(cmd, "action") && HasKey(cmd, "target") && Field(cmd, "action", JNull).JStr?
            && !Field(cmd, "target", JNull).JStr? ==>
              r.1 == "Target must be a string"
    ensures !r.0 ==> r.1 != ""
  {
    if !HasKey(cmd, "action") then (false, "Missing required field: action")
    else if !HasKey(cmd, "target") then (false, "Missing required field: target")
    else if !Field(cmd, "action", JNull).JStr? then (false, "Action must be a string")
    else if !Field(cmd, "target", JNull).JStr? then (false, "Target must be a string")
    else (true, "")
  }

  /**
   * Both operations use the same prefix test: processing a command with a
   * non-empty string target adds a `line_id` exactly when extraction finds a
   * line, and then the two agree on the line and the device.
   */
  lemma ProcessAgreesWithExtract(cmd: Object)
    requires Field(cmd, "target", JNull).JStr? && Field(cmd, "target", JNull).s != ""
    ensures var s := Field(cmd, "target", JNull).s;
            var e := ExtractLineAndDevice(s);
            && ProcessLlmCommand(cmd).Ok?
            && (ProcessLlmCommand(cmd).value != cmd <==> e.line.Some?)
            && (e.line.Some? ==>
                  && Get(ProcessLlmCommand(cmd).value, "line_id") == Some(JStr(e.line.value))
                  && Get(ProcessLlmCommand(cmd).value, "target") == Some(JStr(e.device)))
  {
    var s := Field(cmd, "target", JNull).s;
    match SplitLineTarget(s)
    case None =>
    case Some((n, device)) =>
      var r := ProcessLlmCommand(cmd).value;
      assert |device| < |s|;
      assert Get(r, "target") != Get(cmd, "target");
  }

  /** A command that passes validation is processed without an exception and still passes. */
  lemma ValidatedStaysValid(cmd: Object)
    requires ValidateCommandStructure(cmd).0
    ensures ProcessLlmCommand(cmd).Ok?
    ensures ValidateCommandStructure(ProcessLlmCommand(cmd).value).0
    ensures Get(ProcessLlmCommand(cmd).value, "action") == Get(cmd, "action")
  {
    var r := ProcessLlmCommand(cmd).value;
    assert HasKey(r, "action") by {
      assert Get(r, "action") == Get(cmd, "action");
    }
  }

  /** The first slash of `prefix + "/" + rest` is the one after `prefix` when `prefix` has none. */
  lemma FirstSlash(prefix: string, rest: string)
    requires '/' !in prefix
    ensures FindChar(prefix + "/" + rest, '/') == Some(|prefix|)
  {
    var s := prefix + "/" + rest;
    var r := FindChar(s, '/');
    if r.value >= |prefix| {
      assert s[|prefix|] == '/';
    }
  }

  /**
   * Any letter case of "line" followed by digits, a slash and a device
   * (`"line3/AGV_1"`, `"line0/AGV_1"`, `"line10/Station_A"`, `"LINE2/a/b"`)
   * gives exactly those digits and that device, later slashes included.
   */
  lemma ExtractValidPrefix(word: string, n: string, device: string)
    requires Text.Lower(word) == "line" && IsDigits(n)
    ensures ExtractLineAndDevice(word + n + "/" + device) == Extracted(Some(n), device)
  {
    var prefix := word + n;
    assert '/' !in prefix by {
      if '/' in prefix {
        var i :| 0 <= i < |prefix| && prefix[i] == '/';
      }
    }
    FirstSlash(prefix, device);
    assert (prefix + "/" + device)[..|prefix|] == prefix;
    assert (prefix + "/" + device)[|prefix| + 1..] == device;
    assert Text.Lower(prefix)[..4] == Text.Lower(word);
    assert prefix[4..] == n;
  }

  /**
   * A first segment that fails the prefix test (`"invalid/AGV_1"`,
   * `"lineABC/AGV_1"`) leaves the whole target as the device, with no line.
   */
  lemma ExtractInvalidPrefix(prefix: string, rest: string)
    requires '/' !in prefix && !IsLinePrefix(prefix)
    ensures ExtractLineAndDevice(prefix + "/" + rest) == Extracted(None, prefix + "/" + rest)
  {
    FirstSlash(prefix, rest);
    assert (prefix + "/" + rest)[..|prefix|] == prefix;
  }

  /** "lineABC" and "invalid" fail the prefix test and "line" followed by digits passes it. */
  lemma PrefixExamples()
    ensures !IsLinePrefix("lineABC") && !IsLinePrefix("invalid")
    ensures Text.Lower("line") == "line" && Text.Lower("LINE") == "line"
  {
    assert "lineABC"[4..][0] == 'A';
    assert Text.Lower("invalid")[1] == 'n';
  }
}
