/** The rule set read from the `.anygen` configuration file, rule selection by
    file extension, and the properties the generator reads from a rule. */
module Rules {
  import opened Wrappers
  import opened Text

  /** A property of a rule: its text, or a value that `AsString` rejects (the
      property-sheet library then throws `EndUserPropertyException`). */
  datatype PropertyValue = Value(text: string) | Invalid(message: string)

  datatype Rule = Rule(ruleClass: string, properties: map<string, PropertyValue>)

  /** The outcome of loading a property sheet: its rules in document order, or the
      parse error (`EndUserParseException`) with its message and offending token. */
  datatype SheetResult = Parsed(rules: seq<Rule>) | ParseFailed(message: string, token: string)

  predicate RuleMatches(rule: Rule, ext: string) {
    EqualsIgnoreCase(rule.ruleClass, ext)
  }

  /** Index of the first rule whose class equals `ext` ignoring case, or `|rules|`. */
  function FirstMatch(rules: seq<Rule>, ext: string): (k: nat)
    ensures k <= |rules|
    ensures forall j :: 0 <= j < k ==> !RuleMatches(rules[j], ext)
    ensures k < |rules| ==> RuleMatches(rules[k], ext)
  {
    if |rules| == 0 then 0
    else if RuleMatches(rules[0], ext) then 0
    else 1 + FirstMatch(rules[1..], ext)
  }

  /** The LINQ query with `FirstOrDefault`: the first rule in document order whose
      class equals the extension ignoring case; none when no rule matches. */
  function FindRule(rules: seq<Rule>, ext: string): (r: Option<Rule>)
    ensures r.None? <==> forall j :: 0 <= j < |rules| ==> !RuleMatches(rules[j], ext)
    ensures r.Some? ==> exists k :: 0 <= k < |rules| && r.value == rules[k]
                                  && RuleMatches(rules[k], ext)
                                  && forall j :: 0 <= j < k ==> !RuleMatches(rules[j], ext)
  {
    var k := FirstMatch(rules, ext);
    if k < |rules| then Some(rules[k]) else None
  }

  /** Duplicate classes are not an error: of two matching rules the earlier wins. */
  lemma EarlierRuleWins(rules: seq<Rule>, ext: string, i: nat, j: nat)
    requires i < j < |rules|
    requires RuleMatches(rules[i], ext) && RuleMatches(rules[j], ext)
    ensures FindRule(rules, ext) != None
    ensures FirstMatch(rules, ext) <= i
  {
  }

  datatype PropertyError = PropertyError(message: string, property: string)

  /** `rule[name].AsString(default)`; a property that is not there gives the
      default (null when none is given). */
  function AsString(rule: Rule, name: string, default: Option<string>): (r: Result<Option<string>, PropertyError>)
    ensures name !in rule.properties ==> r == Success(default)
    ensures name in rule.properties && rule.properties[name].Value? ==> r == Success(Some(rule.properties[name].text))
    ensures name in rule.properties && rule.properties[name].Invalid? ==>
      r == Failure(PropertyError(rule.properties[name].message, name))
  {
    if name !in rule.properties then Success(default)
    else match rule.properties[name]
      case Value(text) => Success(Some(text))
      case Invalid(message) => Failure(PropertyError(message, name))
  }

  /** The settings a rule supplies. The three sources are lower-cased; `command`
      and the two patterns may be absent. */
  datatype Settings = Settings(
    command: Option<string>,
    resultIn: string,
    errorsIn: string,
    warningsIn: string,
    errorRx: Option<string>,
    warningsRx: Option<string>)

  /** The names read, in the order they are read. */
  const PropertyNames: seq<string> := ["command", "result", "errors", "warnings", "error-rx", "warnings-rx"]

  /** No upper-case letter occurs in `s`. */
  predicate IsLower(s: string) {
    forall i :: 0 <= i < |s| ==> !('A' <= s[i] <= 'Z')
  }

  predicate IsInvalid(rule: Rule, name: string) {
    name in rule.properties && rule.properties[name].Invalid?
  }

  /** Reads the six properties in order; the first invalid one aborts the reading.
      `result`, `errors` and `warnings` default to "stdout". */
  function ReadSettings(rule: Rule): (r: Result<Settings, PropertyError>)
    ensures r.Success? ==> IsLower(r.value.resultIn) && IsLower(r.value.errorsIn) && IsLower(r.value.warningsIn)
  {
    var command :- AsString(rule, "command", None);
    var resultIn :- AsString(rule, "result", Some("stdout"));
    var errorsIn :- AsString(rule, "errors", Some("stdout"));
    var warningsIn :- AsString(rule, "warnings", Some("stdout"));
    var errorRx :- AsString(rule, "error-rx", None);
    var warningsRx :- AsString(rule, "warnings-rx", None);
    Success(Settings(command, ToLower(resultIn.value), ToLower(errorsIn.value), ToLower(warningsIn.value), errorRx, warningsRx))
  }

  /** Reading fails exactly when one of the six properties is invalid, and then it
      reports the first invalid one in reading order. */
  lemma ReadSettingsFailure(rule: Rule)
    ensures ReadSettings(rule).Failure? <==> exists i :: 0 <= i < |PropertyNames| && IsInvalid(rule, PropertyNames[i])
    ensures ReadSettings(rule).Failure? ==>
      exists i :: 0 <= i < |PropertyNames|
        && IsInvalid(rule, PropertyNames[i])
        && ReadSettings(rule).error == PropertyError(rule.properties[PropertyNames[i]].message, PropertyNames[i])
        && forall j :: 0 <= j < i ==> !IsInvalid(rule, PropertyNames[j])
  {
    var names := PropertyNames;
    if IsInvalid(rule, names[0]) {
      assert ReadSettings(rule).error.property == names[0];
    } else if IsInvalid(rule, names[1]) {
      assert ReadSettings(rule).error.property == names[1];
    } else if IsInvalid(rule, names[2]) {
      assert ReadSettings(rule).error.property == names[2];
    } else if IsInvalid(rule, names[3]) {
      assert ReadSettings(rule).error.property == names[3];
    } else if IsInvalid(rule, names[4]) {
      assert ReadSettings(rule).error.property == names[4];
    } else if IsInvalid(rule, names[5]) {
      assert ReadSettings(rule).error.property == names[5];
    } else {
      assert forall i :: 0 <= i < |names| ==> !IsInvalid(rule, names[i]);
    }
  }

  /** With valid properties, an absent source property means "stdout", a present
      one is its text in lower case, and the command and patterns are the texts as
      written, or absent. */
  lemma ReadSettingsDefaults(rule: Rule)
    requires ReadSettings(rule).Success?
    ensures var s := ReadSettings(rule).value;
      && ("result" !in rule.properties ==> s.resultIn == "stdout")
      && ("errors" !in rule.properties ==> s.errorsIn == "stdout")
      && ("warnings" !in rule.properties ==> s.warningsIn == "stdout")
      && ("result" in rule.properties ==> s.resultIn == ToLower(rule.properties["result"].text))
      && ("errors" in rule.properties ==> s.errorsIn == ToLower(rule.properties["errors"].text))
      && ("warnings" in rule.properties ==> s.warningsIn == ToLower(rule.properties["warnings"].text))
      && (s.command == if "command" in rule.properties then Some(rule.properties["command"].text) else None)
      && (s.errorRx == if "error-rx" in rule.properties then Some(rule.properties["error-rx"].text) else None)
      && (s.warningsRx == if "warnings-rx" in rule.properties then Some(rule.properties["warnings-rx"].text) else None)
  {
    assert ToLower("stdout") == "stdout";
  }
}
