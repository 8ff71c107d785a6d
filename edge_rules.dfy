/**
 * Edge rules of a pull zone, as bunny_dns/edge_rules_manager.py handles them: the
 * name/code tables, the rule, trigger and action records with their JSON forms, the
 * expansion of a configured rule into one rule per action, and the replace-all sync.
 *
 * The remote side is the `EdgeRules` list of the pull zone's listing, as wire data;
 * the manager returns its report and the mutating calls it issued, in order.
 */
module EdgeRules {
  import opened Wrappers
  import opened Text
  import opened Dicts
  import opened Scan

  /** `ACTION_TYPES`. */
  const ActionTypes: Dict<string, int> := [
    ("force_ssl", 0), ("redirect", 1), ("origin_url", 2), ("override_cache_time", 3),
    ("block", 4), ("set_response_header", 5), ("set_request_header", 6), ("force_download", 7),
    ("disable_token_auth", 8), ("enable_token_auth", 9), ("override_cache_time_public", 10),
    ("ignore_query_string", 11), ("disable_optimizer", 12), ("force_compression", 13),
    ("set_status_code", 14), ("bypass_perma_cache", 15)]

  /** `ACTION_TYPES_REVERSE`. */
  const ActionTypesReverse: Dict<int, string> := Swap(ActionTypes)

  /** `TRIGGER_TYPES`. */
  const TriggerTypes: Dict<string, int> := [
    ("url", 0), ("request_header", 1), ("response_header", 2), ("url_extension", 3),
    ("country_code", 4), ("remote_ip", 5), ("url_query_string", 6), ("random_chance", 7),
    ("status_code", 8), ("request_method", 9)]

  /** `TRIGGER_TYPES_REVERSE`. */
  const TriggerTypesReverse: Dict<int, string> := Swap(TriggerTypes)

  /** `MATCH_TYPES`, for both a trigger's pattern matching and a rule's trigger matching. */
  const MatchTypes: Dict<string, int> := [("any", 0), ("all", 1), ("none", 2)]

  predicate KnownAction(name: string) {
    Lookup(ActionTypes, name).Some?
  }

  predicate KnownTrigger(name: string) {
    Lookup(TriggerTypes, name).Some?
  }

  predicate KnownMatch(name: string) {
    Lookup(MatchTypes, name).Some?
  }

  /** The action table and its reverse are mutual inverses. */
  lemma ActionTablesInverse()
    ensures forall name :: Lookup(ActionTypes, name).Some? ==>
      Lookup(ActionTypesReverse, Lookup(ActionTypes, name).value) == Some(name)
    ensures forall code :: Lookup(ActionTypesReverse, code).Some? ==>
      Lookup(ActionTypes, Lookup(ActionTypesReverse, code).value) == Some(code)
  {
    ActionTableDistinct();
    SwapInverse(ActionTypes);
  }

  lemma ActionTableDistinct()
    ensures DistinctKeys(ActionTypes) && DistinctValues(ActionTypes)
  {
    forall i, j | 0 <= i < j < |ActionTypes|
      ensures ActionTypes[i].0 != ActionTypes[j].0 && ActionTypes[i].1 != ActionTypes[j].1
    {
      var a, b := ActionTypes[i].0, ActionTypes[j].0;
      assert |a| != |b| || a[0] != b[0];
    }
  }

  /** The trigger table and its reverse are mutual inverses. */
  lemma TriggerTablesInverse()
    ensures forall name :: Lookup(TriggerTypes, name).Some? ==>
      Lookup(TriggerTypesReverse, Lookup(TriggerTypes, name).value) == Some(name)
    ensures forall code :: Lookup(TriggerTypesReverse, code).Some? ==>
      Lookup(TriggerTypes, Lookup(TriggerTypesReverse, code).value) == Some(code)
  {
    TriggerTableDistinct();
    SwapInverse(TriggerTypes);
  }

  lemma TriggerTableDistinct()
    ensures DistinctKeys(TriggerTypes) && DistinctValues(TriggerTypes)
  {
    forall i, j | 0 <= i < j < |TriggerTypes|
      ensures TriggerTypes[i].0 != TriggerTypes[j].0 && TriggerTypes[i].1 != TriggerTypes[j].1
    {
      var a, b := TriggerTypes[i].0, TriggerTypes[j].0;
      assert |a| != |b| || a[0] != b[0] || a[|a| - 1] != b[|b| - 1];
    }
  }

  /** `EdgeRuleTrigger`. */
  datatype Trigger = Trigger(triggerType: string, patterns: seq<string>, matchType: string, parameter: Option<string>)

  /** `EdgeRuleAction`. */
  datatype Action = Action(actionType: string, parameter1: Option<string>, parameter2: Option<string>)

  /** `EdgeRule`. */
  datatype Rule = Rule(
    description: string, enabled: bool, triggers: seq<Trigger>, actions: seq<Action>,
    triggerMatch: string, guid: Option<string>)

  /** A trigger as JSON; `None` is a key that is absent. */
  datatype TriggerWire = TriggerWire(
    typeCode: Option<int>, patternMatches: Option<seq<string>>, patternMatchingType: Option<int>,
    parameter1: Option<string>)

  /** An action as JSON. */
  datatype ActionWire = ActionWire(actionType: Option<int>, actionParameter1: Option<string>, actionParameter2: Option<string>)

  /** A rule as JSON, with its one action at the root. */
  datatype RuleWire = RuleWire(
    actionType: Option<int>, actionParameter1: Option<string>, actionParameter2: Option<string>,
    triggers: Option<seq<TriggerWire>>, triggerMatchingType: Option<int>,
    description: Option<string>, enabled: Option<bool>, guid: Option<string>)

  /** The JSON object `{}`. */
  const EmptyRuleWire := RuleWire(None, None, None, None, None, None, None, None)

  /** `EdgeRuleTrigger.to_api_payload`: unknown names encode as 0; an empty parameter is left out. */
  function TriggerToApiPayload(t: Trigger): TriggerWire {
    TriggerWire(
      Some(Get(TriggerTypes, t.triggerType, 0)), Some(t.patterns), Some(Get(MatchTypes, t.matchType, 0)),
      if Truthy(t.parameter) then t.parameter else None)
  }

  /** `EdgeRuleAction.to_api_payload`: parameters are left out only when absent. */
  function ActionToApiPayload(a: Action): ActionWire {
    ActionWire(Some(Get(ActionTypes, a.actionType, 0)), a.parameter1, a.parameter2)
  }

  function TriggersToApiPayload(ts: seq<Trigger>): (ws: seq<TriggerWire>)
    ensures |ws| == |ts| && forall i :: 0 <= i < |ts| ==> ws[i] == TriggerToApiPayload(ts[i])
  {
    seq(|ts|, i requires 0 <= i < |ts| => TriggerToApiPayload(ts[i]))
  }

  /** `EdgeRule.to_api_payload`: `{}` without actions, else the first action with the rule's fields. */
  function RuleToApiPayload(r: Rule): RuleWire {
    if r.actions == [] then EmptyRuleWire
    else
      var a := r.actions[0];
      RuleWire(
        Some(Get(ActionTypes, a.actionType, 0)), a.parameter1, a.parameter2,
        Some(TriggersToApiPayload(r.triggers)), Some(Get(MatchTypes, r.triggerMatch, 1)),
        Some(r.description), Some(r.enabled), if Truthy(r.guid) then r.guid else None)
  }

  /** The test of the `for name, value in MATCH_TYPES.items()` scan. */
  function CodeTest(code: int): ((string, int)) -> bool {
    (e: (string, int)) => e.1 == code
  }

  /** The scan's result: the first name whose code is `code`, or `default` when none is. */
  function MatchName(code: int, default: string): string {
    match First(CodeTest(code), MatchTypes)
    case None => default
    case Some(i) => MatchTypes[i].0
  }

  /** The scan finds every name of the table from its code, and falls back exactly on codes outside it. */
  lemma MatchNameSpec(code: int, default: string)
    ensures forall name :: Lookup(MatchTypes, name) == Some(code) ==> MatchName(code, default) == name
    ensures !(0 <= code <= 2) ==> MatchName(code, default) == default
    ensures 0 <= code <= 2 ==> Lookup(MatchTypes, MatchName(code, default)) == Some(code)
  {
    FirstSpec(CodeTest(code), MatchTypes);
    if 0 <= code <= 2 {
      FirstIsUnique(CodeTest(code), MatchTypes, code);
      assert MatchName(code, default) == MatchTypes[code].0;
      LookupAt(MatchTypes, code);
    }
    forall name | Lookup(MatchTypes, name) == Some(code)
      ensures MatchName(code, default) == name
    {
      LookupFound(MatchTypes, name);
    }
  }

  /** The `for name, value in MATCH_TYPES.items()` loop itself, stopping at the first hit. */
  method MatchScan(code: int, default: string) returns (name: string)
    ensures name == MatchName(code, default)
  {
    name := default;
    var k := 0;
    while k < |MatchTypes|
      invariant 0 <= k <= |MatchTypes|
      invariant forall j :: 0 <= j < k ==> MatchTypes[j].1 != code
      invariant name == default
    {
      if MatchTypes[k].1 == code {
        name := MatchTypes[k].0;
        FirstIsUnique(CodeTest(code), MatchTypes, k);
        return;
      }
      k := k + 1;
    }
    FirstSpec(CodeTest(code), MatchTypes);
  }

  /** `EdgeRuleTrigger.from_api_response`: unknown codes read as "url" and "any". */
  function TriggerFromApiResponse(w: TriggerWire): Trigger {
    Trigger(
      Get(TriggerTypesReverse, w.typeCode.GetOr(0), "url"), w.patternMatches.GetOr([]),
      MatchName(w.patternMatchingType.GetOr(0), "any"), w.parameter1)
  }

  function TriggersFromApiResponse(ws: seq<TriggerWire>): (ts: seq<Trigger>)
    ensures |ts| == |ws| && forall i :: 0 <= i < |ws| ==> ts[i] == TriggerFromApiResponse(ws[i])
  {
    seq(|ws|, i requires 0 <= i < |ws| => TriggerFromApiResponse(ws[i]))
  }

  /** `EdgeRule.from_api_response`: one action, unknown codes read as "block" and "all". */
  function RuleFromApiResponse(w: RuleWire): Rule {
    Rule(
      w.description.GetOr(""), w.enabled.GetOr(true), TriggersFromApiResponse(w.triggers.GetOr([])),
      [Action(Get(ActionTypesReverse, w.actionType.GetOr(0), "block"), w.actionParameter1, w.actionParameter2)],
      MatchName(w.triggerMatchingType.GetOr(1), "all"), w.guid)
  }

  lemma ActionCodesNumbered()
    ensures Numbered(ActionTypes)
  {
  }

  lemma TriggerCodesNumbered()
    ensures Numbered(TriggerTypes)
  {
  }

  /** An action code decodes to the name at that position of the table, or "block" outside it. */
  lemma DecodeActionCode(code: int)
    ensures var name := Get(ActionTypesReverse, code, "block");
      && KnownAction(name)
      && name == if 0 <= code < |ActionTypes| then ActionTypes[code].0 else "block"
  {
    ActionCodesNumbered();
    NumberedSwap(ActionTypes, code);
    if 0 <= code < |ActionTypes| {
      KeyAtIsFound(ActionTypes, code);
    } else {
      KeyAtIsFound(ActionTypes, 4);
    }
  }

  /** A trigger code decodes to the name at that position of the table, or "url" outside it. */
  lemma DecodeTriggerCode(code: int)
    ensures var name := Get(TriggerTypesReverse, code, "url");
      && KnownTrigger(name)
      && name == if 0 <= code < |TriggerTypes| then TriggerTypes[code].0 else "url"
  {
    TriggerCodesNumbered();
    NumberedSwap(TriggerTypes, code);
    if 0 <= code < |TriggerTypes| {
      KeyAtIsFound(TriggerTypes, code);
    } else {
      KeyAtIsFound(TriggerTypes, 0);
    }
  }

  /** A match code decodes to a name of the table, whichever default the scan falls back on. */
  lemma DecodeMatchCode(code: int, default: string)
    requires KnownMatch(default)
    ensures KnownMatch(MatchName(code, default))
  {
    MatchNameSpec(code, default);
  }

  /** Every name a decoded rule carries is in its table. */
  lemma DecodedNamesKnown(w: RuleWire)
    ensures var r := RuleFromApiResponse(w);
      && KnownAction(r.actions[0].actionType) && KnownMatch(r.triggerMatch)
      && forall i :: 0 <= i < |r.triggers| ==> KnownTrigger(r.triggers[i].triggerType) && KnownMatch(r.triggers[i].matchType)
  {
    var r := RuleFromApiResponse(w);
    DecodeActionCode(w.actionType.GetOr(0));
    KeyAtIsFound(MatchTypes, 0);
    KeyAtIsFound(MatchTypes, 1);
    DecodeMatchCode(w.triggerMatchingType.GetOr(1), "all");
    forall i | 0 <= i < |r.triggers|
      ensures KnownTrigger(r.triggers[i].triggerType) && KnownMatch(r.triggers[i].matchType)
    {
      var t := w.triggers.GetOr([])[i];
      DecodeTriggerCode(t.typeCode.GetOr(0));
      DecodeMatchCode(t.patternMatchingType.GetOr(0), "any");
    }
  }

  /** A trigger that survives its wire form: names in the tables, parameter absent or non-empty. */
  predicate TriggerRoundTrips(t: Trigger) {
    KnownTrigger(t.triggerType) && KnownMatch(t.matchType) && t.parameter != Some("")
  }

  lemma TriggerRoundTrip(t: Trigger)
    requires TriggerRoundTrips(t)
    ensures TriggerFromApiResponse(TriggerToApiPayload(t)) == t
  {
    TriggerTablesInverse();
    MatchNameSpec(Lookup(MatchTypes, t.matchType).value, "any");
  }

  /**
   * Decoding an encoded rule restores its description, enabled flag, triggers, first
   * action, trigger matching and guid, when every name is in its table and the guid
   * and trigger parameters are absent or non-empty.
   */
  lemma RuleRoundTrip(r: Rule)
    requires r.actions != [] && KnownAction(r.actions[0].actionType) && KnownMatch(r.triggerMatch)
    requires r.guid != Some("")
    requires forall i :: 0 <= i < |r.triggers| ==> TriggerRoundTrips(r.triggers[i])
    ensures RuleFromApiResponse(RuleToApiPayload(r)) == r.(actions := [r.actions[0]])
  {
    ActionTablesInverse();
    MatchNameSpec(Lookup(MatchTypes, r.triggerMatch).value, "all");
    var back := TriggersFromApiResponse(TriggersToApiPayload(r.triggers));
    forall i | 0 <= i < |r.triggers|
      ensures back[i] == r.triggers[i]
    {
      TriggerRoundTrip(r.triggers[i]);
    }
    assert back == r.triggers;
  }

  /** The action fields of a rule's payload are the payload of its first action. */
  lemma RulePayloadCarriesAction(r: Rule)
    requires r.actions != []
    ensures var p := RuleToApiPayload(r);
      var a := ActionToApiPayload(r.actions[0]);
      ActionWire(p.actionType, p.actionParameter1, p.actionParameter2) == a
  {
  }

  /**
   * A rule without actions encodes to `{}`, which reads back as an enabled "force_ssl"
   * rule with no triggers and matching "all": code 0 is the default action code.
   */
  lemma NoActionsEncodeEmpty(r: Rule)
    requires r.actions == []
    ensures RuleToApiPayload(r) == EmptyRuleWire
    ensures RuleFromApiResponse(EmptyRuleWire) == Rule("", true, [], [Action("force_ssl", None, None)], "all", None)
  {
    ActionTablesInverse();
    assert ActionTypes[0] == ("force_ssl", 0);
    MatchNameSpec(1, "all");
    assert MatchTypes[1] == ("all", 1);
  }

  /** Codes outside the tables read as "block", "all", "url" and "any". */
  lemma UnknownCodesDecode(w: RuleWire, t: TriggerWire)
    ensures !(0 <= w.actionType.GetOr(0) <= 15) ==> RuleFromApiResponse(w).actions[0].actionType == "block"
    ensures !(0 <= w.triggerMatchingType.GetOr(1) <= 2) ==> RuleFromApiResponse(w).triggerMatch == "all"
    ensures !(0 <= t.typeCode.GetOr(0) <= 9) ==> TriggerFromApiResponse(t).triggerType == "url"
    ensures !(0 <= t.patternMatchingType.GetOr(0) <= 2) ==> TriggerFromApiResponse(t).matchType == "any"
  {
    MatchNameSpec(w.triggerMatchingType.GetOr(1), "all");
    MatchNameSpec(t.patternMatchingType.GetOr(0), "any");
    DecodeActionCode(w.actionType.GetOr(0));
    DecodeTriggerCode(t.typeCode.GetOr(0));
  }

  /** A configuration value that `str()` turns into text. */
  datatype Scalar = Num(n: int) | Str(s: string)

  function Show(x: Scalar): string {
    match x
    case Num(n) => IntToString(n)
    case Str(s) => s
  }

  /**
   * An action of the configuration; `None` is a key that is absent. `status_code` is
   * passed on without `str()`, so it is taken to be text here; `seconds` and `code`
   * go through `str()` and may be numbers.
   */
  datatype ActionConfig = ActionConfig(
    actionType: Option<string>, header: Option<string>, value: Option<string>, url: Option<string>,
    statusCode: Option<string>, seconds: Option<Scalar>, code: Option<Scalar>)

  /** `parse_action_from_config`. */
  function ParseAction(c: ActionConfig): Action {
    var t := c.actionType.GetOr("block");
    if t == "set_response_header" || t == "set_request_header" then Action(t, c.header, c.value)
    else if t == "redirect" then Action(t, c.url, Some(c.statusCode.GetOr("301")))
    else if t == "origin_url" then Action(t, c.url, None)
    else if t == "override_cache_time" then Action(t, Some(Show(c.seconds.GetOr(Num(0)))), None)
    else if t == "set_status_code" then Action(t, Some(Show(c.code.GetOr(Num(200)))), None)
    else Action(t, None, None)
  }

  /** The names `parse_action_from_config` gives parameters to. */
  const ParameterisedActions := ["set_response_header", "set_request_header", "redirect", "origin_url",
                                 "override_cache_time", "set_status_code"]

  /**
   * The type defaults to "block"; header actions carry header and value; a redirect
   * defaults to status "301", a cache override to "0" seconds, a status code to "200";
   * every other type carries no parameter.
   */
  lemma ParseActionDefaults(c: ActionConfig)
    ensures var a := ParseAction(c);
      && a.actionType == c.actionType.GetOr("block")
      && (a.actionType in ["set_response_header", "set_request_header"] ==>
            a.parameter1 == c.header && a.parameter2 == c.value)
      && (a.actionType == "redirect" ==> a.parameter1 == c.url && a.parameter2.Some?)
      && (a.actionType == "redirect" && c.statusCode.None? ==> a.parameter2 == Some("301"))
      && (a.actionType == "override_cache_time" && c.seconds.None? ==> a.parameter1 == Some("0"))
      && (a.actionType == "set_status_code" && c.code.None? ==> a.parameter1 == Some("200"))
      && (a.actionType !in ParameterisedActions ==> a.parameter1.None? && a.parameter2.None?)
  {
    assert NatToString(0) == "0";
    assert NatToString(2) == "2" && NatToString(20) == "20";
    assert NatToString(200) == "200";
  }

  /** A trigger of the configuration. */
  datatype TriggerConfig = TriggerConfig(
    triggerType: Option<string>, patterns: Option<seq<string>>, matchType: Option<string>, parameter: Option<string>)

  /** `parse_trigger_from_config`: type "url", no patterns and match "any" by default. */
  function ParseTrigger(c: TriggerConfig): Trigger {
    Trigger(c.triggerType.GetOr("url"), c.patterns.GetOr([]), c.matchType.GetOr("any"), c.parameter)
  }

  /**
   * A configured trigger without type or match, or with names in the tables, and
   * without an empty parameter, survives the wire unchanged.
   */
  lemma ParsedTriggerRoundTrip(c: TriggerConfig)
    requires c.triggerType.None? || KnownTrigger(c.triggerType.value)
    requires c.matchType.None? || KnownMatch(c.matchType.value)
    requires c.parameter != Some("")
    ensures TriggerRoundTrips(ParseTrigger(c))
    ensures TriggerFromApiResponse(TriggerToApiPayload(ParseTrigger(c))) == ParseTrigger(c)
  {
    assert TriggerTypes[0] == ("url", 0);
    assert MatchTypes[0] == ("any", 0);
    TriggerRoundTrip(ParseTrigger(c));
  }

  /** A rule of the configuration. */
  datatype RuleConfig = RuleConfig(
    description: Option<string>, enabled: Option<bool>, triggers: Option<seq<TriggerConfig>>,
    actions: Option<seq<ActionConfig>>, triggerMatch: Option<string>)

  function ParsedTriggers(c: RuleConfig): (ts: seq<Trigger>)
    ensures var cs := c.triggers.GetOr([]);
      |ts| == |cs| && forall i :: 0 <= i < |cs| ==> ts[i] == ParseTrigger(cs[i])
  {
    var cs := c.triggers.GetOr([]);
    seq(|cs|, i requires 0 <= i < |cs| => ParseTrigger(cs[i]))
  }

  function ParsedActions(c: RuleConfig): (as_: seq<Action>)
    ensures var cs := c.actions.GetOr([]);
      |as_| == |cs| && forall i :: 0 <= i < |cs| ==> as_[i] == ParseAction(cs[i])
  {
    var cs := c.actions.GetOr([]);
    seq(|cs|, i requires 0 <= i < |cs| => ParseAction(cs[i]))
  }

  /** The description of the i-th of n rules expanded from one configured rule. */
  function RuleDescription(desc: string, i: nat, n: nat): string {
    if n > 1 then desc + " (action " + NatToString(i + 1) + ")" else desc
  }

  /** The i-th rule `parse_rule_from_config` builds. */
  function ExpandedRule(c: RuleConfig, i: nat): Rule
    requires i < |ParsedActions(c)|
  {
    var acts := ParsedActions(c);
    Rule(RuleDescription(c.description.GetOr("Edge Rule"), i, |acts|), c.enabled.GetOr(true),
         ParsedTriggers(c), [acts[i]], c.triggerMatch.GetOr("all"), None)
  }

  /** The rules `parse_rule_from_config` returns, one per configured action. */
  function ExpandRule(c: RuleConfig): (rules: seq<Rule>)
    ensures |rules| == |ParsedActions(c)| && forall i :: 0 <= i < |rules| ==> rules[i] == ExpandedRule(c, i)
  {
    seq(|ParsedActions(c)|, i requires 0 <= i < |ParsedActions(c)| => ExpandedRule(c, i))
  }

  /**
   * One rule per configured action, the i-th carrying exactly the i-th action; no
   * actions give no rules. A single rule keeps the description (default "Edge Rule");
   * of several, rule i is suffixed " (action i)", counting from 1. All share the
   * triggers, the enabled flag (default true) and the trigger matching (default "all"),
   * and none has a guid.
   */
  lemma ExpandRuleSpec(c: RuleConfig)
    ensures var rules := ExpandRule(c);
      var acts := c.actions.GetOr([]);
      var desc := c.description.GetOr("Edge Rule");
      && |rules| == |acts|
      && (acts == [] <==> rules == [])
      && (|acts| == 1 ==> rules[0].description == desc)
      && forall i :: 0 <= i < |rules| ==>
           && rules[i].actions == [ParseAction(acts[i])]
           && (|acts| > 1 ==> rules[i].description == desc + " (action " + NatToString(i + 1) + ")")
           && rules[i].triggers == ParsedTriggers(c)
           && rules[i].enabled == c.enabled.GetOr(true)
           && rules[i].triggerMatch == c.triggerMatch.GetOr("all")
           && rules[i].guid.None?
  {
  }

  /**
   * `parse_rule_from_config`: the loop that appends one rule per parsed action.
   */
  method ParseRuleFromConfig(c: RuleConfig) returns (rules: seq<Rule>)
    ensures rules == ExpandRule(c)
  {
    var triggers := ParsedTriggers(c);
    var actions := ParsedActions(c);
    rules := [];
    var i := 0;
    while i < |actions|
      invariant 0 <= i <= |actions|
      invariant |rules| == i && forall k :: 0 <= k < i ==> rules[k] == ExpandedRule(c, k)
    {
      var desc := c.description.GetOr("Edge Rule");
      if |actions| > 1 {
        desc := desc + " (action " + NatToString(i + 1) + ")";
      }
      rules := rules + [Rule(desc, c.enabled.GetOr(true), triggers, [actions[i]], c.triggerMatch.GetOr("all"), None)];
      i := i + 1;
    }
  }

  /** All rules expanded from the configured rules, in order. */
  function DesiredRules(cs: seq<RuleConfig>): seq<Rule>
    decreases |cs|
  {
    if cs == [] then [] else DesiredRules(cs[..|cs| - 1]) + ExpandRule(cs[|cs| - 1])
  }

  /** The number of configured actions. */
  function ActionCount(cs: seq<RuleConfig>): nat
    decreases |cs|
  {
    if cs == [] then 0 else ActionCount(cs[..|cs| - 1]) + |cs[|cs| - 1].actions.GetOr([])|
  }

  /** The replace-all sync creates one rule per configured action. */
  lemma {:induction false} DesiredRulesCount(cs: seq<RuleConfig>)
    ensures |DesiredRules(cs)| == ActionCount(cs)
    decreases |cs|
  {
    if cs != [] {
      DesiredRulesCount(cs[..|cs| - 1]);
      ExpandRuleSpec(cs[|cs| - 1]);
    }
  }

  /** `get_rules`: the decoded `EdgeRules` of the listing, none when it is missing. */
  function GetRules(listing: Option<seq<RuleWire>>): (rules: seq<Rule>)
    ensures var ws := listing.GetOr([]);
      |rules| == |ws| && forall i :: 0 <= i < |ws| ==> rules[i] == RuleFromApiResponse(ws[i])
  {
    var ws := listing.GetOr([]);
    seq(|ws|, i requires 0 <= i < |ws| => RuleFromApiResponse(ws[i]))
  }

  /** The mutating calls the manager can issue. */
  datatype RuleCall = AddOrUpdateRule(zoneId: Option<int>, payload: RuleWire) | DeleteRule(zoneId: Option<int>, guid: string)

  /** The result of `sync_rules`. */
  datatype RulesReport = RulesReport(deleted: seq<string>, created: seq<string>, changes: seq<string>)

  /** The descriptions of the rules, in order. */
  function Descriptions(rules: seq<Rule>): seq<string>
    decreases |rules|
  {
    if rules == [] then [] else Descriptions(rules[..|rules| - 1]) + [rules[|rules| - 1].description]
  }

  /** The change lines "<prefix><description>", in order. */
  function Prefixed(prefix: string, rules: seq<Rule>): seq<string>
    decreases |rules|
  {
    if rules == [] then [] else Prefixed(prefix, rules[..|rules| - 1]) + [prefix + rules[|rules| - 1].description]
  }

  /** Both lists have one line per rule, the i-th about the i-th rule. */
  lemma {:induction false} ReportLinesAt(prefix: string, rules: seq<Rule>)
    ensures |Descriptions(rules)| == |rules| && |Prefixed(prefix, rules)| == |rules|
    ensures forall i :: 0 <= i < |rules| ==>
      Descriptions(rules)[i] == rules[i].description && Prefixed(prefix, rules)[i] == prefix + rules[i].description
    decreases |rules|
  {
    if rules != [] {
      var init := rules[..|rules| - 1];
      ReportLinesAt(prefix, init);
      assert forall i :: 0 <= i < |init| ==> init[i] == rules[i];
    }
  }

  /** The deletions for listed rules: one per rule with a non-empty guid, in order. */
  function DeleteCalls(zoneId: Option<int>, rules: seq<Rule>): seq<RuleCall>
    decreases |rules|
  {
    if rules == [] then []
    else
      var r := rules[|rules| - 1];
      DeleteCalls(zoneId, rules[..|rules| - 1]) + (if Truthy(r.guid) then [DeleteRule(zoneId, r.guid.value)] else [])
  }

  /** A guid is deleted exactly when some listed rule carries it and it is non-empty; nothing else is called. */
  lemma {:induction false} DeleteCallsSpec(zoneId: Option<int>, rules: seq<Rule>)
    ensures |DeleteCalls(zoneId, rules)| <= |rules|
    ensures forall c :: c in DeleteCalls(zoneId, rules) ==> c.DeleteRule? && c.zoneId == zoneId
    ensures forall g :: DeleteRule(zoneId, g) in DeleteCalls(zoneId, rules) <==>
      g != "" && exists i :: 0 <= i < |rules| && rules[i].guid == Some(g)
    decreases |rules|
  {
    if rules != [] {
      var init := rules[..|rules| - 1];
      DeleteCallsSpec(zoneId, init);
      assert forall i :: 0 <= i < |init| ==> init[i] == rules[i];
      forall g | g != "" && (exists i :: 0 <= i < |rules| && rules[i].guid == Some(g))
        ensures DeleteRule(zoneId, g) in DeleteCalls(zoneId, rules)
      {
        var i :| 0 <= i < |rules| && rules[i].guid == Some(g);
        if i < |init| {
          assert init[i].guid == Some(g);
        }
      }
    }
  }

  /** The addition of one desired rule, with its payload. */
  function AddCall(zoneId: Option<int>, r: Rule): RuleCall {
    AddOrUpdateRule(zoneId, RuleToApiPayload(r))
  }

  /** The additions for desired rules: one per rule, in order. */
  function AddCalls(zoneId: Option<int>, rules: seq<Rule>): seq<RuleCall>
    decreases |rules|
  {
    if rules == [] then []
    else AddCalls(zoneId, rules[..|rules| - 1]) + [AddCall(zoneId, rules[|rules| - 1])]
  }

  /** `delete_all_rules`: deletes every listed rule that has a guid. */
  method DeleteAllRules(zoneId: Option<int>, listing: Option<seq<RuleWire>>) returns (calls: seq<RuleCall>)
    ensures calls == DeleteCalls(zoneId, GetRules(listing))
  {
    var rules := GetRules(listing);
    calls := [];
    var k := 0;
    while k < |rules|
      invariant 0 <= k <= |rules|
      invariant calls == DeleteCalls(zoneId, rules[..k])
    {
      assert rules[..k + 1][..k] == rules[..k];
      if Truthy(rules[k].guid) {
        calls := calls + [DeleteRule(zoneId, rules[k].guid.value)];
      }
      k := k + 1;
    }
    assert rules[..k] == rules;
  }

  /** The loop of `sync_rules` that extends the desired rules with each configured rule's expansion. */
  method ExpandConfigs(configs: seq<RuleConfig>) returns (desired: seq<Rule>)
    ensures desired == DesiredRules(configs)
  {
    desired := [];
    var n := 0;
    while n < |configs|
      invariant 0 <= n <= |configs|
      invariant desired == DesiredRules(configs[..n])
    {
      assert configs[..n + 1][..n] == configs[..n];
      var expanded := ParseRuleFromConfig(configs[n]);
      desired := desired + expanded;
      n := n + 1;
    }
    assert configs[..n] == configs;
  }

  /** The loop of `sync_rules` over the listed rules: report lines, and deletions in a live run. */
  method DeleteListed(zoneId: Option<int>, current: seq<Rule>, dryRun: bool)
    returns (deleted: seq<string>, changes: seq<string>, calls: seq<RuleCall>)
    ensures deleted == Descriptions(current)
    ensures changes == Prefixed("Deleting rule: ", current)
    ensures calls == if dryRun then [] else DeleteCalls(zoneId, current)
  {
    deleted, changes, calls := [], [], [];
    var k := 0;
    while k < |current|
      invariant 0 <= k <= |current|
      invariant deleted == Descriptions(current[..k])
      invariant changes == Prefixed("Deleting rule: ", current[..k])
      invariant calls == if dryRun then [] else DeleteCalls(zoneId, current[..k])
    {
      assert current[..k + 1][..k] == current[..k];
      var rule := current[k];
      deleted := deleted + [rule.description];
      changes := changes + ["Deleting rule: " + rule.description];
      if !dryRun && Truthy(rule.guid) {
        calls := calls + [DeleteRule(zoneId, rule.guid.value)];
      }
      k := k + 1;
    }
    assert current[..k] == current;
  }

  /** The loop of `sync_rules` over the desired rules: report lines, and additions in a live run. */
  method CreateDesired(zoneId: Option<int>, desired: seq<Rule>, dryRun: bool)
    returns (created: seq<string>, changes: seq<string>, calls: seq<RuleCall>)
    ensures created == Descriptions(desired)
    ensures changes == Prefixed("Creating rule: ", desired)
    ensures calls == if dryRun then [] else AddCalls(zoneId, desired)
  {
    created, changes, calls := [], [], [];
    var m := 0;
    while m < |desired|
      invariant 0 <= m <= |desired|
      invariant created == Descriptions(desired[..m])
      invariant changes == Prefixed("Creating rule: ", desired[..m])
      invariant calls == if dryRun then [] else AddCalls(zoneId, desired[..m])
    {
      assert desired[..m + 1][..m] == desired[..m];
      var rule := desired[m];
      created := created + [rule.description];
      changes := changes + ["Creating rule: " + rule.description];
      if !dryRun {
        calls := calls + [AddCall(zoneId, rule)];
      }
      m := m + 1;
    }
    assert desired[..m] == desired;
  }

  /**
   * The replace-all step on the listed rules `current` and the desired rules: every listed
   * rule is reported deleted and every desired rule created, in order; a live run deletes
   * each listed rule that has a guid and then adds each desired rule; a dry run calls nothing.
   */
  function ReplaceAll(zoneId: Option<int>, current: seq<Rule>, desired: seq<Rule>, dryRun: bool)
    : (RulesReport, seq<RuleCall>)
  {
    (RulesReport(Descriptions(current), Descriptions(desired),
                 Prefixed("Deleting rule: ", current) + Prefixed("Creating rule: ", desired)),
     if dryRun then [] else DeleteCalls(zoneId, current) + AddCalls(zoneId, desired))
  }

  /** The report and the calls of `sync_rules`: replace-all of the listing by the expanded configuration. */
  function RulesOutcome(zoneId: Option<int>, configs: seq<RuleConfig>, dryRun: bool, listing: Option<seq<RuleWire>>)
    : (RulesReport, seq<RuleCall>)
  {
    ReplaceAll(zoneId, GetRules(listing), DesiredRules(configs), dryRun)
  }

  /** The number of additions is the number of desired rules. */
  lemma {:induction false} AddCallsLength(zoneId: Option<int>, rules: seq<Rule>)
    ensures |AddCalls(zoneId, rules)| == |rules|
    decreases |rules|
  {
    if rules != [] {
      AddCallsLength(zoneId, rules[..|rules| - 1]);
    }
  }

  /** The i-th addition carries the i-th desired rule's payload. */
  lemma {:induction false} AddCallAt(zoneId: Option<int>, rules: seq<Rule>, i: int)
    requires 0 <= i < |rules|
    ensures |AddCalls(zoneId, rules)| == |rules|
    ensures AddCalls(zoneId, rules)[i] == AddCall(zoneId, rules[i])
    decreases |rules|
  {
    var init := rules[..|rules| - 1];
    AddCallsLength(zoneId, init);
    if i < |init| {
      AddCallAt(zoneId, init, i);
      assert init[i] == rules[i];
    }
  }

  /** One addition per desired rule, the i-th carrying the i-th rule's payload. */
  lemma AddCallsAt(zoneId: Option<int>, rules: seq<Rule>)
    ensures |AddCalls(zoneId, rules)| == |rules|
    ensures forall i :: 0 <= i < |rules| ==> AddCalls(zoneId, rules)[i] == AddCall(zoneId, rules[i])
  {
    AddCallsLength(zoneId, rules);
    forall i | 0 <= i < |rules|
      ensures AddCalls(zoneId, rules)[i] == AddCall(zoneId, rules[i])
    {
      AddCallAt(zoneId, rules, i);
    }
  }

  /**
   * Replace-all, the report: every listed rule is reported deleted and every desired rule
   * created, with one change line each, in order.
   */
  lemma ReplaceAllReport(zoneId: Option<int>, current: seq<Rule>, desired: seq<Rule>, dryRun: bool)
    ensures var o := ReplaceAll(zoneId, current, desired, dryRun).0;
      && |o.deleted| == |current| && |o.created| == |desired|
      && (forall i :: 0 <= i < |current| ==> o.deleted[i] == current[i].description)
      && (forall i :: 0 <= i < |desired| ==> o.created[i] == desired[i].description)
      && |o.changes| == |current| + |desired|
      && (forall i :: 0 <= i < |current| ==> o.changes[i] == "Deleting rule: " + current[i].description)
      && (forall i :: 0 <= i < |desired| ==>
            o.changes[|current| + i] == "Creating rule: " + desired[i].description)
  {
    ReportLinesAt("Deleting rule: ", current);
    ReportLinesAt("Creating rule: ", desired);
    var changes := Prefixed("Deleting rule: ", current) + Prefixed("Creating rule: ", desired);
    assert forall i :: 0 <= i < |desired| ==> changes[|current| + i] == Prefixed("Creating rule: ", desired)[i];
  }

  /**
   * Replace-all, the calls: a dry run calls nothing; a live run first deletes exactly the
   * listed guids that are non-empty, on the given zone, then makes the additions of the
   * desired rules (`AddCallsAt` says what they are).
   */
  lemma ReplaceAllCalls(zoneId: Option<int>, current: seq<Rule>, desired: seq<Rule>, dryRun: bool)
    ensures var calls := ReplaceAll(zoneId, current, desired, dryRun).1;
      && (dryRun ==> calls == [])
      && (!dryRun ==>
            var n := |calls| - |desired|;
            && 0 <= n <= |current|
            && (forall k :: 0 <= k < n ==> calls[k].DeleteRule? && calls[k].zoneId == zoneId)
            && (forall g :: DeleteRule(zoneId, g) in calls[..n] <==>
                  g != "" && exists i :: 0 <= i < |current| && current[i].guid == Some(g))
            && calls[n..] == AddCalls(zoneId, desired))
  {
    if !dryRun {
      var deletes := DeleteCalls(zoneId, current);
      var adds := AddCalls(zoneId, desired);
      DeleteCallsSpec(zoneId, current);
      AddCallsLength(zoneId, desired);
      var calls := deletes + adds;
      assert calls[..|deletes|] == deletes;
      assert calls[|deletes|..] == adds;
      assert forall k :: 0 <= k < |deletes| ==> calls[k] == deletes[k];
    }
  }

  /** `EdgeRulesManager.sync_rules`, with the outcome `RulesOutcome` states. */
  method SyncRules(zoneId: Option<int>, configs: seq<RuleConfig>, dryRun: bool, listing: Option<seq<RuleWire>>)
    returns (report: RulesReport, calls: seq<RuleCall>)
    ensures (report, calls) == RulesOutcome(zoneId, configs, dryRun, listing)
  {
    var current := GetRules(listing);
    var desired := ExpandConfigs(configs);
    var deleted, deleting, deletes := DeleteListed(zoneId, current, dryRun);
    var created, creating, adds := CreateDesired(zoneId, desired, dryRun);
    report := RulesReport(deleted, created, deleting + creating);
    calls := deletes + adds;
    ghost var o := RulesOutcome(zoneId, configs, dryRun, listing);
    assert report == o.0;
    assert calls == o.1;
  }
}
