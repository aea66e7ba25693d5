/** The automation page: the one-sentence rule summary, the rule editor's
    defaults, the draft it saves (empty optional fields sent as null), its
    save guard, and the payload of the enabled switch. */
module Automation {
  import opened Common
  import Json

  /** A rule's fields as the page reads them; None is null or missing. */
  datatype RuleFields = RuleFields(
    name: Option<string>,
    enabled: Option<bool>,
    triggerType: Option<string>,
    triggerValue: Option<string>,
    conditionType: Option<string>,
    conditionValue: Option<string>,
    actionType: Option<string>,
    actionValue: Option<string>)

  /** A string field is truthy: present and not empty. */
  predicate Filled(v: Option<string>) {
    v.Some? && v.value != ""
  }

  /** One part of the summary: "type(value)", "type" without a value, or
      the placeholder when the type is missing. */
  function Part(ty: Option<string>, val: Option<string>, missing: string): (p: string)
    ensures !Filled(ty) ==> p == missing
    ensures Filled(ty) && Filled(val) ==> p == ty.value + "(" + val.value + ")"
    ensures Filled(ty) && !Filled(val) ==> p == ty.value
  {
    if Filled(ty) then ty.value + (if Filled(val) then "(" + val.value + ")" else "") else missing
  }

  /** ruleSummary */
  function RuleSummary(r: RuleFields): string {
    "When " + Part(r.triggerType, r.triggerValue, "—") + " and " + Part(r.conditionType, r.conditionValue, "Any")
      + ", do " + Part(r.actionType, r.actionValue, "—") + "."
  }

  /** Every summary reads "When T and C, do A." with the three parts in
      place. */
  lemma SummaryShape(r: RuleFields)
    ensures var s := RuleSummary(r);
      var t := Part(r.triggerType, r.triggerValue, "—");
      var c := Part(r.conditionType, r.conditionValue, "Any");
      var a := Part(r.actionType, r.actionValue, "—");
      |s| == |t| + |c| + |a| + 16 &&
      s[..5] == "When " && s[5..5 + |t|] == t &&
      s[5 + |t|..10 + |t|] == " and " && s[10 + |t|..10 + |t| + |c|] == c &&
      s[10 + |t| + |c|..15 + |t| + |c|] == ", do " && s[15 + |t| + |c|..15 + |t| + |c| + |a|] == a &&
      s[|s| - 1] == '.'
  {
  }

  /** A rule with nothing set reads "When — and Any, do —.". */
  lemma EmptyRuleSummary()
    ensures RuleSummary(RuleFields(None, None, None, None, None, None, None, None)) == "When — and Any, do —."
  {
  }

  /** An empty string and a null read the same in every part. */
  lemma EmptyLikeNull(r: RuleFields, ty: string)
    ensures RuleSummary(r.(conditionType := Some(""))) == RuleSummary(r.(conditionType := None))
    ensures RuleSummary(r.(triggerValue := Some(""))) == RuleSummary(r.(triggerValue := None))
    ensures RuleSummary(r.(actionValue := Some(""))) == RuleSummary(r.(actionValue := None))
  {
  }

  // ---------------------------------------------------------------------
  // The editor
  // ---------------------------------------------------------------------

  datatype Editor = Editor(
    name: string,
    enabled: bool,
    triggerType: string,
    triggerValue: string,
    conditionType: string,
    conditionValue: string,
    actionType: string,
    actionValue: string)

  const DefaultTrigger: string := "contact.stage.changed"
  const DefaultAction: string := "send.template"

  /** The editor's useState initialisers: `initial?.field ?? default`. */
  function Defaults(initial: Option<RuleFields>): (e: Editor)
    ensures initial.None? ==> e == Editor("", true, DefaultTrigger, "", "", "", DefaultAction, "")
    ensures initial.Some? ==> var r := initial.value;
      && (r.name.Some? ==> e.name == r.name.value) && (r.name.None? ==> e.name == "")
      && (r.enabled.Some? ==> e.enabled == r.enabled.value) && (r.enabled.None? ==> e.enabled)
      && (r.triggerType.Some? ==> e.triggerType == r.triggerType.value) && (r.triggerType.None? ==> e.triggerType == DefaultTrigger)
      && (r.triggerValue.Some? ==> e.triggerValue == r.triggerValue.value) && (r.triggerValue.None? ==> e.triggerValue == "")
      && (r.conditionType.Some? ==> e.conditionType == r.conditionType.value) && (r.conditionType.None? ==> e.conditionType == "")
      && (r.conditionValue.Some? ==> e.conditionValue == r.conditionValue.value) && (r.conditionValue.None? ==> e.conditionValue == "")
      && (r.actionType.Some? ==> e.actionType == r.actionType.value) && (r.actionType.None? ==> e.actionType == DefaultAction)
      && (r.actionValue.Some? ==> e.actionValue == r.actionValue.value) && (r.actionValue.None? ==> e.actionValue == "")
  {
    match initial
    case None => Editor("", true, DefaultTrigger, "", "", "", DefaultAction, "")
    case Some(r) =>
      Editor(
        OrElse(r.name, ""),
        if r.enabled.Some? then r.enabled.value else true,
        OrElse(r.triggerType, DefaultTrigger),
        OrElse(r.triggerValue, ""),
        OrElse(r.conditionType, ""),
        OrElse(r.conditionValue, ""),
        OrElse(r.actionType, DefaultAction),
        OrElse(r.actionValue, ""))
  }

  /** The draft the editor saves and summarises. */
  function Draft(e: Editor): (d: RuleFields)
    ensures d.name == Some(e.name) && d.enabled == Some(e.enabled)
    ensures d.triggerType == Some(e.triggerType) && d.actionType == Some(e.actionType)
    ensures d.triggerValue.None? <==> e.triggerValue == ""
    ensures d.conditionType.None? <==> e.conditionType == ""
    ensures d.conditionValue.None? <==> e.conditionValue == ""
    ensures d.actionValue.None? <==> e.actionValue == ""
  {
    RuleFields(Some(e.name), Some(e.enabled), Some(e.triggerType), NullIfEmpty(e.triggerValue),
      NullIfEmpty(e.conditionType), NullIfEmpty(e.conditionValue), Some(e.actionType), NullIfEmpty(e.actionValue))
  }

  /** Opening the editor on a saved draft gives back the editor that saved
      it: the nulls the draft writes are read back as empty fields. */
  lemma DraftRoundTrip(e: Editor)
    ensures Defaults(Some(Draft(e))) == e
  {
  }

  /** The summary of a new rule. */
  lemma NewRuleSummary()
    ensures RuleSummary(Draft(Defaults(None))) == "When " + DefaultTrigger + " and Any, do " + DefaultAction + "."
  {
    var d := Draft(Defaults(None));
    assert Part(d.triggerType, d.triggerValue, "—") == DefaultTrigger;
    assert Part(d.conditionType, d.conditionValue, "Any") == "Any";
    assert Part(d.actionType, d.actionValue, "—") == DefaultAction;
  }

  /** The save button's disabled expression. */
  predicate SaveDisabled(saving: bool, e: Editor) {
    saving || Blank(e.name) || Blank(e.triggerType) || Blank(e.actionType)
  }

  /** Save is enabled exactly when nothing is saving and the name, the
      trigger type and the action type are not blank. */
  lemma SaveEnabledIff(saving: bool, e: Editor)
    ensures !SaveDisabled(saving, e) <==> !saving && !AllWs(e.name) && !AllWs(e.triggerType) && !AllWs(e.actionType)
  {
  }

  /** A new rule cannot be saved until it is named. */
  lemma NewRuleNeedsName(saving: bool)
    ensures SaveDisabled(saving, Defaults(None))
    ensures forall n :: !AllWs(n) ==> !SaveDisabled(false, Defaults(None).(name := n))
  {
    assert !AllWs(DefaultTrigger) by { assert !IsWs(DefaultTrigger[0]); }
    assert !AllWs(DefaultAction) by { assert !IsWs(DefaultAction[0]); }
  }

  /** The switch's update: `{ enabled: v }` and nothing else. */
  function TogglePayload(v: bool): (p: Json.Json)
    ensures p.Obj? && p.fields.Keys == {"enabled"} && p.fields["enabled"] == Json.Bool(v)
  {
    Json.Obj(map["enabled" := Json.Bool(v)])
  }
}
