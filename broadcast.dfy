/** The campaign builder: the audience filter, the four-step wizard with a
    gate on each step, the payload it creates, and the status changes the
    campaigns table offers. */
module Broadcast {
  import opened Common
  import opened Schema
  import TagIndex

  // ---------------------------------------------------------------------
  // Audience
  // ---------------------------------------------------------------------

  /** The audience test: the stage filter is "all" or equals the contact's
      stage, and the tag filter is empty or one of the contact's tags. */
  predicate InAudience(c: Contact, audStage: string, audTag: string) {
    (audStage == "all" || c.stage == Some(audStage)) && (audTag == "" || audTag in TagsOf(c))
  }

  /** contacts.filter(...) */
  function Audience(contacts: seq<Contact>, audStage: string, audTag: string): (r: seq<Contact>)
    ensures |r| <= |contacts|
    decreases |contacts|
  {
    if |contacts| == 0 then []
    else
      (if InAudience(contacts[0], audStage, audTag) then [contacts[0]] else [])
      + Audience(contacts[1..], audStage, audTag)
  }

  /** A contact is in the audience exactly when it passes both filters. */
  lemma {:induction false} AudienceMembers(contacts: seq<Contact>, audStage: string, audTag: string)
    ensures forall c :: c in Audience(contacts, audStage, audTag) <==> c in contacts && InAudience(c, audStage, audTag)
    decreases |contacts|
  {
    if |contacts| > 0 {
      AudienceMembers(contacts[1..], audStage, audTag);
      assert contacts == [contacts[0]] + contacts[1..];
    }
  }

  /** Filtering keeps the input order: the audience of a concatenation is
      the concatenation of the audiences. */
  lemma {:induction false} AudienceOrder(a: seq<Contact>, b: seq<Contact>, audStage: string, audTag: string)
    ensures Audience(a + b, audStage, audTag) == Audience(a, audStage, audTag) + Audience(b, audStage, audTag)
    decreases |a|
  {
    if |a| == 0 {
      assert a + b == b;
    } else {
      var h := if InAudience(a[0], audStage, audTag) then [a[0]] else [];
      assert (a + b)[0] == a[0];
      assert (a + b)[1..] == a[1..] + b;
      assert Audience(a + b, audStage, audTag) == h + Audience(a[1..] + b, audStage, audTag);
      assert Audience(a, audStage, audTag) == h + Audience(a[1..], audStage, audTag);
      AudienceOrder(a[1..], b, audStage, audTag);
      assert h + (Audience(a[1..], audStage, audTag) + Audience(b, audStage, audTag))
        == (h + Audience(a[1..], audStage, audTag)) + Audience(b, audStage, audTag);
    }
  }

  /** With both filters open, everyone is in the audience. */
  lemma {:induction false} OpenFiltersKeepAll(contacts: seq<Contact>)
    ensures Audience(contacts, "all", "") == contacts
    decreases |contacts|
  {
    if |contacts| > 0 {
      OpenFiltersKeepAll(contacts[1..]);
      assert contacts == [contacts[0]] + contacts[1..];
    }
  }

  /** A specific stage filter never selects a contact without a stage, and
      a tag filter never selects a contact without tags. */
  lemma MissingFieldsNeverMatch(c: Contact, audStage: string, audTag: string)
    ensures c.stage.None? && audStage != "all" ==> !InAudience(c, audStage, audTag)
    ensures c.tags.None? && audTag != "" ==> !InAudience(c, audStage, audTag)
  {
  }

  // ---------------------------------------------------------------------
  // Gates
  // ---------------------------------------------------------------------

  datatype ScheduleMode = Now | Later

  /** canNext1: the trimmed name has at least two characters. */
  predicate CanNext1(name: string) {
    |Trim(name)| >= 2
  }

  /** canNext2: a template is chosen. */
  predicate CanNext2(templateId: string) {
    templateId != "none"
  }

  /** canNext3: the audience is not empty. */
  predicate CanNext3(audienceSize: nat) {
    audienceSize > 0
  }

  /** canFinish: sending now, or a schedule time was entered. */
  predicate CanFinish(mode: ScheduleMode, scheduledAt: string) {
    mode == Now || scheduledAt != ""
  }

  /** The Next button's disabled expression. */
  predicate NextDisabled(step: int, name: string, templateId: string, audienceSize: nat) {
    (step == 1 && !CanNext1(name)) || (step == 2 && !CanNext2(templateId))
    || (step == 3 && !CanNext3(audienceSize)) || step == 4
  }

  /** The Finish button's disabled expression. */
  predicate FinishDisabled(pending: bool, mode: ScheduleMode, scheduledAt: string, name: string, templateId: string, audienceSize: nat) {
    pending || !CanFinish(mode, scheduledAt) || !CanNext1(name) || !CanNext2(templateId) || !CanNext3(audienceSize)
  }

  /** Next is enabled on step 1 for a name of two or more characters after
      trimming, on step 2 once a template is chosen, on step 3 for a
      non-empty audience, and never on the last step. */
  lemma NextEnabledIff(step: int, name: string, templateId: string, audienceSize: nat)
    requires 1 <= step <= 4
    ensures step == 1 ==> (!NextDisabled(step, name, templateId, audienceSize) <==> |Trim(name)| >= 2)
    ensures step == 2 ==> (!NextDisabled(step, name, templateId, audienceSize) <==> templateId != "none")
    ensures step == 3 ==> (!NextDisabled(step, name, templateId, audienceSize) <==> audienceSize > 0)
    ensures step == 4 ==> NextDisabled(step, name, templateId, audienceSize)
  {
  }

  /** Finish is enabled exactly when nothing is pending, all three gates
      hold, and the campaign goes now or has a schedule time. */
  lemma FinishEnabledIff(pending: bool, mode: ScheduleMode, scheduledAt: string, name: string, templateId: string, audienceSize: nat)
    ensures !FinishDisabled(pending, mode, scheduledAt, name, templateId, audienceSize) <==>
      !pending && |Trim(name)| >= 2 && templateId != "none" && audienceSize > 0 && (mode == Now || scheduledAt != "")
  {
  }

  // ---------------------------------------------------------------------
  // Payloads and status rules
  // ---------------------------------------------------------------------

  /** The createCampaign payload. `templateId` is Number(id) or null;
      `scheduledAt` is the entered time (its ISO conversion is not
      modelled) or null. */
  datatype Payload = Payload(name: string, status: string, templateId: Option<JsNumber>, scheduledAt: Option<string>)

  function CampaignPayload(name: string, templateId: string, mode: ScheduleMode, scheduledAt: string): (p: Payload)
    ensures p.name == name
    ensures p.status == "Running" <==> mode == Now
    ensures p.status == "Scheduled" <==> mode == Later
    ensures p.scheduledAt.None? <==> mode == Now
    ensures p.templateId.None? <==> templateId == "none"
    ensures templateId != "none" ==> p.templateId == Some(NumberOf(templateId))
  {
    Payload(
      name,
      if mode == Now then "Running" else "Scheduled",
      if templateId == "none" then None else Some(NumberOf(templateId)),
      if mode == Later then Some(scheduledAt) else None)
  }

  /** A template chosen from the list (its select value is String(t.id))
      reaches the payload as that id. */
  lemma ChosenTemplateId(name: string, id: int, mode: ScheduleMode, scheduledAt: string)
    ensures CampaignPayload(name, IntToString(id), mode, scheduledAt).templateId == Some(Finite(id))
  {
    IntStringRoundTrip(id);
    assert IntToString(id) != "none" by {
      if id < 0 {
        assert IntToString(id)[0] == '-';
      } else {
        assert IsDigit(IntToString(id)[0]);
      }
    }
  }

  /** The Pause/Resume button: "Paused" resumes to "Running", anything else
      pauses. */
  function TogglePause(status: string): (s: string)
    ensures s == "Running" <==> status == "Paused"
    ensures s == "Paused" <==> status != "Paused"
  {
    if status == "Paused" then "Running" else "Paused"
  }

  /** Toggling twice gives back a running or paused campaign's status. */
  lemma TogglePauseTwice(status: string)
    requires status == "Running" || status == "Paused"
    ensures TogglePause(TogglePause(status)) == status
  {
  }

  /** The Complete button always sets "Completed". */
  function Complete(status: string): (s: string)
    ensures s == "Completed"
  {
    "Completed"
  }

  // ---------------------------------------------------------------------
  // The builder state
  // ---------------------------------------------------------------------

  class Builder {
    var open: bool
    var step: int
    var name: string
    var templateId: string
    var audStage: string
    var audTag: string
    var mode: ScheduleMode
    var scheduledAt: string

    /** The step is one of 1..4. */
    predicate Valid()
      reads this
    {
      1 <= step <= 4
    }

    /** The builder fields at their initial values. */
    predicate Initial()
      reads this
    {
      step == 1 && name == "" && templateId == "none" && audStage == "all"
      && audTag == "" && mode == Later && scheduledAt == ""
    }

    constructor ()
      ensures Initial() && Valid() && !open
    {
      open := false;
      step := 1;
      name := "";
      templateId := "none";
      audStage := "all";
      audTag := "";
      mode := Later;
      scheduledAt := "";
    }

    /** reset(): every builder field back to its initial value. */
    method Reset()
      modifies this
      ensures Initial() && Valid()
      ensures open == old(open)
    {
      step := 1;
      name := "";
      templateId := "none";
      audStage := "all";
      audTag := "";
      mode := Later;
      scheduledAt := "";
    }

    /** The drawer's onOpenChange: closing it also resets the builder. */
    method OpenChange(v: bool)
      modifies this
      ensures open == v
      ensures !v ==> Initial()
      ensures v ==> (step == old(step) && name == old(name) && templateId == old(templateId)
        && audStage == old(audStage) && audTag == old(audTag) && mode == old(mode) && scheduledAt == old(scheduledAt))
      ensures old(Valid()) ==> Valid()
    {
      open := v;
      if !v {
        Reset();
      }
    }

    /** Back: disabled at step 1, otherwise `max(1, s - 1)`. */
    method Back()
      modifies this
      ensures step == (if old(step) == 1 then 1 else Max(1, old(step) - 1))
      ensures old(Valid()) ==> Valid()
      ensures name == old(name) && templateId == old(templateId) && audStage == old(audStage)
        && audTag == old(audTag) && mode == old(mode) && scheduledAt == old(scheduledAt) && open == old(open)
    {
      if step != 1 {
        step := Max(1, step - 1);
      }
    }

    /** Next: disabled when the current step's gate fails or at step 4,
      otherwise `min(4, s + 1)`. */
    method Next(audienceSize: nat)
      modifies this
      ensures NextDisabled(old(step), name, templateId, audienceSize) ==> step == old(step)
      ensures !NextDisabled(old(step), name, templateId, audienceSize) ==> step == Min(4, old(step) + 1)
      ensures old(Valid()) ==> Valid()
      ensures step == old(step) + 1 ==>
        (old(step) == 1 ==> CanNext1(name)) && (old(step) == 2 ==> CanNext2(templateId))
        && (old(step) == 3 ==> CanNext3(audienceSize))
      ensures name == old(name) && templateId == old(templateId) && audStage == old(audStage)
        && audTag == old(audTag) && mode == old(mode) && scheduledAt == old(scheduledAt) && open == old(open)
    {
      if !NextDisabled(step, name, templateId, audienceSize) {
        step := Min(4, step + 1);
      }
    }

    method SetName(v: string)
      modifies this
      ensures name == v
      ensures step == old(step) && templateId == old(templateId) && audStage == old(audStage)
        && audTag == old(audTag) && mode == old(mode) && scheduledAt == old(scheduledAt) && open == old(open)
    {
      name := v;
    }

    method SetTemplate(v: string)
      modifies this
      ensures templateId == v
      ensures step == old(step) && name == old(name) && audStage == old(audStage)
        && audTag == old(audTag) && mode == old(mode) && scheduledAt == old(scheduledAt) && open == old(open)
    {
      templateId := v;
    }

    method SetAudStage(v: string)
      modifies this
      ensures audStage == v
      ensures step == old(step) && name == old(name) && templateId == old(templateId)
        && audTag == old(audTag) && mode == old(mode) && scheduledAt == old(scheduledAt) && open == old(open)
    {
      audStage := v;
    }

    /** The tag select: its "all" entry clears the filter. */
    method SetAudTag(v: string)
      modifies this
      ensures audTag == (if v == "all" then "" else v)
      ensures step == old(step) && name == old(name) && templateId == old(templateId)
        && audStage == old(audStage) && mode == old(mode) && scheduledAt == old(scheduledAt) && open == old(open)
    {
      audTag := if v == "all" then "" else v;
    }

    method SetMode(v: ScheduleMode)
      modifies this
      ensures mode == v
      ensures step == old(step) && name == old(name) && templateId == old(templateId)
        && audStage == old(audStage) && audTag == old(audTag) && scheduledAt == old(scheduledAt) && open == old(open)
    {
      mode := v;
    }

    method SetScheduledAt(v: string)
      modifies this
      ensures scheduledAt == v
      ensures step == old(step) && name == old(name) && templateId == old(templateId)
        && audStage == old(audStage) && audTag == old(audTag) && mode == old(mode) && open == old(open)
    {
      scheduledAt := v;
    }

    /** createOrSchedule: the payload it sends, and on success the drawer
      closes and the builder resets. */
    method CreateOrSchedule(succeeded: bool) returns (p: Payload)
      modifies this
      ensures p == CampaignPayload(old(name), old(templateId), old(mode), old(scheduledAt))
      ensures succeeded ==> Initial() && !open
      ensures !succeeded ==> (step == old(step) && name == old(name) && templateId == old(templateId)
        && audStage == old(audStage) && audTag == old(audTag) && mode == old(mode) && scheduledAt == old(scheduledAt) && open == old(open))
      ensures old(Valid()) ==> Valid()
    {
      p := CampaignPayload(name, templateId, mode, scheduledAt);
      if succeeded {
        open := false;
        Reset();
      }
    }
  }

  /** The builder's tag index holds at most 40 tags. */
  const BroadcastTagCap: nat := 40

  method BroadcastTagIndex(contacts: seq<Contact>) returns (index: seq<string>)
    ensures |index| <= BroadcastTagCap
    ensures TagIndex.NoDuplicates(index) && TagIndex.Sorted(index)
    ensures forall t :: t in index ==> TagIndex.SeenIn(contacts, |contacts|, t)
    ensures forall t :: TagIndex.SeenIn(contacts, |contacts|, t) && t !in index ==>
      |index| == BroadcastTagCap && forall i :: 0 <= i < |index| ==> TagIndex.StrLe(index[i], t)
  {
    index := TagIndex.TagsIndex(contacts, BroadcastTagCap);
  }

  function Max(a: int, b: int): int {
    if a >= b then a else b
  }

  function Min(a: int, b: int): int {
    if a <= b then a else b
  }
}
