/** The fixed pipeline stages and the contact record the pages work with. */
module Schema {
  import opened Common

  /** The ordered stage list: New, Engaged, Interested, Paid, Lost. */
  datatype Stage = New | Engaged | Interested | Paid | Lost {
    function Name(): string {
      match this
      case New => "New"
      case Engaged => "Engaged"
      case Interested => "Interested"
      case Paid => "Paid"
      case Lost => "Lost"
    }
  }

  const Stages: seq<Stage> := [New, Engaged, Interested, Paid, Lost]

  /** The stage names in list order, as the pages iterate them. */
  const StageNames: seq<string> := ["New", "Engaged", "Interested", "Paid", "Lost"]

  function StageOf(name: string): (r: Option<Stage>)
    ensures r.Some? ==> r.value.Name() == name
    ensures r.None? ==> name !in StageNames
  {
    if name == "New" then Some(New)
    else if name == "Engaged" then Some(Engaged)
    else if name == "Interested" then Some(Interested)
    else if name == "Paid" then Some(Paid)
    else if name == "Lost" then Some(Lost)
    else None
  }

  lemma StageNamesMatch()
    ensures |StageNames| == |Stages| == 5
    ensures forall i :: 0 <= i < 5 ==> StageNames[i] == Stages[i].Name()
    ensures forall i, j :: 0 <= i < j < 5 ==> StageNames[i] != StageNames[j]
  {
  }

  lemma StageNameRoundTrip(s: Stage)
    ensures StageOf(s.Name()) == Some(s)
    ensures s.Name() in StageNames
  {
  }

  /** A contact as the pages read it. `stage` may be missing (None) or
      empty; `tags` may be missing; `lastActiveAt` is an abstract ordered
      key standing for the activity timestamp. */
  datatype Contact = Contact(
    id: int,
    name: string,
    phone: string,
    email: Option<string>,
    stage: Option<string>,
    tags: Option<seq<string>>,
    lastActiveAt: int
  )

  /** `c.tags || []` */
  function TagsOf(c: Contact): seq<string> {
    if c.tags.Some? then c.tags.value else []
  }
}
