/** The contacts page: the editor's comma-separated tag field and save
    guard, the tags cell with its overflow badge, the filter state, and the
    filters it hands to the contacts query. */
module ContactsPage {
  import opened Common
  import opened Schema
  import Query
  import TagIndex

  // ---------------------------------------------------------------------
  // Tag parsing
  // ---------------------------------------------------------------------

  /** The most tags the editor keeps. */
  const MaxTags: nat := 12

  /** .map(s => s.trim()) */
  function TrimAll(parts: seq<string>): (r: seq<string>)
    ensures |r| == |parts|
    ensures forall i :: 0 <= i < |r| ==> r[i] == Trim(parts[i])
  {
    seq(|parts|, i requires 0 <= i < |parts| => Trim(parts[i]))
  }

  /** .filter(Boolean): the non-empty strings, in order. */
  function NonEmpty(parts: seq<string>): (r: seq<string>)
    ensures forall x :: x in r ==> x in parts && x != ""
    decreases |parts|
  {
    if |parts| == 0 then []
    else (if parts[0] != "" then [parts[0]] else []) + NonEmpty(parts[1..])
  }

  /** .slice(0, n) */
  function Take(xs: seq<string>, n: nat): (r: seq<string>)
    ensures |r| == (if |xs| <= n then |xs| else n) && r == xs[..|r|]
    ensures |xs| <= n ==> r == xs
  {
    if |xs| <= n then xs else xs[..n]
  }

  /** A piece as trim leaves it: empty, or without whitespace at either
      end; and free of commas. */
  predicate TrimmedPiece(p: string) {
    (p == [] || (!IsWs(p[0]) && !IsWs(p[|p| - 1]))) && ',' !in p
  }

  /** A tag as the editor keeps it: non-empty, trimmed, free of commas. */
  predicate CleanTag(t: string) {
    t != "" && TrimmedPiece(t)
  }

  /** The filter works piece by piece: filtering a concatenation is
      concatenating the filtered halves, so the kept pieces stay in input
      order. */
  lemma {:induction false} NonEmptyConcat(a: seq<string>, b: seq<string>)
    ensures NonEmpty(a + b) == NonEmpty(a) + NonEmpty(b)
    decreases |a|
  {
    if |a| > 0 {
      var head := if a[0] != "" then [a[0]] else [];
      assert (a + b)[0] == a[0];
      assert (a + b)[1..] == a[1..] + b;
      NonEmptyConcat(a[1..], b);
      calc {
        NonEmpty(a + b);
        head + NonEmpty(a[1..] + b);
        head + (NonEmpty(a[1..]) + NonEmpty(b));
        (head + NonEmpty(a[1..])) + NonEmpty(b);
        NonEmpty(a) + NonEmpty(b);
      }
    } else {
      assert a + b == b;
    }
  }

  /** A piece is kept exactly when it is a non-empty piece of the input. */
  lemma {:induction false} NonEmptyMembers(parts: seq<string>, x: string)
    ensures x in NonEmpty(parts) <==> x in parts && x != ""
    decreases |parts|
  {
    if |parts| > 0 {
      NonEmptyMembers(parts[1..], x);
      assert parts == [parts[0]] + parts[1..];
    }
  }

  /** Without empty pieces nothing is dropped. */
  lemma {:induction false} NonEmptyKeepsAll(parts: seq<string>)
    requires forall i :: 0 <= i < |parts| ==> parts[i] != ""
    ensures NonEmpty(parts) == parts
    decreases |parts|
  {
    if |parts| > 0 {
      var tail := parts[1..];
      assert forall i :: 0 <= i < |tail| ==> tail[i] == parts[i + 1];
      NonEmptyKeepsAll(tail);
      assert NonEmpty(parts) == [parts[0]] + tail;
      assert [parts[0]] + tail == parts;
    }
  }

  /** The editor's tags: split on commas, trim, drop empties, keep 12. */
  function ParseTags(raw: string): seq<string> {
    Take(NonEmpty(TrimAll(Split(raw, ','))), MaxTags)
  }

  /** The parsed tags are the first (at most 12) of the non-empty trimmed
      pieces, in input order; each is non-empty, trimmed and free of
      commas. */
  lemma ParseTagsClean(raw: string)
    ensures var kept := NonEmpty(TrimAll(Split(raw, ',')));
      ParseTags(raw) == kept[..if |kept| <= MaxTags then |kept| else MaxTags]
    ensures |ParseTags(raw)| <= MaxTags
    ensures forall i :: 0 <= i < |ParseTags(raw)| ==> CleanTag(ParseTags(raw)[i])
  {
    var pieces := Split(raw, ',');
    var parts := TrimAll(pieces);
    forall i | 0 <= i < |parts| ensures TrimmedPiece(parts[i]) {
      TrimKeepsOut(pieces[i], ',');
    }
    var kept := NonEmpty(parts);
    var tags := Take(kept, MaxTags);
    forall i | 0 <= i < |tags| ensures CleanTag(tags[i]) {
      assert tags[i] == kept[i];
      assert kept[i] in kept;
    }
  }

  /** Trimming removes characters and adds none. */
  lemma TrimKeepsOut(s: string, c: char)
    requires c !in s
    ensures c !in Trim(s)
  {
    var t := TrimStart(s);
    assert forall x :: x in t ==> x in s;
    assert forall x :: x in TrimEnd(t) ==> x in t;
  }

  /** The pieces a split of `tags.join(", ")` on commas produces. */
  function Spaced(tags: seq<string>): seq<string>
    requires |tags| >= 1
  {
    [tags[0]] + seq(|tags| - 1, i requires 0 <= i < |tags| - 1 => " " + tags[i + 1])
  }

  lemma {:induction false} JoinSpaced(tags: seq<string>)
    requires |tags| >= 1
    ensures Join(Spaced(tags), [',']) == Join(tags, ", ")
    decreases |tags|
  {
    if |tags| >= 2 {
      var rest := tags[1..];
      var sp := Spaced(tags);
      var sr := Spaced(rest);
      assert sp[1..] == [" " + rest[0]] + sr[1..];
      assert sr == [rest[0]] + sr[1..];
      calc {
        Join(sp, [',']);
        sp[0] + [','] + Join(sp[1..], [',']);
        tags[0] + [','] + Join([" " + rest[0]] + sr[1..], [',']);
        { JoinSpaceFront(rest[0], sr[1..], [',']); }
        tags[0] + [','] + (" " + Join([rest[0]] + sr[1..], [',']));
        tags[0] + [','] + (" " + Join(sr, [',']));
        { JoinSpaced(rest); }
        tags[0] + [','] + (" " + Join(rest, ", "));
        { ConcatSpaced(tags[0], Join(rest, ", ")); }
        tags[0] + ", " + Join(rest, ", ");
        Join(tags, ", ");
      }
    }
  }

  /** A space in front of the first piece is a space in front of the join. */
  lemma JoinSpaceFront(x: string, ys: seq<string>, sep: string)
    ensures Join([" " + x] + ys, sep) == " " + Join([x] + ys, sep)
  {
    if |ys| > 0 {
      assert ([" " + x] + ys)[1..] == ys;
      assert ([x] + ys)[1..] == ys;
    }
  }

  lemma ConcatSpaced(a: string, b: string)
    ensures a + [','] + (" " + b) == a + ", " + b
  {
  }


  /** A clean tag behind one space trims back to itself. */
  lemma TrimLeadingSpace(t: string)
    requires CleanTag(t)
    ensures Trim(" " + t) == t
  {
    TrimOfTrimmed(t);
    var s := " " + t;
    assert s[1..] == t;
    assert TrimStart(s) == TrimStart(t);
    assert !IsWs(t[0]) && !IsWs(t[|t| - 1]);
    assert TrimStart(t) == t;
  }

  lemma SpacedCommaFree(tags: seq<string>)
    requires |tags| >= 1
    requires forall i :: 0 <= i < |tags| ==> CleanTag(tags[i])
    ensures forall i :: 0 <= i < |Spaced(tags)| ==> ',' !in Spaced(tags)[i]
  {
    var sp := Spaced(tags);
    forall i | 0 <= i < |sp| ensures ',' !in sp[i] {
      if i > 0 {
        assert sp[i] == " " + tags[i];
        assert forall x :: x in sp[i] ==> x == ' ' || x in tags[i];
      }
    }
  }

  lemma SpacedTrimAt(tags: seq<string>, i: int)
    requires 0 <= i < |tags|
    requires CleanTag(tags[i])
    ensures Trim(Spaced(tags)[i]) == tags[i]
  {
    if i == 0 {
      assert Spaced(tags)[0] == tags[0];
      TrimOfTrimmed(tags[0]);
    } else {
      assert Spaced(tags)[i] == " " + tags[i];
      TrimLeadingSpace(tags[i]);
    }
  }

  lemma SpacedTrimsBack(tags: seq<string>)
    requires |tags| >= 1
    requires forall i :: 0 <= i < |tags| ==> CleanTag(tags[i])
    ensures TrimAll(Spaced(tags)) == tags
  {
    var parts := TrimAll(Spaced(tags));
    assert |parts| == |tags|;
    forall i | 0 <= i < |tags| ensures parts[i] == tags[i] {
      SpacedTrimAt(tags, i);
    }
  }

  /** Splitting `tags.join(", ")` on commas gives the spaced pieces. */
  lemma SplitOfJoined(tags: seq<string>)
    requires |tags| >= 1
    requires forall i :: 0 <= i < |tags| ==> CleanTag(tags[i])
    ensures Split(Join(tags, ", "), ',') == Spaced(tags)
  {
    SpacedCommaFree(tags);
    SplitJoin(Spaced(tags), ',');
    JoinSpaced(tags);
  }

  /** The editor's initial text parses back to the contact's tags when they
      are clean and at most 12. */
  lemma ParseJoinRoundTrip(tags: seq<string>)
    requires |tags| <= MaxTags
    requires forall i :: 0 <= i < |tags| ==> CleanTag(tags[i])
    ensures ParseTags(Join(tags, ", ")) == tags
  {
    if |tags| == 0 {
      assert Join(tags, ", ") == "";
      ParseEmpty();
    } else {
      ParseJoinNonEmpty(tags);
    }
  }

  lemma ParseJoinNonEmpty(tags: seq<string>)
    requires 1 <= |tags| <= MaxTags
    requires forall i :: 0 <= i < |tags| ==> CleanTag(tags[i])
    ensures ParseTags(Join(tags, ", ")) == tags
  {
    var pieces := Spaced(tags);
    SplitOfJoined(tags);
    SpacedTrimsBack(tags);
    NonEmptyOfClean(tags);
    ParseTagsVia(Join(tags, ", "), pieces, tags);
  }

  /** ParseTags, one stage at a time. */
  lemma ParseTagsVia(raw: string, pieces: seq<string>, tags: seq<string>)
    requires Split(raw, ',') == pieces && TrimAll(pieces) == tags && NonEmpty(tags) == tags
    requires |tags| <= MaxTags
    ensures ParseTags(raw) == tags
  {
  }

  lemma NonEmptyOfClean(tags: seq<string>)
    requires forall i :: 0 <= i < |tags| ==> CleanTag(tags[i])
    ensures NonEmpty(tags) == tags
  {
    NonEmptyKeepsAll(tags);
  }

  /** An empty text gives no tags. */
  lemma ParseEmpty()
    ensures ParseTags("") == []
  {
    assert Split("", ',') == [""];
    assert TrimAll([""]) == [""];
    assert NonEmpty([""]) == [];
  }

  // ---------------------------------------------------------------------
  // The editor
  // ---------------------------------------------------------------------

  /** The fields of the contact an editor starts from, each possibly missing. */
  datatype InitialContact = InitialContact(name: Option<string>, phone: Option<string>, stage: Option<string>, tags: Option<seq<string>>)

  datatype EditorState = EditorState(name: string, phone: string, stage: string, tagsRaw: string)

  /** The editor's useState defaults. */
  function EditorDefaults(initial: Option<InitialContact>): (e: EditorState)
    ensures initial.None? ==> e == EditorState("", "", "New", "")
    ensures initial.Some? ==> var c := initial.value;
      && (c.name.Some? ==> e.name == c.name.value) && (c.name.None? ==> e.name == "")
      && (c.phone.Some? ==> e.phone == c.phone.value) && (c.phone.None? ==> e.phone == "")
      && (c.stage.Some? ==> e.stage == c.stage.value) && (c.stage.None? ==> e.stage == "New")
      && (c.tags.Some? ==> e.tagsRaw == Join(c.tags.value, ", ")) && (c.tags.None? ==> e.tagsRaw == "")
  {
    match initial
    case None => EditorState("", "", "New", "")
    case Some(c) =>
      EditorState(OrElse(c.name, ""), OrElse(c.phone, ""), OrElse(c.stage, "New"),
        if c.tags.Some? then Join(c.tags.value, ", ") else "")
  }

  /** Opening the editor on a contact with clean tags and saving without
      touching the field keeps its tags. */
  lemma EditKeepsTags(c: InitialContact)
    requires c.tags.Some? && |c.tags.value| <= MaxTags
    requires forall i :: 0 <= i < |c.tags.value| ==> CleanTag(c.tags.value[i])
    ensures ParseTags(EditorDefaults(Some(c)).tagsRaw) == c.tags.value
  {
    ParseJoinRoundTrip(c.tags.value);
  }

  /** The save button's disabled expression. */
  predicate SaveDisabled(saving: bool, name: string, phone: string) {
    saving || Blank(name) || Blank(phone)
  }

  datatype SavePayload = SavePayload(name: string, phone: string, stage: string, tags: seq<string>)

  /** onSave's argument: the raw name and phone (untrimmed) and the parsed tags. */
  function SaveData(e: EditorState): (p: SavePayload)
    ensures p.name == e.name && p.phone == e.phone && p.stage == e.stage
    ensures |p.tags| <= MaxTags && forall i :: 0 <= i < |p.tags| ==> CleanTag(p.tags[i])
  {
    ParseTagsClean(e.tagsRaw);
    SavePayload(e.name, e.phone, e.stage, ParseTags(e.tagsRaw))
  }

  /** Save is disabled exactly while saving or while the name or the phone
      is empty or spaces only. */
  lemma BlankFieldsDisableSave(saving: bool, name: string, phone: string)
    ensures SaveDisabled(saving, name, phone) <==> saving || AllWs(name) || AllWs(phone)
  {
  }

  // ---------------------------------------------------------------------
  // The tags cell
  // ---------------------------------------------------------------------

  /** What the tags cell shows: a dash, or up to four chips and a "+N"
      badge for the rest. */
  datatype TagsCell = Dash | Chips(shown: seq<string>, more: Option<nat>)

  function TagsCellOf(tags: seq<string>): (cell: TagsCell)
    ensures cell.Dash? <==> |tags| == 0
    ensures cell.Chips? ==> |cell.shown| <= 4 && |cell.shown| <= |tags| && cell.shown == tags[..|cell.shown|]
    ensures cell.Chips? ==> (cell.more.Some? <==> |tags| > 4)
    ensures cell.Chips? && cell.more.Some? ==> |cell.shown| + cell.more.value == |tags|
    ensures cell.Chips? && cell.more.None? ==> cell.shown == tags
    ensures cell.Chips? && |tags| > 4 ==> cell.shown == tags[..4] && cell.more == Some(|tags| - 4)
    ensures cell.Chips? && |tags| <= 4 ==> cell.shown == tags && cell.more.None?
  {
    if |tags| == 0 then Dash
    else Chips(if |tags| <= 4 then tags else tags[..4], if |tags| > 4 then Some(|tags| - 4) else None)
  }

  /** The row passes `c.tags || []`. */
  function RowTags(c: Contact): seq<string> {
    TagsOf(c)
  }

  // ---------------------------------------------------------------------
  // Filters
  // ---------------------------------------------------------------------

  /** The filters object given to useContacts; a field that is undefined
      is absent. */
  function QueryFilters(debounced: string, stage: string, tag: string): (f: map<string, string>)
    ensures "search" in f <==> debounced != ""
    ensures "stage" in f <==> stage != "all"
    ensures "tag" in f <==> tag != ""
    ensures "search" in f ==> f["search"] == debounced
    ensures "stage" in f ==> f["stage"] == stage
    ensures "tag" in f ==> f["tag"] == tag
    ensures f.Keys <= {"search", "stage", "tag"}
  {
    var a: map<string, string> := if debounced != "" then map["search" := debounced] else map[];
    var b := if stage != "all" then a["stage" := stage] else a;
    if tag != "" then b["tag" := tag] else b
  }

  /** The search, stage and tag filter state. */
  class Filters {
    var search: string
    var stage: string
    var tag: string

    constructor ()
      ensures search == "" && stage == "all" && tag == ""
    {
      search := "";
      stage := "all";
      tag := "";
    }

    /** Clear: back to no filtering. */
    method Clear()
      modifies this
      ensures search == "" && stage == "all" && tag == ""
      ensures QueryFilters(search, stage, tag) == map[]
    {
      search := "";
      stage := "all";
      tag := "";
    }

    method SetSearch(v: string)
      modifies this
      ensures search == v && stage == old(stage) && tag == old(tag)
    {
      search := v;
    }

    method SetStage(v: string)
      modifies this
      ensures stage == v && search == old(search) && tag == old(tag)
    {
      stage := v;
    }

    /** The tag select: "all" clears the tag filter. */
    method SelectTag(v: string)
      modifies this
      ensures tag == (if v == "all" then "" else v) && search == old(search) && stage == old(stage)
    {
      tag := if v == "all" then "" else v;
    }

    /** Clicking a chip in the tags cell filters by that tag. */
    method ClickTag(t: string)
      modifies this
      ensures tag == t && search == old(search) && stage == old(stage)
    {
      tag := t;
    }
  }

  /** The contacts query key for the current filters. */
  function ContactsQueryKey(debounced: string, stage: string, tag: string): (k: Query.QueryKey)
    ensures Query.Matches(Query.ContactsKey, k)
  {
    [Query.Text("contacts"), Query.Filters(QueryFilters(debounced, stage, tag))]
  }

  /** The page's tag index holds at most 30 tags. */
  const ContactsTagCap: nat := 30

  method ContactsTagIndex(contacts: seq<Contact>) returns (index: seq<string>)
    ensures |index| <= ContactsTagCap
    ensures TagIndex.NoDuplicates(index) && TagIndex.Sorted(index)
    ensures forall t :: t in index ==> TagIndex.SeenIn(contacts, |contacts|, t)
    ensures forall t :: TagIndex.SeenIn(contacts, |contacts|, t) && t !in index ==>
      |index| == ContactsTagCap && forall i :: 0 <= i < |index| ==> TagIndex.StrLe(index[i], t)
  {
    index := TagIndex.TagsIndex(contacts, ContactsTagCap);
  }
}
