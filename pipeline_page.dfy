/** The pipeline board: contacts grouped into stage columns (fixed stages
    first, each sorted most recent first), the drag state, and the guard on
    a drop with its undo move. */
module PipelinePage {
  import opened Common
  import opened Schema
  import PipelineHook
  import Json

  // ---------------------------------------------------------------------
  // What the page reads from the query
  // ---------------------------------------------------------------------

  /** The query data at run time: an array of contacts, or the stage-keyed
      record the hook declares. */
  datatype PipelineData = ArrayData(items: seq<Contact>) | RecordData(record: PipelineHook.PipelineResponse)

  /** `(q.data || [])` as the grouping code uses it: no data gives [], an
      array is used as it is, and a record has no forEach, so the grouping
      throws a TypeError (None). */
  function PageContacts(data: Option<PipelineData>): (r: Option<seq<Contact>>)
    ensures data.None? ==> r == Some([])
    ensures data.Some? && data.value.ArrayData? ==> r == Some(data.value.items)
    ensures data.Some? && data.value.RecordData? ==> r.None?
  {
    match data
    case None => Some([])
    case Some(ArrayData(items)) => Some(items)
    case Some(RecordData(_)) => None
  }

  // ---------------------------------------------------------------------
  // Most recent first
  // ---------------------------------------------------------------------

  predicate MostRecentFirst(cs: seq<Contact>) {
    forall i, j :: 0 <= i < j < |cs| ==> cs[i].lastActiveAt >= cs[j].lastActiveAt
  }

  /** Inserts c into a list ordered most recent first, ahead of the first
      entry that is not more recent than it. */
  function InsertByRecency(c: Contact, sorted: seq<Contact>): seq<Contact>
    decreases |sorted|
  {
    if |sorted| == 0 then [c]
    else if sorted[0].lastActiveAt <= c.lastActiveAt then [c] + sorted
    else [sorted[0]] + InsertByRecency(c, sorted[1..])
  }

  /** The order `(a.lastActiveAt < b.lastActiveAt ? 1 : -1)` asks for. */
  function SortByRecency(cs: seq<Contact>): seq<Contact>
    decreases |cs|
  {
    if |cs| == 0 then [] else InsertByRecency(cs[0], SortByRecency(cs[1..]))
  }

  /** A most recent entry in front of a most-recent-first list keeps it so. */
  lemma ConsByRecency(h: Contact, rest: seq<Contact>)
    requires MostRecentFirst(rest)
    requires forall i :: 0 <= i < |rest| ==> rest[i].lastActiveAt <= h.lastActiveAt
    ensures MostRecentFirst([h] + rest)
  {
    var l := [h] + rest;
    forall i, j | 0 <= i < j < |l| ensures l[i].lastActiveAt >= l[j].lastActiveAt {
      if i > 0 {
        assert l[i] == rest[i - 1] && l[j] == rest[j - 1];
      } else {
        assert l[j] == rest[j - 1];
      }
    }
  }

  lemma {:induction false} InsertByRecencyFacts(c: Contact, sorted: seq<Contact>)
    requires MostRecentFirst(sorted)
    ensures MostRecentFirst(InsertByRecency(c, sorted))
    ensures multiset(InsertByRecency(c, sorted)) == multiset(sorted) + multiset{c}
  {
    InsertByRecencyPerm(c, sorted);
    InsertByRecencyOrder(c, sorted);
  }

  /** Insertion adds exactly the one entry. */
  lemma {:induction false} InsertByRecencyPerm(c: Contact, sorted: seq<Contact>)
    ensures multiset(InsertByRecency(c, sorted)) == multiset(sorted) + multiset{c}
    decreases |sorted|
  {
    if |sorted| > 0 && sorted[0].lastActiveAt > c.lastActiveAt {
      InsertByRecencyPerm(c, sorted[1..]);
      assert sorted == [sorted[0]] + sorted[1..];
    }
  }

  /** Every entry of the inserted list is c or an entry of the list. */
  lemma InsertedFrom(c: Contact, sorted: seq<Contact>, i: int)
    requires 0 <= i < |InsertByRecency(c, sorted)|
    ensures InsertByRecency(c, sorted)[i] == c || exists m :: 0 <= m < |sorted| && sorted[m] == InsertByRecency(c, sorted)[i]
  {
    var l := InsertByRecency(c, sorted);
    InsertByRecencyPerm(c, sorted);
    assert l[i] in multiset(l);
    if l[i] != c {
      assert l[i] in multiset(sorted);
      assert l[i] in sorted;
    }
  }

  lemma {:induction false} InsertByRecencyOrder(c: Contact, sorted: seq<Contact>)
    requires MostRecentFirst(sorted)
    ensures MostRecentFirst(InsertByRecency(c, sorted))
    decreases |sorted|
  {
    if |sorted| == 0 {
    } else if sorted[0].lastActiveAt <= c.lastActiveAt {
      forall i | 0 <= i < |sorted| ensures sorted[i].lastActiveAt <= c.lastActiveAt {
        if i > 0 {
          assert sorted[0].lastActiveAt >= sorted[i].lastActiveAt;
        }
      }
      ConsByRecency(c, sorted);
    } else {
      var h := sorted[0];
      var tail := sorted[1..];
      assert MostRecentFirst(tail) by {
        forall i, j | 0 <= i < j < |tail| ensures tail[i].lastActiveAt >= tail[j].lastActiveAt {
          assert tail[i] == sorted[i + 1] && tail[j] == sorted[j + 1];
        }
      }
      var rest := InsertByRecency(c, tail);
      InsertByRecencyOrder(c, tail);
      forall i | 0 <= i < |rest| ensures rest[i].lastActiveAt <= h.lastActiveAt {
        InsertedFrom(c, tail, i);
        if rest[i] != c {
          var m :| 0 <= m < |tail| && tail[m] == rest[i];
          assert sorted[m + 1] == rest[i];
        }
      }
      ConsByRecency(h, rest);
    }
  }

  /** The sort yields a most-recent-first permutation of its input. */
  lemma {:induction false} SortByRecencyFacts(cs: seq<Contact>)
    ensures MostRecentFirst(SortByRecency(cs))
    ensures multiset(SortByRecency(cs)) == multiset(cs)
  {
    SortByRecencyOrder(cs);
    SortByRecencyPerm(cs);
  }

  lemma {:induction false} SortByRecencyOrder(cs: seq<Contact>)
    ensures MostRecentFirst(SortByRecency(cs))
    decreases |cs|
  {
    if |cs| > 0 {
      SortByRecencyOrder(cs[1..]);
      InsertByRecencyOrder(cs[0], SortByRecency(cs[1..]));
    }
  }

  lemma {:induction false} SortByRecencyPerm(cs: seq<Contact>)
    ensures multiset(SortByRecency(cs)) == multiset(cs)
    decreases |cs|
  {
    if |cs| > 0 {
      var h, t := cs[0], cs[1..];
      calc {
        multiset(SortByRecency(cs));
        multiset(InsertByRecency(h, SortByRecency(t)));
        { InsertByRecencyPerm(h, SortByRecency(t)); }
        multiset(SortByRecency(t)) + multiset{h};
        { SortByRecencyPerm(t); }
        multiset(t) + multiset{h};
        { assert cs == [h] + t; }
        multiset(cs);
      }
    }
  }

  // ---------------------------------------------------------------------
  // Grouping
  // ---------------------------------------------------------------------

  /** One entry of the columns Map: a stage name and its contacts. */
  datatype Bucket = Bucket(stage: string, contacts: seq<Contact>)

  /** `c.stage || "New"` */
  function StageKey(c: Contact): string {
    if c.stage.Some? && c.stage.value != "" then c.stage.value else "New"
  }

  /** The contacts whose stage key is s, in input order. */
  function Group(cs: seq<Contact>, s: string): seq<Contact>
    decreases |cs|
  {
    if |cs| == 0 then []
    else Group(cs[..|cs| - 1], s) + (if StageKey(cs[|cs| - 1]) == s then [cs[|cs| - 1]] else [])
  }

  lemma {:induction false} GroupMembers(cs: seq<Contact>, s: string)
    ensures forall x :: x in Group(cs, s) <==> x in cs && StageKey(x) == s
    decreases |cs|
  {
    if |cs| > 0 {
      var init := cs[..|cs| - 1];
      GroupMembers(init, s);
      assert cs == init + [cs[|cs| - 1]];
    }
  }

  /** A key that no contact has gets an empty group. */
  lemma {:induction false} GroupAbsent(cs: seq<Contact>, s: string)
    requires forall x :: x in cs ==> StageKey(x) != s
    ensures Group(cs, s) == []
    decreases |cs|
  {
    if |cs| > 0 {
      var init := cs[..|cs| - 1];
      assert forall x :: x in init ==> x in cs;
      GroupAbsent(init, s);
      assert cs[|cs| - 1] in cs;
    }
  }

  /** Appending a contact extends exactly its own key's group. */
  lemma GroupSnoc(cs: seq<Contact>, c: Contact, s: string)
    ensures Group(cs + [c], s) == Group(cs, s) + (if StageKey(c) == s then [c] else [])
  {
    assert (cs + [c])[..|cs|] == cs;
  }

  /** The stage keys outside the fixed list, in order of first appearance. */
  function Extra(cs: seq<Contact>): seq<string>
    decreases |cs|
  {
    if |cs| == 0 then []
    else
      var e := Extra(cs[..|cs| - 1]);
      var k := StageKey(cs[|cs| - 1]);
      if k in StageNames || k in e then e else e + [k]
  }

  /** The keys of the columns Map in insertion order. */
  function Keys(cs: seq<Contact>): seq<string> {
    StageNames + Extra(cs)
  }

  predicate Distinct(ks: seq<string>) {
    forall i, j :: 0 <= i < j < |ks| ==> ks[i] != ks[j]
  }

  lemma {:induction false} ExtraFacts(cs: seq<Contact>)
    ensures Distinct(Extra(cs))
    ensures forall e :: e in Extra(cs) ==> e !in StageNames
    ensures forall x :: x in cs ==> StageKey(x) in Keys(cs)
    decreases |cs|
  {
    if |cs| > 0 {
      var init := cs[..|cs| - 1];
      ExtraFacts(init);
      assert cs == init + [cs[|cs| - 1]];
    }
  }

  lemma KeysDistinct(cs: seq<Contact>)
    ensures Distinct(Keys(cs))
    ensures forall x :: x in cs ==> StageKey(x) in Keys(cs)
  {
    ExtraFacts(cs);
    StageNamesMatch();
    var K := Keys(cs);
    forall i, j | 0 <= i < j < |K| ensures K[i] != K[j] {
      if j >= |StageNames| && i < |StageNames| {
        assert K[j] in Extra(cs);
        assert K[i] in StageNames;
      }
    }
  }

  /** The columns Map after the grouping loop, before any sorting. */
  function Grouped(cs: seq<Contact>): (g: seq<Bucket>)
    ensures |g| == |Keys(cs)|
  {
    var K := Keys(cs);
    seq(|K|, i requires 0 <= i < |K| => Bucket(K[i], Group(cs, K[i])))
  }

  /** The columns Map the page computes: the fixed stages' lists sorted. */
  function ColumnsOf(cs: seq<Contact>): (cols: seq<Bucket>)
    ensures |cols| == |Keys(cs)|
  {
    var K := Keys(cs);
    seq(|K|, i requires 0 <= i < |K| =>
      Bucket(K[i], if i < |StageNames| then SortByRecency(Group(cs, K[i])) else Group(cs, K[i])))
  }

  /** map.has(s) / map.get(s): the position of the key, or -1. */
  function BucketIndex(cols: seq<Bucket>, s: string): (k: int)
    ensures -1 <= k < |cols|
    ensures k >= 0 ==> cols[k].stage == s && forall j :: 0 <= j < k ==> cols[j].stage != s
    ensures k == -1 ==> forall j :: 0 <= j < |cols| ==> cols[j].stage != s
    decreases |cols|
  {
    if |cols| == 0 then -1
    else if cols[0].stage == s then 0
    else
      var k := BucketIndex(cols[1..], s);
      if k == -1 then -1 else k + 1
  }

  /** One pass of the grouping loop: the contact goes to the end of its
      key's list, which is created (as the last key) when missing. */
  lemma GroupedStep(cs: seq<Contact>, c: Contact)
    ensures
      var g := Grouped(cs);
      var k := BucketIndex(g, StageKey(c));
      && (k >= 0 ==> Grouped(cs + [c]) == g[k := Bucket(StageKey(c), g[k].contacts + [c])])
      && (k < 0 ==> Grouped(cs + [c]) == g + [Bucket(StageKey(c), [c])])
  {
    var s := StageKey(c);
    var cs' := cs + [c];
    assert cs'[..|cs'| - 1] == cs;
    var g := Grouped(cs);
    var g' := Grouped(cs');
    var K := Keys(cs);
    KeysDistinct(cs);
    var k := BucketIndex(g, s);
    if k >= 0 {
      assert s in K by { assert K[k] == s; }
      assert Keys(cs') == K;
      var u := g[k := Bucket(s, g[k].contacts + [c])];
      forall i | 0 <= i < |K| ensures g'[i] == u[i] {
        GroupSnoc(cs, c, K[i]);
      }
    } else {
      assert s !in K by {
        forall i | 0 <= i < |K| ensures K[i] != s { assert g[i].stage == K[i]; }
      }
      assert Keys(cs') == K + [s];
      GroupAbsent(cs, s);
      var u := g + [Bucket(s, [c])];
      forall i | 0 <= i < |u| ensures g'[i] == u[i] {
        GroupSnoc(cs, c, (K + [s])[i]);
      }
    }
  }

  /** The grouping and sorting of the columns memo. */
  method Columns(contacts: seq<Contact>) returns (cols: seq<Bucket>)
    ensures cols == ColumnsOf(contacts)
  {
    cols := GroupContacts(contacts);
    var i := 0;
    while i < |StageNames|
      invariant 0 <= i <= |StageNames|
      invariant |cols| == |Keys(contacts)|
      invariant forall k :: 0 <= k < |cols| ==>
        cols[k] == (if k < i then ColumnsOf(contacts)[k] else Grouped(contacts)[k])
    {
      cols := cols[i := Bucket(StageNames[i], SortByRecency(cols[i].contacts))];
      i := i + 1;
    }
  }

  /** One pass of the grouping loop: `map.set(s, [])` when the key is
      missing, then `map.get(s).push(c)`. */
  method PushContact(cols: seq<Bucket>, s: string, c: Contact) returns (next: seq<Bucket>)
    ensures var k := BucketIndex(cols, s);
      && (k >= 0 ==> next == cols[k := Bucket(s, cols[k].contacts + [c])])
      && (k < 0 ==> next == cols + [Bucket(s, [c])])
  {
    next := cols;
    var k := BucketIndex(next, s);
    if k < 0 {
      next := next + [Bucket(s, [])];
      k := |next| - 1;
      SetAppended(cols, Bucket(s, []), Bucket(s, [c]));
      assert [] + [c] == [c];
    }
    next := next[k := Bucket(s, next[k].contacts + [c])];
  }

  /** Setting the entry just appended is appending the new one. */
  lemma SetAppended(g: seq<Bucket>, b: Bucket, b': Bucket)
    ensures (g + [b])[|g| := b'] == g + [b']
  {
  }

  /** The memo's first loop: an empty list for each fixed stage, in order. */
  method FixedBuckets() returns (cols: seq<Bucket>)
    ensures cols == Grouped([])
  {
    cols := [];
    var i := 0;
    while i < |StageNames|
      invariant 0 <= i <= |StageNames|
      invariant |cols| == i
      invariant forall k :: 0 <= k < i ==> cols[k] == Bucket(StageNames[k], [])
    {
      cols := cols + [Bucket(StageNames[i], [])];
      i := i + 1;
    }
    assert cols == Grouped([]);
  }

  /** The memo's first two loops: an empty list per fixed stage, then each
      contact pushed onto its stage's list, the list created when missing. */
  method GroupContacts(contacts: seq<Contact>) returns (cols: seq<Bucket>)
    ensures cols == Grouped(contacts)
  {
    cols := FixedBuckets();
    var j := 0;
    while j < |contacts|
      invariant 0 <= j <= |contacts|
      invariant cols == Grouped(contacts[..j])
    {
      var c := contacts[j];
      GroupedStep(contacts[..j], c);
      cols := PushContact(cols, StageKey(c), c);
      assert contacts[..j + 1] == contacts[..j] + [c];
      j := j + 1;
    }
    assert contacts[..|contacts|] == contacts;
  }

  // ---------------------------------------------------------------------
  // What the grouping guarantees
  // ---------------------------------------------------------------------

  /** Every fixed stage has its column, in list order, and the column is
      empty when no contact has that stage. */
  lemma FixedColumns(cs: seq<Contact>)
    ensures |ColumnsOf(cs)| >= |StageNames|
    ensures forall i :: 0 <= i < |StageNames| ==> ColumnsOf(cs)[i].stage == StageNames[i]
    ensures forall i :: 0 <= i < |StageNames| && (forall x :: x in cs ==> StageKey(x) != StageNames[i]) ==>
      ColumnsOf(cs)[i].contacts == []
  {
    forall i | 0 <= i < |StageNames| && (forall x :: x in cs ==> StageKey(x) != StageNames[i])
      ensures ColumnsOf(cs)[i].contacts == []
    {
      var g := Group(cs, StageNames[i]);
      GroupMembers(cs, StageNames[i]);
      if g != [] {
        assert g[0] in g;
      }
    }
  }

  /** A contact lies in a column exactly when the column's stage is its
      stage key; since the keys are distinct, that is one column only. */
  lemma ColumnContents(cs: seq<Contact>, k: int)
    requires 0 <= k < |ColumnsOf(cs)|
    ensures Distinct(Keys(cs))
    ensures forall x :: x in ColumnsOf(cs)[k].contacts <==> x in cs && StageKey(x) == ColumnsOf(cs)[k].stage
  {
    KeysDistinct(cs);
    var g := Group(cs, Keys(cs)[k]);
    SortByRecencyFacts(g);
    GroupMembers(cs, Keys(cs)[k]);
    var col := ColumnsOf(cs)[k].contacts;
    assert multiset(col) == multiset(g);
    forall x ensures x in col <==> x in g {
      assert x in col <==> x in multiset(col);
      assert x in g <==> x in multiset(g);
    }
  }

  /** Each fixed column is sorted most recent first. */
  lemma ColumnsSorted(cs: seq<Contact>, k: int)
    requires 0 <= k < |StageNames|
    ensures MostRecentFirst(ColumnsOf(cs)[k].contacts)
  {
    SortByRecencyFacts(Group(cs, Keys(cs)[k]));
  }

  /** Every contact has a column: the one of its stage key. */
  lemma EveryContactHasColumn(cs: seq<Contact>, x: Contact)
    requires x in cs
    ensures BucketIndex(ColumnsOf(cs), StageKey(x)) >= 0
    ensures x in ColumnsOf(cs)[BucketIndex(ColumnsOf(cs), StageKey(x))].contacts
  {
    KeysDistinct(cs);
    var cols := ColumnsOf(cs);
    var K := Keys(cs);
    var i :| 0 <= i < |K| && K[i] == StageKey(x);
    assert cols[i].stage == StageKey(x);
    ColumnContents(cs, BucketIndex(cols, StageKey(x)));
  }

  /** A contact without a stage (missing or empty) is in the "New" column. */
  lemma StagelessGoesToNew(cs: seq<Contact>, c: Contact)
    requires c in cs
    requires c.stage.None? || c.stage == Some("")
    ensures ColumnsOf(cs)[0].stage == "New"
    ensures c in ColumnsOf(cs)[0].contacts
  {
    ColumnContents(cs, 0);
  }

  /** All the contacts of the columns, as a bag. */
  function Bag(cols: seq<Bucket>): multiset<Contact>
    decreases |cols|
  {
    if |cols| == 0 then multiset{} else Bag(cols[..|cols| - 1]) + multiset(cols[|cols| - 1].contacts)
  }

  /** Appending to one column adds exactly that contact to the bag. */
  lemma {:induction false} BagAppendTo(cols: seq<Bucket>, k: int, b: Bucket, c: Contact)
    requires 0 <= k < |cols|
    requires b.contacts == cols[k].contacts + [c]
    ensures Bag(cols[k := b]) == Bag(cols) + multiset{c}
    decreases |cols|
  {
    var u := cols[k := b];
    var init := cols[..|cols| - 1];
    var L := multiset(cols[|cols| - 1].contacts);
    if k < |cols| - 1 {
      assert u[..|u| - 1] == init[k := b];
      assert u[|u| - 1] == cols[|cols| - 1];
      BagAppendTo(init, k, b, c);
      calc {
        Bag(u);
        Bag(init[k := b]) + L;
        (Bag(init) + multiset{c}) + L;
        (Bag(init) + L) + multiset{c};
      }
    } else {
      assert u[..|u| - 1] == init;
      assert multiset(b.contacts) == L + multiset{c};
    }
  }

  lemma {:induction false} BagPointwise(a: seq<Bucket>, b: seq<Bucket>)
    requires |a| == |b|
    requires forall i :: 0 <= i < |a| ==> multiset(a[i].contacts) == multiset(b[i].contacts)
    ensures Bag(a) == Bag(b)
    decreases |a|
  {
    if |a| > 0 {
      BagPointwise(a[..|a| - 1], b[..|b| - 1]);
    }
  }

  lemma GroupedBagEmpty()
    ensures Bag(Grouped([])) == multiset{}
  {
    var g := Grouped([]);
    forall i | 0 <= i < |g| ensures g[i].contacts == [] { }
    BagOfEmpty(g);
  }

  lemma GroupedBagSnoc(cs: seq<Contact>, c: Contact)
    ensures Bag(Grouped(cs + [c])) == Bag(Grouped(cs)) + multiset{c}
  {
    GroupedStep(cs, c);
    var g := Grouped(cs);
    var g' := Grouped(cs + [c]);
    var k := BucketIndex(g, StageKey(c));
    if k >= 0 {
      var b := Bucket(StageKey(c), g[k].contacts + [c]);
      assert g' == g[k := b];
      BagAppendTo(g, k, b, c);
    } else {
      var n := g + [Bucket(StageKey(c), [c])];
      assert g' == n;
      assert n[..|n| - 1] == g;
      assert Bag(n) == Bag(g) + multiset([c]);
    }
  }

  lemma {:induction false} GroupedBag(cs: seq<Contact>)
    ensures Bag(Grouped(cs)) == multiset(cs)
    decreases |cs|
  {
    if |cs| == 0 {
      GroupedBagEmpty();
    } else {
      var init := cs[..|cs| - 1];
      var c := cs[|cs| - 1];
      assert cs == init + [c];
      GroupedBag(init);
      GroupedBagSnoc(init, c);
    }
  }

  lemma {:induction false} BagOfEmpty(cols: seq<Bucket>)
    requires forall i :: 0 <= i < |cols| ==> cols[i].contacts == []
    ensures Bag(cols) == multiset{}
    decreases |cols|
  {
    if |cols| > 0 {
      BagOfEmpty(cols[..|cols| - 1]);
    }
  }

  /** The columns together hold exactly the input contacts, each as often
      as it occurs in the input. */
  lemma ColumnsPartition(cs: seq<Contact>)
    ensures Bag(ColumnsOf(cs)) == multiset(cs)
  {
    GroupedBag(cs);
    var a := ColumnsOf(cs);
    var g := Grouped(cs);
    forall i | 0 <= i < |a| ensures multiset(a[i].contacts) == multiset(g[i].contacts) {
      SortByRecencyFacts(g[i].contacts);
    }
    BagPointwise(a, g);
  }

  // ---------------------------------------------------------------------
  // Rendering
  // ---------------------------------------------------------------------

  /** `stages.map(s => columns.get(s) || [])`: only the fixed stages are
      drawn. */
  function Rendered(cols: seq<Bucket>): (r: seq<seq<Contact>>)
    ensures |r| == |StageNames|
  {
    seq(|StageNames|, i requires 0 <= i < |StageNames| =>
      var k := BucketIndex(cols, StageNames[i]);
      if k >= 0 then cols[k].contacts else [])
  }

  /** The board draws the five fixed columns; a contact whose stage is
      outside the fixed list sits in an extra column and is drawn nowhere. */
  lemma RenderedBoard(cs: seq<Contact>)
    ensures forall i :: 0 <= i < |StageNames| ==> Rendered(ColumnsOf(cs))[i] == ColumnsOf(cs)[i].contacts
    ensures forall c :: c in cs && StageKey(c) !in StageNames ==>
      BucketIndex(ColumnsOf(cs), StageKey(c)) >= |StageNames| &&
      forall i :: 0 <= i < |StageNames| ==> c !in Rendered(ColumnsOf(cs))[i]
  {
    var cols := ColumnsOf(cs);
    FixedColumns(cs);
    forall c | c in cs && StageKey(c) !in StageNames
      ensures BucketIndex(cols, StageKey(c)) >= |StageNames|
      ensures forall i :: 0 <= i < |StageNames| ==> c !in cols[i].contacts
    {
      EveryContactHasColumn(cs, c);
      forall i | 0 <= i < |StageNames| ensures c !in cols[i].contacts {
        ColumnContents(cs, i);
      }
    }
    StageNamesMatch();
    forall i | 0 <= i < |StageNames| ensures BucketIndex(cols, StageNames[i]) == i {
      assert forall j :: 0 <= j < i ==> cols[j].stage != StageNames[i];
    }
  }

  // ---------------------------------------------------------------------
  // Drag and drop
  // ---------------------------------------------------------------------

  /** The drag in progress: the card's id and its raw `stage` field, which
      may be missing. */
  datatype Drag = Drag(contactId: int, from: Option<string>)

  /** The object the page passes to mutate: `{ id, stage }`. */
  datatype PageMove = PageMove(id: int, stage: Option<string>)

  /** onDropStage's guard: nothing without a drag or onto the stage the card
      came from; otherwise a move of the dragged contact to the target. */
  function DropMove(drag: Option<Drag>, target: Stage): (m: Option<PageMove>)
    ensures m.None? <==> drag.None? || drag.value.from == Some(target.Name())
    ensures m.Some? ==> m.value == PageMove(drag.value.contactId, Some(target.Name()))
  {
    if drag.None? then None
    else if drag.value.from == Some(target.Name()) then None
    else Some(PageMove(drag.value.contactId, Some(target.Name())))
  }

  /** The move the toast's Undo button issues: the same contact, back to
      the stage it was dragged from. */
  function UndoMove(d: Drag): (m: PageMove)
    ensures m.id == d.contactId && m.stage == d.from
  {
    PageMove(d.contactId, d.from)
  }

  /** A card whose stage is missing or empty sits in the "New" column, yet
      dropping it back onto "New" still issues a move: the guard compares
      the raw field. */
  lemma StagelessDropOntoNewMoves(id: int, from: Option<string>)
    requires from.None? || from == Some("")
    ensures DropMove(Some(Drag(id, from)), New) == Some(PageMove(id, Some("New")))
  {
  }

  /** The hook reads `input.contactId`, which the page's `{ id, stage }`
      does not have; the stage is passed through, undefined when the card's
      stage was missing. */
  function HookInput(m: PageMove): (v: PipelineHook.MoveInput)
    ensures v.contactId.None? && v.rawStage == m.stage
  {
    PipelineHook.MoveInput(None, m.stage)
  }

  /** Every move the page issues, drops and undos alike, leaves any cached
      record exactly as it was, and its request body carries no contactId. */
  lemma PageMovesLeaveRecord(r: PipelineHook.PipelineResponse, m: PageMove)
    ensures PipelineHook.Moved(r, HookInput(m)) == r
    ensures "contactId" !in PipelineHook.MoveBody(HookInput(m)).fields
  {
    NoTargetOccIn(r);
    PipelineHook.MovedAbsent(r, HookInput(m));
  }

  /** Undoing the move of a card that had no stage posts an empty object:
      both keys of `{ contactId, stage }` are undefined and dropped. */
  lemma StagelessUndoSendsEmptyBody(id: int)
    ensures PipelineHook.MoveBody(HookInput(UndoMove(Drag(id, None)))) == Json.Obj(map[])
  {
    var b := PipelineHook.MoveBody(HookInput(UndoMove(Drag(id, None))));
    assert b.fields.Keys == {};
  }

  lemma {:induction false} NoTargetOcc(cs: seq<PipelineHook.PipelineContact>)
    ensures PipelineHook.Occ(cs, None) == 0
    decreases |cs|
  {
    if |cs| > 0 {
      NoTargetOcc(cs[1..]);
    }
  }

  lemma {:induction false} NoTargetOccIn(r: PipelineHook.PipelineResponse)
    ensures PipelineHook.OccIn(r, None) == 0
    decreases |r|
  {
    if |r| > 0 {
      NoTargetOccIn(r[..|r| - 1]);
      NoTargetOcc(r[|r| - 1].contacts);
    }
  }

  /** The page's drag state. */
  class Board {
    var drag: Option<Drag>

    constructor ()
      ensures drag.None?
    {
      drag := None;
    }

    /** onDragStart: remember the card's id and raw stage. */
    method DragStart(c: Contact)
      modifies this
      ensures drag == Some(Drag(c.id, c.stage))
    {
      drag := Some(Drag(c.id, c.stage));
    }

    /** onDragEnd */
    method DragEnd()
      modifies this
      ensures drag.None?
    {
      drag := None;
    }

    /** onDropStage, with the server's answer as `succeeded`: the move it
      issues, if any, and the move the success toast's Undo button would
      issue; a failed move's toast offers no undo. The drag state itself is
      left to onDragEnd. */
    method Drop(target: Stage, succeeded: bool) returns (move: Option<PageMove>, undo: Option<PageMove>)
      ensures move == DropMove(drag, target)
      ensures undo.Some? <==> move.Some? && succeeded
      ensures undo.Some? ==> undo.value == UndoMove(drag.value)
    {
      if drag.None? {
        return None, None;
      }
      var d := drag.value;
      if d.from == Some(target.Name()) {
        return None, None;
      }
      move := Some(PageMove(d.contactId, Some(target.Name())));
      undo := if succeeded then Some(PageMove(d.contactId, d.from)) else None;
    }
  }
}
