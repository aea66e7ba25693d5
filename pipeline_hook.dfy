/** The pipeline data hook: the stage-keyed record held in the query cache,
    the optimistic move of one contact between stage lists, and the
    rollback/invalidation that settles it. */
module PipelineHook {
  import opened Common
  import opened Json
  import opened Query
  import Api

  /** One contact as the pipeline endpoint returns it. */
  datatype PipelineContact = PipelineContact(
    id: int,
    name: string,
    phone: string,
    stage: string,
    createdAt: Option<string>,
    lastActive: Option<string>,
    tags: Option<seq<string>>
  )

  /** One entry of the record: a stage name and its contact list. */
  datatype Column = Column(stage: string, contacts: seq<PipelineContact>)

  /** Record<string, PipelineContact[]>: the entries in key order. */
  type PipelineResponse = seq<Column>

  /** An object has each key once. */
  predicate WellKeyed(r: PipelineResponse) {
    forall i, j :: 0 <= i < j < |r| ==> r[i].stage != r[j].stage
  }

  /** The mutation's input as the hook reads it: `input.contactId` is None
      when the caller's object has no such field (it reads as undefined), and
      so is `rawStage` for a stage that is undefined. `stage` is the record
      key that `next[vars.stage]` uses: an undefined stage is the key
      "undefined". */
  datatype MoveInput = MoveInput(contactId: Option<int>, rawStage: Option<string>) {
    const stage: string := if rawStage.Some? then rawStage.value else "undefined"
  }

  /** `c.id === contactId` */
  predicate IsTarget(c: PipelineContact, id: Option<int>) {
    id == Some(c.id)
  }

  // ---------------------------------------------------------------------
  // Lists of contacts
  // ---------------------------------------------------------------------

  /** list.findIndex(c => c.id === id) */
  function IndexOfId(cs: seq<PipelineContact>, id: Option<int>): (k: int)
    ensures -1 <= k < |cs|
    ensures k >= 0 ==> IsTarget(cs[k], id) && forall j :: 0 <= j < k ==> !IsTarget(cs[j], id)
    ensures k == -1 ==> forall j :: 0 <= j < |cs| ==> !IsTarget(cs[j], id)
    decreases |cs|
  {
    if |cs| == 0 then -1
    else if IsTarget(cs[0], id) then 0
    else
      var k := IndexOfId(cs[1..], id);
      if k == -1 then -1 else k + 1
  }

  /** How many entries of the list carry the id. */
  function Occ(cs: seq<PipelineContact>, id: Option<int>): nat
    decreases |cs|
  {
    if |cs| == 0 then 0 else (if IsTarget(cs[0], id) then 1 else 0) + Occ(cs[1..], id)
  }

  /** The entries that do not carry the id, in their order. */
  function Without(cs: seq<PipelineContact>, id: Option<int>): seq<PipelineContact>
    decreases |cs|
  {
    if |cs| == 0 then [] else (if IsTarget(cs[0], id) then [] else [cs[0]]) + Without(cs[1..], id)
  }

  lemma {:induction false} ConcatCounts(a: seq<PipelineContact>, b: seq<PipelineContact>, id: Option<int>)
    ensures Occ(a + b, id) == Occ(a, id) + Occ(b, id)
    ensures Without(a + b, id) == Without(a, id) + Without(b, id)
    decreases |a|
  {
    if |a| > 0 {
      assert (a + b)[1..] == a[1..] + b;
      ConcatCounts(a[1..], b, id);
    } else {
      assert a + b == b;
    }
  }

  lemma {:induction false} NoIndexNoOcc(cs: seq<PipelineContact>, id: Option<int>)
    requires forall j :: 0 <= j < |cs| ==> !IsTarget(cs[j], id)
    ensures Occ(cs, id) == 0 && Without(cs, id) == cs
    decreases |cs|
  {
    if |cs| > 0 {
      NoIndexNoOcc(cs[1..], id);
      assert [cs[0]] + cs[1..] == cs;
    }
  }

  /** next[stage].splice(idx, 1) after findIndex: drops the first entry with
      the id, if there is one. */
  function RemoveFirst(cs: seq<PipelineContact>, id: Option<int>): seq<PipelineContact> {
    var k := IndexOfId(cs, id);
    if k < 0 then cs else cs[..k] + cs[k + 1..]
  }

  /** Removing the first match takes away exactly one matching entry when
      there is one, and leaves the other entries, in order. */
  lemma RemoveFirstFacts(cs: seq<PipelineContact>, id: Option<int>)
    ensures Without(RemoveFirst(cs, id), id) == Without(cs, id)
    ensures Occ(cs, id) > 0 ==> Occ(RemoveFirst(cs, id), id) == Occ(cs, id) - 1
    ensures Occ(cs, id) > 0 ==> |RemoveFirst(cs, id)| == |cs| - 1
    ensures Occ(cs, id) == 0 ==> RemoveFirst(cs, id) == cs
  {
    var k := IndexOfId(cs, id);
    if k < 0 {
      NoIndexNoOcc(cs, id);
    } else {
      assert cs == cs[..k] + [cs[k]] + cs[k + 1..];
      ConcatCounts(cs[..k] + [cs[k]], cs[k + 1..], id);
      ConcatCounts(cs[..k], [cs[k]], id);
      ConcatCounts(cs[..k], cs[k + 1..], id);
      assert Occ([cs[k]], id) == 1 && Without([cs[k]], id) == [] by {
        assert [cs[k]][1..] == [];
      }
    }
  }

  // ---------------------------------------------------------------------
  // The record
  // ---------------------------------------------------------------------

  /** Occurrences of the id across the whole record. */
  function OccIn(r: PipelineResponse, id: Option<int>): nat
    decreases |r|
  {
    if |r| == 0 then 0 else OccIn(r[..|r| - 1], id) + Occ(r[|r| - 1].contacts, id)
  }

  /** The total number of contacts in the record. */
  function Size(r: PipelineResponse): nat
    decreases |r|
  {
    if |r| == 0 then 0 else Size(r[..|r| - 1]) + |r[|r| - 1].contacts|
  }

  /** next[stage]: the index of the entry with that key, or -1. */
  function ColumnIndex(r: PipelineResponse, stage: string): (k: int)
    ensures -1 <= k < |r|
    ensures k >= 0 ==> r[k].stage == stage && forall j :: 0 <= j < k ==> r[j].stage != stage
    ensures k == -1 ==> forall j :: 0 <= j < |r| ==> r[j].stage != stage
    decreases |r|
  {
    if |r| == 0 then -1
    else if r[0].stage == stage then 0
    else
      var k := ColumnIndex(r[1..], stage);
      if k == -1 then -1 else k + 1
  }

  function StripColumn(col: Column, id: Option<int>): Column {
    Column(col.stage, RemoveFirst(col.contacts, id))
  }

  /** The clone after the removal loop: every list loses its first match. */
  function Stripped(r: PipelineResponse, id: Option<int>): (s: PipelineResponse)
    ensures |s| == |r|
    ensures forall k :: 0 <= k < |r| ==> s[k] == StripColumn(r[k], id)
  {
    seq(|r|, k requires 0 <= k < |r| => StripColumn(r[k], id))
  }

  /** `moved` after the removal loop: the match found in the last list (in
      key order) that holds one. */
  function LastMoved(r: PipelineResponse, id: Option<int>): Option<PipelineContact>
    decreases |r|
  {
    if |r| == 0 then None
    else
      var k := IndexOfId(r[|r| - 1].contacts, id);
      if k >= 0 then Some(r[|r| - 1].contacts[k]) else LastMoved(r[..|r| - 1], id)
  }

  /** Creates the target list when the key is missing, then puts the contact
      at its front (`unshift`). */
  function InsertFront(r: PipelineResponse, stage: string, c: PipelineContact): PipelineResponse {
    var j := ColumnIndex(r, stage);
    if j >= 0 then r[j := Column(r[j].stage, [c] + r[j].contacts)]
    else r + [Column(stage, [c])]
  }

  /** The record the optimistic updater returns for a record that is cached. */
  function Moved(r: PipelineResponse, vars: MoveInput): PipelineResponse {
    var s := Stripped(r, vars.contactId);
    match LastMoved(r, vars.contactId)
    case None => s
    case Some(m) => InsertFront(s, vars.stage, m.(stage := vars.stage))
  }

  // ---------------------------------------------------------------------
  // The optimistic updater
  // ---------------------------------------------------------------------

  /** The body of the setQueryData updater once a record is cached: clone,
      remove the contact from every stage list, set its stage, and put it at
      the front of the target list. */
  method OptimisticUpdate(prev: PipelineResponse, vars: MoveInput) returns (next: PipelineResponse)
    ensures next == Moved(prev, vars)
  {
    var moved;
    next, moved := RemoveMoved(prev, vars.contactId);
    if moved.Some? {
      next := UnshiftMoved(next, vars.stage, moved.value.(stage := vars.stage));
    }
  }

  /** The updater's loop over the stage keys: each list loses its first
      contact with the id, and the last one found is kept as `moved`. */
  method RemoveMoved(prev: PipelineResponse, id: Option<int>) returns (next: PipelineResponse, moved: Option<PipelineContact>)
    ensures next == Stripped(prev, id)
    ensures moved == LastMoved(prev, id)
  {
    next := prev;
    moved := None;
    var i := 0;
    while i < |next|
      invariant 0 <= i <= |next| == |prev|
      invariant forall k :: 0 <= k < i ==> next[k] == StripColumn(prev[k], id)
      invariant forall k :: i <= k < |next| ==> next[k] == prev[k]
      invariant moved == LastMoved(prev[..i], id)
    {
      LastMovedSnoc(prev, i, id);
      var col, found := SpliceMatch(next[i], id);
      moved := if found.Some? then found else moved;
      next := next[i := col];
      i := i + 1;
    }
    assert prev[..|prev|] == prev;
  }

  /** The loop body for one list: `findIndex`, and on a match `moved = arr[idx]`
      and `arr.splice(idx, 1)`. */
  method SpliceMatch(col: Column, id: Option<int>) returns (next: Column, found: Option<PipelineContact>)
    ensures next == StripColumn(col, id)
    ensures var k := IndexOfId(col.contacts, id);
      found == if k >= 0 then Some(col.contacts[k]) else None
  {
    next := col;
    found := None;
    var idx := IndexOfId(col.contacts, id);
    if idx != -1 {
      found := Some(col.contacts[idx]);
      next := Column(col.stage, col.contacts[..idx] + col.contacts[idx + 1..]);
    }
  }

  /** One more list for the loop: a match in it replaces the one found so far. */
  lemma LastMovedSnoc(r: PipelineResponse, i: int, id: Option<int>)
    requires 0 <= i < |r|
    ensures var k := IndexOfId(r[i].contacts, id);
      LastMoved(r[..i + 1], id) == if k >= 0 then Some(r[i].contacts[k]) else LastMoved(r[..i], id)
  {
    assert r[..i + 1][..i] == r[..i];
  }

  /** The updater's tail: the target list is created when missing and the
      moved contact put at its front. */
  method UnshiftMoved(r: PipelineResponse, stage: string, m: PipelineContact) returns (next: PipelineResponse)
    ensures next == InsertFront(r, stage, m)
  {
    next := r;
    var j := ColumnIndex(next, stage);
    if j == -1 {
      next := next + [Column(stage, [])];
      j := |next| - 1;
      assert [m] + [] == [m];
    }
    next := next[j := Column(next[j].stage, [m] + next[j].contacts)];
  }

  // ---------------------------------------------------------------------
  // What the optimistic updater guarantees
  // ---------------------------------------------------------------------

  lemma {:induction false} LastMovedFacts(r: PipelineResponse, id: Option<int>)
    ensures LastMoved(r, id).Some? <==> OccIn(r, id) > 0
    ensures LastMoved(r, id).Some? ==> IsTarget(LastMoved(r, id).value, id)
    decreases |r|
  {
    if |r| > 0 {
      LastMovedFacts(r[..|r| - 1], id);
      var cs := r[|r| - 1].contacts;
      if IndexOfId(cs, id) < 0 {
        NoIndexNoOcc(cs, id);
      } else {
        IndexGivesOcc(cs, id);
      }
    }
  }

  /** A list in which findIndex finds the id holds it at least once. */
  lemma IndexGivesOcc(cs: seq<PipelineContact>, id: Option<int>)
    requires IndexOfId(cs, id) >= 0
    ensures Occ(cs, id) > 0
  {
    var k := IndexOfId(cs, id);
    assert cs == cs[..k] + cs[k..];
    ConcatCounts(cs[..k], cs[k..], id);
  }

  lemma {:induction false} OccInBound(r: PipelineResponse, id: Option<int>, k: int)
    requires 0 <= k < |r|
    ensures Occ(r[k].contacts, id) <= OccIn(r, id)
    decreases |r|
  {
    if k < |r| - 1 {
      OccInBound(r[..|r| - 1], id, k);
    }
  }

  lemma {:induction false} NoOccInColumns(r: PipelineResponse, id: Option<int>)
    requires forall k :: 0 <= k < |r| ==> Occ(r[k].contacts, id) == 0
    ensures OccIn(r, id) == 0
    decreases |r|
  {
    if |r| > 0 {
      NoOccInColumns(r[..|r| - 1], id);
    }
  }

  lemma {:induction false} NoOccStrippedIsSame(r: PipelineResponse, id: Option<int>)
    requires OccIn(r, id) == 0
    ensures Stripped(r, id) == r
  {
    forall k | 0 <= k < |r| ensures Stripped(r, id)[k] == r[k] {
      OccInBound(r, id, k);
      RemoveFirstFacts(r[k].contacts, id);
    }
  }

  /** If the id is in no stage list, the optimistic write gives back the
      record it was handed. */
  lemma MovedAbsent(r: PipelineResponse, vars: MoveInput)
    requires OccIn(r, vars.contactId) == 0
    ensures Moved(r, vars) == r
  {
    LastMovedFacts(r, vars.contactId);
    NoOccStrippedIsSame(r, vars.contactId);
  }

  /** Keys keep their order; at most the target key is added, at the end. */
  lemma MovedKeys(r: PipelineResponse, vars: MoveInput)
    ensures |r| <= |Moved(r, vars)| <= |r| + 1
    ensures forall k :: 0 <= k < |r| ==> Moved(r, vars)[k].stage == r[k].stage
    ensures |Moved(r, vars)| == |r| + 1 ==> Moved(r, vars)[|r|].stage == vars.stage
    ensures WellKeyed(r) ==> WellKeyed(Moved(r, vars))
  {
  }

  /** Every other contact keeps its stage list and its place in that list;
      a list created for the target holds nothing else. */
  lemma MovedKeepsOthers(r: PipelineResponse, vars: MoveInput)
    ensures forall k :: 0 <= k < |r| ==>
      Without(Moved(r, vars)[k].contacts, vars.contactId) == Without(r[k].contacts, vars.contactId)
    ensures forall k :: |r| <= k < |Moved(r, vars)| ==>
      Without(Moved(r, vars)[k].contacts, vars.contactId) == []
  {
    var id := vars.contactId;
    StrippedKeepsOthers(r, id);
    LastMovedFacts(r, id);
    if LastMoved(r, id).Some? {
      InsertFrontKeepsOthers(Stripped(r, id), vars.stage, LastMoved(r, id).value.(stage := vars.stage), id);
    }
  }

  lemma StrippedKeepsOthers(r: PipelineResponse, id: Option<int>)
    ensures forall k :: 0 <= k < |r| ==> Without(Stripped(r, id)[k].contacts, id) == Without(r[k].contacts, id)
  {
    forall k | 0 <= k < |r| ensures Without(Stripped(r, id)[k].contacts, id) == Without(r[k].contacts, id) {
      RemoveFirstFacts(r[k].contacts, id);
    }
  }

  lemma InsertFrontKeepsOthers(s: PipelineResponse, stage: string, c: PipelineContact, id: Option<int>)
    requires IsTarget(c, id)
    ensures var n := InsertFront(s, stage, c);
      && (forall k :: 0 <= k < |s| ==> Without(n[k].contacts, id) == Without(s[k].contacts, id))
      && (forall k :: |s| <= k < |n| ==> Without(n[k].contacts, id) == [])
  {
    assert Without([c], id) == [] by { assert [c][1..] == []; }
    var j := ColumnIndex(s, stage);
    if j >= 0 {
      ConcatCounts([c], s[j].contacts, id);
    }
  }

  /** Putting a contact at the front of the target list of a record that
      holds its id nowhere: it then sits at index 0 of that list alone. */
  lemma InsertFrontFacts(s: PipelineResponse, stage: string, c: PipelineContact, id: Option<int>)
    requires WellKeyed(s)
    requires IsTarget(c, id)
    requires forall k :: 0 <= k < |s| ==> Occ(s[k].contacts, id) == 0
    ensures
      var n := InsertFront(s, stage, c);
      var j := ColumnIndex(n, stage);
      && j >= 0
      && WellKeyed(n)
      && |n[j].contacts| > 0 && n[j].contacts[0] == c
      && forall k :: 0 <= k < |n| ==> Occ(n[k].contacts, id) == (if k == j then 1 else 0)
  {
    assert Occ([c], id) == 1 by { assert [c][1..] == []; }
    var j := ColumnIndex(s, stage);
    var n := InsertFront(s, stage, c);
    if j >= 0 {
      ConcatCounts([c], s[j].contacts, id);
      assert forall i :: 0 <= i < |n| ==> n[i].stage == s[i].stage;
    } else {
      assert n == s + [Column(stage, [c])];
      assert forall i :: 0 <= i < |s| ==> n[i].stage == s[i].stage;
      assert n[|s|].stage == stage;
      assert ColumnIndex(n, stage) == |s|;
    }
  }

  /** A contact that occurs once ends up only in the target list, at its
      front, with its stage field set to the target. */
  lemma MovedOnlyInTarget(r: PipelineResponse, vars: MoveInput)
    requires WellKeyed(r)
    requires OccIn(r, vars.contactId) == 1
    ensures LastMoved(r, vars.contactId).Some?
    ensures ColumnIndex(Moved(r, vars), vars.stage) >= 0
    ensures
      var n := Moved(r, vars);
      var j := ColumnIndex(n, vars.stage);
      && WellKeyed(n)
      && |n[j].contacts| > 0
      && n[j].contacts[0] == LastMoved(r, vars.contactId).value.(stage := vars.stage)
      && Some(n[j].contacts[0].id) == vars.contactId
      && n[j].contacts[0].stage == vars.stage
      && forall k :: 0 <= k < |n| ==> Occ(n[k].contacts, vars.contactId) == (if k == j then 1 else 0)
  {
    var id := vars.contactId;
    var s := Stripped(r, id);
    LastMovedFacts(r, id);
    forall k | 0 <= k < |r| ensures Occ(s[k].contacts, id) == 0 {
      OccInBound(r, id, k);
      RemoveFirstFacts(r[k].contacts, id);
    }
    MovedKeys(r, vars);
    assert WellKeyed(s);
    InsertFrontFacts(s, vars.stage, LastMoved(r, id).value.(stage := vars.stage), id);
  }

  lemma {:induction false} SizeOfStripped(r: PipelineResponse, id: Option<int>)
    requires forall k :: 0 <= k < |r| ==> Occ(r[k].contacts, id) <= 1
    ensures Size(Stripped(r, id)) + OccIn(r, id) == Size(r)
    decreases |r|
  {
    if |r| > 0 {
      var s := Stripped(r, id);
      var init := r[..|r| - 1];
      assert s[..|s| - 1] == Stripped(init, id);
      SizeOfStripped(init, id);
      RemoveFirstFacts(r[|r| - 1].contacts, id);
    }
  }

  lemma {:induction false} SizeOfUpdate(r: PipelineResponse, j: int, col: Column)
    requires 0 <= j < |r|
    ensures Size(r[j := col]) + |r[j].contacts| == Size(r) + |col.contacts|
    decreases |r|
  {
    var u := r[j := col];
    if j < |r| - 1 {
      assert u[..|u| - 1] == r[..|r| - 1][j := col];
      SizeOfUpdate(r[..|r| - 1], j, col);
    } else {
      assert u[..|u| - 1] == r[..|r| - 1];
    }
  }

  /** When the id occurs at most once, the move neither loses nor adds a
      contact. */
  lemma MovedPreservesSize(r: PipelineResponse, vars: MoveInput)
    requires OccIn(r, vars.contactId) <= 1
    ensures Size(Moved(r, vars)) == Size(r)
  {
    var id := vars.contactId;
    if OccIn(r, id) == 0 {
      MovedAbsent(r, vars);
    } else {
      forall k | 0 <= k < |r| ensures Occ(r[k].contacts, id) <= 1 {
        OccInBound(r, id, k);
      }
      SizeOfStripped(r, id);
      LastMovedFacts(r, id);
      var s := Stripped(r, id);
      var m := LastMoved(r, id).value.(stage := vars.stage);
      assert Moved(r, vars) == InsertFront(s, vars.stage, m);
      SizeOfInsertFront(s, vars.stage, m);
    }
  }

  /** `unshift` onto the target list, created when missing, adds one contact. */
  lemma SizeOfInsertFront(s: PipelineResponse, stage: string, c: PipelineContact)
    ensures Size(InsertFront(s, stage, c)) == Size(s) + 1
  {
    var j := ColumnIndex(s, stage);
    if j >= 0 {
      SizeOfUpdate(s, j, Column(s[j].stage, [c] + s[j].contacts));
    } else {
      var n := s + [Column(stage, [c])];
      assert n[..|n| - 1] == s;
    }
  }

  /** A target stage missing from the record is created, as a new last key
      holding only the moved contact. */
  lemma MovedCreatesTarget(r: PipelineResponse, vars: MoveInput)
    requires OccIn(r, vars.contactId) > 0
    requires ColumnIndex(r, vars.stage) == -1
    ensures LastMoved(r, vars.contactId).Some?
    ensures Moved(r, vars) ==
      Stripped(r, vars.contactId) + [Column(vars.stage, [LastMoved(r, vars.contactId).value.(stage := vars.stage)])]
  {
    LastMovedFacts(r, vars.contactId);
    var s := Stripped(r, vars.contactId);
    assert forall k :: 0 <= k < |s| ==> s[k].stage == r[k].stage;
  }

  // ---------------------------------------------------------------------
  // The mutation: onMutate, mutationFn, onError, onSuccess
  // ---------------------------------------------------------------------

  /** What onMutate returns for onError: the snapshot read before the write. */
  datatype MoveContext = MoveContext(prev: Option<PipelineResponse>)

  const MoveEndpoint: string := "/api/pipeline/move"

  /** The body of POST /api/pipeline/move: { contactId, stage }. JSON
      serialisation drops a key whose value is undefined. */
  function MoveBody(vars: MoveInput): (body: Json)
    ensures body.Obj? && body.fields.Keys <= {"contactId", "stage"}
    ensures "contactId" in body.fields <==> vars.contactId.Some?
    ensures vars.contactId.Some? ==> body.fields["contactId"] == Num(vars.contactId.value)
    ensures "stage" in body.fields <==> vars.rawStage.Some?
    ensures vars.rawStage.Some? ==> body.fields["stage"] == Str(vars.rawStage.value)
  {
    var withId: map<string, Json> := if vars.contactId.Some? then map["contactId" := Num(vars.contactId.value)] else map[];
    Obj(if vars.rawStage.Some? then withId["stage" := Str(vars.rawStage.value)] else withId)
  }

  /** mutationFn: the request it issues. */
  function MoveRequest(vars: MoveInput): (init: Api.RequestInit)
    ensures init.verb == "POST" && init.body == Some(MoveBody(vars))
  {
    Api.PostInit(MoveBody(vars))
  }

  /** onMutate: snapshot the cached record, then write the optimistic one
      when a record is cached (the updater returns undefined otherwise, which
      leaves the entry absent). */
  method OnMutate(qc: QueryCache<PipelineResponse>, vars: MoveInput) returns (ctx: MoveContext)
    modifies qc
    ensures ctx.prev == old(qc.GetQueryData(PipelineKey))
    ensures PipelineKey in old(qc.entries) ==>
      qc.entries == old(qc.entries)[PipelineKey := Moved(old(qc.entries[PipelineKey]), vars)]
    ensures PipelineKey !in old(qc.entries) ==> qc.entries == old(qc.entries)
    ensures qc.invalidated == old(qc.invalidated)
  {
    var prev := qc.GetQueryData(PipelineKey);
    if prev.Some? {
      var next := OptimisticUpdate(prev.value, vars);
      qc.SetQueryData(PipelineKey, next);
    }
    ctx := MoveContext(prev);
  }

  /** onError: put the snapshot back when there was one. */
  method OnError(qc: QueryCache<PipelineResponse>, ctx: MoveContext)
    modifies qc
    ensures ctx.prev.Some? ==> qc.entries == old(qc.entries)[PipelineKey := ctx.prev.value]
    ensures ctx.prev.None? ==> qc.entries == old(qc.entries)
    ensures qc.invalidated == old(qc.invalidated)
  {
    if ctx.prev.Some? {
      qc.SetQueryData(PipelineKey, ctx.prev.value);
    }
  }

  /** onSuccess: invalidate "pipeline" and "contacts". */
  method OnSuccess(qc: QueryCache<PipelineResponse>)
    modifies qc
    ensures qc.entries == old(qc.entries)
    ensures qc.invalidated == old(qc.invalidated) + {PipelineKey, ContactsKey}
    ensures qc.IsStale(PipelineKey) && qc.IsStale(ContactsKey)
  {
    qc.InvalidateQueries(PipelineKey);
    qc.InvalidateQueries(ContactsKey);
  }

  /** One whole move, settled by the server's answer `succeeded`: on failure
      the cache is exactly as before the move, on success it holds the
      optimistic record and both keys are stale. */
  method Mutate(qc: QueryCache<PipelineResponse>, vars: MoveInput, succeeded: bool)
      returns (request: Api.RequestInit)
    modifies qc
    ensures request == MoveRequest(vars)
    ensures !succeeded ==> qc.entries == old(qc.entries) && qc.invalidated == old(qc.invalidated)
    ensures succeeded && PipelineKey in old(qc.entries) ==>
      qc.entries == old(qc.entries)[PipelineKey := Moved(old(qc.entries[PipelineKey]), vars)]
    ensures succeeded && PipelineKey !in old(qc.entries) ==> qc.entries == old(qc.entries)
    ensures succeeded ==> qc.invalidated == old(qc.invalidated) + {PipelineKey, ContactsKey}
  {
    var ctx := OnMutate(qc, vars);
    request := MoveRequest(vars);
    if succeeded {
      OnSuccess(qc);
    } else {
      OnError(qc, ctx);
    }
  }
}
