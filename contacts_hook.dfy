/** The contacts data hooks: the list query, which ignores its filters when
    fetching, the default for each listed field, and the requests and
    invalidations of create, update and delete. */
module ContactsHook {
  import opened Common
  import opened Json
  import opened Query
  import Api

  // ---------------------------------------------------------------------
  // The list
  // ---------------------------------------------------------------------

  const ContactsEndpoint: string := "/api/contacts"

  /** ["contacts", filters || {}] */
  function ListKey(filters: Option<map<string, string>>): (k: QueryKey)
    ensures |k| == 2 && Matches(ContactsKey, k)
    ensures filters.None? ==> k[1] == Filters(map[])
    ensures filters.Some? ==> k[1] == Filters(filters.value)
  {
    [Text("contacts"), Filters(if filters.Some? then filters.value else map[])]
  }

  /** The request the query function makes; the filters are not part of it. */
  function ListRequest(filters: Option<map<string, string>>): (r: (string, Api.RequestInit))
    ensures r == (ContactsEndpoint, Api.GetInit())
  {
    (ContactsEndpoint, Api.GetInit())
  }

  /** `data?.contacts || []`; None when the value has no `map`. */
  function ContactItems(data: Json): (items: Option<seq<Json>>)
    ensures !Truthy(OptGet(data, "contacts")) ==> items == Some([])
    ensures OptGet(data, "contacts").Arr? ==> items == Some(OptGet(data, "contacts").items)
    ensures Truthy(OptGet(data, "contacts")) && !OptGet(data, "contacts").Arr? ==> items.None?
  {
    var list := Or(OptGet(data, "contacts"), Arr([]));
    if list.Arr? then Some(list.items) else None
  }

  /** A listed contact. There is no `tags` and no activity field. */
  datatype ListedContact = ListedContact(
    id: Json, name: Json, phone: Json, email: Json, stage: Json,
    createdAt: Json, lastMessage: Json, messageCount: Json)

  /** The map callback; `c.id` of a null item throws, so the item must not
      be nullish. */
  function NormalizeContact(c: Json): (lc: ListedContact)
    requires !Nullish(c)
    ensures lc.id == Prop(c, "id") && lc.createdAt == Prop(c, "created_at")
    ensures lc.name == Coalesce(Prop(c, "name"), Str("Unnamed"))
    ensures lc.phone == Coalesce(Prop(c, "phone"), Str(""))
    ensures lc.email == Coalesce(Prop(c, "email"), Null)
    ensures lc.stage == Coalesce(Prop(c, "stage"), Null)
    ensures lc.lastMessage == Coalesce(Prop(c, "last_message"), Null)
    ensures lc.messageCount == Coalesce(Prop(c, "message_count"), Num(0))
  {
    ListedContact(
      Prop(c, "id"),
      Coalesce(Prop(c, "name"), Str("Unnamed")),
      Coalesce(Prop(c, "phone"), Str("")),
      Coalesce(Prop(c, "email"), Null),
      Coalesce(Prop(c, "stage"), Null),
      Prop(c, "created_at"),
      Coalesce(Prop(c, "last_message"), Null),
      Coalesce(Prop(c, "message_count"), Num(0)))
  }

  predicate NoNullItems(items: seq<Json>) {
    forall i :: 0 <= i < |items| ==> !Nullish(items[i])
  }

  /** The list the query resolves to for a given answer; None when it
      throws. The filters are a parameter only to show they are unused. */
  function ListedContacts(filters: Option<map<string, string>>, data: Json): (r: Option<seq<ListedContact>>)
    ensures r.Some? <==> ContactItems(data).Some? && NoNullItems(ContactItems(data).value)
    ensures r.Some? ==> |r.value| == |ContactItems(data).value|
    ensures r.Some? ==> forall i :: 0 <= i < |r.value| ==> r.value[i] == NormalizeContact(ContactItems(data).value[i])
    ensures r.Some? ==> forall i :: 0 <= i < |r.value| ==> r.value[i].id == Prop(ContactItems(data).value[i], "id")
  {
    match ContactItems(data)
    case None => None
    case Some(items) =>
      if NoNullItems(items) then Some(seq(|items|, i requires 0 <= i < |items| => NormalizeContact(items[i])))
      else None
  }

  /** The filters change the cache key only: the request and the resulting
      list are the same for any two filter values. */
  lemma FiltersNeverReachRequest(f1: Option<map<string, string>>, f2: Option<map<string, string>>, data: Json)
    ensures ListRequest(f1) == ListRequest(f2)
    ensures ListedContacts(f1, data) == ListedContacts(f2, data)
  {
  }

  /** A contact with every optional field missing gets the defaults. */
  lemma BareContactDefaults(id: int)
    ensures NormalizeContact(Obj(map["id" := Num(id)])) ==
      ListedContact(Num(id), Str("Unnamed"), Str(""), Null, Null, Undefined, Null, Num(0))
  {
  }

  /** `??` replaces null and undefined only: an empty name stays empty and
      a zero count stays zero. */
  lemma DefaultsOnlyForNullish(m: map<string, Json>)
    requires "name" in m && m["name"] == Str("") && "message_count" in m && m["message_count"] == Num(0)
    ensures NormalizeContact(Obj(m)).name == Str("")
    ensures NormalizeContact(Obj(m)).messageCount == Num(0)
  {
  }

  // ---------------------------------------------------------------------
  // Mutations
  // ---------------------------------------------------------------------

  function ContactPath(id: int): string {
    "/api/contacts/" + IntToString(id)
  }

  /** POST /api/contacts with the new contact (an object, so always sent). */
  function CreateRequest(data: map<string, Json>): (r: (string, Api.RequestInit))
    ensures r.0 == ContactsEndpoint && r.1.verb == "POST" && r.1.body == Some(Obj(data))
  {
    (ContactsEndpoint, Api.PostInit(Obj(data)))
  }

  /** PUT /api/contacts/<id> with `input.updates`; even `{}` is sent. */
  function UpdateRequest(id: int, updates: map<string, Json>): (r: (string, Api.RequestInit))
    ensures r.0 == ContactPath(id) && r.1.verb == "PUT" && r.1.body == Some(Obj(updates))
  {
    (ContactPath(id), Api.PutInit(Obj(updates)))
  }

  function DeleteRequest(id: int): (r: (string, Api.RequestInit))
    ensures r.0 == ContactPath(id) && r.1.verb == "DELETE" && r.1.body.None?
  {
    (ContactPath(id), Api.DeleteInit())
  }

  /** The onSuccess shared by create, update and delete. */
  method ContactsChanged<V>(qc: QueryCache<V>)
    modifies qc
    ensures qc.entries == old(qc.entries)
    ensures qc.invalidated == old(qc.invalidated) + {ContactsKey, PipelineKey}
    ensures forall f :: qc.IsStale(ListKey(f))
    ensures qc.IsStale(PipelineKey)
  {
    qc.InvalidateQueries(ContactsKey);
    qc.InvalidateQueries(PipelineKey);
  }

  datatype ContactMutation = Create(data: map<string, Json>) | Update(id: int, updates: map<string, Json>) | Delete(id: int)

  /** One contact mutation: the request it makes and, when the server
      accepts it, the invalidation of every contacts list and the pipeline;
      a rejected one leaves the cache alone. */
  method MutateContact<V>(qc: QueryCache<V>, m: ContactMutation, succeeded: bool) returns (r: (string, Api.RequestInit))
    modifies qc
    ensures m.Create? ==> r == CreateRequest(m.data)
    ensures m.Update? ==> r == UpdateRequest(m.id, m.updates)
    ensures m.Delete? ==> r == DeleteRequest(m.id)
    ensures qc.entries == old(qc.entries)
    ensures succeeded ==> qc.invalidated == old(qc.invalidated) + {ContactsKey, PipelineKey}
    ensures !succeeded ==> qc.invalidated == old(qc.invalidated)
  {
    match m {
      case Create(data) => r := CreateRequest(data);
      case Update(id, updates) => r := UpdateRequest(id, updates);
      case Delete(id) => r := DeleteRequest(id);
    }
    if succeeded {
      ContactsChanged(qc);
    }
  }
}
