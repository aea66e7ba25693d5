/** The query cache the data hooks share: cached data by query key, plus the
    record of which key prefixes were invalidated. Refetching, cancellation
    and subscriber notification are outside the model; invalidation only
    marks keys stale. */
module Query {
  import opened Common

  /** One segment of a query key: a name, a numeric id, or a filter object
      (field name to value; a field that is undefined is absent). */
  datatype KeyPart = Text(s: string) | Id(n: int) | Filters(fields: map<string, string>)

  type QueryKey = seq<KeyPart>

  const PipelineKey: QueryKey := [Text("pipeline")]
  const ContactsKey: QueryKey := [Text("contacts")]
  const ConversationsKey: QueryKey := [Text("conversations")]
  const MessagesKey: QueryKey := [Text("messages")]

  /** invalidateQueries({ queryKey: prefix }) reaches every key that starts
      with prefix. */
  predicate Matches(prefix: QueryKey, key: QueryKey) {
    prefix <= key
  }

  class QueryCache<V> {
    /** getQueryData(key) is entries[key] when present, undefined otherwise. */
    var entries: map<QueryKey, V>
    /** The prefixes passed to invalidateQueries so far. */
    var invalidated: set<QueryKey>

    constructor ()
      ensures entries == map[] && invalidated == {}
    {
      entries := map[];
      invalidated := {};
    }

    function GetQueryData(key: QueryKey): (r: Option<V>)
      reads this
      ensures r.Some? <==> key in entries
      ensures r.Some? ==> r.value == entries[key]
    {
      if key in entries then Some(entries[key]) else None
    }

    /** A key is stale once some invalidated prefix matches it. */
    predicate IsStale(key: QueryKey)
      reads this
    {
      exists p :: p in invalidated && Matches(p, key)
    }

    method SetQueryData(key: QueryKey, value: V)
      modifies this
      ensures entries == old(entries)[key := value]
      ensures invalidated == old(invalidated)
    {
      entries := entries[key := value];
    }

    method InvalidateQueries(prefix: QueryKey)
      modifies this
      ensures entries == old(entries)
      ensures invalidated == old(invalidated) + {prefix}
      ensures forall k :: Matches(prefix, k) ==> IsStale(k)
    {
      invalidated := invalidated + {prefix};
    }
  }
}
