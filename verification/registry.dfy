/**
 * The db.json registry and add_to_local_json's read-modify-write on it.
 *
 * The file is either missing, holds some JSON value (normally an object
 * keyed by database name), or holds text that json.load rejects. An
 * upsert bootstraps a missing file to {}, stores the config under the key
 * when the value is an object, and otherwise writes the value back as it
 * was read.
 */
module Registry {
  import opened Wrappers
  import opened Json

  datatype Store = Absent | Stored(value: Value) | Unreadable

  /** The file's content is a mapping the upsert can extend (a missing file counts as {}). */
  predicate HoldsMapping(s: Store)
  {
    s.Absent? || (s.Stored? && s.value.Object?)
  }

  /** The mapping the file holds: {} for a missing file. */
  function Entries(s: Store): map<string, Value>
    requires HoldsMapping(s)
  {
    if s.Absent? then map[] else s.value.fields
  }

  /**
   * add_to_local_json(config, key) on the file `s`: the file afterwards, or
   * None when reading it raises (and it is left as it was).
   */
  function Upsert(s: Store, key: string, config: Value): (r: Option<Store>)
    ensures r.None? <==> s.Unreadable?
    ensures HoldsMapping(s) ==> r.Some? && HoldsMapping(r.value) && r.value.Stored?
    ensures HoldsMapping(s) ==>
      Entries(r.value).Keys == Entries(s).Keys + {key} && Entries(r.value)[key] == config
    ensures HoldsMapping(s) ==>
      forall k :: k != key && k in Entries(s) ==> Entries(r.value)[k] == Entries(s)[k]
    ensures s.Stored? && !s.value.Object? ==> r == Some(s)
  {
    match s
    case Unreadable => None
    case Absent => Some(Stored(Object(map[][key := config])))
    case Stored(v) =>
      if v.Object? then Some(Stored(Object(v.fields[key := config]))) else Some(s)
  }

  /** Upserting the same entry again leaves the file as the first upsert did. */
  lemma UpsertIdempotent(s: Store, key: string, config: Value)
    requires Upsert(s, key, config).Some?
    ensures Upsert(Upsert(s, key, config).value, key, config) == Upsert(s, key, config)
  {
    var once := Upsert(s, key, config).value;
    if HoldsMapping(s) {
      assert Entries(once)[key := config] == Entries(once);
    }
  }

  /**
   * Two upserts of different keys, one after the other, keep both entries,
   * in either order.
   */
  lemma UpsertsCommute(s: Store, k1: string, c1: Value, k2: string, c2: Value)
    requires k1 != k2 && !s.Unreadable?
    ensures Upsert(Upsert(s, k1, c1).value, k2, c2) == Upsert(Upsert(s, k2, c2).value, k1, c1)
  {
    if HoldsMapping(s) {
      assert Entries(s)[k1 := c1][k2 := c2] == Entries(s)[k2 := c2][k1 := c1];
    }
  }

  /** On a mapping, the upsert is the map update `key := config`. */
  lemma UpsertEntries(s: Store, key: string, config: Value)
    requires HoldsMapping(s)
    ensures Entries(Upsert(s, key, config).value) == Entries(s)[key := config]
  {
  }
}
