/** The id pool macros of the `iui` crate: one thread-local map per listed
    control type from an identifier's name to a clone of the control. */
module IdsPool {
  import opened Wrappers
  import opened Foreign
  import opened Handles

  /** One map per control type, keyed by the identifier's text, and the error
      lines logged for duplicate ids. */
  datatype Pool = Pool(maps: map<string, map<string, Ptr>>, errors: seq<string>)

  /** `thread_ui_ids_pool!(..)` with its `UiIdsPool::new`: an empty map for each
      listed type. */
  function NewPool(kinds: set<string>): (r: Pool)
    ensures r.maps.Keys == kinds
    ensures forall k :: k in r.maps ==> |r.maps[k]| == 0
    ensures r.errors == []
  {
    Pool(map k | k in kinds :: map[], [])
  }

  /** `ui_new!(id, Type, ..)`: the control is always built and bound to `id`;
      a clone goes into the type's map only when `id` is not there yet, and a
      duplicate is logged as an error instead. */
  function UiNew(pool: Pool, kind: string, id: string, p: Ptr): (r: (Pool, Wrapper))
    requires kind in pool.maps
    ensures r.1 == Wrapper(kind, p)
    ensures r.0.maps.Keys == pool.maps.Keys
    ensures forall k :: k in pool.maps && k != kind ==> r.0.maps[k] == pool.maps[k]
    ensures id !in pool.maps[kind] ==> r.0.maps[kind] == pool.maps[kind][id := p] && r.0.errors == pool.errors
    ensures id in pool.maps[kind] ==> r.0.maps[kind] == pool.maps[kind] && |r.0.errors| == |pool.errors| + 1
  {
    var control := FromUiControl(kind, p);
    var h := pool.maps[kind];
    if id !in h then (pool.(maps := pool.maps[kind := h[id := CloneWrapper(control).ptr]]), control)
    else (pool.(errors := pool.errors + ["ui id:" + id + " already exists."]), control)
  }

  /** `ui_get!(id, Type)`: a clone of the stored control, or `None`. */
  function UiGet(pool: Pool, kind: string, id: string): (r: Option<Wrapper>)
    requires kind in pool.maps
    ensures r.Some? <==> id in pool.maps[kind]
    ensures r.Some? ==> r.value == Wrapper(kind, pool.maps[kind][id])
  {
    if id in pool.maps[kind] then Some(CloneWrapper(Wrapper(kind, pool.maps[kind][id]))) else None
  }

  /** `ui_must_get!(id, Type)`: the stored clone, or a panic. */
  function UiMustGet(pool: Pool, kind: string, id: string): (r: Outcome<Wrapper>)
    requires kind in pool.maps
    ensures r.Panic? <==> id !in pool.maps[kind]
    ensures r.Panic? ==> r.fault == MissingId
    ensures r.Ok? ==> UiGet(pool, kind, id) == Some(r.value)
  {
    match UiGet(pool, kind, id)
    case None => Panic(MissingId)
    case Some(w) => Ok(w)
  }

  /** The first control registered under an id stays: a later `ui_new!` with
      the same id and type changes nothing but the error log, and lookups keep
      returning the first control. */
  lemma FirstRegistrationWins(pool: Pool, kind: string, id: string, p1: Ptr, p2: Ptr)
    requires kind in pool.maps && id !in pool.maps[kind]
    ensures var pool1 := UiNew(pool, kind, id, p1).0;
            var pool2 := UiNew(pool1, kind, id, p2).0;
            && UiGet(pool2, kind, id) == Some(Wrapper(kind, p1))
            && UiMustGet(pool2, kind, id) == Ok(Wrapper(kind, p1))
            && |pool2.errors| == |pool.errors| + 1
  {
  }

  /** Ids are scoped per control type: the same id under two types names two
      controls. */
  lemma IdsScopedPerType(pool: Pool, k1: string, k2: string, id: string, p1: Ptr, p2: Ptr)
    requires k1 in pool.maps && k2 in pool.maps && k1 != k2
    requires id !in pool.maps[k1] && id !in pool.maps[k2]
    ensures var pool2 := UiNew(UiNew(pool, k1, id, p1).0, k2, id, p2).0;
            && UiGet(pool2, k1, id) == Some(Wrapper(k1, p1))
            && UiGet(pool2, k2, id) == Some(Wrapper(k2, p2))
            && pool2.errors == pool.errors
  {
  }

  /** Looking up never changes the pool, and in a fresh pool every lookup misses. */
  lemma FreshPoolMisses(kinds: set<string>, kind: string, id: string)
    requires kind in kinds
    ensures UiGet(NewPool(kinds), kind, id).None?
    ensures UiMustGet(NewPool(kinds), kind, id) == Panic(MissingId)
  {
  }
}
