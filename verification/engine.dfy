/** The world a synchronisation step runs in (the local store and the
    gateway), the outcome of a step, and the bulk synchronisation request the
    generic engine is handed. The generic engine itself (its `publish`,
    `withdraw` and `synchronize`) is kept to the steps stated in the API
    engine module. */
module Engine {
  import opened Tables
  import opened Types
  import Kong
  import Store

  /** What a step can raise: the client's `ValueError` (for an unknown id or
      a rejected request) and `ConflictError`, an `AttributeError` and an
      `AssertionError`. */
  datatype Error = NotFound | Invalid | Conflict | MissingAttribute | AssertionFailed

  function FromClient(e: Kong.ClientError): (r: Error)
    ensures r == NotFound <==> e == Kong.NotFound
    ensures r == Invalid <==> e == Kong.Invalid
    ensures r == Conflict <==> e == Kong.Conflict
  {
    match e
    case NotFound => NotFound
    case Invalid => Invalid
    case Conflict => Conflict
  }

  datatype World = World(db: Store.Db, kong: Kong.Gateway)

  /** A step that returned `value`, or raised `error`; either way the world
      is left as `world` (writes made before the exception are kept). */
  datatype Outcome<T> = Ok(value: T, world: World) | Raised(error: Error, world: World)

  /** The engine a bulk synchronisation runs on. */
  datatype EngineKind = ApiEngine | PluginEngine | ConsumerEngine

  /** `engine.synchronize(client, queryset=..., delete=...)`: the records to
      synchronise (all of them when `None`) and whether orphaned gateway
      entries are to be deleted. */
  datatype SyncRequest = SyncRequest(engine: EngineKind, queryset: Option<seq<LocalId>>, delete: bool)

  /** The requests a step sent extend the log it started from. */
  predicate LogExtends(w: World, w': World)
  {
    |w.kong.log| <= |w'.kong.log| && w'.kong.log[..|w.kong.log|] == w.kong.log
  }

  lemma LogExtendsTrans(a: World, b: World, c: World)
    requires LogExtends(a, b) && LogExtends(b, c)
    ensures LogExtends(a, c)
  {
    assert c.kong.log[..|a.kong.log|] == c.kong.log[..|b.kong.log|][..|a.kong.log|];
  }
}
