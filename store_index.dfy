/**
 * The store selector: a Backend is either the in-memory store or the KV store,
 * and every operation of the storage contract dispatches on it. The Registry
 * is the module-level singleton: the first of initializeStore and getStore to
 * run fixes the backend for the lifetime of the worker.
 */
module StoreIndex {
  import opened Wrappers
  import opened Types
  import opened StoreContract
  import Memory
  import Kv

  datatype Backend = MemoryBackend(memory: Memory.MemoryStore) | KvBackend(kvStore: Kv.KvStore)

  /** The objects an operation on the backend may change. */
  function Repr(b: Backend): set<object> {
    match b
    case MemoryBackend(m) => {m}
    case KvBackend(k) => {k.kv}
  }

  function ViewOf(b: Backend): View
    reads Repr(b)
  {
    match b
    case MemoryBackend(m) => m.View()
    case KvBackend(k) => k.View()
  }

  predicate Valid(b: Backend)
    reads Repr(b)
  {
    match b
    case MemoryBackend(m) => m.Valid()
    case KvBackend(k) => k.Valid()
  }

  /**
   * A lookup by access code that, when `skipEmptyId` holds, treats an index
   * entry naming the empty id as absent.
   */
  function CodeLookup(skipEmptyId: bool, v: View, code: string): (r: Option<Challenge>)
    ensures !skipEmptyId ==> r == ByCode(v, code)
    ensures skipEmptyId ==> r == (if code in v.index && v.index[code] != "" then ById(v, v.index[code]) else None)
  {
    if skipEmptyId && code in v.index && v.index[code] == "" then None else ByCode(v, code)
  }

  /**
   * What getChallengeByAccessCode returns. The in-memory store treats an index
   * entry naming the empty id as absent; the KV store looks that id up.
   */
  function FindByCode(b: Backend, code: string): Option<Challenge>
    reads Repr(b)
  {
    CodeLookup(b.MemoryBackend?, ViewOf(b), code)
  }

  /** Once no challenge has the empty id, both backends answer a code lookup the same way. */
  lemma FindByCodeAgrees(b: Backend, code: string)
    requires "" !in ViewOf(b).challenges
    ensures FindByCode(b, code) == ByCode(ViewOf(b), code)
  {
  }

  /** A found challenge is the one the index names. */
  lemma FindByCodeFollowsIndex(b: Backend, code: string)
    requires FindByCode(b, code).Some?
    ensures code in ViewOf(b).index
    ensures ViewOf(b).index[code] in ViewOf(b).challenges
    ensures FindByCode(b, code) == Some(ViewOf(b).challenges[ViewOf(b).index[code]])
  {
  }

  /** Under the backend invariant a challenge found by code is the stored record under its own id. */
  lemma FoundIsStored(b: Backend, code: string)
    requires Valid(b) && FindByCode(b, code).Some?
    ensures FindByCode(b, code).value.id in ViewOf(b).challenges
    ensures ViewOf(b).challenges[FindByCode(b, code).value.id] == FindByCode(b, code).value
  {
    FindByCodeFollowsIndex(b, code);
    assert Wellformed(ViewOf(b));
  }

  /** Under the backend invariant a challenge found by id carries that id. */
  lemma FoundByIdCarriesId(b: Backend, id: string)
    requires Valid(b) && ById(ViewOf(b), id).Some?
    ensures ById(ViewOf(b), id).value.id == id
  {
    assert Wellformed(ViewOf(b));
  }

  method AddChallenge(b: Backend, challenge: Challenge) returns (r: Outcome)
    modifies Repr(b)
    ensures r.Err? ==> r == Err(AlreadyExists(challenge.id)) && ViewOf(b) == old(ViewOf(b))
    ensures old(Valid(b)) ==> (r.Ok? <==> challenge.id !in old(ViewOf(b)).challenges)
    ensures old(Valid(b)) && r.Ok? ==> ViewOf(b) == Added(old(ViewOf(b)), challenge)
    ensures old(Valid(b)) ==> Valid(b)
  {
    match b
    case MemoryBackend(m) =>
      r := m.AddChallenge(challenge);
    case KvBackend(k) =>
      r := k.AddChallenge(challenge);
      if old(k.Valid()) {
        Kv.ChallengesOfAt(old(k.kv.entries), challenge.id);
      }
  }

  method GetChallengeById(b: Backend, id: string) returns (r: Option<Challenge>)
    ensures r == ById(ViewOf(b), id)
  {
    match b
    case MemoryBackend(m) =>
      r := m.GetChallengeById(id);
    case KvBackend(k) =>
      r := k.GetChallengeById(id);
  }

  method GetChallengeByAccessCode(b: Backend, code: string) returns (r: Option<Challenge>)
    ensures r == FindByCode(b, code)
  {
    match b
    case MemoryBackend(m) =>
      r := m.GetChallengeByAccessCode(code);
    case KvBackend(k) =>
      r := k.GetChallengeByAccessCode(code);
  }

  method UpdateChallenge(b: Backend, challenge: Challenge) returns (r: Outcome)
    modifies Repr(b)
    ensures r.Ok? <==> challenge.id in old(ViewOf(b)).challenges
    ensures r.Err? ==> r == Err(NotFound(challenge.id)) && ViewOf(b) == old(ViewOf(b))
    ensures r.Ok? ==> ViewOf(b) == Updated(old(ViewOf(b)), challenge)
    ensures old(Valid(b)) ==> Valid(b)
  {
    match b
    case MemoryBackend(m) =>
      r := m.UpdateChallenge(challenge);
    case KvBackend(k) =>
      r := k.UpdateChallenge(challenge);
  }

  method ResetStore(b: Backend)
    modifies Repr(b)
    ensures ViewOf(b) == Empty
    ensures Valid(b)
  {
    match b
    case MemoryBackend(m) =>
      m.ResetStore();
    case KvBackend(k) =>
      k.ResetStore();
  }

  /** cleanupExpiredChallenges: the in-memory store drops expired challenges; KV relies on the host. */
  method CleanupExpiredChallenges(b: Backend, now: int)
    modifies Repr(b)
    ensures b.MemoryBackend? ==> ViewOf(b) == CleanedUp(old(ViewOf(b)), now)
    ensures b.KvBackend? ==> ViewOf(b) == old(ViewOf(b))
    ensures old(Valid(b)) ==> Valid(b)
  {
    match b
    case MemoryBackend(m) =>
      m.CleanupExpiredChallenges(now);
    case KvBackend(k) =>
      k.CleanupExpiredChallenges();
  }

  // ---------------------------------------------------------------------------
  // The singleton
  // ---------------------------------------------------------------------------

  /** The worker's bindings; only the KV namespace binding is consulted. */
  datatype Environment = Environment(challengeKv: Option<Kv.KvNamespace>)

  class Registry {
    var storeInstance: Option<Backend>

    constructor()
      ensures storeInstance.None?
    {
      storeInstance := None;
    }

    /**
     * initializeStore: returns the existing instance if there is one;
     * otherwise a KV store over the bound namespace, or a fresh in-memory
     * store when the binding (or the whole environment) is missing.
     */
    method InitializeStore(env: Option<Environment>) returns (store: Backend)
      modifies this
      ensures old(storeInstance).Some? ==> store == old(storeInstance).value
      ensures old(storeInstance).None? && env.Some? && env.value.challengeKv.Some? ==>
        store.KvBackend? && fresh(store.kvStore) && store.kvStore.kv == env.value.challengeKv.value
      ensures old(storeInstance).None? && !(env.Some? && env.value.challengeKv.Some?) ==>
        store.MemoryBackend? && fresh(store.memory) && ViewOf(store) == Empty
      ensures storeInstance == Some(store)
    {
      if storeInstance.Some? {
        return storeInstance.value;
      }
      if env.Some? && env.value.challengeKv.Some? {
        var kvStore := new Kv.KvStore(env.value.challengeKv.value);
        store := KvBackend(kvStore);
      } else {
        var memory := new Memory.MemoryStore();
        store := MemoryBackend(memory);
      }
      storeInstance := Some(store);
    }

    /** getStore: the existing instance, or a fresh in-memory store when there is none yet. */
    method GetStore() returns (store: Backend)
      modifies this
      ensures old(storeInstance).Some? ==> store == old(storeInstance).value
      ensures old(storeInstance).None? ==> store.MemoryBackend? && fresh(store.memory) && ViewOf(store) == Empty
      ensures storeInstance == Some(store)
    {
      if storeInstance.None? {
        var memory := new Memory.MemoryStore();
        storeInstance := Some(MemoryBackend(memory));
      }
      store := storeInstance.value;
    }
  }

  /**
   * getStore before initializeStore pins the in-memory store: a later
   * initializeStore with a KV binding still returns it.
   */
  method GetStoreFirstPinsMemory(registry: Registry, namespace: Kv.KvNamespace) returns (early: Backend, later: Backend)
    requires registry.storeInstance.None?
    modifies registry
    ensures early.MemoryBackend? && later == early
    ensures registry.storeInstance == Some(early)
  {
    early := registry.GetStore();
    later := registry.InitializeStore(Some(Environment(Some(namespace))));
  }

  /** From any registry state, every call after the first returns the first call's instance. */
  method SingletonStable(registry: Registry, env: Option<Environment>, laterEnv: Option<Environment>)
    returns (first: Backend, second: Backend, third: Backend)
    modifies registry
    ensures second == first && third == first
    ensures old(registry.storeInstance).Some? ==> first == old(registry.storeInstance).value
    ensures registry.storeInstance == Some(first)
  {
    first := registry.InitializeStore(env);
    second := registry.GetStore();
    third := registry.InitializeStore(laterEnv);
  }
}
