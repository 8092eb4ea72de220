/** The bounded cache of locally loaded models (backend/models/local_models.py).
    `models` and `tokenizers` are two dictionaries kept with the same keys;
    `order` is their insertion order, which is what `next(iter(models))`
    reads. Loading a model past capacity first drops the OLDEST entry; a hit
    does not move an entry, so the policy is first-in first-out even though
    the code calls it least recently used. Whether loading succeeds is an
    input: the transformers download and torch setup are not modelled. */
module LocalModels {
  import opened Wrappers

  /** `settings.MAX_LOCAL_MODELS` (backend/config.py). */
  const MaxLocalModels := 2

  function Max(a: int, b: int): int { if a >= b then a else b }

  predicate Distinct(s: seq<string>) {
    forall i, j :: 0 <= i < j < |s| ==> s[i] != s[j]
  }

  /** What loading a name produced: the model and its tokenizer, or the error. */
  datatype LoadOutcome<M, T> = Loaded(model: M, tokenizer: T) | LoadFailed(message: string)

  /** The key order after `_unload_lru_model`: the first-inserted key goes. */
  function Unloaded(order: seq<string>): (r: seq<string>)
    ensures order == [] ==> r == []
    ensures order != [] ==> |r| == |order| - 1
    ensures Distinct(order) && order != [] ==>
      Distinct(r) && forall x :: x in r <==> x in order && x != order[0]
  {
    if order == [] then [] else order[1..]
  }

  /** The key order after `load_model(name)` when loading itself would
      succeed (`ok`) or fail. */
  function OrderAfterLoad(order: seq<string>, name: string, capacity: int, ok: bool): seq<string> {
    if name in order then order
    else
      var kept := if |order| >= capacity then Unloaded(order) else order;
      if ok then kept + [name] else kept
  }

  /** A hit changes nothing; a miss drops the oldest key exactly when the
      cache is full, then appends the name as the newest key on success. */
  lemma LoadOrderShape(order: seq<string>, name: string, capacity: int, ok: bool)
    requires Distinct(order)
    ensures name in order ==> OrderAfterLoad(order, name, capacity, ok) == order
    ensures name !in order && ok ==>
      OrderAfterLoad(order, name, capacity, ok)[|OrderAfterLoad(order, name, capacity, ok)| - 1] == name
    ensures name !in order && |order| >= capacity && order != [] ==>
      order[0] !in OrderAfterLoad(order, name, capacity, ok)
    ensures name !in order && |order| < capacity ==>
      OrderAfterLoad(order, name, capacity, ok) == (if ok then order + [name] else order)
  {
  }

  /** The key order stays duplicate-free and within max(capacity, 1). */
  lemma {:induction false} LoadKeepsBound(order: seq<string>, name: string, capacity: int, ok: bool)
    requires Distinct(order) && |order| <= Max(capacity, 1)
    ensures Distinct(OrderAfterLoad(order, name, capacity, ok))
    ensures |OrderAfterLoad(order, name, capacity, ok)| <= Max(capacity, 1)
  {
    if name !in order {
      var kept := if |order| >= capacity then Unloaded(order) else order;
      assert forall x :: x in kept ==> x in order;
      assert Distinct(kept);
      if ok {
        var r := kept + [name];
        forall i, j | 0 <= i < j < |r| ensures r[i] != r[j] {
          if j == |r| - 1 {
            assert r[i] in kept;
          }
        }
      }
    }
  }

  /** Eviction ignores access order: with capacity 2, after loading "a" and
      "b", a hit on "a" and then a new load of "c" evicts "a", the most
      recently used model, and keeps "b". */
  lemma EvictionIsFirstInFirstOut()
    ensures OrderAfterLoad(["a", "b"], "a", 2, true) == ["a", "b"]
    ensures OrderAfterLoad(OrderAfterLoad(["a", "b"], "a", 2, true), "c", 2, true) == ["b", "c"]
  {
  }

  /** Removing a present key shrinks a map by one. */
  lemma RemovedSize<V>(m: map<string, V>, k: string)
    requires k in m
    ensures |m - {k}| == |m| - 1
  {
    assert (m - {k}).Keys == m.Keys - {k};
    assert |m.Keys - {k}| == |m.Keys| - 1;
  }

  /** Adding an absent key grows a map by one. */
  lemma AddedSize<V>(m: map<string, V>, k: string, v: V)
    requires k !in m
    ensures |m[k := v]| == |m| + 1
  {
    assert m[k := v].Keys == m.Keys + {k};
  }

  class LocalModelManager<M, T> {
    const maxLocalModels: int
    var models: map<string, M>
    var tokenizers: map<string, T>
    /** The dictionaries' insertion order. */
    var order: seq<string>

    ghost predicate Valid()
      reads this
    {
      Distinct(order)
      && models.Keys == tokenizers.Keys
      && (forall k :: k in models <==> k in order)
      && |order| == |models|
      && |order| <= Max(maxLocalModels, 1)
    }

    constructor (maxLocalModels: int := MaxLocalModels)
      ensures Valid()
      ensures this.maxLocalModels == maxLocalModels
      ensures models == map[] && tokenizers == map[] && order == []
    {
      this.maxLocalModels := maxLocalModels;
      models := map[];
      tokenizers := map[];
      order := [];
    }

    /** `_unload_lru_model`: drop the first-inserted key from both maps. */
    method UnloadLruModel()
      requires Valid()
      modifies this
      ensures Valid()
      ensures order == Unloaded(old(order))
      ensures old(order) != [] ==>
        models == old(models) - {old(order)[0]} && tokenizers == old(tokenizers) - {old(order)[0]}
      ensures old(order) == [] ==> models == old(models) && tokenizers == old(tokenizers)
    {
      if order != [] {
        var oldest := order[0];
        RemovedSize(models, oldest);
        var rest := Unloaded(order);
        assert forall x :: x in rest <==> x in order && x != oldest;
        models := models - {oldest};
        tokenizers := tokenizers - {oldest};
        order := rest;
      }
    }

    /** `load_model(name)`: `outcome` is what loading the tokenizer and the
        model would produce. */
    method LoadModel(name: string, outcome: LoadOutcome<M, T>) returns (ok: bool)
      requires Valid()
      modifies this
      ensures Valid()
      ensures order == OrderAfterLoad(old(order), name, maxLocalModels, outcome.Loaded?)
      ensures ok <==> name in old(models) || outcome.Loaded?
      ensures name in old(models) ==>
        models == old(models) && tokenizers == old(tokenizers) && order == old(order)
      ensures name !in old(models) && outcome.Loaded? ==>
        name in models && models[name] == outcome.model && tokenizers[name] == outcome.tokenizer
      ensures name !in old(models) && outcome.LoadFailed? ==> name !in models
      ensures forall k :: k in models && k != name ==> k in old(models) && models[k] == old(models)[k]
      ensures forall k :: k in tokenizers && k != name ==> k in old(tokenizers) && tokenizers[k] == old(tokenizers)[k]
    {
      if name in models {
        return true;
      }
      LoadKeepsBound(order, name, maxLocalModels, outcome.Loaded?);
      ghost var before := order;
      if |models| >= maxLocalModels {
        UnloadLruModel();
      }
      assert order == (if |before| >= maxLocalModels then Unloaded(before) else before);
      match outcome
      case LoadFailed(_) =>
        ok := false;
      case Loaded(m, t) =>
        Insert(name, m, t);
        ok := true;
    }

    /** Storing a freshly loaded model and its tokenizer as the newest entry. */
    method Insert(name: string, m: M, t: T)
      requires Valid() && name !in models && |order| < Max(maxLocalModels, 1)
      modifies this
      ensures Valid()
      ensures models == old(models)[name := m] && tokenizers == old(tokenizers)[name := t]
      ensures order == old(order) + [name]
    {
      AddedSize(models, name, m);
      models := models[name := m];
      tokenizers := tokenizers[name := t];
      order := order + [name];
      assert forall i :: 0 <= i < |order| - 1 ==> order[i] == old(order)[i];
    }

    /** `generate`'s load path: `None` when the model cannot be loaded,
        otherwise what the model generates (`generation`, `None` if
        generation raised). */
    method Generate(name: string, outcome: LoadOutcome<M, T>, generation: Option<string>) returns (text: Option<string>)
      requires Valid()
      modifies this
      ensures Valid()
      ensures order == OrderAfterLoad(old(order), name, maxLocalModels, outcome.Loaded?)
      ensures name !in old(models) && outcome.LoadFailed? ==> text.None?
      ensures name in old(models) || outcome.Loaded? ==> text == generation
    {
      var loaded := LoadModel(name, outcome);
      if !loaded {
        return None;
      }
      text := generation;
    }
  }
}
