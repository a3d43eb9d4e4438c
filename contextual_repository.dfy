/**
 * UWorldModelRepositorySubsystem: the world subsystem that keeps one
 * contextual model per model class for the lifetime of one scene.
 *
 * It has the session repository's cache shape, plus a weak, memoised pointer
 * to the session repository, which a new contextual model cannot do without
 * (a fatal `check`). As for the session repository, the registry operations
 * are given as functions on values and the methods are proved to match them.
 */
module ContextualRepository {
  import opened Engine
  import SessionRepository

  type SessionRepositoryRef = SessionRepository.ModelRepositorySubsystem?

  /** UUIContextualModel: its hooks are Blueprint events, recorded in the trace. */
  class ContextualModel {
    const modelType: TypeId

    constructor (modelType: TypeId)
      ensures this.modelType == modelType
    {
      this.modelType := modelType;
    }
  }

  /** ContextualModels: model class to model instance (an entry may have been nulled by the engine). */
  type Registry = map<TypeId, ContextualModel?>

  /** Every registered model is an instance of the class it is registered under. */
  ghost predicate WellTyped(models: Registry)
  {
    forall t :: t in models && models[t] != null ==> models[t].modelType == t
  }

  /** A request for a valid class that is not registered yet: the one case that creates. */
  predicate Misses(models: Registry, modelType: ClassRef)
  {
    modelType.ClassOf? && modelType.id !in models
  }

  /** What the subsystem's GetWorld() leads to: no world, or a world whose game instance holds a session repository. */
  datatype WorldLink = WithoutWorld | WithWorld(gameInstanceRepository: SessionRepositoryRef)

  /** The repository's state: the registry and the cached session repository pointer. */
  datatype State = State(models: Registry, cache: SessionRepositoryRef)

  /**
   * GetModeRepositorySubsystem as a value: the session repository it returns
   * and the cache it leaves. A weak pointer is valid while its object is in `alive`.
   */
  function ResolveSessionRepository(cache: SessionRepositoryRef, alive: set<object>, link: WorldLink): (SessionRepositoryRef, SessionRepositoryRef)
  {
    if cache != null && cache in alive then (cache, cache)
    else
      match link
      case WithWorld(r) => (if r != null && r in alive then r else null, r)
      case WithoutWorld => (null, cache)
  }

  /**
   * A valid cache is returned as it is, whatever the world says; otherwise a
   * world is asked and its answer cached; without a world the answer is null
   * and the cache is not touched.
   */
  lemma ResolveSessionRepositoryCases(cache: SessionRepositoryRef, alive: set<object>, link: WorldLink)
    ensures var (found, after) := ResolveSessionRepository(cache, alive, link);
      && (cache != null && cache in alive ==> found == cache && after == cache)
      && (!(cache != null && cache in alive) && link.WithWorld? ==> after == link.gameInstanceRepository)
      && (!(cache != null && cache in alive) && link.WithWorld? && link.gameInstanceRepository != null && link.gameInstanceRepository in alive ==> found == link.gameInstanceRepository)
      && (!(cache != null && cache in alive) && link.WithWorld? && !(link.gameInstanceRepository != null && link.gameInstanceRepository in alive) ==> found == null)
      && (!(cache != null && cache in alive) && link.WithoutWorld? ==> found == null && after == cache)
      && (found != null ==> found == after && found in alive)
  {
  }

  /** The effects of a creation once the session repository is found: register, inject, initialise. */
  function InjectionEvents(repository: object, t: TypeId, created: ContextualModel, found: SessionRepositoryRef): seq<Event>
  {
    [ Call(repository, Register(t, created)),
      Call(created, SetModelRepository(found)),
      Call(created, SetWorldModelRepository(repository)),
      Call(created, OnInitModel) ]
  }

  /** GetContextualModel on a state value; `created` is what NewObject returns on a miss. */
  function GetContextualModelSpec(repository: object, s: State, modelType: ClassRef, alive: set<object>, link: WorldLink, created: ContextualModel?): Answer<Exit<ContextualModel?>, State>
    requires Misses(s.models, modelType) ==> created != null
  {
    if modelType.NoClass? then Answer(Return(null), s, [])
    else if modelType.id in s.models then Answer(Return(s.models[modelType.id]), s, [])
    else
      var (found, cache) := ResolveSessionRepository(s.cache, alive, link);
      var allocation := [Call(created, NewObject(repository))];
      if found == null then Answer(Abort(NoSessionRepository), State(s.models, cache), allocation)
      else Answer(Return(created), State(s.models[modelType.id := created], cache),
                  allocation + InjectionEvents(repository, modelType.id, created, found))
  }

  /**
   * An invalid class, or a class already registered, answers without any
   * effect: no state change, no hook, and the session repository is not even
   * looked up.
   */
  lemma GetContextualModelNoEffect(repository: object, s: State, modelType: ClassRef, alive: set<object>, link: WorldLink, created: ContextualModel)
    requires !Misses(s.models, modelType)
    ensures var a := GetContextualModelSpec(repository, s, modelType, alive, link, created);
      && a.state == s && a.events == []
      && a.result == Return(if modelType.NoClass? then null else s.models[modelType.id])
  {
  }

  /**
   * On a miss, the creation stops at the `check` when no session repository
   * can be found: the model has been allocated but the registry is untouched
   * and no hook has run. Otherwise the new model is registered, then receives
   * the session repository, then this repository, then OnInitModel.
   */
  lemma GetContextualModelCreates(repository: object, s: State, t: TypeId, alive: set<object>, link: WorldLink, created: ContextualModel)
    requires WellTyped(s.models) && t !in s.models && created.modelType == t
    ensures var a := GetContextualModelSpec(repository, s, ClassOf(t), alive, link, created);
      var (found, cache) := ResolveSessionRepository(s.cache, alive, link);
      && a.state.cache == cache
      && a.events[..1] == [Call(created, NewObject(repository))]
      && (found == null <==> a.result.Abort?)
      && (found == null ==> a.state.models == s.models && |a.events| == 1)
      && (found != null ==>
            && a.result == Return(created)
            && a.state.models == s.models[t := created]
            && WellTyped(a.state.models)
            && a.events[1..] == [ Call(repository, Register(t, created)), Call(created, SetModelRepository(found)),
                                  Call(created, SetWorldModelRepository(repository)), Call(created, OnInitModel) ])
  {
  }

  /**
   * Two requests for the same class: once the first has returned a model, the
   * second returns the same one with no effect at all, so OnInitModel runs on
   * it exactly once.
   */
  lemma GetContextualModelTwice(repository: object, s: State, t: TypeId, alive: set<object>, link: WorldLink, created: ContextualModel, again: ContextualModel)
    ensures var first := GetContextualModelSpec(repository, s, ClassOf(t), alive, link, created);
      first.result.Return? ==>
        var second := GetContextualModelSpec(repository, first.state, ClassOf(t), alive, link, again);
        && second == Answer(first.result, first.state, [])
        && multiset(first.events + second.events)[Call(created, OnInitModel)] == (if t in s.models then 0 else 1)
  {
    var first := GetContextualModelSpec(repository, s, ClassOf(t), alive, link, created);
    if first.result.Return? && t !in s.models {
      assert first.events + [] == first.events;
    }
  }

  /** Deinitialize's effects, the map visited in `order`: OnDestroyModel on each non-null model, Empty, then the base teardown. */
  function DeinitializeEvents(repository: object, models: Registry, order: seq<TypeId>): seq<Event>
    requires forall i :: 0 <= i < |order| ==> order[i] in models
  {
    EntryCalls(order, models, OnDestroyModel) + [Call(repository, Emptied), Call(repository, SuperDeinitialize)]
  }

  /**
   * Whatever order the map is visited in, Deinitialize destroys every
   * registered model exactly once and no other object, and the base class's
   * teardown comes last.
   */
  lemma DeinitializeDestroysEachOnce(repository: object, models: Registry, order: seq<TypeId>, o: ContextualModel)
    requires WellTyped(models)
    requires Enumerates(order, models.Keys)
    ensures forall i :: 0 <= i < |order| ==> order[i] in models
    ensures multiset(DeinitializeEvents(repository, models, order))[Call(o, OnDestroyModel)]
            == (if exists t :: t in models && models[t] == o then 1 else 0)
    ensures DeinitializeEvents(repository, models, order)[|DeinitializeEvents(repository, models, order)| - 1]
            == Call(repository, SuperDeinitialize)
  {
    var calls := EntryCalls(order, models, OnDestroyModel);
    assert DeinitializeEvents(repository, models, order) == calls + [Call(repository, Emptied), Call(repository, SuperDeinitialize)];
    if t :| t in models && models[t] == o {
      EntryCallsOnce(order, models, OnDestroyModel, t);
    } else {
      EntryCallsAbsent(order, models, OnDestroyModel, o);
    }
  }

  class WorldModelRepositorySubsystem {
    var contextualModels: Registry
    /** ModelRepositorySubsystemCache: a mutable weak pointer, written by a const lookup. */
    var modelRepositoryCache: SessionRepositoryRef

    constructor ()
      ensures contextualModels == map[] && modelRepositoryCache == null
    {
      contextualModels := map[];
      modelRepositoryCache := null;
    }

    ghost predicate Valid()
      reads this
    {
      WellTyped(contextualModels)
    }

    ghost function CurrentState(): State
      reads this
    {
      State(contextualModels, modelRepositoryCache)
    }

    /** GetModeRepositorySubsystem: the cached session repository, or the world's, then cached. */
    method GetModeRepositorySubsystem(alive: set<object>, link: WorldLink) returns (found: SessionRepositoryRef)
      modifies this`modelRepositoryCache
      ensures (found, modelRepositoryCache) == ResolveSessionRepository(old(modelRepositoryCache), alive, link)
    {
      if modelRepositoryCache != null && modelRepositoryCache in alive {
        return modelRepositoryCache;
      }
      if link.WithWorld? {
        modelRepositoryCache := link.gameInstanceRepository;
        found := if modelRepositoryCache != null && modelRepositoryCache in alive then modelRepositoryCache else null;
        return;
      }
      return null;
    }

    /** GetContextualModel: null for an invalid class, the registered model if any, else a new one. */
    method GetContextualModel(host: Host, modelType: ClassRef, alive: set<object>, link: WorldLink)
      returns (r: Exit<ContextualModel?>, ghost created: ContextualModel?)
      requires Valid()
      modifies this, host
      ensures Valid()
      ensures Misses(old(contextualModels), modelType) ==> created != null && fresh(created)
      ensures var a := GetContextualModelSpec(this, old(CurrentState()), modelType, alive, link, created);
        a.result == r && a.state == CurrentState() && host.events == old(host.events) + a.events
    {
      created := null;
      if modelType.NoClass? {
        return Return(null), created;
      }
      if modelType.id in contextualModels {
        return Return(contextualModels[modelType.id]), created;
      }
      var model;
      r, model := CreateContextualModel(host, modelType.id, alive, link);
      created := model;
    }

    /** CreateContextualModel: allocate, then `check` the session repository before touching the map. */
    method CreateContextualModel(host: Host, t: TypeId, alive: set<object>, link: WorldLink)
      returns (r: Exit<ContextualModel?>, model: ContextualModel)
      requires Valid()
      modifies this, host
      ensures Valid()
      ensures fresh(model) && model.modelType == t
      ensures var (found, cache) := ResolveSessionRepository(old(modelRepositoryCache), alive, link);
        && modelRepositoryCache == cache
        && (found == null ==> r == Abort(NoSessionRepository) && contextualModels == old(contextualModels)
                              && host.events == old(host.events) + [Call(model, NewObject(this))])
        && (found != null ==> r == Return(model) && contextualModels == old(contextualModels)[t := model]
                              && host.events == old(host.events) + [Call(model, NewObject(this))]
                                                + InjectionEvents(this, t, model, found))
    {
      model := new ContextualModel(t);
      host.events := host.events + [Call(model, NewObject(this))];
      var found := GetModeRepositorySubsystem(alive, link);
      if found == null {
        return Abort(NoSessionRepository), model;
      }
      contextualModels := contextualModels[t := model];
      host.events := host.events + [Call(this, Register(t, model))];
      host.events := host.events + [Call(model, SetModelRepository(found))];
      host.events := host.events + [Call(model, SetWorldModelRepository(this))];
      host.events := host.events + [Call(model, OnInitModel)];
      r := Return(model);
    }

    /** Deinitialize: OnDestroyModel on every non-null model, in the map's order, empty the map, then the base teardown. */
    method Deinitialize(host: Host) returns (ghost order: seq<TypeId>)
      requires Valid()
      modifies this, host
      ensures Valid() && contextualModels == map[]
      ensures modelRepositoryCache == old(modelRepositoryCache)
      ensures Enumerates(order, old(contextualModels).Keys)
      ensures forall i :: 0 <= i < |order| ==> order[i] in old(contextualModels)
      ensures host.events == old(host.events) + DeinitializeEvents(this, old(contextualModels), order)
    {
      var remaining := contextualModels.Keys;
      order := [];
      while remaining != {}
        invariant remaining <= contextualModels.Keys
        invariant contextualModels == old(contextualModels) && modelRepositoryCache == old(modelRepositoryCache)
        invariant forall i :: 0 <= i < |order| ==> order[i] in contextualModels && order[i] !in remaining
        invariant forall i, j :: 0 <= i < j < |order| ==> order[i] != order[j]
        invariant forall k :: k in contextualModels ==> k in remaining || k in order
        invariant host.events == old(host.events) + EntryCalls(order, contextualModels, OnDestroyModel)
        decreases remaining
      {
        var t :| t in remaining;
        var model := contextualModels[t];
        if model != null {
          host.events := host.events + [Call(model, OnDestroyModel)];
        }
        EntryCallsAppend(order, contextualModels, OnDestroyModel, t);
        order := order + [t];
        remaining := remaining - {t};
      }
      contextualModels := map[];
      host.events := host.events + [Call(this, Emptied)];
      host.events := host.events + [Call(this, SuperDeinitialize)];
    }
  }
}
