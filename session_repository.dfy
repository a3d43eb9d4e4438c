/**
 * UModelRepositorySubsystem: the game-instance subsystem that keeps one
 * session model per model class for the whole run of the application.
 *
 * The registry value and what each operation does to it are given as
 * functions (`GetSessionModelSpec`, `CloseSessionEvents`); the subsystem's
 * methods are proved to match them, and the lemmas state what the source
 * promises about repeated and teardown calls.
 */
module SessionRepository {
  import opened Engine

  /** UUISessionModel: its hooks are Blueprint events, recorded in the trace. */
  class SessionModel {
    const modelType: TypeId

    constructor (modelType: TypeId)
      ensures this.modelType == modelType
    {
      this.modelType := modelType;
    }
  }

  /** SessionModels: model class to model instance (an entry may have been nulled by the engine). */
  type Registry = map<TypeId, SessionModel?>

  /** Every registered model is an instance of the class it is registered under. */
  ghost predicate WellTyped(models: Registry)
  {
    forall t :: t in models && models[t] != null ==> models[t].modelType == t
  }

  /** A request for a valid class that is not registered yet: the one case that creates. */
  predicate Misses(models: Registry, modelType: ClassRef)
  {
    modelType.ClassOf? && modelType.id !in models
  }

  /** CreateSessionModel's effects: allocate, register, inject this repository, start the session. */
  function CreationEvents(repository: object, t: TypeId, created: SessionModel): seq<Event>
  {
    [ Call(created, NewObject(repository)),
      Call(repository, Register(t, created)),
      Call(created, SetModelRepository(repository)),
      Call(created, StartSession) ]
  }

  /** GetSessionModel on a registry value; `created` is what NewObject returns on a miss. */
  function GetSessionModelSpec(repository: object, models: Registry, modelType: ClassRef, created: SessionModel?): Answer<SessionModel?, Registry>
    requires Misses(models, modelType) ==> created != null
  {
    if modelType.NoClass? then Answer(null, models, [])
    else if modelType.id in models then Answer(models[modelType.id], models, [])
    else Answer(created, models[modelType.id := created], CreationEvents(repository, modelType.id, created))
  }

  /**
   * After a request for a valid class, the registry maps that class to the
   * returned model, every other key is untouched, and the registry stays
   * well typed; an invalid class changes nothing and fires nothing.
   */
  lemma GetSessionModelRegisters(repository: object, models: Registry, modelType: ClassRef, created: SessionModel)
    requires WellTyped(models)
    requires Misses(models, modelType) ==> created.modelType == modelType.id
    ensures var a := GetSessionModelSpec(repository, models, modelType, created);
      && WellTyped(a.state)
      && (modelType.NoClass? ==> a == Answer(null, models, []))
      && (modelType.ClassOf? ==> modelType.id in a.state && a.state[modelType.id] == a.result)
      && (forall k :: k in models ==> k in a.state && (modelType != ClassOf(k) ==> a.state[k] == models[k]))
      && (forall k :: k in a.state && modelType != ClassOf(k) ==> k in models)
  {
  }

  /**
   * Two requests for the same class return the same instance; the second one
   * changes nothing and fires nothing, and StartSession fires on that instance
   * exactly once across both when the first request created it (never when it
   * was already registered).
   */
  lemma GetSessionModelTwice(repository: object, models: Registry, t: TypeId, created: SessionModel, again: SessionModel)
    ensures var first := GetSessionModelSpec(repository, models, ClassOf(t), created);
      var second := GetSessionModelSpec(repository, first.state, ClassOf(t), again);
      && second == Answer(first.result, first.state, [])
      && multiset(first.events + second.events)[Call(created, StartSession)] == (if t in models then 0 else 1)
  {
    var first := GetSessionModelSpec(repository, models, ClassOf(t), created);
    if t !in models {
      assert first.events + [] == CreationEvents(repository, t, created);
    }
  }

  /** CloseSession's effects, the map visited in `order`: EndSession on each non-null model, then Empty. */
  function CloseSessionEvents(repository: object, models: Registry, order: seq<TypeId>): seq<Event>
    requires forall i :: 0 <= i < |order| ==> order[i] in models
  {
    EntryCalls(order, models, EndSession) + [Call(repository, Emptied)]
  }

  /**
   * Whatever order the map is visited in, CloseSession ends the session of
   * every registered model exactly once, and of no other object.
   */
  lemma CloseSessionEndsEachOnce(repository: object, models: Registry, order: seq<TypeId>, o: SessionModel)
    requires WellTyped(models)
    requires Enumerates(order, models.Keys)
    ensures forall i :: 0 <= i < |order| ==> order[i] in models
    ensures multiset(CloseSessionEvents(repository, models, order))[Call(o, EndSession)]
            == (if exists t :: t in models && models[t] == o then 1 else 0)
  {
    var calls := EntryCalls(order, models, EndSession);
    assert CloseSessionEvents(repository, models, order) == calls + [Call(repository, Emptied)];
    if t :| t in models && models[t] == o {
      EntryCallsOnce(order, models, EndSession, t);
    } else {
      EntryCallsAbsent(order, models, EndSession, o);
    }
  }

  /**
   * A second CloseSession finds the registry empty: no key can be visited, so
   * it fires no hook and only empties the map again.
   */
  lemma CloseSessionAgain(repository: object, models: Registry, order: seq<TypeId>)
    requires models == map[]
    requires forall i :: 0 <= i < |order| ==> order[i] in models
    ensures CloseSessionEvents(repository, models, order) == [Call(repository, Emptied)]
  {
  }

  class ModelRepositorySubsystem {
    var sessionModels: Registry

    constructor ()
      ensures sessionModels == map[]
    {
      sessionModels := map[];
    }

    ghost predicate Valid()
      reads this
    {
      WellTyped(sessionModels)
    }

    /** GetSessionModel: null for an invalid class, the registered model if any, else a new one. */
    method GetSessionModel(host: Host, modelType: ClassRef) returns (model: SessionModel?)
      requires Valid()
      modifies this, host
      ensures Valid()
      ensures Misses(old(sessionModels), modelType) ==> model != null && fresh(model)
      ensures var a := GetSessionModelSpec(this, old(sessionModels), modelType, model);
        a.result == model && a.state == sessionModels && host.events == old(host.events) + a.events
    {
      if modelType.NoClass? {
        return null;
      }
      if modelType.id in sessionModels {
        return sessionModels[modelType.id];
      }
      model := CreateSessionModel(host, modelType.id);
    }

    /** CreateSessionModel: the new model is registered before any of its hooks runs. */
    method CreateSessionModel(host: Host, t: TypeId) returns (model: SessionModel)
      requires Valid()
      modifies this, host
      ensures Valid()
      ensures fresh(model) && model.modelType == t
      ensures sessionModels == old(sessionModels)[t := model]
      ensures host.events == old(host.events) + CreationEvents(this, t, model)
    {
      model := new SessionModel(t);
      host.events := host.events + [Call(model, NewObject(this))];
      sessionModels := sessionModels[t := model];
      host.events := host.events + [Call(this, Register(t, model))];
      host.events := host.events + [Call(model, SetModelRepository(this))];
      host.events := host.events + [Call(model, StartSession)];
    }

    /** CloseSession: EndSession on every non-null model, in the map's order, then empty the map. */
    method CloseSession(host: Host) returns (ghost order: seq<TypeId>)
      requires Valid()
      modifies this, host
      ensures Valid() && sessionModels == map[]
      ensures Enumerates(order, old(sessionModels).Keys)
      ensures forall i :: 0 <= i < |order| ==> order[i] in old(sessionModels)
      ensures host.events == old(host.events) + CloseSessionEvents(this, old(sessionModels), order)
    {
      var remaining := sessionModels.Keys;
      order := [];
      while remaining != {}
        invariant remaining <= sessionModels.Keys
        invariant sessionModels == old(sessionModels)
        invariant forall i :: 0 <= i < |order| ==> order[i] in sessionModels && order[i] !in remaining
        invariant forall i, j :: 0 <= i < j < |order| ==> order[i] != order[j]
        invariant forall k :: k in sessionModels ==> k in remaining || k in order
        invariant host.events == old(host.events) + EntryCalls(order, sessionModels, EndSession)
        decreases remaining
      {
        var t :| t in remaining;
        var model := sessionModels[t];
        if model != null {
          host.events := host.events + [Call(model, EndSession)];
        }
        EntryCallsAppend(order, sessionModels, EndSession, t);
        order := order + [t];
        remaining := remaining - {t};
      }
      sessionModels := map[];
      host.events := host.events + [Call(this, Emptied)];
    }
  }
}
