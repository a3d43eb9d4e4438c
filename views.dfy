/**
 * UUIView and UUIViewModel: a view creates its viewmodel once, injects the
 * two repositories into it and binds it to itself; the viewmodel subscribes
 * to the view's OnDestroyView delegate and unsubscribes when it fires.
 *
 * The delegate is the view's `onDestroyView` sequence of subscribers.
 * Weak pointers are valid while their object is in `alive`.
 */
module Views {
  import opened Engine
  import opened WorldContext
  import SessionRepository
  import ContextualRepository

  type SessionRepositoryRef = SessionRepository.ModelRepositorySubsystem?
  type WorldRepositoryRef = ContextualRepository.WorldModelRepositorySubsystem?

  /** The effects of a first InitializeView with a viewmodel class: create, inject, bind, subscribe. */
  function InitializeViewEvents(view: View, viewModel: ViewModel, modelRepository: SessionRepositoryRef, worldModelRepository: WorldRepositoryRef): seq<Event>
  {
    [ Call(viewModel, NewObject(view)),
      Call(viewModel, SetModelRepository(modelRepository)),
      Call(viewModel, SetWorldModelRepository(worldModelRepository)),
      Call(viewModel, InitializeViewModel(view)),
      Call(view, Subscribe(viewModel)) ]
  }

  /**
   * The viewmodel is created exactly once and is handed the session
   * repository, then the world repository, then bound to the view, and only
   * the binding subscribes it to the view.
   */
  lemma InitializeViewOrder(view: View, viewModel: ViewModel, modelRepository: SessionRepositoryRef, worldModelRepository: WorldRepositoryRef)
    ensures var e := InitializeViewEvents(view, viewModel, modelRepository, worldModelRepository);
      && multiset(e)[Call(viewModel, NewObject(view))] == 1
      && e[0].action.NewObject? && e[1].action.SetModelRepository? && e[2].action.SetWorldModelRepository?
      && e[3].action.InitializeViewModel? && e[4] == Call(view, Subscribe(viewModel))
      && forall i :: 0 <= i < 4 ==> e[i].target == viewModel
  {
  }

  /** What the destroy handler of `viewModel`, bound to `view`, does when OnDestroyView fires. */
  function DestroyHandlerEvents(view: View, alive: set<object>, viewModel: ViewModel): seq<Event>
  {
    (if view in alive then [Call(view, Unsubscribe(viewModel))] else []) + [Call(viewModel, OnDestroyViewModel)]
  }

  /** OnDestroyView.Broadcast() over a snapshot of the subscribers, in order. */
  function BroadcastEvents(view: View, alive: set<object>, subscribers: seq<ViewModel>): seq<Event>
  {
    if subscribers == [] then []
    else DestroyHandlerEvents(view, alive, subscribers[0]) + BroadcastEvents(view, alive, subscribers[1..])
  }

  /** Running one more handler appends its effects. */
  lemma {:induction false} BroadcastAppend(view: View, alive: set<object>, subscribers: seq<ViewModel>, viewModel: ViewModel)
    ensures BroadcastEvents(view, alive, subscribers + [viewModel])
            == BroadcastEvents(view, alive, subscribers) + DestroyHandlerEvents(view, alive, viewModel)
  {
    if subscribers == [] {
      assert subscribers + [viewModel] == [viewModel];
    } else {
      assert (subscribers + [viewModel])[1..] == subscribers[1..] + [viewModel];
      BroadcastAppend(view, alive, subscribers[1..], viewModel);
    }
  }

  /** Position `i` of the trace `e` is `viewModel`'s hook, right after its unsubscription when the view is alive. */
  predicate HandlerRanAt(e: seq<Event>, i: int, view: View, alive: set<object>, viewModel: ViewModel)
  {
    && 0 <= i < |e| && e[i] == Call(viewModel, OnDestroyViewModel)
    && (view in alive ==> 0 < i && e[i - 1] == Call(view, Unsubscribe(viewModel)))
  }

  /** Every subscriber's handler runs, and each unsubscribes right before its own hook runs. */
  lemma {:induction false} BroadcastRunsEachHandler(view: View, alive: set<object>, subscribers: seq<ViewModel>, k: nat)
    requires k < |subscribers|
    ensures exists i :: HandlerRanAt(BroadcastEvents(view, alive, subscribers), i, view, alive, subscribers[k])
  {
    var first := DestroyHandlerEvents(view, alive, subscribers[0]);
    var rest := BroadcastEvents(view, alive, subscribers[1..]);
    assert BroadcastEvents(view, alive, subscribers) == first + rest;
    if k == 0 {
      var i := |first| - 1;
      assert (first + rest)[i] == first[i];
      if view in alive {
        assert (first + rest)[i - 1] == first[0];
      }
      assert HandlerRanAt(first + rest, i, view, alive, subscribers[k]);
    } else {
      assert subscribers[1..][k - 1] == subscribers[k];
      BroadcastRunsEachHandler(view, alive, subscribers[1..], k - 1);
      var i :| HandlerRanAt(rest, i, view, alive, subscribers[k]);
      assert (first + rest)[|first| + i] == rest[i];
      if view in alive {
        assert (first + rest)[|first| + i - 1] == rest[i - 1];
      }
      assert HandlerRanAt(first + rest, |first| + i, view, alive, subscribers[k]);
    }
  }

  /** Broadcasting runs a viewmodel's hook exactly as many times as it is bound, and never for one that is not. */
  lemma {:induction false} BroadcastRunsHandlerOnce(view: View, alive: set<object>, subscribers: seq<ViewModel>, viewModel: ViewModel)
    ensures multiset(BroadcastEvents(view, alive, subscribers))[Call(viewModel, OnDestroyViewModel)]
            == multiset(subscribers)[viewModel]
  {
    if subscribers != [] {
      assert subscribers == [subscribers[0]] + subscribers[1..];
      BroadcastRunsHandlerOnce(view, alive, subscribers[1..], viewModel);
    }
  }

  /** The subscribers of `subscribers` that are not in `removed`, in their order. */
  function Remaining(subscribers: seq<ViewModel>, removed: seq<ViewModel>): seq<ViewModel>
  {
    if subscribers == [] then []
    else (if subscribers[0] in removed then [] else [subscribers[0]]) + Remaining(subscribers[1..], removed)
  }

  /** Before any handler has run, every subscriber remains. */
  lemma {:induction false} RemainingAll(subscribers: seq<ViewModel>)
    ensures Remaining(subscribers, []) == subscribers
  {
    if subscribers != [] {
      RemainingAll(subscribers[1..]);
    }
  }

  /** One more handler unsubscribing removes exactly its own bindings. */
  lemma {:induction false} RemainingStep(subscribers: seq<ViewModel>, removed: seq<ViewModel>, viewModel: ViewModel)
    ensures Without(Remaining(subscribers, removed), viewModel) == Remaining(subscribers, removed + [viewModel])
  {
    if subscribers != [] {
      var head := if subscribers[0] in removed then [] else [subscribers[0]];
      var tail := Remaining(subscribers[1..], removed);
      RemainingStep(subscribers[1..], removed, viewModel);
      WithoutConcat(head, tail, viewModel);
    }
  }

  /** Unsubscribing from a list is unsubscribing from each of its two parts. */
  lemma {:induction false} WithoutConcat(front: seq<ViewModel>, back: seq<ViewModel>, viewModel: ViewModel)
    ensures Without(front + back, viewModel) == Without(front, viewModel) + Without(back, viewModel)
  {
    if front != [] {
      assert (front + back)[1..] == front[1..] + back;
      WithoutConcat(front[1..], back, viewModel);
    } else {
      assert front + back == back;
    }
  }

  /** Once every subscriber of a snapshot has run its handler, none remains. */
  lemma {:induction false} RemainingNone(subscribers: seq<ViewModel>, removed: seq<ViewModel>)
    requires forall i :: 0 <= i < |subscribers| ==> subscribers[i] in removed
    ensures Remaining(subscribers, removed) == []
  {
    if subscribers != [] {
      assert forall i :: 0 <= i < |subscribers| - 1 ==> subscribers[1..][i] == subscribers[i + 1];
      RemainingNone(subscribers[1..], removed);
    }
  }

  /** UUIView. */
  class View {
    /** The widget class this view is an instance of. */
    const viewType: TypeId
    /** ViewModelClassType and ViewLayer: class defaults set in the editor. */
    const viewModelClass: ClassRef
    const viewLayer: UILayer
    /** The player the widget was created for, if any (UUserWidget::GetOwningPlayer). */
    const owningPlayer: Option<PlayerController>
    var initialized: bool
    var viewModel: ViewModel?
    /** OnDestroyView: the viewmodels bound to it, in subscription order. */
    var onDestroyView: seq<ViewModel>

    constructor (viewType: TypeId, viewModelClass: ClassRef, viewLayer: UILayer, owningPlayer: Option<PlayerController>)
      ensures this.viewType == viewType && this.viewModelClass == viewModelClass
      ensures this.viewLayer == viewLayer && this.owningPlayer == owningPlayer
      ensures !initialized && viewModel == null && onDestroyView == []
    {
      this.viewType := viewType;
      this.viewModelClass := viewModelClass;
      this.viewLayer := viewLayer;
      this.owningPlayer := owningPlayer;
      initialized := false;
      viewModel := null;
      onDestroyView := [];
    }

    /** GetUILayer: the configured layer, which fixes the z-order of AddToViewport. */
    function GetUILayer(): (layer: UILayer)
      reads this
      ensures layer == viewLayer
      ensures ZOrder(layer) == 3 <==> viewLayer == PopUp
    {
      viewLayer
    }

    /** IsInitializedView: whether InitializeView has been entered before. */
    function IsInitializedView(): (done: bool)
      reads this
      ensures done <==> initialized
    {
      initialized
    }

    /**
     * InitializeView: at most once; the flag is set before the `checkf` on the
     * viewmodel class, then exactly one viewmodel is created and injected.
     */
    method InitializeView(host: Host, modelRepository: SessionRepositoryRef, worldModelRepository: WorldRepositoryRef)
      returns (r: Exit<()>)
      modifies this, host
      ensures old(initialized) ==>
        r == Return(()) && viewModel == old(viewModel) && onDestroyView == old(onDestroyView) && initialized
        && host.events == old(host.events)
      ensures !old(initialized) && viewModelClass.NoClass? ==>
        r == Abort(NoViewModelClass) && initialized && viewModel == old(viewModel)
        && onDestroyView == old(onDestroyView) && host.events == old(host.events)
      ensures !old(initialized) && viewModelClass.ClassOf? ==>
        && r == Return(()) && initialized
        && viewModel != null && fresh(viewModel) && viewModel.viewModelType == viewModelClass.id
        && viewModel.ownerView == this
        && viewModel.modelRepository == modelRepository && viewModel.worldModelRepository == worldModelRepository
        && onDestroyView == old(onDestroyView) + [viewModel]
        && host.events == old(host.events) + InitializeViewEvents(this, viewModel, modelRepository, worldModelRepository)
    {
      if initialized {
        return Return(());
      }
      initialized := true;
      if viewModelClass.NoClass? {
        return Abort(NoViewModelClass);
      }
      var created := new ViewModel(viewModelClass.id);
      host.events := host.events + [Call(created, NewObject(this))];
      viewModel := created;
      created.SetModelRepository(host, modelRepository);
      created.SetWorldModelRepository(host, worldModelRepository);
      r := created.InitializeViewModel(host, this);
    }

    /**
     * NativeDestruct: OnDestroyView is broadcast to a snapshot of its
     * subscribers before the base class's teardown. Each subscriber is a
     * viewmodel bound to this view, so its handler unsubscribes from here.
     */
    method NativeDestruct(host: Host, alive: set<object>)
      requires forall i :: 0 <= i < |onDestroyView| ==> onDestroyView[i].ownerView == this
      modifies this`onDestroyView, host
      ensures onDestroyView == if this in alive then [] else old(onDestroyView)
      ensures host.events == old(host.events) + BroadcastEvents(this, alive, old(onDestroyView)) + [Call(this, SuperNativeDestruct)]
    {
      var subscribers := onDestroyView;
      RemainingAll(subscribers);
      var i := 0;
      while i < |subscribers|
        invariant 0 <= i <= |subscribers|
        invariant forall j :: 0 <= j < |subscribers| ==> subscribers[j].ownerView == this
        invariant this in alive ==> onDestroyView == Remaining(subscribers, subscribers[..i])
        invariant this !in alive ==> onDestroyView == subscribers
        invariant host.events == old(host.events) + BroadcastEvents(this, alive, subscribers[..i])
      {
        var subscriber := subscribers[i];
        assert BroadcastEvents(this, alive, subscribers[..i + 1])
               == BroadcastEvents(this, alive, subscribers[..i]) + DestroyHandlerEvents(this, alive, subscriber) by {
          assert subscribers[..i + 1] == subscribers[..i] + [subscriber];
          BroadcastAppend(this, alive, subscribers[..i], subscriber);
        }
        assert Remaining(subscribers, subscribers[..i + 1]) == Without(Remaining(subscribers, subscribers[..i]), subscriber) by {
          assert subscribers[..i + 1] == subscribers[..i] + [subscriber];
          RemainingStep(subscribers, subscribers[..i], subscriber);
        }
        Notify(host, alive, subscriber);
        i := i + 1;
      }
      assert subscribers[..i] == subscribers;
      RemainingNone(subscribers, subscribers);
      host.events := host.events + [Call(this, SuperNativeDestruct)];
    }

    /** One handler run of the broadcast: `subscriber` is bound to this view. */
    method Notify(host: Host, alive: set<object>, subscriber: ViewModel)
      requires subscriber.ownerView == this
      modifies this`onDestroyView, host
      ensures onDestroyView == if this in alive then Without(old(onDestroyView), subscriber) else old(onDestroyView)
      ensures host.events == old(host.events) + DestroyHandlerEvents(this, alive, subscriber)
    {
      subscriber.OnDestroyViewModel(host, alive);
    }

    /** ShowView: make the widget visible but not hit-testable; nothing else changes. */
    method ShowView(host: Host)
      modifies host
      ensures host.events == old(host.events) + [Call(this, SetVisibility(HitTestInvisible))]
    {
      host.events := host.events + [Call(this, SetVisibility(HitTestInvisible))];
    }

    /** HideView: collapse the widget; nothing else changes. */
    method HideView(host: Host)
      modifies host
      ensures host.events == old(host.events) + [Call(this, SetVisibility(Collapsed))]
    {
      host.events := host.events + [Call(this, SetVisibility(Collapsed))];
    }
  }

  /** UUIViewModel. Its UObjectWithWorldContext part is the `context` object. */
  class ViewModel {
    const viewModelType: TypeId
    const context: ObjectWithWorldContext
    /** OwnerView, ModelRepository, WorldModelRepository: weak pointers. */
    var ownerView: View?
    var modelRepository: SessionRepositoryRef
    var worldModelRepository: WorldRepositoryRef

    constructor (viewModelType: TypeId)
      ensures this.viewModelType == viewModelType && fresh(context) && context.cachedWorld == None
      ensures ownerView == null && modelRepository == null && worldModelRepository == null
    {
      this.viewModelType := viewModelType;
      context := new ObjectWithWorldContext();
      ownerView := null;
      modelRepository := null;
      worldModelRepository := null;
    }

    /** GetModelRepository: the session repository while it is alive, else null. */
    function GetModelRepository(alive: set<object>): (r: SessionRepositoryRef)
      reads this
      ensures r != null <==> Live(modelRepository, alive)
      ensures r != null ==> r == modelRepository
    {
      if Live(modelRepository, alive) then modelRepository else null
    }

    /** GetWorldModelRepository: the world repository while it is alive, else null. */
    function GetWorldModelRepository(alive: set<object>): (r: WorldRepositoryRef)
      reads this
      ensures r != null <==> Live(worldModelRepository, alive)
      ensures r != null ==> r == worldModelRepository
    {
      if Live(worldModelRepository, alive) then worldModelRepository else null
    }

    /** GetOwnerView: the bound view while it is alive, else null. */
    function GetOwnerView(alive: set<object>): (r: View?)
      reads this
      ensures r != null <==> Live(ownerView, alive)
      ensures r != null ==> r == ownerView
    {
      if Live(ownerView, alive) then ownerView else null
    }

    /**
     * GetOwningPlayer: the owner view's player while the view is alive; else
     * player 0 of the world found through the outer chain (`playerZero`
     * says which worlds have one); else none.
     */
    method GetOwningPlayer(alive: set<object>, liveWorlds: set<World>, outers: seq<Option<World>>, playerZero: map<World, PlayerController>)
      returns (player: Option<PlayerController>)
      modifies context
      ensures Live(ownerView, alive) ==> player == ownerView.owningPlayer && context.cachedWorld == old(context.cachedWorld)
      ensures !Live(ownerView, alive) ==>
        var (world, cache) := ResolveWorld(old(context.cachedWorld), liveWorlds, outers);
        && context.cachedWorld == cache
        && player == (if world.Some? && world.value in playerZero then Some(playerZero[world.value]) else None)
    {
      var view := GetOwnerView(alive);
      if view != null {
        return view.owningPlayer;
      }
      var world := context.GetWorldContext(liveWorlds, outers);
      if world.Some? && world.value in playerZero {
        return Some(playerZero[world.value]);
      }
      return None;
    }

    /** The SetModelRepository hook: writes only its own field. */
    method SetModelRepository(host: Host, repository: SessionRepositoryRef)
      modifies this`modelRepository, host
      ensures modelRepository == repository
      ensures host.events == old(host.events) + [Call(this, Action.SetModelRepository(repository))]
    {
      host.events := host.events + [Call(this, Action.SetModelRepository(repository))];
      modelRepository := repository;
    }

    /** The SetWorldModelRepository hook: writes only its own field. */
    method SetWorldModelRepository(host: Host, repository: WorldRepositoryRef)
      modifies this`worldModelRepository, host
      ensures worldModelRepository == repository
      ensures host.events == old(host.events) + [Call(this, Action.SetWorldModelRepository(repository))]
    {
      host.events := host.events + [Call(this, Action.SetWorldModelRepository(repository))];
      worldModelRepository := repository;
    }

    /**
     * The InitializeViewModel hook: a null view is fatal; otherwise the view
     * becomes the owner and this viewmodel is appended to its OnDestroyView.
     */
    method InitializeViewModel(host: Host, view: View?) returns (r: Exit<()>)
      modifies this`ownerView, host, (if view == null then {} else {view})`onDestroyView
      ensures view == null ==>
        r == Abort(NullView) && ownerView == old(ownerView) && host.events == old(host.events) + [Call(this, Action.InitializeViewModel(null))]
      ensures view != null ==>
        && r == Return(()) && ownerView == view
        && view.onDestroyView == old(view.onDestroyView) + [this]
        && host.events == old(host.events) + [Call(this, Action.InitializeViewModel(view)), Call(view, Subscribe(this))]
    {
      host.events := host.events + [Call(this, Action.InitializeViewModel(view))];
      if view == null {
        return Abort(NullView);
      }
      ownerView := view;
      view.onDestroyView := view.onDestroyView + [this];
      host.events := host.events + [Call(view, Subscribe(this))];
      r := Return(());
    }

    /**
     * The OnDestroyView handler: leave the owner view's delegate, if the view
     * is still alive, and only then run the OnDestroyViewModel hook.
     */
    method OnDestroyViewModel(host: Host, alive: set<object>)
      modifies host, (if ownerView == null then {} else {ownerView})`onDestroyView
      ensures Live(ownerView, alive) ==>
        && ownerView.onDestroyView == Without(old(ownerView.onDestroyView), this)
        && host.events == old(host.events) + [Call(ownerView, Unsubscribe(this)), Call(this, Action.OnDestroyViewModel)]
      ensures !Live(ownerView, alive) ==> host.events == old(host.events) + [Call(this, Action.OnDestroyViewModel)]
      ensures ownerView != null ==> host.events == old(host.events) + DestroyHandlerEvents(ownerView, alive, this)
      ensures ownerView != null && ownerView !in alive ==> ownerView.onDestroyView == old(ownerView.onDestroyView)
    {
      var view := GetOwnerView(alive);
      if view != null {
        view.onDestroyView := Without(view.onDestroyView, this);
        host.events := host.events + [Call(view, Unsubscribe(this))];
      }
      host.events := host.events + [Call(this, Action.OnDestroyViewModel)];
    }
  }
}
