/**
 * UWindowSubsystem: the world subsystem that opens at most one window per
 * window class, remembers them in OpenedWindows, hides or shows all of them
 * at once, and creates pop-ups, which it does not remember.
 *
 * What the subsystem asks of the engine (whether this is a dedicated
 * server, whether there is a world, which repositories the world hands out,
 * the class defaults of a widget class) is the `Env` parameter.
 */
module Windows {
  import opened Engine
  import opened Views
  import opened PopUps
  import SessionRepository
  import ContextualRepository

  type WindowRegistry = map<TypeId, View?>

  /** The class defaults a new view takes from its widget class. */
  datatype ViewDefaults = ViewDefaults(viewModelClass: ClassRef, viewLayer: UILayer)

  /** The class defaults a new pop-up takes from its widget class. */
  datatype PopUpDefaults = PopUpDefaults(viewLayer: UILayer, useSelfDestroyTimer: bool)

  /**
   * IsRunningDedicatedServer(); whether GetWorld() is set; the world's
   * UWorldModelRepositorySubsystem and its game instance's
   * UModelRepositorySubsystem (either may be null); the widget classes'
   * defaults.
   */
  datatype Env = Env(
    dedicatedServer: bool,
    hasWorld: bool,
    sessionRepository: Views.SessionRepositoryRef,
    worldRepository: Views.WorldRepositoryRef,
    viewDefaults: TypeId -> ViewDefaults,
    popUpDefaults: TypeId -> PopUpDefaults)

  /** The guard OpenWindow and CreatePopUp share: a client with a world and a valid class. */
  predicate MayCreate(env: Env, widgetType: ClassRef)
  {
    !env.dedicatedServer && env.hasWorld && widgetType.ClassOf?
  }

  /** Every open window is an instance of the class it is registered under. */
  ghost predicate WellTyped(windows: WindowRegistry)
  {
    forall t :: t in windows && windows[t] != null ==> windows[t].viewType == t
  }

  /** A well-typed registry holds no window under two classes. */
  lemma WellTypedInjective(windows: WindowRegistry)
    requires WellTyped(windows)
    ensures Injective(windows)
  {
    forall k1, k2 | k1 in windows && k2 in windows && k1 != k2 && windows[k1] != null
      ensures windows[k1] != windows[k2]
    {
      assert windows[k1].viewType == k1;
    }
  }

  /** The effects of opening a new window, before it is initialised: create, register, maybe hide, attach. */
  function OpenEvents(subsystem: object, t: TypeId, window: View, owner: Option<PlayerController>, hidden: bool): seq<Event>
  {
    [Call(window, CreateWidget(owner)), Call(subsystem, Register(t, window))]
    + (if hidden then [Call(window, SetVisibility(Collapsed))] else [])
    + [Call(window, AddToViewport(ZOrder(window.viewLayer)))]
  }

  /**
   * A new window is registered before anything else happens to it, is
   * collapsed exactly when all windows are hidden, and is attached to the
   * viewport last, at its layer's z-order.
   */
  lemma OpenEventsOrder(subsystem: object, t: TypeId, window: View, owner: Option<PlayerController>, hidden: bool)
    ensures var e := OpenEvents(subsystem, t, window, owner, hidden);
      && e[1] == Call(subsystem, Register(t, window))
      && (Call(window, SetVisibility(Collapsed)) in e <==> hidden)
      && Call(window, SetVisibility(HitTestInvisible)) !in e
      && e[|e| - 1] == Call(window, AddToViewport(ZOrder(window.viewLayer)))
      && |e| == (if hidden then 4 else 3)
  {
  }

  /** The effects of closing the entry `t`: remove its window from its parent, if any, then unregister. */
  function CloseEvents(subsystem: object, t: TypeId, window: View?): seq<Event>
  {
    CallOn(window, RemoveFromParent) + [Call(subsystem, Unregister(t))]
  }

  /** CloseAllWindows's effects, the entries visited in `order`. */
  function CloseAllEvents(subsystem: object, order: seq<TypeId>, windows: WindowRegistry): seq<Event>
    requires forall i :: 0 <= i < |order| ==> order[i] in windows
  {
    if order == [] then []
    else CloseEvents(subsystem, order[0], windows[order[0]]) + CloseAllEvents(subsystem, order[1..], windows)
  }

  /** Visiting one more entry appends its effects. */
  lemma {:induction false} CloseAllEventsAppend(subsystem: object, order: seq<TypeId>, windows: WindowRegistry, t: TypeId)
    requires forall i :: 0 <= i < |order| ==> order[i] in windows
    requires t in windows
    ensures CloseAllEvents(subsystem, order + [t], windows)
            == CloseAllEvents(subsystem, order, windows) + CloseEvents(subsystem, t, windows[t])
  {
    if order == [] {
      assert order + [t] == [t];
    } else {
      assert (order + [t])[1..] == order[1..] + [t];
      CloseAllEventsAppend(subsystem, order[1..], windows, t);
    }
  }

  /** An entry that is not visited is neither removed from its parent nor unregistered. */
  lemma {:induction false} CloseAllEventsAbsent(subsystem: object, order: seq<TypeId>, windows: WindowRegistry, t: TypeId)
    requires WellTyped(windows) && t in windows
    requires forall i :: 0 <= i < |order| ==> order[i] in windows && order[i] != t
    ensures windows[t] != null ==> multiset(CloseAllEvents(subsystem, order, windows))[Call(windows[t], RemoveFromParent)] == 0
    ensures multiset(CloseAllEvents(subsystem, order, windows))[Call(subsystem, Unregister(t))] == 0
  {
    if order != [] {
      var w := windows[order[0]];
      assert w != null ==> w.viewType == order[0];
      CloseAllEventsAbsent(subsystem, order[1..], windows, t);
    }
  }

  /**
   * Whatever order the entries are visited in, closing all windows removes
   * every open window from its parent exactly once and unregisters every
   * class exactly once.
   */
  lemma {:induction false} CloseAllClosesEachOnce(subsystem: object, order: seq<TypeId>, windows: WindowRegistry, t: TypeId)
    requires WellTyped(windows)
    requires forall i :: 0 <= i < |order| ==> order[i] in windows
    requires forall i, j :: 0 <= i < j < |order| ==> order[i] != order[j]
    requires t in order
    ensures windows[t] != null ==> multiset(CloseAllEvents(subsystem, order, windows))[Call(windows[t], RemoveFromParent)] == 1
    ensures multiset(CloseAllEvents(subsystem, order, windows))[Call(subsystem, Unregister(t))] == 1
  {
    var rest := CloseAllEvents(subsystem, order[1..], windows);
    var w := windows[order[0]];
    assert w != null ==> w.viewType == order[0];
    if order[0] == t {
      forall i | 0 <= i < |order[1..]|
        ensures order[1..][i] in windows && order[1..][i] != t
      {
        assert order[1..][i] == order[i + 1] != order[0];
      }
      CloseAllEventsAbsent(subsystem, order[1..], windows, t);
    } else {
      assert t in order[1..] by {
        var i :| 0 <= i < |order| && order[i] == t;
        assert order[1..][i - 1] == t;
      }
      CloseAllClosesEachOnce(subsystem, order[1..], windows, t);
    }
  }

  /** Closing all windows removes no window that is not registered and unregisters no class that is not. */
  lemma {:induction false} CloseAllTouchesOnlyRegistered(subsystem: object, order: seq<TypeId>, windows: WindowRegistry, o: View, u: TypeId)
    requires forall i :: 0 <= i < |order| ==> order[i] in windows
    ensures (forall k :: k in windows ==> windows[k] != o) ==> multiset(CloseAllEvents(subsystem, order, windows))[Call(o, RemoveFromParent)] == 0
    ensures u !in windows ==> multiset(CloseAllEvents(subsystem, order, windows))[Call(subsystem, Unregister(u))] == 0
  {
    if order != [] {
      assert order[0] in windows;
      CloseAllTouchesOnlyRegistered(subsystem, order[1..], windows, o, u);
    }
  }

  /** The effects of HideAllWindows or ShowAllWindows when the flag flips: one visibility change per window. */
  function VisibilityEvents(order: seq<TypeId>, windows: WindowRegistry, visibility: Visibility): seq<Event>
    requires forall i :: 0 <= i < |order| ==> order[i] in windows
  {
    EntryCalls(order, windows, SetVisibility(visibility))
  }

  /** Whatever order the entries are visited in, every open window gets the new visibility exactly once. */
  lemma VisibilityEventsOnce(order: seq<TypeId>, windows: WindowRegistry, visibility: Visibility, t: TypeId)
    requires WellTyped(windows)
    requires Enumerates(order, windows.Keys)
    requires t in windows && windows[t] != null
    ensures forall i :: 0 <= i < |order| ==> order[i] in windows
    ensures multiset(VisibilityEvents(order, windows, visibility))[Call(windows[t], SetVisibility(visibility))] == 1
  {
    WellTypedInjective(windows);
    EntryCallsOnce(order, windows, SetVisibility(visibility), t);
  }

  /** Hide-all or show-all changes the visibility of no window that is not registered. */
  lemma VisibilityTouchesOnlyRegistered(order: seq<TypeId>, windows: WindowRegistry, visibility: Visibility, o: View)
    requires forall i :: 0 <= i < |order| ==> order[i] in windows
    requires forall k :: k in windows ==> windows[k] != o
    ensures multiset(VisibilityEvents(order, windows, visibility))[Call(o, SetVisibility(visibility))] == 0
  {
    EntryCallsAbsent(order, windows, SetVisibility(visibility), o);
  }

  /** CloseWindow on a registry value: whether it closed, the registry it leaves, and its effects. */
  function CloseWindowSpec(subsystem: object, windows: WindowRegistry, dedicatedServer: bool, windowType: ClassRef): Answer<bool, WindowRegistry>
  {
    if dedicatedServer || windowType.NoClass? || windowType.id !in windows then Answer(false, windows, [])
    else Answer(true, windows - {windowType.id}, CloseEvents(subsystem, windowType.id, windows[windowType.id]))
  }

  /**
   * Closing a class right after it was opened (with `window` registered
   * under it): the call reports success, removes the window from its parent
   * and unregisters the class; the class is no longer open and every other
   * class is as it was, so a class that was not open before leaves the
   * registry exactly as it was before the opening.
   */
  lemma OpenThenClose(subsystem: object, windows: WindowRegistry, t: TypeId, window: View)
    ensures var a := CloseWindowSpec(subsystem, windows[t := window], false, ClassOf(t));
      && a.result
      && t !in a.state
      && (forall k :: k != t ==> (k in a.state <==> k in windows))
      && (forall k :: k != t && k in windows ==> a.state[k] == windows[k])
      && (t !in windows ==> a.state == windows)
      && a.events == [Call(window, RemoveFromParent), Call(subsystem, Unregister(t))]
  {
  }

  /** A second CloseWindow for the same class reports failure and has no effect. */
  lemma CloseWindowAgain(subsystem: object, windows: WindowRegistry, dedicatedServer: bool, windowType: ClassRef)
    ensures var first := CloseWindowSpec(subsystem, windows, dedicatedServer, windowType);
      CloseWindowSpec(subsystem, first.state, dedicatedServer, windowType) == Answer(false, first.state, [])
  {
  }

  class WindowSubsystem {
    /** OpenedWindows: window class to window (an entry may have been nulled by the engine). */
    var openedWindows: WindowRegistry
    var hiddenAllWindows: bool

    constructor ()
      ensures openedWindows == map[] && !hiddenAllWindows
    {
      openedWindows := map[];
      hiddenAllWindows := false;
    }

    ghost predicate Valid()
      reads this
    {
      WellTyped(openedWindows)
    }

    /** IsOpen: whether a window of a valid class is registered; reads the registry only. */
    function IsOpen(windowType: ClassRef): (open: bool)
      reads this
      ensures open <==> windowType.ClassOf? && windowType.id in openedWindows
      ensures windowType.NoClass? ==> !open
    {
      windowType.ClassOf? && windowType.id in openedWindows
    }

    /** CreateWindow: a new widget of the class, owned by the player when one is given, else by the world. */
    method CreateWindow(host: Host, env: Env, t: TypeId, owner: Option<PlayerController>) returns (window: View)
      modifies host
      ensures fresh(window) && window.viewType == t && window.owningPlayer == owner
      ensures window.viewModelClass == env.viewDefaults(t).viewModelClass && window.viewLayer == env.viewDefaults(t).viewLayer
      ensures !window.initialized && window.viewModel == null && window.onDestroyView == []
      ensures host.events == old(host.events) + [Call(window, CreateWidget(owner))]
    {
      var defaults := env.viewDefaults(t);
      window := new View(t, defaults.viewModelClass, defaults.viewLayer, owner);
      host.events := host.events + [Call(window, CreateWidget(owner))];
    }

    /**
     * InitializeExistsView: nothing for a dedicated server, a null view or
     * one already initialised; otherwise the world (dereferenced unchecked)
     * must exist and both repositories must be found (fatal `check`), and
     * the view is initialised with them.
     */
    method InitializeExistsView(host: Host, env: Env, view: View?) returns (r: Exit<()>)
      modifies host, view
      ensures env.dedicatedServer || view == null || old(view.initialized) ==>
        r == Return(()) && host.events == old(host.events) && (view != null ==> unchanged(view))
      ensures !env.dedicatedServer && view != null && !old(view.initialized) && !env.hasWorld ==>
        r == Abort(NoWorld) && host.events == old(host.events) && unchanged(view)
      ensures !env.dedicatedServer && view != null && !old(view.initialized) && env.hasWorld
              && (env.sessionRepository == null || env.worldRepository == null) ==>
        r == Abort(MissingRepositories) && host.events == old(host.events) && unchanged(view)
      ensures !env.dedicatedServer && view != null && !old(view.initialized) && env.hasWorld
              && env.sessionRepository != null && env.worldRepository != null ==>
        && view.initialized
        && (view.viewModelClass.NoClass? ==>
              r == Abort(NoViewModelClass) && view.viewModel == old(view.viewModel)
              && view.onDestroyView == old(view.onDestroyView) && host.events == old(host.events))
        && (view.viewModelClass.ClassOf? ==>
              && r == Return(())
              && view.viewModel != null && fresh(view.viewModel) && view.viewModel.viewModelType == view.viewModelClass.id
              && view.viewModel.ownerView == view
              && view.viewModel.modelRepository == env.sessionRepository
              && view.viewModel.worldModelRepository == env.worldRepository
              && view.onDestroyView == old(view.onDestroyView) + [view.viewModel]
              && host.events == old(host.events)
                 + InitializeViewEvents(view, view.viewModel, env.sessionRepository, env.worldRepository))
    {
      if env.dedicatedServer || view == null || view.IsInitializedView() {
        return Return(());
      }
      if !env.hasWorld {
        return Abort(NoWorld);
      }
      if env.sessionRepository == null || env.worldRepository == null {
        return Abort(MissingRepositories);
      }
      r := view.InitializeView(host, env.sessionRepository, env.worldRepository);
    }

    /**
     * OpenWindow: null for a dedicated server, without a world or for an
     * invalid class; the registered window if the class is open; otherwise a
     * new window, registered, hidden if all windows are, attached at its
     * layer and initialised. `window` is the window a miss creates.
     */
    method OpenWindow(host: Host, env: Env, windowType: ClassRef, owner: Option<PlayerController>)
      returns (r: Exit<View?>, ghost window: View?)
      requires Valid()
      modifies this, host
      ensures Valid() && hiddenAllWindows == old(hiddenAllWindows)
      ensures !MayCreate(env, windowType) ==>
        r == Return(null) && openedWindows == old(openedWindows) && host.events == old(host.events)
      ensures MayCreate(env, windowType) && windowType.id in old(openedWindows) ==>
        r == Return(old(openedWindows)[windowType.id]) && openedWindows == old(openedWindows)
        && host.events == old(host.events)
      ensures MayCreate(env, windowType) && windowType.id !in old(openedWindows) ==>
        var t := windowType.id;
        && window != null && fresh(window) && window.viewType == t && window.owningPlayer == owner
        && window.viewModelClass == env.viewDefaults(t).viewModelClass && window.viewLayer == env.viewDefaults(t).viewLayer
        && openedWindows == old(openedWindows)[t := window]
        && (env.sessionRepository == null || env.worldRepository == null ==>
              r == Abort(MissingRepositories) && !window.initialized
              && host.events == old(host.events) + OpenEvents(this, t, window, owner, hiddenAllWindows))
        && (env.sessionRepository != null && env.worldRepository != null && window.viewModelClass.NoClass? ==>
              r == Abort(NoViewModelClass) && window.initialized && window.viewModel == null
              && host.events == old(host.events) + OpenEvents(this, t, window, owner, hiddenAllWindows))
        && (env.sessionRepository != null && env.worldRepository != null && window.viewModelClass.ClassOf? ==>
              && r == Return(window) && window.initialized
              && window.viewModel != null && fresh(window.viewModel) && window.viewModel.ownerView == window
              && window.onDestroyView == [window.viewModel]
              && host.events == old(host.events) + OpenEvents(this, t, window, owner, hiddenAllWindows)
                 + InitializeViewEvents(window, window.viewModel, env.sessionRepository, env.worldRepository))
    {
      window := null;
      if env.dedicatedServer || !env.hasWorld || windowType.NoClass? {
        return Return(null), window;
      }
      var t := windowType.id;
      if t in openedWindows {
        return Return(openedWindows[t]), window;
      }
      var created := CreateWindow(host, env, t, owner);
      window := created;
      openedWindows := openedWindows[t := created];
      host.events := host.events + [Call(this, Register(t, created))];
      if hiddenAllWindows {
        created.HideView(host);
      }
      host.events := host.events + [Call(created, AddToViewport(ZOrder(created.GetUILayer())))];
      var init := InitializeExistsView(host, env, created);
      r := if init.Abort? then Abort(init.failure) else Return(created);
    }

    /** CloseWindow: false for a dedicated server or a class that is not open; otherwise remove and unregister it. */
    method CloseWindow(host: Host, env: Env, windowType: ClassRef) returns (closed: bool)
      requires Valid()
      modifies this, host
      ensures Valid() && hiddenAllWindows == old(hiddenAllWindows)
      ensures closed <==> !env.dedicatedServer && old(IsOpen(windowType))
      ensures closed ==> !IsOpen(windowType)
      ensures var a := CloseWindowSpec(this, old(openedWindows), env.dedicatedServer, windowType);
        closed == a.result && openedWindows == a.state && host.events == old(host.events) + a.events
      ensures !closed ==> openedWindows == old(openedWindows) && host.events == old(host.events)
      ensures closed ==>
        && openedWindows == old(openedWindows) - {windowType.id}
        && host.events == old(host.events) + CloseEvents(this, windowType.id, old(openedWindows)[windowType.id])
    {
      if env.dedicatedServer {
        return false;
      }
      if windowType.ClassOf? && windowType.id in openedWindows {
        var t := windowType.id;
        var window := openedWindows[t];
        if window != null {
          host.events := host.events + [Call(window, RemoveFromParent)];
        }
        openedWindows := openedWindows - {t};
        host.events := host.events + [Call(this, Unregister(t))];
        return true;
      }
      return false;
    }

    /**
     * CloseAllWindows: nothing for a dedicated server; otherwise every entry,
     * in the map's order, is removed from its parent and unregistered.
     */
    method CloseAllWindows(host: Host, env: Env) returns (ghost order: seq<TypeId>)
      requires Valid()
      modifies this, host
      ensures Valid() && hiddenAllWindows == old(hiddenAllWindows)
      ensures env.dedicatedServer ==> openedWindows == old(openedWindows) && host.events == old(host.events)
      ensures !env.dedicatedServer ==>
        && openedWindows == map[]
        && Enumerates(order, old(openedWindows).Keys)
        && (forall i :: 0 <= i < |order| ==> order[i] in old(openedWindows))
        && host.events == old(host.events) + CloseAllEvents(this, order, old(openedWindows))
    {
      order := [];
      if env.dedicatedServer {
        return;
      }
      ghost var windows := openedWindows;
      var remaining := openedWindows.Keys;
      while remaining != {}
        invariant openedWindows.Keys == remaining && remaining <= windows.Keys
        invariant forall k :: k in remaining ==> openedWindows[k] == windows[k]
        invariant forall i :: 0 <= i < |order| ==> order[i] in windows && order[i] !in remaining
        invariant forall i, j :: 0 <= i < j < |order| ==> order[i] != order[j]
        invariant forall k :: k in windows ==> k in remaining || k in order
        invariant host.events == old(host.events) + CloseAllEvents(this, order, windows)
        invariant hiddenAllWindows == old(hiddenAllWindows)
        decreases remaining
      {
        var t :| t in remaining;
        var window := openedWindows[t];
        if window != null {
          host.events := host.events + [Call(window, RemoveFromParent)];
        }
        openedWindows := openedWindows - {t};
        host.events := host.events + [Call(this, Unregister(t))];
        CloseAllEventsAppend(this, order, windows, t);
        order := order + [t];
        remaining := remaining - {t};
      }
    }

    /**
     * HideAllWindows: nothing if all windows are already hidden; otherwise
     * set the flag and collapse every open window, in the map's order.
     * Entries are dereferenced without a null check.
     */
    method HideAllWindows(host: Host) returns (ghost order: seq<TypeId>)
      requires forall t :: t in openedWindows ==> openedWindows[t] != null
      modifies this`hiddenAllWindows, host
      ensures hiddenAllWindows
      ensures old(hiddenAllWindows) ==> host.events == old(host.events)
      ensures !old(hiddenAllWindows) ==>
        && Enumerates(order, openedWindows.Keys)
        && (forall i :: 0 <= i < |order| ==> order[i] in openedWindows)
        && host.events == old(host.events) + VisibilityEvents(order, openedWindows, Collapsed)
    {
      order := [];
      if hiddenAllWindows {
        return;
      }
      hiddenAllWindows := true;
      order := VisitAll(host, Collapsed);
    }

    /**
     * ShowAllWindows: nothing unless all windows are hidden; otherwise clear
     * the flag and make every open window visible again, in the map's order.
     */
    method ShowAllWindows(host: Host) returns (ghost order: seq<TypeId>)
      requires forall t :: t in openedWindows ==> openedWindows[t] != null
      modifies this`hiddenAllWindows, host
      ensures !hiddenAllWindows
      ensures !old(hiddenAllWindows) ==> host.events == old(host.events)
      ensures old(hiddenAllWindows) ==>
        && Enumerates(order, openedWindows.Keys)
        && (forall i :: 0 <= i < |order| ==> order[i] in openedWindows)
        && host.events == old(host.events) + VisibilityEvents(order, openedWindows, HitTestInvisible)
    {
      order := [];
      if !hiddenAllWindows {
        return;
      }
      hiddenAllWindows := false;
      order := VisitAll(host, HitTestInvisible);
    }

    /** The loop HideAllWindows and ShowAllWindows share: HideView or ShowView on every entry. */
    method VisitAll(host: Host, visibility: Visibility) returns (ghost order: seq<TypeId>)
      requires forall t :: t in openedWindows ==> openedWindows[t] != null
      modifies host
      ensures Enumerates(order, openedWindows.Keys)
      ensures forall i :: 0 <= i < |order| ==> order[i] in openedWindows
      ensures host.events == old(host.events) + VisibilityEvents(order, openedWindows, visibility)
    {
      order := [];
      var remaining := openedWindows.Keys;
      while remaining != {}
        invariant remaining <= openedWindows.Keys
        invariant forall i :: 0 <= i < |order| ==> order[i] in openedWindows && order[i] !in remaining
        invariant forall i, j :: 0 <= i < j < |order| ==> order[i] != order[j]
        invariant forall k :: k in openedWindows ==> k in remaining || k in order
        invariant host.events == old(host.events) + VisibilityEvents(order, openedWindows, visibility)
        decreases remaining
      {
        var t :| t in remaining;
        var window := openedWindows[t];
        if visibility == Collapsed {
          window.HideView(host);
        } else {
          window.ShowView(host);
        }
        EntryCallsAppend(order, openedWindows, SetVisibility(visibility), t);
        order := order + [t];
        remaining := remaining - {t};
      }
    }

    /**
     * CreatePopUp: null for a dedicated server, without a world or for an
     * invalid class; otherwise a new pop-up, added to the parent widget when
     * that is valid and to the viewport at its layer otherwise, then handed
     * the world's repositories. The window registry is not touched.
     */
    method CreatePopUp(host: Host, env: Env, popUpType: ClassRef, owner: Option<PlayerController>,
                       parent: PanelWidget?, alive: set<object>)
      returns (popUp: PopUpView?)
      modifies host
      ensures openedWindows == old(openedWindows) && hiddenAllWindows == old(hiddenAllWindows)
      ensures !MayCreate(env, popUpType) ==> popUp == null && host.events == old(host.events)
      ensures MayCreate(env, popUpType) ==>
        && popUp != null && fresh(popUp) && popUp.popUpType == popUpType.id
        && popUp.viewLayer == env.popUpDefaults(popUpType.id).viewLayer
        && popUp.useSelfDestroyTimer == env.popUpDefaults(popUpType.id).useSelfDestroyTimer
        && popUp.State() == PopUpState(true, env.sessionRepository, env.worldRepository, popUp.useSelfDestroyTimer)
        && host.events == old(host.events) + CreatePopUpEvents(popUp, owner, parent, alive, env)
    {
      if env.dedicatedServer || !env.hasWorld || popUpType.NoClass? {
        return null;
      }
      var defaults := env.popUpDefaults(popUpType.id);
      var created := new PopUpView(popUpType.id, defaults.viewLayer, defaults.useSelfDestroyTimer);
      host.events := host.events + [Call(created, CreateWidget(owner))];
      if Live(parent, alive) {
        host.events := host.events + [Call(parent, AddChild(created))];
      } else {
        host.events := host.events + [Call(created, AddToViewport(ZOrder(created.GetUILayer())))];
      }
      created.InitializePopUp(host, env.sessionRepository, env.worldRepository);
      return created;
    }
  }

  /** CreatePopUp's effects: create, attach to the parent or the viewport, then the new pop-up's first InitializePopUp. */
  function CreatePopUpEvents(popUp: PopUpView, owner: Option<PlayerController>, parent: PanelWidget?, alive: set<object>, env: Env): seq<Event>
  {
    [ Call(popUp, CreateWidget(owner)),
      if Live(parent, alive) then Call(parent, AddChild(popUp)) else Call(popUp, AddToViewport(ZOrder(popUp.viewLayer))) ]
    + InitializePopUpSpec(popUp, PopUpState(false, null, null, false), popUp.useSelfDestroyTimer,
                          env.sessionRepository, env.worldRepository).events
  }

  /**
   * A pop-up goes into a valid parent widget and then never onto the
   * viewport; without one it goes onto the viewport at its layer; either
   * way it is attached before the InitializePopUp hook runs with the world's
   * repositories, and a self-destroy timer is armed exactly when its class
   * asks for one.
   */
  lemma CreatePopUpAttachesOnce(popUp: PopUpView, owner: Option<PlayerController>, parent: PanelWidget?, alive: set<object>, env: Env)
    ensures var e := CreatePopUpEvents(popUp, owner, parent, alive, env);
      && (Live(parent, alive) ==> Call(parent, AddChild(popUp)) in e && Call(popUp, AddToViewport(ZOrder(popUp.viewLayer))) !in e)
      && (!Live(parent, alive) ==> Call(popUp, AddToViewport(ZOrder(popUp.viewLayer))) in e && forall i :: 0 <= i < |e| ==> !e[i].action.AddChild?)
      && e[2] == Call(popUp, InitializePopUp(env.sessionRepository, env.worldRepository))
      && (Call(popUp, SetTimer(false)) in e <==> popUp.useSelfDestroyTimer)
      && |e| == (if popUp.useSelfDestroyTimer then 4 else 3)
  {
  }
}
