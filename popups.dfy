/**
 * UUIPopUpView: a widget without a viewmodel. It is initialised at most
 * once with both repositories, and may schedule a one-shot timer that
 * removes it from its parent.
 *
 * The pop-up's own state is given as a value (`PopUpState`) and what
 * InitializePopUp does to it as a function; the class's method is proved to
 * match that function.
 */
module PopUps {
  import opened Engine
  import SessionRepository
  import ContextualRepository

  type SessionRepositoryRef = SessionRepository.ModelRepositorySubsystem?
  type WorldRepositoryRef = ContextualRepository.WorldModelRepositorySubsystem?

  /** bIsInitializedPopUp, the two weak repository pointers, and whether SelfDestroyTimerHandle has been set. */
  datatype PopUpState = PopUpState(
    initialized: bool,
    modelRepository: SessionRepositoryRef,
    worldModelRepository: WorldRepositoryRef,
    timerSet: bool)

  /** InitializePopUp on a state value; `useSelfDestroyTimer` is the class default. */
  function InitializePopUpSpec(popUp: object, s: PopUpState, useSelfDestroyTimer: bool,
                               modelRepository: SessionRepositoryRef, worldModelRepository: WorldRepositoryRef): Answer<(), PopUpState>
  {
    if s.initialized then Answer((), s, [])
    else Answer((), PopUpState(true, modelRepository, worldModelRepository, s.timerSet || useSelfDestroyTimer),
                [Call(popUp, InitializePopUp(modelRepository, worldModelRepository))]
                + (if useSelfDestroyTimer then [Call(popUp, SetTimer(false))] else []))
  }

  /**
   * A first initialisation marks the pop-up initialised, stores both
   * repositories, runs the InitializePopUp hook, and schedules a non-looping
   * timer exactly when the class asks for one; a later one changes nothing.
   */
  lemma InitializePopUpFirst(popUp: object, s: PopUpState, useSelfDestroyTimer: bool,
                             modelRepository: SessionRepositoryRef, worldModelRepository: WorldRepositoryRef)
    ensures var a := InitializePopUpSpec(popUp, s, useSelfDestroyTimer, modelRepository, worldModelRepository);
      && (s.initialized ==> a.state == s && a.events == [])
      && (!s.initialized ==>
            && a.state.initialized
            && a.state.modelRepository == modelRepository && a.state.worldModelRepository == worldModelRepository
            && a.events[0] == Call(popUp, InitializePopUp(modelRepository, worldModelRepository))
            && (Call(popUp, SetTimer(false)) in a.events <==> useSelfDestroyTimer)
            && Call(popUp, SetTimer(true)) !in a.events)
  {
  }

  /**
   * However often InitializePopUp is called, from a fresh pop-up, with
   * whatever arguments: the hook runs once, the first arguments are the ones
   * kept, and at most one timer is ever scheduled.
   */
  lemma {:induction false} InitializePopUpOnce(popUp: object, useSelfDestroyTimer: bool,
                                               calls: seq<(SessionRepositoryRef, WorldRepositoryRef)>)
    requires |calls| > 0
    ensures var (s, e) := InitializeMany(popUp, PopUpState(false, null, null, false), useSelfDestroyTimer, calls);
      && s == PopUpState(true, calls[0].0, calls[0].1, useSelfDestroyTimer)
      && multiset(e)[Call(popUp, SetTimer(false))] == (if useSelfDestroyTimer then 1 else 0)
      && multiset(e)[Call(popUp, InitializePopUp(calls[0].0, calls[0].1))] == 1
      && |e| == (if useSelfDestroyTimer then 2 else 1)
  {
    var start := PopUpState(false, null, null, false);
    var first := InitializePopUpSpec(popUp, start, useSelfDestroyTimer, calls[0].0, calls[0].1);
    InitializeManyIdle(popUp, first.state, useSelfDestroyTimer, calls[1..]);
    assert InitializeMany(popUp, start, useSelfDestroyTimer, calls)
           == (first.state, first.events + InitializeMany(popUp, first.state, useSelfDestroyTimer, calls[1..]).1);
    assert first.events + [] == first.events;
  }

  /** Repeated InitializePopUp calls, in order: the final state and all the effects. */
  function InitializeMany(popUp: object, s: PopUpState, useSelfDestroyTimer: bool,
                          calls: seq<(SessionRepositoryRef, WorldRepositoryRef)>): (PopUpState, seq<Event>)
    decreases |calls|
  {
    if calls == [] then (s, [])
    else
      var a := InitializePopUpSpec(popUp, s, useSelfDestroyTimer, calls[0].0, calls[0].1);
      var (t, e) := InitializeMany(popUp, a.state, useSelfDestroyTimer, calls[1..]);
      (t, a.events + e)
  }

  /** Once initialised, any number of further calls is idle. */
  lemma {:induction false} InitializeManyIdle(popUp: object, s: PopUpState, useSelfDestroyTimer: bool,
                                              calls: seq<(SessionRepositoryRef, WorldRepositoryRef)>)
    requires s.initialized
    ensures InitializeMany(popUp, s, useSelfDestroyTimer, calls) == (s, [])
  {
    if calls != [] {
      InitializeManyIdle(popUp, s, useSelfDestroyTimer, calls[1..]);
      assert InitializePopUpSpec(popUp, s, useSelfDestroyTimer, calls[0].0, calls[0].1) == Answer((), s, []);
      var none: seq<Event> := [];
      assert none + none == none;
    }
  }

  class PopUpView {
    /** The widget class this pop-up is an instance of. */
    const popUpType: TypeId
    /** ViewLayer and bUseSelfDestroyTimer: class defaults set in the editor. */
    const viewLayer: UILayer
    const useSelfDestroyTimer: bool
    var initialized: bool
    var modelRepository: SessionRepositoryRef
    var worldModelRepository: WorldRepositoryRef
    var timerSet: bool

    constructor (popUpType: TypeId, viewLayer: UILayer, useSelfDestroyTimer: bool)
      ensures this.popUpType == popUpType && this.viewLayer == viewLayer && this.useSelfDestroyTimer == useSelfDestroyTimer
      ensures State() == PopUpState(false, null, null, false)
    {
      this.popUpType := popUpType;
      this.viewLayer := viewLayer;
      this.useSelfDestroyTimer := useSelfDestroyTimer;
      initialized := false;
      modelRepository := null;
      worldModelRepository := null;
      timerSet := false;
    }

    ghost function State(): PopUpState
      reads this
    {
      PopUpState(initialized, modelRepository, worldModelRepository, timerSet)
    }

    /** InitializePopUp: at most once; store the repositories, run the hook, maybe arm the timer. */
    method InitializePopUp(host: Host, modelRepository: SessionRepositoryRef, worldModelRepository: WorldRepositoryRef)
      modifies this, host
      ensures var a := InitializePopUpSpec(this, old(State()), useSelfDestroyTimer, modelRepository, worldModelRepository);
        State() == a.state && host.events == old(host.events) + a.events
    {
      if initialized {
        return;
      }
      initialized := true;
      this.modelRepository := modelRepository;
      this.worldModelRepository := worldModelRepository;
      host.events := host.events + [Call(this, Action.InitializePopUp(modelRepository, worldModelRepository))];
      if useSelfDestroyTimer {
        timerSet := true;
        host.events := host.events + [Call(this, SetTimer(false))];
      }
    }

    /** GetUILayer: the configured layer. */
    function GetUILayer(): (layer: UILayer)
      reads this
      ensures layer == viewLayer
      ensures ZOrder(layer) == 3 <==> viewLayer == PopUp
    {
      viewLayer
    }

    /** IsInitializedPopUp: whether InitializePopUp has been entered before. */
    function IsInitializedPopUp(): (done: bool)
      reads this
      ensures done <==> initialized
    {
      initialized
    }

    /** GetModelRepository: the stored session repository while it is alive, else null. */
    function GetModelRepository(alive: set<object>): (r: SessionRepositoryRef)
      reads this
      ensures r != null <==> Live(modelRepository, alive)
      ensures r != null ==> r == modelRepository
    {
      if Live(modelRepository, alive) then modelRepository else null
    }

    /** GetWorldModelRepository: the stored world repository while it is alive, else null. */
    function GetWorldModelRepository(alive: set<object>): (r: WorldRepositoryRef)
      reads this
      ensures r != null <==> Live(worldModelRepository, alive)
      ensures r != null ==> r == worldModelRepository
    {
      if Live(worldModelRepository, alive) then worldModelRepository else null
    }

    /** OnDestroyTimerComplete: the pop-up removes itself from its parent and nothing else changes. */
    method OnDestroyTimerComplete(host: Host)
      modifies host
      ensures host.events == old(host.events) + [Call(this, RemoveFromParent)]
    {
      host.events := host.events + [Call(this, RemoveFromParent)];
    }

    /** NativeDestruct: OnDestroyPopUp is broadcast before the base class's teardown. */
    method NativeDestruct(host: Host)
      modifies host
      ensures host.events == old(host.events) + [Call(this, BroadcastOnDestroyPopUp), Call(this, SuperNativeDestruct)]
    {
      host.events := host.events + [Call(this, BroadcastOnDestroyPopUp)];
      host.events := host.events + [Call(this, SuperNativeDestruct)];
    }
  }
}
