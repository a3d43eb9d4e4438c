# MVVM library lifecycle model

A Dafny model of the lifecycle bookkeeping in an Unreal Engine MVVM plugin. The plugin has:

- two type-keyed model repositories: a session repository per game instance, and a contextual repository per world;
- a window subsystem that opens at most one view per view class, hides or shows all of them at once, and creates pop-ups;
- the view / viewmodel binding through the view's `OnDestroyView` delegate;
- self-destroying pop-ups;
- a memoised world lookup along an object's chain of outers.

The engine is left abstract:

- **Engine calls and hooks.** Every engine call (`NewObject`, `CreateWidget`, `AddToViewport`, `AddChild`, `RemoveFromParent`, `SetVisibility`, the timer manager) and every Blueprint hook is an `Event` appended to `Host.events`. So are registry and delegate changes. Ordering claims are therefore stated on one trace.
- **Weak pointers.** A `TWeakObjectPtr` is valid while its object is in an `alive` set, or for worlds in `liveWorlds`.
- **Environment queries.** `IsRunningDedicatedServer()`, `GetWorld()` and the subsystems the world hands out are parameters (`Env`, `WorldLink`).
- **Map order.** `TMap` iteration order is unspecified. A loop over a map picks its next key nondeterministically and returns the visiting order as a ghost `order`. The lemmas then hold for every order.
- **Fatal checks.** `check`/`checkf` failures are an `Exit.Abort(Failure)` outcome, with the state as it was at the failing check.

Modules:

- `Engine`: shared types, the trace, and delegate removal.
- `WorldContext`: `UObjectWithWorldContext`.
- `SessionRepository`: `UModelRepositorySubsystem`.
- `ContextualRepository`: `UWorldModelRepositorySubsystem`.
- `Views`: `UUIView` and `UUIViewModel`, which refer to each other.
- `PopUps`: `UUIPopUpView`.
- `Windows`: `UWindowSubsystem`.

Where the headers and the implementation files disagree, the model follows the implementation files. `UIViewModel.h` declares `K2_OnDestroyViewModel`, `K2_SetModelRepository`, `K2_SetWorldModelRepository` and `K2_InitializeViewModel` as Blueprint-implementable events. `UIViewModel.cpp` nevertheless gives each of them a native `_Implementation` body, and the model takes those bodies as the behaviour of the hooks.

## Model

All source paths are under `Source/MVVMLibrary/`.

| member | source | states |
|---|---|---|
| Engine.ZOrder | Source/MVVMLibrary/Public/Abstract/UIView.h:17-23 | the z-order a layer is attached at lies in 0..3; `PopUp` is exactly the topmost value and `BehindHUD` exactly the lowest |
| Engine.Without | Source/MVVMLibrary/Private/Abstract/UIViewModel.cpp:79 | removing a listener from a delegate: the listener is no longer bound, every other binding survives, nothing new appears, and a list without the listener is unchanged |
| Engine.WithoutCount | Source/MVVMLibrary/Private/Abstract/UIViewModel.cpp:79 | removing a listener drops exactly as many bindings as it had |
| Engine.SubscribeThenUnsubscribe | Source/MVVMLibrary/Private/Abstract/UIViewModel.cpp:74-102 | binding a listener and then removing it gives the same list as only removing it |
| Engine.EntryCallsOnce | Source/MVVMLibrary/Private/ModelRepositorySubsystem.cpp:31-35 | a hook fired on each non-null entry of a map is fired exactly once on each entry's object, in any visiting order, when no object is registered twice |
| WorldContext.FirstWorld | Source/MVVMLibrary/Private/ObjectWithWorldContext.cpp:23-33 | the chain walk yields none exactly when no outer has a world; otherwise it yields the world of the first outer that has one |
| WorldContext.ResolveWorldWalksChain | Source/MVVMLibrary/Private/ObjectWithWorldContext.cpp:16-35 | without a valid cache: the first world along the chain is returned and cached; with no such world, none is returned and the cache is untouched |
| WorldContext.ResolveWorldMemoised | Source/MVVMLibrary/Private/ObjectWithWorldContext.cpp:16-28 | once a live world has been returned, every later call returns it again whatever the chain, for as long as it is alive |
| WorldContext.ObjectWithWorldContext.constructor | Source/MVVMLibrary/Public/ObjectWithWorldContext.h:25 | the cached world starts empty |
| WorldContext.ObjectWithWorldContext.GetWorld | Source/MVVMLibrary/Private/ObjectWithWorldContext.cpp:14-36 | the loop's answer and the cache it leaves equal `ResolveWorld` of the old cache |
| WorldContext.ObjectWithWorldContext.GetWorldContext | Source/MVVMLibrary/Private/ObjectWithWorldContext.cpp:9-12 | same answer and same cache effect as `GetWorld` |
| SessionRepository.GetSessionModelRegisters | Source/MVVMLibrary/Private/ModelRepositorySubsystem.cpp:17-27 | an invalid class returns null with no change and no hook; a valid class ends up mapped to the returned model; every other key is untouched; the registry stays well typed |
| SessionRepository.GetSessionModelTwice | Source/MVVMLibrary/Private/ModelRepositorySubsystem.cpp:17-48 | a second request for the same class returns the same instance with no effect; `StartSession` fires on it once in total if the first request created it, and never otherwise |
| SessionRepository.CloseSessionEndsEachOnce | Source/MVVMLibrary/Private/ModelRepositorySubsystem.cpp:29-38 | in any visiting order, `EndSession` fires exactly once on each registered model and on no other object |
| SessionRepository.CloseSessionAgain | Source/MVVMLibrary/Private/ModelRepositorySubsystem.cpp:29-38 | closing an empty registry fires no hook and only empties it again |
| SessionRepository.ModelRepositorySubsystem.constructor | Source/MVVMLibrary/Public/ModelRepositorySubsystem.h:24-25 | the registry starts empty |
| SessionRepository.ModelRepositorySubsystem.GetSessionModel | Source/MVVMLibrary/Private/ModelRepositorySubsystem.cpp:17-27 | result, new registry and effects equal `GetSessionModelSpec`; a miss creates a fresh model |
| SessionRepository.ModelRepositorySubsystem.CreateSessionModel | Source/MVVMLibrary/Private/ModelRepositorySubsystem.cpp:40-48 | one fresh model of the class; it is registered before it receives this repository and then `StartSession` |
| SessionRepository.ModelRepositorySubsystem.CloseSession | Source/MVVMLibrary/Private/ModelRepositorySubsystem.cpp:29-38 | every key is visited once; `EndSession` fires on each non-null model, then the registry is empty |
| ContextualRepository.ResolveSessionRepositoryCases | Source/MVVMLibrary/Private/WorldModelRepositorySubsystem.cpp:58-72 | a valid cache is returned without asking the world; otherwise the world's answer is cached and returned when live (null when not); with no world, null is returned and the cache is untouched; a non-null answer is live and cached |
| ContextualRepository.GetContextualModelNoEffect | Source/MVVMLibrary/Private/WorldModelRepositorySubsystem.cpp:31-41 | an invalid class returns null, and a registered class returns its instance, with no state change and no hook |
| ContextualRepository.GetContextualModelCreates | Source/MVVMLibrary/Private/WorldModelRepositorySubsystem.cpp:43-56 | a miss allocates first; it aborts exactly when no session repository is found, with the registry untouched; otherwise the model is registered, then gets the session repository, then this repository, then `OnInitModel` |
| ContextualRepository.GetContextualModelTwice | Source/MVVMLibrary/Private/WorldModelRepositorySubsystem.cpp:31-56 | after a request returns a model, a second request returns the same one with no effect; `OnInitModel` fires on it at most once |
| ContextualRepository.DeinitializeDestroysEachOnce | Source/MVVMLibrary/Private/WorldModelRepositorySubsystem.cpp:18-29 | in any visiting order, `OnDestroyModel` fires exactly once on each registered model and on no other object; the base teardown comes last |
| ContextualRepository.WorldModelRepositorySubsystem.constructor | Source/MVVMLibrary/Public/WorldModelRepositorySubsystem.h:26-30 | empty registry, empty cache |
| ContextualRepository.WorldModelRepositorySubsystem.GetModeRepositorySubsystem | Source/MVVMLibrary/Private/WorldModelRepositorySubsystem.cpp:58-72 | the answer and the new cache equal `ResolveSessionRepository` of the old cache; only the cache field may change |
| ContextualRepository.WorldModelRepositorySubsystem.GetContextualModel | Source/MVVMLibrary/Private/WorldModelRepositorySubsystem.cpp:31-41 | outcome, new state and effects equal `GetContextualModelSpec`; a miss creates a fresh model |
| ContextualRepository.WorldModelRepositorySubsystem.CreateContextualModel | Source/MVVMLibrary/Private/WorldModelRepositorySubsystem.cpp:43-56 | allocation, then the fatal check before the registry is touched, then registration and the three hooks in order |
| ContextualRepository.WorldModelRepositorySubsystem.Deinitialize | Source/MVVMLibrary/Private/WorldModelRepositorySubsystem.cpp:18-29 | every key is visited once; `OnDestroyModel` fires on each non-null model; the registry is emptied; then the base teardown runs; the cache is untouched |
| Views.InitializeViewOrder | Source/MVVMLibrary/Private/Abstract/UIView.cpp:29-32 | the new viewmodel is created, then gets the session repository, then the world repository, then is bound to the view, which then subscribes it, in that order |
| Views.BroadcastRunsEachHandler | Source/MVVMLibrary/Private/Abstract/UIView.cpp:14-19 | broadcasting `OnDestroyView` runs the destroy handler of every subscriber in the snapshot |
| Views.BroadcastRunsHandlerOnce | Source/MVVMLibrary/Private/Abstract/UIView.cpp:14-19 | broadcasting `OnDestroyView` runs a viewmodel's destroy hook exactly as many times as it is in the snapshot, so once per binding and never for an unbound viewmodel |
| Views.View.constructor | Source/MVVMLibrary/Public/Abstract/UIView.h:40-54 | class defaults as given; not initialised; no viewmodel; no subscribers |
| Views.View.GetUILayer | Source/MVVMLibrary/Private/Abstract/UIView.cpp:35-38 | returns the configured layer; its z-order is topmost exactly for `PopUp` |
| Views.View.IsInitializedView | Source/MVVMLibrary/Private/Abstract/UIView.cpp:40-43 | true exactly when the view has been initialised |
| Views.View.InitializeView | Source/MVVMLibrary/Private/Abstract/UIView.cpp:21-33 | a second call changes nothing. The first sets the flag before the viewmodel-class check. A missing class aborts. Otherwise exactly one fresh viewmodel is created, injected and bound; it is the only new subscriber; the effects are `InitializeViewEvents` |
| Views.View.NativeDestruct | Source/MVVMLibrary/Private/Abstract/UIView.cpp:14-19 | every subscriber's handler runs, in list order, before the base teardown; a live view ends with no subscribers |
| Views.View.ShowView | Source/MVVMLibrary/Private/Abstract/UIView.cpp:55-58 | exactly one effect, visibility `HitTestInvisible`; nothing else changes |
| Views.View.HideView | Source/MVVMLibrary/Private/Abstract/UIView.cpp:60-63 | exactly one effect, visibility `Collapsed`; nothing else changes |
| Views.ViewModel.constructor | Source/MVVMLibrary/Public/Abstract/UIViewModel.h:30-36 | all three weak pointers start null; a fresh world-context part with an empty cache |
| Views.ViewModel.GetModelRepository | Source/MVVMLibrary/Private/Abstract/UIViewModel.cpp:14-17 | non-null exactly when the stored pointer is valid, and then it is that pointer |
| Views.ViewModel.GetWorldModelRepository | Source/MVVMLibrary/Private/Abstract/UIViewModel.cpp:19-22 | non-null exactly when the stored pointer is valid, and then it is that pointer |
| Views.ViewModel.GetOwnerView | Source/MVVMLibrary/Private/Abstract/UIViewModel.cpp:49-52 | non-null exactly when the owner view is valid, and then it is that view |
| Views.ViewModel.GetOwningPlayer | Source/MVVMLibrary/Private/Abstract/UIViewModel.cpp:34-47 | the valid owner view's player, without touching the world cache; otherwise player 0 of the world found through the outers; otherwise none |
| Views.ViewModel.SetModelRepository | Source/MVVMLibrary/Private/Abstract/UIViewModel.cpp:59-62 | writes only the session-repository field |
| Views.ViewModel.SetWorldModelRepository | Source/MVVMLibrary/Private/Abstract/UIViewModel.cpp:64-67 | writes only the world-repository field |
| Views.ViewModel.InitializeViewModel | Source/MVVMLibrary/Private/Abstract/UIViewModel.cpp:95-102 | a null view aborts; otherwise the view becomes the owner and then this viewmodel is appended to the view's subscribers |
| Views.ViewModel.OnDestroyViewModel | Source/MVVMLibrary/Private/Abstract/UIViewModel.cpp:74-83 | if the owner view is valid, this viewmodel is removed from its subscribers before the hook runs; otherwise only the hook runs |
| PopUps.InitializePopUpFirst | Source/MVVMLibrary/Private/Abstract/UIPopUpView.cpp:18-38 | a second call is a no-op. The first sets the flag, stores both repositories and runs the hook first. A non-looping timer is scheduled exactly when configured, and never a looping one |
| PopUps.InitializePopUpOnce | Source/MVVMLibrary/Private/Abstract/UIPopUpView.cpp:18-38 | over any non-empty run of calls, the first arguments are kept, the hook fires once, and the timer is scheduled once if configured, else never |
| PopUps.InitializeManyIdle | Source/MVVMLibrary/Private/Abstract/UIPopUpView.cpp:21 | after initialisation, any number of further calls changes nothing |
| PopUps.PopUpView.constructor | Source/MVVMLibrary/Public/Abstract/UIPopUpView.h:28-47 | class defaults as given; not initialised; no repositories; no timer |
| PopUps.PopUpView.InitializePopUp | Source/MVVMLibrary/Private/Abstract/UIPopUpView.cpp:18-38 | new state and effects equal `InitializePopUpSpec` |
| PopUps.PopUpView.GetUILayer | Source/MVVMLibrary/Private/Abstract/UIPopUpView.cpp:40-43 | returns the configured layer |
| PopUps.PopUpView.IsInitializedPopUp | Source/MVVMLibrary/Private/Abstract/UIPopUpView.cpp:45-48 | true exactly when initialised |
| PopUps.PopUpView.GetModelRepository | Source/MVVMLibrary/Private/Abstract/UIPopUpView.cpp:50-53 | non-null exactly when the stored pointer is valid, and then it is that pointer |
| PopUps.PopUpView.GetWorldModelRepository | Source/MVVMLibrary/Private/Abstract/UIPopUpView.cpp:55-58 | non-null exactly when the stored pointer is valid, and then it is that pointer |
| PopUps.PopUpView.OnDestroyTimerComplete | Source/MVVMLibrary/Private/Abstract/UIPopUpView.cpp:60-63 | the pop-up removes itself from its parent and nothing else changes |
| PopUps.PopUpView.NativeDestruct | Source/MVVMLibrary/Private/Abstract/UIPopUpView.cpp:11-16 | `OnDestroyPopUp` is broadcast before the base teardown |
| Windows.WellTypedInjective | Source/MVVMLibrary/Private/WindowSubsystem.cpp:39-40 | registering each window under its own class never puts one window under two classes |
| Windows.OpenEventsOrder | Source/MVVMLibrary/Private/WindowSubsystem.cpp:39-48 | a new window is registered right after its creation; it is collapsed exactly when all windows are hidden, and never shown; it is attached at its layer last |
| Windows.CloseAllClosesEachOnce | Source/MVVMLibrary/Private/WindowSubsystem.cpp:69-82 | in any visiting order, each non-null window is removed from its parent exactly once and each class is unregistered exactly once |
| Windows.CloseAllTouchesOnlyRegistered | Source/MVVMLibrary/Private/WindowSubsystem.cpp:69-82 | closing all windows removes no window that is not in the registry and unregisters no class that is not registered |
| Windows.VisibilityEventsOnce | Source/MVVMLibrary/Private/WindowSubsystem.cpp:103-123 | in any visiting order, hide-all or show-all changes each open window's visibility exactly once |
| Windows.VisibilityTouchesOnlyRegistered | Source/MVVMLibrary/Private/WindowSubsystem.cpp:103-123 | hide-all or show-all changes the visibility of no window that is not open in the registry |
| Windows.OpenThenClose | Source/MVVMLibrary/Private/WindowSubsystem.cpp:39-63 | closing a class right after opening it returns true, removes its window from its parent and unregisters it; the class is then closed; every other class is as it was; a class not open before leaves the registry exactly as before the opening |
| Windows.CloseWindowAgain | Source/MVVMLibrary/Private/WindowSubsystem.cpp:53-67 | a second close of the same class returns false and has no effect |
| Windows.CreatePopUpAttachesOnce | Source/MVVMLibrary/Private/WindowSubsystem.cpp:140-151 | a valid parent gets the pop-up and the viewport does not; without one, the viewport gets it at its layer; attachment precedes initialisation; the timer is armed exactly when configured |
| Windows.WindowSubsystem.constructor | Source/MVVMLibrary/Public/WindowSubsystem.h:29-33 | no open windows, not hidden |
| Windows.WindowSubsystem.IsOpen | Source/MVVMLibrary/Private/WindowSubsystem.cpp:84-90 | false for an invalid class, otherwise key membership; it reads state only |
| Windows.WindowSubsystem.CreateWindow | Source/MVVMLibrary/Private/WindowSubsystem.cpp:156-167 | a fresh, uninitialised view of the class with its defaults and the given owner; one creation effect |
| Windows.WindowSubsystem.InitializeExistsView | Source/MVVMLibrary/Private/WindowSubsystem.cpp:92-101 | a no-op for a dedicated server, a null view or an initialised view. Otherwise it aborts without a world, or when either repository is missing, with nothing changed; else it initialises the view as `InitializeView` does |
| Windows.WindowSubsystem.OpenWindow | Source/MVVMLibrary/Private/WindowSubsystem.cpp:30-51 | null with no change on a dedicated server, without a world, or for an invalid class; the stored window with no effect when already open. Otherwise a fresh window with the class defaults and the given owner is registered under the class, collapsed if all windows are hidden, attached at its layer, then initialised; this aborts if a repository is missing or no viewmodel class is set |
| Windows.WindowSubsystem.CloseWindow | Source/MVVMLibrary/Private/WindowSubsystem.cpp:53-67 | result, new registry and effects equal `CloseWindowSpec`. It returns true exactly when not on a dedicated server and the class was open; then the class is no longer open, its key is gone, its window is removed from its parent if non-null, and no other key changes. False leaves everything unchanged |
| Windows.WindowSubsystem.CloseAllWindows | Source/MVVMLibrary/Private/WindowSubsystem.cpp:69-82 | on a dedicated server nothing changes; otherwise every key is visited once with its close effects, and the registry ends empty |
| Windows.WindowSubsystem.HideAllWindows | Source/MVVMLibrary/Private/WindowSubsystem.cpp:103-112 | already hidden: no effect; otherwise the flag is set and every open window is collapsed once; afterwards the flag is always set |
| Windows.WindowSubsystem.ShowAllWindows | Source/MVVMLibrary/Private/WindowSubsystem.cpp:114-123 | not hidden: no effect; otherwise the flag is cleared and every open window is shown once; afterwards the flag is always clear |
| Windows.WindowSubsystem.CreatePopUp | Source/MVVMLibrary/Private/WindowSubsystem.cpp:125-154 | null with no effect on a dedicated server, without a world, or for an invalid class. Otherwise: a fresh pop-up, attached to a valid parent or to the viewport, then initialised with the world's repositories. The window registry and the hidden flag are never changed |

## Left out

- **Engine internals.** Widget creation, viewport layout, garbage collection, the timer manager and subsystem lookup are represented only by their effects in the trace and by the `alive` / `liveWorlds` sets. Memory reclamation is not modelled.
- **Widget creation failure.** `CreateWidget` and `Cast` returning null is not modelled: a created window or pop-up is always a fresh object.
- **Owner of world-created widgets.** With no valid owner, a widget is created in the world; the model records only that no owner was given.
- **Pop-up timer values.** `LifeSpan` is a float and is not modelled; the pop-up timer is recorded only as scheduled and non-looping. The world dereferenced when the timer is armed is assumed to exist.
- **Blueprint wrappers.** `K2_OpenWindow`, `K2_CreatePopUp`, `K2_GetSessionModel`, `K2_GetContextualModel`, `K2_ShowView` and `K2_HideView` only forward to the modelled operations; each is collapsed into that operation.
- **`GetWindowSubsystem`.** `UUIViewModel::GetWindowSubsystem` asks the engine for a subsystem of the world context and is not modelled.
- **Session and contextual model classes.** `UISessionModel.cpp` and `UIContextualModel.cpp` are not part of this model. The repositories call the models' Blueprint events directly, so those events appear only as hooks in the trace.
- **Player lookup.** `UGameplayStatics::GetPlayerController(World, 0)` is the `playerZero` map parameter of `Views.ViewModel.GetOwningPlayer`.
- **Delegate details.** Delegate internals are abstracted:
  - `OnDestroyView` is a sequence of bound viewmodels;
  - removal keeps the remaining order, where the engine may swap;
  - handlers run over a snapshot of the list and are not skipped when their object has died;
  - `RemoveDynamic` is modelled as dropping every binding of the viewmodel (`Engine.Without`, `Engine.WithoutCount`). The plugin binds each viewmodel once, so one binding is dropped; how the engine treats duplicate bindings is not modelled.
- **Re-entrancy.** Hooks run by Blueprint code may call back into the subsystems; such calls are not modelled.
- Views.View.NativeDestruct: requires that every subscriber of `OnDestroyView` is a viewmodel bound to this view, which is the only way the plugin subscribes; bindings added by user code are not modelled.
- Windows.WindowSubsystem.HideAllWindows: requires that no registered window is null, because the source dereferences every entry without a check.
- Windows.WindowSubsystem.ShowAllWindows: requires that no registered window is null, for the same reason.
- Windows.WindowSubsystem.CloseAllWindows: visits a snapshot of the keys. The source removes entries from `OpenedWindows` while iterating over it with a ranged for, which the engine's map iterator does not support. The model gives the evidently intended effect: every window closed and the map empty.
- Windows.WindowSubsystem.InitializeExistsView: a missing world is an `Abort(NoWorld)` outcome; the source dereferences the null world pointer.
- Windows.WindowSubsystem.CreatePopUp: takes the `K2_InitializePopUp` dispatch to run the pop-up's native `InitializePopUp`. That event's native body is not part of this model.
