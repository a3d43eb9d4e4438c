/**
 * The vocabulary shared by every part of the model: class identifiers, the
 * engine values the library only passes around (worlds, player controllers,
 * panel widgets), the outcome of a fatal `check`, and the trace of effects.
 *
 * The engine itself (widget creation, the viewport, timers, Blueprint events)
 * is not modelled; every call into it is recorded as an `Event` appended to
 * `Host.events`, so that what the library does, and in which order, can be
 * stated about that sequence.
 */
module Engine {

  datatype Option<+T> = None | Some(value: T)

  /** The identity of a concrete UClass: a model, view, viewmodel or pop-up class. */
  datatype TypeId = TypeId(name: string)

  /** A `TSubclassOf<...>` argument: no valid class (null or pending kill), or a class. */
  datatype ClassRef = NoClass | ClassOf(id: TypeId)

  /** A UWorld, compared by identity. */
  datatype World = World(id: nat)

  /** An APlayerController, compared by identity. */
  datatype PlayerController = PlayerController(id: nat)

  /** A UPanelWidget that a pop-up may be added to; only its identity matters. */
  class PanelWidget {
    constructor () {}
  }

  /** EUILayer: the order in which layers are stacked on the viewport. */
  datatype UILayer = BehindHUD | HUD | GameplayView | PopUp

  /** The z-order `AddToViewport` receives: the enumerator's underlying value. */
  function ZOrder(layer: UILayer): (z: int)
    ensures 0 <= z <= 3
    ensures layer == PopUp <==> z == 3
    ensures layer == BehindHUD <==> z == 0
  {
    match layer
    case BehindHUD => 0
    case HUD => 1
    case GameplayView => 2
    case PopUp => 3
  }

  /** The two ESlateVisibility values the views use. */
  datatype Visibility = HitTestInvisible | Collapsed

  /** The misconfigurations that stop the program at a `check`. */
  datatype Failure =
    | NoSessionRepository   // a contextual model cannot reach the session repository
    | NoViewModelClass      // a view has no viewmodel class configured
    | NullView              // a viewmodel is bound to no view
    | NoWorld               // the window subsystem dereferences a missing world
    | MissingRepositories   // a view is initialised without both repositories

  /** How an operation ends: it returns a value, or a fatal `check` stops it. */
  datatype Exit<+T> = Return(value: T) | Abort(failure: Failure)

  /** What one event of the trace does to its target object. */
  datatype Action =
    // allocation by the engine
    | NewObject(outer: object)                       // NewObject<...>(Outer, Class)
    | CreateWidget(owner: Option<PlayerController>)  // CreateWidget(Owner or World, Class)
    // the display host and the timer manager
    | AddToViewport(zOrder: int)
    | AddChild(child: object)
    | RemoveFromParent
    | SetVisibility(visibility: Visibility)
    | SetTimer(looping: bool)
    // mutations of a registry map or of a multicast delegate
    | Register(key: TypeId, value: object)
    | Unregister(key: TypeId)
    | Emptied
    | Subscribe(listener: object)
    | Unsubscribe(listener: object)
    | BroadcastOnDestroyPopUp
    // lifecycle hooks (native and script dispatch collapsed into one event)
    | SetModelRepository(modelRepository: object?)
    | SetWorldModelRepository(worldModelRepository: object?)
    | StartSession
    | EndSession
    | OnInitModel
    | OnDestroyModel
    | InitializeViewModel(view: object?)
    | OnDestroyViewModel
    | InitializePopUp(modelRepository: object?, worldModelRepository: object?)
    // the engine base class's own teardown, run last
    | SuperDeinitialize
    | SuperNativeDestruct

  datatype Event = Call(target: object, action: Action)

  /** The trace of everything the library asked of the engine and of its hooks. */
  class Host {
    var events: seq<Event>

    constructor ()
      ensures events == []
    {
      events := [];
    }
  }

  /** What an operation on a registry value answers: its result, the new state, the events. */
  datatype Answer<+R, +S> = Answer(result: R, state: S, events: seq<Event>)

  /** A weak pointer's IsValid(): set, and its object not yet collected. */
  predicate Live(p: object?, alive: set<object>)
  {
    p != null && p in alive
  }

  /** The call made on a map entry that the source null-checks first. */
  function CallOn(target: object?, action: Action): seq<Event>
  {
    if target == null then [] else [Call(target, action)]
  }

  /** `order` lists every key of `keys` exactly once: one iteration order of a map. */
  ghost predicate Enumerates(order: seq<TypeId>, keys: set<TypeId>)
  {
    && (forall i, j :: 0 <= i < j < |order| ==> order[i] != order[j])
    && (forall k :: k in keys <==> k in order)
  }

  /** No object is registered under two keys. */
  ghost predicate Injective(entries: map<TypeId, object?>)
  {
    forall k1, k2 :: k1 in entries && k2 in entries && k1 != k2 && entries[k1] != null ==> entries[k1] != entries[k2]
  }

  /** The calls a loop over `entries`, visiting keys in `order`, makes on every non-null value. */
  function EntryCalls(order: seq<TypeId>, entries: map<TypeId, object?>, action: Action): seq<Event>
    requires forall i :: 0 <= i < |order| ==> order[i] in entries
  {
    if order == [] then []
    else CallOn(entries[order[0]], action) + EntryCalls(order[1..], entries, action)
  }

  /** Visiting one more key appends that key's call. */
  lemma {:induction false} EntryCallsAppend(order: seq<TypeId>, entries: map<TypeId, object?>, action: Action, k: TypeId)
    requires forall i :: 0 <= i < |order| ==> order[i] in entries
    requires k in entries
    ensures EntryCalls(order + [k], entries, action) == EntryCalls(order, entries, action) + CallOn(entries[k], action)
  {
    if order == [] {
      assert order + [k] == [k];
    } else {
      assert (order + [k])[1..] == order[1..] + [k];
      EntryCallsAppend(order[1..], entries, action, k);
    }
  }

  /** An object registered under none of the visited keys receives no call. */
  lemma {:induction false} EntryCallsAbsent(order: seq<TypeId>, entries: map<TypeId, object?>, action: Action, o: object)
    requires forall i :: 0 <= i < |order| ==> order[i] in entries && entries[order[i]] != o
    ensures multiset(EntryCalls(order, entries, action))[Call(o, action)] == 0
  {
    if order != [] {
      EntryCallsAbsent(order[1..], entries, action, o);
    }
  }

  /** A loop over distinct keys of an injective registry calls each registered object exactly once. */
  lemma {:induction false} EntryCallsOnce(order: seq<TypeId>, entries: map<TypeId, object?>, action: Action, t: TypeId)
    requires forall i :: 0 <= i < |order| ==> order[i] in entries
    requires forall i, j :: 0 <= i < j < |order| ==> order[i] != order[j]
    requires Injective(entries)
    requires t in order && entries[t] != null
    ensures multiset(EntryCalls(order, entries, action))[Call(entries[t], action)] == 1
  {
    var o := entries[t];
    if order[0] == t {
      forall i | 0 <= i < |order[1..]|
        ensures order[1..][i] in entries && entries[order[1..][i]] != o
      {
        assert order[1..][i] == order[i + 1] != order[0];
      }
      EntryCallsAbsent(order[1..], entries, action, o);
    } else {
      assert entries[order[0]] != o;
      assert t in order[1..] by {
        var i :| 0 <= i < |order| && order[i] == t;
        assert order[1..][i - 1] == t;
      }
      EntryCallsOnce(order[1..], entries, action, t);
    }
  }

  /** A multicast delegate's invocation list after removing every binding of `x`. */
  function Without<T(==)>(s: seq<T>, x: T): (r: seq<T>)
    ensures x !in r
    ensures forall i :: 0 <= i < |s| && s[i] != x ==> s[i] in r
    ensures forall y :: y in r ==> y in s
    ensures x !in s ==> r == s
  {
    if s == [] then []
    else
      var rest := Without(s[1..], x);
      assert s == [s[0]] + s[1..];
      assert forall i :: 1 <= i < |s| ==> s[i] == s[1..][i - 1];
      (if s[0] == x then [] else [s[0]]) + rest
  }

  /** Removing a listener drops exactly its bindings: one element per time it was bound. */
  lemma {:induction false} WithoutCount<T>(s: seq<T>, x: T)
    ensures |Without(s, x)| == |s| - multiset(s)[x]
  {
    if s != [] {
      assert s == [s[0]] + s[1..];
      WithoutCount(s[1..], x);
    }
  }

  /** Subscribing and then unsubscribing the same listener leaves the other listeners as they were. */
  lemma {:induction false} SubscribeThenUnsubscribe<T>(s: seq<T>, x: T)
    ensures Without(s + [x], x) == Without(s, x)
  {
    if s == [] {
      assert s + [x] == [x];
    } else {
      assert (s + [x])[1..] == s[1..] + [x];
      SubscribeThenUnsubscribe(s[1..], x);
    }
  }
}
