/**
 * UObjectWithWorldContext: an object that finds the world it lives in by
 * walking its chain of outers, and remembers the answer in a weak pointer.
 *
 * The chain is given as what `GetWorld()` reports for each outer, innermost
 * first; the engine's objects themselves are not modelled. A weak pointer is
 * valid while its world is in `liveWorlds`.
 */
module WorldContext {
  import opened Engine

  /** The world of the first outer that has one. */
  function FirstWorld(outers: seq<Option<World>>): (r: Option<World>)
    ensures r.None? <==> forall i :: 0 <= i < |outers| ==> outers[i].None?
    ensures r.Some? ==> exists i :: 0 <= i < |outers| && outers[i] == r && forall j :: 0 <= j < i ==> outers[j].None?
  {
    if outers == [] then None
    else if outers[0].Some? then outers[0]
    else
      var rest := FirstWorld(outers[1..]);
      assert forall i :: 1 <= i < |outers| ==> outers[i] == outers[1..][i - 1];
      rest
  }

  /** The cache holds a world that is still alive. */
  predicate ValidCache(cache: Option<World>, liveWorlds: set<World>)
  {
    cache.Some? && cache.value in liveWorlds
  }

  /** GetWorld as a value: the world it returns and the cache it leaves behind. */
  function ResolveWorld(cache: Option<World>, liveWorlds: set<World>, outers: seq<Option<World>>): (Option<World>, Option<World>)
  {
    if ValidCache(cache, liveWorlds) then (cache, cache)
    else
      match FirstWorld(outers)
      case Some(w) => (Some(w), Some(w))
      case None => (None, cache)
  }

  /**
   * Without a valid cache, the answer is the world of the first outer that has
   * one, and that world is what gets cached; with no such outer the answer is
   * none and the cache is left as it was.
   */
  lemma ResolveWorldWalksChain(cache: Option<World>, liveWorlds: set<World>, outers: seq<Option<World>>)
    requires !ValidCache(cache, liveWorlds)
    ensures var (r, c) := ResolveWorld(cache, liveWorlds, outers);
      && (r.Some? ==> c == r && exists i :: 0 <= i < |outers| && outers[i] == r && forall j :: 0 <= j < i ==> outers[j].None?)
      && (r.None? ==> c == cache && forall i :: 0 <= i < |outers| ==> outers[i].None?)
  {
  }

  /**
   * Memoisation: once a call has returned a world, every later call returns
   * the same world without looking at the chain, for as long as that world is
   * alive, whatever else has died or been created in between.
   */
  lemma ResolveWorldMemoised(cache: Option<World>, liveWorlds: set<World>, outers: seq<Option<World>>,
                             laterLiveWorlds: set<World>, later: seq<Option<World>>)
    ensures var (r, c) := ResolveWorld(cache, liveWorlds, outers);
      r.Some? && r.value in laterLiveWorlds ==> ResolveWorld(c, laterLiveWorlds, later) == (r, c)
  {
  }

  class ObjectWithWorldContext {
    /** CachedWorld: a weak pointer, written on the first successful walk. */
    var cachedWorld: Option<World>

    constructor ()
      ensures cachedWorld == None
    {
      cachedWorld := None;
    }

    /** GetWorld: the cached world if still valid, else the first world along the outer chain. */
    method GetWorld(liveWorlds: set<World>, outers: seq<Option<World>>) returns (world: Option<World>)
      modifies this
      ensures (world, cachedWorld) == ResolveWorld(old(cachedWorld), liveWorlds, outers)
    {
      if ValidCache(cachedWorld, liveWorlds) {
        return cachedWorld;
      }
      var i := 0;
      while i < |outers|
        invariant 0 <= i <= |outers|
        invariant forall j :: 0 <= j < i ==> outers[j].None?
        invariant cachedWorld == old(cachedWorld)
      {
        if outers[i].Some? {
          cachedWorld := outers[i];
          return outers[i];
        }
        i := i + 1;
      }
      return None;
    }

    /** GetWorldContext: the Blueprint-facing name of GetWorld, with the same answer and effect. */
    method GetWorldContext(liveWorlds: set<World>, outers: seq<Option<World>>) returns (world: Option<World>)
      modifies this
      ensures (world, cachedWorld) == ResolveWorld(old(cachedWorld), liveWorlds, outers)
    {
      world := GetWorld(liveWorlds, outers);
    }
  }
}
