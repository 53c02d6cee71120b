/** The LLM pool: the registered providers by id and an index from each
    capability to the ids registered with it. A provider is modelled by the
    instance description it reports; its inference is not part of the pool. */
module Pool {
  import opened Common

  // ---------------------------------------------------------------- the index

  /** The ids filed under a capability; a capability never filed has none. */
  function IndexList(index: map<Capability, seq<string>>, c: Capability): seq<string>
  {
    if c in index then index[c] else []
  }

  /** How often `c` occurs in `caps`. */
  function Occurrences(caps: seq<Capability>, c: Capability): nat
  {
    if caps == [] then 0 else (if caps[0] == c then 1 else 0) + Occurrences(caps[1..], c)
  }

  /** `n` copies of `id`. */
  function Repeat(id: string, n: nat): (r: seq<string>)
    ensures |r| == n && forall i :: 0 <= i < n ==> r[i] == id
  {
    if n == 0 then [] else Repeat(id, n - 1) + [id]
  }

  /** The index after `register` files `id` under each of `caps` in turn,
      appending it to the list each time. */
  function AddToIndex(index: map<Capability, seq<string>>, caps: seq<Capability>, id: string): map<Capability, seq<string>>
    decreases |caps|
  {
    if caps == [] then index
    else AddToIndex(index[caps[0] := IndexList(index, caps[0]) + [id]], caps[1..], id)
  }

  /** `retain(|x| x != id)`: the list without any occurrence of `id`. */
  function Without(ids: seq<string>, id: string): (r: seq<string>)
    ensures id !in r
    ensures forall x :: x in r <==> x in ids && x != id
    ensures |r| <= |ids|
  {
    if ids == [] then []
    else (if ids[0] == id then [] else [ids[0]]) + Without(ids[1..], id)
  }

  /** The index after `unregister` has purged `id` from the lists of each of
      `caps` that has a list. */
  function RemoveFromIndex(index: map<Capability, seq<string>>, caps: seq<Capability>, id: string): map<Capability, seq<string>>
    decreases |caps|
  {
    if caps == [] then index
    else
      var c := caps[0];
      RemoveFromIndex(if c in index then index[c := Without(index[c], id)] else index, caps[1..], id)
  }

  /** Registering appends `id` to each capability's list once per occurrence
      of that capability, and to no other list; nothing is de-duplicated. */
  lemma {:induction false} AddToIndexLists(index: map<Capability, seq<string>>, caps: seq<Capability>, id: string, c: Capability)
    ensures IndexList(AddToIndex(index, caps, id), c) == IndexList(index, c) + Repeat(id, Occurrences(caps, c))
    decreases |caps|
  {
    if caps != [] {
      var next := index[caps[0] := IndexList(index, caps[0]) + [id]];
      AddToIndexLists(next, caps[1..], id, c);
      if caps[0] == c {
        RepeatPrepend(id, Occurrences(caps[1..], c));
      }
    }
  }

  lemma RepeatPrepend(id: string, n: nat)
    ensures [id] + Repeat(id, n) == Repeat(id, n + 1)
  {
    assert [id] + Repeat(id, n) == Repeat(id, n + 1);
  }

  /** A capability listed at position `i` occurs at least once. */
  lemma {:induction false} ListedOccurs(caps: seq<Capability>, i: nat)
    requires i < |caps|
    ensures Occurrences(caps, caps[i]) >= 1
    decreases i
  {
    if i > 0 {
      ListedOccurs(caps[1..], i - 1);
    }
  }

  /** After registering, the id is on the list of every listed capability. */
  lemma RegisteredIsIndexed(index: map<Capability, seq<string>>, caps: seq<Capability>, id: string, i: nat)
    requires i < |caps|
    ensures id in IndexList(AddToIndex(index, caps, id), caps[i])
  {
    AddToIndexLists(index, caps, id, caps[i]);
    ListedOccurs(caps, i);
    var r := Repeat(id, Occurrences(caps, caps[i]));
    assert (IndexList(index, caps[i]) + r)[|IndexList(index, caps[i])|] == id;
  }

  /** Unregistering leaves no occurrence of the id on the lists of the
      capabilities it was registered with, and touches no other list. */
  lemma {:induction false} RemoveFromIndexLists(index: map<Capability, seq<string>>, caps: seq<Capability>, id: string, c: Capability)
    ensures c in caps ==> id !in IndexList(RemoveFromIndex(index, caps, id), c)
    ensures c !in caps ==> IndexList(RemoveFromIndex(index, caps, id), c) == IndexList(index, c)
    ensures c in caps && c in index ==> IndexList(RemoveFromIndex(index, caps, id), c) == Without(index[c], id)
    decreases |caps|
  {
    if caps != [] {
      var first := caps[0];
      var next := if first in index then index[first := Without(index[first], id)] else index;
      RemoveFromIndexLists(next, caps[1..], id, c);
      if c == first {
        WithoutIdempotent(IndexList(next, c), id);
      }
    }
  }

  lemma WithoutIdempotent(ids: seq<string>, id: string)
    requires id !in ids
    ensures Without(ids, id) == ids
  {
    if ids != [] {
      WithoutIdempotent(ids[1..], id);
      assert ids == [ids[0]] + ids[1..];
    }
  }

  // ---------------------------------------------------------------- lookups

  /** `filter_map(get)` over an index list: the registered providers among
      the ids, in list order, repeated as the ids repeat. */
  function Lookup(providers: map<string, LlmInstance>, ids: seq<string>): (r: seq<LlmInstance>)
    ensures |r| <= |ids|
    ensures forall x :: x in r ==> exists k :: k in providers && providers[k] == x
    ensures forall i :: 0 <= i < |ids| && ids[i] in providers ==> providers[ids[i]] in r
  {
    if ids == [] then []
    else (if ids[0] in providers then [providers[ids[0]]] else []) + Lookup(providers, ids[1..])
  }

  /** The ids registered with a loaded instance. */
  function LoadedIds(providers: map<string, LlmInstance>): set<string>
  {
    set k | k in providers && providers[k].isLoaded
  }

  /** `PoolStats`. */
  datatype PoolStats = PoolStats(totalProviders: nat, loadedProviders: nat, unloadedProviders: nat)

  /** The bookkeeping of `get_all_loaded` part way through the providers:
      `loaded` are the visited ids whose instance is loaded, and `r` holds
      exactly one instance per loaded id, each loaded and in the pool. */
  ghost predicate Scanned(providers: map<string, LlmInstance>, visited: set<string>, loaded: set<string>, r: seq<LlmInstance>)
  {
    && visited <= providers.Keys
    && loaded <= visited
    && (forall k :: k in visited ==> (k in loaded <==> providers[k].isLoaded))
    && |r| == |loaded|
    && (forall i :: 0 <= i < |r| ==> r[i].isLoaded && r[i] in providers.Values)
    && (forall k :: k in loaded ==> providers[k] in r)
  }

  /** Visiting one more id keeps the bookkeeping. */
  lemma ScanStep(providers: map<string, LlmInstance>, visited: set<string>, loaded: set<string>, r: seq<LlmInstance>, k: string)
    requires Scanned(providers, visited, loaded, r) && k in providers && k !in visited
    ensures providers[k].isLoaded ==> Scanned(providers, visited + {k}, loaded + {k}, r + [providers[k]])
    ensures !providers[k].isLoaded ==> Scanned(providers, visited + {k}, loaded, r)
  {
    if providers[k].isLoaded {
      assert providers[k] in providers.Values;
      var r' := r + [providers[k]];
      assert k !in loaded;
      assert |loaded + {k}| == |loaded| + 1;
      forall i | 0 <= i < |r'|
        ensures r'[i].isLoaded && r'[i] in providers.Values
      {
        if i < |r| {
          assert r'[i] == r[i];
        }
      }
      forall j | j in loaded + {k}
        ensures providers[j] in r'
      {
        if j != k {
          assert providers[j] in r;
        } else {
          assert r'[|r|] == providers[k];
        }
      }
    }
  }

  /** Once every id is visited, `r` holds the loaded instances. */
  lemma ScanDone(providers: map<string, LlmInstance>, visited: set<string>, loaded: set<string>, r: seq<LlmInstance>)
    requires Scanned(providers, visited, loaded, r) && visited == providers.Keys
    ensures |r| == |LoadedIds(providers)|
    ensures forall i :: 0 <= i < |r| ==> r[i].isLoaded && r[i] in providers.Values
    ensures forall k :: k in providers && providers[k].isLoaded ==> providers[k] in r
  {
    assert loaded == LoadedIds(providers);
  }

  /** A subset has no more elements than its superset. */
  lemma {:induction false} SubsetCardinality(a: set<string>, b: set<string>)
    requires a <= b
    ensures |a| <= |b|
    decreases |b|
  {
    if a != {} {
      var x :| x in a;
      SubsetCardinality(a - {x}, b - {x});
    }
  }

  // ---------------------------------------------------------------- the pool

  /** `LLMPool`. */
  class LlmPool {
    var providers: map<string, LlmInstance>
    var capabilityIndex: map<Capability, seq<string>>

    /** `new`: no providers, an empty index. */
    constructor ()
      ensures providers == map[] && capabilityIndex == map[]
    {
      providers := map[];
      capabilityIndex := map[];
    }

    /** `register`: the provider is filed under its id, replacing any
        earlier one, and the id is appended to each of its capabilities'
        lists. */
    method Register(instance: LlmInstance)
      modifies this
      ensures providers == old(providers)[instance.id := instance]
      ensures capabilityIndex == AddToIndex(old(capabilityIndex), instance.capabilities, instance.id)
      ensures Get(instance.id) == Some(instance)
    {
      var id := instance.id;
      var capabilities := instance.capabilities;
      providers := providers[id := instance];
      ghost var index0 := capabilityIndex;
      for i := 0 to |capabilities|
        invariant providers == old(providers)[id := instance]
        invariant AddToIndex(index0, capabilities, id) == AddToIndex(capabilityIndex, capabilities[i..], id)
      {
        assert capabilities[i..][1..] == capabilities[i + 1..];
        var cap := capabilities[i];
        capabilityIndex := capabilityIndex[cap := IndexList(capabilityIndex, cap) + [id]];
      }
    }

    /** `unregister`: an unknown id is refused. A known one is removed and
        purged from the lists of the capabilities it was registered with. */
    method Unregister(llmId: string) returns (r: Result<()>)
      modifies this
      ensures r.Ok? <==> llmId in old(providers)
      ensures r.Err? ==>
        r.error == LlmNotFound(llmId) && providers == old(providers) && capabilityIndex == old(capabilityIndex)
      ensures r.Ok? ==>
        && providers == old(providers) - {llmId}
        && capabilityIndex == RemoveFromIndex(old(capabilityIndex), old(providers)[llmId].capabilities, llmId)
    {
      if llmId !in providers {
        return Err(LlmNotFound(llmId));
      }
      var capabilities := providers[llmId].capabilities;
      providers := providers - {llmId};
      ghost var index0 := capabilityIndex;
      for i := 0 to |capabilities|
        invariant providers == old(providers) - {llmId}
        invariant RemoveFromIndex(index0, capabilities, llmId) == RemoveFromIndex(capabilityIndex, capabilities[i..], llmId)
      {
        assert capabilities[i..][1..] == capabilities[i + 1..];
        var cap := capabilities[i];
        if cap in capabilityIndex {
          capabilityIndex := capabilityIndex[cap := Without(capabilityIndex[cap], llmId)];
        }
      }
      r := Ok(());
    }

    /** `get`. */
    function Get(llmId: string): Option<LlmInstance>
      reads this
    {
      if llmId in providers then Some(providers[llmId]) else None
    }

    /** `find_by_capability`: the providers behind the capability's list
        that are still registered. */
    function FindByCapability(capability: Capability): (r: seq<LlmInstance>)
      reads this
      ensures forall x :: x in r ==> exists k :: k in providers && providers[k] == x
    {
      Lookup(providers, IndexList(capabilityIndex, capability))
    }

    /** `get_all_loaded`: one entry per registered loaded instance, in an
        unspecified order. */
    method GetAllLoaded() returns (r: seq<LlmInstance>)
      ensures |r| == |LoadedIds(providers)|
      ensures forall i :: 0 <= i < |r| ==> r[i].isLoaded && r[i] in providers.Values
      ensures forall k :: k in providers && providers[k].isLoaded ==> providers[k] in r
    {
      var ps := providers;
      var remaining := ps.Keys;
      ghost var visited: set<string> := {};
      ghost var loaded: set<string> := {};
      r := [];
      while remaining != {}
        invariant remaining <= ps.Keys && visited == ps.Keys - remaining
        invariant Scanned(ps, visited, loaded, r)
        decreases remaining
      {
        var k :| k in remaining;
        ScanStep(ps, visited, loaded, r, k);
        remaining := remaining - {k};
        visited := visited + {k};
        if ps[k].isLoaded {
          loaded := loaded + {k};
          r := r + [ps[k]];
        }
      }
      ScanDone(ps, visited, loaded, r);
    }

    /** `get_all_ids`: every registered id exactly once, in an unspecified
        order. */
    method GetAllIds() returns (r: seq<string>)
      ensures forall k :: k in r <==> k in providers
      ensures forall i, j :: 0 <= i < j < |r| ==> r[i] != r[j]
    {
      var remaining := providers.Keys;
      r := [];
      while remaining != {}
        invariant remaining !! (set i | 0 <= i < |r| :: r[i])
        invariant forall k :: k in providers <==> k in remaining || k in r
        invariant forall k :: k in remaining ==> k in providers
        invariant forall i, j :: 0 <= i < j < |r| ==> r[i] != r[j]
        decreases remaining
      {
        var k :| k in remaining;
        remaining := remaining - {k};
        r := r + [k];
      }
    }

    /** `load`: accepted exactly for a registered id; nothing changes. */
    method Load(llmId: string) returns (r: Result<()>)
      ensures r.Ok? <==> llmId in providers
      ensures r.Err? ==> r.error == LlmNotFound(llmId)
    {
      if llmId in providers {
        r := Ok(());
      } else {
        r := Err(LlmNotFound(llmId));
      }
    }

    /** `unload`: accepted exactly for a registered id; nothing changes. */
    method Unload(llmId: string) returns (r: Result<()>)
      ensures r.Ok? <==> llmId in providers
      ensures r.Err? ==> r.error == LlmNotFound(llmId)
    {
      if llmId in providers {
        r := Ok(());
      } else {
        r := Err(LlmNotFound(llmId));
      }
    }

    /** `stats`: the loaded and unloaded counts add up to the total. */
    method Stats() returns (s: PoolStats)
      ensures s.totalProviders == |providers| && s.loadedProviders == |LoadedIds(providers)|
      ensures s.loadedProviders <= s.totalProviders
      ensures s.loadedProviders + s.unloadedProviders == s.totalProviders
    {
      var total := |providers|;
      var loaded := GetAllLoaded();
      SubsetCardinality(LoadedIds(providers), providers.Keys);
      s := PoolStats(total, |loaded|, total - |loaded|);
    }
  }

  /** Registering an id again with other capabilities leaves the id on the
      lists of the old ones, so `find_by_capability` of an old capability
      still returns the provider although it no longer lists it. */
  lemma ReRegisterLeavesStaleEntries(a: LlmInstance, b: LlmInstance)
    requires a.id == b.id && a.capabilities == [Code] && b.capabilities == [Security]
    ensures var index := AddToIndex(AddToIndex(map[], a.capabilities, a.id), b.capabilities, b.id);
      var providers := map[a.id := a][b.id := b];
      Lookup(providers, IndexList(index, Code)) == [b] && Code !in b.capabilities
  {
    var index1 := AddToIndex(map[], a.capabilities, a.id);
    assert IndexList(index1, Code) == [a.id];
    assert IndexList(AddToIndex(index1, b.capabilities, b.id), Code) == [a.id];
  }
}
