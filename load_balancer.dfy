/** The pool's load balancer: a round-robin counter over lists of LLM ids. */
module LoadBalancer {
  import opened Common
  import opened Strings

  /** The number of values of a `usize` on a 64-bit target. */
  const UsizeModulus: int := 0x1_0000_0000_0000_0000

  newtype Usize = x: int | 0 <= x < UsizeModulus

  /** `fetch_add(1)` on the atomic counter wraps around at the top. */
  function WrappingIncrement(c: Usize): (d: Usize)
    ensures c as int + 1 < UsizeModulus ==> d as int == c as int + 1
    ensures c as int + 1 == UsizeModulus ==> d == 0
  {
    ((c as int + 1) % UsizeModulus) as Usize
  }

  /** The ids `keep` accepts, in list order. */
  function Filter(ids: seq<string>, keep: string -> bool): (r: seq<string>)
    ensures forall x :: x in r <==> x in ids && keep(x)
  {
    if ids == [] then []
    else (if keep(ids[0]) then [ids[0]] else []) + Filter(ids[1..], keep)
  }

  /** One round-robin choice from counter `c`: the pick, and the counter
      after it. An empty list picks nothing and leaves the counter. */
  function RoundRobin(c: Usize, ids: seq<string>): (Option<string>, Usize)
  {
    if ids == [] then (None, c) else (Some(ids[c as int % |ids|]), WrappingIncrement(c))
  }

  /** The picks of `n` successive round-robin choices from counter `c`. */
  function Picks(c: Usize, ids: seq<string>, n: nat): seq<string>
    requires ids != []
    decreases n
  {
    if n == 0 then []
    else
      var (pick, next) := RoundRobin(c, ids);
      [pick.value] + Picks(next, ids, n - 1)
  }

  /** Without wrap-around, the `k`-th pick from counter `c` is the id at
      position `(c + k) mod len`: the choices cycle through the list. */
  lemma {:induction false} PicksCycle(c: Usize, ids: seq<string>, n: nat, k: nat)
    requires ids != [] && k < n && c as int + n < UsizeModulus
    ensures |Picks(c, ids, n)| == n
    ensures Picks(c, ids, n)[k] == ids[(c as int + k) % |ids|]
    decreases n
  {
    PicksLength(c, ids, n);
    if k > 0 {
      PicksCycle(WrappingIncrement(c), ids, n - 1, k - 1);
    }
  }

  lemma {:induction false} PicksLength(c: Usize, ids: seq<string>, n: nat)
    requires ids != []
    ensures |Picks(c, ids, n)| == n
    decreases n
  {
    if n > 0 {
      PicksLength(WrappingIncrement(c), ids, n - 1);
    }
  }

  /** A fresh balancer over three ids picks llm1, llm2, llm3, then llm1 again. */
  lemma ThreeIdsCycle()
    ensures Picks(0, ["llm1", "llm2", "llm3"], 4) == ["llm1", "llm2", "llm3", "llm1"]
  {
    var ids := ["llm1", "llm2", "llm3"];
    PicksCycle(0, ids, 4, 0);
    PicksCycle(0, ids, 4, 1);
    PicksCycle(0, ids, 4, 2);
    PicksCycle(0, ids, 4, 3);
  }

  /** One prefer-local choice: a local id when there is one, else a cloud id,
      else nothing; only a pick advances the counter. */
  function PreferLocal(c: Usize, ids: seq<string>, isLocal: string -> bool): (Option<string>, Usize)
  {
    var local := Filter(ids, isLocal);
    var cloud := Filter(ids, x => !isLocal(x));
    if local != [] then RoundRobin(c, local) else RoundRobin(c, cloud)
  }

  /** A local id is picked whenever the list has one. */
  lemma PreferLocalPicksLocal(c: Usize, ids: seq<string>, isLocal: string -> bool)
    requires exists i :: 0 <= i < |ids| && isLocal(ids[i])
    ensures var (r, d) := PreferLocal(c, ids, isLocal);
      r.Some? && r.value in ids && isLocal(r.value) && d == WrappingIncrement(c)
  {
    var i :| 0 <= i < |ids| && isLocal(ids[i]);
    assert ids[i] in Filter(ids, isLocal);
  }

  /** A cloud id is picked only when the list holds no local id; nothing is
      picked only for the empty list, and then the counter stays. */
  lemma PreferLocalFallsBack(c: Usize, ids: seq<string>, isLocal: string -> bool)
    ensures var (r, d) := PreferLocal(c, ids, isLocal);
      && (r.Some? ==> r.value in ids)
      && (r.Some? && !isLocal(r.value) ==> forall i :: 0 <= i < |ids| ==> !isLocal(ids[i]))
      && (r.None? <==> ids == [])
      && (d == if r.Some? then WrappingIncrement(c) else c)
  {
    var local := Filter(ids, isLocal);
    var cloud := Filter(ids, x => !isLocal(x));
    if ids != [] {
      assert ids[0] in local || ids[0] in cloud;
    }
  }

  /** The test's notion of a local id: its name starts with "local". */
  predicate NamedLocal(id: string)
  {
    StartsWith(id, "local")
  }

  /** Of "cloud1", "local1" and "local2", a local one is picked. */
  lemma PreferLocalExample(c: Usize)
    ensures var r := PreferLocal(c, ["cloud1", "local1", "local2"], NamedLocal).0;
      r.Some? && StartsWith(r.value, "local")
  {
    var ids := ["cloud1", "local1", "local2"];
    assert ids[1][..5] == "local";
    assert NamedLocal(ids[1]);
    PreferLocalPicksLocal(c, ids, NamedLocal);
  }

  /** `LoadBalancer`: the shared round-robin counter. */
  class LoadBalancer {
    var counter: Usize

    /** `new`: the counter starts at 0. */
    constructor ()
      ensures counter == 0
    {
      counter := 0;
    }

    /** `select_round_robin`. */
    method SelectRoundRobin(ids: seq<string>) returns (r: Option<string>)
      modifies this
      ensures (r, counter) == RoundRobin(old(counter), ids)
      ensures r.Some? ==> r.value in ids
      ensures r.None? <==> ids == []
    {
      if ids == [] {
        return None;
      }
      var count := counter;
      counter := WrappingIncrement(counter);
      var index := count as int % |ids|;
      r := Some(ids[index]);
    }

    /** `select_least_loaded`: round-robin, as load is not tracked. */
    method SelectLeastLoaded(ids: seq<string>) returns (r: Option<string>)
      modifies this
      ensures (r, counter) == RoundRobin(old(counter), ids)
    {
      r := SelectRoundRobin(ids);
    }

    /** `select_prefer_local`. */
    method SelectPreferLocal(ids: seq<string>, isLocal: string -> bool) returns (r: Option<string>)
      modifies this
      ensures (r, counter) == PreferLocal(old(counter), ids, isLocal)
    {
      var local := Filter(ids, isLocal);
      var cloud := Filter(ids, x => !isLocal(x));
      if local != [] {
        var count := counter;
        counter := WrappingIncrement(counter);
        r := Some(local[count as int % |local|]);
      } else if cloud != [] {
        var count := counter;
        counter := WrappingIncrement(counter);
        r := Some(cloud[count as int % |cloud|]);
      } else {
        r := None;
      }
    }
  }
}
