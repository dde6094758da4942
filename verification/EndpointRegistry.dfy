/** The run directory's registry of AlpaSim runtimes and driver assignments, with least-loaded assignment and the local
    capacity each rollout worker derives from it. */
module EndpointRegistry {
  import opened Quotients
  import opened Wrappers
  import T = Tally

  /** `id` stands for the place of the endpoint's name among names. */
  datatype Endpoint = Endpoint(id: nat, host: string, port: nat, capacity: nat)

  type Assignments = map<string, nat>

  /** The published runtimes as a sorted directory listing gives them. */
  predicate Listing(runtimes: seq<Endpoint>) {
    forall i, j :: 0 <= i < j < |runtimes| ==> runtimes[i].id < runtimes[j].id
  }

  function Drivers(assignments: Assignments, id: nat): set<string> {
    set d | d in assignments && assignments[d] == id
  }

  function Count(assignments: Assignments, id: nat): nat {
    |Drivers(assignments, id)|
  }

  /** Order by load, then by name. */
  predicate NotAfter(assignments: Assignments, a: Endpoint, b: Endpoint) {
    var (x, y) := (Count(assignments, a.id), Count(assignments, b.id));
    x < y || (x == y && a.id <= b.id)
  }

  /** The place of the runtime the next driver gets. */
  function LeastLoaded(runtimes: seq<Endpoint>, assignments: Assignments): (k: nat)
    requires runtimes != []
    ensures k < |runtimes| && forall j :: 0 <= j < |runtimes| ==> NotAfter(assignments, runtimes[k], runtimes[j])
  {
    if |runtimes| == 1 then 0
    else
      var last := |runtimes| - 1;
      var k := LeastLoaded(runtimes[..last], assignments);
      assert forall j :: 0 <= j < last ==> runtimes[..last][j] == runtimes[j];
      if NotAfter(assignments, runtimes[k], runtimes[last]) then k else last
  }

  predicate Known(runtimes: seq<Endpoint>, id: nat) {
    exists k :: 0 <= k < |runtimes| && runtimes[k].id == id
  }

  function Find(runtimes: seq<Endpoint>, id: nat): (k: nat)
    requires Known(runtimes, id)
    ensures k < |runtimes| && runtimes[k].id == id
  {
    if runtimes[0].id == id then 0
    else
      var k :| 0 <= k < |runtimes| && runtimes[k].id == id;
      assert runtimes[1..][k - 1].id == id;
      1 + Find(runtimes[1..], id)
  }

  /** The endpoint a driver gets: the one on file, or the least loaded. */
  function Acquire(runtimes: seq<Endpoint>, assignments: Assignments, driver: string): Result<Endpoint> {
    if runtimes == [] then Err("No AlpaSim runtime endpoints")
    else if driver in assignments then
      if Known(runtimes, assignments[driver]) then Ok(runtimes[Find(runtimes, assignments[driver])])
      else Err("Driver is assigned to unknown AlpaSim runtime")
    else Ok(runtimes[LeastLoaded(runtimes, assignments)])
  }

  function Assigned(runtimes: seq<Endpoint>, assignments: Assignments, driver: string): Assignments {
    var r := Acquire(runtimes, assignments, driver);
    if r.Ok? then assignments[driver := r.value.id] else assignments
  }

  class FileTopologyRegistry {
    var runtimes: seq<Endpoint>
    var assignments: Assignments

    constructor ()
      ensures runtimes == [] && assignments == map[]
    {
      runtimes, assignments := [], map[];
    }

    method ResetAlpasimTopology()
      modifies this
      ensures runtimes == [] && assignments == map[]
    {
      runtimes, assignments := [], map[];
    }

    /** Publishing a name twice fails. */
    method PublishAlpasimRuntime(endpoint: Endpoint) returns (ok: bool)
      requires Listing(runtimes)
      modifies this`runtimes
      ensures ok <==> !Known(old(runtimes), endpoint.id)
      ensures !ok ==> runtimes == old(runtimes)
      ensures ok ==> Listing(runtimes) && forall e :: e in runtimes <==> e in old(runtimes) || e == endpoint
    {
      var i := 0;
      while i < |runtimes| && runtimes[i].id < endpoint.id
        invariant 0 <= i <= |runtimes| && forall j :: 0 <= j < i ==> runtimes[j].id < endpoint.id
      {
        i := i + 1;
      }
      if i < |runtimes| && runtimes[i].id == endpoint.id {
        return false;
      }
      NotListed(runtimes, endpoint.id, i);
      InsertListed(runtimes, endpoint, i);
      runtimes := Insert(runtimes, endpoint, i);
      ok := true;
    }

    /** One pass over all assignment files. */
    method CountAssignments() returns (counts: map<nat, nat>)
      ensures counts.Keys == set k | 0 <= k < |runtimes| :: runtimes[k].id
      ensures forall id :: id in counts ==> counts[id] == Count(assignments, id)
    {
      hide Count;
      counts := map k | 0 <= k < |runtimes| :: runtimes[k].id := 0;
      NoDrivers();
      var left := assignments.Keys;
      ghost var seen: Assignments := map[];
      while left != {}
        invariant left <= assignments.Keys && seen == (map d | d in assignments && d !in left :: assignments[d])
        invariant counts.Keys == set k | 0 <= k < |runtimes| :: runtimes[k].id
        invariant forall id :: id in counts ==> counts[id] == Count(seen, id)
        decreases |left|
      {
        var d :| d in left;
        var id := assignments[d];
        CountAssign(seen, d, id);
        if id in counts {
          counts := counts[id := counts[id] + 1];
        }
        seen := seen[d := id];
        left := left - {d};
      }
      assert seen == assignments;
    }

    method AcquireAlpasimRuntime(driver: string) returns (r: Result<Endpoint>)
      requires Listing(runtimes)
      modifies this`assignments
      ensures r == Acquire(runtimes, old(assignments), driver)
      ensures assignments == Assigned(runtimes, old(assignments), driver)
    {
      if runtimes == [] {
        return Err("No AlpaSim runtime endpoints");
      }
      if driver in assignments {
        var id := assignments[driver];
        if !Known(runtimes, id) {
          return Err("Driver is assigned to unknown AlpaSim runtime");
        }
        return Ok(runtimes[Find(runtimes, id)]);
      }
      var counts := CountAssignments();
      var k := 0;
      for j := 0 to |runtimes|
        invariant k < |runtimes| && forall i :: 0 <= i < j ==> NotAfter(assignments, runtimes[k], runtimes[i])
      {
        assert runtimes[j].id in counts && runtimes[k].id in counts;
        if counts[runtimes[j].id] < counts[runtimes[k].id]
          || (counts[runtimes[j].id] == counts[runtimes[k].id] && runtimes[j].id < runtimes[k].id) {
          k := j;
        }
      }
      LeastIsUnique(runtimes, assignments, k);
      assignments := assignments[driver := runtimes[k].id];
      r := Ok(runtimes[k]);
    }
  }

  lemma NotListed(runtimes: seq<Endpoint>, id: nat, i: nat)
    requires Listing(runtimes) && i <= |runtimes| && forall j :: 0 <= j < i ==> runtimes[j].id < id
    requires i < |runtimes| ==> id < runtimes[i].id
    ensures !Known(runtimes, id)
  {
  }

  function Insert(runtimes: seq<Endpoint>, endpoint: Endpoint, i: nat): (after: seq<Endpoint>)
    requires i <= |runtimes|
    ensures |after| == |runtimes| + 1
    ensures forall j :: 0 <= j < |after| ==>
                          after[j] == if j < i then runtimes[j] else if j == i then endpoint else runtimes[j - 1]
  {
    seq(|runtimes| + 1, j requires 0 <= j < |runtimes| + 1 =>
      if j < i then runtimes[j] else if j == i then endpoint else runtimes[j - 1])
  }

  lemma InsertListed(runtimes: seq<Endpoint>, endpoint: Endpoint, i: nat)
    requires Listing(runtimes) && i <= |runtimes| && forall j :: 0 <= j < i ==> runtimes[j].id < endpoint.id
    requires i < |runtimes| ==> endpoint.id < runtimes[i].id
    ensures Listing(Insert(runtimes, endpoint, i))
    ensures forall e :: e in Insert(runtimes, endpoint, i) <==> e in runtimes || e == endpoint
  {
    var after := Insert(runtimes, endpoint, i);
    forall e | e in runtimes || e == endpoint
      ensures e in after
    {
      if e == endpoint {
        assert after[i] == e;
      } else {
        var k :| 0 <= k < |runtimes| && runtimes[k] == e;
        assert after[if k < i then k else k + 1] == e;
      }
    }
  }

  lemma NoDrivers()
    ensures forall id :: Count(map[], id) == 0
  {
    assert forall id :: Drivers(map[], id) == {};
  }

  lemma CountAssignAt(assignments: Assignments, driver: string, id: nat, other: nat)
    requires driver !in assignments
    ensures Count(assignments[driver := id], other) == Count(assignments, other) + if other == id then 1 else 0
  {
    var before, after := Drivers(assignments, other), Drivers(assignments[driver := id], other);
    if other == id {
      assert after == before + {driver};
    } else {
      assert after == before;
    }
  }

  lemma CountAssign(assignments: Assignments, driver: string, id: nat)
    requires driver !in assignments
    ensures forall other :: Count(assignments[driver := id], other)
                            == Count(assignments, other) + if other == id then 1 else 0
  {
    hide Count;
    forall other: nat
      ensures Count(assignments[driver := id], other) == Count(assignments, other) + if other == id then 1 else 0
    {
      CountAssignAt(assignments, driver, id, other);
    }
  }

  lemma LeastIsUnique(runtimes: seq<Endpoint>, assignments: Assignments, k: nat)
    requires Listing(runtimes) && k < |runtimes|
    requires forall j :: 0 <= j < |runtimes| ==> NotAfter(assignments, runtimes[k], runtimes[j])
    ensures k == LeastLoaded(runtimes, assignments)
  {
    var l := LeastLoaded(runtimes, assignments);
    assert NotAfter(assignments, runtimes[k], runtimes[l]) && NotAfter(assignments, runtimes[l], runtimes[k]);
  }

  // ---------- runs of acquires over a fixed set of runtimes ----------

  function After(runtimes: seq<Endpoint>, drivers: seq<string>): Assignments {
    if drivers == [] then map[]
    else Assigned(runtimes, After(runtimes, drivers[..|drivers| - 1]), drivers[|drivers| - 1])
  }

  function Loads(runtimes: seq<Endpoint>, assignments: Assignments): (r: seq<nat>)
    ensures |r| == |runtimes| && forall k :: 0 <= k < |r| ==> r[k] == Count(assignments, runtimes[k].id)
  {
    seq(|runtimes|, k requires 0 <= k < |runtimes| => Count(assignments, runtimes[k].id))
  }

  function Itself(): nat -> nat {
    (n: nat) => n
  }

  predicate Balanced(loads: seq<nat>) {
    forall i, j :: 0 <= i < |loads| && 0 <= j < |loads| ==> loads[i] <= loads[j] + 1
  }

  predicate AllKnown(runtimes: seq<Endpoint>, assignments: Assignments) {
    forall d :: d in assignments ==> Known(runtimes, assignments[d])
  }

  lemma EmptyLoads(runtimes: seq<Endpoint>)
    ensures forall k :: 0 <= k < |runtimes| ==> Loads(runtimes, map[])[k] == 0
  {
    hide Count;
    NoDrivers();
  }

  lemma NewDriver(runtimes: seq<Endpoint>, assignments: Assignments, driver: string)
    requires runtimes != [] && driver !in assignments
    ensures Assigned(runtimes, assignments, driver)
            == assignments[driver := runtimes[LeastLoaded(runtimes, assignments)].id]
  {
    hide LeastLoaded;
  }

  lemma IdsDiffer(runtimes: seq<Endpoint>, j: nat, k: nat)
    requires Listing(runtimes) && j < |runtimes| && k < |runtimes| && j != k
    ensures runtimes[j].id != runtimes[k].id
  {
  }

  lemma LoadsAfter(runtimes: seq<Endpoint>, assignments: Assignments, driver: string, k: nat)
    requires Listing(runtimes) && k < |runtimes| && driver !in assignments
    ensures (var loads := Loads(runtimes, assignments);
             Loads(runtimes, assignments[driver := runtimes[k].id]) == loads[k := loads[k] + 1])
  {
    hide Count, Listing;
    var loads, after := Loads(runtimes, assignments), Loads(runtimes, assignments[driver := runtimes[k].id]);
    forall j: nat | j < |runtimes|
      ensures after[j] == loads[j] + if j == k then 1 else 0
    {
      CountAssignAt(assignments, driver, runtimes[k].id, runtimes[j].id);
      if j != k {
        IdsDiffer(runtimes, j, k);
      }
    }
  }

  /** A new driver adds one to the load of the least loaded runtime and to no other. */
  lemma LoadsGrow(runtimes: seq<Endpoint>, assignments: Assignments, driver: string)
    requires Listing(runtimes) && runtimes != [] && driver !in assignments
    ensures (var (k, loads) := (LeastLoaded(runtimes, assignments), Loads(runtimes, assignments));
             && Loads(runtimes, Assigned(runtimes, assignments, driver)) == loads[k := loads[k] + 1]
             && forall j :: 0 <= j < |loads| ==> loads[k] <= loads[j])
  {
    hide Count, Listing, Assigned;
    var k := LeastLoaded(runtimes, assignments);
    NewDriver(runtimes, assignments, driver);
    LoadsAfter(runtimes, assignments, driver, k);
    forall j | 0 <= j < |runtimes|
      ensures Count(assignments, runtimes[k].id) <= Count(assignments, runtimes[j].id)
    {
      assert NotAfter(assignments, runtimes[k], runtimes[j]);
    }
  }

  /** Driver counts within one of each other, every assigned runtime known, and the counts adding up to the drivers. */
  predicate Sound(runtimes: seq<Endpoint>, assignments: Assignments) {
    && Balanced(Loads(runtimes, assignments)) && AllKnown(runtimes, assignments)
    && T.Sum(Loads(runtimes, assignments), Itself()) == |assignments|
  }

  lemma EmptySound(runtimes: seq<Endpoint>)
    ensures Sound(runtimes, map[])
  {
    EmptyLoads(runtimes);
    assert forall n :: n in Loads(runtimes, map[]) ==> Itself()(n) == 0;
    T.SumZero<nat>(Loads(runtimes, map[]), Itself());
  }

  lemma BalancedGrows(loads: seq<nat>, k: nat)
    requires Balanced(loads) && k < |loads| && forall j :: 0 <= j < |loads| ==> loads[k] <= loads[j]
    ensures Balanced(loads[k := loads[k] + 1])
    ensures T.Sum(loads[k := loads[k] + 1], Itself()) == T.Sum(loads, Itself()) + 1
  {
    T.SumUpdate<nat>(loads, k, loads[k] + 1, Itself());
  }

  lemma NewDriverSound(runtimes: seq<Endpoint>, assignments: Assignments, driver: string)
    requires Listing(runtimes) && runtimes != [] && Sound(runtimes, assignments) && driver !in assignments
    ensures Sound(runtimes, Assigned(runtimes, assignments, driver))
  {
    hide LeastLoaded, Count, Balanced, Known;
    var k := LeastLoaded(runtimes, assignments);
    LoadsGrow(runtimes, assignments, driver);
    BalancedGrows(Loads(runtimes, assignments), k);
    KnownAt(runtimes, k);
  }

  lemma KnownAt(runtimes: seq<Endpoint>, k: nat)
    requires k < |runtimes|
    ensures Known(runtimes, runtimes[k].id)
  {
  }

  /** Any run of acquires keeps the registry sound. */
  lemma {:induction false} RunsStayBalanced(runtimes: seq<Endpoint>, drivers: seq<string>)
    requires Listing(runtimes) && runtimes != []
    ensures Sound(runtimes, After(runtimes, drivers))
  {
    hide Sound, Assigned, Listing;
    if drivers == [] {
      EmptySound(runtimes);
    } else {
      var front, last := drivers[..|drivers| - 1], drivers[|drivers| - 1];
      RunsStayBalanced(runtimes, front);
      if last !in After(runtimes, front) {
        NewDriverSound(runtimes, After(runtimes, front), last);
      } else {
        SoundIsKnown(runtimes, After(runtimes, front));
        FoundAgain(runtimes, After(runtimes, front), last);
      }
    }
  }

  lemma FoundAgain(runtimes: seq<Endpoint>, assignments: Assignments, driver: string)
    requires runtimes != [] && AllKnown(runtimes, assignments) && driver in assignments
    ensures Assigned(runtimes, assignments, driver) == assignments
  {
    hide LeastLoaded, Known;
  }

  lemma SoundIsKnown(runtimes: seq<Endpoint>, assignments: Assignments)
    requires Sound(runtimes, assignments)
    ensures AllKnown(runtimes, assignments)
  {
  }

  lemma AssignedKeys(runtimes: seq<Endpoint>, assignments: Assignments, driver: string)
    requires runtimes != [] && AllKnown(runtimes, assignments)
    ensures Assigned(runtimes, assignments, driver).Keys == assignments.Keys + {driver}
  {
    hide LeastLoaded, Find, Known;
  }

  /** After a run exactly its drivers are assigned. */
  lemma {:induction false} DriversAreAssigned(runtimes: seq<Endpoint>, drivers: seq<string>)
    requires Listing(runtimes) && runtimes != []
    ensures After(runtimes, drivers).Keys == set i | 0 <= i < |drivers| :: drivers[i]
  {
    hide Assigned, AllKnown, Sound;
    if drivers != [] {
      var front, last := drivers[..|drivers| - 1], drivers[|drivers| - 1];
      DriversAreAssigned(runtimes, front);
      RunsStayBalanced(runtimes, front);
      SoundIsKnown(runtimes, After(runtimes, front));
      AssignedKeys(runtimes, After(runtimes, front), last);
      assert (set i | 0 <= i < |drivers| :: drivers[i]) == (set i | 0 <= i < |front| :: front[i]) + {last};
    }
  }

  lemma SecondAcquire(runtimes: seq<Endpoint>, assignments: Assignments, driver: string)
    requires Listing(runtimes) && runtimes != [] && AllKnown(runtimes, assignments)
    ensures (var first := Acquire(runtimes, assignments, driver);
             var after := Assigned(runtimes, assignments, driver);
             first.Ok? && driver in after && Acquire(runtimes, after, driver) == first)
  {
    FoundAnywhere(runtimes);
    hide LeastLoaded, Known, Find;
  }

  lemma OthersKept(runtimes: seq<Endpoint>, assignments: Assignments, driver: string, other: string)
    requires runtimes != [] && AllKnown(runtimes, assignments) && driver in assignments
    ensures (var after := Assigned(runtimes, assignments, other);
             driver in after && Acquire(runtimes, after, driver) == Acquire(runtimes, assignments, driver))
  {
    hide LeastLoaded, Known;
  }

  /** A driver that asks again, whenever that is, gets the runtime it was given first. */
  lemma {:induction false} RepeatsAgree(runtimes: seq<Endpoint>, drivers: seq<string>, later: seq<string>,
                                        driver: string)
    requires Listing(runtimes) && runtimes != []
    ensures (var first := Acquire(runtimes, After(runtimes, drivers), driver);
             && first.Ok? && driver in After(runtimes, drivers + [driver] + later)
             && Acquire(runtimes, After(runtimes, drivers + [driver] + later), driver) == first)
    decreases |later|
  {
    hide Acquire, Assigned, Sound, Listing;
    var all := drivers + [driver] + later;
    if later == [] {
      assert all[..|drivers|] == drivers;
      RunsStayBalanced(runtimes, drivers);
      SoundIsKnown(runtimes, After(runtimes, drivers));
      SecondAcquire(runtimes, After(runtimes, drivers), driver);
    } else {
      var front, last := later[..|later| - 1], later[|later| - 1];
      assert all[..|all| - 1] == drivers + [driver] + front;
      RepeatsAgree(runtimes, drivers, front, driver);
      RunsStayBalanced(runtimes, drivers + [driver] + front);
      SoundIsKnown(runtimes, After(runtimes, drivers + [driver] + front));
      OthersKept(runtimes, After(runtimes, drivers + [driver] + front), driver, last);
    }
  }

  lemma FoundByName(runtimes: seq<Endpoint>, k: nat)
    requires Listing(runtimes) && k < |runtimes|
    ensures Known(runtimes, runtimes[k].id) && Find(runtimes, runtimes[k].id) == k
  {
  }

  lemma FoundAnywhere(runtimes: seq<Endpoint>)
    requires Listing(runtimes)
    ensures forall k: nat :: k < |runtimes| ==> Known(runtimes, runtimes[k].id) && Find(runtimes, runtimes[k].id) == k
  {
    forall k: nat | k < |runtimes|
      ensures Known(runtimes, runtimes[k].id) && Find(runtimes, runtimes[k].id) == k
    {
      FoundByName(runtimes, k);
    }
  }

  // ---------- round robin ----------

  predicate AllDistinct(drivers: seq<string>) {
    forall i, j :: 0 <= i < j < |drivers| ==> drivers[i] != drivers[j]
  }

  /** After `n` turns of a round robin. */
  predicate Dealt(loads: seq<nat>, n: nat)
    requires loads != []
  {
    forall k :: 0 <= k < |loads| ==> loads[k] == n / |loads| + if k < n % |loads| then 1 else 0
  }

  lemma NextTurn(n: nat, r: nat)
    requires r > 0
    ensures (n + 1) / r == n / r + (if n % r == r - 1 then 1 else 0)
    ensures (n + 1) % r == if n % r == r - 1 then 0 else n % r + 1
  {
    var q, m := n / r, n % r;
    assert n == r * q + m;
    if m == r - 1 {
      assert r * (q + 1) == r * q + r;
      QuotientIs(n + 1, r, q + 1);
    } else {
      QuotientIs(n + 1, r, q);
    }
  }

  lemma DealtOnce(loads: seq<nat>, n: nat)
    requires loads != [] && Dealt(loads, n)
    ensures (var k := n % |loads|; k < |loads| && Dealt(loads[k := loads[k] + 1], n + 1))
  {
    NextTurn(n, |loads|);
  }

  lemma DealtLeast(runtimes: seq<Endpoint>, assignments: Assignments, n: nat)
    requires Listing(runtimes) && runtimes != [] && Dealt(Loads(runtimes, assignments), n)
    ensures LeastLoaded(runtimes, assignments) == n % |runtimes|
  {
    hide Count;
    var k, loads := n % |runtimes|, Loads(runtimes, assignments);
    forall j | 0 <= j < |runtimes|
      ensures NotAfter(assignments, runtimes[k], runtimes[j])
    {
      assert loads[k] == Count(assignments, runtimes[k].id) && loads[j] == Count(assignments, runtimes[j].id);
    }
    LeastIsUnique(runtimes, assignments, k);
  }

  lemma {:induction false} LoadsAreDealt(runtimes: seq<Endpoint>, drivers: seq<string>)
    requires Listing(runtimes) && runtimes != [] && AllDistinct(drivers)
    ensures Dealt(Loads(runtimes, After(runtimes, drivers)), |drivers|)
  {
    hide Assigned, Listing, LeastLoaded, Count;
    if drivers == [] {
      EmptyLoads(runtimes);
    } else {
      var front, last := drivers[..|drivers| - 1], drivers[|drivers| - 1];
      LoadsAreDealt(runtimes, front);
      DealtLeast(runtimes, After(runtimes, front), |front|);
      DriversAreAssigned(runtimes, front);
      LoadsGrow(runtimes, After(runtimes, front), last);
      DealtOnce(Loads(runtimes, After(runtimes, front)), |front|);
    }
  }

  /** New drivers go round the runtimes in the order of their names. */
  lemma RoundRobin(runtimes: seq<Endpoint>, drivers: seq<string>, driver: string)
    requires Listing(runtimes) && runtimes != [] && AllDistinct(drivers + [driver])
    ensures Acquire(runtimes, After(runtimes, drivers), driver) == Ok(runtimes[|drivers| % |runtimes|])
  {
    assert AllDistinct(drivers) && driver !in drivers by {
      forall i | 0 <= i < |drivers|
        ensures drivers[i] != driver
      {
        assert (drivers + [driver])[i] != (drivers + [driver])[|drivers|];
      }
      forall i, j | 0 <= i < j < |drivers|
        ensures drivers[i] != drivers[j]
      {
        assert (drivers + [driver])[i] != (drivers + [driver])[j];
      }
    }
    LoadsAreDealt(runtimes, drivers);
    DealtLeast(runtimes, After(runtimes, drivers), |drivers|);
    DriversAreAssigned(runtimes, drivers);
    hide After, LeastLoaded, Listing;
  }

  // ---------- capacity ----------

  /** Replicas per runtime, rounded down and at least one. */
  function PerRuntime(rolloutReplicas: nat, runtimeCount: nat): (q: nat)
    requires runtimeCount > 0
    ensures q > 0
  {
    if rolloutReplicas / runtimeCount > 1 then rolloutReplicas / runtimeCount else 1
  }

  function RolloutWorkerCapacity(runtimeCapacity: nat, rolloutReplicas: nat, runtimeCount: nat): (r: Result<nat>)
    ensures r.Ok? <==> runtimeCount > 0
  {
    if runtimeCount == 0 then Err("integer division or modulo by zero")
    else Ok(Ceil(runtimeCapacity, PerRuntime(rolloutReplicas, runtimeCount)))
  }

  lemma {:induction false} SumAtMost(loads: seq<nat>, most: nat)
    requires forall k :: 0 <= k < |loads| ==> loads[k] <= most
    ensures T.Sum(loads, Itself()) <= |loads| * most
  {
    if loads != [] {
      SumAtMost(loads[1..], most);
      assert |loads| * most == |loads[1..]| * most + most;
    }
  }

  lemma {:induction false} SumAtLeast(loads: seq<nat>, least: nat)
    requires forall k :: 0 <= k < |loads| ==> loads[k] >= least
    ensures T.Sum(loads, Itself()) >= |loads| * least
  {
    if loads != [] {
      SumAtLeast(loads[1..], least);
      assert |loads| * least == |loads[1..]| * least + least;
    }
  }

  /** Balanced loads are the rounded-down or rounded-up average. */
  lemma BalancedLoads(loads: seq<nat>, k: nat)
    requires Balanced(loads) && k < |loads|
    ensures (var n := T.Sum(loads, Itself()); n / |loads| <= loads[k] <= Ceil(n, |loads|))
  {
    var n, r, x := T.Sum(loads, Itself()), |loads|, loads[k];
    SumAtMost(loads[k := x + 1], x + 1);
    T.SumUpdate<nat>(loads, k, x + 1, Itself());
    assert n + 1 <= r * (x + 1);
    QuotientAtMost(n, r, x);
    if x > 0 {
      SumAtLeast(loads[k := x - 1], x - 1);
      T.SumUpdate<nat>(loads, k, x - 1, Itself());
      assert n - 1 >= r * (x - 1);
      CeilAtLeast(n, r, x);
    }
  }

  lemma QuotientAtMost(n: nat, r: nat, x: nat)
    requires r > 0 && n + 1 <= r * (x + 1)
    ensures n / r <= x
  {
    var q := n / r;
    if q > x {
      TimesMonotone(r, x + 1, q);
    }
  }

  lemma CeilAtLeast(n: nat, r: nat, x: nat)
    requires r > 0 && x > 0 && n >= 1 && n - 1 >= r * (x - 1)
    ensures Ceil(n, r) >= x
  {
    var m := n + r - 1;
    var q := m / r;
    assert r * (x - 1) + r == r * x;
    if q < x {
      TimesMonotone(r, q + 1, x);
    }
  }

  /** What all workers on runtime `k` may run together, once `drivers` have all acquired. */
  function Concurrency(runtimes: seq<Endpoint>, drivers: seq<string>, k: nat): nat
    requires k < |runtimes|
  {
    var assignments := After(runtimes, drivers);
    Loads(runtimes, assignments)[k] * RolloutWorkerCapacity(runtimes[k].capacity, |assignments|, |runtimes|).value
  }

  /** With at least as many drivers as runtimes, the workers on a runtime cover its capacity; they exceed it by less
      than one driver's rounding when the drivers divide evenly, and otherwise by at most one worker more than the
      share. */
  lemma CapacityCovered(runtimes: seq<Endpoint>, drivers: seq<string>, k: nat)
    requires Listing(runtimes) && k < |runtimes|
    ensures (var (n, r, c) := (|After(runtimes, drivers)|, |runtimes|, runtimes[k].capacity);
             var q := PerRuntime(n, r);
             && (n >= r ==> Concurrency(runtimes, drivers, k) >= c)
             && Concurrency(runtimes, drivers, k) <= Ceil(n, r) * Ceil(c, q)
             && (n >= r && n % r == 0 ==> Concurrency(runtimes, drivers, k) <= c + q - 1)
             && (n < r ==> Concurrency(runtimes, drivers, k) <= c))
  {
    RunsStayBalanced(runtimes, drivers);
    var loads := Loads(runtimes, After(runtimes, drivers));
    BalancedLoads(loads, k);
    hide After, Ceil;
    CapacityArithmetic(|After(runtimes, drivers)|, |runtimes|, runtimes[k].capacity, loads[k]);
  }

  lemma CapacityArithmetic(n: nat, r: nat, c: nat, load: nat)
    requires r > 0 && n / r <= load <= Ceil(n, r)
    ensures (var q := PerRuntime(n, r);
             && (n >= r ==> load * Ceil(c, q) >= c)
             && load * Ceil(c, q) <= Ceil(n, r) * Ceil(c, q)
             && (n >= r && n % r == 0 ==> load * Ceil(c, q) <= c + q - 1)
             && (n < r ==> load * Ceil(c, q) <= c))
  {
    hide Ceil;
    var q := PerRuntime(n, r);
    CeilBounds(c, q);
    TimesMonotone(Ceil(c, q), load, Ceil(n, r));
    if n >= r {
      QuotientPositive(n, r);
      TimesMonotone(Ceil(c, q), q, load);
      if n % r == 0 {
        CeilExact(n, r);
      }
    } else {
      CeilSmall(n, r);
      CeilOne(c);
      TimesMonotone(c, load, 1);
    }
  }

  lemma QuotientPositive(n: nat, r: nat)
    requires r > 0 && n >= r
    ensures n / r >= 1
  {
  }

  lemma CeilExact(n: nat, r: nat)
    requires r > 0 && n % r == 0
    ensures Ceil(n, r) == n / r
  {
    var m := n / r;
    assert n == r * m;
    assert (n + r - 1) / r == m by {
      QuotientIs(n + r - 1, r, m);
    }
  }

  lemma CeilSmall(n: nat, r: nat)
    requires 0 < r && n < r
    ensures Ceil(n, r) <= 1 && n / r == 0
  {
    QuotientIs(n, r, 0);
    QuotientIs(n + r - 1, r, if n == 0 then 0 else 1);
  }

  lemma CeilOne(c: nat)
    ensures Ceil(c, 1) == c
  {
  }

  // ---------- the registry as a whole ----------

  datatype Operation = Publish(endpoint: Endpoint) | AcquireFor(driver: string) | Reset

  datatype Registry = Registry(runtimes: seq<Endpoint>, assignments: Assignments)

  /** Any way of filing a new runtime keeps the old ones. */
  ghost predicate Performs(before: Registry, op: Operation, after: Registry) {
    match op
    case Publish(endpoint) =>
      && after.assignments == before.assignments && Listing(after.runtimes)
      && (if Known(before.runtimes, endpoint.id) then after.runtimes == before.runtimes
          else forall e :: e in after.runtimes <==> e in before.runtimes || e == endpoint)
    case AcquireFor(driver) =>
      after.runtimes == before.runtimes && after.assignments == Assigned(before.runtimes, before.assignments, driver)
    case Reset => after == Registry([], map[])
  }

  lemma PerformsKeepsKnown(before: Registry, op: Operation, after: Registry)
    requires Performs(before, op, after) && AllKnown(before.runtimes, before.assignments)
    ensures AllKnown(after.runtimes, after.assignments)
  {
    if op.Publish? {
      forall d | d in after.assignments
        ensures Known(after.runtimes, after.assignments[d])
      {
        var k :| 0 <= k < |before.runtimes| && before.runtimes[k].id == after.assignments[d];
        assert before.runtimes[k] in after.runtimes;
      }
    }
  }

  /** The registries between the operations of a history that begins with an empty directory. */
  ghost predicate History(ops: seq<Operation>, states: seq<Registry>) {
    && |states| == |ops| + 1 && states[0] == Registry([], map[])
    && forall i :: 0 <= i < |ops| ==> Performs(states[i], ops[i], states[i + 1])
  }

  lemma {:induction false} HistoryKnown(ops: seq<Operation>, states: seq<Registry>, i: nat)
    requires History(ops, states) && i < |states|
    ensures AllKnown(states[i].runtimes, states[i].assignments)
  {
    if i > 0 {
      HistoryKnown(ops, states, i - 1);
      assert Performs(states[i - 1], ops[i - 1], states[i]);
      PerformsKeepsKnown(states[i - 1], ops[i - 1], states[i]);
    }
  }

  /** Resetting drops assignments with the runtimes, so in no history is a driver found on an unknown runtime:
      acquiring fails only while nothing is published. */
  lemma NeverUnknown(ops: seq<Operation>, states: seq<Registry>, i: nat, driver: string)
    requires History(ops, states) && i < |states|
    ensures AllKnown(states[i].runtimes, states[i].assignments)
    ensures Acquire(states[i].runtimes, states[i].assignments, driver).Err? <==> states[i].runtimes == []
  {
    HistoryKnown(ops, states, i);
  }
}
