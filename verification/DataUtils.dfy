/** Orderings of per-image tensors: camera-major, by time, and tick-major, where two stable argsorts are composed after
    tick numbers have been scattered through the time order. */
module DataUtils {
  import opened Quotients
  import opened Sorting
  import opened Wrappers

  /** A tensor with a leading dimension, or anything else an image dictionary may hold. */
  datatype Value = Rows(rows: seq<int>) | Other(content: int)

  type ImageData = map<string, Value>

  predicate PerImage(value: Value, n: nat) {
    value.Rows? && |value.rows| == n
  }

  /** `after` is `before` with every per-image tensor permuted and everything else as it was. */
  ghost predicate IsReordering(before: ImageData, permutation: seq<nat>, after: ImageData)
    requires IsPermutation(permutation)
  {
    && after.Keys == before.Keys
    && forall key :: key in before.Keys ==>
                       after[key] == if PerImage(before[key], |permutation|)
                                     then Rows(Gather(before[key].rows, permutation)) else before[key]
  }

  method ReorderImageData(imageData: ImageData, permutation: seq<nat>) returns (result: ImageData)
    requires IsPermutation(permutation)
    ensures IsReordering(imageData, permutation, result)
  {
    result := map[];
    var keys := imageData.Keys;
    while keys != {}
      invariant keys <= imageData.Keys && result.Keys == imageData.Keys - keys
      invariant forall key :: key in result.Keys ==>
                                result[key] == if PerImage(imageData[key], |permutation|)
                                               then Rows(Gather(imageData[key].rows, permutation)) else imageData[key]
      decreases |keys|
    {
      var key :| key in keys;
      keys := keys - {key};
      var value := imageData[key];
      if value.Rows? && |value.rows| == |permutation| {
        result := result[key := Rows(Gather(value.rows, permutation))];
      } else {
        result := result[key := value];
      }
    }
  }

  const CAMERAS := "camera_indices"
  const TIMES := "absolute_timestamps"

  predicate HasRows(imageData: ImageData, key: string) {
    key in imageData && imageData[key].Rows?
  }

  method SortImagesByCameraIds(imageData: ImageData) returns (r: Result<ImageData>)
    ensures r.Ok? <==> HasRows(imageData, CAMERAS)
    ensures r.Ok? ==> IsReordering(imageData, StableArgsort(imageData[CAMERAS].rows), r.value)
  {
    if !HasRows(imageData, CAMERAS) {
      return Err("camera_indices must be a tensor");
    }
    var sorted := ReorderImageData(imageData, StableArgsort(imageData[CAMERAS].rows));
    r := Ok(sorted);
  }

  function Unique(cam: seq<int>): (cameras: set<int>)
    ensures forall x :: x in cameras <==> x in cam
    ensures |cameras| > 0 <==> cam != []
  {
    var cameras := set i | 0 <= i < |cam| :: cam[i];
    assert cam != [] ==> cam[0] in cameras;
    cameras
  }

  /** Position in time order, cut into ticks of `nCams`. */
  ghost predicate IsTickIndex(order: seq<nat>, nCams: nat, tick: seq<int>)
    requires nCams > 0
  {
    |tick| == |order| && InRange(order, |order|) && forall j :: 0 <= j < |order| ==> tick[order[j]] == j / nCams
  }

  method ScatterTicks(order: seq<nat>, nCams: nat) returns (tick: seq<int>)
    requires IsPermutation(order) && nCams > 0
    ensures IsTickIndex(order, nCams, tick)
  {
    var tickIdx := new int[|order|];
    for j := 0 to |order|
      invariant forall l :: 0 <= l < j ==> tickIdx[order[l]] == l / nCams
    {
      tickIdx[order[j]] := j / nCams;
    }
    tick := tickIdx[..];
  }

  /** By tick, then camera, then position in the input. */
  function ByTickAndCamera(tick: seq<int>, cam: seq<int>): (nat, nat) -> bool {
    (a: nat, b: nat) => a < |tick| == |cam| && b < |cam| &&
      (tick[a] < tick[b] || (tick[a] == tick[b] && (cam[a] < cam[b] || (cam[a] == cam[b] && a < b))))
  }

  function Ticks(ts: seq<int>, nCams: nat): (tick: seq<int>)
    requires nCams > 0
    ensures IsTickIndex(StableArgsort(ts), nCams, tick)
  {
    var order := StableArgsort(ts);
    TickPositions(order);
    seq(|ts|, i requires 0 <= i < |ts| => Position(order, i) / nCams)
  }

  function Position(order: seq<nat>, x: nat): (j: nat)
    requires IsPermutation(order) && x < |order|
    ensures j < |order| && order[j] == x
  {
    PositionExists(order, x);
    var j: nat :| j < |order| && order[j] == x;
    j
  }

  lemma PositionExists(order: seq<nat>, x: nat)
    requires IsPermutation(order) && x < |order|
    ensures exists j: nat :: j < |order| && order[j] == x
  {
    var j := PermutationIsOnto(order, x);
  }

  lemma TickPositions(order: seq<nat>)
    requires IsPermutation(order)
    ensures forall j :: 0 <= j < |order| ==> Position(order, order[j]) == j
  {
  }

  /** The tick-major permutation: a stable sort by camera followed by a stable sort by tick. */
  function TickMajor(tick: seq<int>, cam: seq<int>): (p: seq<nat>)
    requires |tick| == |cam|
    ensures IsPermutation(p) && |p| == |cam|
  {
    var secondary := StableArgsort(cam);
    var primary := StableArgsort(Gather(tick, secondary));
    Gather(secondary, primary)
  }

  method SortImagesByTimetickCamera(imageData: ImageData) returns (r: Result<ImageData>)
    ensures r.Ok? <==>
              && HasRows(imageData, TIMES) && HasRows(imageData, CAMERAS)
              && |imageData[TIMES].rows| == |imageData[CAMERAS].rows| > 0
              && |imageData[CAMERAS].rows| % |Unique(imageData[CAMERAS].rows)| == 0
    ensures r.Ok? ==> |Unique(imageData[CAMERAS].rows)| > 0
    ensures (r.Ok? ==>
               var ts, cam := imageData[TIMES].rows, imageData[CAMERAS].rows;
               IsReordering(imageData, TickMajor(Ticks(ts, |Unique(cam)|), cam), r.value))
  {
    if !HasRows(imageData, TIMES) || !HasRows(imageData, CAMERAS) {
      return Err("absolute_timestamps and camera_indices must be tensors");
    }
    var ts, cam := imageData[TIMES].rows, imageData[CAMERAS].rows;
    if |ts| != |cam| {
      return Err("absolute_timestamps and camera_indices must have the same length for tick-major sort");
    }
    var n, nCams := |ts|, |Unique(cam)|;
    if nCams == 0 {
      return Err("integer modulo by zero");
    }
    if n % nCams != 0 {
      return Err("image count is not divisible by unique camera count");
    }
    var order := StableArgsort(ts);
    var tick := ScatterTicks(order, nCams);
    TickIndexUnique(order, nCams, tick, Ticks(ts, nCams));
    var secondary := StableArgsort(cam);
    var primary := StableArgsort(Gather(tick, secondary));
    var sorted := ReorderImageData(imageData, Gather(secondary, primary));
    r := Ok(sorted);
  }

  lemma TickIndexUnique(order: seq<nat>, nCams: nat, tick: seq<int>, other: seq<int>)
    requires nCams > 0 && IsPermutation(order)
    requires IsTickIndex(order, nCams, tick) && IsTickIndex(order, nCams, other)
    ensures tick == other
  {
    forall i | 0 <= i < |tick|
      ensures tick[i] == other[i]
    {
      var j := PermutationIsOnto(order, i);
    }
  }

  // ---------- what the permutation is ----------

  /** The composed permutation is the one sorted by tick, camera and input position, and no other is. */
  lemma TickMajorIsLexicographic(tick: seq<int>, cam: seq<int>, p: seq<nat>)
    requires |tick| == |cam|
    ensures p == TickMajor(tick, cam) <==>
              IsPermutation(p) && |p| == |cam| && SortedBy(p, ByTickAndCamera(tick, cam))
  {
    var q := TickMajor(tick, cam);
    var secondary := StableArgsort(cam);
    var keys := Gather(tick, secondary);
    var primary := StableArgsort(keys);
    var less := ByTickAndCamera(tick, cam);
    forall i, j | 0 <= i < j < |q|
      ensures less(q[i], q[j])
    {
      assert ByKey(keys)(primary[i], primary[j]);
      if primary[i] < primary[j] {
        assert ByKey(cam)(secondary[primary[i]], secondary[primary[j]]);
      }
    }
    if IsPermutation(p) && |p| == |cam| && SortedBy(p, less) {
      SortedPermutationUnique(p, q, less);
    }
  }

  lemma ElementsOfPrefix(p: seq<nat>, n: nat)
    requires Distinct(p) && n <= |p|
    ensures |Elements(p[..n])| == n
    ensures forall x :: x in Elements(p[..n]) <==> exists i :: 0 <= i < n && p[i] == x
  {
    DistinctElements(p[..n]);
    assert forall i :: 0 <= i < n ==> p[..n][i] == p[i];
    assert forall i :: 0 <= i < n ==> p[i] in Elements(p[..n]);
  }

  ghost predicate Nondecreasing(keys: seq<int>) {
    forall i, j :: 0 <= i < j < |keys| ==> keys[i] <= keys[j]
  }

  /** Sorting the same keys two ways puts equal keys at equal places. */
  lemma SortedKeysAtMost(keys: seq<int>, p: seq<nat>, q: seq<nat>, i: nat)
    requires |p| == |q| == |keys| && IsPermutation(p) && IsPermutation(q)
    requires Nondecreasing(Gather(keys, p)) && Nondecreasing(Gather(keys, q)) && i < |keys|
    ensures keys[p[i]] >= keys[q[i]]
  {
    var a, b := Gather(keys, p), Gather(keys, q);
    if a[i] < b[i] {
      ElementsOfPrefix(p, i + 1);
      ElementsOfPrefix(q, i);
      forall x | x in Elements(p[..i + 1])
        ensures x in Elements(q[..i])
      {
        var k :| 0 <= k < i + 1 && p[k] == x;
        assert k == i || a[k] <= a[i];
        var l := PermutationIsOnto(q, x);
        assert b[l] == keys[x] == a[k] < b[i];
        assert !(i < l);
        assert l != i;
      }
      SubsetIsSmaller(Elements(p[..i + 1]), Elements(q[..i]));
    }
  }

  /** The j-th block of `nCams` images of the tick-major order is exactly tick j. */
  lemma BlocksAreTicks(ts: seq<int>, cam: seq<int>, nCams: nat, i: nat)
    requires |ts| == |cam| && nCams > 0 && i < |cam|
    ensures Ticks(ts, nCams)[TickMajor(Ticks(ts, nCams), cam)[i]] == i / nCams
  {
    var tick, order := Ticks(ts, nCams), StableArgsort(ts);
    var p := TickMajor(tick, cam);
    TickMajorIsLexicographic(tick, cam, p);
    var less := ByTickAndCamera(tick, cam);
    forall a, b | 0 <= a < b < |p|
      ensures Gather(tick, p)[a] <= Gather(tick, p)[b]
    {
      assert less(p[a], p[b]);
    }
    DivisionMonotone(nCams);
    assert Nondecreasing(Gather(tick, order));
    SortedKeysAtMost(tick, p, order, i);
    SortedKeysAtMost(tick, order, p, i);
  }

  lemma DivisionMonotone(d: nat)
    requires d > 0
    ensures forall a: int, b: int :: a <= b ==> a / d <= b / d
  {
    forall a: int, b: int | a <= b
      ensures a / d <= b / d
    {
      QuotientMonotone(a, b, d);
    }
  }

  // ---------- jitter ----------

  function Members(tick: seq<int>, t: int): set<int> {
    set i | 0 <= i < |tick| && tick[i] == t
  }

  function Earlier(tick: seq<int>, t: int): set<int> {
    set i | 0 <= i < |tick| && tick[i] < t
  }

  /** `tick` numbers the images from zero with `nCams` images to every tick. */
  ghost predicate IsTickAssignment(tick: seq<int>, nCams: nat)
    requires nCams > 0
  {
    && (forall i :: 0 <= i < |tick| ==> 0 <= tick[i] < |tick| / nCams)
    && forall t :: 0 <= t < |tick| / nCams ==> |Members(tick, t)| == nCams
  }

  /** However much each time is off, images of an earlier tick are earlier, or as early and ahead in the input. */
  ghost predicate WithinJitter(ts: seq<int>, tick: seq<int>) {
    |ts| == |tick| &&
    forall a: nat, b: nat :: a < |ts| && b < |ts| && tick[a] < tick[b] ==> ByKey(ts)(a, b)
  }

  lemma {:induction false} CountEarlier(tick: seq<int>, nCams: nat, t: nat)
    requires nCams > 0 && IsTickAssignment(tick, nCams) && t <= |tick| / nCams
    ensures |Earlier(tick, t)| == t * nCams
  {
    if t == 0 {
      assert Earlier(tick, 0) == {};
    } else {
      CountEarlier(tick, nCams, t - 1);
      assert Earlier(tick, t) == Earlier(tick, t - 1) + Members(tick, t - 1);
      assert Earlier(tick, t - 1) !! Members(tick, t - 1);
      assert (t - 1) * nCams + nCams == t * nCams;
    }
  }

  lemma EarlierTicksComeFirst(ts: seq<int>, tick: seq<int>, j: nat)
    requires WithinJitter(ts, tick) && j < |ts|
    ensures |Earlier(tick, tick[StableArgsort(ts)[j]])| <= j
  {
    var order := StableArgsort(ts);
    var t := tick[order[j]];
    ElementsOfPrefix(order, j);
    forall x | x in Earlier(tick, t)
      ensures x in Elements(order[..j])
    {
      var k := PermutationIsOnto(order, x);
      assert ByKey(ts)(x, order[j]);
      assert !ByKey(ts)(order[j], order[k]);
    }
    SubsetIsSmaller(Earlier(tick, t), Elements(order[..j]));
  }

  lemma LaterTicksComeLast(ts: seq<int>, tick: seq<int>, j: nat)
    requires WithinJitter(ts, tick) && j < |ts|
    ensures j + 1 <= |Earlier(tick, tick[StableArgsort(ts)[j]] + 1)|
  {
    var order := StableArgsort(ts);
    var next := Earlier(tick, tick[order[j]] + 1);
    ElementsOfPrefix(order, j + 1);
    var seen := Elements(order[..j + 1]);
    forall x | x in seen
      ensures x in next
    {
      var k :| 0 <= k < j + 1 && order[k] == x;
      assert k == j || ByKey(ts)(order[k], order[j]);
    }
    SubsetIsSmaller(seen, next);
  }

  /** In time order the ticks come in blocks. */
  lemma TimeOrderBlocks(ts: seq<int>, tick: seq<int>, nCams: nat, j: nat)
    requires nCams > 0 && IsTickAssignment(tick, nCams) && WithinJitter(ts, tick) && j < |ts|
    ensures tick[StableArgsort(ts)[j]] == j / nCams
  {
    var t := tick[StableArgsort(ts)[j]];
    CountEarlier(tick, nCams, t);
    CountEarlier(tick, nCams, t + 1);
    EarlierTicksComeFirst(ts, tick, j);
    LaterTicksComeLast(ts, tick, j);
    QuotientIs(j, nCams, t);
  }

  /** Ticks are recovered exactly when the jitter leaves earlier ticks ahead of later ones. */
  lemma TicksRecoveredIff(ts: seq<int>, tick: seq<int>, nCams: nat)
    requires nCams > 0 && IsTickAssignment(tick, nCams) && |tick| == |ts|
    ensures Ticks(ts, nCams) == tick <==> WithinJitter(ts, tick)
  {
    var order := StableArgsort(ts);
    if WithinJitter(ts, tick) {
      forall j | 0 <= j < |ts|
        ensures tick[order[j]] == j / nCams
      {
        TimeOrderBlocks(ts, tick, nCams, j);
      }
      TickIndexUnique(order, nCams, Ticks(ts, nCams), tick);
    }
    if Ticks(ts, nCams) == tick {
      forall a: nat, b: nat | a < |ts| && b < |ts| && tick[a] < tick[b]
        ensures ByKey(ts)(a, b)
      {
        var i := PermutationIsOnto(order, a);
        var j := PermutationIsOnto(order, b);
        if j <= i {
          QuotientMonotone(j, i, nCams);
        }
        assert ByKey(ts)(order[i], order[j]);
      }
    }
  }

  /** So any two sets of times with the same ticks, whatever their jitter, give the same tick-major permutation. */
  lemma JitterInvariant(ts: seq<int>, others: seq<int>, tick: seq<int>, cam: seq<int>, nCams: nat)
    requires nCams > 0 && IsTickAssignment(tick, nCams) && |cam| == |ts|
    requires WithinJitter(ts, tick) && WithinJitter(others, tick)
    ensures TickMajor(Ticks(ts, nCams), cam) == TickMajor(Ticks(others, nCams), cam)
  {
    TicksRecoveredIff(ts, tick, nCams);
    TicksRecoveredIff(others, tick, nCams);
  }

  // ---------- cameras within a tick ----------

  /** No tick shows a camera twice. */
  ghost predicate OneImagePerCamera(tick: seq<int>, cam: seq<int>)
    requires |tick| == |cam|
  {
    forall a, b :: 0 <= a < b < |cam| && tick[a] == tick[b] ==> cam[a] != cam[b]
  }

  predicate Ascending(s: seq<int>) {
    forall i, j :: 0 <= i < j < |s| ==> s[i] < s[j]
  }

  lemma AscendingElements(s: seq<int>, whole: set<int>)
    requires Ascending(s) && |s| == |whole| && forall i :: 0 <= i < |s| ==> s[i] in whole
    ensures forall x :: x in whole ==> x in s
  {
    AscendingCount(s);
    SameSizeSubset(set i | 0 <= i < |s| :: s[i], whole);
  }

  lemma {:induction false} AscendingCount(s: seq<int>)
    requires Ascending(s)
    ensures |set i | 0 <= i < |s| :: s[i]| == |s|
  {
    if s != [] {
      var front, last := s[..|s| - 1], s[|s| - 1];
      AscendingCount(front);
      assert (set i | 0 <= i < |s| :: s[i]) == (set i | 0 <= i < |front| :: front[i]) + {last};
    }
  }

  /** Two ascending listings of one set are the same listing. */
  lemma {:induction false} AscendingUnique(s: seq<int>, t: seq<int>, i: nat)
    requires Ascending(s) && Ascending(t) && |s| == |t| && i < |s|
    requires forall x :: x in s <==> x in t
    ensures s[i] == t[i]
    decreases i
  {
    forall k | 0 <= k < i
      ensures s[k] == t[k]
    {
      AscendingUnique(s, t, k);
    }
    assert s[i] in t && t[i] in s;
    var k :| 0 <= k < |t| && t[k] == s[i];
    var l :| 0 <= l < |s| && s[l] == t[i];
    assert k >= i && l >= i;
  }

  /** Where the c-th image of tick t stands in the tick-major order. */
  function Slot(t: nat, nCams: nat, c: nat): nat {
    t * nCams + c
  }

  /** Every tick shows the cameras in the same, ascending order. */
  lemma TicksShowSameCameras(ts: seq<int>, cam: seq<int>, t: nat, u: nat, c: nat)
    requires |ts| == |cam| && cam != [] && |cam| % |Unique(cam)| == 0
    requires OneImagePerCamera(Ticks(ts, |Unique(cam)|), cam)
    requires c < |Unique(cam)| && t < |cam| / |Unique(cam)| && u < |cam| / |Unique(cam)|
    ensures Slot(t, |Unique(cam)|, c) < |cam| && Slot(u, |Unique(cam)|, c) < |cam|
    ensures (var p := TickMajor(Ticks(ts, |Unique(cam)|), cam);
             cam[p[Slot(t, |Unique(cam)|, c)]] == cam[p[Slot(u, |Unique(cam)|, c)]])
  {
    hide Slot, TickMajor, Ticks;
    var a := BlockCameras(ts, cam, t);
    var b := BlockCameras(ts, cam, u);
    AscendingElements(a, Unique(cam));
    AscendingElements(b, Unique(cam));
    AscendingUnique(a, b, c);
  }

  lemma BlockInBounds(n: nat, d: nat, t: nat, c: nat)
    requires d > 0 && n % d == 0 && t < n / d && c < d
    ensures Slot(t, d, c) < n && Slot(t, d, c) / d == t
  {
    assert n == d * (n / d);
    assert d * (t + 1) <= d * (n / d);
    assert t * d <= t * d + c < (t + 1) * d;
    QuotientIs(t * d + c, d, t);
  }

  lemma BlockAscends(tick: seq<int>, cam: seq<int>, i: nat, j: nat)
    requires |tick| == |cam| && OneImagePerCamera(tick, cam) && i < j < |cam|
    requires tick[TickMajor(tick, cam)[i]] == tick[TickMajor(tick, cam)[j]]
    ensures cam[TickMajor(tick, cam)[i]] < cam[TickMajor(tick, cam)[j]]
  {
    var p := TickMajor(tick, cam);
    TickMajorIsLexicographic(tick, cam, p);
    var less := ByTickAndCamera(tick, cam);
    assert less(p[i], p[j]);
  }

  lemma BlockCameras(ts: seq<int>, cam: seq<int>, t: nat) returns (cameras: seq<int>)
    requires |ts| == |cam| && cam != [] && |cam| % |Unique(cam)| == 0
    requires OneImagePerCamera(Ticks(ts, |Unique(cam)|), cam) && t < |cam| / |Unique(cam)|
    ensures |cameras| == |Unique(cam)| && Ascending(cameras)
    ensures forall c :: 0 <= c < |cameras| ==>
                          && Slot(t, |Unique(cam)|, c) < |cam| && cameras[c] in Unique(cam)
                          && cameras[c] == cam[TickMajor(Ticks(ts, |Unique(cam)|), cam)[Slot(t, |Unique(cam)|, c)]]
  {
    hide TickMajor, Ticks, OneImagePerCamera;
    var n := |Unique(cam)|;
    var tick := Ticks(ts, n);
    var p := TickMajor(tick, cam);
    forall c: nat | c < n
      ensures Slot(t, n, c) < |cam| && tick[p[Slot(t, n, c)]] == t
    {
      BlockInBounds(|cam|, n, t, c);
      BlocksAreTicks(ts, cam, n, Slot(t, n, c));
    }
    cameras := seq(n, c requires 0 <= c < n => cam[p[Slot(t, n, c)]]);
    forall c, d | 0 <= c < d < n
      ensures cameras[c] < cameras[d]
    {
      BlockAscends(tick, cam, Slot(t, n, c), Slot(t, n, d));
    }
  }

  // ---------- the sorted columns ----------

  lemma ReorderedColumn(before: ImageData, p: seq<nat>, after: ImageData, key: string)
    requires IsPermutation(p) && IsReordering(before, p, after) && HasRows(before, key)
    ensures HasRows(after, key)
    ensures (var (rows, sorted) := (before[key].rows, after[key].rows);
             && multiset(sorted) == multiset(rows)
             && (|rows| == |p| ==> sorted == Gather(rows, p)) && (|rows| != |p| ==> sorted == rows))
  {
    if |before[key].rows| == |p| {
      PermutedElements(before[key].rows, p);
    }
  }

  /** Sorted by camera, the camera column ascends, images of one camera keep their order, every column still has its
      rows and a row's entries stay together. */
  lemma CameraMajorColumns(before: ImageData, after: ImageData, key: string)
    requires HasRows(before, CAMERAS) && IsReordering(before, StableArgsort(before[CAMERAS].rows), after)
    requires HasRows(before, key) && |before[key].rows| == |before[CAMERAS].rows|
    ensures HasRows(after, CAMERAS) && HasRows(after, key)
    ensures Nondecreasing(after[CAMERAS].rows)
    ensures |after[key].rows| == |before[key].rows| && multiset(after[key].rows) == multiset(before[key].rows)
    ensures exists p: seq<nat> ::
              && |p| == |before[key].rows| && IsPermutation(p)
              && after[CAMERAS].rows == Gather(before[CAMERAS].rows, p)
              && after[key].rows == Gather(before[key].rows, p)
              && forall i, j :: 0 <= i < j < |p| && after[CAMERAS].rows[i] == after[CAMERAS].rows[j] ==> p[i] < p[j]
  {
    var cam := before[CAMERAS].rows;
    var p := StableArgsort(cam);
    ReorderedColumn(before, p, after, CAMERAS);
    ReorderedColumn(before, p, after, key);
    forall i, j | 0 <= i < j < |p|
      ensures after[CAMERAS].rows[i] <= after[CAMERAS].rows[j]
      ensures after[CAMERAS].rows[i] == after[CAMERAS].rows[j] ==> p[i] < p[j]
    {
      assert ByKey(cam)(p[i], p[j]);
    }
  }

  /** In the tick-major result the cameras of each tick ascend, and each column still has its rows. */
  lemma TickMajorColumns(before: ImageData, after: ImageData, tick: seq<int>, key: string)
    requires HasRows(before, CAMERAS) && |tick| == |before[CAMERAS].rows|
    requires IsReordering(before, TickMajor(tick, before[CAMERAS].rows), after)
    requires HasRows(before, key) && |before[key].rows| == |before[CAMERAS].rows|
    ensures HasRows(after, CAMERAS) && HasRows(after, key)
    ensures multiset(after[key].rows) == multiset(before[key].rows)
    ensures exists p: seq<nat> ::
              && |p| == |tick| && IsPermutation(p) && after[CAMERAS].rows == Gather(before[CAMERAS].rows, p)
              && after[key].rows == Gather(before[key].rows, p) && Nondecreasing(Gather(tick, p))
              && forall i, j :: 0 <= i < j < |p| && tick[p[i]] == tick[p[j]] ==>
                                  after[CAMERAS].rows[i] <= after[CAMERAS].rows[j]
  {
    var cam := before[CAMERAS].rows;
    var p := TickMajor(tick, cam);
    TickMajorIsLexicographic(tick, cam, p);
    ReorderedColumn(before, p, after, CAMERAS);
    ReorderedColumn(before, p, after, key);
    forall i, j | 0 <= i < j < |p|
      ensures tick[p[i]] <= tick[p[j]]
      ensures tick[p[i]] == tick[p[j]] ==> after[CAMERAS].rows[i] <= after[CAMERAS].rows[j]
    {
      assert ByTickAndCamera(tick, cam)(p[i], p[j]);
    }
  }
}
