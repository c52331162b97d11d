/**
 * The rescale algorithm of the scene loader, on values.
 *
 * A rescale takes the union of the objects' original extents, the largest
 * center coordinate (signed) when there is more than one object, and derives
 * `factor = size / (maxLength + maxLocation)`. A factor strictly between 0.5
 * and 1.5 leaves the scene alone; otherwise every object's original scale and
 * location are multiplied by it. Originals are cached per object the first
 * time the object takes part in a rescale, which makes repeated rescales
 * stable. `Scene.SceneLoader.Rescale` runs the loops and is proved to agree
 * with the functions here.
 */
module Rescaling {
  import opened Geometry

  /** The open band of factors for which a rescale does nothing. */
  const BandLow: real := 0.5
  const BandHigh: real := 1.5

  /**
   * The running extremes of the rescale loop: the smallest left, bottom and
   * far, the largest right, top and near, and the largest center coordinates.
   */
  datatype Box = Box(
    left: real, top: real, near: real,
    right: real, bottom: real, far: real,
    maxCenter: Vec3)

  function Seed(d: Dimensions): Box
  {
    Box(d.left, d.top, d.near, d.right, d.bottom, d.far, d.center)
  }

  /** One iteration of the extremes loop, in the order the source compares. */
  function Merge(b: Box, d: Dimensions): Box
  {
    Box(
      left := if d.left < b.left then d.left else b.left,
      top := if d.top > b.top then d.top else b.top,
      near := if d.near > b.near then d.near else b.near,
      right := if d.right > b.right then d.right else b.right,
      bottom := if d.bottom < b.bottom then d.bottom else b.bottom,
      far := if d.far < b.far then d.far else b.far,
      maxCenter := Vec3(
        if b.maxCenter.x < d.center.x then d.center.x else b.maxCenter.x,
        if b.maxCenter.y < d.center.y then d.center.y else b.maxCenter.y,
        if b.maxCenter.z < d.center.z then d.center.z else b.maxCenter.z))
  }

  /** `b` contains the extents of `d` and dominates its center. */
  predicate Encloses(b: Box, d: Dimensions)
  {
    && b.left <= d.left && d.right <= b.right
    && b.bottom <= d.bottom && d.top <= b.top
    && b.far <= d.far && d.near <= b.near
    && d.center.x <= b.maxCenter.x && d.center.y <= b.maxCenter.y && d.center.z <= b.maxCenter.z
  }

  /** Every bound of `b` is the bound of one of `ds`. */
  predicate Attained(b: Box, ds: seq<Dimensions>)
  {
    && (exists i :: 0 <= i < |ds| && b.left == ds[i].left)
    && (exists i :: 0 <= i < |ds| && b.right == ds[i].right)
    && (exists i :: 0 <= i < |ds| && b.top == ds[i].top)
    && (exists i :: 0 <= i < |ds| && b.bottom == ds[i].bottom)
    && (exists i :: 0 <= i < |ds| && b.near == ds[i].near)
    && (exists i :: 0 <= i < |ds| && b.far == ds[i].far)
    && (exists i :: 0 <= i < |ds| && b.maxCenter.x == ds[i].center.x)
    && (exists i :: 0 <= i < |ds| && b.maxCenter.y == ds[i].center.y)
    && (exists i :: 0 <= i < |ds| && b.maxCenter.z == ds[i].center.z)
  }

  /** The union box of a non-empty list of extents, merged in list order. */
  function Union(ds: seq<Dimensions>): Box
    requires |ds| > 0
    decreases |ds|
  {
    if |ds| == 1 then Seed(ds[0]) else Merge(Union(ds[..|ds| - 1]), ds[|ds| - 1])
  }

  /** The largest axis extent of the box. */
  function MaxLength(b: Box): (r: real)
    ensures r >= b.right - b.left && r >= b.top - b.bottom && r >= b.near - b.far
    ensures r == b.right - b.left || r == b.top - b.bottom || r == b.near - b.far
  {
    var lengthX := b.right - b.left;
    var lengthY := b.top - b.bottom;
    var lengthZ := b.near - b.far;
    var m := if lengthY > lengthX then lengthY else lengthX;
    if lengthZ > m then lengthZ else m
  }

  /** The largest (signed) center coordinate, or 0 for a single object. */
  function MaxLocation(b: Box, count: nat): (r: real)
    ensures count <= 1 ==> r == 0.0
    ensures count > 1 ==> r >= b.maxCenter.x && r >= b.maxCenter.y && r >= b.maxCenter.z
    ensures count > 1 ==> r == b.maxCenter.x || r == b.maxCenter.y || r == b.maxCenter.z
  {
    if count > 1 then
      var m := if b.maxCenter.y > b.maxCenter.x then b.maxCenter.y else b.maxCenter.x;
      if b.maxCenter.z > m then b.maxCenter.z else m
    else 0.0
  }

  /** The denominator of the scale factor. */
  function Extent(b: Box, count: nat): real
  {
    MaxLength(b) + MaxLocation(b, count)
  }

  /**
   * What a rescale does once the extremes are known: nothing (factor in the
   * band), scale by the factor, or hit a zero denominator, where the source's
   * float division yields a non-finite factor.
   */
  datatype Scaling = Skip | ScaleBy(factor: real) | Degenerate

  function ChooseScaling(size: real, b: Box, count: nat): (s: Scaling)
    ensures s.Degenerate? <==> Extent(b, count) == 0.0
    ensures s.Skip? ==> Extent(b, count) != 0.0 && BandLow < size / Extent(b, count) < BandHigh
    ensures s.ScaleBy? ==> s.factor * Extent(b, count) == size
    ensures s.ScaleBy? ==> s.factor <= BandLow || s.factor >= BandHigh
  {
    var denominator := Extent(b, count);
    if denominator == 0.0 then Degenerate
    else
      var factor := size / denominator;
      if BandLow < factor < BandHigh then Skip else ScaleBy(factor)
  }

  // ------------------------------------------------------------ the caches

  /**
   * The cache after visiting `keys` in order: a key seen for the first time
   * is stored with its current value; a cached key keeps its value.
   */
  function CacheFirstSeen<K, V>(cache: map<K, V>, keys: seq<K>, current: seq<V>): map<K, V>
    requires |keys| == |current|
    decreases |keys|
  {
    if |keys| == 0 then cache
    else
      var n := |keys| - 1;
      var c := CacheFirstSeen(cache, keys[..n], current[..n]);
      if keys[n] in c then c else c[keys[n] := current[n]]
  }

  /** The cached original of each key, in list order. */
  function Originals<K, V>(cache: map<K, V>, keys: seq<K>): (r: seq<V>)
    requires forall i :: 0 <= i < |keys| ==> keys[i] in cache
    ensures |r| == |keys|
    ensures forall i :: 0 <= i < |keys| ==> r[i] == cache[keys[i]]
  {
    seq(|keys|, i requires 0 <= i < |keys| => cache[keys[i]])
  }

  /** Both caches of the scene loader. */
  datatype Caches<K> = Caches(dimensions: map<K, Dimensions>, transforms: map<K, Transform>)

  /** The scaling decision of a rescale over a non-empty list, with the dimension cache it fills. */
  function Decide<K>(dimensions: map<K, Dimensions>, keys: seq<K>, current: seq<Dimensions>, size: real): Scaling
    requires 0 < |keys| == |current|
  {
    var d := CacheFirstSeen(dimensions, keys, current);
    CacheFirstSeenSpec(dimensions, keys, current);
    assert forall i :: 0 <= i < |keys| ==> keys[i] in d;
    ChooseScaling(size, Union(Originals(d, keys)), |keys|)
  }

  /**
   * The caches after a rescale of `keys`, whose current extents and
   * transforms are `dims` and `transforms`. The transform cache is only
   * filled when the decision is to scale.
   */
  function Rescaled<K>(c: Caches<K>, keys: seq<K>, dims: seq<Dimensions>, transforms: seq<Transform>, size: real): (r: Caches<K>)
    requires |keys| == |dims| == |transforms|
  {
    if |keys| == 0 then c
    else
      var d := CacheFirstSeen(c.dimensions, keys, dims);
      var s := Decide(c.dimensions, keys, dims, size);
      Caches(d, if s.ScaleBy? then CacheFirstSeen(c.transforms, keys, transforms) else c.transforms)
  }

  // ---------------------------------------------------------------- lemmas

  /** The union encloses every extent of the list, and each of its bounds is attained by one of them. */
  lemma {:induction false} UnionIsTight(ds: seq<Dimensions>)
    requires |ds| > 0
    ensures forall i :: 0 <= i < |ds| ==> Encloses(Union(ds), ds[i])
    ensures Attained(Union(ds), ds)
    decreases |ds|
  {
    if |ds| > 1 {
      var prefix := ds[..|ds| - 1];
      UnionIsTight(prefix);
      assert forall i :: 0 <= i < |ds| - 1 ==> prefix[i] == ds[i];
    }
  }

  /**
   * The cache after visiting keys holds exactly the old keys and the visited
   * ones; cached values are kept, and a new key is stored with its value at
   * its first occurrence.
   */
  lemma {:induction false} CacheFirstSeenSpec<K, V>(cache: map<K, V>, keys: seq<K>, current: seq<V>)
    requires |keys| == |current|
    ensures CacheFirstSeen(cache, keys, current).Keys == cache.Keys + set i | 0 <= i < |keys| :: keys[i]
    ensures forall k :: k in cache ==> CacheFirstSeen(cache, keys, current)[k] == cache[k]
    ensures forall i :: 0 <= i < |keys| && keys[i] !in cache && (forall j :: 0 <= j < i ==> keys[j] != keys[i]) ==>
              CacheFirstSeen(cache, keys, current)[keys[i]] == current[i]
    decreases |keys|
  {
    if |keys| > 0 {
      var n := |keys| - 1;
      CacheFirstSeenSpec(cache, keys[..n], current[..n]);
      assert forall i :: 0 <= i < n ==> keys[..n][i] == keys[i] && current[..n][i] == current[i];
    }
  }

  /** One more visited key: the cache grows by it unless it is cached already. */
  lemma CacheFirstSeenStep<K, V>(cache: map<K, V>, keys: seq<K>, current: seq<V>, i: nat)
    requires i < |keys| == |current|
    ensures var c := CacheFirstSeen(cache, keys[..i], current[..i]);
            CacheFirstSeen(cache, keys[..i + 1], current[..i + 1]) == if keys[i] in c then c else c[keys[i] := current[i]]
  {
    assert keys[..i + 1][..i] == keys[..i] && current[..i + 1][..i] == current[..i];
  }

  /**
   * One iteration of the extremes loop on values: the next key is cached if
   * new, and merging its cached extents into the running box gives the union
   * over one more key.
   */
  lemma UnionOfOriginalsStep<K>(c0: map<K, Dimensions>, keys: seq<K>, dims: seq<Dimensions>, i: nat,
                                cache: map<K, Dimensions>, box: Box, next: map<K, Dimensions>)
    requires 0 < i < |keys| == |dims|
    requires cache == CacheFirstSeen(c0, keys[..i], dims[..i])
    requires forall k :: 0 <= k < i ==> keys[k] in cache
    requires box == Union(Originals(cache, keys[..i]))
    requires next == if keys[i] in cache then cache else cache[keys[i] := dims[i]]
    ensures next == CacheFirstSeen(c0, keys[..i + 1], dims[..i + 1])
    ensures forall k :: 0 <= k < i + 1 ==> keys[k] in next
    ensures Merge(box, next[keys[i]]) == Union(Originals(next, keys[..i + 1]))
  {
    CacheFirstSeenStep(c0, keys, dims, i);
    var ds := Originals(next, keys[..i + 1]);
    assert ds[..i] == Originals(cache, keys[..i]);
  }

  /** Visiting keys that are all cached leaves the cache as it is. */
  lemma CacheFirstSeenSaturated<K, V>(cache: map<K, V>, keys: seq<K>, current: seq<V>)
    requires |keys| == |current|
    requires forall i :: 0 <= i < |keys| ==> keys[i] in cache
    ensures CacheFirstSeen(cache, keys, current) == cache
  {
    CacheFirstSeenSpec(cache, keys, current);
    var r := CacheFirstSeen(cache, keys, current);
    assert r.Keys == cache.Keys;
  }

  /**
   * Rescaling is stable: a second rescale of the same list, whatever the
   * objects report by then, decides the same and leaves both caches as the
   * first one left them, so every object ends with the same transform.
   */
  lemma {:induction false} RescaleIdempotent<K>(
    c: Caches<K>, keys: seq<K>,
    dims1: seq<Dimensions>, transforms1: seq<Transform>,
    dims2: seq<Dimensions>, transforms2: seq<Transform>, size: real)
    requires 0 < |keys| == |dims1| == |transforms1| == |dims2| == |transforms2|
    ensures var c1 := Rescaled(c, keys, dims1, transforms1, size);
            && Rescaled(c1, keys, dims2, transforms2, size) == c1
            && Decide(c1.dimensions, keys, dims2, size) == Decide(c.dimensions, keys, dims1, size)
  {
    var c1 := Rescaled(c, keys, dims1, transforms1, size);
    var s1 := Decide(c.dimensions, keys, dims1, size);
    CacheFirstSeenSpec(c.dimensions, keys, dims1);
    CacheFirstSeenSaturated(c1.dimensions, keys, dims2);
    assert Decide(c1.dimensions, keys, dims2, size) == s1;
    if s1.ScaleBy? {
      CacheFirstSeenSpec(c.transforms, keys, transforms1);
      CacheFirstSeenSaturated(c1.transforms, keys, transforms2);
    }
  }

  /** A factor in the band never reaches the objects; any other factor multiplies originals. */
  lemma ScaleByOutsideBand(size: real, b: Box, count: nat)
    requires Extent(b, count) > 0.0 && size > 0.0
    ensures ChooseScaling(size, b, count).Skip? <==> BandLow * Extent(b, count) < size < BandHigh * Extent(b, count)
  {
    var e := Extent(b, count);
    var f := size / e;
    assert f * e == size;
    assert ChooseScaling(size, b, count) == if BandLow < f < BandHigh then Skip else ScaleBy(f);
    CompareQuotient(size, e, f, BandLow);
    CompareQuotient(size, e, f, BandHigh);
  }

  /** For a positive `e` and `f * e == size`, comparing `f` with `c` is comparing `size` with `c * e`. */
  lemma CompareQuotient(size: real, e: real, f: real, c: real)
    requires e > 0.0 && f * e == size
    ensures c < f <==> c * e < size
    ensures f < c <==> size < c * e
  {
    MultiplyPreservesOrder(c, f, e);
    MultiplyPreservesOrder(f, c, e);
  }

  lemma MultiplyPreservesOrder(x: real, y: real, e: real)
    requires e > 0.0
    ensures x < y <==> x * e < y * e
  {
    assert y * e - x * e == (y - x) * e;
  }

  /**
   * The worked example: two objects whose union spans 200 units, farthest
   * center coordinate 50, target size 100: the factor is 0.4 and is applied.
   */
  lemma TwoObjectExample()
    ensures var ds := [Dimensions(-100.0, 50.0, 50.0, 0.0, -50.0, -50.0, Vec3(-50.0, 0.0, 0.0)),
                       Dimensions(0.0, 50.0, 50.0, 100.0, -50.0, -50.0, Vec3(50.0, 0.0, 0.0))];
            ChooseScaling(100.0, Union(ds), 2) == ScaleBy(0.4)
  {
    var ds := [Dimensions(-100.0, 50.0, 50.0, 0.0, -50.0, -50.0, Vec3(-50.0, 0.0, 0.0)),
               Dimensions(0.0, 50.0, 50.0, 100.0, -50.0, -50.0, Vec3(50.0, 0.0, 0.0))];
    assert ds[..1] == [ds[0]];
    assert Union(ds) == Merge(Seed(ds[0]), ds[1]);
  }
}
