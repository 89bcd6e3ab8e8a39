/** The platform field (Assets/Scripts/platform_spawner.cs): a pool of
    platform instances that only grows, a spawn cursor `lastSpawnZ` that
    only moves forward, spawning driven by the player's progress and
    recycling of platforms left behind.

    The random draws of one spawn (spacing, lateral offset, stability roll)
    are inputs, constrained to the ranges `Random.Range` / `Random.value`
    guarantee; the player's z position is an input of each tick. */
module Spawning {
  import opened Engine
  import opened Platforms

  /** The three random values one `SpawnPlatform` consumes, in the order it draws them. */
  datatype SpawnDraw = SpawnDraw(spacing: real, x: real, roll: real)

  predicate IsSpawnDraw(d: SpawnDraw, minSpacing: real, maxSpacing: real)
  {
    && InRange(d.spacing, minSpacing, maxSpacing)
    && InRange(d.x, -3.0, 3.0)
    && IsUnitDraw(d.roll)
  }

  predicate AreSpawnDraws(ds: seq<SpawnDraw>, minSpacing: real, maxSpacing: real)
  {
    forall i :: 0 <= i < |ds| ==> IsSpawnDraw(ds[i], minSpacing, maxSpacing)
  }

  /** The cursor after the first `i` spawns that consume `ds`, starting from `z0`. */
  function Cursor(z0: real, ds: seq<SpawnDraw>, i: nat): real
    requires i <= |ds|
  {
    if i == 0 then z0 else Cursor(z0, ds, i - 1) + ds[i - 1].spacing
  }

  /** The index of the first inactive platform in pool order, or `|ss|`
      when every platform is active. */
  function FirstInactive(ss: seq<PlatformState>): (k: nat)
    ensures k <= |ss|
  {
    if ss == [] then 0
    else if !ss[0].active then 0
    else 1 + FirstInactive(ss[1..])
  }

  /** Every platform before `FirstInactive(ss)` is active, the one at it is
      not, and it is `|ss|` exactly when every platform is active. */
  lemma {:induction false} FirstInactiveIsFirst(ss: seq<PlatformState>)
    ensures var k := FirstInactive(ss);
      && (forall j :: 0 <= j < k ==> ss[j].active)
      && (k < |ss| ==> !ss[k].active)
      && (k == |ss| <==> forall j :: 0 <= j < |ss| ==> ss[j].active)
  {
    if ss != [] && ss[0].active {
      FirstInactiveIsFirst(ss[1..]);
      assert forall j :: 1 <= j < |ss| ==> ss[j] == ss[1..][j - 1];
    }
  }

  /** The states of the platforms of `ps`, in pool order. */
  function States(ps: seq<Platform>): (r: seq<PlatformState>)
    reads ps
    ensures |r| == |ps|
    ensures forall i {:trigger r[i]} :: 0 <= i < |ps| ==> r[i] == ps[i].State()
  {
    seq(|ps|, i requires 0 <= i < |ps| reads ps => ps[i].State())
  }

  /** What `SpawnPlatform` does to the acquired platform: place it at
      (`x`, 0, `z`), set its stability, activate it. Every other part of its
      state, a pending break included, is carried over. */
  function Placed(s: PlatformState, x: real, z: real, unstable: bool): (r: PlatformState)
    ensures r.active && r.position == Vec3(x, 0.0, z)
    ensures r.isUnstable == unstable && r.material == MaterialFor(unstable)
    ensures r.isBreaking == s.isBreaking && r.scheduled == s.scheduled && r.bursts == s.bursts
    ensures Consistent(s) ==> Consistent(r)
  {
    AfterSetUnstable(s.(position := Vec3(x, 0.0, z)), unstable).(active := true)
  }

  /** `SpawnPlatform` on the pool's states: the first inactive platform is
      placed; when there is none, a fresh instance (`template`) is appended and
      placed. The pool grows only then, and by one; every other platform
      keeps its place and its state. */
  function Spawned(ss: seq<PlatformState>, template: PlatformState, x: real, z: real, unstable: bool)
    : (r: seq<PlatformState>)
    ensures |r| == |ss| || |r| == |ss| + 1
  {
    var k := FirstInactive(ss);
    if k < |ss| then ss[k := Placed(ss[k], x, z, unstable)]
    else ss + [Placed(template, x, z, unstable)]
  }

  /** One spawn places exactly one platform, the first inactive one or a
      fresh one appended; the pool grows only when every platform was
      active, and by one; every other platform keeps its place and state. */
  lemma SpawnedPlacesFirstInactive(ss: seq<PlatformState>, template: PlatformState, x: real, z: real, unstable: bool)
    ensures var r, k := Spawned(ss, template, x, z, unstable), FirstInactive(ss);
      && |r| == |ss| + (if k == |ss| then 1 else 0)
      && k < |r|
      && r[k] == Placed(if k < |ss| then ss[k] else template, x, z, unstable)
      && (forall j :: 0 <= j < |ss| && j != k ==> r[j] == ss[j])
      && (forall j :: 0 <= j < k ==> ss[j].active)
      && (k < |ss| ==> !ss[k].active)
      && (|r| > |ss| ==> forall j :: 0 <= j < |r| ==> r[j].active)
  {
    FirstInactiveIsFirst(ss);
  }

  /** The pool as acquiring a platform leaves it: unchanged while some
      platform is inactive, otherwise grown by `template`. */
  function Grown(ss: seq<PlatformState>, template: PlatformState): (r: seq<PlatformState>)
    ensures FirstInactive(ss) < |r|
  {
    if FirstInactive(ss) < |ss| then ss else ss + [template]
  }

  /** `Spawned` as one update of the pool, grown by `template` first when
      every platform is active. */
  lemma SpawnedAsUpdate(ss: seq<PlatformState>, template: PlatformState, x: real, z: real, unstable: bool)
    ensures var k, grown := FirstInactive(ss), Grown(ss, template);
      Spawned(ss, template, x, z, unstable) == grown[k := Placed(grown[k], x, z, unstable)]
  {
    var k := FirstInactive(ss);
    if k == |ss| {
      assert (ss + [template])[k := Placed(template, x, z, unstable)] == ss + [Placed(template, x, z, unstable)];
    }
  }

  /** Every platform of the pool keeps its invariant (flag and material in
      step, at most one pending break, pending exactly while breaking). */
  predicate AllConsistent(ss: seq<PlatformState>)
  {
    forall i :: 0 <= i < |ss| ==> Consistent(ss[i])
  }

  /** Spawning keeps every platform's invariant. */
  lemma SpawnedKeepsConsistent(ss: seq<PlatformState>, template: PlatformState, x: real, z: real, unstable: bool)
    requires Consistent(template) && AllConsistent(ss)
    ensures AllConsistent(Spawned(ss, template, x, z, unstable))
  {
    SpawnedAsUpdate(ss, template, x, z, unstable);
  }

  /** A platform spawned unstable forgets where it was placed: its first
      `Update` puts it on the swing from the position its instance was
      created at, whatever lateral offset and depth the spawn chose. */
  lemma UnstableSpawnSwingsFromPrefab(c: PlatformSettings, s: PlatformState, x: real, z: real, time: real)
    ensures var r := AfterUpdate(c, c.position, Placed(s, x, z, true), time);
      && r.position == SwingPoint(c.position, c.moveDirection, time * c.moveSpeed)
      && WithinSwing(r.position, c.position, c.moveDirection)
  {
  }

  /** A platform recycled while its break is pending keeps the pending
      disable through its reuse: placed again, it is switched off when the
      old invoke comes due, however far ahead it now stands. */
  lemma PendingBreakSurvivesReuse(s: PlatformState, threshold: real, x: real, z: real, unstable: bool, now: real)
    requires Consistent(s) && s.active && s.isBreaking && s.position.z < threshold
    requires s.scheduled[0] <= now
    ensures var reused := Placed(Recycled(s, threshold), x, z, unstable);
      && reused.active && reused.isBreaking
      && !AfterInvokes(reused, now).active
  {
  }

  /** What `RecyclePlatforms` does to one platform, given the threshold
      `playerZ - recycleDistance`. */
  function Recycled(s: PlatformState, threshold: real): (r: PlatformState)
    ensures !(r.active && r.position.z < threshold)
    ensures r.active == (s.active && s.position.z >= threshold)
    ensures s.position.z >= threshold ==> r == s
    ensures r.(active := s.active) == s
    ensures Consistent(s) ==> Consistent(r)
  {
    if s.active && s.position.z < threshold then s.(active := false) else s
  }

  /** `RecyclePlatforms` on the pool's states. */
  function RecycledAll(ss: seq<PlatformState>, threshold: real): (r: seq<PlatformState>)
    ensures |r| == |ss|
    ensures forall i :: 0 <= i < |ss| ==> r[i] == Recycled(ss[i], threshold)
  {
    seq(|ss|, i requires 0 <= i < |ss| => Recycled(ss[i], threshold))
  }

  /** The first `m` spawns of `ds`, one `SpawnPlatform` per draw, starting
      from the cursor `z0`. */
  function SpawnMany(ss: seq<PlatformState>, template: PlatformState, z0: real, ds: seq<SpawnDraw>,
                     m: nat, chance: real): (r: seq<PlatformState>)
    requires m <= |ds|
    ensures |ss| <= |r| <= |ss| + m
  {
    if m == 0 then ss
    else
      Spawned(SpawnMany(ss, template, z0, ds, m - 1, chance), template,
              ds[m - 1].x, Cursor(z0, ds, m), ds[m - 1].roll < chance)
  }

  /** A run of spawns keeps every platform's invariant. */
  lemma {:induction false} SpawnManyKeepsConsistent(ss: seq<PlatformState>, template: PlatformState, z0: real,
                                                    ds: seq<SpawnDraw>, m: nat, chance: real)
    requires m <= |ds| && Consistent(template) && AllConsistent(ss)
    ensures AllConsistent(SpawnMany(ss, template, z0, ds, m, chance))
  {
    if m > 0 {
      SpawnManyKeepsConsistent(ss, template, z0, ds, m - 1, chance);
      SpawnedKeepsConsistent(SpawnMany(ss, template, z0, ds, m - 1, chance), template,
                             ds[m - 1].x, Cursor(z0, ds, m), ds[m - 1].roll < chance);
    }
  }

  /** `FirstInactive` is the index of the first inactive platform. */
  lemma FirstInactiveAt(ss: seq<PlatformState>, n: nat)
    requires n < |ss| && !ss[n].active
    requires forall j :: 0 <= j < n ==> ss[j].active
    ensures FirstInactive(ss) == n
  {
    FirstInactiveIsFirst(ss);
  }

  /** The pool `ss` with its first `m` platforms placed by the first `m`
      draws, each at the cursor after its own spacing. */
  function Reused(ss: seq<PlatformState>, z0: real, ds: seq<SpawnDraw>, m: nat, chance: real): seq<PlatformState>
    requires m <= |ds| && m <= |ss|
  {
    seq(|ss|, i requires 0 <= i < |ss| =>
      if i < m then Placed(ss[i], ds[i].x, Cursor(z0, ds, i + 1), ds[i].roll < chance) else ss[i])
  }

  /** Placing one more draw extends `Reused` by one platform. */
  lemma ReusedStep(ss: seq<PlatformState>, z0: real, ds: seq<SpawnDraw>, m: nat, chance: real)
    requires 0 < m <= |ds| && m <= |ss|
    ensures Reused(ss, z0, ds, m, chance)
         == Reused(ss, z0, ds, m - 1, chance)[m - 1 := Placed(ss[m - 1], ds[m - 1].x, Cursor(z0, ds, m), ds[m - 1].roll < chance)]
  {
  }

  /** `Spawned` when the first inactive platform is the one at `n`. */
  lemma SpawnedAt(ss: seq<PlatformState>, template: PlatformState, x: real, z: real, unstable: bool, n: nat)
    requires n < |ss| && FirstInactive(ss) == n
    ensures Spawned(ss, template, x, z, unstable) == ss[n := Placed(ss[n], x, z, unstable)]
  {
  }

  /** Spawning into a pool none of whose platforms is active reuses the
      platforms in pool order: after `m` spawns the first `m` are placed by
      the draws, at the running cursor, and the rest are as they were. No
      platform is created while one is left. */
  lemma {:induction false} SpawnManyReusesInOrder(ss: seq<PlatformState>, template: PlatformState, z0: real,
                                                  ds: seq<SpawnDraw>, m: nat, chance: real)
    requires m <= |ds| && m <= |ss|
    requires forall i :: 0 <= i < |ss| ==> !ss[i].active
    ensures SpawnMany(ss, template, z0, ds, m, chance) == Reused(ss, z0, ds, m, chance)
  {
    if m == 0 {
      assert Reused(ss, z0, ds, 0, chance) == ss;
    } else {
      SpawnManyReusesInOrder(ss, template, z0, ds, m - 1, chance);
      var prev := Reused(ss, z0, ds, m - 1, chance);
      var x, z, unstable := ds[m - 1].x, Cursor(z0, ds, m), ds[m - 1].roll < chance;
      assert prev[m - 1] == ss[m - 1];
      forall j | 0 <= j < m - 1 ensures prev[j].active {
        assert prev[j] == Placed(ss[j], ds[j].x, Cursor(z0, ds, j + 1), ds[j].roll < chance);
      }
      FirstInactiveAt(prev, m - 1);
      calc {
        SpawnMany(ss, template, z0, ds, m, chance);
        Spawned(prev, template, x, z, unstable);
        { SpawnedAt(prev, template, x, z, unstable, m - 1); }
        prev[m - 1 := Placed(prev[m - 1], x, z, unstable)];
        prev[m - 1 := Placed(ss[m - 1], x, z, unstable)];
        { ReusedStep(ss, z0, ds, m, chance); }
        Reused(ss, z0, ds, m, chance);
      }
    }
  }

  /** `Awake`'s spawns fill the pool `InitializePool` made: every platform
      ends active, in order, at the running cursor, and the pool keeps its
      size. */
  lemma InitialSpawnsFillPool(ss: seq<PlatformState>, template: PlatformState, z0: real,
                              ds: seq<SpawnDraw>, chance: real)
    requires |ds| == |ss|
    requires forall i :: 0 <= i < |ss| ==> !ss[i].active
    ensures var r := SpawnMany(ss, template, z0, ds, |ds|, chance);
      && |r| == |ss|
      && forall i :: 0 <= i < |r| ==>
           && r[i].active
           && r[i].position == Vec3(ds[i].x, 0.0, Cursor(z0, ds, i + 1))
           && r[i].isUnstable == (ds[i].roll < chance)
  {
    SpawnManyReusesInOrder(ss, template, z0, ds, |ds|, chance);
    var r := Reused(ss, z0, ds, |ds|, chance);
    forall i | 0 <= i < |r|
      ensures r[i].active && r[i].position == Vec3(ds[i].x, 0.0, Cursor(z0, ds, i + 1))
      ensures r[i].isUnstable == (ds[i].roll < chance)
    {
      assert r[i] == Placed(ss[i], ds[i].x, Cursor(z0, ds, i + 1), ds[i].roll < chance);
    }
  }

  /** Recycling twice with the same threshold is recycling once. */
  lemma RecycleIdempotent(ss: seq<PlatformState>, threshold: real)
    ensures RecycledAll(RecycledAll(ss, threshold), threshold) == RecycledAll(ss, threshold)
  {
  }

  /** Over any run of spawns, each at least `min` apart, the cursor
      advances by at least `min` per spawn. */
  lemma {:induction false} CursorAdvancesAtLeast(z0: real, ds: seq<SpawnDraw>, i: nat, j: nat, min: real)
    requires forall k :: 0 <= k < |ds| ==> min <= ds[k].spacing
    requires i <= j <= |ds|
    ensures Cursor(z0, ds, i) + (j - i) as real * min <= Cursor(z0, ds, j)
  {
    if i < j {
      CursorAdvancesAtLeast(z0, ds, i, j - 1, min);
      var n := (j - 1 - i) as real;
      assert (n + 1.0) * min == n * min + min;
    }
  }

  /** ... and by at most `max` per spawn when each is at most `max` apart. */
  lemma {:induction false} CursorAdvancesAtMost(z0: real, ds: seq<SpawnDraw>, i: nat, j: nat, max: real)
    requires forall k :: 0 <= k < |ds| ==> ds[k].spacing <= max
    requires i <= j <= |ds|
    ensures Cursor(z0, ds, j) <= Cursor(z0, ds, i) + (j - i) as real * max
  {
    if i < j {
      CursorAdvancesAtMost(z0, ds, i, j - 1, max);
      var n := (j - 1 - i) as real;
      assert (n + 1.0) * max == n * max + max;
    }
  }

  /** Each spacing drawn lies between the smaller and the larger bound. */
  lemma SpacingsWithin(ds: seq<SpawnDraw>, min: real, max: real)
    requires AreSpawnDraws(ds, min, max)
    ensures forall k :: 0 <= k < |ds| ==> Min(min, max) <= ds[k].spacing <= Max(min, max)
  {
    forall k | 0 <= k < |ds| ensures Min(min, max) <= ds[k].spacing <= Max(min, max) {
      assert IsSpawnDraw(ds[k], min, max);
    }
  }

  /** With every spacing in [lo, hi], the cursor ends, after the i-th to
      j-th spawns, between `lo` and `hi` per spawn further on; and when
      `lo > 0` it strictly increases from spawn to spawn. */
  lemma CursorBetween(z0: real, ds: seq<SpawnDraw>, i: nat, j: nat, lo: real, hi: real)
    requires forall k :: 0 <= k < |ds| ==> lo <= ds[k].spacing <= hi
    requires i <= j <= |ds|
    ensures Cursor(z0, ds, i) + (j - i) as real * lo <= Cursor(z0, ds, j)
    ensures Cursor(z0, ds, j) <= Cursor(z0, ds, i) + (j - i) as real * hi
    ensures 0.0 < lo && i < j ==> Cursor(z0, ds, i) < Cursor(z0, ds, j)
  {
    CursorAdvancesAtLeast(z0, ds, i, j, lo);
    CursorAdvancesAtMost(z0, ds, i, j, hi);
    if 0.0 < lo && i < j {
      assert (j - i) as real * lo > 0.0;
    }
  }

  /** With draws between `min` and `max` (in either order, as `Random.Range`
      takes them), the cursor advances between the smaller and the larger
      bound per spawn, and strictly when both bounds are positive. */
  lemma CursorAdvance(z0: real, ds: seq<SpawnDraw>, i: nat, j: nat, min: real, max: real)
    requires AreSpawnDraws(ds, min, max)
    requires i <= j <= |ds|
    ensures min <= max ==>
      Cursor(z0, ds, i) + (j - i) as real * min <= Cursor(z0, ds, j) <= Cursor(z0, ds, i) + (j - i) as real * max
    ensures max < min ==>
      Cursor(z0, ds, i) + (j - i) as real * max <= Cursor(z0, ds, j) <= Cursor(z0, ds, i) + (j - i) as real * min
    ensures 0.0 < min && 0.0 < max && i < j ==> Cursor(z0, ds, i) < Cursor(z0, ds, j)
  {
    SpacingsWithin(ds, min, max);
    if min <= max {
      CursorBetween(z0, ds, i, j, min, max);
    } else {
      CursorBetween(z0, ds, i, j, max, min);
    }
  }

  /** Recycling keeps every platform's invariant. */
  lemma RecycledAllKeepsConsistent(ss: seq<PlatformState>, threshold: real)
    requires AllConsistent(ss)
    ensures AllConsistent(RecycledAll(ss, threshold))
  {
  }

  /** A prefab instance as `InitializePool` leaves it: created, then deactivated. */
  function Dormant(c: PlatformSettings): (s: PlatformState)
    ensures !s.active && Consistent(s)
    ensures s.(active := true) == Initial(c)
  {
    Initial(c).(active := false)
  }

  /** `n` instances as `InitializePool` leaves them. */
  function Dormants(c: PlatformSettings, n: nat): (r: seq<PlatformState>)
    ensures |r| == n
    ensures forall i :: 0 <= i < n ==> r[i] == Dormant(c)
  {
    if n == 0 then [] else Dormants(c, n - 1) + [Dormant(c)]
  }

  /** Adding dormant instances keeps every platform's invariant. */
  lemma DormantsKeepConsistent(ss: seq<PlatformState>, c: PlatformSettings, n: nat)
    requires AllConsistent(ss)
    ensures AllConsistent(ss + Dormants(c, n))
  {
    var r := ss + Dormants(c, n);
    forall i | 0 <= i < |r| ensures Consistent(r[i]) {
      if i >= |ss| {
        assert r[i] == Dormants(c, n)[i - |ss|];
      }
    }
  }

  class PlatformSpawner {
    const spawnDistance: real
    const recycleDistance: real
    const initialPoolSize: nat
    const minPlatformSpacing: real
    const maxPlatformSpacing: real
    const unstableChance: real
    const prefab: PlatformSettings

    var pool: seq<Platform>
    var lastSpawnZ: real
    /** The platform objects this spawner has created. */
    ghost var Repr: set<Platform>

    /** The pool holds distinct instances of the prefab, created by this
        spawner. */
    ghost predicate Valid()
      reads this`pool, this`Repr
    {
      && (forall i, j :: 0 <= i < j < |pool| ==> pool[i] != pool[j])
      && (forall i :: 0 <= i < |pool| ==>
            pool[i] in Repr && pool[i].settings == prefab && pool[i].startPosition == prefab.position)
    }

    /** The component as the scene loads it: its serialized settings, an
        empty pool and the cursor at 0, whatever the player's position. */
    constructor (spawnDistance: real, recycleDistance: real, initialPoolSize: nat,
                 minPlatformSpacing: real, maxPlatformSpacing: real, unstableChance: real,
                 prefab: PlatformSettings)
      ensures Valid() && Repr == {}
      ensures this.spawnDistance == spawnDistance && this.recycleDistance == recycleDistance
      ensures this.initialPoolSize == initialPoolSize && this.unstableChance == unstableChance
      ensures this.minPlatformSpacing == minPlatformSpacing && this.maxPlatformSpacing == maxPlatformSpacing
      ensures this.prefab == prefab
      ensures pool == [] && lastSpawnZ == 0.0
    {
      this.spawnDistance := spawnDistance;
      this.recycleDistance := recycleDistance;
      this.initialPoolSize := initialPoolSize;
      this.minPlatformSpacing := minPlatformSpacing;
      this.maxPlatformSpacing := maxPlatformSpacing;
      this.unstableChance := unstableChance;
      this.prefab := prefab;
      pool := [];
      lastSpawnZ := 0.0;
      Repr := {};
    }

    /** `Awake`: `InitializePool`, then `SpawnInitialPlatforms` with `draws`,
        the values of its `initialPoolSize` spawns. On the empty pool of a
        fresh component, `InitialSpawnsFillPool` says what this leaves. */
    method Awake(draws: seq<SpawnDraw>)
      requires Valid()
      requires |draws| == initialPoolSize
      requires AreSpawnDraws(draws, minPlatformSpacing, maxPlatformSpacing)
      modifies this, Repr
      ensures Valid() && fresh(Repr - old(Repr))
      ensures lastSpawnZ == Cursor(old(lastSpawnZ), draws, |draws|)
      ensures States(pool) == SpawnMany(old(States(pool)) + Dormants(prefab, initialPoolSize),
                                        Initial(prefab), old(lastSpawnZ), draws, |draws|, unstableChance)
      ensures old(pool) == [] ==>
        |pool| == initialPoolSize && forall i :: 0 <= i < |pool| ==> pool[i].active
      ensures AllConsistent(old(States(pool))) ==> AllConsistent(States(pool))
    {
      ghost var before := States(pool);
      ghost var z0 := lastSpawnZ;
      ghost var empty := pool == [];
      InitializePool();
      ghost var dormant := States(pool);
      SpawnInitialPlatforms(draws);
      if empty {
        assert dormant == Dormants(prefab, initialPoolSize);
        InitialSpawnsFillPool(dormant, Initial(prefab), z0, draws, unstableChance);
        forall i | 0 <= i < |pool| ensures pool[i].active {
          assert States(pool)[i] == pool[i].State();
        }
      }
      if AllConsistent(before) {
        DormantsKeepConsistent(before, prefab, initialPoolSize);
        SpawnManyKeepsConsistent(before + Dormants(prefab, initialPoolSize), Initial(prefab), z0,
                                 draws, |draws|, unstableChance);
      }
    }

    /** Appends `initialPoolSize` fresh, inactive instances of the prefab. */
    method InitializePool()
      requires Valid()
      modifies this`pool, this`Repr
      ensures Valid() && fresh(Repr - old(Repr))
      ensures |pool| == old(|pool|) + initialPoolSize && pool[..old(|pool|)] == old(pool)
      ensures States(pool) == old(States(pool)) + Dormants(prefab, initialPoolSize)
    {
      ghost var states := States(pool);
      for i := 0 to initialPoolSize
        invariant Valid() && fresh(Repr - old(Repr))
        invariant |pool| == old(|pool|) + i && pool[..old(|pool|)] == old(pool)
        invariant States(pool) == states + Dormants(prefab, i)
      {
        var platform := new Platform(prefab);
        platform.active := false;
        ghost var prior := States(pool);
        AddToPool(platform);
        assert prior + [Dormant(prefab)] == states + Dormants(prefab, i + 1);
      }
    }

    /** One `SpawnPlatform` per draw, the cursor advancing by each spacing.
        The loop's own `currentZ` is never read and is not modelled. */
    method SpawnInitialPlatforms(draws: seq<SpawnDraw>)
      requires Valid()
      requires |draws| == initialPoolSize
      requires AreSpawnDraws(draws, minPlatformSpacing, maxPlatformSpacing)
      modifies this, Repr
      ensures Valid() && fresh(Repr - old(Repr))
      ensures lastSpawnZ == Cursor(old(lastSpawnZ), draws, |draws|)
      ensures States(pool) == SpawnMany(old(States(pool)), Initial(prefab), old(lastSpawnZ), draws, |draws|, unstableChance)
    {
      ghost var init := States(pool);
      ghost var z0 := lastSpawnZ;
      for i := 0 to initialPoolSize
        invariant Valid() && fresh(Repr - old(Repr))
        invariant lastSpawnZ == Cursor(z0, draws, i)
        invariant States(pool) == SpawnMany(init, Initial(prefab), z0, draws, i, unstableChance)
      {
        assert IsSpawnDraw(draws[i], minPlatformSpacing, maxPlatformSpacing);
        SpawnPlatform(draws[i]);
      }
    }

    /** Places one platform `d.spacing` beyond the cursor: the first inactive
        platform of the pool, or a fresh one appended when all are active.
        The pool only ever grows at its end. */
    method SpawnPlatform(d: SpawnDraw)
      requires Valid()
      requires IsSpawnDraw(d, minPlatformSpacing, maxPlatformSpacing)
      modifies this, Repr
      ensures Valid() && fresh(Repr - old(Repr))
      ensures lastSpawnZ == old(lastSpawnZ) + d.spacing
      ensures States(pool) == Spawned(old(States(pool)), Initial(prefab), d.x, lastSpawnZ, d.roll < unstableChance)
      ensures pool[..old(|pool|)] == old(pool)
    {
      ghost var before := States(pool);
      ghost var k := FirstInactive(before);
      var platform := AcquirePlatform();
      var platformSpacing := d.spacing;
      lastSpawnZ := lastSpawnZ + platformSpacing;
      var isUnstable := d.roll < unstableChance;
      Place(platform, k, d.x, lastSpawnZ, isUnstable);
      SpawnedAsUpdate(before, Initial(prefab), d.x, lastSpawnZ, isUnstable);
    }

    /** The placement step of `SpawnPlatform`: put the platform at index `k`
        at (`x`, 0, `z`), set its stability, activate it. */
    method Place(platform: Platform, ghost k: nat, x: real, z: real, unstable: bool)
      requires Valid() && k < |pool| && pool[k] == platform
      modifies platform
      ensures States(pool) == old(States(pool))[k := Placed(old(States(pool))[k], x, z, unstable)]
    {
      platform.position := Vec3(x, 0.0, z);
      platform.SetUnstable(unstable);
      platform.active := true;
    }

    /** `platformPool.Add`: append an instance of the prefab this spawner
        has just created. */
    method AddToPool(platform: Platform)
      requires Valid() && platform !in Repr
      requires platform.settings == prefab && platform.startPosition == prefab.position
      modifies this`pool, this`Repr
      ensures Valid() && Repr == old(Repr) + {platform}
      ensures pool == old(pool) + [platform]
      ensures States(pool) == old(States(pool)) + [platform.State()]
    {
      pool := pool + [platform];
      Repr := Repr + {platform};
      assert forall j :: 0 <= j < old(|pool|) ==> States(pool)[j] == old(States(pool))[j];
    }

    /** The acquisition step of `SpawnPlatform`: the first inactive platform,
        or, when every platform is active, a fresh instance appended to the
        pool. No platform already in the pool changes. */
    method AcquirePlatform() returns (platform: Platform)
      requires Valid()
      modifies this`pool, this`Repr
      ensures Valid() && fresh(Repr - old(Repr))
      ensures var k := FirstInactive(old(States(pool)));
        && k < |pool| && platform == pool[k] && platform in Repr
        && old(|pool|) <= |pool| && pool[..old(|pool|)] == old(pool)
        && States(pool) == Grown(old(States(pool)), Initial(prefab))
    {
      var found := GetInactivePlatform();
      if found == null {
        platform := new Platform(prefab);
        AddToPool(platform);
      } else {
        platform := found;
      }
    }

    /** Deactivates, scanning from the back, every active platform more than
        `recycleDistance` behind the player. */
    method RecyclePlatforms(playerZ: real)
      requires Valid()
      modifies Repr
      ensures Valid() && pool == old(pool)
      ensures States(pool) == RecycledAll(old(States(pool)), playerZ - recycleDistance)
    {
      var i := |pool| - 1;
      while i >= 0
        invariant -1 <= i < |pool|
        invariant Valid()
        invariant forall k :: i < k < |pool| ==>
          pool[k].State() == Recycled(old(pool[k].State()), playerZ - recycleDistance)
        invariant forall k :: 0 <= k <= i ==> pool[k].State() == old(pool[k].State())
      {
        var platform := pool[i];
        if platform.active && platform.position.z < playerZ - recycleDistance {
          platform.active := false;
        }
        i := i - 1;
      }
      assert forall k :: 0 <= k < |pool| ==>
        States(pool)[k] == RecycledAll(old(States(pool)), playerZ - recycleDistance)[k];
    }

    /** The first inactive platform in pool order, or null when all are active. */
    method GetInactivePlatform() returns (p: Platform?)
      ensures p == null <==> forall i :: 0 <= i < |pool| ==> pool[i].active
      ensures var k := FirstInactive(States(pool));
        (p == null <==> k == |pool|) && (k < |pool| ==> p == pool[k])
    {
      var i := 0;
      while i < |pool|
        invariant 0 <= i <= |pool|
        invariant forall j :: 0 <= j < i ==> pool[j].active
      {
        if !pool[i].active {
          FirstInactiveAt(States(pool), i);
          return pool[i];
        }
        i := i + 1;
      }
      FirstInactiveIsFirst(States(pool));
      return null;
    }

    /** One frame: spawn at most one platform, only when the player is within
        `spawnDistance` of the cursor, then recycle. `d` is used only when a
        platform is spawned. */
    method Update(playerZ: real, d: SpawnDraw)
      requires Valid()
      requires IsSpawnDraw(d, minPlatformSpacing, maxPlatformSpacing)
      modifies this, Repr
      ensures Valid() && fresh(Repr - old(Repr))
      ensures var spawned := playerZ + spawnDistance > old(lastSpawnZ);
        && lastSpawnZ == old(lastSpawnZ) + (if spawned then d.spacing else 0.0)
        && States(pool) == RecycledAll(if spawned then Spawned(old(States(pool)), Initial(prefab), d.x,
                                                               lastSpawnZ, d.roll < unstableChance)
                                       else old(States(pool)),
                                       playerZ - recycleDistance)
        && (!spawned ==> pool == old(pool))
      ensures pool[..old(|pool|)] == old(pool)
      ensures AllConsistent(old(States(pool))) ==> AllConsistent(States(pool))
    {
      ghost var before := States(pool);
      if playerZ + spawnDistance > lastSpawnZ {
        SpawnPlatform(d);
        if AllConsistent(before) {
          SpawnedKeepsConsistent(before, Initial(prefab), d.x, lastSpawnZ, d.roll < unstableChance);
        }
      }
      ghost var spawned := States(pool);
      RecyclePlatforms(playerZ);
      if AllConsistent(spawned) {
        RecycledAllKeepsConsistent(spawned, playerZ - recycleDistance);
      }
    }

    /** A pooled platform respawned unstable, wherever it was placed, moves
        on its next `Update` onto the swing from the prefab's position: its
        anchor was fixed when its instance was created. */
    lemma RespawnedSwingsFromPrefab(k: nat, s: PlatformState, x: real, z: real, time: real)
      requires Valid() && k < |pool| && pool[k].State() == Placed(s, x, z, true)
      ensures var p := pool[k];
        var r := AfterUpdate(p.settings, p.startPosition, p.State(), time);
        && r.position == SwingPoint(prefab.position, prefab.moveDirection, time * prefab.moveSpeed)
        && WithinSwing(r.position, prefab.position, prefab.moveDirection)
    {
      UnstableSpawnSwingsFromPrefab(prefab, s, x, z, time);
    }

    /** A pool whose states all keep the platform invariant holds only
        valid platforms. */
    lemma PlatformsValid()
      requires AllConsistent(States(pool))
      ensures forall i :: 0 <= i < |pool| ==> pool[i].Valid()
    {
      forall i | 0 <= i < |pool| ensures pool[i].Valid() {
        assert States(pool)[i] == pool[i].State();
      }
    }
  }
}
