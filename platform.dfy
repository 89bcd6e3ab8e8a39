/** One platform of the field (Assets/Scripts/platform.cs): its stability
    flag and material kept together, a one-shot delayed break, and the
    ping-pong motion of unstable platforms.

    The engine's `Invoke(nameof(DisablePlatform), breakDelay)` is modelled
    as a queue of due times, `scheduled`; the host polls it once per frame
    with the clock (`RunInvokes`). */
module Platforms {
  import opened Engine

  /** The renderer's material. A fresh instance shows its prefab's own
      material until `SetUnstable` first runs. */
  datatype Material = PrefabMaterial | StableMaterial | UnstableMaterial

  function MaterialFor(unstable: bool): Material
  {
    if unstable then UnstableMaterial else StableMaterial
  }

  /** The serialized fields of a platform prefab, copied into every instance. */
  datatype PlatformSettings = PlatformSettings(
    position: Vec3,          // the prefab's transform position
    isUnstable: bool,
    breakDelay: real,
    moveSpeed: real,
    moveDirection: Vec3,
    hasBreakParticles: bool)

  /** The mutable part of a platform. `scheduled` holds the due times of the
      pending `DisablePlatform` invokes; `bursts` counts how often the break
      particles were started. */
  datatype PlatformState = PlatformState(
    active: bool,
    isUnstable: bool,
    material: Material,
    isBreaking: bool,
    position: Vec3,
    scheduled: seq<real>,
    bursts: nat)

  /** The platform's invariant: once a material has been chosen it matches
      the stability flag, and a break is pending exactly while the platform
      is breaking, at most one at a time. */
  predicate Coherent(unstable: bool, material: Material, breaking: bool, scheduled: seq<real>)
  {
    && (material != PrefabMaterial ==> material == MaterialFor(unstable))
    && |scheduled| <= 1
    && (breaking <==> |scheduled| == 1)
  }

  predicate Consistent(s: PlatformState)
  {
    Coherent(s.isUnstable, s.material, s.isBreaking, s.scheduled)
  }

  /** `Mathf.PingPong(t, 1)`: `1 - |Repeat(t, 2) - 1|`, where `Repeat(t, 2)`
      is `t` reduced into [0, 2) by a whole number of periods. */
  function PingPong(t: real): (r: real)
    ensures 0.0 <= r <= 1.0
    ensures 0.0 <= t <= 1.0 ==> r == t
    ensures 1.0 <= t <= 2.0 ==> r == 2.0 - t
  {
    var periods := (t / 2.0).Floor;
    var m := t - 2.0 * periods as real;
    assert 0.0 <= m < 2.0;
    assert 0.0 <= t < 2.0 ==> periods == 0;
    assert t == 2.0 ==> periods == 1;
    1.0 - Abs(m - 1.0)
  }

  /** Where `MovePlatform` puts a platform: its anchor plus the direction
      scaled by the wave. */
  function SwingPoint(anchor: Vec3, direction: Vec3, t: real): (p: Vec3)
    ensures WithinSwing(p, anchor, direction)
  {
    var w := PingPong(t);
    ScaledStaysBetween(anchor.x, direction.x, w);
    ScaledStaysBetween(anchor.y, direction.y, w);
    ScaledStaysBetween(anchor.z, direction.z, w);
    Add(anchor, Scale(direction, w))
  }

  lemma ScaledStaysBetween(a: real, d: real, w: real)
    requires 0.0 <= w <= 1.0
    ensures Between(a + d * w, a, d)
  {
    if d >= 0.0 {
      assert 0.0 <= d * w <= d * 1.0;
    } else {
      assert d * 1.0 <= d * w <= 0.0;
    }
  }

  /** Every coordinate of `p` lies between `anchor` and `anchor + direction`. */
  predicate WithinSwing(p: Vec3, anchor: Vec3, direction: Vec3)
  {
    && Between(p.x, anchor.x, direction.x)
    && Between(p.y, anchor.y, direction.y)
    && Between(p.z, anchor.z, direction.z)
  }

  /** The state of a fresh instance of `c` (`Instantiate`, then `Awake`). */
  function Initial(c: PlatformSettings): (s: PlatformState)
    ensures Consistent(s)
    ensures s.active && !s.isBreaking && s.scheduled == [] && s.bursts == 0
    ensures s.isUnstable == c.isUnstable && s.material == PrefabMaterial && s.position == c.position
  {
    PlatformState(true, c.isUnstable, PrefabMaterial, false, c.position, [], 0)
  }

  /** `SetUnstable(b)` */
  function AfterSetUnstable(s: PlatformState, b: bool): (r: PlatformState)
    ensures r.isUnstable == b
    ensures r.material == UnstableMaterial <==> b
    ensures r.material == StableMaterial <==> !b
    ensures Consistent(s) ==> Consistent(r)
    ensures r.(isUnstable := s.isUnstable, material := s.material) == s
  {
    s.(isUnstable := b, material := MaterialFor(b))
  }

  /** `BreakPlatform()` at clock `now` */
  function AfterBreak(c: PlatformSettings, s: PlatformState, now: real): (r: PlatformState)
    ensures s.isUnstable && !s.isBreaking ==>
      && r.isBreaking
      && r.scheduled == s.scheduled + [now + c.breakDelay]
      && r.bursts == s.bursts + (if c.hasBreakParticles then 1 else 0)
      && r.(isBreaking := s.isBreaking, scheduled := s.scheduled, bursts := s.bursts) == s
    ensures !s.isUnstable || s.isBreaking ==> r == s
    ensures r.isUnstable == s.isUnstable
    ensures Consistent(s) ==> Consistent(r)
  {
    if s.isUnstable && !s.isBreaking then
      s.(isBreaking := true,
         scheduled := s.scheduled + [now + c.breakDelay],
         bursts := s.bursts + if c.hasBreakParticles then 1 else 0)
    else
      s
  }

  /** `DisablePlatform()` */
  function AfterDisable(s: PlatformState): (r: PlatformState)
    ensures !r.active && !r.isBreaking
    ensures r.(active := s.active, isBreaking := s.isBreaking) == s
  {
    s.(active := false, isBreaking := false)
  }

  /** The host running, at clock `now`, the pending invoke if it is due. */
  function AfterInvokes(s: PlatformState, now: real): (r: PlatformState)
    ensures Consistent(s) ==> Consistent(r)
    ensures s.scheduled != [] && s.scheduled[0] <= now ==>
      r == AfterDisable(s.(scheduled := s.scheduled[1..]))
    ensures s.scheduled == [] || now < s.scheduled[0] ==> r == s
  {
    if s.scheduled != [] && s.scheduled[0] <= now then
      AfterDisable(s.(scheduled := s.scheduled[1..]))
    else
      s
  }

  /** `Update()` at clock `time`: only an unstable platform moves, and it is
      placed on its swing from `anchor`, never further than one direction
      length away. */
  function AfterUpdate(c: PlatformSettings, anchor: Vec3, s: PlatformState, time: real): (r: PlatformState)
    ensures !s.isUnstable ==> r == s
    ensures s.isUnstable ==> r.position == SwingPoint(anchor, c.moveDirection, time * c.moveSpeed)
    ensures s.isUnstable ==> WithinSwing(r.position, anchor, c.moveDirection)
    ensures r.(position := s.position) == s
  {
    if s.isUnstable then s.(position := SwingPoint(anchor, c.moveDirection, time * c.moveSpeed)) else s
  }

  /** The wave repeats every two time units. */
  lemma PingPongPeriodic(t: real)
    ensures PingPong(t + 2.0) == PingPong(t)
  {
    var k := (t / 2.0).Floor;
    assert ((t + 2.0) / 2.0).Floor == k + 1;
  }

  /** The wave is symmetric about time zero. */
  lemma PingPongEven(t: real)
    ensures PingPong(-t) == PingPong(t)
  {
    var k := (t / 2.0).Floor;
    var m := t - 2.0 * k as real;
    if m == 0.0 {
      assert (-t / 2.0).Floor == -k;
    } else {
      assert (-t / 2.0).Floor == -k - 1;
    }
  }

  /** Breaking is one-shot: a second `BreakPlatform` before the pending
      disable has run changes nothing, so two calls schedule at most one
      deactivation between them. */
  lemma BreakIsOneShot(c: PlatformSettings, s: PlatformState, t1: real, t2: real)
    ensures AfterBreak(c, AfterBreak(c, s, t1), t2) == AfterBreak(c, s, t1)
    ensures |AfterBreak(c, AfterBreak(c, s, t1), t2).scheduled|
         == |s.scheduled| + (if s.isUnstable && !s.isBreaking then 1 else 0)
  {
  }

  /** The break life cycle: an unstable platform that is not yet breaking,
      once broken and polled after the delay, is inactive with its guard
      cleared and nothing pending, and keeps its stability, position and
      material. */
  lemma BreakThenDisable(c: PlatformSettings, s: PlatformState, t: real, now: real)
    requires Consistent(s) && s.isUnstable && !s.isBreaking
    requires now >= t + c.breakDelay
    ensures var r := AfterInvokes(AfterBreak(c, s, t), now);
      && !r.active && !r.isBreaking && r.scheduled == []
      && r.isUnstable && r.position == s.position && r.material == s.material
  {
  }

  /** A pending disable does not fire before its due time. */
  lemma NoDisableBeforeDelay(c: PlatformSettings, s: PlatformState, t: real, now: real)
    requires Consistent(s) && s.isUnstable && !s.isBreaking
    requires now < t + c.breakDelay
    ensures AfterInvokes(AfterBreak(c, s, t), now) == AfterBreak(c, s, t)
  {
  }

  class Platform {
    const settings: PlatformSettings
    /** Captured once, when the instance is created; a respawn does not reset it. */
    const startPosition: Vec3

    var active: bool
    var isUnstable: bool
    var material: Material
    var isBreaking: bool
    var position: Vec3
    var scheduled: seq<real>
    var bursts: nat

    function State(): PlatformState
      reads this
    {
      PlatformState(active, isUnstable, material, isBreaking, position, scheduled, bursts)
    }

    predicate Valid()
      reads this`isUnstable, this`material, this`isBreaking, this`scheduled
    {
      Coherent(isUnstable, material, isBreaking, scheduled)
    }

    /** `Instantiate` of a prefab with these settings, followed by `Awake`. */
    constructor (c: PlatformSettings)
      ensures Valid()
      ensures settings == c && startPosition == c.position
      ensures State() == Initial(c)
    {
      settings := c;
      startPosition := c.position;
      active := true;
      isUnstable := c.isUnstable;
      material := PrefabMaterial;
      isBreaking := false;
      position := c.position;
      scheduled := [];
      bursts := 0;
    }

    method SetUnstable(b: bool)
      modifies this
      ensures old(Valid()) ==> Valid()
      ensures State() == AfterSetUnstable(old(State()), b)
    {
      isUnstable := b;
      material := if b then UnstableMaterial else StableMaterial;
    }

    method BreakPlatform(now: real)
      requires Valid()
      modifies this
      ensures Valid()
      ensures State() == AfterBreak(settings, old(State()), now)
    {
      if isUnstable && !isBreaking {
        isBreaking := true;
        scheduled := scheduled + [now + settings.breakDelay];
        if settings.hasBreakParticles {
          bursts := bursts + 1;
        }
      }
    }

    method DisablePlatform()
      modifies this
      ensures State() == AfterDisable(old(State()))
    {
      active := false;
      isBreaking := false;
    }

    /** The host's per-frame poll of the invoke queue at clock `now`. */
    method RunInvokes(now: real)
      requires Valid()
      modifies this
      ensures Valid()
      ensures State() == AfterInvokes(old(State()), now)
    {
      if scheduled != [] && scheduled[0] <= now {
        scheduled := scheduled[1..];
        DisablePlatform();
      }
    }

    method MovePlatform(time: real)
      modifies this`position
      ensures position == SwingPoint(startPosition, settings.moveDirection, time * settings.moveSpeed)
      ensures WithinSwing(position, startPosition, settings.moveDirection)
    {
      var pingPong := PingPong(time * settings.moveSpeed);
      position := Add(startPosition, Scale(settings.moveDirection, pingPong));
    }

    method Update(time: real)
      modifies this`position
      ensures State() == AfterUpdate(settings, startPosition, old(State()), time)
    {
      if isUnstable {
        MovePlatform(time);
      }
    }
  }
}
