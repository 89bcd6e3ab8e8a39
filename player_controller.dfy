/** The jump logic of the player (Assets/Scripts/player_controller.cs):
    coyote time, a jump buffer, a jittered jump impulse, the short hop on
    early release and the gravity shaping of `HandleGravity`.

    Each frame's inputs (ground contact, the jump button's press, release
    and held states, the frame time and the jump jitter `Random.Range`
    drew) arrive as a `Frame`. Horizontal movement is not modelled. */
module Player {
  import opened Engine

  /** The serialized jump settings, and the world gravity `Physics2D.gravity.y`. */
  datatype JumpSettings = JumpSettings(
    jumpForce: real,
    fallMultiplier: real,
    lowJumpMultiplier: real,
    coyoteTime: real,
    jumpBufferTime: real,
    jumpRandomness: real,
    gravity: real)

  /** What one frame feeds the jump logic. */
  datatype Frame = Frame(
    grounded: bool,   // `isGrounded`, as the last ground check left it
    pressed: bool,    // `Input.GetButtonDown("Jump")`
    released: bool,   // `Input.GetButtonUp("Jump")`
    held: bool,       // `Input.GetButton("Jump")`
    dt: real,         // `Time.deltaTime`
    jitter: real)     // the `Random.Range(-jumpRandomness, jumpRandomness)` draw

  /** The jitter is a value `Random.Range` can return for these bounds. */
  predicate JitterFits(c: JumpSettings, f: Frame)
  {
    InRange(f.jitter, -c.jumpRandomness, c.jumpRandomness)
  }

  /** The state the jump logic reads and writes: the two countdowns, the
      jumping flag and the body's velocity. */
  datatype Body = Body(coyote: real, buffer: real, isJumping: bool, velocity: Vec2)

  /** The coyote countdown after this frame: refilled on the ground,
      otherwise run down by the frame time, with no floor. */
  function CoyoteAfter(c: JumpSettings, coyote: real, f: Frame): real
  {
    if f.grounded then c.coyoteTime else coyote - f.dt
  }

  /** The buffer countdown after this frame: refilled by a press, otherwise
      run down by the frame time, with no floor. */
  function BufferAfter(c: JumpSettings, buffer: real, f: Frame): real
  {
    if f.pressed then c.jumpBufferTime else buffer - f.dt
  }

  /** Whether `HandleJump` fires a jump this frame. */
  predicate Fires(c: JumpSettings, b: Body, f: Frame)
  {
    BufferAfter(c, b.buffer, f) > 0.0 && CoyoteAfter(c, b.coyote, f) > 0.0
  }

  /** `HandleJump`. */
  function Jump(c: JumpSettings, b: Body, f: Frame): (r: Body)
    ensures r.velocity.x == b.velocity.x
    ensures Fires(c, b, f) ==> r.coyote == 0.0 && r.buffer == 0.0
    ensures !Fires(c, b, f) ==>
      r.coyote == CoyoteAfter(c, b.coyote, f) && r.buffer == BufferAfter(c, b.buffer, f)
    ensures var vy := if Fires(c, b, f) then c.jumpForce + f.jitter else b.velocity.y;
      && (f.released && vy > 0.0 ==> r.velocity.y == vy * 0.5 && !r.isJumping)
      && (!(f.released && vy > 0.0) ==>
            r.velocity.y == vy && r.isJumping == (Fires(c, b, f) || b.isJumping))
  {
    var coyote := CoyoteAfter(c, b.coyote, f);
    var buffer := BufferAfter(c, b.buffer, f);
    var launched :=
      if buffer > 0.0 && coyote > 0.0 then
        Body(0.0, 0.0, true, Vec2(b.velocity.x, c.jumpForce + f.jitter))
      else
        Body(coyote, buffer, b.isJumping, b.velocity);
    if f.released && launched.velocity.y > 0.0 then
      launched.(velocity := Vec2(launched.velocity.x, launched.velocity.y * 0.5), isJumping := false)
    else
      launched
  }

  /** The extra vertical velocity a gravity multiplier adds over `dt`. */
  function Pull(gravity: real, multiplier: real, dt: real): real
  {
    gravity * (multiplier - 1.0) * dt
  }

  /** `HandleGravity`: extra gravity while falling, and while rising with
      the button let go; nothing otherwise. */
  function Gravity(c: JumpSettings, b: Body, f: Frame): (r: Body)
    ensures b.velocity.y < 0.0 ==>
      r.velocity.y == b.velocity.y + c.gravity * (c.fallMultiplier - 1.0) * f.dt
    ensures b.velocity.y > 0.0 && !f.held ==>
      r.velocity.y == b.velocity.y + c.gravity * (c.lowJumpMultiplier - 1.0) * f.dt
    ensures b.velocity.y == 0.0 || (b.velocity.y > 0.0 && f.held) ==> r == b
    ensures r.(velocity := b.velocity) == b && r.velocity.x == b.velocity.x
  {
    if b.velocity.y < 0.0 then
      b.(velocity := Vec2(b.velocity.x, b.velocity.y + Pull(c.gravity, c.fallMultiplier, f.dt)))
    else if b.velocity.y > 0.0 && !f.held then
      b.(velocity := Vec2(b.velocity.x, b.velocity.y + Pull(c.gravity, c.lowJumpMultiplier, f.dt)))
    else
      b
  }

  /** One `Update`: `HandleJump`, then `HandleGravity`. */
  function Tick(c: JumpSettings, b: Body, f: Frame): Body
  {
    Gravity(c, Jump(c, b, f), f)
  }

  /** Frames run one after another. Only the jump logic runs between them:
      the engine's own physics step (base gravity, collisions) does not
      change the velocity from one frame to the next here. */
  function Run(c: JumpSettings, b: Body, fs: seq<Frame>): Body
    decreases |fs|
  {
    if fs == [] then b else Run(c, Tick(c, b, fs[0]), fs[1..])
  }

  /** Gravity shaping never touches the countdowns or the jumping flag. */
  lemma GravityKeepsTimers(c: JumpSettings, b: Body, f: Frame)
    ensures var r := Gravity(c, b, f);
      r.coyote == b.coyote && r.buffer == b.buffer && r.isJumping == b.isJumping
  {
  }

  /** No double jump: on the frame after a jump, a jump fires again only on a
      fresh press, however long the player stays on the ground. */
  lemma NoJumpWithoutFreshPress(c: JumpSettings, b: Body, f1: Frame, f2: Frame)
    requires Fires(c, b, f1)
    requires f2.dt > 0.0 && !f2.pressed
    ensures !Fires(c, Tick(c, b, f1), f2)
  {
    GravityKeepsTimers(c, Jump(c, b, f1), f1);
  }

  /** The frame time `fs` take together. */
  function Elapsed(fs: seq<Frame>): real
    decreases |fs|
  {
    if fs == [] then 0.0 else fs[0].dt + Elapsed(fs[1..])
  }

  /** Airborne frames without a press, once one of the two windows is
      closed, run both countdowns down by exactly the time they take: no
      jump fires among them, since a jump needs both windows open. */
  lemma {:induction false} AirborneFramesDrain(c: JumpSettings, b: Body, fs: seq<Frame>)
    requires b.coyote <= 0.0 || b.buffer <= 0.0
    requires forall i :: 0 <= i < |fs| ==> !fs[i].grounded && !fs[i].pressed && fs[i].dt >= 0.0
    ensures Run(c, b, fs).coyote == b.coyote - Elapsed(fs)
    ensures Run(c, b, fs).buffer == b.buffer - Elapsed(fs)
    ensures forall i :: 0 <= i < |fs| ==> !Fires(c, Run(c, b, fs[..i]), fs[i])
    decreases |fs|
  {
    if fs != [] {
      var f := fs[0];
      var next := Tick(c, b, f);
      GravityKeepsTimers(c, Jump(c, b, f), f);
      assert next.coyote == b.coyote - f.dt && next.buffer == b.buffer - f.dt;
      AirborneFramesDrain(c, next, fs[1..]);
      forall i | 0 <= i < |fs| ensures !Fires(c, Run(c, b, fs[..i]), fs[i]) {
        if i > 0 {
          assert fs[..i][1..] == fs[1..][..i - 1];
          assert fs[i] == fs[1..][i - 1];
        }
      }
    }
  }

  /** The jump buffer: a press in the air after the coyote time is spent,
      then airborne frames without a press, then a landing frame without a
      press: the landing fires the buffered jump exactly when less than
      `jumpBufferTime` has passed since the press. */
  lemma JumpBufferWindow(c: JumpSettings, b: Body, press: Frame, fs: seq<Frame>, landing: Frame)
    requires c.coyoteTime > 0.0
    requires !press.grounded && press.pressed && b.coyote - press.dt <= 0.0
    requires forall i :: 0 <= i < |fs| ==> !fs[i].grounded && !fs[i].pressed && fs[i].dt >= 0.0
    requires landing.grounded && !landing.pressed
    ensures Fires(c, Run(c, Tick(c, b, press), fs), landing)
      <==> c.jumpBufferTime - Elapsed(fs) - landing.dt > 0.0
  {
    var afterPress := Tick(c, b, press);
    assert !Fires(c, b, press);
    GravityKeepsTimers(c, Jump(c, b, press), press);
    AirborneFramesDrain(c, afterPress, fs);
  }

  /** With both windows at 0.1 s, a press 0.05 s before landing still
      jumps on landing, and a press 0.2 s before landing does not. */
  lemma JumpBufferExample(c: JumpSettings, b: Body, press: Frame, landing: Frame)
    requires c.coyoteTime == 0.1 && c.jumpBufferTime == 0.1
    requires !press.grounded && press.pressed && b.coyote - press.dt <= 0.0
    requires landing.grounded && !landing.pressed
    ensures landing.dt == 0.05 ==> Fires(c, Tick(c, b, press), landing)
    ensures landing.dt == 0.2 ==> !Fires(c, Tick(c, b, press), landing)
  {
    JumpBufferWindow(c, b, press, [], landing);
  }

  /** The short hop: letting go of the button while rising at 12 leaves the
      body rising at 6 and no longer jumping. */
  lemma ShortHopExample(c: JumpSettings, b: Body, f: Frame)
    requires !Fires(c, b, f) && b.velocity.y == 12.0 && f.released
    ensures Jump(c, b, f).velocity.y == 6.0 && !Jump(c, b, f).isJumping
  {
  }

  /** Coyote time: walking off a ledge (a grounded frame that does not
      jump, then airborne frames without a press), a press fires a jump
      exactly when less than `coyoteTime` has passed since the last grounded
      frame. */
  lemma CoyoteJump(c: JumpSettings, b: Body, ground: Frame, fs: seq<Frame>, f: Frame)
    requires ground.grounded && !Fires(c, b, ground)
    requires forall i :: 0 <= i < |fs| ==> !fs[i].grounded && !fs[i].pressed && fs[i].dt >= 0.0
    requires !f.grounded && f.pressed && c.jumpBufferTime > 0.0
    ensures Fires(c, Run(c, Tick(c, b, ground), fs), f) <==> c.coyoteTime - Elapsed(fs) - f.dt > 0.0
  {
    GravityKeepsTimers(c, Jump(c, b, ground), ground);
    AirborneFramesDrain(c, Tick(c, b, ground), fs);
  }

  /** With a coyote time of 0.1 s, a press 0.05 s after walking off the
      ledge still jumps, and a press 0.15 s after does not. */
  lemma CoyoteExample(c: JumpSettings, b: Body, ground: Frame, f: Frame)
    requires c.coyoteTime == 0.1 && c.jumpBufferTime == 0.1
    requires ground.grounded && !Fires(c, b, ground)
    requires !f.grounded && f.pressed
    ensures f.dt == 0.05 ==> Fires(c, Tick(c, b, ground), f)
    ensures f.dt == 0.15 ==> !Fires(c, Tick(c, b, ground), f)
  {
    CoyoteJump(c, b, ground, [], f);
  }

  /** The imperative component: its countdowns, jumping flag, ground flag and
      the x/y velocity of its rigid body. */
  class PlayerController {
    const settings: JumpSettings

    var isGrounded: bool
    var coyoteTimeCounter: real
    var jumpBufferCounter: real
    var isJumping: bool
    var velocity: Vec2

    function State(): Body
      reads this
    {
      Body(coyoteTimeCounter, jumpBufferCounter, isJumping, velocity)
    }

    /** A fresh component: counters and flags at their defaults, at rest. */
    constructor (settings: JumpSettings)
      ensures this.settings == settings && !isGrounded
      ensures State() == Body(0.0, 0.0, false, Vec2(0.0, 0.0))
    {
      this.settings := settings;
      isGrounded := false;
      coyoteTimeCounter := 0.0;
      jumpBufferCounter := 0.0;
      isJumping := false;
      velocity := Vec2(0.0, 0.0);
    }

    /** `FixedUpdate`: `CheckGrounded`, with the overlap test's answer as input. */
    method FixedUpdate(overlapsGround: bool)
      modifies this`isGrounded
      ensures isGrounded == overlapsGround
    {
      isGrounded := overlapsGround;
    }

    method HandleJump(pressed: bool, released: bool, dt: real, jitter: real)
      requires InRange(jitter, -settings.jumpRandomness, settings.jumpRandomness)
      modifies this
      ensures isGrounded == old(isGrounded)
      ensures State() == Jump(settings, old(State()), Frame(isGrounded, pressed, released, false, dt, jitter))
    {
      if isGrounded {
        coyoteTimeCounter := settings.coyoteTime;
      } else {
        coyoteTimeCounter := coyoteTimeCounter - dt;
      }

      if pressed {
        jumpBufferCounter := settings.jumpBufferTime;
      } else {
        jumpBufferCounter := jumpBufferCounter - dt;
      }

      if jumpBufferCounter > 0.0 && coyoteTimeCounter > 0.0 {
        var randomJumpForce := settings.jumpForce + jitter;
        velocity := Vec2(velocity.x, randomJumpForce);
        jumpBufferCounter := 0.0;
        coyoteTimeCounter := 0.0;
        isJumping := true;
      }

      if released && velocity.y > 0.0 {
        velocity := Vec2(velocity.x, velocity.y * 0.5);
        isJumping := false;
      }
    }

    method HandleGravity(held: bool, dt: real)
      modifies this`velocity
      ensures State() == Gravity(settings, old(State()), Frame(isGrounded, false, false, held, dt, 0.0))
    {
      if velocity.y < 0.0 {
        velocity := Vec2(velocity.x, velocity.y + Pull(settings.gravity, settings.fallMultiplier, dt));
      } else if velocity.y > 0.0 && !held {
        velocity := Vec2(velocity.x, velocity.y + Pull(settings.gravity, settings.lowJumpMultiplier, dt));
      }
    }

    /** `Update`, without `HandleMovement`. */
    method Update(f: Frame)
      requires f.grounded == isGrounded && JitterFits(settings, f)
      modifies this
      ensures isGrounded == old(isGrounded)
      ensures State() == Tick(settings, old(State()), f)
    {
      ghost var before := State();
      HandleJump(f.pressed, f.released, f.dt, f.jitter);
      assert State() == Jump(settings, before, f);
      ghost var jumped := State();
      HandleGravity(f.held, f.dt);
      assert State() == Gravity(settings, jumped, f);
    }
  }
}
