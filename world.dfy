/**
  The whole game state as a value, and every handler and the frame update as
  functions from the state before to the state after. The imperative game in
  module Shooter is proved to follow these functions step by step.

  Inputs the browser provides are parameters: the time in milliseconds, the
  mouse position, the pressed key, the first gamepad's sample, the two
  random draws of a frame and the trigonometric functions. Sounds are
  returned as events instead of being played.
 */
module WorldModel {
  import opened Weapons
  import opened Projectiles
  import opened Containment
  import opened ShakeEffect

  const PlayerSize: real := 30.0
  const PlayerSpeed: real := 6.0
  const GunLength: real := 20.0
  /** Minimum time between two footstep sounds. */
  const FootstepInterval: int := 350
  /** The right stick only aims once one of its axes leaves this deadzone. */
  const AimDeadzone: real := 0.1

  datatype Option<T> = None | Some(value: T)

  datatype Sound = ShotSound | ReloadSound | FootstepSound | RestartSound

  /** The host's trigonometry, taken as given functions. */
  datatype Trig = Trig(cos: real -> real, sin: real -> real, atan2: (real, real) -> real)

  /** The mutable fields of the player object. */
  datatype PlayerState = PlayerState(x: real, y: real, dx: real, dy: real, angle: real, lastFootStepTime: int)

  /** One sample of the first gamepad: axes 0 to 3, and buttons 5 (right
      trigger), 2 (X) and 3 (Y). */
  datatype Gamepad = Gamepad(
    leftX: real, leftY: real, rightX: real, rightY: real,
    rightTrigger: bool, buttonX: bool, buttonY: bool)

  datatype World = World(
    width: nat,
    height: nat,
    player: PlayerState,
    bullets: seq<Bullet>,
    weapon: WeaponState,
    shake: Shake,
    rightTriggerPressed: bool,
    mouseX: real,
    mouseY: real)

  /** A new state with the sounds played on the way to it, in order. */
  datatype Step = Step(world: World, sounds: seq<Sound>)

  function Abs(r: real): real {
    if r < 0.0 then -r else r
  }

  /** The invariant every handler keeps. */
  predicate Invariant(w: World) {
    Weapons.Valid(w.weapon) && 0 <= w.shake.duration <= ShakeFrames
  }

  /** The player's square lies within the canvas. */
  predicate Contained(p: PlayerState, width: real, height: real) {
    && PlayerSize / 2.0 <= p.x <= width - PlayerSize / 2.0
    && PlayerSize / 2.0 <= p.y <= height - PlayerSize / 2.0
  }

  /** The state when the page loads on a canvas of the given size. */
  function Initial(width: nat, height: nat): (w: World)
    ensures Invariant(w) && CanFire(w.weapon) && w.bullets == [] && w.shake.duration == 0
    ensures w.player.x * 2.0 == width as real && w.player.y * 2.0 == height as real
  {
    World(width, height, PlayerState(width as real / 2.0, height as real / 2.0, 0.0, 0.0, 0.0, 0),
          [], Weapons.Initial, Still, false, 0.0, 0.0)
  }

  /** The edge check applied to the player. */
  function Contain(p: PlayerState, width: real, height: real): (r: PlayerState)
    ensures PlayerSize <= width && PlayerSize <= height ==> Contained(r, width, height)
    ensures Contained(p, width, height) ==> r == p
    ensures r.(x := p.x, y := p.y) == p
  {
    p.(x := ContainAxis(p.x, PlayerSize, width), y := ContainAxis(p.y, PlayerSize, height))
  }

  lemma ContainIdempotent(p: PlayerState, width: real, height: real)
    ensures Contain(Contain(p, width, height), width, height) == Contain(p, width, height)
  {
    ContainAxisIdempotent(p.x, PlayerSize, width);
    ContainAxisIdempotent(p.y, PlayerSize, height);
  }

  /** One shot: a bullet leaves the gun barrel along the player's aim, the
      weapon counts the shot, and the shake restarts. */
  function Shoot(w: World, now: int, trig: Trig): (r: Step)
    ensures |r.world.bullets| == |w.bullets| + 1 && r.world.bullets[..|w.bullets|] == w.bullets
    ensures var b := r.world.bullets[|w.bullets|];
            && b.dx == trig.cos(w.player.angle) * BulletSpeed
            && b.dy == trig.sin(w.player.angle) * BulletSpeed
            && b.x == w.player.x + b.dx * (GunLength / BulletSpeed)
            && b.y == w.player.y + b.dy * (GunLength / BulletSpeed)
            && b.radius == BulletRadius
    ensures r.world.weapon == Weapons.Shoot(w.weapon, now)
    ensures r.world.shake == w.shake.(duration := ShakeFrames)
    ensures r.world == w.(bullets := r.world.bullets, weapon := r.world.weapon, shake := r.world.shake)
    ensures |r.sounds| >= 1 && r.sounds[|r.sounds| - 1] == ShotSound
    ensures !w.weapon.isReloading ==> (ReloadSound in r.sounds <==> r.world.weapon.isReloading)
    ensures Invariant(w) && !w.weapon.isReloading ==> Invariant(r.world)
  {
    var p := w.player;
    var c := trig.cos(p.angle);
    var s := trig.sin(p.angle);
    var bullet := Bullet(p.x + c * GunLength, p.y + s * GunLength, BulletRadius, c * BulletSpeed, s * BulletSpeed);
    var weapon := Weapons.Shoot(w.weapon, now);
    var sounds := if w.weapon.shotsFired + 1 >= MagazineSize then [ReloadSound, ShotSound] else [ShotSound];
    Step(w.(bullets := w.bullets + [bullet], weapon := weapon, shake := w.shake.(duration := ShakeFrames)), sounds)
  }

  /** Restarting: player back at the centre at rest, no bullets, a full
      magazine, no cooldown and no shake. The reload timestamp, the mouse
      position and the trigger edge flag keep their values. */
  function Restart(w: World): (r: Step)
    ensures r.sounds == [RestartSound]
    ensures Invariant(r.world) && CanFire(r.world.weapon) && r.world.bullets == []
    ensures r.world == Initial(w.width, w.height).(
              weapon := Weapons.Initial.(lastReloadTime := w.weapon.lastReloadTime),
              rightTriggerPressed := w.rightTriggerPressed,
              mouseX := w.mouseX, mouseY := w.mouseY)
  {
    var p := PlayerState(w.width as real / 2.0, w.height as real / 2.0, 0.0, 0.0, 0.0, 0);
    Step(w.(player := p, bullets := [], weapon := Weapons.Restart(w.weapon), shake := Still), [RestartSound])
  }

  lemma RestartIdempotent(w: World)
    ensures Restart(Restart(w).world).world == Restart(w).world
  {
  }

  /** Mouse movement: remember the pointer and turn the player towards it. */
  function MouseMove(w: World, clientX: real, clientY: real, trig: Trig): (r: World)
    ensures r.player.angle == trig.atan2(clientY - w.player.y, clientX - w.player.x)
    ensures r.player.(angle := w.player.angle) == w.player
    ensures r.(mouseX := w.mouseX, mouseY := w.mouseY, player := w.player) == w
    ensures r.mouseX == clientX && r.mouseY == clientY
  {
    w.(mouseX := clientX, mouseY := clientY,
       player := w.player.(angle := trig.atan2(clientY - w.player.y, clientX - w.player.x)))
  }

  /** A mouse button press: the left button shoots when the weapon may fire. */
  function MouseDown(w: World, button: int, now: int, trig: Trig): (r: Step)
    ensures button == 0 && CanFire(w.weapon) ==> r == Shoot(w, now, trig)
    ensures !(button == 0 && CanFire(w.weapon)) ==> r == Step(w, [])
    ensures |r.world.bullets| == |w.bullets| + (if button == 0 && CanFire(w.weapon) then 1 else 0)
    ensures Invariant(w) ==> Invariant(r.world)
  {
    if button == 0 && CanFire(w.weapon) then Shoot(w, now, trig) else Step(w, [])
  }

  predicate IsUpKey(key: string) { key == "w" || key == "ArrowUp" }
  predicate IsDownKey(key: string) { key == "s" || key == "ArrowDown" }
  predicate IsLeftKey(key: string) { key == "a" || key == "ArrowLeft" }
  predicate IsRightKey(key: string) { key == "d" || key == "ArrowRight" }
  predicate IsRestartKey(key: string) { key == "p" || key == "P" }
  predicate IsReloadKey(key: string) { key == "r" || key == "R" }

  predicate IsMoveKey(key: string) {
    IsUpKey(key) || IsDownKey(key) || IsLeftKey(key) || IsRightKey(key)
  }

  /** A key press: movement keys set the velocity intent, P restarts and R
      requests a reload. */
  function KeyDown(w: World, key: string, now: int): (r: Step)
    ensures IsMoveKey(key) ==>
              && r.sounds == []
              && r.world.(player := w.player) == w
              && r.world.player.(dx := w.player.dx, dy := w.player.dy) == w.player
    ensures IsUpKey(key) ==> r.world.player.dy == -PlayerSpeed
    ensures IsDownKey(key) ==> r.world.player.dy == PlayerSpeed
    ensures IsLeftKey(key) ==> r.world.player.dx == -PlayerSpeed
    ensures IsRightKey(key) ==> r.world.player.dx == PlayerSpeed
    ensures IsUpKey(key) || IsDownKey(key) ==> r.world.player.dx == w.player.dx
    ensures IsLeftKey(key) || IsRightKey(key) ==> r.world.player.dy == w.player.dy
    ensures IsRestartKey(key) ==> r == Restart(w)
    ensures IsReloadKey(key) ==> r == Step(w.(weapon := Weapons.Reload(w.weapon, now)), [])
    ensures !IsMoveKey(key) && !IsRestartKey(key) && !IsReloadKey(key) ==> r == Step(w, [])
    ensures Invariant(w) ==> Invariant(r.world)
  {
    var p := w.player;
    var p1 := if IsUpKey(key) then p.(dy := -PlayerSpeed) else p;
    var p2 := if IsDownKey(key) then p1.(dy := PlayerSpeed) else p1;
    var p3 := if IsLeftKey(key) then p2.(dx := -PlayerSpeed) else p2;
    var p4 := if IsRightKey(key) then p3.(dx := PlayerSpeed) else p3;
    var s := if IsRestartKey(key) then Restart(w.(player := p4)) else Step(w.(player := p4), []);
    if IsReloadKey(key) then Step(s.world.(weapon := Weapons.Reload(s.world.weapon, now)), s.sounds) else s
  }

  /** A key release: releasing a vertical or horizontal movement key stops
      movement along that axis. */
  function KeyUp(w: World, key: string): (r: World)
    ensures r.(player := w.player) == w
    ensures r.player.(dx := w.player.dx, dy := w.player.dy) == w.player
    ensures r.player.dy == if IsUpKey(key) || IsDownKey(key) then 0.0 else w.player.dy
    ensures r.player.dx == if IsLeftKey(key) || IsRightKey(key) then 0.0 else w.player.dx
  {
    var p := w.player;
    var p1 := if IsUpKey(key) || IsDownKey(key) then p.(dy := 0.0) else p;
    var p2 := if IsLeftKey(key) || IsRightKey(key) then p1.(dx := 0.0) else p1;
    w.(player := p2)
  }

  /** The right trigger part of the gamepad input: a press shoots once, on
      the frame it is first seen, and only when not reloading. */
  function PadTrigger(w: World, g: Gamepad, now: int, trig: Trig): (r: Step)
    ensures g.rightTrigger && w.rightTriggerPressed ==> r == Step(w, [])
    ensures !g.rightTrigger ==> r == Step(w.(rightTriggerPressed := false), [])
    ensures g.rightTrigger && !w.rightTriggerPressed && CanFire(w.weapon) ==>
              r == Step(Shoot(w, now, trig).world.(rightTriggerPressed := true), Shoot(w, now, trig).sounds)
    ensures g.rightTrigger && !w.rightTriggerPressed && !CanFire(w.weapon) ==>
              r == Step(w.(rightTriggerPressed := !w.weapon.isReloading), [])
    ensures Invariant(w) ==> Invariant(r.world)
  {
    if g.rightTrigger && !w.rightTriggerPressed && !w.weapon.isReloading then
      var s := if w.weapon.canShoot then Shoot(w, now, trig) else Step(w, []);
      Step(s.world.(rightTriggerPressed := true), s.sounds)
    else if !g.rightTrigger then
      Step(w.(rightTriggerPressed := false), [])
    else
      Step(w, [])
  }

  /** The sticks of the gamepad: the left stick sets the velocity intent and
      the right stick aims once it leaves its deadzone. */
  function PadSticks(w: World, g: Gamepad, trig: Trig): (r: World)
    ensures r.(player := w.player) == w
    ensures r.player.dx == g.leftX * PlayerSpeed && r.player.dy == g.leftY * PlayerSpeed
    ensures r.player.angle == if Abs(g.rightX) > AimDeadzone || Abs(g.rightY) > AimDeadzone
                              then trig.atan2(g.rightY, g.rightX) else w.player.angle
    ensures r.player.x == w.player.x && r.player.y == w.player.y
    ensures r.player.lastFootStepTime == w.player.lastFootStepTime
  {
    var p := w.player.(dx := g.leftX * PlayerSpeed, dy := g.leftY * PlayerSpeed);
    w.(player := if Abs(g.rightX) > AimDeadzone || Abs(g.rightY) > AimDeadzone then
                   p.(angle := trig.atan2(g.rightY, g.rightX))
                 else p)
  }

  /** The X button of the gamepad: a reload request, made only while not
      reloading. */
  function PadReloadButton(s: Step, g: Gamepad, now: int): (r: Step)
    ensures r == s
  {
    if g.buttonX && !s.world.weapon.isReloading then
      Step(s.world.(weapon := Weapons.Reload(s.world.weapon, now)), s.sounds)
    else s
  }

  /** The Y button of the gamepad: a restart. */
  function PadRestartButton(s: Step, g: Gamepad): (r: Step)
    ensures !g.buttonY ==> r == s
    ensures g.buttonY ==> r == Step(Restart(s.world).world, s.sounds + [RestartSound])
  {
    if g.buttonY then
      var s3 := Restart(s.world);
      Step(s3.world, s.sounds + s3.sounds)
    else s
  }

  /** The gamepad input of one frame, when a gamepad is connected: sticks,
      right trigger, X and Y, in that order. */
  function HandleGamepad(w: World, pad: Option<Gamepad>, now: int, trig: Trig): (r: Step)
    ensures pad.None? ==> r == Step(w, [])
    ensures Invariant(w) ==> Invariant(r.world)
    ensures pad.Some? && pad.value.rightTrigger && w.rightTriggerPressed && !pad.value.buttonY ==>
              r.world.weapon == w.weapon && r.world.bullets == w.bullets && r.sounds == []
    ensures pad.Some? && pad.value.buttonY ==> r.world.bullets == [] && CanFire(r.world.weapon)
  {
    match pad
    case None => Step(w, [])
    case Some(g) =>
      PadRestartButton(PadReloadButton(PadTrigger(PadSticks(w, g, trig), g, now, trig), g, now), g)
  }

  /** The footstep check of a frame: a moving player steps audibly at most
      once per interval. */
  function Footstep(w: World, now: int): (r: Step)
    ensures r.world.(player := w.player) == w
    ensures r.world.player.(lastFootStepTime := w.player.lastFootStepTime) == w.player
    ensures r.sounds != [] <==>
              (w.player.dx != 0.0 || w.player.dy != 0.0) && now - w.player.lastFootStepTime > FootstepInterval
    ensures r.sounds != [] ==> r.sounds == [FootstepSound] && r.world.player.lastFootStepTime == now
    ensures r.sounds == [] ==> r.world == w
  {
    var p := w.player;
    if (p.dx != 0.0 || p.dy != 0.0) && now - p.lastFootStepTime > FootstepInterval then
      Step(w.(player := p.(lastFootStepTime := now)), [FootstepSound])
    else
      Step(w, [])
  }

  /** The frame update up to its footstep check: gamepad input, player
      movement and containment, bullet culling, the cooldown check and the
      shake countdown, in that order. */
  function Advance(w: World, now: int, pad: Option<Gamepad>, trig: Trig, rx: real, ry: real): (r: Step)
    ensures Invariant(w) ==> Invariant(r.world)
    ensures var before := HandleGamepad(w, pad, now, trig);
            var p := before.world.player;
            && r.sounds == before.sounds
            && r.world.player == Contain(p.(x := p.x + p.dx, y := p.y + p.dy), w.width as real, w.height as real)
            && r.world.bullets == Survivors(before.world.bullets, w.width as real, w.height as real)
            && r.world.weapon == CooldownCheck(before.world.weapon, now)
            && r.world.shake == Tick(before.world.shake, rx, ry)
            && r.world.(player := p, bullets := before.world.bullets, weapon := before.world.weapon,
                        shake := before.world.shake) == before.world
  {
    var s := HandleGamepad(w, pad, now, trig);
    var w1 := s.world;
    var moved := w1.player.(x := w1.player.x + w1.player.dx, y := w1.player.y + w1.player.dy);
    var w2 := w1.(player := Contain(moved, w1.width as real, w1.height as real));
    var w3 := w2.(bullets := Survivors(w2.bullets, w2.width as real, w2.height as real));
    var w4 := w3.(weapon := CooldownCheck(w3.weapon, now));
    var w5 := w4.(shake := Tick(w4.shake, rx, ry));
    Step(w5, s.sounds)
  }

  /** One frame. Bullets are culled before they move, so a bullet may end a
      frame just outside the canvas; the next frame removes it. */
  function Update(w: World, now: int, pad: Option<Gamepad>, trig: Trig, rx: real, ry: real): (r: Step)
    ensures Invariant(w) ==> Invariant(r.world)
    ensures r.world.width == w.width && r.world.height == w.height
    ensures PlayerSize <= w.width as real && PlayerSize <= w.height as real ==>
              Contained(r.world.player, w.width as real, w.height as real)
    ensures var before := HandleGamepad(w, pad, now, trig).world;
            && r.world.bullets == MoveAll(Survivors(before.bullets, w.width as real, w.height as real))
            && r.world.weapon == CooldownCheck(before.weapon, now)
            && r.world.shake == Tick(before.shake, rx, ry)
    ensures var before := HandleGamepad(w, pad, now, trig).world;
            r.world.player.(lastFootStepTime := before.player.lastFootStepTime) ==
              Contain(before.player.(x := before.player.x + before.player.dx, y := before.player.y + before.player.dy),
                      w.width as real, w.height as real)
    ensures var before := HandleGamepad(w, pad, now, trig).world;
            && r.world.rightTriggerPressed == before.rightTriggerPressed
            && r.world.mouseX == before.mouseX && r.world.mouseY == before.mouseY
    ensures r.sounds == HandleGamepad(w, pad, now, trig).sounds + Footstep(Advance(w, now, pad, trig, rx, ry).world, now).sounds
    ensures var a := Advance(w, now, pad, trig, rx, ry).world.player;
            r.world.player.lastFootStepTime ==
              if (a.dx != 0.0 || a.dy != 0.0) && now - a.lastFootStepTime > FootstepInterval then now else a.lastFootStepTime
  {
    var s := Advance(w, now, pad, trig, rx, ry);
    var f := Footstep(s.world, now);
    Step(f.world.(bullets := MoveAll(f.world.bullets)), s.sounds + f.sounds)
  }
}
