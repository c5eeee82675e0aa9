/**
  The game as the browser runs it: a player object and the module-level
  variables, updated in place by the input handlers and the frame update.
  Every method is proved to change the state exactly as the function named
  in its postcondition says (a function of module WorldModel, Weapons,
  Projectiles or ShakeEffect); the properties proved of those functions
  therefore hold of this game.
 */
module Shooter {
  import Weapons
  import opened Projectiles
  import opened Containment
  import opened ShakeEffect
  import W = WorldModel

  /** One pass of the in-place collision check: with the first `k` bullets of
      `original` examined, the list holds their survivors followed by the rest;
      dropping or keeping bullet `k` gives the same shape for `k + 1`. */
  lemma SpliceStep(original: seq<Bullet>, k: int, bullets: seq<Bullet>, width: real, height: real)
    requires 0 <= k < |original|
    requires bullets == Survivors(original[..k], width, height) + original[k..]
    ensures var i := |Survivors(original[..k], width, height)|;
            && i < |bullets| && bullets[i] == original[k]
            && (OffScreen(original[k], width, height) ==>
                  bullets[..i] + bullets[i + 1..] == Survivors(original[..k + 1], width, height) + original[k + 1..])
            && (!OffScreen(original[k], width, height) ==>
                  bullets == Survivors(original[..k + 1], width, height) + original[k + 1..])
  {
    var kept := Survivors(original[..k], width, height);
    SurvivorsExtend(original, k, width, height);
    assert original[k..] == [original[k]] + original[k + 1..];
    if OffScreen(original[k], width, height) {
      assert bullets[..|kept|] + bullets[|kept| + 1..] == kept + original[k + 1..];
    } else {
      assert bullets == (kept + [original[k]]) + original[k + 1..];
    }
  }

  /** The player object. Its size, speed and gun length never change. */
  class Player {
    var x: real
    var y: real
    var dx: real
    var dy: real
    var angle: real
    var lastFootStepTime: int
    const size: real := W.PlayerSize
    const speed: real := W.PlayerSpeed
    const gunLength: real := W.GunLength

    ghost function State(): W.PlayerState
      reads this
    {
      W.PlayerState(x, y, dx, dy, angle, lastFootStepTime)
    }

    constructor (x0: real, y0: real)
      ensures State() == W.PlayerState(x0, y0, 0.0, 0.0, 0.0, 0)
    {
      x, y := x0, y0;
      dx, dy, angle := 0.0, 0.0, 0.0;
      lastFootStepTime := 0;
    }
  }

  class Game {
    /** The canvas size, fixed when the page loads. */
    const width: nat
    const height: nat
    const player: Player

    var bullets: seq<Bullet>

    var canShoot: bool
    var lastShotTime: int
    var rightTriggerPressed: bool

    var isReloading: bool
    var lastReloadTime: int
    var shotsFired: int

    var mouseX: real
    var mouseY: real

    var shakeOffsetX: real
    var shakeOffsetY: real
    var shakeDuration: int

    /** The gun's variables as a value. */
    ghost function Weapon(): Weapons.WeaponState
      reads this
    {
      Weapons.WeaponState(canShoot, isReloading, shotsFired, lastShotTime, lastReloadTime)
    }

    /** The screen shake's variables as a value. */
    ghost function ShakeState(): Shake
      reads this
    {
      Shake(shakeOffsetX, shakeOffsetY, shakeDuration)
    }

    /** The game state as a value. */
    ghost function State(): W.World
      reads this, player
    {
      W.World(width, height, player.State(), bullets, Weapon(), ShakeState(),
              rightTriggerPressed, mouseX, mouseY)
    }

    /** Page load: the player in the middle of the canvas, everything else at
        its initial value. */
    constructor (width: nat, height: nat)
      ensures State() == W.Initial(width, height)
      ensures fresh(player)
    {
      this.width := width;
      this.height := height;
      player := new Player(width as real / 2.0, height as real / 2.0);
      bullets := [];
      canShoot := true;
      lastShotTime := 0;
      rightTriggerPressed := false;
      isReloading := false;
      lastReloadTime := 0;
      shotsFired := 0;
      mouseX, mouseY := 0.0, 0.0;
      shakeOffsetX, shakeOffsetY, shakeDuration := 0.0, 0.0, 0;
    }

    /** Fires one bullet from the gun barrel along the player's aim. */
    method Shoot(now: int, trig: W.Trig) returns (sounds: seq<W.Sound>)
      modifies this
      ensures W.Step(State(), sounds) == W.Shoot(old(State()), now, trig)
    {
      ghost var before := State();
      var gunEndX := player.x + trig.cos(player.angle) * player.gunLength;
      var gunEndY := player.y + trig.sin(player.angle) * player.gunLength;
      var velocityX := trig.cos(player.angle) * BulletSpeed;
      var velocityY := trig.sin(player.angle) * BulletSpeed;
      bullets := bullets + [Bullet(gunEndX, gunEndY, BulletRadius, velocityX, velocityY)];

      sounds := CountShot(now);

      shakeDuration := ShakeFrames;
      sounds := sounds + [W.ShotSound];
      assert State() == before.(bullets := bullets, weapon := Weapons.Shoot(before.weapon, now),
                                shake := before.shake.(duration := ShakeFrames));
    }

    /** The magazine counts the shot; the last round starts a reload, any
        other starts the shot cooldown. */
    method CountShot(now: int) returns (sounds: seq<W.Sound>)
      modifies this`shotsFired, this`canShoot, this`isReloading, this`lastReloadTime, this`lastShotTime
      ensures Weapon() == Weapons.Shoot(old(Weapon()), now)
      ensures sounds == if old(shotsFired) + 1 >= Weapons.MagazineSize then [W.ReloadSound] else []
    {
      shotsFired := shotsFired + 1;
      if shotsFired >= Weapons.MagazineSize {
        canShoot := false;
        isReloading := true;
        sounds := [W.ReloadSound];
        lastReloadTime := now;
      } else {
        lastShotTime := now;
        canShoot := false;
        sounds := [];
      }
    }

    /** Ends the reload once the reload time has elapsed. */
    method Reload(now: int)
      modifies this
      ensures State() == old(State()).(weapon := Weapons.Reload(old(State()).weapon, now))
    {
      if isReloading {
        if now - lastReloadTime >= Weapons.ReloadCooldown {
          isReloading := false;
          shotsFired := 0;
          canShoot := true;
        }
      }
    }

    /** Clamps a character's square to the canvas. */
    method PreventEdgeCollision(character: Player)
      modifies character`x, character`y
      ensures character.State() == W.Contain(old(character.State()), width as real, height as real)
    {
      if character.x - character.size / 2.0 < 0.0 {
        character.x := character.size / 2.0;
      }
      if character.x + character.size / 2.0 > width as real {
        character.x := width as real - character.size / 2.0;
      }
      if character.y - character.size / 2.0 < 0.0 {
        character.y := character.size / 2.0;
      }
      if character.y + character.size / 2.0 > height as real {
        character.y := height as real - character.size / 2.0;
      }
    }

    /** Removes the off-screen bullets in place. Each removal shifts the rest
        of the list down by one and steps the index back, so the bullet that
        moves into the freed slot is examined next. */
    method CheckBulletCollision()
      modifies this`bullets
      ensures bullets == Survivors(old(bullets), width as real, height as real)
    {
      ghost var original := bullets;
      ghost var k := 0;
      var i: int := 0;
      while i < |bullets|
        invariant 0 <= k <= |original|
        invariant bullets == Survivors(original[..k], width as real, height as real) + original[k..]
        invariant i == |Survivors(original[..k], width as real, height as real)|
        decreases |bullets| - i
      {
        SpliceStep(original, k, bullets, width as real, height as real);
        var bullet := bullets[i];
        if bullet.x < 0.0 || bullet.x > width as real || bullet.y < 0.0 || bullet.y > height as real {
          bullets := bullets[..i] + bullets[i + 1..];
          i := i - 1;
        }
        i := i + 1;
        k := k + 1;
      }
      assert original[..k] == original;
    }

    /** Adds each bullet's velocity to its position, in place. */
    method MoveBullets()
      modifies this`bullets
      ensures bullets == MoveAll(old(bullets))
    {
      ghost var original := bullets;
      for i := 0 to |bullets|
        invariant |bullets| == |original|
        invariant forall j :: 0 <= j < i ==> bullets[j] == Moved(original[j])
        invariant forall j :: i <= j < |bullets| ==> bullets[j] == original[j]
      {
        var bullet := bullets[i];
        bullets := bullets[i := bullet.(x := bullet.x + bullet.dx, y := bullet.y + bullet.dy)];
      }
    }

    /** Puts the game back to its initial state. */
    method RestartGame() returns (sounds: seq<W.Sound>)
      modifies this, player
      ensures W.Step(State(), sounds) == W.Restart(old(State()))
    {
      sounds := [W.RestartSound];

      ResetPlayer();

      bullets := [];

      canShoot := true;
      shotsFired := 0;
      isReloading := false;
      lastShotTime := 0;
      assert Weapon() == Weapons.Restart(old(Weapon()));

      shakeOffsetX := 0.0;
      shakeOffsetY := 0.0;
      shakeDuration := 0;
    }

    /** The player back at the centre of the canvas, at rest, aiming right. */
    method ResetPlayer()
      modifies player
      ensures player.State() == W.PlayerState(width as real / 2.0, height as real / 2.0, 0.0, 0.0, 0.0, 0)
    {
      player.x := width as real / 2.0;
      player.y := height as real / 2.0;
      player.dx := 0.0;
      player.dy := 0.0;
      player.angle := 0.0;
      player.lastFootStepTime := 0;
    }

    method MouseMove(clientX: real, clientY: real, trig: W.Trig)
      modifies this, player
      ensures State() == W.MouseMove(old(State()), clientX, clientY, trig)
    {
      mouseX := clientX;
      mouseY := clientY;
      player.angle := trig.atan2(mouseY - player.y, mouseX - player.x);
    }

    method MouseDown(button: int, now: int, trig: W.Trig) returns (sounds: seq<W.Sound>)
      modifies this
      ensures W.Step(State(), sounds) == W.MouseDown(old(State()), button, now, trig)
      ensures W.Invariant(old(State())) ==> W.Invariant(State())
    {
      sounds := [];
      if button == 0 {
        if canShoot && !isReloading {
          sounds := Shoot(now, trig);
        }
      }
    }

    method KeyDown(key: string, now: int) returns (sounds: seq<W.Sound>)
      modifies this, player
      ensures W.Step(State(), sounds) == W.KeyDown(old(State()), key, now)
      ensures W.Invariant(old(State())) ==> W.Invariant(State())
    {
      if key == "w" || key == "ArrowUp" {
        player.dy := -player.speed;
      }
      if key == "s" || key == "ArrowDown" {
        player.dy := player.speed;
      }
      if key == "a" || key == "ArrowLeft" {
        player.dx := -player.speed;
      }
      if key == "d" || key == "ArrowRight" {
        player.dx := player.speed;
      }

      sounds := [];
      if key == "p" || key == "P" {
        sounds := RestartGame();
      }

      if key == "r" || key == "R" {
        Reload(now);
      }
    }

    method KeyUp(key: string)
      modifies player
      ensures State() == W.KeyUp(old(State()), key)
    {
      if key == "w" || key == "ArrowUp" || key == "s" || key == "ArrowDown" {
        player.dy := 0.0;
      }
      if key == "a" || key == "ArrowLeft" || key == "d" || key == "ArrowRight" {
        player.dx := 0.0;
      }
    }

    /** The gamepad part of a frame; `pad` is the first gamepad, if any. */
    method HandleGamepadInput(pad: W.Option<W.Gamepad>, now: int, trig: W.Trig) returns (sounds: seq<W.Sound>)
      modifies this, player
      ensures W.Step(State(), sounds) == W.HandleGamepad(old(State()), pad, now, trig)
    {
      sounds := [];
      if pad.Some? {
        var gamepad := pad.value;
        PadSticks(gamepad, trig);
        ghost var aimed := State();

        sounds := PadTrigger(gamepad, now, trig);
        ghost var triggered := W.PadTrigger(aimed, gamepad, now, trig);

        if gamepad.buttonX && !isReloading {
          Reload(now);
        }
        assert W.Step(State(), sounds) == W.PadReloadButton(triggered, gamepad, now);

        if gamepad.buttonY {
          var restartSounds := RestartGame();
          sounds := sounds + restartSounds;
        }
      }
    }

    /** The left stick sets the velocity; the right stick aims once it is
        pushed past the dead zone. */
    method PadSticks(gamepad: W.Gamepad, trig: W.Trig)
      modifies player`dx, player`dy, player`angle
      ensures State() == W.PadSticks(old(State()), gamepad, trig)
    {
      player.dx := gamepad.leftX * player.speed;
      player.dy := gamepad.leftY * player.speed;
      if W.Abs(gamepad.rightX) > W.AimDeadzone || W.Abs(gamepad.rightY) > W.AimDeadzone {
        player.angle := trig.atan2(gamepad.rightY, gamepad.rightX);
      }
    }

    /** The right trigger fires once per press, and not while reloading. */
    method PadTrigger(gamepad: W.Gamepad, now: int, trig: W.Trig) returns (sounds: seq<W.Sound>)
      modifies this
      ensures W.Step(State(), sounds) == W.PadTrigger(old(State()), gamepad, now, trig)
    {
      sounds := [];
      if gamepad.rightTrigger && !rightTriggerPressed && !isReloading {
        if canShoot {
          sounds := Shoot(now, trig);
        }
        rightTriggerPressed := true;
      } else if !gamepad.rightTrigger {
        rightTriggerPressed := false;
      }
    }

    /** The player moves by its velocity and is kept on the canvas (part of
        a frame). */
    method MovePlayer()
      modifies player`x, player`y
      ensures player.State() ==
                W.Contain(old(player.State()).(x := old(player.x) + player.dx, y := old(player.y) + player.dy),
                          width as real, height as real)
    {
      player.x := player.x + player.dx;
      player.y := player.y + player.dy;
      PreventEdgeCollision(player);
    }

    /** The gun may fire again once the cooldown has elapsed since the last
        shot (part of a frame). */
    method CheckShootCooldown(now: int)
      modifies this`canShoot
      ensures Weapon() == Weapons.CooldownCheck(old(Weapon()), now)
    {
      if now - lastShotTime >= Weapons.ShootCooldown {
        canShoot := true;
      }
    }

    /** The screen shake takes a new random offset while it lasts, and rests
        at the origin afterwards (part of a frame). */
    method UpdateShake(rx: real, ry: real)
      modifies this`shakeOffsetX, this`shakeOffsetY, this`shakeDuration
      ensures ShakeState() == Tick(old(ShakeState()), rx, ry)
    {
      if shakeDuration > 0 {
        shakeOffsetX := rx * ShakeIntensity - ShakeIntensity / 2.0;
        shakeOffsetY := ry * ShakeIntensity - ShakeIntensity / 2.0;
        shakeDuration := shakeDuration - 1;
      } else {
        shakeOffsetX := 0.0;
        shakeOffsetY := 0.0;
      }
    }

    /** A footstep sounds when the player is moving and the last one is long
        enough ago (part of a frame). */
    method PlayFootstep(now: int) returns (sounds: seq<W.Sound>)
      modifies player`lastFootStepTime
      ensures W.Step(State(), sounds) == W.Footstep(old(State()), now)
    {
      sounds := [];
      if (player.dx != 0.0 || player.dy != 0.0) && now - player.lastFootStepTime > W.FootstepInterval {
        sounds := [W.FootstepSound];
        player.lastFootStepTime := now;
      }
    }

    /** The first part of a frame, up to the screen shake: gamepad input,
        player movement and clamping, the collision check, the shot cooldown
        and the shake. */
    method Advance(now: int, pad: W.Option<W.Gamepad>, trig: W.Trig, rx: real, ry: real) returns (sounds: seq<W.Sound>)
      modifies this, player
      ensures W.Step(State(), sounds) == W.Advance(old(State()), now, pad, trig, rx, ry)
    {
      sounds := HandleGamepadInput(pad, now, trig);
      ghost var padded := State();

      MovePlayer();
      ghost var contained := State();

      CheckBulletCollision();
      CheckShootCooldown(now);
      UpdateShake(rx, ry);
      assert State() == contained.(bullets := Survivors(contained.bullets, width as real, height as real),
                                   weapon := Weapons.CooldownCheck(contained.weapon, now),
                                   shake := Tick(contained.shake, rx, ry));
    }

    /** One animation frame. */
    method Update(now: int, pad: W.Option<W.Gamepad>, trig: W.Trig, rx: real, ry: real) returns (sounds: seq<W.Sound>)
      modifies this, player
      ensures W.Step(State(), sounds) == W.Update(old(State()), now, pad, trig, rx, ry)
      ensures W.Invariant(old(State())) ==> W.Invariant(State())
      ensures W.PlayerSize <= width as real && W.PlayerSize <= height as real ==>
                W.Contained(player.State(), width as real, height as real)
    {
      sounds := Advance(now, pad, trig, rx, ry);
      ghost var advanced := State();

      var footstep := PlayFootstep(now);
      sounds := sounds + footstep;
      assert W.Step(State(), footstep) == W.Footstep(advanced, now);

      MoveBullets();
    }
  }
}
