/**
  The game driven by a stream of browser events, and what holds of every
  such stream: the invariant, the cooldown gate, the reload gate, that
  reloading ends only on request, and the frame order of the bullets.
 */
module WorldProperties {
  import opened Weapons
  import opened Projectiles
  import opened ShakeEffect
  import opened WorldModel

  /** What the browser delivers to the game: pointer and key events, and the
      animation frames with the gamepad sample and random draws of each. */
  datatype Event =
    | MouseMoved(clientX: real, clientY: real)
    | MousePressed(button: int, at: int)
    | KeyPressed(key: string, at: int)
    | KeyReleased(key: string)
    | Frame(at: int, pad: Option<Gamepad>, rx: real, ry: real)

  /** One browser event, dispatched to its handler. */
  function Handle(w: World, e: Event, trig: Trig): (r: Step)
    ensures Invariant(w) ==> Invariant(r.world)
    ensures r.world.width == w.width && r.world.height == w.height
  {
    match e
    case MouseMoved(cx, cy) => Step(MouseMove(w, cx, cy, trig), [])
    case MousePressed(b, t) => MouseDown(w, b, t, trig)
    case KeyPressed(k, t) => KeyDown(w, k, t)
    case KeyReleased(k) => Step(KeyUp(w, k), [])
    case Frame(t, pad, rx, ry) => Update(w, t, pad, trig, rx, ry)
  }

  /** A stream of browser events, handled in arrival order; the sounds are
      those of the events in order. No event resizes the canvas. */
  function RunEvents(w: World, es: seq<Event>, trig: Trig): (r: Step)
    ensures r.world.width == w.width && r.world.height == w.height
    decreases |es|
  {
    if es == [] then Step(w, [])
    else
      var s := Handle(w, es[0], trig);
      var rest := RunEvents(s.world, es[1..], trig);
      Step(rest.world, s.sounds + rest.sounds)
  }

  /** The number of shots a list of sounds records. */
  function Shots(sounds: seq<Sound>): nat {
    multiset(sounds)[ShotSound]
  }

  /** The weapon operation of the right trigger: a fire request on the frame
      a press is first seen, unless reloading. */
  function TriggerOps(w: World, g: Gamepad, now: int): seq<WeaponOp> {
    if g.rightTrigger && !w.rightTriggerPressed && !w.weapon.isReloading then [FireRequest(now)] else []
  }

  /** The weapon operations the gamepad part of a frame performs. */
  function PadOps(w: World, pad: Option<Gamepad>, now: int): seq<WeaponOp> {
    match pad
    case None => []
    case Some(g) =>
      var fire := TriggerOps(w, g, now);
      var reload := if g.buttonX && !Run(w.weapon, fire).isReloading then [ReloadRequest(now)] else [];
      fire + reload + (if g.buttonY then [RestartRequest] else [])
  }

  /** The weapon operations one event performs. */
  function WeaponOps(w: World, e: Event): seq<WeaponOp> {
    match e
    case MouseMoved(_, _) => []
    case MousePressed(b, t) => if b == 0 then [FireRequest(t)] else []
    case KeyPressed(k, t) =>
      (if IsRestartKey(k) then [RestartRequest] else []) + (if IsReloadKey(k) then [ReloadRequest(t)] else [])
    case KeyReleased(_) => []
    case Frame(t, pad, _, _) => PadOps(w, pad, t) + [CooldownTick(t)]
  }

  function EventOps(w: World, es: seq<Event>, trig: Trig): seq<WeaponOp>
    decreases |es|
  {
    if es == [] then [] else WeaponOps(w, es[0]) + EventOps(Handle(w, es[0], trig).world, es[1..], trig)
  }

  lemma OneOp(w: WeaponState, op: WeaponOp)
    ensures Run(w, [op]) == Apply(w, op)
    ensures Fired(w, [op]) == if op.FireRequest? && CanFire(w) then 1 else 0
  {
    assert [op][1..] == [];
  }

  lemma ShootIsOneShot(w: World, now: int, trig: Trig)
    ensures Shots(WorldModel.Shoot(w, now, trig).sounds) == 1
  {
  }

  lemma PadTriggerFollowsWeaponOps(w: World, g: Gamepad, now: int, trig: Trig)
    ensures PadTrigger(w, g, now, trig).world.weapon == Run(w.weapon, TriggerOps(w, g, now))
    ensures Shots(PadTrigger(w, g, now, trig).sounds) == Fired(w.weapon, TriggerOps(w, g, now))
  {
    if TriggerOps(w, g, now) != [] {
      OneOp(w.weapon, FireRequest(now));
      if w.weapon.canShoot {
        ShootIsOneShot(w, now, trig);
      }
    }
  }

  /** The fire and reload requests of one gamepad sample. */
  function FireReloadOps(w: World, g: Gamepad, now: int): seq<WeaponOp> {
    var fire := TriggerOps(w, g, now);
    fire + (if g.buttonX && !Run(w.weapon, fire).isReloading then [ReloadRequest(now)] else [])
  }

  /** The sticks, trigger and X button of a gamepad sample change the weapon
      exactly as its fire and reload requests do. */
  lemma TriggerAndReloadFollowWeaponOps(w: World, g: Gamepad, now: int, trig: Trig)
    ensures var s := PadReloadButton(PadTrigger(PadSticks(w, g, trig), g, now, trig), g, now);
            && s.world.weapon == Run(w.weapon, FireReloadOps(w, g, now))
            && Shots(s.sounds) == Fired(w.weapon, FireReloadOps(w, g, now))
  {
    var w0 := PadSticks(w, g, trig);
    var s1 := PadTrigger(w0, g, now, trig);
    var fire := TriggerOps(w, g, now);
    assert TriggerOps(w0, g, now) == fire;
    PadTriggerFollowsWeaponOps(w0, g, now, trig);
    var reload := if g.buttonX && !Run(w.weapon, fire).isReloading then [ReloadRequest(now)] else [];
    RunAppend(w.weapon, fire, reload);
    if reload != [] {
      OneOp(Run(w.weapon, fire), ReloadRequest(now));
    }
    assert PadReloadButton(s1, g, now) == s1;
  }

  /** The gamepad part of a frame changes the weapon exactly as its weapon
      operations do. */
  lemma PadFollowsWeaponOps(w: World, pad: Option<Gamepad>, now: int, trig: Trig)
    ensures HandleGamepad(w, pad, now, trig).world.weapon == Run(w.weapon, PadOps(w, pad, now))
    ensures Shots(HandleGamepad(w, pad, now, trig).sounds) == Fired(w.weapon, PadOps(w, pad, now))
  {
    match pad
    case None =>
    case Some(g) =>
      var s2 := PadReloadButton(PadTrigger(PadSticks(w, g, trig), g, now, trig), g, now);
      TriggerAndReloadFollowWeaponOps(w, g, now, trig);
      var firstOps := FireReloadOps(w, g, now);
      var restart := if g.buttonY then [RestartRequest] else [];
      RunAppend(w.weapon, firstOps, restart);
      if restart != [] {
        OneOp(Run(w.weapon, firstOps), RestartRequest);
      }
      assert PadOps(w, pad, now) == firstOps + restart;
  }

  /** Each event changes the weapon exactly as its weapon operations do, and
      the shots it sounds are the fire requests among them that shoot. */
  lemma {:induction false} HandleFollowsWeaponOps(w: World, e: Event, trig: Trig)
    ensures Handle(w, e, trig).world.weapon == Run(w.weapon, WeaponOps(w, e))
    ensures Shots(Handle(w, e, trig).sounds) == Fired(w.weapon, WeaponOps(w, e))
  {
    match e
    case MouseMoved(_, _) =>
    case MousePressed(b, t) =>
      if b == 0 {
        OneOp(w.weapon, FireRequest(t));
        ShootIsOneShot(w, t, trig);
      }
    case KeyPressed(k, t) =>
      if IsRestartKey(k) {
        OneOp(w.weapon, RestartRequest);
      } else if IsReloadKey(k) {
        OneOp(w.weapon, ReloadRequest(t));
      }
    case KeyReleased(_) =>
    case Frame(t, pad, rx, ry) =>
      PadFollowsWeaponOps(w, pad, t, trig);
      var pad1 := HandleGamepad(w, pad, t, trig);
      var adv := Advance(w, t, pad, trig, rx, ry);
      var f := Footstep(adv.world, t);
      assert adv.sounds == pad1.sounds;
      assert Update(w, t, pad, trig, rx, ry).sounds == pad1.sounds + f.sounds;
      assert Shots(f.sounds) == 0;
      RunAppend(w.weapon, PadOps(w, pad, t), [CooldownTick(t)]);
      OneOp(pad1.world.weapon, CooldownTick(t));
  }

  /** A stream of events changes the weapon exactly as the concatenation of
      its weapon operations does, and sounds one shot per shooting request. */
  lemma {:induction false} RunEventsFollowsWeaponOps(w: World, es: seq<Event>, trig: Trig)
    ensures RunEvents(w, es, trig).world.weapon == Run(w.weapon, EventOps(w, es, trig))
    ensures Shots(RunEvents(w, es, trig).sounds) == Fired(w.weapon, EventOps(w, es, trig))
    decreases |es|
  {
    if es != [] {
      var s := Handle(w, es[0], trig);
      HandleFollowsWeaponOps(w, es[0], trig);
      RunEventsFollowsWeaponOps(s.world, es[1..], trig);
      RunAppend(w.weapon, WeaponOps(w, es[0]), EventOps(s.world, es[1..], trig));
    }
  }

  /** The invariant holds in every state the game reaches from its start. */
  lemma {:induction false} RunEventsKeepsInvariant(w: World, es: seq<Event>, trig: Trig)
    requires Invariant(w)
    ensures Invariant(RunEvents(w, es, trig).world)
    decreases |es|
  {
    if es != [] {
      var s := Handle(w, es[0], trig);
      assert Invariant(s.world);
      RunEventsKeepsInvariant(s.world, es[1..], trig);
    }
  }

  /** Whether an event restarts the game. */
  predicate IsRestart(e: Event) {
    || (e.KeyPressed? && IsRestartKey(e.key))
    || (e.Frame? && e.pad.Some? && e.pad.value.buttonY)
  }

  /** Whether an event carries the time it happened at. */
  predicate Timed(e: Event) {
    e.MousePressed? || e.KeyPressed? || e.Frame?
  }

  /** No event restarts the game and every timed event lies in [from, until). */
  predicate Unrestarted(es: seq<Event>, from: int, until: int) {
    forall i :: 0 <= i < |es| ==> !IsRestart(es[i]) && (Timed(es[i]) ==> from <= es[i].at < until)
  }

  /** Weapon operations that are no restarts and lie in [from, until). */
  predicate OpsWithin(ops: seq<WeaponOp>, from: int, until: int) {
    forall i :: 0 <= i < |ops| ==> !ops[i].RestartRequest? && from <= ops[i].time < until
  }

  lemma OpsWithinAppend(a: seq<WeaponOp>, b: seq<WeaponOp>, from: int, until: int)
    requires OpsWithin(a, from, until) && OpsWithin(b, from, until)
    ensures OpsWithin(a + b, from, until)
  {
    forall i | 0 <= i < |a + b| ensures !(a + b)[i].RestartRequest? && from <= (a + b)[i].time < until {
      if i >= |a| {
        assert (a + b)[i] == b[i - |a|];
      }
    }
  }

  lemma EventOpsWithin(w: World, e: Event, from: int, until: int)
    requires !IsRestart(e) && (Timed(e) ==> from <= e.at < until)
    ensures OpsWithin(WeaponOps(w, e), from, until)
  {
    if e.Frame? {
      OpsWithinAppend(PadOps(w, e.pad, e.at), [CooldownTick(e.at)], e.at, e.at + 1);
    }
  }

  lemma {:induction false} StreamOpsWithin(w: World, es: seq<Event>, trig: Trig, from: int, until: int)
    requires Unrestarted(es, from, until)
    ensures OpsWithin(EventOps(w, es, trig), from, until)
    decreases |es|
  {
    if es != [] {
      assert !IsRestart(es[0]) && (Timed(es[0]) ==> from <= es[0].at < until);
      EventOpsWithin(w, es[0], from, until);
      assert Unrestarted(es[1..], from, until) by {
        forall i | 0 <= i < |es[1..]|
          ensures !IsRestart(es[1..][i]) && (Timed(es[1..][i]) ==> from <= es[1..][i].at < until)
        {
          assert es[1..][i] == es[i + 1];
        }
      }
      StreamOpsWithin(Handle(w, es[0], trig).world, es[1..], trig, from, until);
      OpsWithinAppend(WeaponOps(w, es[0]), EventOps(Handle(w, es[0], trig).world, es[1..], trig), from, until);
    }
  }

  /** The cooldown gate for the whole game: whatever mouse clicks, key
      presses, gamepad triggers and frames arrive within a span shorter than
      the cooldown, at most one shot is fired in it, unless the game is
      restarted. */
  lemma OneShotPerCooldown(w: World, es: seq<Event>, trig: Trig, t0: int)
    requires Unrestarted(es, t0, t0 + ShootCooldown)
    ensures Shots(RunEvents(w, es, trig).sounds) <= 1
  {
    RunEventsFollowsWeaponOps(w, es, trig);
    var ops := EventOps(w, es, trig);
    StreamOpsWithin(w, es, trig, t0, t0 + ShootCooldown);
    assert NoRestartBefore(ops, t0 + ShootCooldown);
    AtMostOneShotPerCooldown(w.weapon, t0, ops);
  }

  /** The reload gate for the whole game: once reloading, no event before the
      reload time has elapsed fires a shot or ends the reload, unless the game
      is restarted. */
  lemma ReloadBlocksEveryEvent(w: World, es: seq<Event>, trig: Trig)
    requires w.weapon.isReloading
    requires Unrestarted(es, w.weapon.lastReloadTime, w.weapon.lastReloadTime + ReloadCooldown)
    ensures Shots(RunEvents(w, es, trig).sounds) == 0
    ensures RunEvents(w, es, trig).world.weapon.isReloading
  {
    RunEventsFollowsWeaponOps(w, es, trig);
    var ops := EventOps(w, es, trig);
    StreamOpsWithin(w, es, trig, w.weapon.lastReloadTime, w.weapon.lastReloadTime + ReloadCooldown);
    assert NoRestartBefore(ops, w.weapon.lastReloadTime + ReloadCooldown);
    ReloadBlocksUntilElapsed(w.weapon, ops);
  }

  /** Reloading ends only on an explicit reload key (or a restart): frames
      never complete it, whatever time has passed, and neither does the
      gamepad's reload button. */
  lemma ReloadEndsOnlyOnRequest(w: World, e: Event, trig: Trig)
    requires w.weapon.isReloading && !IsRestart(e)
    requires !(e.KeyPressed? && IsReloadKey(e.key))
    ensures Handle(w, e, trig).world.weapon.isReloading
  {
    HandleFollowsWeaponOps(w, e, trig);
    if e.Frame? && e.pad.Some? {
      assert PadOps(w, e.pad, e.at) == [];
      OneOp(w.weapon, CooldownTick(e.at));
    } else if e.Frame? {
      OneOp(w.weapon, CooldownTick(e.at));
    } else if e.MousePressed? && e.button == 0 {
      OneOp(w.weapon, FireRequest(e.at));
    }
  }

  /** The gamepad's reload button has no effect: it asks for a reload only
      while not reloading, and a reload request acts only while reloading. */
  lemma GamepadReloadButtonDoesNothing(w: World, g: Gamepad, now: int, trig: Trig)
    ensures HandleGamepad(w, Some(g), now, trig) == HandleGamepad(w, Some(g.(buttonX := false)), now, trig)
  {
  }

  /** Holding the right trigger fires once: the frame after the press does
      not shoot again while the trigger stays down. */
  lemma HeldTriggerFiresOnce(w: World, g: Gamepad, t1: int, t2: int, trig: Trig)
    requires g.rightTrigger && !g.buttonY
    ensures var after := HandleGamepad(w, Some(g), t1, trig).world;
            after.rightTriggerPressed || after.weapon.isReloading
    ensures var after := HandleGamepad(w, Some(g), t1, trig).world;
            after.rightTriggerPressed ==>
              Shots(HandleGamepad(after, Some(g), t2, trig).sounds) == 0
  {
    var after := HandleGamepad(w, Some(g), t1, trig).world;
    if after.rightTriggerPressed {
      PadFollowsWeaponOps(after, Some(g), t2, trig);
      var ops := PadOps(after, Some(g), t2);
      assert TriggerOps(after, g, t2) == [];
      if ops != [] {
        assert ops == [ReloadRequest(t2)];
        OneOp(after.weapon, ReloadRequest(t2));
      }
    }
  }

  /** Bullets are culled before they move: a bullet on the right edge survives
      the frame's check and ends the frame off the canvas, and the next frame
      removes it. */
  lemma BulletMayEndFrameOffScreen()
    ensures var trig := Trig(a => 1.0, a => 0.0, (y, x) => 0.0);
            var w := WorldModel.Initial(800, 600).(bullets := [Bullet(800.0, 300.0, BulletRadius, BulletSpeed, 0.0)]);
            var once := Update(w, 0, None, trig, 0.0, 0.0).world;
            && |once.bullets| == 1
            && OffScreen(once.bullets[0], 800.0, 600.0)
            && Update(once, 16, None, trig, 0.0, 0.0).world.bullets == []
  {
    var b := Bullet(800.0, 300.0, BulletRadius, BulletSpeed, 0.0);
    assert Survivors([b], 800.0, 600.0) == [b] by {
      assert [b][..0] == [];
    }
    var moved := Moved(b);
    assert Survivors([moved], 800.0, 600.0) == [] by {
      assert [moved][..0] == [];
    }
  }

  /** Every bullet a frame leaves in flight passed that frame's check one
      movement earlier: in particular it is within one velocity step of the
      canvas. */
  lemma BulletsWithinOneStepAfterFrame(w: World, now: int, pad: Option<Gamepad>, trig: Trig, rx: real, ry: real)
    ensures var r := Update(w, now, pad, trig, rx, ry).world;
            forall i :: 0 <= i < |r.bullets| ==>
              !OffScreen(r.bullets[i].(x := r.bullets[i].x - r.bullets[i].dx, y := r.bullets[i].y - r.bullets[i].dy),
                         w.width as real, w.height as real)
  {
    var before := HandleGamepad(w, pad, now, trig).world;
    var kept := Survivors(before.bullets, w.width as real, w.height as real);
    var r := Update(w, now, pad, trig, rx, ry).world;
    SurvivorsMembers(before.bullets, w.width as real, w.height as real);
    forall i | 0 <= i < |r.bullets|
      ensures !OffScreen(r.bullets[i].(x := r.bullets[i].x - r.bullets[i].dx, y := r.bullets[i].y - r.bullets[i].dy),
                         w.width as real, w.height as real)
    {
      assert r.bullets[i] == Moved(kept[i]);
      assert kept[i] in kept;
      assert r.bullets[i].(x := r.bullets[i].x - r.bullets[i].dx, y := r.bullets[i].y - r.bullets[i].dy) == kept[i];
    }
  }
}
