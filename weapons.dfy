/**
  The weapon state machine of the shooter: a magazine of 15 shots, a 250 ms
  cooldown between shots and a 2000 ms reload that is entered by the shot that
  empties the magazine and left only by an explicit reload request.

  Times are the integer milliseconds the host clock reports; the model takes
  them as parameters.
 */
module Weapons {

  const MagazineSize: int := 15
  const ShootCooldown: int := 250
  const ReloadCooldown: int := 2000

  /** The module-level weapon variables of the game. */
  datatype WeaponState = WeaponState(
    canShoot: bool,
    isReloading: bool,
    shotsFired: int,
    lastShotTime: int,
    lastReloadTime: int)

  /** The values the weapon variables start with. */
  const Initial: WeaponState := WeaponState(true, false, 0, 0, 0)

  /** The magazine counter stays within the magazine, and the weapon is
      reloading exactly when the magazine is empty. */
  predicate Valid(w: WeaponState) {
    && 0 <= w.shotsFired <= MagazineSize
    && (w.isReloading <==> w.shotsFired == MagazineSize)
  }

  /** The guard the fire handlers test before they shoot. */
  predicate CanFire(w: WeaponState) {
    w.canShoot && !w.isReloading
  }

  /** The weapon part of one shot. The shot that empties the magazine starts
      the reload (and leaves the cooldown timestamp alone); every other shot
      starts the cooldown. */
  function Shoot(w: WeaponState, now: int): (r: WeaponState)
    ensures r.shotsFired == w.shotsFired + 1 && !r.canShoot
    ensures r.isReloading <==> w.isReloading || w.shotsFired + 1 >= MagazineSize
    ensures r.isReloading && !w.isReloading ==>
              r.lastReloadTime == now && r.lastShotTime == w.lastShotTime
    ensures !r.isReloading ==>
              r.lastShotTime == now && r.lastReloadTime == w.lastReloadTime
    ensures Valid(w) && !w.isReloading ==> Valid(r)
  {
    var fired := w.shotsFired + 1;
    if fired >= MagazineSize then
      w.(shotsFired := fired, canShoot := false, isReloading := true, lastReloadTime := now)
    else
      w.(shotsFired := fired, lastShotTime := now, canShoot := false)
  }

  /** A reload request: it acts only while reloading and only once the reload
      time has elapsed, and then refills the magazine. */
  function Reload(w: WeaponState, now: int): (r: WeaponState)
    ensures r != w <==> w.isReloading && now - w.lastReloadTime >= ReloadCooldown
    ensures r != w ==> CanFire(r) && r.shotsFired == 0
    ensures r.lastShotTime == w.lastShotTime && r.lastReloadTime == w.lastReloadTime
    ensures Valid(w) ==> Valid(r)
  {
    if w.isReloading && now - w.lastReloadTime >= ReloadCooldown then
      w.(isReloading := false, shotsFired := 0, canShoot := true)
    else
      w
  }

  /** The per-frame cooldown check: firing is permitted again once the
      cooldown has passed since the last recorded shot. It never revokes
      permission and touches nothing else. */
  function CooldownCheck(w: WeaponState, now: int): (r: WeaponState)
    ensures r.canShoot <==> w.canShoot || now - w.lastShotTime >= ShootCooldown
    ensures r.(canShoot := w.canShoot) == w
    ensures Valid(w) ==> Valid(r)
  {
    if now - w.lastShotTime >= ShootCooldown then w.(canShoot := true) else w
  }

  /** The weapon part of a restart: the initial weapon, except that the reload
      timestamp keeps its value. */
  function Restart(w: WeaponState): (r: WeaponState)
    ensures Valid(r) && CanFire(r) && r.shotsFired == 0
    ensures r == Initial.(lastReloadTime := w.lastReloadTime)
  {
    w.(canShoot := true, shotsFired := 0, isReloading := false, lastShotTime := 0)
  }

  /** Everything that can happen to the weapon, as the event handlers and the
      frame update drive it. */
  datatype WeaponOp =
    | FireRequest(time: int)
    | ReloadRequest(time: int)
    | CooldownTick(time: int)
    | RestartRequest

  function Apply(w: WeaponState, op: WeaponOp): WeaponState {
    match op
    case FireRequest(t) => if CanFire(w) then Shoot(w, t) else w
    case ReloadRequest(t) => Reload(w, t)
    case CooldownTick(t) => CooldownCheck(w, t)
    case RestartRequest => Restart(w)
  }

  function Run(w: WeaponState, ops: seq<WeaponOp>): WeaponState
    decreases |ops|
  {
    if ops == [] then w else Run(Apply(w, ops[0]), ops[1..])
  }

  /** How many of the fire requests in `ops` actually shoot. */
  function Fired(w: WeaponState, ops: seq<WeaponOp>): nat
    decreases |ops|
  {
    if ops == [] then 0
    else (if ops[0].FireRequest? && CanFire(w) then 1 else 0) + Fired(Apply(w, ops[0]), ops[1..])
  }

  lemma {:induction false} RunAppend(w: WeaponState, a: seq<WeaponOp>, b: seq<WeaponOp>)
    ensures Run(w, a + b) == Run(Run(w, a), b)
    ensures Fired(w, a + b) == Fired(w, a) + Fired(Run(w, a), b)
    decreases |a|
  {
    if a == [] {
      assert a + b == b;
    } else {
      assert (a + b)[0] == a[0];
      assert (a + b)[1..] == a[1..] + b;
      RunAppend(Apply(w, a[0]), a[1..], b);
    }
  }

  /** Every operation keeps the magazine invariant. */
  lemma {:induction false} RunKeepsValid(w: WeaponState, ops: seq<WeaponOp>)
    requires Valid(w)
    ensures Valid(Run(w, ops))
    decreases |ops|
  {
    if ops != [] {
      RunKeepsValid(Apply(w, ops[0]), ops[1..]);
    }
  }

  /** All operations come before `deadline` and none is a restart. */
  predicate NoRestartBefore(ops: seq<WeaponOp>, deadline: int) {
    forall i :: 0 <= i < |ops| ==> !ops[i].RestartRequest? && ops[i].time < deadline
  }

  /** The state right after a shot taken at `t`: either cooling down from `t`
      or reloading since `t`. */
  predicate BlockedSince(w: WeaponState, t: int) {
    || (w.isReloading && w.lastReloadTime == t)
    || (!w.isReloading && !w.canShoot && w.lastShotTime == t)
  }

  lemma {:induction false} BlockedStaysBlocked(w: WeaponState, t: int, ops: seq<WeaponOp>)
    requires BlockedSince(w, t)
    requires NoRestartBefore(ops, t + ShootCooldown)
    ensures Fired(w, ops) == 0 && BlockedSince(Run(w, ops), t)
    decreases |ops|
  {
    if ops != [] {
      assert NoRestartBefore(ops[1..], t + ShootCooldown) by {
        forall i | 0 <= i < |ops[1..]| ensures !ops[1..][i].RestartRequest? && ops[1..][i].time < t + ShootCooldown {
          assert ops[1..][i] == ops[i + 1];
        }
      }
      assert !ops[0].RestartRequest? && ops[0].time < t + ShootCooldown;
      BlockedStaysBlocked(Apply(w, ops[0]), t, ops[1..]);
    }
  }

  /** Cooldown gate: however the fire, reload and cooldown operations of a
      window shorter than the cooldown interleave, at most one shot is fired
      in it (unless the game is restarted). */
  lemma {:induction false} AtMostOneShotPerCooldown(w: WeaponState, t0: int, ops: seq<WeaponOp>)
    requires NoRestartBefore(ops, t0 + ShootCooldown)
    requires forall i :: 0 <= i < |ops| ==> t0 <= ops[i].time
    ensures Fired(w, ops) <= 1
    decreases |ops|
  {
    if ops != [] {
      var rest := ops[1..];
      assert NoRestartBefore(rest, t0 + ShootCooldown) && forall i :: 0 <= i < |rest| ==> t0 <= rest[i].time by {
        forall i | 0 <= i < |rest|
          ensures !rest[i].RestartRequest? && t0 <= rest[i].time < t0 + ShootCooldown
        {
          assert rest[i] == ops[i + 1];
        }
      }
      var op := ops[0];
      assert !op.RestartRequest? && t0 <= op.time < t0 + ShootCooldown;
      if op.FireRequest? && CanFire(w) {
        assert NoRestartBefore(rest, op.time + ShootCooldown) by {
          forall i | 0 <= i < |rest| ensures !rest[i].RestartRequest? && rest[i].time < op.time + ShootCooldown {
            assert rest[i] == ops[i + 1];
          }
        }
        BlockedStaysBlocked(Apply(w, op), op.time, rest);
      } else {
        AtMostOneShotPerCooldown(Apply(w, op), t0, rest);
      }
    }
  }

  /** Two fire requests at least a cooldown apart, with a frame's cooldown
      check between them, both shoot while the magazine lasts. */
  lemma SecondShotAfterCooldown(w: WeaponState, t1: int, t2: int)
    requires Valid(w) && CanFire(w) && w.shotsFired + 1 < MagazineSize
    requires t2 - t1 >= ShootCooldown
    ensures Fired(w, [FireRequest(t1), CooldownTick(t2), FireRequest(t2)]) == 2
  {
    var w1 := Shoot(w, t1);
    var w2 := CooldownCheck(w1, t2);
    assert CanFire(w2);
    assert Fired(w2, [FireRequest(t2)]) == 1 by {
      assert [FireRequest(t2)][1..] == [];
    }
    assert Fired(w1, [CooldownTick(t2), FireRequest(t2)]) == 1 by {
      assert [CooldownTick(t2), FireRequest(t2)][1..] == [FireRequest(t2)];
    }
    assert [FireRequest(t1), CooldownTick(t2), FireRequest(t2)][1..] == [CooldownTick(t2), FireRequest(t2)];
  }

  /** While reloading, nothing but a restart lets the weapon fire before the
      reload time has elapsed. */
  lemma {:induction false} ReloadBlocksUntilElapsed(w: WeaponState, ops: seq<WeaponOp>)
    requires w.isReloading
    requires NoRestartBefore(ops, w.lastReloadTime + ReloadCooldown)
    ensures Fired(w, ops) == 0
    ensures Run(w, ops).isReloading && Run(w, ops).lastReloadTime == w.lastReloadTime
    ensures Run(w, ops).shotsFired == w.shotsFired
    decreases |ops|
  {
    if ops != [] {
      assert NoRestartBefore(ops[1..], w.lastReloadTime + ReloadCooldown) by {
        forall i | 0 <= i < |ops[1..]|
          ensures !ops[1..][i].RestartRequest? && ops[1..][i].time < w.lastReloadTime + ReloadCooldown
        {
          assert ops[1..][i] == ops[i + 1];
        }
      }
      assert !ops[0].RestartRequest? && ops[0].time < w.lastReloadTime + ReloadCooldown;
      ReloadBlocksUntilElapsed(Apply(w, ops[0]), ops[1..]);
    }
  }

  /** Once the reload time has elapsed, a reload request followed by a fire
      request shoots the first shot of a fresh magazine. */
  lemma ReloadThenFire(w: WeaponState, t: int)
    requires Valid(w) && w.isReloading
    requires t - w.lastReloadTime >= ReloadCooldown
    ensures Fired(w, [ReloadRequest(t), FireRequest(t)]) == 1
    ensures Run(w, [ReloadRequest(t), FireRequest(t)]).shotsFired == 1
  {
    var w1 := Reload(w, t);
    assert CanFire(w1) && w1.shotsFired == 0;
    assert [FireRequest(t)][1..] == [];
    assert Fired(w1, [FireRequest(t)]) == 1 && Run(w1, [FireRequest(t)]) == Shoot(w1, t);
    assert [ReloadRequest(t), FireRequest(t)][1..] == [FireRequest(t)];
  }

  /** Fire requests `period` apart starting at `t`, each followed by a frame's
      cooldown check one period later. */
  function Volley(t: int, period: int, n: nat): (ops: seq<WeaponOp>)
    ensures |ops| == 2 * n
    decreases n
  {
    if n == 0 then [] else [FireRequest(t), CooldownTick(t + period)] + Volley(t + period, period, n - 1)
  }

  /** One round of a volley: a shot, then a frame's cooldown check one
      period later. */
  lemma VolleyRound(w: WeaponState, t: int, period: int)
    requires CanFire(w)
    ensures Fired(w, [FireRequest(t), CooldownTick(t + period)]) == 1
    ensures Run(w, [FireRequest(t), CooldownTick(t + period)]) == CooldownCheck(Shoot(w, t), t + period)
  {
    var head := [FireRequest(t), CooldownTick(t + period)];
    var tail := [CooldownTick(t + period)];
    var w1 := Shoot(w, t);
    assert head[0] == FireRequest(t) && head[1..] == tail;
    assert Apply(w, head[0]) == w1;
    assert tail[0] == CooldownTick(t + period) && tail[1..] == [];
    assert Run(w1, tail) == Run(CooldownCheck(w1, t + period), []);
    assert Fired(w1, tail) == Fired(CooldownCheck(w1, t + period), []);
  }

  /** A volley paced at least a cooldown apart shoots every time until the
      magazine is empty; the shot that empties it starts the reload. */
  lemma {:induction false} VolleyShootsEveryTime(w: WeaponState, t: int, period: int, n: nat)
    requires Valid(w) && CanFire(w) && period >= ShootCooldown
    requires 0 < n && w.shotsFired + n <= MagazineSize
    ensures Fired(w, Volley(t, period, n)) == n
    ensures Run(w, Volley(t, period, n)).shotsFired == w.shotsFired + n
    ensures w.shotsFired + n == MagazineSize ==>
              Run(w, Volley(t, period, n)).isReloading &&
              Run(w, Volley(t, period, n)).lastReloadTime == t + period * (n - 1)
    ensures w.shotsFired + n < MagazineSize ==> CanFire(Run(w, Volley(t, period, n)))
    decreases n
  {
    var head := [FireRequest(t), CooldownTick(t + period)];
    var rest := Volley(t + period, period, n - 1);
    assert Volley(t, period, n) == head + rest;
    RunAppend(w, head, rest);
    VolleyRound(w, t, period);
    var mid := CooldownCheck(Shoot(w, t), t + period);
    if n > 1 {
      VolleyShootsEveryTime(mid, t + period, period, n - 1);
      assert period * (n - 1) == period + period * (n - 2);
    } else {
      assert rest == [];
    }
  }

  /** Fifteen shots 260 ms apart from the initial state, the last at
      3640 ms, all fire, and the last one starts the reload. */
  lemma PacedMagazine()
    ensures var volley := Volley(0, 260, 14) + [FireRequest(3640)];
            && Fired(Initial, volley) == 15
            && Valid(Run(Initial, volley))
            && Run(Initial, volley).isReloading
            && Run(Initial, volley).lastReloadTime == 3640
  {
    var paced := Volley(0, 260, 14);
    VolleyShootsEveryTime(Initial, 0, 260, 14);
    RunAppend(Initial, paced, [FireRequest(3640)]);
    assert [FireRequest(3640)][1..] == [];
    RunKeepsValid(Initial, paced + [FireRequest(3640)]);
  }

  /** The reload scenario, in time order: fifteen shots 260 ms apart from the
      initial state, the last at 3640 ms, empty the magazine and start the
      reload; a request 100 ms later is refused; 2000 ms after the reload
      started a reload request and a shot succeed and the counter reads 1. */
  lemma MagazineScenario()
    ensures var volley := Volley(0, 260, 14) + [FireRequest(3640)];
            var after := [FireRequest(3740), ReloadRequest(5640), FireRequest(5640)];
            && Fired(Run(Initial, volley), [FireRequest(3740)]) == 0
            && Fired(Run(Initial, volley), after) == 1
            && Run(Run(Initial, volley), after).shotsFired == 1
  {
    PacedMagazine();
    var empty := Run(Initial, Volley(0, 260, 14) + [FireRequest(3640)]);
    assert [FireRequest(3740)][1..] == [];
    assert Fired(empty, [FireRequest(3740)]) == 0 && Run(empty, [FireRequest(3740)]) == empty;
    var after := [FireRequest(3740), ReloadRequest(5640), FireRequest(5640)];
    assert after == [FireRequest(3740)] + [ReloadRequest(5640), FireRequest(5640)];
    RunAppend(empty, [FireRequest(3740)], [ReloadRequest(5640), FireRequest(5640)]);
    ReloadThenFire(empty, 5640);
  }
}
