# Top-down shooter: weapon, bullets, containment, shake and restart

This project models the game logic of `game.js`, a browser top-down shooter
in which a square player walks the canvas, aims with the mouse or a gamepad
and fires bullets from a 15-round magazine. The model covers:

- the weapon state machine: a 250 ms shot cooldown, a magazine of 15 and a
  2000 ms reload;
- the bullets: appended by a shot, culled when off screen, moved once per
  frame;
- the clamp that keeps the player on the canvas;
- the camera-shake countdown;
- the restart;
- the event handlers (mouse, keyboard, gamepad) and the frame update that
  drive all of the above.

The project has two layers.

- **Values and functions.** These modules describe the state and its changes
  as plain values:
  - `Weapons`: the gun variables and their operations;
  - `Projectiles`: the bullet list;
  - `Containment`: the edge clamp;
  - `ShakeEffect`: the camera shake;
  - `WorldModel`: the whole game state and every handler, as a function from
    the state before to the state after;
  - `WorldProperties`: what holds of any stream of browser events.

  Sounds are returned, in order, as `Sound` events.
- **The game as the browser runs it.** Module `Shooter` has a `Player` class
  and a `Game` class. Their fields are the player object's fields and the
  module-level variables of `game.js`. Their methods update those fields in
  place, as the JavaScript functions do:
  - `CheckBulletCollision` is the in-place `splice`/`i--` loop;
  - `MoveBullets` is the index loop that moves every bullet.

  Every method is proved to change the state exactly as the function named
  in its postcondition says. For a handler or the frame update this is the
  `WorldModel` function of the same name. For a part of one it is the
  function for that part:
  - `CheckBulletCollision`: `Projectiles.Survivors`;
  - `MoveBullets`: `Projectiles.MoveAll`;
  - `Reload`: `Weapons.Reload`;
  - `CountShot`: `Weapons.Shoot`;
  - `CheckShootCooldown`: `Weapons.CooldownCheck`;
  - `PreventEdgeCollision` and `MovePlayer`: `WorldModel.Contain`;
  - `UpdateShake`: `ShakeEffect.Tick`;
  - `PlayFootstep`: `WorldModel.Footstep`.

  So everything proved about the functions holds for the game.

Inputs from the browser are parameters:
- the time in milliseconds (`now`);
- the pointer position and the pressed key;
- one sample of the first gamepad, if any (`Option<Gamepad>`);
- the two random draws of a frame (`rx`, `ry`);
- the trigonometric functions (`Trig`).

Positions are `real`.

Where the intent the game states and its code differ, the model follows the
code:
- **Reloading ends only on a reload request or a restart.** Nothing else in
  a frame finishes a reload, however much time has passed. Only the R key
  does that, once 2000 ms have elapsed, or a restart by the P key or the
  gamepad's Y button (`WorldProperties.ReloadEndsOnlyOnRequest`).
- **The gamepad's X button never reloads.** It asks for a reload only while
  not reloading, and a reload only acts while reloading
  (`WorldProperties.GamepadReloadButtonDoesNothing`).
- **A bullet can end a frame off the canvas.** Bullets are culled before they
  move, so the next frame removes it (`WorldProperties.BulletMayEndFrameOffScreen`).
- **A restart does not reset everything.** It keeps the reload timestamp, the
  pointer position and the right-trigger edge flag.
- **The first shot's cooldown runs from time 0.** It is measured from the
  initial `lastShotTime` of 0.
- **Comments that disagree with the code.** The comments call the shake
  "10ms" and the footstep "every 1 second". The code counts 10 frames of
  shake and uses a 350 ms footstep interval.

## Model

| member | source | states |
|---|---|---|
| Weapons.Shoot | game.js:155-168 | a shot adds one to the counter and clears canShoot; the shot that reaches 15 starts the reload, records the reload time and keeps the last shot time; every other shot records the shot time and keeps the reload time; the magazine invariant is kept |
| Weapons.Reload | game.js:178-187 | the state changes exactly when reloading and at least 2000 ms have passed since the reload began; the change refills the magazine and permits firing; the timestamps are untouched; the invariant is kept |
| Weapons.CooldownCheck | game.js:227-230 | afterwards firing is permitted exactly when it was before or 250 ms have passed since the last shot; nothing else changes |
| Weapons.Restart | game.js:311-315 | the weapon returns to its initial values except the reload timestamp; it may fire and the invariant holds |
| Weapons.RunAppend | game.js:65-72 | running two sequences of weapon operations equals running their concatenation, and their shot counts add up |
| Weapons.RunKeepsValid | game.js:156-161 | every sequence of fire, reload, cooldown and restart operations keeps 0 <= shotsFired <= 15 and reloading exactly when the magazine is empty |
| Weapons.BlockedStaysBlocked | game.js:166-167 | a weapon that has just fired stays unable to fire, and fires nothing, through any operations before the cooldown ends |
| Weapons.AtMostOneShotPerCooldown | game.js:228-230 | any interleaving of operations within a span shorter than 250 ms, with no restart, fires at most once |
| Weapons.SecondShotAfterCooldown | game.js:228-230 | two fire requests 250 ms apart, with a frame between them, both shoot while the magazine lasts |
| Weapons.ReloadBlocksUntilElapsed | game.js:179-181 | while reloading, no operation before 2000 ms have elapsed (other than a restart) fires a shot or ends the reload |
| Weapons.ReloadThenFire | game.js:181-184 | once 2000 ms have elapsed, a reload request and a fire request shoot the first round of a full magazine |
| Weapons.VolleyRound | game.js:228-230 | one shot followed by a frame one period later fires once and leaves the weapon at the cooldown check of the shot |
| Weapons.VolleyShootsEveryTime | game.js:156-168 | fire requests at least 250 ms apart shoot every time until the magazine is empty; the emptying shot starts the reload at its own time |
| Weapons.PacedMagazine | game.js:156-168 | from the initial state, 15 fire requests 260 ms apart (the last at 3640 ms), with frames between them, all shoot; the last starts the reload at 3640 ms |
| Weapons.MagazineScenario | game.js:156-184 | continuing in time order after that volley, a fire request at 3740 ms is refused; a reload request and a shot at 5640 ms, 2000 ms after the reload began, succeed and the counter reads 1 |
| Projectiles.Survivors | game.js:198-208 | the bullets the collision check keeps: never more than it was given, and none of them off screen |
| Projectiles.MoveAll | game.js:277-280 | every bullet moves by its own velocity; its velocity and radius are kept |
| Projectiles.SurvivorsMembers | game.js:198-208 | a bullet survives the collision check exactly when it was in the list and lies within [0, width] x [0, height] |
| Projectiles.SurvivorsAppend | game.js:198-208 | the check of a concatenation is the concatenation of the checks |
| Projectiles.SurvivorsExtend | game.js:199-206 | examining one more bullet keeps it exactly when it is on screen |
| Projectiles.OnScreenKeptWhole | game.js:203 | a list whose bullets are all on screen is kept whole |
| Projectiles.SurvivorsKeepAllOnScreen | game.js:198-208 | the check leaves a list unchanged if and only if every bullet in it is on screen |
| Projectiles.SurvivorsIdempotent | game.js:198-208 | checking twice removes nothing more than checking once |
| Projectiles.KeptIndices | game.js:199-206 | the indices of the on-screen bullets, strictly increasing, each on screen, none missing |
| Projectiles.SurvivorsAreKeptIndices | game.js:198-208 | no bullet is skipped and order is kept: the survivors are exactly the on-screen bullets at increasing indices |
| Containment.ContainAxis | game.js:191-194 | a contained coordinate is unchanged; when the square fits, the result lies within [size/2, bound - size/2] and an overhanging coordinate goes to the nearest edge; when it does not fit, the high edge wins |
| Containment.ContainAxisIdempotent | game.js:191-194 | clamping twice equals clamping once |
| ShakeEffect.Tick | game.js:233-240 | while the counter is positive it falls by one and, for draws in [0, 1), each offset lies in [-5, 5); at 0 both offsets are 0 and the counter stays |
| ShakeEffect.ShakeDecays | game.js:233-240 | over any number of frames the counter falls by one per frame down to 0 and the offsets are 0 once it has reached 0 |
| WorldModel.Initial | game.js:9-49 | the page-load state: player at the centre, no bullets, a weapon that may fire, no shake, invariant holds |
| WorldModel.Contain | game.js:190-195 | the player's square ends within the canvas when it fits; a contained player is unchanged; only x and y change |
| WorldModel.ContainIdempotent | game.js:190-195 | applying the edge check twice equals applying it once |
| WorldModel.Shoot | game.js:137-175 | exactly one bullet is appended after the unchanged earlier bullets; it starts at the barrel end and moves at 16 along the aim; the weapon counts the shot; the shake restarts at 10; nothing else changes; the shot sound comes last, with the reload sound before it exactly when the shot starts the reload |
| WorldModel.Restart | game.js:296-321 | the result is the page-load state except for the reload timestamp, the pointer and the trigger flag; one restart sound |
| WorldModel.RestartIdempotent | game.js:296-321 | restarting twice gives the same state as restarting once |
| WorldModel.MouseMove | game.js:58-62 | the pointer is stored and the player turns towards it; nothing else changes |
| WorldModel.MouseDown | game.js:65-72 | the left button shoots exactly when the weapon may fire, adding one bullet; otherwise nothing changes; the invariant is kept |
| WorldModel.KeyDown | game.js:75-90 | movement keys set the velocity to plus or minus 6 on their axis, keep the other axis's velocity and change nothing else; P restarts; R sends a reload request; other keys change nothing; the invariant is kept |
| WorldModel.KeyUp | game.js:92-95 | releasing a vertical key stops vertical movement, a horizontal key horizontal movement; nothing else changes |
| WorldModel.PadSticks | game.js:104-111 | the left stick sets the velocity; the right stick sets the aim only past the 0.1 dead zone; position and other state are kept |
| WorldModel.PadTrigger | game.js:113-122 | a held trigger does nothing; a released trigger only clears the flag; a new press shoots when the weapon may fire and sets the flag; a new press that cannot fire sets the flag during the cooldown, which uses up the press, and leaves it clear while reloading; the invariant is kept |
| WorldModel.PadReloadButton | game.js:124-127 | the X button leaves the state exactly as it was |
| WorldModel.PadRestartButton | game.js:129-132 | the Y button restarts and appends the restart sound; otherwise nothing changes |
| WorldModel.HandleGamepad | game.js:98-134 | with no gamepad nothing changes; a held trigger without Y leaves weapon, bullets and sounds alone; Y leaves no bullets and a weapon that may fire; the invariant is kept |
| WorldModel.Footstep | game.js:242-246 | a footstep sounds exactly when the player moves and more than 350 ms have passed since the last one, and then records the time; otherwise nothing changes |
| WorldModel.Advance | game.js:211-240 | after the gamepad input, the player moves by its velocity and is clamped, the bullets are culled, the cooldown is checked and the shake counts down; everything else, and the sounds, are those of the gamepad input; the invariant is kept |
| WorldModel.Update | game.js:211-293 | a frame keeps the invariant and the canvas size; the player ends at its post-gamepad position moved by its velocity and clamped, inside the canvas when it fits; the bullets are culled first and then moved; the weapon is after the cooldown check and the shake after one countdown; the trigger flag and pointer are those after the gamepad; the sounds are the gamepad's followed by the footstep's; the footstep time is set to the frame's time exactly when a footstep sounds |
| WorldProperties.Handle | game.js:58-134 | each browser event, dispatched to its handler, keeps the invariant and the canvas size |
| WorldProperties.RunEvents | game.js:58-293 | a stream of events, handled in arrival order, never changes the canvas size |
| WorldProperties.OneOp | game.js:65-72 | a single weapon operation runs as one application and fires at most once |
| WorldProperties.ShootIsOneShot | game.js:174 | a shot plays exactly one shot sound |
| WorldProperties.PadTriggerFollowsWeaponOps | game.js:113-122 | the trigger changes the weapon and sounds shots exactly as its fire request does |
| WorldProperties.TriggerAndReloadFollowWeaponOps | game.js:104-127 | the sticks, trigger and X button change the weapon and sound shots exactly as their fire and reload requests do |
| WorldProperties.PadFollowsWeaponOps | game.js:98-134 | the gamepad part of a frame changes the weapon and sounds shots exactly as its fire, reload and restart requests do |
| WorldProperties.HandleFollowsWeaponOps | game.js:58-134 | every browser event changes the weapon and sounds shots exactly as its weapon operations do |
| WorldProperties.RunEventsFollowsWeaponOps | game.js:58-293 | a stream of events changes the weapon exactly as the concatenation of its weapon operations, with one shot sound per shot fired |
| WorldProperties.RunEventsKeepsInvariant | game.js:156-184 | the magazine invariant and the shake bound hold in every state reached from a valid one |
| WorldProperties.OpsWithinAppend | game.js:58-293 | weapon operations of two lists within a time span stay within it when concatenated |
| WorldProperties.EventOpsWithin | game.js:58-293 | an event without restart at a time in a span performs weapon operations only within that span |
| WorldProperties.StreamOpsWithin | game.js:58-293 | a stream of such events performs weapon operations only within the span |
| WorldProperties.OneShotPerCooldown | game.js:65-72 | whatever clicks, keys, gamepad triggers and frames arrive within less than 250 ms, without restart, at most one shot is fired |
| WorldProperties.ReloadBlocksEveryEvent | game.js:178-187 | once reloading, no event stream before 2000 ms have elapsed, without restart, fires or ends the reload |
| WorldProperties.ReloadEndsOnlyOnRequest | game.js:211-293 | while reloading, any event other than the R key or a restart, frames included, leaves the game reloading |
| WorldProperties.GamepadReloadButtonDoesNothing | game.js:125-127 | the gamepad input with X pressed equals the same input with X released |
| WorldProperties.HeldTriggerFiresOnce | game.js:114-122 | after a trigger press the game is latched or reloading, and a further frame with the trigger still held fires nothing |
| WorldProperties.BulletMayEndFrameOffScreen | game.js:225 | on an 800x600 canvas a bullet on the right edge survives the frame's check, ends the frame off screen, and is removed by the next frame |
| WorldProperties.BulletsWithinOneStepAfterFrame | game.js:277-280 | every bullet left after a frame was on screen one velocity step earlier |
| Shooter.Player.constructor | game.js:9-20 | the player object at the given position, at rest, aiming right, with no footstep yet |
| Shooter.Game.constructor | game.js:23-49 | the game state equals the page-load state on the given canvas |
| Shooter.Game.Shoot | game.js:137-175 | the in-place shot changes the state and plays the sounds exactly as the shot function says |
| Shooter.Game.CountShot | game.js:155-168 | the counter and cooldown/reload variables change as the weapon's shot does, with the reload sound exactly on the emptying shot |
| Shooter.Game.Reload | game.js:178-187 | the gun variables change exactly as the reload function says; nothing else changes |
| Shooter.Game.PreventEdgeCollision | game.js:190-195 | the character's position changes exactly as the edge check says |
| Shooter.Game.CheckBulletCollision | game.js:198-208 | the in-place splice loop leaves exactly the survivors of the collision check, in order |
| Shooter.Game.MoveBullets | game.js:276-280 | every bullet moves by its velocity, in place |
| Shooter.Game.RestartGame | game.js:296-321 | the state and sound change exactly as the restart function says |
| Shooter.Game.ResetPlayer | game.js:300-306 | the player is at the canvas centre, at rest, aiming right, with no footstep |
| Shooter.Game.MouseMove | game.js:58-62 | the state changes exactly as the pointer-move function says |
| Shooter.Game.MouseDown | game.js:65-72 | the state and sounds change exactly as the button-press function says, keeping the invariant |
| Shooter.Game.KeyDown | game.js:75-90 | the state and sounds change exactly as the key-press function says, keeping the invariant |
| Shooter.Game.KeyUp | game.js:92-95 | the state changes exactly as the key-release function says |
| Shooter.Game.HandleGamepadInput | game.js:98-134 | the state and sounds change exactly as the gamepad function says |
| Shooter.Game.PadSticks | game.js:104-111 | the player's velocity and aim change exactly as the stick function says |
| Shooter.Game.PadTrigger | game.js:113-122 | the state and sounds change exactly as the trigger function says |
| Shooter.Game.MovePlayer | game.js:217-222 | the player moves by its velocity and is then clamped to the canvas |
| Shooter.Game.CheckShootCooldown | game.js:227-230 | the gun variables change exactly as the cooldown check says |
| Shooter.Game.UpdateShake | game.js:232-240 | the shake variables change exactly as one shake countdown says |
| Shooter.Game.PlayFootstep | game.js:242-246 | the state and sound change exactly as the footstep check says |
| Shooter.Game.Advance | game.js:211-240 | the frame up to the shake changes the state exactly as the corresponding function says |
| Shooter.Game.Update | game.js:211-293 | a frame changes the state and plays sounds exactly as the frame function says; it keeps the invariant and leaves the player inside the canvas when it fits |

## Left out

- Canvas and page setup, all drawing (player, gun, crosshair, bullets) and the hidden cursor (game.js:1-6, 39, 248-289): rendering only. `gunWidth` is used only for drawing and is not modelled.
- `requestAnimationFrame` scheduling (game.js:292, 324): each frame is one call of `Update`; a run of frames is a stream of `Frame` events.
- Audio objects and `play()` calls (game.js:52-55): each `play()` is a `Sound` event returned in order; playback is not modelled.
- `Date.now()`: the time is an integer parameter of every timed handler. A frame reads the clock up to three times: for a gamepad shot (game.js:115), inside a reload (game.js:180) and for the frame itself (game.js:212). The model uses one `now` for all three, so it does not capture the clock advancing within a frame.
- `Math.cos`, `Math.sin`, `Math.atan2`: given functions in `Trig`; no property of trigonometry is used.
- `Math.random` in the shake (game.js:234-235): the frame's two draws are parameters `rx`, `ry`; the offset bound is stated for draws in [0, 1).
- `navigator.getGamepads` polling and the button and axis indices (game.js:99-106): a frame receives `Option<Gamepad>`, the first gamepad's sample, with axes 0 to 3 and buttons 5, 2 and 3 as named fields.
- IEEE double arithmetic: positions, velocities and offsets are exact `real`s; rounding is not modelled.
- Bullets are plain values in a sequence: the JavaScript bullet objects are never shared, so aliasing between them is not modelled.
