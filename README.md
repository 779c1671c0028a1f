# Space Invaders Reimagined — a verified model of the gameplay core

This project models the frame-stepped simulation of a neon Space Invaders clone in Dafny.

A `Game` sits in one of four modes: menu, playing, paused or game over. Key events move it between them. Each frame it takes a time step, capped at 50 ms, and then updates:
- a parallax starfield;
- the player's ship;
- a 5-by-11 alien fleet;
- a particle system for explosions.

While playing, `check_collisions` resolves three kinds of contact:
- the player's lasers against the fleet, which scores points and destroys aliens;
- the fleet's lasers against the ship, which costs a life unless the ship is invincible;
- aliens reaching the bottom of the screen, which ends the game.

Losing the last life also ends the game. Clearing the fleet starts the next level with a faster fleet that fires more often. The game-over screen returns to the menu after three seconds.

Module layout (one module per source file):

| module | file | models |
|---|---|---|
| `Constants`, `Numerics`, `Rects` | constants.dfy | screen size, modes, keys, palette; Python's `int()`, `min`, `max`, clamping; `pygame.Rect` and `colliderect` |
| `Projectiles` | projectiles.dfy | `Laser` and `AlienLaser` |
| `Particles` | particles.dfy | `Particle` and `ParticleSystem` |
| `Stars` | starfield.dfy | `Star` and `Starfield` |
| `Players` | player.dfy | `Player` |
| `Aliens` | aliens.dfy | `Alien` and `AlienFleet` |
| `GameLoop` | game.dfy | `Game`: `run`, `handle_input`, `update`, `check_collisions`, `check_game_over`, `game_over`, `start_game` |

Modelling choices:
- **Values and objects.** A leaf entity is a datatype (laser, alien laser, alien, particle, star), and its `update` is a member function that returns the updated value. An owner is a class whose `seq` fields its methods reassign (player, alien fleet, particle system, starfield, game).
- **Numbers.** Positions and timers are `real`.
- **Rectangles.** A pygame rectangle is an integer box, derived from an entity's centre whenever it is needed. The float-to-int step truncates toward zero, as `int()` does.
- **Randomness.** Every random draw is either a nondeterministic choice (`:|`) within the range the source draws from, or the parameter `roll` (the draw in `try_shoot`).
- **The bob.** The sinusoidal bob of each alien column is the parameter `bob`, bounded in [-5, 5] where a property needs it.
- **The clock.** The wall clock is the parameter `now`. Input is a sequence of key-down, key-up and quit events.

## Model

| member | source | states |
|---|---|---|
| `Numerics.Trunc` | entities/projectiles.py:29-30 | float-to-pixel conversion truncates toward zero: the result is within one of the value, on the same side of zero |
| `Numerics.MinReal` | main.py:77 | `min` is a lower bound of both arguments and equals one of them |
| `Numerics.MaxReal` | entities/aliens.py:319-320 | `max` is an upper bound of both arguments and equals one of them |
| `Numerics.ClampByte` | utils/particles.py:96-98 | `min(255, max(0, v))` lies in [0, 255], is `v` inside that range, and is 0 below it and 255 above it |
| `Numerics.RangeLength` | utils/particles.py:88 | `range(n)` runs max(n, 0) times |
| `Rects.CenteredBox` | entities/player.py:29-30 | a centred rect has the given size, and its corner lies within one pixel of (cx - w // 2, cy - h // 2), not past it for non-negative coordinates |
| `Rects.CollideSharedPixel` | main.py:188 | for boxes of positive size, `colliderect` holds exactly when some pixel lies inside both |
| `Projectiles.Laser.Box` | entities/projectiles.py:29-30 | a laser's rect is 3 by 15 at (x - 1, y - 7), truncated |
| `Projectiles.Laser.Update` | entities/projectiles.py:33-45 | y drops by exactly speed * dt and x and speed stay; an active laser stays active exactly while y >= -15; an inactive laser never reactivates |
| `Projectiles.NewLaser` | entities/projectiles.py:15-31 | a new laser is active at the given centre with the given speed |
| `Projectiles.FlyDistance` | entities/projectiles.py:40 | over any run of updates a laser keeps its column and travels exactly speed times the summed time steps |
| `Projectiles.FlyKeepsOff` | entities/projectiles.py:43-45 | once off, a laser stays off over any run of updates |
| `Projectiles.AdvanceLasers` | entities/player.py:63-66 | the pruned list is no longer than the original and holds only active lasers |
| `Projectiles.AdvanceLasersAppend` | entities/player.py:63-66 | pruning distributes over concatenation, so survivors keep their relative order |
| `Projectiles.AdvanceLasersMembers` | entities/player.py:63-66 | a laser is in the pruned list exactly when its own update left it active |
| `Projectiles.AlienLaser.Box` | entities/projectiles.py:77-78 | an alien laser's rect is 5 by 10 at (x - 2, y - 5), truncated |
| `Projectiles.AlienLaser.Update` | entities/projectiles.py:82-95 | y grows by exactly speed * dt; an active shot stays active exactly while y <= 610; it never reactivates |
| `Projectiles.NewAlienLaser` | entities/projectiles.py:63-79 | a new alien laser is active at the given centre with the default speed 300 |
| `Projectiles.FallDistance` | entities/projectiles.py:90 | over any run of updates an alien laser keeps its column and falls exactly speed times the summed time steps |
| `Projectiles.FallKeepsOff` | entities/projectiles.py:93-95 | once off, an alien laser never reactivates |
| `Projectiles.AdvanceAlienLasers` | entities/aliens.py:302-305 | the pruned list is no longer than the original and holds only active shots |
| `Projectiles.AdvanceAlienLasersAppend` | entities/aliens.py:302-305 | pruning the fleet's shots distributes over concatenation, so survivors keep their relative order |
| `Projectiles.AdvanceAlienLasersMembers` | entities/aliens.py:302-305 | a shot survives the pruning exactly when its own update left it active |
| `Particles.Particle.Update` | utils/particles.py:34-54 | position moves by velocity * dt, lifetime drops by exactly dt, size is multiplied by 0.97, and colour, velocity and maximal lifetime stay |
| `Particles.NewParticle` | utils/particles.py:13-32 | a new particle has lifetime equal to its maximal lifetime, and so an opacity of 255 |
| `Particles.Particle.Alpha` | utils/particles.py:49 | opacity is 255 at full lifetime, 0 at zero lifetime, and in [0, 255) while 0 <= lifetime < max_lifetime |
| `Particles.AlphaInRange` | utils/particles.py:49 | opacity is at most 255 while lifetime <= max_lifetime, and not negative while lifetime >= 0 |
| `Particles.Decay` | utils/particles.py:52 | 0.97^n lies in (0, 1], and strictly below 1 for n > 0 |
| `Particles.AgeLifetime` | utils/particles.py:48 | over any run of updates the lifetime drops by exactly the summed time steps |
| `Particles.AgeSize` | utils/particles.py:52 | after n updates the size is size * 0.97^n |
| `Particles.ShrinksButStaysPositive` | utils/particles.py:52 | a positive size strictly decreases over one or more updates and stays positive |
| `Particles.Survivors` | utils/particles.py:113 | the filtered list is no longer than the original and holds only living particles |
| `Particles.SurvivorsMembers` | utils/particles.py:113 | a particle is kept exactly when its own update returned True |
| `Particles.ScaledSizeOf` | utils/particles.py:104 | `size * uniform(0.7, 1.3)` lies between 0.7 and 1.3 times the base size |
| `Particles.JitterSound` | utils/particles.py:96-98 | every jitter in [-20, 20] gives a channel inside the jittered band |
| `Particles.JitterComplete` | utils/particles.py:96-98 | every channel in the jittered band comes from some jitter in [-20, 20], so the band is exactly the reachable set |
| `Particles.ParticleSystem.constructor` | utils/particles.py:73-75 | a new system has no particles |
| `Particles.ParticleSystem.AddExplosion` | utils/particles.py:77-104 | appends exactly max(count, 0) particles after the unchanged old ones; each starts at (x, y) with a clamped, jittered colour, a speed in [50, 150], a lifetime in [0.5, 1.5] equal to its maximum, and a size between 0.7 and 1.3 times the base |
| `Particles.ParticleSystem.Update` | utils/particles.py:106-113 | the list becomes the survivors of one update each, in order, and keeps the system's invariant |
| `Particles.ParticleSystem.Clear` | utils/particles.py:120-122 | the list is empty |
| `Stars.Star.Update` | utils/starfield.py:21-34 | y grows by speed * dt; beyond the screen height y becomes 0 and x the redrawn column, otherwise x stays; y never ends past a non-negative screen height; the depth-derived attributes stay |
| `Stars.NewStar` | utils/starfield.py:12-19 | a new star from its three draws has brightness int(depth * 255), size depth * 3 and speed depth * 30 |
| `Stars.ProfileBounds` | utils/starfield.py:16-19 | a depth in [0.1, 1.0] gives brightness in [25, 255], size in [0.3, 3] and speed in [3, 30] |
| `Stars.UpdateKeepsProfile` | utils/starfield.py:21-34 | an update keeps the depth-derived attributes consistent |
| `Stars.UpdateStaysOnScreen` | utils/starfield.py:28-34 | with dt >= 0 and the redraw in [0, w], a star on screen stays on screen |
| `Stars.FollowsOnScreen` | utils/starfield.py:62-65 | a starfield step of a star on screen stays on screen |
| `Stars.DriftStaysOnScreen` | utils/starfield.py:21-34 | any run of non-negative updates keeps a star on screen, whatever column in [0, w] each wrap draws |
| `Stars.Starfield.constructor` | utils/starfield.py:56-60 | max(star_count, 0) stars, each on screen with a depth in [0.1, 1.0] and its derived attributes |
| `Stars.Starfield.Update` | utils/starfield.py:62-65 | the star count never changes; each star is its predecessor updated once, with any redraw in [0, w]; with dt >= 0 every star stays on screen |
| `Players.Steer` | entities/player.py:53-56 | a left move only while x > 15 and a right move only while x < 785, each by 300 * dt; with both keys held the left move comes first and the right move is tested on the moved x, so both moves cancel, or only one applies; with dt in [0, 0.05] x stays in [0, 800] |
| `Players.ShakeFor` | entities/player.py:76 | the shake of a running hit timer lies in (0, 5], and is 5 right after a hit |
| `Players.UpdateLasers` | entities/player.py:63-66 | the laser loop leaves each laser updated once, the inactive ones dropped, the rest in order |
| `Players.Player.Box` | entities/player.py:59-60 | the ship's rect is 30 by 20 with its corner at (x - 15, y - 10), truncated |
| `Players.Player.constructor` | entities/player.py:16-41 | a new ship has 3 lives, no lasers, no last shot, and is neither hit nor invincible |
| `Players.Player.Update` | entities/player.py:43-82 | x moves as `Steer` says; lasers are advanced and pruned; a running hit timer drops by dt, ends at <= 0 with no shake, and otherwise gives shake 5 * timer / 0.3; invincibility drops by dt and clears exactly at <= 0; lives and the last shot time stay |
| `Players.Player.RunHitTimer` | entities/player.py:69-76 | the hit-state block alone, with everything else unchanged |
| `Players.Player.RunInvincibility` | entities/player.py:79-82 | the invincibility block alone: it clears exactly when the decremented timer is <= 0 |
| `Players.Player.Shoot` | entities/player.py:84-98 | fires exactly when now - last_shot_time >= 0.25, then appends one laser at (x, y - 10) and records the time; otherwise nothing changes |
| `Players.Player.Hit` | entities/player.py:100-109 | applies exactly when not invincible: one life fewer, hit timer 0.3, invincible for 2.0; otherwise nothing changes |
| `Players.HitThenHitAgain` | entities/player.py:100-109 | a hit, then frames shorter in total than the invincibility window, then another hit: the second never lands, so the pair costs at most one life |
| `Aliens.Alien.Box` | entities/aliens.py:48-49 | an alien's rect has the alien's width and height, with its corner at (x - width // 2, y - height // 2), truncated |
| `Aliens.Alien.Update` | entities/aliens.py:57-79 | the position becomes (col * 50 + 100 + offset_x, row * 50 + 80 + offset_y + bob); the animation frame flips and the clock loses 0.5 exactly when a period has elapsed; slot and activity stay |
| `Aliens.AnimationToggles` | entities/aliens.py:67-70 | the frame stays 0 or 1 and changes exactly when the clock reaches the period |
| `Aliens.NewAlien` | entities/aliens.py:16-55 | type 0 is 24 px, pink, 30 points; type 1 is 28 px, yellow, 20 points; any other type is 32 px, cyan, 10 points; a new alien is active at animation frame 0 |
| `Aliens.KindOfRow` | entities/aliens.py:254-259 | row 0 is type 0, rows 1 and 2 are type 1, rows 3 and below are type 2; the type is always 0, 1 or 2 |
| `Aliens.GridAlien` | entities/aliens.py:251-264 | slot (row, col) holds an active alien of the row's type at (col * 50 + 100, row * 50 + 80), worth positive points |
| `Aliens.GridLength` | entities/aliens.py:251-265 | `create_fleet` builds exactly max(rows, 0) * max(cols, 0) aliens |
| `Aliens.GridMembers` | entities/aliens.py:251-265 | every alien built is the grid alien of its own slot, within the grid |
| `Aliens.GridIndexed` | entities/aliens.py:251-265 | slot (r, c) sits at index r * cols + c, row by row |
| `Aliens.ActiveCount` | entities/aliens.py:314 | the number of active aliens is at most the fleet size |
| `Aliens.ActiveCountPositive` | entities/aliens.py:314-315 | the active count is positive exactly when some alien is active |
| `Aliens.DeactivateCount` | main.py:177 | switching off one active alien lowers the active count by exactly one |
| `Aliens.AllDestroyed` | entities/aliens.py:395-397 | `all_destroyed` holds exactly when no alien is active, that is, when the active count is zero |
| `Aliens.MinActiveX` | entities/aliens.py:286 | the minimum is the x of some active alien and at most every active alien's x |
| `Aliens.MaxActiveX` | entities/aliens.py:287 | the maximum is the x of some active alien and at least every active alien's x |
| `Aliens.EdgeTurn` | entities/aliens.py:285-294 | moving right with an active alien at x >= 770 turns left and drops 20; moving left with one at x <= 30 turns right and drops 20; otherwise direction and offset stay |
| `Aliens.FirstHitFrom` | entities/aliens.py:364-367 | the scan from index k finds the first struck alien at or after k, or reports that none is struck |
| `Aliens.FirstHit` | entities/aliens.py:354-367 | `check_collision` returns the first active alien, in list order, whose rect meets the laser's, and None exactly when none does |
| `Aliens.Difficulty` | entities/aliens.py:316 | the factor is 1 for a full fleet and 1.5 for an empty one |
| `Aliens.DifficultyBounds` | entities/aliens.py:316 | with 0 < active <= total the factor lies in [1, 1.5), and is 1 for a full fleet |
| `Aliens.DifficultyMonotone` | entities/aliens.py:316 | fewer active aliens never lower the factor |
| `Aliens.MoveIntervalFor` | entities/aliens.py:319 | the move interval is at least 0.01, and 0.02 / factor for factors in [1, 2] |
| `Aliens.ShootIntervalFor` | entities/aliens.py:320 | the shoot interval is at least 0.3, and 1 / factor for factors in [1, 3] |
| `Aliens.IntervalsMonotone` | entities/aliens.py:319-320 | a larger factor never lengthens either interval |
| `Aliens.Actives` | entities/aliens.py:330 | the active list holds exactly the active aliens, as many as the active count |
| `Aliens.ShotFrom` | entities/aliens.py:352 | the shooter fires an active shot from its bottom edge (y + height // 2) at speed 300 |
| `Aliens.FreshGridAlive` | entities/aliens.py:395-397 | a freshly built grid with at least one slot is not all destroyed |
| `Aliens.Placed` | entities/aliens.py:296-299 | an active alien moves to its grid position plus the offsets and bob; an inactive alien keeps its last state |
| `Aliens.PlacedNearRow` | entities/aliens.py:73-75 | a placed active alien is within 5 px of its row line shifted by offset_y |
| `Aliens.UpdateAlienLasers` | entities/aliens.py:301-305 | the fleet's laser loop leaves each shot updated once, the inactive ones dropped, the rest in order |
| `Aliens.AlienFleet.constructor` | entities/aliens.py:217-243 | a new fleet has the start values (speed 30, move interval 0.02, shoot interval 1.0, shoot chance 0.3, difficulty 1, direction right) and the full grid |
| `Aliens.AlienFleet.CreateFleet` | entities/aliens.py:245-265 | the aliens become the grid, row by row, and both offsets become 0 |
| `Aliens.AlienFleet.PointsPositive` | entities/aliens.py:32-46 | every alien of a valid fleet is worth positive points |
| `Aliens.AlienFleet.MoveStep` | entities/aliens.py:275-294 | at most one step per call; a step takes exactly one interval off the timer, moves offset_x by direction * speed * interval and applies the edge check; otherwise only the timer grows |
| `Aliens.AlienFleet.PlaceAliens` | entities/aliens.py:296-299 | every alien becomes its placed self under the current offsets |
| `Aliens.AlienFleet.TryShoot` | entities/aliens.py:322-352 | fires exactly when some alien is active and the draw is under shoot_chance * difficulty, and then appends one shot from a front-line alien; otherwise the shots stay |
| `Aliens.AlienFleet.AdjustDifficulty` | entities/aliens.py:313-320 | while some alien is active the factor and both intervals follow the active count; otherwise they stay; the bounds hold either way |
| `Aliens.AlienFleet.Update` | entities/aliens.py:267-320 | the movement tick with the edge check on the previous frame's positions, the per-alien placement, the laser pruning, the shot timer reset on firing, the front-line shot and the difficulty adjustment, keeping the fleet's invariant |
| `Aliens.AlienFleet.MoveAndPlace` | entities/aliens.py:275-299 | the movement tick followed by the per-alien placement |
| `Aliens.AlienFleet.ShootAndAdjust` | entities/aliens.py:301-320 | the laser pruning, the shot timer and the shot, then the difficulty adjustment |
| `Aliens.AlienFleet.Destroy` | main.py:177-178 | the struck alien is switched off, the destroyed count grows by one and the active count drops by one |
| `Aliens.AlienFleet.Reset` | entities/aliens.py:386-393 | a fresh grid with zero offsets, no shots, nothing destroyed, difficulty 1 and both timers 0; speed, shoot chance, direction and both intervals stay; with rows, cols > 0 the fleet is not all destroyed |
| `GameLoop.OnKeyDown` | main.py:98-120 | ESC pauses, resumes, or quits from the menu and game-over screens; SPACE starts a game from the menu, leaves game over for the menu, resumes from pause and shoots while playing; other keys do nothing |
| `GameLoop.EscapeToggles` | main.py:103-107 | n presses of ESC during play leave the game playing for even n and paused for odd n |
| `GameLoop.ExitOnlyByEscape` | main.py:103-110 | a key press quits only if it is ESC on the menu or the game-over screen |
| `GameLoop.MenuNeedsSpace` | main.py:112-114 | without SPACE the menu is never left |
| `GameLoop.QuitsPrefix` | main.py:93-110 | once a run of events quits, every longer run does too |
| `GameLoop.ModeOnlyRunPrefix` | main.py:98-120 | a run whose presses neither start a game nor fire has only such presses in every prefix |
| `GameLoop.HeldAfterLast` | main.py:98-124 | a key pressed and not released afterwards is held after the events |
| `GameLoop.FirstStrikeFrom` | main.py:187-188 | the scan from index k finds the first fleet laser that touches the ship, or reports that none does |
| `GameLoop.FirstStrike` | main.py:187-188 | the first fleet laser, in list order, that is active and touches the ship, and none exactly when no laser does |
| `GameLoop.FirstStrikeExtend` | main.py:187-192 | scanning one more laser keeps an earlier strike first, and otherwise the new laser is the strike exactly when it touches |
| `GameLoop.Resolve` | main.py:169-184 | after the player's volley the fleet has as many slots as before, and every laser either survives or destroys one alien |
| `GameLoop.Absorb` | main.py:170-184 | one laser keeps the fleet's size and either survives or scores one hit, and it scores exactly when it touches an active alien |
| `GameLoop.ResolveSlots` | main.py:169-184 | the volley only switches aliens off: every slot keeps its kind, place, size, colour and value |
| `GameLoop.ResolveScore` | main.py:169-181 | every hit switches off one more alien, and with positive alien values the points are at least the number of hits |
| `GameLoop.LandedCount` | main.py:201-204 | no more aliens land than there are aliens |
| `GameLoop.LandedCountPositive` | main.py:201-204 | the landed count is positive exactly when some active alien's bottom edge is past y = 550 |
| `GameLoop.Record` | main.py:215-217 | the new high score is the larger of the old high score and the score |
| `GameLoop.RecordIdempotent` | main.py:215-217 | recording the same score again changes nothing |
| `GameLoop.DefaultFleet` | main.py:42 | the default fleet is a fresh, valid 5-by-11 grid with every alien alive, no shots and the start speed and shoot chance |
| `GameLoop.Game.constructor` | main.py:30-64 | the menu, score 0, high score 0, level 1, 150 stars on screen, a ship with 3 lives at (400, 550), the full fleet, no particles, no held keys, timers at 0 |
| `GameLoop.Game.EndGame` | main.py:211-224 | game over, the high score raised to the score if higher, and exactly 400 new particles after the old ones, each starting within 50 px of the ship |
| `GameLoop.Game.StartGame` | main.py:226-233 | playing, score 0, level 1; a fresh ship at (400, 550) with 3 lives, no lasers, no last shot, not hit, no shake, not invincible; the fleet reset to the full grid at offset (0, 0) with no shots, no kills, difficulty 1 and both timers at 0, keeping its direction, speed, shoot chance and both intervals; no particles; the high score stays |
| `GameLoop.Game.PlayerShotsHitAliens` | main.py:169-184 | the fleet, the surviving lasers and the score follow the resolved volley; the destroyed count grows by the hits; 30 particles are added per hit |
| `GameLoop.Game.ShotAgainstFleet` | main.py:170-184 | one player laser: on a hit the alien is switched off, its points are scored, the destroyed count grows and 30 particles are added; without a hit nothing changes |
| `GameLoop.Game.AlienShotsHitPlayer` | main.py:187-198 | if a fleet laser touches a ship that is not invincible, that laser is removed, the ship takes the hit with its shake kept, and 20 particles are added; otherwise nothing changes and an invincible ship leaves the lasers in flight |
| `GameLoop.Game.LaserAgainstShip` | main.py:188-198 | one fleet laser: it is removed with an impact burst exactly when it touches the ship and the hit lands |
| `GameLoop.Game.AliensReachingBottom` | main.py:201-204 | any landed alien means game over with the high score recorded, and 400 particles per landed alien; none means nothing changes |
| `GameLoop.Game.CheckGameOver` | main.py:206-209 | out of lives means game over with the high score recorded and 400 more particles; otherwise nothing changes |
| `GameLoop.Game.CheckCollisions` | main.py:166-204 | the fleet, the surviving lasers, the score and the destroyed count follow the resolved volley; when a fleet laser lands on a ship that is not invincible, the first such laser is removed and the ship takes the hit with its shake kept, and otherwise the fleet's lasers and the ship are untouched; any landed alien means game over with the high score recorded; the particles grow by 30 per destroyed alien, 20 for a landed hit and 400 per landed alien; lives drop by at most one, the mode stays or becomes game over, and with positive alien values the score never drops |
| `GameLoop.Game.NextLevelIfCleared` | main.py:147-153 | a cleared fleet means level + 1, a reset grid at offset (0, 0) with no shots, no kills, difficulty 1 and both timers at 0, direction and intervals kept, speed + 5 and shoot chance + 0.05; otherwise the level and the whole fleet are unchanged; some alien is always left active |
| `GameLoop.Game.StepObjects` | main.py:131-139 | the ship, the fleet and the particles each take one step; lives, fleet speed and shoot chance stay |
| `GameLoop.Game.MoveAndCollide` | main.py:131-142 | everything moves, then collisions: the score never drops, and the game stays playing or ends with the high score recorded |
| `GameLoop.Game.PlayFrame` | main.py:131-153 | a playing frame keeps the invariant, never lowers the score or high score, costs at most one life, ends the game when the lives run out, and raises the level by at most one with the faster fleet |
| `GameLoop.Game.GameOverFrame` | main.py:155-164 | the game-over timer grows by dt and returns to the menu with the timer reset once it reaches 3.0; the particles still update |
| `GameLoop.Game.Update` | main.py:126-164 | the starfield always updates; playing stays playing or ends; game over stays or returns to the menu; on the menu and the pause screen the mode, score, high score, level, game-over timer, ship, fleet and particles are all unchanged; score and high score never drop |
| `GameLoop.Game.HandleInput` | main.py:91-124 | the run quits exactly when a close event, or ESC on the menu or game-over screen, occurs; otherwise the mode follows the key presses in order and the held-key map follows presses and releases; the high score stays; a run whose presses neither start a game nor fire leaves the score, the level, the ship, the fleet and the particles unchanged |
| `GameLoop.Game.Advance` | main.py:93-124 | one more event of a run that has not quit: afterwards quitting, the mode and the held keys are as the first i + 1 events give them, and a run whose presses only change the mode leaves the score, the level, the ship, the fleet and the particles as they were |
| `GameLoop.Game.Dispatch` | main.py:93-124 | one event: the close event quits; a release marks its key released; a press marks it held, quits exactly when `OnKeyDown` says so and otherwise moves the mode; a press that neither starts a game nor fires changes nothing else |
| `GameLoop.Game.Press` | main.py:98-120 | one press marks its key held, quits exactly when `OnKeyDown` says so (leaving the mode), and otherwise moves the mode as `OnKeyDown` says; a pause, resume, menu switch or other key changes nothing else; SPACE in play fires exactly when the cooldown has passed and touches nothing but the ship's lasers and last shot time; SPACE on the menu starts a game as `StartGame` says |
| `GameLoop.Game.Tick` | main.py:70-83 | the clock is read, dt is the elapsed time capped at 0.05, the events are handled, and the loop goes on exactly when they do not quit |

## Left out

- Drawing: every `draw`, `draw_lasers` and `render_*` method is left out, along with fonts, surfaces and glow. They do not change game state.
- pygame plumbing is left out: `pygame.init`, the display, `clock.tick(FPS)`. `pygame.event.get` is replaced by the `events` parameter.
- `sys.exit` and `pygame.quit` are not modelled. The program ending is modelled as `HandleInput` returning `quit` and `Tick` returning `running == false`.
- Reading the wall clock (`time.time`) is the `now` parameter of `Tick`.
- Randomness:
  - Every random draw is a nondeterministic choice within its documented range, or the `roll` parameter of `try_shoot`. No distribution is modelled.
  - `random.choice` among the front-line aliens picks any front-line alien.
- Trigonometry:
  - The bob is the `bob` parameter.
  - An explosion velocity is any vector whose length lies in [50, 150].
  - `AlienLaser.time_offset` is not modelled, because only drawing reads it.
- In-place update of the leaf objects (`Laser`, `AlienLaser`, `Alien`, `Particle`, `Star`) is modelled on values: their update returns the new value, and the owning list is reassigned.
  - The model does not capture object identity.
  - `check_collision` returning the alien object itself is modelled as returning its index, which `check_collisions` then switches off.
- `laser.active = False` set just before a hit laser is removed is not modelled, because the laser object is dropped at once.
- `rect` and `alpha` fields are derived from position and lifetime whenever they are read (`Box`, `Alpha`), instead of being stored and re-synced.
- pygame's float-to-int conversion in `Rect` is modelled as truncation toward zero, because pygame's own rounding is library code that is not part of this model.
- `Player.update`'s `current_time` argument is not modelled, because the body never reads it.
- `GameState.HIGH_SCORE` is not modelled, because no code enters that mode.
- remote_mcp.py and time_mcp.py are not part of this model: they are network and wall-clock glue unrelated to the game.
- A negative time step is not excluded, since the source does not exclude it. Properties that need dt >= 0 are stated under that condition (`Stars.Starfield.Update`, `Players.Steer`).
- `GameLoop.Game.PlayerShotsHitAliens`: the player's laser list is written once after the collision loop rather than laser by laser. The final state is the same, because the loop reads only lasers it has not yet visited.
- `GameLoop.DefaultFleet`: states the default dimensions as 11 columns and 55 aliens rather than naming `rows == 5` directly. 55 aliens in 11 columns fixes 5 rows.
- `GameLoop.Game.constructor`: states the fleet's size the same way, as 11 columns and 55 aliens.
- `GameLoop.Game.Tick`: states the clock, the invariant and whether the loop goes on. It does not restate the frame's effects on the mode, the score and the objects. `HandleInput` and `Update`, the two calls it makes, state them.
- `GameLoop.Game.StepObjects`: states the ship's position, lives and the fleet's speed and shoot chance. The full effect of each step is stated on `Players.Player.Update`, `Aliens.AlienFleet.Update` and `Particles.ParticleSystem.Update`.
