/**
 * The game loop (main.py): the mode machine driven by key events, the per-frame update
 * with the time-step cap, collision resolution, game over, level progression and the
 * high score.
 */
module GameLoop {
  import opened Numerics
  import opened Constants
  import opened Rects
  import opened Projectiles
  import opened Particles
  import opened Stars
  import opened Players
  import opened Aliens

  /** The largest time step a frame may take, in seconds. */
  const MaxDt: real := 0.05
  /** Seconds the game-over screen stays before returning to the menu. */
  const GameOverDelay: real := 3.0
  /** An alien whose bottom edge passes this line ends the game. */
  const BottomLine: int := Height - 50
  const StarCount: int := 150
  const FleetRows: int := 5
  const FleetCols: int := 11

  /** A pygame event, reduced to what `handle_input` looks at. */
  datatype Event = KeyDown(key: Key) | KeyUp(key: Key) | Quit

  /** What a key press asks the game to do. */
  datatype Command = Ignore | SwitchTo(mode: GameState) | StartNew | FireShot | Exit

  /**
   * The key-press table of `handle_input`: ESC pauses, resumes, or (from the menu and the
   * game-over screen) quits; SPACE starts a game from the menu, leaves the game-over screen,
   * resumes from pause and shoots while playing; other keys only change the held-key map.
   */
  function OnKeyDown(mode: GameState, k: Key): (c: Command)
    ensures k == KeyEscape && mode == Playing ==> c == SwitchTo(Paused)
    ensures k == KeyEscape && mode == Paused ==> c == SwitchTo(Playing)
    ensures k == KeyEscape && (mode == Menu || mode == GameOver) ==> c == Exit
    ensures k == KeySpace && mode == Menu ==> c == StartNew
    ensures k == KeySpace && mode == GameOver ==> c == SwitchTo(Menu)
    ensures k == KeySpace && mode == Paused ==> c == SwitchTo(Playing)
    ensures k == KeySpace && mode == Playing ==> c == FireShot
    ensures k != KeyEscape && k != KeySpace ==> c == Ignore
  {
    if k == KeyEscape then
      (match mode
       case Playing => SwitchTo(Paused)
       case Paused => SwitchTo(Playing)
       case _ => Exit)
    else if k == KeySpace then
      (match mode
       case Menu => StartNew
       case GameOver => SwitchTo(Menu)
       case Paused => SwitchTo(Playing)
       case Playing => FireShot)
    else Ignore
  }

  /** The mode after a key press, when the press does not quit (a started game is playing). */
  function ModeAfter(mode: GameState, k: Key): GameState
  {
    match OnKeyDown(mode, k)
    case SwitchTo(m) => m
    case StartNew => Playing
    case _ => mode
  }

  /** The mode after a run of key presses, none of which quits. */
  function ModeAfterAll(mode: GameState, ks: seq<Key>): GameState
  {
    if ks == [] then mode else ModeAfter(ModeAfterAll(mode, ks[..|ks| - 1]), ks[|ks| - 1])
  }

  /** n presses of ESC during play only toggle between playing and paused. */
  lemma {:induction false} EscapeToggles(n: nat)
    ensures ModeAfterAll(Playing, seq(n, i => KeyEscape)) == if n % 2 == 0 then Playing else Paused
  {
    if n > 0 {
      var ks := seq(n, i => KeyEscape);
      assert ks[..n - 1] == seq(n - 1, i => KeyEscape);
      EscapeToggles(n - 1);
    }
  }

  /** Only ESC can quit, and only from the menu or the game-over screen. */
  lemma ExitOnlyByEscape(mode: GameState, k: Key)
    requires OnKeyDown(mode, k) == Exit
    ensures k == KeyEscape && (mode == Menu || mode == GameOver)
  {
  }

  /** Without SPACE the menu is never left (ESC there quits instead). */
  lemma {:induction false} MenuNeedsSpace(ks: seq<Key>)
    requires forall i :: 0 <= i < |ks| ==> ks[i] != KeySpace
    ensures ModeAfterAll(Menu, ks) == Menu
  {
    if ks != [] {
      MenuNeedsSpace(ks[..|ks| - 1]);
    }
  }

  /** The keys pressed by a run of events, in order. */
  function Presses(events: seq<Event>): (ks: seq<Key>)
    ensures |ks| <= |events|
  {
    if events == [] then []
    else Presses(events[..|events| - 1]) + (if events[|events| - 1].KeyDown? then [events[|events| - 1].key] else [])
  }

  /** `self.keys` after a run of events: a press marks the key held, a release marks it released. */
  function HeldAfter(keys: map<Key, bool>, events: seq<Event>): map<Key, bool>
  {
    if events == [] then keys
    else
      var held := HeldAfter(keys, events[..|events| - 1]);
      match events[|events| - 1]
      case KeyDown(k) => held[k := true]
      case KeyUp(k) => held[k := false]
      case Quit => held
  }

  /** Some event of the run ends the program: the window's close event, or ESC on the menu or game-over screen. */
  function Quits(mode: GameState, events: seq<Event>): bool
  {
    if events == [] then false
    else
      var init := events[..|events| - 1];
      Quits(mode, init) ||
      match events[|events| - 1]
      case Quit => true
      case KeyDown(k) => OnKeyDown(ModeAfterAll(mode, Presses(init)), k) == Exit
      case KeyUp(_) => false
  }

  /** A command that at most changes the mode: it neither starts a game nor fires. */
  predicate ModeOnly(c: Command)
  {
    !c.StartNew? && !c.FireShot?
  }

  /** Every key press of the run, at the mode it finds, only changes the mode or quits. */
  function ModeOnlyRun(mode: GameState, events: seq<Event>): bool
  {
    if events == [] then true
    else
      var init := events[..|events| - 1];
      ModeOnlyRun(mode, init) &&
      match events[|events| - 1]
      case KeyDown(k) => ModeOnly(OnKeyDown(ModeAfterAll(mode, Presses(init)), k))
      case _ => true
  }

  /** A run whose presses only change the mode has only such presses in each of its prefixes. */
  lemma {:induction false} ModeOnlyRunPrefix(mode: GameState, events: seq<Event>, j: nat)
    requires j <= |events|
    ensures ModeOnlyRun(mode, events) ==> ModeOnlyRun(mode, events[..j])
    decreases |events|
  {
    if j < |events| {
      var init := events[..|events| - 1];
      ModeOnlyRunPrefix(mode, init, j);
      assert init[..j] == events[..j];
    } else {
      assert events[..j] == events;
    }
  }

  /** Presses, held keys and quitting, one event further on. */
  lemma EventStep(mode: GameState, keys: map<Key, bool>, events: seq<Event>, i: nat)
    requires i < |events|
    ensures Presses(events[..i + 1]) == Presses(events[..i]) + (if events[i].KeyDown? then [events[i].key] else [])
    ensures HeldAfter(keys, events[..i + 1]) ==
      match events[i]
      case KeyDown(k) => HeldAfter(keys, events[..i])[k := true]
      case KeyUp(k) => HeldAfter(keys, events[..i])[k := false]
      case Quit => HeldAfter(keys, events[..i])
    ensures Quits(mode, events[..i + 1]) ==
      (Quits(mode, events[..i]) ||
       match events[i]
       case Quit => true
       case KeyDown(k) => OnKeyDown(ModeAfterAll(mode, Presses(events[..i])), k) == Exit
       case KeyUp(_) => false)
    ensures ModeOnlyRun(mode, events[..i + 1]) ==
      (ModeOnlyRun(mode, events[..i]) &&
       match events[i]
       case KeyDown(k) => ModeOnly(OnKeyDown(ModeAfterAll(mode, Presses(events[..i])), k))
       case _ => true)
  {
    assert events[..i + 1][..i] == events[..i];
  }

  /** One more key press moves the mode on by one step. */
  lemma ModeStep(mode: GameState, ks: seq<Key>, k: Key)
    ensures ModeAfterAll(mode, ks + [k]) == ModeAfter(ModeAfterAll(mode, ks), k)
  {
    assert (ks + [k])[..|ks|] == ks;
  }

  /** Once a run of events quits, any longer run does too. */
  lemma {:induction false} QuitsPrefix(mode: GameState, events: seq<Event>, j: nat)
    requires j <= |events|
    ensures Quits(mode, events[..j]) ==> Quits(mode, events)
    decreases |events|
  {
    if j < |events| {
      var init := events[..|events| - 1];
      QuitsPrefix(mode, init, j);
      assert init[..j] == events[..j];
    } else {
      assert events[..j] == events;
    }
  }

  /** A key held down stays held until it is released: presses and releases decide the map. */
  lemma {:induction false} HeldAfterLast(keys: map<Key, bool>, events: seq<Event>, k: Key)
    requires exists i :: 0 <= i < |events| && events[i] == KeyDown(k)
    requires forall i :: 0 <= i < |events| && events[i] == KeyDown(k) ==> forall j :: i < j < |events| ==> events[j] != KeyUp(k)
    ensures k in HeldAfter(keys, events) && HeldAfter(keys, events)[k]
  {
    var init := events[..|events| - 1];
    if events[|events| - 1] != KeyDown(k) {
      var i :| 0 <= i < |events| && events[i] == KeyDown(k);
      assert i < |events| - 1 && init[i] == KeyDown(k);
      forall a | 0 <= a < |init| && init[a] == KeyDown(k)
        ensures forall b :: a < b < |init| ==> init[b] != KeyUp(k)
      {
        assert events[a] == KeyDown(k);
      }
      HeldAfterLast(keys, init, k);
      assert events[|events| - 1] != KeyUp(k);
    }
  }

  // ------------------------------------------------------------ collisions

  /** Laser `l` of the alien fleet strikes the player's box. */
  predicate StrikesPlayer(l: AlienLaser, box: Rect)
  {
    l.active && Collide(box, l.Box())
  }

  /** The first fleet laser, scanning from index k, that strikes the player's box. */
  function FirstStrikeFrom(shots: seq<AlienLaser>, box: Rect, k: nat): (r: Hit)
    requires k <= |shots|
    decreases |shots| - k
    ensures r.HitAt? ==> k <= r.index < |shots| && StrikesPlayer(shots[r.index], box)
    ensures r.HitAt? ==> forall j :: k <= j < r.index ==> !StrikesPlayer(shots[j], box)
    ensures r.NoHit? ==> forall j :: k <= j < |shots| ==> !StrikesPlayer(shots[j], box)
  {
    if k == |shots| then NoHit
    else if StrikesPlayer(shots[k], box) then HitAt(k)
    else FirstStrikeFrom(shots, box, k + 1)
  }

  /** The first fleet laser, in list order, that strikes the player's box. */
  function FirstStrike(shots: seq<AlienLaser>, box: Rect): (r: Hit)
    ensures r.HitAt? ==> r.index < |shots| && StrikesPlayer(shots[r.index], box)
    ensures r.HitAt? ==> forall j :: 0 <= j < r.index ==> !StrikesPlayer(shots[j], box)
    ensures r.NoHit? <==> forall j :: 0 <= j < |shots| ==> !StrikesPlayer(shots[j], box)
  {
    FirstStrikeFrom(shots, box, 0)
  }

  /** Scanning one more fleet laser: an earlier strike stays the first, otherwise the new laser may be it. */
  lemma FirstStrikeExtend(shots: seq<AlienLaser>, box: Rect, i: nat)
    requires i < |shots|
    ensures FirstStrike(shots[..i], box).HitAt? ==> FirstStrike(shots[..i + 1], box) == FirstStrike(shots[..i], box)
    ensures FirstStrike(shots[..i], box).NoHit? ==>
      FirstStrike(shots[..i + 1], box) == if StrikesPlayer(shots[i], box) then HitAt(i) else NoHit
  {
    var a, b := shots[..i], shots[..i + 1];
    assert forall j :: 0 <= j < i ==> a[j] == b[j];
    match FirstStrike(b, box)
    case NoHit =>
    case HitAt(k) =>
      if FirstStrike(a, box).HitAt? {
        var m := FirstStrike(a, box).index;
        assert !(k < m) && !(m < k);
      }
  }

  /** The fleet's lasers cost the ship a life this frame: one touches it and it is not invincible. */
  function Lands(shots: seq<AlienLaser>, box: Rect, invincible: bool): bool
  {
    FirstStrike(shots, box).HitAt? && !invincible
  }

  /** The outcome of the player's lasers against the fleet: aliens, surviving lasers, points and hits. */
  datatype Volley = Volley(aliens: seq<Alien>, kept: seq<Laser>, points: int, hits: nat)

  /**
   * The first loop of `check_collisions`: each player laser in turn, against the fleet as
   * the earlier lasers left it; a laser that hits is removed and its alien switched off
   * and scored.
   */
  function Resolve(aliens: seq<Alien>, shots: seq<Laser>): (v: Volley)
    ensures |v.aliens| == |aliens|
    ensures |v.kept| + v.hits == |shots|
  {
    if shots == [] then Volley(aliens, [], 0, 0)
    else Absorb(Resolve(aliens, shots[..|shots| - 1]), shots[|shots| - 1])
  }

  /** One laser of the volley against the fleet as the earlier lasers left it. */
  function Absorb(v: Volley, shot: Laser): (r: Volley)
    ensures |r.aliens| == |v.aliens|
    ensures |r.kept| + r.hits == |v.kept| + v.hits + 1
    ensures r.hits == v.hits + 1 <==> FirstHit(v.aliens, shot.Box()).HitAt?
  {
    match FirstHit(v.aliens, shot.Box())
    case NoHit => v.(kept := v.kept + [shot])
    case HitAt(k) => Volley(v.aliens[k := v.aliens[k].(active := false)], v.kept, v.points + v.aliens[k].points, v.hits + 1)
  }

  /** The volley only switches aliens off: every slot keeps its kind, place, size, colour and value. */
  lemma {:induction false} ResolveSlots(aliens: seq<Alien>, shots: seq<Laser>)
    ensures forall i :: 0 <= i < |aliens| ==> Resolve(aliens, shots).aliens[i].Slot() == aliens[i].Slot()
  {
    if shots != [] {
      ResolveSlots(aliens, shots[..|shots| - 1]);
    }
  }

  /** Every hit switches off one more alien, and with positive alien values the score only grows. */
  lemma {:induction false} ResolveScore(aliens: seq<Alien>, shots: seq<Laser>)
    ensures ActiveCount(Resolve(aliens, shots).aliens) + Resolve(aliens, shots).hits == ActiveCount(aliens)
    ensures (forall i :: 0 <= i < |aliens| ==> aliens[i].points > 0) ==> Resolve(aliens, shots).points >= Resolve(aliens, shots).hits
  {
    if shots != [] {
      var init := shots[..|shots| - 1];
      ResolveScore(aliens, init);
      ResolveSlots(aliens, init);
      var v := Resolve(aliens, init);
      match FirstHit(v.aliens, shots[|shots| - 1].Box())
      case NoHit =>
      case HitAt(k) =>
        DeactivateCount(v.aliens, k);
        assert v.aliens[k].points == aliens[k].points;
    }
  }

  /** An active alien whose bottom edge is past the line 50 pixels above the screen's bottom. */
  predicate Landing(a: Alien)
  {
    a.active && a.y + (a.height / 2) as real > BottomLine as real
  }

  /** How many aliens have landed: `game_over` runs once for each of them. */
  function LandedCount(aliens: seq<Alien>): (n: nat)
    ensures n <= |aliens|
  {
    if aliens == [] then 0
    else LandedCount(aliens[..|aliens| - 1]) + (if Landing(aliens[|aliens| - 1]) then 1 else 0)
  }

  /** Some alien has landed exactly when the landed count is positive. */
  lemma {:induction false} LandedCountPositive(aliens: seq<Alien>)
    ensures LandedCount(aliens) > 0 <==> exists i :: 0 <= i < |aliens| && Landing(aliens[i])
  {
    if aliens != [] {
      var init := aliens[..|aliens| - 1];
      LandedCountPositive(init);
      if exists i :: 0 <= i < |init| && Landing(init[i]) {
        var i :| 0 <= i < |init| && Landing(init[i]);
        assert Landing(aliens[i]);
      }
    }
  }

  /** `game_over`'s high score: the larger of the old high score and the score. */
  function Record(highScore: int, score: int): (h: int)
    ensures h >= highScore && h >= score && (h == highScore || h == score)
  {
    if score > highScore then score else highScore
  }

  /** Recording the same score again changes nothing. */
  lemma RecordIdempotent(highScore: int, score: int)
    ensures Record(Record(highScore, score), score) == Record(highScore, score)
  {
  }

  /** The three colours of the game-over bursts. */
  predicate BurstColor(c: Color)
  {
    c == NeonPink || c == NeonYellow || c == NeonCyan
  }

  // ------------------------------------------------------------ the game

  /** `AlienFleet()` with its default size: a fresh 5-by-11 fleet with every alien alive. */
  method DefaultFleet() returns (fleet: AlienFleet)
    ensures fresh(fleet) && fleet.Valid() && fleet.rows > 0 && fleet.cols == FleetCols
    ensures fleet.aliens == Grid(fleet.rows, fleet.cols) && |fleet.aliens| == FleetRows * FleetCols && AnyActive(fleet.aliens)
    ensures fleet.lasers == [] && fleet.aliensDestroyed == 0 && fleet.speed == StartSpeed && fleet.shootChance == StartShootChance
  {
    fleet := new AlienFleet(FleetRows, FleetCols);
    FreshGridAlive(fleet.rows, fleet.cols);
    GridLength(fleet.rows, fleet.cols);
  }

  /** `Game`: the mode, the score board and the objects of one session. */
  class Game {
    const starfield: Starfield
    const fleet: AlienFleet
    const particleSystem: ParticleSystem
    var player: Player
    var state: GameState
    var score: int
    var highScore: int
    var level: int
    var gameOverTimer: real
    var currentTime: real
    var lastTime: real
    var dt: real
    var keys: map<Key, bool>

    /**
     * What every frame keeps: the parts are consistent, the fleet is a non-empty grid and
     * always has an alien left (a cleared fleet is replaced in the same frame), and off the
     * playing screens the high score is at least the score.
     */
    ghost predicate Valid()
      reads this`player, this`state, this`score, this`highScore, this`level, player, fleet, particleSystem, starfield
    {
      && fleet.Valid() && particleSystem.Valid() && starfield.Valid()
      && fleet.rows > 0 && fleet.cols > 0 && AnyActive(fleet.aliens)
      && level >= 1 && score >= 0 && highScore >= 0
      && ((state == Menu || state == GameOver) ==> score <= highScore)
    }

    /** `Game.__init__`: a 150-star field, a ship at (400, 550), a 5-by-11 fleet, the menu. */
    constructor (startTime: real)
      ensures Valid() && state == Menu && score == 0 && highScore == 0 && level == 1
      ensures fleet.cols == FleetCols && |fleet.aliens| == FleetRows * FleetCols
      ensures player.x == (Width / 2) as real && player.y == (Height - 50) as real && player.lives == StartLives
      ensures fleet.aliens == Grid(fleet.rows, fleet.cols) && particleSystem.particles == []
      ensures |starfield.stars| == StarCount && AllOnScreen(starfield.stars, Width, Height)
      ensures gameOverTimer == 0.0 && currentTime == 0.0 && lastTime == startTime && dt == 0.0 && keys == map[]
    {
      starfield := new Starfield(Width, Height, StarCount);
      player := new Player((Width / 2) as real, (Height - 50) as real);
      var f := DefaultFleet();
      fleet := f;
      particleSystem := new ParticleSystem();
      state := Menu;
      score := 0;
      highScore := 0;
      level := 1;
      gameOverTimer := 0.0;
      currentTime := 0.0;
      lastTime := startTime;
      dt := 0.0;
      keys := map[];
    }

    /** A particle that starts within 50 pixels of the ship on both axes. */
    ghost predicate NearShip(p: Particle)
      reads this`player, player
    {
      InRange(p.x, player.x - 50.0, player.x + 50.0) && InRange(p.y, player.y - 50.0, player.y + 50.0)
    }

    /**
     * `game_over`: the game-over screen, the high score raised to the score if it is higher,
     * and ten bursts of 40 particles at random points within 50 pixels of the ship, each in
     * one of three colours.
     */
    method EndGame()
      requires particleSystem.Valid()
      modifies this`state, this`highScore, particleSystem
      ensures particleSystem.Valid()
      ensures state == GameOver && highScore == Record(old(highScore), score)
      ensures |particleSystem.particles| == |old(particleSystem.particles)| + 400
      ensures particleSystem.particles[..|old(particleSystem.particles)|] == old(particleSystem.particles)
      ensures forall i :: |old(particleSystem.particles)| <= i < |particleSystem.particles| ==>
        NearShip(particleSystem.particles[i])
    {
      state := GameOver;
      if score > highScore {
        highScore := score;
      }
      var n := 0;
      while n < 10
        invariant 0 <= n <= 10
        invariant state == GameOver && highScore == Record(old(highScore), score)
        invariant particleSystem.Valid()
        invariant |particleSystem.particles| == |old(particleSystem.particles)| + 40 * n
        invariant particleSystem.particles[..|old(particleSystem.particles)|] == old(particleSystem.particles)
        invariant forall i :: |old(particleSystem.particles)| <= i < |particleSystem.particles| ==>
          NearShip(particleSystem.particles[i])
      {
        assert InRange(player.x, player.x - 50.0, player.x + 50.0) && InRange(player.y, player.y - 50.0, player.y + 50.0);
        var px: real :| InRange(px, player.x - 50.0, player.x + 50.0);
        var py: real :| InRange(py, player.y - 50.0, player.y + 50.0);
        assert BurstColor(NeonPink);
        var c: Color :| BurstColor(c);
        ghost var before := particleSystem.particles;
        particleSystem.AddExplosion(px, py, c, 40, 5.0);
        assert particleSystem.particles[..|old(particleSystem.particles)|] == before[..|old(particleSystem.particles)|];
        forall i | |old(particleSystem.particles)| <= i < |particleSystem.particles|
          ensures NearShip(particleSystem.particles[i])
        {
          if i < |before| {
            assert particleSystem.particles[i] == particleSystem.particles[..|before|][i];
          } else {
            assert Spawned(particleSystem.particles[i], px, py, c, 5.0);
          }
        }
        n := n + 1;
      }
    }

    /**
     * `start_game`: playing, score 0, level 1, a fresh ship at (400, 550), a reset fleet
     * and no particles; the high score stays.
     */
    method StartGame()
      requires Valid()
      modifies this`state, this`score, this`level, this`player, fleet, particleSystem
      ensures Valid() && state == Playing && score == 0 && level == 1 && highScore == old(highScore)
      ensures fresh(player) && player.x == (Width / 2) as real && player.y == (Height - 50) as real
      ensures player.lives == StartLives && player.lasers == [] && player.lastShotTime == 0.0
      ensures !player.isHit && player.hitTimer == 0.0 && player.shakeAmount == 0.0
      ensures !player.invincible && player.invincibleTimer == 0.0
      ensures fleet.aliens == Grid(fleet.rows, fleet.cols) && fleet.lasers == [] && fleet.aliensDestroyed == 0
      ensures fleet.offsetX == 0.0 && fleet.offsetY == 0.0 && fleet.difficultyFactor == 1.0
      ensures fleet.shootTimer == 0.0 && fleet.moveTimer == 0.0 && fleet.direction == old(fleet.direction)
      ensures fleet.speed == old(fleet.speed) && fleet.shootChance == old(fleet.shootChance)
      ensures fleet.moveInterval == old(fleet.moveInterval) && fleet.shootInterval == old(fleet.shootInterval)
      ensures particleSystem.particles == []
    {
      state := Playing;
      score := 0;
      level := 1;
      player := new Player((Width / 2) as real, (Height - 50) as real);
      fleet.Reset();
      particleSystem.Clear();
    }
    /**
     * The first loop of `check_collisions`: each of the player's lasers, in order, is tested
     * against the fleet (`check_collision`); a hit removes the laser, switches the alien off,
     * counts it as destroyed, adds its points and sets off a 30-particle explosion at it.
     */
    method PlayerShotsHitAliens()
      requires fleet.Valid() && particleSystem.Valid()
      modifies this`score, player`lasers, fleet`aliens, fleet`aliensDestroyed, particleSystem
      ensures fleet.Valid() && particleSystem.Valid()
      ensures var v := Resolve(old(fleet.aliens), old(player.lasers));
        fleet.aliens == v.aliens && player.lasers == v.kept && score == old(score) + v.points &&
        fleet.aliensDestroyed == old(fleet.aliensDestroyed) + v.hits &&
        |particleSystem.particles| == |old(particleSystem.particles)| + 30 * v.hits
      ensures particleSystem.particles[..|old(particleSystem.particles)|] == old(particleSystem.particles)
    {
      ghost var score0, destroyed0 := score, fleet.aliensDestroyed;
      ghost var particles0 := particleSystem.particles;
      ghost var v := Volley(fleet.aliens, [], 0, 0);
      ghost var aliens0 := fleet.aliens;
      var shots := player.lasers;
      var kept: seq<Laser> := [];
      var i := 0;
      while i < |shots|
        invariant 0 <= i <= |shots|
        invariant fleet.Valid() && particleSystem.Valid()
        invariant v == Resolve(aliens0, shots[..i])
        invariant fleet.aliens == v.aliens && kept == v.kept && score == score0 + v.points
        invariant fleet.aliensDestroyed == destroyed0 + v.hits
        invariant |particleSystem.particles| == |particles0| + 30 * v.hits
        invariant particleSystem.particles[..|particles0|] == particles0
      {
        assert shots[..i + 1][..i] == shots[..i];
        var shot := shots[i];
        ghost var before := particleSystem.particles;
        var h := ShotAgainstFleet(shot);
        if h.NoHit? {
          kept := kept + [shot];
        } else {
          assert particleSystem.particles[..|particles0|] == before[..|particles0|];
        }
        assert Resolve(aliens0, shots[..i + 1]) == Absorb(Resolve(aliens0, shots[..i]), shot);
        v := Absorb(v, shot);
        i := i + 1;
      }
      assert shots[..i] == shots;
      player.lasers := kept;
    }

    /**
     * The body of the first loop of `check_collisions`, for one laser: the first active alien
     * it touches is switched off, counted, scored and blown up into 30 particles.
     */
    method ShotAgainstFleet(shot: Laser) returns (h: Hit)
      requires fleet.Valid() && particleSystem.Valid()
      modifies this`score, fleet`aliens, fleet`aliensDestroyed, particleSystem
      ensures fleet.Valid() && particleSystem.Valid()
      ensures h == FirstHit(old(fleet.aliens), shot.Box())
      ensures h.NoHit? ==>
        fleet.aliens == old(fleet.aliens) && score == old(score) && fleet.aliensDestroyed == old(fleet.aliensDestroyed) &&
        particleSystem.particles == old(particleSystem.particles)
      ensures h.HitAt? ==>
        fleet.aliens == old(fleet.aliens)[h.index := old(fleet.aliens)[h.index].(active := false)] &&
        score == old(score) + old(fleet.aliens)[h.index].points &&
        fleet.aliensDestroyed == old(fleet.aliensDestroyed) + 1 &&
        |particleSystem.particles| == |old(particleSystem.particles)| + 30 &&
        particleSystem.particles[..|old(particleSystem.particles)|] == old(particleSystem.particles)
    {
      h := FirstHit(fleet.aliens, shot.Box());
      if h.HitAt? {
        var alien := fleet.aliens[h.index];
        fleet.Destroy(h.index);
        score := score + alien.points;
        particleSystem.AddExplosion(alien.x, alien.y, alien.color, 30, 4.0);
      }
    }

    /**
     * The second loop of `check_collisions`: every active fleet laser touching the ship calls
     * `hit`; only the first of them can land (the hit makes the ship invincible), and a landed
     * hit removes that laser and sets off a 20-particle burst on the ship's top edge.
     */
    method AlienShotsHitPlayer()
      requires fleet.Valid() && particleSystem.Valid()
      modifies fleet`lasers, player, particleSystem
      ensures fleet.Valid() && particleSystem.Valid()
      ensures player.x == old(player.x) && player.lasers == old(player.lasers) && player.lastShotTime == old(player.lastShotTime)
      ensures var h := FirstStrike(old(fleet.lasers), old(player.Box()));
        h.HitAt? && !old(player.invincible) ==>
          fleet.lasers == old(fleet.lasers)[..h.index] + old(fleet.lasers)[h.index + 1..] && ShipHit(old(player.lives), old(player.shakeAmount)) &&
          |particleSystem.particles| == |old(particleSystem.particles)| + 20 &&
          particleSystem.particles[..|old(particleSystem.particles)|] == old(particleSystem.particles)
      ensures var h := FirstStrike(old(fleet.lasers), old(player.Box()));
        !(h.HitAt? && !old(player.invincible)) ==>
          fleet.lasers == old(fleet.lasers) && player.lives == old(player.lives) &&
          player.HitState() == old(player.HitState()) && particleSystem.particles == old(particleSystem.particles)
    {
      var shots := fleet.lasers;
      var box := player.Box();
      ghost var lives0, shake0, state0, particles0 := player.lives, player.shakeAmount, player.HitState(), particleSystem.particles;
      ghost var hit: Hit := NoHit;
      var i := 0;
      while i < |shots|
        invariant 0 <= i <= |shots|
        invariant fleet.Valid() && particleSystem.Valid()
        invariant player.x == old(player.x) && player.lasers == old(player.lasers) && player.lastShotTime == old(player.lastShotTime)
        invariant box == player.Box()
        invariant hit == FirstStrike(shots[..i], box)
        invariant hit.HitAt? && !old(player.invincible) ==>
          hit.index < i && fleet.lasers == shots[..hit.index] + shots[hit.index + 1..] && ShipHit(lives0, shake0) &&
          |particleSystem.particles| == |particles0| + 20 && particleSystem.particles[..|particles0|] == particles0
        invariant !(hit.HitAt? && !old(player.invincible)) ==>
          fleet.lasers == shots && player.lives == lives0 && player.HitState() == state0 && particleSystem.particles == particles0
      {
        FirstStrikeExtend(shots, box, i);
        LaserAgainstShip(shots[i], i, box);
        if hit.NoHit? && StrikesPlayer(shots[i], box) {
          hit := HitAt(i);
        }
        i := i + 1;
      }
      assert shots[..i] == shots;
    }

    /**
     * The ship's state right after a hit that landed: one life fewer, hit and invincible,
     * with the shake left as it was.
     */
    ghost predicate ShipHit(livesBefore: int, shakeBefore: real)
      reads this, player
    {
      player.lives == livesBefore - 1 && player.isHit && player.hitTimer == HitDuration &&
      player.invincible && player.invincibleTimer == InvincibleDuration && player.shakeAmount == shakeBefore
    }

    /**
     * The body of the second loop of `check_collisions`, for the fleet laser `l` and the ship's
     * box: if it touches the ship and the hit lands, the laser (at index i, nothing having been removed before)
     * goes, and the ship's top edge bursts into 20 particles.
     */
    method LaserAgainstShip(l: AlienLaser, i: nat, box: Rect)
      requires fleet.Valid() && particleSystem.Valid() && box == player.Box()
      requires !player.invincible ==> i < |fleet.lasers| && fleet.lasers[i] == l
      modifies fleet`lasers, player, particleSystem
      ensures fleet.Valid() && particleSystem.Valid()
      ensures player.x == old(player.x) && player.lasers == old(player.lasers) && player.lastShotTime == old(player.lastShotTime)
      ensures StrikesPlayer(l, box) && !old(player.invincible) ==>
        fleet.lasers == old(fleet.lasers)[..i] + old(fleet.lasers)[i + 1..] && ShipHit(old(player.lives), old(player.shakeAmount)) &&
        |particleSystem.particles| == |old(particleSystem.particles)| + 20 &&
        particleSystem.particles[..|old(particleSystem.particles)|] == old(particleSystem.particles)
      ensures !(StrikesPlayer(l, box) && !old(player.invincible)) ==>
        fleet.lasers == old(fleet.lasers) && player.lives == old(player.lives) &&
        player.HitState() == old(player.HitState()) && particleSystem.particles == old(particleSystem.particles)
    {
      if l.active && Collide(box, l.Box()) {
        var applied := player.Hit();
        if applied {
          fleet.lasers := fleet.lasers[..i] + fleet.lasers[i + 1..];
          particleSystem.AddExplosion(player.x, player.y - (ShipHeight / 2) as real, ShipColor, 20, 3.0);
        }
      }
    }

    /**
     * The third loop of `check_collisions`: `game_over` runs once for every active alien whose
     * bottom edge has passed the line 50 pixels above the bottom of the screen.
     */
    method AliensReachingBottom()
      requires particleSystem.Valid()
      modifies this`state, this`highScore, particleSystem
      ensures particleSystem.Valid()
      ensures LandedCount(fleet.aliens) > 0 ==> state == GameOver && highScore == Record(old(highScore), score)
      ensures LandedCount(fleet.aliens) == 0 ==> state == old(state) && highScore == old(highScore)
      ensures |particleSystem.particles| == |old(particleSystem.particles)| + 400 * LandedCount(fleet.aliens)
      ensures particleSystem.particles[..|old(particleSystem.particles)|] == old(particleSystem.particles)
    {
      var aliens := fleet.aliens;
      ghost var particles0 := particleSystem.particles;
      var i := 0;
      while i < |aliens|
        invariant 0 <= i <= |aliens|
        invariant particleSystem.Valid()
        invariant LandedCount(aliens[..i]) > 0 ==> state == GameOver && highScore == Record(old(highScore), score)
        invariant LandedCount(aliens[..i]) == 0 ==> state == old(state) && highScore == old(highScore)
        invariant |particleSystem.particles| == |particles0| + 400 * LandedCount(aliens[..i])
        invariant particleSystem.particles[..|particles0|] == particles0
      {
        assert aliens[..i + 1][..i] == aliens[..i];
        if aliens[i].active && aliens[i].y + (aliens[i].height / 2) as real > BottomLine as real {
          ghost var before := particleSystem.particles;
          EndGame();
          assert particleSystem.particles[..|particles0|] == before[..|particles0|];
        }
        i := i + 1;
      }
      assert aliens[..i] == aliens;
    }

    /** `check_game_over`: out of lives means game over. */
    method CheckGameOver()
      requires particleSystem.Valid()
      modifies this`state, this`highScore, particleSystem
      ensures particleSystem.Valid()
      ensures player.lives <= 0 ==> state == GameOver && highScore == Record(old(highScore), score)
      ensures player.lives <= 0 ==> |particleSystem.particles| == |old(particleSystem.particles)| + 400
      ensures player.lives > 0 ==> state == old(state) && highScore == old(highScore) && particleSystem.particles == old(particleSystem.particles)
    {
      if player.lives <= 0 {
        EndGame();
      }
    }
    /** `check_collisions`: the player's lasers, then the fleet's lasers, then the landing check. */
    method CheckCollisions()
      requires fleet.Valid() && particleSystem.Valid()
      modifies this`score, this`state, this`highScore, player, fleet`aliens, fleet`aliensDestroyed, fleet`lasers, particleSystem
      ensures fleet.Valid() && particleSystem.Valid()
      ensures var v := Resolve(old(fleet.aliens), old(player.lasers));
        fleet.aliens == v.aliens && player.lasers == v.kept && score == old(score) + v.points &&
        fleet.aliensDestroyed == old(fleet.aliensDestroyed) + v.hits
      ensures player.x == old(player.x) && player.lastShotTime == old(player.lastShotTime)
      ensures var h := FirstStrike(old(fleet.lasers), old(player.Box()));
        Lands(old(fleet.lasers), old(player.Box()), old(player.invincible)) ==>
          h.HitAt? && fleet.lasers == old(fleet.lasers)[..h.index] + old(fleet.lasers)[h.index + 1..] &&
          ShipHit(old(player.lives), old(player.shakeAmount))
      ensures !Lands(old(fleet.lasers), old(player.Box()), old(player.invincible)) ==>
        fleet.lasers == old(fleet.lasers) && player.lives == old(player.lives) && player.HitState() == old(player.HitState())
      ensures LandedCount(fleet.aliens) > 0 ==> state == GameOver && highScore == Record(old(highScore), score)
      ensures LandedCount(fleet.aliens) == 0 ==> state == old(state) && highScore == old(highScore)
      ensures |particleSystem.particles| ==
        |old(particleSystem.particles)| + 30 * Resolve(old(fleet.aliens), old(player.lasers)).hits +
        (if Lands(old(fleet.lasers), old(player.Box()), old(player.invincible)) then 20 else 0) +
        400 * LandedCount(fleet.aliens)
      ensures player.lives == old(player.lives) || player.lives == old(player.lives) - 1
      ensures state == old(state) || state == GameOver
      ensures (forall k :: 0 <= k < |old(fleet.aliens)| ==> old(fleet.aliens)[k].points > 0) ==> score >= old(score)
    {
      ResolveScore(fleet.aliens, player.lasers);
      PlayerShotsHitAliens();
      AlienShotsHitPlayer();
      AliensReachingBottom();
    }

    /**
     * The level check at the end of a playing frame: a cleared fleet means the next level,
     * a fresh fleet that moves 5 pixels per step faster and shoots 5 points more often.
     */
    method NextLevelIfCleared()
      requires fleet.Valid() && fleet.rows > 0 && fleet.cols > 0
      modifies this`level, fleet
      ensures fleet.Valid() && AnyActive(fleet.aliens)
      ensures AllDestroyed(old(fleet.aliens)) ==>
        level == old(level) + 1 && fleet.aliens == Grid(fleet.rows, fleet.cols) && fleet.lasers == [] &&
        fleet.speed == old(fleet.speed) + 5.0 && fleet.shootChance == old(fleet.shootChance) + 0.05
      ensures AllDestroyed(old(fleet.aliens)) ==>
        fleet.offsetX == 0.0 && fleet.offsetY == 0.0 && fleet.aliensDestroyed == 0 && fleet.difficultyFactor == 1.0 &&
        fleet.shootTimer == 0.0 && fleet.moveTimer == 0.0 && fleet.direction == old(fleet.direction) &&
        fleet.moveInterval == old(fleet.moveInterval) && fleet.shootInterval == old(fleet.shootInterval)
      ensures !AllDestroyed(old(fleet.aliens)) ==> level == old(level) && unchanged(fleet)
    {
      if AllDestroyed(fleet.aliens) {
        level := level + 1;
        fleet.Reset();
        fleet.speed := fleet.speed + 5.0;
        fleet.shootChance := fleet.shootChance + 0.05;
      }
    }

    /** The moving part of a playing frame: the ship, the fleet and the particles each take one step. */
    method StepObjects(bob: int -> real, roll: real)
      requires Valid()
      modifies player, fleet, particleSystem
      ensures fleet.Valid() && particleSystem.Valid()
      ensures player.x == Steer(old(player.x), dt, Held(keys, KeyLeft) || Held(keys, KeyA), Held(keys, KeyRight) || Held(keys, KeyD))
      ensures player.lives == old(player.lives)
      ensures fleet.speed == old(fleet.speed) && fleet.shootChance == old(fleet.shootChance)
      ensures forall k :: 0 <= k < |fleet.aliens| ==> fleet.aliens[k].points > 0
    {
      player.Update(dt, keys);
      var _ := fleet.Update(dt, bob, roll);
      particleSystem.Update(dt);
      forall k | 0 <= k < |fleet.aliens|
        ensures fleet.aliens[k].points > 0
      {
        fleet.PointsPositive(k);
      }
    }

    /**
     * The playing branch of `update`: move everything, resolve collisions, end the game when
     * the lives are gone, and start the next level when the fleet is cleared. A frame costs at
     * most one life, never lowers the score, and ends the game once the lives run out.
     */
    method PlayFrame(bob: int -> real, roll: real)
      requires Valid() && state == Playing
      modifies this`score, this`state, this`highScore, this`level, player, fleet, particleSystem
      ensures Valid()
      ensures state == Playing || state == GameOver
      ensures score >= old(score) && highScore >= old(highScore)
      ensures state == GameOver ==> highScore == Record(old(highScore), score)
      ensures state == Playing ==> highScore == old(highScore)
      ensures player.x == Steer(old(player.x), dt, Held(keys, KeyLeft) || Held(keys, KeyA), Held(keys, KeyRight) || Held(keys, KeyD))
      ensures player.lives == old(player.lives) || player.lives == old(player.lives) - 1
      ensures player.lives <= 0 ==> state == GameOver
      ensures level == old(level) || level == old(level) + 1
      ensures level == old(level) + 1 ==>
        fleet.aliens == Grid(fleet.rows, fleet.cols) && fleet.speed == old(fleet.speed) + 5.0 &&
        fleet.shootChance == old(fleet.shootChance) + 0.05
      ensures level == old(level) ==> fleet.speed == old(fleet.speed) && fleet.shootChance == old(fleet.shootChance)
    {
      MoveAndCollide(bob, roll);
      CheckGameOver();
      NextLevelIfCleared();
    }

    /** The first half of a playing frame: everything moves, then `check_collisions`. */
    method MoveAndCollide(bob: int -> real, roll: real)
      requires Valid() && state == Playing
      modifies this`score, this`state, this`highScore, player, fleet, particleSystem
      ensures fleet.Valid() && particleSystem.Valid()
      ensures score >= old(score) && (state == Playing || state == GameOver)
      ensures state == GameOver ==> highScore == Record(old(highScore), score)
      ensures state == Playing ==> highScore == old(highScore)
      ensures player.x == Steer(old(player.x), dt, Held(keys, KeyLeft) || Held(keys, KeyA), Held(keys, KeyRight) || Held(keys, KeyD))
      ensures player.lives == old(player.lives) || player.lives == old(player.lives) - 1
      ensures fleet.speed == old(fleet.speed) && fleet.shootChance == old(fleet.shootChance)
    {
      StepObjects(bob, roll);
      CheckCollisions();
    }

    /**
     * The game-over branch of `update`: the screen stays for three seconds, then gives way
     * to the menu with the timer back at zero; the particles keep moving.
     */
    method GameOverFrame()
      requires Valid() && state == GameOver
      modifies this`gameOverTimer, this`state, particleSystem
      ensures Valid()
      ensures old(gameOverTimer) + dt >= GameOverDelay ==> state == Menu && gameOverTimer == 0.0
      ensures old(gameOverTimer) + dt < GameOverDelay ==> state == GameOver && gameOverTimer == old(gameOverTimer) + dt
      ensures particleSystem.particles == Survivors(old(particleSystem.particles), dt)
    {
      gameOverTimer := gameOverTimer + dt;
      if gameOverTimer >= GameOverDelay {
        state := Menu;
        gameOverTimer := 0.0;
      }
      particleSystem.Update(dt);
    }

    /**
     * `update`: the stars always move; play and the game-over screen advance the rest, while
     * the menu and the pause screen leave everything else as it is.
     */
    method Update(bob: int -> real, roll: real)
      requires Valid()
      modifies this`score, this`state, this`highScore, this`level, this`gameOverTimer, player, fleet, particleSystem, starfield
      ensures Valid()
      ensures |starfield.stars| == |old(starfield.stars)|
      ensures forall i :: 0 <= i < |starfield.stars| ==>
        Follows(starfield.stars[i], old(starfield.stars)[i], dt, starfield.screenWidth, starfield.screenHeight)
      ensures score >= old(score) && highScore >= old(highScore)
      ensures old(state) == Playing ==> state == Playing || state == GameOver
      ensures old(state) == GameOver ==> state == GameOver || state == Menu
      ensures old(state) == Menu || old(state) == Paused ==>
        state == old(state) && score == old(score) && level == old(level) && highScore == old(highScore) &&
        gameOverTimer == old(gameOverTimer) && unchanged(player, fleet, particleSystem)
    {
      starfield.Update(dt);
      if state == Playing {
        PlayFrame(bob, roll);
      } else if state == GameOver {
        GameOverFrame();
      }
    }

    /**
     * `handle_input`: the events of one frame in order. A press marks its key held and acts
     * on the mode as `OnKeyDown` says; a release marks its key released; the close event,
     * or ESC on the menu or game-over screen, ends the program at once.
     */
    method HandleInput(events: seq<Event>) returns (quit: bool)
      requires Valid()
      modifies this`state, this`score, this`level, this`player, this`keys, player, fleet, particleSystem
      ensures Valid() && highScore == old(highScore)
      ensures player == old(player) || fresh(player)
      ensures quit == Quits(old(state), events)
      ensures !quit ==> state == ModeAfterAll(old(state), Presses(events)) && keys == HeldAfter(old(keys), events)
      ensures ModeOnlyRun(old(state), events) ==>
        score == old(score) && level == old(level) && player == old(player) && unchanged(player, fleet, particleSystem)
    {
      var i := 0;
      while i < |events|
        invariant 0 <= i <= |events|
        invariant Valid() && highScore == old(highScore)
        invariant player == old(player) || fresh(player)
        invariant !Quits(old(state), events[..i])
        invariant state == ModeAfterAll(old(state), Presses(events[..i])) && keys == HeldAfter(old(keys), events[..i])
        invariant ModeOnlyRun(old(state), events[..i]) ==>
          score == old(score) && level == old(level) && player == old(player) && unchanged(player, fleet, particleSystem)
      {
        assert events[..i + 1][..i] == events[..i];
        ModeOnlyRunPrefix(old(state), events, i + 1);
        var exit := Advance(old(state), old(keys), events, i);
        if exit {
          QuitsPrefix(old(state), events, i + 1);
          return true;
        }
        i := i + 1;
      }
      assert events[..i] == events;
      quit := false;
    }

    /**
     * Event i of a run that has not quit yet, with the mode and the held keys as the earlier
     * events left them: afterwards they are as the first i + 1 events leave them.
     */
    method Advance(ghost mode0: GameState, ghost keys0: map<Key, bool>, events: seq<Event>, i: nat) returns (exit: bool)
      requires Valid() && i < |events| && !Quits(mode0, events[..i])
      requires state == ModeAfterAll(mode0, Presses(events[..i])) && keys == HeldAfter(keys0, events[..i])
      modifies this`state, this`score, this`level, this`player, this`keys, player, fleet, particleSystem
      ensures Valid() && highScore == old(highScore)
      ensures player == old(player) || fresh(player)
      ensures exit == Quits(mode0, events[..i + 1])
      ensures !exit ==> state == ModeAfterAll(mode0, Presses(events[..i + 1])) && keys == HeldAfter(keys0, events[..i + 1])
      ensures ModeOnlyRun(mode0, events[..i + 1]) ==>
        score == old(score) && level == old(level) && player == old(player) && unchanged(player, fleet, particleSystem)
    {
      EventStep(mode0, keys0, events, i);
      if events[i].KeyDown? {
        ModeStep(mode0, Presses(events[..i]), events[i].key);
      } else {
        assert Presses(events[..i + 1]) == Presses(events[..i]);
      }
      exit := Dispatch(events[i]);
    }

    /**
     * One event of `handle_input`: the close event ends the program, a release marks its key
     * released, and a press goes to `Press`.
     */
    method Dispatch(e: Event) returns (exit: bool)
      requires Valid()
      modifies this`state, this`score, this`level, this`player, this`keys, player, fleet, particleSystem
      ensures Valid() && highScore == old(highScore)
      ensures player == old(player) || fresh(player)
      ensures exit == (e.Quit? || (e.KeyDown? && OnKeyDown(old(state), e.key) == Exit))
      ensures !exit ==> state == (if e.KeyDown? then ModeAfter(old(state), e.key) else old(state))
      ensures !exit ==> keys == match e case KeyDown(k) => old(keys)[k := true] case KeyUp(k) => old(keys)[k := false] case Quit => old(keys)
      ensures (e.KeyDown? ==> ModeOnly(OnKeyDown(old(state), e.key))) ==>
        score == old(score) && level == old(level) && player == old(player) && unchanged(player, fleet, particleSystem)
    {
      match e {
        case Quit =>
          exit := true;
        case KeyUp(k) =>
          keys := keys[k := false];
          exit := false;
        case KeyDown(k) =>
          exit := Press(k);
      }
    }

    /** One key press of `handle_input`: the key is marked held, then `OnKeyDown` says what happens. */
    method Press(k: Key) returns (exit: bool)
      requires Valid()
      modifies this`state, this`score, this`level, this`player, this`keys, player, fleet, particleSystem
      ensures Valid() && highScore == old(highScore)
      ensures player == old(player) || fresh(player)
      ensures keys == old(keys)[k := true]
      ensures exit == (OnKeyDown(old(state), k) == Exit)
      ensures !exit ==> state == ModeAfter(old(state), k)
      ensures exit ==> state == old(state)
      ensures ModeOnly(OnKeyDown(old(state), k)) ==>
        score == old(score) && level == old(level) && player == old(player) && unchanged(player, fleet, particleSystem)
      ensures OnKeyDown(old(state), k) == FireShot ==>
        score == old(score) && level == old(level) && player == old(player) && unchanged(fleet, particleSystem) &&
        player.x == old(player.x) && player.lives == old(player.lives) && player.HitState() == old(player.HitState()) &&
        if currentTime - old(player.lastShotTime) >= ShootCooldown then
          player.lasers == old(player.lasers) + [NewLaser(player.x, player.y - (ShipHeight / 2) as real, LaserSpeed)] &&
          player.lastShotTime == currentTime
        else
          player.lasers == old(player.lasers) && player.lastShotTime == old(player.lastShotTime)
      ensures OnKeyDown(old(state), k) == StartNew ==>
        score == 0 && level == 1 && fresh(player) && player.x == (Width / 2) as real && player.y == (Height - 50) as real &&
        player.lives == StartLives && player.lasers == [] && player.lastShotTime == 0.0 && !player.isHit &&
        !player.invincible && fleet.aliens == Grid(fleet.rows, fleet.cols) && fleet.lasers == [] &&
        fleet.aliensDestroyed == 0 && fleet.offsetX == 0.0 && fleet.offsetY == 0.0 &&
        fleet.speed == old(fleet.speed) && fleet.shootChance == old(fleet.shootChance) && particleSystem.particles == []
    {
      keys := keys[k := true];
      exit := false;
      match OnKeyDown(state, k) {
        case Exit =>
          exit := true;
        case SwitchTo(m) =>
          state := m;
        case StartNew =>
          StartGame();
        case FireShot =>
          var _ := player.Shoot(currentTime);
        case Ignore =>
      }
    }

    /**
     * One turn of `run`: read the clock, take the time step capped at 50 ms, handle the
     * frame's events and, unless they end the program, update the game.
     */
    method Tick(now: real, events: seq<Event>, bob: int -> real, roll: real) returns (running: bool)
      requires Valid()
      modifies this, player, fleet, particleSystem, starfield
      ensures Valid()
      ensures currentTime == now && lastTime == now && dt == MinReal(now - old(lastTime), MaxDt) && dt <= MaxDt
      ensures running == !Quits(old(state), events)
    {
      currentTime := now;
      dt := currentTime - lastTime;
      lastTime := currentTime;
      dt := MinReal(dt, MaxDt);
      var quit := HandleInput(events);
      if quit {
        return false;
      }
      Update(bob, roll);
      return true;
    }
  }
}
