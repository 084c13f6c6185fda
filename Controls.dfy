/** The keyboard side of src/main.c: the four arrow-key flags that
    key_callback keeps, the priority chain updatePlayerDirection turns
    them into, the commands bound to SPACE, ESCAPE and ENTER, and the
    density clamp in front of the benchmark scene. */
module Controls {
  import opened GameTypes
  import opened World
  import opened Spawning
  import opened Motion
  import opened Step
  import opened Benchmark
  import opened GameState

  /** The keys key_callback tells apart (GLFW_KEY_UP … GLFW_KEY_ENTER);
      every other key is KeyOther. */
  datatype Key = KeyUp | KeyDown | KeyLeft | KeyRight | KeySpace | KeyEscape | KeyEnter | KeyOther

  /** GLFW_PRESS, GLFW_REPEAT, GLFW_RELEASE. */
  datatype KeyAction = Press | Repeat | Release

  /** The static keyUpPressed, keyDownPressed, keyLeftPressed and
      keyRightPressed flags (src/main.c:21-24). */
  datatype Keys = Keys(up: bool, down: bool, left: bool, right: bool)

  const NoKeys := Keys(false, false, false, false)

  predicate IsArrow(key: Key)
  {
    key == KeyUp || key == KeyDown || key == KeyLeft || key == KeyRight
  }

  // ----- Direction from the held keys -----

  /** -1 for up, 1 for down, 0 for neither; up wins over down. */
  function Vertical(k: Keys): int
  {
    if k.up then -1 else if k.down then 1 else 0
  }

  /** -1 for left, 1 for right, 0 for neither; left wins over right. */
  function Horizontal(k: Keys): int
  {
    if k.left then -1 else if k.right then 1 else 0
  }

  /** The direction with the given vertical and horizontal parts. */
  function Compose(v: int, h: int): Direction
  {
    if v < 0 then (if h < 0 then UpLeft else if h > 0 then UpRight else Up)
    else if v > 0 then (if h < 0 then DownLeft else if h > 0 then DownRight else Down)
    else if h < 0 then Left else if h > 0 then Right else None
  }

  /** The direction the held keys ask for: each axis on its own, up over
      down and left over right, then the two parts put together. This is
      the reference the priority chain of updatePlayerDirection is proved
      against. */
  function Steer(k: Keys): (r: Direction)
    ensures (r == Up || r == UpLeft || r == UpRight) <==> k.up
    ensures (r == Down || r == DownLeft || r == DownRight) <==> k.down && !k.up
    ensures (r == Left || r == UpLeft || r == DownLeft) <==> k.left
    ensures (r == Right || r == UpRight || r == DownRight) <==> k.right && !k.left
  {
    Compose(Vertical(k), Horizontal(k))
  }

  /** The orders the chain (src/main.c:27-44) promises: up with left is
      up-left, the diagonals are tested before any single key so up, right
      and down together are up-right, up beats down, left beats right, and
      no key is no move. */
  lemma SteerPriorities(k: Keys)
    ensures k.up && k.left ==> Steer(k) == UpLeft
    ensures k.up && k.right && k.down && !k.left ==> Steer(k) == UpRight
    ensures k.up && k.down && !k.left && !k.right ==> Steer(k) == Up
    ensures k.left && k.right && !k.up && !k.down ==> Steer(k) == Left
    ensures k == NoKeys <==> Steer(k) == None
  {
  }

  /** In a frame of positive length the player moves up exactly when up
      is held, down exactly when down is held without up, and likewise
      left and right: opposite keys cancel to the first of the pair, never
      to a standstill. */
  lemma {:induction false} SteerMovesWithKeys(k: Keys, dt: real)
    requires dt > 0.0
    ensures Displacement(Steer(k), dt).1 < 0.0 <==> k.up
    ensures Displacement(Steer(k), dt).1 > 0.0 <==> k.down && !k.up
    ensures Displacement(Steer(k), dt).0 < 0.0 <==> k.left
    ensures Displacement(Steer(k), dt).0 > 0.0 <==> k.right && !k.left
  {
    var d := Steer(k);
    var v := Displacement(d, dt);
    assert v.1 < 0.0 <==> d == Up || d == UpLeft || d == UpRight;
    assert v.1 > 0.0 <==> d == Down || d == DownLeft || d == DownRight;
    assert v.0 < 0.0 <==> d == Left || d == UpLeft || d == DownLeft;
    assert v.0 > 0.0 <==> d == Right || d == UpRight || d == DownRight;
  }

  // ----- Key events -----

  /** The flags after an event: PRESS and REPEAT of an arrow key set its
      flag, RELEASE clears it, and no other key touches them
      (src/main.c:49-91). */
  function KeysAfter(k: Keys, key: Key, action: KeyAction): (r: Keys)
    ensures !IsArrow(key) ==> r == k
    ensures key == KeyUp ==> r == k.(up := action != Release)
    ensures key == KeyDown ==> r == k.(down := action != Release)
    ensures key == KeyLeft ==> r == k.(left := action != Release)
    ensures key == KeyRight ==> r == k.(right := action != Release)
  {
    var held := action != Release;
    match key
    case KeyUp => k.(up := held)
    case KeyDown => k.(down := held)
    case KeyLeft => k.(left := held)
    case KeyRight => k.(right := held)
    case _ => k
  }

  /** Auto-repeat is a press again; a release after a press leaves the
      key up whatever it was before. */
  lemma KeyEventsSettle(k: Keys, key: Key)
    ensures KeysAfter(KeysAfter(k, key, Press), key, Repeat) == KeysAfter(k, key, Press)
    ensures KeysAfter(KeysAfter(k, key, Press), key, Release) == KeysAfter(k, key, Release)
    ensures KeysAfter(KeysAfter(k, key, Release), key, Release) == KeysAfter(k, key, Release)
  {
  }

  /** The commands of an event (src/main.c:62-73): SPACE fires, ESCAPE
      ends the game, ENTER starts a new one only when the game is over;
      a release runs no command. */
  function Command(w: World, key: Key, action: KeyAction): (r: World)
    ensures action == Release || key == KeyOther || IsArrow(key) ==> r == w
    ensures key == KeyEscape && action != Release ==> r.gameOver
    ensures r.draws == w.draws && |r.bullets| == |w.bullets| && |r.enemies| == |w.enemies|
  {
    if action == Release then w
    else match key
      case KeySpace => Fire(w)
      case KeyEscape => w.(gameOver := true)
      case KeyEnter => if w.gameOver then Init(w) else w
      case _ => w
  }

  /** The whole event: flags, command, then the direction recomputed from
      the new flags whatever the key (src/main.c:92). */
  function OnKey(w: World, k: Keys, key: Key, action: KeyAction): (r: World)
    ensures r.player.direction == Steer(KeysAfter(k, key, action))
    ensures r.draws == w.draws && r.gameOver == Command(w, key, action).gameOver
  {
    var c := Command(w, key, action);
    c.(player := c.player.(direction := Steer(KeysAfter(k, key, action))))
  }

  /** An arrow key event, or any release, changes only the player's
      direction, and the direction always follows the flags. */
  lemma {:induction false} ArrowsOnlySteer(w: World, k: Keys, key: Key, action: KeyAction)
    ensures OnKey(w, k, key, action).player.direction == Steer(KeysAfter(k, key, action))
    ensures IsArrow(key) || action == Release || key == KeyOther ==>
            OnKey(w, k, key, action) == w.(player := w.player.(direction := Steer(KeysAfter(k, key, action))))
  {
    if IsArrow(key) || action == Release || key == KeyOther {
      assert Command(w, key, action) == w;
    }
  }

  /** ESCAPE always ends the game; ENTER while playing does nothing but
      steer, and ENTER on the game-over screen starts a new game in which
      the player already moves as the held keys ask, although initGame
      itself stops the player. */
  lemma {:induction false} GameOverKeys(w: World, k: Keys, action: KeyAction)
    requires action != Release
    ensures OnKey(w, k, KeyEscape, action).gameOver
    ensures !w.gameOver ==> OnKey(w, k, KeyEnter, action) == w.(player := w.player.(direction := Steer(k)))
    ensures w.gameOver ==> OnKey(w, k, KeyEnter, action) == Init(w).(player := Init(w).player.(direction := Steer(k)))
    ensures w.gameOver ==> Init(w).player.direction == None && !OnKey(w, k, KeyEnter, action).gameOver
  {
    assert KeysAfter(k, KeyEnter, action) == k;
  }

  /** SPACE fires exactly as fireBullet does. */
  lemma SpaceFires(w: World, k: Keys, action: KeyAction)
    requires action != Release
    ensures OnKey(w, k, KeySpace, action) == Fire(w).(player := Fire(w).player.(direction := Steer(k)))
  {
    assert KeysAfter(k, KeySpace, action) == k;
  }

  /** The static flags with key_callback and updatePlayerDirection. */
  class Keyboard {
    var up: bool
    var down: bool
    var left: bool
    var right: bool

    function Flags(): Keys
      reads this
    {
      Keys(up, down, left, right)
    }

    /** All four flags start false (src/main.c:21-24). */
    constructor ()
      ensures Flags() == NoKeys
    {
      up, down, left, right := false, false, false, false;
    }

    /** updatePlayerDirection (src/main.c:26-46): the diagonal pairs in
        the order up-left, up-right, down-left, down-right, then up, down,
        left, right, else no move. It agrees with Steer. */
    method UpdatePlayerDirection(g: Game)
      modifies g`player
      ensures g.player == old(g.player).(direction := Steer(Flags()))
    {
      var d;
      if up && left {
        d := UpLeft;
      } else if up && right {
        d := UpRight;
      } else if down && left {
        d := DownLeft;
      } else if down && right {
        d := DownRight;
      } else if up {
        d := Up;
      } else if down {
        d := Down;
      } else if left {
        d := Left;
      } else if right {
        d := Right;
      } else {
        d := None;
      }
      g.player := g.player.(direction := d);
    }

    /** key_callback (src/main.c:48-93). */
    method KeyCallback(g: Game, key: Key, action: KeyAction)
      requires g.Valid()
      modifies this, g, g.bullets, g.enemies, g.enemyBullets, g.powerups, g.explosions
      ensures g.Valid()
      ensures Flags() == KeysAfter(old(Flags()), key, action)
      ensures g.State() == OnKey(old(g.State()), old(Flags()), key, action)
    {
      if action == Press || action == Repeat {
        KeyDown(g, key, action);
      } else {
        KeyUp(key);
      }
      UpdatePlayerDirection(g);
    }

    /** The PRESS and REPEAT branch of key_callback (src/main.c:49-74). */
    method KeyDown(g: Game, key: Key, action: KeyAction)
      requires g.Valid() && action != Release
      modifies this, g, g.bullets, g.enemies, g.enemyBullets, g.powerups, g.explosions
      ensures g.Valid()
      ensures Flags() == KeysAfter(old(Flags()), key, action)
      ensures g.State() == Command(old(g.State()), key, action)
    {
      match key {
        case KeyUp => up := true;
        case KeyDown => down := true;
        case KeyRight => right := true;
        case KeyLeft => left := true;
        case KeySpace => g.FireBullet();
        case KeyEscape => g.gameOver := true;
        case KeyEnter =>
          if g.gameOver {
            g.InitGame();
          }
        case KeyOther =>
      }
    }

    /** The RELEASE branch of key_callback (src/main.c:75-90). */
    method KeyUp(key: Key)
      modifies this
      ensures Flags() == KeysAfter(old(Flags()), key, Release)
    {
      match key {
        case KeyUp => up := false;
        case KeyDown => down := false;
        case KeyRight => right := false;
        case KeyLeft => left := false;
        case _ =>
      }
    }
  }

  /** The benchmark start in main (src/main.c:224-226): the density
      option clamped into [0, 100] in place, then prepareBenchmarkScene,
      which clamps once more to no effect. */
  method StartBenchmark(g: Game, density: int)
    requires g.Valid()
    modifies g, g.bullets, g.enemies, g.enemyBullets, g.powerups, g.explosions
    ensures g.Valid() && g.State() == PrepareBenchmark(old(g.State()), density, g.rand)
  {
    var d := density;
    if d < 0 {
      d := 0;
    }
    if d > 100 {
      d := 100;
    }
    assert d == ClampDensity(density);
    g.PrepareBenchmarkScene(d);
  }

  /** The clamp main applies before the scene (src/main.c:224-225) leaves
      the scene as it would be without it. */
  lemma ClampBeforeSceneHarmless(w: World, density: int, rand: Oracle)
    ensures PrepareBenchmark(w, ClampDensity(density), rand) == PrepareBenchmark(w, density, rand)
  {
  }
}
