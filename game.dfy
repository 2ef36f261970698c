/**
 * The game's shared state and the steps that change it: a key press or
 * release, one input tick (counters, turbo, slide, collision sweep, escape and
 * pause keys), the collision sweep itself and one spawn step of the game
 * loop. Each tick of the two threads is modelled as one sequential step.
 */
module Game {
  import opened Geometry
  import opened CameraModel
  import opened Controls
  import opened Capture
  import opened Spawning

  /** An index into the key table (an unsigned char). */
  type Key = k: int | 0 <= k < 256

  const KEY_W: Key := 119
  const KEY_S: Key := 115
  const KEY_A: Key := 97
  const KEY_D: Key := 100
  const KEY_SPACE: Key := 32
  const KEY_T: Key := 116
  const KEY_P: Key := 112
  const KEY_ESC: Key := 27

  /** The distance one unit of a counter moves the eye in one tick. */
  const STEP: real := 0.005

  /** The movement keys held according to the key table. */
  function HeldKeys(keyDown: seq<int>): Held
    requires |keyDown| == 256
  {
    Held(keyDown[KEY_W] == 1, keyDown[KEY_S] == 1, keyDown[KEY_A] == 1, keyDown[KEY_D] == 1, keyDown[KEY_SPACE] == 1)
  }

  /** Escape outside the splash screen ends the program. */
  predicate Quits(splash: bool, esc: bool)
  {
    esc && !splash
  }

  /**
   * `paused` after the escape and 'p' blocks of a tick that does not quit:
   * escape on the splash screen unpauses and leaves the splash screen, then
   * 'p' toggles outside the splash screen.
   */
  function PausedAfter(paused: bool, splash: bool, esc: bool, p: bool): bool
  {
    var paused1 := if esc && splash then false else paused;
    var splash1 := splash && !esc;
    if p && !splash1 then !paused1 else paused1
  }

  /** 'p' flips the pause flag except on the splash screen, where it does nothing. */
  lemma PauseKeyRules(paused: bool, splash: bool, p: bool)
    ensures PausedAfter(paused, splash, false, p) == if p && !splash then !paused else paused
    ensures PausedAfter(paused, true, false, p) == paused
    ensures PausedAfter(paused, false, false, true) == !paused
    ensures PausedAfter(paused, true, true, p) == p
  {
  }

  class GameState {
    const camera: Camera
    /** 1 for each key currently held, 0 otherwise. */
    const keyDown: array<int>
    /** The points not yet captured, oldest first. */
    var world: seq<Point3D>
    var orbsCaptured: int
    var orbsReleased: int
    var gameOver: bool
    var paused: bool
    var splash: bool
    var turbo: bool
    var uAccel: int
    var vAccel: int
    var nAccel: int

    function Accels(): Accel
      reads this
    {
      Accel(uAccel, vAccel, nAccel)
    }

    /**
     * The invariant of the running game: counters in bounds, the eye inside
     * the box, and every released point either still in the world or captured.
     */
    ghost predicate Valid()
      reads this, camera
    {
      keyDown.Length == 256 && camera.modelViewMatrix.Length == 16 &&
      InBounds(Accels()) &&
      InBox(camera.eyeLoc) &&
      0 <= orbsCaptured && |world| + orbsCaptured == orbsReleased
    }

    /** The state at start-up: default camera, no keys, empty world, splash screen shown and paused. */
    constructor ()
      ensures Valid()
      ensures fresh(camera) && fresh(keyDown)
      ensures camera.eyeLoc == Point3D(0.0, 0.0, 35.0)
      ensures camera.u == Vector3D(1.0, 0.0, 0.0, 0.0) && camera.v == Vector3D(0.0, 1.0, 0.0, 0.0) &&
              camera.n == Vector3D(0.0, 0.0, 1.0, 0.0)
      ensures forall k :: 0 <= k < keyDown.Length ==> keyDown[k] == 0
      ensures world == [] && orbsCaptured == 0 && orbsReleased == 0
      ensures paused && splash && !turbo && !gameOver
      ensures Accels() == Accel(0, 0, 0)
    {
      camera := new Camera();
      keyDown := new int[256](_ => 0);
      world := [];
      orbsCaptured := 0;
      orbsReleased := 0;
      gameOver := false;
      paused := true;
      splash := true;
      turbo := false;
      uAccel := 0;
      vAccel := 0;
      nAccel := 0;
    }

    /** A key press marks the key as held. */
    method Keyboard(key: Key)
      requires keyDown.Length == 256
      modifies keyDown
      ensures keyDown[..] == old(keyDown[..])[key := 1]
    {
      keyDown[key] := 1;
    }

    /** A key release marks the key as not held. */
    method KeyboardUp(key: Key)
      requires keyDown.Length == 256
      modifies keyDown
      ensures keyDown[..] == old(keyDown[..])[key := 0]
    {
      keyDown[key] := 0;
    }

    /**
     * One sweep of the world: every point examined within the capture radius
     * of the eye is erased and counted; the point after an erased one is not
     * examined.
     */
    method DetectCollision()
      requires Valid()
      modifies this
      ensures Valid()
      ensures world == Survivors(old(world), camera.eyeLoc)
      ensures orbsCaptured == old(orbsCaptured) + |Captured(old(world), camera.eyeLoc)|
      ensures orbsReleased == old(orbsReleased) && Accels() == old(Accels())
      ensures paused == old(paused) && splash == old(splash) && turbo == old(turbo) && gameOver == old(gameOver)
    {
      var playerPos := camera.GetLocation();
      ghost var s := world;
      ghost var kept: seq<Point3D> := [];
      ghost var j := 0;
      var i := 0;
      while i < |world|
        invariant 0 <= j <= |s|
        invariant world == kept + s[j..]
        invariant i == |kept| || (i == |kept| + 1 && j == |s|)
        invariant kept + Survivors(s[j..], playerPos) == Survivors(s, playerPos)
        invariant orbsCaptured + |Captured(s[j..], playerPos)| == old(orbsCaptured) + |Captured(s, playerPos)|
        invariant orbsCaptured >= old(orbsCaptured)
        invariant orbsReleased == old(orbsReleased) && Accels() == old(Accels())
        invariant paused == old(paused) && splash == old(splash) && turbo == old(turbo) && gameOver == old(gameOver)
        decreases |s| - j
      {
        var itemPos := world[i];
        assert itemPos == s[j];
        if SquaredDistance(playerPos, itemPos) < 1.5 * 1.5 {
          SweepErases(s, kept, j, playerPos);
          assert world[..i] == kept && world[i + 1..] == s[j + 1..];
          world := world[..i] + world[i + 1..];
          orbsCaptured := orbsCaptured + 1;
          if j + 1 < |s| {
            kept := kept + [s[j + 1]];
            j := j + 2;
          } else {
            j := |s|;
          }
        } else {
          SweepKeeps(s, kept, j, playerPos);
          kept := kept + [s[j]];
          j := j + 1;
        }
        i := i + 1;
      }
      SweepConserves(s, playerPos);
    }

    /** The forward counter: 'w' lowers it, 's' raises it, each released key lets it decay. */
    method StepForward()
      requires keyDown.Length == 256
      modifies this`nAccel
      ensures nAccel == StepPair(old(nAccel), keyDown[KEY_W] == 1, keyDown[KEY_S] == 1)
    {
      if keyDown[KEY_W] == 1 {
        if nAccel > -MAX_ACCEL {
          nAccel := nAccel - 1;
        }
      } else {
        if nAccel < 0 {
          nAccel := nAccel + 1;
        }
      }
      if keyDown[KEY_S] == 1 {
        if nAccel < MAX_ACCEL {
          nAccel := nAccel + 1;
        }
      } else {
        if nAccel > 0 {
          nAccel := nAccel - 1;
        }
      }
    }

    /** The sideways counter: 'a' lowers it, 'd' raises it, each released key lets it decay. */
    method StepSideways()
      requires keyDown.Length == 256
      modifies this`uAccel
      ensures uAccel == StepPair(old(uAccel), keyDown[KEY_A] == 1, keyDown[KEY_D] == 1)
    {
      if keyDown[KEY_A] == 1 {
        if uAccel > -MAX_ACCEL {
          uAccel := uAccel - 1;
        }
      } else {
        if uAccel < 0 {
          uAccel := uAccel + 1;
        }
      }
      if keyDown[KEY_D] == 1 {
        if uAccel < MAX_ACCEL {
          uAccel := uAccel + 1;
        }
      } else {
        if uAccel > 0 {
          uAccel := uAccel - 1;
        }
      }
    }

    /** The jetpack counter: the space bar raises it, releasing it lets it decay. */
    method StepJetpack()
      requires keyDown.Length == 256
      modifies this`vAccel
      ensures vAccel == StepLift(old(vAccel), keyDown[KEY_SPACE] == 1)
    {
      if keyDown[KEY_SPACE] == 1 {
        if vAccel < MAX_ACCEL {
          vAccel := vAccel + 1;
        }
      } else {
        if vAccel > 0 {
          vAccel := vAccel - 1;
        }
      }
    }

    /**
     * The steering part of an unpaused input tick: each counter takes one
     * step according to its keys, and 't' flips turbo and is consumed.
     */
    method StepCounters()
      requires keyDown.Length == 256
      modifies this`uAccel, this`vAccel, this`nAccel, this`turbo, keyDown
      ensures Accels() == Step(old(Accels()), HeldKeys(old(keyDown[..])))
      ensures turbo == (old(turbo) != (old(keyDown[KEY_T]) == 1))
      ensures keyDown[..] == old(keyDown[..])[KEY_T := if old(keyDown[KEY_T]) == 1 then 0 else old(keyDown[KEY_T])]
    {
      StepForward();
      StepSideways();
      StepJetpack();
      if keyDown[KEY_T] == 1 {
        turbo := !turbo;
        keyDown[KEY_T] := 0;
      }
    }

    /**
     * The escape and pause keys, handled on every tick: escape on the splash
     * screen is consumed, unpauses and leaves the splash screen; escape
     * elsewhere ends the game. Then 'p' outside the splash screen flips the
     * pause flag and is consumed.
     */
    method MenuKeys()
      requires keyDown.Length == 256
      modifies this, keyDown
      ensures gameOver == (old(gameOver) || Quits(old(splash), old(keyDown[KEY_ESC]) == 1))
      ensures splash == (old(splash) && old(keyDown[KEY_ESC]) != 1)
      ensures paused == if Quits(old(splash), old(keyDown[KEY_ESC]) == 1) then old(paused)
                        else PausedAfter(old(paused), old(splash), old(keyDown[KEY_ESC]) == 1, old(keyDown[KEY_P]) == 1)
      ensures keyDown[KEY_ESC] == if old(keyDown[KEY_ESC]) == 1 && old(splash) then 0 else old(keyDown[KEY_ESC])
      ensures keyDown[KEY_P] == if !Quits(old(splash), old(keyDown[KEY_ESC]) == 1) && old(keyDown[KEY_P]) == 1 &&
                                   !(old(splash) && old(keyDown[KEY_ESC]) != 1) then 0 else old(keyDown[KEY_P])
      ensures forall k :: 0 <= k < 256 && k != KEY_ESC && k != KEY_P ==> keyDown[k] == old(keyDown[k])
      ensures world == old(world) && orbsCaptured == old(orbsCaptured) && orbsReleased == old(orbsReleased)
      ensures Accels() == old(Accels()) && turbo == old(turbo)
    {
      if keyDown[KEY_ESC] == 1 {
        if splash {
          keyDown[KEY_ESC] := 0;
          paused := false;
          splash := false;
        } else {
          gameOver := true;
          return;
        }
      }

      if keyDown[KEY_P] == 1 && !splash {
        paused := !paused;
        keyDown[KEY_P] := 0;
      }
    }

    /**
     * One tick of the input loop. Unpaused, it steps the counters, slides the
     * eye by the counters and sweeps the world; then, paused or not, it
     * handles the escape and pause keys.
     */
    method InputTick()
      requires Valid()
      modifies this, camera, keyDown
      ensures Valid()
      ensures camera.u == old(camera.u) && camera.v == old(camera.v) && camera.n == old(camera.n)
      ensures orbsReleased == old(orbsReleased)
      ensures old(paused) ==>
                Accels() == old(Accels()) && camera.eyeLoc == old(camera.eyeLoc) &&
                world == old(world) && orbsCaptured == old(orbsCaptured)
      ensures !old(paused) ==> Accels() == Step(old(Accels()), HeldKeys(old(keyDown[..])))
      ensures !old(paused) ==>
                camera.eyeLoc == Clamp(old(camera.eyeLoc),
                                       Candidate(old(camera.eyeLoc), camera.u, camera.v, camera.n,
                                                 uAccel as real * STEP, vAccel as real * STEP, nAccel as real * STEP))
      ensures !old(paused) ==>
                world == Survivors(old(world), camera.eyeLoc) &&
                orbsCaptured == old(orbsCaptured) + |Captured(old(world), camera.eyeLoc)|
      ensures turbo == (old(turbo) != (!old(paused) && old(keyDown[KEY_T]) == 1))
      ensures gameOver == (old(gameOver) || Quits(old(splash), old(keyDown[KEY_ESC]) == 1))
      ensures splash == (old(splash) && old(keyDown[KEY_ESC]) != 1)
      ensures paused == if Quits(old(splash), old(keyDown[KEY_ESC]) == 1) then old(paused)
                        else PausedAfter(old(paused), old(splash), old(keyDown[KEY_ESC]) == 1, old(keyDown[KEY_P]) == 1)
      ensures keyDown[KEY_T] == if !old(paused) && old(keyDown[KEY_T]) == 1 then 0 else old(keyDown[KEY_T])
      ensures keyDown[KEY_ESC] == if old(keyDown[KEY_ESC]) == 1 && old(splash) then 0 else old(keyDown[KEY_ESC])
      ensures keyDown[KEY_P] == if !Quits(old(splash), old(keyDown[KEY_ESC]) == 1) && old(keyDown[KEY_P]) == 1 &&
                                   !(old(splash) && old(keyDown[KEY_ESC]) != 1) then 0 else old(keyDown[KEY_P])
      ensures forall k :: 0 <= k < 256 && k != KEY_T && k != KEY_ESC && k != KEY_P ==> keyDown[k] == old(keyDown[k])
    {
      if !paused {
        StepCounters();
        StepKeepsBounds(old(Accels()), HeldKeys(old(keyDown[..])));
        camera.Slide(uAccel as real * STEP, vAccel as real * STEP, nAccel as real * STEP);
        DetectCollision();
      }
      MenuKeys();
    }

    /**
     * One spawn step of the game loop: unpaused, it appends the point built
     * from the six draws to the end of the world and counts it as released.
     */
    method SpawnStep(xa: nat, xb: nat, ya: nat, yb: nat, za: nat, zb: nat)
      requires Valid()
      modifies this
      ensures Valid()
      ensures !old(paused) ==>
                world == old(world) + [SpawnPoint(xa, xb, ya, yb, za, zb)] && orbsReleased == old(orbsReleased) + 1
      ensures old(paused) ==> world == old(world) && orbsReleased == old(orbsReleased)
      ensures orbsCaptured == old(orbsCaptured) && Accels() == old(Accels())
      ensures paused == old(paused) && splash == old(splash) && turbo == old(turbo) && gameOver == old(gameOver)
    {
      var bound := SPAWN_BOUND;
      if !paused {
        var treasure := Point3D((xa % bound - xb % bound) as real,
                                (ya % bound - yb % bound) as real,
                                (za % bound - zb % bound) as real);
        world := world + [treasure];
        orbsReleased := orbsReleased + 1;
      }
    }
  }
}
