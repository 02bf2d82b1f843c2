/**
 * The keyboard-driven scene loop of assets/js/GLmainpage.js as a state
 * machine over values: the shared translation `position`, the angle
 * `rotation`, the per-frame speed `rot`, the animation flag `anima`, the
 * browser's animation-frame callbacks, and the frames drawn so far.
 *
 * `requestAnimationFrame` is modelled as handing out fresh handles
 * (`nextHandle` counts up; browsers start at 1, and 0 stands for the
 * `requestId` that is still undefined) and `cancelAnimationFrame(h)` as
 * removing `h` from the pending set. The host fires only pending callbacks;
 * the display's cadence and timing are not modelled. Numbers are `real`:
 * IEEE rounding of the repeated 0.1 and 0.001 steps is not modelled.
 */
module Controller {
  import opened Render
  import Arrows

  /** The change of `rot` per 'e' or 'r' press (0.001 in the source). */
  const RotStep: real := 0.001

  /** What the loop draws with: the object list and the two buffers. */
  datatype SceneSetup = SceneSetup(objects: seq<SceneObject>, pyramidBuffers: MeshBuffer, terrainBuffers: MeshBuffer)

  function MainSetup(): (setup: SceneSetup)
    ensures setup.pyramidBuffers.numVertices == 18 && setup.terrainBuffers.numVertices == 6
    ensures |setup.objects| == 3
  {
    SceneSetup(Objects(), InitPyramidBuffers(), InitTerrainBuffers())
  }

  datatype LoopState = LoopState(
    position: seq<real>,   // the closure's `position`, three coordinates
    rotation: real,        // the closure's `rotation`
    rot: real,             // module-level rotation speed
    anima: int,            // module-level animation flag
    requestId: nat,        // the handle of the last requested frame
    nextHandle: nat,       // the handle the next request will receive
    pending: set<nat>,     // callbacks requested and neither fired nor cancelled
    frames: seq<Frame>)    // every drawScene issued so far, in order

  /** The state once `main` has set up, before its first `animate()`. */
  function Initial(): (s: LoopState)
    ensures s.position == [0.0, 0.0, -5.0] && s.rotation == 0.0 && s.rot == 0.01
    ensures s.anima == 1 && s.pending == {} && s.frames == [] && s.requestId < s.nextHandle
  {
    LoopState([0.0, 0.0, -5.0], 0.0, 0.01, 1, 0, 1, {}, [])
  }

  /** A fresh handle becomes `requestId` and is pending; nothing else changes. */
  function RequestAnimationFrame(s: LoopState): (t: LoopState)
    ensures t.pending == s.pending + {t.requestId} && t.requestId < t.nextHandle
    ensures (forall h :: h in s.pending ==> h < s.nextHandle) ==> t.requestId !in s.pending
    ensures t.(requestId := s.requestId, nextHandle := s.nextHandle, pending := s.pending) == s
  {
    s.(requestId := s.nextHandle, nextHandle := s.nextHandle + 1, pending := s.pending + {s.nextHandle})
  }

  /** Handle `h` is no longer pending; cancelling it again changes nothing. */
  function CancelAnimationFrame(s: LoopState, h: nat): (t: LoopState)
    ensures h !in t.pending && t.pending == s.pending - {h}
    ensures t.(pending := s.pending) == s
    ensures t.pending - {h} == t.pending
  {
    s.(pending := s.pending - {h})
  }

  /** `animate()`: advance the angle by `rot`, draw, and re-arm the callback. */
  function Animate(setup: SceneSetup, s: LoopState): (t: LoopState)
    ensures t.position == s.position && t.rot == s.rot && t.anima == s.anima
  {
    var rotation := s.rotation + s.rot;
    var frame := RenderFrame(setup.objects, s.position, rotation, setup.pyramidBuffers, setup.terrainBuffers);
    RequestAnimationFrame(s.(rotation := rotation, frames := s.frames + [frame]))
  }

  /** `main`'s start: `anima` is 1 when the page loads, so it calls `animate()`. */
  function Start(setup: SceneSetup): (t: LoopState)
    ensures Valid(t) && t.anima == 1
    ensures t.rotation == Initial().rotation + Initial().rot && |t.frames| == 1
  {
    Animate(setup, Initial())
  }

  /** The seven keys the switch of `updatePosition` has a case for. */
  predicate IsHandled(key: string)
  {
    Arrows.IsArrow(key) || key == "p" || key == "e" || key == "r"
  }

  /** `updatePosition(key)`. Depth (axis 2) is never touched. */
  function HandleKey(setup: SceneSetup, s: LoopState, key: string): (t: LoopState)
    requires |s.position| == 3
    ensures |t.position| == 3 && t.position[2] == s.position[2]
    ensures !IsHandled(key) ==> t == s
  {
    match key
    case "ArrowUp" | "ArrowDown" | "ArrowLeft" | "ArrowRight" =>
      s.(position := Arrows.Move(s.position, key))
    case "p" =>
      // Dafny's % is Euclidean and JavaScript's truncates; they agree for
      // anima in {0, 1}, the only values Valid allows.
      var toggled := s.(anima := (s.anima + 1) % 2);
      if toggled.anima == 1 then Animate(setup, toggled)
      else CancelAnimationFrame(toggled, toggled.requestId)
    case "e" => s.(rot := s.rot - RotStep)
    case "r" => s.(rot := s.rot + RotStep)
    case _ => s
  }

  /** The host runs callback `h`; a callback that is no longer pending never runs. */
  function Tick(setup: SceneSetup, s: LoopState, h: nat): (t: LoopState)
    ensures t.position == s.position && t.rot == s.rot && t.anima == s.anima
    ensures h !in s.pending ==> t == s
  {
    if h in s.pending then Animate(setup, s.(pending := s.pending - {h})) else s
  }

  /** The states the loop can be in: one live callback while animating, none while paused. */
  ghost predicate Valid(s: LoopState)
  {
    && |s.position| == 3
    && s.requestId < s.nextHandle
    && ((s.anima == 1 && s.pending == {s.requestId}) || (s.anima == 0 && s.pending == {}))
  }

  datatype Event = KeyDown(key: string) | AnimationFrame(handle: nat)

  function Step(setup: SceneSetup, s: LoopState, e: Event): (t: LoopState)
    requires |s.position| == 3
    ensures |t.position| == 3 && t.position[2] == s.position[2]
  {
    match e
    case KeyDown(key) => HandleKey(setup, s, key)
    case AnimationFrame(h) => Tick(setup, s, h)
  }

  /** Key presses and animation frames delivered one at a time, in order. */
  function Run(setup: SceneSetup, s: LoopState, events: seq<Event>): (t: LoopState)
    requires |s.position| == 3
    ensures |t.position| == 3
    decreases |events|
  {
    if events == [] then s else Run(setup, Step(setup, s, events[0]), events[1..])
  }

  lemma StartIsValid(setup: SceneSetup)
    ensures var s := Start(setup);
      && Valid(s) && s.anima == 1
      && s.rotation == 0.01 && s.position == [0.0, 0.0, -5.0]
      && s.frames == [RenderFrame(setup.objects, [0.0, 0.0, -5.0], 0.01, setup.pyramidBuffers, setup.terrainBuffers)]
  {
  }

  lemma StepPreservesValid(setup: SceneSetup, s: LoopState, e: Event)
    requires Valid(s)
    ensures Valid(Step(setup, s, e))
  {
  }

  /**
   * Over any run from a reachable state: the state stays reachable, so at
   * most one animation chain is ever live, `anima` stays 0 or 1, and the
   * depth coordinate never changes.
   */
  lemma {:induction false} RunPreservesValid(setup: SceneSetup, s: LoopState, events: seq<Event>)
    requires Valid(s)
    ensures var t := Run(setup, s, events);
      Valid(t) && |t.pending| <= 1 && (t.anima == 0 || t.anima == 1) && t.position[2] == s.position[2]
    decreases |events|
  {
    if events != [] {
      StepPreservesValid(setup, s, events[0]);
      RunPreservesValid(setup, Step(setup, s, events[0]), events[1..]);
    }
  }

  /** An arrow key moves exactly one axis by exactly one step, and changes nothing else. */
  lemma ArrowKeyMovesOneAxis(setup: SceneSetup, s: LoopState, key: string)
    requires |s.position| == 3 && Arrows.IsArrow(key)
    ensures var a := Arrows.Axis(key);
      HandleKey(setup, s, key) == s.(position := s.position[a := s.position[a] + Arrows.Delta(key)])
  {
  }

  /** In a reachable state a key changes nothing exactly when the switch has no case for it. */
  lemma NoOpIffUnhandled(setup: SceneSetup, s: LoopState, key: string)
    requires Valid(s)
    ensures HandleKey(setup, s, key) == s <==> !IsHandled(key)
  {
    if key == "ArrowUp" || key == "ArrowDown" {
      assert HandleKey(setup, s, key).position[1] != s.position[1];
    } else if key == "ArrowLeft" || key == "ArrowRight" {
      assert HandleKey(setup, s, key).position[0] != s.position[0];
    } else if key == "p" {
      assert HandleKey(setup, s, key).anima != s.anima;
    }
  }

  /** 'r' and 'e' change `rot` by one step each way and undo each other. */
  lemma SpeedKeys(setup: SceneSetup, s: LoopState)
    requires |s.position| == 3
    ensures HandleKey(setup, s, "r") == s.(rot := s.rot + RotStep)
    ensures HandleKey(setup, s, "e") == s.(rot := s.rot - RotStep)
    ensures HandleKey(setup, HandleKey(setup, s, "r"), "e") == s
    ensures HandleKey(setup, HandleKey(setup, s, "e"), "r") == s
  {
  }

  /** No key but 'p' changes the angle or draws; 'p' does so only by running `animate()`. */
  lemma OnlyAnimateRotates(setup: SceneSetup, s: LoopState, key: string)
    requires |s.position| == 3
    ensures var t := HandleKey(setup, s, key);
      (key != "p" ==> t.rotation == s.rotation && t.frames == s.frames) &&
      (key == "p" ==> t.rotation == s.rotation || t.rotation == s.rotation + s.rot)
  {
  }

  /**
   * Pausing: 'p' while animating sets `anima` to 0 and cancels the live
   * callback, so no frame runs afterwards, whatever the host delivers.
   */
  lemma PauseCancels(setup: SceneSetup, s: LoopState, h: nat)
    requires Valid(s) && s.anima == 1
    ensures var t := HandleKey(setup, s, "p");
      && Valid(t) && t.anima == 0 && t.pending == {}
      && t.rotation == s.rotation && t.frames == s.frames
      && Tick(setup, t, h) == t
  {
  }

  /**
   * Resuming: 'p' while paused sets `anima` to 1 and runs `animate()` at
   * once, so the angle advances by exactly `rot`, one frame is drawn with
   * the new angle, and a single fresh callback is pending.
   */
  lemma ResumeAnimatesOnce(setup: SceneSetup, s: LoopState)
    requires Valid(s) && s.anima == 0
    ensures var t := HandleKey(setup, s, "p");
      && Valid(t) && t.anima == 1
      && t.rotation == s.rotation + s.rot
      && t.frames == s.frames + [RenderFrame(setup.objects, s.position, t.rotation, setup.pyramidBuffers, setup.terrainBuffers)]
      && t.pending == {s.nextHandle} && s.nextHandle !in s.pending
  {
  }

  /**
   * Two 'p' presses restore `anima`. While animating, pausing and resuming
   * is indistinguishable from letting the live callback fire: the angle
   * follows the same trajectory as if the animation had never paused.
   */
  lemma ToggleTwice(setup: SceneSetup, s: LoopState)
    requires Valid(s)
    ensures HandleKey(setup, HandleKey(setup, s, "p"), "p").anima == s.anima
    ensures s.anima == 1 ==> HandleKey(setup, HandleKey(setup, s, "p"), "p") == Tick(setup, s, s.requestId)
  {
  }

  /** n animation frames, each firing the live callback. */
  function Frames(setup: SceneSetup, s: LoopState, n: nat): (t: LoopState)
    decreases n
  {
    if n == 0 then s else Frames(setup, Tick(setup, s, s.requestId), n - 1)
  }

  /**
   * After n frames at constant speed the angle has grown by exactly n * rot,
   * one frame per callback; it never wraps or resets, and the loop keeps
   * animating.
   */
  lemma {:induction false} FramesAccumulate(setup: SceneSetup, s: LoopState, n: nat)
    requires Valid(s) && s.anima == 1
    ensures var t := Frames(setup, s, n);
      && Valid(t) && t.anima == 1 && t.rot == s.rot && t.position == s.position
      && t.rotation == s.rotation + (n as real) * s.rot
      && |t.frames| == |s.frames| + n
    decreases n
  {
    if n > 0 {
      var s' := Tick(setup, s, s.requestId);
      FramesAccumulate(setup, s', n - 1);
      assert s.rotation + s.rot + ((n - 1) as real) * s.rot == s.rotation + (n as real) * s.rot;
    }
  }

  /** n presses of the same key. */
  function Presses(setup: SceneSetup, s: LoopState, key: string, n: nat): (t: LoopState)
    requires |s.position| == 3
    ensures |t.position| == 3
    decreases n
  {
    if n == 0 then s else Presses(setup, HandleKey(setup, s, key), key, n - 1)
  }

  /** n presses of 'r' raise the speed by n steps and change nothing else. */
  lemma {:induction false} SpeedUpPresses(setup: SceneSetup, s: LoopState, n: nat)
    requires |s.position| == 3
    ensures Presses(setup, s, "r", n) == s.(rot := s.rot + (n as real) * RotStep)
    decreases n
  {
    if n > 0 {
      SpeedUpPresses(setup, HandleKey(setup, s, "r"), n - 1);
    }
  }

  /** n speed-ups then m frames turn the scene by m * (rot + n * 0.001). */
  lemma SpeedUpThenFrames(setup: SceneSetup, s: LoopState, n: nat, m: nat)
    requires Valid(s) && s.anima == 1
    ensures Frames(setup, Presses(setup, s, "r", n), m).rotation
         == s.rotation + (m as real) * (s.rot + (n as real) * RotStep)
  {
    SpeedUpPresses(setup, s, n);
    FramesAccumulate(setup, Presses(setup, s, "r", n), m);
  }
}
