/**
 * assets/js/gamecode.js: one pyramid, translated by `position` and never
 * rotated. A key press runs the arrow-key update and then redraws; the
 * render loop redraws once per display frame and always re-arms, so it is
 * modelled as one frame per `DisplayFrame` event. Numbers are `real`; IEEE
 * rounding is not modelled.
 */
module Game {
  import opened Render
  import Meshes
  import Arrows

  /** `initBuffers`: the pyramid table, 54 coordinates, 18 vertices. */
  function InitBuffers(): (b: MeshBuffer)
    ensures b.numVertices == 18
    ensures 3 * b.numVertices == |Meshes.GamePyramidPositions()|
  {
    MeshBuffer(Meshes.NumVertices(Meshes.GamePyramidPositions()))
  }

  /** `drawScene`: a single draw of the whole buffer, translated by `position`. */
  function SceneFrame(buffers: MeshBuffer, position: seq<real>): (f: Frame)
    ensures Counts(f) == [buffers.numVertices] && f.unknownTypes == []
    ensures f.calls[0].mesh == Pyramid && f.calls[0].modelView == Translate(position)
  {
    Frame([DrawCall(Pyramid, buffers.numVertices, Translate(position))], [])
  }

  datatype GameState = GameState(position: seq<real>, frames: seq<Frame>)

  /** `main`: the position [0, 0, -5], then `render()` draws once. */
  function Start(buffers: MeshBuffer): (s: GameState)
    ensures s.position == [0.0, 0.0, -5.0] && |s.frames| == 1
    ensures Shown(buffers, s) && SingleDraws(buffers, s)
  {
    GameState([0.0, 0.0, -5.0], [SceneFrame(buffers, [0.0, 0.0, -5.0])])
  }

  /** The keydown listener: `updatePosition(event.key)`, then `drawScene`. */
  function KeyDown(buffers: MeshBuffer, s: GameState, key: string): (t: GameState)
    requires |s.position| == 3
    ensures |t.position| == 3 && t.position == Arrows.Move(s.position, key)
    ensures |t.frames| == |s.frames| + 1 && t.frames[..|s.frames|] == s.frames
    ensures Shown(buffers, t)
    ensures SingleDraws(buffers, s) ==> SingleDraws(buffers, t)
  {
    var position := Arrows.Move(s.position, key);
    GameState(position, s.frames + [SceneFrame(buffers, position)])
  }

  /** One pass of `render()`. */
  function RenderPass(buffers: MeshBuffer, s: GameState): (t: GameState)
    ensures t.position == s.position
    ensures |t.frames| == |s.frames| + 1 && t.frames[..|s.frames|] == s.frames
    ensures Shown(buffers, t)
    ensures SingleDraws(buffers, s) ==> SingleDraws(buffers, t)
  {
    s.(frames := s.frames + [SceneFrame(buffers, s.position)])
  }

  datatype Event = KeyPress(key: string) | DisplayFrame

  function Step(buffers: MeshBuffer, s: GameState, e: Event): (t: GameState)
    requires |s.position| == 3
    ensures |t.position| == 3
  {
    match e
    case KeyPress(key) => KeyDown(buffers, s, key)
    case DisplayFrame => RenderPass(buffers, s)
  }

  function Run(buffers: MeshBuffer, s: GameState, events: seq<Event>): (t: GameState)
    requires |s.position| == 3
    ensures |t.position| == 3
    decreases |events|
  {
    if events == [] then s else Run(buffers, Step(buffers, s, events[0]), events[1..])
  }

  /** The keys among the events, in order. */
  function Keys(events: seq<Event>): seq<string>
    decreases |events|
  {
    if events == [] then []
    else (if events[0].KeyPress? then [events[0].key] else []) + Keys(events[1..])
  }

  /** The screen shows the current position: the last frame drawn is the scene at `position`. */
  ghost predicate Shown(buffers: MeshBuffer, s: GameState)
  {
    |s.frames| > 0 && s.frames[|s.frames| - 1] == SceneFrame(buffers, s.position)
  }

  /** Every frame is a single draw of all of the buffer's vertices. */
  ghost predicate SingleDraws(buffers: MeshBuffer, s: GameState)
  {
    forall i :: 0 <= i < |s.frames| ==>
      |s.frames[i].calls| == 1 && s.frames[i].calls[0].count == buffers.numVertices &&
      s.frames[i].calls[0].mesh == Pyramid && s.frames[i].calls[0].modelView.Translate?
  }

  /** Each key press issues exactly one draw, of 18 vertices, showing the position after the key. */
  lemma KeyDownUpdatesThenDraws(s: GameState, key: string)
    requires |s.position| == 3
    ensures var t := KeyDown(InitBuffers(), s, key);
      && t.position == Arrows.Move(s.position, key)
      && |t.frames| == |s.frames| + 1 && t.frames[..|s.frames|] == s.frames
      && Shown(InitBuffers(), t)
      && t.frames[|s.frames|].calls == [DrawCall(Pyramid, 18, Translate(t.position))]
  {
  }

  /** Any key other than the four arrows (among them 'p', 'e' and 'r') leaves the position as it is. */
  lemma OtherKeysKeepPosition(buffers: MeshBuffer, s: GameState, key: string)
    requires |s.position| == 3 && !Arrows.IsArrow(key)
    ensures KeyDown(buffers, s, key).position == s.position
  {
  }

  /**
   * Over any run from the start: the position is the arrow moves of the
   * keys pressed, applied in order; depth stays at -5; one frame is drawn
   * per event, each a single draw of every vertex; and the screen always
   * shows the current position.
   */
  lemma {:induction false} RunFromStart(buffers: MeshBuffer, events: seq<Event>)
    ensures var t := Run(buffers, Start(buffers), events);
      && t.position == Arrows.MoveAll([0.0, 0.0, -5.0], Keys(events))
      && t.position[2] == -5.0
      && |t.frames| == 1 + |events|
      && SingleDraws(buffers, t)
      && Shown(buffers, t)
  {
    RunInvariant(buffers, Start(buffers), events);
    Arrows.MoveAllKeepsDepth([0.0, 0.0, -5.0], Keys(events));
  }

  lemma {:induction false} RunInvariant(buffers: MeshBuffer, s: GameState, events: seq<Event>)
    requires |s.position| == 3 && SingleDraws(buffers, s) && Shown(buffers, s)
    ensures var t := Run(buffers, s, events);
      && t.position == Arrows.MoveAll(s.position, Keys(events))
      && |t.frames| == |s.frames| + |events|
      && SingleDraws(buffers, t)
      && Shown(buffers, t)
    decreases |events|
  {
    if events != [] {
      var s' := Step(buffers, s, events[0]);
      assert SingleDraws(buffers, s') by {
        forall i | 0 <= i < |s'.frames|
          ensures |s'.frames[i].calls| == 1 && s'.frames[i].calls[0].count == buffers.numVertices &&
                  s'.frames[i].calls[0].mesh == Pyramid && s'.frames[i].calls[0].modelView.Translate?
        {
          if i < |s.frames| {
            assert s'.frames[i] == s.frames[i];
          }
        }
      }
      RunInvariant(buffers, s', events[1..]);
      if events[0].KeyPress? {
        assert Keys(events) == [events[0].key] + Keys(events[1..]);
      } else {
        assert Keys(events) == Keys(events[1..]);
        assert Arrows.Move(s.position, "") == s.position;
      }
    }
  }

  /** Up then Down, or Left then Right, returns the pyramid to where it was. */
  lemma OppositeKeysCancel(buffers: MeshBuffer, s: GameState, key: string)
    requires |s.position| == 3 && Arrows.IsArrow(key)
    ensures KeyDown(buffers, KeyDown(buffers, s, key), Arrows.Opposite(key)).position == s.position
  {
    Arrows.MoveThenOpposite(s.position, key);
  }

  /**
   * The page as the program runs it: the `position` array updated in place
   * by the key handler, and the frames drawn so far.
   */
  class GameScene {
    const buffers: MeshBuffer
    const position: array<real>
    var frames: seq<Frame>

    ghost function State(): GameState
      reads this, position
    {
      GameState(position[..], frames)
    }

    constructor ()
      ensures fresh(position) && position.Length == 3
      ensures buffers == InitBuffers() && State() == Start(buffers)
    {
      buffers := InitBuffers();
      position := new real[3] [0.0, 0.0, -5.0];
      frames := [];
      new;
      assert position[..] == [0.0, 0.0, -5.0];
      DrawScene();
    }

    /** `updatePosition(key)`: the four arrow cases, no default. */
    method UpdatePosition(key: string)
      requires position.Length == 3
      modifies position
      ensures position[..] == Arrows.Move(old(position[..]), key)
    {
      if key == "ArrowUp" {
        position[1] := position[1] + Arrows.Step;
      } else if key == "ArrowDown" {
        position[1] := position[1] - Arrows.Step;
      } else if key == "ArrowLeft" {
        position[0] := position[0] - Arrows.Step;
      } else if key == "ArrowRight" {
        position[0] := position[0] + Arrows.Step;
      }
    }

    method DrawScene()
      modifies this
      ensures frames == old(frames) + [SceneFrame(buffers, position[..])]
    {
      frames := frames + [Frame([DrawCall(Pyramid, buffers.numVertices, Translate(position[..]))], [])];
    }

    /** The keydown listener. */
    method OnKeyDown(key: string)
      requires position.Length == 3
      modifies this, position
      ensures State() == KeyDown(buffers, old(State()), key)
    {
      UpdatePosition(key);
      DrawScene();
    }

    /** One display frame of `render()`. */
    method OnDisplayFrame()
      modifies this
      ensures State() == RenderPass(buffers, old(State()))
    {
      DrawScene();
    }
  }
}
