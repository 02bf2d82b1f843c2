/**
 * The scene loop of assets/js/GLmainpage.js as the program runs it: an
 * object whose `position` array is updated in place and whose other fields
 * are reassigned by the key handler and the frame callback. Every method is
 * tied to the state machine of module Controller, whose lemmas state what
 * the loop guarantees.
 */
module MainPage {
  import opened Render
  import Controller
  import Arrows

  class SceneLoop {
    const setup: Controller.SceneSetup
    const position: array<real>
    var rotation: real
    var rot: real
    var anima: int
    var requestId: nat
    var nextHandle: nat
    var pending: set<nat>
    var frames: seq<Frame>

    ghost function State(): Controller.LoopState
      reads this, position
    {
      Controller.LoopState(position[..], rotation, rot, anima, requestId, nextHandle, pending, frames)
    }

    ghost predicate Valid()
      reads this, position
    {
      position.Length == 3 && Controller.Valid(State())
    }

    /** `main`: the initial state, then `animate()` since `anima` starts at 1. */
    constructor ()
      ensures fresh(position) && setup == Controller.MainSetup()
      ensures Valid() && State() == Controller.Start(setup)
    {
      setup := Controller.MainSetup();
      position := new real[3] [0.0, 0.0, -5.0];
      rotation, rot, anima := 0.0, 0.01, 1;
      requestId, nextHandle, pending := 0, 1, {};
      frames := [];
      new;
      assert position[..] == [0.0, 0.0, -5.0];
      assert State() == Controller.Initial();
      // `render()` would run if `anima` were 0 here; it is 1, so it never does.
      if anima == 1 {
        Animate();
      }
    }

    method RequestAnimationFrame()
      modifies this
      ensures State() == Controller.RequestAnimationFrame(old(State()))
    {
      requestId := nextHandle;
      pending := pending + {nextHandle};
      nextHandle := nextHandle + 1;
    }

    method CancelAnimationFrame(h: nat)
      modifies this
      ensures State() == Controller.CancelAnimationFrame(old(State()), h)
    {
      pending := pending - {h};
    }

    /** `animate()`. */
    method Animate()
      modifies this
      ensures State() == Controller.Animate(setup, old(State()))
    {
      rotation := rotation + rot;
      var frame := DrawScene(setup.objects, position[..], rotation, setup.pyramidBuffers, setup.terrainBuffers);
      frames := frames + [frame];
      RequestAnimationFrame();
    }

    /** `updatePosition(key)`: the switch, with no default case. */
    method HandleKey(key: string)
      requires Valid()
      modifies this, position
      ensures Valid()
      ensures State() == Controller.HandleKey(setup, old(State()), key)
    {
      if key == "ArrowUp" {
        position[1] := position[1] + Arrows.Step;
      } else if key == "ArrowDown" {
        position[1] := position[1] - Arrows.Step;
      } else if key == "ArrowLeft" {
        position[0] := position[0] - Arrows.Step;
      } else if key == "ArrowRight" {
        position[0] := position[0] + Arrows.Step;
      } else if key == "p" {
        // Euclidean and truncating % agree here: Valid keeps anima at 0 or 1.
        anima := (anima + 1) % 2;
        if anima == 1 {
          Animate();
        } else {
          CancelAnimationFrame(requestId);
        }
      } else if key == "e" {
        rot := rot - Controller.RotStep;
      } else if key == "r" {
        rot := rot + Controller.RotStep;
      }
    }

    /** The host runs the callback with handle `h`, if it is still pending. */
    method OnAnimationFrame(h: nat)
      requires Valid()
      modifies this
      ensures Valid()
      ensures State() == Controller.Tick(setup, old(State()), h)
    {
      if h in pending {
        pending := pending - {h};
        Animate();
      }
    }
  }
}
