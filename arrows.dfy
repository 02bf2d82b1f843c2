/**
 * The arrow-key part of `updatePosition`, the same four cases in both
 * assets/js/GLmainpage.js and assets/js/gamecode.js: Up and Down move the
 * translation along axis 1, Left and Right along axis 0, by a step of 0.1.
 * Any other key matches no case and leaves the translation as it is.
 */
module Arrows {

  /** The movement step of one key press (0.1 in the source, a double there). */
  const Step: real := 0.1

  predicate IsArrow(key: string)
  {
    key == "ArrowUp" || key == "ArrowDown" || key == "ArrowLeft" || key == "ArrowRight"
  }

  /** The axis an arrow key moves along. */
  function Axis(key: string): (a: nat)
    requires IsArrow(key)
    ensures a < 2
  {
    if key == "ArrowUp" || key == "ArrowDown" then 1 else 0
  }

  /** The signed displacement an arrow key applies to its axis. */
  function Delta(key: string): (d: real)
    requires IsArrow(key)
    ensures d == Step || d == -Step
    ensures d == Step <==> key == "ArrowUp" || key == "ArrowRight"
  {
    if key == "ArrowUp" || key == "ArrowRight" then Step else -Step
  }

  /** The new translation after one key press, as the switch computes it. */
  function Move(p: seq<real>, key: string): (q: seq<real>)
    requires |p| == 3
    ensures |q| == 3
    ensures q[2] == p[2]
    ensures IsArrow(key) ==> q == p[Axis(key) := p[Axis(key)] + Delta(key)]
    ensures !IsArrow(key) ==> q == p
  {
    match key
    case "ArrowUp" => p[1 := p[1] + Step]
    case "ArrowDown" => p[1 := p[1] - Step]
    case "ArrowLeft" => p[0 := p[0] - Step]
    case "ArrowRight" => p[0 := p[0] + Step]
    case _ => p
  }

  /** The key that undoes an arrow key. */
  function Opposite(key: string): (k: string)
    requires IsArrow(key)
    ensures IsArrow(k) && Axis(k) == Axis(key) && Delta(k) == -Delta(key)
  {
    match key
    case "ArrowUp" => "ArrowDown"
    case "ArrowDown" => "ArrowUp"
    case "ArrowLeft" => "ArrowRight"
    case _ => "ArrowLeft"
  }

  /** An arrow key followed by its opposite restores the translation exactly. */
  lemma MoveThenOpposite(p: seq<real>, key: string)
    requires |p| == 3 && IsArrow(key)
    ensures Move(Move(p, key), Opposite(key)) == p
  {
  }

  /** Applying a sequence of key presses in order. */
  function MoveAll(p: seq<real>, keys: seq<string>): (q: seq<real>)
    requires |p| == 3
    ensures |q| == 3
    decreases |keys|
  {
    if keys == [] then p else MoveAll(Move(p, keys[0]), keys[1..])
  }

  /** No sequence of keys changes the depth coordinate, axis 2. */
  lemma {:induction false} MoveAllKeepsDepth(p: seq<real>, keys: seq<string>)
    requires |p| == 3
    ensures MoveAll(p, keys)[2] == p[2]
    decreases |keys|
  {
    if keys != [] {
      MoveAllKeepsDepth(Move(p, keys[0]), keys[1..]);
    }
  }

  /** n presses of one arrow key move its axis by exactly n steps, and nothing else. */
  lemma {:induction false} RepeatedPresses(p: seq<real>, key: string, n: nat)
    requires |p| == 3 && IsArrow(key)
    ensures MoveAll(p, seq(n, _ => key)) == p[Axis(key) := p[Axis(key)] + (n as real) * Delta(key)]
    decreases n
  {
    if n > 0 {
      var keys := seq(n, _ => key);
      assert keys[1..] == seq(n - 1, _ => key);
      var q := Move(p, key);
      RepeatedPresses(q, key, n - 1);
    }
  }
}
